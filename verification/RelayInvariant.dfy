/**
 What every interleaving of the relay's critical sections keeps, and what follows:
 membership is tied to `current_room`, an empty room in the map always has a task that
 will still remove it, and nothing is left in the map once every connection has ended.
 */
module RelayInvariant {
  import opened Options
  import opened RelayRegistry
  import opened Sets

  // Before the removal section of leave_room a task may be a member of the mapped room (n, r)
  predicate MayHold(t: Task, n: Name, r: RoomId) {
    match t.pc
    case Reading => t.current == Some(n)
    case FanLookup(_) => t.current == Some(n)
    case FanSend(_) => t.current == Some(n)
    case FanLoop(_, _, _) => t.current == Some(n)
    case FanEvict(_, _) => t.current == Some(n)
    case LeaveLookup(m, _) => m == n
    case LeaveRemove(m, q, _) => m == n && q == r
    case _ => false
  }

  // The task will still look at the room mapped as (n, r), or insert itself into it
  predicate Obliged(t: Task, n: Name, r: RoomId) {
    || MayHold(t, n, r)
    || (t.pc.LeavePeek? && t.pc.name == n)
    || (t.pc.LeaveRecheck? && t.pc.name == n)
    || (t.pc.LeaveUnmap? && t.pc.name == n)
    || (t.pc.JoinInsert? && t.pc.room == r)
  }

  ghost predicate SomeoneObliged(s: State, n: Name, r: RoomId) {
    exists c :: c in s.tasks && Obliged(s.tasks[c], n, r)
  }

  ghost predicate MapInRange(s: State) {
    forall n | n in s.mapped :: s.mapped[n] < |s.rooms| && s.rooms[s.mapped[n]].name == n
  }

  predicate TaskConsistent(s: State, t: Task) {
    match t.pc
    case LeaveLookup(n, _) => t.current == Some(n)
    case LeaveRemove(n, r, _) => t.current == Some(n) && r < |s.rooms| && s.rooms[r].name == n
    case LeavePeek(n, _) => t.current == Some(n)
    case LeaveRecheck(n, _) => t.current == Some(n)
    case LeaveUnmap(n, _) => t.current == Some(n)
    case JoinInsert(n, r) => r < |s.rooms| && s.rooms[r].name == n
    case FanSend(r) => r < |s.rooms|
    case FanLoop(r, _, _) => r < |s.rooms|
    case FanEvict(r, _) => r < |s.rooms|
    case _ => true
  }

  ghost predicate TasksConsistent(s: State) {
    forall c | c in s.tasks :: TaskConsistent(s, s.tasks[c])
  }

  // A member of a mapped room is a task that has not removed itself yet
  ghost predicate MembersHold(s: State)
    requires MapInRange(s)
  {
    forall n, c | n in s.mapped && c in s.rooms[s.mapped[n]].members ::
      c in s.tasks && MayHold(s.tasks[c], n, s.mapped[n])
  }

  // An empty room in the map has a task that has yet to deal with it
  ghost predicate EmptyRoomsObliged(s: State)
    requires MapInRange(s)
  {
    forall n | n in s.mapped && s.rooms[s.mapped[n]].members == {} :: SomeoneObliged(s, n, s.mapped[n])
  }

  ghost predicate WithinCaps(s: State) {
    && |s.mapped| <= MAX_ROOMS
    && forall r | 0 <= r < |s.rooms| :: |s.rooms[r].members| <= MAX_PEERS_PER_ROOM
  }

  // The map is held for writing exactly by the task between LeaveRecheck and the removal
  ghost predicate WriterHolds(s: State) {
    forall c :: s.writer == Some(c) <==> c in s.tasks && s.tasks[c].pc.LeaveUnmap?
  }

  ghost predicate Inv(s: State) {
    && MapInRange(s)
    && TasksConsistent(s)
    && MembersHold(s)
    && EmptyRoomsObliged(s)
    && WithinCaps(s)
    && WriterHolds(s)
  }

  // The rooms that existed keep their names, and only task c changed
  ghost predicate OnlyTask(s: State, s': State, c: Conn) {
    && c in s'.tasks && s'.tasks == s.tasks[c := s'.tasks[c]]
    && |s.rooms| <= |s'.rooms|
    && forall r | 0 <= r < |s.rooms| :: s'.rooms[r].name == s.rooms[r].name
  }

  lemma OthersStayConsistent(s: State, s': State, c: Conn)
    requires TasksConsistent(s) && OnlyTask(s, s', c) && TaskConsistent(s', s'.tasks[c])
    ensures TasksConsistent(s')
  {
    forall d | d in s'.tasks ensures TaskConsistent(s', s'.tasks[d]) {
      if d != c { assert TaskConsistent(s, s.tasks[d]); }
    }
  }

  // An obligation of a task other than c, or one that c keeps, survives a step of c
  lemma ObligationSurvives(s: State, s': State, c: Conn, n: Name, r: RoomId)
    requires SomeoneObliged(s, n, r) && OnlyTask(s, s', c)
    requires c in s.tasks && Obliged(s.tasks[c], n, r) ==> Obliged(s'.tasks[c], n, r)
    ensures SomeoneObliged(s', n, r)
  {
    var d :| d in s.tasks && Obliged(s.tasks[d], n, r);
    assert d in s'.tasks && Obliged(s'.tasks[d], n, r);
  }

  lemma WriterUnaffected(s: State, s': State, c: Conn)
    requires WriterHolds(s) && OnlyTask(s, s', c) && s'.writer == s.writer
    requires c in s.tasks ==> !s.tasks[c].pc.LeaveUnmap?
    requires !s'.tasks[c].pc.LeaveUnmap?
    ensures WriterHolds(s')
  {
    forall d ensures s'.writer == Some(d) <==> d in s'.tasks && s'.tasks[d].pc.LeaveUnmap? {
      assert s.writer == Some(d) <==> d in s.tasks && s.tasks[d].pc.LeaveUnmap?;
    }
  }

  // Only task c changes, everything shared stays: the case of most critical sections
  lemma TaskStepKeepsInv(s: State, s': State, c: Conn)
    requires Inv(s)
    requires c in s'.tasks && s' == SetTask(s, c, s'.tasks[c]).(writer := s'.writer)
    requires TaskConsistent(s, s'.tasks[c])
    requires c in s.tasks ==> forall n | n in s.mapped ::
      && (c in s.rooms[s.mapped[n]].members && MayHold(s.tasks[c], n, s.mapped[n]) ==>
            MayHold(s'.tasks[c], n, s.mapped[n]))
      && (s.rooms[s.mapped[n]].members == {} && Obliged(s.tasks[c], n, s.mapped[n]) ==>
            Obliged(s'.tasks[c], n, s.mapped[n]))
    requires WriterHolds(s')
    ensures Inv(s')
  {
    forall n | n in s'.mapped && s'.rooms[s'.mapped[n]].members == {}
      ensures SomeoneObliged(s', n, s'.mapped[n])
    {
      var d :| d in s.tasks && Obliged(s.tasks[d], n, s.mapped[n]);
      assert d in s'.tasks && Obliged(s'.tasks[d], n, s'.mapped[n]);
    }
  }

  lemma ReceiveKeepsInv(s: State, c: Conn, request: Request)
    requires Inv(s) && Enabled(s, Receive(c, request))
    ensures Inv(Next(s, Receive(c, request)))
  {
    TaskStepKeepsInv(s, Next(s, Receive(c, request)), c);
  }

  lemma OfferKeepsInv(s: State, c: Conn, p: Conn, ok: bool)
    requires Inv(s) && Enabled(s, Offer(c, p, ok))
    ensures Inv(Next(s, Offer(c, p, ok)))
  {
    TaskStepKeepsInv(s, Next(s, Offer(c, p, ok)), c);
  }

  // A step of task c that changes the members of room r and nothing else that is shared
  ghost predicate OnlyRoom(s: State, s': State, c: Conn, r: RoomId) {
    && OnlyTask(s, s', c) && c in s.tasks
    && s'.mapped == s.mapped && s'.writer == s.writer
    && r < |s.rooms| == |s'.rooms|
    && (forall q | 0 <= q < |s.rooms| && q != r :: s'.rooms[q] == s.rooms[q])
    && s'.rooms[r].members <= s.rooms[r].members + {c}
  }

  lemma RoomStepMembers(s: State, s': State, c: Conn, r: RoomId)
    requires Inv(s) && OnlyRoom(s, s', c, r)
    requires forall n | n in s.mapped && c in s'.rooms[s.mapped[n]].members :: MayHold(s'.tasks[c], n, s.mapped[n])
    ensures MapInRange(s') && MembersHold(s')
  {
    forall n, d | n in s'.mapped && d in s'.rooms[s'.mapped[n]].members
      ensures d in s'.tasks && MayHold(s'.tasks[d], n, s'.mapped[n])
    {
      if d != c { assert d in s.tasks && MayHold(s.tasks[d], n, s.mapped[n]); }
    }
  }

  // What a room section must show: c is still before its removal wherever it is a member,
  // gives up no obligation to another room, and leaves r in somebody's care
  lemma RoomStepKeepsInv(s: State, s': State, c: Conn, r: RoomId)
    requires Inv(s) && OnlyRoom(s, s', c, r)
    requires |s'.rooms[r].members| <= MAX_PEERS_PER_ROOM
    requires TaskConsistent(s', s'.tasks[c]) && !s.tasks[c].pc.LeaveUnmap? && !s'.tasks[c].pc.LeaveUnmap?
    requires forall n | n in s.mapped && c in s'.rooms[s.mapped[n]].members :: MayHold(s'.tasks[c], n, s.mapped[n])
    requires forall n | n in s.mapped && s.mapped[n] != r && s.rooms[s.mapped[n]].members == {} ::
      Obliged(s.tasks[c], n, s.mapped[n]) ==> Obliged(s'.tasks[c], n, s.mapped[n])
    requires forall n | n in s.mapped && s.mapped[n] == r && s'.rooms[r].members == {} :: SomeoneObliged(s', n, r)
    ensures Inv(s')
  {
    RoomStepMembers(s, s', c, r);
    OthersStayConsistent(s, s', c);
    WriterUnaffected(s, s', c);
    forall n | n in s'.mapped && s'.rooms[s'.mapped[n]].members == {}
      ensures SomeoneObliged(s', n, s'.mapped[n])
    {
      if s.mapped[n] != r { ObligationSurvives(s, s', c, n, s.mapped[n]); }
    }
  }

  // Before its removal a task is in no mapped room but the one it leaves
  lemma RemoverIsNowhereElse(s: State, c: Conn, n: Name)
    requires Inv(s) && c in s.tasks && s.tasks[c].pc.LeaveRemove? && n in s.mapped
    ensures c in s.rooms[s.mapped[n]].members ==> s.mapped[n] == s.tasks[c].pc.room
  {
    assert c in s.rooms[s.mapped[n]].members ==> MayHold(s.tasks[c], n, s.mapped[n]);
  }

  // The effect of a removal section: c is out of r, and still cares for r if that is empty
  lemma RemovalKeepsInv(s: State, s': State, c: Conn, r: RoomId)
    requires Inv(s) && OnlyRoom(s, s', c, r) && s'.rooms[r].members == s.rooms[r].members - {c}
    requires s.tasks[c].pc.LeaveRemove? && s.tasks[c].pc.room == r
    requires TaskConsistent(s', s'.tasks[c]) && !s'.tasks[c].pc.LeaveUnmap?
    requires s'.rooms[r].members == {} ==> s'.tasks[c].pc.LeavePeek? && s'.tasks[c].pc.name == s.rooms[r].name
    ensures Inv(s')
  {
    forall n | n in s.mapped ensures c !in s'.rooms[s.mapped[n]].members { RemoverIsNowhereElse(s, c, n); }
    assert |s'.rooms[r].members| <= |s.rooms[r].members|;
    forall n | n in s.mapped && s.mapped[n] == r && s'.rooms[r].members == {} ensures SomeoneObliged(s', n, r) {
      assert c in s'.tasks && Obliged(s'.tasks[c], n, r);
    }
    RoomStepKeepsInv(s, s', c, r);
  }

  lemma RemoveSelfIsRoomStep(s: State, c: Conn)
    requires Enabled(s, Advance(c)) && s.tasks[c].pc.LeaveRemove? && TaskConsistent(s, s.tasks[c])
    ensures var s', r := LeaveStep(s, c), s.tasks[c].pc.room;
            && OnlyRoom(s, s', c, r) && s'.rooms[r].members == s.rooms[r].members - {c}
            && TaskConsistent(s', s'.tasks[c]) && !s'.tasks[c].pc.LeaveUnmap?
            && (s'.rooms[r].members == {} ==> s'.tasks[c].pc.LeavePeek? && s'.tasks[c].pc.name == s.rooms[r].name)
  {
  }

  lemma RemoveSelfKeepsInv(s: State, c: Conn)
    requires Inv(s) && Enabled(s, Advance(c)) && s.tasks[c].pc.LeaveRemove?
    ensures Inv(Next(s, Advance(c)))
  {
    assert TaskConsistent(s, s.tasks[c]);
    RemoveSelfIsRoomStep(s, c);
    RemovalKeepsInv(s, LeaveStep(s, c), c, s.tasks[c].pc.room);
  }

  lemma UnmapMembers(s: State, c: Conn)
    requires Inv(s) && Enabled(s, Advance(c)) && s.tasks[c].pc.LeaveUnmap?
    ensures MapInRange(Next(s, Advance(c))) && MembersHold(Next(s, Advance(c)))
  {
    var s' := Next(s, Advance(c));
    forall n, d | n in s'.mapped && d in s'.rooms[s'.mapped[n]].members
      ensures d in s'.tasks && MayHold(s'.tasks[d], n, s'.mapped[n])
    {
      assert d in s.tasks && MayHold(s.tasks[d], n, s.mapped[n]);
    }
  }

  lemma UnmapObliged(s: State, s': State, c: Conn)
    requires Inv(s) && Enabled(s, Advance(c)) && s.tasks[c].pc.LeaveUnmap?
    requires s' == Next(s, Advance(c)) && MapInRange(s')
    ensures EmptyRoomsObliged(s')
  {
    forall n | n in s'.mapped && s'.rooms[s'.mapped[n]].members == {}
      ensures SomeoneObliged(s', n, s'.mapped[n])
    {
      ObligationSurvives(s, s', c, n, s.mapped[n]);
    }
  }

  lemma UnmapKeepsInv(s: State, c: Conn)
    requires Inv(s) && Enabled(s, Advance(c)) && s.tasks[c].pc.LeaveUnmap?
    ensures Inv(Next(s, Advance(c)))
  {
    var s' := LeaveStep(s, c);
    UnmapMembers(s, c);
    OthersStayConsistent(s, s', c);
    FewerNames(s.mapped, s.tasks[c].pc.name);
    UnmapObliged(s, s', c);
    forall d ensures s'.writer == Some(d) <==> d in s'.tasks && s'.tasks[d].pc.LeaveUnmap? {
      assert s.writer == Some(d) <==> d in s.tasks && s.tasks[d].pc.LeaveUnmap?;
    }
  }

  lemma FewerNames(m: map<Name, RoomId>, n: Name)
    ensures |m - {n}| <= |m|
  {
    assert (m - {n}).Keys == m.Keys - {n};
    assert |(m - {n}).Keys| <= |m.Keys|;
  }

  lemma LeaveLookupKeepsInv(s: State, c: Conn)
    requires Inv(s) && Enabled(s, Advance(c)) && s.tasks[c].pc.LeaveLookup?
    ensures Inv(Next(s, Advance(c)))
  {
    var n, after := s.tasks[c].pc.name, s.tasks[c].pc.after;
    var t := if n in s.mapped then s.tasks[c].(pc := LeaveRemove(n, s.mapped[n], after))
             else Resumed(s.tasks[c], after);
    var s' := SetTask(s, c, t);
    assert s' == LeaveStep(s, c);
    assert TaskConsistent(s, s.tasks[c]);
    WriterUnaffected(s, s', c);
    TaskStepKeepsInv(s, s', c);
  }

  lemma PeekKeepsInv(s: State, c: Conn)
    requires Inv(s) && Enabled(s, Advance(c)) && s.tasks[c].pc.LeavePeek?
    ensures Inv(Next(s, Advance(c)))
  {
    var n, after := s.tasks[c].pc.name, s.tasks[c].pc.after;
    var t := if MappedEmpty(s, n) then s.tasks[c].(pc := LeaveRecheck(n, after)) else Resumed(s.tasks[c], after);
    var s' := SetTask(s, c, t);
    assert s' == LeaveStep(s, c);
    WriterUnaffected(s, s', c);
    TaskStepKeepsInv(s, s', c);
  }

  lemma RecheckKeepsInv(s: State, c: Conn)
    requires Inv(s) && Enabled(s, Advance(c)) && s.tasks[c].pc.LeaveRecheck?
    ensures Inv(Next(s, Advance(c)))
  {
    var s' := LeaveStep(s, c);
    assert s.writer == None by { assert s.writer == Some(c) <==> s.tasks[c].pc.LeaveUnmap?; }
    forall d ensures s'.writer == Some(d) <==> d in s'.tasks && s'.tasks[d].pc.LeaveUnmap? {
      assert s.writer == Some(d) <==> d in s.tasks && s.tasks[d].pc.LeaveUnmap?;
    }
    TaskStepKeepsInv(s, s', c);
  }

  lemma CreateMembers(s: State, s': State, c: Conn)
    requires Inv(s) && Enabled(s, Advance(c)) && s.tasks[c].pc.JoinLookup?
    requires s' == JoinStep(s, c) && s'.rooms != s.rooms
    ensures MapInRange(s') && MembersHold(s')
  {
    forall n, d | n in s'.mapped && d in s'.rooms[s'.mapped[n]].members
      ensures d in s'.tasks && MayHold(s'.tasks[d], n, s'.mapped[n])
    {
      assert n in s.mapped && s'.rooms[s'.mapped[n]] == s.rooms[s.mapped[n]];
      assert d in s.tasks && MayHold(s.tasks[d], n, s.mapped[n]);
    }
  }

  lemma CreateObliged(s: State, s': State, c: Conn)
    requires Inv(s) && Enabled(s, Advance(c)) && s.tasks[c].pc.JoinLookup?
    requires s' == JoinStep(s, c) && s'.rooms != s.rooms && MapInRange(s')
    ensures EmptyRoomsObliged(s')
  {
    forall n | n in s'.mapped && s'.rooms[s'.mapped[n]].members == {}
      ensures SomeoneObliged(s', n, s'.mapped[n])
    {
      if n == s.tasks[c].pc.name {
        assert Obliged(s'.tasks[c], n, s'.mapped[n]);
      } else {
        ObligationSurvives(s, s', c, n, s.mapped[n]);
      }
    }
  }

  lemma CreateKeepsInv(s: State, s': State, c: Conn)
    requires Inv(s) && Enabled(s, Advance(c)) && s.tasks[c].pc.JoinLookup?
    requires s' == JoinStep(s, c) && s'.rooms != s.rooms
    ensures Inv(s')
  {
    CreateMembers(s, s', c);
    CreateObliged(s, s', c);
    OthersStayConsistent(s, s', c);
    WriterUnaffected(s, s', c);
    assert |s'.mapped| == |s.mapped| + 1;
  }

  lemma JoinLookupKeepsInv(s: State, c: Conn)
    requires Inv(s) && Enabled(s, Advance(c)) && s.tasks[c].pc.JoinLookup?
    ensures Inv(Next(s, Advance(c)))
  {
    var s' := JoinStep(s, c);
    if s'.rooms == s.rooms {
      WriterUnaffected(s, s', c);
      TaskStepKeepsInv(s, s', c);
    } else {
      CreateKeepsInv(s, s', c);
    }
  }

  lemma JoinInsertKeepsInv(s: State, c: Conn)
    requires Inv(s) && Enabled(s, Advance(c)) && s.tasks[c].pc.JoinInsert?
    ensures Inv(Next(s, Advance(c)))
  {
    var s', r := JoinStep(s, c), s.tasks[c].pc.room;
    assert s'.rooms[r].members != {} by {
      assert c in s'.rooms[r].members || |s'.rooms[r].members| >= MAX_PEERS_PER_ROOM;
    }
    assert OnlyRoom(s, s', c, r);
    RoomStepKeepsInv(s, s', c, r);
  }

  // A fan-out up to its eviction reads only
  lemma FanReadKeepsInv(s: State, c: Conn)
    requires Inv(s) && Enabled(s, Advance(c)) && Fanning(s.tasks[c].pc) && !s.tasks[c].pc.FanEvict?
    ensures Inv(Next(s, Advance(c)))
  {
    var s' := FanStep(s, c);
    WriterUnaffected(s, s', c);
    TaskStepKeepsInv(s, s', c);
  }

  // The effect of an eviction section: c goes back to reading, r has fewer members
  lemma FewerMembersKeepsInv(s: State, s': State, c: Conn, r: RoomId)
    requires Inv(s) && OnlyRoom(s, s', c, r) && s'.rooms[r].members <= s.rooms[r].members
    requires s.tasks[c].pc.FanEvict? && s'.tasks[c] == s.tasks[c].(pc := Reading)
    requires forall n | n in s.mapped && s.mapped[n] == r && s'.rooms[r].members == {} :: SomeoneObliged(s', n, r)
    ensures Inv(s')
  {
    SubsetSize(s'.rooms[r].members, s.rooms[r].members);
    assert forall n, q :: MayHold(s'.tasks[c], n, q) == MayHold(s.tasks[c], n, q);
    RoomStepKeepsInv(s, s', c, r);
  }

  lemma EvictKeepsInv(s: State, c: Conn)
    requires Inv(s) && Enabled(s, Advance(c)) && s.tasks[c].pc.FanEvict?
    ensures Inv(Next(s, Advance(c)))
  {
    var s', r := FanStep(s, c), s.tasks[c].pc.room;
    forall n | n in s.mapped && s.mapped[n] == r && s'.rooms[r].members == {} ensures SomeoneObliged(s', n, r) {
      EvictionLeavesObliged(s, s', c, n);
    }
    FewerMembersKeepsInv(s, s', c, r);
  }

  // A room emptied by an eviction is still the current_room of the peers evicted from it
  lemma EvictionLeavesObliged(s: State, s': State, c: Conn, n: Name)
    requires Inv(s) && Enabled(s, Advance(c)) && s.tasks[c].pc.FanEvict? && s' == FanStep(s, c)
    requires n in s.mapped
    ensures SomeoneObliged(s', n, s.mapped[n])
  {
    var r := s.mapped[n];
    if s.rooms[r].members == {} {
      var d :| d in s.tasks && Obliged(s.tasks[d], n, r);
      assert d in s'.tasks && Obliged(s'.tasks[d], n, r);
    } else {
      var d :| d in s.rooms[r].members;
      assert MayHold(s.tasks[d], n, r);
      assert d in s'.tasks && Obliged(s'.tasks[d], n, r);
    }
  }

  lemma NextKeepsInv(s: State, a: Action)
    requires Inv(s) && Enabled(s, a)
    ensures Inv(Next(s, a))
  {
    match a
    case Connect(c) => TaskStepKeepsInv(s, Next(s, a), c);
    case Receive(c, request) => ReceiveKeepsInv(s, c, request);
    case Offer(c, p, ok) => OfferKeepsInv(s, c, p, ok);
    case Advance(c) =>
      var pc := s.tasks[c].pc;
      if pc.JoinLookup? { JoinLookupKeepsInv(s, c); }
      else if pc.JoinInsert? { JoinInsertKeepsInv(s, c); }
      else if pc.FanEvict? { EvictKeepsInv(s, c); }
      else if Fanning(pc) { FanReadKeepsInv(s, c); }
      else if pc.LeaveRemove? { RemoveSelfKeepsInv(s, c); }
      else if pc.LeaveUnmap? { UnmapKeepsInv(s, c); }
      else if pc.LeaveRecheck? { RecheckKeepsInv(s, c); }
      else if pc.LeaveLookup? { LeaveLookupKeepsInv(s, c); }
      else { PeekKeepsInv(s, c); }
  }

  lemma {:induction false} RunKeepsInv(s: State, actions: seq<Action>)
    requires Inv(s) && Schedule(s, actions)
    ensures Inv(Run(s, actions))
    decreases |actions|
  {
    if actions != [] {
      NextKeepsInv(s, actions[0]);
      RunKeepsInv(Next(s, actions[0]), actions[1..]);
    }
  }
}
