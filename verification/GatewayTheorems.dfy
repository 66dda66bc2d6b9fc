/**
 What holds of the gateway's tables over every interleaving, and exactly when what one might expect
 of them fails: that a stored member has its record, that a recorded room is stored, and that there
 are at most 10,000 rooms.
 */
module GatewayTheorems {
  import opened Storage
  import opened Gateway
  import opened GatewayInvariant

  // Whatever interleaves: at most five rooms a peer, recorded only for live connections, and no
  // stored room without a member
  lemma LimitsHold(s: State)
    requires Reachable(s)
    ensures forall p :: |RoomsOf(s.tables, p)| <= 5
    ensures forall p | p in s.tables.peerRooms :: Conn(p) in s.tasks && Live(s.tasks[Conn(p)])
    ensures forall n | n in s.tables.rooms :: s.tables.rooms[n].peers != {}
  {
    ReachableInv(s);
  }

  // So the join arm's test "the count is zero" means "there is no such room"
  lemma CountZeroMeansAbsent(s: State, p: PeerId)
    requires Inv(s) && Conn(p) in s.tasks && s.tasks[Conn(p)].JoinCount?
    ensures Next(s, Advance(Conn(p))).tasks[Conn(p)].JoinLimit? <==> s.tasks[Conn(p)].join.room !in s.tables.rooms
  {
  }

  // ---- A stored member has the room in its record, or is about to leave the store ----

  predicate WillLeave(tid: Tid, pc: Pc, n: Name, p: PeerId) {
    (pc.ClearLeave? && pc.room == n && pc.peer == p) || (tid == Conn(p) && pc.Closing? && n in pc.left)
  }

  ghost predicate Leaving(tasks: Tasks, n: Name, p: PeerId) {
    exists tid :: tid in tasks && WillLeave(tid, tasks[tid], n, p)
  }

  ghost predicate Covered(s: State) {
    forall n, p | Stores(s.tables, n, p) :: Records(s.tables, p, n) || Leaving(s.tasks, n, p)
  }

  // A store join whose record a clearing of the room has taken since it was written
  ghost predicate Uncovers(s: State, a: Action)
    requires Enabled(s, a)
  {
    var e := EffectOf(s, a);
    e.Enters? && !Records(s.tables, e.peer, e.join.room) && !Leaving(s.tasks, e.join.room, e.peer)
  }

  lemma LeavingStays(s: State, a: Action, n: Name, p: PeerId)
    requires Inv(s) && Enabled(s, a) && Leaving(s.tasks, n, p) && StoresAfter(s.tables, EffectOf(s, a), n, p)
    ensures Leaving(Next(s, a).tasks, n, p)
  {
    var tid :| tid in s.tasks && WillLeave(tid, s.tasks[tid], n, p);
    assert KindOk(tid, s.tasks[tid], s.history.joins);
    if a.Wait? || Mover(a) != tid {
      assert WillLeave(tid, Next(s, a).tasks[tid], n, p);
    } else {
      MovingLeaver(s, a, n, p);
      assert WillLeave(tid, Next(s, a).tasks[tid], n, p);
    }
  }

  // A task about to take p out of the room either does, or is still about to
  lemma MovingLeaver(s: State, a: Action, n: Name, p: PeerId)
    requires Enabled(s, a) && !a.Wait? && Mover(a) in s.tasks && WillLeave(Mover(a), s.tasks[Mover(a)], n, p)
    requires KindOk(Mover(a), s.tasks[Mover(a)], s.history.joins)
    requires StoresAfter(s.tables, EffectOf(s, a), n, p)
    ensures WillLeave(Mover(a), PcAfter(s, a), n, p)
  {
  }

  lemma RecordStays(s: State, a: Action, n: Name, p: PeerId)
    requires Inv(s) && Enabled(s, a) && Records(s.tables, p, n) && Stores(s.tables, n, p)
    ensures Records(Next(s, a).tables, p, n) || Leaving(Next(s, a).tasks, n, p)
  {
    var s' := Next(s, a);
    match a {
      case Hangup(q) => if q == p { assert WillLeave(Conn(p), s'.tasks[Conn(p)], n, p); }
      case Take(tid, q) =>
        TakeOutFacts(s.tables, q, s.tasks[tid].room);
        assert n in RoomsOf(s.tables, p);
        assert q == p && s.tasks[tid].room == n ==> WillLeave(tid, s'.tasks[tid], n, p);
        assert n in RoomsOf(s'.tables, p) || (q == p && s.tasks[tid].room == n);
      case Advance(tid) =>
        if tid.Conn? && s.tasks[tid].LeaveForget? {
          ForgetFacts(s.tables, tid.peer, s.tasks[tid].room);
          assert n in RoomsOf(s.tables, p) && n in RoomsOf(s'.tables, p);
        }
      case _ =>
    }
  }

  lemma CoveredUnlessUncovered(s: State, a: Action)
    requires Inv(s) && Covered(s) && Enabled(s, a) && !Uncovers(s, a)
    ensures Covered(Next(s, a))
  {
    EffectFacts(s, a);
    var s', e := Next(s, a), EffectOf(s, a);
    forall n, p | Stores(s'.tables, n, p) ensures Records(s'.tables, p, n) || Leaving(s'.tasks, n, p) {
      assert StoresAfter(s.tables, e, n, p);
      if Leaving(s.tasks, n, p) {
        LeavingStays(s, a, n, p);
      } else if Stores(s.tables, n, p) {
        RecordStays(s, a, n, p);
      } else {
        assert e.Enters? && Records(s.tables, p, n);
      }
    }
  }

  lemma UncoveringUncovers(s: State, a: Action)
    requires Inv(s) && Enabled(s, a) && Uncovers(s, a)
    ensures !Covered(Next(s, a))
  {
    EffectFacts(s, a);
    var s', n, p := Next(s, a), EffectOf(s, a).join.room, EffectOf(s, a).peer;
    assert Stores(s'.tables, n, p) && !Records(s'.tables, p, n);
    forall tid ensures tid in s'.tasks ==> !WillLeave(tid, s'.tasks[tid], n, p) {
      assert tid in s.tasks ==> !WillLeave(tid, s.tasks[tid], n, p);
    }
  }

  // Coverage is lost in a step exactly when a store join finds its record gone
  lemma CoverageLostExactlyWhen(s: State, a: Action)
    requires Inv(s) && Covered(s) && Enabled(s, a)
    ensures Covered(Next(s, a)) <==> !Uncovers(s, a)
  {
    if Uncovers(s, a) { UncoveringUncovers(s, a); } else { CoveredUnlessUncovered(s, a); }
  }

  ghost predicate NeverUncovers(s: State, actions: seq<Action>)
    requires Schedule(s, actions)
    decreases |actions|
  {
    actions == [] || (!Uncovers(s, actions[0]) && NeverUncovers(Next(s, actions[0]), actions[1..]))
  }

  // In runs in which that does not happen a stored member is, once all tasks rest, a live connection
  // that has recorded the room
  lemma {:induction false} StoredMeansRecorded(s: State, actions: seq<Action>)
    requires Inv(s) && Covered(s) && Schedule(s, actions) && NeverUncovers(s, actions)
    ensures Covered(Run(s, actions))
    ensures AtRest(Run(s, actions)) ==>
              forall n, p | Stores(Run(s, actions).tables, n, p) ::
                Records(Run(s, actions).tables, p, n) && Conn(p) in Run(s, actions).tasks
                  && Run(s, actions).tasks[Conn(p)].Reading?
    decreases |actions|
  {
    if actions != [] {
      CoveredUnlessUncovered(s, actions[0]);
      NextKeepsInv(s, actions[0]);
      StoredMeansRecorded(Next(s, actions[0]), actions[1..]);
    }
  }

  ghost predicate AtRest(s: State) {
    forall tid | tid in s.tasks :: s.tasks[tid].Reading? || s.tasks[tid].Closed? || s.tasks[tid].Idle?
  }

  // ---- A recorded room is stored, or its connection is about to store or forget it ----

  predicate Settling(tasks: Tasks, p: PeerId, n: Name) {
    Conn(p) in tasks
    && ((tasks[Conn(p)].JoinStore? && tasks[Conn(p)].join.room == n)
        || (tasks[Conn(p)].LeaveForget? && tasks[Conn(p)].room == n))
  }

  ghost predicate InSync(s: State) {
    forall p, n | Records(s.tables, p, n) :: Stores(s.tables, n, p) || Settling(s.tasks, p, n)
  }

  // A join with a bad salt has written its record by the time it is refused; and a clearing task
  // takes a member out of the store whose record it did not take, because the member was no longer in
  // conns, or was recorded again since
  predicate Parts(s: State, a: Action)
    requires a.Advance? ==> a.tid in s.tasks
  {
    a.Advance? &&
    match s.tasks[a.tid]
    case JoinRecord(j) => a.tid.Conn? && !SaltOk(j.salt) && !Stores(s.tables, j.room, a.tid.peer)
    case ClearLeave(n, p, _, _, _) => Records(s.tables, p, n) && !Settling(s.tasks, p, n)
    case _ => false
  }

  lemma SyncUnlessParted(s: State, a: Action)
    requires Inv(s) && InSync(s) && Enabled(s, a) && !Parts(s, a)
    ensures InSync(Next(s, a))
  {
    EffectFacts(s, a);
    var s' := Next(s, a);
    forall p, n | Records(s'.tables, p, n) ensures Stores(s'.tables, n, p) || Settling(s'.tasks, p, n) {
      RecordedBefore(s, a, p, n);
      SyncAt(s, a, p, n);
    }
  }

  // A record that is there after a section was there before, or is being written
  lemma RecordedBefore(s: State, a: Action, p: PeerId, n: Name)
    requires Enabled(s, a) && Records(Next(s, a).tables, p, n)
    ensures Records(s.tables, p, n)
            || (a == Advance(Conn(p)) && s.tasks[Conn(p)].JoinRecord? && s.tasks[Conn(p)].join.room == n)
    ensures !(a == Hangup(p)) && !(a == Advance(Conn(p)) && s.tasks[Conn(p)] == LeaveForget(n))
  {
    assert n in RoomsOf(Next(s, a).tables, p);
    match a {
      case Take(tid, q) => TakeOutFacts(s.tables, q, s.tasks[tid].room);
      case Advance(tid) =>
        if tid.Conn? && s.tasks[tid].LeaveForget? { ForgetFacts(s.tables, tid.peer, s.tasks[tid].room); }
      case _ =>
    }
  }

  lemma SyncAt(s: State, a: Action, p: PeerId, n: Name)
    requires Inv(s) && InSync(s) && Enabled(s, a) && !Parts(s, a)
    requires Records(s.tables, p, n)
             || (a == Advance(Conn(p)) && s.tasks[Conn(p)].JoinRecord? && s.tasks[Conn(p)].join.room == n)
    requires !(a == Hangup(p)) && !(a == Advance(Conn(p)) && s.tasks[Conn(p)] == LeaveForget(n))
    ensures StoresAfter(s.tables, EffectOf(s, a), n, p) || Settling(Next(s, a).tasks, p, n)
  {
    if Records(s.tables, p, n) {
      assert Conn(p) in s.tasks && Live(s.tasks[Conn(p)]);
      assert KindOk(Conn(p), s.tasks[Conn(p)], s.history.joins);
      assert Stores(s.tables, n, p) || Settling(s.tasks, p, n);
    }
  }

  lemma PartingParts(s: State, a: Action)
    requires Inv(s) && Enabled(s, a) && Parts(s, a)
    ensures !InSync(Next(s, a))
  {
    EffectFacts(s, a);
    var s' := Next(s, a);
    match s.tasks[a.tid] {
      case JoinRecord(j) =>
        var p := a.tid.peer;
        assert Records(s'.tables, p, j.room) && !Stores(s'.tables, j.room, p) && !Settling(s'.tasks, p, j.room);
      case ClearLeave(n, p, _, _, _) =>
        assert KindOk(a.tid, s.tasks[a.tid], s.history.joins);
        assert Records(s'.tables, p, n) && !Stores(s'.tables, n, p) && !Settling(s'.tasks, p, n);
    }
  }

  // Records and store part in a step exactly when it is one of those two
  lemma RecordsPartExactlyWhen(s: State, a: Action)
    requires Inv(s) && InSync(s) && Enabled(s, a)
    ensures InSync(Next(s, a)) <==> !Parts(s, a)
  {
    if Parts(s, a) { PartingParts(s, a); } else { SyncUnlessParted(s, a); }
  }

  // ---- The limit on rooms ----

  // The limit is passed in a step exactly when a store join makes a room at the limit, that is, when
  // what the join's checks had found no longer holds
  lemma LimitPassedExactlyWhen(s: State, a: Action)
    requires Enabled(s, a) && |s.tables.rooms| <= 10_000
    ensures |Next(s, a).tables.rooms| > 10_000 <==>
            EffectOf(s, a).Enters? && EffectOf(s, a).join.room !in s.tables.rooms && |s.tables.rooms| == 10_000
  {
    EffectIsAll(s, a);
    var after := Next(s, a).tables.rooms;
    match EffectOf(s, a) {
      case NoEffect =>
      case Exits(n, p) => LeftFacts(s.tables, n, p, s.clock);
      case Enters(j, p) =>
        JoinedFacts(s.tables, p, j, s.clock);
        assert after.Keys == s.tables.rooms.Keys + {j.room};
        assert j.room in s.tables.rooms ==> s.tables.rooms.Keys + {j.room} == s.tables.rooms.Keys;
        assert |after| == |after.Keys| && |s.tables.rooms| == |s.tables.rooms.Keys|;
    }
  }

  // ---- A join that nothing interrupts ----

  predicate Joining(pc: Pc) {
    pc.JoinCount? || pc.JoinLimit? || pc.JoinCheck? || pc.JoinRecord? || pc.JoinStore?
  }

  // What the sections so far have found and written still holds
  predicate Undisturbed(s: State, p: PeerId) {
    && Conn(p) in s.tasks
    && var pc := s.tasks[Conn(p)];
    && (pc.JoinCheck? || pc.JoinRecord? || pc.JoinStore? ==>
          pc.join.room in s.tables.rooms || |s.tables.rooms| < MAX_ROOMS)
    && (pc.JoinStore? ==> Records(s.tables, p, pc.join.room))
  }

  lemma JoinSectionIsSafe(s: State, p: PeerId)
    requires Inv(s) && Undisturbed(s, p) && Joining(s.tasks[Conn(p)]) && |s.tables.rooms| <= MAX_ROOMS
    ensures Enabled(s, Advance(Conn(p))) && !Uncovers(s, Advance(Conn(p)))
    ensures Undisturbed(Next(s, Advance(Conn(p))), p) && |Next(s, Advance(Conn(p))).tables.rooms| <= MAX_ROOMS
  {
    assert KindOk(Conn(p), s.tasks[Conn(p)], s.history.joins);
    LimitPassedExactlyWhen(s, Advance(Conn(p)));
  }

  // Only sections of one join of p
  ghost predicate JoinsAlone(s: State, actions: seq<Action>, p: PeerId)
    requires Schedule(s, actions)
    decreases |actions|
  {
    actions == [] ||
    (actions[0] == Advance(Conn(p)) && Joining(s.tasks[Conn(p)]) && JoinsAlone(Next(s, actions[0]), actions[1..], p))
  }

  lemma {:induction false} LoneJoinKeeps(s: State, actions: seq<Action>, p: PeerId)
    requires Inv(s) && Covered(s) && Undisturbed(s, p) && |s.tables.rooms| <= MAX_ROOMS
    requires Schedule(s, actions) && JoinsAlone(s, actions, p)
    ensures Covered(Run(s, actions)) && |Run(s, actions).tables.rooms| <= MAX_ROOMS
    decreases |actions|
  {
    if actions != [] {
      JoinSectionIsSafe(s, p);
      CoveredUnlessUncovered(s, actions[0]);
      NextKeepsInv(s, actions[0]);
      LoneJoinKeeps(Next(s, actions[0]), actions[1..], p);
    }
  }

  // A join whose sections have no other task's in between keeps coverage and the limit
  lemma UninterruptedJoinIsSafe(s: State, actions: seq<Action>, p: PeerId)
    requires Inv(s) && Covered(s) && |s.tables.rooms| <= 10_000
    requires Conn(p) in s.tasks && s.tasks[Conn(p)].JoinCount?
    requires Schedule(s, actions) && JoinsAlone(s, actions, p)
    ensures Covered(Run(s, actions)) && |Run(s, actions).tables.rooms| <= 10_000
  {
    LoneJoinKeeps(s, actions, p);
  }

  // ---- Times to live ----

  // A room that is there before and after a section is the same incarnation: its time to live,
  // creation time and salt are fixed
  lemma StepKeepsIncarnation(s: State, a: Action, n: Name)
    requires Enabled(s, a) && n in s.tables.rooms && n in Next(s, a).tables.rooms
    ensures SameIncarnation(s.tables.rooms[n], Next(s, a).tables.rooms[n])
  {
    EffectIsAll(s, a);
    match EffectOf(s, a) {
      case NoEffect =>
      case Exits(m, p) => LeftFacts(s.tables, m, p, s.clock);
      case Enters(j, p) => JoinedFacts(s.tables, p, j, s.clock);
    }
  }

  ghost predicate Lasts(s: State, actions: seq<Action>, n: Name)
    requires Schedule(s, actions)
    decreases |actions|
  {
    n in s.tables.rooms && (actions == [] || Lasts(Next(s, actions[0]), actions[1..], n))
  }

  // So every expiry a room advertises while it lasts is the same instant
  lemma {:induction false} AdvertisedExpiryIsFixed(s: State, actions: seq<Action>, n: Name)
    requires Schedule(s, actions) && Lasts(s, actions, n)
    ensures n in Run(s, actions).tables.rooms
    ensures SameIncarnation(s.tables.rooms[n], Run(s, actions).tables.rooms[n])
    ensures ExpiresAt(s.tables.rooms[n]) == ExpiresAt(Run(s, actions).tables.rooms[n])
    decreases |actions|
  {
    if actions != [] {
      assert n in Next(s, actions[0]).tables.rooms;
      StepKeepsIncarnation(s, actions[0], n);
      AdvertisedExpiryIsFixed(Next(s, actions[0]), actions[1..], n);
    }
  }
}
