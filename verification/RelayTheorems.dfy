/**
 The results about the relay that follow from the invariant, over every schedule of
 every number of connections.
 */
module RelayTheorems {
  import opened Options
  import opened RelayRegistry
  import opened RelayInvariant

  ghost predicate Reachable(s: State) {
    exists actions :: Schedule(INIT, actions) && Run(INIT, actions) == s
  }

  lemma ReachableInv(s: State)
    requires Reachable(s)
    ensures Inv(s)
  {
    var actions :| Schedule(INIT, actions) && Run(INIT, actions) == s;
    RunKeepsInv(INIT, actions);
  }

  lemma {:induction false} RunExtends(s: State, actions: seq<Action>, a: Action)
    requires Schedule(s, actions) && Enabled(Run(s, actions), a)
    ensures Schedule(s, actions + [a]) && Run(s, actions + [a]) == Next(Run(s, actions), a)
    decreases |actions|
  {
    if actions == [] {
      assert [a][1..] == [];
    } else {
      RunExtends(Next(s, actions[0]), actions[1..], a);
      assert (actions + [a])[1..] == actions[1..] + [a];
    }
  }

  lemma ReachableNext(s: State, a: Action)
    requires Reachable(s) && Enabled(s, a)
    ensures Reachable(Next(s, a))
  {
    var actions :| Schedule(INIT, actions) && Run(INIT, actions) == s;
    RunExtends(INIT, actions, a);
  }

  // Whatever is in the map, empty or not, some task is still obliged to
  lemma MappedRoomHasObligedTask(s: State, n: Name)
    requires Inv(s) && n in s.mapped
    ensures SomeoneObliged(s, n, s.mapped[n])
  {
    var r := s.mapped[n];
    if s.rooms[r].members != {} {
      var c :| c in s.rooms[r].members;
      assert c in s.tasks && MayHold(s.tasks[c], n, r);
    }
  }

  // No room leaks: once every connection has ended the map is empty
  lemma EndedLeavesNoRoom(s: State)
    requires Reachable(s)
    requires forall c | c in s.tasks :: s.tasks[c].pc.Ended?
    ensures s.mapped == map[]
  {
    ReachableInv(s);
    if n :| n in s.mapped {
      MappedRoomHasObligedTask(s, n);
      assert false;
    }
  }

  // A member of a mapped room has that room as its current_room, so it is in at most one
  lemma MemberOnlyOfCurrentRoom(s: State, c: Conn, n: Name)
    requires Reachable(s)
    requires n in s.mapped && s.mapped[n] < |s.rooms| && c in s.rooms[s.mapped[n]].members
    ensures c in s.tasks && s.tasks[c].current == Some(n)
    ensures forall m | m in s.mapped && s.mapped[m] < |s.rooms| && c in s.rooms[s.mapped[m]].members :: m == n
  {
    ReachableInv(s);
    forall m | m in s.mapped && c in s.rooms[s.mapped[m]].members ensures s.tasks[c].current == Some(m) {
      assert MayHold(s.tasks[c], m, s.mapped[m]) && TaskConsistent(s, s.tasks[c]);
    }
  }

  // No room object, in the map or not, passes 50 members; the map never passes 10,000 rooms
  lemma CapsHold(s: State)
    requires Reachable(s)
    ensures |s.mapped| <= 10_000
    ensures forall r | 0 <= r < |s.rooms| :: |s.rooms[r].members| <= 50
  {
    ReachableInv(s);
  }

  // The converse of membership: a settled task with a current_room is a member of that room

  predicate Settled(t: Task) {
    t.pc.Reading? || Fanning(t.pc)
  }

  predicate Member(s: State, c: Conn, n: Name) {
    n in s.mapped && s.mapped[n] < |s.rooms| && c in s.rooms[s.mapped[n]].members
  }

  ghost predicate CurrentMeansMember(s: State) {
    forall c | c in s.tasks && Settled(s.tasks[c]) && s.tasks[c].current.Some? ::
      Member(s, c, s.tasks[c].current.value)
  }

  // The branches that break it: a join refused after the previous room was left, an insert
  // into a room that is no longer mapped, the eviction of a settled member of a mapped
  // room, and the removal of a name whose room a joiner has meanwhile entered
  ghost predicate Disturbs(s: State, a: Action)
    requires Enabled(s, a)
  {
    a.Advance? &&
    var t := s.tasks[a.c];
    match t.pc
    case JoinLookup(n) => n !in s.mapped && |s.mapped| >= MAX_ROOMS && t.current.Some?
    case JoinInsert(n, r) =>
      if |s.rooms[r].members| >= MAX_PEERS_PER_ROOM && a.c !in s.rooms[r].members then t.current.Some?
      else !(n in s.mapped && s.mapped[n] == r)
    case FanEvict(r, stale) =>
      exists p :: p in stale && p in s.tasks && Settled(s.tasks[p]) && Member(s, p, s.rooms[r].name)
                  && s.mapped[s.rooms[r].name] == r
    case LeaveUnmap(n, _) =>
      exists p :: p in s.tasks && Settled(s.tasks[p]) && Member(s, p, n)
    case _ => false
  }

  lemma SettledMember(s: State, p: Conn, n: Name)
    requires Inv(s) && Member(s, p, n)
    ensures p in s.tasks && s.tasks[p].current == Some(n)
  {
    assert MayHold(s.tasks[p], n, s.mapped[n]) && TaskConsistent(s, s.tasks[p]);
  }

  // A task that is not before its own removal section is in no mapped room
  lemma NotHoldingIsNotMember(s: State, c: Conn, n: Name)
    requires Inv(s) && c in s.tasks
    requires s.tasks[c].pc.JoinLookup? || s.tasks[c].pc.JoinInsert? || s.tasks[c].pc.LeaveUnmap?
    ensures !Member(s, c, n)
  {
    assert Member(s, c, n) ==> MayHold(s.tasks[c], n, s.mapped[n]);
  }

  // The tasks that a step leaves settled: they were settled with the same current_room
  // before, or have just inserted themselves
  lemma UndisturbedJoin(s: State, a: Action, p: Conn)
    requires Inv(s) && CurrentMeansMember(s) && Enabled(s, a) && !Disturbs(s, a)
    requires p in Next(s, a).tasks && Settled(Next(s, a).tasks[p]) && Next(s, a).tasks[p].current.Some?
    requires a.Advance? && (s.tasks[a.c].pc.JoinLookup? || s.tasks[a.c].pc.JoinInsert?)
    ensures Member(Next(s, a), p, Next(s, a).tasks[p].current.value)
  {
    var s' := Next(s, a);
    var n := s'.tasks[p].current.value;
    if p != a.c {
      assert s'.tasks[p] == s.tasks[p] && Member(s, p, n);
    }
  }

  lemma UndisturbedLeave(s: State, a: Action, p: Conn)
    requires Inv(s) && CurrentMeansMember(s) && Enabled(s, a) && !Disturbs(s, a)
    requires p in Next(s, a).tasks && Settled(Next(s, a).tasks[p]) && Next(s, a).tasks[p].current.Some?
    requires a.Advance?
    requires var pc := s.tasks[a.c].pc; pc.LeaveLookup? || pc.LeavePeek? || pc.LeaveRecheck?
    ensures Member(Next(s, a), p, Next(s, a).tasks[p].current.value)
  {
    var s' := Next(s, a);
    var n := s'.tasks[p].current.value;
    assert p != a.c && s'.tasks[p] == s.tasks[p];
    assert Member(s, p, n);
  }

  // One task leaving a room takes nobody else out of it
  lemma OthersKeepMembership(s: State, s': State, c: Conn, r: RoomId, p: Conn, n: Name)
    requires OnlyRoom(s, s', c, r) && s'.rooms[r].members == s.rooms[r].members - {c}
    requires p != c && Member(s, p, n)
    ensures Member(s', p, n)
  {
  }

  lemma UndisturbedRemoval(s: State, a: Action, p: Conn)
    requires Inv(s) && CurrentMeansMember(s) && Enabled(s, a)
    requires p in Next(s, a).tasks && Settled(Next(s, a).tasks[p]) && Next(s, a).tasks[p].current.Some?
    requires a.Advance? && s.tasks[a.c].pc.LeaveRemove?
    ensures Member(Next(s, a), p, Next(s, a).tasks[p].current.value)
  {
    var s' := LeaveStep(s, a.c);
    var n := s'.tasks[p].current.value;
    assert TaskConsistent(s, s.tasks[a.c]);
    RemoveSelfIsRoomStep(s, a.c);
    assert p != a.c;
    assert s'.tasks[p] == s.tasks[p] && Member(s, p, n);
    OthersKeepMembership(s, s', a.c, s.tasks[a.c].pc.room, p, n);
  }

  lemma UndisturbedUnmap(s: State, a: Action, p: Conn)
    requires Inv(s) && CurrentMeansMember(s) && Enabled(s, a) && !Disturbs(s, a)
    requires p in Next(s, a).tasks && Settled(Next(s, a).tasks[p]) && Next(s, a).tasks[p].current.Some?
    requires a.Advance? && s.tasks[a.c].pc.LeaveUnmap?
    ensures Member(Next(s, a), p, Next(s, a).tasks[p].current.value)
  {
    var s' := Next(s, a);
    var n := s'.tasks[p].current.value;
    assert p != a.c && s'.tasks[p] == s.tasks[p];
    assert Member(s, p, n);
  }

  lemma UndisturbedOther(s: State, a: Action, p: Conn)
    requires Inv(s) && CurrentMeansMember(s) && Enabled(s, a) && !Disturbs(s, a)
    requires p in Next(s, a).tasks && Settled(Next(s, a).tasks[p]) && Next(s, a).tasks[p].current.Some?
    requires a.Advance? ==> Fanning(s.tasks[a.c].pc)
    ensures Member(Next(s, a), p, Next(s, a).tasks[p].current.value)
  {
    var s' := Next(s, a);
    var n := s'.tasks[p].current.value;
    assert p in s.tasks && Settled(s.tasks[p]) && s.tasks[p].current == Some(n);
    assert Member(s, p, n);
    if a.Advance? && s.tasks[a.c].pc.FanEvict? {
      assert s.rooms[s.mapped[n]].name == n;
    }
  }

  lemma UndisturbedKeeps(s: State, a: Action)
    requires Inv(s) && CurrentMeansMember(s) && Enabled(s, a) && !Disturbs(s, a)
    ensures CurrentMeansMember(Next(s, a))
  {
    forall p | p in Next(s, a).tasks && Settled(Next(s, a).tasks[p]) && Next(s, a).tasks[p].current.Some?
      ensures Member(Next(s, a), p, Next(s, a).tasks[p].current.value)
    {
      if !a.Advance? || Fanning(s.tasks[a.c].pc) {
        UndisturbedOther(s, a, p);
      } else if s.tasks[a.c].pc.JoinLookup? || s.tasks[a.c].pc.JoinInsert? {
        UndisturbedJoin(s, a, p);
      } else if s.tasks[a.c].pc.LeaveRemove? {
        UndisturbedRemoval(s, a, p);
      } else if s.tasks[a.c].pc.LeaveUnmap? {
        UndisturbedUnmap(s, a, p);
      } else {
        UndisturbedLeave(s, a, p);
      }
    }
  }

  lemma DisturbedBreaks(s: State, a: Action)
    requires Inv(s) && CurrentMeansMember(s) && Enabled(s, a) && Disturbs(s, a)
    ensures !CurrentMeansMember(Next(s, a))
  {
    var s' := Next(s, a);
    var c := a.c;
    var t := s.tasks[c];
    match t.pc {
      case JoinLookup(n) =>
        NotHoldingIsNotMember(s, c, t.current.value);
        assert s'.tasks[c] == Task(t.current, Reading);
        assert !Member(s', c, t.current.value);
      case JoinInsert(n, r) =>
        if |s.rooms[r].members| >= MAX_PEERS_PER_ROOM && c !in s.rooms[r].members {
          NotHoldingIsNotMember(s, c, t.current.value);
          assert s' == Goto(s, c, Reading) && s'.tasks[c] == Task(t.current, Reading);
          assert !Member(s', c, t.current.value);
        } else {
          NotHoldingIsNotMember(s, c, n);
          assert s'.tasks[c] == Task(Some(n), Reading) && s'.mapped == s.mapped;
          assert !Member(s', c, n);
        }
      case FanEvict(r, stale) =>
        var p :| p in stale && p in s.tasks && Settled(s.tasks[p]) && Member(s, p, s.rooms[r].name)
                 && s.mapped[s.rooms[r].name] == r;
        SettledMember(s, p, s.rooms[r].name);
        assert s'.tasks[p].current == Some(s.rooms[r].name) && Settled(s'.tasks[p]);
        assert !Member(s', p, s.rooms[r].name);
      case LeaveUnmap(n, _) =>
        var p :| p in s.tasks && Settled(s.tasks[p]) && Member(s, p, n);
        SettledMember(s, p, n);
        assert p != c;
        assert s'.tasks[p] == s.tasks[p] && !Member(s', p, n);
    }
  }

  // Exactly the four branches of Disturbs break "current_room means member"
  lemma MembershipLostExactlyWhenDisturbed(s: State, a: Action)
    requires Reachable(s) && CurrentMeansMember(s) && Enabled(s, a)
    ensures CurrentMeansMember(Next(s, a)) <==> !Disturbs(s, a)
  {
    ReachableInv(s);
    if Disturbs(s, a) { DisturbedBreaks(s, a); } else { UndisturbedKeeps(s, a); }
  }

  // A run that splits a room. Task 1 leaves `n` and finds it empty; task 2 picks up the
  // same room object, task 1 re-checks it, task 2 inserts itself, and task 1 then removes
  // the name. Task 3 joins `n` and gets a new room.

  lemma Leads(s: State, a: Action, s': State)
    requires Reachable(s) && Enabled(s, a) && s' == Next(s, a)
    ensures Reachable(s')
  {
    ReachableNext(s, a);
  }

  // A new connection can be brought to the point where it holds the room `n`
  lemma NewcomerHolds(s: State, c: Conn, n: Name, s': State)
    requires Reachable(s) && s.writer == None && c !in s.tasks
    requires Enabled(SetTask(s, c, Task(None, JoinLookup(n))), Advance(c))
    requires s' == Next(SetTask(s, c, Task(None, JoinLookup(n))), Advance(c))
    ensures Reachable(s')
  {
    var s1 := SetTask(s, c, Task(None, Reading));
    Leads(s, Connect(c), s1);
    var s2 := SetTask(s, c, Task(None, JoinLookup(n)));
    assert s2 == SetTask(s1, c, Task(None, JoinLookup(n)));
    Leads(s1, Receive(c, Join(n)), s2);
    Leads(s2, Advance(c), s');
  }

  lemma SplitFirstJoins(n: Name)
    ensures Reachable(State(map[n := 0], [Room(n, {1})], map[1 := Task(Some(n), Reading)], None))
  {
    assert Schedule(INIT, []) && Run(INIT, []) == INIT;
    var s3 := State(map[n := 0], [Room(n, {})], map[1 := Task(None, JoinInsert(n, 0))], None);
    NewcomerHolds(INIT, 1, n, s3);
    Leads(s3, Advance(1), State(map[n := 0], [Room(n, {1})], map[1 := Task(Some(n), Reading)], None));
  }

  lemma SplitFirstTurnsToLeave(n: Name)
    ensures Reachable(State(map[n := 0], [Room(n, {1})], map[1 := Task(Some(n), LeaveRemove(n, 0, Clear))], None))
  {
    SplitFirstJoins(n);
    var s4 := State(map[n := 0], [Room(n, {1})], map[1 := Task(Some(n), Reading)], None);
    var s5 := State(map[n := 0], [Room(n, {1})], map[1 := Task(Some(n), LeaveLookup(n, Clear))], None);
    Leads(s4, Receive(1, Leave), s5);
    var s6 := State(map[n := 0], [Room(n, {1})], map[1 := Task(Some(n), LeaveRemove(n, 0, Clear))], None);
    Leads(s5, Advance(1), s6);
  }

  lemma SplitFirstLeaves(n: Name)
    ensures Reachable(State(map[n := 0], [Room(n, {})], map[1 := Task(Some(n), LeaveRecheck(n, Clear))], None))
  {
    SplitFirstTurnsToLeave(n);
    var s6 := State(map[n := 0], [Room(n, {1})], map[1 := Task(Some(n), LeaveRemove(n, 0, Clear))], None);
    var s7 := State(map[n := 0], [Room(n, {})], map[1 := Task(Some(n), LeavePeek(n, Clear))], None);
    Leads(s6, Advance(1), s7);
    var s8 := State(map[n := 0], [Room(n, {})], map[1 := Task(Some(n), LeaveRecheck(n, Clear))], None);
    Leads(s7, Advance(1), s8);
  }

  lemma SplitSecondHolds(n: Name)
    ensures Reachable(State(map[n := 0], [Room(n, {})],
                      map[1 := Task(Some(n), LeaveRecheck(n, Clear)), 2 := Task(None, JoinInsert(n, 0))], None))
  {
    SplitFirstLeaves(n);
    var s8 := State(map[n := 0], [Room(n, {})], map[1 := Task(Some(n), LeaveRecheck(n, Clear))], None);
    var s10 := SetTask(s8, 2, Task(None, JoinLookup(n)));
    assert Next(s10, Advance(2)) == Goto(s10, 2, JoinInsert(n, 0));
    NewcomerHolds(s8, 2, n, Goto(s10, 2, JoinInsert(n, 0)));
    assert Goto(s10, 2, JoinInsert(n, 0)).tasks
        == map[1 := Task(Some(n), LeaveRecheck(n, Clear)), 2 := Task(None, JoinInsert(n, 0))];
  }

  lemma SplitFirstRechecks(n: Name)
    ensures Reachable(State(map[n := 0], [Room(n, {})],
                      map[1 := Task(Some(n), LeaveUnmap(n, Clear)), 2 := Task(None, JoinInsert(n, 0))], Some(1)))
  {
    SplitSecondHolds(n);
    var s11 := State(map[n := 0], [Room(n, {})],
                     map[1 := Task(Some(n), LeaveRecheck(n, Clear)), 2 := Task(None, JoinInsert(n, 0))], None);
    Leads(s11, Advance(1), Next(s11, Advance(1)));
    assert Next(s11, Advance(1)).tasks
        == map[1 := Task(Some(n), LeaveUnmap(n, Clear)), 2 := Task(None, JoinInsert(n, 0))];
  }

  lemma SplitSecondJoins(n: Name)
    ensures Reachable(State(map[n := 0], [Room(n, {2})],
                      map[1 := Task(Some(n), LeaveUnmap(n, Clear)), 2 := Task(Some(n), Reading)], Some(1)))
  {
    SplitFirstRechecks(n);
    var t1 := Task(Some(n), LeaveUnmap(n, Clear));
    var s12 := State(map[n := 0], [Room(n, {})], map[1 := t1, 2 := Task(None, JoinInsert(n, 0))], Some(1));
    Leads(s12, Advance(2), State(map[n := 0], [Room(n, {2})], map[1 := t1, 2 := Task(Some(n), Reading)], Some(1)));
  }

  lemma SplitFirstUnmaps(n: Name)
    ensures Reachable(State(map[], [Room(n, {2})], map[1 := Task(None, Reading), 2 := Task(Some(n), Reading)], None))
  {
    SplitSecondJoins(n);
    var t1 := Task(Some(n), LeaveUnmap(n, Clear));
    var s13 := State(map[n := 0], [Room(n, {2})], map[1 := t1, 2 := Task(Some(n), Reading)], Some(1));
    Leads(s13, Advance(1),
          State(map[], [Room(n, {2})], map[1 := Task(None, Reading), 2 := Task(Some(n), Reading)], None));
  }

  lemma SplitThirdHolds(n: Name)
    ensures Reachable(State(map[n := 1], [Room(n, {2}), Room(n, {})],
                      map[1 := Task(None, Reading), 2 := Task(Some(n), Reading), 3 := Task(None, JoinInsert(n, 1))],
                      None))
  {
    SplitFirstUnmaps(n);
    var s14 := State(map[], [Room(n, {2})], map[1 := Task(None, Reading), 2 := Task(Some(n), Reading)], None);
    var s16 := SetTask(s14, 3, Task(None, JoinLookup(n)));
    var s17 := Next(s16, Advance(3));
    NewcomerHolds(s14, 3, n, s17);
    assert s17.tasks == map[1 := Task(None, Reading), 2 := Task(Some(n), Reading), 3 := Task(None, JoinInsert(n, 1))];
  }

  // Tasks 2 and 3 are settled with the same current_room but sit in different room
  // objects: a message is fanned out to the mapped one only, so task 2 hears nothing
  lemma RoomCanSplit(n: Name) returns (s: State)
    ensures Reachable(s) && s.mapped == map[n := 1] && s.rooms == [Room(n, {2}), Room(n, {3})]
    ensures forall c :: c in {2, 3} ==> c in s.tasks && s.tasks[c] == Task(Some(n), Reading)
    ensures !CurrentMeansMember(s)
  {
    SplitThirdHolds(n);
    var s17 := State(map[n := 1], [Room(n, {2}), Room(n, {})],
                     map[1 := Task(None, Reading), 2 := Task(Some(n), Reading), 3 := Task(None, JoinInsert(n, 1))],
                     None);
    s := Next(s17, Advance(3));
    Leads(s17, Advance(3), s);
    assert s.tasks[2] == Task(Some(n), Reading) && !Member(s, 2, n);
  }
}
