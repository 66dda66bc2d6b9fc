/**
 Shutting the relay down: once peers only hang up, every schedule is finite, some
 step is always possible until all tasks have ended, and then the map is empty. In
 particular the map's write lock cannot block the other tasks for ever.
 */
module RelayShutdown {
  import opened RelayRegistry
  import opened RelayInvariant
  import opened RelayTheorems
  import opened Sets

  // How many sections a task can still run if its peer says nothing more
  function AfterRank(after: After): nat {
    match after
    case End => 0
    case Clear => 6
    case Rejoin(_) => 8
  }

  function Rank(pc: Pc): nat {
    match pc
    case Ended => 0
    case LeaveUnmap(_, after) => 1 + AfterRank(after)
    case LeaveRecheck(_, after) => 2 + AfterRank(after)
    case LeavePeek(_, after) => 3 + AfterRank(after)
    case LeaveRemove(_, _, after) => 4 + AfterRank(after)
    case LeaveLookup(_, after) => 5 + AfterRank(after)
    case Reading => 6
    case JoinInsert(_, _) => 7
    case JoinLookup(_) => 8
    case FanEvict(_, _) => 7
    case FanLoop(_, left, _) => 8 + |left|
    case FanSend(_) => 9 + MAX_PEERS_PER_ROOM
    case FanLookup(_) => 10 + MAX_PEERS_PER_ROOM
  }

  ghost function TotalRank(tasks: map<Conn, Task>): nat
    decreases |tasks|
  {
    if tasks == map[] then 0 else
      var c :| c in tasks;
      FewerTasks(tasks, c);
      Rank(tasks[c].pc) + TotalRank(tasks - {c})
  }

  lemma FewerTasks(tasks: map<Conn, Task>, c: Conn)
    requires c in tasks
    ensures |tasks - {c}| == |tasks| - 1
  {
    assert (tasks - {c}).Keys == tasks.Keys - {c};
    assert |(tasks - {c}).Keys| == |tasks.Keys| - 1;
  }

  lemma {:induction false} TotalSplits(tasks: map<Conn, Task>, c: Conn)
    requires c in tasks
    ensures TotalRank(tasks) == Rank(tasks[c].pc) + TotalRank(tasks - {c})
    decreases |tasks|
  {
    FewerTasks(tasks, c);
    var d :| d in tasks && TotalRank(tasks) == Rank(tasks[d].pc) + TotalRank(tasks - {d});
    if d != c {
      FewerTasks(tasks, d);
      TotalSplits(tasks - {d}, c);
      TotalSplits(tasks - {c}, d);
      assert tasks - {d} - {c} == tasks - {c} - {d};
    }
  }

  lemma TotalUpdated(tasks: map<Conn, Task>, c: Conn, t: Task)
    requires c in tasks
    ensures TotalRank(tasks[c := t]) == TotalRank(tasks) - Rank(tasks[c].pc) + Rank(t.pc)
  {
    TotalSplits(tasks, c);
    TotalSplits(tasks[c := t], c);
    assert tasks[c := t] - {c} == tasks - {c};
  }

  predicate Draining(a: Action) {
    a.Advance? || a.Offer? || (a.Receive? && a.request.Hangup?)
  }

  // The task that steps loses rank, and no other task moves
  ghost predicate StepsDown(s: State, s': State, c: Conn) {
    c in s.tasks && c in s'.tasks && s'.tasks == s.tasks[c := s'.tasks[c]] && Rank(s'.tasks[c].pc) < Rank(s.tasks[c].pc)
  }

  lemma LeaveStepsDown(s: State, c: Conn)
    requires Enabled(s, Advance(c))
    requires var pc := s.tasks[c].pc;
             pc.LeaveLookup? || pc.LeaveRemove? || pc.LeavePeek? || pc.LeaveRecheck? || pc.LeaveUnmap?
    ensures StepsDown(s, LeaveStep(s, c), c)
  {
    var s' := LeaveStep(s, c);
    assert s'.tasks == s.tasks[c := s'.tasks[c]];
  }

  lemma JoinStepsDown(s: State, c: Conn)
    requires Enabled(s, Advance(c)) && (s.tasks[c].pc.JoinLookup? || s.tasks[c].pc.JoinInsert?)
    ensures StepsDown(s, Next(s, Advance(c)), c)
  {
    var s' := Next(s, Advance(c));
    assert s'.tasks == s.tasks[c := s'.tasks[c]];
  }

  // A fan-out has at most fifty members to offer its message to
  lemma LoopIsShort(s: State, c: Conn, r: RoomId)
    requires WithinCaps(s) && r < |s.rooms|
    ensures Rank(FanLoop(r, s.rooms[r].members - {c}, {})) < Rank(FanSend(r))
  {
    SubsetSize(s.rooms[r].members - {c}, s.rooms[r].members);
  }

  lemma FanStepsDown(s: State, c: Conn)
    requires WithinCaps(s) && Enabled(s, Advance(c)) && Fanning(s.tasks[c].pc)
    ensures StepsDown(s, FanStep(s, c), c)
  {
    var s' := FanStep(s, c);
    assert s'.tasks == s.tasks[c := s'.tasks[c]];
    if s.tasks[c].pc.FanSend? { LoopIsShort(s, c, s.tasks[c].pc.room); }
  }

  lemma DrainingStepsDown(s: State, a: Action)
    requires WithinCaps(s) && Enabled(s, a) && Draining(a)
    ensures TotalRank(Next(s, a).tasks) < TotalRank(s.tasks)
  {
    var c, s' := a.c, Next(s, a);
    if a.Advance? {
      var pc := s.tasks[c].pc;
      if pc.JoinLookup? || pc.JoinInsert? {
        JoinStepsDown(s, c);
      } else if Fanning(pc) {
        FanStepsDown(s, c);
      } else {
        LeaveStepsDown(s, c);
      }
    }
    assert StepsDown(s, s', c);
    TotalUpdated(s.tasks, c, s'.tasks[c]);
  }

  // A fan-out that holds a room can always go on; else whoever holds the map can; and if nobody does, any task
  // that has not ended can
  lemma SomeStepIsPossible(s: State, c: Conn) returns (a: Action)
    requires Inv(s) && c in s.tasks && !s.tasks[c].pc.Ended?
    ensures Enabled(s, a) && Draining(a)
  {
    if d :| d in s.tasks && s.tasks[d].pc.FanLoop? {
      assert TaskConsistent(s, s.tasks[d]);
      if p :| p in s.tasks[d].pc.left {
        a := Offer(d, p, true);
      } else {
        a := Advance(d);
      }
    } else if s.writer.Some? {
      assert TaskConsistent(s, s.tasks[s.writer.value]);
      a := Advance(s.writer.value);
    } else {
      assert TaskConsistent(s, s.tasks[c]);
      a := if s.tasks[c].pc.Reading? then Receive(c, Hangup) else Advance(c);
    }
  }

  lemma {:induction false} DrainBounded(s: State, actions: seq<Action>)
    requires Inv(s) && Schedule(s, actions)
    requires forall i | 0 <= i < |actions| :: Draining(actions[i])
    ensures |actions| + TotalRank(Run(s, actions).tasks) <= TotalRank(s.tasks)
    decreases |actions|
  {
    if actions != [] {
      NextKeepsInv(s, actions[0]);
      DrainingStepsDown(s, actions[0]);
      DrainBounded(Next(s, actions[0]), actions[1..]);
    }
  }

  lemma {:induction false} RunStaysReachable(s: State, actions: seq<Action>)
    requires Reachable(s) && Schedule(s, actions)
    ensures Reachable(Run(s, actions))
    decreases |actions|
  {
    if actions != [] {
      ReachableNext(s, actions[0]);
      RunStaysReachable(Next(s, actions[0]), actions[1..]);
    }
  }

  // From any reachable state every shutdown schedule is bounded, and one that cannot be
  // prolonged has ended every task and emptied the map
  lemma ShutdownEmptiesMap(s: State, actions: seq<Action>)
    requires Reachable(s) && Schedule(s, actions)
    requires forall i | 0 <= i < |actions| :: Draining(actions[i])
    ensures |actions| <= TotalRank(s.tasks)
    ensures (forall a | Draining(a) :: !Enabled(Run(s, actions), a)) ==>
              && Run(s, actions).mapped == map[]
              && forall c | c in Run(s, actions).tasks :: Run(s, actions).tasks[c].pc.Ended?
  {
    ReachableInv(s);
    DrainBounded(s, actions);
    RunStaysReachable(s, actions);
    var s' := Run(s, actions);
    ReachableInv(s');
    if forall c | c in s'.tasks :: s'.tasks[c].pc.Ended? {
      EndedLeavesNoRoom(s');
    } else {
      var c :| c in s'.tasks && !s'.tasks[c].pc.Ended?;
      var a := SomeStepIsPossible(s', c);
    }
  }
}
