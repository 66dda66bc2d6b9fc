/**
 How far the limit on rooms can be passed. A join tests it long before it stores; a room counts here
 from the test on, so the excess is bounded by the joins past the test at one time.
 */
module GatewayLimit {
  import opened Sets
  import opened Storage
  import opened Gateway
  import opened GatewayInvariant

  // The join has looked at the limit, or at an existing room, and not yet stored
  predicate PastLimit(pc: Pc) {
    pc.JoinCheck? || pc.JoinRecord? || pc.JoinStore?
  }

  function Underway(tasks: Tasks): set<Tid> {
    set tid | tid in tasks && PastLimit(tasks[tid])
  }

  function Wanted(tasks: Tasks): set<Name> {
    set tid | tid in Underway(tasks) :: tasks[tid].join.room
  }

  // The rooms that are stored or will be, if nothing is refused or deleted
  function Claimed(s: State): set<Name> {
    s.tables.rooms.Keys + Wanted(s.tasks)
  }

  // The test that finds a place
  predicate Admits(s: State, a: Action) {
    a.Advance? && a.tid in s.tasks && s.tasks[a.tid].JoinLimit? && |s.tables.rooms| < MAX_ROOMS
  }

  lemma RoomsWereClaimed(s: State, a: Action, n: Name)
    requires Enabled(s, a) && n in Next(s, a).tables.rooms
    ensures n in Claimed(s)
  {
    EffectIsAll(s, a);
    match EffectOf(s, a) {
      case NoEffect =>
      case Exits(m, p) => LeftFacts(s.tables, m, p, s.clock);
      case Enters(j, p) =>
        JoinedFacts(s.tables, p, j, s.clock);
        assert a.Advance? && a.tid in Underway(s.tasks) && s.tasks[a.tid].join.room == j.room;
    }
  }

  lemma WantedWasClaimed(s: State, a: Action, tid: Tid)
    requires Enabled(s, a) && !Admits(s, a) && tid in Underway(Next(s, a).tasks)
    ensures Next(s, a).tasks[tid].join.room in Claimed(s)
  {
    if a.Wait? || Mover(a) != tid {
      assert tid in Underway(s.tasks);
    } else {
      MoverWanted(s, a);
      if PastLimit(s.tasks[tid]) { assert tid in Underway(s.tasks); }
    }
  }

  lemma MoverWanted(s: State, a: Action)
    requires Enabled(s, a) && !a.Wait? && !Admits(s, a) && PastLimit(PcAfter(s, a))
    ensures Mover(a) in s.tasks
    ensures var pc := s.tasks[Mover(a)];
            (PastLimit(pc) && PcAfter(s, a).join == pc.join) || PcAfter(s, a).join.room in s.tables.rooms
  {
  }

  // Only the test adds to the claimed rooms
  lemma ClaimsShrink(s: State, a: Action)
    requires Enabled(s, a) && !Admits(s, a)
    ensures Claimed(Next(s, a)) <= Claimed(s)
  {
    forall n | n in Claimed(Next(s, a)) ensures n in Claimed(s) {
      if n in Next(s, a).tables.rooms {
        RoomsWereClaimed(s, a, n);
      } else {
        var tid :| tid in Underway(Next(s, a).tasks) && Next(s, a).tasks[tid].join.room == n;
        WantedWasClaimed(s, a, tid);
      }
    }
  }

  lemma {:induction false} ImageSize(tasks: Tasks, tids: set<Tid>, names: set<Name>)
    requires tids <= Underway(tasks)
    requires names == set tid | tid in tids :: tasks[tid].join.room
    ensures |names| <= |tids|
    decreases |tids|
  {
    if tid :| tid in tids {
      var rest := set t | t in tids - {tid} :: tasks[t].join.room;
      ImageSize(tasks, tids - {tid}, rest);
      assert names == rest + {tasks[tid].join.room};
    }
  }

  lemma UnionSize<T>(a: set<T>, b: set<T>)
    ensures |a + b| <= |a| + |b|
  {
    assert a + b == a + (b - a);
    SubsetSize(b - a, b);
  }

  // At most so many joins past the test at one time
  ghost predicate FewUnderway(s: State, actions: seq<Action>, most: nat)
    requires Schedule(s, actions)
    decreases |actions|
  {
    |Underway(s.tasks)| <= most && (actions == [] || FewUnderway(Next(s, actions[0]), actions[1..], most))
  }

  lemma TestKeepsBound(s: State, a: Action, most: nat)
    requires Enabled(s, a) && Admits(s, a) && |Underway(Next(s, a).tasks)| <= most
    ensures |Claimed(Next(s, a))| <= 9_999 + most
  {
    var s' := Next(s, a);
    assert s'.tables == s.tables;
    ImageSize(s'.tasks, Underway(s'.tasks), Wanted(s'.tasks));
    UnionSize(s'.tables.rooms.Keys, Wanted(s'.tasks));
    assert |s.tables.rooms.Keys| == |s.tables.rooms|;
  }

  lemma {:induction false} RunKeepsBound(s: State, actions: seq<Action>, most: nat)
    requires Schedule(s, actions) && FewUnderway(s, actions, most) && |Claimed(s)| <= 9_999 + most
    ensures |Claimed(Run(s, actions))| <= 9_999 + most
    decreases |actions|
  {
    if actions != [] {
      var a := actions[0];
      if Admits(s, a) {
        TestKeepsBound(s, a, most);
      } else {
        ClaimsShrink(s, a);
        SubsetSize(Claimed(Next(s, a)), Claimed(s));
      }
      RunKeepsBound(Next(s, a), actions[1..], most);
    }
  }

  // With at most so many joins past the test at one time there are at most 9,999 rooms more; with one at a
  // time the limit of 10,000 holds, and with two it can be passed by one
  lemma RoomsBounded(actions: seq<Action>, most: nat)
    requires Schedule(EMPTY, actions) && FewUnderway(EMPTY, actions, most)
    ensures |Run(EMPTY, actions).tables.rooms| <= 9_999 + most
  {
    assert Claimed(EMPTY) == {};
    RunKeepsBound(EMPTY, actions, most);
    var s := Run(EMPTY, actions);
    SubsetSize(s.tables.rooms.Keys, Claimed(s));
    assert |s.tables.rooms.Keys| == |s.tables.rooms|;
  }
}
