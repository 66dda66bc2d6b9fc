/**
 How long a room with a time to live can exist. The expiry loop lists the expired rooms, then the
 members of each, then takes those out one by one; who joins after the members were listed stays,
 and the room with it.
 */
module GatewayExpiry {
  import opened Storage
  import opened Gateway
  import opened GatewayInvariant
  import opened GatewayTheorems

  // The sweep has yet to finish with the room
  predicate Pending(pc: Pc, n: Name) {
    match pc
    case ClearList(m, rest) => n == m || n in rest
    case ClearTake(m, _, _, rest) => n == m || n in rest
    case ClearLeave(m, _, _, _, rest) => n == m || n in rest
    case _ => false
  }

  // Every member joined after the sweep had listed the room's members
  ghost predicate Late(t: Tables, h: History, n: Name) {
    n in h.listed && forall p | Stores(t, n, p) :: JoinedAfter(h, n, p, h.listed[n])
  }

  ghost predicate ListingsSound(pc: Pc, h: History) {
    && (forall n | n in h.listed :: h.listed[n] <= h.joins)
    && (forall n | Clears(pc, n) :: n in h.listed && h.listed[n] == Since(pc))
  }

  // A room that the last sweep found expired is still to be dealt with, or has late members only
  ghost predicate SweptOrLate(s: State) {
    && Sweeper in s.tasks && s.history.lastSweep <= s.clock
    && ListingsSound(s.tasks[Sweeper], s.history)
    && forall n | n in s.tables.rooms && Expires(s.tables.rooms[n], s.history.lastSweep) ::
         Pending(s.tasks[Sweeper], n) || Late(s.tables, s.history, n)
  }

  lemma ListingsStaySound(s: State, a: Action)
    requires Inv(s) && SweptOrLate(s) && Enabled(s, a)
    ensures var s' := Next(s, a);
            Sweeper in s'.tasks && s'.history.lastSweep <= s'.clock && ListingsSound(s'.tasks[Sweeper], s'.history)
  {
    if !a.Wait? && Mover(a) == Sweeper {
      assert KindOk(Sweeper, s.tasks[Sweeper], s.history.joins);
      SweeperListsSoundly(s, a);
    }
  }

  lemma SweeperListsSoundly(s: State, a: Action)
    requires Enabled(s, a) && !a.Wait? && Mover(a) == Sweeper && Sweeper in s.tasks
    requires ListingsSound(s.tasks[Sweeper], s.history) && !s.tasks[Sweeper].JoinStore?
    ensures ListingsSound(PcAfter(s, a), HistoryAfter(s, a))
  {
  }

  lemma LateStays(s: State, a: Action, n: Name)
    requires Inv(s) && SweptOrLate(s) && Enabled(s, a) && Late(s.tables, s.history, n)
    requires n in HistoryAfter(s, a).listed && HistoryAfter(s, a).listed[n] == s.history.listed[n]
    ensures Late(Next(s, a).tables, Next(s, a).history, n)
  {
    EffectIsAll(s, a);
    EffectFacts(s, a);
  }

  // The sweep's last section for a room: who is left has joined late
  lemma LastSectionLeavesLate(s: State, n: Name)
    requires Inv(s) && SweptOrLate(s) && Enabled(s, Advance(Sweeper))
    requires s.tasks[Sweeper].ClearTake? && s.tasks[Sweeper].room == n
    ensures Late(Next(s, Advance(Sweeper)).tables, Next(s, Advance(Sweeper)).history, n)
  {
    EffectFacts(s, Advance(Sweeper));
    var pc := s.tasks[Sweeper];
    assert Clears(pc, n);
    forall p | Stores(s.tables, n, p) ensures JoinedAfter(s.history, n, p, s.history.listed[n]) {
      assert Known(s.history, pc, n, p);
    }
  }

  // A room expired at the last sweep was so before the section
  lemma ExpiredBefore(s: State, a: Action, n: Name)
    requires Inv(s) && SweptOrLate(s) && Enabled(s, a) && !a.Tick?
    requires n in Next(s, a).tables.rooms && Expires(Next(s, a).tables.rooms[n], s.history.lastSweep)
    ensures n in s.tables.rooms && Expires(s.tables.rooms[n], s.history.lastSweep)
  {
    EffectIsAll(s, a);
    match EffectOf(s, a) {
      case NoEffect =>
      case Exits(m, p) => LeftFacts(s.tables, m, p, s.clock);
      case Enters(j, p) => JoinedFacts(s.tables, p, j, s.clock);
    }
    if n in s.tables.rooms { StepKeepsIncarnation(s, a, n); }
  }

  lemma SweptOrLateAt(s: State, a: Action, n: Name)
    requires Inv(s) && SweptOrLate(s) && Enabled(s, a) && !a.Tick?
    requires n in Next(s, a).tables.rooms && Expires(Next(s, a).tables.rooms[n], s.history.lastSweep)
    ensures Pending(Next(s, a).tasks[Sweeper], n) || Late(Next(s, a).tables, Next(s, a).history, n)
  {
    ExpiredBefore(s, a, n);
    var pc := s.tasks[Sweeper];
    if Pending(Next(s, a).tasks[Sweeper], n) {
    } else if a == Advance(Sweeper) && pc.ClearTake? && pc.room == n {
      LastSectionLeavesLate(s, n);
    } else {
      assert KindOk(Sweeper, pc, s.history.joins);
      PendingStays(s, a, n);
      LateStays(s, a, n);
    }
  }

  lemma PendingStays(s: State, a: Action, n: Name)
    requires Enabled(s, a) && Sweeper in s.tasks && KindOk(Sweeper, s.tasks[Sweeper], s.history.joins)
    requires !Pending(Next(s, a).tasks[Sweeper], n)
    requires !(a == Advance(Sweeper) && s.tasks[Sweeper].ClearTake? && s.tasks[Sweeper].room == n)
    ensures !Pending(s.tasks[Sweeper], n)
    ensures n in s.history.listed ==>
              n in HistoryAfter(s, a).listed && HistoryAfter(s, a).listed[n] == s.history.listed[n]
  {
  }

  lemma NextKeepsSwept(s: State, a: Action)
    requires Inv(s) && SweptOrLate(s) && Enabled(s, a)
    ensures SweptOrLate(Next(s, a))
  {
    ListingsStaySound(s, a);
    var s' := Next(s, a);
    forall n | n in s'.tables.rooms && Expires(s'.tables.rooms[n], s'.history.lastSweep)
      ensures Pending(s'.tasks[Sweeper], n) || Late(s'.tables, s'.history, n)
    {
      if a.Tick? {
        assert n in a.expired;
      } else {
        SweptOrLateAt(s, a, n);
      }
    }
  }

  lemma {:induction false} RunKeepsSwept(s: State, actions: seq<Action>)
    requires Inv(s) && SweptOrLate(s) && Schedule(s, actions)
    ensures SweptOrLate(Run(s, actions))
    decreases |actions|
  {
    if actions != [] {
      NextKeepsInv(s, actions[0]);
      NextKeepsSwept(s, actions[0]);
      RunKeepsSwept(Next(s, actions[0]), actions[1..]);
    }
  }

  // The sweep's last section for a room leaves it in the store exactly if a member joined after its
  // members had been listed
  lemma SweepLeavesExactlyWhen(s: State, n: Name)
    requires Reachable(s) && Enabled(s, Advance(Sweeper)) && s.tasks[Sweeper].ClearTake? && s.tasks[Sweeper].room == n
    ensures n in s.history.listed
    ensures n in Next(s, Advance(Sweeper)).tables.rooms <==>
            exists p :: Stores(s.tables, n, p) && JoinedAfter(s.history, n, p, s.history.listed[n])
  {
    ReachableInv(s);
    ReachableSwept(s);
    var pc := s.tasks[Sweeper];
    assert Clears(pc, n);
    EffectFacts(s, Advance(Sweeper));
    var s' := Next(s, Advance(Sweeper));
    if n in s'.tables.rooms {
      assert RoomsSound(s'.tables.rooms, s'.clock);
      var p :| p in s'.tables.rooms[n].peers;
      assert Stores(s'.tables, n, p) && Known(s.history, pc, n, p);
    }
    if p :| Stores(s.tables, n, p) && JoinedAfter(s.history, n, p, s.history.listed[n]) {
      assert Conn(p) in s.tasks && KindOk(Conn(p), s.tasks[Conn(p)], s.history.joins);
      assert Stores(s'.tables, n, p);
    }
  }

  lemma ReachableSwept(s: State)
    requires Reachable(s)
    ensures SweptOrLate(s)
  {
    var actions :| Schedule(EMPTY, actions) && s == Run(EMPTY, actions);
    RunKeepsSwept(EMPTY, actions);
  }

  // With the loop at rest and its last sweep at most 30 s ago, a room older than its time to live and
  // 30 s has only members that joined it after that sweep had listed its members
  lemma OverdueRoomsJoinedLate(s: State, n: Name)
    requires Reachable(s) && Sweeper in s.tasks && s.tasks[Sweeper] == Idle
    requires s.clock <= s.history.lastSweep + SWEEP_PERIOD
    requires n in s.tables.rooms && s.tables.rooms[n].ttlSeconds > 0
    requires s.clock > s.tables.rooms[n].createdAt + s.tables.rooms[n].ttlSeconds * SECOND + 30 * SECOND
    ensures Late(s.tables, s.history, n) && s.tables.rooms[n].peers != {}
  {
    ReachableInv(s);
    ReachableSwept(s);
  }

  // ---- Runs without late joins ----

  // A join into a room whose members the sweep has listed and not yet finished with
  predicate JoinsLate(s: State, a: Action)
    requires Enabled(s, a)
  {
    EffectOf(s, a).Enters? && Sweeper in s.tasks && Clears(s.tasks[Sweeper], EffectOf(s, a).join.room)
  }

  ghost predicate Swept(s: State) {
    && Sweeper in s.tasks && s.history.lastSweep <= s.clock
    && (forall n, p | Clears(s.tasks[Sweeper], n) && Stores(s.tables, n, p) :: p in Todo(s.tasks[Sweeper]))
    && forall n | n in s.tables.rooms && Expires(s.tables.rooms[n], s.history.lastSweep) :: Pending(s.tasks[Sweeper], n)
  }

  lemma TodoStays(s: State, a: Action, n: Name, p: PeerId)
    requires Inv(s) && Swept(s) && Enabled(s, a) && !JoinsLate(s, a)
    requires Clears(Next(s, a).tasks[Sweeper], n) && Stores(Next(s, a).tables, n, p)
    ensures p in Todo(Next(s, a).tasks[Sweeper])
  {
    EffectFacts(s, a);
    assert KindOk(Sweeper, s.tasks[Sweeper], s.history.joins);
    assert StoresAfter(s.tables, EffectOf(s, a), n, p);
    if a.Wait? || Mover(a) != Sweeper {
      assert Stores(s.tables, n, p);
    } else {
      SweeperTodo(s, a, n, p);
    }
  }

  lemma SweeperTodo(s: State, a: Action, n: Name, p: PeerId)
    requires Swept(s) && Enabled(s, a) && !a.Wait? && Mover(a) == Sweeper && Clears(PcAfter(s, a), n)
    requires !s.tasks[Sweeper].JoinStore? && StoresAfter(s.tables, EffectOf(s, a), n, p)
    ensures p in Todo(PcAfter(s, a))
  {
    assert Stores(s.tables, n, p);
    assert Clears(s.tasks[Sweeper], n) ==> p in Todo(s.tasks[Sweeper]);
  }

  lemma LastSectionEmpties(s: State, n: Name)
    requires Inv(s) && Swept(s) && Enabled(s, Advance(Sweeper))
    requires s.tasks[Sweeper].ClearTake? && s.tasks[Sweeper].room == n
    ensures n !in Next(s, Advance(Sweeper)).tables.rooms
  {
    EffectFacts(s, Advance(Sweeper));
    var t' := Next(s, Advance(Sweeper)).tables;
    forall p ensures p !in Members(t', n) {
      assert Clears(s.tasks[Sweeper], n) && Stores(s.tables, n, p) ==> p in Todo(s.tasks[Sweeper]);
      assert !Stores(t', n, p);
    }
    assert Members(t', n) == {};
  }

  lemma SweptAt(s: State, a: Action, n: Name)
    requires Inv(s) && SweptOrLate(s) && Swept(s) && Enabled(s, a) && !JoinsLate(s, a) && !a.Tick?
    requires n in Next(s, a).tables.rooms && Expires(Next(s, a).tables.rooms[n], s.history.lastSweep)
    ensures Pending(Next(s, a).tasks[Sweeper], n)
  {
    ExpiredBefore(s, a, n);
    var pc := s.tasks[Sweeper];
    if a == Advance(Sweeper) && pc.ClearTake? && pc.room == n {
      LastSectionEmpties(s, n);
    } else {
      assert KindOk(Sweeper, pc, s.history.joins);
      if !Pending(Next(s, a).tasks[Sweeper], n) { PendingStays(s, a, n); }
    }
  }

  ghost predicate NoneJoinsLate(s: State, actions: seq<Action>)
    requires Schedule(s, actions)
    decreases |actions|
  {
    actions == [] || (!JoinsLate(s, actions[0]) && NoneJoinsLate(Next(s, actions[0]), actions[1..]))
  }

  lemma {:induction false} RunSweeps(s: State, actions: seq<Action>)
    requires Inv(s) && SweptOrLate(s) && Swept(s) && Schedule(s, actions) && NoneJoinsLate(s, actions)
    ensures Swept(Run(s, actions))
    decreases |actions|
  {
    if actions != [] {
      var a := actions[0];
      var s' := Next(s, a);
      NextKeepsInv(s, a);
      NextKeepsSwept(s, a);
      forall n, p | Clears(s'.tasks[Sweeper], n) && Stores(s'.tables, n, p) ensures p in Todo(s'.tasks[Sweeper]) {
        TodoStays(s, a, n, p);
      }
      forall n | n in s'.tables.rooms && Expires(s'.tables.rooms[n], s'.history.lastSweep)
        ensures Pending(s'.tasks[Sweeper], n)
      {
        if a.Tick? { assert n in a.expired; } else { SweptAt(s, a, n); }
      }
      RunSweeps(s', actions[1..]);
    }
  }

  // In a run without late joins, with the loop at rest and its last sweep at most 30 s ago, no room is
  // older than its time to live and 30 s
  lemma NoRoomOutlivesItsTtl(actions: seq<Action>, n: Name)
    requires Schedule(EMPTY, actions) && NoneJoinsLate(EMPTY, actions)
    requires var s := Run(EMPTY, actions);
             && Sweeper in s.tasks && s.tasks[Sweeper] == Idle && s.clock <= s.history.lastSweep + SWEEP_PERIOD
             && n in s.tables.rooms && s.tables.rooms[n].ttlSeconds > 0
    ensures var s := Run(EMPTY, actions);
            s.clock <= s.tables.rooms[n].createdAt + s.tables.rooms[n].ttlSeconds * SECOND + 30 * SECOND
  {
    RunSweeps(EMPTY, actions);
  }
}
