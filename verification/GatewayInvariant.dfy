/**
 What every interleaving of the gateway's sections keeps: a peer's rooms are bounded, no stored
 room is empty, and a clearing task knows the members of its room, but for those that joined after
 it had listed them.
 */
module GatewayInvariant {
  import opened Sets
  import opened Storage
  import opened Gateway

  type Tasks = map<Tid, Pc>

  predicate Live(pc: Pc) {
    !pc.Closing? && !pc.Closed? && !pc.Idle? && !Clearing(pc)
  }

  // Whatever is recorded belongs to a live connection, and at most five rooms a peer
  ghost predicate RecordsBounded(t: Tables, tasks: Tasks) {
    && (forall p | p in t.conns || p in t.peerRooms :: Conn(p) in tasks && Live(tasks[Conn(p)]))
    && (forall p | p in t.peerRooms :: |t.peerRooms[p]| <= MAX_ROOMS_PER_PEER)
    && (forall p | Conn(p) in tasks :: RoomToRecord(t, p, tasks[Conn(p)]))
  }

  // A connection past its check still has a place for the room
  predicate RoomToRecord(t: Tables, p: PeerId, pc: Pc) {
    pc.JoinRecord? ==> pc.join.room in RoomsOf(t, p) || |RoomsOf(t, p)| < MAX_ROOMS_PER_PEER
  }

  predicate KindOk(tid: Tid, pc: Pc, joins: nat) {
    && (tid.Conn? <==> !Clearing(pc) && !pc.Idle?)
    && (tid.Conn? ==> !IsDummy(tid.peer))
    && (pc.ClearTake? || pc.ClearLeave? ==> Since(pc) <= joins)
  }

  function Since(pc: Pc): nat {
    match pc
    case ClearTake(_, _, since, _) => since
    case ClearLeave(_, _, _, since, _) => since
    case _ => 0
  }

  ghost predicate TasksSound(tasks: Tasks, joins: nat) {
    Sweeper in tasks && forall tid | tid in tasks :: KindOk(tid, tasks[tid], joins)
  }

  ghost predicate RoomsSound(rooms: Rooms, clock: nat) {
    forall n | n in rooms :: rooms[n].peers != {} && rooms[n].createdAt <= clock
  }

  // A stored peer has a task, and its entry has the number of its join
  ghost predicate EntriesSound(t: Tables, tasks: Tasks, h: History) {
    forall n, p | Stores(t, n, p) :: Conn(p) in tasks && Entry(n, p) in h.stamps && h.stamps[Entry(n, p)] <= h.joins
  }

  // Between leaving the store and forgetting the room a peer is not in the room
  ghost predicate LeaversLeft(t: Tables, tasks: Tasks) {
    forall p | Conn(p) in tasks && tasks[Conn(p)].LeaveForget? :: !Stores(t, tasks[Conn(p)].room, p)
  }

  // The entry's latest join came after the first `since` joins
  predicate JoinedAfter(h: History, n: Name, p: PeerId, since: nat) {
    Entry(n, p) in h.stamps && h.stamps[Entry(n, p)] > since
  }

  // The listed members that a clearing task has still to take out of the store
  function Todo(pc: Pc): set<PeerId> {
    match pc
    case ClearTake(_, todo, _, _) => todo
    case ClearLeave(_, p, todo, _, _) => todo + {p}
    case _ => {}
  }

  predicate Clears(pc: Pc, n: Name) {
    (pc.ClearTake? || pc.ClearLeave?) && pc.room == n
  }

  predicate Known(h: History, pc: Pc, n: Name, p: PeerId) {
    p in Todo(pc) || JoinedAfter(h, n, p, Since(pc))
  }

  ghost predicate MembersKnown(t: Tables, tasks: Tasks, h: History) {
    forall tid, n, p | tid in tasks && Clears(tasks[tid], n) && Stores(t, n, p) :: Known(h, tasks[tid], n, p)
  }

  ghost predicate Inv(s: State) {
    && RecordsBounded(s.tables, s.tasks)
    && TasksSound(s.tasks, s.history.joins)
    && RoomsSound(s.tables.rooms, s.clock)
    && EntriesSound(s.tables, s.tasks, s.history)
    && LeaversLeft(s.tables, s.tasks)
    && MembersKnown(s.tables, s.tasks, s.history)
  }

  // ---- Single writes ----

  lemma ForgetFacts(t: Tables, p: PeerId, n: Name)
    ensures var t' := Forget(t, p, n);
            && t' == t.(peerRooms := t'.peerRooms)
            && RoomsOf(t', p) == RoomsOf(t, p) - {n}
            && (forall q | q in t'.peerRooms :: q in t.peerRooms && |t'.peerRooms[q]| <= |t.peerRooms[q]|)
            && (forall q | q != p :: RoomsOf(t', q) == RoomsOf(t, q))
  {
    if p in t.peerRooms { SubsetSize(t.peerRooms[p] - {n}, t.peerRooms[p]); }
  }

  lemma TakeOutFacts(t: Tables, p: PeerId, n: Name)
    ensures var t' := TakeOut(t, p, n);
            && t' == t.(peerRooms := t'.peerRooms, conns := t'.conns) && t'.conns <= t.conns
            && RoomsOf(t', p) == (if p in t.conns then RoomsOf(t, p) - {n} else RoomsOf(t, p))
            && (forall q | q in t'.peerRooms :: q in t.peerRooms && |t'.peerRooms[q]| <= |t.peerRooms[q]|)
            && (forall q | q != p :: RoomsOf(t', q) == RoomsOf(t, q))
  {
    ForgetFacts(t, p, n);
  }

  // Leaving takes one peer out of one room, and an emptied room away
  lemma LeftFacts(t: Tables, n: Name, p: PeerId, now: nat)
    ensures var t' := StoreLeave(t, n, p, now);
            && t' == t.(rooms := t'.rooms) && |t'.rooms| <= |t.rooms|
            && (forall m | m in t'.rooms :: m in t.rooms && SameIncarnation(t.rooms[m], t'.rooms[m]))
            && (forall m | m in t.rooms && m != n :: m in t'.rooms && t'.rooms[m] == t.rooms[m])
            && (forall m, q :: Stores(t', m, q) <==> Stores(t, m, q) && !(m == n && q == p))
            && ((forall m | m in t.rooms :: t.rooms[m].peers != {}) ==>
                  forall m | m in t'.rooms :: t'.rooms[m].peers != {})
  {
    var t' := StoreLeave(t, n, p, now);
    assert |t'.rooms.Keys| <= |t.rooms.Keys| by { SubsetSize(t'.rooms.Keys, t.rooms.Keys); }
  }

  lemma JoinedFacts(t: Tables, p: PeerId, j: JoinRequest, now: nat)
    ensures var t' := StoreJoin(t, p, j, now);
            && t' == t.(rooms := t'.rooms) && t'.rooms.Keys == t.rooms.Keys + {j.room}
            && (forall m | m in t.rooms ::
                  SameIncarnation(t.rooms[m], t'.rooms[m]) && (m != j.room ==> t'.rooms[m] == t.rooms[m]))
            && (j.room !in t.rooms ==> t'.rooms[j.room].createdAt == now)
            && (forall m, q :: Stores(t', m, q) <==> Stores(t, m, q) || (m == j.room && q == p))
            && ((forall m | m in t.rooms :: t.rooms[m].peers != {}) ==>
                  forall m | m in t'.rooms :: t'.rooms[m].peers != {})
  {
    var t' := StoreJoin(t, p, j, now);
    assert p in t'.rooms[j.room].peers;
  }

  // ---- Records ----

  // The tables are as they were; one task moves
  lemma MoveKeepsRecords(t: Tables, tasks: Tasks, tid: Tid, pc: Pc)
    requires RecordsBounded(t, tasks)
    requires tid.Conn? ==> Live(pc) || (tid.peer !in t.conns && tid.peer !in t.peerRooms)
    requires tid.Conn? ==> RoomToRecord(t, tid.peer, pc)
    ensures RecordsBounded(t, tasks[tid := pc])
  {
  }

  // One peer's record loses rooms
  lemma LossKeepsRecords(t: Tables, t': Tables, tasks: Tasks, p: PeerId)
    requires RecordsBounded(t, tasks) && t'.conns <= t.conns && RoomsOf(t', p) <= RoomsOf(t, p)
    requires forall q | q in t'.peerRooms :: q in t.peerRooms && |t'.peerRooms[q]| <= |t.peerRooms[q]|
    requires forall q | q != p :: RoomsOf(t', q) == RoomsOf(t, q)
    ensures RecordsBounded(t', tasks)
  {
    SubsetSizeSame(RoomsOf(t', p), RoomsOf(t, p));
    assert |RoomsOf(t, p)| <= MAX_ROOMS_PER_PEER;
    forall q | Conn(q) in tasks ensures RoomToRecord(t', q, tasks[Conn(q)]) {
      assert RoomToRecord(t, q, tasks[Conn(q)]);
    }
  }

  lemma RecordKeepsRecords(t: Tables, tasks: Tasks, p: PeerId)
    requires RecordsBounded(t, tasks) && Conn(p) in tasks && tasks[Conn(p)].JoinRecord?
    ensures RecordsBounded(Record(t, p, tasks[Conn(p)].join.room), tasks)
  {
    var n := tasks[Conn(p)].join.room;
    var t' := Record(t, p, n);
    assert RoomToRecord(t, p, tasks[Conn(p)]);
    assert n in RoomsOf(t, p) ==> RoomsOf(t, p) + {n} == RoomsOf(t, p);
    forall q | Conn(q) in tasks ensures RoomToRecord(t', q, tasks[Conn(q)]) {
      assert RoomToRecord(t, q, tasks[Conn(q)]);
    }
  }

  lemma AdvanceKeepsRecords(t: Tables, tasks: Tasks, tid: Tid, now: nat)
    requires RecordsBounded(t, tasks) && tid in tasks && CanAdvance(tid, tasks[tid])
    ensures RecordsBounded(TablesOf(t, tid, tasks[tid], now), tasks)
  {
    match tasks[tid] {
      case JoinRecord(_) => if tid.Conn? { RecordKeepsRecords(t, tasks, tid.peer); }
      case LeaveForget(n) =>
        if tid.Conn? {
          ForgetFacts(t, tid.peer, n);
          LossKeepsRecords(t, Forget(t, tid.peer, n), tasks, tid.peer);
        }
      case _ =>
    }
  }

  lemma NextKeepsRecords(s: State, a: Action)
    requires RecordsBounded(s.tables, s.tasks) && Enabled(s, a)
    ensures RecordsBounded(Next(s, a).tables, Next(s, a).tasks)
  {
    var t' := TablesAfter(s, a);
    match a {
      case Hangup(p) => LossKeepsRecords(s.tables, t', s.tasks, p);
      case Take(tid, p) =>
        TakeOutFacts(s.tables, p, s.tasks[tid].room);
        LossKeepsRecords(s.tables, t', s.tasks, p);
      case Advance(tid) => AdvanceKeepsRecords(s.tables, s.tasks, tid, s.clock);
      case _ =>
    }
    if a.Connect? {
      assert RecordsBounded(t', s.tasks[Mover(a) := PcAfter(s, a)]);
    } else if !a.Wait? {
      assert RecordsBounded(t', s.tasks);
      MoverKeepsRecords(s, a);
      MoveKeepsRecords(t', s.tasks, Mover(a), PcAfter(s, a));
    }
  }

  lemma MoverKeepsRecords(s: State, a: Action)
    requires RecordsBounded(s.tables, s.tasks) && Enabled(s, a) && !a.Wait? && !a.Connect?
    ensures var t', tid, pc := TablesAfter(s, a), Mover(a), PcAfter(s, a);
            tid.Conn? ==>
              (Live(pc) || (tid.peer !in t'.conns && tid.peer !in t'.peerRooms)) && RoomToRecord(t', tid.peer, pc)
  {
  }

  // ---- The store ----

  // The one store write that a section makes, if any
  datatype Effect = NoEffect | Enters(join: JoinRequest, peer: PeerId) | Exits(room: Name, peer: PeerId)

  function EffectOf(s: State, a: Action): Effect
    requires Enabled(s, a)
  {
    match a
    case Forsake(p, n) => Exits(n, p)
    case Advance(tid) => (
      match s.tasks[tid]
      case JoinStore(j) => if tid.Conn? then Enters(j, tid.peer) else NoEffect
      case LeaveStore(n) => if tid.Conn? then Exits(n, tid.peer) else NoEffect
      case ClearTake(n, _, _, _) => Exits(n, Dummy(tid))
      case ClearLeave(n, p, _, _, _) => Exits(n, p)
      case _ => NoEffect)
    case _ => NoEffect
  }

  lemma EffectIsAll(s: State, a: Action)
    requires Enabled(s, a)
    ensures TablesAfter(s, a).rooms ==
            match EffectOf(s, a)
            case NoEffect => s.tables.rooms
            case Enters(j, p) => StoreJoin(s.tables, p, j, s.clock).rooms
            case Exits(n, p) => StoreLeave(s.tables, n, p, s.clock).rooms
    ensures HistoryAfter(s, a).joins == s.history.joins + if EffectOf(s, a).Enters? then 1 else 0
    ensures HistoryAfter(s, a).stamps ==
            if EffectOf(s, a).Enters? then
              s.history.stamps[Entry(EffectOf(s, a).join.room, EffectOf(s, a).peer) := s.history.joins + 1]
            else s.history.stamps
  {
  }

  predicate StoresAfter(t: Tables, e: Effect, n: Name, p: PeerId) {
    match e
    case NoEffect => Stores(t, n, p)
    case Enters(j, q) => Stores(t, n, p) || (n == j.room && p == q)
    case Exits(m, q) => Stores(t, n, p) && !(n == m && p == q)
  }

  lemma EffectFacts(s: State, a: Action)
    requires Enabled(s, a)
    ensures forall n, p :: Stores(TablesAfter(s, a), n, p) <==> StoresAfter(s.tables, EffectOf(s, a), n, p)
    ensures RoomsSound(s.tables.rooms, s.clock) ==> RoomsSound(TablesAfter(s, a).rooms, Next(s, a).clock)
  {
    EffectIsAll(s, a);
    var t' := TablesAfter(s, a);
    match EffectOf(s, a) {
      case NoEffect =>
      case Enters(j, p) =>
        JoinedFacts(s.tables, p, j, s.clock);
        assert forall n, q :: Stores(t', n, q) <==> Stores(StoreJoin(s.tables, p, j, s.clock), n, q);
      case Exits(n, p) =>
        LeftFacts(s.tables, n, p, s.clock);
        assert forall m, q :: Stores(t', m, q) <==> Stores(StoreLeave(s.tables, n, p, s.clock), m, q);
    }
  }

  lemma MoverIsSound(s: State, a: Action)
    requires TasksSound(s.tasks, s.history.joins) && Enabled(s, a) && !a.Wait?
    ensures KindOk(Mover(a), PcAfter(s, a), HistoryAfter(s, a).joins) && s.history.joins <= HistoryAfter(s, a).joins
  {
  }

  lemma NextKeepsTasks(s: State, a: Action)
    requires TasksSound(s.tasks, s.history.joins) && Enabled(s, a)
    ensures TasksSound(Next(s, a).tasks, Next(s, a).history.joins)
  {
    if !a.Wait? { MoverIsSound(s, a); }
  }

  lemma NextKeepsEntries(s: State, a: Action)
    requires EntriesSound(s.tables, s.tasks, s.history) && Enabled(s, a)
    ensures EntriesSound(Next(s, a).tables, Next(s, a).tasks, Next(s, a).history)
  {
    EffectIsAll(s, a);
    EffectFacts(s, a);
  }

  lemma NextKeepsLeavers(s: State, a: Action)
    requires LeaversLeft(s.tables, s.tasks) && Enabled(s, a)
    ensures LeaversLeft(Next(s, a).tables, Next(s, a).tasks)
  {
    EffectFacts(s, a);
    var s' := Next(s, a);
    forall p | Conn(p) in s'.tasks && s'.tasks[Conn(p)].LeaveForget?
      ensures !Stores(s'.tables, s'.tasks[Conn(p)].room, p)
    {
      if !a.Wait? && Mover(a) == Conn(p) {
        assert EffectOf(s, a) == Exits(s'.tasks[Conn(p)].room, p);
      } else {
        assert s'.tasks[Conn(p)] == s.tasks[Conn(p)];
      }
    }
  }

  // A joined entry is later than every listing so far; a listing knows all there are
  lemma NextKeepsKnown(s: State, a: Action, tid: Tid, n: Name, p: PeerId)
    requires Inv(s) && Enabled(s, a)
    requires tid in Next(s, a).tasks && Clears(Next(s, a).tasks[tid], n) && Stores(Next(s, a).tables, n, p)
    ensures Known(Next(s, a).history, Next(s, a).tasks[tid], n, p)
  {
    EffectIsAll(s, a);
    EffectFacts(s, a);
    var s' := Next(s, a);
    if a.Wait? || Mover(a) != tid {
      assert s'.tasks[tid] == s.tasks[tid];
      assert Stores(s.tables, n, p) ==> Known(s.history, s.tasks[tid], n, p);
      assert KindOk(tid, s.tasks[tid], s.history.joins);
    } else {
      MoverKnows(s, a, n, p);
    }
  }

  lemma MoverKnows(s: State, a: Action, n: Name, p: PeerId)
    requires Inv(s) && Enabled(s, a) && !a.Wait? && Clears(PcAfter(s, a), n)
    requires StoresAfter(s.tables, EffectOf(s, a), n, p)
    ensures Known(HistoryAfter(s, a), PcAfter(s, a), n, p)
  {
    assert Stores(s.tables, n, p);
    var tid := Mover(a);
    assert tid in s.tasks;
    assert s.tasks[tid].ClearTake? || s.tasks[tid].ClearLeave? ==> Known(s.history, s.tasks[tid], n, p);
  }

  lemma NextKeepsInv(s: State, a: Action)
    requires Inv(s) && Enabled(s, a)
    ensures Inv(Next(s, a))
  {
    NextKeepsRecords(s, a);
    NextKeepsTasks(s, a);
    EffectFacts(s, a);
    NextKeepsEntries(s, a);
    NextKeepsLeavers(s, a);
    var s' := Next(s, a);
    forall tid, n, p | tid in s'.tasks && Clears(s'.tasks[tid], n) && Stores(s'.tables, n, p)
      ensures Known(s'.history, s'.tasks[tid], n, p)
    {
      NextKeepsKnown(s, a, tid, n, p);
    }
  }

  lemma {:induction false} RunKeepsInv(s: State, actions: seq<Action>)
    requires Inv(s) && Schedule(s, actions)
    ensures Inv(Run(s, actions))
    decreases |actions|
  {
    if actions != [] {
      NextKeepsInv(s, actions[0]);
      RunKeepsInv(Next(s, actions[0]), actions[1..]);
    }
  }

  lemma {:induction false} RunExtends(s: State, actions: seq<Action>, a: Action)
    requires Schedule(s, actions) && Enabled(Run(s, actions), a)
    ensures Schedule(s, actions + [a]) && Run(s, actions + [a]) == Next(Run(s, actions), a)
    decreases |actions|
  {
    if actions == [] {
      assert ([] + [a])[1..] == [];
    } else {
      assert (actions + [a])[1..] == actions[1..] + [a];
      RunExtends(Next(s, actions[0]), actions[1..], a);
    }
  }

  ghost predicate Reachable(s: State) {
    exists actions :: Schedule(EMPTY, actions) && s == Run(EMPTY, actions)
  }

  lemma ReachableInv(s: State)
    requires Reachable(s)
    ensures Inv(s)
  {
    var actions :| Schedule(EMPTY, actions) && s == Run(EMPTY, actions);
    RunKeepsInv(EMPTY, actions);
  }

  lemma ReachableNext(s: State, a: Action)
    requires Reachable(s) && Enabled(s, a)
    ensures Reachable(Next(s, a))
  {
    var actions :| Schedule(EMPTY, actions) && s == Run(EMPTY, actions);
    RunExtends(EMPTY, actions, a);
  }
}
