/**
 Runs in which the gateway's tables are not as one might expect: a stored member without a record,
 recorded rooms that are not stored, 10,001 rooms, and a room that outlives its time to live.
 */
module GatewayWitnesses {
  import opened Seqs
  import opened Storage
  import opened Gateway
  import opened GatewayInvariant
  import opened GatewayTheorems

  lemma Leads(s: State, a: Action, s': State)
    requires Reachable(s) && Enabled(s, a) && Next(s, a) == s'
    ensures Reachable(s')
  {
    ReachableNext(s, a);
  }

  lemma StartIsReachable()
    ensures Reachable(EMPTY)
  {
    assert Schedule(EMPTY, []) && Run(EMPTY, []) == EMPTY;
  }

  function SetPc(s: State, tid: Tid, pc: Pc): State {
    s.(tasks := s.tasks[tid := pc])
  }

  predicate IsReading(s: State, p: PeerId) {
    Conn(p) in s.tasks && s.tasks[Conn(p)].Reading?
  }

  lemma Connects(s: State, p: PeerId)
    requires Reachable(s) && Conn(p) !in s.tasks && !IsDummy(p)
    ensures Reachable(SetPc(s.(tables := s.tables.(conns := s.tables.conns + {p})), Conn(p), Reading))
  {
    ReachableNext(s, Connect(p));
  }

  // ---- One join, section by section ----

  predicate Admits(s: State, p: PeerId, j: JoinRequest) {
    && (j.room in s.tables.rooms || |s.tables.rooms| < MAX_ROOMS)
    && (j.room in RoomsOf(s.tables, p) || |RoomsOf(s.tables, p)| < MAX_ROOMS_PER_PEER)
  }

  lemma Looks(s: State, p: PeerId, pc: Pc)
    requires Reachable(SetPc(s, Conn(p), pc)) && (pc.JoinCount? || pc.JoinLimit? || pc.JoinCheck?)
    ensures Reachable(SetPc(s, Conn(p), PcOf(s.tables, Conn(p), pc, s.history.joins)))
  {
    var s0 := SetPc(s, Conn(p), pc);
    var s1 := SetPc(s, Conn(p), PcOf(s.tables, Conn(p), pc, s.history.joins));
    assert s0.tasks[Conn(p) := s1.tasks[Conn(p)]] == s1.tasks;
    Leads(s0, Advance(Conn(p)), s1);
  }

  lemma ReachesRecord(s: State, p: PeerId, j: JoinRequest)
    requires Reachable(s) && IsReading(s, p) && Admits(s, p, j)
    ensures Reachable(SetPc(s, Conn(p), JoinRecord(j)))
  {
    Leads(s, Receive(p, Join(j)), SetPc(s, Conn(p), JoinCount(j)));
    ReachableInv(s);
    Looks(s, p, JoinCount(j));
    if |Members(s.tables, j.room)| == 0 { Looks(s, p, JoinLimit(j)); }
    Looks(s, p, JoinCheck(j));
  }

  function Recorded(s: State, p: PeerId, n: Name): State {
    s.(tables := Record(s.tables, p, n))
  }

  lemma ReachesStore(s: State, p: PeerId, j: JoinRequest)
    requires Reachable(s) && IsReading(s, p) && Admits(s, p, j)
    ensures Reachable(SetPc(Recorded(s, p, j.room), Conn(p), if SaltOk(j.salt) then JoinStore(j) else Reading))
  {
    ReachesRecord(s, p, j);
    var s0 := SetPc(s, Conn(p), JoinRecord(j));
    var s1 := SetPc(Recorded(s, p, j.room), Conn(p), if SaltOk(j.salt) then JoinStore(j) else Reading);
    assert s0.tasks[Conn(p) := s1.tasks[Conn(p)]] == s1.tasks;
    Leads(s0, Advance(Conn(p)), s1);
  }

  // The store section of a join
  function Stored(s: State, p: PeerId, j: JoinRequest): State {
    State(StoreJoin(s.tables, p, j, s.clock), s.tasks[Conn(p) := Reading], s.clock,
          s.history.(joins := s.history.joins + 1, stamps := s.history.stamps[Entry(j.room, p) := s.history.joins + 1]))
  }

  lemma StoresNow(s: State, p: PeerId, j: JoinRequest)
    requires Reachable(s) && Conn(p) in s.tasks && s.tasks[Conn(p)] == JoinStore(j)
    ensures Reachable(Stored(s, p, j))
  {
    Leads(s, Advance(Conn(p)), Stored(s, p, j));
  }

  lemma JoinsRoom(s: State, p: PeerId, j: JoinRequest)
    requires Reachable(s) && IsReading(s, p) && Admits(s, p, j) && SaltOk(j.salt)
    ensures Reachable(Stored(Recorded(s, p, j.room), p, j))
  {
    ReachesStore(s, p, j);
    var s1 := SetPc(Recorded(s, p, j.room), Conn(p), JoinStore(j));
    StoresNow(s1, p, j);
    assert s1.tasks[Conn(p) := Reading] == s.tasks[Conn(p) := Reading];
    assert Stored(s1, p, j) == Stored(Recorded(s, p, j.room), p, j);
  }

  // ---- A clean-up request for a room with one member ----

  function ClearedOf(s: State, k: nat, n: Name, p: PeerId): State {
    SetPc(s.(tables := TakeOut(s.tables, p, n).(rooms := s.tables.rooms - {n})), Cleaner(k), Idle)
  }

  lemma ClearsRoom(s: State, k: nat, n: Name, p: PeerId)
    requires Reachable(s) && Cleaner(k) !in s.tasks && Members(s.tables, n) == {p}
    ensures Reachable(ClearedOf(s, k, n, p))
  {
    var tid, since := Cleaner(k), s.history.joins;
    var s1 := SetPc(s, tid, ClearList(n, []));
    Leads(s, Clean(k, n), s1);
    var s2 := SetPc(s, tid, ClearTake(n, {p}, since, []));
    assert s1.tasks[tid := ClearTake(n, {p}, since, [])] == s2.tasks;
    Leads(s1, Advance(tid), s2);
    TakesOut(s, tid, n, p, since);
  }

  lemma TakesOut(s: State, tid: Tid, n: Name, p: PeerId, since: nat)
    requires Members(s.tables, n) == {p} && tid.Cleaner? && Reachable(SetPc(s, tid, ClearTake(n, {p}, since, [])))
    ensures Reachable(ClearedOf(s, tid.n, n, p))
  {
    var s2 := SetPc(s, tid, ClearTake(n, {p}, since, []));
    var t3 := TakeOut(s.tables, p, n);
    var s3 := SetPc(s.(tables := t3), tid, ClearLeave(n, p, {}, since, []));
    assert {p} - {p} == {};
    assert s2.tasks[tid := ClearLeave(n, p, {}, since, [])] == s3.tasks;
    Leads(s2, Take(tid, p), s3);
    var t4 := t3.(rooms := s.tables.rooms - {n});
    assert {p} - {p} == {} && StoreLeave(t3, n, p, s.clock) == t4;
    var s4 := SetPc(s.(tables := t4), tid, ClearTake(n, {}, since, []));
    assert s3.tasks[tid := ClearTake(n, {}, since, [])] == s4.tasks;
    Leads(s3, Advance(tid), s4);
    assert StoreLeave(t4, n, Dummy(tid), s.clock) == t4;
    var s5 := SetPc(s.(tables := t4), tid, Idle);
    assert s4.tasks[tid := Idle] == s5.tasks;
    Leads(s4, Advance(tid), s5);
  }

  // ---- The runs ----

  lemma FirstJoins(p: PeerId, j: JoinRequest) returns (s: State)
    requires !IsDummy(p) && SaltOk(j.salt)
    ensures Reachable(s)
    ensures s.tables == Tables({p}, map[p := {j.room}],
                               map[j.room := Room({p}, 0, TtlFor(j.ttl), 0, SaltBytes(j.salt))])
    ensures s.tasks == map[Sweeper := Idle, Conn(p) := Reading] && s.clock == 0
    ensures s.history == History(1, map[Entry(j.room, p) := 1], map[], 0)
  {
    StartIsReachable();
    Connects(EMPTY, p);
    var s1 := SetPc(EMPTY.(tables := EMPTY.tables.(conns := {} + {p})), Conn(p), Reading);
    JoinsRoom(s1, p, j);
    s := Stored(Recorded(s1, p, j.room), p, j);
  }

  lemma StoresUnrecorded(p: PeerId, n: Name) returns (s: State)
    requires !IsDummy(p)
    ensures Reachable(s) && s.tables.conns == {} && s.tables.peerRooms == map[]
    ensures s.tables.rooms == map[n := Room({p}, 0, 0, 0, [])]
    ensures s.tasks == map[Sweeper := Idle, Conn(p) := Reading, Cleaner(0) := Idle]
  {
    var j := JoinRequest(n, 0, Absent);
    var s1 := FirstJoins(p, j);
    ReachesStore(s1, p, j);
    var s2 := SetPc(Recorded(s1, p, n), Conn(p), JoinStore(j));
    ClearsRoom(s2, 0, n, p);
    var s3 := ClearedOf(s2, 0, n, p);
    assert s3.tables == Tables({}, map[], map[]);
    StoresNow(s3, p, j);
    s := Stored(s3, p, j);
  }

  // A clearing of the room between the record and the store join of a peer that joins again: the peer
  // is stored, has no record, and stays stored when it has disconnected and every task is at rest
  lemma StoredForGood(p: PeerId, n: Name) returns (s: State)
    requires !IsDummy(p)
    ensures Reachable(s) && AtRest(s) && !Covered(s)
    ensures Stores(s.tables, n, p) && !Records(s.tables, p, n) && Conn(p) in s.tasks && s.tasks[Conn(p)].Closed?
  {
    var s4 := StoresUnrecorded(p, n);
    ReachableNext(s4, Hangup(p));
    var s5 := Next(s4, Hangup(p));
    assert s5.tasks[Conn(p)] == Closing({});
    ReachableNext(s5, Advance(Conn(p)));
    s := Next(s5, Advance(Conn(p)));
    assert s.tasks == map[Sweeper := Idle, Conn(p) := Closed, Cleaner(0) := Idle];
    assert Stores(s.tables, n, p) && !Records(s.tables, p, n);
    assert forall tid | tid in s.tasks :: !WillLeave(tid, s.tasks[tid], n, p);
  }

  // A refused join has recorded the room
  lemma BadSaltIsRecorded(p: PeerId, n: Name) returns (s: State)
    requires !IsDummy(p)
    ensures Reachable(s) && AtRest(s) && !InSync(s)
    ensures Records(s.tables, p, n) && n !in s.tables.rooms
  {
    StartIsReachable();
    Connects(EMPTY, p);
    var s1 := SetPc(EMPTY.(tables := EMPTY.tables.(conns := {} + {p})), Conn(p), Reading);
    ReachesStore(s1, p, JoinRequest(n, 0, BadBase64));
    s := SetPc(Recorded(s1, p, n), Conn(p), Reading);
    assert Records(s.tables, p, n) && !Stores(s.tables, n, p) && !Settling(s.tasks, p, n);
  }

  lemma LosesConnection(p: PeerId, a: Name) returns (s: State)
    requires !IsDummy(p)
    ensures Reachable(s) && s.tables == Tables({}, map[], map[])
    ensures s.tasks == map[Sweeper := Idle, Conn(p) := Reading, Cleaner(0) := Idle]
  {
    var s1 := FirstJoins(p, JoinRequest(a, 0, Absent));
    ClearsRoom(s1, 0, a, p);
    s := ClearedOf(s1, 0, a, p);
  }

  // A peer that has lost its connection with its last room, and joins another before its goroutine
  // ends, keeps its record when that one is cleared
  lemma ClearedTwiceIsRecorded(p: PeerId, a: Name, b: Name) returns (s: State)
    requires !IsDummy(p) && a != b
    ensures Reachable(s) && AtRest(s) && !InSync(s)
    ensures Records(s.tables, p, b) && b !in s.tables.rooms && p !in s.tables.conns
  {
    var s2 := LosesConnection(p, a);
    JoinsRoom(s2, p, JoinRequest(b, 0, Absent));
    var s3 := Stored(Recorded(s2, p, b), p, JoinRequest(b, 0, Absent));
    ClearsRoom(s3, 1, b, p);
    s := ClearedOf(s3, 1, b, p);
    assert Records(s.tables, p, b) && !Stores(s.tables, b, p) && !Settling(s.tasks, p, b);
  }

  // ---- 10,001 rooms ----

  // The first k peers have joined the first k rooms
  ghost predicate Filled(s: State, ids: seq<PeerId>, names: seq<Name>, k: nat)
    requires k <= |ids| && k <= |names|
  {
    && Reachable(s) && |s.tables.rooms| == k
    && (forall n | n in s.tables.rooms :: n in names[..k])
    && (forall tid | tid in s.tasks :: tid == Sweeper || (tid.Conn? && tid.peer in ids[..k]))
  }

  lemma {:induction false} FillsUp(ids: seq<PeerId>, names: seq<Name>, k: nat) returns (s: State)
    requires Distinct(ids) && Distinct(names) && (forall p | p in ids :: !IsDummy(p))
    requires k <= MAX_ROOMS && k <= |ids| && k <= |names|
    ensures Filled(s, ids, names, k)
  {
    if k == 0 {
      StartIsReachable();
      s := EMPTY;
    } else {
      var s0 := FillsUp(ids, names, k - 1);
      s := OneMoreRoom(s0, ids, names, k - 1);
    }
  }

  lemma PrefixGrows<T>(xs: seq<T>, k: nat, x: T)
    requires k < |xs|
    ensures x in xs[..k + 1] <==> x in xs[..k] || x == xs[k]
  {
    assert xs[..k + 1] == xs[..k] + [xs[k]];
  }

  lemma NewcomerConnects(s: State, ids: seq<PeerId>, names: seq<Name>, k: nat) returns (s': State)
    requires Distinct(ids) && Distinct(names) && (forall p | p in ids :: !IsDummy(p))
    requires k < |ids| && k < |names| && Filled(s, ids, names, k)
    ensures Reachable(s') && IsReading(s', ids[k]) && s'.tables.rooms == s.tables.rooms
    ensures s'.tables.peerRooms == s.tables.peerRooms && ids[k] !in s.tables.peerRooms
    ensures s'.tasks == s.tasks[Conn(ids[k]) := Reading]
    ensures names[k] !in s.tables.rooms
  {
    assert Conn(ids[k]) !in s.tasks;
    Connects(s, ids[k]);
    s' := SetPc(s.(tables := s.tables.(conns := s.tables.conns + {ids[k]})), Conn(ids[k]), Reading);
    ReachableInv(s);
  }

  lemma JoinSize(t: Tables, p: PeerId, j: JoinRequest, now: nat)
    ensures var t' := StoreJoin(t, p, j, now);
            |t'.rooms| == |t.rooms| + (if j.room in t.rooms then 0 else 1) && t'.rooms.Keys == t.rooms.Keys + {j.room}
  {
    var t' := StoreJoin(t, p, j, now);
    assert t'.rooms.Keys == t.rooms.Keys + {j.room};
    assert |t'.rooms| == |t'.rooms.Keys| && |t.rooms| == |t.rooms.Keys|;
    assert j.room in t.rooms ==> t.rooms.Keys + {j.room} == t.rooms.Keys;
  }

  lemma OneMoreRoom(s: State, ids: seq<PeerId>, names: seq<Name>, k: nat) returns (s': State)
    requires Distinct(ids) && Distinct(names) && (forall p | p in ids :: !IsDummy(p))
    requires k < MAX_ROOMS && k < |ids| && k < |names| && Filled(s, ids, names, k)
    ensures Filled(s', ids, names, k + 1)
  {
    var p, j := ids[k], JoinRequest(names[k], 0, Absent);
    var s1 := NewcomerConnects(s, ids, names, k);
    JoinsRoom(s1, p, j);
    s' := Stored(Recorded(s1, p, j.room), p, j);
    JoinSize(Recorded(s1, p, j.room).tables, p, j, s1.clock);
    forall n | n in s'.tables.rooms ensures n in names[..k + 1] { PrefixGrows(names, k, n); }
    forall tid | tid in s'.tasks ensures tid == Sweeper || (tid.Conn? && tid.peer in ids[..k + 1]) {
      if tid.Conn? { PrefixGrows(ids, k, tid.peer); }
    }
  }

  // Two joins that both find 9,999 rooms pass the limit
  lemma LimitCanBePassed(ids: seq<PeerId>, names: seq<Name>) returns (s: State)
    requires Distinct(ids) && Distinct(names) && (forall p | p in ids :: !IsDummy(p))
    requires |ids| == 10_001 && |names| == 10_001
    ensures Reachable(s) && |s.tables.rooms| == 10_001
  {
    var k := 9_999;
    var s0 := FillsUp(ids, names, k);
    var s1 := NewcomerConnects(s0, ids, names, k);
    var j := JoinRequest(names[k], 0, Absent);
    ReachesStore(s1, ids[k], j);
    var s2 := SetPc(Recorded(s1, ids[k], names[k]), Conn(ids[k]), JoinStore(j));
    s := PassLimit(s2, ids, names, s0);
  }

  // The second peer gets as far as the first, and then both store
  lemma PassLimit(s: State, ids: seq<PeerId>, names: seq<Name>, s0: State) returns (s': State)
    requires Distinct(ids) && Distinct(names) && (forall p | p in ids :: !IsDummy(p))
    requires |ids| == 10_001 && |names| == 10_001 && Filled(s0, ids, names, 9_999) && Reachable(s)
    requires s.tables.rooms == s0.tables.rooms && s.tables.peerRooms.Keys == s0.tables.peerRooms.Keys + {ids[9_999]}
    requires s.tasks == s0.tasks[Conn(ids[9_999]) := JoinStore(JoinRequest(names[9_999], 0, Absent))]
    ensures Reachable(s') && |s'.tables.rooms| == 10_001
  {
    var q, jq := ids[10_000], JoinRequest(names[10_000], 0, Absent);
    ReachableInv(s0);
    assert Conn(q) !in s0.tasks && q != ids[9_999];
    Connects(s, q);
    var s1 := SetPc(s.(tables := s.tables.(conns := s.tables.conns + {q})), Conn(q), Reading);
    assert q !in s.tables.peerRooms;
    ReachesStore(s1, q, jq);
    var s2 := SetPc(Recorded(s1, q, jq.room), Conn(q), JoinStore(jq));
    assert names[9_999] !in s0.tables.rooms && names[10_000] !in s0.tables.rooms && names[9_999] != names[10_000];
    s' := BothStore(s2, ids[9_999], q, JoinRequest(names[9_999], 0, Absent), jq);
  }

  lemma BothStore(s: State, p: PeerId, q: PeerId, jp: JoinRequest, jq: JoinRequest) returns (s': State)
    requires Reachable(s) && p != q && jp.room != jq.room
    requires Conn(p) in s.tasks && s.tasks[Conn(p)] == JoinStore(jp)
    requires Conn(q) in s.tasks && s.tasks[Conn(q)] == JoinStore(jq)
    requires jp.room !in s.tables.rooms && jq.room !in s.tables.rooms
    ensures Reachable(s') && |s'.tables.rooms| == |s.tables.rooms| + 2
  {
    StoresNow(s, p, jp);
    var s1 := Stored(s, p, jp);
    JoinSize(s.tables, p, jp, s.clock);
    StoresNow(s1, q, jq);
    s' := Stored(s1, q, jq);
    JoinSize(s1.tables, q, jq, s.clock);
  }

  // ---- A room that outlives its time to live ----

  // q joins after the sweep has listed the members of the expired room
  lemma LateJoinKeepsRoom(p: PeerId, q: PeerId, n: Name) returns (s: State)
    requires !IsDummy(p) && !IsDummy(q) && p != q
    ensures Reachable(s) && Sweeper in s.tasks && s.tasks[Sweeper] == Idle
            && s.clock <= s.history.lastSweep + SWEEP_PERIOD
    ensures n in s.tables.rooms && s.tables.rooms[n].ttlSeconds > 0
    ensures s.clock > s.tables.rooms[n].createdAt + s.tables.rooms[n].ttlSeconds * SECOND + 30 * SECOND
  {
    var s1 := FirstJoins(p, JoinRequest(n, 900, Absent));
    var s2 := SecondWaits(s1, p, q, n);
    s := SweepMissesLate(s2, p, q, n);
  }

  // q is about to join the room in the store, and the room expires
  lemma SecondWaits(s: State, p: PeerId, q: PeerId, n: Name) returns (s': State)
    requires !IsDummy(q) && p != q && Reachable(s)
    requires s.tables == Tables({p}, map[p := {n}], map[n := Room({p}, 0, 900, 0, [])])
    requires s.tasks == map[Sweeper := Idle, Conn(p) := Reading] && s.clock == 0
    ensures Reachable(s') && s'.clock == 920 * SECOND && s'.tables.rooms == s.tables.rooms
    ensures s'.tasks == map[Sweeper := Idle, Conn(p) := Reading, Conn(q) := JoinStore(JoinRequest(n, 0, Absent))]
    ensures s'.history == s.history
  {
    var j := JoinRequest(n, 0, Absent);
    Connects(s, q);
    var s1 := SetPc(s.(tables := s.tables.(conns := s.tables.conns + {q})), Conn(q), Reading);
    ReachesStore(s1, q, j);
    var s2 := SetPc(Recorded(s1, q, n), Conn(q), JoinStore(j));
    Leads(s2, Wait(920 * SECOND), s2.(clock := 920 * SECOND));
    s' := s2.(clock := 920 * SECOND);
  }

  lemma SweepMissesLate(s: State, p: PeerId, q: PeerId, n: Name) returns (s': State)
    requires p != q && Reachable(s) && s.clock == 920 * SECOND && s.tables.rooms == map[n := Room({p}, 0, 900, 0, [])]
    requires s.tasks == map[Sweeper := Idle, Conn(p) := Reading, Conn(q) := JoinStore(JoinRequest(n, 0, Absent))]
    ensures Reachable(s') && Sweeper in s'.tasks && s'.tasks[Sweeper] == Idle
    ensures s'.history.lastSweep == 920 * SECOND && s'.clock == 945 * SECOND
    ensures n in s'.tables.rooms && s'.tables.rooms[n].ttlSeconds == 900 && s'.tables.rooms[n].createdAt == 0
  {
    ReachableNext(s, Tick([n]));
    var s1 := Next(s, Tick([n]));
    assert s1.tasks[Sweeper] == ClearList(n, []);
    ReachableNext(s1, Advance(Sweeper));
    var s2 := Next(s1, Advance(Sweeper));
    assert s2.tasks[Sweeper].ClearTake? && s2.tasks[Sweeper].todo == {p};
    StoresNow(s2, q, JoinRequest(n, 0, Absent));
    var s3 := Stored(s2, q, JoinRequest(n, 0, Absent));
    s' := SweepGoesOn(s3, p, q, n);
  }

  // p is taken out, and q keeps the room
  lemma SweepGoesOn(s: State, p: PeerId, q: PeerId, n: Name) returns (s': State)
    requires p != q && Reachable(s) && s.clock == 920 * SECOND && s.history.lastSweep == 920 * SECOND
    requires Sweeper in s.tasks && s.tasks[Sweeper].ClearTake? && s.tasks[Sweeper].todo == {p}
    requires s.tasks[Sweeper].room == n && s.tasks[Sweeper].rest == []
    requires n in s.tables.rooms && s.tables.rooms[n].peers == {p, q}
    requires s.tables.rooms[n].ttlSeconds == 900 && s.tables.rooms[n].createdAt == 0
    ensures Reachable(s') && Sweeper in s'.tasks && s'.tasks[Sweeper] == Idle
    ensures s'.history.lastSweep == 920 * SECOND && s'.clock == 945 * SECOND
    ensures n in s'.tables.rooms && s'.tables.rooms[n].ttlSeconds == 900 && s'.tables.rooms[n].createdAt == 0
  {
    ReachableNext(s, Take(Sweeper, p));
    var s1 := Next(s, Take(Sweeper, p));
    assert {p} - {p} == {};
    assert s1.tasks[Sweeper] == ClearLeave(n, p, {}, s.tasks[Sweeper].since, []) && s1.tables.rooms == s.tables.rooms;
    ReachableNext(s1, Advance(Sweeper));
    var s2 := Next(s1, Advance(Sweeper));
    assert {p, q} - {p} == {q};
    s' := SweepEnds(s2, q, n);
  }

  lemma SweepEnds(s: State, q: PeerId, n: Name) returns (s': State)
    requires Reachable(s) && s.clock == 920 * SECOND && s.history.lastSweep == 920 * SECOND
    requires Sweeper in s.tasks && s.tasks[Sweeper].ClearTake? && s.tasks[Sweeper].todo == {}
    requires s.tasks[Sweeper].room == n && s.tasks[Sweeper].rest == []
    requires n in s.tables.rooms && s.tables.rooms[n].peers == {q}
    requires s.tables.rooms[n].ttlSeconds == 900 && s.tables.rooms[n].createdAt == 0
    ensures Reachable(s') && Sweeper in s'.tasks && s'.tasks[Sweeper] == Idle
    ensures s'.history.lastSweep == 920 * SECOND && s'.clock == 945 * SECOND
    ensures n in s'.tables.rooms && s'.tables.rooms[n].ttlSeconds == 900 && s'.tables.rooms[n].createdAt == 0
  {
    ReachableInv(s);
    assert Stores(s.tables, n, q) && KindOk(Conn(q), s.tasks[Conn(q)], s.history.joins);
    assert {q} - {Dummy(Sweeper)} == {q};
    ReachableNext(s, Advance(Sweeper));
    var s1 := Next(s, Advance(Sweeper));
    ReachableNext(s1, Wait(945 * SECOND));
    s' := Next(s1, Wait(945 * SECOND));
  }
}
