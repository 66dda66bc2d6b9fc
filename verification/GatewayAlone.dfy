/**
 What one request does to the gateway's tables when nothing runs between its sections: who is admitted to which
 room, with which time to live and salt; who leaves; and what clearing a room takes away, and from whom.
 */
module GatewayAlone {
  import opened Storage
  import opened Gateway
  import opened GatewayInvariant

  // Sections of one task lead from one to the other
  ghost predicate Goes(s: State, s': State, tid: Tid) {
    exists actions :: Schedule(s, actions) && Run(s, actions) == s' && OnlyOf(actions, tid)
  }

  predicate OnlyOf(actions: seq<Action>, tid: Tid) {
    forall k | 0 <= k < |actions| :: !actions[k].Wait? && Mover(actions[k]) == tid
  }

  lemma GoesNowhere(s: State, tid: Tid)
    ensures Goes(s, s, tid)
  {
    assert Schedule(s, []) && Run(s, []) == s && OnlyOf([], tid);
  }

  lemma Moves(s: State, m: State, a: Action, tid: Tid, m': State)
    requires Goes(s, m, tid) && !a.Wait? && Mover(a) == tid && Enabled(m, a) && Next(m, a) == m'
    ensures Goes(s, m', tid)
  {
    var actions :| Schedule(s, actions) && Run(s, actions) == m && OnlyOf(actions, tid);
    RunExtends(s, actions, a);
    assert OnlyOf(actions + [a], tid);
  }

  function At(s: State, tid: Tid, pc: Pc): State {
    s.(tasks := s.tasks[tid := pc])
  }

  function WithTables(s: State, t: Tables): State {
    s.(tables := t)
  }

  // ---- A join ----

  // The room stands, or there are fewer than 10,000; the peer has it in its record, or fewer than five
  predicate HasPlace(t: Tables, p: PeerId, n: Name) {
    (n in t.rooms || |t.rooms| < 10_000) && (n in RoomsOf(t, p) || |RoomsOf(t, p)| < 5)
  }

  // No salt, or 32 bytes
  predicate GoodSalt(salt: SaltField) {
    salt == Absent || (salt.Decoded? && |salt.bytes| == 32)
  }

  // A new room takes one of four times to live, or none, and the salt; one that stands just takes the peer
  function RoomWith(t: Tables, p: PeerId, j: JoinRequest, now: nat): Room {
    if j.room in t.rooms then t.rooms[j.room].(peers := t.rooms[j.room].peers + {p}, lastActivity := now)
    else Room({p}, now, if j.ttl == 900 || j.ttl == 3600 || j.ttl == 14400 || j.ttl == 86400 then j.ttl else 0, now,
              if j.salt.Decoded? then j.salt.bytes else [])
  }

  function Admitted(t: Tables, p: PeerId, j: JoinRequest, now: nat): Tables {
    if !HasPlace(t, p, j.room) then t
    else
      t.(peerRooms := t.peerRooms[p := RoomsOf(t, p) + {j.room}],
         rooms := if GoodSalt(j.salt) then t.rooms[j.room := RoomWith(t, p, j, now)] else t.rooms)
  }

  lemma JoinAsks(s: State, p: PeerId, j: JoinRequest)
    requires RoomsSound(s.tables.rooms, s.clock)
    requires Conn(p) in s.tasks && s.tasks[Conn(p)] == JoinCount(j)
    ensures Enabled(s, Advance(Conn(p)))
    ensures Next(s, Advance(Conn(p))) == At(s, Conn(p), if j.room in s.tables.rooms then JoinCheck(j) else JoinLimit(j))
  {
  }

  lemma JoinLooks(s: State, p: PeerId, j: JoinRequest)
    requires Conn(p) in s.tasks && s.tasks[Conn(p)] == JoinLimit(j)
    ensures Enabled(s, Advance(Conn(p)))
    ensures Next(s, Advance(Conn(p))) == At(s, Conn(p), if |s.tables.rooms| < 10_000 then JoinCheck(j) else Reading)
  {
  }

  lemma JoinChecks(s: State, p: PeerId, j: JoinRequest)
    requires Conn(p) in s.tasks && s.tasks[Conn(p)] == JoinCheck(j)
    ensures Enabled(s, Advance(Conn(p)))
    ensures var mine := RoomsOf(s.tables, p);
            Next(s, Advance(Conn(p))) == At(s, Conn(p), if j.room in mine || |mine| < 5 then JoinRecord(j) else Reading)
  {
  }

  lemma JoinRecords(s: State, p: PeerId, j: JoinRequest)
    requires Conn(p) in s.tasks && s.tasks[Conn(p)] == JoinRecord(j)
    ensures Enabled(s, Advance(Conn(p)))
    ensures var t := s.tables.(peerRooms := s.tables.peerRooms[p := RoomsOf(s.tables, p) + {j.room}]);
            Next(s, Advance(Conn(p)))
            == At(WithTables(s, t), Conn(p), if GoodSalt(j.salt) then JoinStore(j) else Reading)
  {
  }

  lemma JoinStores(s: State, p: PeerId, j: JoinRequest)
    requires Conn(p) in s.tasks && s.tasks[Conn(p)] == JoinStore(j) && GoodSalt(j.salt)
    ensures Enabled(s, Advance(Conn(p)))
    ensures var s' := Next(s, Advance(Conn(p)));
            && s'.tables == s.tables.(rooms := s.tables.rooms[j.room := RoomWith(s.tables, p, j, s.clock)])
            && s'.tasks == s.tasks[Conn(p) := Reading] && s'.clock == s.clock
  {
    assert {} + {p} == {p};
  }

  lemma MovesTwice(s: State, tid: Tid, a: Pc, b: Pc)
    ensures At(At(s, tid, a), tid, b) == At(s, tid, b)
  {
    assert s.tasks[tid := a][tid := b] == s.tasks[tid := b];
  }

  // Up to the peer's own record
  lemma FindsPlace(s: State, p: PeerId, j: JoinRequest) returns (s': State)
    requires RoomsSound(s.tables.rooms, s.clock) && Conn(p) in s.tasks && s.tasks[Conn(p)].Reading?
    ensures Goes(s, s', Conn(p))
    ensures s' == At(s, Conn(p), if HasPlace(s.tables, p, j.room) then JoinRecord(j) else Reading)
  {
    var tid := Conn(p);
    GoesNowhere(s, tid);
    s' := At(s, tid, JoinCount(j));
    Moves(s, s, Receive(p, Join(j)), tid, s');
    JoinAsks(s', p, j);
    var pc := if j.room in s.tables.rooms then JoinCheck(j) else JoinLimit(j);
    MovesTwice(s, tid, JoinCount(j), pc);
    Moves(s, s', Advance(tid), tid, At(s, tid, pc));
    s' := FindsPlaceFrom(s, p, j, pc);
  }

  lemma FindsPlaceFrom(s: State, p: PeerId, j: JoinRequest, pc: Pc) returns (s': State)
    requires Goes(s, At(s, Conn(p), pc), Conn(p))
    requires pc == if j.room in s.tables.rooms then JoinCheck(j) else JoinLimit(j)
    ensures Goes(s, s', Conn(p))
    ensures s' == At(s, Conn(p), if HasPlace(s.tables, p, j.room) then JoinRecord(j) else Reading)
  {
    var tid := Conn(p);
    s' := At(s, tid, pc);
    if pc.JoinLimit? {
      JoinLooks(s', p, j);
      var next := if |s.tables.rooms| < 10_000 then JoinCheck(j) else Reading;
      MovesTwice(s, tid, pc, next);
      Moves(s, s', Advance(tid), tid, At(s, tid, next));
      s' := At(s, tid, next);
    }
    if s'.tasks[tid].JoinCheck? {
      JoinChecks(s', p, j);
      var mine := RoomsOf(s.tables, p);
      var next := if j.room in mine || |mine| < 5 then JoinRecord(j) else Reading;
      MovesTwice(s, tid, s'.tasks[tid], next);
      Moves(s, s', Advance(tid), tid, At(s, tid, next));
      s' := At(s, tid, next);
    }
  }

  /**
   A join that nothing interrupts. Without a place it changes nothing. With one the peer has the room in its record,
   and with a good salt, or none, the store has the peer in the room.
   */
  lemma JoinAlone(s: State, p: PeerId, j: JoinRequest) returns (s': State)
    requires Reachable(s) && Conn(p) in s.tasks && s.tasks[Conn(p)].Reading?
    ensures Goes(s, s', Conn(p)) && s'.tasks == s.tasks && s'.clock == s.clock
    ensures s'.tables == Admitted(s.tables, p, j, s.clock)
  {
    ReachableInv(s);
    var tid := Conn(p);
    s' := FindsPlace(s, p, j);
    BackToReading(s, tid);
    if HasPlace(s.tables, p, j.room) {
      s' := RecordsAndStores(s, p, j);
    }
  }

  lemma BackToReading(s: State, tid: Tid)
    requires tid in s.tasks && s.tasks[tid].Reading?
    ensures At(s, tid, Reading) == s
  {
    assert s.tasks[tid := Reading] == s.tasks;
  }

  lemma RecordsAndStores(s: State, p: PeerId, j: JoinRequest) returns (s': State)
    requires Goes(s, At(s, Conn(p), JoinRecord(j)), Conn(p)) && HasPlace(s.tables, p, j.room)
    requires Conn(p) in s.tasks && s.tasks[Conn(p)].Reading?
    ensures Goes(s, s', Conn(p)) && s'.tasks == s.tasks && s'.clock == s.clock
    ensures s'.tables == Admitted(s.tables, p, j, s.clock)
  {
    var tid := Conn(p);
    var t := s.tables.(peerRooms := s.tables.peerRooms[p := RoomsOf(s.tables, p) + {j.room}]);
    JoinRecords(At(s, tid, JoinRecord(j)), p, j);
    var m := WithTables(s, t);
    var pc := if GoodSalt(j.salt) then JoinStore(j) else Reading;
    MovesTwice(m, tid, JoinRecord(j), pc);
    s' := At(m, tid, pc);
    Moves(s, At(s, tid, JoinRecord(j)), Advance(tid), tid, s');
    BackToReading(m, tid);
    if GoodSalt(j.salt) {
      JoinStores(s', p, j);
      var last := Next(s', Advance(tid));
      Moves(s, s', Advance(tid), tid, last);
      MovesTwice(m, tid, pc, Reading);
      s' := last;
    }
  }

  // ---- A leave ----

  // The peer out of these rooms, and those with nobody else in them away
  function RoomsLeft(rooms: Rooms, names: set<Name>, p: PeerId, now: nat): Rooms {
    map n | n in rooms && !(n in names && rooms[n].peers - {p} == {}) ::
      if n in names then rooms[n].(peers := rooms[n].peers - {p}, lastActivity := now) else rooms[n]
  }

  lemma LeftIs(rooms: Rooms, n: Name, p: PeerId, now: nat)
    ensures Left(rooms, n, p, now) == RoomsLeft(rooms, {n}, p, now)
  {
  }

  lemma LeftTwice(rooms: Rooms, n: Name, names: set<Name>, p: PeerId, now: nat)
    requires n !in names
    ensures RoomsLeft(RoomsLeft(rooms, {n}, p, now), names, p, now) == RoomsLeft(rooms, {n} + names, p, now)
  {
  }

  // The record without the room; an empty record is dropped
  function RecordsWithout(records: map<PeerId, set<Name>>, p: PeerId, n: Name): map<PeerId, set<Name>> {
    map q | q in records && !(q == p && records[q] - {n} == {}) :: if q == p then records[q] - {n} else records[q]
  }

  lemma LeaveStores(s: State, p: PeerId, n: Name)
    requires Conn(p) in s.tasks && s.tasks[Conn(p)] == LeaveStore(n)
    ensures Enabled(s, Advance(Conn(p)))
    ensures var t := s.tables.(rooms := RoomsLeft(s.tables.rooms, {n}, p, s.clock));
            Next(s, Advance(Conn(p))) == At(WithTables(s, t), Conn(p), LeaveForget(n))
  {
    LeftIs(s.tables.rooms, n, p, s.clock);
  }

  lemma LeaveForgets(s: State, p: PeerId, n: Name)
    requires Conn(p) in s.tasks && s.tasks[Conn(p)] == LeaveForget(n)
    ensures Enabled(s, Advance(Conn(p)))
    ensures var t := s.tables.(peerRooms := RecordsWithout(s.tables.peerRooms, p, n));
            Next(s, Advance(Conn(p))) == At(WithTables(s, t), Conn(p), Reading)
  {
    ForgetIs(s.tables, p, n);
  }

  lemma ForgetIs(t: Tables, p: PeerId, n: Name)
    ensures Forget(t, p, n) == t.(peerRooms := RecordsWithout(t.peerRooms, p, n))
  {
    assert Forget(t, p, n).peerRooms == RecordsWithout(t.peerRooms, p, n);
  }

  // A leave takes the peer out of the room, an emptied room away, and the room out of the record
  lemma LeaveAlone(s: State, p: PeerId, n: Name) returns (s': State)
    requires Conn(p) in s.tasks && s.tasks[Conn(p)].Reading?
    ensures Goes(s, s', Conn(p))
    ensures s' == WithTables(s, s.tables.(rooms := RoomsLeft(s.tables.rooms, {n}, p, s.clock),
                                          peerRooms := RecordsWithout(s.tables.peerRooms, p, n)))
  {
    var tid := Conn(p);
    GoesNowhere(s, tid);
    var s1 := At(s, tid, LeaveStore(n));
    Moves(s, s, Receive(p, Leave(n)), tid, s1);
    LeaveStores(s1, p, n);
    var m := WithTables(s, s.tables.(rooms := RoomsLeft(s.tables.rooms, {n}, p, s.clock)));
    var s2 := At(m, tid, LeaveForget(n));
    MovesTwice(m, tid, LeaveStore(n), LeaveForget(n));
    Moves(s, s1, Advance(tid), tid, s2);
    LeaveForgets(s2, p, n);
    s' := WithTables(m, m.tables.(peerRooms := RecordsWithout(s.tables.peerRooms, p, n)));
    MovesTwice(s', tid, LeaveForget(n), Reading);
    BackToReading(s', tid);
    Moves(s, s2, Advance(tid), tid, s');
  }

  // ---- A disconnect ----

  lemma ForsakesOne(s: State, p: PeerId, left: set<Name>, n: Name)
    requires Conn(p) in s.tasks && s.tasks[Conn(p)] == Closing(left) && n in left
    ensures Enabled(s, Forsake(p, n))
    ensures var t := s.tables.(rooms := RoomsLeft(s.tables.rooms, {n}, p, s.clock));
            Next(s, Forsake(p, n)) == At(WithTables(s, t), Conn(p), Closing(left - {n}))
  {
    LeftIs(s.tables.rooms, n, p, s.clock);
  }

  // Out of these rooms, one after the other
  lemma {:induction false} Forsakes(s0: State, s: State, p: PeerId, left: set<Name>) returns (s': State)
    requires Goes(s0, s, Conn(p)) && Conn(p) in s.tasks && s.tasks[Conn(p)] == Closing(left)
    ensures Goes(s0, s', Conn(p))
    ensures var t := s.tables.(rooms := RoomsLeft(s.tables.rooms, left, p, s.clock));
            s' == At(WithTables(s, t), Conn(p), Closing({}))
    decreases left
  {
    var tid := Conn(p);
    if left == {} {
      s' := s;
      assert RoomsLeft(s.tables.rooms, {}, p, s.clock) == s.tables.rooms;
      assert s.tasks[tid := Closing({})] == s.tasks;
    } else {
      var n :| n in left;
      ForsakesOne(s, p, left, n);
      var m := WithTables(s, s.tables.(rooms := RoomsLeft(s.tables.rooms, {n}, p, s.clock)));
      Moves(s0, s, Forsake(p, n), tid, At(m, tid, Closing(left - {n})));
      s' := Forsakes(s0, At(m, tid, Closing(left - {n})), p, left - {n});
      LeftTwice(s.tables.rooms, n, left - {n}, p, s.clock);
      assert {n} + (left - {n}) == left;
      MovesTwice(s', tid, Closing(left - {n}), Closing({}));
      assert s.tasks[tid := Closing(left - {n})][tid := Closing({})] == s.tasks[tid := Closing({})];
    }
  }

  /**
   A disconnect takes away the connection and its record, and takes the peer out of every room of that record.
   */
  lemma DisconnectAlone(s: State, p: PeerId) returns (s': State)
    requires Conn(p) in s.tasks && s.tasks[Conn(p)].Reading?
    ensures Goes(s, s', Conn(p))
    ensures s' == At(WithTables(s, Tables(s.tables.conns - {p}, s.tables.peerRooms - {p},
                                          RoomsLeft(s.tables.rooms, RoomsOf(s.tables, p), p, s.clock))),
                     Conn(p), Closed)
  {
    var tid, left := Conn(p), RoomsOf(s.tables, p);
    GoesNowhere(s, tid);
    var m := WithTables(s, s.tables.(conns := s.tables.conns - {p}, peerRooms := s.tables.peerRooms - {p}));
    Moves(s, s, Hangup(p), tid, At(m, tid, Closing(left)));
    var s2 := Forsakes(s, At(m, tid, Closing(left)), p, left);
    s' := At(s2, tid, Closed);
    Moves(s, s2, Advance(tid), tid, s');
    assert s.tasks[tid := Closing(left)][tid := Closing({})][tid := Closed] == s.tasks[tid := Closed];
  }

  // ---- Clearing a room ----

  // The connected peer is in this room only
  predicate Last(t: Tables, p: PeerId, n: Name) {
    p in t.conns && p in t.peerRooms && t.peerRooms[p] - {n} == {}
  }

  // These members out of the room: out of the store, and, of those connected, the room out of their records, and
  // the connections away that have no other room
  function PeersGone(t: Tables, todo: set<PeerId>, n: Name, now: nat): Tables {
    Tables(t.conns - (set p | p in todo && Last(t, p, n)),
           map p | p in t.peerRooms && !(p in todo && Last(t, p, n)) ::
             if p in todo && p in t.conns then t.peerRooms[p] - {n} else t.peerRooms[p],
           RoomEmptied(t.rooms, todo, n, now))
  }

  function RoomEmptied(rooms: Rooms, todo: set<PeerId>, n: Name, now: nat): Rooms {
    if todo == {} || n !in rooms then rooms
    else if rooms[n].peers - todo == {} then rooms - {n}
    else rooms[n := rooms[n].(peers := rooms[n].peers - todo, lastActivity := now)]
  }

  lemma OneGone(t: Tables, p: PeerId, n: Name, now: nat)
    ensures StoreLeave(TakeOut(t, p, n), n, p, now) == PeersGone(t, {p}, n, now)
  {
    var t', g := StoreLeave(TakeOut(t, p, n), n, p, now), PeersGone(t, {p}, n, now);
    assert t'.conns == g.conns;
    assert t'.peerRooms == g.peerRooms;
    assert t'.rooms == g.rooms;
  }

  lemma GoneTwice(t: Tables, p: PeerId, rest: set<PeerId>, n: Name, now: nat)
    requires p !in rest && (n in t.rooms ==> {p} + rest <= t.rooms[n].peers)
    ensures PeersGone(PeersGone(t, {p}, n, now), rest, n, now) == PeersGone(t, {p} + rest, n, now)
  {
    var m, g := PeersGone(t, {p}, n, now), PeersGone(t, {p} + rest, n, now);
    var t' := PeersGone(m, rest, n, now);
    assert forall q | q in rest :: Last(m, q, n) <==> Last(t, q, n);
    assert t'.conns == g.conns;
    assert t'.peerRooms == g.peerRooms;
    EmptiedTwice(t.rooms, p, rest, n, now);
  }

  lemma EmptiedTwice(rooms: Rooms, p: PeerId, rest: set<PeerId>, n: Name, now: nat)
    requires p !in rest && (n in rooms ==> {p} + rest <= rooms[n].peers)
    ensures RoomEmptied(RoomEmptied(rooms, {p}, n, now), rest, n, now) == RoomEmptied(rooms, {p} + rest, n, now)
  {
    if n in rooms {
      assert rooms[n].peers - {p} - rest == rooms[n].peers - ({p} + rest);
      assert rest <= rooms[n].peers - {p};
      if rest == {} { assert {p} + rest == {p}; }
    }
  }

  lemma TakesOne(s: State, tid: Tid, n: Name, todo: set<PeerId>, since: nat, rest: seq<Name>, p: PeerId)
    requires !tid.Conn? && tid in s.tasks && s.tasks[tid] == ClearTake(n, todo, since, rest) && p in todo
    ensures Enabled(s, Take(tid, p))
    ensures var s1 := At(WithTables(s, TakeOut(s.tables, p, n)), tid, ClearLeave(n, p, todo - {p}, since, rest));
            && Next(s, Take(tid, p)) == s1 && Enabled(s1, Advance(tid))
            && Next(s1, Advance(tid))
               == At(WithTables(s, PeersGone(s.tables, {p}, n, s.clock)), tid, ClearTake(n, todo - {p}, since, rest))
  {
    OneGone(s.tables, p, n, s.clock);
    var s1 := At(WithTables(s, TakeOut(s.tables, p, n)), tid, ClearLeave(n, p, todo - {p}, since, rest));
    MovesTwice(s, tid, ClearLeave(n, p, todo - {p}, since, rest), ClearTake(n, todo - {p}, since, rest));
  }

  lemma {:induction false} TakesAll(s0: State, s: State, tid: Tid, n: Name, todo: set<PeerId>, since: nat,
                                    rest: seq<Name>)
    returns (s': State)
    requires Goes(s0, s, tid) && !tid.Conn? && tid in s.tasks && s.tasks[tid] == ClearTake(n, todo, since, rest)
    requires n in s.tables.rooms ==> todo <= s.tables.rooms[n].peers
    ensures Goes(s0, s', tid)
    ensures s' == At(WithTables(s, PeersGone(s.tables, todo, n, s.clock)), tid, ClearTake(n, {}, since, rest))
    decreases todo
  {
    if todo == {} {
      s' := s;
      NobodyGone(s.tables, n, s.clock);
      assert s.tasks[tid := ClearTake(n, {}, since, rest)] == s.tasks;
    } else {
      var p :| p in todo;
      var m := TakesAndLeaves(s0, s, tid, n, todo, since, rest, p);
      s' := TakesAll(s0, m, tid, n, todo - {p}, since, rest);
      GoneTwice(s.tables, p, todo - {p}, n, s.clock);
      assert {p} + (todo - {p}) == todo;
      MovesTwice(s, tid, ClearTake(n, todo - {p}, since, rest), ClearTake(n, {}, since, rest));
    }
  }

  lemma TakesAndLeaves(s0: State, s: State, tid: Tid, n: Name, todo: set<PeerId>, since: nat, rest: seq<Name>,
                       p: PeerId)
    returns (s': State)
    requires Goes(s0, s, tid) && !tid.Conn? && tid in s.tasks && s.tasks[tid] == ClearTake(n, todo, since, rest)
    requires p in todo
    ensures Goes(s0, s', tid)
    ensures s' == At(WithTables(s, PeersGone(s.tables, {p}, n, s.clock)), tid, ClearTake(n, todo - {p}, since, rest))
  {
    TakesOne(s, tid, n, todo, since, rest, p);
    var s1 := At(WithTables(s, TakeOut(s.tables, p, n)), tid, ClearLeave(n, p, todo - {p}, since, rest));
    Moves(s0, s, Take(tid, p), tid, s1);
    s' := At(WithTables(s, PeersGone(s.tables, {p}, n, s.clock)), tid, ClearTake(n, todo - {p}, since, rest));
    Moves(s0, s1, Advance(tid), tid, s');
  }

  lemma NobodyGone(t: Tables, n: Name, now: nat)
    ensures PeersGone(t, {}, n, now) == t
  {
    assert t.conns - {} == t.conns;
    assert PeersGone(t, {}, n, now).peerRooms == t.peerRooms;
  }

  // The whole room away
  function RoomGone(t: Tables, n: Name): Tables {
    PeersGone(t, Members(t, n), n, 0)
  }

  lemma RoomIsGone(t: Tables, n: Name, now: nat, dummy: PeerId)
    requires n in t.rooms ==> t.rooms[n].peers != {}
    ensures StoreLeave(PeersGone(t, Members(t, n), n, now), n, dummy, now) == RoomGone(t, n)
    ensures RoomGone(t, n).rooms == t.rooms - {n}
  {
    if n in t.rooms { assert t.rooms[n].peers - t.rooms[n].peers == {}; } else { assert t.rooms - {n} == t.rooms; }
  }

  lemma Clears(s0: State, s: State, tid: Tid, n: Name, rest: seq<Name>) returns (s': State)
    requires Goes(s0, s, tid) && !tid.Conn? && tid in s.tasks && s.tasks[tid] == ClearList(n, rest)
    requires n in s.tables.rooms ==> s.tables.rooms[n].peers != {}
    ensures Goes(s0, s', tid)
    ensures s' == At(WithTables(s, RoomGone(s.tables, n)), tid, NextRoom(rest)).(history := s'.history)
  {
    var todo, since := Members(s.tables, n), s.history.joins;
    var s1 := Lists(s, tid, n, rest);
    Moves(s0, s, Advance(tid), tid, s1);
    var s2 := TakesAll(s0, s1, tid, n, todo, since, rest);
    RoomIsGone(s.tables, n, s.clock, Dummy(tid));
    LeftIs(s2.tables.rooms, n, Dummy(tid), s.clock);
    s' := LeavesLast(s0, s2, tid, n, since, rest);
    MovesTwice(s, tid, ClearTake(n, todo, since, rest), ClearTake(n, {}, since, rest));
    MovesTwice(s, tid, ClearTake(n, {}, since, rest), NextRoom(rest));
  }

  lemma Lists(s: State, tid: Tid, n: Name, rest: seq<Name>) returns (s': State)
    requires !tid.Conn? && tid in s.tasks && s.tasks[tid] == ClearList(n, rest)
    ensures Enabled(s, Advance(tid)) && s' == Next(s, Advance(tid))
    ensures s' == At(s, tid, ClearTake(n, Members(s.tables, n), s.history.joins, rest)).(history := s'.history)
  {
    s' := Next(s, Advance(tid));
  }

  // A last leave under an id that no connection has: of a room that others have joined since, nobody goes
  lemma LeavesLast(s0: State, s: State, tid: Tid, n: Name, since: nat, rest: seq<Name>) returns (s': State)
    requires Goes(s0, s, tid) && !tid.Conn? && tid in s.tasks && s.tasks[tid] == ClearTake(n, {}, since, rest)
    ensures Goes(s0, s', tid)
    ensures var dummy := if tid == Sweeper then "__ttl_cleanup__" else "__cleanup__";
            var t := s.tables.(rooms := RoomsLeft(s.tables.rooms, {n}, dummy, s.clock));
            s' == At(WithTables(s, t), tid, NextRoom(rest))
  {
    LeftIs(s.tables.rooms, n, Dummy(tid), s.clock);
    s' := At(WithTables(s, StoreLeave(s.tables, n, Dummy(tid), s.clock)), tid, NextRoom(rest));
    Moves(s0, s, Advance(tid), tid, s');
  }

  /**
   A clean-up request takes the whole room away: its members that are connected lose the room from their records,
   and their connections if they have no other; nobody else loses anything.
   */
  lemma CleanAlone(s: State, k: nat, n: Name) returns (s': State)
    requires Reachable(s) && Cleaner(k) !in s.tasks
    ensures Goes(s, s', Cleaner(k)) && s'.tables == RoomGone(s.tables, n)
    ensures s'.tasks == s.tasks[Cleaner(k) := Idle] && s'.tables.rooms == s.tables.rooms - {n}
  {
    ReachableInv(s);
    var tid := Cleaner(k);
    GoesNowhere(s, tid);
    Moves(s, s, Clean(k, n), tid, At(s, tid, ClearList(n, [])));
    s' := Clears(s, At(s, tid, ClearList(n, [])), tid, n, []);
    assert s.tasks[tid := ClearList(n, [])][tid := Idle] == s.tasks[tid := Idle];
    RoomIsGone(s.tables, n, 0, Dummy(tid));
  }

  // ---- A sweep ----

  function RoomsGone(t: Tables, names: seq<Name>): Tables
    decreases |names|
  {
    if names == [] then t else RoomsGone(RoomGone(t, names[0]), names[1..])
  }

  lemma {:induction false} RoomsGoneRooms(t: Tables, names: seq<Name>)
    requires forall n | n in t.rooms :: t.rooms[n].peers != {}
    ensures RoomsGone(t, names).rooms == t.rooms - (set n | n in names)
    decreases |names|
  {
    if names == [] {
      assert t.rooms - (set n | n in names) == t.rooms;
    } else {
      RoomIsGone(t, names[0], 0, "");
      RoomsGoneRooms(RoomGone(t, names[0]), names[1..]);
      assert (set n | n in names) == {names[0]} + (set n | n in names[1..]);
    }
  }

  lemma {:induction false} SweepsOn(s0: State, s: State, names: seq<Name>) returns (s': State)
    requires Goes(s0, s, Sweeper) && Sweeper in s.tasks && s.tasks[Sweeper] == NextRoom(names)
    requires forall n | n in s.tables.rooms :: s.tables.rooms[n].peers != {}
    ensures Goes(s0, s', Sweeper) && s'.tables == RoomsGone(s.tables, names) && s'.tasks == s.tasks[Sweeper := Idle]
    decreases |names|
  {
    if names == [] {
      s' := s;
      assert s.tasks[Sweeper := Idle] == s.tasks;
    } else {
      var m := Clears(s0, s, Sweeper, names[0], names[1..]);
      RoomIsGone(s.tables, names[0], 0, "");
      s' := SweepsOn(s0, m, names[1..]);
      assert s.tasks[Sweeper := NextRoom(names[1..])][Sweeper := Idle] == s.tasks[Sweeper := Idle];
    }
  }

  /**
   A sweep that nothing interrupts takes away exactly the rooms whose time to live is over.
   */
  lemma SweepAlone(s: State, expired: seq<Name>) returns (s': State)
    requires Reachable(s) && Enabled(s, Tick(expired))
    ensures Goes(s, s', Sweeper) && s'.tables == RoomsGone(s.tables, expired) && s'.tasks == s.tasks
    ensures forall n :: n in s'.tables.rooms <==>
              n in s.tables.rooms
              && !(s.tables.rooms[n].ttlSeconds > 0
                   && s.clock > s.tables.rooms[n].createdAt + s.tables.rooms[n].ttlSeconds * 1_000_000_000)
    ensures forall n | n in s'.tables.rooms :: s'.tables.rooms[n] == s.tables.rooms[n]
  {
    ReachableInv(s);
    s' := Sweeps(s, expired);
    RoomsGoneRooms(s.tables, expired);
  }

  lemma Sweeps(s: State, expired: seq<Name>) returns (s': State)
    requires Enabled(s, Tick(expired)) && forall n | n in s.tables.rooms :: s.tables.rooms[n].peers != {}
    ensures Goes(s, s', Sweeper) && s'.tables == RoomsGone(s.tables, expired) && s'.tasks == s.tasks
  {
    GoesNowhere(s, Sweeper);
    var s1 := Next(s, Tick(expired));
    assert s1.tables == s.tables && s1.tasks == s.tasks[Sweeper := NextRoom(expired)];
    Moves(s, s, Tick(expired), Sweeper, s1);
    s' := SweepsOn(s, s1, expired);
    assert s.tasks[Sweeper := NextRoom(expired)][Sweeper := Idle] == s.tasks;
  }
}
