/**
 The gateway's membership tables (services/gateway/cmd/gateway/main.go) together with the
 store: open connections, the rooms of each peer, and the stored rooms. One step is one
 section under one lock, so the sections of a join, a leave, a disconnect, a room clean-up
 and an expiry sweep interleave in every order.

 Tasks are the reading goroutine of each connection, the handlers of clean-up requests, and
 the expiry loop. Clearing a room can take a peer out of `conns` while its goroutine still
 handles what the peer has sent.
 */
module Gateway {
  import opened Storage

  const MAX_ROOMS: nat := 10_000
  const MAX_ROOMS_PER_PEER: nat := 5
  const SWEEP_PERIOD: nat := 30 * SECOND

  // The salt of a join payload
  datatype SaltField = Absent | BadBase64 | Decoded(bytes: Bytes)

  datatype JoinRequest = JoinRequest(room: Name, ttl: int, salt: SaltField)

  datatype Pc =
    | Reading                                // a connection awaiting a message
    | JoinCount(join: JoinRequest)           // store read: is the room empty or absent?
    | JoinLimit(join: JoinRequest)           // store read: how many rooms are there?
    | JoinCheck(join: JoinRequest)           // tables read: how many rooms has the peer?
    | JoinRecord(join: JoinRequest)          // tables write: record the room, then look at the salt
    | JoinStore(join: JoinRequest)           // store write: join the room
    | LeaveStore(room: Name)                 // store write: leave the room
    | LeaveForget(room: Name)                // tables write: forget the room
    | Closing(left: set<Name>)               // store writes: leave the recorded rooms one by one
    | Closed
    | Idle                                   // a clearing task at rest
    | ClearList(room: Name, rest: seq<Name>) // store read: the members of the room
    | ClearTake(room: Name, todo: set<PeerId>, since: nat, rest: seq<Name>)
                                             // tables write: take a member out; with none left, a last store write
    | ClearLeave(room: Name, peer: PeerId, todo: set<PeerId>, since: nat, rest: seq<Name>)
                                             // store write: that member leaves

  datatype Tid = Conn(peer: PeerId) | Cleaner(n: nat) | Sweeper

  datatype Entry = Entry(room: Name, peer: PeerId)

  // The tables under the connection lock, and the store's rooms
  datatype Tables = Tables(conns: set<PeerId>, peerRooms: map<PeerId, set<Name>>, rooms: Rooms)

  // For the statements only: how many store joins there have been, the number of each entry's latest
  // one, that count when the sweep last listed a room's members, and the instant of the last sweep
  datatype History = History(joins: nat, stamps: map<Entry, nat>, listed: map<Name, nat>, lastSweep: nat)

  datatype State = State(tables: Tables, tasks: map<Tid, Pc>, clock: nat, history: History)

  const EMPTY := State(Tables({}, map[], map[]), map[Sweeper := Idle], 0, History(0, map[], map[], 0))

  datatype Request = Join(join: JoinRequest) | Leave(room: Name)

  datatype Action =
    | Wait(until: nat)
    | Connect(peer: PeerId)
    | Receive(peer: PeerId, request: Request)
    | Hangup(peer: PeerId)            // the deferred clean-up's section on the tables
    | Clean(n: nat, room: Name)       // a clean-up request arrives
    | Tick(expired: seq<Name>)        // the expiry loop lists the expired rooms
    | Take(tid: Tid, peer: PeerId)    // a clearing task takes one listed member out
    | Forsake(peer: PeerId, room: Name) // a closing connection leaves one of its rooms
    | Advance(tid: Tid)               // any other section

  // The peer under which an emptied room is left once more; no connection has such an id
  function Dummy(tid: Tid): PeerId {
    if tid.Sweeper? then "__ttl_cleanup__" else "__cleanup__"
  }

  predicate IsDummy(peer: PeerId) {
    peer == "__ttl_cleanup__" || peer == "__cleanup__"
  }

  function RoomsOf(t: Tables, peer: PeerId): set<Name> {
    if peer in t.peerRooms then t.peerRooms[peer] else {}
  }

  // The peer's own record has the room; the store has the peer in the room
  predicate Records(t: Tables, peer: PeerId, room: Name) {
    peer in t.peerRooms && room in t.peerRooms[peer]
  }

  predicate Stores(t: Tables, room: Name, peer: PeerId) {
    room in t.rooms && peer in t.rooms[room].peers
  }

  function Members(t: Tables, room: Name): set<PeerId> {
    if room in t.rooms then t.rooms[room].peers else {}
  }

  predicate SaltOk(salt: SaltField) {
    salt.Absent? || (salt.Decoded? && |salt.bytes| == 32)
  }

  function SaltBytes(salt: SaltField): Bytes {
    if salt.Decoded? then salt.bytes else []
  }

  // Fifteen minutes, one hour, four hours, one day
  predicate AllowedTtl(ttl: int) {
    ttl == 900 || ttl == 3600 || ttl == 14400 || ttl == 86400
  }

  function TtlFor(ttl: int): int {
    if ttl > 0 && AllowedTtl(ttl) then ttl else 0
  }

  predicate Clearing(pc: Pc) {
    pc.ClearList? || pc.ClearTake? || pc.ClearLeave?
  }

  predicate CanAdvance(tid: Tid, pc: Pc) {
    && (tid.Conn? <==> !Clearing(pc))
    && match pc
       case Reading => false
       case Closed => false
       case Idle => false
       case Closing(left) => left == {}
       case ClearTake(_, todo, _, _) => todo == {}
       case _ => true
  }

  ghost predicate Enabled(s: State, a: Action) {
    match a
    case Wait(until) => s.clock <= until
    case Connect(p) => Conn(p) !in s.tasks && !IsDummy(p)
    case Receive(p, _) => Conn(p) in s.tasks && s.tasks[Conn(p)].Reading?
    case Hangup(p) => Conn(p) in s.tasks && s.tasks[Conn(p)].Reading?
    case Clean(n, _) => Cleaner(n) !in s.tasks
    case Tick(expired) =>
      && Sweeper in s.tasks && s.tasks[Sweeper].Idle?
      && forall n :: n in expired <==> n in Expired(s.tables.rooms, s.clock)
    case Take(tid, p) => tid in s.tasks && s.tasks[tid].ClearTake? && p in s.tasks[tid].todo && !tid.Conn?
    case Forsake(p, n) => Conn(p) in s.tasks && s.tasks[Conn(p)].Closing? && n in s.tasks[Conn(p)].left
    case Advance(tid) => tid in s.tasks && CanAdvance(tid, s.tasks[tid])
  }

  // The task whose section it is
  function Mover(a: Action): Tid
    requires !a.Wait?
  {
    match a
    case Connect(p) => Conn(p)
    case Receive(p, _) => Conn(p)
    case Hangup(p) => Conn(p)
    case Clean(n, _) => Cleaner(n)
    case Tick(_) => Sweeper
    case Take(tid, _) => tid
    case Forsake(p, _) => Conn(p)
    case Advance(tid) => tid
  }

  // ---- Single writes ----

  function Record(t: Tables, peer: PeerId, room: Name): Tables {
    t.(peerRooms := t.peerRooms[peer := RoomsOf(t, peer) + {room}])
  }

  // A peer's set of rooms without one of them; an empty set is dropped
  function Forget(t: Tables, peer: PeerId, room: Name): Tables {
    t.(peerRooms := if peer !in t.peerRooms then t.peerRooms
                    else if t.peerRooms[peer] - {room} == {} then t.peerRooms - {peer}
                    else t.peerRooms[peer := t.peerRooms[peer] - {room}])
  }

  // A connected member loses the room, and the connection with its last room
  function TakeOut(t: Tables, peer: PeerId, room: Name): Tables {
    if peer in t.conns && peer in t.peerRooms then
      Forget(t, peer, room).(conns := if t.peerRooms[peer] - {room} == {} then t.conns - {peer} else t.conns)
    else t
  }

  function StoreJoin(t: Tables, peer: PeerId, j: JoinRequest, now: nat): Tables {
    t.(rooms := Storage.Joined(t.rooms, j.room, peer, TtlFor(j.ttl), SaltBytes(j.salt), now))
  }

  function StoreLeave(t: Tables, room: Name, peer: PeerId, now: nat): Tables {
    t.(rooms := Left(t.rooms, room, peer, now))
  }

  // ---- Sections ----

  // What a section of a connection, or of a clearing task, does to the tables
  function TablesOf(t: Tables, tid: Tid, pc: Pc, now: nat): Tables {
    match pc
    case JoinRecord(j) => if tid.Conn? then Record(t, tid.peer, j.room) else t
    case JoinStore(j) => if tid.Conn? then StoreJoin(t, tid.peer, j, now) else t
    case LeaveStore(n) => if tid.Conn? then StoreLeave(t, n, tid.peer, now) else t
    case LeaveForget(n) => if tid.Conn? then Forget(t, tid.peer, n) else t
    case ClearTake(n, _, _, _) => StoreLeave(t, n, Dummy(tid), now)
    case ClearLeave(n, p, _, _, _) => StoreLeave(t, n, p, now)
    case _ => t
  }

  function TablesAfter(s: State, a: Action): Tables
    requires Enabled(s, a)
  {
    match a
    case Connect(p) => s.tables.(conns := s.tables.conns + {p})
    case Hangup(p) => s.tables.(conns := s.tables.conns - {p}, peerRooms := s.tables.peerRooms - {p})
    case Take(tid, p) => TakeOut(s.tables, p, s.tasks[tid].room)
    case Forsake(p, n) => StoreLeave(s.tables, n, p, s.clock)
    case Advance(tid) => TablesOf(s.tables, tid, s.tasks[tid], s.clock)
    case _ => s.tables
  }

  function NextRoom(rest: seq<Name>): Pc {
    if rest == [] then Idle else ClearList(rest[0], rest[1..])
  }

  // Where a section leaves its task
  function PcOf(t: Tables, tid: Tid, pc: Pc, joins: nat): Pc {
    var rooms := if tid.Conn? then RoomsOf(t, tid.peer) else {};
    match pc
    case JoinCount(j) => if |Members(t, j.room)| == 0 then JoinLimit(j) else JoinCheck(j)
    case JoinLimit(j) => if |t.rooms| >= MAX_ROOMS then Reading else JoinCheck(j)
    case JoinCheck(j) => if j.room !in rooms && |rooms| >= MAX_ROOMS_PER_PEER then Reading else JoinRecord(j)
    case JoinRecord(j) => if SaltOk(j.salt) then JoinStore(j) else Reading
    case JoinStore(_) => Reading
    case LeaveStore(n) => LeaveForget(n)
    case LeaveForget(_) => Reading
    case Closing(_) => Closed
    case ClearList(n, rest) => ClearTake(n, Members(t, n), joins, rest)
    case ClearTake(_, _, _, rest) => NextRoom(rest)
    case ClearLeave(n, _, todo, since, rest) => ClearTake(n, todo, since, rest)
    case _ => pc
  }

  function PcAfter(s: State, a: Action): Pc
    requires Enabled(s, a) && !a.Wait?
  {
    match a
    case Connect(_) => Reading
    case Receive(_, Join(j)) => JoinCount(j)
    case Receive(_, Leave(n)) => LeaveStore(n)
    case Hangup(p) => Closing(RoomsOf(s.tables, p))
    case Clean(_, room) => ClearList(room, [])
    case Tick(expired) => NextRoom(expired)
    case Take(tid, p) => var pc := s.tasks[tid]; ClearLeave(pc.room, p, pc.todo - {p}, pc.since, pc.rest)
    case Forsake(p, n) => Closing(s.tasks[Conn(p)].left - {n})
    case Advance(tid) => PcOf(s.tables, tid, s.tasks[tid], s.history.joins)
  }

  function HistoryAfter(s: State, a: Action): History
    requires Enabled(s, a)
  {
    var h := s.history;
    match a
    case Tick(_) => h.(lastSweep := s.clock)
    case Advance(tid) =>
      var pc := s.tasks[tid];
      if pc.JoinStore? && tid.Conn? then
        h.(joins := h.joins + 1, stamps := h.stamps[Entry(pc.join.room, tid.peer) := h.joins + 1])
      else if pc.ClearList? && tid.Sweeper? then h.(listed := h.listed[pc.room := h.joins])
      else h
    case _ => h
  }

  function Next(s: State, a: Action): State
    requires Enabled(s, a)
  {
    State(TablesAfter(s, a),
          if a.Wait? then s.tasks else s.tasks[Mover(a) := PcAfter(s, a)],
          if a.Wait? then a.until else s.clock,
          HistoryAfter(s, a))
  }

  // Any interleaving of the tasks' sections
  ghost predicate Schedule(s: State, actions: seq<Action>)
    decreases |actions|
  {
    actions == [] || (Enabled(s, actions[0]) && Schedule(Next(s, actions[0]), actions[1..]))
  }

  ghost function Run(s: State, actions: seq<Action>): State
    requires Schedule(s, actions)
    decreases |actions|
  {
    if actions == [] then s else Run(Next(s, actions[0]), actions[1..])
  }
}
