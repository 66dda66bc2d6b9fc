/**
 The relay's room registry (services/relay/src/main.rs) as a state machine whose
 steps are the critical sections of the two levels of locks: the map of rooms and
 the lock of one room. A room is an identity, an index into `rooms`, because a task
 may keep a handle to a room that is no longer in the map.

 A task between two critical sections is described by a program counter. Taking the
 map lock for reading is a step by itself, since nothing else happens under it. A room's
 lock is held over several steps only by a fan-out, which holds it for reading while it
 offers its message to one member after the other: other fan-outs then run beside it, and
 whoever would write to the room waits. The
 map's write lock is held across a step only in `leave_room`: the emptiness test reads
 the room and releases the room before the name is removed, so the two are separate
 steps (`LeaveRecheck`, `LeaveUnmap`) with `writer` recording who holds the map.
 */
module RelayRegistry {
  import opened Options

  type Name = string
  type Conn = nat
  type RoomId = nat

  const MAX_ROOMS: nat := 10_000
  const MAX_PEERS_PER_ROOM: nat := 50

  datatype Room = Room(name: Name, members: set<Conn>)

  // What the task does once leave_room returns
  datatype After = Rejoin(target: Name) | Clear | End

  datatype Pc =
    | Reading                                        // awaiting a message
    | LeaveLookup(name: Name, after: After)          // map read: find the room
    | LeaveRemove(name: Name, room: RoomId, after: After) // room write: remove self
    | LeavePeek(name: Name, after: After)            // map read: is it still empty?
    | LeaveRecheck(name: Name, after: After)         // take the map for writing, look again
    | LeaveUnmap(name: Name, after: After)           // map still held: remove the name
    | JoinLookup(name: Name)                         // map write: find or create the room
    | JoinInsert(name: Name, room: RoomId)           // room write: insert self
    | FanLookup(name: Name)                          // map read: find the room
    | FanSend(room: RoomId)                          // room read: whom to send to
    | FanLoop(room: RoomId, left: set<Conn>, stale: set<Conn>) // room still held: try_send to the members left
    | FanEvict(room: RoomId, stale: set<Conn>)       // room write: remove stale members
    | Ended

  datatype Task = Task(current: Option<Name>, pc: Pc)

  datatype State = State(
    mapped: map<Name, RoomId>,
    rooms: seq<Room>,
    tasks: map<Conn, Task>,
    writer: Option<Conn>)

  const INIT := State(map[], [], map[], None)

  datatype Request = Join(name: Name) | Leave | Say | Hangup

  datatype Action =
    | Connect(c: Conn)
    | Receive(c: Conn, request: Request)
    | Offer(c: Conn, p: Conn, ok: bool)  // one try_send of a fan-out; it fails for a full or closed channel
    | Advance(c: Conn)                   // any other step of the task

  // The sections that need the map lock, for reading or for writing
  predicate UsesMap(pc: Pc) {
    pc.LeaveLookup? || pc.LeavePeek? || pc.LeaveRecheck? || pc.LeaveUnmap? || pc.JoinLookup? || pc.FanLookup?
  }

  predicate HandleInRange(s: State, pc: Pc) {
    match pc
    case LeaveRemove(_, r, _) => r < |s.rooms|
    case JoinInsert(_, r) => r < |s.rooms|
    case FanSend(r) => r < |s.rooms|
    case FanLoop(r, _, _) => r < |s.rooms|
    case FanEvict(r, _) => r < |s.rooms|
    case _ => true
  }

  predicate Reads(pc: Pc, r: RoomId) {
    pc.FanLoop? && pc.room == r
  }

  // No fan-out holds the room for reading
  predicate Unread(s: State, r: RoomId) {
    forall c | c in s.tasks :: !Reads(s.tasks[c].pc, r)
  }

  predicate MayWrite(s: State, pc: Pc) {
    pc.LeaveRemove? || pc.JoinInsert? || pc.FanEvict? ==> Unread(s, pc.room)
  }

  predicate Enabled(s: State, a: Action) {
    match a
    case Connect(c) => c !in s.tasks
    case Receive(c, _) => c in s.tasks && s.tasks[c].pc.Reading?
    case Offer(c, p, _) => c in s.tasks && s.tasks[c].pc.FanLoop? && p in s.tasks[c].pc.left
    case Advance(c) =>
      && c in s.tasks
      && var pc := s.tasks[c].pc;
      && !pc.Reading? && !pc.Ended? && (pc.FanLoop? ==> pc.left == {})
      && HandleInRange(s, pc) && MayWrite(s, pc)
      && (UsesMap(pc) ==> s.writer == None || s.writer == Some(c))
      && (forall n | n in s.mapped :: s.mapped[n] < |s.rooms|)
  }

  function SetTask(s: State, c: Conn, t: Task): State {
    s.(tasks := s.tasks[c := t])
  }

  function Goto(s: State, c: Conn, pc: Pc): State
    requires c in s.tasks
  {
    SetTask(s, c, s.tasks[c].(pc := pc))
  }

  function SetMembers(s: State, r: RoomId, members: set<Conn>): State
    requires r < |s.rooms|
  {
    s.(rooms := s.rooms[r := s.rooms[r].(members := members)])
  }

  // The task after leave_room has returned
  function Resumed(t: Task, after: After): Task {
    match after
    case Rejoin(target) => t.(pc := JoinLookup(target))
    case Clear => Task(None, Reading)
    case End => t.(pc := Ended)
  }

  function Resume(s: State, c: Conn, after: After): State
    requires c in s.tasks
  {
    SetTask(s, c, Resumed(s.tasks[c], after))
  }

  function Accept(t: Task, request: Request): Task {
    match request
    case Join(name) =>
      t.(pc := if t.current.Some? then LeaveLookup(t.current.value, Rejoin(name)) else JoinLookup(name))
    case Leave =>
      if t.current.Some? then t.(pc := LeaveLookup(t.current.value, Clear)) else t
    case Say =>
      if t.current.Some? then t.(pc := FanLookup(t.current.value)) else t
    case Hangup =>
      t.(pc := if t.current.Some? then LeaveLookup(t.current.value, End) else Ended)
  }

  predicate MappedEmpty(s: State, n: Name)
    requires forall m | m in s.mapped :: s.mapped[m] < |s.rooms|
  {
    n in s.mapped && s.rooms[s.mapped[n]].members == {}
  }

  // One critical section of leave_room
  function LeaveStep(s: State, c: Conn): State
    requires Enabled(s, Advance(c))
    requires var pc := s.tasks[c].pc;
             pc.LeaveLookup? || pc.LeaveRemove? || pc.LeavePeek? || pc.LeaveRecheck? || pc.LeaveUnmap?
  {
    match s.tasks[c].pc
    case LeaveLookup(n, after) =>
      if n in s.mapped then Goto(s, c, LeaveRemove(n, s.mapped[n], after)) else Resume(s, c, after)
    case LeaveRemove(n, r, after) =>
      var rest := s.rooms[r].members - {c};
      var s' := SetMembers(s, r, rest);
      if rest == {} then Goto(s', c, LeavePeek(n, after)) else Resume(s', c, after)
    case LeavePeek(n, after) =>
      if MappedEmpty(s, n) then Goto(s, c, LeaveRecheck(n, after)) else Resume(s, c, after)
    case LeaveRecheck(n, after) =>
      if MappedEmpty(s, n) then Goto(s, c, LeaveUnmap(n, after)).(writer := Some(c)) else Resume(s, c, after)
    case LeaveUnmap(n, after) =>
      Resume(s.(mapped := s.mapped - {n}), c, after).(writer := None)
  }

  function JoinStep(s: State, c: Conn): State
    requires Enabled(s, Advance(c))
    requires var pc := s.tasks[c].pc; pc.JoinLookup? || pc.JoinInsert?
  {
    match s.tasks[c].pc
    case JoinLookup(n) =>
      if n in s.mapped then Goto(s, c, JoinInsert(n, s.mapped[n]))
      else if |s.mapped| >= MAX_ROOMS then Goto(s, c, Reading)
      else
        var r := |s.rooms|;
        Goto(s.(mapped := s.mapped[n := r], rooms := s.rooms + [Room(n, {})]), c, JoinInsert(n, r))
    case JoinInsert(n, r) =>
      var members := s.rooms[r].members;
      if |members| >= MAX_PEERS_PER_ROOM && c !in members then Goto(s, c, Reading)
      else SetTask(SetMembers(s, r, members + {c}), c, Task(Some(n), Reading))
  }

  predicate Fanning(pc: Pc) {
    pc.FanLookup? || pc.FanSend? || pc.FanLoop? || pc.FanEvict?
  }

  // Where a fan-out stands after one try_send
  function Offered(pc: Pc, p: Conn, ok: bool): Pc
    requires pc.FanLoop?
  {
    FanLoop(pc.room, pc.left - {p}, if ok then pc.stale else pc.stale + {p})
  }

  function FanStep(s: State, c: Conn): State
    requires Enabled(s, Advance(c))
    requires Fanning(s.tasks[c].pc)
  {
    match s.tasks[c].pc
    case FanLookup(n) =>
      Goto(s, c, if n in s.mapped then FanSend(s.mapped[n]) else Reading)
    case FanSend(r) =>
      Goto(s, c, FanLoop(r, s.rooms[r].members - {c}, {}))
    case FanLoop(r, _, stale) =>
      Goto(s, c, if stale == {} then Reading else FanEvict(r, stale))
    case FanEvict(r, stale) =>
      Goto(SetMembers(s, r, s.rooms[r].members - stale), c, Reading)
  }

  function Next(s: State, a: Action): State
    requires Enabled(s, a)
  {
    match a
    case Connect(c) => SetTask(s, c, Task(None, Reading))
    case Receive(c, request) => SetTask(s, c, Accept(s.tasks[c], request))
    case Offer(c, p, ok) => Goto(s, c, Offered(s.tasks[c].pc, p, ok))
    case Advance(c) =>
      var pc := s.tasks[c].pc;
      if pc.JoinLookup? || pc.JoinInsert? then JoinStep(s, c)
      else if Fanning(pc) then FanStep(s, c)
      else LeaveStep(s, c)
  }

  // A schedule is any interleaving: the actions of all tasks in one order
  predicate Schedule(s: State, actions: seq<Action>)
    decreases |actions|
  {
    actions == [] || (Enabled(s, actions[0]) && Schedule(Next(s, actions[0]), actions[1..]))
  }

  function Run(s: State, actions: seq<Action>): State
    requires Schedule(s, actions)
    decreases |actions|
  {
    if actions == [] then s else Run(Next(s, actions[0]), actions[1..])
  }
}
