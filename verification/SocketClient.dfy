/**
 The browser's connection to the gateway (apps/trapchat/src/socket/client.js): sends, the queue
 kept while disconnected, and reconnecting. Sockets and timers are numbered in order of creation,
 since an old socket's handlers still run after a new one has replaced it. Chat and media messages
 are numbered in order of `send`, and `fates` says what has become of each.
 */
module SocketClient {
  import opened Options

  const MAX_RECONNECT_ATTEMPTS: nat := 20
  const MAX_ROOMS: nat := 5
  const MAX_PENDING: nat := 200

  datatype Ready = Connecting | Open | Closed

  // `settled` belongs to the promise of `connect`; `over` says that the close handler has run,
  // `auto` that the reconnect timer made the socket
  datatype Socket = Socket(ready: Ready, settled: bool, over: bool, auto: bool)

  datatype Kind = Join | Leave | Chat | Media | Other

  datatype Room = Room(name: string, payload: string)

  // What is handed to a socket; chat and media messages by their number
  datatype Out = JoinOut(room: Room) | LeaveOut(name: string) | Note(k: nat) | OtherOut

  datatype Fate = Wired | Overflowed | Waiting | Cleared | Dropped

  datatype State = State(sockets: seq<Socket>, current: Option<nat>, rooms: seq<Room>, pending: seq<nat>,
                         reconnecting: bool, attempts: nat, timers: set<nat>, timer: Option<nat>, made: nat,
                         wire: seq<Out>, fates: seq<Fate>)

  const START := State([], None, [], [], false, 0, {}, None, 0, [], [])

  datatype Event =
    | Connect
    | Opens(i: nat)
    | Errors(i: nat)
    | Drops(i: nat)        // the socket is closed; its handler runs later
    | CloseRuns(i: nat)
    | TimerRuns(t: nat)
    | Disconnect
    | Send(kind: Kind, room: Room)

  predicate Enabled(s: State, ev: Event) {
    match ev
    case Opens(i) => i < |s.sockets| && s.sockets[i].ready.Connecting?
    case Errors(i) => i < |s.sockets| && !s.sockets[i].over
    case Drops(i) => i < |s.sockets|
    case CloseRuns(i) => i < |s.sockets| && s.sockets[i].ready.Closed? && !s.sockets[i].over
    case TimerRuns(t) => t in s.timers
    case _ => true
  }

  predicate IsOpen(s: State) {
    s.current.Some? && s.current.value < |s.sockets| && s.sockets[s.current.value].ready.Open?
  }

  predicate Has(rooms: seq<Room>, name: string) {
    exists k | 0 <= k < |rooms| :: rooms[k].name == name
  }

  // Map.set keeps the place of a key it already has
  function Put(rooms: seq<Room>, room: Room): seq<Room> {
    if rooms == [] then [room]
    else if rooms[0].name == room.name then [room] + rooms[1..]
    else [rooms[0]] + Put(rooms[1..], room)
  }

  function Delete(rooms: seq<Room>, name: string): seq<Room> {
    if rooms == [] then []
    else if rooms[0].name == name then rooms[1..]
    else [rooms[0]] + Delete(rooms[1..], name)
  }

  predicate TooMany(s: State, kind: Kind, room: Room) {
    kind.Join? && !Has(s.rooms, room.name) && |s.rooms| >= MAX_ROOMS
  }

  function Rooms(s: State, kind: Kind, room: Room): seq<Room> {
    if kind.Join? then Put(s.rooms, room) else if kind.Leave? then Delete(s.rooms, room.name) else s.rooms
  }

  function Written(s: State, kind: Kind, room: Room): Out {
    match kind
    case Join => JoinOut(room)
    case Leave => LeaveOut(room.name)
    case Other => OtherOut
    case _ => Note(|s.fates|)
  }

  function AfterSend(s: State, kind: Kind, room: Room): State {
    if TooMany(s, kind, room) then s
    else
      var rooms := Rooms(s, kind, room);
      var note := kind.Chat? || kind.Media?;
      if IsOpen(s) then
        s.(rooms := rooms, wire := s.wire + [Written(s, kind, room)], fates := s.fates + if note then [Wired] else [])
      else if note && |s.pending| < MAX_PENDING then
        s.(rooms := rooms, pending := s.pending + [|s.fates|], fates := s.fates + [Waiting])
      else
        s.(rooms := rooms, fates := s.fates + if note then [Overflowed] else [])
  }

  function Rejoined(s: State, rooms: seq<Room>): State
    decreases |rooms|
  {
    if rooms == [] then s else Rejoined(AfterSend(s, Join, rooms[0]), rooms[1..])
  }

  function Mark(fates: seq<Fate>, k: nat, fate: Fate): seq<Fate> {
    if k < |fates| then fates[k := fate] else fates
  }

  // The first queued message leaves the queue; only an open socket gets it
  function Flush1(s: State): State
    requires s.pending != []
  {
    var k := s.pending[0];
    if IsOpen(s) then s.(pending := s.pending[1..], wire := s.wire + [Note(k)], fates := Mark(s.fates, k, Wired))
    else s.(pending := s.pending[1..], fates := Mark(s.fates, k, Dropped))
  }

  function Flushed(s: State): State
    decreases |s.pending|
  {
    if s.pending == [] then s else Flushed(Flush1(s))
  }

  function Opened(s: State, i: nat): State
    requires i < |s.sockets|
  {
    s.(sockets := s.sockets[i := s.sockets[i].(ready := Open, settled := true)], attempts := 0)
  }

  function MaybeRejoined(s: State): State {
    if s.reconnecting && s.rooms != [] then Rejoined(s, s.rooms).(reconnecting := false) else s
  }

  function AfterOpen(s: State, i: nat): State
    requires i < |s.sockets|
  {
    Flushed(MaybeRejoined(Opened(s, i)))
  }

  function Reconnect(s: State): State {
    if s.rooms == [] then s
    else if s.attempts >= MAX_RECONNECT_ATTEMPTS then s.(reconnecting := false)
    else s.(reconnecting := true, attempts := s.attempts + 1,
            timers := s.timers + {s.made}, timer := Some(s.made), made := s.made + 1)
  }

  function AfterClose(s: State, i: nat): State
    requires i < |s.sockets|
  {
    var s1 := s.(sockets := s.sockets[i := s.sockets[i].(over := true)]);
    if s.sockets[i].settled then Reconnect(s1) else s1
  }

  function Created(s: State, auto: bool): State {
    s.(sockets := s.sockets + [Socket(Connecting, false, false, auto)], current := Some(|s.sockets|))
  }

  function Clear(fates: seq<Fate>): (r: seq<Fate>)
    ensures |r| == |fates|
  {
    seq(|fates|, k requires 0 <= k < |fates| => if fates[k].Waiting? then Cleared else fates[k])
  }

  // Only the latest timer is remembered, so only that one is cancelled
  function AfterDisconnect(s: State): State {
    var sockets := if s.current.Some? && s.current.value < |s.sockets|
                   then s.sockets[s.current.value := s.sockets[s.current.value].(ready := Closed)] else s.sockets;
    s.(reconnecting := false, attempts := 0, rooms := [], pending := [], current := None, sockets := sockets,
       timers := if s.timer.Some? then s.timers - {s.timer.value} else s.timers, timer := None, fates := Clear(s.fates))
  }

  function Next(s: State, ev: Event): State {
    if !Enabled(s, ev) then s
    else
      match ev
      case Connect => Created(s, false)
      case Opens(i) => AfterOpen(s, i)
      case Errors(i) => s.(sockets := s.sockets[i := s.sockets[i].(settled := true)])
      case Drops(i) => s.(sockets := s.sockets[i := s.sockets[i].(ready := Closed)])
      case CloseRuns(i) => AfterClose(s, i)
      case TimerRuns(t) => Created(s.(timers := s.timers - {t}), true)
      case Disconnect => AfterDisconnect(s)
      case Send(kind, room) => AfterSend(s, kind, room)
  }

  function Run(s: State, events: seq<Event>): State
    decreases |events|
  {
    if events == [] then s else Run(Next(s, events[0]), events[1..])
  }
}
