/**
 Message fan-out in the relay (services/relay/src/main.rs): each peer's bounded channel beside the
 registry of rooms. A fan-out offers its message to one member after the other while others do the same in the
 same room, and evicts slow consumers afterwards. What a member receives, exactly what it can miss, and in
 which order.
 */
module RelayFanOut {
  import opened Options
  import opened RelayRegistry
  import opened RelayInvariant

  const PEER_CHANNEL_CAP: nat := 256

  // A channel carries fan-outs, by their number in the log, and other notices
  datatype Item = Fan(index: nat) | Notice

  datatype Channel = Channel(
    queue: seq<Item>,      // the bounded channel
    closed: bool,          // the receiving half is gone
    got: seq<nat>,         // every fan-out that try_send accepted, in order
    written: seq<nat>)     // the fan-outs that the write task has taken from the channel

  const FRESH := Channel([], false, [], [])

  datatype Sent = Sent(room: RoomId, sender: Conn)

  datatype Entry = Entry(room: RoomId, peer: Conn)

  // For the statements: the log of all fan-outs in the order in which they begin, its length when one had been
  // offered to everybody, its length when a peer was last inserted into a room, and the number of a task's
  // latest fan-out
  datatype Hub = Hub(
    registry: State,
    channels: map<Conn, Channel>,
    log: seq<Sent>,
    ends: map<nat, nat>,
    since: map<Entry, nat>,
    sending: map<Conn, nat>)

  const QUIET := Hub(INIT, map[], [], map[], map[], map[])

  datatype Event =
    | Section(action: Action) // a step of some task
    | Notified(c: Conn)       // presence or an error, dropped when the channel is full
    | Written(c: Conn)        // the write task takes one item
    | SinkFails(c: Conn)      // the write task stops and drops the receiving half

  predicate CanTake(channels: map<Conn, Channel>, p: Conn) {
    p in channels && !channels[p].closed && |channels[p].queue| < PEER_CHANNEL_CAP
  }

  function Take(ch: Channel, item: Item): Channel {
    ch.(queue := ch.queue + [item], got := if item.Fan? then ch.got + [item.index] else ch.got)
  }

  predicate Possible(h: Hub, e: Event) {
    match e
    case Section(a) =>
      && RelayRegistry.Enabled(h.registry, a)
      && (a.Offer? ==> (a.ok <==> CanTake(h.channels, a.p)))
      && (a.Offer? || EndsLoop(h.registry, a) ==> a.c in h.sending)
    case Notified(c) => c in h.channels
    case Written(c) => c in h.channels
    case SinkFails(c) => c in h.channels
  }

  // The section in which a peer puts itself into a room that it is not in
  predicate Inserts(s: State, a: Action)
    requires RelayRegistry.Enabled(s, a)
  {
    a.Advance? && s.tasks[a.c].pc.JoinInsert? &&
    var members := s.rooms[s.tasks[a.c].pc.room].members;
    |members| < MAX_PEERS_PER_ROOM && a.c !in members
  }

  // A fan-out finds out whom to send to; it has offered its message to all of them
  predicate Begins(s: State, a: Action)
    requires RelayRegistry.Enabled(s, a)
  {
    a.Advance? && s.tasks[a.c].pc.FanSend?
  }

  predicate EndsLoop(s: State, a: Action)
    requires RelayRegistry.Enabled(s, a)
  {
    a.Advance? && s.tasks[a.c].pc.FanLoop?
  }

  // The write task takes one item, if it still runs and there is one
  function Drained(ch: Channel): Channel {
    if ch.closed || ch.queue == [] then ch
    else
      ch.(queue := ch.queue[1..], written := if ch.queue[0].Fan? then ch.written + [ch.queue[0].index] else ch.written)
  }

  function ChannelsAfter(h: Hub, e: Event): map<Conn, Channel>
    requires Possible(h, e)
  {
    match e
    case Section(Offer(c, p, ok)) =>
      if ok then h.channels[p := Take(h.channels[p], Fan(h.sending[c]))] else h.channels
    case Section(Connect(c)) => h.channels[c := FRESH]
    case Section(_) => h.channels
    case Notified(c) => if CanTake(h.channels, c) then h.channels[c := Take(h.channels[c], Notice)] else h.channels
    case Written(c) => h.channels[c := Drained(h.channels[c])]
    case SinkFails(c) => h.channels[c := h.channels[c].(closed := true)]
  }

  function SinceAfter(h: Hub, e: Event): map<Entry, nat>
    requires Possible(h, e)
  {
    if e.Section? && Inserts(h.registry, e.action)
    then h.since[Entry(h.registry.tasks[e.action.c].pc.room, e.action.c) := |h.log|] else h.since
  }

  function LogAfter(h: Hub, e: Event): seq<Sent>
    requires Possible(h, e)
  {
    if e.Section? && Begins(h.registry, e.action)
    then h.log + [Sent(h.registry.tasks[e.action.c].pc.room, e.action.c)] else h.log
  }

  function EndsAfter(h: Hub, e: Event): map<nat, nat>
    requires Possible(h, e)
  {
    if e.Section? && EndsLoop(h.registry, e.action) then h.ends[h.sending[e.action.c] := |h.log|] else h.ends
  }

  function SendingAfter(h: Hub, e: Event): map<Conn, nat>
    requires Possible(h, e)
  {
    if e.Section? && Begins(h.registry, e.action) then h.sending[e.action.c := |h.log|] else h.sending
  }

  function Step(h: Hub, e: Event): Hub
    requires Possible(h, e)
  {
    Hub(if e.Section? then RelayRegistry.Next(h.registry, e.action) else h.registry,
        ChannelsAfter(h, e), LogAfter(h, e), EndsAfter(h, e), SinceAfter(h, e), SendingAfter(h, e))
  }

  predicate Feasible(h: Hub, events: seq<Event>)
    decreases |events|
  {
    events == [] || (Possible(h, events[0]) && Feasible(Step(h, events[0]), events[1..]))
  }

  function Played(h: Hub, events: seq<Event>): Hub
    requires Feasible(h, events)
    decreases |events|
  {
    if events == [] then h else Played(Step(h, events[0]), events[1..])
  }

  // ---- What every interleaving keeps ----

  ghost predicate ChannelsMatch(s: State, channels: map<Conn, Channel>) {
    && channels.Keys == s.tasks.Keys
    && forall r, p | 0 <= r < |s.rooms| && p in s.rooms[r].members :: p in s.tasks
  }

  // A fan-out works on the room that its task's current_room named
  predicate FanTaskOk(s: State, t: Task) {
    match t.pc
    case FanLookup(n) => t.current == Some(n)
    case FanSend(r) => r < |s.rooms| && t.current == Some(s.rooms[r].name)
    case FanLoop(r, left, stale) =>
      && r < |s.rooms| && t.current == Some(s.rooms[r].name)
      && left !! stale && left + stale <= s.rooms[r].members
    case FanEvict(r, _) => r < |s.rooms| && t.current == Some(s.rooms[r].name)
    case _ => true
  }

  // And its task knows its number, under which it is in the log
  predicate SendingOk(c: Conn, t: Task, log: seq<Sent>, sending: map<Conn, nat>) {
    && (t.pc.FanEvict? || t.pc.FanLoop? ==> c in sending && sending[c] < |log| && log[sending[c]] == Sent(t.pc.room, c))
    && (t.pc.FanLoop? ==> c !in t.pc.left)
  }

  ghost predicate FanTasksOk(h: Hub) {
    forall c | c in h.registry.tasks ::
      FanTaskOk(h.registry, h.registry.tasks[c]) && SendingOk(c, h.registry.tasks[c], h.log, h.sending)
  }

  // The task has yet to offer its message to p, or has failed to and will take p out of the room
  predicate Owes(pc: Pc, r: RoomId, p: Conn) {
    StillOffers(pc, r, p) || WillEvict(pc, r, p)
  }

  predicate StillOffers(pc: Pc, r: RoomId, p: Conn) {
    pc.FanLoop? && pc.room == r && p in pc.left
  }

  predicate WillEvict(pc: Pc, r: RoomId, p: Conn) {
    (pc.FanLoop? || pc.FanEvict?) && pc.room == r && p in pc.stale
  }

  predicate OwesIt(h: Hub, c: Conn, r: RoomId, p: Conn, k: nat) {
    c in h.registry.tasks && Owes(h.registry.tasks[c].pc, r, p) && c in h.sending && h.sending[c] == k
  }

  // Fan-out k has not been offered to p yet, or could not be sent and p is about to be evicted
  ghost predicate Outstanding(h: Hub, r: RoomId, p: Conn, k: nat) {
    exists c :: OwesIt(h, c, r, p, k)
  }

  ghost predicate Due(h: Hub, r: RoomId, p: Conn, k: nat) {
    Entry(r, p) in h.since && h.since[Entry(r, p)] <= k < |h.log| && h.log[k].room == r && h.log[k].sender != p
  }

  // Since its insertion a member has received every fan-out of another to the room, unless it is outstanding
  ghost predicate NothingElseMissed(h: Hub) {
    forall r, p | 0 <= r < |h.registry.rooms| && p in h.registry.rooms[r].members ::
      && Entry(r, p) in h.since && p in h.channels
      && forall k | Due(h, r, p, k) :: k in h.channels[p].got <==> !Outstanding(h, r, p, k)
  }

  ghost predicate GotBelow(h: Hub) {
    forall p, i | p in h.channels && 0 <= i < |h.channels[p].got| :: h.channels[p].got[i] < |h.log|
  }

  // ---- The registry's part ----

  lemma RoomsKeepNames(s: State, a: Action)
    requires RelayRegistry.Enabled(s, a)
    ensures var s' := RelayRegistry.Next(s, a);
            |s.rooms| <= |s'.rooms| && forall r | 0 <= r < |s.rooms| :: s'.rooms[r].name == s.rooms[r].name
  {
  }

  predicate Leaving(pc: Pc) {
    pc.LeaveLookup? || pc.LeaveRemove? || pc.LeavePeek? || pc.LeaveRecheck? || pc.LeaveUnmap?
  }

  lemma LeaverMoves(s: State, c: Conn)
    requires RelayRegistry.Enabled(s, Advance(c)) && Leaving(s.tasks[c].pc)
    ensures var s' := LeaveStep(s, c); c in s'.tasks && s'.tasks == s.tasks[c := s'.tasks[c]]
  {
  }

  lemma JoinerMoves(s: State, c: Conn)
    requires RelayRegistry.Enabled(s, Advance(c)) && (s.tasks[c].pc.JoinLookup? || s.tasks[c].pc.JoinInsert?)
    ensures var s' := JoinStep(s, c); c in s'.tasks && s'.tasks == s.tasks[c := s'.tasks[c]]
  {
  }

  lemma OneTaskMoves(s: State, a: Action)
    requires RelayRegistry.Enabled(s, a)
    ensures var s' := RelayRegistry.Next(s, a); a.c in s'.tasks && s'.tasks == s.tasks[a.c := s'.tasks[a.c]]
  {
    if a.Advance? {
      var pc := s.tasks[a.c].pc;
      if pc.JoinLookup? || pc.JoinInsert? { JoinerMoves(s, a.c); }
      else if !Fanning(pc) { LeaverMoves(s, a.c); }
    }
  }

  lemma MembersCome(s: State, a: Action)
    requires RelayRegistry.Enabled(s, a)
    ensures var s' := RelayRegistry.Next(s, a);
            (forall r, p | 0 <= r < |s'.rooms| && p in s'.rooms[r].members ::
                  (r < |s.rooms| && p in s.rooms[r].members)
                  || (Inserts(s, a) && p == a.c && r == s.tasks[a.c].pc.room))
  {
  }

  // Nobody comes into or goes out of a room that a fan-out reads
  lemma ReadRoomsStay(s: State, a: Action, c: Conn)
    requires RelayRegistry.Enabled(s, a) && c in s.tasks && s.tasks[c].pc.FanLoop? && s.tasks[c].pc.room < |s.rooms|
    ensures var r, s' := s.tasks[c].pc.room, RelayRegistry.Next(s, a);
            r < |s'.rooms| && s'.rooms[r] == s.rooms[r]
  {
    assert Reads(s.tasks[c].pc, s.tasks[c].pc.room);
  }

  // Where a task stands in a fan-out after its own step
  predicate FanMove(s: State, a: Action, t': Task)
    requires RelayRegistry.Enabled(s, a)
  {
    match t'.pc
    case FanLookup(n) => t'.current == Some(n)
    case FanSend(r) =>
      && a.Advance? && s.tasks[a.c].pc.FanLookup? && t'.current == s.tasks[a.c].current
      && s.tasks[a.c].pc.name in s.mapped && s.mapped[s.tasks[a.c].pc.name] == r
    case FanLoop(_, _, _) =>
      if a.Offer? then t' == s.tasks[a.c].(pc := Offered(s.tasks[a.c].pc, a.p, a.ok))
      else
        Begins(s, a)
        && var r := s.tasks[a.c].pc.room;
           t' == s.tasks[a.c].(pc := FanLoop(r, s.rooms[r].members - {a.c}, {}))
    case FanEvict(r, stale) =>
      EndsLoop(s, a) && t' == s.tasks[a.c].(pc := FanEvict(s.tasks[a.c].pc.room, s.tasks[a.c].pc.stale))
    case _ => true
  }

  lemma LeaverFanMoves(s: State, a: Action)
    requires RelayRegistry.Enabled(s, a) && a.Advance? && Leaving(s.tasks[a.c].pc)
    ensures a.c in LeaveStep(s, a.c).tasks && FanMove(s, a, LeaveStep(s, a.c).tasks[a.c])
  {
  }

  lemma FanMoves(s: State, a: Action)
    requires RelayRegistry.Enabled(s, a)
    ensures a.c in RelayRegistry.Next(s, a).tasks && FanMove(s, a, RelayRegistry.Next(s, a).tasks[a.c])
  {
    if a.Advance? && Leaving(s.tasks[a.c].pc) { LeaverFanMoves(s, a); }
  }

  // A step of the reading half of a fan-out changes no room
  lemma FanReads(s: State, a: Action)
    requires RelayRegistry.Enabled(s, a) && (a.Offer? || Begins(s, a) || EndsLoop(s, a))
    ensures RelayRegistry.Next(s, a).rooms == s.rooms && RelayRegistry.Next(s, a).mapped == s.mapped
  {
  }

  lemma MoverIsOk(s: State, a: Action)
    requires RelayRegistry.Enabled(s, a) && MapInRange(s) && (a.c in s.tasks ==> FanTaskOk(s, s.tasks[a.c]))
    ensures a.c in RelayRegistry.Next(s, a).tasks
            && FanTaskOk(RelayRegistry.Next(s, a), RelayRegistry.Next(s, a).tasks[a.c])
  {
    RoomsKeepNames(s, a);
    FanMoves(s, a);
    if a.Offer? || Begins(s, a) || EndsLoop(s, a) { FanReads(s, a); }
  }

  lemma FanTaskStays(s: State, a: Action, c: Conn)
    requires RelayRegistry.Enabled(s, a) && c in s.tasks && c != a.c && FanTaskOk(s, s.tasks[c])
    ensures FanTaskOk(RelayRegistry.Next(s, a), s.tasks[c])
  {
    RoomsKeepNames(s, a);
    if s.tasks[c].pc.FanLoop? { ReadRoomsStay(s, a, c); }
  }

  lemma StepKeepsFanTasks(h: Hub, e: Event)
    requires MapInRange(h.registry) && FanTasksOk(h) && Possible(h, e)
    ensures FanTasksOk(Step(h, e))
  {
    if e.Section? {
      var a, h' := e.action, Step(h, e);
      OneTaskMoves(h.registry, a);
      forall c | c in h'.registry.tasks
        ensures FanTaskOk(h'.registry, h'.registry.tasks[c]) && SendingOk(c, h'.registry.tasks[c], h'.log, h'.sending)
      {
        if c == a.c {
          MoverIsOk(h.registry, a);
          MoverSends(h, a);
        } else {
          FanTaskStays(h.registry, a, c);
          assert SendingOk(c, h.registry.tasks[c], h.log, h.sending);
        }
      }
    }
  }

  lemma MoverSends(h: Hub, a: Action)
    requires FanTasksOk(h) && Possible(h, Section(a))
    ensures var h' := Step(h, Section(a));
            a.c in h'.registry.tasks && SendingOk(a.c, h'.registry.tasks[a.c], h'.log, h'.sending)
  {
    FanMoves(h.registry, a);
    if a.c in h.registry.tasks { assert SendingOk(a.c, h.registry.tasks[a.c], h.log, h.sending); }
  }

  lemma StepKeepsChannels(h: Hub, e: Event)
    requires ChannelsMatch(h.registry, h.channels) && Possible(h, e)
    ensures ChannelsMatch(Step(h, e).registry, Step(h, e).channels)
  {
    if e.Section? {
      OneTaskMoves(h.registry, e.action);
      MembersCome(h.registry, e.action);
    }
  }

  // ---- Nothing else is missed ----

  // The one try_send of a step that succeeds
  predicate Sends(e: Event, p: Conn) {
    e.Section? && e.action.Offer? && e.action.ok && e.action.p == p
  }

  // What a step adds to what a peer has got
  lemma GotGrows(h: Hub, e: Event, p: Conn)
    requires Possible(h, e) && p in h.channels && (e.Section? && e.action.Connect? ==> e.action.c != p)
    ensures p in Step(h, e).channels
    ensures Step(h, e).channels[p].got == h.channels[p].got + if Sends(e, p) then [h.sending[e.action.c]] else []
  {
  }

  lemma ReaderOwes(s: State, a: Action, r: RoomId, p: Conn)
    requires RelayRegistry.Enabled(s, a) && (a.Offer? || EndsLoop(s, a)) && FanTaskOk(s, s.tasks[a.c])
    ensures a.c in RelayRegistry.Next(s, a).tasks
    ensures Owes(RelayRegistry.Next(s, a).tasks[a.c].pc, r, p) <==>
            Owes(s.tasks[a.c].pc, r, p) && !(a.Offer? && a.ok && a.p == p)
  {
  }

  lemma BeginnerOwes(s: State, a: Action, r: RoomId, p: Conn)
    requires RelayRegistry.Enabled(s, a) && Begins(s, a)
    requires r < |s.rooms| && p in s.rooms[r].members
    ensures a.c in RelayRegistry.Next(s, a).tasks
    ensures Owes(RelayRegistry.Next(s, a).tasks[a.c].pc, r, p) <==> r == s.tasks[a.c].pc.room && p != a.c
  {
  }

  // A section outside the reading half of a fan-out: an evictor's members are gone, and the others owed nothing
  lemma OtherOwes(s: State, a: Action, r: RoomId, p: Conn)
    requires RelayRegistry.Enabled(s, a) && !(a.Offer? || Begins(s, a) || EndsLoop(s, a))
    requires r < |RelayRegistry.Next(s, a).rooms| && p in RelayRegistry.Next(s, a).rooms[r].members
    ensures a.c in RelayRegistry.Next(s, a).tasks
    ensures !Owes(RelayRegistry.Next(s, a).tasks[a.c].pc, r, p) && !(a.c in s.tasks && Owes(s.tasks[a.c].pc, r, p))
  {
    FanMoves(s, a);
  }

  // A task owes what it begins to offer, until it has sent it
  lemma MoverOwes(s: State, a: Action, r: RoomId, p: Conn)
    requires RelayRegistry.Enabled(s, a) && (a.c in s.tasks ==> FanTaskOk(s, s.tasks[a.c]))
    requires r < |RelayRegistry.Next(s, a).rooms| && p in RelayRegistry.Next(s, a).rooms[r].members
    ensures a.c in RelayRegistry.Next(s, a).tasks
    ensures Owes(RelayRegistry.Next(s, a).tasks[a.c].pc, r, p) <==>
            || (a.c in s.tasks && Owes(s.tasks[a.c].pc, r, p) && !(a.Offer? && a.ok && a.p == p))
            || (Begins(s, a) && r == s.tasks[a.c].pc.room && p != a.c)
  {
    if a.Offer? || EndsLoop(s, a) {
      ReaderOwes(s, a, r, p);
    } else if Begins(s, a) {
      FanReads(s, a);
      BeginnerOwes(s, a, r, p);
    } else {
      OtherOwes(s, a, r, p);
    }
  }

  // A number in the log belongs to the task that is in the log with it
  lemma OneOwner(h: Hub, c: Conn, r: RoomId, p: Conn, k: nat)
    requires FanTasksOk(h) && OwesIt(h, c, r, p, k)
    ensures k < |h.log| && h.log[k] == Sent(r, c)
  {
    assert SendingOk(c, h.registry.tasks[c], h.log, h.sending);
  }

  lemma StillOutstanding(h: Hub, e: Event, r: RoomId, p: Conn, k: nat, c: Conn)
    requires FanTasksOk(h) && Possible(h, e) && OwesIt(h, c, r, p, k) && !(Sends(e, p) && h.sending[e.action.c] == k)
    requires r < |Step(h, e).registry.rooms| && p in Step(h, e).registry.rooms[r].members
    ensures OwesIt(Step(h, e), c, r, p, k)
  {
    if e.Section? {
      OneTaskMoves(h.registry, e.action);
      if c == e.action.c { MoverOwes(h.registry, e.action, r, p); }
    }
  }

  lemma WasOutstanding(h: Hub, e: Event, r: RoomId, p: Conn, k: nat, c: Conn)
    requires FanTasksOk(h) && Possible(h, e) && k < |h.log| && OwesIt(Step(h, e), c, r, p, k)
    requires r < |Step(h, e).registry.rooms| && p in Step(h, e).registry.rooms[r].members
    ensures OwesIt(h, c, r, p, k) && !(Sends(e, p) && h.sending[e.action.c] == k)
  {
    if e.Section? {
      var a := e.action;
      OneTaskMoves(h.registry, a);
      if c == a.c {
        MoverOwes(h.registry, a, r, p);
      } else {
        OneOwner(h, c, r, p, k);
        if Sends(e, p) { assert SendingOk(a.c, h.registry.tasks[a.c], h.log, h.sending); }
      }
    }
  }

  // What is outstanding stays so over every step that leaves the peer a member, until it is sent
  lemma OutstandingStays(h: Hub, e: Event, r: RoomId, p: Conn, k: nat)
    requires FanTasksOk(h) && Possible(h, e) && k < |h.log|
    requires r < |Step(h, e).registry.rooms| && p in Step(h, e).registry.rooms[r].members
    ensures Outstanding(Step(h, e), r, p, k) <==>
              Outstanding(h, r, p, k) && !(Sends(e, p) && h.sending[e.action.c] == k)
  {
    if c :| OwesIt(h, c, r, p, k) && !(Sends(e, p) && h.sending[e.action.c] == k) {
      StillOutstanding(h, e, r, p, k, c);
    }
    if c :| OwesIt(Step(h, e), c, r, p, k) { WasOutstanding(h, e, r, p, k, c); }
  }

  // What is sent was outstanding
  lemma SentWasOutstanding(h: Hub, e: Event, p: Conn)
    requires FanTasksOk(h) && Possible(h, e) && Sends(e, p)
    ensures var c := e.action.c; OwesIt(h, c, h.registry.tasks[c].pc.room, p, h.sending[c])
  {
  }

  lemma WasMember(h: Hub, e: Event, r: RoomId, p: Conn, k: nat)
    requires ChannelsMatch(h.registry, h.channels) && Possible(h, e) && Due(Step(h, e), r, p, k) && k < |h.log|
    requires r < |Step(h, e).registry.rooms| && p in Step(h, e).registry.rooms[r].members
    ensures r < |h.registry.rooms| && p in h.registry.rooms[r].members && Due(h, r, p, k)
    ensures p in h.channels && (e.Section? && e.action.Connect? ==> e.action.c != p)
  {
    if e.Section? { MembersCome(h.registry, e.action); }
  }

  // A fan-out that is in the log stays received or outstanding
  lemma OldStaysDue(h: Hub, e: Event, r: RoomId, p: Conn, k: nat)
    requires ChannelsMatch(h.registry, h.channels) && FanTasksOk(h) && NothingElseMissed(h) && Possible(h, e)
    requires r < |Step(h, e).registry.rooms| && p in Step(h, e).registry.rooms[r].members
    requires Due(Step(h, e), r, p, k) && k < |h.log|
    ensures p in Step(h, e).channels && (k in Step(h, e).channels[p].got <==> !Outstanding(Step(h, e), r, p, k))
  {
    WasMember(h, e, r, p, k);
    GotGrows(h, e, p);
    OutstandingStays(h, e, r, p, k);
  }

  // One that begins is outstanding for everybody it is due to
  lemma NewIsOutstanding(h: Hub, a: Action, r: RoomId, p: Conn)
    requires ChannelsMatch(h.registry, h.channels) && FanTasksOk(h) && GotBelow(h) && Possible(h, Section(a))
             && Begins(h.registry, a)
    requires r < |Step(h, Section(a)).registry.rooms| && p in Step(h, Section(a)).registry.rooms[r].members
    requires Due(Step(h, Section(a)), r, p, |h.log|)
    ensures var h' := Step(h, Section(a));
            Outstanding(h', r, p, |h.log|) && p in h'.channels && |h.log| !in h'.channels[p].got
  {
    FanReads(h.registry, a);
    GotGrows(h, Section(a), p);
    MoverOwes(h.registry, a, r, p);
    assert OwesIt(Step(h, Section(a)), a.c, r, p, |h.log|);
  }

  ghost predicate Sound(h: Hub) {
    ChannelsMatch(h.registry, h.channels) && FanTasksOk(h) && GotBelow(h) && NothingElseMissed(h)
  }

  lemma StepKeepsBelow(h: Hub, e: Event)
    requires FanTasksOk(h) && GotBelow(h) && Possible(h, e)
    ensures GotBelow(Step(h, e))
  {
    var h' := Step(h, e);
    forall p, i | p in h'.channels && 0 <= i < |h'.channels[p].got| ensures h'.channels[p].got[i] < |h'.log| {
      if p in h.channels && (e.Section? && e.action.Connect? ==> e.action.c != p) { GotGrows(h, e, p); }
      if Sends(e, p) { assert SendingOk(e.action.c, h.registry.tasks[e.action.c], h.log, h.sending); }
    }
  }

  lemma StepKeepsMembers(h: Hub, e: Event, r: RoomId, p: Conn)
    requires Sound(h) && Possible(h, e)
    requires r < |Step(h, e).registry.rooms| && p in Step(h, e).registry.rooms[r].members
    ensures Entry(r, p) in Step(h, e).since && p in Step(h, e).channels
  {
    if e.Section? {
      MembersCome(h.registry, e.action);
      OneTaskMoves(h.registry, e.action);
    }
  }

  lemma StepMissesNothing(h: Hub, e: Event, r: RoomId, p: Conn, k: nat)
    requires Sound(h) && Possible(h, e)
    requires r < |Step(h, e).registry.rooms| && p in Step(h, e).registry.rooms[r].members && Due(Step(h, e), r, p, k)
    ensures p in Step(h, e).channels && (k in Step(h, e).channels[p].got <==> !Outstanding(Step(h, e), r, p, k))
  {
    if k < |h.log| {
      OldStaysDue(h, e, r, p, k);
    } else {
      NewIsOutstanding(h, e.action, r, p);
    }
  }

  lemma StepKeepsSound(h: Hub, e: Event)
    requires MapInRange(h.registry) && Sound(h) && Possible(h, e)
    ensures Sound(Step(h, e))
  {
    var h' := Step(h, e);
    StepKeepsChannels(h, e);
    StepKeepsFanTasks(h, e);
    StepKeepsBelow(h, e);
    forall r, p | 0 <= r < |h'.registry.rooms| && p in h'.registry.rooms[r].members
      ensures Entry(r, p) in h'.since && p in h'.channels
      ensures forall k | Due(h', r, p, k) :: k in h'.channels[p].got <==> !Outstanding(h', r, p, k)
    {
      StepKeepsMembers(h, e, r, p);
      forall k | Due(h', r, p, k) ensures k in h'.channels[p].got <==> !Outstanding(h', r, p, k) {
        StepMissesNothing(h, e, r, p, k);
      }
    }
  }

  lemma {:induction false} RunKeepsSound(h: Hub, events: seq<Event>)
    requires Inv(h.registry) && Sound(h) && Feasible(h, events)
    ensures Inv(Played(h, events).registry) && Sound(Played(h, events))
    decreases |events|
  {
    if events != [] {
      StepKeepsSound(h, events[0]);
      if events[0].Section? { NextKeepsInv(h.registry, events[0].action); }
      RunKeepsSound(Step(h, events[0]), events[1..]);
    }
  }
}
