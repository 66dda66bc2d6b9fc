/**
 What the client does about a lost connection: it is repaired by the reconnect timer, rooms first and then the first 200
 messages sent meanwhile; how often in a row it tries; and everything that ever went out.
 */
module SocketOutage {
  import opened Arith
  import opened Options
  import opened SocketClient
  import opened SocketTheorems
  import opened SocketReconnect
  import opened SocketRooms

  // ---- Attempts ----

  // The event resets the count: a socket opens, or the client disconnects
  predicate Resets(s: State, ev: Event) {
    ev.Disconnect? || (ev.Opens? && ev.i < |s.sockets| && s.sockets[ev.i].ready.Connecting?)
  }

  // A close that makes the client schedule a reconnect, if it has tried fewer than 20 times
  predicate Retries(s: State, ev: Event) {
    && ev.CloseRuns? && ev.i < |s.sockets| && s.sockets[ev.i].ready.Closed? && !s.sockets[ev.i].over
    && s.sockets[ev.i].settled && s.rooms != []
  }

  // The attempts since the last reset
  function Tries(events: seq<Event>): nat
    decreases |events|
  {
    if events == [] then 0
    else
      var before, ev := events[..|events| - 1], events[|events| - 1];
      if Resets(Run(START, before), ev) then 0
      else if Retries(Run(START, before), ev) && Tries(before) < 20 then Tries(before) + 1
      else Tries(before)
  }

  // The last retry since the last disconnect was scheduled, and no open event has rejoined since
  function Rejoining(events: seq<Event>): bool
    decreases |events|
  {
    if events == [] then false
    else
      var before, ev := events[..|events| - 1], events[|events| - 1];
      var s := Run(START, before);
      if Retries(s, ev) then Tries(before) < 20
      else if ev.Disconnect? || (Resets(s, ev) && s.rooms != []) then false
      else Rejoining(before)
  }

  lemma StepTries(s: State, ev: Event)
    requires Inv(s)
    ensures var s' := Next(s, ev);
            && s'.attempts == (if Resets(s, ev) then 0
                               else if Retries(s, ev) && s.attempts < 20 then s.attempts + 1 else s.attempts)
            && s'.reconnecting == (if Retries(s, ev) then s.attempts < 20
                                   else if ev.Disconnect? || (Resets(s, ev) && s.rooms != []) then false
                                   else s.reconnecting)
            && (Retries(s, ev) && s.attempts < 20 ==>
                  s'.timer == Some(s.made) && s.made in s'.timers && s'.made == s.made + 1)
            && (!(Retries(s, ev) && s.attempts < 20) ==> s'.timers <= s.timers && s'.made == s.made)
  {
    if ev.Opens? && Enabled(s, ev) {
      RejoinKeepsTraced(Opened(s, ev.i));
      FlushSendsAll(MaybeRejoined(Opened(s, ev.i)));
    }
  }

  // Over any run the client has a new timer exactly with each retry, at most 20 in a row
  lemma {:induction false} TriesFollow(events: seq<Event>)
    ensures Run(START, events).attempts == Tries(events) <= 20
    ensures Run(START, events).reconnecting == Rejoining(events)
    decreases |events|
  {
    if events != [] {
      var before, ev := events[..|events| - 1], events[|events| - 1];
      assert events == before + [ev];
      TriesFollow(before);
      RunKeepsInv(START, before);
      SocketRooms.RunAppends(START, before, ev);
      StepTries(Run(START, before), ev);
    }
  }

  // ---- Everything handed to sockets ----

  // What an event hands to sockets
  function Hands(s: State, ev: Event): seq<Out> {
    match ev
    case Send(kind, room) =>
      if !IsOpen(s) || (kind.Join? && !Has(s.rooms, room.name) && |s.rooms| >= 5) then []
      else [match kind
            case Join => JoinOut(room)
            case Leave => LeaveOut(room.name)
            case Chat => Note(|s.fates|)
            case Media => Note(|s.fates|)
            case Other => OtherOut]
    case Opens(i) =>
      if i < |s.sockets| && s.sockets[i].ready.Connecting? && (s.current == Some(i) || IsOpen(s))
      then (if s.reconnecting then Joins(s.rooms) else []) + AsNotes(s.pending) else []
    case _ => []
  }

  function AllHanded(s: State, events: seq<Event>): seq<Out>
    decreases |events|
  {
    if events == [] then [] else Hands(s, events[0]) + AllHanded(Next(s, events[0]), events[1..])
  }

  lemma SendHands(s: State, kind: Kind, room: Room)
    ensures Next(s, Send(kind, room)).wire == s.wire + Hands(s, Send(kind, room))
  {
    assert s.wire + [] == s.wire;
  }

  lemma OpenHands(s: State, i: nat)
    requires Inv(s) && Enabled(s, Opens(i))
    ensures Next(s, Opens(i)).wire == s.wire + Hands(s, Opens(i))
  {
    var s1 := Opened(s, i);
    RejoinKeepsTraced(s1);
    FlushSendsAll(MaybeRejoined(s1));
    assert IsOpen(s1) <==> s.current == Some(i) || IsOpen(s);
    JoinsThenQueue(s.wire, if s.reconnecting && IsOpen(s1) then Joins(s.rooms) else [],
                   if IsOpen(s1) then AsNotes(s.pending) else []);
  }

  lemma JoinsThenQueue(wire: seq<Out>, joins: seq<Out>, queue: seq<Out>)
    ensures wire + joins + queue == wire + (joins + queue) && wire + ([] + []) == wire
  {
  }

  lemma StepHands(s: State, ev: Event)
    requires Inv(s)
    ensures Next(s, ev).wire == s.wire + Hands(s, ev)
  {
    assert s.wire + [] == s.wire;
    if ev.Send? {
      SendHands(s, ev.kind, ev.room);
    } else if ev.Opens? && Enabled(s, ev) {
      OpenHands(s, ev.i);
    }
  }

  // Nothing else ever goes out, and all of that does, in this order
  lemma {:induction false} WireIsAllHanded(s: State, events: seq<Event>)
    requires Inv(s)
    ensures Run(s, events).wire == s.wire + AllHanded(s, events)
    decreases |events|
  {
    if events == [] {
      assert s.wire + [] == s.wire;
    } else {
      StepHands(s, events[0]);
      NextKeepsInv(s, events[0]);
      WireIsAllHanded(Next(s, events[0]), events[1..]);
      JoinsThenQueue(s.wire, Hands(s, events[0]), AllHanded(Next(s, events[0]), events[1..]));
    }
  }

  // ---- An outage ----

  function Numbers(first: nat, n: nat): seq<nat> {
    seq(n, k requires 0 <= k < n => first + k)
  }

  // The messages sent without a socket are queued, up to 200, and nothing else happens
  lemma {:induction false} OfflineOnlyQueues(s: State, events: seq<Event>)
    requires !IsOpen(s) && |s.pending| <= 200 && OnlyMessages(events)
    ensures var s' := Run(s, events);
            && s' == s.(pending := s'.pending, fates := s'.fates)
            && s'.pending == s.pending + Numbers(|s.fates|, Min(|events|, 200 - |s.pending|))
    decreases |events|
  {
    if events == [] {
      assert s.pending + Numbers(|s.fates|, 0) == s.pending;
    } else {
      var ev, s1 := events[0], Next(s, events[0]);
      NoteGoes(s, ev.kind, ev.room);
      OfflineOnlyQueues(s1, events[1..]);
      var w := |s.pending|;
      if w < 200 {
        assert s.pending + [|s.fates|] + Numbers(|s.fates| + 1, Min(|events| - 1, 199 - w))
            == s.pending + Numbers(|s.fates|, Min(|events|, 200 - w));
      } else {
        assert Numbers(|s.fates|, 0) == Numbers(|s.fates| + 1, 0);
      }
    }
  }

  predicate OpenMeansSettled(s: State) {
    forall i | 0 <= i < |s.sockets| :: s.sockets[i].ready.Open? ==> s.sockets[i].settled
  }

  lemma StepKeepsSettled(s: State, ev: Event)
    requires Inv(s) && OpenMeansSettled(s)
    ensures OpenMeansSettled(Next(s, ev))
  {
    if ev.Opens? && Enabled(s, ev) {
      RejoinKeepsTraced(Opened(s, ev.i));
      FlushSendsAll(MaybeRejoined(Opened(s, ev.i)));
    }
  }

  lemma {:induction false} RunKeepsSettled(s: State, events: seq<Event>)
    requires Inv(s) && OpenMeansSettled(s)
    ensures OpenMeansSettled(Run(s, events))
    decreases |events|
  {
    if events != [] {
      StepKeepsSettled(s, events[0]);
      NextKeepsInv(s, events[0]);
      RunKeepsSettled(Next(s, events[0]), events[1..]);
    }
  }

  // The connection is lost
  lemma Loses(s: State, i: nat) returns (s': State)
    requires Inv(s) && OneConnection(s) && OpenMeansSettled(s) && IsOpen(s) && s.current == Some(i)
    requires s.rooms != [] && s.attempts < 20
    ensures s' == Next(Next(s, Drops(i)), CloseRuns(i)) && Inv(s') && !IsOpen(s') && s'.made == s.made + 1
    ensures s'.timers == {s.made} && s'.reconnecting && s'.current == Some(i) && |s'.sockets| == |s.sockets|
    ensures s'.rooms == s.rooms && s'.wire == s.wire && s'.fates == s.fates && s'.pending == []
  {
    var s1 := Next(s, Drops(i));
    assert s.timers == {};
    NextKeepsInv(s, Drops(i));
    NextKeepsInv(s1, CloseRuns(i));
    s' := Next(s1, CloseRuns(i));
  }

  // The timer runs and its socket opens
  lemma Returns(s: State, t: nat) returns (s': State)
    requires Inv(s) && t in s.timers && s.reconnecting && !IsOpen(s)
    ensures s' == Next(Next(s, TimerRuns(t)), Opens(|s.sockets|))
    ensures IsOpen(s') && s'.current == Some(|s.sockets|) && s'.rooms == s.rooms
    ensures s'.pending == [] && s'.wire == s.wire + Joins(s.rooms) + AsNotes(s.pending)
  {
    var s1 := Next(s, TimerRuns(t));
    NextKeepsInv(s, TimerRuns(t));
    assert s1.sockets[|s.sockets|] == Socket(Connecting, false, false, true);
    OpenSends(s1, |s.sockets|);
    RejoinKeepsTraced(Opened(s1, |s.sockets|));
    FlushSendsAll(MaybeRejoined(Opened(s1, |s.sockets|)));
    s' := Next(s1, Opens(|s.sockets|));
  }

  /**
   In a run with one connection at a time, with a room joined and attempts left: when the connection is lost,
   messages are sent meanwhile, and the reconnect timer's socket opens, a join of every room goes out, then the
   first 200 of these messages in order, and the client is connected again.
   */
  lemma OutageIsRepaired(events: seq<Event>, i: nat, sent: seq<Event>) returns (s': State)
    requires Orderly(START, events) && OnlyMessages(sent)
    requires var s := Run(START, events); IsOpen(s) && s.current == Some(i) && s.rooms != [] && s.attempts < 20
    ensures var s := Run(START, events);
            var lost := Run(Next(Next(s, Drops(i)), CloseRuns(i)), sent);
            && s' == Next(Next(lost, TimerRuns(s.made)), Opens(|s.sockets|))
            && IsOpen(s') && s'.rooms == s.rooms && s'.pending == []
            && s'.wire == s.wire + Joins(s.rooms) + AsNotes(Numbers(|s.fates|, Min(|sent|, 200)))
  {
    var s := Run(START, events);
    OrderlyRun(START, events);
    RunKeepsSettled(START, events);
    var s1 := Loses(s, i);
    OfflineOnlyQueues(s1, sent);
    RunKeepsInv(s1, sent);
    assert [] + Numbers(|s.fates|, Min(|sent|, 200)) == Numbers(|s.fates|, Min(|sent|, 200));
    s' := Returns(Run(s1, sent), s.made);
  }
}
