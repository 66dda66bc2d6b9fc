/**
 What an opening socket does to the queue: when queued messages are lost, and what an automatic
 reconnect sends first.
 */
module SocketReconnect {
  import opened Arith
  import opened Options
  import opened SocketClient
  import opened SocketTheorems

  lemma {:induction false} FlushKeepsCount(s: State)
    ensures |Flushed(s).fates| == |s.fates|
    decreases |s.pending|
  {
    if s.pending != [] { FlushKeepsCount(Flush1(s)); }
  }

  lemma {:induction false} FlushMoves(s: State, k: nat)
    requires Traced(s) && k < |s.fates|
    ensures k < |Flushed(s).fates|
    ensures Flushed(s).fates[k] == if !s.fates[k].Waiting? then s.fates[k] else if IsOpen(s) then Wired else Dropped
    decreases |s.pending|
  {
    if s.pending == [] {
      NothingWaits(s.wire, s.fates);
    } else {
      FirstWaiting(s.fates);
      Flush1Sends(s);
      Flush1KeepsTraced(s);
      FlushMoves(Flush1(s), k);
    }
  }

  // After an open event for the current socket: every room joined again if this is a reconnect,
  // then the whole queue, in order. The event of a replaced socket empties the queue unsent.
  lemma OpenSends(s: State, i: nat)
    requires Inv(s) && Enabled(s, Opens(i))
    ensures var s' := Next(s, Opens(i));
            && s'.pending == []
            && (s.current == Some(i) ==>
                  s'.wire == s.wire + (if s.reconnecting then Joins(s.rooms) else []) + AsNotes(s.pending))
            && (s.current != Some(i) && s.pending != [] ==> s'.wire == s.wire)
  {
    var s1 := Opened(s, i);
    RejoinKeepsTraced(s1);
    FlushSendsAll(MaybeRejoined(s1));
    assert IsOpen(s1) <==> s.current == Some(i) || IsOpen(s);
    assert s.wire + [] == s.wire;
  }

  lemma OpenMoves(s: State, i: nat, k: nat)
    requires Inv(s) && Enabled(s, Opens(i)) && k < |s.fates|
    ensures var s' := Next(s, Opens(i));
            && k < |s'.fates|
            && s'.fates[k] == if !s.fates[k].Waiting? then s.fates[k]
                              else if s.current == Some(i) then Wired else Dropped
  {
    var s1 := Opened(s, i);
    RejoinKeepsTraced(s1);
    FlushMoves(MaybeRejoined(s1), k);
    if IsOpen(s) { NothingWaits(s.wire, s.fates); }
  }

  // A message is lost in a step exactly when the open event of a replaced socket finds it queued
  lemma DroppedExactlyWhen(s: State, ev: Event, k: nat)
    requires Inv(s) && k < |s.fates|
    ensures k < |Next(s, ev).fates|
    ensures !s.fates[k].Dropped? && Next(s, ev).fates[k].Dropped? <==>
            s.fates[k].Waiting? && ev.Opens? && Enabled(s, ev) && s.current != Some(ev.i)
    ensures s.fates[k].Waiting? && Next(s, ev).fates[k].Cleared? <==> s.fates[k].Waiting? && ev.Disconnect?
  {
    if ev.Opens? && Enabled(s, ev) {
      OpenMoves(s, ev.i, k);
    }
  }

  predicate OnlyMessages(events: seq<Event>) {
    forall k | 0 <= k < |events| :: events[k].Send? && (events[k].kind.Chat? || events[k].kind.Media?)
  }

  // What becomes of n messages in a row, sent without an open socket, `waiting` of which are queued already
  function Offline(waiting: nat, n: nat): seq<Fate> {
    seq(n, k => if waiting + k < MAX_PENDING then Waiting else Overflowed)
  }

  lemma OneMoreOffline(s: State, ev: Event)
    requires !IsOpen(s) && |s.pending| <= MAX_PENDING && ev.Send? && (ev.kind.Chat? || ev.kind.Media?)
    ensures var s' := Next(s, ev);
            && !IsOpen(s') && s'.wire == s.wire && s'.sockets == s.sockets && s'.current == s.current
            && s'.fates == s.fates + Offline(|s.pending|, 1)
            && |s'.pending| == Min(|s.pending| + 1, MAX_PENDING)
  {
    NoteGoes(s, ev.kind, ev.room);
  }

  // Without an open socket the queue keeps the first 200 messages: those sent after them are lost
  lemma {:induction false} OfflineKeepsTheFirst(s: State, events: seq<Event>)
    requires !IsOpen(s) && |s.pending| <= MAX_PENDING && OnlyMessages(events)
    ensures Run(s, events).wire == s.wire
    ensures Run(s, events).fates == s.fates + Offline(|s.pending|, |events|)
    ensures Run(s, events).sockets == s.sockets && Run(s, events).current == s.current
    decreases |events|
  {
    if events == [] {
      assert s.fates + Offline(|s.pending|, 0) == s.fates;
    } else {
      var w, s' := |s.pending|, Next(s, events[0]);
      OneMoreOffline(s, events[0]);
      OfflineKeepsTheFirst(s', events[1..]);
      assert Offline(w, |events|) == Offline(w, 1) + Offline(Min(w + 1, MAX_PENDING), |events| - 1);
    }
  }

  // When the current socket then opens, exactly those first messages go out
  lemma OutageDeliversTheFirst(s: State, events: seq<Event>, i: nat, k: nat)
    requires Inv(s) && !IsOpen(s) && OnlyMessages(events) && k < |events|
    requires s.current == Some(i) && Enabled(s, Opens(i))
    ensures var fates := Next(Run(s, events), Opens(i)).fates;
            && |s.fates| + k < |fates|
            && fates[|s.fates| + k] == if |s.pending| + k < MAX_PENDING then Wired else Overflowed
  {
    OfflineKeepsTheFirst(s, events);
    RunKeepsInv(s, events);
    OpenMoves(Run(s, events), i, |s.fates| + k);
  }

  predicate OpensAreCurrent(s: State, events: seq<Event>)
    decreases |events|
  {
    events == [] ||
    ((events[0].Opens? && Enabled(s, events[0]) ==> s.current == Some(events[0].i))
     && OpensAreCurrent(Next(s, events[0]), events[1..]))
  }

  predicate NoneDropped(fates: seq<Fate>) {
    forall k | 0 <= k < |fates| :: !fates[k].Dropped?
  }

  lemma SendDropsNone(s: State, kind: Kind, room: Room)
    requires NoneDropped(s.fates)
    ensures NoneDropped(AfterSend(s, kind, room).fates)
  {
  }

  lemma OpenDropsNone(s: State, i: nat)
    requires Inv(s) && NoneDropped(s.fates) && Enabled(s, Opens(i)) && s.current == Some(i)
    ensures NoneDropped(Next(s, Opens(i)).fates)
  {
    RejoinKeepsTraced(Opened(s, i));
    FlushKeepsCount(MaybeRejoined(Opened(s, i)));
    forall k | 0 <= k < |s.fates| ensures !Next(s, Opens(i)).fates[k].Dropped? { OpenMoves(s, i, k); }
  }

  lemma StepDropsNone(s: State, ev: Event)
    requires Inv(s) && NoneDropped(s.fates)
    requires ev.Opens? && Enabled(s, ev) ==> s.current == Some(ev.i)
    ensures NoneDropped(Next(s, ev).fates)
  {
    if Enabled(s, ev) {
      match ev {
        case Opens(i) => OpenDropsNone(s, i);
        case Send(kind, room) => SendDropsNone(s, kind, room);
        case _ =>
      }
    }
  }

  lemma {:induction false} NothingDropped(s: State, events: seq<Event>)
    requires Inv(s) && NoneDropped(s.fates) && OpensAreCurrent(s, events)
    ensures NoneDropped(Run(s, events).fates)
    decreases |events|
  {
    if events != [] {
      StepDropsNone(s, events[0]);
      NextKeepsInv(s, events[0]);
      NothingDropped(Next(s, events[0]), events[1..]);
    }
  }

  // ---- One connection at a time ----

  // `connect` is called only when every earlier socket is done with and no reconnect is due
  predicate Quiet(s: State) {
    s.timers == {} && forall i | 0 <= i < |s.sockets| :: s.sockets[i].over
  }

  predicate Orderly(s: State, events: seq<Event>)
    decreases |events|
  {
    events == [] || ((events[0].Connect? ==> Quiet(s)) && Orderly(Next(s, events[0]), events[1..]))
  }

  predicate OneConnection(s: State) {
    var n := |s.sockets|;
    && (forall i | 0 <= i < n - 1 :: s.sockets[i].over)
    && (forall i | 0 <= i < n :: s.sockets[i].over ==> s.sockets[i].ready.Closed?)
    && (n > 0 && !s.sockets[n - 1].ready.Closed? ==> s.current == Some(n - 1))
    && (forall t | t in s.timers :: s.timer == Some(t) && t < s.made)
    && (s.timers != {} ==> s.reconnecting && forall i | 0 <= i < n :: s.sockets[i].over)
    && (n > 0 && s.sockets[n - 1].auto && s.sockets[n - 1].ready.Connecting? ==> s.reconnecting)
  }

  lemma CreateKeepsOneConnection(s: State, auto: bool)
    requires OneConnection(s) && Quiet(s) && (auto ==> s.reconnecting)
    ensures OneConnection(Created(s, auto))
  {
  }

  lemma CloseKeepsOneConnection(s: State, i: nat)
    requires OneConnection(s) && Enabled(s, CloseRuns(i))
    ensures OneConnection(AfterClose(s, i))
  {
    assert i == |s.sockets| - 1 && s.timers == {};
    var s1 := s.(sockets := s.sockets[i := s.sockets[i].(over := true)]);
    assert forall k | 0 <= k < |s1.sockets| :: s1.sockets[k].over && s1.sockets[k].ready.Closed?;
    assert forall t | t in Reconnect(s1).timers :: t == s.made;
  }

  lemma DisconnectKeepsOneConnection(s: State)
    requires OneConnection(s)
    ensures OneConnection(AfterDisconnect(s))
  {
    assert AfterDisconnect(s).timers == {};
  }

  lemma OpenKeepsOneConnection(s: State, i: nat)
    requires Inv(s) && OneConnection(s) && Enabled(s, Opens(i))
    ensures OneConnection(AfterOpen(s, i))
  {
    RejoinKeepsTraced(Opened(s, i));
    FlushSendsAll(MaybeRejoined(Opened(s, i)));
    assert s.timers == {} && i == |s.sockets| - 1;
  }

  lemma TimerKeepsOneConnection(s: State, t: nat)
    requires OneConnection(s) && t in s.timers
    ensures OneConnection(Created(s.(timers := s.timers - {t}), true))
  {
    assert s.timers == {t};
    CreateKeepsOneConnection(s.(timers := s.timers - {t}), true);
  }

  // Errors, closing and sends leave the connections' bookkeeping alone
  lemma OtherKeepsOneConnection(s: State, ev: Event)
    requires OneConnection(s) && Enabled(s, ev) && (ev.Errors? || ev.Drops? || ev.Send?)
    ensures OneConnection(Next(s, ev))
  {
  }

  lemma StepKeepsOneConnection(s: State, ev: Event)
    requires Inv(s) && OneConnection(s) && (ev.Connect? ==> Quiet(s))
    ensures OneConnection(Next(s, ev))
  {
    if Enabled(s, ev) {
      match ev {
        case Opens(i) => OpenKeepsOneConnection(s, i);
        case CloseRuns(i) => CloseKeepsOneConnection(s, i);
        case Connect => CreateKeepsOneConnection(s, false);
        case TimerRuns(t) => TimerKeepsOneConnection(s, t);
        case Disconnect => DisconnectKeepsOneConnection(s);
        case _ => OtherKeepsOneConnection(s, ev);
      }
    }
  }

  lemma {:induction false} OrderlyRun(s: State, events: seq<Event>)
    requires Inv(s) && OneConnection(s) && Orderly(s, events)
    ensures Inv(Run(s, events)) && OneConnection(Run(s, events)) && OpensAreCurrent(s, events)
    decreases |events|
  {
    if events != [] {
      NextKeepsInv(s, events[0]);
      StepKeepsOneConnection(s, events[0]);
      OrderlyRun(Next(s, events[0]), events[1..]);
    }
  }

  /**
   In a run with one connection at a time no queued message is ever lost, and when a socket made by
   the reconnect timer opens, a join of each room, at most five and each once, goes out before
   everything queued.
   */
  lemma ReconnectJoinsFirst(events: seq<Event>, i: nat)
    requires Orderly(START, events)
    ensures var s := Run(START, events);
            && NoneDropped(s.fates)
            && (Enabled(s, Opens(i)) && s.sockets[i].auto ==>
                  && Next(s, Opens(i)).wire == s.wire + Joins(s.rooms) + AsNotes(s.pending)
                  && |s.rooms| <= 5 && OneOfEach(s.rooms))
  {
    OrderlyRun(START, events);
    NothingDropped(START, events);
    var s := Run(START, events);
    if Enabled(s, Opens(i)) { OpenSends(s, i); }
  }

  // ---- Where the code and its comments differ ----

  // The close handler schedules a reconnect exactly when the promise is settled, some room is
  // joined and attempts are left
  lemma ReconnectsExactlyWhen(s: State, i: nat)
    requires Enabled(s, CloseRuns(i)) && forall t | t in s.timers :: t < s.made
    ensures Next(s, CloseRuns(i)).timers != s.timers <==>
            s.sockets[i].settled && s.rooms != [] && s.attempts < 20
  {
    assert s.made !in s.timers;
  }

  // An error settles the promise too, so a first connection that fails is retried as well
  lemma FailedFirstConnectionRetries(room: Room) returns (s: State)
    ensures s == Run(START, [Connect, Send(Join, room), Errors(0), Drops(0), CloseRuns(0)])
    ensures s.timers != {} && s.wire == []
  {
    var s1 := Next(START, Connect);
    var s2 := Next(s1, Send(Join, room));
    var s3 := Next(s2, Errors(0));
    var s4 := Next(s3, Drops(0));
    s := Next(s4, CloseRuns(0));
    assert s2.rooms == [room];
    assert 0 in s.timers;
    RunOfFive(START, Connect, Send(Join, room), Errors(0), Drops(0), CloseRuns(0));
  }

  lemma RunOfFive(s: State, a: Event, b: Event, c: Event, d: Event, e: Event)
    ensures Run(s, [a, b, c, d, e]) == Next(Next(Next(Next(Next(s, a), b), c), d), e)
  {
    RunFirst(s, a, [b, c, d, e]);
    RunFirst(Next(s, a), b, [c, d, e]);
    RunFirst(Next(Next(s, a), b), c, [d, e]);
    RunFirst(Next(Next(Next(s, a), b), c), d, [e]);
    RunFirst(Next(Next(Next(Next(s, a), b), c), d), e, []);
    assert [a, b, c, d, e] == [a] + [b, c, d, e] && [b, c, d, e] == [b] + [c, d, e];
    assert [c, d, e] == [c] + [d, e] && [d, e] == [d] + [e] && [e] == [e] + [];
  }

  lemma RunFirst(s: State, ev: Event, rest: seq<Event>)
    ensures Run(s, [ev] + rest) == Run(Next(s, ev), rest)
  {
    assert ([ev] + rest)[1..] == rest;
  }

  lemma QueuedThenReplaced(room: Room) returns (s: State)
    ensures s == Next(Next(Next(START, Connect), Send(Chat, room)), Connect)
    ensures s == START.(sockets := [Socket(Connecting, false, false, false), Socket(Connecting, false, false, false)],
                        current := Some(1), pending := [0], fates := [Waiting])
  {
    var s1 := START.(sockets := [Socket(Connecting, false, false, false)], current := Some(0));
    assert s1 == Next(START, Connect);
    NoteGoes(s1, Chat, room);
    var s2 := s1.(pending := [0], fates := [Waiting]);
    assert s2 == Next(s1, Send(Chat, room));
    s := Next(s2, Connect);
  }

  lemma QueuedThenReplacedInv(room: Room)
    ensures Inv(Next(Next(Next(START, Connect), Send(Chat, room)), Connect))
  {
    NextKeepsInv(START, Connect);
    NextKeepsInv(Next(START, Connect), Send(Chat, room));
    NextKeepsInv(Next(Next(START, Connect), Send(Chat, room)), Connect);
  }

  // Two calls of `connect` in a row lose a message queued in between
  lemma SecondConnectLosesQueue(room: Room) returns (s: State)
    ensures s == Run(START, [Connect, Send(Chat, room), Connect, Opens(0), Opens(1)])
    ensures s.fates == [Dropped] && s.wire == []
  {
    var s3 := QueuedThenReplaced(room);
    QueuedThenReplacedInv(room);
    var s4 := Next(s3, Opens(0));
    s := Next(s4, Opens(1));
    RunOfFive(START, Connect, Send(Chat, room), Connect, Opens(0), Opens(1));
    NextKeepsInv(s3, Opens(0));
    OneFateOpens(s3, 0);
    OneFateOpens(s4, 1);
  }

  lemma OneFateOpens(s: State, i: nat)
    requires Inv(s) && Enabled(s, Opens(i)) && |s.fates| == 1 && !s.reconnecting
    requires s.current == Some(i) ==> s.pending == []
    ensures var s' := Next(s, Opens(i));
            && s'.sockets == s.sockets[i := s.sockets[i].(ready := Open, settled := true)]
            && !s'.reconnecting && s'.current == s.current && s'.pending == []
            && s'.fates == [if s.fates[0].Waiting? && s.current != Some(i) then Dropped else s.fates[0]]
            && (s.current == Some(i) || s.pending != [] ==> s'.wire == s.wire)
  {
    OpenSends(s, i);
    OpenMoves(s, i, 0);
    RejoinKeepsTraced(Opened(s, i));
    FlushSendsAll(MaybeRejoined(Opened(s, i)));
    FlushKeepsCount(MaybeRejoined(Opened(s, i)));
    if s.pending == [] { NothingWaits(s.wire, s.fates); }
    assert s.wire + [] + AsNotes([]) == s.wire;
  }
}
