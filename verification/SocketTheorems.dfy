/**
 What holds over every run of the client: chat and media reach the sockets in the order of `send`
 with no repetition, and each message that does not is accounted for.
 */
module SocketTheorems {
  import opened SocketClient

  // The numbers of the messages with this fate, in order of `send`
  function Select(fates: seq<Fate>, fate: Fate): seq<nat> {
    if fates == [] then []
    else Select(fates[..|fates| - 1], fate) + if fates[|fates| - 1] == fate then [|fates| - 1] else []
  }

  // The chat and media messages handed to sockets, in order
  function Notes(wire: seq<Out>): seq<nat> {
    if wire == [] then []
    else Notes(wire[..|wire| - 1]) + if wire[|wire| - 1].Note? then [wire[|wire| - 1].k] else []
  }

  lemma SelectAppend(fates: seq<Fate>, f: Fate, fate: Fate)
    ensures Select(fates + [f], fate) == Select(fates, fate) + if f == fate then [|fates|] else []
  {
    assert (fates + [f])[..|fates|] == fates;
  }

  lemma NotesAppend(wire: seq<Out>, out: Out)
    ensures Notes(wire + [out]) == Notes(wire) + if out.Note? then [out.k] else []
  {
    assert (wire + [out])[..|wire|] == wire;
  }

  lemma {:induction false} SelectIncreases(fates: seq<Fate>, fate: Fate)
    ensures forall a, b | 0 <= a < b < |Select(fates, fate)| :: Select(fates, fate)[a] < Select(fates, fate)[b]
    ensures forall a | 0 <= a < |Select(fates, fate)| :: Select(fates, fate)[a] < |fates|
  {
    if fates != [] { SelectIncreases(fates[..|fates| - 1], fate); }
  }

  lemma {:induction false} SelectIsAll(fates: seq<Fate>, fate: Fate, k: nat)
    ensures k in Select(fates, fate) <==> k < |fates| && fates[k] == fate
  {
    if fates != [] {
      var before := fates[..|fates| - 1];
      SelectIsAll(before, fate, k);
      assert k < |before| ==> before[k] == fates[k];
    }
  }

  lemma {:induction false} SelectNone(fates: seq<Fate>, fate: Fate)
    requires forall k | 0 <= k < |fates| :: fates[k] != fate
    ensures Select(fates, fate) == []
  {
    if fates != [] { SelectNone(fates[..|fates| - 1], fate); }
  }

  lemma {:induction false} SelectSame(a: seq<Fate>, b: seq<Fate>, fate: Fate)
    requires |a| == |b| && forall k | 0 <= k < |a| :: a[k] == fate <==> b[k] == fate
    ensures Select(a, fate) == Select(b, fate)
  {
    if a != [] { SelectSame(a[..|a| - 1], b[..|b| - 1], fate); }
  }

  // ---- What every step keeps ----

  predicate OneOfEach(rooms: seq<Room>) {
    rooms == [] || (!Has(rooms[1..], rooms[0].name) && OneOfEach(rooms[1..]))
  }

  // Nothing waits in front of a message that a socket already has
  predicate WaitingComeLast(fates: seq<Fate>) {
    forall a, b | 0 <= a < b < |fates| :: !(fates[a].Waiting? && fates[b].Wired?)
  }

  predicate Trace(wire: seq<Out>, pending: seq<nat>, fates: seq<Fate>) {
    && Notes(wire) == Select(fates, Wired)
    && pending == Select(fates, Waiting)
    && WaitingComeLast(fates)
  }

  predicate Traced(s: State) {
    Trace(s.wire, s.pending, s.fates)
  }

  predicate Bounded(s: State) {
    && |s.pending| <= MAX_PENDING
    && |s.rooms| <= MAX_ROOMS && OneOfEach(s.rooms)
    && s.attempts <= MAX_RECONNECT_ATTEMPTS
  }

  // The current socket is the newest, and an open current socket leaves nothing queued
  predicate Settled(s: State) {
    && (s.current.Some? ==> s.current.value + 1 == |s.sockets|)
    && (IsOpen(s) ==> s.pending == [])
  }

  predicate Inv(s: State) {
    Traced(s) && Bounded(s) && Settled(s)
  }

  lemma {:induction false} PutKeepsNames(rooms: seq<Room>, room: Room)
    ensures |Put(rooms, room)| == |rooms| + if Has(rooms, room.name) then 0 else 1
    ensures forall n :: Has(Put(rooms, room), n) <==> Has(rooms, n) || n == room.name
  {
    if rooms == [] {
      assert [room][0].name == room.name;
    } else {
      PutKeepsNames(rooms[1..], room);
      HasSplit(rooms);
      HasSplit(Put(rooms, room));
      if rooms[0].name != room.name { assert Put(rooms, room)[1..] == Put(rooms[1..], room); }
    }
  }

  lemma HasSplit(rooms: seq<Room>)
    requires rooms != []
    ensures forall n :: Has(rooms, n) <==> rooms[0].name == n || Has(rooms[1..], n)
  {
    forall n ensures Has(rooms, n) <==> rooms[0].name == n || Has(rooms[1..], n) {
      if Has(rooms[1..], n) {
        var k :| 0 <= k < |rooms[1..]| && rooms[1..][k].name == n;
        assert rooms[k + 1].name == n;
      }
      if Has(rooms, n) && rooms[0].name != n {
        var k :| 0 <= k < |rooms| && rooms[k].name == n;
        assert rooms[1..][k - 1].name == n;
      }
    }
  }

  lemma {:induction false} PutKeepsDistinct(rooms: seq<Room>, room: Room)
    requires OneOfEach(rooms)
    ensures OneOfEach(Put(rooms, room))
  {
    if rooms == [] {
      assert [room][1..] == [];
    } else {
      PutKeepsDistinct(rooms[1..], room);
      PutKeepsNames(rooms[1..], room);
      assert Put(rooms, room)[1..] == if rooms[0].name == room.name then rooms[1..] else Put(rooms[1..], room);
    }
  }

  lemma {:induction false} DeleteKeepsDistinct(rooms: seq<Room>, name: string)
    requires OneOfEach(rooms)
    ensures OneOfEach(Delete(rooms, name)) && |Delete(rooms, name)| <= |rooms|
    ensures forall n :: Has(Delete(rooms, name), n) <==> Has(rooms, n) && n != name
  {
    if rooms != [] && rooms[0].name != name {
      DeleteKeepsDistinct(rooms[1..], name);
      HasSplit(rooms);
      HasSplit(Delete(rooms, name));
      assert Delete(rooms, name)[1..] == Delete(rooms[1..], name);
    } else if rooms != [] {
      HasSplit(rooms);
    }
  }

  lemma NothingWaits(wire: seq<Out>, fates: seq<Fate>)
    requires Trace(wire, [], fates)
    ensures forall k | 0 <= k < |fates| :: !fates[k].Waiting?
  {
    forall k | 0 <= k < |fates| ensures !fates[k].Waiting? { SelectIsAll(fates, Waiting, k); }
  }

  lemma TraceWired(wire: seq<Out>, fates: seq<Fate>)
    requires Trace(wire, [], fates)
    ensures Trace(wire + [Note(|fates|)], [], fates + [Wired])
  {
    SelectAppend(fates, Wired, Wired);
    SelectAppend(fates, Wired, Waiting);
    NotesAppend(wire, Note(|fates|));
    NothingWaits(wire, fates);
  }

  lemma TraceUnsent(wire: seq<Out>, pending: seq<nat>, fates: seq<Fate>, fate: Fate)
    requires Trace(wire, pending, fates) && !fate.Wired?
    ensures Trace(wire, pending + if fate.Waiting? then [|fates|] else [], fates + [fate])
  {
    SelectAppend(fates, fate, Wired);
    SelectAppend(fates, fate, Waiting);
    assert pending + [] == pending;
  }

  lemma TraceOther(wire: seq<Out>, pending: seq<nat>, fates: seq<Fate>, out: Out)
    requires Trace(wire, pending, fates) && !out.Note?
    ensures Trace(wire + [out], pending, fates)
  {
    NotesAppend(wire, out);
  }

  // Where a chat or media message goes
  lemma NoteGoes(s: State, kind: Kind, room: Room)
    requires kind.Chat? || kind.Media?
    ensures var n, s' := |s.fates|, AfterSend(s, kind, room);
            if IsOpen(s) then s' == s.(wire := s.wire + [Note(n)], fates := s.fates + [Wired])
            else if |s.pending| < MAX_PENDING then s' == s.(pending := s.pending + [n], fates := s.fates + [Waiting])
            else s' == s.(fates := s.fates + [Overflowed])
  {
  }

  lemma NoteKeepsTraced(s: State, kind: Kind, room: Room)
    requires Traced(s) && (IsOpen(s) ==> s.pending == []) && (kind.Chat? || kind.Media?)
    ensures Traced(AfterSend(s, kind, room))
  {
    NoteGoes(s, kind, room);
    var s' := AfterSend(s, kind, room);
    if IsOpen(s) {
      TraceWired(s.wire, s.fates);
    } else {
      TraceUnsent(s.wire, s.pending, s.fates, s'.fates[|s.fates|]);
      assert s.pending + [] == s.pending;
    }
  }

  lemma SignalKeepsTraced(s: State, kind: Kind, room: Room)
    requires Traced(s) && !kind.Chat? && !kind.Media?
    ensures Traced(AfterSend(s, kind, room))
  {
    assert s.fates + [] == s.fates;
    if IsOpen(s) && !TooMany(s, kind, room) { TraceOther(s.wire, s.pending, s.fates, Written(s, kind, room)); }
  }

  lemma SendKeepsRooms(s: State, kind: Kind, room: Room)
    requires Bounded(s) && !TooMany(s, kind, room)
    ensures |Rooms(s, kind, room)| <= MAX_ROOMS && OneOfEach(Rooms(s, kind, room))
  {
    PutKeepsNames(s.rooms, room);
    PutKeepsDistinct(s.rooms, room);
    DeleteKeepsDistinct(s.rooms, room.name);
  }

  lemma SendKeepsInv(s: State, kind: Kind, room: Room)
    requires Inv(s)
    ensures Inv(AfterSend(s, kind, room))
  {
    if kind.Chat? || kind.Media? { NoteKeepsTraced(s, kind, room); } else { SignalKeepsTraced(s, kind, room); }
    if !TooMany(s, kind, room) { SendKeepsRooms(s, kind, room); }
  }

  // ---- Rejoining and flushing ----

  function Joins(rooms: seq<Room>): seq<Out> {
    if rooms == [] then [] else [JoinOut(rooms[0])] + Joins(rooms[1..])
  }

  function AsNotes(pending: seq<nat>): seq<Out> {
    if pending == [] then [] else [Note(pending[0])] + AsNotes(pending[1..])
  }

  lemma {:induction false} PutSame(rooms: seq<Room>, k: nat)
    requires OneOfEach(rooms) && k < |rooms|
    ensures Put(rooms, rooms[k]) == rooms && Has(rooms, rooms[k].name)
  {
    if k > 0 {
      PutSame(rooms[1..], k - 1);
      assert Has(rooms[1..], rooms[k].name);
      HasSplit(rooms);
    }
  }

  // Joining a room again as it is changes nothing
  predicate Known(known: seq<Room>, room: Room) {
    Put(known, room) == known && Has(known, room.name)
  }

  predicate AllKnown(known: seq<Room>, rooms: seq<Room>) {
    rooms == [] || (Known(known, rooms[0]) && AllKnown(known, rooms[1..]))
  }

  lemma {:induction false} OwnRoomsAreKnown(known: seq<Room>, i: nat)
    requires OneOfEach(known) && i <= |known|
    ensures AllKnown(known, known[i..])
    decreases |known| - i
  {
    if i < |known| {
      PutSame(known, i);
      OwnRoomsAreKnown(known, i + 1);
      assert known[i..][1..] == known[i + 1..];
    }
  }

  function OnWire(s: State, out: seq<Out>): State {
    if IsOpen(s) then s.(wire := s.wire + out) else s
  }

  lemma JoinAgain(s: State, room: Room)
    requires Known(s.rooms, room)
    ensures AfterSend(s, Join, room) == OnWire(s, [JoinOut(room)])
  {
    assert s.fates + [] == s.fates;
  }

  lemma OnWireTwice(s: State, a: seq<Out>, b: seq<Out>)
    ensures OnWire(OnWire(s, a), b) == OnWire(s, a + b) && OnWire(s, a).rooms == s.rooms
  {
    assert s.wire + a + b == s.wire + (a + b);
  }

  lemma {:induction false} RejoinedJoins(s: State, rooms: seq<Room>)
    requires AllKnown(s.rooms, rooms)
    ensures Rejoined(s, rooms) == OnWire(s, Joins(rooms))
    decreases |rooms|
  {
    if rooms == [] {
      assert s.wire + Joins(rooms) == s.wire;
    } else {
      JoinAgain(s, rooms[0]);
      OnWireTwice(s, [JoinOut(rooms[0])], Joins(rooms[1..]));
      RejoinedJoins(OnWire(s, [JoinOut(rooms[0])]), rooms[1..]);
    }
  }

  lemma {:induction false} JoinsAreNoNotes(wire: seq<Out>, rooms: seq<Room>)
    ensures Notes(wire + Joins(rooms)) == Notes(wire)
    decreases |rooms|
  {
    if rooms == [] {
      assert wire + Joins(rooms) == wire;
    } else {
      assert wire + Joins(rooms) == wire + [JoinOut(rooms[0])] + Joins(rooms[1..]);
      JoinsAreNoNotes(wire + [JoinOut(rooms[0])], rooms[1..]);
      NotesAppend(wire, JoinOut(rooms[0]));
    }
  }

  lemma RejoinKeepsTraced(s: State)
    requires Traced(s) && Bounded(s)
    ensures var s1 := MaybeRejoined(s);
            && Traced(s1) && Bounded(s1)
            && s1 == s.(wire := s1.wire, reconnecting := s1.reconnecting)
            && s1.wire == s.wire + if s.reconnecting && IsOpen(s) then Joins(s.rooms) else []
  {
    assert s.wire + [] == s.wire;
    if s.reconnecting && s.rooms != [] {
      OwnRoomsAreKnown(s.rooms, 0);
      assert s.rooms[0..] == s.rooms;
      RejoinedJoins(s, s.rooms);
      JoinsAreNoNotes(s.wire, s.rooms);
    }
  }

  lemma FirstWaiting(fates: seq<Fate>)
    requires Select(fates, Waiting) != []
    ensures var k := Select(fates, Waiting)[0];
            k < |fates| && fates[k].Waiting? && forall a | 0 <= a < k :: !fates[a].Waiting?
  {
    var waiting := Select(fates, Waiting);
    SelectIncreases(fates, Waiting);
    SelectIsAll(fates, Waiting, waiting[0]);
    forall a | 0 <= a < waiting[0] ensures !fates[a].Waiting? { SelectIsAll(fates, Waiting, a); }
  }

  lemma {:induction false} SelectMark(fates: seq<Fate>, k: nat, fate: Fate)
    requires k < |fates| && fates[k].Waiting? && !fate.Waiting?
    requires forall a | 0 <= a < k :: !fates[a].Waiting?
    requires forall b | k < b < |fates| :: !fates[b].Wired?
    ensures Select(fates[k := fate], Wired) == Select(fates, Wired) + if fate.Wired? then [k] else []
    ensures [k] + Select(fates[k := fate], Waiting) == Select(fates, Waiting)
  {
    var before := fates[..|fates| - 1];
    if k == |fates| - 1 {
      assert fates[k := fate][..k] == before;
      SelectNone(before, Waiting);
    } else {
      assert fates[k := fate][..|fates| - 1] == before[k := fate];
      SelectMark(before, k, fate);
    }
  }

  lemma Flush1KeepsTraced(s: State)
    requires Traced(s) && s.pending != []
    ensures Traced(Flush1(s))
  {
    var k := s.pending[0];
    var fate := if IsOpen(s) then Wired else Dropped;
    FirstWaiting(s.fates);
    SelectMark(s.fates, k, fate);
    NotesAppend(s.wire, Note(k));
    assert Select(s.fates[k := fate], Waiting) == s.pending[1..];
  }

  lemma Flush1Sends(s: State)
    requires s.pending != []
    ensures var s1 := Flush1(s);
            && s1 == s.(pending := s.pending[1..], wire := s1.wire, fates := s1.fates)
            && IsOpen(s1) == IsOpen(s)
            && s1.wire == s.wire + if IsOpen(s) then [Note(s.pending[0])] else []
  {
    assert s.wire + [] == s.wire;
  }

  lemma {:induction false} FlushKeepsTraced(s: State)
    requires Traced(s)
    ensures Traced(Flushed(s))
    decreases |s.pending|
  {
    if s.pending != [] {
      Flush1KeepsTraced(s);
      FlushKeepsTraced(Flush1(s));
    }
  }

  // A flush empties the queue, onto the wire in order if the current socket is open
  lemma {:induction false} FlushSendsAll(s: State)
    ensures var s' := Flushed(s);
            && s' == s.(pending := [], wire := s'.wire, fates := s'.fates)
            && s'.wire == s.wire + if IsOpen(s) then AsNotes(s.pending) else []
    decreases |s.pending|
  {
    if s.pending == [] {
      assert s.wire + [] == s.wire;
    } else {
      Flush1Sends(s);
      FlushSendsAll(Flush1(s));
      assert s.wire + AsNotes(s.pending) == s.wire + [Note(s.pending[0])] + AsNotes(s.pending[1..]);
    }
  }

  // ---- Runs ----

  lemma OpenKeepsInv(s: State, i: nat)
    requires Inv(s) && i < |s.sockets|
    ensures Inv(AfterOpen(s, i))
  {
    var s1 := Opened(s, i);
    RejoinKeepsTraced(s1);
    FlushKeepsTraced(MaybeRejoined(s1));
    FlushSendsAll(MaybeRejoined(s1));
  }

  lemma DisconnectKeepsInv(s: State)
    requires Inv(s)
    ensures Inv(AfterDisconnect(s))
  {
    SelectSame(s.fates, Clear(s.fates), Wired);
    SelectNone(Clear(s.fates), Waiting);
  }

  lemma CloseKeepsInv(s: State, i: nat)
    requires Inv(s) && i < |s.sockets|
    ensures Inv(AfterClose(s, i))
  {
  }

  lemma CreateKeepsInv(s: State, auto: bool)
    requires Inv(s)
    ensures Inv(Created(s, auto))
  {
  }

  lemma NextKeepsInv(s: State, ev: Event)
    requires Inv(s)
    ensures Inv(Next(s, ev))
  {
    if Enabled(s, ev) {
      match ev {
        case Opens(i) => OpenKeepsInv(s, i);
        case Disconnect => DisconnectKeepsInv(s);
        case Send(kind, room) => SendKeepsInv(s, kind, room);
        case CloseRuns(i) => CloseKeepsInv(s, i);
        case Connect => CreateKeepsInv(s, false);
        case TimerRuns(t) => CreateKeepsInv(s.(timers := s.timers - {t}), true);
        case _ =>
      }
    }
  }

  lemma {:induction false} RunKeepsInv(s: State, events: seq<Event>)
    requires Inv(s)
    ensures Inv(Run(s, events))
    decreases |events|
  {
    if events != [] {
      NextKeepsInv(s, events[0]);
      RunKeepsInv(Next(s, events[0]), events[1..]);
    }
  }

  ghost predicate Reachable(s: State) {
    exists events :: s == Run(START, events)
  }

  lemma ReachableInv(s: State)
    requires Reachable(s)
    ensures Inv(s)
  {
    var events :| s == Run(START, events);
    RunKeepsInv(START, events);
  }

  // What sockets were handed is in order of `send`, without repetition, and is every message but
  // those that overflowed, still wait, were cleared or were dropped
  lemma WireKeepsSendOrder(s: State)
    requires Reachable(s)
    ensures forall a, b | 0 <= a < b < |Notes(s.wire)| :: Notes(s.wire)[a] < Notes(s.wire)[b]
    ensures forall k: nat :: k in Notes(s.wire) <==> k < |s.fates| && s.fates[k].Wired?
    ensures forall k: nat :: k in s.pending <==> k < |s.fates| && s.fates[k].Waiting?
    ensures forall a, b | a in Notes(s.wire) && b in s.pending :: a < b
    ensures |s.pending| <= 200 && |s.rooms| <= 5
  {
    ReachableInv(s);
    SelectIncreases(s.fates, Wired);
    forall k: nat ensures k in Notes(s.wire) <==> k < |s.fates| && s.fates[k].Wired? { SelectIsAll(s.fates, Wired, k); }
    forall k: nat ensures k in s.pending <==> k < |s.fates| && s.fates[k].Waiting? { SelectIsAll(s.fates, Waiting, k); }
  }
}
