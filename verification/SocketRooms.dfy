/**
 Which rooms the client has joined, from its calls of `send` and `disconnect` alone: those with an accepted join
 and no leave since, with the payload of the latest, in the order in which they came in.
 */
module SocketRooms {
  import opened SocketClient
  import opened SocketTheorems

  // What is known of a joined room: the payload of the latest accepted join, and by which event it came in
  datatype Entry = Entry(payload: string, since: nat)

  type Ledger = map<string, Entry>

  function Admits(ledger: Ledger, room: Room, now: nat): Ledger {
    ledger[room.name := Entry(room.payload, if room.name in ledger then ledger[room.name].since else now)]
  }

  // Five rooms at a time
  function AfterCall(ledger: Ledger, kind: Kind, room: Room, now: nat): Ledger {
    match kind
    case Join => if room.name in ledger || |ledger| < 5 then Admits(ledger, room, now) else ledger
    case Leave => ledger - {room.name}
    case _ => ledger
  }

  // The rooms joined by these events
  function Booked(events: seq<Event>): Ledger
    decreases |events|
  {
    if events == [] then map[]
    else
      var ledger := Booked(events[..|events| - 1]);
      match events[|events| - 1]
      case Send(kind, room) => AfterCall(ledger, kind, room, |events|)
      case Disconnect => map[]
      case _ => ledger
  }

  predicate Before(ledger: Ledger, now: nat) {
    forall n | n in ledger :: ledger[n].since < now
  }

  lemma {:induction false} BookedBefore(events: seq<Event>)
    ensures Before(Booked(events), |events| + 1)
    decreases |events|
  {
    if events != [] { BookedBefore(events[..|events| - 1]); }
  }

  // ---- The map as a list ----

  predicate NamesDiffer(rooms: seq<Room>) {
    forall i, j | 0 <= i < j < |rooms| :: rooms[i].name != rooms[j].name
  }

  lemma {:induction false} OneOfEachDiffer(rooms: seq<Room>)
    requires OneOfEach(rooms)
    ensures NamesDiffer(rooms)
  {
    if rooms != [] {
      OneOfEachDiffer(rooms[1..]);
      forall i, j | 0 <= i < j < |rooms| ensures rooms[i].name != rooms[j].name {
        assert rooms[1..][j - 1].name == rooms[j].name;
        if i > 0 { assert rooms[1..][i - 1].name == rooms[i].name; }
      }
    }
  }

  lemma {:induction false} PutInPlace(rooms: seq<Room>, room: Room, k: nat)
    requires NamesDiffer(rooms) && k < |rooms| && rooms[k].name == room.name
    ensures Put(rooms, room) == rooms[k := room]
  {
    if k > 0 {
      assert rooms[0].name != rooms[k].name;
      PutInPlace(rooms[1..], room, k - 1);
    }
  }

  lemma {:induction false} PutAtEnd(rooms: seq<Room>, room: Room)
    requires !Has(rooms, room.name)
    ensures Put(rooms, room) == rooms + [room]
  {
    if rooms != [] {
      assert rooms[0].name != room.name;
      HasSplit(rooms);
      PutAtEnd(rooms[1..], room);
    }
  }

  // Where the k-th is left out
  function Was(i: nat, k: nat): nat {
    if i < k then i else i + 1
  }

  function Rest(rooms: seq<Room>, k: nat): (rest: seq<Room>)
    requires k < |rooms|
    ensures |rest| == |rooms| - 1 && forall i | 0 <= i < |rest| :: rest[i] == rooms[Was(i, k)]
  {
    rooms[..k] + rooms[k + 1..]
  }

  lemma {:induction false} DeleteAt(rooms: seq<Room>, name: string, k: nat)
    requires NamesDiffer(rooms) && k < |rooms| && rooms[k].name == name
    ensures Delete(rooms, name) == Rest(rooms, k)
  {
    if k > 0 {
      assert rooms[0].name != rooms[k].name;
      DeleteAt(rooms[1..], name, k - 1);
      assert [rooms[0]] + (rooms[1..][..k - 1] + rooms[1..][k..]) == rooms[..k] + rooms[k + 1..];
    }
  }

  lemma {:induction false} DeleteNothing(rooms: seq<Room>, name: string)
    requires !Has(rooms, name)
    ensures Delete(rooms, name) == rooms
  {
    if rooms != [] {
      assert rooms[0].name != name;
      HasSplit(rooms);
      DeleteNothing(rooms[1..], name);
    }
  }

  lemma NotAgain(rooms: seq<Room>)
    requires rooms != [] && NamesDiffer(rooms)
    ensures !Has(rooms[1..], rooms[0].name) && NamesDiffer(rooms[1..])
  {
    forall k | 0 <= k < |rooms[1..]| ensures rooms[1..][k].name != rooms[0].name {
      assert rooms[1..][k] == rooms[k + 1];
    }
  }

  lemma {:induction false} AsManyNames(rooms: seq<Room>, names: set<string>)
    requires NamesDiffer(rooms) && forall n :: n in names <==> Has(rooms, n)
    ensures |names| == |rooms|
  {
    if rooms == [] {
      assert names == {};
    } else {
      HasSplit(rooms);
      NotAgain(rooms);
      AsManyNames(rooms[1..], names - {rooms[0].name});
    }
  }

  // ---- The list follows the ledger ----

  predicate Listed(room: Room, ledger: Ledger) {
    room.name in ledger && ledger[room.name].payload == room.payload
  }

  predicate AllListed(rooms: seq<Room>, ledger: Ledger) {
    forall k | 0 <= k < |rooms| :: Listed(rooms[k], ledger)
  }

  predicate NoneMissing(rooms: seq<Room>, ledger: Ledger) {
    forall n | n in ledger :: Has(rooms, n)
  }

  function Since(ledger: Ledger, name: string): nat {
    if name in ledger then ledger[name].since else 0
  }

  predicate InOrder(rooms: seq<Room>, ledger: Ledger) {
    forall i, j | 0 <= i < j < |rooms| :: Since(ledger, rooms[i].name) < Since(ledger, rooms[j].name)
  }

  predicate Follows(rooms: seq<Room>, ledger: Ledger) {
    AllListed(rooms, ledger) && NoneMissing(rooms, ledger) && InOrder(rooms, ledger)
  }

  lemma OrderedDiffer(rooms: seq<Room>, ledger: Ledger)
    requires InOrder(rooms, ledger)
    ensures NamesDiffer(rooms)
  {
    forall i, j | 0 <= i < j < |rooms| ensures rooms[i].name != rooms[j].name {
      assert Since(ledger, rooms[i].name) < Since(ledger, rooms[j].name);
    }
  }

  lemma FollowersDiffer(rooms: seq<Room>, ledger: Ledger)
    requires Follows(rooms, ledger)
    ensures NamesDiffer(rooms) && |rooms| == |ledger|
    ensures forall n :: Has(rooms, n) <==> n in ledger
  {
    OrderedDiffer(rooms, ledger);
    forall n ensures Has(rooms, n) <==> n in ledger {
      if k :| 0 <= k < |rooms| && rooms[k].name == n { assert Listed(rooms[k], ledger); }
    }
    AsManyNames(rooms, ledger.Keys);
  }

  lemma JoinsAgain(rooms: seq<Room>, ledger: Ledger, room: Room, now: nat, k: nat)
    requires Follows(rooms, ledger) && k < |rooms| && rooms[k].name == room.name
    ensures Follows(rooms[k := room], Admits(ledger, room, now))
  {
    var rooms', ledger' := rooms[k := room], Admits(ledger, room, now);
    OrderedDiffer(rooms, ledger);
    assert room.name in ledger by { assert Listed(rooms[k], ledger); }
    assert forall n :: Since(ledger', n) == Since(ledger, n);
    forall i | 0 <= i < |rooms'| ensures Listed(rooms'[i], ledger') && rooms'[i].name == rooms[i].name {
      assert Listed(rooms[i], ledger);
    }
    forall n | n in ledger' ensures Has(rooms', n) {
      var i :| 0 <= i < |rooms| && rooms[i].name == n;
      assert rooms'[i].name == n;
    }
  }

  lemma StaysListed(rooms: seq<Room>, ledger: Ledger, room: Room, now: nat, i: nat)
    requires AllListed(rooms, ledger) && room.name !in ledger && Before(ledger, now) && i < |rooms|
    ensures Listed(rooms[i], Admits(ledger, room, now))
    ensures Since(Admits(ledger, room, now), rooms[i].name) == Since(ledger, rooms[i].name) < now
  {
    assert Listed(rooms[i], ledger);
  }

  lemma HasAfterAppend(rooms: seq<Room>, room: Room)
    ensures forall n :: Has(rooms + [room], n) <==> Has(rooms, n) || n == room.name
  {
    assert (rooms + [room])[|rooms|] == room;
    forall n | Has(rooms, n) ensures Has(rooms + [room], n) {
      var i :| 0 <= i < |rooms| && rooms[i].name == n;
      assert (rooms + [room])[i].name == n;
    }
  }

  lemma JoinsAnew(rooms: seq<Room>, ledger: Ledger, room: Room, now: nat)
    requires Follows(rooms, ledger) && room.name !in ledger && Before(ledger, now)
    ensures Follows(rooms + [room], Admits(ledger, room, now))
  {
    var ledger' := Admits(ledger, room, now);
    forall i | 0 <= i < |rooms|
      ensures Listed(rooms[i], ledger') && Since(ledger', rooms[i].name) == Since(ledger, rooms[i].name) < now
    {
      StaysListed(rooms, ledger, room, now, i);
    }
    HasAfterAppend(rooms, room);
  }

  lemma RestListed(rooms: seq<Room>, ledger: Ledger, k: nat, i: nat)
    requires AllListed(rooms, ledger) && NamesDiffer(rooms) && k < |rooms| && i < |rooms| - 1
    ensures var ledger', name := ledger - {rooms[k].name}, rooms[Was(i, k)].name;
            Listed(Rest(rooms, k)[i], ledger') && Since(ledger', name) == Since(ledger, name)
  {
    assert Listed(rooms[Was(i, k)], ledger);
    assert if i < k then rooms[i].name != rooms[k].name else rooms[k].name != rooms[i + 1].name;
  }

  lemma RestHas(rooms: seq<Room>, k: nat, name: string)
    requires k < |rooms| && Has(rooms, name) && name != rooms[k].name
    ensures Has(Rest(rooms, k), name)
  {
    var i :| 0 <= i < |rooms| && rooms[i].name == name;
    var j := if i < k then i else i - 1;
    assert Was(j, k) == i && Rest(rooms, k)[j].name == name;
  }

  lemma Leaves(rooms: seq<Room>, ledger: Ledger, k: nat)
    requires Follows(rooms, ledger) && k < |rooms|
    ensures Follows(Rest(rooms, k), ledger - {rooms[k].name})
  {
    var rest, ledger' := Rest(rooms, k), ledger - {rooms[k].name};
    OrderedDiffer(rooms, ledger);
    forall i | 0 <= i < |rest|
      ensures Listed(rest[i], ledger') && Since(ledger', rest[i].name) == Since(ledger, rooms[Was(i, k)].name)
    {
      RestListed(rooms, ledger, k, i);
    }
    forall n | n in ledger' ensures Has(rest, n) { RestHas(rooms, k, n); }
  }

  lemma JoinFollows(rooms: seq<Room>, ledger: Ledger, room: Room, now: nat)
    requires Follows(rooms, ledger) && Before(ledger, now)
    ensures Follows(Put(rooms, room), Admits(ledger, room, now))
  {
    FollowersDiffer(rooms, ledger);
    if room.name in ledger {
      var k :| 0 <= k < |rooms| && rooms[k].name == room.name;
      PutInPlace(rooms, room, k);
      JoinsAgain(rooms, ledger, room, now, k);
    } else {
      PutAtEnd(rooms, room);
      JoinsAnew(rooms, ledger, room, now);
    }
  }

  lemma LeavesAt(rooms: seq<Room>, ledger: Ledger, k: nat)
    requires Follows(rooms, ledger) && k < |rooms|
    ensures Follows(Delete(rooms, rooms[k].name), ledger - {rooms[k].name})
  {
    OrderedDiffer(rooms, ledger);
    DeleteAt(rooms, rooms[k].name, k);
    Leaves(rooms, ledger, k);
  }

  lemma LeaveFollows(rooms: seq<Room>, ledger: Ledger, name: string)
    requires Follows(rooms, ledger)
    ensures Follows(Delete(rooms, name), ledger - {name})
  {
    FollowersDiffer(rooms, ledger);
    if name in ledger {
      var k :| 0 <= k < |rooms| && rooms[k].name == name;
      LeavesAt(rooms, ledger, k);
    } else {
      DeleteNothing(rooms, name);
      assert ledger - {name} == ledger;
    }
  }

  // Opening a socket, closing it and the rest leave the rooms alone
  lemma OthersKeepRooms(s: State, ev: Event)
    requires Inv(s) && !ev.Disconnect? && !ev.Send?
    ensures Next(s, ev).rooms == s.rooms
  {
    if ev.Opens? && Enabled(s, ev) {
      RejoinKeepsTraced(Opened(s, ev.i));
      FlushSendsAll(MaybeRejoined(Opened(s, ev.i)));
    }
  }

  lemma SendRooms(s: State, kind: Kind, room: Room)
    ensures Next(s, Send(kind, room)).rooms == if TooMany(s, kind, room) then s.rooms else Rooms(s, kind, room)
  {
  }

  lemma CallFollows(rooms: seq<Room>, ledger: Ledger, kind: Kind, room: Room, now: nat, rooms': seq<Room>)
    requires Follows(rooms, ledger) && Before(ledger, now)
    requires rooms' == match kind
                       case Join => if !Has(rooms, room.name) && |rooms| >= 5 then rooms else Put(rooms, room)
                       case Leave => Delete(rooms, room.name)
                       case _ => rooms
    ensures Follows(rooms', AfterCall(ledger, kind, room, now))
  {
    match kind {
      case Join =>
        FollowersDiffer(rooms, ledger);
        JoinFollows(rooms, ledger, room, now);
      case Leave => LeaveFollows(rooms, ledger, room.name);
      case _ =>
    }
  }

  lemma SendFollows(s: State, before: seq<Event>, kind: Kind, room: Room)
    requires Follows(s.rooms, Booked(before))
    ensures Follows(Next(s, Send(kind, room)).rooms, AfterCall(Booked(before), kind, room, |before| + 1))
  {
    BookedBefore(before);
    SendRooms(s, kind, room);
    CallFollows(s.rooms, Booked(before), kind, room, |before| + 1, Next(s, Send(kind, room)).rooms);
  }

  lemma OtherFollows(s: State, before: seq<Event>, ev: Event)
    requires Inv(s) && Follows(s.rooms, Booked(before)) && !ev.Send?
    ensures Follows(Next(s, ev).rooms, if ev.Disconnect? then map[] else Booked(before))
  {
    if !ev.Disconnect? { OthersKeepRooms(s, ev); }
  }

  lemma BookedOneMore(before: seq<Event>, ev: Event)
    ensures Booked(before + [ev]) ==
            match ev
            case Send(kind, room) => AfterCall(Booked(before), kind, room, |before| + 1)
            case Disconnect => map[]
            case _ => Booked(before)
  {
    assert (before + [ev])[..|before|] == before;
  }

  lemma StepFollows(s: State, before: seq<Event>, ev: Event)
    requires Inv(s) && Follows(s.rooms, Booked(before))
    ensures Follows(Next(s, ev).rooms, Booked(before + [ev]))
  {
    BookedOneMore(before, ev);
    if ev.Send? { SendFollows(s, before, ev.kind, ev.room); } else { OtherFollows(s, before, ev); }
  }

  lemma {:induction false} RunAppends(s: State, events: seq<Event>, ev: Event)
    ensures Run(s, events + [ev]) == Next(Run(s, events), ev)
    decreases |events|
  {
    if events == [] {
      assert [ev][1..] == [];
    } else {
      assert (events + [ev])[1..] == events[1..] + [ev];
      RunAppends(Next(s, events[0]), events[1..], ev);
    }
  }

  /**
   After any run the joined rooms are those with an accepted join and no leave or disconnect since, each once, with
   the payload of the latest join, in the order in which they came in. A join is refused exactly if five
   other rooms are joined.
   */
  lemma {:induction false} RoomsFollowCalls(events: seq<Event>)
    ensures Follows(Run(START, events).rooms, Booked(events))
    ensures forall n :: Has(Run(START, events).rooms, n) <==> n in Booked(events)
    decreases |events|
  {
    if events != [] {
      var before, ev := events[..|events| - 1], events[|events| - 1];
      assert events == before + [ev];
      RoomsFollowCalls(before);
      RunKeepsInv(START, before);
      RunAppends(START, before, ev);
      StepFollows(Run(START, before), before, ev);
    }
    FollowersDiffer(Run(START, events).rooms, Booked(events));
  }
}
