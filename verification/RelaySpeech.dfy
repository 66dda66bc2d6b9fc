/**
 What a message does when no other task moves: every other member of the room gets it whose channel is open and
 holds fewer than 256 items, the others are taken out of the room, and nothing else changes. And what a channel has
 accepted is all written, if its peer's write task goes on.
 */
module RelaySpeech {
  import opened Options
  import opened RelayRegistry
  import opened RelayInvariant
  import opened RelayFanOut
  import opened RelayDelivery
  import opened RelayAlone

  predicate Roomy(ch: Channel) {
    !ch.closed && |ch.queue| < 256
  }

  // The channels once fan-out k has been offered to these peers
  function Given(channels: map<Conn, Channel>, to: set<Conn>, k: nat): map<Conn, Channel> {
    map p | p in channels ::
      if p in to && Roomy(channels[p])
      then channels[p].(queue := channels[p].queue + [Fan(k)], got := channels[p].got + [k]) else channels[p]
  }

  function Slow(channels: map<Conn, Channel>, to: set<Conn>): set<Conn> {
    set p | p in to && p in channels && !Roomy(channels[p])
  }

  // Sections of c alone lead from one to the other
  ghost predicate Does(h: Hub, h': Hub, c: Conn) {
    exists events :: Feasible(h, events) && Played(h, events) == h' && SectionsOf(events, c)
  }

  predicate SectionsOf(events: seq<Event>, c: Conn) {
    forall k | 0 <= k < |events| :: events[k].Section? && events[k].action.c == c
  }

  lemma DoesNothing(h: Hub, c: Conn)
    ensures Does(h, h, c)
  {
    assert Feasible(h, []) && Played(h, []) == h && SectionsOf([], c);
  }

  lemma DoesOn(h: Hub, m: Hub, a: Action, h': Hub)
    requires Does(h, m, a.c) && Possible(m, Section(a)) && Step(m, Section(a)) == h'
    ensures Does(h, h', a.c)
  {
    var events :| Feasible(h, events) && Played(h, events) == m && SectionsOf(events, a.c);
    RelayDelivery.RunExtends(h, events, Section(a));
    assert SectionsOf(events + [Section(a)], a.c);
  }

  // ---- One try_send ----

  function AfterOffer(h: Hub, c: Conn, p: Conn, r: RoomId, left: set<Conn>, stale: set<Conn>, k: nat): Hub
    requires c in h.registry.tasks && p in h.channels
  {
    h.(registry := Goto(h.registry, c, FanLoop(r, left - {p}, stale + Slow(h.channels, {p}))),
       channels := Given(h.channels, {p}, k))
  }

  lemma OffersOne(h: Hub, c: Conn, p: Conn, r: RoomId, left: set<Conn>, stale: set<Conn>, k: nat)
    requires c in h.registry.tasks && h.registry.tasks[c].pc == FanLoop(r, left, stale) && p in left && p in h.channels
    requires c in h.sending && h.sending[c] == k
    ensures var e := Section(Offer(c, p, Roomy(h.channels[p])));
            Possible(h, e) && Step(h, e) == AfterOffer(h, c, p, r, left, stale, k)
  {
    var ch := h.channels[p];
    if Roomy(ch) {
      assert Given(h.channels, {p}, k) == h.channels[p := Take(ch, Fan(k))];
      assert stale + Slow(h.channels, {p}) == stale;
    } else {
      assert Given(h.channels, {p}, k) == h.channels;
      assert stale + Slow(h.channels, {p}) == stale + {p};
    }
  }

  lemma GivenTwice(channels: map<Conn, Channel>, p: Conn, rest: set<Conn>, k: nat)
    requires p !in rest && p in channels
    ensures Given(Given(channels, {p}, k), rest, k) == Given(channels, {p} + rest, k)
    ensures Slow(channels, {p}) + Slow(Given(channels, {p}, k), rest) == Slow(channels, {p} + rest)
  {
  }

  lemma NoneLeft(h: Hub, c: Conn, r: RoomId, stale: set<Conn>, k: nat)
    requires c in h.registry.tasks && h.registry.tasks[c].pc == FanLoop(r, {}, stale)
    ensures h == h.(registry := Goto(h.registry, c, FanLoop(r, {}, stale + Slow(h.channels, {}))),
                    channels := Given(h.channels, {}, k))
  {
    assert Given(h.channels, {}, k) == h.channels && stale + Slow(h.channels, {}) == stale;
    assert h.registry.tasks[c := h.registry.tasks[c].(pc := FanLoop(r, {}, stale))] == h.registry.tasks;
  }

  // One offer and then the others are all of them
  lemma OneAndOthers(h: Hub, c: Conn, p: Conn, r: RoomId, left: set<Conn>, stale: set<Conn>, k: nat)
    requires c in h.registry.tasks && p in left && p in h.channels
    ensures var m, rest := AfterOffer(h, c, p, r, left, stale, k), left - {p};
            m.(registry := Goto(m.registry, c, FanLoop(r, {}, stale + Slow(h.channels, {p}) + Slow(m.channels, rest))),
               channels := Given(m.channels, rest, k))
            == h.(registry := Goto(h.registry, c, FanLoop(r, {}, stale + Slow(h.channels, left))),
                  channels := Given(h.channels, left, k))
  {
    GivenTwice(h.channels, p, left - {p}, k);
    assert {p} + (left - {p}) == left;
    var m := AfterOffer(h, c, p, r, left, stale, k);
    assert stale + Slow(h.channels, {p}) + Slow(m.channels, left - {p}) == stale + Slow(h.channels, left);
    GotoTwice(h.registry, c, m.registry.tasks[c].pc, FanLoop(r, {}, stale + Slow(h.channels, left)));
  }

  // The loop
  lemma {:induction false} OffersAll(h0: Hub, h: Hub, c: Conn, r: RoomId, left: set<Conn>, stale: set<Conn>, k: nat)
    returns (h': Hub)
    requires Does(h0, h, c) && c in h.registry.tasks && h.registry.tasks[c].pc == FanLoop(r, left, stale)
    requires left <= h.channels.Keys && c in h.sending && h.sending[c] == k
    ensures Does(h0, h', c)
    ensures h' == h.(registry := Goto(h.registry, c, FanLoop(r, {}, stale + Slow(h.channels, left))),
                     channels := Given(h.channels, left, k))
    decreases left
  {
    if left == {} {
      NoneLeft(h, c, r, stale, k);
      h' := h;
    } else {
      var p :| p in left;
      OffersOne(h, c, p, r, left, stale, k);
      var m := AfterOffer(h, c, p, r, left, stale, k);
      DoesOn(h0, h, Offer(c, p, Roomy(h.channels[p])), m);
      h' := OffersAll(h0, m, c, r, left - {p}, stale + Slow(h.channels, {p}), k);
      OneAndOthers(h, c, p, r, left, stale, k);
    }
  }

  lemma GotoTwice(s: State, c: Conn, a: Pc, b: Pc)
    requires c in s.tasks
    ensures Goto(Goto(s, c, a), c, b) == Goto(s, c, b)
  {
    assert s.tasks[c := s.tasks[c].(pc := a)][c := s.tasks[c].(pc := b)] == s.tasks[c := s.tasks[c].(pc := b)];
  }

  // ---- Before and after the loop ----

  lemma Asks(h: Hub, c: Conn, n: Name)
    requires c in h.registry.tasks && h.registry.tasks[c] == Task(Some(n), Reading)
    ensures Possible(h, Section(Receive(c, Say)))
    ensures Step(h, Section(Receive(c, Say))) == h.(registry := Goto(h.registry, c, FanLookup(n)))
  {
  }

  lemma LooksUpRoom(h: Hub, c: Conn, n: Name)
    requires Alone(h.registry, c) && h.registry.tasks[c].pc == FanLookup(n) && n in h.registry.mapped
    ensures Possible(h, Section(Advance(c)))
    ensures Step(h, Section(Advance(c))) == h.(registry := Goto(h.registry, c, FanSend(h.registry.mapped[n])))
  {
  }

  lemma Begin(h: Hub, c: Conn, r: RoomId)
    requires Alone(h.registry, c) && h.registry.tasks[c].pc == FanSend(r)
    ensures Possible(h, Section(Advance(c)))
    ensures Step(h, Section(Advance(c))) ==
            h.(registry := Goto(h.registry, c, FanLoop(r, h.registry.rooms[r].members - {c}, {})),
               log := h.log + [Sent(r, c)], sending := h.sending[c := |h.log|])
  {
  }

  lemma BeginsAlone(h: Hub, c: Conn, n: Name) returns (h': Hub)
    requires Alone(h.registry, c) && h.registry.tasks[c] == Task(Some(n), Reading) && n in h.registry.mapped
    ensures Does(h, h', c)
    ensures var s, r := h.registry, h.registry.mapped[n];
            h' == h.(registry := Goto(s, c, FanLoop(r, s.rooms[r].members - {c}, {})),
                     log := h.log + [Sent(r, c)], sending := h.sending[c := |h.log|])
  {
    var s, r := h.registry, h.registry.mapped[n];
    var m := FindsRoom(h, c, n);
    Begin(m, c, r);
    GotoTwice(s, c, FanSend(r), FanLoop(r, s.rooms[r].members - {c}, {}));
    h' := h.(registry := Goto(s, c, FanLoop(r, s.rooms[r].members - {c}, {})),
             log := h.log + [Sent(r, c)], sending := h.sending[c := |h.log|]);
    DoesOn(h, m, Advance(c), h');
  }

  lemma FindsRoom(h: Hub, c: Conn, n: Name) returns (h': Hub)
    requires Alone(h.registry, c) && h.registry.tasks[c] == Task(Some(n), Reading) && n in h.registry.mapped
    ensures Does(h, h', c) && Alone(h'.registry, c)
    ensures h' == h.(registry := Goto(h.registry, c, FanSend(h.registry.mapped[n])))
  {
    var s, r := h.registry, h.registry.mapped[n];
    DoesNothing(h, c);
    Asks(h, c, n);
    var m := h.(registry := Goto(s, c, FanLookup(n)));
    DoesOn(h, h, Receive(c, Say), m);
    LooksUpRoom(m, c, n);
    GotoTwice(s, c, FanLookup(n), FanSend(r));
    h' := h.(registry := Goto(s, c, FanSend(r)));
    DoesOn(h, m, Advance(c), h');
  }

  lemma LetsGo(h: Hub, c: Conn, r: RoomId, stale: set<Conn>)
    requires Alone(h.registry, c) && c in h.sending && h.registry.tasks[c].pc == FanLoop(r, {}, stale)
    ensures Possible(h, Section(Advance(c)))
    ensures Step(h, Section(Advance(c))) ==
            h.(registry := Goto(h.registry, c, if stale == {} then Reading else FanEvict(r, stale)),
               ends := h.ends[h.sending[c] := |h.log|])
  {
  }

  lemma Evicts(h: Hub, c: Conn, r: RoomId, stale: set<Conn>)
    requires Alone(h.registry, c) && h.registry.tasks[c].pc == FanEvict(r, stale)
    ensures Possible(h, Section(Advance(c)))
    ensures var s := h.registry;
            Step(h, Section(Advance(c)))
            == h.(registry := Goto(SetMembers(s, r, s.rooms[r].members - stale), c, Reading))
  {
  }

  lemma SameMembers(s: State, r: RoomId, stale: set<Conn>)
    requires r < |s.rooms| && stale == {}
    ensures SetMembers(s, r, s.rooms[r].members - stale) == s
  {
    assert s.rooms[r].members - stale == s.rooms[r].members;
    assert s.rooms[r := s.rooms[r]] == s.rooms;
  }

  lemma EndsAlone(h0: Hub, h: Hub, c: Conn, r: RoomId, stale: set<Conn>) returns (h': Hub)
    requires Does(h0, h, c) && Alone(h.registry, c) && c in h.sending
    requires h.registry.tasks[c].pc == FanLoop(r, {}, stale)
    ensures Does(h0, h', c)
    ensures var s := h.registry;
            && h'.registry == Goto(SetMembers(s, r, s.rooms[r].members - stale), c, Reading)
            && h'.channels == h.channels && h'.log == h.log
  {
    var s := h.registry;
    var pc := if stale == {} then Reading else FanEvict(r, stale);
    LetsGo(h, c, r, stale);
    h' := h.(registry := Goto(s, c, pc), ends := h.ends[h.sending[c] := |h.log|]);
    DoesOn(h0, h, Advance(c), h');
    if stale == {} {
      SameMembers(s, r, stale);
    } else {
      var s', m := SetMembers(s, r, s.rooms[r].members - stale), h';
      Evicts(m, c, r, stale);
      GotoTwice(s', c, pc, Reading);
      h' := m.(registry := Goto(s', c, Reading));
      DoesOn(h0, m, Advance(c), h');
    }
  }

  lemma NobodyWrites(s: State)
    requires WriterHolds(s) && AllRest(s)
    ensures s.writer == None
  {
  }

  lemma MembersStay(s: State, n: Name, members: set<Conn>)
    requires MapInRange(s) && n in s.mapped
    ensures MapInRange(SetMembers(s, s.mapped[n], members))
    ensures Rooms(SetMembers(s, s.mapped[n], members)) == Rooms(s)[n := members]
  {
  }

  /**
   A message with nobody else moving: each other member of the room whose channel is open and holds fewer than 256 items
   gets it behind what its channel holds, the others are no longer members, and nothing else has changed.
   */
  lemma SayAlone(h: Hub, c: Conn, n: Name) returns (h': Hub)
    requires RelayDelivery.Reachable(h) && AllRest(h.registry)
    requires c in h.registry.tasks && h.registry.tasks[c] == Task(Some(n), Reading) && n in h.registry.mapped
    ensures Does(h, h', c) && MapInRange(h.registry) && MapInRange(h'.registry)
    ensures var others := Rooms(h.registry)[n] - {c};
            && h'.channels == Given(h.channels, others, |h.log|)
            && Rooms(h'.registry) == Rooms(h.registry)[n := Rooms(h.registry)[n] - Slow(h.channels, others)]
            && h'.registry.tasks == h.registry.tasks
            && h'.log == h.log + [Sent(h.registry.mapped[n], c)]
  {
    ReachableSound(h);
    NobodyWrites(h.registry);
    h' := SaysAll(h, c, n);
  }

  lemma SaysAll(h: Hub, c: Conn, n: Name) returns (h': Hub)
    requires Alone(h.registry, c) && h.registry.tasks[c] == Task(Some(n), Reading) && n in h.registry.mapped
    requires Rooms(h.registry)[n] <= h.channels.Keys
    ensures Does(h, h', c) && MapInRange(h'.registry)
    ensures var others := Rooms(h.registry)[n] - {c};
            && h'.channels == Given(h.channels, others, |h.log|)
            && Rooms(h'.registry) == Rooms(h.registry)[n := Rooms(h.registry)[n] - Slow(h.channels, others)]
            && h'.registry.tasks == h.registry.tasks
            && h'.log == h.log + [Sent(h.registry.mapped[n], c)]
  {
    var s, r := h.registry, h.registry.mapped[n];
    var others := s.rooms[r].members - {c};
    var slow := Slow(h.channels, others);
    var h1 := BeginsAlone(h, c, n);
    var h2 := OffersAll(h, h1, c, r, others, {}, |h.log|);
    assert {} + slow == slow;
    GotoTwice(s, c, FanLoop(r, others, {}), FanLoop(r, {}, slow));
    h' := EndsAlone(h, h2, c, r, slow);
    BackToReading(s, c, FanLoop(r, {}, slow), r, s.rooms[r].members - slow);
    MembersStay(s, n, s.rooms[r].members - slow);
  }

  lemma BackToReading(s: State, c: Conn, pc: Pc, r: RoomId, members: set<Conn>)
    requires c in s.tasks && s.tasks[c].pc.Reading? && r < |s.rooms|
    ensures Goto(SetMembers(Goto(s, c, pc), r, members), c, Reading) == SetMembers(s, r, members)
  {
    assert s.tasks[c := s.tasks[c].(pc := pc)][c := s.tasks[c]] == s.tasks;
  }

  // ---- The write task ----

  // While it goes on, everything accepted is written
  lemma {:induction false} AllIsWritten(h: Hub, p: Conn) returns (h': Hub)
    requires RelayDelivery.Reachable(h) && p in h.channels && !h.channels[p].closed
    ensures RelayDelivery.Reachable(h') && h' == h.(channels := h'.channels)
    ensures h'.channels == h.channels[p := h.channels[p].(queue := [], written := h.channels[p].got)]
    decreases |h.channels[p].queue|
  {
    WireIsPrefixOfAccepted(h, p);
    if h.channels[p].queue == [] {
      h' := h;
      assert h.channels[p].written + [] == h.channels[p].written;
    } else {
      ReachableStep(h, Written(p));
      var m := Step(h, Written(p));
      h' := AllIsWritten(m, p);
      assert m.channels[p].got == h.channels[p].got;
      assert h'.channels == h.channels[p := h'.channels[p]];
    }
  }

  // ---- How full a channel is ----

  // What an event adds to the peer's queue
  function Load(h: Hub, e: Event, p: Conn): int
    requires Possible(h, e)
  {
    match e
    case Section(Offer(_, q, ok)) => if q == p && ok then 1 else 0
    case Notified(q) => if q == p && p in h.channels && Roomy(h.channels[p]) then 1 else 0
    case Written(q) => if q == p && p in h.channels && !h.channels[p].closed && h.channels[p].queue != [] then -1 else 0
    case _ => 0
  }

  function Loads(h: Hub, events: seq<Event>, p: Conn): int
    requires Feasible(h, events)
    decreases |events|
  {
    if events == [] then 0 else Load(h, events[0], p) + Loads(Step(h, events[0]), events[1..], p)
  }

  lemma StepLoads(h: Hub, e: Event, p: Conn)
    requires Possible(h, e) && p in h.registry.tasks && p in h.channels && h.registry.tasks.Keys == h.channels.Keys
    ensures p in Step(h, e).channels && |Step(h, e).channels[p].queue| == |h.channels[p].queue| + Load(h, e, p)
    ensures h.channels[p].closed || (e == SinkFails(p)) <==> Step(h, e).channels[p].closed
  {
  }

  // A queue holds the offers that came through and the notices that found room, less what was written
  lemma {:induction false} QueueIsLoad(h: Hub, events: seq<Event>, p: Conn)
    requires Sound(h) && Inv(h.registry) && Feasible(h, events) && p in h.channels
    ensures p in Played(h, events).channels
    ensures |Played(h, events).channels[p].queue| == |h.channels[p].queue| + Loads(h, events, p)
    ensures Played(h, events).channels[p].closed <==> h.channels[p].closed || SinkFails(p) in events
    decreases |events|
  {
    if events != [] {
      StepLoads(h, events[0], p);
      StepKeepsSound(h, events[0]);
      if events[0].Section? { NextKeepsInv(h.registry, events[0].action); }
      QueueIsLoad(Step(h, events[0]), events[1..], p);
    }
  }
}
