/**
 Runs of the relay in which a member misses a fan-out that it is about to be evicted for, and in which two members
 receive two fan-outs in opposite orders.
 */
module RelayRuns {
  import opened Options
  import opened RelayRegistry
  import opened RelayFanOut
  import opened RelayDelivery

  function Standing(n: Name, members: set<Conn>): State {
    State(map[n := 0], [Room(n, members)], map c | c in members :: Task(Some(n), Reading), None)
  }

  // A step outside the reading half of a fan-out
  lemma Moves(h: Hub, a: Action, s': State) returns (h': Hub)
    requires Reachable(h) && RelayRegistry.Enabled(h.registry, a) && s' == RelayRegistry.Next(h.registry, a)
    requires !a.Offer? && !a.Connect? && !Begins(h.registry, a) && !EndsLoop(h.registry, a)
    ensures Reachable(h') && h'.registry == s' && h'.channels == h.channels && h'.log == h.log
            && h'.sending == h.sending
  {
    ReachableStep(h, Section(a));
    h' := Step(h, Section(a));
  }

  lemma Connects(h: Hub, c: Conn) returns (h': Hub)
    requires Reachable(h) && c !in h.registry.tasks
    ensures Reachable(h') && h'.registry == SetTask(h.registry, c, Task(None, Reading))
    ensures h'.channels == h.channels[c := FRESH] && h'.log == h.log && h'.sending == h.sending
  {
    ReachableStep(h, Section(Connect(c)));
    h' := Step(h, Section(Connect(c)));
  }

  lemma SetTwice(s: State, c: Conn, t: Task, u: Task)
    ensures SetTask(SetTask(s, c, t), c, u) == SetTask(s, c, u)
  {
    assert s.tasks[c := t][c := u] == s.tasks[c := u];
  }

  // From connecting to looking the room up
  lemma AsksToJoin(h: Hub, c: Conn, n: Name) returns (h': Hub)
    requires Reachable(h) && c !in h.registry.tasks
    ensures Reachable(h') && h'.registry == SetTask(h.registry, c, Task(None, JoinLookup(n)))
    ensures h'.channels == h.channels[c := FRESH] && h'.log == h.log && h'.sending == h.sending
  {
    h' := Connects(h, c);
    SetTwice(h.registry, c, Task(None, Reading), Task(None, JoinLookup(n)));
    h' := Moves(h', Receive(c, Join(n)), SetTask(h.registry, c, Task(None, JoinLookup(n))));
  }

  lemma FirstLooksUp(n: Name) returns (h: Hub)
    ensures Reachable(h)
    ensures h.registry == State(map[n := 0], [Room(n, {})], map[1 := Task(None, JoinInsert(n, 0))], None)
    ensures h.channels == map[1 := FRESH] && h.log == []
  {
    QuietIsReachable();
    h := AsksToJoin(QUIET, 1, n);
    FirstCreates(n);
    h := Moves(h, Advance(1), State(map[n := 0], [Room(n, {})], map[1 := Task(None, JoinInsert(n, 0))], None));
  }

  lemma QuietIsReachable()
    ensures Reachable(QUIET)
  {
    assert Feasible(QUIET, []) && Played(QUIET, []) == QUIET;
  }

  lemma FirstCreates(n: Name)
    ensures var s := SetTask(INIT, 1, Task(None, JoinLookup(n)));
            && RelayRegistry.Enabled(s, Advance(1))
            && RelayRegistry.Next(s, Advance(1))
               == State(map[n := 0], [Room(n, {})], map[1 := Task(None, JoinInsert(n, 0))], None)
  {
  }

  lemma FirstComes(n: Name) returns (h: Hub)
    ensures Reachable(h) && h.registry == Standing(n, {1}) && h.channels == map[1 := FRESH] && h.log == []
  {
    h := FirstLooksUp(n);
    FirstInserts(n);
    h := Moves(h, Advance(1), Standing(n, {1}));
  }

  lemma FirstInserts(n: Name)
    ensures var s := State(map[n := 0], [Room(n, {})], map[1 := Task(None, JoinInsert(n, 0))], None);
            RelayRegistry.Enabled(s, Advance(1)) && RelayRegistry.Next(s, Advance(1)) == Standing(n, {1})
  {
    var s := State(map[n := 0], [Room(n, {})], map[1 := Task(None, JoinInsert(n, 0))], None);
    assert RelayRegistry.Next(s, Advance(1)).tasks == Standing(n, {1}).tasks;
    assert RelayRegistry.Next(s, Advance(1)).rooms == [Room(n, {1})];
  }

  lemma AnotherComes(h: Hub, n: Name, members: set<Conn>, c: Conn) returns (h': Hub)
    requires Reachable(h) && h.registry == Standing(n, members) && |members| < 50 && c !in members
    ensures Reachable(h') && h'.registry == Standing(n, members + {c}) && h'.log == h.log
    ensures h'.channels == h.channels[c := FRESH]
  {
    h' := AnotherLooksUp(h, n, members, c);
    h' := ComesIn(h', h'.registry, n, members, c);
  }

  lemma AnotherLooksUp(h: Hub, n: Name, members: set<Conn>, c: Conn) returns (h': Hub)
    requires Reachable(h) && h.registry == Standing(n, members) && c !in members
    ensures Reachable(h') && h'.registry == SetTask(Standing(n, members), c, Task(None, JoinInsert(n, 0)))
    ensures h'.channels == h.channels[c := FRESH] && h'.log == h.log
  {
    h' := AsksToJoin(h, c, n);
    SetTwice(h.registry, c, Task(None, JoinLookup(n)), Task(None, JoinInsert(n, 0)));
    h' := Moves(h', Advance(c), SetTask(h.registry, c, Task(None, JoinInsert(n, 0))));
  }

  lemma ComesIn(h: Hub, s: State, n: Name, members: set<Conn>, c: Conn) returns (h': Hub)
    requires Reachable(h) && h.registry == s && s == SetTask(Standing(n, members), c, Task(None, JoinInsert(n, 0)))
    requires |members| < 50 && c !in members
    ensures Reachable(h') && h'.registry == Standing(n, members + {c}) && h'.log == h.log && h'.channels == h.channels
  {
    var s' := Standing(n, members + {c});
    assert s'.tasks == s.tasks[c := Task(Some(n), Reading)];
    h' := Moves(h, Advance(c), s');
  }

  function Notices(k: nat): seq<Item> {
    if k == 0 then [] else Notices(k - 1) + [Notice]
  }

  lemma {:induction false} NoticesCome(h: Hub, p: Conn, k: nat) returns (h': Hub)
    requires Reachable(h) && p in h.channels && h.channels[p] == FRESH && k <= PEER_CHANNEL_CAP
    ensures Reachable(h') && h'.registry == h.registry && h'.log == h.log && |Notices(k)| == k
    ensures h'.channels == h.channels[p := FRESH.(queue := Notices(k))]
  {
    if k == 0 {
      h' := h;
    } else {
      var h1 := NoticesCome(h, p, k - 1);
      ReachableStep(h1, Notified(p));
      h' := Step(h1, Notified(p));
    }
  }

  function NoticesOnly(k: nat): Channel {
    FRESH.(queue := Notices(k))
  }

  lemma ThreeStand(n: Name) returns (h: Hub)
    ensures Reachable(h) && h.registry == Standing(n, {1, 2, 3}) && h.log == []
    ensures h.channels == map[1 := FRESH, 2 := FRESH, 3 := FRESH]
  {
    h := FirstComes(n);
    h := AnotherComes(h, n, {1}, 2);
    assert {1} + {2} == {1, 2};
    h := AnotherComes(h, n, {1, 2}, 3);
    assert {1, 2} + {3} == {1, 2, 3};
  }

  // Everybody is in the room, and the third peer's channel is full
  lemma RoomStands(n: Name) returns (h: Hub)
    ensures Reachable(h) && h.registry == Standing(n, {1, 2, 3}) && h.log == [] && |Notices(256)| == 256
    ensures h.channels == map[1 := FRESH, 2 := FRESH, 3 := NoticesOnly(256)]
  {
    h := ThreeStand(n);
    h := NoticesCome(h, 3, 256);
  }

  function InRoom(n: Name, pc: Pc): Task {
    Task(Some(n), pc)
  }

  // Everybody in the one room, whatever they do
  predicate Gathered(s: State, n: Name, members: set<Conn>) {
    s.mapped == map[n := 0] && s.rooms == [Room(n, members)] && s.writer == None
  }

  lemma FindsRoom(h: Hub, c: Conn, n: Name, members: set<Conn>) returns (h': Hub)
    requires Reachable(h) && Gathered(h.registry, n, members) && c in h.registry.tasks
    requires h.registry.tasks[c] == InRoom(n, Reading)
    ensures Reachable(h') && h'.registry == SetTask(h.registry, c, InRoom(n, FanSend(0)))
    ensures h'.channels == h.channels && h'.log == h.log && h'.sending == h.sending
  {
    var s1 := SetTask(h.registry, c, InRoom(n, FanLookup(n)));
    h' := Moves(h, Receive(c, Say), s1);
    var s2 := SetTask(h.registry, c, InRoom(n, FanSend(0)));
    assert s1.tasks[c := InRoom(n, FanSend(0))] == s2.tasks;
    h' := Moves(h', Advance(c), s2);
  }

  lemma StartsLoop(h: Hub, c: Conn, n: Name, members: set<Conn>) returns (h': Hub)
    requires Reachable(h) && h.registry.rooms == [Room(n, members)] && c in h.registry.tasks
    requires h.registry.tasks[c] == InRoom(n, FanSend(0))
             && (forall m | m in h.registry.mapped :: h.registry.mapped[m] == 0)
    ensures Reachable(h') && h'.registry == SetTask(h.registry, c, InRoom(n, FanLoop(0, members - {c}, {})))
    ensures h'.channels == h.channels && h'.log == h.log + [Sent(0, c)] && h'.sending == h.sending[c := |h.log|]
  {
    ReachableStep(h, Section(Advance(c)));
    h' := Step(h, Section(Advance(c)));
  }

  // A member comes as far as its loop over the others
  lemma BeginsToSpeak(h: Hub, c: Conn, n: Name, members: set<Conn>) returns (h': Hub)
    requires Reachable(h) && Gathered(h.registry, n, members) && c in h.registry.tasks
    requires h.registry.tasks[c] == InRoom(n, Reading)
    ensures Reachable(h') && h'.registry == SetTask(h.registry, c, InRoom(n, FanLoop(0, members - {c}, {})))
    ensures h'.channels == h.channels && h'.log == h.log + [Sent(0, c)] && h'.sending == h.sending[c := |h.log|]
  {
    h' := FindsRoom(h, c, n, members);
    h' := StartsLoop(h', c, n, members);
    SetTwice(h.registry, c, InRoom(n, FanSend(0)), InRoom(n, FanLoop(0, members - {c}, {})));
  }

  // One try_send
  lemma Offers(h: Hub, c: Conn, p: Conn, n: Name, left: set<Conn>, stale: set<Conn>) returns (h': Hub)
    requires Reachable(h) && c in h.registry.tasks && h.registry.tasks[c] == InRoom(n, FanLoop(0, left, stale))
             && p in left
    requires c in h.sending
    ensures Reachable(h') && h'.log == h.log && h'.sending == h.sending
    ensures var ok := CanTake(h.channels, p);
            && h'.registry
               == SetTask(h.registry, c, InRoom(n, FanLoop(0, left - {p}, if ok then stale else stale + {p})))
            && h'.channels == if ok then h.channels[p := Take(h.channels[p], Fan(h.sending[c]))] else h.channels
  {
    var e := Section(Offer(c, p, CanTake(h.channels, p)));
    ReachableStep(h, e);
    h' := Step(h, e);
  }

  // With everybody offered the message, and some of them stale
  lemma StopsLoop(h: Hub, c: Conn, n: Name, members: set<Conn>, stale: set<Conn>) returns (h': Hub)
    requires Reachable(h) && Gathered(h.registry, n, members) && c in h.registry.tasks && c in h.sending
    requires h.registry.tasks[c] == InRoom(n, FanLoop(0, {}, stale)) && stale != {}
    ensures Reachable(h') && h'.registry == SetTask(h.registry, c, InRoom(n, FanEvict(0, stale)))
    ensures h'.channels == h.channels && h'.log == h.log && h'.sending == h.sending
  {
    ReachableStep(h, Section(Advance(c)));
    h' := Step(h, Section(Advance(c)));
  }

  // ---- A gap, and still a member ----

  // Peer 3's channel is full when peer 1 sends
  lemma FirstBegins(n: Name) returns (h: Hub)
    ensures Reachable(h) && Gathered(h.registry, n, {1, 2, 3}) && h.log == [Sent(0, 1)]
            && h.registry.tasks.Keys == {1, 2, 3}
    ensures h.registry.tasks[2] == InRoom(n, Reading) && h.registry.tasks[1] == InRoom(n, FanLoop(0, {2, 3}, {}))
    ensures h.channels == map[1 := FRESH, 2 := FRESH, 3 := NoticesOnly(256)] && |Notices(256)| == 256
    ensures 1 in h.sending && h.sending[1] == 0
  {
    h := RoomStands(n);
    h := BeginsToSpeak(h, 1, n, {1, 2, 3});
    assert {1, 2, 3} - {1} == {2, 3};
  }

  lemma FirstFails(n: Name) returns (h: Hub)
    ensures Reachable(h) && Gathered(h.registry, n, {1, 2, 3}) && h.log == [Sent(0, 1)]
            && h.registry.tasks.Keys == {1, 2, 3}
    ensures h.registry.tasks[2] == InRoom(n, Reading) && h.registry.tasks[1] == InRoom(n, FanLoop(0, {2}, {3}))
    ensures h.channels == map[1 := FRESH, 2 := FRESH, 3 := NoticesOnly(256)] && |Notices(256)| == 256
    ensures 1 in h.sending && h.sending[1] == 0
  {
    h := FirstBegins(n);
    assert !CanTake(h.channels, 3);
    h := Offers(h, 1, 3, n, {2, 3}, {});
    assert {2, 3} - {3} == {2} && {} + {3} == {3};
  }

  lemma FirstHasOffered(n: Name) returns (h: Hub)
    ensures Reachable(h) && Gathered(h.registry, n, {1, 2, 3}) && h.log == [Sent(0, 1)]
            && h.registry.tasks.Keys == {1, 2, 3}
    ensures h.registry.tasks[2] == InRoom(n, Reading) && h.registry.tasks[1] == InRoom(n, FanLoop(0, {}, {3}))
    ensures h.channels.Keys == {1, 2, 3} && h.channels[3] == NoticesOnly(256) && |Notices(256)| == 256
    ensures 1 in h.sending && h.sending[1] == 0
  {
    h := FirstFails(n);
    h := Offers(h, 1, 2, n, {2}, {3});
    assert {2} - {2} == {};
  }

  // And peer 1 is about to evict it
  lemma FirstIsMissed(n: Name) returns (h: Hub)
    ensures Reachable(h) && Gathered(h.registry, n, {1, 2, 3}) && h.log == [Sent(0, 1)]
            && h.registry.tasks.Keys == {1, 2, 3}
    ensures h.registry.tasks[2] == InRoom(n, Reading) && h.registry.tasks[1] == InRoom(n, FanEvict(0, {3}))
    ensures h.channels.Keys == {1, 2, 3} && h.channels[3] == NoticesOnly(256) && |Notices(256)| == 256
    ensures 1 in h.sending && h.sending[1] == 0
  {
    h := FirstHasOffered(n);
    h := StopsLoop(h, 1, n, {1, 2, 3}, {3});
  }

  // Then its channel has room again
  lemma ThirdRecovers(n: Name) returns (h: Hub)
    ensures Reachable(h) && Gathered(h.registry, n, {1, 2, 3}) && h.log == [Sent(0, 1)]
            && h.registry.tasks.Keys == {1, 2, 3}
    ensures h.registry.tasks[2] == InRoom(n, Reading) && h.registry.tasks[1] == InRoom(n, FanEvict(0, {3}))
    ensures CanTake(h.channels, 3) && h.channels[3].got == []
    ensures 1 in h.sending && h.sending[1] == 0
  {
    h := FirstIsMissed(n);
    ReachableStep(h, Written(3));
    h := Step(h, Written(3));
  }

  // Peer 2 sends, with peer 1's eviction still to come: peer 3 is a member, has the second fan-out, and not the first
  lemma MemberCanHaveGap(n: Name) returns (h: Hub)
    ensures Reachable(h) && |h.registry.rooms| == 1 && 3 in h.registry.rooms[0].members && 3 in h.channels
    ensures h.log == [Sent(0, 1), Sent(0, 2)] && h.channels[3].got == [1]
    ensures EvictionPending(h, 0, 3, 0)
  {
    h := ThirdRecovers(n);
    h := BeginsToSpeak(h, 2, n, {1, 2, 3});
    assert 3 in {1, 2, 3} - {2};
    h := Offers(h, 2, 3, n, {1, 2, 3} - {2}, {});
    assert 1 in h.registry.tasks && WillEvict(h.registry.tasks[1].pc, 0, 3);
  }

  // ---- Opposite orders ----

  lemma FourStand(n: Name) returns (h: Hub)
    ensures Reachable(h) && h.registry == Standing(n, {1, 2, 3, 4}) && h.log == []
    ensures h.channels == map[1 := FRESH, 2 := FRESH, 3 := FRESH, 4 := FRESH]
  {
    h := ThreeStand(n);
    h := AnotherComes(h, n, {1, 2, 3}, 4);
    assert {1, 2, 3} + {4} == {1, 2, 3, 4};
  }

  // Peers 1 and 2 are in their loops together
  predicate BothSpeak(h: Hub, n: Name, left1: set<Conn>, left2: set<Conn>) {
    && 1 in h.registry.tasks && h.registry.tasks[1] == InRoom(n, FanLoop(0, left1, {}))
    && 2 in h.registry.tasks && h.registry.tasks[2] == InRoom(n, FanLoop(0, left2, {}))
    && h.log == [Sent(0, 1), Sent(0, 2)]
    && 1 in h.sending && h.sending[1] == 0 && 2 in h.sending && h.sending[2] == 1
  }

  lemma OneOfFour(n: Name) returns (h: Hub)
    ensures Reachable(h) && Gathered(h.registry, n, {1, 2, 3, 4}) && h.log == [Sent(0, 1)]
    ensures 1 in h.registry.tasks && h.registry.tasks[1] == InRoom(n, FanLoop(0, {2, 3, 4}, {}))
    ensures 2 in h.registry.tasks && h.registry.tasks[2] == InRoom(n, Reading)
    ensures h.channels == map[1 := FRESH, 2 := FRESH, 3 := FRESH, 4 := FRESH] && 1 in h.sending && h.sending[1] == 0
  {
    h := FourStand(n);
    h := BeginsToSpeak(h, 1, n, {1, 2, 3, 4});
    assert {1, 2, 3, 4} - {1} == {2, 3, 4};
  }

  lemma BothBegin(n: Name) returns (h: Hub)
    ensures Reachable(h) && BothSpeak(h, n, {2, 3, 4}, {1, 3, 4})
    ensures h.channels == map[1 := FRESH, 2 := FRESH, 3 := FRESH, 4 := FRESH]
  {
    h := OneOfFour(n);
    h := BeginsToSpeak(h, 2, n, {1, 2, 3, 4});
    assert {1, 2, 3, 4} - {2} == {1, 3, 4};
  }

  lemma FirstOffers(h: Hub, n: Name, left1: set<Conn>, left2: set<Conn>, p: Conn) returns (h': Hub)
    requires Reachable(h) && BothSpeak(h, n, left1, left2) && p in left1 && CanTake(h.channels, p)
    ensures Reachable(h') && BothSpeak(h', n, left1 - {p}, left2)
    ensures h'.channels == h.channels[p := Take(h.channels[p], Fan(0))]
  {
    h' := Offers(h, 1, p, n, left1, {});
  }

  lemma SecondOffers(h: Hub, n: Name, left1: set<Conn>, left2: set<Conn>, p: Conn) returns (h': Hub)
    requires Reachable(h) && BothSpeak(h, n, left1, left2) && p in left2 && CanTake(h.channels, p)
    ensures Reachable(h') && BothSpeak(h', n, left1, left2 - {p})
    ensures h'.channels == h.channels[p := Take(h.channels[p], Fan(1))]
  {
    h' := Offers(h, 2, p, n, left2, {});
  }

  lemma ThirdHasBoth(n: Name) returns (h: Hub)
    ensures Reachable(h) && BothSpeak(h, n, {2, 4}, {1, 4}) && h.channels.Keys == {1, 2, 3, 4}
    ensures h.channels[3].got == [0, 1] && h.channels[4] == FRESH
  {
    h := BothBegin(n);
    h := FirstOffers(h, n, {2, 3, 4}, {1, 3, 4}, 3);
    h := SecondOffers(h, n, {2, 3, 4} - {3}, {1, 3, 4}, 3);
    assert {2, 3, 4} - {3} == {2, 4} && {1, 3, 4} - {3} == {1, 4};
  }

  // Peer 3 is offered the first fan-out first and peer 4 the second: the two receive them in opposite orders
  lemma OppositeOrders(n: Name) returns (h: Hub)
    ensures Reachable(h) && h.log == [Sent(0, 1), Sent(0, 2)] && 3 in h.channels && 4 in h.channels
    ensures h.channels[3].got == [0, 1] && h.channels[4].got == [1, 0]
  {
    h := ThirdHasBoth(n);
    h := SecondOffers(h, n, {2, 4}, {1, 4}, 4);
    h := FirstOffers(h, n, {2, 4}, {1, 4} - {4}, 4);
  }
}
