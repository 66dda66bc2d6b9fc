/**
 That the expiry sweep is not early. It lists a room exactly when its time to live has passed, never before the
 instant that the room has advertised. What it then takes apart is that room, unless the room was deleted and
 founded again since the listing: the members of the new room are taken out too.
 */
module GatewaySweep {
  import opened Storage
  import opened Gateway
  import opened GatewayInvariant
  import opened GatewayTheorems
  import opened GatewayExpiry
  import opened GatewayWitnesses

  // The room has a time to live, and it is over
  predicate Lapsed(r: Room, now: nat) {
    r.ttlSeconds > 0 && now > r.createdAt + r.ttlSeconds * 1_000_000_000
  }

  // The sweep lists exactly the rooms whose time to live is over
  lemma ListsLapsed(s: State, expired: seq<Name>, n: Name)
    requires Enabled(s, Tick(expired))
    ensures n in expired <==> n in s.tables.rooms && Lapsed(s.tables.rooms[n], s.clock)
  {
  }

  // Against what the room advertises, in milliseconds: not before that instant, and from the next millisecond on
  lemma ListsAsAdvertised(s: State, expired: seq<Name>, n: Name)
    requires Enabled(s, Tick(expired)) && n in s.tables.rooms
    ensures n in expired ==> ExpiresAt(s.tables.rooms[n]).Some?
    ensures ExpiresAt(s.tables.rooms[n]).Some? ==>
              var at := ExpiresAt(s.tables.rooms[n]).value;
              && (n in expired ==> s.clock >= at * 1_000_000)
              && (s.clock >= (at + 1) * 1_000_000 ==> n in expired)
  {
    ListsLapsed(s, expired, n);
  }

  // ---- What the sweep takes apart ----

  // A room the sweep has still to deal with was over when it was listed, or has been founded since
  ghost predicate SweepsRightly(s: State) {
    && Sweeper in s.tasks && s.history.lastSweep <= s.clock
    && forall n | Pending(s.tasks[Sweeper], n) && n in s.tables.rooms ::
         Lapsed(s.tables.rooms[n], s.history.lastSweep) || s.tables.rooms[n].createdAt >= s.history.lastSweep
  }

  // Only a listing gives the sweep a room to deal with
  lemma PendingBefore(s: State, a: Action, n: Name)
    requires Inv(s) && Enabled(s, a) && !a.Tick? && Pending(Next(s, a).tasks[Sweeper], n)
    ensures Pending(s.tasks[Sweeper], n)
  {
    assert KindOk(Sweeper, s.tasks[Sweeper], s.history.joins);
  }

  lemma NewRoomIsNew(s: State, a: Action, n: Name)
    requires Enabled(s, a) && n !in s.tables.rooms && n in Next(s, a).tables.rooms
    ensures Next(s, a).tables.rooms[n].createdAt == s.clock == Next(s, a).clock
  {
    EffectIsAll(s, a);
    match EffectOf(s, a) {
      case NoEffect =>
      case Exits(m, p) => LeftFacts(s.tables, m, p, s.clock);
      case Enters(j, p) => JoinedFacts(s.tables, p, j, s.clock);
    }
  }

  lemma NextSweepsRightly(s: State, a: Action)
    requires Inv(s) && SweepsRightly(s) && Enabled(s, a)
    ensures SweepsRightly(Next(s, a))
  {
    var s' := Next(s, a);
    forall n | Pending(s'.tasks[Sweeper], n) && n in s'.tables.rooms
      ensures Lapsed(s'.tables.rooms[n], s'.history.lastSweep)
              || s'.tables.rooms[n].createdAt >= s'.history.lastSweep
    {
      if a.Tick? {
        assert n in a.expired;
        ListsLapsed(s, a.expired, n);
      } else {
        PendingBefore(s, a, n);
        if n in s.tables.rooms { StepKeepsIncarnation(s, a, n); } else { NewRoomIsNew(s, a, n); }
      }
    }
  }

  lemma {:induction false} RunSweepsRightly(s: State, actions: seq<Action>)
    requires Inv(s) && SweepsRightly(s) && Schedule(s, actions)
    ensures SweepsRightly(Run(s, actions))
    decreases |actions|
  {
    if actions != [] {
      NextKeepsInv(s, actions[0]);
      NextSweepsRightly(s, actions[0]);
      RunSweepsRightly(Next(s, actions[0]), actions[1..]);
    }
  }

  lemma ReachableSweepsRightly(s: State)
    requires Reachable(s)
    ensures SweepsRightly(s)
  {
    var actions :| Schedule(EMPTY, actions) && s == Run(EMPTY, actions);
    RunSweepsRightly(EMPTY, actions);
  }

  // A room that the sweep is at, or has yet to come to, was over when it was listed if and only if it was
  // founded before that
  lemma SweepsLapsedExactlyWhen(s: State, n: Name)
    requires Reachable(s) && Sweeper in s.tasks && Pending(s.tasks[Sweeper], n) && n in s.tables.rooms
    ensures Lapsed(s.tables.rooms[n], s.history.lastSweep) <==> s.tables.rooms[n].createdAt < s.history.lastSweep
  {
    ReachableSweepsRightly(s);
  }

  // So a section of the sweep that takes a member out of a room that stands does so after the end of the room's
  // time to live, and after the instant it has advertised, unless the room has been founded since the listing
  lemma MembersGoWhenOver(s: State, a: Action, n: Name, p: PeerId)
    requires Reachable(s) && Enabled(s, a) && !a.Wait? && Mover(a) == Sweeper
    requires Stores(s.tables, n, p) && !Stores(Next(s, a).tables, n, p)
    ensures var r := s.tables.rooms[n];
            r.createdAt < s.history.lastSweep ==>
              && s.clock > r.createdAt + r.ttlSeconds * 1_000_000_000 && r.ttlSeconds > 0
              && ExpiresAt(r).Some? && s.clock >= ExpiresAt(r).value * 1_000_000
  {
    ReachableInv(s);
    EffectFacts(s, a);
    assert KindOk(Sweeper, s.tasks[Sweeper], s.history.joins);
    assert Pending(s.tasks[Sweeper], n);
    ReachableSweepsRightly(s);
    SweepsLapsedExactlyWhen(s, n);
  }

  // ---- A sweep that clears a new room ----

  // The room is over and the sweep has listed it
  lemma SweepLists(s: State, p: PeerId, n: Name) returns (s': State)
    requires Reachable(s) && s.tasks == map[Sweeper := Idle, Conn(p) := Reading] && s.clock == 0
    requires s.tables == Tables({p}, map[p := {n}], map[n := Room({p}, 0, 900, 0, [])])
    ensures Reachable(s') && s'.tables == s.tables && s'.clock == 920 * SECOND == s'.history.lastSweep
    ensures s'.tasks == map[Sweeper := ClearList(n, []), Conn(p) := Reading]
  {
    ReachableNext(s, Wait(920 * SECOND));
    var s1 := Next(s, Wait(920 * SECOND));
    ReachableNext(s1, Tick([n]));
    s' := Next(s1, Tick([n]));
    assert [n][1..] == [];
    assert s'.tasks == s.tasks[Sweeper := ClearList(n, [])];
  }

  // Its only member leaves
  lemma LastLeaves(s: State, p: PeerId, n: Name) returns (s': State)
    requires Reachable(s) && s.tasks == map[Sweeper := ClearList(n, []), Conn(p) := Reading]
    requires s.tables.conns == {p} && s.tables.peerRooms == map[p := {n}]
    requires s.tables.rooms.Keys == {n} && s.tables.rooms[n].peers == {p}
    ensures Reachable(s') && s'.tables == Tables({p}, map[], map[]) && s'.tasks == s.tasks
    ensures s'.clock == s.clock && s'.history == s.history
  {
    ReachableNext(s, Receive(p, Leave(n)));
    var s1 := Next(s, Receive(p, Leave(n)));
    ReachableNext(s1, Advance(Conn(p)));
    var s2 := Next(s1, Advance(Conn(p)));
    assert {p} - {p} == {} && s2.tables.rooms == map[];
    ReachableNext(s2, Advance(Conn(p)));
    s' := Next(s2, Advance(Conn(p)));
    assert {n} - {n} == {} && s'.tables.peerRooms == map[];
  }

  // And founds the room anew. The sweep is about to take it out of a room that has a quarter of an hour to go
  lemma SweepClearsNewRoom(p: PeerId, n: Name) returns (s: State)
    requires !IsDummy(p)
    ensures Reachable(s) && Sweeper in s.tasks && Pending(s.tasks[Sweeper], n) && Enabled(s, Take(Sweeper, p))
    ensures n in s.tables.rooms && s.tables.rooms[n].peers == {p} && s.tables.rooms[n].ttlSeconds == 900
    ensures s.tables.rooms[n].createdAt == s.clock == s.history.lastSweep
  {
    var s1 := FirstJoins(p, JoinRequest(n, 900, Absent));
    var s2 := SweepLists(s1, p, n);
    var s3 := LastLeaves(s2, p, n);
    s := FoundsAnew(s3, p, n);
  }

  lemma FoundsAnew(s: State, p: PeerId, n: Name) returns (s': State)
    requires Reachable(s) && s.tasks == map[Sweeper := ClearList(n, []), Conn(p) := Reading]
    requires s.tables == Tables({p}, map[], map[]) && s.clock == s.history.lastSweep
    ensures Reachable(s') && Sweeper in s'.tasks && Pending(s'.tasks[Sweeper], n) && Enabled(s', Take(Sweeper, p))
    ensures n in s'.tables.rooms && s'.tables.rooms[n].peers == {p} && s'.tables.rooms[n].ttlSeconds == 900
    ensures s'.tables.rooms[n].createdAt == s'.clock == s'.history.lastSweep
  {
    var j := JoinRequest(n, 900, Absent);
    JoinsRoom(s, p, j);
    var s1 := Stored(Recorded(s, p, n), p, j);
    assert Members(s1.tables, n) == {p};
    ReachableNext(s1, Advance(Sweeper));
    s' := Next(s1, Advance(Sweeper));
  }
}
