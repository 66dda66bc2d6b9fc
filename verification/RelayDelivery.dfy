/**
 What the relay delivers, over every schedule of every number of connections: a member of a room has
 received what others sent there since it came in, but for what is still to be offered to it and for the
 fan-outs whose eviction of it is still to come; in the order of sending, but for fan-outs that overlap; and what
 was accepted reaches the wire in order.
 */
module RelayDelivery {
  import opened Options
  import opened RelayRegistry
  import opened RelayInvariant
  import opened RelayFanOut
  import opened RelayOrder

  ghost predicate Reachable(h: Hub) {
    exists events :: Feasible(QUIET, events) && h == Played(QUIET, events)
  }

  lemma ReachableSound(h: Hub)
    requires Reachable(h)
    ensures Inv(h.registry) && Sound(h) && Ordered(h)
  {
    var events :| Feasible(QUIET, events) && h == Played(QUIET, events);
    RunKeepsSound(QUIET, events);
    RunKeepsOrdered(QUIET, events);
  }

  lemma {:induction false} RunExtends(h: Hub, events: seq<Event>, e: Event)
    requires Feasible(h, events) && Possible(Played(h, events), e)
    ensures Feasible(h, events + [e]) && Played(h, events + [e]) == Step(Played(h, events), e)
    decreases |events|
  {
    if events == [] {
      assert ([e])[1..] == [];
    } else {
      assert (events + [e])[1..] == events[1..] + [e];
      RunExtends(Step(h, events[0]), events[1..], e);
    }
  }

  lemma ReachableStep(h: Hub, e: Event)
    requires Reachable(h) && Possible(h, e)
    ensures Reachable(Step(h, e))
  {
    var events :| Feasible(QUIET, events) && h == Played(QUIET, events);
    RunExtends(QUIET, events, e);
  }

  // ---- Delivery ----

  // Fan-out k is under way and has not come to p
  ghost predicate StillOffered(h: Hub, r: RoomId, p: Conn, k: nat) {
    exists c :: c in h.registry.tasks && StillOffers(h.registry.tasks[c].pc, r, p)
                && c in h.sending && h.sending[c] == k
  }

  // Fan-out k could not be sent to p, and its task has yet to take p out of the room for it
  ghost predicate EvictionPending(h: Hub, r: RoomId, p: Conn, k: nat) {
    exists c :: c in h.registry.tasks && WillEvict(h.registry.tasks[c].pc, r, p) && c in h.sending && h.sending[c] == k
  }

  lemma OutstandingMeans(h: Hub, r: RoomId, p: Conn, k: nat)
    ensures Outstanding(h, r, p, k) <==> StillOffered(h, r, p, k) || EvictionPending(h, r, p, k)
  {
    if c :| OwesIt(h, c, r, p, k) {
      assert StillOffers(h.registry.tasks[c].pc, r, p) || WillEvict(h.registry.tasks[c].pc, r, p);
    }
    if c :| c in h.registry.tasks && StillOffers(h.registry.tasks[c].pc, r, p) && c in h.sending && h.sending[c] == k {
      assert OwesIt(h, c, r, p, k);
    }
    if c :| c in h.registry.tasks && WillEvict(h.registry.tasks[c].pc, r, p) && c in h.sending && h.sending[c] == k {
      assert OwesIt(h, c, r, p, k);
    }
  }

  /**
   A member of a room, in the map or not, has received fan-out k of another to that room since its
   insertion if and only if it is not still to be offered to it and no task that failed to send it is still about
   to evict it.
   */
  lemma MissesExactlyWhatIsOutstanding(h: Hub, r: RoomId, p: Conn)
    requires Reachable(h) && r < |h.registry.rooms| && p in h.registry.rooms[r].members
    ensures p in h.channels
    ensures forall k | Due(h, r, p, k) ::
              k in h.channels[p].got <==> !StillOffered(h, r, p, k) && !EvictionPending(h, r, p, k)
  {
    ReachableSound(h);
    forall k | Due(h, r, p, k)
      ensures k in h.channels[p].got <==> !StillOffered(h, r, p, k) && !EvictionPending(h, r, p, k)
    {
      OutstandingMeans(h, r, p, k);
    }
  }

  // So a member to which no task owes anything has received everything
  lemma UndisturbedMemberGetsAll(h: Hub, r: RoomId, p: Conn, k: nat)
    requires Reachable(h) && r < |h.registry.rooms| && p in h.registry.rooms[r].members && Due(h, r, p, k)
    requires forall c | c in h.registry.tasks :: !Owes(h.registry.tasks[c].pc, r, p)
    ensures p in h.channels && k in h.channels[p].got
  {
    MissesExactlyWhatIsOutstanding(h, r, p);
  }

  // And one that misses a fan-out is out of the room once the sender's eviction section has run
  lemma MissedMemberIsEvicted(h: Hub, c: Conn, r: RoomId, p: Conn)
    requires Reachable(h) && Possible(h, Section(Advance(c)))
    requires h.registry.tasks[c].pc.FanEvict? && WillEvict(h.registry.tasks[c].pc, r, p)
    ensures r < |Step(h, Section(Advance(c))).registry.rooms|
            && p !in Step(h, Section(Advance(c))).registry.rooms[r].members
  {
    RoomsKeepNames(h.registry, Advance(c));
  }

  // A fan-out goes to the room that the sender's current_room named, and to nobody whose current_room is
  // another unless that room has lost its name meanwhile
  lemma SenderSharesRoom(h: Hub, c: Conn, p: Conn, ok: bool)
    requires Reachable(h) && Possible(h, Section(Offer(c, p, ok)))
    ensures var s := h.registry; var r := s.tasks[c].pc.room;
            && r < |s.rooms| && s.tasks[c].current == Some(s.rooms[r].name) && p in s.rooms[r].members && p in s.tasks
            && (s.tasks[p].current != s.tasks[c].current ==>
                  !(s.rooms[r].name in s.mapped && s.mapped[s.rooms[r].name] == r))
  {
    ReachableSound(h);
    var s := h.registry;
    var r := s.tasks[c].pc.room;
    assert FanTaskOk(s, s.tasks[c]);
    var n := s.rooms[r].name;
    if n in s.mapped && s.mapped[n] == r {
      assert MayHold(s.tasks[p], n, r) && TaskConsistent(s, s.tasks[p]);
    }
  }

  // ---- Order ----

  // Of any two fan-outs that a peer has received, the later one was not begun first unless the two overlapped: the
  // one received later, if begun earlier, had not been offered to everybody when the other began. None comes twice.
  lemma OrderFollowsEnds(h: Hub, p: Conn, i: nat, j: nat)
    requires Reachable(h) && p in h.channels && i < j < |h.channels[p].got|
    ensures var first, second := h.channels[p].got[i], h.channels[p].got[j];
            first != second && (second < first ==> !(second in h.ends && h.ends[second] <= first))
  {
    ReachableSound(h);
    assert InOrder(h.channels[p].got, h.ends);
  }

  // What one sender sends a peer receives in the order of sending
  lemma SenderOrderKept(h: Hub, p: Conn, i: nat, j: nat)
    requires Reachable(h) && p in h.channels && i < j < |h.channels[p].got|
    ensures h.channels[p].got[i] < |h.log| && h.channels[p].got[j] < |h.log|
    ensures h.log[h.channels[p].got[i]].sender == h.log[h.channels[p].got[j]].sender ==>
              h.channels[p].got[i] < h.channels[p].got[j]
  {
    ReachableSound(h);
    OrderFollowsEnds(h, p, i, j);
  }

  // ---- The wire ----

  function FanIndices(queue: seq<Item>): seq<nat> {
    if queue == [] then []
    else (if queue[0].Fan? then [queue[0].index] else []) + FanIndices(queue[1..])
  }

  lemma {:induction false} FanIndicesAppend(queue: seq<Item>, item: Item)
    ensures FanIndices(queue + [item]) == FanIndices(queue) + if item.Fan? then [item.index] else []
  {
    if queue == [] {
      assert [item][1..] == [];
    } else {
      FanIndicesAppend(queue[1..], item);
      assert (queue + [item])[1..] == queue[1..] + [item];
    }
  }

  // What was accepted is what was written plus what waits
  predicate Fifo(ch: Channel) {
    ch.got == ch.written + FanIndices(ch.queue) && |ch.queue| <= PEER_CHANNEL_CAP
  }

  lemma TakeIsFifo(ch: Channel, item: Item)
    requires Fifo(ch) && |ch.queue| < PEER_CHANNEL_CAP
    ensures Fifo(Take(ch, item))
  {
    FanIndicesAppend(ch.queue, item);
  }

  lemma StepIsFifo(h: Hub, e: Event, p: Conn)
    requires Possible(h, e) && p in Step(h, e).channels && (p in h.channels ==> Fifo(h.channels[p]))
    ensures Fifo(Step(h, e).channels[p])
  {
    if p in h.channels && CanTake(h.channels, p) {
      if Sends(e, p) { TakeIsFifo(h.channels[p], Fan(h.sending[e.action.c])); }
      TakeIsFifo(h.channels[p], Notice);
    }
  }

  lemma {:induction false} RunIsFifo(h: Hub, events: seq<Event>)
    requires Feasible(h, events) && forall p | p in h.channels :: Fifo(h.channels[p])
    ensures forall p | p in Played(h, events).channels :: Fifo(Played(h, events).channels[p])
    decreases |events|
  {
    if events != [] {
      forall p | p in Step(h, events[0]).channels ensures Fifo(Step(h, events[0]).channels[p]) {
        StepIsFifo(h, events[0], p);
      }
      RunIsFifo(Step(h, events[0]), events[1..]);
    }
  }

  // What has reached a peer's wire is a prefix of what its channel accepted
  lemma WireIsPrefixOfAccepted(h: Hub, p: Conn)
    requires Reachable(h) && p in h.channels
    ensures h.channels[p].written <= h.channels[p].got
    ensures h.channels[p].got == h.channels[p].written + FanIndices(h.channels[p].queue)
    ensures |h.channels[p].queue| <= 256
  {
    var events :| Feasible(QUIET, events) && h == Played(QUIET, events);
    RunIsFifo(QUIET, events);
  }
}
