/**
 In which order fan-outs come in. Two that overlap can reach two members in opposite orders; one that begins
 after another has been offered to everybody comes in after it everywhere, and so do any two of one sender.
 */
module RelayOrder {
  import opened RelayRegistry
  import opened RelayInvariant
  import opened RelayFanOut

  // Fan-out k is being offered
  predicate Open(s: State, log: seq<Sent>, sending: map<Conn, nat>, k: nat)
    requires k < |log|
  {
    var c := log[k].sender;
    c in s.tasks && s.tasks[c].pc.FanLoop? && c in sending && sending[c] == k
  }

  // Every fan-out is open or has ended, after it began
  ghost predicate OpenOrEnded(h: Hub) {
    && (forall k: nat | k < |h.log| :: k !in h.ends <==> Open(h.registry, h.log, h.sending, k))
    && (forall k | k in h.ends :: k < h.ends[k] <= |h.log|)
  }

  // A sender's fan-outs come one after the other
  ghost predicate Sequential(log: seq<Sent>, ends: map<nat, nat>) {
    forall k1: nat, k2: nat | k1 < k2 < |log| && log[k1].sender == log[k2].sender :: k1 in ends && ends[k1] <= k2
  }

  // What is still to be offered to a peer has not come in there
  ghost predicate FreshLeft(h: Hub) {
    forall c, p | c in h.registry.tasks && h.registry.tasks[c].pc.FanLoop?
                  && p in h.registry.tasks[c].pc.left && p in h.channels ::
      c in h.sending && h.sending[c] !in h.channels[p].got
  }

  // Nothing comes in twice, nor before what had ended when it began
  ghost predicate InOrder(got: seq<nat>, ends: map<nat, nat>) {
    forall i, j | 0 <= i < j < |got| ::
      got[i] != got[j] && (got[i] > got[j] ==> !(got[j] in ends && ends[got[j]] <= got[i]))
  }

  ghost predicate AllInOrder(h: Hub) {
    forall p | p in h.channels :: InOrder(h.channels[p].got, h.ends)
  }

  ghost predicate Ordered(h: Hub) {
    OpenOrEnded(h) && Sequential(h.log, h.ends) && FreshLeft(h) && AllInOrder(h)
  }

  // ---- What every step keeps ----

  // Steps that neither begin nor end a fan-out leave the open ones open
  lemma OpenStays(h: Hub, e: Event, k: nat)
    requires FanTasksOk(h) && OpenOrEnded(h) && Possible(h, e) && k < |h.log|
    ensures k < |Step(h, e).log|
    ensures var h' := Step(h, e);
            Open(h'.registry, h'.log, h'.sending, k) <==>
            Open(h.registry, h.log, h.sending, k)
              && !(e.Section? && EndsLoop(h.registry, e.action) && h.sending[e.action.c] == k)
  {
    if e.Section? {
      OneTaskMoves(h.registry, e.action);
      FanMoves(h.registry, e.action);
    }
  }

  lemma EndsAreOwn(h: Hub, e: Event)
    requires FanTasksOk(h) && Possible(h, e) && e.Section? && EndsLoop(h.registry, e.action)
    ensures var k := h.sending[e.action.c]; k < |h.log| && Open(h.registry, h.log, h.sending, k)
  {
    assert SendingOk(e.action.c, h.registry.tasks[e.action.c], h.log, h.sending);
  }

  lemma BeginIsOpen(h: Hub, e: Event)
    requires Possible(h, e) && e.Section? && Begins(h.registry, e.action)
    ensures var h' := Step(h, e); |h'.log| == |h.log| + 1 && Open(h'.registry, h'.log, h'.sending, |h.log|)
  {
  }

  lemma StepKeepsOpen(h: Hub, e: Event)
    requires FanTasksOk(h) && OpenOrEnded(h) && Possible(h, e)
    ensures OpenOrEnded(Step(h, e))
  {
    var h' := Step(h, e);
    if e.Section? && EndsLoop(h.registry, e.action) { EndsAreOwn(h, e); }
    forall k: nat | k < |h'.log| ensures k !in h'.ends <==> Open(h'.registry, h'.log, h'.sending, k) {
      if k < |h.log| { OpenStays(h, e, k); } else { BeginIsOpen(h, e); }
    }
  }

  // Who begins a fan-out has none open
  lemma BeginnerHasEnded(h: Hub, e: Event, k: nat)
    requires OpenOrEnded(h) && Possible(h, e) && e.Section? && Begins(h.registry, e.action)
    requires k < |h.log| && h.log[k].sender == e.action.c
    ensures k in h.ends && h.ends[k] <= |h.log|
  {
    assert !Open(h.registry, h.log, h.sending, k);
  }

  lemma StepKeepsSequential(h: Hub, e: Event)
    requires FanTasksOk(h) && OpenOrEnded(h) && Sequential(h.log, h.ends) && Possible(h, e)
    ensures Sequential(Step(h, e).log, Step(h, e).ends)
  {
    var h' := Step(h, e);
    if e.Section? && EndsLoop(h.registry, e.action) { EndsAreOwn(h, e); }
    forall k1: nat, k2: nat | k1 < k2 < |h'.log| && h'.log[k1].sender == h'.log[k2].sender
      ensures k1 in h'.ends && h'.ends[k1] <= k2
    {
      if k2 == |h.log| { BeginnerHasEnded(h, e, k1); }
    }
  }

  lemma StepKeepsFreshAt(h: Hub, e: Event, c: Conn, p: Conn)
    requires FanTasksOk(h) && GotBelow(h) && FreshLeft(h) && Possible(h, e)
    requires var h' := Step(h, e);
             c in h'.registry.tasks && h'.registry.tasks[c].pc.FanLoop?
             && p in h'.registry.tasks[c].pc.left && p in h'.channels
    ensures c in Step(h, e).sending && Step(h, e).sending[c] !in Step(h, e).channels[p].got
  {
    if e.Section? {
      OneTaskMoves(h.registry, e.action);
      FanMoves(h.registry, e.action);
    }
    if p in h.channels && (e.Section? && e.action.Connect? ==> e.action.c != p) { GotGrows(h, e, p); }
    if c in h.registry.tasks && h.registry.tasks[c].pc.FanLoop? {
      assert SendingOk(c, h.registry.tasks[c], h.log, h.sending);
      if Sends(e, p) { assert SendingOk(e.action.c, h.registry.tasks[e.action.c], h.log, h.sending); }
    }
  }

  lemma StepKeepsFresh(h: Hub, e: Event)
    requires FanTasksOk(h) && GotBelow(h) && FreshLeft(h) && Possible(h, e)
    ensures FreshLeft(Step(h, e))
  {
    var h' := Step(h, e);
    forall c, p | c in h'.registry.tasks && h'.registry.tasks[c].pc.FanLoop?
                  && p in h'.registry.tasks[c].pc.left && p in h'.channels
      ensures c in h'.sending && h'.sending[c] !in h'.channels[p].got
    {
      StepKeepsFreshAt(h, e, c, p);
    }
  }

  lemma OneMoreInOrder(got: seq<nat>, ends: map<nat, nat>, k: nat)
    requires InOrder(got, ends) && k !in got && k !in ends
    ensures InOrder(got + [k], ends)
  {
  }

  // What ends now ends after everything that has come in began
  lemma EndKeepsOrder(got: seq<nat>, ends: map<nat, nat>, k: nat, now: nat)
    requires InOrder(got, ends) && forall i | 0 <= i < |got| :: got[i] < now
    ensures InOrder(got, ends[k := now])
  {
  }

  lemma SentIsNew(h: Hub, e: Event, p: Conn)
    requires FanTasksOk(h) && OpenOrEnded(h) && FreshLeft(h) && Possible(h, e) && Sends(e, p)
    ensures var k := h.sending[e.action.c]; k !in h.channels[p].got && k !in h.ends
  {
    var c := e.action.c;
    assert SendingOk(c, h.registry.tasks[c], h.log, h.sending);
    assert Open(h.registry, h.log, h.sending, h.sending[c]);
  }

  lemma StepKeepsOrderAt(h: Hub, e: Event, p: Conn)
    requires FanTasksOk(h) && GotBelow(h) && Ordered(h) && Possible(h, e) && p in Step(h, e).channels
    ensures InOrder(Step(h, e).channels[p].got, Step(h, e).ends)
  {
    if p in h.channels && (e.Section? && e.action.Connect? ==> e.action.c != p) {
      GotGrows(h, e, p);
      if Sends(e, p) {
        SentIsNew(h, e, p);
        OneMoreInOrder(h.channels[p].got, h.ends, h.sending[e.action.c]);
      } else if e.Section? && EndsLoop(h.registry, e.action) {
        EndKeepsOrder(h.channels[p].got, h.ends, h.sending[e.action.c], |h.log|);
      }
    }
  }

  lemma StepKeepsOrdered(h: Hub, e: Event)
    requires Sound(h) && Ordered(h) && Possible(h, e)
    ensures Ordered(Step(h, e))
  {
    StepKeepsOpen(h, e);
    StepKeepsSequential(h, e);
    StepKeepsFresh(h, e);
    forall p | p in Step(h, e).channels ensures InOrder(Step(h, e).channels[p].got, Step(h, e).ends) {
      StepKeepsOrderAt(h, e, p);
    }
  }

  lemma {:induction false} RunKeepsOrdered(h: Hub, events: seq<Event>)
    requires Inv(h.registry) && Sound(h) && Ordered(h) && Feasible(h, events)
    ensures Ordered(Played(h, events))
    decreases |events|
  {
    if events != [] {
      StepKeepsOrdered(h, events[0]);
      StepKeepsSound(h, events[0]);
      if events[0].Section? { NextKeepsInv(h.registry, events[0].action); }
      RunKeepsOrdered(Step(h, events[0]), events[1..]);
    }
  }
}
