/**
 When everything opens at the other side too: the rotating side begins no encryption while a
 rotation message is being encrypted, and the other side handles nothing while it imports a key.
 Without the first of these, what was encrypted under the new key can overtake the new key.
 */
module RotationOrder {
  import opened KeyRotation

  predicate Careful(s: State, ev: Event) {
    && (ev.WriteA? ==> Rotations(s.aJobs) == 0)
    && (ev.HandleB? ==> s.importing.None?)
  }

  predicate CarefulRun(s: State, events: seq<Event>)
    decreases |events|
  {
    events == [] || (Careful(s, events[0]) && CarefulRun(Next(s, events[0]), events[1..]))
  }

  predicate NoneNew(ms: seq<Msg>, n: nat) {
    forall k | 0 <= k < |ms| :: ms[k].key != n
  }

  // In the channel, the rotation message comes before everything under its key
  predicate NewAfterRotation(ms: seq<Msg>, n: nat) {
    ms == [] || ms[0].rotation || (ms[0].key != n && NewAfterRotation(ms[1..], n))
  }

  predicate Ordered(s: State) {
    s.b.current < s.key && s.importing.None? ==>
      if Rotations(s.aJobs) > 0
      then NoneNew(s.aJobs, s.key) && NoneNew(s.toB, s.key)
      else NewAfterRotation(s.toB, s.key)
  }

  lemma {:induction false} AppendOrdered(ms: seq<Msg>, m: Msg, n: nat)
    requires NewAfterRotation(ms, n) && (Rotations(ms) > 0 || m.key != n || m.rotation)
    ensures NewAfterRotation(ms + [m], n)
  {
    if ms == [] {
      assert (ms + [m])[1..] == [];
    } else if !ms[0].rotation {
      assert (ms + [m])[1..] == ms[1..] + [m];
      AppendOrdered(ms[1..], m, n);
    }
  }

  lemma {:induction false} NoneNewOrdered(ms: seq<Msg>, n: nat)
    requires NoneNew(ms, n)
    ensures NewAfterRotation(ms, n)
  {
    if ms != [] { NoneNewOrdered(ms[1..], n); }
  }

  lemma SendKeepsOrdered(s: State, n: nat)
    requires Inv(s) && Ordered(s) && n < |s.aJobs|
    ensures Ordered(Next(s, SendA(n)))
  {
    var s' := Next(s, SendA(n));
    var m := s.aJobs[n];
    RotationsWithout(s.aJobs, n);
    assert FromA(m, s.key, s.last);
    if s.b.current < s.key && s.importing.None? {
      if Rotations(s.aJobs) > 0 {
        NoneNewOrdered(s.toB, s.key);
      }
      AppendOrdered(s.toB, m, s.key);
      assert forall k | 0 <= k < |s'.aJobs| :: s'.aJobs[k] == s.aJobs[if k < n then k else k + 1];
    }
  }

  lemma AnnounceKeepsOrdered(s: State)
    requires Inv(s) && Enabled(s, Announce)
    ensures Ordered(Next(s, Announce))
  {
    RotationsOfConcat(s.aJobs, [Msg(s.key, s.clock, true)]);
    RotationsOfOne(Msg(s.key, s.clock, true));
    assert forall k | 0 <= k < |s.aJobs| :: FromA(s.aJobs[k], s.key, s.last);
    assert forall k | 0 <= k < |s.toB| :: FromA(s.toB[k], s.key, s.last);
  }

  lemma HandleKeepsOrdered(s: State)
    requires Inv(s) && Ordered(s) && s.toB != [] && s.importing.None?
    ensures Ordered(Next(s, HandleB))
  {
    HandleBKeepsInv(s);
    assert s.toB == [s.toB[0]] + s.toB[1..];
  }

  lemma StepKeepsOrdered(s: State, ev: Event)
    requires Inv(s) && Ordered(s) && Careful(s, ev)
    ensures Ordered(Next(s, ev))
  {
    if Enabled(s, ev) {
      match ev {
        case SendA(n) => SendKeepsOrdered(s, n);
        case Announce => AnnounceKeepsOrdered(s);
        case WriteA =>
          RotationsOfConcat(s.aJobs, [Msg(s.key, s.clock, false)]);
          RotationsOfOne(Msg(s.key, s.clock, false));
        case HandleB => HandleKeepsOrdered(s);
        case _ =>
      }
    }
  }

  lemma {:induction false} RunKeepsOrdered(s: State, events: seq<Event>)
    requires Inv(s) && Ordered(s) && CarefulRun(s, events)
    ensures Inv(Run(s, events)) && Ordered(Run(s, events))
    decreases |events|
  {
    if events != [] {
      StepKeepsOrdered(s, events[0]);
      NextKeepsInv(s, events[0]);
      RunKeepsOrdered(Next(s, events[0]), events[1..]);
    }
  }

  lemma StartIsOrdered()
    ensures Inv(START) && Ordered(START)
  {
  }

  // The two lengths of the protocol fit: in careful runs whatever either side handles opens
  lemma EverythingOpens(events: seq<Event>)
    requires CarefulRun(START, events)
    ensures var s := Run(START, events);
            && (s.toA != [] ==> Opens(s.a, s.toA[0].key))
            && (s.toB != [] && s.importing.None? ==> Opens(s.b, s.toB[0].key))
  {
    StartIsOrdered();
    RunKeepsOrdered(START, events);
    var s := Run(START, events);
    assert Reachable(s);
    if s.toA != [] { RotatingSideOpensAll(s); }
    if s.toB != [] {
      OpensOnceAccepted(s);
      assert FromA(s.toB[0], s.key, s.last);
    }
  }

  lemma RunFirst(s: State, ev: Event, rest: seq<Event>)
    ensures Run(s, [ev] + rest) == Run(Next(s, ev), rest)
  {
    assert ([ev] + rest)[1..] == rest;
  }

  // Something encrypted between the switch and the sending of the rotation message arrives first
  lemma NewKeyOvertakes() returns (events: seq<Event>, s: State)
    ensures s == Run(START, events)
    ensures s.toB != [] && s.importing.None? && !Opens(s.b, s.toB[0].key)
  {
    var s1 := Next(START, Advance(60000));
    var s2 := Next(s1, Begin);
    var s3 := Next(s2, Switch);
    var s4 := Next(s3, Announce);
    var s5 := Next(s4, WriteA);
    s := Next(s5, SendA(1));
    events := [Advance(60000)] + ([Begin] + ([Switch] + ([Announce] + ([WriteA] + ([SendA(1)] + [])))));
    RunFirst(START, Advance(60000), [Begin] + ([Switch] + ([Announce] + ([WriteA] + ([SendA(1)] + [])))));
    RunFirst(s1, Begin, [Switch] + ([Announce] + ([WriteA] + ([SendA(1)] + []))));
    RunFirst(s2, Switch, [Announce] + ([WriteA] + ([SendA(1)] + [])));
    RunFirst(s3, Announce, [WriteA] + ([SendA(1)] + []));
    RunFirst(s4, WriteA, [SendA(1)] + []);
    RunFirst(s5, SendA(1), []);
  }
}
