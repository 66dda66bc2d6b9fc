/**
 Key rotation by one of two clients (apps/trapchat/src/lib/crypto.js,
 apps/trapchat/src/hooks/useKeyRotation.js). Keys are numbered in the order they are generated.
 A message is encrypted under the sender's key at one moment, sent later, and handled later still;
 all of that takes less than 15 seconds, as does a rotation, and timers are no later. Channels keep the
 order of sending. The rotating side begins a rotation at most once a minute. Steps of their own are: its
 beginning, the switch of the rotator to the generated key, the switch of the hook to it once it is
 exported, the sending of the rotation message, its arrival, and the acceptance of its key. AES-GCM is
 ideal: a message opens under its own key only.
 */
module KeyRotation {
  import opened Options
  import opened Seqs

  const GRACE: nat := 30000
  const INTERVAL: nat := 60000
  const DELAY: nat := 15000

  // KeyRotator: the keys in force and when the previous one is cleared
  datatype Rotator = Rotator(current: nat, previous: Option<nat>, grace: Option<nat>)

  function Changed(r: Rotator, key: nat, now: nat): Rotator {
    Rotator(key, Some(r.current), Some(now + GRACE))
  }

  // A rotation begins with the current key as the previous one too, and ends with a new grace period
  function Begun(r: Rotator): Rotator {
    r.(previous := Some(r.current))
  }

  function Graced(r: Rotator, now: nat): Rotator {
    r.(grace := Some(now + GRACE))
  }

  predicate Opens(r: Rotator, key: nat) {
    key == r.current || r.previous == Some(key)
  }

  function Cleared(r: Rotator): Rotator {
    r.(previous := None, grace := None)
  }

  // Between the awaits of a rotation, the key being generated and the key being exported
  datatype Phase = Idle | Generating | Exporting

  // `key` is what it is encrypted under, since when `at` says; a rotation carries key + 1
  datatype Msg = Msg(key: nat, at: nat, rotation: bool)

  // The rotating side `a`, the other side `b`: rotators, messages being encrypted, and messages sent;
  // the rotation message whose key `b` is importing. Of `a` also the key of its hook, how far its rotation
  // is and when that began, and when the last one ended.
  datatype State = State(clock: nat, a: Rotator, b: Rotator, aJobs: seq<Msg>, bJobs: seq<Msg>,
                         toB: seq<Msg>, toA: seq<Msg>, importing: Option<Msg>,
                         key: nat, phase: Phase, began: nat, last: nat)

  const START := State(0, Rotator(0, None, None), Rotator(0, None, None), [], [], [], [], None, 0, Idle, 0, 0)

  datatype Event =
    | Advance(to: nat)
    | Begin | Switch | Announce // a rotation
    | WriteA | WriteB           // the encryption of something under the current key begins
    | SendA(n: nat) | SendB(n: nat)
    | HandleA | HandleB         // the next message is handled
    | Accept                    // the imported key comes into force
    | GraceA | GraceB

  predicate OnTime(ms: seq<Msg>, now: nat) {
    forall k | 0 <= k < |ms| :: ms[k].at <= now < ms[k].at + DELAY
  }

  predicate Prompt(s: State, now: nat) {
    OnTime(s.aJobs, now) && OnTime(s.bJobs, now) && OnTime(s.toA, now) && OnTime(s.toB, now)
    && (s.importing.Some? ==> now < s.importing.value.at + DELAY)
    && (!s.phase.Idle? ==> now < s.began + DELAY)
    && (s.a.grace.Some? ==> now < s.a.grace.value + DELAY)
  }

  predicate Enabled(s: State, ev: Event) {
    match ev
    case Advance(to) => s.clock <= to && Prompt(s, to)
    case Begin => s.phase.Idle? && s.clock >= s.began + INTERVAL
    case Switch => s.phase.Generating?
    case Announce => s.phase.Exporting?
    case SendA(n) => n < |s.aJobs|
    case SendB(n) => n < |s.bJobs|
    case HandleA => s.toA != []
    case HandleB => s.toB != []
    case Accept => s.importing.Some?
    case GraceA => s.a.grace.Some? && s.clock >= s.a.grace.value
    case GraceB => s.b.grace.Some? && s.clock >= s.b.grace.value
    case _ => true
  }

  function Next(s: State, ev: Event): State {
    if !Enabled(s, ev) then s
    else
      match ev
      case Advance(to) => s.(clock := to)
      case Begin => s.(a := Begun(s.a), phase := Generating, began := s.clock)
      case Switch => s.(a := s.a.(current := s.a.current + 1), phase := Exporting)
      case Announce =>
        s.(a := Graced(s.a, s.clock), key := s.a.current, phase := Idle, last := s.clock,
           aJobs := s.aJobs + [Msg(s.key, s.clock, true)])
      case WriteA => s.(aJobs := s.aJobs + [Msg(s.key, s.clock, false)])
      case WriteB => s.(bJobs := s.bJobs + [Msg(s.b.current, s.clock, false)])
      case SendA(n) => s.(aJobs := Without(s.aJobs, n), toB := s.toB + [s.aJobs[n]])
      case SendB(n) => s.(bJobs := Without(s.bJobs, n), toA := s.toA + [s.bJobs[n]])
      case HandleA => s.(toA := s.toA[1..])
      case HandleB =>
        var m := s.toB[0];
        if m.rotation && Opens(s.b, m.key) then s.(toB := s.toB[1..], importing := Some(m)) else s.(toB := s.toB[1..])
      case Accept => s.(b := Changed(s.b, s.importing.value.key + 1, s.clock), importing := None)
      case GraceA => s.(a := Cleared(s.a))
      case GraceB => s.(b := Cleared(s.b))
  }

  function Run(s: State, events: seq<Event>): State
    decreases |events|
  {
    if events == [] then s else Run(Next(s, events[0]), events[1..])
  }

  // ---- What every step keeps ----

  function Rotations(ms: seq<Msg>): nat {
    if ms == [] then 0 else (if ms[0].rotation then 1 else 0) + Rotations(ms[1..])
  }

  // The previous key is there, or it was cleared after the grace period that began no earlier than `since`
  predicate KeptSince(r: Rotator, since: nat, now: nat) {
    && (r.previous.Some? ==> r.current > 0 && r.previous.value == r.current - 1)
    && (r.current > 0 && now < since + GRACE ==> r.previous.Some? && r.grace.Some?)
    && (r.grace.Some? ==> since + GRACE <= r.grace.value)
  }

  // From the rotating side: the newest key, or the one before if encrypted before the switch
  predicate FromA(m: Msg, n: nat, last: nat) {
    && ((m.key == n && !m.rotation) || (m.key + 1 == n && m.at <= last))
    && (m.rotation ==> m.at == last)
  }

  predicate AllFromA(ms: seq<Msg>, n: nat, last: nat) {
    forall k | 0 <= k < |ms| :: FromA(ms[k], n, last)
  }

  // From the other side: the newest key, or the one before if encrypted before it could be told
  predicate FromB(m: Msg, n: nat, last: nat) {
    !m.rotation && (m.key == n || (m.key + 1 == n && m.at < last + DELAY))
  }

  predicate AllFromB(ms: seq<Msg>, n: nat, last: nat) {
    forall k | 0 <= k < |ms| :: FromB(ms[k], n, last)
  }

  // During a rotation nothing is in flight under an older key, and the key the hook still uses is kept
  predicate RotatorA(s: State) {
    && s.began <= s.clock
    && if s.phase.Idle? then
         && s.a.current == s.key && KeptSince(s.a, s.last, s.clock) && s.last < s.began + DELAY
         && (s.a.grace.Some? ==> s.a.grace.value == s.last + GRACE)
       else
         && s.a.current == s.key + (if s.phase.Exporting? then 1 else 0)
         && s.a.previous == Some(s.key) && s.a.grace.None? && s.last + GRACE <= s.began
  }

  predicate Inv(s: State) {
    && Prompt(s, s.clock) && s.last <= s.clock
    && AllFromA(s.aJobs, s.key, s.last) && AllFromA(s.toB, s.key, s.last)
    && AllFromB(s.bJobs, s.key, s.last) && AllFromB(s.toA, s.key, s.last)
    && (s.importing.Some? ==> FromA(s.importing.value, s.key, s.last) && s.importing.value.rotation)
    && s.key == s.b.current + Rotations(s.aJobs) + Rotations(s.toB) + (if s.importing.Some? then 1 else 0)
    && s.key <= s.b.current + 1
    && RotatorA(s)
    && (if s.b.current == s.key then KeptSince(s.b, s.last, s.clock)
        else (s.b.previous.Some? ==> s.b.current > 0 && s.b.previous.value == s.b.current - 1))
  }

  lemma {:induction false} RotationsOfConcat(x: seq<Msg>, y: seq<Msg>)
    ensures Rotations(x + y) == Rotations(x) + Rotations(y)
  {
    if x == [] {
      assert x + y == y;
    } else {
      assert (x + y)[1..] == x[1..] + y;
      RotationsOfConcat(x[1..], y);
    }
  }

  lemma RotationsOfOne(m: Msg)
    ensures Rotations([m]) == if m.rotation then 1 else 0
  {
    assert [m][1..] == [];
  }

  lemma RotationsWithout(ms: seq<Msg>, n: nat)
    requires n < |ms|
    ensures Rotations(Without(ms, n)) == Rotations(ms) - if ms[n].rotation then 1 else 0
  {
    var before, after := ms[..n], ms[n + 1..];
    var rest := [ms[n]] + after;
    assert ms == before + rest;
    RotationsOfConcat(before, rest);
    RotationsOfConcat([ms[n]], after);
    RotationsOfConcat(before, after);
    RotationsOfOne(ms[n]);
  }

  lemma {:induction false} RotationAmong(ms: seq<Msg>, k: nat)
    requires k < |ms| && ms[k].rotation
    ensures Rotations(ms) > 0
  {
    if k > 0 { RotationAmong(ms[1..], k - 1); }
  }

  lemma SendAKeepsInv(s: State, n: nat)
    requires Inv(s) && n < |s.aJobs|
    ensures Inv(Next(s, SendA(n)))
  {
    RotationsWithout(s.aJobs, n);
    RotationsOfConcat(s.toB, [s.aJobs[n]]);
    RotationsOfOne(s.aJobs[n]);
    var s' := Next(s, SendA(n));
    assert forall k | 0 <= k < |s'.aJobs| :: s'.aJobs[k] == s.aJobs[if k < n then k else k + 1];
  }

  lemma SendBKeepsInv(s: State, n: nat)
    requires Inv(s) && n < |s.bJobs|
    ensures Inv(Next(s, SendB(n)))
  {
    var s' := Next(s, SendB(n));
    assert forall k | 0 <= k < |s'.bJobs| :: s'.bJobs[k] == s.bJobs[if k < n then k else k + 1];
  }

  // Half a minute after the last rotation everything under an older key has been handled
  lemma NothingOld(ms: seq<Msg>, n: nat, last: nat, now: nat, bound: nat)
    requires OnTime(ms, now) && now >= last + GRACE && bound <= last + DELAY
    requires forall k | 0 <= k < |ms| :: ms[k].key == n || ms[k].at <= bound
    ensures forall k | 0 <= k < |ms| :: ms[k].key == n
  {
  }

  lemma {:induction false} NoRotations(ms: seq<Msg>)
    requires forall k | 0 <= k < |ms| :: !ms[k].rotation
    ensures Rotations(ms) == 0
  {
    if ms != [] { NoRotations(ms[1..]); }
  }

  lemma BeginKeepsInv(s: State)
    requires Inv(s) && Enabled(s, Begin)
    ensures Inv(Next(s, Begin))
  {
  }

  // A rotation finds nothing in flight under an older key when the hook switches
  lemma AnnounceKeepsInv(s: State)
    requires Inv(s) && Enabled(s, Announce)
    ensures Inv(Next(s, Announce))
    ensures forall m | m in s.aJobs + s.toB + s.bJobs + s.toA :: m.key == s.key && !m.rotation
  {
    var n := s.key;
    NothingOld(s.aJobs, n, s.last, s.clock, s.last);
    NothingOld(s.toB, n, s.last, s.clock, s.last);
    NothingOld(s.bJobs, n, s.last, s.clock, s.last + DELAY);
    NothingOld(s.toA, n, s.last, s.clock, s.last + DELAY);
    NoRotations(s.aJobs);
    NoRotations(s.toB);
    var m := Msg(n, s.clock, true);
    RotationsOfConcat(s.aJobs, [m]);
    RotationsOfOne(m);
  }

  lemma WriteAKeepsInv(s: State)
    requires Inv(s)
    ensures Inv(Next(s, WriteA))
  {
    var m := Msg(s.key, s.clock, false);
    RotationsOfConcat(s.aJobs, [m]);
    RotationsOfOne(m);
  }

  lemma WriteBKeepsInv(s: State)
    requires Inv(s)
    ensures Inv(Next(s, WriteB))
  {
    WhileBehind(s);
  }

  // While the other side is behind, the rotation message is on its way, and it is less than 15 seconds old
  lemma WhileBehind(s: State)
    requires Inv(s)
    ensures s.b.current < s.key ==> s.clock < s.last + DELAY
  {
    if s.b.current < s.key && s.importing.None? {
      if Rotations(s.aJobs) > 0 { RotationFound(s.aJobs, s.key, s.last, s.clock); }
      else { RotationFound(s.toB, s.key, s.last, s.clock); }
    }
  }

  lemma {:induction false} RotationFound(ms: seq<Msg>, n: nat, last: nat, now: nat)
    requires Rotations(ms) > 0 && AllFromA(ms, n, last) && OnTime(ms, now)
    ensures now < last + DELAY
  {
    if !ms[0].rotation { RotationFound(ms[1..], n, last, now); }
  }

  lemma HandleBKeepsInv(s: State)
    requires Inv(s) && s.toB != []
    ensures Inv(Next(s, HandleB))
    ensures s.toB[0].rotation ==> Opens(s.b, s.toB[0].key) && Next(s, HandleB).importing == Some(s.toB[0])
  {
    assert s.toB == [s.toB[0]] + s.toB[1..];
    RotationsOfConcat([s.toB[0]], s.toB[1..]);
    RotationsOfOne(s.toB[0]);
    assert s.toB[0].rotation ==> FromA(s.toB[0], s.key, s.last);
  }

  lemma AcceptKeepsInv(s: State)
    requires Inv(s) && s.importing.Some?
    ensures Inv(Next(s, Accept))
  {
  }

  lemma AdvanceKeepsInv(s: State, to: nat)
    requires Inv(s) && Enabled(s, Advance(to))
    ensures Inv(Next(s, Advance(to)))
  {
  }

  lemma SwitchKeepsInv(s: State)
    requires Inv(s) && Enabled(s, Switch)
    ensures Inv(Next(s, Switch))
  {
  }

  lemma HandleAKeepsInv(s: State)
    requires Inv(s) && s.toA != []
    ensures Inv(Next(s, HandleA))
  {
  }

  lemma GraceAKeepsInv(s: State)
    requires Inv(s) && Enabled(s, GraceA)
    ensures Inv(Next(s, GraceA))
  {
  }

  lemma GraceBKeepsInv(s: State)
    requires Inv(s) && Enabled(s, GraceB)
    ensures Inv(Next(s, GraceB))
  {
  }

  lemma NextKeepsInv(s: State, ev: Event)
    requires Inv(s)
    ensures Inv(Next(s, ev))
  {
    if Enabled(s, ev) {
      match ev {
        case Advance(to) => AdvanceKeepsInv(s, to);
        case Begin => BeginKeepsInv(s);
        case Switch => SwitchKeepsInv(s);
        case Announce => AnnounceKeepsInv(s);
        case WriteA => WriteAKeepsInv(s);
        case WriteB => WriteBKeepsInv(s);
        case SendA(n) => SendAKeepsInv(s, n);
        case SendB(n) => SendBKeepsInv(s, n);
        case HandleB => HandleBKeepsInv(s);
        case Accept => AcceptKeepsInv(s);
        case HandleA => HandleAKeepsInv(s);
        case GraceA => GraceAKeepsInv(s);
        case GraceB => GraceBKeepsInv(s);
      }
    }
  }

  lemma {:induction false} RunKeepsInv(s: State, events: seq<Event>)
    requires Inv(s)
    ensures Inv(Run(s, events))
    decreases |events|
  {
    if events != [] {
      NextKeepsInv(s, events[0]);
      RunKeepsInv(Next(s, events[0]), events[1..]);
    }
  }

  ghost predicate Reachable(s: State) {
    exists events :: s == Run(START, events)
  }

  lemma ReachableInv(s: State)
    requires Reachable(s)
    ensures Inv(s)
  {
    var events :| s == Run(START, events);
    RunKeepsInv(START, events);
  }

  // ---- What opens ----

  // Everything the rotating side handles opens: its grace period covers both delays
  lemma RotatingSideOpensAll(s: State)
    requires Reachable(s) && s.toA != []
    ensures Opens(s.a, s.toA[0].key)
  {
    ReachableInv(s);
    assert FromB(s.toA[0], s.key, s.last);
  }

  // Every rotation message opens at the other side
  lemma RotationsOpen(s: State)
    requires Reachable(s) && s.toB != [] && s.toB[0].rotation
    ensures Opens(s.b, s.toB[0].key) && Next(s, HandleB).importing == Some(s.toB[0])
  {
    ReachableInv(s);
    HandleBKeepsInv(s);
  }

  // Anything else opens there exactly when its key has been accepted
  lemma OpensOnceAccepted(s: State)
    requires Reachable(s) && s.toB != []
    ensures Opens(s.b, s.toB[0].key) <==> s.toB[0].key <= s.b.current
  {
    ReachableInv(s);
    WhileBehind(s);
    assert FromA(s.toB[0], s.key, s.last);
  }

  // ---- What no longer opens ----

  // Nothing opens on either side but what is under the newest key it has, or the one before
  lemma OnlyTwoKeysOpen(s: State, key: nat)
    requires Reachable(s)
    ensures Opens(s.a, key) ==> key == s.a.current || key + 1 == s.a.current
    ensures Opens(s.b, key) ==> key == s.b.current || key + 1 == s.b.current
  {
    ReachableInv(s);
  }

  // When the other side accepted its newest key
  function AcceptedAt(events: seq<Event>): nat
    decreases |events|
  {
    if events == [] then 0
    else
      var before := events[..|events| - 1];
      if events[|events| - 1].Accept? && Run(START, before).importing.Some? then Run(START, before).clock
      else AcceptedAt(before)
  }

  lemma {:induction false} RunAppends(s: State, events: seq<Event>, ev: Event)
    ensures Run(s, events + [ev]) == Next(Run(s, events), ev)
    decreases |events|
  {
    if events == [] {
      assert [ev][1..] == [];
    } else {
      assert (events + [ev])[1..] == events[1..] + [ev];
      RunAppends(Next(s, events[0]), events[1..], ev);
    }
  }

  lemma OtherKeepsGrace(s: State, ev: Event)
    requires !ev.Accept? && !ev.GraceB?
    ensures Next(s, ev).b == s.b
  {
  }

  // There the key before opens until the timer runs that is due half a minute after the acceptance
  lemma {:induction false} PreviousKeyOpensForGrace(events: seq<Event>)
    ensures var b := Run(START, events).b;
            && (b.previous.Some? <==> b.grace.Some?)
            && (b.grace.Some? ==> b.grace.value == AcceptedAt(events) + 30_000)
    decreases |events|
  {
    if events != [] {
      var before, ev := events[..|events| - 1], events[|events| - 1];
      assert events == before + [ev];
      PreviousKeyOpensForGrace(before);
      RunAppends(START, before, ev);
      if !ev.Accept? && !ev.GraceB? { OtherKeepsGrace(Run(START, before), ev); }
    }
  }

  // And at the rotating side until the one due half a minute after the announcement
  lemma RotatingSideKeepsForGrace(s: State)
    requires Reachable(s) && s.a.grace.Some?
    ensures s.a.grace.value == s.last + 30_000
  {
    ReachableInv(s);
  }
}
