/**
 The gateway's per-peer rate limiter (services/gateway/cmd/gateway/main.go): token
 buckets that are refilled by whole intervals, keep the remainder of a started interval,
 and are forgotten when they have been idle for long. Instants and durations are
 nanoseconds. How many calls get through any window, and which callers are never refused.
 */
module TokenBucket {
  import opened Arith

  type PeerId = string

  const MINUTE: nat := 60_000_000_000

  // What newRateLimiter is given. The gateway uses (10, 1s, 20), (1, 2s, 3), (50, 1s, 100).
  datatype Config = Config(rate: nat, interval: nat, burst: nat)

  predicate Sane(cfg: Config) {
    cfg.rate >= 1 && cfg.interval >= 1
  }

  datatype Bucket = Bucket(tokens: nat, lastFill: nat)
  type Buckets = map<PeerId, Bucket>

  datatype Event =
    | Allow(peer: PeerId, at: nat)
    | Prune(at: nat)
    | Remove(peer: PeerId, at: nat)

  function Refilled(cfg: Config, b: Bucket, now: nat): Bucket
    requires cfg.interval >= 1
  {
    var elapsed := if now >= b.lastFill then now - b.lastFill else 0;
    var intervals := elapsed / cfg.interval;
    if intervals * cfg.rate > 0
    then Bucket(Min(b.tokens + intervals * cfg.rate, cfg.burst), b.lastFill + intervals * cfg.interval)
    else b
  }

  // The bucket allow works on: a peer without one starts with a full bucket
  function Looked(cfg: Config, s: Buckets, peer: PeerId, now: nat): Bucket
    requires cfg.interval >= 1
  {
    Refilled(cfg, if peer in s then s[peer] else Bucket(cfg.burst, now), now)
  }

  predicate Granted(cfg: Config, s: Buckets, peer: PeerId, now: nat)
    requires cfg.interval >= 1
  {
    Looked(cfg, s, peer, now).tokens > 0
  }

  function StaleThreshold(cfg: Config): nat {
    if cfg.interval * cfg.burst < MINUTE then MINUTE else cfg.interval * cfg.burst
  }

  predicate Idle(cfg: Config, b: Bucket, now: nat) {
    now - b.lastFill > StaleThreshold(cfg)
  }

  function Next(cfg: Config, s: Buckets, e: Event): Buckets
    requires cfg.interval >= 1
  {
    match e
    case Allow(peer, now) =>
      var b := Looked(cfg, s, peer, now);
      s[peer := if b.tokens > 0 then b.(tokens := b.tokens - 1) else b]
    case Prune(now) => map p | p in s && !Idle(cfg, s[p], now) :: s[p]
    case Remove(peer, _) => s - {peer}
  }

  // With a rate of 0 no waiting refills a bucket, but pruning an idle one does: the next call makes a full one
  lemma PruningRefillsAtRateZero(cfg: Config, s: Buckets, peer: PeerId, now: nat)
    requires cfg.rate == 0 && cfg.interval >= 1 && cfg.burst >= 1
    requires peer in s && s[peer].tokens == 0 && Idle(cfg, s[peer], now)
    ensures !Granted(cfg, s, peer, now) && Granted(cfg, Next(cfg, s, Prune(now)), peer, now)
  {
    var full := Bucket(cfg.burst, now);
    assert Refilled(cfg, full, now) == full;
  }

  predicate Ticking(from: nat, events: seq<Event>)
    decreases |events|
  {
    events == [] || (from <= events[0].at && Ticking(events[0].at, events[1..]))
  }

  // Buckets hold at most a burst and were last filled in the past
  ghost predicate Valid(cfg: Config, s: Buckets, clock: nat) {
    forall p | p in s :: s[p].tokens <= cfg.burst && s[p].lastFill <= clock
  }

  lemma RefilledFacts(cfg: Config, b: Bucket, now: nat)
    requires Sane(cfg) && b.tokens <= cfg.burst && b.lastFill <= now
    ensures var r := Refilled(cfg, b, now);
            var n := (now - b.lastFill) / cfg.interval;
            && r.tokens <= cfg.burst
            && r.tokens == Min(b.tokens + n * cfg.rate, cfg.burst)
            && r.lastFill == b.lastFill + n * cfg.interval
            && r.lastFill <= now < r.lastFill + cfg.interval
  {
    var n := (now - b.lastFill) / cfg.interval;
    assert n * cfg.interval <= now - b.lastFill < n * cfg.interval + cfg.interval;
    if n > 0 { assert n * cfg.rate >= 1 by { ProductAtLeast(n, cfg.rate); } }
  }

  lemma ProductAtLeast(a: nat, b: nat)
    requires b >= 1
    ensures a * b >= a
  {
  }

  lemma NextKeepsValid(cfg: Config, s: Buckets, clock: nat, e: Event)
    requires Sane(cfg) && Valid(cfg, s, clock) && clock <= e.at
    ensures Valid(cfg, Next(cfg, s, e), e.at)
  {
    if e.Allow? {
      RefilledFacts(cfg, if e.peer in s then s[e.peer] else Bucket(cfg.burst, e.at), e.at);
    }
  }

  // How many calls of the peer that lie in [t1, t2] are granted
  function GrantedIn(cfg: Config, s: Buckets, events: seq<Event>, peer: PeerId, t1: nat, t2: nat): nat
    requires Sane(cfg)
    decreases |events|
  {
    if events == [] then 0
    else
      var e := events[0];
      (if e.Allow? && e.peer == peer && t1 <= e.at <= t2 && Granted(cfg, s, peer, e.at) then 1 else 0)
        + GrantedIn(cfg, Next(cfg, s, e), events[1..], peer, t1, t2)
  }

  // The bucket of a connected peer is not removed; ids are never reused after that
  predicate NotRemoved(events: seq<Event>, peer: PeerId) {
    forall i | 0 <= i < |events| :: !(events[i].Remove? && events[i].peer == peer)
  }

  // What the peer can still get up to t2: the tokens it has and those that will be added
  function Budget(cfg: Config, s: Buckets, peer: PeerId, clock: nat, t2: nat): int
    requires Sane(cfg)
  {
    if t2 < clock then 0
    else if peer in s then s[peer].tokens + cfg.rate * ((t2 - s[peer].lastFill) / cfg.interval)
    else cfg.burst + cfg.rate * ((t2 - clock) / cfg.interval)
  }

  lemma DivShift(x: nat, n: nat, d: nat)
    requires d >= 1 && n * d <= x
    ensures (x - n * d) / d == x / d - n
  {
    var q := x / d;
    assert x - n * d == (q - n) * d + x % d;
    DivUnique(x - n * d, d, q - n, x % d);
  }

  lemma DivUnique(x: nat, d: nat, q: int, r: nat)
    requires d >= 1 && x == q * d + r && r < d
    ensures x / d == q
  {
    var k := x / d;
    assert x == k * d + x % d;
    if k < q { assert (q - k) * d >= d by { ProductAtLeast2(q - k, d); } }
    if k > q { assert (k - q) * d >= d by { ProductAtLeast2(k - q, d); } }
  }

  lemma ProductAtLeast2(a: nat, d: nat)
    requires a >= 1
    ensures a * d >= d
  {
  }

  lemma DivMonotone(x: nat, y: nat, d: nat)
    requires d >= 1 && x <= y
    ensures x / d <= y / d
  {
    var k := x / d - y / d;
    assert k * d == (x / d) * d - (y / d) * d;
    assert k >= 1 ==> k * d >= d;
  }

  // Refilling does not add to the budget
  lemma RefillKeepsBudget(cfg: Config, b: Bucket, now: nat, t2: nat)
    requires Sane(cfg) && b.tokens <= cfg.burst && b.lastFill <= now <= t2
    ensures var r := Refilled(cfg, b, now);
            && r.lastFill <= now
            && r.tokens + cfg.rate * ((t2 - r.lastFill) / cfg.interval)
               <= b.tokens + cfg.rate * ((t2 - b.lastFill) / cfg.interval)
  {
    RefilledFacts(cfg, b, now);
    var n := (now - b.lastFill) / cfg.interval;
    var q := (t2 - b.lastFill) / cfg.interval;
    DivShift(t2 - b.lastFill, n, cfg.interval);
    assert cfg.rate * (q - n) == cfg.rate * q - n * cfg.rate;
  }

  lemma BurstFits(q: nat, k: nat, burst: nat, rate: nat)
    requires k + burst <= q && rate >= 1
    ensures burst + rate * k <= rate * q
  {
    ScaleUp(rate, k + burst, q);
    Distributes(rate, k, burst);
    ProductAtLeast(burst, rate);
  }

  lemma Distributes(r: nat, a: nat, b: nat)
    ensures r * (a + b) == r * a + b * r
  {
  }

  lemma IntervalsPassed(from: nat, to: nat, end: nat, interval: nat, n: nat)
    requires interval >= 1 && n * interval <= to - from && from <= to <= end
    ensures (end - to) / interval + n <= (end - from) / interval
  {
    DivShift(end - from, n, interval);
    DivMonotone(end - to, end - from - n * interval, interval);
  }

  // A bucket idle past the threshold would be full again: forgetting it gives nothing away
  lemma PruneKeepsBudget(cfg: Config, b: Bucket, now: nat, t2: nat)
    requires Sane(cfg) && b.lastFill <= now <= t2 && Idle(cfg, b, now)
    ensures cfg.burst + cfg.rate * ((t2 - now) / cfg.interval)
            <= b.tokens + cfg.rate * ((t2 - b.lastFill) / cfg.interval)
  {
    IdleIntervals(cfg, b, now, t2);
    BurstFits((t2 - b.lastFill) / cfg.interval, (t2 - now) / cfg.interval, cfg.burst, cfg.rate);
  }

  lemma IdleIntervals(cfg: Config, b: Bucket, now: nat, t2: nat)
    requires Sane(cfg) && b.lastFill <= now <= t2 && Idle(cfg, b, now)
    ensures (t2 - now) / cfg.interval + cfg.burst <= (t2 - b.lastFill) / cfg.interval
  {
    IdleForBurst(cfg, b, now);
    IntervalsPassed(b.lastFill, now, t2, cfg.interval, cfg.burst);
  }

  lemma IdleForBurst(cfg: Config, b: Bucket, now: nat)
    requires b.lastFill <= now && Idle(cfg, b, now)
    ensures cfg.burst * cfg.interval <= now - b.lastFill
  {
  }

  lemma ScaleUp(r: nat, a: nat, b: nat)
    requires a <= b
    ensures r * a <= r * b
  {
    assert r * b == r * a + r * (b - a);
  }

  lemma WaitingKeepsBudget(cfg: Config, c1: nat, c2: nat, t2: nat)
    requires Sane(cfg) && c1 <= c2 <= t2
    ensures cfg.rate * ((t2 - c2) / cfg.interval) <= cfg.rate * ((t2 - c1) / cfg.interval)
  {
    DivMonotone(t2 - c2, t2 - c1, cfg.interval);
    ScaleUp(cfg.rate, (t2 - c2) / cfg.interval, (t2 - c1) / cfg.interval);
  }

  lemma BudgetIsNat(cfg: Config, s: Buckets, peer: PeerId, clock: nat, t2: nat)
    requires Sane(cfg) && Valid(cfg, s, clock)
    ensures Budget(cfg, s, peer, clock, t2) >= 0
  {
    if clock <= t2 && peer in s {
      ScaleUp(cfg.rate, 0, (t2 - s[peer].lastFill) / cfg.interval);
    }
  }

  // Every event spends at least what it grants from the budget
  lemma BudgetPays(cfg: Config, s: Buckets, peer: PeerId, clock: nat, t2: nat, e: Event)
    requires Sane(cfg) && Valid(cfg, s, clock) && clock <= e.at
    requires !(e.Remove? && e.peer == peer)
    ensures Budget(cfg, Next(cfg, s, e), peer, e.at, t2)
            + (if e.Allow? && e.peer == peer && e.at <= t2 && Granted(cfg, s, peer, e.at) then 1 else 0)
            <= Budget(cfg, s, peer, clock, t2)
  {
    BudgetIsNat(cfg, s, peer, clock, t2);
    if e.at <= t2 {
      WaitingKeepsBudget(cfg, clock, e.at, t2);
      if e.Allow? && e.peer == peer {
        RefillKeepsBudget(cfg, if peer in s then s[peer] else Bucket(cfg.burst, e.at), e.at, t2);
      } else if e.Prune? && peer in s && Idle(cfg, s[peer], e.at) {
        PruneKeepsBudget(cfg, s[peer], e.at, t2);
      }
    }
  }

  lemma {:induction false} GrantedWithinBudget(cfg: Config, s: Buckets, events: seq<Event>, peer: PeerId, clock: nat,
                                               t1: nat, t2: nat)
    requires Sane(cfg) && Valid(cfg, s, clock) && Ticking(clock, events) && NotRemoved(events, peer)
    ensures GrantedIn(cfg, s, events, peer, t1, t2) <= Budget(cfg, s, peer, clock, t2)
    decreases |events|
  {
    BudgetIsNat(cfg, s, peer, clock, t2);
    if events != [] {
      var e := events[0];
      NextKeepsValid(cfg, s, clock, e);
      BudgetPays(cfg, s, peer, clock, t2, e);
      assert NotRemoved(events[1..], peer);
      GrantedWithinBudget(cfg, Next(cfg, s, e), events[1..], peer, e.at, t1, t2);
    }
  }

  function WindowCap(cfg: Config, t1: nat, t2: nat): nat
    requires Sane(cfg) && t1 <= t2
  {
    cfg.burst + cfg.rate * ((t2 - t1) / cfg.interval + 1)
  }

  // A refilled bucket has started less than an interval before the call
  lemma OneMoreInterval(lastFill: nat, now: nat, t1: nat, t2: nat, interval: nat)
    requires interval >= 1 && lastFill <= now < lastFill + interval && t1 <= now <= t2
    ensures (t2 - lastFill) / interval <= (t2 - t1) / interval + 1
  {
    DivShift(t2 - t1 + interval, 1, interval);
    DivMonotone(t2 - lastFill, t2 - t1 + interval, interval);
  }

  // The first counted call finds at most a burst, and less than an interval already started
  lemma FirstCallWithinCap(cfg: Config, s: Buckets, peer: PeerId, clock: nat, now: nat, t1: nat, t2: nat)
    requires Sane(cfg) && Valid(cfg, s, clock) && clock <= now && t1 <= now <= t2
    ensures Budget(cfg, Next(cfg, s, Allow(peer, now)), peer, now, t2)
            + (if Granted(cfg, s, peer, now) then 1 else 0) <= WindowCap(cfg, t1, t2)
  {
    var b := Looked(cfg, s, peer, now);
    assert b.tokens <= cfg.burst && b.lastFill <= now < b.lastFill + cfg.interval by {
      RefilledFacts(cfg, if peer in s then s[peer] else Bucket(cfg.burst, now), now);
    }
    SpentPlusRest(cfg, s, peer, now, t2);
    OneMoreInterval(b.lastFill, now, t1, t2, cfg.interval);
    ScaleUp(cfg.rate, (t2 - b.lastFill) / cfg.interval, (t2 - t1) / cfg.interval + 1);
  }

  // A call turns one token of the refilled bucket into a grant
  lemma SpentPlusRest(cfg: Config, s: Buckets, peer: PeerId, now: nat, t2: nat)
    requires Sane(cfg) && now <= t2 && Looked(cfg, s, peer, now).lastFill <= t2
    ensures var b := Looked(cfg, s, peer, now);
            Budget(cfg, Next(cfg, s, Allow(peer, now)), peer, now, t2)
            + (if Granted(cfg, s, peer, now) then 1 else 0)
            == b.tokens + cfg.rate * ((t2 - b.lastFill) / cfg.interval)
  {
    var b := Looked(cfg, s, peer, now);
    var t := Next(cfg, s, Allow(peer, now));
    assert t[peer].lastFill == b.lastFill;
  }

  lemma FirstCounted(cfg: Config, s: Buckets, events: seq<Event>, peer: PeerId, clock: nat, t1: nat, t2: nat)
    requires Sane(cfg) && Valid(cfg, s, clock) && Ticking(clock, events) && NotRemoved(events, peer)
    requires events != [] && events[0].Allow? && events[0].peer == peer && t1 <= events[0].at <= t2
    ensures GrantedIn(cfg, s, events, peer, t1, t2) <= WindowCap(cfg, t1, t2)
  {
    var e := events[0];
    NextKeepsValid(cfg, s, clock, e);
    assert NotRemoved(events[1..], peer);
    FirstCallWithinCap(cfg, s, peer, clock, e.at, t1, t2);
    GrantedWithinBudget(cfg, Next(cfg, s, e), events[1..], peer, e.at, t1, t2);
  }

  lemma {:induction false} GrantedWithinCap(cfg: Config, s: Buckets, events: seq<Event>, peer: PeerId, clock: nat,
                                            t1: nat, t2: nat)
    requires Sane(cfg) && Valid(cfg, s, clock) && Ticking(clock, events) && NotRemoved(events, peer)
    requires t1 <= t2
    ensures GrantedIn(cfg, s, events, peer, t1, t2) <= WindowCap(cfg, t1, t2)
    decreases |events|
  {
    if events != [] {
      var e := events[0];
      if e.Allow? && e.peer == peer && t1 <= e.at <= t2 {
        FirstCounted(cfg, s, events, peer, clock, t1, t2);
      } else {
        NextKeepsValid(cfg, s, clock, e);
        assert NotRemoved(events[1..], peer);
        GrantedWithinCap(cfg, Next(cfg, s, e), events[1..], peer, e.at, t1, t2);
      }
    }
  }

  // In any window [t1, t2] of any run, pruned or not, a peer gets at most a burst and a
  // refill for every interval begun
  lemma WindowBound(cfg: Config, s: Buckets, events: seq<Event>, peer: PeerId, clock: nat, t1: nat, t2: nat)
    requires Sane(cfg) && Valid(cfg, s, clock) && Ticking(clock, events) && NotRemoved(events, peer)
    requires t1 <= t2
    ensures GrantedIn(cfg, s, events, peer, t1, t2) <= cfg.burst + cfg.rate * ((t2 - t1) / cfg.interval + 1)
  {
    GrantedWithinCap(cfg, s, events, peer, clock, t1, t2);
  }

  // Callers that keep to the rate

  function CallTimes(events: seq<Event>, peer: PeerId): seq<nat> {
    if events == [] then []
    else (if events[0].Allow? && events[0].peer == peer then [events[0].at] else []) + CallTimes(events[1..], peer)
  }

  // How many of the instants lie in the half-open window of the given width from lo
  function CountIn(ts: seq<nat>, lo: nat, width: nat): nat {
    if ts == [] then 0
    else CountIn(ts[..|ts| - 1], lo, width) + if lo <= ts[|ts| - 1] < lo + width then 1 else 0
  }

  // Every half-open window of one interval has at most `rate` calls
  ghost predicate Conforms(cfg: Config, ts: seq<nat>) {
    forall x: nat :: CountIn(ts, x, cfg.interval) <= cfg.rate
  }

  predicate NeverRefused(cfg: Config, s: Buckets, events: seq<Event>, peer: PeerId)
    requires Sane(cfg)
    decreases |events|
  {
    events == [] ||
    var e := events[0];
    && (e.Allow? && e.peer == peer ==> Granted(cfg, s, peer, e.at))
    && NeverRefused(cfg, Next(cfg, s, e), events[1..], peer)
  }

  lemma {:induction false} CountAppend(ts: seq<nat>, more: seq<nat>, lo: nat, width: nat)
    ensures CountIn(ts + more, lo, width) >= CountIn(ts, lo, width)
    decreases |more|
  {
    if more == [] {
      assert ts + more == ts;
    } else {
      assert (ts + more)[..|ts + more| - 1] == ts + more[..|more| - 1];
      CountAppend(ts, more[..|more| - 1], lo, width);
    }
  }

  lemma CountOne(ts: seq<nat>, t: nat, lo: nat, width: nat)
    ensures CountIn(ts + [t], lo, width) == CountIn(ts, lo, width) + if lo <= t < lo + width then 1 else 0
  {
    assert (ts + [t])[..|ts|] == ts;
  }

  lemma {:induction false} CountNone(ts: seq<nat>, lo: nat, width: nat)
    requires forall i | 0 <= i < |ts| :: ts[i] < lo
    ensures CountIn(ts, lo, width) == 0
    decreases |ts|
  {
    if ts != [] { CountNone(ts[..|ts| - 1], lo, width); }
  }

  // The calls so far: none in the future, and those since the last fill are within its interval
  // and are the only tokens missing
  ghost predicate Accounted(cfg: Config, s: Buckets, peer: PeerId, past: seq<nat>, clock: nat)
    requires Sane(cfg)
  {
    && (forall i | 0 <= i < |past| :: past[i] <= clock)
    && (peer in s ==>
          && s[peer].lastFill <= clock && s[peer].tokens <= cfg.burst
          && (forall i | 0 <= i < |past| :: past[i] < s[peer].lastFill + cfg.interval)
          && s[peer].tokens + CountIn(past, s[peer].lastFill, cfg.interval) >= cfg.burst)
  }

  lemma ShortWaitKeeps(cfg: Config, b: Bucket, now: nat)
    requires Sane(cfg) && b.lastFill <= now < b.lastFill + cfg.interval
    ensures Refilled(cfg, b, now) == b
  {
    DivUnique(now - b.lastFill, cfg.interval, 0, now - b.lastFill);
  }

  lemma LongWaitRefills(cfg: Config, b: Bucket, now: nat)
    requires Sane(cfg) && b.tokens <= cfg.burst && b.lastFill + cfg.interval <= now
    ensures var r := Refilled(cfg, b, now);
            && r.tokens <= cfg.burst && r.tokens >= Min(b.tokens + cfg.rate, cfg.burst)
            && b.lastFill + cfg.interval <= r.lastFill <= now < r.lastFill + cfg.interval
  {
    RefilledFacts(cfg, b, now);
    var n := (now - b.lastFill) / cfg.interval;
    DivMonotone(cfg.interval, now - b.lastFill, cfg.interval);
    DivUnique(cfg.interval, cfg.interval, 1, 0);
    ScaleUp(cfg.interval, 1, n);
    ScaleUp(cfg.rate, 1, n);
  }

  // After the refill the missing tokens are the earlier calls of the interval now running
  lemma RefillCatchesUp(cfg: Config, b: Bucket, past: seq<nat>, now: nat)
    requires Sane(cfg) && b.lastFill <= now && b.tokens <= cfg.burst
    requires forall i | 0 <= i < |past| :: past[i] < b.lastFill + cfg.interval
    requires CountIn(past, b.lastFill, cfg.interval) <= cfg.rate
    requires b.tokens + CountIn(past, b.lastFill, cfg.interval) >= cfg.burst
    ensures var r := Refilled(cfg, b, now);
            && r.tokens <= cfg.burst && r.lastFill <= now < r.lastFill + cfg.interval
            && (forall i | 0 <= i < |past| :: past[i] < r.lastFill + cfg.interval)
            && r.tokens + CountIn(past, r.lastFill, cfg.interval) >= cfg.burst
  {
    var r := Refilled(cfg, b, now);
    if now < b.lastFill + cfg.interval {
      ShortWaitKeeps(cfg, b, now);
    } else {
      LongWaitRefills(cfg, b, now);
      CountNone(past, r.lastFill, cfg.interval);
    }
  }

  lemma SpendAccounted(cfg: Config, r: Bucket, past: seq<nat>, now: nat)
    requires Sane(cfg) && cfg.rate <= cfg.burst && r.lastFill <= now < r.lastFill + cfg.interval
    requires r.tokens + CountIn(past, r.lastFill, cfg.interval) >= cfg.burst
    requires Conforms(cfg, past + [now])
    ensures r.tokens > 0
    ensures r.tokens - 1 + CountIn(past + [now], r.lastFill, cfg.interval) >= cfg.burst
  {
    CountOne(past, now, r.lastFill, cfg.interval);
  }

  lemma AllowAccounted(cfg: Config, s: Buckets, peer: PeerId, past: seq<nat>, clock: nat, now: nat)
    requires Sane(cfg) && cfg.rate <= cfg.burst && Accounted(cfg, s, peer, past, clock) && clock <= now
    requires Conforms(cfg, past + [now])
    ensures Granted(cfg, s, peer, now)
    ensures Accounted(cfg, Next(cfg, s, Allow(peer, now)), peer, past + [now], now)
  {
    var b := if peer in s then s[peer] else Bucket(cfg.burst, now);
    CountAppend(past, [now], b.lastFill, cfg.interval);
    RefillCatchesUp(cfg, b, past, now);
    SpendAccounted(cfg, Refilled(cfg, b, now), past, now);
  }

  // A caller that keeps to the rate in every interval is never refused, whatever the
  // remainders of its refills and whenever its bucket is pruned
  lemma {:induction false} ConformingNeverRefused(cfg: Config, s: Buckets, events: seq<Event>, peer: PeerId,
                                                  past: seq<nat>, clock: nat)
    requires Sane(cfg) && cfg.rate <= cfg.burst
    requires Accounted(cfg, s, peer, past, clock) && Ticking(clock, events)
    requires Conforms(cfg, past + CallTimes(events, peer))
    ensures NeverRefused(cfg, s, events, peer)
    decreases |events|
  {
    if events != [] {
      var e, rest := events[0], CallTimes(events[1..], peer);
      if e.Allow? && e.peer == peer {
        assert past + CallTimes(events, peer) == past + [e.at] + rest;
        forall x: nat ensures CountIn(past + [e.at], x, cfg.interval) <= cfg.rate {
          CountAppend(past + [e.at], rest, x, cfg.interval);
        }
        AllowAccounted(cfg, s, peer, past, clock, e.at);
        ConformingNeverRefused(cfg, Next(cfg, s, e), events[1..], peer, past + [e.at], e.at);
      } else {
        assert past + CallTimes(events, peer) == past + rest;
        ConformingNeverRefused(cfg, Next(cfg, s, e), events[1..], peer, past, e.at);
      }
    }
  }

  // The limits the gateway creates meet the condition
  lemma GatewayLimitsServeConforming(events: seq<Event>, peer: PeerId, cfg: Config)
    requires cfg in {Config(10, 1_000_000_000, 20), Config(1, 2_000_000_000, 3), Config(50, 1_000_000_000, 100)}
    requires Ticking(0, events) && Conforms(cfg, CallTimes(events, peer))
    ensures NeverRefused(cfg, map[], events, peer)
  {
    assert [] + CallTimes(events, peer) == CallTimes(events, peer);
    ConformingNeverRefused(cfg, map[], events, peer, [], 0);
  }

  class RateLimiter {
    const cfg: Config
    var buckets: Buckets

    constructor (rate: nat, interval: nat, burst: nat)
      ensures cfg == Config(rate, interval, burst) && buckets == map[]
    {
      cfg, buckets := Config(rate, interval, burst), map[];
    }

    method Allow(peer: PeerId, now: nat) returns (ok: bool)
      requires Sane(cfg) && Valid(cfg, buckets, now)
      modifies this
      ensures ok <==> Granted(cfg, old(buckets), peer, now)
      ensures buckets == Next(cfg, old(buckets), Event.Allow(peer, now)) && Valid(cfg, buckets, now)
    {
      NextKeepsValid(cfg, buckets, now, Event.Allow(peer, now));
      var b := if peer in buckets then buckets[peer] else Bucket(cfg.burst, now);
      var elapsed := now - b.lastFill;
      var intervals := elapsed / cfg.interval;
      var refill := intervals * cfg.rate;
      if refill > 0 {
        var tokens := b.tokens + refill;
        if tokens > cfg.burst {
          tokens := cfg.burst;
        }
        b := Bucket(tokens, b.lastFill + intervals * cfg.interval);
      }
      if b.tokens <= 0 {
        buckets := buckets[peer := b];
        return false;
      }
      buckets := buckets[peer := b.(tokens := b.tokens - 1)];
      return true;
    }

    // One tick of pruneLoop
    method Prune(now: nat)
      requires Sane(cfg)
      modifies this
      ensures buckets == Next(cfg, old(buckets), Event.Prune(now))
    {
      var threshold := cfg.interval * cfg.burst;
      if threshold < MINUTE {
        threshold := MINUTE;
      }
      var left := buckets.Keys;
      ghost var before := buckets;
      while left != {}
        invariant left <= before.Keys
        invariant buckets == map p | p in before && (p in left || !Idle(cfg, before[p], now)) :: before[p]
        decreases left
      {
        var id :| id in left;
        left := left - {id};
        if now - buckets[id].lastFill > threshold {
          buckets := buckets - {id};
        }
      }
    }

    method Remove(peer: PeerId, ghost now: nat)
      requires Sane(cfg)
      modifies this
      ensures buckets == Next(cfg, old(buckets), Event.Remove(peer, now))
    {
      buckets := buckets - {peer};
    }
  }
}
