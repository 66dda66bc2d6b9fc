/**
 The gateway's token buckets by their calls alone (services/gateway/cmd/gateway/main.go). A bucket that is made
 with a peer's first call gains the rate at every full interval from then on, up to the burst: the stored
 instant of the last refill, which moves by whole intervals, is never needed to say who is granted.
 */
module TokenCredit {
  import opened Arith
  import opened TokenBucket

  function Run(cfg: Config, s: Buckets, events: seq<Event>): Buckets
    requires cfg.interval >= 1
    decreases |events|
  {
    if events == [] then s else Run(cfg, Next(cfg, s, events[0]), events[1..])
  }

  // Full intervals since the bucket was made
  function Intervals(cfg: Config, made: nat, now: nat): int
    requires cfg.interval >= 1
  {
    (now - made) / cfg.interval
  }

  // The tokens after these calls, and those that the next one finds
  function Left(cfg: Config, ts: seq<nat>): int
    requires cfg.interval >= 1
    decreases |ts|, 0
  {
    if ts == [] then cfg.burst
    else
      var found := Found(cfg, ts[..|ts| - 1], ts[|ts| - 1]);
      if found > 0 then found - 1 else 0
  }

  function Found(cfg: Config, ts: seq<nat>, now: nat): int
    requires cfg.interval >= 1
    decreases |ts|, 1
  {
    if ts == [] then cfg.burst
    else
      var gained := cfg.rate * (Intervals(cfg, ts[0], now) - Intervals(cfg, ts[0], ts[|ts| - 1]));
      if Left(cfg, ts) + gained < cfg.burst then Left(cfg, ts) + gained else cfg.burst
  }

  // The last full interval that a call has seen begin
  function Seen(cfg: Config, ts: seq<nat>): int
    requires cfg.interval >= 1 && ts != []
  {
    ts[0] + cfg.interval * Intervals(cfg, ts[0], ts[|ts| - 1])
  }

  // The instants of the peer's calls since its bucket was made: it is forgotten with the connection, and by a
  // prune more than a minute and more than burst intervals after the last interval it has seen begin
  function Kept(cfg: Config, events: seq<Event>, peer: PeerId): seq<nat>
    requires cfg.interval >= 1
    decreases |events|
  {
    if events == [] then []
    else
      var kept := Kept(cfg, events[..|events| - 1], peer);
      match events[|events| - 1]
      case Allow(p, now) => if p == peer then kept + [now] else kept
      case Remove(p, _) => if p == peer then [] else kept
      case Prune(now) =>
        if kept != [] && now - Seen(cfg, kept) > 60_000_000_000 && now - Seen(cfg, kept) > cfg.interval * cfg.burst
        then [] else kept
  }

  // What a bucket is after these calls
  predicate Follows(cfg: Config, s: Buckets, peer: PeerId, ts: seq<nat>)
    requires cfg.interval >= 1
  {
    && (peer in s <==> ts != [])
    && (ts != [] ==> s[peer].tokens == Left(cfg, ts) && s[peer].lastFill == Seen(cfg, ts))
  }

  predicate Past(ts: seq<nat>, clock: nat) {
    ts != [] ==> ts[0] <= ts[|ts| - 1] <= clock
  }

  lemma WholeIntervals(made: nat, last: nat, now: nat, interval: nat)
    requires interval >= 1 && made <= last <= now
    ensures var seen := made + interval * ((last - made) / interval);
            && seen <= last
            && (now - seen) / interval == (now - made) / interval - (last - made) / interval
            && seen + (now - seen) / interval * interval == made + interval * ((now - made) / interval)
  {
    var q, n := (last - made) / interval, (now - made) / interval;
    var done := interval * q;
    assert done == q * interval <= last - made by { FloorBelow(last - made, interval); }
    assert (now - (made + done)) / interval == n - q by { DivShift(now - made, q, interval); }
    assert done + (n - q) * interval == interval * n by { SumOfProducts(interval, q, n); }
  }

  lemma FloorBelow(x: nat, d: nat)
    requires d >= 1
    ensures d * (x / d) == x / d * d <= x
  {
  }

  lemma SumOfProducts(d: nat, q: int, n: int)
    ensures d * q + (n - q) * d == d * n
  {
  }

  // The bucket that a call finds, refilled
  lemma FindsFound(cfg: Config, s: Buckets, peer: PeerId, ts: seq<nat>, now: nat)
    requires Sane(cfg) && Valid(cfg, s, now) && Follows(cfg, s, peer, ts) && Past(ts, now)
    ensures var b := Looked(cfg, s, peer, now);
            && b.tokens == Found(cfg, ts, now)
            && b.lastFill == (if ts == [] then now else ts[0] + cfg.interval * Intervals(cfg, ts[0], now))
  {
    RefilledFacts(cfg, if peer in s then s[peer] else Bucket(cfg.burst, now), now);
    if ts != [] {
      WholeIntervals(ts[0], ts[|ts| - 1], now, cfg.interval);
    } else {
      DivUnique(0, cfg.interval, 0, 0);
    }
  }

  lemma CallFollows(cfg: Config, s: Buckets, peer: PeerId, ts: seq<nat>, now: nat)
    requires Sane(cfg) && Valid(cfg, s, now) && Follows(cfg, s, peer, ts) && Past(ts, now)
    ensures Follows(cfg, Next(cfg, s, Allow(peer, now)), peer, ts + [now]) && Past(ts + [now], now)
  {
    FindsFound(cfg, s, peer, ts, now);
    assert (ts + [now])[..|ts|] == ts;
    if ts == [] { DivUnique(0, cfg.interval, 0, 0); }
  }

  lemma {:induction false} RunAppends(cfg: Config, s: Buckets, events: seq<Event>, e: Event)
    requires cfg.interval >= 1
    ensures Run(cfg, s, events + [e]) == Next(cfg, Run(cfg, s, events), e)
    decreases |events|
  {
    if events == [] {
      assert [e][1..] == [];
    } else {
      assert (events + [e])[1..] == events[1..] + [e];
      RunAppends(cfg, Next(cfg, s, events[0]), events[1..], e);
    }
  }

  lemma {:induction false} TickingFront(from: nat, events: seq<Event>, e: Event)
    requires Ticking(from, events + [e])
    ensures Ticking(from, events) && from <= e.at && (events != [] ==> events[|events| - 1].at <= e.at)
    decreases |events|
  {
    if events != [] {
      assert (events + [e])[1..] == events[1..] + [e];
      TickingFront(events[0].at, events[1..], e);
    }
  }

  function Clock(events: seq<Event>): nat {
    if events == [] then 0 else events[|events| - 1].at
  }

  lemma StepFollows(cfg: Config, s: Buckets, peer: PeerId, before: seq<Event>, e: Event)
    requires Sane(cfg) && Valid(cfg, s, e.at)
    requires Follows(cfg, s, peer, Kept(cfg, before, peer)) && Past(Kept(cfg, before, peer), e.at)
    ensures var kept := Kept(cfg, before + [e], peer);
            Follows(cfg, Next(cfg, s, e), peer, kept) && Past(kept, e.at)
  {
    assert (before + [e])[..|before|] == before;
    if e.Allow? && e.peer == peer {
      CallFollows(cfg, s, peer, Kept(cfg, before, peer), e.at);
    }
  }

  // After any calls, prunes and removals a peer has the tokens that its calls since then have left it
  lemma {:induction false} TokensFollowCalls(cfg: Config, events: seq<Event>, peer: PeerId)
    requires Sane(cfg) && Ticking(0, events)
    ensures Valid(cfg, Run(cfg, map[], events), Clock(events))
    ensures Follows(cfg, Run(cfg, map[], events), peer, Kept(cfg, events, peer))
    ensures Past(Kept(cfg, events, peer), Clock(events))
    decreases |events|
  {
    if events != [] {
      var before, e := events[..|events| - 1], events[|events| - 1];
      assert events == before + [e];
      TickingFront(0, before, e);
      TokensFollowCalls(cfg, before, peer);
      RunAppends(cfg, map[], before, e);
      NextKeepsValid(cfg, Run(cfg, map[], before), Clock(before), e);
      StepFollows(cfg, Run(cfg, map[], before), peer, before, e);
    }
  }

  // Whoever calls, a call is granted if and only if its bucket has a token for it then
  lemma GrantedExactlyWhen(cfg: Config, events: seq<Event>, peer: PeerId, now: nat)
    requires Sane(cfg) && Ticking(0, events + [Allow(peer, now)])
    ensures Granted(cfg, Run(cfg, map[], events), peer, now) <==> Found(cfg, Kept(cfg, events, peer), now) > 0
  {
    TickingFront(0, events, Allow(peer, now));
    TokensFollowCalls(cfg, events, peer);
    FindsFound(cfg, Run(cfg, map[], events), peer, Kept(cfg, events, peer), now);
  }

  // ---- Waiting helps ----

  // Whatever the peer has spent, an interval after its last refill it is granted a call
  lemma WaitIsRewarded(cfg: Config, s: Buckets, peer: PeerId, clock: nat, now: nat)
    requires Sane(cfg) && cfg.burst >= 1 && Valid(cfg, s, clock) && clock <= now
    requires peer in s ==> s[peer].lastFill + cfg.interval <= now
    ensures Granted(cfg, s, peer, now)
  {
    if peer in s {
      LongWaitRefills(cfg, s[peer], now);
    } else {
      RefilledFacts(cfg, Bucket(cfg.burst, now), now);
    }
  }

  function Calls(peer: PeerId, now: nat, k: nat): seq<Event> {
    if k == 0 then [] else [Allow(peer, now)] + Calls(peer, now, k - 1)
  }

  lemma {:induction false} TokensAreGranted(cfg: Config, s: Buckets, peer: PeerId, now: nat, k: nat)
    requires Sane(cfg) && peer in s && s[peer].lastFill <= now < s[peer].lastFill + cfg.interval
    ensures GrantedIn(cfg, s, Calls(peer, now, k), peer, now, now) == Min(k, s[peer].tokens)
    decreases k
  {
    if k > 0 {
      ShortWaitKeeps(cfg, s[peer], now);
      var events := Calls(peer, now, k);
      assert events[1..] == Calls(peer, now, k - 1);
      TokensAreGranted(cfg, Next(cfg, s, events[0]), peer, now, k - 1);
    }
  }

  // n intervals after its last refill an empty bucket gives n times the rate, at most a burst, and no more
  lemma SpentBucketGives(cfg: Config, s: Buckets, peer: PeerId, clock: nat, n: nat, now: nat, k: nat)
    requires Sane(cfg) && Valid(cfg, s, clock) && clock <= now && peer in s && s[peer].tokens == 0
    requires s[peer].lastFill + n * cfg.interval <= now < s[peer].lastFill + n * cfg.interval + cfg.interval
    ensures GrantedIn(cfg, s, Calls(peer, now, k), peer, now, now) == Min(k, Min(n * cfg.rate, cfg.burst))
  {
    if k > 0 {
      RefilledFacts(cfg, s[peer], now);
      DivUnique(now - s[peer].lastFill, cfg.interval, n, now - s[peer].lastFill - n * cfg.interval);
      var events := Calls(peer, now, k);
      assert events[1..] == Calls(peer, now, k - 1);
      TokensAreGranted(cfg, Next(cfg, s, events[0]), peer, now, k - 1);
    }
  }
}
