/**
 The relay's per-address connection limiter (services/relay/src/main.rs): a table of the
 accepted instants of each address, trimmed to the last second, with a cap on how many
 addresses are tracked. It is proved to decide as the full history of accepted instants
 would, whatever prunes happen in between.
 */
module IpLimiter {
  import opened Sets

  const MAX_CONN_PER_IP_PER_SEC: nat := 10
  const MAX_RATE_LIMITER_IPS: nat := 100_000
  const WINDOW: nat := 1_000_000_000 // one second, in nanoseconds

  type Ip = nat
  type Instants = seq<nat>

  // retain(|t| now - t < window)
  function Recent(ts: Instants, now: nat): Instants {
    if ts == [] then []
    else
      var rest := Recent(ts[..|ts| - 1], now);
      if now - ts[|ts| - 1] < WINDOW then rest + [ts[|ts| - 1]] else rest
  }

  function Find(m: map<Ip, Instants>, ip: Ip): Instants {
    if ip in m then m[ip] else []
  }

  // The decision on the full history: fewer than ten acceptances in the last second, and
  // room in the table when the address is not tracked
  predicate Permitted(history: map<Ip, Instants>, tracked: set<Ip>, ip: Ip, now: nat) {
    && (ip in tracked || |tracked| < MAX_RATE_LIMITER_IPS)
    && |Recent(Find(history, ip), now)| < MAX_CONN_PER_IP_PER_SEC
  }

  // Trimming at one instant and again at a later one is trimming at the later one
  lemma {:induction false} RecentTwice(ts: Instants, earlier: nat, now: nat)
    requires earlier <= now
    ensures Recent(Recent(ts, earlier), now) == Recent(ts, now)
  {
    if ts != [] {
      var last, front := ts[|ts| - 1], ts[..|ts| - 1];
      RecentTwice(front, earlier, now);
      if earlier - last < WINDOW {
        var kept := Recent(front, earlier) + [last];
        assert kept[..|kept| - 1] == Recent(front, earlier);
      }
    }
  }

  lemma RecentAppend(ts: Instants, t: nat, now: nat)
    ensures Recent(ts + [t], now) == Recent(ts, now) + if now - t < WINDOW then [t] else []
  {
    assert (ts + [t])[..|ts|] == ts;
  }

  // A call to allow, or a tick of the prune task, with the instant at which it happens
  datatype Call = Connect(ip: Ip, at: nat) | Sweep(at: nat)

  // The table, and beside it every instant ever accepted and the time of the latest call
  datatype Table = Table(buckets: map<Ip, Instants>, history: map<Ip, Instants>, clock: nat)

  const EMPTY := Table(map[], map[], 0)

  predicate Tracks(s: Table, ip: Ip) {
    ip in s.buckets || |s.buckets| < MAX_RATE_LIMITER_IPS
  }

  predicate Accepts(s: Table, ip: Ip, now: nat) {
    Tracks(s, ip) && |Recent(Find(s.buckets, ip), now)| < MAX_CONN_PER_IP_PER_SEC
  }

  function Next(s: Table, call: Call): Table {
    match call
    case Connect(ip, now) =>
      var kept := Recent(Find(s.buckets, ip), now);
      if !Tracks(s, ip) then s.(clock := now)
      else if !Accepts(s, ip, now) then s.(buckets := s.buckets[ip := kept], clock := now)
      else Table(s.buckets[ip := kept + [now]], s.history[ip := Find(s.history, ip) + [now]], now)
    case Sweep(now) =>
      s.(buckets := map ip | ip in s.buckets && Recent(s.buckets[ip], now) != [] :: Recent(s.buckets[ip], now),
         clock := now)
  }

  function Run(s: Table, calls: seq<Call>): Table
    decreases |calls|
  {
    if calls == [] then s else Run(Next(s, calls[0]), calls[1..])
  }

  // The clock never goes back
  predicate Ticking(from: nat, calls: seq<Call>)
    decreases |calls|
  {
    calls == [] || (from <= calls[0].at && Ticking(calls[0].at, calls[1..]))
  }

  // Table and history agree on everything still in the window, now and at any later time
  ghost predicate Agrees(s: Table) {
    forall ip :: Recent(Find(s.buckets, ip), s.clock) == Recent(Find(s.history, ip), s.clock)
  }

  predicate Sorted(ts: Instants, now: nat) {
    && (forall i, j | 0 <= i < j < |ts| :: ts[i] <= ts[j])
    && (forall i | 0 <= i < |ts| :: ts[i] <= now)
  }

  // Any eleven acceptances in a row span a full second
  predicate Spread(ts: Instants) {
    forall i | 0 <= i < |ts| - MAX_CONN_PER_IP_PER_SEC :: ts[i + MAX_CONN_PER_IP_PER_SEC] - ts[i] >= WINDOW
  }

  ghost predicate Valid(s: Table) {
    && Agrees(s)
    && |s.buckets| <= MAX_RATE_LIMITER_IPS
    && forall ip | ip in s.history :: Sorted(s.history[ip], s.clock) && Spread(s.history[ip])
  }

  lemma AgreesLater(s: Table, later: nat)
    requires Agrees(s) && s.clock <= later
    ensures Agrees(s.(clock := later))
  {
    forall ip ensures Recent(Find(s.buckets, ip), later) == Recent(Find(s.history, ip), later) {
      RecentTwice(Find(s.buckets, ip), s.clock, later);
      RecentTwice(Find(s.history, ip), s.clock, later);
    }
  }

  // allow answers from its trimmed table exactly what the full history says
  lemma DecidesAsHistory(s: Table, ip: Ip, now: nat)
    requires Valid(s) && s.clock <= now
    ensures Accepts(s, ip, now) <==> Permitted(s.history, s.buckets.Keys, ip, now)
  {
    AgreesLater(s, now);
    assert Recent(Find(s.buckets, ip), now) == Recent(Find(s.history, ip), now);
  }

  lemma {:induction false} LastOnesAreRecent(ts: Instants, k: nat, now: nat)
    requires Sorted(ts, now) && k < |ts| && now - ts[k] < WINDOW
    ensures |Recent(ts, now)| >= |ts| - k
    decreases |ts|
  {
    if k < |ts| - 1 { LastOnesAreRecent(ts[..|ts| - 1], k, now); }
  }

  lemma AcceptKeepsSpread(ts: Instants, now: nat)
    requires Sorted(ts, now) && Spread(ts) && |Recent(ts, now)| < MAX_CONN_PER_IP_PER_SEC
    ensures Sorted(ts + [now], now) && Spread(ts + [now])
  {
    var k := |ts| - MAX_CONN_PER_IP_PER_SEC;
    if 0 <= k && now - ts[k] < WINDOW { LastOnesAreRecent(ts, k, now); }
  }

  // Trimming, then recording one more instant, agrees with recording it in the history
  lemma RecordAgrees(b: Instants, h: Instants, now: nat)
    requires Recent(b, now) == Recent(h, now)
    ensures Recent(Recent(b, now), now) == Recent(h, now)
    ensures Recent(Recent(b, now) + [now], now) == Recent(h + [now], now)
  {
    RecentTwice(b, now, now);
    RecentAppend(Recent(b, now), now, now);
    RecentAppend(h, now, now);
  }

  lemma ConnectKeepsAgrees(s: Table, ip: Ip, now: nat)
    requires Agrees(s) && s.clock <= now
    ensures Agrees(Next(s, Connect(ip, now)))
  {
    AgreesLater(s, now);
    var s' := Next(s, Connect(ip, now));
    var b, h := Find(s.buckets, ip), Find(s.history, ip);
    RecordAgrees(b, h, now);
    assert Recent(Find(s'.buckets, ip), now) == Recent(Find(s'.history, ip), now);
    forall other ensures Recent(Find(s'.buckets, other), now) == Recent(Find(s'.history, other), now) {
      if other != ip {
        assert Find(s'.buckets, other) == Find(s.buckets, other) && Find(s'.history, other) == Find(s.history, other);
        assert Recent(Find(s.buckets, other), now) == Recent(Find(s.history, other), now);
      }
    }
  }

  lemma SweepKeepsAgrees(s: Table, now: nat)
    requires Agrees(s) && s.clock <= now
    ensures Agrees(Next(s, Sweep(now))) && |Next(s, Sweep(now)).buckets| <= |s.buckets|
  {
    AgreesLater(s, now);
    var s' := Next(s, Sweep(now));
    SubsetSize(s'.buckets.Keys, s.buckets.Keys);
    forall ip ensures Recent(Find(s'.buckets, ip), now) == Recent(Find(s'.history, ip), now) {
      assert Recent(Find(s.buckets, ip), now) == Recent(Find(s.history, ip), now);
      RecentTwice(Find(s.buckets, ip), now, now);
    }
  }

  lemma ConnectKeepsCap(s: Table, ip: Ip, now: nat)
    requires |s.buckets| <= MAX_RATE_LIMITER_IPS
    ensures |Next(s, Connect(ip, now)).buckets| <= MAX_RATE_LIMITER_IPS
  {
    var keys := s.buckets.Keys;
    assert |s.buckets| == |keys|;
    assert ip in keys ==> keys + {ip} == keys;
    assert Next(s, Connect(ip, now)).buckets.Keys <= keys + {ip};
    var after := Next(s, Connect(ip, now)).buckets;
    assert |after| == |after.Keys|;
    assert after.Keys == keys || after.Keys == keys + {ip};
  }

  lemma ConnectKeepsSpread(s: Table, ip: Ip, now: nat)
    requires Valid(s) && s.clock <= now
    ensures var s' := Next(s, Connect(ip, now));
            forall other | other in s'.history :: Sorted(s'.history[other], now) && Spread(s'.history[other])
  {
    DecidesAsHistory(s, ip, now);
    if Accepts(s, ip, now) { AcceptKeepsSpread(Find(s.history, ip), now); }
  }

  lemma NextKeepsValid(s: Table, call: Call)
    requires Valid(s) && s.clock <= call.at
    ensures Valid(Next(s, call))
  {
    match call {
      case Connect(ip, now) =>
        ConnectKeepsAgrees(s, ip, now);
        ConnectKeepsCap(s, ip, now);
        ConnectKeepsSpread(s, ip, now);
      case Sweep(now) => SweepKeepsAgrees(s, now);
    }
  }

  // After any calls and prunes: the table is capped, it decides as the full history, and
  // no address was let in more than ten times within one second
  lemma {:induction false} LimiterOverRuns(s: Table, calls: seq<Call>, ip: Ip, now: nat)
    requires Valid(s) && Ticking(s.clock, calls) && Run(s, calls).clock <= now
    ensures var s' := Run(s, calls);
            && |s'.buckets| <= 100_000
            && (Accepts(s', ip, now) <==> Permitted(s'.history, s'.buckets.Keys, ip, now))
            && Spread(Find(s'.history, ip))
    decreases |calls|
  {
    if calls == [] {
      DecidesAsHistory(s, ip, now);
    } else {
      NextKeepsValid(s, calls[0]);
      LimiterOverRuns(Next(s, calls[0]), calls[1..], ip, now);
    }
  }

  // ---- What the answers say ----

  lemma {:induction false} RunAppends(s: Table, calls: seq<Call>, call: Call)
    ensures Run(s, calls + [call]) == Next(Run(s, calls), call)
    decreases |calls|
  {
    if calls == [] {
      assert [call][1..] == [];
    } else {
      assert (calls + [call])[1..] == calls[1..] + [call];
      RunAppends(Next(s, calls[0]), calls[1..], call);
    }
  }

  lemma {:induction false} TickingFront(from: nat, calls: seq<Call>, call: Call)
    requires Ticking(from, calls + [call])
    ensures Ticking(from, calls) && from <= call.at
    ensures calls != [] ==> calls[|calls| - 1].at <= call.at
    decreases |calls|
  {
    if calls != [] {
      assert (calls + [call])[1..] == calls[1..] + [call];
      TickingFront(calls[0].at, calls[1..], call);
    }
  }

  // The instants at which calls of the address were answered true
  function LetIn(calls: seq<Call>, ip: Ip): Instants
    decreases |calls|
  {
    if calls == [] then []
    else
      var before, last := calls[..|calls| - 1], calls[|calls| - 1];
      LetIn(before, ip)
      + if last.Connect? && last.ip == ip && Accepts(Run(EMPTY, before), ip, last.at) then [last.at] else []
  }

  // How many of the instants are less than a second ago
  function CountRecent(ts: Instants, now: nat): nat {
    if ts == [] then 0
    else CountRecent(ts[..|ts| - 1], now) + if now - ts[|ts| - 1] < 1_000_000_000 then 1 else 0
  }

  // The addresses that have called while there was room, but for those of which a later prune found no call
  // let in during the last second
  function Tracked(calls: seq<Call>): set<Ip>
    decreases |calls|
  {
    if calls == [] then {}
    else
      var before, last := calls[..|calls| - 1], calls[|calls| - 1];
      var tracked := Tracked(before);
      match last
      case Connect(ip, _) => if ip in tracked || |tracked| < 100_000 then tracked + {ip} else tracked
      case Sweep(now) => set ip | ip in tracked && CountRecent(LetIn(before, ip), now) > 0
  }

  lemma {:induction false} CountIsRecent(ts: Instants, now: nat)
    ensures CountRecent(ts, now) == |Recent(ts, now)|
  {
    if ts != [] { CountIsRecent(ts[..|ts| - 1], now); }
  }

  // The history is what has been answered true
  lemma {:induction false} HistoryIsLetIn(calls: seq<Call>, ip: Ip)
    ensures Find(Run(EMPTY, calls).history, ip) == LetIn(calls, ip)
    decreases |calls|
  {
    if calls != [] {
      var before, last := calls[..|calls| - 1], calls[|calls| - 1];
      HistoryIsLetIn(before, ip);
      RunAppends(EMPTY, before, last);
      assert calls == before + [last];
    }
  }

  lemma EmptyIsValid()
    ensures Valid(EMPTY)
  {
  }

  function ClockOf(calls: seq<Call>): nat {
    if calls == [] then 0 else calls[|calls| - 1].at
  }

  lemma {:induction false} ClockIsLast(calls: seq<Call>)
    ensures Run(EMPTY, calls).clock == ClockOf(calls)
  {
    if calls != [] {
      var before, last := calls[..|calls| - 1], calls[|calls| - 1];
      assert calls == before + [last];
      RunAppends(EMPTY, before, last);
    }
  }

  lemma OneMoreValid(before: seq<Call>, last: Call)
    requires Valid(Run(EMPTY, before)) && ClockOf(before) <= last.at
    ensures Valid(Run(EMPTY, before + [last]))
  {
    ClockIsLast(before);
    NextKeepsValid(Run(EMPTY, before), last);
    RunAppends(EMPTY, before, last);
  }

  lemma {:induction false} RunIsValid(calls: seq<Call>)
    requires Ticking(0, calls)
    ensures Valid(Run(EMPTY, calls))
    decreases |calls|
  {
    if calls == [] {
      EmptyIsValid();
    } else {
      var before, last := calls[..|calls| - 1], calls[|calls| - 1];
      assert calls == before + [last];
      TickingFront(0, before, last);
      RunIsValid(before);
      OneMoreValid(before, last);
    }
  }

  // Table and answers agree on how often the address was let in during the last second
  lemma WindowIsLetIn(calls: seq<Call>, call: Call, ip: Ip)
    requires Ticking(0, calls + [call])
    ensures |Recent(Find(Run(EMPTY, calls).buckets, ip), call.at)| == CountRecent(LetIn(calls, ip), call.at)
  {
    TickingFront(0, calls, call);
    RunIsValid(calls);
    ClockIsLast(calls);
    var s := Run(EMPTY, calls);
    AgreesLater(s, call.at);
    assert Recent(Find(s.buckets, ip), call.at) == Recent(Find(s.history, ip), call.at);
    HistoryIsLetIn(calls, ip);
    CountIsRecent(LetIn(calls, ip), call.at);
  }

  lemma ConnectTracks(s: Table, ip: Ip, now: nat)
    ensures var tracked := s.buckets.Keys;
            Next(s, Connect(ip, now)).buckets.Keys
            == if ip in tracked || |tracked| < 100_000 then tracked + {ip} else tracked
  {
    assert |s.buckets| == |s.buckets.Keys|;
  }

  lemma SweepTracks(s: Table, now: nat, ip: Ip)
    ensures ip in Next(s, Sweep(now)).buckets <==> ip in s.buckets && |Recent(Find(s.buckets, ip), now)| > 0
  {
  }

  lemma {:induction false} TableIsTracked(calls: seq<Call>)
    requires Ticking(0, calls)
    ensures Run(EMPTY, calls).buckets.Keys == Tracked(calls)
    decreases |calls|
  {
    if calls != [] {
      var before, last := calls[..|calls| - 1], calls[|calls| - 1];
      assert calls == before + [last];
      TickingFront(0, before, last);
      TableIsTracked(before);
      RunAppends(EMPTY, before, last);
      OneMoreTracked(before, last, Run(EMPTY, before));
    }
  }

  lemma OneMoreTracked(before: seq<Call>, last: Call, s: Table)
    requires Ticking(0, before + [last]) && s == Run(EMPTY, before) && s.buckets.Keys == Tracked(before)
    ensures Next(s, last).buckets.Keys == Tracked(before + [last])
  {
    assert (before + [last])[..|before|] == before;
    match last {
      case Connect(ip, now) => ConnectTracks(s, ip, now);
      case Sweep(now) =>
        forall ip ensures ip in Next(s, last).buckets <==> ip in Tracked(before + [last]) {
          SweepTracks(s, now, ip);
          WindowIsLetIn(before, last, ip);
        }
    }
  }

  /**
   The limiter, by its answers alone: a call is answered true if and only if its address is tracked or there is
   room for it, and fewer than ten of the address's calls of the last second have been answered true.
   */
  lemma AnsweredExactlyWhen(calls: seq<Call>, ip: Ip, now: nat)
    requires Ticking(0, calls + [Connect(ip, now)])
    ensures Accepts(Run(EMPTY, calls), ip, now) <==>
            (ip in Tracked(calls) || |Tracked(calls)| < 100_000) && CountRecent(LetIn(calls, ip), now) < 10
  {
    TickingFront(0, calls, Connect(ip, now));
    TableIsTracked(calls);
    WindowIsLetIn(calls, Connect(ip, now), ip);
    var s := Run(EMPTY, calls);
    assert |s.buckets| == |s.buckets.Keys|;
  }

  // How many of the instants lie in the second from lo on
  function CountWithin(ts: Instants, lo: nat): nat {
    if ts == [] then 0
    else CountWithin(ts[..|ts| - 1], lo) + if lo <= ts[|ts| - 1] < lo + 1_000_000_000 then 1 else 0
  }

  lemma {:induction false} CountedAreLast(ts: Instants, lo: nat, k: nat, now: nat)
    requires Sorted(ts, now) && 0 < k <= CountWithin(ts, lo)
    ensures k <= |ts| && ts[|ts| - k] >= lo
    decreases |ts|
  {
    var front, last := ts[..|ts| - 1], ts[|ts| - 1];
    if lo <= last < lo + WINDOW && k > 1 {
      CountedAreLast(front, lo, k - 1, now);
    } else if !(lo <= last < lo + WINDOW) {
      CountedAreLast(front, lo, k, now);
    }
  }

  lemma {:induction false} SpreadBoundsCount(ts: Instants, lo: nat, now: nat)
    requires Sorted(ts, now) && Spread(ts)
    ensures CountWithin(ts, lo) <= 10
    decreases |ts|
  {
    if ts != [] {
      var front := ts[..|ts| - 1];
      SpreadBoundsCount(front, lo, now);
      if CountWithin(front, lo) == 10 {
        CountedAreLast(front, lo, 10, now);
        assert ts[|ts| - 1] >= ts[|ts| - 11] + WINDOW >= lo + WINDOW;
      }
    }
  }

  // So no second whatever has more than ten calls of an address answered true
  lemma TenASecond(calls: seq<Call>, ip: Ip, lo: nat)
    requires Ticking(0, calls)
    ensures CountWithin(LetIn(calls, ip), lo) <= 10
  {
    RunIsValid(calls);
    HistoryIsLetIn(calls, ip);
    var s := Run(EMPTY, calls);
    SpreadBoundsCount(Find(s.history, ip), lo, s.clock);
  }

  class IpRateLimiter {
    var buckets: map<Ip, Instants>
    ghost var history: map<Ip, Instants>
    ghost var clock: nat

    ghost function View(): Table
      reads this
    {
      Table(buckets, history, clock)
    }

    constructor ()
      ensures View() == EMPTY && Valid(View())
    {
      buckets, history, clock := map[], map[], 0;
    }

    method Allow(ip: Ip, now: nat) returns (ok: bool)
      requires Valid(View()) && clock <= now
      modifies this
      ensures View() == Next(old(View()), Connect(ip, now)) && Valid(View())
      ensures ok <==> Permitted(old(history), old(buckets).Keys, ip, now)
      ensures ok <==> Accepts(old(View()), ip, now)
    {
      DecidesAsHistory(View(), ip, now);
      NextKeepsValid(View(), Connect(ip, now));
      clock := now;
      if ip !in buckets && |buckets| >= MAX_RATE_LIMITER_IPS {
        return false;
      }
      var timestamps := if ip in buckets then buckets[ip] else [];
      timestamps := Recent(timestamps, now);
      if |timestamps| >= MAX_CONN_PER_IP_PER_SEC {
        buckets := buckets[ip := timestamps];
        return false;
      }
      buckets := buckets[ip := timestamps + [now]];
      history := history[ip := Find(history, ip) + [now]];
      return true;
    }

    // Trims every address and forgets those with nothing recent
    method Prune(now: nat)
      requires Valid(View()) && clock <= now
      modifies this
      ensures View() == Next(old(View()), Sweep(now)) && Valid(View())
    {
      NextKeepsValid(View(), Sweep(now));
      clock := now;
      buckets := map ip | ip in buckets && Recent(buckets[ip], now) != [] :: Recent(buckets[ip], now);
    }
  }
}
