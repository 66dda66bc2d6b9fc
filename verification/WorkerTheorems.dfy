/**
 What holds over every run of the worker: no job is lost or duplicated, none starts more than
 three times, no retry comes early, dead letters are the newest final failures, and without new
 jobs the queue drains.
 */
module WorkerTheorems {
  import opened Options
  import opened WorkerQueue

  ghost predicate Reachable(s: State) {
    exists events :: s == Run(EMPTY, events)
  }

  lemma ReachableInv(s: State)
    requires Reachable(s)
    ensures Inv(s)
  {
    var events :| s == Run(EMPTY, events);
    RunKeepsInv(EMPTY, events);
  }

  // Each enqueued job is in exactly one of: waiting (once), running, completed, dead; no other id is anywhere
  lemma JobsAreConserved(s: State, id: nat)
    requires Reachable(s)
    ensures Times(s.waiting, id) + (if id in s.running then 1 else 0) + (if id in s.done then 1 else 0)
            + Letters(s.failures, id) == if id < s.enqueued then 1 else 0
  {
    ReachableInv(s);
    assert Places(s, id) == if id < s.enqueued then 1 else 0;
  }

  lemma WaitingJobsHaveAttemptsLeft(s: State, k: nat)
    requires Reachable(s) && k < |s.waiting|
    ensures s.waiting[k].attempts < MAX_ATTEMPTS
    ensures Starts(s.log, s.waiting[k].id) == s.waiting[k].attempts
  {
    ReachableInv(s);
  }

  lemma {:induction false} LetterOf(letters: seq<Dead>, id: nat) returns (k: nat)
    requires Letters(letters, id) > 0
    ensures k < |letters| && letters[k].id == id
  {
    if letters[0].id == id {
      k := 0;
    } else {
      k := LetterOf(letters[1..], id);
      k := k + 1;
    }
  }

  lemma {:induction false} WaitingJob(jobs: seq<Job>, id: nat) returns (k: nat)
    requires Times(jobs, id) > 0
    ensures k < |jobs| && jobs[k].id == id
  {
    if jobs[0].id == id {
      k := 0;
    } else {
      k := WaitingJob(jobs[1..], id);
      k := k + 1;
    }
  }

  lemma NoJobStartsMoreThanThrice(s: State, id: nat)
    requires Reachable(s)
    ensures Starts(s.log, id) <= 3
    ensures Letters(s.failures, id) > 0 ==> Starts(s.log, id) == 3
  {
    ReachableInv(s);
    JobsAreConserved(s, id);
    if Letters(s.failures, id) > 0 {
      var k := LetterOf(s.failures, id);
    } else if Times(s.waiting, id) > 0 {
      var k := WaitingJob(s.waiting, id);
      assert WaitsRightly(s.log, s.waiting[k], s.clock);
    }
  }

  lemma {:induction false} PacedEntry(log: seq<Entry>, k: nat) returns (i: nat)
    requires Paced(log) && k < |log| && log[k].Started? && log[k].nth > 1
    ensures i < k && log[i].Failed? && log[i].id == log[k].id && log[i].nth == log[k].nth - 1
    ensures log[i].at + Delay(log[k].nth - 1) <= log[k].at && log[k].nth <= MAX_ATTEMPTS
    decreases |log|
  {
    var before := log[..|log| - 1];
    if k < |log| - 1 {
      i := PacedEntry(before, k);
    } else {
      var f: nat :| Waited(before, log[k], f);
      i :| 0 <= i < |before| && before[i] == Failed(log[k].id, log[k].nth - 1, f);
    }
  }

  // A retry starts no earlier than 1000 * 2^(k - 1) ms after the k-th failure
  lemma RetriesWait(s: State, k: nat) returns (i: nat)
    requires Reachable(s) && k < |s.log| && s.log[k].Started? && s.log[k].nth > 1
    ensures i < k && s.log[i] == Failed(s.log[k].id, s.log[k].nth - 1, s.log[i].at)
    ensures s.log[i].at + 1000 * Pow2(s.log[k].nth - 2) <= s.log[k].at
  {
    ReachableInv(s);
    i := PacedEntry(s.log, k);
    assert Pow2(0) == 1 && Pow2(1) == 2;
  }

  // Dead letters are the newest at most 1000 of all final failures, in order
  lemma DeadLettersAreNewest(s: State)
    requires Reachable(s)
    ensures |s.dead| <= 1000
    ensures var all := FinalFailures(s.log);
            && |s.dead| == (if |all| < 1000 then |all| else 1000)
            && all == all[..|all| - |s.dead|] + s.dead
  {
    ReachableInv(s);
  }

  // ---- Draining ----

  predicate Live(s: State, id: nat) {
    id in s.running || Times(s.waiting, id) > 0
  }

  // The starts a live job can still have
  function StartsLeft(s: State, id: nat): nat {
    if Live(s, id) && Starts(s.log, id) < MAX_ATTEMPTS then MAX_ATTEMPTS - Starts(s.log, id) else 0
  }

  function AllLeft(s: State, n: nat): nat {
    if n == 0 then 0 else AllLeft(s, n - 1) + StartsLeft(s, n - 1)
  }

  function Measure(s: State): nat {
    2 * AllLeft(s, s.enqueued) + |s.running|
  }

  lemma {:induction false} OneJobChanges(s: State, s': State, n: nat, id: nat)
    requires forall k: nat | k != id :: StartsLeft(s', k) == StartsLeft(s, k)
    ensures AllLeft(s', n) - AllLeft(s, n) == if id < n then StartsLeft(s', id) - StartsLeft(s, id) else 0
  {
    if n > 0 { OneJobChanges(s, s', n - 1, id); }
  }

  lemma StartSpends(s: State, i: nat, at: nat)
    requires Inv(s) && i < |s.waiting|
    ensures Measure(Start(s, i, at)) < Measure(s)
  {
    var s' := Start(s, i, at);
    var j := s.waiting[i];
    StartConserves(s, i, at);
    TimesOfMember(s.waiting, i);
    assert WaitsRightly(s.log, j, s.clock);
    forall k: nat ensures Starts(s'.log, k) == Starts(s.log, k) + if k == j.id then 1 else 0 {
      StartsOfAppend(s.log, Started(j.id, j.attempts + 1, at), k);
    }
    forall k: nat | k != j.id ensures StartsLeft(s', k) == StartsLeft(s, k) {
      TimesWithout(s.waiting, i, k);
    }
    OneJobChanges(s, s', s.enqueued, j.id);
    assert s'.running.Keys == s.running.Keys + {j.id};
  }

  lemma SucceedSpends(s: State, id: nat, at: nat)
    requires Inv(s) && Enabled(s, Succeed(id, at))
    ensures Measure(Next(s, Succeed(id, at))) < Measure(s)
  {
    var s' := Next(s, Succeed(id, at));
    forall k: nat | k != id ensures StartsLeft(s', k) == StartsLeft(s, k) {}
    assert Places(s, id) <= 1;
    OneJobChanges(s, s', s.enqueued, id);
    assert s.running.Keys == s'.running.Keys + {id};
  }

  lemma FailLeft(s: State, id: nat, at: nat, k: nat)
    requires Inv(s) && Enabled(s, Fail(id, at))
    ensures var s' := AfterFail(s, id, at);
            if k == id then StartsLeft(s', k) <= StartsLeft(s, k) else StartsLeft(s', k) == StartsLeft(s, k)
  {
    var attempts := s.running[id].attempts + 1;
    StartsOfAppend(s.log, Failed(id, attempts, at), k);
    if attempts < MAX_ATTEMPTS {
      TimesOfConcat(s.waiting, [Job(id, attempts, Some(at + Delay(attempts)))], k);
      TimesOfOne(Job(id, attempts, Some(at + Delay(attempts))), k);
    }
  }

  lemma FailSpends(s: State, id: nat, at: nat)
    requires Inv(s) && Enabled(s, Fail(id, at))
    ensures Measure(AfterFail(s, id, at)) < Measure(s)
  {
    var s' := AfterFail(s, id, at);
    forall k: nat | k != id ensures StartsLeft(s', k) == StartsLeft(s, k) { FailLeft(s, id, at, k); }
    FailLeft(s, id, at, id);
    OneJobChanges(s, s', s.enqueued, id);
    assert s.running.Keys == s'.running.Keys + {id};
  }

  // Whether the event starts or ends a run of a job
  predicate Busy(s: State, ev: Event) {
    Enabled(s, ev) && !ev.Enqueue? && (ev.Dequeue? ==> FirstEligible(s.waiting, ev.at) < |s.waiting|)
  }

  lemma BusySpends(s: State, ev: Event)
    requires Inv(s) && Busy(s, ev)
    ensures Measure(Next(s, ev)) < Measure(s)
  {
    match ev {
      case Enqueue(at) =>
      case Dequeue(at) => StartSpends(s, FirstEligible(s.waiting, at), at);
      case Succeed(id, at) => SucceedSpends(s, id, at);
      case Fail(id, at) => FailSpends(s, id, at);
    }
  }

  lemma IdleSpendsNothing(s: State, ev: Event)
    requires !Busy(s, ev) && !ev.Enqueue?
    ensures Measure(Next(s, ev)) == Measure(s)
  {
    var s' := Next(s, ev);
    forall k: nat ensures StartsLeft(s', k) == StartsLeft(s, k) {}
    OneJobChanges(s, s', s.enqueued, 0);
  }

  function BusySteps(s: State, events: seq<Event>): nat
    decreases |events|
  {
    if events == [] then 0 else (if Busy(s, events[0]) then 1 else 0) + BusySteps(Next(s, events[0]), events[1..])
  }

  // With no new jobs, only so many runs can start or end: the rest of any run is idle polling
  lemma {:induction false} DrainIsBounded(s: State, events: seq<Event>)
    requires Inv(s) && forall k | 0 <= k < |events| :: !events[k].Enqueue?
    ensures BusySteps(s, events) + Measure(Run(s, events)) <= Measure(s)
    decreases |events|
  {
    if events != [] {
      if Busy(s, events[0]) { BusySpends(s, events[0]); } else { IdleSpendsNothing(s, events[0]); }
      NextKeepsInv(s, events[0]);
      DrainIsBounded(Next(s, events[0]), events[1..]);
    }
  }

  lemma {:induction false} IdlePollsKeepWaiting(s: State, polls: seq<Event>)
    requires (forall k | 0 <= k < |polls| :: polls[k].Dequeue?) && BusySteps(s, polls) == 0
    ensures Run(s, polls).waiting == s.waiting
    decreases |polls|
  {
    if polls != [] { IdlePollsKeepWaiting(Next(s, polls[0]), polls[1..]); }
  }

  // And polling cannot stay idle: two seconds on, whatever waits has its turn, in queue order
  lemma BackoffEnds(s: State, polls: seq<Event>, at: nat)
    requires Inv(s) && s.waiting != []
    requires (forall k | 0 <= k < |polls| :: polls[k].Dequeue?) && BusySteps(s, polls) == 0
    requires at >= s.clock + 2000 && at >= Run(s, polls).clock
    ensures Busy(Run(s, polls), Dequeue(at)) && FirstEligible(Run(s, polls).waiting, at) == 0
  {
    IdlePollsKeepWaiting(s, polls);
    assert WaitsRightly(s.log, s.waiting[0], s.clock);
    assert Pow2(0) == 1 && Pow2(1) == 2;
  }

  lemma DrainedMeansSettled(s: State, id: nat)
    requires Inv(s) && s.waiting == [] && s.running == map[] && id < s.enqueued
    ensures id in s.done <==> Letters(s.failures, id) == 0
  {
    assert Places(s, id) == 1;
  }
}
