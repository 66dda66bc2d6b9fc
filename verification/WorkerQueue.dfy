/**
 The job worker as a state machine (services/worker/src/queue.js, services/worker/src/manager.js):
 jobs wait, run, and on failure wait again with a growing delay until the third failure makes a
 dead letter. Any number of jobs may be running, because a manager stopped and started again while
 a job runs has two poll loops. The log of starts and failures and the list of all failures are
 kept for the statements only. Random job ids are numbers in order of creation.
 */
module WorkerQueue {
  import opened Options
  import opened Seqs

  const MAX_ATTEMPTS: nat := 3
  const MAX_DEAD_LETTERS: nat := 1000

  datatype Job = Job(id: nat, attempts: nat, retryAfter: Option<nat>)

  datatype Dead = Dead(id: nat, attempts: nat, failedAt: nat)

  // The nth start, or the nth failure, of a job
  datatype Entry = Started(id: nat, nth: nat, at: nat) | Failed(id: nat, nth: nat, at: nat)

  datatype State = State(waiting: seq<Job>, running: map<nat, Job>, done: set<nat>, dead: seq<Dead>,
                         failures: seq<Dead>, enqueued: nat, clock: nat, log: seq<Entry>)

  const EMPTY := State([], map[], {}, [], [], 0, 0, [])

  datatype Event =
    | Enqueue(at: nat)
    | Dequeue(at: nat)
    | Succeed(id: nat, at: nat)
    | Fail(id: nat, at: nat)

  function Pow2(n: nat): nat { if n == 0 then 1 else 2 * Pow2(n - 1) }

  function Delay(attempts: nat): nat
    requires attempts > 0
  {
    var delay := 1000 * Pow2(attempts - 1);
    if delay < 30000 then delay else 30000
  }

  predicate Eligible(j: Job, now: nat) {
    j.retryAfter.Some? ==> now >= j.retryAfter.value
  }

  // The first job out of its backoff, or the length when there is none
  function FirstEligible(jobs: seq<Job>, now: nat): (i: nat)
    ensures i <= |jobs|
    ensures i < |jobs| ==> Eligible(jobs[i], now)
    ensures forall k | 0 <= k < i :: !Eligible(jobs[k], now)
  {
    if jobs == [] || Eligible(jobs[0], now) then 0 else 1 + FirstEligible(jobs[1..], now)
  }

  function Newest(letters: seq<Dead>): seq<Dead> {
    if |letters| <= MAX_DEAD_LETTERS then letters else letters[|letters| - MAX_DEAD_LETTERS..]
  }

  predicate Enabled(s: State, ev: Event) {
    s.clock <= ev.at && (ev.Succeed? || ev.Fail? ==> ev.id in s.running)
  }

  function Start(s: State, i: nat, at: nat): State
    requires i < |s.waiting|
  {
    var j := s.waiting[i];
    s.(waiting := Without(s.waiting, i), running := s.running[j.id := j], clock := at,
       log := s.log + [Started(j.id, j.attempts + 1, at)])
  }

  function AfterDequeue(s: State, at: nat): State {
    var i := FirstEligible(s.waiting, at);
    if i == |s.waiting| then s.(clock := at) else Start(s, i, at)
  }

  function AfterFail(s: State, id: nat, at: nat): State
    requires id in s.running
  {
    var attempts := s.running[id].attempts + 1;
    var log := s.log + [Failed(id, attempts, at)];
    if attempts >= MAX_ATTEMPTS then
      var letter := Dead(id, attempts, at);
      s.(running := s.running - {id}, dead := Newest(s.dead + [letter]),
         failures := s.failures + [letter], clock := at, log := log)
    else
      s.(running := s.running - {id}, clock := at, log := log,
         waiting := s.waiting + [Job(id, attempts, Some(at + Delay(attempts)))])
  }

  function Next(s: State, ev: Event): State {
    if !Enabled(s, ev) then s
    else
      match ev
      case Enqueue(at) => s.(waiting := s.waiting + [Job(s.enqueued, 0, None)], enqueued := s.enqueued + 1, clock := at)
      case Dequeue(at) => AfterDequeue(s, at)
      case Succeed(id, at) => s.(running := s.running - {id}, done := s.done + {id}, clock := at)
      case Fail(id, at) => AfterFail(s, id, at)
  }

  function Run(s: State, events: seq<Event>): State
    decreases |events|
  {
    if events == [] then s else Run(Next(s, events[0]), events[1..])
  }

  // ---- Counting ----

  function Times(jobs: seq<Job>, id: nat): nat {
    if jobs == [] then 0 else (if jobs[0].id == id then 1 else 0) + Times(jobs[1..], id)
  }

  function Letters(letters: seq<Dead>, id: nat): nat {
    if letters == [] then 0 else (if letters[0].id == id then 1 else 0) + Letters(letters[1..], id)
  }

  function Starts(log: seq<Entry>, id: nat): nat {
    if log == [] then 0
    else Starts(log[..|log| - 1], id) + if log[|log| - 1].Started? && log[|log| - 1].id == id then 1 else 0
  }

  // The whole history of jobs that failed for the last time, read off the log
  function FinalFailures(log: seq<Entry>): seq<Dead> {
    if log == [] then []
    else
      var e := log[|log| - 1];
      FinalFailures(log[..|log| - 1]) + if e.Failed? && e.nth >= MAX_ATTEMPTS then [Dead(e.id, e.nth, e.at)] else []
  }

  // How many places hold the job: waiting entries, running, completed, failed for good
  function Places(s: State, id: nat): nat {
    Times(s.waiting, id) + (if id in s.running then 1 else 0) + (if id in s.done then 1 else 0)
    + Letters(s.failures, id)
  }

  lemma {:induction false} TimesOfConcat(a: seq<Job>, b: seq<Job>, id: nat)
    ensures Times(a + b, id) == Times(a, id) + Times(b, id)
  {
    if a == [] {
      assert a + b == b;
    } else {
      assert (a + b)[1..] == a[1..] + b;
      TimesOfConcat(a[1..], b, id);
    }
  }

  lemma TimesOfOne(j: Job, id: nat)
    ensures Times([j], id) == if j.id == id then 1 else 0
  {
    assert [j][1..] == [];
  }

  lemma TimesWithout(jobs: seq<Job>, i: nat, id: nat)
    requires i < |jobs|
    ensures Times(Without(jobs, i), id) == Times(jobs, id) - if jobs[i].id == id then 1 else 0
  {
    assert jobs == jobs[..i] + ([jobs[i]] + jobs[i + 1..]);
    TimesOfConcat(jobs[..i], [jobs[i]] + jobs[i + 1..], id);
    TimesOfConcat([jobs[i]], jobs[i + 1..], id);
    TimesOfOne(jobs[i], id);
    TimesOfConcat(jobs[..i], jobs[i + 1..], id);
  }

  lemma {:induction false} TimesOfMember(jobs: seq<Job>, k: nat)
    requires k < |jobs|
    ensures Times(jobs, jobs[k].id) > 0
  {
    if k > 0 { TimesOfMember(jobs[1..], k - 1); }
  }

  lemma {:induction false} LettersOfAppend(letters: seq<Dead>, d: Dead, id: nat)
    ensures Letters(letters + [d], id) == Letters(letters, id) + if d.id == id then 1 else 0
  {
    if letters == [] {
      assert (letters + [d])[1..] == [];
    } else {
      assert (letters + [d])[1..] == letters[1..] + [d];
      LettersOfAppend(letters[1..], d, id);
    }
  }

  lemma {:induction false} LettersOfMember(letters: seq<Dead>, k: nat)
    requires k < |letters|
    ensures Letters(letters, letters[k].id) > 0
  {
    if k > 0 { LettersOfMember(letters[1..], k - 1); }
  }

  lemma StartsOfAppend(log: seq<Entry>, e: Entry, id: nat)
    ensures Starts(log + [e], id) == Starts(log, id) + if e.Started? && e.id == id then 1 else 0
  {
    assert (log + [e])[..|log|] == log;
  }

  lemma FinalFailuresOfAppend(log: seq<Entry>, e: Entry)
    ensures FinalFailures(log + [e]) ==
            FinalFailures(log) + if e.Failed? && e.nth >= MAX_ATTEMPTS then [Dead(e.id, e.nth, e.at)] else []
  {
    assert (log + [e])[..|log|] == log;
  }

  // ---- Every job is in exactly one place ----

  ghost predicate Conserved(s: State) {
    && (forall id: nat :: Places(s, id) == if id < s.enqueued then 1 else 0)
    && (forall id | id in s.running :: s.running[id].id == id)
  }

  lemma EnqueueConserves(s: State, at: nat)
    requires Conserved(s) && Enabled(s, Enqueue(at))
    ensures Conserved(Next(s, Enqueue(at)))
  {
    var s' := Next(s, Enqueue(at));
    forall id: nat ensures Places(s', id) == if id < s'.enqueued then 1 else 0 {
      assert Places(s, id) == if id < s.enqueued then 1 else 0;
      TimesOfConcat(s.waiting, [Job(s.enqueued, 0, None)], id);
      TimesOfOne(Job(s.enqueued, 0, None), id);
    }
  }

  lemma StartConserves(s: State, i: nat, at: nat)
    requires Conserved(s) && i < |s.waiting|
    ensures Conserved(Start(s, i, at))
    ensures s.waiting[i].id < s.enqueued && s.waiting[i].id !in s.running
  {
    var s' := Start(s, i, at);
    var j := s.waiting[i];
    TimesOfMember(s.waiting, i);
    assert Places(s, j.id) == if j.id < s.enqueued then 1 else 0;
    forall id: nat ensures Places(s', id) == if id < s'.enqueued then 1 else 0 {
      assert Places(s, id) == if id < s.enqueued then 1 else 0;
      TimesWithout(s.waiting, i, id);
    }
  }

  lemma IdleConserves(s: State, at: nat)
    requires Conserved(s)
    ensures Conserved(s.(clock := at))
  {
    forall id: nat ensures Places(s.(clock := at), id) == Places(s, id) {}
  }

  lemma DequeueConserves(s: State, at: nat)
    requires Conserved(s)
    ensures Conserved(AfterDequeue(s, at))
  {
    var i := FirstEligible(s.waiting, at);
    if i < |s.waiting| {
      StartConserves(s, i, at);
    } else {
      IdleConserves(s, at);
    }
  }

  lemma FailConserves(s: State, id: nat, at: nat)
    requires Conserved(s) && id in s.running
    ensures Conserved(AfterFail(s, id, at))
  {
    var s' := AfterFail(s, id, at);
    var attempts := s.running[id].attempts + 1;
    forall k: nat ensures Places(s', k) == if k < s'.enqueued then 1 else 0 {
      assert Places(s, k) == if k < s.enqueued then 1 else 0;
      if attempts >= MAX_ATTEMPTS {
        LettersOfAppend(s.failures, Dead(id, attempts, at), k);
      } else {
        var j := Job(id, attempts, Some(at + Delay(attempts)));
        TimesOfConcat(s.waiting, [j], k);
        TimesOfOne(j, k);
      }
    }
  }

  lemma NextConserves(s: State, ev: Event)
    requires Conserved(s)
    ensures Conserved(Next(s, ev))
  {
    if Enabled(s, ev) {
      match ev {
        case Enqueue(at) => EnqueueConserves(s, at);
        case Dequeue(at) => DequeueConserves(s, at);
        case Succeed(id, at) =>
          forall k: nat ensures Places(Next(s, ev), k) == Places(s, k) {}
        case Fail(id, at) => FailConserves(s, id, at);
      }
    }
  }

  // ---- Attempts, starts and the delay before a retry ----

  // What the log says of a job that waits, having failed `attempts` times
  predicate WaitsRightly(log: seq<Entry>, j: Job, clock: nat) {
    && j.attempts < MAX_ATTEMPTS
    && Starts(log, j.id) == j.attempts
    && (j.attempts == 0 <==> j.retryAfter.None?)
    && (j.attempts > 0 ==>
          && Delay(j.attempts) <= j.retryAfter.value <= clock + Delay(j.attempts)
          && Failed(j.id, j.attempts, j.retryAfter.value - Delay(j.attempts)) in log)
  }

  predicate Waited(before: seq<Entry>, e: Entry, f: nat)
    requires e.nth > 1
  {
    Failed(e.id, e.nth - 1, f) in before && f + Delay(e.nth - 1) <= e.at
  }

  // Every retry in the log comes after the failure it follows, by that failure's delay
  ghost predicate Paced(log: seq<Entry>) {
    log == [] ||
    var before, e := log[..|log| - 1], log[|log| - 1];
    && Paced(before)
    && (e.Started? ==> 0 < e.nth <= MAX_ATTEMPTS)
    && (e.Started? && e.nth > 1 ==> exists f: nat :: Waited(before, e, f))
  }

  ghost predicate Accounted(s: State) {
    && (forall k | 0 <= k < |s.waiting| :: WaitsRightly(s.log, s.waiting[k], s.clock))
    && (forall id | id in s.running ::
          s.running[id].attempts < MAX_ATTEMPTS && Starts(s.log, id) == s.running[id].attempts + 1)
    && (forall id | id in s.done :: 0 < Starts(s.log, id) <= MAX_ATTEMPTS)
    && (forall k | 0 <= k < |s.failures| ::
          s.failures[k].attempts == MAX_ATTEMPTS && Starts(s.log, s.failures[k].id) == MAX_ATTEMPTS)
    && (forall id: nat | id >= s.enqueued :: Starts(s.log, id) == 0)
    && Paced(s.log)
    && s.failures == FinalFailures(s.log)
    && s.dead == Newest(s.failures)
  }

  ghost predicate Inv(s: State) {
    Conserved(s) && Accounted(s)
  }

  lemma WaitingIdsAreUnique(s: State, k: nat, id: nat)
    requires Conserved(s) && k < |s.waiting| && (id in s.running || id >= s.enqueued)
    ensures s.waiting[k].id != id
  {
    TimesOfMember(s.waiting, k);
    assert Places(s, s.waiting[k].id) <= 1;
  }

  lemma LetterIdsAreUnique(s: State, k: nat, id: nat)
    requires Conserved(s) && k < |s.failures| && (id in s.running || id >= s.enqueued)
    ensures s.failures[k].id != id
  {
    LettersOfMember(s.failures, k);
    assert Places(s, s.failures[k].id) <= 1;
  }

  lemma StillWaits(log: seq<Entry>, j: Job, clock: nat, e: Entry, at: nat)
    requires WaitsRightly(log, j, clock) && clock <= at && (e.Started? ==> e.id != j.id)
    ensures WaitsRightly(log + [e], j, at)
  {
    StartsOfAppend(log, e, j.id);
  }

  lemma PacedAppend(log: seq<Entry>, e: Entry)
    requires Paced(log)
    requires e.Started? ==> 0 < e.nth <= MAX_ATTEMPTS
    requires e.Started? && e.nth > 1 ==> exists f: nat :: Waited(log, e, f)
    ensures Paced(log + [e])
  {
    assert (log + [e])[..|log|] == log;
  }

  lemma StartKeepsWaiting(s: State, i: nat, at: nat)
    requires Inv(s) && s.clock <= at && i < |s.waiting|
    ensures var s' := Start(s, i, at); forall k | 0 <= k < |s'.waiting| :: WaitsRightly(s'.log, s'.waiting[k], at)
  {
    var s' := Start(s, i, at);
    var j := s.waiting[i];
    StartConserves(s, i, at);
    forall k | 0 <= k < |s'.waiting| ensures WaitsRightly(s'.log, s'.waiting[k], at) {
      WaitingIdsAreUnique(s', k, j.id);
      assert s'.waiting[k] == s.waiting[if k < i then k else k + 1];
      StillWaits(s.log, s'.waiting[k], s.clock, Started(j.id, j.attempts + 1, at), at);
    }
  }

  lemma StartIsPaced(s: State, i: nat, at: nat)
    requires Inv(s) && i < |s.waiting| && Eligible(s.waiting[i], at)
    ensures Paced(Start(s, i, at).log)
  {
    var j := s.waiting[i];
    var e := Started(j.id, j.attempts + 1, at);
    assert WaitsRightly(s.log, j, s.clock);
    assert j.attempts > 0 ==> Waited(s.log, e, j.retryAfter.value - Delay(j.attempts));
    PacedAppend(s.log, e);
  }

  lemma StartAccounts(s: State, i: nat, at: nat)
    requires Inv(s) && s.clock <= at && i < |s.waiting| && Eligible(s.waiting[i], at)
    ensures Accounted(Start(s, i, at))
  {
    var s' := Start(s, i, at);
    var j := s.waiting[i];
    StartConserves(s, i, at);
    StartKeepsWaiting(s, i, at);
    StartIsPaced(s, i, at);
    FinalFailuresOfAppend(s.log, Started(j.id, j.attempts + 1, at));
    assert WaitsRightly(s.log, j, s.clock);
    forall id: nat ensures Starts(s'.log, id) == Starts(s.log, id) + if id == j.id then 1 else 0 {
      StartsOfAppend(s.log, Started(j.id, j.attempts + 1, at), id);
    }
    forall k | 0 <= k < |s.failures| ensures s.failures[k].id != j.id { LetterIdsAreUnique(s', k, j.id); }
    assert Places(s', j.id) == 1;
  }

  lemma DequeueAccounts(s: State, at: nat)
    requires Inv(s) && s.clock <= at
    ensures Accounted(AfterDequeue(s, at))
  {
    var i := FirstEligible(s.waiting, at);
    if i < |s.waiting| { StartAccounts(s, i, at); }
  }

  lemma NewestAppend(letters: seq<Dead>, d: Dead)
    ensures Newest(Newest(letters) + [d]) == Newest(letters + [d])
  {
  }

  lemma FailKeepsWaiting(s: State, id: nat, at: nat)
    requires Inv(s) && s.clock <= at && id in s.running
    ensures var s' := AfterFail(s, id, at); forall k | 0 <= k < |s'.waiting| :: WaitsRightly(s'.log, s'.waiting[k], at)
  {
    var s' := AfterFail(s, id, at);
    var attempts := s.running[id].attempts + 1;
    var e := Failed(id, attempts, at);
    forall k | 0 <= k < |s.waiting| ensures WaitsRightly(s'.log, s.waiting[k], at) {
      StillWaits(s.log, s.waiting[k], s.clock, e, at);
    }
    if attempts < MAX_ATTEMPTS {
      StartsOfAppend(s.log, e, id);
      assert WaitsRightly(s'.log, Job(id, attempts, Some(at + Delay(attempts))), at);
    }
  }

  lemma FailAccounts(s: State, id: nat, at: nat)
    requires Inv(s) && s.clock <= at && id in s.running
    ensures Accounted(AfterFail(s, id, at))
  {
    var s' := AfterFail(s, id, at);
    var attempts := s.running[id].attempts + 1;
    var e := Failed(id, attempts, at);
    forall k: nat ensures Starts(s'.log, k) == Starts(s.log, k) { StartsOfAppend(s.log, e, k); }
    PacedAppend(s.log, e);
    FinalFailuresOfAppend(s.log, e);
    NewestAppend(s.failures, Dead(id, attempts, at));
    FailKeepsWaiting(s, id, at);
  }

  lemma NextKeepsInv(s: State, ev: Event)
    requires Inv(s)
    ensures Inv(Next(s, ev))
  {
    NextConserves(s, ev);
    if Enabled(s, ev) {
      match ev {
        case Enqueue(at) =>
        case Dequeue(at) => DequeueAccounts(s, at);
        case Succeed(id, at) =>
        case Fail(id, at) => FailAccounts(s, id, at);
      }
    }
  }

  lemma {:induction false} RunKeepsInv(s: State, events: seq<Event>)
    requires Inv(s)
    ensures Inv(Run(s, events))
    decreases |events|
  {
    if events != [] {
      NextKeepsInv(s, events[0]);
      RunKeepsInv(Next(s, events[0]), events[1..]);
    }
  }
}
