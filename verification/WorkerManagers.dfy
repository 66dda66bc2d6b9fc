/**
 The worker's objects (services/worker/src/queue.js, services/worker/src/manager.js): job records
 shared between the queue and the poll loop and changed in place. Every method takes the step of
 the state machine in WorkerQueue that its `ensures` names. What a job does is a parameter: whether
 its nth run fails and how long the run takes.
 */
module WorkerManagers {
  import opened Options
  import opened Seqs
  import opened WorkerQueue
  import opened WorkerTheorems

  const POLL_INTERVAL: nat := 500

  predicate NoneEligible(jobs: seq<Job>, now: nat) {
    forall k | 0 <= k < |jobs| :: !Eligible(jobs[k], now)
  }

  class JobRecord {
    const id: nat
    var attempts: nat
    var retryAfter: Option<nat>

    constructor (id: nat)
      ensures Value() == Job(id, 0, None)
    {
      this.id, attempts, retryAfter := id, 0, None;
    }

    function Value(): Job
      reads this
    {
      Job(id, attempts, retryAfter)
    }
  }

  ghost function Values(items: seq<JobRecord>): seq<Job>
    reads items
  {
    seq(|items|, k requires 0 <= k < |items| reads items => items[k].Value())
  }

  lemma ValuesWithout(items: seq<JobRecord>, i: nat)
    requires i < |items|
    ensures Values(Without(items, i)) == Without(Values(items), i)
  {
  }

  lemma ValuesAppend(items: seq<JobRecord>, job: JobRecord)
    ensures Values(items + [job]) == Values(items) + [job.Value()]
  {
  }

  lemma FirstEligibleIs(jobs: seq<Job>, now: nat, i: nat)
    requires i <= |jobs| && (i < |jobs| ==> Eligible(jobs[i], now))
    requires forall k | 0 <= k < i :: !Eligible(jobs[k], now)
    ensures FirstEligible(jobs, now) == i
  {
  }

  lemma DequeueKeepsInv(s: State, now: nat)
    requires Inv(s) && s.clock <= now
    ensures Next(s, Event.Dequeue(now)) == AfterDequeue(s, now) && Inv(AfterDequeue(s, now))
  {
    NextKeepsInv(s, Event.Dequeue(now));
  }

  // A poll either starts a run, or finds nothing eligible and changes nothing but the clock
  lemma PollSpends(s: State, now: nat)
    requires Inv(s) && s.clock <= now
    ensures var s', i := Next(s, Event.Dequeue(now)), FirstEligible(s.waiting, now);
            if i < |s.waiting| then Measure(s') < Measure(s) else Measure(s') == Measure(s)
  {
    if FirstEligible(s.waiting, now) < |s.waiting| {
      BusySpends(s, Event.Dequeue(now));
    } else {
      IdleSpendsNothing(s, Event.Dequeue(now));
    }
  }

  class Queue {
    var items: seq<JobRecord>
    var deadLetters: seq<Dead>

    constructor ()
      ensures items == [] && deadLetters == []
    {
      items, deadLetters := [], [];
    }

    method Enqueue(id: nat) returns (job: JobRecord)
      modifies `items
      ensures fresh(job) && job.Value() == Job(id, 0, None)
      ensures items == old(items) + [job]
    {
      job := new JobRecord(id);
      items := items + [job];
    }

    // The first job out of its backoff leaves the queue; the others keep their order
    method Dequeue(now: nat) returns (job: JobRecord?)
      modifies `items
      ensures var i := FirstEligible(old(Values(items)), now);
              if i == |old(items)| then job == null && items == old(items)
              else job == old(items)[i] && items == Without(old(items), i)
    {
      for i := 0 to |items|
        invariant items == old(items)
        invariant forall k | 0 <= k < i :: !Eligible(items[k].Value(), now)
      {
        if items[i].retryAfter.None? || now >= items[i].retryAfter.value {
          FirstEligibleIs(Values(items), now, i);
          job := items[i];
          items := items[..i] + items[i + 1..];
          return;
        }
      }
      FirstEligibleIs(Values(items), now, |items|);
      job := null;
    }

    method Failed(job: JobRecord, now: nat)
      requires |deadLetters| <= MAX_DEAD_LETTERS
      modifies `deadLetters
      ensures deadLetters == Newest(old(deadLetters) + [Dead(job.id, job.attempts, now)])
    {
      deadLetters := deadLetters + [Dead(job.id, job.attempts, now)];
      ghost var all := deadLetters;
      while |deadLetters| > MAX_DEAD_LETTERS
        invariant |deadLetters| <= |all| && deadLetters == all[|all| - |deadLetters|..]
        invariant |deadLetters| >= |Newest(all)|
      {
        deadLetters := deadLetters[1..];
      }
    }

    method Requeue(job: JobRecord, now: nat) returns (requeued: bool)
      requires |deadLetters| <= MAX_DEAD_LETTERS
      modifies this, job`attempts
      ensures job.attempts == old(job.attempts) + 1
      ensures requeued <==> job.attempts < MAX_ATTEMPTS
      ensures items == old(items) + if requeued then [job] else []
      ensures deadLetters == if requeued then old(deadLetters)
                             else Newest(old(deadLetters) + [Dead(job.id, job.attempts, now)])
    {
      job.attempts := job.attempts + 1;
      if job.attempts >= MAX_ATTEMPTS {
        Failed(job, now);
        return false;
      }
      items := items + [job];
      requeued := true;
    }
  }

  // How long the first waiting job still has to wait
  function HeadWait(s: State, now: nat): nat {
    if s.waiting == [] || Eligible(s.waiting[0], now) then 0 else s.waiting[0].retryAfter.value - now
  }

  // An upper bound of the polls until the queue is empty: five for every run to start or end, and those
  // that the first job still waits
  function Turns(s: State, now: nat): nat {
    if s.waiting == [] then 0 else 1 + 5 * Measure(s) + (HeadWait(s, now) + POLL_INTERVAL - 1) / POLL_INTERVAL
  }

  function Monus(a: nat, b: nat): nat {
    if a < b then 0 else a - b
  }

  lemma TurnsBounded(s: State, now: nat)
    requires Inv(s) && s.clock <= now
    ensures HeadWait(s, now) <= 2000 && Turns(s, now) <= 5 * (Measure(s) + 1)
  {
    if s.waiting != [] {
      assert WaitsRightly(s.log, s.waiting[0], s.clock);
      assert Pow2(0) == 1 && Pow2(1) == 2;
    }
  }

  lemma TurnSpent(before: State, began: nat, s: State, later: nat)
    requires Inv(s) && s.clock <= later && began <= later && before.running == map[]
    requires Measure(s) <= Measure(before) && (Measure(s) == Measure(before) ==> s.waiting == before.waiting)
    requires NoneEligible(s.waiting, later)
    ensures Turns(s, later + POLL_INTERVAL) <= Monus(Turns(before, began), 1)
  {
    TurnsBounded(s, later + POLL_INTERVAL);
    if before.waiting == [] { NoneLeft(before, before.enqueued); }
  }

  lemma {:induction false} NoneLeft(s: State, n: nat)
    requires s.waiting == [] && s.running == map[]
    ensures AllLeft(s, n) == 0
  {
    if n > 0 { NoneLeft(s, n - 1); }
  }

  class WorkerManager {
    const queue: Queue
    ghost var state: State
    ghost var running: map<nat, JobRecord>
    ghost var records: set<JobRecord> // every job record made

    // The objects hold what the state says
    ghost predicate Holds(s: State)
      reads `running, `records, queue, records
    {
      && (forall k | 0 <= k < |queue.items| :: queue.items[k] in records)
      && (forall id | id in running :: running[id] in records)
      && Values(queue.items) == s.waiting
      && queue.deadLetters == s.dead
      && running.Keys == s.running.Keys
      && forall id | id in running :: running[id].Value() == s.running[id]
    }

    ghost predicate Valid()
      reads this, queue, records
    {
      Inv(state) && Holds(state)
    }

    constructor ()
      ensures Valid() && fresh(queue) && state == EMPTY
    {
      queue := new Queue();
      state, running, records := EMPTY, map[], {};
    }

    // The one job running, or null for none
    ghost predicate OnlyRuns(job: JobRecord?)
      reads `running
    {
      running == if job == null then map[] else map[job.id := job]
    }

    lemma RunningDoNotWait(id: nat)
      requires Valid() && id in running
      ensures running[id] !in queue.items && running[id].id == id
    {
      forall k | 0 <= k < |queue.items| ensures queue.items[k] != running[id] {
        WaitingIdsAreUnique(state, k, id);
      }
    }

    // A random id stands for the next number
    method Submit(id: nat, now: nat)
      requires Valid() && state.clock <= now && id == state.enqueued
      modifies `state, `records, queue
      ensures Valid() && state == Next(old(state), Event.Enqueue(now))
    {
      ghost var s := state;
      NextKeepsInv(s, Event.Enqueue(now));
      var job := queue.Enqueue(id);
      state, records := Next(s, Event.Enqueue(now)), records + {job};
      assert Values(queue.items) == s.waiting + [Job(id, 0, None)];
    }

    method TakeNext(now: nat) returns (job: JobRecord?)
      requires Holds(state) && (forall id | id in running :: running[id] !in queue.items)
      modifies queue, `running
      ensures Holds(AfterDequeue(state, now))
      ensures job == null <==> FirstEligible(state.waiting, now) == |state.waiting|
      ensures running == if job == null then old(running) else old(running)[job.id := job]
      ensures job != null ==> job == old(queue.items)[FirstEligible(state.waiting, now)]
    {
      ghost var i := FirstEligible(state.waiting, now);
      job := queue.Dequeue(now);
      if job != null {
        running := running[job.id := job];
        ValuesWithout(old(queue.items), i);
      }
    }

    lemma NoneRunningWaits()
      requires Valid()
      ensures forall id | id in running :: running[id] !in queue.items
    {
      forall id | id in running ensures running[id] !in queue.items { RunningDoNotWait(id); }
    }

    method Take(now: nat) returns (job: JobRecord?)
      requires Valid() && state.clock <= now
      modifies `state, `running, queue
      ensures Valid() && state == Next(old(state), Event.Dequeue(now))
      ensures job == null <==> FirstEligible(old(state).waiting, now) == |old(state).waiting|
      ensures running == if job == null then old(running) else old(running)[job.id := job]
      ensures job != null ==> job == old(queue.items)[FirstEligible(old(state).waiting, now)]
    {
      NoneRunningWaits();
      DequeueKeepsInv(state, now);
      job := TakeNext(now);
      state := AfterDequeue(state, now);
    }

    method Succeeded(job: JobRecord, now: nat)
      requires Valid() && state.clock <= now && job.id in running && running[job.id] == job
      modifies `state, `running
      ensures Valid() && state == Next(old(state), Event.Succeed(job.id, now))
      ensures running == old(running) - {job.id}
    {
      NextKeepsInv(state, Event.Succeed(job.id, now));
      state := Next(state, Event.Succeed(job.id, now));
      running := running - {job.id};
    }

    // The catch branch: the job is pushed back first and given its delay afterwards
    method PutBack(job: JobRecord, now: nat)
      requires Holds(state) && job.id in running && running[job.id] == job && job !in queue.items
      requires forall id | id in running :: running[id].id == id
      requires |queue.deadLetters| <= MAX_DEAD_LETTERS
      modifies queue, records, `running
      ensures Holds(AfterFail(state, job.id, now))
      ensures running == old(running) - {job.id}
      ensures queue.items == old(queue.items) || queue.items == old(queue.items) + [job]
    {
      var requeued := queue.Requeue(job, now);
      if requeued {
        var delay := 1000 * Pow2(job.attempts - 1);
        if delay > 30000 { delay := 30000; }
        job.retryAfter := Some(now + delay);
        ValuesAppend(old(queue.items), job);
      }
      assert Values(old(queue.items)) == state.waiting;
      running := running - {job.id};
      assert Values(queue.items) == AfterFail(state, job.id, now).waiting;
    }

    method Retry(job: JobRecord, now: nat)
      requires Valid() && state.clock <= now && job.id in running && running[job.id] == job
      modifies `state, `running, queue, records
      ensures Valid() && state == Next(old(state), Event.Fail(job.id, now))
      ensures running == old(running) - {job.id}
    {
      forall id | id in running ensures running[id].id == id { RunningDoNotWait(id); }
      RunningDoNotWait(job.id);
      NextKeepsInv(state, Event.Fail(job.id, now));
      PutBack(job, now);
      state := AfterFail(state, job.id, now);
    }

    // One run of a taken job, ending in success or in the catch branch
    method Perform(job: JobRecord, now: nat, fails: bool)
      requires Valid() && state.clock <= now && OnlyRuns(job)
      modifies `state, `running, queue, records
      ensures Valid() && OnlyRuns(null)
      ensures state.clock == now && state.enqueued == old(state.enqueued)
      ensures Measure(state) < Measure(old(state))
    {
      if fails {
        BusySpends(state, Event.Fail(job.id, now));
        Retry(job, now);
      } else {
        BusySpends(state, Event.Succeed(job.id, now));
        Succeeded(job, now);
      }
    }

    // Taking a job when no other runs
    method TakeOne(now: nat) returns (job: JobRecord?)
      requires Valid() && state.clock <= now && OnlyRuns(null)
      modifies `state, `running, queue
      ensures Valid() && state.clock == now && state.enqueued == old(state.enqueued)
      ensures job != null ==> OnlyRuns(job) && Measure(state) < Measure(old(state))
      ensures job == null ==> OnlyRuns(null) && Measure(state) == Measure(old(state))
      ensures job == null ==> state.waiting == old(state).waiting
      ensures job == null ==> NoneEligible(state.waiting, now)
    {
      PollSpends(state, now);
      job := Take(now);
    }

    // One pass of the inner loop: run the job, then take the next one
    method Turn(job: JobRecord, now: nat, fails: bool) returns (next: JobRecord?)
      requires Valid() && state.clock <= now && OnlyRuns(job)
      modifies `state, `running, queue, records
      ensures Valid() && state.clock == now && state.enqueued == old(state.enqueued)
      ensures Measure(state) < Measure(old(state))
      ensures OnlyRuns(next)
      ensures next == null ==> NoneEligible(state.waiting, now)
    {
      Perform(job, now, fails);
      next := TakeOne(now);
    }

    // The inner loop from its first job on: run whatever is eligible until nothing is
    method RunAll(first: JobRecord, now: nat) returns (later: nat)
      requires Valid() && state.clock == now && OnlyRuns(first)
      modifies `state, `running, queue, records
      ensures Valid() && OnlyRuns(null) && state.enqueued == old(state.enqueued)
      ensures now <= later == state.clock && NoneEligible(state.waiting, later)
      ensures Measure(state) <= Measure(old(state))
    {
      ghost var m, ids := Measure(state), state.enqueued;
      ghost var left := m;
      var job: JobRecord? := first;
      later := now;
      while job != null
        invariant Valid() && OnlyRuns(job)
        invariant state.clock == later && now <= later && state.enqueued == ids
        invariant left == Measure(state) && left <= m
        invariant job == null ==> NoneEligible(state.waiting, later)
        decreases left
      {
        var fails: bool, took: nat := *, *;
        later := later + took;
        job := Turn(job, later, fails);
        left := Measure(state);
      }
    }

    method Poll(now: nat) returns (later: nat)
      requires Valid() && state.clock <= now && OnlyRuns(null)
      modifies `state, `running, queue, records
      ensures Valid() && OnlyRuns(null) && state.enqueued == old(state.enqueued)
      ensures now <= later == state.clock
      ensures Measure(state) <= Measure(old(state))
      ensures Measure(state) == Measure(old(state)) ==> state.waiting == old(state).waiting
      ensures NoneEligible(state.waiting, later)
    {
      var job := TakeOne(now);
      later := now;
      if job != null {
        later := RunAll(job, now);
      }
    }

    // The poll loop, stopped after some polls. If they are as many as its `ensures` says, then whatever
    // fails and however long jobs take, the queue is empty, and every job has completed or is dead.
    method PollLoop(now: nat, polls: nat) returns (end: nat)
      requires Valid() && state.clock <= now && OnlyRuns(null)
      modifies `state, `running, queue, records
      ensures Valid() && OnlyRuns(null) && state.enqueued == old(state.enqueued) && state.clock <= end
      ensures polls >= 5 * (Measure(old(state)) + 1) ==>
                && queue.items == []
                && forall id: nat | id < state.enqueued :: id in state.done <==> Letters(state.failures, id) == 0
    {
      end := now;
      TurnsBounded(state, now);
      for n := 0 to polls
        invariant Valid() && state.clock <= end && OnlyRuns(null) && state.enqueued == old(state.enqueued)
        invariant Turns(state, end) <= Monus(5 * (Measure(old(state)) + 1), n)
      {
        ghost var before, began := state, end;
        assert before.running.Keys == running.Keys;
        var later := Poll(end);
        end := later + POLL_INTERVAL;
        TurnSpent(before, began, state, later);
      }
      if queue.items == [] {
        forall id: nat | id < state.enqueued ensures id in state.done <==> Letters(state.failures, id) == 0 {
          DrainedMeansSettled(state, id);
        }
      }
    }
  }
}
