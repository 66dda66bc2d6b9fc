/**
 In which order jobs are taken, and when: they wait in the order in which they were put into the queue, for the first
 time or again, and the first that is not in its backoff is taken. The backoff of a job is exactly a second after its
 first failure and two after its second (services/worker/src/queue.js, services/worker/src/manager.js).
 */
module WorkerOrder {
  import opened Options
  import opened Seqs
  import opened WorkerQueue
  import opened WorkerTheorems

  // A job as it is put into the queue: new, or after so many failures
  datatype Arrival = Arrival(id: nat, failures: nat)

  // What an event puts into the queue
  function Puts(s: State, ev: Event): seq<Arrival> {
    if ev.at < s.clock then []
    else
      match ev
      case Enqueue(_) => [Arrival(s.enqueued, 0)]
      case Fail(id, _) =>
        if id in s.running && s.running[id].attempts < 2 then [Arrival(id, s.running[id].attempts + 1)] else []
      case _ => []
  }

  function Arrivals(s: State, events: seq<Event>): seq<Arrival>
    decreases |events|
  {
    if events == [] then [] else Puts(s, events[0]) + Arrivals(Next(s, events[0]), events[1..])
  }

  // These places among the arrivals are where the waiting jobs came in, one after the other
  predicate CameIn(waiting: seq<Job>, arrivals: seq<Arrival>, places: seq<nat>) {
    && |places| == |waiting|
    && (forall k | 0 <= k < |places| ::
          places[k] < |arrivals| && arrivals[places[k]] == Arrival(waiting[k].id, waiting[k].attempts))
    && (forall i, j | 0 <= i < j < |places| :: places[i] < places[j])
  }

  lemma PutCameIn(waiting: seq<Job>, arrivals: seq<Arrival>, places: seq<nat>, j: Job)
    requires CameIn(waiting, arrivals, places)
    ensures CameIn(waiting + [j], arrivals + [Arrival(j.id, j.attempts)], places + [|arrivals|])
  {
  }

  lemma TakenCameIn(waiting: seq<Job>, arrivals: seq<Arrival>, places: seq<nat>, i: nat)
    requires CameIn(waiting, arrivals, places) && i < |waiting|
    ensures CameIn(Without(waiting, i), arrivals, Without(places, i))
  {
    var w, p := Without(waiting, i), Without(places, i);
    assert forall k | 0 <= k < |w| :: w[k] == waiting[if k < i then k else k + 1];
    assert forall k | 0 <= k < |p| :: p[k] == places[if k < i then k else k + 1];
  }

  lemma StepCameIn(s: State, ev: Event, arrivals: seq<Arrival>, places: seq<nat>) returns (places': seq<nat>)
    requires CameIn(s.waiting, arrivals, places) && forall id | id in s.running :: s.running[id].id == id
    ensures CameIn(Next(s, ev).waiting, arrivals + Puts(s, ev), places')
  {
    places' := places;
    assert arrivals + [] == arrivals;
    if Enabled(s, ev) {
      match ev {
        case Enqueue(at) =>
          PutCameIn(s.waiting, arrivals, places, Job(s.enqueued, 0, None));
          places' := places + [|arrivals|];
        case Dequeue(at) =>
          var i := FirstEligible(s.waiting, at);
          if i < |s.waiting| {
            TakenCameIn(s.waiting, arrivals, places, i);
            places' := Without(places, i);
          }
        case Succeed(id, at) =>
        case Fail(id, at) =>
          var failures := s.running[id].attempts + 1;
          if failures < 3 {
            PutCameIn(s.waiting, arrivals, places, Job(id, failures, Some(at + Delay(failures))));
            places' := places + [|arrivals|];
          }
      }
    }
  }

  lemma {:induction false} RunCameIn(s: State, events: seq<Event>, arrivals: seq<Arrival>, places: seq<nat>)
    returns (places': seq<nat>)
    requires Inv(s) && CameIn(s.waiting, arrivals, places)
    ensures CameIn(Run(s, events).waiting, arrivals + Arrivals(s, events), places')
    decreases |events|
  {
    if events == [] {
      places' := places;
      assert arrivals + [] == arrivals;
    } else {
      var places1 := StepCameIn(s, events[0], arrivals, places);
      NextKeepsInv(s, events[0]);
      places' := RunCameIn(Next(s, events[0]), events[1..], arrivals + Puts(s, events[0]), places1);
      assert arrivals + Puts(s, events[0]) + Arrivals(Next(s, events[0]), events[1..])
          == arrivals + Arrivals(s, events);
    }
  }

  // After any run the jobs wait in the order in which they were put into the queue
  lemma WaitInOrder(events: seq<Event>) returns (places: seq<nat>)
    ensures CameIn(Run(EMPTY, events).waiting, Arrivals(EMPTY, events), places)
  {
    assert Inv(EMPTY);
    places := RunCameIn(EMPTY, events, [], []);
    assert [] + Arrivals(EMPTY, events) == Arrivals(EMPTY, events);
  }

  predicate Waits(j: Job, at: nat) {
    j.retryAfter.Some? && at < j.retryAfter.value
  }

  // A poll takes the first job that is not in its backoff, and nothing if there is none
  lemma TakesFirst(s: State, at: nat, k: nat)
    requires s.clock <= at && k <= |s.waiting| && forall i | 0 <= i < k :: Waits(s.waiting[i], at)
    requires k < |s.waiting| ==> !Waits(s.waiting[k], at)
    ensures var s' := Next(s, Dequeue(at));
            if k == |s.waiting| then s' == s.(clock := at)
            else
              var j := s.waiting[k];
              && s'.log == s.log + [Started(j.id, j.attempts + 1, at)]
              && s'.waiting == Without(s.waiting, k) && s'.running == s.running[j.id := j]
  {
    assert FirstEligible(s.waiting, at) == k;
  }

  // A job that has failed once waits for exactly a second since, one that has failed twice for two, a new one
  // not at all
  lemma BacksOffExactly(s: State, k: nat) returns (f: nat)
    requires Reachable(s) && k < |s.waiting|
    ensures s.waiting[k].attempts == 0 ==> s.waiting[k].retryAfter.None?
    ensures s.waiting[k].attempts > 0 ==>
              && Failed(s.waiting[k].id, s.waiting[k].attempts, f) in s.log
              && s.waiting[k].retryAfter == Some(f + if s.waiting[k].attempts == 1 then 1000 else 2000)
  {
    ReachableInv(s);
    var j := s.waiting[k];
    assert WaitsRightly(s.log, j, s.clock);
    assert Pow2(0) == 1 && Pow2(1) == 2;
    f := if j.attempts > 0 then j.retryAfter.value - Delay(j.attempts) else 0;
  }
}
