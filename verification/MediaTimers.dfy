/**
 How long a transfer lives and what is let into it (apps/trapchat/src/lib/media.js), from the events alone: thirty
 seconds after its latest readable chunk it is dropped, and no sooner unless it ends; at most ten live at once.
 */
module MediaTimers {
  import opened MediaTransfer
  import opened Options

  // A chunk that could belong to a transfer: a named one of at most 100 chunks, and one of these
  predicate Proper(m: Message) {
    m.Message? && m.tid != "" && 1 <= m.total <= 100 && 0 <= m.seqNo <= m.total - 1
  }

  predicate Readable(m: Message, key: Key) {
    Proper(m) && m.chunk.Sealed? && m.chunk.key == key
  }

  predicate Placed(a: Assembler, m: Message, key: Key) {
    Readable(m, key) && (m.tid in a.transfers || |a.transfers| < 10)
  }

  lemma ProperIsWellFormed(m: Message)
    ensures Proper(m) <==> WellFormed(m)
  {
  }

  // Without a place, or unreadable, a chunk changes nothing
  lemma ArrivalRefused(p: Policy, a: Assembler, c: nat, m: Message, key: Key, now: nat)
    requires Linked(a) && !Placed(a, m, key)
    ensures Arrived(p, a, c, m, key, now)
            == (a, if Proper(m) && !Readable(m, key) then Mismatch(m.tid) else Ignored)
  {
    ProperIsWellFormed(m);
  }

  lemma AdmittedIs(p: Policy, a: Assembler, m: Message, e: Envelope)
    requires Linked(a) && WellFormed(m)
    ensures var b := Admitted(p, a, m, e);
            && b.transfers.Keys == a.transfers.Keys + {m.tid}
            && (m.tid in a.transfers ==> b.transfers == a.transfers)
            && b.objects[b.transfers[m.tid]].chunks
               == (if m.tid in a.transfers then a.objects[a.transfers[m.tid]].chunks else map[])
  {
  }

  lemma ArrivalIsTested(p: Policy, a: Assembler, c: nat, m: Message, key: Key, now: nat)
    requires Linked(a) && Placed(a, m, key)
    ensures WellFormed(m) && Arrived(p, a, c, m, key, now) == Tested(p, a, c, m, m.chunk.envelope, now)
  {
    ProperIsWellFormed(m);
  }

  lemma TestedIs(p: Policy, a: Assembler, c: nat, m: Message, e: Envelope, now: nat)
    requires Linked(a) && WellFormed(m)
    ensures var (b, outcome) := Tested(p, a, c, m, e, now);
            var d := Admitted(p, a, m, e);
            && b.timers == a.timers[m.tid := now + 30_000] && b.transfers == d.transfers && b.objects == d.objects
            && outcome == (if m.seqNo in d.objects[d.transfers[m.tid]].chunks then Ignored else Waits)
  {
  }

  // With a place it restarts the thirty seconds, and goes on exactly if its number has not been stored
  lemma ArrivalPlaced(p: Policy, a: Assembler, c: nat, m: Message, key: Key, now: nat)
    requires Linked(a) && Placed(a, m, key)
    ensures var (b, outcome) := Arrived(p, a, c, m, key, now);
            && b.timers == a.timers[m.tid := now + 30_000] && b.transfers.Keys == a.transfers.Keys + {m.tid}
            && outcome == (if m.tid in a.transfers && m.seqNo in a.objects[a.transfers[m.tid]].chunks
                           then Ignored else Waits)
  {
    ArrivalIsTested(p, a, c, m, key, now);
    TestedIs(p, a, c, m, m.chunk.envelope, now);
    AdmittedIs(p, a, m, m.chunk.envelope);
  }

  // What its transfer then is: a new one is empty; one that lives takes the description of a chunk 0 that has a type,
  // even if that chunk goes no further
  lemma ArrivalDescribes(p: Policy, a: Assembler, c: nat, m: Message, key: Key, now: nat)
    requires Linked(a) && Placed(a, m, key)
    ensures var b := Arrived(p, a, c, m, key, now).0;
            var meta := m.chunk.envelope.meta;
            b.objects[b.transfers[m.tid]] ==
            if m.tid !in a.transfers then Transfer(m.tid, map[], 0, m.total, None)
            else if m.seqNo == 0 && meta.Some? && meta.value.mimeType != "" then
              a.objects[a.transfers[m.tid]].(meta := Some(meta.value.(fileName := p.sanitize(meta.value.fileName))))
            else a.objects[a.transfers[m.tid]]
  {
    ArrivalIsTested(p, a, c, m, key, now);
    AdmittedDescribes(p, a, m, m.chunk.envelope);
    TestedIs(p, a, c, m, m.chunk.envelope, now);
  }

  lemma AdmittedDescribes(p: Policy, a: Assembler, m: Message, e: Envelope)
    requires Linked(a) && WellFormed(m)
    ensures var b := Admitted(p, a, m, e);
            b.objects[b.transfers[m.tid]] ==
            if m.tid !in a.transfers then Transfer(m.tid, map[], 0, m.total, None)
            else if m.seqNo == 0 && e.meta.Some? && e.meta.value.mimeType != "" then
              a.objects[a.transfers[m.tid]].(meta := Some(e.meta.value.(fileName := p.sanitize(e.meta.value.fileName))))
            else a.objects[a.transfers[m.tid]]
  {
  }

  // The second half stores the chunk and counts it, and describes a transfer that has no description
  lemma StoreCounts(p: Policy, t: Transfer, n: int, e: Envelope)
    requires e.data.Some?
    ensures var t' := Store(p, t, n, e);
            && t'.owner == t.owner && t'.total == t.total && t'.received == t.received + 1
            && t'.chunks == t.chunks[n := e.data.value]
            && t'.meta == (if t.meta.Some? || e.meta.None? || e.meta.value.mimeType == "" then t.meta
                           else Some(e.meta.value.(fileName := p.sanitize(e.meta.value.fileName))))
  {
  }

  // What the second half answers: not before the count is reached, and then by size and by holes
  lemma EndAnswers(p: Policy, tid: TransferId, t: Transfer)
    ensures var outcome, size := Finish(p, tid, t), |Joined(t.chunks, 100)|;
            && (outcome.Progress? <==> t.received != t.total)
            && (outcome.Progress? ==> outcome == Progress(tid, t.received, t.total))
            && (outcome.TooLarge? <==> t.received == t.total && size > 26_214_400)
            && (outcome.Throws? <==>
                  t.received == t.total && size <= 26_214_400 && exists i | 0 <= i < t.total :: i !in t.chunks)
            && (outcome.Complete? ==> outcome.bytes == Joined(t.chunks, 100) && outcome.meta == t.meta)
  {
  }

  lemma {:induction false} RunAppends(p: Policy, a: Assembler, events: seq<Event>, ev: Event)
    requires Linked(a)
    ensures Run(p, a, events + [ev]) == Next(p, Run(p, a, events), ev)
    decreases |events|
  {
    if events == [] {
      assert [ev][1..] == [];
    } else {
      assert (events + [ev])[1..] == events[1..] + [ev];
      RunAppends(p, Next(p, a, events[0]), events[1..], ev);
    }
  }

  // The call finishes with the transfer's file, or with the file being too large
  predicate EndsNow(p: Policy, a: Assembler, ev: Event, tid: TransferId)
    requires Linked(a)
  {
    ev.Resumes? && ev.c in a.calls && a.calls[ev.c].tid == tid && Ends(Resumed(p, a, ev.c).1)
  }

  // A chunk of the transfer is read that has a place
  predicate HeardNow(a: Assembler, ev: Event, tid: TransferId, due: Option<nat>) {
    && ev.Arrives? && ev.c !in a.calls && Readable(ev.m, ev.key) && ev.m.tid == tid
    && (due.Some? || |a.transfers| < 10)
  }

  // When the transfer is to be dropped, if it lives
  function Due(p: Policy, events: seq<Event>, tid: TransferId): Option<nat>
    decreases |events|
  {
    if events == [] then None
    else
      var before, ev := events[..|events| - 1], events[|events| - 1];
      var due, a := Due(p, before, tid), Run(p, EMPTY, before);
      if HeardNow(a, ev, tid, due) then Some(ev.at + 30_000)
      else if ev.Destroyed? || EndsNow(p, a, ev, tid) then None
      else if ev.Tick? && due.Some? && due.value <= ev.at then None
      else due
  }

  predicate Follows(a: Assembler, tid: TransferId, due: Option<nat>) {
    && (tid in a.transfers <==> due.Some?) && (tid in a.timers <==> due.Some?)
    && (due.Some? ==> a.timers[tid] == due.value)
  }

  lemma PlacedFollows(a: Assembler, b: Assembler, heard: TransferId, now: nat, tid: TransferId, due: Option<nat>)
    requires Follows(a, tid, due)
    requires b.timers == a.timers[heard := now + 30_000] && b.transfers.Keys == a.transfers.Keys + {heard}
    ensures Follows(b, tid, if heard == tid then Some(now + 30_000) else due)
  {
    assert tid in b.transfers <==> tid in b.transfers.Keys;
  }

  lemma ArrivedFollows(p: Policy, a: Assembler, c: nat, m: Message, key: Key, now: nat, tid: TransferId,
                       due: Option<nat>)
    requires Linked(a) && Follows(a, tid, due)
    ensures Follows(Arrived(p, a, c, m, key, now).0, tid,
                    if Placed(a, m, key) && m.tid == tid then Some(now + 30_000) else due)
  {
    if Placed(a, m, key) {
      ArrivalPlaced(p, a, c, m, key, now);
      PlacedFollows(a, Arrived(p, a, c, m, key, now).0, m.tid, now, tid, due);
    } else {
      ArrivalRefused(p, a, c, m, key, now);
    }
  }

  lemma ArrivalFollows(p: Policy, a: Assembler, ev: Event, tid: TransferId, due: Option<nat>)
    requires Linked(a) && Follows(a, tid, due) && ev.Arrives?
    ensures Follows(Next(p, a, ev), tid, if HeardNow(a, ev, tid, due) then Some(ev.at + 30_000) else due)
  {
    if ev.c !in a.calls { ArrivedFollows(p, a, ev.c, ev.m, ev.key, ev.at, tid, due); }
  }

  lemma OtherFollows(p: Policy, a: Assembler, ev: Event, tid: TransferId, due: Option<nat>)
    requires Linked(a) && Follows(a, tid, due) && !ev.Arrives?
    ensures Follows(Next(p, a, ev), tid,
                    if ev.Destroyed? || EndsNow(p, a, ev, tid) then None
                    else if ev.Tick? && due.Some? && due.value <= ev.at then None
                    else due)
  {
    if ev.Resumes? && ev.c in a.calls { ResumedMaps(p, a, ev.c); }
  }

  /**
   A transfer lives from its first readable chunk, if fewer than ten lived then, until thirty seconds pass
   without another, its file is handed over or found too large, or the assembler is destroyed.
   */
  lemma {:induction false} LivesUntilDue(p: Policy, events: seq<Event>, tid: TransferId)
    ensures Follows(Run(p, EMPTY, events), tid, Due(p, events, tid))
    decreases |events|
  {
    if events != [] {
      var before, ev := events[..|events| - 1], events[|events| - 1];
      assert events == before + [ev];
      LivesUntilDue(p, before, tid);
      RunAppends(p, EMPTY, before, ev);
      var a := Run(p, EMPTY, before);
      if ev.Arrives? {
        ArrivalFollows(p, a, ev, tid, Due(p, before, tid));
      } else {
        OtherFollows(p, a, ev, tid, Due(p, before, tid));
      }
    }
  }
}
