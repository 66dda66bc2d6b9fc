/**
 One file's chunks among any other traffic: the assembler hands the file over exactly when all chunks are
 stored and none of them twice. A chunk is stored twice exactly when two copies of it are past the
 duplicate test together and both go on (apps/trapchat/src/lib/media.js).
 */
module MediaReassembly {
  import opened Arith
  import opened MediaTransfer
  import opened Options
  import opened Seqs
  import opened Sets

  datatype Sending = Sending(key: Key, tid: TransferId, file: File)

  predicate Acceptable(x: Sending) {
    x.tid != "" && x.file.mimeType != "" && 0 < |x.file.bytes| <= MAX_FILE_SIZE
  }

  function Count(x: Sending): nat {
    Total(|x.file.bytes|)
  }

  function Chunks(x: Sending): set<int> {
    Below(Count(x))
  }

  function Part(x: Sending, i: int): Message
    requires i in Chunks(x)
  {
    Sent(x.key, x.tid, x.file, i)
  }

  // ---- The chunks of a file, one after the other, are the file ----

  function Pieces(x: Sending, seen: set<int>): map<int, Bytes>
    requires seen <= Chunks(x)
  {
    map i | i in seen :: SliceAt(x.file.bytes, i)
  }

  lemma {:induction false} JoinedPieces(x: Sending, n: nat)
    requires n <= Count(x)
    ensures Joined(Pieces(x, Chunks(x)), n) == x.file.bytes[..Min(n * CHUNK_SIZE, |x.file.bytes|)]
  {
    if n > 0 {
      JoinedPieces(x, n - 1);
      assert SliceAt(x.file.bytes, n - 1) == x.file.bytes[(n - 1) * CHUNK_SIZE..Min(n * CHUNK_SIZE, |x.file.bytes|)];
      assert Pieces(x, Chunks(x))[n - 1] == SliceAt(x.file.bytes, n - 1);
    }
  }

  lemma {:induction false} JoinedPastEnd(chunks: map<int, Bytes>, n: nat, m: nat)
    requires n <= m && forall i | n <= i < m :: i !in chunks
    ensures Joined(chunks, m) == Joined(chunks, n)
  {
    if n < m { JoinedPastEnd(chunks, n, m - 1); }
  }

  lemma ChunksAreTheFile(x: Sending)
    requires Acceptable(x)
    ensures 0 < Count(x) <= 50
    ensures Joined(Pieces(x, Chunks(x)), MAX_CHUNKS) == x.file.bytes
  {
    JoinedPieces(x, Count(x));
    JoinedPastEnd(Pieces(x, Chunks(x)), Count(x), MAX_CHUNKS);
    assert Min(Count(x) * CHUNK_SIZE, |x.file.bytes|) == |x.file.bytes|;
  }

  lemma {:induction false} FewerAreShorter(x: Sending, seen: set<int>, n: nat)
    requires seen <= Chunks(x)
    ensures |Joined(Pieces(x, seen), n)| <= |Joined(Pieces(x, Chunks(x)), n)|
  {
    if n > 0 { FewerAreShorter(x, seen, n - 1); }
  }

  // ---- What the assembler holds once these chunks have been stored, in this order ----

  function Elems(s: seq<int>): set<int> {
    set i | i in s
  }

  lemma {:induction false} DistinctBySize(s: seq<int>)
    ensures |Elems(s)| <= |s| && (|Elems(s)| == |s| <==> Distinct(s))
  {
    if s != [] {
      var front, last := s[..|s| - 1], s[|s| - 1];
      DistinctBySize(front);
      assert s == front + [last];
      assert Elems(s) == Elems(front) + {last};
      assert last in front <==> last in Elems(front);
      if last in front {
        var i :| 0 <= i < |front| && front[i] == last;
        assert s[i] == s[|s| - 1];
        assert Elems(s) == Elems(front);
      }
    }
  }

  function Described(p: Policy, x: Sending): Meta {
    Cleaned(p, Meta(x.file.mimeType, x.file.name, |x.file.bytes|))
  }

  predicate HasStored(p: Policy, x: Sending, t: Transfer, stored: seq<int>)
    requires Elems(stored) <= Chunks(x)
  {
    && t.owner == x.tid && t.chunks == Pieces(x, Elems(stored)) && t.received == |stored| && t.total == Count(x)
    && (t.meta == None || t.meta == Some(Described(p, x)))
    && (0 in stored ==> t.meta.Some?)
  }

  predicate IsCall(x: Sending, call: Call, at: nat) {
    call.at == at && call.seqNo in Chunks(x) && call.envelope == Part(x, call.seqNo).chunk.envelope
  }

  predicate Waiting(x: Sending, a: Assembler, c: nat) {
    c in a.calls && a.calls[c].tid == x.tid
  }

  ghost predicate Unknown(x: Sending, a: Assembler) {
    x.tid !in a.transfers && forall c :: !Waiting(x, a, c)
  }

  ghost predicate Holds(p: Policy, x: Sending, a: Assembler, stored: seq<int>) {
    && Linked(a) && Elems(stored) <= Chunks(x)
    && if x.tid in a.transfers then
         && HasStored(p, x, a.objects[a.transfers[x.tid]], stored)
         && forall c | Waiting(x, a, c) :: IsCall(x, a.calls[c], a.transfers[x.tid])
       else
         stored == [] && Unknown(x, a)
  }

  // ---- What is answered ----

  // What the receiver is handed at the end: the original bytes and the sender's description
  function Delivered(p: Policy, x: Sending): Outcome {
    Complete(x.tid, p.validate(Some(x.file.mimeType), x.file.bytes), Some(Described(p, x)), x.file.bytes)
  }

  // The answer to the call that stores the last of these
  function Answer(p: Policy, x: Sending, stored: seq<int>): Outcome {
    if |stored| != Count(x) then Progress(x.tid, |stored|, Count(x))
    else if Distinct(stored) then Delivered(p, x)
    else Throws
  }

  // The file has not been handed over
  predicate Incomplete(x: Sending, stored: seq<int>) {
    |stored| >= Count(x) ==> !Distinct(stored[..Count(x)])
  }

  lemma FinishAnswers(p: Policy, x: Sending, t: Transfer, stored: seq<int>)
    requires Acceptable(x) && Elems(stored) <= Chunks(x) && HasStored(p, x, t, stored)
    ensures Finish(p, x.tid, t) == Answer(p, x, stored)
  {
    if |stored| == Count(x) {
      ChunksAreTheFile(x);
      FewerAreShorter(x, Elems(stored), MAX_CHUNKS);
      DistinctBySize(stored);
      SubsetSizeSame(Elems(stored), Chunks(x));
      if Distinct(stored) {
        assert 0 in Elems(stored);
      } else {
        assert !(Chunks(x) <= Elems(stored));
        var i :| i in Chunks(x) && i !in Elems(stored);
        assert i !in t.chunks;
      }
    }
  }

  lemma StoreAdds(p: Policy, x: Sending, t: Transfer, stored: seq<int>, i: int)
    requires Acceptable(x) && Elems(stored) <= Chunks(x) && HasStored(p, x, t, stored) && i in Chunks(x)
    ensures Elems(stored + [i]) <= Chunks(x)
    ensures HasStored(p, x, Store(p, t, i, Part(x, i).chunk.envelope), stored + [i])
  {
    assert Elems(stored + [i]) == Elems(stored) + {i};
    assert Pieces(x, Elems(stored))[i := SliceAt(x.file.bytes, i)] == Pieces(x, Elems(stored + [i]));
    assert 0 in stored + [i] ==> 0 in stored || i == 0;
  }

  // The second half of a call for a chunk of the file, against any state of the assembler
  lemma ResumedAnswers(p: Policy, x: Sending, a: Assembler, stored: seq<int>, c: nat)
    requires Acceptable(x) && Holds(p, x, a, stored) && x.tid in a.transfers && Waiting(x, a, c)
    ensures Resumed(p, a, c).1 == Answer(p, x, stored + [a.calls[c].seqNo])
    ensures var s := stored + [a.calls[c].seqNo];
            !Answer(p, x, s).Complete? ==> Holds(p, x, Resumed(p, a, c).0, s)
  {
    var at, i := a.transfers[x.tid], a.calls[c].seqNo;
    StoreAdds(p, x, a.objects[at], stored, i);
    FinishAnswers(p, x, Store(p, a.objects[at], i, Part(x, i).chunk.envelope), stored + [i]);
  }

  lemma PartIsRead(x: Sending, i: int)
    requires Acceptable(x) && i in Chunks(x)
    ensures WellFormed(Part(x, i)) && Open(x.key, Part(x, i).chunk) == Some(Part(x, i).chunk.envelope)
    ensures Part(x, i).tid == x.tid && Part(x, i).seqNo == i && Part(x, i).total == Count(x)
  {
    ChunksAreTheFile(x);
  }

  lemma AdmittedHolds(p: Policy, x: Sending, a: Assembler, stored: seq<int>, i: int)
    requires Acceptable(x) && Holds(p, x, a, stored) && i in Chunks(x) && WellFormed(Part(x, i))
    ensures var b := Admitted(p, a, Part(x, i), Part(x, i).chunk.envelope);
            && HasStored(p, x, b.objects[b.transfers[x.tid]], stored)
            && (x.tid in a.transfers ==> b.transfers[x.tid] == a.transfers[x.tid])
  {
    PartIsRead(x, i);
    if stored == [] { assert Pieces(x, Elems(stored)) == map[]; }
  }

  lemma TestedHolds(p: Policy, x: Sending, a: Assembler, stored: seq<int>, c: nat, i: int, now: nat)
    requires Acceptable(x) && Holds(p, x, a, stored) && i in Chunks(x) && WellFormed(Part(x, i)) && c !in a.calls
    ensures var (b, outcome) := Tested(p, a, c, Part(x, i), Part(x, i).chunk.envelope, now);
            Holds(p, x, b, stored) && outcome == (if i in stored then Ignored else Waits)
  {
    PartIsRead(x, i);
    AdmittedHolds(p, x, a, stored, i);
    assert i in stored <==> i in Elems(stored);
    var b := Tested(p, a, c, Part(x, i), Part(x, i).chunk.envelope, now).0;
    forall d | Waiting(x, b, d) ensures IsCall(x, b.calls[d], b.transfers[x.tid]) {
      assert d != c ==> Waiting(x, a, d);
    }
  }

  // The first half
  lemma ArrivedAnswers(p: Policy, x: Sending, a: Assembler, stored: seq<int>, c: nat, i: int, now: nat)
    requires Acceptable(x) && Holds(p, x, a, stored) && i in Chunks(x) && c !in a.calls
    requires x.tid in a.transfers || |a.transfers| < MAX_CONCURRENT_TRANSFERS
    ensures Arrived(p, a, c, Part(x, i), x.key, now).1 == if i in stored then Ignored else Waits
    ensures Holds(p, x, Arrived(p, a, c, Part(x, i), x.key, now).0, stored)
  {
    PartIsRead(x, i);
    TestedHolds(p, x, a, stored, c, i, now);
  }

  // ---- Among other traffic ----

  predicate Concerns(x: Sending, a: Assembler, ev: Event) {
    || (ev.Arrives? && ev.m.Message? && ev.m.tid == x.tid)
    || (ev.Resumes? && Waiting(x, a, ev.c))
  }

  // Only chunks of the file carry its id, its first chunk finds a free place, and its timer
  // does not run out; everything else is arbitrary
  predicate Fits(x: Sending, a: Assembler, ev: Event) {
    match ev
    case Arrives(c, m, key, at) =>
      m.Message? && m.tid == x.tid ==>
        && m.seqNo in Chunks(x) && m == Part(x, m.seqNo) && key == x.key
        && (x.tid !in a.transfers ==> |a.transfers| < MAX_CONCURRENT_TRANSFERS)
    case Resumes(c) => true
    case Tick(at) => x.tid !in Expired(a, at)
    case Destroyed => false
  }

  predicate Undisturbed(p: Policy, x: Sending, a: Assembler, events: seq<Event>)
    requires Linked(a)
    decreases |events|
  {
    events == [] || (Fits(x, a, events[0]) && Undisturbed(p, x, Next(p, a, events[0]), events[1..]))
  }

  // The chunk that an event stores
  function Gained(x: Sending, a: Assembler, ev: Event): seq<int> {
    if ev.Resumes? && Waiting(x, a, ev.c) then [a.calls[ev.c].seqNo] else []
  }

  // The chunks of the file that a run stores, in order
  function Stored(p: Policy, x: Sending, a: Assembler, events: seq<Event>): seq<int>
    requires Linked(a)
    decreases |events|
  {
    if events == [] then []
    else Gained(x, a, events[0]) + Stored(p, x, Next(p, a, events[0]), events[1..])
  }

  ghost predicate SameFor(x: Sending, a: Assembler, b: Assembler)
    requires Linked(a) && Linked(b)
  {
    && (x.tid in b.transfers <==> x.tid in a.transfers)
    && (x.tid in a.transfers ==>
          && b.transfers[x.tid] == a.transfers[x.tid]
          && b.objects[b.transfers[x.tid]] == a.objects[a.transfers[x.tid]])
    && (forall c :: Waiting(x, b, c) <==> Waiting(x, a, c))
    && (forall c | Waiting(x, a, c) :: b.calls[c] == a.calls[c])
  }

  lemma OtherAdmitted(p: Policy, x: Sending, a: Assembler, m: Message, e: Envelope)
    requires Linked(a) && WellFormed(m) && m.tid != x.tid
    ensures SameFor(x, a, Admitted(p, a, m, e))
  {
  }

  lemma OtherTested(p: Policy, x: Sending, a: Assembler, c: nat, m: Message, e: Envelope, now: nat)
    requires Linked(a) && c !in a.calls && WellFormed(m) && m.tid != x.tid
    ensures SameFor(x, a, Tested(p, a, c, m, e, now).0)
  {
    OtherAdmitted(p, x, a, m, e);
    var b, r := Admitted(p, a, m, e), Tested(p, a, c, m, e, now).0;
    assert r.objects == b.objects && r.transfers == b.transfers;
    assert r.calls == b.calls || r.calls == b.calls[c := Call(m.tid, m.seqNo, e, b.transfers[m.tid])];
  }

  lemma OtherArrives(p: Policy, x: Sending, a: Assembler, c: nat, m: Message, key: Key, now: nat)
    requires Linked(a) && c !in a.calls && !(m.Message? && m.tid == x.tid)
    ensures SameFor(x, a, Arrived(p, a, c, m, key, now).0)
  {
    if WellFormed(m) && Open(key, m.chunk).Some? {
      OtherTested(p, x, a, c, m, Open(key, m.chunk).value, now);
    }
  }

  lemma OtherResumes(p: Policy, x: Sending, a: Assembler, c: nat)
    requires Linked(a) && c in a.calls && a.calls[c].tid != x.tid
    ensures SameFor(x, a, Resumed(p, a, c).0)
  {
    ResumedMaps(p, a, c);
  }

  // Traffic under other ids, objects that have lost their place, and ticks before the timer leave it as it is
  lemma OthersLeaveIt(p: Policy, x: Sending, a: Assembler, ev: Event)
    requires Linked(a) && !Concerns(x, a, ev) && Fits(x, a, ev)
    ensures SameFor(x, a, Next(p, a, ev))
  {
    match ev {
      case Arrives(c, m, key, at) => if c !in a.calls { OtherArrives(p, x, a, c, m, key, at); }
      case Resumes(c) => if c in a.calls { OtherResumes(p, x, a, c); }
      case Tick(at) =>
      case Destroyed =>
    }
  }

  lemma SameHolds(p: Policy, x: Sending, a: Assembler, b: Assembler, stored: seq<int>)
    requires Linked(a) && Linked(b) && Holds(p, x, a, stored) && SameFor(x, a, b)
    ensures Holds(p, x, b, stored)
  {
  }

  lemma IncompleteBefore(x: Sending, stored: seq<int>, more: seq<int>)
    requires Incomplete(x, stored + more)
    ensures Incomplete(x, stored)
  {
    if |stored| >= Count(x) { assert (stored + more)[..Count(x)] == stored[..Count(x)]; }
  }

  lemma StepHolds(p: Policy, x: Sending, a: Assembler, stored: seq<int>, ev: Event)
    requires Acceptable(x) && Holds(p, x, a, stored) && Fits(x, a, ev)
    requires Incomplete(x, stored + Gained(x, a, ev))
    ensures Holds(p, x, Next(p, a, ev), stored + Gained(x, a, ev))
  {
    if !Concerns(x, a, ev) {
      OthersLeaveIt(p, x, a, ev);
      SameHolds(p, x, a, Next(p, a, ev), stored);
      assert stored + Gained(x, a, ev) == stored;
    } else if ev.Resumes? {
      var s := stored + Gained(x, a, ev);
      assert |s| == Count(x) ==> s[..Count(x)] == s;
      ResumedAnswers(p, x, a, stored, ev.c);
    } else {
      if ev.c !in a.calls { ArrivedAnswers(p, x, a, stored, ev.c, ev.m.seqNo, ev.at); }
      assert stored + Gained(x, a, ev) == stored;
    }
  }

  // Until the file is handed over, the assembler holds exactly what the run has stored
  lemma {:induction false} RunHolds(p: Policy, x: Sending, a: Assembler, stored: seq<int>, events: seq<Event>)
    requires Acceptable(x) && Holds(p, x, a, stored) && Undisturbed(p, x, a, events)
    requires Incomplete(x, stored + Stored(p, x, a, events))
    ensures Holds(p, x, Run(p, a, events), stored + Stored(p, x, a, events))
    decreases |events|
  {
    if events == [] {
      assert stored + Stored(p, x, a, events) == stored;
    } else {
      var gained, b := Gained(x, a, events[0]), Next(p, a, events[0]);
      var later := Stored(p, x, b, events[1..]);
      assert stored + Stored(p, x, a, events) == (stored + gained) + later;
      IncompleteBefore(x, stored + gained, later);
      StepHolds(p, x, a, stored, events[0]);
      RunHolds(p, x, b, stored + gained, events[1..]);
    }
  }

  /**
   Reassembly inverts chunking, for any file the sender accepts and any traffic before, in which its chunks
   appear in any order, any number of times, in overlapping calls, among anything else. The call that stores
   the next chunk hands over the original bytes and the sender's description exactly if it is the last of all
   chunks and none was stored twice; it fails on a hole exactly if as many were stored but one of them twice.
   */
  lemma ReassemblyInvertsChunking(p: Policy, x: Sending, a: Assembler, events: seq<Event>, c: nat)
    requires Acceptable(x) && Linked(a) && Unknown(x, a) && Undisturbed(p, x, a, events)
    requires Incomplete(x, Stored(p, x, a, events)) && Waiting(x, Run(p, a, events), c)
    ensures var b := Run(p, a, events);
            var s := Stored(p, x, a, events) + [b.calls[c].seqNo];
            var answer := Resumed(p, b, c).1;
            && (answer.Complete? <==> |s| == Count(x) && Distinct(s))
            && (answer.Complete? ==> answer == Delivered(p, x))
            && (answer.Throws? <==> |s| == Count(x) && !Distinct(s))
            && (|s| != Count(x) ==> answer == Progress(x.tid, |s|, Count(x)))
  {
    var s := Stored(p, x, a, events);
    assert [] + s == s;
    RunHolds(p, x, a, [], events);
    ResumedAnswers(p, x, Run(p, a, events), s, c);
  }

  // A chunk is refused as a duplicate exactly if a copy of it has been stored, not if one is on its way
  lemma DuplicatesRefused(p: Policy, x: Sending, a: Assembler, events: seq<Event>, c: nat, i: int, now: nat)
    requires Acceptable(x) && Linked(a) && Unknown(x, a) && Undisturbed(p, x, a, events)
    requires Incomplete(x, Stored(p, x, a, events)) && i in Chunks(x) && c !in Run(p, a, events).calls
    requires x.tid in Run(p, a, events).transfers || |Run(p, a, events).transfers| < MAX_CONCURRENT_TRANSFERS
    ensures Arrived(p, Run(p, a, events), c, Part(x, i), x.key, now).1
            == if i in Stored(p, x, a, events) then Ignored else Waits
  {
    var s := Stored(p, x, a, events);
    assert [] + s == s;
    RunHolds(p, x, a, [], events);
    ArrivedAnswers(p, x, Run(p, a, events), s, c, i, now);
  }
}
