/**
 Copies of a chunk in flight together (apps/trapchat/src/lib/media.js): handleChunk awaits between the
 duplicate test and the store, and what overlaps there is exactly what can spoil a transfer.
 */
module MediaCopies {
  import opened MediaReassembly
  import opened MediaTransfer
  import opened Seqs

  // Calls c and d are past the duplicate test with copies of one chunk
  predicate Together(x: Sending, a: Assembler, c: nat, d: nat) {
    c != d && Waiting(x, a, c) && Waiting(x, a, d) && a.calls[c].seqNo == a.calls[d].seqNo
  }

  predicate Collide(x: Sending, a: Assembler, events: seq<Event>, c: nat, d: nat) {
    Together(x, a, c, d) && Resumes(c) in events && Resumes(d) in events
  }

  // At some moment of the run two copies of one chunk are past the test together, and both go on
  ghost predicate CopiesCollide(p: Policy, x: Sending, a: Assembler, events: seq<Event>)
    requires Linked(a)
    decreases |events|
  {
    events != [] && ((exists c, d :: Collide(x, a, events, c, d))
                     || CopiesCollide(p, x, Next(p, a, events[0]), events[1..]))
  }

  lemma ArrivedCalls(p: Policy, a: Assembler, c: nat, m: Message, key: Key, now: nat)
    requires Linked(a)
    ensures var (b, outcome) := Arrived(p, a, c, m, key, now);
            if outcome.Waits? then m.Message? && c in b.calls && b.calls == a.calls[c := b.calls[c]]
                                   && b.calls[c].tid == m.tid && b.calls[c].seqNo == m.seqNo
            else b.calls == a.calls
  {
  }

  // A waiting call stays as it is until it resumes
  lemma StillWaiting(p: Policy, x: Sending, a: Assembler, ev: Event, c: nat)
    requires Linked(a) && Waiting(x, a, c) && ev != Resumes(c)
    ensures Waiting(x, Next(p, a, ev), c) && Next(p, a, ev).calls[c] == a.calls[c]
  {
    match ev {
      case Arrives(d, m, key, at) => if d !in a.calls { ArrivedCalls(p, a, d, m, key, at); }
      case Resumes(d) => if d in a.calls { ResumedMaps(p, a, d); }
      case Tick(at) =>
      case Destroyed =>
    }
  }

  lemma {:induction false} ResumedIsStored(p: Policy, x: Sending, a: Assembler, events: seq<Event>, c: nat)
    requires Linked(a) && Waiting(x, a, c) && Resumes(c) in events
    ensures a.calls[c].seqNo in Stored(p, x, a, events)
    decreases |events|
  {
    if events[0] == Resumes(c) {
      assert Stored(p, x, a, events)[0] == a.calls[c].seqNo;
    } else {
      StillWaiting(p, x, a, events[0], c);
      ResumedIsStored(p, x, Next(p, a, events[0]), events[1..], c);
    }
  }

  lemma NotDistinct(front: seq<int>, i: int, back: seq<int>)
    requires i in back
    ensures !Distinct(front + [i] + back) && !Distinct([i] + back)
  {
    var k :| 0 <= k < |back| && back[k] == i;
    var s, t := front + [i] + back, [i] + back;
    assert s[|front|] == s[|front| + 1 + k];
    assert t[0] == t[1 + k];
  }

  lemma DistinctPart(front: seq<int>, back: seq<int>)
    requires Distinct(front + back)
    ensures Distinct(front) && Distinct(back)
  {
    forall i, j | 0 <= i < j < |front| ensures front[i] != front[j] {
      assert (front + back)[i] == front[i] && (front + back)[j] == front[j];
    }
    forall i, j | 0 <= i < j < |back| ensures back[i] != back[j] {
      assert (front + back)[|front| + i] == back[i] && (front + back)[|front| + j] == back[j];
    }
  }

  lemma {:induction false} PairStoresTwice(p: Policy, x: Sending, a: Assembler, events: seq<Event>, c: nat, d: nat)
    requires Linked(a) && Collide(x, a, events, c, d)
    ensures !Distinct(Stored(p, x, a, events))
    decreases |events|
  {
    var ev, b, i := events[0], Next(p, a, events[0]), a.calls[c].seqNo;
    var later := Stored(p, x, b, events[1..]);
    if ev == Resumes(c) || ev == Resumes(d) {
      var other := if ev == Resumes(c) then d else c;
      StillWaiting(p, x, a, ev, other);
      ResumedIsStored(p, x, b, events[1..], other);
      NotDistinct([], i, later);
      assert Stored(p, x, a, events) == [i] + later;
    } else {
      StillWaiting(p, x, a, ev, c);
      StillWaiting(p, x, a, ev, d);
      PairStoresTwice(p, x, b, events[1..], c, d);
      if Distinct(Stored(p, x, a, events)) { DistinctPart(Gained(x, a, ev), later); }
    }
  }

  lemma {:induction false} CollisionStoresTwice(p: Policy, x: Sending, a: Assembler, events: seq<Event>)
    requires Linked(a) && CopiesCollide(p, x, a, events)
    ensures !Distinct(Stored(p, x, a, events))
    decreases |events|
  {
    if c, d :| Collide(x, a, events, c, d) {
      PairStoresTwice(p, x, a, events, c, d);
    } else {
      CollisionStoresTwice(p, x, Next(p, a, events[0]), events[1..]);
      if Distinct(Stored(p, x, a, events)) {
        DistinctPart(Gained(x, a, events[0]), Stored(p, x, Next(p, a, events[0]), events[1..]));
      }
    }
  }

  // Call c, past the test, has a chunk of which another copy has been stored meanwhile, and goes on
  predicate Late(x: Sending, a: Assembler, stored: seq<int>, events: seq<Event>, c: nat) {
    Waiting(x, a, c) && a.calls[c].seqNo in stored && Resumes(c) in events
  }

  lemma DistinctGrows(stored: seq<int>, i: int)
    requires Distinct(stored) && i !in stored
    ensures Distinct(stored + [i])
  {
  }

  // The test lets no chunk in that is stored already
  lemma LateWasLate(p: Policy, x: Sending, a: Assembler, stored: seq<int>, events: seq<Event>, c: nat)
    requires Acceptable(x) && Holds(p, x, a, stored) && events != [] && Fits(x, a, events[0]) && !events[0].Resumes?
    requires Late(x, Next(p, a, events[0]), stored, events[1..], c)
    ensures Late(x, a, stored, events, c)
  {
    if events[0].Arrives? && events[0].c !in a.calls {
      var m := events[0].m;
      ArrivedCalls(p, a, events[0].c, m, events[0].key, events[0].at);
      if Arrived(p, a, events[0].c, m, events[0].key, events[0].at).1.Waits? && m.tid == x.tid {
        ArrivedAnswers(p, x, a, stored, events[0].c, m.seqNo, events[0].at);
      }
    }
  }

  lemma LateAfterResume(p: Policy, x: Sending, a: Assembler, stored: seq<int>, events: seq<Event>, c: nat)
    requires Linked(a) && events != [] && events[0].Resumes?
    requires Late(x, Next(p, a, events[0]), stored + Gained(x, a, events[0]), events[1..], c)
    ensures Late(x, a, stored, events, c) || Collide(x, a, events, c, events[0].c)
  {
    if events[0].c in a.calls { ResumedMaps(p, a, events[0].c); }
  }

  /** If a chunk is stored twice, it was past the test twice together, or past it when its copy was stored. */
  lemma {:induction false} TwiceComesFrom(p: Policy, x: Sending, a: Assembler, stored: seq<int>, events: seq<Event>)
    requires Acceptable(x) && Holds(p, x, a, stored) && Undisturbed(p, x, a, events)
    requires Incomplete(x, stored + Stored(p, x, a, events))
    requires Distinct(stored) && !Distinct(stored + Stored(p, x, a, events))
    ensures CopiesCollide(p, x, a, events) || exists c :: Late(x, a, stored, events, c)
    decreases |events|
  {
    if events != [] {
      var b, stored' := Next(p, a, events[0]), stored + Gained(x, a, events[0]);
      StoredSplits(p, x, a, stored, events);
      if exists c :: Late(x, a, stored, events, c) {
      } else {
        OneMoreStored(p, x, a, stored, events);
        TwiceComesFrom(p, x, b, stored', events[1..]);
        if c :| Late(x, b, stored', events[1..], c) {
          LateBefore(p, x, a, stored, events, c);
        }
      }
    }
  }

  lemma StoredSplits(p: Policy, x: Sending, a: Assembler, stored: seq<int>, events: seq<Event>)
    requires Linked(a) && events != []
    ensures stored + Stored(p, x, a, events)
            == (stored + Gained(x, a, events[0])) + Stored(p, x, Next(p, a, events[0]), events[1..])
  {
  }

  lemma OneMoreStored(p: Policy, x: Sending, a: Assembler, stored: seq<int>, events: seq<Event>)
    requires Acceptable(x) && Holds(p, x, a, stored) && events != [] && Undisturbed(p, x, a, events)
    requires Incomplete(x, stored + Stored(p, x, a, events))
    requires Distinct(stored) && !exists c :: Late(x, a, stored, events, c)
    ensures Holds(p, x, Next(p, a, events[0]), stored + Gained(x, a, events[0]))
    ensures Distinct(stored + Gained(x, a, events[0]))
  {
    var gained := Gained(x, a, events[0]);
    StoredSplits(p, x, a, stored, events);
    IncompleteBefore(x, stored + gained, Stored(p, x, Next(p, a, events[0]), events[1..]));
    StepHolds(p, x, a, stored, events[0]);
    if gained != [] { assert !Late(x, a, stored, events, events[0].c); }
    StaysDistinct(stored, gained);
  }

  lemma StaysDistinct(stored: seq<int>, gained: seq<int>)
    requires Distinct(stored) && |gained| <= 1 && (gained != [] ==> gained[0] !in stored)
    ensures Distinct(stored + gained)
  {
    if gained == [] {
      assert stored + gained == stored;
    } else {
      DistinctGrows(stored, gained[0]);
      assert gained == [gained[0]];
    }
  }

  lemma LateBefore(p: Policy, x: Sending, a: Assembler, stored: seq<int>, events: seq<Event>, c: nat)
    requires Acceptable(x) && Holds(p, x, a, stored) && events != [] && Fits(x, a, events[0])
    requires Late(x, Next(p, a, events[0]), stored + Gained(x, a, events[0]), events[1..], c)
    ensures Late(x, a, stored, events, c) || CopiesCollide(p, x, a, events)
  {
    if events[0].Resumes? {
      LateAfterResume(p, x, a, stored, events, c);
    } else {
      assert stored + Gained(x, a, events[0]) == stored;
      LateWasLate(p, x, a, stored, events, c);
    }
  }

  lemma {:induction false} StoredAppends(p: Policy, x: Sending, a: Assembler, events: seq<Event>, ev: Event)
    requires Linked(a)
    ensures Stored(p, x, a, events + [ev]) == Stored(p, x, a, events) + Gained(x, Run(p, a, events), ev)
    decreases |events|
  {
    if events == [] {
      assert (events + [ev])[1..] == [];
    } else {
      assert (events + [ev])[1..] == events[1..] + [ev];
      StoredAppends(p, x, Next(p, a, events[0]), events[1..], ev);
    }
  }

  lemma {:induction false} UndisturbedAppends(p: Policy, x: Sending, a: Assembler, events: seq<Event>, ev: Event)
    requires Linked(a) && Undisturbed(p, x, a, events) && Fits(x, Run(p, a, events), ev)
    ensures Undisturbed(p, x, a, events + [ev])
    decreases |events|
  {
    if events == [] {
      assert (events + [ev])[1..] == [];
    } else {
      assert (events + [ev])[1..] == events[1..] + [ev];
      UndisturbedAppends(p, x, Next(p, a, events[0]), events[1..], ev);
    }
  }

  // A run stores a chunk twice exactly if two copies were past the test together and both went on
  lemma StoredTwiceExactlyWhen(p: Policy, x: Sending, a: Assembler, events: seq<Event>)
    requires Acceptable(x) && Linked(a) && Unknown(x, a) && Undisturbed(p, x, a, events)
    requires !Distinct(Stored(p, x, a, events)) ==> Incomplete(x, Stored(p, x, a, events))
    ensures Distinct(Stored(p, x, a, events)) <==> !CopiesCollide(p, x, a, events)
  {
    var s := Stored(p, x, a, events);
    if CopiesCollide(p, x, a, events) { CollisionStoresTwice(p, x, a, events); }
    assert [] + s == s;
    if !Distinct(s) { TwiceComesFrom(p, x, a, [], events); }
  }

  lemma IncompleteAfter(x: Sending, stored: seq<int>, i: int)
    requires Incomplete(x, stored) && !Distinct(stored + [i])
    ensures Incomplete(x, stored + [i])
  {
    var s := stored + [i];
    if |stored| >= Count(x) { assert s[..Count(x)] == stored[..Count(x)]; }
    if |s| == Count(x) { assert s[..Count(x)] == s; }
  }

  /**
   The file is handed over exactly when the last chunk is stored and no two copies of a chunk were past
   the duplicate test together and both went on; with such copies, the call that brings the count to the
   total fails, and no later one completes the transfer.
   */
  lemma CompletesExactlyWhen(p: Policy, x: Sending, a: Assembler, events: seq<Event>, c: nat)
    requires Acceptable(x) && Linked(a) && Unknown(x, a) && Undisturbed(p, x, a, events)
    requires Incomplete(x, Stored(p, x, a, events)) && Waiting(x, Run(p, a, events), c)
    ensures var n := |Stored(p, x, a, events)| + 1;
            var collide := CopiesCollide(p, x, a, events + [Resumes(c)]);
            var answer := Resumed(p, Run(p, a, events), c).1;
            && (answer.Complete? <==> n == Count(x) && !collide)
            && (answer.Complete? ==> answer == Delivered(p, x))
            && (answer.Throws? <==> n == Count(x) && collide)
            && (n != Count(x) ==> answer == Progress(x.tid, n, Count(x)))
  {
    CollideExactlyWhen(p, x, a, events, c);
    ReassemblyInvertsChunking(p, x, a, events, c);
  }

  lemma CollideExactlyWhen(p: Policy, x: Sending, a: Assembler, events: seq<Event>, c: nat)
    requires Acceptable(x) && Linked(a) && Unknown(x, a) && Undisturbed(p, x, a, events)
    requires Incomplete(x, Stored(p, x, a, events)) && Waiting(x, Run(p, a, events), c)
    ensures CopiesCollide(p, x, a, events + [Resumes(c)]) <==>
            !Distinct(Stored(p, x, a, events) + [Run(p, a, events).calls[c].seqNo])
  {
    var all := events + [Resumes(c)];
    var before, i := Stored(p, x, a, events), Run(p, a, events).calls[c].seqNo;
    StoredAppends(p, x, a, events, Resumes(c));
    UndisturbedAppends(p, x, a, events, Resumes(c));
    if !Distinct(before + [i]) { IncompleteAfter(x, before, i); }
    StoredTwiceExactlyWhen(p, x, a, all);
  }

  // ---- Two runs ----

  lemma {:induction false} RunAppends(p: Policy, a: Assembler, events: seq<Event>, ev: Event)
    requires Linked(a)
    ensures Run(p, a, events + [ev]) == Next(p, Run(p, a, events), ev)
    decreases |events|
  {
    if events == [] {
      assert (events + [ev])[1..] == [];
    } else {
      assert (events + [ev])[1..] == events[1..] + [ev];
      RunAppends(p, Next(p, a, events[0]), events[1..], ev);
    }
  }

  // A run of chunks of a file that has stored these
  ghost predicate Stores(p: Policy, x: Sending, a: Assembler, events: seq<Event>, stored: seq<int>) {
    && Linked(a) && Unknown(x, a) && Undisturbed(p, x, a, events)
    && Stored(p, x, a, events) == stored && |stored| < Count(x)
    && (x.tid in Run(p, a, events).transfers || |Run(p, a, events).transfers| < MAX_CONCURRENT_TRANSFERS)
  }

  lemma NothingStored(p: Policy, x: Sending, a: Assembler)
    requires Acceptable(x) && Linked(a) && Unknown(x, a) && |a.transfers| < MAX_CONCURRENT_TRANSFERS
    ensures Stores(p, x, a, [], [])
  {
    ChunksAreTheFile(x);
  }

  lemma StoresHolds(p: Policy, x: Sending, a: Assembler, events: seq<Event>, stored: seq<int>)
    requires Acceptable(x) && Stores(p, x, a, events, stored)
    ensures Holds(p, x, Run(p, a, events), stored)
  {
    assert [] + stored == stored;
    RunHolds(p, x, a, [], events);
  }

  lemma PartWaits(p: Policy, x: Sending, b: Assembler, stored: seq<int>, c: nat, i: int, at: nat)
    requires Acceptable(x) && Holds(p, x, b, stored) && i in Chunks(x) && i !in stored && c !in b.calls
    requires x.tid in b.transfers || |b.transfers| < MAX_CONCURRENT_TRANSFERS
    ensures var b' := Next(p, b, Arrives(c, Part(x, i), x.key, at));
            && x.tid in b'.transfers && Waiting(x, b', c)
            && b'.calls == b.calls[c := b'.calls[c]] && b'.calls[c].seqNo == i
  {
    PartIsRead(x, i);
    ArrivedAnswers(p, x, b, stored, c, i, at);
    ArrivedCalls(p, b, c, Part(x, i), x.key, at);
  }

  // One more copy of chunk i comes in as call c
  lemma OneMoreArrives(p: Policy, x: Sending, a: Assembler, events: seq<Event>, stored: seq<int>, c: nat, i: int,
                       at: nat)
    requires Acceptable(x) && Stores(p, x, a, events, stored)
    requires i in Chunks(x) && i !in stored && c !in Run(p, a, events).calls
    ensures var more := events + [Arrives(c, Part(x, i), x.key, at)];
            var b := Run(p, a, more);
            && Stores(p, x, a, more, stored) && Waiting(x, b, c)
            && b.calls == Run(p, a, events).calls[c := b.calls[c]] && b.calls[c].seqNo == i
  {
    var ev := Arrives(c, Part(x, i), x.key, at);
    PartIsRead(x, i);
    StoresHolds(p, x, a, events, stored);
    RunAppends(p, a, events, ev);
    StoredAppends(p, x, a, events, ev);
    UndisturbedAppends(p, x, a, events, ev);
    PartWaits(p, x, Run(p, a, events), stored, c, i, at);
  }

  // Call c stores its chunk, and the file is not yet complete
  lemma OneMoreResumes(p: Policy, x: Sending, a: Assembler, events: seq<Event>, stored: seq<int>, c: nat)
    requires Acceptable(x) && Stores(p, x, a, events, stored) && Waiting(x, Run(p, a, events), c)
    requires |stored| + 1 < Count(x)
    ensures Stores(p, x, a, events + [Resumes(c)], stored + [Run(p, a, events).calls[c].seqNo])
    ensures Run(p, a, events + [Resumes(c)]).calls == Run(p, a, events).calls - {c}
  {
    StoresHolds(p, x, a, events, stored);
    RunAppends(p, a, events, Resumes(c));
    StoredAppends(p, x, a, events, Resumes(c));
    UndisturbedAppends(p, x, a, events, Resumes(c));
    ResumedAnswers(p, x, Run(p, a, events), stored, c);
    ResumedMaps(p, Run(p, a, events), c);
  }

  // Two copies of chunk 0, the second tested before the first is stored
  function TwoCopies(x: Sending, events: seq<Event>, c: nat, d: nat, at: nat): seq<Event>
    requires 0 in Chunks(x)
  {
    events + [Arrives(c, Part(x, 0), x.key, at)] + [Arrives(d, Part(x, 0), x.key, at)] + [Resumes(c)]
  }

  lemma TwoCopiesWait(p: Policy, x: Sending, a: Assembler, events: seq<Event>, c: nat, d: nat, at: nat)
    requires Acceptable(x) && Count(x) == 2 && Stores(p, x, a, events, [])
    requires c != d && c !in Run(p, a, events).calls && d !in Run(p, a, events).calls
    ensures var two := TwoCopies(x, events, c, d, at);
            Stores(p, x, a, two, [0]) && Waiting(x, Run(p, a, two), d) && Run(p, a, two).calls[d].seqNo == 0
  {
    var one := events + [Arrives(c, Part(x, 0), x.key, at)];
    var both := one + [Arrives(d, Part(x, 0), x.key, at)];
    OneMoreArrives(p, x, a, events, [], c, 0, at);
    OneMoreArrives(p, x, a, one, [], d, 0, at);
    OneMoreResumes(p, x, a, both, [], c);
    assert [] + [0] == [0];
  }

  lemma SecondCopyFails(p: Policy, x: Sending, b: Assembler, d: nat)
    requires Acceptable(x) && Count(x) == 2 && Holds(p, x, b, [0]) && x.tid in b.transfers
    requires Waiting(x, b, d) && b.calls[d].seqNo == 0
    ensures Resumed(p, b, d).1 == Throws
  {
    ResumedAnswers(p, x, b, [0], d);
    assert [0] + [0] == [0, 0];
    assert [0, 0][0] == [0, 0][1];
  }

  // Of a file of two chunks: the second copy is counted too, and the transfer fails before chunk 1 has come
  lemma OverlappingCopiesFail(p: Policy, x: Sending, a: Assembler, events: seq<Event>, c: nat, d: nat, at: nat)
    requires Acceptable(x) && Count(x) == 2 && Stores(p, x, a, events, [])
    requires c != d && c !in Run(p, a, events).calls && d !in Run(p, a, events).calls
    ensures var two := TwoCopies(x, events, c, d, at);
            && Undisturbed(p, x, a, two) && d in Run(p, a, two).calls
            && Resumed(p, Run(p, a, two), d).1 == Throws
  {
    var two := TwoCopies(x, events, c, d, at);
    TwoCopiesWait(p, x, a, events, c, d, at);
    StoresHolds(p, x, a, two, [0]);
    SecondCopyFails(p, x, Run(p, a, two), d);
  }

  // The first n chunks in order, each stored before the next comes in
  function InOrder(x: Sending, c: nat, n: nat, at: nat): seq<Event>
    requires n <= Count(x)
  {
    if n == 0 then []
    else InOrder(x, c, n - 1, at) + [Arrives(c, Part(x, n - 1), x.key, at)] + [Resumes(c)]
  }

  function UpTo(n: nat): (s: seq<int>)
    ensures |s| == n && forall i | 0 <= i < n :: s[i] == i
  {
    if n == 0 then [] else UpTo(n - 1) + [n - 1]
  }

  lemma OneMoreInOrder(p: Policy, x: Sending, a: Assembler, events: seq<Event>, stored: seq<int>, c: nat, i: int,
                       at: nat)
    requires Acceptable(x) && |stored| + 1 < Count(x) && Stores(p, x, a, events, stored)
    requires c !in Run(p, a, events).calls && i in Chunks(x) && i !in stored
    ensures var more := events + [Arrives(c, Part(x, i), x.key, at)] + [Resumes(c)];
            Stores(p, x, a, more, stored + [i]) && Run(p, a, more).calls == Run(p, a, events).calls
  {
    var one := events + [Arrives(c, Part(x, i), x.key, at)];
    OneMoreArrives(p, x, a, events, stored, c, i, at);
    OneMoreResumes(p, x, a, one, stored, c);
    PutAndTaken(Run(p, a, events).calls, c, Run(p, a, one).calls[c]);
  }

  lemma PutAndTaken(calls: map<nat, Call>, c: nat, call: Call)
    requires c !in calls
    ensures calls[c := call] - {c} == calls
  {
  }

  lemma {:induction false} InOrderStores(p: Policy, x: Sending, a: Assembler, c: nat, n: nat, at: nat)
    requires Acceptable(x) && n < Count(x) && c !in a.calls
    requires Linked(a) && Unknown(x, a) && |a.transfers| < MAX_CONCURRENT_TRANSFERS
    ensures Stores(p, x, a, InOrder(x, c, n, at), UpTo(n)) && Run(p, a, InOrder(x, c, n, at)).calls == a.calls
  {
    if n == 0 {
      NothingStored(p, x, a);
    } else {
      InOrderStores(p, x, a, c, n - 1, at);
      OneMoreInOrder(p, x, a, InOrder(x, c, n - 1, at), UpTo(n - 1), c, n - 1, at);
    }
  }

  // The first chunks have been stored in order, and the last has come in
  function Sequence(x: Sending, c: nat, last: nat, at: nat): seq<Event>
    requires last < Count(x)
  {
    InOrder(x, c, last, at) + [Arrives(c, Part(x, last), x.key, at)]
  }

  lemma AllInOrderDelivers(p: Policy, x: Sending, last: nat)
    requires last + 1 == Count(x)
    ensures Answer(p, x, UpTo(last) + [last as int]) == Delivered(p, x)
  {
    assert UpTo(last + 1) == UpTo(last) + [last as int];
  }

  lemma LastDelivers(p: Policy, x: Sending, b: Assembler, c: nat, last: nat)
    requires Acceptable(x) && last + 1 == Count(x) && Holds(p, x, b, UpTo(last)) && x.tid in b.transfers
    requires Waiting(x, b, c) && b.calls[c].seqNo == last
    ensures Resumed(p, b, c).1 == Delivered(p, x)
  {
    ResumedAnswers(p, x, b, UpTo(last), c);
    AllInOrderDelivers(p, x, last);
  }

  lemma SequenceWaits(p: Policy, x: Sending, a: Assembler, c: nat, last: nat, at: nat)
    requires Acceptable(x) && last + 1 == Count(x) && c !in a.calls
    requires Linked(a) && Unknown(x, a) && |a.transfers| < MAX_CONCURRENT_TRANSFERS
    ensures var b := Run(p, a, Sequence(x, c, last, at));
            Stores(p, x, a, Sequence(x, c, last, at), UpTo(last)) && Waiting(x, b, c) && b.calls[c].seqNo == last
  {
    InOrderStores(p, x, a, c, last, at);
    OneMoreArrives(p, x, a, InOrder(x, c, last, at), UpTo(last), c, last, at);
  }

  // A file sent to a receiver with a free place is the file received, with its last chunk
  lemma SentFileArrives(p: Policy, x: Sending, a: Assembler, c: nat, last: nat, at: nat)
    requires Acceptable(x) && last + 1 == Count(x) && c !in a.calls
    requires Linked(a) && Unknown(x, a) && |a.transfers| < MAX_CONCURRENT_TRANSFERS
    ensures var b := Run(p, a, Sequence(x, c, last, at));
            c in b.calls && Resumed(p, b, c).1 == Delivered(p, x)
  {
    SequenceWaits(p, x, a, c, last, at);
    StoresHolds(p, x, a, Sequence(x, c, last, at), UpTo(last));
    LastDelivers(p, x, Run(p, a, Sequence(x, c, last, at)), c, last);
  }
}
