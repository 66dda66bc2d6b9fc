/**
 The receiver's object (apps/trapchat/src/lib/media.js): its two maps, the objects it makes for
 transfers, updated in place, and the loop that copies the chunks into one buffer. handleChunk is two
 methods here, up to its second await and from there; what the call keeps over the await is passed on.
 Each takes the step of `MediaTransfer` that its `ensures` names, so what is proved of runs holds of this object.
 */
module MediaReceiver {
  import opened MediaReassembly
  import opened MediaTransfer
  import opened Options
  import opened Sets

  lemma {:induction false} JoinedGrows(chunks: map<int, Bytes>, n: nat, m: nat)
    requires n <= m
    ensures |Joined(chunks, n)| <= |Joined(chunks, m)|
  {
    if n < m { JoinedGrows(chunks, n, m - 1); }
  }

  // A full transfer whose count is the total has nothing past the total
  lemma FullHasNoMore(t: Transfer)
    requires Counted(t) && Full(t) && t.received == t.total
    ensures t.total <= MAX_CHUNKS
    ensures Joined(t.chunks, t.total) == Joined(t.chunks, MAX_CHUNKS)
  {
    assert Below(t.total) <= t.chunks.Keys;
    SubsetSizeSame(Below(t.total), t.chunks.Keys);
    assert |t.chunks.Keys| == |t.chunks|;
    assert forall i :: i in t.chunks.Keys <==> 0 <= i < t.total;
    SubsetSize(t.chunks.Keys, Below(MAX_CHUNKS));
    JoinedPastEnd(t.chunks, t.total, MAX_CHUNKS);
  }

  method TotalSize(chunks: map<int, Bytes>) returns (size: nat)
    ensures size == |Joined(chunks, MAX_CHUNKS)|
  {
    size := 0;
    for i := 0 to MAX_CHUNKS
      invariant size == |Joined(chunks, i)|
    {
      if i in chunks { size := size + |chunks[i]|; }
    }
  }

  class TransferObject {
    ghost const id: nat
    ghost const owner: TransferId
    const total: nat
    var chunks: map<int, Bytes>
    var received: nat
    var meta: Option<Meta>

    ghost function Value(): Transfer
      reads this
    {
      Transfer(owner, chunks, received, total, meta)
    }

    constructor (ghost id: nat, ghost owner: TransferId, total: nat)
      ensures this.id == id && Value() == Transfer(owner, map[], 0, total, None)
    {
      this.id, this.owner, this.total := id, owner, total;
      chunks, received, meta := map[], 0, None;
    }

    // The chunk is kept and counted, its metadata taken if there is none yet
    method Put(p: Policy, n: int, e: Envelope)
      requires e.data.Some?
      modifies this
      ensures Value() == MediaTransfer.Store(p, old(Value()), n, e)
    {
      if meta.None? && HasType(e) {
        meta := Some(Cleaned(p, e.meta.value));
      }
      chunks := chunks[n := e.data.value];
      received := received + 1;
    }
  }

  method Assemble(t: TransferObject, size: nat) returns (ok: bool, assembled: array<bv8>)
    requires Counted(t.Value()) && t.received == t.total && size == |Joined(t.chunks, MAX_CHUNKS)|
    ensures fresh(assembled)
    ensures ok <==> Full(t.Value())
    ensures ok ==> assembled[..] == Joined(t.chunks, MAX_CHUNKS)
  {
    assembled := new bv8[size];
    var offset := 0;
    var i := 0;
    while i < t.total && i in t.chunks
      invariant 0 <= i <= t.total && forall j | 0 <= j < i :: j in t.chunks
      invariant offset == |Joined(t.chunks, i)| <= size
      invariant i <= MAX_CHUNKS
      invariant assembled[..offset] == Joined(t.chunks, i)
    {
      var c := t.chunks[i];
      JoinedGrows(t.chunks, i + 1, MAX_CHUNKS);
      assert Joined(t.chunks, i + 1) == Joined(t.chunks, i) + c;
      forall k | 0 <= k < |c| { assembled[offset + k] := c[k]; }
      assert assembled[..offset + |c|] == Joined(t.chunks, i) + c;
      offset := offset + |c|;
      i := i + 1;
    }
    ok := i == t.total;
    if ok {
      FullHasNoMore(t.Value());
      assert assembled[..offset] == assembled[..];
    }
  }

  ghost function Values(made: seq<TransferObject>): seq<Transfer>
    reads made
  {
    seq(|made|, k requires 0 <= k < |made| reads made => made[k].Value())
  }

  class MediaAssembler {
    var transfers: map<TransferId, TransferObject>
    var timers: map<TransferId, nat>
    ghost var made: seq<TransferObject> // every transfer object, in the map or not
    ghost var calls: map<nat, Call>

    ghost function Ids(): map<TransferId, nat>
      reads `transfers
    {
      map tid | tid in transfers :: transfers[tid].id
    }

    ghost function View(): Assembler
      reads this, made
    {
      Assembler(Values(made), Ids(), timers, calls)
    }

    // The object that a call holds by its handle
    ghost predicate Holds(t: TransferObject)
      reads `made
    {
      t.id < |made| && made[t.id] == t
    }

    ghost predicate Valid()
      reads `made, `transfers
    {
      && (forall k | 0 <= k < |made| :: made[k].id == k)
      && (forall tid | tid in transfers :: Holds(transfers[tid]))
    }

    constructor ()
      ensures Valid() && View() == EMPTY
    {
      transfers, timers, made, calls := map[], map[], [], map[];
    }

    lemma SameSize()
      ensures |Ids()| == |transfers|
    {
      assert Ids().Keys == transfers.Keys;
      assert |Ids().Keys| == |Ids()| && |transfers.Keys| == |transfers|;
    }

    method Create(tid: TransferId, total: nat) returns (t: TransferObject)
      requires Valid() && tid !in transfers
      modifies `transfers, `made
      ensures Valid() && fresh(t) && made == old(made) + [t] && transfers == old(transfers)[tid := t]
      ensures View() == old(View()).(objects := old(View()).objects + [Transfer(tid, map[], 0, total, None)],
                                     transfers := old(View()).transfers[tid := |old(View()).objects|])
    {
      ghost var before := View();
      t := new TransferObject(|made|, tid, total);
      transfers := transfers[tid := t];
      made := made + [t];
      assert Values(made) == before.objects + [Transfer(tid, map[], 0, total, None)];
      assert Ids() == before.transfers[tid := |before.objects|];
    }

    // The lookup, or the new entry, or the late metadata of chunk 0
    method Admit(p: Policy, m: Message, e: Envelope) returns (t: TransferObject)
      requires Valid() && Linked(View()) && WellFormed(m)
      modifies this, made
      ensures Valid() && View() == Admitted(p, old(View()), m, e)
      ensures m.tid in transfers && t == transfers[m.tid] && timers == old(timers) && calls == old(calls)
      ensures old(made) <= made && forall k | |old(made)| <= k < |made| :: fresh(made[k])
    {
      ghost var before := View();
      if m.tid !in transfers {
        t := Create(m.tid, m.total);
      } else {
        t := transfers[m.tid];
        if m.seqNo == 0 && HasType(e) {
          t.meta := Some(Cleaned(p, e.meta.value));
          assert Values(made) == before.objects[t.id := before.objects[t.id].(meta := t.meta)];
        }
      }
    }

    // handleChunk up to its second await
    method Test(p: Policy, ghost c: nat, m: Message, key: Key, now: nat)
      returns (outcome: Outcome, t: TransferObject?, inner: Option<Envelope>)
      requires Valid() && Linked(View()) && c !in calls
      modifies this, made
      ensures Valid() && (View(), outcome) == Arrived(p, old(View()), c, m, key, now)
      ensures outcome.Waits? ==> t != null && Holds(t) && inner.Some? && c in calls
                                 && calls[c] == Call(m.tid, m.seqNo, inner.value, t.id)
    {
      t, inner := null, None;
      if !WellFormed(m) {
        return Ignored, t, inner;
      }
      inner := Open(key, m.chunk);
      if inner.None? {
        return Mismatch(m.tid), t, inner;
      }
      SameSize();
      if m.tid !in transfers && |transfers| >= MAX_CONCURRENT_TRANSFERS {
        return Ignored, t, inner;
      }
      outcome, t := Await(p, c, m, inner.value, now);
    }

    method Await(p: Policy, ghost c: nat, m: Message, e: Envelope, now: nat)
      returns (outcome: Outcome, t: TransferObject)
      requires Valid() && Linked(View()) && WellFormed(m)
      modifies this, made
      ensures Valid() && (View(), outcome) == Tested(p, old(View()), c, m, e, now)
      ensures outcome.Waits? ==> Holds(t) && c in calls && calls[c] == Call(m.tid, m.seqNo, e, t.id)
    {
      t := Admit(p, m, e);
      ghost var admitted := View();
      timers := timers[m.tid := now + STALE_TIMEOUT];
      assert View() == admitted.(timers := timers) && admitted.objects[t.id] == t.Value();
      if m.seqNo in t.chunks {
        outcome := Ignored;
      } else {
        calls := calls[c := Call(m.tid, m.seqNo, e, t.id)];
        outcome := Waits;
      }
    }

    method Remove(tid: TransferId)
      requires Valid() && Linked(View())
      modifies `timers, `transfers
      ensures Valid() && View() == Drop(old(View()), {tid})
    {
      ghost var before := View();
      timers := timers - {tid};
      transfers := transfers - {tid};
      assert Ids() == before.transfers - {tid};
    }

    // The answer once a chunk has been counted; the transfer is forgotten if it is over
    method Complete(p: Policy, tid: TransferId, t: TransferObject) returns (outcome: Outcome)
      requires Valid() && Linked(View()) && Counted(t.Value())
      modifies `timers, `transfers
      ensures outcome == Finish(p, tid, t.Value())
      ensures Valid() && View() == if Ends(outcome) then Drop(old(View()), {tid}) else old(View())
    {
      if t.received != t.total {
        return Progress(tid, t.received, t.total);
      }
      var size := TotalSize(t.chunks);
      if size > MAX_FILE_SIZE {
        Remove(tid);
        return TooLarge(tid);
      }
      var ok, assembled := Assemble(t, size);
      if !ok {
        return Throws;
      }
      Remove(tid);
      var claimed := if t.meta.Some? then Some(t.meta.value.mimeType) else None;
      outcome := Outcome.Complete(tid, p.validate(claimed, assembled[..]), t.meta, assembled[..]);
    }

    method Keep(p: Policy, ghost c: nat, n: int, inner: Envelope, t: TransferObject)
      requires Valid() && Holds(t) && inner.data.Some?
      modifies `calls, t
      ensures Valid() && t.Value() == MediaTransfer.Store(p, old(t.Value()), n, inner)
      ensures View() == old(View()).(calls := old(calls) - {c}, objects := old(View()).objects[t.id := t.Value()])
    {
      ghost var before := View();
      calls := calls - {c};
      t.Put(p, n, inner);
      assert Values(made) == before.objects[t.id := t.Value()];
    }

    // handleChunk from its second await, on the transfer it has kept, whose count has been right so far
    method Store(p: Policy, ghost c: nat, tid: TransferId, n: int, inner: Envelope, t: TransferObject)
      returns (outcome: Outcome)
      requires Valid() && Linked(View()) && Holds(t) && c in calls && calls[c] == Call(tid, n, inner, t.id)
      requires Counted(t.Value()) && 0 <= n < MAX_CHUNKS
      modifies this, t
      ensures Valid() && (View(), outcome) == Resumed(p, old(View()), c)
    {
      if inner.data.None? {
        calls := calls - {c};
        return Mismatch(tid);
      }
      StoreKeepsCounted(p, t.Value(), n, inner);
      Keep(p, c, n, inner, t);
      outcome := Complete(p, tid, t);
    }

    // One stale timer firing
    method Expire(tid: TransferId)
      requires Valid() && Linked(View())
      modifies `timers, `transfers
      ensures Valid() && View() == Drop(old(View()), {tid})
    {
      ghost var before := View();
      transfers := transfers - {tid};
      timers := timers - {tid};
      assert Ids() == before.transfers - {tid};
    }

    method Destroy()
      requires Valid() && Linked(View())
      modifies `timers, `transfers
      ensures Valid() && View() == Emptied(old(View()))
    {
      timers := map[];
      transfers := map[];
    }
  }
}
