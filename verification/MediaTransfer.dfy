/**
 Files sent as encrypted chunks and put together again (apps/trapchat/src/lib/media.js).
 AES-GCM is ideal here: a sealed envelope opens under its own key and under no other.
 The choice of a file's type and the cleaning of file names are parameters.
 */
module MediaTransfer {
  import opened Arith
  import opened Options
  import opened Sets

  type Bytes = seq<bv8>
  type Key = nat
  type TransferId = string

  const CHUNK_SIZE: nat := 524288        // 512 KB
  const MAX_FILE_SIZE: nat := 26214400   // 25 MB
  const STALE_TIMEOUT: nat := 30000      // milliseconds
  const MAX_CHUNKS: nat := 100
  const MAX_CONCURRENT_TRANSFERS: nat := 10

  datatype Meta = Meta(mimeType: string, fileName: string, fileSize: nat)

  // What is encrypted: metadata, in chunk 0 only when the sender is ours, and file data
  datatype Envelope = Envelope(meta: Option<Meta>, data: Option<Bytes>)

  datatype Cipher = Sealed(key: Key, envelope: Envelope) | Garbage

  function Open(key: Key, c: Cipher): Option<Envelope> {
    if c.Sealed? && c.key == key then Some(c.envelope) else None
  }

  datatype Message =
    | Unreadable
    | Message(tid: TransferId, seqNo: int, total: int, chunk: Cipher)

  // sanitizeFileName and validateMimeType
  datatype Policy = Policy(sanitize: string -> string, validate: (Option<string>, Bytes) -> string)

  // ---- Sending ----

  datatype File = File(name: string, mimeType: string, bytes: Bytes)

  function Total(len: nat): nat {
    (len + CHUNK_SIZE - 1) / CHUNK_SIZE
  }

  function SliceAt(bytes: Bytes, i: nat): Bytes
    requires i < Total(|bytes|)
  {
    bytes[i * CHUNK_SIZE..Min((i + 1) * CHUNK_SIZE, |bytes|)]
  }

  function Sent(key: Key, tid: TransferId, f: File, i: nat): Message
    requires i < Total(|f.bytes|)
  {
    var meta := if i == 0 then Some(Meta(f.mimeType, f.name, |f.bytes|)) else None;
    Message(tid, i, Total(|f.bytes|), Sealed(key, Envelope(meta, Some(SliceAt(f.bytes, i)))))
  }

  // Message i of this many: 512 KB of the file, or the rest of it, with a description in front of the first
  predicate Carries(m: Message, key: Key, tid: TransferId, f: File, i: nat, total: nat) {
    && i * 524_288 <= |f.bytes|
    && var rest := f.bytes[i * 524_288..];
       var meta := if i == 0 then Some(Meta(f.mimeType, f.name, |f.bytes|)) else None;
       var data := if |rest| <= 524_288 then rest else rest[..524_288];
       m == Message(tid, i, total, Sealed(key, Envelope(meta, Some(data))))
  }

  lemma SentCarries(key: Key, tid: TransferId, f: File, i: nat)
    requires i < Total(|f.bytes|)
    ensures Carries(Sent(key, tid, f, i), key, tid, f, i, Total(|f.bytes|))
  {
    var rest := f.bytes[i * CHUNK_SIZE..];
    assert SliceAt(f.bytes, i) == if |rest| <= CHUNK_SIZE then rest else rest[..CHUNK_SIZE];
  }

  method SendMedia(key: Key, tid: TransferId, f: File) returns (ok: bool, sent: seq<Message>)
    ensures ok <==> |f.bytes| <= 26_214_400
    ensures ok ==> |f.bytes| <= |sent| * 524_288 < |f.bytes| + 524_288
    ensures ok ==> forall i | 0 <= i < |sent| :: Carries(sent[i], key, tid, f, i, |sent|)
    ensures ok ==> |sent| == Total(|f.bytes|) && forall i | 0 <= i < |sent| :: sent[i] == Sent(key, tid, f, i)
    ensures !ok ==> sent == []
  {
    sent := [];
    if |f.bytes| > MAX_FILE_SIZE {
      return false, sent;
    }
    var total := (|f.bytes| + CHUNK_SIZE - 1) / CHUNK_SIZE;
    var n := 0;
    while n < total
      invariant n <= total && |sent| == n
      invariant forall i | 0 <= i < n :: sent[i] == Sent(key, tid, f, i)
    {
      var start := n * CHUNK_SIZE;
      var end := Min(start + CHUNK_SIZE, |f.bytes|);
      var chunkData := f.bytes[start..end];
      var metadata := if n == 0 then Some(Meta(f.mimeType, f.name, |f.bytes|)) else None;
      sent := sent + [Message(tid, n, total, Sealed(key, Envelope(metadata, Some(chunkData))))];
      n := n + 1;
    }
    ok := true;
    forall i | 0 <= i < |sent| ensures Carries(sent[i], key, tid, f, i, |sent|) { SentCarries(key, tid, f, i); }
  }

  // ---- Receiving ----

  // An object that the assembler makes for a transfer; a call waiting for the second decryption keeps
  // its handle, so it can outlive its place in the map. `owner` is the id it was made under.
  datatype Transfer = Transfer(owner: TransferId, chunks: map<int, Bytes>, received: nat, total: nat,
                               meta: Option<Meta>)

  // A call of handleChunk that has passed the duplicate test and waits for the second decryption
  datatype Call = Call(tid: TransferId, seqNo: int, envelope: Envelope, at: nat)

  datatype Assembler = Assembler(
    objects: seq<Transfer>,
    transfers: map<TransferId, nat>,
    timers: map<TransferId, nat>,
    calls: map<nat, Call>)

  const EMPTY := Assembler([], map[], map[], map[])

  datatype Outcome =
    | Ignored
    | Waits // the duplicate test is passed, the chunk not yet stored
    | Mismatch(tid: TransferId)
    | Progress(tid: TransferId, received: nat, total: nat)
    | TooLarge(tid: TransferId)
    | Complete(tid: TransferId, mimeType: string, meta: Option<Meta>, bytes: Bytes)
    | Throws // a hole in the chunk array

  // The chunks present below n, one after the other
  function Joined(chunks: map<int, Bytes>, n: nat): Bytes {
    if n == 0 then [] else Joined(chunks, n - 1) + if n - 1 in chunks then chunks[n - 1] else []
  }

  predicate Full(t: Transfer) {
    forall i | 0 <= i < t.total :: i in t.chunks
  }

  predicate WellFormed(m: Message) {
    m.Message? && m.tid != "" && 0 < m.total <= MAX_CHUNKS && 0 <= m.seqNo < m.total
  }

  function Cleaned(p: Policy, meta: Meta): Meta {
    meta.(fileName := p.sanitize(meta.fileName))
  }

  predicate HasType(e: Envelope) {
    e.meta.Some? && e.meta.value.mimeType != ""
  }

  // Handles lead to objects, and to those made under the same id
  predicate Linked(a: Assembler) {
    && (forall tid | tid in a.transfers :: a.transfers[tid] < |a.objects| && a.objects[a.transfers[tid]].owner == tid)
    && (forall c | c in a.calls :: a.calls[c].at < |a.objects| && a.objects[a.calls[c].at].owner == a.calls[c].tid)
  }

  // The transfer a chunk belongs to is made on its first chunk; a late chunk 0 sets its metadata
  function Admitted(p: Policy, a: Assembler, m: Message, e: Envelope): (b: Assembler)
    requires Linked(a) && WellFormed(m)
    ensures Linked(b) && m.tid in b.transfers && b.calls == a.calls
  {
    if m.tid !in a.transfers then
      a.(objects := a.objects + [Transfer(m.tid, map[], 0, m.total, None)],
         transfers := a.transfers[m.tid := |a.objects|])
    else if m.seqNo == 0 && HasType(e) then
      var at := a.transfers[m.tid];
      a.(objects := a.objects[at := a.objects[at].(meta := Some(Cleaned(p, e.meta.value)))])
    else a
  }

  // The section between the two decryptions, once the first has given an envelope
  function Tested(p: Policy, a: Assembler, c: nat, m: Message, e: Envelope, now: nat): (r: (Assembler, Outcome))
    requires Linked(a) && WellFormed(m)
    ensures Linked(r.0)
  {
    var b := Admitted(p, a, m, e).(timers := a.timers[m.tid := now + STALE_TIMEOUT]);
    var at := b.transfers[m.tid];
    if m.seqNo in b.objects[at].chunks then (b, Ignored)
    else (b.(calls := b.calls[c := Call(m.tid, m.seqNo, e, at)]), Waits)
  }

  // handleChunk up to its second await, as call c
  function Arrived(p: Policy, a: Assembler, c: nat, m: Message, key: Key, now: nat): (r: (Assembler, Outcome))
    requires Linked(a)
    ensures Linked(r.0)
  {
    if !WellFormed(m) then (a, Ignored)
    else
      match Open(key, m.chunk)
      case None => (a, Mismatch(m.tid))
      case Some(e) =>
        if m.tid !in a.transfers && |a.transfers| >= MAX_CONCURRENT_TRANSFERS then (a, Ignored)
        else Tested(p, a, c, m, e, now)
  }

  function Store(p: Policy, t: Transfer, n: int, e: Envelope): Transfer
    requires e.data.Some?
  {
    t.(chunks := t.chunks[n := e.data.value],
       received := t.received + 1,
       meta := if t.meta.None? && HasType(e) then Some(Cleaned(p, e.meta.value)) else t.meta)
  }

  function Finish(p: Policy, tid: TransferId, t: Transfer): Outcome {
    var bytes := Joined(t.chunks, MAX_CHUNKS);
    if t.received != t.total then Progress(tid, t.received, t.total)
    else if |bytes| > MAX_FILE_SIZE then TooLarge(tid)
    else if !Full(t) then Throws
    else Complete(tid, p.validate(if t.meta.Some? then Some(t.meta.value.mimeType) else None, bytes), t.meta, bytes)
  }

  predicate Ends(outcome: Outcome) {
    outcome.TooLarge? || outcome.Complete?
  }

  // The transfers under these ids are forgotten, their timers too; objects and calls remain
  function Drop(a: Assembler, tids: set<TransferId>): (b: Assembler)
    requires Linked(a)
    ensures Linked(b)
  {
    a.(transfers := a.transfers - tids, timers := a.timers - tids)
  }

  function Emptied(a: Assembler): (b: Assembler)
    requires Linked(a)
    ensures Linked(b)
  {
    a.(transfers := map[], timers := map[])
  }

  // The rest of call c, on the object it has kept, whatever the map now holds
  function Resumed(p: Policy, a: Assembler, c: nat): (r: (Assembler, Outcome))
    requires Linked(a) && c in a.calls
    ensures Linked(r.0)
  {
    var call := a.calls[c];
    var b := a.(calls := a.calls - {c});
    if call.envelope.data.None? then (b, Mismatch(call.tid))
    else
      var t := Store(p, a.objects[call.at], call.seqNo, call.envelope);
      var outcome := Finish(p, call.tid, t);
      var b1 := b.(objects := b.objects[call.at := t]);
      (if Ends(outcome) then Drop(b1, {call.tid}) else b1, outcome)
  }

  // The stale timers that are due
  function Expired(a: Assembler, now: nat): set<TransferId> {
    set tid | tid in a.timers && a.timers[tid] <= now
  }

  // A call arrives under a number that no waiting call has; it resumes when its second decryption is done
  datatype Event =
    | Arrives(c: nat, m: Message, key: Key, at: nat)
    | Resumes(c: nat)
    | Tick(at: nat)
    | Destroyed

  // An event that is not possible changes nothing
  function Next(p: Policy, a: Assembler, ev: Event): (b: Assembler)
    requires Linked(a)
    ensures Linked(b)
  {
    match ev
    case Arrives(c, m, key, at) => if c in a.calls then a else Arrived(p, a, c, m, key, at).0
    case Resumes(c) => if c in a.calls then Resumed(p, a, c).0 else a
    case Tick(at) => Drop(a, Expired(a, at))
    case Destroyed => Emptied(a)
  }

  function Run(p: Policy, a: Assembler, events: seq<Event>): (b: Assembler)
    requires Linked(a)
    ensures Linked(b)
    decreases |events|
  {
    if events == [] then a else Run(p, Next(p, a, events[0]), events[1..])
  }

  // ---- What every run keeps ----

  // Every live transfer has exactly one stale timer
  predicate Timed(transfers: map<TransferId, nat>, timers: map<TransferId, nat>) {
    timers.Keys == transfers.Keys && |transfers| <= MAX_CONCURRENT_TRANSFERS
  }

  predicate Counted(t: Transfer) {
    |t.chunks| <= t.received && forall i | i in t.chunks :: 0 <= i < MAX_CHUNKS
  }

  // No object has more chunks than it has counted
  predicate AllCounted(objects: seq<Transfer>) {
    forall k | 0 <= k < |objects| :: Counted(objects[k])
  }

  predicate InBounds(calls: map<nat, Call>) {
    forall c | c in calls :: 0 <= calls[c].seqNo < MAX_CHUNKS
  }

  predicate Sound(a: Assembler) {
    Linked(a) && Timed(a.transfers, a.timers) && AllCounted(a.objects) && InBounds(a.calls)
  }

  lemma StoreKeepsCounted(p: Policy, t: Transfer, n: int, e: Envelope)
    requires Counted(t) && 0 <= n < MAX_CHUNKS && e.data.Some?
    ensures Counted(Store(p, t, n, e))
  {
    assert t.chunks[n := e.data.value].Keys == t.chunks.Keys + {n};
    assert |t.chunks.Keys| == |t.chunks|;
    assert |t.chunks.Keys + {n}| <= |t.chunks.Keys| + 1;
  }

  lemma DropKeepsTimed(transfers: map<TransferId, nat>, timers: map<TransferId, nat>, tids: set<TransferId>)
    requires Timed(transfers, timers)
    ensures Timed(transfers - tids, timers - tids)
  {
    SubsetSize((transfers - tids).Keys, transfers.Keys);
  }

  lemma PutKeepsTimed(transfers: map<TransferId, nat>, timers: map<TransferId, nat>, tid: TransferId, at: nat, due: nat)
    requires Timed(transfers, timers) && (tid in transfers || |transfers| < MAX_CONCURRENT_TRANSFERS)
    ensures Timed(transfers[tid := at], timers[tid := due])
  {
    assert transfers[tid := at].Keys == transfers.Keys + {tid};
    assert |transfers[tid := at].Keys| == |transfers[tid := at]| && |transfers.Keys| == |transfers|;
    if tid in transfers { assert transfers.Keys + {tid} == transfers.Keys; }
  }

  lemma AdmittedKeepsCounted(p: Policy, a: Assembler, m: Message, e: Envelope)
    requires Linked(a) && AllCounted(a.objects) && WellFormed(m)
    ensures AllCounted(Admitted(p, a, m, e).objects)
  {
    var objects := Admitted(p, a, m, e).objects;
    forall k | 0 <= k < |objects| ensures Counted(objects[k]) {
      if k < |a.objects| { assert Counted(a.objects[k]); }
    }
  }

  lemma AdmittedKeepsTimed(p: Policy, a: Assembler, m: Message, e: Envelope, due: nat)
    requires Linked(a) && Timed(a.transfers, a.timers) && WellFormed(m)
    requires m.tid in a.transfers || |a.transfers| < MAX_CONCURRENT_TRANSFERS
    ensures Timed(Admitted(p, a, m, e).transfers, a.timers[m.tid := due])
  {
    var at := Admitted(p, a, m, e).transfers[m.tid];
    PutKeepsTimed(a.transfers, a.timers, m.tid, at, due);
    assert Admitted(p, a, m, e).transfers == a.transfers[m.tid := at];
  }

  lemma CallKeepsInBounds(calls: map<nat, Call>, c: nat, call: Call)
    requires InBounds(calls) && 0 <= call.seqNo < MAX_CHUNKS
    ensures InBounds(calls[c := call]) && InBounds(calls - {c})
  {
  }

  lemma TestedKeepsSound(p: Policy, a: Assembler, c: nat, m: Message, e: Envelope, now: nat)
    requires Sound(a) && WellFormed(m)
    requires m.tid in a.transfers || |a.transfers| < MAX_CONCURRENT_TRANSFERS
    ensures Sound(Tested(p, a, c, m, e, now).0)
  {
    var b := Admitted(p, a, m, e);
    var r := Tested(p, a, c, m, e, now).0;
    assert AllCounted(r.objects) by { AdmittedKeepsCounted(p, a, m, e); assert r.objects == b.objects; }
    assert Timed(r.transfers, r.timers) by { AdmittedKeepsTimed(p, a, m, e, now + STALE_TIMEOUT); }
    assert InBounds(r.calls) by { CallKeepsInBounds(a.calls, c, Call(m.tid, m.seqNo, e, b.transfers[m.tid])); }
  }

  lemma ArrivedKeepsSound(p: Policy, a: Assembler, c: nat, m: Message, key: Key, now: nat)
    requires Sound(a)
    ensures Sound(Arrived(p, a, c, m, key, now).0)
  {
    if WellFormed(m) && Open(key, m.chunk).Some? && (m.tid in a.transfers || |a.transfers| < MAX_CONCURRENT_TRANSFERS) {
      TestedKeepsSound(p, a, c, m, Open(key, m.chunk).value, now);
    }
  }

  lemma ReplacedKeepsCounted(objects: seq<Transfer>, at: nat, t: Transfer)
    requires AllCounted(objects) && at < |objects| && Counted(t)
    ensures AllCounted(objects[at := t])
  {
  }

  lemma ResumedKeepsTimed(p: Policy, a: Assembler, c: nat)
    requires Linked(a) && Timed(a.transfers, a.timers) && c in a.calls
    ensures Timed(Resumed(p, a, c).0.transfers, Resumed(p, a, c).0.timers)
  {
    ResumedMaps(p, a, c);
    DropKeepsTimed(a.transfers, a.timers, {a.calls[c].tid});
  }

  lemma ResumedMaps(p: Policy, a: Assembler, c: nat)
    requires Linked(a) && c in a.calls
    ensures var (r, outcome) := Resumed(p, a, c);
            var tids := if Ends(outcome) then {a.calls[c].tid} else {};
            r.calls == a.calls - {c} && r.transfers == a.transfers - tids && r.timers == a.timers - tids
  {
  }

  lemma ResumedKeepsSound(p: Policy, a: Assembler, c: nat)
    requires Sound(a) && c in a.calls
    ensures Sound(Resumed(p, a, c).0)
  {
    ResumedMaps(p, a, c);
    ResumedKeepsTimed(p, a, c);
    CallKeepsInBounds(a.calls, c, a.calls[c]);
    ResumedKeepsCounted(p, a, c);
  }

  lemma ResumedKeepsCounted(p: Policy, a: Assembler, c: nat)
    requires Linked(a) && AllCounted(a.objects) && InBounds(a.calls) && c in a.calls
    ensures AllCounted(Resumed(p, a, c).0.objects)
  {
    var call := a.calls[c];
    if call.envelope.data.Some? {
      StoreKeepsCounted(p, a.objects[call.at], call.seqNo, call.envelope);
      ReplacedKeepsCounted(a.objects, call.at, Store(p, a.objects[call.at], call.seqNo, call.envelope));
    }
  }

  lemma NextKeepsSound(p: Policy, a: Assembler, ev: Event)
    requires Sound(a)
    ensures Sound(Next(p, a, ev))
  {
    match ev {
      case Arrives(c, m, key, at) => ArrivedKeepsSound(p, a, c, m, key, at);
      case Resumes(c) => if c in a.calls { ResumedKeepsSound(p, a, c); }
      case Tick(at) => DropKeepsTimed(a.transfers, a.timers, Expired(a, at));
      case Destroyed =>
    }
  }

  lemma {:induction false} RunKeepsSound(p: Policy, a: Assembler, events: seq<Event>)
    requires Sound(a)
    ensures Sound(Run(p, a, events))
    decreases |events|
  {
    if events != [] {
      NextKeepsSound(p, a, events[0]);
      RunKeepsSound(p, Next(p, a, events[0]), events[1..]);
    }
  }
}
