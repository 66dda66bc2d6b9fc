/**
 The worker's `media:chunk` job (services/worker/src/worker.js): the decoded payload cut into
 pieces for the room. Base64 on both sides is taken as the identity on bytes; a chunk size is any
 real number, infinite or not a number, and the loop's running sum of sizes is exact.
 */
module WorkerChunks {
  import opened Arith
  import opened Options

  type Bytes = seq<bv8>

  datatype Piece = Piece(seqNo: nat, data: Bytes, total: nat)

  function Concat(parts: seq<Bytes>): Bytes {
    if parts == [] then [] else parts[0] + Concat(parts[1..])
  }

  lemma {:induction false} ConcatAppend(parts: seq<Bytes>, last: Bytes)
    ensures Concat(parts + [last]) == Concat(parts) + last
  {
    if parts == [] {
    } else {
      assert (parts + [last])[1..] == parts[1..] + [last];
      ConcatAppend(parts[1..], last);
    }
  }

  // The loop's variable after k pieces
  function Sum(size: real, k: nat): real {
    if k == 0 then 0.0 else Sum(size, k - 1) + size
  }

  lemma {:induction false} SumOrdered(size: real, a: nat, b: nat)
    requires size > 0.0 && a <= b
    ensures 0.0 <= Sum(size, a) <= Sum(size, b)
    decreases b
  {
    if a < b {
      SumOrdered(size, a, b - 1);
    } else if a > 0 {
      SumOrdered(size, a - 1, b - 1);
    }
  }

  lemma {:induction false} SumIsProduct(size: real, k: nat)
    ensures Sum(size, k) == k as real * size
  {
    if k > 0 {
      SumIsProduct(size, k - 1);
      assert k as real * size == (k - 1) as real * size + size;
    }
  }

  lemma {:induction false} WholeSum(size: int, k: nat)
    ensures Sum(size as real, k) == (k * size) as real
  {
    if k > 0 {
      WholeSum(size, k - 1);
      assert k * size == (k - 1) * size + size;
    }
  }

  lemma SumReaches(len: nat, size: real) returns (n: nat)
    requires size > 0.0
    ensures Sum(size, n) >= len as real
  {
    var q := len as real / size;
    n := q.Floor + 1;
    SumIsProduct(size, n);
    assert n as real * size >= q * size by { TimesOrdered(q, n as real, size); }
  }

  lemma TimesOrdered(a: real, b: real, c: real)
    requires a <= b && c > 0.0
    ensures a * c <= b * c
  {
  }

  // Where piece k starts: `subarray` drops fractions, and stays within the payload
  function Start(len: nat, size: real, k: nat): (i: nat)
    requires size > 0.0
    ensures i <= len
  {
    SumOrdered(size, k, k);
    Min(Sum(size, k).Floor, len)
  }

  function Part(raw: Bytes, size: real, k: nat): Bytes
    requires size > 0.0
  {
    SumOrdered(size, k, k + 1);
    raw[Start(|raw|, size, k)..Start(|raw|, size, k + 1)]
  }

  // The loop ends after n pieces
  predicate Covers(n: nat, len: nat, size: real) {
    len as real <= Sum(size, n) && (n > 0 ==> Sum(size, n - 1) < len as real)
  }

  // There are as many pieces as the length divided by the size, rounded up
  lemma CutCount(n: nat, len: nat, size: real)
    requires size > 0.0 && Covers(n, len, size)
    ensures n as real * size >= len as real
    ensures n > 0 ==> (n - 1) as real * size < len as real
  {
    SumIsProduct(size, n);
    if n > 0 { SumIsProduct(size, n - 1); }
  }

  // Every piece but the last is less than one byte off the size; for a whole size it has exactly that
  lemma PartLength(raw: Bytes, size: real, n: nat, k: nat)
    requires size > 0.0 && k + 1 < n && Covers(n, |raw|, size)
    ensures size - 1.0 < |Part(raw, size, k)| as real < size + 1.0
    ensures size == size.Floor as real ==> |Part(raw, size, k)| == size.Floor
  {
    SumOrdered(size, k, k + 1);
    SumOrdered(size, k + 1, n - 1);
    assert Sum(size, k + 1) == Sum(size, k) + size;
    if size == size.Floor as real { WholeParts(size.Floor, k); }
  }

  lemma WholeParts(size: int, k: nat)
    ensures Sum(size as real, k + 1).Floor == Sum(size as real, k).Floor + size
  {
    WholeSum(size, k);
    WholeSum(size, k + 1);
    assert (k + 1) * size == k * size + size;
  }

  lemma OneMorePart(raw: Bytes, size: real, parts: seq<Bytes>)
    requires size > 0.0 && Concat(parts) == raw[..Start(|raw|, size, |parts|)]
    ensures Concat(parts + [Part(raw, size, |parts|)]) == raw[..Start(|raw|, size, |parts| + 1)]
  {
    var k := |parts|;
    SumOrdered(size, k, k + 1);
    ConcatAppend(parts, Part(raw, size, k));
    SlicesJoin(raw, Start(|raw|, size, k), Start(|raw|, size, k + 1));
  }

  lemma SlicesJoin(raw: Bytes, a: nat, b: nat)
    requires a <= b <= |raw|
    ensures raw[..a] + raw[a..b] == raw[..b]
  {
  }

  lemma PartAt(raw: Bytes, size: real, k: nat)
    requires size > 0.0
    ensures var lo, hi := Min(Sum(size, k).Floor, |raw|), Min((Sum(size, k) + size).Floor, |raw|);
            0 <= lo <= hi <= |raw| && raw[lo..hi] == Part(raw, size, k) && Sum(size, k + 1) == Sum(size, k) + size
  {
    SumOrdered(size, k, k + 1);
  }

  // One `subarray` of the loop
  method Cut(raw: Bytes, size: real, i: real, ghost k: nat) returns (piece: Bytes)
    requires size > 0.0 && i == Sum(size, k)
    ensures piece == Part(raw, size, k) && Sum(size, k + 1) == i + size
  {
    PartAt(raw, size, k);
    piece := raw[Min(i.Floor, |raw|)..Min((i + size).Floor, |raw|)];
  }

  // The loop of the job
  method Slices(raw: Bytes, size: real) returns (parts: seq<Bytes>)
    requires size > 0.0
    ensures Concat(parts) == raw && Covers(|parts|, |raw|, size)
    ensures forall k | 0 <= k < |parts| :: parts[k] == Part(raw, size, k)
  {
    parts := [];
    var i := 0.0;
    ghost var most := SumReaches(|raw|, size);
    while i < |raw| as real
      invariant i == Sum(size, |parts|)
      invariant |parts| > 0 ==> Sum(size, |parts| - 1) < |raw| as real
      invariant Concat(parts) == raw[..Start(|raw|, size, |parts|)]
      invariant forall k | 0 <= k < |parts| :: parts[k] == Part(raw, size, k)
      decreases most - |parts|
    {
      NotYet(|raw|, size, |parts|, most);
      OneMorePart(raw, size, parts);
      var piece := Cut(raw, size, i, |parts|);
      parts := parts + [piece];
      i := i + size;
    }
  }

  lemma NotYet(len: nat, size: real, k: nat, most: nat)
    requires size > 0.0 && Sum(size, k) < len as real <= Sum(size, most)
    ensures k < most
  {
    if most <= k { SumOrdered(size, most, k); }
  }

  // What a number can be
  datatype Size = Finite(value: real) | Infinite | NotANumber

  predicate Accepted(size: Option<Size>) {
    size.Some? && (size.value.Finite? ==> size.value.value > 0.0)
  }

  // With an infinite size the first piece is everything; with NaN it is empty, and there is no second
  method SplitOnce(raw: Bytes, infinite: bool) returns (parts: seq<Bytes>)
    ensures raw == [] ==> parts == []
    ensures raw != [] ==> parts == [if infinite then raw else []]
  {
    parts := if |raw| == 0 then [] else if infinite then [raw] else [[]];
  }

  function Data(r: seq<Piece>): seq<Bytes> {
    seq(|r|, k requires 0 <= k < |r| => r[k].data)
  }

  // Lengths of the pieces for a finite size
  predicate Sized(r: seq<Piece>, len: nat, size: real) {
    && Covers(|r|, len, size)
    && (forall k | 0 <= k < |r| - 1 :: size - 1.0 < |r[k].data| as real < size + 1.0)
    && (forall k | 0 <= k < |r| - 1 :: size == size.Floor as real ==> |r[k].data| == size.Floor)
  }

  lemma PartsAreSized(raw: Bytes, size: real, r: seq<Piece>)
    requires size > 0.0 && Covers(|r|, |raw|, size) && forall k | 0 <= k < |r| :: r[k].data == Part(raw, size, k)
    ensures Sized(r, |raw|, size)
  {
    forall k | 0 <= k < |r| - 1
      ensures size - 1.0 < |r[k].data| as real < size + 1.0
      ensures size == size.Floor as real ==> |r[k].data| == size.Floor
    {
      PartLength(raw, size, |r|, k);
    }
  }

  // The job's result: the pieces numbered in order, each with the count of all. A payload that is missing or
  // the empty string, and a size that is no number or not positive, are refused; NaN is not, and loses the payload.
  method SplitForRoom(payload: Option<Bytes>, size: Option<Size>) returns (result: Option<seq<Piece>>)
    ensures result.Some? <==> payload.Some? && Accepted(size)
    ensures result.Some? ==>
              var r := result.value;
              && (forall k | 0 <= k < |r| :: r[k].seqNo == k && r[k].total == |r|)
              && (Concat(Data(r)) == payload.value <==> !(size.value.NotANumber? && payload.value != []))
              && (size.value.Finite? ==> Sized(r, |payload.value|, size.value.value))
              && (!size.value.Finite? ==> |r| == if payload.value == [] then 0 else 1)
  {
    if payload.None? || !Accepted(size) {
      return None;
    }
    var parts;
    if size.value.Finite? {
      parts := Slices(payload.value, size.value.value);
    } else {
      parts := SplitOnce(payload.value, size.value.Infinite?);
    }
    var r := seq(|parts|, k requires 0 <= k < |parts| => Piece(k, parts[k], |parts|));
    assert Data(r) == parts;
    if size.value.Finite? { PartsAreSized(payload.value, size.value.value, r); }
    result := Some(r);
  }
}
