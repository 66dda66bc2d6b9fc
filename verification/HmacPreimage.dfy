/**
 What the gateway signs (pkgs/go/crypto/crypto.go, services/gateway/cmd/gateway/main.go):
 the fields of an envelope, each behind its length in four big-endian bytes. HMAC-SHA256
 (section 2 of RFC 2104) is an unspecified function of the key and this preimage.
 */
module HmacPreimage {
  import opened BigEndian
  import opened Options

  type Bytes = seq<byte>

  // uint32(n)
  function Cut(n: nat): (m: nat)
    ensures m < TWO_32 && (n < TWO_32 ==> m == n)
  {
    n % 0x1_0000_0000
  }

  // binary.BigEndian.PutUint32 of a length cut to 32 bits
  function LengthPrefix(n: nat): Bytes {
    ToBytes(Cut(n))
  }

  function Preimage(fields: seq<Bytes>): Bytes {
    if fields == [] then [] else LengthPrefix(|fields[0]|) + fields[0] + Preimage(fields[1..])
  }

  predicate Short(fields: seq<Bytes>) {
    forall i | 0 <= i < |fields| :: |fields[i]| < TWO_32
  }

  // ---- What the bytes say ----

  // The fields, read off the bytes: four for the length, the most significant first, and that many for the field
  function ReadFields(p: Bytes): Option<seq<Bytes>>
    decreases |p|
  {
    if p == [] then Some([])
    else if |p| < 4 || |p| < 4 + Value(p[..4]) then None
    else
      var n := Value(p[..4]);
      match ReadFields(p[4 + n..])
      case None => None
      case Some(rest) => Some([p[4..4 + n]] + rest)
  }

  lemma ReadsFirst(f: Bytes, rest: Bytes)
    requires |f| < TWO_32
    ensures var p := LengthPrefix(|f|) + f + rest;
            && |p| >= 4 + |f| && Value(p[..4]) == |f| && p[4..4 + |f|] == f && p[4 + |f|..] == rest
  {
    ToBytesValue(|f|);
    assert Cut(|f|) == |f|;
    var p := LengthPrefix(|f|) + f + rest;
    assert p[..4] == LengthPrefix(|f|);
  }

  // Fields shorter than 4 GiB are what the bytes say
  lemma {:induction false} ReadsPreimage(fields: seq<Bytes>)
    requires Short(fields)
    ensures ReadFields(Preimage(fields)) == Some(fields)
  {
    if fields != [] {
      ReadsFirst(fields[0], Preimage(fields[1..]));
      ReadsPreimage(fields[1..]);
      assert fields == [fields[0]] + fields[1..];
    }
  }

  // So no two lists of such fields, however many they are, have the same preimage
  lemma PreimageInjective(xs: seq<Bytes>, ys: seq<Bytes>)
    requires Short(xs) && Short(ys) && Preimage(xs) == Preimage(ys)
    ensures xs == ys
  {
    ReadsPreimage(xs);
    ReadsPreimage(ys);
  }

  function Zeros(n: nat): Bytes {
    if n == 0 then [] else [0] + Zeros(n - 1)
  }

  lemma {:induction false} ZerosJoin(m: nat, n: nat)
    ensures Zeros(m) + Zeros(n) == Zeros(m + n)
    decreases m
  {
    if m > 0 {
      ZerosJoin(m - 1, n);
      assert Zeros(m) + Zeros(n) == [0] + (Zeros(m - 1) + Zeros(n));
    }
  }

  lemma {:induction false} ZerosLength(n: nat)
    ensures |Zeros(n)| == n
  {
    if n > 0 { ZerosLength(n - 1); }
  }

  function Empties(n: nat): seq<Bytes> {
    if n == 0 then [] else [[]] + Empties(n - 1)
  }

  lemma {:induction false} EmptiesPreimage(n: nat)
    ensures Preimage(Empties(n)) == Zeros(4 * n) && |Empties(n)| == n
  {
    if n > 0 {
      EmptiesPreimage(n - 1);
      ZerosJoin(4, 4 * (n - 1));
      assert Zeros(4) == [0, 0, 0, 0];
      assert LengthPrefix(0) == [0, 0, 0, 0];
      assert Empties(n)[1..] == Empties(n - 1);
    }
  }

  // The bound is exact: one field of 4 GiB of zeros signs like 2^30 + 1 empty fields
  lemma PreimageCollidesAtFourGiB()
    ensures |Zeros(TWO_32)| == TWO_32
    ensures Preimage([Zeros(TWO_32)]) == Preimage(Empties(0x4000_0001)) && [Zeros(TWO_32)] != Empties(0x4000_0001)
  {
    var k: nat := 0x4000_0001;
    ZerosLength(TWO_32);
    EmptiesPreimage(k);
    ZerosJoin(4, TWO_32);
    Collides(Zeros(TWO_32), k);
  }

  lemma Collides(z: Bytes, k: nat)
    requires |z| == TWO_32 && z == Zeros(TWO_32) && k == 0x4000_0001
    requires Preimage(Empties(k)) == Zeros(4 * k) && |Empties(k)| == k && Zeros(4) + z == Zeros(4 + TWO_32)
    ensures Preimage([z]) == Preimage(Empties(k)) && [z] != Empties(k)
  {
    assert LengthPrefix(|z|) == [0, 0, 0, 0] == Zeros(4);
    assert [z][1..] == [];
    assert Preimage([z]) == Zeros(4) + z;
  }

  // fmt.Sprintf("%d", n)
  function Digit(d: nat): byte
    requires d < 10
  {
    48 + d
  }

  function DecimalNat(n: nat): Bytes {
    if n < 10 then [Digit(n)] else DecimalNat(n / 10) + [Digit(n % 10)]
  }

  function Decimal(n: int): Bytes {
    if n < 0 then [45] + DecimalNat(-n) else DecimalNat(n)
  }

  lemma {:induction false} DecimalShort(n: nat, k: nat)
    requires n < Pow10(k) && k >= 1
    ensures |DecimalNat(n)| <= k
    decreases k
  {
    if n >= 10 { DecimalShort(n / 10, k - 1); }
  }

  function Pow10(k: nat): nat {
    if k == 0 then 1 else 10 * Pow10(k - 1)
  }

  lemma TimestampShort(n: int)
    requires -0x8000_0000_0000_0000 <= n < 0x8000_0000_0000_0000
    ensures |Decimal(n)| <= 21
  {
    assert Pow10(5) == 100_000;
    assert Pow10(10) == 10_000_000_000;
    assert Pow10(15) == 1_000_000_000_000_000;
    assert Pow10(20) == 100_000_000_000_000_000_000;
    DecimalShort(if n < 0 then -n else n, 20);
  }

  // The number that decimal digits stand for, and with a sign in front
  function NumberNat(digits: Bytes): int {
    if digits == [] then 0 else 10 * NumberNat(digits[..|digits| - 1]) - 48 + digits[|digits| - 1]
  }

  function Number(text: Bytes): int {
    if text != [] && text[0] == 45 then -NumberNat(text[1..]) else NumberNat(text)
  }

  // Digits, and no zero in front of others
  predicate Plain(text: Bytes) {
    text != [] && (|text| > 1 ==> text[0] != 48) && forall i | 0 <= i < |text| :: 48 <= text[i] <= 57
  }

  lemma {:induction false} DecimalNatReads(n: nat)
    ensures Plain(DecimalNat(n)) && NumberNat(DecimalNat(n)) == n && (n > 0 ==> DecimalNat(n)[0] != 48)
  {
    if n >= 10 {
      DecimalNatReads(n / 10);
      assert DecimalNat(n)[..|DecimalNat(n)| - 1] == DecimalNat(n / 10);
    }
  }

  lemma DecimalReads(n: int)
    ensures Number(Decimal(n)) == n
    ensures Plain(if n < 0 then Decimal(n)[1..] else Decimal(n))
  {
    DecimalNatReads(if n < 0 then -n else n);
    if n < 0 { assert Decimal(n)[1..] == DecimalNat(-n); }
  }

  lemma DecimalInjective(m: int, n: int)
    requires Decimal(m) == Decimal(n)
    ensures m == n
  {
    DecimalReads(m);
    DecimalReads(n);
  }

  datatype Envelope = Envelope(id: Bytes, kind: Bytes, room: Bytes, payload: Bytes, timestamp: int)

  function SignedFields(e: Envelope): seq<Bytes> {
    [e.id, e.kind, e.room, e.payload, Decimal(e.timestamp)]
  }

  // An envelope as the gateway can hold it
  predicate Fits(e: Envelope) {
    && |e.id| < TWO_32 && |e.kind| < TWO_32 && |e.room| < TWO_32 && |e.payload| < TWO_32
    && -0x8000_0000_0000_0000 <= e.timestamp < 0x8000_0000_0000_0000
  }

  // What bytes signed for an envelope have to say: its id, its type, its room, its payload, and its time in digits
  predicate Says(p: Bytes, e: Envelope) {
    match ReadFields(p)
    case None => false
    case Some(f) =>
      && |f| == 5 && f[0] == e.id && f[1] == e.kind && f[2] == e.room && f[3] == e.payload
      && Number(f[4]) == e.timestamp
      && Plain(if e.timestamp < 0 && f[4] != [] then f[4][1..] else f[4])
  }

  lemma PreimageSays(e: Envelope)
    requires Fits(e)
    ensures Says(Preimage(SignedFields(e)), e)
  {
    TimestampShort(e.timestamp);
    ReadsPreimage(SignedFields(e));
    DecimalReads(e.timestamp);
  }

  // So envelopes signed over the same bytes are the same in every signed field
  lemma SignedEnvelopesAgree(a: Envelope, b: Envelope)
    requires Fits(a) && Fits(b) && Preimage(SignedFields(a)) == Preimage(SignedFields(b))
    ensures a == b
  {
    PreimageSays(a);
    PreimageSays(b);
  }

  // The running MAC, as the bytes written to it so far
  class Mac {
    var written: Bytes

    constructor ()
      ensures written == []
    {
      written := [];
    }

    method Write(b: Bytes)
      modifies this
      ensures written == old(written) + b
    {
      written := written + b;
    }
  }

  lemma {:induction false} PreimageSnoc(fields: seq<Bytes>, f: Bytes)
    ensures Preimage(fields + [f]) == Preimage(fields) + (LengthPrefix(|f|) + f)
  {
    if fields == [] {
      assert [f][1..] == [];
    } else {
      assert (fields + [f])[1..] == fields[1..] + [f];
      PreimageSnoc(fields[1..], f);
    }
  }

  method SignHMAC(fields: seq<Bytes>) returns (mac: Mac)
    ensures fresh(mac) && mac.written == Preimage(fields)
  {
    mac := new Mac();
    for i := 0 to |fields|
      invariant fresh(mac) && mac.written == Preimage(fields[..i])
    {
      var b := fields[i];
      mac.Write(LengthPrefix(|b|));
      mac.Write(b);
      PreimageSnoc(fields[..i], b);
      assert fields[..i + 1] == fields[..i] + [b];
    }
    assert fields[..|fields|] == fields;
  }

  // signEnvelope: what is hashed says the envelope
  method SignEnvelope(e: Envelope) returns (mac: Mac)
    requires Fits(e)
    ensures fresh(mac) && Says(mac.written, e)
  {
    mac := SignHMAC([e.id, e.kind, e.room, e.payload, Decimal(e.timestamp)]);
    PreimageSays(e);
  }
}
