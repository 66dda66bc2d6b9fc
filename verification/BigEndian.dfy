/** Four-byte big-endian numbers, as a frame's length and an HMAC field's length are written. */
module BigEndian {
  type byte = x: int | 0 <= x < 256

  const TWO_32: nat := 0x1_0000_0000

  // The value of bytes with the most significant first
  function Value(bytes: seq<byte>): nat {
    if bytes == [] then 0 else 256 * Value(bytes[..|bytes| - 1]) + bytes[|bytes| - 1]
  }

  function ToBytes(n: nat): seq<byte>
    requires n < TWO_32
  {
    [n / 0x100_0000, n / 0x1_0000 % 0x100, n / 0x100 % 0x100, n % 0x100]
  }

  function FromBytes(b0: int, b1: int, b2: int, b3: int): int {
    ((b0 * 0x100 + b1) * 0x100 + b2) * 0x100 + b3
  }

  lemma FromToBytes(n: nat)
    requires n < TWO_32
    ensures var b := ToBytes(n); FromBytes(b[0], b[1], b[2], b[3]) == n
  {
    assert n / 0x1_0000 == n / 0x100 / 0x100 && n / 0x100_0000 == n / 0x100 / 0x100 / 0x100;
  }

  lemma ToFromBytes(b0: byte, b1: byte, b2: byte, b3: byte)
    ensures 0 <= FromBytes(b0, b1, b2, b3) < TWO_32
    ensures ToBytes(FromBytes(b0, b1, b2, b3)) == [b0, b1, b2, b3]
  {
    var high: int := b0 * 0x100 + b1;
    var upper: int := high * 0x100 + b2;
    var n: int := upper * 0x100 + b3;
    assert n / 0x100 == upper && n % 0x100 == b3;
    assert upper / 0x100 == high && upper % 0x100 == b2;
    assert high / 0x100 == b0 && high % 0x100 == b1;
    assert n / 0x1_0000 == high && n / 0x100_0000 == b0;
  }

  lemma ValueOfFour(b0: byte, b1: byte, b2: byte, b3: byte)
    ensures Value([b0, b1, b2, b3]) == FromBytes(b0, b1, b2, b3)
  {
    assert [b0, b1, b2, b3][..3] == [b0, b1, b2] && [b0, b1, b2][..2] == [b0, b1] && [b0, b1][..1] == [b0];
    assert [b0][..0] == [] && Value([]) == 0;
    assert Value([b0]) == b0 && Value([b0, b1]) == b0 * 0x100 + b1;
  }

  lemma ToBytesValue(n: nat)
    requires n < TWO_32
    ensures |ToBytes(n)| == 4 && Value(ToBytes(n)) == n
  {
    var b := ToBytes(n);
    FromToBytes(n);
    ValueOfFour(b[0], b[1], b[2], b[3]);
  }
}
