/**
 Binary frames (pkgs/rust/io/src/frame.rs, reader.rs): one type byte, a four-byte
 big-endian length, the payload. The slice decoder, the streaming reader and its
 read_all loop, and their agreement on every byte string.
 */
module FrameCodec {
  import opened BigEndian

  const MAX_FRAME_SIZE: nat := 1024 * 1024
  const MAX_READ_ALL_FRAMES: nat := 10_000

  datatype Frame = Frame(frameType: byte, payload: seq<byte>)

  datatype IoError =
    | FrameTooLarge(size: nat, max: nat)
    | IncompleteFrame(expected: nat, got: nat)
    | InvalidFrameType(frameType: byte)
    | UnexpectedEof

  datatype Result<+T> = Ok(value: T) | Err(error: IoError)

  function Encode(f: Frame): Result<seq<byte>> {
    if |f.payload| > MAX_FRAME_SIZE then Err(FrameTooLarge(|f.payload|, MAX_FRAME_SIZE))
    else Ok([f.frameType] + ToBytes(|f.payload|) + f.payload)
  }

  // The frame at the start of the data, and how many bytes it took
  function Decode(data: seq<byte>): Result<(Frame, nat)> {
    if |data| < 5 then Err(IncompleteFrame(5, |data|))
    else if data[0] == 0 then Err(InvalidFrameType(data[0]))
    else
      var length := FromBytes(data[1], data[2], data[3], data[4]);
      if length > MAX_FRAME_SIZE then Err(FrameTooLarge(length, MAX_FRAME_SIZE))
      else if |data| < 5 + length then Err(IncompleteFrame(5 + length, |data|))
      else Ok((Frame(data[0], data[5..5 + length]), 5 + length))
  }

  lemma DecodeConsumes(data: seq<byte>)
    requires Decode(data).Ok?
    ensures 5 <= Decode(data).value.1 <= |data|
  {
  }

  // Decoding undoes encoding, whatever follows, for every frame but those of type 0
  lemma DecodeOfEncode(f: Frame, rest: seq<byte>)
    requires Encode(f).Ok?
    ensures var bytes := Encode(f).value;
            Decode(bytes + rest) == if f.frameType == 0 then Err(InvalidFrameType(0)) else Ok((f, |bytes|))
  {
    var data := Encode(f).value + rest;
    FromToBytes(|f.payload|);
    assert data[1..5] == ToBytes(|f.payload|);
    assert data[5..5 + |f.payload|] == f.payload;
  }

  // and what decodes is the encoding of what it decodes to
  lemma EncodeOfDecode(data: seq<byte>)
    requires Decode(data).Ok?
    ensures var (f, n) := Decode(data).value; n <= |data| && f.frameType != 0 && Encode(f) == Ok(data[..n])
  {
    var (f, n) := Decode(data).value;
    ToFromBytes(data[1], data[2], data[3], data[4]);
    assert data[..n] == [data[0]] + [data[1], data[2], data[3], data[4]] + data[5..n];
  }

  // The format: the type, the length of the payload in four bytes with the most significant first, the payload
  predicate IsLayout(bytes: seq<byte>, f: Frame) {
    && |bytes| == 5 + |f.payload| && bytes[0] == f.frameType
    && Value(bytes[1..5]) == |f.payload| && bytes[5..] == f.payload
  }

  lemma EncodeIsLayout(f: Frame)
    ensures |f.payload| <= 1_048_576 ==> Encode(f).Ok? && IsLayout(Encode(f).value, f)
    ensures |f.payload| > 1_048_576 ==> Encode(f) == Err(FrameTooLarge(|f.payload|, 1_048_576))
  {
    if |f.payload| <= 1_048_576 {
      ToBytesValue(|f.payload|);
      assert Encode(f).value[1..5] == ToBytes(|f.payload|) && Encode(f).value[5..] == f.payload;
    }
  }

  // Bytes decode exactly if they begin with a frame laid out so, of at most 1 MiB and of a type other than 0
  lemma DecodesExactlyWhen(data: seq<byte>, f: Frame, n: nat)
    ensures Decode(data) == Ok((f, n)) <==>
              n <= |data| && IsLayout(data[..n], f) && f.frameType != 0 && |f.payload| <= 1_048_576
  {
    if |data| >= 5 {
      ValueOfFour(data[1], data[2], data[3], data[4]);
      assert data[1..5] == [data[1], data[2], data[3], data[4]];
      if 5 <= n <= |data| { assert data[..n][1..5] == data[1..5] && data[..n][5..] == data[5..n]; }
    }
  }

  // And what is wrong with other bytes is told by the first of: too few for a header, type 0, the length, too few
  lemma RefusesOthers(data: seq<byte>)
    requires Decode(data).Err?
    ensures var e := Decode(data).error;
            if |data| < 5 then e == IncompleteFrame(5, |data|)
            else if data[0] == 0 then e == InvalidFrameType(0)
            else if Value(data[1..5]) > 1_048_576 then e == FrameTooLarge(Value(data[1..5]), 1_048_576)
            else |data| < 5 + Value(data[1..5]) && e == IncompleteFrame(5 + Value(data[1..5]), |data|)
  {
    if |data| >= 5 {
      ValueOfFour(data[1], data[2], data[3], data[4]);
      assert data[1..5] == [data[1], data[2], data[3], data[4]];
    }
  }

  // What one read_frame makes of the bytes still to come
  function ReadResult(data: seq<byte>): Result<Frame> {
    match Decode(data)
    case Ok((f, _)) => Ok(f)
    case Err(IncompleteFrame(_, _)) => Err(UnexpectedEof)
    case Err(e) => Err(e)
  }

  // What is left of the bytes after a frame
  function Rest(data: seq<byte>): seq<byte> {
    if Decode(data).Ok? then DecodeConsumes(data); data[Decode(data).value.1..] else []
  }

  // One result in front of those that follow: the end of the source is silent, and
  // nothing follows an error
  function Before(r: Result<Frame>, later: seq<Result<Frame>>): seq<Result<Frame>> {
    match r
    case Ok(_) => [r] + later
    case Err(UnexpectedEof) => []
    case Err(_) => [r]
  }

  // Frames by repeated decoding, at most `limit` results. An incomplete tail is silent,
  // any other error is the last result.
  function DecodeAll(data: seq<byte>, limit: nat): seq<Result<Frame>>
    decreases limit
  {
    if limit == 0 then [] else Before(ReadResult(data), DecodeAll(Rest(data), limit - 1))
  }

  // One result, then the rest: what is collected so far and what is still due are together the same
  lemma OneResult(frames: seq<Result<Frame>>, due: seq<Result<Frame>>, r: Result<Frame>, later: seq<Result<Frame>>)
    requires due == Before(r, later)
    ensures r.Ok? ==> frames + due == frames + [r] + later
    ensures r.Err? && r.error.UnexpectedEof? ==> frames + due == frames + []
    ensures r.Err? && !r.error.UnexpectedEof? ==> frames + due == frames + [r] + []
  {
  }

  // The frames a peer can send and have read: not too large, and not of type 0
  predicate Sendable(frames: seq<Frame>) {
    frames == [] || (|frames[0].payload| <= MAX_FRAME_SIZE && frames[0].frameType != 0 && Sendable(frames[1..]))
  }

  function EncodeAll(frames: seq<Frame>): seq<byte>
    requires Sendable(frames)
  {
    if frames == [] then [] else Encode(frames[0]).value + EncodeAll(frames[1..])
  }

  // The first `limit` frames, as results
  function Results(frames: seq<Frame>, limit: nat): seq<Result<Frame>> {
    if frames == [] || limit == 0 then [] else [Ok(frames[0])] + Results(frames[1..], limit - 1)
  }

  lemma {:induction false} ResultsInjective(a: seq<Frame>, b: seq<Frame>, limit: nat)
    requires Results(a, limit) == Results(b, limit) && |a| <= limit && |b| <= limit
    ensures a == b
    decreases |a|
  {
    if a != [] && b != [] {
      assert Results(a, limit)[0] == Ok(a[0]) && Results(b, limit)[0] == Ok(b[0]);
      assert Results(a, limit)[1..] == Results(a[1..], limit - 1)
        && Results(b, limit)[1..] == Results(b[1..], limit - 1);
      ResultsInjective(a[1..], b[1..], limit - 1);
    }
  }

  // The encodings with something behind them
  function EncodeThen(frames: seq<Frame>, tail: seq<byte>): seq<byte>
    requires Sendable(frames)
  {
    if frames == [] then tail else Encode(frames[0]).value + EncodeThen(frames[1..], tail)
  }

  lemma {:induction false} ThenIsBehind(frames: seq<Frame>, tail: seq<byte>)
    requires Sendable(frames)
    ensures EncodeThen(frames, tail) == EncodeAll(frames) + tail
  {
    if frames != [] { ThenIsBehind(frames[1..], tail); }
  }

  // How a list of results ends at bytes that are no frame: silently if they are too few, else with the error
  function Ending(tail: seq<byte>): seq<Result<Frame>>
    requires Decode(tail).Err?
  {
    if Decode(tail).error.IncompleteFrame? then [] else [Err(Decode(tail).error)]
  }

  // The first `limit` results of frames with this ending
  function Cut(frames: seq<Frame>, limit: nat, ending: seq<Result<Frame>>): seq<Result<Frame>> {
    if limit == 0 then [] else if frames == [] then ending else [Ok(frames[0])] + Cut(frames[1..], limit - 1, ending)
  }

  lemma FirstOf(bytes: seq<byte>, later: seq<byte>, f: Frame, limit: nat)
    requires Decode(bytes + later) == Ok((f, |bytes|)) && limit > 0
    ensures DecodeAll(bytes + later, limit) == [Ok(f)] + DecodeAll(later, limit - 1)
  {
    assert (bytes + later)[|bytes|..] == later;
  }

  lemma DecodeOneMore(frames: seq<Frame>, tail: seq<byte>, limit: nat, ending: seq<Result<Frame>>)
    requires frames != [] && limit > 0 && Sendable(frames)
    requires DecodeAll(EncodeThen(frames[1..], tail), limit - 1) == Cut(frames[1..], limit - 1, ending)
    ensures DecodeAll(EncodeThen(frames, tail), limit) == Cut(frames, limit, ending)
  {
    var later := EncodeThen(frames[1..], tail);
    DecodeOfEncode(frames[0], later);
    FirstOf(Encode(frames[0]).value, later, frames[0], limit);
  }

  lemma {:induction false} DecodeAllCut(frames: seq<Frame>, tail: seq<byte>, limit: nat)
    requires Sendable(frames) && Decode(tail).Err?
    ensures DecodeAll(EncodeThen(frames, tail), limit) == Cut(frames, limit, Ending(tail))
    decreases |frames|
  {
    if frames != [] && limit > 0 {
      DecodeAllCut(frames[1..], tail, limit - 1);
      DecodeOneMore(frames, tail, limit, Ending(tail));
    }
  }

  lemma {:induction false} CutIsResults(frames: seq<Frame>, limit: nat, ending: seq<Result<Frame>>)
    ensures Cut(frames, limit, ending) == Results(frames, limit) + if |frames| < limit then ending else []
    decreases |frames|
  {
    if frames != [] && limit > 0 { CutIsResults(frames[1..], limit - 1, ending); }
  }

  // On the encodings of valid frames the reader gives back those frames, up to its limit, and then whatever is
  // wrong with what follows
  lemma DecodeAllEnds(frames: seq<Frame>, tail: seq<byte>, limit: nat)
    requires Sendable(frames) && Decode(tail).Err?
    ensures DecodeAll(EncodeAll(frames) + tail, limit)
            == Results(frames, limit) + if |frames| < limit then Ending(tail) else []
  {
    ThenIsBehind(frames, tail);
    DecodeAllCut(frames, tail, limit);
    CutIsResults(frames, limit, Ending(tail));
  }

  lemma DecodeAllOfEncodeAll(frames: seq<Frame>, limit: nat)
    requires Sendable(frames)
    ensures DecodeAll(EncodeAll(frames), limit) == Results(frames, limit)
  {
    assert EncodeAll(frames) + [] == EncodeAll(frames) && Ending([]) == [];
    DecodeAllEnds(frames, [], limit);
  }

  // No two lists of valid frames have the same encoding
  lemma EncodeAllInjective(a: seq<Frame>, b: seq<Frame>)
    requires Sendable(a) && Sendable(b) && EncodeAll(a) == EncodeAll(b)
    ensures a == b
  {
    var limit := |a| + |b|;
    DecodeAllOfEncodeAll(a, limit);
    DecodeAllOfEncodeAll(b, limit);
    ResultsInjective(a, b, limit);
  }

  lemma SliceOfRest(data: seq<byte>, length: nat)
    requires 5 + length <= |data|
    ensures data[5..][..length] == data[5..5 + length]
  {
  }

  // A reader over a byte source that ends
  class FrameReader {
    const source: seq<byte>
    var pos: nat
    var buf: seq<byte>

    ghost predicate Valid()
      reads this
    {
      pos <= |source|
    }

    ghost function Ahead(): seq<byte>
      reads this
      requires Valid()
    {
      source[pos..]
    }

    constructor (source: seq<byte>)
      ensures Valid() && Ahead() == source
    {
      this.source, pos, buf := source, 0, [];
    }

    // read_exact: all the bytes asked for, or the end of the source
    method ReadExact(n: nat) returns (r: Result<seq<byte>>)
      requires Valid()
      modifies this`pos
      ensures Valid()
      ensures r == if n <= |old(Ahead())| then Ok(old(Ahead())[..n]) else Err(UnexpectedEof)
      ensures Ahead() == if n <= |old(Ahead())| then old(Ahead())[n..] else []
    {
      if n <= |source| - pos {
        assert source[pos..pos + n] == Ahead()[..n] && source[pos + n..] == Ahead()[n..];
        r := Ok(source[pos..pos + n]);
        pos := pos + n;
      } else {
        r := Err(UnexpectedEof);
        pos := |source|;
      }
    }

    method ReadFrame() returns (r: Result<Frame>)
      requires Valid()
      modifies this
      ensures Valid() && r == ReadResult(old(Ahead()))
      ensures match Decode(old(Ahead()))
              case Ok((f, n)) => r == Ok(f) && Ahead() == old(Ahead())[n..]
              case Err(e) => r == Err(if e.IncompleteFrame? then UnexpectedEof else e)
      ensures r.Ok? ==> Ahead() == Rest(old(Ahead()))
    {
      ghost var data := Ahead();
      var header := ReadExact(5);
      if header.Err? {
        return Err(header.error);
      }
      var h := header.value;
      if h[0] == 0 {
        return Err(InvalidFrameType(h[0]));
      }
      var length := FromBytes(h[1], h[2], h[3], h[4]);
      if length > MAX_FRAME_SIZE {
        return Err(FrameTooLarge(length, MAX_FRAME_SIZE));
      }
      // resize to the length, then fill
      buf := if length <= |buf| then buf[..length] else buf + seq(length - |buf|, _ => 0);
      var body := ReadExact(length);
      if body.Err? {
        return Err(body.error);
      }
      buf := body.value + buf[length..];
      var payload := buf[..length];
      assert payload == data[5..][..length];
      SliceOfRest(data, length);
      r := Ok(Frame(h[0], payload));
    }

    // One round of read_all: at most one more result, and whether it is the last round.
    // `due` is everything still to be collected.
    method ReadNext(frames: seq<Result<Frame>>, ghost due: seq<Result<Frame>>, ghost left: nat)
      returns (frames': seq<Result<Frame>>, done: bool, ghost due': seq<Result<Frame>>)
      requires Valid() && left > 0 && due == DecodeAll(Ahead(), left)
      modifies this
      ensures Valid() && frames + due == frames' + due'
      ensures due' == DecodeAll(Ahead(), if done then 0 else left - 1)
      ensures !done ==> |frames'| == |frames| + 1
    {
      frames', due' := frames, [];
      ghost var later := DecodeAll(Rest(Ahead()), left - 1);
      var r := ReadFrame();
      OneResult(frames, due, r, later);
      if r.Ok? {
        frames', due' := frames + [r], later;
      } else if !r.error.UnexpectedEof? {
        frames' := frames + [r];
      }
      done := r.Err?;
    }

    method ReadUpTo(limit: nat) returns (frames: seq<Result<Frame>>)
      requires Valid()
      modifies this
      ensures frames == DecodeAll(old(Ahead()), limit)
    {
      frames := [];
      ghost var all := DecodeAll(Ahead(), limit);
      ghost var due := all;
      var done := false;
      ghost var left := limit;
      while !done && |frames| < limit
        invariant Valid() && all == frames + due
        invariant due == DecodeAll(Ahead(), left) && left == if done then 0 else limit - |frames|
        invariant !done ==> |frames| <= limit
        decreases !done, limit - |frames|
      {
        frames, done, due := ReadNext(frames, due, left);
        left := if done then 0 else left - 1;
      }
    }

    // read_all agrees with repeated decoding on every source, up to its limit
    method ReadAll() returns (frames: seq<Result<Frame>>)
      requires Valid()
      modifies this
      ensures frames == DecodeAll(old(Ahead()), 10_000)
    {
      frames := ReadUpTo(MAX_READ_ALL_FRAMES);
    }
  }
}
