/** Length-prefixed framing: crates/pgfault-wire/src/lib.rs. */
module Wire {
  import opened Base

  const MAX_FRAME: nat := 64 * 1024 * 1024

  /** A complete message. The source keeps the raw bytes; `Encode` gives them back. */
  datatype Frame = Frame(tag: byte, body: Bytes)

  /** The four bytes of a big-endian `u32`; a larger number wraps as the source's cast does. */
  function BigEndian(n: nat): (b: Bytes)
    ensures |b| == 4
  {
    var high := n / 0x100 / 0x100;
    [(high / 0x100 % 0x100) as byte, (high % 0x100) as byte, (n / 0x100 % 0x100) as byte, (n % 0x100) as byte]
  }

  function FromBigEndian(b: Bytes): nat
    requires |b| == 4
  {
    ((b[0] as nat * 0x100 + b[1] as nat) * 0x100 + b[2] as nat) * 0x100 + b[3] as nat
  }

  function Encode(f: Frame): Bytes {
    [f.tag] + BigEndian(|f.body| + 4) + f.body
  }

  function EncodeAll(fs: seq<Frame>): Bytes {
    if fs == [] then [] else Encode(fs[0]) + EncodeAll(fs[1..])
  }

  predicate Sendable(f: Frame) {
    |f.body| + 4 <= MAX_FRAME
  }

  datatype Decoded = NeedMore | Invalid | Got(frame: Frame, rest: Bytes)

  /** One call of `decode`, as a function of the buffer. */
  function Decode(buf: Bytes): (d: Decoded)
    ensures d.Got? ==> |d.rest| < |buf|
  {
    if |buf| < 5 then NeedMore
    else
      var len := FromBigEndian(buf[1..5]);
      if len < 4 || MAX_FRAME < len then Invalid
      else if |buf| < len + 1 then NeedMore
      else Got(Frame(buf[0], buf[5..len + 1]), buf[len + 1..])
  }

  /** All frames of a byte stream, and the bytes left where decoding stops. */
  datatype Stream = Stream(frames: seq<Frame>, rest: Bytes)

  function DecodeAll(buf: Bytes): Stream
    decreases |buf|
  {
    var d := Decode(buf);
    if d.Got? then
      var tail := DecodeAll(d.rest);
      Stream([d.frame] + tail.frames, tail.rest)
    else Stream([], buf)
  }

  function Concat(chunks: seq<Bytes>): Bytes {
    if chunks == [] then [] else chunks[0] + Concat(chunks[1..])
  }

  /** Position of the first zero byte, as `cstr` finds it. */
  function Terminator(body: Bytes): (r: Option<nat>)
    ensures r.Some? ==> r.value < |body| && body[r.value] == 0 && 0 !in body[..r.value]
    ensures r.None? ==> 0 !in body
  {
    if body == [] then None
    else if body[0] == 0 then Some(0)
    else
      match Terminator(body[1..])
      case None => None
      case Some(k) => assert body[..k + 1] == [body[0]] + body[1..][..k]; Some(k + 1)
  }

  /** `cstr`: the text before the first zero byte, and what follows it. */
  function CStr(body: Bytes): Option<(Bytes, Bytes)> {
    match Terminator(body)
    case None => None
    case Some(k) => Some((body[..k], body[k + 1..]))
  }

  // ---- round trip ---------------------------------------------------------

  lemma BigEndianRoundTrip(n: nat)
    requires n < 0x1_0000_0000
    ensures FromBigEndian(BigEndian(n)) == n
  {
    var high := n / 0x100 / 0x100;
    assert high / 0x100 < 0x100;
    assert high == high / 0x100 * 0x100 + high % 0x100;
    assert n / 0x100 == high * 0x100 + n / 0x100 % 0x100;
  }

  lemma Digit(high: nat, low: nat)
    requires low < 0x100
    ensures (high * 0x100 + low) / 0x100 == high && (high * 0x100 + low) % 0x100 == low
  {
  }

  lemma BigEndianInverse(b: Bytes)
    requires |b| == 4
    ensures BigEndian(FromBigEndian(b)) == b
  {
    var top := b[0] as nat * 0x100 + b[1] as nat;
    Digit(b[0] as nat, b[1] as nat);
    Digit(top, b[2] as nat);
    Digit(top * 0x100 + b[2] as nat, b[3] as nat);
  }

  /** Decoding what was encoded gives the frame back and leaves what followed it. */
  lemma DecodeEncode(f: Frame, suffix: Bytes)
    requires Sendable(f)
    ensures Decode(Encode(f) + suffix) == Got(f, suffix)
  {
    var buf := Encode(f) + suffix;
    BigEndianRoundTrip(|f.body| + 4);
    assert buf[1..5] == BigEndian(|f.body| + 4);
    assert buf[5..|f.body| + 5] == f.body;
    assert buf[|f.body| + 5..] == suffix;
  }

  /** An accepted frame is a sendable one, and the bytes consumed are exactly its encoding. */
  lemma DecodeIsLossless(buf: Bytes)
    requires Decode(buf).Got?
    ensures var d := Decode(buf);
            Sendable(d.frame) && buf == Encode(d.frame) + d.rest && 5 <= |Encode(d.frame)| <= MAX_FRAME + 1
  {
    var d := Decode(buf);
    var len := FromBigEndian(buf[1..5]);
    BigEndianInverse(buf[1..5]);
    assert |d.frame.body| + 4 == len;
    assert buf == [buf[0]] + buf[1..5] + buf[5..len + 1] + buf[len + 1..];
  }

  /** Bytes that arrive later change neither a decoded frame nor a detected error. */
  lemma DecodeIsStable(buf: Bytes, more: Bytes)
    requires !Decode(buf).NeedMore?
    ensures Decode(buf + more) ==
            (if Decode(buf).Invalid? then Invalid else Got(Decode(buf).frame, Decode(buf).rest + more))
  {
    assert (buf + more)[1..5] == buf[1..5];
    if Decode(buf).Got? {
      var len := FromBigEndian(buf[1..5]);
      assert (buf + more)[5..len + 1] == buf[5..len + 1];
      assert (buf + more)[len + 1..] == buf[len + 1..] + more;
    }
  }

  /** The buffer starts like a frame of at least four and at most 64 MiB of length. */
  ghost predicate Begins(buf: Bytes) {
    exists f: Frame :: |f.body| + 4 <= 67_108_864 && buf[..Least(|buf|, |f.body| + 5)] == Encode(f)[..Least(|buf|, |f.body| + 5)]
  }

  function Least(a: nat, b: nat): nat {
    if a < b then a else b
  }

  /** What decides: with its five header bytes a buffer is refused exactly when no frame starts so; it needs
      more exactly when the header, or the frame it starts, is not whole. */
  lemma DecodeDecides(buf: Bytes)
    ensures |buf| < 5 ==> Decode(buf).NeedMore?
    ensures |buf| >= 5 ==>
              var length := ((buf[1] as nat * 256 + buf[2] as nat) * 256 + buf[3] as nat) * 256 + buf[4] as nat;
              && (Decode(buf).Invalid? <==> !(4 <= length <= 67_108_864))
              && (Decode(buf).NeedMore? <==> 4 <= length <= 67_108_864 && |buf| < length + 1)
              && (Decode(buf).Got? ==> Decode(buf).frame == Frame(buf[0], buf[5..length + 1]) && Decode(buf).rest == buf[length + 1..])
    ensures |buf| >= 5 ==> (Decode(buf).Invalid? <==> !Begins(buf[..5]))
  {
    if |buf| >= 5 {
      var length := FromBigEndian(buf[1..5]);
      if 4 <= length <= MAX_FRAME {
        HeaderBegins(buf[..5], length);
      } else {
        forall f: Frame | |f.body| + 4 <= 67_108_864
          ensures buf[..5] != Encode(f)[..5]
        {
          BigEndianRoundTrip(|f.body| + 4);
          assert Encode(f)[..5][1..5] == BigEndian(|f.body| + 4) && buf[..5][1..5] == buf[1..5];
        }
      }
    }
  }

  lemma HeaderBegins(header: Bytes, length: nat)
    requires |header| == 5 && length == FromBigEndian(header[1..5]) && 4 <= length <= MAX_FRAME
    ensures Begins(header)
  {
    var f := Frame(header[0], seq(length - 4, i => 0));
    BigEndianInverse(header[1..5]);
    assert Encode(f)[..5] == [header[0]] + header[1..5] == header[..5];
  }

  // ---- fragmentation ------------------------------------------------------

  /** Frames emitted plus the bytes left over are the bytes read. */
  lemma {:induction false} DecodeAllConserves(buf: Bytes)
    ensures var s := DecodeAll(buf);
            && EncodeAll(s.frames) + s.rest == buf
            && (forall f :: f in s.frames ==> Sendable(f))
            && !Decode(s.rest).Got?
    decreases |buf|
  {
    var d := Decode(buf);
    if d.Got? {
      DecodeIsLossless(buf);
      DecodeAllConserves(d.rest);
      var tail := DecodeAll(d.rest);
      assert ([d.frame] + tail.frames)[1..] == tail.frames;
      assert Encode(d.frame) + (EncodeAll(tail.frames) + tail.rest) == (Encode(d.frame) + EncodeAll(tail.frames)) + tail.rest;
    } else {
      assert [] + buf == buf;
    }
  }

  /** A stream of whole frames decodes to those frames and nothing is left. */
  lemma {:induction false} DecodeAllOfEncoded(fs: seq<Frame>)
    requires forall f :: f in fs ==> Sendable(f)
    ensures DecodeAll(EncodeAll(fs)) == Stream(fs, [])
  {
    if fs != [] {
      DecodeEncode(fs[0], EncodeAll(fs[1..]));
      DecodeAllOfEncoded(fs[1..]);
      assert [fs[0]] + fs[1..] == fs;
    }
  }

  /** Clean end of file is reported exactly for a concatenation of whole valid frames. */
  lemma CleanEofIffWholeFrames(buf: Bytes)
    ensures Finish(DecodeAll(buf).rest).EndOfFile? <==> DecodeAll(buf).rest == []
    ensures DecodeAll(buf).rest == [] <==>
            exists fs: seq<Frame> :: (forall f :: f in fs ==> Sendable(f)) && EncodeAll(fs) == buf
  {
    DecodeAllConserves(buf);
    if DecodeAll(buf).rest == [] {
      var fs := DecodeAll(buf).frames;
      assert EncodeAll(fs) + [] == EncodeAll(fs);
      assert (forall f :: f in fs ==> Sendable(f)) && EncodeAll(fs) == buf;
    }
    forall fs: seq<Frame> | (forall f :: f in fs ==> Sendable(f)) && EncodeAll(fs) == buf
      ensures DecodeAll(buf).rest == []
    {
      DecodeAllOfEncoded(fs);
    }
  }

  // ---- the reader ---------------------------------------------------------

  /** A socket: the pieces that successive reads will return; none left means end of file. */
  class Socket {
    var chunks: seq<Bytes>

    predicate Valid()
      reads this
    {
      forall i :: 0 <= i < |chunks| ==> chunks[i] != []
    }

    constructor (pieces: seq<Bytes>)
      requires forall i :: 0 <= i < |pieces| ==> pieces[i] != []
      ensures Valid() && chunks == pieces
    {
      chunks := pieces;
    }

    /** `read_buf`: an empty result is end of file. */
    method Read() returns (piece: Bytes)
      requires Valid()
      modifies this
      ensures Valid()
      ensures piece == [] <==> old(chunks) == []
      ensures Concat(old(chunks)) == piece + Concat(chunks)
      ensures old(chunks) == [] ==> chunks == []
      ensures old(chunks) != [] ==> |chunks| < |old(chunks)|
    {
      if chunks == [] {
        piece := [];
      } else {
        piece := chunks[0];
        chunks := chunks[1..];
      }
    }
  }

  datatype ReadResult = FrameRead(frame: Frame) | EndOfFile | BadLength | EofInsideFrame

  /** What `next` must answer when the bytes not yet consumed are `pending`. */
  function Answer(pending: Bytes): ReadResult {
    match Decode(pending)
    case Got(f, _) => FrameRead(f)
    case Invalid => BadLength
    case NeedMore => if pending == [] then EndOfFile else EofInsideFrame
  }

  function Unconsumed(pending: Bytes): Bytes {
    match Decode(pending)
    case Got(_, rest) => rest
    case _ => pending
  }

  /** How reading to the end finishes, by what decoding leaves over. */
  function Finish(rest: Bytes): ReadResult {
    if Decode(rest).Invalid? then BadLength else if rest == [] then EndOfFile else EofInsideFrame
  }

  lemma DecodeAllStep(done: seq<Frame>, pending: Bytes)
    ensures var after := DecodeAll(Unconsumed(pending));
            done + DecodeAll(pending).frames ==
            (if Answer(pending).FrameRead? then done + [Answer(pending).frame] + after.frames else done)
    ensures DecodeAll(pending).rest == DecodeAll(Unconsumed(pending)).rest
    ensures !Answer(pending).FrameRead? ==> DecodeAll(pending).rest == pending && Answer(pending) == Finish(pending)
  {
  }

  class FrameReader {
    var buffer: Bytes

    constructor ()
      ensures buffer == []
    {
      buffer := [];
    }

    /** `decode`: takes a whole frame off the front of the buffer, or leaves the buffer alone. */
    method TakeFrame() returns (d: Decoded)
      modifies this
      ensures d == Decode(old(buffer))
      ensures buffer == Unconsumed(old(buffer))
    {
      if |buffer| < 5 {
        return NeedMore;
      }
      var len := FromBigEndian(buffer[1..5]);
      if len < 4 || MAX_FRAME < len {
        return Invalid;
      }
      if |buffer| < len + 1 {
        return NeedMore;
      }
      var raw := buffer[..len + 1];
      buffer := buffer[len + 1..];
      assert raw[5..] == old(buffer)[5..len + 1];
      return Got(Frame(raw[0], raw[5..]), buffer);
    }

    /** `next`: the answer depends on the bytes outstanding, not on how reads will cut them. */
    method Next(source: Socket) returns (r: ReadResult)
      requires source.Valid()
      modifies this, source
      ensures source.Valid()
      ensures r == Answer(old(buffer + Concat(source.chunks)))
      ensures r.EndOfFile? <==> old(buffer + Concat(source.chunks)) == []
      ensures r.BadLength? <==> Decode(old(buffer + Concat(source.chunks))).Invalid?
      ensures r.FrameRead? ==> Encode(r.frame) + (buffer + Concat(source.chunks)) == old(buffer + Concat(source.chunks))
      ensures !r.FrameRead? ==> buffer + Concat(source.chunks) == old(buffer + Concat(source.chunks))
      ensures buffer + Concat(source.chunks) == Unconsumed(old(buffer + Concat(source.chunks)))
    {
      ghost var pending := buffer + Concat(source.chunks);
      if Decode(pending).Got? {
        DecodeIsLossless(pending);
      }
      while true
        invariant source.Valid()
        invariant buffer + Concat(source.chunks) == pending
        decreases |source.chunks|
      {
        var answer := Attempt(source);
        if answer.Some? {
          return answer.value;
        }
      }
    }

    /** `next`, dropped by its caller after at most `patience` reads because the other side had something
        first: what was read stays in the buffer, so nothing is lost and a later call takes up from there. */
    method NextUnlessCancelled(source: Socket, patience: nat) returns (r: Option<ReadResult>)
      requires source.Valid()
      modifies this, source
      ensures source.Valid()
      ensures r.None? ==> buffer + Concat(source.chunks) == old(buffer + Concat(source.chunks))
      ensures r.None? ==> |source.chunks| + patience <= |old(source.chunks)|
      ensures r.Some? ==> r.value == Answer(old(buffer + Concat(source.chunks)))
      ensures r.Some? ==> buffer + Concat(source.chunks) == Unconsumed(old(buffer + Concat(source.chunks)))
    {
      ghost var pending := buffer + Concat(source.chunks);
      for turn := 0 to patience
        invariant source.Valid() && |source.chunks| + turn <= |old(source.chunks)|
        invariant buffer + Concat(source.chunks) == pending
      {
        var d := Attempt(source);
        if d.Some? {
          return d;
        }
      }
      r := None;
    }

    /** One turn of the loop: decode, and read once more if that was not enough. */
    method Attempt(source: Socket) returns (r: Option<ReadResult>)
      requires source.Valid()
      modifies this, source
      ensures source.Valid()
      ensures r.None? ==> buffer + Concat(source.chunks) == old(buffer + Concat(source.chunks))
      ensures r.None? ==> |source.chunks| < |old(source.chunks)|
      ensures r.Some? ==> r.value == Answer(old(buffer + Concat(source.chunks)))
      ensures r.Some? ==> buffer + Concat(source.chunks) == Unconsumed(old(buffer + Concat(source.chunks)))
    {
      ghost var before := buffer;
      var d := TakeFrame();
      if !Decode(before).NeedMore? {
        DecodeIsStable(before, Concat(source.chunks));
      }
      match d {
        case Got(f, _) => return Some(FrameRead(f));
        case Invalid => return Some(BadLength);
        case NeedMore =>
      }
      var piece := source.Read();
      if piece == [] {
        assert buffer + [] == buffer;
        return Some(if buffer == [] then EndOfFile else EofInsideFrame);
      }
      buffer := buffer + piece;
      assert before + (piece + Concat(source.chunks)) == buffer + Concat(source.chunks);
      r := None;
    }

    /** Reading until the reader stops: however the bytes are cut, the frames and the ending are those of
        decoding the whole stream at once. */
    method ReadToEnd(source: Socket) returns (frames: seq<Frame>, ending: ReadResult)
      requires source.Valid()
      modifies this, source
      ensures frames == DecodeAll(old(buffer + Concat(source.chunks))).frames
      ensures ending == Finish(DecodeAll(old(buffer + Concat(source.chunks))).rest)
      ensures EncodeAll(frames) + (buffer + Concat(source.chunks)) == old(buffer + Concat(source.chunks))
    {
      ghost var whole := buffer + Concat(source.chunks);
      ghost var pending := whole;
      frames := [];
      DecodeAllConserves(whole);
      while true
        invariant source.Valid()
        invariant pending == buffer + Concat(source.chunks)
        invariant DecodeAll(whole) == Stream(frames + DecodeAll(pending).frames, DecodeAll(pending).rest)
        decreases |pending|
      {
        var r := Next(source);
        DecodeAllStep(frames, pending);
        pending := Unconsumed(pending);
        if !r.FrameRead? {
          return frames, r;
        }
        frames := frames + [r.frame];
      }
    }
  }
}
