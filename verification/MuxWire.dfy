/** The nine-byte mux frame header: type, 32-bit stream id, 32-bit length. */
module MuxWire {
  import opened Wrappers
  import opened Bytes
  import opened Conn
  import opened Framing

  type Id = n: int | 0 <= n < TWO_32

  const FRAME_OPEN: Byte := 1
  const FRAME_DATA: Byte := 2
  const FRAME_CLOSE: Byte := 3
  const HEADER := 9

  datatype Frame = Frame(kind: Byte, id: Id, payload: seq<Byte>)

  function Header(f: Frame): (h: seq<Byte>)
    ensures |h| == HEADER
  {
    [f.kind] + BigEndian(f.id, 4) + BigEndian(|f.payload|, 4)
  }

  function EncodeFrame(f: Frame): seq<Byte> {
    Header(f) + f.payload
  }

  function HeaderId(b: seq<Byte>): Id
    requires |b| >= HEADER
  {
    Pow256Values();
    FromBigEndianBound(b[1..5]);
    FromBigEndian(b[1..5])
  }

  function HeaderLength(b: seq<Byte>): nat
    requires |b| >= HEADER
  {
    FromBigEndian(b[5..9])
  }

  function DecodeFrame(b: seq<Byte>): Option<(Frame, nat)> {
    if |b| < HEADER then None
    else
      var n := HeaderLength(b);
      if |b| < HEADER + n then None
      else Some((Frame(b[0], HeaderId(b), b[HEADER..HEADER + n]), HEADER + n))
  }

  predicate FitsLength(f: Frame) {
    |f.payload| < TWO_32
  }

  const CODEC: Codec<Frame> := Codec(EncodeFrame, DecodeFrame)

  lemma HeaderRoundTrip(f: Frame, b: seq<Byte>)
    requires FitsLength(f) && Header(f) <= b
    ensures |b| >= HEADER && b[0] == f.kind && HeaderId(b) == f.id && HeaderLength(b) == |f.payload|
  {
    Pow256Values();
    BigEndianRoundTrip(f.id, 4);
    BigEndianRoundTrip(|f.payload|, 4);
    assert b[1..5] == Header(f)[1..5] == BigEndian(f.id, 4);
    assert b[5..9] == Header(f)[5..9] == BigEndian(|f.payload|, 4);
  }

  /** The nine bytes: type, then id and length with the byte that counts most first. */
  lemma HeaderLayout(f: Frame)
    requires FitsLength(f)
    ensures var h, n := Header(f), |f.payload|;
      && |h| == 9 && h[0] == f.kind
      && h[1..5] == [f.id / 256 / 256 / 256, f.id / 256 / 256 % 256, f.id / 256 % 256, f.id % 256]
      && h[5..9] == [n / 256 / 256 / 256, n / 256 / 256 % 256, n / 256 % 256, n % 256]
    ensures EncodeFrame(f)[9..] == f.payload && FRAME_OPEN == 1 && FRAME_DATA == 2 && FRAME_CLOSE == 3
  {
    BigEndianFour(f.id);
    BigEndianFour(|f.payload|);
    hide BigEndian;
  }

  lemma MuxFrameWhole(f: Frame, rest: seq<Byte>)
    requires FitsLength(f)
    ensures DecodeFrame(EncodeFrame(f) + rest) == Some((f, |EncodeFrame(f)|))
  {
    var b := EncodeFrame(f) + rest;
    assert b == Header(f) + (f.payload + rest);
    HeaderRoundTrip(f, b);
    assert b[HEADER..HEADER + |f.payload|] == f.payload;
  }

  lemma MuxFramePart(f: Frame, p: seq<Byte>)
    requires FitsLength(f) && p <= EncodeFrame(f) && p != EncodeFrame(f)
    ensures DecodeFrame(p).None?
  {
    if |p| >= HEADER {
      assert Header(f) <= p;
      HeaderRoundTrip(f, p);
    }
  }

  /** The header determines the frame: mux frames reassemble from any split. */
  lemma MuxCodecLawful()
    ensures Lawful(CODEC, FitsLength)
  {
    forall f, rest | FitsLength(f)
      ensures CODEC.decode(CODEC.encode(f) + rest) == Some((f, |CODEC.encode(f)|))
    {
      MuxFrameWhole(f, rest);
    }
    forall f, p | FitsLength(f) && p <= CODEC.encode(f) && p != CODEC.encode(f)
      ensures CODEC.decode(p).None?
    {
      MuxFramePart(f, p);
    }
  }

  // header, then payload: two writes, of which either may fail
  method PutFrame(conn: ByteConn, f: Frame) returns (ok: bool, ghost part: seq<Byte>)
    modifies conn`output, conn`dead
    ensures ok ==> !old(conn.dead) && !conn.dead && conn.output == old(conn.output) + EncodeFrame(f)
    ensures !ok ==> conn.dead && conn.output == old(conn.output) + part
    ensures !ok ==> part <= EncodeFrame(f) && part != EncodeFrame(f)
    ensures old(conn.dead) ==> !ok && conn.output == old(conn.output)
  {
    ghost var before := conn.output;
    ok := conn.Write(Header(f));
    part := conn.output[|before|..];
    if ok && |f.payload| > 0 {
      ghost var middle := conn.output;
      ok := conn.Write(f.payload);
      part := conn.output[|before|..];
      assert before + EncodeFrame(f) == middle + f.payload;
    }
  }
}
