/** WebSocket framing, sections 5.2 and 5.3 of RFC 6455: three length forms and an
    optional four-byte masking key. */
module WebSocket {
  import opened Wrappers
  import opened Bytes
  import opened Framing
  import opened Conn

  const FIN: Byte := 0x80
  const MASK_BIT := 0x80
  const MAX_FRAME := 0x7FFF_FFFF
  const MAX_PAYLOAD := 65535

  const OP_CONTINUE := 0x0
  const OP_TEXT := 0x1
  const OP_BINARY := 0x2
  const OP_CLOSE := 0x8
  const OP_PING := 0x9
  const OP_PONG := 0xA

  // first: the FIN bit, the reserved bits and the opcode
  datatype WsFrame = WsFrame(first: Byte, mask: Option<seq<Byte>>, payload: seq<Byte>)

  function Opcode(f: WsFrame): nat {
    f.first % 16
  }

  function MaskWith(mk: seq<Byte>, p: seq<Byte>): (m: seq<Byte>)
    requires |mk| == 4
    ensures |m| == |p|
  {
    seq(|p|, i requires 0 <= i < |p| => Xor(p[i], mk[i % 4]))
  }

  lemma MaskWithTwice(mk: seq<Byte>, p: seq<Byte>)
    requires |mk| == 4
    ensures MaskWith(mk, MaskWith(mk, p)) == p
  {
    forall i | 0 <= i < |p|
      ensures MaskWith(mk, MaskWith(mk, p))[i] == p[i]
    {
      XorTwice(p[i], mk[i % 4]);
    }
  }

  predicate ValidFrame(f: WsFrame) {
    |f.payload| <= MAX_FRAME && (f.mask.Some? ==> |f.mask.value| == 4)
  }

  // ---- the writer's three length forms ---------------------------------------------

  function MaskFlag(f: WsFrame): nat {
    if f.mask.Some? then MASK_BIT else 0
  }

  function LengthForm(flag: nat, n: nat): (s: seq<Byte>)
    requires flag == 0 || flag == MASK_BIT
    ensures |s| >= 1
  {
    if n < 126 then [flag + n]
    else if n <= MAX_16 then [flag + 126] + BigEndian(n, 2)
    else [flag + 127] + BigEndian(n, 8)
  }

  function WsHeader(f: WsFrame): seq<Byte> {
    [f.first] + LengthForm(MaskFlag(f), |f.payload|) + (if f.mask.Some? then f.mask.value else [])
  }

  function WsBody(f: WsFrame): seq<Byte>
    requires ValidFrame(f)
  {
    if f.mask.Some? then MaskWith(f.mask.value, f.payload) else f.payload
  }

  function EncodeWs(f: WsFrame): seq<Byte> {
    if ValidFrame(f) then WsHeader(f) + WsBody(f) else []
  }

  /** The mask bit with the length itself below 126, or 126 and two bytes of it, or 127 and
      eight, the one that counts most first. */
  lemma LengthLayout(f: WsFrame)
    requires ValidFrame(f)
    ensures var n, flag := |f.payload|, if f.mask.Some? then 128 else 0;
      LengthForm(MaskFlag(f), n) ==
        if n < 126 then [flag + n]
        else if n < 65536 then [flag + 126] + [n / 256, n % 256]
        else [flag + 127] + ([0, 0, 0, 0] + [n / 256 / 256 / 256, n / 256 / 256 % 256, n / 256 % 256, n % 256])
  {
    hide BigEndian;
    var n := |f.payload|;
    if 126 <= n <= MAX_16 {
      BigEndianTwo(n);
    } else if n > MAX_16 {
      BigEndianFour(n);
      BigEndianEight(n);
    }
  }

  /** A frame is its first byte, that length, the masking key if it has one, and the payload,
      each byte masked with the byte of the key at its position modulo four. */
  lemma FrameLayout(f: WsFrame)
    requires ValidFrame(f)
    ensures var head := [f.first] + LengthForm(MaskFlag(f), |f.payload|);
      var key := if f.mask.Some? then f.mask.value else [];
      var e := EncodeWs(f);
      && head + key <= e && |e| == |head + key| + |f.payload|
      && forall k :: 0 <= k < |f.payload| ==>
           e[|head + key| + k] == if key == [] then f.payload[k] else Xor(f.payload[k], key[k % 4])
  {
    hide Xor, LengthForm;
    var head := [f.first] + LengthForm(MaskFlag(f), |f.payload|);
    var key := if f.mask.Some? then f.mask.value else [];
    assert EncodeWs(f) == head + key + WsBody(f);
  }

  // ---- the reader ---------------------------------------------------------------------

  function ExtendedLength(n0: nat): nat {
    if n0 == 126 then 2 else if n0 == 127 then 8 else 0
  }

  // wsReadLen; None when the length is refused as too large
  function ReadLen(n0: nat, ext: seq<Byte>): Option<nat> {
    if n0 == 126 then Some(FromBigEndian(ext))
    else if n0 == 127 then
      var n := FromBigEndian(ext);
      if n > MAX_FRAME then None else Some(n)
    else Some(n0)
  }

  function DecodeWs(b: seq<Byte>): Option<(WsFrame, nat)> {
    if |b| < 2 then None
    else
      var n0, masked := b[1] % 128, b[1] >= MASK_BIT;
      var at := 2 + ExtendedLength(n0);
      if |b| < at then None
      else match ReadLen(n0, b[2..at])
        case None => None
        case Some(n) =>
          var body := if masked then at + 4 else at;
          if |b| < body + n then None
          else
            var payload := b[body..body + n];
            if masked then
              Some((WsFrame(b[0], Some(b[at..at + 4]), MaskWith(b[at..at + 4], payload)), body + n))
            else Some((WsFrame(b[0], None, payload), body + n))
  }

  const WS: Codec<WsFrame> := Codec(EncodeWs, DecodeWs)

  lemma LengthRoundTrip(f: WsFrame, b: seq<Byte>)
    requires ValidFrame(f) && [f.first] + LengthForm(MaskFlag(f), |f.payload|) <= b
    ensures |b| >= 2 && b[0] == f.first && (b[1] >= MASK_BIT <==> f.mask.Some?)
    ensures var n0 := b[1] % 128; var at := 2 + ExtendedLength(n0);
      && at == 1 + |LengthForm(MaskFlag(f), |f.payload|)| && at <= |b|
      && ReadLen(n0, b[2..at]) == Some(|f.payload|)
  {
    var n := |f.payload|;
    var l := LengthForm(MaskFlag(f), n);
    assert b[1] == l[0];
    Pow256Values();
    if 126 <= n <= MAX_16 {
      BigEndianRoundTrip(n, 2);
      assert b[2..4] == ([f.first] + l)[2..4] == BigEndian(n, 2);
    } else if n > MAX_16 {
      BigEndianRoundTrip(n, 8);
      assert b[2..10] == ([f.first] + l)[2..10] == BigEndian(n, 8);
    }
  }

  lemma WsWhole(f: WsFrame, rest: seq<Byte>)
    requires ValidFrame(f)
    ensures DecodeWs(EncodeWs(f) + rest) == Some((f, |EncodeWs(f)|))
  {
    var b := EncodeWs(f) + rest;
    var l := [f.first] + LengthForm(MaskFlag(f), |f.payload|);
    assert l <= b;
    LengthRoundTrip(f, b);
    var at, n := |l|, |f.payload|;
    if f.mask.Some? {
      var mk := f.mask.value;
      assert b == l + mk + WsBody(f) + rest;
      assert b[at..at + 4] == mk;
      assert b[at + 4..at + 4 + n] == WsBody(f);
      MaskWithTwice(mk, f.payload);
    } else {
      assert b[at..at + n] == f.payload;
    }
  }

  lemma WsPart(f: WsFrame, p: seq<Byte>)
    requires ValidFrame(f) && p <= EncodeWs(f) && p != EncodeWs(f)
    ensures DecodeWs(p).None?
  {
    var l := [f.first] + LengthForm(MaskFlag(f), |f.payload|);
    if l <= p {
      LengthRoundTrip(f, p);
    } else if |p| >= 2 {
      assert p[1] == l[1];
      assert |p| < |l|;
      LengthRoundTrip(f, l);
    }
  }

  /** Parsing undoes every length form and both masking modes. */
  lemma WsLawful()
    ensures Lawful(WS, ValidFrame)
  {
    forall f, rest | ValidFrame(f)
      ensures WS.decode(WS.encode(f) + rest) == Some((f, |WS.encode(f)|))
    {
      WsWhole(f, rest);
    }
    forall f, p | ValidFrame(f) && p <= WS.encode(f) && p != WS.encode(f)
      ensures WS.decode(p).None?
    {
      WsPart(f, p);
    }
  }

  // ---- what a sequence of frames means to Read -----------------------------------------

  function Piece(f: WsFrame): seq<Byte> {
    if Opcode(f) == OP_CONTINUE || Opcode(f) == OP_TEXT || Opcode(f) == OP_BINARY then f.payload else []
  }

  /** The data payloads up to the first close frame. */
  function DataOf(fs: seq<WsFrame>): seq<Byte> {
    if fs == [] || Opcode(fs[0]) == OP_CLOSE then []
    else Piece(fs[0]) + DataOf(fs[1..])
  }

  lemma {:induction false} DataOfPrefix(a: seq<WsFrame>, b: seq<WsFrame>)
    requires a <= b
    ensures DataOf(a) <= DataOf(b)
  {
    if a != [] && Opcode(a[0]) != OP_CLOSE {
      DataOfPrefix(a[1..], b[1..]);
    }
  }

  /** What one frame adds to the data, by the low four bits of its first byte: its payload
      for 0, 1 and 2; nothing at all from it or after it for 8; nothing for any other. */
  lemma FrameMeans(f: WsFrame, b: seq<WsFrame>)
    ensures f.first % 16 <= 2 ==> DataOf([f] + b) == f.payload + DataOf(b)
    ensures f.first % 16 == 8 ==> DataOf([f] + b) == []
    ensures f.first % 16 > 2 && f.first % 16 != 8 ==> DataOf([f] + b) == DataOf(b)
  {
    assert ([f] + b)[1..] == b;
  }

  /** A ping, a pong, a frame of an unknown opcode or an empty frame anywhere in the
      sequence makes no difference to what Read returns. */
  lemma {:induction false} ControlFramesInvisible(a: seq<WsFrame>, f: WsFrame, b: seq<WsFrame>)
    requires f.first % 16 != 8 && (f.first % 16 > 2 || f.payload == [])
    ensures DataOf(a + [f] + b) == DataOf(a + b)
  {
    if a == [] {
      assert a + [f] + b == [f] + b && a + b == b;
      assert ([f] + b)[1..] == b;
    } else {
      assert (a + [f] + b)[1..] == a[1..] + [f] + b;
      assert (a + b)[1..] == a[1..] + b;
      ControlFramesInvisible(a[1..], f, b);
    }
  }

  /** What stands behind a close frame is never read. */
  lemma {:induction false} CloseEndsData(a: seq<WsFrame>, f: WsFrame, b: seq<WsFrame>)
    requires f.first % 16 == 8
    ensures DataOf(a + [f] + b) == DataOf(a)
  {
    if a == [] {
      assert a + [f] + b == [f] + b;
      FrameMeans(f, b);
    } else {
      assert (a + [f] + b)[1..] == a[1..] + [f] + b;
      CloseEndsData(a[1..], f, b);
    }
  }

  function Payloads(fs: seq<WsFrame>): (ps: seq<seq<Byte>>)
    ensures |ps| == |fs|
    ensures forall i :: 0 <= i < |fs| ==> ps[i] == fs[i].payload
  {
    seq(|fs|, i requires 0 <= i < |fs| => fs[i].payload)
  }

  ghost predicate AllBinary(fs: seq<WsFrame>, masked: bool) {
    forall i :: 0 <= i < |fs| ==>
      ValidFrame(fs[i]) && fs[i].first == FIN + OP_BINARY && (fs[i].mask.Some? <==> masked)
  }

  lemma {:induction false} BinaryData(fs: seq<WsFrame>, masked: bool)
    requires AllBinary(fs, masked)
    ensures DataOf(fs) == Concat(Payloads(fs))
  {
    if fs != [] {
      BinaryData(fs[1..], masked);
      assert Payloads(fs)[1..] == Payloads(fs[1..]);
      assert Opcode(fs[0]) == OP_BINARY;
    }
  }

  /** Round trip.  From any part of the wire of any sequence of valid frames, Read
      gives a prefix of the data payloads up to the first close frame, and all of
      them once everything has arrived. */
  lemma WsRoundTrip(fs: seq<WsFrame>, tail: seq<Byte>, arrived: seq<Byte>)
    requires AllValid(fs, ValidFrame) && NeverComplete(WS, tail)
    requires arrived <= EncodeAll(WS, fs) + tail
    ensures DataOf(DecodeAll(WS, arrived)) <= DataOf(fs)
    ensures EncodeAll(WS, fs) <= arrived ==> DataOf(DecodeAll(WS, arrived)) == DataOf(fs)
  {
    WsLawful();
    Reassembly(WS, ValidFrame, fs, tail, arrived);
    DataOfPrefix(DecodeAll(WS, arrived), fs);
  }

  // ---- wsFrameConn -----------------------------------------------------------------------

  class WsConn {
    const conn: ByteConn
    const isClient: bool
    var rbuf: seq<Byte>

    constructor (conn: ByteConn, isClient: bool)
      ensures this.conn == conn && this.isClient == isClient && rbuf == []
    {
      this.conn, this.isClient := conn, isClient;
      rbuf := [];
    }

    method MaskInPlace(b: array<Byte>, mk: seq<Byte>)
      requires |mk| == 4
      modifies b
      ensures b[..] == MaskWith(mk, old(b[..]))
    {
      for i := 0 to b.Length
        invariant forall j :: 0 <= j < i ==> b[j] == Xor(old(b[j]), mk[j % 4])
        invariant forall j :: i <= j < b.Length ==> b[j] == old(b[j])
      {
        b[i] := Xor(b[i], mk[i % 4]);
      }
    }

    method Masked(p: seq<Byte>, mk: seq<Byte>) returns (m: seq<Byte>)
      requires |mk| == 4
      ensures m == MaskWith(mk, p)
    {
      var a := new Byte[|p|](i requires 0 <= i < |p| => p[i]);
      assert a[..] == p;
      MaskInPlace(a, mk);
      m := a[..];
    }

    // the masking key is random: any four bytes
    method RandomKey() returns (mk: seq<Byte>)
      ensures |mk| == 4
    {
      var a: Byte, b: Byte, c: Byte, d: Byte := *, *, *, *;
      mk := [a, b, c, d];
    }

    /** writeFrame: a client masks, a server does not.  When it fails a proper part of the
        frame is out, unless all of it is and it is the empty masked payload that failed. */
    method WriteFrame(opcode: Byte, payload: seq<Byte>) returns (ok: bool, ghost f: WsFrame)
      requires opcode < 16 && |payload| <= MAX_FRAME
      modifies conn`output, conn`dead
      ensures ValidFrame(f) && f.first == FIN + opcode && f.payload == payload && (f.mask.Some? <==> isClient)
      ensures ok ==> conn.output == old(conn.output) + EncodeWs(f) && !conn.dead
      ensures !ok ==> conn.dead && old(conn.output) <= conn.output <= old(conn.output) + EncodeWs(f)
      ensures old(conn.dead) ==> !ok && conn.output == old(conn.output)
      ensures !ok && (payload != [] || !isClient) ==> conn.output != old(conn.output) + EncodeWs(f)
    {
      var head := [FIN + opcode] + LengthForm(if isClient then MASK_BIT else 0, |payload|);
      if !isClient {
        f := WsFrame(FIN + opcode, None, payload);
        ok := WriteTwo(head, payload);
      } else {
        var mk := RandomKey();
        f := WsFrame(FIN + opcode, Some(mk), payload);
        var masked := Masked(payload, mk);
        ok := WriteThree(head, mk, masked);
      }
    }

    method WriteTwo(a: seq<Byte>, b: seq<Byte>) returns (ok: bool)
      requires a != []
      modifies conn`output, conn`dead
      ensures ok ==> conn.output == old(conn.output) + ((a + []) + b) && !conn.dead
      ensures !ok ==> conn.dead && old(conn.output) <= conn.output <= old(conn.output) + ((a + []) + b)
      ensures !ok ==> conn.output != old(conn.output) + ((a + []) + b)
      ensures old(conn.dead) ==> !ok && conn.output == old(conn.output)
    {
      ok := conn.Write(a);
      if ok && b != [] {
        ok := conn.Write(b);
      }
    }

    method WriteThree(a: seq<Byte>, b: seq<Byte>, c: seq<Byte>) returns (ok: bool)
      requires a != [] && b != []
      modifies conn`output, conn`dead
      ensures ok ==> conn.output == old(conn.output) + ((a + b) + c) && !conn.dead
      ensures !ok ==> conn.dead && old(conn.output) <= conn.output <= old(conn.output) + ((a + b) + c)
      ensures !ok && c != [] ==> conn.output != old(conn.output) + ((a + b) + c)
      ensures old(conn.dead) ==> !ok && conn.output == old(conn.output)
    {
      ok := conn.Write(a);
      if ok {
        ok := conn.Write(b);
      }
      if ok {
        ok := conn.Write(c);
      }
    }

    /** Write: binary frames of at most 65535 bytes whose payloads are the pieces of the
        argument, all of them; or the first few, the connection then being dead and what
        is out of the next frame never completing. */
    method Write(p: seq<Byte>) returns (ok: bool, ghost fs: seq<WsFrame>, ghost part: seq<Byte>)
      modifies conn`output, conn`dead
      ensures AllBinary(fs, isClient) && conn.output == old(conn.output) + (EncodeAll(WS, fs) + part)
      ensures ok ==> Payloads(fs) == Split(p, 65535) && part == [] && conn.dead == old(conn.dead)
      ensures !ok ==> conn.dead && |fs| < |Split(p, MAX_PAYLOAD)| && Payloads(fs) == Split(p, MAX_PAYLOAD)[..|fs|]
      ensures !ok ==> NeverComplete(WS, part)
      ensures old(conn.dead) ==> fs == [] && part == [] && (ok <==> p == [])
    {
      ghost var cs, before := Split(p, MAX_PAYLOAD), conn.output;
      var rest := p;
      ok, fs, part := true, [], [];
      while rest != []
        invariant ok && part == [] && Sofar(rest, fs, cs) && conn.dead == old(conn.dead)
        invariant conn.output == before + (EncodeAll(WS, fs) + part)
        invariant old(conn.dead) ==> fs == [] && rest == p
        decreases |rest|
      {
        ok, rest, fs, part := WriteNext(rest, fs, cs, before);
        if !ok {
          return;
        }
      }
    }

    // the frames sent hold the first pieces; the rest splits into the others
    ghost predicate Sofar(rest: seq<Byte>, fs: seq<WsFrame>, cs: seq<seq<Byte>>) {
      && |fs| <= |cs| && Split(rest, MAX_PAYLOAD) == cs[|fs|..]
      && AllBinary(fs, isClient) && Payloads(fs) == cs[..|fs|]
    }

    method WriteNext(rest: seq<Byte>, ghost fs: seq<WsFrame>, ghost cs: seq<seq<Byte>>, ghost before: seq<Byte>)
        returns (ok: bool, rest': seq<Byte>, ghost gs: seq<WsFrame>, ghost part: seq<Byte>)
      requires rest != [] && Sofar(rest, fs, cs)
      requires conn.output == before + (EncodeAll(WS, fs) + [])
      modifies conn`output, conn`dead
      ensures |rest'| < |rest| && AllBinary(gs, isClient)
      ensures conn.output == before + (EncodeAll(WS, gs) + part)
      ensures ok ==> Sofar(rest', gs, cs) && part == [] && conn.dead == old(conn.dead)
      ensures !ok ==> gs == fs && |fs| < |cs| && conn.dead && NeverComplete(WS, part)
      ensures old(conn.dead) ==> !ok && part == []
    {
      var chunk := if |rest| > MAX_PAYLOAD then rest[..MAX_PAYLOAD] else rest;
      SplitFront(rest, chunk, cs, |fs|, MAX_PAYLOAD);
      rest' := rest[|chunk|..];
      ok, gs, part := WriteChunk(chunk, fs, before);
    }

    method WriteChunk(chunk: seq<Byte>, ghost fs: seq<WsFrame>, ghost before: seq<Byte>)
        returns (ok: bool, ghost gs: seq<WsFrame>, ghost part: seq<Byte>)
      requires 0 < |chunk| <= MAX_PAYLOAD && AllBinary(fs, isClient)
      requires conn.output == before + (EncodeAll(WS, fs) + [])
      modifies conn`output, conn`dead
      ensures AllBinary(gs, isClient) && conn.output == before + (EncodeAll(WS, gs) + part)
      ensures ok ==> |gs| == |fs| + 1 && Payloads(gs) == Payloads(fs) + [chunk]
      ensures ok ==> part == [] && conn.dead == old(conn.dead)
      ensures !ok ==> gs == fs && conn.dead && NeverComplete(WS, part)
      ensures old(conn.dead) ==> !ok && part == []
    {
      hide EncodeAll, EncodeWs, NeverComplete, Lawful, Payloads;
      ghost var f;
      ghost var was := conn.output;
      ok, f := WriteFrame(OP_BINARY, chunk);
      if ok {
        gs, part := fs + [f], [];
        OneFrameMore(before, fs, f);
        PayloadsAppend(fs, f);
      } else {
        gs, part := fs, conn.output[|was|..];
        WsLawful();
        PartOfFrameNeverComplete(WS, ValidFrame, f, part);
      }
    }

    /** Everything Read will still hand over before it reports end of file. */
    ghost function Ahead(): seq<Byte>
      reads this, conn
    {
      rbuf + DataOf(DecodeAll(WS, conn.input))
    }

    // header, length, key and payload of the next frame
    method ReadFrame() returns (f: Option<WsFrame>)
      modifies conn`input
      ensures f.None? <==> DecodeWs(old(conn.input)).None?
      ensures f.Some? ==> var (g, n) := DecodeWs(old(conn.input)).value;
        f.value == g && 0 < n <= |old(conn.input)| && conn.input == old(conn.input)[n..]
      ensures f.Some? ==> |f.value.payload| <= MAX_FRAME
    {
      ghost var b := conn.input;
      var ok, h := conn.ReadFull(2);
      if !ok {
        return None;
      }
      var n0, masked := h[1] % 128, h[1] >= MASK_BIT;
      var ext;
      ok, ext := conn.ReadFull(ExtendedLength(n0));
      if !ok {
        return None;
      }
      ghost var at := 2 + ExtendedLength(n0);
      assert b == h + ext + conn.input && b[2..at] == ext;
      var len := ReadLen(n0, ext);
      if len.None? {
        return None;
      }
      ReadLenBound(n0, ext);
      f := ReadBody(h[0], masked, len.value, b, at);
    }

    method ReadBody(first: Byte, masked: bool, n: nat, ghost b: seq<Byte>, ghost at: nat) returns (f: Option<WsFrame>)
      requires at <= |b| && conn.input == b[at..]
      modifies conn`input
      ensures var body := if masked then at + 4 else at;
        && (f.None? <==> |b| < body + n)
        && (f.Some? ==>
              && conn.input == b[body + n..]
              && f.value == (if masked then
                               WsFrame(first, Some(b[at..at + 4]), MaskWith(b[at..at + 4], b[body..body + n]))
                             else WsFrame(first, None, b[body..body + n])))
    {
      var ok, mk := true, [];
      if masked {
        ok, mk := conn.ReadFull(4);
        if !ok {
          return None;
        }
        assert b[at..at + 4] == mk && conn.input == b[at + 4..];
      }
      ghost var body := if masked then at + 4 else at;
      var payload;
      ok, payload := conn.ReadFull(n);
      if !ok {
        return None;
      }
      assert payload == b[body..body + n];
      if masked {
        payload := Masked(payload, mk);
        f := Some(WsFrame(first, Some(mk), payload));
      } else {
        f := Some(WsFrame(first, None, payload));
      }
    }

    /** readNextDataFrame: a ping is answered with a pong of its payload, a failure to
        answer is ignored, and nothing else is written. */
    method ReadNextDataFrame() returns (ok: bool, ghost pong: Option<WsFrame>)
      requires rbuf == []
      modifies this`rbuf, conn
      ensures ok ==> Ahead() == old(Ahead()) && |conn.input| < |old(conn.input)|
      ensures !ok ==> old(Ahead()) == [] && rbuf == []
      ensures pong.Some? <==> DecodeWs(old(conn.input)).Some? && Opcode(DecodeWs(old(conn.input)).value.0) == OP_PING
      ensures pong.None? ==> conn.output == old(conn.output)
      ensures pong.Some? ==> var (f, g) := (DecodeWs(old(conn.input)).value.0, pong.value);
        && ValidFrame(g) && g.first == FIN + OP_PONG && g.payload == f.payload
        && old(conn.output) <= conn.output <= old(conn.output) + EncodeWs(g)
        && (conn.dead || conn.output == old(conn.output) + EncodeWs(g))
    {
      pong := None;
      ghost var b := conn.input;
      var f := ReadFrame();
      if f.None? {
        return false, None;
      }
      DecodeFront(b, f.value, conn.input);
      var opcode := Opcode(f.value);
      if opcode == OP_TEXT || opcode == OP_BINARY || opcode == OP_CONTINUE {
        rbuf := f.value.payload;
      } else if opcode == OP_CLOSE {
        return false, None;
      } else if opcode == OP_PING {
        ghost var g;
        var answered;
        answered, g := WriteFrame(OP_PONG, f.value.payload);
        pong := Some(g);
      }
      ok := true;
    }

    /** Read hands over the next data bytes; end of file only when none are left before
        the first close frame. */
    method Read(room: nat) returns (ok: bool, chunk: seq<Byte>)
      modifies this`rbuf, conn
      ensures ok ==> chunk + Ahead() == old(Ahead())
      ensures |chunk| <= room && (ok && room > 0 ==> chunk != [])
      ensures !ok ==> chunk == [] && old(Ahead()) == []
      ensures old(conn.output) <= conn.output
    {
      chunk := [];
      while rbuf == []
        invariant Ahead() == old(Ahead()) && old(conn.output) <= conn.output && chunk == []
        decreases |rbuf| == 0, |conn.input|
      {
        ghost var pong;
        ok, pong := ReadNextDataFrame();
        if !ok {
          return;
        }
      }
      var n := if room <= |rbuf| then room else |rbuf|;
      ok, chunk := true, rbuf[..n];
      rbuf := rbuf[n..];
    }
  }

  lemma ReadLenBound(n0: nat, ext: seq<Byte>)
    requires n0 < 128 && |ext| == ExtendedLength(n0)
    ensures ReadLen(n0, ext).Some? ==> ReadLen(n0, ext).value <= MAX_FRAME
  {
    Pow256Values();
    FromBigEndianBound(ext);
  }

  lemma PayloadsAppend(fs: seq<WsFrame>, f: WsFrame)
    ensures Payloads(fs + [f]) == Payloads(fs) + [f.payload]
  {
  }

  lemma DecodeFront(b: seq<Byte>, f: WsFrame, rest: seq<Byte>)
    requires DecodeWs(b) == Some((f, |b| - |rest|)) && |rest| < |b| && b[|b| - |rest|..] == rest
    ensures DecodeAll(WS, b) == [f] + DecodeAll(WS, rest)
    ensures DataOf(DecodeAll(WS, b)) ==
      if Opcode(f) == OP_CLOSE then [] else Piece(f) + DataOf(DecodeAll(WS, rest))
  {
    assert ([f] + DecodeAll(WS, rest))[1..] == DecodeAll(WS, rest);
  }

  lemma OneFrameMore(before: seq<Byte>, fs: seq<WsFrame>, f: WsFrame)
    ensures before + (EncodeAll(WS, fs + [f]) + []) == before + (EncodeAll(WS, fs) + []) + EncodeWs(f)
  {
    EncodeAllAppend(WS, fs, [f]);
    EncodeAllSingle(WS, f);
  }
}
