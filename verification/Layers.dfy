/** The layers composed.  A pipe between the two ends of the multiplexer is a raw
    connection, Slipstream over one, or WebSocket over one.  Each is a reliable byte
    stream: a write extends what went in or breaks the pipe part way, and what comes out
    is a prefix of what went in.  Hence a run of the two ends over such pipes is a run of
    MuxModel, and datagrams sent on a stream of the multiplexer come out as a prefix of
    the same list. */
module Layers {
  import opened Wrappers
  import opened Bytes
  import opened Framing
  import opened Prefixed
  import opened MuxWire
  import opened MuxModel
  import opened MuxRuns
  import opened Conn
  import S = Slipstream
  import W = WebSocket
  import P = Preamble
  import D = Datagrams

  // what has been put on a pipe, layer by layer, whether a write to it has failed or it
  // was closed, and the raw bytes that have arrived
  datatype Pipe =
    | Raw(sent: seq<Byte>, broken: bool, arrived: seq<Byte>)
    | Slip(key: S.Key, chunks: seq<seq<Byte>>, tail: seq<Byte>, broken: bool, arrived: seq<Byte>)
    | Ws(frames: seq<W.WsFrame>, tail: seq<Byte>, broken: bool, arrived: seq<Byte>)

  /** The raw bytes on the connection under the pipe. */
  function OnWire(p: Pipe): seq<Byte> {
    match p
    case Raw(sent, _, _) => sent
    case Slip(key, chunks, tail, _, _) => S.Cipher(key, 0, chunks) + tail
    case Ws(frames, tail, _, _) => EncodeAll(W.WS, frames) + tail
  }

  predicate NoClose(frames: seq<W.WsFrame>) {
    forall i :: 0 <= i < |frames| ==> W.Opcode(frames[i]) != W.OP_CLOSE
  }

  /** A pipe that is not broken ends at a chunk or frame boundary; the part behind the last
      one of a broken pipe never completes. */
  ghost predicate PipeOk(p: Pipe) {
    && p.arrived <= OnWire(p)
    && (match p
        case Raw(_, _, _) => true
        case Slip(_, chunks, tail, broken, _) =>
          AllValid(chunks, FitsPrefix) && NeverComplete(PREFIXED, tail) && (!broken ==> tail == [])
        case Ws(frames, tail, broken, _) =>
          && AllValid(frames, W.ValidFrame) && NeverComplete(W.WS, tail)
          && (!broken ==> tail == [] && NoClose(frames)))
  }

  /** What went into the pipe at its near end, and what has come out at its far end. */
  function In(p: Pipe): seq<Byte> {
    match p
    case Raw(sent, _, _) => sent
    case Slip(_, chunks, _, _, _) => Concat(chunks)
    case Ws(frames, _, _, _) => W.DataOf(frames)
  }

  function Out(p: Pipe): seq<Byte> {
    match p
    case Raw(_, _, arrived) => arrived
    case Slip(key, _, _, _, arrived) => S.Plain(key, 0, arrived)
    case Ws(_, _, _, arrived) => W.DataOf(DecodeAll(W.WS, arrived))
  }

  /** Every kind of pipe is a reliable byte stream. */
  lemma PipeDeliversPrefix(p: Pipe)
    requires PipeOk(p)
    ensures Out(p) <= In(p)
    ensures p.arrived == OnWire(p) ==> Out(p) == In(p)
  {
    match p
    case Raw(_, _, _) =>
    case Slip(key, chunks, tail, _, arrived) => S.SlipRoundTrip(key, 0, chunks, tail, arrived);
    case Ws(frames, tail, _, arrived) => W.WsRoundTrip(frames, tail, arrived);
  }

  // ---- bytes arriving ------------------------------------------------------------------

  // more raw bytes have arrived on the same pipe
  ghost predicate Grew(p: Pipe, q: Pipe) {
    p.arrived <= q.arrived <= OnWire(p) && q == p.(arrived := q.arrived)
  }

  lemma SlipGrows(key: S.Key, chunks: seq<seq<Byte>>, tail: seq<Byte>, a: seq<Byte>, b: seq<Byte>)
    requires AllValid(chunks, FitsPrefix) && NeverComplete(PREFIXED, tail)
    requires a <= b <= S.Cipher(key, 0, chunks) + tail
    ensures S.Plain(key, 0, a) <= S.Plain(key, 0, b)
  {
    hide S.Advance, EncodeAll, NeverComplete, AllValid, Lawful, DecodeAll, Concat;
    PrefixedLawful();
    S.MaskedFit(key, 0, chunks);
    var more := b[|a|..];
    assert a + more == b;
    ReassemblyGrows(PREFIXED, FitsPrefix, S.MaskAll(key, 0, chunks), tail, a, more);
    var x, y := DecodeAll(PREFIXED, a), DecodeAll(PREFIXED, b);
    assert y == x + y[|x|..];
    S.MaskAllAppend(key, 0, x, y[|x|..]);
    ConcatAppend(S.MaskAll(key, 0, x), S.MaskAll(key, S.Advance(0, |Concat(x)|), y[|x|..]));
  }

  lemma WsGrows(frames: seq<W.WsFrame>, tail: seq<Byte>, a: seq<Byte>, b: seq<Byte>)
    requires AllValid(frames, W.ValidFrame) && NeverComplete(W.WS, tail)
    requires a <= b <= EncodeAll(W.WS, frames) + tail
    ensures W.DataOf(DecodeAll(W.WS, a)) <= W.DataOf(DecodeAll(W.WS, b))
  {
    W.WsLawful();
    var more := b[|a|..];
    assert a + more == b;
    ReassemblyGrows(W.WS, W.ValidFrame, frames, tail, a, more);
    W.DataOfPrefix(DecodeAll(W.WS, a), DecodeAll(W.WS, b));
  }

  lemma OutGrows(p: Pipe, q: Pipe)
    requires PipeOk(p) && Grew(p, q)
    ensures PipeOk(q) && In(q) == In(p) && Out(p) <= Out(q)
  {
    match p
    case Raw(_, _, _) =>
    case Slip(key, chunks, tail, _, arrived) => SlipGrows(key, chunks, tail, arrived, q.arrived);
    case Ws(frames, tail, _, arrived) => WsGrows(frames, tail, arrived, q.arrived);
  }

  // ---- writing ---------------------------------------------------------------------------

  // the frames b go onto a pipe that has carried the frames a
  ghost predicate FramesAdded(a: seq<W.WsFrame>, b: seq<W.WsFrame>, more: seq<Byte>) {
    && a <= b
    && (var added := b[|a|..]; AllValid(added, W.ValidFrame) && NoClose(added) && W.DataOf(added) == more)
  }

  ghost predicate ChunksAdded(a: seq<seq<Byte>>, b: seq<seq<Byte>>, more: seq<Byte>) {
    && a <= b
    && (var added := b[|a|..]; AllValid(added, FitsPrefix) && Concat(added) == more)
  }

  /** A write: the layer cuts `more` into chunks or frames as it likes, with a broken part
      behind them exactly when the write failed; on a broken pipe it fails and puts out
      nothing. */
  ghost predicate PipeWrote(p: Pipe, q: Pipe, more: seq<Byte>, failed: bool) {
    if p.broken then failed && more == [] && q == p
    else
      && q.broken == failed && q.arrived == p.arrived
      && (match (p, q)
          case (Raw(a, _, _), Raw(b, _, _)) => b == a + more
          case (Slip(j, a, _, _, _), Slip(k, b, tail, _, _)) =>
            j == k && ChunksAdded(a, b, more) && NeverComplete(PREFIXED, tail) && (!failed ==> tail == [])
          case (Ws(a, _, _, _), Ws(b, tail, _, _)) =>
            FramesAdded(a, b, more) && NeverComplete(W.WS, tail) && (!failed ==> tail == [])
          case _ => false)
  }

  lemma DataOfFront(a: seq<W.WsFrame>)
    ensures W.DataOf([]) == []
    ensures a != [] && W.Opcode(a[0]) != W.OP_CLOSE ==> W.DataOf(a) == W.Piece(a[0]) + W.DataOf(a[1..])
  {
  }

  lemma {:induction false} DataOfAppend(a: seq<W.WsFrame>, b: seq<W.WsFrame>)
    requires NoClose(a)
    ensures W.DataOf(a + b) == W.DataOf(a) + W.DataOf(b)
    decreases |a|
  {
    hide W.DataOf, W.Piece, W.Opcode;
    DataOfFront(a);
    if a == [] {
      assert a + b == b;
      assert [] + W.DataOf(b) == W.DataOf(b);
    } else {
      DataOfFront(a + b);
      assert (a + b)[0] == a[0] && (a + b)[1..] == a[1..] + b;
      DataOfAppend(a[1..], b);
      Assoc(W.Piece(a[0]), W.DataOf(a[1..]), W.DataOf(b));
    }
  }

  lemma CipherAppend(key: S.Key, a: seq<seq<Byte>>, b: seq<seq<Byte>>)
    ensures S.Cipher(key, 0, a + b) == S.Cipher(key, 0, a) + S.Cipher(key, S.Advance(0, |Concat(a)|), b)
  {
    S.MaskAllAppend(key, 0, a, b);
    EncodeAllAppend(PREFIXED, S.MaskAll(key, 0, a), S.MaskAll(key, S.Advance(0, |Concat(a)|), b));
  }

  lemma SlipWrote(p: Pipe, q: Pipe, more: seq<Byte>, failed: bool)
    requires PipeOk(p) && !p.broken && PipeWrote(p, q, more, failed) && p.Slip?
    ensures PipeOk(q) && In(q) == In(p) + more && OnWire(p) <= OnWire(q)
  {
    var added := q.chunks[|p.chunks|..];
    assert q.chunks == p.chunks + added;
    ConcatAppend(p.chunks, added);
    CipherAppend(p.key, p.chunks, added);
    hide NeverComplete;
    assert OnWire(p) == S.Cipher(p.key, 0, p.chunks);
  }

  lemma FramesJoin(a: seq<W.WsFrame>, b: seq<W.WsFrame>)
    requires AllValid(a, W.ValidFrame) && NoClose(a) && AllValid(b, W.ValidFrame) && NoClose(b)
    ensures AllValid(a + b, W.ValidFrame) && NoClose(a + b)
    ensures W.DataOf(a + b) == W.DataOf(a) + W.DataOf(b)
    ensures EncodeAll(W.WS, a) <= EncodeAll(W.WS, a + b)
  {
    DataOfAppend(a, b);
    EncodeAllAppend(W.WS, a, b);
  }

  lemma WsWrote(p: Pipe, q: Pipe, more: seq<Byte>, failed: bool)
    requires PipeOk(p) && !p.broken && PipeWrote(p, q, more, failed) && p.Ws?
    ensures PipeOk(q) && In(q) == In(p) + more && OnWire(p) <= OnWire(q)
  {
    hide NoClose, AllValid, NeverComplete, EncodeAll;
    var added := q.frames[|p.frames|..];
    assert q.frames == p.frames + added;
    FramesJoin(p.frames, added);
    assert OnWire(p) == EncodeAll(W.WS, p.frames);
  }

  /** A write keeps a pipe well formed and adds exactly its bytes to what went in. */
  lemma WriteExtends(p: Pipe, q: Pipe, more: seq<Byte>, failed: bool)
    requires PipeOk(p) && PipeWrote(p, q, more, failed)
    ensures PipeOk(q) && In(q) == In(p) + more && Out(q) == Out(p) && OnWire(p) <= OnWire(q)
  {
    if p.broken {
      assert In(p) + more == In(p);
    } else if p.Slip? {
      SlipWrote(p, q, more, failed);
    } else if p.Ws? {
      WsWrote(p, q, more, failed);
    }
  }

  // two writes in a row are one
  lemma WroteTwice(p: Pipe, q: Pipe, r: Pipe, a: seq<Byte>, b: seq<Byte>, failed: bool)
    requires PipeWrote(p, q, a, false) && PipeWrote(q, r, b, failed)
    ensures PipeWrote(p, r, a + b, failed)
  {
    hide ChunksAdded, FramesAdded, NeverComplete;
    match (p, q, r)
    case (Raw(_, _, _), Raw(_, _, _), Raw(_, _, _)) =>
    case (Slip(_, x, _, _, _), Slip(_, y, _, _, _), Slip(_, z, _, _, _)) => ChunksTwice(x, y, z, a, b);
    case (Ws(x, _, _, _), Ws(y, _, _, _), Ws(z, _, _, _)) => FramesTwice(x, y, z, a, b);
  }

  lemma ChunksTwice(x: seq<seq<Byte>>, y: seq<seq<Byte>>, z: seq<seq<Byte>>, a: seq<Byte>, b: seq<Byte>)
    requires ChunksAdded(x, y, a) && ChunksAdded(y, z, b)
    ensures ChunksAdded(x, z, a + b)
  {
    assert z[|x|..] == y[|x|..] + z[|y|..];
    ConcatAppend(y[|x|..], z[|y|..]);
  }

  lemma FramesTwice(x: seq<W.WsFrame>, y: seq<W.WsFrame>, z: seq<W.WsFrame>, a: seq<Byte>, b: seq<Byte>)
    requires FramesAdded(x, y, a) && FramesAdded(y, z, b)
    ensures FramesAdded(x, z, a + b)
  {
    assert z[|x|..] == y[|x|..] + z[|y|..];
    FramesJoin(y[|x|..], z[|y|..]);
  }

  // ---- a write is always to be had -----------------------------------------------------------

  function Binary(cs: seq<seq<Byte>>): (fs: seq<W.WsFrame>)
    ensures |fs| == |cs|
    ensures forall i :: 0 <= i < |cs| ==> fs[i] == W.WsFrame(W.FIN + W.OP_BINARY, None, cs[i])
  {
    seq(|cs|, i requires 0 <= i < |cs| => W.WsFrame(W.FIN + W.OP_BINARY, None, cs[i]))
  }

  /** One way of writing `more`. */
  function Written(p: Pipe, more: seq<Byte>, failed: bool): Pipe {
    if p.broken then p
    else match p
      case Raw(sent, _, _) => p.(sent := sent + more, broken := failed)
      case Slip(_, chunks, _, _, _) => p.(chunks := chunks + Split(more, MAX_16), broken := failed)
      case Ws(frames, _, _, _) => p.(frames := frames + Binary(Split(more, W.MAX_PAYLOAD)), broken := failed)
  }

  lemma BinaryWrites(cs: seq<seq<Byte>>)
    requires forall i :: 0 <= i < |cs| ==> |cs[i]| <= W.MAX_PAYLOAD
    ensures AllValid(Binary(cs), W.ValidFrame) && NoClose(Binary(cs)) && W.DataOf(Binary(cs)) == Concat(cs)
  {
    assert W.AllBinary(Binary(cs), false);
    W.BinaryData(Binary(cs), false);
    assert W.Payloads(Binary(cs)) == cs;
  }

  lemma WrittenWrites(p: Pipe, more: seq<Byte>, failed: bool)
    requires PipeOk(p) && (p.broken ==> failed && more == [])
    ensures PipeWrote(p, Written(p, more, failed), more, failed)
  {
    var q := Written(p, more, failed);
    match p
    case Raw(_, _, _) =>
    case Slip(_, chunks, _, _, _) =>
      assert !p.broken ==> q.chunks[|chunks|..] == Split(more, MAX_16);
    case Ws(frames, _, _, _) =>
      assert !p.broken ==> q.frames[|frames|..] == Binary(Split(more, W.MAX_PAYLOAD));
      BinaryWrites(Split(more, W.MAX_PAYLOAD));
  }

  // ---- what else happens to a pipe -----------------------------------------------------------

  // WebSocket only: a control frame of the near end, which a close frame is the last of
  ghost predicate Answered(p: Pipe, q: Pipe, f: W.WsFrame) {
    && p.Ws? && !p.broken && W.ValidFrame(f) && W.Piece(f) == []
    && q == p.(frames := p.frames + [f], broken := W.Opcode(f) == W.OP_CLOSE)
  }

  // the connection is lost or closed, perhaps inside a control frame
  ghost predicate Broke(p: Pipe, q: Pipe) {
    && !p.broken
    && (match p
        case Raw(sent, _, arrived) => q == Raw(sent, true, arrived)
        case Slip(key, chunks, tail, _, arrived) => q == Slip(key, chunks, tail, true, arrived)
        case Ws(frames, _, _, arrived) =>
          q.Ws? && NeverComplete(W.WS, q.tail) && q == Ws(frames, q.tail, true, arrived))
  }

  /** Neither changes what has gone in or come out. */
  lemma OthersKeep(p: Pipe, q: Pipe, f: W.WsFrame)
    requires PipeOk(p) && (Answered(p, q, f) || Broke(p, q))
    ensures PipeOk(q) && In(q) == In(p) && Out(q) == Out(p)
  {
    if Answered(p, q, f) {
      DataOfAppend(p.frames, [f]);
      assert [f][1..] == [];
      EncodeAllAppend(W.WS, p.frames, [f]);
    }
  }

  // ---- the objects write so ---------------------------------------------------------------------

  // the connection carries this pipe, behind what it carried before
  ghost predicate Under(c: ByteConn, before: seq<Byte>, p: Pipe)
    reads c
  {
    c.output == before + OnWire(p) && c.dead == p.broken
  }

  // what a Write call comes to: all of its bytes, or fewer and the pipe is broken
  ghost predicate Puts(p: Pipe, q: Pipe, bytes: seq<Byte>, more: seq<Byte>, ok: bool) {
    PipeWrote(p, q, more, !ok) && more <= bytes && (ok <==> more == bytes)
  }

  /** A frame of the multiplexer goes over a pipe whole; or a proper part of it does, and
      the pipe is broken from then on. */
  ghost predicate FrameWrote(f: Frame, ok: bool, part: seq<Byte>, p: Pipe, q: Pipe) {
    if ok then PipeWrote(p, q, EncodeFrame(f), false)
    else part <= EncodeFrame(f) && part != EncodeFrame(f) && PipeWrote(p, q, part, true)
  }

  lemma FewerPieces(cs: seq<seq<Byte>>, n: nat)
    requires n < |cs| && cs[n] != []
    ensures Concat(cs[..n]) <= Concat(cs) && Concat(cs[..n]) != Concat(cs)
  {
    S.TakeAndDrop(cs, n);
    assert cs[n..][0] == cs[n];
  }

  lemma ChunksPut(p: Pipe, q: Pipe, cs: seq<seq<Byte>>, n: nat, bytes: seq<Byte>)
    requires p.Slip? && !p.broken && cs == Split(bytes, MAX_16) && n <= |cs|
    requires q.Slip? && q.key == p.key && q.chunks == p.chunks + cs[..n] && q.arrived == p.arrived
    requires NeverComplete(PREFIXED, q.tail) && q.broken == (n < |cs|) && (n == |cs| ==> q.tail == [])
    ensures Puts(p, q, bytes, Concat(cs[..n]), n == |cs|)
  {
    hide NeverComplete, Concat;
    assert q.chunks[|p.chunks|..] == cs[..n];
    if n < |cs| {
      FewerPieces(cs, n);
    } else {
      assert cs[..n] == cs;
    }
  }

  lemma TwoBehind(before: seq<Byte>, a: seq<Byte>, b: seq<Byte>, c: seq<Byte>)
    ensures before + (a + []) + (b + c) == before + ((a + b) + c)
  {
  }

  lemma SlipAdds(p: Pipe, cs: seq<seq<Byte>>, n: nat, part: seq<Byte>, bytes: seq<Byte>, before: seq<Byte>)
      returns (q: Pipe)
    requires PipeOk(p) && p.Slip? && !p.broken && cs == Split(bytes, MAX_16) && n <= |cs|
    requires NeverComplete(PREFIXED, part) && (n == |cs| ==> part == [])
    ensures q == Slip(p.key, p.chunks + cs[..n], part, n < |cs|, p.arrived)
    ensures Puts(p, q, bytes, Concat(cs[..n]), n == |cs|)
    ensures var at := S.Advance(0, |Concat(p.chunks)|);
      before + OnWire(p) + (S.Cipher(p.key, at, cs[..n]) + part) == before + OnWire(q)
  {
    hide Puts, NeverComplete, AllValid, Split, Concat, S.Cipher, S.Advance;
    q := Slip(p.key, p.chunks + cs[..n], part, n < |cs|, p.arrived);
    ChunksPut(p, q, cs, n, bytes);
    CipherAppend(p.key, p.chunks, cs[..n]);
    var at := S.Advance(0, |Concat(p.chunks)|);
    TwoBehind(before, S.Cipher(p.key, 0, p.chunks), S.Cipher(p.key, at, cs[..n]), part);
  }

  /** Slipstream's Write is such a write. */
  method SlipPut(c: S.SlipConn, bytes: seq<Byte>, ghost p: Pipe, ghost before: seq<Byte>)
      returns (ok: bool, ghost more: seq<Byte>, ghost q: Pipe)
    requires bytes != [] && PipeOk(p) && p.Slip? && p.key == c.key && Under(c.conn, before, p)
    requires !p.broken ==> c.woff == S.Advance(0, |Concat(p.chunks)|)
    modifies c`woff, c.conn`output, c.conn`dead
    ensures q.Slip? && q.key == c.key && Under(c.conn, before, q) && Puts(p, q, bytes, more, ok)
    ensures ok ==> c.woff == S.Advance(0, |Concat(q.chunks)|)
  {
    ghost var n, part;
    ghost var cs := Split(bytes, MAX_16);
    ok, n, part := c.Write(bytes);
    if p.broken {
      more, q := [], p;
      NothingSent(c.key, cs, before, p);
    } else {
      assert ok ==> NeverComplete(PREFIXED, []);
      more := Concat(cs[..n]);
      q := SlipAdds(p, cs, n, part, bytes, before);
      Moved(p.chunks, cs, n);
    }
  }

  lemma NothingSent(key: S.Key, cs: seq<seq<Byte>>, before: seq<Byte>, p: Pipe)
    ensures forall off: S.Offset :: S.Cipher(key, off, cs[..0]) == []
    ensures EncodeAll(W.WS, []) == []
    ensures before + OnWire(p) + ([] + []) == before + OnWire(p)
  {
  }

  lemma Moved(a: seq<seq<Byte>>, cs: seq<seq<Byte>>, n: nat)
    requires n <= |cs|
    ensures n == |cs| ==>
      S.Advance(S.Advance(0, |Concat(a)|), |Concat(cs)|) == S.Advance(0, |Concat(a + cs[..n])|)
  {
    ConcatAppend(a, cs);
    assert n == |cs| ==> cs[..n] == cs;
    S.AdvanceTwice(0, |Concat(a)|, |Concat(cs)|);
  }

  lemma FramesPut(p: Pipe, q: Pipe, fs: seq<W.WsFrame>, bytes: seq<Byte>, masked: bool)
    requires p.Ws? && !p.broken && q.Ws? && q.frames == p.frames + fs && W.AllBinary(fs, masked)
    requires var cs := Split(bytes, W.MAX_PAYLOAD); |fs| <= |cs| && W.Payloads(fs) == cs[..|fs|]
    requires q.arrived == p.arrived && NeverComplete(W.WS, q.tail)
    requires var all := |fs| == |Split(bytes, W.MAX_PAYLOAD)|; q.broken == !all && (all ==> q.tail == [])
    ensures Puts(p, q, bytes, W.DataOf(fs), |fs| == |Split(bytes, W.MAX_PAYLOAD)|)
  {
    hide NeverComplete;
    var cs := Split(bytes, W.MAX_PAYLOAD);
    assert q.frames[|p.frames|..] == fs;
    W.BinaryData(fs, masked);
    if |fs| < |cs| {
      FewerPieces(cs, |fs|);
    } else {
      assert cs[..|fs|] == cs;
    }
  }

  lemma WsAdds(p: Pipe, fs: seq<W.WsFrame>, part: seq<Byte>, bytes: seq<Byte>, masked: bool, before: seq<Byte>)
      returns (q: Pipe)
    requires PipeOk(p) && p.Ws? && !p.broken && W.AllBinary(fs, masked)
    requires var cs := Split(bytes, W.MAX_PAYLOAD); |fs| <= |cs| && W.Payloads(fs) == cs[..|fs|]
    requires NeverComplete(W.WS, part) && (|fs| == |Split(bytes, W.MAX_PAYLOAD)| ==> part == [])
    ensures var all := |fs| == |Split(bytes, W.MAX_PAYLOAD)|;
      && q == Ws(p.frames + fs, part, !all, p.arrived)
      && Puts(p, q, bytes, W.DataOf(fs), all)
    ensures before + OnWire(p) + (EncodeAll(W.WS, fs) + part) == before + OnWire(q)
  {
    hide Puts, NeverComplete, NoClose, AllValid, Split, EncodeAll, W.AllBinary, W.Payloads;
    q := Ws(p.frames + fs, part, |fs| != |Split(bytes, W.MAX_PAYLOAD)|, p.arrived);
    FramesPut(p, q, fs, bytes, masked);
    EncodeAllAppend(W.WS, p.frames, fs);
    TwoBehind(before, EncodeAll(W.WS, p.frames), EncodeAll(W.WS, fs), part);
  }

  /** So is WebSocket's. */
  method WsPut(c: W.WsConn, bytes: seq<Byte>, ghost p: Pipe, ghost before: seq<Byte>)
      returns (ok: bool, ghost more: seq<Byte>, ghost q: Pipe)
    requires bytes != [] && PipeOk(p) && p.Ws? && Under(c.conn, before, p)
    modifies c.conn`output, c.conn`dead
    ensures q.Ws? && Under(c.conn, before, q) && Puts(p, q, bytes, more, ok)
  {
    ghost var fs, part;
    ok, fs, part := c.Write(bytes);
    if p.broken {
      more, q := [], p;
      assert before + OnWire(p) + ([] + []) == before + OnWire(p);
    } else {
      assert ok ==> NeverComplete(W.WS, []);
      more := W.DataOf(fs);
      q := WsAdds(p, fs, part, bytes, c.isClient, before);
    }
  }

  lemma HeaderFailed(f: Frame, p: Pipe, q: Pipe, more: seq<Byte>)
    requires Puts(p, q, Header(f), more, false)
    ensures FrameWrote(f, false, more, p, q)
  {
    hide PipeWrote;
  }

  lemma PayloadWent(f: Frame, p: Pipe, q: Pipe, r: Pipe, more: seq<Byte>, ok: bool)
    requires Puts(p, q, Header(f), Header(f), true) && Puts(q, r, f.payload, more, ok)
    ensures FrameWrote(f, ok, Header(f) + more, p, r)
  {
    WroteTwice(p, q, r, Header(f), more, !ok);
    hide PipeWrote;
  }

  lemma NoPayload(f: Frame, p: Pipe, q: Pipe)
    requires Puts(p, q, Header(f), Header(f), true) && f.payload == []
    ensures FrameWrote(f, true, Header(f), p, q)
  {
    assert EncodeFrame(f) == Header(f);
    hide PipeWrote;
  }

  /** writeFrame over Slipstream: header, then payload, each cut as Slipstream cuts it. */
  method FrameOverSlip(c: S.SlipConn, f: Frame, ghost p: Pipe, ghost before: seq<Byte>)
      returns (ok: bool, ghost part: seq<Byte>, ghost q: Pipe)
    requires PipeOk(p) && p.Slip? && p.key == c.key && Under(c.conn, before, p)
    requires !p.broken ==> c.woff == S.Advance(0, |Concat(p.chunks)|)
    modifies c`woff, c.conn`output, c.conn`dead
    ensures Under(c.conn, before, q) && FrameWrote(f, ok, part, p, q)
  {
    hide PipeWrote, PipeOk, OnWire, Under, FrameWrote;
    ghost var more;
    ok, part, q := SlipPut(c, Header(f), p, before);
    if !ok {
      HeaderFailed(f, p, q, part);
    } else if f.payload == [] {
      NoPayload(f, p, q);
    } else {
      ghost var mid := q;
      WriteExtends(p, mid, part, false);
      ok, more, q := SlipPut(c, f.payload, mid, before);
      PayloadWent(f, p, mid, q, more, ok);
      part := Header(f) + more;
    }
  }

  /** And over WebSocket. */
  method FrameOverWs(c: W.WsConn, f: Frame, ghost p: Pipe, ghost before: seq<Byte>)
      returns (ok: bool, ghost part: seq<Byte>, ghost q: Pipe)
    requires PipeOk(p) && p.Ws? && Under(c.conn, before, p)
    modifies c.conn`output, c.conn`dead
    ensures Under(c.conn, before, q) && FrameWrote(f, ok, part, p, q)
  {
    hide PipeWrote, PipeOk, OnWire, Under, FrameWrote;
    ghost var more;
    ok, part, q := WsPut(c, Header(f), p, before);
    if !ok {
      HeaderFailed(f, p, q, part);
    } else if f.payload == [] {
      NoPayload(f, p, q);
    } else {
      ghost var mid := q;
      WriteExtends(p, mid, part, false);
      ok, more, q := WsPut(c, f.payload, mid, before);
      PayloadWent(f, p, mid, q, more, ok);
      part := Header(f) + more;
    }
  }

  /** And over the connection itself. */
  method FrameOverRaw(c: ByteConn, f: Frame, ghost p: Pipe, ghost before: seq<Byte>)
      returns (ok: bool, ghost part: seq<Byte>, ghost q: Pipe)
    requires p.Raw? && Under(c, before, p)
    modifies c`output, c`dead
    ensures Under(c, before, q) && FrameWrote(f, ok, part, p, q)
  {
    ok, part := PutFrame(c, f);
    if ok {
      part := EncodeFrame(f);
    }
    q := Raw(p.sent + part, !ok, p.arrived);
    assert before + p.sent + part == before + (p.sent + part);
  }

  // ---- the multiplexer over such pipes ------------------------------------------------

  const PREAMBLE_LINES := 2

  // The client accepts streams and sends the preamble; the server opens streams.
  datatype Stack = Stack(net: Net, preamble: seq<Byte>, toServer: Pipe, toClient: Pipe)

  ghost predicate PreambleOk(preamble: seq<Byte>) {
    exists token, role :: P.NEWLINE !in token && P.NEWLINE !in role && preamble == P.Lines([token, role])
  }

  predicate TailOk(e: End) {
    !e.dead ==> e.tail == []
  }

  /** What every step keeps: each pipe has taken exactly the bytes of the end that writes
      to it, and each reader has exactly what has come out. */
  ghost predicate StackOk(s: Stack) {
    && PreambleOk(s.preamble) && PipeOk(s.toServer) && PipeOk(s.toClient)
    && TailOk(s.net.a) && TailOk(s.net.o)
    && In(s.toServer) == s.preamble + Wire(s.net.a)
    && In(s.toClient) == Wire(s.net.o)
    && s.net.rxO == P.AfterLines(Out(s.toServer), PREAMBLE_LINES)
    && s.net.rxA == Out(s.toClient)
  }

  /** The client has written its preamble, and nothing has arrived yet. */
  ghost predicate StackStart(s: Stack) {
    && s.net == START && PreambleOk(s.preamble)
    && PipeOk(s.toServer) && In(s.toServer) == s.preamble && s.toServer.arrived == []
    && PipeOk(s.toClient) && In(s.toClient) == [] && s.toClient.arrived == []
  }

  datatype StackStep =
    | ArriveAt(side: Side)                  // raw bytes arrive
    | Take(step: Step)                      // one end acts, or its reader handles a frame
    | Answer(side: Side, f: W.WsFrame)      // the end at `side` puts out a control frame
    | Lose(side: Side)                      // the pipe that the end at `side` writes to breaks

  predicate Silent(e: End, e': End) {
    e'.out == e.out && e'.tail == e.tail && e'.dead == e.dead
  }

  // the write half: what an end put out is what the pipe under it takes
  ghost predicate EndWrote(e: End, e': End, p: Pipe, q: Pipe) {
    if Silent(e, e') then q == p
    else Wire(e) <= Wire(e') && PipeWrote(p, q, Wire(e')[|Wire(e)|..], e'.dead)
  }

  // the read half: what a reader has is what the layers make of the bytes that arrived
  ghost predicate Arrives(s: Stack, t: Stack, side: Side) {
    if side == Opener then
      && Grew(s.toServer, t.toServer)
      && t == s.(toServer := t.toServer, net := s.net.(rxO := P.AfterLines(Out(t.toServer), PREAMBLE_LINES)))
    else
      && Grew(s.toClient, t.toClient)
      && t == s.(toClient := t.toClient, net := s.net.(rxA := Out(t.toClient)))
  }

  ghost predicate Acts(s: Stack, t: Stack, step: Step) {
    && !step.Carry? && Enabled(s.net, step) && t.net == Next(s.net, step) && t.preamble == s.preamble
    && EndWrote(s.net.a, t.net.a, s.toServer, t.toServer)
    && EndWrote(s.net.o, t.net.o, s.toClient, t.toClient)
  }

  ghost predicate StackNext(s: Stack, step: StackStep, t: Stack) {
    match step
    case ArriveAt(side) => Arrives(s, t, side)
    case Take(st) => Acts(s, t, st)
    case Answer(Acceptor, f) => Answered(s.toServer, t.toServer, f) && t == s.(toServer := t.toServer)
    case Answer(Opener, f) => Answered(s.toClient, t.toClient, f) && t == s.(toClient := t.toClient)
    case Lose(Acceptor) => Broke(s.toServer, t.toServer) && t == s.(toServer := t.toServer)
    case Lose(Opener) => Broke(s.toClient, t.toClient) && t == s.(toClient := t.toClient)
  }

  ghost predicate StackRun(states: seq<Stack>, steps: seq<StackStep>) {
    && |states| == |steps| + 1 && StackStart(states[0])
    && (forall i :: 0 <= i < |steps| ==> StackNext(states[i], steps[i], states[i + 1]))
  }

  lemma StartOk(s: Stack)
    requires StackStart(s)
    ensures StackOk(s)
  {
    assert Wire(START.a) == [] == Wire(START.o);
    assert s.preamble + [] == s.preamble;
    assert Out(s.toServer) <= In(s.toServer) by { PipeDeliversPrefix(s.toServer); }
    NothingOut(s.toServer);
    NothingOut(s.toClient);
    assert P.AfterLines([], PREAMBLE_LINES) == [];
  }

  lemma NothingOut(p: Pipe)
    requires p.arrived == []
    ensures Out(p) == []
  {
  }

  // ---- the write half keeps it ------------------------------------------------------------------

  // an end puts out nothing, one frame, or part of one
  ghost predicate EndGrew(e: End, e': End) {
    || Silent(e, e')
    || (!e.dead && !e'.dead && e'.tail == e.tail && exists f :: e'.out == e.out + [f])
    || (!e.dead && e'.dead && e'.out == e.out)
  }

  lemma SendGrows(e: End, f: Tagged, r: Outcome)
    ensures EndGrew(e, Send(e, f, r))
  {
  }

  lemma ActGrows(e: End, a: Action)
    ensures EndGrew(e, Act(e, a))
  {
    match a
    case DoAnnounceOpen(h, r) => SendGrows(e, Tagged(h, FRAME_OPEN, []), r);
    case DoWriteChunk(h, chunk, r) => SendGrows(e, Tagged(h, FRAME_DATA, chunk), r);
    case DoAnnounceClose(h, r) => SendGrows(e, Tagged(h, FRAME_CLOSE, []), r);
    case _ =>
  }

  lemma HandleGrows(e: End, f: Frame, made: Name, k: nat)
    ensures EndGrew(e, HandleFrame(e, f, made).(handled := k))
  {
  }

  lemma StepGrows(n: Net, step: Step)
    requires !step.Carry?
    ensures EndGrew(n.o, Next(n, step).o) && EndGrew(n.a, Next(n, step).a)
    ensures Next(n, step).rxO == n.rxO && Next(n, step).rxA == n.rxA
  {
    hide HandleFrame, Act;
    match step
    case Local(Opener, a) => ActGrows(n.o, a);
    case Local(Acceptor, a) => ActGrows(n.a, a);
    case Deliver(Opener) => DeliverGrows(n.o, n.rxO, n.a);
    case Deliver(Acceptor) => DeliverGrows(n.a, n.rxA, n.o);
  }

  lemma DeliverGrows(y: End, rx: seq<Byte>, x: End)
    ensures EndGrew(y, DeliverFrom(y, rx, x))
  {
    hide HandleFrame;
    var fs := DecodeAll(CODEC, rx);
    if y.handled < |fs| {
      var made := if y.handled < |x.out| then x.out[y.handled].stream else 0;
      HandleGrows(y, fs[y.handled], made, y.handled + 1);
    }
  }

  lemma EraseAppend(out: seq<Tagged>, f: Tagged)
    ensures EncodeAll(CODEC, EraseAll(out)) <= EncodeAll(CODEC, EraseAll(out + [f]))
  {
    assert EraseAll(out + [f]) == EraseAll(out) + [Erase(f)];
    EncodeAllAppend(CODEC, EraseAll(out), [Erase(f)]);
  }

  lemma WireGrows(e: End, e': End)
    requires TailOk(e) && EndGrew(e, e')
    ensures TailOk(e') && Wire(e) <= Wire(e')
  {
    if !e.dead && !e'.dead && e'.out != e.out {
      var f :| e'.out == e.out + [f];
      EraseAppend(e.out, f);
    }
  }

  lemma BytesWritten(w: seq<Byte>, w': seq<Byte>, p: Pipe, q: Pipe, before: seq<Byte>, failed: bool)
    requires PipeOk(p) && In(p) == before + w && w <= w' && PipeWrote(p, q, w'[|w|..], failed)
    ensures PipeOk(q) && In(q) == before + w' && Out(q) == Out(p)
  {
    hide PipeOk, In, Out, PipeWrote;
    WriteExtends(p, q, w'[|w|..], failed);
    assert w' == w + w'[|w|..];
    Assoc(before, w, w'[|w|..]);
  }

  lemma WriteHalf(e: End, e': End, p: Pipe, q: Pipe, before: seq<Byte>)
    requires PipeOk(p) && In(p) == before + Wire(e) && TailOk(e) && EndGrew(e, e') && EndWrote(e, e', p, q)
    ensures PipeOk(q) && In(q) == before + Wire(e') && Out(q) == Out(p) && TailOk(e')
  {
    WireGrows(e, e');
    if Silent(e, e') {
      SilentWire(e, e');
    } else {
      BytesWritten(Wire(e), Wire(e'), p, q, before, e'.dead);
    }
    hide *;
  }

  lemma SilentWire(e: End, e': End)
    requires Silent(e, e')
    ensures Wire(e') == Wire(e)
  {
  }

  lemma TakeKeeps(s: Stack, step: Step, t: Stack)
    requires StackOk(s) && Acts(s, t, step)
    ensures StackOk(t)
  {
    hide PipeOk, In, Out, Wire, Next, Enabled, EndGrew, EndWrote, P.AfterLines, PreambleOk;
    StepGrows(s.net, step);
    WriteHalf(s.net.a, t.net.a, s.toServer, t.toServer, s.preamble);
    assert [] + Wire(s.net.o) == Wire(s.net.o) && [] + Wire(t.net.o) == Wire(t.net.o);
    WriteHalf(s.net.o, t.net.o, s.toClient, t.toClient, []);
  }

  /** Every step of the layered system, write or read, keeps the invariant. */
  lemma StackStepKeeps(s: Stack, step: StackStep, t: Stack)
    requires StackOk(s) && StackNext(s, step, t)
    ensures StackOk(t)
  {
    hide PipeOk, In, Out, Wire, Acts, Grew, Answered, Broke, P.AfterLines, PreambleOk;
    match step
    case ArriveAt(Opener) => OutGrows(s.toServer, t.toServer);
    case ArriveAt(Acceptor) => OutGrows(s.toClient, t.toClient);
    case Take(st) => TakeKeeps(s, st, t);
    case Answer(Acceptor, f) => OthersKeep(s.toServer, t.toServer, f);
    case Answer(Opener, f) => OthersKeep(s.toClient, t.toClient, f);
    case Lose(Acceptor) => OthersKeep(s.toServer, t.toServer, W.WsFrame(0, None, []));
    case Lose(Opener) => OthersKeep(s.toClient, t.toClient, W.WsFrame(0, None, []));
  }

  /** What the objects do is such a step: a frame that writeFrame put out over any of the
      layers is the Send of the model with a possible outcome, and the pipe has taken what
      the end has written. */
  lemma FrameIsSend(e: End, f: Tagged, ok: bool, part: seq<Byte>, p: Pipe, q: Pipe)
    requires CanSend(e) && TailOk(e) && FrameWrote(Erase(f), ok, part, p, q)
    ensures var r := if ok then Sent else Failed(part);
      OutcomePossible(f, r) && EndWrote(e, Send(e, f, r), p, q)
  {
    hide PipeWrote, Wire, EncodeFrame;
    if ok {
      FrameOut(e, f);
    } else {
      PartOut(e, f, part);
    }
  }

  lemma FrameOut(e: End, f: Tagged)
    requires CanSend(e) && TailOk(e)
    ensures var w, w' := Wire(e), Wire(Send(e, f, Sent)); w <= w' && w'[|w|..] == EncodeFrame(Erase(f))
  {
    hide EncodeFrame;
    assert EraseAll(e.out + [f]) == EraseAll(e.out) + [Erase(f)];
    EncodeAllAppend(CODEC, EraseAll(e.out), [Erase(f)]);
    EncodeAllSingle(CODEC, Erase(f));
    assert Wire(Send(e, f, Sent)) == Wire(e) + CODEC.encode(Erase(f));
  }

  lemma PartOut(e: End, f: Tagged, part: seq<Byte>)
    requires CanSend(e) && TailOk(e)
    ensures var w, w' := Wire(e), Wire(Send(e, f, Failed(part))); w <= w' && w'[|w|..] == part
  {
    assert Wire(Send(e, f, Failed(part))) == Wire(e) + part;
  }

  // ---- such runs exist ---------------------------------------------------------------------------

  /** Over each kind of pipe. */
  lemma StackCanStart(token: seq<Byte>, role: seq<Byte>, key: S.Key)
    requires P.NEWLINE !in token && P.NEWLINE !in role
    ensures var pre := P.Lines([token, role]);
      && StackStart(Stack(START, pre, Written(Raw([], false, []), pre, false), Raw([], false, [])))
      && StackStart(Stack(START, pre, Written(Slip(key, [], [], false, []), pre, false), Slip(key, [], [], false, [])))
      && StackStart(Stack(START, pre, Written(Ws([], [], false, []), pre, false), Ws([], [], false, [])))
  {
    var pre := P.Lines([token, role]);
    StartPipe(Raw([], false, []), pre);
    StartPipe(Slip(key, [], [], false, []), pre);
    StartPipe(Ws([], [], false, []), pre);
  }

  lemma StartPipe(p: Pipe, pre: seq<Byte>)
    requires !p.broken && p.arrived == []
    requires match p
      case Raw(sent, _, _) => sent == []
      case Slip(_, chunks, tail, _, _) => chunks == [] && tail == []
      case Ws(frames, tail, _, _) => frames == [] && tail == []
    ensures PipeOk(p) && In(p) == []
    ensures PipeOk(Written(p, pre, false)) && In(Written(p, pre, false)) == pre && Written(p, pre, false).arrived == []
  {
    assert PipeOk(p);
    WrittenWrites(p, pre, false);
    WriteExtends(p, Written(p, pre, false), pre, false);
  }

  // the pipe can take what the end puts out: it is not broken, or the end notices so
  predicate CanTake(e: End, e': End, p: Pipe) {
    || !p.broken
    || Silent(e, e')
    || (e'.dead && Wire(e') == Wire(e))
  }

  lemma EndCanWrite(e: End, e': End, p: Pipe) returns (q: Pipe)
    requires PipeOk(p) && TailOk(e) && EndGrew(e, e') && CanTake(e, e', p)
    ensures EndWrote(e, e', p, q)
  {
    WireGrows(e, e');
    if Silent(e, e') {
      q := p;
    } else {
      var more := Wire(e')[|Wire(e)|..];
      WrittenWrites(p, more, e'.dead);
      q := Written(p, more, e'.dead);
    }
  }

  /** Every step that an end of the multiplexer can take, sending or not, is a step of the
      layered system, over any kind of pipe that is not broken. */
  lemma EveryStepHasASuccessor(s: Stack, step: Step) returns (t: Stack)
    requires StackOk(s) && Enabled(s.net, step) && !step.Carry?
    requires CanTake(s.net.a, Next(s.net, step).a, s.toServer)
    requires CanTake(s.net.o, Next(s.net, step).o, s.toClient)
    ensures StackNext(s, Take(step), t) && StackOk(t)
  {
    StepGrows(s.net, step);
    var n := Next(s.net, step);
    var p := EndCanWrite(s.net.a, n.a, s.toServer);
    var q := EndCanWrite(s.net.o, n.o, s.toClient);
    hide PipeOk, In, Out, Wire, Next, Enabled, EndGrew, EndWrote, CanTake;
    t := Stack(n, s.preamble, p, q);
    TakeKeeps(s, step, t);
  }

  /** And any bytes that are on the wire may arrive. */
  lemma ArrivalHasASuccessor(s: Stack, side: Side, arrived: seq<Byte>) returns (t: Stack)
    requires StackOk(s)
    requires var p := if side == Opener then s.toServer else s.toClient; p.arrived <= arrived <= OnWire(p)
    ensures StackNext(s, ArriveAt(side), t) && StackOk(t)
    ensures (if side == Opener then t.toServer else t.toClient).arrived == arrived
  {
    hide StackOk, OnWire, Out, P.AfterLines;
    if side == Opener {
      var q := s.toServer.(arrived := arrived);
      t := s.(toServer := q, net := s.net.(rxO := P.AfterLines(Out(q), PREAMBLE_LINES)));
    } else {
      var q := s.toClient.(arrived := arrived);
      t := s.(toClient := q, net := s.net.(rxA := Out(q)));
    }
    StackStepKeeps(s, ArriveAt(side), t);
  }

  // ---- refinement ------------------------------------------------------------------------------------

  lemma PreamblePassed(preamble: seq<Byte>, wire: seq<Byte>, out: seq<Byte>)
    requires PreambleOk(preamble) && out <= preamble + wire
    ensures P.AfterLines(out, PREAMBLE_LINES) <= wire
  {
    var token, role :| P.NEWLINE !in token && P.NEWLINE !in role && preamble == P.Lines([token, role]);
    P.AfterTheseLines([token, role], wire);
    P.AfterLinesPrefix(out, preamble + wire, PREAMBLE_LINES);
  }

  /** Arrival of raw bytes under the layers is a Carry step of the multiplexer. */
  lemma ArrivalIsCarry(s: Stack, t: Stack, side: Side) returns (more: seq<Byte>)
    requires StackOk(s) && StackOk(t) && Arrives(s, t, side)
    ensures Enabled(s.net, Carry(side, more)) && t.net == Next(s.net, Carry(side, more))
  {
    hide PipeOk, In, Out, Wire, Grew, P.AfterLines, PreambleOk;
    if side == Opener {
      OutGrows(s.toServer, t.toServer);
      P.AfterLinesPrefix(Out(s.toServer), Out(t.toServer), PREAMBLE_LINES);
      more := t.net.rxO[|s.net.rxO|..];
      PipeDeliversPrefix(t.toServer);
      PreamblePassed(t.preamble, Wire(t.net.a), Out(t.toServer));
    } else {
      OutGrows(s.toClient, t.toClient);
      more := t.net.rxA[|s.net.rxA|..];
      PipeDeliversPrefix(t.toClient);
    }
  }

  /** Refinement.  Every state that the layered system reaches is one whose two ends
      MuxModel reaches, each pipe having taken exactly what its end has written. */
  lemma {:induction false} StackRefinesMux(states: seq<Stack>, steps: seq<StackStep>)
    requires StackRun(states, steps)
    ensures Reachable(states[|steps|].net) && StackOk(states[|steps|])
    decreases |steps|
  {
    hide StackNext, StackOk, StackStart;
    if steps == [] {
      StartOk(states[0]);
      StartReachable(states[0]);
    } else {
      var n := |steps| - 1;
      assert StackRun(states[..|steps|], steps[..n]) by {
        forall i | 0 <= i < n
          ensures StackNext(states[..|steps|][i], steps[..n][i], states[..|steps|][i + 1])
        {
          assert StackNext(states[i], steps[i], states[i + 1]);
        }
      }
      StackRefinesMux(states[..|steps|], steps[..n]);
      assert StackNext(states[n], steps[n], states[n + 1]);
      LastStep(states[n], steps[n], states[n + 1]);
    }
  }

  lemma StartReachable(s: Stack)
    requires StackStart(s)
    ensures Reachable(s.net)
  {
    assert Run(START, [], START);
  }

  lemma LastStep(s: Stack, step: StackStep, t: Stack)
    requires StackOk(s) && StackNext(s, step, t) && Reachable(s.net)
    ensures StackOk(t) && Reachable(t.net)
  {
    StackStepKeeps(s, step, t);
    hide StackOk, Reachable, Enabled, Next, Answered, Broke, EndWrote, Grew;
    match step
    case ArriveAt(side) =>
      var more := ArrivalIsCarry(s, t, side);
      ReachStep(s.net, Carry(side, more));
    case Take(st) => ReachStep(s.net, st);
    case _ =>
  }

  // ---- end to end ----------------------------------------------------------------------------

  lemma DatagramsBehindLine(line: seq<Byte>, ds: seq<seq<Byte>>, got: seq<Byte>)
    requires P.NEWLINE !in line && AllValid(ds, FitsPrefix)
    requires got <= line + [P.NEWLINE] + EncodeAll(PREFIXED, ds)
    ensures DecodeAll(PREFIXED, P.AfterLines(got, 1)) <= ds
    ensures got == line + [P.NEWLINE] + EncodeAll(PREFIXED, ds) ==> DecodeAll(PREFIXED, P.AfterLines(got, 1)) == ds
  {
    var all := EncodeAll(PREFIXED, ds);
    P.AfterThisLine(line, all);
    assert P.AfterLines(line + [P.NEWLINE] + all, 1) == P.AfterLines(all, 0);
    P.AfterLinesPrefix(got, line + [P.NEWLINE] + all, 1);
    D.DatagramsArePrefix(ds, P.AfterLines(got, 1));
  }

  /** From the server to the client: the target line, then the datagrams.  Whatever the
      layers below are and however each of them cuts the bytes, what the client's relay
      decodes behind the line is a prefix of the datagrams sent, and all of them once they
      are written whole and nothing is left on the way. */
  lemma DatagramsReachClient(states: seq<Stack>, steps: seq<StackStep>, h: Name, line: seq<Byte>, ds: seq<seq<Byte>>)
    requires StackRun(states, steps)
    requires var m := states[|steps|].net;
      && m.o.opens <= TWO_32 && h in m.a.objs
      && WrittenBy(m.o, h) <= line + [P.NEWLINE] + EncodeAll(PREFIXED, ds)
    requires P.NEWLINE !in line && AllValid(ds, FitsPrefix)
    ensures var m := states[|steps|].net;
      var got := DecodeAll(PREFIXED, P.AfterLines(m.a.objs[h].delivered, 1));
      && got <= ds && m.a.handled <= |m.o.out|
      && (WrittenBy(m.o, h) == line + [P.NEWLINE] + EncodeAll(PREFIXED, ds) && NothingLeft(m.o, m.a, h)
          ==> got == ds)
  {
    var m := states[|steps|].net;
    StackRefinesMux(states, steps);
    hide StackRun, Reachable, Listed, WrittenBy, EncodeAll, DecodeAll, NothingLeft;
    ReadsArePrefixes(m, Acceptor, h);
    DatagramsBehindLine(line, ds, m.a.objs[h].delivered);
  }

  /** From the client to the server: the datagrams of the replies, likewise. */
  lemma DatagramsReachServer(states: seq<Stack>, steps: seq<StackStep>, h: Name, ds: seq<seq<Byte>>)
    requires StackRun(states, steps)
    requires var m := states[|steps|].net;
      && m.o.opens <= TWO_32 && h in m.o.objs
      && WrittenBy(m.a, h) <= EncodeAll(PREFIXED, ds)
    requires AllValid(ds, FitsPrefix)
    ensures var m := states[|steps|].net; var got := DecodeAll(PREFIXED, m.o.objs[h].delivered);
      && got <= ds && m.o.handled <= |m.a.out|
      && (WrittenBy(m.a, h) == EncodeAll(PREFIXED, ds) && NothingLeft(m.a, m.o, h) ==> got == ds)
  {
    var m := states[|steps|].net;
    StackRefinesMux(states, steps);
    hide StackRun, Reachable, Listed, WrittenBy, EncodeAll, DecodeAll, NothingLeft;
    ReadsArePrefixes(m, Opener, h);
    D.DatagramsArePrefix(ds, m.o.objs[h].delivered);
  }
}
