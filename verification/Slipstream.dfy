/** Slipstream: length-prefixed chunks, each byte masked with a 32-byte key at its
    position in the stream.  Both ends count positions in uint64. */
module Slipstream {
  import opened Wrappers
  import opened Bytes
  import opened Framing
  import opened Prefixed
  import opened Conn

  const KEY_LENGTH := 32
  const NONCE_LENGTH := 16
  const MAGIC: seq<Byte> := [83, 76, 80, 49]   // "SLP1"

  type Key = k: seq<Byte> | |k| == KEY_LENGTH witness seq(KEY_LENGTH, i => 0)
  type Offset = n: int | 0 <= n < TWO_64

  function Advance(off: Offset, n: nat): Offset {
    (off + n) % TWO_64
  }

  function MaskByte(key: Key, off: Offset, i: nat, b: Byte): Byte {
    Xor(b, key[Advance(off, i) % KEY_LENGTH])
  }

  function Mask(key: Key, off: Offset, b: seq<Byte>): (m: seq<Byte>)
    ensures |m| == |b|
  {
    seq(|b|, i requires 0 <= i < |b| => MaskByte(key, off, i, b[i]))
  }

  lemma AdvanceTwice(off: Offset, m: nat, n: nat)
    ensures Advance(Advance(off, m), n) == Advance(off, m + n)
  {
  }

  /** The counter may wrap: since 32 divides 2^64 the key position goes on as if it had not. */
  lemma WrapKeepsKeyPosition(off: Offset, i: nat)
    ensures Advance(off, i) % KEY_LENGTH == (off + i) % KEY_LENGTH
  {
  }

  lemma MaskTwice(key: Key, off: Offset, b: seq<Byte>)
    ensures Mask(key, off, Mask(key, off, b)) == b
  {
    forall i | 0 <= i < |b|
      ensures Mask(key, off, Mask(key, off, b))[i] == b[i]
    {
      XorTwice(b[i], key[Advance(off, i) % KEY_LENGTH]);
    }
  }

  // ---- a stream of chunks ------------------------------------------------------------

  /** Each chunk masked at the position where the chunk before it ended. */
  function MaskAll(key: Key, off: Offset, cs: seq<seq<Byte>>): (ms: seq<seq<Byte>>)
    ensures |ms| == |cs|
    ensures forall i :: 0 <= i < |cs| ==> |ms[i]| == |cs[i]|
    decreases |cs|
  {
    if cs == [] then []
    else [Mask(key, off, cs[0])] + MaskAll(key, Advance(off, |cs[0]|), cs[1..])
  }

  lemma {:induction false} MaskAllTwice(key: Key, off: Offset, cs: seq<seq<Byte>>)
    ensures MaskAll(key, off, MaskAll(key, off, cs)) == cs
    decreases |cs|
  {
    if cs != [] {
      MaskTwice(key, off, cs[0]);
      MaskAllTwice(key, Advance(off, |cs[0]|), cs[1..]);
    }
  }

  lemma MaskOneAt(key: Key, off: Offset, b: seq<Byte>, k: nat)
    requires k < |b|
    ensures Mask(key, off, b)[k] == Xor(b[k], key[(off + k) % 32])
  {
    WrapKeepsKeyPosition(off, k);
  }

  /** Each byte of the stream is masked with the byte of the key at its own position in the
      stream, however the stream was cut into chunks. */
  lemma {:induction false} MaskAt(key: Key, off: Offset, cs: seq<seq<Byte>>, k: nat)
    requires k < |Concat(cs)|
    ensures |Concat(MaskAll(key, off, cs))| == |Concat(cs)|
    ensures Concat(MaskAll(key, off, cs))[k] == Xor(Concat(cs)[k], key[(off + k) % 32])
    decreases |cs|
  {
    hide Xor, Mask;
    ConcatFront(cs);
    MaskFront(key, off, cs);
    ConcatFront(MaskAll(key, off, cs));
    MaskedLength(key, off, cs);
    var first := cs[0];
    var rest, off' := cs[1..], Advance(off, |first|);
    assert MaskAll(key, off, cs)[1..] == MaskAll(key, off', rest);
    if k < |first| {
      MaskOneAt(key, off, first, k);
    } else {
      MaskAt(key, off', rest, k - |first|);
      WrapKeepsKeyPosition(off, k);
      WrapKeepsKeyPosition(off', k - |first|);
      AdvanceTwice(off, |first|, k - |first|);
    }
  }

  lemma {:induction false} MaskedLength(key: Key, off: Offset, cs: seq<seq<Byte>>)
    ensures |Concat(MaskAll(key, off, cs))| == |Concat(cs)|
    decreases |cs|
  {
    hide Mask;
    if cs != [] {
      MaskedLength(key, Advance(off, |cs[0]|), cs[1..]);
      assert MaskAll(key, off, cs)[1..] == MaskAll(key, Advance(off, |cs[0]|), cs[1..]);
    }
  }

  lemma MaskFront(key: Key, off: Offset, a: seq<seq<Byte>>)
    ensures a == [] ==> MaskAll(key, off, a) == [] && Concat(a) == []
    ensures a != [] ==>
      && MaskAll(key, off, a) == [Mask(key, off, a[0])] + MaskAll(key, Advance(off, |a[0]|), a[1..])
      && |Concat(a)| == |a[0]| + |Concat(a[1..])|
  {
  }

  lemma {:induction false} MaskAllAppend(key: Key, off: Offset, a: seq<seq<Byte>>, b: seq<seq<Byte>>)
    ensures MaskAll(key, off, a + b) == MaskAll(key, off, a) + MaskAll(key, Advance(off, |Concat(a)|), b)
    decreases |a|
  {
    hide MaskAll, Mask, Concat;
    MaskFront(key, off, a);
    if a == [] {
      assert a + b == b;
      assert Advance(off, 0) == off;
    } else {
      var off' := Advance(off, |a[0]|);
      MaskFront(key, off, a + b);
      assert (a + b)[0] == a[0] && (a + b)[1..] == a[1..] + b;
      MaskAllAppend(key, off', a[1..], b);
      AdvanceTwice(off, |a[0]|, |Concat(a[1..])|);
      Assoc([Mask(key, off, a[0])], MaskAll(key, off', a[1..]), MaskAll(key, Advance(off, |Concat(a)|), b));
    }
  }

  /** What goes on the wire for these chunks of plaintext, starting at position off. */
  function Cipher(key: Key, off: Offset, chunks: seq<seq<Byte>>): seq<Byte> {
    EncodeAll(PREFIXED, MaskAll(key, off, chunks))
  }

  /** What a reader at position off makes of the bytes that have arrived. */
  function Plain(key: Key, off: Offset, arrived: seq<Byte>): seq<Byte> {
    Concat(MaskAll(key, off, DecodeAll(PREFIXED, arrived)))
  }

  /** Chunk bytes that are on the wire and not yet part of a complete chunk at the reader. */
  function StillInFlight(key: Key, off: Offset, chunks: seq<seq<Byte>>, arrived: seq<Byte>): nat
    requires |DecodeAll(PREFIXED, arrived)| <= |chunks|
  {
    |Concat(chunks[|DecodeAll(PREFIXED, arrived)|..])|
  }

  lemma MaskedFit(key: Key, off: Offset, chunks: seq<seq<Byte>>)
    requires AllValid(chunks, FitsPrefix)
    ensures AllValid(MaskAll(key, off, chunks), FitsPrefix)
  {
  }

  // the reader's chunks are the writer's, up to some point
  lemma SlipChunks(key: Key, off: Offset, chunks: seq<seq<Byte>>, tail: seq<Byte>, arrived: seq<Byte>)
    requires AllValid(chunks, FitsPrefix) && NeverComplete(PREFIXED, tail)
    requires arrived <= Cipher(key, off, chunks) + tail
    ensures var n := |DecodeAll(PREFIXED, arrived)|;
      && n <= |chunks| && Plain(key, off, arrived) == Concat(chunks[..n])
      && (Cipher(key, off, chunks) <= arrived ==> n == |chunks|)
  {
    PrefixedLawful();
    MaskedFit(key, off, chunks);
    var ms := MaskAll(key, off, chunks);
    Reassembly(PREFIXED, FitsPrefix, ms, tail, arrived);
    var n := |DecodeAll(PREFIXED, arrived)|;
    assert DecodeAll(PREFIXED, arrived) == ms[..n];
    PlainOfTake(key, off, chunks, n);
  }

  /** Round trip.  Whatever was written, in any chunks, from any common position, and
      however the wire was read so far: the reader has a prefix of the plaintext, all
      of it once all bytes are there, and its position plus the bytes in flight is
      the writer's position modulo 2^64. */
  lemma SlipRoundTrip(key: Key, off: Offset, chunks: seq<seq<Byte>>, tail: seq<Byte>, arrived: seq<Byte>)
    requires AllValid(chunks, FitsPrefix) && NeverComplete(PREFIXED, tail)
    requires arrived <= Cipher(key, off, chunks) + tail
    ensures Plain(key, off, arrived) <= Concat(chunks)
    ensures Cipher(key, off, chunks) <= arrived ==> Plain(key, off, arrived) == Concat(chunks)
    ensures |DecodeAll(PREFIXED, arrived)| <= |chunks|
    ensures var roff, woff := Advance(off, |Plain(key, off, arrived)|), Advance(off, |Concat(chunks)|);
      Advance(roff, StillInFlight(key, off, chunks, arrived)) == woff
  {
    SlipChunks(key, off, chunks, tail, arrived);
    Positions(off, chunks, |DecodeAll(PREFIXED, arrived)|);
  }

  lemma Positions(off: Offset, chunks: seq<seq<Byte>>, n: nat)
    requires n <= |chunks|
    ensures Concat(chunks[..n]) <= Concat(chunks)
    ensures n == |chunks| ==> chunks[..n] == chunks
    ensures Advance(Advance(off, |Concat(chunks[..n])|), |Concat(chunks[n..])|) == Advance(off, |Concat(chunks)|)
  {
    TakeAndDrop(chunks, n);
    AdvanceTwice(off, |Concat(chunks[..n])|, |Concat(chunks[n..])|);
  }

  lemma TakeAndDrop(chunks: seq<seq<Byte>>, n: nat)
    requires n <= |chunks|
    ensures Concat(chunks) == Concat(chunks[..n]) + Concat(chunks[n..])
  {
    assert chunks == chunks[..n] + chunks[n..];
    ConcatAppend(chunks[..n], chunks[n..]);
  }

  lemma PlainOfTake(key: Key, off: Offset, chunks: seq<seq<Byte>>, n: nat)
    requires n <= |chunks|
    ensures MaskAll(key, off, MaskAll(key, off, chunks)[..n]) == chunks[..n]
  {
    assert chunks == chunks[..n] + chunks[n..];
    MaskAllAppend(key, off, chunks[..n], chunks[n..]);
    assert MaskAll(key, off, chunks)[..n] == MaskAll(key, off, chunks[..n]);
    MaskAllTwice(key, off, chunks[..n]);
  }

  // ---- slipstreamConn ------------------------------------------------------------------

  class SlipConn {
    const conn: ByteConn
    const key: Key
    var rbuf: seq<Byte>
    var roff: Offset
    var woff: Offset

    constructor (conn: ByteConn, key: Key)
      ensures this.conn == conn && this.key == key && rbuf == [] && roff == woff == 0
    {
      this.conn, this.key := conn, key;
      rbuf, roff, woff := [], 0, 0;
    }

    // the in-place loop of xor
    method MaskInPlace(b: array<Byte>, off: Offset)
      modifies b
      ensures b[..] == Mask(key, off, old(b[..]))
    {
      for i := 0 to b.Length
        invariant forall j :: 0 <= j < i ==> b[j] == MaskByte(key, off, j, old(b[j]))
        invariant forall j :: i <= j < b.Length ==> b[j] == old(b[j])
      {
        b[i] := MaskByte(key, off, i, b[i]);
      }
    }

    method Masked(p: seq<Byte>, off: Offset) returns (m: seq<Byte>)
      ensures m == Mask(key, off, p)
    {
      var a := new Byte[|p|](i requires 0 <= i < |p| => p[i]);
      assert a[..] == p;
      MaskInPlace(a, off);
      m := a[..];
    }

    /** Everything Read will still hand over: the buffer, then what the rest of the
        connection decodes to. */
    ghost function Ahead(): seq<Byte>
      reads this, conn
    {
      rbuf + Plain(key, roff, conn.input)
    }

    // one turn of Read's loop: the next chunk into the buffer
    method Fill() returns (ok: bool)
      requires rbuf == []
      modifies this`rbuf, this`roff, conn`input
      ensures Ahead() == old(Ahead())
      ensures ok ==> |conn.input| < |old(conn.input)|
      ensures !ok ==> old(Ahead()) == [] && rbuf == []
    {
      ghost var b := conn.input;
      var h;
      ok, h := conn.ReadFull(2);
      if !ok {
        return;
      }
      ghost var rest := conn.input;
      assert b == h + rest && b[..2] == h;
      var n := FromBigEndian(h);
      var chunk;
      ok, chunk := conn.ReadFull(n);
      if !ok {
        return;
      }
      assert b[2..2 + n] == chunk && b[2 + n..] == conn.input;
      PlainStep(key, roff, b, chunk, conn.input);
      rbuf := Masked(chunk, roff);
      roff := Advance(roff, |chunk|);
    }

    /** Read hands over the next bytes of the plaintext; end of file only when there
        are none left. */
    method Read(room: nat) returns (ok: bool, chunk: seq<Byte>)
      modifies this`rbuf, this`roff, conn`input
      ensures chunk + Ahead() == old(Ahead())
      ensures |chunk| <= room
      ensures ok && room > 0 ==> chunk != []
      ensures !ok ==> chunk == [] && old(Ahead()) == []
    {
      ok, chunk := true, [];
      while rbuf == []
        invariant Ahead() == old(Ahead()) && ok && chunk == []
        decreases |rbuf| == 0, |conn.input|
      {
        ok := Fill();
        if !ok {
          return;
        }
      }
      var n := if room <= |rbuf| then room else |rbuf|;
      chunk := rbuf[..n];
      rbuf := rbuf[n..];
    }

    // one turn of Write's loop: the next chunk, masked where the one before it ended
    method WriteNext(rest: seq<Byte>, ghost cs: seq<seq<Byte>>, ghost n: nat, ghost off: Offset,
                     ghost before: seq<Byte>)
        returns (ok: bool, rest': seq<Byte>, ghost part: seq<Byte>)
      requires rest != [] && n <= |cs| && Split(rest, MAX_16) == cs[n..]
      requires woff == Advance(off, |Concat(cs[..n])|)
      requires conn.output == before + (Cipher(key, off, cs[..n]) + [])
      modifies this`woff, conn`output, conn`dead
      ensures n < |cs| && |rest'| < |rest| && Split(rest', MAX_16) == cs[n + 1..]
      ensures woff == Advance(off, |Concat(cs[..n + 1])|)
      ensures ok ==> conn.output == before + (Cipher(key, off, cs[..n + 1]) + []) && conn.dead == old(conn.dead)
      ensures !ok ==> conn.dead && NeverComplete(PREFIXED, part)
      ensures !ok ==> conn.output == before + (Cipher(key, off, cs[..n]) + part)
      ensures old(conn.dead) ==> !ok && part == []
    {
      hide Cipher, Split, Mask, Concat, Advance, EncodePrefixed;
      var chunk := if |rest| > MAX_16 then rest[..MAX_16] else rest;
      SplitFront(rest, chunk, cs, n, MAX_16);
      CipherOneMore(key, off, cs, n);
      rest' := rest[|chunk|..];
      ghost var was := conn.output;
      var enc := Masked(chunk, woff);
      woff := Advance(woff, |enc|);
      ok, part := PutChunk(conn, enc);
      PieceBehind(before, Cipher(key, off, cs[..n]), if ok then EncodePrefixed(enc) else part);
    }

    /** Write sends its argument in masked chunks of at most 65535 bytes: all of them; or
        the first few, the connection then being dead and what is out of the next chunk
        never completing. */
    method Write(p: seq<Byte>) returns (ok: bool, ghost n: nat, ghost part: seq<Byte>)
      modifies this`woff, conn`output, conn`dead
      ensures n <= |Split(p, MAX_16)|
      ensures conn.output == old(conn.output) + (Cipher(key, old(woff), Split(p, MAX_16)[..n]) + part)
      ensures ok ==> n == |Split(p, 65535)| && part == [] && conn.dead == old(conn.dead)
      ensures ok ==> woff == Advance(old(woff), |p|)
      ensures !ok ==> conn.dead && n < |Split(p, MAX_16)| && NeverComplete(PREFIXED, part)
      ensures old(conn.dead) ==> n == 0 && part == [] && (ok <==> p == [])
    {
      ghost var cs, before, off := Split(p, MAX_16), conn.output, woff;
      var rest := p;
      ok, n, part := true, 0, [];
      hide Cipher, Split;
      while rest != []
        invariant ok && part == [] && n <= |cs| && Split(rest, MAX_16) == cs[n..] && conn.dead == old(conn.dead)
        invariant woff == Advance(off, |Concat(cs[..n])|)
        invariant conn.output == before + (Cipher(key, off, cs[..n]) + part)
        invariant old(conn.dead) ==> n == 0 && rest == p
        decreases |rest|
      {
        ok, rest, part := WriteNext(rest, cs, n, off, before);
        if !ok {
          return;
        }
        n, part := n + 1, [];
      }
      SplitNothing(cs, n);
    }
  }

  lemma PieceBehind(before: seq<Byte>, a: seq<Byte>, b: seq<Byte>)
    ensures before + (a + []) + b == before + (a + b) == before + ((a + b) + [])
  {
  }

  lemma SplitNothing(cs: seq<seq<Byte>>, n: nat)
    requires n <= |cs| && Split([], MAX_16) == cs[n..]
    ensures n == |cs| && cs[..n] == cs
  {
    assert Split<Byte>([], MAX_16) == [];
  }

  // length, then chunk: two writes, of which either may fail and leave a part
  method PutChunk(conn: ByteConn, enc: seq<Byte>) returns (ok: bool, ghost part: seq<Byte>)
    requires 0 < |enc| <= MAX_16
    modifies conn`output, conn`dead
    ensures ok ==> part == [] && conn.output == old(conn.output) + EncodePrefixed(enc) && conn.dead == old(conn.dead)
    ensures !ok ==> conn.dead && conn.output == old(conn.output) + part && NeverComplete(PREFIXED, part)
    ensures old(conn.dead) ==> !ok && part == []
  {
    ghost var was := conn.output;
    ok := conn.Write(BigEndian(|enc|, 2));
    if ok {
      ok := conn.Write(enc);
    }
    part := [];
    if !ok {
      part := conn.output[|was|..];
      PrefixedLawful();
      PartOfFrameNeverComplete(PREFIXED, FitsPrefix, enc, part);
    }
  }

  lemma PlainStep(key: Key, off: Offset, b: seq<Byte>, chunk: seq<Byte>, rest: seq<Byte>)
    requires DecodePrefixed(b) == Some((chunk, |b| - |rest|)) && |rest| < |b| && b[|b| - |rest|..] == rest
    ensures Plain(key, off, b) == Mask(key, off, chunk) + Plain(key, Advance(off, |chunk|), rest)
  {
  }

  lemma CipherOneMore(key: Key, off: Offset, cs: seq<seq<Byte>>, n: nat)
    requires n < |cs|
    ensures var at := Advance(off, |Concat(cs[..n])|);
      && Cipher(key, off, cs[..n + 1]) == Cipher(key, off, cs[..n]) + EncodePrefixed(Mask(key, at, cs[n]))
      && Advance(at, |cs[n]|) == Advance(off, |Concat(cs[..n + 1])|)
  {
    var at := Advance(off, |Concat(cs[..n])|);
    assert cs[..n + 1] == cs[..n] + [cs[n]];
    MaskAllAppend(key, off, cs[..n], [cs[n]]);
    assert MaskAll(key, at, [cs[n]]) == [Mask(key, at, cs[n])];
    EncodeAllAppend(PREFIXED, MaskAll(key, off, cs[..n]), [Mask(key, at, cs[n])]);
    EncodeAllSingle(PREFIXED, Mask(key, at, cs[n]));
    ConcatAppend(cs[..n], [cs[n]]);
    ConcatSingle(cs[n]);
    AdvanceTwice(off, |Concat(cs[..n])|, |cs[n]|);
  }

  // ---- the handshake -------------------------------------------------------------------------

  function Hello(nonce: seq<Byte>): seq<Byte> {
    MAGIC + nonce
  }

  method WrapServer(conn: ByteConn, hash: seq<Byte> -> Key, serverNonce: seq<Byte>) returns (s: Option<SlipConn>)
    requires |serverNonce| == NONCE_LENGTH
    modifies conn
    ensures s.Some? ==> fresh(s.value) && s.value.conn == conn
    ensures s.Some? ==> |old(conn.input)| >= 20 && old(conn.input)[..4] == MAGIC
    ensures s.Some? ==> s.value.key == hash(old(conn.input)[4..20] + serverNonce)
    ensures s.Some? ==> s.value.rbuf == [] && s.value.roff == 0 == s.value.woff
    ensures s.Some? ==> conn.input == old(conn.input)[20..] && conn.output == old(conn.output) + Hello(serverNonce)
    ensures s.None? ==> |old(conn.input)| < 20 || old(conn.input)[..4] != MAGIC || conn.dead
  {
    ghost var b := conn.input;
    var ok, hello := conn.ReadFull(20);
    if !ok {
      return None;
    }
    assert b[..4] == hello[..4] && b[4..20] == hello[4..20];
    if hello[..4] != MAGIC {
      return None;
    }
    ok := conn.Write(Hello(serverNonce));
    if !ok {
      return None;
    }
    var c := new SlipConn(conn, hash(hello[4..20] + serverNonce));
    s := Some(c);
  }

  // the hello goes out first; `reply` is what the connection then brings
  method WrapClient(conn: ByteConn, hash: seq<Byte> -> Key, clientNonce: seq<Byte>) returns (s: Option<SlipConn>)
    requires |clientNonce| == NONCE_LENGTH
    modifies conn
    ensures s.Some? ==> fresh(s.value) && s.value.conn == conn
    ensures s.Some? ==> |old(conn.input)| >= 20 && old(conn.input)[..4] == MAGIC
    ensures s.Some? ==> s.value.key == hash(clientNonce + old(conn.input)[4..20])
    ensures s.Some? ==> s.value.rbuf == [] && s.value.roff == 0 == s.value.woff
    ensures s.Some? ==> conn.input == old(conn.input)[20..] && conn.output == old(conn.output) + Hello(clientNonce)
    ensures s.None? ==> |old(conn.input)| < 20 || old(conn.input)[..4] != MAGIC || conn.dead
  {
    ghost var b := conn.input;
    var ok := conn.Write(Hello(clientNonce));
    if !ok {
      return None;
    }
    var reply;
    ok, reply := conn.ReadFull(20);
    if !ok {
      return None;
    }
    assert b[..4] == reply[..4] && b[4..20] == reply[4..20];
    if reply[..4] != MAGIC {
      return None;
    }
    var c := new SlipConn(conn, hash(clientNonce + reply[4..20]));
    s := Some(c);
  }

  /** Both ends derive the same key: what each hashes is the client's nonce, then the
      server's, whatever the hash is and whatever follows the hellos. */
  lemma HandshakeAgrees(hash: seq<Byte> -> Key, clientNonce: seq<Byte>, serverNonce: seq<Byte>,
                        toServer: seq<Byte>, toClient: seq<Byte>, restS: seq<Byte>, restC: seq<Byte>)
    requires |clientNonce| == |serverNonce| == NONCE_LENGTH
    requires toServer == Hello(clientNonce) + restS && toClient == Hello(serverNonce) + restC
    ensures toServer[..4] == [83, 76, 80, 49] == toClient[..4]
    ensures hash(toServer[4..20] + serverNonce) == hash(clientNonce + toClient[4..20])
    ensures toServer[20..] == restS && toClient[20..] == restC
  {
    assert toServer[4..20] == clientNonce;
    assert toClient[4..20] == serverNonce;
  }
}
