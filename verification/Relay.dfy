/** The UDP relay on a stream of the multiplexer: writeDatagramFrame writes to the stream
    in two calls, each cut into frames of the multiplexer. */
module Relay {
  import opened Bytes
  import opened Datagrams
  import opened Framing
  import opened MuxSession
  import opened Prefixed
  import M = MuxModel

  // what a call of Write adds to a stream: the first few chunks of its argument
  lemma ChunksFront(p: seq<Byte>, n: nat)
    requires n <= |M.Chunks(p)|
    ensures var part := Concat(M.Chunks(p)[..n]);
      part <= p && (part == p <==> n == |M.Chunks(p)|)
  {
    var cs := M.Chunks(p);
    assert cs == cs[..n] + cs[n..];
    ConcatAppend(cs[..n], cs[n..]);
    if n < |cs| {
      ConcatFront(cs[n..]);
      assert |cs[n]| > 0;
    } else {
      assert cs[..n] == cs;
    }
  }

  lemma Behind(before: seq<Byte>, h: seq<Byte>, part: seq<Byte>, q: seq<Byte>)
    requires part <= q
    ensures before + h + part == before + (h + part) <= before + (h + q)
    ensures before + h + part == before + (h + q) <==> part == q
  {
  }

  /** writeDatagramFrame on a stream: the stream has taken the frame whole, or, when the
      stream or the session is closed or the connection is lost, a proper part of it. */
  method WriteDatagram(s: MuxSession, st: MuxStream, p: seq<Byte>) returns (ok: bool)
    requires s.Valid() && s.Mine(st) && st.opening == M.Live
    modifies s`sent, s`tail, s.conn`output, s.conn`dead, st`written
    ensures s.Valid()
    ensures old(st.written) <= st.written <= old(st.written) + EncodePrefixed(Clip(p))
    ensures ok <==> st.written == old(st.written) + EncodePrefixed(Clip(p))
    ensures |p| <= 65535 ==> (ok <==> st.written == old(st.written) + EncodePrefixed(p))
    ensures |p| > 65535 ==> (ok <==> st.written == old(st.written) + EncodePrefixed(p[..65535]))
    ensures !ok ==> s.closed || s.conn.dead || st.localClosed
  {
    hide Concat, M.Chunks, M.WriteChunk, M.WriteChunks, MuxSession.Valid, MuxSession.Mine;
    var q := if |p| > MAX_16 then p[..MAX_16] else p;
    var h := BigEndian(|q|, 2);
    ghost var n;
    ok, n := s.Write(st, h);
    ChunksFront(h, n);
    if ok {
      ok := WritePayload(s, st, old(st.written), h, q);
    }
  }

  method WritePayload(s: MuxSession, st: MuxStream, ghost before: seq<Byte>, ghost h: seq<Byte>, q: seq<Byte>)
      returns (ok: bool)
    requires s.Valid() && s.Mine(st) && st.opening == M.Live && st.written == before + h
    requires !s.closed && !st.localClosed
    modifies s`sent, s`tail, s.conn`output, s.conn`dead, st`written
    ensures s.Valid()
    ensures before <= st.written <= before + (h + q)
    ensures ok <==> st.written == before + (h + q)
    ensures !ok ==> s.closed || s.conn.dead || st.localClosed
  {
    hide Concat, M.Chunks, M.WriteChunk, M.WriteChunks;
    ghost var n;
    ok, n := s.Write(st, q);
    ChunksFront(q, n);
    Behind(before, h, Concat(M.Chunks(q)[..n]), q);
  }

  function Clipped(ds: seq<seq<Byte>>): (cs: seq<seq<Byte>>)
    ensures |cs| == |ds| && AllValid(cs, FitsPrefix)
    ensures forall i :: 0 <= i < |ds| ==> cs[i] == Clip(ds[i])
  {
    seq(|ds|, i requires 0 <= i < |ds| => Clip(ds[i]))
  }

  // datagrams that fit their length field are framed as they are
  lemma ClippedSame(ds: seq<seq<Byte>>)
    requires forall i :: 0 <= i < |ds| ==> |ds[i]| <= 65535
    ensures Clipped(ds) == ds
  {
    hide Clip;
    forall i | 0 <= i < |ds|
      ensures Clipped(ds)[i] == ds[i]
    {
      ClipSame(ds[i]);
    }
  }

  lemma ClipSame(d: seq<Byte>)
    requires |d| <= 65535
    ensures Clip(d) == d
  {
  }

  lemma OneFrame(d: seq<Byte>)
    ensures EncodeAll(PREFIXED, [d]) == EncodePrefixed(d)
  {
    hide EncodePrefixed;
    EncodeAllSingle(PREFIXED, d);
  }

  lemma FrameBehind(ds: seq<seq<Byte>>, d: seq<Byte>)
    ensures EncodeAll(PREFIXED, ds + [d]) == EncodeAll(PREFIXED, ds) + EncodePrefixed(d)
  {
    hide EncodeAll, EncodePrefixed;
    OneFrame(d);
    EncodeAllAppend(PREFIXED, ds, [d]);
  }

  lemma FirstFew(cs: seq<seq<Byte>>, k: nat)
    requires k <= |cs|
    ensures EncodeAll(PREFIXED, cs[..k]) <= EncodeAll(PREFIXED, cs)
  {
    hide EncodeAll;
    assert cs == cs[..k] + cs[k..];
    EncodeAllAppend(PREFIXED, cs[..k], cs[k..]);
  }

  lemma OneMore(cs: seq<seq<Byte>>, k: nat)
    requires k < |cs|
    ensures EncodeAll(PREFIXED, cs[..k + 1]) == EncodeAll(PREFIXED, cs[..k]) + EncodePrefixed(cs[k])
    ensures EncodeAll(PREFIXED, cs[..k + 1]) <= EncodeAll(PREFIXED, cs)
  {
    hide EncodeAll, EncodePrefixed;
    FirstFew(cs, k + 1);
    FrameBehind(cs[..k], cs[k]);
    assert cs[..k + 1] == cs[..k] + [cs[k]];
  }

  lemma PartOfMore(before: seq<Byte>, a: seq<Byte>, b: seq<Byte>, all: seq<Byte>, now: seq<Byte>)
    requires a + b <= all && before + a <= now <= before + a + b && now != before + a + b
    ensures before <= now <= before + all && now != before + all
  {
    assert before + (a + b) == before + a + b;
    assert before + all == before + (a + b) + all[|a + b|..];
  }

  /** A relay's writing loop: whatever packets come and wherever it stops, what the stream
      has taken since is the beginning of their frames in order, and all of them when no
      write failed.  Of datagrams that all fit, that is the list itself framed, which is
      what a reader of the stream is promised a prefix of. */
  method WriteAll(s: MuxSession, st: MuxStream, ds: seq<seq<Byte>>) returns (ok: bool)
    requires s.Valid() && s.Mine(st) && st.opening == M.Live
    modifies s`sent, s`tail, s.conn`output, s.conn`dead, st`written
    ensures s.Valid()
    ensures old(st.written) <= st.written <= old(st.written) + EncodeAll(PREFIXED, Clipped(ds))
    ensures ok <==> st.written == old(st.written) + EncodeAll(PREFIXED, Clipped(ds))
    ensures (forall i :: 0 <= i < |ds| ==> |ds[i]| <= 65535) ==>
      && old(st.written) <= st.written <= old(st.written) + EncodeAll(PREFIXED, ds)
      && (ok <==> st.written == old(st.written) + EncodeAll(PREFIXED, ds))
    ensures !ok ==> s.closed || s.conn.dead || st.localClosed
  {
    hide EncodeAll, EncodePrefixed, Clip, MuxSession.Valid, MuxSession.Mine;
    if forall i :: 0 <= i < |ds| ==> |ds[i]| <= 65535 {
      ClippedSame(ds);
    }
    ghost var cs := Clipped(ds);
    assert EncodeAll(PREFIXED, cs[..0]) == [] by { NoFrames(cs); }
    ok := true;
    for k := 0 to |ds|
      invariant s.Valid() && s.Mine(st) && st.opening == M.Live
      invariant st.written == old(st.written) + EncodeAll(PREFIXED, cs[..k]) && ok
    {
      OneMore(cs, k);
      ok := WriteDatagram(s, st, ds[k]);
      if !ok {
        PartOfMore(old(st.written), EncodeAll(PREFIXED, cs[..k]), EncodePrefixed(cs[k]), EncodeAll(PREFIXED, cs),
                   st.written);
        return;
      }
    }
    assert cs[..|ds|] == cs;
  }

  lemma NoFrames(cs: seq<seq<Byte>>)
    ensures EncodeAll(PREFIXED, cs[..0]) == []
  {
  }
}
