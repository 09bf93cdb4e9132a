/** UDP datagrams on a byte stream: writeDatagramFrame and readDatagramFrame. */
module Datagrams {
  import opened Wrappers
  import opened Bytes
  import opened Framing
  import opened Prefixed
  import opened Conn

  /** A datagram is cut at 65535 bytes before it is framed. */
  function Clip(p: seq<Byte>): (q: seq<Byte>)
    ensures |p| <= 65535 ==> q == p
    ensures |p| > 65535 ==> q == p[..65535]
  {
    if |p| > MAX_16 then p[..MAX_16] else p
  }

  /** writeDatagramFrame: whatever fits its length field goes out framed as it is. */
  method WriteDatagram(conn: ByteConn, p: seq<Byte>) returns (ok: bool)
    modifies conn`output, conn`dead
    ensures ok ==> conn.output == old(conn.output) + EncodePrefixed(Clip(p))
    ensures ok && |p| <= 65535 ==> conn.output == old(conn.output) + EncodePrefixed(p)
    ensures ok && |p| > 65535 ==> conn.output == old(conn.output) + EncodePrefixed(p[..65535])
    ensures !ok ==> conn.dead && old(conn.output) <= conn.output <= old(conn.output) + EncodePrefixed(Clip(p))
  {
    var q := if |p| > MAX_16 then p[..MAX_16] else p;
    ok := conn.Write(BigEndian(|q|, 2));
    if ok {
      ok := conn.Write(q);
    }
  }

  method ReadDatagram(conn: ByteConn) returns (p: Option<seq<Byte>>)
    modifies conn`input
    ensures p.None? <==> DecodePrefixed(old(conn.input)).None?
    ensures p.Some? ==> var (q, n) := DecodePrefixed(old(conn.input)).value;
      p.value == q && 0 < n <= |old(conn.input)| && conn.input == old(conn.input)[n..]
  {
    ghost var b := conn.input;
    var ok, h := conn.ReadFull(2);
    if !ok {
      return None;
    }
    assert b == h + conn.input && b[..2] == h;
    var n := FromBigEndian(h);
    if n == 0 {
      return Some([]);
    }
    var q;
    ok, q := conn.ReadFull(n);
    if !ok {
      return None;
    }
    assert b[2..2 + n] == q && b[2 + n..] == conn.input;
    p := Some(q);
  }

  /** The relay loop up to the end of the stream: exactly the datagrams that are
      complete in what arrives, in order, each with its own boundaries. */
  method ReadAllDatagrams(conn: ByteConn) returns (ps: seq<seq<Byte>>)
    modifies conn`input
    ensures ps == DecodeAll(PREFIXED, old(conn.input))
  {
    ps := [];
    ghost var b := conn.input;
    while true
      invariant ps + DecodeAll(PREFIXED, conn.input) == DecodeAll(PREFIXED, b)
      decreases |conn.input|
    {
      ghost var before := conn.input;
      var p := ReadDatagram(conn);
      if p.None? {
        return;
      }
      assert DecodeAll(PREFIXED, before) == [p.value] + DecodeAll(PREFIXED, conn.input);
      ps := ps + [p.value];
    }
  }

  lemma NothingIncomplete()
    ensures NeverComplete(PREFIXED, [])
  {
  }

  /** Boundaries.  From any prefix of the framed stream the reader has a prefix of the
      list of datagrams, empty ones included, and all of it at the end. */
  lemma DatagramsArePrefix(ds: seq<seq<Byte>>, arrived: seq<Byte>)
    requires AllValid(ds, FitsPrefix) && arrived <= EncodeAll(PREFIXED, ds)
    ensures DecodeAll(PREFIXED, arrived) <= ds
    ensures arrived == EncodeAll(PREFIXED, ds) ==> DecodeAll(PREFIXED, arrived) == ds
  {
    PrefixedLawful();
    NothingIncomplete();
    assert EncodeAll(PREFIXED, ds) + [] == EncodeAll(PREFIXED, ds);
    Reassembly(PREFIXED, FitsPrefix, ds, [], arrived);
  }
}
