/** A two-byte big-endian length, then that many bytes: the form of a Slipstream
    chunk and of a UDP datagram on a stream. */
module Prefixed {
  import opened Wrappers
  import opened Bytes
  import opened Framing

  function EncodePrefixed(p: seq<Byte>): seq<Byte> {
    BigEndian(|p|, 2) + p
  }

  function DecodePrefixed(b: seq<Byte>): Option<(seq<Byte>, nat)> {
    if |b| < 2 then None
    else
      var n := FromBigEndian(b[..2]);
      if |b| < 2 + n then None else Some((b[2..2 + n], 2 + n))
  }

  predicate FitsPrefix(p: seq<Byte>) {
    |p| <= MAX_16
  }

  const PREFIXED: Codec<seq<Byte>> := Codec(EncodePrefixed, DecodePrefixed)

  /** Two bytes of length, the one that counts most first, then the bytes themselves. */
  lemma PrefixedLayout(p: seq<Byte>)
    requires |p| <= 65535
    ensures EncodePrefixed(p) == [|p| / 256, |p| % 256] + p
  {
    BigEndianTwo(|p|);
    hide BigEndian;
  }

  lemma PrefixedWhole(p: seq<Byte>, rest: seq<Byte>)
    requires FitsPrefix(p)
    ensures DecodePrefixed(EncodePrefixed(p) + rest) == Some((p, |EncodePrefixed(p)|))
  {
    var b := EncodePrefixed(p) + rest;
    Pow256Values();
    BigEndianRoundTrip(|p|, 2);
    assert b[..2] == BigEndian(|p|, 2);
    assert b[2..2 + |p|] == p;
  }

  lemma PrefixedPart(p: seq<Byte>, q: seq<Byte>)
    requires FitsPrefix(p) && q <= EncodePrefixed(p) && q != EncodePrefixed(p)
    ensures DecodePrefixed(q).None?
  {
    if |q| >= 2 {
      Pow256Values();
      BigEndianRoundTrip(|p|, 2);
      assert q[..2] == BigEndian(|p|, 2);
    }
  }

  /** Length-prefixed blocks of at most 65535 bytes reassemble, empty ones included. */
  lemma PrefixedLawful()
    ensures Lawful(PREFIXED, FitsPrefix)
  {
    forall p, rest | FitsPrefix(p)
      ensures PREFIXED.decode(PREFIXED.encode(p) + rest) == Some((p, |PREFIXED.encode(p)|))
    {
      PrefixedWhole(p, rest);
    }
    forall p, q | FitsPrefix(p) && q <= PREFIXED.encode(p) && q != PREFIXED.encode(p)
      ensures PREFIXED.decode(q).None?
    {
      PrefixedPart(p, q);
    }
  }
}
