/** Self-delimiting frames over a byte stream.  Every wire format of the
    repository is a header that fixes the length of what follows, so one theory
    of reassembly serves them all: a codec obeys two laws (an encoded frame
    decodes to itself whatever follows it; a proper prefix of an encoded frame
    decodes to nothing yet), and then a reader that repeats "decode one frame"
    recovers the frames that were written, however the bytes were split. */
module Framing {
  import opened Wrappers
  import opened Bytes

  // decode answers the first frame of its argument and the bytes it took, or None
  // when there is no complete acceptable frame there
  datatype Codec<!F> = Codec(encode: F -> seq<Byte>, decode: seq<Byte> -> Option<(F, nat)>)

  ghost predicate Lawful<F(!new)>(c: Codec<F>, valid: F -> bool) {
    && (forall f, rest :: valid(f) ==> c.decode(c.encode(f) + rest) == Some((f, |c.encode(f)|)))
    && (forall f, p :: valid(f) && p <= c.encode(f) && p != c.encode(f) ==> c.decode(p).None?)
    && (forall f :: valid(f) ==> |c.encode(f)| > 0)
  }

  ghost predicate AllValid<F>(fs: seq<F>, valid: F -> bool) {
    forall i :: 0 <= i < |fs| ==> valid(fs[i])
  }

  function EncodeAll<F>(c: Codec<F>, fs: seq<F>): seq<Byte> {
    if fs == [] then [] else c.encode(fs[0]) + EncodeAll(c, fs[1..])
  }

  function DecodeAll<F>(c: Codec<F>, b: seq<Byte>): seq<F>
    decreases |b|
  {
    match c.decode(b)
    case Some((f, n)) => if 0 < n <= |b| then [f] + DecodeAll(c, b[n..]) else []
    case None => []
  }

  /** What a reader still holds after the last complete frame. */
  function Leftover<F>(c: Codec<F>, b: seq<Byte>): seq<Byte>
    decreases |b|
  {
    match c.decode(b)
    case Some((f, n)) => if 0 < n <= |b| then Leftover(c, b[n..]) else b
    case None => b
  }

  /** Bytes in which no reader ever finds a complete frame: the part of a frame
      that got out before a write failed. */
  ghost predicate NeverComplete<F>(c: Codec<F>, tail: seq<Byte>) {
    forall p :: p <= tail ==> c.decode(p).None?
  }

  lemma PartOfFrameNeverComplete<F(!new)>(c: Codec<F>, valid: F -> bool, f: F, tail: seq<Byte>)
    requires Lawful(c, valid) && valid(f) && tail <= c.encode(f) && tail != c.encode(f)
    ensures NeverComplete(c, tail)
  {
    forall p | p <= tail
      ensures c.decode(p).None?
    {
      assert p <= c.encode(f) && p != c.encode(f);
    }
  }

  lemma {:induction false} EncodeAllAppend<F>(c: Codec<F>, a: seq<F>, b: seq<F>)
    ensures EncodeAll(c, a + b) == EncodeAll(c, a) + EncodeAll(c, b)
  {
    if a == [] {
      assert a + b == b;
    } else {
      EncodeAllAppend(c, a[1..], b);
      assert (a + b)[1..] == a[1..] + b;
    }
  }

  lemma EncodeAllSingle<F>(c: Codec<F>, f: F)
    ensures EncodeAll(c, [f]) == c.encode(f)
  {
    assert [f][1..] == [];
  }

  lemma DecodeOne<F(!new)>(c: Codec<F>, valid: F -> bool, f: F, rest: seq<Byte>)
    requires Lawful(c, valid) && valid(f)
    ensures DecodeAll(c, c.encode(f) + rest) == [f] + DecodeAll(c, rest)
    ensures Leftover(c, c.encode(f) + rest) == Leftover(c, rest)
    ensures |c.encode(f)| > 0
  {
    var b := c.encode(f) + rest;
    assert c.decode(b) == Some((f, |c.encode(f)|));
    assert b[|c.encode(f)|..] == rest;
  }

  lemma DecodePart<F(!new)>(c: Codec<F>, valid: F -> bool, f: F, p: seq<Byte>)
    requires Lawful(c, valid) && valid(f) && p <= c.encode(f) && p != c.encode(f)
    ensures DecodeAll(c, p) == [] && Leftover(c, p) == p
  {
  }

  /** Decoding resumes at the next frame boundary. */
  lemma {:induction false} DecodeAllConcat<F(!new)>(c: Codec<F>, valid: F -> bool, fs: seq<F>, rest: seq<Byte>)
    requires Lawful(c, valid) && AllValid(fs, valid)
    ensures DecodeAll(c, EncodeAll(c, fs) + rest) == fs + DecodeAll(c, rest)
    ensures Leftover(c, EncodeAll(c, fs) + rest) == Leftover(c, rest)
  {
    if fs == [] {
      assert EncodeAll(c, fs) + rest == rest;
    } else {
      var more := EncodeAll(c, fs[1..]) + rest;
      EncodeAllFront(c, fs, rest);
      DecodeOne(c, valid, fs[0], more);
      DecodeAllConcat(c, valid, fs[1..], rest);
      FrontAgain(fs, DecodeAll(c, rest));
    }
  }

  lemma EncodeAllFront<F>(c: Codec<F>, fs: seq<F>, rest: seq<Byte>)
    requires fs != []
    ensures EncodeAll(c, fs) + rest == c.encode(fs[0]) + (EncodeAll(c, fs[1..]) + rest)
  {
  }

  lemma FrontAgain<T>(a: seq<T>, b: seq<T>)
    requires a != []
    ensures [a[0]] + (a[1..] + b) == a + b
  {
  }

  /** Where a split falls: after some whole frames, inside the next one. */
  lemma {:induction false} SplitPoint<F>(c: Codec<F>, fs: seq<F>, tail: seq<Byte>, arrived: seq<Byte>)
      returns (n: nat, part: seq<Byte>)
    requires arrived <= EncodeAll(c, fs) + tail
    ensures n <= |fs| && arrived == EncodeAll(c, fs[..n]) + part
    ensures n < |fs| ==> part <= c.encode(fs[n]) && part != c.encode(fs[n])
    ensures n == |fs| ==> part <= tail
  {
    if fs == [] {
      n, part := 0, arrived;
    } else {
      var e := c.encode(fs[0]);
      EncodeAllFront(c, fs, tail);
      if |arrived| < |e| {
        n, part := 0, arrived;
      } else {
        var more := arrived[|e|..];
        assert arrived == e + more;
        n, part := SplitPoint(c, fs[1..], tail, more);
        assert fs[..n + 1] == [fs[0]] + fs[1..][..n];
        EncodeAllFront(c, fs[..n + 1], part);
        assert fs[..n + 1][1..] == fs[1..][..n];
        n := n + 1;
      }
    }
  }

  /** Reassembly.  From any part of the stream that has arrived, a reader
      recovers exactly the frames that are complete in it: a prefix of the
      frames written, all of them once all bytes are in, and never short of a
      frame whose last byte has arrived. */
  lemma Reassembly<F(!new)>(
      c: Codec<F>, valid: F -> bool, fs: seq<F>, tail: seq<Byte>, arrived: seq<Byte>)
    requires Lawful(c, valid) && AllValid(fs, valid) && NeverComplete(c, tail)
    requires arrived <= EncodeAll(c, fs) + tail
    ensures DecodeAll(c, arrived) <= fs
    ensures arrived == EncodeAll(c, DecodeAll(c, arrived)) + Leftover(c, arrived)
    ensures EncodeAll(c, fs) <= arrived ==> DecodeAll(c, arrived) == fs
    ensures var n := |DecodeAll(c, arrived)|; n < |fs| ==> |Leftover(c, arrived)| < |c.encode(fs[n])|
  {
    var n, part := SplitPoint(c, fs, tail, arrived);
    if n < |fs| {
      DecodePart(c, valid, fs[n], part);
      EncodeAllLonger(c, fs, n);
    }
    DecodeAllConcat(c, valid, fs[..n], part);
    assert fs[..n] + [] == fs[..n];
    assert DecodeAll(c, part) == [] && Leftover(c, part) == part;
  }

  lemma EncodeAllLonger<F>(c: Codec<F>, fs: seq<F>, n: nat)
    requires n < |fs|
    ensures |EncodeAll(c, fs)| >= |EncodeAll(c, fs[..n])| + |c.encode(fs[n])|
  {
    assert fs == fs[..n] + ([fs[n]] + fs[n + 1..]);
    EncodeAllAppend(c, fs[..n], [fs[n]] + fs[n + 1..]);
    EncodeAllAppend(c, [fs[n]], fs[n + 1..]);
    EncodeAllSingle(c, fs[n]);
  }

  /** More bytes never undo a frame already recovered. */
  lemma ReassemblyGrows<F(!new)>(
      c: Codec<F>, valid: F -> bool, fs: seq<F>, tail: seq<Byte>, arrived: seq<Byte>, more: seq<Byte>)
    requires Lawful(c, valid) && AllValid(fs, valid) && NeverComplete(c, tail)
    requires arrived + more <= EncodeAll(c, fs) + tail
    ensures DecodeAll(c, arrived) <= DecodeAll(c, arrived + more)
  {
    var d, l := DecodeAll(c, arrived), Leftover(c, arrived);
    PrefixTrans(arrived, more, EncodeAll(c, fs) + tail);
    Reassembly(c, valid, fs, tail, arrived);
    Assoc(EncodeAll(c, d), l, more);
    DecodeAllConcat(c, valid, d, l + more);
  }
}
