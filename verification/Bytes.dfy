/** Bytes, exclusive or on them, big-endian integers and concatenation of chunks. */
module Bytes {
  type Byte = b: int | 0 <= b < 256

  const MAX_16 := 65535
  const TWO_32 := 0x1_0000_0000
  const TWO_64 := 0x1_0000_0000_0000_0000

  // ---- exclusive or, bit by bit ------------------------------------------

  function Pow2(n: nat): nat {
    if n == 0 then 1 else 2 * Pow2(n - 1)
  }

  function XorBits(a: nat, b: nat, n: nat): nat {
    if n == 0 then 0
    else 2 * XorBits(a / 2, b / 2, n - 1) + (if a % 2 != b % 2 then 1 else 0)
  }

  lemma {:induction false} XorBitsBound(a: nat, b: nat, n: nat)
    ensures XorBits(a, b, n) < Pow2(n)
  {
    if n != 0 {
      XorBitsBound(a / 2, b / 2, n - 1);
    }
  }

  function Xor(a: Byte, b: Byte): Byte {
    XorBitsBound(a, b, 8);
    assert Pow2(8) == 256 by { assert Pow2(4) == 16; }
    XorBits(a, b, 8)
  }

  lemma {:induction false} XorBitsTwice(a: nat, b: nat, n: nat)
    requires a < Pow2(n)
    ensures XorBits(XorBits(a, b, n), b, n) == a
  {
    if n != 0 {
      var x := XorBits(a, b, n);
      assert x / 2 == XorBits(a / 2, b / 2, n - 1);
      XorBitsTwice(a / 2, b / 2, n - 1);
    }
  }

  /** Masking with the same byte twice gives the byte back. */
  lemma XorTwice(a: Byte, b: Byte)
    ensures Xor(Xor(a, b), b) == a
  {
    assert Pow2(8) == 256 by { assert Pow2(4) == 16; }
    XorBitsTwice(a, b, 8);
  }

  // the bit of n that counts 2^k
  function Bit(n: nat, k: nat): bool {
    if k == 0 then n % 2 == 1 else Bit(n / 2, k - 1)
  }

  lemma {:induction false} XorBitsAt(a: nat, b: nat, n: nat, k: nat)
    requires k < n
    ensures Bit(XorBits(a, b, n), k) == (Bit(a, k) != Bit(b, k))
  {
    var x := XorBits(a, b, n);
    assert x / 2 == XorBits(a / 2, b / 2, n - 1);
    if k > 0 {
      XorBitsAt(a / 2, b / 2, n - 1, k - 1);
    }
  }

  /** Each of the eight bits is set where exactly one of the arguments has it. */
  lemma XorAt(a: Byte, b: Byte, k: nat)
    requires k < 8
    ensures Bit(Xor(a, b), k) == (Bit(a, k) != Bit(b, k))
  {
    XorBitsAt(a, b, 8, k);
  }

  // ---- big-endian integers -----------------------------------------------

  function Pow256(k: nat): nat {
    if k == 0 then 1 else 256 * Pow256(k - 1)
  }

  function BigEndian(n: nat, k: nat): (s: seq<Byte>)
    ensures |s| == k
  {
    if k == 0 then [] else BigEndian(n / 256, k - 1) + [n % 256]
  }

  function FromBigEndian(s: seq<Byte>): nat {
    if s == [] then 0 else 256 * FromBigEndian(s[..|s| - 1]) + s[|s| - 1]
  }

  /** The byte that counts most comes first. */
  lemma BigEndianTwo(n: nat)
    requires n < 65536
    ensures BigEndian(n, 2) == [n / 256, n % 256]
  {
    BigEndianSnoc(n, 2);
  }

  lemma BigEndianFour(n: nat)
    requires n < TWO_32
    ensures BigEndian(n, 4) == [n / 256 / 256 / 256, n / 256 / 256 % 256, n / 256 % 256, n % 256]
  {
    hide BigEndian;
    BigEndianSnoc(n, 4);
    BigEndianZero(0);
    var low := [n / 256 / 256 / 256 % 256, n / 256 / 256 % 256, n / 256 % 256, n % 256];
    assert BigEndian(n / 256 / 256 / 256 / 256, 0) + low == low;
    assert n / 256 / 256 / 256 % 256 == n / 256 / 256 / 256;
  }

  lemma BigEndianEight(n: nat)
    requires n < TWO_32
    ensures BigEndian(n, 8) == [0, 0, 0, 0] + BigEndian(n, 4)
  {
    hide BigEndian;
    BigEndianSnoc(n, 8);
    BigEndianSnoc(n, 4);
    BigEndianZero(4);
    BigEndianZero(0);
    assert n / 256 / 256 / 256 / 256 == 0;
    assert seq<Byte>(4, i => 0) == [0, 0, 0, 0];
    var low := [n / 256 / 256 / 256 % 256, n / 256 / 256 % 256, n / 256 % 256, n % 256];
    assert BigEndian(0, 0) + low == low;
  }

  lemma {:induction false} BigEndianZero(k: nat)
    ensures BigEndian(0, k) == seq(k, i => 0)
  {
    if k > 0 {
      BigEndianZero(k - 1);
    }
  }

  lemma BigEndianSnoc(n: nat, k: nat)
    requires k >= 2
    ensures k == 2 ==> BigEndian(n, k) == [n / 256 % 256, n % 256]
    ensures k >= 4 ==>
      var low := [n / 256 / 256 / 256 % 256, n / 256 / 256 % 256, n / 256 % 256, n % 256];
      BigEndian(n, k) == BigEndian(n / 256 / 256 / 256 / 256, k - 4) + low
  {
    var m := n / 256;
    assert BigEndian(n, k) == BigEndian(m, k - 1) + [n % 256];
    assert BigEndian(m, k - 1) == BigEndian(m / 256, k - 2) + [m % 256];
    if k >= 4 {
      assert BigEndian(m / 256, k - 2) == BigEndian(m / 256 / 256, k - 3) + [m / 256 % 256];
    }
  }

  lemma {:induction false} BigEndianRoundTrip(n: nat, k: nat)
    requires n < Pow256(k)
    ensures FromBigEndian(BigEndian(n, k)) == n
  {
    if k != 0 {
      BigEndianRoundTrip(n / 256, k - 1);
      assert BigEndian(n, k)[..k - 1] == BigEndian(n / 256, k - 1);
    }
  }

  lemma {:induction false} FromBigEndianBound(s: seq<Byte>)
    ensures FromBigEndian(s) < Pow256(|s|)
  {
    if s != [] {
      FromBigEndianBound(s[..|s| - 1]);
    }
  }

  lemma Pow256Values()
    ensures Pow256(1) == 256 && Pow256(2) == 65536 && Pow256(4) == TWO_32 && Pow256(8) == TWO_64
  {
    assert Pow256(4) == 65536 * Pow256(2);
    assert Pow256(6) == 65536 * Pow256(4);
    assert Pow256(8) == 65536 * Pow256(6);
  }

  // ---- concatenation ------------------------------------------------------

  function Concat<T>(chunks: seq<seq<T>>): seq<T> {
    if chunks == [] then [] else chunks[0] + Concat(chunks[1..])
  }

  lemma ConcatFront<T>(a: seq<seq<T>>)
    ensures a == [] ==> Concat(a) == []
    ensures a != [] ==> Concat(a) == a[0] + Concat(a[1..])
  {
  }

  lemma {:induction false} ConcatAppend<T>(a: seq<seq<T>>, b: seq<seq<T>>)
    ensures Concat(a + b) == Concat(a) + Concat(b)
  {
    ConcatFront(a);
    ConcatFront(a + b);
    hide Concat;
    if a == [] {
      assert a + b == b;
    } else {
      assert (a + b)[0] == a[0] && (a + b)[1..] == a[1..] + b;
      ConcatAppend(a[1..], b);
      Assoc(a[0], Concat(a[1..]), Concat(b));
    }
  }

  lemma ConcatSingle<T>(c: seq<T>)
    ensures Concat([c]) == c
  {
    assert [c][1..] == [];
  }

  /** How every Write loop cuts its argument: full chunks, then the rest. */
  function Split<T>(p: seq<T>, limit: nat): (cs: seq<seq<T>>)
    requires limit > 0
    ensures Concat(cs) == p
    ensures forall i :: 0 <= i < |cs| ==> 0 < |cs[i]| <= limit
    ensures forall i :: 0 <= i < |cs| - 1 ==> |cs[i]| == limit
  {
    if p == [] then []
    else if |p| <= limit then ConcatSingle(p); [p]
    else [p[..limit]] + Split(p[limit..], limit)
  }

  /** One turn of such a loop: the next chunk is the next piece of the split. */
  lemma SplitFront<T>(rest: seq<T>, chunk: seq<T>, cs: seq<seq<T>>, n: nat, limit: nat)
    requires limit > 0 && n <= |cs| && Split(rest, limit) == cs[n..] && rest != []
    requires chunk == if |rest| > limit then rest[..limit] else rest
    ensures n < |cs| && chunk == cs[n] && Split(rest[|chunk|..], limit) == cs[n + 1..]
    ensures cs[..n + 1] == cs[..n] + [chunk]
  {
    assert cs[n] == cs[n..][0];
    assert cs[n + 1..] == cs[n..][1..];
  }

  lemma Assoc<T>(a: seq<T>, b: seq<T>, c: seq<T>)
    ensures a + b + c == a + (b + c)
  {
  }

  lemma PrefixTrans<T>(a: seq<T>, b: seq<T>, c: seq<T>)
    requires a + b <= c
    ensures a <= c
  {
  }
}
