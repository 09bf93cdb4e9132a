/** UTF-8 (RFC 3629): the bytes of a character and of a string, and the character that
    bytes stand for.  No character's bytes begin or end another's, so a string can be
    read off its bytes from either end. */
module Utf8 {
  import opened Wrappers
  import opened Bytes

  function OfChar(c: char): (b: seq<Byte>)
    ensures 1 <= |b| <= 4
  {
    var n := c as int;
    if n < 0x80 then [n]
    else if n < 0x800 then [0xC0 + n / 64] + [0x80 + n % 64]
    else if n < 0x10000 then [0xE0 + n / 64 / 64] + [0x80 + n / 64 % 64] + [0x80 + n % 64]
    else [0xF0 + n / 64 / 64 / 64] + [0x80 + n / 64 / 64 % 64] + [0x80 + n / 64 % 64] + [0x80 + n % 64]
  }

  predicate Continues(b: Byte) {
    0x80 <= b < 0xC0
  }

  const LEADS: seq<int> := [0, 0xC0, 0xE0, 0xF0]

  // the code point that a lead byte and the bytes behind it spell, six bits in each
  function Value(lead: int, b: seq<Byte>): int
    requires b != []
  {
    var last: int := b[|b| - 1];
    if |b| == 1 then last - lead else 64 * Value(lead, b[..|b| - 1]) + (last - 0x80)
  }

  // continuation bytes behind the lead byte, and no shorter form for the code point
  predicate WellFormed(b: seq<Byte>) {
    && 1 <= |b| <= 4
    && (forall i :: 1 <= i < |b| ==> Continues(b[i]))
    && match |b|
       case 1 => b[0] < 0x80
       case 2 => 0xC0 <= b[0] < 0xE0 && 0x80 <= Value(0xC0, b)
       case 3 => 0xE0 <= b[0] < 0xF0 && 0x800 <= Value(0xE0, b)
       case _ => 0xF0 <= b[0] < 0xF8 && 0x10000 <= Value(0xF0, b)
  }

  function CodePoint(b: seq<Byte>): int
    requires 1 <= |b| <= 4
  {
    Value(LEADS[|b| - 1], b)
  }

  predicate IsChar(n: int) {
    0 <= n < 0xD800 || 0xE000 <= n < 0x110000
  }

  /** The character whose bytes these are. */
  function ToChar(b: seq<Byte>): Option<char> {
    if WellFormed(b) && IsChar(CodePoint(b)) then Some(CodePoint(b) as char) else None
  }

  lemma ValueSnoc(lead: int, b: seq<Byte>, d: Byte)
    requires b != []
    ensures Value(lead, b + [d]) == 64 * Value(lead, b) + (d - 0x80)
  {
    assert (b + [d])[..|b|] == b;
  }

  lemma TwoBytes(x: Byte, y: Byte)
    ensures Value(0xC0, [x] + [y]) == 64 * (x - 0xC0) + (y - 0x80)
    ensures Value(0xE0, [x] + [y]) == 64 * (x - 0xE0) + (y - 0x80)
    ensures Value(0xF0, [x] + [y]) == 64 * (x - 0xF0) + (y - 0x80)
  {
    ValueSnoc(0xC0, [x], y);
    ValueSnoc(0xE0, [x], y);
    ValueSnoc(0xF0, [x], y);
  }

  lemma Back3(n: int, x: Byte, y: Byte, z: Byte)
    requires 0x800 <= n < 0x10000 && IsChar(n)
    requires x == 0xE0 + n / 64 / 64 && y == 0x80 + n / 64 % 64 && z == 0x80 + n % 64
    ensures ToChar([x] + [y] + [z]) == Some(n as char)
  {
    TwoBytes(x, y);
    ValueSnoc(0xE0, [x] + [y], z);
    hide Value;
  }

  lemma Back4(n: int, x: Byte, y: Byte, z: Byte, w: Byte)
    requires 0x10000 <= n && IsChar(n)
    requires x == 0xF0 + n / 64 / 64 / 64 && y == 0x80 + n / 64 / 64 % 64
    requires z == 0x80 + n / 64 % 64 && w == 0x80 + n % 64
    ensures ToChar([x] + [y] + [z] + [w]) == Some(n as char)
  {
    TwoBytes(x, y);
    ValueSnoc(0xF0, [x] + [y], z);
    ValueSnoc(0xF0, [x] + [y] + [z], w);
    hide Value;
  }

  /** A character is read back from its bytes. */
  lemma ToCharOfChar(c: char)
    ensures ToChar(OfChar(c)) == Some(c)
  {
    hide ToChar;
    var n := c as int;
    if n < 0x80 {
      Back1(n);
    } else if n < 0x800 {
      Back2(n, 0xC0 + n / 64, 0x80 + n % 64);
    } else if n < 0x10000 {
      Back3(n, 0xE0 + n / 64 / 64, 0x80 + n / 64 % 64, 0x80 + n % 64);
    } else {
      Back4(n, 0xF0 + n / 64 / 64 / 64, 0x80 + n / 64 / 64 % 64, 0x80 + n / 64 % 64, 0x80 + n % 64);
    }
  }

  lemma Back1(n: int)
    requires 0 <= n < 0x80
    ensures ToChar([n]) == Some(n as char)
  {
  }

  lemma Back2(n: int, x: Byte, y: Byte)
    requires 0x80 <= n < 0x800 && x == 0xC0 + n / 64 && y == 0x80 + n % 64
    ensures ToChar([x] + [y]) == Some(n as char)
  {
    TwoBytes(x, y);
    hide Value;
  }

  lemma Digit(q: int, d: int)
    requires 0 <= d < 64
    ensures (64 * q + d) / 64 == q && (64 * q + d) % 64 == d
  {
  }

  lemma Of2(x: Byte, y: Byte)
    requires ToChar([x] + [y]).Some?
    ensures OfChar(ToChar([x] + [y]).value) == [x] + [y]
  {
    TwoBytes(x, y);
    Digit(x as int - 0xC0, y as int - 0x80);
    hide Value;
  }

  lemma Of3(x: Byte, y: Byte, z: Byte)
    requires ToChar([x] + [y] + [z]).Some?
    ensures OfChar(ToChar([x] + [y] + [z]).value) == [x] + [y] + [z]
  {
    TwoBytes(x, y);
    ValueSnoc(0xE0, [x] + [y], z);
    Digit(x as int - 0xE0, y as int - 0x80);
    Digit(Value(0xE0, [x] + [y]), z as int - 0x80);
    hide Value;
  }

  lemma Of4(x: Byte, y: Byte, z: Byte, w: Byte)
    requires ToChar([x] + [y] + [z] + [w]).Some?
    ensures OfChar(ToChar([x] + [y] + [z] + [w]).value) == [x] + [y] + [z] + [w]
  {
    TwoBytes(x, y);
    ValueSnoc(0xF0, [x] + [y], z);
    ValueSnoc(0xF0, [x] + [y] + [z], w);
    Digit(x as int - 0xF0, y as int - 0x80);
    Digit(Value(0xF0, [x] + [y]), z as int - 0x80);
    Digit(Value(0xF0, [x] + [y] + [z]), w as int - 0x80);
    hide Value;
  }

  lemma OfCharToChar(b: seq<Byte>)
    requires ToChar(b).Some?
    ensures OfChar(ToChar(b).value) == b
  {
    if |b| == 2 {
      assert b == [b[0]] + [b[1]];
      Of2(b[0], b[1]);
    } else if |b| == 3 {
      assert b == [b[0]] + [b[1]] + [b[2]];
      Of3(b[0], b[1], b[2]);
    } else if |b| == 4 {
      assert b == [b[0]] + [b[1]] + [b[2]] + [b[3]];
      Of4(b[0], b[1], b[2], b[3]);
    } else {
      assert b == [b[0]];
    }
  }

  /** One character of each length: a no-break space, a line separator, an emoji. */
  lemma KnownCharacters()
    ensures OfChar('x') == [0x78] && OfChar(0xA0 as char) == [0xC2, 0xA0]
    ensures OfChar(0x2028 as char) == [0xE2, 0x80, 0xA8] && OfChar(0x1F600 as char) == [0xF0, 0x9F, 0x98, 0x80]
  {
  }

  // ---- either end of a byte string --------------------------------------------------

  predicate Ends(s: seq<Byte>, t: seq<Byte>) {
    |t| <= |s| && s[|s| - |t|..] == t
  }

  function CharOf(b: seq<Byte>, n: nat): Option<char> {
    if n <= |b| then ToChar(b[..n]) else None
  }

  function CharBefore(b: seq<Byte>, n: nat): Option<char> {
    if n <= |b| then ToChar(b[|b| - n..]) else None
  }

  /** The character whose bytes begin these, as utf8.DecodeRune finds it. */
  function FirstChar(b: seq<Byte>): Option<char> {
    if CharOf(b, 1).Some? then CharOf(b, 1)
    else if CharOf(b, 2).Some? then CharOf(b, 2)
    else if CharOf(b, 3).Some? then CharOf(b, 3)
    else CharOf(b, 4)
  }

  /** The character whose bytes end these, as utf8.DecodeLastRune finds it. */
  function LastChar(b: seq<Byte>): Option<char> {
    if CharBefore(b, 1).Some? then CharBefore(b, 1)
    else if CharBefore(b, 2).Some? then CharBefore(b, 2)
    else if CharBefore(b, 3).Some? then CharBefore(b, 3)
    else CharBefore(b, 4)
  }

  lemma SameLead(a: seq<Byte>, b: seq<Byte>)
    requires ToChar(a).Some? && ToChar(b).Some? && a[0] == b[0]
    ensures |a| == |b|
  {
    hide Value;
  }

  lemma NoLeadInside(b: seq<Byte>)
    requires ToChar(b).Some?
    ensures !Continues(b[0]) && forall i :: 1 <= i < |b| ==> Continues(b[i])
  {
    hide Value;
  }

  lemma NoShorterFront(s: seq<Byte>, m: nat, n: nat)
    requires 1 <= m < n && CharOf(s, n).Some?
    ensures CharOf(s, m).None?
  {
    hide ToChar;
    assert s[..m][0] == s[..n][0];
    if CharOf(s, m).Some? {
      SameLead(s[..m], s[..n]);
    }
  }

  lemma NoShorterBack(s: seq<Byte>, m: nat, n: nat)
    requires 1 <= m < n && CharBefore(s, n).Some?
    ensures CharBefore(s, m).None?
  {
    hide ToChar;
    NoLeadInside(s[|s| - n..]);
    assert s[|s| - m..][0] == s[|s| - n..][n - m];
    if CharBefore(s, m).Some? {
      NoLeadInside(s[|s| - m..]);
    }
  }

  lemma FirstCharAt(s: seq<Byte>, n: nat)
    requires 1 <= n <= 4 && CharOf(s, n).Some?
    ensures FirstChar(s) == CharOf(s, n)
  {
    hide CharOf;
    for m := 1 to n
      invariant forall k :: 1 <= k < m ==> CharOf(s, k).None?
    {
      NoShorterFront(s, m, n);
    }
  }

  lemma LastCharAt(s: seq<Byte>, n: nat)
    requires 1 <= n <= 4 && CharBefore(s, n).Some?
    ensures LastChar(s) == CharBefore(s, n)
  {
    hide CharBefore;
    for m := 1 to n
      invariant forall k :: 1 <= k < m ==> CharBefore(s, k).None?
    {
      NoShorterBack(s, m, n);
    }
  }

  lemma FirstCharFound(s: seq<Byte>) returns (n: nat)
    requires FirstChar(s).Some?
    ensures 1 <= n <= 4 && CharOf(s, n) == FirstChar(s)
  {
    hide CharOf;
    n := if CharOf(s, 1).Some? then 1 else if CharOf(s, 2).Some? then 2 else if CharOf(s, 3).Some? then 3 else 4;
  }

  lemma LastCharFound(s: seq<Byte>) returns (n: nat)
    requires LastChar(s).Some?
    ensures 1 <= n <= 4 && CharBefore(s, n) == LastChar(s)
  {
    hide CharBefore;
    n := if CharBefore(s, 1).Some? then 1 else if CharBefore(s, 2).Some? then 2
         else if CharBefore(s, 3).Some? then 3 else 4;
  }

  /** The first character is c exactly when the bytes of c stand in front. */
  lemma FirstCharExact(s: seq<Byte>, c: char)
    ensures FirstChar(s) == Some(c) <==> OfChar(c) <= s
  {
    hide FirstChar, ToChar, OfChar;
    ToCharOfChar(c);
    if OfChar(c) <= s {
      assert s[..|OfChar(c)|] == OfChar(c);
      FirstCharAt(s, |OfChar(c)|);
    }
    if FirstChar(s) == Some(c) {
      var n := FirstCharFound(s);
      OfCharToChar(s[..n]);
    }
  }

  /** The last character is c exactly when the bytes of c stand at the end. */
  lemma LastCharExact(s: seq<Byte>, c: char)
    ensures LastChar(s) == Some(c) <==> Ends(s, OfChar(c))
  {
    hide LastChar, ToChar, OfChar;
    ToCharOfChar(c);
    if Ends(s, OfChar(c)) {
      LastCharAt(s, |OfChar(c)|);
    }
    if LastChar(s) == Some(c) {
      var n := LastCharFound(s);
      OfCharToChar(s[|s| - n..]);
    }
  }

  // ---- strings ----------------------------------------------------------------------

  function Encode(s: string): seq<Byte> {
    if s == "" then [] else OfChar(s[0]) + Encode(s[1..])
  }

  lemma {:induction false} EncodeAppend(s: string, t: string)
    ensures Encode(s + t) == Encode(s) + Encode(t)
  {
    if s == "" {
      assert s + t == t;
    } else {
      assert (s + t)[1..] == s[1..] + t;
      EncodeAppend(s[1..], t);
    }
  }

  lemma EncodeLast(s: string)
    requires s != ""
    ensures Encode(s) == Encode(s[..|s| - 1]) + OfChar(s[|s| - 1])
  {
    var n := |s| - 1;
    assert s == s[..n] + [s[n]];
    EncodeOne(s[n]);
    hide Encode, OfChar;
    EncodeAppend(s[..n], [s[n]]);
  }

  lemma EncodeOne(c: char)
    ensures Encode([c]) == OfChar(c)
  {
    hide OfChar;
    assert [c][1..] == "";
  }

  // ASCII text takes one byte a character
  lemma {:induction false} EncodeAscii(s: string)
    requires forall c :: c in s ==> c as int < 128
    ensures |Encode(s)| == |s|
  {
    if s != "" {
      assert s[0] in s && forall c :: c in s[1..] ==> c in s;
      EncodeAscii(s[1..]);
    }
  }

  /** The string that bytes stand for, if they are valid throughout. */
  function Decode(b: seq<Byte>): Option<string>
    decreases |b|
  {
    if b == [] then Some("")
    else
      match FirstChar(b)
      case None => None
      case Some(c) =>
        FirstCharExact(b, c);
        match Decode(b[|OfChar(c)|..])
        case None => None
        case Some(s) => Some([c] + s)
  }

  /** A string is read back from its bytes. */
  lemma {:induction false} DecodeEncode(s: string)
    ensures Decode(Encode(s)) == Some(s)
  {
    hide FirstChar, OfChar;
    if s != "" {
      FirstCharExact(Encode(s), s[0]);
      assert Encode(s)[|OfChar(s[0])|..] == Encode(s[1..]);
      DecodeEncode(s[1..]);
      assert s == [s[0]] + s[1..];
    }
  }
}
