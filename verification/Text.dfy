/** Strings as the configuration and the target code use them: trimming, searching,
    cutting, and decimal numbers. */
module Text {
  import opened Wrappers

  predicate IsSpace(c: char) {
    var n := c as int;
    || 9 <= n <= 13 || n == 32 || n == 0x85 || n == 0xA0 || n == 0x1680
    || 0x2000 <= n <= 0x200A || n == 0x2028 || n == 0x2029 || n == 0x202F || n == 0x205F || n == 0x3000
  }

  // strings.Trim with a cut set given as a predicate
  function TrimLeftOf(s: string, cut: char -> bool): string {
    if s != [] && cut(s[0]) then TrimLeftOf(s[1..], cut) else s
  }

  function TrimRightOf(s: string, cut: char -> bool): string {
    if s != [] && cut(s[|s| - 1]) then TrimRightOf(s[..|s| - 1], cut) else s
  }

  function TrimOf(s: string, cut: char -> bool): string {
    TrimRightOf(TrimLeftOf(s, cut), cut)
  }

  function TrimSpace(s: string): string {
    TrimOf(s, IsSpace)
  }

  // strings.TrimPrefix and strings.TrimSuffix on one character
  function TrimPrefix(s: string, c: char): string {
    if s != [] && s[0] == c then s[1..] else s
  }

  function TrimSuffix(s: string, c: char): string {
    if s != [] && s[|s| - 1] == c then s[..|s| - 1] else s
  }

  // no character to cut at either end
  predicate Bare(s: string, cut: char -> bool) {
    s != [] ==> !cut(s[0]) && !cut(s[|s| - 1])
  }

  lemma BareStays(s: string, cut: char -> bool)
    requires Bare(s, cut)
    ensures TrimOf(s, cut) == s
  {
  }

  lemma {:induction false} TrimLeftBare(s: string, cut: char -> bool)
    ensures var t := TrimLeftOf(s, cut); t != [] ==> !cut(t[0])
    ensures s != [] && !cut(s[|s| - 1]) ==> var t := TrimLeftOf(s, cut); t != [] && t[|t| - 1] == s[|s| - 1]
  {
    if s != [] && cut(s[0]) {
      TrimLeftBare(s[1..], cut);
    }
  }

  lemma {:induction false} TrimRightBare(s: string, cut: char -> bool)
    ensures var t := TrimRightOf(s, cut); t <= s && (t != [] ==> !cut(t[|t| - 1]))
  {
    if s != [] && cut(s[|s| - 1]) {
      TrimRightBare(s[..|s| - 1], cut);
    }
  }

  /** A trimmed string is bare, so trimming twice is trimming once. */
  lemma TrimIsBare(s: string, cut: char -> bool)
    ensures Bare(TrimOf(s, cut), cut) && TrimOf(TrimOf(s, cut), cut) == TrimOf(s, cut)
  {
    TrimLeftBare(s, cut);
    TrimRightBare(TrimLeftOf(s, cut), cut);
    BareStays(TrimOf(s, cut), cut);
  }

  /** Trimming takes off padding on both sides, and no more. */
  lemma {:induction false} TrimPadded(a: string, s: string, b: string, cut: char -> bool)
    requires forall i :: 0 <= i < |a| ==> cut(a[i])
    requires forall i :: 0 <= i < |b| ==> cut(b[i])
    requires s != [] && Bare(s, cut)
    ensures TrimOf(a + s + b, cut) == s
    decreases |a| + |b|
  {
    TrimLeftPadding(a, s + b, cut);
    assert a + s + b == a + (s + b);
    TrimRightPadding(s, b, cut);
  }

  lemma {:induction false} TrimLeftPadding(a: string, s: string, cut: char -> bool)
    requires forall i :: 0 <= i < |a| ==> cut(a[i])
    requires s != [] && !cut(s[0])
    ensures TrimLeftOf(a + s, cut) == s
  {
    if a == [] {
      assert a + s == s;
    } else {
      assert (a + s)[1..] == a[1..] + s;
      TrimLeftPadding(a[1..], s, cut);
    }
  }

  lemma {:induction false} TrimRightPadding(s: string, b: string, cut: char -> bool)
    requires forall i :: 0 <= i < |b| ==> cut(b[i])
    requires s != [] && !cut(s[|s| - 1])
    ensures TrimRightOf(s + b, cut) == s
  {
    if b == [] {
      assert s + b == s;
    } else {
      var n := |b| - 1;
      assert (s + b)[..|s + b| - 1] == s + b[..n];
      TrimRightPadding(s, b[..n], cut);
    }
  }

  lemma {:induction false} TrimLeftPart(s: string, cut: char -> bool)
    ensures forall c :: c in TrimLeftOf(s, cut) ==> c in s
  {
    if s != [] && cut(s[0]) {
      TrimLeftPart(s[1..], cut);
    }
  }

  // trimming adds no character
  lemma TrimPart(s: string, cut: char -> bool)
    ensures forall c :: c in TrimOf(s, cut) ==> c in s
  {
    TrimLeftPart(s, cut);
    TrimRightBare(TrimLeftOf(s, cut), cut);
  }

  lemma {:induction false} TrimRightKeepsFirst(s: string, cut: char -> bool)
    requires s != [] && !cut(s[0])
    ensures var t := TrimRightOf(s, cut); t != [] && t[0] == s[0]
  {
    if cut(s[|s| - 1]) {
      TrimRightKeepsFirst(s[..|s| - 1], cut);
    }
  }

  // trimming on the right stops at a character that stays
  lemma {:induction false} TrimRightBehind(a: string, s: string, cut: char -> bool)
    requires a != [] && !cut(a[|a| - 1])
    ensures TrimRightOf(a + s, cut) == a + TrimRightOf(s, cut)
    decreases |s|
  {
    if s == [] {
      assert a + s == a;
    } else {
      var n := |s| - 1;
      assert (a + s)[..|a + s| - 1] == a + s[..n];
      if cut(s[n]) {
        TrimRightBehind(a, s[..n], cut);
      }
    }
  }

  // ---- searching and cutting ---------------------------------------------------

  function IndexOf(s: string, c: char): (n: nat)
    ensures n <= |s| && (n == |s| <==> c !in s)
    ensures n < |s| ==> s[n] == c
    ensures c !in s[..n]
  {
    if s == [] || s[0] == c then 0
    else
      var n := 1 + IndexOf(s[1..], c);
      assert s == [s[0]] + s[1..] && s[..n] == [s[0]] + s[1..][..n - 1];
      n
  }

  // one past the last place of c, or 0
  function AfterLast(s: string, c: char): (n: nat)
    ensures n <= |s| && (n == 0 <==> c !in s)
    ensures n > 0 ==> s[n - 1] == c
    ensures c !in s[n..]
  {
    if s == [] then 0
    else if s[|s| - 1] == c then |s|
    else
      var n := AfterLast(s[..|s| - 1], c);
      assert s == s[..|s| - 1] + [s[|s| - 1]] && s[n..] == s[..|s| - 1][n..] + [s[|s| - 1]];
      n
  }

  lemma IndexOfFirst(a: string, c: char, b: string)
    requires c !in a
    ensures IndexOf(a + [c] + b, c) == |a|
  {
    var s := a + [c] + b;
    var n := IndexOf(s, c);
    assert s[|a|] == c;
    forall k | 0 <= k < |a|
      ensures s[k] != c
    {
      assert s[k] == a[k];
    }
    forall k | 0 <= k < n
      ensures s[k] != c
    {
      assert s[k] == s[..n][k];
    }
  }

  lemma {:induction false} AfterLastOne(a: string, c: char, b: string)
    requires c !in b
    ensures AfterLast(a + [c] + b, c) == |a| + 1
    decreases |b|
  {
    var s := a + [c] + b;
    if b == [] {
      assert s == a + [c];
    } else {
      var n := |b| - 1;
      assert s[..|s| - 1] == a + [c] + b[..n];
      assert s[|s| - 1] == b[n];
      AfterLastOne(a, c, b[..n]);
    }
  }

  // strings.SplitN(s, c, 2) on a string that contains c
  function CutAt(s: string, c: char): (string, string)
    requires c in s
  {
    var n := IndexOf(s, c);
    (s[..n], s[n + 1..])
  }

  lemma CutFirst(a: string, c: char, b: string)
    requires c !in a
    ensures c in a + [c] + b && CutAt(a + [c] + b, c) == (a, b)
  {
    var s := a + [c] + b;
    assert s[|a|] == c;
    IndexOfFirst(a, c, b);
    assert s[..|a|] == a && s[|a| + 1..] == b;
  }

  // strings.Split on one character
  function SplitOn(s: string, c: char): seq<string> {
    if c in s then
      var (a, b) := CutAt(s, c);
      [a] + SplitOn(b, c)
    else [s]
  }

  lemma {:induction false} SplitParts(s: string, c: char)
    ensures forall part :: part in SplitOn(s, c) ==> c !in part && (forall d :: d in part ==> d in s)
  {
    if c in s {
      SplitParts(CutAt(s, c).1, c);
    }
  }

  // ---- decimal numbers ------------------------------------------------------------

  predicate IsDigit(c: char) {
    '0' <= c <= '9'
  }

  predicate AllDigits(s: string) {
    forall i :: 0 <= i < |s| ==> IsDigit(s[i])
  }

  function DigitOf(n: nat): char
    requires n < 10
  {
    '0' + n as char
  }

  function Itoa(n: nat): (s: string)
    ensures |s| > 0
  {
    if n < 10 then [DigitOf(n)] else Itoa(n / 10) + [DigitOf(n % 10)]
  }

  function ValueOf(s: string): nat
    requires AllDigits(s)
  {
    if s == [] then 0 else 10 * ValueOf(s[..|s| - 1]) + (s[|s| - 1] as int - '0' as int)
  }

  // strconv.ParseUint(s, 10, bits): digits only, within max
  function ParseUint(s: string, max: nat): Option<nat> {
    if s != [] && AllDigits(s) && ValueOf(s) <= max then Some(ValueOf(s)) else None
  }

  const MAX_INT64 := 0x7FFF_FFFF_FFFF_FFFF

  // strconv.Atoi: an optional sign, then digits, within int64
  function Atoi(s: string): Option<int> {
    if s != [] && s[0] == '-' then
      match ParseUint(s[1..], MAX_INT64 + 1)
      case Some(n) => var v: int := n; Some(-v)
      case None => None
    else
      match ParseUint(if s != [] && s[0] == '+' then s[1..] else s, MAX_INT64)
      case Some(n) => Some(n)
      case None => None
  }

  /** Printing and parsing a decimal number. */
  lemma {:induction false} DecimalRoundTrip(n: nat)
    ensures AllDigits(Itoa(n)) && ValueOf(Itoa(n)) == n
  {
    if n >= 10 {
      DecimalRoundTrip(n / 10);
      var s := Itoa(n);
      assert s[..|s| - 1] == Itoa(n / 10);
    }
  }

  lemma AtoiOfItoa(n: nat)
    ensures Atoi(Itoa(n)) == if n <= MAX_INT64 then Some(n) else None
  {
    DecimalRoundTrip(n);
    assert IsDigit(Itoa(n)[0]);
  }

  /** A sign in front counts as one. */
  lemma AtoiOfSigned(n: nat)
    requires n <= MAX_INT64
    ensures Atoi(['+'] + Itoa(n)) == Some(n)
    ensures Atoi(['-'] + Itoa(n)).Some? && Atoi(['-'] + Itoa(n)).value == 0 - n
  {
    DecimalRoundTrip(n);
    assert (['+'] + Itoa(n))[1..] == Itoa(n) == (['-'] + Itoa(n))[1..];
    hide Itoa, ValueOf;
  }

  lemma ItoaPlain(n: nat)
    ensures Bare(Itoa(n), IsSpace)
    ensures forall c :: c in Itoa(n) ==> IsDigit(c)
  {
    DecimalRoundTrip(n);
    assert IsDigit(Itoa(n)[0]) && IsDigit(Itoa(n)[|Itoa(n)| - 1]);
  }

  lemma ItoaInjective(m: nat, n: nat)
    requires Itoa(m) == Itoa(n)
    ensures m == n
  {
    DecimalRoundTrip(m);
    DecimalRoundTrip(n);
  }
}
