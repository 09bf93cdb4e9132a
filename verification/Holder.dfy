/** simpleMuxHolder: the sessions of one server and the round-robin choice among them. */
module Holder {
  import opened Wrappers

  class Session {
    var closed: bool

    constructor ()
      ensures !closed
    {
      closed := false;
    }
  }

  // ---- the choice, on a list of "is it open" flags ---------------------------------

  // x modulo n, for x below 2n
  function Wrap(x: nat, n: nat): nat
    requires x < 2 * n
  {
    if x < n then x else x - n
  }

  lemma MulAtLeast(q: nat, n: nat, k: nat)
    requires q >= k
    ensures q * n >= k * n
  {
    assert q * n == k * n + (q - k) * n;
  }

  lemma ModIsWrap(x: nat, n: nat)
    requires x < 2 * n
    ensures x % n == Wrap(x, n)
  {
    var q := x / n;
    assert x == q * n + x % n;
    if q >= 2 {
      MulAtLeast(q, n, 2);
    } else {
      assert q == 0 || q == 1;
    }
  }

  // the indices in the order nextSession looks at them
  function Order(n: nat, next: nat): (s: seq<nat>)
    requires next < n
    ensures |s| == n
    ensures forall i :: 0 <= i < n ==> s[i] == Wrap(next + i, n) && s[i] < n
  {
    seq<nat>(n, i requires 0 <= i < n => Wrap(next + i, n))
  }

  function Filter<T>(s: seq<T>, keep: T -> bool): seq<T> {
    if s == [] then []
    else Filter(s[..|s| - 1], keep) + (if keep(s[|s| - 1]) then [s[|s| - 1]] else [])
  }

  lemma {:induction false} FilterAppend<T>(a: seq<T>, b: seq<T>, keep: T -> bool)
    ensures Filter(a + b, keep) == Filter(a, keep) + Filter(b, keep)
  {
    if b == [] {
      assert a + b == a;
    } else {
      var n := |b| - 1;
      assert (a + b)[..|a + b| - 1] == a + b[..n];
      FilterAppend(a, b[..n], keep);
    }
  }

  lemma FilterOne<T>(x: T, keep: T -> bool)
    ensures Filter([x], keep) == if keep(x) then [x] else []
  {
    assert [x][..0] == [];
  }

  lemma {:induction false} FilterMember<T>(s: seq<T>, keep: T -> bool, x: T)
    ensures x in Filter(s, keep) <==> x in s && keep(x)
  {
    if s != [] {
      FilterMember(s[..|s| - 1], keep, x);
      assert s == s[..|s| - 1] + [s[|s| - 1]];
    }
  }

  lemma {:induction false} FilterDistinct(s: seq<nat>, keep: nat -> bool)
    requires forall i, j :: 0 <= i < j < |s| ==> s[i] != s[j]
    ensures var t := Filter(s, keep); forall i, j :: 0 <= i < j < |t| ==> t[i] != t[j]
  {
    if s != [] {
      var n := |s| - 1;
      FilterDistinct(s[..n], keep);
      FilterMember(s[..n], keep, s[n]);
    }
  }

  function OpenAt(open: seq<bool>): nat -> bool {
    (i: nat) => i < |open| && open[i]
  }

  /** The open sessions in the order the round robin visits them from `next`. */
  function Turn(open: seq<bool>, next: nat): seq<nat>
    requires next < |open|
  {
    Filter(Order(|open|, next), OpenAt(open))
  }

  // the index chosen and the new value of next, or nothing when all are closed
  function Choose(open: seq<bool>, next: nat): (r: Option<(nat, nat)>)
    requires next < |open|
    ensures r.Some? ==> r.value.1 < |open|
  {
    var t := Turn(open, next);
    if t == [] then None
    else
      FilterMember(Order(|open|, next), OpenAt(open), t[0]);
      Some((t[0], Wrap(t[0] + 1, |open|)))
  }

  // k calls in a row, with nothing opened, closed, added or removed in between
  function Picks(open: seq<bool>, next: nat, k: nat): seq<nat>
    requires next < |open|
    decreases k
  {
    if k == 0 then []
    else match Choose(open, next)
      case None => []
      case Some((i, next')) => [i] + Picks(open, next', k - 1)
  }

  lemma OrderAfter(n: nat, next: nat, j: nat)
    requires next < n && j < n
    ensures Order(n, Wrap(Wrap(next + j, n) + 1, n)) == Order(n, next)[j + 1..] + Order(n, next)[..j + 1]
  {
  }

  // the first index in order that is open
  lemma {:induction false} FirstOpen(s: seq<nat>, keep: nat -> bool) returns (j: nat)
    requires Filter(s, keep) != []
    ensures j < |s| && keep(s[j]) && s[j] == Filter(s, keep)[0] && Filter(s[..j], keep) == []
  {
    var n := |s| - 1;
    if Filter(s[..n], keep) != [] {
      j := FirstOpen(s[..n], keep);
      assert s[..n][..j] == s[..j];
    } else {
      j := n;
    }
  }

  lemma FirstKept(o: seq<nat>, j: nat, keep: nat -> bool)
    requires j < |o| && keep(o[j]) && Filter(o[..j], keep) == []
    ensures Filter(o[..j + 1], keep) == [o[j]]
  {
    FilterOne(o[j], keep);
    assert o[..j + 1] == o[..j] + [o[j]];
    FilterAppend(o[..j], [o[j]], keep);
  }

  lemma SplitAt(o: seq<nat>, j: nat, keep: nat -> bool)
    requires j < |o| && keep(o[j]) && Filter(o[..j], keep) == []
    ensures Filter(o, keep) == [o[j]] + Filter(o[j + 1..], keep)
    ensures Filter(o[j + 1..] + o[..j + 1], keep) == Filter(o[j + 1..], keep) + [o[j]]
  {
    hide Filter;
    FirstKept(o, j, keep);
    assert o == o[..j + 1] + o[j + 1..];
    FilterAppend(o[..j + 1], o[j + 1..], keep);
    FilterAppend(o[j + 1..], o[..j + 1], keep);
  }

  // the place e steps behind `next`, round the end
  function Around(next: nat, e: nat, n: nat): (i: nat)
    requires n > 0
    ensures i < n
  {
    (next + e) % n
  }

  // i is e steps behind `next`, everything before it is closed, and so it is not
  ghost predicate FirstAt(open: seq<bool>, next: nat, d: nat, i: nat)
    requires |open| > 0
  {
    && i == Around(next, d, |open|) && open[i]
    && forall e: nat :: e < d ==> !open[Around(next, e, |open|)]
  }

  lemma OrderIsAround(n: nat, next: nat, e: nat)
    requires next < n && e < n
    ensures Order(n, next)[e] == Around(next, e, n)
  {
    ModIsWrap(next + e, n);
  }

  lemma NoneBefore(open: seq<bool>, next: nat, d: nat, e: nat)
    requires next < |open| && e < d <= |open| && Filter(Order(|open|, next)[..d], OpenAt(open)) == []
    ensures !open[Around(next, e, |open|)]
  {
    var o := Order(|open|, next);
    OrderIsAround(|open|, next, e);
    assert o[..d][e] == o[e];
    FilterMember(o[..d], OpenAt(open), o[e]);
    hide Filter, Order, Around;
  }

  /** The choice is the first open session at or behind `next`, round the end, and `next`
      moves to the place behind it. */
  lemma ChoiceIsFirst(open: seq<bool>, next: nat) returns (d: nat)
    requires next < |open| && Choose(open, next).Some?
    ensures d < |open| && FirstAt(open, next, d, Choose(open, next).value.0)
    ensures Choose(open, next).value.1 == Around(Choose(open, next).value.0, 1, |open|)
  {
    hide Filter, Order;
    d := FirstOpen(Order(|open|, next), OpenAt(open));
    OrderIsAround(|open|, next, d);
    forall e: nat | e < d
      ensures !open[Around(next, e, |open|)]
    {
      NoneBefore(open, next, d, e);
    }
    ModIsWrap(Choose(open, next).value.0 + 1, |open|);
  }

  /** There is a choice unless all are closed. */
  lemma NoChoice(open: seq<bool>, next: nat)
    requires next < |open|
    ensures Choose(open, next).None? <==> forall i :: 0 <= i < |open| ==> !open[i]
  {
    var o, keep := Order(|open|, next), OpenAt(open);
    forall i: nat | i < |open| && open[i]
      ensures Turn(open, next) != []
    {
      OrderHas(|open|, next, i);
      FilterMember(o, keep, i);
    }
    if Turn(open, next) != [] {
      FilterMember(o, keep, Turn(open, next)[0]);
      assert open[Turn(open, next)[0]];
    }
    hide Filter, Order;
  }

  /** After a choice the order of the open sessions is the old one turned by one. */
  lemma TurnRotates(open: seq<bool>, next: nat)
    requires next < |open| && Turn(open, next) != []
    ensures var t := Turn(open, next);
      t[0] < |open| && Turn(open, Wrap(t[0] + 1, |open|)) == t[1..] + [t[0]]
  {
    hide Filter, Order, OpenAt;
    var n, keep := |open|, OpenAt(open);
    var o := Order(n, next);
    var j := FirstOpen(o, keep);
    OrderAfter(n, next, j);
    SplitAt(o, j, keep);
    assert Turn(open, next)[1..] == Filter(o[j + 1..], keep);
  }

  lemma {:induction false} PicksAre(open: seq<bool>, next: nat, k: nat)
    requires next < |open| && k <= |Turn(open, next)|
    ensures Picks(open, next, k) == Turn(open, next)[..k]
    decreases k
  {
    if k > 0 {
      var t := Turn(open, next);
      TurnRotates(open, next);
      var next' := Wrap(t[0] + 1, |open|);
      PicksAre(open, next', k - 1);
      assert (t[1..] + [t[0]])[..k - 1] == t[1..k];
      assert t[..k] == [t[0]] + t[1..k];
    }
  }

  /** Fairness.  With k sessions open and nothing changing, k calls in a row return
      each open session exactly once, wherever the round robin stands. */
  lemma RoundRobinFair(open: seq<bool>, next: nat)
    requires next < |open|
    ensures var k := |Turn(open, next)|; var p := Picks(open, next, k);
      && |p| == k
      && (forall i, j :: 0 <= i < j < |p| ==> p[i] != p[j])
      && (forall i: nat :: i in p <==> i < |open| && open[i])
  {
    var n := |open|;
    var o := Order(n, next);
    var t := Turn(open, next);
    PicksAre(open, next, |t|);
    assert t[..|t|] == t;
    FilterDistinct(o, OpenAt(open));
    forall i: nat
      ensures i in t <==> i < n && open[i]
    {
      FilterMember(o, OpenAt(open), i);
      if i < n {
        OrderHas(n, next, i);
      }
    }
  }

  lemma OrderHas(n: nat, next: nat, i: nat)
    requires next < n && i < n
    ensures i in Order(n, next)
  {
    assert Order(n, next)[if i >= next then i - next else i + n - next] == i;
  }

  // ---- the object -------------------------------------------------------------------

  /** What Remove leaves: every session but s that is not closed, in the old order. */
  ghost function Kept(ss: seq<Session>, s: Session): seq<Session>
    reads ss
  {
    if ss == [] then []
    else
      var n := |ss| - 1;
      Kept(ss[..n], s) + (if ss[n] != s && !ss[n].closed then [ss[n]] else [])
  }

  /** Those sessions are the ones that are in the list, open and not s, each place of the
      list giving at most one, in the order of their places. */
  lemma {:induction false} KeptInOrder(ss: seq<Session>, s: Session) returns (at: seq<nat>)
    ensures |at| == |Kept(ss, s)|
    ensures forall i :: 0 <= i < |at| ==> at[i] < |ss| && Kept(ss, s)[i] == ss[at[i]]
    ensures forall i, j :: 0 <= i < j < |at| ==> at[i] < at[j]
    ensures forall k: nat :: k in at <==> k < |ss| && ss[k] != s && !ss[k].closed
  {
    if ss == [] {
      at := [];
    } else {
      var n := |ss| - 1;
      at := KeptInOrder(ss[..n], s);
      if ss[n] != s && !ss[n].closed {
        at := at + [n];
      }
    }
  }

  lemma NoneKept(ss: seq<Session>, s: Session)
    ensures Kept(ss[..0], s) == []
  {
  }

  lemma KeptOneMore(ss: seq<Session>, i: nat, s: Session)
    requires i < |ss|
    ensures Kept(ss[..i + 1], s) == Kept(ss[..i], s) + (if ss[i] != s && !ss[i].closed then [ss[i]] else [])
  {
    assert ss[..i + 1][..i] == ss[..i];
  }

  ghost function OpenFlags(ss: seq<Session>): seq<bool>
    reads ss
  {
    seq(|ss|, i requires 0 <= i < |ss| reads ss => !ss[i].closed)
  }

  class MuxHolder {
    var buf: array<Session>   // the backing array of the sessions slice
    var len: nat
    var next: nat

    ghost predicate Valid()
      reads this
    {
      len <= buf.Length && (if len == 0 then next == 0 else next < len)
    }

    ghost function Sessions(): seq<Session>
      reads this, buf
      requires len <= buf.Length
    {
      buf[..len]
    }

    constructor ()
      ensures Valid() && fresh(buf) && Sessions() == [] && next == 0
    {
      buf := new Session[0];
      len, next := 0, 0;
    }

    /** Add appends; a full backing array is replaced. */
    method Add(s: Session)
      requires Valid()
      modifies this`buf, this`len, buf
      ensures Valid() && (buf == old(buf) || fresh(buf))
      ensures Sessions() == old(Sessions()) + [s] && next == old(next)
    {
      if len == buf.Length {
        var ss := buf[..len];
        var bigger := new Session[2 * len + 1](i => if 0 <= i < |ss| then ss[i] else s);
        assert bigger[..len] == ss;
        buf := bigger;
      }
      buf[len] := s;
      len := len + 1;
    }

    /** Remove compacts the slice in place. */
    method Remove(s: Session)
      requires Valid()
      modifies this`len, this`next, buf
      ensures Valid()
      ensures Sessions() == old(Kept(Sessions(), s))
      ensures next == if old(next) < len then old(next) else 0
    {
      hide Kept;
      ghost var ss := Sessions();
      NoneKept(ss, s);
      var out := 0;
      for i := 0 to len
        modifies buf
        invariant out <= i
        invariant buf[..out] == Kept(ss[..i], s)
        invariant forall j :: i <= j < len ==> buf[j] == ss[j]
      {
        var it := buf[i];
        KeptOneMore(ss, i, s);
        if it != s && !it.closed {
          buf[out] := it;
          out := out + 1;
          assert buf[..out] == buf[..out - 1] + [it];
        }
      }
      assert ss[..len] == ss;
      len := out;
      if next >= len {
        next := 0;
      }
    }

    // the loop of nextSession: the index of the first open session from `next` on, or len
    method FirstFrom(ghost open: seq<bool>) returns (k: nat)
      requires len <= buf.Length && next < len == |open|
      requires forall j: nat :: j < len ==> open[j] == !buf[j].closed
      ensures k == len ==> Choose(open, next) == None
      ensures k != len ==> k < len && Choose(open, next) == Some((k, Wrap(k + 1, len)))
    {
      ghost var o := Order(len, next);
      assert Filter(o[..0], OpenAt(open)) == [];
      hide Choose, Filter, Order;
      for i := 0 to len
        invariant Filter(o[..i], OpenAt(open)) == []
      {
        k := Index(next + i, len);
        if !buf[k].closed {
          Chosen(open, next, i);
          return;
        }
        PassedOver(o, i, OpenAt(open));
      }
      NoneChosen(open, next);
      k := len;
    }

    /** nextSession: the first open session from `next` on, and `next` moves behind it;
        nothing when all are closed. */
    method NextSession() returns (s: Session?)
      requires Valid()
      modifies this`next
      ensures Valid()
      ensures len == 0 ==> s == null
      ensures len > 0 ==>
        match Choose(OpenFlags(Sessions()), old(next))
        case None => s == null && next == old(next)
        case Some((i, n)) => i < len && s == Sessions()[i] && next == n
      ensures s != null ==> !s.closed
      ensures s == null ==> forall i :: 0 <= i < len ==> Sessions()[i].closed
    {
      if len == 0 {
        return null;
      }
      NoChoice(OpenFlags(Sessions()), next);
      var k := FirstFrom(OpenFlags(Sessions()));
      hide Choose, OpenFlags;
      if k == len {
        return null;
      }
      ghost var d := ChoiceIsFirst(OpenFlags(Sessions()), next);
      assert OpenFlags(Sessions())[k];
      next := Index(k + 1, len);
      s := buf[k];
    }
  }

  method Index(x: nat, n: nat) returns (r: nat)
    requires x < 2 * n
    ensures r == Wrap(x, n)
  {
    ModIsWrap(x, n);
    r := x % n;
  }

  // the first open session in order is the one chosen
  lemma Chosen(open: seq<bool>, next: nat, i: nat)
    requires next < |open| && i < |open|
    requires var o := Order(|open|, next); OpenAt(open)(o[i]) && Filter(o[..i], OpenAt(open)) == []
    ensures var k := Order(|open|, next)[i]; Choose(open, next) == Some((k, Wrap(k + 1, |open|)))
  {
    SplitAt(Order(|open|, next), i, OpenAt(open));
    hide Filter, Order;
  }

  // a closed one is passed over
  lemma PassedOver(o: seq<nat>, i: nat, keep: nat -> bool)
    requires i < |o| && Filter(o[..i], keep) == [] && !keep(o[i])
    ensures Filter(o[..i + 1], keep) == []
  {
    assert o[..i + 1][..i] == o[..i];
  }

  lemma NoneChosen(open: seq<bool>, next: nat)
    requires next < |open|
    requires var o := Order(|open|, next); Filter(o[..|open|], OpenAt(open)) == []
    ensures Choose(open, next) == None
  {
    assert Order(|open|, next)[..|open|] == Order(|open|, next);
  }
}
