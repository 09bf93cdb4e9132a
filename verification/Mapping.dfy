/** Port mappings: what each item of the list expands to. */
module Mapping {
  import opened Wrappers
  import opened Bytes
  import opened Text
  import opened Targets

  datatype PortMapping = PortMapping(listen: string, target: string)

  const LISTEN := "0.0.0.0:"

  function ParseRange(s: string): Option<(nat, nat)> {
    var t := TrimSpace(s);
    if '-' !in t then None
    else
      var (a, b) := CutAt(t, '-');
      match (Atoi(TrimSpace(a)), Atoi(TrimSpace(b)))
      case (Some(start), Some(end)) =>
        if start < 1 || end > 65535 || start > end then None else Some((start, end))
      case _ => None
  }

  // parsePortMaybeWithHost: what stands behind the last colon
  function ParsePort(s: string): Option<nat> {
    var t := TrimSpace(s);
    match Atoi(t[AfterLast(t, ':')..])
    case Some(p) => if 1 <= p <= 65535 then Some(p) else None
    case None => None
  }

  function ParseTarget(s: string): Option<string> {
    var t := TrimSpace(s);
    match ParsePort(t)
    case None => None
    case Some(p) => if ':' in t then Some(t) else Some(LOCAL + Itoa(p))
  }

  // consecutive listening ports; all go to one target, or each to the same port at home
  datatype Spread = Spread(first: nat, last: nat, target: Option<string>) {
    predicate Ok() {
      1 <= first <= last <= 65535
    }

    function TargetOf(p: nat): string {
      match target
      case Some(t) => t
      case None => LOCAL + Itoa(p)
    }

    function Mappings(): (ms: seq<PortMapping>)
      requires Ok()
      ensures |ms| == last - first + 1
      ensures forall i :: 0 <= i < |ms| ==> ms[i] == PortMapping(LISTEN + Itoa(first + i), TargetOf(first + i))
    {
      seq(last - first + 1, i requires 0 <= i < last - first + 1 =>
        PortMapping(LISTEN + Itoa(first + i), TargetOf(first + i)))
    }
  }

  function RangeTo(range: Option<(nat, nat)>, target: Option<string>): Option<Spread> {
    match (range, target)
    case (Some((a, b)), Some(t)) => Some(Spread(a, b, target))
    case _ => None
  }

  function AtHome(port: Option<nat>): Option<string> {
    match port
    case Some(p) => Some(LOCAL + Itoa(p))
    case None => None
  }

  function ColonItem(raw: string): Option<Spread>
    requires ':' in raw
  {
    var (l, r) := CutAt(raw, ':');
    RangeTo(ParseRange(TrimSpace(l)), ParseTarget(TrimSpace(r)))
  }

  function EqualsItem(raw: string): Option<Spread>
    requires '=' in raw
  {
    var (l, r) := CutAt(raw, '=');
    var listen, target := TrimSpace(l), TrimSpace(r);
    if '-' in listen then RangeTo(ParseRange(listen), AtHome(ParsePort(target)))
    else
      match ParsePort(listen)
      case Some(p) => RangeTo(Some((p, p)), ParseTarget(target))
      case None => None
  }

  function PlainItem(raw: string): Option<Spread> {
    if '-' in raw then
      match ParseRange(raw)
      case Some((a, b)) => Some(Spread(a, b, None))
      case None => None
    else
      match ParsePort(raw)
      case Some(p) => Some(Spread(p, p, None))
      case None => None
  }

  // one trimmed, non-empty item
  function ParseItem(raw: string): (s: Option<Spread>)
    ensures s.Some? ==> s.value.Ok()
  {
    if ':' in raw && '-' in raw && '=' !in raw then ColonItem(raw)
    else if '=' in raw then EqualsItem(raw)
    else PlainItem(raw)
  }

  // an item of the list as it stands there; blank items expand to nothing
  function ExpandRaw(item: string): Option<seq<PortMapping>> {
    if TrimSpace(item) == "" then Some([])
    else
      match ParseItem(TrimSpace(item))
      case Some(spread) => Some(spread.Mappings())
      case None => None
  }

  predicate AllExpand(items: seq<string>) {
    forall i :: 0 <= i < |items| ==> ExpandRaw(items[i]).Some?
  }

  function Expansions(items: seq<string>): (es: seq<seq<PortMapping>>)
    requires AllExpand(items)
    ensures |es| == |items|
    ensures forall i :: 0 <= i < |items| ==> es[i] == ExpandRaw(items[i]).value
  {
    seq(|items|, i requires 0 <= i < |items| => ExpandRaw(items[i]).value)
  }

  // ---- ParseMappings ---------------------------------------------------------------

  method AppendRange(res: seq<PortMapping>, start: nat, end: nat, target: Option<string>)
      returns (out: seq<PortMapping>)
    requires Spread(start, end, target).Ok()
    ensures out == res + Spread(start, end, target).Mappings()
  {
    ghost var spread := Spread(start, end, target);
    ghost var ms := spread.Mappings();
    out := res;
    for p := start to end + 1
      invariant out == res + ms[..p - start]
    {
      assert ms[p - start] == PortMapping(LISTEN + Itoa(p), spread.TargetOf(p));
      TakeOneMore(ms, p - start);
      out := out + [PortMapping(LISTEN + Itoa(p), if target.Some? then target.value else LOCAL + Itoa(p))];
    }
    assert ms[..end + 1 - start] == ms;
  }

  lemma TakeOneMore<T>(ms: seq<T>, k: nat)
    requires k < |ms|
    ensures ms[..k + 1] == ms[..k] + [ms[k]]
  {
  }

  method AppendColon(res: seq<PortMapping>, raw: string) returns (ok: bool, out: seq<PortMapping>)
    requires ':' in raw && '-' in raw && '=' !in raw
    ensures ok <==> ParseItem(raw).Some?
    ensures ok ==> out == res + ParseItem(raw).value.Mappings()
  {
    var (l, r) := CutAt(raw, ':');
    var range := ParseRange(TrimSpace(l));
    if range.None? {
      return false, res;
    }
    var target := ParseTarget(TrimSpace(r));
    if target.None? {
      return false, res;
    }
    out := AppendRange(res, range.value.0, range.value.1, target);
    ok := true;
  }

  method AppendEquals(res: seq<PortMapping>, raw: string) returns (ok: bool, out: seq<PortMapping>)
    requires '=' in raw
    ensures ok <==> ParseItem(raw).Some?
    ensures ok ==> out == res + ParseItem(raw).value.Mappings()
  {
    var (l, r) := CutAt(raw, '=');
    var listenPart, targetPart := TrimSpace(l), TrimSpace(r);
    if '-' in listenPart {
      var range := ParseRange(listenPart);
      if range.None? {
        return false, res;
      }
      var port := ParsePort(targetPart);
      if port.None? {
        return false, res;
      }
      out := AppendRange(res, range.value.0, range.value.1, Some(LOCAL + Itoa(port.value)));
      return true, out;
    }
    var port := ParsePort(listenPart);
    if port.None? {
      return false, res;
    }
    var target := ParseTarget(targetPart);
    if target.None? {
      return false, res;
    }
    out := AppendRange(res, port.value, port.value, target);
    ok := true;
  }

  method AppendPlain(res: seq<PortMapping>, raw: string) returns (ok: bool, out: seq<PortMapping>)
    requires '=' !in raw && !(':' in raw && '-' in raw)
    ensures ok <==> ParseItem(raw).Some?
    ensures ok ==> out == res + ParseItem(raw).value.Mappings()
  {
    if '-' in raw {
      var range := ParseRange(raw);
      if range.None? {
        return false, res;
      }
      out := AppendRange(res, range.value.0, range.value.1, None);
      return true, out;
    }
    var port := ParsePort(raw);
    if port.None? {
      return false, res;
    }
    out := AppendRange(res, port.value, port.value, None);
    ok := true;
  }

  // one turn of the loop of ParseMappings
  method AppendItem(res: seq<PortMapping>, item: string) returns (ok: bool, out: seq<PortMapping>)
    ensures ok <==> ExpandRaw(item).Some?
    ensures ok ==> out == res + ExpandRaw(item).value
  {
    hide ParseItem, TrimSpace;
    var raw := TrimSpace(item);
    if raw == "" {
      return true, res;
    }
    if ':' in raw && '-' in raw && '=' !in raw {
      ok, out := AppendColon(res, raw);
    } else if '=' in raw {
      ok, out := AppendEquals(res, raw);
    } else {
      ok, out := AppendPlain(res, raw);
    }
  }

  /** Success exactly when every item expands and something comes out; then the result
      is the expansions of the items one after the other. */
  method ParseMappings(items: seq<string>) returns (r: Result<seq<PortMapping>>)
    ensures r.Ok? <==> AllExpand(items) && Concat(Expansions(items)) != []
    ensures r.Ok? ==> r.value == Concat(Expansions(items))
  {
    NoItems();
    hide Concat, ExpandRaw, AllExpand, Expansions;
    var res: seq<PortMapping> := [];
    assert items[..0] == [];
    for i := 0 to |items|
      invariant AllExpand(items[..i]) && res == Concat(Expansions(items[..i]))
    {
      ghost var before := items[..i];
      assert items[..i + 1] == before + [items[i]];
      var ok;
      ok, res := AppendItem(res, items[i]);
      if !ok {
        NotAll(items, i);
        return Err;
      }
      OneItemMore(before, items[i]);
    }
    assert items[..|items|] == items;
    r := if res == [] then Err else Ok(res);
  }

  lemma NoItems()
    ensures AllExpand([]) && Concat(Expansions([])) == []
  {
  }

  lemma NotAll(items: seq<string>, i: nat)
    requires i < |items| && ExpandRaw(items[i]).None?
    ensures !AllExpand(items)
  {
  }

  lemma OneItemMore(items: seq<string>, item: string)
    requires AllExpand(items) && ExpandRaw(item).Some?
    ensures AllExpand(items + [item])
    ensures Concat(Expansions(items + [item])) == Concat(Expansions(items)) + ExpandRaw(item).value
  {
    assert Expansions(items + [item]) == Expansions(items) + [ExpandRaw(item).value];
    ConcatAppend(Expansions(items), [ExpandRaw(item).value]);
    ConcatSingle(ExpandRaw(item).value);
  }

  /** Whatever the item, it listens on consecutive ports a..b with 1 <= a <= b <= 65535,
      once on each, so no two of its mappings listen on the same address. */
  lemma ExpansionIsConsecutive(item: string) returns (a: nat, b: nat)
    requires ExpandRaw(item).Some? && ExpandRaw(item).value != []
    ensures 1 <= a <= b <= 65535 && |ExpandRaw(item).value| == b - a + 1
    ensures forall i :: 0 <= i <= b - a ==> ExpandRaw(item).value[i].listen == LISTEN + Itoa(a + i)
    ensures forall i, j :: 0 <= i < j <= b - a ==>
      ExpandRaw(item).value[i].listen != ExpandRaw(item).value[j].listen
  {
    var spread := ParseItem(TrimSpace(item)).value;
    a, b := spread.first, spread.last;
    forall i, j | 0 <= i < j <= b - a
      ensures spread.Mappings()[i].listen != spread.Mappings()[j].listen
    {
      ListenersDistinct(a + i, a + j);
    }
  }

  lemma ListenersDistinct(p: nat, q: nat)
    requires p != q
    ensures LISTEN + Itoa(p) != LISTEN + Itoa(q)
  {
    var x, y := Itoa(p), Itoa(q);
    if LISTEN + x == LISTEN + y {
      assert x == (LISTEN + x)[|LISTEN|..] == (LISTEN + y)[|LISTEN|..] == y;
      ItoaInjective(p, q);
    }
  }

  // ---- items written with bare ports ---------------------------------------------------

  datatype Item =
    | Single(p: nat)                       // p
    | Range(a: nat, b: nat)                // a-b
    | One(p: nat, t: nat)                  // p=t
    | RangeEq(a: nat, b: nat, t: nat)      // a-b=t
    | RangeColon(a: nat, b: nat, t: nat)   // a-b:t

  function Show(item: Item): string {
    match item
    case Single(p) => Itoa(p)
    case Range(a, b) => Itoa(a) + ['-'] + Itoa(b)
    case One(p, t) => Itoa(p) + ['='] + Itoa(t)
    case RangeEq(a, b, t) => Itoa(a) + ['-'] + Itoa(b) + ['='] + Itoa(t)
    case RangeColon(a, b, t) => Itoa(a) + ['-'] + Itoa(b) + [':'] + Itoa(t)
  }

  predicate IsPort(p: nat) {
    1 <= p <= 65535
  }

  // whether it is accepted, the ports it listens on, and the port it is sent to
  predicate Accepted(item: Item) {
    match item
    case Single(p) => IsPort(p)
    case Range(a, b) => 1 <= a <= b <= 65535
    case One(p, t) => IsPort(p) && IsPort(t)
    case RangeEq(a, b, t) => 1 <= a <= b <= 65535 && IsPort(t)
    case RangeColon(a, b, t) => 1 <= a <= b <= 65535 && IsPort(t)
  }

  function First(item: Item): nat {
    match item
    case Single(p) => p
    case Range(a, b) => a
    case One(p, t) => p
    case RangeEq(a, b, t) => a
    case RangeColon(a, b, t) => a
  }

  function Last(item: Item): nat {
    match item
    case Single(p) => p
    case Range(a, b) => b
    case One(p, t) => p
    case RangeEq(a, b, t) => b
    case RangeColon(a, b, t) => b
  }

  function SentTo(item: Item, p: nat): nat {
    match item
    case Single(_) => p
    case Range(_, _) => p
    case One(_, t) => t
    case RangeEq(_, _, t) => t
    case RangeColon(_, _, t) => t
  }

  lemma ParsePortOfItoa(p: nat)
    ensures ParsePort(Itoa(p)) == if IsPort(p) then Some(p) else None
    ensures ParseTarget(Itoa(p)) == if IsPort(p) then Some(LOCAL + Itoa(p)) else None
  {
    var s := Itoa(p);
    ItoaPlain(p);
    BareStays(s, IsSpace);
    assert ':' !in s;
    assert s[AfterLast(s, ':')..] == s;
    AtoiOfItoa(p);
  }

  lemma ParseRangeOfItoa(a: nat, b: nat)
    ensures ParseRange(Itoa(a) + ['-'] + Itoa(b)) == if 1 <= a <= b <= 65535 then Some((a, b)) else None
    ensures TrimSpace(Itoa(a) + ['-'] + Itoa(b)) == Itoa(a) + ['-'] + Itoa(b)
  {
    var s := Itoa(a) + ['-'] + Itoa(b);
    ItoaPlain(a);
    ItoaPlain(b);
    assert s[0] == Itoa(a)[0] && s[|s| - 1] == Itoa(b)[|Itoa(b)| - 1];
    BareStays(s, IsSpace);
    CutFirst(Itoa(a), '-', Itoa(b));
    BareStays(Itoa(a), IsSpace);
    BareStays(Itoa(b), IsSpace);
    AtoiOfItoa(a);
    AtoiOfItoa(b);
  }

  // digits contain none of the separators
  lemma NoSeparators(p: nat)
    ensures var s := Itoa(p); '-' !in s && '=' !in s && ':' !in s && TrimSpace(s) == s
  {
    ItoaPlain(p);
    BareStays(Itoa(p), IsSpace);
  }

  lemma RangeSeparators(a: nat, b: nat)
    ensures var s := Itoa(a) + ['-'] + Itoa(b); '-' in s && '=' !in s && ':' !in s
  {
    NoSeparators(a);
    NoSeparators(b);
    assert (Itoa(a) + ['-'] + Itoa(b))[|Itoa(a)|] == '-';
  }

  lemma PlainParses(item: Item)
    requires item.Single? || item.Range?
    ensures ParseItem(Show(item)) == if Accepted(item) then Some(Spread(First(item), Last(item), None)) else None
  {
    match item
    case Single(p) =>
      NoSeparators(p);
      ParsePortOfItoa(p);
    case Range(a, b) =>
      RangeSeparators(a, b);
      ParseRangeOfItoa(a, b);
  }

  lemma EqualsParses(left: string, t: nat)
    requires '=' !in left && TrimSpace(left) == left
    ensures '=' in left + ['='] + Itoa(t)
    ensures EqualsItem(left + ['='] + Itoa(t)) ==
      if !IsPort(t) then None
      else if '-' in left then RangeTo(ParseRange(left), Some(LOCAL + Itoa(t)))
      else if ParsePort(left).None? then None
      else Some(Spread(ParsePort(left).value, ParsePort(left).value, Some(LOCAL + Itoa(t))))
  {
    CutFirst(left, '=', Itoa(t));
    NoSeparators(t);
    ParsePortOfItoa(t);
  }

  lemma ColonParses(left: string, t: nat)
    requires ':' !in left && TrimSpace(left) == left
    ensures ':' in left + [':'] + Itoa(t)
    ensures ColonItem(left + [':'] + Itoa(t)) ==
      if IsPort(t) then RangeTo(ParseRange(left), Some(LOCAL + Itoa(t))) else None
  {
    CutFirst(left, ':', Itoa(t));
    NoSeparators(t);
    ParsePortOfItoa(t);
  }

  lemma Picks(left: string, sep: char, right: string)
    requires '=' !in left && ':' !in left && '=' !in right
    ensures sep == '=' ==> ParseItem(left + [sep] + right) == EqualsItem(left + [sep] + right)
    ensures sep == ':' && '-' in left ==> ParseItem(left + [sep] + right) == ColonItem(left + [sep] + right)
  {
    var s := left + [sep] + right;
    assert s[|left|] == sep;
    if '-' in left {
      var k :| 0 <= k < |left| && left[k] == '-';
      assert s[k] == '-';
    }
  }

  /** An item written with bare ports means what it says, and is refused exactly when a
      port is out of bounds or a range runs backwards. */
  lemma ItemParses(item: Item)
    ensures ParseItem(Show(item)).Some? <==> Accepted(item)
    ensures Accepted(item) ==>
      var s := ParseItem(Show(item)).value;
      && s.first == First(item) && s.last == Last(item)
      && (forall p: nat :: s.TargetOf(p) == LOCAL + Itoa(SentTo(item, p)))
  {
    match item
    case Single(p) => PlainParses(item);
    case Range(a, b) => PlainParses(item);
    case One(p, t) => OneParses(p, t);
    case RangeEq(a, b, t) => RangeEqParses(a, b, t);
    case RangeColon(a, b, t) => RangeColonParses(a, b, t);
    hide ParseItem, Itoa, Show;
  }

  lemma OneParses(p: nat, t: nat)
    ensures ParseItem(Show(One(p, t))) ==
      if IsPort(p) && IsPort(t) then Some(Spread(p, p, Some(LOCAL + Itoa(t)))) else None
  {
    NoSeparators(p);
    NoSeparators(t);
    ParsePortOfItoa(p);
    hide Itoa, ParseItem, EqualsItem, ParsePort;
    EqualsParses(Itoa(p), t);
    Picks(Itoa(p), '=', Itoa(t));
  }

  lemma RangeEqParses(a: nat, b: nat, t: nat)
    ensures ParseItem(Show(RangeEq(a, b, t))) ==
      if 1 <= a <= b <= 65535 && IsPort(t) then Some(Spread(a, b, Some(LOCAL + Itoa(t)))) else None
  {
    hide Itoa, ParseItem, EqualsItem, ParseRange, ParsePort;
    RangeSeparators(a, b);
    NoSeparators(t);
    ParseRangeOfItoa(a, b);
    EqualsParses(Itoa(a) + ['-'] + Itoa(b), t);
    Picks(Itoa(a) + ['-'] + Itoa(b), '=', Itoa(t));
  }

  lemma RangeColonParses(a: nat, b: nat, t: nat)
    ensures ParseItem(Show(RangeColon(a, b, t))) ==
      if 1 <= a <= b <= 65535 && IsPort(t) then Some(Spread(a, b, Some(LOCAL + Itoa(t)))) else None
  {
    hide Itoa, ParseItem, ColonItem, ParseRange, ParsePort;
    RangeSeparators(a, b);
    NoSeparators(t);
    ParseRangeOfItoa(a, b);
    ColonParses(Itoa(a) + ['-'] + Itoa(b), t);
    Picks(Itoa(a) + ['-'] + Itoa(b), ':', Itoa(t));
  }

  lemma ShowIsBare(item: Item)
    ensures Show(item) != "" && TrimSpace(Show(item)) == Show(item)
  {
    var s := Show(item);
    var l, r := Itoa(First(item)), s[|s| - 1];
    ItoaPlain(First(item));
    match item
    case Single(p) =>
    case Range(a, b) => ItoaPlain(b);
    case One(p, t) => ItoaPlain(t);
    case RangeEq(a, b, t) => ItoaPlain(t);
    case RangeColon(a, b, t) => ItoaPlain(t);
    assert IsDigit(s[0]) && IsDigit(s[|s| - 1]);
    BareStays(s, IsSpace);
  }

  /** From the list to the dial: an item with bare ports expands to one mapping for each
      of its ports in order, and the target of each goes over the wire as its port alone
      and is dialled unchanged as 127.0.0.1:port. */
  lemma ItemToDial(item: Item, p: nat)
    requires Accepted(item) && First(item) <= p <= Last(item)
    ensures ExpandRaw(Show(item)).Some? && |ExpandRaw(Show(item)).value| == Last(item) - First(item) + 1
    ensures var m := ExpandRaw(Show(item)).value[p - First(item)];
      && m == PortMapping(LISTEN + Itoa(p), LOCAL + Itoa(SentTo(item, p)))
      && WireTarget(m.target) == Itoa(SentTo(item, p))
      && NormalizeTarget(WireTarget(m.target)) == Some(m.target)
  {
    ItemListens(item, p);
    BarePortRoundTrip(SentTo(item, p));
  }

  lemma ItemListens(item: Item, p: nat)
    requires Accepted(item) && First(item) <= p <= Last(item)
    ensures ExpandRaw(Show(item)).Some? && |ExpandRaw(Show(item)).value| == Last(item) - First(item) + 1
    ensures ExpandRaw(Show(item)).value[p - First(item)] == PortMapping(LISTEN + Itoa(p), LOCAL + Itoa(SentTo(item, p)))
  {
    ShowIsBare(item);
    ItemParses(item);
    SpreadAt(Show(item), First(item), Last(item), p, LOCAL + Itoa(SentTo(item, p)));
  }

  lemma SpreadAt(s: string, a: nat, b: nat, p: nat, target: string)
    requires s != "" && TrimSpace(s) == s && a <= p <= b
    requires ParseItem(s).Some? && ParseItem(s).value.first == a && ParseItem(s).value.last == b
    requires ParseItem(s).value.TargetOf(p) == target
    ensures ExpandRaw(s).Some? && |ExpandRaw(s).value| == b - a + 1
    ensures ExpandRaw(s).value[p - a] == PortMapping(LISTEN + Itoa(p), target)
  {
    var spread := ParseItem(s).value;
    assert ExpandRaw(s) == Some(spread.Mappings());
    assert a + (p - a) == p;
  }

  // ---- a range with a host behind the equals sign -----------------------------------------

  lemma TrimTwice(s: string)
    ensures TrimSpace(TrimSpace(s)) == TrimSpace(s)
  {
    TrimIsBare(s, IsSpace);
  }

  // an item with a range on the left goes to a port at home, whatever host is written
  lemma RangeEqualsGoesHome(left: string, right: string)
    requires '=' !in left && '-' in TrimSpace(left)
    ensures ParseItem(left + ['='] + right) ==
      RangeTo(ParseRange(TrimSpace(left)), AtHome(ParsePort(TrimSpace(right))))
  {
    var s := left + ['='] + right;
    assert s[|left|] == '=';
    CutFirst(left, '=', right);
  }

  /** The host of range=host:port is dropped.  The item is sent where its right part says
      if and only if that part has no host or is the local address as it is printed. */
  lemma HostKept(left: string, right: string)
    requires '=' !in left && '-' in TrimSpace(left) && ParseRange(TrimSpace(left)).Some?
    ensures var item, t := ParseItem(left + ['='] + right), TrimSpace(right);
      && (item.Some? <==> ParsePort(t).Some?)
      && (item.Some? ==> item.value.target == AtHome(ParsePort(t)))
      && (item.Some? ==> (item.value.target == ParseTarget(t) <==> ':' !in t || t == LOCAL + Itoa(ParsePort(t).value)))
  {
    RangeEqualsGoesHome(left, right);
    TrimTwice(right);
  }

  /** Such an item: 1-2=10.0.0.1:80 goes to 127.0.0.1:80. */
  lemma HostDropped()
    ensures var item := ParseItem("1-2" + ['='] + "10.0.0.1:80");
      item.Some? && item.value.target == Some(LOCAL + Itoa(80)) && ParseTarget("10.0.0.1:80") == Some("10.0.0.1:80")
  {
    OneToTwo();
    HostEighty();
    hide ParseItem, ParseRange, ParsePort, ParseTarget, TrimSpace, Itoa;
    RangeEqualsGoesHome("1-2", "10.0.0.1:80");
  }

  lemma OneToTwo()
    ensures var left := "1-2";
      '=' !in left && TrimSpace(left) == left && '-' in left && ParseRange(left) == Some((1, 2))
  {
    assert Itoa(1) == "1" && Itoa(2) == "2";
    assert "1-2" == Itoa(1) + ['-'] + Itoa(2);
    ParseRangeOfItoa(1, 2);
    RangeSeparators(1, 2);
  }

  lemma HostEighty()
    ensures var right := "10.0.0.1:80";
      TrimSpace(right) == right && ParsePort(right) == Some(80) && ParseTarget(right) == Some(right)
  {
    assert Itoa(8) == "8" && Itoa(80) == "80";
    assert "10.0.0.1:80" == "10.0.0.1" + [':'] + Itoa(80);
    HostedPort("10.0.0.1", 80);
  }

  // ---- items with hosts ---------------------------------------------------------------------

  // a host as it may stand in front of a port
  predicate IsHost(host: string) {
    host != "" && !IsSpace(host[0])
  }

  lemma HostedPort(host: string, p: nat)
    requires IsHost(host)
    ensures var t := host + [':'] + Itoa(p);
      && TrimSpace(t) == t && ':' in t && t[0] == host[0] && IsDigit(t[|t| - 1])
      && ParsePort(t) == (if IsPort(p) then Some(p) else None)
      && ParseTarget(t) == (if IsPort(p) then Some(t) else None)
  {
    var t := host + [':'] + Itoa(p);
    NoSeparators(p);
    ItoaPlain(p);
    assert t[|t| - 1] == Itoa(p)[|Itoa(p)| - 1];
    BareStays(t, IsSpace);
    AfterLastOne(host, ':', Itoa(p));
    assert t[|host| + 1..] == Itoa(p);
    AtoiOfItoa(p);
    assert t[|host|] == ':';
  }

  // an item that begins and ends with no space, of which the first equals sign is this one
  lemma EqualsAt(left: string, right: string)
    requires IsHost(left) && '=' !in left && right != "" && !IsSpace(right[|right| - 1])
    ensures var item := left + ['='] + right;
      item != "" && TrimSpace(item) == item && ParseItem(item) == EqualsItem(item) && CutAt(item, '=') == (left, right)
  {
    var item := left + ['='] + right;
    assert item[|left|] == '=';
    assert item[|item| - 1] == right[|right| - 1];
    BareStays(item, IsSpace);
    CutFirst(left, '=', right);
  }

  lemma EqualsSends(left: string, right: string)
    requires IsHost(left) && '=' !in left && TrimSpace(left) == left && '-' !in left
    requires right != "" && !IsSpace(right[|right| - 1]) && TrimSpace(right) == right
    ensures ExpandRaw(left + ['='] + right) ==
      if ParsePort(left).None? || ParseTarget(right).None? then None
      else Some([PortMapping(LISTEN + Itoa(ParsePort(left).value), ParseTarget(right).value)])
  {
    EqualsAt(left, right);
    hide TrimSpace, ParsePort, ParseTarget, Itoa;
    if ParsePort(left).Some? && ParseTarget(right).Some? {
      OneMapping(ParsePort(left).value, ParseTarget(right).value);
    }
  }

  lemma OneMapping(p: nat, target: string)
    requires IsPort(p)
    ensures Spread(p, p, Some(target)).Mappings() == [PortMapping(LISTEN + Itoa(p), target)]
  {
  }

  lemma PortIsHost(p: nat)
    ensures IsHost(Itoa(p)) && !IsSpace(Itoa(p)[|Itoa(p)| - 1])
  {
    ItoaPlain(p);
  }

  /** port=host:port goes to that host and port, for every host, and is refused exactly when
      a port is out of bounds. */
  lemma HostedOne(p: nat, host: string, t: nat)
    requires IsHost(host)
    ensures var target := host + [':'] + Itoa(t);
      ExpandRaw(Itoa(p) + ['='] + target) ==
        if IsPort(p) && IsPort(t) then Some([PortMapping("0.0.0.0:" + Itoa(p), target)]) else None
  {
    NoSeparators(p);
    PortIsHost(p);
    ParsePortOfItoa(p);
    HostedPort(host, t);
    hide ExpandRaw, ParsePort, ParseTarget, Itoa, TrimSpace;
    EqualsSends(Itoa(p), host + [':'] + Itoa(t));
  }

  /** A host in front of the listening port is dropped: the item listens on that port of
      every address. */
  lemma ListenHostDropped(left: string, p: nat, host: string, t: nat)
    requires IsHost(left) && '=' !in left && '-' !in left && IsHost(host)
    ensures var target := host + [':'] + Itoa(t);
      ExpandRaw(left + [':'] + Itoa(p) + ['='] + target) ==
        if IsPort(p) && IsPort(t) then Some([PortMapping("0.0.0.0:" + Itoa(p), target)]) else None
  {
    NoSeparators(p);
    HostedPort(left, p);
    HostedPort(host, t);
    hide ExpandRaw, ParsePort, ParseTarget, Itoa, TrimSpace;
    EqualsSends(left + [':'] + Itoa(p), host + [':'] + Itoa(t));
  }

  lemma PlainSends(item: string)
    requires item != "" && TrimSpace(item) == item && '=' !in item && '-' !in item
    ensures ExpandRaw(item) ==
      match ParsePort(item)
      case Some(p) => Some([PortMapping(LISTEN + Itoa(p), LOCAL + Itoa(p))])
      case None => None
  {
    hide TrimSpace, ParsePort, Itoa;
    assert ParseItem(item) == PlainItem(item);
    if ParsePort(item).Some? {
      var p := ParsePort(item).value;
      assert Spread(p, p, None).Mappings() == [PortMapping(LISTEN + Itoa(p), LOCAL + Itoa(p))];
    }
  }

  /** So is the host of an item that is nothing but host:port, which goes to the same port
      at home. */
  lemma HostedAlone(left: string, p: nat)
    requires IsHost(left) && '=' !in left && '-' !in left
    ensures ExpandRaw(left + [':'] + Itoa(p)) ==
      if IsPort(p) then Some([PortMapping("0.0.0.0:" + Itoa(p), "127.0.0.1:" + Itoa(p))]) else None
  {
    NoSeparators(p);
    HostedPort(left, p);
    hide ExpandRaw, ParsePort, ParseTarget, Itoa, TrimSpace;
    PlainSends(left + [':'] + Itoa(p));
  }

  lemma ColonSends(left: string, right: string, a: nat, b: nat, target: string)
    requires IsHost(left) && ':' !in left && '=' !in left && '-' in left && TrimSpace(left) == left
    requires right != "" && '=' !in right && TrimSpace(right) == right && !IsSpace(right[|right| - 1])
    requires 1 <= a <= b <= 65535
    ensures ParseRange(left).None? || ParseTarget(right).None? ==> ExpandRaw(left + [':'] + right).None?
    ensures ParseRange(left) == Some((a, b)) && ParseTarget(right) == Some(target) ==>
      ExpandRaw(left + [':'] + right) == Some(Spread(a, b, Some(target)).Mappings())
  {
    ColonAt(left, right);
    hide TrimSpace, ParseRange, ParseTarget, ParseItem;
  }

  /** a-b:host:port goes to that host and port from every port of the range. */
  lemma HostedRange(a: nat, b: nat, host: string, t: nat)
    requires IsHost(host) && '=' !in host
    ensures var target := host + [':'] + Itoa(t);
      var es := ExpandRaw(Itoa(a) + ['-'] + Itoa(b) + [':'] + target);
      && (es.Some? <==> 1 <= a <= b <= 65535 && IsPort(t))
      && (es.Some? ==> |es.value| == b - a + 1)
      && (es.Some? ==>
            forall i :: 0 <= i <= b - a ==> es.value[i] == PortMapping("0.0.0.0:" + Itoa(a + i), target))
  {
    hide ExpandRaw, ParseRange, ParseTarget, ParsePort, Itoa, TrimSpace, IsSpace, IsDigit, AfterLast, IndexOf;
    var left, target := Itoa(a) + ['-'] + Itoa(b), host + [':'] + Itoa(t);
    RangeSeparators(a, b);
    ParseRangeOfItoa(a, b);
    RangeBegins(a, b);
    HostedRight(host, t);
    if 1 <= a <= b <= 65535 {
      ColonSends(left, target, a, b, target);
      RangeMappings(a, b, target);
    } else {
      ColonSends(left, target, 1, 1, target);
    }
  }

  lemma HostedRight(host: string, t: nat)
    requires IsHost(host) && '=' !in host
    ensures var target := host + [':'] + Itoa(t);
      && target != "" && '=' !in target && TrimSpace(target) == target && !IsSpace(target[|target| - 1])
      && ParseTarget(target) == (if IsPort(t) then Some(target) else None)
  {
    NoSeparators(t);
    HostedPort(host, t);
    NotSpace(host + [':'] + Itoa(t));
    hide ParseTarget, Itoa, TrimSpace, IsSpace, IsDigit, AfterLast;
  }

  lemma RangeMappings(a: nat, b: nat, target: string)
    requires 1 <= a <= b <= 65535
    ensures var ms := Spread(a, b, Some(target)).Mappings();
      |ms| == b - a + 1 && forall i :: 0 <= i <= b - a ==> ms[i] == PortMapping("0.0.0.0:" + Itoa(a + i), target)
  {
    hide Itoa;
  }

  lemma NotSpace(s: string)
    ensures s != "" && IsDigit(s[|s| - 1]) ==> !IsSpace(s[|s| - 1])
  {
  }

  lemma RangeBegins(a: nat, b: nat)
    ensures IsHost(Itoa(a) + ['-'] + Itoa(b))
  {
    ItoaPlain(a);
  }

  lemma ColonAt(left: string, right: string)
    requires IsHost(left) && ':' !in left && '=' !in left && '-' in left && TrimSpace(left) == left
    requires right != "" && '=' !in right && TrimSpace(right) == right && !IsSpace(right[|right| - 1])
    ensures var item := left + [':'] + right;
      && item != "" && TrimSpace(item) == item
      && ParseItem(item) == RangeTo(ParseRange(left), ParseTarget(right))
  {
    var item := left + [':'] + right;
    assert item[|item| - 1] == right[|right| - 1];
    BareStays(item, IsSpace);
    Picks(left, ':', right);
    CutFirst(left, ':', right);
    assert item[|left|] == ':';
  }
}
