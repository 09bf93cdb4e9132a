/** The configuration file's line loop: the scanner's lines, sections, comments, and the
    list of port mappings, which may be written on one line or over several. */
module ConfigList {
  import opened Wrappers
  import opened Scanner
  import opened Text
  import Utf8

  // what the loop carries from line to line; every key other than the list is kept as
  // the section, key and value it is set with
  datatype State = State(
    section: string,
    inList: bool,
    mapping: seq<string>,
    settings: seq<(string, string, string)>)

  predicate ItemCut(c: char) {
    c == ' ' || c == '\t' || c == '\r' || c == '\n' || c == '"'
  }

  predicate ListCut(c: char) {
    ItemCut(c) || c == ','
  }

  predicate QuoteCut(c: char) {
    c == '"'
  }

  function Unquote(v: string): string {
    TrimOf(TrimSpace(v), QuoteCut)
  }

  predicate Header(line: string) {
    line != [] && line[0] == '[' && line[|line| - 1] == ']'
  }

  function Add(st: State, item: string): State {
    if item == "" then st else st.(mapping := st.mapping + [item])
  }

  // the non-empty trimmed parts
  function Kept(parts: seq<string>): seq<string> {
    if parts == [] then []
    else
      var rest := Kept(parts[..|parts| - 1]);
      var p := TrimOf(parts[|parts| - 1], ItemCut);
      if p == "" then rest else rest + [p]
  }

  function ListLine(st: State, line: string): State {
    if ']' in line then
      Add(st.(inList := false), TrimOf(TrimSpace(TrimSuffix(line, ']')), ListCut))
    else
      Add(st, TrimOf(line, ListCut))
  }

  function ListStart(st: State, value: string): State {
    var val := TrimSpace(TrimPrefix(value, '['));
    if ']' in val then
      st.(mapping := st.mapping + Kept(SplitOn(TrimSpace(TrimSuffix(val, ']')), ',')))
    else
      Add(st.(inList := true), TrimOf(val, ItemCut))
  }

  function Setting(st: State, line: string): State
    requires '=' in line
  {
    var (k, v) := CutAt(line, '=');
    var key, val := TrimSpace(k), TrimSpace(v);
    if st.section == "ports" && key == "mapping" then ListStart(st, val)
    else st.(settings := st.settings + [(st.section, key, Unquote(val))])
  }

  // a line without comment and surrounding space
  function Meaning(raw: string): string {
    var l := TrimSpace(raw);
    if '#' in l then TrimSpace(l[..IndexOf(l, '#')]) else l
  }

  function LineStep(st: State, line: string): State {
    if st.inList then ListLine(st, line)
    else if Header(line) then st.(section := TrimSpace(line[1..|line| - 1]))
    else if '=' in line then Setting(st, line)
    else st
  }

  function Step(st: State, raw: string): State {
    if Meaning(raw) == "" then st else LineStep(st, Meaning(raw))
  }

  function Load(st: State, lines: seq<string>): State {
    if lines == [] then st else Step(Load(st, lines[..|lines| - 1]), lines[|lines| - 1])
  }

  // ---- texts -------------------------------------------------------------------------

  /** What a text is loaded as: nothing when one of its lines is too long for the scanner,
      else what its lines, one after the other, make of the state. */
  function LoadText(st: State, text: string): Result<State> {
    if AllShort(RawLines(text)) then Ok(Load(st, Scanned(RawLines(text)))) else Err
  }

  /** A text behind whole lines is loaded from where they lead, if they load. */
  lemma LoadTextAppend(st: State, a: string, b: string)
    requires WholeLines(a)
    ensures LoadText(st, a + b) == match LoadText(st, a) case Ok(mid) => LoadText(mid, b) case Err => Err
  {
    RawLinesAppend(a, b);
    var la, lb := RawLines(a), RawLines(b);
    hide RawLines, Load, Short, DropReturn;
    assert Scanned(la + lb) == Scanned(la) + Scanned(lb);
    LoadFrom(st, Scanned(la), Scanned(lb));
    BothShort(la, lb);
  }

  /** Printed lines are loaded as themselves when they are short. */
  lemma LoadPrinted(st: State, lines: seq<string>)
    requires forall i :: 0 <= i < |lines| ==> '\n' !in lines[i] && DropReturn(lines[i]) == lines[i]
    ensures LoadText(st, Unlines(lines)) == if AllShort(lines) then Ok(Load(st, lines)) else Err
  {
    RawLinesOfPrinted(lines, "");
    NoLines();
    assert Unlines(lines) + "" == Unlines(lines) && lines + [] == lines;
    hide RawLines, Load, AllShort, Unlines;
    assert Scanned(lines) == lines;
  }

  /** A line fails the text that it stands in exactly when it takes more than 65535 bytes. */
  lemma LineLimit(st: State, line: string, rest: string)
    requires '\n' !in line
    ensures LoadText(st, line + ['\n'] + rest) ==
      if |Utf8.Encode(line)| > 65535 then Err else LoadText(Step(st, DropReturn(line)), rest)
  {
    hide RawLines, Step, DropReturn, Utf8.Encode, Load, AllShort;
    var text := line + ['\n'] + rest;
    LineInFront(line, rest);
    BothShort([line], RawLines(rest));
    OneShort(line);
    assert Scanned(RawLines(text)) == [DropReturn(line)] + Scanned(RawLines(rest));
    LoadFrom(st, [DropReturn(line)], Scanned(RawLines(rest)));
    LoadOne(st, DropReturn(line));
  }

  // ---- single lines ---------------------------------------------------------------------

  /** What stands behind the first `#` of a line makes no difference. */
  lemma CommentDropped(st: State, line: string, comment: string)
    requires '#' !in line
    ensures Step(st, line + ['#'] + comment) == Step(st, line)
  {
    hide LineStep;
    CommentMeaning(line, comment);
  }

  lemma CommentMeaning(line: string, comment: string)
    requires '#' !in line
    ensures Meaning(line + ['#'] + comment) == Meaning(line)
  {
    var text := line + ['#'] + comment;
    var front := TrimLeftOf(line, IsSpace);
    TrimLeftBefore(line, '#', comment);
    TrimPart(line, IsSpace);
    var l := TrimSpace(text);
    TrimRightBehind(front + ['#'], comment, IsSpace);
    assert front + ['#'] + comment == (front + ['#']) + comment;
    assert l == front + ['#'] + TrimRightOf(comment, IsSpace);
    TrimLeftPart(line, IsSpace);
    IndexOfFirst(front, '#', TrimRightOf(comment, IsSpace));
    assert l[..|front|] == front;
    TrimLeftTwice(line);
  }

  lemma {:induction false} TrimLeftBefore(line: string, c: char, rest: string)
    requires !IsSpace(c)
    ensures TrimLeftOf(line + [c] + rest, IsSpace) == TrimLeftOf(line, IsSpace) + [c] + rest
  {
    if line != "" && IsSpace(line[0]) {
      assert (line + [c] + rest)[1..] == line[1..] + [c] + rest;
      TrimLeftBefore(line[1..], c, rest);
    }
  }

  lemma TrimLeftTwice(line: string)
    ensures TrimSpace(TrimLeftOf(line, IsSpace)) == TrimSpace(line)
  {
    TrimLeftBare(line, IsSpace);
  }

  /** A line in brackets outside the list names the section that follows. */
  lemma SectionLine(st: State, name: string)
    requires !st.inList && '#' !in name
    ensures Step(st, ['['] + name + [']']) == st.(section := TrimSpace(name))
  {
    var line := ['['] + name + [']'];
    assert line[0] == '[' && line[|line| - 1] == ']' && line[1..|line| - 1] == name;
    BareStays(line, IsSpace);
  }

  // a key as it is written in front of the equals sign
  predicate IsKey(key: string) {
    key != "" && Bare(key, IsSpace) && '=' !in key && '#' !in key && key[0] != '['
  }

  /** Outside the list, key = "value" sets that key of the present section to that value;
      the key `mapping` does so in any section but [ports], where it begins the list. */
  lemma KeyLine(st: State, key: string, value: string)
    requires !st.inList && IsKey(key) && !(st.section == "ports" && key == "mapping")
    requires '#' !in value && Bare(value, QuoteCut)
    ensures Step(st, key + " = " + Quoted(value)) == st.(settings := st.settings + [(st.section, key, value)])
  {
    var line, right := key + " = " + Quoted(value), [' '] + Quoted(value);
    assert line == (key + " ") + ['='] + right;
    assert line[0] == key[0] && line[|line| - 1] == '"';
    BareStays(line, IsSpace);
    assert '#' !in line;
    CutFirst(key + " ", '=', right);
    TrimPadded("", key, " ", IsSpace);
    assert "" + key + " " == key + " ";
    KeyValue(value);
    assert TrimSpace(right) == Quoted(value) by { QuotedBare(value); }
    hide LineStep, Unquote, TrimOf;
    KeyLineSets(st, line, key, right);
  }

  lemma QuotedBare(v: string)
    ensures TrimSpace([' '] + Quoted(v)) == Quoted(v)
  {
    TrimPadded([' '], Quoted(v), [], IsSpace);
    assert [' '] + Quoted(v) + [] == [' '] + Quoted(v);
  }

  lemma KeyValue(value: string)
    requires Bare(value, QuoteCut)
    ensures Unquote(Quoted(value)) == value
  {
    var q := Quoted(value);
    BareStays(q, IsSpace);
    if value == "" {
      assert q[1..] == ['"'] && ['"'][1..] == "";
      assert TrimLeftOf(['"'], QuoteCut) == TrimLeftOf("", QuoteCut) == "";
      assert TrimLeftOf(q, QuoteCut) == "";
    } else {
      TrimPadded(['"'], value, ['"'], QuoteCut);
    }
  }

  lemma KeyLineSets(st: State, line: string, key: string, right: string)
    requires !st.inList && line != "" && line[0] != '[' && Meaning(line) == line && '=' in line
    requires TrimSpace(CutAt(line, '=').0) == key && CutAt(line, '=').1 == right
    requires !(st.section == "ports" && key == "mapping")
    ensures Step(st, line) == st.(settings := st.settings + [(st.section, key, Unquote(TrimSpace(right)))])
  {
    hide Meaning, Unquote, TrimOf, CutAt;
  }

  // ---- the loop of Load ------------------------------------------------------------

  method AppendParts(mapping: seq<string>, parts: seq<string>) returns (out: seq<string>)
    ensures out == mapping + Kept(parts)
  {
    out := mapping;
    for i := 0 to |parts|
      invariant out == mapping + Kept(parts[..i])
    {
      assert parts[..i + 1][..i] == parts[..i];
      var p := TrimOf(parts[i], ItemCut);
      if p != "" {
        out := out + [p];
      }
    }
    assert parts[..|parts|] == parts;
  }

  lemma CutIsEmpty(l: string)
    requires l != "" && l[0] == '#'
    ensures '#' in l && TrimSpace(l[..IndexOf(l, '#')]) == ""
  {
    assert l[..0] == "";
  }

  const START := State("", false, [], [])

  /** The loop takes line after line off the text, keeps a section, a flag and the list so
      far, and leaves exactly what the text is loaded as; it fails exactly on a line that
      is too long. */
  method LoadFile(text: string) returns (r: Result<(seq<string>, seq<(string, string, string)>)>)
    ensures match LoadText(START, text)
      case Ok(end) => r == Ok((end.mapping, end.settings))
      case Err => r == Err
  {
    var section, inList, mapping, settings := "", false, [], [];
    var rest := text;
    ghost var done: seq<string> := [];
    while rest != ""
      invariant RawLines(text) == done + RawLines(rest) && AllShort(done)
      invariant Load(START, Scanned(done)) == State(section, inList, mapping, settings)
      decreases |rest|
    {
      RawLinesFront(rest);
      var n := IndexOf(rest, '\n');
      var line := rest[..n];
      ghost var left := RawLines(rest);
      assert left[0] == line;
      LineTaken(done, left, line);
      if |Utf8.Encode(line)| > MAX_LINE {
        return Err;
      }
      section, inList, mapping, settings := TakeLine(section, inList, mapping, settings, DropReturn(line));
      rest, done := if n < |rest| then rest[n + 1..] else "", done + [line];
    }
    NoLines();
    assert done + [] == done;
    r := Ok((mapping, settings));
  }

  // one more line of a text: what it does to the fold and to the bound on lines
  lemma LineTaken(done: seq<string>, left: seq<string>, line: string)
    requires left != [] && left[0] == line && AllShort(done)
    ensures done + left == done + [line] + left[1..]
    ensures AllShort(done + [line]) <==> Short(line)
    ensures AllShort(done + left) ==> Short(line)
    ensures Load(START, Scanned(done + [line])) == Step(Load(START, Scanned(done)), DropReturn(line))
  {
    hide Short, Step, DropReturn;
    assert (done + left)[|done|] == line && (done + [line])[|done|] == line;
    var ls := Scanned(done + [line]);
    assert ls[..|done|] == Scanned(done) && ls[|done|] == DropReturn(line);
  }

  method TakeLine(section: string, inList: bool, mapping: seq<string>, settings: seq<(string, string, string)>,
                  text: string)
    returns (section': string, inList': bool, mapping': seq<string>, settings': seq<(string, string, string)>)
    ensures State(section', inList', mapping', settings') == Step(State(section, inList, mapping, settings), text)
  {
    section', inList', mapping', settings' := section, inList, mapping, settings;
    var line := TrimSpace(text);
    if line == "" || line[0] == '#' {
      if line != "" {
        CutIsEmpty(line);
      }
      return;
    }
    if '#' in line {
      line := TrimSpace(line[..IndexOf(line, '#')]);
    }
    assert line == Meaning(text);
    if inList {
      if ']' in line {
        inList' := false;
        line := TrimSpace(TrimSuffix(line, ']'));
        if line == "" {
          return;
        }
      }
      var item := TrimOf(line, ListCut);
      if item != "" {
        mapping' := mapping' + [item];
      }
      return;
    }
    if Header(line) {
      section' := TrimSpace(line[1..|line| - 1]);
      return;
    }
    if '=' !in line {
      return;
    }
    var (k, v) := CutAt(line, '=');
    var key, val := TrimSpace(k), TrimSpace(v);
    if section == "ports" && key == "mapping" {
      inList', mapping' := TakeList(mapping, val);
    } else {
      settings' := settings + [(section, key, Unquote(val))];
    }
  }

  method TakeList(mapping: seq<string>, value: string) returns (inList: bool, mapping': seq<string>)
    ensures forall st: State :: !st.inList && st.mapping == mapping ==>
      ListStart(st, value) == st.(inList := inList, mapping := mapping')
  {
    inList, mapping' := false, mapping;
    var val := TrimSpace(TrimPrefix(value, '['));
    if ']' in val {
      val := TrimSpace(TrimSuffix(val, ']'));
      if val != "" {
        mapping' := AppendParts(mapping, SplitOn(val, ','));
      } else {
        assert SplitOn(val, ',') == [""] && Kept([""]) == [];
      }
    } else {
      inList := true;
      if val != "" {
        var p := TrimOf(val, ItemCut);
        if p != "" {
          mapping' := mapping + [p];
        }
      }
    }
  }

  // ---- what the list can come out as -------------------------------------------------

  // on one line, free of comments and not trimmed any further by the cut set
  predicate Plain(s: string) {
    '#' !in s && '\n' !in s
  }

  predicate Solid(item: string, cut: char -> bool) {
    item != "" && Plain(item) && Bare(item, cut)
  }

  predicate OnLines(items: seq<string>) {
    forall i :: 0 <= i < |items| ==> '\n' !in items[i]
  }

  predicate AllSolid(items: seq<string>) {
    forall i :: 0 <= i < |items| ==> Solid(items[i], ItemCut)
  }

  lemma TrimSolid(s: string, cut: char -> bool)
    requires Plain(s) && (cut == ItemCut || cut == ListCut)
    ensures TrimOf(s, cut) == "" || (Solid(TrimOf(s, cut), cut) && Solid(TrimOf(s, cut), ItemCut))
  {
    TrimIsBare(s, cut);
    TrimPart(s, cut);
  }

  lemma MeaningIsPlain(raw: string)
    requires '\n' !in raw
    ensures Plain(Meaning(raw))
  {
    var l := TrimSpace(raw);
    TrimPart(raw, IsSpace);
    TrimPart(l[..IndexOf(l, '#')], IsSpace);
  }

  lemma {:induction false} KeptSolid(parts: seq<string>)
    requires forall p :: p in parts ==> Plain(p)
    ensures AllSolid(Kept(parts))
  {
    if parts != [] {
      KeptSolid(parts[..|parts| - 1]);
      TrimSolid(parts[|parts| - 1], ItemCut);
    }
  }

  lemma ListStartAdds(st: State, value: string) returns (added: seq<string>)
    requires Plain(value)
    ensures ListStart(st, value).mapping == st.mapping + added && AllSolid(added)
  {
    var v := TrimPrefix(value, '[');
    var val := TrimSpace(v);
    TrimPart(v, IsSpace);
    if ']' in val {
      var inner := TrimSuffix(val, ']');
      TrimPart(inner, IsSpace);
      SplitParts(TrimSpace(inner), ',');
      added := Kept(SplitOn(TrimSpace(inner), ','));
      KeptSolid(SplitOn(TrimSpace(inner), ','));
    } else {
      TrimSolid(val, ItemCut);
      var p := TrimOf(val, ItemCut);
      added := if p == "" then [] else [p];
      assert p == "" ==> st.mapping + added == st.mapping;
    }
  }

  // whatever the line, it only adds to the list, and only solid items
  lemma StepAdds(st: State, raw: string) returns (added: seq<string>)
    requires '\n' !in raw
    ensures Step(st, raw).mapping == st.mapping + added && AllSolid(added)
  {
    var line := Meaning(raw);
    MeaningIsPlain(raw);
    added := [];
    assert st.mapping + added == st.mapping;
    if line != "" && st.inList {
      added := ListLineAdds(st, line);
    } else if line != "" && !Header(line) && '=' in line {
      var (k, v) := CutAt(line, '=');
      TrimPart(v, IsSpace);
      if st.section == "ports" && TrimSpace(k) == "mapping" {
        added := ListStartAdds(st, TrimSpace(v));
      }
    }
  }

  lemma {:induction false} LoadAdds(st: State, lines: seq<string>) returns (added: seq<string>)
    requires OnLines(lines)
    ensures Load(st, lines).mapping == st.mapping + added && AllSolid(added)
  {
    LoadLast(st, lines);
    hide Load, Step, Solid;
    if lines == [] {
      added := [];
    } else {
      var n := |lines| - 1;
      var front := LoadAdds(st, lines[..n]);
      var last := StepAdds(Load(st, lines[..n]), lines[n]);
      added := front + last;
      assert st.mapping + front + last == st.mapping + added;
    }
  }

  /** Whatever the text, loading it only adds to the list, and only solid items. */
  lemma TextAdds(st: State, text: string) returns (added: seq<string>)
    requires LoadText(st, text).Ok?
    ensures LoadText(st, text).value.mapping == st.mapping + added && AllSolid(added)
  {
    RawLinesPlain(text);
    added := LoadAdds(st, Scanned(RawLines(text)));
  }

  // a line inside the list adds at most one item, and a solid one
  lemma ListLineAdds(st: State, line: string) returns (added: seq<string>)
    requires Plain(line)
    ensures ListLine(st, line).mapping == st.mapping + added && AllSolid(added)
    ensures |added| <= 1 && (forall i :: 0 <= i < |added| ==> Solid(added[i], ListCut))
  {
    var inner := TrimSuffix(line, ']');
    TrimPart(inner, IsSpace);
    TrimSolid(TrimSpace(inner), ListCut);
    TrimSolid(line, ListCut);
    var item := TrimOf(if ']' in line then TrimSpace(inner) else line, ListCut);
    added := if item == "" then [] else [item];
    assert item == "" ==> st.mapping + added == st.mapping;
  }

  // ---- the list over several lines ------------------------------------------------------

  const OPEN := "mapping = ["

  function Quoted(item: string): string {
    ['"'] + item + ['"']
  }

  function ItemLine(item: string): string {
    "    " + Quoted(item) + ","
  }

  function ItemLines(items: seq<string>): (ls: seq<string>)
    ensures |ls| == |items| && forall i :: 0 <= i < |items| ==> ls[i] == ItemLine(items[i])
  {
    seq(|items|, i requires 0 <= i < |items| => ItemLine(items[i]))
  }

  function ListLines(items: seq<string>): seq<string> {
    [OPEN] + ItemLines(items) + ["]"]
  }

  // where the loop stands inside [ports], before a list
  predicate AtPorts(st: State) {
    st.section == "ports" && !st.inList
  }

  lemma MappingSetting(st: State, value: string)
    requires AtPorts(st)
    ensures '=' in "mapping " + ['='] + value
    ensures Setting(st, "mapping " + ['='] + value) == ListStart(st, TrimSpace(value))
  {
    CutFirst("mapping ", '=', value);
    TrimPadded("", "mapping", " ", IsSpace);
    assert "" + "mapping" + " " == "mapping ";
  }

  // a line of that key whose value holds no comment
  lemma MappingLine(st: State, value: string)
    requires AtPorts(st) && '#' !in value && value != "" && Bare(value[1..], IsSpace) && value[1..] != ""
    ensures Step(st, "mapping " + ['='] + value) == ListStart(st, TrimSpace(value))
  {
    var line := "mapping " + ['='] + value;
    assert line[0] == 'm' && line[|line| - 1] == value[1..][|value| - 2];
    BareStays(line, IsSpace);
    assert '#' !in line;
    MappingSetting(st, value);
  }

  lemma LoadOne(st: State, line: string)
    ensures Load(st, [line]) == Step(st, line)
  {
    assert [line][..0] == [];
  }

  lemma OpenStep(st: State)
    requires AtPorts(st)
    ensures Step(st, OPEN) == st.(inList := true)
  {
    assert OPEN == "mapping " + ['='] + " [";
    MappingLine(st, " [");
    TrimPadded(" ", "[", "", IsSpace);
    assert " " + "[" + "" == " [";
    OpenBracket(st);
  }

  lemma OpenBracket(st: State)
    requires AtPorts(st)
    ensures ListStart(st, "[") == st.(inList := true)
  {
    assert TrimPrefix("[", '[') == "";
  }

  lemma EndStep(st: State)
    ensures Step(st, "]") == st.(inList := false)
  {
    BareStays("]", IsSpace);
    assert Meaning("]") == "]";
    if st.inList {
      assert TrimSuffix("]", ']') == "";
    }
  }

  // a quoted line without a comment, trimmed
  lemma ItemMeaning(item: string)
    requires '#' !in item
    ensures Meaning(ItemLine(item)) == Quoted(item) + ","
  {
    var core := Quoted(item) + ",";
    assert core[0] == '"' && core[|core| - 1] == ',';
    TrimPadded("    ", core, "", IsSpace);
    assert "    " + core + "" == ItemLine(item);
  }

  /** An item's line gives that item back exactly when the item is solid. */
  lemma ItemStep(st: State, item: string)
    requires st.inList && '\n' !in item
    ensures Solid(item, ListCut) ==>
      Step(st, ItemLine(item)) == st.(mapping := st.mapping + [item], inList := ']' !in item)
    ensures !Solid(item, ListCut) ==> Step(st, ItemLine(item)).mapping != st.mapping + [item]
    ensures |Step(st, ItemLine(item)).mapping| <= |st.mapping| + 1 && st.mapping <= Step(st, ItemLine(item)).mapping
  {
    var line := Meaning(ItemLine(item));
    MeaningIsPlain(ItemLine(item));
    var added := ListLineAdds(st, line);
    if Solid(item, ListCut) {
      SolidStep(st, item);
    } else {
      OnlyIf(st.mapping, added, item);
    }
  }

  lemma OnlyIf(base: seq<string>, added: seq<string>, item: string)
    requires forall i :: 0 <= i < |added| ==> Solid(added[i], ListCut)
    requires !Solid(item, ListCut)
    ensures base + added != base + [item]
  {
    assert (base + [item])[|base|] == item;
    if |added| > 0 {
      assert (base + added)[|base|] == added[0];
    }
  }

  lemma SolidStep(st: State, item: string)
    requires st.inList && Solid(item, ListCut)
    ensures Step(st, ItemLine(item)) == st.(mapping := st.mapping + [item], inList := ']' !in item)
  {
    var core := Quoted(item) + ",";
    ItemMeaning(item);
    assert core[|core| - 1] == ',' && core[0] == '"';
    assert TrimSuffix(core, ']') == core;
    BareStays(core, IsSpace);
    TrimPadded(['"'], item, ['"', ','], ListCut);
    assert ['"'] + item + ['"', ','] == core;
    assert ']' in core <==> ']' in item;
  }

  /** After the list was closed, a quoted line adds nothing and opens nothing. */
  lemma OutsideStep(st: State, item: string)
    requires !st.inList
    ensures var end := Step(st, ItemLine(item)); !end.inList && end.mapping == st.mapping
  {
    var core := Quoted(item) + ",";
    assert core[0] == '"' && core[|core| - 1] == ',';
    TrimPadded("    ", core, "", IsSpace);
    assert "    " + core + "" == ItemLine(item);
    var n := IndexOf(core, '#');
    if n < |core| {
      assert core[..n][0] == '"';
      QuoteFirst(core[..n]);
    }
    var line := Meaning(ItemLine(item));
    assert line != "" && line[0] == '"';
    if '=' in line {
      var (k, v) := CutAt(line, '=');
      assert k[0] == '"';
      QuoteFirst(k);
      assert TrimSpace(k)[0] == '"';
    }
  }

  lemma QuoteFirst(s: string)
    requires s != "" && s[0] == '"'
    ensures TrimSpace(s) != "" && TrimSpace(s)[0] == '"'
  {
    TrimRightKeepsFirst(s, IsSpace);
  }

  // every item solid, and a closing bracket nowhere but in the last
  predicate Fits(items: seq<string>) {
    && (forall i :: 0 <= i < |items| ==> Solid(items[i], ListCut))
    && (forall i :: 0 <= i < |items| - 1 ==> ']' !in items[i])
  }

  predicate Closes(items: seq<string>) {
    items != [] && ']' in items[|items| - 1]
  }

  lemma LoadLast(st: State, lines: seq<string>)
    ensures lines == [] ==> Load(st, lines) == st
    ensures lines != [] ==>
      Load(st, lines) == Step(Load(st, lines[..|lines| - 1]), lines[|lines| - 1])
  {
  }

  lemma NothingFits(st: State, items: seq<string>)
    ensures items == [] ==> Fits(items) && !Closes(items) && st.mapping + items == st.mapping
  {
  }

  lemma {:induction false} ItemsLoad(st: State, items: seq<string>)
    requires st.inList && OnLines(items)
    ensures var end := Load(st, ItemLines(items));
      && st.mapping <= end.mapping && |end.mapping| <= |st.mapping| + |items|
      && (end.mapping == st.mapping + items <==> Fits(items))
      && (Fits(items) ==> end == st.(mapping := st.mapping + items, inList := !Closes(items)))
  {
    LoadLast(st, ItemLines(items));
    NothingFits(st, items);
    hide Load, Step, Fits, Closes;
    if items != [] {
      var n := |items| - 1;
      var front, last := items[..n], items[n];
      ItemsLoad(st, front);
      assert items == front + [last];
      assert ItemLines(items)[..n] == ItemLines(front);
      var mid := Load(st, ItemLines(front));
      if mid.inList {
        ItemStep(mid, last);
      } else {
        OutsideStep(mid, last);
      }
      LastItem(st, mid, Step(mid, ItemLine(last)), front, last);
    }
  }

  lemma LastItem(st: State, mid: State, end: State, front: seq<string>, last: string)
    requires st.inList && st.mapping <= mid.mapping && |mid.mapping| <= |st.mapping| + |front|
    requires mid.mapping == st.mapping + front <==> Fits(front)
    requires Fits(front) ==> mid == st.(mapping := st.mapping + front, inList := !Closes(front))
    requires mid.mapping <= end.mapping && |end.mapping| <= |mid.mapping| + 1
    requires !mid.inList ==> end.mapping == mid.mapping
    requires mid.inList && Solid(last, ListCut) ==> end == mid.(mapping := mid.mapping + [last], inList := ']' !in last)
    requires mid.inList && !Solid(last, ListCut) ==> end.mapping != mid.mapping + [last]
    ensures end.mapping == st.mapping + (front + [last]) <==> Fits(front + [last])
    ensures Fits(front + [last]) ==>
      end == st.(mapping := st.mapping + (front + [last]), inList := !Closes(front + [last]))
  {
    var items := front + [last];
    assert st.mapping + items == (st.mapping + front) + [last];
    if end.mapping == st.mapping + items {
      assert mid.mapping == end.mapping[..|mid.mapping|] == (st.mapping + items)[..|mid.mapping|];
      assert mid.mapping == st.mapping + front;
    }
    FitsSnoc(front, last);
  }

  lemma FitsSnoc(front: seq<string>, last: string)
    ensures Fits(front + [last]) <==> Fits(front) && !Closes(front) && Solid(last, ListCut)
  {
    var items := front + [last];
    assert items[|front|] == last;
    assert forall i :: 0 <= i < |front| ==> items[i] == front[i];
    if Fits(items) && front != [] {
      assert items[|front| - 1] == front[|front| - 1];
    }
  }

  // the lines of a list, one after the other
  lemma ListLoads(st: State, items: seq<string>)
    requires AtPorts(st) && OnLines(items)
    ensures var end := Load(st, ListLines(items));
      && (end.mapping == st.mapping + items <==> Fits(items))
      && (Fits(items) ==> end == st.(mapping := st.mapping + items))
  {
    var ls := ListLines(items);
    var n := |items|;
    OpenStep(st);
    var begun := st.(inList := true);
    LoadOne(st, OPEN);
    LoadFrom(st, [OPEN], ItemLines(items));
    ItemsLoad(begun, items);
    assert ls[..n + 1] == [OPEN] + ItemLines(items) && ls[n + 1] == "]";
    EndStep(Load(begun, ItemLines(items)));
  }

  // short enough for the scanner with the blanks, quotes and comma around it
  predicate ItemsShort(items: seq<string>) {
    forall i :: 0 <= i < |items| ==> |Utf8.Encode(items[i])| <= 65528
  }

  lemma ItemLineLength(item: string)
    ensures Short(ItemLine(item)) <==> |Utf8.Encode(item)| <= MAX_LINE - 7
  {
    var front, back := "    " + ['"'], ['"'] + ",";
    assert ItemLine(item) == front + item + back;
    WrappedLength(front, item, back);
    hide Utf8.Encode;
  }

  lemma BracketsShort()
    ensures Short(OPEN) && Short("]")
  {
    hide Short;
    PlainShort(OPEN);
    PlainShort("]");
  }

  // what the scanner sees of a list is the lines it was printed as
  lemma ListPrinted(items: seq<string>)
    requires OnLines(items)
    ensures var ls := ListLines(items);
      && (forall i :: 0 <= i < |ls| ==> '\n' !in ls[i] && DropReturn(ls[i]) == ls[i])
      && (AllShort(ls) <==> ItemsShort(items))
  {
    hide Short, Utf8.Encode;
    var ls, n := ListLines(items), |items|;
    BracketsShort();
    assert ls[0] == OPEN && ls[n + 1] == "]";
    forall i | 0 <= i < n
      ensures ls[i + 1] == ItemLine(items[i]) && '\n' !in ls[i + 1] && DropReturn(ls[i + 1]) == ls[i + 1]
      ensures Short(ls[i + 1]) <==> |Utf8.Encode(items[i])| <= MAX_LINE - 7
    {
      ItemLineLength(items[i]);
    }
    forall i | 0 <= i < |ls|
      ensures '\n' !in ls[i] && DropReturn(ls[i]) == ls[i]
      ensures i == 0 || i == n + 1 || ls[i] == ls[(i - 1) + 1]
    {
    }
  }

  // the last line closes the list whatever the ones before it were
  lemma LastLineCloses(st: State, lines: seq<string>)
    requires LoadText(st, Unlines(lines + ["]"])).Ok?
    ensures !LoadText(st, Unlines(lines + ["]"])).value.inList
  {
    hide LoadText, Unlines, Load;
    UnlinesAppend(lines, ["]"]);
    LoadTextAppend(st, Unlines(lines), Unlines(["]"]));
    var mid := LoadText(st, Unlines(lines)).value;
    LoadPrinted(mid, ["]"]);
    LoadOne(mid, "]");
    EndStep(mid);
  }

  // an item with a newline inside is no item that a text can give
  lemma NotOnLines(st: State, text: string, items: seq<string>)
    requires !OnLines(items)
    ensures LoadText(st, text).Ok? ==> LoadText(st, text).value.mapping != st.mapping + items
  {
    hide LoadText;
    if LoadText(st, text).Ok? {
      var added := TextAdds(st, text);
      assert (st.mapping + added)[|st.mapping|..] == added && (st.mapping + items)[|st.mapping|..] == items;
    }
  }

  /** The list over several lines, as printed text, loads as exactly itself if and only if
      every item is solid and short and no item but the last holds a closing bracket.
      It fails to load only for length, and what loads leaves the loop outside the list. */
  lemma LinesRoundTrip(st: State, items: seq<string>)
    requires AtPorts(st)
    ensures var r := LoadText(st, Unlines(ListLines(items)));
      && (r.Ok? && r.value.mapping == st.mapping + items <==> Fits(items) && ItemsShort(items))
      && (Fits(items) && ItemsShort(items) ==> r == Ok(st.(mapping := st.mapping + items)))
      && (OnLines(items) ==> (r.Err? <==> !ItemsShort(items)))
      && (r.Ok? ==> !r.value.inList)
  {
    hide LoadText, Load, Unlines, ListLines, ItemsShort, AllShort, Utf8.Encode;
    var ls := ListLines(items);
    if OnLines(items) {
      ListPrinted(items);
      LoadPrinted(st, ls);
      ListLoads(st, items);
    } else {
      NotOnLines(st, Unlines(ls), items);
    }
    ListEnds(items);
    if LoadText(st, Unlines(ls)).Ok? {
      LastLineCloses(st, [OPEN] + ItemLines(items));
    }
  }

  lemma ListEnds(items: seq<string>)
    ensures ListLines(items) == [OPEN] + ItemLines(items) + ["]"]
  {
  }

  lemma {:induction false} LoadFrom(st: State, a: seq<string>, b: seq<string>)
    ensures Load(st, a + b) == Load(Load(st, a), b)
  {
    if b == [] {
      assert a + b == a;
    } else {
      var n := |b| - 1;
      assert (a + b)[..|a + b| - 1] == a + b[..n] && (a + b)[|a + b| - 1] == b[n];
      LoadFrom(st, a, b[..n]);
    }
  }

  // ---- the installer's printer -------------------------------------------------------------

  function WithoutSpaces(s: string): string {
    if s == "" then "" else (if s[0] == ' ' then "" else [s[0]]) + WithoutSpaces(s[1..])
  }

  // the ports it prints: empty ones skipped, spaces taken out
  function Printed(ports: seq<string>): seq<string> {
    if ports == [] then []
    else (if ports[0] == "" then [] else [WithoutSpaces(ports[0])]) + Printed(ports[1..])
  }

  const FORWARDER := "forwarder = "

  function ForwarderLines(forwarder: string): seq<string> {
    if forwarder == "" then [] else [FORWARDER + Quoted(forwarder)]
  }

  const PORTS := "[ports]"

  function PrintPorts(forwarder: string, ports: seq<string>): seq<string> {
    [PORTS] + (ForwarderLines(forwarder) + ListLines(Printed(ports)))
  }

  predicate Clean(item: string) {
    && item != ""
    && (forall c :: c in item ==> !ListCut(c) && c != '#' && c != '[' && c != ']')
  }

  lemma {:induction false} CleanUnchanged(s: string)
    requires ' ' !in s
    ensures WithoutSpaces(s) == s
  {
    if s != "" {
      assert s == [s[0]] + s[1..] && s[0] in s;
      CleanUnchanged(s[1..]);
    }
  }

  lemma {:induction false} PrintedClean(ports: seq<string>)
    requires forall i :: 0 <= i < |ports| ==> Clean(ports[i])
    ensures Printed(ports) == ports
  {
    if ports != [] {
      CleanUnchanged(ports[0]);
      PrintedClean(ports[1..]);
    }
  }

  lemma PortsName()
    ensures PORTS[1..|PORTS| - 1] == "ports"
  {
    var inner := PORTS[1..|PORTS| - 1];
    assert |inner| == 5;
    assert inner[0] == PORTS[1] == 'p' && inner[1] == PORTS[2] == 'o' && inner[2] == PORTS[3] == 'r';
    assert inner[3] == PORTS[4] == 't' && inner[4] == PORTS[5] == 's';
    assert inner == ['p', 'o', 'r', 't', 's'];
  }

  lemma PortsHeader(st: State)
    requires !st.inList
    ensures Step(st, PORTS) == st.(section := "ports")
  {
    BareStays(PORTS, IsSpace);
    assert Meaning(PORTS) == PORTS;
    PortsName();
    BareStays("ports", IsSpace);
  }

  // the forwarder's line without comment: the value may end early, its name and the
  // opening quote stay
  lemma ForwarderMeaning(forwarder: string) returns (rest: string)
    ensures Meaning(FORWARDER + Quoted(forwarder)) == FORWARDER + ['"'] + rest
    ensures '#' !in forwarder ==> rest == forwarder + ['"']
  {
    var head, raw := FORWARDER + ['"'], FORWARDER + Quoted(forwarder);
    assert raw == head + (forwarder + ['"']);
    assert raw[0] == 'f' && raw[|raw| - 1] == '"';
    BareStays(raw, IsSpace);
    if '#' in raw {
      var n := IndexOf(raw, '#');
      assert '#' !in head;
      assert n >= |head|;
      rest := TrimRightOf(raw[|head|..n], IsSpace);
      assert raw[..n] == head + raw[|head|..n];
      TrimRightBehind(head, raw[|head|..n], IsSpace);
    } else {
      rest := forwarder + ['"'];
      assert '#' !in forwarder by { assert forall c :: c in forwarder ==> c in raw; }
    }
  }

  lemma ForwarderSetting(st: State, rest: string)
    requires AtPorts(st)
    ensures '=' in FORWARDER + ['"'] + rest
    ensures Setting(st, FORWARDER + ['"'] + rest) ==
      st.(settings := st.settings + [("ports", "forwarder", Unquote(TrimSpace([' ', '"'] + rest)))])
  {
    var line, value := FORWARDER + ['"'] + rest, [' ', '"'] + rest;
    assert line == "forwarder " + ['='] + value;
    CutFirst("forwarder ", '=', value);
    TrimPadded("", "forwarder", " ", IsSpace);
    assert "" + "forwarder" + " " == "forwarder ";
  }

  lemma SettingStep(st: State, raw: string, line: string)
    requires !st.inList && Meaning(raw) == line && line != "" && line[0] != '[' && '=' in line
    ensures Step(st, raw) == Setting(st, line)
  {
    hide Meaning, Setting;
  }

  // what is loaded for the forwarder: itself, when it holds no comment and no quotes at its ends
  lemma ForwarderStep(st: State, forwarder: string) returns (value: string)
    requires AtPorts(st) && forwarder != ""
    ensures Step(st, FORWARDER + Quoted(forwarder)) ==
      st.(settings := st.settings + [("ports", "forwarder", value)])
    ensures '#' !in forwarder && Bare(forwarder, QuoteCut) ==> value == forwarder
  {
    hide Step, Setting, Meaning, Unquote, TrimOf;
    var rest := ForwarderMeaning(forwarder);
    ForwarderSetting(st, rest);
    assert (FORWARDER + ['"'] + rest)[0] == 'f';
    SettingStep(st, FORWARDER + Quoted(forwarder), FORWARDER + ['"'] + rest);
    value := Unquote(TrimSpace([' ', '"'] + rest));
    if '#' !in forwarder && Bare(forwarder, QuoteCut) {
      QuotedValue(forwarder);
      assert [' ', '"'] + rest == [' '] + Quoted(forwarder);
    }
  }

  lemma QuotedValue(v: string)
    requires v != "" && Bare(v, QuoteCut)
    ensures Unquote(TrimSpace([' '] + Quoted(v))) == v
  {
    QuotedBare(v);
    KeyValue(v);
  }

  // the settings that the forwarder's lines add
  lemma ForwarderLoads(st: State, forwarder: string) returns (added: seq<(string, string, string)>)
    requires AtPorts(st)
    ensures Load(st, ForwarderLines(forwarder)) == st.(settings := st.settings + added)
    ensures forwarder == "" ==> added == []
    ensures forwarder != "" && '#' !in forwarder && Bare(forwarder, QuoteCut) ==>
      added == [("ports", "forwarder", forwarder)]
  {
    if forwarder == "" {
      added := [];
      assert st.settings + added == st.settings;
    } else {
      var value := ForwarderStep(st, forwarder);
      LoadOne(st, FORWARDER + Quoted(forwarder));
      added := [("ports", "forwarder", value)];
    }
  }

  // the lines, one after the other
  lemma PrintedLoads(st: State, forwarder: string, ports: seq<string>)
      returns (added: seq<(string, string, string)>)
    requires !st.inList
    requires forall i :: 0 <= i < |ports| ==> Clean(ports[i])
    ensures Load(st, PrintPorts(forwarder, ports)) ==
      st.(section := "ports", mapping := st.mapping + ports, settings := st.settings + added)
    ensures forwarder == "" ==> added == []
    ensures forwarder != "" && '#' !in forwarder && Bare(forwarder, QuoteCut) ==>
      added == [("ports", "forwarder", forwarder)]
  {
    PortsHeader(st);
    PrintedClean(ports);
    var at := st.(section := "ports");
    added := ForwarderLoads(at, forwarder);
    hide Load, ForwarderLines, ListLines, Printed, Clean;
    var ready := at.(settings := at.settings + added);
    LoadOne(st, PORTS);
    LoadFrom(st, [PORTS], ForwarderLines(forwarder) + ListLines(ports));
    LoadFrom(at, ForwarderLines(forwarder), ListLines(ports));
    CleanFits(ports);
    ListLoads(ready, ports);
  }

  lemma ForwarderLength(forwarder: string)
    ensures Short(FORWARDER + Quoted(forwarder)) <==> |Utf8.Encode(forwarder)| <= MAX_LINE - 14
  {
    hide Utf8.Encode;
    var front := FORWARDER + ['"'];
    assert FORWARDER + Quoted(forwarder) == front + forwarder + ['"'];
    WrappedLength(front, forwarder, ['"']);
  }

  lemma HeadPrinted(forwarder: string)
    requires '\n' !in forwarder
    ensures var ls := [PORTS] + ForwarderLines(forwarder);
      && (forall i :: 0 <= i < |ls| ==> '\n' !in ls[i] && DropReturn(ls[i]) == ls[i])
      && (AllShort(ls) <==> |Utf8.Encode(forwarder)| <= MAX_LINE - 14)
  {
    hide Short, Utf8.Encode;
    var ls := [PORTS] + ForwarderLines(forwarder);
    ForwarderLength(forwarder);
    PortsShort();
    if forwarder != "" {
      assert ls[1] == FORWARDER + Quoted(forwarder) && '\n' !in ls[1];
    } else {
      Utf8.EncodeAscii("");
    }
  }

  lemma PortsShort()
    ensures Short(PORTS) && '\n' !in PORTS && DropReturn(PORTS) == PORTS
  {
    hide Short;
    PlainShort(PORTS);
  }

  // the scanner sees the lines that were printed
  lemma PortsPrinted(forwarder: string, ports: seq<string>)
    requires '\n' !in forwarder && OnLines(ports) && Printed(ports) == ports
    ensures var ls := PrintPorts(forwarder, ports);
      && (forall i :: 0 <= i < |ls| ==> '\n' !in ls[i] && DropReturn(ls[i]) == ls[i])
      && (AllShort(ls) <==> |Utf8.Encode(forwarder)| <= MAX_LINE - 14 && ItemsShort(ports))
  {
    hide AllShort, ItemsShort, DropReturn, ListLines, ForwarderLines, Utf8.Encode;
    HeadPrinted(forwarder);
    ListPrinted(ports);
    var head := [PORTS] + ForwarderLines(forwarder);
    BothShort(head, ListLines(ports));
    assert PrintPorts(forwarder, ports) == head + ListLines(ports);
  }

  /** What the installer prints for a list of clean ports, behind any text that loads and
      leaves the loop outside the list, loads as those ports, and fails only when a line
      is too long.  The forwarder, which it reads as one line, loads as itself unless it
      holds a comment or quotes at its ends. */
  lemma InstallerRoundTrip(start: State, before: string, st: State, forwarder: string, ports: seq<string>)
      returns (added: seq<(string, string, string)>)
    requires WholeLines(before) && LoadText(start, before) == Ok(st) && !st.inList
    requires '\n' !in forwarder
    requires forall i :: 0 <= i < |ports| ==> Clean(ports[i])
    ensures LoadText(start, before + Unlines(PrintPorts(forwarder, ports))) ==
      if |Utf8.Encode(forwarder)| <= 65521 && ItemsShort(ports)
      then Ok(st.(section := "ports", mapping := st.mapping + ports, settings := st.settings + added))
      else Err
    ensures forwarder == "" ==> added == []
    ensures forwarder != "" && '#' !in forwarder && Bare(forwarder, QuoteCut) ==>
      added == [("ports", "forwarder", forwarder)]
  {
    added := PrintedLoads(st, forwarder, ports);
    PrintedClean(ports);
    CleanFits(ports);
    hide LoadText, Load, Unlines, PrintPorts, Printed, Clean, ItemsShort, AllShort, Utf8.Encode;
    LoadTextAppend(start, before, Unlines(PrintPorts(forwarder, ports)));
    PortsPrinted(forwarder, ports);
    LoadPrinted(st, PrintPorts(forwarder, ports));
  }

  lemma CleanFits(items: seq<string>)
    requires forall i :: 0 <= i < |items| ==> Clean(items[i])
    ensures OnLines(items) && Fits(items) && FitsOneLine(items)
  {
  }

  /** A list that is cut short: the first of two items holds a closing bracket. */
  lemma BracketCutsList(st: State)
    requires AtPorts(st)
    ensures var r := LoadText(st, Unlines(ListLines(["1]", "2"])));
      r.Ok? && r.value.mapping == st.mapping + ["1]"]
  {
    hide LoadText, Unlines, Load, Step, ListLines;
    var items := ["1]", "2"];
    TwoShort("1]", "2");
    ListPrinted(items);
    LoadPrinted(st, ListLines(items));
    BracketLines(st);
  }

  lemma TwoShort(a: string, b: string)
    requires |a| <= 2 && |b| <= 2
    requires (forall c :: c in a + b ==> c as int < 128 && c != '\n')
    ensures OnLines([a, b]) && ItemsShort([a, b])
  {
    assert forall c :: c in a ==> c in a + b;
    assert forall c :: c in b ==> c in a + b;
    Utf8.EncodeAscii(a);
    Utf8.EncodeAscii(b);
    hide Utf8.Encode;
  }

  lemma BracketLines(st: State)
    requires AtPorts(st)
    ensures Load(st, ListLines(["1]", "2"])).mapping == st.mapping + ["1]"]
  {
    hide Step, Load, ItemLine;
    var items := ["1]", "2"];
    OpenStep(st);
    var begun := st.(inList := true);
    BracketSolid();
    ItemStep(begun, "1]");
    var mid := Step(begun, ItemLine("1]"));
    OutsideStep(mid, "2");
    var late := Step(mid, ItemLine("2"));
    EndStep(late);
    assert ListLines(items) == [OPEN, ItemLine("1]"), ItemLine("2"), "]"];
    LoadFour(st, OPEN, ItemLine("1]"), ItemLine("2"), "]");
  }

  /** A list that comes out as another: one item with a newline inside becomes two. */
  lemma NewlineSplitsItem(st: State)
    requires AtPorts(st)
    ensures var r := LoadText(st, Unlines(ListLines(["1\n2"])));
      r.Ok? && r.value.mapping == st.mapping + ["1", "2"]
  {
    hide LoadText, Unlines, Load, Step, ListLines;
    var first, second := "    \"1", "2\",";
    NewlinePrinted();
    HalvesShort();
    LoadPrinted(st, [OPEN, first, second, "]"]);
    LoadFour(st, OPEN, first, second, "]");
    OpenStep(st);
    var begun := st.(inList := true);
    FirstHalf(begun);
    SecondHalf(begun.(mapping := st.mapping + ["1"]));
    EndStep(Step(Step(begun, first), second));
    EndKeeps(Step(Step(begun, first), second));
    assert st.mapping + ["1"] + ["2"] == st.mapping + ["1", "2"];
  }

  lemma NewlinePrinted()
    ensures Unlines(ListLines(["1\n2"])) == Unlines([OPEN, "    \"1", "2\",", "]"])
  {
    hide Unlines;
    var mid := "    \"1" + ['\n'] + "2\",";
    assert ItemLine("1\n2") == mid;
    assert ListLines(["1\n2"]) == [OPEN, mid, "]"];
    UnlinesThree(OPEN, mid, "]");
    UnlinesThree("    \"1", "2\",", "]");
    UnlinesAppend([OPEN], ["    \"1", "2\",", "]"]);
    UnlinesOne(OPEN);
    assert [OPEN] + ["    \"1", "2\",", "]"] == [OPEN, "    \"1", "2\",", "]"];
  }

  lemma HalvesShort()
    ensures var ls := [OPEN, "    \"1", "2\",", "]"];
      AllShort(ls) && forall i :: 0 <= i < |ls| ==> '\n' !in ls[i] && DropReturn(ls[i]) == ls[i]
  {
    hide Short;
    BracketsShort();
    PlainShort("    \"1");
    PlainShort("2\",");
  }

  lemma FirstHalf(st: State)
    requires st.inList
    ensures Step(st, "    \"1") == st.(mapping := st.mapping + ["1"])
  {
    var l := "\"1";
    TrimPadded("    ", l, "", IsSpace);
    assert "    " + l + "" == "    \"1";
    TrimPadded(['"'], "1", "", ListCut);
    assert ['"'] + "1" + "" == l;
  }

  lemma SecondHalf(st: State)
    requires st.inList
    ensures Step(st, "2\",") == st.(mapping := st.mapping + ["2"])
  {
    var l := "2\",";
    BareStays(l, IsSpace);
    TrimPadded("", "2", ['"', ','], ListCut);
    assert "" + "2" + ['"', ','] == l;
  }

  lemma EndKeeps(st: State)
    ensures Step(st, "]").mapping == st.mapping
  {
    EndStep(st);
  }

  /** An item on the line that opens a list over several lines never loads as itself: what
      stands there is trimmed of quotes and blanks but not of the comma behind it. */
  lemma OpeningItemKeepsComma(st: State, item: string)
    requires AtPorts(st) && Solid(item, ItemCut) && ']' !in item
    ensures Step(st, "mapping = [" + Quoted(item) + ",") ==
      st.(inList := true, mapping := st.mapping + [item + ['"', ',']])
  {
    var core := Quoted(item) + ",";
    var value := " [" + core;
    assert "mapping = [" + Quoted(item) + "," == "mapping " + ['='] + value;
    assert core[0] == '"' && core[|core| - 1] == ',' && '#' !in value;
    MappingLine(st, value);
    OpeningValue(st, item);
  }

  lemma OpeningValue(st: State, item: string)
    requires AtPorts(st) && Solid(item, ItemCut) && ']' !in item
    ensures ListStart(st, TrimSpace(" [" + (Quoted(item) + ","))) ==
      st.(inList := true, mapping := st.mapping + [item + ['"', ',']])
  {
    var core, kept := Quoted(item) + ",", item + ['"', ','];
    assert core[0] == '"' && core[|core| - 1] == ',' && ']' !in core;
    TrimPadded(" ", "[" + core, "", IsSpace);
    assert " " + ("[" + core) + "" == " [" + core;
    assert TrimPrefix("[" + core, '[') == core;
    BareStays(core, IsSpace);
    TrimPadded(['"'], kept, "", ItemCut);
    assert ['"'] + kept + "" == core;
  }

  lemma BracketSolid()
    ensures Solid("1]", ListCut) && ']' in "1]"
  {
    assert "1]"[1] == ']';
  }

  lemma LoadFour(st: State, a: string, b: string, c: string, d: string)
    ensures Load(st, [a, b, c, d]) == Step(Step(Step(Step(st, a), b), c), d)
  {
    assert [a, b, c, d] == [a] + ([b] + ([c] + [d]));
    hide Step;
    LoadFrom(st, [a], [b] + ([c] + [d]));
    LoadOne(st, a);
    LoadFrom(Step(st, a), [b], [c] + [d]);
    LoadOne(Step(st, a), b);
    LoadFrom(Step(Step(st, a), b), [c], [d]);
    LoadOne(Step(Step(st, a), b), c);
    LoadOne(Step(Step(Step(st, a), b), c), d);
  }

  // ---- the list on one line ------------------------------------------------------------------

  // quoted items with commas between them, each but the first after a space
  function Row(items: seq<string>, pad: string): string {
    if items == [] then ""
    else pad + Quoted(items[0]) + (if |items| == 1 then "" else [','] + Row(items[1..], " "))
  }

  function OneLine(items: seq<string>): string {
    "mapping = [" + Row(items, "") + "]"
  }

  predicate FitsOneLine(items: seq<string>) {
    forall i :: 0 <= i < |items| ==> Solid(items[i], ItemCut) && ',' !in items[i]
  }

  lemma {:induction false} KeptPrepend(p: string, parts: seq<string>)
    ensures Kept([p] + parts) == Kept([p]) + Kept(parts)
  {
    if parts == [] {
      assert [p] + parts == [p];
    } else {
      var n := |parts| - 1;
      assert ([p] + parts)[..n + 1] == [p] + parts[..n] && ([p] + parts)[n + 1] == parts[n];
      KeptPrepend(p, parts[..n]);
    }
  }

  lemma KeptOne(pad: string, item: string)
    requires forall c :: c in pad ==> ItemCut(c)
    requires Solid(item, ItemCut)
    ensures Kept([pad + Quoted(item)]) == [item]
  {
    var p := pad + Quoted(item);
    TrimPadded(pad + ['"'], item, ['"'], ItemCut);
    assert (pad + ['"']) + item + ['"'] == p;
    assert [p][..0] == [];
    assert Kept([]) == [] && Kept([p]) == Kept([]) + [item];
  }

  lemma {:induction false} RowSplits(items: seq<string>, pad: string)
    requires items != [] && FitsOneLine(items)
    requires forall c :: c in pad ==> ItemCut(c)
    ensures Kept(SplitOn(Row(items, pad), ',')) == items
  {
    var first := pad + Quoted(items[0]);
    KeptOne(pad, items[0]);
    if |items| == 1 {
      assert Row(items, pad) == first;
      assert ',' !in first;
      assert items == [items[0]];
    } else {
      var rest := Row(items[1..], " ");
      assert Row(items, pad) == first + [','] + rest;
      CutFirst(first, ',', rest);
      RowSplits(items[1..], " ");
      KeptPrepend(first, SplitOn(rest, ','));
      assert items == [items[0]] + items[1..];
    }
  }

  lemma {:induction false} RowEnds(items: seq<string>, pad: string)
    requires items != []
    ensures var r := Row(items, pad); |r| > |pad| && r[..|pad|] == pad && r[|pad|] == '"' && r[|r| - 1] == '"'
    ensures (forall i :: 0 <= i < |items| ==> '#' !in items[i]) && '#' !in pad ==> '#' !in Row(items, pad)
    ensures OnLines(items) && '\n' !in pad ==> '\n' !in Row(items, pad)
  {
    if |items| > 1 {
      RowEnds(items[1..], " ");
    }
  }

  // a row stands between brackets as it is
  lemma RowPlain(items: seq<string>)
    requires forall i :: 0 <= i < |items| ==> '#' !in items[i]
    ensures var row := Row(items, ""); '#' !in row && Bare(row, IsSpace)
  {
    if items != [] {
      RowEnds(items, "");
    }
  }

  // without a comment sign, the loop reads the row between the brackets
  lemma OneLineReads(st: State, items: seq<string>)
    requires AtPorts(st) && forall i :: 0 <= i < |items| ==> '#' !in items[i]
    ensures Step(st, OneLine(items)) == st.(mapping := st.mapping + Kept(SplitOn(Row(items, ""), ',')))
  {
    RowPlain(items);
    RowReads(st, Row(items, ""));
  }

  lemma RowReads(st: State, row: string)
    requires AtPorts(st) && '#' !in row && Bare(row, IsSpace)
    ensures Step(st, "mapping = [" + row + "]") == st.(mapping := st.mapping + Kept(SplitOn(row, ',')))
  {
    var value := " [" + row + "]";
    assert "mapping = [" + row + "]" == "mapping " + ['='] + value;
    assert value[1] == '[' && value[|value| - 1] == ']';
    MappingLine(st, value);
    ValueReads(st, row);
  }

  lemma ValueReads(st: State, row: string)
    requires AtPorts(st) && Bare(row, IsSpace)
    ensures ListStart(st, TrimSpace(" [" + row + "]")) == st.(mapping := st.mapping + Kept(SplitOn(row, ',')))
  {
    var core := "[" + row + "]";
    TrimPadded(" ", core, "", IsSpace);
    assert " " + core + "" == " [" + row + "]";
    var val := row + "]";
    assert TrimPrefix(core, '[') == val;
    BareStays(val, IsSpace);
    assert val[|row|] == ']';
    assert TrimSuffix(val, ']') == row;
    BareStays(row, IsSpace);
  }

  lemma {:induction false} KeptFits(parts: seq<string>)
    requires forall p :: p in parts ==> Plain(p) && ',' !in p
    ensures FitsOneLine(Kept(parts))
  {
    if parts != [] {
      KeptFits(parts[..|parts| - 1]);
      TrimSolid(parts[|parts| - 1], ItemCut);
      TrimPart(parts[|parts| - 1], ItemCut);
    }
  }

  // the one line of a list
  lemma OneLineStep(st: State, items: seq<string>)
    requires AtPorts(st) && OnLines(items)
    ensures '\n' !in OneLine(items) && DropReturn(OneLine(items)) == OneLine(items)
    ensures Step(st, OneLine(items)).mapping == st.mapping + items <==> FitsOneLine(items)
    ensures FitsOneLine(items) ==> Step(st, OneLine(items)) == st.(mapping := st.mapping + items)
  {
    var end := Step(st, OneLine(items)).mapping;
    if items != [] {
      RowEnds(items, "");
    }
    OneLineEnds(items);
    if forall i :: 0 <= i < |items| ==> '#' !in items[i] {
      OneLineReads(st, items);
      if items == [] {
        assert SplitOn("", ',') == [""] && Kept([""]) == [];
      } else if FitsOneLine(items) {
        RowSplits(items, "");
      } else {
        SplitParts(Row(items, ""), ',');
        var kept := Kept(SplitOn(Row(items, ""), ','));
        KeptFits(SplitOn(Row(items, ""), ','));
        assert end[|st.mapping|..] == kept;
        assert (st.mapping + items)[|st.mapping|..] == items;
      }
    } else {
      var added := StepAdds(st, OneLine(items));
      assert end[|st.mapping|..] == added;
      assert (st.mapping + items)[|st.mapping|..] == items;
    }
  }

  lemma OneLineEnds(items: seq<string>)
    requires '\n' !in Row(items, "")
    ensures '\n' !in OneLine(items) && DropReturn(OneLine(items)) == OneLine(items)
  {
    hide Row;
    assert OneLine(items)[|OneLine(items)| - 1] == ']';
  }

  lemma OnePrinted(st: State, line: string)
    requires '\n' !in line && DropReturn(line) == line
    ensures LoadText(st, Unlines([line])) == if Short(line) then Ok(Step(st, line)) else Err
  {
    hide LoadText, Unlines, Load, Step, Short, DropReturn;
    LoadPrinted(st, [line]);
    LoadOne(st, line);
    assert [line][0] == line;
  }

  /** The list on one line, as printed text, loads as exactly itself if and only if every
      item is solid and free of commas and the whole line is short; brackets inside items
      do no harm there. */
  lemma OneLineRoundTrip(st: State, items: seq<string>)
    requires AtPorts(st)
    ensures var r := LoadText(st, Unlines([OneLine(items)]));
      && (r.Ok? && r.value.mapping == st.mapping + items <==> FitsOneLine(items) && Short(OneLine(items)))
      && (FitsOneLine(items) && Short(OneLine(items)) ==> r == Ok(st.(mapping := st.mapping + items)))
      && (OnLines(items) ==> (r.Err? <==> !Short(OneLine(items))))
  {
    hide LoadText, Unlines, Load, Step, Short, OneLine;
    if OnLines(items) {
      OneLineStep(st, items);
      OnePrinted(st, OneLine(items));
    } else {
      NotOnLines(st, Unlines([OneLine(items)]), items);
    }
  }

  lemma TwoParts(a: string, b: string)
    requires ',' !in a && ',' !in b
    ensures SplitOn(a + [','] + b, ',') == [a, b]
  {
    CutFirst(a, ',', b);
    assert SplitOn(b, ',') == [b];
    assert [a] + [b] == [a, b];
  }

  lemma KeptTwo(a: string, b: string)
    ensures TrimOf(a, ItemCut) != "" && TrimOf(b, ItemCut) != "" ==>
      Kept([a, b]) == [TrimOf(a, ItemCut), TrimOf(b, ItemCut)]
  {
    hide TrimOf;
    assert [a, b][..1] == [a] && [a][..0] == [];
    assert Kept([]) == [];
  }

  lemma QuotedEnds()
    ensures TrimOf(['"', '1'], ItemCut) == "1" && TrimOf(['2', '"'], ItemCut) == "2"
  {
    TrimPadded(['"'], "1", [], ItemCut);
    assert ['"'] + "1" + [] == ['"', '1'];
    TrimPadded([], "2", ['"'], ItemCut);
    assert [] + "2" + ['"'] == ['2', '"'];
  }

  /** A list on one line that comes out as another: one item with a comma becomes two. */
  lemma CommaSplitsItem(st: State)
    requires AtPorts(st)
    ensures var r := LoadText(st, Unlines([OneLine(["1,2"])]));
      r.Ok? && r.value.mapping == st.mapping + ["1", "2"]
  {
    hide LoadText, Unlines, Load, Step, Short, Row, OneLine, SplitOn, Kept, TrimOf;
    CommaRow();
    assert '#' !in "1,2" && '\n' !in "1,2";
    OneLineReads(st, ["1,2"]);
    TwoParts(['"', '1'], ['2', '"']);
    KeptTwo(['"', '1'], ['2', '"']);
    QuotedEnds();
    OneLineStep(st, ["1,2"]);
    CommaShort();
    OnePrinted(st, OneLine(["1,2"]));
  }

  lemma CommaShort()
    ensures Short(OneLine(["1,2"]))
  {
    CommaRow();
    hide Row;
    PlainShort("mapping = [" + (['"', '1'] + [','] + ['2', '"']) + "]");
  }

  lemma CommaRow()
    ensures Row(["1,2"], "") == ['"', '1'] + [','] + ['2', '"']
  {
    assert Row(["1,2"], "") == "" + Quoted("1,2") + "";
  }

  lemma {:induction false} RowLength(items: seq<string>, pad: string, i: nat)
    requires i < |items|
    ensures |Utf8.Encode(Row(items, pad))| >= |Utf8.Encode(items[i])| + 2
  {
    hide Utf8.Encode;
    var first := pad + Quoted(items[0]);
    Utf8.EncodeAppend(pad, Quoted(items[0]));
    QuotedLength(items[0]);
    if |items| > 1 {
      var rest := Row(items[1..], " ");
      assert Row(items, pad) == first + ([','] + rest);
      Utf8.EncodeAppend(first, [','] + rest);
      Utf8.EncodeAppend([','], rest);
      if i > 0 {
        RowLength(items[1..], " ", i - 1);
      }
    } else {
      assert Row(items, pad) == first;
    }
  }

  lemma QuotedLength(item: string)
    ensures |Utf8.Encode(Quoted(item))| == |Utf8.Encode(item)| + 2
  {
    hide Utf8.Encode;
    WrappedLength(['"'], item, ['"']);
  }

  // items that fit on one line together fit on a line each
  lemma OneLineIsLonger(items: seq<string>)
    requires Short(OneLine(items))
    ensures ItemsShort(items)
  {
    hide Utf8.Encode, Row;
    WrappedLength("mapping = [", Row(items, ""), "]");
    forall i | 0 <= i < |items|
      ensures |Utf8.Encode(items[i])| <= MAX_LINE - 7
    {
      RowLength(items, "", i);
    }
  }

  /** Both ways of writing a list of clean items load as that list, as long as it is short
      enough for one line; longer ones load only from several lines. */
  lemma BothWaysAgree(st: State, items: seq<string>)
    requires AtPorts(st) && forall i :: 0 <= i < |items| ==> Clean(items[i])
    ensures var lines, one := LoadText(st, Unlines(ListLines(items))), LoadText(st, Unlines([OneLine(items)]));
      && (Short(OneLine(items)) ==> lines == one == Ok(st.(mapping := st.mapping + items)))
      && (!Short(OneLine(items)) ==> one == Err)
      && (ItemsShort(items) ==> lines == Ok(st.(mapping := st.mapping + items)))
  {
    CleanFits(items);
    hide Clean, Fits, FitsOneLine, LoadText, Unlines, Short, ItemsShort, ListLines, OneLine;
    LinesRoundTrip(st, items);
    OneLineRoundTrip(st, items);
    if Short(OneLine(items)) {
      OneLineIsLonger(items);
    }
  }
}
