/** The lines of a text as bufio.Scanner finds them, the text that lines are printed as,
    and the longest line the scanner takes. */
module Scanner {
  import opened Text
  import Utf8

  // what bufio.Scanner's buffer of 64 KiB can hold besides the newline, or the room to
  // see that the file ends
  const MAX_LINE := 65535

  predicate Short(line: string) {
    |Utf8.Encode(line)| <= MAX_LINE
  }

  // the lines of a text, each without its newline; behind the last newline there is one
  // more only if there is anything
  function RawLines(text: string): seq<string> {
    var parts := SplitOn(text, '\n');
    var n := |parts| - 1;
    if n >= 0 && parts[n] == "" then parts[..n] else parts
  }

  // the carriage return that ScanLines drops
  function DropReturn(line: string): string {
    TrimSuffix(line, '\r')
  }

  function Scanned(lines: seq<string>): (ls: seq<string>)
    ensures |ls| == |lines| && forall i :: 0 <= i < |lines| ==> ls[i] == DropReturn(lines[i])
  {
    seq(|lines|, i requires 0 <= i < |lines| => DropReturn(lines[i]))
  }

  predicate AllShort(lines: seq<string>) {
    forall i :: 0 <= i < |lines| ==> Short(lines[i])
  }

  lemma RawLinesFront(text: string)
    requires text != ""
    ensures var n := IndexOf(text, '\n');
      RawLines(text) == [text[..n]] + RawLines(if n < |text| then text[n + 1..] else "")
  {
    var n := IndexOf(text, '\n');
    if n < |text| {
      var parts := SplitOn(text[n + 1..], '\n');
      assert SplitOn(text, '\n') == [text[..n]] + parts;
    } else {
      assert text[..n] == text && SplitOn("", '\n') == [""];
    }
  }

  // printed lines, each ended by a newline
  function Unlines(lines: seq<string>): string {
    if lines == [] then "" else lines[0] + ['\n'] + Unlines(lines[1..])
  }

  lemma LineInFront(line: string, rest: string)
    requires '\n' !in line
    ensures RawLines(line + ['\n'] + rest) == [line] + RawLines(rest)
  {
    var text := line + ['\n'] + rest;
    IndexOfFirst(line, '\n', rest);
    RawLinesFront(text);
    assert text[..|line|] == line && text[|line| + 1..] == rest;
  }

  lemma NoLines()
    ensures RawLines("") == []
  {
    assert SplitOn("", '\n') == [""];
  }

  /** Lines without newlines inside are the lines of the text that they are printed as,
      and what is printed behind them does not touch them. */
  lemma {:induction false} RawLinesOfPrinted(lines: seq<string>, rest: string)
    requires forall i :: 0 <= i < |lines| ==> '\n' !in lines[i]
    ensures RawLines(Unlines(lines) + rest) == lines + RawLines(rest)
    decreases |lines|
  {
    hide RawLines;
    if lines == [] {
      assert Unlines(lines) + rest == rest;
    } else {
      var more := Unlines(lines[1..]) + rest;
      assert Unlines(lines) + rest == lines[0] + ['\n'] + more;
      LineInFront(lines[0], more);
      RawLinesOfPrinted(lines[1..], rest);
      assert lines == [lines[0]] + lines[1..];
    }
  }

  lemma RawLinesPlain(text: string)
    ensures forall i :: 0 <= i < |RawLines(text)| ==> '\n' !in RawLines(text)[i]
  {
    SplitParts(text, '\n');
    var parts := SplitOn(text, '\n');
    forall i | 0 <= i < |RawLines(text)|
      ensures '\n' !in RawLines(text)[i]
    {
      assert parts[i] in parts;
    }
  }

  /** A last line without its newline is a line all the same, unless it is empty. */
  lemma LastLine(line: string)
    requires '\n' !in line
    ensures RawLines(line) == if line == "" then [] else [line]
  {
  }

  predicate WholeLines(text: string) {
    text == "" || text[|text| - 1] == '\n'
  }

  lemma FirstOfWhole(text: string) returns (line: string, rest: string)
    requires WholeLines(text) && text != ""
    ensures text == line + ['\n'] + rest && '\n' !in line && WholeLines(rest)
  {
    assert '\n' in text;
    var n := IndexOf(text, '\n');
    line, rest := text[..n], text[n + 1..];
  }

  lemma {:induction false} RawLinesAppend(a: string, b: string)
    requires WholeLines(a)
    ensures RawLines(a + b) == RawLines(a) + RawLines(b)
    decreases |a|
  {
    hide RawLines;
    if a == "" {
      NoLines();
      assert a + b == b;
    } else {
      hide WholeLines;
      var line, rest := FirstOfWhole(a);
      LineInFront(line, rest);
      assert a + b == line + ['\n'] + (rest + b);
      LineInFront(line, rest + b);
      RawLinesAppend(rest, b);
    }
  }

  lemma {:induction false} UnlinesAppend(a: seq<string>, b: seq<string>)
    ensures Unlines(a + b) == Unlines(a) + Unlines(b) && WholeLines(Unlines(a))
  {
    if a == [] {
      assert a + b == b;
    } else {
      assert (a + b)[1..] == a[1..] + b;
      UnlinesAppend(a[1..], b);
    }
  }

  lemma UnlinesOne(a: string)
    ensures Unlines([a]) == a + ['\n']
  {
    assert [a][1..] == [];
  }

  lemma UnlinesThree(a: string, b: string, c: string)
    ensures Unlines([a, b, c]) == a + ['\n'] + b + ['\n'] + c + ['\n']
  {
    hide Unlines;
    assert [a, b, c] == [a] + ([b] + [c]);
    UnlinesAppend([a], [b] + [c]);
    UnlinesAppend([b], [c]);
    UnlinesOne(a);
    UnlinesOne(b);
    UnlinesOne(c);
  }

  // ---- lengths in bytes ------------------------------------------------------------

  lemma BothShort(la: seq<string>, lb: seq<string>)
    ensures AllShort(la + lb) <==> AllShort(la) && AllShort(lb)
  {
    hide Short;
    assert forall i :: 0 <= i < |la| ==> (la + lb)[i] == la[i];
    assert forall i :: 0 <= i < |lb| ==> (la + lb)[|la| + i] == lb[i];
  }

  lemma OneShort(line: string)
    ensures AllShort([line]) <==> Short(line)
  {
    hide Short;
    assert [line][0] == line;
  }

  lemma WrappedLength(front: string, s: string, back: string)
    requires forall c :: c in front || c in back ==> c as int < 128
    ensures |Utf8.Encode(front + s + back)| == |front| + |Utf8.Encode(s)| + |back|
  {
    hide Utf8.Encode;
    Utf8.EncodeAppend(front + s, back);
    Utf8.EncodeAppend(front, s);
    Utf8.EncodeAscii(front);
    Utf8.EncodeAscii(back);
  }

  lemma PlainShort(s: string)
    requires |s| <= MAX_LINE && forall c :: c in s ==> c as int < 128
    ensures Short(s)
  {
    Utf8.EncodeAscii(s);
    hide Utf8.Encode;
  }
}
