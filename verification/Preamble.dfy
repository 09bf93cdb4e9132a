/** Lines at the head of a stream, read through a buffer that reads ahead: the token
    and role of a control connection, and the target of a stream. */
module Preamble {
  import opened Wrappers
  import opened Bytes
  import opened Conn
  import Text
  import Utf8

  const NEWLINE: Byte := 10

  // ---- strings.TrimSpace on bytes --------------------------------------------------

  // how many bytes the white space character in front takes, 0 when there is none
  function SpaceInFront(s: seq<Byte>): (n: nat)
    ensures n <= |s|
  {
    match Utf8.FirstChar(s)
    case Some(c) => Utf8.FirstCharExact(s, c); if Text.IsSpace(c) then |Utf8.OfChar(c)| else 0
    case None => 0
  }

  function SpaceAtEnd(s: seq<Byte>): (n: nat)
    ensures n <= |s|
  {
    match Utf8.LastChar(s)
    case Some(c) => Utf8.LastCharExact(s, c); if Text.IsSpace(c) then |Utf8.OfChar(c)| else 0
    case None => 0
  }

  function TrimLeft(s: seq<Byte>): seq<Byte>
    decreases |s|
  {
    var n := SpaceInFront(s);
    if n > 0 then TrimLeft(s[n..]) else s
  }

  function TrimRight(s: seq<Byte>): seq<Byte>
    decreases |s|
  {
    var n := SpaceAtEnd(s);
    if n > 0 then TrimRight(s[..|s| - n]) else s
  }

  function Trim(s: seq<Byte>): seq<Byte> {
    TrimRight(TrimLeft(s))
  }

  // neither begins nor ends with the bytes of a white space character, ASCII or not
  ghost predicate Bare(s: seq<Byte>) {
    forall c: char :: Text.IsSpace(c) ==> !(Utf8.OfChar(c) <= s) && !Utf8.Ends(s, Utf8.OfChar(c))
  }

  lemma NoSpaceInFront(s: seq<Byte>)
    ensures SpaceInFront(s) == 0 <==> forall c: char :: Text.IsSpace(c) ==> !(Utf8.OfChar(c) <= s)
  {
    hide Utf8.OfChar, Utf8.FirstChar, Text.IsSpace;
    forall c | Text.IsSpace(c) && Utf8.OfChar(c) <= s
      ensures SpaceInFront(s) > 0
    {
      Utf8.FirstCharExact(s, c);
    }
    if SpaceInFront(s) > 0 {
      Utf8.FirstCharExact(s, Utf8.FirstChar(s).value);
    }
  }

  lemma NoSpaceAtEnd(s: seq<Byte>)
    ensures SpaceAtEnd(s) == 0 <==> forall c: char :: Text.IsSpace(c) ==> !Utf8.Ends(s, Utf8.OfChar(c))
  {
    hide Utf8.OfChar, Utf8.LastChar, Utf8.Ends, Text.IsSpace;
    forall c | Text.IsSpace(c) && Utf8.Ends(s, Utf8.OfChar(c))
      ensures SpaceAtEnd(s) > 0
    {
      Utf8.LastCharExact(s, c);
    }
    if SpaceAtEnd(s) > 0 {
      Utf8.LastCharExact(s, Utf8.LastChar(s).value);
    }
  }

  lemma {:induction false} TrimLengths(s: seq<Byte>)
    ensures |TrimRight(s)| <= |s| && |TrimLeft(s)| <= |s|
    ensures SpaceInFront(s) > 0 ==> |TrimLeft(s)| < |s|
    ensures SpaceAtEnd(s) > 0 ==> |TrimRight(s)| < |s|
    decreases |s|
  {
    hide SpaceInFront, SpaceAtEnd;
    if SpaceInFront(s) > 0 {
      TrimLengths(s[SpaceInFront(s)..]);
    }
    if SpaceAtEnd(s) > 0 {
      TrimLengths(s[..|s| - SpaceAtEnd(s)]);
    }
  }

  /** Trimming changes exactly what has white space at an end. */
  lemma TrimIsSelf(s: seq<Byte>)
    ensures Trim(s) == s <==> Bare(s)
  {
    TrimLengths(s);
    TrimLengths(TrimLeft(s));
    NoSpaceInFront(s);
    NoSpaceAtEnd(s);
    hide SpaceInFront, SpaceAtEnd, Utf8.OfChar, Utf8.Ends, Text.IsSpace;
  }

  // the bytes of a character other than one ASCII byte are all above ASCII
  lemma OneOrHigh(c: char)
    ensures |Utf8.OfChar(c)| > 1 ==> forall i :: 0 <= i < |Utf8.OfChar(c)| ==> Utf8.OfChar(c)[i] >= 0x80
  {
  }

  lemma FrontBeforeAscii(s: seq<Byte>, b: Byte)
    requires s != [] && b < 0x80
    ensures SpaceInFront(s + [b]) == SpaceInFront(s)
  {
    hide Utf8.OfChar, Utf8.FirstChar, Text.IsSpace;
    forall c: char
      ensures Utf8.FirstChar(s + [b]) == Some(c) <==> Utf8.FirstChar(s) == Some(c)
    {
      Utf8.FirstCharExact(s, c);
      Utf8.FirstCharExact(s + [b], c);
      OneOrHigh(c);
      BeginsBefore(s, b, Utf8.OfChar(c));
    }
  }

  lemma BeginsBefore(s: seq<Byte>, b: Byte, t: seq<Byte>)
    requires s != [] && b < 0x80
    requires |t| > 1 ==> forall i :: 0 <= i < |t| ==> t[i] >= 0x80
    ensures t <= s + [b] <==> t <= s
  {
    if |t| == |s| + 1 {
      assert t[|s|] != (s + [b])[|s|];
    }
  }

  lemma EndBehindAscii(a: seq<Byte>, s: seq<Byte>)
    requires a != [] && a[|a| - 1] < 0x80 && s != []
    ensures SpaceAtEnd(a + s) == SpaceAtEnd(s)
  {
    hide Utf8.OfChar, Utf8.LastChar, Text.IsSpace;
    forall c: char
      ensures Utf8.LastChar(a + s) == Some(c) <==> Utf8.LastChar(s) == Some(c)
    {
      Utf8.LastCharExact(s, c);
      Utf8.LastCharExact(a + s, c);
      OneOrHigh(c);
      EndsBehind(a, s, Utf8.OfChar(c));
    }
  }

  lemma EndsBehind(a: seq<Byte>, s: seq<Byte>, t: seq<Byte>)
    requires a != [] && a[|a| - 1] < 0x80 && s != []
    requires |t| > 1 ==> forall i :: 0 <= i < |t| ==> t[i] >= 0x80
    ensures Utf8.Ends(a + s, t) <==> Utf8.Ends(s, t)
  {
    var all := a + s;
    if |t| <= |s| {
      assert all[|all| - |t|..] == s[|s| - |t|..];
    } else if |t| <= |all| {
      assert t[|t| - |s| - 1] != all[|all| - |t|..][|t| - |s| - 1];
    }
  }

  lemma {:induction false} LeftBeforeAscii(s: seq<Byte>, b: Byte)
    requires b < 0x80
    ensures TrimLeft(s) != [] ==> TrimLeft(s + [b]) == TrimLeft(s) + [b]
    ensures TrimLeft(s) == [] ==> TrimLeft(s + [b]) == TrimLeft([b])
    decreases |s|
  {
    hide SpaceInFront;
    if s == [] {
      assert s + [b] == [b];
    } else {
      FrontBeforeAscii(s, b);
      var n := SpaceInFront(s);
      if n > 0 {
        assert (s + [b])[n..] == s[n..] + [b];
        LeftBeforeAscii(s[n..], b);
      }
    }
  }

  lemma TrimNewline(s: seq<Byte>)
    ensures TrimRight(s + [NEWLINE]) == TrimRight(s) && TrimLeft([NEWLINE]) == []
  {
    var c := '\n';
    assert Utf8.OfChar(c) == [NEWLINE] && Text.IsSpace(c);
    hide Utf8.OfChar, Utf8.LastChar, Utf8.FirstChar, Text.IsSpace;
    Utf8.LastCharExact(s + [NEWLINE], c);
    Utf8.FirstCharExact([NEWLINE], c);
    assert (s + [NEWLINE])[..|s|] == s;
  }

  lemma TrimDropsNewline(s: seq<Byte>)
    ensures Trim(s + [NEWLINE]) == Trim(s)
  {
    LeftBeforeAscii(s, NEWLINE);
    TrimNewline(TrimLeft(s));
    hide TrimRight, TrimLeft;
  }

  // ---- the same on text ------------------------------------------------------------

  lemma {:induction false} TrimLeftText(t: string)
    ensures TrimLeft(Utf8.Encode(t)) == Utf8.Encode(Text.TrimLeftOf(t, Text.IsSpace))
  {
    hide Utf8.OfChar, Utf8.FirstChar, Text.IsSpace;
    var s := Utf8.Encode(t);
    if t == "" {
      if Utf8.FirstChar([]).Some? {
        Utf8.FirstCharExact([], Utf8.FirstChar([]).value);
      }
    } else {
      Utf8.FirstCharExact(s, t[0]);
      assert s[|Utf8.OfChar(t[0])|..] == Utf8.Encode(t[1..]);
      TrimLeftText(t[1..]);
    }
  }

  lemma {:induction false} TrimRightText(t: string)
    ensures TrimRight(Utf8.Encode(t)) == Utf8.Encode(Text.TrimRightOf(t, Text.IsSpace))
  {
    hide Utf8.OfChar, Utf8.LastChar, Text.IsSpace;
    var s := Utf8.Encode(t);
    if t == "" {
      if Utf8.LastChar([]).Some? {
        Utf8.LastCharExact([], Utf8.LastChar([]).value);
      }
    } else {
      var n := |t| - 1;
      Utf8.EncodeLast(t);
      Utf8.LastCharExact(s, t[n]);
      assert s[..|s| - |Utf8.OfChar(t[n])|] == Utf8.Encode(t[..n]);
      TrimRightText(t[..n]);
    }
  }

  /** On the bytes of a string, trimming is trimming the string. */
  lemma TrimOfText(t: string)
    ensures Trim(Utf8.Encode(t)) == Utf8.Encode(Text.TrimSpace(t))
  {
    TrimLeftText(t);
    TrimRightText(Text.TrimLeftOf(t, Text.IsSpace));
  }

  // ---- lines ---------------------------------------------------------------------

  function LineLength(s: seq<Byte>): (n: nat)
    ensures NEWLINE in s ==> 0 < n <= |s| && s[n - 1] == NEWLINE && NEWLINE !in s[..n - 1]
    ensures NEWLINE !in s ==> n == 0
  {
    if s == [] then 0
    else if s[0] == NEWLINE then 1
    else
      var n := LineLength(s[1..]);
      assert s == [s[0]] + s[1..];
      if n == 0 then 0 else assert s[..n] == [s[0]] + s[1..][..n - 1]; n + 1
  }

  lemma LineOf(line: seq<Byte>, rest: seq<Byte>)
    requires NEWLINE !in line
    ensures LineLength(line + [NEWLINE] + rest) == |line| + 1
  {
    var s := line + [NEWLINE] + rest;
    assert s[|line|] == NEWLINE;
    assert s[..|line|] == line;
    var n := LineLength(s);
    forall k | 0 <= k < n - 1
      ensures s[k] != NEWLINE
    {
      assert s[k] == s[..n - 1][k];
    }
  }

  lemma LineStable(s: seq<Byte>, t: seq<Byte>)
    requires s <= t && NEWLINE in s
    ensures LineLength(t) == LineLength(s)
  {
    var n := LineLength(s);
    assert t == s[..n - 1] + [NEWLINE] + t[n..];
    LineOf(s[..n - 1], t[n..]);
  }

  function AfterLine(s: seq<Byte>): seq<Byte> {
    s[LineLength(s)..]
  }

  /** What is left of a stream after its first n lines; nothing while they are not complete. */
  function AfterLines(s: seq<Byte>, n: nat): seq<Byte> {
    if n == 0 then s
    else if NEWLINE in s then AfterLines(AfterLine(s), n - 1)
    else []
  }

  lemma AfterTwoLines(s: seq<Byte>)
    requires NEWLINE in s && NEWLINE in AfterLine(s)
    ensures AfterLines(s, 2) == AfterLine(AfterLine(s))
  {
    assert AfterLines(AfterLine(s), 1) == AfterLines(AfterLine(AfterLine(s)), 0);
  }

  lemma AfterLinePrefix(s: seq<Byte>, t: seq<Byte>)
    requires s <= t && NEWLINE in s
    ensures NEWLINE in t && AfterLine(s) <= AfterLine(t)
  {
    LineStable(s, t);
  }

  lemma {:induction false} AfterLinesPrefix(s: seq<Byte>, t: seq<Byte>, n: nat)
    requires s <= t
    ensures AfterLines(s, n) <= AfterLines(t, n)
    decreases n
  {
    hide AfterLine, LineLength;
    if n > 0 && NEWLINE in s {
      AfterLinePrefix(s, t);
      AfterLinesPrefix(AfterLine(s), AfterLine(t), n - 1);
    }
  }

  function Lines(ls: seq<seq<Byte>>): seq<Byte> {
    if ls == [] then [] else ls[0] + [NEWLINE] + Lines(ls[1..])
  }

  lemma AfterThisLine(line: seq<Byte>, rest: seq<Byte>)
    requires NEWLINE !in line
    ensures NEWLINE in line + [NEWLINE] + rest
    ensures AfterLine(line + [NEWLINE] + rest) == rest
    ensures FirstLine(line + [NEWLINE] + rest) == line + [NEWLINE]
  {
    var s := line + [NEWLINE] + rest;
    assert s[|line|] == NEWLINE;
    LineOf(line, rest);
  }

  lemma LinesFront(ls: seq<seq<Byte>>, rest: seq<Byte>)
    requires ls != []
    ensures Lines(ls) + rest == ls[0] + [NEWLINE] + (Lines(ls[1..]) + rest)
  {
  }

  lemma {:induction false} AfterTheseLines(ls: seq<seq<Byte>>, rest: seq<Byte>)
    requires forall i :: 0 <= i < |ls| ==> NEWLINE !in ls[i]
    ensures AfterLines(Lines(ls) + rest, |ls|) == rest
    decreases |ls|
  {
    if ls == [] {
      assert Lines(ls) + rest == rest;
    } else {
      LinesFront(ls, rest);
      AfterThisLine(ls[0], Lines(ls[1..]) + rest);
      AfterTheseLines(ls[1..], rest);
    }
  }

  function FirstLine(s: seq<Byte>): seq<Byte> {
    s[..LineLength(s)]
  }

  // ---- bufio.Reader and prefixedConn ------------------------------------------------

  class BufReader {
    const conn: ByteConn
    var buf: seq<Byte>     // read ahead of what was asked for

    constructor (conn: ByteConn)
      ensures this.conn == conn && buf == []
    {
      this.conn := conn;
      buf := [];
    }

    /** Every byte still to come, read ahead or not. */
    ghost function Ahead(): seq<Byte>
      reads this, conn
    {
      buf + conn.input
    }

    // one read of the connection, of any size, into the buffer
    method Fill() returns (ok: bool)
      modifies this`buf, conn`input
      ensures Ahead() == old(Ahead()) && old(buf) <= buf
      ensures ok ==> |conn.input| < |old(conn.input)|
      ensures !ok ==> conn.input == []
    {
      var room: nat :| room > 0;
      var chunk := conn.Read(room);
      assert old(buf) + (chunk + conn.input) == (old(buf) + chunk) + conn.input;
      buf := buf + chunk;
      ok := chunk != [];
    }

    /** ReadString('\n'): exactly the first line, however much was read to find it. */
    method ReadLine() returns (ok: bool, line: seq<Byte>)
      modifies this`buf, conn`input
      ensures ok <==> NEWLINE in old(Ahead())
      ensures ok ==> line == old(Ahead())[..LineLength(old(Ahead()))] && line + Ahead() == old(Ahead())
    {
      while NEWLINE !in buf
        invariant Ahead() == old(Ahead())
        decreases |conn.input|
      {
        ok := Fill();
        if !ok && NEWLINE !in buf {
          return false, [];
        }
      }
      LineStable(buf, Ahead());
      var n := LineLength(buf);
      assert buf + conn.input == buf[..n] + (buf[n..] + conn.input);
      ok, line := true, buf[..n];
      buf := buf[n..];
    }

    /** Read, as prefixedConn passes it on: what was read ahead first, then the connection. */
    method Read(room: nat) returns (chunk: seq<Byte>)
      modifies this`buf, conn`input
      ensures chunk + Ahead() == old(Ahead())
      ensures |chunk| <= room
      ensures room > 0 && chunk == [] ==> old(Ahead()) == []
    {
      if buf == [] {
        var ok := Fill();
      }
      var n := if room <= |buf| then room else |buf|;
      chunk := buf[..n];
      assert buf + conn.input == chunk + (buf[n..] + conn.input);
      buf := buf[n..];
    }
  }

  // ---- authenticateControlConn ---------------------------------------------------------

  // the first two lines and what the check makes of them
  predicate TokenAccepted(expected: seq<Byte>, line: seq<Byte>) {
    expected == [] || Trim(line) == expected
  }

  /** The connection is handed on exactly when both lines arrive and the token fits;
      then the reader stands right behind the second line. */
  method Authenticate(br: BufReader, token: seq<Byte>) returns (role: Option<seq<Byte>>)
    modifies br`buf, br.conn`input
    ensures var s := old(br.Ahead());
      && (role.Some? <==> NEWLINE in s && NEWLINE in AfterLine(s) && TokenAccepted(token, FirstLine(s)))
      && (role.Some? ==>
            && role.value == Trim(FirstLine(AfterLine(s)))
            && br.Ahead() == AfterLines(s, 2))
  {
    ghost var s := br.Ahead();
    var ok, tok := br.ReadLine();
    if !ok {
      return None;
    }
    assert br.Ahead() == AfterLine(s);
    var r;
    ok, r := br.ReadLine();
    if !ok {
      return None;
    }
    if token != [] && Trim(tok) != token {
      return None;
    }
    AfterTwoLines(s);
    role := Some(Trim(r));
  }

  lemma LinesThenRest(token: seq<Byte>, role: seq<Byte>, rest: seq<Byte>)
    ensures Lines([token, role]) + rest == token + [NEWLINE] + (role + [NEWLINE] + rest)
  {
    assert [token, role][1..] == [role] && [role][1..] == [];
    LinesFront([token, role], rest);
    LinesFront([role], rest);
    assert Lines([]) + rest == rest;
  }

  /** Handoff.  A client's preamble is accepted exactly when the server expects no
      token or the client's token, stripped of surrounding space, is the one it
      expects; then the role is the client's, and the bytes behind the preamble come
      out exactly once and in order.  With one token on both ends it is accepted if and
      only if it is one line and neither begins nor ends with the bytes of a white space
      character. */
  lemma PreambleHandoff(expected: seq<Byte>, token: seq<Byte>, role: seq<Byte>, rest: seq<Byte>)
    ensures var s := Lines([token, role]) + rest;
      && NEWLINE in s && NEWLINE in AfterLine(s)
      && (NEWLINE !in token ==>
            (TokenAccepted(expected, FirstLine(s)) <==> expected == [] || Trim(token) == expected))
      && (expected == token ==> (TokenAccepted(expected, FirstLine(s)) <==> NEWLINE !in token && Bare(token)))
      && (NEWLINE !in token && NEWLINE !in role ==>
            Trim(FirstLine(AfterLine(s))) == Trim(role) && AfterLines(s, 2) == rest)
  {
    hide Trim, Bare;
    var s := Lines([token, role]) + rest;
    var more := role + [NEWLINE] + rest;
    LinesThenRest(token, role, rest);
    StillALine(token, role, rest);
    TrimIsSelf(token);
    EmptyIsBare();
    if NEWLINE in token {
      FirstLineHasNone(token, more);
    } else {
      AfterThisLine(token, more);
      TrimDropsNewline(token);
      if NEWLINE !in role {
        AfterThisLine(role, rest);
        TrimDropsNewline(role);
        AfterTwoLines(s);
      }
    }
  }

  // two newlines are two lines, whatever stands between them
  lemma StillALine(token: seq<Byte>, role: seq<Byte>, rest: seq<Byte>)
    ensures var s := token + [NEWLINE] + (role + [NEWLINE] + rest);
      NEWLINE in s && NEWLINE in AfterLine(s)
  {
    var s := token + [NEWLINE] + (role + [NEWLINE] + rest);
    var at := |token| + 1 + |role|;
    assert s[|token|] == NEWLINE && s[at] == NEWLINE;
    LineIsShort(token, role + [NEWLINE] + rest);
    assert AfterLine(s)[at - LineLength(s)] == NEWLINE;
  }

  lemma LineIsShort(a: seq<Byte>, rest: seq<Byte>)
    ensures 0 < LineLength(a + [NEWLINE] + rest) <= |a| + 1
  {
    var s := a + [NEWLINE] + rest;
    assert s[|a|] == NEWLINE;
    var n := LineLength(s);
    assert n > 0 && NEWLINE !in s[..n - 1];
  }

  lemma {:induction false} TrimLeftPart(s: seq<Byte>)
    ensures forall b :: b in TrimLeft(s) ==> b in s
    decreases |s|
  {
    hide SpaceInFront;
    if SpaceInFront(s) > 0 {
      TrimLeftPart(s[SpaceInFront(s)..]);
    }
  }

  lemma {:induction false} TrimRightPart(s: seq<Byte>)
    ensures forall b :: b in TrimRight(s) ==> b in s
    decreases |s|
  {
    hide SpaceAtEnd;
    if SpaceAtEnd(s) > 0 {
      TrimRightPart(s[..|s| - SpaceAtEnd(s)]);
    }
  }

  // trimming adds no byte
  lemma TrimPart(s: seq<Byte>)
    ensures forall b :: b in Trim(s) ==> b in s
  {
    TrimLeftPart(s);
    TrimRightPart(TrimLeft(s));
  }

  // a line, trimmed, holds no newline, so it is nothing that does
  lemma FirstLineHasNone(a: seq<Byte>, rest: seq<Byte>)
    ensures var s := a + [NEWLINE] + rest;
      NEWLINE in s && NEWLINE !in Trim(FirstLine(s))
  {
    hide Trim;
    var s := a + [NEWLINE] + rest;
    assert s[|a|] == NEWLINE;
    var line := s[..LineLength(s) - 1];
    assert FirstLine(s) == line + [NEWLINE];
    TrimDropsNewline(line);
    TrimPart(line);
  }

  lemma EmptyIsBare()
    ensures Bare([])
  {
  }

  /** Such tokens: a blank and an x, and a no-break space (U+00A0) and an x, the same on
      both ends. */
  lemma SpacedTokenRefused(role: seq<Byte>, rest: seq<Byte>)
    ensures !TokenAccepted([32, 120], FirstLine(Lines([[32, 120], role]) + rest))
    ensures !TokenAccepted([0xC2, 0xA0, 120], FirstLine(Lines([[0xC2, 0xA0, 120], role]) + rest))
  {
    BlankToken();
    hide TokenAccepted, Bare, Lines, FirstLine, Trim;
    PreambleHandoff([32, 120], [32, 120], role, rest);
    PreambleHandoff([0xC2, 0xA0, 120], [0xC2, 0xA0, 120], role, rest);
  }

  lemma BlankToken()
    ensures !Bare([32, 120]) && !Bare([0xC2, 0xA0, 120])
  {
    assert Utf8.OfChar(' ') <= [32, 120] && Text.IsSpace(' ');
    var nbsp := 0xA0 as char;
    assert Utf8.OfChar(nbsp) == [0xC2, 0xA0] <= [0xC2, 0xA0, 120] && Text.IsSpace(nbsp);
  }

  // ---- the target line ------------------------------------------------------------------

  const UDP_TAG: seq<Byte> := [85, 68, 80, 32]   // "UDP "

  datatype Target = Tcp(address: seq<Byte>) | Udp(address: seq<Byte>)

  function ParseTarget(line: seq<Byte>): Target {
    var t := Trim(line);
    if UDP_TAG <= t then Udp(Trim(t[|UDP_TAG|..])) else Tcp(t)
  }

  /** A target comes back from the line it is sent as, with its kind, if and only if it is
      one line, has no white space at its ends and, without the tag, does not begin with
      the tag; an empty UDP target does not.  The bytes behind the line stay as they are. */
  lemma TargetLineRoundTrip(target: seq<Byte>, rest: seq<Byte>)
    ensures var tcp, udp := target + [NEWLINE] + rest, UDP_TAG + target + [NEWLINE] + rest;
      && (ParseTarget(FirstLine(tcp)) == Tcp(target) <==>
            NEWLINE !in target && Bare(target) && !(UDP_TAG <= target))
      && (ParseTarget(FirstLine(udp)) == Udp(target) <==> NEWLINE !in target && Bare(target) && target != [])
      && (NEWLINE !in target ==> AfterLine(tcp) == rest && AfterLine(udp) == rest)
  {
    hide Trim, TrimRight, Bare, ParseTarget;
    if NEWLINE in target {
      TargetHasNone(target, rest);
      TargetHasNone(UDP_TAG + target, rest);
    } else {
      AfterThisLine(target, rest);
      AfterThisLine(UDP_TAG + target, rest);
      OneLineTarget(target);
    }
  }

  lemma TargetHasNone(a: seq<Byte>, rest: seq<Byte>)
    ensures NEWLINE !in ParseTarget(FirstLine(a + [NEWLINE] + rest)).address
  {
    hide Trim;
    FirstLineHasNone(a, rest);
    var t := Trim(FirstLine(a + [NEWLINE] + rest));
    if UDP_TAG <= t {
      TrimPart(t[|UDP_TAG|..]);
    }
  }

  lemma OneLineTarget(target: seq<Byte>)
    ensures ParseTarget(target + [NEWLINE]) == Tcp(target) <==> Bare(target) && !(UDP_TAG <= target)
    ensures ParseTarget(UDP_TAG + target + [NEWLINE]) == Udp(target) <==> Bare(target) && target != []
  {
    hide Trim, TrimRight, Bare;
    TrimDropsNewline(target);
    TrimDropsNewline(UDP_TAG + target);
    TrimIsSelf(target);
    TaggedTrim(target);
    TrimAgainIsSelf(target);
  }

  lemma TrimAgainIsSelf(s: seq<Byte>)
    ensures Trim(TrimRight(s)) == s <==> Bare(s)
    ensures Bare(s) || s == [] ==> TrimRight(s) == s
  {
    hide TrimLeft, SpaceAtEnd, Utf8.OfChar, Utf8.Ends, Text.IsSpace;
    TrimLengths(s);
    TrimLengths(TrimRight(s));
    TrimLengths(TrimLeft(TrimRight(s)));
    TrimIsSelf(s);
    NoSpaceAtEnd(s);
  }

  // behind the tag, trimming stops at the tag's letters
  lemma TaggedTrim(target: seq<Byte>)
    ensures ParseTarget(UDP_TAG + target) ==
      if TrimRight(target) == [] then Tcp(UDP_TAG[..3]) else Udp(Trim(TrimRight(target)))
  {
    var u := TrimRight(target);
    hide TrimRight, TrimLeft;
    TagStays(target);
    TrimRightBehind(UDP_TAG, target);
    if u == [] {
      TagAlone();
    } else {
      assert (UDP_TAG + u)[|UDP_TAG|..] == u;
    }
  }

  // an ASCII character that is no white space stays where it is
  lemma PlainStays(s: seq<Byte>)
    requires s != []
    ensures 33 <= s[0] < 127 ==> SpaceInFront(s) == 0
    ensures 33 <= s[|s| - 1] < 127 ==> SpaceAtEnd(s) == 0
  {
    hide Utf8.FirstChar, Utf8.LastChar;
    if 33 <= s[0] < 127 {
      assert Utf8.OfChar(s[0] as char) == [s[0]];
      Utf8.FirstCharExact(s, s[0] as char);
    }
    var n := |s| - 1;
    if 33 <= s[n] < 127 {
      assert Utf8.OfChar(s[n] as char) == [s[n]];
      Utf8.LastCharExact(s, s[n] as char);
    }
  }

  lemma TagStays(target: seq<Byte>)
    ensures TrimLeft(UDP_TAG + target) == UDP_TAG + target
  {
    hide SpaceInFront;
    PlainStays(UDP_TAG + target);
  }

  lemma TagAlone()
    ensures TrimRight(UDP_TAG) == UDP_TAG[..3]
  {
    hide SpaceAtEnd;
    assert UDP_TAG[..3][2] == 80;
    PlainStays(UDP_TAG[..3]);
    BlankAtEnd(UDP_TAG);
  }

  lemma BlankAtEnd(s: seq<Byte>)
    requires s != [] && s[|s| - 1] == 32
    ensures SpaceAtEnd(s) == 1
  {
    hide Utf8.LastChar;
    assert Utf8.OfChar(' ') == [32] && Text.IsSpace(' ');
    Utf8.LastCharExact(s, ' ');
  }

  lemma {:induction false} TrimRightBehind(a: seq<Byte>, s: seq<Byte>)
    requires a != [] && a[|a| - 1] < 0x80
    ensures TrimRight(a + s) == if TrimRight(s) == [] then TrimRight(a) else a + TrimRight(s)
    decreases |s|
  {
    hide SpaceAtEnd;
    if s == [] {
      assert a + s == a;
    } else {
      EndBehindAscii(a, s);
      var n := SpaceAtEnd(s);
      if n > 0 {
        assert (a + s)[..|a + s| - n] == a + s[..|s| - n];
        TrimRightBehind(a, s[..|s| - n]);
      }
    }
  }
}
