/** Targets on the original protocol's wire: a loopback address is shortened to its
    port, and the other end puts 127.0.0.1 back. */
module Targets {
  import opened Wrappers
  import opened Bytes
  import opened Text
  import opened TypedFrames
  import Utf8

  const LOCALHOST := "127.0.0.1"
  const LOCAL := "127.0.0.1:"

  // net.SplitHostPort
  function SplitHostPort(s: string): Option<(string, string)> {
    var i := AfterLast(s, ':');
    if i == 0 then None
    else if s[0] == '[' then
      var end := IndexOf(s, ']');
      if end == |s| || end + 1 != i - 1 then None
      else if '[' in s[1..] || ']' in s[end + 1..] then None
      else Some((s[1..end], s[i..]))
    else
      var host := s[..i - 1];
      if ':' in host || '[' in s || ']' in s then None else Some((host, s[i..]))
  }

  // net.JoinHostPort
  function JoinHostPort(host: string, port: string): string {
    if ':' in host then "[" + host + "]:" + port else host + ":" + port
  }

  predicate ValidPort(port: string) {
    ParseUint(port, 65535).Some? && ParseUint(port, 65535).value != 0
  }

  function NormalizeTarget(target: string): Option<string> {
    var t := TrimSpace(target);
    if t == "" then None
    else if t[0] == ':' then
      if ValidPort(t[1..]) then Some(JoinHostPort(LOCALHOST, t[1..])) else None
    else if ':' !in t then
      if ValidPort(t) then Some(JoinHostPort(LOCALHOST, t)) else None
    else if SplitHostPort(t).None? then None
    else Some(t)
  }

  predicate IsLoopback(host: string) {
    host == "" || host == LOCALHOST || host == "localhost" || host == "::1"
  }

  function WireTarget(target: string): string {
    match SplitHostPort(TrimSpace(target))
    case Some((host, port)) => if IsLoopback(host) then port else target
    case None => target
  }

  lemma JoinLocal(port: string)
    ensures JoinHostPort(LOCALHOST, port) == LOCAL + port
  {
    assert ':' !in LOCALHOST;
    assert LOCALHOST + ":" == LOCAL;
  }

  lemma SplitFacts(s: string)
    requires SplitHostPort(s).Some?
    ensures var (host, port) := SplitHostPort(s).value;
      && ':' !in port && ':' in s && (s[0] == ':' ==> host == "")
      && port == s[AfterLast(s, ':')..]
  {
  }

  lemma PortIsBare(port: string)
    requires ValidPort(port)
    ensures TrimSpace(port) == port && port != "" && ':' !in port
  {
    assert AllDigits(port);
    assert IsDigit(port[0]) && IsDigit(port[|port| - 1]);
    BareStays(port, IsSpace);
  }

  // what the far end makes of a shortened target
  lemma NormalizePort(port: string)
    requires ':' !in port
    ensures NormalizeTarget(port) ==
      if ValidPort(TrimSpace(port)) then Some(LOCAL + TrimSpace(port)) else None
  {
    var t := TrimSpace(port);
    TrimPart(port, IsSpace);
    JoinLocal(t);
  }

  /** The targets that survive the wire as they are: those that split, and whose host
      is either not one of the four loopback spellings or is 127.0.0.1 itself with a
      plain decimal port. */
  predicate SurvivesWire(t: string) {
    match SplitHostPort(t)
    case None => false
    case Some((host, port)) => IsLoopback(host) ==> ValidPort(port) && t == LOCAL + port
  }

  /** Wire round trip, for every target: shortening and normalising give the target
      back, stripped of surrounding space, exactly when it survives the wire. */
  lemma WireRoundTrip(target: string)
    ensures NormalizeTarget(WireTarget(target)) == Some(TrimSpace(target)) <==> SurvivesWire(TrimSpace(target))
  {
    var t := TrimSpace(target);
    TrimIsBare(target, IsSpace);
    match SplitHostPort(t)
    case None => UnsplitNeverReturns(target);
    case Some((host, port)) =>
      SplitFacts(t);
      if IsLoopback(host) {
        LoopbackReturns(t, port);
      }
  }

  // what the far end dials for a target sent as a typed string, if it is sent at all
  function Dialled(target: string, signal: Byte): Option<string> {
    var f := Typed(Utf8.Encode(WireTarget(target)), signal);
    if !FitsTyped(f) then None
    else
      match DecodeTyped(EncodeTyped(f))
      case None => None
      case Some((g, _)) =>
        match Utf8.Decode(g.value)
        case None => None
        case Some(wire) => NormalizeTarget(wire)
  }

  /** The same over the typed frame that carries the target: it is dialled as it was given,
      stripped of surrounding space, exactly when it survives the wire and what goes on
      the wire is no longer than the frame's length field can say. */
  lemma TargetArrives(target: string, signal: Byte)
    ensures Dialled(target, signal) == Some(TrimSpace(target)) <==>
      SurvivesWire(TrimSpace(target)) && |Utf8.Encode(WireTarget(target))| <= 65535
  {
    hide NormalizeTarget, WireTarget, SurvivesWire, TrimSpace, Utf8.Encode, Utf8.Decode, DecodeTyped, EncodeTyped;
    var f := Typed(Utf8.Encode(WireTarget(target)), signal);
    if FitsTyped(f) {
      TypedWhole(f, []);
      assert EncodeTyped(f) + [] == EncodeTyped(f);
      Utf8.DecodeEncode(WireTarget(target));
      WireRoundTrip(target);
    }
  }

  lemma LoopbackReturns(t: string, port: string)
    requires ':' !in port && port == t[AfterLast(t, ':')..]
    ensures NormalizeTarget(port) == Some(t) <==> ValidPort(port) && t == LOCAL + port
  {
    NormalizePort(port);
    TrimPart(port, IsSpace);
    var u := TrimSpace(port);
    if t == LOCAL + u {
      assert t == LOCALHOST + [':'] + u;
      AfterLastOne(LOCALHOST, ':', u);
      assert port == u;
    }
    if ValidPort(port) {
      PortIsBare(port);
    }
  }

  lemma UnsplitNeverReturns(target: string)
    requires SplitHostPort(TrimSpace(target)).None?
    ensures NormalizeTarget(target) != Some(TrimSpace(target))
  {
    var t := TrimSpace(target);
    if t != "" && t[0] == ':' {
      JoinLocal(t[1..]);
    } else if ':' !in t {
      JoinLocal(t);
    }
  }

  /** Shortening is undone at the other end: every loopback spelling with a plain port
      is dialled as 127.0.0.1 with that port. */
  lemma LoopbackUndone(target: string)
    requires SplitHostPort(TrimSpace(target)).Some?
    requires var (host, port) := SplitHostPort(TrimSpace(target)).value; IsLoopback(host) && ValidPort(port)
    ensures NormalizeTarget(WireTarget(target)) == Some(LOCAL + SplitHostPort(TrimSpace(target)).value.1)
  {
    var (host, port) := SplitHostPort(TrimSpace(target)).value;
    PortIsBare(port);
    NormalizePort(port);
  }

  /** A target goes over the wire as its port exactly when its host is one of four
      spellings; any other goes as it stands and comes back as it is. */
  lemma FourHostsShorten(target: string)
    requires SplitHostPort(TrimSpace(target)).Some?
    ensures var (host, port) := SplitHostPort(TrimSpace(target)).value;
      if host == "" || host == "127.0.0.1" || host == "localhost" || host == "::1" then WireTarget(target) == port
      else WireTarget(target) == target && NormalizeTarget(target) == Some(TrimSpace(target))
  {
    WireRoundTrip(target);
    SplitFacts(TrimSpace(target));
    TrimIsBare(target, IsSpace);
  }

  /** Splitting undoes joining, with and without the brackets of an IPv6 address. */
  lemma SplitUndoesJoin(host: string, port: string)
    requires '[' !in host && ']' !in host && NoPunctuation(port)
    ensures SplitHostPort(JoinHostPort(host, port)) == Some((host, port))
  {
    if ':' in host {
      BracketsSplit(host, port);
      assert JoinHostPort(host, port) == ['['] + host + [']', ':'] + port;
    } else if host != "" {
      HostSplits(host, port);
      assert JoinHostPort(host, port) == host + [':'] + port;
    } else {
      NoHostSplits(port);
      assert JoinHostPort(host, port) == [':'] + port;
    }
  }

  lemma NoHostSplits(port: string)
    requires NoPunctuation(port)
    ensures SplitHostPort([':'] + port) == Some(("", port))
  {
    var s := [':'] + port;
    AfterLastOne("", ':', port);
    assert "" + [':'] + port == s;
    assert s[..0] == "" && s[1..] == port;
    assert '[' !in s && ']' !in s;
    hide AfterLast, IndexOf;
  }

  lemma BracketsSplit(host: string, port: string)
    requires '[' !in host && ']' !in host && NoPunctuation(port)
    ensures SplitHostPort(['['] + host + [']', ':'] + port) == Some((host, port))
  {
    hide AfterLast, IndexOf;
    var s := ['['] + host + [']', ':'] + port;
    var end := |host| + 1;
    ColonBehind(host, port);
    BracketBehind(host, port);
    assert s[0] == '[' && s[1..end] == host && s[end + 2..] == port && s[end + 1..] == [':'] + port;
    assert s[1..] == host + [']', ':'] + port;
  }

  lemma ColonBehind(host: string, port: string)
    requires ':' !in port
    ensures AfterLast(['['] + host + [']', ':'] + port, ':') == |host| + 3
  {
    hide AfterLast;
    var bracketed := ['['] + host + [']'];
    assert ['['] + host + [']', ':'] == bracketed + [':'];
    AfterLastOne(bracketed, ':', port);
  }

  lemma BracketBehind(host: string, port: string)
    requires ']' !in host
    ensures IndexOf(['['] + host + [']', ':'] + port, ']') == |host| + 1
  {
    hide IndexOf;
    assert ['['] + host + [']', ':'] + port == (['['] + host) + [']'] + ([':'] + port);
    IndexOfFirst(['['] + host, ']', [':'] + port);
  }

  /** A printed number is a port exactly from 1 to 65535. */
  lemma PortBounds(p: nat)
    ensures ValidPort(Itoa(p)) <==> 1 <= p <= 65535
  {
    DecimalRoundTrip(p);
  }

  /** Such a target: localhost:80 arrives as 127.0.0.1:80. */
  lemma LocalhostChanged()
    ensures NormalizeTarget(WireTarget("localhost:80")) == Some("127.0.0.1:" + "80")
  {
    EightyIsPort();
    LocalhostSplits();
    hide NormalizeTarget, WireTarget, ValidPort, TrimSpace, SplitHostPort;
    LoopbackUndone("localhost:80");
  }

  lemma EightyIsPort()
    ensures ValidPort("80")
  {
    assert ValueOf("80") == 80 by { assert ValueOf("8") == 8 by { assert ValueOf("") == 0; } }
  }

  predicate NoPunctuation(s: string) {
    ':' !in s && '[' !in s && ']' !in s
  }

  lemma HostSplits(host: string, port: string)
    requires host != "" && NoPunctuation(host) && NoPunctuation(port)
    ensures SplitHostPort(host + [':'] + port) == Some((host, port))
  {
    var s := host + [':'] + port;
    AfterLastOne(host, ':', port);
    assert s[..|host|] == host && s[|host| + 1..] == port;
    assert s[0] == host[0] && host[0] in host;
    assert '[' !in s && ']' !in s;
    hide AfterLast, IndexOf;
  }

  lemma LocalhostSplits()
    ensures var t := "localhost:80"; TrimSpace(t) == t && SplitHostPort(t) == Some(("localhost", "80"))
  {
    hide SplitHostPort;
    var t := "localhost:80";
    assert t == "localhost" + [':'] + "80";
    BareStays(t, IsSpace);
    HostSplits("localhost", "80");
  }

  lemma LocalSplits(port: string)
    requires ':' !in port && '[' !in port && ']' !in port
    ensures SplitHostPort(LOCAL + port) == Some((LOCALHOST, port))
  {
    hide SplitHostPort;
    assert LOCAL + port == LOCALHOST + [':'] + port;
    HostSplits(LOCALHOST, port);
  }

  /** A bare-port target survives the wire. */
  lemma BarePortRoundTrip(p: nat)
    requires 1 <= p <= 65535
    ensures WireTarget(LOCAL + Itoa(p)) == Itoa(p)
    ensures NormalizeTarget(WireTarget(LOCAL + Itoa(p))) == Some(LOCAL + Itoa(p))
  {
    var port := Itoa(p);
    DecimalRoundTrip(p);
    ItoaPlain(p);
    LocalSplits(port);
    var t := LOCAL + port;
    assert t[0] == '1' && t[|t| - 1] == port[|port| - 1];
    BareStays(t, IsSpace);
    PortIsBare(port);
    NormalizePort(port);
  }
}
