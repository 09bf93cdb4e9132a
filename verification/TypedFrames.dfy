/** The original protocol's frames: a two-byte length, one signal byte, the string;
    and bare one-byte signals.  Frames go out through a writer that may take only part
    of its argument. */
module TypedFrames {
  import opened Wrappers
  import opened Bytes
  import opened Framing
  import opened Conn

  datatype Typed = Typed(value: seq<Byte>, signal: Byte)

  function EncodeTyped(f: Typed): seq<Byte> {
    BigEndian(|f.value|, 2) + [f.signal] + f.value
  }

  function DecodeTyped(b: seq<Byte>): Option<(Typed, nat)> {
    if |b| < 3 then None
    else
      var n := FromBigEndian(b[..2]);
      if |b| < 3 + n then None else Some((Typed(b[3..3 + n], b[2]), 3 + n))
  }

  predicate FitsTyped(f: Typed) {
    |f.value| <= MAX_16
  }

  const TYPED: Codec<Typed> := Codec(EncodeTyped, DecodeTyped)

  /** Two bytes of length, the one that counts most first, one signal byte, the value. */
  lemma TypedLayout(f: Typed)
    requires |f.value| <= 65535
    ensures EncodeTyped(f) == [|f.value| / 256, |f.value| % 256, f.signal] + f.value
  {
    BigEndianTwo(|f.value|);
    hide BigEndian;
  }

  lemma TypedHeader(f: Typed, b: seq<Byte>)
    requires FitsTyped(f) && BigEndian(|f.value|, 2) + [f.signal] <= b
    ensures |b| >= 3 && FromBigEndian(b[..2]) == |f.value| && b[2] == f.signal
  {
    Pow256Values();
    BigEndianRoundTrip(|f.value|, 2);
    assert b[..2] == BigEndian(|f.value|, 2);
  }

  lemma TypedWhole(f: Typed, rest: seq<Byte>)
    requires FitsTyped(f)
    ensures DecodeTyped(EncodeTyped(f) + rest) == Some((f, |EncodeTyped(f)|))
  {
    var b := EncodeTyped(f) + rest;
    assert b == BigEndian(|f.value|, 2) + [f.signal] + (f.value + rest);
    TypedHeader(f, b);
    assert b[3..3 + |f.value|] == f.value;
  }

  lemma TypedPart(f: Typed, p: seq<Byte>)
    requires FitsTyped(f) && p <= EncodeTyped(f) && p != EncodeTyped(f)
    ensures DecodeTyped(p).None?
  {
    if |p| >= 3 {
      TypedHeader(f, p);
    }
  }

  /** Typed frames reassemble from any split. */
  lemma TypedLawful()
    ensures Lawful(TYPED, FitsTyped)
  {
    forall f, rest | FitsTyped(f)
      ensures TYPED.decode(TYPED.encode(f) + rest) == Some((f, |TYPED.encode(f)|))
    {
      TypedWhole(f, rest);
    }
    forall f, p | FitsTyped(f) && p <= TYPED.encode(f) && p != TYPED.encode(f)
      ensures TYPED.decode(p).None?
    {
      TypedPart(f, p);
    }
  }

  /** A typed frame followed by signals is read back as that frame, and the read takes
      no byte of the signals. */
  lemma SignalsUntouched(f: Typed, signals: seq<Byte>)
    requires FitsTyped(f)
    ensures var b := EncodeTyped(f) + signals;
      DecodeTyped(b).Some? && DecodeTyped(b).value.0 == f && b[DecodeTyped(b).value.1..] == signals
  {
    TypedWhole(f, signals);
  }

  // ---- short writes -------------------------------------------------------------------

  // io.Writer at its loosest: any part of the argument may be taken, none at all, or the
  // call may fail after taking a part
  class ShortWriter {
    var output: seq<Byte>
    ghost var trouble: bool   // a call has failed, or has taken nothing of something

    method Write(p: seq<Byte>) returns (n: nat, ok: bool)
      modifies this
      ensures n <= |p| && output == old(output) + p[..n]
      ensures trouble == (old(trouble) || !ok || (n == 0 && p != []))
    {
      n :| n <= |p|;
      ok := *;
      output := output + p[..n];
      trouble := trouble || !ok || (n == 0 && p != []);
    }
  }

  // what ended a full write: a failed call, or a call that took nothing
  datatype FullResult = Complete | WriterFailed | TookNothing

  /** writeOriginalFull terminates for every writer.  It reports success exactly when no
      call fails and every call takes something, and then exactly the frame has been
      sent; otherwise a part of it. */
  method WriteFull(w: ShortWriter, frame: seq<Byte>) returns (r: FullResult)
    requires !w.trouble
    modifies w
    ensures r == Complete <==> !w.trouble
    ensures r == Complete ==> w.output == old(w.output) + frame
    ensures old(w.output) <= w.output <= old(w.output) + frame
    ensures r == TookNothing ==> w.output != old(w.output) + frame
    ensures frame == [] ==> r == Complete
  {
    var rest := frame;
    ghost var done := 0;
    while rest != []
      invariant done <= |frame| && rest == frame[done..] && !w.trouble
      invariant w.output == old(w.output) + frame[..done]
      decreases |rest|
    {
      var n, ok := w.Write(rest);
      assert frame[..done] + rest[..n] == frame[..done + n];
      if !ok {
        return WriterFailed;
      }
      if n == 0 {
        return TookNothing;
      }
      rest, done := rest[n..], done + n;
    }
    assert frame[..done] == frame;
    r := Complete;
  }

  /** A value too long for its length field is refused before anything is written. */
  method WriteTyped(w: ShortWriter, f: Typed) returns (r: Option<FullResult>)
    requires !w.trouble
    modifies w
    ensures r.Some? ==> (r.value == Complete <==> !w.trouble)
    ensures r.None? <==> |f.value| > 65535
    ensures r.None? ==> w.output == old(w.output)
    ensures r == Some(Complete) ==> w.output == old(w.output) + EncodeTyped(f)
    ensures r.Some? ==> old(w.output) <= w.output <= old(w.output) + EncodeTyped(f)
  {
    if |f.value| > MAX_16 {
      return None;
    }
    var full := WriteFull(w, EncodeTyped(f));
    r := Some(full);
  }

  method WriteSignal(w: ShortWriter, signal: Byte) returns (r: FullResult)
    requires !w.trouble
    modifies w
    ensures r == Complete <==> !w.trouble
    ensures r == Complete ==> w.output == old(w.output) + [signal]
    ensures r != Complete ==> old(w.output) <= w.output <= old(w.output) + [signal]
  {
    r := WriteFull(w, [signal]);
  }

  method ReadTyped(conn: ByteConn) returns (f: Option<Typed>)
    modifies conn`input
    ensures f.None? <==> DecodeTyped(old(conn.input)).None?
    ensures f.Some? ==> var (g, n) := DecodeTyped(old(conn.input)).value;
      f.value == g && n <= |old(conn.input)| && conn.input == old(conn.input)[n..]
  {
    ghost var b := conn.input;
    var ok, h := conn.ReadFull(3);
    if !ok {
      return None;
    }
    assert b == h + conn.input && b[..2] == h[..2] && b[2] == h[2];
    var n := FromBigEndian(h[..2]);
    var value;
    ok, value := conn.ReadFull(n);
    if !ok {
      return None;
    }
    assert b[3..3 + n] == value && b[3 + n..] == conn.input;
    f := Some(Typed(value, h[2]));
  }

  method ReadSignal(conn: ByteConn) returns (signal: Option<Byte>)
    modifies conn`input
    ensures signal.None? <==> old(conn.input) == []
    ensures signal.Some? ==> [signal.value] + conn.input == old(conn.input)
  {
    var ok, b := conn.ReadFull(1);
    signal := if ok then Some(b[0]) else None;
  }

  /** A client that reads the reply and then signals gets exactly the reply and exactly
      the signals, one byte each, in order. */
  method ReadReplyThenSignals(conn: ByteConn, ghost f: Typed, ghost signals: seq<Byte>)
      returns (g: Option<Typed>, read: seq<Byte>)
    requires FitsTyped(f) && conn.input == EncodeTyped(f) + signals
    modifies conn`input
    ensures g == Some(f) && read == signals
  {
    SignalsUntouched(f, signals);
    g := ReadTyped(conn);
    read := [];
    while true
      invariant read + conn.input == signals
      decreases |conn.input|
    {
      var s := ReadSignal(conn);
      if s.None? {
        return;
      }
      read := read + [s.value];
    }
  }
}
