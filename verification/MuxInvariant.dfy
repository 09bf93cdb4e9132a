/** What every step of the multiplexer keeps. */
module MuxInvariant {
  import opened Bytes
  import opened Framing
  import opened MuxWire
  import opened MuxModel

  // ---- ids ------------------------------------------------------------------

  /** The wrapping counter repeats an id exactly when 2^32 opens lie between. */
  lemma IdsDistinct(g: Name, h: Name)
    ensures IdOf(g) == IdOf(h) <==> (g - h) % TWO_32 == 0
    ensures IdOf(h + TWO_32) == IdOf(h)
    ensures g < TWO_32 && h < TWO_32 && IdOf(g) == IdOf(h) ==> g == h
  {
  }

  // ---- the bytes a stream has put among some frames ------------------------------

  function Piece(f: Tagged, h: Name): seq<Byte> {
    if f.stream == h && f.kind == FRAME_DATA then f.payload else []
  }

  function Payload(ts: seq<Tagged>, h: Name): seq<Byte> {
    if ts == [] then [] else Payload(ts[..|ts| - 1], h) + Piece(ts[|ts| - 1], h)
  }

  lemma PayloadAppend(ts: seq<Tagged>, f: Tagged, h: Name)
    ensures Payload(ts + [f], h) == Payload(ts, h) + Piece(f, h)
  {
    assert (ts + [f])[..|ts|] == ts;
  }

  lemma PayloadTake(ts: seq<Tagged>, k: nat, h: Name)
    requires k < |ts|
    ensures Payload(ts[..k + 1], h) == Payload(ts[..k], h) + Piece(ts[k], h)
  {
    assert ts[..k + 1][..k] == ts[..k];
  }

  lemma PayloadLast(ts: seq<Tagged>, h: Name)
    ensures ts == [] ==> Payload(ts, h) == []
    ensures ts != [] ==> Payload(ts, h) == Payload(ts[..|ts| - 1], h) + Piece(ts[|ts| - 1], h)
  {
  }

  lemma {:induction false} PayloadSplit(a: seq<Tagged>, b: seq<Tagged>, h: Name)
    ensures Payload(a + b, h) == Payload(a, h) + Payload(b, h)
  {
    PayloadLast(b, h);
    PayloadLast(a + b, h);
    hide Payload, Piece;
    if b == [] {
      assert a + b == a;
    } else {
      var n := |b| - 1;
      PayloadSplit(a, b[..n], h);
      assert (a + b)[..|a + b| - 1] == a + b[..n] && (a + b)[|a + b| - 1] == b[n];
      Assoc(Payload(a, h), Payload(b[..n], h), Piece(b[n], h));
    }
  }

  lemma {:induction false} PayloadNone(ts: seq<Tagged>, h: Name)
    requires forall i :: 0 <= i < |ts| ==> ts[i].stream != h
    ensures Payload(ts, h) == []
  {
    if ts != [] {
      PayloadNone(ts[..|ts| - 1], h);
    }
  }

  // ---- one stream, one end ------------------------------------------------------

  ghost predicate StreamOk(s: Stream) {
    && |s.queue| <= QUEUE_LIMIT
    && (forall i :: 0 <= i < |s.queue| ==> s.queue[i] != [])
    && (s.readClosed ==> !s.queueOpen && s.queue == [] && s.held == [])
    && (s.eof ==> s.readClosed && s.buf == [])
    && !s.misused
    && (s.closeOnce <==> !s.queueOpen)
    && s.closes <= 1 && (s.closes == 1 <==> !s.queueOpen)
    && (s.closing != Working ==> s.opening == Live)
    && (s.localClosed <==> s.closing != Working)
    && (s.closing == Finished ==> !s.queueOpen)
    && (s.opening == Allocated ==> s.queueOpen && !s.localClosed)
  }

  predicate Known(s: Stream) {
    s.opening == Registered || s.opening == Live
  }

  // a listed stream has an open queue; a stream leaves the table only by being closed
  predicate PlaceOk(s: Stream, listed: bool) {
    && (listed ==> s.queueOpen && !s.localClosed && Known(s))
    && (!listed && Known(s) ==> s.localClosed || !s.queueOpen)
  }

  ghost predicate OneOk(e: End, h: Name)
    requires h in e.objs
  {
    && h < TWO_32 && e.objs[h].id == IdOf(h)
    && StreamOk(e.objs[h]) && PlaceOk(e.objs[h], Listed(e, h))
  }

  ghost predicate EndOk(e: End) {
    && (forall h :: h in e.objs ==> OneOk(e, h))
    && (forall i :: i in e.table ==> e.table[i] in e.objs && IdOf(e.table[i]) == i)
  }

  ghost predicate FramesOk(e: End) {
    forall i :: 0 <= i < |e.out| ==>
      && e.out[i].stream in e.objs && e.objs[e.out[i].stream].opening == Live
      && FRAME_OPEN <= e.out[i].kind <= FRAME_CLOSE
      && |e.out[i].payload| <= CHUNK_LIMIT
      && (e.out[i].kind != FRAME_DATA ==> e.out[i].payload == [])
  }

  ghost predicate WrittenOk(e: End) {
    forall h :: h in e.objs ==> e.objs[h].written == Payload(e.out, h)
  }

  ghost predicate OutOk(e: End) {
    FramesOk(e) && WrittenOk(e) && NeverComplete(CODEC, e.tail) && (!e.dead ==> e.tail == [])
  }

  // ---- what one end has of the other's frames --------------------------------------

  ghost predicate HeardStream(y: End, x: End, h: Name)
    requires h in y.objs && y.handled <= |x.out|
  {
    && Received(y.objs[h]) <= Payload(x.out[..y.handled], h)
    && (Listed(y, h) ==> Received(y.objs[h]) == Payload(x.out[..y.handled], h))
  }

  ghost predicate Heard(y: End, x: End, rx: seq<Byte>) {
    && rx <= Wire(x)
    && y.handled <= |DecodeAll(CODEC, rx)|
    && y.handled <= |x.out|
    && (forall h :: h in y.objs ==> HeardStream(y, x, h))
  }

  // ---- how streams come to exist on both sides --------------------------------------

  ghost predicate OpenerCounts(o: End) {
    && o.opens <= TWO_32
    && o.nextID == (o.opens + 1) % TWO_32
    && (forall h: Name :: h in o.objs <==> h < o.opens)
    && o.backlog == []
  }

  // OPEN goes out once per stream, before every other frame of that stream
  ghost predicate OpenFirst(o: End) {
    && (forall h :: h in o.objs && o.objs[h].opening == Live ==>
          var at := o.objs[h].openedAt; at < |o.out| && o.out[at].stream == h && o.out[at].kind == FRAME_OPEN)
    && (forall i :: 0 <= i < |o.out| ==>
          && o.out[i].stream in o.objs
          && o.objs[o.out[i].stream].openedAt <= i
          && (o.out[i].kind == FRAME_OPEN ==> o.objs[o.out[i].stream].openedAt == i))
  }

  predicate Arrived(o: End, a: End, h: Name) {
    h in o.objs && o.objs[h].opening == Live && o.objs[h].openedAt < a.handled
  }

  ghost predicate AcceptorHas(o: End, a: End) {
    && (forall h: Name :: h in a.objs <==> Arrived(o, a, h))
    && (forall h :: h in a.objs ==> a.objs[h].opening == Live && a.objs[h].openedAt == 0)
    && (forall i :: 0 <= i < |a.out| ==> a.out[i].kind != FRAME_OPEN)
  }

  ghost predicate Distinct(s: seq<Name>) {
    forall i, j :: 0 <= i < j < |s| ==> s[i] != s[j]
  }

  // a stream in the table waits for Accept exactly once, or has been accepted
  ghost predicate BacklogOk(e: End) {
    && |e.backlog| <= BACKLOG_LIMIT
    && Distinct(e.backlog)
    && (forall h :: h in e.backlog ==> h in e.objs && !e.objs[h].accepted)
    && (forall h :: h in e.objs && Listed(e, h) ==> e.objs[h].accepted || h in e.backlog)
  }

  ghost predicate Inv(n: Net) {
    && EndOk(n.o) && EndOk(n.a) && OutOk(n.o) && OutOk(n.a)
    && OpenerCounts(n.o) && OpenFirst(n.o) && AcceptorHas(n.o, n.a) && BacklogOk(n.a)
    && Heard(n.a, n.o, n.rxA) && Heard(n.o, n.a, n.rxO)
  }

  lemma StartInv()
    ensures Inv(START)
  {
    assert NeverComplete(CODEC, []);
  }

  // ---- the frames an end recovers are the frames that were sent ---------------------

  lemma EraseValid(x: End)
    requires FramesOk(x)
    ensures AllValid(EraseAll(x.out), FitsLength)
  {
  }

  lemma FramesArriveInOrder(x: End, rx: seq<Byte>)
    requires OutOk(x) && rx <= Wire(x)
    ensures DecodeAll(CODEC, rx) <= EraseAll(x.out)
  {
    MuxCodecLawful();
    EraseValid(x);
    Reassembly(CODEC, FitsLength, EraseAll(x.out), x.tail, rx);
  }

  lemma FramesStay(x: End, rx: seq<Byte>, more: seq<Byte>)
    requires OutOk(x) && rx + more <= Wire(x)
    ensures |DecodeAll(CODEC, rx)| <= |DecodeAll(CODEC, rx + more)|
  {
    MuxCodecLawful();
    EraseValid(x);
    ReassemblyGrows(CODEC, FitsLength, EraseAll(x.out), x.tail, rx, more);
  }

  // ---- steps that only move bytes inside one end, or close things --------------------

  predicate QuietStream(s: Stream, t: Stream) {
    && t.id == s.id
    && (t.opening == Live <==> s.opening == Live)
    && t.openedAt == s.openedAt
    && t.written == s.written
    && Received(t) == Received(s)
  }

  ghost predicate Quiet(e: End, e': End) {
    && e'.objs.Keys == e.objs.Keys
    && (forall h :: h in e.objs ==> QuietStream(e.objs[h], e'.objs[h]))
    && (forall i :: i in e'.table ==> i in e.table && e'.table[i] == e.table[i])
    && e'.out == e.out && e.tail <= e'.tail && e'.handled == e.handled
    && e'.opens == e.opens && e'.nextID == e.nextID
  }

  lemma QuietReader(y: End, y': End, x: End, rx: seq<Byte>)
    requires Heard(y, x, rx) && Quiet(y, y')
    ensures Heard(y', x, rx)
  {
    forall h | h in y'.objs
      ensures HeardStream(y', x, h)
    {
      assert HeardStream(y, x, h);
    }
  }

  lemma QuietWriter(y: End, x: End, x': End, rx: seq<Byte>)
    requires Heard(y, x, rx) && Quiet(x, x')
    ensures Heard(y, x', rx)
  {
    assert Wire(x) <= Wire(x');
    forall h | h in y.objs
      ensures HeardStream(y, x', h)
    {
      assert HeardStream(y, x, h);
    }
  }

  lemma QuietOut(e: End, e': End)
    requires FramesOk(e) && WrittenOk(e) && Quiet(e, e')
    ensures FramesOk(e') && WrittenOk(e')
  {
  }

  lemma QuietOpener(o: End, o': End, a: End)
    requires OpenerCounts(o) && OpenFirst(o) && AcceptorHas(o, a) && Quiet(o, o') && o'.backlog == o.backlog
    ensures OpenerCounts(o') && OpenFirst(o') && AcceptorHas(o', a)
  {
    forall h: Name
      ensures Arrived(o', a, h) <==> Arrived(o, a, h)
    {
    }
  }
}
