/** Steps of the multiplexer that write a frame, or that open a stream. */
module MuxSend {
  import opened Bytes
  import opened Framing
  import opened MuxWire
  import opened MuxModel
  import opened MuxInvariant
  import opened MuxSteps

  // ---- a write that fails leaves at most part of a frame on the pipe ------------------

  lemma FailedTail(e: End, f: Tagged, r: Outcome)
    requires OutOk(e) && OutcomePossible(f, r) && !Sends(e, r) && |f.payload| <= CHUNK_LIMIT
    ensures var e' := Send(e, f, r);
      && NeverComplete(CODEC, e'.tail) && (!e'.dead ==> e'.tail == []) && e.tail <= e'.tail
      && e' == e.(dead := e'.dead, tail := e'.tail)
  {
    if CanSend(e) {
      MuxCodecLawful();
      PartOfFrameNeverComplete(CODEC, FitsLength, Erase(f), r.part);
    }
  }

  lemma FailedOut(e: End, e': End)
    requires OutOk(e) && Quiet(e, e') && NeverComplete(CODEC, e'.tail) && (!e'.dead ==> e'.tail == [])
    ensures OutOk(e')
  {
    QuietOut(e, e');
  }

  lemma SendKeepsEnd(e: End, f: Tagged, r: Outcome)
    requires EndOk(e) && !Sends(e, r) && OutOk(e) && OutcomePossible(f, r) && |f.payload| <= CHUNK_LIMIT
    ensures KeptQuietly(e, Send(e, f, r)) && OutOk(Send(e, f, r))
  {
    hide Send, EndOk, BacklogOk, OutcomePossible, FramesOk, WrittenOk, Quiet;
    FailedTail(e, f, r);
    SameStreams(e, Send(e, f, r));
    FailedOut(e, Send(e, f, r));
  }

  lemma SameStreams(e: End, e': End)
    requires EndOk(e) && e' == e.(dead := e'.dead, tail := e'.tail) && e.tail <= e'.tail
    ensures KeptQuietly(e, e')
  {
    hide StreamOk, PlaceOk, Received;
    forall h | h in e'.objs
      ensures OneOk(e', h)
    {
      assert OneOk(e, h);
    }
  }

  lemma WriteChunkFails(e: End, h: Name, chunk: seq<Byte>, r: Outcome)
    requires EndOk(e) && OutOk(e) && !(Usable(e, h) && Sends(e, r)) && |chunk| <= CHUNK_LIMIT
    requires OutcomePossible(Tagged(h, FRAME_DATA, chunk), r)
    ensures KeptQuietly(e, WriteChunk(e, h, chunk, r)) && OutOk(WriteChunk(e, h, chunk, r))
  {
    if Usable(e, h) {
      SendKeepsEnd(e, Tagged(h, FRAME_DATA, chunk), r);
    }
  }

  lemma AnnounceCloseFails(e: End, h: Name, r: Outcome)
    requires EndOk(e) && OutOk(e)
    requires !(Usable(e, h) && e.objs[h].closing == Unlisted && Sends(e, r))
    requires OutcomePossible(Tagged(h, FRAME_CLOSE, []), r)
    ensures KeptQuietly(e, AnnounceClose(e, h, r)) && OutOk(AnnounceClose(e, h, r))
  {
    if Usable(e, h) && e.objs[h].closing == Unlisted {
      var e' := AnnounceClose(e, h, r);
      assert OneOk(e, h);
      ListedById(e, h);
      FailedTail(e, Tagged(h, FRAME_CLOSE, []), r);
      QuietReplace(e, e', h, e.objs[h].(closing := Announced));
      FailedOut(e, e');
    }
  }

  lemma AnnounceOpenFails(e: End, h: Name, r: Outcome)
    requires EndOk(e) && OutOk(e)
    requires !(h in e.objs && e.objs[h].opening == Registered && Sends(e, r))
    requires OutcomePossible(Tagged(h, FRAME_OPEN, []), r)
    ensures KeptQuietly(e, AnnounceOpen(e, h, r)) && OutOk(AnnounceOpen(e, h, r))
  {
    hide BacklogOk, OutcomePossible, FramesOk, WrittenOk;
    if h in e.objs && e.objs[h].opening == Registered {
      var e' := AnnounceOpen(e, h, r);
      assert OneOk(e, h);
      ListedById(e, h);
      FailedTail(e, Tagged(h, FRAME_OPEN, []), r);
      QuietReplace(e, e', h, e.objs[h].(opening := Refused));
      FailedOut(e, e');
    }
  }

  // ---- a write that succeeds -----------------------------------------------------------

  // one frame more on the pipe; its stream changes to t
  ghost predicate Wrote(e: End, e': End, f: Tagged, t: Stream) {
    && f.stream in e.objs
    && e' == Put(e, f.stream, t).(out := e.out + [f])
    && (var s := e.objs[f.stream];
        && t.id == s.id && t.openedAt <= |e.out| && t.accepted == s.accepted && t.opening == Live
        && (s.opening == Live ==> t.openedAt == s.openedAt)
        && t.queueOpen == s.queueOpen && t.localClosed == s.localClosed
        && Received(t) == Received(s) && t.written == s.written + Piece(f, f.stream))
    && FRAME_OPEN <= f.kind <= FRAME_CLOSE && |f.payload| <= CHUNK_LIMIT
    && (f.kind != FRAME_DATA ==> f.payload == [])
  }

  lemma WroteEnd(e: End, e': End, f: Tagged, t: Stream)
    requires EndOk(e) && Wrote(e, e', f, t) && StreamOk(t) && Known(e.objs[f.stream])
    ensures EndOk(e')
    ensures BacklogOk(e) ==> BacklogOk(e')
  {
    var h := f.stream;
    assert OneOk(e, h);
    ListedById(e, h);
    ReplaceKeeps(e, e', h, t);
    if BacklogOk(e) {
      ReplaceBacklog(e, e', h, t);
    }
  }

  lemma WroteFrames(e: End, e': End, f: Tagged, t: Stream)
    requires FramesOk(e) && Wrote(e, e', f, t)
    ensures FramesOk(e')
  {
    forall i | 0 <= i < |e'.out|
      ensures e'.out[i].stream in e'.objs && e'.objs[e'.out[i].stream].opening == Live
      ensures FRAME_OPEN <= e'.out[i].kind <= FRAME_CLOSE && |e'.out[i].payload| <= CHUNK_LIMIT
      ensures e'.out[i].kind != FRAME_DATA ==> e'.out[i].payload == []
    {
      assert i < |e.out| ==> e'.out[i] == e.out[i];
    }
  }

  lemma WroteWritten(e: End, e': End, f: Tagged, t: Stream)
    requires WrittenOk(e) && Wrote(e, e', f, t)
    ensures WrittenOk(e')
  {
    forall g | g in e'.objs
      ensures e'.objs[g].written == Payload(e'.out, g)
    {
      PayloadAppend(e.out, f, g);
    }
  }

  lemma WroteWire(e: End, e': End, f: Tagged, t: Stream)
    requires Wrote(e, e', f, t) && e.tail == []
    ensures Wire(e) <= Wire(e')
  {
    assert EraseAll(e'.out) == EraseAll(e.out) + [Erase(f)];
    EncodeAllAppend(CODEC, EraseAll(e.out), [Erase(f)]);
  }

  lemma WroteReader(y: End, y': End, x: End, rx: seq<Byte>, f: Tagged, t: Stream)
    requires Wrote(y, y', f, t) && Heard(y, x, rx)
    ensures Heard(y', x, rx)
  {
    forall h | h in y'.objs
      ensures HeardStream(y', x, h)
    {
      assert HeardStream(y, x, h);
    }
  }

  lemma WroteWriter(y: End, x: End, x': End, rx: seq<Byte>, f: Tagged, t: Stream)
    requires Wrote(x, x', f, t) && x.tail == [] && Heard(y, x, rx)
    ensures Heard(y, x', rx)
  {
    WroteWire(x, x', f, t);
    assert x'.out[..y.handled] == x.out[..y.handled];
    forall h | h in y.objs
      ensures HeardStream(y, x', h)
    {
      assert HeardStream(y, x, h);
    }
  }

  lemma WroteOpenFirst(o: End, o': End, f: Tagged, t: Stream)
    requires OpenerCounts(o) && OpenFirst(o) && Wrote(o, o', f, t)
    requires if f.kind == FRAME_OPEN then o.objs[f.stream].opening != Live && t.openedAt == |o.out|
             else o.objs[f.stream].opening == Live
    requires FramesOk(o)
    ensures OpenerCounts(o') && OpenFirst(o')
  {
    forall i | 0 <= i < |o'.out|
      ensures var g := o'.out[i].stream;
        g in o'.objs && o'.objs[g].openedAt <= i && (o'.out[i].kind == FRAME_OPEN ==> o'.objs[g].openedAt == i)
    {
      if i < |o.out| {
        assert o'.out[i] == o.out[i];
      }
    }
    forall h | h in o'.objs && o'.objs[h].opening == Live
      ensures var at := o'.objs[h].openedAt;
        at < |o'.out| && o'.out[at].stream == h && o'.out[at].kind == FRAME_OPEN
    {
      if h != f.stream || f.kind != FRAME_OPEN {
        assert o.objs[h].opening == Live;
        var at := o.objs[h].openedAt;
        assert o'.out[at] == o.out[at];
      }
    }
  }

  lemma WroteAcceptorHas(o: End, o': End, a: End, f: Tagged, t: Stream)
    requires AcceptorHas(o, a) && Wrote(o, o', f, t) && a.handled <= |o.out|
    requires if f.kind == FRAME_OPEN then o.objs[f.stream].opening != Live && t.openedAt == |o.out|
             else o.objs[f.stream].opening == Live
    ensures AcceptorHas(o', a)
  {
    forall h: Name
      ensures Arrived(o', a, h) <==> Arrived(o, a, h)
    {
    }
  }

  // ---- opening ----------------------------------------------------------------------------

  lemma AllocKeeps(o: End, a: End)
    requires EndOk(o) && OutOk(o) && OpenerCounts(o) && OpenFirst(o) && AcceptorHas(o, a)
    requires Alloc(o).opens <= TWO_32
    ensures EndOk(Alloc(o)) && OpenerCounts(Alloc(o))
  {
    if !o.closed {
      var h := o.opens;
      var t := NewStream((o.nextID + 1) % TWO_32, Allocated, 0);
      assert t.id == IdOf(h);
      assert IdOf(h) !in o.table by {
        if IdOf(h) in o.table {
          var g := o.table[IdOf(h)];
          assert OneOk(o, g);
          IdsDistinct(g, h);
        }
      }
      ReplaceKeeps(o, Alloc(o), h, t);
    }
  }

  lemma AllocOut(o: End)
    requires OutOk(o) && OpenerCounts(o)
    ensures OutOk(Alloc(o))
  {
    if !o.closed {
      forall i | 0 <= i < |o.out|
        ensures o.out[i].stream != o.opens
      {
      }
      PayloadNone(o.out, o.opens);
    }
  }

  lemma AllocOpenFirst(o: End)
    requires OpenerCounts(o) && OpenFirst(o)
    ensures OpenFirst(Alloc(o))
  {
    if !o.closed {
      var o' := Alloc(o);
      forall i | 0 <= i < |o'.out|
        ensures o'.out[i].stream in o.objs && o'.objs[o'.out[i].stream] == o.objs[o'.out[i].stream]
      {
      }
    }
  }

  lemma AllocOthers(o: End, a: End, rxO: seq<Byte>, rxA: seq<Byte>)
    requires EndOk(o) && OpenerCounts(o) && AcceptorHas(o, a) && OutOk(a)
    requires Heard(a, o, rxA) && Heard(o, a, rxO)
    ensures AcceptorHas(Alloc(o), a) && Heard(a, Alloc(o), rxA) && Heard(Alloc(o), a, rxO)
  {
    if !o.closed {
      AllocArrivals(o, a);
      AllocHears(o, a, rxO);
      AllocHeard(o, a, rxA);
    }
    hide *;
  }

  lemma AllocArrivals(o: End, a: End)
    requires !o.closed && OpenerCounts(o) && AcceptorHas(o, a)
    ensures AcceptorHas(Alloc(o), a)
  {
    forall h: Name
      ensures Arrived(Alloc(o), a, h) <==> Arrived(o, a, h)
    {
    }
  }

  lemma AllocHears(o: End, a: End, rxO: seq<Byte>)
    requires !o.closed && EndOk(o) && OpenerCounts(o) && Heard(o, a, rxO)
    ensures Heard(Alloc(o), a, rxO)
  {
    var o' := Alloc(o);
    forall h | h in o'.objs
      ensures HeardStream(o', a, h)
    {
      if h == o.opens {
        AllocUnheard(o, a, h);
      } else {
        assert HeardStream(o, a, h);
      }
    }
  }

  lemma AllocHeard(o: End, a: End, rxA: seq<Byte>)
    requires !o.closed && Heard(a, o, rxA)
    ensures Heard(a, Alloc(o), rxA)
  {
    forall h | h in a.objs
      ensures HeardStream(a, Alloc(o), h)
    {
      assert HeardStream(a, o, h);
    }
  }

  lemma AllocUnheard(o: End, a: End, h: Name)
    requires !o.closed && h == o.opens && OpenerCounts(o) && EndOk(o)
    ensures Received(Alloc(o).objs[h]) == []
    ensures !Listed(Alloc(o), h)
  {
    assert h !in o.objs;
    assert forall i :: i in o.table ==> o.table[i] in o.objs;
  }

  lemma RegisterReplaces(o: End, h: Name)
    requires EndOk(o) && h in o.objs && o.objs[h].opening == Allocated
    ensures Replaces(o, Register(o, h), h, o.objs[h].(opening := Registered))
    ensures h < TWO_32 && o.objs[h].id == IdOf(h)
  {
    assert OneOk(o, h);
  }

  lemma RegisterKeepsEnd(o: End, h: Name)
    requires EndOk(o)
    ensures EndOk(Register(o, h))
  {
    if h in o.objs && o.objs[h].opening == Allocated {
      assert OneOk(o, h);
      RegisterReplaces(o, h);
      ReplaceKeeps(o, Register(o, h), h, o.objs[h].(opening := Registered));
    }
  }

  lemma RegisterKeepsOut(o: End, h: Name)
    requires OutOk(o) && OpenerCounts(o) && OpenFirst(o)
    ensures OutOk(Register(o, h)) && OpenerCounts(Register(o, h)) && OpenFirst(Register(o, h))
  {
    RegisterKeepsFrames(o, h);
    RegisterKeepsCounts(o, h);
    hide FramesOk, WrittenOk;
  }

  lemma RegisterKeepsFrames(o: End, h: Name)
    requires FramesOk(o) && WrittenOk(o)
    ensures FramesOk(Register(o, h)) && WrittenOk(Register(o, h))
  {
  }

  lemma RegisterKeepsCounts(o: End, h: Name)
    requires OpenerCounts(o) && OpenFirst(o)
    ensures OpenerCounts(Register(o, h)) && OpenFirst(Register(o, h))
  {
  }

  // a stream that nobody has announced has received nothing
  lemma RegisterUnheard(o: End, a: End, h: Name)
    requires AcceptorHas(o, a) && FramesOk(a) && o.handled <= |a.out|
    requires h in o.objs && o.objs[h].opening == Allocated && HeardStream(o, a, h)
    ensures HeardStream(Register(o, h), a, h)
  {
    assert !Arrived(o, a, h) && h !in a.objs;
    PayloadNone(a.out[..o.handled], h);
  }

  lemma RegisterOther(o: End, h: Name, g: Name)
    requires EndOk(o) && h in o.objs && o.objs[h].opening == Allocated && g in o.objs && g != h
    ensures Listed(Register(o, h), g) == Listed(o, g) && Register(o, h).objs[g] == o.objs[g]
  {
    RegisterReplaces(o, h);
    ReplaceOther(o, Register(o, h), h, o.objs[h].(opening := Registered), g);
  }

  lemma RegisterHears(o: End, a: End, h: Name, rxO: seq<Byte>)
    requires EndOk(o) && AcceptorHas(o, a) && FramesOk(a)
    requires h in o.objs && o.objs[h].opening == Allocated
    requires Heard(o, a, rxO)
    ensures Heard(Register(o, h), a, rxO)
  {
    var o' := Register(o, h);
    forall g | g in o'.objs
      ensures HeardStream(o', a, g)
    {
      assert HeardStream(o, a, g);
      if g != h {
        RegisterOther(o, h, g);
      } else {
        RegisterUnheard(o, a, h);
      }
    }
  }

  lemma RegisterHeard(o: End, a: End, h: Name, rxA: seq<Byte>)
    requires AcceptorHas(o, a) && Heard(a, o, rxA)
    ensures AcceptorHas(Register(o, h), a) && Heard(a, Register(o, h), rxA)
  {
    var o' := Register(o, h);
    forall g: Name
      ensures Arrived(o', a, g) <==> Arrived(o, a, g)
    {
    }
    forall g | g in a.objs
      ensures HeardStream(a, o', g)
    {
      assert HeardStream(a, o, g);
    }
  }
}
