/** The multiplexer over whole runs: conservation, no cross-talk, no early drop,
    close discipline. */
module MuxTheorems {
  import opened Bytes
  import opened Framing
  import opened MuxWire
  import opened MuxModel
  import opened MuxInvariant
  import opened MuxSteps
  import opened MuxSend
  import opened MuxDeliver

  // ---- steps of the opener ------------------------------------------------------------

  lemma OpenerQuiet(n: Net, o': End)
    requires Inv(n) && KeptQuietly(n.o, o') && OutOk(o')
    ensures Inv(n.(o := o'))
  {
    QuietOpener(n.o, o', n.a);
    QuietReader(n.o, o', n.a, n.rxO);
    QuietWriter(n.a, n.o, o', n.rxA);
  }

  lemma OpenerWrote(n: Net, o': End, f: Tagged, t: Stream)
    requires Inv(n) && Wrote(n.o, o', f, t) && n.o.tail == [] && StreamOk(t) && Known(n.o.objs[f.stream])
    requires if f.kind == FRAME_OPEN then n.o.objs[f.stream].opening != Live && t.openedAt == |n.o.out|
             else n.o.objs[f.stream].opening == Live
    ensures Inv(n.(o := o'))
  {
    WroteEnd(n.o, o', f, t);
    WroteFrames(n.o, o', f, t);
    WroteWritten(n.o, o', f, t);
    WroteOpenFirst(n.o, o', f, t);
    WroteAcceptorHas(n.o, o', n.a, f, t);
    WroteReader(n.o, o', n.a, n.rxO, f, t);
    WroteWriter(n.a, n.o, o', n.rxA, f, t);
  }

  lemma OpenerAlloc(n: Net)
    requires Inv(n) && Alloc(n.o).opens <= TWO_32
    ensures Inv(n.(o := Alloc(n.o)))
  {
    AllocKeeps(n.o, n.a);
    AllocOut(n.o);
    AllocOpenFirst(n.o);
    AllocOthers(n.o, n.a, n.rxO, n.rxA);
  }

  lemma OpenerRegister(n: Net, h: Name)
    requires Inv(n)
    ensures Inv(n.(o := Register(n.o, h)))
  {
    if h in n.o.objs && n.o.objs[h].opening == Allocated {
      RegisterKeepsEnd(n.o, h);
      RegisterKeepsOut(n.o, h);
      RegisterHears(n.o, n.a, h, n.rxO);
      RegisterHeard(n.o, n.a, h, n.rxA);
    }
  }

  lemma OpenerAnnounceOpen(n: Net, h: Name, r: Outcome)
    requires Inv(n) && OutcomePossible(Tagged(h, FRAME_OPEN, []), r)
    ensures Inv(n.(o := AnnounceOpen(n.o, h, r)))
  {
    var e := n.o;
    if h in e.objs && e.objs[h].opening == Registered && Sends(e, r) {
      OpenWrote(e, h, r);
      hide EndOk, Heard, OpenerCounts, OpenFirst, AcceptorHas, BacklogOk, AnnounceOpen, Wrote, WrittenOk, FramesOk;
      OpenerWrote(n, AnnounceOpen(e, h, r), Tagged(h, FRAME_OPEN, []),
                  e.objs[h].(opening := Live, openedAt := |e.out|));
    } else {
      hide EndOk, Heard, OpenerCounts, OpenFirst, AcceptorHas, BacklogOk, OutOk, AnnounceOpen, KeptQuietly;
      AnnounceOpenFails(e, h, r);
      OpenerQuiet(n, AnnounceOpen(e, h, r));
    }
  }

  // what a write of OPEN does to the stream
  lemma OpenWrote(e: End, h: Name, r: Outcome)
    requires EndOk(e) && OutOk(e) && h in e.objs && e.objs[h].opening == Registered && Sends(e, r)
    ensures var t := e.objs[h].(opening := Live, openedAt := |e.out|);
      Wrote(e, AnnounceOpen(e, h, r), Tagged(h, FRAME_OPEN, []), t) && StreamOk(t) && e.tail == []
  {
    assert OneOk(e, h);
    assert e.objs[h].written + [] == e.objs[h].written;
  }

  // ---- steps that both ends take ---------------------------------------------------------

  // what a write of the chunk or of CLOSE does to the stream
  lemma ChunkWrote(e: End, h: Name, chunk: seq<Byte>, r: Outcome)
    requires EndOk(e) && Usable(e, h) && Sends(e, r) && |chunk| <= CHUNK_LIMIT && e.objs[h].openedAt <= |e.out|
    ensures var t := e.objs[h].(written := e.objs[h].written + chunk);
      Wrote(e, WriteChunk(e, h, chunk, r), Tagged(h, FRAME_DATA, chunk), t) && StreamOk(t)
  {
    assert OneOk(e, h);
  }

  lemma CloseWrote(e: End, h: Name, r: Outcome)
    requires EndOk(e) && Usable(e, h) && e.objs[h].closing == Unlisted && Sends(e, r) && e.objs[h].openedAt <= |e.out|
    ensures var t := e.objs[h].(closing := Announced);
      Wrote(e, AnnounceClose(e, h, r), Tagged(h, FRAME_CLOSE, []), t) && StreamOk(t)
  {
    assert OneOk(e, h);
    assert e.objs[h].written + [] == e.objs[h].written;
  }

  predicate Sending(a: Action) {
    a.DoWriteChunk? || a.DoAnnounceClose?
  }

  predicate Opening(a: Action) {
    a.DoAlloc? || a.DoRegister? || a.DoAnnounceOpen?
  }

  lemma QuietActions(e: End, a: Action)
    requires EndOk(e) && OutOk(e) && !Sending(a) && !Opening(a)
    ensures KeptQuietly(e, Act(e, a)) && OutOk(Act(e, a))
  {
    match a {
      case DoBeginClose(h) => if Usable(e, h) { BeginCloseKeeps(e, h); }
      case DoFinishClose(h) => FinishCloseKeeps(e, h);
      case DoCloseSession => CloseSessionKeeps(e);
      case DoAccept => AcceptKeeps(e);
      case DoIngestTake(h) => IngestAndRead(e, a);
      case DoIngestStore(h) => IngestAndRead(e, a);
      case DoIngestEnd(h) => IngestAndRead(e, a);
      case DoRead(h, room) => IngestAndRead(e, a);
    }
    FailedOut(e, Act(e, a));
  }

  // the frame an action puts on the pipe, and what becomes of its stream
  predicate ActionSends(e: End, a: Action) {
    match a
    case DoWriteChunk(h, chunk, r) => Usable(e, h) && Sends(e, r)
    case DoAnnounceClose(h, r) => Usable(e, h) && e.objs[h].closing == Unlisted && Sends(e, r)
    case _ => false
  }

  lemma SendingFails(n: Net, side: Side, a: Action, e: End)
    requires Enabled(n, Local(side, a)) && EndOk(e) && OutOk(e) && Sending(a) && !ActionSends(e, a)
    ensures KeptQuietly(e, Act(e, a)) && OutOk(Act(e, a))
  {
    match a
    case DoWriteChunk(h, chunk, r) => WriteChunkFails(e, h, chunk, r);
    case DoAnnounceClose(h, r) => AnnounceCloseFails(e, h, r);
  }

  lemma OpenerSends(n: Net, a: Action)
    requires Inv(n) && Enabled(n, Local(Opener, a)) && Sending(a) && ActionSends(n.o, a)
    ensures Inv(n.(o := Act(n.o, a)))
  {
    assert n.o.objs[a.h].openedAt <= |n.o.out|;
    match a
    case DoWriteChunk(h, chunk, r) =>
      ChunkWrote(n.o, h, chunk, r);
      OpenerWrote(n, Act(n.o, a), Tagged(h, FRAME_DATA, chunk), n.o.objs[h].(written := n.o.objs[h].written + chunk));
    case DoAnnounceClose(h, r) =>
      CloseWrote(n.o, h, r);
      OpenerWrote(n, Act(n.o, a), Tagged(h, FRAME_CLOSE, []), n.o.objs[h].(closing := Announced));
  }

  lemma OpenerStep(n: Net, a: Action)
    requires Inv(n) && Enabled(n, Local(Opener, a)) && Act(n.o, a).opens <= TWO_32
    ensures Inv(n.(o := Act(n.o, a)))
  {
    if Opening(a) {
      match a
      case DoAlloc => OpenerAlloc(n);
      case DoRegister(h) => OpenerRegister(n, h);
      case DoAnnounceOpen(h, r) => OpenerAnnounceOpen(n, h, r);
    } else if !Sending(a) {
      QuietActions(n.o, a);
      OpenerQuiet(n, Act(n.o, a));
    } else if ActionSends(n.o, a) {
      OpenerSends(n, a);
    } else {
      SendingFails(n, Opener, a, n.o);
      OpenerQuiet(n, Act(n.o, a));
    }
  }

  // ---- steps of the acceptor ---------------------------------------------------------------

  lemma AcceptorQuiet(n: Net, a': End)
    requires Inv(n) && KeptQuietly(n.a, a') && OutOk(a')
    ensures Inv(n.(a := a'))
  {
    QuietReader(n.a, a', n.o, n.rxA);
    QuietWriter(n.o, n.a, a', n.rxO);
    forall h: Name
      ensures Arrived(n.o, a', h) <==> Arrived(n.o, n.a, h)
    {
    }
  }

  lemma WroteByAcceptor(o: End, a: End, a': End, f: Tagged, t: Stream)
    requires AcceptorHas(o, a) && Wrote(a, a', f, t) && f.kind != FRAME_OPEN
    ensures AcceptorHas(o, a')
  {
    forall h: Name
      ensures Arrived(o, a', h) <==> Arrived(o, a, h)
    {
    }
    forall i | 0 <= i < |a'.out|
      ensures a'.out[i].kind != FRAME_OPEN
    {
      assert i < |a.out| ==> a'.out[i] == a.out[i];
    }
  }

  lemma AcceptorWrote(n: Net, a': End, f: Tagged, t: Stream)
    requires Inv(n) && Wrote(n.a, a', f, t) && n.a.tail == [] && StreamOk(t) && f.kind != FRAME_OPEN
    ensures Inv(n.(a := a'))
  {
    assert n.a.objs[f.stream].opening == Live;
    WroteEnd(n.a, a', f, t);
    WroteFrames(n.a, a', f, t);
    WroteWritten(n.a, a', f, t);
    WroteReader(n.a, a', n.o, n.rxA, f, t);
    WroteWriter(n.o, n.a, a', n.rxO, f, t);
    WroteByAcceptor(n.o, n.a, a', f, t);
  }

  lemma AcceptorSends(n: Net, a: Action)
    requires Inv(n) && Enabled(n, Local(Acceptor, a)) && Sending(a) && ActionSends(n.a, a)
    ensures Inv(n.(a := Act(n.a, a)))
  {
    match a
    case DoWriteChunk(h, chunk, r) =>
      ChunkWrote(n.a, h, chunk, r);
      AcceptorWrote(n, Act(n.a, a), Tagged(h, FRAME_DATA, chunk), n.a.objs[h].(written := n.a.objs[h].written + chunk));
    case DoAnnounceClose(h, r) =>
      CloseWrote(n.a, h, r);
      AcceptorWrote(n, Act(n.a, a), Tagged(h, FRAME_CLOSE, []), n.a.objs[h].(closing := Announced));
  }

  lemma AcceptorStep(n: Net, a: Action)
    requires Inv(n) && Enabled(n, Local(Acceptor, a))
    ensures Inv(n.(a := Act(n.a, a)))
  {
    if !Sending(a) {
      QuietActions(n.a, a);
      AcceptorQuiet(n, Act(n.a, a));
    } else if ActionSends(n.a, a) {
      AcceptorSends(n, a);
    } else {
      SendingFails(n, Acceptor, a, n.a);
      AcceptorQuiet(n, Act(n.a, a));
    }
  }

  // ---- the readers ------------------------------------------------------------------------

  // the frame the reader at y is about to handle
  lemma NextFrame(x: End, y: End, rx: seq<Byte>)
    requires OutOk(x) && Heard(y, x, rx) && y.handled < |DecodeAll(CODEC, rx)|
    ensures y.handled < |x.out|
    ensures DecodeAll(CODEC, rx)[y.handled] == Erase(x.out[y.handled])
    ensures var f := x.out[y.handled];
      DeliverFrom(y, rx, x) == HandleFrame(y, Erase(f), f.stream).(handled := y.handled + 1)
  {
    FramesArriveInOrder(x, rx);
  }

  lemma OpenerKnows(n: Net, f: Tagged)
    requires FramesOk(n.a) && AcceptorHas(n.o, n.a) && f in n.a.out
    ensures f.kind != FRAME_OPEN && f.stream in n.o.objs && n.o.objs[f.stream].opening == Live
  {
    var i :| 0 <= i < |n.a.out| && n.a.out[i] == f;
    assert Arrived(n.o, n.a, f.stream);
  }

  // what DATA or CLOSE does to the reader's end and to what each end knows of the other
  lemma DeliverGains(y: End, x: End, rxY: seq<Byte>, rxX: seq<Byte>, f: Tagged)
    requires EndOk(y) && OutOk(y) && FramesOk(x) && Heard(y, x, rxY) && Heard(x, y, rxX)
    requires y.handled < |DecodeAll(CODEC, rxY)| && y.handled < |x.out| && f == x.out[y.handled]
    requires f.kind != FRAME_OPEN && f.stream in y.objs && y.objs[f.stream].opening == Live
    ensures var z := HandleFrame(y, Erase(f), f.stream);
      var y' := z.(handled := y.handled + 1);
      Gained(y, z, f) && EndOk(y') && OutOk(y') && Heard(y', x, rxY) && Heard(x, y', rxX)
  {
    var k := y.handled + 1;
    var y' := HandleFrame(y, Erase(f), f.stream);
    HandleKeeps(y, f);
    Counted(y', k);
    GainedHeard(y, y', x, rxY, f);
    GainedOut(y, y', f, k);
    GainedPeer(x, y, y', rxX, f, k);
  }

  lemma DeliverAtOpener(n: Net, f: Tagged)
    requires Inv(n) && n.o.handled < |DecodeAll(CODEC, n.rxO)| && n.o.handled < |n.a.out|
    requires f == n.a.out[n.o.handled] && f.kind != FRAME_OPEN
    requires f.stream in n.o.objs && n.o.objs[f.stream].opening == Live
    ensures Inv(n.(o := HandleFrame(n.o, Erase(f), f.stream).(handled := n.o.handled + 1)))
  {
    hide EndOk, Heard, OpenerCounts, OpenFirst, AcceptorHas, BacklogOk, HandleFrame, WrittenOk;
    var o' := HandleFrame(n.o, Erase(f), f.stream);
    DeliverGains(n.o, n.a, n.rxO, n.rxA, f);
    GainedOpener(n.o, o', n.a, f, n.o.handled + 1);
  }

  lemma DeliverToOpener(n: Net)
    requires Inv(n) && Enabled(n, Deliver(Opener))
    ensures Inv(Next(n, Deliver(Opener)))
  {
    NextFrame(n.a, n.o, n.rxO);
    var f := n.a.out[n.o.handled];
    OpenerKnows(n, f);
    DeliverAtOpener(n, f);
  }

  lemma DeliverOpen(n: Net, f: Tagged)
    requires Inv(n) && n.a.handled < |DecodeAll(CODEC, n.rxA)| && n.a.handled < |n.o.out|
    requires f == n.o.out[n.a.handled] && f.kind == FRAME_OPEN
    ensures Inv(n.(a := HandleFrame(n.a, Erase(f), f.stream).(handled := n.a.handled + 1)))
  {
    var h := f.stream;
    assert n.o.objs[h].openedAt == n.a.handled;
    assert !Arrived(n.o, n.a, h) && OneOk(n.o, h);
    DeliverOpenAt(n, f, h);
  }

  lemma DeliverOpenAt(n: Net, f: Tagged, h: Name)
    requires Inv(n) && n.a.handled < |DecodeAll(CODEC, n.rxA)| && n.a.handled < |n.o.out|
    requires f == n.o.out[n.a.handled] && f == Tagged(h, FRAME_OPEN, []) && h < TWO_32
    requires h in n.o.objs && n.o.objs[h].openedAt == n.a.handled && h !in n.a.objs
    ensures Inv(n.(a := HandleFrame(n.a, Erase(f), h).(handled := n.a.handled + 1)))
  {
    hide EndOk, Heard, OpenerCounts, OpenFirst, AcceptorHas, BacklogOk, HandleFrame, WrittenOk, FramesOk, NeverComplete;
    var k := n.a.handled + 1;
    var a' := HandleFrame(n.a, Erase(f), h);
    HandleOpenKeeps(n.a, h);
    Counted(a', k);
    MadeHeard(n.a, a', n.o, n.rxA, h);
    MadeOut(n.a, a', h, k);
    MadePeer(n.o, n.a, a', n.rxO, h, k);
    MadeAcceptor(n.o, n.a, a', h);
    MadeBacklog(n.a, a', h, k);
  }

  lemma DeliverOther(n: Net, f: Tagged)
    requires Inv(n) && n.a.handled < |DecodeAll(CODEC, n.rxA)| && n.a.handled < |n.o.out|
    requires f == n.o.out[n.a.handled] && f.kind != FRAME_OPEN
    requires f.stream in n.a.objs && n.a.objs[f.stream].opening == Live
    ensures Inv(n.(a := HandleFrame(n.a, Erase(f), f.stream).(handled := n.a.handled + 1)))
  {
    hide EndOk, Heard, OpenerCounts, OpenFirst, AcceptorHas, BacklogOk, HandleFrame, WrittenOk;
    var a' := HandleFrame(n.a, Erase(f), f.stream);
    DeliverGains(n.a, n.o, n.rxA, n.rxO, f);
    GainedAcceptor(n.o, n.a, a', f);
    GainedBacklog(n.a, a', f, n.a.handled + 1);
  }

  lemma DeliverToAcceptor(n: Net)
    requires Inv(n) && Enabled(n, Deliver(Acceptor))
    ensures Inv(Next(n, Deliver(Acceptor)))
  {
    NextFrame(n.o, n.a, n.rxA);
    var f := n.o.out[n.a.handled];
    assert n.o.objs[f.stream].openedAt <= n.a.handled;
    if f.kind == FRAME_OPEN {
      DeliverOpen(n, f);
    } else {
      assert Arrived(n.o, n.a, f.stream);
      DeliverOther(n, f);
    }
  }

  // ---- bytes arriving -----------------------------------------------------------------------

  lemma CarryKeeps(x: End, y: End, rx: seq<Byte>, more: seq<Byte>)
    requires Heard(y, x, rx) && OutOk(x) && rx + more <= Wire(x)
    ensures Heard(y, x, rx + more)
  {
    FramesStay(x, rx, more);
    forall h | h in y.objs
      ensures HeardStream(y, x, h)
    {
    }
  }

  // ---- every step, every run ----------------------------------------------------------------

  /** One step of either end or of a pipe keeps the invariant, as long as the
      opener has made at most 2^32 streams. */
  lemma StepKeepsInv(n: Net, step: Step)
    requires Inv(n) && Enabled(n, step) && Next(n, step).o.opens <= TWO_32
    ensures Inv(Next(n, step))
  {
    match step
    case Local(Opener, a) => OpenerStep(n, a);
    case Local(Acceptor, a) => AcceptorStep(n, a);
    case Carry(Opener, more) => CarryKeeps(n.a, n.o, n.rxO, more);
    case Carry(Acceptor, more) => CarryKeeps(n.o, n.a, n.rxA, more);
    case Deliver(Opener) => DeliverToOpener(n);
    case Deliver(Acceptor) => DeliverToAcceptor(n);
  }
}
