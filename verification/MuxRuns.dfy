/** What holds in every state that a run of the two ends can reach while the
    opener has made at most 2^32 streams. */
module MuxRuns {
  import opened Bytes
  import opened MuxWire
  import opened MuxModel
  import opened MuxInvariant
  import opened MuxDeliver
  import opened MuxTheorems

  ghost predicate Reachable(m: Net) {
    exists steps :: Run(START, steps, m)
  }

  lemma StepOpens(n: Net, step: Step)
    ensures Next(n, step).o.opens >= n.o.opens
  {
    hide Act, DeliverFrom;
    match step
    case Local(Opener, a) => ActOpens(n.o, a);
    case Deliver(Opener) => DeliverOpens(n.o, n.rxO, n.a);
    case _ =>
  }

  lemma ActOpens(e: End, a: Action)
    ensures Act(e, a).opens >= e.opens
  {
    hide Listed, OutcomePossible, CloseQueue;
  }

  lemma DeliverOpens(y: End, rx: seq<Byte>, x: End)
    ensures DeliverFrom(y, rx, x).opens == y.opens
  {
    hide Listed;
  }

  lemma {:induction false} RunOpens(n: Net, steps: seq<Step>, m: Net)
    requires Run(n, steps, m)
    ensures m.o.opens >= n.o.opens
    decreases |steps|
  {
    if steps != [] {
      StepOpens(n, steps[0]);
      RunOpens(Next(n, steps[0]), steps[1..], m);
    }
  }

  lemma {:induction false} RunKeepsInv(n: Net, steps: seq<Step>, m: Net)
    requires Inv(n) && Run(n, steps, m) && m.o.opens <= TWO_32
    ensures Inv(m)
    decreases |steps|
  {
    if steps != [] {
      RunOpens(Next(n, steps[0]), steps[1..], m);
      StepKeepsInv(n, steps[0]);
      RunKeepsInv(Next(n, steps[0]), steps[1..], m);
    }
  }

  lemma ReachableInv(m: Net)
    requires Reachable(m) && m.o.opens <= TWO_32
    ensures Inv(m)
  {
    var steps :| Run(START, steps, m);
    StartInv();
    RunKeepsInv(START, steps, m);
  }

  lemma {:induction false} RunAppend(n: Net, steps: seq<Step>, m: Net, step: Step)
    requires Run(n, steps, m) && Enabled(m, step)
    ensures Run(n, steps + [step], Next(m, step))
    decreases |steps|
  {
    hide Enabled, Next;
    var more := steps + [step];
    if steps == [] {
      assert more[1..] == [];
      assert Run(Next(n, step), more[1..], Next(m, step));
    } else {
      RunAppend(Next(n, steps[0]), steps[1..], m, step);
      assert more[1..] == steps[1..] + [step];
    }
  }

  lemma ReachStep(m: Net, step: Step)
    requires Reachable(m) && Enabled(m, step)
    ensures Reachable(Next(m, step))
  {
    hide Enabled, Next, Run;
    var steps :| Run(START, steps, m);
    RunAppend(START, steps, m, step);
  }

  // ---- conservation ---------------------------------------------------------------------

  // the end that reads at `side`, and the end that writes to it
  function Reader(m: Net, side: Side): End {
    if side == Opener then m.o else m.a
  }

  function Writer(m: Net, side: Side): End {
    if side == Opener then m.a else m.o
  }

  function WrittenBy(x: End, h: Name): seq<Byte> {
    if h in x.objs then x.objs[h].written else []
  }

  /** DATA payloads of the stream that the reader has not handled yet. */
  function InFlight(x: End, y: End, h: Name): seq<Byte>
    requires y.handled <= |x.out|
  {
    Payload(x.out[y.handled..], h)
  }

  lemma WrittenSplits(x: End, y: End, h: Name)
    requires OutOk(x) && y.handled <= |x.out|
    ensures WrittenBy(x, h) == Payload(x.out[..y.handled], h) + InFlight(x, y, h)
  {
    assert x.out == x.out[..y.handled] + x.out[y.handled..];
    PayloadSplit(x.out[..y.handled], x.out[y.handled..], h);
    if h !in x.objs {
      PayloadNone(x.out, h);
    }
  }

  lemma NothingBeforeStream(m: Net, side: Side, h: Name)
    requires Inv(m) && h !in Reader(m, side).objs
    ensures Payload(Writer(m, side).out[..Reader(m, side).handled], h) == []
  {
    hide EndOk, WrittenOk, OpenerCounts, OpenFirst, AcceptorHas, BacklogOk, FramesOk;
    if side == Opener {
      NothingToOpener(m.o, m.a, h);
    } else {
      NothingToAcceptor(m.o, m.a, h);
    }
  }

  lemma NothingToOpener(o: End, a: End, h: Name)
    requires FramesOk(a) && AcceptorHas(o, a) && h !in o.objs && o.handled <= |a.out|
    ensures Payload(a.out[..o.handled], h) == []
  {
    var ts := a.out[..o.handled];
    forall i | 0 <= i < |ts|
      ensures ts[i].stream != h
    {
      assert ts[i] == a.out[i];
      assert Arrived(o, a, a.out[i].stream);
    }
    PayloadNone(ts, h);
  }

  lemma NothingToAcceptor(o: End, a: End, h: Name)
    requires FramesOk(o) && OpenFirst(o) && AcceptorHas(o, a) && h !in a.objs && a.handled <= |o.out|
    ensures Payload(o.out[..a.handled], h) == []
  {
    var ts := o.out[..a.handled];
    forall i | 0 <= i < |ts|
      ensures ts[i].stream != h
    {
      assert ts[i] == o.out[i];
      assert Arrived(o, a, o.out[i].stream);
    }
    PayloadNone(ts, h);
  }

  // what the invariant says of one stream at its reader
  lemma SideFacts(m: Net, side: Side, h: Name)
    requires Reachable(m) && m.o.opens <= TWO_32
    ensures var x, y := Writer(m, side), Reader(m, side);
      && OutOk(x) && y.handled <= |x.out|
      && (h in y.objs ==> HeardStream(y, x, h) && OneOk(y, h))
      && (h !in y.objs ==> Payload(x.out[..y.handled], h) == [])
  {
    ReachableInv(m);
    if h !in Reader(m, side).objs {
      NothingBeforeStream(m, side, h);
    }
  }

  /** Conservation.  For every stream and direction, in every reachable state: what
      Read has returned, the read buffer, the chunk in ingestLoop's hand, the queue
      and the DATA payloads on the pipe are together exactly the bytes written,
      as long as the reading stream is in its table; after that, what has reached
      it is still a prefix of the bytes written; and before the stream exists at
      the reader, every byte written is on the pipe. */
  lemma Conservation(m: Net, side: Side, h: Name)
    requires Reachable(m) && m.o.opens <= TWO_32
    ensures var x, y := Writer(m, side), Reader(m, side);
      && y.handled <= |x.out|
      && (h !in y.objs ==> InFlight(x, y, h) == WrittenBy(x, h))
      && (h in y.objs ==>
            var s := y.objs[h];
            && s.delivered + s.buf + s.held + Concat(s.queue) <= WrittenBy(x, h)
            && (Listed(y, h) ==>
                  s.delivered + s.buf + s.held + Concat(s.queue) + InFlight(x, y, h) == WrittenBy(x, h)))
  {
    hide OutOk, OneOk, Payload;
    SideFacts(m, side, h);
    var x, y := Writer(m, side), Reader(m, side);
    WrittenSplits(x, y, h);
  }

  // the reader's stream is listed, and nothing is queued, in hand, buffered or on the pipe
  predicate NothingLeft(x: End, y: End, h: Name)
    requires y.handled <= |x.out| && h in y.objs
  {
    var s := y.objs[h];
    Listed(y, h) && s.buf == s.held == InFlight(x, y, h) == [] && s.queue == []
  }

  /** What Read has returned is a prefix of what was written, always; and all of it
      once nothing is left on the way. */
  lemma ReadsArePrefixes(m: Net, side: Side, h: Name)
    requires Reachable(m) && m.o.opens <= TWO_32 && h in Reader(m, side).objs
    ensures var x, y := Writer(m, side), Reader(m, side); var s := y.objs[h];
      && y.handled <= |x.out|
      && s.delivered <= WrittenBy(x, h)
      && (NothingLeft(x, y, h) ==> s.delivered == WrittenBy(x, h))
  {
    Conservation(m, side, h);
  }

  // ---- one stream's frames touch one stream ---------------------------------------------------

  // the frame that the reader at `side` will handle next
  predicate HasNext(m: Net, side: Side) {
    Enabled(m, Deliver(side)) && Reader(m, side).handled < |Writer(m, side).out|
  }

  function NextTagged(m: Net, side: Side): Tagged
    requires HasNext(m, side)
  {
    Writer(m, side).out[Reader(m, side).handled]
  }

  // what is known of the frame the reader handles next
  predicate FrameFits(y: End, f: Tagged) {
    && (f.kind != FRAME_OPEN ==> f.stream in y.objs && y.objs[f.stream].opening == Live)
    && (f.kind == FRAME_OPEN ==> f.stream !in y.objs && f.stream < TWO_32)
    && FRAME_OPEN <= f.kind <= FRAME_CLOSE
    && (f.kind != FRAME_DATA ==> f.payload == [])
  }

  function AfterFrame(y: End, f: Tagged): End {
    HandleFrame(y, Erase(f), f.stream).(handled := y.handled + 1)
  }

  lemma AcceptorKnows(o: End, a: End)
    requires OutOk(o) && OpenerCounts(o) && OpenFirst(o) && AcceptorHas(o, a) && a.handled < |o.out|
    ensures FrameFits(a, o.out[a.handled])
  {
    hide WrittenOk;
    var k := a.handled;
    var f := o.out[k];
    var at := o.objs[f.stream].openedAt;
    assert at <= k;
    assert o.out[at].kind == FRAME_OPEN;
    assert Arrived(o, a, f.stream) <==> f.kind != FRAME_OPEN;
  }

  lemma OpenerFits(m: Net)
    requires OutOk(m.a) && AcceptorHas(m.o, m.a) && m.o.handled < |m.a.out|
    ensures FrameFits(m.o, m.a.out[m.o.handled])
  {
    hide WrittenOk, AcceptorHas;
    OpenerKnows(m, m.a.out[m.o.handled]);
  }

  lemma ReaderHasNext(m: Net, side: Side)
    requires Inv(m) && Enabled(m, Deliver(side))
    ensures HasNext(m, side)
    ensures Reader(Next(m, Deliver(side)), side) == AfterFrame(Reader(m, side), NextTagged(m, side))
    ensures FrameFits(Reader(m, side), NextTagged(m, side))
  {
    hide EndOk, OutOk, Heard, OpenerCounts, OpenFirst, AcceptorHas, BacklogOk, HandleFrame, FrameFits, DeliverFrom;
    if side == Opener {
      NextFrame(m.a, m.o, m.rxO);
      OpenerFits(m);
    } else {
      NextFrame(m.o, m.a, m.rxA);
      AcceptorKnows(m.o, m.a);
    }
  }

  // the step changes nothing of any stream but h, and makes no stream but h
  ghost predicate OnlyTouches(y: End, y': End, h: Name) {
    && y'.objs.Keys <= y.objs.Keys + {h}
    && (forall g :: g in y.objs && g != h ==>
          g in y'.objs && y'.objs[g] == y.objs[g] && Listed(y', g) == Listed(y, g))
  }

  lemma FrameTouchesOne(y: End, f: Tagged)
    requires EndOk(y) && FrameFits(y, f)
    ensures OnlyTouches(y, AfterFrame(y, f), f.stream)
  {
    if f.kind == FRAME_OPEN {
      HandleOpenKeeps(y, f.stream);
    } else {
      HandleKeeps(y, f);
    }
  }

  /** No cross-talk.  Whatever frame arrives, and however late, the reader changes
      at most the stream that the frame's writer belonged to. */
  lemma NoCrossTalk(m: Net, side: Side)
    requires Reachable(m) && m.o.opens <= TWO_32 && Enabled(m, Deliver(side))
    ensures HasNext(m, side)
    ensures OnlyTouches(Reader(m, side), Reader(Next(m, Deliver(side)), side), NextTagged(m, side).stream)
  {
    ReachableInv(m);
    ReaderHasNext(m, side);
    FrameTouchesOne(Reader(m, side), NextTagged(m, side));
  }

  /** No early drop.  A DATA or CLOSE frame finds the stream of its writer; when it
      finds none, that stream had existed at the reader and had been closed there. */
  lemma NoEarlyDrop(m: Net, side: Side)
    requires Reachable(m) && m.o.opens <= TWO_32 && Enabled(m, Deliver(side))
    ensures HasNext(m, side)
    ensures var y, f := Reader(m, side), NextTagged(m, side);
      f.kind != FRAME_OPEN ==>
        && f.stream in y.objs
        && (IdOf(f.stream) in y.table ==> y.table[IdOf(f.stream)] == f.stream)
        && (IdOf(f.stream) !in y.table ==> y.objs[f.stream].localClosed || !y.objs[f.stream].queueOpen)
  {
    ReachableInv(m);
    ReaderHasNext(m, side);
    var y, f := Reader(m, side), NextTagged(m, side);
    if f.kind != FRAME_OPEN {
      assert OneOk(y, f.stream);
      LookupFindsOwner(y, f.stream);
    }
  }

  /** The two ends of a stream have the same id, and no two streams share one. */
  lemma OneIdPerStream(m: Net, g: Name, h: Name)
    requires Reachable(m) && m.o.opens <= TWO_32 && g in m.o.objs && h in m.o.objs
    ensures m.o.objs[g].id == m.o.objs[h].id ==> g == h
    ensures h in m.a.objs ==> m.a.objs[h].id == m.o.objs[h].id
  {
    ReachableInv(m);
    assert OneOk(m.o, g) && OneOk(m.o, h);
    assert h in m.a.objs ==> OneOk(m.a, h);
    IdsDistinct(g, h);
  }

  // ---- closing -----------------------------------------------------------------------------------

  /** Close discipline.  A stream in the table has an open queue; a queue is closed at
      most once, whichever of stream Close, peer CLOSE, overflow and session Close come
      together, and never sent to after that; a stream out of the table was closed; and
      end of file is reported only after every byte that reached the stream was
      returned. */
  lemma CloseDiscipline(m: Net, side: Side, h: Name)
    requires Reachable(m) && m.o.opens <= TWO_32 && h in Reader(m, side).objs
    ensures var y := Reader(m, side); var s := y.objs[h];
      && (Listed(y, h) ==> s.queueOpen && !s.localClosed)
      && (!Listed(y, h) && Known(s) ==> s.localClosed || !s.queueOpen)
      && s.closes <= 1 && (s.closes == 1 <==> !s.queueOpen)
      && !s.misused && |s.queue| <= 256
      && (s.eof ==> !s.queueOpen && s.delivered == Received(s))
  {
    hide OutOk;
    SideFacts(m, side, h);
  }


  lemma PeerCloseReady(m: Net, side: Side)
    requires Reachable(m) && m.o.opens <= TWO_32 && Enabled(m, Deliver(side))
    ensures HasNext(m, side) && EndOk(Reader(m, side)) && OutOk(Writer(m, side))
    ensures Reader(Next(m, Deliver(side)), side) == AfterFrame(Reader(m, side), NextTagged(m, side))
    ensures FrameFits(Reader(m, side), NextTagged(m, side))
  {
    ReachableInv(m);
    ReaderHasNext(m, side);
  }

  lemma PeerCloseTakesAll(x: End, y: End, f: Tagged)
    requires EndOk(y) && OutOk(x) && FrameFits(y, f) && f.kind == FRAME_CLOSE
    requires y.handled < |x.out| && x.out[y.handled] == f
    requires Listed(y, f.stream) && HeardStream(y, x, f.stream)
    ensures var h, y' := f.stream, AfterFrame(y, f);
      && h in y'.objs && !Listed(y', h) && !y'.objs[h].queueOpen
      && Received(y'.objs[h]) == Payload(x.out[..y.handled], h)
  {
    assert OneOk(y, f.stream);
    LookupFindsOwner(y, f.stream);
  }

  lemma PeerCloseSplits(x: End, y: End, f: Tagged)
    requires OutOk(x) && y.handled < |x.out| && x.out[y.handled] == f && f.kind == FRAME_CLOSE
    ensures Payload(x.out[..y.handled], f.stream) + Payload(x.out[y.handled + 1..], f.stream) == WrittenBy(x, f.stream)
  {
    hide OutOk, Payload;
    WrittenSplits(x, y.(handled := y.handled + 1), f.stream);
    PayloadTake(x.out, y.handled, f.stream);
  }

  /** A peer's CLOSE cuts nothing off: when it is handled, every byte written before
      it has reached the stream, and only bytes written after it are missing. */
  lemma PeerCloseComesLast(m: Net, side: Side)
    requires Reachable(m) && m.o.opens <= TWO_32 && Enabled(m, Deliver(side))
    ensures HasNext(m, side)
    ensures var x, y, f := Writer(m, side), Reader(m, side), NextTagged(m, side);
      var y' := Reader(Next(m, Deliver(side)), side);
      f.kind == FRAME_CLOSE && Listed(y, f.stream) ==>
        && f.stream in y'.objs && !Listed(y', f.stream) && !y'.objs[f.stream].queueOpen
        && Received(y'.objs[f.stream]) == Payload(x.out[..y.handled], f.stream)
        && Received(y'.objs[f.stream]) + Payload(x.out[y.handled + 1..], f.stream) == WrittenBy(x, f.stream)
  {
    PeerCloseReady(m, side);
    hide HasNext, Enabled, Next, EndOk, OutOk, AfterFrame, Payload, Received, FrameFits, HeardStream;
    var x, y, f := Writer(m, side), Reader(m, side), NextTagged(m, side);
    if f.kind == FRAME_CLOSE && Listed(y, f.stream) {
      SideFacts(m, side, f.stream);
      PeerCloseTakesAll(x, y, f);
      PeerCloseSplits(x, y, f);
    }
  }

  /** Accept.  At the acceptor a stream in the table has been handed out by Accept or
      waits for it in exactly one place of the backlog. */
  lemma AcceptedOnce(m: Net, h: Name)
    requires Reachable(m) && m.o.opens <= TWO_32 && h in m.a.objs && Listed(m.a, h)
    ensures m.a.objs[h].accepted <==> h !in m.a.backlog
    ensures forall i, j :: 0 <= i < j < |m.a.backlog| ==> m.a.backlog[i] != m.a.backlog[j]
  {
    ReachableInv(m);
  }
}
