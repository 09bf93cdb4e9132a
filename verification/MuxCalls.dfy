/** What whole calls come to, told without the steps they are made of: opening and closing
    a stream, closing the session, draining a queue, and each kind of frame that arrives. */
module MuxCalls {
  import opened Bytes
  import opened Framing
  import opened MuxWire
  import opened MuxModel
  import opened MuxRuns

  // ---- session Close ---------------------------------------------------------------

  /** Closing a session marks it closed, empties the table and closes the queue of every
      stream that was in it; it puts nothing out and leaves every other stream alone. */
  lemma CloseSessionDoes(e: End)
    ensures var t := CloseSession(e);
      && t.closed && t.out == e.out && t.tail == e.tail && t.dead == e.dead && t.objs.Keys == e.objs.Keys
      && (e.closed ==> t == e)
      && (!e.closed ==> t.table == map[])
      && (forall h :: h in e.objs && !e.closed && Listed(e, h) ==>
            t.objs[h].closeOnce && (!e.objs[h].closeOnce ==> !t.objs[h].queueOpen))
      && (forall h :: h in e.objs && !Listed(e, h) ==> t.objs[h] == e.objs[h])
  {
  }

  // a closed end neither opens a stream nor puts anything out
  predicate AtRest(e: End, t: End) {
    t.closed && t.opens == e.opens && t.out == e.out && t.tail == e.tail && t.dead == e.dead
  }

  /** On a closed session a write is refused, an OPEN or CLOSE frame is not sent, and no
      stream number is taken. */
  lemma ClosedRefuses(e: End, h: Name, chunk: seq<Byte>, r: Outcome)
    requires e.closed
    ensures Alloc(e) == e && WriteChunk(e, h, chunk, r) == e
    ensures AtRest(e, AnnounceOpen(e, h, r)) && AtRest(e, AnnounceClose(e, h, r))
    ensures h in e.objs && e.objs[h].opening == Registered ==> !Listed(AnnounceOpen(e, h, r), h)
    ensures CloseSession(e) == e
  {
  }

  lemma ClosedActs(e: End, a: Action)
    requires e.closed
    ensures AtRest(e, Act(e, a))
  {
    match a
    case DoAnnounceOpen(h, r) => ClosedRefuses(e, h, [], r);
    case DoWriteChunk(h, chunk, r) => ClosedRefuses(e, h, chunk, r);
    case DoAnnounceClose(h, r) => ClosedRefuses(e, h, [], r);
    case _ =>
  }

  lemma ClosedPushes(e: End, h: Name, p: seq<Byte>)
    requires e.closed && h in e.objs
    ensures AtRest(e, PushData(e, h, p)) && AtRest(e, BeginClose(e, h))
  {
  }

  lemma ClosedHandles(e: End, f: Frame, made: Name)
    requires e.closed
    ensures AtRest(e, HandleFrame(e, f, made))
  {
    hide PushData, BeginClose, CloseQueue;
    if f.kind == FRAME_OPEN {
      var t := Put(e, made, NewStream(f.id, Live, 0)).(table := e.table[f.id := made]);
      ClosedPushes(t, made, []);
    } else if f.id in e.table && e.table[f.id] in e.objs {
      ClosedPushes(e, e.table[f.id], f.payload);
    }
  }

  lemma ClosedDelivers(y: End, rx: seq<Byte>, x: End)
    requires y.closed
    ensures AtRest(y, DeliverFrom(y, rx, x))
  {
    hide HandleFrame;
    var fs := DecodeAll(CODEC, rx);
    if y.handled < |fs| {
      ClosedHandles(y, fs[y.handled], if y.handled < |x.out| then x.out[y.handled].stream else 0);
    }
  }

  lemma ClosedStep(n: Net, step: Step, side: Side)
    requires Reader(n, side).closed
    ensures AtRest(Reader(n, side), Reader(Next(n, step), side))
  {
    hide Act, DeliverFrom;
    match step
    case Local(at, a) => if at == side { ClosedActs(Reader(n, side), a); }
    case Deliver(Opener) => if side == Opener { ClosedDelivers(n.o, n.rxO, n.a); }
    case Deliver(Acceptor) => if side == Acceptor { ClosedDelivers(n.a, n.rxA, n.o); }
    case _ =>
  }

  lemma {:induction false} ClosedRun(n: Net, steps: seq<MuxModel.Step>, m: Net, side: Side)
    requires Run(n, steps, m) && Reader(n, side).closed
    ensures AtRest(Reader(n, side), Reader(m, side))
    decreases |steps|
  {
    hide Next, Enabled;
    if steps != [] {
      ClosedStep(n, steps[0], side);
      ClosedRun(Next(n, steps[0]), steps[1..], m, side);
    }
  }

  /** A session that was closed stays closed, however the run goes on: that end opens no
      further stream, and not a byte more goes onto its pipe. */
  lemma ClosedForGood(n: Net, side: Side, steps: seq<MuxModel.Step>, m: Net)
    requires Run(Next(n, Local(side, DoCloseSession)), steps, m)
    ensures var e, t := Reader(n, side), Reader(m, side);
      t.closed && t.opens == e.opens && Wire(t) == Wire(e)
  {
    var k := Next(n, Local(side, DoCloseSession));
    CloseSessionDoes(Reader(n, side));
    assert Reader(k, side) == CloseSession(Reader(n, side));
    ClosedRun(k, steps, m, side);
    hide Run, Listed;
  }

  // ---- opening and closing a stream ---------------------------------------------------

  // every stream but h is as it was
  ghost predicate OthersSame(e: End, t: End, h: Name) {
    forall g :: g in e.objs && g != h ==> g in t.objs && t.objs[g] == e.objs[g]
  }

  /** OpenStream sends one OPEN frame and leaves the stream in the table under the next id;
      when the frame cannot be sent the id is out of the table again. */
  lemma OpenStreamDoes(e: End, r: Outcome)
    requires !e.closed && e.opens !in e.objs
    ensures var h, id, t := e.opens, (e.nextID + 1) % 0x1_0000_0000, OpenStream(e, r);
      && h in t.objs && t.objs[h].id == id && t.nextID == id && t.opens == e.opens + 1 && OthersSame(e, t, h)
      && (Sends(e, r) ==>
            && t.objs[h].opening == Live && t.objs[h].queueOpen && t.objs[h].queue == [] && !t.objs[h].localClosed
            && t.table == e.table[id := h] && t.out == e.out + [Tagged(h, FRAME_OPEN, [])])
      && (!Sends(e, r) ==> t.objs[h].opening == Refused && t.table == e.table - {id} && t.out == e.out)
  {
  }

  /** The first Close of a stream takes it out of the table, sends one CLOSE frame if
      anything can be sent, and closes the queue; every further one does nothing. */
  lemma CloseStreamDoes(e: End, h: Name, r: Outcome, again: Outcome)
    requires h in e.objs && !e.objs[h].localClosed
    ensures var t := CloseStream(e, h, r);
      && h in t.objs && t.objs[h].localClosed && t.objs[h].closeOnce && OthersSame(e, t, h)
      && (!e.objs[h].closeOnce ==> !t.objs[h].queueOpen)
      && t.table == e.table - {e.objs[h].id} && t.objs[h].queue == e.objs[h].queue
      && t.out == (if Sends(e, r) then e.out + [Tagged(h, FRAME_CLOSE, [])] else e.out)
      && CloseStream(t, h, again) == t
  {
    BeginCloseDoes(e, h);
    var b := BeginClose(e, h);
    AnnounceCloseDoes(b, h, r);
    FinishCloseDoes(AnnounceClose(b, h, r), h);
    hide BeginClose, AnnounceClose, FinishClose, Send;
  }

  lemma BeginCloseDoes(e: End, h: Name)
    requires h in e.objs && !e.objs[h].localClosed
    ensures var t := BeginClose(e, h);
      && h in t.objs && t.objs[h] == e.objs[h].(localClosed := true, closing := Unlisted) && OthersSame(e, t, h)
      && t.table == e.table - {e.objs[h].id} && t.out == e.out && t.dead == e.dead && t.closed == e.closed
  {
  }

  lemma AnnounceCloseDoes(e: End, h: Name, r: Outcome)
    requires h in e.objs && e.objs[h].closing == Unlisted
    ensures var t := AnnounceClose(e, h, r);
      && h in t.objs && t.objs[h] == e.objs[h].(closing := Announced) && OthersSame(e, t, h) && t.table == e.table
      && t.out == (if Sends(e, r) then e.out + [Tagged(h, FRAME_CLOSE, [])] else e.out)
  {
  }

  lemma FinishCloseDoes(e: End, h: Name)
    requires h in e.objs && e.objs[h].closing == Announced
    ensures var t := FinishClose(e, h);
      && h in t.objs && t.objs[h].closeOnce && t.objs[h].localClosed == e.objs[h].localClosed && OthersSame(e, t, h)
      && (!e.objs[h].closeOnce ==> !t.objs[h].queueOpen) && t.objs[h].queue == e.objs[h].queue
      && (e.objs[h].closeOnce ==> t.objs[h].queueOpen == e.objs[h].queueOpen)
      && t.table == e.table && t.out == e.out
  {
  }

  // ---- stream Write -------------------------------------------------------------------------

  function DataFrames(h: Name, cs: seq<seq<Byte>>): seq<Tagged> {
    seq(|cs|, i requires 0 <= i < |cs| => Tagged(h, FRAME_DATA, cs[i]))
  }

  /** The chunks of a write go out as DATA frames of the stream, one for each, in order. */
  lemma {:induction false} WriteSendsData(e: End, h: Name, cs: seq<seq<Byte>>)
    requires Usable(e, h) && CanSend(e)
    ensures var t := WriteChunks(e, h, cs);
      && Usable(t, h) && CanSend(t)
      && t.out == e.out + DataFrames(h, cs) && t.objs[h].written == e.objs[h].written + Concat(cs)
  {
    if cs == [] {
      assert e.out + DataFrames(h, cs) == e.out;
      assert e.objs[h].written + Concat(cs) == e.objs[h].written;
    } else {
      var n := |cs| - 1;
      WriteSendsData(e, h, cs[..n]);
      assert cs == cs[..n] + [cs[n]];
      ConcatAppend(cs[..n], [cs[n]]);
      ConcatSingle(cs[n]);
      assert DataFrames(h, cs) == DataFrames(h, cs[..n]) + [Tagged(h, FRAME_DATA, cs[n])];
      Assoc(e.out, DataFrames(h, cs[..n]), [Tagged(h, FRAME_DATA, cs[n])]);
      Assoc(e.objs[h].written, Concat(cs[..n]), cs[n]);
      hide Concat, DataFrames;
    }
  }

  // ---- frames that arrive -----------------------------------------------------------------------

  /** An OPEN frame makes a stream under its id and puts it at the end of the backlog, which
      holds up to 1024. */
  lemma OpenArrives(e: End, id: Id, made: Name)
    requires made !in e.objs && |e.backlog| < 1024
    ensures var t := HandleFrame(e, Frame(1, id, []), made);
      && made in t.objs && t.objs[made] == NewStream(id, Live, 0) && OthersSame(e, t, made)
      && t.table == e.table[id := made] && t.backlog == e.backlog + [made]
  {
  }

  /** With 1024 waiting there the stream is closed and out of the table again. */
  lemma OpenOverflows(e: End, id: Id, made: Name)
    requires made !in e.objs && |e.backlog| >= 1024
    ensures var t := HandleFrame(e, Frame(1, id, []), made);
      && made in t.objs && t.objs[made].id == id && t.objs[made].localClosed && OthersSame(e, t, made)
      && t.table == e.table - {id} && t.backlog == e.backlog
  {
    hide BeginClose;
    var m := Put(e, made, NewStream(id, Live, 0)).(table := e.table[id := made]);
    BeginCloseDoes(m, made);
    BeginCloseQueues(m, made);
  }

  lemma BeginCloseQueues(e: End, h: Name)
    ensures BeginClose(e, h).backlog == e.backlog
  {
  }

  /** The payload of a DATA frame goes to the end of its stream's queue; with 256 chunks
      waiting there the stream is closed instead. */
  lemma DataArrives(e: End, id: Id, p: seq<Byte>, made: Name)
    requires id in e.table && e.table[id] in e.objs
    ensures var h := e.table[id];
      var s, t := e.objs[h], HandleFrame(e, Frame(2, id, p), made);
      && h in t.objs && OthersSame(e, t, h)
      && (p == [] ==> t == e)
      && (p != [] && s.queueOpen && |s.queue| < 256 ==>
            t.objs[h] == s.(queue := s.queue + [p]) && t.table == e.table)
      && (p != [] && s.queueOpen && |s.queue| >= 256 && !s.localClosed ==>
            t.objs[h].localClosed && t.objs[h].queue == s.queue && t.table == e.table - {s.id})
  {
  }

  /** A CLOSE frame closes its stream's queue and takes the stream out of the table; what
      waits in the queue stays. */
  lemma CloseArrives(e: End, id: Id, made: Name)
    requires id in e.table && e.table[id] in e.objs
    ensures var h := e.table[id];
      var s, t := e.objs[h], HandleFrame(e, Frame(3, id, []), made);
      && h in t.objs && OthersSame(e, t, h) && t.table == e.table - {id}
      && t.objs[h].closeOnce && (!s.closeOnce ==> !t.objs[h].queueOpen)
      && t.objs[h].queue == s.queue && t.objs[h].held == s.held && t.objs[h].buf == s.buf
  {
  }

  /** Any other frame, and one whose id is not in the table, is dropped. */
  lemma OthersDropped(e: End, f: Frame, made: Name)
    requires f.kind != 1 && (f.kind > 3 || f.kind == 0 || f.id !in e.table)
    ensures HandleFrame(e, f, made) == e
  {
  }

  // ---- ingestLoop ------------------------------------------------------------------------------------

  // its turns, one after the other, until nothing is queued or in hand
  function Drain(s: Stream): Stream
    decreases |s.queue|, |s.held|
  {
    if s.held != [] then Drain(IngestStore(s))
    else if s.queue != [] then Drain(IngestTake(s))
    else IngestEnd(s)
  }

  lemma TakeMoves(s: Stream)
    requires s.held == [] && s.queue != []
    ensures IngestTake(s) == s.(held := s.queue[0], queue := s.queue[1..])
    ensures s.buf + s.queue[0] + Concat(s.queue[1..]) == s.buf + s.held + Concat(s.queue)
  {
    ConcatFront(s.queue);
    hide Concat;
    Assoc(s.buf, s.queue[0], Concat(s.queue[1..]));
    assert s.buf + [] == s.buf;
  }

  lemma StoreMoves(s: Stream)
    ensures IngestStore(s) == s.(buf := s.buf + s.held, held := [])
    ensures s.buf + s.held + [] == s.buf + s.held
  {
  }

  /** Left to itself it stores every byte that has reached the stream, in order, behind what
      is buffered, and when the queue is closed it says so. */
  lemma {:induction false} DrainStoresAll(s: Stream)
    ensures var t := Drain(s);
      && t.queue == [] && t.held == [] && t.buf == s.buf + s.held + Concat(s.queue)
      && t.delivered == s.delivered && t.queueOpen == s.queueOpen
      && (!s.queueOpen ==> t.readClosed)
    decreases |s.queue|, |s.held|
  {
    hide IngestTake, IngestStore;
    if s.held != [] {
      StoreMoves(s);
      hide Concat;
      DrainStoresAll(IngestStore(s));
    } else if s.queue != [] {
      TakeMoves(s);
      hide Concat;
      DrainStoresAll(IngestTake(s));
    } else {
      assert Concat(s.queue) == [];
    }
  }

  /** A Read with room for all then returns all of it, and the Read after that the end of
      the stream. */
  lemma EndIsReached(s: Stream)
    requires !s.queueOpen
    ensures var t := Drain(s);
      var (u, all) := ReadBytes(t, |t.buf|);
      && all == s.buf + s.held + Concat(s.queue) && u.delivered == Received(s)
      && ReadBytes(u, 1).0.eof && ReadBytes(u, 1).1 == []
  {
    DrainStoresAll(s);
    ReadTakesFront(Drain(s), |Drain(s).buf|);
    hide Drain, Concat;
    Assoc(s.delivered, s.buf, s.held);
    Assoc(s.delivered, s.buf + s.held, Concat(s.queue));
    assert s.delivered + s.buf + s.held + Concat(s.queue) == s.delivered + (s.buf + s.held + Concat(s.queue));
  }
}
