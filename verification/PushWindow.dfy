/** The window that the steps of MuxModel leave out.  On a DATA frame, handleFrame finds
    the stream, lets go of the table's lock, and pushes to the stream's queue; another
    goroutine may close the stream in between.  Here the pair is two steps, over the ends
    and functions of MuxModel. */
module PushWindow {
  import opened Wrappers
  import opened Bytes
  import opened Framing
  import opened MuxWire
  import opened MuxModel
  import opened MuxRuns

  // the table leads from the frame to a stream
  predicate Finds(e: End, f: Frame) {
    f.kind == FRAME_DATA && f.id in e.table && e.table[f.id] in e.objs
  }

  // the stream that readLoop has found and not pushed to yet, and the frame
  datatype Found = Found(stream: Name, frame: Frame)

  function Find(e: End, f: Frame): Found
    requires Finds(e, f)
  {
    Found(e.table[f.id], f)
  }

  function Push(e: End, found: Found): End {
    if found.stream in e.objs then PushData(e, found.stream, found.frame.payload) else e
  }

  /** With nothing in between, the pair is the step of MuxModel. */
  lemma PairIsHandle(e: End, f: Frame, made: Name)
    requires Finds(e, f)
    ensures Push(e, Find(e, f)) == HandleFrame(e, f, made)
  {
  }

  // ---- one end, whatever its peer sends -----------------------------------------------

  datatype State = State(e: End, found: Option<Found>)

  const BEGIN := State(NewEnd(), None)

  datatype EndStep =
    | Do(a: Action)                    // any other goroutine
    | Handle(f: Frame, made: Name)     // an OPEN or CLOSE frame, or one that finds nothing
    | Look(f: Frame)                   // the first half of a DATA frame: find the stream
    | Hand                             // the second half: push to it

  // streams get new names; while it has a stream in hand, readLoop handles no frame
  predicate Can(s: State, step: EndStep) {
    match step
    case Do(a) => a.DoAlloc? ==> s.e.opens !in s.e.objs
    case Handle(f, made) => s.found.None? && !Finds(s.e, f) && (f.kind == FRAME_OPEN ==> made !in s.e.objs)
    case Look(f) => s.found.None? && Finds(s.e, f)
    case Hand => s.found.Some?
  }

  function After(s: State, step: EndStep): State
    requires Can(s, step)
  {
    match step
    case Do(a) => s.(e := Act(s.e, a))
    case Handle(f, made) => s.(e := HandleFrame(s.e, f, made))
    case Look(f) => s.(found := Some(Find(s.e, f)))
    case Hand => State(Push(s.e, s.found.value), None)
  }

  ghost predicate Trace(states: seq<State>, steps: seq<EndStep>) {
    && |states| == |steps| + 1 && states[0] == BEGIN
    && (forall i :: 0 <= i < |steps| ==> Can(states[i], steps[i]) && states[i + 1] == After(states[i], steps[i]))
  }

  predicate Open(s: State, h: Name) {
    h in s.e.objs && s.e.objs[h].queueOpen
  }

  predicate Misused(s: State, h: Name) {
    h in s.e.objs && s.e.objs[h].misused
  }

  // found at i with something to push and pushed to at k, with no push in between, and at
  // j its queue is closed
  ghost predicate Window(states: seq<State>, steps: seq<EndStep>, h: Name, i: nat, j: nat, k: nat) {
    && i < j < k < |steps| < |states|
    && steps[i].Look? && states[i + 1].found == Some(Found(h, steps[i].f)) && steps[i].f.payload != []
    && steps[k].Hand? && (forall m :: i < m < k ==> !steps[m].Hand?)
    && Open(states[j], h) && !Open(states[j + 1], h)
  }

  // ---- what every step keeps ------------------------------------------------------------

  predicate StreamOk(s: Stream) {
    && (s.closeOnce <==> !s.queueOpen)
    && (s.opening == Allocated ==> s.queueOpen && s.closing == Working)
  }

  // a stream in the table has an open queue and no Close under way
  ghost predicate Sound(e: End) {
    && (forall h :: h in e.objs ==> StreamOk(e.objs[h]))
    && (forall h :: h in e.objs && Listed(e, h) ==> InUse(e.objs[h]))
    && (forall i :: i in e.table ==> e.table[i] in e.objs && e.objs[e.table[i]].id == i)
  }

  predicate InUse(s: Stream) {
    s.queueOpen && s.closing == Working && s.opening != Allocated
  }

  // no stream goes, no queue opens again, and none is misused
  predicate QuietStream(s: Stream, t: Stream) {
    && t.misused == s.misused && (t.queueOpen ==> s.queueOpen)
    && (t.opening == Allocated ==> s.opening == Allocated)
  }

  ghost predicate Kept(e: End, n: End) {
    && Sound(n)
    && (forall h :: h in e.objs ==> h in n.objs && QuietStream(e.objs[h], n.objs[h]))
    && (forall h :: h in n.objs && h !in e.objs ==> !n.objs[h].misused)
  }

  lemma KeptTwice(e: End, m: End, n: End)
    requires Kept(e, m) && Kept(m, n)
    ensures Kept(e, n)
  {
    hide Sound;
  }

  // only the streams and the table matter
  lemma KeptSame(e: End, n: End)
    requires Sound(e) && n.objs == e.objs && n.table == e.table
    ensures Kept(e, n)
  {
    hide StreamOk, InUse;
    assert forall h :: h in e.objs ==> (Listed(n, h) <==> Listed(e, h));
  }

  lemma UnlistKeeps(e: End, id: Id)
    requires Sound(e)
    ensures Kept(e, Unlist(e, id))
  {
    hide StreamOk, InUse, QuietStream;
    assert forall h :: h in e.objs && Listed(Unlist(e, id), h) ==> Listed(e, h);
    AllQuiet(e);
  }

  lemma PutKeeps(e: End, h: Name, t: Stream)
    requires Sound(e) && h in e.objs && StreamOk(t) && QuietStream(e.objs[h], t) && t.id == e.objs[h].id
    requires Listed(e, h) ==> InUse(t)
    ensures Kept(e, Put(e, h, t))
  {
    hide StreamOk, InUse, QuietStream, Listed;
    var n := Put(e, h, t);
    forall g | g in n.objs
      ensures Listed(n, g) <==> Listed(e, g)
      ensures g in e.objs
    {
      PutListed(e, h, t, g);
    }
    AllQuiet(e);
  }

  lemma PutListed(e: End, h: Name, t: Stream, g: Name)
    ensures h in e.objs && t.id == e.objs[h].id ==> (Listed(Put(e, h, t), g) <==> Listed(e, g))
    ensures h !in e.objs && g in e.objs ==> (Listed(Put(e, h, t), g) <==> Listed(e, g))
  {
  }

  // a stream that no name in the table leads to
  lemma AddKeeps(e: End, h: Name, t: Stream)
    requires Sound(e) && h !in e.objs && StreamOk(t) && !t.misused
    ensures Kept(e, Put(e, h, t))
  {
    hide StreamOk, InUse, QuietStream, Listed;
    var n := Put(e, h, t);
    forall g | g in n.objs
      ensures g != h ==> (Listed(n, g) <==> Listed(e, g))
      ensures g == h ==> !Listed(n, g)
    {
      PutListed(e, h, t, g);
      NewUnlisted(e, h, t);
    }
    AllQuiet(e);
  }

  lemma NewUnlisted(e: End, h: Name, t: Stream)
    requires Sound(e) && h !in e.objs
    ensures !Listed(Put(e, h, t), h)
  {
    hide StreamOk, InUse;
  }

  lemma AllQuiet(e: End)
    ensures forall h :: h in e.objs ==> QuietStream(e.objs[h], e.objs[h])
  {
  }

  // what most steps do: the stream's name, queue and closing stay as they are
  predicate Alike(s: Stream, t: Stream) {
    && t.id == s.id && t.misused == s.misused && t.queueOpen == s.queueOpen && t.closeOnce == s.closeOnce
    && t.closing == s.closing && t.opening == s.opening
  }

  lemma AlikeKeeps(e: End, h: Name, t: Stream)
    requires Sound(e) && h in e.objs && Alike(e.objs[h], t)
    ensures Kept(e, Put(e, h, t))
  {
    StreamFacts(e, h);
    PutKeeps(e, h, t);
  }

  lemma StreamFacts(e: End, h: Name)
    requires Sound(e) && h in e.objs
    ensures StreamOk(e.objs[h]) && (Listed(e, h) ==> InUse(e.objs[h]))
  {
    hide StreamOk, InUse;
  }

  // ---- the steps of an end ------------------------------------------------------------------

  lemma AllocKeeps(e: End)
    requires Sound(e) && e.opens !in e.objs
    ensures Kept(e, Alloc(e))
  {
    hide Sound, Kept;
    KeptSame(e, e);
    var id := (e.nextID + 1) % TWO_32;
    var m := Put(e, e.opens, NewStream(id, Allocated, 0));
    AddKeeps(e, e.opens, NewStream(id, Allocated, 0));
    KeptSound(e, m);
    KeptSame(m, m.(nextID := id, opens := e.opens + 1));
    KeptTwice(e, m, m.(nextID := id, opens := e.opens + 1));
  }

  lemma EnterKeeps(e: End, h: Name)
    requires Sound(e) && h in e.objs && InUse(e.objs[h])
    ensures Kept(e, e.(table := e.table[e.objs[h].id := h]))
  {
    hide StreamOk, InUse, QuietStream;
    var n := e.(table := e.table[e.objs[h].id := h]);
    assert forall g :: g in e.objs && g != h && Listed(n, g) ==> Listed(e, g);
    AllQuiet(e);
  }

  lemma RegisterKeeps(e: End, h: Name)
    requires Sound(e)
    ensures Kept(e, Register(e, h))
  {
    KeptSame(e, e);
    if h in e.objs && e.objs[h].opening == Allocated {
      StreamFacts(e, h);
      var t := e.objs[h].(opening := Registered);
      PutKeeps(e, h, t);
      var m := Put(e, h, t);
      EnterKeeps(m, h);
      KeptTwice(e, m, m.(table := m.table[m.objs[h].id := h]));
    }
    hide Sound, Kept;
  }

  // a change of one stream together with something sent
  lemma SendAndPut(e: End, f: Tagged, r: Outcome, h: Name, t: Stream)
    requires Sound(e) && h in e.objs && StreamOk(t) && QuietStream(e.objs[h], t) && t.id == e.objs[h].id
    requires Listed(e, h) ==> InUse(t)
    ensures Kept(e, Send(e, f, r)) && Kept(e, Put(Send(e, f, r), h, t))
  {
    hide StreamOk, InUse, QuietStream, Sound, Kept;
    var m := Send(e, f, r);
    assert m.objs == e.objs && m.table == e.table;
    KeptSame(e, m);
    KeptSound(e, m);
    PutKeeps(m, h, t);
    KeptTwice(e, m, Put(m, h, t));
  }

  lemma KeptSound(e: End, n: End)
    requires Kept(e, n)
    ensures Sound(n)
  {
    hide Sound;
  }

  lemma AnnounceOpenKeeps(e: End, h: Name, r: Outcome)
    requires Sound(e)
    ensures Kept(e, AnnounceOpen(e, h, r))
  {
    hide Sound, Kept, Send;
    KeptSame(e, e);
    if h in e.objs && e.objs[h].opening == Registered {
      StreamFacts(e, h);
      SendAndPut(e, Tagged(h, FRAME_OPEN, []), r, h, e.objs[h].(opening := Live, openedAt := |e.out|));
      RefuseKeeps(e, h, r);
    }
  }

  lemma RefuseKeeps(e: End, h: Name, r: Outcome)
    requires Sound(e) && h in e.objs && e.objs[h].opening == Registered
    ensures var m := Put(Send(e, Tagged(h, FRAME_OPEN, []), r), h, e.objs[h].(opening := Refused));
      Kept(e, Unlist(m, e.objs[h].id))
  {
    hide Sound, Kept, Send;
    StreamFacts(e, h);
    var f, t := Tagged(h, FRAME_OPEN, []), e.objs[h].(opening := Refused);
    SendAndPut(e, f, r, h, t);
    var m := Put(Send(e, f, r), h, t);
    KeptSound(e, m);
    UnlistKeeps(m, t.id);
    KeptTwice(e, m, Unlist(m, t.id));
  }

  lemma WriteChunkKeeps(e: End, h: Name, chunk: seq<Byte>, r: Outcome)
    requires Sound(e)
    ensures Kept(e, WriteChunk(e, h, chunk, r))
  {
    KeptSame(e, e);
    if Usable(e, h) {
      StreamFacts(e, h);
      SendAndPut(e, Tagged(h, FRAME_DATA, chunk), r, h, e.objs[h].(written := e.objs[h].written + chunk));
    }
    hide Sound, Kept, Send;
  }

  lemma BeginCloseKeeps(e: End, h: Name)
    requires Sound(e) && (h in e.objs ==> e.objs[h].opening != Allocated)
    ensures Kept(e, BeginClose(e, h))
  {
    KeptSame(e, e);
    if h in e.objs && !e.objs[h].localClosed {
      StreamFacts(e, h);
      var id, t := e.objs[h].id, e.objs[h].(localClosed := true, closing := Unlisted);
      var u := Unlist(e, id);
      UnlistKeeps(e, id);
      KeptSound(e, u);
      PutKeeps(u, h, t);
      KeptTwice(e, u, Put(u, h, t));
      assert Unlist(Put(e, h, t), id) == Put(u, h, t);
    }
    hide Sound, Kept;
  }

  lemma AnnounceCloseKeeps(e: End, h: Name, r: Outcome)
    requires Sound(e)
    ensures Kept(e, AnnounceClose(e, h, r))
  {
    KeptSame(e, e);
    if h in e.objs && e.objs[h].closing == Unlisted {
      StreamFacts(e, h);
      SendAndPut(e, Tagged(h, FRAME_CLOSE, []), r, h, e.objs[h].(closing := Announced));
    }
    hide Sound, Kept, Send;
  }

  lemma FinishCloseKeeps(e: End, h: Name)
    requires Sound(e)
    ensures Kept(e, FinishClose(e, h))
  {
    KeptSame(e, e);
    if h in e.objs && e.objs[h].closing == Announced {
      StreamFacts(e, h);
      PutKeeps(e, h, CloseQueue(e.objs[h]).(closing := Finished));
    }
    hide Sound, Kept;
  }

  lemma CloseSessionKeeps(e: End)
    requires Sound(e)
    ensures Kept(e, CloseSession(e))
  {
    hide Listed;
    KeptSame(e, e);
    var n := CloseSession(e);
    if !e.closed {
      forall h | h in e.objs
        ensures StreamOk(n.objs[h]) && QuietStream(e.objs[h], n.objs[h]) && !Listed(n, h)
      {
        StreamFacts(e, h);
        NoneListed(n, h);
      }
    }
    hide StreamOk, QuietStream, InUse;
  }

  lemma NoneListed(n: End, h: Name)
    ensures n.table == map[] ==> !Listed(n, h)
  {
  }

  lemma TakeAlike(s: Stream)
    ensures Alike(s, IngestTake(s))
  {
    hide Alike;
    QueueAlike(s, s.queue, s.held);
    if s.queue != [] {
      QueueAlike(s, s.queue[1..], s.queue[0]);
    }
  }

  lemma QueueAlike(s: Stream, queue: seq<seq<Byte>>, held: seq<Byte>)
    ensures Alike(s, s.(held := held, queue := queue))
  {
  }

  lemma StoreAlike(s: Stream)
    ensures Alike(s, IngestStore(s))
  {
  }

  lemma EndAlike(s: Stream)
    ensures Alike(s, IngestEnd(s))
  {
  }

  lemma ReadAlike(s: Stream, room: nat)
    ensures Alike(s, ReadBytes(s, room).0)
  {
    hide Alike;
    if s.buf == [] {
      BufferAlike(s, s.buf, s.delivered, s.eof || s.readClosed);
    } else {
      var n := if room <= |s.buf| then room else |s.buf|;
      BufferAlike(s, s.buf[n..], s.delivered + s.buf[..n], s.eof);
    }
  }

  lemma BufferAlike(s: Stream, buf: seq<Byte>, delivered: seq<Byte>, eof: bool)
    ensures Alike(s, s.(buf := buf, delivered := delivered, eof := eof))
  {
  }

  lemma ReadersKeep(e: End, h: Name, room: nat)
    requires Sound(e) && h in e.objs
    ensures Kept(e, Put(e, h, IngestTake(e.objs[h]))) && Kept(e, Put(e, h, IngestStore(e.objs[h])))
    ensures Kept(e, Put(e, h, IngestEnd(e.objs[h]))) && Kept(e, Put(e, h, ReadBytes(e.objs[h], room).0))
  {
    hide Kept, Sound, Alike, IngestTake, IngestStore, IngestEnd, ReadBytes;
    TakeAlike(e.objs[h]);
    StoreAlike(e.objs[h]);
    EndAlike(e.objs[h]);
    ReadAlike(e.objs[h], room);
    AlikeKeeps(e, h, IngestTake(e.objs[h]));
    AlikeKeeps(e, h, IngestStore(e.objs[h]));
    AlikeKeeps(e, h, IngestEnd(e.objs[h]));
    AlikeKeeps(e, h, ReadBytes(e.objs[h], room).0);
  }

  lemma AcceptKeeps(e: End)
    requires Sound(e)
    ensures Kept(e, AcceptStream(e))
  {
    KeptSame(e, e);
    if e.backlog != [] && e.backlog[0] in e.objs {
      var m := Put(e, e.backlog[0], e.objs[e.backlog[0]].(accepted := true));
      AlikeKeeps(e, e.backlog[0], e.objs[e.backlog[0]].(accepted := true));
      KeptSound(e, m);
      KeptSame(m, m.(backlog := e.backlog[1..]));
      KeptTwice(e, m, m.(backlog := e.backlog[1..]));
    }
    hide Sound, Kept;
  }

  lemma ActKeeps(e: End, a: Action)
    requires Sound(e) && (a.DoAlloc? ==> e.opens !in e.objs)
    ensures Kept(e, Act(e, a))
  {
    hide Sound, Kept, Alloc, Register, AnnounceOpen, WriteChunk, BeginClose, AnnounceClose, FinishClose;
    hide AcceptStream, CloseSession, IngestTake, IngestStore, IngestEnd, ReadBytes;
    KeptSame(e, e);
    match a
    case DoAlloc => AllocKeeps(e);
    case DoRegister(h) => RegisterKeeps(e, h);
    case DoAnnounceOpen(h, r) => AnnounceOpenKeeps(e, h, r);
    case DoWriteChunk(h, chunk, r) => WriteChunkKeeps(e, h, chunk, r);
    case DoBeginClose(h) => if Usable(e, h) { BeginCloseKeeps(e, h); }
    case DoAnnounceClose(h, r) => AnnounceCloseKeeps(e, h, r);
    case DoFinishClose(h) => FinishCloseKeeps(e, h);
    case DoIngestTake(h) => if h in e.objs { ReadersKeep(e, h, 0); }
    case DoIngestStore(h) => if h in e.objs { ReadersKeep(e, h, 0); }
    case DoIngestEnd(h) => if h in e.objs { ReadersKeep(e, h, 0); }
    case DoRead(h, room) => if h in e.objs { ReadersKeep(e, h, room); }
    case DoAccept => AcceptKeeps(e);
    case DoCloseSession => CloseSessionKeeps(e);
  }

  lemma MakeKeeps(e: End, id: Id, made: Name)
    requires Sound(e) && made !in e.objs
    ensures Kept(e, Put(e, made, NewStream(id, Live, 0)).(table := e.table[id := made]))
  {
    hide Sound, Kept;
    var m := Put(e, made, NewStream(id, Live, 0));
    AddKeeps(e, made, NewStream(id, Live, 0));
    KeptSound(e, m);
    EnterKeeps(m, made);
    KeptTwice(e, m, m.(table := m.table[id := made]));
  }

  lemma HandleOpenKeeps(e: End, f: Frame, made: Name)
    requires Sound(e) && f.kind == FRAME_OPEN && made !in e.objs
    ensures Kept(e, HandleFrame(e, f, made))
  {
    hide Sound, Kept, BeginClose;
    var m := Put(e, made, NewStream(f.id, Live, 0)).(table := e.table[f.id := made]);
    MakeKeeps(e, f.id, made);
    KeptSound(e, m);
    KeptSame(m, m.(backlog := e.backlog + [made]));
    KeptTwice(e, m, m.(backlog := e.backlog + [made]));
    BeginCloseKeeps(m, made);
    KeptTwice(e, m, BeginClose(m, made));
  }

  lemma HandleCloseKeeps(e: End, f: Frame, made: Name)
    requires Sound(e) && f.kind == FRAME_CLOSE && f.id in e.table && e.table[f.id] in e.objs
    ensures Kept(e, HandleFrame(e, f, made))
  {
    var h := e.table[f.id];
    var t := CloseQueue(e.objs[h]);
    assert e.objs[h].id == f.id;
    StreamFacts(e, h);
    var u := Unlist(e, f.id);
    UnlistKeeps(e, f.id);
    KeptSound(e, u);
    PutKeeps(u, h, t);
    KeptTwice(e, u, Put(u, h, t));
    assert Unlist(Put(e, h, t), f.id) == Put(u, h, t);
    hide Sound, Kept;
  }

  lemma HandleKeeps(e: End, f: Frame, made: Name)
    requires Sound(e) && !Finds(e, f) && (f.kind == FRAME_OPEN ==> made !in e.objs)
    ensures Kept(e, HandleFrame(e, f, made))
  {
    if f.kind == FRAME_OPEN {
      HandleOpenKeeps(e, f, made);
    } else if f.kind == FRAME_CLOSE && f.id in e.table && e.table[f.id] in e.objs {
      HandleCloseKeeps(e, f, made);
    } else {
      KeptSame(e, e);
    }
    hide Sound, Kept, BeginClose;
  }

  /** A push does to its stream what the queue's state says: on a closed queue, and only
      there, it is the misuse; every other stream stays as it was. */
  lemma PushDoes(e: End, found: Found)
    requires Sound(e) && found.stream in e.objs && e.objs[found.stream].opening != Allocated
    ensures var n, h := Push(e, found), found.stream;
      && Sound(n) && n.objs.Keys == e.objs.Keys
      && (forall g :: g in e.objs && g != h ==> n.objs[g] == e.objs[g])
      && (n.objs[h].misused <==> e.objs[h].misused || (found.frame.payload != [] && !e.objs[h].queueOpen))
      && n.objs[h].queueOpen == e.objs[h].queueOpen && n.objs[h].opening == e.objs[h].opening
  {
    hide Sound, Kept, BeginClose, Enqueue;
    var h, p := found.stream, found.frame.payload;
    BeginCloseKeeps(e, h);
    KeptSound(e, BeginClose(e, h));
    BeginCloseDoes(e, h);
    EnqueueSound(e, h, p);
    EnqueueDoes(e.objs[h], p);
  }

  lemma EnqueueDoes(s: Stream, p: seq<Byte>)
    ensures var t := Enqueue(s, p);
      t.misused == (s.misused || !s.queueOpen) && t.queueOpen == s.queueOpen && t.opening == s.opening
  {
  }

  lemma BeginCloseDoes(e: End, h: Name)
    requires h in e.objs
    ensures var n := BeginClose(e, h);
      && n.objs.Keys == e.objs.Keys && (forall g :: g in e.objs && g != h ==> n.objs[g] == e.objs[g])
      && n.objs[h].misused == e.objs[h].misused && n.objs[h].queueOpen == e.objs[h].queueOpen
      && n.objs[h].opening == e.objs[h].opening
  {
  }

  lemma EnqueueSound(e: End, h: Name, p: seq<Byte>)
    requires Sound(e) && h in e.objs
    ensures Sound(Put(e, h, Enqueue(e.objs[h], p)))
  {
    var n := Put(e, h, Enqueue(e.objs[h], p));
    assert forall g :: g in n.objs ==> (Listed(n, g) <==> Listed(e, g));
  }

  // ---- runs of one end ------------------------------------------------------------------------

  ghost predicate StateOk(s: State) {
    && Sound(s.e)
    && (s.found.Some? ==> var h := s.found.value.stream; h in s.e.objs && s.e.objs[h].opening != Allocated)
  }

  // the push of this step meets a closed queue
  predicate Meets(s: State, step: EndStep, h: Name) {
    && step.Hand? && s.found.Some? && s.found.value.stream == h && s.found.value.frame.payload != []
    && !Open(s, h)
  }

  lemma FoundIsOpen(s: State, f: Frame)
    requires Sound(s.e) && Can(s, Look(f))
    ensures Open(s, s.e.table[f.id]) && s.e.objs[s.e.table[f.id]].opening != Allocated
  {
    StreamFacts(s.e, s.e.table[f.id]);
  }

  lemma KeptAt(e: End, n: End, h: Name)
    requires Kept(e, n)
    ensures h in e.objs ==> h in n.objs && QuietStream(e.objs[h], n.objs[h])
    ensures h in n.objs && h !in e.objs ==> !n.objs[h].misused
  {
    hide Sound;
  }

  lemma StepKeeps(s: State, step: EndStep)
    requires StateOk(s) && Can(s, step)
    ensures StateOk(After(s, step))
  {
    hide Sound, Kept, Act, HandleFrame, Push;
    match step
    case Do(a) => ActKeeps(s.e, a); FoundStays(s, Act(s.e, a));
    case Handle(f, made) => HandleKeeps(s.e, f, made); FoundStays(s, HandleFrame(s.e, f, made));
    case Look(f) => FoundIsOpen(s, f);
    case Hand => PushDoes(s.e, s.found.value);
  }

  lemma FoundStays(s: State, n: End)
    requires StateOk(s) && Kept(s.e, n)
    ensures StateOk(s.(e := n))
  {
    KeptSound(s.e, n);
    if s.found.Some? {
      KeptAt(s.e, n, s.found.value.stream);
    }
    hide Sound, Kept;
  }

  // a step misuses a queue exactly when its push meets a closed one; no queue opens again
  lemma StepDoes(s: State, step: EndStep, h: Name)
    requires StateOk(s) && Can(s, step)
    ensures var t := After(s, step);
      && (Misused(t, h) <==> Misused(s, h) || Meets(s, step, h))
      && (h in s.e.objs ==> h in t.e.objs && (Open(t, h) ==> Open(s, h)))
  {
    hide Sound, Kept, Act, HandleFrame, Push;
    match step
    case Do(a) => ActKeeps(s.e, a); KeptAt(s.e, Act(s.e, a), h);
    case Handle(f, made) => HandleKeeps(s.e, f, made); KeptAt(s.e, HandleFrame(s.e, f, made), h);
    case Look(f) =>
    case Hand => PushDoes(s.e, s.found.value);
  }

  lemma {:induction false} TraceOk(states: seq<State>, steps: seq<EndStep>, n: nat)
    requires Trace(states, steps) && n <= |steps|
    ensures StateOk(states[n])
  {
    if n > 0 {
      TraceOk(states, steps, n - 1);
      hide StateOk, After, Can;
      assert Can(states[n - 1], steps[n - 1]) && states[n] == After(states[n - 1], steps[n - 1]);
      StepKeeps(states[n - 1], steps[n - 1]);
    }
  }

  // one step of a trace, as StepDoes has it
  lemma TraceStep(states: seq<State>, steps: seq<EndStep>, n: nat, h: Name)
    requires Trace(states, steps) && n < |steps|
    ensures Misused(states[n + 1], h) <==> Misused(states[n], h) || Meets(states[n], steps[n], h)
    ensures h in states[n].e.objs ==> h in states[n + 1].e.objs && (Open(states[n + 1], h) ==> Open(states[n], h))
    ensures steps[n].Hand? ==> states[n].found.Some? && states[n + 1].found.None?
    ensures steps[n].Look? ==> states[n].found.None? && states[n + 1].e == states[n].e
    ensures !steps[n].Hand? && !steps[n].Look? ==> states[n + 1].found == states[n].found
  {
    TraceOk(states, steps, n);
    assert Can(states[n], steps[n]) && states[n + 1] == After(states[n], steps[n]);
    StepDoes(states[n], steps[n], h);
    hide StateOk, Act, HandleFrame, Push, Find, Finds, Meets, Open, Misused;
  }

  lemma {:induction false} WhereFound(states: seq<State>, steps: seq<EndStep>, k: nat) returns (i: nat)
    requires Trace(states, steps) && k <= |steps| && states[k].found.Some?
    ensures i < k && steps[i].Look? && states[i + 1].found == states[k].found
    ensures states[k].found.value.frame == steps[i].f && Open(states[i + 1], states[k].found.value.stream)
    ensures forall m :: i < m < k ==> !steps[m].Hand?
  {
    assert k > 0;
    TraceStep(states, steps, k - 1, 0);
    if steps[k - 1].Look? {
      i := k - 1;
      TraceOk(states, steps, i);
      assert Can(states[i], steps[i]) && states[k] == After(states[i], steps[i]);
      FoundIsOpen(states[i], steps[i].f);
    } else {
      i := WhereFound(states, steps, k - 1);
    }
  }

  lemma {:induction false} WhereClosed(states: seq<State>, steps: seq<EndStep>, h: Name, i: nat, k: nat)
      returns (j: nat)
    requires |states| == |steps| + 1 && i <= k <= |steps| && Open(states[i], h) && !Open(states[k], h)
    ensures i <= j < k && Open(states[j], h) && !Open(states[j + 1], h)
  {
    hide Open;
    if Open(states[k - 1], h) {
      j := k - 1;
    } else {
      j := WhereClosed(states, steps, h, i, k - 1);
    }
  }

  lemma {:induction false} StaysSo(states: seq<State>, steps: seq<EndStep>, h: Name, a: nat, b: nat)
    requires Trace(states, steps) && a <= b <= |steps| && h in states[a].e.objs
    ensures h in states[b].e.objs
    ensures !Open(states[a], h) ==> !Open(states[b], h)
    ensures Misused(states[a], h) ==> Misused(states[b], h)
  {
    hide Trace, Meets, Open, Misused;
    if a < b {
      StaysSo(states, steps, h, a, b - 1);
      TraceStep(states, steps, b - 1, h);
    }
  }

  lemma {:induction false} StaysFound(states: seq<State>, steps: seq<EndStep>, a: nat, b: nat)
    requires Trace(states, steps) && a <= b <= |steps| && states[a].found.Some?
    requires forall m :: a <= m < b ==> !steps[m].Hand?
    ensures states[b].found == states[a].found
  {
    hide Trace, Meets, Open, Misused;
    if a < b {
      StaysFound(states, steps, a, b - 1);
      TraceStep(states, steps, b - 1, 0);
    }
  }

  lemma {:induction false} MisuseHasWindow(states: seq<State>, steps: seq<EndStep>, h: Name, n: nat)
      returns (i: nat, j: nat, k: nat)
    requires Trace(states, steps) && n <= |steps| && Misused(states[n], h)
    ensures Window(states, steps, h, i, j, k)
  {
    hide Misused, Meets, Window, Can, After;
    CleanStart(h);
    assert n > 0;
    TraceStep(states, steps, n - 1, h);
    if Misused(states[n - 1], h) {
      i, j, k := MisuseHasWindow(states, steps, h, n - 1);
    } else {
      k := n - 1;
      i, j := MeetsInWindow(states, steps, h, k);
    }
  }

  lemma CleanStart(h: Name)
    ensures !Misused(BEGIN, h)
  {
  }

  lemma MeetsInWindow(states: seq<State>, steps: seq<EndStep>, h: Name, k: nat) returns (i: nat, j: nat)
    requires Trace(states, steps) && k < |steps| && Meets(states[k], steps[k], h)
    ensures Window(states, steps, h, i, j, k)
  {
    hide Open;
    i := WhereFound(states, steps, k);
    j := WhereClosed(states, steps, h, i + 1, k);
  }

  /** In every run of an end, with any frames from its peer: a push meets a stream's closed
      queue if and only if the queue was closed between finding the stream and pushing to
      it.  Where the pair is one step there is no such place, and no push does. */
  lemma MisuseIffClosedBetween(states: seq<State>, steps: seq<EndStep>, h: Name)
    requires Trace(states, steps)
    ensures Misused(states[|steps|], h) <==> exists i: nat, j: nat, k: nat :: Window(states, steps, h, i, j, k)
  {
    hide Misused, Open, Window;
    if Misused(states[|steps|], h) {
      var i, j, k := MisuseHasWindow(states, steps, h, |steps|);
    }
    forall i: nat, j: nat, k: nat | Window(states, steps, h, i, j, k)
      ensures Misused(states[|steps|], h)
    {
      WindowMisuses(states, steps, h, i, j, k);
    }
  }

  lemma WindowMisuses(states: seq<State>, steps: seq<EndStep>, h: Name, i: nat, j: nat, k: nat)
    requires Trace(states, steps) && Window(states, steps, h, i, j, k)
    ensures Misused(states[|steps|], h)
  {
    TraceStep(states, steps, j, h);
    StaysFound(states, steps, i + 1, k);
    StaysSo(states, steps, h, j + 1, k);
    TraceStep(states, steps, k, h);
    assert Meets(states[k], steps[k], h);
    StaysSo(states, steps, h, k + 1, |steps|);
    hide Trace;
  }

  /** Such a run: a stream is opened, found for a frame, closed, and pushed to. */
  lemma CloseInWindow(id: Id, p: seq<Byte>) returns (states: seq<State>, steps: seq<EndStep>)
    requires p != []
    ensures Trace(states, steps) && Misused(states[|steps|], 0)
  {
    var open, data := Frame(FRAME_OPEN, id, []), Frame(FRAME_DATA, id, p);
    var s1 := After(BEGIN, Handle(open, 0));
    var s2 := After(s1, Look(data));
    var s3 := After(s2, Do(DoBeginClose(0)));
    var s4 := After(s3, Do(DoAnnounceClose(0, Sent)));
    var s5 := After(s4, Do(DoFinishClose(0)));
    steps := [Handle(open, 0), Look(data), Do(DoBeginClose(0)), Do(DoAnnounceClose(0, Sent)), Do(DoFinishClose(0)),
              Hand];
    states := [BEGIN, s1, s2, s3, s4, s5, After(s5, Hand)];
  }

  // ---- both ends ------------------------------------------------------------------------------

  // the two ends and the pipes, and what each readLoop has in hand
  datatype SplitNet = SplitNet(net: Net, atO: Option<Found>, atA: Option<Found>)

  const SPLIT_START := SplitNet(START, None, None)

  function InHand(s: SplitNet, side: Side): Option<Found> {
    if side == Opener then s.atO else s.atA
  }

  function Arrived(n: Net, side: Side): seq<Byte> {
    if side == Opener then n.rxO else n.rxA
  }

  // the frame that readLoop at `side` is at
  function Current(n: Net, side: Side): Frame
    requires Enabled(n, Deliver(side))
  {
    DecodeAll(CODEC, Arrived(n, side))[Reader(n, side).handled]
  }

  datatype SplitStep = Whole(step: Step) | FindAt(side: Side) | PushAt(side: Side)

  predicate SplitCan(s: SplitNet, step: SplitStep) {
    match step
    case Whole(st) =>
      && Enabled(s.net, st)
      && (st.Deliver? ==> InHand(s, st.side).None? && !Finds(Reader(s.net, st.side), Current(s.net, st.side)))
    case FindAt(side) =>
      && Enabled(s.net, Deliver(side)) && InHand(s, side).None?
      && Finds(Reader(s.net, side), Current(s.net, side))
    case PushAt(side) => InHand(s, side).Some?
  }

  function Pushed(y: End, found: Found): End {
    Push(y, found).(handled := y.handled + 1)
  }

  function SplitAfter(s: SplitNet, step: SplitStep): SplitNet
    requires SplitCan(s, step)
  {
    match step
    case Whole(st) => s.(net := Next(s.net, st))
    case FindAt(side) =>
      var found := Some(Find(Reader(s.net, side), Current(s.net, side)));
      if side == Opener then s.(atO := found) else s.(atA := found)
    case PushAt(Opener) => s.(net := s.net.(o := Pushed(s.net.o, s.atO.value)), atO := None)
    case PushAt(Acceptor) => s.(net := s.net.(a := Pushed(s.net.a, s.atA.value)), atA := None)
  }

  ghost predicate SplitRun(states: seq<SplitNet>, steps: seq<SplitStep>) {
    && |states| == |steps| + 1 && states[0] == SPLIT_START
    && (forall i :: 0 <= i < |steps| ==>
          SplitCan(states[i], steps[i]) && states[i + 1] == SplitAfter(states[i], steps[i]))
  }

  // the table still leads from the frame to the stream in hand
  predicate InTime(s: SplitNet, step: SplitStep) {
    step.PushAt? && InHand(s, step.side).Some? ==>
      var found, y := InHand(s, step.side).value, Reader(s.net, step.side);
      Finds(y, found.frame) && y.table[found.frame.id] == found.stream
  }

  // what is in hand came from the frame that readLoop is at
  predicate HandOk(s: SplitNet, side: Side) {
    InHand(s, side).Some? ==>
      Enabled(s.net, Deliver(side)) && Current(s.net, side) == InHand(s, side).value.frame
  }

  lemma DecodeGrows(b: seq<Byte>, more: seq<Byte>)
    requires DecodeFrame(b).Some?
    ensures DecodeFrame(b + more) == DecodeFrame(b)
  {
    var c := b + more;
    assert c[1..5] == b[1..5] && c[5..9] == b[5..9];
    var n := HeaderLength(b);
    assert c[HEADER..HEADER + n] == b[HEADER..HEADER + n];
  }

  // more bytes change no frame that was complete
  lemma {:induction false} DecodeAllGrows(b: seq<Byte>, more: seq<Byte>)
    ensures DecodeAll(CODEC, b) <= DecodeAll(CODEC, b + more)
    decreases |b|
  {
    hide DecodeFrame;
    if CODEC.decode(b).Some? {
      DecodeGrows(b, more);
      var n := CODEC.decode(b).value.1;
      if 0 < n <= |b| {
        assert (b + more)[n..] == b[n..] + more;
        DecodeAllGrows(b[n..], more);
      }
    }
  }

  lemma ActHandles(e: End, a: Action)
    ensures Act(e, a).handled == e.handled
  {
    hide Listed, OutcomePossible, CloseQueue;
  }

  lemma CarryKeepsCurrent(n: Net, at: Side, more: seq<Byte>, side: Side)
    requires Enabled(n, Deliver(side)) && Enabled(n, Carry(at, more))
    ensures var m := Next(n, Carry(at, more)); Enabled(m, Deliver(side)) && Current(m, side) == Current(n, side)
  {
    DecodeAllGrows(Arrived(n, at), more);
    hide DecodeAll, Wire;
  }

  lemma HandStays(s: SplitNet, step: SplitStep, side: Side)
    requires SplitCan(s, step) && HandOk(s, side)
    ensures HandOk(SplitAfter(s, step), side)
  {
    hide DecodeAll, Wire, Act, DeliverFrom, Push, Finds;
    match step
    case Whole(Local(at, a)) => ActHandles(Reader(s.net, at), a);
    case Whole(Carry(at, more)) =>
      if InHand(s, side).Some? {
        CarryKeepsCurrent(s.net, at, more, side);
      }
    case _ =>
  }

  // a push that is in time is the step of MuxModel
  lemma PushIsDeliver(s: SplitNet, side: Side)
    requires SplitCan(s, PushAt(side)) && HandOk(s, side) && InTime(s, PushAt(side))
    ensures SplitAfter(s, PushAt(side)).net == Next(s.net, Deliver(side))
  {
    var y, found := Reader(s.net, side), InHand(s, side).value;
    PairIsHandle(y, found.frame, 0);
    var x := Writer(s.net, side);
    PairIsHandle(y, found.frame, if y.handled < |x.out| then x.out[y.handled].stream else 0);
    assert Find(y, found.frame) == found;
    hide DecodeAll, Push, HandleFrame;
  }

  /** Refinement.  A run with finding and pushing split, in which the table still leads to
      the stream at every push, reaches only states that MuxModel reaches; so all that is
      proved of those, conservation and no cross-talk first, holds of such runs. */
  lemma {:induction false} SplitRefinesMux(states: seq<SplitNet>, steps: seq<SplitStep>)
    requires SplitRun(states, steps) && forall i :: 0 <= i < |steps| ==> InTime(states[i], steps[i])
    ensures Reachable(states[|steps|].net)
    ensures HandOk(states[|steps|], Opener) && HandOk(states[|steps|], Acceptor)
    decreases |steps|
  {
    hide SplitCan, SplitAfter, InTime, HandOk;
    if steps == [] {
      StartReached();
    } else {
      var n := |steps| - 1;
      assert SplitRun(states[..|steps|], steps[..n]) by {
        RunFront(states, steps);
      }
      forall i | 0 <= i < n
        ensures InTime(states[..|steps|][i], steps[..n][i])
      {
        assert InTime(states[i], steps[i]);
      }
      SplitRefinesMux(states[..|steps|], steps[..n]);
      assert SplitCan(states[n], steps[n]) && states[n + 1] == SplitAfter(states[n], steps[n]);
      assert InTime(states[n], steps[n]);
      SplitStepRefines(states[n], steps[n]);
    }
  }

  lemma StartReached()
    ensures Reachable(START) && HandOk(SPLIT_START, Opener) && HandOk(SPLIT_START, Acceptor)
  {
    assert Run(START, [], START);
  }

  lemma RunFront(states: seq<SplitNet>, steps: seq<SplitStep>)
    requires SplitRun(states, steps) && steps != []
    ensures SplitRun(states[..|steps|], steps[..|steps| - 1])
  {
    hide SplitCan, SplitAfter;
    var n := |steps| - 1;
    forall i | 0 <= i < n
      ensures SplitCan(states[..|steps|][i], steps[..n][i])
      ensures states[..|steps|][i + 1] == SplitAfter(states[..|steps|][i], steps[..n][i])
    {
      assert SplitCan(states[i], steps[i]) && states[i + 1] == SplitAfter(states[i], steps[i]);
    }
  }

  lemma SplitStepRefines(s: SplitNet, step: SplitStep)
    requires Reachable(s.net) && HandOk(s, Opener) && HandOk(s, Acceptor) && SplitCan(s, step) && InTime(s, step)
    ensures var t := SplitAfter(s, step); Reachable(t.net) && HandOk(t, Opener) && HandOk(t, Acceptor)
  {
    HandStays(s, step, Opener);
    HandStays(s, step, Acceptor);
    hide Reachable, Enabled, Next, InTime, Push, Finds, Find, Current;
    match step
    case Whole(st) => ReachStep(s.net, st);
    case FindAt(_) =>
    case PushAt(side) =>
      PushIsDeliver(s, side);
      HandEnables(s, side);
      ReachStep(s.net, Deliver(side));
  }

  lemma HandEnables(s: SplitNet, side: Side)
    requires HandOk(s, side) && InHand(s, side).Some?
    ensures Enabled(s.net, Deliver(side))
  {
  }
}
