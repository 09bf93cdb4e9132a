/** The multiplexer as a transition system: an opener and an acceptor, each with
    its streams, joined by two byte pipes.  Every step of either end is a
    function on the end's value, so that the methods of MuxSession can be tied to
    the same functions.

    A stream is named by the number of the OpenStream call that made it; the two
    ends of one stream carry the same name.  Names are what the proofs speak
    about.  Neither the wire nor HandleFrame ever sees one: frames carry ids, and
    HandleFrame finds a stream through the id table alone. */
module MuxModel {
  import opened Bytes
  import opened Framing
  import opened MuxWire

  const QUEUE_LIMIT := 256
  const BACKLOG_LIMIT := 1024
  const CHUNK_LIMIT := 32 * 1024

  type Name = nat

  // a frame together with the stream whose writer sent it
  datatype Tagged = Tagged(stream: Name, kind: Byte, payload: seq<Byte>)

  // the id that the n-th OpenStream call takes from the wrapping counter
  function IdOf(h: Name): Id {
    (h + 2) % TWO_32
  }

  // how far OpenStream has come with a stream; the acceptor's streams are Live at once
  datatype Opening = Allocated | Registered | Live | Refused

  // how far a Close call has come
  datatype Closing = Working | Unlisted | Announced | Finished

  datatype Stream = Stream(
    id: Id,
    opening: Opening,
    openedAt: nat,            // position of the OPEN frame among the opener's frames
    accepted: bool,           // handed to the caller by Accept
    queue: seq<seq<Byte>>,    // readCh
    queueOpen: bool,          // readCh not closed yet
    held: seq<Byte>,          // the chunk ingestLoop has taken and not stored
    buf: seq<Byte>,           // readBuf
    readClosed: bool,
    localClosed: bool,
    closing: Closing,
    delivered: seq<Byte>,     // everything Read has returned
    eof: bool,                // Read has reported end of file
    written: seq<Byte>,       // every byte whose DATA frame was written
    closeOnce: bool,          // closeOnce has run
    closes: nat,              // how often readCh has really been closed
    misused: bool)            // readCh was sent to, or closed, after it was closed

  function NewStream(id: Id, opening: Opening, openedAt: nat): Stream {
    Stream(id, opening, openedAt, false, [], true, [], [], false, false, Working, [], false, [], false, 0,
           false)
  }

  /** Every byte that reached the stream, in order: returned, buffered, in hand, queued. */
  function Received(s: Stream): seq<Byte> {
    s.delivered + s.buf + s.held + Concat(s.queue)
  }

  datatype End = End(
    objs: map<Name, Stream>,
    table: map<Id, Name>,     // streams
    backlog: seq<Name>,       // acceptCh
    closed: bool,
    nextID: Id,
    opens: nat,
    out: seq<Tagged>,         // frames written in full
    dead: bool,               // a write failed
    tail: seq<Byte>,          // what got out of the frame whose write failed
    handled: nat)             // frames of the peer handled so far

  function NewEnd(): End {
    End(map[], map[], [], false, 1, 0, [], false, [], 0)
  }

  predicate Listed(e: End, h: Name) {
    h in e.objs && e.objs[h].id in e.table && e.table[e.objs[h].id] == h
  }

  // ---- steps on one stream ------------------------------------------------

  // remoteClose: closing readCh, which closeOnce lets happen one time
  function CloseQueue(s: Stream): Stream {
    if s.closeOnce then s
    else s.(closeOnce := true, queueOpen := false, closes := s.closes + 1, misused := s.misused || !s.queueOpen)
  }

  function Enqueue(s: Stream, p: seq<Byte>): Stream {
    s.(queue := s.queue + [p], misused := s.misused || !s.queueOpen)
  }

  function IngestTake(s: Stream): Stream {
    if s.held == [] && s.queue != [] then s.(held := s.queue[0], queue := s.queue[1..]) else s
  }

  function IngestStore(s: Stream): Stream {
    s.(buf := s.buf + s.held, held := [])
  }

  function IngestEnd(s: Stream): Stream {
    if s.queue == [] && s.held == [] && !s.queueOpen then s.(readClosed := true) else s
  }

  // one Read call with room for `room` bytes that does not have to wait
  function ReadBytes(s: Stream, room: nat): (r: (Stream, seq<Byte>)) {
    if s.buf == [] then (s.(eof := s.eof || s.readClosed), [])
    else
      var n := if room <= |s.buf| then room else |s.buf|;
      (s.(buf := s.buf[n..], delivered := s.delivered + s.buf[..n]), s.buf[..n])
  }

  /** What Read hands out is what comes off the front of the buffer, no more than there is
      room for, and what counts as delivered; of anything there is, something is taken. */
  lemma ReadTakesFront(s: Stream, room: nat)
    ensures var (t, chunk) := ReadBytes(s, room);
      && s.buf == chunk + t.buf && t.delivered == s.delivered + chunk
      && |chunk| == (if room <= |s.buf| then room else |s.buf|)
      && t == s.(buf := t.buf, delivered := t.delivered, eof := t.eof)
      && (t.eof <==> s.eof || (s.buf == [] && s.readClosed))
  {
  }

  // ---- steps on one end ---------------------------------------------------

  function Unlist(e: End, id: Id): End {
    e.(table := e.table - {id})
  }

  function Put(e: End, h: Name, s: Stream): End {
    e.(objs := e.objs[h := s])
  }

  // how a write to the connection went
  datatype Outcome = Sent | Failed(part: seq<Byte>)

  function Erase(f: Tagged): Frame {
    Frame(f.kind, IdOf(f.stream), f.payload)
  }

  predicate OutcomePossible(f: Tagged, r: Outcome) {
    r.Failed? ==> r.part <= EncodeFrame(Erase(f)) && r.part != EncodeFrame(Erase(f))
  }

  predicate CanSend(e: End) {
    !e.closed && !e.dead
  }

  // writeFrame: refused once the session is closed or the connection is dead
  function Send(e: End, f: Tagged, r: Outcome): End {
    if !CanSend(e) then e
    else match r
      case Sent => e.(out := e.out + [f])
      case Failed(part) => e.(dead := true, tail := part)
  }

  predicate Sends(e: End, r: Outcome) {
    CanSend(e) && r.Sent?
  }

  function Alloc(e: End): End {
    if e.closed then e
    else
      var id := (e.nextID + 1) % TWO_32;
      e.(nextID := id, opens := e.opens + 1, objs := e.objs[e.opens := NewStream(id, Allocated, 0)])
  }

  function Register(e: End, h: Name): End {
    if h in e.objs && e.objs[h].opening == Allocated then
      Put(e, h, e.objs[h].(opening := Registered)).(table := e.table[e.objs[h].id := h])
    else e
  }

  function AnnounceOpen(e: End, h: Name, r: Outcome): End {
    if h in e.objs && e.objs[h].opening == Registered then
      var e' := Send(e, Tagged(h, FRAME_OPEN, []), r);
      if Sends(e, r) then Put(e', h, e.objs[h].(opening := Live, openedAt := |e.out|))
      else Unlist(Put(e', h, e.objs[h].(opening := Refused)), e.objs[h].id)
    else e
  }

  predicate Usable(e: End, h: Name) {
    h in e.objs && e.objs[h].opening == Live
  }

  // One chunk of a Write call.  Write looks at localClosed once, before its first
  // chunk, so a Close may come between: a chunk may follow the CLOSE frame.
  function WriteChunk(e: End, h: Name, chunk: seq<Byte>, r: Outcome): End {
    if Usable(e, h) then
      var e' := Send(e, Tagged(h, FRAME_DATA, chunk), r);
      if Sends(e, r) then Put(e', h, e.objs[h].(written := e.objs[h].written + chunk)) else e'
    else e
  }

  function BeginClose(e: End, h: Name): End {
    if h in e.objs && !e.objs[h].localClosed then
      Unlist(Put(e, h, e.objs[h].(localClosed := true, closing := Unlisted)), e.objs[h].id)
    else e
  }

  function AnnounceClose(e: End, h: Name, r: Outcome): End {
    if h in e.objs && e.objs[h].closing == Unlisted then
      Put(Send(e, Tagged(h, FRAME_CLOSE, []), r), h, e.objs[h].(closing := Announced))
    else e
  }

  function FinishClose(e: End, h: Name): End {
    if h in e.objs && e.objs[h].closing == Announced then
      Put(e, h, CloseQueue(e.objs[h]).(closing := Finished))
    else e
  }

  function CloseSession(e: End): End {
    if e.closed then e
    else e.(closed := true, table := map[],
            objs := map h | h in e.objs :: if Listed(e, h) then CloseQueue(e.objs[h]) else e.objs[h])
  }

  function AcceptStream(e: End): End {
    if e.backlog == [] || e.backlog[0] !in e.objs then e
    else Put(e, e.backlog[0], e.objs[e.backlog[0]].(accepted := true)).(backlog := e.backlog[1..])
  }

  // pushData: an empty payload is dropped, a full queue closes the stream; a send
  // to a closed queue is the misuse that Enqueue records
  function PushData(e: End, h: Name, p: seq<Byte>): End
    requires h in e.objs
  {
    if p == [] then e
    else if |e.objs[h].queue| < QUEUE_LIMIT || !e.objs[h].queueOpen then Put(e, h, Enqueue(e.objs[h], p))
    else BeginClose(e, h)
  }

  // handleFrame.  `made` names the stream that an OPEN frame makes.
  function HandleFrame(e: End, f: Frame, made: Name): End {
    if f.kind == FRAME_OPEN then
      var e' := Put(e, made, NewStream(f.id, Live, 0)).(table := e.table[f.id := made]);
      if |e.backlog| < BACKLOG_LIMIT then e'.(backlog := e.backlog + [made])
      else BeginClose(e', made)
    else if f.id !in e.table || e.table[f.id] !in e.objs then e
    else
      var h := e.table[f.id];
      if f.kind == FRAME_DATA then PushData(e, h, f.payload)
      else if f.kind == FRAME_CLOSE then Unlist(Put(e, h, CloseQueue(e.objs[h])), f.id)
      else e
  }

  // ---- whole calls, as the steps they are made of ----------------------------

  function OpenStream(e: End, r: Outcome): End {
    AnnounceOpen(Register(Alloc(e), e.opens), e.opens, r)
  }

  // stream Close; a second call finds localClosed set and does nothing
  function CloseStream(e: End, h: Name, r: Outcome): End {
    if h in e.objs && !e.objs[h].localClosed then
      FinishClose(AnnounceClose(BeginClose(e, h), h, r), h)
    else e
  }

  // stream Write of the chunks, every one of them sent
  function WriteChunks(e: End, h: Name, chunks: seq<seq<Byte>>): End {
    if chunks == [] then e
    else WriteChunk(WriteChunks(e, h, chunks[..|chunks| - 1]), h, chunks[|chunks| - 1], Sent)
  }

  function Chunks(p: seq<Byte>): seq<seq<Byte>> {
    Split(p, CHUNK_LIMIT)
  }

  datatype Action =
    | DoAlloc
    | DoRegister(h: Name)
    | DoAnnounceOpen(h: Name, r: Outcome)
    | DoWriteChunk(h: Name, chunk: seq<Byte>, r: Outcome)
    | DoBeginClose(h: Name)
    | DoAnnounceClose(h: Name, r: Outcome)
    | DoFinishClose(h: Name)
    | DoIngestTake(h: Name)
    | DoIngestStore(h: Name)
    | DoIngestEnd(h: Name)
    | DoRead(h: Name, room: nat)
    | DoAccept
    | DoCloseSession

  function Act(e: End, a: Action): End {
    match a
    case DoAlloc => Alloc(e)
    case DoRegister(h) => Register(e, h)
    case DoAnnounceOpen(h, r) => AnnounceOpen(e, h, r)
    case DoWriteChunk(h, chunk, r) => WriteChunk(e, h, chunk, r)
    case DoBeginClose(h) => if Usable(e, h) then BeginClose(e, h) else e
    case DoAnnounceClose(h, r) => AnnounceClose(e, h, r)
    case DoFinishClose(h) => FinishClose(e, h)
    case DoIngestTake(h) => if h in e.objs then Put(e, h, IngestTake(e.objs[h])) else e
    case DoIngestStore(h) => if h in e.objs then Put(e, h, IngestStore(e.objs[h])) else e
    case DoIngestEnd(h) => if h in e.objs then Put(e, h, IngestEnd(e.objs[h])) else e
    case DoRead(h, room) => if h in e.objs then Put(e, h, ReadBytes(e.objs[h], room).0) else e
    case DoAccept => AcceptStream(e)
    case DoCloseSession => CloseSession(e)
  }

  // ---- the two ends and the pipes -----------------------------------------

  datatype Side = Opener | Acceptor

  // rxO and rxA: everything that has arrived at the opener and at the acceptor
  datatype Net = Net(o: End, a: End, rxO: seq<Byte>, rxA: seq<Byte>)

  const START: Net := Net(NewEnd(), NewEnd(), [], [])

  function EraseAll(ts: seq<Tagged>): (fs: seq<Frame>)
    ensures |fs| == |ts|
    ensures forall i :: 0 <= i < |ts| ==> fs[i] == Erase(ts[i])
  {
    seq(|ts|, i requires 0 <= i < |ts| => Erase(ts[i]))
  }

  /** Every byte an end has put on its pipe. */
  function Wire(e: End): seq<Byte> {
    EncodeAll(CODEC, EraseAll(e.out)) + e.tail
  }

  datatype Step =
    | Local(side: Side, action: Action)
    | Carry(side: Side, more: seq<Byte>)   // bytes arrive at `side`
    | Deliver(side: Side)                  // readLoop at `side` handles its next frame

  // the only demands on a step: what a caller must have done first, and that the
  // pipe is reliable (what has arrived is a prefix of what was written)
  predicate Enabled(n: Net, step: Step) {
    match step
    case Local(side, action) =>
      && (side == Acceptor ==> !action.DoAlloc? && !action.DoRegister? && !action.DoAnnounceOpen?)
      && (match action
          case DoAnnounceOpen(h, r) => OutcomePossible(Tagged(h, FRAME_OPEN, []), r)
          case DoWriteChunk(h, chunk, r) =>
            0 < |chunk| <= CHUNK_LIMIT && OutcomePossible(Tagged(h, FRAME_DATA, chunk), r)
          case DoAnnounceClose(h, r) => OutcomePossible(Tagged(h, FRAME_CLOSE, []), r)
          case _ => true)
    case Carry(Opener, more) => n.rxO + more <= Wire(n.a)
    case Carry(Acceptor, more) => n.rxA + more <= Wire(n.o)
    case Deliver(Opener) => n.o.handled < |DecodeAll(CODEC, n.rxO)|
    case Deliver(Acceptor) => n.a.handled < |DecodeAll(CODEC, n.rxA)|
  }

  function DeliverFrom(y: End, rx: seq<Byte>, x: End): End {
    var fs := DecodeAll(CODEC, rx);
    if y.handled < |fs| then
      var made := if y.handled < |x.out| then x.out[y.handled].stream else 0;
      HandleFrame(y, fs[y.handled], made).(handled := y.handled + 1)
    else y
  }

  function Next(n: Net, step: Step): Net {
    match step
    case Local(Opener, action) => n.(o := Act(n.o, action))
    case Local(Acceptor, action) => n.(a := Act(n.a, action))
    case Carry(Opener, more) => n.(rxO := n.rxO + more)
    case Carry(Acceptor, more) => n.(rxA := n.rxA + more)
    case Deliver(Opener) => n.(o := DeliverFrom(n.o, n.rxO, n.a))
    case Deliver(Acceptor) => n.(a := DeliverFrom(n.a, n.rxA, n.o))
  }

  ghost predicate Run(n: Net, steps: seq<Step>, m: Net)
    decreases |steps|
  {
    if steps == [] then n == m
    else Run'(n, steps, m)
  }

  ghost predicate Run'(n: Net, steps: seq<Step>, m: Net)
    requires steps != []
    decreases |steps|, 0
  {
    Enabled(n, steps[0]) && Run(Next(n, steps[0]), steps[1..], m)
  }
}
