/** simpleMuxStream and simpleMuxSession as objects that update their fields.  Every
    method's postcondition gives the object's new value as a step of MuxModel
    applied to its old value, which is what the runs of MuxRuns are made of. */
module MuxSession {
  import opened Wrappers
  import opened Bytes
  import opened Framing
  import opened MuxWire
  import M = MuxModel
  import opened Conn

  // how a write went, told from the connection before and after it
  function OutcomeOf(wasDead: bool, isDead: bool, tail: seq<Byte>): M.Outcome {
    if !wasDead && isDead then M.Failed(tail) else M.Sent
  }

  class MuxStream {
    ghost const name: M.Name
    const id: Id
    var readCh: seq<seq<Byte>>
    var chOpen: bool
    var closeOnce: bool
    var hand: seq<Byte>
    var readBuf: seq<Byte>
    var readClosed: bool
    var localClosed: bool
    ghost var opening: M.Opening
    ghost var openedAt: nat
    ghost var accepted: bool
    ghost var closing: M.Closing
    ghost var delivered: seq<Byte>
    ghost var eof: bool
    ghost var written: seq<Byte>
    ghost var closes: nat
    ghost var misused: bool

    ghost function View(): M.Stream
      reads this
    {
      M.Stream(id, opening, openedAt, accepted, readCh, chOpen, hand, readBuf, readClosed, localClosed,
               closing, delivered, eof, written, closeOnce, closes, misused)
    }

    constructor (id: Id, ghost name: M.Name, ghost opening: M.Opening)
      ensures View() == M.NewStream(id, opening, 0) && this.name == name
    {
      this.id, this.name, this.opening := id, name, opening;
      readCh, chOpen, hand, readBuf, readClosed, localClosed := [], true, [], [], false, false;
      openedAt, accepted, closing, delivered, eof, written := 0, false, M.Working, [], false, [];
      closeOnce, closes, misused := false, 0, false;
    }

    // the two halves of one turn of ingestLoop, and its end
    method IngestTake()
      modifies this
      ensures View() == M.IngestTake(old(View()))
      ensures M.Received(View()) == old(M.Received(View()))
      ensures old(hand == [] && readCh != []) ==> hand == old(readCh[0]) && |readCh| < |old(readCh)|
    {
      if hand == [] && readCh != [] {
        hand, readCh := readCh[0], readCh[1..];
      }
    }

    method IngestStore()
      modifies this
      ensures View() == M.IngestStore(old(View()))
      ensures M.Received(View()) == old(M.Received(View())) && hand == []
    {
      readBuf, hand := readBuf + hand, [];
    }

    method IngestEnd()
      modifies this
      ensures View() == M.IngestEnd(old(View()))
    {
      if readCh == [] && hand == [] && !chOpen {
        readClosed := true;
      }
    }

    method Read(room: nat) returns (r: ReadResult)
      modifies this
      ensures View() == M.ReadBytes(old(View()), room).0
      ensures r.Data? <==> old(readBuf) != []
      ensures r.Data? ==> r.chunk == M.ReadBytes(old(View()), room).1 && (room > 0 ==> r.chunk != [])
      ensures r.Data? ==> old(readBuf) == r.chunk + readBuf && delivered == old(delivered) + r.chunk
      ensures r.Data? ==> |r.chunk| <= room && (|r.chunk| < room ==> readBuf == [])
      ensures !r.Data? ==> readBuf == old(readBuf) && delivered == old(delivered)
      ensures r.EndOfFile? <==> old(readBuf) == [] && old(readClosed)
    {
      if readBuf == [] {
        if !readClosed {
          return MustWait;
        }
        eof := true;
        return EndOfFile;
      }
      var n := if room <= |readBuf| then room else |readBuf|;
      r := Data(readBuf[..n]);
      delivered := delivered + readBuf[..n];
      readBuf := readBuf[n..];
    }

    method Enqueue(p: seq<Byte>)
      modifies this`readCh, this`misused
      ensures View() == M.Enqueue(old(View()), p)
    {
      readCh := readCh + [p];
      misused := misused || !chOpen;
    }

    // the queue has been closed as often as it is closed: once or never
    ghost predicate ClosedOnce()
      reads this
    {
      (closeOnce <==> !chOpen) && closes == (if chOpen then 0 else 1)
    }

    /** remoteClose: closeOnce keeps a closed queue from being closed again. */
    method RemoteClose()
      modifies this`chOpen, this`closeOnce, this`closes, this`misused
      ensures View() == M.CloseQueue(old(View()))
      ensures old(ClosedOnce()) ==> ClosedOnce() && !chOpen && misused == old(misused)
    {
      if !closeOnce {
        misused := misused || !chOpen;
        closeOnce, chOpen, closes := true, false, closes + 1;
      }
    }
  }

  class MuxSession {
    const conn: ByteConn
    var streams: map<Id, MuxStream>
    var acceptCh: seq<MuxStream>
    var nextID: Id
    var closed: bool
    ghost const base: seq<Byte>            // what the connection carried before the session
    ghost var all: map<M.Name, MuxStream>  // every stream ever made
    ghost var opens: nat
    ghost var sent: seq<M.Tagged>
    ghost var tail: seq<Byte>
    ghost var handled: nat

    // the object's parts as values
    ghost function Objs(): map<M.Name, M.Stream>
      reads this`all, all.Values
    {
      map h | h in all :: all[h].View()
    }

    ghost function NameTable(): map<Id, M.Name>
      reads this`streams
    {
      map i | i in streams :: streams[i].name
    }

    ghost function Backlog(): seq<M.Name>
      reads this`acceptCh
    {
      var q := acceptCh;
      seq(|q|, i requires 0 <= i < |q| => q[i].name)
    }

    ghost function View(): M.End
      reads this, conn, all.Values
    {
      M.End(Objs(), NameTable(), Backlog(), closed, nextID, opens, sent, conn.dead, tail, handled)
    }

    ghost predicate Mine(st: MuxStream)
      reads this`all
    {
      st.name in all && all[st.name] == st
    }

    ghost predicate RegistryOk()
      reads this`all, this`streams, this`acceptCh
    {
      && (forall h :: h in all ==> all[h].name == h && all[h].id == M.IdOf(h))
      && (forall i :: i in streams ==> Mine(streams[i]) && streams[i].id == i)
      && (forall i :: 0 <= i < |acceptCh| ==> Mine(acceptCh[i]))
    }

    ghost predicate WireOk()
      reads this`sent, this`tail, conn
    {
      && conn.output == base + (EncodeAll(CODEC, M.EraseAll(sent)) + tail)
      && (!conn.dead ==> tail == [])
    }

    ghost predicate Valid()
      reads this, conn
    {
      RegistryOk() && WireOk() && nextID == (opens + 1) % TWO_32
    }

    constructor (conn: ByteConn)
      requires !conn.dead
      ensures Valid() && View() == M.NewEnd() && this.conn == conn
    {
      this.conn := conn;
      base := conn.output;
      streams, acceptCh, nextID, closed := map[], [], 1, false;
      all, opens, sent, tail, handled := map[], 0, [], [], 0;
      new;
      hide EncodeAll, M.EraseAll;
      NothingEncoded();
    }

    static lemma NothingEncoded()
      ensures EncodeAll(CODEC, M.EraseAll([])) == []
    {
    }

    // ---- writeFrame --------------------------------------------------------------

    ghost function Result(wasDead: bool): M.Outcome
      reads this, conn
    {
      OutcomeOf(wasDead, conn.dead, tail)
    }

    lemma MineHasId(st: MuxStream)
      requires RegistryOk() && Mine(st)
      ensures st.id == M.IdOf(st.name)
    {
    }

    // writeFrame, field by field
    method Emit(kind: Byte, st: MuxStream, payload: seq<Byte>) returns (ok: bool)
      requires Valid() && Mine(st) && |payload| < TWO_32
      modifies this`sent, this`tail, conn`output, conn`dead
      ensures Valid()
      ensures ok ==> !closed && !old(conn.dead) && !conn.dead && tail == old(tail)
      ensures sent == if ok then old(sent) + [M.Tagged(st.name, kind, payload)] else old(sent)
      ensures closed || old(conn.dead) ==> !ok && tail == old(tail) && conn.dead == old(conn.dead)
      ensures !ok && !closed ==> conn.dead
      ensures !ok && conn.dead && !old(conn.dead) ==>
        M.OutcomePossible(M.Tagged(st.name, kind, payload), M.Failed(tail))
    {
      hide RegistryOk, EncodeAll, EncodeFrame, M.EraseAll, NeverComplete;
      if closed {
        return false;
      }
      MineHasId(st);
      ghost var f := M.Tagged(st.name, kind, payload);
      ghost var wasDead := conn.dead;
      ghost var part;
      ok, part := PutFrame(conn, Frame(kind, st.id, payload));
      if ok {
        WireGrows(base, sent, f);
        sent := sent + [f];
      } else if !wasDead {
        tail := part;
        WirePart(base, EncodeAll(CODEC, M.EraseAll(sent)), part);
      }
    }

    method WriteFrame(kind: Byte, st: MuxStream, payload: seq<Byte>) returns (ok: bool)
      requires Valid() && Mine(st) && |payload| < TWO_32
      modifies this`sent, this`tail, conn`output, conn`dead
      ensures Valid()
      ensures View() == M.Send(old(View()), M.Tagged(st.name, kind, payload), Result(old(conn.dead)))
      ensures M.OutcomePossible(M.Tagged(st.name, kind, payload), Result(old(conn.dead)))
      ensures ok <==> M.Sends(old(View()), Result(old(conn.dead)))
      ensures sent == if ok then old(sent) + [M.Tagged(st.name, kind, payload)] else old(sent)
    {
      hide Objs, NameTable, Backlog, RegistryOk, WireOk;
      ghost var v := View();
      ok := Emit(kind, st, payload);
      assert Objs() == v.objs && NameTable() == v.table && Backlog() == v.backlog;
    }

    // ---- changes of one part ------------------------------------------------------

    twostate lemma ChangedOne(st: MuxStream)
      requires old(Mine(st)) && old(RegistryOk()) && all == old(all)
      requires forall h :: h in all && all[h] != st ==> unchanged(all[h])
      ensures Objs() == old(Objs())[st.name := st.View()]
    {
      forall h | h in all && h != st.name
        ensures Objs()[h] == old(Objs())[h]
      {
        assert all[h] != st;
      }
    }

    twostate lemma OnlyStreamChanged(st: MuxStream)
      requires old(Mine(st)) && old(Valid()) && unchanged(this) && unchanged(conn)
      requires forall h :: h in all && all[h] != st ==> unchanged(all[h])
      ensures Valid() && View() == M.Put(old(View()), st.name, st.View())
    {
      ChangedOne(st);
    }

    lemma StreamInView(st: MuxStream)
      requires Mine(st)
      ensures st.name in View().objs && View().objs[st.name] == st.View()
    {
    }

    method EnterTable(st: MuxStream)
      requires Valid() && Mine(st)
      modifies this`streams
      ensures Valid()
      ensures View() == old(View()).(table := old(View()).table[st.id := st.name])
      ensures streams == old(streams)[st.id := st]
    {
      hide Objs, Backlog, WireOk;
      ghost var v := View();
      streams := streams[st.id := st];
      assert NameTable() == v.table[st.id := st.name];
    }

    method RemoveStream(id: Id)
      requires Valid()
      modifies this`streams
      ensures Valid()
      ensures View() == M.Unlist(old(View()), id)
    {
      hide Objs, Backlog, WireOk;
      ghost var v := View();
      streams := streams - {id};
      assert NameTable() == v.table - {id};
    }

    ghost method SetOpening(st: MuxStream, opening: M.Opening, openedAt: nat)
      requires Valid() && Mine(st)
      modifies st`opening, st`openedAt
      ensures Valid()
      ensures View() == M.Put(old(View()), st.name, old(st.View()).(opening := opening, openedAt := openedAt))
    {
      st.opening, st.openedAt := opening, openedAt;
      OnlyStreamChanged(st);
    }

    // ---- OpenStream ----------------------------------------------------------------

    ghost predicate FreshName()
      reads this`all, this`opens
    {
      forall h :: h in all ==> h < opens
    }

    method AddNew(opening: M.Opening, id: Id, ghost name: M.Name) returns (st: MuxStream)
      requires Valid() && name !in all && id == M.IdOf(name)
      modifies this`all
      ensures Valid() && fresh(st) && Mine(st) && st.name == name && st.id == id && st.opening == opening
      ensures all == old(all)[name := st]
      ensures View() == M.Put(old(View()), name, M.NewStream(id, opening, 0))
    {
      hide Objs, NameTable, Backlog, WireOk;
      ghost var v := View();
      st := new MuxStream(id, name, opening);
      all := all[name := st];
      AddedOne(st);
    }

    twostate lemma AddedOne(new st: MuxStream)
      requires old(RegistryOk()) && st.name !in old(all) && all == old(all)[st.name := st]
      requires forall h :: h in old(all) ==> unchanged(old(all)[h])
      ensures Objs() == old(Objs())[st.name := st.View()]
    {
    }

    method TakeNumber() returns (id: Id)
      requires Valid()
      modifies this`nextID, this`opens
      ensures Valid() && id == M.IdOf(old(opens)) && opens == old(opens) + 1
      ensures View() == old(View()).(nextID := (old(nextID) + 1) % TWO_32, opens := old(opens) + 1)
      ensures id == (old(nextID) + 1) % TWO_32
    {
      hide Objs, NameTable, Backlog, RegistryOk, WireOk;
      nextID := (nextID + 1) % TWO_32;
      id := nextID;
      opens := opens + 1;
    }

    method Allocate() returns (st: MuxStream)
      requires Valid() && FreshName() && !closed
      modifies this`nextID, this`opens, this`all
      ensures Valid() && FreshName() && fresh(st) && Mine(st) && st.name == old(opens)
      ensures View() == M.Alloc(old(View()))
      ensures st.opening == M.Allocated
    {
      hide Objs, NameTable, Backlog, RegistryOk, WireOk;
      ghost var h := opens;
      var id := TakeNumber();
      st := AddNew(M.Allocated, id, h);
    }

    method Enroll(st: MuxStream)
      requires Valid() && Mine(st) && st.opening == M.Allocated
      modifies this`streams, st`opening, st`openedAt
      ensures Valid() && Mine(st)
      ensures View() == M.Register(old(View()), st.name)
      ensures st.opening == M.Registered && streams == old(streams)[st.id := st]
    {
      StreamInView(st);
      ghost var v := View();
      SetOpening(st, M.Registered, st.openedAt);
      StreamInView(st);
      EnterTable(st);
    }

    method Refuse(st: MuxStream)
      requires Valid() && Mine(st)
      modifies this`streams, st`opening, st`openedAt
      ensures Valid()
      ensures View() == M.Unlist(M.Put(old(View()), st.name, old(st.View()).(opening := M.Refused)), st.id)
    {
      SetOpening(st, M.Refused, st.openedAt);
      RemoveStream(st.id);
    }

    // the stream is live, and its OPEN frame is the one that went out last
    ghost predicate Opened(st: MuxStream, before: seq<M.Tagged>)
      reads this`sent, st`opening
    {
      st.opening == M.Live && sent == before + [M.Tagged(st.name, FRAME_OPEN, [])]
    }

    method Announce(st: MuxStream) returns (ok: bool)
      requires Valid() && Mine(st) && st.opening == M.Registered
      modifies this`sent, this`tail, this`streams, conn`output, conn`dead, st`opening, st`openedAt
      ensures Valid()
      ensures View() == M.AnnounceOpen(old(View()), st.name, Result(old(conn.dead)))
      ensures ok <==> M.Sends(old(View()), Result(old(conn.dead)))
      ensures ok ==> Opened(st, old(sent)) && streams == old(streams)
    {
      StreamInView(st);
      ghost var at := |sent|;
      ok := WriteFrame(FRAME_OPEN, st, []);
      StreamInView(st);
      if ok {
        SetOpening(st, M.Live, at);
      } else {
        Refuse(st);
      }
    }

    method EnrollAndAnnounce(st: MuxStream) returns (ok: bool)
      requires Valid() && Mine(st) && st.opening == M.Allocated
      modifies this`sent, this`tail, this`streams, conn`output, conn`dead, st`opening, st`openedAt
      ensures Valid()
      ensures View() == M.AnnounceOpen(M.Register(old(View()), st.name), st.name, Result(old(conn.dead)))
      ensures ok <==> M.Sends(M.Register(old(View()), st.name), Result(old(conn.dead)))
      ensures ok ==> Opened(st, old(sent)) && streams == old(streams)[st.id := st]
    {
      Enroll(st);
      ok := Announce(st);
    }

    /** OpenStream: register first, announce after; nothing is left behind on failure. */
    method OpenStream() returns (ok: bool, st: MuxStream?)
      requires Valid() && FreshName()
      modifies this`nextID, this`opens, this`all, this`sent, this`tail, this`streams, conn`output, conn`dead
      ensures Valid() && FreshName()
      ensures View() == if old(closed) then old(View()) else M.OpenStream(old(View()), Result(old(conn.dead)))
      ensures ok <==> M.Sends(old(View()), Result(old(conn.dead)))
      ensures ok ==> st != null && fresh(st) && Mine(st) && st.name == old(opens)
      ensures old(closed) ==> !ok && sent == old(sent) && conn.output == old(conn.output)
      ensures ok ==> Opened(st, old(sent)) && streams == old(streams)[st.id := st]
    {
      if closed {
        return false, null;
      }
      st := Allocate();
      ok := EnrollAndAnnounce(st);
    }

    // ---- stream Close -----------------------------------------------------------------

    method MarkClosed(st: MuxStream)
      requires Valid() && Mine(st)
      modifies st`localClosed, st`closing
      ensures Valid()
      ensures View() == M.Put(old(View()), st.name, old(st.View()).(localClosed := true, closing := M.Unlisted))
    {
      st.localClosed, st.closing := true, M.Unlisted;
      OnlyStreamChanged(st);
    }

    // localClosed and the table, in one step
    method BeginClose(st: MuxStream)
      requires Valid() && Mine(st)
      modifies this`streams, st`localClosed, st`closing
      ensures Valid() && View() == M.BeginClose(old(View()), st.name)
      ensures st.localClosed && (!old(st.localClosed) ==> st.closing == M.Unlisted)
    {
      StreamInView(st);
      if !st.localClosed {
        MarkClosed(st);
        RemoveStream(st.id);
      }
    }

    ghost method MarkAnnounced(st: MuxStream)
      requires Valid() && Mine(st)
      modifies st`closing
      ensures Valid()
      ensures View() == M.Put(old(View()), st.name, old(st.View()).(closing := M.Announced))
    {
      st.closing := M.Announced;
      OnlyStreamChanged(st);
    }

    method AnnounceClose(st: MuxStream)
      requires Valid() && Mine(st) && st.closing == M.Unlisted
      modifies this`sent, this`tail, conn`output, conn`dead, st`closing
      ensures Valid() && st.closing == M.Announced
      ensures View() == M.AnnounceClose(old(View()), st.name, Result(old(conn.dead)))
    {
      StreamInView(st);
      var ok := WriteFrame(FRAME_CLOSE, st, []);
      StreamInView(st);
      MarkAnnounced(st);
    }

    method FinishClose(st: MuxStream)
      requires Valid() && Mine(st) && st.closing == M.Announced
      modifies st`chOpen, st`closeOnce, st`closes, st`misused, st`closing
      ensures Valid() && View() == M.FinishClose(old(View()), st.name)
    {
      StreamInView(st);
      st.RemoteClose();
      st.closing := M.Finished;
      OnlyStreamChanged(st);
    }

    static ghost function RestOfClose(e: M.End, h: M.Name, r: M.Outcome): M.End {
      M.FinishClose(M.AnnounceClose(e, h, r), h)
    }

    method FinishCloseCall(st: MuxStream)
      requires Valid() && Mine(st) && st.closing == M.Unlisted
      modifies this`sent, this`tail, conn`output, conn`dead, st`closing, st`chOpen, st`closeOnce, st`closes, st`misused
      ensures Valid()
      ensures View() == RestOfClose(old(View()), st.name, Result(old(conn.dead)))
    {
      AnnounceClose(st);
      FinishClose(st);
    }

    // the whole of a first Close call: out of the table, then the CLOSE frame, then the queue
    method CloseOpen(st: MuxStream)
      requires Valid() && Mine(st) && !st.localClosed
      modifies this`streams, this`sent, this`tail, conn`output, conn`dead
      modifies st`localClosed, st`closing, st`chOpen, st`closeOnce, st`closes, st`misused
      ensures Valid()
      ensures View() == RestOfClose(M.BeginClose(old(View()), st.name), st.name, Result(old(conn.dead)))
    {
      BeginClose(st);
      FinishCloseCall(st);
    }

    /** Close, of which only the first call does anything. */
    method CloseStream(st: MuxStream)
      requires Valid() && Mine(st)
      modifies this`streams, this`sent, this`tail, conn`output, conn`dead
      modifies st`localClosed, st`closing, st`chOpen, st`closeOnce, st`closes, st`misused
      ensures Valid()
      ensures View() == M.CloseStream(old(View()), st.name, Result(old(conn.dead)))
    {
      StreamInView(st);
      if !st.localClosed {
        CloseOpen(st);
      }
    }

    // ---- stream Write -------------------------------------------------------------------

    ghost method CountWritten(st: MuxStream, chunk: seq<Byte>)
      requires Valid() && Mine(st)
      modifies st`written
      ensures Valid()
      ensures View() == M.Put(old(View()), st.name, old(st.View()).(written := old(st.written) + chunk))
      ensures st.written == old(st.written) + chunk
    {
      st.written := st.written + chunk;
      OnlyStreamChanged(st);
    }

    method WriteChunk(st: MuxStream, chunk: seq<Byte>) returns (ok: bool)
      requires Valid() && Mine(st) && st.opening == M.Live && |chunk| <= M.CHUNK_LIMIT
      modifies this`sent, this`tail, conn`output, conn`dead, st`written
      ensures Valid()
      ensures View() == M.WriteChunk(old(View()), st.name, chunk, Result(old(conn.dead)))
      ensures ok <==> M.Sends(old(View()), Result(old(conn.dead)))
      ensures st.written == if ok then old(st.written) + chunk else old(st.written)
      ensures !ok ==> closed || conn.dead
    {
      StreamInView(st);
      ok := WriteFrame(FRAME_DATA, st, chunk);
      StreamInView(st);
      if ok {
        CountWritten(st, chunk);
      }
    }

    method WriteLoop(st: MuxStream, p: seq<Byte>) returns (ok: bool, ghost n: nat)
      requires Valid() && Mine(st) && st.opening == M.Live
      modifies this`sent, this`tail, conn`output, conn`dead, st`written
      ensures Valid() && n <= |M.Chunks(p)|
      ensures ok <==> n == |M.Chunks(p)|
      ensures ok ==> View() == M.WriteChunks(old(View()), st.name, M.Chunks(p))
      ensures !ok ==> View() == M.WriteChunk(M.WriteChunks(old(View()), st.name, M.Chunks(p)[..n]),
                                             st.name, M.Chunks(p)[n], Result(old(conn.dead)))
      ensures st.written == old(st.written) + Concat(M.Chunks(p)[..n])
      ensures !ok ==> closed || conn.dead
    {
      hide M.WriteChunks, M.WriteChunk, M.Chunks, RegistryOk, WireOk, Concat;
      ghost var v, cs := View(), M.Chunks(p);
      NoneSent(v, st.name, cs);
      var rest := p;
      ok, n := true, 0;
      while rest != []
        invariant Valid() && Mine(st) && st.opening == M.Live
        invariant Sofar(rest, cs, n) && conn.dead == old(conn.dead)
        invariant View() == M.WriteChunks(v, st.name, cs[..n])
        invariant st.written == old(st.written) + Concat(cs[..n])
        decreases |rest|
      {
        ok, rest := WriteNext(st, rest, v, cs, n);
        NextWritten(old(st.written), cs, n);
        if !ok {
          return;
        }
        n := n + 1;
      }
      AllSent(cs, n);
    }

    // the first n chunks are out; the rest splits into the others
    static ghost predicate Sofar(rest: seq<Byte>, cs: seq<seq<Byte>>, n: nat) {
      n <= |cs| && M.Chunks(rest) == cs[n..]
    }

    static lemma NoneSent(v: M.End, h: M.Name, cs: seq<seq<Byte>>)
      ensures M.WriteChunks(v, h, cs[..0]) == v && Concat(cs[..0]) == []
    {
    }

    static lemma SplitSome(p: seq<Byte>)
      ensures p != [] ==> M.Chunks(p) != []
    {
    }

    static lemma NextWritten(before: seq<Byte>, cs: seq<seq<Byte>>, n: nat)
      requires n < |cs|
      ensures before + Concat(cs[..n]) + cs[n] == before + Concat(cs[..n + 1])
    {
      assert cs[..n + 1] == cs[..n] + [cs[n]];
      ConcatAppend(cs[..n], [cs[n]]);
      ConcatSingle(cs[n]);
    }

    static lemma AllSent(cs: seq<seq<Byte>>, n: nat)
      requires Sofar([], cs, n)
      ensures n == |cs| && cs[..n] == cs
    {
      assert M.Chunks([]) == [];
    }

    method WriteNext(st: MuxStream, rest: seq<Byte>, ghost v: M.End, ghost cs: seq<seq<Byte>>, ghost n: nat)
        returns (ok: bool, rest': seq<Byte>)
      requires Valid() && Mine(st) && st.opening == M.Live
      requires rest != [] && Sofar(rest, cs, n) && View() == M.WriteChunks(v, st.name, cs[..n])
      modifies this`sent, this`tail, conn`output, conn`dead, st`written
      ensures Valid() && |rest'| < |rest| && n < |cs|
      ensures ok ==> Sofar(rest', cs, n + 1) && conn.dead == old(conn.dead)
      ensures ok ==> View() == M.WriteChunks(v, st.name, cs[..n + 1])
      ensures !ok ==> View() == M.WriteChunk(old(View()), st.name, cs[n], Result(old(conn.dead)))
      ensures st.written == if ok then old(st.written) + cs[n] else old(st.written)
      ensures !ok ==> closed || conn.dead
    {
      hide M.WriteChunks, M.WriteChunk;
      var chunk := if |rest| > M.CHUNK_LIMIT then rest[..M.CHUNK_LIMIT] else rest;
      SplitFront(rest, chunk, cs, n, M.CHUNK_LIMIT);
      OneMoreChunk(v, st.name, cs, n);
      ok := WriteChunk(st, chunk);
      rest' := rest[|chunk|..];
    }

    /** Write: refused on a closed stream or session; otherwise the argument goes out
        in chunks until one of them fails. */
    method Write(st: MuxStream, p: seq<Byte>) returns (ok: bool, ghost n: nat)
      requires Valid() && Mine(st) && st.opening == M.Live
      modifies this`sent, this`tail, conn`output, conn`dead, st`written
      ensures Valid()
      ensures old(st.localClosed || closed) ==> !ok && View() == old(View())
      ensures !old(st.localClosed || closed) ==>
        && n <= |M.Chunks(p)|
        && (ok <==> n == |M.Chunks(p)|)
        && (ok ==> View() == M.WriteChunks(old(View()), st.name, M.Chunks(p)))
        && (!ok ==> View() == M.WriteChunk(M.WriteChunks(old(View()), st.name, M.Chunks(p)[..n]),
                                           st.name, M.Chunks(p)[n], Result(old(conn.dead))))
      ensures M.Chunks(p) == Split(p, 32768)
      ensures n <= |M.Chunks(p)| && st.written == old(st.written) + Concat(M.Chunks(p)[..n])
      ensures p != [] ==> (ok <==> n == |M.Chunks(p)|)
      ensures !ok ==> closed || conn.dead || st.localClosed
    {
      n := 0;
      SplitSome(p);
      if st.localClosed || closed {
        return false, n;
      }
      ok, n := WriteLoop(st, p);
    }

    // ---- handleFrame ----------------------------------------------------------------------

    method PushBacklog(st: MuxStream)
      requires Valid() && Mine(st)
      modifies this`acceptCh
      ensures Valid()
      ensures View() == old(View()).(backlog := old(View()).backlog + [st.name])
    {
      hide Objs, NameTable, WireOk;
      ghost var v := View();
      acceptCh := acceptCh + [st];
      assert Backlog() == v.backlog + [st.name];
    }

    method MakeListed(id: Id, ghost made: M.Name) returns (st: MuxStream)
      requires Valid() && made !in all && id == M.IdOf(made)
      modifies this`all, this`streams
      ensures Valid() && fresh(st) && Mine(st) && st.name == made && st.opening == M.Live && !st.localClosed
      ensures View() == M.Put(old(View()), made, M.NewStream(id, M.Live, 0)).(table := old(View()).table[id := made])
    {
      st := AddNew(M.Live, id, made);
      assert st.View() == M.NewStream(id, M.Live, 0) by { StreamInView(st); }
      EnterTable(st);
    }

    method HandleOpen(id: Id, ghost made: M.Name)
      requires Valid() && made !in all && id == M.IdOf(made)
      modifies this`all, this`streams, this`acceptCh, this`sent, this`tail, conn`output, conn`dead
      ensures Valid()
      ensures var e := M.HandleFrame(old(View()), Frame(FRAME_OPEN, id, []), made);
        View() == if |old(acceptCh)| < M.BACKLOG_LIMIT then e else RestOfClose(e, made, Result(old(conn.dead)))
    {
      var st := MakeListed(id, made);
      if |acceptCh| < M.BACKLOG_LIMIT {
        PushBacklog(st);
      } else {
        CloseOpen(st);
      }
    }

    method PushData(st: MuxStream, p: seq<Byte>)
      requires Valid() && Mine(st)
      modifies this`streams, this`sent, this`tail, conn`output, conn`dead, st
      ensures Valid()
      ensures var e := M.PushData(old(View()), st.name, p);
        View() == if p != [] && |old(st.readCh)| >= M.QUEUE_LIMIT && old(st.chOpen && !st.localClosed)
                  then RestOfClose(e, st.name, Result(old(conn.dead))) else e
    {
      StreamInView(st);
      if p == [] {
        return;
      }
      if |st.readCh| < M.QUEUE_LIMIT || !st.chOpen {
        st.Enqueue(p);
        OnlyStreamChanged(st);
      } else if !st.localClosed {
        CloseOpen(st);
      }
    }

    method HandleClose(st: MuxStream)
      requires Valid() && Mine(st) && st.id in streams && streams[st.id] == st
      modifies this`streams, st`chOpen, st`closeOnce, st`closes, st`misused
      ensures Valid()
      ensures View() == M.HandleFrame(old(View()), Frame(FRAME_CLOSE, st.id, []), 0)
    {
      hide Objs, Backlog, WireOk, M.CloseQueue;
      StreamInView(st);
      st.RemoteClose();
      OnlyStreamChanged(st);
      RemoveStream(st.id);
    }

    // the table and the backlog have no room for what the frame brings
    ghost predicate Overflows(f: Frame)
      reads this`streams, this`acceptCh, streams.Values
    {
      if f.kind == FRAME_OPEN then |acceptCh| >= M.BACKLOG_LIMIT
      else
        && f.kind == FRAME_DATA && f.payload != [] && f.id in streams
        && |streams[f.id].readCh| >= M.QUEUE_LIMIT && streams[f.id].chOpen && !streams[f.id].localClosed
    }

    // whatever the id of an OPEN frame, there is a name for the object it makes
    lemma NameFor(id: Id) returns (made: M.Name)
      requires Valid()
      ensures made !in all && M.IdOf(made) == id
    {
      var top := Above(all.Keys);
      made := (top + 1) * TWO_32 + (id - 2) % TWO_32;
      assert made > top;
    }

    static lemma Above(names: set<M.Name>) returns (top: M.Name)
      ensures forall h :: h in names ==> h <= top
    {
      if names == {} {
        top := 0;
      } else {
        var h :| h in names;
        var rest := Above(names - {h});
        top := if h > rest then h else rest;
        assert forall g :: g in names ==> g == h || g in names - {h};
      }
    }

    /** handleFrame: the step of MuxModel, followed, when that step closed a stream for
        lack of room, by the rest of its Close call.  `made` names the object that an
        OPEN frame makes; one is always to be had. */
    method HandleFrame(f: Frame, ghost made: M.Name)
      requires Valid()
      requires f.kind == FRAME_OPEN ==> made !in all && f.id == M.IdOf(made)
      modifies this`all, this`streams, this`acceptCh, this`sent, this`tail, conn`output, conn`dead, streams.Values
      ensures Valid()
      ensures var e := M.HandleFrame(old(View()), f, made);
        var h := if f.kind == FRAME_OPEN then made else if f.id in old(streams) then old(streams[f.id].name) else 0;
        View() == if old(Overflows(f)) then RestOfClose(e, h, Result(old(conn.dead))) else e
    {
      hide Objs, Backlog, WireOk, RestOfClose, M.PushData;
      if f.kind == FRAME_OPEN {
        HandleOpen(f.id, made);
      } else if f.id in streams {
        var st := streams[f.id];
        StreamInView(st);
        if f.kind == FRAME_DATA {
          PushData(st, f.payload);
        } else if f.kind == FRAME_CLOSE {
          HandleClose(st);
        }
      }
    }

    // ---- Accept and session Close ---------------------------------------------------------

    /** Accept, when it returns: the oldest stream of the backlog; or nothing, and nothing
        taken, which with a filled backlog happens only once the session is closed or the
        caller has given up. */
    method Accept(givenUp: bool) returns (st: MuxStream?)
      requires Valid()
      modifies this`acceptCh, all.Values`accepted
      ensures Valid() && View() == if st != null then M.AcceptStream(old(View())) else old(View())
      ensures st != null ==> old(acceptCh) != [] && st == old(acceptCh)[0]
      ensures st == null ==> old(acceptCh) == [] || closed || givenUp
    {
      var pickEnd: bool := *;
      hide Objs, NameTable, WireOk;
      if acceptCh == [] || (pickEnd && (closed || givenUp)) {
        return null;
      }
      st := acceptCh[0];
      StreamInView(st);
      MarkAccepted(st);
      PopBacklog();
    }

    ghost method MarkAccepted(st: MuxStream)
      requires Valid() && Mine(st)
      modifies st`accepted
      ensures Valid()
      ensures View() == M.Put(old(View()), st.name, old(st.View()).(accepted := true))
    {
      st.accepted := true;
      OnlyStreamChanged(st);
    }

    method PopBacklog()
      requires Valid() && acceptCh != []
      modifies this`acceptCh
      ensures Valid()
      ensures View() == old(View()).(backlog := old(View()).backlog[1..])
    {
      hide Objs, NameTable, WireOk;
      ghost var v := View();
      acceptCh := acceptCh[1..];
      assert Backlog() == v.backlog[1..];
    }

    // remoteClose on every stream of the table
    method CloseEach()
      modifies streams.Values`chOpen, streams.Values`closeOnce, streams.Values`closes, streams.Values`misused
      ensures forall st :: st in streams.Values ==> st.View() == M.CloseQueue(old(st.View()))
    {
      hide MuxStream.View, MuxStream.ClosedOnce;
      var todo := streams.Values;
      while todo != {}
        invariant todo <= streams.Values
        invariant forall st :: st in todo ==> st.View() == old(st.View())
        invariant forall st :: st in streams.Values && st !in todo ==> st.View() == M.CloseQueue(old(st.View()))
        decreases todo
      {
        var st :| st in todo;
        st.RemoteClose();
        todo := todo - {st};
      }
    }

    lemma TableView(h: M.Name)
      requires Valid() && h in all
      ensures h in View().objs && View().objs[h] == all[h].View()
      ensures M.Listed(View(), h) <==> all[h] in streams.Values
    {
      if all[h] in streams.Values {
        var i :| i in streams && streams[i] == all[h];
        assert all[h].id == i;
      }
    }

    method CloseQueues()
      requires Valid()
      modifies streams.Values`chOpen, streams.Values`closeOnce, streams.Values`closes, streams.Values`misused
      ensures Valid() && all == old(all) && Objs().Keys == old(View()).objs.Keys
      ensures forall h :: h in Objs() ==>
        Objs()[h] == if M.Listed(old(View()), h) then M.CloseQueue(old(View()).objs[h]) else old(View()).objs[h]
      ensures forall st :: st in streams.Values ==> st.closeOnce && (old(st.ClosedOnce()) ==> !st.chOpen)
    {
      ghost var v := View();
      forall h | h in all
        ensures M.Listed(v, h) <==> all[h] in streams.Values
      {
        TableView(h);
      }
      CloseEach();
      forall st | st in streams.Values
        ensures st.closeOnce && (old(st.ClosedOnce()) ==> !st.chOpen)
      {
        ClosedByClose(st);
      }
    }

    twostate lemma ClosedByClose(st: MuxStream)
      requires st.View() == M.CloseQueue(old(st.View()))
      ensures st.closeOnce && (old(st.ClosedOnce()) ==> !st.chOpen)
    {
    }

    method Clear()
      requires Valid()
      modifies this`streams, this`closed
      ensures Valid() && closed && streams == map[]
      ensures View() == old(View()).(closed := true, table := map[])
    {
      hide Objs, Backlog, WireOk;
      closed := true;
      streams := map[];
    }

    static lemma ObjsClosed(v: M.End, objs: map<M.Name, M.Stream>)
      requires !v.closed && objs.Keys == v.objs.Keys
      requires forall h :: h in objs ==> objs[h] == if M.Listed(v, h) then M.CloseQueue(v.objs[h]) else v.objs[h]
      ensures objs == M.CloseSession(v).objs
    {
    }

    /** Session Close: the session is closed for good, the queue of every stream that was
        listed is closed, the table is empty; and only once. */
    method Close()
      requires Valid()
      modifies this`streams, this`closed
      modifies streams.Values`chOpen, streams.Values`closeOnce, streams.Values`closes, streams.Values`misused
      ensures Valid() && View() == M.CloseSession(old(View()))
      ensures closed && (!old(closed) ==> streams == map[])
      ensures !old(closed) ==>
        forall st :: st in old(streams).Values ==> st.closeOnce && (old(st.ClosedOnce()) ==> !st.chOpen)
      ensures old(closed) ==> streams == old(streams)
    {
      if closed {
        return;
      }
      hide Objs, NameTable, Backlog, WireOk, RegistryOk, M.Listed, M.CloseQueue;
      ghost var v := View();
      CloseQueues();
      ObjsClosed(v, Objs());
      Clear();
    }
  }

  // ---- readLoop ---------------------------------------------------------------------------

  /** One turn of readLoop: ReadFull of the header, then of the payload. */
  method ReadFrame(conn: ByteConn) returns (f: Option<Frame>)
    modifies conn`input
    ensures f.None? <==> DecodeFrame(old(conn.input)).None?
    ensures f.None? ==> conn.input == []
    ensures f.Some? ==> var n := DecodeFrame(old(conn.input)).value.1;
      && f.value == DecodeFrame(old(conn.input)).value.0
      && conn.input == old(conn.input)[n..] && 0 < n <= |old(conn.input)|
  {
    ghost var b := conn.input;
    var ok, h := conn.ReadFull(HEADER);
    if !ok {
      return None;
    }
    ghost var rest := conn.input;
    assert b == h + rest && b[1..5] == h[1..5] && b[5..9] == h[5..9];
    var payload := [];
    if HeaderLength(h) > 0 {
      ok, payload := conn.ReadFull(HeaderLength(h));
      if !ok {
        return None;
      }
    }
    assert rest == payload + conn.input;
    assert b[HEADER..HEADER + |payload|] == payload && b[HEADER + |payload|..] == conn.input;
    f := Some(Frame(h[0], HeaderId(h), payload));
  }

  /** readLoop up to the end of the stream: it hands over exactly the frames that are
      complete in what arrives, however the reads were split. */
  method ReadAllFrames(conn: ByteConn) returns (fs: seq<Frame>)
    modifies conn`input
    ensures fs == DecodeAll(CODEC, old(conn.input)) && conn.input == []
  {
    fs := [];
    ghost var b := conn.input;
    while true
      invariant fs + DecodeAll(CODEC, conn.input) == DecodeAll(CODEC, b)
      decreases |conn.input|
    {
      ghost var before := conn.input;
      var f := ReadFrame(conn);
      if f.None? {
        return;
      }
      assert DecodeAll(CODEC, before) == [f.value] + DecodeAll(CODEC, conn.input);
      fs := fs + [f.value];
    }
  }

  lemma OneMoreChunk(e: M.End, h: M.Name, cs: seq<seq<Byte>>, n: nat)
    requires n < |cs|
    ensures M.WriteChunks(e, h, cs[..n + 1]) == M.WriteChunk(M.WriteChunks(e, h, cs[..n]), h, cs[n], M.Sent)
  {
    assert cs[..n + 1][..n] == cs[..n];
  }

  lemma WirePart(base: seq<Byte>, frames: seq<Byte>, part: seq<Byte>)
    ensures base + (frames + []) + part == base + (frames + part)
  {
  }

  lemma WireGrows(base: seq<Byte>, sent: seq<M.Tagged>, f: M.Tagged)
    ensures base + (EncodeAll(CODEC, M.EraseAll(sent + [f])) + [])
         == base + (EncodeAll(CODEC, M.EraseAll(sent)) + []) + EncodeFrame(M.Erase(f))
  {
    assert M.EraseAll(sent + [f]) == M.EraseAll(sent) + [M.Erase(f)];
    EncodeAllAppend(CODEC, M.EraseAll(sent), [M.Erase(f)]);
    EncodeAllSingle(CODEC, M.Erase(f));
  }
}
