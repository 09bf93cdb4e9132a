/** Each step of the multiplexer keeps the invariant of MuxInvariant. */
module MuxSteps {
  import opened Bytes
  import opened MuxWire
  import opened MuxModel
  import opened MuxInvariant

  // ---- one stream changes, and with it at most its own place in the table ------------

  ghost predicate Replaces(e: End, e': End, h: Name, t: Stream) {
    && e'.objs == e.objs[h := t]
    && e'.table - {IdOf(h)} == e.table - {IdOf(h)}
    && (IdOf(h) in e'.table ==> e'.table[IdOf(h)] == h)
  }

  lemma ReplaceOther(e: End, e': End, h: Name, t: Stream, g: Name)
    requires EndOk(e) && Replaces(e, e', h, t) && h < TWO_32 && g in e.objs && g != h
    ensures Listed(e', g) == Listed(e, g)
  {
    assert OneOk(e, g);
    IdsDistinct(g, h);
    var i := IdOf(g);
    assert i in e.table <==> i in e.table - {IdOf(h)};
    assert i in e'.table <==> i in e'.table - {IdOf(h)};
    assert i in e.table ==> (e.table - {IdOf(h)})[i] == e.table[i];
    assert i in e'.table ==> (e'.table - {IdOf(h)})[i] == e'.table[i];
  }

  lemma ReplaceTable(e: End, e': End, h: Name, t: Stream, i: Id)
    requires EndOk(e) && Replaces(e, e', h, t) && i in e'.table
    ensures e'.table[i] in e'.objs && IdOf(e'.table[i]) == i
  {
    if i != IdOf(h) {
      assert i in e'.table - {IdOf(h)};
      assert (e.table - {IdOf(h)})[i] == e'.table[i];
    }
  }

  lemma ReplaceKeeps(e: End, e': End, h: Name, t: Stream)
    requires EndOk(e) && Replaces(e, e', h, t) && h < TWO_32
    requires t.id == IdOf(h) && StreamOk(t) && PlaceOk(t, IdOf(h) in e'.table)
    ensures EndOk(e')
  {
    forall g | g in e'.objs
      ensures OneOk(e', g)
    {
      if g != h {
        ReplaceOther(e, e', h, t, g);
        assert OneOk(e, g);
      }
    }
    forall i | i in e'.table
      ensures e'.table[i] in e'.objs && IdOf(e'.table[i]) == i
    {
      ReplaceTable(e, e', h, t, i);
    }
  }

  ghost predicate SameOut(e: End, e': End) {
    && e'.out == e.out && e.tail <= e'.tail && e'.handled == e.handled
    && e'.opens == e.opens && e'.nextID == e.nextID
  }

  lemma ReplaceQuiet(e: End, e': End, h: Name, t: Stream)
    requires EndOk(e) && Replaces(e, e', h, t) && h in e.objs && QuietStream(e.objs[h], t)
    requires IdOf(h) in e'.table ==> Listed(e, h)
    requires SameOut(e, e')
    ensures Quiet(e, e')
  {
    assert OneOk(e, h);
    forall i | i in e'.table
      ensures i in e.table && e'.table[i] == e.table[i]
    {
      if i != IdOf(h) {
        assert i in e'.table - {IdOf(h)};
        assert (e.table - {IdOf(h)})[i] == e'.table[i];
      }
    }
  }

  lemma ReplaceBacklog(e: End, e': End, h: Name, t: Stream)
    requires EndOk(e) && Replaces(e, e', h, t) && h in e.objs && e'.backlog == e.backlog && BacklogOk(e)
    requires t.accepted == e.objs[h].accepted && t.id == IdOf(h)
    requires IdOf(h) in e'.table ==> Listed(e, h)
    ensures BacklogOk(e')
  {
    assert OneOk(e, h);
    forall g | g in e'.objs && Listed(e', g)
      ensures e'.objs[g].accepted || g in e'.backlog
    {
      if g != h {
        ReplaceOther(e, e', h, t, g);
      }
    }
  }

  // what every step on one stream that moves no byte across the pipe comes to
  lemma QuietReplace(e: End, e': End, h: Name, t: Stream)
    requires EndOk(e) && Replaces(e, e', h, t) && h in e.objs && QuietStream(e.objs[h], t)
    requires StreamOk(t) && PlaceOk(t, IdOf(h) in e'.table) && t.accepted == e.objs[h].accepted
    requires IdOf(h) in e'.table ==> Listed(e, h)
    requires SameOut(e, e') && e'.backlog == e.backlog
    ensures EndOk(e') && Quiet(e, e') && (BacklogOk(e) ==> BacklogOk(e'))
  {
    assert OneOk(e, h);
    ReplaceKeeps(e, e', h, t);
    ReplaceQuiet(e, e', h, t);
    if BacklogOk(e) {
      ReplaceBacklog(e, e', h, t);
    }
  }

  lemma ListedById(e: End, h: Name)
    requires EndOk(e) && h in e.objs
    ensures Listed(e, h) <==> IdOf(h) in e.table
  {
    assert OneOk(e, h);
    if IdOf(h) in e.table {
      var g := e.table[IdOf(h)];
      assert OneOk(e, g);
      IdsDistinct(g, h);
    }
  }

  // the new value of a stream whose place in the table does not change
  ghost predicate SamePlace(s: Stream, t: Stream) {
    && t.id == s.id && t.opening == s.opening && t.openedAt == s.openedAt && t.accepted == s.accepted
    && t.queueOpen == s.queueOpen && t.localClosed == s.localClosed && t.written == s.written
    && Received(t) == Received(s)
  }

  lemma PutSamePlace(e: End, h: Name, t: Stream)
    requires EndOk(e) && h in e.objs && SamePlace(e.objs[h], t) && StreamOk(t)
    ensures EndOk(Put(e, h, t)) && Quiet(e, Put(e, h, t))
    ensures BacklogOk(e) ==> BacklogOk(Put(e, h, t))
  {
    assert OneOk(e, h);
    ListedById(e, h);
    QuietReplace(e, Put(e, h, t), h, t);
  }

  lemma TakeKeeps(s: Stream)
    requires StreamOk(s)
    ensures StreamOk(IngestTake(s)) && SamePlace(s, IngestTake(s))
  {
    var t := IngestTake(s);
    if s.held == [] && s.queue != [] {
      assert Received(s) == s.delivered + s.buf + (s.queue[0] + Concat(s.queue[1..]));
    }
  }

  lemma StoreKeeps(s: Stream)
    requires StreamOk(s)
    ensures StreamOk(IngestStore(s)) && SamePlace(s, IngestStore(s))
  {
    var t := IngestStore(s);
    assert t.delivered + t.buf + t.held == s.delivered + s.buf + s.held;
  }

  lemma ReadKeeps(s: Stream, room: nat)
    requires StreamOk(s)
    ensures StreamOk(ReadBytes(s, room).0) && SamePlace(s, ReadBytes(s, room).0)
  {
    var t := ReadBytes(s, room).0;
    assert t.delivered + t.buf == s.delivered + s.buf;
  }

  lemma EndKeeps(s: Stream)
    requires StreamOk(s)
    ensures StreamOk(IngestEnd(s)) && SamePlace(s, IngestEnd(s))
  {
  }

  predicate IngestOrRead(a: Action) {
    a.DoIngestTake? || a.DoIngestStore? || a.DoIngestEnd? || a.DoRead?
  }

  function StreamAct(s: Stream, a: Action): Stream
    requires IngestOrRead(a)
  {
    match a
    case DoIngestTake(h) => IngestTake(s)
    case DoIngestStore(h) => IngestStore(s)
    case DoIngestEnd(h) => IngestEnd(s)
    case DoRead(h, room) => ReadBytes(s, room).0
  }

  lemma StreamActKeeps(s: Stream, a: Action)
    requires StreamOk(s) && IngestOrRead(a)
    ensures StreamOk(StreamAct(s, a)) && SamePlace(s, StreamAct(s, a))
  {
    match a
    case DoIngestTake(h) => TakeKeeps(s);
    case DoIngestStore(h) => StoreKeeps(s);
    case DoIngestEnd(h) => EndKeeps(s);
    case DoRead(h, room) => ReadKeeps(s, room);
  }

  ghost predicate KeptQuietly(e: End, e': End) {
    EndOk(e') && Quiet(e, e') && (BacklogOk(e) ==> BacklogOk(e')) && (e.backlog == [] ==> e'.backlog == [])
  }

  lemma IngestAndRead(e: End, a: Action)
    requires EndOk(e) && IngestOrRead(a)
    ensures KeptQuietly(e, Act(e, a))
    ensures Act(e, a).dead == e.dead && Act(e, a).tail == e.tail
  {
    if a.h in e.objs {
      assert OneOk(e, a.h);
      StreamActKeeps(e.objs[a.h], a);
      assert Act(e, a) == Put(e, a.h, StreamAct(e.objs[a.h], a));
      PutSamePlace(e, a.h, StreamAct(e.objs[a.h], a));
    }
  }

  // ---- closing ----------------------------------------------------------------------

  lemma BeginCloseKeeps(e: End, h: Name)
    requires EndOk(e) && Usable(e, h)
    ensures KeptQuietly(e, BeginClose(e, h))
    ensures !Listed(BeginClose(e, h), h)
    ensures BeginClose(e, h).dead == e.dead && BeginClose(e, h).tail == e.tail
  {
    assert OneOk(e, h);
    ListedById(e, h);
    if !e.objs[h].localClosed {
      QuietReplace(e, BeginClose(e, h), h, e.objs[h].(localClosed := true, closing := Unlisted));
    }
  }

  lemma FinishCloseKeeps(e: End, h: Name)
    requires EndOk(e)
    ensures KeptQuietly(e, FinishClose(e, h))
    ensures FinishClose(e, h).dead == e.dead && FinishClose(e, h).tail == e.tail
  {
    if h in e.objs && e.objs[h].closing == Announced {
      assert OneOk(e, h);
      ListedById(e, h);
      QuietReplace(e, FinishClose(e, h), h, CloseQueue(e.objs[h]).(closing := Finished));
    }
  }

  lemma CloseSessionStream(e: End, h: Name)
    requires EndOk(e) && h in e.objs && !e.closed
    ensures OneOk(CloseSession(e), h) && QuietStream(e.objs[h], CloseSession(e).objs[h])
    ensures CloseSession(e).objs[h].accepted == e.objs[h].accepted
  {
    assert OneOk(e, h);
    assert CloseSession(e).objs[h] == if Listed(e, h) then CloseQueue(e.objs[h]) else e.objs[h];
  }

  lemma CloseSessionKeeps(e: End)
    requires EndOk(e)
    ensures KeptQuietly(e, CloseSession(e))
    ensures CloseSession(e).dead == e.dead && CloseSession(e).tail == e.tail
  {
    hide StreamOk, PlaceOk, Received, CloseQueue, OneOk;
    if !e.closed {
      var e' := CloseSession(e);
      assert e'.objs.Keys == e.objs.Keys;
      forall h | h in e.objs
        ensures OneOk(e', h) && QuietStream(e.objs[h], e'.objs[h]) && e'.objs[h].accepted == e.objs[h].accepted
      {
        CloseSessionStream(e, h);
      }
    }
  }

  lemma AcceptKeeps(e: End)
    requires EndOk(e)
    ensures KeptQuietly(e, AcceptStream(e))
    ensures AcceptStream(e).dead == e.dead && AcceptStream(e).tail == e.tail
  {
    if e.backlog != [] && e.backlog[0] in e.objs {
      var h := e.backlog[0];
      var t := e.objs[h].(accepted := true);
      assert OneOk(e, h);
      ListedById(e, h);
      ReplaceKeeps(e, AcceptStream(e), h, t);
      ReplaceQuiet(e, AcceptStream(e), h, t);
      if BacklogOk(e) {
        AcceptBacklog(e, h, t);
      }
    }
  }

  lemma RestOfDistinct(s: seq<Name>, g: Name)
    requires Distinct(s) && s != []
    ensures Distinct(s[1..]) && s[0] !in s[1..]
    ensures g in s <==> g == s[0] || g in s[1..]
  {
    assert s == [s[0]] + s[1..];
  }

  lemma AcceptBacklog(e: End, h: Name, t: Stream)
    requires EndOk(e) && BacklogOk(e) && e.backlog != [] && h == e.backlog[0] && h in e.objs && OneOk(e, h)
    requires t == e.objs[h].(accepted := true)
    ensures BacklogOk(AcceptStream(e))
  {
    var e' := AcceptStream(e);
    assert e'.backlog == e.backlog[1..];
    RestOfDistinct(e.backlog, h);
    forall g | g in e'.backlog
      ensures g in e'.objs && !e'.objs[g].accepted
    {
      RestOfDistinct(e.backlog, g);
    }
    forall g | g in e'.objs && Listed(e', g)
      ensures e'.objs[g].accepted || g in e'.backlog
    {
      if g != h {
        AcceptOther(e, h, t, g);
        assert g in e.backlog || e.objs[g].accepted;
        RestOfDistinct(e.backlog, g);
      }
    }
  }

  lemma AcceptOther(e: End, h: Name, t: Stream, g: Name)
    requires EndOk(e) && e.backlog != [] && h == e.backlog[0] && h in e.objs && OneOk(e, h)
    requires t == e.objs[h].(accepted := true)
    requires g in e.objs && g != h
    ensures Listed(AcceptStream(e), g) == Listed(e, g)
    ensures AcceptStream(e).objs[g] == e.objs[g]
  {
  }
}
