/** Steps of the multiplexer in which a reader handles the next frame. */
module MuxDeliver {
  import opened Bytes
  import opened Framing
  import opened MuxWire
  import opened MuxModel
  import opened MuxInvariant
  import opened MuxSteps

  lemma BeginCloseOther(e: End, h: Name, g: Name)
    requires EndOk(e) && h in e.objs && g in e.objs && g != h
    ensures BeginClose(e, h).objs[g] == e.objs[g] && Listed(BeginClose(e, h), g) == Listed(e, g)
  {
    assert OneOk(e, h);
    assert OneOk(e, g);
    IdsDistinct(g, h);
  }

  // ---- DATA and CLOSE -----------------------------------------------------------------

  // the id in the frame leads to the stream of the frame's writer, or to none
  lemma LookupFindsOwner(y: End, h: Name)
    requires EndOk(y) && h in y.objs
    ensures IdOf(h) in y.table <==> Listed(y, h)
    ensures Listed(y, h) ==> y.table[IdOf(h)] == h
  {
    assert OneOk(y, h);
    ListedById(y, h);
  }

  // what handling a DATA or CLOSE frame may do: everything but the stream of the
  // frame stays, and that stream gains the payload or leaves the table
  ghost predicate Gained(y: End, y': End, f: Tagged) {
    && f.stream in y.objs
    && y'.objs.Keys == y.objs.Keys
    && (forall g :: g in y.objs && g != f.stream ==> y'.objs[g] == y.objs[g] && Listed(y', g) == Listed(y, g))
    && (var s, t := y.objs[f.stream], y'.objs[f.stream];
        && t.id == s.id && t.opening == s.opening && t.openedAt == s.openedAt
        && t.written == s.written && t.accepted == s.accepted
        && (Listed(y', f.stream) ==> Listed(y, f.stream) && Received(t) == Received(s) + Piece(f, f.stream))
        && (!Listed(y, f.stream) ==> t == s)
        && (Received(t) == Received(s) || (Listed(y, f.stream) && Received(t) == Received(s) + Piece(f, f.stream))))
    && y'.out == y.out && y'.tail == y.tail && y'.dead == y.dead && y'.opens == y.opens
    && y'.nextID == y.nextID && y'.backlog == y.backlog && y'.handled == y.handled
  }

  lemma EnqueueKeeps(s: Stream, p: seq<Byte>)
    requires StreamOk(s) && s.queueOpen && |s.queue| < QUEUE_LIMIT && p != []
    ensures StreamOk(Enqueue(s, p)) && Received(Enqueue(s, p)) == Received(s) + p
  {
    ConcatAppend(s.queue, [p]);
    ConcatSingle(p);
  }

  lemma PushKeeps(y: End, h: Name, p: seq<Byte>)
    requires EndOk(y) && h in y.objs && Listed(y, h) && y.objs[h].opening == Live
    ensures EndOk(PushData(y, h, p)) && Gained(y, PushData(y, h, p), Tagged(h, FRAME_DATA, p))
  {
    assert OneOk(y, h);
    ListedById(y, h);
    var s := y.objs[h];
    if p != [] {
      if |s.queue| < QUEUE_LIMIT {
        PushEnqueues(y, h, p);
      } else {
        PushOverflows(y, h, p);
      }
    }
  }

  lemma PushEnqueues(y: End, h: Name, p: seq<Byte>)
    requires EndOk(y) && h in y.objs && Listed(y, h) && y.objs[h].opening == Live && OneOk(y, h)
    requires p != [] && |y.objs[h].queue| < QUEUE_LIMIT
    ensures EndOk(PushData(y, h, p)) && Gained(y, PushData(y, h, p), Tagged(h, FRAME_DATA, p))
  {
    var t := Enqueue(y.objs[h], p);
    EnqueueKeeps(y.objs[h], p);
    ReplaceKeeps(y, Put(y, h, t), h, t);
  }

  lemma PushOverflows(y: End, h: Name, p: seq<Byte>)
    requires EndOk(y) && h in y.objs && Listed(y, h) && y.objs[h].opening == Live && OneOk(y, h)
    requires p != [] && |y.objs[h].queue| >= QUEUE_LIMIT
    ensures EndOk(PushData(y, h, p)) && Gained(y, PushData(y, h, p), Tagged(h, FRAME_DATA, p))
  {
    BeginCloseKeeps(y, h);
    forall g | g in y.objs && g != h
      ensures BeginClose(y, h).objs[g] == y.objs[g] && Listed(BeginClose(y, h), g) == Listed(y, g)
    {
      BeginCloseOther(y, h, g);
    }
  }

  lemma PeerCloseKeeps(y: End, h: Name)
    requires EndOk(y) && h in y.objs && Listed(y, h) && OneOk(y, h)
    ensures var y' := Unlist(Put(y, h, CloseQueue(y.objs[h])), IdOf(h));
      EndOk(y') && Gained(y, y', Tagged(h, FRAME_CLOSE, []))
  {
    var t := CloseQueue(y.objs[h]);
    var y' := Unlist(Put(y, h, t), IdOf(h));
    ReplaceKeeps(y, y', h, t);
    forall g | g in y.objs && g != h
      ensures Listed(y', g) == Listed(y, g)
    {
      ReplaceOther(y, y', h, t, g);
    }
  }

  lemma HandleKeeps(y: End, f: Tagged)
    requires EndOk(y) && f.stream in y.objs && y.objs[f.stream].opening == Live
    requires f.kind == FRAME_DATA || (f.kind == FRAME_CLOSE && f.payload == [])
    ensures EndOk(HandleFrame(y, Erase(f), f.stream)) && Gained(y, HandleFrame(y, Erase(f), f.stream), f)
  {
    var h := f.stream;
    assert OneOk(y, h);
    LookupFindsOwner(y, h);
    if Listed(y, h) {
      if f.kind == FRAME_DATA {
        PushKeeps(y, h, f.payload);
      } else {
        PeerCloseKeeps(y, h);
      }
    }
  }

  // ---- and then everything else still holds -----------------------------------------------

  lemma Counted(y': End, k: nat)
    requires EndOk(y')
    ensures EndOk(y'.(handled := k))
  {
    var z := y'.(handled := k);
    forall h | h in z.objs
      ensures OneOk(z, h)
    {
      assert OneOk(y', h);
    }
  }

  lemma GainedHeard(y: End, y': End, x: End, rx: seq<Byte>, f: Tagged)
    requires Heard(y, x, rx) && y.handled < |x.out| && f == x.out[y.handled]
    requires y.handled < |DecodeAll(CODEC, rx)|
    requires Gained(y, y', f)
    ensures Heard(y'.(handled := y.handled + 1), x, rx)
  {
    var z := y'.(handled := y.handled + 1);
    forall h | h in z.objs
      ensures HeardStream(z, x, h)
    {
      GainedHeardOne(y, y', x, f, h);
    }
  }

  lemma GainedHeardOne(y: End, y': End, x: End, f: Tagged, h: Name)
    requires y.handled < |x.out| && f == x.out[y.handled] && Gained(y, y', f)
    requires h in y.objs && HeardStream(y, x, h)
    ensures HeardStream(y'.(handled := y.handled + 1), x, h)
  {
    PayloadTake(x.out, y.handled, h);
    var z := y'.(handled := y.handled + 1);
    assert Listed(z, h) == Listed(y', h);
    if h != f.stream {
      assert Piece(f, h) == [];
      assert z.objs[h] == y.objs[h];
    }
  }

  lemma GainedOut(y: End, y': End, f: Tagged, k: nat)
    requires OutOk(y) && Gained(y, y', f)
    ensures OutOk(y'.(handled := k))
  {
  }

  lemma GainedBacklog(y: End, y': End, f: Tagged, k: nat)
    requires BacklogOk(y) && Gained(y, y', f)
    ensures BacklogOk(y'.(handled := k))
  {
    var z := y'.(handled := k);
    forall h | h in z.objs && Listed(z, h)
      ensures z.objs[h].accepted || h in z.backlog
    {
      assert Listed(y', h);
      assert Listed(y, h);
    }
  }

  // the peer sees only the frames, which have not changed
  lemma GainedPeer(x: End, y: End, y': End, rx: seq<Byte>, f: Tagged, k: nat)
    requires Heard(x, y, rx) && Gained(y, y', f)
    ensures Heard(x, y'.(handled := k), rx)
  {
    forall h | h in x.objs
      ensures HeardStream(x, y'.(handled := k), h)
    {
      assert HeardStream(x, y, h);
    }
  }

  lemma GainedOpener(o: End, o': End, a: End, f: Tagged, k: nat)
    requires OpenerCounts(o) && OpenFirst(o) && AcceptorHas(o, a) && Gained(o, o', f)
    ensures var z := o'.(handled := k); OpenerCounts(z) && OpenFirst(z) && AcceptorHas(z, a)
  {
    GainedSame(o, o', f);
    hide Gained, Listed, Received;
    SameCounts(o, o'.(handled := k));
    SameArrivals(o, o'.(handled := k), a, a);
  }

  // what neither end's bookkeeping of streams sees
  ghost predicate SameBooks(e: End, e': End) {
    && e'.objs.Keys == e.objs.Keys && e'.out == e.out && e'.opens == e.opens && e'.nextID == e.nextID
    && e'.backlog == e.backlog
    && (forall h :: h in e.objs ==>
          e'.objs[h].opening == e.objs[h].opening && e'.objs[h].openedAt == e.objs[h].openedAt)
  }

  lemma GainedSame(y: End, y': End, f: Tagged)
    requires Gained(y, y', f)
    ensures SameBooks(y, y')
  {
  }

  lemma SameCounts(o: End, o': End)
    requires OpenerCounts(o) && OpenFirst(o) && SameBooks(o, o')
    ensures OpenerCounts(o') && OpenFirst(o')
  {
  }

  lemma SameArrivals(o: End, o': End, a: End, a': End)
    requires AcceptorHas(o, a) && SameBooks(o, o') && SameBooks(a, a') && a'.handled == a.handled
    ensures AcceptorHas(o', a')
  {
    forall h: Name
      ensures Arrived(o', a', h) <==> Arrived(o, a, h)
    {
    }
  }

  lemma GainedAcceptor(o: End, a: End, a': End, f: Tagged)
    requires OpenFirst(o) && AcceptorHas(o, a) && Gained(a, a', f)
    requires a.handled < |o.out| && f == o.out[a.handled] && f.kind != FRAME_OPEN
    ensures AcceptorHas(o, a'.(handled := a.handled + 1))
  {
    GainedSame(a, a', f);
    hide Gained, Listed, Received;
    CountedArrivals(o, a, a'.(handled := a.handled + 1));
  }

  // a frame that is no OPEN opens nothing
  lemma CountedArrivals(o: End, a: End, z: End)
    requires OpenFirst(o) && AcceptorHas(o, a) && SameBooks(a, z) && z.handled == a.handled + 1
    requires a.handled < |o.out| && o.out[a.handled].kind != FRAME_OPEN
    ensures AcceptorHas(o, z)
  {
    forall h: Name
      ensures Arrived(o, z, h) <==> Arrived(o, a, h)
    {
    }
  }

  // ---- OPEN -------------------------------------------------------------------------------

  // the stream an OPEN frame makes, before the backlog is looked at
  function Opened(a: End, h: Name): End {
    Put(a, h, NewStream(IdOf(h), Live, 0)).(table := a.table[IdOf(h) := h])
  }

  lemma OpenedKeeps(a: End, h: Name)
    requires EndOk(a) && h !in a.objs && h < TWO_32
    ensures EndOk(Opened(a, h)) && Listed(Opened(a, h), h)
    ensures forall g :: g in a.objs ==> Listed(Opened(a, h), g) == Listed(a, g)
  {
    var t := NewStream(IdOf(h), Live, 0);
    var e' := Opened(a, h);
    assert e'.table - {IdOf(h)} == a.table - {IdOf(h)};
    ReplaceKeeps(a, e', h, t);
    forall g | g in a.objs
      ensures Listed(e', g) == Listed(a, g)
    {
      ReplaceOther(a, e', h, t, g);
    }
  }

  // what handling an OPEN frame does
  ghost predicate Made(a: End, a': End, h: Name) {
    && h !in a.objs
    && a'.objs.Keys == a.objs.Keys + {h}
    && (forall g :: g in a.objs ==> a'.objs[g] == a.objs[g] && Listed(a', g) == Listed(a, g))
    && a'.objs[h].opening == Live && a'.objs[h].openedAt == 0 && Received(a'.objs[h]) == [] && a'.objs[h].written == []
    && !a'.objs[h].accepted
    && a'.out == a.out && a'.tail == a.tail && a'.dead == a.dead && a'.handled == a.handled
    && (if |a.backlog| < BACKLOG_LIMIT then a'.backlog == a.backlog + [h]
        else a'.backlog == a.backlog && !Listed(a', h))
  }

  lemma HandleOpenKeeps(a: End, h: Name)
    requires EndOk(a) && h !in a.objs && h < TWO_32
    ensures var a' := HandleFrame(a, Frame(FRAME_OPEN, IdOf(h), []), h); EndOk(a') && Made(a, a', h)
  {
    var e := Opened(a, h);
    OpenedKeeps(a, h);
    if |a.backlog| < BACKLOG_LIMIT {
      var a' := e.(backlog := a.backlog + [h]);
      forall g | g in a'.objs
        ensures OneOk(a', g)
      {
        assert OneOk(e, g);
      }
    } else {
      HandleOpenRefuses(a, h);
    }
  }

  lemma HandleOpenRefuses(a: End, h: Name)
    requires EndOk(a) && h !in a.objs && h < TWO_32 && |a.backlog| >= BACKLOG_LIMIT
    requires EndOk(Opened(a, h)) && Listed(Opened(a, h), h)
    requires forall g :: g in a.objs ==> Listed(Opened(a, h), g) == Listed(a, g)
    ensures EndOk(BeginClose(Opened(a, h), h)) && Made(a, BeginClose(Opened(a, h), h), h)
  {
    hide EndOk, Listed, StreamOk, KeptQuietly;
    var e := Opened(a, h);
    BeginCloseKeeps(e, h);
    forall g | g in a.objs
      ensures BeginClose(e, h).objs[g] == a.objs[g] && Listed(BeginClose(e, h), g) == Listed(a, g)
    {
      BeginCloseOther(e, h, g);
    }
  }

  lemma MadeHeard(a: End, a': End, o: End, rx: seq<Byte>, h: Name)
    requires Heard(a, o, rx) && OpenFirst(o) && AcceptorHas(o, a)
    requires a.handled < |o.out| && o.out[a.handled] == Tagged(h, FRAME_OPEN, [])
    requires a.handled < |DecodeAll(CODEC, rx)|
    requires Made(a, a', h)
    ensures Heard(a'.(handled := a.handled + 1), o, rx)
  {
    var z := a'.(handled := a.handled + 1);
    forall g | g in z.objs
      ensures HeardStream(z, o, g)
    {
      PayloadTake(o.out, a.handled, g);
      if g == h {
        NothingBeforeOpen(o, h, a.handled);
      } else {
        assert HeardStream(a, o, g);
        assert Listed(z, g) == Listed(a', g);
      }
    }
  }

  lemma NothingBeforeOpen(o: End, h: Name, k: nat)
    requires OpenFirst(o) && k < |o.out| && o.out[k].stream == h && o.out[k].kind == FRAME_OPEN
    ensures Payload(o.out[..k], h) == []
  {
    forall i | 0 <= i < k
      ensures o.out[..k][i].stream != h
    {
      assert o.out[..k][i] == o.out[i];
      assert o.objs[h].openedAt == k;
    }
    PayloadNone(o.out[..k], h);
  }

  lemma MadeAcceptor(o: End, a: End, a': End, h: Name)
    requires OpenFirst(o) && FramesOk(o) && AcceptorHas(o, a) && Made(a, a', h)
    requires a.handled < |o.out| && o.out[a.handled] == Tagged(h, FRAME_OPEN, [])
    ensures AcceptorHas(o, a'.(handled := a.handled + 1))
  {
    var z := a'.(handled := a.handled + 1);
    assert o.objs[h].openedAt == a.handled;
    forall g: Name
      ensures Arrived(o, z, g) <==> Arrived(o, a, g) || g == h
    {
      if Arrived(o, z, g) && o.objs[g].openedAt == a.handled {
        assert o.out[a.handled].stream == g;
      }
    }
  }

  lemma MadeOut(a: End, a': End, h: Name, k: nat)
    requires OutOk(a) && Made(a, a', h)
    ensures OutOk(a'.(handled := k))
  {
    forall i | 0 <= i < |a.out|
      ensures a.out[i].stream != h
    {
    }
    PayloadNone(a.out, h);
  }

  lemma MadeBacklog(a: End, a': End, h: Name, k: nat)
    requires BacklogOk(a) && Made(a, a', h)
    ensures BacklogOk(a'.(handled := k))
  {
    var z := a'.(handled := k);
    forall g | g in z.objs && Listed(z, g)
      ensures z.objs[g].accepted || g in z.backlog
    {
      assert Listed(a', g);
      if g != h {
        assert Listed(a, g);
        assert g in a.backlog ==> g in z.backlog;
      }
    }
    assert forall g :: g in z.backlog ==> g in a.backlog || g == h;
  }

  // the opener knows the stream already and has received nothing on it
  lemma MadePeer(o: End, a: End, a': End, rx: seq<Byte>, h: Name, k: nat)
    requires Heard(o, a, rx) && Made(a, a', h)
    ensures Heard(o, a'.(handled := k), rx)
  {
    forall g | g in o.objs
      ensures HeardStream(o, a'.(handled := k), g)
    {
      assert HeardStream(o, a, g);
    }
  }
}
