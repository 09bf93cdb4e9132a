/** Workers on their way, waiting and taken, over the server of ControlRace and one
    client: the client dials PoolSize workers after the hello reply, and one more for
    every CHANNEL signal it reads from the control connection. */
module WorkerAccounting {
  import opened Wrappers
  import opened ControlRace

  datatype Signal = Channel | Other   // heartbeat and RTT signals dial nothing

  datatype World = World(
    server: Server,
    main: Option<nat>,       // the connection whose hello reply the client has read
    signals: seq<Signal>,    // on the control connection, towards the client
    pool: nat,
    dialing: nat,            // workers the client is dialling
    failed: nat,             // dials that failed
    written: nat,            // CHANNEL signals written
    waiting: nat,            // requests that have signalled and wait for a worker
    served: nat,             // requests that took one
    cancelled: nat)          // requests whose context ended first

  function Begin(pool: nat): World {
    World(START, None, [], pool, 0, 0, 0, 0, 0, 0)
  }

  datatype WorldStep =
    | ServerStep(step: Step)      // handleAccepted, clearControl, shutdown; foreign connections arrive
    | ClientStart(c: nat)         // the client has the reply and fills its pool
    | DialDone
    | DialFailed
    | Request                     // acquireWorker writes CHANNEL
    | Beat                        // the server writes another signal
    | ClientRead                  // one turn of the client's signal loop
    | Acquire                     // acquireWorker takes the first worker
    | Cancel

  predicate Allowed(w: World, step: WorldStep) {
    match step
    case ServerStep(st) => Enabled(w.server, st) && !st.TakeWorker? && (st.Accept? ==> !st.own)
    case ClientStart(c) => w.main.None? && (Has(w.server, c, Replied) || Has(w.server, c, Controlling))
    case DialDone => w.dialing > 0
    case DialFailed => w.dialing > 0
    case Request => w.main.Some? && w.server.control == w.main
    case Beat => w.main.Some?
    case ClientRead => w.signals != []
    case Acquire => w.waiting > 0 && Enabled(w.server, TakeWorker)
    case Cancel => w.waiting > 0
  }

  function After(w: World, step: WorldStep): World
    requires Allowed(w, step)
  {
    match step
    case ServerStep(st) => w.(server := Next(w.server, st))
    case ClientStart(c) => w.(main := Some(c), dialing := w.dialing + w.pool)
    case DialDone => w.(dialing := w.dialing - 1, server := Next(w.server, Accept(true)))
    case DialFailed => w.(dialing := w.dialing - 1, failed := w.failed + 1)
    case Request => w.(signals := w.signals + [Channel], written := w.written + 1, waiting := w.waiting + 1)
    case Beat => w.(signals := w.signals + [Other])
    case ClientRead =>
      w.(signals := w.signals[1..], dialing := if w.signals[0] == Channel then w.dialing + 1 else w.dialing)
    case Acquire => w.(server := Next(w.server, TakeWorker), waiting := w.waiting - 1, served := w.served + 1)
    case Cancel => w.(waiting := w.waiting - 1, cancelled := w.cancelled + 1)
  }

  // ---- counting -----------------------------------------------------------------------

  function Channels(signals: seq<Signal>): nat {
    if signals == [] then 0
    else Channels(signals[..|signals| - 1]) + (if signals[|signals| - 1] == Channel then 1 else 0)
  }

  lemma {:induction false} ChannelsFront(signals: seq<Signal>)
    requires signals != []
    ensures Channels(signals) == (if signals[0] == Channel then 1 else 0) + Channels(signals[1..])
  {
    if |signals| > 1 {
      var n := |signals| - 1;
      ChannelsFront(signals[..n]);
      assert signals[..n][1..] == signals[1..][..n - 1];
    } else {
      assert signals[1..] == [] == signals[..0];
    }
  }

  // where a connection stands; one that is being read as a hello is not on its way to
  // the queue, and if it is a worker it is lost
  datatype Place = Arriving | BeingRead | InQueue | WithRequest | Dropped | Hello

  function PlaceOf(p: Phase): Place {
    match p
    case Accepted => Arriving
    case Waiting => Arriving
    case Locked => Arriving
    case Reading => BeingRead
    case Queueing(_) => Arriving
    case Queued => InQueue
    case Taken => WithRequest
    case Closed(_) => Dropped
    case Replying => Hello
    case Replied => Hello
    case Controlling => Hello
    case Retired => Hello
  }

  function Count(conns: seq<Conn>, own: bool, at: Place): nat {
    if conns == [] then 0
    else
      var c := conns[|conns| - 1];
      Count(conns[..|conns| - 1], own, at) + (if c.own == own && PlaceOf(c.phase) == at then 1 else 0)
  }

  function Own(conns: seq<Conn>): nat {
    if conns == [] then 0
    else Own(conns[..|conns| - 1]) + (if conns[|conns| - 1].own then 1 else 0)
  }

  lemma {:induction false} OwnMove(conns: seq<Conn>, i: nat, p: Phase)
    requires i < |conns|
    ensures Own(conns[i := conns[i].(phase := p)]) == Own(conns)
  {
    var n := |conns| - 1;
    var moved := conns[i := conns[i].(phase := p)];
    if i < n {
      OwnMove(conns[..n], i, p);
      assert moved[..n] == conns[..n][i := conns[i].(phase := p)];
    } else {
      assert moved[..n] == conns[..n];
    }
  }

  lemma OwnAccept(conns: seq<Conn>, c: Conn)
    ensures Own(conns + [c]) == Own(conns) + (if c.own then 1 else 0)
  {
    assert (conns + [c])[..|conns|] == conns;
  }

  lemma {:induction false} CountMove(conns: seq<Conn>, i: nat, p: Phase, own: bool, at: Place)
    requires i < |conns|
    ensures var c := conns[i];
      Count(conns[i := c.(phase := p)], own, at) + (if c.own == own && PlaceOf(c.phase) == at then 1 else 0)
      == Count(conns, own, at) + (if c.own == own && PlaceOf(p) == at then 1 else 0)
  {
    var n := |conns| - 1;
    var moved := conns[i := conns[i].(phase := p)];
    if i < n {
      CountMove(conns[..n], i, p, own, at);
      assert moved[..n] == conns[..n][i := conns[i].(phase := p)];
    } else {
      assert moved[..n] == conns[..n];
    }
  }

  lemma CountAccept(conns: seq<Conn>, c: Conn, own: bool, at: Place)
    ensures Count(conns + [c], own, at)
      == Count(conns, own, at) + (if c.own == own && PlaceOf(c.phase) == at then 1 else 0)
  {
    assert (conns + [c])[..|conns|] == conns;
  }

  /** Every own connection is in exactly one place. */
  lemma {:induction false} OwnSplits(conns: seq<Conn>)
    ensures Own(conns) == Count(conns, true, Arriving) + Count(conns, true, BeingRead)
                          + Count(conns, true, InQueue) + Count(conns, true, WithRequest)
                          + Count(conns, true, Dropped) + Count(conns, true, Hello)
  {
    if conns != [] {
      OwnSplits(conns[..|conns| - 1]);
    }
  }

  // ---- the balance -------------------------------------------------------------------------

  function Ordered(w: World): nat {
    (if w.main.Some? then w.pool else 0) + w.written
  }

  ghost predicate Balanced(w: World) {
    && Inv(w.server)
    && Channels(w.signals) + w.dialing + w.failed + Own(w.server.conns) == Ordered(w)
    && w.waiting + w.served + w.cancelled == w.written
    && Count(w.server.conns, true, WithRequest) + Count(w.server.conns, false, WithRequest) == w.served
  }

  // workers are dialled only behind the hello reply; while that connection is the
  // control, or about to be, every worker was accepted after it had been told so
  ghost predicate BehindMain(w: World) {
    match w.main
    case None =>
      w.dialing == 0 && w.signals == [] && (forall i :: 0 <= i < |w.server.conns| ==> !w.server.conns[i].own)
    case Some(c) =>
      && c < |w.server.conns| && OnceTold(w.server.conns[c].phase)
      && (Told(w.server.conns[c].phase) ==>
            forall i :: 0 <= i < |w.server.conns| && w.server.conns[i].own ==> w.server.conns[i].after == Some(c))
  }

  lemma MovesOne(s: Server, step: Step)
    requires Inv(s) && Enabled(s, step) && Moving(step)
    ensures var i, t := Target(s, step), Next(s, step);
      && i < |s.conns| && i < |t.conns| && t.conns == s.conns[i := s.conns[i].(phase := t.conns[i].phase)]
      && PlaceOf(s.conns[i].phase) != WithRequest
      && (PlaceOf(t.conns[i].phase) == WithRequest <==> step.TakeWorker?)
  {
    hide LockOk, ControlOk, WitnessOk, OwnOk, QueueOk;
    Shape(s, step);
    NotTaken(s, step);
    OnlyTaking(s, step);
    hide Next, Enabled, NewPhase;
  }

  lemma OnlyTaking(s: Server, step: Step)
    requires Enabled(s, step) && Moving(step)
    ensures PlaceOf(NewPhase(s, step)) == WithRequest <==> step.TakeWorker?
  {
    hide Next;
  }

  // what a step of the server does to the counts
  lemma ServerCounts(s: Server, step: Step)
    requires Inv(s) && Enabled(s, step)
    ensures var t := Next(s, step);
      && Own(t.conns) == Own(s.conns) + (if step.Accept? && step.own then 1 else 0)
      && Count(t.conns, true, WithRequest) + Count(t.conns, false, WithRequest)
         == Count(s.conns, true, WithRequest) + Count(s.conns, false, WithRequest) + (if step.TakeWorker? then 1 else 0)
  {
    if step.Accept? {
      var c := Conn(Accepted, step.own, Announced(s));
      OwnAccept(s.conns, c);
      CountAccept(s.conns, c, true, WithRequest);
      CountAccept(s.conns, c, false, WithRequest);
    } else if !step.Stop? {
      MovesOne(s, step);
      var i := Target(s, step);
      MoveCounts(s.conns, Next(s, step).conns, i);
    }
  }

  lemma MoveCounts(a: seq<Conn>, b: seq<Conn>, i: nat)
    requires i < |a| && i < |b| && b == a[i := a[i].(phase := b[i].phase)] && PlaceOf(a[i].phase) != WithRequest
    ensures Own(b) == Own(a)
    ensures Count(b, true, WithRequest) + Count(b, false, WithRequest)
      == Count(a, true, WithRequest) + Count(a, false, WithRequest)
         + (if PlaceOf(b[i].phase) == WithRequest then 1 else 0)
  {
    OwnMove(a, i, b[i].phase);
    CountMove(a, i, b[i].phase, true, WithRequest);
    CountMove(a, i, b[i].phase, false, WithRequest);
  }

  lemma StepBalances(w: World, step: WorldStep)
    requires Balanced(w) && Allowed(w, step)
    ensures Balanced(After(w, step))
  {
    match step
    case ServerStep(st) => StepKeepsInv(w.server, st); ServerCounts(w.server, st);
    case DialDone => StepKeepsInv(w.server, Accept(true)); ServerCounts(w.server, Accept(true));
    case Acquire => StepKeepsInv(w.server, TakeWorker); ServerCounts(w.server, TakeWorker);
    case ClientRead => ChannelsFront(w.signals);
    case Request => assert (w.signals + [Channel])[..|w.signals|] == w.signals;
    case Beat => assert (w.signals + [Other])[..|w.signals|] == w.signals;
    case _ =>
  }

  ghost predicate WorldRun(w: World, steps: seq<WorldStep>, v: World)
    decreases |steps|
  {
    if steps == [] then w == v
    else Allowed(w, steps[0]) && WorldRun(After(w, steps[0]), steps[1..], v)
  }

  lemma {:induction false} RunBalances(w: World, steps: seq<WorldStep>, v: World)
    requires Balanced(w) && WorldRun(w, steps, v)
    ensures Balanced(v) && v.pool == w.pool
    decreases |steps|
  {
    if steps != [] {
      StepBalances(w, steps[0]);
      RunBalances(After(w, steps[0]), steps[1..], v);
    }
  }

  lemma ServerKeepsBehind(w: World, st: Step)
    requires Inv(w.server) && BehindMain(w) && Enabled(w.server, st) && (st.Accept? ==> !st.own)
    ensures BehindMain(w.(server := Next(w.server, st)))
  {
    var s, t := w.server, Next(w.server, st);
    GrowsOnly(s, st);
    if w.main.Some? {
      ToldStaysTold(s, st, w.main.value);
    }
    forall i: nat | i < |t.conns| && t.conns[i].own
      ensures i < |s.conns| && s.conns[i].own && t.conns[i].after == s.conns[i].after
    {
      OwnIsOld(s, st, i);
    }
    hide Inv, Next, Enabled;
  }

  lemma OwnIsOld(s: Server, st: Step, i: nat)
    requires Enabled(s, st) && (st.Accept? ==> !st.own) && i < |Next(s, st).conns| && Next(s, st).conns[i].own
    ensures i < |s.conns| && s.conns[i].own && Next(s, st).conns[i].after == s.conns[i].after
  {
    StepAt(s, st, i);
  }

  // who has been told, or is about to be, is the one that Announced names
  lemma ToldIsAnnounced(s: Server, c: nat)
    requires Inv(s) && c < |s.conns| && Told(s.conns[c].phase)
    ensures Announced(s) == Some(c)
  {
    hide QueueOk, WitnessOk, OwnOk;
  }

  lemma DialKeepsBehind(w: World)
    requires Inv(w.server) && BehindMain(w) && Allowed(w, DialDone)
    ensures BehindMain(After(w, DialDone))
  {
    var s, c := w.server, w.main.value;
    if Told(s.conns[c].phase) {
      ToldIsAnnounced(s, c);
    }
    hide Inv;
  }

  lemma StepKeepsBehind(w: World, step: WorldStep)
    requires Inv(w.server) && BehindMain(w) && Allowed(w, step)
    ensures BehindMain(After(w, step))
  {
    match step
    case ServerStep(st) => ServerKeepsBehind(w, st);
    case DialDone => DialKeepsBehind(w);
    case Acquire => ServerKeepsBehind(w, TakeWorker);
    case _ => hide Inv, Next, Enabled;
  }

  lemma {:induction false} RunKeepsBehind(w: World, steps: seq<WorldStep>, v: World)
    requires Balanced(w) && BehindMain(w) && WorldRun(w, steps, v)
    ensures Balanced(v) && BehindMain(v) && v.pool == w.pool
    decreases |steps|
  {
    if steps != [] {
      StepBalances(w, steps[0]);
      StepKeepsBehind(w, steps[0]);
      RunKeepsBehind(After(w, steps[0]), steps[1..], v);
    }
  }

  /** Accounting.  In every run, with dropped connections and failed dials on the
      balance: CHANNEL signals in flight, workers being dialled, arriving at the server,
      being read as a hello, queued, taken, dropped or failed are together PoolSize and
      the CHANNEL signals written. */
  lemma WorkersBalance(pool: nat, steps: seq<WorldStep>, w: World)
    requires WorldRun(Begin(pool), steps, w) && w.main.Some?
    ensures var c := w.server.conns;
      Channels(w.signals) + w.dialing + Count(c, true, Arriving) + Count(c, true, BeingRead)
      + Count(c, true, InQueue) + Count(c, true, WithRequest) + Count(c, true, Dropped) + w.failed == pool + w.written
  {
    RunBalances(Begin(pool), steps, w);
    OwnSplits(w.server.conns);
    NoOwnHello(w.server.conns);
  }

  lemma {:induction false} NoOwnHello(conns: seq<Conn>)
    requires forall i :: 0 <= i < |conns| && conns[i].own ==> PlaceOf(conns[i].phase) != Hello
    ensures Count(conns, true, Hello) == 0
  {
    if conns != [] {
      NoOwnHello(conns[..|conns| - 1]);
    }
  }

  lemma {:induction false} NoneBeingRead(conns: seq<Conn>)
    requires forall i :: 0 <= i < |conns| && conns[i].own ==> conns[i].phase != Reading
    ensures Count(conns, true, BeingRead) == 0
  {
    if conns != [] {
      NoneBeingRead(conns[..|conns| - 1]);
    }
  }

  /** While the control that the workers were dialled for is in place, no worker is read
      as a hello: each is on its way to the queue, queued or taken, or was closed for lack
      of room or at shutdown. */
  lemma WorkersReachQueue(pool: nat, steps: seq<WorldStep>, w: World, i: nat)
    requires WorldRun(Begin(pool), steps, w) && w.main.Some? && w.server.control == w.main
    requires i < |w.server.conns| && w.server.conns[i].own
    ensures match w.server.conns[i].phase
      case Closed(reason) => reason == NoRoom || reason == Stopped
      case p => PlaceOf(p) == Arriving || PlaceOf(p) == InQueue || PlaceOf(p) == WithRequest
  {
    RunKeepsBehind(Begin(pool), steps, w);
    var c := w.main.value;
    assert w.server.conns[c].phase == Controlling;
    assert AfterOk(w.server, i);
  }

  // what will reach a waiting request if nothing else goes wrong: signals the client has
  // yet to read, workers it is dialling, workers on their way to the queue and in it
  function Coming(w: World): nat {
    Channels(w.signals) + w.dialing + Count(w.server.conns, true, Arriving) + Count(w.server.conns, true, InQueue)
  }

  // what a request will never get: workers read as a hello, closed, or not dialled at all
  function Lost(w: World): nat {
    Count(w.server.conns, true, BeingRead) + Count(w.server.conns, true, Dropped) + w.failed
  }

  // what no waiting request needs: the pool, the workers of cancelled requests, and those
  // of requests that took a foreign connection instead
  function Spare(w: World): nat {
    w.pool + w.cancelled + Count(w.server.conns, false, WithRequest)
  }

  /** No request waits for a worker that is not coming: in every run, as many workers are
      coming as requests wait if and only if no more were lost than were spare.  As long
      as the control that the requests went through is in place none is lost as a hello,
      only by a failed dial, for lack of room or at shutdown. */
  lemma EveryRequestHasAWorker(pool: nat, steps: seq<WorldStep>, w: World)
    requires WorldRun(Begin(pool), steps, w) && w.main.Some?
    ensures w.waiting <= Coming(w) <==> Lost(w) <= Spare(w)
    ensures w.server.control == w.main ==> Lost(w) == w.failed + Count(w.server.conns, true, Dropped)
    ensures w.server.control == w.main ==> forall i :: 0 <= i < |w.server.conns| && w.server.conns[i].own ==>
      (w.server.conns[i].phase.Closed? ==> w.server.conns[i].phase in {Closed(NoRoom), Closed(Stopped)})
  {
    RunBalances(Begin(pool), steps, w);
    WorkersBalance(pool, steps, w);
    if w.server.control == w.main {
      forall i | 0 <= i < |w.server.conns| && w.server.conns[i].own
        ensures w.server.conns[i].phase != Reading
        ensures w.server.conns[i].phase.Closed? ==> w.server.conns[i].phase in {Closed(NoRoom), Closed(Stopped)}
      {
        WorkersReachQueue(pool, steps, w, i);
      }
      NoneBeingRead(w.server.conns);
    }
  }

  lemma {:induction false} OneStepMore(w: World, steps: seq<WorldStep>, v: World, step: WorldStep)
    requires WorldRun(w, steps, v) && Allowed(v, step)
    ensures WorldRun(w, steps + [step], After(v, step))
    decreases |steps|
  {
    if steps == [] {
      assert WorldRun(After(w, step), [step][1..], After(v, step));
    } else {
      OneStepMore(After(w, steps[0]), steps[1..], v, step);
      assert (steps + [step])[1..] == steps[1..] + [step];
    }
  }

  lemma Also(steps: seq<WorldStep>, w: World, step: WorldStep, v: World) returns (more: seq<WorldStep>)
    requires WorldRun(Begin(0), steps, w) && Allowed(w, step) && After(w, step) == v
    ensures WorldRun(Begin(0), more, v)
  {
    OneStepMore(Begin(0), steps, w, step);
    more := steps + [step];
  }

  // a world of one connection, which is no worker, and a world with a worker beside it
  function Alone(p: Phase, holder: Option<nat>, control: Option<nat>): World {
    Begin(0).(server := Server([Conn(p, false, None)], holder, control, [], false, false))
  }

  function Beside(p: Phase, holder: Option<nat>): World {
    World(Server([Conn(Retired, false, None), Conn(p, true, None)], holder, None, [], false, false),
          Some(0), [], 0, 0, 0, 1, 1, 0, 0)
  }

  lemma AloneMoves(p: Phase, q: Phase)
    ensures [Conn(p, false, None)][0 := Conn(q, false, None)] == [Conn(q, false, None)]
  {
  }

  lemma WantsLock() returns (steps: seq<WorldStep>)
    ensures WorldRun(Begin(0), steps, Alone(Waiting, None, None))
  {
    steps := Also([], Begin(0), ServerStep(Accept(false)), Alone(Accepted, None, None));
    AloneMoves(Accepted, Waiting);
    steps := Also(steps, Alone(Accepted, None, None), ServerStep(FirstCheck(0)), Alone(Waiting, None, None));
  }

  lemma HelloRead() returns (steps: seq<WorldStep>)
    ensures WorldRun(Begin(0), steps, Alone(Reading, Some(0), None))
  {
    steps := WantsLock();
    AloneMoves(Waiting, Locked);
    steps := Also(steps, Alone(Waiting, None, None), ServerStep(Lock(0)), Alone(Locked, Some(0), None));
    AloneMoves(Locked, Reading);
    steps := Also(steps, Alone(Locked, Some(0), None), ServerStep(SecondCheck(0)), Alone(Reading, Some(0), None));
  }

  lemma ReplyWritten() returns (steps: seq<WorldStep>)
    ensures WorldRun(Begin(0), steps, Alone(Replied, Some(0), None))
  {
    steps := HelloRead();
    AloneMoves(Reading, Replying);
    steps := Also(steps, Alone(Reading, Some(0), None), ServerStep(ReadHello(0, true)), Alone(Replying, Some(0), None));
    AloneMoves(Replying, Replied);
    steps := Also(steps, Alone(Replying, Some(0), None), ServerStep(WriteReply(0, true)),
                  Alone(Replied, Some(0), None));
  }

  lemma OneControlled() returns (steps: seq<WorldStep>)
    ensures WorldRun(Begin(0), steps, Alone(Controlling, None, Some(0)))
  {
    steps := ReplyWritten();
    AloneMoves(Replied, Controlling);
    steps := Also(steps, Alone(Replied, Some(0), None), ServerStep(Install(0)), Alone(Controlling, None, Some(0)));
  }

  lemma ClientStarted() returns (steps: seq<WorldStep>)
    ensures WorldRun(Begin(0), steps, Alone(Controlling, None, Some(0)).(main := Some(0)))
  {
    steps := OneControlled();
    var w := Alone(Controlling, None, Some(0));
    steps := Also(steps, w, ClientStart(0), w.(main := Some(0)));
  }

  function Asked(): World {
    Alone(Controlling, None, Some(0)).(main := Some(0), signals := [Channel], written := 1, waiting := 1)
  }

  function Gone(): World {
    Alone(Retired, None, None).(main := Some(0), dialing := 1, written := 1, waiting := 1)
  }

  lemma RequestMade() returns (steps: seq<WorldStep>)
    ensures WorldRun(Begin(0), steps, Asked())
  {
    steps := ClientStarted();
    assert [] + [Channel] == [Channel];
    steps := Also(steps, Alone(Controlling, None, Some(0)).(main := Some(0)), Request, Asked());
  }

  // one request has signalled, the client dials for it, and the control is cleared
  lemma ControlGone() returns (steps: seq<WorldStep>)
    ensures WorldRun(Begin(0), steps, Gone())
  {
    steps := RequestMade();
    var dialling := Asked().(signals := [], dialing := 1);
    assert [Channel][1..] == [];
    steps := Also(steps, Asked(), ClientRead, dialling);
    AloneMoves(Controlling, Retired);
    steps := Also(steps, dialling, ServerStep(Clear(0)), Gone());
  }

  lemma BesideMoves(p: Phase, q: Phase)
    ensures var first, c := Conn(Retired, false, None), Conn(p, true, None);
      [first, c][1 := c.(phase := q)] == [first, Conn(q, true, None)]
  {
  }

  /** Without the control it is not so.  The control is cleared while the worker for a
      request is being dialled; the worker finds an empty slot and is read as a hello.
      The request waits, and nothing is on its way to it. */
  lemma WorkerLost() returns (steps: seq<WorldStep>, w: World)
    ensures WorldRun(Begin(0), steps, w) && w.main.Some? && w.waiting == 1
    ensures w.signals == [] && w.dialing == w.failed == 0 && w.server.workers == []
    ensures w.server.conns == [Conn(Retired, false, None), Conn(Reading, true, None)]
  {
    steps := ReadAsHello();
    w := Beside(Reading, Some(1));
  }

  lemma ReadAsHello() returns (steps: seq<WorldStep>)
    ensures WorldRun(Begin(0), steps, Beside(Reading, Some(1)))
  {
    steps := SlotFound();
    BesideMoves(Waiting, Locked);
    steps := Also(steps, Beside(Waiting, None), ServerStep(Lock(1)), Beside(Locked, Some(1)));
    BesideMoves(Locked, Reading);
    steps := Also(steps, Beside(Locked, Some(1)), ServerStep(SecondCheck(1)), Beside(Reading, Some(1)));
  }

  /** What it sends is no hello, so it is closed, and with no worker to spare the request
      waits for nothing that is coming. */
  lemma WorkerClosed() returns (steps: seq<WorldStep>, w: World)
    ensures WorldRun(Begin(0), steps, w) && w.main.Some? && w.waiting == 1
    ensures Coming(w) == 0 && Spare(w) == 0 && Lost(w) == 1
    ensures w.server.conns == [Conn(Retired, false, None), Conn(Closed(BadHello), true, None)]
  {
    hide Count, Coming, Spare, Lost, WorldRun;
    steps := HelloRefused();
    w := Beside(Closed(BadHello), None);
    CountsOfOneClosed(w, Conn(Retired, false, None), Conn(Closed(BadHello), true, None));
  }

  lemma HelloRefused() returns (steps: seq<WorldStep>)
    ensures WorldRun(Begin(0), steps, Beside(Closed(BadHello), None))
  {
    steps := ReadAsHello();
    BesideMoves(Reading, Closed(BadHello));
    steps := Also(steps, Beside(Reading, Some(1)), ServerStep(ReadHello(1, false)), Beside(Closed(BadHello), None));
  }

  lemma CountsOfOneClosed(w: World, b: Conn, c: Conn)
    requires w.server.conns == [b, c] && !b.own && PlaceOf(b.phase) == Hello && c.own && PlaceOf(c.phase) == Dropped
    requires w.signals == [] && w.dialing == w.failed == w.pool == w.cancelled == 0
    ensures Coming(w) == 0 && Spare(w) == 0 && Lost(w) == 1
  {
    hide Count;
    CountOfTwo(b, c, true, Arriving);
    CountOfTwo(b, c, true, InQueue);
    CountOfTwo(b, c, true, BeingRead);
    CountOfTwo(b, c, true, Dropped);
    CountOfTwo(b, c, false, WithRequest);
  }

  lemma CountOfTwo(b: Conn, c: Conn, own: bool, at: Place)
    ensures Count([b, c], own, at) == (if b.own == own && PlaceOf(b.phase) == at then 1 else 0)
                                      + (if c.own == own && PlaceOf(c.phase) == at then 1 else 0)
  {
    CountAccept([b], c, own, at);
    CountAccept([], b, own, at);
    assert [] + [b] == [b] && [b] + [c] == [b, c];
  }

  // the worker arrives and finds the slot empty
  lemma SlotFound() returns (steps: seq<WorldStep>)
    ensures WorldRun(Begin(0), steps, Beside(Waiting, None))
  {
    steps := ControlGone();
    assert Gone().server.conns + [Conn(Accepted, true, None)] == Beside(Accepted, None).server.conns;
    steps := Also(steps, Gone(), DialDone, Beside(Accepted, None));
    BesideMoves(Accepted, Waiting);
    steps := Also(steps, Beside(Accepted, None), ServerStep(FirstCheck(1)), Beside(Waiting, None));
  }

  /** Taking is once and for all: a worker that a request has taken is never in the queue
      again, so no other request gets it. */
  lemma {:induction false} TakenStaysTaken(w: World, steps: seq<WorldStep>, v: World, i: nat)
    requires Balanced(w) && WorldRun(w, steps, v) && Has(w.server, i, Taken)
    ensures Has(v.server, i, Taken) && i !in v.server.workers
    decreases |steps|
  {
    if steps != [] {
      StepBalances(w, steps[0]);
      TakenStep(w, steps[0], i);
      TakenStaysTaken(After(w, steps[0]), steps[1..], v, i);
    } else {
      TakenNotQueued(w.server, i);
    }
  }

  lemma WaitingIsQueued(s: Server, i: nat)
    requires QueueOk(s) && i in s.workers
    ensures Has(s, i, Queued)
  {
    var j :| 0 <= j < |s.workers| && s.workers[j] == i;
    assert Has(s, s.workers[j], Queued);
  }

  lemma TakenNotQueued(s: Server, i: nat)
    requires QueueOk(s) && Has(s, i, Taken)
    ensures i !in s.workers
  {
    if i in s.workers {
      WaitingIsQueued(s, i);
    }
  }

  lemma TakenStep(w: World, step: WorldStep, i: nat)
    requires Inv(w.server) && Allowed(w, step) && Has(w.server, i, Taken)
    ensures Has(After(w, step).server, i, Taken)
  {
    hide Next, LockOk, ControlOk, WitnessOk, OwnOk, QueueOk;
    match step
    case ServerStep(st) => TakenStays(w.server, st, i);
    case DialDone => TakenStays(w.server, Accept(true), i);
    case Acquire => TakenStays(w.server, TakeWorker, i);
    case _ =>
  }
}
