/** The accept side of the original TCP protocol.  Every accepted connection has its
    own handleAccepted goroutine; the steps below are what one of them does between
    two points at which another may run: look at the control slot, take the lock,
    look again, read the hello, write the reply, install the control, queue. */
module ControlRace {
  import opened Wrappers

  const WORKER_LIMIT := 512

  datatype Reason = BadHello | ReplyFailed | NoRoom | Stopped

  datatype Phase =
    | Accepted                 // before the first look at the control slot
    | Waiting                  // saw no control, wants the lock
    | Locked                   // has the lock, before the second look
    | Reading                  // reading the hello
    | Replying                 // the hello was right
    | Replied                  // the reply is written, the control not yet set
    | Controlling              // installed as the control
    | Retired                  // its control was cleared
    | Queueing(locked: bool)   // in enqueueWorker
    | Queued
    | Taken
    | Closed(reason: Reason)

  // own: dialled by the client as a worker, so it never sends a hello.
  // after: the connection that had been told it is the control, when this one was accepted
  datatype Conn = Conn(phase: Phase, own: bool, after: Option<nat>)

  datatype Server = Server(
    conns: seq<Conn>,
    holder: Option<nat>,       // handshakeMu
    control: Option<nat>,
    workers: seq<nat>,
    done: bool,
    refused: bool)             // setControl has answered false

  const START: Server := Server([], None, None, [], false, false)

  predicate Has(s: Server, i: nat, p: Phase) {
    i < |s.conns| && s.conns[i].phase == p
  }

  function Move(s: Server, i: nat, p: Phase): Server
    requires i < |s.conns|
  {
    s.(conns := s.conns[i := s.conns[i].(phase := p)])
  }

  function Unlock(s: Server): Server {
    s.(holder := None)
  }

  /** The connection that has been told, or is about to be, that it is the control. */
  function Announced(s: Server): Option<nat> {
    if s.holder.Some? && Has(s, s.holder.value, Replied) then s.holder else s.control
  }

  // ---- what the methods of originalServerState do -----------------------------------

  function SetControl(s: Server, i: nat): (r: (Server, bool)) {
    if s.control.Some? then (s, false) else (s.(control := Some(i)), true)
  }

  function ClearControl(s: Server, i: nat): Server {
    if s.control == Some(i) then s.(control := None) else s
  }

  // the select of enqueueWorker: with room and a stopped context either case may be picked
  predicate MayQueue(s: Server) {
    |s.workers| < WORKER_LIMIT
  }

  predicate MayClose(s: Server) {
    s.done || |s.workers| >= WORKER_LIMIT
  }

  datatype Step =
    | Accept(own: bool)
    | FirstCheck(i: nat)
    | Lock(i: nat)
    | SecondCheck(i: nat)
    | ReadHello(i: nat, good: bool)
    | WriteReply(i: nat, ok: bool)
    | Install(i: nat)
    | Enqueue(i: nat, room: bool)
    | TakeWorker
    | Clear(i: nat)
    | Stop

  predicate Enabled(s: Server, step: Step) {
    match step
    case Accept(own) => true
    case FirstCheck(i) => Has(s, i, Accepted)
    case Lock(i) => Has(s, i, Waiting) && s.holder.None?
    case SecondCheck(i) => Has(s, i, Locked)
    case ReadHello(i, good) => Has(s, i, Reading) && (good ==> !s.conns[i].own)
    case WriteReply(i, ok) => Has(s, i, Replying)
    case Install(i) => Has(s, i, Replied)
    case Enqueue(i, room) => i < |s.conns| && s.conns[i].phase.Queueing? && (if room then MayQueue(s) else MayClose(s))
    case TakeWorker => s.workers != [] && s.workers[0] < |s.conns|
    case Clear(i) => Has(s, i, Controlling) || Has(s, i, Retired)
    case Stop => true
  }

  function Next(s: Server, step: Step): Server
    requires Enabled(s, step)
  {
    match step
    case Accept(own) => s.(conns := s.conns + [Conn(Accepted, own, Announced(s))])
    case FirstCheck(i) => Move(s, i, if s.control.Some? then Queueing(false) else Waiting)
    case Lock(i) => Move(s, i, Locked).(holder := Some(i))
    case SecondCheck(i) => Move(s, i, if s.control.Some? then Queueing(true) else Reading)
    case ReadHello(i, good) => if good then Move(s, i, Replying) else Unlock(Move(s, i, Closed(BadHello)))
    case WriteReply(i, ok) => if ok then Move(s, i, Replied) else Unlock(Move(s, i, Closed(ReplyFailed)))
    case Install(i) =>
      var (t, ok) := SetControl(s, i);
      if ok then Unlock(Move(t, i, Controlling)) else Move(t, i, Queueing(true)).(refused := true)
    case Enqueue(i, room) =>
      var locked := s.conns[i].phase.locked;
      var t := if room then Move(s, i, Queued).(workers := s.workers + [i])
               else Move(s, i, Closed(if s.done then Stopped else NoRoom));
      if locked then Unlock(t) else t
    case TakeWorker => Move(s, s.workers[0], Taken).(workers := s.workers[1..])
    case Clear(i) => Move(ClearControl(s, i), i, Retired)
    case Stop => s.(done := true)
  }

  // ---- the invariant -----------------------------------------------------------------

  predicate HoldsLock(p: Phase) {
    p == Locked || p == Reading || p == Replying || p == Replied || p == Queueing(true)
  }

  // a connection that was read, or is being read, as a hello
  predicate Greeting(p: Phase) {
    || p == Reading || p == Replying || p == Replied || p == Controlling || p == Retired
    || p == Closed(BadHello) || p == Closed(ReplyFailed)
  }

  predicate Told(p: Phase) {
    p == Replied || p == Controlling
  }

  predicate OnceTold(p: Phase) {
    Told(p) || p == Retired
  }

  ghost predicate LockOk(s: Server) {
    && (forall i :: 0 <= i < |s.conns| && HoldsLock(s.conns[i].phase) ==> s.holder == Some(i))
    && (s.holder.Some? ==> s.holder.value < |s.conns| && HoldsLock(s.conns[s.holder.value].phase))
    && (forall i :: 0 <= i < |s.conns| && HoldsLock(s.conns[i].phase) && Greeting(s.conns[i].phase) ==> s.control.None?)
  }

  ghost predicate ControlOk(s: Server) {
    && (forall i :: 0 <= i < |s.conns| ==> (s.conns[i].phase == Controlling <==> s.control == Some(i)))
    && (s.control.Some? ==> s.control.value < |s.conns|)
    && !s.refused
  }

  ghost predicate QueueOk(s: Server) {
    && |s.workers| <= WORKER_LIMIT
    && (forall j, k :: 0 <= j < k < |s.workers| ==> s.workers[j] != s.workers[k])
    && (forall j :: 0 <= j < |s.workers| ==> Has(s, s.workers[j], Queued))
    && (forall i :: 0 <= i < |s.conns| && s.conns[i].phase == Queued ==> i in s.workers)
  }

  // accepted after some connection was told it is the control, which it still is
  predicate Protected(s: Server, i: nat)
    requires i < |s.conns|
  {
    var w := s.conns[i].after;
    w.Some? && w.value < |s.conns| && Told(s.conns[w.value].phase)
  }

  ghost predicate AfterOk(s: Server, i: nat)
    requires i < |s.conns|
  {
    && (s.conns[i].after.Some? ==> s.conns[i].after.value < i && OnceTold(s.conns[s.conns[i].after.value].phase))
    && (Protected(s, i) ==> !Greeting(s.conns[i].phase))
  }

  ghost predicate WitnessOk(s: Server) {
    forall i :: 0 <= i < |s.conns| ==> AfterOk(s, i)
  }

  ghost predicate OwnOk(s: Server) {
    forall i :: 0 <= i < |s.conns| ==> OwnPhase(s.conns[i])
  }

  ghost predicate Inv(s: Server) {
    LockOk(s) && ControlOk(s) && QueueOk(s) && WitnessOk(s) && OwnOk(s)
  }

  // ---- which connection a step moves, and to where ---------------------------------------

  predicate Moving(step: Step) {
    !step.Accept? && !step.Stop?
  }

  function Target(s: Server, step: Step): nat
    requires Enabled(s, step) && Moving(step)
  {
    if step.TakeWorker? then s.workers[0] else step.i
  }

  function NewPhase(s: Server, step: Step): Phase
    requires Enabled(s, step) && Moving(step)
  {
    match step
    case FirstCheck(_) => if s.control.Some? then Queueing(false) else Waiting
    case Lock(_) => Locked
    case SecondCheck(_) => if s.control.Some? then Queueing(true) else Reading
    case ReadHello(_, good) => if good then Replying else Closed(BadHello)
    case WriteReply(_, ok) => if ok then Replied else Closed(ReplyFailed)
    case Install(_) => if s.control.None? then Controlling else Queueing(true)
    case Enqueue(_, room) => if room then Queued else Closed(if s.done then Stopped else NoRoom)
    case TakeWorker => Taken
    case Clear(_) => Retired
  }

  lemma Shape(s: Server, step: Step)
    requires Enabled(s, step) && Moving(step)
    ensures Target(s, step) < |s.conns|
    ensures Next(s, step).conns == Move(s, Target(s, step), NewPhase(s, step)).conns
  {
  }

  predicate Locking(step: Step) {
    step.SecondCheck? || step.ReadHello? || step.WriteReply? || step.Install? || step.Enqueue?
  }

  lemma LockStepOutside(s: Server, step: Step)
    requires LockOk(s) && ControlOk(s) && QueueOk(s) && Enabled(s, step) && !Locking(step)
    ensures LockOk(Next(s, step))
  {
    hide ControlOk, QueueOk, LockOk;
    match step
    case Accept(own) => LockAccept(s, own);
    case FirstCheck(i) => OutsideMove(s, i, NewPhase(s, step));
    case Lock(i) => LockTaken(s, i);
    case TakeWorker => TakenOutside(s);
    case Clear(i) => LockClear(s, i);
    case Stop => OtherFields(s, s.(done := true));
  }

  lemma OtherFields(s: Server, t: Server)
    requires LockOk(s) && t.conns == s.conns && t.holder == s.holder && (t.control == s.control || t.control.None?)
    ensures LockOk(t)
  {
  }

  lemma OutsideMove(s: Server, i: nat, p: Phase)
    requires LockOk(s) && i < |s.conns| && !HoldsLock(s.conns[i].phase) && !HoldsLock(p)
    ensures LockOk(Move(s, i, p))
  {
  }

  lemma LockAccept(s: Server, own: bool)
    requires LockOk(s)
    ensures LockOk(Next(s, Accept(own)))
  {
    hide Announced;
  }

  lemma LockTaken(s: Server, i: nat)
    requires LockOk(s) && Enabled(s, Lock(i))
    ensures LockOk(Next(s, Lock(i)))
  {
  }

  lemma TakenOutside(s: Server)
    requires LockOk(s) && QueueOk(s) && Enabled(s, TakeWorker)
    ensures LockOk(Next(s, TakeWorker))
  {
    assert Has(s, s.workers[0], Queued);
    OutsideMove(s, s.workers[0], Taken);
    OtherFields(Move(s, s.workers[0], Taken), Next(s, TakeWorker));
  }

  lemma LockClear(s: Server, i: nat)
    requires LockOk(s) && Enabled(s, Clear(i))
    ensures LockOk(Next(s, Clear(i)))
  {
    hide LockOk;
    OtherFields(s, ClearControl(s, i));
    OutsideMove(ClearControl(s, i), i, Retired);
  }

  lemma LockStepInside(s: Server, step: Step)
    requires LockOk(s) && ControlOk(s) && Enabled(s, step) && Locking(step) && !step.Enqueue?
    ensures LockOk(Next(s, step))
  {
    hide ControlOk, LockOk;
    match step
    case Install(i) => LockInstall(s, i);
    case SecondCheck(i) => StillHolds(s, i, NewPhase(s, step));
    case ReadHello(i, good) => if good { StillHolds(s, i, Replying); } else { LetsGo(s, i, Closed(BadHello)); }
    case WriteReply(i, ok) => if ok { StillHolds(s, i, Replied); } else { LetsGo(s, i, Closed(ReplyFailed)); }
  }

  lemma StillHolds(s: Server, i: nat, p: Phase)
    requires LockOk(s) && i < |s.conns| && HoldsLock(s.conns[i].phase) && HoldsLock(p)
    requires Greeting(p) ==> s.control.None? || Greeting(s.conns[i].phase)
    ensures LockOk(Move(s, i, p))
  {
  }

  lemma LetsGo(s: Server, i: nat, p: Phase)
    requires LockOk(s) && i < |s.conns| && HoldsLock(s.conns[i].phase) && !HoldsLock(p)
    ensures LockOk(Unlock(Move(s, i, p)))
  {
  }

  lemma LockInstall(s: Server, i: nat)
    requires LockOk(s) && ControlOk(s) && Enabled(s, Install(i))
    ensures LockOk(Next(s, Install(i)))
  {
  }

  lemma LockStepEnqueue(s: Server, i: nat, room: bool)
    requires LockOk(s) && Enabled(s, Enqueue(i, room))
    ensures LockOk(Next(s, Enqueue(i, room)))
  {
  }

  lemma ControlAt(s: Server, step: Step, i: nat)
    requires LockOk(s) && ControlOk(s) && QueueOk(s) && Enabled(s, step) && i < |Next(s, step).conns|
    ensures Next(s, step).conns[i].phase == Controlling <==> Next(s, step).control == Some(i)
  {
    hide LockOk, ControlOk, QueueOk, Next, Enabled, NewPhase;
    if step.Install? {
      InstallAt(s, step.i, i);
    } else if step.Clear? {
      ClearAt(s, step.i, i);
    } else {
      ElsewhereAt(s, step, i);
    }
  }

  lemma ClearAt(s: Server, j: nat, i: nat)
    requires ControlOk(s) && Enabled(s, Clear(j)) && i < |Next(s, Clear(j)).conns|
    ensures Next(s, Clear(j)).conns[i].phase == Controlling <==> Next(s, Clear(j)).control == Some(i)
  {
  }

  // no other step changes the slot or who is installed
  lemma ElsewhereAt(s: Server, step: Step, i: nat)
    requires ControlOk(s) && QueueOk(s) && Enabled(s, step) && !step.Install? && !step.Clear?
    requires i < |Next(s, step).conns|
    ensures Next(s, step).conns[i].phase == Controlling <==> Next(s, step).control == Some(i)
  {
    SameControl(s, step);
    StepAt(s, step, i);
    if Moving(step) {
      Shape(s, step);
      NotControlling(s, step);
    }
    hide Next, Enabled, NewPhase, QueueOk;
  }

  lemma SameControl(s: Server, step: Step)
    requires Enabled(s, step) && !step.Install? && !step.Clear?
    ensures Next(s, step).control == s.control
    ensures !Moving(step) ==> |s.conns| <= |Next(s, step).conns| && Next(s, step).conns[..|s.conns|] == s.conns
  {
  }

  lemma NotControlling(s: Server, step: Step)
    requires QueueOk(s) && Enabled(s, step) && Moving(step) && !step.Install? && !step.Clear?
    requires Target(s, step) < |s.conns|
    ensures s.conns[Target(s, step)].phase != Controlling && NewPhase(s, step) != Controlling
  {
    hide Next;
    if step.TakeWorker? {
      FirstIsQueued(s);
    }
  }

  lemma InstallAt(s: Server, j: nat, i: nat)
    requires LockOk(s) && ControlOk(s) && Enabled(s, Install(j)) && i < |Next(s, Install(j)).conns|
    ensures Next(s, Install(j)).conns[i].phase == Controlling <==> Next(s, Install(j)).control == Some(i)
  {
  }

  lemma NeverRefused(s: Server, step: Step)
    requires LockOk(s) && ControlOk(s) && Enabled(s, step)
    ensures !Next(s, step).refused
    ensures Next(s, step).control.Some? ==> Next(s, step).control.value < |Next(s, step).conns|
  {
  }

  lemma ControlStep(s: Server, step: Step)
    requires Inv(s) && Enabled(s, step)
    ensures ControlOk(Next(s, step))
  {
    NeverRefused(s, step);
    forall i: nat | i < |Next(s, step).conns|
      ensures Next(s, step).conns[i].phase == Controlling <==> Next(s, step).control == Some(i)
    {
      ControlAt(s, step, i);
    }
    hide Next, Inv;
  }

  // what a step leaves of one connection: who it is, and if it has no place in the
  // queue and the step queues nothing, that
  lemma StepAt(s: Server, step: Step, i: nat)
    requires Enabled(s, step) && i < |Next(s, step).conns|
    ensures |s.conns| <= |Next(s, step).conns|
    ensures var d := Next(s, step).conns[i];
      if i < |s.conns| then d.own == s.conns[i].own && d.after == s.conns[i].after else d.phase == Accepted
  {
    if Moving(step) {
      Shape(s, step);
      hide Next, Enabled, NewPhase;
    }
  }

  predicate OwnPhase(c: Conn) {
    c.own ==>
      && c.phase != Replying && c.phase != Replied && c.phase != Controlling && c.phase != Retired
      && c.phase != Closed(ReplyFailed)
  }

  lemma OwnPhaseKept(s: Server, step: Step, i: nat)
    requires Enabled(s, step) && i < |s.conns| && OwnPhase(s.conns[i])
    ensures i < |Next(s, step).conns| && OwnPhase(Next(s, step).conns[i])
  {
    if Moving(step) {
      Shape(s, step);
      if Target(s, step) == i {
        OwnMoves(s, step);
      }
      hide Next, Enabled, NewPhase;
    }
  }

  lemma OwnMoves(s: Server, step: Step)
    requires Enabled(s, step) && Moving(step) && Target(s, step) < |s.conns|
    requires OwnPhase(s.conns[Target(s, step)])
    ensures OwnPhase(s.conns[Target(s, step)].(phase := NewPhase(s, step)))
  {
    hide Next;
  }

  lemma OwnStep(s: Server, step: Step)
    requires OwnOk(s) && Enabled(s, step)
    ensures OwnOk(Next(s, step))
  {
    forall i: nat | i < |Next(s, step).conns|
      ensures OwnPhase(Next(s, step).conns[i])
    {
      hide Next, Enabled;
      StepAt(s, step, i);
      if i < |s.conns| {
        OwnPhaseKept(s, step, i);
      }
    }
  }

  lemma QueuedSame(s: Server, step: Step, i: nat)
    requires Enabled(s, step) && !step.Enqueue? && !step.TakeWorker?
    ensures Next(s, step).workers == s.workers && |s.conns| <= |Next(s, step).conns|
    ensures i < |Next(s, step).conns| ==> (Has(Next(s, step), i, Queued) <==> Has(s, i, Queued))
  {
    SameWorkers(s, step);
    if Moving(step) {
      Shape(s, step);
      NotQueued(s, step);
      hide Next, Enabled, NewPhase;
    }
  }

  lemma SameWorkers(s: Server, step: Step)
    requires Enabled(s, step) && !step.Enqueue? && !step.TakeWorker?
    ensures Next(s, step).workers == s.workers
  {
  }

  lemma NotQueued(s: Server, step: Step)
    requires Enabled(s, step) && Moving(step) && !step.Enqueue? && !step.TakeWorker? && Target(s, step) < |s.conns|
    ensures s.conns[Target(s, step)].phase != Queued && NewPhase(s, step) != Queued
  {
    hide Next;
  }

  lemma QueueStep(s: Server, step: Step)
    requires QueueOk(s) && Enabled(s, step) && !step.Enqueue? && !step.TakeWorker?
    ensures QueueOk(Next(s, step))
  {
    hide Next, Enabled;
    var t := Next(s, step);
    QueuedSame(s, step, 0);
    forall j | 0 <= j < |t.workers|
      ensures Has(t, t.workers[j], Queued)
    {
      assert Has(s, s.workers[j], Queued);
      QueuedSame(s, step, s.workers[j]);
    }
    forall i: nat | i < |t.conns| && t.conns[i].phase == Queued
      ensures i in t.workers
    {
      QueuedSame(s, step, i);
    }
  }

  lemma QueueStepEnqueue(s: Server, i: nat, room: bool)
    requires QueueOk(s) && Enabled(s, Enqueue(i, room))
    ensures QueueOk(Next(s, Enqueue(i, room)))
  {
    var t := Next(s, Enqueue(i, room));
    forall j | 0 <= j < |t.workers|
      ensures Has(t, t.workers[j], Queued)
    {
      assert j < |s.workers| ==> Has(s, s.workers[j], Queued);
    }
    QueuedListed(s, i, room);
  }

  lemma QueuedListed(s: Server, i: nat, room: bool)
    requires QueueOk(s) && Enabled(s, Enqueue(i, room))
    ensures var t := Next(s, Enqueue(i, room));
      forall k :: 0 <= k < |t.conns| && t.conns[k].phase == Queued ==> k in t.workers
  {
    var t := Next(s, Enqueue(i, room));
    forall k | 0 <= k < |t.conns| && t.conns[k].phase == Queued
      ensures k in t.workers
    {
      assert k != i ==> k in s.workers;
      assert room ==> t.workers[|s.workers|] == i;
    }
  }

  lemma QueueStepTake(s: Server)
    requires QueueOk(s) && Enabled(s, TakeWorker)
    ensures QueueOk(Next(s, TakeWorker))
  {
    var t := Next(s, TakeWorker);
    forall j | 0 <= j < |t.workers|
      ensures Has(t, t.workers[j], Queued)
    {
      assert t.workers[j] == s.workers[j + 1];
      assert Has(s, s.workers[j + 1], Queued);
    }
    forall k | 0 <= k < |t.conns| && t.conns[k].phase == Queued
      ensures k in t.workers
    {
      assert k in s.workers && k != s.workers[0];
      assert s.workers == [s.workers[0]] + t.workers;
    }
  }

  lemma ToldStaysTold(s: Server, step: Step, w: nat)
    requires LockOk(s) && QueueOk(s) && Enabled(s, step) && w < |s.conns| && OnceTold(s.conns[w].phase)
    ensures w < |Next(s, step).conns|
    ensures var p, q := s.conns[w].phase, Next(s, step).conns[w].phase; OnceTold(q) && (Told(q) ==> Told(p))
  {
    if Moving(step) {
      Shape(s, step);
      if Target(s, step) == w {
        ToldMoves(s, step);
      }
      hide Next, Enabled, NewPhase, LockOk, QueueOk;
    }
  }

  lemma FirstIsQueued(s: Server)
    requires QueueOk(s) && s.workers != []
    ensures Has(s, s.workers[0], Queued)
  {
  }

  lemma ToldMoves(s: Server, step: Step)
    requires LockOk(s) && QueueOk(s) && Enabled(s, step) && Moving(step) && Target(s, step) < |s.conns|
    requires OnceTold(s.conns[Target(s, step)].phase)
    ensures var p, q := s.conns[Target(s, step)].phase, NewPhase(s, step); OnceTold(q) && (Told(q) ==> Told(p))
  {
    hide Next;
    if step.TakeWorker? {
      FirstIsQueued(s);
    }
  }

  lemma TakenStays(s: Server, step: Step, i: nat)
    requires QueueOk(s) && Enabled(s, step) && Has(s, i, Taken)
    ensures Has(Next(s, step), i, Taken)
  {
    if Moving(step) {
      Shape(s, step);
      NotTaken(s, step);
      hide Next, Enabled, NewPhase, QueueOk;
    }
  }

  // a step moves no worker that a request has taken
  lemma NotTaken(s: Server, step: Step)
    requires QueueOk(s) && Enabled(s, step) && Moving(step) && Target(s, step) < |s.conns|
    ensures s.conns[Target(s, step)].phase != Taken
  {
    hide Next;
    if step.TakeWorker? {
      assert Has(s, s.workers[0], Queued);
    }
  }

  // the second look at the control slot is what keeps a later connection from the hello
  lemma GreetingBegins(s: Server, step: Step, i: nat, w: nat)
    requires LockOk(s) && ControlOk(s) && Enabled(s, step)
    requires w < i < |s.conns| && Told(s.conns[w].phase) && !Greeting(s.conns[i].phase)
    ensures i < |Next(s, step).conns| && !Greeting(Next(s, step).conns[i].phase)
  {
    GrowsOnly(s, step);
    if Moving(step) {
      Shape(s, step);
      if Target(s, step) == i {
        BeginsToGreet(s, step);
        if step == SecondCheck(i) {
          SlotTaken(s, i, w);
        }
      }
      hide Next, Enabled, NewPhase, LockOk, ControlOk;
    }
  }

  lemma BeginsToGreet(s: Server, step: Step)
    requires Enabled(s, step) && Moving(step) && Target(s, step) < |s.conns|
    requires !Greeting(s.conns[Target(s, step)].phase)
    ensures Greeting(NewPhase(s, step)) ==> step.SecondCheck? && s.control.None?
  {
    hide Next;
  }

  // whoever is at the second look has the lock, so one who is told it is the control is it
  lemma SlotTaken(s: Server, i: nat, w: nat)
    requires LockOk(s) && ControlOk(s) && Has(s, i, Locked) && w < |s.conns| && w != i && Told(s.conns[w].phase)
    ensures s.control == Some(w)
  {
    assert s.holder == Some(i);
  }

  lemma GrowsOnly(s: Server, step: Step)
    requires Enabled(s, step)
    ensures |s.conns| <= |Next(s, step).conns|
  {
  }

  lemma WitnessKept(s: Server, step: Step, i: nat)
    requires LockOk(s) && ControlOk(s) && QueueOk(s) && Enabled(s, step) && i < |s.conns| && AfterOk(s, i)
    ensures var t := Next(s, step); i < |t.conns| && AfterOk(t, i)
  {
    GrowsOnly(s, step);
    StepAt(s, step, i);
    hide Next, Enabled, LockOk, ControlOk, QueueOk;
    if s.conns[i].after.Some? {
      var w := s.conns[i].after.value;
      ToldStaysTold(s, step, w);
      if Told(s.conns[w].phase) {
        if !Greeting(s.conns[i].phase) {
          GreetingBegins(s, step, i, w);
        }
      }
    }
  }

  lemma WitnessStep(s: Server, step: Step)
    requires LockOk(s) && ControlOk(s) && QueueOk(s) && WitnessOk(s) && Enabled(s, step)
    ensures WitnessOk(Next(s, step))
  {
    hide Enabled, LockOk, ControlOk, QueueOk, AfterOk;
    var t := Next(s, step);
    forall i | 0 <= i < |t.conns|
      ensures AfterOk(t, i)
    {
      if i < |s.conns| {
        WitnessKept(s, step, i);
      } else {
        NewWitness(s, step, i);
      }
    }
  }

  lemma NewWitness(s: Server, step: Step, i: nat)
    requires LockOk(s) && ControlOk(s) && Enabled(s, step) && |s.conns| <= i < |Next(s, step).conns|
    ensures AfterOk(Next(s, step), i)
  {
    hide LockOk;
    if step.Accept? {
      AnnouncedIsTold(s);
    } else {
      GrowsOnly(s, step);
      if Moving(step) {
        Shape(s, step);
      }
    }
  }

  lemma AnnouncedIsTold(s: Server)
    requires LockOk(s) && ControlOk(s)
    ensures Announced(s).Some? ==> Announced(s).value < |s.conns| && Told(s.conns[Announced(s).value].phase)
  {
  }

  lemma StepKeepsInv(s: Server, step: Step)
    requires Inv(s) && Enabled(s, step)
    ensures Inv(Next(s, step))
  {
    match step {
      case Enqueue(i, room) =>
        LockStepEnqueue(s, i, room);
        QueueStepEnqueue(s, i, room);
      case TakeWorker =>
        LockStepOutside(s, step);
        QueueStepTake(s);
      case _ =>
        if Locking(step) { LockStepInside(s, step); } else { LockStepOutside(s, step); }
        QueueStep(s, step);
    }
    ControlStep(s, step);
    WitnessStep(s, step);
    OwnStep(s, step);
  }

  // ---- runs ----------------------------------------------------------------------------

  ghost predicate Run(s: Server, steps: seq<Step>, t: Server)
    decreases |steps|
  {
    if steps == [] then s == t
    else Enabled(s, steps[0]) && Run(Next(s, steps[0]), steps[1..], t)
  }

  ghost predicate Reachable(t: Server) {
    exists steps :: Run(START, steps, t)
  }

  lemma {:induction false} RunKeepsInv(s: Server, steps: seq<Step>, t: Server)
    requires Inv(s) && Run(s, steps, t)
    ensures Inv(t)
    decreases |steps|
  {
    if steps != [] {
      StepKeepsInv(s, steps[0]);
      RunKeepsInv(Next(s, steps[0]), steps[1..], t);
    }
  }

  lemma ReachableInv(t: Server)
    requires Reachable(t)
    ensures Inv(t)
  {
    var steps :| Run(START, steps, t);
    RunKeepsInv(START, steps, t);
  }

  /** Racing workers.  In every interleaving: a connection accepted after the hello
      reply was written, while that control is still the one, has not been read as a
      hello; it is on its way to the queue, queued, taken, or closed for lack of room
      or at shutdown. */
  lemma RacingWorkers(s: Server, i: nat)
    requires Reachable(s) && i < |s.conns|
    ensures Protected(s, i) ==>
      match s.conns[i].phase
      case Closed(reason) => reason == NoRoom || reason == Stopped
      case p => p == Accepted || p == Waiting || p == Locked || p.Queueing? || p == Queued || p == Taken
  {
    ReachableInv(s);
    assert AfterOk(s, i);
  }

  lemma {:induction false} RunKeepsAfter(s: Server, steps: seq<Step>, t: Server, i: nat)
    requires Run(s, steps, t) && i < |s.conns|
    ensures i < |t.conns| && t.conns[i].after == s.conns[i].after
    decreases |steps|
  {
    if steps != [] {
      GrowsOnly(s, steps[0]);
      StepAt(s, steps[0], i);
      hide Next, Enabled;
      RunKeepsAfter(Next(s, steps[0]), steps[1..], t, i);
    }
  }

  lemma {:induction false} RunAgain(s: Server, steps: seq<Step>, t: Server, more: seq<Step>, u: Server)
    requires Run(s, steps, t) && Run(t, more, u)
    ensures Run(s, steps + more, u)
    decreases |steps|
  {
    if steps == [] {
      assert steps + more == more;
    } else {
      RunAgain(Next(s, steps[0]), steps[1..], t, more, u);
      assert (steps + more)[1..] == steps[1..] + more;
    }
  }

  /** The same, told as a run: some connection c has been told it is the control; another
      is accepted; however the run goes on, as long as c is the control at its end the
      newcomer has not been read as a hello. */
  lemma AcceptedLater(s: Server, c: nat, own: bool, steps: seq<Step>, t: Server)
    requires Reachable(s) && Announced(s) == Some(c)
    requires Run(Next(s, Accept(own)), steps, t)
    requires c < |t.conns| && Told(t.conns[c].phase)
    ensures |s.conns| < |t.conns| && !Greeting(t.conns[|s.conns|].phase)
  {
    var i := |s.conns|;
    RunKeepsAfter(Next(s, Accept(own)), steps, t, i);
    var before :| Run(START, before, s);
    assert Run(s, [Accept(own)] + steps, t) by {
      assert ([Accept(own)] + steps)[1..] == steps;
    }
    RunAgain(START, before, s, [Accept(own)] + steps, t);
    RacingWorkers(t, i);
  }

  lemma MovedTo(s: Server, i: nat, p: Phase)
    requires i < |s.conns|
    ensures Has(Move(s, i, p), i, p) && Move(s, i, p).control == s.control && Move(s, i, p).holder == s.holder
    ensures |Move(s, i, p).conns| == |s.conns| && Move(s, i, p).conns[i].own == s.conns[i].own
  {
  }

  /** The handshake of a connection that has the lock while there is no control: a right
      hello and a written reply make it the control, and the lock is free again; a wrong
      hello, or a reply that cannot be written, closes it, and the lock is free again. */
  lemma Handshake(s: Server, i: nat)
    requires Has(s, i, Locked) && s.control.None? && !s.conns[i].own
    ensures Enabled(s, SecondCheck(i))
    ensures var read := Next(s, SecondCheck(i));
      && Enabled(read, ReadHello(i, true)) && Enabled(read, ReadHello(i, false))
      && (var bad := Next(read, ReadHello(i, false)); Has(bad, i, Closed(BadHello)) && bad.holder.None?)
      && var right := Next(read, ReadHello(i, true));
         && Enabled(right, WriteReply(i, true)) && Enabled(right, WriteReply(i, false))
         && (var lost := Next(right, WriteReply(i, false)); Has(lost, i, Closed(ReplyFailed)) && lost.holder.None?)
         && var told := Next(right, WriteReply(i, true));
            && Enabled(told, Install(i))
            && var end := Next(told, Install(i));
               Has(end, i, Controlling) && end.control == Some(i) && end.holder.None? && end.workers == s.workers
  {
    MovedTo(s, i, Reading);
    var read := Move(s, i, Reading);
    MovedTo(read, i, Closed(BadHello));
    MovedTo(read, i, Replying);
    var right := Move(read, i, Replying);
    MovedTo(right, i, Closed(ReplyFailed));
    MovedTo(right, i, Replied);
    var told := Move(right, i, Replied);
    MovedTo(told.(control := Some(i)), i, Controlling);
    hide Move, Has;
  }

  // from the second look to the installed control
  predicate Handshaking(p: Phase) {
    p == Reading || p == Replying || Told(p)
  }

  /** There is never more than one control, nor a handshake beside one or beside another;
      and setControl never refuses. */
  lemma OneControl(s: Server, i: nat, j: nat)
    requires Reachable(s) && i < |s.conns| && j < |s.conns|
    ensures Handshaking(s.conns[i].phase) && Handshaking(s.conns[j].phase) ==> i == j
    ensures s.conns[i].phase == Replied ==> SetControl(s, i).1
    ensures !s.refused
    ensures s.control == Some(i) <==> s.conns[i].phase == Controlling
  {
    ReachableInv(s);
  }

  /** A worker waits in one place of the queue and leaves it for good when it is taken;
      a late clear of an old control leaves the present one alone. */
  lemma QueueAndClear(s: Server, i: nat)
    requires Reachable(s) && i < |s.conns|
    ensures s.conns[i].phase == Queued <==> i in s.workers
    ensures forall j, k :: 0 <= j < k < |s.workers| ==> s.workers[j] != s.workers[k]
    ensures s.control.Some? && s.control != Some(i) ==> ClearControl(s, i).control == s.control
  {
    ReachableInv(s);
    if i in s.workers {
      var j :| 0 <= j < |s.workers| && s.workers[j] == i;
      assert Has(s, s.workers[j], Queued);
    }
  }

  lemma {:induction false} TakenForGood(s: Server, steps: seq<Step>, t: Server, i: nat)
    requires Inv(s) && Run(s, steps, t) && Has(s, i, Taken)
    ensures Has(t, i, Taken)
    decreases |steps|
  {
    hide Next, Enabled, Has;
    if steps != [] {
      StepKeepsInv(s, steps[0]);
      InvHasQueue(s);
      TakenStays(s, steps[0], i);
      TakenForGood(Next(s, steps[0]), steps[1..], t, i);
    }
  }

  lemma InvHasQueue(s: Server)
    requires Inv(s)
    ensures QueueOk(s)
  {
  }

  // where the worker at place b of the queue stands after a step
  lemma PlaceMoves(s: Server, step: Step, b: nat)
    requires QueueOk(s) && Enabled(s, step) && b < |s.workers|
    ensures var t := Next(s, step);
      if !step.TakeWorker? then b < |t.workers| && t.workers[b] == s.workers[b]
      else if b == 0 then Has(t, s.workers[0], Taken)
      else b - 1 < |t.workers| && t.workers[b - 1] == s.workers[b]
  {
    if !step.TakeWorker? && !step.Enqueue? {
      SameWorkers(s, step);
      hide Next;
    }
  }

  lemma NotYetTaken(s: Server, b: nat)
    requires QueueOk(s) && b < |s.workers|
    ensures !Has(s, s.workers[b], Taken)
  {
    assert Has(s, s.workers[b], Queued);
  }

  /** First come, first taken: of two workers in the queue, the one behind is not taken
      before the one in front is, however the run goes on. */
  lemma {:induction false} FirstQueuedFirstTaken(s: Server, steps: seq<Step>, t: Server, a: nat, b: nat)
    requires Inv(s) && Run(s, steps, t) && a < b < |s.workers|
    ensures Has(t, s.workers[b], Taken) ==> Has(t, s.workers[a], Taken)
    decreases |steps|
  {
    hide Next, Enabled, Inv, QueueOk, Has;
    InvHasQueue(s);
    if steps == [] {
      NotYetTaken(s, b);
    } else {
      var n := Next(s, steps[0]);
      StepKeepsInv(s, steps[0]);
      PlaceMoves(s, steps[0], a);
      PlaceMoves(s, steps[0], b);
      if !steps[0].TakeWorker? {
        FirstQueuedFirstTaken(n, steps[1..], t, a, b);
      } else if a == 0 {
        TakenForGood(n, steps[1..], t, s.workers[0]);
      } else {
        FirstQueuedFirstTaken(n, steps[1..], t, a - 1, b - 1);
      }
    }
  }

  lemma KeepsDone(s: Server, step: Step)
    requires Enabled(s, step) && !step.Stop?
    ensures Next(s, step).done == s.done
  {
  }

  // ---- the object ------------------------------------------------------------------------

  /** originalServerState.  `control`, `workers` and `done` are its own fields; where the
      goroutines stand is kept beside them, so that each method is the step of its
      goroutine, and any interleaving of the methods is a run. */
  class OriginalServer {
    var control: Option<nat>
    var workers: seq<nat>
    var done: bool
    ghost var conns: seq<Conn>
    ghost var holder: Option<nat>
    ghost var refused: bool

    ghost function View(): Server
      reads this
    {
      Server(conns, holder, control, workers, done, refused)
    }

    constructor ()
      ensures View() == START && Inv(View())
    {
      control, workers, done := None, [], false;
      conns, holder, refused := [], None, false;
    }

    // where the goroutines stand after the step
    ghost method Note(step: Step, was: Server)
      requires Enabled(was, step) && !step.Stop? && View() == was.(control := control, workers := workers)
      modifies this`conns, this`holder, this`refused
      ensures View() == Next(was, step).(control := control, workers := workers)
      ensures Inv(was) ==> Inv(Next(was, step))
    {
      hide Inv, Next, Enabled;
      if Inv(was) {
        StepKeepsInv(was, step);
      }
      KeepsDone(was, step);
      var t := Next(was, step);
      conns, holder, refused := t.conns, t.holder, t.refused;
    }

    /** The look at the control slot before the lock: a connection that finds one is a
        worker, any other goes on to the lock. */
    method FirstLook(i: nat) returns (worker: bool)
      requires Enabled(View(), FirstCheck(i))
      modifies this`conns, this`holder, this`refused
      ensures View() == Next(old(View()), FirstCheck(i))
      ensures old(Inv(View())) ==> Inv(View())
      ensures worker <==> control.Some?
      ensures Has(View(), i, if worker then Queueing(false) else Waiting)
    {
      worker := control.Some?;
      Note(FirstCheck(i), View());
    }

    /** The look with the lock held: only a connection that finds no control here, while
        nobody else is told it is one, is read as a hello. */
    method SecondLook(i: nat) returns (worker: bool)
      requires Enabled(View(), SecondCheck(i))
      modifies this`conns, this`holder, this`refused
      ensures View() == Next(old(View()), SecondCheck(i))
      ensures old(Inv(View())) ==> Inv(View()) && (!worker ==> Announced(old(View())) == None)
      ensures worker <==> control.Some?
      ensures Has(View(), i, if worker then Queueing(true) else Reading)
    {
      worker := control.Some?;
      Note(SecondCheck(i), View());
    }

    /** setControl: in every state that a run can reach the slot is free, so that the
        connection becomes the control. */
    method InstallControl(i: nat) returns (ok: bool)
      requires Enabled(View(), Install(i))
      modifies this`control, this`conns, this`holder, this`refused
      ensures View() == Next(old(View()), Install(i))
      ensures old(Inv(View())) ==> Inv(View()) && ok && control == Some(i) && old(control) == None
      ensures ok <==> old(control) == None
      ensures if ok then control == Some(i) && Has(View(), i, Controlling) else control == old(control)
    {
      ghost var was := View();
      ok := control.None?;
      if ok {
        control := Some(i);
      }
      Note(Install(i), was);
    }

    /** clearControl, late or not: a connection that is the control is it no longer, and
        a control that has come since stays. */
    method DropControl(i: nat)
      requires Enabled(View(), Clear(i))
      modifies this`control, this`conns, this`holder, this`refused
      ensures View() == Next(old(View()), Clear(i))
      ensures old(Inv(View())) ==> Inv(View())
      ensures control != Some(i) && (old(control) != Some(i) ==> control == old(control))
    {
      ghost var was := View();
      if control == Some(i) {
        control := None;
      }
      Note(Clear(i), was);
    }

    /** enqueueWorker: queued at the end, or closed; closed only when stopped or full. */
    method EnqueueWorker(i: nat) returns (queued: bool)
      requires i < |conns| && conns[i].phase.Queueing?
      modifies this`workers, this`conns, this`holder, this`refused
      ensures Enabled(old(View()), Enqueue(i, queued)) && View() == Next(old(View()), Enqueue(i, queued))
      ensures old(Inv(View())) ==> Inv(View())
      ensures queued ==> |old(workers)| < 512 && workers == old(workers) + [i] && Has(View(), i, Queued)
      ensures !queued ==> workers == old(workers) && (done || |workers| >= 512)
      ensures !queued ==> Has(View(), i, Closed(if done then Stopped else NoRoom))
    {
      ghost var was := View();
      var pickStop: bool := *;
      queued := |workers| < WORKER_LIMIT && !(done && pickStop);
      if queued {
        workers := workers + [i];
      }
      Note(Enqueue(i, queued), was);
    }
  }
}
