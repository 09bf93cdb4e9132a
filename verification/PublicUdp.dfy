/** The public UDP listener: the loop that reads packets looks a source up, and for a
    new one takes a stream to the client before it stores the association; one goroutine
    for each association sends the replies back and deletes the entry when it ends. */
module PublicUdp {
  import opened Wrappers
  import opened Associations
  import opened Conn
  import opened Datagrams
  import opened Prefixed

  datatype Loop =
    | Idle
    | Acquiring(key: string, pkt: Packet)   // found nothing, and let go of the lock
    | Sending(i: nat, pkt: Packet)

  // a datagram sent to an address, out of an association's stream
  datatype Reply = Reply(to: string, from: nat)

  // broken: its stream is closed, or a write to it has failed
  datatype State = State(
    table: Table,
    broken: seq<bool>,
    loop: Loop,
    replies: seq<Reply>,
    arrived: seq<Arrival>)

  const START := State(EMPTY, [], Idle, [], [])

  datatype Step =
    | Arrive(key: string, pkt: Packet)
    | AcquireFails
    | Acquired
    | Send(ok: bool)
    | ReplyBack(i: nat)
    | ReadEnds(i: nat)
    | Remove(i: nat)

  predicate Knows(s: State, i: nat) {
    i < |s.table.entries| && i < |s.broken|
  }

  predicate Enabled(s: State, step: Step) {
    match step
    case Arrive(key, pkt) => s.loop == Idle
    case AcquireFails => s.loop.Acquiring?
    case Acquired => s.loop.Acquiring?
    case Send(ok) => s.loop.Sending? && Knows(s, s.loop.i) && (ok ==> !s.broken[s.loop.i])
    case ReplyBack(i) => Knows(s, i) && s.table.entries[i].stage == Live
    case ReadEnds(i) => Knows(s, i) && s.table.entries[i].stage == Live
    case Remove(i) => Knows(s, i) && s.table.entries[i].stage == Closing
  }

  function Lookup(s: State, key: string, pkt: Packet): State {
    if key in s.table.at && s.table.at[key] < |s.table.entries| then
      s.(table := Offer(s.table, s.table.at[key], pkt), loop := Sending(s.table.at[key], pkt))
    else
      s.(loop := Acquiring(key, pkt))
  }

  // a source whose stream could not be had is logged as an entry that never stood
  function Next(s: State, step: Step): State
    requires Enabled(s, step)
  {
    match step
    case Arrive(key, pkt) => Lookup(s, key, pkt).(arrived := s.arrived + [Arrival(key, pkt)])
    case AcquireFails =>
      s.(table := CreateGone(s.table, s.loop.key, s.loop.pkt), broken := s.broken + [true], loop := Idle)
    case Acquired =>
      var i := |s.table.entries|;
      s.(table := Offer(Create(s.table, s.loop.key), i, s.loop.pkt), broken := s.broken + [false],
         loop := Sending(i, s.loop.pkt))
    case Send(ok) =>
      var Sending(i, pkt) := s.loop;
      if ok then s.(table := Give(s.table, i, pkt), loop := Idle) else s.(broken := s.broken[i := true], loop := Idle)
    case ReplyBack(i) => s.(replies := s.replies + [Reply(s.table.entries[i].key, i)])
    case ReadEnds(i) => s.(table := StartClose(s.table, i), broken := s.broken[i := true])
    case Remove(i) => s.(table := Delete(s.table, i))
  }

  // ---- the invariant ---------------------------------------------------------------------

  // the arrivals that have reached an association, or failed to
  function Handled(s: State): seq<Arrival> {
    if s.loop.Acquiring? && s.arrived != [] then s.arrived[..|s.arrived| - 1] else s.arrived
  }

  ghost predicate LoopOk(s: State) {
    match s.loop
    case Idle => true
    case Acquiring(key, pkt) =>
      && key !in s.table.at
      && s.arrived != [] && s.arrived[|s.arrived| - 1] == Arrival(key, pkt)
    case Sending(i, pkt) =>
      && Knows(s, i)
      && (!s.broken[i] ==> s.table.entries[i].offered == s.table.entries[i].given + [pkt])
  }

  ghost predicate GivenOk(s: State) {
    && |s.broken| == |s.table.entries|
    && (forall i: nat :: i < |s.broken| && !s.broken[i] ==>
          && s.table.entries[i].stage == Live
          && ((s.loop.Sending? && s.loop.i == i) || s.table.entries[i].given == s.table.entries[i].offered))
  }

  ghost predicate RepliesOk(s: State) {
    forall r :: r in s.replies ==> r.from < |s.table.entries| && r.to == s.table.entries[r.from].key
  }

  ghost predicate Inv(s: State) {
    && TableInv(s.table) && GivenOk(s) && LoopOk(s)
    && Logged(s.table, Handled(s)) && RepliesOk(s)
  }

  // ---- every step keeps it ------------------------------------------------------------------

  lemma ArriveKeeps(s: State, key: string, pkt: Packet)
    requires Inv(s) && s.loop == Idle
    ensures Inv(Next(s, Arrive(key, pkt)))
  {
    var t := Next(s, Arrive(key, pkt));
    if key in s.table.at {
      var i := s.table.at[key];
      PacketKeeps(s.table, i, pkt);
      OfferLogs(s.table, i, pkt, s.arrived);
      assert forall j: nat :: j < |s.table.entries| && j != i ==> t.table.entries[j] == s.table.entries[j];
    } else {
      assert Handled(t) == s.arrived;
    }
  }

  lemma AcquiredKeeps(s: State)
    requires Inv(s) && s.loop.Acquiring?
    ensures Inv(Next(s, Acquired))
  {
    hide TableInv, Logged;
    var t := Next(s, Acquired);
    var Acquiring(key, pkt) := s.loop;
    var i, mid := |s.table.entries|, Create(s.table, key);
    assert s.arrived == Handled(s) + [Arrival(key, pkt)];
    CreateKeeps(s.table, key);
    CreateLogs(s.table, key, Handled(s));
    PacketKeeps(mid, i, pkt);
    OfferLogs(mid, i, pkt, Handled(s));
    assert forall j: nat :: j < i ==> t.table.entries[j] == s.table.entries[j] && t.broken[j] == s.broken[j];
  }

  lemma AcquireFailsKeeps(s: State)
    requires Inv(s) && s.loop.Acquiring?
    ensures Inv(Next(s, AcquireFails))
  {
    var t := Next(s, AcquireFails);
    var Acquiring(key, pkt) := s.loop;
    assert s.arrived == Handled(s) + [Arrival(key, pkt)];
    CreateGoneKeeps(s.table, key, pkt);
    CreateGoneLogs(s.table, key, pkt, Handled(s));
    var n := |s.table.entries|;
    assert forall j: nat :: j < n ==> t.table.entries[j] == s.table.entries[j] && t.broken[j] == s.broken[j];
  }

  lemma SendKeeps(s: State, ok: bool)
    requires Inv(s) && Enabled(s, Send(ok))
    ensures Inv(Next(s, Send(ok)))
  {
    var t := Next(s, Send(ok));
    var Sending(i, pkt) := s.loop;
    if ok {
      PacketKeeps(s.table, i, pkt);
      LogSame(s.table, t.table, s.arrived);
      assert forall j: nat :: j < |s.table.entries| && j != i ==> t.table.entries[j] == s.table.entries[j];
    }
  }

  lemma EndingKeeps(s: State, step: Step)
    requires Inv(s) && Enabled(s, step) && (step.ReadEnds? || step.Remove?)
    ensures Inv(Next(s, step))
  {
    hide TableInv, Logged;
    var t := Next(s, step);
    if step.ReadEnds? {
      StartCloseKeeps(s.table, step.i);
    } else {
      DeleteIsOwn(s.table, step.i);
    }
    LogSame(s.table, t.table, Handled(s));
    assert forall j: nat :: j < |s.table.entries| && j != step.i ==> t.table.entries[j] == s.table.entries[j];
  }

  lemma StepKeepsInv(s: State, step: Step)
    requires Inv(s) && Enabled(s, step)
    ensures Inv(Next(s, step))
  {
    match step
    case Arrive(key, pkt) => ArriveKeeps(s, key, pkt);
    case AcquireFails => AcquireFailsKeeps(s);
    case Acquired => AcquiredKeeps(s);
    case Send(ok) => SendKeeps(s, ok);
    case ReplyBack(i) =>
    case ReadEnds(i) => EndingKeeps(s, step);
    case Remove(i) => EndingKeeps(s, step);
  }

  // ---- runs -----------------------------------------------------------------------------------

  ghost predicate Run(s: State, steps: seq<Step>, t: State)
    decreases |steps|
  {
    if steps == [] then s == t
    else Enabled(s, steps[0]) && Run(Next(s, steps[0]), steps[1..], t)
  }

  ghost predicate Reachable(t: State) {
    exists steps :: Run(START, steps, t)
  }

  lemma {:induction false} RunKeepsInv(s: State, steps: seq<Step>, t: State)
    requires Inv(s) && Run(s, steps, t)
    ensures Inv(t)
    decreases |steps|
  {
    if steps != [] {
      StepKeepsInv(s, steps[0]);
      RunKeepsInv(Next(s, steps[0]), steps[1..], t);
    }
  }

  lemma ReachableInv(t: State)
    requires Reachable(t)
    ensures Inv(t)
  {
    var steps :| Run(START, steps, t);
    RunKeepsInv(START, steps, t);
  }

  /** In every interleaving: the store after the unlocked lookup never overwrites an
      association, and a late delete takes out its own and no other. */
  lemma StoreAndDelete(s: State)
    requires Reachable(s)
    ensures Enabled(s, Acquired) ==> s.loop.key !in s.table.at
    ensures forall i: nat :: Enabled(s, Remove(i)) ==>
      && s.table.entries[i].key in s.table.at && s.table.at[s.table.entries[i].key] == i
      && Next(s, Remove(i)).table.at == s.table.at - {s.table.entries[i].key}
    ensures forall i: nat, j: nat :: Standing(s.table, i) && Standing(s.table, j) && i != j ==>
      s.table.entries[i].key != s.table.entries[j].key
  {
    ReachableInv(s);
  }

  /** Every reply goes to the source that the association was made for, and the packets
      its stream is given are that source's alone: the front, without a gap, of the
      piece of the source's packets that came while it was the source's association. */
  lemma RepliesGoHome(s: State, i: nat)
    requires Reachable(s) && i < |s.table.entries|
    ensures forall r :: r in s.replies && r.from == i ==> r.to == s.table.entries[i].key
    ensures s.table.entries[i].given <= s.table.entries[i].offered
    ensures s.loop == Idle ==> Logged(s.table, s.arrived)
    ensures s.loop == Idle && i < |s.broken| && !s.broken[i] ==> s.table.entries[i].given == s.table.entries[i].offered
  {
    ReachableInv(s);
  }

  // ---- the objects -----------------------------------------------------------------------------

  class Association {
    const addr: string
    const conn: ByteConn

    constructor (addr: string, conn: ByteConn)
      ensures this.addr == addr && this.conn == conn
    {
      this.addr, this.conn := addr, conn;
    }

    /** One turn of the reply goroutine: the next datagram of the stream, and where it is
        sent; none once the stream has ended. */
    method NextReply() returns (to: string, pkt: Option<Packet>)
      modifies conn`input
      ensures to == addr
      ensures pkt.None? <==> DecodePrefixed(old(conn.input)).None?
      ensures pkt.Some? ==> var (q, n) := DecodePrefixed(old(conn.input)).value;
        pkt.value == q && n <= |old(conn.input)| && conn.input == old(conn.input)[n..]
    {
      to := addr;
      pkt := ReadDatagram(conn);
    }
  }

  // the datagram, cut only above 65535 bytes, was added to what the stream carries, whole
  // unless the stream is now dead
  twostate predicate Carries(c: ByteConn, pkt: Packet)
    reads c
  {
    && c.input == old(c.input)
    && old(c.output) <= c.output <= old(c.output) + EncodePrefixed(Clip(pkt))
    && (c.dead || c.output == old(c.output) + EncodePrefixed(Clip(pkt)))
  }

  class PublicUdpListener {
    var assocs: map<string, Association>

    ghost predicate Valid()
      reads this
    {
      forall k :: k in assocs ==> assocs[k].addr == k
    }

    constructor ()
      ensures Valid() && assocs == map[]
    {
      assocs := map[];
    }

    /** One packet through the loop body, `acquired` being what a request for a stream
        would bring.  A known source keeps its association; a new one gets an association
        on the acquired stream, or is dropped; every other source keeps what it had.  The
        datagram goes onto that one stream, whole unless the stream is dead afterwards. */
    method Forward(src: string, pkt: Packet, acquired: ByteConn?) returns (a: Association?)
      requires Valid()
      modifies this, if src in assocs then {assocs[src].conn} else if acquired != null then {acquired} else {}
      ensures Valid()
      ensures src in old(assocs) ==> a == old(assocs)[src] && assocs == old(assocs)
      ensures src !in old(assocs) && acquired == null ==> a == null && assocs == old(assocs)
      ensures src !in old(assocs) && acquired != null ==>
        a != null && fresh(a) && a.conn == acquired && assocs == old(assocs)[src := a]
      ensures a != null ==> a.addr == src
      ensures src in old(assocs) ==> Carries(old(assocs)[src].conn, pkt)
      ensures src !in old(assocs) && acquired != null ==> Carries(acquired, pkt)
    {
      a := if src in assocs then assocs[src] else null;
      if a == null {
        if acquired == null {
          return;
        }
        a := new Association(src, acquired);
        assocs := assocs[src := a];
      }
      var ok := WriteDatagram(a.conn, pkt);
    }

    /** The end of a reply goroutine: delete by key. */
    method Drop(a: Association)
      requires Valid() && a.addr in assocs && assocs[a.addr] == a
      modifies this
      ensures Valid()
      ensures forall k :: k in assocs <==> k in old(assocs) && old(assocs)[k] != a
      ensures forall k :: k in assocs ==> assocs[k] == old(assocs)[k]
    {
      assocs := assocs - {a.addr};
    }
  }
}
