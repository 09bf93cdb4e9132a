/** The UDP control listener: one goroutine reads packets and finds or makes the
    connection of their source; connections are accepted, read and closed by others.
    A step is what happens between two points at which another may run. */
module UdpControl {
  import opened Bytes
  import opened Associations
  import opened Conn

  const ACCEPT_LIMIT := 256
  const PACKET_LIMIT := 512

  // where the reading goroutine stands
  datatype Loop =
    | Idle
    | Pushing(i: nat, pkt: Packet)   // found the connection, let go of the lock
    | Failing(i: nat)                // the push failed: in Close, which returns once the entry is gone

  datatype State = State(
    table: Table,
    taken: seq<nat>,                 // how many packets each connection's reader has had
    waiting: seq<nat>,               // acceptC
    accepted: seq<nat>,
    loop: Loop,
    arrived: seq<Arrival>)

  const START := State(EMPTY, [], [], [], Idle, [])

  datatype Step =
    | Arrive(key: string, pkt: Packet)
    | Push(ok: bool)
    | PushFailed
    | Accept
    | ReadPacket(i: nat)
    | Close(i: nat)
    | Remove(i: nat)

  function Queue(s: State, i: nat): int
    requires i < |s.table.entries| && i < |s.taken|
  {
    |s.table.entries[i].given| - s.taken[i]
  }

  predicate Knows(s: State, i: nat) {
    i < |s.table.entries| && i < |s.taken|
  }

  // a closed connection with room may still take the packet: the select picks either
  predicate MayPush(s: State, i: nat, ok: bool)
    requires Knows(s, i)
  {
    if ok then Queue(s, i) < PACKET_LIMIT
    else s.table.entries[i].stage != Live || Queue(s, i) >= PACKET_LIMIT
  }

  predicate Enabled(s: State, step: Step) {
    match step
    case Arrive(key, pkt) => s.loop == Idle
    case Push(ok) => s.loop.Pushing? && Knows(s, s.loop.i) && MayPush(s, s.loop.i, ok)
    case PushFailed => s.loop.Failing? && s.loop.i < |s.table.entries| && s.table.entries[s.loop.i].stage == Gone
    case Accept => s.waiting != []
    case ReadPacket(i) => Knows(s, i) && 0 < Queue(s, i)
    case Close(i) =>
      && i < |s.table.entries| && s.table.entries[i].stage == Live
      && (i in s.accepted || s.loop == Failing(i))
    case Remove(i) => i < |s.table.entries| && s.table.entries[i].stage == Closing
  }

  // the part of the loop under the lock
  function Lookup(s: State, key: string, pkt: Packet): State {
    if key in s.table.at then
      if s.table.at[key] < |s.table.entries| then
        s.(table := Offer(s.table, s.table.at[key], pkt), loop := Pushing(s.table.at[key], pkt))
      else s
    else if |s.waiting| < ACCEPT_LIMIT then
      var i := |s.table.entries|;
      s.(table := Offer(Create(s.table, key), i, pkt), taken := s.taken + [0], waiting := s.waiting + [i],
         loop := Pushing(i, pkt))
    else
      s.(table := CreateGone(s.table, key, pkt), taken := s.taken + [0])
  }

  function Next(s: State, step: Step): State
    requires Enabled(s, step)
  {
    match step
    case Arrive(key, pkt) => Lookup(s, key, pkt).(arrived := s.arrived + [Arrival(key, pkt)])
    case Push(ok) =>
      var Pushing(i, pkt) := s.loop;
      if ok then s.(table := Give(s.table, i, pkt), loop := Idle) else s.(loop := Failing(i))
    case PushFailed => s.(loop := Idle)
    case Accept => s.(waiting := s.waiting[1..], accepted := s.accepted + [s.waiting[0]])
    case ReadPacket(i) => s.(taken := s.taken[i := s.taken[i] + 1])
    case Close(i) => s.(table := StartClose(s.table, i))
    case Remove(i) => s.(table := Delete(s.table, i))
  }

  // ---- the invariant ------------------------------------------------------------------------

  predicate AtLoop(s: State, i: nat) {
    (s.loop.Pushing? || s.loop.Failing?) && s.loop.i == i
  }

  // all that stand have had every packet offered, but for the one the loop is busy with
  ghost predicate GivenOk(s: State) {
    && (forall i: nat :: Standing(s.table, i) && !AtLoop(s, i) ==>
          s.table.entries[i].given == s.table.entries[i].offered)
    && (s.loop.Pushing? ==>
          && s.loop.i < |s.table.entries|
          && s.table.entries[s.loop.i].offered == s.table.entries[s.loop.i].given + [s.loop.pkt])
    && (s.loop.Failing? ==> s.loop.i < |s.table.entries|)
  }

  ghost predicate QueuesOk(s: State) {
    && |s.taken| == |s.table.entries|
    && (forall i: nat :: i < |s.taken| ==> 0 <= Queue(s, i) <= PACKET_LIMIT)
  }

  ghost predicate AcceptOk(s: State) {
    var all := s.accepted + s.waiting;
    && |s.waiting| <= ACCEPT_LIMIT
    && (forall j :: 0 <= j < |all| ==> all[j] < |s.table.entries|)
    && (forall j, k :: 0 <= j < k < |all| ==> all[j] < all[k])
  }

  ghost predicate Inv(s: State) {
    TableInv(s.table) && Logged(s.table, s.arrived) && GivenOk(s) && QueuesOk(s) && AcceptOk(s)
  }

  // ---- every step keeps it ---------------------------------------------------------------------

  lemma ArriveKnown(s: State, key: string, pkt: Packet)
    requires Inv(s) && s.loop == Idle && key in s.table.at
    ensures Inv(Next(s, Arrive(key, pkt)))
  {
    var t := Next(s, Arrive(key, pkt));
    var i := s.table.at[key];
    PacketKeeps(s.table, i, pkt);
    OfferLogs(s.table, i, pkt, s.arrived);
    assert forall j: nat :: j < |s.table.entries| && j != i ==> t.table.entries[j] == s.table.entries[j];
    assert forall j: nat :: j < |s.taken| ==> Queue(t, j) == Queue(s, j);
  }

  lemma ArriveNew(s: State, key: string, pkt: Packet)
    requires Inv(s) && s.loop == Idle && key !in s.table.at && |s.waiting| < ACCEPT_LIMIT
    ensures Inv(Next(s, Arrive(key, pkt)))
  {
    hide AcceptOk, TableInv, Logged;
    var t := Next(s, Arrive(key, pkt));
    var i := |s.table.entries|;
    var mid := Create(s.table, key);
    CreateKeeps(s.table, key);
    CreateLogs(s.table, key, s.arrived);
    PacketKeeps(mid, i, pkt);
    OfferLogs(mid, i, pkt, s.arrived);
    assert forall j: nat :: j < i ==> t.table.entries[j] == s.table.entries[j];
    assert forall j: nat :: j < i ==> Queue(t, j) == Queue(s, j);
    OneMoreWaits(s, t);
  }

  lemma OneMoreWaits(s: State, t: State)
    requires AcceptOk(s) && |s.waiting| < ACCEPT_LIMIT && |t.table.entries| == |s.table.entries| + 1
    requires t.accepted == s.accepted && t.waiting == s.waiting + [|s.table.entries|]
    ensures AcceptOk(t)
  {
    assert t.accepted + t.waiting == (s.accepted + s.waiting) + [|s.table.entries|];
  }

  lemma ArriveRefused(s: State, key: string, pkt: Packet)
    requires Inv(s) && s.loop == Idle && key !in s.table.at && |s.waiting| >= ACCEPT_LIMIT
    ensures Inv(Next(s, Arrive(key, pkt)))
  {
    var t := Next(s, Arrive(key, pkt));
    CreateGoneKeeps(s.table, key, pkt);
    CreateGoneLogs(s.table, key, pkt, s.arrived);
    assert forall j: nat :: j < |s.table.entries| ==> t.table.entries[j] == s.table.entries[j];
    assert forall j: nat :: j < |s.table.entries| ==> Queue(t, j) == Queue(s, j);
  }

  lemma PushKeeps(s: State)
    requires Inv(s) && Enabled(s, Push(true))
    ensures Inv(Next(s, Push(true)))
  {
    var t := Next(s, Push(true));
    var i := s.loop.i;
    PacketKeeps(s.table, i, s.loop.pkt);
    LogSame(s.table, t.table, s.arrived);
    assert forall j: nat :: j < |s.table.entries| && j != i ==> t.table.entries[j] == s.table.entries[j];
    assert forall j: nat :: j < |s.taken| && j != i ==> Queue(t, j) == Queue(s, j);
  }

  lemma CloseKeeps(s: State, i: nat)
    requires Inv(s) && Enabled(s, Close(i))
    ensures Inv(Next(s, Close(i)))
  {
    var t := Next(s, Close(i));
    StartCloseKeeps(s.table, i);
    LogSame(s.table, t.table, s.arrived);
    assert forall j: nat :: j < |s.taken| ==> Queue(t, j) == Queue(s, j);
  }

  lemma RemoveKeeps(s: State, i: nat)
    requires Inv(s) && Enabled(s, Remove(i))
    ensures Inv(Next(s, Remove(i)))
  {
    var t := Next(s, Remove(i));
    DeleteIsOwn(s.table, i);
    LogSame(s.table, t.table, s.arrived);
    assert forall j: nat :: j < |s.taken| ==> Queue(t, j) == Queue(s, j);
  }

  lemma ReadersKeep(s: State, step: Step)
    requires Inv(s) && Enabled(s, step) && (step.Accept? || step.ReadPacket? || step.PushFailed? || step == Push(false))
    ensures Inv(Next(s, step))
  {
    var t := Next(s, step);
    assert t.table == s.table;
    if step.Accept? {
      assert t.accepted + t.waiting == s.accepted + s.waiting;
    }
    if step.ReadPacket? {
      assert forall j: nat :: j < |s.taken| && j != step.i ==> Queue(t, j) == Queue(s, j);
      assert Queue(t, step.i) == Queue(s, step.i) - 1;
    } else {
      assert forall j: nat :: j < |s.taken| ==> Queue(t, j) == Queue(s, j);
    }
  }

  lemma StepKeepsInv(s: State, step: Step)
    requires Inv(s) && Enabled(s, step)
    ensures Inv(Next(s, step))
  {
    match step
    case Arrive(key, pkt) =>
      if key in s.table.at {
        ArriveKnown(s, key, pkt);
      } else if |s.waiting| < ACCEPT_LIMIT {
        ArriveNew(s, key, pkt);
      } else {
        ArriveRefused(s, key, pkt);
      }
    case Push(ok) =>
      if ok {
        PushKeeps(s);
      } else {
        ReadersKeep(s, step);
      }
    case Close(i) => CloseKeeps(s, i);
    case Remove(i) => RemoveKeeps(s, i);
    case _ => ReadersKeep(s, step);
  }

  // ---- runs --------------------------------------------------------------------------------------

  ghost predicate Run(s: State, steps: seq<Step>, t: State)
    decreases |steps|
  {
    if steps == [] then s == t
    else Enabled(s, steps[0]) && Run(Next(s, steps[0]), steps[1..], t)
  }

  ghost predicate Reachable(t: State) {
    exists steps :: Run(START, steps, t)
  }

  lemma {:induction false} RunKeepsInv(s: State, steps: seq<Step>, t: State)
    requires Inv(s) && Run(s, steps, t)
    ensures Inv(t)
    decreases |steps|
  {
    if steps != [] {
      StepKeepsInv(s, steps[0]);
      RunKeepsInv(Next(s, steps[0]), steps[1..], t);
    }
  }

  lemma ReachableInv(t: State)
    requires Reachable(t)
    ensures Inv(t)
  {
    var steps :| Run(START, steps, t);
    RunKeepsInv(START, steps, t);
  }

  /** In every interleaving of packets, accepts, reads and closes, a source has at most
      one connection in the table, and a connection's late remove takes out its own entry
      only: whatever else stands, stands afterwards. */
  lemma RemoveIsOwn(s: State, i: nat)
    requires Reachable(s) && Enabled(s, Remove(i))
    ensures s.table.entries[i].key in s.table.at && s.table.at[s.table.entries[i].key] == i
    ensures forall j: nat :: j != i ==> (Standing(Next(s, Remove(i)).table, j) <==> Standing(s.table, j))
    ensures forall j: nat :: Standing(s.table, j) && s.table.entries[j].key == s.table.entries[i].key ==> j == i
  {
    ReachableInv(s);
    DeleteIsOwn(s.table, i);
    forall j: nat | Standing(s.table, j) && s.table.entries[j].key == s.table.entries[i].key
      ensures j == i
    {
      OneEach(s.table, i, j);
    }
  }

  /** A connection's packets are all from its own source: what the source sent, cut into
      consecutive pieces, is what was offered to its connections one after the other.
      A connection takes its piece from the front without a gap, all of it while it
      stands and the loop is elsewhere, and holds at most 512 unread packets. */
  lemma SourcesApart(s: State, i: nat)
    requires Reachable(s) && i < |s.table.entries|
    ensures Logged(s.table, s.arrived)
    ensures s.table.entries[i].given <= s.table.entries[i].offered
    ensures Standing(s.table, i) && s.loop == Idle ==> s.table.entries[i].given == s.table.entries[i].offered
    ensures i < |s.taken| && s.taken[i] <= |s.table.entries[i].given| <= s.taken[i] + 512
  {
    ReachableInv(s);
    assert 0 <= Queue(s, i) <= PACKET_LIMIT;
  }

  /** No connection is accepted twice, and they are accepted in the order they were made. */
  lemma AcceptedInOrder(s: State, j: nat, k: nat)
    requires Reachable(s) && j < k < |s.accepted|
    ensures s.accepted[j] < s.accepted[k] < |s.table.entries|
    ensures s.accepted[j] !in s.waiting
  {
    ReachableInv(s);
    var all := s.accepted + s.waiting;
    assert all[j] == s.accepted[j] && all[k] == s.accepted[k];
    forall m | 0 <= m < |s.waiting|
      ensures s.waiting[m] != s.accepted[j]
    {
      assert all[|s.accepted| + m] == s.waiting[m];
    }
  }

  // ---- the objects -----------------------------------------------------------------------------------

  class UdpControlConn {
    const key: string
    var incoming: seq<Packet>
    var rbuf: seq<Byte>
    var closed: bool

    constructor (key: string)
      ensures this.key == key && incoming == [] && rbuf == [] && !closed
    {
      this.key := key;
      incoming, rbuf, closed := [], [], false;
    }

    // the bytes taken and not yet read
    ghost function Pending(): seq<Byte>
      reads this
    {
      rbuf + Concat(incoming)
    }

    /** Takes the packet at the end of the queue, or not at all, and not only when the
        connection is closed or the queue full. */
    method Push(pkt: Packet) returns (ok: bool)
      modifies this`incoming
      ensures ok ==> |old(incoming)| < 512 && incoming == old(incoming) + [pkt]
      ensures !ok ==> incoming == old(incoming) && (closed || |incoming| >= 512)
    {
      var pickClosed: bool := *;
      if closed && pickClosed {
        return false;
      }
      ok := |incoming| < PACKET_LIMIT;
      if ok {
        incoming := incoming + [pkt];
      }
    }

    /** Reads up to n bytes off the front of what is pending, packet boundaries
        forgotten; the end only after a close. */
    method Read(n: nat) returns (r: ReadResult)
      modifies this`incoming, this`rbuf
      ensures r.Data? ==> |r.chunk| <= n && old(Pending()) == r.chunk + Pending() && (n > 0 ==> r.chunk != [])
      ensures r.EndOfFile? ==> closed
      ensures r.MustWait? ==> !closed && old(Pending()) == [] && incoming == []
      ensures !r.Data? ==> Pending() == old(Pending())
    {
      while |rbuf| == 0
        invariant Pending() == old(Pending())
        decreases |rbuf| == 0, |incoming|
      {
        var pickClosed: bool := *;
        if closed && (incoming == [] || pickClosed) {
          return EndOfFile;
        }
        if incoming == [] {
          return MustWait;
        }
        assert incoming == [incoming[0]] + incoming[1..];
        rbuf, incoming := incoming[0], incoming[1..];
      }
      var k := if n < |rbuf| then n else |rbuf|;
      r := Data(rbuf[..k]);
      assert rbuf == rbuf[..k] + rbuf[k..];
      rbuf := rbuf[k..];
    }
  }

  class UdpControlListener {
    var conns: map<string, UdpControlConn>
    var acceptC: seq<UdpControlConn>

    // every connection stands under its key; a closed one does so until its close is through
    ghost predicate Valid()
      reads this
    {
      forall k :: k in conns ==> conns[k].key == k
    }

    constructor ()
      ensures Valid() && conns == map[] && acceptC == []
    {
      conns, acceptC := map[], [];
    }

    /** The section under the lock: the connection of a known source; else a new one,
        stored and queued for Accept; else, the accept queue full, none, and nothing
        has changed. */
    method Lookup(key: string) returns (c: UdpControlConn?)
      requires Valid()
      modifies this
      ensures Valid()
      ensures key in old(conns) ==> c == old(conns)[key] && conns == old(conns) && acceptC == old(acceptC)
      ensures key !in old(conns) && |old(acceptC)| < 256 ==>
        && c != null && fresh(c) && c.incoming == [] && !c.closed && c.key == key
        && conns == old(conns)[key := c] && acceptC == old(acceptC) + [c]
      ensures key !in old(conns) && |old(acceptC)| >= 256 ==>
        c == null && conns == old(conns) && acceptC == old(acceptC)
    {
      if key in conns {
        return conns[key];
      }
      var made := new UdpControlConn(key);
      conns := conns[key := made];
      if |acceptC| < ACCEPT_LIMIT {
        acceptC := acceptC + [made];
        return made;
      }
      conns := conns - {key};
      assert conns == old(conns);
      made.closed := true;
      c := null;
    }

    /** closeLocal: the connection's own entry is gone, and every other still there.  A
        call that finds the close begun returns only when it is through, so it, too, ends
        with the entry gone. */
    method CloseConn(c: UdpControlConn)
      requires Valid()
      requires !c.closed ==> c.key in conns && conns[c.key] == c
      modifies this`conns, c`closed
      ensures Valid() && c.closed
      ensures forall k :: k in conns <==> k in old(conns) && old(conns)[k] != c
      ensures forall k :: k in conns ==> conns[k] == old(conns)[k]
    {
      var begun := c.closed;
      c.closed := true;
      if !begun || (c.key in conns && conns[c.key] == c) {
        conns := conns - {c.key};
      }
    }

    /** One packet through the whole loop body: a known source's connection takes it, or
        is thrown out because it is full or is being closed; a new source's connection
        takes it first, unless the accept queue is full; no other source's connection is
        touched. */
    method Receive(key: string, pkt: Packet)
      requires Valid()
      modifies this, if key in conns then {conns[key]} else {}
      ensures Valid()
      ensures forall k :: k != key ==> (k in conns <==> k in old(conns)) && (k in conns ==> conns[k] == old(conns)[k])
      ensures key in conns ==>
        conns[key].incoming == (if key in old(conns) then old(conns[key].incoming) else []) + [pkt]
      ensures key in conns && key in old(conns) ==> conns[key] == old(conns)[key]
      ensures key !in old(conns) ==> (key !in conns <==> |old(acceptC)| >= 256)
      ensures key in old(conns) && key !in conns ==> old(|conns[key].incoming| >= 512 || conns[key].closed)
      ensures key in old(conns) && old(|conns[key].incoming|) >= 512 ==> key !in conns
    {
      var c := Lookup(key);
      if c == null {
        return;
      }
      var ok := c.Push(pkt);
      if !ok {
        CloseConn(c);
      }
    }
  }
}
