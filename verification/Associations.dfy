/** A table from source address to connection, as the UDP control listener and the
    public UDP listener keep it.  The listener's loop adds an entry when a packet comes
    from a source without one; an entry leaves by its connection's own goroutine, which
    deletes by key, not knowing what stands there by then. */
module Associations {
  import opened Bytes

  type Packet = seq<Byte>

  datatype Stage = Live | Closing | Gone

  // offered: the packets the loop had for it.  given: those it took
  datatype Entry = Entry(key: string, stage: Stage, offered: seq<Packet>, given: seq<Packet>)

  datatype Table = Table(entries: seq<Entry>, at: map<string, nat>)

  const EMPTY := Table([], map[])

  predicate Standing(t: Table, i: nat) {
    i < |t.entries| && t.entries[i].stage != Gone
  }

  // what the loop stores for a source, whatever stood there
  function Create(t: Table, key: string): Table {
    Table(t.entries + [Entry(key, Live, [], [])], t.at[key := |t.entries|])
  }

  // a connection that is gone before anyone could hold it
  function CreateGone(t: Table, key: string, pkt: Packet): Table {
    t.(entries := t.entries + [Entry(key, Gone, [pkt], [])])
  }

  function StartClose(t: Table, i: nat): Table
    requires i < |t.entries|
  {
    t.(entries := t.entries[i := t.entries[i].(stage := Closing)])
  }

  // delete by key
  function Delete(t: Table, i: nat): Table
    requires i < |t.entries|
  {
    Table(t.entries[i := t.entries[i].(stage := Gone)], t.at - {t.entries[i].key})
  }

  function Offer(t: Table, i: nat, pkt: Packet): Table
    requires i < |t.entries|
  {
    t.(entries := t.entries[i := t.entries[i].(offered := t.entries[i].offered + [pkt])])
  }

  function Give(t: Table, i: nat, pkt: Packet): Table
    requires i < |t.entries|
  {
    t.(entries := t.entries[i := t.entries[i].(given := t.entries[i].given + [pkt])])
  }

  // ---- what the table keeps --------------------------------------------------------------

  // the table points exactly at the standing entries, each under its own key
  ghost predicate PointsOk(t: Table) {
    && (forall k :: k in t.at ==> Standing(t, t.at[k]) && t.entries[t.at[k]].key == k)
    && (forall i: nat :: Standing(t, i) ==> t.entries[i].key in t.at && t.at[t.entries[i].key] == i)
  }

  // an entry that stands is the newest of its key
  ghost predicate NewestOk(t: Table) {
    forall i: nat, j: nat :: Standing(t, i) && i < j < |t.entries| ==> t.entries[j].key != t.entries[i].key
  }

  ghost predicate PrefixOk(t: Table) {
    forall i: nat :: i < |t.entries| ==> t.entries[i].given <= t.entries[i].offered
  }

  ghost predicate TableInv(t: Table) {
    PointsOk(t) && NewestOk(t) && PrefixOk(t)
  }

  lemma CreateKeeps(t: Table, key: string)
    requires TableInv(t) && key !in t.at
    ensures TableInv(Create(t, key))
  {
    CreatePoints(t, key);
    CreateNewest(t, key);
    hide PointsOk, NewestOk;
  }

  lemma CreatePoints(t: Table, key: string)
    requires PointsOk(t) && key !in t.at
    ensures PointsOk(Create(t, key))
  {
    var u := Create(t, key);
    assert forall i: nat :: i < |t.entries| ==> u.entries[i] == t.entries[i];
  }

  lemma CreateNewest(t: Table, key: string)
    requires PointsOk(t) && NewestOk(t) && key !in t.at
    ensures NewestOk(Create(t, key))
  {
    var u := Create(t, key);
    assert forall i: nat :: i < |t.entries| ==> u.entries[i] == t.entries[i];
    assert forall i: nat :: Standing(t, i) ==> t.entries[i].key != key;
  }

  lemma CreateGoneKeeps(t: Table, key: string, pkt: Packet)
    requires TableInv(t) && key !in t.at
    ensures TableInv(CreateGone(t, key, pkt))
  {
    var u := CreateGone(t, key, pkt);
    assert forall i: nat :: i < |t.entries| ==> u.entries[i] == t.entries[i];
    assert forall i: nat :: Standing(t, i) ==> t.entries[i].key != key;
  }

  lemma StartCloseKeeps(t: Table, i: nat)
    requires TableInv(t) && Standing(t, i)
    ensures TableInv(StartClose(t, i))
  {
    var u := StartClose(t, i);
    assert forall j: nat :: j < |t.entries| ==>
      u.entries[j].key == t.entries[j].key && (Standing(u, j) <==> Standing(t, j));
  }

  /** A late delete finds its own entry under its key, so it takes away that one and
      nothing else, however many connections the source has had since. */
  lemma DeleteIsOwn(t: Table, i: nat)
    requires TableInv(t) && Standing(t, i)
    ensures t.entries[i].key in t.at && t.at[t.entries[i].key] == i
    ensures TableInv(Delete(t, i))
    ensures forall j: nat :: j != i ==> (Standing(Delete(t, i), j) <==> Standing(t, j))
    ensures forall k :: k in Delete(t, i).at <==> k in t.at && t.at[k] != i
  {
    var u := Delete(t, i);
    assert forall j: nat :: j < |t.entries| ==> u.entries[j].key == t.entries[j].key;
    assert forall j: nat :: j != i ==> (Standing(u, j) <==> Standing(t, j));
  }

  // only keys, stages and the map count for who stands where
  lemma SamePlaces(t: Table, u: Table)
    requires PointsOk(t) && NewestOk(t) && u.at == t.at && |u.entries| == |t.entries|
    requires forall j :: 0 <= j < |t.entries| ==>
      u.entries[j].key == t.entries[j].key && u.entries[j].stage == t.entries[j].stage
    ensures PointsOk(u) && NewestOk(u)
  {
    assert forall j: nat :: Standing(u, j) <==> Standing(t, j);
  }

  lemma PacketKeeps(t: Table, i: nat, pkt: Packet)
    requires TableInv(t) && i < |t.entries|
    ensures TableInv(Offer(t, i, pkt))
    ensures t.entries[i].given + [pkt] <= t.entries[i].offered ==> TableInv(Give(t, i, pkt))
  {
    hide PointsOk, NewestOk;
    SamePlaces(t, Offer(t, i, pkt));
    SamePlaces(t, Give(t, i, pkt));
  }

  /** Each source has at most one entry that stands. */
  lemma OneEach(t: Table, i: nat, j: nat)
    requires TableInv(t) && Standing(t, i) && Standing(t, j) && t.entries[i].key == t.entries[j].key
    ensures i == j
  {
  }

  // ---- where a source's packets go ---------------------------------------------------------

  datatype Arrival = Arrival(key: string, pkt: Packet)

  function FromKey(arrived: seq<Arrival>, key: string): seq<Packet> {
    if arrived == [] then []
    else
      var n := |arrived| - 1;
      FromKey(arrived[..n], key) + (if arrived[n].key == key then [arrived[n].pkt] else [])
  }

  // the packets offered to a source's connections, one connection after the other
  function OfferedTo(es: seq<Entry>, key: string): seq<Packet> {
    if es == [] then []
    else
      var n := |es| - 1;
      OfferedTo(es[..n], key) + (if es[n].key == key then es[n].offered else [])
  }

  lemma Arrived(arrived: seq<Arrival>, a: Arrival, key: string)
    ensures FromKey(arrived + [a], key) == FromKey(arrived, key) + (if a.key == key then [a.pkt] else [])
  {
    assert (arrived + [a])[..|arrived|] == arrived;
  }

  lemma OfferedAppend(es: seq<Entry>, e: Entry, key: string)
    ensures OfferedTo(es + [e], key) == OfferedTo(es, key) + (if e.key == key then e.offered else [])
  {
    assert (es + [e])[..|es|] == es;
  }

  // only key and packets offered count
  lemma {:induction false} OfferedSame(es: seq<Entry>, fs: seq<Entry>, key: string)
    requires |es| == |fs|
    requires forall i :: 0 <= i < |es| ==> es[i].key == fs[i].key && es[i].offered == fs[i].offered
    ensures OfferedTo(es, key) == OfferedTo(fs, key)
  {
    if es != [] {
      OfferedSame(es[..|es| - 1], fs[..|fs| - 1], key);
    }
  }

  // one packet more for the newest connection of its source
  lemma {:induction false} OfferedMore(es: seq<Entry>, i: nat, pkt: Packet, key: string)
    requires i < |es| && forall j :: i < j < |es| ==> es[j].key != es[i].key
    ensures OfferedTo(es[i := es[i].(offered := es[i].offered + [pkt])], key)
      == OfferedTo(es, key) + (if es[i].key == key then [pkt] else [])
  {
    var n := |es| - 1;
    var fs := es[i := es[i].(offered := es[i].offered + [pkt])];
    if i == n {
      assert fs[..n] == es[..n];
    } else {
      OfferedMore(es[..n], i, pkt, key);
      assert fs[..n] == es[..n][i := fs[i]];
    }
  }

  // every packet that arrived was offered to a connection of its source, in order
  ghost predicate Logged(t: Table, arrived: seq<Arrival>) {
    forall key: string :: FromKey(arrived, key) == OfferedTo(t.entries, key)
  }

  lemma OfferLogs(t: Table, i: nat, pkt: Packet, arrived: seq<Arrival>)
    requires TableInv(t) && Logged(t, arrived) && Standing(t, i)
    ensures Logged(Offer(t, i, pkt), arrived + [Arrival(t.entries[i].key, pkt)])
  {
    var a := Arrival(t.entries[i].key, pkt);
    forall key: string
      ensures FromKey(arrived + [a], key) == OfferedTo(Offer(t, i, pkt).entries, key)
    {
      Arrived(arrived, a, key);
      OfferedMore(t.entries, i, pkt, key);
    }
  }

  // a fresh entry has been offered nothing
  lemma CreateLogs(t: Table, key: string, arrived: seq<Arrival>)
    requires Logged(t, arrived)
    ensures Logged(Create(t, key), arrived)
  {
    forall k: string
      ensures OfferedTo(Create(t, key).entries, k) == OfferedTo(t.entries, k)
    {
      OfferedAppend(t.entries, Entry(key, Live, [], []), k);
    }
  }

  lemma CreateGoneLogs(t: Table, key: string, pkt: Packet, arrived: seq<Arrival>)
    requires Logged(t, arrived)
    ensures Logged(CreateGone(t, key, pkt), arrived + [Arrival(key, pkt)])
  {
    forall k: string
      ensures FromKey(arrived + [Arrival(key, pkt)], k) == OfferedTo(CreateGone(t, key, pkt).entries, k)
    {
      Arrived(arrived, Arrival(key, pkt), k);
      OfferedAppend(t.entries, Entry(key, Gone, [pkt], []), k);
    }
  }

  // keys and packets offered unchanged
  lemma LogSame(t: Table, u: Table, arrived: seq<Arrival>)
    requires Logged(t, arrived) && |t.entries| == |u.entries|
    requires forall i :: 0 <= i < |t.entries| ==>
      t.entries[i].key == u.entries[i].key && t.entries[i].offered == u.entries[i].offered
    ensures Logged(u, arrived)
  {
    forall key: string
      ensures FromKey(arrived, key) == OfferedTo(u.entries, key)
    {
      OfferedSame(t.entries, u.entries, key);
    }
  }
}
