/** What the two dispatch loops have in common: the list given to select, and the sweep over a snapshot of the ids. */
module Watching {
  import opened Protocol
  import opened Parties
  import opened ConnectionTable

  // ---------- the sweep ----------

  /** One read of the sweep, and how much of the frame it led to was accepted. */
  datatype Read = Read(id: ConnId, result: ReadOutcome, k: nat)

  /** What a read from a descriptor in the sweep returns; one that is not ready is not read. */
  function Result(ready: map<int, ReadOutcome>, fd: int): ReadOutcome {
    if fd in ready then ready[fd] else ReadOutcome.WouldBlock
  }

  /** The ids of the table, in ascending order. */
  ghost predicate Covers(ids: seq<ConnId>, table: map<ConnId, int>) {
    Increasing(ids) && forall id :: id in ids <==> id in table
  }

  /** The connections not yet visited are in the table, with the descriptors they had at the start. */
  ghost predicate Pending(ids: seq<ConnId>, i: nat, table: map<ConnId, int>, now: map<ConnId, int>) {
    forall j | i <= j < |ids| :: ids[j] in table && ids[j] in now && now[ids[j]] == table[ids[j]]
  }

  /** One read for each of the ids, in order. */
  ghost predicate Visited(visits: seq<Read>, ids: seq<ConnId>, table: map<ConnId, int>, ready: map<int, ReadOutcome>) {
    && |visits| == |ids|
    && forall i | 0 <= i < |visits| ::
         ids[i] in table && visits[i].id == ids[i] && visits[i].result == Result(ready, table[ids[i]])
  }

  lemma VisitedSnoc(visits: seq<Read>, ids: seq<ConnId>, n: nat, v: Read, table: map<ConnId, int>, ready: map<int,
      ReadOutcome>)
    requires n < |ids| && Visited(visits, ids[..n], table, ready) && ids[n] in table
    requires v.id == ids[n] && v.result == Result(ready, table[ids[n]])
    ensures Visited(visits + [v], ids[..n + 1], table, ready)
  {
    assert ids[..n + 1] == ids[..n] + [ids[n]];
  }

  lemma VisitedNone(ids: seq<ConnId>, table: map<ConnId, int>, ready: map<int, ReadOutcome>)
    requires Covers(ids, table)
    ensures Visited([], ids[..0], table, ready) && Pending(ids, 0, table, table)
  {
    assert ids[..0] == [];
  }

  /** What is left in the table is among the ids from i on. */
  ghost predicate Within(table: map<ConnId, int>, ids: seq<ConnId>, i: nat) {
    i <= |ids| && forall id :: id in table ==> id in ids[i..]
  }

  lemma AllWithin(ids: seq<ConnId>, table: map<ConnId, int>)
    requires Covers(ids, table)
    ensures Within(table, ids, 0)
  {
    assert ids[0..] == ids;
  }

  lemma WithinNext(table: map<ConnId, int>, ids: seq<ConnId>, i: nat)
    requires Within(table, ids, i) && i < |ids|
    ensures Within(table - {ids[i]}, ids, i + 1)
  {
    assert ids[i..] == [ids[i]] + ids[i + 1..];
  }

  lemma NoneWithin(table: map<ConnId, int>, ids: seq<ConnId>)
    requires Within(table, ids, |ids|)
    ensures table == map[]
  {
    assert ids[|ids|..] == [];
    assert table.Keys == {};
  }

  lemma PendingNow(ids: seq<ConnId>, i: nat, table: map<ConnId, int>, now: map<ConnId, int>)
    requires i < |ids| && Pending(ids, i, table, now)
    ensures ids[i] in table && ids[i] in now && now[ids[i]] == table[ids[i]]
  {
  }

  /** Visiting a connection can remove that one, and no other. */
  lemma PendingStays(ids: seq<ConnId>, i: nat, table: map<ConnId, int>, now: map<ConnId, int>, later: map<ConnId, int>)
    requires i < |ids| && Covers(ids, table) && Pending(ids, i, table, now)
    requires later == now || later == now - {ids[i]}
    ensures Pending(ids, i + 1, table, later)
  {
    assert forall j | i < j < |ids| :: ids[j] != ids[i];
  }

  // ---------- lists of descriptors ----------

  lemma NoneTwiceJoined(a: seq<int>, b: seq<int>)
    requires NoneTwice(a) && NoneTwice(b) && forall x <- a :: x !in b
    ensures NoneTwice(a + b)
  {
    var s := a + b;
    forall i, j | 0 <= i < j < |s| ensures s[i] != s[j] {
      if i < |a| <= j {
        assert a[i] in a && b[j - |a|] in b;
      }
    }
  }

  /** What getAllSockets returns, in terms of the model's table. */
  lemma SocketsAreValues(t: map<ConnId, int>, conns: map<ConnId, Connection>, socks: seq<int>)
    requires t.Keys == conns.Keys && forall id <- t :: conns[id] == Connection(id, t[id], true)
    requires forall fd :: fd in socks <==> exists id :: id in conns && conns[id].valid && conns[id].socket == fd
    ensures forall fd :: fd in socks <==> fd in t.Values
  {
    forall fd ensures fd in socks <==> fd in t.Values {
      if fd in t.Values {
        var id :| id in t && t[id] == fd;
        assert id in conns && conns[id].valid && conns[id].socket == fd;
      }
    }
  }
}
