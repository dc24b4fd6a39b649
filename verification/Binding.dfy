/**
 How a party's own data represents the state its model is in.
 The data are the connection table, the tunnel, and what the system has accepted on each descriptor. The
 table's maps hold the model's entries; the tunnel's descriptor carries the bytes of the model's link and is
 usable exactly when no write to it failed; a connection's descriptor carries what was delivered for its id;
 and no descriptor has two uses.
 Each thing a dispatch loop does to the data is what the model's step does to the model's state.
 */
module Binding {
  import opened Protocol
  import opened Links
  import opened Parties
  import opened ConnectionTable

  /** The part of a party's model that descriptors carry. */
  datatype Core = Core(table: map<ConnId, int>, link: Link, delivered: History, added: seq<ConnId>)

  /** The program's data: the two maps, the tunnel's descriptor, and the system's view of the open descriptors. */
  datatype Real = Real(table: Table, tunnel: Option, written: map<int, seq<byte>>, broken: set<int>)

  ghost predicate TableTies(t: map<ConnId, int>, r: Table) {
    && Bijective(r)
    && t.Keys == r.connections.Keys
    && forall id <- t :: r.connections[id] == Connection(id, t[id], true)
  }

  /**
   The tunnel's descriptor carries exactly what the model says was written, and is usable exactly when no
   write failed.
   */
  ghost predicate TunnelTies(l: Link, r: Real) {
    && Links.Valid(l)
    && (r.tunnel.Some? ==>
          && r.tunnel.fd in r.written && r.written[r.tunnel.fd] == Bytes(l)
          && (l.ok <==> r.tunnel.fd !in r.broken))
  }

  /**
   A connection's descriptor is open and, as long as no id is entered twice, carries exactly what was
   delivered for its id.
   */
  ghost predicate SocketsTie(c: Core, r: Real) {
    && (forall id <- c.table :: c.table[id] in r.written && id in c.added && Carries(c, r, id))
    && (forall id :: id !in c.added ==> At(c.delivered, id) == [])
  }

  ghost predicate Carries(c: Core, r: Real, id: ConnId)
    requires id in c.table && c.table[id] in r.written
  {
    NoneTwice(c.added) ==> r.written[c.table[id]] == At(c.delivered, id)
  }

  /** The program's fixed descriptors are open, and no descriptor has two uses. */
  ghost predicate Apart(r: Real, fixed: set<int>) {
    && fixed <= r.written.Keys
    && (r.tunnel.Some? ==> r.tunnel.fd !in fixed && r.tunnel.fd !in r.table.sockets)
    && fixed !! r.table.sockets.Keys
  }

  ghost predicate Ties(c: Core, r: Real, fixed: set<int>) {
    TableTies(c.table, r.table) && TunnelTies(c.link, r) && SocketsTie(c, r) && Apart(r, fixed)
  }

  lemma TunnelUsable(c: Core, r: Real, fixed: set<int>)
    requires Ties(c, r, fixed) && r.tunnel.Some?
    ensures r.tunnel.fd in r.written && (c.link.ok <==> r.tunnel.fd !in r.broken)
  {
  }

  lemma TunnelApart(c: Core, r: Real, fixed: set<int>)
    requires Ties(c, r, fixed) && r.tunnel.Some?
    ensures r.tunnel.fd !in fixed && r.tunnel.fd in r.written
  {
  }

  /** Open, fresh, and not in use for anything yet. */
  ghost predicate Unused(r: Real, fixed: set<int>, fd: int) {
    && fd in r.written && r.written[fd] == [] && fd !in r.broken
    && fd !in fixed && fd !in r.table.sockets && r.tunnel != Some(fd)
  }

  /** The tunnel's descriptor and the connections' have no other use. */
  lemma WatchedApart(c: Core, r: Real, fixed: set<int>)
    requires Ties(c, r, fixed)
    ensures c.table.Keys == r.table.connections.Keys
    ensures forall id <- c.table :: r.table.connections[id] == Connection(id, c.table[id], true)
    ensures forall id <- c.table :: c.table[id] !in fixed
    ensures r.tunnel.Some? ==> r.tunnel.fd !in fixed && r.tunnel.fd !in c.table.Values
  {
    forall id | id in c.table ensures c.table[id] !in fixed && (r.tunnel.Some? ==> c.table[id] != r.tunnel.fd) {
      SocketOf(c, r, fixed, id);
    }
  }

  // ---------- what the system calls and the table's methods do ----------

  function Wrote(r: Real, fd: int, b: seq<byte>, all: bool): Real
    requires fd in r.written
  {
    r.(written := r.written[fd := r.written[fd] + b], broken := if all then r.broken else r.broken + {fd})
  }

  function Opened(r: Real, fd: int): Real {
    r.(written := r.written[fd := []], broken := r.broken - {fd})
  }

  function Shut(r: Real, fds: set<int>): Real {
    r.(written := r.written - fds, broken := r.broken - fds)
  }

  function Gone(t: Table, id: ConnId): set<int> {
    if id in t.connections then {t.connections[id].socket} else {}
  }

  /** removeConnection, which closes the socket. */
  function Removed(r: Real, id: ConnId): Real {
    Shut(r, Gone(r.table, id)).(table := Remove(r.table, id))
  }

  // ---------- each keeps the representation ----------

  lemma SocketOf(c: Core, r: Real, fixed: set<int>, id: ConnId)
    requires Ties(c, r, fixed) && id in c.table
    ensures var fd := c.table[id];
            && fd in r.table.sockets && r.table.sockets[fd] == id && fd in r.written && fd !in fixed
            && (r.tunnel.Some? ==> fd != r.tunnel.fd)
            && (forall j <- c.table :: c.table[j] == fd ==> j == id)
  {
    forall j | j in c.table && c.table[j] == c.table[id] ensures j == id {
      assert r.table.sockets[r.table.connections[j].socket] == j;
    }
  }

  /** sendTunnelMessage. */
  lemma Sends(c: Core, r: Real, fixed: set<int>, m: Message, k: nat)
    requires Ties(c, r, fixed) && r.tunnel.Some?
    requires k <= |Encode(m)| && (r.tunnel.fd in r.broken ==> k == 0)
    ensures var l := Transmit(c.link, m, k);
            && Ties(c.(link := l), Wrote(r, r.tunnel.fd, Encode(m)[..k], k == |Encode(m)|), fixed)
            && (l.ok <==> k == |Encode(m)|)
  {
    TransmitBytes(c.link, m, k);
    hide Encode, Transmit, Bytes, Links.Valid, NoneTwice, At, TableTies, Bijective;
    var l := Transmit(c.link, m, k);
    var w := Wrote(r, r.tunnel.fd, Encode(m)[..k], k == |Encode(m)|);
    assert r.written[r.tunnel.fd] + [] == r.written[r.tunnel.fd];
    forall id | id in c.table
      ensures c.table[id] in w.written && w.written[c.table[id]] == r.written[c.table[id]]
    {
      SocketOf(c, r, fixed, id);
    }
    if !c.link.ok {
      assert k == 0;
      assert Encode(m)[..k] == [];
    }
  }

  /** More bytes on one connection's descriptor, which no other connection has. */
  lemma DeliversOne(c: Core, r: Real, id: ConnId, b: seq<byte>, all: bool)
    requires SocketsTie(c, r) && id in c.table && c.table[id] in r.written
    requires forall j <- c.table :: c.table[j] == c.table[id] ==> j == id
    ensures SocketsTie(c.(delivered := Append(c.delivered, id, b)), Wrote(r, c.table[id], b, all))
  {
    var fd := c.table[id];
    var c', w := c.(delivered := Append(c.delivered, id, b)), Wrote(r, fd, b, all);
    hide At, Append, NoneTwice;
    forall j ensures At(c'.delivered, j) == if j == id then At(c.delivered, id) + b else At(c.delivered, j) {
      AppendAt(c.delivered, id, b, j);
    }
    forall j | j in c.table ensures c.table[j] in w.written && Carries(c', w, j) {
      assert Carries(c, r, j);
    }
  }

  lemma AppendAt(h: History, id: ConnId, b: seq<byte>, j: ConnId)
    ensures At(Append(h, id, b), j) == if j == id then At(h, id) + b else At(h, j)
  {
  }

  /** Writing to another descriptor, an open one. */
  lemma OtherWritten(l: Link, r: Real, fixed: set<int>, fd: int, b: seq<byte>, all: bool)
    requires TunnelTies(l, r) && Apart(r, fixed) && fd in r.written && (r.tunnel.Some? ==> fd != r.tunnel.fd)
    ensures TunnelTies(l, Wrote(r, fd, b, all)) && Apart(Wrote(r, fd, b, all), fixed)
  {
    hide Bytes, Links.Valid;
  }

  /** TCPSocket::send on a connection's socket, when the system accepts b. */
  lemma Delivers(c: Core, r: Real, fixed: set<int>, id: ConnId, b: seq<byte>, all: bool)
    requires Ties(c, r, fixed) && id in c.table
    ensures c.table[id] in r.written
    ensures Ties(c.(delivered := Append(c.delivered, id, b)), Wrote(r, c.table[id], b, all), fixed)
  {
    SocketOf(c, r, fixed, id);
    hide SocketsTie, TunnelTies, TableTies, Apart, Append;
    DeliversOne(c, r, id, b, all);
    OtherWritten(c.link, r, fixed, c.table[id], b, all);
  }

  lemma TableRemoves(t: map<ConnId, int>, r: Table, id: ConnId)
    requires TableTies(t, r)
    ensures TableTies(t - {id}, Remove(r, id))
    ensures Gone(r, id) == if id in t then {t[id]} else {}
    ensures Remove(r, id).sockets.Keys == r.sockets.Keys - Gone(r, id) && Gone(r, id) <= r.sockets.Keys
  {
    RemoveKeepsBijection(r, id);
  }

  lemma SocketsStay(c: Core, r: Real, id: ConnId, w: Real)
    requires SocketsTie(c, r) && w.written == r.written - (if id in c.table then {c.table[id]} else {})
    requires forall j <- c.table :: id in c.table && c.table[j] == c.table[id] ==> j == id
    ensures SocketsTie(c.(table := c.table - {id}), w)
  {
    hide NoneTwice, At;
    var c' := c.(table := c.table - {id});
    forall j | j in c'.table ensures c'.table[j] in w.written && Carries(c', w, j) {
      assert j in c.table && c'.table[j] == c.table[j] && Carries(c, r, j);
    }
  }

  lemma Removes(c: Core, r: Real, fixed: set<int>, id: ConnId)
    requires Ties(c, r, fixed)
    ensures Ties(c.(table := c.table - {id}), Removed(r, id), fixed)
  {
    TableRemoves(c.table, r.table, id);
    if id in c.table {
      SocketOf(c, r, fixed, id);
    }
    hide Remove, Gone, TableTies, SocketsTie, TunnelTies, Apart;
    OthersShut(c.link, r, fixed, Gone(r.table, id), Remove(r.table, id));
    SocketsStay(c, r, id, Removed(r, id));
  }

  /** Closing connections' descriptors leaves the tunnel's and the fixed ones alone. */
  lemma OthersShut(l: Link, r: Real, fixed: set<int>, fds: set<int>, t: Table)
    requires TunnelTies(l, r) && Apart(r, fixed)
    requires t.sockets.Keys <= r.table.sockets.Keys && fds <= r.table.sockets.Keys
    ensures TunnelTies(l, Shut(r, fds).(table := t)) && Apart(Shut(r, fds).(table := t), fixed)
  {
    hide Bytes, Links.Valid;
  }

  lemma TableAdds(t: map<ConnId, int>, r: Table, id: ConnId, fd: int, next: ConnId)
    requires TableTies(t, r) && id !in t && fd !in r.sockets
    ensures TableTies(t[id := fd], Add(r, id, Some(fd)).(nextConnId := next))
  {
    AddKeepsBijection(r, id, fd);
    var u := Add(r, id, Some(fd));
    assert Bijective(u.(nextConnId := next));
    hide Bijective;
  }

  lemma SocketsAdd(c: Core, r: Real, id: ConnId, fd: int, c': Core, w: Real)
    requires SocketsTie(c, r) && id !in c.table && fd in r.written && r.written[fd] == [] && w.written == r.written
    requires c'.delivered == c.delivered && c'.table == c.table[id := fd] && c'.added == c.added + [id]
    ensures SocketsTie(c', w)
  {
    if NoneTwice(c'.added) {
      NoneTwiceSnoc(c.added, id);
    }
    hide NoneTwice, At;
    forall j | j in c'.table ensures c'.table[j] in w.written && Carries(c', w, j) {
      if j != id {
        assert c'.table[j] == c.table[j] && Carries(c, r, j);
      }
    }
  }

  /** addConnection with an id not in the table. */
  lemma Adds(c: Core, r: Real, fixed: set<int>, id: ConnId, fd: int, next: ConnId)
    requires Ties(c, r, fixed) && Unused(r, fixed, fd) && id !in c.table
    ensures fd !in c.table.Values
    ensures Ties(c.(table := c.table[id := fd], added := c.added + [id]), r.(table := Add(r.table, id,
        Some(fd)).(nextConnId := next)), fixed)
  {
    assert fd !in c.table.Values by {
      forall j | j in c.table ensures c.table[j] != fd {
        SocketOf(c, r, fixed, j);
      }
      hide *;
    }
    var w := r.(table := Add(r.table, id, Some(fd)).(nextConnId := next));
    assert w.table.sockets.Keys == r.table.sockets.Keys + {fd};
    assert TunnelTies(c.link, w) && Apart(w, fixed) by { hide Bytes, Links.Valid, SocketsTie, TableTies; }
    hide SocketsTie, TunnelTies, TableTies, Apart;
    TableAdds(c.table, r.table, id, fd, next);
    SocketsAdd(c, r, id, fd, c.(table := c.table[id := fd], added := c.added + [id]), w);
  }

  /** accept(2), or socket(2) and connect(2), before the new descriptor is given a use. */
  lemma Opens(c: Core, r: Real, fixed: set<int>, fd: int)
    requires Ties(c, r, fixed) && fd !in r.written
    ensures Ties(c, Opened(r, fd), fixed) && Unused(Opened(r, fd), fixed, fd) && fd !in c.table.Values
  {
    hide NoneTwice, At, TableTies, Bijective, Bytes, Links.Valid;
    forall j | j in c.table ensures c.table[j] != fd {
      SocketOf(c, r, fixed, j);
    }
    NotASocket(c, r, fixed, fd);
  }

  /** A descriptor without a use is closed again. */
  lemma Closes(c: Core, r: Real, fixed: set<int>, fd: int)
    requires Ties(c, r, fixed) && Unused(r, fixed, fd)
    ensures Ties(c, Shut(r, {fd}), fixed)
  {
    hide NoneTwice, At, TableTies, Bijective, Bytes, Links.Valid;
    forall j | j in c.table ensures c.table[j] != fd {
      SocketOf(c, r, fixed, j);
    }
  }

  lemma ConnectionOf(c: Core, r: Real, fixed: set<int>, id: ConnId)
    requires Ties(c, r, fixed)
    ensures id in c.table <==> id in r.table.connections
    ensures id in c.table ==> r.table.connections[id] == Connection(id, c.table[id], true)
  {
  }

  lemma KeysOf(c: Core, r: Real, fixed: set<int>)
    requires Ties(c, r, fixed)
    ensures c.table.Keys == r.table.connections.Keys
  {
  }

  lemma NotInTable(c: Core, r: Real, fixed: set<int>, id: ConnId)
    requires Ties(c, r, fixed)
    ensures id in c.table <==> id in r.table.connections
  {
  }

  /** The counter may be moved before or after the entry is made. */
  lemma AddCommutes(t: Table, id: ConnId, fd: int)
    ensures Add(t.(nextConnId := Next(id)), id, Some(fd)) == Add(t, id, Some(fd)).(nextConnId := Next(id))
  {
  }

  lemma CounterKept(t: Table, id: ConnId, fd: int)
    ensures Add(t, id, Some(fd)).(nextConnId := t.nextConnId) == Add(t, id, Some(fd))
  {
  }

  lemma NothingLeft(c: Core, r: Real, fixed: set<int>)
    requires Ties(c, r, fixed) && c.table == map[]
    ensures r.table.connections == map[] && r.table.sockets == map[]
  {
    assert r.table.connections.Keys == {};
    SameSize(r.table);
  }

  lemma NotASocket(c: Core, r: Real, fixed: set<int>, fd: int)
    requires Ties(c, r, fixed) && fd !in r.written
    ensures fd !in r.table.sockets
  {
    forall s | s in r.table.sockets ensures s in r.written {
      SocketOf(c, r, fixed, r.table.sockets[s]);
    }
  }

  /** The descriptor becomes the tunnel. */
  lemma Installs(c: Core, r: Real, fixed: set<int>, fd: int)
    requires Ties(c, r, fixed) && Unused(r, fixed, fd) && r.tunnel.None?
    ensures Ties(c.(link := FRESH_LINK), r.(tunnel := Some(fd)), fixed)
  {
    assert Bytes(FRESH_LINK) == [] && Links.Valid(FRESH_LINK);
    hide NoneTwice, At, TableTies, Bijective, Bytes, Links.Valid;
  }

  lemma StaysUnused(r: Real, fixed: set<int>, fd: int)
    requires Unused(r, fixed, fd) && r.tunnel.Some?
    ensures Unused(Shut(r, {r.tunnel.fd}).(tunnel := None), fixed, fd)
  {
  }

  /** The tunnel is closed. */
  lemma Drops(c: Core, r: Real, fixed: set<int>)
    requires Ties(c, r, fixed) && r.tunnel.Some?
    ensures Ties(c, Shut(r, {r.tunnel.fd}).(tunnel := None), fixed)
  {
    hide NoneTwice, At, TableTies, Bijective, Links.Valid, Bytes;
    forall j | j in c.table ensures c.table[j] != r.tunnel.fd {
      SocketOf(c, r, fixed, j);
    }
  }
}
