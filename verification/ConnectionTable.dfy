/**
 TCPConnectionManager: connection id -> connection, and socket descriptor -> connection id, two
 maps that must stay each other's inverse while descriptors are reused and ids come from a
 wrapping 32-bit counter.
 */
module ConnectionTable {
  import opened Protocol
  import opened Sockets

  datatype Connection = Connection(connId: ConnId, socket: int, valid: bool)

  datatype Table = Table(
    connections: map<ConnId, Connection>,
    sockets: map<int, ConnId>,
    nextConnId: ConnId)

  const EMPTY_TABLE := Table(map[], map[], 1)

  ghost predicate Bijective(t: Table) {
    && (forall id <- t.connections ::
          && t.connections[id].connId == id
          && t.connections[id].socket in t.sockets && t.sockets[t.connections[id].socket] == id)
    && (forall fd <- t.sockets ::
          t.sockets[fd] in t.connections && t.connections[t.sockets[fd]].socket == fd)
  }

  /** addConnection; None is a null or invalid socket. An id already present keeps its old connection. */
  function Add(t: Table, connId: ConnId, socket: Option): Table {
    match socket
    case None => t
    case Some(fd) =>
      t.(sockets := t.sockets[fd := connId],
         connections := if connId in t.connections then t.connections
                        else t.connections[connId := Connection(connId, fd, true)])
  }

  function Remove(t: Table, connId: ConnId): Table {
    if connId in t.connections then
      t.(sockets := t.sockets - {t.connections[connId].socket}, connections := t.connections - {connId})
    else t
  }

  datatype Option = None | Some(fd: int)

  /** Adding a new descriptor keeps the maps inverse exactly when the id is new. */
  lemma AddKeepsBijection(t: Table, connId: ConnId, fd: int)
    requires Bijective(t) && fd !in t.sockets
    ensures Bijective(Add(t, connId, Some(fd))) <==> connId !in t.connections
  {
    var u := Add(t, connId, Some(fd));
    assert fd in u.sockets && u.sockets[fd] == connId;
    if connId in t.connections {
      assert t.connections[connId].socket in t.sockets;
      assert u.connections[connId].socket != fd;
    }
  }

  lemma RemoveKeepsBijection(t: Table, connId: ConnId)
    requires Bijective(t)
    ensures Bijective(Remove(t, connId))
  {
    var u := Remove(t, connId);
    forall id | id in u.connections
      ensures u.connections[id].socket in u.sockets
    {
      assert id in t.connections && t.sockets[t.connections[id].socket] == id;
    }
  }

  /** Inverse maps have equally many entries. */
  lemma {:induction false} SameSize(t: Table)
    requires Bijective(t)
    ensures |t.connections| == |t.sockets|
    decreases |t.connections|
  {
    if id :| id in t.connections {
      var u := Remove(t, id);
      RemoveKeepsBijection(t, id);
      assert t.connections[id].socket in t.sockets;
      assert u.connections.Keys == t.connections.Keys - {id};
      assert u.sockets.Keys == t.sockets.Keys - {t.connections[id].socket};
      SameSize(u);
    } else {
      assert t.connections.Keys == {};
      assert forall fd :: fd in t.sockets ==> t.sockets[fd] in t.connections;
      assert t.sockets.Keys == {};
    }
  }

  // ---------- runs: descriptors are reused by the system once closed ----------

  datatype Op = OpenAndAdd(connId: ConnId, fd: int) | RemoveOp(connId: ConnId) | CloseOther(fd: int)

  datatype Ledger = Ledger(table: Table, open: set<int>)

  function Perform(l: Ledger, op: Op): Ledger {
    match op
    case OpenAndAdd(id, fd) =>
      if fd in l.open || id in l.table.connections then l
      else Ledger(Add(l.table, id, Some(fd)), l.open + {fd})
    case RemoveOp(id) =>
      if id in l.table.connections then Ledger(Remove(l.table, id), l.open - {l.table.connections[id].socket}) else l
    case CloseOther(fd) =>
      if fd in l.table.sockets then l else l.(open := l.open - {fd})
  }

  function PerformAll(ops: seq<Op>): Ledger {
    if ops == [] then Ledger(EMPTY_TABLE, {}) else Perform(PerformAll(ops[..|ops| - 1]), ops[|ops| - 1])
  }

  /** Over every run the maps stay inverse, and every descriptor in the table is open and owned once. */
  lemma {:induction false} TableInvariant(ops: seq<Op>)
    ensures var l := PerformAll(ops);
            Bijective(l.table) && l.table.sockets.Keys <= l.open && |l.table.connections| == |l.table.sockets|
    decreases |ops|
  {
    if ops != [] {
      var l, op := PerformAll(ops[..|ops| - 1]), ops[|ops| - 1];
      TableInvariant(ops[..|ops| - 1]);
      match op
      case OpenAndAdd(id, fd) =>
        if fd !in l.open {
          AddKeepsBijection(l.table, id, fd);
        }
      case RemoveOp(id) => RemoveKeepsBijection(l.table, id);
      case CloseOther(_) =>
    }
    SameSize(PerformAll(ops).table);
  }

  // ---------- identifiers ----------

  const ID_SPACE := 0x1_0000_0000

  function Next(id: ConnId): ConnId {
    (id + 1) % ID_SPACE
  }

  /** The id handed out by the n-th call of allocateConnId, counting from 1. */
  function Allocated(n: nat): ConnId
    requires n > 0
  {
    if n == 1 then EMPTY_TABLE.nextConnId else Next(Allocated(n - 1))
  }

  lemma {:induction false} AllocatedIs(n: nat)
    requires n > 0
    ensures Allocated(n) == n % ID_SPACE
  {
    if n > 1 {
      AllocatedIs(n - 1);
    }
  }

  /**
   The first 2^32 - 1 ids are distinct and none is 0, the id of UDP messages and getConnId's "not
   found"; the next one is 0, so no larger bound holds.
   */
  lemma IdentifierBound(bound: nat)
    ensures (forall n, m | 0 < n < m <= bound :: Allocated(n) != Allocated(m)) &&
            (forall n | 0 < n <= bound :: Allocated(n) != 0)
            <==> bound < ID_SPACE
  {
    if bound >= ID_SPACE {
      AllocatedIs(ID_SPACE);
    } else {
      forall n | 0 < n <= bound ensures Allocated(n) == n {
        AllocatedIs(n);
      }
    }
  }

  // ---------- the class ----------

  ghost predicate Increasing(s: seq<int>) {
    forall i, j | 0 <= i < j < |s| :: s[i] < s[j]
  }

  /** The key a std::map iterates over first. */
  method Least(s: set<ConnId>) returns (m: ConnId)
    requires s != {}
    ensures m in s && forall y <- s :: m <= y
    decreases |s|
  {
    var x :| x in s;
    m := x;
    var rest := s - {x};
    if rest != {} {
      var other := Least(rest);
      if other < x {
        m := other;
      }
    }
    assert forall y <- s :: y in rest || y == x;
  }

  class TCPConnectionManager {
    const kernel: Kernel
    var connections: map<ConnId, Connection>
    var socketToConnId: map<int, ConnId>
    var nextConnId: ConnId

    function State(): Table
      reads this
    {
      Table(connections, socketToConnId, nextConnId)
    }

    constructor (kernel: Kernel)
      ensures this.kernel == kernel && State() == EMPTY_TABLE
    {
      this.kernel := kernel;
      connections, socketToConnId, nextConnId := map[], map[], 1;
    }

    method AllocateConnId() returns (id: ConnId)
      modifies this
      ensures id == old(nextConnId) && State() == old(State()).(nextConnId := Next(id))
    {
      id := nextConnId;
      nextConnId := Next(nextConnId);
    }

    /** The connection's socket is closed when an entry with this id already exists. */
    method AddConnection(connId: ConnId, socket: Option)
      modifies this, kernel
      ensures State() == Add(old(State()), connId, socket)
      ensures kernel.calls == old(kernel.calls) && kernel.interrupts == old(kernel.interrupts)
      ensures var lost := if socket.Some? && connId in old(connections) then {socket.fd} else {};
              kernel.written == old(kernel.written) - lost && kernel.broken == old(kernel.broken) - lost
    {
      if socket.Some? {
        socketToConnId := socketToConnId[socket.fd := connId];
        if connId in connections {
          kernel.Close(socket.fd);
        } else {
          connections := connections[connId := Connection(connId, socket.fd, true)];
        }
      }
    }

    method RemoveConnection(connId: ConnId)
      modifies this, kernel
      ensures State() == Remove(old(State()), connId)
      ensures kernel.calls == old(kernel.calls) && kernel.interrupts == old(kernel.interrupts)
      ensures var gone := if connId in old(connections) then {old(connections)[connId].socket} else {};
              kernel.written == old(kernel.written) - gone && kernel.broken == old(kernel.broken) - gone
    {
      if connId in connections {
        var fd := connections[connId].socket;
        socketToConnId := socketToConnId - {fd};
        connections := connections - {connId};
        kernel.Close(fd);
      }
    }

    function HasConnection(connId: ConnId): bool
      reads this
    {
      connId in connections
    }

    /** The ids in ascending order, each once. */
    method GetAllConnIds() returns (ids: seq<ConnId>)
      ensures Increasing(ids)
      ensures forall id :: id in ids <==> id in connections
    {
      ids := [];
      var rest := connections.Keys;
      while rest != {}
        invariant rest <= connections.Keys
        invariant Increasing(ids)
        invariant forall id: ConnId :: id in ids <==> id in connections && id !in rest
        invariant forall i, id: ConnId | 0 <= i < |ids| && id in rest :: ids[i] < id
        decreases rest
      {
        var id := Least(rest);
        ids := ids + [id];
        rest := rest - {id};
      }
    }

    /** The descriptors to watch: those of the valid connections, each once when the maps are inverse. */
    method GetAllSockets() returns (sockets: seq<int>)
      requires Bijective(State())
      ensures forall fd :: fd in sockets <==>
                exists id :: id in connections && connections[id].valid && connections[id].socket == fd
      ensures forall i, j | 0 <= i < j < |sockets| :: sockets[i] != sockets[j]
    {
      sockets := [];
      var ids := GetAllConnIds();
      for i := 0 to |ids|
        invariant forall fd :: fd in sockets <==>
                    exists k :: 0 <= k < i && connections[ids[k]].valid && connections[ids[k]].socket == fd
        invariant forall i, j | 0 <= i < j < |sockets| :: sockets[i] != sockets[j]
      {
        var conn := connections[ids[i]];
        ghost var before := sockets;
        if conn.valid {
          assert forall k | 0 <= k < i :: ids[k] != ids[i] && connections[ids[k]].socket != conn.socket by {
            assert forall k | 0 <= k <= i :: socketToConnId[connections[ids[k]].socket] == ids[k];
          }
          assert conn.socket !in before;
          sockets := sockets + [conn.socket];
        }
        forall fd
          ensures fd in sockets <==>
                    exists k :: 0 <= k < i + 1 && connections[ids[k]].valid && connections[ids[k]].socket == fd
        {
          if fd in before {
            var k :| 0 <= k < i && connections[ids[k]].valid && connections[ids[k]].socket == fd;
          }
        }
      }
    }
  }
}
