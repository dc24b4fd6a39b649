/**
 The client's dispatch loop over its own data, and the reconnection loop around it.
 The data are the connection table, the tunnel, the two flags and the reassembly machine. Each branch is
 proved to do to that data what the model's step does to the model's state, with the outcomes that the
 schedule of the system's calls fixes. A turn of the loop is its branches in order; the loop ends with the
 turn in which a flag is cleared; and a session is one tunnel, from its connect to its close.
 Table and reassembly machine are carried over from one session to the next.
 */
module ClientDispatch {
  import opened Protocol
  import opened Links
  import opened Parties
  import opened Sockets
  import opened ConnectionTable
  import opened Reassembly
  import opened Binding
  import opened Watching
  import World
  import C = ClientModel

  function CoreOf(c: C.Client): Core {
    Core(c.table, c.link, c.delivered, c.added)
  }

  /** The datagrams handed to the UDP socket, all for one destination. */
  ghost predicate UdpTies(udpSent: seq<seq<byte>>, sent: seq<(nat, seq<byte>)>, dest: nat) {
    |sent| == |udpSent| && forall i | 0 <= i < |sent| :: sent[i] == (dest, udpSent[i])
  }

  function Outcome(connect: int): C.Connect {
    if connect < 0 then C.Refused else C.Connected(connect)
  }

  // ---------- the sweep ----------

  /** The reads of a sweep, one after another. */
  function Replay(c: C.Client, visits: seq<Read>): C.Client {
    if visits == [] then c
    else
      var v := visits[|visits| - 1];
      C.Step(Replay(c, visits[..|visits| - 1]), C.DestinationRead(v.id, v.result, v.k))
  }

  lemma ReplaySnoc(c: C.Client, visits: seq<Read>, v: Read)
    ensures Replay(c, visits + [v]) == C.Step(Replay(c, visits), C.DestinationRead(v.id, v.result, v.k))
  {
    assert (visits + [v])[..|visits|] == visits;
  }

  lemma ReplayNothing(c: C.Client)
    ensures Replay(c, []) == c && NoFailure(c, [])
  {
  }

  lemma ReadTable(c: C.Client, v: Read)
    ensures var d := C.Step(c, C.DestinationRead(v.id, v.result, v.k));
            d.table == c.table || d.table == c.table - {v.id}
  {
    hide Transmit, Append;
  }

  lemma NotRead(c: C.Client, id: ConnId, k: nat)
    ensures C.Step(c, C.DestinationRead(id, ReadOutcome.WouldBlock, k)) == c
  {
  }

  /** After these reads, all data read so far could be passed on. */
  ghost predicate NoFailure(c: C.Client, visits: seq<Read>)
    decreases |visits|
  {
    visits != [] ==>
      && NoFailure(c, visits[..|visits| - 1])
      && (visits[|visits| - 1].result.Data? ==> Replay(c, visits).link.ok)
  }

  /**
   The connections in the table are read in the order of their ids, each once, until data that was
   read cannot be passed on; the later ones are then not read.
   */
  ghost predicate SweepOf(c: C.Client, ids: seq<ConnId>, visits: seq<Read>, ready: map<int, ReadOutcome>) {
    && Covers(ids, c.table) && |visits| <= |ids| && Visited(visits, ids[..|visits|], c.table, ready)
    && (visits != [] ==> NoFailure(c, visits[..|visits| - 1]))
    && (|visits| < |ids| ==> !NoFailure(c, visits))
  }

  /** One more connection visited: the ones still to come are where they were. */
  lemma Swept(start: C.Client, visits: seq<Read>, v: Read, ids: seq<ConnId>, i: nat, ready: map<int, ReadOutcome>)
    requires Covers(ids, start.table) && i < |ids| && Visited(visits, ids[..i], start.table, ready)
    requires Pending(ids, i, start.table, Replay(start, visits).table) && NoFailure(start, visits)
    requires ids[i] in start.table && v.id == ids[i] && v.result == Result(ready, start.table[ids[i]])
    ensures var after := C.Step(Replay(start, visits), C.DestinationRead(v.id, v.result, v.k));
            && after == Replay(start, visits + [v]) && Visited(visits + [v], ids[..i + 1], start.table, ready)
            && Pending(ids, i + 1, start.table, after.table)
            && (NoFailure(start, visits + [v]) <==> v.result.Data? ==> after.link.ok)
  {
    ReplaySnoc(start, visits, v);
    ReadTable(Replay(start, visits), v);
    VisitedSnoc(visits, ids, i, v, start.table, ready);
    PendingStays(ids, i, start.table, Replay(start, visits).table, Replay(start, visits + [v]).table);
    NoFailureSnoc(start, visits, v);
    hide *;
  }

  lemma NoFailureSnoc(c: C.Client, visits: seq<Read>, v: Read)
    requires NoFailure(c, visits)
    ensures NoFailure(c, visits + [v]) <==> v.result.Data? ==> Replay(c, visits + [v]).link.ok
  {
    assert (visits + [v])[..|visits|] == visits;
    hide Replay;
  }

  lemma SweepEnds(c: C.Client, ids: seq<ConnId>, visits: seq<Read>, i: nat, ready: map<int, ReadOutcome>)
    requires Covers(ids, c.table) && i <= |ids| && Visited(visits, ids[..i], c.table, ready)
    requires i > 0 ==> NoFailure(c, visits[..|visits| - 1])
    requires i < |ids| ==> !NoFailure(c, visits)
    ensures SweepOf(c, ids, visits, ready)
  {
    hide Replay, Covers;
  }

  lemma RemoveChanges(c: C.Client, id: ConnId)
    ensures C.Remove(c, id) == c.(table := c.table - {id})
  {
  }

  // ---------- one turn of the loop ----------

  /** How a read from the tunnel ends; connects has the outcome of the connect made for the i-th message, if any. */
  datatype TunnelOutcome = Quiet | Closed | Failed | Received(bytes: seq<byte>, connects: seq<int>)

  /** The outcome of the i-th connect: no descriptor that is open, and a negative one for a failure. */
  function ConnectFor(connects: seq<int>, i: nat, open: set<int>): int {
    if i < |connects| && connects[i] !in open then connects[i] else -1
  }

  lemma {:induction false} HandlesSnoc(c: C.Client, ms: seq<Message>, envs: seq<C.Env>, m: Message, env: C.Env)
    requires |ms| == |envs|
    ensures World.ClientHandles(c, ms + [m], envs + [env]) == C.Handle(World.ClientHandles(c, ms, envs), m, env)
    decreases |ms|
  {
    hide C.Handle;
    if ms == [] {
      assert ms + [m] == [m] && envs + [env] == [env];
      assert World.ClientHandles(c, [m], [env]) == World.ClientHandles(C.Handle(c, m, env), [m][1..], [env][1..]);
    } else {
      HandlesSnoc(C.Handle(c, ms[0], envs[0]), ms[1..], envs[1..], m, env);
      assert (ms + [m])[1..] == ms[1..] + [m] && (envs + [env])[1..] == envs[1..] + [env];
    }
  }

  datatype Turn =
    | Interrupted
    | SelectFailed
    | Reported(quit: bool, fromTunnel: TunnelOutcome, datagram: Datagram, ready: map<int, ReadOutcome>)

  /** What came of a turn: how much each write took, and the reads of the sweep. */
  datatype Choices = Choices(
    open: set<int>,                 // the descriptors open when the turn began
    envs: seq<C.Env>,
    datagramSends: nat,
    ids: seq<ConnId>,
    visits: seq<Read>)

  /** The tunnel's branch takes (c, p) to (c', p'): every message is handled, in order. */
  ghost predicate TunnelTurn(c: C.Client, p: Parser, outcome: TunnelOutcome, open: set<int>,
                             envs: seq<C.Env>, c': C.Client, p': Parser)
    requires p.Valid()
  {
    match outcome
    case Quiet => c' == c && p' == p
    case Received(bytes, connects) =>
      var d := Collect(p, bytes);
      && |envs| == |d.msgs| && c' == World.ClientHandles(c, d.msgs, envs) && p' == d.parser
      && EnvsFor(d.msgs, envs, connects, open)
    case _ => c' == C.Step(c, C.TunnelLost) && p' == p
  }

  /** The connects made before the i-th message. */
  function Earlier(connects: seq<int>, i: nat): seq<int> {
    if i < |connects| then connects[..i] else connects
  }

  /**
   Every OPEN was answered by its own connect, or by a failed one; and certainly by its own when that
   connect returned a descriptor that was not open before this chunk and that no earlier connect returned.
   */
  ghost predicate EnvsFor(ms: seq<Message>, envs: seq<C.Env>, connects: seq<int>, open: set<int>) {
    |envs| == |ms| &&
    forall i | 0 <= i < |ms| && ms[i].mtype.TcpOpen? ::
      && (envs[i].connect == C.Refused || (i < |connects| && envs[i].connect == Outcome(connects[i])))
      && (i < |connects| && connects[i] !in open && connects[i] !in Earlier(connects, i) ==>
            envs[i].connect == Outcome(connects[i]))
  }

  /** The descriptors open by now are those open before the chunk, and what the earlier connects returned. */
  ghost predicate OpenNow(now: set<int>, open: set<int>, connects: seq<int>, i: nat) {
    forall fd <- now :: fd in open || fd in Earlier(connects, i)
  }

  lemma OpenNext(now: set<int>, open: set<int>, connects: seq<int>, i: nat, later: set<int>, fd: int)
    requires OpenNow(now, open, connects, i) && fd == ConnectFor(connects, i, now)
    requires later <= now + (if fd < 0 then {} else {fd})
    ensures OpenNow(later, open, connects, i + 1)
  {
    if i < |connects| {
      assert i + 1 < |connects| ==> connects[..i + 1] == connects[..i] + [connects[i]];
      assert connects == connects[..i] + connects[i..];
    }
  }

  lemma EnvsSnoc(ms: seq<Message>, envs: seq<C.Env>, connects: seq<int>, m: Message, env: C.Env, now: set<int>,
                 open: set<int>)
    requires EnvsFor(ms, envs, connects, open) && OpenNow(now, open, connects, |ms|)
    requires m.mtype.TcpOpen? ==> env.connect == Outcome(ConnectFor(connects, |ms|, now))
    ensures EnvsFor(ms + [m], envs + [env], connects, open)
  {
    hide Earlier;
  }

  lemma NoEnvs(connects: seq<int>, open: set<int>)
    ensures EnvsFor([], [], connects, open) && OpenNow(open, open, connects, 0)
  {
  }

  lemma ConnectIsNew(connects: seq<int>, i: nat, open: set<int>)
    ensures var fd := ConnectFor(connects, i, open); fd >= 0 ==> fd !in open
  {
  }

  /** A turn takes (c, p) to (c', p'): q, the tunnel, a datagram, and the sweep. */
  ghost predicate TurnOf(c: C.Client, p: Parser, t: Turn, ch: Choices, c': C.Client, p': Parser)
    requires t.Reported? && p.Valid()
  {
    exists c2 ::
      && TunnelTurn(if t.quit then C.Step(c, C.UserQuits) else c, p, t.fromTunnel, ch.open, ch.envs, c2,
           p')
      && var c3 := C.Step(c2, C.DestinationUdp(t.datagram, ch.datagramSends));
         SweepOf(c3, ch.ids, ch.visits, t.ready) && c' == Replay(c3, ch.visits)
  }

  lemma ListsJoined(tunnel: int, udp: int, t: map<ConnId, int>, socks: seq<int>)
    requires NoneTwice(socks) && udp != 0 && tunnel !in {0, udp}
    requires forall fd :: fd in socks <==> fd in t.Values
    requires tunnel !in t.Values && forall id <- t :: t[id] !in {0, udp}
    ensures var s := [0, tunnel, udp];
            NoneTwice(s + socks) && forall fd :: fd in s + socks <==> fd in {0, udp, tunnel} || fd in t.Values
  {
    var s := [0, tunnel, udp];
    assert NoneTwice(s);
    NoneTwiceJoined(s, socks);
    hide NoneTwice;
  }

  // ---------- runs of the loop, and of the loop around it ----------

  /** One turn of a run, and where it led. */
  datatype Round = Round(given: Turn, choices: Choices, client: C.Client, parser: Parser)

  function After(start: (C.Client, Parser), rounds: seq<Round>): (C.Client, Parser) {
    if rounds == [] then start else (rounds[|rounds| - 1].client, rounds[|rounds| - 1].parser)
  }

  ghost predicate RoundOf(start: (C.Client, Parser), r: Round) {
    match r.given
    case Interrupted => (r.client, r.parser) == start
    case SelectFailed => (r.client, r.parser) == (C.Step(start.0, C.TunnelLost), start.1)
    case Reported(_, _, _, _) => start.1.Valid() && TurnOf(start.0, start.1, r.given, r.choices, r.client, r.parser)
  }

  /** The rounds lead on from start, work off these turns, and each begins with the loop still running. */
  ghost predicate RunOf(start: (C.Client, Parser), rounds: seq<Round>, turns: seq<Turn>) {
    |rounds| == |turns| &&
    (rounds != [] ==>
       var init, r := rounds[..|rounds| - 1], rounds[|rounds| - 1];
       && RunOf(start, init, turns[..|turns| - 1])
       && After(start, init).0.contLoop && r.given == turns[|turns| - 1] && RoundOf(After(start, init), r))
  }

  lemma RunSnoc(start: (C.Client, Parser), rounds: seq<Round>, turns: seq<Turn>, n: nat, r: Round)
    requires n < |turns| && RunOf(start, rounds, turns[..n]) && r.given == turns[n]
    requires After(start, rounds).0.contLoop && RoundOf(After(start, rounds), r)
    ensures RunOf(start, rounds + [r], turns[..n + 1]) && After(start, rounds + [r]) == (r.client, r.parser)
  {
    hide RoundOf;
    var rs, ts := rounds + [r], turns[..n + 1];
    assert rs[..|rs| - 1] == rounds && ts[..|ts| - 1] == turns[..n] && rs[|rs| - 1] == r && ts[|ts| - 1] == turns[n];
    assert RunOf(start, rs[..|rs| - 1], ts[..|ts| - 1]);
  }

  lemma RunNone(start: (C.Client, Parser), turns: seq<Turn>)
    ensures RunOf(start, [], turns[..0]) && After(start, []) == start
  {
  }

  /** One tunnel: the turns given, those worked off, and where it led; it may still be open. */
  datatype Session = Session(turns: seq<Turn>, rounds: seq<Round>, client: C.Client, parser: Parser)

  ghost predicate SessionOf(start: (C.Client, Parser), s: Session) {
    && !start.0.contLoop && !start.0.userQuit && |s.rounds| <= |s.turns|
    && var first := (C.Step(start.0, C.ConnectTunnel), start.1);
       var last := After(first, s.rounds);
       && RunOf(first, s.rounds, s.turns[..|s.rounds|]) && (|s.rounds| < |s.turns| ==> !last.0.contLoop)
       && s.parser == last.1
       && s.client == if last.0.contLoop then last.0 else C.Step(last.0, C.LeaveLoop)
  }

  function AfterAll(start: (C.Client, Parser), ss: seq<Session>): (C.Client, Parser) {
    if ss == [] then start else (ss[|ss| - 1].client, ss[|ss| - 1].parser)
  }

  /** Each session starts where the one before it ended, the client and its reassembly machine included. */
  ghost predicate SessionsOf(start: (C.Client, Parser), ss: seq<Session>)
    decreases |ss|
  {
    ss != [] ==>
      var init := ss[..|ss| - 1];
      SessionsOf(start, init) && SessionOf(AfterAll(start, init), ss[|ss| - 1])
  }

  lemma SessionsSnoc(start: (C.Client, Parser), ss: seq<Session>, s: Session)
    requires SessionsOf(start, ss) && SessionOf(AfterAll(start, ss), s)
    ensures SessionsOf(start, ss + [s]) && AfterAll(start, ss + [s]) == (s.client, s.parser)
  {
    assert (ss + [s])[..|ss|] == ss;
    hide SessionOf;
  }

  lemma SessionsNone(start: (C.Client, Parser))
    ensures SessionsOf(start, []) && AfterAll(start, []) == start
  {
  }

  class TunnelClient {
    const kernel: Kernel
    const tcpConnections: TCPConnectionManager
    const reconstructor: TunnelMessageReconstructor
    const udpForwarder: DatagramSocket
    const destUdp: nat
    const udpSocket: int
    var tunnel: Option
    var readSockets: seq<int>
    var contLoop: bool
    var userQuit: bool
    ghost var model: C.Client

    ghost function Snapshot(): Real
      reads this, kernel, tcpConnections
    {
      Real(tcpConnections.State(), tunnel, kernel.written, kernel.broken)
    }

    ghost function Fixed(): set<int> {
      {0, udpSocket}
    }

    /** The list given to select: stdin, the tunnel, and the UDP socket. */
    ghost predicate WatchList()
      reads this
    {
      tunnel.Some? ==> readSockets == [0, tunnel.fd, udpSocket]
    }

    ghost predicate Valid()
      reads this, kernel, tcpConnections, reconstructor, udpForwarder
    {
      && tcpConnections.kernel == kernel
      && Ties(CoreOf(model), Snapshot(), Fixed())
      && contLoop == model.contLoop && userQuit == model.userQuit
      && UdpTies(model.udpSent, udpForwarder.sent, destUdp)
      && WatchList()
      && reconstructor.Valid()
    }

    /** As at every call of select: no message is waiting to be handled. */
    ghost predicate Ready()
      reads this, kernel, tcpConnections, reconstructor, udpForwarder
    {
      Valid() && reconstructor.reconstructedMessages == []
    }

    /** How much of a frame with len bytes of payload the tunnel takes if it is sent now. */
    ghost function Takes(len: nat): nat
      reads this, kernel
    {
      FrameAccepted(kernel.script, kernel.calls, len, !model.link.ok)
    }

    constructor (kernel: Kernel, udpSocket: int, destUdp: nat)
      requires {0, udpSocket} <= kernel.written.Keys
      ensures Ready() && tunnel.None? && model == C.INITIAL_CLIENT
      ensures this.kernel == kernel && this.udpSocket == udpSocket && this.destUdp == destUdp
      ensures fresh(tcpConnections) && fresh(reconstructor) && fresh(udpForwarder)
    {
      this.kernel, this.udpSocket, this.destUdp := kernel, udpSocket, destUdp;
      tcpConnections := new TCPConnectionManager(kernel);
      reconstructor := new TunnelMessageReconstructor();
      udpForwarder := new DatagramSocket();
      readSockets, tunnel, contLoop, userQuit := [], None, false, false;
      model := C.INITIAL_CLIENT;
      new;
      assert Links.Valid(NO_LINK);
    }

    // ---------- what the branches have in common ----------

    /** A frame written to the tunnel. */
    method SendFrame(connId: ConnId, mtype: MessageType, payload: seq<byte>, payloadLen: uint16)
      returns (ok: bool, ghost k: nat)
      requires Valid() && tunnel.Some? && payloadLen == |payload|
      modifies this`model, kernel
      ensures Valid() && model == C.Send(old(model), TunnelMessage(connId, mtype, payload), k)
      ensures k == old(Takes(|payload|)) && (ok <==> model.link.ok)
      ensures kernel.written.Keys == old(kernel.written.Keys)
    {
      ghost var r, m: Message := Snapshot(), TunnelMessage(connId, mtype, payload);
      hide Encode, Transmit, Links.Valid, Ties, UdpTies, FrameAccepted, Fixed;
      TunnelUsable(CoreOf(model), r, Fixed());
      ok, k := kernel.SendTunnelMessage(tunnel.fd, connId, mtype, payload, payloadLen);
      assert payload[..payloadLen] == payload;
      Sends(CoreOf(model), r, Fixed(), m, k);
      assert Snapshot() == Wrote(r, tunnel.fd, Encode(m)[..k], ok);
      model := C.Send(model, m, k);
    }

    /** removeConnection, which closes the connection's socket. */
    method RemoveConnection(id: ConnId)
      requires Valid()
      modifies this`model, kernel, tcpConnections
      ensures Valid() && model == C.Remove(old(model), id) && kernel.calls == old(kernel.calls)
      ensures kernel.written == old(kernel.written) - if id in old(model.table) then {old(model.table)[id]} else {}
    {
      hide Ties, UdpTies, Fixed;
      ghost var r := Snapshot();
      ConnectionOf(CoreOf(model), r, Fixed(), id);
      tcpConnections.RemoveConnection(id);
      assert Snapshot() == Removed(r, id);
      Removes(CoreOf(model), r, Fixed(), id);
      model := C.Remove(model, id);
    }

    /** A new descriptor, not yet used for anything. */
    method Open(fd: int)
      requires Valid() && fd !in kernel.written
      modifies kernel
      ensures Valid() && Unused(Snapshot(), Fixed(), fd) && fd !in model.table.Values
      ensures kernel.written.Keys == old(kernel.written.Keys) + {fd}
    {
      hide Ties, UdpTies, Fixed, Unused;
      ghost var r := Snapshot();
      kernel.Open(fd);
      assert Snapshot() == Opened(r, fd);
      Opens(CoreOf(model), r, Fixed(), fd);
    }

    /** getConnection, and the test that its socket can be used. */
    method Usable(connId: ConnId) returns (socket: Option)
      requires Valid()
      ensures socket == if connId in model.table then Option.Some(model.table[connId]) else Option.None
    {
      ConnectionOf(CoreOf(model), Snapshot(), Fixed(), connId);
      hide Ties, UdpTies, Fixed;
      if connId in tcpConnections.connections && tcpConnections.connections[connId].valid {
        socket := Option.Some(tcpConnections.connections[connId].socket);
      } else {
        socket := Option.None;
      }
    }

    method Ids() returns (ids: seq<ConnId>)
      requires Valid()
      ensures Covers(ids, model.table)
    {
      KeysOf(CoreOf(model), Snapshot(), Fixed());
      hide Ties, UdpTies, Fixed;
      ids := tcpConnections.GetAllConnIds();
    }

    // ---------- a session's start and end ----------

    /** The reconnection loop has a new tunnel, and the dispatch loop is entered. */
    method Connect(fd: int)
      requires Valid() && tunnel.None? && fd !in kernel.written && !contLoop && !userQuit
      modifies this`model, this`tunnel, this`readSockets, this`contLoop, kernel
      ensures Valid() && tunnel == Option.Some(fd) && model == C.Step(old(model), C.ConnectTunnel)
    {
      hide Ties, UdpTies, Fixed, Unused;
      Open(fd);
      ghost var r := Snapshot();
      Installs(CoreOf(model), r, Fixed(), fd);
      tunnel := Option.Some(fd);
      readSockets := [0, fd, udpSocket];
      contLoop := true;
      model := C.Step(model, C.ConnectTunnel);
      assert Snapshot() == r.(tunnel := Option.Some(fd));
    }

    /** The tunnel's socket goes out of scope. */
    method Disconnect()
      requires Valid() && tunnel.Some? && !contLoop
      modifies this`tunnel, kernel
      ensures Valid() && tunnel.None? && kernel.written == old(kernel.written) - {old(tunnel).fd}
    {
      hide Ties, UdpTies, Fixed;
      ghost var r := Snapshot();
      Drops(CoreOf(model), r, Fixed());
      kernel.Close(tunnel.fd);
      tunnel := Option.None;
      assert Snapshot() == Shut(r, {r.tunnel.fd}).(tunnel := Option.None);
    }

    /** The user pressed q. */
    method Quit()
      requires Valid()
      modifies this`model, this`contLoop, this`userQuit
      ensures Valid() && model == C.Step(old(model), C.UserQuits)
    {
      hide Ties, UdpTies, Fixed;
      contLoop, userQuit := false, true;
      model := C.Step(model, C.UserQuits);
    }

    // ---------- the branches ----------

    /** A datagram from the destination goes through the tunnel unless it is empty. */
    method DestinationUdp(data: Datagram) returns (ghost k: nat)
      requires Valid() && tunnel.Some?
      modifies this`model, this`contLoop, kernel
      ensures Valid() && model == C.Step(old(model), C.DestinationUdp(data, k))
      ensures data != [] ==> k == old(Takes(|data|)) && (!model.link.ok ==> !contLoop)
    {
      hide Ties, UdpTies, Fixed;
      k := 0;
      var length := |data|;
      if length > 0 {
        model := model.(udpRead := model.udpRead + [data]);
        var success;
        success, k := SendFrame(0, UdpPacket, data, length % 0x1_0000);
        if !success {
          contLoop := false;
          model := model.(contLoop := false);
        }
      }
    }

    /** What the sweep does for one connection whose descriptor is ready; false makes it stop. */
    method DestinationRead(connId: ConnId, result: ReadOutcome) returns (goOn: bool, ghost k: nat)
      requires Valid() && tunnel.Some? && connId in model.table
      modifies this`model, this`contLoop, kernel, tcpConnections
      ensures Valid() && model == C.Step(old(model), C.DestinationRead(connId, result, k))
      ensures !result.WouldBlock? ==> k == old(Takes(if result.Data? then |result.bytes| else 0))
      ensures (goOn <==> result.Data? ==> model.link.ok) && (!goOn ==> !contLoop)
    {
      hide Ties, UdpTies, Fixed, Append;
      k, goOn := 0, true;
      match result
      case WouldBlock =>
      case Data(bytes) =>
        model := model.(read := Append(model.read, connId, bytes));
        var success;
        success, k := SendFrame(connId, TcpData, bytes, |bytes|);
        if !success {
          contLoop := false;
          model := model.(contLoop := false);
          goOn := false;
        }
      case _ =>
        var success;
        success, k := SendFrame(connId, TcpClose, [], 0);
        RemoveConnection(connId);
    }

    /** One round of the sweep. */
    method Visit(connId: ConnId, ready: map<int, ReadOutcome>) returns (goOn: bool, ghost v: Read)
      requires Valid() && tunnel.Some? && connId in model.table
      modifies this`model, this`contLoop, kernel, tcpConnections
      ensures Valid() && v.id == connId && v.result == Result(ready, old(model).table[connId])
      ensures model == C.Step(old(model), C.DestinationRead(v.id, v.result, v.k))
      ensures !v.result.WouldBlock? ==> v.k == old(Takes(if v.result.Data? then |v.result.bytes| else 0))
      ensures (goOn <==> v.result.Data? ==> model.link.ok) && (!goOn ==> !contLoop)
    {
      hide Valid, C.Step;
      v, goOn := Read(connId, Result(ready, model.table[connId]), 0), true;
      var socket := Usable(connId);
      if socket.Some? && socket.fd in ready {
        ghost var k;
        goOn, k := DestinationRead(connId, ready[socket.fd]);
        v := v.(k := k);
      } else {
        NotRead(model, connId, 0);
      }
    }

    /** The sweep over a snapshot of the ids, which stops when the tunnel fails. */
    method Sweep(ready: map<int, ReadOutcome>) returns (ghost snapshot: seq<ConnId>, ghost visits: seq<Read>)
      requires Valid() && tunnel.Some?
      modifies this`model, this`contLoop, kernel, tcpConnections
      ensures Valid() && model == Replay(old(model), visits) && SweepOf(old(model), snapshot, visits, ready)
      ensures |visits| < |snapshot| ==> !contLoop
    {
      hide *;
      visits := [];
      var ids := Ids();
      snapshot := ids;
      ghost var table := model.table;
      VisitedNone(ids, table, ready);
      ReplayNothing(model);
      var i := 0;
      while i < |ids|
        invariant |visits| == i <= |ids| && Valid() && model == Replay(old(model), visits)
        invariant Visited(visits, ids[..i], table, ready) && NoFailure(old(model), visits)
        invariant i > 0 ==> NoFailure(old(model), visits[..|visits| - 1])
        invariant Pending(ids, i, table, model.table)
      {
        PendingNow(ids, i, table, model.table);
        var goOn;
        ghost var v;
        goOn, v := Visit(ids[i], ready);
        Swept(old(model), visits, v, ids, i, ready);
        assert (visits + [v])[..|visits|] == visits;
        visits := visits + [v];
        i := i + 1;
        if !goOn {
          assert !contLoop;
          break;
        }
      }
      SweepEnds(old(model), ids, visits, i, ready);
    }

    // ---------- messages from the tunnel ----------

    /** TCPSocket::send on a connection's socket; n bytes of the payload are accepted. */
    method Deliver(connId: ConnId, fd: int, payload: seq<byte>) returns (sent: int, ghost n: nat)
      requires Valid() && connId in model.table && fd == model.table[connId]
      modifies this`model, kernel
      ensures Valid() && model == old(model).(delivered := Append(old(model).delivered, connId, Cut(payload, n)))
      ensures fd in old(kernel.written) && n == old(kernel.Taken(fd, |payload|)) && n <= |payload|
      ensures kernel.written == old(kernel.written)[fd := old(kernel.written)[fd] + payload[..n]]
      ensures sent == (if n == |payload| then n else -1)
      ensures kernel.calls == Attempts(kernel.script, old(kernel.calls), |payload|, fd in old(kernel.broken))
    {
      hide Ties, UdpTies, Fixed, Append, At;
      ghost var r := Snapshot();
      n := kernel.Taken(fd, |payload|);
      Delivers(CoreOf(model), r, Fixed(), connId, payload[..n], n == |payload|);
      sent := kernel.Send(fd, payload);
      assert Snapshot() == Wrote(r, fd, payload[..n], n == |payload|);
      assert Cut(payload, n) == payload[..n];
      model := model.(delivered := Append(model.delivered, connId, Cut(payload, n)));
    }

    /** addConnection for a connection to the destination. */
    method Enter(connId: ConnId, fd: int)
      requires Valid() && connId !in model.table && Unused(Snapshot(), Fixed(), fd)
      modifies this`model, kernel, tcpConnections
      ensures Valid() && fd !in old(model).table.Values && kernel.written == old(kernel.written)
      ensures model == old(model).(table := old(model).table[connId := fd], added := old(model).added + [connId])
    {
      hide Ties, UdpTies, Fixed, Unused, Add;
      ghost var r := Snapshot();
      NotInTable(CoreOf(model), r, Fixed(), connId);
      Adds(CoreOf(model), r, Fixed(), connId, fd, r.table.nextConnId);
      CounterKept(r.table, connId, fd);
      tcpConnections.AddConnection(connId, Option.Some(fd));
      assert Snapshot() == r.(table := Add(r.table, connId, Option.Some(fd)).(nextConnId := r.table.nextConnId));
      model := model.(table := model.table[connId := fd], added := model.added + [connId]);
    }

    /** TCP_OPEN: a connection to the destination, or a TCP_CLOSE back. A negative descriptor is a failed connect. */
    method HandleOpen(connId: ConnId, connect: int) returns (ghost env: C.Env)
      requires Valid() && tunnel.Some? && (connect >= 0 ==> connect !in kernel.written)
      modifies this`model, kernel, tcpConnections
      ensures Valid() && env.connect == Outcome(connect) && model == C.OnOpen(old(model), connId, env)
      ensures connect < 0 && connId !in old(model.table) ==> env.sends == old(Takes(0))
      ensures kernel.written.Keys <= old(kernel.written.Keys) + (if connect < 0 then {} else {connect})
    {
      hide Valid, Unused, C.Send;
      env := C.Env(Outcome(connect), 0, 0);
      var found := HasConnection(connId);
      if !found {
        if connect >= 0 {
          Open(connect);
          Enter(connId, connect);
        } else {
          ghost var k;
          var success;
          success, k := SendFrame(connId, TcpClose, [], 0);
          env := env.(sends := k);
        }
      }
    }

    method HasConnection(connId: ConnId) returns (found: bool)
      requires Valid()
      ensures found <==> connId in model.table
    {
      ConnectionOf(CoreOf(model), Snapshot(), Fixed(), connId);
      hide Ties, UdpTies, Fixed;
      found := tcpConnections.HasConnection(connId);
    }

    /** TCP_DATA: to the connection's socket, or a TCP_CLOSE back. */
    method HandleData(connId: ConnId, payload: seq<byte>) returns (ghost env: C.Env)
      requires Valid() && tunnel.Some?
      modifies this`model, kernel, tcpConnections
      ensures Valid() && env.connect == C.Refused && model == C.OnTunnelData(old(model), connId, payload, env)
      ensures connId !in old(model.table) ==> env.sends == old(Takes(0))
      ensures connId in old(model.table) ==>
                var fd := old(model.table)[connId];
                && fd in old(kernel.written) && env.accepts == old(kernel.Taken(fd, |payload|))
                && (env.accepts == |payload| ==>
                      && connId in model.table && fd in kernel.written
                      && kernel.written[fd] == old(kernel.written)[fd] + payload)
                && (env.accepts < |payload| ==>
                      env.sends == FrameAccepted(kernel.script,
                        Attempts(kernel.script, old(kernel.calls), |payload|, fd in old(kernel.broken)), 0,
                        !old(model).link.ok))
      ensures kernel.written.Keys <= old(kernel.written.Keys)
    {
      hide Valid, C.Send, Append;
      env := C.Env(C.Refused, 0, 0);
      ghost var k;
      var success;
      var socket := Usable(connId);
      if socket.Some? {
        var sent, n := Deliver(connId, socket.fd, payload);
        env := env.(accepts := n);
        if sent < 0 {
          RemoveConnection(connId);
          success, k := SendFrame(connId, TcpClose, [], 0);
          env := env.(sends := k);
        }
      } else {
        success, k := SendFrame(connId, TcpClose, [], 0);
        env := env.(sends := k);
      }
    }

    /** One message from the tunnel. */
    method HandleMessage(m: Message, connect: int) returns (ghost env: C.Env)
      requires Valid() && tunnel.Some? && (connect >= 0 ==> connect !in kernel.written)
      modifies this`model, kernel, tcpConnections, udpForwarder
      ensures Valid() && model == C.Handle(old(model), m, env)
      ensures m.mtype.TcpOpen? ==>
                env.connect == Outcome(connect) && (connect < 0 && m.connId !in old(model.table) ==>
                  env.sends == old(Takes(0)))
      ensures kernel.written.Keys <= old(kernel.written.Keys) + (if connect < 0 then {} else {connect})
      ensures m.mtype.TcpData? && m.connId !in old(model.table) ==> env.sends == old(Takes(0))
      ensures m.mtype.TcpData? && m.connId in old(model.table) ==>
                var fd := old(model.table)[m.connId];
                && fd in old(kernel.written) && env.accepts == old(kernel.Taken(fd, |m.payload|))
                && (env.accepts == |m.payload| ==>
                      && m.connId in model.table && fd in kernel.written
                      && kernel.written[fd] == old(kernel.written)[fd] + m.payload)
                && (env.accepts < |m.payload| ==>
                      env.sends == FrameAccepted(kernel.script,
                        Attempts(kernel.script, old(kernel.calls), |m.payload|, fd in old(kernel.broken)), 0,
                        !old(model).link.ok))
    {
      hide Ties, Fixed, C.OnOpen, C.OnTunnelData;
      env := C.Env(C.Refused, 0, 0);
      model := model.(handled := model.handled + [m]);
      match m.mtype
      case UdpPacket =>
        if |m.payload| > 0 {
          udpForwarder.Send(m.payload, destUdp);
        } else {
          udpForwarder.Send([], destUdp);
        }
        model := model.(udpSent := model.udpSent + [m.payload]);
      case TcpOpen =>
        hide UdpTies;
        env := HandleOpen(m.connId, connect);
      case TcpData =>
        hide UdpTies;
        env := HandleData(m.connId, m.payload);
      case TcpClose =>
        hide UdpTies;
        RemoveConnection(m.connId);
    }

    /**
     The tunnel is readable: it was closed, or reading failed, or a chunk arrived, all of whose messages are
     handled.
     */
    method FromTunnel(outcome: TunnelOutcome) returns (ghost envs: seq<C.Env>)
      requires Ready() && tunnel.Some?
      modifies this`model, this`contLoop, kernel, tcpConnections, reconstructor, udpForwarder
      ensures Ready()
      ensures TunnelTurn(old(model), old(reconstructor.State()), outcome, old(kernel.written).Keys, envs, model,
                         reconstructor.State())
    {
      hide Collect, Fixed, Ties, UdpTies, C.Handle, EnvsFor, ConnectFor, OpenNow, Attempts,
          FrameAccepted, Accepted;
      envs := [];
      match outcome
      case Quiet =>
      case Received(bytes, connects) =>
        ghost var d, done := Collect(reconstructor.State(), bytes), [];
        ghost var atStart := kernel.written.Keys;
        NoEnvs(connects, atStart);
        reconstructor.CollectFromTunnel(bytes);
        var i := 0;
        while reconstructor.HasMessages()
          invariant Valid() && tunnel.Some? && reconstructor.State() == d.parser
          invariant d.msgs == done + reconstructor.reconstructedMessages && |envs| == |done| == i
          invariant model == World.ClientHandles(old(model), done, envs) 
          invariant EnvsFor(done, envs, connects, atStart) && OpenNow(kernel.written.Keys, atStart, connects, i)
          decreases |reconstructor.reconstructedMessages|
        {
          var msg := reconstructor.FrontMessage();
          ghost var open := kernel.written.Keys;
          var connect := ConnectFor(connects, i, kernel.written.Keys);
          ConnectIsNew(connects, i, open);
          ghost var env;
          env := HandleMessage(msg, connect);
          HandlesSnoc(old(model), done, envs, msg, env);
          EnvsSnoc(done, envs, connects, msg, env, open, atStart);
          OpenNext(open, atStart, connects, i, kernel.written.Keys, connect);
          done, envs, i := done + [msg], envs + [env], i + 1;
          reconstructor.PopMessage();
        }
        assert done == d.msgs;
      case _ =>
        contLoop := false;
        model := C.Step(model, C.TunnelLost);
    }

    // ---------- the end of the loop ----------

    /** removeConnection for every id of a snapshot. */
    method CloseAll()
      requires Valid()
      modifies this`model, kernel, tcpConnections
      ensures Valid() && model == old(model).(table := map[])
    {
      hide *;
      var ids := Ids();
      AllWithin(ids, model.table);
      for i := 0 to |ids|
        invariant Valid() && model == old(model).(table := model.table) && Within(model.table, ids, i)
      {
        WithinNext(model.table, ids, i);
        ghost var c := model;
        RemoveConnection(ids[i]);
        RemoveChanges(c, ids[i]);
      }
      NoneWithin(model.table, ids);
    }

    /** The loop has ended: when the user asked for it, all connections are closed, and otherwise they are kept. */
    method LeaveLoop() returns (quit: bool)
      requires Ready() && !contLoop
      modifies this`model, kernel, tcpConnections
      ensures Ready() && model == C.Step(old(model), C.LeaveLoop) && quit == userQuit
      ensures userQuit ==> tcpConnections.connections == map[] && tcpConnections.socketToConnId == map[]
    {
      assert userQuit == model.userQuit && contLoop == model.contLoop;
      hide Valid;
      if userQuit {
        CloseAll();
        BothEmpty();
      }
      quit := userQuit;
    }

    lemma BothEmpty()
      requires Valid() && model.table == map[]
      ensures tcpConnections.connections == map[] && tcpConnections.socketToConnId == map[]
    {
      NothingLeft(CoreOf(model), Snapshot(), Fixed());
    }

    // ---------- the loop, and the loop around it ----------

    /** The descriptors given to select, none of them twice. */
    method Watched() returns (fds: seq<int>)
      requires Valid() && tunnel.Some? && udpSocket != 0
      ensures NoneTwice(fds)
      ensures forall fd :: fd in fds <==> fd in {0, udpSocket, tunnel.fd} || fd in model.table.Values
    {
      assert Bijective(tcpConnections.State());
      WatchedApart(CoreOf(model), Snapshot(), Fixed());
      assert readSockets == [0, tunnel.fd, udpSocket];
      hide Ties, UdpTies;
      var socks := tcpConnections.GetAllSockets();
      SocketsAreValues(model.table, tcpConnections.connections, socks);
      hide *;
      ListsJoined(tunnel.fd, udpSocket, model.table, socks);
      fds := readSockets + socks;
    }

    /** One turn of the dispatch loop. */
    method OneTurn(t: Turn) returns (ghost ch: Choices)
      requires Ready() && tunnel.Some? && t.Reported?
      modifies this`model, this`contLoop, this`userQuit, kernel, tcpConnections, reconstructor, udpForwarder
      ensures Ready() && TurnOf(old(model), old(reconstructor.State()), t, ch, model, reconstructor.State())
      ensures ch.open == old(kernel.written).Keys && (|ch.visits| < |ch.ids| ==> !contLoop)
    {
      assert reconstructor.State().Valid();
      hide Valid, C.Step, SweepOf, TunnelTurn, Collect, Replay, Parser.Drained;
      if t.quit {
        Quit();
      }
      ghost var envs, k, ids, visits;
      envs := FromTunnel(t.fromTunnel);
      ghost var c2 := model;
      k := DestinationUdp(t.datagram);
      ids, visits := Sweep(t.ready);
      ch := Choices(old(kernel.written).Keys, envs, k, ids, visits);
      assert TunnelTurn(if t.quit then C.Step(old(model), C.UserQuits) else old(model), old(reconstructor.State()),
                        t.fromTunnel, ch.open, ch.envs, c2, reconstructor.State());
    }

    /** select is called, and a turn follows. */
    method NextRound(given: Turn) returns (fds: seq<int>, ghost r: Round)
      requires Ready() && tunnel.Some? && udpSocket != 0
      modifies this`model, this`contLoop, this`userQuit, kernel, tcpConnections, reconstructor, udpForwarder
      ensures Ready() && NoneTwice(fds)
      ensures r.given == given && (r.client, r.parser) == (model, reconstructor.State())
      ensures given.Reported? ==> r.choices.open == old(kernel.written).Keys
      ensures RoundOf((old(model), old(reconstructor.State())), r)
    {
      fds := Watched();
      hide Fixed, Ties, UdpTies, TurnOf;
      ghost var ch := Choices({}, [], 0, [], []);
      match given {
        case Interrupted =>
        case SelectFailed =>
          contLoop := false;
          model := C.Step(model, C.TunnelLost);
        case Reported(_, _, _, _) =>
          ch := OneTurn(given);
      }
      r := Round(given, ch, model, reconstructor.State());
    }

    /** dispatch_loop, up to the end of the loop or of the turns given. */
    method DispatchLoop(turns: seq<Turn>) returns (ghost rounds: seq<Round>)
      requires Ready() && tunnel.Some? && udpSocket != 0
      modifies this`model, this`contLoop, this`userQuit, kernel, tcpConnections, reconstructor, udpForwarder
      ensures Ready() && |rounds| <= |turns|
      ensures RunOf((old(model), old(reconstructor.State())), rounds, turns[..|rounds|])
      ensures After((old(model), old(reconstructor.State())), rounds) == (model, reconstructor.State())
      ensures |rounds| < |turns| ==> !contLoop
    {
      LoopFlag();
      hide Ready, RunOf, RoundOf, After, NoneTwice;
      ghost var start := (model, reconstructor.State());
      rounds := [];
      RunNone(start, turns);
      var i := 0;
      while contLoop && i < |turns|
        invariant |rounds| == i <= |turns| && Ready() && contLoop == model.contLoop
        invariant RunOf(start, rounds, turns[..i]) && After(start, rounds) == (model, reconstructor.State())
        decreases |turns| - i
      {
        var fds;
        ghost var r;
        fds, r := NextRound(turns[i]);
        LoopFlag();
        RunSnoc(start, rounds, turns, i, r);
        rounds, i := rounds + [r], i + 1;
      }
    }

    lemma LoopFlag()
      requires Ready()
      ensures contLoop == model.contLoop && userQuit == model.userQuit
    {
    }

    /** One session: a tunnel is connected, and when its loop has ended it is closed. */
    method RunSession(fd: int, turns: seq<Turn>) returns (ghost s: Session)
      requires Ready() && tunnel.None? && !contLoop && !userQuit && udpSocket != 0 && fd !in kernel.written
      modifies this, kernel, tcpConnections, reconstructor, udpForwarder
      ensures Ready() && s.turns == turns && SessionOf((old(model), old(reconstructor.State())), s)
      ensures (s.client, s.parser) == (model, reconstructor.State())
      ensures (tunnel.None? <==> !contLoop) && (tunnel.None? ==> fd !in kernel.written)
      ensures userQuit && !contLoop ==> tcpConnections.connections == map[] && tcpConnections.socketToConnId == map[]
    {
      LoopFlag();
      Connect(fd);
      ghost var rounds;
      rounds := DispatchLoop(turns);
      LoopFlag();
      if !contLoop {
        var quit := LeaveLoop();
        Disconnect();
      }
      s := Session(turns, rounds, model, reconstructor.State());
    }

    /**
     The reconnection loop: one session after another until the user quits, no connection can be had,
     or the sessions given are used up.
     */
    method ReconnectLoop(tunnels: seq<(int, seq<Turn>)>) returns (ghost sessions: seq<Session>)
      requires Ready() && tunnel.None? && !contLoop && !userQuit && udpSocket != 0
      modifies this, kernel, tcpConnections, reconstructor, udpForwarder
      ensures Ready() && SessionsOf((old(model), old(reconstructor.State())), sessions)
      ensures AfterAll((old(model), old(reconstructor.State())), sessions) == (model, reconstructor.State())
      ensures |sessions| <= |tunnels| && forall i | 0 <= i < |sessions| :: sessions[i].turns == tunnels[i].1
      ensures |sessions| < |tunnels| ==> userQuit || contLoop || tunnels[|sessions|].0 in kernel.written
      ensures userQuit && !contLoop ==> tcpConnections.connections == map[] && tcpConnections.socketToConnId == map[]
    {
      hide Ready, SessionsOf, SessionOf, AfterAll;
      ghost var start := (model, reconstructor.State());
      sessions := [];
      SessionsNone(start);
      var continueRunning, i := true, 0;
      while continueRunning && i < |tunnels|
        invariant |sessions| == i <= |tunnels| && Ready()
        invariant SessionsOf(start, sessions) && AfterAll(start, sessions) == (model, reconstructor.State())
        invariant forall j | 0 <= j < i :: sessions[j].turns == tunnels[j].1
        invariant !contLoop && tunnel.None? && (continueRunning <==> !userQuit)
        invariant userQuit ==> tcpConnections.connections == map[] && tcpConnections.socketToConnId == map[]
        decreases |tunnels| - i
      {
        var fd := tunnels[i].0;
        if fd in kernel.written {
          return;
        }
        ghost var s;
        s := RunSession(fd, tunnels[i].1);
        SessionsSnoc(start, sessions, s);
        sessions, i := sessions + [s], i + 1;
        if contLoop {
          return;
        }
        if userQuit {
          continueRunning := false;
        }
      }
    }
  }
}
