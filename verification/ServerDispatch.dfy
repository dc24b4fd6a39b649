/**
 The server's dispatch loop over its own data.
 The data are the connection table, the tunnel, the watch list and the reassembly machine. Each branch is
 proved to do to that data what the model's step does to the model's state, with the outcomes that the
 schedule of the system's calls fixes. A turn of the loop is its branches in order, and a run of the loop is
 the turns that select reports, up to the one in which the user quits.
 The descriptors that a branch closes are named in its contract.
 */
module ServerDispatch {
  import opened Protocol
  import opened Links
  import opened Parties
  import opened Sockets
  import opened ConnectionTable
  import opened Reassembly
  import opened Binding
  import opened Watching
  import World
  import S = ServerModel

  function CoreOf(s: S.Server): Core {
    Core(s.table, s.link, s.delivered, s.added)
  }

  /** The datagrams handed to the UDP socket are the replies, each sent to its destination. */
  ghost predicate RepliesTie(replies: seq<S.UdpReply>, sent: seq<(nat, seq<byte>)>) {
    |sent| == |replies| && forall i | 0 <= i < |sent| :: sent[i] == (replies[i].to, replies[i].payload)
  }

  /** Ids in the table were handed out by the allocator, whose counter is 32 bits wide. */
  ghost predicate IdsTie(s: S.Server, next: ConnId) {
    next == s.nextId % ID_SPACE && 1 <= s.nextId && forall id <- s.table :: S.IsAllocated(s, id)
  }

  lemma IdsRemoved(s: S.Server, next: ConnId, id: ConnId)
    requires IdsTie(s, next)
    ensures IdsTie(S.Remove(s, id), next)
  {
  }

  lemma IdsEntered(s: S.Server, next: ConnId, fd: int)
    requires IdsTie(s, next) && s.nextId < ID_SPACE
    ensures next == s.nextId && next !in s.table && 1 <= s.nextId
    ensures IdsTie(S.Enter(s, fd), Next(next))
  {
  }

  lemma IdsSame(s: S.Server, s': S.Server, next: ConnId)
    requires IdsTie(s, next) && s'.nextId == s.nextId && s'.table == s.table
    ensures IdsTie(s', next)
  {
  }

  ghost predicate UdpTies(u: S.Udp, lastSender: nat, hasSender: bool, sent: seq<(nat, seq<byte>)>) {
    u.lastSender == lastSender && u.hasSender == hasSender && RepliesTie(u.replies, sent)
  }

  /** std::find and erase: the first occurrence goes. */
  function Erase(list: seq<int>, fd: int): (r: seq<int>)
    ensures fd !in list ==> r == list
  {
    if list == [] then []
    else if list[0] == fd then list[1..]
    else [list[0]] + Erase(list[1..], fd)
  }

  lemma {:induction false} EraseLast(list: seq<int>, fd: int)
    requires fd !in list
    ensures Erase(list + [fd], fd) == list
    decreases |list|
  {
    if list == [] {
      assert Erase([fd], fd) == [];
    } else {
      EraseLast(list[1..], fd);
      assert (list + [fd])[1..] == list[1..] + [fd];
    }
  }

  /** The reads of a sweep, one after another. */
  function Replay(s: S.Server, visits: seq<Read>): S.Server {
    if visits == [] then s
    else
      var v := visits[|visits| - 1];
      S.Step(Replay(s, visits[..|visits| - 1]), S.OutsideRead(v.id, v.result, v.k))
  }

  lemma ReplaySnoc(s: S.Server, visits: seq<Read>, v: Read)
    ensures Replay(s, visits + [v]) == S.Step(Replay(s, visits), S.OutsideRead(v.id, v.result, v.k))
  {
    assert (visits + [v])[..|visits|] == visits;
  }

  lemma ReplayNothing(s: S.Server)
    ensures Replay(s, []) == s
  {
  }

  lemma ReadTable(s: S.Server, v: Read)
    ensures var t := S.Step(s, S.OutsideRead(v.id, v.result, v.k));
            (t.table == s.table || t.table == s.table - {v.id}) && t.nextId == s.nextId
  {
    hide Transmit, Append;
  }

  lemma NotRead(s: S.Server, id: ConnId, k: nat)
    ensures S.Step(s, S.OutsideRead(id, ReadOutcome.WouldBlock, k)) == s
  {
  }

  /** One read for each connection in the table, and no other. */
  ghost predicate SweepOf(ids: seq<ConnId>, visits: seq<Read>, table: map<ConnId, int>, ready: map<int, ReadOutcome>) {
    Covers(ids, table) && Visited(visits, ids, table, ready)
  }

  lemma SweepEnds(ids: seq<ConnId>, visits: seq<Read>, table: map<ConnId, int>, ready: map<int, ReadOutcome>)
    requires Covers(ids, table) && Visited(visits, ids[..|ids|], table, ready)
    ensures SweepOf(ids, visits, table, ready)
  {
    assert ids[..|ids|] == ids;
  }

  /** One more connection visited: the ones still to come are where they were. */
  lemma Swept(start: S.Server, visits: seq<Read>, v: Read, ids: seq<ConnId>, i: nat, ready: map<int, ReadOutcome>)
    requires Covers(ids, start.table) && i < |ids| && Visited(visits, ids[..i], start.table, ready)
    requires Pending(ids, i, start.table, Replay(start, visits).table)
    requires ids[i] in start.table && v.id == ids[i] && v.result == Result(ready, start.table[ids[i]])
    ensures var after := S.Step(Replay(start, visits), S.OutsideRead(v.id, v.result, v.k));
            && after == Replay(start, visits + [v]) && Visited(visits + [v], ids[..i + 1], start.table, ready)
            && Pending(ids, i + 1, start.table, after.table) && after.nextId == Replay(start, visits).nextId
  {
    ReplaySnoc(start, visits, v);
    ReadTable(Replay(start, visits), v);
    VisitedSnoc(visits, ids, i, v, start.table, ready);
    PendingStays(ids, i, start.table, Replay(start, visits).table, Replay(start, visits + [v]).table);
    hide *;
  }

  /** How a read from the tunnel ends; it is not read when it is quiet. */
  datatype TunnelOutcome = Quiet | Closed | Failed | Received(bytes: seq<byte>)

  lemma HandleIds(s: S.Server, m: Message)
    ensures forall env :: S.Handle(s, m, env).nextId == s.nextId
  {
    hide Transmit, Append, Cut;
  }

  lemma {:induction false} HandlesSnoc(s: S.Server, ms: seq<Message>, envs: seq<S.Env>, m: Message, env: S.Env)
    requires |ms| == |envs|
    ensures World.ServerHandles(s, ms + [m], envs + [env]) == S.Handle(World.ServerHandles(s, ms, envs), m, env)
    decreases |ms|
  {
    hide S.Handle;
    if ms == [] {
      assert ms + [m] == [m] && envs + [env] == [env];
      assert World.ServerHandles(s, [m], [env]) == World.ServerHandles(S.Handle(s, m, env), [m][1..], [env][1..]);
    } else {
      HandlesSnoc(S.Handle(s, ms[0], envs[0]), ms[1..], envs[1..], m, env);
      assert (ms + [m])[1..] == ms[1..] + [m] && (envs + [env])[1..] == envs[1..] + [env];
    }
  }

  // ---------- one turn of the loop ----------

  /**
   How select ends and, when it reports, what the calls made for it return: a negative descriptor is a
   failed accept.
   */
  datatype Turn =
    | Interrupted
    | SelectFailed
    | Reported(quit: bool, newTunnel: int, newOutside: int, datagram: S.UdpOutcome,
               ready: map<int, ReadOutcome>, fromTunnel: TunnelOutcome)

  /** What came of a turn: how much each write took, and the reads of the sweep. */
  datatype Choices = Choices(
    outsideSends: nat,
    datagramSends: nat,
    ids: seq<ConnId>,
    visits: seq<Read>,
    envs: seq<S.Env>)

  /** The model's steps in the order of the loop's branches, up to the sweep. */
  function Arrivals(s: S.Server, t: Turn, outsideSends: nat, datagramSends: nat): S.Server
    requires t.Reported?
  {
    var s1 := if t.newTunnel < 0 then s else S.Step(s, S.AcceptTunnel);
    var accept := S.AcceptOutside(t.newOutside, outsideSends);
    var s2 := if t.newOutside < 0 || !S.Enabled(s1, accept) then s1 else S.Step(s1, accept);
    S.Step(s2, S.OutsideUdp(t.datagram, datagramSends))
  }

  /** A turn takes (s, p) to (s', p'): the branches in order, every connection read once, every message handled. */
  ghost predicate TurnOf(s: S.Server, p: Parser, t: Turn, c: Choices, s': S.Server, p': Parser)
    requires t.Reported? && p.Valid()
  {
    var s3 := Arrivals(s, t, c.outsideSends, c.datagramSends);
    var s4 := Replay(s3, c.visits);
    && SweepOf(c.ids, c.visits, s3.table, t.ready)
    && if s4.held then TunnelTurn(s4, p, t.fromTunnel, c.envs, s', p') else s' == s4 && p' == p
  }

  ghost predicate TunnelTurn(s: S.Server, p: Parser, outcome: TunnelOutcome, envs: seq<S.Env>, s': S.Server, p': Parser)
    requires p.Valid()
  {
    match outcome
    case Quiet => s' == s && p' == p
    case Received(bytes) =>
      var d := Collect(p, bytes);
      |envs| == |d.msgs| && s' == World.ServerHandles(s, d.msgs, envs) && p' == d.parser
    case _ => s' == S.Step(s, S.TunnelLost) && p' == p
  }

  lemma AcceptIds(s: S.Server, fd: int, k: nat)
    requires S.Enabled(s, S.AcceptOutside(fd, k))
    ensures s.nextId <= S.OnAccept(s, fd, k).nextId <= s.nextId + 1
  {
    hide Transmit;
  }

  lemma DatagramIds(s: S.Server, outcome: S.UdpOutcome, k: nat)
    ensures S.OnUdp(s, outcome, k).nextId == s.nextId
  {
    hide Transmit;
  }

  lemma ArrivalIds(s: S.Server, t: Turn, j: nat, k: nat)
    requires t.Reported?
    ensures Arrivals(s, t, j, k).nextId <= s.nextId + (if t.newOutside >= 0 then 1 else 0)
  {
    var s1 := if t.newTunnel < 0 then s else S.Step(s, S.AcceptTunnel);
    var accept := S.AcceptOutside(t.newOutside, j);
    if S.Enabled(s1, accept) {
      AcceptIds(s1, t.newOutside, j);
    }
    var s2 := if t.newOutside < 0 || !S.Enabled(s1, accept) then s1 else S.Step(s1, accept);
    DatagramIds(s2, t.datagram, k);
    hide S.OnAccept, S.OnUdp;
  }

  /** The turns that are worked off: until select fails, or the one in which the user quits. */
  function Worked(turns: seq<Turn>): seq<Turn>
    decreases |turns|
  {
    if turns == [] then []
    else
      match turns[0]
      case Interrupted => Worked(turns[1..])
      case SelectFailed => []
      case Reported(quit, _, _, _, _, _) => [turns[0]] + if quit then [] else Worked(turns[1..])
  }

  lemma WorkedNext(turns: seq<Turn>, i: nat)
    requires i < |turns|
    ensures Worked(turns[i..]) ==
            match turns[i]
            case Interrupted => Worked(turns[i + 1..])
            case SelectFailed => []
            case Reported(quit, _, _, _, _, _) => [turns[i]] + if quit then [] else Worked(turns[i + 1..])
  {
    assert turns[i..][1..] == turns[i + 1..];
  }

  lemma ListsJoined(fixed: seq<int>, tunnel: Option, sockets: seq<int>, t: map<ConnId, int>, socks: seq<int>)
    requires NoneTwice(fixed) && NoneTwice(socks) && sockets == fixed + (if tunnel.Some? then [tunnel.fd] else [])
    requires forall fd :: fd in socks <==> fd in t.Values
    requires forall id <- t :: t[id] !in fixed
    requires tunnel.Some? ==> tunnel.fd !in fixed && tunnel.fd !in t.Values
    ensures NoneTwice(sockets + socks)
    ensures forall fd :: fd in sockets + socks <==> fd in fixed || tunnel == Some(fd) || fd in t.Values
  {
    NoneTwiceJoined(fixed, if tunnel.Some? then [tunnel.fd] else []);
    NoneTwiceJoined(sockets, socks);
    hide NoneTwice;
  }

  /** How many of the turns bring a connection from outside. */
  function Accepting(turns: seq<Turn>): nat {
    if turns == [] then 0
    else (if turns[0].Reported? && turns[0].newOutside >= 0 then 1 else 0) + Accepting(turns[1..])
  }

  lemma AcceptingNext(turns: seq<Turn>, i: nat)
    requires i < |turns|
    ensures Accepting(turns[i..]) ==
            (if turns[i].Reported? && turns[i].newOutside >= 0 then 1 else 0) + Accepting(turns[i + 1..])
  {
    assert turns[i..][1..] == turns[i + 1..];
  }

  /** One turn of a run, with the descriptors that were open at its start, and where it led. */
  datatype Round = Round(given: Turn, open: set<int>, choices: Choices, server: S.Server, parser: Parser)

  /** Where a run from (s, p) is after these rounds. */
  function After(s: S.Server, p: Parser, rounds: seq<Round>): (S.Server, Parser) {
    if rounds == [] then (s, p) else (rounds[|rounds| - 1].server, rounds[|rounds| - 1].parser)
  }

  /** A round is a turn of the loop, except for accepts that could not succeed. */
  ghost predicate RoundOf(start: (S.Server, Parser), r: Round) {
    && r.given.Reported? && start.1.Valid()
    && TurnOf(start.0, start.1, Possible(r.given, r.open), r.choices, r.server, r.parser)
  }

  /** The rounds lead on from (s, p), and deal with these turns in order. */
  ghost predicate RunOf(s: S.Server, p: Parser, rounds: seq<Round>, turns: seq<Turn>) {
    |rounds| == |turns| &&
    (rounds != [] ==>
       var init, r := rounds[..|rounds| - 1], rounds[|rounds| - 1];
       && RunOf(s, p, init, turns[..|turns| - 1])
       && r.given == turns[|turns| - 1] && RoundOf(After(s, p, init), r))
  }

  lemma RunSnoc(s: S.Server, p: Parser, rounds: seq<Round>, turns: seq<Turn>, r: Round)
    requires RunOf(s, p, rounds, turns) && RoundOf(After(s, p, rounds), r)
    ensures RunOf(s, p, rounds + [r], turns + [r.given]) && After(s, p, rounds + [r]) == (r.server, r.parser)
  {
    assert (rounds + [r])[..|rounds|] == rounds && (turns + [r.given])[..|turns|] == turns;
    hide RoundOf;
  }

  lemma RunNone(s: S.Server, p: Parser, turns: seq<Turn>)
    ensures RunOf(s, p, [], []) && After(s, p, []) == (s, p)
    ensures Worked(turns) == [] + Worked(turns[0..]) && Worked([]) == []
  {
    assert turns[0..] == turns;
  }

  /** A descriptor that is open cannot be returned by accept: such an accept is one that failed. */
  function Possible(t: Turn, open: set<int>): Turn {
    if !t.Reported? then t
    else
      var u := if t.newTunnel in open then t.(newTunnel := -1) else t;
      if u.newOutside in open || u.newOutside == u.newTunnel then u.(newOutside := -1) else u
  }

  /** Only an accept that returned an open descriptor, or the other one's, is taken for a failed one; all else stays. */
  lemma PossibleExactly(t: Turn, open: set<int>)
    requires t.Reported?
    ensures var u := Possible(t, open);
            && u == t.(newTunnel := u.newTunnel, newOutside := u.newOutside)
            && u.newTunnel == (if t.newTunnel in open then -1 else t.newTunnel)
            && (u.newOutside >= 0 <==> t.newOutside >= 0 && t.newOutside !in open && t.newOutside != t.newTunnel)
            && (u.newOutside >= 0 ==> u.newOutside == t.newOutside)
  {
  }

  /** The turn is the last one: select failed, or the user quit. */
  predicate Stops(t: Turn) {
    t.SelectFailed? || (t.Reported? && t.quit)
  }

  function Reports(turns: seq<Turn>): seq<Turn> {
    if turns == [] then []
    else Reports(turns[..|turns| - 1]) + if turns[|turns| - 1].Reported? then [turns[|turns| - 1]] else []
  }

  lemma {:induction false} ReportsFirst(t: Turn, turns: seq<Turn>)
    ensures Reports([t] + turns) == (if t.Reported? then [t] else []) + Reports(turns)
    decreases |turns|
  {
    var all := [t] + turns;
    if turns == [] {
      assert all[..|all| - 1] == [] && all[|all| - 1] == t;
    } else {
      ReportsFirst(t, turns[..|turns| - 1]);
      assert all[..|all| - 1] == [t] + turns[..|turns| - 1];
    }
  }

  /** Every report is worked off up to and including the one in which the user quits, and none after select failed. */
  lemma {:induction false} WorkedExactly(turns: seq<Turn>, n: nat)
    requires n <= |turns| && (forall i | 0 <= i < n :: !Stops(turns[i])) && (n < |turns| ==> Stops(turns[n]))
    ensures Worked(turns) ==
            Reports(turns[..n]) + if n < |turns| && turns[n].Reported? then [turns[n]] else []
    decreases |turns|
  {
    if n > 0 {
      WorkedExactly(turns[1..], n - 1);
      ReportsFirst(turns[0], turns[1..][..n - 1]);
      assert turns[..n] == [turns[0]] + turns[1..][..n - 1];
    } else {
      assert turns[..0] == [];
    }
  }

  class TunnelServer {
    const kernel: Kernel
    const tcpConnections: TCPConnectionManager
    const reconstructor: TunnelMessageReconstructor
    const outsideUdp: DatagramSocket
    const fixed: seq<int>               // stdin, tunnel listener, outside UDP, outside TCP listener
    var tunnel: Option
    var sockets: seq<int>
    var lastUdpSender: S.Address
    var hasUdpSender: bool
    ghost var model: S.Server

    ghost function Snapshot(): Real
      reads this, kernel, tcpConnections
    {
      Real(tcpConnections.State(), tunnel, kernel.written, kernel.broken)
    }

    ghost function Fixed(): set<int> {
      set fd | fd in fixed
    }

    /** The list given to select: the fixed descriptors, and the tunnel's once iff there is a tunnel. */
    ghost predicate WatchList()
      reads this
    {
      sockets == fixed + (if tunnel.Some? then [tunnel.fd] else [])
    }

    ghost predicate Valid()
      reads this, kernel, tcpConnections, reconstructor, outsideUdp
    {
      && tcpConnections.kernel == kernel
      && Ties(CoreOf(model), Snapshot(), Fixed())
      && IdsTie(model, tcpConnections.nextConnId)
      && (model.held <==> tunnel.Some?)
      && UdpTies(model.udp, lastUdpSender, hasUdpSender, outsideUdp.sent)
      && WatchList()
      && reconstructor.Valid()
    }

    /** As at every call of select: no message is waiting to be handled. */
    ghost predicate Ready()
      reads this, kernel, tcpConnections, reconstructor, outsideUdp
    {
      Valid() && reconstructor.reconstructedMessages == []
    }

    /** How much of a frame with len bytes of payload the tunnel takes if it is sent now. */
    ghost function Takes(len: nat): nat
      reads this, kernel
    {
      FrameAccepted(kernel.script, kernel.calls, len, !model.link.ok)
    }

    constructor (kernel: Kernel, tunnelListener: int, outsideUdpSocket: int, outsideTcpListener: int)
      requires {0, tunnelListener, outsideUdpSocket, outsideTcpListener} <= kernel.written.Keys
      ensures Ready() && model == S.INITIAL_SERVER && this.kernel == kernel
      ensures fixed == [0, tunnelListener, outsideUdpSocket, outsideTcpListener]
      ensures fresh(tcpConnections) && fresh(reconstructor) && fresh(outsideUdp)
    {
      this.kernel := kernel;
      tcpConnections := new TCPConnectionManager(kernel);
      reconstructor := new TunnelMessageReconstructor();
      outsideUdp := new DatagramSocket();
      fixed := [0, tunnelListener, outsideUdpSocket, outsideTcpListener];
      sockets := [0, tunnelListener, outsideUdpSocket, outsideTcpListener];
      tunnel, lastUdpSender, hasUdpSender := None, 0, false;
      model := S.INITIAL_SERVER;
      new;
      assert Links.Valid(NO_LINK) && sockets + [] == sockets;
    }

    /**
     The descriptors given to select: the fixed ones, the tunnel's when there is a tunnel, and those of
     the outside connections, none of them twice.
     */
    method Watched() returns (fds: seq<int>)
      requires Valid() && NoneTwice(fixed)
      ensures NoneTwice(fds)
      ensures forall fd :: fd in fds <==> fd in fixed || tunnel == Some(fd) || fd in model.table.Values
    {
      assert Bijective(tcpConnections.State());
      WatchedApart(CoreOf(model), Snapshot(), Fixed());
      hide Ties, IdsTie, UdpTies;
      var socks := tcpConnections.GetAllSockets();
      SocketsAreValues(model.table, tcpConnections.connections, socks);
      hide *;
      ListsJoined(fixed, tunnel, sockets, model.table, socks);
      fds := sockets + socks;
    }

    /** A frame written to the tunnel. */
    method SendFrame(connId: ConnId, mtype: MessageType, payload: seq<byte>, payloadLen: uint16)
      returns (ok: bool, ghost k: nat)
      requires Valid() && tunnel.Some? && payloadLen == |payload|
      modifies this`model, kernel
      ensures Valid() && model == S.Send(old(model), TunnelMessage(connId, mtype, payload), k)
      ensures k == old(Takes(|payload|)) && (ok <==> model.link.ok)
      ensures kernel.written.Keys == old(kernel.written.Keys)
    {
      ghost var r, m: Message := Snapshot(), TunnelMessage(connId, mtype, payload);
      hide Encode, Transmit, Links.Valid, Ties, UdpTies, IdsTie, FrameAccepted, Fixed;
      TunnelUsable(CoreOf(model), r, Fixed());
      ok, k := kernel.SendTunnelMessage(tunnel.fd, connId, mtype, payload, payloadLen);
      assert payload[..payloadLen] == payload;
      Sends(CoreOf(model), r, Fixed(), m, k);
      assert Snapshot() == Wrote(r, tunnel.fd, Encode(m)[..k], ok);
      model := S.Send(model, m, k);
    }

    /** removeConnection, which closes the connection's socket. */
    method RemoveConnection(id: ConnId)
      requires Valid()
      modifies this`model, kernel, tcpConnections
      ensures Valid() && model == S.Remove(old(model), id) && kernel.calls == old(kernel.calls)
      ensures kernel.written == old(kernel.written) - if id in old(model.table) then {old(model.table)[id]} else {}
    {
      hide Fixed, Ties, UdpTies, IdsTie;
      ghost var r := Snapshot();
      ConnectionOf(CoreOf(model), r, Fixed(), id);
      tcpConnections.RemoveConnection(id);
      assert Snapshot() == Removed(r, id);
      Removes(CoreOf(model), r, Fixed(), id);
      IdsRemoved(model, r.table.nextConnId, id);
      model := S.Remove(model, id);
    }

    /** A new descriptor, not yet used for anything. */
    method Open(fd: int)
      requires Valid() && fd !in kernel.written
      modifies kernel
      ensures Valid() && Unused(Snapshot(), Fixed(), fd)
      ensures fd !in model.table.Values && 1 <= model.nextId && kernel.calls == old(kernel.calls)
      ensures kernel.written.Keys == old(kernel.written.Keys) + {fd}
    {
      assert 1 <= model.nextId;
      hide Fixed, Ties, UdpTies, IdsTie, Unused;
      ghost var r := Snapshot();
      kernel.Open(fd);
      assert Snapshot() == Opened(r, fd);
      Opens(CoreOf(model), r, Fixed(), fd);
    }

    /** The tunnel's descriptor leaves the watch list and is closed; a descriptor not yet in use stays so. */
    method DropTunnel(ghost spare: int)
      requires Valid() && tunnel.Some?
      modifies this`model, this`tunnel, this`sockets, kernel
      ensures Valid() && model == S.Step(old(model), S.TunnelLost) && tunnel.None?
      ensures kernel.written == old(kernel.written) - {old(tunnel).fd} && kernel.calls == old(kernel.calls)
      ensures old(Unused(Snapshot(), Fixed(), spare)) ==> Unused(Snapshot(), Fixed(), spare)
    {
      hide Ties, UdpTies, IdsTie, Erase, Unused;
      ghost var r := Snapshot();
      if Unused(r, Fixed(), spare) {
        StaysUnused(r, Fixed(), spare);
      }
      TunnelApart(CoreOf(model), r, Fixed());
      EraseLast(fixed, tunnel.fd);
      hide Fixed;
      Drops(CoreOf(model), r, Fixed());
      sockets := Erase(sockets, tunnel.fd);
      assert sockets + [] == sockets;
      kernel.Close(tunnel.fd);
      tunnel := None;
      assert Snapshot() == Shut(r, {r.tunnel.fd}).(tunnel := None);
      model := S.Step(model, S.TunnelLost);
      IdsSame(old(model), model, tcpConnections.nextConnId);
    }

    /** The descriptor becomes the tunnel and joins the watch list. */
    method Install(fd: int)
      requires Valid() && tunnel.None? && Unused(Snapshot(), Fixed(), fd)
      modifies this`model, this`tunnel, this`sockets
      ensures Valid() && model == S.Step(old(model), S.AcceptTunnel) && tunnel == Some(fd)
    {
      hide Fixed, Ties, UdpTies, IdsTie, Unused;
      ghost var r := Snapshot();
      Installs(CoreOf(model), r, Fixed(), fd);
      tunnel := Some(fd);
      sockets := sockets + [fd];
      assert fixed + [] + [fd] == fixed + [fd];
      model := S.Step(model, S.AcceptTunnel);
      IdsSame(old(model), model, tcpConnections.nextConnId);
      assert Snapshot() == r.(tunnel := Some(fd));
    }

    /**
     The new socket exists before the old one is closed, so their descriptors differ; a negative fd is a
     failed accept.
     */
    method AcceptTunnel(fd: int)
      requires Valid() && (fd >= 0 ==> fd !in kernel.written)
      modifies this`model, this`tunnel, this`sockets, kernel
      ensures Valid() && model == if fd < 0 then old(model) else S.Step(old(model), S.AcceptTunnel)
      ensures tunnel == if fd < 0 then old(tunnel) else Some(fd)
      ensures fd >= 0 && old(tunnel).Some? ==> old(tunnel).fd !in kernel.written
      ensures kernel.written.Keys <= old(kernel.written.Keys) + (if fd < 0 then {} else {fd})
    {
      if fd >= 0 {
        hide Valid, Unused;
        Open(fd);
        if tunnel.Some? {
          DropTunnel(fd);
        }
        Install(fd);
      }
    }

    /** The connection gets the next id and its place in the table. */
    method Enter(fd: int) returns (connId: ConnId)
      requires Valid() && Unused(Snapshot(), Fixed(), fd) && model.nextId < ID_SPACE
      modifies this`model, kernel, tcpConnections
      ensures Valid() && 1 <= old(model).nextId && model == S.Enter(old(model), fd) && kernel.calls == old(kernel.calls)
      ensures connId == old(model).nextId && fd !in old(model).table.Values
    {
      hide Fixed, Ties, UdpTies, IdsTie, Unused, Add;
      ghost var r := Snapshot();
      IdsEntered(model, r.table.nextConnId, fd);
      NotInTable(CoreOf(model), r, Fixed(), r.table.nextConnId);
      Adds(CoreOf(model), r, Fixed(), r.table.nextConnId, fd, Next(r.table.nextConnId));
      AddCommutes(r.table, r.table.nextConnId, fd);
      connId := tcpConnections.AllocateConnId();
      tcpConnections.AddConnection(connId, Option.Some(fd));
      assert Snapshot() == r.(table := Add(r.table, connId, Option.Some(fd)).(nextConnId := Next(connId)));
      model := S.Enter(model, fd);
    }

    /** An outside connection: refused without a tunnel, otherwise entered and announced. */
    method AcceptOutside(fd: int) returns (ghost k: nat)
      requires Valid() && (fd >= 0 ==> fd !in kernel.written && model.nextId < ID_SPACE)
      modifies this`model, kernel, tcpConnections
      ensures Valid()
      ensures if fd < 0 then model == old(model)
              else S.Enabled(old(model), S.AcceptOutside(fd, k)) && model == S.Step(old(model), S.AcceptOutside(fd, k))
      ensures fd >= 0 && tunnel.Some? ==> k == old(Takes(0))
      ensures fd >= 0 && fd !in model.table.Values ==> fd !in kernel.written
    {
      hide Fixed, Ties, UdpTies, IdsTie, Unused;
      k := 0;
      if fd >= 0 {
        Open(fd);
        if tunnel.Some? {
          var connId, success;
          connId := Enter(fd);
          success, k := SendFrame(connId, TcpOpen, [], 0);
          assert connId in model.table && model.table[connId] == fd;
          if !success {
            RemoveConnection(connId);
          }
        } else {
          Closes(CoreOf(model), Snapshot(), Fixed(), fd);
          kernel.Close(fd);
        }
      }
    }

    /** A datagram from outside: its sender is remembered, and it is passed on when there is a tunnel. */
    method OutsideUdp(outcome: S.UdpOutcome) returns (ghost k: nat)
      requires Valid()
      modifies this`model, this`tunnel, this`sockets, this`lastUdpSender, this`hasUdpSender, kernel
      ensures Valid() && model == S.Step(old(model), S.OutsideUdp(outcome, k))
      ensures old(tunnel).Some? && outcome.Received? && outcome.data != [] ==> k == old(Takes(|outcome.data|))
      ensures old(tunnel).Some? && tunnel.None? ==> old(tunnel).fd !in kernel.written
    {
      hide Fixed, Ties, IdsTie, RepliesTie;
      k := 0;
      if outcome.Received? {
        ghost var u := model.udp.(lastSender := outcome.from, seen := model.udp.seen + [(outcome.from, outcome.data)]);
        var length := |outcome.data|;
        lastUdpSender := outcome.from;
        if length == 0 {
          model := model.(udp := u);
        } else {
          hasUdpSender := true;
          if tunnel.Some? {
            model := model.(udp := u.(hasSender := true, accepted := u.accepted + [outcome.data]));
            IdsSame(old(model), model, tcpConnections.nextConnId);
            var success;
            success, k := SendFrame(0, UdpPacket, outcome.data, length % 0x1_0000);
            if !success {
              DropTunnel(0);
            }
          } else {
            model := model.(udp := u.(hasSender := true));
          }
        }
        IdsSame(old(model), model, tcpConnections.nextConnId);
      }
    }

    /** What the sweep does for one connection whose descriptor is ready. */
    method OutsideRead(connId: ConnId, result: ReadOutcome) returns (ghost k: nat)
      requires Valid() && connId in model.table
      modifies this`model, kernel, tcpConnections
      ensures Valid() && model == S.Step(old(model), S.OutsideRead(connId, result, k))
      ensures tunnel.Some? && !result.WouldBlock? ==> k == old(Takes(if result.Data? then |result.bytes| else 0))
    {
      hide Fixed, Ties, IdsTie, UdpTies, Append;
      k := 0;
      match result
      case WouldBlock =>
      case Data(bytes) =>
        model := model.(read := Append(model.read, connId, bytes));
        IdsSame(old(model), model, tcpConnections.nextConnId);
        if tunnel.Some? {
          var success;
          success, k := SendFrame(connId, TcpData, bytes, |bytes|);
          if !success {
            RemoveConnection(connId);
          }
        }
      case _ =>
        if tunnel.Some? {
          var success;
          success, k := SendFrame(connId, TcpClose, [], 0);
        }
        RemoveConnection(connId);
    }

    /** getConnection, and the test that its socket can be used. */
    method Usable(connId: ConnId) returns (socket: Option)
      requires Valid()
      ensures socket == if connId in model.table then Option.Some(model.table[connId]) else Option.None
    {
      ConnectionOf(CoreOf(model), Snapshot(), Fixed(), connId);
      hide Fixed, Ties, IdsTie, UdpTies;
      if connId in tcpConnections.connections && tcpConnections.connections[connId].valid {
        socket := Option.Some(tcpConnections.connections[connId].socket);
      } else {
        socket := Option.None;
      }
    }

    /** One round of the sweep. */
    method Visit(connId: ConnId, ready: map<int, ReadOutcome>) returns (ghost v: Read)
      requires Valid() && connId in model.table
      modifies this`model, kernel, tcpConnections
      ensures Valid() && v.id == connId && v.result == Result(ready, old(model).table[connId])
      ensures model == S.Step(old(model), S.OutsideRead(v.id, v.result, v.k))
      ensures tunnel.Some? && !v.result.WouldBlock? ==>
                v.k == old(Takes(if v.result.Data? then |v.result.bytes| else 0))
    {
      hide Valid, S.Step;
      v := Read(connId, Result(ready, model.table[connId]), 0);
      var socket := Usable(connId);
      if socket.Some? && socket.fd in ready {
        ghost var k;
        k := OutsideRead(connId, ready[socket.fd]);
        v := v.(k := k);
      } else {
        NotRead(model, connId, 0);
      }
    }

    method Ids() returns (ids: seq<ConnId>)
      requires Valid()
      ensures Covers(ids, model.table)
    {
      KeysOf(CoreOf(model), Snapshot(), Fixed());
      hide Fixed, Ties, IdsTie, UdpTies;
      ids := tcpConnections.GetAllConnIds();
    }

    /**
     The sweep over a snapshot of the ids. Entries are removed on the way, but only the one being
     visited: every connection is visited once, in the order of the ids.
     */
    method Sweep(ready: map<int, ReadOutcome>) returns (ghost snapshot: seq<ConnId>, ghost visits: seq<Read>)
      requires Valid()
      modifies this`model, kernel, tcpConnections
      ensures Valid() && model == Replay(old(model), visits) && SweepOf(snapshot, visits, old(model).table, ready)
      ensures model.nextId == old(model).nextId
    {
      hide *;
      visits := [];
      var ids := Ids();
      snapshot := ids;
      ghost var table := model.table;
      VisitedNone(ids, table, ready);
      ReplayNothing(model);
      for i := 0 to |ids|
        invariant Valid() && model == Replay(old(model), visits)
        invariant Visited(visits, ids[..i], table, ready)
        invariant Pending(ids, i, table, model.table) && model.nextId == old(model).nextId
      {
        PendingNow(ids, i, table, model.table);
        ghost var v;
        v := Visit(ids[i], ready);
        Swept(old(model), visits, v, ids, i, ready);
        visits := visits + [v];
      }
      SweepEnds(ids, visits, table, ready);
    }

    /** TCPSocket::send on a connection's socket; n bytes of the payload are accepted. */
    method Deliver(connId: ConnId, fd: int, payload: seq<byte>) returns (sent: int, ghost n: nat)
      requires Valid() && connId in model.table && fd == model.table[connId]
      modifies this`model, kernel
      ensures Valid() && model == old(model).(delivered := Append(old(model).delivered, connId, Cut(payload, n)))
      ensures fd in old(kernel.written) && n == old(kernel.Taken(fd, |payload|)) && n <= |payload|
      ensures kernel.written == old(kernel.written)[fd := old(kernel.written)[fd] + payload[..n]]
      ensures sent == (if n == |payload| then n else -1)
      ensures kernel.calls == Attempts(kernel.script, old(kernel.calls), |payload|, fd in old(kernel.broken))
    {
      hide Fixed, Ties, IdsTie, UdpTies, Append, At;
      ghost var r := Snapshot();
      n := kernel.Taken(fd, |payload|);
      Delivers(CoreOf(model), r, Fixed(), connId, payload[..n], n == |payload|);
      sent := kernel.Send(fd, payload);
      assert Snapshot() == Wrote(r, fd, payload[..n], n == |payload|);
      assert Cut(payload, n) == payload[..n];
      model := model.(delivered := Append(model.delivered, connId, Cut(payload, n)));
      IdsSame(old(model), model, tcpConnections.nextConnId);
    }

    /** One message from the tunnel. */
    method HandleMessage(m: Message) returns (ghost env: S.Env)
      requires Valid() && tunnel.Some?
      modifies this`model, kernel, tcpConnections, outsideUdp
      ensures Valid() && model == S.Handle(old(model), m, env)
      ensures m.mtype.TcpData? && m.connId in old(model.table) ==>
                var fd, data := old(model.table)[m.connId], m.payload;
                && fd in old(kernel.written) && env.accepts == old(kernel.Taken(fd, |data|))
                && (env.accepts == |data| ==>
                      && m.connId in model.table && fd in kernel.written
                      && kernel.written[fd] == old(kernel.written)[fd] + data)
                && (env.accepts < |data| ==>
                      env.sends == FrameAccepted(kernel.script,
                        Attempts(kernel.script, old(kernel.calls), |data|, fd in old(kernel.broken)), 0,
                        !old(model).link.ok))
    {
      hide Fixed, Ties, IdsTie, Append;
      env := S.Env(0, 0);
      model := model.(handled := model.handled + [m]);
      IdsSame(old(model), model, tcpConnections.nextConnId);
      match m.mtype
      case UdpPacket =>
        if hasUdpSender {
          if |m.payload| > 0 {
            outsideUdp.Send(m.payload, lastUdpSender);
            model := model.(udp := model.udp.(replies :=
              model.udp.replies + [S.UdpReply(model.udp.lastSender, m.payload, |model.udp.seen|)]));
            IdsSame(old(model), model, tcpConnections.nextConnId);
          }
        }
      case TcpData =>
        hide UdpTies;
        var socket := Usable(m.connId);
        if socket.Some? {
          var sent, n := Deliver(m.connId, socket.fd, m.payload);
          env := env.(accepts := n);
          if sent < 0 {
            RemoveConnection(m.connId);
            ghost var k;
            var success;
            success, k := SendFrame(m.connId, TcpClose, [], 0);
            env := env.(sends := k);
          }
        }
      case TcpClose =>
        hide UdpTies;
        RemoveConnection(m.connId);
      case TcpOpen =>
    }

    /**
     The tunnel is readable: it was closed, or reading failed, or a chunk arrived, all of whose messages are
     handled.
     */
    method FromTunnel(outcome: TunnelOutcome) returns (ghost envs: seq<S.Env>)
      requires Ready() && tunnel.Some?
      modifies this`model, this`tunnel, this`sockets, kernel, tcpConnections, reconstructor, outsideUdp
      ensures Ready() && TunnelTurn(old(model), old(reconstructor.State()), outcome, envs, model, reconstructor.State())
      ensures model.nextId == old(model).nextId
      ensures tunnel.None? ==> old(tunnel).fd !in kernel.written
    {
      hide Collect, Fixed, Ties, IdsTie, UdpTies, S.Handle;
      envs := [];
      match outcome
      case Quiet =>
      case Received(bytes) =>
        ghost var d, done := Collect(reconstructor.State(), bytes), [];
        reconstructor.CollectFromTunnel(bytes);
        while reconstructor.HasMessages()
          invariant Valid() && tunnel.Some? && reconstructor.State() == d.parser
          invariant d.msgs == done + reconstructor.reconstructedMessages && |envs| == |done|
          invariant model == World.ServerHandles(old(model), done, envs) && model.nextId == old(model).nextId
          decreases |reconstructor.reconstructedMessages|
        {
          var msg := reconstructor.FrontMessage();
          ghost var env;
          HandleIds(model, msg);
          env := HandleMessage(msg);
          HandlesSnoc(old(model), done, envs, msg, env);
          done, envs := done + [msg], envs + [env];
          reconstructor.PopMessage();
        }
        assert done == d.msgs;
      case _ => DropTunnel(0);
    }

    /** The accepting branches of one turn, and the datagram. */
    method Arrive(t: Turn) returns (ghost c: Choices)
      requires Ready() && t.Reported? && Possible(t, kernel.written.Keys) == t
      requires t.newOutside >= 0 ==> model.nextId < ID_SPACE
      modifies this`model, this`tunnel, this`sockets, this`lastUdpSender, this`hasUdpSender, kernel, tcpConnections
      ensures Ready() && model == Arrivals(old(model), t, c.outsideSends, c.datagramSends)
          && model.nextId <= old(model).nextId + (if t.newOutside >= 0 then 1 else 0)
    {
      hide Valid, S.OnAccept, S.OnUdp, Collect;
      ghost var k;
      AcceptTunnel(t.newTunnel);
      k := AcceptOutside(t.newOutside);
      c := Choices(k, 0, [], [], []);
      k := OutsideUdp(t.datagram);
      c := c.(datagramSends := k);
      ArrivalIds(old(model), t, c.outsideSends, c.datagramSends);
    }

    /** One turn of the dispatch loop. */
    method OneTurn(t: Turn) returns (ghost c: Choices)
      requires Ready() && t.Reported? && Possible(t, kernel.written.Keys) == t
      requires t.newOutside >= 0 ==> model.nextId < ID_SPACE
      modifies this`model, this`tunnel, this`sockets, this`lastUdpSender, this`hasUdpSender
      modifies kernel, tcpConnections, reconstructor, outsideUdp
      ensures Ready() && TurnOf(old(model), old(reconstructor.State()), t, c, model, reconstructor.State())
      ensures model.nextId <= old(model).nextId + (if t.newOutside >= 0 then 1 else 0)
    {
      hide Fixed, Ties, IdsTie, UdpTies, Arrivals, SweepOf, TunnelTurn, Collect, Replay, Possible, Parser.Drained;
      c := Arrive(t);
      ghost var ids, visits;
      ids, visits := Sweep(t.ready);
      c := c.(ids := ids, visits := visits);
      ghost var s4 := model;
      if tunnel.Some? {
        ghost var envs;
        envs := FromTunnel(t.fromTunnel);
        c := c.(envs := envs);
      }
    }

    /** select is called on the watched descriptors, and a turn follows. */
    method NextRound(given: Turn) returns (fds: seq<int>, ghost r: Round)
      requires Ready() && NoneTwice(fixed) && given.Reported?
      requires given.newOutside >= 0 ==> model.nextId < ID_SPACE
      modifies this`model, this`tunnel, this`sockets, this`lastUdpSender, this`hasUdpSender
      modifies kernel, tcpConnections, reconstructor, outsideUdp
      ensures Ready() && model.nextId <= old(model).nextId + (if given.newOutside >= 0 then 1 else 0)
      ensures r.given == given && r.open == old(kernel.written).Keys && (r.server, r.parser) ==
          (model, reconstructor.State())
      ensures RoundOf((old(model), old(reconstructor.State())), r)
      ensures NoneTwice(fds)
    {
      fds := Watched();
      hide Fixed, Ties, IdsTie, UdpTies, TurnOf;
      ghost var open := kernel.written.Keys;
      ghost var c;
      c := OneTurn(Possible(given, kernel.written.Keys));
      r := Round(given, open, c, model, reconstructor.State());
    }

    /** dispatch_loop: from its start to its end the model goes through the turns reported, and no others. */
    method DispatchLoop(turns: seq<Turn>) returns (ghost rounds: seq<Round>)
      requires Ready() && NoneTwice(fixed) && model.nextId + Accepting(turns) <= ID_SPACE
      modifies this`model, this`tunnel, this`sockets, this`lastUdpSender, this`hasUdpSender
      modifies kernel, tcpConnections, reconstructor, outsideUdp
      ensures Ready() && RunOf(old(model), old(reconstructor.State()), rounds, Worked(turns))
      ensures After(old(model), old(reconstructor.State()), rounds) == (model, reconstructor.State())
    {
      hide Ready, Worked, Accepting, RunOf, RoundOf, NoneTwice;
      rounds := [];
      RunNone(model, reconstructor.State(), turns);
      assert turns[0..] == turns;
      ghost var done: seq<Turn> := [];
      var contLoop, i := true, 0;
      while contLoop && i < |turns|
        invariant i <= |turns| && Ready() && model.nextId + Accepting(turns[i..]) <= ID_SPACE
        invariant RunOf(old(model), old(reconstructor.State()), rounds, done)
        invariant After(old(model), old(reconstructor.State()), rounds) == (model, reconstructor.State())
        invariant Worked(turns) == done + if contLoop then Worked(turns[i..]) else []
        decreases |turns| - i
      {
        WorkedNext(turns, i);
        AcceptingNext(turns, i);
        match turns[i] {
          case Interrupted =>
            i := i + 1;
          case SelectFailed =>
            assert Worked(turns) == done;
            break;
          case Reported(quit, _, _, _, _, _) =>
            if quit {
              contLoop := false;
            }
            var fds;
            ghost var r;
            fds, r := NextRound(turns[i]);
            RunSnoc(old(model), old(reconstructor.State()), rounds, done, r);
            rounds, done := rounds + [r], done + [turns[i]];
            i := i + 1;
        }
      }
      assert i == |turns| ==> turns[i..] == [];
      assert done + [] == done;
      assert Worked(turns) == done;
    }
  }
}
