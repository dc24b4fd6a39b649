/** What one turn of a loop takes in. */
module Turns {
  // Every connection whose descriptor is ready is read, once, and what the read returns is what is recorded for
  // it; nothing else is.

  import opened Protocol
  import opened Reassembly
  import opened Links
  import opened Parties
  import opened ConnectionTable
  import opened Watching
  import opened Inputs
  import opened Effects
  import World
  import S = ServerModel
  import C = ClientModel
  import SD = ServerDispatch
  import CD = ClientDispatch

  /** The bytes to be had from a descriptor. */
  function ReadyBytes(ready: map<int, ReadOutcome>, fd: int): seq<byte> {
    if fd in ready && ready[fd].Data? then ready[fd].bytes else []
  }

  lemma OneMore(ids: seq<ConnId>, n: nat, id: ConnId)
    requires Increasing(ids) && n < |ids|
    ensures id in ids[..n + 1] <==> id in ids[..n] || id == ids[n]
    ensures id == ids[n] ==> id !in ids[..n]
  {
    assert ids[..n + 1] == ids[..n] + [ids[n]];
  }

  lemma VisitedInit(visits: seq<Read>, ids: seq<ConnId>, n: nat, table: map<ConnId, int>, ready: map<int, ReadOutcome>)
    requires |visits| == n + 1 <= |ids| && Visited(visits, ids[..n + 1], table, ready)
    ensures Visited(visits[..n], ids[..n], table, ready)
    ensures var v := visits[n]; ids[n] in table && v.id == ids[n] && v.result == Result(ready, table[ids[n]])
  {
    assert ids[..n + 1][n] == ids[n];
    assert forall i | 0 <= i < n :: ids[..n + 1][i] == ids[..n][i];
  }

  lemma IdsIncrease(ids: seq<ConnId>, table: map<ConnId, int>)
    requires Covers(ids, table)
    ensures Increasing(ids)
  {
  }

  lemma ReadOnce(start: seq<byte>, before: seq<byte>, now: seq<byte>, bytes: seq<byte>, earlier: bool, here: bool)
    requires before == start + (if earlier then bytes else []) && now == before + (if here then bytes else [])
    requires here ==> !earlier
    ensures now == start + if earlier || here then bytes else []
  {
    assert start + [] == start && before + [] == before;
  }

  // ---------- server ----------

  lemma OutsideVisit(s: S.Server, v: Read, ready: map<int, ReadOutcome>, fd: int, id: ConnId)
    requires v.id in s.table && v.result == Result(ready, fd)
    ensures ServerReadsOf(s, S.OutsideRead(v.id, v.result, v.k), id) ==
            if id == v.id then ReadyBytes(ready, fd) else []
  {
  }

  lemma {:induction false} ServerSweepReads(s: S.Server, visits: seq<Read>, ids: seq<ConnId>,
                                            ready: map<int, ReadOutcome>, id: ConnId)
    requires Covers(ids, s.table) && |visits| <= |ids| && Visited(visits, ids[..|visits|], s.table, ready)
    ensures Pending(ids, |visits|, s.table, SD.Replay(s, visits).table)
    ensures At(SD.Replay(s, visits).read, id) ==
            At(s.read, id) + if id in ids[..|visits|] && id in s.table then ReadyBytes(ready, s.table[id]) else []
    decreases |visits|
  {
    if visits == [] {
      VisitedNone(ids, s.table, ready);
      assert At(s.read, id) + [] == At(s.read, id);
    } else {
      var n := |visits| - 1;
      var init, v := visits[..n], visits[n];
      assert visits == init + [v];
      hide *;
      VisitedInit(visits, ids, n, s.table, ready);
      ServerSweepReads(s, init, ids, ready, id);
      var before := SD.Replay(s, init);
      SD.ReplaySnoc(s, init, v);
      PendingNow(ids, n, s.table, before.table);
      OutsideVisit(before, v, ready, s.table[ids[n]], id);
      ServerReadsExactly(before, S.OutsideRead(v.id, v.result, v.k), id);
      SD.ReadTable(before, v);
      PendingStays(ids, n, s.table, before.table, SD.Replay(s, visits).table);
      IdsIncrease(ids, s.table);
      OneMore(ids, n, id);
      if id in s.table {
        ReadOnce(At(s.read, id), At(before.read, id), At(SD.Replay(s, visits).read, id),
                 ReadyBytes(ready, s.table[id]), id in ids[..n], id == ids[n]);
      }
    }
  }

  lemma ArrivalsReadNothing(s: S.Server, t: SD.Turn, j: nat, k: nat, id: ConnId)
    requires t.Reported?
    ensures At(SD.Arrivals(s, t, j, k).read, id) == At(s.read, id)
  {
    var s1 := if t.newTunnel < 0 then s else S.Step(s, S.AcceptTunnel);
    var accept := S.AcceptOutside(t.newOutside, j);
    var s2 := if t.newOutside < 0 || !S.Enabled(s1, accept) then s1 else S.Step(s1, accept);
    ServerReadsExactly(s, S.AcceptTunnel, id);
    if S.Enabled(s1, accept) {
      ServerReadsExactly(s1, accept, id);
    }
    ServerReadsExactly(s2, S.OutsideUdp(t.datagram, k), id);
    hide S.Step, At;
  }

  lemma TunnelReadsNothing(s: S.Server, p: Parser, outcome: SD.TunnelOutcome, envs: seq<S.Env>, s': S.Server,
                           p': Parser)
    requires p.Valid() && SD.TunnelTurn(s, p, outcome, envs, s', p')
    ensures s'.read == s.read
  {
    match outcome
    case Received(bytes) =>
      ReadByNone(s, Collect(p, bytes).msgs, envs);
      hide Collect, World.ServerHandles;
    case _ => hide Collect, World.ServerHandles;
  }

  /**
   A turn of the server's loop reads from every connection that is in the table after the turn's arrivals,
   and whose descriptor is ready, exactly what there is to be had, and nothing from any other.
   */
  lemma ServerTurnReads(s: S.Server, p: Parser, t: SD.Turn, c: SD.Choices, s': S.Server, p': Parser, id: ConnId)
    requires t.Reported? && p.Valid() && SD.TurnOf(s, p, t, c, s', p')
    ensures var table := SD.Arrivals(s, t, c.outsideSends, c.datagramSends).table;
            At(s'.read, id) == At(s.read, id) + if id in table then ReadyBytes(t.ready, table[id]) else []
  {
    var s3 := SD.Arrivals(s, t, c.outsideSends, c.datagramSends);
    var s4 := SD.Replay(s3, c.visits);
    assert c.ids[..|c.ids|] == c.ids;
    ArrivalsReadNothing(s, t, c.outsideSends, c.datagramSends, id);
    ServerSweepReads(s3, c.visits, c.ids, t.ready, id);
    if s4.held {
      TunnelReadsNothing(s4, p, t.fromTunnel, c.envs, s', p');
    }
    hide SD.Arrivals, SD.Replay, SD.TunnelTurn, At, Pending, ReadyBytes;
  }

  /**
   What a turn of the server's loop does with the rest: a new tunnel is a new session, the datagram is
   remembered, an outside connection gets an id if there is a tunnel, a tunnel that is closed or fails is given
   up, and of a chunk every message it completes is handled, in order.
   */
  lemma ServerTurnTakes(s: S.Server, p: Parser, t: SD.Turn, c: SD.Choices, s': S.Server, p': Parser)
    requires t.Reported? && p.Valid() && SD.TurnOf(s, p, t, c, s', p') && SenderKnown(s.udp)
    ensures s'.session == s.session + if t.newTunnel >= 0 then 1 else 0
    ensures s'.udp.seen == s.udp.seen + if t.datagram.Received? then [(t.datagram.from, t.datagram.data)] else []
    ensures t.newOutside >= 0 && S.Enabled(s, S.AcceptOutside(t.newOutside, c.outsideSends)) ==>
              s'.nextId == s.nextId + if s.held || t.newTunnel >= 0 then 1 else 0
    ensures t.fromTunnel.Closed? || t.fromTunnel.Failed? ==> !s'.held
    ensures s'.handled ==
            s.handled + if t.fromTunnel.Received? && s'.held then Collect(p, t.fromTunnel.bytes).msgs else []
  {
    var s3 := SD.Arrivals(s, t, c.outsideSends, c.datagramSends);
    var s4 := SD.Replay(s3, c.visits);
    ArrivalsTake(s, t, c.outsideSends, c.datagramSends);
    SweepTakes(s3, c.visits);
    if s4.held {
      TunnelTakes(s4, p, t.fromTunnel, c.envs, s', p');
    }
    assert s.handled + [] == s.handled;
    hide SD.Arrivals, SD.Replay, SD.TunnelTurn, Collect, SD.SweepOf, SenderKnown;
  }

  lemma ArrivalsTake(s: S.Server, t: SD.Turn, j: nat, k: nat)
    requires t.Reported? && SenderKnown(s.udp)
    ensures var a := SD.Arrivals(s, t, j, k);
            && a.session == s.session + (if t.newTunnel >= 0 then 1 else 0) && a.handled == s.handled
            && (t.newOutside >= 0 && S.Enabled(s, S.AcceptOutside(t.newOutside, j)) ==>
                  a.nextId == s.nextId + if s.held || t.newTunnel >= 0 then 1 else 0)
            && SenderKnown(a.udp) && a.udp.seen == s.udp.seen +
                 if t.datagram.Received? then [(t.datagram.from, t.datagram.data)] else []
  {
    var s1 := if t.newTunnel < 0 then s else S.Step(s, S.AcceptTunnel);
    var accept := S.AcceptOutside(t.newOutside, j);
    var s2 := if t.newOutside < 0 || !S.Enabled(s1, accept) then s1 else S.Step(s1, accept);
    BranchTakes(s, S.AcceptTunnel);
    assert s1.table == s.table && s1.nextId == s.nextId && (s1.held <==> s.held || t.newTunnel >= 0);
    if S.Enabled(s1, accept) {
      BranchTakes(s1, accept);
    }
    BranchTakes(s2, S.OutsideUdp(t.datagram, k));
    assert s.udp.seen + [] == s.udp.seen;
    hide S.Step, SenderKnown;
  }

  lemma BranchTakes(s: S.Server, step: S.ServerStep)
    requires S.Enabled(s, step) && SenderKnown(s.udp)
    ensures var t := S.Step(s, step);
            && t.session == s.session + (if step.AcceptTunnel? then 1 else 0) && t.handled == s.handled
            && t.nextId == s.nextId + (if step.AcceptOutside? && s.held then 1 else 0)
            && SenderKnown(t.udp) && t.udp.seen == s.udp.seen +
                 if step.OutsideUdp? && step.outcome.Received? then [(step.outcome.from, step.outcome.data)] else []
  {
    ServerHolds(s, step);
    ServerDatagrams(s, step);
    ServerIssues(s, step);
    NothingHandled(s, step);
    hide S.Step, SenderKnown;
  }

  lemma NothingHandled(s: S.Server, step: S.ServerStep)
    requires S.Enabled(s, step)
    ensures S.Step(s, step).handled == s.handled
  {
    hide Transmit, Append;
  }

  lemma {:induction false} SweepTakes(s: S.Server, visits: seq<Read>)
    requires SenderKnown(s.udp)
    ensures var t := SD.Replay(s, visits);
            && t.session == s.session && t.handled == s.handled && t.nextId == s.nextId
            && SenderKnown(t.udp) && t.udp.seen == s.udp.seen
    decreases |visits|
  {
    if visits != [] {
      var init, v := visits[..|visits| - 1], visits[|visits| - 1];
      SweepTakes(s, init);
      BranchTakes(SD.Replay(s, init), S.OutsideRead(v.id, v.result, v.k));
      hide S.Step, SenderKnown;
    }
  }

  lemma TunnelTakes(s: S.Server, p: Parser, outcome: SD.TunnelOutcome, envs: seq<S.Env>, s': S.Server, p': Parser)
    requires p.Valid() && SD.TunnelTurn(s, p, outcome, envs, s', p') && s.held && SenderKnown(s.udp)
    ensures s'.session == s.session && s'.udp.seen == s.udp.seen && s'.nextId == s.nextId
    ensures s'.held <==> !outcome.Closed? && !outcome.Failed?
    ensures s'.handled == s.handled + if outcome.Received? then Collect(p, outcome.bytes).msgs else []
  {
    assert s.handled + [] == s.handled;
    if outcome.Received? {
      HandlesInputs(s, Collect(p, outcome.bytes).msgs, envs);
      AllHandled(s, Collect(p, outcome.bytes).msgs, envs);
    }
    hide Collect, World.ServerHandles, SenderKnown;
  }

  lemma {:induction false} AllHandled(s: S.Server, ms: seq<Message>, envs: seq<S.Env>)
    ensures var t := World.ServerHandles(s, ms, envs);
            t.handled == s.handled + ms && t.held == s.held && t.session == s.session
    decreases |ms|
  {
    hide S.Handle;
    if ms != [] {
      var env := if envs == [] then S.Env(0, 0) else envs[0];
      ServerKeeps(s, ms[0], env);
      AllHandled(S.Handle(s, ms[0], env), ms[1..], if envs == [] then [] else envs[1..]);
      assert [ms[0]] + ms[1..] == ms;
    }
  }

  // ---------- client ----------

  lemma DestinationVisit(c: C.Client, v: Read, ready: map<int, ReadOutcome>, fd: int, id: ConnId)
    requires v.id in c.table && v.result == Result(ready, fd)
    ensures ClientReadsOf(c, C.DestinationRead(v.id, v.result, v.k), id) ==
            if id == v.id then ReadyBytes(ready, fd) else []
  {
  }

  lemma {:induction false} ClientSweepReads(c: C.Client, visits: seq<Read>, ids: seq<ConnId>,
                                            ready: map<int, ReadOutcome>, id: ConnId)
    requires Covers(ids, c.table) && |visits| <= |ids| && Visited(visits, ids[..|visits|], c.table, ready)
    ensures Pending(ids, |visits|, c.table, CD.Replay(c, visits).table)
    ensures At(CD.Replay(c, visits).read, id) ==
            At(c.read, id) + if id in ids[..|visits|] && id in c.table then ReadyBytes(ready, c.table[id]) else []
    decreases |visits|
  {
    if visits == [] {
      VisitedNone(ids, c.table, ready);
      assert At(c.read, id) + [] == At(c.read, id);
    } else {
      var n := |visits| - 1;
      var init, v := visits[..n], visits[n];
      assert visits == init + [v];
      hide *;
      VisitedInit(visits, ids, n, c.table, ready);
      ClientSweepReads(c, init, ids, ready, id);
      var before := CD.Replay(c, init);
      CD.ReplaySnoc(c, init, v);
      PendingNow(ids, n, c.table, before.table);
      DestinationVisit(before, v, ready, c.table[ids[n]], id);
      ClientReadsExactly(before, C.DestinationRead(v.id, v.result, v.k), id);
      CD.ReadTable(before, v);
      PendingStays(ids, n, c.table, before.table, CD.Replay(c, visits).table);
      IdsIncrease(ids, c.table);
      OneMore(ids, n, id);
      if id in c.table {
        ReadOnce(At(c.read, id), At(before.read, id), At(CD.Replay(c, visits).read, id),
                 ReadyBytes(ready, c.table[id]), id in ids[..n], id == ids[n]);
      }
    }
  }

  /** A sweep that stops before its end has ended the loop. */
  lemma StoppedSweep(c: C.Client, visits: seq<Read>, ids: seq<ConnId>, ready: map<int, ReadOutcome>)
    requires CD.SweepOf(c, ids, visits, ready) && |visits| < |ids|
    ensures !CD.Replay(c, visits).contLoop
  {
    assert CD.NoFailure(c, []);
    var n := |visits| - 1;
    var init, v := visits[..n], visits[n];
    var before := CD.Replay(c, init);
    assert visits == init + [v] && v.result.Data? && !CD.Replay(c, visits).link.ok;
    hide CD.SweepOf, CD.NoFailure, CD.Replay, C.Step, Covers, Pending, Visited, GoesOut;
    assert Covers(ids, c.table)
        && Visited(visits, ids[..|visits|], c.table, ready) by { OfSweep(c, visits, ids, ready); }
    VisitedInit(visits, ids, n, c.table, ready);
    ClientSweepReads(c, init, ids, ready, 0);
    CD.ReplaySnoc(c, init, v);
    PendingNow(ids, n, c.table, before.table);
    FailedRead(before, v);
  }

  lemma OfSweep(c: C.Client, visits: seq<Read>, ids: seq<ConnId>, ready: map<int, ReadOutcome>)
    requires CD.SweepOf(c, ids, visits, ready)
    ensures Covers(ids, c.table) && |visits| <= |ids| && Visited(visits, ids[..|visits|], c.table, ready)
  {
  }

  lemma FailedRead(c: C.Client, v: Read)
    requires v.id in c.table && v.result.Data?
    requires !C.Step(c, C.DestinationRead(v.id, v.result, v.k)).link.ok
    ensures !C.Step(c, C.DestinationRead(v.id, v.result, v.k)).contLoop
  {
    var step := C.DestinationRead(v.id, v.result, v.k);
    ClientSends(c, step);
    ClientContinues(c, step);
    hide C.Step, GoesOut;
  }

  /** The client when the sweep of a turn begins. */
  function SweepStart(c: C.Client, p: Parser, t: CD.Turn, ch: CD.Choices): C.Client
    requires t.Reported? && p.Valid()
  {
    var c1 := if t.quit then C.Step(c, C.UserQuits) else c;
    var c2 :=
      match t.fromTunnel
      case Quiet => c1
      case Received(bytes, _) => World.ClientHandles(c1, Collect(p, bytes).msgs, ch.envs)
      case _ => C.Step(c1, C.TunnelLost);
    C.Step(c2, C.DestinationUdp(t.datagram, ch.datagramSends))
  }

  lemma NothingReadBefore(c: C.Client, p: Parser, t: CD.Turn, ch: CD.Choices, id: ConnId)
    requires t.Reported? && p.Valid()
    ensures At(SweepStart(c, p, t, ch).read, id) == At(c.read, id)
  {
    hide C.Step, World.ClientHandles, Collect, At;
    var c1 := if t.quit then C.Step(c, C.UserQuits) else c;
    ClientReadsExactly(c, C.UserQuits, id);
    ClientReadsExactly(c1, C.TunnelLost, id);
    var c2 := c1;
    match t.fromTunnel {
      case Quiet =>
      case Received(bytes, _) =>
        ClientHandlesRead(c1, Collect(p, bytes).msgs, ch.envs);
        c2 := World.ClientHandles(c1, Collect(p, bytes).msgs, ch.envs);
      case _ =>
        c2 := C.Step(c1, C.TunnelLost);
    }
    ClientReadsExactly(c2, C.DestinationUdp(t.datagram, ch.datagramSends), id);
  }

  /**
   A turn of the client's loop reads from the connections whose descriptors are ready exactly what there is
   to be had: from all of them when the loop goes on, and otherwise from those before the one whose data could
   not be passed on, and that one.
   */
  lemma ClientTurnReads(c: C.Client, p: Parser, t: CD.Turn, ch: CD.Choices, c': C.Client, p': Parser, id: ConnId)
    requires t.Reported? && p.Valid() && CD.TurnOf(c, p, t, ch, c', p')
    ensures var table := SweepStart(c, p, t, ch).table;
            && |ch.visits| <= |ch.ids| && Covers(ch.ids, table)
            && At(c'.read, id) ==
                 At(c.read, id) +
                 (if id in ch.ids[..|ch.visits|] && id in table then ReadyBytes(t.ready, table[id]) else [])
            && (c'.contLoop ==> ch.ids[..|ch.visits|] == ch.ids)
  {
    var c3 := SweepStart(c, p, t, ch);
    TurnSweeps(c, p, t, ch, c', p');
    NothingReadBefore(c, p, t, ch, id);
    ClientSweepReads(c3, ch.visits, ch.ids, t.ready, id);
    if |ch.visits| < |ch.ids| {
      StoppedSweep(c3, ch.visits, ch.ids, t.ready);
    } else {
      assert ch.ids[..|ch.ids|] == ch.ids;
    }
    hide SweepStart, CD.Replay, At, ReadyBytes, CD.TurnOf, Pending, Covers, Visited, CD.NoFailure;
  }

  lemma TurnSweeps(c: C.Client, p: Parser, t: CD.Turn, ch: CD.Choices, c': C.Client, p': Parser)
    requires t.Reported? && p.Valid() && CD.TurnOf(c, p, t, ch, c', p')
    ensures var c3 := SweepStart(c, p, t, ch);
            CD.SweepOf(c3, ch.ids, ch.visits, t.ready) && c' == CD.Replay(c3, ch.visits)
  {
    hide C.Step, CD.Replay, Collect, World.ClientHandles, CD.SweepOf, CD.EnvsFor;
  }

  /**
   What a turn of the client's loop does with the rest: the loop goes on only when the user does not quit and
   the tunnel is neither closed nor failed, the datagram is recorded unless it is empty, and of a chunk every
   message it completes is handled, in order.
   */
  lemma ClientTurnTakes(c: C.Client, p: Parser, t: CD.Turn, ch: CD.Choices, c': C.Client, p': Parser)
    requires t.Reported? && p.Valid() && CD.TurnOf(c, p, t, ch, c', p') && c.contLoop
    ensures c'.contLoop ==> !t.quit && !t.fromTunnel.Closed? && !t.fromTunnel.Failed?
    ensures c'.userQuit <==> c.userQuit || t.quit
    ensures c'.session == c.session
    ensures c'.udpRead == c.udpRead + if t.datagram == [] then [] else [t.datagram]
    ensures c'.handled ==
            c.handled + if t.fromTunnel.Received? then Collect(p, t.fromTunnel.bytes).msgs else []
  {
    TurnSweeps(c, p, t, ch, c', p');
    StartTakes(c, p, t, ch);
    ClientSweepTakes(SweepStart(c, p, t, ch), ch.visits);
    hide *;
  }

  lemma StartTakes(c: C.Client, p: Parser, t: CD.Turn, ch: CD.Choices)
    requires t.Reported? && p.Valid() && c.contLoop
    ensures var d := SweepStart(c, p, t, ch);
            && (d.contLoop ==> !t.quit && !t.fromTunnel.Closed? && !t.fromTunnel.Failed?)
            && (d.userQuit <==> c.userQuit || t.quit) && d.session == c.session
            && d.udpRead == c.udpRead + (if t.datagram == [] then [] else [t.datagram])
            && d.handled == c.handled + if t.fromTunnel.Received? then Collect(p, t.fromTunnel.bytes).msgs else []
  {
    assert c.handled + [] == c.handled && c.udpRead + [] == c.udpRead;
    hide C.Step, World.ClientHandles, Collect;
    var c1 := if t.quit then C.Step(c, C.UserQuits) else c;
    ClientBranchTakes(c, C.UserQuits);
    ClientBranchTakes(c1, C.TunnelLost);
    var c2 := c1;
    match t.fromTunnel {
      case Quiet =>
      case Received(bytes, _) =>
        ClientAllHandled(c1, Collect(p, bytes).msgs, ch.envs);
        c2 := World.ClientHandles(c1, Collect(p, bytes).msgs, ch.envs);
      case _ =>
        c2 := C.Step(c1, C.TunnelLost);
    }
    ClientBranchTakes(c2, C.DestinationUdp(t.datagram, ch.datagramSends));
  }

  /** A branch other than a connect: it may end the loop, handles nothing, and records a datagram. */
  lemma ClientBranchTakes(c: C.Client, step: C.ClientStep)
    requires C.Enabled(c, step) && !step.ConnectTunnel?
    ensures var d := C.Step(c, step);
            && (d.contLoop ==> c.contLoop && !step.UserQuits? && !step.TunnelLost?)
            && (d.userQuit <==> c.userQuit || step.UserQuits?) && d.session == c.session && d.handled == c.handled
            && d.udpRead == c.udpRead + if step.DestinationUdp? && step.data != [] then [step.data] else []
  {
    ClientContinues(c, step);
    ClientReadsExactly(c, step, 0);
    ClientNothingHandled(c, step);
    hide C.Step, At;
  }

  lemma ClientNothingHandled(c: C.Client, step: C.ClientStep)
    requires C.Enabled(c, step) && !step.ConnectTunnel?
    ensures C.Step(c, step).handled == c.handled
  {
    hide Transmit, Append;
  }

  lemma {:induction false} ClientSweepTakes(c: C.Client, visits: seq<Read>)
    ensures var d := CD.Replay(c, visits);
            && (d.contLoop ==> c.contLoop) && d.userQuit == c.userQuit && d.session == c.session
            && d.handled == c.handled && d.udpRead == c.udpRead
    decreases |visits|
  {
    if visits != [] {
      var init, v := visits[..|visits| - 1], visits[|visits| - 1];
      ClientSweepTakes(c, init);
      ClientBranchTakes(CD.Replay(c, init), C.DestinationRead(v.id, v.result, v.k));
      assert c.udpRead + [] == c.udpRead;
      hide C.Step;
    }
  }

  lemma {:induction false} ClientAllHandled(c: C.Client, ms: seq<Message>, envs: seq<C.Env>)
    ensures var d := World.ClientHandles(c, ms, envs);
            && d.handled == c.handled + ms && d.contLoop == c.contLoop && d.userQuit == c.userQuit
            && d.session == c.session && d.udpRead == c.udpRead
    decreases |ms|
  {
    hide C.Handle;
    if ms != [] {
      var env := if envs == [] then C.Env(C.Refused, 0, 0) else envs[0];
      ClientKeeps(c, ms[0], env);
      ClientAllHandled(C.Handle(c, ms[0], env), ms[1..], if envs == [] then [] else envs[1..]);
      assert [ms[0]] + ms[1..] == ms;
    }
  }
}
