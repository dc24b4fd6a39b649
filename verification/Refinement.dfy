/** The two dispatch loops refine the transition system. */
module Refinement {
  // Every turn of either loop that reads from its tunnel what the other side wrote is a stretch of a run of the two
  // parties. So what is proved of all runs holds of the programs.

  import opened Protocol
  import opened Reassembly
  import opened Links
  import opened Parties
  import opened Watching
  import opened World
  import opened Agreement
  import opened Inputs
  import opened Theorems
  import opened WorldInvariant
  import opened Seqs
  import opened Binding
  import S = ServerModel
  import C = ClientModel
  import SD = ServerDispatch
  import CD = ClientDispatch

  // ---------- server ----------

  function ServerReadStep(v: Read): Step {
    OfServer(S.OutsideRead(v.id, v.result, v.k))
  }

  function ServerVisits(visits: seq<Read>): seq<Step> {
    if visits == [] then [] else ServerVisits(visits[..|visits| - 1]) + [ServerReadStep(visits[|visits| - 1])]
  }

  lemma ServerLocal(w: World, step: S.ServerStep)
    requires w.serverRec.Valid() && w.clientRec.Valid()
    requires !step.AcceptTunnel? && S.Enabled(w.server, step)
    ensures Apply(w, OfServer(step)) == w.(server := S.Step(w.server, step))
  {
    hide S.Step;
  }

  lemma {:induction false} ServerSweep(w: World, visits: seq<Read>)
    requires w.serverRec.Valid() && w.clientRec.Valid()
    ensures ApplyAll(w, ServerVisits(visits)) == w.(server := SD.Replay(w.server, visits))
    decreases |visits|
  {
    if visits != [] {
      var init, v := visits[..|visits| - 1], visits[|visits| - 1];
      ServerSweep(w, init);
      hide Apply, S.Step;
      ApplySnoc(w, ServerVisits(init), ServerReadStep(v));
      ServerLocal(ApplyAll(w, ServerVisits(init)), S.OutsideRead(v.id, v.result, v.k));
    }
  }

  /** The bytes are the next the server can read from its tunnel. */
  predicate ServerNext(w: World, bytes: seq<byte>) {
    && 0 < |bytes| <= MAX_TUNNEL_READ && w.upRead + |bytes| <= |Bytes(UpLink(w))|
    && bytes == Bytes(UpLink(w))[w.upRead..w.upRead + |bytes|]
  }

  /** The arrivals of a turn, as steps. */
  function ServerArrivals(t: SD.Turn, c: SD.Choices): seq<Step>
    requires t.Reported?
  {
    (if t.newTunnel < 0 then [] else [OfServer(S.AcceptTunnel)])
    + (if t.newOutside < 0 then [] else [OfServer(S.AcceptOutside(t.newOutside, c.outsideSends))])
    + [OfServer(S.OutsideUdp(t.datagram, c.datagramSends))]
  }

  /** Only the server's side has changed, and not what it has reassembled. */
  predicate ServerOnly(w: World, w': World) {
    w'.client == w.client && w'.serverRec == w.serverRec && w'.clientRec == w.clientRec
  }

  lemma AcceptStep(w: World, t: SD.Turn)
    requires w.serverRec.Valid() && w.clientRec.Valid() && t.Reported?
    requires t.newTunnel >= 0 ==> w.server.session < w.client.session
    ensures var w1 := ApplyAll(w, if t.newTunnel < 0 then [] else [OfServer(S.AcceptTunnel)]);
            ServerOnly(w, w1) && w1.server == if t.newTunnel < 0 then w.server else S.Step(w.server, S.AcceptTunnel)
  {
    assert ApplyAll(w, []) == w;
    if t.newTunnel >= 0 {
      ApplySnoc(w, [], OfServer(S.AcceptTunnel));
      assert [] + [OfServer(S.AcceptTunnel)] == [OfServer(S.AcceptTunnel)];
      hide S.Step;
    }
  }

  lemma OutsideStep(w: World, t: SD.Turn, k: nat)
    requires w.serverRec.Valid() && w.clientRec.Valid() && t.Reported?
    ensures var accept := S.AcceptOutside(t.newOutside, k);
            var w1 := ApplyAll(w, if t.newOutside < 0 then [] else [OfServer(accept)]);
            && ServerOnly(w, w1)
            && w1.server == if t.newOutside < 0 || !S.Enabled(w.server, accept) then w.server
              else S.Step(w.server, accept)
  {
    var accept := S.AcceptOutside(t.newOutside, k);
    assert ApplyAll(w, []) == w;
    if t.newOutside >= 0 {
      ApplySnoc(w, [], OfServer(accept));
      assert [] + [OfServer(accept)] == [OfServer(accept)];
      if S.Enabled(w.server, accept) {
        ServerLocal(w, accept);
      }
    }
    hide S.Step;
  }

  lemma ArrivalSteps(w: World, t: SD.Turn, c: SD.Choices)
    requires w.serverRec.Valid() && w.clientRec.Valid() && t.Reported?
    requires t.newTunnel >= 0 ==> w.server.session < w.client.session
    ensures var w' := ApplyAll(w, ServerArrivals(t, c));
            ServerOnly(w, w') && w'.server == SD.Arrivals(w.server, t, c.outsideSends, c.datagramSends)
  {
    var a := if t.newTunnel < 0 then [] else [OfServer(S.AcceptTunnel)];
    var b := if t.newOutside < 0 then [] else [OfServer(S.AcceptOutside(t.newOutside, c.outsideSends))];
    var d := S.OutsideUdp(t.datagram, c.datagramSends);
    assert ServerArrivals(t, c) == a + b + [OfServer(d)];
    hide Apply, ApplyAll, S.Step;
    AcceptStep(w, t);
    OutsideStep(ApplyAll(w, a), t, c.outsideSends);
    ApplyConcat(w, a, b);
    ApplySnoc(w, a + b, OfServer(d));
    ServerLocal(ApplyAll(w, a + b), d);
  }

  /** The tunnel's branch, as steps. */
  function ServerTunnelSteps(t: SD.Turn, c: SD.Choices, held: bool): seq<Step>
    requires t.Reported?
  {
    if !held || t.fromTunnel.Quiet? then []
    else if t.fromTunnel.Received? then [ServerReceives(|t.fromTunnel.bytes|, c.envs)]
    else [OfServer(S.TunnelLost)]
  }

  lemma TunnelSteps(w: World, t: SD.Turn, c: SD.Choices, s': S.Server, p': Parser)
    requires w.serverRec.Valid() && w.clientRec.Valid() && t.Reported?
    requires w.server.held && t.fromTunnel.Received? ==> ServerNext(w, t.fromTunnel.bytes)
    requires if w.server.held then SD.TunnelTurn(w.server, w.serverRec, t.fromTunnel, c.envs, s', p')
             else s' == w.server && p' == w.serverRec
    ensures var w' := ApplyAll(w, ServerTunnelSteps(t, c, w.server.held));
            w'.server == s' && w'.serverRec == p' && w'.client == w.client && w'.clientRec == w.clientRec
  {
    ApplyNone(w);
    if w.server.held && !t.fromTunnel.Quiet? {
      if t.fromTunnel.Received? {
        ApplyOne(w, ServerReceives(|t.fromTunnel.bytes|, c.envs));
        ChunkHandled(w, t.fromTunnel.bytes, c.envs);
      } else {
        ApplyOne(w, OfServer(S.TunnelLost));
        ServerLocal(w, S.TunnelLost);
      }
    }
    hide S.Step, Collect, ServerHandles, Bytes, ApplyAll, Apply, ServerNext, ServerReads;
  }

  /** Reading the next chunk from the tunnel. */
  lemma ChunkHandled(w: World, bytes: seq<byte>, envs: seq<S.Env>)
    requires w.serverRec.Valid() && w.clientRec.Valid() && w.server.held && ServerNext(w, bytes)
    ensures var d := Collect(w.serverRec, bytes);
            var w' := Apply(w, ServerReceives(|bytes|, envs));
            && w'.server == ServerHandles(w.server, d.msgs, envs) && w'.serverRec == d.parser
            && w'.client == w.client && w'.clientRec == w.clientRec
  {
    hide Collect, ServerHandles, Bytes;
  }

  function ServerTurnSteps(t: SD.Turn, c: SD.Choices, held: bool): seq<Step>
    requires t.Reported?
  {
    ServerArrivals(t, c) + ServerVisits(c.visits) + ServerTunnelSteps(t, c, held)
  }

  /** Where the server is when a turn comes to its tunnel. */
  function BeforeTunnel(w: World, t: SD.Turn, c: SD.Choices): World
    requires w.serverRec.Valid() && w.clientRec.Valid() && t.Reported?
  {
    ApplyAll(w, ServerArrivals(t, c) + ServerVisits(c.visits))
  }

  /**
   A turn of the server's loop, when a tunnel accepted in it was one a client connected and the bytes
   read from the tunnel are the next that client wrote, is a stretch of a run.
   */
  lemma ServerTurnRefines(w: World, t: SD.Turn, c: SD.Choices, s': S.Server, p': Parser)
    requires w.serverRec.Valid() && w.clientRec.Valid() && t.Reported?
    requires SD.TurnOf(w.server, w.serverRec, t, c, s', p')
    requires t.newTunnel >= 0 ==> w.server.session < w.client.session
    requires var b := BeforeTunnel(w, t, c);
             b.server.held && t.fromTunnel.Received? ==> ServerNext(b, t.fromTunnel.bytes)
    ensures var b := BeforeTunnel(w, t, c);
            var w' := ApplyAll(w, ServerTurnSteps(t, c, b.server.held));
            w'.server == s' && w'.serverRec == p' && w'.client == w.client && w'.clientRec == w.clientRec
  {
    var b := BeforeTunnel(w, t, c);
    var w1 := ApplyAll(w, ServerArrivals(t, c));
    ArrivalSteps(w, t, c);
    ServerSweep(w1, c.visits);
    ApplyConcat(w, ServerArrivals(t, c), ServerVisits(c.visits));
    assert ServerOnly(w, b) && b.server == SD.Replay(w1.server, c.visits);
    hide ApplyAll, Apply, ServerArrivals, ServerVisits, SD.Arrivals, SD.Replay, SD.SweepOf, SD.TunnelTurn,
        ServerTunnelSteps;
    TunnelSteps(b, t, c, s', p');
    ApplyConcat(w, ServerArrivals(t, c) + ServerVisits(c.visits), ServerTunnelSteps(t, c, b.server.held));
  }

  // ---------- client ----------

  function ClientReadStep(v: Read): Step {
    OfClient(C.DestinationRead(v.id, v.result, v.k))
  }

  function ClientVisits(visits: seq<Read>): seq<Step> {
    if visits == [] then [] else ClientVisits(visits[..|visits| - 1]) + [ClientReadStep(visits[|visits| - 1])]
  }

  lemma ClientLocal(w: World, step: C.ClientStep)
    requires w.serverRec.Valid() && w.clientRec.Valid()
    requires !step.ConnectTunnel? && C.Enabled(w.client, step)
    ensures Apply(w, OfClient(step)) == w.(client := C.Step(w.client, step))
  {
    hide C.Step;
  }

  lemma {:induction false} ClientSweep(w: World, visits: seq<Read>)
    requires w.serverRec.Valid() && w.clientRec.Valid()
    ensures ApplyAll(w, ClientVisits(visits)) == w.(client := CD.Replay(w.client, visits))
    decreases |visits|
  {
    if visits != [] {
      var init, v := visits[..|visits| - 1], visits[|visits| - 1];
      ClientSweep(w, init);
      hide Apply, C.Step;
      ApplySnoc(w, ClientVisits(init), ClientReadStep(v));
      ClientLocal(ApplyAll(w, ClientVisits(init)), C.DestinationRead(v.id, v.result, v.k));
    }
  }

  /** The bytes are the next the client can read from its tunnel, which is the one the server holds. */
  predicate ClientNext(w: World, bytes: seq<byte>) {
    && 0 < |bytes| <= MAX_TUNNEL_READ && w.downRead + |bytes| <= |Bytes(w.server.link)|
    && bytes == Bytes(w.server.link)[w.downRead..w.downRead + |bytes|]
    && w.server.session == w.client.session
  }

  /** Only the client's side has changed. */
  predicate ClientOnly(w: World, w': World) {
    w'.server == w.server && w'.serverRec == w.serverRec
  }

  function QuitStep(t: CD.Turn): seq<Step>
    requires t.Reported?
  {
    if t.quit then [OfClient(C.UserQuits)] else []
  }

  function ClientTunnelSteps(t: CD.Turn, ch: CD.Choices): seq<Step>
    requires t.Reported?
  {
    match t.fromTunnel
    case Quiet => []
    case Received(bytes, _) => [ClientReceives(|bytes|, ch.envs)]
    case _ => [OfClient(C.TunnelLost)]
  }

  function ClientTurnSteps(t: CD.Turn, ch: CD.Choices): seq<Step>
    requires t.Reported?
  {
    ClientTunnelSteps(t, ch) + QuitStep(t) + [OfClient(C.DestinationUdp(t.datagram,
        ch.datagramSends))] + ClientVisits(ch.visits)
  }

  // A turn in which the user quits still handles what the tunnel brought; handling does not depend on it.

  function Quits(c: C.Client): C.Client {
    c.(contLoop := false, userQuit := true)
  }

  lemma SendThenQuit(c: C.Client, m: Message, k: nat)
    ensures C.Send(Quits(c), m, k) == Quits(C.Send(c, m, k))
  {
    hide Transmit;
  }

  lemma DataThenQuit(c: C.Client, id: ConnId, payload: seq<byte>, env: C.Env)
    ensures C.OnTunnelData(Quits(c), id, payload, env) == Quits(C.OnTunnelData(c, id, payload, env))
  {
    var c1 := c.(delivered := Append(c.delivered, id, Cut(payload, env.accepts)));
    SendThenQuit(c, CloseMessage(id), env.sends);
    SendThenQuit(C.Remove(c1, id), CloseMessage(id), env.sends);
    assert C.Remove(Quits(c1), id) == Quits(C.Remove(c1, id));
    hide C.Send, Append, Cut;
  }

  lemma OpenThenQuit(c: C.Client, id: ConnId, env: C.Env)
    ensures C.OnOpen(Quits(c), id, env) == Quits(C.OnOpen(c, id, env))
  {
    hide Transmit;
  }

  lemma HandleThenQuit(c: C.Client, m: Message, env: C.Env)
    ensures C.Handle(Quits(c), m, env) == Quits(C.Handle(c, m, env))
  {
    var c0 := c.(handled := c.handled + [m]);
    DataThenQuit(c0, m.connId, m.payload, env);
    OpenThenQuit(c0, m.connId, env);
    assert Quits(c).(handled := c.handled + [m]) == Quits(c0);
    hide C.OnOpen, C.OnTunnelData;
  }

  lemma {:induction false} HandlesThenQuit(c: C.Client, ms: seq<Message>, envs: seq<C.Env>)
    ensures ClientHandles(Quits(c), ms, envs) == Quits(ClientHandles(c, ms, envs))
    decreases |ms|
  {
    if ms != [] {
      var env := if envs == [] then C.Env(C.Refused, 0, 0) else envs[0];
      HandleThenQuit(c, ms[0], env);
      hide C.Handle, Quits;
      HandlesThenQuit(C.Handle(c, ms[0], env), ms[1..], if envs == [] then [] else envs[1..]);
    }
  }

  /** Reading the next chunk from the tunnel. */
  lemma ClientChunkHandled(w: World, bytes: seq<byte>, envs: seq<C.Env>)
    requires w.serverRec.Valid() && w.clientRec.Valid() && w.client.contLoop && ClientNext(w, bytes)
    ensures var d := Collect(w.clientRec, bytes);
            var w' := Apply(w, ClientReceives(|bytes|, envs));
            && w'.client == ClientHandles(w.client, d.msgs, envs) && w'.clientRec == d.parser && ClientOnly(w, w')
  {
    hide Collect, ClientHandles, Bytes;
  }

  lemma ClientTunnel(w: World, t: CD.Turn, ch: CD.Choices, c2: C.Client, p': Parser)
    requires w.serverRec.Valid() && w.clientRec.Valid() && t.Reported? && w.client.contLoop
    requires t.fromTunnel.Received? ==> ClientNext(w, t.fromTunnel.bytes)
    requires CD.TunnelTurn(w.client, w.clientRec, t.fromTunnel, ch.open, ch.envs, c2, p')
    ensures var w' := ApplyAll(w, ClientTunnelSteps(t, ch)); w'.client == c2 && w'.clientRec == p' && ClientOnly(w, w')
  {
    ApplyNone(w);
    match t.fromTunnel {
      case Quiet =>
      case Received(bytes, connects) =>
        ApplyOne(w, ClientReceives(|bytes|, ch.envs));
        ClientChunkHandled(w, bytes, ch.envs);
      case _ =>
        ApplyOne(w, OfClient(C.TunnelLost));
        ClientLocal(w, C.TunnelLost);
    }
    hide C.Step, Collect, ClientHandles, Bytes, ApplyAll, Apply, ClientNext, CD.EnvsFor;
  }

  /** The tunnel's branch before q, in place of after it. */
  lemma TunnelThenQuit(c: C.Client, p: Parser, outcome: CD.TunnelOutcome, open: set<int>,
                       envs: seq<C.Env>, c2: C.Client, p': Parser)
    returns (c1: C.Client)
    requires p.Valid() && CD.TunnelTurn(Quits(c), p, outcome, open, envs, c2, p')
    ensures CD.TunnelTurn(c, p, outcome, open, envs, c1, p') && c2 == Quits(c1)
  {
    match outcome {
      case Quiet =>
        c1 := c;
      case Received(bytes, connects) =>
        var ms := Collect(p, bytes).msgs;
        c1 := ClientHandles(c, ms, envs);
        HandlesThenQuit(c, ms, envs);
        hide Collect, ClientHandles, CD.EnvsFor;
      case _ =>
        c1 := C.Step(c, C.TunnelLost);
    }
  }

  lemma QuitSteps(w: World, t: CD.Turn)
    requires w.serverRec.Valid() && w.clientRec.Valid() && t.Reported?
    ensures ApplyAll(w, QuitStep(t)) == w.(client := if t.quit then Quits(w.client) else w.client)
  {
    ApplyNone(w);
    if t.quit {
      ApplyOne(w, OfClient(C.UserQuits));
      ClientLocal(w, C.UserQuits);
    }
    hide Apply, ApplyAll;
  }

  /**
   A turn of the client's loop, when the bytes read from the tunnel are the next the server wrote, is a
   stretch of a run.
   */
  lemma ClientTurnRefines(w: World, t: CD.Turn, ch: CD.Choices, c': C.Client, p': Parser)
    requires w.serverRec.Valid() && w.clientRec.Valid() && t.Reported? && w.client.contLoop
    requires CD.TurnOf(w.client, w.clientRec, t, ch, c', p')
    requires t.fromTunnel.Received? ==> ClientNext(w, t.fromTunnel.bytes)
    ensures var w' := ApplyAll(w, ClientTurnSteps(t, ch)); w'.client == c' && w'.clientRec == p' && ClientOnly(w, w')
  {
    var start := if t.quit then C.Step(w.client, C.UserQuits) else w.client;
    var c2 :|
      && CD.TunnelTurn(start, w.clientRec, t.fromTunnel, ch.open, ch.envs, c2, p')
      && var c3 := C.Step(c2, C.DestinationUdp(t.datagram, ch.datagramSends));
         CD.SweepOf(c3, ch.ids, ch.visits, t.ready) && c' == CD.Replay(c3, ch.visits);
    var c1 := c2;
    if t.quit {
      assert start == Quits(w.client);
      c1 := TunnelThenQuit(w.client, w.clientRec, t.fromTunnel, ch.open, ch.envs, c2, p');
    }
    var d := OfClient(C.DestinationUdp(t.datagram, ch.datagramSends));
    var a, b := ClientTunnelSteps(t, ch), QuitStep(t);
    ClientTurnFrom(w, t, ch, c1, c2, c', p', a, b, d);
  }

  lemma {:induction false} ClientTurnFrom(w: World, t: CD.Turn, ch: CD.Choices, c1: C.Client, c2: C.Client,
                       c': C.Client, p': Parser,
                       a: seq<Step>, b: seq<Step>, d: Step)
    requires w.serverRec.Valid() && w.clientRec.Valid() && t.Reported? && w.client.contLoop
    requires t.fromTunnel.Received? ==> ClientNext(w, t.fromTunnel.bytes)
    requires CD.TunnelTurn(w.client, w.clientRec, t.fromTunnel, ch.open, ch.envs, c1, p') && c2 == if t.quit
        then Quits(c1) else c1
    requires a == ClientTunnelSteps(t, ch) && b == QuitStep(t)
    requires d == OfClient(C.DestinationUdp(t.datagram, ch.datagramSends))
    requires c' == CD.Replay(C.Step(c2, C.DestinationUdp(t.datagram, ch.datagramSends)), ch.visits)
    ensures var w' := ApplyAll(w, ClientTurnSteps(t, ch)); w'.client == c' && w'.clientRec == p' && ClientOnly(w, w')
  {
    assert ClientTurnSteps(t, ch) == a + b + [d] + ClientVisits(ch.visits);
    hide ApplyAll, Apply, CD.TunnelTurn, ClientTunnelSteps, QuitStep, ClientVisits, ClientNext, CD.Replay, C.Step,
        Quits, ClientTurnSteps;
    ClientTunnel(w, t, ch, c1, p');
    ApplyConcat(w, a, b);
    QuitSteps(ApplyAll(w, a), t);
    ApplySnoc(w, a + b, d);
    var w2 := ApplyAll(w, a + b);
    assert w2.client == c2;
    ClientLocal(w2, C.DestinationUdp(t.datagram, ch.datagramSends));
    ClientSweep(ApplyAll(w, a + b + [d]), ch.visits);
    ApplyConcat(w, a + b + [d], ClientVisits(ch.visits));
  }

  // ---------- both programs together ----------

  /** What either program does next: a turn of its loop, or the client's entering and leaving its loop. */
  datatype Move =
    | ServerTurn(serverRound: SD.Round)
    | ClientTurn(clientRound: CD.Round)
    | Connects
    | Leaves

  /** The server's state after these moves, as its own loop's rounds say. */
  function ServerNow(moves: seq<Move>): (S.Server, Parser) {
    if moves == [] then (S.INITIAL_SERVER, INITIAL)
    else
      var m := moves[|moves| - 1];
      if m.ServerTurn? then (m.serverRound.server, m.serverRound.parser) else ServerNow(moves[..|moves| - 1])
  }

  function ClientNow(moves: seq<Move>): (C.Client, Parser) {
    if moves == [] then (C.INITIAL_CLIENT, INITIAL)
    else
      var before := ClientNow(moves[..|moves| - 1]);
      match moves[|moves| - 1]
      case ServerTurn(_) => before
      case ClientTurn(r) => (r.client, r.parser)
      case Connects => if C.Enabled(before.0, C.ConnectTunnel)
          then (C.Step(before.0, C.ConnectTunnel), before.1) else before
      case Leaves => if C.Enabled(before.0, C.LeaveLoop) then (C.Step(before.0, C.LeaveLoop), before.1) else before
  }

  function MoveSteps(w: World, m: Move): seq<Step>
    requires w.serverRec.Valid() && w.clientRec.Valid()
  {
    match m
    case ServerTurn(r) =>
      var t := SD.Possible(r.given, r.open);
      if t.Reported? then ServerTurnSteps(t, r.choices, BeforeTunnel(w, t, r.choices).server.held) else []
    case ClientTurn(r) =>
      (match r.given
       case Interrupted => []
       case SelectFailed => [OfClient(C.TunnelLost)]
       case Reported(_, _, _, _) => ClientTurnSteps(r.given, r.choices))
    case Connects => [OfClient(C.ConnectTunnel)]
    case Leaves => [OfClient(C.LeaveLoop)]
  }

  /** The steps these moves are made of. */
  function Played(moves: seq<Move>): seq<Step> {
    if moves == [] then []
    else
      var before := Played(moves[..|moves| - 1]);
      before + MoveSteps(Run(before), moves[|moves| - 1])
  }

  /**
   A round of a program's loop that starts where that program is, and reads from its tunnel the next
   bytes the other one wrote to it. A tunnel is accepted when the client has connected it.
   */
  ghost predicate Fits(moves: seq<Move>, m: Move) {
    var w := Run(Played(moves));
    match m
    case ServerTurn(r) => SD.RoundOf(ServerNow(moves), r) && ServerWire(w, SD.Possible(r.given, r.open), r.choices)
    case ClientTurn(r) =>
      && ClientNow(moves).0.contLoop && CD.RoundOf(ClientNow(moves), r)
      && (r.given.Reported? && r.given.fromTunnel.Received? ==> ClientNext(w, r.given.fromTunnel.bytes))
    case Connects => C.Enabled(ClientNow(moves).0, C.ConnectTunnel)
    case Leaves => C.Enabled(ClientNow(moves).0, C.LeaveLoop)
  }

  ghost predicate ServerWire(w: World, t: SD.Turn, c: SD.Choices)
    requires w.serverRec.Valid() && w.clientRec.Valid()
  {
    t.Reported? ==>
      && (t.newTunnel >= 0 ==> w.server.session < w.client.session)
      && var b := BeforeTunnel(w, t, c);
         b.server.held && t.fromTunnel.Received? ==> ServerNext(b, t.fromTunnel.bytes)
  }

  /** The two programs run side by side, their turns interleaved in any way. */
  ghost predicate Joint(moves: seq<Move>) {
    moves != [] ==> Joint(moves[..|moves| - 1]) && Fits(moves[..|moves| - 1], moves[|moves| - 1])
  }

  /** The world is where the programs say they are. */
  ghost predicate Reaches(w: World, server: (S.Server, Parser), client: (C.Client, Parser)) {
    (w.server, w.serverRec) == server && (w.client, w.clientRec) == client
  }

  lemma MovePlays(w: World, moves: seq<Move>, m: Move)
    requires w == Run(Played(moves)) && Reaches(w, ServerNow(moves), ClientNow(moves)) && Fits(moves, m)
    ensures Reaches(ApplyAll(w, MoveSteps(w, m)), ServerNow(moves + [m]), ClientNow(moves + [m]))
  {
    assert (moves + [m])[..|moves|] == moves;
    ApplyNone(w);
    match m
    case ServerTurn(r) =>
      hide Run, Played, ApplyAll, ServerTurnSteps, BeforeTunnel, SD.TurnOf, ServerNext;
      ServerTurnRefines(w, SD.Possible(r.given, r.open), r.choices, r.server, r.parser);
    case ClientTurn(r) => ClientMovePlays(w, r);
    case Connects =>
      ApplyOne(w, OfClient(C.ConnectTunnel));
      hide Run, Played, ApplyAll;
    case Leaves =>
      ApplyOne(w, OfClient(C.LeaveLoop));
      ClientLocal(w, C.LeaveLoop);
      hide Run, Played, ApplyAll;
  }

  lemma ClientMovePlays(w: World, r: CD.Round)
    requires w.serverRec.Valid() && w.clientRec.Valid() && w.client.contLoop && CD.RoundOf((w.client, w.clientRec), r)
    requires r.given.Reported? && r.given.fromTunnel.Received? ==> ClientNext(w, r.given.fromTunnel.bytes)
    ensures Reaches(ApplyAll(w, MoveSteps(w, ClientTurn(r))), (w.server, w.serverRec), (r.client, r.parser))
  {
    ApplyNone(w);
    match r.given {
      case Interrupted =>
      case SelectFailed =>
        ApplyOne(w, OfClient(C.TunnelLost));
        ClientLocal(w, C.TunnelLost);
      case Reported(_, _, _, _) =>
        ClientTurnRefines(w, r.given, r.choices, r.client, r.parser);
    }
    hide ApplyAll, Apply, ClientTurnSteps, CD.TurnOf, ClientNext, C.Step;
  }

  lemma NothingPlayed()
    ensures Reaches(Run(Played([])), ServerNow([]), ClientNow([]))
  {
  }

  lemma JointSnoc(moves: seq<Move>, m: Move)
    ensures Joint(moves + [m]) <==> Joint(moves) && Fits(moves, m)
    ensures Played(moves + [m]) == Played(moves) + MoveSteps(Run(Played(moves)), m)
  {
    assert (moves + [m])[..|moves|] == moves;
    hide Fits, MoveSteps, Run;
  }

  /**
   Any interleaving of the turns of the server's loop, the turns of the client's loop and the client's
   sessions is a run of the two parties, and leads where the programs are.
   */
  lemma {:induction false} JointIsRun(moves: seq<Move>)
    requires Joint(moves)
    ensures Reaches(Run(Played(moves)), ServerNow(moves), ClientNow(moves))
    decreases |moves|
  {
    hide *;
    if moves == [] {
      NothingPlayed();
    } else {
      var init, m := moves[..|moves| - 1], moves[|moves| - 1];
      assert init + [m] == moves;
      JointSnoc(init, m);
      JointIsRun(init);
      MovePlays(Run(Played(init)), init, m);
      Continues(Played(init), MoveSteps(Run(Played(init)), m));
    }
  }

  /** The turns the server's loop has worked off, in the order of these moves. */
  function ServerRounds(moves: seq<Move>): seq<SD.Round> {
    if moves == [] then []
    else
      var before, m := ServerRounds(moves[..|moves| - 1]), moves[|moves| - 1];
      if m.ServerTurn? then before + [m.serverRound] else before
  }

  function Givens(rounds: seq<SD.Round>): seq<SD.Turn> {
    if rounds == [] then [] else Givens(rounds[..|rounds| - 1]) + [rounds[|rounds| - 1].given]
  }

  lemma GivensSnoc(rounds: seq<SD.Round>, r: SD.Round)
    ensures Givens(rounds + [r]) == Givens(rounds) + [r.given]
  {
    assert (rounds + [r])[..|rounds|] == rounds;
  }

  lemma MoveOfServer(moves: seq<Move>)
    requires moves != [] && Fits(moves[..|moves| - 1], moves[|moves| - 1])
    ensures var init, m := moves[..|moves| - 1], moves[|moves| - 1];
            if m.ServerTurn?
            then SD.RoundOf(ServerNow(init), m.serverRound) && ServerRounds(moves) ==
                ServerRounds(init) + [m.serverRound]
              && ServerNow(moves) == (m.serverRound.server, m.serverRound.parser)
            else ServerRounds(moves) == ServerRounds(init) && ServerNow(moves) == ServerNow(init)
  {
    hide Run, Played, SD.RoundOf, ServerWire;
  }

  /** The server's moves are one run of its dispatch loop, as that loop's contract describes it. */
  lemma {:induction false} ServerSideOf(moves: seq<Move>)
    requires Joint(moves)
    ensures var rounds := ServerRounds(moves);
            && SD.RunOf(S.INITIAL_SERVER, INITIAL, rounds, Givens(rounds))
            && SD.After(S.INITIAL_SERVER, INITIAL, rounds) == ServerNow(moves)
    decreases |moves|
  {
    hide Fits, SD.RoundOf;
    if moves != [] {
      var init, m := moves[..|moves| - 1], moves[|moves| - 1];
      ServerSideOf(init);
      MoveOfServer(moves);
      if m.ServerTurn? {
        var rounds := ServerRounds(init);
        hide *;
        SD.RunSnoc(S.INITIAL_SERVER, INITIAL, rounds, Givens(rounds), m.serverRound);
        GivensSnoc(rounds, m.serverRound);
      }
    }
  }

  /** The client as its session leaves it: a loop that has ended is followed by what comes after the loop. */
  function Left(c: C.Client): C.Client {
    if c.contLoop then c else C.Step(c, C.LeaveLoop)
  }

  /** One more turn of the tunnel that is open. */
  function Lengthened(s: CD.Session, r: CD.Round): CD.Session {
    CD.Session(s.turns + [r.given], s.rounds + [r], Left(r.client), r.parser)
  }

  /** The tunnels the client has had, with the turns of each. */
  function ClientSessions(moves: seq<Move>): seq<CD.Session> {
    if moves == [] then []
    else
      var init, m := moves[..|moves| - 1], moves[|moves| - 1];
      var before := ClientSessions(init);
      if m.Connects? then before + [CD.Session([], [], ClientNow(moves).0, ClientNow(moves).1)]
      else if m.ClientTurn? && before != []
      then before[..|before| - 1] + [Lengthened(before[|before| - 1], m.clientRound)]
      else before
  }

  const CLIENT_START: (C.Client, Parser) := (C.INITIAL_CLIENT, INITIAL)

  /** The sessions lead where the client is. */
  ghost predicate SessionsReach(sessions: seq<CD.Session>, now: (C.Client, Parser)) {
    && CD.SessionsOf(CLIENT_START, sessions) && CD.AfterAll(CLIENT_START, sessions) == (Left(now.0), now.1)
    && forall s <- sessions :: |s.turns| == |s.rounds|
  }

  lemma SessionOpens(sessions: seq<CD.Session>, now: (C.Client, Parser), c: C.Client)
    requires SessionsReach(sessions, now) && C.Enabled(now.0, C.ConnectTunnel) && c == C.Step(now.0, C.ConnectTunnel)
    ensures SessionsReach(sessions + [CD.Session([], [], c, now.1)], (c, now.1))
  {
    var s := CD.Session([], [], c, now.1);
    CD.RunNone((c, now.1), []);
    assert CD.SessionOf(CD.AfterAll(CLIENT_START, sessions), s);
    CD.SessionsSnoc(CLIENT_START, sessions, s);
  }

  lemma SessionGoesOn(start: (C.Client, Parser), s: CD.Session, r: CD.Round)
    requires CD.SessionOf(start, s) && s.client.contLoop && |s.turns| == |s.rounds|
    requires CD.RoundOf((s.client, s.parser), r)
    ensures CD.SessionOf(start, Lengthened(s, r))
  {
    hide CD.RoundOf, CD.RunOf;
    var first := (C.Step(start.0, C.ConnectTunnel), start.1);
    var turns := s.turns + [r.given];
    assert turns[..|s.rounds|] == s.turns == s.turns[..|s.rounds|] && turns[..|s.rounds| + 1] == turns;
    CD.RunSnoc(first, s.rounds, turns, |s.rounds|, r);
  }

  lemma TurnLengthens(sessions: seq<CD.Session>, now: (C.Client, Parser), r: CD.Round)
    requires SessionsReach(sessions, now) && now.0.contLoop && CD.RoundOf(now, r)
    ensures sessions != []
    ensures SessionsReach(sessions[..|sessions| - 1] + [Lengthened(sessions[|sessions| - 1], r)], (r.client, r.parser))
  {
    hide CD.RoundOf, CD.SessionOf;
    var init, s := sessions[..|sessions| - 1], sessions[|sessions| - 1];
    SessionGoesOn(CD.AfterAll(CLIENT_START, init), s, r);
    CD.SessionsSnoc(CLIENT_START, init, Lengthened(s, r));
  }

  /** Leaving the loop changes nothing that the session has not recorded already. */
  lemma LeftOnce(sessions: seq<CD.Session>, now: (C.Client, Parser))
    requires SessionsReach(sessions, now) && C.Enabled(now.0, C.LeaveLoop)
    ensures SessionsReach(sessions, (C.Step(now.0, C.LeaveLoop), now.1))
  {
    hide CD.SessionsOf, CD.AfterAll;
  }

  lemma SessionsNext(moves: seq<Move>)
    requires moves != [] && Fits(moves[..|moves| - 1], moves[|moves| - 1])
    ensures var init, m := moves[..|moves| - 1], moves[|moves| - 1];
            var before, now, after := ClientSessions(init), ClientNow(init), ClientSessions(moves);
            match m
            case ServerTurn(_) => after == before && ClientNow(moves) == now
            case ClientTurn(r) =>
              && now.0.contLoop && CD.RoundOf(now, r) && ClientNow(moves) == (r.client, r.parser)
              && (before != [] ==> after == before[..|before| - 1] + [Lengthened(before[|before| - 1], r)])
            case Connects =>
              && C.Enabled(now.0, C.ConnectTunnel)
              && ClientNow(moves) == (C.Step(now.0, C.ConnectTunnel), now.1)
              && after == before + [CD.Session([], [], C.Step(now.0, C.ConnectTunnel), now.1)]
            case Leaves =>
              && C.Enabled(now.0, C.LeaveLoop)
              && after == before && ClientNow(moves) == (C.Step(now.0, C.LeaveLoop), now.1)
  {
    hide Run, Played, SD.RoundOf, CD.RoundOf, ServerWire, ClientNext, C.Step, C.Enabled, Lengthened;
  }

  lemma MoveOfClient(moves: seq<Move>)
    requires moves != [] && Fits(moves[..|moves| - 1], moves[|moves| - 1])
    requires SessionsReach(ClientSessions(moves[..|moves| - 1]), ClientNow(moves[..|moves| - 1]))
    ensures SessionsReach(ClientSessions(moves), ClientNow(moves))
  {
    var init := moves[..|moves| - 1];
    hide *;
    var before, now := ClientSessions(init), ClientNow(init);
    SessionsNext(moves);
    match moves[|moves| - 1]
    case ServerTurn(_) =>
    case ClientTurn(r) => TurnLengthens(before, now, r);
    case Connects => SessionOpens(before, now, C.Step(now.0, C.ConnectTunnel));
    case Leaves => LeftOnce(before, now);
  }

  /** The client's moves are sessions of its reconnection loop, as that loop's contract describes them. */
  lemma {:induction false} ClientSideOf(moves: seq<Move>)
    requires Joint(moves)
    ensures SessionsReach(ClientSessions(moves), ClientNow(moves))
    decreases |moves|
  {
    if moves == [] {
      CD.SessionsNone(CLIENT_START);
    } else {
      hide Fits, SessionsReach;
      ClientSideOf(moves[..|moves| - 1]);
      MoveOfClient(moves);
    }
  }

  // ---------- what this means for the programs ----------

  /** The bytes on an outside connection's descriptor, when the server's data represent a point of a run. */
  lemma OutsideSocket(server: SD.TunnelServer, w: World, id: ConnId)
    requires server.Valid() && server.model == w.server && Inv(w) && id in w.server.table
    ensures server.model.table[id] in server.kernel.written
    ensures server.kernel.written[server.model.table[id]] == At(w.server.delivered, id)
  {
    ServerGlobal(w.server);
    assert SocketsTie(SD.CoreOf(server.model), server.Snapshot());
    assert Carries(SD.CoreOf(server.model), server.Snapshot(), id);
    hide Inv;
  }

  lemma DestinationSocket(client: CD.TunnelClient, w: World, id: ConnId)
    requires client.Valid() && client.model == w.client && Inv(w) && id in w.client.table
    ensures client.model.table[id] in client.kernel.written
    ensures client.kernel.written[client.model.table[id]] == At(w.client.delivered, id)
  {
    ClientGlobal(w.client);
    assert SocketsTie(CD.CoreOf(client.model), client.Snapshot());
    assert Carries(CD.CoreOf(client.model), client.Snapshot(), id);
    hide Inv;
  }

  /**
   What the system has accepted on the socket of a connection, at either end and after any turns of the
   two loops in which tunnels changed at frame boundaries: a subsequence of what was read from the socket
   at the other end, and with one tunnel a prefix of it.
   */
  lemma SocketsAreSafe(server: SD.TunnelServer, client: CD.TunnelClient, moves: seq<Move>, id: ConnId)
    requires Joint(moves) && BoundaryRun(Played(moves))
    requires server.Valid() && server.model == ServerNow(moves).0
    requires client.Valid() && client.model == ClientNow(moves).0
    ensures id in client.model.table ==>
              var fd, read := client.model.table[id], OutsideBytes(Played(moves), id);
              && fd in client.kernel.written && Subseq(client.kernel.written[fd], read)
              && (client.model.session <= 1 ==> client.kernel.written[fd] <= read)
    ensures id in server.model.table ==>
              var fd, read := server.model.table[id], DestinationBytes(Played(moves), id);
              && fd in server.kernel.written && Subseq(server.kernel.written[fd], read)
              && (client.model.session <= 1 ==> server.kernel.written[fd] <= read)
  {
    hide *;
    var steps := Played(moves);
    var w := Run(steps);
    JointIsRun(moves);
    Unfolded(w, ServerNow(moves), ClientNow(moves));
    RunInv(steps);
    ReconnectionSafety(steps, id);
    if w.client.session <= 1 {
      EndToEndIntegrity(steps, id);
    }
    if id in w.client.table {
      DestinationSocket(client, w, id);
    }
    if id in w.server.table {
      OutsideSocket(server, w, id);
    }
  }

  /**
   The datagrams handed to the two UDP sockets. Those for the destination are among the datagrams received
   from outside while there was a tunnel, with one tunnel a prefix of them. Those for the outside are the
   replies due, each with its receiver, no more and no fewer.
   */
  lemma DatagramSockets(server: SD.TunnelServer, client: CD.TunnelClient, moves: seq<Move>)
    requires Joint(moves) && BoundaryRun(Played(moves))
    requires server.Valid() && server.model == ServerNow(moves).0
    requires client.Valid() && client.model == ClientNow(moves).0
    ensures var sent, passed := client.udpForwarder.sent, PassedOn(Played(moves));
            exists payloads: seq<seq<byte>> ::
              && |payloads| == |sent| && (forall i | 0 <= i < |sent| :: sent[i] == (client.destUdp, payloads[i]))
              && Subseq(payloads, passed) && (client.model.session <= 1 ==> payloads <= passed)
    ensures var sent, due := server.outsideUdp.sent, RepliesDue(Played(moves));
            |sent| == |due| && forall i | 0 <= i < |sent| :: sent[i] == (due[i].to, due[i].payload)
  {
    assert CD.UdpTies(client.model.udpSent, client.udpForwarder.sent, client.destUdp);
    assert SD.RepliesTie(server.model.udp.replies, server.outsideUdp.sent);
    var steps := Played(moves);
    var payloads := client.model.udpSent;
    assert |payloads| == |client.udpForwarder.sent|
        && forall i | 0 <= i < |payloads| :: client.udpForwarder.sent[i] == (client.destUdp, payloads[i]);
    hide Joint, BoundaryRun, Played, Run, PassedOn, RepliesDue, Subseq, ServerNow, ClientNow, SD.TunnelServer.Valid,
        CD.TunnelClient.Valid, Reaches;
    JointIsRun(moves);
    Unfolded(Run(steps), ServerNow(moves), ClientNow(moves));
    DatagramIsolation(steps);
  }

  lemma Unfolded(w: World, server: (S.Server, Parser), client: (C.Client, Parser))
    requires Reaches(w, server, client)
    ensures w.server == server.0 && w.client == client.0
  {
  }

  /** The tables of the two loops, over any number of tunnels, once everything has been read. */
  lemma {:induction false} TablesOfLoops(moves: seq<Move>, id: ConnId)
    requires Joint(moves) && BoundaryRun(Played(moves)) && Quiescent(Run(Played(moves)))
    ensures var s, c, steps := ServerNow(moves).0.table, ClientNow(moves).0.table, Played(moves);
            && (id in s && id !in c <==> id in s && ServerNotTold(steps, id))
            && (id in c && id !in s <==> id in c && ClientNotTold(steps, id))
  {
    hide *;
    JointIsRun(moves);
    Unfolded(Run(Played(moves)), ServerNow(moves), ClientNow(moves));
    OneSidedExactlyWhen(Played(moves), id);
  }
}
