/**
 Why the hypotheses of the main results are needed, in three runs.
 Tunnels must change at frame boundaries: when the first tunnel is lost in the middle of a data frame, the
 client's reassembly machine keeps the piece it has, the next tunnel's first byte completes it, and a byte
 nobody sent on a connection is written to that connection's socket.
 Over several tunnels no more than a subsequence can be had, and the tables need not agree: what is read or
 closed while there is no tunnel is lost.
 */
module Witness {
  import opened Protocol
  import opened Seqs
  import opened Reassembly
  import opened Links
  import opened Parties
  import opened World
  import WI = WorldInvariant
  import opened Theorems
  import S = ServerModel
  import C = ClientModel

  /** Connection 1 is opened; of its two bytes [x, y] only x gets through, with the header before it. */
  function FirstTunnel(x: byte, y: byte): seq<Step> {
    [OfClient(C.ConnectTunnel), OfServer(S.AcceptTunnel), OfServer(S.AcceptOutside(10, 8)),
     ClientReceives(8, [C.Env(C.Connected(20), 0, 0)]),
     OfServer(S.OutsideRead(1, Data([x, y]), 9)),
     ClientReceives(9, []), OfClient(C.TunnelLost)]
  }

  /** A new tunnel, connection 2, and one byte read by the client. */
  const SECOND_TUNNEL: seq<Step> :=
    [OfClient(C.ConnectTunnel), OfServer(S.AcceptTunnel), OfServer(S.AcceptOutside(11, 8)),
     ClientReceives(1, [C.Env(C.Refused, 2, 0)])]

  // ---------- the reassembly machine along the run ----------

  function Opened(id: ConnId): Parser {
    Parser([], true, id, TcpOpen, 0)
  }

  function Torn(x: byte): Parser {
    Parser([x], false, 1, TcpData, 2)
  }

  function TornFrame(x: byte): seq<byte> {
    CreateHeader(Header(1, 2, 3)) + [x]
  }

  lemma TornLength(x: byte)
    ensures |TornFrame(x)| == 9
  {
    hide CreateHeader;
  }

  lemma EncodedOpen(id: ConnId)
    ensures Encode(OpenMessage(id)) == CreateHeader(Header(id, 0, 2))
    ensures EncodeAll([OpenMessage(id)]) == Encode(OpenMessage(id))
  {
    EncodeAllSnoc([], OpenMessage(id));
    assert [] + [OpenMessage(id)] == [OpenMessage(id)];
    hide EncodeAll;
    assert EncodeAll([]) == [] by { assert Parse([]).msgs == []; ParseConserves([]); }
  }

  /** Taking a header off the front of the buffer. */
  lemma TakeHeader(p: Parser, h: Header, t: seq<byte>)
    requires p.Valid() && p.waitForHeader && p.buffer == CreateHeader(h) + t && IsValidMessageType(h.code)
    ensures !BadHeader(p.buffer) && AfterHeader(p) == Parser(t, h.length == 0, h.connId, TypeOf(h.code), h.length)
  {
    HeaderRoundTrip(h, t);
    assert (CreateHeader(h) + t)[HEADER_SIZE..] == t;
    hide CreateHeader, ParseHeader;
  }

  lemma CollectOpen(id: ConnId)
    ensures Collect(INITIAL, Encode(OpenMessage(id))) == Collected(Opened(id), [OpenMessage(id)], false)
  {
    EncodedOpen(id);
    var h := Header(id, 0, 2);
    hide CreateHeader, ParseHeader, EncodeAll, Encode, BadHeader, AfterHeader;
    var p := INITIAL.(buffer := INITIAL.buffer + Encode(OpenMessage(id)));
    assert p.buffer == CreateHeader(h) + [];
    TakeHeader(p, h, []);
    assert Drain(Opened(id)) == Collected(Opened(id), [], false);
    assert Drain(p) == Emit(OpenMessage(id), Drain(Opened(id)));
  }

  lemma CollectTorn(x: byte)
    ensures Collect(Opened(1), TornFrame(x)) == Collected(Torn(x), [], false)
  {
    hide CreateHeader, ParseHeader, BadHeader, AfterHeader;
    var p := Opened(1).(buffer := Opened(1).buffer + TornFrame(x));
    assert p.buffer == TornFrame(x);
    TakeHeader(p, Header(1, 2, 3), [x]);
    assert Drain(Torn(x)) == Collected(Torn(x), [], false);
    assert Drain(p) == Drain(Torn(x));
  }

  /** One byte of any new stream completes the torn message. */
  lemma CollectStale(x: byte, b: byte)
    ensures Collect(Torn(x), [b]).msgs == [DataMessage(1, [x, b])]
  {
    var p := Torn(x).(buffer := [x] + [b]);
    assert [x] + [b] == [x, b] && p.buffer[..2] == [x, b] && p.buffer[2..] == [];
    var q := AfterPayload(p);
    assert Drain(q) == Collected(q, [], false);
    assert Drain(p).msgs == [DataMessage(1, [x, b])] + [];
  }

  // ---------- the two parties along the run ----------

  const OPEN_1: Message := OpenMessage(1)
  const OPEN_2: Message := OpenMessage(2)

  const SERVER_UP: S.Server := S.INITIAL_SERVER.(session := 1, held := true, link := FRESH_LINK)
  const SERVER_OPENED: S.Server := SERVER_UP.(nextId := 2, table := map[1 := 10], added := [1],
      link := Link([OPEN_1], [], true),
      sent := [OPEN_1])

  function ServerCut(x: byte, y: byte): S.Server {
    SERVER_OPENED.(table := map[], link := Link([OPEN_1], TornFrame(x), false), read := map[1 := [x, y]])
  }

  function ServerReopened(x: byte, y: byte): S.Server {
    ServerCut(x, y).(session := 2, nextId := 3, table := map[2 := 11], added := [1, 2],
              link := Link([OPEN_2], [], true), sent := [OPEN_1, OPEN_2])
  }

  const CLIENT_UP: C.Client := C.INITIAL_CLIENT.(session := 1, contLoop := true, link := FRESH_LINK)
  const CLIENT_OPENED: C.Client := CLIENT_UP.(handled := [OPEN_1], table := map[1 := 20], added := [1])
  const CLIENT_BACK: C.Client := CLIENT_OPENED.(session := 2, base := 1)

  function Scene(s: S.Server, c: C.Client, rec: Parser, past: seq<Link>, downRead: nat): World {
    World(s, c, INITIAL, rec, past, 0, downRead)
  }

  lemma RunSnoc(steps: seq<Step>, step: Step)
    ensures Run(steps + [step]) == Apply(Run(steps), step)
  {
    assert (steps + [step])[..|steps|] == steps;
  }

  lemma TunnelUp()
    ensures Apply(Apply(INITIAL_WORLD, OfClient(C.ConnectTunnel)), OfServer(S.AcceptTunnel)) ==
        Scene(SERVER_UP, CLIENT_UP, INITIAL, [NO_LINK], 0)
  {
    hide Bytes, Collect;
  }

  lemma FirstOpen(rec: Parser)
    requires rec.Valid()
    ensures Apply(Scene(SERVER_UP, CLIENT_UP, rec, [NO_LINK], 0), OfServer(S.AcceptOutside(10, 8))) ==
        Scene(SERVER_OPENED, CLIENT_UP, rec, [NO_LINK], 0)
  {
    hide Bytes, Collect, Encode;
    assert [] + [OPEN_1] == [OPEN_1];
  }

  lemma OpenArrives()
    ensures Apply(Scene(SERVER_OPENED, CLIENT_UP, INITIAL, [NO_LINK], 0), ClientReceives(8, [C.Env(C.Connected(20),
        0, 0)]))
            == Scene(SERVER_OPENED, CLIENT_OPENED, Opened(1), [NO_LINK], 8)
  {
    EncodedOpen(1);
    CollectOpen(1);
    assert Bytes(SERVER_OPENED.link)[0..8] == Encode(OPEN_1);
    hide Encode, EncodeAll, Collect;
    assert [] + [OPEN_1] == [OPEN_1];
    var env := C.Env(C.Connected(20), 0, 0);
    assert ClientHandles(CLIENT_UP, [OPEN_1], [env]) == ClientHandles(C.Handle(CLIENT_UP, OPEN_1, env), [], []);
    assert C.Handle(CLIENT_UP, OPEN_1, env) == CLIENT_OPENED;
    hide C.Handle, CLIENT_OPENED;
    assert ClientHandles(CLIENT_UP, [OPEN_1], [env]) == CLIENT_OPENED;
  }

  lemma DataCut(x: byte, y: byte)
    ensures Apply(Scene(SERVER_OPENED, CLIENT_OPENED, Opened(1), [NO_LINK], 8), OfServer(S.OutsideRead(1, Data([x,
        y]), 9)))
            == Scene(ServerCut(x, y), CLIENT_OPENED, Opened(1), [NO_LINK], 8)
  {
    assert Encode(DataMessage(1, [x, y]))[..9] == TornFrame(x);
    hide Bytes, Collect, Encode;
    assert map[1 := 10] - {1} == map[];
    assert [] + [x, y] == [x, y];
    assert Append(map[], 1, [x, y]) == map[1 := [x, y]];
    assert Transmit(SERVER_OPENED.link, DataMessage(1, [x, y]), 9) == Link([OPEN_1], TornFrame(x), false);
    assert map[1 := 10].Keys == {1};
    var step := S.OutsideRead(1, Data([x, y]), 9);
    assert S.Step(SERVER_OPENED, step) == S.OnData(SERVER_OPENED, 1, [x, y], 9);
    assert S.OnData(SERVER_OPENED, 1, [x, y], 9) == ServerCut(x, y);
    hide S.OnData, ServerCut;
    var w := Scene(SERVER_OPENED, CLIENT_OPENED, Opened(1), [NO_LINK], 8);
    assert CanStep(w, OfServer(step));
    assert Apply(w, OfServer(step)) == w.(server := S.Step(SERVER_OPENED, step));
  }

  lemma DataArrives(x: byte, y: byte)
    ensures Apply(Scene(ServerCut(x, y), CLIENT_OPENED, Opened(1), [NO_LINK], 8), ClientReceives(9, [])) ==
        Scene(ServerCut(x, y), CLIENT_OPENED, Torn(x), [NO_LINK], 17)
  {
    EncodedOpen(1);
    CollectTorn(x);
    hide Encode, EncodeAll, Collect, TornFrame, CreateHeader;
    assert |TornFrame(x)| == 9 by { TornLength(x); }
    assert Bytes(ServerCut(x, y).link)[8..17] == TornFrame(x);
  }

  /** Not at a frame boundary: the client's machine still holds the torn frame. */
  lemma Reconnects(x: byte, y: byte)
    ensures var w := Apply(Scene(ServerCut(x, y), CLIENT_OPENED, Torn(x), [NO_LINK], 17), OfClient(C.TunnelLost));
            && !AtBoundary(w, OfClient(C.ConnectTunnel))
            && Apply(Apply(Apply(w, OfClient(C.ConnectTunnel)), OfServer(S.AcceptTunnel)),
              OfServer(S.AcceptOutside(11, 8)))
               == Scene(ServerReopened(x, y), CLIENT_BACK, Torn(x), [NO_LINK, FRESH_LINK], 0)
  {
    hide Bytes, Collect, Encode, TornFrame;
    assert [] + [OPEN_2] == [OPEN_2] && [OPEN_1] + [OPEN_2] == [OPEN_1, OPEN_2] && [1] + [2] == [1, 2];
    assert [NO_LINK] + [FRESH_LINK] == [NO_LINK, FRESH_LINK];
  }

  lemma StaleByte(x: byte, y: byte)
    ensures var w := Apply(Scene(ServerReopened(x, y), CLIENT_BACK, Torn(x), [NO_LINK, FRESH_LINK], 0),
        ClientReceives(1, [C.Env(C.Refused,
        2, 0)]));
            Parties.At(w.client.delivered, 1) == [x, 0] && Parties.At(w.server.read, 1) == [x, y]
  {
    EncodedOpen(2);
    CollectStale(x, 0);
    assert Bytes(ServerReopened(x, y).link)[0..1] == [0];
    hide Encode, EncodeAll, Collect, TornFrame;
    assert [] + [x, 0] == [x, 0];
    var env := C.Env(C.Refused, 2, 0);
    var m := DataMessage(1, [x, 0]);
    assert ClientHandles(CLIENT_BACK, [m], [env]) == ClientHandles(C.Handle(CLIENT_BACK, m, env), [], []);
    assert C.Handle(CLIENT_BACK, m, env).delivered == Append(map[], 1, [x, 0]);
  }

  lemma FirstTunnelRun(x: byte, y: byte)
    ensures Run(FirstTunnel(x, y)[..6]) == Scene(ServerCut(x, y), CLIENT_OPENED, Torn(x), [NO_LINK], 17)
  {
    var t := FirstTunnel(x, y);
    assert t[..6] == [] + [t[0]] + [t[1]] + [t[2]] + [t[3]] + [t[4]] + [t[5]];
    assert Run([]) == INITIAL_WORLD;
    assert t[0] == OfClient(C.ConnectTunnel) && t[1] == OfServer(S.AcceptTunnel) && t[2] ==
        OfServer(S.AcceptOutside(10, 8));
    assert t[3] == ClientReceives(8, [C.Env(C.Connected(20), 0, 0)]);
    assert t[4] == OfServer(S.OutsideRead(1, Data([x, y]), 9)) && t[5] == ClientReceives(9, []);
    hide *;
    TunnelUp();
    FirstOpen(INITIAL);
    OpenArrives();
    DataCut(x, y);
    DataArrives(x, y);
    RunSnoc([], t[0]);
    RunSnoc([] + [t[0]], t[1]);
    RunSnoc([] + [t[0]] + [t[1]], t[2]);
    RunSnoc([] + [t[0]] + [t[1]] + [t[2]], t[3]);
    RunSnoc([] + [t[0]] + [t[1]] + [t[2]] + [t[3]], t[4]);
    RunSnoc([] + [t[0]] + [t[1]] + [t[2]] + [t[3]] + [t[4]], t[5]);
  }

  lemma LostTunnelRun(x: byte, y: byte)
    ensures Run(FirstTunnel(x, y)) ==
        Apply(Scene(ServerCut(x, y), CLIENT_OPENED, Torn(x), [NO_LINK], 17), OfClient(C.TunnelLost))
  {
    var t := FirstTunnel(x, y);
    assert t[..6] + [t[6]] == t && t[6] == OfClient(C.TunnelLost);
    hide *;
    FirstTunnelRun(x, y);
    RunSnoc(t[..6], t[6]);
  }

  lemma TornRun(x: byte, y: byte)
    ensures !BoundaryRun(FirstTunnel(x, y) + SECOND_TUNNEL)
  {
    var t, u := FirstTunnel(x, y), SECOND_TUNNEL;
    assert t + [u[0]] + u[1..] == t + u && u[0] == OfClient(C.ConnectTunnel);
    hide *;
    LostTunnelRun(x, y);
    Reconnects(x, y);
    NotBoundary(t, u[0], u[1..]);
  }

  /**
   Without the frame boundary, [x, 0] is written to connection 1's destination while [x, y] was read
   from its outside: not even a subsequence, unless y is 0 by chance.
   */
  lemma BoundaryNeeded(x: byte, y: byte)
    requires y != 0
    ensures var steps := FirstTunnel(x, y) + SECOND_TUNNEL;
            var c, s := Run(steps).client, Run(steps).server;
            && Parties.At(c.delivered, 1) == [x, 0] && Parties.At(s.read, 1) == [x, y]
            && !Subseq(Parties.At(c.delivered, 1), Parties.At(s.read, 1))
            && !BoundaryRun(steps)
  {
    var t, u := FirstTunnel(x, y), SECOND_TUNNEL;
    assert t + u == t + [u[0]] + [u[1]] + [u[2]] + [u[3]];
    assert u[0] == OfClient(C.ConnectTunnel) && u[1] == OfServer(S.AcceptTunnel);
    assert u[2] == OfServer(S.AcceptOutside(11, 8)) && u[3] == ClientReceives(1, [C.Env(C.Refused, 2, 0)]);
    hide *;
    TornRun(x, y);
    LostTunnelRun(x, y);
    Reconnects(x, y);
    StaleByte(x, y);
    RunSnoc(t, u[0]);
    RunSnoc(t + [u[0]], u[1]);
    RunSnoc(t + [u[0]] + [u[1]], u[2]);
    RunSnoc(t + [u[0]] + [u[1]] + [u[2]], u[3]);
    assert [x, 0] != [x, y] by { assert [x, 0][1] != [x, y][1]; }
    if Subseq([x, 0], [x, y]) {
      SubseqLength([x, 0], [x, y]);
    }
  }

  lemma {:induction false} NotBoundary(steps: seq<Step>, step: Step, more: seq<Step>)
    requires !AtBoundary(Run(steps), step)
    ensures !BoundaryRun(steps + [step] + more)
    decreases |more|
  {
    hide Run, AtBoundary;
    var all := steps + [step] + more;
    if more == [] {
      assert all[..|all| - 1] == steps;
    } else {
      NotBoundary(steps, step, more[..|more| - 1]);
      assert all[..|all| - 1] == steps + [step] + more[..|more| - 1];
    }
  }

  // ---------- data read while there is no tunnel ----------

  const ESTABLISHED: seq<Step> :=
    [OfClient(C.ConnectTunnel), OfServer(S.AcceptTunnel), OfServer(S.AcceptOutside(10, 8)),
     ClientReceives(8, [C.Env(C.Connected(20), 0, 0)])]

  /** The tunnel is lost on both sides, x is read and dropped, and a new tunnel carries y. */
  function Lossy(x: byte, y: byte): seq<Step> {
    [OfClient(C.TunnelLost), OfServer(S.TunnelLost), OfServer(S.OutsideRead(1, Data([x]), 0)),
     OfClient(C.ConnectTunnel), OfServer(S.AcceptTunnel),
     OfServer(S.OutsideRead(1, Data([y]), 9)), ClientReceives(9, [C.Env(C.Refused, 1, 0)])]
  }

  const SERVER_ALONE: S.Server := SERVER_OPENED.(held := false)

  function ServerBack(x: byte): S.Server {
    SERVER_OPENED.(session := 2, link := FRESH_LINK, read := map[1 := [x]])
  }

  function ServerSentLater(x: byte, y: byte): S.Server {
    ServerBack(x).(link := Link([DataMessage(1, [y])], [], true), sent := [OPEN_1, DataMessage(1, [y])],
        read := map[1 := [x, y]])
  }

  lemma TunnelDown()
    ensures Apply(Apply(Scene(SERVER_OPENED, CLIENT_OPENED, Opened(1), [NO_LINK], 8), OfClient(C.TunnelLost)),
        OfServer(S.TunnelLost))
            == Scene(SERVER_ALONE, CLIENT_OPENED.(contLoop := false), Opened(1), [NO_LINK], 8)
  {
    hide Bytes, Collect, Encode;
  }

  lemma ReadAndDropped(x: byte)
    ensures Apply(Scene(SERVER_ALONE, CLIENT_OPENED.(contLoop := false), Opened(1), [NO_LINK], 8),
        OfServer(S.OutsideRead(1, Data([x]), 0)))
            == Scene(SERVER_ALONE.(read := map[1 := [x]]), CLIENT_OPENED.(contLoop := false), Opened(1), [NO_LINK], 8)
  {
    assert Append(map[], 1, [x]) == map[1 := [x]] by { assert [] + [x] == [x]; }
    var step := S.OutsideRead(1, Data([x]), 0);
    assert S.Step(SERVER_ALONE, step) == S.OnData(SERVER_ALONE, 1, [x], 0) == SERVER_ALONE.(read := map[1 := [x]]);
    hide S.Step, S.OnData, Bytes, Collect;
  }

  lemma TunnelBack(x: byte)
    ensures var w := Scene(SERVER_ALONE.(read := map[1 := [x]]), CLIENT_OPENED.(contLoop := false), Opened(1),
        [NO_LINK], 8);
            var w1 := Apply(w, OfClient(C.ConnectTunnel));
            && AtBoundary(w, OfClient(C.ConnectTunnel)) && AtBoundary(w1, OfServer(S.AcceptTunnel))
            && Apply(w1, OfServer(S.AcceptTunnel)) ==
              Scene(ServerBack(x), CLIENT_BACK, Opened(1), [NO_LINK, FRESH_LINK], 0)
  {
    hide Bytes, Collect, Encode;
    assert [NO_LINK] + [FRESH_LINK] == [NO_LINK, FRESH_LINK];
  }

  lemma LaterData(x: byte, y: byte)
    ensures Apply(Scene(ServerBack(x), CLIENT_BACK, Opened(1), [NO_LINK, FRESH_LINK], 0), OfServer(S.OutsideRead(1,
        Data([y]), 9)))
            == Scene(ServerSentLater(x, y), CLIENT_BACK, Opened(1), [NO_LINK, FRESH_LINK], 0)
  {
    var m := DataMessage(1, [y]);
    assert |Encode(m)| == 9;
    assert Append(map[1 := [x]], 1, [y]) == map[1 := [x, y]] by { assert [x] + [y] == [x, y]; }
    assert [] + [m] == [m] && [OPEN_1] + [m] == [OPEN_1, m];
    assert Transmit(FRESH_LINK, m, 9) == Link([m], [], true);
    var step := S.OutsideRead(1, Data([y]), 9);
    hide Encode, Transmit, Append, Bytes, Collect;
    assert S.Step(ServerBack(x), step) == S.OnData(ServerBack(x), 1, [y], 9) == ServerSentLater(x, y);
    hide S.Step, S.OnData, ServerBack, ServerSentLater;
  }

  lemma LaterDataArrives(x: byte, y: byte)
    ensures var w := Apply(Scene(ServerSentLater(x, y), CLIENT_BACK, Opened(1), [NO_LINK, FRESH_LINK], 0),
        ClientReceives(9,
        [C.Env(C.Refused, 1, 0)]));
            Parties.At(w.client.delivered, 1) == [y] && Parties.At(w.server.read, 1) == [x, y]
  {
    var m, env := DataMessage(1, [y]), C.Env(C.Refused, 1, 0);
    CollectData(y);
    assert EncodeAll([m]) == Encode(m) by { EncodeAllSnoc([], m); assert [] + [m] == [m]; }
    assert Bytes(ServerSentLater(x, y).link)[0..9] == Encode(m);
    hide Encode, EncodeAll, Collect;
    assert [] + [y] == [y];
    assert ClientHandles(CLIENT_BACK, [m], [env]) == ClientHandles(C.Handle(CLIENT_BACK, m, env), [], []);
    assert C.Handle(CLIENT_BACK, m, env).delivered == Append(map[], 1, [y]);
  }

  lemma CollectData(y: byte)
    ensures Collect(Opened(1), Encode(DataMessage(1, [y]))).msgs == [DataMessage(1, [y])]
  {
    var m := DataMessage(1, [y]);
    CollectRefinesParse(Opened(1), Encode(m));
    ParseFrame(m, []);
    assert Parse([]).msgs == [] && Opened(1).Residue() + Encode(m) == Encode(m) + [];
    hide Parse, Collect, Encode;
  }

  lemma EstablishedRun()
    ensures Run(ESTABLISHED) == Scene(SERVER_OPENED, CLIENT_OPENED, Opened(1), [NO_LINK], 8) && BoundaryRun(ESTABLISHED)
  {
    var t := ESTABLISHED;
    assert t == [] + [t[0]] + [t[1]] + [t[2]] + [t[3]] && Run([]) == INITIAL_WORLD;
    assert CLIENT_OPENED.session == 1;
    hide *;
    TunnelUp();
    FirstOpen(INITIAL);
    OpenArrives();
    RunSnoc([], t[0]);
    RunSnoc([] + [t[0]], t[1]);
    RunSnoc([] + [t[0]] + [t[1]], t[2]);
    RunSnoc([] + [t[0]] + [t[1]] + [t[2]], t[3]);
    WI.OneTunnelIsBoundaryRun(t);
  }

  predicate ChangesTunnel(step: Step) {
    step == OfServer(S.AcceptTunnel) || step == OfClient(C.ConnectTunnel)
  }

  /** One more step of a run. */
  lemma Extends(steps: seq<Step>, step: Step)
    requires BoundaryRun(steps) && (ChangesTunnel(step) ==> AtBoundary(Run(steps), step))
    ensures BoundaryRun(steps + [step]) && Run(steps + [step]) == Apply(Run(steps), step)
  {
    assert (steps + [step])[..|steps|] == steps;
    hide Run;
  }

  /**
   Over several tunnels no more than a subsequence can be had, even when they change at frame
   boundaries: what is read while there is no tunnel is lost.
   */
  lemma PrefixNeedsOneTunnel(x: byte, y: byte)
    requires x != y
    ensures var steps := ESTABLISHED + Lossy(x, y);
            var c, s := Run(steps).client, Run(steps).server;
            && BoundaryRun(steps)
            && Parties.At(c.delivered, 1) == [y] && Parties.At(s.read, 1) == [x, y]
            && !(Parties.At(c.delivered, 1) <= Parties.At(s.read, 1))
  {
    var t, u := ESTABLISHED, Lossy(x, y);
    assert t + u == t + [u[0]] + [u[1]] + [u[2]] + [u[3]] + [u[4]] + [u[5]] + [u[6]];
    assert [y][0] != [x, y][0];
    assert u[0] == OfClient(C.TunnelLost) && u[1] == OfServer(S.TunnelLost) && u[2] ==
        OfServer(S.OutsideRead(1, Data([x]), 0));
    assert u[3] == OfClient(C.ConnectTunnel) && u[4] == OfServer(S.AcceptTunnel) && u[5] ==
        OfServer(S.OutsideRead(1, Data([y]), 9));
    assert u[6] == ClientReceives(9, [C.Env(C.Refused, 1, 0)]);
    assert forall k | k in {0, 1, 2, 5, 6} :: !ChangesTunnel(u[k]);
    hide *;
    EstablishedRun();
    TunnelDown();
    ReadAndDropped(x);
    TunnelBack(x);
    LaterData(x, y);
    LaterDataArrives(x, y);
    Extends(t, u[0]);
    Extends(t + [u[0]], u[1]);
    Extends(t + [u[0]] + [u[1]], u[2]);
    Extends(t + [u[0]] + [u[1]] + [u[2]], u[3]);
    Extends(t + [u[0]] + [u[1]] + [u[2]] + [u[3]], u[4]);
    Extends(t + [u[0]] + [u[1]] + [u[2]] + [u[3]] + [u[4]], u[5]);
    Extends(t + [u[0]] + [u[1]] + [u[2]] + [u[3]] + [u[4]] + [u[5]], u[6]);
  }

  // ---------- a connection closed while there is no tunnel ----------

  /** The tunnel is lost on both sides, the outside closes connection 1, and a new tunnel comes up. */
  const CLOSED_MEANWHILE: seq<Step> :=
    [OfClient(C.TunnelLost), OfServer(S.TunnelLost), OfServer(S.OutsideRead(1, Eof, 0)),
     OfClient(C.ConnectTunnel), OfServer(S.AcceptTunnel)]

  const SERVER_EMPTIED: S.Server := SERVER_ALONE.(table := map[])

  lemma ClosedUnannounced()
    ensures Apply(Scene(SERVER_ALONE, CLIENT_OPENED.(contLoop := false), Opened(1), [NO_LINK], 8),
        OfServer(S.OutsideRead(1, Eof, 0)))
            == Scene(SERVER_EMPTIED, CLIENT_OPENED.(contLoop := false), Opened(1), [NO_LINK], 8)
  {
    assert map[1 := 10] - {1} == map[];
    hide Bytes, Collect;
  }

  lemma TunnelBackAgain()
    ensures var w := Scene(SERVER_EMPTIED, CLIENT_OPENED.(contLoop := false), Opened(1), [NO_LINK], 8);
            var w1 := Apply(w, OfClient(C.ConnectTunnel));
            var w2 := Apply(w1, OfServer(S.AcceptTunnel));
            && AtBoundary(w, OfClient(C.ConnectTunnel)) && AtBoundary(w1, OfServer(S.AcceptTunnel))
            && w2.server.table.Keys == {} && w2.client.table.Keys == {1} && Quiescent(w2) && Healthy(w2)
  {
    assert Bytes(FRESH_LINK) == [];
    hide Bytes, Collect, Encode;
  }

  /** With a second tunnel, everything read and no write failed, the tables need not agree. */
  lemma TablesDisagree()
    ensures var steps := ESTABLISHED + CLOSED_MEANWHILE;
            var w := Run(steps);
            && BoundaryRun(steps) && Quiescent(w) && Healthy(w)
            && w.server.table.Keys == {} && w.client.table.Keys == {1}
  {
    var t, u := ESTABLISHED, CLOSED_MEANWHILE;
    assert t + u == t + [u[0]] + [u[1]] + [u[2]] + [u[3]] + [u[4]];
    assert u[0] == OfClient(C.TunnelLost) && u[1] == OfServer(S.TunnelLost) && u[2] ==
        OfServer(S.OutsideRead(1, Eof, 0));
    assert u[3] == OfClient(C.ConnectTunnel) && u[4] == OfServer(S.AcceptTunnel);
    assert forall k | k in {0, 1, 2} :: !ChangesTunnel(u[k]);
    hide *;
    EstablishedRun();
    TunnelDown();
    ClosedUnannounced();
    TunnelBackAgain();
    Extends(t, u[0]);
    Extends(t + [u[0]], u[1]);
    Extends(t + [u[0]] + [u[1]], u[2]);
    Extends(t + [u[0]] + [u[1]] + [u[2]], u[3]);
    Extends(t + [u[0]] + [u[1]] + [u[2]] + [u[3]], u[4]);
  }
}
