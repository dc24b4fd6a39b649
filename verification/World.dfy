/**
 The two programs and the tunnel connections between them, at the level of bytes: every chunk read
 from a tunnel goes through the receiver's reassembly machine and every message it completes is
 handled. A run is any sequence of steps, each with any outcome the system calls can have.
 */
module World {
  import opened Protocol
  import opened Reassembly
  import opened Links
  import opened Parties
  import S = ServerModel
  import C = ClientModel

  datatype World = World(
    server: S.Server,
    client: C.Client,
    serverRec: Parser,      // each side has one machine for all its tunnels
    clientRec: Parser,
    past: seq<Link>,        // what the client wrote to its earlier tunnels, by number
    upRead: nat,            // bytes the server has read from its latest tunnel
    downRead: nat)          // bytes the client has read from its latest tunnel

  const INITIAL_WORLD := World(S.INITIAL_SERVER, C.INITIAL_CLIENT, INITIAL, INITIAL, [], 0, 0)

  /** What the client wrote to the tunnel the server accepted last. */
  function UpLink(w: World): Link {
    if w.server.session < |w.past| then w.past[w.server.session] else w.client.link
  }

  datatype Step =
    | OfServer(s: S.ServerStep)
    | OfClient(c: C.ClientStep)
    | ServerReceives(n: nat, serverEnvs: seq<S.Env>)
    | ClientReceives(n: nat, clientEnvs: seq<C.Env>)

  predicate CanStep(w: World, step: Step) {
    match step
    case OfServer(s) => S.Enabled(w.server, s) && (s.AcceptTunnel? ==> w.server.session < w.client.session)
    case OfClient(c) => C.Enabled(w.client, c)
    case ServerReceives(n, _) =>
      w.server.held && 0 < n <= MAX_TUNNEL_READ && w.upRead + n <= |Bytes(UpLink(w))|
    case ClientReceives(n, _) =>
      && w.client.contLoop && w.server.session == w.client.session
      && 0 < n <= MAX_TUNNEL_READ && w.downRead + n <= |Bytes(w.server.link)|
  }

  /** The draining loops: every queued message is handled, in order. */
  function ServerHandles(s: S.Server, ms: seq<Message>, envs: seq<S.Env>): S.Server
    decreases |ms|
  {
    if ms == [] then s
    else if envs == [] then ServerHandles(S.Handle(s, ms[0], S.Env(0, 0)), ms[1..], [])
    else ServerHandles(S.Handle(s, ms[0], envs[0]), ms[1..], envs[1..])
  }

  function ClientHandles(c: C.Client, ms: seq<Message>, envs: seq<C.Env>): C.Client
    decreases |ms|
  {
    if ms == [] then c
    else if envs == [] then ClientHandles(C.Handle(c, ms[0], C.Env(C.Refused, 0, 0)), ms[1..], [])
    else ClientHandles(C.Handle(c, ms[0], envs[0]), ms[1..], envs[1..])
  }

  function ServerReads(w: World, n: nat, envs: seq<S.Env>): World
    requires w.serverRec.Valid() && w.upRead + n <= |Bytes(UpLink(w))|
  {
    var d := Collect(w.serverRec, Bytes(UpLink(w))[w.upRead..w.upRead + n]);
    w.(server := ServerHandles(w.server, d.msgs, envs), serverRec := d.parser, upRead := w.upRead + n)
  }

  function ClientReads(w: World, n: nat, envs: seq<C.Env>): World
    requires w.clientRec.Valid() && w.downRead + n <= |Bytes(w.server.link)|
  {
    var d := Collect(w.clientRec, Bytes(w.server.link)[w.downRead..w.downRead + n]);
    w.(client := ClientHandles(w.client, d.msgs, envs), clientRec := d.parser, downRead := w.downRead + n)
  }

  /** One step; a step that cannot happen changes nothing. */
  function Apply(w: World, step: Step): World
    requires w.serverRec.Valid() && w.clientRec.Valid()
  {
    if !CanStep(w, step) then w
    else
      match step
      case OfServer(s) =>
        w.(server := S.Step(w.server, s), upRead := if s.AcceptTunnel? then 0 else w.upRead)
      case OfClient(ConnectTunnel) =>
        w.(client := C.Step(w.client, C.ConnectTunnel), past := w.past + [w.client.link], downRead := 0)
      case OfClient(c) => w.(client := C.Step(w.client, c))
      case ServerReceives(n, envs) => ServerReads(w, n, envs)
      case ClientReceives(n, envs) => ClientReads(w, n, envs)
  }

  function Run(steps: seq<Step>): (w: World)
    ensures w.serverRec.Valid() && w.clientRec.Valid()
    decreases |steps|
  {
    if steps == [] then INITIAL_WORLD else Apply(Run(steps[..|steps| - 1]), steps[|steps| - 1])
  }

  // ---------- stretches of a run ----------

  function ApplyAll(w: World, steps: seq<Step>): (w': World)
    requires w.serverRec.Valid() && w.clientRec.Valid()
    ensures w'.serverRec.Valid() && w'.clientRec.Valid()
    decreases |steps|
  {
    if steps == [] then w else Apply(ApplyAll(w, steps[..|steps| - 1]), steps[|steps| - 1])
  }

  lemma ApplySnoc(w: World, steps: seq<Step>, step: Step)
    requires w.serverRec.Valid() && w.clientRec.Valid()
    ensures ApplyAll(w, steps + [step]) == Apply(ApplyAll(w, steps), step)
  {
    assert (steps + [step])[..|steps|] == steps;
  }

  lemma {:induction false} ApplyConcat(w: World, a: seq<Step>, b: seq<Step>)
    requires w.serverRec.Valid() && w.clientRec.Valid()
    ensures ApplyAll(w, a + b) == ApplyAll(ApplyAll(w, a), b)
    decreases |b|
  {
    hide Apply;
    if b == [] {
      assert a + b == a;
    } else {
      var init, last := b[..|b| - 1], b[|b| - 1];
      ApplyConcat(w, a, init);
      ApplySnoc(w, a + init, last);
      assert a + b == a + init + [last];
    }
  }

  /** A stretch that starts where a run has led continues that run. */
  lemma {:induction false} Continues(before: seq<Step>, steps: seq<Step>)
    ensures ApplyAll(Run(before), steps) == Run(before + steps)
    decreases |steps|
  {
    hide Apply;
    if steps == [] {
      assert before + steps == before;
    } else {
      var init := steps[..|steps| - 1];
      Continues(before, init);
      assert (before + steps)[..|before + steps| - 1] == before + init;
    }
  }

  lemma ApplyNone(w: World)
    requires w.serverRec.Valid() && w.clientRec.Valid()
    ensures ApplyAll(w, []) == w
  {
  }

  lemma ApplyOne(w: World, step: Step)
    requires w.serverRec.Valid() && w.clientRec.Valid()
    ensures ApplyAll(w, [step]) == Apply(w, step)
  {
    ApplySnoc(w, [], step);
    assert [] + [step] == [step];
    hide Apply;
  }

  // ---------- tunnels that change at frame boundaries ----------

  /** The reader of a new tunnel has nothing of the old one left over. */
  predicate AtBoundary(w: World, step: Step) {
    CanStep(w, step) ==>
      match step
      case OfServer(AcceptTunnel) => w.serverRec.Residue() == []
      case OfClient(ConnectTunnel) => w.clientRec.Residue() == []
      case _ => true
  }

  /** Tunnels change at frame boundaries, on both sides. */
  predicate BoundaryRun(steps: seq<Step>)
    decreases |steps|
  {
    steps != [] ==>
      BoundaryRun(steps[..|steps| - 1]) && AtBoundary(Run(steps[..|steps| - 1]), steps[|steps| - 1])
  }
}
