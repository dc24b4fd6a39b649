/** What the calls of a run returned, and that the histories the main results speak of are exactly that. */
module Inputs {
  // The bytes, datagrams and connections that the world outside the two programs produced, told from the steps.

  import opened Protocol
  import opened Reassembly
  import opened Links
  import opened Parties
  import opened World
  import opened Effects
  import S = ServerModel
  import C = ClientModel

  // ---------- what was read ----------

  /** The bytes read from an outside connection while it was in the table, in order. */
  function OutsideBytes(steps: seq<Step>, id: ConnId): seq<byte> {
    if steps == [] then []
    else
      var init := steps[..|steps| - 1];
      OutsideBytes(init, id) +
      match steps[|steps| - 1]
      case OfServer(OutsideRead(i, Data(bytes), _)) => if i == id && id in Run(init).server.table then bytes else []
      case _ => []
  }

  /** The bytes read from a connection to the destination while it was in the table, in order. */
  function DestinationBytes(steps: seq<Step>, id: ConnId): seq<byte> {
    if steps == [] then []
    else
      var init := steps[..|steps| - 1];
      DestinationBytes(init, id) +
      match steps[|steps| - 1]
      case OfClient(DestinationRead(i, Data(bytes), _)) => if i == id && id in Run(init).client.table then bytes else []
      case _ => []
  }

  function SeenIn(step: Step): seq<(S.Address, seq<byte>)> {
    match step
    case OfServer(OutsideUdp(Received(from, data), _)) => [(from, data)]
    case _ => []
  }

  /** The datagrams received from outside, with their senders. */
  function OutsideDatagrams(steps: seq<Step>): seq<(S.Address, seq<byte>)> {
    if steps == [] then [] else OutsideDatagrams(steps[..|steps| - 1]) + SeenIn(steps[|steps| - 1])
  }

  function PassedIn(held: bool, step: Step): seq<seq<byte>> {
    match step
    case OfServer(OutsideUdp(Received(_, data), _)) => if data != [] && held then [data] else []
    case _ => []
  }

  /** Those of them that are passed on: not empty, and received while there was a tunnel. */
  function PassedOn(steps: seq<Step>): seq<seq<byte>> {
    if steps == [] then []
    else
      var init := steps[..|steps| - 1];
      PassedOn(init) + PassedIn(Run(init).server.held, steps[|steps| - 1])
  }

  /** The datagrams received from the destination, empty ones apart. */
  function DestinationDatagrams(steps: seq<Step>): seq<seq<byte>> {
    if steps == [] then []
    else
      DestinationDatagrams(steps[..|steps| - 1]) +
      match steps[|steps| - 1]
      case OfClient(DestinationUdp(data, _)) => if data == [] then [] else [data]
      case _ => []
  }

  // ---------- what is answered ----------

  ghost predicate Heard(seen: seq<(S.Address, seq<byte>)>) {
    exists d <- seen :: d.1 != []
  }

  /** The replies due for the datagrams among these messages: each to the sender of the latest datagram from outside. */
  ghost function Replies(seen: seq<(S.Address, seq<byte>)>, ms: seq<Message>): seq<S.UdpReply> {
    if ms == [] then []
    else
      var m := ms[|ms| - 1];
      Replies(seen, ms[..|ms| - 1]) +
      if m.mtype.UdpPacket? && m.payload != [] && Heard(seen)
      then [S.UdpReply(seen[|seen| - 1].0, m.payload, |seen|)] else []
  }

  /** The messages the server's machine completes in a step. */
  function ServerGets(w: World, step: Step): seq<Message>
    requires w.serverRec.Valid()
  {
    if step.ServerReceives? && CanStep(w, step)
    then Collect(w.serverRec, Bytes(UpLink(w))[w.upRead..w.upRead + step.n]).msgs
    else []
  }

  /** The replies due in a run: none before a non-empty datagram has been received from outside. */
  ghost function RepliesDue(steps: seq<Step>): seq<S.UdpReply> {
    if steps == [] then []
    else
      var init := steps[..|steps| - 1];
      RepliesDue(init) + Replies(OutsideDatagrams(init), ServerGets(Run(init), steps[|steps| - 1]))
  }

  // ---------- what is admitted ----------

  /** How many outside connections came while there was a tunnel. */
  function Admitted(steps: seq<Step>): nat {
    if steps == [] then 0
    else
      var init := steps[..|steps| - 1];
      Admitted(init) +
      match steps[|steps| - 1]
      case OfServer(AcceptOutside(fd, k)) =>
        if Run(init).server.held && CanStep(Run(init), steps[|steps| - 1]) then 1 else 0
      case _ => 0
  }

  // ---------- the histories are exactly that ----------

  /** The latest sender is that of the latest datagram, and known to be one once a datagram was not empty. */
  ghost predicate SenderKnown(u: S.Udp) {
    (u.hasSender <==> Heard(u.seen)) && (u.seen != [] ==> u.lastSender == u.seen[|u.seen| - 1].0)
  }

  lemma {:induction false} RepliesConcat(seen: seq<(S.Address, seq<byte>)>, a: seq<Message>, b: seq<Message>)
    ensures Replies(seen, a + b) == Replies(seen, a) + Replies(seen, b)
    decreases |b|
  {
    hide Heard;
    if b == [] {
      assert a + b == a;
    } else {
      RepliesConcat(seen, a, b[..|b| - 1]);
      assert (a + b)[..|a + b| - 1] == a + b[..|b| - 1];
    }
  }

  lemma OneReply(seen: seq<(S.Address, seq<byte>)>, m: Message)
    ensures Replies(seen, [m]) ==
            if m.mtype.UdpPacket? && m.payload != [] && Heard(seen)
            then [S.UdpReply(seen[|seen| - 1].0, m.payload, |seen|)] else []
  {
    var one := [m];
    assert one[..|one| - 1] == [];
    assert Replies(seen, one[..|one| - 1]) == [];
  }

  /** Handling a message reads nothing, receives no datagram and admits no connection. */
  lemma DataReadsNothing(s: S.Server, id: ConnId, payload: seq<byte>, env: S.Env)
    ensures var t := S.OnTunnelData(s, id, payload, env);
            t.read == s.read && t.nextId == s.nextId && t.added == s.added && t.udp == s.udp
  {
    hide Transmit, Append, Cut;
  }

  lemma HandleInputs(s: S.Server, m: Message, env: S.Env)
    requires SenderKnown(s.udp)
    ensures var t := S.Handle(s, m, env);
            && t.read == s.read && t.nextId == s.nextId && t.added == s.added
            && t.udp == s.udp.(replies := s.udp.replies + Replies(s.udp.seen, [m]))
  {
    OneReply(s.udp.seen, m);
    DataReadsNothing(s.(handled := s.handled + [m]), m.connId, m.payload, env);
    assert s.udp.replies + [] == s.udp.replies;
    hide Replies, Heard, S.OnTunnelData;
  }

  lemma {:induction false} HandlesInputs(s: S.Server, ms: seq<Message>, envs: seq<S.Env>)
    requires SenderKnown(s.udp)
    ensures var t := ServerHandles(s, ms, envs);
            && t.read == s.read && t.nextId == s.nextId && t.added == s.added
            && t.udp == s.udp.(replies := s.udp.replies + Replies(s.udp.seen, ms))
    decreases |ms|
  {
    hide S.Handle, Heard;
    if ms == [] {
      assert s.udp.replies + Replies(s.udp.seen, []) == s.udp.replies;
    } else {
      var env := if envs == [] then S.Env(0, 0) else envs[0];
      var s1 := S.Handle(s, ms[0], env);
      HandleInputs(s, ms[0], env);
      HandlesInputs(s1, ms[1..], if envs == [] then [] else envs[1..]);
      RepliesConcat(s.udp.seen, [ms[0]], ms[1..]);
      assert [ms[0]] + ms[1..] == ms;
      assert s.udp.replies + Replies(s.udp.seen, [ms[0]]) + Replies(s.udp.seen, ms[1..])
             == s.udp.replies + Replies(s.udp.seen, ms);
    }
  }

  lemma {:induction false} ClientHandlesRead(c: C.Client, ms: seq<Message>, envs: seq<C.Env>)
    ensures ClientHandles(c, ms, envs).read == c.read && ClientHandles(c, ms, envs).udpRead == c.udpRead
    decreases |ms|
  {
    hide C.Handle;
    if ms != [] {
      var env := if envs == [] then C.Env(C.Refused, 0, 0) else envs[0];
      ClientKeeps(c, ms[0], env);
      ClientHandlesRead(C.Handle(c, ms[0], env), ms[1..], if envs == [] then [] else envs[1..]);
    }
  }

  /** The bytes a branch of the server reads from a connection. */
  function ServerReadsOf(s: S.Server, step: S.ServerStep, id: ConnId): seq<byte> {
    match step
    case OutsideRead(i, Data(bytes), _) => if i == id && id in s.table then bytes else []
    case _ => []
  }

  lemma ServerReadsExactly(s: S.Server, step: S.ServerStep, id: ConnId)
    requires S.Enabled(s, step)
    ensures At(S.Step(s, step).read, id) == At(s.read, id) + ServerReadsOf(s, step, id)
  {
    assert At(s.read, id) + [] == At(s.read, id);
    hide Transmit;
  }

  function ClientReadsOf(c: C.Client, step: C.ClientStep, id: ConnId): seq<byte> {
    match step
    case DestinationRead(i, Data(bytes), _) => if i == id && id in c.table then bytes else []
    case _ => []
  }

  lemma ClientReadsExactly(c: C.Client, step: C.ClientStep, id: ConnId)
    requires C.Enabled(c, step)
    ensures At(C.Step(c, step).read, id) == At(c.read, id) + ClientReadsOf(c, step, id)
    ensures C.Step(c, step).udpRead ==
            c.udpRead + if step.DestinationUdp? && step.data != [] then [step.data] else []
  {
    assert At(c.read, id) + [] == At(c.read, id) && c.udpRead + [] == c.udpRead;
    hide C.Send;
    match step
    case DestinationUdp(data, k) => ClientSendKeeps(c.(udpRead := c.udpRead + [data]), UdpMessage(data), k);
    case DestinationRead(i, result, k) =>
      if result.Data? {
        ClientSendKeeps(c.(read := Append(c.read, i, result.bytes)), DataMessage(i, result.bytes), k);
      } else {
        ClientSendKeeps(c, CloseMessage(i), k);
      }
    case _ =>
  }

  /** What a branch of the server does to the datagram side. */
  lemma ServerDatagrams(s: S.Server, step: S.ServerStep)
    requires S.Enabled(s, step) && SenderKnown(s.udp)
    ensures var u := S.Step(s, step).udp;
            && SenderKnown(u) && u.replies == s.udp.replies
            && u.seen == s.udp.seen + SeenIn(OfServer(step))
            && u.accepted == s.udp.accepted + PassedIn(s.held, OfServer(step))
  {
    assert s.udp.seen + [] == s.udp.seen && s.udp.accepted + [] == s.udp.accepted;
    match step
    case OutsideUdp(outcome, k) =>
      if outcome.Received? {
        HeardSnoc(s.udp.seen, (outcome.from, outcome.data));
        hide Heard, S.Send;
        OnUdpDatagrams(s, outcome.from, outcome.data, k);
      }
    case AcceptOutside(fd, k) =>
      hide Heard, S.Send;
      ServerSendKeeps(S.Enter(s, fd), OpenMessage(s.nextId), k);
    case OutsideRead(i, result, k) =>
      hide Heard, S.Send;
      ServerReadKeeps(s, i, result, k);
    case _ =>
  }

  lemma OnUdpDatagrams(s: S.Server, from: S.Address, data: Datagram, k: nat)
    ensures var u := s.udp.(lastSender := from, seen := s.udp.seen + [(from, data)]);
            S.OnUdp(s, S.Received(from, data), k).udp ==
            if data == [] then u
            else u.(hasSender := true, accepted := if s.held then u.accepted + [data] else u.accepted)
  {
    hide S.Send;
    var u := s.udp.(lastSender := from, seen := s.udp.seen + [(from, data)]);
    ServerSendKeeps(s.(udp := u.(hasSender := true, accepted := u.accepted + [data])), UdpMessage(data), k);
  }

  lemma ServerReadKeeps(s: S.Server, id: ConnId, result: ReadOutcome, k: nat)
    ensures S.Step(s, S.OutsideRead(id, result, k)).udp == s.udp
  {
    hide S.Send, Append;
    if result.Data? {
      ServerSendKeeps(s.(read := Append(s.read, id, result.bytes)), DataMessage(id, result.bytes), k);
    }
    ServerSendKeeps(s, CloseMessage(id), k);
  }

  lemma HeardSnoc(seen: seq<(S.Address, seq<byte>)>, d: (S.Address, seq<byte>))
    ensures Heard(seen + [d]) <==> Heard(seen) || d.1 != []
  {
    if Heard(seen) {
      var e :| e in seen && e.1 != [];
      assert e in seen + [d];
    }
    assert d in seen + [d];
  }

  /** A branch issues the next id when a connection comes while there is a tunnel, and else none. */
  lemma ServerIssues(s: S.Server, step: S.ServerStep)
    requires S.Enabled(s, step)
    ensures var t := S.Step(s, step);
            if step.AcceptOutside? && s.held then t.nextId == s.nextId + 1 && t.added == s.added + [s.nextId]
            else t.nextId == s.nextId && t.added == s.added
  {
    hide Transmit, Append;
  }

  // ---------- over runs ----------

  lemma ApplyOutsideReads(w: World, step: Step, id: ConnId)
    requires w.serverRec.Valid() && w.clientRec.Valid()
    ensures At(Apply(w, step).server.read, id) ==
            At(w.server.read, id) + if step.OfServer? then ServerReadsOf(w.server, step.s, id) else []
  {
    assert At(w.server.read, id) + [] == At(w.server.read, id);
    match step
    case OfServer(s) =>
      if S.Enabled(w.server, s) {
        ServerReadsExactly(w.server, s, id);
      }
      hide S.Step, At;
    case ServerReceives(n, envs) =>
      if CanStep(w, step) {
        ReadByNone(w.server, Collect(w.serverRec, Bytes(UpLink(w))[w.upRead..w.upRead + n]).msgs, envs);
      }
      hide Collect, Bytes, ServerHandles, At, UpLink;
    case _ => hide C.Step, Collect, Bytes, ClientHandles, At;
  }

  lemma ApplyDestinationReads(w: World, step: Step, id: ConnId)
    requires w.serverRec.Valid() && w.clientRec.Valid()
    ensures At(Apply(w, step).client.read, id) ==
            At(w.client.read, id) + if step.OfClient? then ClientReadsOf(w.client, step.c, id) else []
  {
    assert At(w.client.read, id) + [] == At(w.client.read, id);
    match step
    case OfClient(c) =>
      if C.Enabled(w.client, c) {
        ClientReadsExactly(w.client, c, id);
      }
      hide C.Step, At;
    case ClientReceives(n, envs) =>
      if CanStep(w, step) {
        ClientHandlesRead(w.client, Collect(w.clientRec, Bytes(w.server.link)[w.downRead..w.downRead + n]).msgs, envs);
      }
      hide Collect, Bytes, ClientHandles, At;
    case _ => hide S.Step, Collect, Bytes, ServerHandles, At;
  }

  lemma {:induction false} ReadByNone(s: S.Server, ms: seq<Message>, envs: seq<S.Env>)
    ensures ServerHandles(s, ms, envs).read == s.read
    decreases |ms|
  {
    hide S.Handle;
    if ms != [] {
      var env := if envs == [] then S.Env(0, 0) else envs[0];
      ServerKeeps(s, ms[0], env);
      ReadByNone(S.Handle(s, ms[0], env), ms[1..], if envs == [] then [] else envs[1..]);
    }
  }

  /** The histories of what was read hold exactly the bytes the calls of the run returned, in order. */
  lemma {:induction false} ReadIsInput(steps: seq<Step>, id: ConnId)
    ensures At(Run(steps).server.read, id) == OutsideBytes(steps, id)
    ensures At(Run(steps).client.read, id) == DestinationBytes(steps, id)
    decreases |steps|
  {
    if steps != [] {
      var init, step := steps[..|steps| - 1], steps[|steps| - 1];
      ReadIsInput(init, id);
      ApplyOutsideReads(Run(init), step, id);
      ApplyDestinationReads(Run(init), step, id);
      hide Apply, At;
    }
  }

  /** What a step does to the server's datagram side. */
  ghost predicate UdpDone(w: World, step: Step, u: S.Udp)
    requires w.serverRec.Valid()
  {
    && SenderKnown(u)
    && u.seen == w.server.udp.seen + SeenIn(step)
    && u.accepted == w.server.udp.accepted + PassedIn(w.server.held, step)
    && u.replies == w.server.udp.replies + Replies(w.server.udp.seen, ServerGets(w, step))
  }

  lemma UdpIdle(w: World, step: Step)
    requires w.serverRec.Valid() && SenderKnown(w.server.udp)
    requires SeenIn(step) == [] && PassedIn(w.server.held, step) == [] && ServerGets(w, step) == []
    ensures UdpDone(w, step, w.server.udp)
  {
    var u := w.server.udp;
    assert u.seen + [] == u.seen && u.accepted + [] == u.accepted;
    assert u.replies + Replies(u.seen, []) == u.replies;
    hide SenderKnown, SeenIn, PassedIn, ServerGets;
  }

  lemma BranchDatagrams(w: World, s: S.ServerStep)
    requires w.serverRec.Valid() && w.clientRec.Valid() && SenderKnown(w.server.udp)
    ensures UdpDone(w, OfServer(s), Apply(w, OfServer(s)).server.udp)
  {
    if CanStep(w, OfServer(s)) {
      ServerDatagrams(w.server, s);
      var u := w.server.udp;
      assert u.replies + Replies(u.seen, []) == u.replies;
      hide S.Step, SenderKnown, SeenIn, PassedIn;
    } else {
      assert SeenIn(OfServer(s)) == [] && PassedIn(w.server.held, OfServer(s)) == [];
      UdpIdle(w, OfServer(s));
      hide UdpDone, S.Step, SenderKnown;
    }
  }

  lemma ChunkDatagrams(w: World, n: nat, envs: seq<S.Env>)
    requires w.serverRec.Valid() && w.clientRec.Valid() && SenderKnown(w.server.udp)
    ensures UdpDone(w, ServerReceives(n, envs), Apply(w, ServerReceives(n, envs)).server.udp)
  {
    var u, step := w.server.udp, ServerReceives(n, envs);
    if CanStep(w, step) {
      HandlesInputs(w.server, ServerGets(w, step), envs);
      assert u.seen + [] == u.seen && u.accepted + [] == u.accepted;
      hide Collect, Bytes, ServerHandles, Heard, Replies, UpLink;
    } else {
      UdpIdle(w, step);
      hide UdpDone, SenderKnown, Collect, ServerHandles;
    }
  }

  lemma ApplyDatagrams(w: World, step: Step)
    requires w.serverRec.Valid() && w.clientRec.Valid() && SenderKnown(w.server.udp)
    ensures UdpDone(w, step, Apply(w, step).server.udp)
  {
    match step
    case OfServer(s) =>
      hide *;
      BranchDatagrams(w, s);
    case ServerReceives(n, envs) =>
      hide *;
      ChunkDatagrams(w, n, envs);
    case _ =>
      UdpIdle(w, step);
      hide UdpDone, SenderKnown, C.Step, Collect, Bytes, ClientHandles;
  }

  lemma ApplyDestination(w: World, step: Step)
    requires w.serverRec.Valid() && w.clientRec.Valid()
    ensures Apply(w, step).client.udpRead == w.client.udpRead + match step
              case OfClient(DestinationUdp(data, _)) => if data == [] then [] else [data]
              case _ => []
  {
    assert w.client.udpRead + [] == w.client.udpRead;
    if CanStep(w, step) {
      match step
      case OfClient(c) =>
        ClientReadsExactly(w.client, c, 0);
        hide C.Step;
      case ClientReceives(n, envs) =>
        hide Collect, Bytes, ClientHandles;
        ClientHandlesRead(w.client, Collect(w.clientRec, Bytes(w.server.link)[w.downRead..w.downRead + n]).msgs, envs);
      case _ => hide S.Step, Collect, Bytes, ServerHandles;
    }
  }

  /** The datagram histories are what was received, and the replies are those due, no more and no fewer. */
  lemma {:induction false} DatagramsAreInput(steps: seq<Step>)
    ensures var u := Run(steps).server.udp;
            && SenderKnown(u) && u.seen == OutsideDatagrams(steps)
            && u.accepted == PassedOn(steps) && u.replies == RepliesDue(steps)
    ensures Run(steps).client.udpRead == DestinationDatagrams(steps)
    decreases |steps|
  {
    if steps == [] {
      assert !Heard([]);
    } else {
      var init, step := steps[..|steps| - 1], steps[|steps| - 1];
      DatagramsAreInput(init);
      ApplyDatagrams(Run(init), step);
      ApplyDestination(Run(init), step);
      hide Apply, SenderKnown, Replies, ServerGets, SeenIn, PassedIn;
    }
  }

  lemma ApplyIssues(w: World, step: Step)
    requires w.serverRec.Valid() && w.clientRec.Valid() && SenderKnown(w.server.udp)
    ensures var s, t := w.server, Apply(w, step).server;
            if step.OfServer? && step.s.AcceptOutside? && s.held && CanStep(w, step)
            then t.nextId == s.nextId + 1 && t.added == s.added + [s.nextId]
            else t.nextId == s.nextId && t.added == s.added
  {
    if CanStep(w, step) {
      match step
      case OfServer(s) =>
        ServerIssues(w.server, s);
        hide S.Step;
      case ServerReceives(n, envs) =>
        hide Collect, Bytes, ServerHandles, Heard;
        HandlesInputs(w.server, Collect(w.serverRec, Bytes(UpLink(w))[w.upRead..w.upRead + n]).msgs, envs);
      case _ => hide C.Step, Collect, Bytes, ClientHandles;
    }
  }

  /**
   Every outside connection that comes while there is a tunnel is given an id, and no other: the ids are
   1, 2, 3 and so on in the order in which the connections came.
   */
  lemma {:induction false} IdsInOrder(steps: seq<Step>)
    ensures var s := Run(steps).server;
            && s.nextId == Admitted(steps) + 1 && |s.added| == Admitted(steps)
            && forall i | 0 <= i < |s.added| :: s.added[i] == i + 1
    decreases |steps|
  {
    if steps != [] {
      var init, step := steps[..|steps| - 1], steps[|steps| - 1];
      IdsInOrder(init);
      DatagramsAreInput(init);
      ApplyIssues(Run(init), step);
      hide Apply, SenderKnown;
    }
  }
}
