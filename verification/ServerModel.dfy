/**
 TunnelServer: the effect of each branch of its dispatch loop, with the history of what it read,
 sent, handled and wrote, and the invariant every branch keeps.
 */
module ServerModel {
  import opened Protocol
  import opened Seqs
  import opened Links
  import opened Logs
  import opened Parties

  type Address = nat

  /** A datagram sent to the sender of the seen-th datagram received. */
  datatype UdpReply = UdpReply(to: Address, payload: seq<byte>, seen: nat)

  /** The datagram side: the latest sender, and what was received, passed on and answered. */
  datatype Udp = Udp(
    lastSender: Address,
    hasSender: bool,
    seen: seq<(Address, seq<byte>)>,
    accepted: seq<seq<byte>>,
    replies: seq<UdpReply>)

  datatype Server = Server(
    nextId: nat,                    // next connection id, within one server lifetime
    table: map<ConnId, int>,        // outside connections and their descriptors
    session: nat,                   // tunnels accepted so far
    held: bool,                     // the latest of them is still held
    link: Link,                     // what was written to it
    udp: Udp,
    // history
    sent: seq<Message>,             // frames written in full, over all tunnels
    handled: seq<Message>,          // frames processed, over all tunnels
    base: nat,                      // how many of them before the latest tunnel
    read: History,                  // bytes read from each outside connection
    delivered: History,             // bytes written to each outside connection
    added: seq<ConnId>)             // ids entered into the table

  const INITIAL_SERVER :=
    Server(1, map[], 0, false, NO_LINK, Udp(0, false, [], [], []), [], [], 0, map[], map[], [])

  function Send(s: Server, m: Message, k: nat): Server {
    var l := Transmit(s.link, m, k);
    s.(link := l, sent := if l.ok then s.sent + [m] else s.sent)
  }

  function Remove(s: Server, id: ConnId): Server {
    s.(table := s.table - {id})
  }

  datatype UdpOutcome = UdpFailed | Received(from: Address, data: Datagram)

  /** The outside's part in handling one frame: bytes accepted by the destination socket, and by the tunnel. */
  datatype Env = Env(accepts: nat, sends: nat)

  datatype ServerStep =
    | AcceptTunnel
    | TunnelLost
    | AcceptOutside(fd: int, k: nat)
    | OutsideUdp(outcome: UdpOutcome, k: nat)
    | OutsideRead(id: ConnId, result: ReadOutcome, k: nat)

  /** A new descriptor differs from the open ones, and ids are counted within one lifetime. */
  predicate Enabled(s: Server, step: ServerStep) {
    step.AcceptOutside? ==> step.fd !in s.table.Values && 1 <= s.nextId < 0x1_0000_0000
  }

  /** The table entry made for a new outside connection. */
  function Enter(s: Server, fd: int): Server
    requires 1 <= s.nextId < 0x1_0000_0000
  {
    s.(nextId := s.nextId + 1, table := s.table[s.nextId := fd], added := s.added + [s.nextId])
  }

  function OnAccept(s: Server, fd: int, k: nat): Server
    requires 1 <= s.nextId < 0x1_0000_0000
  {
    if !s.held then s
    else
      var s2 := Send(Enter(s, fd), OpenMessage(s.nextId), k);
      if s2.link.ok then s2 else Remove(s2, s.nextId)
  }

  function OnUdp(s: Server, outcome: UdpOutcome, k: nat): Server {
    match outcome
    case UdpFailed => s
    case Received(from, data) =>
      var u := s.udp.(lastSender := from, seen := s.udp.seen + [(from, data)]);
      if data == [] then s.(udp := u)
      else if !s.held then s.(udp := u.(hasSender := true))
      else
        var s2 := Send(s.(udp := u.(hasSender := true, accepted := u.accepted + [data])), UdpMessage(data), k);
        if s2.link.ok then s2 else s2.(held := false)
  }

  function OnData(s: Server, id: ConnId, bytes: Block, k: nat): Server {
    var s1 := s.(read := Append(s.read, id, bytes));
    if !s.held then s1
    else
      var s2 := Send(s1, DataMessage(id, bytes), k);
      if s2.link.ok then s2 else Remove(s2, id)
  }

  function OnClosed(s: Server, id: ConnId, k: nat): Server {
    Remove(if s.held then Send(s, CloseMessage(id), k) else s, id)
  }

  function Step(s: Server, step: ServerStep): Server
    requires Enabled(s, step)
  {
    match step
    case AcceptTunnel => s.(session := s.session + 1, held := true, link := FRESH_LINK, base := |s.handled|)
    case TunnelLost => s.(held := false)
    case AcceptOutside(fd, k) => OnAccept(s, fd, k)
    case OutsideUdp(outcome, k) => OnUdp(s, outcome, k)
    case OutsideRead(id, result, k) =>
      if id !in s.table || result.WouldBlock? then s
      else if result.Data? then OnData(s, id, result.bytes, k)
      else OnClosed(s, id, k)
  }

  function OnTunnelData(s: Server, id: ConnId, payload: seq<byte>, env: Env): Server {
    var s1 := s.(delivered := Append(s.delivered, id, Cut(payload, env.accepts)));
    if env.accepts >= |payload| then s1 else Send(Remove(s1, id), CloseMessage(id), env.sends)
  }

  function Handle(s: Server, m: Message, env: Env): Server {
    var s0 := s.(handled := s.handled + [m]);
    match m.mtype
    case UdpPacket =>
      if s.udp.hasSender && m.payload != [] then
        s0.(udp := s.udp.(replies := s.udp.replies + [UdpReply(s.udp.lastSender, m.payload, |s.udp.seen|)]))
      else s0
    case TcpData => if m.connId in s.table then OnTunnelData(s0, m.connId, m.payload, env) else s0
    case TcpClose => Remove(s0, m.connId)
    case TcpOpen => s0
  }

  // ---------- what holds of one connection ----------

  predicate IsAllocated(s: Server, id: ConnId) {
    1 <= id < s.nextId
  }

  /** All that the invariant needs to know about one connection. */
  datatype View = View(
    issued: bool, added: bool, present: bool,  // its id was handed out, was entered, is in the table
    first: bool, intact: bool,                    // one tunnel so far; still held and no write failed
    stage: Stage, sent: seq<byte>, read: seq<byte>,
    reply: Reply, handled: seq<byte>, delivered: seq<byte>)

  function ViewOf(s: Server, id: ConnId): View {
    View(IsAllocated(s, id), id in s.added, id in s.table, s.session <= 1, Intact(s),
         ServerStage(s.sent, id), Payload(s.sent, id), At(s.read, id),
         ClientReply(s.handled, id), Payload(s.handled, id), At(s.delivered, id))
  }

  ghost predicate ViewInv(v: View) {
    && v.stage != Bad
    && (!v.issued ==> v.stage == Fresh && v.sent == [] && v.read == [] && v.delivered == [] && !v.added && !v.present)
    && (v.present ==> v.added && v.stage == Opened && v.reply == Sending && v.delivered == v.handled)
    && v.delivered <= v.handled
    && Subseq(v.sent, v.read)
    && (v.first ==> v.sent <= v.read)
    && (v.first && v.intact && v.present ==> v.sent == v.read)
    && (v.first && v.intact && v.stage == Opened && v.reply == Sending ==> v.present)
  }

  predicate Intact(s: Server) {
    s.held && s.link.ok
  }

  ghost predicate UdpInv(s: Server) {
    FlowInv(s) && RepliesInv(s.udp, s.handled)
  }

  /** Datagrams sent are those passed on, in order. */
  ghost predicate FlowInv(s: Server) {
    && (s.session == 0 ==> s.udp.accepted == []) && (forall d <- s.udp.accepted :: d != [])
    && Subseq(Datagrams(s.sent), s.udp.accepted)
    && (s.session <= 1 ==>
          Datagrams(s.sent) <= s.udp.accepted && (Intact(s) ==> Datagrams(s.sent) == s.udp.accepted))
  }

  ghost predicate RepliesInv(u: Udp, handled: seq<Message>) {
    && Subseq(Payloads(u.replies), Datagrams(handled))
    && (u.seen != [] ==> u.lastSender == u.seen[|u.seen| - 1].0)
    && (u.hasSender <==> SomeNonEmpty(u.seen))
    && (forall r <- u.replies :: GoodReply(u.seen, r))
  }

  ghost predicate SomeNonEmpty(seen: seq<(Address, seq<byte>)>) {
    exists d <- seen :: d.1 != []
  }

  function Payloads(rs: seq<UdpReply>): seq<seq<byte>> {
    if rs == [] then [] else Payloads(rs[..|rs| - 1]) + [rs[|rs| - 1].payload]
  }

  /** Sent to whoever sent the latest datagram at the time, and only after a non-empty one. */
  ghost predicate GoodReply(seen: seq<(Address, seq<byte>)>, r: UdpReply) {
    && r.payload != [] && 0 < r.seen <= |seen| && r.to == seen[r.seen - 1].0
    && SomeNonEmpty(seen[..r.seen])
  }

  ghost predicate GlobalInv(s: Server) {
    && 1 <= s.nextId <= 0x1_0000_0000
    && Links.Valid(s.link)
    && OwnedOnce(s.table)
    && s.base <= |s.handled|
    && |s.link.frames| <= |s.sent| && s.sent[|s.sent| - |s.link.frames|..] == s.link.frames
    && (s.session <= 1 ==> s.base == 0 && |s.link.frames| == |s.sent|)
    && (s.session == 0 ==> !s.held && !s.link.ok && s.table == map[] && s.sent == [] && s.handled == [])
    && (forall i, j | 0 <= i < j < |s.added| :: s.added[i] != s.added[j])
  }

  ghost predicate Inv(s: Server) {
    GlobalInv(s) && UdpInv(s) && forall id :: ViewInv(ViewOf(s, id))
  }
}
