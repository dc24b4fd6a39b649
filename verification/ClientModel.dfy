/**
 TunnelClient: the effect of each branch of its dispatch loop and of its reconnection loop, with the
 history of what it read, sent, handled and wrote, and the invariant every branch keeps.
 */
module ClientModel {
  import opened Protocol
  import opened Seqs
  import opened Links
  import opened Logs
  import opened Parties

  datatype Client = Client(
    table: map<ConnId, int>,        // connections to the destination and their descriptors
    session: nat,                   // tunnels connected so far
    contLoop: bool,
    userQuit: bool,
    link: Link,                     // what was written to the latest tunnel
    // history
    sent: seq<Message>,             // frames written in full, over all tunnels
    handled: seq<Message>,          // frames processed, over all tunnels
    base: nat,                      // how many of them before the latest tunnel
    read: History,                  // bytes read from each connection to the destination
    delivered: History,             // bytes written to each connection to the destination
    added: seq<ConnId>,             // ids entered into the table
    udpSent: seq<seq<byte>>,        // datagrams handed to the UDP socket
    udpRead: seq<seq<byte>>)        // non-empty datagrams read from it

  const INITIAL_CLIENT := Client(map[], 0, false, false, NO_LINK, [], [], 0, map[], map[], [], [], [])

  function Send(c: Client, m: Message, k: nat): Client {
    var l := Transmit(c.link, m, k);
    c.(link := l, sent := if l.ok then c.sent + [m] else c.sent)
  }

  function Remove(c: Client, id: ConnId): Client {
    c.(table := c.table - {id})
  }

  datatype Connect = Refused | Connected(fd: int)

  /** The outside's part in handling one frame: a connect, the bytes accepted by the destination, and by the tunnel. */
  datatype Env = Env(connect: Connect, accepts: nat, sends: nat)

  datatype ClientStep =
    | ConnectTunnel
    | TunnelLost
    | UserQuits
    | LeaveLoop
    | DestinationUdp(data: Datagram, k: nat)
    | DestinationRead(id: ConnId, result: ReadOutcome, k: nat)

  /** The reconnection loop runs once the dispatch loop has ended without the user asking for it. */
  predicate Enabled(c: Client, step: ClientStep) {
    match step
    case ConnectTunnel => !c.contLoop && !c.userQuit
    case LeaveLoop => !c.contLoop
    case _ => true
  }

  function OnUdp(c: Client, data: Datagram, k: nat): Client {
    if data == [] then c
    else
      var c2 := Send(c.(udpRead := c.udpRead + [data]), UdpMessage(data), k);
      if c2.link.ok then c2 else c2.(contLoop := false)
  }

  function OnData(c: Client, id: ConnId, bytes: Block, k: nat): Client {
    var c2 := Send(c.(read := Append(c.read, id, bytes)), DataMessage(id, bytes), k);
    if c2.link.ok then c2 else c2.(contLoop := false)
  }

  function OnClosed(c: Client, id: ConnId, k: nat): Client {
    Remove(Send(c, CloseMessage(id), k), id)
  }

  function Step(c: Client, step: ClientStep): Client
    requires Enabled(c, step)
  {
    match step
    case ConnectTunnel => c.(session := c.session + 1, contLoop := true, link := FRESH_LINK, base := |c.handled|)
    case TunnelLost => c.(contLoop := false)
    case UserQuits => c.(contLoop := false, userQuit := true)
    case LeaveLoop => if c.userQuit then c.(table := map[]) else c
    case DestinationUdp(data, k) => OnUdp(c, data, k)
    case DestinationRead(id, result, k) =>
      if id !in c.table || result.WouldBlock? then c
      else if result.Data? then OnData(c, id, result.bytes, k)
      else OnClosed(c, id, k)
  }

  /** A connect that returns a descriptor in use does not happen; it is read as a refusal. */
  function OnOpen(c: Client, id: ConnId, env: Env): Client {
    if id in c.table then c
    else if env.connect.Connected? && env.connect.fd !in c.table.Values then
      c.(table := c.table[id := env.connect.fd], added := c.added + [id])
    else Send(c, CloseMessage(id), env.sends)
  }

  function OnTunnelData(c: Client, id: ConnId, payload: seq<byte>, env: Env): Client {
    if id !in c.table then Send(c, CloseMessage(id), env.sends)
    else
      var c1 := c.(delivered := Append(c.delivered, id, Cut(payload, env.accepts)));
      if env.accepts >= |payload| then c1 else Send(Remove(c1, id), CloseMessage(id), env.sends)
  }

  function Handle(c: Client, m: Message, env: Env): Client {
    var c0 := c.(handled := c.handled + [m]);
    match m.mtype
    case UdpPacket => c0.(udpSent := c.udpSent + [m.payload])
    case TcpOpen => OnOpen(c0, m.connId, env)
    case TcpData => OnTunnelData(c0, m.connId, m.payload, env)
    case TcpClose => Remove(c0, m.connId)
  }

  // ---------- what holds of one connection ----------

  datatype View = View(
    added: bool, present: bool,     // its id was entered, is in the table
    spoken: bool,                   // the client sent some frame about it
    first: bool, intact: bool,      // one tunnel so far; no write to it failed
    quit: bool,
    stage: Stage, handled: seq<byte>, delivered: seq<byte>,
    reply: Reply, sent: seq<byte>, read: seq<byte>)

  function ViewOf(c: Client, id: ConnId): View {
    View(id in c.added, id in c.table, Mentions(c.sent, id), c.session <= 1, c.link.ok, c.userQuit,
         ServerStage(c.handled, id), Payload(c.handled, id), At(c.delivered, id),
         ClientReply(c.sent, id), Payload(c.sent, id), At(c.read, id))
  }

  ghost predicate ViewInv(v: View) {
    && v.reply != Broken
    && (v.stage == Fresh ==>
          && !v.added && !v.present && !v.spoken
          && v.handled == [] && v.delivered == [] && v.reply == Sending && v.sent == [] && v.read == [])
    && (v.present ==> v.added && v.stage == Opened && v.reply == Sending && v.delivered == v.handled)
    && v.delivered <= v.handled
    && Subseq(v.sent, v.read)
    && (v.first ==> v.sent <= v.read)
    && (v.first && v.intact && v.present ==> v.sent == v.read)
    && (v.first && v.intact && !v.quit && v.stage == Opened && v.reply == Sending ==> v.present)
  }

  ghost predicate UdpInv(c: Client) {
    && c.udpSent == Datagrams(c.handled)
    && Subseq(Datagrams(c.sent), c.udpRead)
  }

  ghost predicate GlobalInv(c: Client) {
    && Links.Valid(c.link)
    && OwnedOnce(c.table)
    && c.base <= |c.handled|
    && |c.link.frames| <= |c.sent| && c.sent[|c.sent| - |c.link.frames|..] == c.link.frames
    && (c.session <= 1 ==> c.base == 0 && |c.link.frames| == |c.sent|)
    && (c.session == 0 ==> !c.contLoop && !c.link.ok && c.table == map[] && c.sent == [] && c.handled == [])
    && (forall i, j | 0 <= i < j < |c.added| :: c.added[i] != c.added[j])
    && (forall m <- c.sent :: !m.mtype.TcpOpen?)
  }

  ghost predicate Inv(c: Client) {
    GlobalInv(c) && UdpInv(c) && forall id :: ViewInv(ViewOf(c, id))
  }
}
