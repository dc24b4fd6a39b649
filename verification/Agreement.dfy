/** When the two tables agree, over any number of tunnels. */
module Agreement {
  // A side that lets go of a connection tells the other by a CLOSE. The tables disagree exactly when there was
  // no tunnel for that frame or it was not written in full, or when it or the OPEN was lost with its tunnel, and
  // the side that was not told still has the connection.

  import opened Protocol
  import opened Links
  import opened Logs
  import opened Parties
  import opened World
  import opened WorldInvariant
  import opened Transit
  import opened Theorems
  import opened Losses
  import opened Reassembly
  import opened Seqs
  import S = ServerModel
  import C = ClientModel

  /** What both sides have: the ids in the table, and the frames from the server and from the client it knows of. */
  datatype Side = Side(ids: set<ConnId>, down: seq<Message>, up: seq<Message>)

  function ServerSide(s: S.Server): Side {
    Side(s.table.Keys, s.sent, s.handled)
  }

  function ClientSide(c: C.Client): Side {
    Side(c.table.Keys, c.handled, c.sent)
  }

  /** The types of the frames about a connection that are in after and not yet in before. */
  function News(before: seq<Message>, after: seq<Message>, id: ConnId): seq<MessageType> {
    Types(Rest(after, |before|), id)
  }

  // ---------- letting go without a word ----------

  /**
   The server removes a connection and no CLOSE goes out: the outside closed or failed and there is no
   tunnel or it fails, or the tunnel fails under the data just read.
   */
  predicate ServerLetsGo(s: S.Server, step: S.ServerStep, id: ConnId) {
    step.OutsideRead? && step.id == id && id in s.table &&
    match step.result
    case WouldBlock => false
    case Data(bytes) => s.held && !Transmit(s.link, DataMessage(id, bytes), step.k).ok
    case _ => !(s.held && Transmit(s.link, CloseMessage(id), step.k).ok)
  }

  /** The socket refuses some of the data of a message, and then the tunnel refuses the CLOSE. */
  predicate ServerLetsGoAt(s: S.Server, m: Message, env: S.Env, id: ConnId) {
    && m.mtype.TcpData? && m.connId == id && id in s.table
    && env.accepts < |m.payload| && !Transmit(s.link, CloseMessage(id), env.sends).ok
  }

  predicate ServerLetsGoAmong(s: S.Server, ms: seq<Message>, envs: seq<S.Env>, id: ConnId)
    decreases |ms|
  {
    ms != [] &&
    var env, rest := if envs == [] then S.Env(0, 0) else envs[0], if envs == [] then [] else envs[1..];
    ServerLetsGoAt(s, ms[0], env, id) || ServerLetsGoAmong(S.Handle(s, ms[0], env), ms[1..], rest, id)
  }

  /** The client does so when the user quits, or when the destination closed or failed and the tunnel fails. */
  predicate ClientLetsGo(c: C.Client, step: C.ClientStep, id: ConnId) {
    && id in c.table
    && match step
       case LeaveLoop => c.userQuit
       case DestinationRead(i, result, k) =>
         i == id && (result.Eof? || result.Failed?) && !Transmit(c.link, CloseMessage(id), k).ok
       case _ => false
  }

  /** The same at a message, and when the connection of an OPEN cannot be had and the tunnel refuses the CLOSE. */
  predicate ClientLetsGoAt(c: C.Client, m: Message, env: C.Env, id: ConnId) {
    && m.connId == id && !Transmit(c.link, CloseMessage(id), env.sends).ok
    && match m.mtype
       case TcpData => id in c.table && env.accepts < |m.payload|
       case TcpOpen => id !in c.table && !(env.connect.Connected? && env.connect.fd !in c.table.Values)
       case _ => false
  }

  predicate ClientLetsGoAmong(c: C.Client, ms: seq<Message>, envs: seq<C.Env>, id: ConnId)
    decreases |ms|
  {
    ms != [] &&
    var env, rest := if envs == [] then C.Env(C.Refused, 0, 0) else envs[0], if envs == [] then [] else envs[1..];
    ClientLetsGoAt(c, ms[0], env, id) || ClientLetsGoAmong(C.Handle(c, ms[0], env), ms[1..], rest, id)
  }

  predicate ServerLetsGoIn(w: World, step: Step, id: ConnId)
    requires w.serverRec.Valid()
  {
    CanStep(w, step) &&
    match step
    case OfServer(s) => ServerLetsGo(w.server, s, id)
    case ServerReceives(n, envs) =>
      var d := Collect(w.serverRec, Bytes(UpLink(w))[w.upRead..w.upRead + n]);
      ServerLetsGoAmong(w.server, d.msgs, envs, id)
    case _ => false
  }

  predicate ClientLetsGoIn(w: World, step: Step, id: ConnId)
    requires w.clientRec.Valid()
  {
    CanStep(w, step) &&
    match step
    case OfClient(c) => ClientLetsGo(w.client, c, id)
    case ClientReceives(n, envs) =>
      var d := Collect(w.clientRec, Bytes(w.server.link)[w.downRead..w.downRead + n]);
      ClientLetsGoAmong(w.client, d.msgs, envs, id)
    case _ => false
  }

  /** In some step of the run the server let go of the connection and no CLOSE went out. */
  predicate ServerSilent(steps: seq<Step>, id: ConnId) {
    steps != [] &&
    var init := steps[..|steps| - 1];
    ServerSilent(init, id) || ServerLetsGoIn(Run(init), steps[|steps| - 1], id)
  }

  predicate ClientSilent(steps: seq<Step>, id: ConnId) {
    steps != [] &&
    var init := steps[..|steps| - 1];
    ClientSilent(init, id) || ClientLetsGoIn(Run(init), steps[|steps| - 1], id)
  }

  /**
   The same seen from the frames: from a to b the connection left the table, or was opened and did not
   enter it, and no CLOSE about it was sent or handled.
   */
  predicate Silent(a: Side, b: Side, id: ConnId) {
    && id !in b.ids && (id in a.ids || TcpOpen in News(a.down, b.down, id))
    && TcpClose !in News(a.down, b.down, id) && TcpClose !in News(a.up, b.up, id)
  }

  // ---------- one side ----------

  ghost predicate OpenOnlyFirst(ts: seq<MessageType>) {
    forall k :: 0 < k < |ts| ==> ts[k] != TcpOpen
  }

  /** What the invariants say: a connection in the table has been opened, and closed by neither side. */
  ghost predicate Regular(a: Side, id: ConnId) {
    && OpenOnlyFirst(Types(a.down, id))
    && (id in a.ids ==> Open(a, id))
  }

  predicate Open(a: Side, id: ConnId) {
    TcpOpen in Types(a.down, id) && TcpClose !in Types(a.down, id) && TcpClose !in Types(a.up, id)
  }

  /** A connection is in the table exactly when it is open, unless the side let go of it silently. */
  ghost predicate Explained(a: Side, silent: bool, id: ConnId) {
    && (id in a.ids <==> Open(a, id) && !silent)
    && (silent ==> TcpOpen in Types(a.down, id))
  }

  lemma OnceOpened(a: seq<MessageType>, b: seq<MessageType>)
    requires OpenOnlyFirst(a + b) && TcpOpen in b
    ensures a == []
  {
    var k :| 0 <= k < |b| && b[k] == TcpOpen;
    assert (a + b)[|a| + k] == TcpOpen;
  }

  lemma SideExplained(a: Side, b: Side, silent: bool, id: ConnId)
    requires Regular(a, id) && Regular(b, id) && Explained(a, silent, id)
    requires Moves(a, b, id)
    ensures Explained(b, silent || Silent(a, b, id), id)
  {
    hide Types, OpenOnlyFirst, News;
    var down, up := News(a.down, b.down, id), News(a.up, b.up, id);
    NewsAfter(a.down, b.down, id);
    NewsAfter(a.up, b.up, id);
    if TcpOpen in down {
      OnceOpened(Types(a.down, id), down);
    }
    SideLogic(Types(a.down, id), down, Types(a.up, id), up, id in a.ids, id in b.ids, silent);
  }

  lemma {:induction false} NewsAfter(before: seq<Message>, after: seq<Message>, id: ConnId)
    requires before <= after
    ensures Types(after, id) == Types(before, id) + News(before, after, id)
  {
    assert after == before + after[|before|..];
    LogConcat(before, after[|before|..], id);
    hide Types, Payload;
  }

  /** The frames known so far and the news, and whether the connection was and is in the table. */
  lemma SideLogic(down: seq<MessageType>, downNews: seq<MessageType>, up: seq<MessageType>, upNews: seq<MessageType>,
                  was: bool, now: bool, silent: bool)
    requires was <==> TcpOpen in down && TcpClose !in down && TcpClose !in up && !silent
    requires silent ==> TcpOpen in down
    requires now ==> TcpOpen in down + downNews && TcpClose !in down + downNews && TcpClose !in up + upNews
    requires (now && !was ==> TcpOpen in downNews) && (TcpOpen in downNews ==> down == [])
    ensures var silently :=
              silent || (!now && (was || TcpOpen in downNews) && TcpClose !in downNews && TcpClose !in upNews);
            var down', up' := down + downNews, up + upNews;
            && (now <==> TcpOpen in down' && TcpClose !in down' && TcpClose !in up' && !silently)
            && (silently ==> TcpOpen in down')
  {
    Either(down, downNews);
    Either(up, upNews);
  }

  lemma Either(a: seq<MessageType>, b: seq<MessageType>)
    ensures forall t :: t in a + b <==> t in a || t in b
  {
  }

  // ---------- every connection in a table came with an OPEN ----------

  lemma {:induction false} OneType(m: Message, id: ConnId)
    ensures Types([m], id) == if ForId(m, id) then [m.mtype] else []
  {
    var one := [m];
    assert one[..|one| - 1] == [];
    assert Types(one, id) == Types([], id) + if ForId(m, id) then [m.mtype] else [];
  }

  lemma {:induction false} OneNew(log: seq<Message>, m: Message, id: ConnId)
    ensures News(log, log + [m], id) == if ForId(m, id) then [m.mtype] else []
  {
    assert (log + [m])[|log|..] == [m];
    OneType(m, id);
    hide Types;
  }

  lemma {:induction false} NoNews(log: seq<Message>, id: ConnId)
    ensures News(log, log, id) == []
  {
    assert log[|log|..] == [];
  }

  /** What a send adds to the frames sent. */
  lemma {:induction false} ServerSendNews(s: S.Server, m: Message, k: nat, id: ConnId)
    ensures var t := S.Send(s, m, k);
            && s.sent <= t.sent && t.handled == s.handled && t.table == s.table
            && (t.link.ok <==> Transmit(s.link, m, k).ok)
            && News(s.sent, t.sent, id) == if t.link.ok && ForId(m, id) then [m.mtype] else []
  {
    OneNew(s.sent, m, id);
    NoNews(s.sent, id);
    hide News, Transmit;
  }

  lemma {:induction false} ClientSendNews(c: C.Client, m: Message, k: nat, id: ConnId)
    ensures var t := C.Send(c, m, k);
            && c.sent <= t.sent && t.handled == c.handled && t.table == c.table
            && (t.link.ok <==> Transmit(c.link, m, k).ok)
            && News(c.sent, t.sent, id) == if t.link.ok && ForId(m, id) then [m.mtype] else []
  {
    OneNew(c.sent, m, id);
    NoNews(c.sent, id);
    hide News, Transmit;
  }

  /** From a to b frames are only added, and a connection enters the table with its OPEN. */
  predicate Moves(a: Side, b: Side, id: ConnId) {
    a.down <= b.down && a.up <= b.up && (id in b.ids && id !in a.ids ==> TcpOpen in News(a.down, b.down, id))
  }

  lemma AcceptLetsGo(s: S.Server, fd: int, k: nat, id: ConnId)
    requires S.Enabled(s, S.AcceptOutside(fd, k)) && s.nextId !in s.table
    ensures var a, b := ServerSide(s), ServerSide(S.OnAccept(s, fd, k)); Moves(a, b, id) && !Silent(a, b, id)
  {
    NoNews(s.sent, id);
    NoNews(s.handled, id);
    ServerSendNews(S.Enter(s, fd), OpenMessage(s.nextId), k, id);
    hide News, S.Send, Transmit;
  }

  lemma ReadLetsGo(s: S.Server, i: ConnId, result: ReadOutcome, k: nat, id: ConnId)
    ensures var step := S.OutsideRead(i, result, k);
            var a, b := ServerSide(s), ServerSide(S.Step(s, step));
            Moves(a, b, id) && (Silent(a, b, id) <==> ServerLetsGo(s, step, id))
  {
    NoNews(s.sent, id);
    NoNews(s.handled, id);
    if result.Data? {
      var s1 := s.(read := Append(s.read, i, result.bytes));
      ServerSendNews(s1, DataMessage(i, result.bytes), k, id);
    } else {
      ServerSendNews(s, CloseMessage(i), k, id);
    }
    hide News, S.Send, Transmit, Append;
  }

  /** The guard of a step says exactly when the server lets go without a word. */
  lemma ServerStepLetsGo(s: S.Server, step: S.ServerStep, id: ConnId)
    requires S.Enabled(s, step) && (step.AcceptOutside? ==> s.nextId !in s.table)
    ensures var a, b := ServerSide(s), ServerSide(S.Step(s, step));
            Moves(a, b, id) && (Silent(a, b, id) <==> ServerLetsGo(s, step, id))
  {
    NoNews(s.sent, id);
    NoNews(s.handled, id);
    match step
    case AcceptOutside(fd, k) =>
      AcceptLetsGo(s, fd, k, id);
      hide News, S.OnAccept;
    case OutsideRead(i, result, k) => ReadLetsGo(s, i, result, k, id);
    case OutsideUdp(outcome, k) =>
      UdpLetsGo(s, outcome, k, id);
      hide News, S.OnUdp;
    case _ => hide News;
  }

  lemma UdpLetsGo(s: S.Server, outcome: S.UdpOutcome, k: nat, id: ConnId)
    ensures var t := S.OnUdp(s, outcome, k);
            && s.sent <= t.sent && t.handled == s.handled && t.table == s.table && News(s.sent, t.sent, id) == []
  {
    NoNews(s.sent, id);
    if outcome.Received? {
      var u := s.udp.(lastSender := outcome.from, seen := s.udp.seen + [(outcome.from, outcome.data)],
                      hasSender := true, accepted := s.udp.accepted + [outcome.data]);
      ServerSendNews(s.(udp := u), UdpMessage(outcome.data), k, id);
    }
    hide News, S.Send;
  }

  lemma ServerMessageLetsGo(s: S.Server, m: Message, env: S.Env, id: ConnId)
    ensures var a, b := ServerSide(s), ServerSide(S.Handle(s, m, env));
            Moves(a, b, id) && (Silent(a, b, id) <==> ServerLetsGoAt(s, m, env, id))
  {
    NoNews(s.sent, id);
    OneNew(s.handled, m, id);
    if m.mtype.TcpData? {
      var s1 := s.(handled := s.handled + [m], delivered := Append(s.delivered, m.connId, Cut(m.payload, env.accepts)));
      ServerSendNews(S.Remove(s1, m.connId), CloseMessage(m.connId), env.sends, id);
    }
    hide News, S.Send, Transmit, Append, Cut;
  }

  /** Data read from a destination is not a reason to let go, whether it can be passed on or not. */
  lemma DataReadKeeps(c: C.Client, i: ConnId, bytes: Block, k: nat, id: ConnId)
    ensures var a, b := ClientSide(c), ClientSide(C.OnData(c, i, bytes, k)); Moves(a, b, id) && b.ids == a.ids
    ensures News(c.handled, C.OnData(c, i, bytes, k).handled, id) == []
    ensures TcpOpen !in News(c.handled, c.handled, id)
  {
    NoNews(c.handled, id);
    ClientSendNews(c.(read := Append(c.read, i, bytes)), DataMessage(i, bytes), k, id);
    hide News, C.Send, Append;
  }

  lemma ClosedLetsGo(c: C.Client, i: ConnId, k: nat, id: ConnId)
    requires i in c.table
    ensures var a, b := ClientSide(c), ClientSide(C.OnClosed(c, i, k));
            && Moves(a, b, id)
            && (Silent(a, b, id) <==> i == id && !Transmit(c.link, CloseMessage(id), k).ok)
  {
    NoNews(c.handled, id);
    ClientSendNews(c, CloseMessage(i), k, id);
    hide News, C.Send, Transmit;
  }

  lemma DestinationLetsGo(c: C.Client, i: ConnId, result: ReadOutcome, k: nat, id: ConnId)
    ensures var step := C.DestinationRead(i, result, k);
            var a, b := ClientSide(c), ClientSide(C.Step(c, step));
            Moves(a, b, id) && (Silent(a, b, id) <==> ClientLetsGo(c, step, id))
  {
    NoNews(c.sent, id);
    NoNews(c.handled, id);
    if i in c.table {
      match result
      case Data(bytes) => DataReadKeeps(c, i, bytes, k, id);
      case WouldBlock =>
      case _ => ClosedLetsGo(c, i, k, id);
    }
    hide News, C.OnData, C.OnClosed, Transmit, ClientSide, Moves;
  }

  lemma ClientStepLetsGo(c: C.Client, step: C.ClientStep, id: ConnId)
    requires C.Enabled(c, step)
    ensures var a, b := ClientSide(c), ClientSide(C.Step(c, step));
            Moves(a, b, id) && (Silent(a, b, id) <==> ClientLetsGo(c, step, id))
  {
    match step
    case DestinationRead(i, result, k) =>
      hide *;
      DestinationLetsGo(c, i, result, k, id);
    case DestinationUdp(data, k) =>
      NoNews(c.sent, id);
      NoNews(c.handled, id);
      ClientSendNews(c.(udpRead := c.udpRead + [data]), UdpMessage(data), k, id);
      hide News, C.Send, Transmit;
    case _ =>
      NoNews(c.sent, id);
      NoNews(c.handled, id);
      hide News, Transmit;
  }

  lemma OpenLetsGo(c: C.Client, m: Message, env: C.Env, id: ConnId)
    requires m.mtype.TcpOpen?
    ensures var a, b := ClientSide(c), ClientSide(C.Handle(c, m, env));
            Moves(a, b, id) && (Silent(a, b, id) <==> ClientLetsGoAt(c, m, env, id))
  {
    NoNews(c.sent, id);
    OneNew(c.handled, m, id);
    ClientSendNews(c.(handled := c.handled + [m]), CloseMessage(m.connId), env.sends, id);
    hide News, C.Send, Transmit;
  }

  lemma DataLetsGo(c: C.Client, m: Message, env: C.Env, id: ConnId)
    requires m.mtype.TcpData?
    ensures var a, b := ClientSide(c), ClientSide(C.Handle(c, m, env));
            Moves(a, b, id) && (Silent(a, b, id) <==> ClientLetsGoAt(c, m, env, id))
  {
    NoNews(c.sent, id);
    OneNew(c.handled, m, id);
    var c0 := c.(handled := c.handled + [m]);
    var c1 := c0.(delivered := Append(c.delivered, m.connId, Cut(m.payload, env.accepts)));
    ClientSendNews(c0, CloseMessage(m.connId), env.sends, id);
    ClientSendNews(C.Remove(c1, m.connId), CloseMessage(m.connId), env.sends, id);
    hide News, C.Send, Transmit, Append, Cut;
  }

  lemma ClientMessageLetsGo(c: C.Client, m: Message, env: C.Env, id: ConnId)
    ensures var a, b := ClientSide(c), ClientSide(C.Handle(c, m, env));
            Moves(a, b, id) && (Silent(a, b, id) <==> ClientLetsGoAt(c, m, env, id))
  {
    match m.mtype
    case TcpOpen => OpenLetsGo(c, m, env, id);
    case TcpData => DataLetsGo(c, m, env, id);
    case _ =>
      NoNews(c.sent, id);
      OneNew(c.handled, m, id);
      hide News;
  }

  // ---------- runs ----------

  /** Frames missing or not, an OPEN comes first. */
  lemma {:induction false} OpensFirstTypes(log: seq<Message>, id: ConnId)
    requires OpensFirst(log, id)
    ensures OpenOnlyFirst(Types(log, id))
    decreases |log|
  {
    if log != [] {
      OpensFirstTypes(log[..|log| - 1], id);
      ServerStageMeans(log[..|log| - 1], id);
    }
  }

  lemma RegularServer(s: S.Server, id: ConnId)
    requires S.ViewInv(S.ViewOf(s, id))
    ensures OpensFirst(s.sent, id) && Regular(ServerSide(s), id)
  {
    hide Subseq, Payload, At;
    GrammarOpensFirst(s.sent, id);
    OpensFirstTypes(s.sent, id);
    CloseSeen(s.sent, id);
    CloseSeen(s.handled, id);
    hide Types, OpenOnlyFirst, ServerStage, ClientReply;
  }

  lemma RegularClient(c: C.Client, id: ConnId)
    requires C.ViewInv(C.ViewOf(c, id)) && OpensFirst(c.handled, id)
    ensures Regular(ClientSide(c), id)
  {
    hide Subseq, Payload, At;
    OpensFirstTypes(c.handled, id);
    CloseSeen(c.handled, id);
    CloseSeen(c.sent, id);
    hide Types, OpenOnlyFirst, ServerStage, ClientReply;
  }

  lemma RegularSides(w: World, id: ConnId)
    requires Inv(w)
    ensures Regular(ServerSide(w.server), id) && Regular(ClientSide(w.client), id)
  {
    assert S.ViewInv(S.ViewOf(w.server, id)) && C.ViewInv(C.ViewOf(w.client, id));
    HistoriesAgree(w);
    hide *;
    RegularServer(w.server, id);
    SubseqLog(w.client.handled, w.server.sent, id);
    RegularClient(w.client, id);
  }

  /** One step or message of one side, by its guard. */
  lemma ServerMoves(a: S.Server, b: S.Server, silent: bool, now: bool, id: ConnId)
    requires S.ViewInv(S.ViewOf(a, id)) && S.ViewInv(S.ViewOf(b, id)) && Explained(ServerSide(a), silent, id)
    requires Moves(ServerSide(a), ServerSide(b), id) && (Silent(ServerSide(a), ServerSide(b), id) <==> now)
    ensures Explained(ServerSide(b), silent || now, id)
  {
    hide *;
    RegularServer(a, id);
    RegularServer(b, id);
    SideExplained(ServerSide(a), ServerSide(b), silent, id);
  }

  lemma ClientMoves(a: C.Client, b: C.Client, silent: bool, now: bool, id: ConnId)
    requires C.ViewInv(C.ViewOf(a, id)) && OpensFirst(a.handled, id) && Explained(ClientSide(a), silent, id)
    requires C.ViewInv(C.ViewOf(b, id)) && OpensFirst(b.handled, id)
    requires Moves(ClientSide(a), ClientSide(b), id) && (Silent(ClientSide(a), ClientSide(b), id) <==> now)
    ensures Explained(ClientSide(b), silent || now, id)
  {
    hide *;
    RegularClient(a, id);
    RegularClient(b, id);
    SideExplained(ClientSide(a), ClientSide(b), silent, id);
  }

  lemma ServerView(s: S.Server, id: ConnId)
    requires S.Inv(s)
    ensures S.ViewInv(S.ViewOf(s, id)) && (1 <= s.nextId < 0x1_0000_0000 ==> s.nextId !in s.table)
  {
    if 1 <= s.nextId < 0x1_0000_0000 {
      assert S.ViewInv(S.ViewOf(s, s.nextId));
    }
  }

  lemma ClientView(c: C.Client, sent: seq<Message>, id: ConnId)
    requires C.Inv(c) && Subseq(c.handled, sent) && EveryOpenFirst(sent)
    ensures C.ViewInv(C.ViewOf(c, id)) && OpensFirst(c.handled, id)
  {
    SubseqLog(c.handled, sent, id);
    hide OpensFirst, Subseq, C.GlobalInv, C.UdpInv;
  }

  lemma {:induction false} ServerHandlesExplained(s: S.Server, ms: seq<Message>, envs: seq<S.Env>, silent: bool,
      id: ConnId)
    requires S.Inv(s) && s.session > 0 && Expected(s, ms) && Explained(ServerSide(s), silent, id)
    ensures Explained(ServerSide(ServerHandles(s, ms, envs)), silent || ServerLetsGoAmong(s, ms, envs, id), id)
    decreases |ms|
  {
    hide S.Inv, S.Handle, Explained, ServerLetsGoAt;
    if ms != [] {
      var env, rest := if envs == [] then S.Env(0, 0) else envs[0], if envs == [] then [] else envs[1..];
      var s1 := S.Handle(s, ms[0], env);
      var now := ServerLetsGoAt(s, ms[0], env, id);
      assert ServerHandles(s, ms, envs) == ServerHandles(s1, ms[1..], rest);
      assert ServerLetsGoAmong(s, ms, envs, id) <==> now || ServerLetsGoAmong(s1, ms[1..], rest, id);
      assert ms[0] in ms && forall m <- ms[1..] :: m in ms;
      ServerHandlesOne(s, ms[0], env);
      assert Expected(s1, ms[1..]);
      hide *;
      ServerView(s, id);
      ServerView(s1, id);
      ServerMessageLetsGo(s, ms[0], env, id);
      ServerMoves(s, s1, silent, now, id);
      ServerHandlesExplained(s1, ms[1..], rest, silent || now, id);
    }
  }

  lemma {:induction false} ClientHandlesExplained(c: C.Client, ms: seq<Message>, envs: seq<C.Env>, sent: seq<Message>,
                                                  silent: bool, id: ConnId)
    requires C.Inv(c) && c.session > 0 && Subseq(c.handled + ms, sent) && EveryOpenFirst(sent)
    requires Explained(ClientSide(c), silent, id)
    ensures Explained(ClientSide(ClientHandles(c, ms, envs)), silent || ClientLetsGoAmong(c, ms, envs, id), id)
    decreases |ms|
  {
    hide C.Inv, C.Handle, EveryOpenFirst, Subseq, Explained, ClientLetsGoAt;
    if ms != [] {
      var env, rest := if envs == [] then C.Env(C.Refused, 0, 0) else envs[0], if envs == [] then [] else envs[1..];
      var c1 := C.Handle(c, ms[0], env);
      var now := ClientLetsGoAt(c, ms[0], env, id);
      assert ClientHandles(c, ms, envs) == ClientHandles(c1, ms[1..], rest);
      assert ClientLetsGoAmong(c, ms, envs, id) <==> now || ClientLetsGoAmong(c1, ms[1..], rest, id);
      assert [ms[0]] + ms[1..] == ms;
      hide *;
      assert c.handled + ms == c.handled + [ms[0]] + ms[1..];
      assert c.handled + ms == c.handled + ms;
      ClientHandlesOne(c, ms[0], ms[1..], env, sent);
      PrefixIsSubseq(c.handled, c.handled + ms);
      SubseqTrans(c.handled, c.handled + ms, sent);
      PrefixIsSubseq(c1.handled, c.handled + ms);
      SubseqTrans(c1.handled, c.handled + ms, sent);
      ClientView(c, sent, id);
      ClientView(c1, sent, id);
      ClientMessageLetsGo(c, ms[0], env, id);
      ClientMoves(c, c1, silent, now, id);
      ClientHandlesExplained(c1, ms[1..], rest, sent, silent || now, id);
    }
  }

  lemma ServerReadsExplained(w: World, n: nat, envs: seq<S.Env>, silent: bool, id: ConnId)
    requires Inv(w) && w.server.held && w.serverRec.Valid() && w.upRead + n <= |Bytes(UpLink(w))|
    requires Explained(ServerSide(w.server), silent, id)
    ensures var d := Collect(w.serverRec, Bytes(UpLink(w))[w.upRead..w.upRead + n]);
            Explained(ServerSide(ServerReads(w, n, envs).server),
                      silent || ServerLetsGoAmong(w.server, d.msgs, envs, id), id)
  {
    hide S.Inv, C.Inv, UpInv, DownInv, Explained, Collect, Bytes, UpLink, ServerHandles, ServerLetsGoAmong;
    assert S.Inv(w.server) && C.Inv(w.client) && UpInv(w);
    ServerGlobal(w.server);
    ClientGlobal(w.client);
    ServerNext(w, n);
    var d := Collect(w.serverRec, Bytes(UpLink(w))[w.upRead..w.upRead + n]);
    assert ServerReads(w, n, envs).server == ServerHandles(w.server, d.msgs, envs);
    hide *;
    SentByClient(w, d.msgs);
    ServerHandlesExplained(w.server, d.msgs, envs, silent, id);
  }

  lemma ClientReadsExplained(w: World, n: nat, envs: seq<C.Env>, silent: bool, id: ConnId)
    requires Inv(w) && w.client.contLoop && w.server.session == w.client.session
    requires w.clientRec.Valid() && w.downRead + n <= |Bytes(w.server.link)|
    requires Explained(ClientSide(w.client), silent, id)
    ensures var d := Collect(w.clientRec, Bytes(w.server.link)[w.downRead..w.downRead + n]);
            Explained(ClientSide(ClientReads(w, n, envs).client),
                      silent || ClientLetsGoAmong(w.client, d.msgs, envs, id), id)
  {
    hide S.Inv, C.Inv, UpInv, DownInv, Explained, Collect, Bytes, ClientHandles, ClientLetsGoAmong, InSync, Subseq;
    assert S.Inv(w.server) && C.Inv(w.client) && DownInv(w);
    ServerGlobal(w.server);
    ClientGlobal(w.client);
    ClientNext(w, n);
    var d := Collect(w.clientRec, Bytes(w.server.link)[w.downRead..w.downRead + n]);
    assert ClientReads(w, n, envs).client == ClientHandles(w.client, d.msgs, envs);
    hide *;
    OpensComeFirst(w.server);
    ClientHandlesExplained(w.client, d.msgs, envs, w.server.sent, silent, id);
  }

  lemma ServerStepExplained(w: World, step: S.ServerStep, silent: bool, id: ConnId)
    requires Inv(w) && S.Enabled(w.server, step) && S.Inv(S.Step(w.server, step))
    requires Explained(ServerSide(w.server), silent, id)
    ensures Explained(ServerSide(S.Step(w.server, step)), silent || ServerLetsGo(w.server, step, id), id)
  {
    assert S.Inv(w.server);
    assert step.AcceptOutside? ==> 1 <= w.server.nextId < 0x1_0000_0000;
    hide *;
    ServerView(w.server, id);
    ServerView(S.Step(w.server, step), id);
    ServerStepLetsGo(w.server, step, id);
    ServerMoves(w.server, S.Step(w.server, step), silent, ServerLetsGo(w.server, step, id), id);
  }

  lemma ClientStepExplained(w: World, step: C.ClientStep, silent: bool, id: ConnId)
    requires Inv(w) && C.Enabled(w.client, step) && C.Inv(C.Step(w.client, step))
    requires Explained(ClientSide(w.client), silent, id)
    ensures Explained(ClientSide(C.Step(w.client, step)), silent || ClientLetsGo(w.client, step, id), id)
  {
    HistoriesAgree(w);
    assert S.Inv(w.server) && C.Inv(w.client);
    hide *;
    OpensComeFirst(w.server);
    ClientView(w.client, w.server.sent, id);
    ClientStepHistory(w.client, step);
    ClientView(C.Step(w.client, step), w.server.sent, id);
    ClientStepLetsGo(w.client, step, id);
    ClientMoves(w.client, C.Step(w.client, step), silent, ClientLetsGo(w.client, step, id), id);
  }

  lemma InvParties(w: World)
    requires Inv(w)
    ensures S.Inv(w.server) && C.Inv(w.client)
  {
  }

  /** A step changes what the server has only through the server's branches and messages. */
  lemma ServerExplained(w: World, step: Step, silent: bool, id: ConnId)
    requires Inv(w) && w.serverRec.Valid() && w.clientRec.Valid() && S.Inv(Apply(w, step).server)
    requires Explained(ServerSide(w.server), silent, id)
    ensures Explained(ServerSide(Apply(w, step).server), silent || ServerLetsGoIn(w, step, id), id)
  {
    hide Inv, S.Inv, S.Step, C.Step, Explained, ServerReads, ClientHandles, Collect, Bytes, UpLink;
    hide ServerLetsGo, ServerLetsGoAmong, ServerSide;
    if CanStep(w, step) {
      match step
      case OfServer(s) => ServerStepExplained(w, s, silent, id);
      case ServerReceives(n, envs) => ServerReadsExplained(w, n, envs, silent, id);
      case _ =>
    }
  }

  lemma ClientExplained(w: World, step: Step, silent: bool, id: ConnId)
    requires Inv(w) && w.serverRec.Valid() && w.clientRec.Valid() && C.Inv(Apply(w, step).client)
    requires Explained(ClientSide(w.client), silent, id)
    ensures Explained(ClientSide(Apply(w, step).client), silent || ClientLetsGoIn(w, step, id), id)
  {
    hide Inv, C.Inv, S.Step, C.Step, Explained, ClientReads, ServerHandles, Collect, Bytes, UpLink;
    hide ClientLetsGo, ClientLetsGoAmong, ClientSide;
    if CanStep(w, step) {
      match step
      case OfClient(c) => ClientStepExplained(w, c, silent, id);
      case ClientReceives(n, envs) => ClientReadsExplained(w, n, envs, silent, id);
      case _ =>
    }
  }

  lemma {:induction false} RunExplained(steps: seq<Step>, id: ConnId)
    requires BoundaryRun(steps)
    ensures Explained(ServerSide(Run(steps).server), ServerSilent(steps, id), id)
    ensures Explained(ClientSide(Run(steps).client), ClientSilent(steps, id), id)
    decreases |steps|
  {
    hide Inv, Apply, Explained, ServerLetsGoIn, ClientLetsGoIn, BoundaryRun, AtBoundary;
    if steps == [] {
      NothingExplained(id);
    } else {
      var init, last := steps[..|steps| - 1], steps[|steps| - 1];
      BoundaryInit(steps);
      RunExplained(init, id);
      RunInv(init);
      RunInv(steps);
      InvParties(Run(steps));
      ServerExplained(Run(init), last, ServerSilent(init, id), id);
      ClientExplained(Run(init), last, ClientSilent(init, id), id);
    }
  }

  lemma BoundaryInit(steps: seq<Step>)
    requires BoundaryRun(steps) && steps != []
    ensures BoundaryRun(steps[..|steps| - 1])
  {
    hide AtBoundary, Run;
  }

  lemma NothingExplained(id: ConnId)
    ensures Explained(ServerSide(S.INITIAL_SERVER), false, id) && Explained(ClientSide(C.INITIAL_CLIENT), false, id)
  {
  }

  // ---------- both sides ----------

  /**
   What the client has not been told of a connection, or the server has not; lost are the frames lost with
   a tunnel.
   */
  predicate ClientNotTold(steps: seq<Step>, id: ConnId) {
    ServerSilent(steps, id) || TcpClose in Types(DownLost(steps), id)
  }

  predicate ServerNotTold(steps: seq<Step>, id: ConnId) {
    ClientSilent(steps, id) || TcpClose in Types(UpLost(steps), id) || TcpOpen in Types(DownLost(steps), id)
  }

  /**
   Over any number of tunnels that change at frame boundaries, once everything has been read: a
   connection is on one side only exactly when that side has it and was not told by the other, because
   there was no tunnel for the CLOSE or it was not written in full, or the OPEN or the CLOSE was lost
   with its tunnel.
   */
  lemma OneSidedExactlyWhen(steps: seq<Step>, id: ConnId)
    requires BoundaryRun(steps) && Quiescent(Run(steps))
    ensures var s, c := Run(steps).server, Run(steps).client;
            && (id in s.table && id !in c.table <==> id in s.table && ServerNotTold(steps, id))
            && (id in c.table && id !in s.table <==> id in c.table && ClientNotTold(steps, id))
  {
    var w := Run(steps);
    RunExplained(steps, id);
    FramesConserved(steps);
    RunInv(steps);
    InvFacts(w);
    NothingOnTheWay(w);
    RegularSides(w, id);
    assert Types([], id) == [];
    hide Run, BoundaryRun, Inv, ServerSilent, ClientSilent, DownLost, UpLost, DownOnTheWay, UpOnTheWay, Quiescent;
    LogSplit(w.server.sent, w.client.handled, DownLost(steps), [], id);
    LogSplit(w.client.sent, w.server.handled, UpLost(steps), [], id);
    OneOpen(Types(w.server.sent, id), Types(w.client.handled, id), Types(DownLost(steps), id));
    hide Types, OpenOnlyFirst;
    FoundIn(Types(w.server.sent, id), Types(w.client.handled, id), Types(DownLost(steps), id));
    FoundIn(Types(w.client.sent, id), Types(w.server.handled, id), Types(UpLost(steps), id));
  }

  lemma FoundIn(all: seq<MessageType>, a: seq<MessageType>, b: seq<MessageType>)
    requires multiset(all) == multiset(a) + multiset(b)
    ensures forall t :: t in all <==> t in a || t in b
  {
    forall t ensures t in all <==> t in a || t in b {
      assert t in all <==> t in multiset(all);
      assert t in a <==> t in multiset(a);
      assert t in b <==> t in multiset(b);
    }
  }

  lemma OneOpen(all: seq<MessageType>, a: seq<MessageType>, b: seq<MessageType>)
    requires OpenOnlyFirst(all) && multiset(all) == multiset(a) + multiset(b)
    ensures !(TcpOpen in a && TcpOpen in b)
  {
    if all != [] {
      assert all == [all[0]] + all[1..];
      assert TcpOpen !in multiset(all[1..]);
      assert multiset(all)[TcpOpen] <= 1;
    }
    assert TcpOpen in a ==> multiset(a)[TcpOpen] >= 1;
    assert TcpOpen in b ==> multiset(b)[TcpOpen] >= 1;
  }

  // ---------- data comes after the OPEN ----------

  predicate HasData(log: seq<Message>, id: ConnId) {
    TcpData in Types(log, id)
  }

  lemma ClientSendData(c: C.Client, m: Message, k: nat, id: ConnId)
    ensures !(m.mtype.TcpData? && m.connId == id) ==> (HasData(C.Send(c, m, k).sent, id) <==> HasData(c.sent, id))
    ensures C.Send(c, m, k).handled == c.handled
  {
    ClientSendNews(c, m, k, id);
    NewsAfter(c.sent, C.Send(c, m, k).sent, id);
    hide Types, News, C.Send;
  }

  /** The client sends data only of a connection in its table. */
  lemma StepSendsData(c: C.Client, step: C.ClientStep, id: ConnId)
    requires C.Enabled(c, step)
    ensures HasData(C.Step(c, step).sent, id) ==> HasData(c.sent, id) || id in c.table
  {
    match step
    case DestinationUdp(data, k) =>
      ClientSendData(c.(udpRead := c.udpRead + [data]), UdpMessage(data), k, id);
      hide HasData, C.Send;
    case DestinationRead(i, result, k) =>
      if result.Data? {
        ClientSendData(c.(read := Append(c.read, i, result.bytes)), DataMessage(i, result.bytes), k, id);
      } else {
        ClientSendData(c, CloseMessage(i), k, id);
      }
      hide HasData, C.Send, Append;
    case _ => hide HasData;
  }

  lemma MessageSendsNoData(c: C.Client, m: Message, env: C.Env, id: ConnId)
    ensures HasData(C.Handle(c, m, env).sent, id) <==> HasData(c.sent, id)
  {
    var c0 := c.(handled := c.handled + [m]);
    var c1 := c0.(delivered := Append(c.delivered, m.connId, Cut(m.payload, env.accepts)));
    ClientSendData(c0, CloseMessage(m.connId), env.sends, id);
    ClientSendData(C.Remove(c1, m.connId), CloseMessage(m.connId), env.sends, id);
    hide HasData, C.Send, Append, Cut;
  }

  lemma {:induction false} HandlingSendsNoData(c: C.Client, ms: seq<Message>, envs: seq<C.Env>, id: ConnId)
    ensures HasData(ClientHandles(c, ms, envs).sent, id) <==> HasData(c.sent, id)
    decreases |ms|
  {
    hide C.Handle, HasData;
    if ms != [] {
      var env := if envs == [] then C.Env(C.Refused, 0, 0) else envs[0];
      MessageSendsNoData(c, ms[0], env, id);
      HandlingSendsNoData(C.Handle(c, ms[0], env), ms[1..], if envs == [] then [] else envs[1..], id);
    }
  }

  lemma ApplySendsData(w: World, step: Step, id: ConnId)
    requires w.serverRec.Valid() && w.clientRec.Valid()
    ensures HasData(Apply(w, step).client.sent, id) ==> HasData(w.client.sent, id) || id in w.client.table
  {
    hide HasData, C.Step, S.Step, Collect, ClientHandles, ServerHandles, Bytes, UpLink;
    if CanStep(w, step) {
      match step
      case OfClient(c) => StepSendsData(w.client, c, id);
      case ClientReceives(n, envs) =>
        var d := Collect(w.clientRec, Bytes(w.server.link)[w.downRead..w.downRead + n]);
        HandlingSendsNoData(w.client, d.msgs, envs, id);
      case _ =>
    }
  }

  /** Over any number of tunnels, the client sends data of a connection only after it has handled its OPEN. */
  lemma {:induction false} DataAfterOpen(steps: seq<Step>, id: ConnId)
    requires BoundaryRun(steps)
    ensures var c := Run(steps).client; TcpData in Types(c.sent, id) ==> TcpOpen in Types(c.handled, id)
    decreases |steps|
  {
    if steps != [] {
      var init, last := steps[..|steps| - 1], steps[|steps| - 1];
      BoundaryInit(steps);
      DataAfterOpen(init, id);
      RunInv(init);
      Progress(Run(init), last);
      RegularSides(Run(init), id);
      ApplySendsData(Run(init), last, id);
      hide Inv, Apply, Types, BoundaryRun, AtBoundary;
      NewsAfter(Run(init).client.handled, Run(steps).client.handled, id);
    }
  }
}
