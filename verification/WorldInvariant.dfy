/** What holds at every point of a run in which tunnels change at frame boundaries. */
module WorldInvariant {
  import opened Protocol
  import opened Seqs
  import opened Reassembly
  import opened Links
  import opened Logs
  import opened Parties
  import opened World
  import opened Growth
  import S = ServerModel
  import C = ClientModel
  import SI = ServerInvariant
  import CI = ClientInvariant

  // ---------- one direction of one tunnel ----------

  /** After n bytes of the link, the reader has handled msgs and holds the rest. */
  ghost predicate InSync(p: Parser, l: Link, n: nat, msgs: seq<Message>) {
    p.Drained() && n <= |Bytes(l)| && Parse(Bytes(l)[..n]) == Parsed(msgs, p.Residue(), false)
  }

  lemma SyncStarts(p: Parser, l: Link)
    requires p.Drained() && p.Residue() == []
    ensures InSync(p, l, 0, [])
  {
    assert Bytes(l)[..0] == [];
  }

  lemma SyncGrows(p: Parser, l: Link, n: nat, msgs: seq<Message>, l': Link)
    requires InSync(p, l, n, msgs) && Bytes(l) <= Bytes(l')
    ensures InSync(p, l', n, msgs)
  {
    hide Parse, Bytes;
    assert Bytes(l')[..n] == Bytes(l)[..n];
  }

  /** What was handled is a prefix of what was sent, and all of it once every byte is read. */
  lemma SyncPrefix(p: Parser, l: Link, n: nat, msgs: seq<Message>)
    requires InSync(p, l, n, msgs) && Links.Valid(l)
    ensures msgs <= l.frames
    ensures n == |Bytes(l)| ==> msgs == l.frames && p.Residue() == l.tail
  {
    hide Parse, EncodeAll, Incomplete;
    var u, v := Bytes(l)[..n], Bytes(l)[n..];
    assert u + v == Bytes(l);
    ReceivedIsPrefix(l.frames, l.tail, u, v);
  }

  /** A chunk between what was read before, u, and what is still to come, v. */
  lemma ChunkRead(p: Parser, u: seq<byte>, chunk: seq<byte>, v: seq<byte>, l: Link, msgs: seq<Message>)
    requires u + chunk + v == Bytes(l) && Links.Valid(l)
    requires p.Drained() && Parse(u) == Parsed(msgs, p.Residue(), false)
    ensures var d := Collect(p, chunk);
            !d.bad && d.parser.Drained() && Parse(u + chunk) == Parsed(msgs + d.msgs, d.parser.Residue(), false)
  {
    hide Incomplete, EncodeAll, Parse, Collect;
    ReceivedIsPrefix(l.frames, l.tail, u + chunk, v);
    CollectExtends(u, Collected(p, msgs, false), chunk);
  }

  /** One more chunk. */
  lemma SyncReceives(p: Parser, l: Link, n: nat, msgs: seq<Message>, k: nat)
    requires InSync(p, l, n, msgs) && Links.Valid(l) && n + k <= |Bytes(l)|
    ensures var d := Collect(p, Bytes(l)[n..n + k]);
            !d.bad && InSync(d.parser, l, n + k, msgs + d.msgs)
  {
    hide Incomplete, EncodeAll, Parse, Collect, Links.Valid, Bytes;
    var all := Bytes(l);
    assert all[..n] + all[n..n + k] == all[..n + k];
    assert all[..n + k] + all[n + k..] == all;
    ChunkRead(p, all[..n], all[n..n + k], all[n + k..], l, msgs);
  }

  // ---------- the draining loops ----------

  ghost predicate EveryOpenFirst(log: seq<Message>) {
    forall id :: OpensFirst(log, id)
  }

  lemma {:induction false} ClientHandlesInv(c: C.Client, ms: seq<Message>, envs: seq<C.Env>, sent: seq<Message>)
    requires C.Inv(c) && c.session > 0
    requires Subseq(c.handled + ms, sent) && EveryOpenFirst(sent)
    ensures C.Inv(ClientHandles(c, ms, envs)) && ClientHandled(c, ms, ClientHandles(c, ms, envs))
    decreases |ms|
  {
    hide C.Inv, C.Handle, EveryOpenFirst, Subseq;
    if ms == [] {
      assert c.handled + ms == c.handled;
    } else {
      var env := if envs == [] then C.Env(C.Refused, 0, 0) else envs[0];
      var c1 := C.Handle(c, ms[0], env);
      var rest := if envs == [] then [] else envs[1..];
      assert ClientHandles(c, ms, envs) == ClientHandles(c1, ms[1..], rest);
      assert [ms[0]] + ms[1..] == ms;
      hide *;
      assert c.handled + ms == c.handled + [ms[0]] + ms[1..];
      ClientHandlesOne(c, ms[0], ms[1..], env, sent);
      ClientHandlesInv(c1, ms[1..], rest, sent);
      ClientHandledTrans(c, ms[0], c1, ms[1..], ClientHandles(c1, ms[1..], rest));
    }
  }

  lemma ClientHandlesOne(c: C.Client, m: Message, ms: seq<Message>, env: C.Env, sent: seq<Message>)
    requires C.Inv(c) && c.session > 0
    requires Subseq(c.handled + [m] + ms, sent) && EveryOpenFirst(sent)
    ensures var c1 := C.Handle(c, m, env);
            C.Inv(c1) && ClientHandled(c, [m], c1) && c1.session > 0 && c1.handled == c.handled + [m]
  {
    hide C.Inv, C.Handle, OpensFirst;
    PrefixIsSubseq(c.handled + [m], c.handled + [m] + ms);
    SubseqTrans(c.handled + [m], c.handled + [m] + ms, sent);
    forall id ensures OpensFirst(c.handled + [m], id) {
      SubseqLog(c.handled + [m], sent, id);
    }
    CI.HandleInv(c, m, env);
    ClientGlobal(c);
    ClientHandleExtends(c, m, env);
  }

  lemma ClientGlobal(c: C.Client)
    requires C.Inv(c)
    ensures Links.Valid(c.link) && C.GlobalInv(c) && (c.contLoop ==> c.session > 0)
  {
  }

  lemma ClientHandledTrans(c: C.Client, m: Message, c1: C.Client, ms: seq<Message>, c2: C.Client)
    requires ClientHandled(c, [m], c1) && ClientHandled(c1, ms, c2)
    ensures ClientHandled(c, [m] + ms, c2)
  {
    ExtendsTrans(c.link, c.sent, c1.link, c1.sent, c2.link, c2.sent);
    hide Extends;
    assert c.handled + [m] + ms == c.handled + ([m] + ms);
  }

  /** What the client may send: no OPEN, and nothing about a connection the server has not opened. */
  ghost predicate Expected(s: S.Server, ms: seq<Message>) {
    forall m <- ms :: !m.mtype.TcpOpen? && (!m.mtype.UdpPacket? ==> S.IsAllocated(s, m.connId))
  }

  lemma {:induction false} ServerHandlesInv(s: S.Server, ms: seq<Message>, envs: seq<S.Env>)
    requires S.Inv(s) && s.session > 0 && Expected(s, ms)
    ensures S.Inv(ServerHandles(s, ms, envs)) && ServerHandled(s, ms, ServerHandles(s, ms, envs))
    decreases |ms|
  {
    hide S.Inv, S.Handle;
    if ms == [] {
      assert s.handled + ms == s.handled;
    } else {
      var env := if envs == [] then S.Env(0, 0) else envs[0];
      var s1 := S.Handle(s, ms[0], env);
      var rest := if envs == [] then [] else envs[1..];
      assert ServerHandles(s, ms, envs) == ServerHandles(s1, ms[1..], rest);
      assert [ms[0]] + ms[1..] == ms;
      assert ms[0] in ms && forall m <- ms[1..] :: m in ms;
      ServerHandlesOne(s, ms[0], env);
      assert Expected(s1, ms[1..]);
      hide *;
      ServerHandlesInv(s1, ms[1..], rest);
      ServerHandledTrans(s, ms[0], s1, ms[1..], ServerHandles(s1, ms[1..], rest));
    }
  }

  lemma ServerHandlesOne(s: S.Server, m: Message, env: S.Env)
    requires S.Inv(s) && s.session > 0 && !m.mtype.TcpOpen? && (!m.mtype.UdpPacket? ==> S.IsAllocated(s, m.connId))
    ensures var s1 := S.Handle(s, m, env);
            S.Inv(s1) && ServerHandled(s, [m], s1) && s1.session > 0 && s1.nextId == s.nextId
  {
    hide S.Inv, S.Handle;
    SI.HandleInv(s, m, env);
    ServerGlobal(s);
    ServerHandleExtends(s, m, env);
  }

  lemma ServerGlobal(s: S.Server)
    requires S.Inv(s)
    ensures Links.Valid(s.link) && S.GlobalInv(s) && (s.held ==> s.session > 0)
  {
  }

  lemma ServerHandledTrans(s: S.Server, m: Message, s1: S.Server, ms: seq<Message>, s2: S.Server)
    requires ServerHandled(s, [m], s1) && ServerHandled(s1, ms, s2)
    ensures ServerHandled(s, [m] + ms, s2)
  {
    ExtendsTrans(s.link, s.sent, s1.link, s1.sent, s2.link, s2.sent);
    hide Extends;
    assert s.handled + [m] + ms == s.handled + ([m] + ms);
  }

  // ---------- the invariant ----------

  function AllFrames(ls: seq<Link>): seq<Message> {
    if ls == [] then [] else AllFrames(ls[..|ls| - 1]) + ls[|ls| - 1].frames
  }

  /** From server to client. While the client has a tunnel the server has not accepted, nothing arrives on it. */
  ghost predicate DownInv(w: World) {
    var s, c := w.server, w.client;
    && c.base <= |c.handled| && |s.link.frames| <= |s.sent|
    && (if s.session == c.session then
          && InSync(w.clientRec, s.link, w.downRead, c.handled[c.base..])
          && Subseq(c.handled[..c.base], s.sent[..|s.sent| - |s.link.frames|])
        else
          && w.downRead == 0 && w.clientRec.Drained() && w.clientRec.Residue() == []
          && c.base == |c.handled| && Subseq(c.handled, s.sent))
  }

  /** From client to server, which may be reading a tunnel the client has already replaced. */
  ghost predicate UpInv(w: World) {
    var s, c := w.server, w.client;
    && |w.past| == c.session && s.session <= c.session && s.base <= |s.handled|
    && (forall l <- w.past :: Links.Valid(l))
    && c.sent == AllFrames(w.past) + c.link.frames
    && InSync(w.serverRec, UpLink(w), w.upRead, s.handled[s.base..])
    && Subseq(s.handled[..s.base], AllFrames(w.past[..s.session]))
  }

  ghost predicate Inv(w: World) {
    S.Inv(w.server) && C.Inv(w.client) && DownInv(w) && UpInv(w)
  }

  lemma {:induction false} AllFramesPrefix(ls: seq<Link>, n: nat)
    requires n < |ls|
    ensures AllFrames(ls[..n]) + ls[n].frames <= AllFrames(ls)
    decreases |ls|
  {
    var init := ls[..|ls| - 1];
    if n < |ls| - 1 {
      AllFramesPrefix(init, n);
      assert init[..n] == ls[..n];
    }
  }

  /** Losses may lie before base; from there on, msgs included, everything is a prefix of frames. */
  lemma Glue(handled: seq<Message>, base: nat, msgs: seq<Message>, before: seq<Message>, frames: seq<Message>)
    requires base <= |handled| && Subseq(handled[..base], before) && handled[base..] + msgs <= frames
    ensures Subseq(handled + msgs, before + frames)
  {
    PrefixIsSubseq(handled[base..] + msgs, frames);
    SubseqConcat(handled[..base], before, handled[base..] + msgs, frames);
    hide Subseq;
    assert handled[..base] + (handled[base..] + msgs) == handled + msgs;
  }

  /** With the frames msgs handled next, the client's history stays a subsequence of the server's. */
  lemma DownSubseq(w: World, msgs: seq<Message>)
    requires DownInv(w) && S.GlobalInv(w.server)
    requires w.server.session == w.client.session && w.client.handled[w.client.base..] + msgs <= w.server.link.frames
    ensures Subseq(w.client.handled + msgs, w.server.sent)
  {
    var s, c := w.server, w.client;
    var n := |s.sent| - |s.link.frames|;
    hide Subseq, Links.Valid, InSync;
    Glue(c.handled, c.base, msgs, s.sent[..n], s.link.frames);
    assert s.sent[..n] + s.link.frames == s.sent;
  }

  /** The frames of the tunnel being read, after those of earlier tunnels, begin what the client sent. */
  lemma UpFrames(w: World)
    requires UpInv(w)
    ensures AllFrames(w.past[..w.server.session]) + UpLink(w).frames <= w.client.sent
  {
    var s, c := w.server, w.client;
    hide Subseq, Links.Valid, InSync, AllFrames;
    if s.session < |w.past| {
      AllFramesPrefix(w.past, s.session);
      assert AllFrames(w.past) <= c.sent;
    } else {
      assert w.past[..s.session] == w.past;
    }
  }

  lemma UpSubseq(w: World, msgs: seq<Message>)
    requires UpInv(w) && w.server.handled[w.server.base..] + msgs <= UpLink(w).frames
    ensures Subseq(w.server.handled + msgs, w.client.sent)
  {
    var before, frames := AllFrames(w.past[..w.server.session]), UpLink(w).frames;
    UpFrames(w);
    hide Subseq, Links.Valid, InSync, AllFrames, UpLink;
    Glue(w.server.handled, w.server.base, msgs, before, frames);
    PrefixIsSubseq(before + frames, w.client.sent);
    SubseqTrans(w.server.handled + msgs, before + frames, w.client.sent);
  }

  lemma UpLinkValid(w: World)
    requires UpInv(w) && Links.Valid(w.client.link)
    ensures Links.Valid(UpLink(w))
  {
  }

  /** Each side has handled only what the other side sent, in order, perhaps with losses between tunnels. */
  lemma HistoriesAgree(w: World)
    requires Inv(w)
    ensures Subseq(w.client.handled, w.server.sent) && Subseq(w.server.handled, w.client.sent)
  {
    var s, c := w.server, w.client;
    if s.session == c.session {
      SyncPrefix(w.clientRec, s.link, w.downRead, c.handled[c.base..]);
      assert c.handled[c.base..] + [] == c.handled[c.base..] && c.handled + [] == c.handled;
      DownSubseq(w, []);
    }
    UpLinkValid(w);
    SyncPrefix(w.serverRec, UpLink(w), w.upRead, s.handled[s.base..]);
    assert s.handled[s.base..] + [] == s.handled[s.base..] && s.handled + [] == s.handled;
    UpSubseq(w, []);
  }

  /** While there has been one tunnel only, nothing is lost between sending and handling. */
  lemma FirstTunnelHistories(w: World)
    requires Inv(w) && w.client.session <= 1
    ensures w.client.handled <= w.server.sent && w.server.handled <= w.client.sent
    ensures w.server.session == w.client.session && w.downRead == |Bytes(w.server.link)| ==>
              w.client.handled == w.server.sent
    ensures w.server.session == w.client.session && w.upRead == |Bytes(w.client.link)| ==>
              w.server.handled == w.client.sent
  {
    var s, c := w.server, w.client;
    FirstTunnelLogs(w);
    if s.session == c.session {
      hide Inv, S.Inv, C.Inv, Subseq, Links.Valid, Bytes;
      SyncPrefix(w.clientRec, s.link, w.downRead, c.handled);
      SyncPrefix(w.serverRec, c.link, w.upRead, s.handled);
    }
  }

  /** With one tunnel, the histories are those of its links. */
  lemma FirstTunnelLogs(w: World)
    requires Inv(w) && w.client.session <= 1
    ensures var s, c := w.server, w.client;
            if s.session == c.session then
              && s.sent == s.link.frames && c.sent == c.link.frames && Links.Valid(s.link) && Links.Valid(c.link)
              && InSync(w.clientRec, s.link, w.downRead, c.handled)
              && InSync(w.serverRec, c.link, w.upRead, s.handled)
            else s.sent == [] && s.handled == [] && c.handled == []
  {
    var s, c := w.server, w.client;
    assert S.GlobalInv(s) && C.GlobalInv(c);
    hide InSync, Links.Valid, Subseq, S.UdpInv, C.UdpInv, S.ViewInv, C.ViewInv, S.ViewOf, C.ViewOf, AllFrames;
    assert c.handled[c.base..] == c.handled && s.handled[s.base..] == s.handled;
  }

  /** The client speaks of no connection before the server does. */
  lemma NothingUnspoken(w: World, id: ConnId)
    requires Inv(w) && Mentions(w.client.sent, id)
    ensures S.IsAllocated(w.server, id)
  {
    assert C.ViewInv(C.ViewOf(w.client, id)) && S.ViewInv(S.ViewOf(w.server, id));
    HistoriesAgree(w);
    SubseqLog(w.client.handled, w.server.sent, id);
  }

  lemma ServerUnspoken(w: World)
    requires Inv(w)
    ensures SI.Unspoken(w.server)
  {
    HistoriesAgree(w);
    forall id | !S.IsAllocated(w.server, id) ensures !Mentions(w.server.handled, id) {
      SubseqLog(w.server.handled, w.client.sent, id);
      if Mentions(w.client.sent, id) {
        NothingUnspoken(w, id);
      }
    }
  }

  lemma SentByClient(w: World, ms: seq<Message>)
    requires Inv(w) && forall m <- ms :: m in w.client.sent
    ensures Expected(w.server, ms)
  {
    forall m | m in ms ensures !m.mtype.TcpOpen? && (!m.mtype.UdpPacket? ==> S.IsAllocated(w.server, m.connId)) {
      if !m.mtype.UdpPacket? {
        Mentioned(w.client.sent, m);
        NothingUnspoken(w, m.connId);
      }
    }
  }

  lemma {:induction false} Mentioned(log: seq<Message>, m: Message)
    requires m in log && !m.mtype.UdpPacket?
    ensures Mentions(log, m.connId)
    decreases |log|
  {
    if log[|log| - 1] != m {
      Mentioned(log[..|log| - 1], m);
    }
  }

  // ---------- the steps ----------

  lemma DownAfterServer(w: World, s': S.Server)
    requires DownInv(w) && Extends(w.server.link, w.server.sent, s'.link, s'.sent) && s'.session == w.server.session
    ensures DownInv(w.(server := s'))
  {
    var s, c := w.server, w.client;
    hide Bytes, InSync, Subseq;
    if s.session == c.session {
      SyncGrows(w.clientRec, s.link, w.downRead, c.handled[c.base..], s'.link);
      var n := |s.sent| - |s.link.frames|;
      assert s'.sent[..n] == s.sent[..n];
    } else {
      SubseqGrow(c.handled, s.sent, s'.sent[|s.sent|..]);
      assert s.sent + s'.sent[|s.sent|..] == s'.sent;
    }
  }

  lemma UpAfterClient(w: World, c': C.Client)
    requires UpInv(w) && Extends(w.client.link, w.client.sent, c'.link, c'.sent) && c'.session == w.client.session
    requires C.GlobalInv(c')
    ensures UpInv(w.(client := c'))
  {
    var s, c, w' := w.server, w.client, w.(client := c');
    hide Bytes, InSync, Subseq, AllFrames, Links.Valid;
    var n := |c.sent| - |c.link.frames|;
    assert c'.sent[..n] == AllFrames(w.past);
    assert c'.sent == c'.sent[..n] + c'.sent[n..];
    SyncGrows(w.serverRec, UpLink(w), w.upRead, s.handled[s.base..], UpLink(w'));
  }

  lemma ServerStepInv(w: World, step: S.ServerStep)
    requires Inv(w) && S.Enabled(w.server, step) && !step.AcceptTunnel?
    ensures Inv(w.(server := S.Step(w.server, step)))
  {
    ServerUnspoken(w);
    SI.StepInv(w.server, step);
    ServerGlobal(w.server);
    ServerStepExtends(w.server, step);
    DownAfterServer(w, S.Step(w.server, step));
    hide S.Step, S.Inv, InSync, Links.Valid, Extends, AllFrames, Subseq;
  }

  lemma AcceptTunnelUp(w: World, s': S.Server)
    requires UpInv(w) && Links.Valid(w.client.link)
    requires w.server.session < w.client.session && w.serverRec.Residue() == []
    requires s'.session == w.server.session + 1 && s'.handled == w.server.handled && s'.base == |s'.handled|
    ensures UpInv(w.(server := s', upRead := 0))
  {
    var s, n := w.server, w.server.session;
    SyncStarts(w.serverRec, UpLink(w.(server := s', upRead := 0)));
    UpLinkValid(w);
    SyncPrefix(w.serverRec, UpLink(w), w.upRead, s.handled[s.base..]);
    assert s.handled[s.base..] + [] == s.handled[s.base..] && s.handled + [] == s.handled;
    Glue(s.handled, s.base, [], AllFrames(w.past[..n]), UpLink(w).frames);
    assert w.past[..n + 1][..n] == w.past[..n];
    assert AllFrames(w.past[..n + 1]) == AllFrames(w.past[..n]) + w.past[n].frames;
    hide InSync, Links.Valid, AllFrames, Subseq;
    assert s'.handled[..s'.base] == s.handled && s'.handled[s'.base..] == [];
  }

  lemma AcceptTunnelDown(w: World, s': S.Server)
    requires DownInv(w) && w.server.session < w.client.session
    requires s'.session == w.server.session + 1 && s'.sent == w.server.sent && s'.link == FRESH_LINK
    ensures DownInv(w.(server := s', upRead := 0))
  {
    var c := w.client;
    SyncStarts(w.clientRec, FRESH_LINK);
    hide InSync, Subseq;
    assert c.handled[..c.base] == c.handled && c.handled[c.base..] == [];
    assert s'.sent[..|s'.sent|] == s'.sent;
  }

  lemma AcceptTunnelInv(w: World)
    requires Inv(w) && w.server.session < w.client.session && w.serverRec.Residue() == []
    ensures Inv(w.(server := S.Step(w.server, S.AcceptTunnel), upRead := 0))
  {
    var s' := S.Step(w.server, S.AcceptTunnel);
    ServerUnspoken(w);
    SI.StepInv(w.server, S.AcceptTunnel);
    ClientGlobal(w.client);
    AcceptTunnelUp(w, s');
    AcceptTunnelDown(w, s');
    hide S.Inv, C.Inv, UpInv, DownInv;
  }

  lemma ClientStepInv(w: World, step: C.ClientStep)
    requires Inv(w) && C.Enabled(w.client, step) && !step.ConnectTunnel?
    ensures Inv(w.(client := C.Step(w.client, step)))
  {
    CI.StepInv(w.client, step);
    ClientGlobal(w.client);
    ClientStepExtends(w.client, step);
    UpAfterClient(w, C.Step(w.client, step));
    hide C.Step, InSync, Links.Valid, Extends, Subseq, UpInv, C.GlobalInv, C.UdpInv, C.ViewInv;
  }

  lemma ConnectTunnelUp(w: World, c': C.Client)
    requires UpInv(w) && Links.Valid(w.client.link)
    requires c'.session == w.client.session + 1 && c'.sent == w.client.sent && c'.link == FRESH_LINK
    ensures UpInv(w.(client := c', past := w.past + [w.client.link], downRead := 0))
  {
    var l, n := w.client.link, w.server.session;
    var past := w.past + [l];
    assert past[..|w.past|] == w.past;
    assert AllFrames(past) == AllFrames(w.past) + l.frames;
    hide InSync, Links.Valid, AllFrames, Subseq;
    assert past[..n] == w.past[..n];
    assert c'.sent == AllFrames(past) + [];
    assert forall k <- past :: Links.Valid(k);
  }

  lemma ConnectTunnelDown(w: World, c': C.Client)
    requires DownInv(w) && w.clientRec.Residue() == [] && w.server.session <= w.client.session
    requires Subseq(w.client.handled, w.server.sent)
    requires c'.session == w.client.session + 1 && c'.handled == w.client.handled && c'.base == |c'.handled|
    ensures DownInv(w.(client := c', past := w.past + [w.client.link], downRead := 0))
  {
    assert w.clientRec.Drained();
    hide InSync, Subseq;
  }

  lemma ConnectTunnelInv(w: World)
    requires Inv(w) && C.Enabled(w.client, C.ConnectTunnel) && w.clientRec.Residue() == []
    ensures Inv(w.(client := C.Step(w.client, C.ConnectTunnel), past := w.past + [w.client.link], downRead := 0))
  {
    var c' := C.Step(w.client, C.ConnectTunnel);
    CI.StepInv(w.client, C.ConnectTunnel);
    HistoriesAgree(w);
    ClientGlobal(w.client);
    assert w.server.session <= w.client.session;
    hide S.Inv, C.Inv, UpInv, DownInv;
    ConnectTunnelUp(w, c');
    ConnectTunnelDown(w, c');
  }

  lemma UpAfterHandling(w: World, s': S.Server, p: Parser, n: nat, msgs: seq<Message>)
    requires UpInv(w) && ServerHandled(w.server, msgs, s')
    requires InSync(p, UpLink(w), n, w.server.handled[w.server.base..] + msgs)
    ensures UpInv(w.(server := s', serverRec := p, upRead := n))
  {
    hide InSync, Extends, Links.Valid, Subseq, AllFrames;
    var s := w.server;
    assert s'.handled[s.base..] == s.handled[s.base..] + msgs && s'.handled[..s.base] == s.handled[..s.base];
  }

  lemma DownAfterHandling(w: World, c': C.Client, p: Parser, n: nat, msgs: seq<Message>)
    requires DownInv(w) && ClientHandled(w.client, msgs, c') && w.server.session == w.client.session
    requires InSync(p, w.server.link, n, w.client.handled[w.client.base..] + msgs)
    ensures DownInv(w.(client := c', clientRec := p, downRead := n))
  {
    hide InSync, Extends, Subseq;
    var c := w.client;
    assert c'.handled[c.base..] == c.handled[c.base..] + msgs && c'.handled[..c.base] == c.handled[..c.base];
  }

  /** The messages a chunk completes are the next ones the client sent. */
  lemma ServerNext(w: World, n: nat)
    requires UpInv(w) && Links.Valid(w.client.link) && w.upRead + n <= |Bytes(UpLink(w))|
    ensures w.serverRec.Valid()
    ensures var d := Collect(w.serverRec, Bytes(UpLink(w))[w.upRead..w.upRead + n]);
            && InSync(d.parser, UpLink(w), w.upRead + n, w.server.handled[w.server.base..] + d.msgs)
            && forall m <- d.msgs :: m in w.client.sent
  {
    hide Bytes, Collect, AllFrames, Subseq;
    var l, before := UpLink(w), w.server.handled[w.server.base..];
    var d := Collect(w.serverRec, Bytes(l)[w.upRead..w.upRead + n]);
    UpLinkValid(w);
    SyncReceives(w.serverRec, l, w.upRead, before, n);
    hide InSync, Links.Valid;
    SyncPrefix(d.parser, l, w.upRead + n, before + d.msgs);
    UpFrames(w);
    Members(before, d.msgs, l.frames, AllFrames(w.past[..w.server.session]), w.client.sent);
  }

  lemma Members(before: seq<Message>, msgs: seq<Message>, frames: seq<Message>, earlier: seq<Message>,
      sent: seq<Message>)
    requires before + msgs <= frames && earlier + frames <= sent
    ensures forall m <- msgs :: m in sent
  {
    forall m | m in msgs ensures m in sent {
      assert m in before + msgs;
      assert m in frames;
      assert m in earlier + frames;
    }
  }

  /** Each direction's invariant is about its own reader only. */
  lemma OwnReader(w: World, p: Parser, n: nat)
    requires UpInv(w)
    ensures UpInv(w.(clientRec := p, downRead := n))
  {
    hide InSync, Subseq, AllFrames, Links.Valid;
  }

  lemma OwnReaderDown(w: World, p: Parser, n: nat)
    requires DownInv(w)
    ensures DownInv(w.(serverRec := p, upRead := n))
  {
    hide InSync, Subseq;
  }

  lemma ServerHasRead(w: World, s': S.Server, p: Parser, n: nat, msgs: seq<Message>)
    requires Inv(w) && S.Inv(s') && ServerHandled(w.server, msgs, s')
    requires InSync(p, UpLink(w), n, w.server.handled[w.server.base..] + msgs)
    ensures Inv(w.(server := s', serverRec := p, upRead := n))
  {
    assert Extends(w.server.link, w.server.sent, s'.link, s'.sent) && s'.session == w.server.session;
    UpAfterHandling(w, s', p, n, msgs);
    DownAfterServer(w, s');
    OwnReaderDown(w.(server := s'), p, n);
    hide S.Inv, C.Inv, UpInv, DownInv, ServerHandled;
  }

  lemma ServerNews(s: S.Server, ms: seq<Message>, s': S.Server)
    requires ServerHandled(s, ms, s')
    ensures s'.handled[|s.handled|..] == ms
  {
  }

  lemma ClientNews(c: C.Client, ms: seq<Message>, c': C.Client)
    requires ClientHandled(c, ms, c')
    ensures c'.handled[|c.handled|..] == ms
  {
  }

  lemma ServerReadsInv(w: World, n: nat, envs: seq<S.Env>)
    requires Inv(w) && w.server.held && w.upRead + n <= |Bytes(UpLink(w))|
    ensures w.serverRec.Valid() && Inv(ServerReads(w, n, envs))
    ensures var w' := ServerReads(w, n, envs);
            |w.server.handled| <= |w'.server.handled|
            && ServerHandled(w.server, w'.server.handled[|w.server.handled|..], w'.server)
  {
    hide S.Inv, C.Inv, UpInv, DownInv, Collect, Bytes, UpLink, ServerHandles, InSync, Subseq;
    assert S.Inv(w.server) && C.Inv(w.client) && UpInv(w);
    ServerGlobal(w.server);
    ClientGlobal(w.client);
    ServerNext(w, n);
    var d := Collect(w.serverRec, Bytes(UpLink(w))[w.upRead..w.upRead + n]);
    var s' := ServerHandles(w.server, d.msgs, envs);
    assert ServerReads(w, n, envs) == w.(server := s', serverRec := d.parser, upRead := w.upRead + n);
    hide *;
    SentByClient(w, d.msgs);
    ServerHandlesInv(w.server, d.msgs, envs);
    ServerHasRead(w, s', d.parser, w.upRead + n, d.msgs);
    ServerNews(w.server, d.msgs, s');
  }

  /** The messages a chunk completes are the next ones the server sent. */
  lemma ClientNext(w: World, n: nat)
    requires DownInv(w) && S.GlobalInv(w.server)
    requires w.server.session == w.client.session && w.downRead + n <= |Bytes(w.server.link)|
    ensures w.clientRec.Valid()
    ensures var d := Collect(w.clientRec, Bytes(w.server.link)[w.downRead..w.downRead + n]);
            && InSync(d.parser, w.server.link, w.downRead + n, w.client.handled[w.client.base..] + d.msgs)
            && Subseq(w.client.handled + d.msgs, w.server.sent)
  {
    hide Bytes, Collect, Subseq;
    var l, before := w.server.link, w.client.handled[w.client.base..];
    var d := Collect(w.clientRec, Bytes(l)[w.downRead..w.downRead + n]);
    SyncReceives(w.clientRec, l, w.downRead, before, n);
    SyncPrefix(d.parser, l, w.downRead + n, before + d.msgs);
    hide InSync, Links.Valid;
    DownSubseq(w, d.msgs);
  }

  lemma OpensComeFirst(s: S.Server)
    requires S.Inv(s)
    ensures EveryOpenFirst(s.sent)
  {
    forall id ensures OpensFirst(s.sent, id) {
      assert S.ViewInv(S.ViewOf(s, id));
      GrammarOpensFirst(s.sent, id);
    }
  }

  lemma ClientHasRead(w: World, c': C.Client, p: Parser, n: nat, msgs: seq<Message>)
    requires Inv(w) && C.Inv(c') && ClientHandled(w.client, msgs, c') && w.server.session == w.client.session
    requires InSync(p, w.server.link, n, w.client.handled[w.client.base..] + msgs)
    ensures Inv(w.(client := c', clientRec := p, downRead := n))
  {
    assert Extends(w.client.link, w.client.sent, c'.link, c'.sent) && c'.session == w.client.session;
    DownAfterHandling(w, c', p, n, msgs);
    ClientGlobal(c');
    UpAfterClient(w, c');
    OwnReader(w.(client := c'), p, n);
    hide S.Inv, C.Inv, UpInv, DownInv, ClientHandled, C.GlobalInv;
  }

  lemma ClientReadsInv(w: World, n: nat, envs: seq<C.Env>)
    requires Inv(w) && w.client.contLoop && w.server.session == w.client.session
    requires w.downRead + n <= |Bytes(w.server.link)|
    ensures w.clientRec.Valid() && Inv(ClientReads(w, n, envs))
    ensures var w' := ClientReads(w, n, envs);
            |w.client.handled| <= |w'.client.handled|
            && ClientHandled(w.client, w'.client.handled[|w.client.handled|..], w'.client)
  {
    hide S.Inv, C.Inv, UpInv, DownInv, S.GlobalInv, Collect, Bytes, ClientHandles, InSync, Subseq;
    assert S.Inv(w.server) && C.Inv(w.client) && DownInv(w);
    ServerGlobal(w.server);
    ClientGlobal(w.client);
    ClientNext(w, n);
    var d := Collect(w.clientRec, Bytes(w.server.link)[w.downRead..w.downRead + n]);
    var c' := ClientHandles(w.client, d.msgs, envs);
    assert ClientReads(w, n, envs) == w.(client := c', clientRec := d.parser, downRead := w.downRead + n);
    hide *;
    OpensComeFirst(w.server);
    ClientHandlesInv(w.client, d.msgs, envs, w.server.sent);
    ClientHasRead(w, c', d.parser, w.downRead + n, d.msgs);
    ClientNews(w.client, d.msgs, c');
  }

  lemma ApplyInv(w: World, step: Step)
    requires Inv(w) && AtBoundary(w, step)
    ensures w.serverRec.Valid() && w.clientRec.Valid() && Inv(Apply(w, step))
  {
    assert w.serverRec.Drained() && w.clientRec.Drained();
    if CanStep(w, step) {
      match step
      case OfServer(s) =>
        if s.AcceptTunnel? {
          AcceptTunnelInv(w);
        } else {
          ServerStepInv(w, s);
        }
        hide Inv, S.Step;
      case OfClient(c) =>
        if c.ConnectTunnel? {
          ConnectTunnelInv(w);
        } else {
          ClientStepInv(w, c);
        }
        hide Inv, C.Step;
      case ServerReceives(n, envs) => ServerReadsInv(w, n, envs);
      case ClientReceives(n, envs) => ClientReadsInv(w, n, envs);
    }
  }

  lemma InitLinks()
    ensures DownInv(INITIAL_WORLD) && UpInv(INITIAL_WORLD)
  {
    SyncStarts(INITIAL, NO_LINK);
    assert Subseq<Message>([], []);
    hide InSync, Subseq;
  }

  lemma {:induction false} RunInv(steps: seq<Step>)
    requires BoundaryRun(steps)
    ensures Inv(Run(steps))
    decreases |steps|
  {
    hide S.UdpInv, S.GlobalInv, S.ViewInv, S.ViewOf, C.UdpInv, C.GlobalInv, C.ViewInv, C.ViewOf;
    hide DownInv, UpInv, Apply, AtBoundary;
    if steps == [] {
      SI.InitInv();
      CI.InitInv();
      InitLinks();
    } else {
      var init := steps[..|steps| - 1];
      RunInv(init);
      hide Inv;
      ApplyInv(Run(init), steps[|steps| - 1]);
    }
  }

  // ---------- runs with one tunnel ----------

  /** Before its first tunnel, a side has received nothing. */
  ghost predicate Untouched(w: World) {
    && (w.server.session == 0 ==> w.serverRec == INITIAL && !w.server.held)
    && (w.client.session == 0 ==> w.clientRec == INITIAL && !w.client.contLoop)
  }

  lemma ServerHandleKeeps(s: S.Server, m: Message, env: S.Env)
    ensures S.Handle(s, m, env).session == s.session && S.Handle(s, m, env).held == s.held
  {
    hide Transmit, Append, Cut;
  }

  lemma OnOpenKeeps(c: C.Client, id: ConnId, env: C.Env)
    ensures C.OnOpen(c, id, env).session == c.session && C.OnOpen(c, id, env).contLoop == c.contLoop
  {
    hide Transmit;
  }

  lemma OnTunnelDataKeeps(c: C.Client, id: ConnId, b: seq<byte>, env: C.Env)
    ensures C.OnTunnelData(c, id, b, env).session == c.session && C.OnTunnelData(c, id, b, env).contLoop == c.contLoop
  {
    hide Transmit, Append, Cut;
  }

  lemma ClientHandleKeeps(c: C.Client, m: Message, env: C.Env)
    ensures C.Handle(c, m, env).session == c.session && C.Handle(c, m, env).contLoop == c.contLoop
  {
    hide C.OnOpen, C.OnTunnelData;
    OnOpenKeeps(c.(handled := c.handled + [m]), m.connId, env);
    OnTunnelDataKeeps(c.(handled := c.handled + [m]), m.connId, m.payload, env);
  }

  lemma {:induction false} ServerHandlingKeeps(s: S.Server, ms: seq<Message>, envs: seq<S.Env>)
    ensures ServerHandles(s, ms, envs).session == s.session && ServerHandles(s, ms, envs).held == s.held
    decreases |ms|
  {
    hide S.Handle;
    if ms != [] {
      var env := if envs == [] then S.Env(0, 0) else envs[0];
      ServerHandleKeeps(s, ms[0], env);
      ServerHandlingKeeps(S.Handle(s, ms[0], env), ms[1..], if envs == [] then [] else envs[1..]);
    }
  }

  lemma {:induction false} ClientHandlingKeeps(c: C.Client, ms: seq<Message>, envs: seq<C.Env>)
    ensures ClientHandles(c, ms, envs).session == c.session && ClientHandles(c, ms, envs).contLoop == c.contLoop
    decreases |ms|
  {
    hide C.Handle;
    if ms != [] {
      var env := if envs == [] then C.Env(C.Refused, 0, 0) else envs[0];
      ClientHandleKeeps(c, ms[0], env);
      ClientHandlingKeeps(C.Handle(c, ms[0], env), ms[1..], if envs == [] then [] else envs[1..]);
    }
  }

  lemma ServerStepKeeps(s: S.Server, step: S.ServerStep)
    requires S.Enabled(s, step) && !step.AcceptTunnel?
    ensures S.Step(s, step).session == s.session && (S.Step(s, step).held ==> s.held)
  {
    hide Transmit, Append;
  }

  lemma ClientStepKeeps(c: C.Client, step: C.ClientStep)
    requires C.Enabled(c, step) && !step.ConnectTunnel?
    ensures C.Step(c, step).session == c.session && (C.Step(c, step).contLoop ==> c.contLoop)
  {
    hide Transmit, Append;
  }

  lemma ServerUntouched(w: World, s: S.ServerStep)
    requires w.serverRec.Valid() && w.clientRec.Valid() && Untouched(w)
    ensures Untouched(Apply(w, OfServer(s))) && w.client.session <= Apply(w, OfServer(s)).client.session
  {
    if s.AcceptTunnel? {
      assert S.Step(w.server, s).session == w.server.session + 1;
    } else if S.Enabled(w.server, s) {
      ServerStepKeeps(w.server, s);
    }
    hide S.Step;
  }

  lemma ClientUntouched(w: World, c: C.ClientStep)
    requires w.serverRec.Valid() && w.clientRec.Valid() && Untouched(w)
    ensures Untouched(Apply(w, OfClient(c))) && w.client.session <= Apply(w, OfClient(c)).client.session
  {
    if c.ConnectTunnel? && C.Enabled(w.client, c) {
      assert C.Step(w.client, c).session == w.client.session + 1;
    } else if C.Enabled(w.client, c) {
      ClientStepKeeps(w.client, c);
    }
    hide C.Step;
  }

  lemma ApplyUntouched(w: World, step: Step)
    requires w.serverRec.Valid() && w.clientRec.Valid() && Untouched(w)
    ensures Untouched(Apply(w, step)) && w.client.session <= Apply(w, step).client.session
  {
    hide S.Step, C.Step, ServerHandles, ClientHandles, Collect, Bytes;
    match step
    case OfServer(s) => ServerUntouched(w, s);
    case OfClient(c) => ClientUntouched(w, c);
    case ServerReceives(n, envs) =>
      if CanStep(w, step) {
        ServerHandlingKeeps(w.server, Collect(w.serverRec, Bytes(UpLink(w))[w.upRead..w.upRead + n]).msgs, envs);
      }
    case ClientReceives(n, envs) =>
      if CanStep(w, step) {
        ClientHandlingKeeps(w.client, Collect(w.clientRec, Bytes(w.server.link)[w.downRead..w.downRead + n]).msgs,
          envs);
      }
  }

  /** With at most one tunnel, it starts at a frame boundary on both sides. */
  lemma {:induction false} OneTunnelIsBoundaryRun(steps: seq<Step>)
    ensures Untouched(Run(steps))
    ensures Run(steps).client.session <= 1 ==> BoundaryRun(steps)
    decreases |steps|
  {
    if steps != [] {
      var init, step := steps[..|steps| - 1], steps[|steps| - 1];
      OneTunnelIsBoundaryRun(init);
      ApplyUntouched(Run(init), step);
      assert INITIAL.Residue() == [];
    }
  }
}
