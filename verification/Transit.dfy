/** What becomes of a frame written in full. */
module Transit {
  // Over any number of tunnels that change at frame boundaries, it has been handled, it was lost with its tunnel,
  // or it is still on the way.

  import opened Protocol
  import opened Seqs
  import opened Reassembly
  import opened Links
  import opened World
  import opened WorldInvariant
  import opened Growth
  import S = ServerModel
  import C = ClientModel

  function Rest(s: seq<Message>, n: int): seq<Message> {
    if 0 <= n <= |s| then s[n..] else []
  }

  /** Frames the client can still get: those of the tunnel both sides have, after the ones it handled. */
  function DownOnTheWay(w: World): seq<Message> {
    if w.server.session == w.client.session then Rest(w.server.link.frames, |w.client.handled| - w.client.base) else []
  }

  /** Frames the server can still get: those of the tunnel it has, and of the tunnels it will accept. */
  function UpOnTheWay(w: World): seq<Message> {
    if w.server.session <= |w.past| then
      Rest(w.client.sent, |AllFrames(w.past[..w.server.session])| + |w.server.handled| - w.server.base)
    else []
  }

  /**
   Frames to the client lost in a step: what it had not handled when it connects a new tunnel, and what
   the server writes to a tunnel the client has given up.
   */
  function DownLostIn(w: World, step: Step): seq<Message>
    requires w.serverRec.Valid() && w.clientRec.Valid()
  {
    var w' := Apply(w, step);
    if w.server.session != w.client.session then Rest(w'.server.sent, |w.server.sent|)
    else if w'.client.session != w.client.session then DownOnTheWay(w)
    else []
  }

  /** Frames to the server lost in a step: what it had not handled of its tunnel when it accepts another. */
  function UpLostIn(w: World, step: Step): seq<Message>
    requires w.serverRec.Valid() && w.clientRec.Valid()
  {
    if Apply(w, step).server.session == w.server.session then []
    else Rest(UpLink(w).frames, |w.server.handled| - w.server.base)
  }

  function DownLost(steps: seq<Step>): seq<Message> {
    if steps == [] then []
    else
      var init := steps[..|steps| - 1];
      DownLost(init) + DownLostIn(Run(init), steps[|steps| - 1])
  }

  function UpLost(steps: seq<Step>): seq<Message> {
    if steps == [] then []
    else
      var init := steps[..|steps| - 1];
      UpLost(init) + UpLostIn(Run(init), steps[|steps| - 1])
  }

  // ---------- frames of the tunnels given up ----------

  /** Sent to the client, and handled by it, before the tunnel they now share, or at all when they share none. */
  function DownPast(w: World): (seq<Message>, seq<Message>) {
    if w.server.session == w.client.session && |w.server.link.frames| <= |w.server.sent|
        && w.client.base <= |w.client.handled|
    then (w.server.sent[..|w.server.sent| - |w.server.link.frames|], w.client.handled[..w.client.base])
    else (w.server.sent, w.client.handled)
  }

  /** Sent to the server, and handled by it, before the tunnel it accepted last. */
  function UpPast(w: World): (seq<Message>, seq<Message>) {
    if w.server.session <= |w.past| && w.server.base <= |w.server.handled|
    then (AllFrames(w.past[..w.server.session]), w.server.handled[..w.server.base])
    else ([], [])
  }

  /** Of what was sent, all was handled or lost. */
  ghost predicate Settled(sentHandled: (seq<Message>, seq<Message>), lost: seq<Message>) {
    multiset(sentHandled.0) == multiset(sentHandled.1) + multiset(lost)
  }

  /** No tunnel changes. */
  lemma DownStays(w: World, w': World, lost: seq<Message>)
    requires DownInv(w) && DownInv(w') && Settled(DownPast(w), lost)
    requires w'.server.session == w.server.session && w'.client.session == w.client.session
    requires w.server.sent <= w'.server.sent && w.client.handled <= w'.client.handled && w'.client.base == w.client.base
    requires |w'.server.sent| - |w'.server.link.frames| == |w.server.sent| - |w.server.link.frames|
    requires w.server.session != w.client.session ==> w'.client.handled == w.client.handled
    ensures var now := if w.server.session != w.client.session then Rest(w'.server.sent, |w.server.sent|) else [];
            Settled(DownPast(w'), lost + now)
  {
    hide InSync, Subseq;
    if w.server.session == w.client.session {
      var n, base := |w.server.sent| - |w.server.link.frames|, w.client.base;
      assert w'.server.sent[..n] == w.server.sent[..n] && w'.client.handled[..base] == w.client.handled[..base];
      assert lost + [] == lost;
    } else {
      assert w'.server.sent == w.server.sent + w'.server.sent[|w.server.sent|..];
    }
  }

  /** The client connects a new tunnel. */
  lemma DownGivenUp(w: World, w': World, lost: seq<Message>)
    requires DownInv(w) && DownInv(w') && Settled(DownPast(w), lost)
    requires w'.server == w.server && w.server.session <= w.client.session && w'.client.session == w.client.session + 1
    requires w'.client.handled == w.client.handled && Links.Valid(w.server.link)
    requires w.server.sent[|w.server.sent| - |w.server.link.frames|..] == w.server.link.frames
    ensures Settled(DownPast(w'), lost + DownOnTheWay(w))
  {
    hide Subseq, Settled, Parse, Incomplete, Bytes;
    var s, c := w.server, w.client;
    if s.session == c.session {
      SyncPrefix(w.clientRec, s.link, w.downRead, c.handled[c.base..]);
      hide InSync, Links.Valid;
      var n := |s.sent| - |s.link.frames|;
      assert s.sent == s.sent[..n] + s.link.frames && c.handled == c.handled[..c.base] + c.handled[c.base..];
      assert DownPast(w) == (s.sent[..n], c.handled[..c.base]);
      assert DownPast(w') == (s.sent[..n] + s.link.frames, c.handled[..c.base] + c.handled[c.base..]);
      Splits(s.sent[..n], s.link.frames, c.handled[..c.base], c.handled[c.base..], lost);
    } else {
      assert lost + [] == lost;
    }
  }

  /** The server accepts the next tunnel. */
  lemma DownAccepted(w: World, w': World, lost: seq<Message>)
    requires DownInv(w) && DownInv(w') && Settled(DownPast(w), lost)
    requires w.server.session < w.client.session && w'.client == w.client
    requires w'.server.sent == w.server.sent && w'.server.link.frames == []
    ensures Settled(DownPast(w'), lost + [])
  {
    hide InSync, Subseq;
    assert lost + [] == lost;
    assert w.client.handled[..|w.client.handled|] == w.client.handled;
    assert w.server.sent[..|w.server.sent|] == w.server.sent;
  }

  lemma UpStays(w: World, w': World, lost: seq<Message>)
    requires UpInv(w) && UpInv(w') && Settled(UpPast(w), lost)
    requires w'.server.session == w.server.session && w'.server.base == w.server.base
    requires w.server.handled <= w'.server.handled && w.past <= w'.past
    ensures Settled(UpPast(w'), lost + [])
  {
    hide InSync, Subseq, AllFrames, Links.Valid;
    assert lost + [] == lost;
    assert w'.past[..w.server.session] == w.past[..w.server.session];
    assert w'.server.handled[..w.server.base] == w.server.handled[..w.server.base];
  }

  lemma UpAccepted(w: World, w': World, lost: seq<Message>)
    requires UpInv(w) && UpInv(w') && Settled(UpPast(w), lost) && Links.Valid(w.client.link)
    requires w.server.session < w.client.session && w'.server.session == w.server.session + 1 && w'.past == w.past
    requires w'.server.handled == w.server.handled && w'.server.base == |w.server.handled|
    ensures Settled(UpPast(w'), lost + Rest(UpLink(w).frames, |w.server.handled| - w.server.base))
  {
    hide Subseq, Settled, Parse, Incomplete, Bytes;
    var s, n, l := w.server, w.server.session, UpLink(w);
    UpLinkValid(w);
    SyncPrefix(w.serverRec, l, w.upRead, s.handled[s.base..]);
    hide InSync, Links.Valid;
    assert w.past[..n + 1][..n] == w.past[..n] && w.past[..n + 1][n] == l;
    assert AllFrames(w.past[..n + 1]) == AllFrames(w.past[..n]) + l.frames;
    assert s.handled[..|s.handled|] == s.handled && s.handled[..s.base] + s.handled[s.base..] == s.handled;
    assert UpPast(w) == (AllFrames(w.past[..n]), s.handled[..s.base]);
    assert UpPast(w') == (AllFrames(w.past[..n]) + l.frames, s.handled[..s.base] + s.handled[s.base..]);
    hide *;
    Splits(AllFrames(w.past[..n]), l.frames, s.handled[..s.base], s.handled[s.base..], lost);
  }

  /** A tunnel whose frames were handled up to some point, and the rest lost with it. */
  lemma Splits(sent: seq<Message>, frames: seq<Message>, before: seq<Message>, handled: seq<Message>,
      lost: seq<Message>)
    requires Settled((sent, before), lost) && handled <= frames
    ensures Settled((sent + frames, before + handled), lost + Rest(frames, |handled|))
  {
    assert frames == handled + frames[|handled|..];
  }

  // ---------- what a step does to the frames ----------

  /** No step takes back a frame that was sent or handled. */
  ghost predicate Grown(w: World, w': World) {
    && w.server.sent <= w'.server.sent && w.server.handled <= w'.server.handled
    && w.client.sent <= w'.client.sent && w.client.handled <= w'.client.handled
  }

  /** A step within the tunnels there are. */
  ghost predicate SameTunnels(w: World, w': World) {
    && w'.server.session == w.server.session && w'.server.base == w.server.base
    && |w'.server.sent| - |w'.server.link.frames| == |w.server.sent| - |w.server.link.frames|
    && w'.client.session == w.client.session && w'.client.base == w.client.base && w'.past == w.past
    && (w.server.session != w.client.session ==> w'.client.handled == w.client.handled)
  }

  ghost predicate Accepted(w: World, w': World) {
    && w.server.session < w.client.session && w'.server.session == w.server.session + 1
    && w'.server.sent == w.server.sent && w'.server.link.frames == []
    && w'.server.handled == w.server.handled && w'.server.base == |w.server.handled|
    && w'.client == w.client && w'.past == w.past
  }

  ghost predicate Connected(w: World, w': World) {
    && w'.server == w.server && w'.client.session == w.client.session + 1
    && w'.client.handled == w.client.handled && w'.client.sent == w.client.sent && w.past <= w'.past
  }

  lemma ServerProgress(w: World, step: S.ServerStep)
    requires Inv(w) && S.Enabled(w.server, step) && !step.AcceptTunnel?
    ensures var w' := w.(server := S.Step(w.server, step)); Grown(w, w') && SameTunnels(w, w')
  {
    hide C.Inv, UpInv, DownInv, S.Step;
    ServerGlobal(w.server);
    ServerStepExtends(w.server, step);
    hide S.Inv, Bytes;
  }

  lemma ClientProgress(w: World, step: C.ClientStep)
    requires Inv(w) && C.Enabled(w.client, step) && !step.ConnectTunnel?
    ensures var w' := w.(client := C.Step(w.client, step)); Grown(w, w') && SameTunnels(w, w')
  {
    hide S.Inv, UpInv, DownInv, C.Step;
    ClientGlobal(w.client);
    ClientStepExtends(w.client, step);
    hide C.Inv, Bytes;
  }

  lemma ServerReadsProgress(w: World, n: nat, envs: seq<S.Env>)
    requires Inv(w) && w.server.held && w.upRead + n <= |Bytes(UpLink(w))|
    ensures w.serverRec.Valid()
    ensures var w' := ServerReads(w, n, envs); Grown(w, w') && SameTunnels(w, w')
  {
    hide Inv, Collect, ServerHandles, Bytes, UpLink;
    ServerReadsInv(w, n, envs);
  }

  lemma ClientReadsProgress(w: World, n: nat, envs: seq<C.Env>)
    requires Inv(w) && w.client.contLoop && w.server.session == w.client.session
    requires w.downRead + n <= |Bytes(w.server.link)|
    ensures w.clientRec.Valid()
    ensures var w' := ClientReads(w, n, envs); Grown(w, w') && SameTunnels(w, w')
  {
    hide Inv, Collect, ClientHandles, Bytes;
    ClientReadsInv(w, n, envs);
  }

  /** Every step either keeps the tunnels or changes one of them. */
  lemma Progress(w: World, step: Step)
    requires Inv(w) && w.serverRec.Valid() && w.clientRec.Valid()
    ensures var w' := Apply(w, step);
            Grown(w, w') && (SameTunnels(w, w') || Accepted(w, w') || Connected(w, w'))
  {
    hide Inv, Bytes, ServerReads, ClientReads, UpLink;
    if CanStep(w, step) {
      match step
      case OfServer(s) =>
        if !s.AcceptTunnel? {
          ServerProgress(w, s);
          hide S.Step;
        }
      case OfClient(c) =>
        if !c.ConnectTunnel? {
          ClientProgress(w, c);
          hide C.Step;
        }
      case ServerReceives(n, envs) => ServerReadsProgress(w, n, envs);
      case ClientReceives(n, envs) => ClientReadsProgress(w, n, envs);
    }
  }

  // ---------- the law ----------

  lemma StepSettles(w: World, step: Step, down: seq<Message>, up: seq<Message>)
    requires Inv(w) && w.serverRec.Valid() && w.clientRec.Valid() && Inv(Apply(w, step))
    requires Settled(DownPast(w), down) && Settled(UpPast(w), up)
    ensures Settled(DownPast(Apply(w, step)), down + DownLostIn(w, step))
    ensures Settled(UpPast(Apply(w, step)), up + UpLostIn(w, step))
  {
    hide Inv, DownInv, UpInv, Apply, Settled, DownPast, UpPast, Links.Valid, UpLink, Rest;
    var w' := Apply(w, step);
    Progress(w, step);
    InvFacts(w);
    InvFacts(w');
    if SameTunnels(w, w') {
      DownStays(w, w', down);
      UpStays(w, w', up);
    } else if Accepted(w, w') {
      DownAccepted(w, w', down);
      UpAccepted(w, w', up);
      RestOfAll(w.server.sent);
    } else {
      DownGivenUp(w, w', down);
      UpStays(w, w', up);
      RestOfAll(w.server.sent);
    }
  }

  lemma RestOfAll(s: seq<Message>)
    ensures Rest(s, |s|) == []
  {
  }

  lemma InvFacts(w: World)
    requires Inv(w)
    ensures DownInv(w) && UpInv(w) && w.server.session <= w.client.session
    ensures Links.Valid(w.server.link) && Links.Valid(w.client.link)
    ensures |w.server.link.frames| <= |w.server.sent|
    ensures w.server.sent[|w.server.sent| - |w.server.link.frames|..] == w.server.link.frames
  {
  }

  lemma {:induction false} RunSettles(steps: seq<Step>)
    requires BoundaryRun(steps)
    ensures Settled(DownPast(Run(steps)), DownLost(steps)) && Settled(UpPast(Run(steps)), UpLost(steps))
    decreases |steps|
  {
    hide Inv, Apply, DownPast, UpPast, DownLostIn, UpLostIn, Settled, AtBoundary;
    RunInv(steps);
    if steps == [] {
      InitSettles();
    } else {
      var init := steps[..|steps| - 1];
      RunInv(init);
      RunSettles(init);
      StepSettles(Run(init), steps[|steps| - 1], DownLost(init), UpLost(init));
    }
  }

  lemma InitSettles()
    ensures Settled(DownPast(INITIAL_WORLD), []) && Settled(UpPast(INITIAL_WORLD), [])
  {
    assert AllFrames([]) == [];
  }

  /**
   Frame conservation, over any number of tunnels that change at frame boundaries and in both
   directions: every frame sent in full was handled, or lost with its tunnel, or is on the way, and no
   frame counts twice.
   */
  lemma FramesConserved(steps: seq<Step>)
    requires BoundaryRun(steps)
    ensures var w := Run(steps);
            && multiset(w.server.sent) ==
              multiset(w.client.handled) + multiset(DownLost(steps)) + multiset(DownOnTheWay(w))
            && multiset(w.client.sent) == multiset(w.server.handled) + multiset(UpLost(steps)) + multiset(UpOnTheWay(w))
  {
    var w := Run(steps);
    RunSettles(steps);
    RunInv(steps);
    InvFacts(w);
    hide Inv, Run, BoundaryRun, DownLost, UpLost;
    DownWhole(w, DownLost(steps));
    UpWhole(w, UpLost(steps));
  }

  /** The frames and messages of the latest tunnel, on top of what was settled before it. */
  lemma OnTop(sent: seq<Message>, frames: seq<Message>, handled: seq<Message>, base: nat, lost: seq<Message>)
    requires |frames| <= |sent| && sent[|sent| - |frames|..] == frames
    requires base <= |handled| && handled[base..] <= frames
    requires Settled((sent[..|sent| - |frames|], handled[..base]), lost)
    ensures multiset(sent) == multiset(handled) + multiset(lost) + multiset(Rest(frames, |handled| - base))
  {
    var n := |sent| - |frames|;
    assert sent == sent[..n] + frames && handled == handled[..base] + handled[base..];
    hide Settled;
    Splits(sent[..n], frames, handled[..base], handled[base..], lost);
    Joined((sent, handled), lost, Rest(frames, |handled| - base));
  }

  lemma Joined(sentHandled: (seq<Message>, seq<Message>), lost: seq<Message>, rest: seq<Message>)
    requires Settled(sentHandled, lost + rest)
    ensures multiset(sentHandled.0) == multiset(sentHandled.1) + multiset(lost) + multiset(rest)
  {
  }

  lemma DownWhole(w: World, lost: seq<Message>)
    requires DownInv(w) && Links.Valid(w.server.link) && Settled(DownPast(w), lost)
    requires |w.server.link.frames| <= |w.server.sent|
    requires w.server.sent[|w.server.sent| - |w.server.link.frames|..] == w.server.link.frames
    ensures multiset(w.server.sent) == multiset(w.client.handled) + multiset(lost) + multiset(DownOnTheWay(w))
  {
    hide Subseq, Parse, Incomplete, Bytes;
    var s, c := w.server, w.client;
    if s.session == c.session {
      SyncPrefix(w.clientRec, s.link, w.downRead, c.handled[c.base..]);
      hide InSync, Links.Valid, Settled;
      OnTop(s.sent, s.link.frames, c.handled, c.base, lost);
    }
  }

  lemma UpWhole(w: World, lost: seq<Message>)
    requires UpInv(w) && Links.Valid(w.client.link) && Settled(UpPast(w), lost)
    ensures multiset(w.client.sent) == multiset(w.server.handled) + multiset(lost) + multiset(UpOnTheWay(w))
  {
    hide Subseq, Parse, Incomplete, Bytes;
    var s, c, l := w.server, w.client, UpLink(w);
    UpLinkValid(w);
    SyncPrefix(w.serverRec, l, w.upRead, s.handled[s.base..]);
    UpFrames(w);
    hide InSync, Links.Valid;
    var before := AllFrames(w.past[..s.session]);
    var here := s.handled[s.base..];
    assert UpPast(w) == (before, s.handled[..s.base]);
    assert UpOnTheWay(w) == Rest(c.sent, |before| + |here|);
    assert s.handled == s.handled[..s.base] + here;
    hide UpPast, UpOnTheWay, AllFrames, UpLink;
    AllSent(before, l.frames, s.handled[..s.base], here, c.sent, lost);
  }

  lemma AllSent(before: seq<Message>, frames: seq<Message>, past: seq<Message>, here: seq<Message>, sent: seq<Message>,
                lost: seq<Message>)
    requires Settled((before, past), lost) && here <= frames && before + frames <= sent
    ensures multiset(sent) == multiset(past + here) + multiset(lost) + multiset(Rest(sent, |before| + |here|))
  {
    assert sent == before + here + sent[|before| + |here|..] by {
      assert (before + frames)[..|before| + |here|] == before + here;
    }
  }
}
