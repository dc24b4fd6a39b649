/**
 Every branch of the server's dispatch loop keeps the server's invariant.
 The invariant relates, for one connection at a time, what was read from its socket, the frames sent and
 handled about it, what was written to its socket, and whether it is in the table. A branch changes this view
 of a connection in few ways, so each branch is reduced to what it does to the view of every connection; the
 datagram side and what holds of the server as a whole are kept apart from that.
 */
module ServerInvariant {
  import opened Protocol
  import opened Seqs
  import opened Links
  import opened Logs
  import opened Parties
  import opened ServerModel

  /** What the other side owes the server: it never speaks of a connection before the server did. */
  ghost predicate Unspoken(s: Server) {
    forall id :: !IsAllocated(s, id) ==> !Mentions(s.handled, id)
  }

  /** The events in the life of one connection, as the server sees them. */
  datatype Event =
    | Quiet                                          // about other connections, or the end of the tunnel
    | TunnelReplaced
    | Issued(sends: bool)
    | GotFromOutside(bytes: seq<byte>, carried: bool, kept: bool)
    | OutsideClosed(told: bool)
    | GotFromTunnel(payload: seq<byte>, written: seq<byte>, told: bool)
    | ClosedByClient

  ghost predicate Happens(v: View, e: Event, v': View) {
    match e
    case Quiet => v' == v.(intact := v'.intact) && (v'.intact ==> v.intact)
    case TunnelReplaced =>
      v' == v.(first := v'.first, intact := true) && (v'.first ==> v.first && v.stage == Fresh && !v.present)
    case Issued(ok) =>
      && !v.issued && v.reply == Sending && v.handled == []
      && v' == (if ok then v.(issued := true, added := true, present := true, stage := Advance(v.stage, TcpOpen))
                else v.(issued := true, added := true, present := false, intact := false))
    case GotFromOutside(bytes, carried, kept) =>
      && v.present
      && v' == (if carried then v.(read := v.read + bytes, sent := v.sent + bytes, stage := Advance(v.stage, TcpData))
                else v.(read := v.read + bytes, present := kept, intact := false))
      && (carried ==> v.intact) && (kept && !carried ==> !v.intact)
    case OutsideClosed(told) =>
      && v.present
      && v' == (if told then v.(present := false, stage := Advance(v.stage, TcpClose))
                else v.(present := false, intact := false))
    case GotFromTunnel(payload, written, told) =>
      var w := v.(reply := if v.reply == Sending then Sending else Broken, handled := v.handled + payload);
      && (v.present ==> written <= payload) && (!v.present ==> written == [])
      && (if !v.present || written == payload then v' == w.(delivered := v.delivered + written)
          else if told then
            v' == w.(delivered := v.delivered + written, present := false, stage := Advance(v.stage, TcpClose))
          else v' == w.(delivered := v.delivered + written, present := false, intact := false))
    case ClosedByClient =>
      v' == v.(present := false, reply := if v.reply == Broken then Broken else Ended)
  }

  lemma HappensInv(v: View, e: Event, v': View)
    requires ViewInv(v) && Happens(v, e, v')
    requires e.GotFromTunnel? || e.ClosedByClient? ==> v.issued
    ensures ViewInv(v')
  {
    if e.GotFromOutside? {
      SubseqGrow(v.sent, v.read, e.bytes);
    }
    hide Subseq;
    match e
    case GotFromOutside(bytes, _, _) =>
      assert v.sent <= v.read ==> v.sent <= v.read + bytes;
    case GotFromTunnel(payload, written, _) =>
      if v.present {
        assert v.handled + written <= v.handled + payload;
      } else {
        assert v.delivered + written == v.delivered;
        assert v.delivered <= v.handled + payload;
      }
    case Quiet =>
    case TunnelReplaced =>
    case Issued(_) =>
    case OutsideClosed(_) =>
    case ClosedByClient =>
  }

  lemma SendView(s: Server, m: Message, k: nat, id: ConnId)
    ensures var s', v := Send(s, m, k), ViewOf(s, id);
            ViewOf(s', id) ==
            if !s'.link.ok then v.(intact := false)
            else if !ForId(m, id) then v
            else v.(stage := Advance(v.stage, m.mtype), sent := v.sent + if m.mtype.TcpData? then m.payload else [])
  {
    Snoc(s.sent, m, id);
    hide Encode, ServerStage, Payload, ClientReply;
    assert Payload(s.sent, id) + [] == Payload(s.sent, id);
  }

  lemma EnterView(s: Server, fd: int, id: ConnId)
    requires 1 <= s.nextId < 0x1_0000_0000
    ensures ViewOf(Enter(s, fd), id) ==
            if id == s.nextId then ViewOf(s, id).(issued := true, added := true, present := true) else ViewOf(s, id)
  {
    hide ServerStage, Payload, ClientReply;
  }

  lemma RemoveView(s: Server, i: ConnId, id: ConnId)
    ensures ViewOf(Remove(s, i), id) == if id == i then ViewOf(s, id).(present := false) else ViewOf(s, id)
  {
    hide ServerStage, Payload, ClientReply;
  }

  lemma QuietEvent(v: View)
    ensures Happens(v, Quiet, v) && Happens(v, Quiet, v.(intact := false))
  {
  }

  lemma IssuedEvent(v: View)
    requires !v.issued && v.reply == Sending && v.handled == []
    ensures var w := v.(issued := true, added := true);
            && Happens(v, Issued(true), w.(present := true, stage := Advance(v.stage, TcpOpen)))
            && Happens(v, Issued(false), w.(present := false, intact := false))
  {
  }

  lemma AcceptOutsideView(s: Server, fd: int, k: nat, id: ConnId) returns (e: Event)
    requires Enabled(s, AcceptOutside(fd, k)) && 1 <= s.nextId
    requires !IsAllocated(s, id) ==> !Mentions(s.handled, id)
    ensures Happens(ViewOf(s, id), e, ViewOf(OnAccept(s, fd, k), id))
    ensures e.Quiet? || e.Issued?
  {
    var v, m := ViewOf(s, id), OpenMessage(s.nextId);
    e := Quiet;
    QuietEvent(v);
    if s.held {
      var s2 := Send(Enter(s, fd), m, k);
      EnterView(s, fd, id);
      SendView(Enter(s, fd), m, k, id);
      RemoveView(s2, s.nextId, id);
      if id == s.nextId {
        FreshFacts(s.handled, id);
        e := Issued(s2.link.ok);
        IssuedEvent(v);
      }
      assert OnAccept(s, fd, k) == if s2.link.ok then s2 else Remove(s2, s.nextId);
      hide *;
      assert v.sent + [] == v.sent;
    }
  }

  lemma OtherFieldsView(s: Server, u: Udp, id: ConnId)
    ensures ViewOf(s.(udp := u), id) == ViewOf(s, id)
    ensures ViewOf(s.(held := false), id) == ViewOf(s, id).(intact := false)
  {
  }

  lemma OutsideUdpView(s: Server, outcome: UdpOutcome, k: nat, id: ConnId)
    ensures Happens(ViewOf(s, id), Quiet, ViewOf(OnUdp(s, outcome, k), id))
  {
    var v := ViewOf(s, id);
    QuietEvent(v);
    if outcome.Received? {
      var u := s.udp.(lastSender := outcome.from, seen := s.udp.seen + [(outcome.from, outcome.data)]);
      OtherFieldsView(s, u, id);
      if outcome.data != [] {
        OtherFieldsView(s, u.(hasSender := true), id);
        if s.held {
          var s1 := s.(udp := u.(hasSender := true, accepted := u.accepted + [outcome.data]));
          var s2 := Send(s1, UdpMessage(outcome.data), k);
          OtherFieldsView(s, s1.udp, id);
          SendView(s1, UdpMessage(outcome.data), k, id);
          OtherFieldsView(s2, s2.udp, id);
          assert OnUdp(s, outcome, k) == if s2.link.ok then s2 else s2.(held := false);
          hide *;
        }
      }
    }
  }

  lemma OutsideDataView(s: Server, i: ConnId, bytes: Block, k: nat, id: ConnId) returns (e: Event)
    requires i in s.table
    ensures Happens(ViewOf(s, id), e, ViewOf(OnData(s, i, bytes, k), id))
    ensures e.Quiet? || e.GotFromOutside?
  {
    var s1 := s.(read := Append(s.read, i, bytes));
    SendView(s1, DataMessage(i, bytes), k, id);
    var carried := s.held && Send(s1, DataMessage(i, bytes), k).link.ok;
    e := if id == i then GotFromOutside(bytes, carried, !s.held) else Quiet;
    hide ServerStage, Payload, ClientReply, Encode;
  }

  lemma OutsideCloseView(s: Server, i: ConnId, k: nat, id: ConnId) returns (e: Event)
    requires i in s.table
    ensures Happens(ViewOf(s, id), e, ViewOf(OnClosed(s, i, k), id))
    ensures e.Quiet? || e.OutsideClosed?
  {
    SendView(s, CloseMessage(i), k, id);
    var told := s.held && Send(s, CloseMessage(i), k).link.ok;
    e := if id == i then OutsideClosed(told) else Quiet;
    hide ServerStage, Payload, ClientReply, Encode;
    assert ViewOf(s, id).sent + [] == ViewOf(s, id).sent;
  }

  lemma StepConn(s: Server, step: ServerStep, id: ConnId)
    requires Enabled(s, step) && GlobalInv(s) && ViewInv(ViewOf(s, id))
    requires !IsAllocated(s, id) ==> !Mentions(s.handled, id)
    ensures ViewInv(ViewOf(Step(s, step), id))
  {
    var v, v' := ViewOf(s, id), ViewOf(Step(s, step), id);
    var e := Quiet;
    match step {
      case AcceptTunnel => e := TunnelReplaced;
      case TunnelLost =>
      case AcceptOutside(fd, k) => e := AcceptOutsideView(s, fd, k, id);
      case OutsideUdp(outcome, k) => OutsideUdpView(s, outcome, k, id);
      case OutsideRead(i, result, k) =>
        if i in s.table && result.Data? {
          e := OutsideDataView(s, i, result.bytes, k, id);
        } else if i in s.table && !result.WouldBlock? {
          e := OutsideCloseView(s, i, k, id);
        }
    }
    assert Happens(v, e, v') by {
      hide ServerStage, Payload, ClientReply, Send, ViewInv, OnAccept, OnUdp, OnData, OnClosed;
    }
    hide *;
    HappensInv(v, e, v');
  }

  // ---------- frames from the tunnel ----------

  lemma HandledView(s: Server, m: Message, id: ConnId)
    requires !m.mtype.TcpOpen?
    ensures var v, w := ViewOf(s, id), ViewOf(s.(handled := s.handled + [m]), id);
            if !ForId(m, id) then w == v
            else if m.mtype.TcpData? then
              w == v.(reply := if v.reply == Sending then Sending else Broken, handled := v.handled + m.payload)
            else w == v.(reply := if v.reply == Broken then Broken else Ended)
  {
    Snoc(s.handled, m, id);
    hide ServerStage, Payload, ClientReply;
  }

  lemma DeliveredView(s: Server, i: ConnId, b: seq<byte>, id: ConnId)
    ensures ViewOf(s.(delivered := Append(s.delivered, i, b)), id) ==
            var v := ViewOf(s, id);
            if id == i then v.(delivered := v.delivered + b) else v
  {
    hide ServerStage, Payload, ClientReply;
  }

  /**
   The three ways a data frame ends: written, refused by the socket and the client told, refused and the
   tunnel gone.
   */
  function AfterData(v: View, payload: seq<byte>, k: nat, told: bool): View {
    var w := v.(reply := if v.reply == Sending then Sending else Broken, handled := v.handled + payload);
    if !v.present then w
    else
      var d := w.(delivered := v.delivered + Cut(payload, k));
      if k >= |payload| then d
      else if told then d.(present := false, stage := Advance(v.stage, TcpClose))
      else d.(present := false, intact := false)
  }

  lemma DataEvent(v: View, payload: seq<byte>, k: nat, told: bool)
    ensures Happens(v, GotFromTunnel(payload, if v.present then Cut(payload, k) else [], told),
                    AfterData(v, payload, k, told))
  {
    assert v.delivered + [] == v.delivered;
  }

  /** What writing a data frame to the outside makes of the view w of its connection. */
  ghost predicate DataWritten(w: View, payload: seq<byte>, k: nat, w': View) {
    var d := w.(delivered := w.delivered + Cut(payload, k));
    if k >= |payload| then w' == d
    else w' == d.(present := false, stage := Advance(w.stage, TcpClose)) || w' == d.(present := false, intact := false)
  }

  lemma TunnelDataView(s: Server, i: ConnId, payload: seq<byte>, env: Env, id: ConnId)
    ensures var v, w := ViewOf(s, id), ViewOf(OnTunnelData(s, i, payload, env), id);
            if id == i then DataWritten(v, payload, env.accepts, w) else w == v || w == v.(intact := false)
  {
    var s1 := s.(delivered := Append(s.delivered, i, Cut(payload, env.accepts)));
    assert OnTunnelData(s, i, payload, env) ==
           if env.accepts >= |payload| then s1 else Send(Remove(s1, i), CloseMessage(i), env.sends);
    DeliveredView(s, i, Cut(payload, env.accepts), id);
    RemoveView(s1, i, id);
    SendView(Remove(s1, i), CloseMessage(i), env.sends, id);
    var v := ViewOf(s, id);
    assert v.sent + [] == v.sent;
    assert ForId(CloseMessage(i), id) <==> id == i;
    hide ViewOf, OnTunnelData, Send, Remove, Cut;
  }

  lemma DataOutcome(v: View, w: View, payload: seq<byte>, k: nat, w': View)
    requires w == v.(reply := if v.reply == Sending then Sending else Broken, handled := v.handled + payload)
    requires if v.present then DataWritten(w, payload, k, w') else w' == w
    ensures w' == AfterData(v, payload, k, true) || w' == AfterData(v, payload, k, false)
  {
    hide Cut;
  }

  lemma HandleDataView(s: Server, m: Message, env: Env, id: ConnId) returns (e: Event)
    requires m.mtype.TcpData?
    ensures Happens(ViewOf(s, id), e, ViewOf(Handle(s, m, env), id))
    ensures e.Quiet? || (e.GotFromTunnel? && ForId(m, id))
  {
    var v, s0 := ViewOf(s, id), s.(handled := s.handled + [m]);
    var w, w' := ViewOf(s0, id), ViewOf(Handle(s, m, env), id);
    HandledView(s, m, id);
    TunnelDataView(s0, m.connId, m.payload, env, id);
    assert Handle(s, m, env) == if m.connId in s.table then OnTunnelData(s0, m.connId, m.payload, env) else s0;
    assert ForId(m, id) <==> id == m.connId;
    assert v.present <==> id in s.table;
    hide *;
    if id == m.connId {
      DataOutcome(v, w, m.payload, env.accepts, w');
      var told := w' == AfterData(v, m.payload, env.accepts, true);
      e := GotFromTunnel(m.payload, if v.present then Cut(m.payload, env.accepts) else [], told);
      DataEvent(v, m.payload, env.accepts, told);
    } else {
      e := Quiet;
      QuietEvent(v);
    }
  }

  /** Handling a frame about id, or about another connection, is one of the events. */
  lemma HandleView(s: Server, m: Message, env: Env, id: ConnId) returns (e: Event)
    requires !m.mtype.TcpOpen?
    ensures Happens(ViewOf(s, id), e, ViewOf(Handle(s, m, env), id))
    ensures (e.GotFromTunnel? || e.ClosedByClient?) ==> ForId(m, id)
  {
    var v, s0 := ViewOf(s, id), s.(handled := s.handled + [m]);
    e := Quiet;
    if m.mtype.TcpData? {
      e := HandleDataView(s, m, env, id);
    } else {
      HandledView(s, m, id);
      QuietEvent(v);
      OtherFieldsView(s0, Handle(s, m, env).udp, id);
      RemoveView(s0, m.connId, id);
      if ForId(m, id) {
        e := ClosedByClient;
      }
      hide ViewOf, Remove;
    }
  }

  lemma HandleConn(s: Server, m: Message, env: Env, id: ConnId)
    requires ViewInv(ViewOf(s, id)) && !m.mtype.TcpOpen?
    requires ForId(m, id) ==> IsAllocated(s, id)
    ensures ViewInv(ViewOf(Handle(s, m, env), id))
  {
    var e := HandleView(s, m, env, id);
    assert ForId(m, id) ==> ViewOf(s, id).issued;
    hide ViewOf, Handle, ViewInv, Happens;
    HappensInv(ViewOf(s, id), e, ViewOf(Handle(s, m, env), id));
  }

  // ---------- the rest of the invariant ----------

  lemma SendGlobal(s: Server, m: Message, k: nat)
    requires GlobalInv(s)
    ensures GlobalInv(Send(s, m, k))
  {
    TransmitBytes(s.link, m, k);
    hide Encode, EncodeAll, Incomplete;
    var n := |s.sent| - |s.link.frames|;
    assert (s.sent + [m])[n..] == s.sent[n..] + [m];
  }

  lemma RemoveGlobal(s: Server, id: ConnId)
    requires GlobalInv(s)
    ensures GlobalInv(Remove(s, id))
  {
    hide Links.Valid;
  }

  lemma AcceptGlobal(s: Server, fd: int, k: nat)
    requires Enabled(s, AcceptOutside(fd, k)) && GlobalInv(s) && s.nextId !in s.added
    ensures GlobalInv(OnAccept(s, fd, k))
  {
    if s.held {
      var s1, m := Enter(s, fd), OpenMessage(s.nextId);
      assert forall i <- s.table :: s.table[i] in s.table.Values;
      assert GlobalInv(s1) by {
        hide Links.Valid;
      }
      SendGlobal(s1, m, k);
      RemoveGlobal(Send(s1, m, k), s.nextId);
      hide GlobalInv, Send, Enter, Remove;
    }
  }

  lemma UdpGlobal(s: Server, outcome: UdpOutcome, k: nat)
    requires GlobalInv(s)
    ensures GlobalInv(OnUdp(s, outcome, k))
  {
    hide Links.Valid;
    if outcome.Received? && outcome.data != [] && s.held {
      var u := s.udp.(lastSender := outcome.from, seen := s.udp.seen + [(outcome.from, outcome.data)],
                      hasSender := true, accepted := s.udp.accepted + [outcome.data]);
      SendGlobal(s.(udp := u), UdpMessage(outcome.data), k);
    }
  }

  lemma ReadGlobal(s: Server, id: ConnId, bytes: Block, k: nat)
    requires GlobalInv(s)
    ensures GlobalInv(OnData(s, id, bytes, k)) && GlobalInv(OnClosed(s, id, k))
  {
    var s1 := s.(read := Append(s.read, id, bytes));
    SendGlobal(s1, DataMessage(id, bytes), k);
    RemoveGlobal(Send(s1, DataMessage(id, bytes), k), id);
    SendGlobal(s, CloseMessage(id), k);
    RemoveGlobal(Send(s, CloseMessage(id), k), id);
    RemoveGlobal(s, id);
    assert GlobalInv(s1) by {
      hide Links.Valid;
    }
    hide GlobalInv, Send, Remove;
  }

  lemma StepGlobal(s: Server, step: ServerStep)
    requires Enabled(s, step) && GlobalInv(s)
    requires s.nextId < 0x1_0000_0000 ==> s.nextId !in s.added
    ensures GlobalInv(Step(s, step))
  {
    match step
    case AcceptTunnel =>
      assert s.sent[|s.sent|..] == [];
      assert Links.Valid(FRESH_LINK);
      hide Links.Valid;
    case TunnelLost =>
      hide Links.Valid;
    case AcceptOutside(fd, k) => AcceptGlobal(s, fd, k);
    case OutsideUdp(outcome, k) => UdpGlobal(s, outcome, k);
    case OutsideRead(id, result, k) => ReadGlobal(s, id, if result.Data? then result.bytes else [0], k);
  }

  lemma HandleGlobal(s: Server, m: Message, env: Env)
    requires GlobalInv(s) && s.session > 0
    ensures GlobalInv(Handle(s, m, env))
  {
    var s0 := s.(handled := s.handled + [m]);
    assert GlobalInv(s0) by {
      hide Links.Valid;
    }
    RemoveGlobal(s0, m.connId);
    if m.mtype.TcpData? && m.connId in s.table {
      var s1 := s0.(delivered := Append(s0.delivered, m.connId, Cut(m.payload, env.accepts)));
      RemoveGlobal(s1, m.connId);
      SendGlobal(Remove(s1, m.connId), CloseMessage(m.connId), env.sends);
    }
    hide Links.Valid;
  }

  // ---------- datagrams ----------

  /** Nothing happened to datagrams. */
  ghost predicate UdpQuiet(s: Server, s': Server) {
    && s'.udp == s.udp && s'.session == s.session && (Intact(s') ==> Intact(s))
    && Datagrams(s'.sent) == Datagrams(s.sent) && Datagrams(s'.handled) == Datagrams(s.handled)
  }

  lemma UdpQuietInv(s: Server, s': Server)
    requires UdpInv(s) && UdpQuiet(s, s')
    ensures UdpInv(s')
  {
    hide Datagrams, Payloads, Subseq, GoodReply, SomeNonEmpty;
  }

  lemma SendUdp(s: Server, m: Message, k: nat)
    ensures var s' := Send(s, m, k);
            && (s'.link.ok ==> s.link.ok)
            && Datagrams(s'.sent) ==
               if s'.link.ok && m.mtype.UdpPacket? then Datagrams(s.sent) + [m.payload] else Datagrams(s.sent)
  {
    SnocDatagram(s.sent, m);
    hide Encode, Datagrams;
  }

  lemma SeenMore(u: Udp, handled: seq<Message>, from: Address, data: Datagram)
    requires RepliesInv(u, handled)
    ensures var v := u.(lastSender := from, seen := u.seen + [(from, data)]);
            RepliesInv(if data == [] then v else v.(hasSender := true), handled)
  {
    var d := (from, data);
    var seen := u.seen + [d];
    forall r <- u.replies ensures GoodReply(seen, r) {
      assert GoodReply(u.seen, r);
      assert seen[..r.seen] == u.seen[..r.seen];
    }
    assert d in seen && forall e <- u.seen :: e in seen;
    assert SomeNonEmpty(seen) <==> SomeNonEmpty(u.seen) || data != [];
    hide GoodReply, SomeNonEmpty, Payloads, Datagrams, Subseq;
  }

  /** A datagram handed to the tunnel: it is sent, or the tunnel is broken. */
  lemma PassOn(s: Server, data: Datagram, k: nat)
    requires FlowInv(s) && s.held && s.session > 0 && data != []
    ensures var s1 := s.(udp := s.udp.(accepted := s.udp.accepted + [data]));
            var s2 := Send(s1, UdpMessage(data), k);
            FlowInv(if s2.link.ok then s2 else s2.(held := false))
  {
    var accepted := s.udp.accepted + [data];
    var s1 := s.(udp := s.udp.(accepted := accepted));
    SendUdp(s1, UdpMessage(data), k);
    hide Datagrams, Transmit;
    SubseqGrow(Datagrams(s.sent), s.udp.accepted, [data]);
    hide Subseq;
    assert Datagrams(s.sent) <= s.udp.accepted ==> Datagrams(s.sent) <= accepted;
    var s2 := Send(s1, UdpMessage(data), k);
    assert s2.session == s.session && s2.udp == s1.udp && s2.held == s.held && (s2.link.ok ==> s.link.ok);
    hide Send;
  }

  lemma OnUdpInv(s: Server, outcome: UdpOutcome, k: nat)
    requires UdpInv(s) && (s.held ==> s.session > 0)
    ensures UdpInv(OnUdp(s, outcome, k))
  {
    if outcome.Received? {
      var data := outcome.data;
      var u := s.udp.(lastSender := outcome.from, seen := s.udp.seen + [(outcome.from, data)]);
      var s1 := s.(udp := if data == [] then u else u.(hasSender := true));
      SeenMore(s.udp, s.handled, outcome.from, data);
      assert FlowInv(s1);
      if data != [] && s.held {
        PassOn(s1, data, k);
      }
      hide FlowInv, GoodReply, SomeNonEmpty, Subseq, Datagrams, Transmit;
    }
  }

  lemma AcceptQuiet(s: Server, fd: int, k: nat)
    requires 1 <= s.nextId < 0x1_0000_0000
    ensures UdpQuiet(s, OnAccept(s, fd, k))
  {
    SendUdp(Enter(s, fd), OpenMessage(s.nextId), k);
    hide Datagrams, Transmit;
  }

  lemma ReadQuiet(s: Server, id: ConnId, bytes: Block, k: nat)
    ensures UdpQuiet(s, OnData(s, id, bytes, k)) && UdpQuiet(s, OnClosed(s, id, k))
  {
    SendUdp(s.(read := Append(s.read, id, bytes)), DataMessage(id, bytes), k);
    SendUdp(s, CloseMessage(id), k);
    hide Datagrams, Transmit, Append;
  }

  lemma StepUdp(s: Server, step: ServerStep)
    requires Enabled(s, step) && UdpInv(s) && GlobalInv(s)
    ensures UdpInv(Step(s, step))
  {
    hide GoodReply;
    match step
    case AcceptTunnel =>
      assert Datagrams([]) == [];
      hide Datagrams, Payloads, Subseq, GoodReply, SomeNonEmpty, Links.Valid;
    case TunnelLost => UdpQuietInv(s, Step(s, step));
    case AcceptOutside(fd, k) =>
      AcceptQuiet(s, fd, k);
      UdpQuietInv(s, OnAccept(s, fd, k));
    case OutsideUdp(outcome, k) => OnUdpInv(s, outcome, k);
    case OutsideRead(id, result, k) =>
      var bytes := if result.Data? then result.bytes else [0];
      ReadQuiet(s, id, bytes, k);
      UdpQuietInv(s, OnData(s, id, bytes, k));
      UdpQuietInv(s, OnClosed(s, id, k));
      hide OnData, OnClosed, UdpInv, UdpQuiet;
  }

  lemma ReplyIsGood(u: Udp, payload: seq<byte>)
    requires SomeNonEmpty(u.seen) && payload != [] && u.lastSender == u.seen[|u.seen| - 1].0
    ensures GoodReply(u.seen, UdpReply(u.lastSender, payload, |u.seen|))
  {
    assert u.seen[..|u.seen|] == u.seen;
  }

  lemma ReplySent(u: Udp, handled: seq<Message>, m: Message)
    requires RepliesInv(u, handled) && m.mtype.UdpPacket? && m.payload != [] && u.hasSender
    ensures RepliesInv(u.(replies := u.replies + [UdpReply(u.lastSender, m.payload, |u.seen|)]), handled + [m])
  {
    var r := UdpReply(u.lastSender, m.payload, |u.seen|);
    assert u.seen != [];
    hide GoodReply, SomeNonEmpty, Datagrams, Subseq;
    ReplyIsGood(u, m.payload);
    SnocDatagram(handled, m);
    SubseqGrow(Payloads(u.replies), Datagrams(handled), [m.payload]);
    assert (u.replies + [r])[..|u.replies|] == u.replies;
    assert Payloads(u.replies + [r]) == Payloads(u.replies) + [m.payload];
    hide Payloads;
  }

  lemma HandleDatagram(s: Server, m: Message, env: Env)
    requires UdpInv(s) && m.mtype.UdpPacket?
    ensures UdpInv(Handle(s, m, env))
  {
    var u := s.udp;
    SnocDatagram(s.handled, m);
    SubseqGrow(Payloads(u.replies), Datagrams(s.handled), [m.payload]);
    if u.hasSender && m.payload != [] {
      ReplySent(u, s.handled, m);
      hide RepliesInv, Datagrams, Subseq;
    } else {
      hide Datagrams, Payloads, Subseq, SomeNonEmpty, GoodReply;
    }
  }

  lemma TunnelDataQuiet(s: Server, id: ConnId, payload: seq<byte>, env: Env)
    ensures UdpQuiet(s, OnTunnelData(s, id, payload, env))
  {
    var s1 := s.(delivered := Append(s.delivered, id, Cut(payload, env.accepts)));
    SendUdp(Remove(s1, id), CloseMessage(id), env.sends);
    hide Datagrams, Cut, Append, Transmit;
  }

  lemma HandledQuiet(s: Server, m: Message)
    requires !m.mtype.UdpPacket?
    ensures UdpQuiet(s, s.(handled := s.handled + [m]))
  {
    SnocDatagram(s.handled, m);
    hide Datagrams;
  }

  lemma RemoveQuiet(s: Server, id: ConnId)
    ensures UdpQuiet(s, Remove(s, id))
  {
    hide Datagrams;
  }

  lemma HandleUdp(s: Server, m: Message, env: Env)
    requires UdpInv(s)
    ensures UdpInv(Handle(s, m, env))
  {
    if m.mtype.UdpPacket? {
      HandleDatagram(s, m, env);
    } else {
      hide UdpInv, UdpQuiet, OnTunnelData, Remove;
      var s0 := s.(handled := s.handled + [m]);
      HandledQuiet(s, m);
      UdpQuietInv(s, s0);
      TunnelDataQuiet(s0, m.connId, m.payload, env);
      UdpQuietInv(s0, OnTunnelData(s0, m.connId, m.payload, env));
      RemoveQuiet(s0, m.connId);
      UdpQuietInv(s0, Remove(s0, m.connId));
    }
  }

  // ---------- the whole ----------

  lemma InitInv()
    ensures UdpInv(INITIAL_SERVER)
    ensures GlobalInv(INITIAL_SERVER)
    ensures forall id :: ViewInv(ViewOf(INITIAL_SERVER, id))
  {
  }

  /** Each branch of the loop that does not read the tunnel keeps the invariant. */
  lemma StepInv(s: Server, step: ServerStep)
    requires Enabled(s, step) && Inv(s) && Unspoken(s)
    ensures Inv(Step(s, step))
  {
    if s.nextId < 0x1_0000_0000 {
      assert ViewInv(ViewOf(s, s.nextId));
    }
    StepGlobal(s, step);
    StepUdp(s, step);
    forall id ensures ViewInv(ViewOf(Step(s, step), id)) {
      assert ViewInv(ViewOf(s, id));
      StepConn(s, step, id);
    }
    hide Step, ViewInv, GlobalInv, UdpInv;
  }

  /** So does handling any frame the client can have sent. */
  lemma HandleInv(s: Server, m: Message, env: Env)
    requires Inv(s) && s.session > 0
    requires !m.mtype.TcpOpen? && (!m.mtype.UdpPacket? ==> IsAllocated(s, m.connId))
    ensures Inv(Handle(s, m, env))
  {
    HandleGlobal(s, m, env);
    HandleUdp(s, m, env);
    forall id ensures ViewInv(ViewOf(Handle(s, m, env), id)) {
      assert ViewInv(ViewOf(s, id));
      HandleConn(s, m, env, id);
    }
    hide Handle, ViewInv, GlobalInv, UdpInv;
  }
}
