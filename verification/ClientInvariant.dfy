/**
 Every branch of the client's loops keeps the client's invariant.
 The invariant relates, for one connection at a time, what was read from its socket, the frames sent and
 handled about it, what was written to its socket, and whether it is in the table. A branch changes this view
 of a connection in few ways, so each branch is reduced to what it does to the view of every connection; the
 datagram side and what holds of the client as a whole are kept apart from that.
 */
module ClientInvariant {
  import opened Protocol
  import opened Seqs
  import opened Links
  import opened Logs
  import opened Parties
  import opened ClientModel

  /** The events in the life of one connection, as the client sees them. */
  datatype Event =
    | Quiet
    | TunnelReplaced
    | Dropped                                        // the user quits, or the server closes
    | OpenReceived(connected: bool, told: bool)
    | GotFromTunnel(payload: seq<byte>, written: seq<byte>, told: bool)
    | CloseReceived
    | GotFromDestination(bytes: seq<byte>, carried: bool)
    | DestinationClosed(told: bool)

  /** A CLOSE was sent to the server, or the tunnel is broken. */
  function Told(v: View, told: bool): View {
    if told then v.(spoken := true, reply := if v.reply == Broken then Broken else Ended) else v.(intact := false)
  }

  ghost predicate Happens(v: View, e: Event, v': View) {
    match e
    case Quiet => v' == v || v' == v.(intact := false)
    case TunnelReplaced =>
      v' == v.(first := v'.first, intact := true) && (v'.first ==> v.first && v.stage == Fresh)
    case Dropped => v' == v.(quit := true, present := v'.present) && (v'.present ==> v.present)
    case OpenReceived(connected, told) =>
      && v.stage == Fresh
      && var w := v.(stage := Opened);
         v' == if connected then w.(added := true, present := true) else Told(w, told)
    case GotFromTunnel(payload, written, told) =>
      var w := v.(stage := Advance(v.stage, TcpData), handled := v.handled + payload);
      if !v.present then v' == Told(w, told)
      else
        var d := w.(delivered := v.delivered + written);
        written <= payload && v' == if written == payload then d else Told(d.(present := false), told)
    case CloseReceived => v' == v.(stage := Advance(v.stage, TcpClose), present := false)
    case GotFromDestination(bytes, carried) =>
      && v.present
      && var w := v.(read := v.read + bytes);
         if carried then
           && v.intact
           && v' == w.(spoken := true, sent := v.sent + bytes, reply := if v.reply == Sending then Sending else Broken)
         else v' == w.(intact := false)
    case DestinationClosed(told) =>
      v.present && v' == Told(v.(present := false), told)
  }

  lemma GotFromTunnelInv(v: View, e: Event, v': View)
    requires ViewInv(v) && Happens(v, e, v') && e.GotFromTunnel?
    ensures ViewInv(v')
  {
    hide Subseq;
    if v.present {
      assert v.handled + e.written <= v.handled + e.payload;
    } else {
      assert v.delivered <= v.handled + e.payload;
    }
  }

  lemma GotFromDestinationInv(v: View, e: Event, v': View)
    requires ViewInv(v) && Happens(v, e, v') && e.GotFromDestination?
    ensures ViewInv(v')
  {
    SubseqGrow(v.sent, v.read, e.bytes);
    hide Subseq;
    assert v.sent <= v.read ==> v.sent <= v.read + e.bytes;
  }

  lemma HappensInv(v: View, e: Event, v': View)
    requires ViewInv(v) && Happens(v, e, v')
    ensures ViewInv(v')
  {
    hide Subseq;
    match e
    case GotFromTunnel(_, _, _) => GotFromTunnelInv(v, e, v');
    case GotFromDestination(_, _) => GotFromDestinationInv(v, e, v');
    case _ =>
  }

  // ---------- what each branch does to one connection ----------

  lemma SendView(c: Client, m: Message, k: nat, id: ConnId)
    requires !m.mtype.TcpOpen?
    ensures var c', v := Send(c, m, k), ViewOf(c, id);
            ViewOf(c', id) ==
            if !c'.link.ok then v.(intact := false)
            else if !ForId(m, id) then v
            else if m.mtype.TcpClose? then Told(v, true)
            else v.(spoken := true, sent := v.sent + m.payload,
                    reply := if v.reply == Sending then Sending else Broken)
    ensures Send(c, m, k).link.ok ==> c.link.ok
  {
    Snoc(c.sent, m, id);
    hide Encode, ServerStage, Payload, ClientReply;
  }

  lemma RemoveView(c: Client, i: ConnId, id: ConnId)
    ensures ViewOf(Remove(c, i), id) == if id == i then ViewOf(c, id).(present := false) else ViewOf(c, id)
  {
    hide ServerStage, Payload, ClientReply;
  }

  lemma OtherFieldsView(c: Client, contLoop: bool, udpSent: seq<seq<byte>>, udpRead: seq<seq<byte>>, id: ConnId)
    ensures ViewOf(c.(contLoop := contLoop, udpSent := udpSent, udpRead := udpRead), id) == ViewOf(c, id)
  {
  }

  lemma ReadView(c: Client, i: ConnId, b: seq<byte>, id: ConnId)
    ensures ViewOf(c.(read := Append(c.read, i, b)), id) ==
            var v := ViewOf(c, id);
            if id == i then v.(read := v.read + b) else v
  {
    hide ServerStage, Payload, ClientReply;
  }

  lemma QuietEvent(v: View)
    ensures Happens(v, Quiet, v) && Happens(v, Quiet, v.(intact := false))
  {
  }

  lemma FromDestinationEvent(v: View, bytes: seq<byte>)
    requires v.present
    ensures var w := v.(read := v.read + bytes);
            && Happens(v, GotFromDestination(bytes, false), w.(intact := false))
            && (v.intact ==>
                  Happens(v, GotFromDestination(bytes, true),
                          w.(spoken := true, sent := v.sent + bytes,
                             reply := if v.reply == Sending then Sending else Broken)))
  {
  }

  lemma OnDataView(c: Client, i: ConnId, bytes: Block, k: nat, id: ConnId) returns (e: Event)
    requires i in c.table
    ensures Happens(ViewOf(c, id), e, ViewOf(OnData(c, i, bytes, k), id))
  {
    var c1 := c.(read := Append(c.read, i, bytes));
    var c2 := Send(c1, DataMessage(i, bytes), k);
    var v := ViewOf(c, id);
    ReadView(c, i, bytes, id);
    SendView(c1, DataMessage(i, bytes), k, id);
    OtherFieldsView(c2, false, c2.udpSent, c2.udpRead, id);
    assert c2.link.ok ==> v.intact;
    e := if id == i then GotFromDestination(bytes, c2.link.ok) else Quiet;
    assert ForId(DataMessage(i, bytes), id) <==> id == i;
    assert id == i ==> v.present;
    assert OnData(c, i, bytes, k) ==
           if c2.link.ok then c2 else c2.(contLoop := false, udpSent := c2.udpSent, udpRead := c2.udpRead);
    hide *;
    if id == i {
      FromDestinationEvent(v, bytes);
    } else {
      QuietEvent(v);
    }
  }

  lemma OnClosedView(c: Client, i: ConnId, k: nat, id: ConnId) returns (e: Event)
    requires i in c.table
    ensures Happens(ViewOf(c, id), e, ViewOf(OnClosed(c, i, k), id))
  {
    var c2 := Send(c, CloseMessage(i), k);
    SendView(c, CloseMessage(i), k, id);
    RemoveView(c2, i, id);
    e := if id == i then DestinationClosed(c2.link.ok) else Quiet;
    assert id == i ==> ViewOf(c, id).present;
    hide ViewOf, Send, Remove;
  }

  lemma OnUdpView(c: Client, data: Datagram, k: nat, id: ConnId)
    ensures Happens(ViewOf(c, id), Quiet, ViewOf(OnUdp(c, data, k), id))
  {
    var c1 := c.(udpRead := c.udpRead + [data]);
    var c2 := Send(c1, UdpMessage(data), k);
    OtherFieldsView(c, c.contLoop, c.udpSent, c1.udpRead, id);
    SendView(c1, UdpMessage(data), k, id);
    OtherFieldsView(c2, false, c2.udpSent, c2.udpRead, id);
    hide ViewOf, Send;
  }

  lemma StepConn(c: Client, step: ClientStep, id: ConnId)
    requires Enabled(c, step) && GlobalInv(c) && ViewInv(ViewOf(c, id))
    ensures ViewInv(ViewOf(Step(c, step), id))
  {
    var v, v' := ViewOf(c, id), ViewOf(Step(c, step), id);
    var e := Quiet;
    match step {
      case ConnectTunnel => e := TunnelReplaced;
      case TunnelLost => OtherFieldsView(c, false, c.udpSent, c.udpRead, id);
      case UserQuits => e := Dropped;
      case LeaveLoop => e := if c.userQuit then Dropped else Quiet;
      case DestinationUdp(data, k) => OnUdpView(c, data, k, id);
      case DestinationRead(i, result, k) =>
        if i in c.table && result.Data? {
          e := OnDataView(c, i, result.bytes, k, id);
        } else if i in c.table && !result.WouldBlock? {
          e := OnClosedView(c, i, k, id);
        }
    }
    assert Happens(v, e, v') by {
      hide Payload, ClientReply, Send, ViewInv, OnUdp, OnData, OnClosed;
    }
    hide *;
    HappensInv(v, e, v');
  }

  // ---------- frames from the tunnel ----------

  lemma HandledView(c: Client, m: Message, id: ConnId)
    ensures var v, w := ViewOf(c, id), ViewOf(c.(handled := c.handled + [m]), id);
            if !ForId(m, id) then w == v
            else w == v.(stage := Advance(v.stage, m.mtype),
                         handled := v.handled + if m.mtype.TcpData? then m.payload else [])
  {
    Snoc(c.handled, m, id);
    hide ServerStage, Payload, ClientReply;
    assert Payload(c.handled, id) + [] == Payload(c.handled, id);
  }

  lemma EnterView(c: Client, i: ConnId, fd: int, id: ConnId)
    ensures ViewOf(c.(table := c.table[i := fd], added := c.added + [i]), id) ==
            var v := ViewOf(c, id);
            if id == i then v.(added := true, present := true) else v
  {
    hide ServerStage, Payload, ClientReply;
  }

  /** A CLOSE, sent or not. */
  lemma CloseView(c: Client, i: ConnId, k: nat, id: ConnId)
    ensures var v, w := ViewOf(c, id), ViewOf(Send(c, CloseMessage(i), k), id);
            if id != i then w == v || w == v.(intact := false) else w == Told(v, true) || w == Told(v, false)
  {
    SendView(c, CloseMessage(i), k, id);
    hide ViewOf, Send;
  }

  lemma OnOpenView(c: Client, i: ConnId, env: Env, id: ConnId)
    ensures var v, w := ViewOf(c, id), ViewOf(OnOpen(c, i, env), id);
            if id != i then w == v || w == v.(intact := false)
            else if v.present then w == v
            else w == v.(added := true, present := true) || w == Told(v, true) || w == Told(v, false)
  {
    assert ViewOf(c, i).present <==> i in c.table;
    hide ViewOf, Send, Told;
    if i !in c.table {
      if env.connect.Connected? && env.connect.fd !in c.table.Values {
        EnterView(c, i, env.connect.fd, id);
      } else {
        CloseView(c, i, env.sends, id);
      }
    }
  }

  lemma DeliveredView(c: Client, i: ConnId, b: seq<byte>, id: ConnId)
    ensures ViewOf(c.(delivered := Append(c.delivered, i, b)), id) ==
            var v := ViewOf(c, id);
            if id == i then v.(delivered := v.delivered + b) else v
  {
    hide ServerStage, Payload, ClientReply;
  }

  lemma OnTunnelDataView(c: Client, i: ConnId, payload: seq<byte>, env: Env, id: ConnId)
    ensures var v, w := ViewOf(c, id), ViewOf(OnTunnelData(c, i, payload, env), id);
            if id != i then w == v || w == v.(intact := false)
            else if !v.present then w == Told(v, true) || w == Told(v, false)
            else
              var d := v.(delivered := v.delivered + Cut(payload, env.accepts));
              if env.accepts >= |payload| then w == d
              else w == Told(d.(present := false), true) || w == Told(d.(present := false), false)
  {
    assert ViewOf(c, i).present <==> i in c.table;
    hide ViewOf, Send, Remove, Cut, Append, Told;
    var c1 := c.(delivered := Append(c.delivered, i, Cut(payload, env.accepts)));
    if i in c.table {
      DeliveredView(c, i, Cut(payload, env.accepts), id);
      RemoveView(c1, i, id);
      CloseView(Remove(c1, i), i, env.sends, id);
    } else {
      CloseView(c, i, env.sends, id);
    }
  }

  lemma OpenEvent(v: View)
    requires v.stage == Fresh
    ensures var w := v.(stage := Opened);
            && Happens(v, OpenReceived(true, false), w.(added := true, present := true))
            && Happens(v, OpenReceived(false, true), Told(w, true))
            && Happens(v, OpenReceived(false, false), Told(w, false))
  {
  }

  /** OPEN comes first, so the connection is not in the table. */
  lemma HandleOpenView(c: Client, m: Message, env: Env, id: ConnId) returns (e: Event)
    requires m.mtype.TcpOpen? && m.connId == id && ViewInv(ViewOf(c, id))
    requires OpensFirst(c.handled + [m], id)
    ensures Happens(ViewOf(c, id), e, ViewOf(Handle(c, m, env), id))
  {
    var v, c0, v' := ViewOf(c, id), c.(handled := c.handled + [m]), ViewOf(Handle(c, m, env), id);
    HandledView(c, m, id);
    Snoc(c.handled, m, id);
    OnOpenView(c0, m.connId, env, id);
    OpenEvent(v);
    var w := v.(stage := Opened);
    assert ViewOf(c0, id) == w by {
      assert v.handled + [] == v.handled;
    }
    e := OpenReceived(v' == w.(added := true, present := true), v' == Told(w, true));
    hide *;
  }

  /** The ways a data frame ends: written in full, or not, or for no known connection. */
  function AfterData(v: View, payload: seq<byte>, k: nat, told: bool): View {
    var w := v.(stage := Advance(v.stage, TcpData), handled := v.handled + payload);
    if !v.present then Told(w, told)
    else
      var d := w.(delivered := v.delivered + Cut(payload, k));
      if k >= |payload| then d else Told(d.(present := false), told)
  }

  lemma DataEvent(v: View, payload: seq<byte>, k: nat, told: bool)
    ensures Happens(v, GotFromTunnel(payload, Cut(payload, k), told), AfterData(v, payload, k, told))
  {
  }

  lemma HandleDataView(c: Client, m: Message, env: Env, id: ConnId) returns (e: Event)
    requires m.mtype.TcpData? && m.connId == id
    ensures Happens(ViewOf(c, id), e, ViewOf(Handle(c, m, env), id))
  {
    var v, c0, v' := ViewOf(c, id), c.(handled := c.handled + [m]), ViewOf(Handle(c, m, env), id);
    var told := v' == AfterData(v, m.payload, env.accepts, true);
    HandledView(c, m, id);
    OnTunnelDataView(c0, m.connId, m.payload, env, id);
    assert v' == AfterData(v, m.payload, env.accepts, true) || v' == AfterData(v, m.payload, env.accepts, false) by {
      hide ViewOf, OnTunnelData, Cut, Told;
    }
    DataEvent(v, m.payload, env.accepts, told);
    e := GotFromTunnel(m.payload, Cut(m.payload, env.accepts), told);
    hide *;
  }

  lemma HandleOtherView(c: Client, m: Message, env: Env, id: ConnId)
    requires !ForId(m, id)
    ensures Happens(ViewOf(c, id), Quiet, ViewOf(Handle(c, m, env), id))
  {
    var c0 := c.(handled := c.handled + [m]);
    HandledView(c, m, id);
    QuietEvent(ViewOf(c, id));
    match m.mtype
    case UdpPacket =>
      OtherFieldsView(c0, c0.contLoop, c.udpSent + [m.payload], c0.udpRead, id);
      hide ViewOf, Happens;
    case TcpOpen =>
      OnOpenView(c0, m.connId, env, id);
      hide ViewOf, Happens, OnOpen;
    case TcpData =>
      OnTunnelDataView(c0, m.connId, m.payload, env, id);
      hide ViewOf, Happens, OnTunnelData;
    case TcpClose =>
      RemoveView(c0, m.connId, id);
      hide ViewOf, Happens, Remove;
  }

  lemma HandleView(c: Client, m: Message, env: Env, id: ConnId) returns (e: Event)
    requires ViewInv(ViewOf(c, id))
    requires OpensFirst(c.handled + [m], id)
    ensures Happens(ViewOf(c, id), e, ViewOf(Handle(c, m, env), id))
  {
    if !ForId(m, id) {
      HandleOtherView(c, m, env, id);
      e := Quiet;
    } else if m.mtype.TcpOpen? {
      e := HandleOpenView(c, m, env, id);
    } else if m.mtype.TcpData? {
      e := HandleDataView(c, m, env, id);
    } else {
      HandledView(c, m, id);
      RemoveView(c.(handled := c.handled + [m]), id, id);
      e := CloseReceived;
      hide ViewOf, Remove, ViewInv, OpensFirst;
      assert ViewOf(c, id).handled + [] == ViewOf(c, id).handled;
    }
  }

  lemma HandleConn(c: Client, m: Message, env: Env, id: ConnId)
    requires ViewInv(ViewOf(c, id)) && OpensFirst(c.handled + [m], id)
    ensures ViewInv(ViewOf(Handle(c, m, env), id))
  {
    var e := HandleView(c, m, env, id);
    hide *;
    HappensInv(ViewOf(c, id), e, ViewOf(Handle(c, m, env), id));
  }

  // ---------- the rest of the invariant ----------

  lemma SendGlobal(c: Client, m: Message, k: nat)
    requires GlobalInv(c) && !m.mtype.TcpOpen?
    ensures GlobalInv(Send(c, m, k))
  {
    TransmitBytes(c.link, m, k);
    hide Encode, EncodeAll, Incomplete;
    var n := |c.sent| - |c.link.frames|;
    assert (c.sent + [m])[n..] == c.sent[n..] + [m];
  }

  lemma RemoveGlobal(c: Client, id: ConnId)
    requires GlobalInv(c)
    ensures GlobalInv(Remove(c, id))
  {
    hide Links.Valid;
  }

  lemma OtherFieldsGlobal(c: Client, read: History, delivered: History, udpSent: seq<seq<byte>>,
      udpRead: seq<seq<byte>>)
    requires GlobalInv(c)
    ensures GlobalInv(c.(read := read, delivered := delivered, udpSent := udpSent, udpRead := udpRead))
    ensures GlobalInv(c.(contLoop := false))
  {
    hide Links.Valid;
  }

  lemma OnUdpGlobal(c: Client, data: Datagram, k: nat)
    requires GlobalInv(c)
    ensures GlobalInv(OnUdp(c, data, k))
  {
    var c1 := c.(udpRead := c.udpRead + [data]);
    OtherFieldsGlobal(c, c.read, c.delivered, c.udpSent, c1.udpRead);
    SendGlobal(c1, UdpMessage(data), k);
    OtherFieldsGlobal(Send(c1, UdpMessage(data), k), c.read, c.delivered, [], []);
    hide GlobalInv, Send;
  }

  lemma ReadGlobal(c: Client, id: ConnId, bytes: Block, k: nat)
    requires GlobalInv(c)
    ensures GlobalInv(OnData(c, id, bytes, k)) && GlobalInv(OnClosed(c, id, k))
  {
    var c1 := c.(read := Append(c.read, id, bytes));
    OtherFieldsGlobal(c, c1.read, c.delivered, c.udpSent, c.udpRead);
    SendGlobal(c1, DataMessage(id, bytes), k);
    OtherFieldsGlobal(Send(c1, DataMessage(id, bytes), k), c.read, c.delivered, [], []);
    SendGlobal(c, CloseMessage(id), k);
    RemoveGlobal(Send(c, CloseMessage(id), k), id);
    hide GlobalInv, Send, Remove;
  }

  lemma StepGlobal(c: Client, step: ClientStep)
    requires Enabled(c, step) && GlobalInv(c)
    ensures GlobalInv(Step(c, step))
  {
    match step
    case DestinationUdp(data, k) => OnUdpGlobal(c, data, k);
    case DestinationRead(id, result, k) => ReadGlobal(c, id, if result.Data? then result.bytes else [0], k);
    case _ =>
      assert c.sent[|c.sent|..] == [];
      assert Links.Valid(FRESH_LINK);
      hide Links.Valid;
  }

  lemma OnOpenGlobal(c: Client, id: ConnId, env: Env)
    requires GlobalInv(c) && c.session > 0 && id !in c.added
    ensures GlobalInv(OnOpen(c, id, env))
  {
    SendGlobal(c, CloseMessage(id), env.sends);
    assert forall i <- c.table :: c.table[i] in c.table.Values;
    hide Links.Valid, Send;
  }

  lemma OnTunnelDataGlobal(c: Client, id: ConnId, payload: seq<byte>, env: Env)
    requires GlobalInv(c)
    ensures GlobalInv(OnTunnelData(c, id, payload, env))
  {
    var c1 := c.(delivered := Append(c.delivered, id, Cut(payload, env.accepts)));
    SendGlobal(c, CloseMessage(id), env.sends);
    OtherFieldsGlobal(c, c.read, c1.delivered, c.udpSent, c.udpRead);
    RemoveGlobal(c1, id);
    SendGlobal(Remove(c1, id), CloseMessage(id), env.sends);
    hide GlobalInv, Send, Remove;
  }

  lemma HandleGlobal(c: Client, m: Message, env: Env)
    requires GlobalInv(c) && c.session > 0
    requires m.mtype.TcpOpen? ==> m.connId !in c.added
    ensures GlobalInv(Handle(c, m, env))
  {
    var c0 := c.(handled := c.handled + [m]);
    assert GlobalInv(c0) by {
      hide Links.Valid;
    }
    OtherFieldsGlobal(c0, c.read, c.delivered, c.udpSent + [m.payload], c.udpRead);
    OnTunnelDataGlobal(c0, m.connId, m.payload, env);
    RemoveGlobal(c0, m.connId);
    if m.mtype.TcpOpen? {
      OnOpenGlobal(c0, m.connId, env);
    }
    hide GlobalInv, OnTunnelData, OnOpen, Remove;
  }

  // ---------- datagrams ----------

  lemma SendUdp(c: Client, m: Message, k: nat)
    ensures var c' := Send(c, m, k);
            && c'.handled == c.handled && c'.udpSent == c.udpSent && c'.udpRead == c.udpRead
            && Datagrams(c'.sent) ==
               if c'.link.ok && m.mtype.UdpPacket? then Datagrams(c.sent) + [m.payload] else Datagrams(c.sent)
  {
    SnocDatagram(c.sent, m);
    hide Encode, Datagrams;
  }

  lemma ReadUdp(c: Client, id: ConnId, result: ReadOutcome, k: nat)
    requires UdpInv(c)
    ensures UdpInv(Step(c, DestinationRead(id, result, k)))
  {
    hide Datagrams, Subseq, Send, Append;
    if result.Data? {
      SendUdp(c.(read := Append(c.read, id, result.bytes)), DataMessage(id, result.bytes), k);
    } else {
      SendUdp(c, CloseMessage(id), k);
    }
  }

  lemma DatagramUdp(c: Client, data: Datagram, k: nat)
    requires UdpInv(c)
    ensures UdpInv(OnUdp(c, data, k))
  {
    hide Datagrams, Subseq, Send;
    SubseqGrow(Datagrams(c.sent), c.udpRead, [data]);
    SendUdp(c.(udpRead := c.udpRead + [data]), UdpMessage(data), k);
  }

  lemma StepUdp(c: Client, step: ClientStep)
    requires Enabled(c, step) && UdpInv(c)
    ensures UdpInv(Step(c, step))
  {
    hide Datagrams, Subseq, Transmit;
    match step
    case DestinationUdp(data, k) => DatagramUdp(c, data, k);
    case DestinationRead(id, result, k) => ReadUdp(c, id, result, k);
    case _ =>
  }

  lemma OnOpenUdp(c: Client, id: ConnId, env: Env)
    requires UdpInv(c)
    ensures UdpInv(OnOpen(c, id, env))
  {
    SendUdp(c, CloseMessage(id), env.sends);
    hide Datagrams, Subseq, Send;
  }

  lemma OnTunnelDataUdp(c: Client, id: ConnId, payload: seq<byte>, env: Env)
    requires UdpInv(c)
    ensures UdpInv(OnTunnelData(c, id, payload, env))
  {
    var c1 := c.(delivered := Append(c.delivered, id, Cut(payload, env.accepts)));
    SendUdp(c, CloseMessage(id), env.sends);
    SendUdp(Remove(c1, id), CloseMessage(id), env.sends);
    hide Datagrams, Subseq, Send, Append, Cut;
  }

  lemma HandleUdp(c: Client, m: Message, env: Env)
    requires UdpInv(c)
    ensures UdpInv(Handle(c, m, env))
  {
    var c0 := c.(handled := c.handled + [m]);
    SnocDatagram(c.handled, m);
    hide Datagrams, Subseq, OnOpen, OnTunnelData;
    match m.mtype
    case TcpOpen => OnOpenUdp(c0, m.connId, env);
    case TcpData => OnTunnelDataUdp(c0, m.connId, m.payload, env);
    case _ =>
  }

  // ---------- the whole ----------

  lemma InitInv()
    ensures UdpInv(INITIAL_CLIENT)
    ensures GlobalInv(INITIAL_CLIENT)
    ensures forall id :: ViewInv(ViewOf(INITIAL_CLIENT, id))
  {
  }

  /** Each branch of the loops that does not read the tunnel keeps the invariant. */
  lemma StepInv(c: Client, step: ClientStep)
    requires Enabled(c, step) && Inv(c)
    ensures Inv(Step(c, step))
  {
    StepGlobal(c, step);
    StepUdp(c, step);
    forall id ensures ViewInv(ViewOf(Step(c, step), id)) {
      assert ViewInv(ViewOf(c, id));
      StepConn(c, step, id);
    }
    hide Step, ViewInv, GlobalInv, UdpInv;
  }

  /** So does handling the next frame, if every OPEN comes before the rest of its connection. */
  lemma HandleInv(c: Client, m: Message, env: Env)
    requires Inv(c) && c.session > 0
    requires forall id :: OpensFirst(c.handled + [m], id)
    ensures Inv(Handle(c, m, env))
  {
    if m.mtype.TcpOpen? {
      Snoc(c.handled, m, m.connId);
      assert ViewInv(ViewOf(c, m.connId));
    }
    HandleGlobal(c, m, env);
    HandleUdp(c, m, env);
    forall id ensures ViewInv(ViewOf(Handle(c, m, env), id)) {
      assert ViewInv(ViewOf(c, id));
      HandleConn(c, m, env, id);
    }
    hide Handle, ViewInv, GlobalInv, UdpInv;
  }
}
