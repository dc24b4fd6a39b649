/** What a tunnel that changes inside a frame can lead to. */
module Necessity {
  // The reader's machine still holds the beginning of a frame, so what the other side writes to the new tunnel is
  // cut at other places than it was written. A datagram whose content looks like a frame is then handled as that
  // frame, which nobody sent.

  import opened Protocol
  import opened Reassembly
  import opened Links
  import opened Parties
  import opened Seqs
  import opened World
  import opened WorldInvariant
  import Effects
  import S = ServerModel
  import C = ClientModel

  /** No server sends it, as ids start from 1, and no client sends an OPEN. */
  const NEVER_SENT: Message := TunnelMessage(0, TcpOpen, [])

  // ---------- the datagram ----------

  function Filler(n: nat, b: byte): (s: seq<byte>)
    ensures |s| == n && forall i | 0 <= i < n :: s[i] == b
  {
    seq(n, _ => b)
  }

  /** How many bytes complete the header or the payload awaited. */
  function Need(p: Parser): (n: nat)
    requires p.Drained()
    ensures 0 < n < 0x1_0000
  {
    (if p.waitForHeader then HEADER_SIZE else p.waitForPayload) - |p.buffer|
  }

  /** The frame that is never sent, placed so that the reader comes upon it; 0xff begins no header. */
  function Nested(q: nat): (d: seq<byte>)
    ensures d != [] && |d| == if q >= HEADER_SIZE then q else 16
  {
    if q >= HEADER_SIZE then Filler(q - HEADER_SIZE, 0) + Encode(NEVER_SENT)
    else Filler(q, 0xff) + Encode(NEVER_SENT) + Filler(HEADER_SIZE - q, 0)
  }

  lemma NestedHolds(q: nat)
    ensures var at := if q >= HEADER_SIZE then q - HEADER_SIZE else q;
            Nested(q)[at..at + HEADER_SIZE] == Encode(NEVER_SENT)
    ensures q < HEADER_SIZE ==> forall i | 0 <= i < q :: Nested(q)[i] == 0xff
  {
    hide Encode;
  }

  /** The bytes of the header of a datagram of 16 bytes. */
  lemma DatagramHeader(d: Datagram)
    requires |d| == 16
    ensures Encode(UdpMessage(d)) == [0, 0, 0, 0, 0, 16, 0, 1] + d
  {
    assert BigEndian(0, 4) == [0, 0, 0, 0];
    assert BigEndian(16, 2) == [0, 16];
    assert BigEndian(1, 2) == [0, 1];
  }

  lemma CodeBytes(s: seq<byte>)
    requires |s| >= HEADER_SIZE
    ensures ParseHeader(s).code == 0x100 * (s[6] as int) + s[7] as int
  {
    var t := s[6..8];
    assert t[..1] == [t[0]];
    assert Value([t[0]]) == t[0];
  }

  /** A header whose last two bytes are no message type. */
  lemma Refused(s: seq<byte>)
    requires |s| == HEADER_SIZE && (s[6] > 0 || s[7] == 0 || s[7] > 4)
    ensures BadHeader(s)
  {
    CodeBytes(s);
    hide ParseHeader;
  }

  /** The header that is completed by the first bytes of such a datagram's frame. */
  lemma FirstRefused(b: seq<byte>, s: seq<byte>, q: nat)
    requires 0 < q < HEADER_SIZE && |b| == HEADER_SIZE - q && |s| >= HEADER_SIZE
    requires s[0] == s[1] == s[2] == s[3] == s[4] == 0 && s[5] == 16 && s[6] == 0
    ensures BadHeader(b + s[..q])
  {
    var t := b + s[..q];
    assert t[7] == s[q - 1] && (q > 1 ==> t[6] == s[q - 2]);
    hide BadHeader;
    Refused(t);
  }

  /** The header that begins in the middle of its own header. */
  lemma SecondRefused(s: seq<byte>, q: nat)
    requires 0 < q < HEADER_SIZE && |s| == 24 && s[7] == 1
        && forall i | HEADER_SIZE <= i < HEADER_SIZE + q :: s[i] == 0xff
    ensures BadHeader(s[q..q + HEADER_SIZE])
  {
    var t := s[q..q + HEADER_SIZE];
    assert t[6] == s[q + 6] && t[7] == s[q + 7];
    hide BadHeader;
    Refused(t);
  }

  lemma HeaderThen(d: seq<byte>, q: nat)
    requires |d| == 16 && q < HEADER_SIZE && forall i | 0 <= i < q :: d[i] == 0xff
    ensures var s := [0, 0, 0, 0, 0, 16, 0, 1] + d;
            && s[0] == s[1] == s[2] == s[3] == s[4] == 0 && s[5] == 16 && s[6] == 0 && s[7] == 1
            && forall i | HEADER_SIZE <= i < HEADER_SIZE + q :: s[i] == 0xff
  {
  }

  /**
   Less than a header is missing: the header that the datagram's first bytes complete is refused, and so is
   the next.
   */
  lemma TwoRefusals(b: seq<byte>, q: nat)
    requires 0 < q < HEADER_SIZE
    ensures var s := Encode(UdpMessage(Nested(q)));
            && (|b| == HEADER_SIZE - q ==> BadHeader(b + s[..q]))
            && BadHeader(s[q..q + HEADER_SIZE])
  {
    var d := Nested(q);
    DatagramHeader(d);
    NestedHolds(q);
    hide Encode, Nested, BadHeader, CreateHeader;
    HeaderThen(d, q);
    var s := Encode(UdpMessage(d));
    SecondRefused(s, q);
    if |b| == HEADER_SIZE - q {
      FirstRefused(b, s, q);
    }
  }

  // ---------- the machine ----------

  predicate Clear(p: Parser) {
    p.waitForHeader && p.waitForPayload == 0 && p.buffer == []
  }

  /** The bytes awaited, and no more: the machine is clear, also when they complete an invalid header. */
  lemma ItemCompleted(p: Parser, chunk: seq<byte>)
    requires p.Drained() && |chunk| == Need(p) && (p.waitForHeader ==> BadHeader(p.buffer + chunk))
    ensures Clear(Collect(p, chunk).parser)
  {
    hide ParseHeader;
    var p' := p.(buffer := p.buffer + chunk);
    if !p.waitForHeader {
      var q := AfterPayload(p');
      assert q.buffer == [] && Drain(q) == Collected(q, [], false);
    }
  }

  lemma ClearReads(p: Parser, m: Message)
    requires Clear(p)
    ensures p.Drained() && Need(p) == HEADER_SIZE && Collect(p, Encode(m)).msgs == [m]
  {
    StaleResidue(p);
    hide Collect, Encode;
  }

  /** Fewer bytes than the payload awaits. */
  lemma MoreAwaited(p: Parser, chunk: seq<byte>)
    requires p.Drained() && !p.waitForHeader && |chunk| < Need(p)
    ensures Collect(p, chunk).msgs == [] && Collect(p, chunk).parser == p.(buffer := p.buffer + chunk)
  {
  }

  // ---------- the two programs ----------

  /** From the server to the client, or from the client to the server. */
  datatype Direction = Down | Up

  function Sent(dir: Direction, w: World): seq<Message> {
    if dir.Down? then w.server.sent else w.client.sent
  }

  function Handled(dir: Direction, w: World): seq<Message> {
    if dir.Down? then w.client.handled else w.server.handled
  }

  function Machine(dir: Direction, w: World): Parser {
    if dir.Down? then w.clientRec else w.serverRec
  }

  /** A tunnel that both sides hold, and the bytes still to be read from it; the nested frame was never sent. */
  ghost predicate Reading(dir: Direction, w: World, p: Parser, rest: seq<byte>) {
    && w.serverRec.Valid() && w.clientRec.Valid() && Machine(dir, w) == p && p.Drained()
    && w.server.held && w.server.session == w.client.session == |w.past|
    && NEVER_SENT !in Sent(dir, w)
    && match dir {
         case Down =>
           && Links.Valid(w.server.link) && w.server.link.ok && w.client.contLoop
           && w.downRead <= |Bytes(w.server.link)| && rest == Bytes(w.server.link)[w.downRead..]
         case Up =>
           && Links.Valid(w.client.link) && w.client.link.ok
           && w.upRead <= |Bytes(w.client.link)| && rest == Bytes(w.client.link)[w.upRead..]
       }
  }

  /** A datagram arrives at the far end and is passed on in full. */
  function Forwards(dir: Direction, d: Datagram): Step {
    var k := HEADER_SIZE + |d|;
    if dir.Down? then OfServer(S.OutsideUdp(S.Received(0, d), k)) else OfClient(C.DestinationUdp(d, k))
  }

  function Reads(dir: Direction, n: nat): Step {
    if dir.Down? then ClientReceives(n, []) else ServerReceives(n, [])
  }

  lemma ForwardedLink(l: Link, d: Datagram, n: nat)
    requires Links.Valid(l) && l.ok && n <= |Bytes(l)|
    ensures var l' := Transmit(l, UdpMessage(d), HEADER_SIZE + |d|);
            && Links.Valid(l') && l'.ok && n <= |Bytes(l')| && Bytes(l')[n..] == Bytes(l)[n..] + Encode(UdpMessage(d))
  {
    TransmitBytes(l, UdpMessage(d), HEADER_SIZE + |d|);
    assert Encode(UdpMessage(d))[..HEADER_SIZE + |d|] == Encode(UdpMessage(d));
    hide Encode, Bytes, Links.Valid, Transmit;
  }

  lemma AfterForward(dir: Direction, w: World, p: Parser, rest: seq<byte>, d: Datagram)
    requires Reading(dir, w, p, rest) && d != []
    ensures Reading(dir, Apply(w, Forwards(dir, d)), p, rest + Encode(UdpMessage(d)))
  {
    hide Encode, Bytes, Links.Valid, Parser.Valid, Parser.Drained, Transmit;
    if dir.Down? {
      ForwardedLink(w.server.link, d, w.downRead);
    } else {
      ForwardedLink(w.client.link, d, w.upRead);
    }
  }

  lemma {:induction false} HandlesRecorded(s: S.Server, c: C.Client, ms: seq<Message>)
    ensures ServerHandles(s, ms, []).handled == s.handled + ms
    ensures ClientHandles(c, ms, []).handled == c.handled + ms
    decreases |ms|
  {
    hide S.Handle, C.Handle;
    if ms != [] {
      Effects.ServerKeeps(s, ms[0], S.Env(0, 0));
      Effects.ClientKeeps(c, ms[0], C.Env(C.Refused, 0, 0));
      HandlesRecorded(S.Handle(s, ms[0], S.Env(0, 0)), C.Handle(c, ms[0], C.Env(C.Refused, 0, 0)), ms[1..]);
      assert [ms[0]] + ms[1..] == ms;
    }
  }

  lemma AfterClientRead(w: World, p: Parser, rest: seq<byte>, n: nat)
    requires Reading(Down, w, p, rest) && 0 < n <= |rest| && n <= MAX_TUNNEL_READ
    ensures var w', d := Apply(w, ClientReceives(n, [])), Collect(p, rest[..n]);
            Reading(Down, w', d.parser, rest[n..]) && w'.client.handled == w.client.handled + d.msgs
  {
    var ms := Collect(p, rest[..n]).msgs;
    assert Bytes(w.server.link)[w.downRead..w.downRead + n] == rest[..n];
    HandlesRecorded(w.server, w.client, ms);
    ClientHandlingKeeps(w.client, ms, []);
    hide Collect, Bytes, ClientHandles, ServerHandles, Links.Valid, UpLink;
  }

  lemma AfterServerRead(w: World, p: Parser, rest: seq<byte>, n: nat)
    requires Reading(Up, w, p, rest) && 0 < n <= |rest| && n <= MAX_TUNNEL_READ
    ensures var w', d := Apply(w, ServerReceives(n, [])), Collect(p, rest[..n]);
            Reading(Up, w', d.parser, rest[n..]) && w'.server.handled == w.server.handled + d.msgs
  {
    var ms := Collect(p, rest[..n]).msgs;
    assert UpLink(w) == w.client.link && Bytes(w.client.link)[w.upRead..w.upRead + n] == rest[..n];
    HandlesRecorded(w.server, w.client, ms);
    ServerHandlingKeeps(w.server, ms, []);
    hide Collect, Bytes, ClientHandles, ServerHandles, Links.Valid;
  }

  lemma AfterRead(dir: Direction, w: World, p: Parser, rest: seq<byte>, n: nat)
    requires Reading(dir, w, p, rest) && 0 < n <= |rest| && n <= MAX_TUNNEL_READ
    ensures var w', d := Apply(w, Reads(dir, n)), Collect(p, rest[..n]);
            Reading(dir, w', d.parser, rest[n..]) && Handled(dir, w') == Handled(dir, w) + d.msgs
  {
    hide Reading, Apply, Collect;
    if dir.Down? {
      AfterClientRead(w, p, rest, n);
    } else {
      AfterServerRead(w, p, rest, n);
    }
  }

  // ---------- a frame read at other places than it was written ----------

  /** The datagram is written, and read in pieces that end where the machine's items end. */
  function Misalignment(dir: Direction, q: nat): seq<Step>
    requires q <= MAX_DATAGRAM
  {
    [Forwards(dir, Nested(q))] + [Reads(dir, q)] + (if q < HEADER_SIZE then [Reads(dir, HEADER_SIZE)] else [])
    + [Reads(dir, HEADER_SIZE)]
  }

  /** The pieces the datagram's frame is read in. */
  lemma Pieces(q: nat)
    requires 0 < q <= MAX_DATAGRAM
    ensures var s, n := Encode(UdpMessage(Nested(q))), if q < HEADER_SIZE then q + HEADER_SIZE else q;
            && |s| == HEADER_SIZE + |Nested(q)| && n + HEADER_SIZE <= |s| && s[n..][..HEADER_SIZE] == Encode(NEVER_SENT)
            && s[q..][..HEADER_SIZE] == s[q..q + HEADER_SIZE] && s[q..][HEADER_SIZE..] == s[q + HEADER_SIZE..]
  {
    NestedHolds(q);
    hide CreateHeader;
  }

  /** The item awaited is completed by the datagram's first bytes. */
  lemma FirstPiece(p: Parser)
    requires p.Drained() && p.Residue() != [] && Need(p) <= MAX_DATAGRAM
    ensures var q := Need(p);
            var s := Encode(UdpMessage(Nested(q)));
            q <= |s| && Clear(Collect(p, s[..q]).parser)
  {
    var q := Need(p);
    if q < HEADER_SIZE {
      TwoRefusals(p.buffer, q);
    }
    hide Encode, Nested, Collect, BadHeader;
    ItemCompleted(p, Encode(UdpMessage(Nested(q)))[..q]);
  }

  lemma SecondPiece(p: Parser, chunk: seq<byte>)
    requires Clear(p) && BadHeader(chunk) && |chunk| == HEADER_SIZE
    ensures Clear(Collect(p, chunk).parser)
  {
    assert p.buffer + chunk == chunk;
    hide Collect, BadHeader;
    ItemCompleted(p, chunk);
  }

  /** One more read at the end of a stretch. */
  lemma ThenReads(dir: Direction, w: World, steps: seq<Step>, p: Parser, rest: seq<byte>, n: nat)
    requires w.serverRec.Valid() && w.clientRec.Valid() && Reading(dir, ApplyAll(w, steps), p, rest)
    requires 0 < n <= |rest| && n <= MAX_TUNNEL_READ
    ensures var before, after := ApplyAll(w, steps), ApplyAll(w, steps + [Reads(dir, n)]);
            var d := Collect(p, rest[..n]);
            Reading(dir, after, d.parser, rest[n..]) && Handled(dir, after) == Handled(dir, before) + d.msgs
  {
    var w1 := ApplyAll(w, steps);
    hide ApplyAll, Reading, Apply, Collect, Parser.Valid;
    ApplySnoc(w, steps, Reads(dir, n));
    AfterRead(dir, w1, p, rest, n);
  }

  /** Its last read completes the frame that was never sent. */
  lemma NestedFrameRead(dir: Direction, w: World, steps: seq<Step>, p: Parser, rest: seq<byte>)
    requires w.serverRec.Valid() && w.clientRec.Valid() && Reading(dir, ApplyAll(w, steps), p, rest)
    requires Clear(p) && |rest| >= HEADER_SIZE && rest[..HEADER_SIZE] == Encode(NEVER_SENT)
    ensures var w' := ApplyAll(w, steps + [Reads(dir, HEADER_SIZE)]);
            NEVER_SENT in Handled(dir, w') && NEVER_SENT !in Sent(dir, w')
  {
    var w' := ApplyAll(w, steps + [Reads(dir, HEADER_SIZE)]);
    hide ApplyAll, Clear, Encode, Apply, Parser.Valid, Handled, Collect;
    ThenReads(dir, w, steps, p, rest, HEADER_SIZE);
    ClearReads(p, NEVER_SENT);
    assert Reading(dir, w', Collect(p, rest[..HEADER_SIZE]).parser, rest[HEADER_SIZE..]);
  }

  lemma ReadMisaligned(dir: Direction, w: World, p: Parser)
    requires w.serverRec.Valid() && w.clientRec.Valid()
    requires Reading(dir, w, p, []) && p.Drained() && p.Residue() != [] && Need(p) <= MAX_DATAGRAM
    ensures var w' := ApplyAll(w, Misalignment(dir, Need(p)));
            NEVER_SENT in Handled(dir, w') && NEVER_SENT !in Sent(dir, w')
  {
    var q := Need(p);
    var d := Nested(q);
    var s := Encode(UdpMessage(d));
    var a := [Forwards(dir, d)];
    var b := a + [Reads(dir, q)];
    var c := b + if q < HEADER_SIZE then [Reads(dir, HEADER_SIZE)] else [];
    assert Misalignment(dir, q) == c + [Reads(dir, HEADER_SIZE)];
    assert [] + s == s;
    hide *;
    ApplyOne(w, Forwards(dir, d));
    AfterForward(dir, w, p, [], d);
    Pieces(q);
    FirstPiece(p);
    ThenReads(dir, w, a, p, s, q);
    var p1 := Collect(p, s[..q]).parser;
    if q < HEADER_SIZE {
      TwoRefusals([], q);
      SecondPiece(p1, s[q..q + HEADER_SIZE]);
      ThenReads(dir, w, b, p1, s[q..], HEADER_SIZE);
      NestedFrameRead(dir, w, c, Collect(p1, s[q..q + HEADER_SIZE]).parser, s[q + HEADER_SIZE..]);
    } else {
      assert c == b;
      NestedFrameRead(dir, w, c, p1, s[q..]);
    }
  }

  const FILLER := 50000

  /** A payload longer than the longest datagram is filled up first. */
  function LongMisalignment(dir: Direction, q: nat): seq<Step>
    requires q < 0x1_0000
  {
    if q <= MAX_DATAGRAM then Misalignment(dir, q)
    else [Forwards(dir, Filler(FILLER, 0))] + [Reads(dir, HEADER_SIZE + FILLER)] + Misalignment(dir,
        q - HEADER_SIZE - FILLER)
  }

  lemma FilledUp(p: Parser, chunk: seq<byte>)
    requires p.Drained() && Need(p) > MAX_DATAGRAM && |chunk| == HEADER_SIZE + FILLER
    ensures var p' := Collect(p, chunk).parser;
            p'.Drained() && p'.Residue() != [] && Need(p') == Need(p) - |chunk| && Need(p') <= MAX_DATAGRAM
  {
    MoreAwaited(p, chunk);
    hide Collect, CreateHeader;
  }

  lemma FillerFrame(d: Datagram)
    requires |d| == FILLER
    ensures var s, n := Encode(UdpMessage(d)), HEADER_SIZE + FILLER;
            |s| == n && [] + s == s && s[..n] == s && s[n..] == []
  {
    hide CreateHeader;
  }

  /** The frame of a datagram is written and read in one piece. */
  lemma ReadsFrame(dir: Direction, w: World, p: Parser, d: Datagram)
    requires w.serverRec.Valid() && w.clientRec.Valid() && Reading(dir, w, p, []) && p.Valid() && |d| == FILLER
    ensures var b := [Forwards(dir, d)] + [Reads(dir, HEADER_SIZE + FILLER)];
            Reading(dir, ApplyAll(w, b), Collect(p, Encode(UdpMessage(d))).parser, [])
  {
    assert d != [] && 0 < HEADER_SIZE + FILLER <= MAX_TUNNEL_READ;
    hide *;
    var s := Encode(UdpMessage(d));
    FillerFrame(d);
    ApplyOne(w, Forwards(dir, d));
    AfterForward(dir, w, p, [], d);
    ThenReads(dir, w, [Forwards(dir, d)], p, s, HEADER_SIZE + FILLER);
  }

  lemma FilledThenMisread(dir: Direction, w: World, p: Parser, d: Datagram, b: seq<Step>, q: nat)
    requires w.serverRec.Valid() && w.clientRec.Valid()
    requires Reading(dir, w, p, []) && p.Drained() && Need(p) > MAX_DATAGRAM && |d| == FILLER
    requires b == [Forwards(dir, d)] + [Reads(dir, HEADER_SIZE + FILLER)]
    requires q == Need(p) - HEADER_SIZE - FILLER && q <= MAX_DATAGRAM
    ensures var w' := ApplyAll(w, b + Misalignment(dir, q));
            NEVER_SENT in Handled(dir, w') && NEVER_SENT !in Sent(dir, w')
  {
    hide *;
    DrainedIsValid(p);
    ReadsFrame(dir, w, p, d);
    FillerFrame(d);
    var s := Encode(UdpMessage(d));
    FilledUp(p, s);
    ReadMisaligned(dir, ApplyAll(w, b), Collect(p, s).parser);
    ApplyConcat(w, b, Misalignment(dir, q));
  }

  /** A reader in the middle of a frame comes to handle one that was never sent, after one or two datagrams. */
  lemma MisreadFollows(dir: Direction, w: World, p: Parser)
    requires w.serverRec.Valid() && w.clientRec.Valid()
    requires Reading(dir, w, p, []) && p.Drained() && p.Residue() != []
    ensures var w' := ApplyAll(w, LongMisalignment(dir, Need(p)));
            NEVER_SENT in Handled(dir, w') && NEVER_SENT !in Sent(dir, w')
  {
    hide Misalignment, ApplyAll, Reading, Handled, Sent, Reads, Forwards, Need, Parser.Residue, Parser.Drained,
        Parser.Valid;
    var q := Need(p);
    if q <= MAX_DATAGRAM {
      ReadMisaligned(dir, w, p);
    } else {
      var d: Datagram := Filler(FILLER, 0);
      var b := [Forwards(dir, d)] + [Reads(dir, HEADER_SIZE + FILLER)];
      assert LongMisalignment(dir, q) == b + Misalignment(dir, q - HEADER_SIZE - FILLER);
      FilledThenMisread(dir, w, p, d, b, q - HEADER_SIZE - FILLER);
    }
  }

  // ---------- a new tunnel ----------

  /** The server takes up every tunnel the client has connected. */
  function Accepts(n: nat): seq<Step> {
    if n == 0 then [] else Accepts(n - 1) + [OfServer(S.AcceptTunnel)]
  }

  lemma {:induction false} AllAccepted(w: World, n: nat)
    requires w.serverRec.Valid() && w.clientRec.Valid() && w.server.session + n <= w.client.session && n > 0
    ensures var w', s := ApplyAll(w, Accepts(n)), w.server;
            && w'.server.held && w'.server.link == FRESH_LINK && w'.server.session == s.session + n
            && w'.server.sent == s.sent && w' == w.(server := w'.server, upRead := 0)
  {
    ApplySnoc(w, Accepts(n - 1), OfServer(S.AcceptTunnel));
    if n > 1 {
      AllAccepted(w, n - 1);
    } else {
      ApplyNone(w);
    }
    hide ApplyAll;
  }

  /** The client loses its tunnel and connects a new one. */
  const RECONNECT := [OfClient(C.TunnelLost)] + [OfClient(C.ConnectTunnel)]

  lemma Reconnected(w: World)
    requires w.serverRec.Valid() && w.clientRec.Valid() && !w.client.userQuit
    ensures var w' := ApplyAll(w, RECONNECT);
            && w'.client.session == w.client.session + 1 && w'.client.link == FRESH_LINK && |w'.past| == |w.past| + 1
            && w'.client.sent == w.client.sent && w'.server == w.server && w'.serverRec == w.serverRec
            && w'.clientRec == w.clientRec
  {
    ApplyOne(w, OfClient(C.TunnelLost));
    ApplySnoc(w, [OfClient(C.TunnelLost)], OfClient(C.ConnectTunnel));
    hide ApplyAll;
  }

  lemma NothingForeign(w: World)
    requires Inv(w)
    ensures NEVER_SENT !in w.server.sent && NEVER_SENT !in w.client.sent
    ensures |w.past| == w.client.session && w.server.session <= w.client.session
    ensures w.server.session != w.client.session ==> w.clientRec.Residue() == []
    ensures w.clientRec.Drained() && w.serverRec.Drained()
  {
    assert S.ViewInv(S.ViewOf(w.server, 0)) && !S.IsAllocated(w.server, 0);
    if NEVER_SENT in w.server.sent {
      Mentioned(w.server.sent, NEVER_SENT);
    }
    hide Bytes, Parse, Subseq;
  }

  /** Every frame handled on either side was sent by the other side. */
  ghost predicate Genuine(w: World) {
    (forall m <- w.client.handled :: m in w.server.sent) && (forall m <- w.server.handled :: m in w.client.sent)
  }

  lemma NotGenuine(dir: Direction, w: World)
    requires NEVER_SENT in Handled(dir, w) && NEVER_SENT !in Sent(dir, w)
    ensures !Genuine(w)
  {
  }

  lemma FreshTunnel(dir: Direction, w: World, p: Parser)
    requires w.serverRec.Valid() && w.clientRec.Valid() && Machine(dir, w) == p && p.Drained()
    requires w.server.held && w.server.session == w.client.session == |w.past|
    requires NEVER_SENT !in w.server.sent && NEVER_SENT !in w.client.sent
    requires dir.Down? ==> w.server.link == FRESH_LINK && w.client.contLoop && w.downRead == 0
    requires dir.Up? ==> w.client.link == FRESH_LINK && w.upRead == 0
    ensures Reading(dir, w, p, [])
  {
    assert Bytes(FRESH_LINK) == [] && Incomplete([]);
    hide Bytes, Incomplete;
  }

  /** The client connects a new tunnel while its machine holds the beginning of a frame. */
  lemma ClientMisreads(w: World) returns (more: seq<Step>)
    requires Inv(w) && w.serverRec.Valid() && w.clientRec.Valid()
    requires C.Enabled(w.client, C.ConnectTunnel) && w.clientRec.Residue() != []
    ensures !Genuine(ApplyAll(Apply(w, OfClient(C.ConnectTunnel)), more))
  {
    NothingForeign(w);
    var w1 := Apply(w, OfClient(C.ConnectTunnel));
    AllAccepted(w1, 1);
    var w2 := ApplyAll(w1, Accepts(1));
    assert w1.downRead == 0 && w1.client.contLoop && w1.client.session == w.client.session + 1;
    hide Inv, ApplyAll, Apply, LongMisalignment, Accepts, Handled, Sent, Parser.Residue, Genuine, Reading, Bytes;
    FreshTunnel(Down, w2, w.clientRec);
    MisreadFollows(Down, w2, w.clientRec);
    more := Accepts(1) + LongMisalignment(Down, Need(w.clientRec));
    ApplyConcat(w1, Accepts(1), LongMisalignment(Down, Need(w.clientRec)));
    NotGenuine(Down, ApplyAll(w1, more));
  }

  /** The server accepts a new tunnel while its machine holds the beginning of a frame. */
  lemma ServerMisreads(w: World) returns (more: seq<Step>)
    requires Inv(w) && w.serverRec.Valid() && w.clientRec.Valid() && !w.client.userQuit
    requires w.server.session < w.client.session && w.serverRec.Residue() != []
    ensures !Genuine(ApplyAll(Apply(w, OfServer(S.AcceptTunnel)), more))
  {
    NothingForeign(w);
    var w1 := Apply(w, OfServer(S.AcceptTunnel));
    Reconnected(w1);
    var w2 := ApplyAll(w1, RECONNECT);
    var n := w2.client.session - w2.server.session;
    AllAccepted(w2, n);
    var w3 := ApplyAll(w2, Accepts(n));
    hide Inv, ApplyAll, Apply, LongMisalignment, Accepts, Handled, Sent, Parser.Residue, Genuine, RECONNECT, Reading,
        Bytes;
    FreshTunnel(Up, w3, w.serverRec);
    MisreadFollows(Up, w3, w.serverRec);
    more := RECONNECT + Accepts(n) + LongMisalignment(Up, Need(w.serverRec));
    ApplyConcat(w1, RECONNECT, Accepts(n));
    ApplyConcat(w1, RECONNECT + Accepts(n), LongMisalignment(Up, Need(w.serverRec)));
    NotGenuine(Up, ApplyAll(w1, more));
  }

  lemma Misreads(steps: seq<Step>, step: Step) returns (more: seq<Step>)
    requires BoundaryRun(steps) && CanStep(Run(steps), step) && !Run(steps).client.userQuit
    requires step in {OfServer(S.AcceptTunnel), OfClient(C.ConnectTunnel)} && !AtBoundary(Run(steps), step)
    ensures !Genuine(Run(steps + [step] + more))
  {
    var w := Run(steps);
    RunInv(steps);
    if step == OfServer(S.AcceptTunnel) {
      hide Inv, Genuine, Run, ApplyAll, Apply, Parser.Residue;
      more := ServerMisreads(w);
    } else {
      hide Inv, Genuine, Run, ApplyAll, Apply, Parser.Residue;
      more := ClientMisreads(w);
    }
    assert (steps + [step])[..|steps|] == steps;
    Continues(steps + [step], more);
    hide Inv, Genuine, ApplyAll, Apply, Parser.Residue;
  }

  lemma GenuineSoFar(w: World)
    requires Inv(w)
    ensures Genuine(w)
  {
    HistoriesAgree(w);
    hide Inv;
    SubseqMembers(w.client.handled, w.server.sent);
    SubseqMembers(w.server.handled, w.client.sent);
  }

  /**
   A tunnel that changes at a frame boundary can do no harm, as long as later ones do too; one that does
   not can always be continued to a run in which a frame is handled that was never sent. The client must
   still be there: one that has been told to quit connects no more.
   */
  lemma BoundaryDecides(steps: seq<Step>, step: Step)
    requires BoundaryRun(steps) && CanStep(Run(steps), step) && !Run(steps).client.userQuit
    requires step in {OfServer(S.AcceptTunnel), OfClient(C.ConnectTunnel)}
    ensures AtBoundary(Run(steps), step) ==>
              forall more :: BoundaryRun(steps + [step] + more) ==> Genuine(Run(steps + [step] + more))
    ensures !AtBoundary(Run(steps), step) ==> exists more :: !Genuine(Run(steps + [step] + more))
  {
    hide *;
    if AtBoundary(Run(steps), step) {
      forall more | BoundaryRun(steps + [step] + more) ensures Genuine(Run(steps + [step] + more)) {
        RunInv(steps + [step] + more);
        GenuineSoFar(Run(steps + [step] + more));
      }
    } else {
      var more := Misreads(steps, step);
    }
  }
}
