/**
 TunnelMessageReconstructor: the two-state machine that rebuilds messages from a byte stream that
 arrives in chunks of any size, proved to compute what the one-shot parser computes.
 */
module Reassembly {
  import opened Protocol

  /** The machine's fields, apart from its output queue. */
  datatype Parser = Parser(
    buffer: seq<byte>,
    waitForHeader: bool,
    connId: ConnId,
    mtype: MessageType,
    waitForPayload: nat)
  {
    /** Holds at every loop head: a header is awaited exactly when no payload length is pending. */
    predicate Valid() {
      if waitForHeader then waitForPayload == 0 else 0 < waitForPayload < 0x1_0000
    }

    /** Holds between calls: the buffer never holds an item that could be taken out. */
    predicate Drained() {
      Valid() && |buffer| < if waitForHeader then HEADER_SIZE else waitForPayload
    }

    /** The bytes received but not yet turned into a message, the consumed header included. */
    function Residue(): seq<byte> {
      if waitForHeader || waitForPayload >= 0x1_0000 then buffer
      else CreateHeader(Header(connId, waitForPayload, TypeCode(mtype))) + buffer
    }
  }

  const INITIAL := Parser([], true, 0, UdpPacket, 0)

  datatype Collected = Collected(parser: Parser, msgs: seq<Message>, bad: bool)

  function Emit(m: Message, c: Collected): Collected {
    c.(msgs := [m] + c.msgs)
  }

  /** The fields after a good header has been consumed. */
  function AfterHeader(p: Parser): (q: Parser)
    requires p.Valid() && p.waitForHeader && |p.buffer| >= HEADER_SIZE && !BadHeader(p.buffer)
    ensures q.Valid() && |q.buffer| < |p.buffer|
  {
    var h := ParseHeader(p.buffer);
    Parser(p.buffer[HEADER_SIZE..], h.length == 0, h.connId, TypeOf(h.code), h.length)
  }

  /** The fields after a complete payload has been taken out. */
  function AfterPayload(p: Parser): (q: Parser)
    requires p.Valid() && !p.waitForHeader && |p.buffer| >= p.waitForPayload
    ensures q.Valid() && |q.buffer| < |p.buffer|
  {
    p.(buffer := p.buffer[p.waitForPayload..], waitForHeader := true, waitForPayload := 0)
  }

  /** Everything the loop does from p on: the final fields, the messages queued, and whether a header was refused. */
  function Drain(p: Parser): (c: Collected)
    requires p.Valid()
    ensures c.parser.Drained()
    decreases |p.buffer|
  {
    if p.waitForHeader then
      if |p.buffer| < HEADER_SIZE then Collected(p, [], false)
      else if BadHeader(p.buffer) then Collected(p.(buffer := []), [], true)
      else
        var q := AfterHeader(p);
        if q.waitForHeader then Emit(TunnelMessage(q.connId, q.mtype, []), Drain(q)) else Drain(q)
    else if |p.buffer| < p.waitForPayload then Collected(p, [], false)
    else Emit(TunnelMessage(p.connId, p.mtype, p.buffer[..p.waitForPayload]), Drain(AfterPayload(p)))
  }

  /** One call of collect_from_tunnel. */
  function Collect(p: Parser, chunk: seq<byte>): (c: Collected)
    requires p.Valid()
    ensures c.parser.Drained()
  {
    Drain(p.(buffer := p.buffer + chunk))
  }

  /** Awaiting a payload, the residue begins with the header that was consumed. */
  lemma ResidueHeader(p: Parser)
    requires p.Valid() && !p.waitForHeader
    ensures var s, h := p.Residue(), Header(p.connId, p.waitForPayload, TypeCode(p.mtype));
            |s| == HEADER_SIZE + |p.buffer| && ParseHeader(s) == h && s[HEADER_SIZE..] == p.buffer
    ensures TypeOf(TypeCode(p.mtype)) == p.mtype
  {
    HeaderRoundTrip(Header(p.connId, p.waitForPayload, TypeCode(p.mtype)), p.buffer);
  }

  /** d is what the machine does where the parser finds q. */
  ghost predicate Refines(d: Collected, q: Parsed) {
    && d.msgs == q.msgs && d.bad == q.bad && d.parser.Drained()
    && (if d.bad then d.parser.waitForHeader && d.parser.buffer == [] else d.parser.Residue() == q.rest)
  }

  /** Consuming a header leaves the residue as it was when a payload is to come, and completes a message otherwise. */
  lemma HeaderConsumed(p: Parser)
    requires p.Valid() && p.waitForHeader && |p.buffer| >= HEADER_SIZE && !BadHeader(p.buffer)
    ensures var q := AfterHeader(p);
            if q.waitForHeader then
              HasFrame(p.Residue()) && FirstMessage(p.Residue()) == TunnelMessage(q.connId, q.mtype, [])
              && q.Residue() == p.Residue()[FrameSize(p.Residue())..]
            else q.Residue() == p.Residue()
  {
    HeaderInverse(p.buffer);
  }

  lemma PayloadConsumed(p: Parser)
    requires p.Valid() && !p.waitForHeader && |p.buffer| >= p.waitForPayload
    ensures var s := p.Residue();
            && HasFrame(s) && FirstMessage(s) == TunnelMessage(p.connId, p.mtype, p.buffer[..p.waitForPayload])
            && AfterPayload(p).Residue() == s[FrameSize(s)..]
  {
    ResidueHeader(p);
    var s := p.Residue();
    assert s[HEADER_SIZE..FrameSize(s)] == s[HEADER_SIZE..][..p.waitForPayload];
    assert s[FrameSize(s)..] == s[HEADER_SIZE..][p.waitForPayload..];
  }

  /** The machine refines the parser of the residue, and stops only when it can take nothing more. */
  lemma {:induction false} DrainRefinesParse(p: Parser)
    requires p.Valid()
    ensures Refines(Drain(p), Parse(p.Residue()))
    decreases |p.buffer|
  {
    hide ParseHeader, CreateHeader, FirstMessage, TypeOf;
    if p.waitForHeader && HEADER_SIZE <= |p.buffer| && !BadHeader(p.buffer) {
      HeaderConsumed(p);
      DrainRefinesParse(AfterHeader(p));
    } else if !p.waitForHeader {
      ResidueHeader(p);
      if |p.buffer| >= p.waitForPayload {
        PayloadConsumed(p);
        DrainRefinesParse(AfterPayload(p));
      }
    }
  }

  lemma CollectRefinesParse(p: Parser, chunk: seq<byte>)
    requires p.Valid()
    ensures Refines(Collect(p, chunk), Parse(p.Residue() + chunk))
  {
    var p' := p.(buffer := p.buffer + chunk);
    DrainRefinesParse(p');
    assert p'.Residue() == p.Residue() + chunk;
  }

  /** A drained machine's residue is a frame cut short, so it never exceeds 65542 bytes, nor its buffer 65534. */
  lemma DrainedResidueIncomplete(p: Parser)
    requires p.Drained()
    ensures Incomplete(p.Residue())
    ensures |p.buffer| <= 65534
    ensures p.Residue() == [] <==> p.waitForHeader && p.buffer == []
  {
    if !p.waitForHeader {
      ResidueHeader(p);
    }
  }

  // ---------- any number of calls ----------

  function Concat(chunks: seq<seq<byte>>): seq<byte> {
    if chunks == [] then [] else Concat(chunks[..|chunks| - 1]) + chunks[|chunks| - 1]
  }

  /** Feeding the chunks one call at a time; bad records whether any call refused a header. */
  function CollectAll(p: Parser, chunks: seq<seq<byte>>): (c: Collected)
    requires p.Valid()
    ensures c.parser.Valid()
  {
    if chunks == [] then Collected(p, [], false)
    else
      var c := CollectAll(p, chunks[..|chunks| - 1]);
      var d := Collect(c.parser, chunks[|chunks| - 1]);
      Collected(d.parser, c.msgs + d.msgs, c.bad || d.bad)
  }

  /** One more call after a stretch of the stream in which no header was refused. */
  lemma CollectExtends(s: seq<byte>, c: Collected, chunk: seq<byte>)
    requires Refines(c, Parse(s)) && !c.bad
    ensures var d := Collect(c.parser, chunk);
            Refines(Collected(d.parser, c.msgs + d.msgs, d.bad), Parse(s + chunk))
  {
    CollectRefinesParse(c.parser, chunk);
    ParseConcat(s, chunk);
  }

  lemma CollectAllSnoc(p: Parser, init: seq<seq<byte>>, last: seq<byte>)
    requires p.Valid()
    ensures var c := CollectAll(p, init);
            var d := Collect(c.parser, last);
            CollectAll(p, init + [last]) == Collected(d.parser, c.msgs + d.msgs, c.bad || d.bad)
    ensures Concat(init + [last]) == Concat(init) + last
  {
    assert (init + [last])[..|init|] == init;
  }

  /** Before any call, the residue is all there is. */
  lemma NoChunks(p: Parser)
    requires p.Drained()
    ensures Concat([]) == [] && CollectAll(p, []) == Collected(p, [], false)
    ensures Refines(CollectAll(p, []), Parse(p.Residue() + Concat([])))
  {
    DrainedResidueIncomplete(p);
    assert p.Residue() + [] == p.Residue();
    hide Parser.Residue;
  }

  /**
   Chunking independence: while no header is refused, the messages queued and the residue depend
   only on the concatenation of the chunks.
   */
  lemma {:induction false} ChunkingIndependence(p: Parser, chunks: seq<seq<byte>>)
    requires p.Drained() && !CollectAll(p, chunks).bad
    ensures Refines(CollectAll(p, chunks), Parse(p.Residue() + Concat(chunks)))
    decreases |chunks|
  {
    hide *;
    if chunks == [] {
      NoChunks(p);
    } else {
      var init, last := chunks[..|chunks| - 1], chunks[|chunks| - 1];
      assert init + [last] == chunks;
      DrainedIsValid(p);
      CollectAllSnoc(p, init, last);
      ChunkingIndependence(p, init);
      CallAfter(p, init, last);
    }
  }

  lemma DrainedIsValid(p: Parser)
    requires p.Drained()
    ensures p.Valid()
  {
  }

  /** The call after a stretch of good ones, which may itself refuse a header, still queues what the parser finds. */
  lemma {:induction false} CallAfter(p: Parser, init: seq<seq<byte>>, last: seq<byte>)
    requires p.Drained() && !CollectAll(p, init).bad
    requires Refines(CollectAll(p, init), Parse(p.Residue() + Concat(init)))
    ensures Refines(CollectAll(p, init + [last]), Parse(p.Residue() + Concat(init + [last])))
  {
    hide CollectAll, Collect, Parse, Concat;
    var r := p.Residue();
    CollectExtends(r + Concat(init), CollectAll(p, init), last);
    CollectAllSnoc(p, init, last);
    assert r + Concat(init) + last == r + (Concat(init) + last);
  }

  /** Up to and including the call that completes the first invalid header, chunking does not matter. */
  lemma {:induction false} FirstBadChunk(p: Parser, init: seq<seq<byte>>, last: seq<byte>)
    requires p.Drained() && !CollectAll(p, init).bad
    ensures Refines(CollectAll(p, init + [last]), Parse(p.Residue() + Concat(init + [last])))
  {
    ChunkingIndependence(p, init);
    CallAfter(p, init, last);
  }

  /** A stream without an invalid header is never refused, whatever the chunks. */
  lemma {:induction false} GoodStream(p: Parser, chunks: seq<seq<byte>>)
    requires p.Drained() && !Parse(p.Residue() + Concat(chunks)).bad
    ensures Refines(CollectAll(p, chunks), Parse(p.Residue() + Concat(chunks)))
    decreases |chunks|
  {
    hide *;
    if chunks == [] {
      NoChunks(p);
    } else {
      var init, last := chunks[..|chunks| - 1], chunks[|chunks| - 1];
      DrainedIsValid(p);
      CollectAllSnoc(p, init, last);
      assert init + [last] == chunks;
      assert p.Residue() + (Concat(init) + last) == p.Residue() + Concat(init) + last;
      ParseConcat(p.Residue() + Concat(init), last);
      GoodStream(p, init);
      NotBad(CollectAll(p, init), Parse(p.Residue() + Concat(init)));
      CallAfter(p, init, last);
    }
  }

  lemma NotBad(d: Collected, q: Parsed)
    requires Refines(d, q)
    ensures d.bad == q.bad
  {
  }

  /**
   Bytes are conserved: while no header is refused, everything fed is the messages queued, encoded,
   and what the machine holds, which is a frame cut short and never more than 65534 bytes of buffer.
   */
  lemma ByteConservation(chunks: seq<seq<byte>>)
    requires !CollectAll(INITIAL, chunks).bad
    ensures var c := CollectAll(INITIAL, chunks);
            && EncodeAll(c.msgs) + c.parser.Residue() == Concat(chunks)
            && Incomplete(c.parser.Residue()) && |c.parser.buffer| <= 65534
  {
    var c := CollectAll(INITIAL, chunks);
    ChunkingIndependence(INITIAL, chunks);
    assert INITIAL.Residue() + Concat(chunks) == Concat(chunks);
    hide Incomplete, CollectAll, Parse, Concat;
    ParseConserves(Concat(chunks));
    DrainedResidueIncomplete(c.parser);
  }

  // ---------- recovery, and what a leftover does to the next stream ----------

  /** Equal up to the id and type of the last header, which are dead while a header is awaited. */
  predicate Alike(p: Parser, q: Parser) {
    && p.buffer == q.buffer && p.waitForHeader == q.waitForHeader && p.waitForPayload == q.waitForPayload
    && (!p.waitForHeader ==> p == q)
  }

  /** After refusing a header the machine behaves for ever like a fresh one. */
  lemma {:induction false} AlikeForever(p: Parser, q: Parser, chunks: seq<seq<byte>>)
    requires p.Valid() && q.Valid() && Alike(p, q)
    ensures var c, d := CollectAll(p, chunks), CollectAll(q, chunks);
            Alike(c.parser, d.parser) && c.msgs == d.msgs && c.bad == d.bad
    decreases |chunks|
  {
    if chunks != [] {
      AlikeForever(p, q, chunks[..|chunks| - 1]);
    }
  }

  lemma RecoveryAfterBadHeader(p: Parser, chunk: seq<byte>, later: seq<seq<byte>>)
    requires p.Valid() && Collect(p, chunk).bad
    ensures var d := Collect(p, chunk);
            && d.msgs == Parse(p.Residue() + chunk).msgs
            && CollectAll(d.parser, later).msgs == CollectAll(INITIAL, later).msgs
  {
    CollectRefinesParse(p, chunk);
    AlikeForever(Collect(p, chunk).parser, INITIAL, later);
  }

  /**
   The machine is not reset between tunnels. A new tunnel's messages are read correctly, whatever
   they are, exactly when nothing of the old tunnel's last frame is left over.
   */
  lemma StaleResidue(p: Parser)
    requires p.Drained()
    ensures (forall m: Message :: Collect(p, Encode(m)).msgs == [m]) <==> p.Residue() == []
  {
    DrainedResidueIncomplete(p);
    LeftoverMatters(p.Residue());
    forall m: Message ensures Collect(p, Encode(m)).msgs == Parse(p.Residue() + Encode(m)).msgs {
      CollectRefinesParse(p, Encode(m));
    }
    hide Parse, Collect, Encode, Incomplete;
  }

  // ---------- one round of the loop ----------

  lemma HeaderRound(p: Parser)
    requires p.Valid() && p.waitForHeader && |p.buffer| >= HEADER_SIZE
    ensures BadHeader(p.buffer) <==> !IsValidMessageType(ParseHeader(p.buffer).code)
    ensures if BadHeader(p.buffer) then Drain(p) == Collected(p.(buffer := []), [], true)
            else
              var q := AfterHeader(p);
              Drain(p) == if q.waitForHeader then Emit(TunnelMessage(q.connId, q.mtype, []), Drain(q)) else Drain(q)
  {
    hide ParseHeader;
  }

  lemma PayloadRound(p: Parser)
    requires p.Valid() && !p.waitForHeader && |p.buffer| >= p.waitForPayload
    ensures Drain(p) == Emit(TunnelMessage(p.connId, p.mtype, p.buffer[..p.waitForPayload]), Drain(AfterPayload(p)))
  {
  }

  lemma LastRound(p: Parser)
    requires p.Valid() && (p.buffer == [] || p.Drained())
    ensures p.Drained() && Drain(p) == Collected(p, [], false)
  {
  }

  // ---------- the class ----------

  class TunnelMessageReconstructor {
    var bytesFromTunnel: seq<byte>
    var waitForHeader: bool
    var currentConnId: ConnId
    var currentType: MessageType
    var waitForPayload: nat
    var reconstructedMessages: seq<Message>

    function State(): Parser
      reads this
    {
      Parser(bytesFromTunnel, waitForHeader, currentConnId, currentType, waitForPayload)
    }

    predicate Valid()
      reads this
    {
      State().Drained()
    }

    constructor ()
      ensures Valid() && State() == INITIAL && reconstructedMessages == []
    {
      bytesFromTunnel, waitForHeader, currentConnId, currentType, waitForPayload := [], true, 0, UdpPacket, 0;
      reconstructedMessages := [];
    }

    method CollectFromTunnel(chunk: seq<byte>)
      requires Valid()
      modifies this
      ensures Valid()
      ensures State() == Collect(old(State()), chunk).parser
      ensures reconstructedMessages == old(reconstructedMessages) + Collect(old(State()), chunk).msgs
    {
      hide ParseHeader, BadHeader, Parser.Residue, Drain;
      bytesFromTunnel := bytesFromTunnel + chunk;
      ghost var all := Drain(State());
      while bytesFromTunnel != []
        invariant State().Valid()
        invariant Drain(State()).parser == all.parser
        invariant reconstructedMessages + Drain(State()).msgs == old(reconstructedMessages) + all.msgs
        decreases |bytesFromTunnel|
      {
        ghost var here := State();
        if waitForHeader {
          if |bytesFromTunnel| >= HEADER_SIZE {
            HeaderRound(here);
            var header := ParseHeader(bytesFromTunnel);
            if !IsValidMessageType(header.code) {
              bytesFromTunnel := [];
              LastRound(State());
              break;
            }
            bytesFromTunnel := bytesFromTunnel[HEADER_SIZE..];
            currentConnId, currentType := header.connId, TypeOf(header.code);
            waitForPayload := header.length;
            waitForHeader := false;
            if header.length == 0 {
              reconstructedMessages := reconstructedMessages + [TunnelMessage(header.connId, TypeOf(header.code), [])];
              waitForHeader := true;
            }
            assert State() == AfterHeader(here);
          } else {
            LastRound(here);
            break;
          }
        } else {
          if |bytesFromTunnel| >= waitForPayload {
            PayloadRound(here);
            var msg := TunnelMessage(currentConnId, currentType, bytesFromTunnel[..waitForPayload]);
            bytesFromTunnel := bytesFromTunnel[waitForPayload..];
            reconstructedMessages := reconstructedMessages + [msg];
            waitForHeader := true;
            waitForPayload := 0;
            assert State() == AfterPayload(here);
          } else {
            LastRound(here);
            break;
          }
        }
      }
      LastRound(State());
    }

    function HasMessages(): bool
      reads this
    {
      reconstructedMessages != []
    }

    function FrontMessage(): Message
      requires HasMessages()
      reads this
    {
      reconstructedMessages[0]
    }

    method PopMessage()
      requires HasMessages()
      modifies this`reconstructedMessages
      ensures reconstructedMessages == old(reconstructedMessages)[1..]
    {
      reconstructedMessages := reconstructedMessages[1..];
    }
  }
}
