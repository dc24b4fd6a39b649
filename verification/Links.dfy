/**
 One direction of one tunnel connection, seen from its sender: the frames written in full and,
 after a failed write, the piece of a frame that went out last.
 */
module Links {
  import opened Protocol
  import opened Reassembly

  datatype Link = Link(frames: seq<Message>, tail: seq<byte>, ok: bool)

  const FRESH_LINK := Link([], [], true)
  const NO_LINK := Link([], [], false)

  /** The bytes the receiver can get to see. */
  function Bytes(l: Link): seq<byte> {
    EncodeAll(l.frames) + l.tail
  }

  predicate Valid(l: Link) {
    Incomplete(l.tail) && (l.ok ==> l.tail == [])
  }

  /** sendTunnelMessage when the system accepts k bytes of the frame; after a failure it accepts none. */
  function Transmit(l: Link, m: Message, k: nat): Link {
    if !l.ok then l
    else if k >= |Encode(m)| then l.(frames := l.frames + [m])
    else Link(l.frames, Encode(m)[..k], false)
  }

  /** Transmit appends what was accepted to the stream, and the outcome is visible in ok. */
  lemma TransmitBytes(l: Link, m: Message, k: nat)
    requires Valid(l)
    ensures Valid(Transmit(l, m, k))
    ensures l.ok && k <= |Encode(m)| ==> Bytes(Transmit(l, m, k)) == Bytes(l) + Encode(m)[..k]
    ensures Bytes(l) <= Bytes(Transmit(l, m, k))
    ensures Transmit(l, m, k).ok <==> l.ok && k >= |Encode(m)|
  {
    EncodeAllSnoc(l.frames, m);
    if l.ok && k < |Encode(m)| {
      CutFrameIncomplete(m, k);
    }
    hide Encode, EncodeAll, Incomplete;
    if l.ok {
      assert Bytes(l) == EncodeAll(l.frames);
      if k >= |Encode(m)| {
        assert Bytes(Transmit(l, m, k)) == EncodeAll(l.frames + [m]);
        assert k == |Encode(m)| ==> Encode(m)[..k] == Encode(m);
      }
    }
  }

  function TransmitAll(l: Link, ms: seq<Message>, ks: seq<nat>): Link
    requires |ks| == |ms|
    decreases |ms|
  {
    if ms == [] then l else TransmitAll(Transmit(l, ms[0], ks[0]), ms[1..], ks[1..])
  }

  /** The messages before the first one cut short. */
  function SentInFull(ms: seq<Message>, ks: seq<nat>): seq<Message>
    requires |ks| == |ms|
    decreases |ms|
  {
    if ms == [] || ks[0] < |Encode(ms[0])| then [] else [ms[0]] + SentInFull(ms[1..], ks[1..])
  }

  lemma {:induction false} TransmitAllFrames(l: Link, ms: seq<Message>, ks: seq<nat>)
    requires |ks| == |ms| && Valid(l)
    ensures Valid(TransmitAll(l, ms, ks))
    ensures TransmitAll(l, ms, ks).frames == if l.ok then l.frames + SentInFull(ms, ks) else l.frames
    decreases |ms|
  {
    if ms != [] {
      TransmitBytes(l, ms[0], ks[0]);
      TransmitAllFrames(Transmit(l, ms[0], ks[0]), ms[1..], ks[1..]);
      hide Encode, Incomplete;
      if l.ok && ks[0] >= |Encode(ms[0])| {
        assert l.frames + [ms[0]] + SentInFull(ms[1..], ks[1..]) == l.frames + SentInFull(ms, ks);
      }
    }
  }

  /**
   Sender and receiver together: whatever is sent, wherever a send fails, and however the stream is
   cut into chunks, a fresh receiver queues exactly the messages sent in full, in order, and is left
   with the piece of the failed frame.
   */
  lemma SendReceive(ms: seq<Message>, ks: seq<nat>, chunks: seq<seq<byte>>)
    requires |ks| == |ms|
    requires Concat(chunks) == Bytes(TransmitAll(FRESH_LINK, ms, ks))
    ensures var c := CollectAll(INITIAL, chunks);
            && c.msgs == SentInFull(ms, ks) && !c.bad
            && c.parser.Residue() == TransmitAll(FRESH_LINK, ms, ks).tail
  {
    var l := TransmitAll(FRESH_LINK, ms, ks);
    TransmitAllFrames(FRESH_LINK, ms, ks);
    assert l.frames == SentInFull(ms, ks);
    ReceivedAll(l, chunks);
  }

  lemma ReceivedAll(l: Link, chunks: seq<seq<byte>>)
    requires Valid(l) && Concat(chunks) == Bytes(l)
    ensures var c := CollectAll(INITIAL, chunks);
            c.msgs == l.frames && !c.bad && c.parser.Residue() == l.tail
  {
    hide Incomplete, EncodeAll, CollectAll, Parse, Concat;
    assert Bytes(l) + [] == Bytes(l);
    ReceivedIsPrefix(l.frames, l.tail, Bytes(l), []);
    assert INITIAL.Residue() + Concat(chunks) == Bytes(l);
    GoodStream(INITIAL, chunks);
  }

  /**
   Why a failed write must be the last on its tunnel: if a later frame went out behind the piece of a
   failed one, it would be read as sent, whatever it is, exactly when that piece is empty.
   */
  lemma FailureMustLast(frames: seq<Message>, tail: seq<byte>)
    requires Incomplete(tail)
    ensures (forall m: Message :: Parse(EncodeAll(frames) + tail + Encode(m)).msgs == frames + [m]) <==> tail == []
  {
    hide *;
    LeftoverMatters(tail);
    forall m: Message
      ensures Parse(EncodeAll(frames) + tail + Encode(m)).msgs == frames + [m] <==> Parse(tail + Encode(m)).msgs == [m]
    {
      AfterFrames(frames, tail + Encode(m), m);
      assert EncodeAll(frames) + tail + Encode(m) == EncodeAll(frames) + (tail + Encode(m));
    }
  }

  lemma AfterFrames(frames: seq<Message>, t: seq<byte>, m: Message)
    ensures Parse(EncodeAll(frames) + t).msgs == frames + [m] <==> Parse(t).msgs == [m]
  {
    RoundTrip(frames, t);
    var ms := Parse(t).msgs;
    hide *;
    assert (frames + ms)[|frames|..] == ms && (frames + [m])[|frames|..] == [m];
  }
}
