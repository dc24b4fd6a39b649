/**
 The tunnel's wire format: an 8-byte big-endian header (connection id, payload length, type)
 followed by the payload, and the one-shot parser of a whole byte stream.
 */
module Protocol {

  type byte = x: int | 0 <= x < 0x100
  type uint16 = x: int | 0 <= x < 0x1_0000
  type ConnId = x: int | 0 <= x < 0x1_0000_0000

  const HEADER_SIZE := 8

  datatype MessageType = UdpPacket | TcpOpen | TcpData | TcpClose

  function TypeCode(t: MessageType): uint16 {
    match t
    case UdpPacket => 1
    case TcpOpen => 2
    case TcpData => 3
    case TcpClose => 4
  }

  predicate IsValidMessageType(code: uint16) {
    TypeCode(UdpPacket) <= code <= TypeCode(TcpClose)
  }

  function TypeOf(code: uint16): (t: MessageType)
    requires IsValidMessageType(code)
    ensures TypeCode(t) == code
  {
    if code == 1 then UdpPacket else if code == 2 then TcpOpen else if code == 3 then TcpData else TcpClose
  }

  datatype Header = Header(connId: ConnId, length: uint16, code: uint16)

  /** How many values n bytes can have. */
  function Range(n: nat): (r: nat)
    ensures r >= 1
  {
    if n == 0 then 1 else 0x100 * Range(n - 1)
  }

  /** The low n bytes of x, the most significant first: htonl and htons. */
  function BigEndian(x: nat, n: nat): (s: seq<byte>)
    ensures |s| == n
  {
    if n == 0 then [] else BigEndian(x / 0x100, n - 1) + [x % 0x100]
  }

  /** ntohl and ntohs. */
  function Value(s: seq<byte>): (v: nat)
    ensures v < Range(|s|)
  {
    if s == [] then 0 else Value(s[..|s| - 1]) * 0x100 + s[|s| - 1]
  }

  lemma {:induction false} ValueOfBigEndian(x: nat, n: nat)
    requires x < Range(n)
    ensures Value(BigEndian(x, n)) == x
  {
    if n > 0 {
      ValueOfBigEndian(x / 0x100, n - 1);
      assert BigEndian(x, n)[..n - 1] == BigEndian(x / 0x100, n - 1);
    }
  }

  lemma {:induction false} BigEndianOfValue(s: seq<byte>)
    ensures BigEndian(Value(s), |s|) == s
  {
    if s != [] {
      BigEndianOfValue(s[..|s| - 1]);
      assert Value(s) / 0x100 == Value(s[..|s| - 1]) && Value(s) % 0x100 == s[|s| - 1];
    }
  }

  lemma Ranges()
    ensures Range(2) == 0x1_0000 && Range(4) == 0x1_0000_0000
  {
    assert Range(2) == 0x1_0000;
  }

  function CreateHeader(h: Header): (s: seq<byte>)
    ensures |s| == HEADER_SIZE
  {
    BigEndian(h.connId, 4) + BigEndian(h.length, 2) + BigEndian(h.code, 2)
  }

  function ParseHeader(s: seq<byte>): Header
    requires |s| >= HEADER_SIZE
  {
    Ranges();
    Header(Value(s[..4]), Value(s[4..6]), Value(s[6..8]))
  }

  /** Header encoding and decoding are mutually inverse, for every id, length and type code. */
  lemma HeaderRoundTrip(h: Header, t: seq<byte>)
    ensures ParseHeader(CreateHeader(h) + t) == h
  {
    var s := CreateHeader(h) + t;
    assert s[..4] == BigEndian(h.connId, 4) && s[4..6] == BigEndian(h.length, 2) && s[6..8] == BigEndian(h.code, 2);
    Ranges();
    ValueOfBigEndian(h.connId, 4);
    ValueOfBigEndian(h.length, 2);
    ValueOfBigEndian(h.code, 2);
  }

  lemma HeaderInverse(s: seq<byte>)
    requires |s| >= HEADER_SIZE
    ensures CreateHeader(ParseHeader(s)) == s[..HEADER_SIZE]
  {
    BigEndianOfValue(s[..4]);
    BigEndianOfValue(s[4..6]);
    BigEndianOfValue(s[6..8]);
    assert s[..HEADER_SIZE] == s[..4] + s[4..6] + s[6..8];
  }

  /** The eight bytes, one by one: id, length and type, each with its most significant byte first. */
  lemma HeaderBytes(h: Header)
    ensures var s := CreateHeader(h);
            && s[0] == h.connId / 0x100_0000 && s[1] == h.connId / 0x1_0000 % 0x100
            && s[2] == h.connId / 0x100 % 0x100 && s[3] == h.connId % 0x100
            && s[4] == h.length / 0x100 && s[5] == h.length % 0x100
            && s[6] == h.code / 0x100 && s[7] == h.code % 0x100
  {
    TwoBytes(h.length);
    TwoBytes(h.code);
    FourBytes(h.connId);
  }

  lemma TwoBytes(x: uint16)
    ensures BigEndian(x, 2) == [x / 0x100, x % 0x100]
  {
    assert BigEndian(x / 0x100, 1) == [x / 0x100];
  }

  lemma FourBytes(x: ConnId)
    ensures BigEndian(x, 4) == [x / 0x100_0000, x / 0x1_0000 % 0x100, x / 0x100 % 0x100, x % 0x100]
  {
    assert x / 0x100 / 0x100 == x / 0x1_0000 && x / 0x1_0000 / 0x100 == x / 0x100_0000;
    TwoBytes(x / 0x1_0000);
    assert BigEndian(x / 0x100, 3) == BigEndian(x / 0x1_0000, 2) + [x / 0x100 % 0x100];
  }

  // ---------- messages ----------

  datatype TunnelMessage = TunnelMessage(connId: ConnId, mtype: MessageType, payload: seq<byte>)

  /** Messages whose payload length fits the 16-bit length field. */
  type Message = m: TunnelMessage | |m.payload| < 0x1_0000 witness TunnelMessage(0, UdpPacket, [])

  function HeaderOf(m: Message): Header {
    Header(m.connId, |m.payload|, TypeCode(m.mtype))
  }

  function Encode(m: Message): (s: seq<byte>)
    ensures |s| == HEADER_SIZE + |m.payload|
  {
    CreateHeader(HeaderOf(m)) + m.payload
  }

  /** A frame, byte by byte: the header's fields, and the payload as it is. */
  lemma FrameBytes(m: Message)
    ensures var s := Encode(m);
            && s[0] == m.connId / 0x100_0000 && s[1] == m.connId / 0x1_0000 % 0x100
            && s[2] == m.connId / 0x100 % 0x100 && s[3] == m.connId % 0x100
            && s[4] == |m.payload| / 0x100 && s[5] == |m.payload| % 0x100 && s[6] == 0
            && s[7] == (match m.mtype case UdpPacket => 1 case TcpOpen => 2 case TcpData => 3 case TcpClose => 4)
            && s[HEADER_SIZE..] == m.payload
  {
    HeaderBytes(HeaderOf(m));
    hide CreateHeader;
  }

  function EncodeAll(ms: seq<Message>): seq<byte> {
    if ms == [] then [] else Encode(ms[0]) + EncodeAll(ms[1..])
  }

  lemma {:induction false} EncodeAllConcat(a: seq<Message>, b: seq<Message>)
    ensures EncodeAll(a + b) == EncodeAll(a) + EncodeAll(b)
    decreases |a|
  {
    if a == [] {
      assert a + b == b;
    } else {
      EncodeAllConcat(a[1..], b);
      assert (a + b)[1..] == a[1..] + b;
    }
  }

  lemma EncodeAllSnoc(a: seq<Message>, m: Message)
    ensures EncodeAll(a + [m]) == EncodeAll(a) + Encode(m)
  {
    EncodeAllConcat(a, [m]);
    assert Encode(m) + EncodeAll([]) == Encode(m);
    assert [m][1..] == [];
  }

  // ---------- the one-shot parser ----------

  /** The messages of a stream, what is left after them, and whether the leftover starts with an invalid header. */
  datatype Parsed = Parsed(msgs: seq<Message>, rest: seq<byte>, bad: bool)

  function Cons(m: Message, p: Parsed): Parsed {
    p.(msgs := [m] + p.msgs)
  }

  /** A complete header whose type is not one of the four. */
  predicate BadHeader(s: seq<byte>) {
    |s| >= HEADER_SIZE && !IsValidMessageType(ParseHeader(s).code)
  }

  function FrameSize(s: seq<byte>): (n: nat)
    requires |s| >= HEADER_SIZE
    ensures n >= HEADER_SIZE
  {
    HEADER_SIZE + ParseHeader(s).length
  }

  /** s starts with a complete frame of a valid type. */
  predicate HasFrame(s: seq<byte>) {
    |s| >= HEADER_SIZE && !BadHeader(s) && |s| >= FrameSize(s)
  }

  function FirstMessage(s: seq<byte>): Message
    requires HasFrame(s)
  {
    var h := ParseHeader(s);
    TunnelMessage(h.connId, TypeOf(h.code), s[HEADER_SIZE..FrameSize(s)])
  }

  function Parse(s: seq<byte>): Parsed
    decreases |s|
  {
    if HasFrame(s) then Cons(FirstMessage(s), Parse(s[FrameSize(s)..]))
    else Parsed([], s, BadHeader(s))
  }

  /** A stream that holds no complete message and no invalid header: a frame cut short. */
  predicate Incomplete(s: seq<byte>) {
    !HasFrame(s) && !BadHeader(s)
  }

  /** A frame at the start of a stream is recognised from its own bytes alone. */
  lemma FirstFrame(m: Message, t: seq<byte>)
    ensures var s := Encode(m) + t; HasFrame(s) && FirstMessage(s) == m && FrameSize(s) == |Encode(m)|
  {
    var s := Encode(m) + t;
    assert s == CreateHeader(HeaderOf(m)) + (m.payload + t);
    HeaderRoundTrip(HeaderOf(m), m.payload + t);
    assert s[HEADER_SIZE..HEADER_SIZE + |m.payload|] == m.payload;
  }

  lemma FrameIsEncoding(s: seq<byte>)
    requires HasFrame(s)
    ensures Encode(FirstMessage(s)) == s[..FrameSize(s)]
  {
    HeaderInverse(s);
  }

  lemma HeaderOfConcat(a: seq<byte>, b: seq<byte>)
    requires |a| >= HEADER_SIZE
    ensures ParseHeader(a + b) == ParseHeader(a)
  {
    assert (a + b)[..4] == a[..4] && (a + b)[4..6] == a[4..6] && (a + b)[6..8] == a[6..8];
  }

  lemma ParseFrame(m: Message, t: seq<byte>)
    ensures Parse(Encode(m) + t) == Cons(m, Parse(t))
  {
    FirstFrame(m, t);
    assert (Encode(m) + t)[|Encode(m)|..] == t;
  }

  /** Bytes are conserved: the messages found, re-encoded, and the leftover are the stream itself. */
  lemma {:induction false} ParseConserves(s: seq<byte>)
    ensures EncodeAll(Parse(s).msgs) + Parse(s).rest == s
    decreases |s|
  {
    hide ParseHeader, FirstMessage, Encode;
    if HasFrame(s) {
      var t := s[FrameSize(s)..];
      ParseConserves(t);
      FrameIsEncoding(s);
      assert Parse(s).msgs[1..] == Parse(t).msgs;
    }
  }

  /** What is left over never holds a complete message. */
  lemma {:induction false} ParseMaximal(s: seq<byte>)
    ensures var p := Parse(s); !HasFrame(p.rest) && (p.bad <==> BadHeader(p.rest))
    decreases |s|
  {
    if HasFrame(s) {
      ParseMaximal(s[FrameSize(s)..]);
    }
  }

  /** More bytes behind it do not change the first frame, nor a bad header. */
  lemma FrameOfConcat(a: seq<byte>, b: seq<byte>)
    ensures HasFrame(a) ==>
              && HasFrame(a + b) && FirstMessage(a + b) == FirstMessage(a)
              && (a + b)[FrameSize(a + b)..] == a[FrameSize(a)..] + b
    ensures BadHeader(a) ==> BadHeader(a + b)
  {
    if |a| >= HEADER_SIZE {
      HeaderOfConcat(a, b);
      hide ParseHeader;
      if HasFrame(a) {
        var n := FrameSize(a);
        assert (a + b)[HEADER_SIZE..n] == a[HEADER_SIZE..n];
        assert (a + b)[n..] == a[n..] + b;
      }
    }
  }

  /** Parsing may be interrupted anywhere: the leftover of a carries over to b. */
  lemma {:induction false} ParseConcat(a: seq<byte>, b: seq<byte>)
    ensures Parse(a).bad ==> Parse(a + b).bad && Parse(a + b).msgs == Parse(a).msgs
    ensures !Parse(a).bad ==>
              var q := Parse(Parse(a).rest + b);
              Parse(a + b) == Parsed(Parse(a).msgs + q.msgs, q.rest, q.bad)
    decreases |a|
  {
    FrameOfConcat(a, b);
    hide ParseHeader, FirstMessage, BadHeader;
    if HasFrame(a) {
      ParseConcat(a[FrameSize(a)..], b);
    }
  }

  /** Whatever follows the encoding of a message list, the list itself is read back. */
  lemma {:induction false} RoundTrip(ms: seq<Message>, t: seq<byte>)
    ensures Parse(EncodeAll(ms) + t) == var p := Parse(t); p.(msgs := ms + p.msgs)
    decreases |ms|
  {
    hide HasFrame, FirstMessage, FrameSize, BadHeader, Encode, Parse;
    if ms == [] {
      assert EncodeAll(ms) + t == t;
    } else {
      RoundTrip(ms[1..], t);
      ParseFrame(ms[0], EncodeAll(ms[1..]) + t);
      assert EncodeAll(ms) + t == Encode(ms[0]) + (EncodeAll(ms[1..]) + t);
      assert [ms[0]] + ms[1..] == ms;
    }
  }

  /** A frame that stopped part-way is not a message and not an error. */
  lemma CutFrameIncomplete(m: Message, k: nat)
    requires k < |Encode(m)|
    ensures Incomplete(Encode(m)[..k])
  {
    FirstFrame(m, []);
    var s := Encode(m);
    assert s + [] == s;
    if k >= HEADER_SIZE {
      HeaderOfConcat(s[..k], s[k..]);
      assert s[..k] + s[k..] == s;
    }
  }

  /**
   The sender's stream, cut off anywhere by the receiver's reads: messages sent in full, then
   perhaps a cut frame. The receiver has read a prefix of the messages and met no invalid header.
   */
  lemma ReceivedIsPrefix(frames: seq<Message>, tail: seq<byte>, u: seq<byte>, v: seq<byte>)
    requires Incomplete(tail)
    requires u + v == EncodeAll(frames) + tail
    ensures !Parse(u).bad && Parse(u).msgs <= frames
    ensures v == [] ==> Parse(u) == Parsed(frames, tail, false)
  {
    RoundTrip(frames, tail);
    assert Parse(tail) == Parsed([], tail, false);
    hide *;
    assert frames + [] == frames;
    ParseConcat(u, v);
    assert v == [] ==> u + v == u;
  }

  /** No message list has an encoding that starts like that of an unrelated list. */
  lemma UniquelyDecodable(a: seq<Message>, b: seq<Message>)
    ensures EncodeAll(a) <= EncodeAll(b) <==> a <= b
  {
    assert Parse([]) == Parsed([], [], false);
    hide *;
    if EncodeAll(a) <= EncodeAll(b) {
      var t := EncodeAll(b)[|EncodeAll(a)|..];
      assert EncodeAll(b) == EncodeAll(a) + t;
      assert EncodeAll(b) == EncodeAll(b) + [];
      RoundTrip(a, t);
      RoundTrip(b, []);
      assert b + [] == b;
      assert a + Parse(t).msgs == b;
    }
    if a <= b {
      assert b == a + b[|a|..];
      EncodeAllConcat(a, b[|a|..]);
    }
  }

  /**
   A leftover in front of a frame: whatever the frame is, it is read as sent exactly when nothing is
   left over.
   */
  lemma LeftoverMatters(r: seq<byte>)
    requires Incomplete(r)
    ensures (forall m: Message :: Parse(r + Encode(m)).msgs == [m]) <==> r == []
  {
    var zero, one: Message := TunnelMessage(0, UdpPacket, []), TunnelMessage(0x100_0000, UdpPacket, []);
    assert Encode(zero)[0] == 0 && Encode(one)[0] == 1;
    assert Parse([]).msgs == [];
    hide Parse, Encode, Incomplete;
    if r == [] {
      forall m: Message ensures Parse(r + Encode(m)).msgs == [m] {
        ParseFrame(m, []);
        assert r + Encode(m) == Encode(m) + [];
      }
    } else if forall m: Message :: Parse(r + Encode(m)).msgs == [m] {
      FirstByteOfLeftover(r, zero);
      FirstByteOfLeftover(r, one);
    }
  }

  lemma FirstByteOfLeftover(r: seq<byte>, m: Message)
    requires r != [] && Parse(r + Encode(m)).msgs == [m]
    ensures r[0] == Encode(m)[0]
  {
    ParseConserves(r + Encode(m));
    EncodeAllSnoc([], m);
    assert [] + [m] == [m];
    assert EncodeAll([m]) == Encode(m);
    var q := Parse(r + Encode(m));
    assert (r + Encode(m))[0] == (Encode(m) + q.rest)[0];
  }
}
