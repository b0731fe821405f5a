/** Byte layout of mux packets: what send_packet builds and how device_data_input takes it
    apart. Multi-byte fields are in network byte order. */
module Framing {
  import opened Wrapping
  import opened Packets
  import opened Sending

  const PROTO_VERSION: u32 := 0
  const PROTO_CONTROL: u32 := 1
  const PROTO_SETUP: u32 := 2
  const PROTO_TCP: u32 := 6
  const MAGIC: u32 := 0xfeedface

  datatype TcpHeader = TcpHeader(sport: u16, dport: u16, seqNo: u32, ackNo: u32, offset: byte, flags: byte,
                                 window: u16, checksum: u16, urgent: u16)

  datatype Option<T> = None | Some(value: T)

  /** What device_data_input finds in a buffer. */
  datatype Parsed =
    | VersionIs(major: u32, minor: u32)
    | TcpInput(txSeq: u16, rxSeq: u16, header: TcpHeader, payload: seq<byte>)
    | OtherProtocol(protocol: u32)
    | TooMuchData
    | SizeMismatch
    | TooSmall

  function Put16(x: u16): (b: seq<byte>)
    ensures |b| == 2
  {
    [x / 0x100, x % 0x100]
  }

  function Put32(x: u32): (b: seq<byte>)
    ensures |b| == 4
  {
    [x / 0x100_0000, x / 0x1_0000 % 0x100, x / 0x100 % 0x100, x % 0x100]
  }

  function Get16(b: seq<byte>): u16
    requires |b| == 2
  {
    b[0] as int * 0x100 + b[1] as int
  }

  function Get32(b: seq<byte>): u32
    requires |b| == 4
  {
    b[0] as int * 0x100_0000 + b[1] as int * 0x1_0000 + b[2] as int * 0x100 + b[3] as int
  }

  lemma Get32Put(x: u32)
    ensures Get32(Put32(x)) == x
  {
    var high := x / 0x100;
    var higher := high / 0x100;
    assert x / 0x1_0000 == higher && x / 0x100_0000 == higher / 0x100;
    assert x == high * 0x100 + x % 0x100;
    assert high == higher * 0x100 + high % 0x100;
    assert higher == higher / 0x100 * 0x100 + higher % 0x100;
  }

  lemma Put32Get(b: seq<byte>)
    requires |b| == 4
    ensures Put32(Get32(b)) == b
  {
    var x := Get32(b);
    assert x / 0x100 == b[0] as int * 0x1_0000 + b[1] as int * 0x100 + b[2] as int;
    assert x / 0x1_0000 == b[0] as int * 0x100 + b[1] as int;
    assert x / 0x100_0000 == b[0];
  }

  function HeaderSize(version: int): nat { if version < 2 then 8 else 16 }

  function PutTcp(h: TcpHeader): (b: seq<byte>)
    ensures |b| == 20
  {
    Put16(h.sport) + Put16(h.dport) + Put32(h.seqNo) + Put32(h.ackNo) + [h.offset, h.flags]
    + Put16(h.window) + Put16(h.checksum) + Put16(h.urgent)
  }

  function GetTcp(b: seq<byte>): TcpHeader
    requires |b| == 20
  {
    TcpHeader(Get16(b[0..2]), Get16(b[2..4]), Get32(b[4..8]), Get32(b[8..12]), b[12], b[13],
              Get16(b[14..16]), Get16(b[16..18]), Get16(b[18..20]))
  }

  function MuxHeader(version: int, protocol: u32, length: u32, txSeq: u16, rxSeq: u16): (b: seq<byte>)
    ensures |b| == HeaderSize(version)
  {
    Put32(protocol) + Put32(length) + if version < 2 then [] else Put32(MAGIC) + Put16(txSeq) + Put16(rxSeq)
  }

  function Body(header: Option<TcpHeader>, data: seq<byte>): seq<byte> {
    (if header.Some? then PutTcp(header.value) else []) + data
  }

  function FrameLength(version: int, header: Option<TcpHeader>, data: seq<byte>): nat {
    HeaderSize(version) + (if header.Some? then 20 else 0) + |data|
  }

  /** The buffer handed to usb_send. */
  function Frame(version: int, protocol: u32, txSeq: u16, rxSeq: u16,
                 header: Option<TcpHeader>, data: seq<byte>): (b: seq<byte>)
    requires FrameLength(version, header, data) <= USB_MTU
    ensures |b| == FrameLength(version, header, data)
  {
    MuxHeader(version, protocol, FrameLength(version, header, data), txSeq, rxSeq) + Body(header, data)
  }

  /** How a nonempty received buffer is read. */
  function Parse(version: int, b: seq<byte>): Parsed {
    var at := HeaderSize(version);
    if |b| > USB_MTU then TooMuchData
    else if |b| < at then TooSmall
    else if Get32(b[4..8]) != |b| then SizeMismatch
    else if Get32(b[0..4]) == PROTO_VERSION then
      if |b| < at + 12 then TooSmall else VersionIs(Get32(b[at..at + 4]), Get32(b[at + 4..at + 8]))
    else if Get32(b[0..4]) == PROTO_TCP then
      if |b| < at + 20 then TooSmall
      else TcpInput(if version < 2 then 0 else Get16(b[12..14]), if version < 2 then 0 else Get16(b[14..16]),
                    GetTcp(b[at..at + 20]), b[at + 20..])
    else OtherProtocol(Get32(b[0..4]))
  }

  lemma Get16Put(x: u16)
    ensures Get16(Put16(x)) == x
  {
  }

  lemma TcpSlices(h: TcpHeader)
    ensures var p := PutTcp(h);
            && p[0..2] == Put16(h.sport) && p[2..4] == Put16(h.dport)
            && p[4..8] == Put32(h.seqNo) && p[8..12] == Put32(h.ackNo) && p[12] == h.offset && p[13] == h.flags
            && p[14..16] == Put16(h.window) && p[16..18] == Put16(h.checksum) && p[18..20] == Put16(h.urgent)
  {
    hide Put16, Put32;
    var p := PutTcp(h);
    assert p[0..2] == Put16(h.sport);
    assert p[2..4] == Put16(h.dport);
    assert p[4..8] == Put32(h.seqNo);
    assert p[8..12] == Put32(h.ackNo);
    assert p[14..16] == Put16(h.window);
    assert p[16..18] == Put16(h.checksum);
    assert p[18..20] == Put16(h.urgent);
  }

  lemma GetTcpPut(h: TcpHeader)
    ensures GetTcp(PutTcp(h)) == h
  {
    hide PutTcp, Put16, Put32, Get16, Get32;
    TcpSlices(h);
    Get16Put(h.sport);
    Get16Put(h.dport);
    Get32Put(h.seqNo);
    Get32Put(h.ackNo);
    Get16Put(h.window);
    Get16Put(h.checksum);
    Get16Put(h.urgent);
  }

  lemma Put16Get(b: seq<byte>)
    requires |b| == 2
    ensures Put16(Get16(b)) == b
  {
  }

  lemma PutTcpGet(b: seq<byte>)
    requires |b| == 20
    ensures PutTcp(GetTcp(b)) == b
  {
    Put16Get(b[0..2]);
    Put16Get(b[2..4]);
    Put16Get(b[14..16]);
    Put16Get(b[16..18]);
    Put16Get(b[18..20]);
    Put32Get(b[4..8]);
    Put32Get(b[8..12]);
    hide Put16, Put32, Get16, Get32;
    assert b == b[0..2] + b[2..4] + b[4..8] + b[8..12] + [b[12], b[13]] + b[14..16] + b[16..18] + b[18..20];
  }

  lemma MuxHeaderFields(version: int, protocol: u32, length: u32, txSeq: u16, rxSeq: u16)
    ensures var b := MuxHeader(version, protocol, length, txSeq, rxSeq);
            && Get32(b[0..4]) == protocol && Get32(b[4..8]) == length
            && (version >= 2 ==> Get32(b[8..12]) == MAGIC && Get16(b[12..14]) == txSeq && Get16(b[14..16]) == rxSeq)
  {
    hide Put16, Put32, Get16, Get32;
    var b := MuxHeader(version, protocol, length, txSeq, rxSeq);
    assert b[0..4] == Put32(protocol) && b[4..8] == Put32(length);
    Get32Put(protocol);
    Get32Put(length);
    if version >= 2 {
      assert b[8..12] == Put32(MAGIC) && b[12..14] == Put16(txSeq) && b[14..16] == Put16(rxSeq);
      Get32Put(MAGIC);
      Get16Put(txSeq);
      Get16Put(rxSeq);
    }
  }

  /** A version 2 header is the one made from its fields exactly if its magic number is right. */
  lemma MuxHeaderFromFields(version: int, h: seq<byte>)
    requires |h| == HeaderSize(version)
    ensures version < 2 || Get32(h[8..12]) == MAGIC <==>
            h == MuxHeader(version, Get32(h[0..4]), Get32(h[4..8]),
                           if version < 2 then 0 else Get16(h[12..14]), if version < 2 then 0 else Get16(h[14..16]))
  {
    Put32Get(h[0..4]);
    Put32Get(h[4..8]);
    if version >= 2 {
      Put32Get(h[8..12]);
      MuxHeaderFields(version, Get32(h[0..4]), Get32(h[4..8]), Get16(h[12..14]), Get16(h[14..16]));
      assert h == h[0..4] + h[4..8] + h[8..12] + h[12..14] + h[14..16];
    } else {
      assert h == h[0..4] + h[4..8];
    }
  }

  /** Slices of a header survive what follows it. */
  lemma InHead(head: seq<byte>, rest: seq<byte>, lo: nat, hi: nat)
    requires lo <= hi <= |head|
    ensures (head + rest)[lo..hi] == head[lo..hi]
  {
  }

  /** Any TCP header with any payload up to TCP_MTU fits the USB transfer, passes the
      receiver's checks and is read back unchanged, for both protocol versions. */
  lemma FrameRoundTrip(version: int, txSeq: u16, rxSeq: u16, header: TcpHeader, payload: seq<byte>)
    requires |payload| <= TCP_MTU
    ensures FrameLength(version, Some(header), payload) <= USB_MTU
    ensures Parse(version, Frame(version, PROTO_TCP, txSeq, rxSeq, Some(header), payload))
         == TcpInput(if version < 2 then 0 else txSeq, if version < 2 then 0 else rxSeq, header, payload)
  {
    hide Put16, Put32, Get16, Get32;
    var length := FrameLength(version, Some(header), payload);
    var head := MuxHeader(version, PROTO_TCP, length, txSeq, rxSeq);
    var body := Body(Some(header), payload);
    var b := head + body;
    var at := HeaderSize(version);
    MuxHeaderFields(version, PROTO_TCP, length, txSeq, rxSeq);
    InHead(head, body, 0, 4);
    InHead(head, body, 4, 8);
    if version >= 2 {
      InHead(head, body, 12, 14);
      InHead(head, body, 14, 16);
    }
    assert b[at..at + 20] == PutTcp(header) && b[at + 20..] == payload;
    GetTcpPut(header);
    hide MuxHeader, PutTcp, GetTcp, Get16, Get32;
    assert b == Frame(version, PROTO_TCP, txSeq, rxSeq, Some(header), payload);
  }

  /** The other way round: a buffer accepted as a TCP packet is the frame of what was read
      from it exactly if a version 2 buffer carries the magic number, which nobody checks. */
  lemma ParseRoundTrip(version: int, b: seq<byte>)
    requires Parse(version, b).TcpInput?
    ensures HeaderSize(version) + 20 <= |b| == FrameLength(version, Some(Parse(version, b).header), Parse(version, b).payload) <= USB_MTU
    ensures version < 2 || Get32(b[8..12]) == MAGIC <==>
            b == Frame(version, PROTO_TCP, Parse(version, b).txSeq, Parse(version, b).rxSeq,
                       Some(Parse(version, b).header), Parse(version, b).payload)
  {
    var p := Parse(version, b);
    var at := HeaderSize(version);
    var head, rest := b[..at], b[at..];
    assert b == head + rest;
    InHead(head, rest, 0, 4);
    InHead(head, rest, 4, 8);
    if version >= 2 {
      InHead(head, rest, 8, 12);
      InHead(head, rest, 12, 14);
      InHead(head, rest, 14, 16);
    }
    MuxHeaderFromFields(version, head);
    PutTcpGet(b[at..at + 20]);
    assert rest == b[at..at + 20] + b[at + 20..];
    hide MuxHeader, PutTcp, GetTcp, Get16, Get32;
    var made := MuxHeader(version, PROTO_TCP, |b|, p.txSeq, p.rxSeq);
    assert Frame(version, PROTO_TCP, p.txSeq, p.rxSeq, Some(p.header), p.payload) == made + rest;
    assert (made + rest)[..at] == made && (head + rest)[..at] == head;
  }

  /** ---- The bytes on the wire ---- */

  /** The number a field stands for, most significant byte first. */
  function Number(b: seq<byte>): nat {
    if b == [] then 0 else 0x100 * Number(b[..|b| - 1]) + b[|b| - 1]
  }

  lemma Number2(b: seq<byte>)
    requires |b| == 2
    ensures Number(b) == b[0] as int * 0x100 + b[1] as int
  {
    assert |b[..1]| == 1 && b[..1][..0] == [] && Number([]) == 0;
    assert Number(b[..1]) == b[..1][0] == b[0];
  }

  lemma Number4(b: seq<byte>)
    requires |b| == 4
    ensures Number(b) == b[0] as int * 0x100_0000 + b[1] as int * 0x1_0000 + b[2] as int * 0x100 + b[3] as int
  {
    Number2(b[..2]);
    assert b[..3][..2] == b[..2];
  }

  lemma GetIsNumber(b: seq<byte>)
    ensures |b| == 2 ==> Get16(b) == Number(b)
    ensures |b| == 4 ==> Get32(b) == Number(b)
  {
    if |b| == 2 {
      Number2(b);
    }
    if |b| == 4 {
      Number4(b);
    }
  }

  lemma Number16(x: u16)
    ensures Number(Put16(x)) == x
  {
    Get16Put(x);
    GetIsNumber(Put16(x));
  }

  lemma Number32(x: u32)
    ensures Number(Put32(x)) == x
  {
    Get32Put(x);
    GetIsNumber(Put32(x));
  }

  /** The fields of a TCP header lie where section 3.1 of RFC 9293 puts them. */
  lemma TcpLayout(h: TcpHeader)
    ensures var p := PutTcp(h);
            && Number(p[0..2]) == h.sport && Number(p[2..4]) == h.dport
            && Number(p[4..8]) == h.seqNo && Number(p[8..12]) == h.ackNo && p[12] == h.offset && p[13] == h.flags
            && Number(p[14..16]) == h.window && Number(p[16..18]) == h.checksum && Number(p[18..20]) == h.urgent
  {
    TcpSlices(h);
    Number16(h.sport);
    Number16(h.dport);
    Number32(h.seqNo);
    Number32(h.ackNo);
    Number16(h.window);
    Number16(h.checksum);
    Number16(h.urgent);
    hide PutTcp, Put16, Put32, Number;
  }

  /** A frame starts with its protocol and its length; version 2 adds the magic number and both
      sequence numbers; then come the TCP header, if any, and the data. */
  lemma FrameLayout(version: int, protocol: u32, txSeq: u16, rxSeq: u16, header: Option<TcpHeader>, data: seq<byte>)
    requires FrameLength(version, header, data) <= USB_MTU
    ensures var b := Frame(version, protocol, txSeq, rxSeq, header, data);
            var at := if version < 2 then 8 else 16;
            && Number(b[0..4]) == protocol && Number(b[4..8]) == |b|
            && (version >= 2 ==> Number(b[8..12]) == 0xfeedface && Number(b[12..14]) == txSeq && Number(b[14..16]) == rxSeq)
            && b[at..] == (if header.Some? then PutTcp(header.value) else []) + data
  {
    var length := FrameLength(version, header, data);
    var head, body := MuxHeader(version, protocol, length, txSeq, rxSeq), Body(header, data);
    MuxHeaderFields(version, protocol, length, txSeq, rxSeq);
    FieldsAreNumbers(version, head);
    hide Put16, Put32, Get16, Get32, GetTcp, PutTcp, Number, MuxHeader;
    InHead(head, body, 0, 4);
    InHead(head, body, 4, 8);
    if version >= 2 {
      InHead(head, body, 8, 12);
      InHead(head, body, 12, 14);
      InHead(head, body, 14, 16);
    }
    assert Frame(version, protocol, txSeq, rxSeq, header, data) == head + body;
  }

  lemma FieldsAreNumbers(version: int, b: seq<byte>)
    requires |b| >= HeaderSize(version)
    ensures Get32(b[0..4]) == Number(b[0..4]) && Get32(b[4..8]) == Number(b[4..8])
    ensures version >= 2 ==> Get32(b[8..12]) == Number(b[8..12]) && Get16(b[12..14]) == Number(b[12..14])
                             && Get16(b[14..16]) == Number(b[14..16])
  {
    hide Number, Get16, Get32;
    GetIsNumber(b[0..4]);
    GetIsNumber(b[4..8]);
    if version >= 2 {
      GetIsNumber(b[8..12]);
      GetIsNumber(b[12..14]);
      GetIsNumber(b[14..16]);
    }
  }

  /** The first packet of version 2: protocol 2, number 0, and one byte of data. */
  lemma SetupBytes()
    ensures FrameLength(2, None, [7]) <= USB_MTU
    ensures Frame(2, PROTO_SETUP, 0, 0xffff, None, [7])
         == [0, 0, 0, 2, 0, 0, 0, 17, 0xfe, 0xed, 0xfa, 0xce, 0, 0, 0xff, 0xff, 7]
  {
  }

  /** The first packet to a device: protocol 0 under a version 1 header, asking for version 2.0. */
  lemma VersionBytes(version: int)
    requires version < 2
    ensures FrameLength(version, None, Put32(2) + Put32(0) + Put32(0)) <= USB_MTU
    ensures Frame(version, PROTO_VERSION, 0, 0, None, Put32(2) + Put32(0) + Put32(0))
         == [0, 0, 0, 0, 0, 0, 0, 20, 0, 0, 0, 2, 0, 0, 0, 0, 0, 0, 0, 0]
  {
  }

  /** What is read from a buffer, by the places of its fields. */
  lemma ParseByPlace(version: int, b: seq<byte>)
    requires |b| >= HeaderSize(version)
    ensures var at := if version < 2 then 8 else 16;
            var whole := |b| <= USB_MTU && Number(b[4..8]) == |b|;
            var protocol := Number(b[0..4]);
            && (whole <==> Parse(version, b) != TooMuchData && Parse(version, b) != SizeMismatch)
            && (whole && protocol == 0 && |b| >= at + 12 ==>
                  && Parse(version, b).VersionIs?
                  && Parse(version, b).major == Number(b[at..at + 4]) && Parse(version, b).minor == Number(b[at + 4..at + 8]))
            && (whole && protocol == 6 && |b| >= at + 20 ==>
                  && Parse(version, b).TcpInput? && PutTcp(Parse(version, b).header) == b[at..at + 20]
                  && Parse(version, b).payload == b[at + 20..]
                  && (version >= 2 ==> Parse(version, b).txSeq == Number(b[12..14]) && Parse(version, b).rxSeq == Number(b[14..16])))
            && (whole && ((protocol == 0 && |b| < at + 12) || (protocol == 6 && |b| < at + 20)) ==> Parse(version, b) == TooSmall)
            && (whole && protocol != 0 && protocol != 6 ==>
                  Parse(version, b).OtherProtocol? && Parse(version, b).protocol == protocol)
  {
    hide Number, Get16, Get32, PutTcp, GetTcp;
    var at := HeaderSize(version);
    FieldsAreNumbers(version, b);
    if |b| >= at + 12 {
      GetIsNumber(b[at..at + 4]);
      GetIsNumber(b[at + 4..at + 8]);
    }
    if |b| >= at + 20 {
      PutTcpGet(b[at..at + 20]);
    }
  }

  /** A framed version packet is read as the major and minor version in its data. */
  lemma VersionRoundTrip(version: int, txSeq: u16, rxSeq: u16, major: u32, minor: u32, padding: u32)
    ensures var data := Put32(major) + Put32(minor) + Put32(padding);
            && FrameLength(version, None, data) <= USB_MTU
            && Parse(version, Frame(version, PROTO_VERSION, txSeq, rxSeq, None, data)) == VersionIs(major, minor)
  {
    var data := Put32(major) + Put32(minor) + Put32(padding);
    var at := HeaderSize(version);
    var b := Frame(version, PROTO_VERSION, txSeq, rxSeq, None, data);
    FrameLayout(version, PROTO_VERSION, txSeq, rxSeq, None, data);
    Number32(major);
    Number32(minor);
    hide Put16, Put32, Get16, Get32, Number, Frame, MuxHeader;
    assert b[at..at + 4] == b[at..][..4] == Put32(major);
    assert b[at + 4..at + 8] == b[at..][4..8] == Put32(minor);
    ParseByPlace(version, b);
  }

  /** ---- Segments ---- */

  const TH_FIN: byte := 0x01
  function FlagByte(flag: Flag): byte {
    match flag
    case SynFlag => TH_SYN
    case AckFlag => TH_ACK
    case RstFlag => TH_RST
    case AckFinFlag => TH_ACK + TH_FIN
  }

  /** The header a connection puts in front of a segment: five words, no checksum. */
  function HeaderOf(g: Segment): TcpHeader {
    TcpHeader(g.sport, g.dport, g.seqNo, g.ackNo, 0x50, FlagByte(g.flag), g.window, 0, 0)
  }

  /** The other side reads a segment as it was emitted. */
  lemma SegmentArrives(version: int, txSeq: u16, rxSeq: u16, g: Segment)
    requires |g.payload| <= TCP_MTU
    ensures FrameLength(version, Some(HeaderOf(g)), g.payload) <= USB_MTU
    ensures var p := Parse(version, Frame(version, PROTO_TCP, txSeq, rxSeq, Some(HeaderOf(g)), g.payload));
            && p.TcpInput? && p.payload == g.payload
            && p.header.sport == g.sport && p.header.dport == g.dport
            && p.header.seqNo == g.seqNo && p.header.ackNo == g.ackNo && p.header.window == g.window
            && (g.flag.SynFlag? <==> p.header.flags == 0x02) && (g.flag.RstFlag? <==> p.header.flags == 0x04)
            && (g.flag.AckFlag? <==> p.header.flags == 0x10) && (g.flag.AckFinFlag? <==> p.header.flags == 0x11)
  {
    hide Frame, Parse;
    FrameRoundTrip(version, txSeq, rxSeq, HeaderOf(g), g.payload);
  }

  /** TCP_MTU is the largest multiple of 256 whose segments fit a transfer in version 2. */
  lemma MtuIsLargest(header: TcpHeader, payload: seq<byte>)
    ensures TCP_MTU % 0x100 == 0
    ensures |payload| % 0x100 == 0 ==> (FrameLength(2, Some(header), payload) <= USB_MTU <==> |payload| <= TCP_MTU)
  {
  }
}
