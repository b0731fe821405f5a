/** From the bytes of a transfer to the packets of the state machine: what a receiver reads from a
    buffer is what was framed, and what is cut off is malformed. */
module Inputs {
  import opened Wrapping
  import opened Packets
  import opened Sending
  import opened Framing

  /** What device_data_input makes of a buffer that holds at least a header. */
  function KindIn(version: int, b: seq<byte>): Kind
    requires |b| >= HeaderSize(version)
  {
    match Parse(version, b)
    case TooMuchData => Malformed
    case SizeMismatch => Malformed
    case TooSmall => Short
    case VersionIs(_, _) => Version
    case OtherProtocol(_) => Control
    case TcpInput(_, _, header, _) => KindOf(header.flags)
  }

  /** The packet a receiver sees; cid is the connection the device means. */
  function Received(version: int, cid: nat, b: seq<byte>): Packet
    requires |b| >= HeaderSize(version)
  {
    match Parse(version, b)
    case TcpInput(txSeq, _, header, payload) =>
      Packet(cid, header.dport, txSeq, KindIn(version, b), header.seqNo, header.ackNo, header.window, payload)
    case _ => Packet(cid, 0, if version < 2 then 0 else Get16(b[12..14]), KindIn(version, b), 0, 0, 0, [])
  }

  /** A framed TCP packet is received with its port, number, flags and payload. */
  lemma ReceivedAsFramed(version: int, cid: nat, txSeq: u16, rxSeq: u16, header: TcpHeader, payload: seq<byte>)
    requires |payload| <= TCP_MTU
    ensures FrameLength(version, Some(header), payload) <= USB_MTU
    ensures Received(version, cid, Frame(version, PROTO_TCP, txSeq, rxSeq, Some(header), payload))
         == Packet(cid, header.dport, if version < 2 then 0 else txSeq, KindOf(header.flags),
                   header.seqNo, header.ackNo, header.window, payload)
  {
    hide Frame, Parse, KindOf;
    FrameRoundTrip(version, txSeq, rxSeq, header, payload);
  }

  /** Every whole version 2 frame is received under its number, whatever its protocol. */
  lemma NumberAsFramed(cid: nat, protocol: u32, txSeq: u16, rxSeq: u16, header: Option<TcpHeader>, data: seq<byte>)
    requires FrameLength(2, header, data) <= USB_MTU
    ensures Received(2, cid, Frame(2, protocol, txSeq, rxSeq, header, data)).txSeq == txSeq
  {
    var b := Frame(2, protocol, txSeq, rxSeq, header, data);
    FrameLayout(2, protocol, txSeq, rxSeq, header, data);
    FieldsAreNumbers(2, b);
    hide Frame, Number, Get16, Get32, GetTcp;
  }

  /** An acknowledgement that one side emits is received by the other as one, with its number. */
  lemma SegmentReceived(version: int, cid: nat, txSeq: u16, rxSeq: u16, g: Segment)
    requires |g.payload| <= TCP_MTU
    ensures FrameLength(version, Some(HeaderOf(g)), g.payload) <= USB_MTU
    ensures var p := Received(version, cid, Frame(version, PROTO_TCP, txSeq, rxSeq, Some(HeaderOf(g)), g.payload));
            && p.port == g.dport && p.seqNo == g.seqNo && p.ackNo == g.ackNo && p.window == g.window && p.payload == g.payload
            && (p.kind.Ack? <==> g.flag.AckFlag?) && (p.kind.Rst? <==> g.flag.RstFlag?)
            && (p.kind.Other? <==> g.flag.SynFlag? || g.flag.AckFinFlag?)
  {
    hide Frame, Parse;
    FrameRoundTrip(version, txSeq, rxSeq, HeaderOf(g), g.payload);
  }

  /** A frame of any protocol that loses its end, but not its header, is malformed. */
  lemma CutOffIsMalformed(version: int, protocol: u32, txSeq: u16, rxSeq: u16, header: Option<TcpHeader>,
                          data: seq<byte>, n: nat)
    requires FrameLength(version, header, data) <= USB_MTU && HeaderSize(version) <= n
    requires n < FrameLength(version, header, data)
    ensures KindIn(version, Frame(version, protocol, txSeq, rxSeq, header, data)[..n]) == Malformed
  {
    hide Get32, Put32, Put16, Get16, GetTcp, PutTcp;
    var length := FrameLength(version, header, data);
    var head, body := MuxHeader(version, protocol, length, txSeq, rxSeq), Body(header, data);
    MuxHeaderFields(version, protocol, length, txSeq, rxSeq);
    InHead(head, body[..n - |head|], 4, 8);
    var b := Frame(version, protocol, txSeq, rxSeq, header, data);
    assert b == head + body;
    assert b[..n] == head + body[..n - |head|];
    hide MuxHeader;
  }

  /** A whole frame that is not malformed ends a receiver only by being a version packet or too
      short for its protocol. */
  lemma FramedKinds(version: int, protocol: u32, txSeq: u16, rxSeq: u16, header: Option<TcpHeader>, data: seq<byte>)
    requires FrameLength(version, header, data) <= USB_MTU
    ensures var b := Frame(version, protocol, txSeq, rxSeq, header, data);
            var content := |b| - HeaderSize(version);
            && !KindIn(version, b).Malformed?
            && (KindIn(version, b).Short? <==> (protocol == PROTO_VERSION && content < 12) || (protocol == PROTO_TCP && content < 20))
            && (KindIn(version, b).Version? <==> protocol == PROTO_VERSION && content >= 12)
            && (IsTcp(KindIn(version, b)) <==> protocol == PROTO_TCP && content >= 20)
  {
    hide Get32, Put32, Put16, Get16, GetTcp, Body;
    var length := FrameLength(version, header, data);
    var head, body := MuxHeader(version, protocol, length, txSeq, rxSeq), Body(header, data);
    MuxHeaderFields(version, protocol, length, txSeq, rxSeq);
    InHead(head, body, 0, 4);
    InHead(head, body, 4, 8);
    assert Frame(version, protocol, txSeq, rxSeq, header, data) == head + body;
    hide MuxHeader;
  }
}
