/** The packets a device puts on the bulk endpoint, and the byte stream each of
    its connections carries. Offsets and byte streams are unbounded: the code only
    ever sees them through the wrapping fields txSeq and seqNo. */
module Packets {
  import opened Wrapping

  const USB_MRU: nat := 49152

  /** What handle_input tells apart: SYN|ACK, ACK alone, RST alone, RST with other flags, and
      all the rest. The others are not TCP: Control stands for control packets and unknown
      protocols, Short for a version or TCP packet below its minimal size, Malformed for a
      transfer that is too large or whose length field differs from its length. */
  datatype Kind = Control | Version | Short | Malformed | SynAck | Ack | Rst | RstAnd | Other

  predicate IsTcp(kind: Kind) { kind.SynAck? || kind.Ack? || kind.Rst? || kind.RstAnd? || kind.Other? }

  const TH_SYN: byte := 0x02
  const TH_RST: byte := 0x04
  const TH_ACK: byte := 0x10

  function KindOf(flags: byte): Kind {
    if flags == TH_SYN + TH_ACK then SynAck
    else if flags == TH_ACK then Ack
    else if flags == TH_RST then Rst
    else if Resets(flags) then RstAnd
    else Other
  }

  predicate Resets(flags: byte) { flags / TH_RST % 2 == 1 }

  /** The kinds decide each of the tests made on the flags: three for equality, one for the bit. */
  lemma KindsDecide(flags: byte)
    ensures KindOf(flags).SynAck? <==> flags == TH_SYN + TH_ACK
    ensures KindOf(flags).Ack? <==> flags == TH_ACK
    ensures KindOf(flags).Rst? <==> flags == TH_RST
    ensures KindOf(flags).Rst? || KindOf(flags).RstAnd? <==> Resets(flags)
  {
  }

  /** cid is the connection the device means; the code only sees the port. */
  datatype Packet = Packet(cid: nat, port: u16, txSeq: u16, kind: Kind,
                           seqNo: u32, ackNo: u32, window: u16, payload: seq<byte>)

  predicate Carries(p: Packet, c: nat) {
    p.kind.Ack? && p.cid == c
  }

  predicate Data(p: Packet, c: nat) {
    Carries(p, c) && p.payload != []
  }

  function Len(p: Packet, c: nat): nat {
    if Carries(p, c) then |p.payload| else 0
  }

  /** Bytes of connection c carried by the first i packets. */
  ghost function Off(stream: seq<Packet>, c: nat, i: nat): nat
    requires i <= |stream|
  {
    if i == 0 then 0 else Off(stream, c, i - 1) + Len(stream[i - 1], c)
  }

  ghost function Bytes(stream: seq<Packet>, c: nat, i: nat): seq<byte>
    requires i <= |stream|
  {
    if i == 0 then [] else
    Bytes(stream, c, i - 1) + (if Carries(stream[i - 1], c) then stream[i - 1].payload else [])
  }

  lemma {:induction false} OffMonotone(stream: seq<Packet>, c: nat, i: nat, j: nat)
    requires i <= j <= |stream|
    ensures Off(stream, c, i) <= Off(stream, c, j)
  {
    if i < j {
      OffMonotone(stream, c, i, j - 1);
    }
  }

  lemma {:induction false} OffStable(stream: seq<Packet>, more: seq<Packet>, c: nat, i: nat)
    requires i <= |stream|
    ensures Off(stream + more, c, i) == Off(stream, c, i)
    ensures Bytes(stream + more, c, i) == Bytes(stream, c, i)
  {
    if i > 0 {
      OffStable(stream, more, c, i - 1);
      assert (stream + more)[i - 1] == stream[i - 1];
    }
  }

  lemma {:induction false} BytesLength(stream: seq<Packet>, c: nat, i: nat)
    requires i <= |stream|
    ensures |Bytes(stream, c, i)| == Off(stream, c, i)
  {
    if i > 0 {
      BytesLength(stream, c, i - 1);
    }
  }

  lemma {:induction false} BytesPrefix(stream: seq<Packet>, c: nat, i: nat, j: nat)
    requires i <= j <= |stream|
    ensures Bytes(stream, c, i) <= Bytes(stream, c, j)
  {
    if i < j {
      BytesPrefix(stream, c, i, j - 1);
    }
  }

  /** Without packets for c there are no bytes for c. */
  lemma {:induction false} NothingCarried(stream: seq<Packet>, c: nat, i: nat)
    requires i <= |stream|
    requires forall j :: 0 <= j < i ==> !Carries(stream[j], c)
    ensures Off(stream, c, i) == 0 && Bytes(stream, c, i) == []
  {
    if i > 0 {
      NothingCarried(stream, c, i - 1);
    }
  }

  /** Every offset below Off(j) lies inside exactly one data packet before j. */
  lemma {:induction false} PacketAt(stream: seq<Packet>, c: nat, j: nat, x: nat) returns (i: nat)
    requires j <= |stream| && x < Off(stream, c, j)
    ensures i < j && Data(stream[i], c)
    ensures Off(stream, c, i) <= x < Off(stream, c, i + 1)
  {
    if Off(stream, c, j - 1) <= x {
      i := j - 1;
    } else {
      i := PacketAt(stream, c, j - 1, x);
    }
  }
}
