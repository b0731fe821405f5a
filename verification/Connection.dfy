/** One TCP connection as the receivers see it: the fields guarded by _lockStx and
    _lockClientSend, and what each critical section of TCP::handle_input and
    TCP::deconstruct does to them. The fields from established on are history:
    unbounded counts and logs the code does not keep; covered is what was admitted when acked was
    last set. held says that a sender has left
    _lockStx locked for good. broken is history: an acknowledgement was rejected after ack had
    been advanced. */
module Connection {
  import opened Wrapping
  import opened Packets

  datatype Status = Connecting | Connected | Refused | Dying

  /** An acknowledgement sent to the device, with the admitted bytes it covered. */
  datatype AckSent = AckSent(number: u32, covers: nat)

  datatype Conn = Conn(sport: u16, status: Status,
                       seqNo: u32, seqAcked: u32, ack: u32, acked: u32, inWin: u32, pktForwarded: u32,
                       canSend: nat, canClientSend: nat, stateChanges: nat, held: bool, broken: bool,
                       established: bool, base: nat, admitted: nat, forwarded: nat,
                       toClient: seq<byte>, acks: seq<AckSent>, covered: nat)

  /** How a receiver leaves a critical section. */
  datatype Turn =
    | Asleep(ticket: nat) | Forward | Finished
    | Faulted                 // thrown out because of what the packet is
    | Unanswered              // thrown out by the rejected acknowledgement of a SYN/ACK
    | Dropped                 // thrown out by the rejected acknowledgement of its payload

  /** What becomes of an acknowledgement that may be due: left to a sender that waits, accepted
      by USB, or rejected. */
  datatype AckMode = Deferred | Passed | Rejected

  function Fresh(port: u16, iss: u32): Conn {
    Conn(port, Connecting, iss, iss, 0, 0, 0, 0, 0, 0, 0, false, false, false, 0, 0, 0, [], [], 0)
  }

  function Window(field: u16): u32 { field * 256 }

  function Afterwards(p: Packet): Turn {
    if p.payload != [] then Forward else Finished
  }

  function EmitAck(k: Conn): Conn {
    k.(acked := k.ack, acks := k.acks + [AckSent(k.ack, k.admitted)], covered := k.admitted)
  }

  function SendAck(k: Conn): Conn {
    if k.acked != k.ack then EmitAck(k) else k
  }

  predicate AckDue(k: Conn) { k.acked != k.ack }

  /** acked is set before the packet is submitted. */
  function RejectAck(k: Conn): Conn { k.(acked := k.ack, covered := k.admitted) }

  function TakeNumbers(k: Conn, p: Packet): Conn {
    k.(seqNo := Wrap32(k.seqNo + 1), ack := Wrap32(p.seqNo + 1), inWin := Window(p.window),
       pktForwarded := Wrap32(p.seqNo + 1))
  }

  function Greeted(k: Conn, p: Packet): Conn {
    TakeNumbers(k, p).(established := true, base := p.seqNo + 1, admitted := 0, forwarded := 0, covered := 0)
  }

  function Handshake(k: Conn, p: Packet): Conn {
    SendAck(Greeted(k, p)).(status := Connected, stateChanges := k.stateChanges + 1)
  }

  /** The SYN carries ack without acknowledging anything; acked is set all the same. */
  function SendSyn(k: Conn): Conn { k.(acked := k.ack, covered := k.admitted) }

  /** The SYN/ACK is acknowledged at once, except when the device's first number is the last
      before the wrap: then the number to acknowledge is 0, which counts as sent with the SYN. */
  lemma GreetingAcknowledged(port: u16, iss: u32, p: Packet)
    ensures var k := SendSyn(Fresh(port, iss));
            Handshake(k, p).acks == (if p.seqNo == 0xffff_ffff then [] else [AckSent(p.seqNo + 1, 0)])
  {
    var k := SendSyn(Fresh(port, iss));
    assert p.seqNo != 0xffff_ffff ==> Wrap32(p.seqNo + 1) == p.seqNo + 1;
    assert Greeted(k, p).ack == Wrap32(p.seqNo + 1);
  }

  function Refuse(k: Conn): Conn {
    k.(status := Refused, stateChanges := k.stateChanges + 1)
  }

  function Counted(k: Conn, p: Packet): Conn {
    k.(inWin := Window(p.window), seqAcked := p.ackNo,
       ack := Wrap32(k.ack + |p.payload|), admitted := k.admitted + |p.payload|)
  }

  /** Taking the packet in, with its acknowledgement sent or left to a waiting sender. */
  function Admit(k: Conn, p: Packet, mode: AckMode): Conn {
    var k1 := Counted(k, p);
    var k2 := if p.payload != [] && !mode.Deferred? then SendAck(k1) else k1;
    k2.(canSend := k.canSend + 1)
  }

  /** The acknowledgement is rejected: ack has been advanced, and nobody is notified. */
  function AdmitUnsent(k: Conn, p: Packet): Conn {
    RejectAck(Counted(k, p)).(broken := true)
  }

  predicate AckFails(k: Conn, p: Packet, mode: AckMode) {
    mode.Rejected? && p.payload != [] && AckDue(Counted(k, p))
  }

  /** The wait test on the acknowledgement turn and what follows it, under _lockStx. */
  function AckSection(k: Conn, p: Packet, mode: AckMode): (Conn, Turn) {
    if k.ack != p.seqNo then (k, Asleep(k.canSend + 1))
    else if AckFails(k, p, mode) then (AdmitUnsent(k, p), Dropped)
    else (Admit(k, p, mode), Afterwards(p))
  }

  /** The acknowledgement of a SYN/ACK is due and rejected. */
  predicate GreetingFails(k: Conn, p: Packet, mode: AckMode) {
    k.status.Connecting? && p.kind.SynAck? && mode.Rejected? && AckDue(TakeNumbers(k, p))
  }

  /** The first section of handle_input. */
  function InputSection(k: Conn, p: Packet, mode: AckMode): (Conn, Turn) {
    match k.status
    case Connecting =>
      if GreetingFails(k, p, mode) then (RejectAck(TakeNumbers(k, p)), Unanswered)
      else if p.kind.SynAck? then (Handshake(k, p), Afterwards(p))
      else if p.kind.Rst? || p.kind.RstAnd? then (Refuse(k), Afterwards(p))
      else (k, Faulted)
    case Connected =>
      if p.kind.Ack? then AckSection(k, p, mode)
      else if p.kind.Rst? then (k, Finished)
      else (k, Afterwards(p))
    case Refused => (k, Finished)
    case Dying => (k, Finished)
  }

  lemma GreetedDue(k: Conn, p: Packet)
    ensures AckDue(Greeted(k, p)) <==> AckDue(TakeNumbers(k, p))
  {
  }

  /** A SYN/ACK whose acknowledgement was rejected leaves the connection waiting for another.
      That one connects, but counts the SYN twice and counts as acknowledged already. */
  lemma GreetedAgain(k: Conn, p: Packet, again: Packet)
    requires k.status.Connecting? && p.kind.SynAck? && k.acked != Wrap32(p.seqNo + 1)
    requires again.kind.SynAck? && again.seqNo == p.seqNo
    ensures InputSection(k, p, Rejected).0.status.Connecting?
    ensures var k' := InputSection(InputSection(k, p, Rejected).0, again, Passed).0;
            k'.status.Connected? && k'.seqNo == Wrap32(k.seqNo + 2) && k'.acks == k.acks
  {
  }

  /** The second section: hand the payload to the client at the forward turn. */
  function ForwardSection(k: Conn, p: Packet): (Conn, Turn) {
    if p.seqNo != k.pktForwarded then (k, Asleep(k.canClientSend + 1))
    else if !k.status.Connected? then (k, Finished)
    else (k.(pktForwarded := Wrap32(k.pktForwarded + |p.payload|), canClientSend := k.canClientSend + 1,
             forwarded := k.forwarded + |p.payload|, toClient := k.toClient + p.payload), Finished)
  }

  /** TCP::deconstruct under _lockStx, then under _lockClientSend. */
  function Die(k: Conn): Conn {
    k.(status := Dying, stateChanges := k.stateChanges + 1, canSend := k.canSend + 1)
  }

  function WakeForwarders(k: Conn): Conn { k.(canClientSend := k.canClientSend + 1) }

  /** A data segment of len bytes leaves on this connection. */
  function SendSegment(k: Conn, len: nat): Conn {
    EmitAck(k).(seqNo := Wrap32(k.seqNo + len))
  }

  /** The segment is rejected: it is numbered, and the lock is never released. */
  function SendRejected(k: Conn, len: nat): Conn {
    RejectAck(k).(seqNo := Wrap32(k.seqNo + len), held := true)
  }

  /** A reset or flushed data leaves, which carries ack but does not count as acknowledging. */
  function Announce(k: Conn): Conn {
    k.(acks := k.acks + [AckSent(k.ack, k.admitted)])
  }

  /** acked is the number of what is covered, and as long as nothing was rejected an
      acknowledgement sent covers it. */
  ghost predicate CoveredOk(k: Conn) {
    && k.covered <= k.admitted
    && (k.established ==> k.acked == Wrap32(k.base + k.covered))
    && (!k.broken && !k.held && k.covered > 0 ==> k.acks != [] && k.acks[|k.acks| - 1].covers >= k.covered)
  }

  /** The acknowledgements sent so far never go back and never cover more than was admitted. */
  ghost predicate AcksOk(k: Conn) {
    && (forall j :: 0 <= j < |k.acks| ==> k.acks[j].covers <= k.admitted)
    && (forall j :: 0 <= j < |k.acks| ==> k.acks[j].number == Wrap32(k.base + k.acks[j].covers))
    && (forall i, j :: 0 <= i < j < |k.acks| ==> k.acks[i].covers <= k.acks[j].covers)
  }
}
