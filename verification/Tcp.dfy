/** The connection object itself: its 32-bit fields, its ring buffer, and its methods, one
    method per critical section. The receive sections are proved equal to the functions the
    receivers' state machine is made of; the send side is proved against Sending. */
module TcpConnection {
  import opened Wrapping
  import opened Packets
  import opened Connection
  import opened Ring
  import opened Sending

  /** What may happen to the connection while its sender thread does not hold the lock: an
      acknowledgement in turn, advancing by as much as is outstanding at most, or teardown. */
  datatype Arrival = AckArrives(advance: nat, window: u16, payload: seq<byte>, mode: AckMode) | Death

  /** Blocked: the thread still waits for its event when the arrivals are exhausted. Thrown: the
      segment of n bytes was rejected, and the lock is never released. */
  datatype SendOutcome = Sent(n: nat) | Blocked | Aborted | Thrown(n: nat)

  datatype PollResult = Readable | NothingToRead | PollError

  datatype LoopOutcome = Continue | Waiting | Failed | Abandoned

  /** What a connecting client's thread may be woken by. */
  datatype Reply = PacketArrives(p: Packet, mode: AckMode) | Teardown

  datatype ConnectOutcome = Established | NotEstablished | StillWaiting | SynRejected

  /** What the reply makes of a connection. */
  function Answered(k: Conn, reply: Reply): Conn {
    match reply
    case Teardown => Die(k)
    case PacketArrives(p, mode) => InputSection(k, p, mode).0
  }

  /** What a sequence of replies makes of it. */
  function Heard(k: Conn, replies: seq<Reply>): Conn {
    if replies == [] then k else
    Answered(Heard(k, replies[..|replies| - 1]), replies[|replies| - 1])
  }

  /** SYN/ACK whose acknowledgement is not rejected, RST and teardown. */
  predicate Decisive(k: Conn, reply: Reply) {
    reply.PacketArrives? ==>
      || (reply.p.kind.SynAck? && !GreetingFails(k, reply.p, reply.mode))
      || reply.p.kind.Rst? || reply.p.kind.RstAnd?
  }

  predicate Accepts(reply: Reply) { reply.PacketArrives? && reply.p.kind.SynAck? }

  /** The first next replies contain one that decides, which is the last. */
  ghost predicate DecidedBy(k: Conn, replies: seq<Reply>, next: nat)
    requires next <= |replies|
  {
    && next > 0 && Decisive(Heard(k, replies[..next - 1]), replies[next - 1])
    && Undecided(k, replies, next - 1)
  }

  ghost predicate Undecided(k: Conn, replies: seq<Reply>, next: nat)
    requires next <= |replies|
  {
    forall j :: 0 <= j < next ==> !Decisive(Heard(k, replies[..j]), replies[j])
  }

  lemma HeardNext(k: Conn, replies: seq<Reply>, next: nat)
    requires next < |replies|
    ensures Heard(k, replies[..next + 1]) == Answered(Heard(k, replies[..next]), replies[next])
  {
    assert replies[..next + 1][..next] == replies[..next];
  }

  /** While the connection is being set up: a decisive reply notifies, SYN/ACK alone connects,
      and no other reply does either. */
  lemma AnswerEffect(k: Conn, reply: Reply)
    requires k.status.Connecting?
    ensures Answered(k, reply).stateChanges == k.stateChanges + if Decisive(k, reply) then 1 else 0
    ensures Answered(k, reply).status.Connecting? <==> !Decisive(k, reply)
    ensures Answered(k, reply).status.Connected? <==> Decisive(k, reply) && Accepts(reply)
    ensures Answered(k, reply).established <==> k.established || (Decisive(k, reply) && Accepts(reply))
    ensures Answered(k, reply).held == k.held
  {
  }

  /** What one packet does to the send side. */
  function InputView(v: SendView, k: Conn, p: Packet, mode: AckMode): SendView {
    if GreetingFails(k, p, mode) then Opened(v, Window(p.window)).(established := v.established)
    else if k.status.Connecting? && p.kind.SynAck? then Opened(v, Window(p.window))
    else if InTurn(k, p) then Acknowledge(v, p.ackNo, Window(p.window))
    else v
  }

  predicate InTurn(k: Conn, p: Packet) { k.status.Connected? && p.kind.Ack? && k.ack == p.seqNo }

  /** A packet keeps the send side good exactly if the acknowledgement number it applies is in
      order, and it is not a SYN/ACK whose acknowledgement is rejected. */
  lemma InputKeeps(v: SendView, k: Conn, p: Packet, mode: AckMode)
    requires SendOk(v) && v.established == k.established
    requires (k.status.Connecting? ==> !k.established) && (k.status.Connected? ==> k.established)
    ensures SendOk(InputView(v, k, p, mode)) <==> !GreetingFails(k, p, mode) && (InTurn(k, p) ==> InOrder(v, p.ackNo))
    ensures InputView(v, k, p, mode).established == InputSection(k, p, mode).0.established
  {
    if k.status.Connecting? {
      OpenedKeeps(v, Window(p.window));
    } else if InTurn(k, p) {
      AcknowledgeKeeps(v, p.ackNo, Window(p.window));
    }
  }

  /** The acknowledgement numbers of all segments but the SYN. */
  ghost function AckNumbers(out: seq<Segment>): seq<u32> {
    if out == [] then [] else
    var g := out[|out| - 1];
    AckNumbers(out[..|out| - 1]) + if g.flag.SynFlag? then [] else [g.ackNo]
  }

  ghost function Numbers(acks: seq<AckSent>): seq<u32> {
    if acks == [] then [] else Numbers(acks[..|acks| - 1]) + [acks[|acks| - 1].number]
  }

  lemma LogSent(out: seq<Segment>, g: Segment)
    ensures AckNumbers(out + [g]) == AckNumbers(out) + if g.flag.SynFlag? then [] else [g.ackNo]
  {
    assert (out + [g])[..|out|] == out;
  }

  lemma LogAck(acks: seq<AckSent>, a: AckSent)
    ensures Numbers(acks + [a]) == Numbers(acks) + [a.number]
  {
    assert (acks + [a])[..|acks|] == acks;
  }

  class Tcp {
    const sPort: u16
    const dPort: u16
    const payloadBuf: array<byte>
    var connState: Status
    var seqNo: u32
    var seqAcked: u32
    var ack: u32
    var acked: u32
    var inWin: u32
    var pktForwarded: u32
    var canSendEvent: nat
    var canClientSendEvent: nat
    var connStateDidChange: nat
    var held: bool  // _lockStx was left locked by an exception
    var kills: nat  // times closeConnection was called

    // history, receive direction
    ghost var established: bool
    ghost var base: nat
    ghost var admitted: nat
    ghost var forwarded: nat
    ghost var toClient: seq<byte>
    ghost var acks: seq<AckSent>
    ghost var covered: nat
    ghost var broken: bool   // an acknowledgement was rejected in its turn
    ghost var spoiled: bool  // the acknowledgement of a SYN/ACK was rejected
    // history, send direction
    ghost var iss: u32
    ghost var read: seq<byte>
    ghost var sent: nat
    ghost var acknowledged: nat
    ghost var widest: nat
    ghost var data: seq<Segment>
    ghost var ring: seq<byte>  // the contents of payloadBuf
    ghost var wakes: seq<Status>  // the state the sender read after each of its waits
    // everything sent
    ghost var out: seq<Segment>

    /** The fields the receivers share. */
    ghost function Snapshot(): Conn
      reads this`connState, this`seqNo, this`seqAcked, this`ack, this`acked, this`inWin, this`pktForwarded
      reads this`canSendEvent, this`canClientSendEvent, this`connStateDidChange, this`held, this`broken
      reads this`established, this`base, this`admitted, this`forwarded, this`toClient, this`acks, this`covered
    {
      Conn(sPort, connState, seqNo, seqAcked, ack, acked, inWin, pktForwarded,
           canSendEvent, canClientSendEvent, connStateDidChange, held, broken,
           established, base, admitted, forwarded, toClient, acks, covered)
    }

    ghost function View(): SendView
      reads this`established, this`iss, this`seqNo, this`seqAcked, this`inWin, this`read, this`sent
      reads this`acknowledged, this`widest, this`data, this`ring
    {
      SendView(established, iss, seqNo, seqAcked, inWin, read, sent, acknowledged, widest, data, ring)
    }

    /** The numbers of the send side are no longer those of the protocol once the
        acknowledgement of a SYN/ACK has been rejected. */
    ghost predicate Valid()
      reads this, payloadBuf
    {
      && payloadBuf.Length == BUFSIZE && payloadBuf[..] == ring
      && (!spoiled ==> SendOk(View())) && Logged()
    }

    /** ---- What is sent, field by field ---- */

    /** A segment of this connection, with its current acknowledgement number. */
    ghost predicate Bears(g: Segment, flag: Flag, number: u32, payload: seq<byte>)
      reads this`ack
    {
      && g.sport == sPort && g.dport == dPort && g.seqNo == number && g.ackNo == ack
      && g.flag == flag && g.window * 256 == BUFSIZE && g.payload == payload
    }

    twostate predicate SentOne(flag: Flag, number: u32, payload: seq<byte>)
      reads this`out, this`ack
    {
      && |out| == |old(out)| + 1 && out[..|old(out)|] == old(out)
      && Bears(out[|old(out)|], flag, number, payload)
    }

    twostate predicate Quiet()
      reads this`out, this`acks
    {
      out == old(out) && acks == old(acks)
    }

    /** ack counts as acknowledged, and if it did not before, an acknowledgement of it was sent. */
    twostate predicate Acknowledges()
      reads this`out, this`acks, this`acked, this`ack, this`seqNo, this`admitted
    {
      && acked == ack
      && if old(acked) == ack then Quiet()
         else SentOne(AckFlag, seqNo, []) && acks == old(acks) + [AckSent(ack, admitted)]
    }

    /** What is sent for a packet taken in its turn. */
    twostate predicate Replies(p: Packet, mode: AckMode)
      reads this`out, this`acks, this`acked, this`ack, this`seqNo, this`admitted
    {
      if p.payload == [] || mode.Deferred? then Quiet() && acked == old(acked)
      else if mode.Rejected? then Quiet() && acked == ack
      else Acknowledges()
    }

    /** What is taken from a packet in its turn. */
    twostate predicate Takes(p: Packet)
      reads this`inWin, this`seqAcked, this`ack, this`admitted
    {
      && inWin == p.window * 256 && seqAcked == p.ackNo
      && ack == (old(ack) + |p.payload|) % 0x1_0000_0000 && admitted == old(admitted) + |p.payload|
    }

    /** What is taken from a SYN/ACK. */
    twostate predicate Greets(p: Packet)
      reads this`inWin, this`seqNo, this`ack, this`pktForwarded
    {
      && inWin == p.window * 256 && seqNo == (old(seqNo) + 1) % 0x1_0000_0000
      && ack == pktForwarded == (p.seqNo + 1) % 0x1_0000_0000
    }

    /** Everything sent is of this connection, and apart from the SYN it carries, in order, the
        numbers that acks tells. */
    ghost predicate Logged()
      reads this`out, this`acks
    {
      && (forall k :: 0 <= k < |out| ==> out[k].sport == sPort && out[k].dport == dPort && out[k].window * 256 == BUFSIZE)
      && AckNumbers(out) == Numbers(acks)
    }

    /** The sender thread may take the lock. */
    ghost predicate Sendable()
      reads this, payloadBuf
    {
      Valid() && established && !spoiled && !held
    }

    constructor (sPort: u16, dPort: u16, random: u32)
      ensures Valid() && fresh(payloadBuf)
      ensures Snapshot() == Fresh(sPort, random)
      ensures this.dPort == dPort && out == [] && !spoiled && kills == 0 && wakes == []
      ensures connState == Connecting && seqNo == seqAcked == random && ack == acked == 0 && !held
    {
      this.sPort, this.dPort := sPort, dPort;
      payloadBuf := new byte[BUFSIZE](_ => 0);
      connState := Connecting;
      seqNo, seqAcked, ack, acked, inWin, pktForwarded := random, random, 0, 0, 0, 0;
      canSendEvent, canClientSendEvent, connStateDidChange, held := 0, 0, 0, false;
      broken, spoiled, kills, wakes := false, false, 0, [];
      established, base, admitted, forwarded, toClient, acks, covered := false, 0, 0, 0, [], [], 0;
      iss, read, sent, acknowledged, widest, data, out := random, [], 0, 0, 0, [], [];
      ring := seq(BUFSIZE, _ => 0);
    }

    /** The field advertised is the ring size divided by 256. */
    function Header(flag: Flag, number: u32, payload: seq<byte>): Segment
      reads this
    {
      Segment(sPort, dPort, number, ack, flag, BUFSIZE / 256, payload)
    }

    /** Only used for the SYN. */
    method SendTcp(flag: Flag, rejected: bool) returns (ok: bool)
      requires !held
      modifies this`acked, this`out, this`covered
      ensures ok <==> !rejected
      ensures if ok then SentOne(flag, seqNo, []) else out == old(out)
      ensures acked == ack && (old(Logged()) && flag.SynFlag? ==> Logged())
      ensures Snapshot() == SendSyn(old(Snapshot())) && View() == old(View())
    {
      hide AckNumbers, Numbers;
      acked, covered := ack, admitted;
      if rejected {
        return false;
      }
      LogSent(out, Header(flag, seqNo, []));
      out := out + [Header(flag, seqNo, [])];
      ok := true;
    }

    /** A rejected acknowledgement counts as sent all the same. */
    method SendAckNoLock(rejected: bool) returns (ok: bool)
      modifies this`acked, this`acks, this`covered, this`out
      ensures ok <==> !(rejected && AckDue(old(Snapshot())))
      ensures ok <==> !(rejected && old(acked) != ack)
      ensures if ok then Acknowledges() else Quiet() && acked == ack
      ensures old(Logged()) ==> Logged()
      ensures Snapshot() == if ok then SendAck(old(Snapshot())) else RejectAck(old(Snapshot()))
      ensures View() == old(View())
    {
      hide AckNumbers, Numbers;
      var doSend := acked != ack;
      if doSend {
        acked, covered := ack, admitted;
        if rejected {
          return false;
        }
        LogSent(out, Header(AckFlag, seqNo, []));
        LogAck(acks, AckSent(ack, admitted));
        acks := acks + [AckSent(ack, admitted)];
        out := out + [Header(AckFlag, seqNo, [])];
      }
      ok := true;
    }

    /** A reset, which does not count as acknowledging: send_rst and send_fin. */
    method SendRst(rejected: bool) returns (ok: bool)
      requires !held
      modifies this`acks, this`out
      ensures ok <==> !rejected
      ensures if ok then SentOne(RstFlag, seqNo, []) else Quiet()
      ensures old(Logged()) ==> Logged()
      ensures Snapshot() == (if ok then Announce(old(Snapshot())) else old(Snapshot())) && View() == old(View())
    {
      hide AckNumbers, Numbers;
      if rejected {
        return false;
      }
      LogSent(out, Header(RstFlag, seqNo, []));
      LogAck(acks, AckSent(ack, admitted));
      out := out + [Header(RstFlag, seqNo, [])];
      acks := acks + [AckSent(ack, admitted)];
      ok := true;
    }

    /** Asks the device to have the connection torn down. */
    method Kill()
      modifies this`kills
      ensures kills == old(kills) + 1 && Snapshot() == old(Snapshot()) && View() == old(View())
      ensures Quiet() && (old(Logged()) ==> Logged()) && (old(Valid()) ==> Valid())
    {
      kills := kills + 1;
    }

    /** ---- Receive sections ---- */

    method TakeAcknowledgement(p: Packet)
      modifies this`inWin, this`seqAcked, this`ack, this`admitted
      ensures Takes(p) && Snapshot() == Counted(old(Snapshot()), p)
      ensures View() == old(View()).(seqAcked := p.ackNo, inWin := Window(p.window))
    {
      inWin := p.window * 256;
      seqAcked := p.ackNo;
      ack := (ack + |p.payload|) % 0x1_0000_0000;
      admitted := admitted + |p.payload|;
    }

    /** An acknowledgement that is thrown out takes the notification with it. */
    method AnnounceAdmission(p: Packet, mode: AckMode) returns (ok: bool)
      modifies this`acked, this`acks, this`covered, this`out, this`canSendEvent, this`broken
      ensures Replies(p, mode) && canSendEvent == old(canSendEvent) + (if ok then 1 else 0)
      ensures old(Logged()) ==> Logged()
      ensures ok <==> !(mode.Rejected? && p.payload != [] && AckDue(old(Snapshot())))
      ensures ok <==> !(mode.Rejected? && p.payload != [] && old(acked) != ack)
      ensures Snapshot() == if !ok then RejectAck(old(Snapshot())).(broken := true)
                            else (if p.payload != [] && !mode.Deferred? then SendAck(old(Snapshot())) else old(Snapshot()))
                                 .(canSend := old(Snapshot()).canSend + 1)
      ensures View() == old(View())
    {
      if |p.payload| > 0 && mode != Deferred {
        ok := SendAckNoLock(mode == Rejected);
        if !ok {
          broken := true;
          return;
        }
      }
      canSendEvent := canSendEvent + 1;
      ok := true;
    }

    ghost method Acknowledged(distance: nat)
      modifies this`acknowledged
      ensures Snapshot() == old(Snapshot())
      ensures View() == old(View()).(acknowledged := old(View()).acknowledged + distance)
    {
      acknowledged := acknowledged + distance;
    }

    ghost method Widen()
      modifies this`widest
      ensures Snapshot() == old(Snapshot())
      ensures View() == old(View()).(widest := Wider(old(View()).widest, old(View()).inWin))
    {
      widest := Wider(widest, inWin);
    }

    /** The packet's turn has come: take its window and acknowledgement, count its payload. */
    method AdmitPacket(p: Packet, mode: AckMode) returns (ok: bool)
      modifies this`acknowledged, this`widest, this`inWin, this`seqAcked, this`ack, this`admitted,
               this`acked, this`acks, this`covered, this`out, this`canSendEvent, this`broken
      ensures Takes(p) && Replies(p, mode) && canSendEvent == old(canSendEvent) + (if ok then 1 else 0)
      ensures ok <==> !(mode.Rejected? && p.payload != [] && old(acked) != ack)
      ensures old(Logged()) ==> Logged()
      ensures ok <==> !AckFails(old(Snapshot()), p, mode)
      ensures Snapshot() == if ok then Admit(old(Snapshot()), p, mode) else AdmitUnsent(old(Snapshot()), p)
      ensures View() == Acknowledge(old(View()), p.ackNo, Window(p.window))
    {
      hide Snapshot, View, SendOk, SendAck, RejectAck, AckDue, Unacked, Wider, Logged, Bears;
      ghost var distance := Unacked(p.ackNo, View().seqAcked);
      TakeAcknowledgement(p);
      Acknowledged(distance);
      Widen();
      ok := AnnounceAdmission(p, mode);
    }

    /** The test at the head of the wait loop under _lockStx, and admission behind it. */
    method AckTurn(p: Packet, mode: AckMode) returns (t: Turn)
      requires !held
      modifies this
      ensures old(ack) == p.seqNo ==>
                && Takes(p) && Replies(p, mode)
                && (t.Dropped? <==> mode.Rejected? && p.payload != [] && old(acked) != ack)
                && canSendEvent == old(canSendEvent) + if t.Dropped? then 0 else 1
      ensures old(ack) != p.seqNo ==> t == Asleep(canSendEvent + 1) && Quiet() && Snapshot() == old(Snapshot())
      ensures spoiled == old(spoiled) && kills == old(kills) && wakes == old(wakes) && (old(Logged()) ==> Logged())
      ensures (Snapshot(), t) == AckSection(old(Snapshot()), p, mode)
      ensures View() == if old(ack) == p.seqNo then Acknowledge(old(View()), p.ackNo, Window(p.window)) else old(View())
    {
      hide SendOk, Admit, AdmitUnsent, AckFails, Acknowledge;
      if ack != p.seqNo {
        t := Asleep(canSendEvent + 1);
        return;
      }
      var ok := AdmitPacket(p, mode);
      if !ok {
        return Dropped;
      }
      t := if |p.payload| > 0 then Forward else Finished;
    }

    method TakeGreeting(p: Packet)
      modifies this`seqNo, this`ack, this`inWin, this`pktForwarded
      ensures Greets(p) && Snapshot() == TakeNumbers(old(Snapshot()), p)
      ensures View() == old(View()).(seqNo := Wrap32(old(View()).seqNo + 1), inWin := Window(p.window))
    {
      hide SendOk;
      seqNo := Wrap32(seqNo + 1);
      ack := Wrap32(p.seqNo + 1);
      inWin := p.window * 256;
      pktForwarded := ack;
    }

    ghost method Establish(first: nat)
      modifies this`established, this`base
      ensures Snapshot() == old(Snapshot()).(established := true, base := first)
      ensures View() == old(View()).(established := true)
    {
      established, base := true, first;
    }

    ghost method StartCounts()
      modifies this`admitted, this`forwarded, this`covered
      ensures Snapshot() == old(Snapshot()).(admitted := 0, forwarded := 0, covered := 0)
    {
      admitted, forwarded, covered := 0, 0, 0;
    }

    ghost method Spoil()
      modifies this`spoiled
      ensures spoiled && Snapshot() == old(Snapshot()) && View() == old(View())
    {
      spoiled := true;
    }

    method ChangeState(state: Status)
      modifies this`connState, this`connStateDidChange
      ensures connState == state
      ensures Snapshot() == old(Snapshot()).(status := state, stateChanges := old(Snapshot()).stateChanges + 1)
      ensures View() == old(View())
    {
      connState := state;
      connStateDidChange := connStateDidChange + 1;
    }

    /** SYN/ACK: both directions get their first number, unless the acknowledgement is to fail. */
    method OpenStreams(p: Packet, ghost fails: bool)
      modifies this`seqNo, this`ack, this`inWin, this`pktForwarded, this`widest, this`established, this`base,
               this`admitted, this`forwarded, this`covered, this`spoiled
      ensures Greets(p) && spoiled == (old(spoiled) || fails)
      ensures Snapshot() == if fails then TakeNumbers(old(Snapshot()), p) else Greeted(old(Snapshot()), p)
      ensures View() == if fails then Opened(old(View()), Window(p.window)).(established := old(View()).established)
                        else Opened(old(View()), Window(p.window))
    {
      hide Snapshot, View, SendOk, TakeNumbers;
      TakeGreeting(p);
      Widen();
      if fails {
        Spoil();
      } else {
        Establish(p.seqNo + 1);
        StartCounts();
      }
    }

    /** And the device gets its acknowledgement. If that is rejected, the numbers stay changed and
        the connection is not connected. */
    method Greet(p: Packet, mode: AckMode) returns (ok: bool)
      requires connState.Connecting? && p.kind.SynAck?
      modifies this`widest, this`seqNo, this`ack, this`inWin, this`pktForwarded, this`established, this`base,
               this`admitted, this`forwarded, this`acked, this`acks, this`covered, this`out, this`connState,
               this`connStateDidChange, this`spoiled
      ensures Greets(p) && if ok then Acknowledges() else Quiet() && acked == ack
      ensures ok <==> !(mode.Rejected? && old(acked) != ack)
      ensures old(Logged()) ==> Logged()
      ensures ok <==> !GreetingFails(old(Snapshot()), p, mode)
      ensures Snapshot() == if ok then Handshake(old(Snapshot()), p) else RejectAck(TakeNumbers(old(Snapshot()), p))
      ensures View() == InputView(old(View()), old(Snapshot()), p, mode)
      ensures spoiled == (old(spoiled) || !ok)
    {
      ghost var fails := GreetingFails(Snapshot(), p, mode);
      assert Snapshot().status.Connecting?;
      GreetedDue(Snapshot(), p);
      hide View, Snapshot, SendOk, SendAck, RejectAck, Greeted, TakeNumbers, AckDue, Logged, Bears, Opened, Wrap32;
      OpenStreams(p, fails);
      ok := SendAckNoLock(mode == Rejected);
      if !ok {
        return;
      }
      ChangeState(Connected);
    }

    /** handle_input up to the release of _lockStx (or its first wait). */
    method HandleInput(p: Packet, mode: AckMode) returns (t: Turn)
      requires !held
      modifies this
      ensures old(connState).Connected? && p.kind.Ack? && old(ack) == p.seqNo ==> Takes(p) && Replies(p, mode)
      ensures old(connState).Connecting? && p.kind.SynAck? ==>
                && Greets(p)
                && if mode.Rejected? && old(acked) != ack then connState.Connecting? && Quiet() && acked == ack
                   else connState.Connected? && Acknowledges()
      ensures old(connState).Connecting? && (p.kind.Rst? || p.kind.RstAnd?) ==> connState.Refused?
      ensures !(old(connState).Connected? && p.kind.Ack?) && !(old(connState).Connecting? && p.kind.SynAck?) ==> Quiet()
      ensures old(connState).Connected? && !p.kind.Ack? ==>
                Snapshot() == old(Snapshot()) && t == if p.kind.Rst? || p.payload == [] then Finished else Forward
      ensures old(connState).Refused? || old(connState).Dying? ==> Snapshot() == old(Snapshot()) && t == Finished
      ensures old(connState).Connecting? ==>
                && (t.Faulted? <==> !p.kind.SynAck? && !p.kind.Rst? && !p.kind.RstAnd?)
                && (t.Faulted? ==> Snapshot() == old(Snapshot()))
      ensures kills == old(kills) + if (old(connState).Connecting? && (p.kind.Rst? || p.kind.RstAnd?))
                                       || (old(connState).Connected? && p.kind.Rst?) then 1 else 0
      ensures wakes == old(wakes) && (old(Logged()) ==> Logged())
      ensures (Snapshot(), t) == InputSection(old(Snapshot()), p, mode)
      ensures View() == InputView(old(View()), old(Snapshot()), p, mode)
      ensures spoiled == (old(spoiled) || GreetingFails(old(Snapshot()), p, mode))
    {
      hide SendOk, Handshake, TakeNumbers, RejectAck, Opened, AckSection, Acknowledge;
      hide Takes, Replies, Greets, Acknowledges, Logged;
      if connState == Connecting {
        t := HandleAnswer(p, mode);
        return;
      } else if connState == Connected {
        if p.kind == Ack {
          t := AckTurn(p, mode);
          return;
        } else if p.kind == Rst {
          Kill();
          t := Finished;
          return;
        }
      } else {
        t := Finished;
        return;
      }
      t := if |p.payload| > 0 then Forward else Finished;
    }

    /** The branch taken while the connection is being set up. */
    method HandleAnswer(p: Packet, mode: AckMode) returns (t: Turn)
      requires connState.Connecting?
      modifies this
      ensures p.kind.SynAck? ==>
                && Greets(p)
                && if mode.Rejected? && old(acked) != ack then connState.Connecting? && Quiet() && acked == ack
                   else connState.Connected? && Acknowledges()
      ensures p.kind.Rst? || p.kind.RstAnd? ==> connState.Refused?
      ensures !p.kind.SynAck? ==> Quiet()
      ensures kills == old(kills) + if p.kind.Rst? || p.kind.RstAnd? then 1 else 0
      ensures wakes == old(wakes) && (old(Logged()) ==> Logged())
      ensures t.Faulted? <==> !p.kind.SynAck? && !p.kind.Rst? && !p.kind.RstAnd?
      ensures (Snapshot(), t) == InputSection(old(Snapshot()), p, mode)
      ensures View() == InputView(old(View()), old(Snapshot()), p, mode)
      ensures spoiled == (old(spoiled) || GreetingFails(old(Snapshot()), p, mode))
    {
      hide SendOk, Opened, AckSection, Acknowledge, Greets, Acknowledges, Logged;
      if p.kind == SynAck {
        var ok := Greet(p, mode);
        if !ok {
          return Unanswered;
        }
      } else {
        if p.kind != Rst && p.kind != RstAnd {
          t := Faulted;
          return;
        }
        ChangeState(Refused);
        Kill();
      }
      t := if |p.payload| > 0 then Forward else Finished;
    }

    method TakeReply(reply: Reply)
      requires Valid() && connState == Connecting && !established && !held
      modifies this
      ensures Valid() && !held && (established <==> connState == Connected) && old(out) <= out
      ensures Snapshot() == Answered(old(Snapshot()), reply)
    {
      hide SendOk, Handshake, InputSection, TakeNumbers, RejectAck, GreetingFails;
      AnswerEffect(Snapshot(), reply);
      match reply
      case PacketArrives(p, mode) =>
        if !spoiled {
          InputKeeps(View(), Snapshot(), p, mode);
        }
        var t := HandleInput(p, mode);
      case Teardown =>
        Deconstruct();
    }

    /** After what was sent before comes a SYN with the numbers given. */
    ghost predicate SynFirst(before: seq<Segment>, ackNo: u32, number: u32)
      reads this
    {
      && |before| < |out| && before <= out
      && out[|before|].flag.SynFlag? && out[|before|].seqNo == number && out[|before|].ackNo == ackNo
      && out[|before|].sport == sPort && out[|before|].dport == dPort && out[|before|].payload == []
    }

    /** connect: a SYN is sent. The ticket is taken before it, so the first reply that decides anything
        wakes the thread, however early it comes, and nothing else does. Before the thread then
        reads the state, the arrivals in late may take place: a teardown among them makes
        connect fail even after a SYN/ACK. */
    method Connect(synRejected: bool, replies: seq<Reply>, late: seq<Arrival>)
      returns (outcome: ConnectOutcome, next: nat, ghost asked: Conn)
      requires Valid() && connState == Connecting && !established && !held
      modifies this
      ensures Valid() && next <= |replies| && asked == SendSyn(old(Snapshot()))
      ensures outcome == SynRejected <==> synRejected
      ensures outcome == SynRejected ==> Snapshot() == asked && out == old(out)
      ensures outcome != SynRejected ==> SynFirst(old(out), old(ack), old(seqNo))
      ensures outcome == StillWaiting ==>
                next == |replies| && Undecided(asked, replies, next) && Snapshot() == Heard(asked, replies)
      ensures outcome == Established || outcome == NotEstablished ==>
                && DecidedBy(asked, replies, next)
                && (outcome == Established <==> connState == Connected)
                && (if Accepts(replies[next - 1]) then established && (connState == Connected || connState == Dying)
                    else outcome == NotEstablished)
                && (late == [] || !Accepts(replies[next - 1]) ==> Snapshot() == Heard(asked, replies[..next]))
    {
      hide SendOk, Answered, Decisive, Logged;
      var wevent := connStateDidChange + 1;
      var ok := SendTcp(SynFlag, synRejected);
      next := 0;
      asked := Snapshot();
      if !ok {
        return SynRejected, next, asked;
      }
      while connStateDidChange < wevent && next < |replies|
        invariant Valid() && next <= |replies| && !held
        invariant Snapshot() == Heard(asked, replies[..next]) && SynFirst(old(out), old(ack), old(seqNo))
        invariant if connStateDidChange < wevent
                  then connState == Connecting && !established && connStateDidChange + 1 == wevent && Undecided(asked, replies, next)
                  else DecidedBy(asked, replies, next) && connState != Connecting
                       && (connState == Connected <==> Accepts(replies[next - 1])) && (connState == Connected <==> established)
        decreases |replies| - next
      {
        AnswerEffect(Snapshot(), replies[next]);
        HeardNext(asked, replies, next);
        TakeReply(replies[next]);
        next := next + 1;
      }
      assert replies[..|replies|] == replies;
      if connStateDidChange < wevent {
        return StillWaiting, next, asked;
      }
      if connState == Connected {
        var left := Yield(late);
      }
      outcome := if connState == Connected then Established else NotEstablished;
    }

    /** The section under _lockClientSend. */
    method ForwardToClient(p: Packet, sendFails: bool) returns (t: Turn)
      modifies this`pktForwarded, this`canClientSendEvent, this`forwarded, this`toClient, this`kills
      ensures p.seqNo != old(pktForwarded) ==> t == Asleep(canClientSendEvent + 1) && Snapshot() == old(Snapshot())
      ensures p.seqNo == old(pktForwarded) && !connState.Connected? ==> t == Finished && Snapshot() == old(Snapshot())
      ensures p.seqNo == old(pktForwarded) && connState.Connected? ==>
                && t == Finished && toClient == old(toClient) + p.payload && canClientSendEvent == old(canClientSendEvent) + 1
                && pktForwarded == (old(pktForwarded) + |p.payload|) % 0x1_0000_0000
      ensures kills == old(kills) + if sendFails && p.seqNo == old(pktForwarded) && connState.Connected? then 1 else 0
      ensures (Snapshot(), t) == ForwardSection(old(Snapshot()), p)
      ensures View() == old(View())
    {
      if p.seqNo != pktForwarded {
        t := Asleep(canClientSendEvent + 1);
        return;
      }
      t := Finished;
      if connState != Connected {
        return;
      }
      HandOn(p);
      if sendFails {
        Kill();
      }
    }

    /** The payload goes to the client, and whoever waits for the next number is told. */
    method HandOn(p: Packet)
      modifies this`pktForwarded, this`canClientSendEvent, this`forwarded, this`toClient
      ensures toClient == old(toClient) + p.payload && canClientSendEvent == old(canClientSendEvent) + 1
      ensures pktForwarded == (old(pktForwarded) + |p.payload|) % 0x1_0000_0000 && forwarded == old(forwarded) + |p.payload|
    {
      toClient := toClient + p.payload;
      pktForwarded := (pktForwarded + |p.payload|) % 0x1_0000_0000;
      forwarded := forwarded + |p.payload|;
      canClientSendEvent := canClientSendEvent + 1;
    }

    /** deconstruct under _lockStx; the notification under _lockClientSend follows separately. */
    method Deconstruct()
      requires !held
      modifies this`connState, this`connStateDidChange, this`canSendEvent
      ensures connState == Dying && connStateDidChange == old(connStateDidChange) + 1 && canSendEvent == old(canSendEvent) + 1
      ensures Quiet() && kills == old(kills) && Snapshot() == Die(old(Snapshot()))
      ensures View() == old(View()) && (old(Valid()) ==> Valid())
    {
      connState := Dying;
      connStateDidChange := connStateDidChange + 1;
      canSendEvent := canSendEvent + 1;
    }

    method DeconstructForwarding()
      modifies this`canClientSendEvent
      ensures canClientSendEvent == old(canClientSendEvent) + 1
      ensures Snapshot() == WakeForwarders(old(Snapshot()))
    {
      canClientSendEvent := canClientSendEvent + 1;
    }

    /** ---- Send side ---- */

    /** What the sender thread itself leaves alone while others run. */
    twostate predicate OnlyArrivals()
      reads this
    {
      && iss == old(iss) && (old(established) ==> established) && (old(broken) ==> broken)
      && read == old(read) && sent == old(sent) && data == old(data) && ring == old(ring)
      && seqNo == old(seqNo) && held == old(held) && spoiled == old(spoiled) && acknowledged >= old(acknowledged) && widest >= old(widest)
      && canSendEvent >= old(canSendEvent) && (connState == old(connState) || connState == Dying)
      && old(out) <= out && kills == old(kills)
    }

    /** The condition a sender tests under the lock, unless an acknowledgement was rejected:
        its packet has been counted, and nobody was notified. */
    twostate predicate SameWindow()
      reads this
    {
      || (inWin == old(inWin) && seqAcked == old(seqAcked) && connState == old(connState))
      || (broken && admitted > old(admitted))
    }

    method Arrive(a: Arrival)
      requires Valid() && established && !held
      modifies this
      ensures Valid() && OnlyArrivals() && admitted >= old(admitted) && wakes == old(wakes)
      ensures canSendEvent == old(canSendEvent) ==> SameWindow() && connState == old(connState)
    {
      hide SendOk;
      match a
      case AckArrives(advance, window, payload, mode) =>
        if connState == Connected {
          AckInOrder(advance, window, payload, mode);
        }
      case Death =>
        Deconstruct();
    }

    method AckInOrder(advance: nat, window: u16, payload: seq<byte>, mode: AckMode)
      requires Valid() && established && !held && connState == Connected
      modifies this
      ensures Valid() && OnlyArrivals() && admitted >= old(admitted) && wakes == old(wakes)
      ensures canSendEvent == old(canSendEvent) ==> broken && admitted > old(admitted)
      ensures connState == old(connState)
    {
      hide SendOk, Wrap32, Unacked, Logged;
      var distance := Unacked(seqNo, seqAcked);
      var rAck := Wrap32(seqAcked + if advance < distance then advance else distance);
      var p := Packet(0, sPort, 0, Ack, ack, rAck, window, payload);
      if !spoiled {
        Advanced(View(), advance);
        AcknowledgeKeeps(View(), rAck, Window(window));
      }
      var t := AckTurn(p, mode);
    }

    /** The lock is free: any number of the pending arrivals take place. */
    method Yield(arrivals: seq<Arrival>) returns (rest: seq<Arrival>)
      requires Valid() && established && !held
      modifies this
      ensures Valid() && OnlyArrivals() && |rest| <= |arrivals| && wakes == old(wakes)
      ensures arrivals == [] ==> Snapshot() == old(Snapshot()) && View() == old(View())
    {
      var stop: nat :| stop <= |arrivals|;
      rest := arrivals;
      while |rest| > stop
        invariant Valid() && established && OnlyArrivals() && |rest| <= |arrivals| && wakes == old(wakes)
        invariant rest == arrivals ==> Snapshot() == old(Snapshot()) && View() == old(View())
      {
        Arrive(rest[0]);
        rest := rest[1..];
      }
    }

    /** waitForEvent: sleep while the counter is below the ticket. A thread still asleep on the
        next event has the window it tested when it took the ticket, unless a rejected
        acknowledgement took the notification with it; a teardown never does, so if the connection
        is dying, it was when the ticket was taken. */
    method WaitForEvent(ticket: nat, arrivals: seq<Arrival>) returns (woken: bool, rest: seq<Arrival>)
      requires Valid() && established && !held
      modifies this
      ensures Valid() && OnlyArrivals() && |rest| <= |arrivals| && wakes == old(wakes) + if woken then [connState] else []
      ensures woken <==> canSendEvent >= ticket
      ensures !woken && ticket <= old(canSendEvent) + 1 ==> connState == old(connState)
      ensures arrivals == [] ==> inWin == old(inWin) && seqAcked == old(seqAcked)
      ensures !woken ==> rest == []
      ensures !woken && ticket <= old(canSendEvent) + 1 ==> SameWindow()
      ensures old(canSendEvent) < ticket && woken ==> |rest| < |arrivals|
    {
      rest := arrivals;
      while canSendEvent < ticket && rest != []
        invariant Valid() && established && OnlyArrivals() && |rest| <= |arrivals| && wakes == old(wakes)
        invariant |rest| == |arrivals| ==> inWin == old(inWin) && seqAcked == old(seqAcked)
        invariant |rest| == |arrivals| ==> canSendEvent == old(canSendEvent)
        invariant admitted >= old(admitted)
        invariant canSendEvent == old(canSendEvent) ==> SameWindow() && connState == old(connState)
      {
        Arrive(rest[0]);
        rest := rest[1..];
      }
      woken := canSendEvent >= ticket;
      if woken {
        wakes := wakes + [connState];
      }
    }

    method CountAcked()
      modifies this`acked, this`covered
      ensures Snapshot() == RejectAck(old(Snapshot())) && acked == ack
    {
      acked, covered := ack, admitted;
    }

    method Advance(len: nat, ghost g: Segment)
      requires |g.payload| == len
      modifies this`seqNo, this`sent, this`data
      ensures View() == Emit(old(View()), g)
      ensures Snapshot() == old(Snapshot()).(seqNo := Wrap32(old(seqNo) + len))
    {
      hide SendOk, Wrap32;
      seqNo := Wrap32(seqNo + len);
      sent, data := sent + len, data + [g];
    }

    /** One data segment more than before. */
    ghost predicate Numbered1(before: seq<Segment>, number: u32, payload: seq<byte>)
      reads this`data, this`ack
    {
      && |data| == |before| + 1 && before == data[..|before|]
      && Bears(data[|before|], AckFlag, number, payload)
    }

    /** What send_packet makes of the segment: sent, or an exception with the lock taken. */
    method Submit(rejected: bool, ghost g: Segment)
      modifies this`held, this`acks, this`out
      ensures View() == old(View())
      ensures out == old(out) + if rejected then [] else [g]
      ensures old(Logged()) && Bears(g, AckFlag, g.seqNo, g.payload) ==> Logged()
      ensures Snapshot() == if rejected then old(Snapshot()).(held := true)
                            else old(Snapshot()).(acks := old(acks) + [AckSent(ack, admitted)])
    {
      hide AckNumbers, Numbers;
      if rejected {
        held := true;
        return;
      }
      LogSent(out, g);
      LogAck(acks, AckSent(ack, admitted));
      acks := acks + [AckSent(ack, admitted)];
      out := out + [g];
    }

    /** Emission at the label cnt_label: the next len bytes, which lie at position lo of the
        ring. They count as sent even if USB rejects them; then the lock stays taken for good. */
    method EmitData(lo: nat, len: nat, rejected: bool)
      requires Sendable() && Lies(ring, lo, read, sent, len)
      requires Unacked(seqNo, seqAcked) + len <= inWin
      modifies this`seqNo, this`acked, this`acks, this`covered, this`out, this`sent, this`data, this`held
      ensures Valid() && sent == old(sent) + len && held == rejected
      ensures Outstanding(View()) == old(Unacked(seqNo, seqAcked)) + len <= inWin && acked == ack && seqNo == (old(seqNo) + len) % 0x1_0000_0000
      ensures old(seqNo) == Wrap32(iss + 1 + old(sent)) && Numbered1(old(data), old(seqNo), read[old(sent)..sent])
      ensures if rejected then Quiet()
              else SentOne(AckFlag, old(seqNo), read[old(sent)..sent]) && acks == old(acks) + [AckSent(ack, admitted)]
                   && out[|out| - 1] == data[|data| - 1]
      ensures Snapshot() == if rejected then SendRejected(old(Snapshot()), len) else SendSegment(old(Snapshot()), len)
    {
      hide SendOk, Logged;
      ghost var g := Header(AckFlag, seqNo, payloadBuf[lo..lo + len]);
      assert g.payload == ring[lo..lo + len];
      TrueDistance(View());
      NextNumber(View());
      EmitKeeps(View(), g);
      CountAcked();
      Advance(len, g);
      Submit(rejected, g);
    }

    /** All wakes but the last one found the connection connected. */
    ghost predicate WokeConnected(before: seq<Status>)
      reads this`wakes
    {
      before <= wakes && forall k :: |before| <= k < |wakes| - 1 ==> wakes[k].Connected?
    }

    ghost predicate WokeToNoConnection(before: seq<Status>)
      reads this`wakes
    {
      |wakes| > |before| && !wakes[|wakes| - 1].Connected?
    }

    /** From the label retry to cnt_label: wait until at least one byte fits the window. A wake that
        does not find the connection connected ends it. */
    method AwaitRoom(buflen: nat, arrivals: seq<Arrival>) returns (len: nat, outcome: SendOutcome, rest: seq<Arrival>)
      requires Sendable() && buflen > 0
      modifies this
      ensures Sendable() && OnlyArrivals() && WokeConnected(old(wakes)) && |rest| <= |arrivals|
      ensures len > 0 ==> len == Least(buflen, inWin - Unacked(seqNo, seqAcked))
      ensures len == 0 ==> outcome.Aborted? || outcome.Blocked?
      ensures old(Unacked(seqNo, seqAcked)) + buflen <= old(inWin) ==> len > 0 && rest == arrivals
      ensures len == 0 && outcome.Aborted? <==> WokeToNoConnection(old(wakes))
      ensures len == 0 && outcome.Aborted? ==> !connState.Connected?
      ensures arrivals == [] ==> rest == [] && inWin == old(inWin) && seqAcked == old(seqAcked)
      ensures len == 0 && outcome.Blocked? ==> rest == [] && (inWin <= Unacked(seqNo, seqAcked) || broken)
    {
      hide SendOk, Wrap32, Unacked;
      outcome := Blocked;
      rest := arrivals;
      while Unacked(seqNo, seqAcked) + buflen > inWin
        invariant Sendable() && OnlyArrivals() && WokeConnected(old(wakes)) && |rest| <= |arrivals|
        invariant !WokeToNoConnection(old(wakes))
        invariant old(Unacked(seqNo, seqAcked)) + buflen <= old(inWin) ==>
                    rest == arrivals && inWin == old(inWin) && seqAcked == old(seqAcked)
        invariant arrivals == [] ==> rest == [] && inWin == old(inWin) && seqAcked == old(seqAcked)
        decreases |rest|
      {
        rest := Yield(rest);
        var rembytes := inWin - Unacked(seqNo, seqAcked);
        if rembytes > 0 {
          return if rembytes > buflen then buflen else rembytes, outcome, rest;
        }
        var wevent := canSendEvent + 1;
        var woken;
        woken, rest := WaitForEvent(wevent, rest);
        if !woken {
          return 0, Blocked, rest;
        }
        if connState != Connected {
          return 0, Aborted, rest;
        }
      }
      len := buflen;
    }

    /** send_data on the buflen bytes at position lo of the ring, which are the next to be sent.
        If it sends, it sends the least of what is asked, TCP_MTU, and what fits the window of
        the moment; if USB rejects the segment, they are numbered and the lock stays taken.
        Otherwise the thread was aborted, because the connection is not connected, or still
        waits: with the window closed, or with the acknowledgement that opens it rejected. */
    method SendData(lo: nat, buflen: nat, rejected: bool, arrivals: seq<Arrival>)
      returns (outcome: SendOutcome, rest: seq<Arrival>)
      requires Sendable() && Lies(ring, lo, read, sent, buflen)
      modifies this
      ensures Valid() && established && !spoiled && (held <==> outcome.Thrown?)
      ensures outcome.Thrown? ==> rejected
      ensures outcome.Sent? ==> !rejected || buflen == 0
      ensures iss == old(iss) && read == old(read) && ring == old(ring)
      ensures |rest| <= |arrivals| && acknowledged >= old(acknowledged) && widest >= old(widest)
      ensures buflen == 0 ==> outcome == Sent(0) && data == old(data)
      ensures (outcome.Sent? || outcome.Thrown?) && buflen > 0 ==>
                && outcome.n > 0 && sent == old(sent) + outcome.n
                && outcome.n == Least(Least(buflen, TCP_MTU), inWin - (Outstanding(View()) - outcome.n))
                && Numbered1(old(data), Wrap32(iss + 1 + old(sent)), read[old(sent)..sent])
      ensures outcome.Sent? && buflen > 0 ==> out != [] && out[|out| - 1] == data[|data| - 1]
      ensures old(out) <= out && kills == old(kills) && old(wakes) <= wakes
      ensures outcome.Aborted? <==> WokeToNoConnection(old(wakes))
      ensures old(Unacked(seqNo, seqAcked)) + buflen <= old(inWin) ==> outcome.Sent? || outcome.Thrown?
      ensures arrivals == [] ==> rest == [] && inWin == old(inWin) && seqAcked == old(seqAcked)
      ensures outcome.Blocked? || outcome.Aborted? || buflen == 0 ==> sent == old(sent) && data == old(data)
      ensures outcome.Aborted? ==> !connState.Connected?
      ensures outcome.Blocked? ==> rest == [] && (inWin <= Unacked(seqNo, seqAcked) || broken)
    {
      hide Valid, View, SendOk, Lies, Snapshot, SendSegment, SendRejected, Logged, Bears, Unacked;
      rest := arrivals;
      if buflen == 0 {
        return Sent(0), rest;
      }
      var len;
      len, outcome, rest := AwaitRoom(buflen, rest);
      if len == 0 {
        return;
      }
      LiesSplit(ring, lo, read, sent, buflen, len);
      len := EmitUpTo(lo, len, rejected);
      outcome := if rejected then Thrown(len) else Sent(len);
    }

    /** At the label cnt_label, with room for so many bytes. */
    method EmitUpTo(lo: nat, room: nat, rejected: bool) returns (len: nat)
      requires Sendable() && Lies(ring, lo, read, sent, room) && room > 0
      requires Unacked(seqNo, seqAcked) + room <= inWin
      modifies this`seqNo, this`acked, this`acks, this`covered, this`out, this`sent, this`data, this`held
      ensures Valid() && len == Least(room, TCP_MTU) && sent == old(sent) + len && held == rejected
      ensures Outstanding(View()) == old(Unacked(seqNo, seqAcked)) + len && old(out) <= out
      ensures Numbered1(old(data), Wrap32(iss + 1 + old(sent)), read[old(sent)..sent])
      ensures !rejected ==> out != [] && out[|out| - 1] == data[|data| - 1]
    {
      hide Valid, View, SendOk, Lies, Snapshot, SendSegment, SendRejected, Logged, Bears, Unacked;
      len := if room > TCP_MTU then TCP_MTU else room;
      LiesSplit(ring, lo, read, sent, room, len);
      EmitData(lo, len, rejected);
    }

    /** recv into the ring at the send position. */
    method ReceiveFromClient(lo: nat, room: nat, more: seq<byte>)
      requires Valid() && established && !spoiled && sent == |read| && lo == seqNo % BUFSIZE && |more| <= room
      requires lo + room <= BUFSIZE
      requires widest < BUFSIZE ==> room <= BUFSIZE - Outstanding(View())
      modifies payloadBuf, this`read, this`ring
      ensures Valid() && read == old(read) + more
      ensures Lies(ring, lo, read, sent, |more|)
    {
      hide SendOk;
      CopyIn(lo, more);
      ghost var v := View();
      ghost var ring' := ring[..lo] + more + ring[lo + |more|..];
      assert ring'[lo..lo + |more|] == more;
      ReceiveKeeps(v, more, room, ring');
      read := read + more;
      ring := ring';
      assert View() == Receive(v, more, ring');
    }

    method CopyIn(lo: nat, more: seq<byte>)
      requires payloadBuf.Length == BUFSIZE && lo + |more| <= BUFSIZE
      modifies payloadBuf
      ensures payloadBuf[..] == old(payloadBuf[..])[..lo] + more + old(payloadBuf[..])[lo + |more|..]
    {
      for k := 0 to |more|
        invariant payloadBuf[..lo] == old(payloadBuf[..lo]) && payloadBuf[lo..lo + k] == more[..k]
        invariant payloadBuf[lo + k..] == old(payloadBuf[lo + k..])
      {
        payloadBuf[lo + k] := more[k];
        assert payloadBuf[lo..lo + k + 1] == payloadBuf[lo..lo + k] + [more[k]];
      }
      assert payloadBuf[..] == payloadBuf[..lo] + payloadBuf[lo..lo + |more|] + payloadBuf[lo + |more|..];
    }

    /** The loop that cuts the cnt bytes just read, at position lo of the ring, into segments.
        USB accepts the first accepted of them, and the loop ends with the first it rejects. If
        nothing arrives meanwhile and all of it fits the window, there are no more segments than
        it takes. */
    method SendAll(lo: nat, cnt: nat, accepted: nat, arrivals: seq<Arrival>) returns (outcome: LoopOutcome)
      requires Sendable() && Lies(ring, lo, read, sent, cnt) && sent + cnt == |read|
      modifies this
      ensures Valid() && established && !spoiled && iss == old(iss) && read == old(read)
      ensures held <==> outcome == Abandoned
      ensures outcome == Abandoned ==> |data| == |old(data)| + accepted + 1
      ensures outcome != Abandoned ==> |data| <= |old(data)| + accepted
      ensures old(sent) <= sent && old(data) <= data
      ensures outcome == Continue ==> sent == |read|
      ensures outcome == Failed ==> !connState.Connected? && |wakes| > |old(wakes)|
      ensures outcome == Waiting ==> sent < |read| && (inWin <= Unacked(seqNo, seqAcked) || broken)
      ensures kills == old(kills) && old(wakes) <= wakes && old(out) <= out
      ensures arrivals == [] && Outstanding(old(View())) + cnt <= old(inWin) ==>
                && (outcome == Continue || outcome == Abandoned)
                && (outcome == Continue ==> cnt <= TCP_MTU * (|data| - |old(data)|) < cnt + TCP_MTU)
    {
      hide Valid, View, SendOk, Outstanding, Lies, Snapshot, Logged, Unacked;
      ghost var fits := arrivals == [] && Outstanding(View()) + cnt <= inWin;
      var bufstart: nat, left: nat, allowed: nat := lo, cnt, accepted;
      var rest := arrivals;
      while left > 0
        invariant Sendable() && iss == old(iss) && read == old(read) && ring == old(ring)
        invariant old(sent) <= sent && old(data) <= data && |data| + allowed == |old(data)| + accepted
        invariant sent + left == |read| && Lies(ring, bufstart, read, sent, left)
        invariant kills == old(kills) && old(wakes) <= wakes && old(out) <= out
        invariant fits ==> rest == [] && Outstanding(View()) + left <= inWin
        invariant fits ==> cnt - left <= TCP_MTU * (|data| - |old(data)|)
                           < cnt - left + if left == 0 then TCP_MTU else 1
        decreases left
      {
        var didSend;
        didSend, rest := SendPiece(bufstart, left, allowed == 0, rest);
        if didSend.Thrown? {
          return Abandoned;
        }
        if didSend.Blocked? {
          return Waiting;
        }
        if didSend.Aborted? {
          return Failed;
        }
        bufstart := bufstart + didSend.n;
        left, allowed := left - didSend.n, allowed - 1;
      }
      outcome := Continue;
    }

    /** One pass of that loop, with left bytes still to be sent. */
    method SendPiece(bufstart: nat, left: nat, rejected: bool, arrivals: seq<Arrival>)
      returns (didSend: SendOutcome, rest: seq<Arrival>)
      requires Sendable() && Lies(ring, bufstart, read, sent, left) && sent + left == |read| && left > 0
      modifies this
      ensures Valid() && established && !spoiled && iss == old(iss) && read == old(read) && ring == old(ring)
      ensures (held <==> didSend.Thrown?) && (didSend.Thrown? ==> rejected) && (didSend.Sent? ==> !rejected)
      ensures kills == old(kills) && old(wakes) <= wakes && old(out) <= out && old(data) <= data && old(sent) <= sent
      ensures |data| == |old(data)| + if didSend.Sent? || didSend.Thrown? then 1 else 0
      ensures didSend.Sent? ==>
                && 0 < didSend.n <= left && sent == old(sent) + didSend.n
                && Lies(ring, bufstart + didSend.n, read, sent, left - didSend.n)
      ensures didSend.Aborted? ==> !connState.Connected? && |wakes| > |old(wakes)|
      ensures didSend.Blocked? ==> sent < |read| && (inWin <= Unacked(seqNo, seqAcked) || broken)
      ensures arrivals == [] && Outstanding(old(View())) + left <= old(inWin) ==>
                && rest == [] && (didSend.Sent? || didSend.Thrown?) && didSend.n == Least(left, TCP_MTU)
                && Outstanding(View()) + (left - didSend.n) <= inWin
    {
      hide SendOk, Lies, Snapshot, Logged, Unacked;
      rest := Yield(arrivals);
      TrueDistance(View());
      var doSend := if left > TCP_MTU then TCP_MTU else left;
      LiesSplit(ring, bufstart, read, sent, left, doSend);
      ghost var before := sent;
      didSend, rest := SendData(bufstart, doSend, rejected, rest);
      if didSend.Sent? {
        LiesSplit(ring, bufstart, read, before, left, didSend.n);
      }
    }

    /** One iteration of the connection's thread, without hang-up: poll, one recv, and the loop
        that cuts what was read into segments. incoming is what the client has written;
        arrivals0 take place while the thread polls, arrivals while it sends. It ends with the
        lock left taken exactly if a segment was rejected. */
    method LoopEvent(poll: PollResult, incoming: seq<byte>, recvFails: bool, accepted: nat,
                     arrivals0: seq<Arrival>, arrivals: seq<Arrival>) returns (outcome: LoopOutcome)
      requires Sendable() && sent == |read|
      modifies this, payloadBuf
      ensures Valid() && established && !spoiled && iss == old(iss)
      ensures held <==> outcome == Abandoned
      ensures outcome == Abandoned ==> |data| == |old(data)| + accepted + 1
      ensures |read| - |old(read)| == if poll != Readable || recvFails then 0
                                      else Least(|incoming|, MaxReceive(old(seqNo), old(seqAcked)))
      ensures read == old(read) + incoming[..|read| - |old(read)|]
      ensures old(sent) <= sent && old(data) <= data
      ensures outcome == Continue ==> sent == |read|
      ensures outcome == Waiting ==> sent < |read| && (inWin <= Unacked(seqNo, seqAcked) || broken)
      ensures outcome == Failed ==> poll == PollError || recvFails || (!connState.Connected? && |wakes| > |old(wakes)|)
      ensures poll == PollError || (poll == Readable && recvFails) ==> outcome == Failed && kills == old(kills) + 1
      ensures poll == NothingToRead ==> outcome == Continue
      ensures poll == NothingToRead || (poll == Readable && !recvFails) ==> kills == old(kills)
      ensures poll != Readable || recvFails ==> data == old(data)
    {
      hide SendOk, MaxReceive, Logged, Snapshot;
      var lseq := seqNo % BUFSIZE;
      var maxRCV := MaxReceive(seqNo, seqAcked);
      RoomFits(seqNo, seqAcked);
      if widest < BUFSIZE {
        RoomIsFree(View());
      }
      var ignored := Yield(arrivals0);
      if poll == PollError {
        Kill();
        return Failed;
      }
      if poll == NothingToRead {
        return Continue;
      }
      if recvFails {
        Kill();
        return Failed;
      }
      var cnt := if |incoming| < maxRCV then |incoming| else maxRCV;
      ReceiveFromClient(lseq, maxRCV, incoming[..cnt]);
      outcome := SendAll(lseq, cnt, accepted, arrivals);
    }

    /** flush_data: after the first acknowledgement it carries exactly the oldest unacknowledged
        bytes, under the numbers they were first sent with, up to one segment or the ring's end. */
    method FlushData(rejected: bool) returns (n: nat)
      requires Sendable()
      modifies this`out, this`acks
      ensures Valid() && n <= TCP_MTU
      ensures Snapshot() == if n > 0 && !rejected then Announce(old(Snapshot())) else old(Snapshot())
      ensures n == 0 || rejected ==> Quiet()
      ensures n > 0 && !rejected ==>
                && out != [] && SentOne(AckFinFlag, seqAcked, out[|out| - 1].payload) && |out[|out| - 1].payload| == n
                && acks == old(acks) + [AckSent(ack, admitted)]
      ensures widest < BUFSIZE ==> n == Least(TCP_MTU, Least(Outstanding(View()), BUFSIZE - seqAcked % BUFSIZE))
      ensures widest < BUFSIZE && acknowledged > 0 && n > 0 && !rejected ==>
                acknowledged - 1 + n <= |read|
                && out[|out| - 1].payload == read[acknowledged - 1..acknowledged - 1 + n]
    {
      hide SendOk, FlushLength, AckNumbers, Numbers;
      var lseqAck := seqAcked % BUFSIZE;
      n := FlushLength(seqNo, seqAcked);
      FlushFits(seqNo, seqAcked);
      if n > TCP_MTU {
        n := TCP_MTU;
      }
      if widest < BUFSIZE {
        FlushFinds(View(), n);
      }
      if n > 0 && !rejected {
        LogSent(out, Header(AckFinFlag, seqAcked, payloadBuf[lseqAck..lseqAck + n]));
        LogAck(acks, AckSent(ack, admitted));
        out := out + [Header(AckFinFlag, seqAcked, payloadBuf[lseqAck..lseqAck + n])];
        acks := acks + [AckSent(ack, admitted)];
      }
    }
  }
}
