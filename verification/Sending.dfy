/** The client-to-device direction of one connection as a value: the fields send_data and
    loopEvent work on, with the unbounded counts behind them, and what each step keeps. */
module Sending {
  import opened Wrapping
  import opened Ring

  const USB_MTU: nat := 49152
  const TCP_HEADER: nat := 20
  const MUX_HEADER: nat := 16

  /** (USB_MTU - headers) & 0xff00 */
  const TCP_MTU: nat := (USB_MTU - TCP_HEADER - MUX_HEADER) / 0x100 % 0x100 * 0x100

  datatype Flag = SynFlag | AckFlag | RstFlag | AckFinFlag

  datatype Segment = Segment(sport: u16, dport: u16, seqNo: u32, ackNo: u32, flag: Flag,
                             window: u16, payload: seq<byte>)

  /** read: the bytes taken from the client; sent of them have been emitted, as the segments
      in data. acknowledged counts from the SYN's number iss; widest is the largest window
      the device ever advertised. */
  datatype SendView = SendView(established: bool, iss: u32, seqNo: u32, seqAcked: u32, inWin: u32,
                               read: seq<byte>, sent: nat, acknowledged: nat, widest: nat,
                               data: seq<Segment>, buf: seq<byte>)

  ghost function Payloads(segments: seq<Segment>): seq<byte> {
    if segments == [] then [] else
    Payloads(segments[..|segments| - 1]) + segments[|segments| - 1].payload
  }

  lemma PayloadsAppend(segments: seq<Segment>, g: Segment)
    ensures Payloads(segments + [g]) == Payloads(segments) + g.payload
  {
  }

  /** Every data segment is numbered by the bytes emitted before it, after the SYN. */
  ghost predicate Numbered(segments: seq<Segment>, iss: u32) {
    segments == [] ||
    (var front, last := segments[..|segments| - 1], segments[|segments| - 1];
     Numbered(front, iss) && last.seqNo == Wrap32(iss + 1 + |Payloads(front)|))
  }

  function First(acknowledged: nat): nat {
    if acknowledged == 0 then 0 else acknowledged - 1
  }

  function Outstanding(v: SendView): int { v.sent + 1 - v.acknowledged }

  ghost predicate SendOk(v: SendView) {
    && |v.buf| == BUFSIZE
    && v.inWin <= v.widest <= 0xffff00
    && (!v.established ==>
          && v.seqNo == v.seqAcked == v.iss && v.read == [] && v.sent == 0 && v.acknowledged == 0 && v.data == [])
    && (v.established ==>
          && v.seqNo == Wrap32(v.iss + 1 + v.sent) && v.seqAcked == Wrap32(v.iss + v.acknowledged)
          && v.acknowledged <= v.sent + 1 && v.sent <= |v.read|
          && (Outstanding(v) <= 1 || Outstanding(v) <= v.widest)
          && Payloads(v.data) == v.read[..v.sent] && Numbered(v.data, v.iss)
          && (v.widest < BUFSIZE ==> Retained(v.buf, v.iss, v.read, First(v.acknowledged))))
  }

  /** ---- Steps ---- */

  function Wider(widest: nat, window: u32): nat { if window > widest then window else widest }

  function Opened(v: SendView, window: u32): SendView {
    v.(established := true, seqNo := Wrap32(v.seqNo + 1), inWin := window, widest := Wider(v.widest, window))
  }

  function Acknowledge(v: SendView, rAck: u32, window: u32): SendView {
    v.(seqAcked := rAck, acknowledged := v.acknowledged + Unacked(rAck, v.seqAcked),
       inWin := window, widest := Wider(v.widest, window))
  }

  /** The acknowledgement number is between the last one applied and what was sent. */
  predicate InOrder(v: SendView, rAck: u32) {
    v.established ==> Unacked(rAck, v.seqAcked) <= Outstanding(v)
  }

  function Emit(v: SendView, g: Segment): SendView {
    v.(seqNo := Wrap32(v.seqNo + |g.payload|), sent := v.sent + |g.payload|, data := v.data + [g])
  }

  function Receive(v: SendView, more: seq<byte>, buf: seq<byte>): SendView {
    v.(read := v.read + more, buf := buf)
  }

  /** ---- What they keep ---- */

  /** In every good state the macro is the true distance. */
  lemma TrueDistance(v: SendView)
    requires SendOk(v) && v.established
    ensures Unacked(v.seqNo, v.seqAcked) == Outstanding(v)
  {
  }

  /** An acknowledgement that advances by no more than what is outstanding is in order. */
  lemma Advanced(v: SendView, advance: nat)
    requires SendOk(v) && v.established
    ensures var distance := Unacked(v.seqNo, v.seqAcked);
            InOrder(v, Wrap32(v.seqAcked + if advance < distance then advance else distance))
  {
    TrueDistance(v);
  }

  /** The next byte's number, and the bytes it may be taken from. */
  lemma NextNumber(v: SendView)
    requires SendOk(v) && v.established
    ensures v.seqNo == Wrap32(v.iss + 1 + v.sent) && v.sent <= |v.read|
  {
  }

  /** The n bytes of the stream from position at on lie in the ring from position lo on. */
  ghost predicate Lies(ring: seq<byte>, lo: nat, stream: seq<byte>, at: nat, n: nat) {
    && lo + n <= |ring| && at + n <= |stream|
    && ring[lo..lo + n] == stream[at..at + n]
  }

  lemma LiesSplit(ring: seq<byte>, lo: nat, stream: seq<byte>, at: nat, n: nat, m: nat)
    requires Lies(ring, lo, stream, at, n) && m <= n
    ensures Lies(ring, lo, stream, at, m) && Lies(ring, lo + m, stream, at + m, n - m)
  {
    assert ring[lo..lo + m] == ring[lo..lo + n][..m] && ring[lo + m..lo + n] == ring[lo..lo + n][m..];
    assert stream[at..at + m] == stream[at..at + n][..m] && stream[at + m..at + n] == stream[at..at + n][m..];
  }

  lemma OpenedKeeps(v: SendView, window: u32)
    requires SendOk(v) && !v.established && window <= 0xffff00
    ensures SendOk(Opened(v, window))
  {
  }

  /** An acknowledgement keeps the send side good exactly if it is applied in order. */
  lemma AcknowledgeKeeps(v: SendView, rAck: u32, window: u32)
    requires SendOk(v) && v.established && window <= 0xffff00
    ensures SendOk(Acknowledge(v, rAck, window)) <==> InOrder(v, rAck)
    ensures v.acknowledged <= Acknowledge(v, rAck, window).acknowledged
  {
    WrapStep(v.iss + v.acknowledged, v.seqAcked, rAck);
  }

  lemma WrapStep(x: nat, near: u32, far: u32)
    requires near == Wrap32(x)
    ensures far == Wrap32(x + Unacked(far, near))
  {
  }

  /** Emitting the next bytes within the window keeps the stream, the numbering and the bound. */
  lemma EmitKeeps(v: SendView, g: Segment)
    requires SendOk(v) && v.established && v.sent + |g.payload| <= |v.read|
    requires g.payload == v.read[v.sent..v.sent + |g.payload|] && g.seqNo == v.seqNo
    requires Unacked(v.seqNo, v.seqAcked) + |g.payload| <= v.inWin
    ensures SendOk(Emit(v, g)) && Outstanding(Emit(v, g)) <= v.inWin
  {
    TrueDistance(v);
    PayloadsAppend(v.data, g);
    WrapAdd32(v.iss + 1 + v.sent, |g.payload|);
    assert v.read[..v.sent + |g.payload|] == v.read[..v.sent] + g.payload;
    NumberedAppend(v.data, g, v.iss);
    hide Numbered, Payloads;
  }

  lemma NumberedAppend(segments: seq<Segment>, g: Segment, iss: u32)
    requires Numbered(segments, iss) && g.seqNo == Wrap32(iss + 1 + |Payloads(segments)|)
    ensures Numbered(segments + [g], iss)
  {
  }

  /** Reading from the client at the send position, no more than MaxReceive, keeps every byte
      not yet acknowledged as long as no window reached the ring's size. */
  lemma ReceiveKeeps(v: SendView, more: seq<byte>, room: nat, buf: seq<byte>)
    requires SendOk(v) && v.established && v.sent == |v.read| && |more| <= room
    requires v.seqNo % BUFSIZE + room <= BUFSIZE
    requires v.widest < BUFSIZE ==> room <= BUFSIZE - Outstanding(v)
    requires buf == v.buf[..v.seqNo % BUFSIZE] + more + v.buf[v.seqNo % BUFSIZE + |more|..]
    ensures SendOk(Receive(v, more, buf))
  {
    SlotOfWrapped(v.iss + 1 + v.sent);
    assert (v.read + more)[..v.sent] == v.read[..v.sent];
    if v.widest < BUFSIZE {
      ReceiveRetains(v.buf, buf, v.iss, v.read, more, First(v.acknowledged));
    }
  }

  /** The room loopEvent computes is free: less than a ring is outstanding. */
  lemma RoomIsFree(v: SendView)
    requires SendOk(v) && v.established && v.widest < BUFSIZE
    ensures 0 <= Outstanding(v) < BUFSIZE
    ensures MaxReceive(v.seqNo, v.seqAcked) == Least(BUFSIZE - Outstanding(v), BUFSIZE - v.seqNo % BUFSIZE)
  {
    SlotOfWrapped(v.iss + 1 + v.sent);
    FreeSpaceExact(v.iss, 1 + v.sent, v.acknowledged);
  }

  /** After the first acknowledgement, the bytes flush_data finds at the acknowledged position
      of the ring are the oldest unacknowledged bytes of the stream. */
  lemma FlushFinds(v: SendView, n: nat)
    requires SendOk(v) && v.established && v.widest < BUFSIZE && n <= FlushLength(v.seqNo, v.seqAcked)
    ensures FlushLength(v.seqNo, v.seqAcked) == Least(Outstanding(v), BUFSIZE - v.seqAcked % BUFSIZE)
    ensures (FlushLength(v.seqNo, v.seqAcked) == 0 <==> Outstanding(v) == 0) && n <= Outstanding(v)
    ensures v.seqAcked % BUFSIZE + n <= BUFSIZE
    ensures v.acknowledged > 0 ==>
              v.acknowledged - 1 + n <= |v.read| &&
              v.buf[v.seqAcked % BUFSIZE..v.seqAcked % BUFSIZE + n] == v.read[v.acknowledged - 1..v.acknowledged - 1 + n]
  {
    hide Numbered, Payloads, Retained, FlushLength;
    FlushLengthExact(v.iss, 1 + v.sent, v.acknowledged);
    SlotOfWrapped(v.iss + v.acknowledged);
    if v.acknowledged > 0 {
      FlushPiece(v, n);
    }
  }

  lemma FlushPiece(v: SendView, n: nat)
    requires |v.buf| == BUFSIZE && v.acknowledged > 0 && v.acknowledged - 1 + n <= |v.read|
    requires Retained(v.buf, v.iss, v.read, First(v.acknowledged))
    requires v.seqAcked % BUFSIZE == (v.iss + v.acknowledged) % BUFSIZE && v.seqAcked % BUFSIZE + n <= BUFSIZE
    ensures v.buf[v.seqAcked % BUFSIZE..v.seqAcked % BUFSIZE + n] == v.read[v.acknowledged - 1..v.acknowledged - 1 + n]
  {
    hide Retained;
    assert v.iss + 1 + (v.acknowledged - 1) == v.iss + v.acknowledged;
    PieceOfStream(v.buf, v.iss, v.read, v.acknowledged - 1, v.acknowledged - 1, n);
  }

  /** ---- Runs of the send side ---- */

  datatype SendEvent =
    | Opens(window: u16)
    | Acknowledges(rAck: u32, window: u16)
    | Reads(more: seq<byte>)
    | Emits(g: Segment)

  /** The next bytes leave within the window, or loopEvent reads into the room it has found. */
  ghost predicate SendCan(v: SendView, e: SendEvent)
    requires |v.buf| == BUFSIZE
  {
    match e
    case Opens(_) => !v.established
    case Acknowledges(rAck, _) => v.established && InOrder(v, rAck)
    case Reads(more) => v.established && v.sent == |v.read| && |more| <= MaxReceive(v.seqNo, v.seqAcked)
    case Emits(g) =>
      && v.established && 0 < |g.payload| <= TCP_MTU && v.sent + |g.payload| <= |v.read|
      && g.payload == v.read[v.sent..v.sent + |g.payload|] && g.seqNo == v.seqNo
      && Unacked(v.seqNo, v.seqAcked) + |g.payload| <= v.inWin
  }

  ghost function SendDo(v: SendView, e: SendEvent): (v': SendView)
    requires |v.buf| == BUFSIZE && SendCan(v, e)
    ensures |v'.buf| == BUFSIZE
  {
    match e
    case Opens(window) => Opened(v, window * 256)
    case Acknowledges(rAck, window) => Acknowledge(v, rAck, window * 256)
    case Reads(more) =>
      RoomFits(v.seqNo, v.seqAcked);
      Receive(v, more, v.buf[..v.seqNo % BUFSIZE] + more + v.buf[v.seqNo % BUFSIZE + |more|..])
    case Emits(g) => Emit(v, g)
  }

  ghost predicate SendRun(v: SendView, run: seq<SendEvent>)
    requires |v.buf| == BUFSIZE
    decreases |run|, 0
  {
    run == [] || (SendRun(v, run[..|run| - 1]) && SendCan(SentBy(v, run[..|run| - 1]), run[|run| - 1]))
  }

  ghost function SentBy(v: SendView, run: seq<SendEvent>): (v': SendView)
    requires |v.buf| == BUFSIZE && SendRun(v, run)
    ensures |v'.buf| == BUFSIZE
    decreases |run|, 1
  {
    if run == [] then v else SendDo(SentBy(v, run[..|run| - 1]), run[|run| - 1])
  }

  lemma StepKeepsSend(v: SendView, e: SendEvent)
    requires SendOk(v) && SendCan(v, e)
    ensures SendOk(SendDo(v, e))
  {
    match e
    case Opens(window) => OpenedKeeps(v, window * 256);
    case Acknowledges(rAck, window) => AcknowledgeKeeps(v, rAck, window * 256);
    case Reads(more) =>
      RoomFits(v.seqNo, v.seqAcked);
      if v.widest < BUFSIZE {
        RoomIsFree(v);
      }
      ReceiveKeeps(v, more, MaxReceive(v.seqNo, v.seqAcked), SendDo(v, e).buf);
    case Emits(g) => EmitKeeps(v, g);
  }

  /** Over every run in which acknowledgements come in order, the stream, its numbers and the
      window are kept, and as long as no window reached the ring's size, so is every
      unacknowledged byte. */
  lemma {:induction false} SendRunKeeps(v: SendView, run: seq<SendEvent>)
    requires SendOk(v) && SendRun(v, run)
    ensures SendOk(SentBy(v, run))
  {
    if run != [] {
      SendRunKeeps(v, run[..|run| - 1]);
      StepKeepsSend(SentBy(v, run[..|run| - 1]), run[|run| - 1]);
    }
  }

  /** ---- A full ring ---- */

  lemma Continue(v: SendView, run: seq<SendEvent>, e: SendEvent) returns (longer: seq<SendEvent>)
    requires |v.buf| == BUFSIZE && SendRun(v, run) && SendCan(SentBy(v, run), e)
    ensures SendRun(v, longer) && SentBy(v, longer) == SendDo(SentBy(v, run), e)
  {
    longer := run + [e];
    assert longer[..|longer| - 1] == run;
  }

  /** Everything read that fits the window can be emitted, in pieces of TCP_MTU. */
  lemma {:induction false} EmitRest(v: SendView, done: seq<SendEvent>) returns (run: seq<SendEvent>)
    requires SendOk(v) && SendRun(v, done) && SentBy(v, done).established
    requires var w := SentBy(v, done); Outstanding(w) + (|w.read| - w.sent) <= w.inWin
    ensures SendRun(v, run)
    ensures var w, w' := SentBy(v, done), SentBy(v, run);
            && w'.established && w'.iss == w.iss && w'.sent == |w'.read| && w'.read == w.read
            && w'.acknowledged == w.acknowledged && w'.seqAcked == w.seqAcked && w'.buf == w.buf
    decreases |SentBy(v, done).read| - SentBy(v, done).sent
  {
    hide Numbered, Payloads, Retained;
    run := done;
    SendRunKeeps(v, done);
    var w := SentBy(v, done);
    if w.sent < |w.read| {
      TrueDistance(w);
      var n := if |w.read| - w.sent > TCP_MTU then TCP_MTU else |w.read| - w.sent;
      var g := Segment(0, 0, w.seqNo, 0, AckFlag, 0, w.read[w.sent..w.sent + n]);
      run := Continue(v, done, Emits(g));
      run := EmitRest(v, run);
    }
  }

  function Unopened(iss: u32, buf: seq<byte>): SendView {
    SendView(false, iss, iss, iss, 0, [], 0, 0, 0, [], buf)
  }

  /** The whole ring is read after the handshake, from the start of the ring. */
  lemma ReadRing(iss: u32, buf: seq<byte>, window: u16, bytes: seq<byte>) returns (run: seq<SendEvent>)
    requires |buf| == |bytes| == BUFSIZE && (iss + 1) % BUFSIZE == 0 && iss + 1 < 0x1_0000_0000
    ensures var v := Unopened(iss, buf);
            && SendRun(v, run)
            && SentBy(v, run) == v.(established := true, seqNo := iss + 1, seqAcked := iss + 1, inWin := window * 256,
                                    read := bytes, acknowledged := 1, widest := window * 256, buf := bytes)
  {
    var v := Unopened(iss, buf);
    assert SendRun(v, []) && SentBy(v, []) == v;
    assert Wrap32(iss + 1) == iss + 1 && MaxReceive(iss + 1, iss + 1) == BUFSIZE;
    hide SendRun, SentBy, Wrap32, MaxReceive;
    run := Continue(v, [], Opens(window));
    var v1 := SentBy(v, run);
    assert v1 == v.(established := true, seqNo := iss + 1, inWin := window * 256, widest := window * 256);
    run := Continue(v, run, Acknowledges(iss + 1, window));
    var v2 := SentBy(v, run);
    assert v2 == v1.(seqAcked := iss + 1, acknowledged := 1);
    assert buf[..0] + bytes + buf[BUFSIZE..] == bytes && v2.read + bytes == bytes;
    hide Opened, Acknowledge;
    run := Continue(v, run, Reads(bytes));
  }

  /** A device whose first window is 512 KiB or more, and that then acknowledges the SYN alone,
      lets the ring fill up: nothing is free, and all of it is found to be. */
  lemma FullRingReachable(iss: u32, buf: seq<byte>, window: u16, bytes: seq<byte>) returns (run: seq<SendEvent>)
    requires |buf| == |bytes| == BUFSIZE && (iss + 1) % BUFSIZE == 0 && iss + 1 < 0x1_0000_0000
    requires window * 256 >= BUFSIZE
    ensures SendRun(Unopened(iss, buf), run)
    ensures var w := SentBy(Unopened(iss, buf), run);
            && w.established && w.sent == |w.read| && w.read == w.buf == bytes && w.acknowledged == 1
            && Outstanding(w) == MaxReceive(w.seqNo, w.seqAcked) == BUFSIZE && w.seqNo % BUFSIZE == 0
  {
    var v := Unopened(iss, buf);
    var done := ReadRing(iss, buf, window, bytes);
    assert SendOk(v);
    hide SendOk, MaxReceive, SentBy, SendRun;
    run := EmitRest(v, done);
    SendRunKeeps(v, run);
    FullRing(SentBy(v, run));
  }

  lemma FullRing(w: SendView)
    requires SendOk(w) && w.established && w.sent == BUFSIZE && w.acknowledged == 1
    requires (w.iss + 1) % BUFSIZE == 0 && w.seqAcked == w.iss + 1
    ensures Outstanding(w) == MaxReceive(w.seqNo, w.seqAcked) == BUFSIZE && w.seqNo % BUFSIZE == 0
  {
    hide Numbered, Payloads, Retained;
    SlotOfWrapped(w.iss + 1 + BUFSIZE);
  }

  /** What is read next overwrites the oldest unacknowledged byte. */
  lemma FullRingLoses(v: SendView, run: seq<SendEvent>, more: byte) returns (longer: seq<SendEvent>)
    requires |v.buf| == BUFSIZE && SendRun(v, run)
    requires var w := SentBy(v, run);
             && w.established && w.sent == |w.read| == BUFSIZE && w.acknowledged == 1 && w.read[0] != more
             && MaxReceive(w.seqNo, w.seqAcked) == BUFSIZE && w.seqNo % BUFSIZE == 0
    ensures SendRun(v, longer)
    ensures var w' := SentBy(v, longer);
            |w'.read| > 0 && w'.acknowledged == 1 && w'.buf[w'.seqNo % BUFSIZE] != w'.read[0]
  {
    longer := Continue(v, run, Reads([more]));
  }
}
