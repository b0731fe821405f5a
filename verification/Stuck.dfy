/** The ways in which a receiver comes to wait for good, each reached by a short run. */
module Stuck {
  import opened Wrapping
  import opened Packets
  import opened Holdings
  import opened Connection
  import opened Receivers
  import opened ReceiveSafety
  import opened Delivery
  import opened Progress
  import opened Fates

  /** ---- A connection with two packets looked up by two receivers ---- */

  const GREETING := Packet(0, 1, 0, SynAck, 0, 1, 16, [])

  function Segment(txSeq: u16, seqNo: u32, ackNo: u32, payload: seq<byte>): Packet {
    Packet(0, 1, txSeq, Ack, seqNo, ackNo, 16, payload)
  }

  /** Port 1 is connected; the device's first byte is number 1. */
  function Welcomed(n: nat): State
    requires n > 0
  {
    State([GREETING], [0], 1, 0, 1, seq(n, _ => Idle), map[1 := 0], [Handshake(Fresh(1, 0), GREETING)], Away, 0)
  }

  lemma InputStep(n: nat, s: State, r: nat, mode: AckMode)
    requires Reachable(n, s) && r < |s.rs| && s.rs[r].LookedUp? && s.rs[r].i < |s.stream| && s.rs[r].c < |s.tcp|
    requires !s.tcp[s.rs[r].c].held
    ensures Reachable(n, AfterInput(s, r, s.rs[r].c, InputSection(s.tcp[s.rs[r].c], s.stream[s.rs[r].i], mode)))
  {
    ReachableStep(n, s, Runs(r, mode));
  }

  lemma ForwardStep(n: nat, s: State, r: nat)
    requires Reachable(n, s) && r < |s.rs| && s.rs[r].Admitted? && s.rs[r].i < |s.stream| && s.rs[r].c < |s.tcp|
    ensures Reachable(n, AfterForward(s, r, s.rs[r].c, ForwardSection(s.tcp[s.rs[r].c], s.stream[s.rs[r].i])))
  {
    ReachableStep(n, s, Runs(r, Deferred));
  }

  lemma SendStep(n: nat, s: State, p: Packet)
    requires Reachable(n, s) && WellFormed(s, p)
    ensures Reachable(n, s.(stream := s.stream + [p]))
  {
    ReachableStep(n, s, DeviceSends(p));
  }

  lemma OpenStep(n: nat, s: State, port: u16, iss: u32)
    requires Reachable(n, s) && port != 0 && port !in s.conns && s.stream == [] && s.reaper.Away?
    ensures Reachable(n, s.(conns := s.conns[port := |s.tcp|], tcp := s.tcp + [Fresh(port, iss)]))
  {
    ReachableStep(n, s, Opens(port, iss));
  }

  /** The reaper tears the connection on a port down. */
  lemma DieStep(n: nat, s: State, port: u16)
    requires Reachable(n, s) && port in s.conns && s.conns[port] < |s.tcp| && s.reaper.Away?
    requires !s.tcp[s.conns[port]].status.Dying? && !s.tcp[s.conns[port]].held
    ensures Reachable(n, s.(tcp := s.tcp[s.conns[port] := Die(s.tcp[s.conns[port]])], reaper := Inside(port)))
  {
    hide Reachable;
    ReachableStep(n, s, Enters(port));
    ReachableStep(n, s.(reaper := Inside(port)), Dies(port));
  }

  /** And unmaps it. */
  lemma TeardownStep(n: nat, s: State, port: u16)
    requires Reachable(n, s) && port in s.conns && s.conns[port] < |s.tcp| && s.reaper.Away?
    requires !s.tcp[s.conns[port]].status.Dying? && !s.tcp[s.conns[port]].held
    ensures Reachable(n, s.(tcp := s.tcp[s.conns[port] := WakeForwarders(Die(s.tcp[s.conns[port]]))], conns := s.conns - {port}))
  {
    hide Reachable;
    var c := s.conns[port];
    DieStep(n, s, port);
    var s1 := s.(tcp := s.tcp[c := Die(s.tcp[c])], reaper := Inside(port));
    ReachableStep(n, s1, Closes(port));
    assert s1.tcp[c := WakeForwarders(s1.tcp[c])] == s.tcp[c := WakeForwarders(Die(s.tcp[c]))];
  }

  /** The greeting is taken by receiver 0. */
  function GreetingTaken(n: nat): State
    requires n > 0
  {
    State([GREETING], [0], 0, 0xffff, 0, seq(n, _ => Idle)[0 := Taken(0)], map[1 := 0], [Fresh(1, 0)], Away, 0)
  }

  lemma GreetingTakenReachable(n: nat)
    requires 0 < n < 0x1_0000
    ensures Reachable(n, GreetingTaken(n))
  {
    hide Reachable;
    QuietReachable(n, 0);
    var s := Quiet(n, 0);
    OpenStep(n, s, 1, 0);
    s := s.(conns := map[1 := 0], tcp := [Fresh(1, 0)]);
    SendStep(n, s, GREETING);
    s := s.(stream := [GREETING]);
    TakeStep(n, s, 0);
    assert s.(rs := s.rs[0 := Taken(0)], owner := s.owner + [0]) == GreetingTaken(n);
  }

  lemma WelcomedReachable(n: nat)
    requires 0 < n < 0x1_0000
    ensures Reachable(n, Welcomed(n))
  {
    hide Reachable;
    GreetingTakenReachable(n);
    var s := GreetingTaken(n);
    MuxStep(n, s, 0, MuxAccept);
    s := AfterMux(s, 0, MuxAccept);
    LookupStep(n, s, 0);
    s := AfterLookup(s, 0);
    InputStep(n, s, 0, Deferred);
    s := AfterInput(s, 0, 0, InputSection(s.tcp[0], GREETING, Deferred));
    assert s.rs == Welcomed(n).rs;
    assert s == Welcomed(n);
  }

  /** The connection once len bytes have been sent to the device. */
  function Spoken(len: nat): Conn { SendSegment(Handshake(Fresh(1, 0), GREETING), len) }

  lemma SpokenFrame(len: nat)
    requires len < 0x1_0000
    ensures var k := Spoken(len);
            && k.status.Connected? && k.established && k.seqNo == 1 + len && k.ack == k.acked == k.pktForwarded == 1
            && !k.held && !k.broken
  {
  }

  /** Then segments with payloads a and b, acknowledging x and y, are looked up by receivers
      0 and 1. */
  function Pair(n: nat, len: nat, a: seq<byte>, x: u32, b: seq<byte>, y: u32): State
    requires n > 1 && |a| < 9
  {
    State([GREETING, Segment(1, 1, x, a), Segment(2, 1 + |a|, y, b)], [0, 0, 1], 3, 2, 3,
          seq(n, r => if r == 0 then LookedUp(1, 0) else if r == 1 then LookedUp(2, 0) else Idle),
          map[1 := 0], [Spoken(len)], Away, 0)
  }

  lemma PairOffsets(a: seq<byte>, x: u32, q: Packet)
    ensures Off([GREETING], 0, 1) == 0
    ensures Off([GREETING, Segment(1, 1, x, a)], 0, 2) == |a|
    ensures Off([GREETING, Segment(1, 1, x, a), q], 0, 1) == 0
    ensures Off([GREETING, Segment(1, 1, x, a), q], 0, 2) == |a|
  {
    assert Off([GREETING], 0, 0) == 0;
    var two := [GREETING, Segment(1, 1, x, a)];
    assert Off(two, 0, 0) == Off(two, 0, 1) == 0;
    var three := [GREETING, Segment(1, 1, x, a), q];
    assert Off(three, 0, 0) == Off(three, 0, 1) == 0;
  }

  lemma PairSent(n: nat, len: nat, a: seq<byte>, x: u32, b: seq<byte>, y: u32)
    requires 1 < n < 0x1_0000 && |a| < 9 && |b| < 9
    ensures Reachable(n, Welcomed(n).(stream := Pair(n, len, a, x, b, y).stream, tcp := [Spoken(len)]))
  {
    hide Reachable;
    var p, q := Segment(1, 1, x, a), Segment(2, 1 + |a|, y, b);
    WelcomedReachable(n);
    PairOffsets(a, x, q);
    var s := Welcomed(n);
    ReachableStep(n, s, SenderSends(0, len, false));
    s := s.(tcp := [Spoken(len)]);
    SendStep(n, s, p);
    assert s.stream + [p] == [GREETING, p];
    s := s.(stream := [GREETING, p]);
    SendStep(n, s, q);
    assert s.stream + [q] == Pair(n, len, a, x, b, y).stream;
  }

  lemma PairReachable(n: nat, len: nat, a: seq<byte>, x: u32, b: seq<byte>, y: u32)
    requires 1 < n < 0x1_0000 && |a| < 9 && |b| < 9
    ensures Reachable(n, Pair(n, len, a, x, b, y))
  {
    hide Reachable;
    PairSent(n, len, a, x, b, y);
    var s := Welcomed(n).(stream := Pair(n, len, a, x, b, y).stream, tcp := [Spoken(len)]);
    TakeStep(n, s, 0);
    s := s.(rs := s.rs[0 := Taken(1)], owner := s.owner + [0]);
    TakeStep(n, s, 1);
    s := s.(rs := s.rs[1 := Taken(2)], owner := s.owner + [1]);
    MuxStep(n, s, 0, MuxAccept);
    s := AfterMux(s, 0, MuxAccept);
    MuxStep(n, s, 1, MuxAccept);
    s := AfterMux(s, 1, MuxAccept);
    LookupStep(n, s, 0);
    s := AfterLookup(s, 0);
    LookupStep(n, s, 1);
    s := AfterLookup(s, 1);
    assert s.rs == Pair(n, len, a, x, b, y).rs;
    assert s == Pair(n, len, a, x, b, y);
  }

  /** ---- An acknowledgement overtaken by data ---- */

  /** The device acknowledges and then sends a byte; both carry the same sequence number,
      and the byte wins the race to the connection. */
  lemma OvertakenReachable(n: nat) returns (s: State)
    requires 1 < n < 0x1_0000
    ensures Reachable(n, s) && |s.rs| == n && s.rs[0].AckWait? && Overtaken(s, 0)
    ensures s.rs == seq(n, r => if r == 0 then AckWait(1, 0, 2) else if r == 1 then Admitted(2, 0) else Idle)
    ensures s == Pair(n, 0, [], 1, [7], 1).(rs := s.rs, tcp := s.tcp)
    ensures |s.tcp| == 1 && s.tcp[0].status.Connected? && s.tcp[0].established && s.tcp[0].base == 1
    ensures s.tcp[0].ack == 2 && s.tcp[0].pktForwarded == 1 && s.tcp[0].canSend == 1 && s.tcp[0].sport == 1
    ensures !s.tcp[0].held && s.reaper.Away?
  {
    hide Reachable;
    var s0 := Pair(n, 0, [], 1, [7], 1);
    PairReachable(n, 0, [], 1, [7], 1);
    InputStep(n, s0, 1, Deferred);
    var k := Admit(s0.tcp[0], s0.stream[2], Deferred);
    var s1 := s0.(tcp := [k], rs := s0.rs[1 := Admitted(2, 0)]);
    assert AfterInput(s0, 1, 0, InputSection(s0.tcp[0], s0.stream[2], Deferred)) == s1;
    InputStep(n, s1, 0, Deferred);
    s := s1.(rs := s1.rs[0 := AckWait(1, 0, 2)]);
    assert AfterInput(s1, 0, 0, InputSection(s1.tcp[0], s1.stream[1], Deferred)).tcp == s1.tcp;
    PairOffsets([], 1, s0.stream[2]);
    OvertakenPair(s0.stream);
  }

  lemma OvertakenPair(stream: seq<Packet>)
    requires |stream| == 3 && Off(stream, 0, 2) == 0 && Data(stream[2], 0) && |stream[2].payload| == 1
    ensures AdmittedAfter(stream, 0, 1, 1)
  {
  }

  /** Such a receiver stays at its acknowledgement turn as long as its connection lives and
      fewer than 2^32 bytes are admitted after its packet. */
  lemma OvertakenStep(s: State, r: nat, e: Event)
    requires Inv(s) && Can(s, e) && r < |s.rs| && (s.rs[r].AckWait? || s.rs[r].AckRetry?)
    requires s.rs[r].c < |s.tcp| && s.rs[r].i < |s.stream|
    requires s.tcp[s.rs[r].c].status.Connected?
    requires Off(s.stream, s.rs[r].c, s.rs[r].i) < s.tcp[s.rs[r].c].admitted < Off(s.stream, s.rs[r].c, s.rs[r].i) + 0x1_0000_0000
    ensures var s' := Do(s, e);
            && |s'.rs| == |s.rs| && (s'.rs[r].AckWait? || s'.rs[r].AckRetry?)
            && s'.rs[r].i == s.rs[r].i && s'.rs[r].c == s.rs[r].c
            && Off(s'.stream, s.rs[r].c, s.rs[r].i) == Off(s.stream, s.rs[r].c, s.rs[r].i)
  {
    OvertakenNumbersDiffer(s, r);
    hide Inv;
    if e.DeviceSends? {
      OffStable(s.stream, [e.p], s.rs[r].c, s.rs[r].i);
    }
  }

  lemma OvertakenNumbersDiffer(s: State, r: nat)
    requires Inv(s) && r < |s.rs| && (s.rs[r].AckWait? || s.rs[r].AckRetry?)
    requires s.rs[r].c < |s.tcp| && s.rs[r].i < |s.stream|
    requires Off(s.stream, s.rs[r].c, s.rs[r].i) < s.tcp[s.rs[r].c].admitted < Off(s.stream, s.rs[r].c, s.rs[r].i) + 0x1_0000_0000
    ensures s.tcp[s.rs[r].c].ack != s.stream[s.rs[r].i].seqNo
  {
    var i, c := s.rs[r].i, s.rs[r].c;
    assert PhaseOk(s, r) && PacketOk(s.stream, s.tcp, i) && ConnOk(s, c);
    Apart32(s.tcp[c].base + s.tcp[c].admitted, s.tcp[c].base + Off(s.stream, c, i));
  }

  lemma {:induction false} OvertakenStuck(s: State, r: nat, run: seq<Event>)
    requires Inv(s) && Valid(s, run) && r < |s.rs| && (s.rs[r].AckWait? || s.rs[r].AckRetry?)
    requires s.rs[r].c < |s.tcp| && s.rs[r].i < |s.stream| && s.tcp[s.rs[r].c].established
    requires Off(s.stream, s.rs[r].c, s.rs[r].i) < s.tcp[s.rs[r].c].admitted
    requires s.rs[r].c < |After(s, run).tcp| && After(s, run).tcp[s.rs[r].c].status.Connected?
    requires After(s, run).tcp[s.rs[r].c].admitted < Off(s.stream, s.rs[r].c, s.rs[r].i) + 0x1_0000_0000
    ensures var s' := After(s, run);
            && r < |s'.rs| && (s'.rs[r].AckWait? || s'.rs[r].AckRetry?)
            && s'.rs[r].i == s.rs[r].i && s'.rs[r].c == s.rs[r].c
            && |s.stream| <= |s'.stream|
            && Off(s'.stream, s.rs[r].c, s.rs[r].i) == Off(s.stream, s.rs[r].c, s.rs[r].i)
    decreases |run|
  {
    var c := s.rs[r].c;
    if run != [] {
      var m := After(s, Front(run));
      RunKeeps(s, Front(run));
      RunExtends(s, Front(run), c);
      StepExtends(m, Last(run), c);
      OvertakenStuck(s, r, Front(run));
      OvertakenStep(m, r, Last(run));
    }
  }

  /** ---- Asleep at the forward turn of a connection torn down ---- */

  /** It happens when the teardown's notification comes before the ticket is taken: the loop
      does not test the connection state before its first wait, and the receiver it waits
      for leaves without notifying. */
  lemma AbandonedReachable(n: nat) returns (s: State)
    requires 1 < n < 0x1_0000
    ensures Reachable(n, s) && |s.rs| == n && Abandoned(s, 1) && s.rs[0].Idle?
  {
    hide Reachable;
    var s2 := BothAdmitted(n);
    var k := WakeForwarders(Die(s2.tcp[0]));
    TeardownStep(n, s2, 1);
    var s3 := s2.(tcp := [k], conns := map[]);
    assert s2.tcp[0 := k] == [k];
    assert s2.conns - {1} == map[];
    ForwardStep(n, s3, 1);
    var s4 := s3.(rs := s3.rs[1 := FwdWait(2, 0, k.canClientSend + 1)]);
    assert AfterForward(s3, 1, 0, ForwardSection(k, s3.stream[2])) == s4;
    ForwardStep(n, s4, 0);
    s := s4.(rs := s4.rs[0 := Idle]);
    assert AfterForward(s4, 0, 0, ForwardSection(k, s4.stream[1])) == s;
  }

  lemma BothAdmitted(n: nat) returns (s: State)
    requires 1 < n < 0x1_0000
    ensures Reachable(n, s) && |s.rs| == n && s.stream == [GREETING, Segment(1, 1, 1, [7]), Segment(2, 2, 1, [8])]
    ensures s.rs[0] == Admitted(1, 0) && s.rs[1] == Admitted(2, 0) && s.conns == map[1 := 0]
    ensures |s.tcp| == 1 && s.tcp[0].pktForwarded == 1 && s.tcp[0].status.Connected?
    ensures !s.tcp[0].held && s.reaper.Away?
  {
    hide Reachable;
    var s0 := Pair(n, 0, [7], 1, [8], 1);
    PairReachable(n, 0, [7], 1, [8], 1);
    SpokenFrame(0);
    hide Spoken;
    InputStep(n, s0, 0, Deferred);
    var k := Admit(s0.tcp[0], s0.stream[1], Deferred);
    AdmitFrame(s0.tcp[0], s0.stream[1]);
    hide Admit;
    var s1 := s0.(tcp := [k], rs := s0.rs[0 := Admitted(1, 0)]);
    assert AfterInput(s0, 0, 0, InputSection(s0.tcp[0], s0.stream[1], Deferred)) == s1;
    InputStep(n, s1, 1, Deferred);
    AdmitFrame(k, s1.stream[2]);
    s := s1.(tcp := [Admit(k, s1.stream[2], Deferred)], rs := s1.rs[1 := Admitted(2, 0)]);
    assert AfterInput(s1, 1, 0, InputSection(k, s1.stream[2], Deferred)) == s;
  }

  lemma AdmitFrame(k: Conn, p: Packet)
    ensures var k' := Admit(k, p, Deferred);
            && k'.status == k.status && k'.pktForwarded == k.pktForwarded && k'.ack == Wrap32(k.ack + |p.payload|)
            && k'.canSend == k.canSend + 1 && k'.held == k.held && k'.broken == k.broken
  {
  }

  /** ---- Asleep at the acknowledgement turn of a connection torn down ---- */

  lemma WakeStep(n: nat, s: State, r: nat)
    requires Reachable(n, s) && r < |s.rs| && s.rs[r].AckWait? && !Sleeping(s, r)
    requires s.rs[r].i < |s.stream| && s.rs[r].c < |s.tcp|
    ensures Reachable(n, AfterWake(s, r, s.rs[r].c, AckRetry(s.rs[r].i, s.rs[r].c)))
  {
    ReachableStep(n, s, Runs(r, Deferred));
  }

  lemma RetryStep(n: nat, s: State, r: nat, mode: AckMode)
    requires Reachable(n, s) && r < |s.rs| && s.rs[r].AckRetry? && s.rs[r].i < |s.stream| && s.rs[r].c < |s.tcp|
    requires !s.tcp[s.rs[r].c].held
    ensures Reachable(n, AfterInput(s, r, s.rs[r].c, AckSection(s.tcp[s.rs[r].c], s.stream[s.rs[r].i], mode)))
  {
    ReachableStep(n, s, Runs(r, mode));
  }

  const THIRD := Segment(3, 2, 1, [8])

  /** The connection after the first data byte was handed on and the second one admitted. */
  lemma ThirdAdmitted(n: nat) returns (s: State)
    requires 1 < n < 0x1_0000
    ensures Reachable(n, s) && |s.rs| == n && s.rs[0] == AckWait(1, 0, 2) && s.conns == map[1 := 0]
    ensures |s.stream| == 4 && s.stream[1].seqNo == 1
    ensures |s.tcp| == 1 && s.tcp[0].status.Connected? && s.tcp[0].ack == 3 && s.tcp[0].canSend == 2
    ensures forall r :: 0 < r < n ==> s.rs[r].Idle? || s.rs[r].Admitted?
    ensures s.reaper.Away? && !s.tcp[0].held
  {
    hide Reachable;
    var s0 := OvertakenReachable(n);
    var k := s0.tcp[0];
    ForwardStep(n, s0, 1);
    ForwardFrame(k, s0.stream[2]);
    var k1 := ForwardSection(k, s0.stream[2]).0;
    var s1 := s0.(tcp := [k1], rs := s0.rs[1 := Idle]);
    assert AfterForward(s0, 1, 0, ForwardSection(k, s0.stream[2])) == s1;
    PairOffsets([], 1, s0.stream[2]);
    assert Off(s1.stream, 0, 3) == 1;
    SendStep(n, s1, THIRD);
    var s2 := s1.(stream := s1.stream + [THIRD]);
    TakeStep(n, s2, 1);
    var s3 := s2.(rs := s2.rs[1 := Taken(3)], owner := s2.owner + [1]);
    MuxStep(n, s3, 1, MuxAccept);
    var s4 := AfterMux(s3, 1, MuxAccept);
    LookupStep(n, s4, 1);
    var s5 := AfterLookup(s4, 1);
    InputStep(n, s5, 1, Deferred);
    AdmitFrame(k1, THIRD);
    hide Admit, ForwardSection;
    s := s5.(tcp := [Admit(k1, THIRD, Deferred)], rs := s5.rs[1 := Admitted(3, 0)]);
    assert AfterInput(s5, 1, 0, InputSection(k1, THIRD, Deferred)) == s;
  }

  lemma ForwardFrame(k: Conn, p: Packet)
    requires k.status.Connected? && p.seqNo == k.pktForwarded
    ensures var out := ForwardSection(k, p);
            && out.1.Finished? && out.0.status == k.status && out.0.ack == k.ack && out.0.canSend == k.canSend
            && out.0.established == k.established && out.0.base == k.base && out.0.sport == k.sport && out.0.held == k.held
  {
  }

  /** It happens when the teardown comes between the unlocked read of the connection state and
      the lock: the waiter was woken by another packet's admission, finds the connection
      connected, and takes its next ticket after the teardown has notified. */
  lemma AbandonedAckReachable(n: nat) returns (s: State)
    requires 1 < n < 0x1_0000
    ensures Reachable(n, s) && |s.rs| == n && AbandonedAck(s, 0)
  {
    hide Reachable;
    var s0 := ThirdAdmitted(n);
    WakeStep(n, s0, 0);
    var s1 := s0.(rs := s0.rs[0 := AckRetry(1, 0)]);
    assert AfterWake(s0, 0, 0, AckRetry(1, 0)) == s1;
    DieStep(n, s1, 1);
    var k := Die(s0.tcp[0]);
    var s2 := s1.(tcp := [k], reaper := Inside(1));
    assert s1.tcp[0 := k] == [k];
    RetryStep(n, s2, 0, Deferred);
    s := s2.(rs := s2.rs[0 := AckWait(1, 0, k.canSend + 1)]);
    assert AfterInput(s2, 0, 0, AckSection(k, s2.stream[1], Deferred)) == s;
    forall q | 0 <= q < |s.rs|
      ensures !CanTake(s, q, 0)
    {
    }
  }

  /** ---- A rejected acknowledgement ---- */

  /** Receiver 1 waits for its turn behind receiver 0, whose acknowledgement is then rejected:
      ack moves on to receiver 1's packet, and nobody tells it. */
  lemma LostWakeupReachable(n: nat) returns (s: State)
    requires 1 < n < 0x1_0000
    ensures Reachable(n, s) && |s.rs| == n && |s.tcp| == 1 && |s.stream| == 3 && s.tcp[0].broken
    ensures s.rs[0] == Lost(1, 0) && s.rs[1] == AckWait(2, 0, 1) && Sleeping(s, 1)
    ensures s.tcp[0].ack == s.stream[2].seqNo
    ensures s.conns == map[1 := 0] && s.reaper.Away? && !s.tcp[0].held && s.tcp[0].status.Connected?
  {
    hide Reachable;
    var s0 := Pair(n, 0, [7], 1, [8], 1);
    PairReachable(n, 0, [7], 1, [8], 1);
    var k := s0.tcp[0];
    SpokenFrame(0);
    hide Spoken;
    InputStep(n, s0, 1, Deferred);
    var s1 := s0.(rs := s0.rs[1 := AckWait(2, 0, k.canSend + 1)]);
    assert AfterInput(s0, 1, 0, InputSection(k, s0.stream[2], Deferred)) == s1;
    InputStep(n, s1, 0, Rejected);
    UnsentFrame(k, s1.stream[1]);
    hide AdmitUnsent;
    s := s1.(tcp := [AdmitUnsent(k, s1.stream[1])], rs := s1.rs[0 := Lost(1, 0)], rejections := 1);
    assert AfterInput(s1, 0, 0, InputSection(k, s1.stream[1], Rejected)) == s;
  }

  lemma UnsentFrame(k: Conn, p: Packet)
    ensures var k' := AdmitUnsent(k, p);
            && k'.status == k.status && k'.canSend == k.canSend && k'.ack == Wrap32(k.ack + |p.payload|) && k'.held == k.held
            && k'.pktForwarded == k.pktForwarded && k'.canClientSend == k.canClientSend && k'.broken
            && k'.established == k.established && (k.acked != k'.ack ==> AckDue(Counted(k, p)))
  {
  }

  /** The teardown that follows wakes it. */
  lemma LostWakeupHealed(n: nat) returns (s: State, s': State)
    requires 1 < n < 0x1_0000
    ensures Reachable(n, s) && |s.rs| == n && s.rs[1].AckWait? && Sleeping(s, 1) && |s.tcp| == 1 && s.tcp[0].broken
    ensures Reachable(n, s') && s'.rs == s.rs && !Sleeping(s', 1)
  {
    hide Reachable;
    s := LostWakeupReachable(n);
    DieStep(n, s, 1);
    s' := s.(tcp := s.tcp[0 := Die(s.tcp[0])], reaper := Inside(1));
  }

  /** ---- A rejected segment ---- */

  lemma HoldStep(n: nat, s: State, c: nat)
    requires Reachable(n, s) && c < |s.tcp| && s.tcp[c].established && !s.tcp[c].held
    ensures Reachable(n, s.(tcp := s.tcp[c := SendRejected(s.tcp[c], 1)]))
  {
    ReachableStep(n, s, SenderSends(c, 1, true));
  }

  /** The receivers of the connection then wait for its lock, and the reaper will, too. */
  lemma SegmentRejected(n: nat) returns (s: State, s': State)
    requires 1 < n < 0x1_0000
    ensures Reachable(n, s) && |s.rs| == n && LockedOutForGood(s, 0) && s.rs[0].LookedUp?
    ensures Reachable(n, s') && s'.rs == s.rs && ReaperStuck(s')
  {
    hide Reachable;
    var s0 := Pair(n, 0, [7], 1, [8], 1);
    PairReachable(n, 0, [7], 1, [8], 1);
    SpokenFrame(0);
    hide Spoken;
    HoldStep(n, s0, 0);
    s := s0.(tcp := s0.tcp[0 := SendRejected(s0.tcp[0], 1)]);
    ReachableStep(n, s, Enters(1));
    s' := s.(reaper := Inside(1));
  }

  /** Then a packet for any connection waits for the map. */
  lemma LookupBlocked(n: nat) returns (s: State)
    requires 0 < n < 0x1_0000
    ensures Reachable(n, s) && |s.rs| == n && ReaperStuck(s) && s.rs[0].Past? && LockedOutForGood(s, 0)
  {
    hide Reachable;
    WelcomedReachable(n);
    var s0 := Welcomed(n);
    var p := Segment(1, 1, 1, [7]);
    PairOffsets([7], 1, p);
    SendStep(n, s0, p);
    var s1 := s0.(stream := [GREETING, p]);
    assert s0.stream + [p] == s1.stream;
    TakeStep(n, s1, 0);
    var s2 := s1.(rs := s1.rs[0 := Taken(1)], owner := s1.owner + [0]);
    MuxStep(n, s2, 0, MuxAccept);
    var s3 := AfterMux(s2, 0, MuxAccept);
    HoldStep(n, s3, 0);
    var s4 := s3.(tcp := s3.tcp[0 := SendRejected(s3.tcp[0], 1)]);
    ReachableStep(n, s4, Enters(1));
    s := s4.(reaper := Inside(1));
  }

  /** With a payload lost and the lock left held, a receiver behind the payload is abandoned at
      the forward turn of a connection that is still connected. */
  lemma LostAndHeld(n: nat) returns (s: State)
    requires 1 < n < 0x1_0000
    ensures Reachable(n, s) && |s.rs| == n && Abandoned(s, 1) && |s.tcp| == 1 && s.tcp[0].status.Connected?
  {
    hide Reachable;
    var s0 := Pair(n, 0, [7], 1, [8], 1);
    PairReachable(n, 0, [7], 1, [8], 1);
    var k := s0.tcp[0];
    SpokenFrame(0);
    hide Spoken;
    InputStep(n, s0, 0, Rejected);
    var k1 := AdmitUnsent(k, s0.stream[1]);
    UnsentFrame(k, s0.stream[1]);
    hide AdmitUnsent;
    var s1 := s0.(tcp := [k1], rs := s0.rs[0 := Lost(1, 0)], rejections := 1);
    assert AfterInput(s0, 0, 0, InputSection(k, s0.stream[1], Rejected)) == s1;
    InputStep(n, s1, 1, Deferred);
    AdmitFrame(k1, s1.stream[2]);
    var k2 := Admit(k1, s1.stream[2], Deferred);
    var s2 := s1.(tcp := [k2], rs := s1.rs[1 := Admitted(2, 0)]);
    assert AfterInput(s1, 1, 0, InputSection(k1, s1.stream[2], Deferred)) == s2;
    AdmitEstablished(k1, s1.stream[2]);
    hide Admit;
    s := HeldBehind(n, s2);
  }

  /** The second payload's receiver falls asleep behind the first, and a segment is rejected. */
  lemma HeldBehind(n: nat, s2: State) returns (s: State)
    requires Reachable(n, s2) && |s2.rs| == n > 1 && |s2.tcp| == 1 && |s2.stream| == 3
    requires s2.rs[0] == Lost(1, 0) && s2.rs[1] == Admitted(2, 0)
    requires s2.stream[2].seqNo != s2.tcp[0].pktForwarded == s2.stream[1].seqNo
    requires s2.tcp[0].status.Connected? && s2.tcp[0].established && !s2.tcp[0].held
    ensures Reachable(n, s) && |s.rs| == n && Abandoned(s, 1) && |s.tcp| == 1 && s.tcp[0].status.Connected?
  {
    hide Reachable;
    var k := s2.tcp[0];
    ForwardStep(n, s2, 1);
    var s3 := s2.(rs := s2.rs[1 := FwdWait(2, 0, k.canClientSend + 1)]);
    assert s2.tcp[0 := k] == s2.tcp;
    assert AfterForward(s2, 1, 0, ForwardSection(k, s2.stream[2])) == s3;
    HoldStep(n, s3, 0);
    s := s3.(tcp := s3.tcp[0 := SendRejected(k, 1)]);
    assert NextIsLost(s, 0, 0);
  }

  lemma AdmitEstablished(k: Conn, p: Packet)
    ensures Admit(k, p, Deferred).established == k.established
  {
  }

  /** ---- Acknowledgements applied out of order ---- */

  /** After ten bytes, the device acknowledges five and then all ten. Both packets carry the
      same sequence number, so neither waits for the other, and the acknowledged position can
      go back to the earlier number. */
  lemma AckGoesBack(n: nat) returns (s: State, s': State)
    requires 1 < n < 0x1_0000
    ensures Reachable(n, s) && Reachable(n, s') && |s.tcp| == |s'.tcp| == 1
    ensures s.tcp[0].seqNo == s'.tcp[0].seqNo == s.tcp[0].seqAcked == 11 && s'.tcp[0].seqAcked == 6
  {
    hide Reachable;
    var s0 := Pair(n, 10, [], 6, [], 11);
    PairReachable(n, 10, [], 6, [], 11);
    SpokenFrame(10);
    hide Spoken;
    var k := s0.tcp[0];
    PureAckFrame(k, s0.stream[2]);
    InputStep(n, s0, 1, Deferred);
    var k' := Admit(k, s0.stream[2], Deferred);
    PureAckFrame(k', s0.stream[1]);
    hide Admit;
    s := s0.(tcp := [k'], rs := s0.rs[1 := Idle]);
    assert AfterInput(s0, 1, 0, InputSection(k, s0.stream[2], Deferred)) == s;
    InputStep(n, s, 0, Deferred);
    s' := s.(tcp := [Admit(k', s.stream[1], Deferred)], rs := s.rs[0 := Idle]);
    assert AfterInput(s, 0, 0, InputSection(k', s.stream[1], Deferred)) == s';
  }

  lemma PureAckFrame(k: Conn, p: Packet)
    requires p.payload == [] && k.ack < 0xffff
    ensures var k' := Admit(k, p, Deferred);
            k'.status == k.status && k'.seqNo == k.seqNo && k'.ack == k.ack && k'.seqAcked == p.ackNo
  {
  }
}
