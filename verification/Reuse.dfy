/** Without the hypotheses: exactly what ends a receiver, and what happens when a port is used
    again while a packet for the connection before is under way. */
module Reuse {
  import opened Wrapping
  import opened Packets
  import opened Connection
  import opened Receivers
  import opened ReceiveSafety
  import opened Addressing
  import opened Progress
  import opened Stuck

  /** ---- What ends a receiver ---- */

  /** The next step of receiver r throws: on a malformed transfer before its turn, on a version
      packet or one that is too short behind it, on anything but SYN/ACK and resets while the
      connection is being set up, and on an acknowledgement that is due and rejected. */
  ghost predicate Throws(s: State, r: nat, mode: AckMode)
    requires Possible(s, Runs(r, mode))
  {
    var p := s.stream[s.rs[r].i];
    match s.rs[r]
    case Taken(_) => p.kind.Malformed?
    case Past(_) => p.kind.Version? || p.kind.Short?
    case LookedUp(_, c) =>
      var k := s.tcp[c];
      || (k.status.Connecting? && (p.kind.Ack? || p.kind.Other?))
      || (k.status.Connecting? && p.kind.SynAck? && mode.Rejected? && k.acked != Wrap32(p.seqNo + 1))
      || (k.status.Connected? && p.kind.Ack? && ThrowsInTurn(k, p, mode))
    case AckRetry(_, c) => ThrowsInTurn(s.tcp[c], p, mode)
    case _ => false
  }

  predicate ThrowsInTurn(k: Conn, p: Packet, mode: AckMode) {
    k.ack == p.seqNo && p.payload != [] && mode.Rejected? && k.acked != Wrap32(k.ack + |p.payload|)
  }

  /** In every run, for any device, a step ends its receiver if and only if it throws. */
  lemma FailsExactly(n: nat, s: State, r: nat, mode: AckMode)
    requires Attainable(n, s) && Possible(s, Runs(r, mode))
    ensures IsEnded(Do(s, Runs(r, mode)).rs[r]) <==> Throws(s, r, mode)
  {
    AttainableAddressed(n, s);
    hide Attainable;
    assert Addressee(s, r);
    hide Addressed;
    match s.rs[r] {
      case LookedUp(i, c) =>
        InputThrows(s.tcp[c], s.stream[i], mode);
        assert Do(s, Runs(r, mode)) == AfterInput(s, r, c, InputSection(s.tcp[c], s.stream[i], mode));
        hide Do, InputSection, AckSection, ThrowsInTurn;
      case AckRetry(i, c) =>
        TurnThrows(s.tcp[c], s.stream[i], mode);
        assert Do(s, Runs(r, mode)) == AfterInput(s, r, c, AckSection(s.tcp[c], s.stream[i], mode));
        hide Do, InputSection, AckSection, ThrowsInTurn;
      case _ => OthersThrow(s, r, mode);
    }
  }

  lemma OthersThrow(s: State, r: nat, mode: AckMode)
    requires Possible(s, Runs(r, mode)) && !s.rs[r].LookedUp? && !s.rs[r].AckRetry?
    ensures IsEnded(Do(s, Runs(r, mode)).rs[r]) <==> Throws(s, r, mode)
  {
    hide ForwardSection, MuxEntry, MuxLoop;
  }

  lemma TurnThrows(k: Conn, p: Packet, mode: AckMode)
    ensures AckSection(k, p, mode).1.Dropped? <==> ThrowsInTurn(k, p, mode)
    ensures !AckSection(k, p, mode).1.Faulted? && !AckSection(k, p, mode).1.Unanswered?
  {
  }

  lemma InputThrows(k: Conn, p: Packet, mode: AckMode)
    requires IsTcp(p.kind)
    ensures var turn := InputSection(k, p, mode).1;
            turn.Dropped? || turn.Faulted? || turn.Unanswered? <==>
            || (k.status.Connecting? && (p.kind.Ack? || p.kind.Other?))
            || (k.status.Connecting? && p.kind.SynAck? && mode.Rejected? && k.acked != Wrap32(p.seqNo + 1))
            || (k.status.Connected? && p.kind.Ack? && ThrowsInTurn(k, p, mode))
  {
    TurnThrows(k, p, mode);
    hide AckSection, ThrowsInTurn;
  }

  /** ---- A port used again ---- */

  lemma RawStep(s: State, run: seq<Event>, e: Event)
    requires Feasible(s, run) && Possible(Ends(s, run), e)
    ensures Feasible(s, run + [e]) && Ends(s, run + [e]) == Do(Ends(s, run), e)
  {
    assert Front(run + [e]) == run && Last(run + [e]) == e;
  }

  lemma AttainStep(n: nat, s: State, e: Event)
    requires Attainable(n, s) && Possible(s, e)
    ensures Attainable(n, Do(s, e))
  {
    var run :| Feasible(Start(n), run) && Ends(Start(n), run) == s;
    RawStep(Start(n), run, e);
  }

  const OLD := Segment(1, 1, 1, [7])

  /** A data packet sent in good order waits to be looked up; its connection has been closed. */
  lemma OldUnderWay(n: nat) returns (s: State)
    requires 0 < n < 0x1_0000
    ensures Reachable(n, s) && |s.rs| == n && s.rs == seq(n, _ => Idle)[0 := Past(1)]
    ensures s.stream == [GREETING, OLD] && |s.owner| == s.accepted == 2 && s.rxSeq == 1 && s.dataIn == 2
    ensures s.conns == map[] && |s.tcp| == 1 && s.reaper.Away? && s.rejections == 0
  {
    hide Reachable;
    WelcomedReachable(n);
    var s0 := Welcomed(n);
    PairOffsets([7], 1, OLD);
    SendStep(n, s0, OLD);
    var s1 := s0.(stream := [GREETING, OLD]);
    assert s0.stream + [OLD] == s1.stream;
    TakeStep(n, s1, 0);
    var s2 := s1.(rs := s1.rs[0 := Taken(1)], owner := s1.owner + [0]);
    MuxStep(n, s2, 0, MuxAccept);
    var s3 := AfterMux(s2, 0, MuxAccept);
    TeardownStep(n, s3, 1);
    s := s3.(tcp := s3.tcp[0 := WakeForwarders(Die(s3.tcp[0]))], conns := s3.conns - {1});
    assert s.rs == seq(n, _ => Idle)[0 := Past(1)];
  }

  /** The port is used again, which no hypothesis but that on ports forbids. */
  lemma Reopened(n: nat) returns (s: State)
    requires 0 < n < 0x1_0000
    ensures Attainable(n, s) && |s.rs| == n && s.rs == seq(n, _ => Idle)[0 := Past(1)]
    ensures s.stream == [GREETING, OLD] && |s.owner| == s.accepted == 2 && s.rxSeq == 1 && s.dataIn == 2
    ensures s.conns == map[1 := 1] && |s.tcp| == 2 && s.tcp[1] == Fresh(1, 0) && s.reaper.Away? && s.rejections == 0
  {
    hide Reachable, Attainable;
    var s0 := OldUnderWay(n);
    ReachableIsAttainable(n, s0);
    AttainStep(n, s0, Opens(1, 0));
    s := Do(s0, Opens(1, 0));
  }

  /** First case: the old packet meets the new connection before its handshake, and the receiver
      fails. */
  lemma ReusedPortFails(n: nat) returns (s: State)
    requires 0 < n < 0x1_0000
    ensures Attainable(n, s) && |s.rs| == n && s.rs[0].Failed? && s.rejections == 0
  {
    hide Attainable;
    var s0 := Reopened(n);
    AttainStep(n, s0, Runs(0, Passed));
    var s1 := s0.(rs := s0.rs[0 := LookedUp(1, 1)]);
    assert Do(s0, Runs(0, Passed)) == s1;
    AttainStep(n, s1, Runs(0, Passed));
    s := s1.(rs := s1.rs[0 := Failed(1)]);
    assert s1.tcp[1 := s1.tcp[1]] == s1.tcp;
    assert Do(s1, Runs(0, Passed)) == s;
  }

  /** The device's greeting of the new connection, whose first byte is number first + 1. */
  function SecondGreeting(first: u32): Packet {
    Packet(1, 1, 2, SynAck, first, 1, 16, [])
  }

  /** The second greeting has passed the mux turn. */
  lemma SecondGreetingPast(n: nat, first: u32) returns (s: State)
    requires 1 < n < 0x1_0000 && first < 100
    ensures Attainable(n, s) && |s.rs| == n && s.rs[0] == Past(1) && s.rs[1] == Past(2)
    ensures s.stream == [GREETING, OLD, SecondGreeting(first)] && s.reaper.Away? && s.conns == map[1 := 1]
    ensures |s.tcp| == 2 && s.tcp[1] == Fresh(1, 0)
  {
    hide Attainable;
    var s0 := Reopened(n);
    var p := SecondGreeting(first);
    AttainStep(n, s0, DeviceSends(p));
    var s1 := s0.(stream := [GREETING, OLD, p]);
    assert s0.stream + [p] == s1.stream;
    AttainStep(n, s1, Takes(1));
    var s2 := s1.(rs := s1.rs[1 := Taken(2)], owner := s1.owner + [1]);
    AttainStep(n, s2, Runs(1, Passed));
    s := AfterMux(s2, 1, MuxAccept);
    assert Do(s2, Runs(1, Passed)) == s;
  }

  /** The new connection has been set up while the old packet still waits to be looked up. */
  lemma Reconnected(n: nat, first: u32) returns (s: State)
    requires 1 < n < 0x1_0000 && first < 100
    ensures Attainable(n, s) && |s.rs| == n && s.rs[0] == LookedUp(1, 1)
    ensures s.stream == [GREETING, OLD, SecondGreeting(first)] && |s.tcp| == 2 && s.reaper.Away?
    ensures var k := s.tcp[1];
            && k.status.Connected? && k.ack == k.pktForwarded == first + 1 && k.toClient == [] && !k.held
            && k.admitted == k.forwarded == 0
  {
    hide Attainable, MuxEntry, MuxLoop;
    var s3 := SecondGreetingPast(n, first);
    var p := SecondGreeting(first);
    AttainStep(n, s3, Runs(1, Passed));
    var s4 := s3.(rs := s3.rs[1 := LookedUp(2, 1)]);
    assert Do(s3, Runs(1, Passed)) == s4;
    AttainStep(n, s4, Runs(1, Passed));
    GreetedFrame(p);
    var k := Handshake(Fresh(1, 0), p);
    hide Handshake;
    var s5 := s4.(tcp := s4.tcp[1 := k], rs := s4.rs[1 := Idle]);
    assert Do(s4, Runs(1, Passed)) == s5;
    AttainStep(n, s5, Runs(0, Passed));
    s := s5.(rs := s5.rs[0 := LookedUp(1, 1)]);
    assert Do(s5, Runs(0, Passed)) == s;
  }

  lemma GreetedFrame(p: Packet)
    requires p.seqNo < 100
    ensures var k := Handshake(Fresh(1, 0), p);
            && k.status.Connected? && k.ack == k.pktForwarded == p.seqNo + 1 && k.toClient == [] && !k.held
            && k.admitted == k.forwarded == 0
  {
  }

  /** Second case: the numbers differ, and the receiver waits at the turn of a connection the
      packet does not belong to. */
  lemma StaleWaits(n: nat) returns (s: State)
    requires 1 < n < 0x1_0000
    ensures Attainable(n, s) && |s.rs| == n && s.rs[0].AckWait? && Sleeping(s, 0)
    ensures s.rs[0].i < |s.stream| && s.stream[s.rs[0].i].cid != s.rs[0].c
  {
    hide Attainable;
    var s0 := Reconnected(n, 5);
    AttainStep(n, s0, Runs(0, Passed));
    s := s0.(rs := s0.rs[0 := AckWait(1, 1, s0.tcp[1].canSend + 1)]);
    assert s0.tcp[1 := s0.tcp[1]] == s0.tcp;
    assert Do(s0, Runs(0, Passed)) == s;
  }

  /** Third case: the numbers agree, and the byte is handed to the new connection's client,
      although the device has sent that connection nothing. */
  lemma StaleDelivered(n: nat) returns (s: State)
    requires 1 < n < 0x1_0000
    ensures Attainable(n, s) && |s.rs| == n && |s.tcp| == 2
    ensures s.tcp[1].toClient == [7] && Bytes(s.stream, 1, |s.stream|) == []
  {
    hide Attainable;
    var s0 := Reconnected(n, 0);
    var k := s0.tcp[1];
    AttainStep(n, s0, Runs(0, Deferred));
    AdmitForwards(k, OLD);
    var k1 := Admit(k, OLD, Deferred);
    hide Admit;
    var s1 := s0.(tcp := s0.tcp[1 := k1], rs := s0.rs[0 := Admitted(1, 1)]);
    assert Do(s0, Runs(0, Deferred)) == s1;
    AttainStep(n, s1, Runs(0, Passed));
    s := Do(s1, Runs(0, Passed));
    assert s.tcp[1].toClient == [] + [7];
    NothingCarried(s.stream, 1, |s.stream|);
  }

  lemma AdmitForwards(k: Conn, p: Packet)
    ensures var k' := Admit(k, p, Deferred);
            && k'.status == k.status && k'.pktForwarded == k.pktForwarded && k'.toClient == k.toClient && k'.held == k.held
  {
  }
}
