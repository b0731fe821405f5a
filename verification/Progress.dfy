/** Sleeping and waking: who may sleep, who can go on, and the first of the situations in which
    the code leaves a receiver waiting for good. */
module Progress {
  import opened Wrapping
  import opened Packets
  import opened Holdings
  import opened Connection
  import opened Receivers
  import opened ReceiveSafety
  import opened Delivery

  /** ---- No lost wakeups ---- */

  /** Whoever sleeps on a ticket still has the condition it tested before it fell asleep, unless
      it waits for the acknowledgement turn of a connection whose own acknowledgement was
      rejected. */
  lemma NoLostWakeup(n: nat, s: State, r: nat)
    requires Reachable(n, s) && r < |s.rs| && Sleeping(s, r)
    ensures s.rs[r].i < |s.stream|
    ensures match s.rs[r]
            case MuxWait(i, _) => MuxBlocks(Expected(s), s.stream[i].txSeq, |s.rs|)
            case AckWait(i, c, _) => s.tcp[c].ack != s.stream[i].seqNo || s.tcp[c].broken
            case FwdWait(i, c, _) => s.tcp[c].pktForwarded != s.stream[i].seqNo
            case _ => false
  {
    hide Reachable;
    ReachableInv(n, s);
    assert PhaseOk(s, r);
  }

  /** The step loses a payload of connection c: it was admitted, and its acknowledgement rejected. */
  ghost predicate Loses(s: State, e: Event, c: nat)
    requires Possible(s, e)
  {
    e.Runs? && Do(s, e).rs[e.r] == Lost(s.rs[e.r].i, c)
  }

  /** How the two sections treat a connection that is through the handshake: ack changes only
      with a notification, or when the payload is lost. */
  lemma AckMoves(k: Conn, p: Packet, mode: AckMode)
    requires !k.status.Connecting?
    ensures forall out :: out == AckSection(k, p, mode) || out == InputSection(k, p, mode) ==>
              && out.0.canSend >= k.canSend
              && (out.1.Dropped? ==> out.0.canSend == k.canSend && out.0.ack == Wrap32(k.ack + |p.payload|))
              && (!out.1.Dropped? && out.0.canSend == k.canSend ==> out.0.ack == k.ack)
  {
  }

  lemma ForwardMoves(k: Conn, p: Packet)
    ensures ForwardSection(k, p).0.canSend == k.canSend && ForwardSection(k, p).0.ack == k.ack
  {
  }

  /** A step makes the condition of a sleeper at the acknowledgement turn true without waking it
      if and only if it loses a payload of that connection and the sleeper's packet is the one
      behind it. */
  lemma LosesWakeupExactly(s: State, e: Event, r: nat)
    requires Inv(s) && Can(s, e) && r < |s.rs| && s.rs[r].AckWait? && Sleeping(s, r)
    requires s.rs[r].i < |s.stream| && s.tcp[s.rs[r].c].ack != s.stream[s.rs[r].i].seqNo
    ensures var i, c := s.rs[r].i, s.rs[r].c;
            Sleeping(Do(s, e), r) && Do(s, e).tcp[c].ack == s.stream[i].seqNo <==>
            Loses(s, e, c) && Wrap32(s.tcp[c].ack + |s.stream[s.rs[e.r].i].payload|) == s.stream[i].seqNo
  {
    var c := s.rs[r].c;
    assert PhaseOk(s, r) && PacketOk(s.stream, s.tcp, s.rs[r].i) && ConnOk(s, c);
    hide Inv, ConnOk;
    if !e.Runs? {
      OthersNotify(s, e, c);
      hide Do;
    } else {
      RunsNotify(s, e.r, e.mode, c);
      hide Do;
    }
  }

  lemma OthersNotify(s: State, e: Event, c: nat)
    requires Can(s, e) && !e.Runs? && c < |s.tcp| && s.tcp[c].established
    ensures c < |Do(s, e).tcp| && Do(s, e).tcp[c].ack == s.tcp[c].ack
    ensures s.stream <= Do(s, e).stream && |Do(s, e).rs| == |s.rs|
    ensures forall q :: 0 <= q < |s.rs| && s.rs[q].AckWait? ==> Do(s, e).rs[q] == s.rs[q]
    ensures Do(s, e).tcp[c].canSend >= s.tcp[c].canSend
  {
    hide WellFormed;
  }

  lemma RunsNotify(s: State, q: nat, mode: AckMode, c: nat)
    requires Possible(s, Runs(q, mode)) && c < |s.tcp| && !s.tcp[c].status.Connecting?
    ensures var s' := Do(s, Runs(q, mode));
            && c < |s'.tcp| && s'.stream == s.stream && |s'.rs| == |s.rs|
            && (forall x :: 0 <= x < |s.rs| && x != q ==> s'.rs[x] == s.rs[x])
            && s'.tcp[c].canSend >= s.tcp[c].canSend
            && (s'.rs[q] == Lost(s.rs[q].i, c) ==> s'.tcp[c].canSend == s.tcp[c].canSend
                                                   && s'.tcp[c].ack == Wrap32(s.tcp[c].ack + |s.stream[s.rs[q].i].payload|))
            && (s'.rs[q] != Lost(s.rs[q].i, c) && s'.tcp[c].canSend == s.tcp[c].canSend ==> s'.tcp[c].ack == s.tcp[c].ack)
  {
    if s.rs[q].LookedUp? || s.rs[q].AckRetry? {
      AckMoves(s.tcp[c], s.stream[s.rs[q].i], mode);
      hide AckSection, InputSection;
    } else {
      OtherRunsNotify(s, q, mode, c);
      hide Do;
    }
  }

  lemma OtherRunsNotify(s: State, q: nat, mode: AckMode, c: nat)
    requires Possible(s, Runs(q, mode)) && c < |s.tcp| && !s.rs[q].LookedUp? && !s.rs[q].AckRetry?
    ensures var s' := Do(s, Runs(q, mode));
            && c < |s'.tcp| && s'.stream == s.stream && |s'.rs| == |s.rs|
            && (forall x :: 0 <= x < |s.rs| && x != q ==> s'.rs[x] == s.rs[x])
            && s'.tcp[c].canSend == s.tcp[c].canSend && s'.tcp[c].ack == s.tcp[c].ack && !s'.rs[q].Lost?
  {
    ForwardMoves(s.tcp[c], s.stream[s.rs[q].i]);
    hide MuxEntry, MuxLoop, ForwardSection;
  }

  /** Tearing a connection down wakes everyone who sleeps on it at that moment. */
  lemma TeardownWakes(n: nat, s: State, port: u16, r: nat)
    requires Reachable(n, s) && r < |s.rs|
    ensures Can(s, Dies(port)) && s.rs[r].AckWait? && s.rs[r].c == s.conns[port] ==> !Sleeping(Do(s, Dies(port)), r)
    ensures Can(s, Closes(port)) && s.rs[r].FwdWait? && s.rs[r].c == s.conns[port] ==> !Sleeping(Do(s, Closes(port)), r)
  {
    hide Reachable;
    ReachableInv(n, s);
    assert PhaseOk(s, r);
  }

  /** And whoever is woken on a connection no longer connected leaves; otherwise it goes back to its
      turn. */
  lemma WokenLeaves(s: State, r: nat, mode: AckMode)
    requires Possible(s, Runs(r, mode)) && (s.rs[r].AckWait? || s.rs[r].FwdWait?)
    ensures var rc := Do(s, Runs(r, mode)).rs[r];
            && (rc.Idle? <==> !s.tcp[s.rs[r].c].status.Connected?)
            && (!rc.Idle? ==> rc == if s.rs[r].AckWait? then AckRetry(s.rs[r].i, s.rs[r].c) else Admitted(s.rs[r].i, s.rs[r].c))
    ensures Do(s, Runs(r, mode)) == s.(rs := s.rs[r := Do(s, Runs(r, mode)).rs[r]])
  {
  }

  /** ---- The oldest packet ---- */

  /** The receiver is about to look a connection up while the reaper is inside the map. */
  ghost predicate WaitsForMap(s: State, r: nat)
    requires r < |s.rs|
  {
    s.rs[r].Past? && s.rs[r].i < |s.stream| && IsTcp(s.stream[s.rs[r].i].kind) && s.reaper.Inside?
  }

  /** The receiver is awake and its turn has come (or its connection is gone). */
  ghost predicate Ready(s: State, r: nat)
    requires r < |s.rs|
  {
    !Sleeping(s, r) &&
    match s.rs[r]
    case Idle => false
    case Failed(_) => false
    case Taken(i) => i < |s.stream| && MuxEntry(Expected(s), s.stream[i].txSeq, |s.rs|).MuxAccept?
    case MuxWait(i, _) => i < |s.stream| && MuxLoop(Expected(s), s.stream[i].txSeq, |s.rs|).MuxAccept?
    case Lost(_, _) => false
    case Past(_) => !WaitsForMap(s, r)
    case LookedUp(i, c) => Concerns(s, i, c) && !s.tcp[c].held && !InputSection(s.tcp[c], s.stream[i], Passed).1.Asleep?
    case AckWait(i, c, _) => Concerns(s, i, c) && (s.tcp[c].status.Connected? ==> s.tcp[c].ack == s.stream[i].seqNo)
    case AckRetry(i, c) => Concerns(s, i, c) && !s.tcp[c].held && s.tcp[c].ack == s.stream[i].seqNo
    case Admitted(i, c) => Concerns(s, i, c) && s.tcp[c].pktForwarded == s.stream[i].seqNo
    case FwdWait(i, c, _) =>
      Concerns(s, i, c) && (s.tcp[c].status.Connected? ==> s.tcp[c].pktForwarded == s.stream[i].seqNo)
  }

  /** The receiver is past the state check of handle_input, and its connection is no longer CONNECTED. */
  ghost predicate OnDeadConnection(s: State, r: nat)
    requires r < |s.rs|
  {
    (s.rs[r].AckWait? || s.rs[r].AckRetry? || s.rs[r].Admitted? || s.rs[r].FwdWait?)
    && s.rs[r].c < |s.tcp| && !s.tcp[s.rs[r].c].status.Connected?
  }

  /** The receiver works on a connection whose lock was left held, or one of whose
      acknowledgements was rejected. */
  ghost predicate OnSpoiled(s: State, r: nat)
    requires r < |s.rs|
  {
    (s.rs[r].LookedUp? || s.rs[r].AckWait? || s.rs[r].AckRetry? || s.rs[r].Admitted? || s.rs[r].FwdWait?)
    && s.rs[r].c < |s.tcp| && (s.tcp[s.rs[r].c].held || s.tcp[s.rs[r].c].broken)
  }

  /** The receiver waits at its acknowledgement turn with a packet without payload, and a data
      packet the device sent after it on the same connection has already been admitted. */
  ghost predicate Overtaken(s: State, r: nat)
    requires r < |s.rs|
  {
    && (s.rs[r].LookedUp? || s.rs[r].AckWait? || s.rs[r].AckRetry?)
    && Concerns(s, s.rs[r].i, s.rs[r].c) && s.tcp[s.rs[r].c].status.Connected?
    && s.stream[s.rs[r].i].kind.Ack? && s.stream[s.rs[r].i].payload == []
    && AdmittedAfter(s.stream, s.rs[r].c, s.rs[r].i, s.tcp[s.rs[r].c].admitted)
  }

  /** The receiver entered the wait loop with one of the last n numbers before the wrap. */
  ghost predicate InWrapBand(s: State, r: nat)
    requires r < |s.rs|
  {
    s.rs[r].MuxWait? && s.rs[r].i < |s.stream| && s.stream[s.rs[r].i].txSeq + |s.rs| >= 0x1_0000
  }

  /** The receiver holds a packet, was not overtaken, and its connection is neither spoiled nor
      being torn down behind its back. */
  ghost predicate Lively(s: State, r: nat)
    requires r < |s.rs|
  {
    !s.rs[r].Idle? && !s.rs[r].Failed? && !s.rs[r].Lost?
    && !Overtaken(s, r) && !OnDeadConnection(s, r) && !OnSpoiled(s, r)
  }

  ghost predicate OldestLively(s: State, r: nat)
    requires r < |s.rs|
  {
    Lively(s, r) && forall x :: 0 <= x < |s.rs| && Lively(s, x) ==> s.rs[r].i <= s.rs[x].i
  }

  ghost predicate Sound(k: Conn) { k.status.Connected? && !k.held && !k.broken }

  /** Whoever holds a data packet of a sound connection between its turns is lively. */
  lemma DataHoldersAreLively(s: State, x: nat, k: nat, c: nat)
    requires Inv(s) && x < |s.rs| && (HoldOf(s.rs[x]) == AckTurn(k) || HoldOf(s.rs[x]) == FwdTurn(k))
    requires c < |s.tcp| && Sound(s.tcp[c]) && k < |s.stream| && Data(s.stream[k], c)
    ensures Lively(s, x)
  {
    assert PhaseOk(s, x);
  }

  lemma NothingBeforeLively(s: State, r: nat, c: nat)
    requires Inv(s) && r < |s.rs| && OldestLively(s, r)
    requires c < |s.tcp| && Sound(s.tcp[c])
    ensures NothingBefore(LedgerOf(s), c, s.rs[r].i)
  {
    var l := LedgerOf(s);
    forall k | 0 <= k < s.rs[r].i && k < l.accepted && Data(l.stream[k], c)
      ensures l.holds[l.owner[k]] != AckTurn(k) && l.holds[l.owner[k]] != FwdTurn(k)
    {
      var x := l.owner[k];
      assert l.holds[x] == HoldOf(s.rs[x]);
      if l.holds[x] == AckTurn(k) || l.holds[x] == FwdTurn(k) {
        DataHoldersAreLively(s, x, k, c);
        assert false;
      }
    }
  }

  lemma LivelyMux(s: State, r: nat)
    requires Inv(s) && r < |s.rs| && HoldOf(s.rs[r]).Pre? && OldestLively(s, r)
    ensures s.rs[r].i == s.accepted && (Ready(s, r) <==> !InWrapBand(s, r))
  {
    var l := LedgerOf(s);
    assert l.holds[r] == HoldOf(s.rs[r]) && HoldOk(l, r);
    forall q | 0 <= q < |l.holds| && l.holds[q].Pre?
      ensures l.holds[r].i <= l.holds[q].i
    {
      assert l.holds[q] == HoldOf(s.rs[q]) && Lively(s, q);
    }
    OldestIsExpected(l, r);
    assert PacketOk(s.stream, s.tcp, s.rs[r].i) && PhaseOk(s, r);
    NeverDropped(s, r);
  }

  lemma LivelyOffset(s: State, r: nat)
    requires Inv(s) && r < |s.rs| && (s.rs[r].LookedUp? || s.rs[r].AckWait? || s.rs[r].AckRetry?)
    requires OldestLively(s, r) && Concerns(s, s.rs[r].i, s.rs[r].c) && s.stream[s.rs[r].i].kind.Ack?
    requires s.tcp[s.rs[r].c].status.Connected?
    ensures Off(s.stream, s.rs[r].c, s.rs[r].i) == s.tcp[s.rs[r].c].admitted
  {
    var i, c := s.rs[r].i, s.rs[r].c;
    var k := s.tcp[c];
    var l := LedgerOf(s);
    assert l.holds[r] == AckTurn(i) && !Overtaken(s, r);
    assert ConnOk(s, c);
    NothingBeforeLively(s, r, c);
    hide Inv, OldestLively, MuxInv, Chain, NothingBefore, AdmittedAfter, AcksOk;
    OldestIsNextAdmitted(l, r, c, k.admitted, k.forwarded);
    OldestUnlessOvertaken(l, r, c, k.admitted, k.forwarded);
  }

  lemma LivelyAck(s: State, r: nat)
    requires Inv(s) && r < |s.rs| && (s.rs[r].LookedUp? || s.rs[r].AckWait? || s.rs[r].AckRetry?)
    requires OldestLively(s, r) && Concerns(s, s.rs[r].i, s.rs[r].c) && s.stream[s.rs[r].i].kind.Ack?
    requires s.tcp[s.rs[r].c].status.Connected?
    ensures s.tcp[s.rs[r].c].ack == s.stream[s.rs[r].i].seqNo
  {
    assert PacketOk(s.stream, s.tcp, s.rs[r].i) && ConnOk(s, s.rs[r].c);
    LivelyOffset(s, r);
  }

  lemma LivelyForward(s: State, r: nat)
    requires Inv(s) && r < |s.rs| && (s.rs[r].Admitted? || s.rs[r].FwdWait?) && OldestLively(s, r)
    ensures Ready(s, r)
  {
    var i, c := s.rs[r].i, s.rs[r].c;
    var l := LedgerOf(s);
    assert l.holds[r] == FwdTurn(i) && HoldOk(l, r);
    assert PhaseOk(s, r) && PacketOk(s.stream, s.tcp, i) && ConnOk(s, c);
    NothingBeforeLively(s, r, c);
    hide Inv, OldestLively, MuxInv, Chain, NothingBefore, AdmittedAfter, AcksOk;
    OldestIsNextForwarded(l, r, c, s.tcp[c].admitted, s.tcp[c].forwarded);
  }

  /** Among the lively receivers, the one with the oldest packet can go on, except in exactly
      two situations: it has the next packet and is caught in the wrap band, or it is about to
      look its connection up and the reaper is inside the map. */
  lemma LivelyCanGoOn(s: State, r: nat)
    requires Inv(s) && r < |s.rs| && OldestLively(s, r)
    ensures Ready(s, r) <==> !InWrapBand(s, r) && !WaitsForMap(s, r)
    ensures InWrapBand(s, r) ==> s.rs[r].i == s.accepted
  {
    assert PhaseOk(s, r);
    match s.rs[r] {
      case Taken(_) => LivelyMux(s, r);
      case MuxWait(_, _) => LivelyMux(s, r);
      case Past(_) =>
      case LookedUp(i, c) =>
        if s.stream[i].kind.Ack? && s.tcp[c].status.Connected? {
          LivelyAck(s, r);
        }
      case AckWait(i, c, _) => LivelyAck(s, r);
      case AckRetry(i, c) => LivelyAck(s, r);
      case Admitted(_, _) => LivelyForward(s, r);
      case FwdWait(_, _, _) => LivelyForward(s, r);
    }
  }

  /** An overtaken packet's number does not match the next one, short of 2^32 further bytes. */
  lemma OvertakenIsBehind(s: State, r: nat)
    requires Inv(s) && r < |s.rs| && Overtaken(s, r)
    requires s.tcp[s.rs[r].c].admitted < Off(s.stream, s.rs[r].c, s.rs[r].i) + 0x1_0000_0000
    ensures s.tcp[s.rs[r].c].ack != s.stream[s.rs[r].i].seqNo
    ensures Off(s.stream, s.rs[r].c, s.rs[r].i) < s.tcp[s.rs[r].c].admitted
  {
    var i, c := s.rs[r].i, s.rs[r].c;
    assert PacketOk(s.stream, s.tcp, i) && ConnOk(s, c);
    var k :| i < k < |s.stream| && Data(s.stream[k], c) && Off(s.stream, c, k + 1) <= s.tcp[c].admitted;
    OffMonotone(s.stream, c, i, k);
    Apart32(s.tcp[c].base + s.tcp[c].admitted, s.tcp[c].base + Off(s.stream, c, i));
  }

  /** The receiver that holds the oldest packet of all can go on, except in exactly three
      situations. (An overtaken packet would match again after 2^32 further bytes; dead and
      spoiled connections are treated below.) */
  lemma OldestCanGoOn(n: nat, s: State, r: nat)
    requires Reachable(n, s) && r < |s.rs| && !s.rs[r].Idle? && Oldest(LedgerOf(s), s.rs[r].i)
    requires !OnDeadConnection(s, r) && !OnSpoiled(s, r) && !s.rs[r].Failed? && !s.rs[r].Lost?
    requires (s.rs[r].LookedUp? || s.rs[r].AckWait? || s.rs[r].AckRetry?) && Concerns(s, s.rs[r].i, s.rs[r].c) ==>
               s.tcp[s.rs[r].c].admitted < Off(s.stream, s.rs[r].c, s.rs[r].i) + 0x1_0000_0000
    ensures Ready(s, r) <==> !InWrapBand(s, r) && !Overtaken(s, r) && !WaitsForMap(s, r)
  {
    hide Reachable;
    ReachableInv(n, s);
    assert PhaseOk(s, r);
    if Overtaken(s, r) {
      OvertakenIsBehind(s, r);
    } else {
      forall x | 0 <= x < |s.rs| && Lively(s, x)
        ensures s.rs[r].i <= s.rs[x].i
      {
        assert LedgerOf(s).holds[x] == HoldOf(s.rs[x]);
      }
      LivelyCanGoOn(s, r);
    }
  }

  lemma {:induction false} OldestLivelyExists(s: State, r: nat, m: nat) returns (q: nat)
    requires r < |s.rs| && Lively(s, r) && m <= |s.rs|
    ensures q < |s.rs| && Lively(s, q)
    ensures forall x :: 0 <= x < m && Lively(s, x) ==> s.rs[q].i <= s.rs[x].i
  {
    if m == 0 {
      q := r;
    } else {
      q := OldestLivelyExists(s, r, m - 1);
      if Lively(s, m - 1) && s.rs[m - 1].i < s.rs[q].i {
        q := m - 1;
      }
    }
  }

  /** As long as some receiver is lively, one of the lively receivers can go on, is caught in
      the wrap band with the packet everybody waits for, or waits for the reaper to leave the
      map: no receiver stuck for any other reason holds up the rest. */
  lemma NeverAllWait(n: nat, s: State, r: nat) returns (q: nat)
    requires Reachable(n, s) && r < |s.rs| && Lively(s, r)
    ensures q < |s.rs| && Lively(s, q)
    ensures Ready(s, q) || (InWrapBand(s, q) && s.rs[q].i == s.accepted) || WaitsForMap(s, q)
  {
    hide Reachable;
    ReachableInv(n, s);
    q := OldestLivelyExists(s, r, |s.rs|);
    LivelyCanGoOn(s, q);
  }

  /** ---- First stuck situation: the numbers before the 16-bit wrap ---- */

  lemma BandStep(s: State, r: nat, e: Event)
    requires Inv(s) && Can(s, e) && r < |s.rs| && InWrapBand(s, r) && s.rs[r].i == s.accepted
    ensures var s' := Do(s, e);
            && |s'.rs| == |s.rs| && s'.accepted == s.accepted
            && s'.rs[r].MuxWait? && s'.rs[r].i == s.accepted && InWrapBand(s', r)
  {
    if e.Runs? && HoldOf(s.rs[e.r]).Pre? {
      assert PacketOk(s.stream, s.tcp, s.rs[e.r].i);
      NeverDropped(s, e.r);
      var l := LedgerOf(s);
      assert l.holds[e.r] == HoldOf(s.rs[e.r]) && HoldOk(l, e.r);
      assert l.holds[r] == HoldOf(s.rs[r]) && HoldOk(l, r);
    }
  }

  lemma {:induction false} BandStuck(s: State, r: nat, run: seq<Event>)
    requires Inv(s) && Valid(s, run) && r < |s.rs| && InWrapBand(s, r) && s.rs[r].i == s.accepted
    ensures After(s, run).accepted == s.accepted && r < |After(s, run).rs|
    ensures InWrapBand(After(s, run), r) && After(s, run).rs[r].i == s.accepted
    decreases |run|
  {
    if run != [] {
      BandStuck(s, r, Front(run));
      RunKeeps(s, Front(run));
      BandStep(After(s, Front(run)), r, Last(run));
    }
  }

  lemma OneStep(s: State, run: seq<Event>, e: Event)
    requires Valid(s, run) && Can(After(s, run), e)
    ensures Valid(s, run + [e]) && After(s, run + [e]) == Do(After(s, run), e)
  {
  }

  ghost predicate SomeRunAccepts(s: State) {
    exists run :: Valid(s, run) && After(s, run).accepted > s.accepted
  }

  /** A receiver in the wait loop with the next packet gets it accepted in some continuation
      exactly when the packet's number is not among the last n before the wrap. Otherwise no
      packet is ever accepted again. */
  lemma MuxWaiterFate(n: nat, s: State, r: nat)
    requires Reachable(n, s) && r < |s.rs| && s.rs[r].MuxWait? && s.rs[r].i == s.accepted
    ensures s.rs[r].i < |s.stream|
    ensures SomeRunAccepts(s) <==> s.stream[s.rs[r].i].txSeq + |s.rs| < 0x1_0000
  {
    hide Reachable;
    ReachableInv(n, s);
    assert PhaseOk(s, r) && PacketOk(s.stream, s.tcp, s.rs[r].i);
    NeverDropped(s, r);
    if s.stream[s.rs[r].i].txSeq + |s.rs| < 0x1_0000 {
      var e := Runs(r, Passed);
      assert Can(s, e);
      OneStep(s, [], e);
    } else {
      forall run | Valid(s, run)
        ensures After(s, run).accepted == s.accepted
      {
        BandStuck(s, r, run);
      }
    }
  }

  /** ---- Runs that get there ---- */

  lemma ReachableStep(n: nat, s: State, e: Event)
    requires Reachable(n, s) && Can(s, e)
    ensures Reachable(n, Do(s, e))
  {
    var run :| Valid(Start(n), run) && After(Start(n), run) == s;
    OneStep(Start(n), run, e);
  }

  /** One receiver step, said without Do. */
  lemma MuxStep(n: nat, s: State, r: nat, turn: MuxTurn)
    requires Reachable(n, s) && r < |s.rs| && s.rs[r].Taken? && s.rs[r].i < |s.stream|
    requires turn == MuxEntry(Expected(s), s.stream[s.rs[r].i].txSeq, |s.rs|) && !s.stream[s.rs[r].i].kind.Malformed?
    ensures Reachable(n, AfterMux(s, r, turn))
  {
    ReachableStep(n, s, Runs(r, Passed));
  }

  lemma LookupStep(n: nat, s: State, r: nat)
    requires Reachable(n, s) && r < |s.rs| && s.rs[r].Past? && s.rs[r].i < |s.stream| && s.reaper.Away?
    ensures Reachable(n, AfterLookup(s, r))
  {
    ReachableStep(n, s, Runs(r, Passed));
  }

  lemma TakeStep(n: nat, s: State, r: nat)
    requires Reachable(n, s) && r < |s.rs| && s.rs[r].Idle? && |s.owner| < |s.stream|
    ensures Reachable(n, s.(rs := s.rs[r := Taken(|s.owner|)], owner := s.owner + [r]))
  {
    ReachableStep(n, s, Takes(r));
  }

  function ControlPacket(i: nat): Packet {
    Packet(0, 0, Wrap16(i), Control, 0, 0, 0, [])
  }

  function Controls(m: nat): seq<Packet> {
    seq(m, i requires 0 <= i < m => ControlPacket(i))
  }

  lemma SendControlStep(n: nat, s: State)
    requires Reachable(n, s) && s.stream == Controls(|s.stream|)
    ensures Reachable(n, s.(stream := Controls(|s.stream| + 1)))
  {
    hide Reachable;
    var p := ControlPacket(|s.stream|);
    assert Controls(|s.stream| + 1) == s.stream + [p];
    ReachableStep(n, s, DeviceSends(p));
  }

  /** k control packets have come and gone through receiver 0. */
  function Quiet(n: nat, k: nat): State
    requires n > 0
  {
    State(Controls(k), seq(k, _ => 0), k, Wrap16(k + 0xffff), k, seq(n, _ => Idle), map[], [], Away, 0)
  }

  lemma QuietNext(n: nat, k: nat)
    requires 0 < n < 0x1_0000 && Reachable(n, Quiet(n, k))
    ensures Reachable(n, Quiet(n, k + 1))
  {
    hide Reachable;
    var s := Quiet(n, k);
    SendControlStep(n, s);
    s := s.(stream := Controls(k + 1));
    TakeStep(n, s, 0);
    s := s.(rs := s.rs[0 := Taken(k)], owner := s.owner + [0]);
    ExpectedNumber(s);
    MuxStep(n, s, 0, MuxAccept);
    s := AfterMux(s, 0, MuxAccept);
    LookupStep(n, s, 0);
    s := AfterLookup(s, 0);
    assert s.rs == Quiet(n, k + 1).rs;
    assert s == Quiet(n, k + 1);
  }

  lemma {:induction false} QuietReachable(n: nat, k: nat)
    requires 0 < n < 0x1_0000
    ensures Reachable(n, Quiet(n, k))
  {
    if k == 0 {
      assert Valid(Start(n), []) && After(Start(n), []) == Start(n);
      assert Quiet(n, 0) == Start(n);
    } else {
      QuietReachable(n, k - 1);
      QuietNext(n, k - 1);
    }
  }

  /** The wrap band is reached: with two or more receivers, at every number of the band. */
  lemma BandReachable(n: nat, k: nat) returns (s: State)
    requires 1 < n < 0x1_0000 && Wrap16(k + 1) + n >= 0x1_0000
    ensures Reachable(n, s) && |s.rs| == n && InWrapBand(s, 1) && s.rs[1].i == s.accepted == k + 1
  {
    hide Reachable;
    QuietReachable(n, k);
    s := Quiet(n, k);
    SendControlStep(n, s);
    s := s.(stream := Controls(k + 1));
    SendControlStep(n, s);
    s := s.(stream := Controls(k + 2));
    TakeStep(n, s, 0);
    s := s.(rs := s.rs[0 := Taken(k)], owner := s.owner + [0]);
    TakeStep(n, s, 1);
    s := s.(rs := s.rs[1 := Taken(k + 1)], owner := s.owner + [1]);
    ExpectedNumber(s);
    MuxWindow(k, k + 1, n);
    MuxStep(n, s, 1, MuxSleep);
    s := AfterMux(s, 1, MuxSleep);
    MuxStep(n, s, 0, MuxAccept);
    s := AfterMux(s, 0, MuxAccept);
  }
}
