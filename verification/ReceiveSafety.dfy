/** What every step of the receivers keeps, and what follows for every run. */
module ReceiveSafety {
  import opened Wrapping
  import opened Packets
  import opened Holdings
  import opened Connection
  import opened Receivers

  /** ---- The invariant ---- */

  ghost predicate Shape(s: State) {
    && 0 < |s.rs| < 0x1_0000
    && s.rxSeq == Wrap16(s.accepted + 0xffff)
    && SmallPayloads(s.stream)
    && MuxInv(LedgerOf(s))
  }

  ghost predicate PacketOk(stream: seq<Packet>, tcp: seq<Conn>, i: nat)
    requires i < |stream|
  {
    var p := stream[i];
    && p.txSeq == Wrap16(i) && (p.kind.Control? || IsTcp(p.kind))
    && (!p.kind.Ack? ==> p.payload == [])
    && (IsTcp(p.kind) ==> p.cid < |tcp| && p.port == tcp[p.cid].sport)
    && (p.kind.Other? ==> tcp[p.cid].established)
    && (p.kind.Ack? ==>
          tcp[p.cid].established && p.seqNo == Wrap32(tcp[p.cid].base + Off(stream, p.cid, i)))
  }

  ghost predicate StreamOk(s: State) {
    forall i :: 0 <= i < |s.stream| ==> PacketOk(s.stream, s.tcp, i)
  }

  ghost predicate MapOk(s: State) {
    && (forall port :: port in s.conns ==>
          port != 0 && s.conns[port] < |s.tcp| && s.tcp[s.conns[port]].sport == port)
    && (forall i :: 0 <= i < |s.stream| && Unresolved(s, i) ==> LookupOk(s, i))
    && (forall c :: 0 <= c < |s.tcp| ==> Listed(s, c))
  }

  /** Looking the packet up now finds the connection it is meant for, or none. */
  ghost predicate LookupOk(s: State, i: nat)
    requires i < |s.stream|
  {
    IsTcp(s.stream[i].kind) && s.stream[i].port in s.conns ==> s.conns[s.stream[i].port] == s.stream[i].cid
  }

  /** The packet and connection a receiver works on, and why it sleeps if it does. */
  ghost predicate PhaseOk(s: State, r: nat)
    requires r < |s.rs|
  {
    match s.rs[r]
    case Idle => true
    case Taken(i) => true
    case MuxWait(i, ticket) =>
      ticket <= s.dataIn + 1 && i < |s.stream|
      && (s.dataIn < ticket ==> MuxBlocks(Expected(s), s.stream[i].txSeq, |s.rs|))
    case Past(i) => true
    case LookedUp(i, c) => Concerns(s, i, c)
    case AckWait(i, c, ticket) =>
      Concerns(s, i, c) && s.stream[i].kind.Ack? && ticket <= s.tcp[c].canSend + 1
      && (s.tcp[c].canSend < ticket ==> s.tcp[c].ack != s.stream[i].seqNo || s.tcp[c].broken)
    case AckRetry(i, c) => Concerns(s, i, c) && s.stream[i].kind.Ack?
    case Admitted(i, c) => Concerns(s, i, c) && Data(s.stream[i], c)
    case FwdWait(i, c, ticket) =>
      Concerns(s, i, c) && Data(s.stream[i], c) && ticket <= s.tcp[c].canClientSend + 1
      && (s.tcp[c].canClientSend < ticket ==> s.tcp[c].pktForwarded != s.stream[i].seqNo)
    case Failed(i) => s.rejections > 0
    case Lost(i, c) => s.rejections > 0 && Concerns(s, i, c) && Data(s.stream[i], c) && s.tcp[c].broken
  }

  ghost predicate Concerns(s: State, i: nat, c: nat) {
    c < |s.tcp| && i < |s.stream| && IsTcp(s.stream[i].kind) && s.stream[i].cid == c
  }

  ghost predicate PhasesOk(s: State) {
    forall r :: 0 <= r < |s.rs| ==> PhaseOk(s, r)
  }

  ghost predicate ConnFacts(stream: seq<Packet>, k: Conn, c: nat) {
    && (k.status.Connecting? || k.status.Refused? ==> !k.established)
    && (k.status.Connected? ==> k.established)
    && (k.established ==> k.ack == Wrap32(k.base + k.admitted) && k.pktForwarded == Wrap32(k.base + k.forwarded))
    && (!k.established ==> k.admitted == 0 && k.forwarded == 0 && k.acks == [])
    && k.forwarded <= Off(stream, c, |stream|) == |Bytes(stream, c, |stream|)|
    && k.toClient == Bytes(stream, c, |stream|)[..k.forwarded]
    && AcksOk(k) && CoveredOk(k)
  }

  ghost predicate ConnOk(s: State, c: nat)
    requires c < |s.tcp| && MuxInv(LedgerOf(s))
  {
    && ConnFacts(s.stream, s.tcp[c], c)
    && (s.tcp[c].status.Connected? ==> Chain(LedgerOf(s), c, s.tcp[c].admitted, s.tcp[c].forwarded))
  }

  ghost predicate ConnsOk(s: State)
    requires MuxInv(LedgerOf(s))
  {
    forall c :: 0 <= c < |s.tcp| ==> ConnOk(s, c)
  }

  ghost predicate Inv(s: State) {
    Shape(s) && StreamOk(s) && MapOk(s) && PhasesOk(s) && ConnsOk(s)
  }

  /** ---- Frames ---- */

  /** How a connection may change without disturbing what others know of it: an
      established connection keeps its base, and changes ack or pktForwarded only
      together with a notification of those who wait on it, or it is broken. */
  ghost predicate Evolves(k: Conn, k': Conn) {
    && k'.sport == k.sport
    && (k.status.Dying? ==> k'.status.Dying?) && (k.broken ==> k'.broken)
    && (k.established ==>
          && k'.established && k'.base == k.base
          && k.canSend <= k'.canSend && (k'.canSend == k.canSend ==> k'.ack == k.ack || k'.broken)
          && k.canClientSend <= k'.canClientSend
          && (k'.canClientSend == k.canClientSend ==> k'.pktForwarded == k.pktForwarded))
  }

  ghost predicate TcpEvolves(tcp: seq<Conn>, tcp': seq<Conn>) {
    |tcp| <= |tcp'| && forall c :: 0 <= c < |tcp| ==> Evolves(tcp[c], tcp'[c])
  }

  lemma StreamKept(s: State, s': State)
    requires StreamOk(s) && s'.stream == s.stream && TcpEvolves(s.tcp, s'.tcp)
    ensures StreamOk(s')
  {
    forall i | 0 <= i < |s.stream|
      ensures PacketOk(s'.stream, s'.tcp, i)
    {
      assert PacketOk(s.stream, s.tcp, i);
    }
  }

  lemma MapKept(s: State, s': State)
    requires MapOk(s) && s'.stream == s.stream && TcpEvolves(s.tcp, s'.tcp)
    requires s'.conns.Keys <= s.conns.Keys && forall port :: port in s'.conns ==> s'.conns[port] == s.conns[port]
    requires |s'.tcp| == |s.tcp| && forall c :: 0 <= c < |s.tcp| && !s'.tcp[c].status.Dying? ==> s.tcp[c].sport in s'.conns || s'.conns == s.conns
    requires forall i :: 0 <= i < |s.stream| && Unresolved(s', i) ==> Unresolved(s, i)
    ensures MapOk(s')
  {
    forall c | 0 <= c < |s'.tcp|
      ensures Listed(s', c)
    {
      assert Listed(s, c);
    }
    forall i | 0 <= i < |s'.stream| && Unresolved(s', i)
      ensures LookupOk(s', i)
    {
      assert LookupOk(s, i);
    }
  }

  /** A receiver that did not move still has its reason to sleep, or is awake. */
  lemma PhaseKept(s: State, s': State, q: nat)
    requires StreamOk(s) && s.stream <= s'.stream && TcpEvolves(s.tcp, s'.tcp)
    requires |s'.rs| == |s.rs| && q < |s.rs| && s'.rs[q] == s.rs[q] && PhaseOk(s, q)
    requires s.rejections <= s'.rejections && s.dataIn <= s'.dataIn && (s'.dataIn == s.dataIn ==> s'.rxSeq == s.rxSeq)
    ensures PhaseOk(s', q)
  {
    match s.rs[q] {
      case AckWait(i, c, _) => assert PacketOk(s.stream, s.tcp, i);
      case FwdWait(i, c, _) => assert PacketOk(s.stream, s.tcp, i);
      case _ =>
    }
  }

  lemma PhasesKept(s: State, s': State, r: nat)
    requires StreamOk(s) && s.stream <= s'.stream && TcpEvolves(s.tcp, s'.tcp) && PhasesOk(s)
    requires |s'.rs| == |s.rs| && r < |s.rs|
    requires forall q :: 0 <= q < |s.rs| && q != r ==> s'.rs[q] == s.rs[q]
    requires s.rejections <= s'.rejections && s.dataIn <= s'.dataIn && (s'.dataIn == s.dataIn ==> s'.rxSeq == s.rxSeq)
    requires PhaseOk(s', r)
    ensures PhasesOk(s')
  {
    forall q | 0 <= q < |s'.rs|
      ensures PhaseOk(s', q)
    {
      if q != r {
        PhaseKept(s, s', q);
      }
    }
  }

  /** ---- Environment steps ---- */

  lemma StartInv(n: nat)
    requires 0 < n < 0x1_0000
    ensures Inv(Start(n))
  {
    var l := LedgerOf(Start(n));
    Sums.SumZero(PreLoads(l.holds));
    assert forall r :: 0 <= r < |l.holds| ==> HoldOk(l, r);
  }

  lemma ConnFactsSent(stream: seq<Packet>, p: Packet, k: Conn, c: nat)
    requires ConnFacts(stream, k, c)
    ensures ConnFacts(stream + [p], k, c)
  {
    var more := stream + [p];
    OffStable(stream, [p], c, |stream|);
    assert more[|stream|] == p;
    BytesLength(more, c, |more|);
    assert Bytes(more, c, |stream|) <= Bytes(more, c, |more|);
  }

  lemma SendsKeepsStream(s: State, p: Packet)
    requires StreamOk(s) && WellFormed(s, p)
    ensures StreamOk(s.(stream := s.stream + [p]))
  {
    var s' := s.(stream := s.stream + [p]);
    forall i | 0 <= i < |s'.stream|
      ensures PacketOk(s'.stream, s'.tcp, i)
    {
      if i < |s.stream| {
        assert PacketOk(s.stream, s.tcp, i);
      }
      if s'.stream[i].kind.Ack? {
        OffStable(s.stream, [p], s'.stream[i].cid, i);
      }
    }
  }

  lemma SendsKeepsMap(s: State, p: Packet)
    requires MapOk(s) && WellFormed(s, p)
    ensures MapOk(s.(stream := s.stream + [p]))
  {
    var s' := s.(stream := s.stream + [p]);
    forall c | 0 <= c < |s'.tcp|
      ensures Listed(s', c)
    {
      assert Listed(s, c);
    }
    forall i | 0 <= i < |s'.stream| && Unresolved(s', i)
      ensures LookupOk(s', i)
    {
      if i < |s.stream| {
        assert Unresolved(s, i) && LookupOk(s, i);
      }
    }
  }

  lemma SendsKeeps(s: State, p: Packet)
    requires Inv(s) && WellFormed(s, p)
    ensures Inv(Do(s, DeviceSends(p)))
  {
    var s' := Do(s, DeviceSends(p));
    var l := LedgerOf(s);
    assert LedgerOf(s') == Sent(l, p);
    SentKeeps(l, p);
    SendsKeepsStream(s, p);
    SendsKeepsMap(s, p);
    forall q | 0 <= q < |s'.rs|
      ensures PhaseOk(s', q)
    {
      PhaseKept(s, s', q);
    }
    forall c | 0 <= c < |s'.tcp|
      ensures ConnOk(s', c)
    {
      assert ConnOk(s, c);
      ConnFactsSent(s.stream, p, s.tcp[c], c);
    }
  }

  lemma FreshFacts(s: State, port: u16, iss: u32)
    requires StreamOk(s)
    ensures ConnFacts(s.stream, Fresh(port, iss), |s.tcp|)
  {
    forall i | 0 <= i < |s.stream|
      ensures !Carries(s.stream[i], |s.tcp|)
    {
      assert PacketOk(s.stream, s.tcp, i);
    }
    NothingCarried(s.stream, |s.tcp|, |s.stream|);
  }

  lemma OpensKeepsMap(s: State, port: u16, iss: u32)
    requires MapOk(s) && Can(s, Opens(port, iss))
    ensures MapOk(Do(s, Opens(port, iss)))
  {
    var s' := Do(s, Opens(port, iss));
    forall c | 0 <= c < |s'.tcp|
      ensures Listed(s', c)
    {
      if c < |s.tcp| {
        assert Listed(s, c);
      }
    }
    forall i | 0 <= i < |s'.stream| && Unresolved(s', i)
      ensures LookupOk(s', i)
    {
      assert Unresolved(s, i) && LookupOk(s, i);
    }
  }

  lemma OpensKeeps(s: State, port: u16, iss: u32)
    requires Inv(s) && Can(s, Opens(port, iss))
    ensures Inv(Do(s, Opens(port, iss)))
  {
    var s' := Do(s, Opens(port, iss));
    assert LedgerOf(s') == LedgerOf(s);
    StreamKept(s, s');
    forall q | 0 <= q < |s'.rs|
      ensures PhaseOk(s', q)
    {
      PhaseKept(s, s', q);
    }
    OpensKeepsMap(s, port, iss);
    forall c | 0 <= c < |s'.tcp|
      ensures ConnOk(s', c)
    {
      if c < |s.tcp| {
        assert ConnOk(s, c);
      } else {
        FreshFacts(s, port, iss);
      }
    }
  }

  /** A step that only touches connection c, without changing what it admitted or forwarded. */
  lemma ConnStepKeeps(s: State, s': State, c: nat, k': Conn)
    requires Inv(s) && c < |s.tcp|
    requires s'.stream == s.stream && s'.rs == s.rs && s'.owner == s.owner && s'.accepted == s.accepted
    requires s.rejections <= s'.rejections && s'.rxSeq == s.rxSeq && s'.dataIn == s.dataIn && s'.tcp == s.tcp[c := k']
    requires s'.conns.Keys <= s.conns.Keys && forall port :: port in s'.conns ==> s'.conns[port] == s.conns[port]
    requires forall d :: 0 <= d < |s.tcp| && !s'.tcp[d].status.Dying? ==> s.tcp[d].sport in s'.conns || s'.conns == s.conns
    requires Evolves(s.tcp[c], k') && ConnFacts(s.stream, k', c)
    requires k'.status.Connected? ==>
        s.tcp[c].status.Connected? && k'.admitted == s.tcp[c].admitted && k'.forwarded == s.tcp[c].forwarded
    ensures Inv(s')
  {
    assert LedgerOf(s') == LedgerOf(s);
    StreamKept(s, s');
    MapKept(s, s') by {
      assert forall i :: 0 <= i < |s.stream| && Unresolved(s', i) ==> Unresolved(s, i);
    }
    forall q | 0 <= q < |s'.rs|
      ensures PhaseOk(s', q)
    {
      PhaseKept(s, s', q);
    }
    forall d | 0 <= d < |s'.tcp|
      ensures ConnOk(s', d)
    {
      assert ConnOk(s, d);
    }
  }

  lemma EntersKeeps(s: State, port: u16)
    requires Inv(s) && Can(s, Enters(port))
    ensures Inv(Do(s, Enters(port)))
  {
    var s' := Do(s, Enters(port));
    assert LedgerOf(s') == LedgerOf(s);
    StreamKept(s, s');
    MapKept(s, s');
    forall q | 0 <= q < |s'.rs|
      ensures PhaseOk(s', q)
    {
      PhaseKept(s, s', q);
    }
    forall c | 0 <= c < |s'.tcp|
      ensures ConnOk(s', c)
    {
      assert ConnOk(s, c);
    }
  }

  lemma DiesKeeps(s: State, port: u16)
    requires Inv(s) && Can(s, Dies(port))
    ensures Inv(Do(s, Dies(port)))
  {
    var c := s.conns[port];
    assert ConnOk(s, c);
    assert ConnFacts(s.stream, Die(s.tcp[c]), c) && Evolves(s.tcp[c], Die(s.tcp[c]));
    hide Inv, ConnFacts, Evolves, Unresolved;
    ConnStepKeeps(s, Do(s, Dies(port)), c, Die(s.tcp[c]));
  }

  lemma ClosesOnlyDying(s: State, port: u16)
    requires MapOk(s) && Can(s, Closes(port))
    ensures forall d :: 0 <= d < |s.tcp| && !s.tcp[d].status.Dying? ==> s.tcp[d].sport in s.conns - {port}
  {
    forall d | 0 <= d < |s.tcp| && !s.tcp[d].status.Dying?
      ensures s.tcp[d].sport in s.conns - {port}
    {
      assert Listed(s, d);
    }
  }

  lemma ClosesKeeps(s: State, port: u16)
    requires Inv(s) && Can(s, Closes(port))
    ensures Inv(Do(s, Closes(port)))
  {
    var c := s.conns[port];
    ClosesOnlyDying(s, port);
    assert ConnOk(s, c);
    assert ConnFacts(s.stream, WakeForwarders(s.tcp[c]), c) && Evolves(s.tcp[c], WakeForwarders(s.tcp[c]));
    hide Inv, ConnFacts, Evolves, Unresolved;
    ConnStepKeeps(s, Do(s, Closes(port)), c, WakeForwarders(s.tcp[c]));
  }

  lemma EmitKeepsAcks(k: Conn)
    requires AcksOk(k) && k.ack == Wrap32(k.base + k.admitted)
    ensures AcksOk(EmitAck(k))
  {
  }

  lemma SegmentFacts(stream: seq<Packet>, k: Conn, c: nat, len: nat)
    requires ConnFacts(stream, k, c) && k.established
    ensures ConnFacts(stream, SendSegment(k, len), c) && Evolves(k, SendSegment(k, len))
    ensures ConnFacts(stream, SendRejected(k, len), c) && Evolves(k, SendRejected(k, len))
  {
    EmitKeepsAcks(k);
  }

  lemma SenderKeeps(s: State, c: nat, len: nat, rejected: bool)
    requires Inv(s) && Can(s, SenderSends(c, len, rejected))
    ensures Inv(Do(s, SenderSends(c, len, rejected)))
  {
    assert ConnOk(s, c);
    SegmentFacts(s.stream, s.tcp[c], c, len);
    var s' := Do(s, SenderSends(c, len, rejected));
    hide Inv, ConnFacts, Evolves, Unresolved;
    ConnStepKeeps(s, s', c, s'.tcp[c]);
  }

  lemma AnnounceKeeps(s: State, c: nat)
    requires Inv(s) && Can(s, Announces(c))
    ensures Inv(Do(s, Announces(c)))
  {
    assert ConnOk(s, c);
    assert ConnFacts(s.stream, Announce(s.tcp[c]), c) && Evolves(s.tcp[c], Announce(s.tcp[c]));
    hide Inv, ConnFacts, Evolves, Unresolved;
    ConnStepKeeps(s, Do(s, Announces(c)), c, Announce(s.tcp[c]));
  }

  /** ---- Receiver steps ---- */

  lemma TakesKeeps(s: State, r: nat)
    requires Inv(s) && Can(s, Takes(r))
    ensures Inv(Do(s, Takes(r)))
  {
    var s' := Do(s, Takes(r));
    var l := LedgerOf(s);
    HoldsUpdate(s.rs, r, Taken(|s.owner|));
    assert LedgerOf(s') == Took(l, r);
    TookKeeps(l, r);
    StreamKept(s, s');
    MapKept(s, s') by {
      forall i | 0 <= i < |s.stream| && Unresolved(s', i)
        ensures Unresolved(s, i)
      {
      }
    }
    PhasesKept(s, s', r);
    forall c | 0 <= c < |s'.tcp|
      ensures ConnOk(s', c)
    {
      assert ConnOk(s, c);
      if s.tcp[c].status.Connected? {
        TookKeepsChain(l, r, c, s.tcp[c].admitted, s.tcp[c].forwarded);
      }
    }
  }

  /** Numbers fewer than n ahead of the expected one: the entry test and the wait guard
      tell them from the expected number, across the 16-bit wrap. */
  lemma MuxWindow(expected: nat, i: nat, n: nat)
    requires expected <= i < expected + n && n < 0x1_0000
    ensures MuxEntry(Wrap16(expected), Wrap16(i), n) == (if i == expected then MuxAccept else MuxSleep)
    ensures MuxLoop(Wrap16(expected), Wrap16(i), n)
         == (if i == expected && Wrap16(i) + n < 0x1_0000 then MuxAccept else MuxSleep)
  {
  }

  lemma ExpectedNumber(s: State)
    requires s.rxSeq == Wrap16(s.accepted + 0xffff)
    ensures Expected(s) == Wrap16(s.accepted)
  {
  }

  lemma HeldWindow(l: Ledger, r: nat)
    requires MuxInv(l) && r < |l.holds| && l.holds[r].Pre?
    ensures l.accepted <= l.holds[r].i < |l.owner| <= l.accepted + |l.holds|
  {
    assert HoldOk(l, r);
    HeldBound(l);
  }

  /** An unaccepted packet is fewer than n numbers ahead of the expected one and is never dropped. */
  lemma NeverDropped(s: State, r: nat)
    requires Shape(s) && r < |s.rs| && HoldOf(s.rs[r]).Pre? && s.rs[r].i < |s.stream|
    requires s.stream[s.rs[r].i].txSeq == Wrap16(s.rs[r].i)
    ensures Expected(s) == Wrap16(s.accepted)
    ensures s.accepted <= s.rs[r].i < s.accepted + |s.rs|
    ensures MuxEntry(Expected(s), s.stream[s.rs[r].i].txSeq, |s.rs|)
         == (if s.rs[r].i == s.accepted then MuxAccept else MuxSleep)
    ensures MuxLoop(Expected(s), s.stream[s.rs[r].i].txSeq, |s.rs|)
         == (if s.rs[r].i == s.accepted && s.stream[s.rs[r].i].txSeq + |s.rs| < 0x1_0000 then MuxAccept else MuxSleep)
  {
    ExpectedNumber(s);
    HeldWindow(LedgerOf(s), r);
    MuxWindow(s.accepted, s.rs[r].i, |s.rs|);
  }

  lemma MuxAcceptConns(s: State, s': State, r: nat)
    requires MuxInv(LedgerOf(s)) && ConnsOk(s) && r < |s.rs| && LedgerOf(s).holds[r] == Pre(s.accepted)
    requires LedgerOf(s') == Accepted(LedgerOf(s), r) && MuxInv(LedgerOf(s')) && s'.tcp == s.tcp
    ensures ConnsOk(s')
  {
    forall c | 0 <= c < |s'.tcp|
      ensures ConnOk(s', c)
    {
      assert ConnOk(s, c);
      if s.tcp[c].status.Connected? {
        AcceptedKeepsChain(LedgerOf(s), r, c, s.tcp[c].admitted, s.tcp[c].forwarded);
      }
    }
  }

  lemma MuxAcceptKeeps(s: State, r: nat)
    requires Inv(s) && r < |s.rs| && HoldOf(s.rs[r]) == Pre(s.accepted) && s.accepted < |s.stream|
    ensures Inv(AfterMux(s, r, MuxAccept))
  {
    assert PacketOk(s.stream, s.tcp, s.accepted);
    MuxAcceptLedger(s, r);
    MuxAcceptRest(s, r);
    hide MuxInv, Accepted, ConnsOk, StreamOk, MapOk, PhasesOk, PacketOk;
    MuxAcceptConns(s, AfterMux(s, r, MuxAccept), r);
  }

  lemma MuxAcceptRest(s: State, r: nat)
    requires StreamOk(s) && MapOk(s) && PhasesOk(s)
    requires r < |s.rs| && HoldOf(s.rs[r]) == Pre(s.accepted) && s.accepted < |s.stream|
    ensures var s' := AfterMux(s, r, MuxAccept);
            StreamOk(s') && MapOk(s') && PhasesOk(s')
  {
    var s' := AfterMux(s, r, MuxAccept);
    StreamKept(s, s');
    MapKept(s, s');
    PhasesKept(s, s', r);
  }

  lemma MuxAcceptLedger(s: State, r: nat)
    requires Shape(s) && r < |s.rs| && HoldOf(s.rs[r]) == Pre(s.accepted) && s.accepted < |s.stream|
    ensures var s' := AfterMux(s, r, MuxAccept);
            && LedgerOf(s).holds[r] == Pre(s.accepted) && s.accepted < |s.owner|
            && LedgerOf(s') == Accepted(LedgerOf(s), r) && MuxInv(LedgerOf(s'))
  {
    var l := LedgerOf(s);
    assert l.holds[r] == Pre(s.accepted) && HoldOk(l, r);
    HoldsUpdate(s.rs, r, Past(s.accepted));
    AcceptedKeeps(l, r);
  }

  lemma MuxSleepKeeps(s: State, r: nat)
    requires Inv(s) && r < |s.rs| && HoldOf(s.rs[r]).Pre? && s.rs[r].i < |s.stream|
    requires MuxBlocks(Expected(s), s.stream[s.rs[r].i].txSeq, |s.rs|)
    ensures Inv(AfterMux(s, r, MuxSleep))
  {
    var s' := AfterMux(s, r, MuxSleep);
    var l := LedgerOf(s);
    HoldsUpdate(s.rs, r, s'.rs[r]);
    assert LedgerOf(s').holds == l.holds;
    assert LedgerOf(s') == l;
    forall c | 0 <= c < |s'.tcp|
      ensures ConnOk(s', c)
    {
      assert ConnOk(s, c);
    }
    StreamKept(s, s');
    MapKept(s, s');
    PhasesKept(s, s', r);
  }

  lemma MuxKeeps(s: State, r: nat, turn: MuxTurn)
    requires Inv(s) && r < |s.rs| && HoldOf(s.rs[r]).Pre? && s.rs[r].i < |s.stream|
    requires turn == MuxEntry(Expected(s), s.stream[s.rs[r].i].txSeq, |s.rs|)
          || turn == MuxLoop(Expected(s), s.stream[s.rs[r].i].txSeq, |s.rs|)
    ensures Inv(AfterMux(s, r, turn))
  {
    assert PacketOk(s.stream, s.tcp, s.rs[r].i);
    NeverDropped(s, r);
    if turn.MuxAccept? {
      MuxAcceptKeeps(s, r);
    } else {
      MuxSleepKeeps(s, r);
    }
  }

  /** Moving receiver r on within its phase leaves every holding as it was. */
  lemma SamePhaseKeeps(s: State, s': State, r: nat)
    requires Inv(s) && r < |s.rs| && s'.stream == s.stream && s'.owner == s.owner && s'.accepted == s.accepted
    requires s.rejections <= s'.rejections && s'.rxSeq == s.rxSeq && s'.dataIn == s.dataIn && s'.conns == s.conns && s'.tcp == s.tcp
    requires |s'.rs| == |s.rs| && s'.rs == s.rs[r := s'.rs[r]]
    requires HoldOf(s'.rs[r]) == HoldOf(s.rs[r]) && !s'.rs[r].Past?
    requires PhaseOk(s', r)
    ensures Inv(s')
  {
    HoldsUpdate(s.rs, r, s'.rs[r]);
    assert LedgerOf(s').holds == LedgerOf(s).holds;
    assert LedgerOf(s') == LedgerOf(s);
    forall c | 0 <= c < |s'.tcp|
      ensures ConnOk(s', c)
    {
      assert ConnOk(s, c);
    }
    StreamKept(s, s');
    MapKept(s, s');
    PhasesKept(s, s', r);
  }

  /** Receiver r moves to another phase or is done, and at most connection c changes. */
  lemma PhaseMoveKeeps(s: State, s': State, r: nat, c: nat, k': Conn)
    requires Inv(s) && r < |s.rs| && c < |s.tcp|
    requires s'.stream == s.stream && s'.owner == s.owner && s'.accepted == s.accepted
    requires s.rejections <= s'.rejections && s'.rxSeq == s.rxSeq && s'.dataIn == s.dataIn && s'.conns == s.conns && s'.tcp == s.tcp[c := k']
    requires |s'.rs| == |s.rs| && s'.rs == s.rs[r := s'.rs[r]] && !s'.rs[r].Past?
    requires HoldOf(s.rs[r]).AckTurn? || HoldOf(s.rs[r]).FwdTurn?
    requires HoldOf(s'.rs[r]) == Free || HoldOf(s'.rs[r]) == FwdTurn(HoldOf(s.rs[r]).i)
    requires s.rs[r].i < |s.stream| && forall d: nat :: d != c ==> !Data(s.stream[s.rs[r].i], d)
    requires PhaseOk(s', r) && Evolves(s.tcp[c], k') && ConnFacts(s.stream, k', c)
    requires MuxInv(Moved(LedgerOf(s), r, HoldOf(s'.rs[r])))
    requires k'.status.Connected? ==> Chain(Moved(LedgerOf(s), r, HoldOf(s'.rs[r])), c, k'.admitted, k'.forwarded)
    ensures Inv(s')
  {
    var l := LedgerOf(s);
    var h := HoldOf(s'.rs[r]);
    HoldsUpdate(s.rs, r, s'.rs[r]);
    assert LedgerOf(s') == Moved(l, r, h);
    forall d | 0 <= d < |s'.tcp|
      ensures ConnOk(s', d)
    {
      assert ConnOk(s, d);
      if d != c && s.tcp[d].status.Connected? {
        MovedKeepsOther(l, r, h, d, s.tcp[d].admitted, s.tcp[d].forwarded);
      }
    }
    StreamKept(s, s');
    MapKept(s, s');
    PhasesKept(s, s', r);
  }

  lemma MovedInv(s: State, r: nat, h: Hold)
    requires Inv(s) && r < |s.rs|
    requires HoldOf(s.rs[r]).AckTurn? || HoldOf(s.rs[r]).FwdTurn?
    requires h == Free || h == FwdTurn(HoldOf(s.rs[r]).i)
    ensures MuxInv(Moved(LedgerOf(s), r, h)) && s.rs[r].i < s.accepted
  {
    assert LedgerOf(s).holds[r] == HoldOf(s.rs[r]);
    assert HoldOk(LedgerOf(s), r);
    MovedKeeps(LedgerOf(s), r, h);
  }

  /** A receiver gives up its packet: nothing of a live connection is lost by it. */
  lemma LeaveKeeps(s: State, s': State, r: nat)
    requires Inv(s) && r < |s.rs| && s' == s.(rs := s.rs[r := Idle])
    requires HoldOf(s.rs[r]).AckTurn? || HoldOf(s.rs[r]).FwdTurn?
    requires s.rs[r].i < |s.stream|
    requires forall d: nat :: d < |s.tcp| && s.tcp[d].status.Connected? ==> !Data(s.stream[s.rs[r].i], d)
    ensures Inv(s')
  {
    var l := LedgerOf(s);
    MovedInv(s, r, Free);
    HoldsUpdate(s.rs, r, Idle);
    assert LedgerOf(s') == Moved(l, r, Free);
    forall d | 0 <= d < |s'.tcp|
      ensures ConnOk(s', d)
    {
      assert ConnOk(s, d);
      if s.tcp[d].status.Connected? {
        MovedKeepsOther(l, r, Free, d, s.tcp[d].admitted, s.tcp[d].forwarded);
      }
    }
    StreamKept(s, s');
    MapKept(s, s');
    PhasesKept(s, s', r);
  }

  lemma LookupKeeps(s: State, r: nat)
    requires Inv(s) && r < |s.rs| && s.rs[r].Past? && s.rs[r].i < |s.stream|
    ensures Inv(AfterLookup(s, r))
  {
    var s' := AfterLookup(s, r);
    var i := s.rs[r].i;
    assert LedgerOf(s).holds[r] == HoldOf(s.rs[r]) && HoldOk(LedgerOf(s), r);
    assert PacketOk(s.stream, s.tcp, i);
    assert Unresolved(s, i) && LookupOk(s, i);
    if s'.rs[r].LookedUp? {
      SamePhaseKeeps(s, s', r);
    } else {
      forall d: nat | d < |s.tcp| && s.tcp[d].status.Connected?
        ensures !Data(s.stream[i], d)
      {
        assert Listed(s, d);
      }
      LeaveKeeps(s, s', r);
    }
  }

  lemma HandshakeFacts(stream: seq<Packet>, k: Conn, c: nat, p: Packet)
    requires ConnFacts(stream, k, c) && k.status.Connecting?
    ensures ConnFacts(stream, Handshake(k, p), c) && Evolves(k, Handshake(k, p))
  {
    WrapAdd32(p.seqNo, 1);
  }

  lemma AdmitFacts(stream: seq<Packet>, k: Conn, c: nat, p: Packet, mode: AckMode)
    requires ConnFacts(stream, k, c) && k.established
    ensures ConnFacts(stream, Admit(k, p, mode), c) && Evolves(k, Admit(k, p, mode))
    ensures Admit(k, p, mode).status == k.status && Admit(k, p, mode).forwarded == k.forwarded
    ensures Admit(k, p, mode).admitted == k.admitted + |p.payload|
  {
    WrapAdd32(k.base + k.admitted, |p.payload|);
    hide Wrap32, Bytes, Off;
  }

  /** Handing on the payload at offset forwarded extends the log by the stream's own bytes. */
  lemma ForwardFacts(stream: seq<Packet>, k: Conn, c: nat, i: nat)
    requires ConnFacts(stream, k, c) && k.status.Connected? && i < |stream| && Data(stream[i], c)
    requires stream[i].seqNo == k.pktForwarded && Off(stream, c, i) == k.forwarded
    ensures ConnFacts(stream, ForwardSection(k, stream[i]).0, c) && Evolves(k, ForwardSection(k, stream[i]).0)
  {
    WrapAdd32(k.base + k.forwarded, |stream[i].payload|);
    BytesPrefix(stream, c, i, |stream|);
    BytesPrefix(stream, c, i + 1, |stream|);
    BytesLength(stream, c, i);
    BytesLength(stream, c, i + 1);
    assert Bytes(stream, c, i + 1) == Bytes(stream, c, i) + stream[i].payload;
    assert Off(stream, c, i + 1) == k.forwarded + |stream[i].payload|;
    hide Bytes, Off, AcksOk, CoveredOk, Wrap32;
    assert k.toClient == Bytes(stream, c, i);
  }

  /** Until the handshake no packet carries bytes of the connection. */
  lemma NothingBeforeHandshake(s: State, c: nat)
    requires StreamOk(s) && c < |s.tcp| && !s.tcp[c].established
    ensures forall i :: 0 <= i < |s.stream| ==> !Carries(s.stream[i], c)
  {
    forall i | 0 <= i < |s.stream|
      ensures !Carries(s.stream[i], c)
    {
      assert PacketOk(s.stream, s.tcp, i);
    }
  }

  lemma UnsentFacts(stream: seq<Packet>, k: Conn, c: nat, p: Packet)
    requires ConnFacts(stream, k, c) && k.established
    ensures ConnFacts(stream, AdmitUnsent(k, p), c) && Evolves(k, AdmitUnsent(k, p))
    ensures AdmitUnsent(k, p).status == k.status && AdmitUnsent(k, p).forwarded == k.forwarded
    ensures AdmitUnsent(k, p).admitted == k.admitted + |p.payload|
  {
    WrapAdd32(k.base + k.admitted, |p.payload|);
  }

  /** Where a packet is after its admission: to be handed on, done with, or lost. */
  ghost predicate AfterTurn(rc: Receiver, i: nat, c: nat, k: Conn, p: Packet) {
    if p.payload == [] then rc == Idle else rc == Admitted(i, c) || (rc == Lost(i, c) && k.broken)
  }

  /** Admission on connection c, whatever its state: only a live connection needs its chain. */
  lemma AdmitMoveKeeps(s: State, s': State, r: nat, k': Conn)
    requires Inv(s) && r < |s.rs| && (s.rs[r].LookedUp? || s.rs[r].AckRetry?) && Concerns(s, s.rs[r].i, s.rs[r].c)
    requires s.stream[s.rs[r].i].kind.Ack? && s.tcp[s.rs[r].c].ack == s.stream[s.rs[r].i].seqNo
    requires ConnFacts(s.stream, k', s.rs[r].c) && Evolves(s.tcp[s.rs[r].c], k')
    requires k'.status == s.tcp[s.rs[r].c].status && k'.forwarded == s.tcp[s.rs[r].c].forwarded
    requires k'.admitted == s.tcp[s.rs[r].c].admitted + |s.stream[s.rs[r].i].payload|
    requires |s'.rs| == |s.rs| && AfterTurn(s'.rs[r], s.rs[r].i, s.rs[r].c, k', s.stream[s.rs[r].i])
    requires s.rejections <= s'.rejections && (s'.rs[r].Lost? ==> s'.rejections > 0)
    requires s' == s.(tcp := s.tcp[s.rs[r].c := k'], rs := s.rs[r := s'.rs[r]], rejections := s'.rejections)
    ensures Inv(s')
  {
    MovedInv(s, r, HoldOf(s'.rs[r]));
    if k'.status.Connected? {
      AdmitChain(s, r);
    }
    PhaseMoveKeeps(s, s', r, s.rs[r].c, k');
  }

  lemma AdmitKeeps(s: State, r: nat, mode: AckMode)
    requires Inv(s) && r < |s.rs| && (s.rs[r].LookedUp? || s.rs[r].AckRetry?) && Concerns(s, s.rs[r].i, s.rs[r].c)
    requires s.stream[s.rs[r].i].kind.Ack? && s.tcp[s.rs[r].c].ack == s.stream[s.rs[r].i].seqNo
    ensures Inv(AfterInput(s, r, s.rs[r].c, AckSection(s.tcp[s.rs[r].c], s.stream[s.rs[r].i], mode)))
  {
    var i, c := s.rs[r].i, s.rs[r].c;
    var out := AckSection(s.tcp[c], s.stream[i], mode);
    assert PacketOk(s.stream, s.tcp, i) && ConnOk(s, c);
    AdmitFacts(s.stream, s.tcp[c], c, s.stream[i], mode);
    UnsentFacts(s.stream, s.tcp[c], c, s.stream[i]);
    hide Inv, ConnFacts, Evolves, Admit;
    AdmitMoveKeeps(s, AfterInput(s, r, c, out), r, out.0);
  }

  lemma AdmitChain(s: State, r: nat)
    requires Inv(s) && r < |s.rs| && HoldOf(s.rs[r]).AckTurn? && s.rs[r].i < |s.stream|
    requires s.stream[s.rs[r].i].kind.Ack? && s.stream[s.rs[r].i].cid < |s.tcp|
    requires s.tcp[s.stream[s.rs[r].i].cid].status.Connected?
    requires s.tcp[s.stream[s.rs[r].i].cid].ack == s.stream[s.rs[r].i].seqNo
    ensures var p := s.stream[s.rs[r].i];
            var k := s.tcp[p.cid];
            var h := if p.payload != [] then FwdTurn(s.rs[r].i) else Free;
            MuxInv(Moved(LedgerOf(s), r, h))
            && Chain(Moved(LedgerOf(s), r, h), p.cid, k.admitted + |p.payload|, k.forwarded)
  {
    hide Chain, AcksOk, Bytes;
    var i := s.rs[r].i;
    var p := s.stream[i];
    var c := p.cid;
    var k := s.tcp[c];
    var l := LedgerOf(s);
    assert PacketOk(s.stream, s.tcp, i) && ConnOk(s, c);
    assert l.holds[r] == AckTurn(i);
    if p.payload != [] {
      MovedInv(s, r, FwdTurn(i));
      hide MuxInv, Inv;
      AckTurnExact(l, r, c, k.admitted, k.forwarded, k.base);
      AdmitKeepsChain(l, r, c, k.admitted, k.forwarded);
    } else {
      MovedInv(s, r, Free);
      hide MuxInv, Inv;
      MovedKeepsOther(l, r, Free, c, k.admitted, k.forwarded);
    }
  }

  lemma AckWaitKeeps(s: State, r: nat, mode: AckMode)
    requires Inv(s) && r < |s.rs| && (s.rs[r].LookedUp? || s.rs[r].AckRetry?) && Concerns(s, s.rs[r].i, s.rs[r].c)
    requires s.stream[s.rs[r].i].kind.Ack?
    ensures Inv(AfterInput(s, r, s.rs[r].c, AckSection(s.tcp[s.rs[r].c], s.stream[s.rs[r].i], mode)))
  {
    var i, c := s.rs[r].i, s.rs[r].c;
    if s.tcp[c].ack == s.stream[i].seqNo {
      AdmitKeeps(s, r, mode);
    } else {
      var s' := AfterInput(s, r, c, AckSection(s.tcp[c], s.stream[i], mode));
      assert s'.tcp == s.tcp;
      SamePhaseKeeps(s, s', r);
    }
  }

  /** The SYN/ACK's acknowledgement is rejected: the connection stays as it was for the client. */
  lemma UnansweredFacts(stream: seq<Packet>, k: Conn, c: nat, p: Packet)
    requires ConnFacts(stream, k, c) && !k.established
    ensures ConnFacts(stream, RejectAck(TakeNumbers(k, p)), c) && Evolves(k, RejectAck(TakeNumbers(k, p)))
  {
  }

  /** handle_input on anything but an acknowledgement of a live connection. */
  lemma OtherInputKeeps(s: State, r: nat, mode: AckMode)
    requires Inv(s) && r < |s.rs| && s.rs[r].LookedUp? && Concerns(s, s.rs[r].i, s.rs[r].c)
    requires !(s.tcp[s.rs[r].c].status.Connected? && s.stream[s.rs[r].i].kind.Ack?)
    ensures Inv(AfterInput(s, r, s.rs[r].c, InputSection(s.tcp[s.rs[r].c], s.stream[s.rs[r].i], mode)))
  {
    var i, c := s.rs[r].i, s.rs[r].c;
    var p := s.stream[i];
    var k := s.tcp[c];
    var l := LedgerOf(s);
    var out := InputSection(k, p, mode);
    var s' := AfterInput(s, r, c, out);
    assert PacketOk(s.stream, s.tcp, i) && ConnOk(s, c);
    assert s'.rs[r] == Idle || s'.rs[r] == Failed(i);
    MovedInv(s, r, Free);
    if out.1.Unanswered? {
      UnansweredFacts(s.stream, k, c, p);
    } else if k.status.Connecting? && p.kind.SynAck? {
      HandshakeFacts(s.stream, k, c, p);
      NothingBeforeHandshake(s, c);
      EmptyChain(Moved(l, r, Free), c);
    } else {
      OtherFacts(s.stream, k, c, p, mode);
      if k.status.Connected? {
        MovedKeepsOther(l, r, Free, c, k.admitted, k.forwarded);
      }
    }
    hide ConnFacts;
    PhaseMoveKeeps(s, s', r, c, out.0);
  }

  lemma OtherFacts(stream: seq<Packet>, k: Conn, c: nat, p: Packet, mode: AckMode)
    requires ConnFacts(stream, k, c) && !(k.status.Connected? && p.kind.Ack?) && !(k.status.Connecting? && p.kind.SynAck?)
    ensures ConnFacts(stream, InputSection(k, p, mode).0, c) && Evolves(k, InputSection(k, p, mode).0)
  {
    hide Bytes, Off;
  }

  lemma ForwardChain(s: State, r: nat)
    requires Inv(s) && r < |s.rs| && s.rs[r].Admitted? && PhaseOk(s, r)
    requires s.tcp[s.rs[r].c].status.Connected?
    requires s.tcp[s.rs[r].c].pktForwarded == s.stream[s.rs[r].i].seqNo
    ensures var p := s.stream[s.rs[r].i];
            var k := s.tcp[s.rs[r].c];
            && Off(s.stream, s.rs[r].c, s.rs[r].i) == k.forwarded
            && MuxInv(Moved(LedgerOf(s), r, Free))
            && Chain(Moved(LedgerOf(s), r, Free), s.rs[r].c, k.admitted, k.forwarded + |p.payload|)
  {
    var i, c := s.rs[r].i, s.rs[r].c;
    var k := s.tcp[c];
    var l := LedgerOf(s);
    assert PacketOk(s.stream, s.tcp, i) && ConnOk(s, c);
    assert l.holds[r] == FwdTurn(i);
    MovedInv(s, r, Free);
    FwdTurnExact(l, r, c, k.admitted, k.forwarded, k.base);
    ForwardKeepsChain(l, r, c, k.admitted, k.forwarded);
  }

  lemma ForwardKeeps(s: State, r: nat)
    requires Inv(s) && r < |s.rs| && s.rs[r].Admitted? && PhaseOk(s, r)
    ensures Inv(AfterForward(s, r, s.rs[r].c, ForwardSection(s.tcp[s.rs[r].c], s.stream[s.rs[r].i])))
  {
    var i, c := s.rs[r].i, s.rs[r].c;
    var p := s.stream[i];
    var k := s.tcp[c];
    var l := LedgerOf(s);
    var out := ForwardSection(k, p);
    var s' := AfterForward(s, r, c, out);
    assert PacketOk(s.stream, s.tcp, i) && ConnOk(s, c);
    assert l.holds[r] == FwdTurn(i);
    if out.1.Asleep? {
      assert s'.tcp == s.tcp;
      SamePhaseKeeps(s, s', r);
    } else {
      MovedInv(s, r, Free);
      if k.status.Connected? {
        ForwardChain(s, r);
        ForwardFacts(s.stream, k, c, i);
      }
      PhaseMoveKeeps(s, s', r, c, out.0);
    }
  }

  lemma WakeKeeps(s: State, r: nat, retry: Receiver)
    requires Inv(s) && r < |s.rs| && PhaseOk(s, r)
    requires (s.rs[r].AckWait? && retry == AckRetry(s.rs[r].i, s.rs[r].c))
          || (s.rs[r].FwdWait? && retry == Admitted(s.rs[r].i, s.rs[r].c))
    ensures Inv(AfterWake(s, r, s.rs[r].c, retry))
  {
    var c := s.rs[r].c;
    if s.tcp[c].status.Connected? {
      SamePhaseKeeps(s, AfterWake(s, r, c, retry), r);
    } else {
      LeaveKeeps(s, AfterWake(s, r, c, retry), r);
    }
  }

  lemma RunsKeeps(s: State, r: nat, mode: AckMode)
    requires Inv(s) && Can(s, Runs(r, mode))
    ensures Inv(Do(s, Runs(r, mode)))
  {
    assert PhaseOk(s, r);
    match s.rs[r] {
      case Taken(i) =>
        assert PacketOk(s.stream, s.tcp, i);
        MuxKeeps(s, r, MuxEntry(Expected(s), s.stream[i].txSeq, |s.rs|));
      case MuxWait(i, _) => MuxKeeps(s, r, MuxLoop(Expected(s), s.stream[i].txSeq, |s.rs|));
      case Past(i) => LookupKeeps(s, r);
      case LookedUp(i, c) =>
        if s.tcp[c].status.Connected? && s.stream[i].kind.Ack? {
          AckWaitKeeps(s, r, mode);
        } else {
          OtherInputKeeps(s, r, mode);
        }
      case AckWait(i, c, _) => WakeKeeps(s, r, AckRetry(i, c));
      case AckRetry(i, c) => AckWaitKeeps(s, r, mode);
      case Admitted(i, c) => ForwardKeeps(s, r);
      case FwdWait(i, c, _) => WakeKeeps(s, r, Admitted(i, c));
    }
  }

  lemma StepKeeps(s: State, e: Event)
    requires Inv(s) && Can(s, e)
    ensures Inv(Do(s, e))
  {
    match e {
      case DeviceSends(p) => SendsKeeps(s, p);
      case Opens(port, iss) => OpensKeeps(s, port, iss);
      case Dies(port) => DiesKeeps(s, port);
      case Closes(port) => ClosesKeeps(s, port);
      case SenderSends(c, len, rejected) => SenderKeeps(s, c, len, rejected);
      case Enters(port) => EntersKeeps(s, port);
      case Announces(c) => AnnounceKeeps(s, c);
      case Takes(r) => TakesKeeps(s, r);
      case Runs(r, mode) => RunsKeeps(s, r, mode);
    }
  }

  lemma {:induction false} RunKeeps(s: State, run: seq<Event>)
    requires Inv(s) && Valid(s, run)
    ensures Inv(After(s, run))
    decreases |run|
  {
    if run != [] {
      RunKeeps(s, Front(run));
      StepKeeps(After(s, Front(run)), Last(run));
    }
  }

  /** The invariant holds in every state any interleaving reaches. */
  lemma ReachableInv(n: nat, s: State)
    requires Reachable(n, s)
    ensures Inv(s)
  {
    var run :| Valid(Start(n), run) && After(Start(n), run) == s;
    StartInv(n);
    RunKeeps(Start(n), run);
  }
}
