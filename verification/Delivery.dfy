/** Results about every reachable state of the receivers. */
module Delivery {
  import opened Wrapping
  import opened Packets
  import opened Holdings
  import opened Connection
  import opened Receivers
  import opened ReceiveSafety
  import opened Sums

  /** What a client has been handed is a prefix of its connection's byte stream: in order,
      nothing missing, nothing twice, whatever the interleaving and across both wraps. */
  lemma DeliveredInOrder(n: nat, s: State, c: nat)
    requires Reachable(n, s) && c < |s.tcp|
    ensures s.tcp[c].toClient <= Bytes(s.stream, c, |s.stream|)
    ensures |s.tcp[c].toClient| == s.tcp[c].forwarded
    ensures s.tcp[c].established ==>
              && s.tcp[c].pktForwarded == Wrap32(s.tcp[c].base + |s.tcp[c].toClient|)
              && s.tcp[c].ack == Wrap32(s.tcp[c].base + s.tcp[c].admitted)
  {
    hide Reachable;
    ReachableInv(n, s);
    assert ConnOk(s, c);
  }

  /** Later steps only extend what was delivered and acknowledged. */
  ghost predicate Extends(k: Conn, k': Conn) {
    && k'.sport == k.sport && k.toClient <= k'.toClient && k.acks <= k'.acks
    && (k.established ==> k'.established && k'.base == k.base && k.admitted <= k'.admitted)
    && (k'.status.Connected? && k.established ==> k.status.Connected?)
  }

  lemma AckExtends(k: Conn, p: Packet, mode: AckMode)
    ensures Extends(k, AckSection(k, p, mode).0)
  {
  }

  lemma ForwardExtends(k: Conn, p: Packet)
    ensures Extends(k, ForwardSection(k, p).0)
  {
  }

  /** Every critical section extends its connection. */
  lemma SectionsExtend(k: Conn, p: Packet, mode: AckMode)
    requires (k.status.Connecting? ==> !k.established) && (!k.established ==> k.admitted == 0)
    ensures Extends(k, InputSection(k, p, mode).0)
    ensures Extends(k, AckSection(k, p, mode).0)
    ensures Extends(k, ForwardSection(k, p).0)
  {
    AckExtends(k, p, mode);
    ForwardExtends(k, p);
    hide AckSection, ForwardSection;
  }

  lemma RunsExtends(s: State, r: nat, mode: AckMode, c: nat)
    requires Can(s, Runs(r, mode)) && c < |s.tcp| && ConnFacts(s.stream, s.tcp[c], c)
    ensures c < |Do(s, Runs(r, mode)).tcp| && Extends(s.tcp[c], Do(s, Runs(r, mode)).tcp[c])
  {
    if !HoldOf(s.rs[r]).Pre? && !s.rs[r].Past? {
      SectionsExtend(s.tcp[c], s.stream[s.rs[r].i], mode);
    }
    hide InputSection, AckSection, ForwardSection, MuxEntry, MuxLoop;
  }

  lemma StepExtends(s: State, e: Event, c: nat)
    requires Inv(s) && Can(s, e) && c < |s.tcp|
    ensures c < |Do(s, e).tcp| && Extends(s.tcp[c], Do(s, e).tcp[c])
    ensures s.stream <= Do(s, e).stream
  {
    assert ConnOk(s, c);
    if e.Runs? {
      RunsExtends(s, e.r, e.mode, c);
    }
    hide Inv, WellFormed, InputSection, AckSection, ForwardSection, MuxEntry, MuxLoop;
  }

  lemma {:induction false} RunExtends(s: State, run: seq<Event>, c: nat)
    requires Inv(s) && Valid(s, run) && c < |s.tcp|
    ensures c < |After(s, run).tcp| && Extends(s.tcp[c], After(s, run).tcp[c])
    ensures s.stream <= After(s, run).stream
    decreases |run|
  {
    if run != [] {
      RunKeeps(s, Front(run));
      RunExtends(s, Front(run), c);
      StepExtends(After(s, Front(run)), Last(run), c);
    }
  }

  /** Packets pass the mux turn exactly in stream order: the i-th accepted one is packet i,
      whose number is i mod 65536; and none is ever discarded as a duplicate. */
  lemma AcceptedInOrder(n: nat, s: State, r: nat, mode: AckMode)
    requires Reachable(n, s) && Can(s, Runs(r, mode)) && HoldOf(s.rs[r]).Pre?
    ensures var s' := Do(s, Runs(r, mode));
            && s'.rs[r] != Idle
            && (s'.rs[r] == Past(s.rs[r].i) <==> s'.accepted == s.accepted + 1)
            && (s'.rs[r] == Past(s.rs[r].i) ==> s.rs[r].i == s.accepted && s'.rxSeq == Wrap16(s.accepted))
            && (s'.rs[r] != Past(s.rs[r].i) ==> s'.accepted == s.accepted && s'.rxSeq == s.rxSeq)
  {
    hide Reachable;
    ReachableInv(n, s);
    assert PacketOk(s.stream, s.tcp, s.rs[r].i);
    NeverDropped(s, r);
  }

  /** While a connection lives, ack - pktForwarded is what the receivers hold admitted and
      not yet handed on: at most one full transfer each. */
  lemma AckBookkeeping(n: nat, s: State, c: nat)
    requires Reachable(n, s) && c < |s.tcp| && s.tcp[c].status.Connected?
    ensures Wrap32(s.tcp[c].ack - s.tcp[c].pktForwarded) == Sum(FwdLoads(s.stream, HoldsOf(s.rs), c))
    ensures Sum(FwdLoads(s.stream, HoldsOf(s.rs), c)) == s.tcp[c].admitted - s.tcp[c].forwarded
    ensures Sum(FwdLoads(s.stream, HoldsOf(s.rs), c)) <= |s.rs| * USB_MRU
  {
    hide Reachable;
    ReachableInv(n, s);
    assert ConnOk(s, c);
    ChainBound(LedgerOf(s), c, s.tcp[c].admitted, s.tcp[c].forwarded);
    WrapDistance(s.tcp[c].base, s.tcp[c].admitted, s.tcp[c].forwarded);
  }

  /** Those holdings form one contiguous chain: every byte between the two marks is held by
      exactly one receiver, in its forward turn. */
  lemma AdmittedBytesAreHeld(n: nat, s: State, c: nat, x: nat) returns (r: nat)
    requires Reachable(n, s) && c < |s.tcp| && s.tcp[c].status.Connected?
    requires s.tcp[c].forwarded <= x < s.tcp[c].admitted
    ensures r < |s.rs| && HoldsByte(s, r, c, x)
    ensures forall q :: 0 <= q < |s.rs| && HoldsByte(s, q, c, x) ==> q == r
  {
    hide Reachable;
    ReachableInv(n, s);
    assert ConnOk(s, c);
    var l := LedgerOf(s);
    var i := PacketAt(s.stream, c, s.accepted, x);
    AdmittedWhole(l, c, s.tcp[c].admitted, s.tcp[c].forwarded, i);
    StillHeld(l, c, s.tcp[c].admitted, s.tcp[c].forwarded, i);
    r := s.owner[i];
    assert l.holds[r] == HoldOf(s.rs[r]);
    forall q | 0 <= q < |s.rs| && HoldsByte(s, q, c, x)
      ensures q == r
    {
      assert l.holds[q] == HoldOf(s.rs[q]) && HoldOk(l, q);
      if s.rs[q].i != i {
        DistinctOffsets(s.stream, c, i, s.rs[q].i);
      }
    }
  }

  ghost predicate HoldsByte(s: State, r: nat, c: nat, x: nat)
    requires r < |s.rs|
  {
    && HoldOf(s.rs[r]).FwdTurn? && s.rs[r].i < |s.stream| && Data(s.stream[s.rs[r].i], c)
    && Off(s.stream, c, s.rs[r].i) <= x < Off(s.stream, c, s.rs[r].i + 1)
  }

  /** The acknowledgement numbers sent on a connection never go back and never cover a byte
      that was not admitted. */
  lemma AcksNeverRunAhead(n: nat, s: State, c: nat)
    requires Reachable(n, s) && c < |s.tcp|
    ensures AcksOk(s.tcp[c])
    ensures s.accepted <= |s.stream|
    ensures s.tcp[c].status.Connected? ==> s.tcp[c].admitted <= Off(s.stream, c, s.accepted)
  {
    hide Reachable;
    ReachableInv(n, s);
    assert ConnOk(s, c);
  }

  /** Receivers that an exception has ended. */
  ghost function Ended(rs: seq<Receiver>): set<nat> {
    set r: nat | r < |rs| && IsEnded(rs[r])
  }

  lemma EndedUpdate(rs: seq<Receiver>, r: nat, rc: Receiver)
    requires r < |rs| && !IsEnded(rs[r])
    ensures |Ended(rs[r := rc])| == |Ended(rs)| + if IsEnded(rc) then 1 else 0
  {
    if IsEnded(rc) {
      assert Ended(rs[r := rc]) == Ended(rs) + {r};
    } else {
      assert Ended(rs[r := rc]) == Ended(rs);
    }
  }

  lemma StepEnds(s: State, e: Event)
    requires Inv(s) && Can(s, e) && |Ended(s.rs)| == s.rejections
    ensures |Ended(Do(s, e).rs)| == Do(s, e).rejections
  {
    hide Do, Inv, Possible, Orderly;
    var s' := Do(s, e);
    if e.Runs? {
      EndsOne(s, e.r, e.mode);
      EndedUpdate(s.rs, e.r, s'.rs[e.r]);
    } else {
      OthersEndNone(s, e);
      assert Ended(s'.rs) == Ended(s.rs);
    }
  }

  lemma OthersEndNone(s: State, e: Event)
    requires Can(s, e) && !e.Runs?
    ensures |Do(s, e).rs| == |s.rs| && Do(s, e).rejections == s.rejections
    ensures forall q :: 0 <= q < |s.rs| ==> Do(s, e).rs[q] == s.rs[q] || (s.rs[q].Idle? && Do(s, e).rs[q].Taken?)
  {
  }

  /** A receiver is ended exactly by the rejection of an acknowledgement. */
  lemma EndsOne(s: State, r: nat, mode: AckMode)
    requires Inv(s) && Can(s, Runs(r, mode))
    ensures r < |s.rs| && !IsEnded(s.rs[r])
    ensures var s' := Do(s, Runs(r, mode));
            && |s'.rs| == |s.rs| && s'.rs == s.rs[r := s'.rs[r]]
            && s'.rejections == s.rejections + if IsEnded(s'.rs[r]) then 1 else 0
  {
    assert PhaseOk(s, r) && PacketOk(s.stream, s.tcp, s.rs[r].i);
    if s.rs[r].LookedUp? {
      assert ConnOk(s, s.rs[r].c);
    }
    hide Inv, MuxEntry, MuxLoop, ConnOk, Admit;
  }

  lemma {:induction false} RunEnds(s: State, run: seq<Event>)
    requires Inv(s) && Valid(s, run) && |Ended(s.rs)| == s.rejections
    ensures |Ended(After(s, run).rs)| == After(s, run).rejections
    decreases |run|
  {
    if run != [] {
      RunEnds(s, Front(run));
      RunKeeps(s, Front(run));
      StepEnds(After(s, Front(run)), Last(run));
    }
  }

  /** On what a well-formed device sends, exactly as many receivers have been ended by an
      exception as acknowledgements were rejected; none if USB accepts everything. */
  lemma EndedByRejection(n: nat, s: State)
    requires Reachable(n, s)
    ensures |Ended(s.rs)| == s.rejections
    ensures s.rejections == 0 ==> forall r :: 0 <= r < |s.rs| ==> !IsEnded(s.rs[r])
  {
    var run :| Valid(Start(n), run) && After(Start(n), run) == s;
    hide Reachable;
    StartInv(n);
    assert Ended(Start(n).rs) == {};
    RunEnds(Start(n), run);
    forall r | 0 <= r < |s.rs| && s.rejections == 0
      ensures !IsEnded(s.rs[r])
    {
      assert r !in Ended(s.rs);
    }
  }
}
