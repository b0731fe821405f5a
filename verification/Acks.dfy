/** What the receivers acknowledge: each payload taken in its turn, at once, unless a sender that
    waits is left to do it or USB rejects it. */
module Acks {
  import opened Wrapping
  import opened Packets
  import opened Holdings
  import opened Connection
  import opened Receivers
  import opened ReceiveSafety
  import opened Delivery

  /** The next step of receiver r takes a payload of connection c in its turn. */
  ghost predicate TakesPayload(s: State, r: nat, c: nat)
    requires r < |s.rs| && c < |s.tcp|
  {
    && ((s.rs[r].LookedUp? && s.tcp[c].status.Connected?) || s.rs[r].AckRetry?) && s.rs[r].c == c
    && s.rs[r].i < |s.stream| && s.stream[s.rs[r].i].kind.Ack?
    && s.stream[s.rs[r].i].payload != [] && s.stream[s.rs[r].i].seqNo == s.tcp[c].ack
  }

  lemma PassedTurn(k: Conn, p: Packet)
    requires p.kind.Ack? && p.payload != [] && p.seqNo == k.ack
    ensures forall out :: out == AckSection(k, p, Passed) || (k.status.Connected? && out == InputSection(k, p, Passed)) ==>
              && out.0.ack == out.0.acked == Wrap32(k.ack + |p.payload|) && out.0.admitted == k.admitted + |p.payload|
              && out.0.acks == k.acks + if out.0.ack != k.acked then [AckSent(out.0.ack, out.0.admitted)] else []
  {
  }

  /** In every reachable state: taking a payload sends its acknowledgement, which covers all that
      was admitted, if and only if what is not covered yet is no multiple of 2^32 bytes. */
  lemma TakenIsAcknowledged(n: nat, s: State, r: nat, c: nat)
    requires Reachable(n, s) && r < |s.rs| && c < |s.tcp| && TakesPayload(s, r, c) && Can(s, Runs(r, Passed))
    ensures c < |Do(s, Runs(r, Passed)).tcp|
    ensures var k, k' := s.tcp[c], Do(s, Runs(r, Passed)).tcp[c];
            && k'.admitted == k.admitted + |s.stream[s.rs[r].i].payload|
            && k'.acked == k'.ack == Wrap32(k.base + k'.admitted) && k.covered <= k.admitted
            && k'.acks == k.acks + if (k'.admitted - k.covered) % 0x1_0000_0000 != 0 then [AckSent(k'.ack, k'.admitted)] else []
  {
    hide Reachable;
    ReachableInv(n, s);
    assert PhaseOk(s, r) && ConnOk(s, c) && PacketOk(s.stream, s.tcp, s.rs[r].i);
    var k, p := s.tcp[c], s.stream[s.rs[r].i];
    PassedTurn(k, p);
    hide Inv, AckSection, InputSection;
    WrapAdd32(k.base + k.admitted, |p.payload|);
    SameNumber(k.base + k.admitted + |p.payload|, k.base + k.covered);
  }

  lemma SameNumber(x: int, y: int)
    ensures Wrap32(x) == Wrap32(y) <==> (x - y) % 0x1_0000_0000 == 0
  {
  }

  /** ---- Over runs ---- */

  /** Everything admitted is covered. */
  predicate UpToDate(k: Conn) { !k.broken && k.covered == k.admitted }

  predicate AllPassed(e: Event) { e.Runs? ==> e.mode.Passed? }

  lemma SectionsUpToDate(k: Conn, p: Packet)
    requires UpToDate(k) && |p.payload| <= USB_MRU
    requires k.established ==> k.acked == Wrap32(k.base + k.admitted) && k.ack == Wrap32(k.base + k.admitted)
    requires k.status.Connected? ==> k.established
    ensures UpToDate(InputSection(k, p, Passed).0)
    ensures k.established ==> UpToDate(AckSection(k, p, Passed).0)
    ensures UpToDate(ForwardSection(k, p).0)
  {
    if p.payload != [] && k.established {
      WrapAdd32(k.base + k.admitted, |p.payload|);
      Apart32(k.base + k.admitted + |p.payload|, k.base + k.admitted);
    }
    hide Wrap32;
  }

  lemma StepUpToDate(s: State, e: Event, c: nat)
    requires Inv(s) && Can(s, e) && AllPassed(e) && c < |Do(s, e).tcp|
    requires c < |s.tcp| ==> UpToDate(s.tcp[c])
    ensures UpToDate(Do(s, e).tcp[c])
  {
    if e.Runs? {
      RunsUpToDate(s, e.r, c);
      hide Do;
    } else {
      hide Inv, WellFormed;
    }
  }

  lemma RunsUpToDate(s: State, r: nat, c: nat)
    requires Inv(s) && Can(s, Runs(r, Passed)) && c < |s.tcp| && UpToDate(s.tcp[c])
    ensures |Do(s, Runs(r, Passed)).tcp| == |s.tcp| && UpToDate(Do(s, Runs(r, Passed)).tcp[c])
  {
    assert ConnOk(s, c) && PhaseOk(s, r) && PacketOk(s.stream, s.tcp, s.rs[r].i);
    SectionsUpToDate(s.tcp[c], s.stream[s.rs[r].i]);
    hide Inv, InputSection, AckSection, ForwardSection, MuxEntry, MuxLoop;
  }

  lemma {:induction false} RunUpToDate(s: State, run: seq<Event>, c: nat)
    requires Inv(s) && Valid(s, run) && (forall e :: e in run ==> AllPassed(e)) && s.tcp == []
    ensures c < |After(s, run).tcp| ==> UpToDate(After(s, run).tcp[c])
    decreases |run|
  {
    if run != [] && c < |After(s, run).tcp| {
      assert Last(run) in run && forall e :: e in Front(run) ==> e in run;
      RunUpToDate(s, Front(run), c);
      RunKeeps(s, Front(run));
      hide Inv, Do, Can;
      StepUpToDate(After(s, Front(run)), Last(run), c);
    }
  }

  /** As long as no acknowledgement is left to a sender or rejected, and no segment is rejected,
      the last acknowledgement of every connection covers everything it has admitted. */
  lemma AllAcknowledged(n: nat, run: seq<Event>, c: nat)
    requires 0 < n < 0x1_0000 && Valid(Start(n), run) && (forall e :: e in run ==> AllPassed(e))
    requires c < |After(Start(n), run).tcp|
    ensures var k := After(Start(n), run).tcp[c];
            k.established && !k.held && k.admitted > 0 ==>
              k.acks != [] && k.acks[|k.acks| - 1] == AckSent(k.ack, k.admitted)
  {
    StartInv(n);
    RunUpToDate(Start(n), run, c);
    RunKeeps(Start(n), run);
    hide Valid, After, Start;
    LastCovers(After(Start(n), run), c);
  }

  lemma LastCovers(s: State, c: nat)
    requires Inv(s) && c < |s.tcp| && UpToDate(s.tcp[c])
    ensures var k := s.tcp[c];
            k.established && !k.held && k.admitted > 0 ==>
              k.acks != [] && k.acks[|k.acks| - 1] == AckSent(k.ack, k.admitted)
  {
    assert ConnOk(s, c);
  }
}
