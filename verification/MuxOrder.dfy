/** The mux turn for any device: what passes it, what is dropped, and what waits. */
module MuxOrder {
  import opened Wrapping
  import opened Packets
  import opened Connection
  import opened Receivers
  import opened Addressing

  /** A receiver at the mux turn with a transfer whose length is right. */
  predicate AtMux(s: State, r: nat)
    requires r < |s.rs| && !s.rs[r].Idle? && s.rs[r].i < |s.stream|
  {
    s.rs[r].MuxWait? || (s.rs[r].Taken? && !s.stream[s.rs[r].i].kind.Malformed?)
  }

  lemma MuxOthersStay(s: State, e: Event)
    requires Possible(s, e) && !(e.Runs? && AtMux(s, e.r))
    ensures Do(s, e).rxSeq == s.rxSeq && Do(s, e).accepted == s.accepted && |Do(s, e).rs| == |s.rs|
  {
    hide InputSection, AckSection, ForwardSection, MuxEntry, MuxLoop;
  }

  /** With e expected and t the packet's number, and n transfers: on entry t passes if and only if
      t == e, and after a wait only if it also lies outside the last n numbers before the wrap. A
      packet is dropped if and only if its number is behind and e lies outside of them. In all
      other cases the receiver waits, and only a packet that passes moves rx_seq. */
  lemma OnlyExpectedPasses(s: State, r: nat, mode: AckMode)
    requires Possible(s, Runs(r, mode)) && AtMux(s, r)
    ensures var s', p, n := Do(s, Runs(r, mode)), s.stream[s.rs[r].i], |s.rs|;
            var e, t := (s.rxSeq + 1) % 0x1_0000, p.txSeq;
            && |s'.rs| == n
            && (s'.rs[r].Past? <==> t == e && (s.rs[r].Taken? || t + n < 0x1_0000))
            && (s'.rs[r].Idle? <==> t < e && e + n < 0x1_0000)
            && (s'.rs[r].Past? || s'.rs[r].Idle? || s'.rs[r].MuxWait?)
            && s'.rxSeq == (if s'.rs[r].Past? then t else s.rxSeq)
            && s'.accepted == s.accepted + (if s'.rs[r].Past? then 1 else 0)
            && s'.dataIn == s.dataIn + (if s'.rs[r].MuxWait? then 0 else 1)
  {
  }

  lemma {:induction false} RunCounts(s: State, run: seq<Event>)
    requires Feasible(s, run) && s.rxSeq == Wrap16(s.accepted + 0xffff)
    ensures Ends(s, run).rxSeq == Wrap16(Ends(s, run).accepted + 0xffff) && |Ends(s, run).rs| == |s.rs|
    decreases |run|
  {
    hide Do, Possible, Wrap16;
    if run != [] {
      RunCounts(s, Front(run));
      StepCounts(Ends(s, Front(run)), Last(run));
    }
  }

  lemma StepCounts(s: State, e: Event)
    requires Possible(s, e) && s.rxSeq == Wrap16(s.accepted + 0xffff)
    ensures Do(s, e).rxSeq == Wrap16(Do(s, e).accepted + 0xffff) && |Do(s, e).rs| == |s.rs|
  {
    if e.Runs? && AtMux(s, e.r) {
      OnlyExpectedPasses(s, e.r, e.mode);
    } else {
      MuxOthersStay(s, e);
    }
    hide Do;
  }

  /** In every run, for any device, the k-th packet to pass the mux turn carries number k mod 65536:
      rx_seq is the number of the last one that passed. */
  lemma PassedInOrder(n: nat, s: State, r: nat, mode: AckMode)
    requires Attainable(n, s) && Possible(s, Runs(r, mode)) && AtMux(s, r)
    ensures s.rxSeq == Wrap16(s.accepted + 0xffff) && |s.rs| == n
    ensures Do(s, Runs(r, mode)).rs[r].Past? ==> s.stream[s.rs[r].i].txSeq == Wrap16(s.accepted)
  {
    hide Do, Possible, Attainable, AtMux, Wrap16;
    Counts(n, s);
    Successor(s.accepted);
    OnlyExpectedPasses(s, r, mode);
  }

  lemma Successor(x: nat)
    ensures (Wrap16(x + 0xffff) + 1) % 0x1_0000 == Wrap16(x)
  {
  }

  lemma Counts(n: nat, s: State)
    requires Attainable(n, s)
    ensures s.rxSeq == Wrap16(s.accepted + 0xffff) && |s.rs| == n
  {
    hide Do, Possible, Feasible, Ends;
    var run :| Feasible(Start(n), run) && Ends(Start(n), run) == s;
    RunCounts(Start(n), run);
  }
}
