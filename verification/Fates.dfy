/** Who can still be woken: for a receiver asleep at either turn of a connection, exactly when
    some continuation wakes it; and what a lock left held stops for good. */
module Fates {
  import opened Wrapping
  import opened Packets
  import opened Holdings
  import opened Connection
  import opened Receivers
  import opened ReceiveSafety
  import opened Addressing
  import opened Delivery
  import opened Progress

  ghost predicate CanBeWoken(s: State, r: nat) {
    exists run :: Valid(s, run) && r < |After(s, run).rs| && !Sleeping(After(s, run), r)
  }

  /** The reaper waits for a connection's lock that is never released, with the map locked. */
  ghost predicate ReaperStuck(s: State) {
    && s.reaper.Inside? && s.reaper.port in s.conns && s.conns[s.reaper.port] < |s.tcp|
    && s.tcp[s.conns[s.reaper.port]].held && !s.tcp[s.conns[s.reaper.port]].status.Dying?
  }

  ghost predicate CanBeTornDown(s: State, c: nat)
    requires c < |s.tcp|
  {
    !s.tcp[c].status.Dying? && !s.tcp[c].held && !ReaperStuck(s)
  }

  /** ---- The teardown of a connection ---- */

  lemma Kept(s: State, run: seq<Event>)
    requires Inv(s) && Addressed(s) && Valid(s, run)
    ensures Inv(After(s, run)) && Addressed(After(s, run))
  {
    RunKeeps(s, run);
    ValidIsFeasible(s, run);
    RunAddressed(s, run);
  }

  ghost function Torn(t: State): State
    requires t.reaper.Inside? && t.reaper.port in t.conns && t.conns[t.reaper.port] < |t.tcp|
  {
    var c := t.conns[t.reaper.port];
    t.(tcp := t.tcp[c := WakeForwarders(if t.tcp[c].status.Dying? then t.tcp[c] else Die(t.tcp[c]))],
       conns := t.conns - {t.reaper.port}, reaper := Away)
  }

  lemma DiesThenCloses(t: State)
    requires Addressed(t) && t.reaper.Inside? && !ReaperStuck(t)
    ensures var port := t.reaper.port;
            && port in t.conns && t.conns[port] < |t.tcp|
            && if t.tcp[t.conns[port]].status.Dying?
               then Can(t, Closes(port)) && Do(t, Closes(port)) == Torn(t)
               else Can(t, Dies(port)) && Can(Do(t, Dies(port)), Closes(port))
                    && Do(Do(t, Dies(port)), Closes(port)) == Torn(t)
  {
    var c := t.conns[t.reaper.port];
    assert t.tcp[c := Die(t.tcp[c])][c := WakeForwarders(Die(t.tcp[c]))] == t.tcp[c := WakeForwarders(Die(t.tcp[c]))];
    hide Addressed;
  }

  /** The reaper finishes the port it is at. */
  lemma FinishPort(s: State, run: seq<Event>) returns (longer: seq<Event>)
    requires Inv(s) && Addressed(s) && Valid(s, run)
    requires After(s, run).reaper.Inside? && !ReaperStuck(After(s, run))
    ensures Valid(s, longer) && run <= longer
    ensures forall k :: |run| <= k < |longer| ==>
              longer[k] == Dies(After(s, run).reaper.port) || longer[k] == Closes(After(s, run).reaper.port)
    ensures After(s, run).reaper.port in After(s, run).conns
    ensures After(s, run).conns[After(s, run).reaper.port] < |After(s, run).tcp|
    ensures After(s, longer) == Torn(After(s, run))
  {
    var t := After(s, run);
    Kept(s, run);
    DiesThenCloses(t);
    hide Inv, Addressed, Valid, After, Do, Can, Torn;
    var port := t.reaper.port;
    if t.tcp[t.conns[port]].status.Dying? {
      OneStep(s, run, Closes(port));
      longer := run + [Closes(port)];
    } else {
      longer := RunOnTwice(s, run, Dies(port), Closes(port));
    }
  }

  lemma RunOnTwice(s: State, run: seq<Event>, e: Event, e': Event) returns (longer: seq<Event>)
    requires Inv(s) && Addressed(s) && Valid(s, run)
    requires Can(After(s, run), e) && Can(Do(After(s, run), e), e')
    ensures longer == run + [e, e'] && Valid(s, longer) && After(s, longer) == Do(Do(After(s, run), e), e')
  {
    hide Inv, Addressed, Valid, After, Do, Can;
    OneStep(s, run, e);
    OneStep(s, run + [e], e');
    longer := run + [e] + [e'];
    assert longer == run + [e, e'];
  }

  /** A connection that can be torn down is, by the reaper alone. */
  lemma TearDown(s: State, c: nat) returns (run: seq<Event>)
    requires Inv(s) && Addressed(s) && c < |s.tcp| && CanBeTornDown(s, c)
    ensures Valid(s, run) && After(s, run).rs == s.rs && c < |After(s, run).tcp|
    ensures After(s, run).tcp[c] == WakeForwarders(Die(s.tcp[c]))
  {
    var port := s.tcp[c].sport;
    assert Listed(s, c);
    run := [];
    Kept(s, run);
    assert s.reaper.Inside? && s.reaper.port != port ==> s.reaper.port in s.conns && s.conns[s.reaper.port] != c;
    hide Inv, Addressed, Valid, Die, WakeForwarders;
    if s.reaper.Inside? && s.reaper.port != port {
      run := FinishPort(s, run);
      Kept(s, run);
    }
    var t := After(s, run);
    assert t.tcp[c] == s.tcp[c] && port in t.conns && t.conns[port] == c;
    if t.reaper.Away? {
      OneStep(s, run, Enters(port));
      run := run + [Enters(port)];
    }
    run := FinishPort(s, run);
  }

  /** ---- The forward turn ---- */

  /** Receiver q is at the forward turn of connection c with the payload that is next. */
  ghost predicate HasNext(s: State, q: nat, c: nat)
    requires q < |s.rs| && c < |s.tcp|
  {
    (s.rs[q].Admitted? || s.rs[q].FwdWait?) && s.rs[q].c == c && s.rs[q].i < |s.stream|
    && s.stream[s.rs[q].i].seqNo == s.tcp[c].pktForwarded
  }

  /** The payload that is next was lost with its receiver. */
  ghost predicate NextIsLost(s: State, q: nat, c: nat)
    requires q < |s.rs| && c < |s.tcp|
  {
    s.rs[q].Lost? && s.rs[q].c == c && s.rs[q].i < |s.stream|
    && s.stream[s.rs[q].i].seqNo == s.tcp[c].pktForwarded
  }

  /** Nobody is left to notify the forward event of the connection. */
  ghost predicate Abandoned(s: State, r: nat)
    requires r < |s.rs|
  {
    && s.rs[r].FwdWait? && s.rs[r].c < |s.tcp| && Sleeping(s, r)
    && if s.tcp[s.rs[r].c].status.Dying?
       then forall port :: port in s.conns ==> s.conns[port] != s.rs[r].c
       else !CanBeTornDown(s, s.rs[r].c) && exists q :: 0 <= q < |s.rs| && NextIsLost(s, q, s.rs[r].c)
  }

  /** While somebody waits at the forward turn of a connected connection, the next payload is
      held by a receiver that can hand it on, or it was lost. */
  lemma NextHolder(s: State, r: nat) returns (q: nat)
    requires Inv(s) && r < |s.rs| && s.rs[r].FwdWait? && s.rs[r].c < |s.tcp| && s.tcp[s.rs[r].c].status.Connected?
    ensures q < |s.rs| && (HasNext(s, q, s.rs[r].c) || NextIsLost(s, q, s.rs[r].c))
  {
    var i, c := s.rs[r].i, s.rs[r].c;
    var k := s.tcp[c];
    var l := LedgerOf(s);
    assert PhaseOk(s, r) && ConnOk(s, c);
    assert l.holds[r] == FwdTurn(i) && HoldOk(l, r) && FwdBetween(l, c, k.admitted, k.forwarded, r);
    assert Off(s.stream, c, i + 1) <= k.admitted;
    var j := PacketAt(s.stream, c, s.accepted, k.forwarded);
    q := l.owner[j];
    ForwardedIsNext(s, c, j);
    assert l.holds[q] == HoldOf(s.rs[q]) && PhaseOk(s, q);
  }

  /** The packet the forwarded mark lies in starts at the mark, and is held. */
  lemma ForwardedIsNext(s: State, c: nat, j: nat)
    requires Inv(s) && c < |s.tcp| && s.tcp[c].status.Connected? && j < s.accepted <= |s.stream| && Data(s.stream[j], c)
    requires Off(s.stream, c, j) <= s.tcp[c].forwarded < Off(s.stream, c, j + 1)
    requires s.tcp[c].forwarded < s.tcp[c].admitted
    ensures j < |s.owner| && s.owner[j] < |s.rs| && LedgerOf(s).holds[s.owner[j]] == FwdTurn(j)
    ensures s.stream[j].seqNo == s.tcp[c].pktForwarded
  {
    var l := LedgerOf(s);
    assert ConnOk(s, c) && PacketOk(s.stream, s.tcp, j);
    StillHeld(l, c, s.tcp[c].admitted, s.tcp[c].forwarded, j);
    AdmittedWhole(l, c, s.tcp[c].admitted, s.tcp[c].forwarded, j);
    assert FwdBetween(l, c, s.tcp[c].admitted, s.tcp[c].forwarded, l.owner[j]);
  }

  /** ---- What stays ---- */

  lemma HeldStays(s: State, e: Event, c: nat)
    requires Possible(s, e) && c < |s.tcp| && s.tcp[c].held
    ensures c < |Do(s, e).tcp| && Do(s, e).tcp[c].held
    ensures Do(s, e).tcp[c].status.Dying? <==> s.tcp[c].status.Dying?
    ensures Do(s, e).tcp[c].canSend == s.tcp[c].canSend && Do(s, e).tcp[c].ack == s.tcp[c].ack
  {
    hide InputSection, AckSection, MuxEntry, MuxLoop;
  }

  lemma StuckStays(s: State, e: Event)
    requires Possible(s, e) && ReaperStuck(s)
    ensures ReaperStuck(Do(s, e)) && Do(s, e).conns == s.conns && Do(s, e).reaper == s.reaper
  {
    HeldStays(s, e, s.conns[s.reaper.port]);
    hide InputSection, AckSection, ForwardSection, MuxEntry, MuxLoop;
  }

  /** A live connection that cannot be torn down stays one. */
  lemma NoTeardown(s: State, e: Event, c: nat)
    requires Possible(s, e) && c < |s.tcp| && !s.tcp[c].status.Dying? && !CanBeTornDown(s, c)
    ensures c < |Do(s, e).tcp| && !Do(s, e).tcp[c].status.Dying? && !CanBeTornDown(Do(s, e), c)
  {
    if s.tcp[c].held {
      HeldStays(s, e, c);
    } else {
      StuckStays(s, e);
      DiesOnly(s, e, c);
    }
    hide Do;
  }

  /** Only the reaper's step makes a connection a dying one. */
  lemma DiesOnly(s: State, e: Event, c: nat)
    requires Possible(s, e) && c < |s.tcp| && !s.tcp[c].status.Dying?
    ensures c < |Do(s, e).tcp|
    ensures Do(s, e).tcp[c].status.Dying? ==> e.Dies? && s.conns[e.port] == c && s.reaper == Inside(e.port) && !s.tcp[c].held
  {
    if e.Runs? && (s.rs[e.r].LookedUp? || s.rs[e.r].AckRetry?) {
      NoSectionKills(s.tcp[s.rs[e.r].c], s.stream[s.rs[e.r].i], e.mode);
    }
    hide MuxEntry, MuxLoop, InputSection, AckSection;
  }

  lemma NoSectionKills(k: Conn, p: Packet, mode: AckMode)
    ensures InputSection(k, p, mode).0.status.Dying? <==> k.status.Dying?
    ensures AckSection(k, p, mode).0.status == k.status
  {
  }

  /** Only one receiver holds the payload that is next. */
  lemma UniqueNext(s: State, c: nat, q: nat, x: nat)
    requires Inv(s) && c < |s.tcp| && s.tcp[c].status.Connected? && q < |s.rs| && x < |s.rs|
    requires HoldOf(s.rs[q]).FwdTurn? && HoldOf(s.rs[x]).FwdTurn? && s.rs[q].i < |s.stream| && s.rs[x].i < |s.stream|
    requires Data(s.stream[s.rs[q].i], c) && Data(s.stream[s.rs[x].i], c)
    requires s.stream[s.rs[q].i].seqNo == s.stream[s.rs[x].i].seqNo == s.tcp[c].pktForwarded
    ensures q == x
  {
    var l := LedgerOf(s);
    var k := s.tcp[c];
    assert ConnOk(s, c) && PacketOk(s.stream, s.tcp, s.rs[q].i) && PacketOk(s.stream, s.tcp, s.rs[x].i);
    assert l.holds[q] == HoldOf(s.rs[q]) && l.holds[x] == HoldOf(s.rs[x]) && HoldOk(l, q) && HoldOk(l, x);
    hide ConnFacts, ConnOk;
    FwdTurnExact(l, q, c, k.admitted, k.forwarded, k.base);
    FwdTurnExact(l, x, c, k.admitted, k.forwarded, k.base);
    if s.rs[q].i != s.rs[x].i {
      DistinctOffsets(s.stream, c, s.rs[q].i, s.rs[x].i);
    }
  }

  /** A payload lost stays the next one: nothing behind it is handed on. */
  lemma LostStays(s: State, e: Event, c: nat, q: nat)
    requires Inv(s) && Can(s, e) && c < |s.tcp| && s.tcp[c].status.Connected? && q < |s.rs| && NextIsLost(s, q, c)
    ensures c < |Do(s, e).tcp| && q < |Do(s, e).rs| && NextIsLost(Do(s, e), q, c)
    ensures Do(s, e).tcp[c].canClientSend == s.tcp[c].canClientSend || e.Closes?
  {
    assert PhaseOk(s, q) && ConnOk(s, c);
    if e.Runs? && s.rs[e.r].Admitted? && s.rs[e.r].c == c {
      assert PhaseOk(s, e.r);
      if s.stream[s.rs[e.r].i].seqNo == s.tcp[c].pktForwarded {
        UniqueNext(s, c, q, e.r);
      }
    }
    EstablishedForwards(s, e, c);
    hide Inv, Do;
  }

  lemma EstablishedForwards(s: State, e: Event, c: nat)
    requires Possible(s, e) && c < |s.tcp| && s.tcp[c].status.Connected?
    requires !(e.Runs? && s.rs[e.r].Admitted? && s.rs[e.r].c == c && s.stream[s.rs[e.r].i].seqNo == s.tcp[c].pktForwarded)
    ensures c < |Do(s, e).tcp| && Do(s, e).tcp[c].pktForwarded == s.tcp[c].pktForwarded
    ensures Do(s, e).tcp[c].canClientSend == s.tcp[c].canClientSend || e.Closes?
    ensures s.stream <= Do(s, e).stream && |Do(s, e).rs| == |s.rs|
    ensures forall q :: 0 <= q < |s.rs| && s.rs[q].Lost? ==> Do(s, e).rs[q] == s.rs[q]
  {
    if e.Runs? {
      SectionsForward(s.tcp[c], s.stream[s.rs[e.r].i], e.mode);
    }
    hide InputSection, AckSection, ForwardSection, MuxEntry, MuxLoop;
  }

  lemma SectionsForward(k: Conn, p: Packet, mode: AckMode)
    requires k.status.Connected?
    ensures InputSection(k, p, mode).0.pktForwarded == k.pktForwarded && InputSection(k, p, mode).0.canClientSend == k.canClientSend
    ensures AckSection(k, p, mode).0.pktForwarded == k.pktForwarded && AckSection(k, p, mode).0.canClientSend == k.canClientSend
    ensures p.seqNo != k.pktForwarded ==> ForwardSection(k, p).0 == k
  {
  }

  /** ---- The fate of a receiver asleep at the forward turn ---- */

  lemma AbandonedStep(s: State, r: nat, e: Event)
    requires Inv(s) && Can(s, e) && r < |s.rs| && Abandoned(s, r)
    ensures r < |Do(s, e).rs| && Do(s, e).rs[r] == s.rs[r] && Abandoned(Do(s, e), r)
  {
    var c := s.rs[r].c;
    assert PhaseOk(s, r) && ConnOk(s, c) && PacketOk(s.stream, s.tcp, s.rs[r].i);
    Asleep(s, r, e);
    if s.tcp[c].status.Dying? {
      DyingStays(s, e, c);
    } else {
      var q :| 0 <= q < |s.rs| && NextIsLost(s, q, c);
      LostStays(s, e, c, q);
      NoTeardown(s, e, c);
      if e.Closes? {
        ClosesOther(s, e, c);
      }
    }
    hide Inv, Do;
  }

  /** Whoever sleeps does not move. */
  lemma Asleep(s: State, r: nat, e: Event)
    requires Possible(s, e) && r < |s.rs| && Sleeping(s, r)
    ensures r < |Do(s, e).rs| && Do(s, e).rs[r] == s.rs[r]
  {
    hide InputSection, AckSection, ForwardSection, MuxEntry, MuxLoop;
  }

  lemma ClosesOther(s: State, e: Event, c: nat)
    requires Possible(s, e) && e.Closes? && c < |s.tcp| && s.conns[e.port] != c
    ensures Do(s, e).tcp[c] == s.tcp[c]
  {
  }

  /** A connection torn down and unmapped stays so, and nobody notifies its forward event. */
  lemma DyingStays(s: State, e: Event, c: nat)
    requires Can(s, e) && c < |s.tcp| && s.tcp[c].status.Dying?
    requires forall port :: port in s.conns ==> s.conns[port] != c
    ensures c < |Do(s, e).tcp| && Do(s, e).tcp[c].status.Dying? && Do(s, e).tcp[c].canClientSend == s.tcp[c].canClientSend
    ensures forall port :: port in Do(s, e).conns ==> Do(s, e).conns[port] != c
  {
    if e.Runs? && (s.rs[e.r].LookedUp? || s.rs[e.r].AckRetry?) && s.rs[e.r].c == c {
      SectionsKeepDying(s.tcp[c], s.stream[s.rs[e.r].i], e.mode);
    }
    hide MuxEntry, MuxLoop, WellFormed, InputSection, AckSection;
  }

  lemma SectionsKeepDying(k: Conn, p: Packet, mode: AckMode)
    requires k.status.Dying?
    ensures forall out :: out == InputSection(k, p, mode) || out == AckSection(k, p, mode) ==>
              out.0.status.Dying? && out.0.canClientSend == k.canClientSend
  {
  }

  lemma {:induction false} AbandonedForever(s: State, r: nat, run: seq<Event>)
    requires Inv(s) && Valid(s, run) && r < |s.rs| && Abandoned(s, r)
    ensures r < |After(s, run).rs| && After(s, run).rs[r] == s.rs[r] && Abandoned(After(s, run), r)
    decreases |run|
  {
    if run != [] {
      AbandonedForever(s, r, Front(run));
      RunKeeps(s, Front(run));
      AbandonedStep(After(s, Front(run)), r, Last(run));
    }
  }

  /** A state in which r is awake can be reached by one step, or by one more. */
  lemma WokenBy(s: State, e: Event, r: nat)
    requires Can(s, e) && r < |Do(s, e).rs| && !Sleeping(Do(s, e), r)
    ensures CanBeWoken(s, r)
  {
    OneStep(s, [], e);
    hide Do, Sleeping;
    assert Valid(s, [] + [e]) && r < |After(s, [] + [e]).rs| && !Sleeping(After(s, [] + [e]), r);
  }

  lemma WokenAfter(s: State, e: Event, f: Event, r: nat)
    requires Can(s, e) && Can(Do(s, e), f) && r < |Do(Do(s, e), f).rs| && !Sleeping(Do(Do(s, e), f), r)
    ensures CanBeWoken(s, r)
  {
    OneStep(s, [], e);
    var one := [] + [e];
    OneStep(s, one, f);
    hide Do, Sleeping, Valid, After;
    assert Valid(s, one + [f]) && r < |After(s, one + [f]).rs| && !Sleeping(After(s, one + [f]), r);
  }

  lemma WakeToForward(s: State, q: nat, c: nat)
    requires Inv(s) && q < |s.rs| && c < |s.tcp| && s.tcp[c].status.Connected? && HasNext(s, q, c) && s.rs[q].FwdWait?
    ensures Can(s, Runs(q, Passed)) && Do(s, Runs(q, Passed)) == s.(rs := s.rs[q := Admitted(s.rs[q].i, c)])
  {
    assert PhaseOk(s, q);
    hide Inv;
  }

  lemma ForwardNotifies(s: State, q: nat, c: nat)
    requires q < |s.rs| && c < |s.tcp| && s.tcp[c].status.Connected? && HasNext(s, q, c) && s.rs[q].Admitted?
    ensures Can(s, Runs(q, Passed)) && OnlyWakes(s, Do(s, Runs(q, Passed)), q)
    ensures c < |Do(s, Runs(q, Passed)).tcp| && Do(s, Runs(q, Passed)).tcp[c].canClientSend == s.tcp[c].canClientSend + 1
  {
  }

  ghost predicate OnlyWakes(s: State, s': State, q: nat) {
    |s'.rs| == |s.rs| && forall x :: 0 <= x < |s.rs| && x != q ==> s'.rs[x] == s.rs[x]
  }

  /** The next payload is handed on, which wakes whoever waits behind it. */
  lemma HandOnWakes(s: State, r: nat, q: nat)
    requires Inv(s) && r < |s.rs| && s.rs[r].FwdWait? && Sleeping(s, r) && q < |s.rs| && q != r
    requires s.rs[r].c < |s.tcp| && s.tcp[s.rs[r].c].status.Connected? && HasNext(s, q, s.rs[r].c)
    ensures CanBeWoken(s, r)
  {
    var c := s.rs[r].c;
    var e := Runs(q, Passed);
    assert PhaseOk(s, r);
    hide Inv, Do, Can;
    if s.rs[q].FwdWait? {
      WakeToForward(s, q, c);
      ForwardNotifies(Do(s, e), q, c);
      WokenAfter(s, e, e, r);
    } else {
      ForwardNotifies(s, q, c);
      WokenBy(s, e, r);
    }
  }

  /** A receiver asleep at the forward turn can be woken by some continuation exactly if it is
      not abandoned: its connection is still to be torn down or unmapped, or the next payload
      was not lost. */
  lemma ForwardWaiterFate(n: nat, s: State, r: nat)
    requires Reachable(n, s) && r < |s.rs| && s.rs[r].FwdWait? && Sleeping(s, r)
    ensures CanBeWoken(s, r) <==> !Abandoned(s, r)
  {
    ReachableInv(n, s);
    ReachableAddressed(n, s);
    hide Reachable;
    assert PhaseOk(s, r) && ConnOk(s, s.rs[r].c) && PacketOk(s.stream, s.tcp, s.rs[r].i);
    if Abandoned(s, r) {
      forall run | Valid(s, run) && r < |After(s, run).rs|
        ensures Sleeping(After(s, run), r)
      {
        AbandonedForever(s, r, run);
      }
    } else {
      ForwardWakes(s, r);
    }
  }

  lemma ReachableAddressed(n: nat, s: State)
    requires Reachable(n, s)
    ensures Addressed(s)
  {
    ReachableIsAttainable(n, s);
    AttainableAddressed(n, s);
  }

  lemma ForwardWakes(s: State, r: nat)
    requires Inv(s) && Addressed(s) && r < |s.rs| && s.rs[r].FwdWait? && Sleeping(s, r) && !Abandoned(s, r)
    ensures CanBeWoken(s, r)
  {
    var c := s.rs[r].c;
    assert PhaseOk(s, r) && ConnOk(s, c) && PacketOk(s.stream, s.tcp, s.rs[r].i);
    if s.tcp[c].status.Dying? {
      var port :| port in s.conns && s.conns[port] == c;
      Kept(s, []);
      OneStep(s, [], Closes(port));
      var run := [] + [Closes(port)];
      assert !Sleeping(After(s, run), r);
    } else if CanBeTornDown(s, c) {
      var run := TearDown(s, c);
      assert !Sleeping(After(s, run), r);
    } else {
      var q := NextHolder(s, r);
      HandOnWakes(s, r, q);
    }
  }

  /** ---- The fate of a receiver asleep at the acknowledgement turn ---- */

  /** Receiver q can have its packet admitted on connection c. */
  ghost predicate CanTake(s: State, q: nat, c: nat)
    requires q < |s.rs| && c < |s.tcp|
  {
    && (s.rs[q].LookedUp? || s.rs[q].AckRetry? || s.rs[q].AckWait?) && s.rs[q].c == c
    && (s.rs[q].LookedUp? || s.rs[q].AckWait? ==> s.tcp[c].status.Connected?) && !Sleeping(s, q)
    && s.rs[q].i < |s.stream| && s.stream[s.rs[q].i].kind.Ack? && s.stream[s.rs[q].i].seqNo == s.tcp[c].ack
    && !s.tcp[c].held
  }

  /** Nobody is left to notify the event of the acknowledgement turn. */
  ghost predicate AbandonedAck(s: State, r: nat)
    requires r < |s.rs|
  {
    && s.rs[r].AckWait? && s.rs[r].c < |s.tcp| && Sleeping(s, r) && Frozen(s, s.rs[r].c)
  }

  /** The connection cannot be torn down (any more), and no packet can be admitted on it. */
  ghost predicate Frozen(s: State, c: nat)
    requires c < |s.tcp|
  {
    !CanBeTornDown(s, c) && forall q :: 0 <= q < |s.rs| ==> !CanTake(s, q, c)
  }

  /** The sections change nothing for those who wait unless the packet can be taken. */
  lemma SectionsFrozen(k: Conn, p: Packet, mode: AckMode)
    requires !k.status.Connecting? && (p.kind.Ack? ==> p.seqNo != k.ack)
    ensures InputSection(k, p, mode).0 == k
    ensures p.kind.Ack? ==> AckSection(k, p, mode).0 == k
  {
  }

  lemma SectionsOver(k: Conn, p: Packet, mode: AckMode)
    requires !k.status.Connecting? && !k.status.Connected?
    ensures InputSection(k, p, mode).0 == k
  {
  }

  lemma FrozenConn(s: State, e: Event, c: nat)
    requires Inv(s) && Can(s, e) && c < |s.tcp| && s.tcp[c].established && Frozen(s, c)
    ensures c < |Do(s, e).tcp| && Do(s, e).tcp[c].ack == s.tcp[c].ack && Do(s, e).tcp[c].canSend == s.tcp[c].canSend
    ensures Do(s, e).tcp[c].established && (s.tcp[c].held ==> Do(s, e).tcp[c].held)
    ensures Do(s, e).tcp[c].status == s.tcp[c].status && !CanBeTornDown(Do(s, e), c)
  {
    hide InputSection, AckSection, MuxEntry, MuxLoop, WellFormed;
    assert ConnOk(s, c);
    if e.Runs? && (s.rs[e.r].LookedUp? || s.rs[e.r].AckRetry?) && s.rs[e.r].c == c {
      assert PhaseOk(s, e.r) && !CanTake(s, e.r, c);
      if s.tcp[c].status.Connected? || s.rs[e.r].AckRetry? {
        SectionsFrozen(s.tcp[c], s.stream[s.rs[e.r].i], e.mode);
      } else {
        SectionsOver(s.tcp[c], s.stream[s.rs[e.r].i], e.mode);
      }
    }
    hide Inv;
    FrozenTeardown(s, e, c);
  }

  lemma FrozenTeardown(s: State, e: Event, c: nat)
    requires Possible(s, e) && c < |s.tcp| && !CanBeTornDown(s, c)
    ensures c < |Do(s, e).tcp| && !CanBeTornDown(Do(s, e), c)
    ensures s.tcp[c].status.Dying? <==> Do(s, e).tcp[c].status.Dying?
  {
    if !s.tcp[c].status.Dying? {
      NoTeardown(s, e, c);
    } else {
      DeadStays(s, e, c);
    }
    hide Do;
  }

  lemma DeadStays(s: State, e: Event, c: nat)
    requires Possible(s, e) && c < |s.tcp| && s.tcp[c].status.Dying?
    ensures c < |Do(s, e).tcp| && Do(s, e).tcp[c].status.Dying?
  {
    if e.Runs? && (s.rs[e.r].LookedUp? || s.rs[e.r].AckRetry?) && s.rs[e.r].c == c {
      SectionsKeepDying(s.tcp[c], s.stream[s.rs[e.r].i], e.mode);
    }
    hide MuxEntry, MuxLoop, InputSection, AckSection;
  }

  /** A step brings receiver q to the acknowledgement turn by a lookup or from its wait. */
  lemma ComesFrom(s: State, e: Event, q: nat)
    requires Possible(s, e) && q < |s.rs|
    ensures q < |Do(s, e).rs| && s.stream <= Do(s, e).stream
    ensures Do(s, e).rs[q] == s.rs[q] || (e.Runs? && e.r == q) || !(Do(s, e).rs[q].LookedUp? || Do(s, e).rs[q].AckRetry? || Do(s, e).rs[q].AckWait?)
    ensures e.Runs? && e.r == q ==>
              && (Do(s, e).rs[q].LookedUp? ==> s.reaper.Away?)
              && (Do(s, e).rs[q].AckRetry? ==> s.rs[q].AckWait? && !Sleeping(s, q) && s.tcp[s.rs[q].c].status.Connected?
                                               && Do(s, e).rs[q] == AckRetry(s.rs[q].i, s.rs[q].c))
              && (Do(s, e).rs[q].AckWait? ==> s.rs[q].LookedUp? || s.rs[q].AckRetry?)
  {
    hide MuxEntry, MuxLoop, InputSection, AckSection, ForwardSection;
  }

  lemma NoNewTaker(s: State, e: Event, c: nat, q: nat)
    requires Inv(s) && Can(s, e) && c < |s.tcp| && s.tcp[c].established && Frozen(s, c) && q < |s.rs|
    ensures q < |Do(s, e).rs| && c < |Do(s, e).tcp| && !CanTake(Do(s, e), q, c)
  {
    FrozenConn(s, e, c);
    ComesFrom(s, e, q);
    assert !CanTake(s, q, c) && PhaseOk(s, q);
    if e.Runs? && e.r == q {
      FallsAsleep(s, e, q);
    }
    hide Do, Inv;
  }

  /** A receiver at its wait, right after the step that took it there, is asleep. */
  lemma FallsAsleep(s: State, e: Event, q: nat)
    requires Inv(s) && Can(s, e) && q < |s.rs| && e.Runs? && e.r == q
    ensures Do(s, e).rs[q].AckWait? ==> Sleeping(Do(s, e), q)
  {
    assert PhaseOk(s, q);
    hide Inv, MuxEntry, MuxLoop, ForwardSection, Admit;
  }

  lemma AbandonedAckStep(s: State, r: nat, e: Event)
    requires Inv(s) && Can(s, e) && r < |s.rs| && AbandonedAck(s, r)
    ensures r < |Do(s, e).rs| && Do(s, e).rs[r] == s.rs[r] && AbandonedAck(Do(s, e), r)
  {
    var c := s.rs[r].c;
    assert PhaseOk(s, r) && ConnOk(s, c) && PacketOk(s.stream, s.tcp, s.rs[r].i);
    Asleep(s, r, e);
    FrozenConn(s, e, c);
    SameReceivers(s, e);
    hide Inv, Do;
    forall q | 0 <= q < |Do(s, e).rs|
      ensures !CanTake(Do(s, e), q, c)
    {
      NoNewTaker(s, e, c, q);
    }
  }

  lemma SameReceivers(s: State, e: Event)
    requires Possible(s, e)
    ensures |Do(s, e).rs| == |s.rs|
  {
    hide InputSection, AckSection, ForwardSection, MuxEntry, MuxLoop;
  }

  lemma {:induction false} AbandonedAckForever(s: State, r: nat, run: seq<Event>)
    requires Inv(s) && Valid(s, run) && r < |s.rs| && AbandonedAck(s, r)
    ensures r < |After(s, run).rs| && After(s, run).rs[r] == s.rs[r] && AbandonedAck(After(s, run), r)
    decreases |run|
  {
    if run != [] {
      AbandonedAckForever(s, r, Front(run));
      RunKeeps(s, Front(run));
      AbandonedAckStep(After(s, Front(run)), r, Last(run));
    }
  }

  lemma WakeToTake(s: State, q: nat, c: nat)
    requires Inv(s) && q < |s.rs| && c < |s.tcp| && CanTake(s, q, c) && s.rs[q].AckWait?
    ensures Can(s, Runs(q, Passed)) && Do(s, Runs(q, Passed)) == s.(rs := s.rs[q := AckRetry(s.rs[q].i, c)])
  {
    assert PhaseOk(s, q);
    hide Inv;
  }

  lemma TakeNotifies(s: State, q: nat, c: nat)
    requires q < |s.rs| && c < |s.tcp| && CanTake(s, q, c) && !s.rs[q].AckWait?
    ensures Can(s, Runs(q, Passed)) && OnlyWakes(s, Do(s, Runs(q, Passed)), q)
    ensures c < |Do(s, Runs(q, Passed)).tcp| && Do(s, Runs(q, Passed)).tcp[c].canSend == s.tcp[c].canSend + 1
  {
  }

  /** A packet is admitted, which wakes whoever waits at the turn. */
  lemma TakeWakes(s: State, r: nat, q: nat)
    requires Inv(s) && r < |s.rs| && s.rs[r].AckWait? && Sleeping(s, r) && q < |s.rs|
    requires s.rs[r].c < |s.tcp| && CanTake(s, q, s.rs[r].c)
    ensures CanBeWoken(s, r)
  {
    var c := s.rs[r].c;
    var e := Runs(q, Passed);
    assert PhaseOk(s, r) && q != r;
    hide Inv, Do, Can;
    if s.rs[q].AckWait? {
      WakeToTake(s, q, c);
      TakeNotifies(Do(s, e), q, c);
      WokenAfter(s, e, e, r);
    } else {
      TakeNotifies(s, q, c);
      WokenBy(s, e, r);
    }
  }

  lemma AckWakes(s: State, r: nat)
    requires Inv(s) && Addressed(s) && r < |s.rs| && s.rs[r].AckWait? && Sleeping(s, r) && !AbandonedAck(s, r)
    ensures CanBeWoken(s, r)
  {
    var c := s.rs[r].c;
    assert PhaseOk(s, r);
    if CanBeTornDown(s, c) {
      var run := TearDown(s, c);
      assert !Sleeping(After(s, run), r);
    } else {
      var q :| 0 <= q < |s.rs| && CanTake(s, q, c);
      TakeWakes(s, r, q);
    }
  }

  /** A receiver asleep at the acknowledgement turn can be woken by some continuation exactly if
      it is not abandoned: its connection can still be torn down, or somebody else's packet can
      be admitted on it. */
  lemma AckWaiterFate(n: nat, s: State, r: nat)
    requires Reachable(n, s) && r < |s.rs| && s.rs[r].AckWait? && Sleeping(s, r)
    ensures CanBeWoken(s, r) <==> !AbandonedAck(s, r)
  {
    ReachableInv(n, s);
    ReachableAddressed(n, s);
    hide Reachable;
    if AbandonedAck(s, r) {
      forall run | Valid(s, run) && r < |After(s, run).rs|
        ensures Sleeping(After(s, run), r)
      {
        AbandonedAckForever(s, r, run);
      }
    } else {
      AckWakes(s, r);
    }
  }

  /** ---- Locks that are never released ---- */

  /** Receiver r needs a lock that nobody will ever release: that of a connection on which a
      segment was rejected, or the map while the reaper waits for such a lock. */
  ghost predicate LockedOutForGood(s: State, r: nat)
    requires r < |s.rs|
  {
    && !s.rs[r].Idle? && s.rs[r].i < |s.stream|
    && ((s.rs[r].Past? && IsTcp(s.stream[s.rs[r].i].kind) && ReaperStuck(s))
        || ((s.rs[r].LookedUp? || s.rs[r].AckRetry?) && s.rs[r].c < |s.tcp| && s.tcp[s.rs[r].c].held))
  }

  lemma LockedOutStep(s: State, r: nat, e: Event)
    requires Possible(s, e) && r < |s.rs| && LockedOutForGood(s, r)
    ensures r < |Do(s, e).rs| && Do(s, e).rs[r] == s.rs[r] && LockedOutForGood(Do(s, e), r)
  {
    if s.rs[r].Past? {
      StuckStays(s, e);
    } else {
      HeldStays(s, e, s.rs[r].c);
    }
    hide InputSection, AckSection, ForwardSection, MuxEntry, MuxLoop;
  }

  lemma {:induction false} LockedOutForever(s: State, r: nat, run: seq<Event>)
    requires Feasible(s, run) && r < |s.rs| && LockedOutForGood(s, r)
    ensures r < |Ends(s, run).rs| && Ends(s, run).rs[r] == s.rs[r] && LockedOutForGood(Ends(s, run), r)
    decreases |run|
  {
    if run != [] {
      LockedOutForever(s, r, Front(run));
      LockedOutStep(Ends(s, Front(run)), r, Last(run));
    }
  }

  /** Once the reaper is stuck no connection is ever looked up, opened or unmapped again. */
  lemma {:induction false} ReaperStuckForever(s: State, run: seq<Event>)
    requires Feasible(s, run) && ReaperStuck(s)
    ensures ReaperStuck(Ends(s, run)) && Ends(s, run).conns == s.conns
    decreases |run|
  {
    if run != [] {
      ReaperStuckForever(s, Front(run));
      StuckStays(Ends(s, Front(run)), Last(run));
    }
  }

  /** A receiver that waits for a lock gets on in some continuation exactly if the lock is not
      one of those. */
  lemma LockFate(n: nat, s: State, r: nat)
    requires Reachable(n, s) && r < |s.rs| && !s.rs[r].Idle? && s.rs[r].i < |s.stream|
    requires s.rs[r].LookedUp? || s.rs[r].AckRetry? ==> s.rs[r].c < |s.tcp|
    requires LockedOut(s, r)
    ensures CanMove(s, r) <==> !LockedOutForGood(s, r)
  {
    ReachableInv(n, s);
    ReachableAddressed(n, s);
    hide Reachable;
    if LockedOutForGood(s, r) {
      forall run | Valid(s, run)
        ensures r < |After(s, run).rs| && After(s, run).rs[r] == s.rs[r]
      {
        ValidIsFeasible(s, run);
        LockedOutForever(s, r, run);
      }
    } else {
      Kept(s, []);
      var run := FinishPort(s, []);
      LookupMoves(s, r, run);
    }
  }

  ghost predicate CanMove(s: State, r: nat)
    requires r < |s.rs|
  {
    exists run :: Valid(s, run) && r < |After(s, run).rs| && After(s, run).rs[r] != s.rs[r]
  }

  lemma LookupLeaves(t: State, r: nat)
    requires Inv(t) && r < |t.rs| && t.rs[r].Past? && t.rs[r].i < |t.stream| && t.reaper.Away?
    ensures Can(t, Runs(r, Passed)) && r < |Do(t, Runs(r, Passed)).rs| && Do(t, Runs(r, Passed)).rs[r] != t.rs[r]
  {
    hide Inv;
  }

  lemma LookupMoves(s: State, r: nat, run: seq<Event>)
    requires Inv(s) && Addressed(s) && Valid(s, run) && r < |s.rs| && s.rs[r].Past? && s.rs[r].i < |s.stream|
    requires After(s, run).rs == s.rs && After(s, run).stream == s.stream && After(s, run).reaper.Away?
    ensures CanMove(s, r)
  {
    Kept(s, run);
    LookupLeaves(After(s, run), r);
    hide Inv, Addressed;
    OneStep(s, run, Runs(r, Passed));
    var longer := run + [Runs(r, Passed)];
    hide Do;
    assert After(s, longer).rs[r] != s.rs[r];
  }
}
