/** Two sharper results about runs of receiver steps alone: which packet gets through its
    acknowledgement turn, and that every such run comes to an end. */
module Turns {
  import opened Wrapping
  import opened Sums
  import opened Packets
  import opened Holdings
  import opened Connection
  import opened Receivers
  import opened ReceiveSafety
  import opened Delivery
  import opened Progress
  import opened Fates
  import opened Stuck
  import opened Drain

  /** ---- Getting through the acknowledgement turn ---- */

  predicate AllRun(run: seq<Event>) {
    forall e :: e in run ==> e.Runs?
  }

  predicate AtTurn(rc: Receiver, i: nat, c: nat) {
    (rc.LookedUp? || rc.AckWait? || rc.AckRetry?) && rc.i == i && rc.c == c
  }

  ghost predicate GetsThrough(s: State, r: nat)
    requires r < |s.rs| && (s.rs[r].LookedUp? || s.rs[r].AckWait? || s.rs[r].AckRetry?)
  {
    exists run :: Valid(s, run) && AllRun(run)
                  && r < |After(s, run).rs| && !AtTurn(After(s, run).rs[r], s.rs[r].i, s.rs[r].c)
  }

  /** A later data packet can only be admitted before packet i if a receiver holding i or an
      older one had not been passed over: the step of the oldest lively receiver overtakes no
      lively one. */
  lemma StillNotOvertaken(s: State, q: nat, r: nat)
    requires Inv(s) && q < |s.rs| && r < |s.rs| && q != r && OldestLively(s, q) && Ready(s, q) && Lively(s, r)
    requires (s.rs[r].LookedUp? || s.rs[r].AckWait? || s.rs[r].AckRetry?) && Concerns(s, s.rs[r].i, s.rs[r].c)
    requires s.stream[s.rs[r].i].kind.Ack? && Sound(s.tcp[s.rs[r].c]) && Possible(s, Runs(q, Passed))
    ensures var s' := Do(s, Runs(q, Passed));
            s'.rs[r] == s.rs[r] && Sound(s'.tcp[s.rs[r].c]) && s'.stream == s.stream && !Overtaken(s', r)
  {
    var i, c := s.rs[r].i, s.rs[r].c;
    var s' := Do(s, Runs(q, Passed));
    RunsMoves(s, q, Passed);
    AdmittedMoves(s, q, c);
    if Overtaken(s', r) {
      var k :| i < k < |s.stream| && Data(s.stream[k], c) && Off(s.stream, c, k + 1) <= s'.tcp[c].admitted;
      if s'.tcp[c].admitted != s.tcp[c].admitted {
        LivelyOffset(s, q);
        OffMonotone(s.stream, c, s.rs[q].i + 1, k);
      }
      assert false;
    }
  }

  /** A connection's admitted bytes change only by the admission of the packet at its turn. */
  lemma AdmittedMoves(s: State, q: nat, c: nat)
    requires Inv(s) && Possible(s, Runs(q, Passed)) && c < |s.tcp| && Sound(s.tcp[c])
    ensures var s' := Do(s, Runs(q, Passed));
            && c < |s'.tcp| && Sound(s'.tcp[c])
            && (s'.tcp[c].admitted == s.tcp[c].admitted ||
                ((s.rs[q].LookedUp? || s.rs[q].AckRetry?) && s.rs[q].c == c && Concerns(s, s.rs[q].i, c)
                 && s.stream[s.rs[q].i].kind.Ack?
                 && s'.tcp[c].admitted == s.tcp[c].admitted + |s.stream[s.rs[q].i].payload|))
  {
    assert PhaseOk(s, q);
    hide Inv, MuxEntry, MuxLoop;
  }

  /** One step of the oldest lively receiver after another, until r has left its turn. */
  lemma {:induction false} ThroughOn(s: State, done: seq<Event>, r: nat) returns (run: seq<Event>)
    requires Inv(s) && r < |s.rs| && (s.rs[r].LookedUp? || s.rs[r].AckWait? || s.rs[r].AckRetry?)
    requires Valid(s, done) && AllRun(done)
    requires var t := After(s, done);
             && NoneInBand(t) && t.reaper.Away? && r < |t.rs|
             && (AtTurn(t.rs[r], s.rs[r].i, s.rs[r].c) ==>
                   && Concerns(t, s.rs[r].i, s.rs[r].c) && t.stream[s.rs[r].i].kind.Ack?
                   && Sound(t.tcp[s.rs[r].c]) && !Overtaken(t, r))
    ensures Valid(s, run) && AllRun(run) && r < |After(s, run).rs|
    ensures !AtTurn(After(s, run).rs[r], s.rs[r].i, s.rs[r].c)
    decreases Sum(AllLeft(After(s, done).rs))
  {
    var t := After(s, done);
    if !AtTurn(t.rs[r], s.rs[r].i, s.rs[r].c) {
      run := done;
    } else {
      assert Lively(t, r);
      var q, longer := OldestSteps(s, done, r);
      RunKeeps(s, done);
      if q != r {
        StillNotOvertaken(t, q, r);
      } else {
        OwnStep(t, r);
      }
      hide Inv, Do, Can, Lively, Ready, Overtaken, InWrapBand, OldestLively, Valid;
      run := ThroughOn(s, longer, r);
    }
  }

  lemma OwnStep(t: State, r: nat)
    requires Inv(t) && r < |t.rs| && (t.rs[r].LookedUp? || t.rs[r].AckWait? || t.rs[r].AckRetry?) && Ready(t, r)
    requires Concerns(t, t.rs[r].i, t.rs[r].c) && t.stream[t.rs[r].i].kind.Ack? && Sound(t.tcp[t.rs[r].c]) && !Overtaken(t, r)
    requires Possible(t, Runs(r, Passed))
    ensures var t' := Do(t, Runs(r, Passed));
            && r < |t'.rs| && t'.stream == t.stream && |t'.tcp| == |t.tcp|
            && (AtTurn(t'.rs[r], t.rs[r].i, t.rs[r].c) ==> t'.tcp == t.tcp && !Overtaken(t', r))
  {
    hide Inv;
  }

  /** An overtaken packet stays at its turn in every such run, if fewer than 2^32 bytes of its
      connection follow it. */
  lemma {:induction false} OvertakenStays(s: State, r: nat, run: seq<Event>)
    requires Inv(s) && Valid(s, run) && AllRun(run)
    requires r < |s.rs| && Overtaken(s, r) && Concerns(s, s.rs[r].i, s.rs[r].c)
    requires Off(s.stream, s.rs[r].c, |s.stream|) < Off(s.stream, s.rs[r].c, s.rs[r].i) + 0x1_0000_0000
    ensures var t := After(s, run);
            && r < |t.rs| && t.stream == s.stream && AtTurn(t.rs[r], s.rs[r].i, s.rs[r].c) && Overtaken(t, r)
    decreases |run|
  {
    if run != [] {
      assert AllRun(Front(run));
      OvertakenStays(s, r, Front(run));
      RunKeeps(s, Front(run));
      assert Last(run) in run;
      StaysOvertaken(After(s, Front(run)), r, Last(run).r, Last(run).mode);
    }
  }

  lemma StaysOvertaken(s: State, r: nat, q: nat, mode: AckMode)
    requires Inv(s) && Can(s, Runs(q, mode)) && r < |s.rs| && Overtaken(s, r)
    requires Off(s.stream, s.rs[r].c, |s.stream|) < Off(s.stream, s.rs[r].c, s.rs[r].i) + 0x1_0000_0000
    ensures var s' := Do(s, Runs(q, mode));
            && r < |s'.rs| && s'.stream == s.stream && AtTurn(s'.rs[r], s.rs[r].i, s.rs[r].c) && Overtaken(s', r)
  {
    var i, c := s.rs[r].i, s.rs[r].c;
    var s' := Do(s, Runs(q, mode));
    RunsMoves(s, q, mode);
    assert ConnOk(s, c) && PhaseOk(s, r);
    OffMonotone(s.stream, c, s.accepted, |s.stream|);
    OvertakenIsBehind(s, r);
    StaysConnected(s, q, mode, c);
    var k :| i < k < |s.stream| && Data(s.stream[k], c) && Off(s.stream, c, k + 1) <= s.tcp[c].admitted;
    assert AdmittedAfter(s'.stream, c, i, s'.tcp[c].admitted);
    if q == r {
      OvertakenMove(s, r, mode);
    }
  }

  lemma StaysConnected(s: State, q: nat, mode: AckMode, c: nat)
    requires Possible(s, Runs(q, mode)) && c < |s.tcp| && s.tcp[c].status.Connected?
    ensures c < |Do(s, Runs(q, mode)).tcp| && Do(s, Runs(q, mode)).tcp[c].status.Connected?
    ensures Do(s, Runs(q, mode)).tcp[c].admitted >= s.tcp[c].admitted
  {
    var k, p := s.tcp[c], s.stream[s.rs[q].i];
    SectionsGrow(k, p, mode);
    hide InputSection, AckSection, ForwardSection, MuxEntry, MuxLoop;
  }

  lemma SectionsGrow(k: Conn, p: Packet, mode: AckMode)
    requires k.status.Connected?
    ensures InputSection(k, p, mode).0.status.Connected? && InputSection(k, p, mode).0.admitted >= k.admitted
    ensures AckSection(k, p, mode).0.status.Connected? && AckSection(k, p, mode).0.admitted >= k.admitted
    ensures ForwardSection(k, p).0.status.Connected? && ForwardSection(k, p).0.admitted == k.admitted
  {
  }

  lemma OvertakenMove(s: State, r: nat, mode: AckMode)
    requires Possible(s, Runs(r, mode)) && Overtaken(s, r)
    requires s.tcp[s.rs[r].c].ack != s.stream[s.rs[r].i].seqNo
    ensures AtTurn(Do(s, Runs(r, mode)).rs[r], s.rs[r].i, s.rs[r].c)
  {
  }

  /** From a reachable state with no receiver in the wrap band and no teardown under way, a
      receiver at the acknowledgement turn of a sound connection gets through by receiver steps
      alone if and only if its packet was not overtaken. */
  lemma AckTurnFate(n: nat, s: State, r: nat)
    requires Reachable(n, s) && NoneInBand(s) && s.reaper.Away?
    requires r < |s.rs| && (s.rs[r].LookedUp? || s.rs[r].AckWait? || s.rs[r].AckRetry?)
    requires Concerns(s, s.rs[r].i, s.rs[r].c) && s.stream[s.rs[r].i].kind.Ack? && Sound(s.tcp[s.rs[r].c])
    requires Off(s.stream, s.rs[r].c, |s.stream|) < Off(s.stream, s.rs[r].c, s.rs[r].i) + 0x1_0000_0000
    ensures GetsThrough(s, r) <==> !Overtaken(s, r)
  {
    ReachableInv(n, s);
    hide Reachable;
    if Overtaken(s, r) {
      forall run | Valid(s, run) && AllRun(run)
        ensures r < |After(s, run).rs| && AtTurn(After(s, run).rs[r], s.rs[r].i, s.rs[r].c)
      {
        OvertakenStays(s, r, run);
      }
    } else {
      var run := ThroughOn(s, [], r);
    }
  }

  /** ---- Every run of receiver steps comes to an end ---- */

  /** How far the packet still has to go. */
  function Phase(rc: Receiver): nat {
    match rc
    case Taken(_) => 4
    case MuxWait(_, _) => 4
    case Past(_) => 3
    case LookedUp(_, _) => 2
    case AckWait(_, _, _) => 2
    case AckRetry(_, _) => 2
    case Admitted(_, _) => 1
    case FwdWait(_, _, _) => 1
    case Idle => 0
    case Failed(_) => 0
    case Lost(_, _) => 0
  }

  /** The steps a receiver can make without getting any further. */
  function Idling(s: State, r: nat): (n: nat)
    requires r < |s.rs|
    ensures n <= 2
  {
    if Sleeping(s, r) then 0
    else match s.rs[r]
         case Taken(_) => 1
         case MuxWait(_, _) => 1
         case LookedUp(_, _) => 1
         case AckWait(_, _, _) => 2
         case AckRetry(_, _) => 1
         case Admitted(_, _) => 1
         case FwdWait(_, _, _) => 2
         case _ => 0
  }

  function Phases(s: State): seq<nat> {
    seq(|s.rs|, r requires 0 <= r < |s.rs| => Phase(s.rs[r]))
  }

  function Idlings(s: State): seq<nat> {
    seq(|s.rs|, r requires 0 <= r < |s.rs| => Idling(s, r))
  }

  /** Getting further may wake everybody else. */
  function Work(s: State): nat {
    (2 * |s.rs| + 1) * Sum(Phases(s)) + Sum(Idlings(s))
  }

  /** A step gets the receiver further, or changes nothing but its own place within its phase. */
  lemma StepWorks(s: State, r: nat, mode: AckMode)
    requires Possible(s, Runs(r, mode))
    ensures var s' := Do(s, Runs(r, mode));
            && |s'.rs| == |s.rs|
            && (Phase(s'.rs[r]) < Phase(s.rs[r]) ||
                (Phase(s'.rs[r]) == Phase(s.rs[r]) && s'.tcp == s.tcp && s'.dataIn == s.dataIn
                 && Idling(s', r) < Idling(s, r)))
  {
    match s.rs[r] {
      case LookedUp(i, c) =>
        TurnWorks(s, r, c, InputSection(s.tcp[c], s.stream[i], mode));
        InputSleeps(s.tcp[c], s.stream[i], mode);
        hide InputSection;
      case AckRetry(i, c) =>
        TurnWorks(s, r, c, AckSection(s.tcp[c], s.stream[i], mode));
        AckSleeps(s.tcp[c], s.stream[i], mode);
        hide AckSection;
      case _ => OthersWork(s, r, mode);
    }
  }

  lemma AckSleeps(k: Conn, p: Packet, mode: AckMode)
    ensures var out := AckSection(k, p, mode); out.1.Asleep? ==> out.0 == k && out.1.ticket == k.canSend + 1
  {
  }

  lemma InputSleeps(k: Conn, p: Packet, mode: AckMode)
    ensures var out := InputSection(k, p, mode); out.1.Asleep? ==> out.0 == k && out.1.ticket == k.canSend + 1
  {
  }

  lemma TurnWorks(s: State, r: nat, c: nat, out: (Conn, Turn))
    requires r < |s.rs| && (s.rs[r].LookedUp? || s.rs[r].AckRetry?) && c < |s.tcp| && s.rs[r].c == c
    ensures var s' := AfterInput(s, r, c, out);
            && |s'.rs| == |s.rs|
            && (if out.1.Asleep?
                then out.0 == s.tcp[c] && out.1.ticket == s.tcp[c].canSend + 1 ==>
                     Phase(s'.rs[r]) == Phase(s.rs[r]) && s'.tcp == s.tcp && s'.dataIn == s.dataIn && Idling(s', r) < Idling(s, r)
                else Phase(s'.rs[r]) < Phase(s.rs[r]))
  {
  }

  lemma OthersWork(s: State, r: nat, mode: AckMode)
    requires Possible(s, Runs(r, mode)) && !s.rs[r].LookedUp? && !s.rs[r].AckRetry?
    ensures var s' := Do(s, Runs(r, mode));
            && |s'.rs| == |s.rs|
            && (Phase(s'.rs[r]) < Phase(s.rs[r]) ||
                (Phase(s'.rs[r]) == Phase(s.rs[r]) && s'.tcp == s.tcp && s'.dataIn == s.dataIn
                 && Idling(s', r) < Idling(s, r)))
  {
    hide MuxEntry, MuxLoop;
  }

  lemma SameIdling(s: State, s': State, q: nat)
    requires q < |s.rs| && q < |s'.rs| && s'.rs[q] == s.rs[q] && s'.tcp == s.tcp && s'.dataIn == s.dataIn
    ensures Idling(s', q) == Idling(s, q)
  {
  }

  lemma LessWork(s: State, r: nat, mode: AckMode)
    requires Possible(s, Runs(r, mode))
    ensures Work(Do(s, Runs(r, mode))) < Work(s)
  {
    var s' := Do(s, Runs(r, mode));
    var n := |s.rs|;
    StepWorks(s, r, mode);
    RunsMoves(s, r, mode);
    assert Phases(s') == Phases(s)[r := Phase(s'.rs[r])];
    SumUpdate(Phases(s), r, Phase(s'.rs[r]));
    if Phase(s'.rs[r]) < Phase(s.rs[r]) {
      SumBound(Idlings(s'), 2);
      Further(2 * n + 1, Sum(Phases(s')), Sum(Phases(s)));
    } else {
      forall q | 0 <= q < n
        ensures Idlings(s')[q] == Idlings(s)[r := Idling(s', r)][q]
      {
        if q != r {
          SameIdling(s, s', q);
        }
      }
      assert Idlings(s') == Idlings(s)[r := Idling(s', r)];
      SumUpdate(Idlings(s), r, Idling(s', r));
    }
  }

  lemma Further(k: nat, x: nat, y: nat)
    requires x < y
    ensures k * x + k <= k * y
  {
    assert k * (y - x) >= k by {
      MoreThanOnce(k, y - x);
    }
    assert k * (y - x) == k * y - k * x;
  }

  lemma {:induction false} MoreThanOnce(k: nat, d: nat)
    requires d >= 1
    ensures k * d >= k
  {
    if d > 1 {
      MoreThanOnce(k, d - 1);
      assert k * d == k * (d - 1) + k;
    }
  }

  /** A run of receiver steps alone is no longer than the work there is. */
  lemma {:induction false} RunsEnd(s: State, run: seq<Event>)
    requires Valid(s, run) && AllRun(run)
    ensures |run| + Work(After(s, run)) <= Work(s)
    decreases |run|
  {
    if run != [] {
      assert AllRun(Front(run));
      RunsEnd(s, Front(run));
      assert Last(run) in run;
      LessWork(After(s, Front(run)), Last(run).r, Last(run).mode);
    }
  }

  /** Every run of receiver steps alone from a reachable state is bounded. When it cannot be
      continued, no receiver is lively, unless one has the next packet in the wrap band or
      waits for the reaper to leave the map. */
  lemma EveryRunDrains(n: nat, s: State, run: seq<Event>)
    requires Reachable(n, s) && Valid(s, run) && AllRun(run)
    ensures |run| <= Work(s) <= (2 * n + 1) * (4 * n) + 2 * n
    ensures (forall r, mode :: !Can(After(s, run), Runs(r, mode))) ==>
              var t := After(s, run);
              NoneLively(t) || exists q :: 0 <= q < |t.rs| && (CaughtInBand(t, q) || WaitsForMap(t, q))
  {
    ReachableInv(n, s);
    ReachableSize(n, s);
    hide Reachable;
    RunsEnd(s, run);
    WorkBound(s);
    RunKeeps(s, run);
    var t := After(s, run);
    if r: nat :| r < |t.rs| && Lively(t, r) {
      var q := OldestLivelyExists(t, r, |t.rs|);
      LivelyCanGoOn(t, q);
      if Ready(t, q) {
        ReadyMoves(t, q);
      } else {
        assert CaughtInBand(t, q) || WaitsForMap(t, q);
      }
    } else {
      assert NoneLively(t);
    }
  }

  ghost predicate CaughtInBand(s: State, q: nat)
    requires q < |s.rs|
  {
    InWrapBand(s, q) && s.rs[q].i == s.accepted
  }

  lemma WorkBound(s: State)
    ensures Work(s) <= (2 * |s.rs| + 1) * (4 * |s.rs|) + 2 * |s.rs|
  {
    SumBound(Phases(s), 4);
    SumBound(Idlings(s), 2);
    if Sum(Phases(s)) < 4 * |s.rs| {
      Further(2 * |s.rs| + 1, Sum(Phases(s)), 4 * |s.rs|);
    }
  }

  lemma {:induction false} RunSize(s: State, run: seq<Event>)
    requires Valid(s, run)
    ensures |After(s, run).rs| == |s.rs|
    decreases |run|
  {
    if run != [] {
      RunSize(s, Front(run));
      SameReceivers(After(s, Front(run)), Last(run));
    }
  }

  lemma ReachableSize(n: nat, s: State)
    requires Reachable(n, s)
    ensures |s.rs| == n
  {
    var run :| Valid(Start(n), run) && After(Start(n), run) == s;
    RunSize(Start(n), run);
  }
}
