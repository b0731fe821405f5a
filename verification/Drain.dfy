/** What the receivers finish by themselves: some run finishes everything that can be finished,
    whoever else is stuck, and every run that cannot be continued does. */
module Drain {
  import opened Wrapping
  import opened Sums
  import opened Packets
  import opened Holdings
  import opened Connection
  import opened Receivers
  import opened ReceiveSafety
  import opened Addressing
  import opened Delivery
  import opened Progress
  import opened Fates
  import opened Stuck

  /** More than the steps a receiver takes until it is done, if each of them is in turn. */
  function StepsLeft(rc: Receiver): nat {
    match rc
    case Idle => 0
    case Failed(_) => 0
    case Lost(_, _) => 0
    case Admitted(_, _) => 1
    case FwdWait(_, _, _) => 2
    case AckRetry(_, _) => 3
    case AckWait(_, _, _) => 4
    case LookedUp(_, _) => 5
    case Past(_) => 6
    case Taken(_) => 7
    case MuxWait(_, _) => 7
  }

  function AllLeft(rs: seq<Receiver>): seq<nat> {
    seq(|rs|, r requires 0 <= r < |rs| => StepsLeft(rs[r]))
  }

  /** Only receiver r moved. */
  ghost predicate OnlyMoves(s: State, s': State, r: nat)
    requires r < |s.rs|
  {
    && |s'.rs| == |s.rs| && s'.rs == s.rs[r := s'.rs[r]]
    && s'.stream == s.stream && s'.owner == s.owner && s'.reaper == s.reaper
  }

  lemma RunsMoves(s: State, r: nat, mode: AckMode)
    requires Possible(s, Runs(r, mode))
    ensures OnlyMoves(s, Do(s, Runs(r, mode)), r) && |Do(s, Runs(r, mode)).tcp| == |s.tcp|
  {
    hide InputSection, AckSection, ForwardSection, MuxEntry, MuxLoop;
  }

  /** A receiver whose turn has come gets nearer to its end and does not fall asleep. */
  lemma ReadyMoves(s: State, r: nat)
    requires Inv(s) && r < |s.rs| && Ready(s, r)
    ensures Can(s, Runs(r, Passed))
    ensures StepsLeft(Do(s, Runs(r, Passed)).rs[r]) < StepsLeft(s.rs[r]) && !Do(s, Runs(r, Passed)).rs[r].MuxWait?
  {
    assert PhaseOk(s, r);
    assert LedgerOf(s).holds[r] == HoldOf(s.rs[r]) && HoldOk(LedgerOf(s), r);
    assert PacketOk(s.stream, s.tcp, s.rs[r].i);
    hide Inv, MuxInv;
  }

  ghost predicate NoneInBand(s: State) {
    forall r :: 0 <= r < |s.rs| ==> !InWrapBand(s, r)
  }

  lemma NoNewBand(s: State, s': State, r: nat)
    requires NoneInBand(s) && r < |s.rs| && OnlyMoves(s, s', r) && !s'.rs[r].MuxWait?
    ensures NoneInBand(s')
  {
    forall q | 0 <= q < |s'.rs|
      ensures !InWrapBand(s', q)
    {
      assert !InWrapBand(s, q);
    }
  }

  lemma LessLeft(rs: seq<Receiver>, r: nat, rc: Receiver)
    requires r < |rs| && StepsLeft(rc) < StepsLeft(rs[r])
    ensures Sum(AllLeft(rs[r := rc])) < Sum(AllLeft(rs))
  {
    assert AllLeft(rs[r := rc]) == AllLeft(rs)[r := StepsLeft(rc)];
    SumUpdate(AllLeft(rs), r, StepsLeft(rc));
  }

  ghost predicate NoneLively(s: State) {
    forall r :: 0 <= r < |s.rs| ==> !Lively(s, r)
  }

  /** Everything taken was accepted, and on every sound connection everything accepted was
      admitted and handed to the client. */
  ghost predicate HandedOn(s: State) {
    && s.accepted == |s.owner| <= |s.stream|
    && forall c :: 0 <= c < |s.tcp| && Sound(s.tcp[c]) ==>
         s.tcp[c].forwarded == s.tcp[c].admitted == Off(s.stream, c, s.accepted)
  }

  lemma NoneLivelyMeansHandedOn(s: State)
    requires Inv(s) && NoneLively(s)
    ensures HandedOn(s)
  {
    var l := LedgerOf(s);
    if s.accepted < |s.owner| {
      assert l.holds[l.owner[s.accepted]] == Pre(s.accepted) == HoldOf(s.rs[l.owner[s.accepted]]);
      assert Lively(s, l.owner[s.accepted]);
    }
    forall c | 0 <= c < |s.tcp| && Sound(s.tcp[c])
      ensures s.tcp[c].forwarded == s.tcp[c].admitted == Off(s.stream, c, s.accepted)
    {
      NothingLeft(s, c);
    }
  }

  lemma NothingLeft(s: State, c: nat)
    requires Inv(s) && NoneLively(s) && c < |s.tcp| && Sound(s.tcp[c])
    ensures s.tcp[c].forwarded == s.tcp[c].admitted == Off(s.stream, c, s.accepted)
  {
    var l := LedgerOf(s);
    assert ConnOk(s, c);
    if s.tcp[c].forwarded < Off(s.stream, c, s.accepted) {
      var k := PacketAt(s.stream, c, s.accepted, s.tcp[c].forwarded);
      StillHeld(l, c, s.tcp[c].admitted, s.tcp[c].forwarded, k);
      assert l.holds[l.owner[k]] == HoldOf(s.rs[l.owner[k]]);
      DataHoldersAreLively(s, l.owner[k], k, c);
      assert false;
    }
  }

  /** ---- Some run finishes everything ---- */

  /** The step of the oldest lively receiver. */
  lemma OldestSteps(s: State, run: seq<Event>, r: nat) returns (q: nat, longer: seq<Event>)
    requires Inv(s) && Valid(s, run) && NoneInBand(After(s, run)) && After(s, run).reaper.Away?
    requires r < |After(s, run).rs| && Lively(After(s, run), r)
    ensures q < |After(s, run).rs| && OldestLively(After(s, run), q) && Ready(After(s, run), q)
    ensures longer == run + [Runs(q, Passed)] && Valid(s, longer) && Can(After(s, run), Runs(q, Passed))
    ensures After(s, longer) == Do(After(s, run), Runs(q, Passed))
    ensures OnlyMoves(After(s, run), After(s, longer), q) && NoneInBand(After(s, longer))
    ensures Sum(AllLeft(After(s, longer).rs)) < Sum(AllLeft(After(s, run).rs))
  {
    var t := After(s, run);
    RunKeeps(s, run);
    q := OldestLivelyExists(t, r, |t.rs|);
    LivelyCanGoOn(t, q);
    ReadyMoves(t, q);
    var e := Runs(q, Passed);
    RunsMoves(t, q, Passed);
    var t' := Do(t, e);
    NoNewBand(t, t', q);
    LessLeft(t.rs, q, t'.rs[q]);
    hide Inv, Do, Lively, Ready, InWrapBand, Can;
    OneStep(s, run, e);
    hide Valid, After;
    longer := run + [e];
  }

  lemma DrainFurther(s: State, run: seq<Event>) returns (longer: seq<Event>)
    requires Inv(s) && Valid(s, run) && NoneInBand(After(s, run)) && After(s, run).reaper.Away?
    requires !NoneLively(After(s, run))
    ensures |run| < |longer| && run <= longer && longer[|run|].Runs? && |longer| == |run| + 1
    ensures Valid(s, longer) && NoneInBand(After(s, longer)) && After(s, longer).reaper.Away?
    ensures After(s, longer).stream == After(s, run).stream && After(s, longer).owner == After(s, run).owner
    ensures Sum(AllLeft(After(s, longer).rs)) < Sum(AllLeft(After(s, run).rs))
  {
    var r: nat :| r < |After(s, run).rs| && Lively(After(s, run), r);
    var q;
    q, longer := OldestSteps(s, run, r);
  }

  /** The run done can be extended by receiver steps alone until no receiver is lively. */
  lemma {:induction false} DrainOn(s: State, done: seq<Event>) returns (run: seq<Event>)
    requires Inv(s) && Valid(s, done) && NoneInBand(After(s, done)) && After(s, done).reaper.Away?
    ensures Valid(s, run) && done <= run && (forall k :: |done| <= k < |run| ==> run[k].Runs?)
    ensures NoneLively(After(s, run))
    ensures After(s, run).stream == After(s, done).stream && After(s, run).owner == After(s, done).owner
    decreases Sum(AllLeft(After(s, done).rs))
  {
    hide *;
    if NoneLively(After(s, done)) {
      run := done;
    } else {
      var longer := DrainFurther(s, done);
      run := DrainOn(s, longer);
    }
  }

  /** The reaper finishes the port it is at, if any; the rest are receiver steps. */
  ghost predicate ReceiversAlone(s: State, run: seq<Event>) {
    forall e :: e in run ==> e.Runs? || (s.reaper.Inside? && (e == Dies(s.reaper.port) || e == Closes(s.reaper.port)))
  }

  /** After the run no receiver is lively and everything that was taken has been handed on. */
  ghost predicate Drains(s: State, run: seq<Event>) {
    && Valid(s, run) && ReceiversAlone(s, run)
    && After(s, run).stream == s.stream && After(s, run).owner == s.owner
    && NoneLively(After(s, run)) && HandedOn(After(s, run))
  }

  /** From every reachable state with no receiver in the wrap band and the reaper not stuck, the
      receivers alone, once the reaper has left the map, can finish every lively receiver, and
      with them every byte accepted for a sound connection. */
  lemma EverythingIsHandedOn(n: nat, s: State) returns (run: seq<Event>)
    requires Reachable(n, s) && NoneInBand(s) && !ReaperStuck(s)
    ensures Drains(s, run)
  {
    ReachableInv(n, s);
    ReachableAddressed(n, s);
    hide Reachable;
    var done := [];
    Kept(s, done);
    if s.reaper.Inside? {
      done := FinishPort(s, done);
    }
    assert NoneInBand(After(s, done)) by {
      assert forall r :: 0 <= r < |s.rs| ==> (InWrapBand(s, r) <==> InWrapBand(After(s, done), r));
    }
    run := DrainOn(s, done);
    RunKeeps(s, run);
    NoneLivelyMeansHandedOn(After(s, run));
    assert forall k :: 0 <= k < |done| ==> run[k] == done[k];
  }
}
