/** What holds in every run the program can make, whatever the device sends and however soon a
    port is used again. */
module Addressing {
  import opened Wrapping
  import opened Packets
  import opened Connection
  import opened Receivers

  /** Runs without the hypotheses. */
  ghost predicate Feasible(s: State, run: seq<Event>)
    decreases |run|, 0
  {
    run == [] || (Feasible(s, Front(run)) && Possible(Ends(s, Front(run)), Last(run)))
  }

  ghost function Ends(s: State, run: seq<Event>): State
    requires Feasible(s, run)
    decreases |run|, 1
  {
    if run == [] then s else Do(Ends(s, Front(run)), Last(run))
  }

  ghost predicate Attainable(n: nat, s: State) {
    exists run :: Feasible(Start(n), run) && Ends(Start(n), run) == s
  }

  lemma {:induction false} ValidIsFeasible(s: State, run: seq<Event>)
    requires Valid(s, run)
    ensures Feasible(s, run) && Ends(s, run) == After(s, run)
    decreases |run|
  {
    if run != [] {
      ValidIsFeasible(s, Front(run));
    }
  }

  /** Every state reached under the hypotheses is one of these. */
  lemma ReachableIsAttainable(n: nat, s: State)
    requires Reachable(n, s)
    ensures Attainable(n, s)
  {
    var run :| Valid(Start(n), run) && After(Start(n), run) == s;
    ValidIsFeasible(Start(n), run);
  }

  /** Packets addressed to the port, by their places in the stream. */
  ghost predicate Picks(stream: seq<Packet>, port: u16, picks: seq<nat>) {
    forall k :: 0 <= k < |picks| ==> Addresses(stream, port, picks[k])
  }

  ghost predicate Addresses(stream: seq<Packet>, port: u16, i: nat) {
    i < |stream| && IsTcp(stream[i].kind) && stream[i].port == port
  }

  ghost function Joined(stream: seq<Packet>, port: u16, picks: seq<nat>): seq<byte>
    requires Picks(stream, port, picks)
  {
    if picks == [] then [] else
    var front, last := picks[..|picks| - 1], picks[|picks| - 1];
    assert Addresses(stream, port, last);
    assert Picks(stream, port, front);
    Joined(stream, port, front) + stream[last].payload
  }

  /** The log is made of payloads of packets addressed to the port. */
  ghost predicate FromPort(stream: seq<Packet>, port: u16, log: seq<byte>) {
    exists picks :: Picks(stream, port, picks) && Joined(stream, port, picks) == log
  }

  lemma {:induction false} JoinedMore(stream: seq<Packet>, more: seq<Packet>, port: u16, picks: seq<nat>)
    requires Picks(stream, port, picks)
    ensures Picks(stream + more, port, picks) && Joined(stream + more, port, picks) == Joined(stream, port, picks)
  {
    assert forall k :: 0 <= k < |picks| ==> Addresses(stream, port, picks[k]);
    assert Picks(stream + more, port, picks);
    if picks != [] {
      JoinedMore(stream, more, port, picks[..|picks| - 1]);
    }
  }

  lemma FromPortMore(stream: seq<Packet>, more: seq<Packet>, port: u16, log: seq<byte>)
    requires FromPort(stream, port, log)
    ensures FromPort(stream + more, port, log)
  {
    var picks :| Picks(stream, port, picks) && Joined(stream, port, picks) == log;
    JoinedMore(stream, more, port, picks);
  }

  lemma FromPortAppend(stream: seq<Packet>, port: u16, log: seq<byte>, i: nat)
    requires FromPort(stream, port, log) && Addresses(stream, port, i)
    ensures FromPort(stream, port, log + stream[i].payload)
  {
    var picks :| Picks(stream, port, picks) && Joined(stream, port, picks) == log;
    var longer := picks + [i];
    assert Picks(stream, port, longer);
    assert longer[..|longer| - 1] == picks && longer[|longer| - 1] == i;
    assert Joined(stream, port, longer) == log + stream[i].payload;
  }

  /** Receiver r works on a packet addressed to its connection's port. */
  ghost predicate Addressee(s: State, r: nat)
    requires r < |s.rs|
  {
    s.rs[r].LookedUp? || s.rs[r].AckWait? || s.rs[r].AckRetry? || s.rs[r].Admitted? || s.rs[r].FwdWait? ==>
      && s.rs[r].i < |s.stream| && s.rs[r].c < |s.tcp| && IsTcp(s.stream[s.rs[r].i].kind)
      && s.stream[s.rs[r].i].port == s.tcp[s.rs[r].c].sport
  }

  /** The reaper is at a mapped port, and a connection torn down is unmapped before it leaves. */
  ghost predicate ReaperOk(s: State) {
    && (s.reaper.Inside? ==> s.reaper.port in s.conns)
    && (forall port :: port in s.conns ==> s.conns[port] < |s.tcp|
                                           && (s.tcp[s.conns[port]].status.Dying? ==> s.reaper == Inside(port)))
  }

  ghost predicate Addressed(s: State) {
    && ReaperOk(s)
    && (forall port :: port in s.conns ==>
          port != 0 && s.conns[port] < |s.tcp| && s.tcp[s.conns[port]].sport == port)
    && (forall c :: 0 <= c < |s.tcp| ==> Listed(s, c) && FromPort(s.stream, s.tcp[c].sport, s.tcp[c].toClient))
    && (forall r :: 0 <= r < |s.rs| ==> Addressee(s, r))
  }

  /** What matters here changes in a section at most by the payload handed on. */
  ghost predicate Logs(k: Conn, k': Conn, more: seq<byte>) {
    k'.sport == k.sport && (k'.status.Dying? <==> k.status.Dying?)
    && (k'.toClient == k.toClient || k'.toClient == k.toClient + more)
  }

  lemma AckLogs(k: Conn, p: Packet, mode: AckMode)
    ensures Logs(k, AckSection(k, p, mode).0, [])
  {
  }

  lemma InputLogs(k: Conn, p: Packet, mode: AckMode)
    ensures Logs(k, InputSection(k, p, mode).0, [])
  {
    AckLogs(k, p, mode);
    hide AckSection;
  }

  lemma ForwardLogs(k: Conn, p: Packet)
    ensures Logs(k, ForwardSection(k, p).0, p.payload)
  {
  }

  /** A receiver moves, and at most connection c changes. */
  lemma MoveAddressed(s: State, s': State, r: nat, c: nat, k': Conn)
    requires Addressed(s) && r < |s.rs| && c < |s.tcp|
    requires s'.stream == s.stream && s'.conns == s.conns && s'.reaper == s.reaper && s'.tcp == s.tcp[c := k']
    requires |s'.rs| == |s.rs| && s'.rs == s.rs[r := s'.rs[r]] && Addressee(s', r)
    requires k'.sport == s.tcp[c].sport && (k'.status.Dying? <==> s.tcp[c].status.Dying?)
    requires FromPort(s.stream, k'.sport, k'.toClient)
    ensures Addressed(s')
  {
    hide FromPort;
    forall d | 0 <= d < |s'.tcp|
      ensures Listed(s', d) && FromPort(s'.stream, s'.tcp[d].sport, s'.tcp[d].toClient)
    {
      assert Listed(s, d);
    }
    forall q | 0 <= q < |s'.rs|
      ensures Addressee(s', q)
    {
      assert Addressee(s, q);
    }
  }

  /** A receiver moves while no connection changes. */
  lemma RestAddressed(s: State, s': State, r: nat)
    requires Addressed(s) && r < |s.rs|
    requires s'.stream == s.stream && s'.conns == s.conns && s'.reaper == s.reaper && s'.tcp == s.tcp
    requires |s'.rs| == |s.rs| && s'.rs == s.rs[r := s'.rs[r]] && Addressee(s', r)
    ensures Addressed(s')
  {
    hide FromPort;
    forall d | 0 <= d < |s'.tcp|
      ensures Listed(s', d)
    {
      assert Listed(s, d);
    }
    forall q | 0 <= q < |s'.rs|
      ensures Addressee(s', q)
    {
      assert Addressee(s, q);
    }
  }

  lemma InputAddressed(s: State, r: nat, out: (Conn, Turn))
    requires Addressed(s) && r < |s.rs| && (s.rs[r].LookedUp? || s.rs[r].AckRetry?) && s.rs[r].c < |s.tcp|
    requires Logs(s.tcp[s.rs[r].c], out.0, [])
    ensures Addressed(AfterInput(s, r, s.rs[r].c, out))
  {
    hide FromPort;
    assert Addressee(s, r);
    MoveAddressed(s, AfterInput(s, r, s.rs[r].c, out), r, s.rs[r].c, out.0);
  }

  lemma ForwardAddressed(s: State, r: nat)
    requires Addressed(s) && r < |s.rs| && s.rs[r].Admitted? && s.rs[r].i < |s.stream| && s.rs[r].c < |s.tcp|
    ensures Addressed(AfterForward(s, r, s.rs[r].c, ForwardSection(s.tcp[s.rs[r].c], s.stream[s.rs[r].i])))
  {
    hide FromPort, ForwardSection;
    var i, c := s.rs[r].i, s.rs[r].c;
    assert Addressee(s, r);
    var out := ForwardSection(s.tcp[c], s.stream[i]);
    ForwardLogs(s.tcp[c], s.stream[i]);
    FromPortAppend(s.stream, s.tcp[c].sport, s.tcp[c].toClient, i);
    MoveAddressed(s, AfterForward(s, r, c, out), r, c, out.0);
  }

  lemma RunsAddressed(s: State, r: nat, mode: AckMode)
    requires Addressed(s) && Possible(s, Runs(r, mode))
    ensures Addressed(Do(s, Runs(r, mode)))
  {
    hide FromPort, InputSection, AckSection, ForwardSection, MuxEntry, MuxLoop;
    var s' := Do(s, Runs(r, mode));
    assert Addressee(s, r);
    match s.rs[r] {
      case LookedUp(i, c) =>
        InputLogs(s.tcp[c], s.stream[i], mode);
        InputAddressed(s, r, InputSection(s.tcp[c], s.stream[i], mode));
      case AckRetry(i, c) =>
        AckLogs(s.tcp[c], s.stream[i], mode);
        InputAddressed(s, r, AckSection(s.tcp[c], s.stream[i], mode));
      case Admitted(i, c) =>
        ForwardAddressed(s, r);
      case _ =>
        RestAddressed(s, s', r);
    }
  }

  lemma OthersAddressed(s: State, e: Event)
    requires Addressed(s) && Possible(s, e) && !e.Runs? && !e.Takes?
    ensures Addressed(Do(s, e))
  {
    OthersAddressees(s, e);
    forall c | 0 <= c < |Do(s, e).tcp|
      ensures Listed(Do(s, e), c)
      ensures FromPort(Do(s, e).stream, Do(s, e).tcp[c].sport, Do(s, e).tcp[c].toClient)
    {
      OthersLog(s, e, c);
    }
    OthersMap(s, e);
    hide FromPort, Addressee, Listed, Do, ReaperOk;
  }

  lemma OthersMap(s: State, e: Event)
    requires Addressed(s) && Possible(s, e) && !e.Runs? && !e.Takes?
    ensures var s' := Do(s, e);
            && ReaperOk(s')
            && forall port :: port in s'.conns ==>
                 port != 0 && s'.conns[port] < |s'.tcp| && s'.tcp[s'.conns[port]].sport == port
  {
    hide FromPort, Addressee;
  }

  lemma OthersLog(s: State, e: Event, c: nat)
    requires Addressed(s) && Possible(s, e) && !e.Runs? && !e.Takes? && c < |Do(s, e).tcp|
    ensures Listed(Do(s, e), c)
    ensures FromPort(Do(s, e).stream, Do(s, e).tcp[c].sport, Do(s, e).tcp[c].toClient)
  {
    hide FromPort, Addressee;
    if c < |s.tcp| {
      assert Listed(s, c);
      if e.DeviceSends? {
        FromPortMore(s.stream, [e.p], s.tcp[c].sport, s.tcp[c].toClient);
      }
    } else {
      EmptyLog(s.stream, Do(s, e).tcp[c].sport);
    }
  }

  lemma OthersAddressees(s: State, e: Event)
    requires (forall r :: 0 <= r < |s.rs| ==> Addressee(s, r)) && Possible(s, e) && !e.Runs? && !e.Takes?
    ensures forall r :: 0 <= r < |Do(s, e).rs| ==> Addressee(Do(s, e), r)
  {
    forall r | 0 <= r < |Do(s, e).rs|
      ensures Addressee(Do(s, e), r)
    {
      assert Addressee(s, r);
    }
  }

  lemma StepAddressed(s: State, e: Event)
    requires Addressed(s) && Possible(s, e)
    ensures Addressed(Do(s, e))
  {
    match e {
      case Runs(r, mode) => RunsAddressed(s, r, mode);
      case Takes(r) => RestAddressed(s, Do(s, e), r);
      case _ => OthersAddressed(s, e);
    }
  }

  lemma EmptyLog(stream: seq<Packet>, port: u16)
    ensures FromPort(stream, port, [])
  {
    assert Picks(stream, port, []) && Joined(stream, port, []) == [];
  }

  lemma {:induction false} RunAddressed(s: State, run: seq<Event>)
    requires Addressed(s) && Feasible(s, run)
    ensures Addressed(Ends(s, run))
    decreases |run|
  {
    if run != [] {
      RunAddressed(s, Front(run));
      StepAddressed(Ends(s, Front(run)), Last(run));
    }
  }

  lemma AttainableAddressed(n: nat, s: State)
    requires Attainable(n, s)
    ensures Addressed(s)
  {
    var run :| Feasible(Start(n), run) && Ends(Start(n), run) == s;
    RunAddressed(Start(n), run);
  }

  /** In every run, for any device: ports lead to the connection of that number, no two live
      connections share one, and a client is handed nothing but payloads of packets addressed
      to its connection's port. */
  lemma PortIsolation(n: nat, s: State)
    requires Attainable(n, s)
    ensures forall port :: port in s.conns ==>
              port != 0 && s.conns[port] < |s.tcp| && s.tcp[s.conns[port]].sport == port
    ensures forall c, d :: 0 <= c < d < |s.tcp| && !s.tcp[c].status.Dying? && !s.tcp[d].status.Dying?
              ==> s.tcp[c].sport != s.tcp[d].sport
    ensures forall c :: 0 <= c < |s.tcp| ==> FromPort(s.stream, s.tcp[c].sport, s.tcp[c].toClient)
  {
    var run :| Feasible(Start(n), run) && Ends(Start(n), run) == s;
    RunAddressed(Start(n), run);
    forall c, d | 0 <= c < d < |s.tcp| && !s.tcp[c].status.Dying? && !s.tcp[d].status.Dying?
      ensures s.tcp[c].sport != s.tcp[d].sport
    {
      assert Listed(s, c) && Listed(s, d);
    }
  }
}
