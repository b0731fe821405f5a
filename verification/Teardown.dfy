/** The teardown of a device as a state machine: deconstruct posts every mapped port and waits
    for the map to become empty, the reaper takes ports from its queue, and meanwhile
    connections ask to be closed, clients still connect, and senders leave locks locked. */
module Teardown {
  import opened Wrapping

  /** The thread in deconstruct. Waiting sleeps while the event counter is below the ticket. */
  datatype Waiter = Posting | Testing | Waiting(ticket: nat) | Returned

  /** Inside: the map is write-locked, and the connection on the port, if any, is torn down. */
  datatype Reaper = Away | Inside(port: u16)

  /** mapped: the ports of the map; held: those of them whose connection's lock was left locked. */
  datatype State = State(mapped: set<u16>, held: set<u16>, queue: seq<u16>, closeEvents: nat,
                         reaper: Reaper, waiter: Waiter)

  datatype Event =
    | Posts(order: seq<u16>)
    | Tests
    | Wakes
    | Enters
    | Leaves
    | Requests(port: u16)
    | Connects(port: u16)
    | Abandons(port: u16)  // a sender leaves the lock of its connection locked

  function Elements(order: seq<u16>): set<u16> { set p: u16 | p in order }

  predicate Can(s: State, e: Event) {
    match e
    case Posts(order) => s.waiter.Posting? && s.reaper.Away? && |order| == |s.mapped| && Elements(order) == s.mapped
    case Tests => s.waiter.Testing? && s.reaper.Away?
    case Wakes => s.waiter.Waiting? && s.closeEvents >= s.waiter.ticket
    case Enters => s.reaper.Away? && s.queue != []
    case Leaves => s.reaper.Inside? && s.reaper.port !in s.held
    case Requests(_) => true
    case Connects(port) => s.reaper.Away? && port !in s.mapped
    case Abandons(port) => port in s.mapped
  }

  function Do(s: State, e: Event): State
    requires Can(s, e)
  {
    match e
    case Posts(order) => s.(queue := s.queue + order, waiter := Testing)
    case Tests => s.(waiter := if s.mapped == {} then Returned else Waiting(s.closeEvents + 1))
    case Wakes => s.(waiter := Testing)
    case Enters => s.(queue := s.queue[1..], reaper := Inside(s.queue[0]))
    case Leaves => s.(mapped := s.mapped - {s.reaper.port}, closeEvents := s.closeEvents + 1, reaper := Away)
    case Requests(port) => s.(queue := s.queue + [port])
    case Connects(port) => s.(mapped := s.mapped + {port})
    case Abandons(port) => s.(held := s.held + {port})
  }

  ghost predicate Valid(s: State, run: seq<Event>)
    decreases |run|, 0
  {
    run == [] || (Valid(s, run[..|run| - 1]) && Can(After(s, run[..|run| - 1]), run[|run| - 1]))
  }

  ghost function After(s: State, run: seq<Event>): State
    requires Valid(s, run)
    decreases |run|, 1
  {
    if run == [] then s else Do(After(s, run[..|run| - 1]), run[|run| - 1])
  }

  /** The steps of the two threads themselves. */
  predicate Own(e: Event) { e.Posts? || e.Tests? || e.Wakes? || e.Enters? || e.Leaves? }

  ghost predicate Alone(run: seq<Event>) {
    forall k :: 0 <= k < |run| ==> Own(run[k])
  }

  predicate Asleep(s: State) { s.waiter.Waiting? && s.closeEvents < s.waiter.ticket }

  /** The reaper will come to the port. */
  predicate Queued(s: State, port: u16) { port in s.queue || s.reaper == Inside(port) }

  ghost predicate Inv(s: State) {
    && s.held <= s.mapped
    && (s.waiter.Waiting? ==> s.waiter.ticket <= s.closeEvents + 1)
    && (Asleep(s) ==> s.mapped != {})
  }

  /** deconstruct begins: nobody has looked at the map yet. */
  ghost predicate Begins(s: State) { s.held <= s.mapped && s.waiter.Posting? }

  /** ---- No lost wakeup ---- */

  lemma StepKeeps(s: State, e: Event)
    requires Inv(s) && Can(s, e)
    ensures Inv(Do(s, e))
    ensures Do(s, e).waiter.Returned? && !s.waiter.Returned? ==> s.mapped == {}
  {
  }

  lemma {:induction false} RunKeeps(s: State, run: seq<Event>)
    requires Inv(s) && Valid(s, run)
    ensures Inv(After(s, run))
  {
    if run != [] {
      RunKeeps(s, run[..|run| - 1]);
      StepKeeps(After(s, run[..|run| - 1]), run[|run| - 1]);
    }
  }

  /** The connections deconstruct has not posted: nobody has asked for them to be closed, and
      they were made after the posting. */
  ghost predicate Posted(s: State, run: seq<Event>, port: u16)
    requires Valid(s, run)
  {
    port in After(s, run).mapped && forall k :: 0 <= k < |run| ==> run[k] != Connects(port)
  }

  /** In every run from the beginning of deconstruct, whoever made the wait necessary: while the
      thread sleeps the map is not empty, and every connection that is mapped since before the
      posting is one the reaper is at or will come to. */
  lemma {:induction false} SleepsForAReason(s: State, run: seq<Event>, port: u16)
    requires Begins(s) && Valid(s, run) && !After(s, run).waiter.Posting?
    ensures Asleep(After(s, run)) ==> After(s, run).mapped != {}
    ensures Posted(s, run, port) ==> Queued(After(s, run), port)
  {
    RunKeeps(s, run);
    if Posted(s, run, port) {
      var front, e := run[..|run| - 1], run[|run| - 1];
      var t := After(s, front);
      assert e != Connects(port) && forall k :: 0 <= k < |front| ==> front[k] == run[k];
      assert port in t.mapped && Posted(s, front, port);
      if t.waiter.Posting? {
        assert e.Posts?;
        assert port in Elements(e.order);
      } else {
        SleepsForAReason(s, front, port);
        assert e.Enters? ==> s.queue == s.queue && t.queue == [t.queue[0]] + t.queue[1..];
      }
    }
  }

  /** ---- When the two threads finish by themselves ---- */

  /** Every mapped connection can be torn down, and is queued or will be posted. */
  ghost predicate Drainable(s: State) {
    forall port :: port in s.mapped ==> DrainablePort(s, port)
  }

  predicate DrainablePort(s: State, port: u16) {
    port !in s.held && (s.waiter.Posting? || Queued(s, port))
  }

  function Work(s: State): nat {
    4 * |s.queue| + (if s.reaper.Inside? then 3 else 0)
    + match s.waiter
      case Posting => 4 * |s.mapped| + 2
      case Testing => 1
      case Waiting(_) => if Asleep(s) then 0 else 2
      case Returned => 0
  }

  lemma OwnStep(s: State, e: Event)
    requires Inv(s) && Can(s, e) && Own(e)
    ensures Work(Do(s, e)) < Work(s)
    ensures !s.waiter.Returned? ==> (Drainable(Do(s, e)) <==> Drainable(s))
    ensures s.waiter.Returned? ==> Do(s, e).waiter.Returned?
  {
    WorkShrinks(s, e);
    hide Work;
    var s' := Do(s, e);
    assert e.Enters? ==> s.queue == [s.queue[0]] + s'.queue;
    assert e.Posts? ==> forall port :: port in s.mapped ==> port in Elements(e.order);
    forall port | port in s'.mapped
      ensures s.waiter.Returned? || (DrainablePort(s', port) <==> DrainablePort(s, port))
    {
    }
    assert e.Leaves? && s.reaper.port in s.mapped ==> DrainablePort(s, s.reaper.port);
    assert forall port :: port in s.mapped ==> port in s'.mapped || (e.Leaves? && port == s.reaper.port);
  }

  lemma WorkShrinks(s: State, e: Event)
    requires Inv(s) && Can(s, e) && Own(e)
    ensures Work(Do(s, e)) < Work(s)
  {
    LessMapped(s.mapped, if s.reaper.Inside? then s.reaper.port else 0);
  }

  lemma LessMapped(mapped: set<u16>, port: u16)
    ensures |mapped - {port}| <= |mapped|
  {
    assert mapped - {port} <= mapped;
  }

  /** Steps of the two threads alone use up the work, and change nothing about the outcome. */
  lemma {:induction false} OwnRun(s: State, run: seq<Event>)
    requires Inv(s) && Valid(s, run) && Alone(run)
    ensures Inv(After(s, run)) && |run| + Work(After(s, run)) <= Work(s)
    ensures !After(s, run).waiter.Returned? ==> (Drainable(After(s, run)) <==> Drainable(s))
    ensures After(s, run).waiter.Returned? && !s.waiter.Returned? ==> Drainable(s)
  {
    if run != [] {
      var front, e := run[..|run| - 1], run[|run| - 1];
      assert Alone(front) by {
        assert forall k :: 0 <= k < |front| ==> front[k] == run[k];
      }
      OwnRun(s, front);
      StepKeeps(After(s, front), e);
      OwnStep(After(s, front), e);
    }
  }

  lemma {:induction false} OrderOf(ports: set<u16>) returns (order: seq<u16>)
    ensures |order| == |ports| && Elements(order) == ports
    decreases |ports|
  {
    if ports == {} {
      order := [];
    } else {
      var p :| p in ports;
      var rest := OrderOf(ports - {p});
      order := [p] + rest;
      forall q: u16
        ensures q in Elements(order) <==> q in ports
      {
        assert q in order <==> q == p || q in rest;
        assert q in ports - {p} <==> q in Elements(rest);
      }
    }
  }

  /** One of the two can go on until deconstruct has returned. */
  lemma SomeoneCan(s: State) returns (e: Event)
    requires Inv(s) && Drainable(s) && !s.waiter.Returned?
    ensures Own(e) && Can(s, e)
  {
    match s.reaper
    case Inside(port) => e := Leaves;
    case Away =>
      match s.waiter {
        case Posting =>
          var order := OrderOf(s.mapped);
          e := Posts(order);
        case Testing => e := Tests;
        case Waiting(_) =>
          if Asleep(s) {
            var port :| port in s.mapped;
            assert Queued(s, port);
            e := Enters;
          } else {
            e := Wakes;
          }
      }
  }

  /** Every run of the two alone that cannot be continued ends with deconstruct returned and is
      no longer than the work to do, if all connections are drainable. */
  lemma EveryRunReturns(s: State, run: seq<Event>)
    requires Inv(s) && Drainable(s) && Valid(s, run) && Alone(run)
    ensures |run| <= Work(s)
    ensures (forall e :: Own(e) ==> !Can(After(s, run), e)) ==> After(s, run).waiter.Returned?
  {
    OwnRun(s, run);
    if !After(s, run).waiter.Returned? {
      var e := SomeoneCan(After(s, run));
    }
  }

  lemma {:induction false} FinishOn(s: State, done: seq<Event>) returns (run: seq<Event>)
    requires Inv(s) && Valid(s, done) && Drainable(After(s, done))
    ensures Valid(s, run) && done <= run && After(s, run).waiter.Returned?
    ensures forall k :: |done| <= k < |run| ==> Own(run[k])
    decreases Work(After(s, done))
  {
    run := done;
    RunKeeps(s, done);
    if !After(s, done).waiter.Returned? {
      var t := After(s, done);
      var e := SomeoneCan(t);
      var longer := done + [e];
      assert longer[..|longer| - 1] == done;
      OwnStep(t, e);
      if Do(t, e).waiter.Returned? {
        run := longer;
      } else {
        run := FinishOn(s, longer);
      }
    }
  }

  /** deconstruct returns in some run of the two threads alone if and only if every mapped
      connection can be torn down and is in the queue, or will be put there. */
  lemma ReturnsAloneExactly(s: State)
    requires Inv(s) && !s.waiter.Returned?
    ensures Drainable(s) <==> exists run :: Valid(s, run) && Alone(run) && After(s, run).waiter.Returned?
  {
    if Drainable(s) {
      var run := FinishOn(s, []);
      assert Alone(run);
    }
    forall run | Valid(s, run) && Alone(run) && After(s, run).waiter.Returned?
      ensures Drainable(s)
    {
      OwnRun(s, run);
    }
  }

  /** ---- A lock left locked ---- */

  /** The connection stays in the map, and deconstruct never returns, whatever else happens. */
  lemma {:induction false} HeldNeverReturns(s: State, run: seq<Event>, port: u16)
    requires Valid(s, run) && port in s.mapped && port in s.held && !s.waiter.Returned?
    ensures port in After(s, run).mapped && port in After(s, run).held && !After(s, run).waiter.Returned?
  {
    if run != [] {
      HeldNeverReturns(s, run[..|run| - 1], port);
    }
  }

  lemma {:induction false} RequestAll(s: State, ports: seq<u16>) returns (run: seq<Event>)
    ensures Valid(s, run) && After(s, run) == s.(queue := s.queue + ports)
  {
    if ports == [] {
      run := [];
      assert s.queue + ports == s.queue;
    } else {
      var front, last := ports[..|ports| - 1], ports[|ports| - 1];
      var before := RequestAll(s, front);
      run := before + [Requests(last)];
      assert run[..|run| - 1] == before;
      assert s.queue + front + [last] == s.queue + ports;
    }
  }

  /** deconstruct returns in some run at all if and only if no mapped connection's lock was left
      locked: every other connection may still ask to be closed. */
  lemma ReturnsExactly(s: State)
    requires Inv(s) && !s.waiter.Returned?
    ensures s.held == {} <==> exists run :: Valid(s, run) && After(s, run).waiter.Returned?
  {
    if s.held == {} {
      var ports := OrderOf(s.mapped);
      var done := RequestAll(s, ports);
      assert Drainable(After(s, done)) by {
        forall port | port in s.mapped
          ensures Queued(After(s, done), port)
        {
          assert port in Elements(ports);
        }
      }
      var run := FinishOn(s, done);
    } else {
      var port :| port in s.held;
      forall run | Valid(s, run)
        ensures !After(s, run).waiter.Returned?
      {
        HeldNeverReturns(s, run, port);
      }
    }
  }

  /** A client that still connects after the posting keeps deconstruct waiting until somebody
      asks for that connection to be closed. */
  lemma LateConnection(s: State, order: seq<u16>, port: u16, run: seq<Event>)
    requires Begins(s) && Can(s, Posts(order)) && port !in s.mapped && port !in s.queue
    requires Valid(Do(Do(s, Posts(order)), Connects(port)), run) && Alone(run)
    ensures !After(Do(Do(s, Posts(order)), Connects(port)), run).waiter.Returned?
  {
    var t := Do(Do(s, Posts(order)), Connects(port));
    assert !Queued(t, port) by {
      assert port !in Elements(order);
    }
    OwnRun(t, run);
  }
}
