/** The Wi-Fi connection session: a worker that keeps a connection to the device, an updater
    that announces changed discovery information, and callers that ask for a reconnect, stop
    the session or start it. A step makes at most one access to pending, reconnect or stopping;
    only what runs under the device's lock is a larger step. */
module WifiSession {
  /** The worker's program counter. Down means that there is no worker. A wait evaluates its
      predicate one variable at a time and sleeps only if all three tests fail. */
  datatype Pc =
    | Down | Loop | Bind | Snapshot | Store(v: nat) | Clear | Lookup
    | Beat | CheckPending | CheckFlag | Receive | Send | AfterBeats | Exchange | Compare
    | Heartless | Retry
    | TestStop(delay: nat) | TestFlag(delay: nat) | TestPending(delay: nat) | Drowsy(delay: nat) | Asleep(delay: nat)

  const DELAYS: seq<nat> := [1, 2, 4, 8, 16, 30]
  const SLEEP_RECONNECT_DELAY: nat := 60

  type BackoffIndex = i: nat | i < 6

  /** From lookups on, the fields are history: connection attempts and worker exits so far;
      the version in force when the last attempt began; retries since the last connection;
      a notify_all ran between the last flag test and the sleep, with the flag set; the commands
      received since the last attempt; how often the device was removed. */
  datatype Worker = Worker(pc: Pc, applied: nat, sleepy: bool, backoff: BackoffIndex,
                           lookups: nat, exits: nat, lookedUp: nat, fails: nat, early: bool,
                           heard: seq<Command>, removals: nat)

  datatype Updater = Calm | Storing(v: nat, changed: bool) | Flagging | Notifying

  /** A caller of start makes its stores one after the other and then starts the worker.
      missed: an update was announced in full since the version was read. */
  datatype Starter = Resting | Setting(v: nat, missed: bool) | Applying | Resuming | Clearing | Spawning

  /** notifying counts callers that have stored but not notified yet, stops the callers of
      stop that have not cleared the flag yet. crossed is history: the last start overwrote
      an announced update. */
  datatype Shared = Shared(version: nat, pending: nat, reconnect: bool, stopping: bool,
                           updater: Updater, starter: Starter, notifying: nat, stops: nat, crossed: bool)

  datatype State = State(m: Shared, w: Worker)

  function New(version: nat): State {
    State(Shared(version, 0, false, false, Calm, Resting, 0, 0, false),
          Worker(Down, 0, false, 0, 0, 0, 0, 0, false, [], 0))
  }

  /** Missing: a heartbeat without a command. */
  datatype Command = Missing | SleepyTime | Other

  /** The last command among what was heard. */
  function LastHeard(heard: seq<Command>): Command {
    if heard == [] then Missing
    else if heard[|heard| - 1].Missing? then LastHeard(heard[..|heard| - 1])
    else heard[|heard| - 1]
  }

  /** Works is a step of the worker; ok is the outcome of whatever it calls. */
  datatype Event =
    | Works(ok: bool, command: Command)
    | Updates(changed: bool) | StoresPending | SetsFlag | UpdateNotifies
    | Requests | Notifies | WakesSpuriously
    | Stops | StopClears
    | StartReads | StartStores | StartApplies | StartResumes | StartClears | StartSpawns

  /** One thread updates; a start does not overlap a stop. */
  predicate Can(s: State, e: Event) {
    match e
    case Works(_, _) => !s.w.pc.Down?
    case Updates(_) => s.m.updater.Calm?
    case StoresPending => s.m.updater.Storing?
    case SetsFlag => s.m.updater.Flagging?
    case UpdateNotifies => s.m.updater.Notifying?
    case Requests => true
    case Notifies => s.m.notifying > 0
    case WakesSpuriously => s.w.pc.Asleep?
    case Stops => s.m.starter.Resting?
    case StopClears => s.m.stops > 0
    case StartReads => s.m.starter.Resting? && s.w.pc.Down? && s.m.stops == 0
    case StartStores => s.m.starter.Setting?
    case StartApplies => s.m.starter.Applying?
    case StartResumes => s.m.starter.Resuming?
    case StartClears => s.m.starter.Clearing?
    case StartSpawns => s.m.starter.Spawning?
  }

  /** ---- The worker ---- */

  function NextBackoff(idx: BackoffIndex): (nat, BackoffIndex) {
    (DELAYS[idx], (idx + 1) % |DELAYS|)
  }

  function Exit(w: Worker): Worker {
    w.(pc := Down, exits := w.exits + 1)
  }

  predicate ClearsFlag(pc: Pc) { pc.Clear? || pc.Exchange? }

  /** Between the start of a round and its connection attempt. */
  predicate Heading(pc: Pc) {
    pc.Loop? || pc.Bind? || pc.Snapshot? || pc.Store? || pc.Clear? || pc.Lookup?
  }

  /** From an established connection to the decision how to go on. */
  predicate Conversing(pc: Pc) {
    || pc.Beat? || pc.CheckPending? || pc.CheckFlag? || pc.Receive? || pc.Send?
    || pc.AfterBeats? || pc.Exchange? || pc.Compare?
  }

  /** The top of the loop and runAttempt. */
  function Head(m: Shared, w: Worker, ok: bool): Worker
    requires Heading(w.pc)
  {
    match w.pc
    case Loop => if m.stopping then Exit(w) else w.(pc := Bind)
    case Bind => if ok then w.(pc := Snapshot) else Exit(w)
    case Snapshot => w.(pc := Store(m.version))
    case Store(v) => w.(applied := v, pc := Clear)
    case Clear => w.(pc := Lookup)
    case Lookup =>
      if ok
      then w.(lookups := w.lookups + 1, lookedUp := m.version, heard := [],
              backoff := 0, fails := 0, sleepy := false, pc := Beat)
      else w.(lookups := w.lookups + 1, lookedUp := m.version, heard := [], pc := Heartless)
  }

  /** The heartbeat loop and what follows it. */
  function Converse(m: Shared, w: Worker, ok: bool, command: Command): Worker
    requires Conversing(w.pc)
  {
    match w.pc
    case Beat => w.(pc := if m.stopping then AfterBeats else CheckPending)
    case CheckPending => w.(pc := if m.pending != w.applied then AfterBeats else CheckFlag)
    case CheckFlag => w.(pc := if m.reconnect then AfterBeats else Receive)
    case Receive =>
      if !ok then w.(pc := AfterBeats)
      else w.(sleepy := if command.Missing? then w.sleepy else command.SleepyTime?, heard := w.heard + [command], pc := Send)
    case Send => w.(pc := if ok then Beat else AfterBeats)
    case AfterBeats => if m.stopping then Exit(w) else w.(pc := Exchange)
    case Exchange => w.(pc := if m.reconnect then Loop else Compare)
    case Compare =>
      w.(pc := if m.pending != w.applied then Loop
               else if w.sleepy then TestStop(SLEEP_RECONNECT_DELAY) else Heartless)
  }

  /** Giving up, or waiting for the next round. */
  function Pause(m: Shared, w: Worker, ok: bool): Worker
    requires !w.pc.Down? && !Heading(w.pc) && !Conversing(w.pc)
  {
    match w.pc
    case Heartless => if ok then w.(pc := Retry) else Exit(w).(removals := w.removals + 1)
    case Retry =>
      if !ok then Exit(w)
      else w.(backoff := NextBackoff(w.backoff).1, fails := w.fails + 1, pc := TestStop(NextBackoff(w.backoff).0))
    case TestStop(d) => w.(pc := if m.stopping then Loop else TestFlag(d))
    case TestFlag(d) => if m.reconnect then w.(pc := Loop) else w.(pc := TestPending(d), early := false)
    case TestPending(d) => w.(pc := if m.pending != w.applied then Loop else Drowsy(d))
    case Drowsy(d) => w.(pc := Asleep(d))
    case Asleep(d) => w.(pc := Loop)
  }

  function Work(m: Shared, w: Worker, ok: bool, command: Command): Worker
    requires !w.pc.Down?
  {
    if Heading(w.pc) then Head(m, w, ok)
    else if Conversing(w.pc) then Converse(m, w, ok, command)
    else Pause(m, w, ok)
  }

  /** notify_all, without the lock of the waiter: it reaches the worker only if it sleeps. */
  function NotifyAll(m: Shared, w: Worker): Worker {
    if w.pc.Asleep? then w.(pc := TestStop(w.pc.delay))
    else if w.pc.TestPending? || w.pc.Drowsy? then w.(early := w.early || m.reconnect)
    else w
  }

  function Do(s: State, e: Event): State
    requires Can(s, e)
  {
    var m, w := s.m, s.w;
    match e
    case Works(ok, command) =>
      State(m.(reconnect := m.reconnect && !ClearsFlag(w.pc)), Work(m, w, ok, command))
    case Updates(changed) =>
      var v := if changed then m.version + 1 else m.version;
      State(m.(version := v, updater := Storing(v, changed)), w)
    case StoresPending =>
      State(m.(pending := m.updater.v, crossed := false,
               updater := if m.updater.changed then Flagging else Notifying,
               starter := if m.starter.Setting? && m.starter.v != m.updater.v then Setting(m.starter.v, true) else m.starter), w)
    case SetsFlag => State(m.(reconnect := true, updater := Notifying), w)
    case UpdateNotifies => State(m.(updater := Calm), NotifyAll(m, w))
    case Requests => State(m.(reconnect := true, notifying := m.notifying + 1), w)
    case Notifies => State(m.(notifying := m.notifying - 1), NotifyAll(m, w))
    case WakesSpuriously => State(m, w.(pc := TestStop(w.pc.delay)))
    case Stops => State(m.(stopping := true, stops := m.stops + 1), w)
    case StopClears => State(m.(reconnect := false, stops := m.stops - 1, notifying := m.notifying + 1), w)
    case StartReads => State(m.(starter := Setting(m.version, false)), w)
    case StartStores =>
      State(m.(pending := m.starter.v, crossed := m.starter.missed, starter := Applying), w)
    case StartApplies => State(m.(starter := Resuming), w.(applied := m.pending))
    case StartResumes => State(m.(stopping := false, starter := Clearing), w)
    case StartClears => State(m.(reconnect := false, starter := Spawning), w)
    case StartSpawns => State(m.(starter := Resting), w.(pc := Loop, sleepy := false, backoff := 0, fails := 0))
  }

  /** ---- Runs ---- */

  function Front(run: seq<Event>): seq<Event>
    requires run != []
  {
    run[..|run| - 1]
  }

  function Last(run: seq<Event>): Event
    requires run != []
  {
    run[|run| - 1]
  }

  ghost predicate Valid(s: State, run: seq<Event>)
    decreases |run|, 0
  {
    run == [] || (Valid(s, Front(run)) && Can(After(s, Front(run)), Last(run)))
  }

  ghost function After(s: State, run: seq<Event>): State
    requires Valid(s, run)
    decreases |run|, 1
  {
    if run == [] then s else Do(After(s, Front(run)), Last(run))
  }

  ghost predicate Reachable(s: State) {
    exists version, run :: Valid(New(version), run) && After(New(version), run) == s
  }

  /** ---- The invariant ---- */

  /** A worker runs, or is being started and pending is stored already. */
  predicate Live(m: Shared, down: bool) {
    !down || (!m.starter.Resting? && !m.starter.Setting?)
  }

  /** Only an announcement in progress, or a start that overwrote one, keeps pending behind. */
  predicate PendingOk(m: Shared, down: bool) {
    && m.pending <= m.version
    && (m.updater.Storing? ==> m.updater.v == m.version)
    && (!m.starter.Resting? ==> down && m.stops == 0)
    && (m.starter.Setting? ==>
          && m.starter.v <= m.version
          && (m.starter.missed ==> m.starter.v < m.version)
          && (!m.starter.missed && !m.updater.Storing? ==> m.starter.v == m.version))
    && (Live(m, down) && !m.updater.Storing? ==> (m.pending == m.version <==> !m.crossed))
    && (Live(m, down) && m.crossed ==> m.pending < m.version)
    && (m.stops > 0 ==> m.stopping)
  }

  /** Holding a connection after a passed check, or sleeping. */
  predicate Settled(pc: Pc) {
    pc.CheckFlag? || pc.Receive? || pc.Send? || pc.Drowsy? || pc.Asleep?
  }

  /** The version applied is one the last attempt could see. */
  predicate AppliedOk(m: Shared, w: Worker) {
    && w.applied <= m.version && w.lookedUp <= m.version
    && (w.pc.Store? ==> w.pc.v <= m.version)
    && (!Heading(w.pc) && !w.pc.Down? ==> w.applied <= w.lookedUp)
  }

  /** After a crossed start the version applied is ahead of the pending one, and the first
      attempt sees the version that was overwritten. */
  predicate CrossedOk(m: Shared, w: Worker) {
    m.crossed ==>
      && !Settled(w.pc)
      && (w.pc.Store? ==> w.pc.v > m.pending)
      && (w.pc.Down? || w.pc.Loop? || w.pc.Bind? || w.pc.Snapshot? || w.pc.Store? || w.applied > m.pending)
      && (w.pc.Down? || Heading(w.pc) || m.updater.Storing? || w.lookedUp == m.version)
  }

  predicate Waiting(pc: Pc) { pc.TestPending? || pc.Drowsy? || pc.Asleep? }

  predicate BackoffOk(w: Worker) {
    w.backoff == w.fails % |DELAYS|
  }

  /** Past the flag test, a flag found set means a notification that came early or is under way;
      and only a stop clears it again. */
  predicate SleepOk(m: Shared, w: Worker) {
    && (Waiting(w.pc) && m.reconnect && !w.early ==> m.notifying > 0 || m.updater.Notifying?)
    && (Waiting(w.pc) && w.early && !m.stopping ==> m.reconnect)
  }

  /** Before, in and after its sleep. */
  predicate Pausing(pc: Pc) { pc.TestStop? || pc.TestFlag? || Waiting(pc) }

  /** The worker knows whether the last command on its connection was SleepyTime, and waits for as
      long as that asks for, or else for the delay of its last retry. */
  predicate HeardOk(w: Worker) {
    && (Conversing(w.pc) ==> (w.sleepy <==> LastHeard(w.heard).SleepyTime?))
    && (w.pc.Heartless? || w.pc.Retry? ==> !LastHeard(w.heard).SleepyTime?)
    && (Pausing(w.pc) ==>
          if LastHeard(w.heard).SleepyTime? then w.pc.delay == SLEEP_RECONNECT_DELAY
          else w.fails > 0 && w.pc.delay == DELAYS[(w.fails - 1) % 6])
  }

  predicate Inv(s: State) {
    && PendingOk(s.m, s.w.pc.Down?) && AppliedOk(s.m, s.w) && CrossedOk(s.m, s.w)
    && BackoffOk(s.w) && SleepOk(s.m, s.w) && HeardOk(s.w)
  }

  lemma HeardMore(heard: seq<Command>, command: Command)
    ensures LastHeard(heard + [command]) == if command.Missing? then LastHeard(heard) else command
  {
    assert (heard + [command])[..|heard|] == heard;
  }

  lemma HeardWork(m: Shared, w: Worker, ok: bool, command: Command)
    requires HeardOk(w) && BackoffOk(w) && !w.pc.Down?
    ensures HeardOk(Work(m, w, ok, command))
  {
    if Heading(w.pc) {
      HeardHead(m, w, ok);
    } else if Conversing(w.pc) {
      HeardConverse(m, w, ok, command);
    } else {
      HeardPause(m, w, ok);
    }
    hide HeardOk, Head, Converse, Pause;
  }

  lemma HeardHead(m: Shared, w: Worker, ok: bool)
    requires Heading(w.pc)
    ensures HeardOk(Head(m, w, ok))
  {
    assert LastHeard([]) == Missing;
    hide LastHeard;
  }

  lemma HeardConverse(m: Shared, w: Worker, ok: bool, command: Command)
    requires HeardOk(w) && Conversing(w.pc)
    ensures HeardOk(Converse(m, w, ok, command))
  {
    HeardMore(w.heard, command);
    hide LastHeard;
  }

  lemma HeardPause(m: Shared, w: Worker, ok: bool)
    requires HeardOk(w) && BackoffOk(w) && !w.pc.Down? && !Heading(w.pc) && !Conversing(w.pc)
    ensures HeardOk(Pause(m, w, ok))
  {
    hide LastHeard;
  }

  lemma ConverseFrame(m: Shared, w: Worker, ok: bool, command: Command)
    requires Conversing(w.pc)
    ensures var w' := Converse(m, w, ok, command);
            && w'.applied == w.applied && w'.lookedUp == w.lookedUp && !w'.pc.Store?
            && w'.fails == w.fails && w'.backoff == w.backoff && !Waiting(w'.pc)
            && w'.exits >= w.exits && w'.lookups == w.lookups
  {
  }

  lemma PauseFrame(m: Shared, w: Worker, ok: bool)
    requires !w.pc.Down? && !Heading(w.pc) && !Conversing(w.pc)
    ensures var w' := Pause(m, w, ok);
            && w'.applied == w.applied && w'.lookedUp == w.lookedUp && !w'.pc.Store?
            && w'.exits >= w.exits && w'.lookups == w.lookups
            && (!w.pc.Retry? ==> w'.fails == w.fails && w'.backoff == w.backoff)
  {
  }

  lemma RetryBackoff(m: Shared, w: Worker, ok: bool)
    requires BackoffOk(w) && w.pc.Retry?
    ensures BackoffOk(Pause(m, w, ok))
  {
  }

  lemma AppliedWork(m: Shared, w: Worker, ok: bool, command: Command)
    requires PendingOk(m, w.pc.Down?) && AppliedOk(m, w) && !w.pc.Down?
    ensures AppliedOk(m, Work(m, w, ok, command))
  {
    hide Converse, Pause;
    if Conversing(w.pc) {
      ConverseFrame(m, w, ok, command);
    } else if !Heading(w.pc) {
      PauseFrame(m, w, ok);
    }
  }

  lemma CrossedConverse(m: Shared, w: Worker, ok: bool, command: Command)
    requires CrossedOk(m, w) && Conversing(w.pc)
    ensures CrossedOk(m, Converse(m, w, ok, command))
  {
  }

  lemma CrossedPause(m: Shared, w: Worker, ok: bool)
    requires CrossedOk(m, w) && !w.pc.Down? && !Heading(w.pc) && !Conversing(w.pc)
    ensures CrossedOk(m, Pause(m, w, ok))
  {
  }

  lemma CrossedWork(m: Shared, w: Worker, ok: bool, command: Command)
    requires PendingOk(m, w.pc.Down?) && CrossedOk(m, w) && !w.pc.Down?
    ensures CrossedOk(m, Work(m, w, ok, command))
  {
    hide Converse, Pause;
    if Conversing(w.pc) {
      CrossedConverse(m, w, ok, command);
    } else if !Heading(w.pc) {
      CrossedPause(m, w, ok);
    }
  }

  lemma BackoffWork(m: Shared, w: Worker, ok: bool, command: Command)
    requires BackoffOk(w) && !w.pc.Down?
    ensures BackoffOk(Work(m, w, ok, command))
  {
    hide Converse, Pause;
    if Conversing(w.pc) {
      ConverseFrame(m, w, ok, command);
    } else if w.pc.Retry? {
      RetryBackoff(m, w, ok);
    } else if !Heading(w.pc) {
      PauseFrame(m, w, ok);
    }
  }

  lemma SleepWork(m: Shared, w: Worker, ok: bool, command: Command)
    requires SleepOk(m, w) && !w.pc.Down?
    ensures SleepOk(m.(reconnect := m.reconnect && !ClearsFlag(w.pc)), Work(m, w, ok, command))
  {
    hide Converse;
    if Conversing(w.pc) {
      ConverseFrame(m, w, ok, command);
    }
  }

  lemma DownStays(m: Shared, w: Worker, ok: bool, command: Command)
    requires PendingOk(m, w.pc.Down?) && !w.pc.Down?
    ensures PendingOk(m, Work(m, w, ok, command).pc.Down?)
  {
  }

  lemma StepKeeps(s: State, e: Event)
    requires Inv(s) && Can(s, e)
    ensures Inv(Do(s, e))
  {
    hide Work;
    if e.Works? {
      DownStays(s.m, s.w, e.ok, e.command);
      AppliedWork(s.m, s.w, e.ok, e.command);
      CrossedWork(s.m, s.w, e.ok, e.command);
      BackoffWork(s.m, s.w, e.ok, e.command);
      SleepWork(s.m, s.w, e.ok, e.command);
      HeardWork(s.m, s.w, e.ok, e.command);
    }
    hide LastHeard;
  }

  lemma {:induction false} RunKeeps(s: State, run: seq<Event>)
    requires Inv(s) && Valid(s, run)
    ensures Inv(After(s, run))
    decreases |run|
  {
    if run != [] {
      RunKeeps(s, Front(run));
      StepKeeps(After(s, Front(run)), Last(run));
    }
  }

  lemma ReachableInv(s: State)
    requires Reachable(s)
    ensures Inv(s)
  {
    var version, run :| Valid(New(version), run) && After(New(version), run) == s;
    RunKeeps(New(version), run);
  }

  /** ---- Discovery updates ---- */

  /** While a worker runs and no announcement is in progress, the session knows the device's
      version, unless the last start overwrote an announcement. */
  lemma PendingIsVersion(s: State)
    requires Reachable(s) && !s.w.pc.Down? && !s.m.updater.Storing?
    ensures s.m.pending == s.m.version <==> !s.m.crossed
  {
    ReachableInv(s);
  }

  /** A session that passes its check has connected with the newest version, even if the
      attempt cleared the flag of an update announced meanwhile. */
  lemma SettledIsNewest(s: State, ok: bool, command: Command)
    requires Reachable(s) && s.w.pc.CheckPending? && !s.m.updater.Storing?
    requires Do(s, Works(ok, command)).w.pc.CheckFlag?
    ensures s.w.applied == s.w.lookedUp == s.m.version
  {
    ReachableInv(s);
  }

  /** After a start that overwrote an announcement, and until the next one, no connection is
      kept and no wait is slept through: the worker connects again and again. */
  lemma CrossedNeverSettles(s: State)
    requires Reachable(s) && s.m.crossed
    ensures !Settled(s.w.pc)
  {
    ReachableInv(s);
  }

  /** ---- Progress ---- */

  /** What presses the worker on: to a new attempt, or to the exit. */
  datatype Pressure = Flag | Version | Stop

  predicate Pressed(s: State, why: Pressure) {
    match why
    case Flag => Heading(s.w.pc) || s.m.reconnect
    case Version => Heading(s.w.pc) || s.m.pending > s.w.applied
    case Stop => s.m.stopping
  }

  /** Steps left to the exit, once stopping. */
  function ToExit(pc: Pc): (n: nat)
    ensures n <= 15
  {
    match pc
    case Down => 0
    case Loop => 1
    case AfterBeats => 1
    case TestStop(_) => 2
    case Beat => 2
    case Asleep(_) => 3
    case Send => 3
    case Drowsy(_) => 4
    case Receive => 4
    case TestPending(_) => 5
    case CheckFlag => 5
    case TestFlag(_) => 6
    case CheckPending => 6
    case Retry => 7
    case Heartless => 8
    case Compare => 9
    case Exchange => 10
    case Lookup => 11
    case Clear => 12
    case Store(_) => 13
    case Snapshot => 14
    case Bind => 15
  }

  /** Steps left to the next attempt, at most, while the pressure lasts. */
  function ToLookup(pc: Pc, why: Pressure): (n: nat)
    ensures n <= 21
  {
    match pc
    case Down => 0
    case Lookup => 1
    case Clear => 2
    case Store(_) => 3
    case Snapshot => 4
    case Bind => 5
    case Loop => 6
    case TestFlag(_) => if why.Flag? then 7 else 8
    case TestStop(_) => if why.Flag? then 8 else 9
    case Asleep(_) => if why.Flag? then 9 else 10
    case Drowsy(_) => if why.Flag? then 10 else 11
    case TestPending(_) => if why.Flag? then 11 else 7
    case Retry => 12
    case Heartless => 13
    case Compare => 14
    case Exchange => 15
    case AfterBeats => 16
    case CheckFlag => if why.Flag? then 17 else 21
    case CheckPending => if why.Flag? then 18 else 17
    case Beat => if why.Flag? then 19 else 18
    case Send => if why.Flag? then 20 else 19
    case Receive => if why.Flag? then 21 else 20
  }

  /** The steps left, in a single measure: a worker told to stop needs no attempt. */
  function Left(s: State, why: Pressure): nat {
    if s.m.stopping then ToExit(s.w.pc) else 16 + ToLookup(s.w.pc, why)
  }

  predicate Served(s: State, s': State, why: Pressure) {
    s'.w.exits > s.w.exits || (!why.Stop? && s'.w.lookups > s.w.lookups)
  }

  /** An attempt began, the worker exited, or the pressure lasts and there is less left to do. */
  predicate Closer(s: State, s': State, why: Pressure, done: nat) {
    || Served(s, s', why)
    || (!s'.w.pc.Down? && (s'.m.stopping || Pressed(s', why)) && Left(s', why) + done <= Left(s, why))
  }

  lemma HeadCloser(m: Shared, w: Worker, ok: bool, why: Pressure)
    requires Heading(w.pc) && (m.stopping || Pressed(State(m, w), why))
    ensures Closer(State(m, w), State(m.(reconnect := m.reconnect && !ClearsFlag(w.pc)), Head(m, w, ok)), why, 1)
  {
  }

  lemma ConverseCloser(m: Shared, w: Worker, ok: bool, command: Command, why: Pressure)
    requires Conversing(w.pc) && (m.stopping || Pressed(State(m, w), why))
    ensures Closer(State(m, w), State(m.(reconnect := m.reconnect && !ClearsFlag(w.pc)), Converse(m, w, ok, command)), why, 1)
  {
  }

  lemma PauseCloser(m: Shared, w: Worker, ok: bool, why: Pressure)
    requires !w.pc.Down? && !Heading(w.pc) && !Conversing(w.pc) && (m.stopping || Pressed(State(m, w), why))
    ensures Closer(State(m, w), State(m, Pause(m, w, ok)), why, 1)
  {
  }

  /** Worker steps bring the attempt or the exit nearer, all others leave it as near as it was. */
  lemma Nearer(s: State, e: Event, why: Pressure)
    requires Inv(s) && Can(s, e) && !s.w.pc.Down? && (s.m.stopping || Pressed(s, why))
    ensures Closer(s, Do(s, e), why, if e.Works? then 1 else 0)
  {
    hide Head, Converse, Pause;
    if e.Works? {
      if Heading(s.w.pc) {
        HeadCloser(s.m, s.w, e.ok, why);
      } else if Conversing(s.w.pc) {
        ConverseCloser(s.m, s.w, e.ok, e.command, why);
      } else {
        PauseCloser(s.m, s.w, e.ok, why);
      }
    }
  }

  function WorkerSteps(run: seq<Event>): nat
    decreases |run|
  {
    if run == [] then 0 else WorkerSteps(Front(run)) + if Last(run).Works? then 1 else 0
  }

  lemma CountersGrow(s: State, e: Event)
    requires Can(s, e)
    ensures Do(s, e).w.exits >= s.w.exits && Do(s, e).w.lookups >= s.w.lookups
  {
    hide Converse, Pause;
    if e.Works? && Conversing(s.w.pc) {
      ConverseFrame(s.m, s.w, e.ok, e.command);
    } else if e.Works? && !Heading(s.w.pc) {
      PauseFrame(s.m, s.w, e.ok);
    }
  }

  lemma LookedUpStep(s: State, e: Event)
    requires Inv(s) && Can(s, e)
    ensures Do(s, e).m.version >= s.m.version && Do(s, e).w.lookedUp >= s.w.lookedUp
    ensures Do(s, e).w.lookups > s.w.lookups ==> Do(s, e).w.lookedUp == s.m.version
  {
    hide Converse, Pause;
    if e.Works? && Conversing(s.w.pc) {
      ConverseFrame(s.m, s.w, e.ok, e.command);
    } else if e.Works? && !Heading(s.w.pc) {
      PauseFrame(s.m, s.w, e.ok);
    }
  }

  /** lookedUp never exceeds the version and never goes back. */
  lemma {:induction false} LookedUpGrows(s: State, run: seq<Event>)
    requires Inv(s) && Valid(s, run)
    ensures After(s, run).m.version >= s.m.version && After(s, run).w.lookedUp >= s.w.lookedUp
    ensures After(s, run).w.lookups >= s.w.lookups && After(s, run).w.exits >= s.w.exits
    ensures After(s, run).w.lookups > s.w.lookups ==> After(s, run).w.lookedUp >= s.m.version
    decreases |run|
  {
    if run != [] {
      hide Converse, Pause, Inv;
      LookedUpGrows(s, Front(run));
      RunKeeps(s, Front(run));
      var t, e := After(s, Front(run)), Last(run);
      CountersGrow(t, e);
      LookedUpStep(t, e);
    }
  }

  /** Over any run: served, or nearer by every step the worker made. */
  lemma {:induction false} RunServes(s: State, run: seq<Event>, why: Pressure)
    requires Inv(s) && Valid(s, run) && !s.w.pc.Down? && (s.m.stopping || Pressed(s, why))
    ensures Closer(s, After(s, run), why, WorkerSteps(run))
    decreases |run|
  {
    if run != [] {
      hide Do, Pressed, ToExit, ToLookup, Inv;
      RunServes(s, Front(run), why);
      RunKeeps(s, Front(run));
      LookedUpGrows(s, Front(run));
      var t := After(s, Front(run));
      CountersGrow(t, Last(run));
      if !Served(s, t, why) {
        Nearer(t, Last(run), why);
      }
    }
  }

  const ENOUGH: nat := 38

  /** Whenever the reconnect flag is set, a new attempt begins, or the worker exits, within a
      fixed number of worker steps, whatever the others do meanwhile. */
  lemma RequestServed(s: State, run: seq<Event>)
    requires Reachable(s) && !s.w.pc.Down? && s.m.reconnect
    requires Valid(s, run) && WorkerSteps(run) >= ENOUGH
    ensures After(s, run).w.lookups > s.w.lookups || After(s, run).w.exits > s.w.exits
  {
    hide Reachable, Inv, ToExit, ToLookup;
    ReachableInv(s);
    RunServes(s, run, Flag);
  }

  /** Every update announced in full is seen: an attempt that began after it is made within a
      fixed number of worker steps, or the worker exits. */
  lemma UpdateSeen(s: State, run: seq<Event>)
    requires Reachable(s) && !s.w.pc.Down? && !s.m.updater.Storing?
    requires Valid(s, run) && WorkerSteps(run) >= ENOUGH
    ensures After(s, run).w.lookedUp >= s.m.version || After(s, run).w.exits > s.w.exits
  {
    hide Reachable;
    ReachableInv(s);
    LookedUpGrows(s, run);
    if s.w.lookedUp < s.m.version {
      RunServes(s, run, Version);
    }
  }

  /** A worker told to stop exits. */
  lemma StopHonoured(s: State, run: seq<Event>)
    requires Reachable(s) && !s.w.pc.Down? && s.m.stopping
    requires Valid(s, run) && WorkerSteps(run) >= ENOUGH
    ensures After(s, run).w.exits > s.w.exits
  {
    hide Reachable, Inv, ToExit, ToLookup;
    ReachableInv(s);
    RunServes(s, run, Stop);
  }

  /** The k-th retry since the last connection waits entry k mod 6 of the table. */
  lemma RetryDelay(s: State, command: Command)
    requires Reachable(s) && s.w.pc.Retry?
    ensures Do(s, Works(true, command)).w.pc == TestStop(DELAYS[s.w.fails % 6])
    ensures Do(s, Works(true, command)).w.fails == s.w.fails + 1
  {
    ReachableInv(s);
  }

  /** ---- What the worker decides ---- */

  /** The heartbeat loop is left exactly if it is found to be time to stop, another version is
      pending, the flag is set, or a heartbeat is not received or not answered. */
  lemma LeavesExactly(s: State, ok: bool, command: Command)
    requires Reachable(s) && Conversing(s.w.pc) && !s.w.pc.AfterBeats? && !s.w.pc.Exchange? && !s.w.pc.Compare?
    ensures Do(s, Works(ok, command)).w.pc.AfterBeats? <==>
            match s.w.pc
            case Beat => s.m.stopping
            case CheckPending => s.m.pending != s.w.applied
            case CheckFlag => s.m.reconnect
            case _ => !ok
    ensures Do(s, Works(ok, command)).w.heard == s.w.heard + if s.w.pc.Receive? && ok then [command] else []
  {
  }

  /** What a lost connection leads to: the wait of 60 s exactly if no other version is pending and
      the last command heard on it was SleepyTime, giving the device up exactly if it was not, and
      otherwise the next attempt at once, also if the flag was set. */
  lemma ConnectionLost(s: State, ok: bool, command: Command)
    requires Reachable(s) && (s.w.pc.Exchange? || s.w.pc.Compare?)
    ensures var pc := Do(s, Works(ok, command)).w.pc;
            && (pc.TestStop? <==> s.w.pc.Compare? && s.m.pending == s.w.applied && LastHeard(s.w.heard).SleepyTime?)
            && (pc.TestStop? ==> pc.delay == 60)
            && (pc.Heartless? <==> s.w.pc.Compare? && s.m.pending == s.w.applied && !LastHeard(s.w.heard).SleepyTime?)
            && (pc.Loop? <==> (s.w.pc.Exchange? && s.m.reconnect) || (s.w.pc.Compare? && s.m.pending != s.w.applied))
    ensures s.w.pc.Exchange? ==> !Do(s, Works(ok, command)).m.reconnect
  {
    hide Reachable;
    ReachableInv(s);
    hide LastHeard;
  }

  /** The same for a worker nobody interferes with, from the end of its heartbeats on. */
  lemma ConnectionLostAlone(s: State, ok: bool, command: Command)
    requires Reachable(s) && s.w.pc.AfterBeats?
    ensures var s1 := Do(s, Works(ok, command));
            if s.m.stopping then s1.w.pc.Down? && s1.w.exits == s.w.exits + 1
            else
              && s1.w.pc.Exchange?
              && var s2 := Do(s1, Works(ok, command));
                 if s.m.reconnect then s2.w.pc.Loop?
                 else
                   && s2.w.pc.Compare?
                   && Do(s2, Works(ok, command)).w.pc ==
                      if s.m.pending != s.w.applied then Loop
                      else if LastHeard(s.w.heard).SleepyTime? then TestStop(60) else Heartless
  {
    hide Reachable;
    ReachableInv(s);
    hide LastHeard;
  }

  /** The flag is cleared by the worker exactly before an attempt and when a connection is lost. */
  lemma FlagCleared(s: State, ok: bool, command: Command)
    requires Reachable(s) && !s.w.pc.Down?
    ensures Do(s, Works(ok, command)).m == s.m.(reconnect := s.m.reconnect && !s.w.pc.Clear? && !s.w.pc.Exchange?)
  {
  }

  /** A round nobody interferes with: unless it is time to stop, the newest version is taken, the
      flag is cleared, and the attempt is made. */
  lemma AttemptAlone(s: State)
    requires Reachable(s) && s.w.pc.Loop? && !s.m.stopping
    ensures var run := seq(5, _ => Works(true, Missing));
            && Valid(s, run) && After(s, run).w.pc.Lookup?
            && After(s, run).w.applied == s.m.version && After(s, run).m == s.m.(reconnect := false)
  {
    hide Reachable, Converse, Pause;
    var run := [];
    for k := 0 to 5
      invariant run == seq(k, _ => Works(true, Missing)) && Valid(s, run)
      invariant After(s, run).w.pc == [Loop, Bind, Snapshot, Store(s.m.version), Clear, Lookup][k]
      invariant After(s, run).m == s.m.(reconnect := s.m.reconnect && k < 5) && (k >= 4 ==> After(s, run).w.applied == s.m.version)
    {
      var longer := run + [Works(true, Missing)];
      assert Front(longer) == run && Last(longer) == Works(true, Missing);
      run := longer;
    }
  }

  /** An attempt that fails gives the device up, one that succeeds starts the heartbeats anew. */
  lemma Attempted(s: State, ok: bool, command: Command)
    requires Reachable(s) && s.w.pc.Lookup?
    ensures var w := Do(s, Works(ok, command)).w;
            && w.lookups == s.w.lookups + 1 && w.lookedUp == s.m.version && w.heard == []
            && (w.pc.Beat? <==> ok) && (w.pc.Heartless? <==> !ok) && (ok ==> w.fails == 0 && !w.sleepy)
  {
  }

  /** The worker exits exactly if it is to stop, the device is gone, heartless devices are not
      allowed, or retries are not; in the third case the device is removed. */
  lemma ExitsExactly(s: State, ok: bool, command: Command)
    requires Reachable(s) && !s.w.pc.Down?
    ensures var w := Do(s, Works(ok, command)).w;
            && (w.pc.Down? <==> w.exits > s.w.exits)
            && (w.pc.Down? <==> ((s.w.pc.Loop? || s.w.pc.AfterBeats?) && s.m.stopping)
                                || ((s.w.pc.Bind? || s.w.pc.Heartless? || s.w.pc.Retry?) && !ok))
            && w.removals == s.w.removals + if s.w.pc.Heartless? && !ok then 1 else 0
  {
    if Heading(s.w.pc) {
      HeadExits(s.m, s.w, ok);
    } else if Conversing(s.w.pc) {
      ConverseExits(s.m, s.w, ok, command);
    } else {
      PauseExits(s.m, s.w, ok);
    }
    hide Head, Converse, Pause;
  }

  lemma HeadExits(m: Shared, w: Worker, ok: bool)
    requires Heading(w.pc)
    ensures var w' := Head(m, w, ok);
            && w'.exits == w.exits + (if w'.pc.Down? then 1 else 0) && w'.removals == w.removals
            && (w'.pc.Down? <==> (w.pc.Loop? && m.stopping) || (w.pc.Bind? && !ok))
  {
  }

  lemma ConverseExits(m: Shared, w: Worker, ok: bool, command: Command)
    requires Conversing(w.pc)
    ensures var w' := Converse(m, w, ok, command);
            && w'.exits == w.exits + (if w'.pc.Down? then 1 else 0) && w'.removals == w.removals
            && (w'.pc.Down? <==> w.pc.AfterBeats? && m.stopping)
  {
  }

  lemma PauseExits(m: Shared, w: Worker, ok: bool)
    requires !w.pc.Down? && !Heading(w.pc) && !Conversing(w.pc)
    ensures var w' := Pause(m, w, ok);
            && w'.exits == w.exits + (if w'.pc.Down? then 1 else 0)
            && w'.removals == w.removals + (if w.pc.Heartless? && !ok then 1 else 0)
            && (w'.pc.Down? <==> (w.pc.Heartless? || w.pc.Retry?) && !ok)
  {
  }

  /** A worker in its pause waits for 60 s if the last command heard was SleepyTime, and otherwise
      for the delay of its last retry. */
  lemma PauseDelay(s: State)
    requires Reachable(s) && Pausing(s.w.pc)
    ensures s.w.pc.delay == if LastHeard(s.w.heard).SleepyTime? then 60
                            else if s.w.fails > 0 then [1, 2, 4, 8, 16, 30][(s.w.fails - 1) % 6] else 0
    ensures s.w.fails > 0 || LastHeard(s.w.heard).SleepyTime?
  {
    hide Reachable;
    ReachableInv(s);
    hide LastHeard;
  }

  /** A pause ends exactly if it is found to be time to stop, the flag is set, another version is
      pending, or the delay is over. */
  lemma PauseEnds(s: State, ok: bool, command: Command)
    requires Reachable(s) && Pausing(s.w.pc)
    ensures Do(s, Works(ok, command)).w.pc.Loop? <==>
            match s.w.pc
            case TestStop(_) => s.m.stopping
            case TestFlag(_) => s.m.reconnect
            case TestPending(_) => s.m.pending != s.w.applied
            case Drowsy(_) => false
            case _ => true
    ensures !Do(s, Works(ok, command)).w.pc.Loop? ==>
              && Pausing(Do(s, Works(ok, command)).w.pc)
              && (Do(s, Works(ok, command)).w.pc.Asleep? <==> s.w.pc.Drowsy?)
  {
  }

  /** What the callers do when nobody interferes: an update raises the version exactly if the
      information changed, announces it, and then asks for a reconnect; a request sets the flag; a
      stop sets its own and clears the other. Each ends with the worker awake. */
  lemma CallersAlone(s: State, changed: bool)
    requires Reachable(s) && s.m.starter.Resting?
    ensures s.m.updater.Calm? ==>
              var t := Do(Do(s, Updates(changed)), StoresPending);
              var u := if changed then Do(t, SetsFlag) else t;
              var v := Do(u, UpdateNotifies);
              && v.m.version == v.m.pending == s.m.version + (if changed then 1 else 0) && v.m.updater.Calm?
              && v.m.reconnect == (s.m.reconnect || changed) && v.m.stopping == s.m.stopping
              && !v.w.pc.Asleep? && (!s.w.pc.Asleep? ==> v.w.pc == s.w.pc)
    ensures var v := Do(Do(s, Requests), Notifies);
            v.m == s.m.(reconnect := true) && !v.w.pc.Asleep? && (!s.w.pc.Asleep? ==> v.w.pc == s.w.pc)
    ensures var v := Do(Do(Do(s, Stops), StopClears), Notifies);
            v.m == s.m.(reconnect := false, stopping := true) && !v.w.pc.Asleep? && (!s.w.pc.Asleep? ==> v.w.pc == s.w.pc)
  {
  }

  /** ---- Two races ---- */

  lemma ReachableStep(s: State, e: Event)
    requires Reachable(s) && Can(s, e)
    ensures Reachable(Do(s, e))
  {
    var version, run :| Valid(New(version), run) && After(New(version), run) == s;
    var longer := run + [e];
    assert Front(longer) == run && Last(longer) == e;
    assert Valid(New(version), longer);
  }

  lemma NewReachable(version: nat)
    ensures Reachable(New(version))
  {
    assert Valid(New(version), []) && After(New(version), []) == New(version);
  }

  /** A start can overwrite an announcement: the version is read, an update is announced in
      full, and then the old version is stored. */
  lemma CrossedReachable(version: nat) returns (s: State)
    ensures Reachable(s) && s.m.crossed && s.w.pc.Loop? && s.m.updater.Calm?
    ensures s.m.version == version + 1 && s.m.pending == version
  {
    hide Reachable;
    s := New(version);
    NewReachable(version);
    ReachableStep(s, StartReads);
    s := Do(s, StartReads);
    ReachableStep(s, Updates(true));
    s := Do(s, Updates(true));
    ReachableStep(s, StoresPending);
    s := Do(s, StoresPending);
    ReachableStep(s, SetsFlag);
    s := Do(s, SetsFlag);
    ReachableStep(s, UpdateNotifies);
    s := Do(s, UpdateNotifies);
    s := StartRest(s);
  }

  /** The rest of a start that nothing interrupts. */
  lemma StartRest(s: State) returns (t: State)
    requires Reachable(s) && s.m.starter.Setting?
    ensures Reachable(t)
    ensures t == State(s.m.(pending := s.m.starter.v, stopping := false, reconnect := false,
                            crossed := s.m.starter.missed, starter := Resting),
                       s.w.(applied := s.m.starter.v, pc := Loop, sleepy := false, backoff := 0, fails := 0))
  {
    hide Reachable;
    ReachableStep(s, StartStores);
    t := Do(s, StartStores);
    ReachableStep(t, StartApplies);
    t := Do(t, StartApplies);
    ReachableStep(t, StartResumes);
    t := Do(t, StartResumes);
    ReachableStep(t, StartClears);
    t := Do(t, StartClears);
    ReachableStep(t, StartSpawns);
    t := Do(t, StartSpawns);
  }

  /** When the worker sleeps, is not to stop, and nobody is left to wake it, the flag is set if
      and only if a notify_all ran with the flag set between the worker's flag test and its
      sleep. */
  lemma AsleepFlaggedExactly(s: State)
    requires Reachable(s) && s.w.pc.Asleep? && !s.m.stopping
    requires s.m.notifying == 0 && !s.m.updater.Notifying?
    ensures s.m.reconnect <==> s.w.early
  {
    ReachableInv(s);
  }

  /** A worker whose first attempt failed, in its wait and past the flag test. */
  function Tested(version: nat): State {
    State(Shared(version, version, false, false, Calm, Resting, 0, 0, false),
          Worker(TestPending(1), version, false, 1, 1, 0, version, 1, false, [], 0))
  }

  lemma TestedReachable(version: nat)
    ensures Reachable(Tested(version))
  {
    hide Reachable;
    var s := New(version);
    NewReachable(version);
    ReachableStep(s, StartReads);
    s := Do(s, StartReads);
    s := StartRest(s);
    for k := 0 to 5
      invariant Reachable(s) && s.m == Tested(version).m
      invariant s.w == Worker([Loop, Bind, Snapshot, Store(version), Clear, Lookup][k], version, false, 0, 0, 0, 0, 0, false, [], 0)
    {
      ReachableStep(s, Works(true, Missing));
      s := Do(s, Works(true, Missing));
    }
    ReachableStep(s, Works(false, Missing));
    s := Do(s, Works(false, Missing));
    for k := 0 to 4
      invariant Reachable(s) && s.m == Tested(version).m
      invariant s.w == Worker([Heartless, Retry, TestStop(1), TestFlag(1), TestPending(1)][k], version, false,
                              if k < 2 then 0 else 1, 1, 0, version, if k < 2 then 0 else 1, false, [], 0)
    {
      ReachableStep(s, Works(true, Missing));
      s := Do(s, Works(true, Missing));
    }
  }

  /** That happens: a request right after the flag test is slept through. Only the end of the
      delay, or another notification, wakes the worker. */
  lemma FlagSleptThrough(version: nat) returns (s: State)
    ensures Reachable(s) && s.w.pc == Asleep(1) && s.m.reconnect && !s.m.stopping
    ensures s.m.notifying == 0 && s.m.updater.Calm?
  {
    hide Reachable;
    s := Tested(version);
    TestedReachable(version);
    ReachableStep(s, Requests);
    s := Do(s, Requests);
    ReachableStep(s, Notifies);
    s := Do(s, Notifies);
    ReachableStep(s, Works(true, Missing));
    s := Do(s, Works(true, Missing));
    ReachableStep(s, Works(true, Missing));
    s := Do(s, Works(true, Missing));
  }
}
