/** N receiver threads, each driving one USB transfer, as a state machine whose
    steps are the critical sections of the code. A receiver's constructor is its
    program counter. Waiting is by ticket: getNextEvent gives counter + 1, a thread
    sleeps while counter < ticket, notifyAll increments the counter. */
module Receivers {
  import opened Wrapping
  import opened Packets
  import opened Holdings
  import opened Connection

  /** Failed and Lost are threads ended by an exception; Lost took a payload with it that had
      been admitted and is never handed on. */
  datatype Receiver =
    | Idle
    | Taken(i: nat)
    | MuxWait(i: nat, ticket: nat)
    | Past(i: nat)
    | LookedUp(i: nat, c: nat)
    | AckWait(i: nat, c: nat, ticket: nat)
    | AckRetry(i: nat, c: nat)
    | Admitted(i: nat, c: nat)
    | FwdWait(i: nat, c: nat, ticket: nat)
    | Failed(i: nat)
    | Lost(i: nat, c: nat)

  predicate IsEnded(rc: Receiver) { rc.Failed? || rc.Lost? }

  function HoldOf(rc: Receiver): Hold {
    match rc
    case Idle => Free
    case Taken(i) => Pre(i)
    case MuxWait(i, _) => Pre(i)
    case Past(i) => AckTurn(i)
    case LookedUp(i, _) => AckTurn(i)
    case AckWait(i, _, _) => AckTurn(i)
    case AckRetry(i, _) => AckTurn(i)
    case Admitted(i, _) => FwdTurn(i)
    case FwdWait(i, _, _) => FwdTurn(i)
    case Failed(i) => Free
    case Lost(i, _) => FwdTurn(i)
  }

  function HoldsOf(rs: seq<Receiver>): seq<Hold> {
    seq(|rs|, r requires 0 <= r < |rs| => HoldOf(rs[r]))
  }

  lemma HoldsUpdate(rs: seq<Receiver>, r: nat, rc: Receiver)
    requires r < |rs|
    ensures HoldsOf(rs[r := rc]) == HoldsOf(rs)[r := HoldOf(rc)]
  {
  }

  /** stream: everything the device has sent, in order; the packets from |owner| on are
      still in the queue of arrived transfers. accepted and owner are history.
      conns maps a port to a position in tcp, where connections are kept for good. The reaper
      is inside while it tears down the connection on a port, with the map locked. rejections
      is history: acknowledgements rejected in the middle of a section. */
  datatype Reaper = Away | Inside(port: u16)

  datatype State = State(stream: seq<Packet>, owner: seq<nat>, accepted: nat,
                         rxSeq: u16, dataIn: nat, rs: seq<Receiver>,
                         conns: map<u16, nat>, tcp: seq<Conn>, reaper: Reaper, rejections: nat)

  function LedgerOf(s: State): Ledger {
    Ledger(s.stream, s.accepted, s.owner, HoldsOf(s.rs))
  }

  /** After SETUP: rx_seq is 0xffff, nothing has arrived, all receivers are idle. */
  function Start(n: nat): State {
    State([], [], 0, 0xffff, 0, seq(n, _ => Idle), map[], [], Away, 0)
  }

  /** A connection not yet torn down is the one its port leads to. */
  ghost predicate Listed(s: State, c: nat)
    requires c < |s.tcp|
  {
    !s.tcp[c].status.Dying? ==> s.tcp[c].sport in s.conns && s.conns[s.tcp[c].sport] == c
  }

  /** ---- The mux turn of device_data_input ---- */

  datatype MuxTurn = MuxAccept | MuxSleep | MuxDrop

  /** What the wait guard comes to, with e the expected and t the packet's number. */
  predicate MuxBlocks(e: u16, t: u16, n: nat) {
    e < t || e + n >= 0x1_0000
  }

  function MuxLoop(e: u16, t: u16, n: nat): MuxTurn {
    if MuxBlocks(e, t, n) then MuxSleep else if e == t then MuxAccept else MuxDrop
  }

  /** A packet that matches on entry never tests the loop guard. */
  function MuxEntry(e: u16, t: u16, n: nat): MuxTurn {
    if e == t then MuxAccept else MuxLoop(e, t, n)
  }

  function Expected(s: State): u16 { Wrap16(s.rxSeq + 1) }

  /** ---- Steps ---- */

  datatype Event =
    | DeviceSends(p: Packet)
    | Opens(port: u16, iss: u32)
    | Enters(port: u16)
    | Dies(port: u16)
    | Closes(port: u16)
    | SenderSends(c: nat, len: nat, rejected: bool)
    | Announces(c: nat)
    | Takes(r: nat)
    | Runs(r: nat, mode: AckMode)

  /** The device numbers its packets consecutively, addresses them to a connection that
      owns its port, sends data only once the handshake is through, in stream order, and
      only with the plain ACK flag; until then it answers with SYN/ACK or RST. */
  ghost predicate WellFormed(s: State, p: Packet) {
    && p.txSeq == Wrap16(|s.stream|)
    && |p.payload| <= USB_MRU && (p.kind.Control? || IsTcp(p.kind))
    && (!p.kind.Ack? ==> p.payload == [])
    && (IsTcp(p.kind) ==>
          && p.cid < |s.tcp| && p.port == s.tcp[p.cid].sport
          && (p.port in s.conns ==> s.conns[p.port] == p.cid))
    && (p.kind.Other? ==> s.tcp[p.cid].established)
    && (p.kind.Ack? ==>
          && s.tcp[p.cid].established
          && p.seqNo == Wrap32(s.tcp[p.cid].base + Off(s.stream, p.cid, |s.stream|)))
  }

  /** Packet i still has its connection looked up in the future. */
  ghost predicate Unresolved(s: State, i: nat)
    requires i < |s.stream|
  {
    i >= s.accepted || i >= |s.owner| || s.owner[i] >= |s.rs| || s.rs[s.owner[i]] == Past(i)
  }

  predicate Sleeping(s: State, r: nat)
    requires r < |s.rs|
  {
    match s.rs[r]
    case MuxWait(_, ticket) => s.dataIn < ticket
    case AckWait(_, c, ticket) => c < |s.tcp| && s.tcp[c].canSend < ticket
    case FwdWait(_, c, ticket) => c < |s.tcp| && s.tcp[c].canClientSend < ticket
    case _ => false
  }

  /** The receiver needs a lock that somebody else holds between his steps. */
  predicate LockedOut(s: State, r: nat)
    requires r < |s.rs| && !s.rs[r].Idle?
    requires s.rs[r].i < |s.stream| && (s.rs[r].LookedUp? || s.rs[r].AckRetry? ==> s.rs[r].c < |s.tcp|)
  {
    || (s.rs[r].Past? && IsTcp(s.stream[s.rs[r].i].kind) && s.reaper.Inside?)
    || ((s.rs[r].LookedUp? || s.rs[r].AckRetry?) && s.tcp[s.rs[r].c].held)
  }

  /** What the program can do in s; the device may send anything. The reaper tears a
      connection down once, and a sender may emit after that. A lookup and an insertion need
      the map, and the sections under _lockStx need that lock. */
  ghost predicate Possible(s: State, e: Event) {
    match e
    case DeviceSends(_) => true
    case Opens(port, _) => port != 0 && port !in s.conns && s.reaper.Away?
    case Enters(port) => port in s.conns && s.reaper.Away?
    case Dies(port) =>
      && s.reaper == Inside(port) && port in s.conns && s.conns[port] < |s.tcp|
      && !s.tcp[s.conns[port]].status.Dying? && !s.tcp[s.conns[port]].held
    case Closes(port) =>
      && s.reaper == Inside(port) && port in s.conns && s.conns[port] < |s.tcp|
      && s.tcp[s.conns[port]].status.Dying?
    case SenderSends(c, _, _) => c < |s.tcp| && s.tcp[c].established && !s.tcp[c].held
    case Announces(c) => c < |s.tcp| && s.tcp[c].established && !s.tcp[c].held
    case Takes(r) => r < |s.rs| && s.rs[r].Idle? && |s.owner| < |s.stream|
    case Runs(r, _) =>
      && r < |s.rs| && !s.rs[r].Idle? && !s.rs[r].Failed? && !s.rs[r].Lost? && !Sleeping(s, r)
      && s.rs[r].i < |s.stream|
      && (s.rs[r].LookedUp? || s.rs[r].AckWait? || s.rs[r].AckRetry? || s.rs[r].Admitted? || s.rs[r].FwdWait?
          ==> s.rs[r].c < |s.tcp|)
      && !LockedOut(s, r)
  }

  /** The hypotheses: the device keeps to the protocol, and when a port is opened no packet for
      an earlier connection on it is under way. */
  ghost predicate Orderly(s: State, e: Event) {
    match e
    case DeviceSends(p) => WellFormed(s, p)
    case Opens(port, _) =>
      forall i :: 0 <= i < |s.stream| && Unresolved(s, i) && IsTcp(s.stream[i].kind) ==> s.stream[i].port != port
    case _ => true
  }

  ghost predicate Can(s: State, e: Event) { Possible(s, e) && Orderly(s, e) }

  function AfterMux(s: State, r: nat, turn: MuxTurn): State
    requires r < |s.rs| && !s.rs[r].Idle? && s.rs[r].i < |s.stream|
  {
    var i := s.rs[r].i;
    match turn
    case MuxSleep => s.(rs := s.rs[r := MuxWait(i, s.dataIn + 1)])
    case MuxDrop => s.(rs := s.rs[r := Idle], dataIn := s.dataIn + 1)
    case MuxAccept =>
      s.(rs := s.rs[r := Past(i)], dataIn := s.dataIn + 1,
         rxSeq := s.stream[i].txSeq, accepted := s.accepted + 1)
  }

  /** What is malformed is thrown out before the turn, and its number is not counted. */
  function AfterTaken(s: State, r: nat): State
    requires r < |s.rs| && s.rs[r].Taken? && s.rs[r].i < |s.stream|
  {
    var p := s.stream[s.rs[r].i];
    if p.kind.Malformed? then s.(rs := s.rs[r := Failed(s.rs[r].i)])
    else AfterMux(s, r, MuxEntry(Expected(s), p.txSeq, |s.rs|))
  }

  /** Without a connection on the port the code answers with a reset and is done. A version
      packet on an active device is thrown out, as is one that is too short. */
  function AfterLookup(s: State, r: nat): State
    requires r < |s.rs| && !s.rs[r].Idle? && s.rs[r].i < |s.stream|
  {
    var i := s.rs[r].i;
    var p := s.stream[i];
    if p.kind.Version? || p.kind.Short? then s.(rs := s.rs[r := Failed(i)])
    else if IsTcp(p.kind) && p.port in s.conns
    then s.(rs := s.rs[r := LookedUp(i, s.conns[p.port])])
    else s.(rs := s.rs[r := Idle])
  }

  function AfterInput(s: State, r: nat, c: nat, out: (Conn, Turn)): State
    requires r < |s.rs| && !s.rs[r].Idle? && c < |s.tcp|
  {
    var i := s.rs[r].i;
    s.(tcp := s.tcp[c := out.0],
       rs := s.rs[r := match out.1
                       case Asleep(ticket) => AckWait(i, c, ticket)
                       case Forward => Admitted(i, c)
                       case Finished => Idle
                       case Faulted => Failed(i)
                       case Unanswered => Failed(i)
                       case Dropped => Lost(i, c)],
       rejections := s.rejections + if out.1.Unanswered? || out.1.Dropped? then 1 else 0)
  }

  function AfterForward(s: State, r: nat, c: nat, out: (Conn, Turn)): State
    requires r < |s.rs| && !s.rs[r].Idle? && c < |s.tcp|
  {
    var i := s.rs[r].i;
    s.(tcp := s.tcp[c := out.0],
       rs := s.rs[r := if out.1.Asleep? then FwdWait(i, c, out.1.ticket) else Idle])
  }

  /** A woken thread reads the connection state without the lock before it retries. */
  function AfterWake(s: State, r: nat, c: nat, retry: Receiver): State
    requires r < |s.rs| && c < |s.tcp|
  {
    s.(rs := s.rs[r := if s.tcp[c].status.Connected? then retry else Idle])
  }

  ghost function Do(s: State, e: Event): State
    requires Possible(s, e)
  {
    match e
    case DeviceSends(p) => s.(stream := s.stream + [p])
    case Opens(port, iss) => s.(conns := s.conns[port := |s.tcp|], tcp := s.tcp + [Fresh(port, iss)])
    case Enters(port) => s.(reaper := Inside(port))
    case Dies(port) => s.(tcp := s.tcp[s.conns[port] := Die(s.tcp[s.conns[port]])])
    case Closes(port) =>
      s.(tcp := s.tcp[s.conns[port] := WakeForwarders(s.tcp[s.conns[port]])], conns := s.conns - {port}, reaper := Away)
    case SenderSends(c, len, rejected) =>
      s.(tcp := s.tcp[c := if rejected then SendRejected(s.tcp[c], len) else SendSegment(s.tcp[c], len)])
    case Announces(c) => s.(tcp := s.tcp[c := Announce(s.tcp[c])])
    case Takes(r) => s.(rs := s.rs[r := Taken(|s.owner|)], owner := s.owner + [r])
    case Runs(r, mode) =>
      match s.rs[r]
      case Taken(i) => AfterTaken(s, r)
      case MuxWait(i, _) => AfterMux(s, r, MuxLoop(Expected(s), s.stream[i].txSeq, |s.rs|))
      case Past(i) => AfterLookup(s, r)
      case LookedUp(i, c) => AfterInput(s, r, c, InputSection(s.tcp[c], s.stream[i], mode))
      case AckWait(i, c, _) => AfterWake(s, r, c, AckRetry(i, c))
      case AckRetry(i, c) => AfterInput(s, r, c, AckSection(s.tcp[c], s.stream[i], mode))
      case Admitted(i, c) => AfterForward(s, r, c, ForwardSection(s.tcp[c], s.stream[i]))
      case FwdWait(i, c, _) => AfterWake(s, r, c, Admitted(i, c))
  }

  /** ---- Runs: every interleaving is a sequence of events ---- */

  ghost predicate Valid(s: State, run: seq<Event>)
    decreases |run|, 0
  {
    run == [] || (Valid(s, Front(run)) && Can(After(s, Front(run)), Last(run)))
  }

  ghost function After(s: State, run: seq<Event>): State
    requires Valid(s, run)
    decreases |run|, 1
  {
    if run == [] then s else Do(After(s, Front(run)), Last(run))
  }

  function Front(run: seq<Event>): seq<Event>
    requires run != []
  {
    run[..|run| - 1]
  }

  function Last(run: seq<Event>): Event
    requires run != []
  {
    run[|run| - 1]
  }

  /** The code runs NUM_RX_LOOPS = 3 receivers, or fewer when some fail to start. */
  ghost predicate Reachable(n: nat, s: State) {
    && 0 < n < 0x1_0000
    && exists run :: Valid(Start(n), run) && After(Start(n), run) == s
  }
}
