/** The device object: the mux turn, port allocation, packet building and the reaper. */
module UsbDeviceObject {
  import opened Wrapping
  import opened Sending
  import opened Framing
  import opened UsbTransfer
  import opened Receivers
  import opened TcpConnection

  /** The guard of the wait loop as it is written, with the casts to 16 bits spelled out. */
  predicate WaitGuard(rxSeq: u16, txSeq: u16, n: nat) {
    Wrap16(rxSeq + 1) < txSeq || Wrap16(rxSeq + 1 + n) < txSeq + n
  }

  /** What it comes to: every number is waited for in the band of n before the wrap. */
  lemma WaitGuardMeans(rxSeq: u16, txSeq: u16, n: nat)
    requires n < 0x1_0000
    ensures WaitGuard(rxSeq, txSeq, n) <==> MuxBlocks(Wrap16(rxSeq + 1), txSeq, n)
  {
  }

  /** ---- Ports ---- */

  /** How far port q lies behind port start, going up and around. */
  function Ahead(start: u16, q: u16): nat {
    if q >= start then q - start else 0x1_0000 + q - start
  }

  predicate Usable(taken: set<u16>, q: u16) { q != 0 && q !in taken }

  ghost predicate AllTaken(taken: set<u16>) {
    forall q: u16 :: !Usable(taken, q)
  }

  /** q is the first usable port at or after start. */
  ghost predicate FirstUsable(taken: set<u16>, start: u16, q: u16) {
    Usable(taken, q) && forall p: u16 :: Usable(taken, p) ==> Ahead(start, q) <= Ahead(start, p)
  }

  lemma FirstUsableUnique(taken: set<u16>, start: u16, p: u16, q: u16)
    requires FirstUsable(taken, start, p) && FirstUsable(taken, start, q)
    ensures p == q
  {
  }

  /** m consecutive ports need m entries. */
  lemma {:induction false} PortsNeedEntries(taken: set<u16>, m: nat)
    requires m < 0x1_0000 && forall q: u16 :: 1 <= q <= m ==> q in taken
    ensures |taken| >= m
  {
    if m > 0 {
      assert forall q: u16 :: 1 <= q <= m - 1 ==> q in taken - {m};
      PortsNeedEntries(taken - {m}, m - 1);
    }
  }

  /** While fewer than 0xffff ports are taken, one is usable. */
  lemma FewTakenLeavesOne(taken: set<u16>)
    requires |taken| < 0xffff
    ensures !AllTaken(taken)
  {
    if AllTaken(taken) {
      forall q: u16 | 1 <= q <= 0xffff
        ensures q in taken
      {
        assert !Usable(taken, q);
      }
      PortsNeedEntries(taken, 0xffff);
    }
  }

  /** What other threads do to the map: each change adds or removes a port. */
  datatype Between = Connects(dPort: u16, random: u32) | Reaps

  /** Exhausted: a connect found no free port. */
  datatype Change = Added(port: u16) | Removed(port: u16) | Exhausted

  ghost function Changed(ports: set<u16>, log: seq<Change>): set<u16> {
    if log == [] then ports else
    var before := Changed(ports, log[..|log| - 1]);
    match log[|log| - 1]
    case Added(port) => before + {port}
    case Removed(port) => before - {port}
    case Exhausted => before
  }

  /** The candidate the next probe starts from: the port of the last connect. */
  ghost function Candidate(next: u16, log: seq<Change>): u16 {
    if log == [] then next else
    match log[|log| - 1]
    case Added(port) => port
    case Removed(_) => Candidate(next, log[..|log| - 1])
    case Exhausted => 0
  }

  /** Every port added was the first usable one at its time, and none was usable when a connect
      found none. */
  ghost predicate Played(ports: set<u16>, next: u16, log: seq<Change>) {
    log == [] ||
    (var front := log[..|log| - 1];
     && Played(ports, next, front)
     && match log[|log| - 1]
        case Added(port) => FirstUsable(Changed(ports, front), Candidate(next, front), port)
        case Removed(_) => true
        case Exhausted => AllTaken(Changed(ports, front)))
  }

  lemma {:induction false} ChangedAppend(ports: set<u16>, log: seq<Change>, more: seq<Change>)
    requires |more| <= 1
    ensures Changed(ports, log + more) == Changed(Changed(ports, log), more)
    ensures forall next :: Candidate(next, log + more) == Candidate(Candidate(next, log), more)
    ensures forall next :: Played(ports, next, log + more) <==>
                             Played(ports, next, log) && Played(Changed(ports, log), Candidate(next, log), more)
  {
    if more == [] {
      assert log + more == log;
    } else {
      assert (log + more)[..|log|] == log && more[..0] == [];
    }
  }

  /** The log takes the map and the candidate from what they were to what they are. */
  ghost predicate Follows(ports: set<u16>, next: u16, log: seq<Change>, ports': set<u16>, next': u16) {
    ports' == Changed(ports, log) && next' == Candidate(next, log) && Played(ports, next, log)
  }

  lemma StartsWith(ports: set<u16>, next: u16)
    ensures Follows(ports, next, [], ports, next)
  {
  }

  lemma FollowsOne(ports: set<u16>, next: u16, port: u16)
    ensures FirstUsable(ports, next, port) ==> Follows(ports, next, [Added(port)], ports + {port}, port)
    ensures Follows(ports, next, [Removed(port)], ports - {port}, next)
    ensures AllTaken(ports) ==> Follows(ports, next, [Exhausted], ports, 0)
  {
    hide FirstUsable, AllTaken;
    forall change | change in [Added(port), Removed(port), Exhausted]
      ensures [change][..|[change]| - 1] == [] && [change][|[change]| - 1] == change
    {
    }
    assert Changed(ports, []) == ports && Candidate(next, []) == next && Played(ports, next, []);
    assert Changed(ports, [Added(port)]) == ports + {port};
    assert Changed(ports, [Removed(port)]) == ports - {port};
  }

  lemma FollowsAppend(ports: set<u16>, next: u16, log: seq<Change>, ports': set<u16>, next': u16,
                      more: seq<Change>, ports'': set<u16>, next'': u16)
    requires Follows(ports, next, log, ports', next') && Follows(ports', next', more, ports'', next'') && |more| <= 1
    ensures Follows(ports, next, log + more, ports'', next'')
  {
    hide Changed, Candidate, Played;
    ChangedAppend(ports, log, more);
  }

  lemma FollowsBound(ports: set<u16>, next: u16, log: seq<Change>, ports': set<u16>, next': u16)
    requires Follows(ports, next, log, ports', next')
    ensures |ports'| <= |ports| + |log|
  {
    ChangedBound(ports, log);
  }

  lemma {:induction false} ChangedBound(ports: set<u16>, log: seq<Change>)
    ensures |Changed(ports, log)| <= |ports| + |log|
  {
    if log != [] {
      ChangedBound(ports, log[..|log| - 1]);
      var before := Changed(ports, log[..|log| - 1]);
      if !log[|log| - 1].Exhausted? {
        assert before - {log[|log| - 1].port} <= before;
        assert Changed(ports, log) <= before + {log[|log| - 1].port};
      }
    }
  }

  /** Stalled: the reaper holds the map's lock for good. */
  datatype StartOutcome = TooMany | NoPort | Stalled | Created

  datatype VersionResult = Threw | Killed | SetupFailed | Activated

  /** What becomes of a buffer; BadLength is thrown out. */
  datatype Dispatched =
    | BadLength | Ignored
    | NoConnection(header: TcpHeader)
    | VersionRead(result: VersionResult)
    | Handed(conn: Tcp, header: TcpHeader, payload: seq<byte>)

  /** The destination port by its place in the buffer. */
  lemma PortByPlace(version: int, b: seq<byte>)
    requires |b| >= HeaderSize(version) && Parse(version, b).TcpInput?
    ensures |b| >= HeaderSize(version) + 20
    ensures Parse(version, b).header.dport == Number(b[HeaderSize(version) + 2..HeaderSize(version) + 4])
  {
    var at := HeaderSize(version);
    GetIsNumber(b[at..at + 20][2..4]);
    assert b[at..at + 20][2..4] == b[at + 2..at + 4];
    hide Number, Get16, Get32;
  }

  /** Rejected: some transfer of the packet was not accepted, and the device is killed. */
  datatype SendResult = TooLarge | Rejected | Accepted

  class UsbDevice {
    const wMaxPacketSize: nat
    var version: int
    var active: bool
    var txSeq: u16
    var rxSeq: u16
    var dataInEvent: nat
    var nextPort: u16
    var conns: map<u16, Tcp>
    var reapConnections: seq<u16>
    var connsCloseEvent: nat
    var kills: nat                       // times the device was posted to its reaper
    // history
    ghost var numbered: nat              // version 2 packets since SETUP
    ghost var frames: seq<seq<byte>>     // buffers given to usb_send
    ghost var counts: seq<nat>           // transfers accepted for each of them
    ghost var submitted: seq<seq<byte>>  // transfers accepted

    ghost predicate Valid()
      reads this
    {
      && wMaxPacketSize > 0
      && (forall port :: port in conns ==> port != 0 && conns[port].sPort == port)
      && txSeq == Wrap16(numbered)
      && |counts| == |frames|
      && (forall k :: 0 <= k < |frames| ==> counts[k] <= |Submitted(wMaxPacketSize, frames[k])|)
      && submitted == SubmittedParts(wMaxPacketSize, frames, counts)
    }

    /** Frame k was submitted completely. */
    ghost predicate Whole(k: nat)
      requires Valid() && k < |frames|
      reads this
    {
      counts[k] == |Submitted(wMaxPacketSize, frames[k])|
    }

    /** As long as every submission was accepted, the other side gets exactly the frames. */
    lemma FramesArrive()
      requires Valid() && forall k :: 0 <= k < |frames| ==> Whole(k)
      ensures Regroup(wMaxPacketSize, Wire(wMaxPacketSize, submitted), []) == frames
    {
      forall k | 0 <= k < |frames|
        ensures counts[k] == |Submitted(wMaxPacketSize, frames[k])|
      {
        assert Whole(k);
      }
      PartsWhole(wMaxPacketSize, frames, counts);
      BoundariesSurvive(wMaxPacketSize, frames);
    }

    constructor (wMaxPacketSize: nat)
      requires wMaxPacketSize > 0
      ensures Valid() && conns == map[] && frames == [] && version == 0 && reapConnections == []
    {
      this.wMaxPacketSize := wMaxPacketSize;
      version, active, txSeq, rxSeq, dataInEvent, nextPort := 0, false, 0, 0, 0, 0;
      conns, reapConnections, connsCloseEvent := map[], [], 0;
      kills := 0;
      numbered, frames, counts, submitted := 0, [], [], [];
    }

    /** The mux turn of device_data_input, from the lock (or from waking up in the wait loop)
        to the unlock, with n transfers. */
    method MuxSection(packetSeq: u16, n: nat, woken: bool) returns (turn: MuxTurn)
      requires version >= 2 && n < 0x1_0000
      modifies this`rxSeq, this`dataInEvent
      ensures turn == if woken then MuxLoop(Wrap16(old(rxSeq) + 1), packetSeq, n)
                      else MuxEntry(Wrap16(old(rxSeq) + 1), packetSeq, n)
      ensures rxSeq == if turn.MuxAccept? then packetSeq else old(rxSeq)
      ensures dataInEvent == old(dataInEvent) + if turn.MuxSleep? then 0 else 1
    {
      WaitGuardMeans(rxSeq, packetSeq, n);
      if woken || (rxSeq + 1) % 0x1_0000 != packetSeq {
        if (rxSeq + 1) % 0x1_0000 < packetSeq || (rxSeq + 1 + n) % 0x1_0000 < packetSeq + n {
          return MuxSleep;
        }
      }
      dataInEvent := dataInEvent + 1;
      if (rxSeq + 1) % 0x1_0000 != packetSeq {
        return MuxDrop;
      }
      rxSeq := packetSeq;
      return MuxAccept;
    }

    /** ---- Connecting ---- */

    /** The probing loop. It ends for every start value and every map, on the first usable
        port going up and around, and fails only if there is none. */
    method ProbePort() returns (found: bool)
      modifies this`nextPort
      ensures found ==> FirstUsable(conns.Keys, old(nextPort), nextPort)
      ensures !found <==> AllTaken(conns.Keys)
      ensures !found ==> nextPort == 0
    {
      var didIterAllPorts := false;
      ghost var start := nextPort;
      ghost var steps: nat := 0;
      ghost var zero: nat := Ahead(start, 0);
      while nextPort in conns || nextPort == 0
        invariant nextPort == Wrap16(start + steps) && steps <= zero + 0x1_0000
        invariant didIterAllPorts <==> steps > zero
        invariant forall p: u16 :: Ahead(start, p) < steps ==> !Usable(conns.Keys, p)
        decreases 0x2_0000 - steps
      {
        if nextPort == 0 {
          if didIterAllPorts {
            assert steps == zero + 0x1_0000;
            return false;
          }
          didIterAllPorts := true;
        }
        assert forall p: u16 :: Ahead(start, p) == steps ==> p == nextPort;
        nextPort := (nextPort + 1) % 0x1_0000;
        steps := steps + 1;
      }
      assert Usable(conns.Keys, nextPort);
      assert Ahead(start, nextPort) == steps % 0x1_0000;
      assert Ahead(start, nextPort) == steps;
      found := true;
    }

    /** The locked part: a connection is created on the probed port. */
    method Allocate(dPort: u16, random: u32) returns (conn: Tcp?)
      requires Valid()
      modifies this`nextPort, this`conns
      ensures Valid()
      ensures conn == null <==> AllTaken(old(conns).Keys)
      ensures conn == null ==> conns == old(conns) && nextPort == 0
      ensures conn != null ==>
                && FirstUsable(old(conns).Keys, old(nextPort), conn.sPort) && nextPort == conn.sPort
                && conns == old(conns)[conn.sPort := conn]
                && fresh(conn) && conn.Valid() && conn.dPort == dPort
                && conn.Snapshot() == Connection.Fresh(conn.sPort, random)
    {
      var found := ProbePort();
      if !found {
        return null;
      }
      var c := new Tcp(nextPort, dPort, random);
      conns := conns[nextPort := c];
      conn := c;
    }

    /** Between the size test of start_connect and the lock: another client's connection is
        made, or the reaper takes a round. */
    method Interlude(other: Between) returns (ended: bool, ghost log: seq<Change>)
      requires Valid()
      modifies this`nextPort, this`conns, this`reapConnections, this`connsCloseEvent, conns.Values
      ensures Valid() && |log| <= 1
      ensures Follows(old(conns).Keys, old(nextPort), log, conns.Keys, nextPort)
      ensures other.Reaps? ==> nextPort == old(nextPort)
      ensures forall port :: port in conns ==> fresh(conns[port]) || (port in old(conns) && conns[port] == old(conns)[port])
      ensures !ended ==> exists port :: port in conns && conns[port].Snapshot().held
      ensures other.Connects? ==> ended && |log| == 1 && !log[0].Removed?
      ensures other.Reaps? && ended ==>
                log == if old(reapConnections) == [] then [] else [Removed(old(reapConnections)[0])]
    {
      hide Valid, Tcp.Valid, Tcp.Snapshot, FirstUsable, AllTaken, Connection.Fresh, Connection.Die, Connection.WakeForwarders;
      log, ended := [], true;
      ghost var ports, next := conns.Keys, nextPort;
      StartsWith(ports, next);
      hide Follows;
      match other
      case Connects(dPort, random) =>
        var conn := Allocate(dPort, random);
        log := [if conn == null then Exhausted else Added(conn.sPort)];
        FollowsOne(ports, next, if conn == null then 0 else conn.sPort);
        assert conn != null ==> conns.Keys == ports + {conn.sPort};
      case Reaps =>
        if reapConnections != [] {
          log := [Removed(reapConnections[0])];
          FollowsOne(ports, next, reapConnections[0]);
          ended := ReapOne();
          if !ended {
            log := [];
          }
          assert ended ==> conns.Keys == ports - {log[0].port};
        }
    }

    /** start_connect up to the handshake. The number of connections is tested before the lock
        is taken; what is in between happens before that. log tells what it did to the map, and
        atScan and start are the map and the first candidate when the lock is taken: the port of
        the last connect in between, or else where the candidate was. */
    method StartConnect(dPort: u16, random: u32, between: seq<Between>)
      returns (outcome: StartOutcome, conn: Tcp?, ghost start: u16, ghost atScan: map<u16, Tcp>, ghost log: seq<Change>)
      requires Valid()
      modifies this`nextPort, this`conns, this`reapConnections, this`connsCloseEvent, conns.Values
      ensures Valid() && |log| <= |between|
      ensures Follows(old(conns).Keys, old(nextPort), log, atScan.Keys, start)
      ensures (forall k :: 0 <= k < |between| ==> between[k].Reaps?) ==> start == old(nextPort)
      ensures outcome == TooMany || outcome == Stalled ==> nextPort == start
      ensures outcome == TooMany <==> |old(conns)| >= 0xfff0
      ensures outcome == TooMany ==> log == [] && conns == old(conns)
      ensures outcome == NoPort ==> AllTaken(atScan.Keys) && conns == atScan
      ensures outcome == Stalled ==> conns == atScan && exists port :: port in conns && conns[port].Snapshot().held
      ensures outcome == NoPort ==> |between| >= 16
      ensures forall port :: port in atScan ==> fresh(atScan[port]) || (port in old(conns) && atScan[port] == old(conns)[port])
      ensures conn != null <==> outcome == Created
      ensures conn != null ==>
                && FirstUsable(atScan.Keys, start, conn.sPort) && nextPort == conn.sPort
                && conns == atScan[conn.sPort := conn]
                && fresh(conn) && conn.Valid() && conn.dPort == dPort
                && conn.Snapshot() == Connection.Fresh(conn.sPort, random)
    {
      hide Tcp.Snapshot, Tcp.Valid, Valid, Follows, FirstUsable, AllTaken;
      StartsWith(conns.Keys, nextPort);
      start, atScan, log, conn := nextPort, conns, [], null;
      if |conns| >= 0xfff0 {
        return TooMany, conn, start, atScan, log;
      }
      for k := 0 to |between|
        invariant Valid() && |log| <= k
        invariant Follows(old(conns).Keys, old(nextPort), log, conns.Keys, nextPort)
        invariant (forall j :: 0 <= j < k ==> between[j].Reaps?) ==> nextPort == old(nextPort)
        invariant forall port :: port in conns ==> fresh(conns[port]) || (port in old(conns) && conns[port] == old(conns)[port])
      {
        var ended;
        ghost var more;
        ghost var ports, next := conns.Keys, nextPort;
        ended, more := Interlude(between[k]);
        FollowsAppend(old(conns).Keys, old(nextPort), log, ports, next, more, conns.Keys, nextPort);
        log := log + more;
        if !ended {
          return Stalled, conn, nextPort, conns, log;
        }
      }
      start, atScan := nextPort, conns;
      if |between| < 16 {
        FollowsBound(old(conns).Keys, old(nextPort), log, conns.Keys, nextPort);
        FewTakenLeavesOne(conns.Keys);
      }
      conn := Allocate(dPort, random);
      outcome := if conn == null then NoPort else Created;
    }

    /** ---- Sending ---- */

    /** usb_send: the buffer, and the empty transfer when the buffer's last packet is full. The
        first accepted of these submissions succeed; the first that does not is the last made. */
    method UsbSend(buf: array<byte>, accepted: nat) returns (ok: bool)
      requires Valid()
      modifies this`frames, this`counts, this`submitted
      ensures Valid() && frames == old(frames) + [buf[..]] && old(counts) <= counts
      ensures ok <==> Whole(|frames| - 1)
      ensures ok <==> accepted >= |Submitted(wMaxPacketSize, buf[..])|
    {
      ghost var transfers := [];
      ok := accepted > 0;
      if ok {
        transfers := [buf[..]];
        if buf.Length % wMaxPacketSize == 0 && buf.Length >= wMaxPacketSize {
          ok := accepted > 1;
          if ok {
            transfers := transfers + [[]];
          }
        }
      }
      SubmittedFirst(wMaxPacketSize, buf[..]);
      assert transfers == Submitted(wMaxPacketSize, buf[..])[..|transfers|];
      PartsAppend(wMaxPacketSize, frames, counts, buf[..], |transfers|);
      frames := frames + [buf[..]];
      counts := counts + [|transfers|];
      submitted := submitted + transfers;
    }

    method CopyTo(buf: array<byte>, at: nat, bytes: seq<byte>)
      requires at + |bytes| <= buf.Length
      modifies buf
      ensures buf[..at] == old(buf[..at]) && buf[at..at + |bytes|] == bytes
    {
      for k := 0 to |bytes|
        invariant buf[..at] == old(buf[..at]) && buf[at..at + k] == bytes[..k]
      {
        buf[at + k] := bytes[k];
        assert buf[at..at + k + 1] == buf[at..at + k] + [bytes[k]];
      }
    }

    method BuildFrame(protocol: u32, number: u16, received: u16, header: Option<TcpHeader>, data: seq<byte>)
      returns (buf: array<byte>)
      requires FrameLength(version, header, data) <= USB_MTU
      ensures fresh(buf) && buf[..] == Frame(version, protocol, number, received, header, data)
    {
      hide MuxHeader, PutTcp;
      var buflen := FrameLength(version, header, data);
      buf := new byte[buflen];
      var head := MuxHeader(version, protocol, buflen, number, received);
      var body := Body(header, data);
      CopyTo(buf, 0, head);
      assert buf[..|head|] == head;
      CopyTo(buf, |head|, body);
      assert |head| + |body| == buf.Length;
      assert buf[..] == buf[..buf.Length];
      assert buf[..] == buf[..|head|] + buf[|head|..buf.Length];
    }

    /** The sequence fields of the next version 2 packet; SETUP starts both directions anew. */
    method Stamp(protocol: u32) returns (number: u16, received: u16)
      requires Valid()
      modifies this`txSeq, this`rxSeq, this`numbered
      ensures Valid()
      ensures version < 2 ==> number == received == 0 && txSeq == old(txSeq) && rxSeq == old(rxSeq)
      ensures version >= 2 ==>
                && numbered == (if protocol == PROTO_SETUP then 1 else old(numbered) + 1)
                && number == Wrap16(numbered - 1)
                && received == rxSeq == if protocol == PROTO_SETUP then 0xffff else old(rxSeq)
    {
      number, received := 0, 0;
      if version >= 2 {
        if protocol == PROTO_SETUP {
          txSeq, numbered := 0, 0;
          rxSeq := 0xffff;
        }
        number, received := txSeq, rxSeq;
        txSeq, numbered := (txSeq + 1) % 0x1_0000, numbered + 1;
      }
    }

    /** send_packet: refuses what exceeds a transfer, otherwise numbers, frames and submits:
        the i-th version 2 packet since SETUP carries number i mod 65536. If a submission is
        not accepted, the device is killed; the number is used up all the same. */
    method SendPacket(protocol: u32, data: seq<byte>, header: Option<TcpHeader>, accepted: nat) returns (result: SendResult)
      requires Valid()
      modifies this`txSeq, this`rxSeq, this`numbered, this`frames, this`counts, this`submitted, this`kills
      ensures Valid()
      ensures result == TooLarge <==> FrameLength(version, header, data) > USB_MTU
      ensures result == TooLarge || version < 2 ==> txSeq == old(txSeq) && rxSeq == old(rxSeq)
      ensures result == TooLarge ==> frames == old(frames)
      ensures result != TooLarge ==> |frames| == |old(frames)| + 1 && (result == Accepted <==> Whole(|frames| - 1))
      ensures accepted >= 2 ==> result != Rejected
      ensures kills == old(kills) + if result == Rejected then 1 else 0
      ensures result != TooLarge && version < 2 ==>
                frames == old(frames) + [Frame(version, protocol, 0, 0, header, data)] && rxSeq == old(rxSeq)
      ensures result != TooLarge && version >= 2 ==>
                && numbered == (if protocol == PROTO_SETUP then 1 else old(numbered) + 1)
                && rxSeq == (if protocol == PROTO_SETUP then 0xffff else old(rxSeq))
                && frames == old(frames) + [Frame(version, protocol, Wrap16(numbered - 1), rxSeq, header, data)]
    {
      hide SubmittedParts, Frame;
      var buflen := FrameLength(version, header, data);
      if buflen > USB_MTU {
        return TooLarge;
      }
      var number, received := Stamp(protocol);
      var buf := BuildFrame(protocol, number, received, header, data);
      var ok := UsbSend(buf, accepted);
      if !ok {
        kills := kills + 1;
        return Rejected;
      }
      result := Accepted;
    }

    /** What a version packet does. */
    twostate predicate VersionEffect(major: int, accepted: nat, result: VersionResult)
      reads this
    {
      && (old(active) ==> result == Threw)
      && (!old(active) && major != 1 && major != 2 ==> result == Killed && kills == old(kills) + 1)
      && (!old(active) && major == 1 ==> result == Activated)
      && (!old(active) && major == 2 ==> result == Activated || (result == SetupFailed && accepted < 2))
      && (result == Threw ==> kills == old(kills))
      && (result == Threw || result == Killed ==> version == old(version) && active == old(active) && frames == old(frames))
      && (result == SetupFailed ==> version == 2 && !active && kills == old(kills) + 1)
      && (result == Activated ==> active && version == major && kills == old(kills))
      && (result == Activated && major == 1 ==> frames == old(frames) && rxSeq == old(rxSeq))
      && (result == Activated && major == 2 ==> txSeq == 1 && rxSeq == 0xffff)
      && ((result == Activated && major == 2) || result == SetupFailed ==>
            frames == old(frames) + [[0, 0, 0, 2, 0, 0, 0, 17, 0xfe, 0xed, 0xfa, 0xce, 0, 0, 0xff, 0xff, 7]])
    }

    /** device_version_input: a known version is taken over once; version 2 starts numbering
        with the SETUP packet, after which the device's first packet is number 0. */
    method DeviceVersionInput(major: u32, accepted: nat) returns (result: VersionResult)
      requires Valid()
      modifies this`version, this`active, this`txSeq, this`rxSeq, this`numbered, this`frames, this`counts,
               this`submitted, this`kills
      ensures Valid() && VersionEffect(major, accepted, result)
      ensures result == Activated && major == 2 ==> Whole(|frames| - 1) && rxSeq == Start(1).rxSeq
    {
      SetupBytes();
      if active {
        return Threw;
      }
      if major != 2 && major != 1 {
        kills := kills + 1;
        return Killed;
      }
      version := major;
      if version >= 2 {
        var sent := SendPacket(PROTO_SETUP, [7], None, accepted);
        if sent != Accepted {
          return SetupFailed;
        }
      }
      active := true;
      result := Activated;
    }

    /** mux_init: the device is asked for its version. */
    method MuxInit(accepted: nat) returns (result: SendResult)
      requires Valid() && version < 2
      modifies this`txSeq, this`rxSeq, this`numbered, this`frames, this`counts, this`submitted, this`kills
      ensures Valid() && result != TooLarge && txSeq == old(txSeq) && rxSeq == old(rxSeq)
      ensures frames == old(frames) + [[0, 0, 0, 0, 0, 0, 0, 20, 0, 0, 0, 2, 0, 0, 0, 0, 0, 0, 0, 0]]
      ensures accepted >= 2 ==> result == Accepted
    {
      hide Frame;
      VersionBytes(version);
      result := SendPacket(PROTO_VERSION, Put32(2) + Put32(0) + Put32(0), None, accepted);
    }

    /** ---- Segments ---- */

    /** The frame that was built last is read by the other side as this segment. */
    ghost predicate LastCarries(sport: u16, dport: u16, seqNo: u32, ackNo: u32, flags: byte, window: u16, payload: seq<byte>)
      reads this`frames, this`version
    {
      && frames != [] && Parse(version, frames[|frames| - 1]).TcpInput?
      && var p := Parse(version, frames[|frames| - 1]);
         && p.header.sport == sport && p.header.dport == dport && p.header.seqNo == seqNo && p.header.ackNo == ackNo
         && p.header.flags == flags && p.header.window == window && p.payload == payload
    }

    /** How a connection hands a segment to send_packet. */
    method SendSegment(g: Segment, accepted: nat) returns (result: SendResult)
      requires Valid() && |g.payload| <= TCP_MTU
      modifies this`txSeq, this`rxSeq, this`numbered, this`frames, this`counts, this`submitted, this`kills
      ensures Valid() && result != TooLarge && |frames| == |old(frames)| + 1
      ensures LastCarries(g.sport, g.dport, g.seqNo, g.ackNo, FlagByte(g.flag), g.window, g.payload)
      ensures accepted >= 2 ==> result == Accepted
    {
      hide Frame, Parse;
      FrameRoundTrip(version, 0, 0, HeaderOf(g), g.payload);
      result := SendPacket(PROTO_TCP, g.payload, Some(HeaderOf(g)), accepted);
      if version >= 2 {
        FrameRoundTrip(version, Wrap16(numbered - 1), rxSeq, HeaderOf(g), g.payload);
      }
    }

    ghost predicate ResetFor(h: TcpHeader)
      reads this`frames, this`version
    {
      LastCarries(h.dport, h.sport, h.ackNo, h.seqNo, 0x04, h.window, [])
    }

    /** send_RST: the answer to a packet for a port without a connection, its ports and numbers
        exchanged. */
    method SendReset(h: TcpHeader, accepted: nat) returns (result: SendResult)
      requires Valid()
      modifies this`txSeq, this`rxSeq, this`numbered, this`frames, this`counts, this`submitted, this`kills
      ensures Valid() && result != TooLarge && |frames| == |old(frames)| + 1
      ensures ResetFor(h)
      ensures accepted >= 2 ==> result == Accepted
    {
      result := SendSegment(Segment(h.dport, h.sport, h.ackNo, h.seqNo, RstFlag, h.window, []), accepted);
    }

    /** Two connections of a device never send under the same port. */
    lemma SendersApart(p: u16, q: u16, g: Segment, h: Segment)
      requires Valid() && p in conns && q in conns && p != q && conns[p].Valid() && conns[q].Valid()
      requires g in conns[p].out && h in conns[q].out
      ensures g.sport == p && h.sport == q && g.sport != h.sport
    {
    }

    /** device_data_input behind the mux turn, for a buffer that holds at least a header. */
    method DeviceDataInput(b: seq<byte>, accepted: nat) returns (outcome: Dispatched)
      requires Valid() && |b| >= HeaderSize(version)
      modifies this`version, this`active, this`txSeq, this`rxSeq, this`numbered, this`frames, this`counts,
               this`submitted, this`kills
      ensures Valid()
      ensures var at := if old(version) < 2 then 8 else 16;
              var whole := |b| <= USB_MTU && Number(b[4..8]) == |b|;
              var protocol := Number(b[0..4]);
              && (!whole || (protocol == 0 && |b| < at + 12) || (protocol == 6 && |b| < at + 20) ==> outcome == BadLength)
              && (whole && protocol == 0 && |b| >= at + 12 ==>
                    outcome.VersionRead? && VersionEffect(Number(b[at..at + 4]), accepted, outcome.result))
              && (whole && protocol == 6 && |b| >= at + 20 ==>
                    var port := Number(b[at + 2..at + 4]);
                    if port in conns
                    then outcome.Handed? && outcome.conn == conns[port] && PutTcp(outcome.header) == b[at..at + 20]
                         && outcome.payload == b[at + 20..] && frames == old(frames)
                    else outcome.NoConnection? && PutTcp(outcome.header) == b[at..at + 20]
                         && |frames| == |old(frames)| + 1 && ResetFor(outcome.header))
              && (whole && protocol != 0 && protocol != 6 ==> outcome == Ignored)
              && (outcome == BadLength || outcome == Ignored ==> frames == old(frames) && kills == old(kills))
    {
      hide Frame, Number, Get16, Get32, PutTcp, GetTcp;
      ParseByPlace(version, b);
      match Parse(version, b)
      case VersionIs(major, minor) =>
        var result := DeviceVersionInput(major, accepted);
        outcome := VersionRead(result);
      case TcpInput(number, received, header, payload) =>
        PortByPlace(version, b);
        if header.dport in conns {
          outcome := Handed(conns[header.dport], header, payload);
        } else {
          var ignored := SendReset(header, accepted);
          outcome := NoConnection(header);
        }
      case OtherProtocol(_) =>
        outcome := Ignored;
      case _ =>
        outcome := BadLength;
    }

    /** ---- Closing ---- */

    /** closeConnection, called by a dying connection. */
    method CloseConnection(port: u16)
      modifies this`reapConnections
      ensures reapConnections == old(reapConnections) + [port]
    {
      reapConnections := reapConnections + [port];
    }

    /** Everything still mapped is queued for the reaper. */
    ghost predicate Draining()
      reads this`conns, this`reapConnections
    {
      forall port :: port in conns ==> port in reapConnections
    }

    /** Whenever the thread slept, there was something to wait for and it was queued. */
    ghost predicate Justified(sleeps: seq<(seq<u16>, set<u16>)>) {
      forall k :: 0 <= k < |sleeps| ==> AllQueued(sleeps[k].0, sleeps[k].1)
    }

    lemma JustifiedMore(sleeps: seq<(seq<u16>, set<u16>)>, more: seq<(seq<u16>, set<u16>)>)
      requires Justified(sleeps) && Justified(more)
      ensures Justified(sleeps + more)
    {
    }

    ghost predicate AllQueued(queue: seq<u16>, mapped: set<u16>) {
      mapped != {} && forall port :: port in mapped ==> port in queue
    }

    /** One round of reaper_runloop, with a port waiting in its queue. On a connection whose
        lock was left locked it never ends, and the map stays locked. */
    method ReapOne() returns (ended: bool)
      requires Valid() && reapConnections != []
      modifies this`reapConnections, this`conns, this`connsCloseEvent, conns.Values
      ensures Valid() && reapConnections == old(reapConnections)[1..]
      ensures old(Draining()) && ended ==> Draining()
      ensures var port := old(reapConnections)[0];
              && (ended <==> !(port in old(conns) && old(conns[port].Snapshot().held)))
              && (!ended ==> conns == old(conns) && connsCloseEvent == old(connsCloseEvent))
              && (ended ==> conns == old(conns) - {port} && connsCloseEvent == old(connsCloseEvent) + 1)
              && (ended && port in old(conns) ==>
                    old(conns)[port].Snapshot() == Connection.WakeForwarders(Connection.Die(old(conns[port].Snapshot()))))
              && (forall q :: q in old(conns) && (q != port || !ended) ==> old(conns)[q].Snapshot() == old(conns[q].Snapshot()))
    {
      var port := reapConnections[0];
      assert reapConnections == [port] + reapConnections[1..];
      reapConnections := reapConnections[1..];
      if port in conns {
        if conns[port].held {
          return false;
        }
        conns[port].Deconstruct();
        conns[port].DeconstructForwarding();
      }
      conns := conns - {port};
      connsCloseEvent := connsCloseEvent + 1;
      ended := true;
    }

    /** The posting loop of deconstruct: every port of the map, in any order. */
    method PostAll()
      modifies this`reapConnections
      ensures Draining() && old(reapConnections) <= reapConnections && (old(Valid()) ==> Valid())
      ensures |reapConnections| == |old(reapConnections)| + |conns.Keys|
      ensures forall k :: |old(reapConnections)| <= k < |reapConnections| ==> reapConnections[k] in conns
    {
      var keys := conns.Keys;
      while keys != {}
        invariant keys <= conns.Keys && |reapConnections| + |keys| == |old(reapConnections)| + |conns.Keys|
        invariant forall port :: port in conns ==> port in keys || port in reapConnections
        invariant old(reapConnections) <= reapConnections
        invariant forall k :: |old(reapConnections)| <= k < |reapConnections| ==> reapConnections[k] in conns
        decreases |keys|
      {
        var port :| port in keys;
        reapConnections := reapConnections + [port];
        keys := keys - {port};
      }
    }

    ghost function Snapshots(): (was: map<u16, Connection.Conn>)
      reads this`conns, conns.Values
      ensures was.Keys == conns.Keys
    {
      map port | port in conns :: conns[port].Snapshot()
    }

    /** Of the connections mapped at first, in the states was, those no longer mapped were torn
        down, once, and the others are untouched. */
    ghost predicate Reaped(mapped: map<u16, Tcp>, was: map<u16, Connection.Conn>)
      reads this`conns, mapped.Values
    {
      && conns.Keys <= mapped.Keys == was.Keys
      && forall port :: port in mapped ==> PortReaped(mapped[port], was[port], port)
    }

    ghost predicate PortReaped(conn: Tcp, was: Connection.Conn, port: u16)
      reads this`conns, conn
    {
      && conn.sPort == port
      && if port in conns
         then conns[port] == conn && conn.Snapshot() == was
         else !was.held && conn.Snapshot() == Connection.WakeForwarders(Connection.Die(was))
    }

    lemma StillMapped(mapped: map<u16, Tcp>, was: map<u16, Connection.Conn>)
      requires Reaped(mapped, was)
      ensures conns.Keys <= mapped.Keys == was.Keys && conns.Values <= mapped.Values
      ensures forall port :: port in mapped ==> PortReaped(mapped[port], was[port], port)
      ensures forall port :: port in mapped && port !in conns ==> mapped[port] !in conns.Values
    {
      assert forall port :: port in conns ==> PortReaped(mapped[port], was[port], port);
    }

    /** The reaper's round while deconstruct waits. */
    method ReapNext(ghost mapped: map<u16, Tcp>, ghost was: map<u16, Connection.Conn>) returns (ended: bool)
      requires Valid() && Draining() && Reaped(mapped, was) && conns != map[]
      modifies this`reapConnections, this`conns, this`connsCloseEvent, mapped.Values
      ensures Valid() && Reaped(mapped, was)
      ensures ended ==> Draining() && connsCloseEvent == old(connsCloseEvent) + 1
      ensures |reapConnections| + 1 == |old(reapConnections)|
      ensures !ended ==> exists port :: port in mapped && was[port].held
    {
      hide Valid, Tcp.Snapshot, Connection.Die, Connection.WakeForwarders;
      ghost var some :| some in conns;
      assert some in reapConnections;
      ghost var queue := reapConnections;
      StillMapped(mapped, was);
      hide Reaped;
      hide Draining;
      ended := ReapOne();
      forall port | port in mapped
        ensures PortReaped(mapped[port], was[port], port)
      {
        assert old(PortReaped(mapped[port], was[port], port));
        if port !in old(conns) {
          assert mapped[port].Snapshot() == old(mapped[port].Snapshot());
        } else if !ended || port != queue[0] {
          assert mapped[port].Snapshot() == was[port] && port in conns;
        } else {
          assert mapped[port].Snapshot() == Connection.WakeForwarders(Connection.Die(was[port])) && port !in conns;
        }
      }
    }

    /** One wait for the close event, in which either the reaper takes a round or one of the
        close requests in kills arrives. */
    method AwaitClose(kills: seq<u16>, ghost mapped: map<u16, Tcp>, ghost was: map<u16, Connection.Conn>)
      returns (woken: bool, late: seq<u16>, ghost sleeps: seq<(seq<u16>, set<u16>)>)
      requires Valid() && Draining() && Reaped(mapped, was) && conns != map[]
      modifies this`reapConnections, this`conns, this`connsCloseEvent, mapped.Values
      ensures Valid() && Reaped(mapped, was)
      ensures woken ==> Draining() && |reapConnections| + 2 * |late| < |old(reapConnections)| + 2 * |kills|
      ensures !woken ==> exists port :: port in mapped && was[port].held
      ensures |sleeps| > 0 && Justified(sleeps)
    {
      hide Reaped, Submitted, SubmittedParts;
      late := kills;
      var wevent := connsCloseEvent + 1;
      sleeps := [(reapConnections, conns.Keys)];
      while connsCloseEvent < wevent
        invariant Valid() && Draining() && Reaped(mapped, was)
        invariant wevent <= connsCloseEvent + 1 && (connsCloseEvent < wevent ==> conns != map[])
        invariant |sleeps| > 0 && forall k :: 0 <= k < |sleeps| ==> AllQueued(sleeps[k].0, sleeps[k].1)
        invariant |reapConnections| + 2 * |late| <= |old(reapConnections)| + 2 * |kills|
        invariant connsCloseEvent >= wevent ==> |reapConnections| + 2 * |late| < |old(reapConnections)| + 2 * |kills|
        decreases |reapConnections| + 2 * |late|
      {
        sleeps := sleeps + [(reapConnections, conns.Keys)];
        var reaperRuns: bool := *;
        if late != [] && !reaperRuns {
          CloseConnection(late[0]);
          late := late[1..];
        } else {
          var ended := ReapNext(mapped, was);
          if !ended {
            return false, late, sleeps;
          }
        }
      }
      woken := true;
    }

    /** The connection part of deconstruct, with no new connections: post every port, then
        wait for the reaper until the map is empty. Connections may ask to be closed meanwhile,
        also more than once. It ends exactly if no connection's lock was left locked, with every
        connection torn down once. sleeps tells, for each moment it slept, the reaper's queue
        and the map. */
    method DrainConnections(kills: seq<u16>) returns (drained: bool, ghost sleeps: seq<(seq<u16>, set<u16>)>)
      requires Valid()
      modifies this`reapConnections, this`conns, this`connsCloseEvent, conns.Values
      ensures Valid() && Reaped(old(conns), old(Snapshots()))
      ensures drained <==> forall port :: port in old(conns) ==> !old(Snapshots())[port].held
      ensures drained ==> conns == map[]
      ensures Justified(sleeps)
      ensures old(conns) != map[] ==> |sleeps| > 0
    {
      ghost var mapped, was, slept := conns, Snapshots(), conns != map[];
      assert Reaped(mapped, was);
      hide Valid, Reaped, Justified, Snapshots, Draining;
      PostAll();
      sleeps := [];
      var late := kills;
      while |conns| != 0
        invariant Valid() && Draining() && Reaped(mapped, was)
        invariant slept ==> |sleeps| > 0 || |conns| != 0
        invariant Justified(sleeps)
        decreases |reapConnections| + 2 * |late|
      {
        var woken;
        ghost var more;
        woken, late, more := AwaitClose(late, mapped, was);
        JustifiedMore(sleeps, more);
        sleeps := sleeps + more;
        if !woken {
          return false, sleeps;
        }
      }
      NothingHeld(mapped, was);
      drained := true;
    }

    lemma NothingHeld(mapped: map<u16, Tcp>, was: map<u16, Connection.Conn>)
      requires Reaped(mapped, was) && conns == map[]
      ensures forall port :: port in mapped ==> !was[port].held
    {
      assert forall port :: port in mapped ==> PortReaped(mapped[port], was[port], port);
    }
  }
}
