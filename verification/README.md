# usbmuxd2: a verified model of the multiplexing transport

usbmuxd2 lets local programs open TCP connections to iOS devices. To a device on USB it speaks its
own small TCP inside multiplexed USB packets. This project models that transport, the two
allocators beside it and the Wi-Fi session, and proves what they keep.

**Receive path.** N receiver threads take USB packets from a queue and put them in order three
times: by 16-bit packet number for the whole device, then by 32-bit sequence number for each
connection, once under the connection's lock and once more under the client's.
`Receivers.dfy` is this as a state machine whose steps are the critical sections; a run is any
interleaving of any number of receivers, the device, the senders and the reaper. The sections of
`TCP::handle_input` themselves are functions in `Connection.dfy`, and the methods of the class in
`Tcp.dfy` are proved equal to them. The proof rests on a ledger of who holds which packet
(`Holdings.dfy`), over unbounded offsets behind the wrapping counters. `ReceiveSafety.dfy` shows
that every step keeps the invariant, and `Delivery.dfy` draws the safety results. USB may reject any
packet the program sends, which throws out of the section that sends it; the receiver's thread, the
acknowledgement and the lock are then lost as in the code. `Progress.dfy` says who can go on.
`Drain.dfy` and `Turns.dfy` say that the receivers by themselves finish everything that can be
finished, in some run and in every run. `Fates.dfy` gives, for whoever waits, the exact condition
under which it can still be woken, and `Stuck.dfy` reaches each of the ways to wait for good.
`Acks.dfy` says what is acknowledged. `Addressing.dfy`, `MuxOrder.dfy` and `Reuse.dfy` need no
hypothesis on the device: isolation by port, exactly what passes the mux turn and what is dropped,
exactly what ends a receiver, and what becomes of a packet whose port was used again.

**Send path.** `Tcp.dfy` holds the 512 KiB ring as an array and the loops that read from the client,
cut segments, wait for the window and flush. They are proved against the value-level view in
`Sending.dfy` and `Ring.dfy`. `UsbDevice.dfy` numbers and frames the packets and submits transfers;
`Framing.dfy` and `UsbTransfer.dfy` show that the other side gets back what was put in and where each
field lies, and `Inputs.dfy` joins the bytes of a transfer to the packets of the state machine.

**Allocators and teardown.** Ports and the drain of a departing device are in `UsbDevice.dfy`, device
ids in `DeviceIds.dfy`. `Teardown.dfy` is the drain once more as a state machine of the departing
thread, the reaper, close requests, clients that still connect and senders that leave a lock locked.

**Wi-Fi session.** `WifiSession.dfy` is a state machine over single atomic accesses: the worker, one
updater, and any number of callers that request a reconnect or stop the session.
`WifiDevice.dfy` gives the versions their meaning.

Events are counters, as everywhere in the program: `getNextEvent` gives the counter plus one,
`waitForEvent(t)` sleeps while the counter is below `t`, `notifyAll` increments.

## What turned out not to hold

Each of these is shown by a reachable state, a run or an input, with the exact condition next to it.

- A receiver in the wait loop of the mux turn with one of the last N numbers before the 16-bit wrap
  waits for good once its packet is the next, and with it the device (`BandReachable`). The packet
  gets through exactly if its number plus N is below 65536 (`MuxWaiterFate`).
- A data segment that USB rejects leaves the connection's lock locked for good. Receivers of the
  connection then wait for ever, and so does the reaper when it comes to it, with the map locked and
  every lookup waiting behind it (`SegmentRejected`, `LookupBlocked`, `LockedOutForever`,
  `ReaperStuckForever`). Whoever waits for a lock gets on exactly if it is not one of these
  (`LockFate`). The teardown of a device returns in some run exactly if no mapped connection's lock
  was left locked (`ReturnsExactly`, `DrainConnections`).
- A client that still connects after the teardown of its device has posted the ports keeps the
  teardown waiting until somebody asks for that connection to be closed (`LateConnection`,
  `ReturnsAloneExactly`).
- An acknowledgement that USB rejects in its turn takes the notification and the payload with it. The
  receiver of the next packet then sleeps although its number has come (`LostWakeupReachable`), and a
  step brings this about exactly if it loses a payload in front of that packet
  (`LosesWakeupExactly`). The teardown of the connection wakes it (`LostWakeupHealed`). A sender
  that has just taken its ticket can sleep on in the same way (`WaitForEvent`).
- After a SYN/ACK whose acknowledgement USB rejects, the next SYN/ACK connects without being
  acknowledged and with the first byte numbered one too high (`GreetedAgain`).
- A packet without payload can be overtaken at the acknowledgement turn by the data packet that
  carries the same sequence number. It then waits as long as its connection lives and fewer than
  2^32 further bytes arrive (`OvertakenReachable`, `OvertakenStuck`). By steps of receivers alone a
  packet leaves its turn exactly if it was not overtaken (`AckTurnFate`). Nobody else is held up by
  it (`NeverAllWait`, `EverythingIsHandedOn`).
- A receiver can fall asleep at the forward turn of a connection already torn down
  (`AbandonedReachable`), or behind a payload lost on a connection that can no longer be torn down
  (`LostAndHeld`). These are exactly the cases in which it cannot be woken (`ForwardWaiterFate`).
- A receiver can fall asleep at the acknowledgement turn of a connection torn down since it read the
  connection's state (`AbandonedAckReachable`). It can be woken exactly if the connection can still be
  torn down, or another receiver can have its packet admitted (`AckWaiterFate`).
- A closed port is used again at once. A packet sent to the old connection and looked up afterwards
  fails its receiver if the new handshake is not through (`ReusedPortFails`), waits at the turn of
  the wrong connection if the numbers differ (`StaleWaits`), and is handed to the wrong client if
  they agree (`StaleDelivered`).
- A receiver's thread is ended exactly by a malformed transfer, a version packet on an active device,
  a version or TCP packet that is too short, anything but SYN/ACK and resets during the handshake, or
  the rejection of an acknowledgement that is due (`FailsExactly`). On what a well-formed device
  sends, exactly one is ended for each rejection (`EndedByRejection`).
- Of two packets without payload the later acknowledgement can be applied first, so that the
  acknowledged position goes back (`AckGoesBack`). An acknowledgement keeps the send side intact
  exactly if it is applied in order (`AcknowledgeKeeps`).
- With a full ring outstanding, the free space computed is the whole ring, and what is read next
  overwrites what is outstanding (`FreeSpaceExact`, `FullRingReachable`, `FullRingLoses`). A device
  can cause it only by advertising a window of 512 KiB or more (`SendRunKeeps`, `RoomIsFree`).
- The SYN/ACK is not acknowledged exactly if the device starts at the last sequence number
  (`GreetingAcknowledged`).
- Nobody checks the magic number of a version 2 packet (`ParseRoundTrip`).
- The one-pass scan for a device number can end on a number in use. It cannot, in any order, exactly
  if the number it starts from or the next one is free (`ScanSafeExactly`, `AddDevice`), which holds
  until the counter wraps (`AddAhead`).
- Two devices that are added at the same time can get one number, which is wrong exactly if they are
  not two appearances of one device (`RacingAdds`).
- A start of the Wi-Fi session that overlaps an update makes the worker connect again and again until
  the next update (`CrossedReachable`, `CrossedNeverSettles`, `PendingIsVersion`).
- A reconnect request can be slept through until the delay is over (`FlagSleptThrough`), exactly if
  its notification came between the worker's test and its sleep (`AsleepFlaggedExactly`).

## Model

| member | source | states |
|---|---|---|
| ReceiveSafety.StepKeeps | usbmuxd2/TCP.cpp:299-393 | every critical section of every thread, also one that a rejected packet throws out of, keeps the invariant: packets in flight are numbered and held as the ledger says, each connection's bytes split into handed on, admitted and held, and whoever sleeps has a reason |
| ReceiveSafety.ReachableInv | usbmuxd2/Devices/USBDevice_receiver.cpp:22-38 | the invariant holds in every state that any interleaving of N receivers reaches |
| Delivery.DeliveredInOrder | usbmuxd2/TCP.cpp:372-392 | whatever the interleaving, what a client was handed is a prefix of the connection's byte stream, in order, each byte once, across both wraps |
| Delivery.RunExtends | usbmuxd2/TCP.cpp:339-390 | over any run what was handed on, admitted and acknowledged only grows |
| Delivery.AcceptedInOrder | usbmuxd2/Devices/USBDevice.cpp:395-409 | packets pass the mux turn in stream order, the i-th under number i mod 65536, and none is discarded as a duplicate |
| ReceiveSafety.NeverDropped | usbmuxd2/Devices/USBDevice.cpp:397-408 | every packet held but not accepted is fewer than N numbers ahead of the expected one, and both the entry test and the wait guard make it wait or accept it, never drop it, across the wrap |
| ReceiveSafety.MuxWindow | usbmuxd2/Devices/USBDevice.cpp:397-404 | for all numbers within N of the expected one, on both sides of the 16-bit wrap, the entry test accepts exactly the expected one and lets the others sleep |
| MuxOrder.OnlyExpectedPasses | usbmuxd2/Devices/USBDevice.cpp:391-410 | with any device: on entry exactly the expected number passes the mux turn, after a wait only outside the last N numbers before the wrap; exactly the numbers behind the expected one, with that outside the band, are dropped; everything else waits, and rx_seq moves only to a number that passed |
| MuxOrder.PassedInOrder | usbmuxd2/Devices/USBDevice.cpp:391-410 | in every run, for any device, the k-th packet to pass carries number k mod 65536 |
| UsbDeviceObject.WaitGuardMeans | usbmuxd2/Devices/USBDevice.cpp:398 | the wait guard as written, with its casts, is: expected number below the packet's, or expected number within N of the wrap |
| UsbDeviceObject.UsbDevice.MuxSection | usbmuxd2/Devices/USBDevice.cpp:391-410 | the locked section sleeps, drops or accepts exactly as the state machine says, moves rx_seq only when it accepts, and notifies unless it sleeps |
| Delivery.AckBookkeeping | usbmuxd2/TCP.cpp:314-341 | while a connection lives, ack - pktForwarded mod 2^32 is the payload the receivers hold admitted but not handed on, at most N full transfers; a receiver ended by a rejected acknowledgement keeps its payload for good |
| Delivery.AdmittedBytesAreHeld | usbmuxd2/TCP.cpp:372-391 | every byte between the two marks is held by exactly one receiver, in its forward turn or ended by the rejection of its acknowledgement |
| Holdings.ChainBound | usbmuxd2/Devices/USBDevice_receiver.cpp:22-31 | at most N full transfers lie between a connection's forwarded, admitted and accepted bytes |
| Holdings.AckTurnExact | usbmuxd2/TCP.cpp:331-337 | a data packet whose 32-bit number equals ack is the one at the admitted offset; the wrap cannot confuse two held packets |
| Holdings.FwdTurnExact | usbmuxd2/TCP.cpp:374-380 | likewise for pktForwarded and the forwarded offset |
| Delivery.AcksNeverRunAhead | usbmuxd2/TCP.cpp:120-180 | the acknowledgement numbers on everything sent after the handshake, resets and flushed data included, never go back and never cover a byte not admitted |
| Acks.TakenIsAcknowledged | usbmuxd2/TCP.cpp:341-347 | from every reachable state, taking a payload in its turn without a waiting sender makes acked equal to ack and sends an acknowledgement of everything admitted, if and only if what was not covered yet is no multiple of 2^32 bytes |
| Acks.AllAcknowledged | usbmuxd2/TCP.cpp:341-347 | over every run in which no acknowledgement is left to a sender or rejected, the last acknowledgement of every connection whose lock is free covers all it has admitted |
| Delivery.EndedByRejection | usbmuxd2/Devices/USBDevice.cpp:459-489 | under the hypotheses on the device, as many receivers have been ended by an exception as acknowledgements were rejected, so none if USB accepts everything |
| Addressing.PortIsolation | usbmuxd2/Devices/USBDevice.cpp:197-213 | in every run the program can make, whatever the device sends: map keys are nonzero and the source port of the stored connection, no two live connections share a port, and everything a client was handed is a concatenation of payloads of packets addressed to its connection's port |
| Reuse.FailsExactly | usbmuxd2/Devices/USBDevice.cpp:378-499 | in every run, for any device, a receiver's step ends its thread if and only if it brings a malformed transfer before its turn, a version packet or one too short behind it, anything but SYN/ACK and resets to a connection whose handshake is not through, or an acknowledgement that is due and rejected |
| Reuse.ReusedPortFails | usbmuxd2/Devices/USBDevice.cpp:199-213 | opening a closed port again while a data packet of the old connection is held makes its receiver fail |
| Reuse.StaleWaits | usbmuxd2/Devices/USBDevice.cpp:466-471 | or, once the new connection is set up with other numbers, makes it wait at the turn of a connection its packet does not belong to |
| Reuse.StaleDelivered | usbmuxd2/TCP.cpp:372-391 | or, with the same numbers, hands the old packet's byte to the new client, to whom the device has sent nothing |
| Inputs.ReceivedAsFramed | usbmuxd2/Devices/USBDevice.cpp:455-480 | a framed TCP packet is received with its port, number, kind of flags, fields and payload |
| Inputs.CutOffIsMalformed | usbmuxd2/Devices/USBDevice.cpp:390 | a frame of any protocol that loses its end but not its header is malformed |
| Inputs.FramedKinds | usbmuxd2/Devices/USBDevice.cpp:440-488 | a whole frame is never malformed; it is a version packet, too short, or a TCP packet exactly as its protocol and its length say (its fields are those of VersionRoundTrip, ReceivedAsFramed and NumberAsFramed) |
| Inputs.NumberAsFramed | usbmuxd2/Devices/USBDevice.cpp:395 | a whole version 2 frame of any protocol is received under the number it was framed with |
| Inputs.SegmentReceived | usbmuxd2/TCP.cpp:104-117 | a segment one side emits is received by the other with its destination port, numbers, window and payload, and as an acknowledgement or a reset exactly if it is one |
| Framing.VersionRoundTrip | usbmuxd2/Devices/USBDevice.cpp:445-452 | for both header versions, a framed version packet is read as the major and minor version it carries |
| Framing.ParseByPlace | usbmuxd2/Devices/USBDevice.cpp:378-464 | what is read from a buffer, by the places of its fields, most significant byte first: length at 4, protocol at 0 with 0 for version and 6 for TCP, sequence numbers at 12 and 14, and the version, the TCP header and the payload behind the header |
| Framing.FrameLayout | usbmuxd2/Devices/USBDevice.cpp:262-300 | where a frame carries protocol, length, magic number, both sequence numbers, TCP header and data |
| Framing.TcpLayout | usbmuxd2/TCP.cpp:104-113 | the fields of the TCP header lie where section 3.1 of RFC 9293 puts them |
| Framing.SetupBytes | usbmuxd2/Devices/USBDevice.cpp:508-510 | the 17 bytes of the SETUP frame |
| Framing.SegmentArrives | usbmuxd2/TCP.cpp:223-238 | a segment of up to TCP_MTU bytes, framed with its header, is read back with its ports, numbers, window, flags and payload |
| Framing.MtuIsLargest | usbmuxd2/TCP.hpp:59 | TCP_MTU is the largest multiple of 256 whose segments fit a transfer under a version 2 header |
| Connection.GreetingAcknowledged | usbmuxd2/TCP.cpp:312-319 | after the SYN, the SYN/ACK is acknowledged at once unless the device's first number is 2^32 - 1 |
| Connection.GreetedAgain | usbmuxd2/TCP.cpp:312-321 | after a SYN/ACK whose acknowledgement is rejected, the next one connects, unacknowledged and with the SYN counted twice |
| Progress.NoLostWakeup | usbmuxd2/TCP.cpp:331-349 | whoever sleeps on a ticket at the mux, ack or forward turn still has the condition it tested, unless it is the ack turn of a connection whose own acknowledgement was rejected |
| Progress.LosesWakeupExactly | usbmuxd2/TCP.cpp:341-349 | a step makes the condition of a sleeper at the ack turn true without waking it if and only if it loses a payload of that connection and the sleeper's packet is the one behind it |
| Stuck.LostWakeupReachable | usbmuxd2/TCP.cpp:341-349 | a run reaches a receiver asleep at the ack turn whose number has come |
| Stuck.LostWakeupHealed | usbmuxd2/TCP.cpp:286-297 | the teardown that follows wakes it |
| Progress.TeardownWakes | usbmuxd2/TCP.cpp:286-297 | the two sections of a teardown wake everyone asleep at the ack and at the forward turn |
| Progress.WokenLeaves | usbmuxd2/TCP.cpp:335-379 | a woken receiver leaves exactly if its connection is no longer connected, and otherwise goes back to its turn |
| Progress.OldestCanGoOn | usbmuxd2/TCP.cpp:329-381 | the receiver of the oldest packet held, unless its connection is no longer connected or a packet of it was rejected, is enabled if and only if it is not in the wrap band, not overtaken, and not about to look its connection up while the reaper is in the map |
| Progress.LivelyCanGoOn | usbmuxd2/TCP.cpp:331-381 | of the receivers that are neither overtaken nor on a connection no longer connected or spoiled by a rejected packet, the one with the oldest packet is enabled if and only if it is not in the wrap band and does not wait for the reaper to leave the map |
| Progress.NeverAllWait | usbmuxd2/Devices/USBDevice.cpp:397-404 | while there is such a receiver, one of them can go on, or is in the wrap band with the packet everybody waits for, or waits for the reaper to leave the map, whatever the state of the other receivers |
| Drain.EverythingIsHandedOn | usbmuxd2/TCP.cpp:331-392 | from every reachable state with no receiver in the wrap band and the reaper not stuck, some run of receiver steps, after the reaper has finished the port it is at, finishes all of them; then everything taken is accepted and, for every connected connection without a rejected packet, admitted and handed to the client |
| Turns.EveryRunDrains | usbmuxd2/TCP.cpp:299-393 | every run of receiver steps alone is bounded by a function of N, and one that cannot be continued leaves nobody who can be finished, unless one has the next packet in the wrap band or waits for the reaper |
| Turns.AckTurnFate | usbmuxd2/TCP.cpp:331-341 | with no receiver in the wrap band and no teardown under way, a receiver at its ack turn leaves it in some run of receiver steps if and only if it was not overtaken |
| Progress.MuxWaiterFate | usbmuxd2/Devices/USBDevice.cpp:398-403 | a waiter that has the next packet gets it accepted in some continuation if and only if its number plus N is below 65536 |
| Progress.BandStuck | usbmuxd2/Devices/USBDevice.cpp:398-403 | in the wrap band no packet is ever accepted again, in any run |
| Progress.BandReachable | usbmuxd2/Devices/USBDevice.cpp:395-409 | the wrap band is reached by a run for every N above 1 and every number in it |
| Stuck.OvertakenReachable | usbmuxd2/TCP.cpp:330-341 | a pure acknowledgement is overtaken by the data packet behind it |
| Stuck.OvertakenStuck | usbmuxd2/TCP.cpp:331-337 | then its receiver keeps waiting in any run, while the connection lives and fewer than 2^32 bytes follow |
| Stuck.AbandonedReachable | usbmuxd2/TCP.cpp:374-381 | a receiver takes its ticket after the teardown has notified |
| Fates.AbandonedForever | usbmuxd2/TCP.cpp:374-381 | and then sleeps in every run |
| Fates.ForwardWaiterFate | usbmuxd2/TCP.cpp:286-297 | a receiver asleep at the forward turn can be woken by some run if and only if its connection is torn down but still mapped, or is not torn down and either can be or has the next payload still held by a receiver that lives |
| Stuck.LostAndHeld | usbmuxd2/TCP.cpp:238-239 | with a payload lost and the lock left locked, a receiver behind the payload sleeps for good on a connected connection |
| Stuck.AbandonedAckReachable | usbmuxd2/TCP.cpp:331-337 | a receiver takes its next ticket at the ack turn after the teardown has notified |
| Fates.AbandonedAckForever | usbmuxd2/TCP.cpp:331-337 | and then sleeps in every run |
| Fates.AckWaiterFate | usbmuxd2/TCP.cpp:286-349 | a receiver asleep at the ack turn can be woken by some run if and only if its connection can still be torn down, or another receiver at the turn can have its packet admitted |
| Stuck.SegmentRejected | usbmuxd2/TCP.cpp:238-239 | a rejected segment leaves a receiver, and then the reaper, waiting for the connection's lock |
| Stuck.LookupBlocked | usbmuxd2/Devices/USBDevice.cpp:466-471 | and a packet for any connection waits for the map |
| Fates.LockedOutForever | usbmuxd2/TCP.cpp:303 | who waits for such a lock never moves again, in any run, for any device |
| Fates.ReaperStuckForever | usbmuxd2/Devices/USBDevice.cpp:132-139 | once the reaper is stuck the map never changes again, in any run |
| Fates.LockFate | usbmuxd2/TCP.cpp:286-303 | a receiver that needs a lock somebody else holds gets on in some run if and only if it is neither the lock of a connection left locked nor the map with the reaper stuck inside |
| Stuck.AckGoesBack | usbmuxd2/TCP.cpp:339-341 | two pure acknowledgements with one sequence number applied in the wrong order take seqAcked back |
| TcpConnection.Tcp.constructor | usbmuxd2/TCP.cpp:20-28 | a new connection is connecting, with seq and seqAcked equal to the number drawn, ack and acked 0, and an empty history |
| TcpConnection.Tcp.SendTcp | usbmuxd2/TCP.cpp:100-118 | one segment without payload with the given flag, from sPort to dPort, with the current numbers and the ring size in its window; acked becomes ack, also if USB rejects it |
| TcpConnection.Tcp.SendAckNoLock | usbmuxd2/TCP.cpp:120-141 | sends one acknowledgement of ack, from sPort to dPort, exactly if ack is not acknowledged yet; a rejected one counts as sent and throws |
| TcpConnection.Tcp.SendRst | usbmuxd2/TCP.cpp:143-180 | a reset carries the current numbers and does not count as acknowledging |
| TcpConnection.Tcp.AckTurn | usbmuxd2/TCP.cpp:331-349 | in its turn a packet sets inWin to 256 times its window field, seqAcked to its acknowledgement number, and adds its payload to ack; then acked is ack and exactly one acknowledgement of it has been sent if one was due, none if a sender waits or there is no payload, and none but acked changed if USB rejects it; everyone is notified unless it throws; out of its turn nothing changes; and it equals the section of the state machine |
| Packets.KindsDecide | usbmuxd2/TCP.cpp:312-350 | the five TCP kinds decide every test that is made on the flag byte, for every value of it |
| TcpConnection.Tcp.HandleInput | usbmuxd2/TCP.cpp:299-370 | in each connection state and for each kind of flags: what is taken from SYN/ACK and from a packet in its turn and what is sent for it, field by field; what leaves everything as it was, what throws, and when the connection asks to be closed; and it equals the section of the state machine |
| TcpConnection.Tcp.ForwardToClient | usbmuxd2/TCP.cpp:372-392 | at its turn on a connected connection the payload is appended to what the client got, pktForwarded moves past it and everyone is notified, also if send fails, which asks for the connection to be closed; out of its turn it sleeps, and on a connection no longer connected nothing happens; it equals the section of the state machine |
| TcpConnection.Tcp.Deconstruct | usbmuxd2/TCP.cpp:286-292 | teardown under the first lock |
| TcpConnection.Tcp.Connect | usbmuxd2/TCP.cpp:402-407 | first a SYN with the number drawn leaves; the ticket is taken before it, so the first reset, teardown or SYN/ACK whose acknowledgement is not rejected wakes the thread however early it comes, and nothing else does; it succeeds exactly if the connection is connected when the state is read, which takes such a SYN/ACK and no teardown since; a rejected SYN fails at once |
| TcpConnection.InputKeeps | usbmuxd2/TCP.cpp:311-341 | a packet keeps the send side good if and only if the acknowledgement number it applies is in order and it is not a SYN/ACK whose acknowledgement is rejected |
| Ring.UnackedIsDistance | usbmuxd2/TCP.cpp:18 | the macro is the distance of the unbounded offsets whenever that is below 2^32 |
| Ring.SlotOfWrapped | usbmuxd2/TCP.cpp:49-50 | a number's place in the ring does not depend on 32-bit wraps, since the ring's size divides 2^32 |
| Ring.FreeSpaceExact | usbmuxd2/TCP.cpp:47-53 | however much is outstanding, the room computed for recv stays inside the buffer, and is really free if and only if less than a full ring is outstanding; then it is the least of what is free and what is left to the end of the ring |
| Ring.FlushLengthExact | usbmuxd2/TCP.cpp:252-258 | what flush_data finds is the least of what is outstanding and what is left to the end of the ring, and empty only if nothing is outstanding |
| Ring.ReceiveRetains | usbmuxd2/TCP.cpp:70-86 | reading behind the send position keeps every byte within one ring at its number modulo the ring size |
| Sending.AcknowledgeKeeps | usbmuxd2/TCP.cpp:339-340 | an acknowledgement keeps the send side good if and only if it is applied in order |
| Sending.EmitKeeps | usbmuxd2/TCP.cpp:223-240 | emitting the next bytes within the window keeps the stream, the numbering, and outstanding data at most the window |
| Sending.TrueDistance | usbmuxd2/TCP.cpp:18 | in every good state unacked is the true number of outstanding bytes |
| Sending.ReceiveKeeps | usbmuxd2/TCP.cpp:70-86 | a recv no larger than the free room keeps every unacknowledged byte in the ring |
| Sending.FlushFinds | usbmuxd2/TCP.cpp:252-272 | after the first acknowledgement, the bytes at the acknowledged position of the ring are the oldest unacknowledged bytes of the stream |
| Sending.SendRunKeeps | usbmuxd2/TCP.cpp:37-241 | over every run of the send side with acknowledgements in order: the stream is emitted in order under its numbers, outstanding data stay within the widest window, and unless a window reached the ring's size every unacknowledged byte is in the ring |
| Sending.FullRingReachable | usbmuxd2/TCP.cpp:47-85 | with a first window of 512 KiB or more a run fills the ring, and all of it is computed to be free |
| Sending.FullRingLoses | usbmuxd2/TCP.cpp:70-71 | and the next read overwrites the oldest unacknowledged byte |
| TcpConnection.Tcp.WaitForEvent | usbmuxd2/TCP.cpp:211-214 | the sender wakes exactly when its event was notified; while it sleeps, the window, the acknowledged position and the connection state are those it tested under the lock, unless a packet was counted and its acknowledgement rejected meanwhile; a teardown always wakes it |
| TcpConnection.Tcp.AwaitRoom | usbmuxd2/TCP.cpp:191-219 | it ends with the least of what is asked and what the window leaves; a wake that does not find the connection connected aborts it, and nothing else does |
| TcpConnection.Tcp.EmitData | usbmuxd2/TCP.cpp:220-240 | one ACK segment from sPort to dPort, numbered iss + 1 + offset, carrying ack and the next bytes of the client's stream, within the window; ack counts as acknowledged; if USB rejects it the bytes are numbered all the same and the lock stays locked |
| TcpConnection.Tcp.SendData | usbmuxd2/TCP.cpp:182-241 | if it sends, on the fast or the slow path, it sends the least of what is asked, TCP_MTU and what fits the window of the moment, the next bytes of the stream in one segment of the connection; at once if all of it fits; it leaves the lock locked exactly if it throws because USB rejects the segment; it is aborted exactly if it woke to a connection not connected; otherwise it fails to send only if the window is closed, or was opened by a packet whose acknowledgement was rejected, and nothing is left to wake it |
| TcpConnection.Tcp.ReceiveFromClient | usbmuxd2/TCP.cpp:71 | recv puts the bytes where the ring wants them and keeps all others that are still needed |
| TcpConnection.Tcp.SendAll | usbmuxd2/TCP.cpp:80-85 | the cutting loop ends and sends everything read, unless the connection is found not connected after a wait, nothing is left to wake it, or a segment is rejected, which ends it with the lock locked; if all of it fits the window, it takes no more segments than needed |
| TcpConnection.Tcp.LoopEvent | usbmuxd2/TCP.cpp:37-94 | one round reads as much of what the client wrote as the room computed before the poll allows, and when it continues all of it has been sent, in order; it leaves the lock locked exactly if the first segment after those USB accepted was emitted; it fails otherwise only on an error of poll or recv, which asks for the connection to be closed, or when a wait ended without a connection; the ring invariant holds throughout |
| TcpConnection.Tcp.FlushData | usbmuxd2/TCP.cpp:243-273 | one segment under the acknowledged number with the least of TCP_MTU, what is outstanding and what is left to the end of the ring; after the first acknowledgement it carries exactly the oldest unacknowledged bytes; acked stays; nothing changes if it is rejected |
| Framing.FrameRoundTrip | usbmuxd2/Devices/USBDevice.cpp:262-300 | for both versions, any TCP header and any payload up to TCP_MTU fit the transfer, pass the length check and parse back unchanged |
| Framing.ParseRoundTrip | usbmuxd2/Devices/USBDevice.cpp:382-464 | a buffer accepted as a TCP packet is the frame of what was read from it, if and only if its magic number is right |
| UsbTransfer.RegroupTransfer | usbmuxd2/Devices/USBDevice.cpp:346-348 | the packets of one transfer end it exactly if its length is not a positive multiple of wMaxPacketSize |
| UsbTransfer.BoundariesSurvive | usbmuxd2/Devices/USBDevice.cpp:346-366 | for any buffers and any packet size, regrouping at each short packet recovers exactly the buffers |
| UsbTransfer.WithoutEmptyTransfer | usbmuxd2/Devices/USBDevice.cpp:348-366 | without the empty transfer a nonempty buffer arrives if and only if its length is not a multiple of the packet size |
| UsbDeviceObject.UsbDevice.UsbSend | usbmuxd2/Devices/USBDevice.cpp:312-367 | submits the buffer and, if its last packet is full, an empty transfer, up to the first that is not accepted; succeeds exactly if all were |
| UsbDeviceObject.UsbDevice.FramesArrive | usbmuxd2/Devices/USBDevice.cpp:346-366 | as long as every submission was accepted, regrouping what was submitted at each short packet gives exactly the frames sent |
| UsbDeviceObject.UsbDevice.Stamp | usbmuxd2/Devices/USBDevice.cpp:278-290 | the i-th version 2 packet since SETUP carries number i mod 65536; SETUP starts both directions anew |
| UsbDeviceObject.UsbDevice.SendPacket | usbmuxd2/Devices/USBDevice.cpp:251-307 | refuses exactly what exceeds USB_MTU, and otherwise submits the frame of its arguments under the next number, which is used up even if the submission fails; then the device is killed |
| UsbDeviceObject.UsbDevice.DeviceVersionInput | usbmuxd2/Devices/USBDevice.cpp:498-517 | throws when already active, kills on an unknown version, otherwise takes the version over and, for version 2, sends the bytes of SETUP as number 0 and expects the device's number 0, which is where the receivers' runs start; if SETUP cannot be sent the device is killed and does not become active |
| UsbDeviceObject.UsbDevice.MuxInit | usbmuxd2/Devices/USBDevice.cpp:241-249 | the 20 bytes that ask a device for version 2.0 |
| UsbDeviceObject.UsbDevice.SendSegment | usbmuxd2/TCP.cpp:223-240 | a segment leaves in one frame that the other side reads as that segment, and is never too large |
| UsbDeviceObject.UsbDevice.SendReset | usbmuxd2/TCP.cpp:416-428 | the answer to a packet without a connection has its ports and numbers exchanged and the RST flag alone |
| UsbDeviceObject.UsbDevice.SendersApart | usbmuxd2/Devices/USBDevice.cpp:197-213 | two connections of a device never send under the same port |
| UsbDeviceObject.UsbDevice.DeviceDataInput | usbmuxd2/Devices/USBDevice.cpp:443-496 | by the bytes of the buffer: a bad length throws, a version packet has the effect of its major version, a TCP packet goes to the connection on its destination port with header and payload, or is answered with a reset, and everything else is ignored |
| UsbDeviceObject.UsbDevice.ProbePort | usbmuxd2/Devices/USBDevice.cpp:199-206 | for every start value and map the probing ends on the first free nonzero port going up and around, and fails if and only if all 65535 are taken |
| UsbDeviceObject.UsbDevice.Allocate | usbmuxd2/Devices/USBDevice.cpp:197-213 | the locked part: a new connection under the first free port from the counter on, which stays there, or none if and only if all are taken |
| UsbDeviceObject.FewTakenLeavesOne | usbmuxd2/Devices/USBDevice.cpp:195 | with fewer than 0xffff entries some port is free |
| UsbDeviceObject.FirstUsableUnique | usbmuxd2/Devices/USBDevice.cpp:200-206 | the first free port is determined by the map and the start value |
| UsbDeviceObject.UsbDevice.StartConnect | usbmuxd2/Devices/USBDevice.cpp:193-213 | with any connections made and any rounds of the reaper between the unlocked size test and the lock: the map at the scan is the map at the test with the logged changes, and the scan starts from the port of the last connect in between, or else from where the counter was; it fails exactly with 0xfff0 or more connections at the test or no free port at the scan, which takes 16 other connects, or stalls because the reaper holds the map for good; otherwise a new connection is stored under the first free port from there, the counter stays on it, and no other entry changes |
| UsbDeviceObject.UsbDevice.ReapOne | usbmuxd2/Devices/USBDevice.cpp:124-142 | a round of the reaper takes the oldest request, tears its connection down if there is one, unmaps it and notifies, and touches no other connection; it never ends exactly if that connection's lock was left locked |
| UsbDeviceObject.UsbDevice.PostAll | usbmuxd2/Devices/USBDevice.cpp:175-180 | every port mapped is queued for the reaper, once, and no other |
| UsbDeviceObject.UsbDevice.DrainConnections | usbmuxd2/Devices/USBDevice.cpp:173-190 | whatever further close requests arrive, the teardown of a device ends if and only if no mapped connection's lock was left locked, then with the map empty and every connection torn down once; at each moment it sleeps the map is not empty and every mapped port is in the reaper's queue |
| Teardown.SleepsForAReason | usbmuxd2/Devices/USBDevice.cpp:181-189 | in every run of the departing thread, the reaper and everybody else, the thread sleeps only with the map not empty, and every connection mapped since before the posting is one the reaper is at or will come to |
| Teardown.EveryRunReturns | usbmuxd2/Devices/USBDevice.cpp:120-190 | if every mapped connection is queued and its lock not left locked, every run of the two threads alone is bounded by the work to do and, when it cannot be continued, has returned |
| Teardown.ReturnsAloneExactly | usbmuxd2/Devices/USBDevice.cpp:120-190 | the two threads alone reach the return in some run if and only if that condition holds |
| Teardown.ReturnsExactly | usbmuxd2/TCP.cpp:238-239 | any run at all reaches the return if and only if no mapped connection's lock was left locked |
| Teardown.HeldNeverReturns | usbmuxd2/TCP.cpp:286-292 | such a connection stays mapped and the teardown does not return, whatever happens |
| Teardown.LateConnection | usbmuxd2/Devices/USBDevice.cpp:173-213 | a connection made after the posting keeps the two threads alone from ever returning |
| DeviceIds.ScanMisses | usbmuxd2/Muxer.cpp:134-142 | a pass over numbers without newid leaves it |
| DeviceIds.ScanHitsOnce | usbmuxd2/Muxer.cpp:134-142 | a pass in any order over numbers with newid but not newid + 1 ends on newid + 1 |
| DeviceIds.ScanSafeExactly | usbmuxd2/Muxer.cpp:134-143 | the pass yields a free number in every order if and only if newid or newid + 1 is free |
| DeviceIds.Muxer.PassOverDevices | usbmuxd2/Muxer.cpp:132-142 | the loop ends with the result of one full pass over all devices in some order, started again from 1 only if MAXID was in use |
| DeviceIds.Muxer.IdForDevice | usbmuxd2/Muxer.cpp:331-341 | the id of the device with that serial and type, 0 if and only if there is none |
| DeviceIds.Muxer.FreshBase | usbmuxd2/Muxer.cpp:128-144 | the pass starts from newid, or from 1 if MAXID was in use; whatever the order, it yields that number if it is free, and the next one if only that is |
| DeviceIds.Muxer.AddDevice | usbmuxd2/Muxer.cpp:121-154 | the base is that of the other appearance of the device, which keeps the invariant (ids distinct, odd exactly for Wi-Fi, one base for one serial and only for one); otherwise it is the number found by the pass, and the invariant is kept if and only if that number was free, as it was if the pass started from a free number or one before a free number |
| DeviceIds.Muxer.AddAhead | usbmuxd2/Muxer.cpp:121-154 | while every number in use is at most newid and MAXID is free, adding keeps all of that and the invariant, and a new device gets newid if it is free and newid + 1 if not |
| DeviceIds.Muxer.RacingAdds | usbmuxd2/Muxer.cpp:128-154 | two new devices numbered before either is inserted get the same base, and the invariant is kept if and only if they have the same serial |
| DeviceIds.Muxer.IdsDistinct | usbmuxd2/Muxer.cpp:143-147 | no two live devices have the same id |
| DeviceIds.Muxer.DeleteDevice | usbmuxd2/Muxer.cpp:184-188 | removal keeps the invariant |
| DeviceIds.Muxer.FindDevice | usbmuxd2/Muxer.cpp:349-361 | the lookup by id fails exactly if no device has the id, and otherwise has one possible answer |
| WifiDeviceObject.WifiDevice.UpdateDiscoveryInfo | usbmuxd2/Devices/WIFIDevice.cpp:102-118 | the version is raised exactly when the information changed, so a version names one piece of information |
| WifiDeviceObject.WifiDevice.SnapshotDiscoveryInfo | usbmuxd2/Devices/WIFIDevice.cpp:47-55 | a snapshot is the information its version names |
| WifiSession.StepKeeps | usbmuxd2/Devices/WIFIConnectionSession.cpp:88-247 | every atomic access of the worker, the updater and the callers keeps the session's invariant |
| WifiSession.PendingIsVersion | usbmuxd2/Devices/WIFIConnectionSession.cpp:216-247 | while a worker runs and no announcement is being stored, the pending version is the device's, if and only if the last start did not overwrite an announcement |
| WifiSession.SettledIsNewest | usbmuxd2/Devices/WIFIConnectionSession.cpp:58-115 | a session that passes the check of its heartbeat loop has connected with the newest version, even if the attempt cleared the flag of a concurrent update |
| WifiSession.RequestServed | usbmuxd2/Devices/WIFIConnectionSession.cpp:88-247 | once the reconnect flag is set, an attempt begins or the worker exits within 38 worker steps, in every run |
| WifiSession.UpdateSeen | usbmuxd2/Devices/WIFIConnectionSession.cpp:58-115 | every announced update is followed by an attempt that began after it, or the worker exits, within 38 worker steps, in every run |
| WifiSession.StopHonoured | usbmuxd2/Devices/WIFIConnectionSession.cpp:92-234 | a worker told to stop exits within 38 of its steps, in every run |
| WifiSession.RetryDelay | usbmuxd2/Devices/WIFIConnectionSession.cpp:44-56 | the k-th retry since the last connection, counted from 0, waits entry k mod 6 of the table |
| WifiSession.LeavesExactly | usbmuxd2/Devices/WIFIConnectionSession.cpp:108-143 | the heartbeat loop is left exactly if it is found to be time to stop, another version is pending, the flag is set, or a heartbeat is not received or not answered |
| WifiSession.ConnectionLost | usbmuxd2/Devices/WIFIConnectionSession.cpp:151-175 | in every reachable state: the wait of 60 s follows exactly if no reconnect is due and the last command heard on the connection was SleepyTime, giving the device up exactly if it was not, and otherwise the next attempt at once |
| WifiSession.ConnectionLostAlone | usbmuxd2/Devices/WIFIConnectionSession.cpp:147-175 | the same from the end of the heartbeats on, for a worker nobody interferes with |
| WifiSession.Attempted | usbmuxd2/Devices/WIFIConnectionSession.cpp:98-103 | a failed attempt gives the device up, a successful one starts heartbeats and retries anew |
| WifiSession.AttemptAlone | usbmuxd2/Devices/WIFIConnectionSession.cpp:58-99 | a round nobody interferes with takes the newest version, clears the flag and makes the attempt |
| WifiSession.FlagCleared | usbmuxd2/Devices/WIFIConnectionSession.cpp:62-151 | the worker clears the flag exactly before an attempt and when a connection is lost |
| WifiSession.ExitsExactly | usbmuxd2/Devices/WIFIConnectionSession.cpp:92-186 | the worker exits exactly if it is to stop, the device is gone, heartless devices or retries are not allowed, and removes the device exactly in the third case |
| WifiSession.PauseDelay | usbmuxd2/Devices/WIFIConnectionSession.cpp:44-194 | a worker in its pause waits 60 s if the last command heard was SleepyTime, and otherwise the table entry of its last retry |
| WifiSession.PauseEnds | usbmuxd2/Devices/WIFIConnectionSession.cpp:165-194 | a pause ends exactly if it is found to be time to stop, the flag is set, another version is pending, or the delay is over |
| WifiSession.CallersAlone | usbmuxd2/Devices/WIFIConnectionSession.cpp:225-247 | what an update, a request and a stop leave behind when nobody interferes, with the worker awake |
| WifiSession.CrossedReachable | usbmuxd2/Devices/WIFIConnectionSession.cpp:216-222 | a start, whose stores are steps of their own, can overwrite an announcement |
| WifiSession.CrossedNeverSettles | usbmuxd2/Devices/WIFIConnectionSession.cpp:109-157 | after that no check is passed and no wait is slept through until the next announcement |
| WifiSession.AsleepFlaggedExactly | usbmuxd2/Devices/WIFIConnectionSession.cpp:165-168 | while the worker sleeps, is not to stop and nobody is about to notify, the flag is set if and only if a notification came with the flag set between the worker's test and its sleep |
| WifiSession.FlagSleptThrough | usbmuxd2/Devices/WIFIConnectionSession.cpp:191-194 | which a run reaches |

## Left out

- Hypotheses on the device, in `Receivers.Orderly`: it numbers its packets consecutively, sends data
  only after the handshake, in stream order, with the plain ACK flag, answers a SYN with SYN/ACK
  without payload or with a reset, and no packet for an earlier connection on a port is under way
  when the port is opened again. `Addressing.dfy`, `MuxOrder.dfy` and `Reuse.dfy` do without them.
- Interleaving inside a critical section: each section is one step, since all of them run under the
  lock that guards what they touch. The unlocked reads of the connection state after a wait are steps
  of their own.
- The client of a connection: `send` is a log of hand-offs. The code counts a payload as forwarded
  even if `send` fails, and so does the log.
- TcpConnection.Tcp.SendData: calls that never return are not ruled out; arrivals while a thread
  waits are a finite list, and a thread still waiting at its end reports that. Nothing is claimed
  about sending on a connection set up by a second SYN/ACK, after the acknowledgement of the first
  was rejected (`Connection.GreetedAgain`).
- What the program does once a receiver's thread has ended: the exception posts the device to its
  reaper, which `Teardown.dfy` takes up from there.
- TcpConnection.Tcp.LoopEvent: the inner loop after POLLHUP, which reads again without computing the
  free room again, is not modelled. What is there to read when recv is called is a parameter.
- TcpConnection.InputKeeps: the code does not see to it itself that acknowledgement numbers are
  applied in order (`Stuck.AckGoesBack`); `TcpConnection.Tcp.Arrive` takes them to be.
- TcpConnection.Tcp.FlushData: nothing is claimed before the first acknowledgement, when the
  acknowledged position is the SYN's, or once a window of 512 KiB or more was advertised.
- Progress.OldestCanGoOn: says nothing on a connection no longer connected or with a rejected packet;
  there `Fates.ForwardWaiterFate`, `Fates.AckWaiterFate` and `Fates.LockFate` say who can still move.
- Turns.AckTurnFate: supposes that no teardown is under way, since a receiver in front may need the map
  and only the reaper can release it.
- UsbDeviceObject.UsbDevice.MuxInit: for a device whose version is not known yet, as when it is added.
- UsbDeviceObject.UsbDevice.DrainConnections: no new connection is made and no further lock is left
  locked meanwhile, and the close requests of other threads are a finite list; `Teardown.dfy` has
  all of these as steps.
- DeviceIds.Muxer.AddDevice: one call at a time, although the scan and the insertion are separate
  critical sections (`RacingAdds` is the case of two at once); one appearance of a device is added
  once, and there are fewer than MAXID devices, without which the pass may not end.
- WifiSession.RequestServed: a wait ends at the latest with its delay, which is one worker step here;
  how long it lasts is not modelled.
- WifiSession.PendingIsVersion: one thread updates at a time, a start does not overlap a stop, and the
  64-bit version does not wrap.
- Reassembly of split packets in `device_data_input`: the length check before it makes it
  unreachable, and `pktlen` stays 0.
- Mux version 1 receive order, CONTROL payloads (whose offset takes the version 2 header for
  granted), and buffers shorter than the header, whose stale bytes the code would read.
- libusb, sockets, threads, memory and object lifetimes: transfers submitted, bytes received and
  outcomes of calls are parameters or logs.
- The client protocol, pairing records, preflight, device managers, discovery and the listeners.
- The reported session state, which nothing in the session reads.
