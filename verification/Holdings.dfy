/** What the parallel receivers hold between them, stripped of tickets and locks.

    A receiver takes the next packet of the device's stream (Pre), has it accepted
    at its mux turn (AckTurn), admitted at its acknowledgement turn (FwdTurn), and
    hands the payload on. The ledger relates those holdings to the unbounded
    counts behind the wrapping fields rx_seq, ack and pktForwarded. */
module Holdings {
  import opened Wrapping
  import opened Packets
  import opened Sums

  datatype Hold = Free | Pre(i: nat) | AckTurn(i: nat) | FwdTurn(i: nat)

  /** accepted packets have passed their mux turn; owner[i] took packet i. */
  datatype Ledger = Ledger(stream: seq<Packet>, accepted: nat, owner: seq<nat>, holds: seq<Hold>)

  function PreLoad(h: Hold): nat { if h.Pre? then 1 else 0 }

  function AckLoad(stream: seq<Packet>, h: Hold, c: nat): nat {
    if h.AckTurn? && h.i < |stream| then Len(stream[h.i], c) else 0
  }

  function FwdLoad(stream: seq<Packet>, h: Hold, c: nat): nat {
    if h.FwdTurn? && h.i < |stream| then Len(stream[h.i], c) else 0
  }

  function PreLoads(holds: seq<Hold>): seq<nat> {
    seq(|holds|, r requires 0 <= r < |holds| => PreLoad(holds[r]))
  }

  function AckLoads(stream: seq<Packet>, holds: seq<Hold>, c: nat): seq<nat> {
    seq(|holds|, r requires 0 <= r < |holds| => AckLoad(stream, holds[r], c))
  }

  function FwdLoads(stream: seq<Packet>, holds: seq<Hold>, c: nat): seq<nat> {
    seq(|holds|, r requires 0 <= r < |holds| => FwdLoad(stream, holds[r], c))
  }

  /** Changing one receiver's holding changes each sum by that receiver's load. */
  lemma MoveLoads(stream: seq<Packet>, holds: seq<Hold>, r: nat, h: Hold, c: nat)
    requires r < |holds|
    ensures Sum(PreLoads(holds[r := h])) == Sum(PreLoads(holds)) - PreLoad(holds[r]) + PreLoad(h)
    ensures Sum(AckLoads(stream, holds[r := h], c))
         == Sum(AckLoads(stream, holds, c)) - AckLoad(stream, holds[r], c) + AckLoad(stream, h, c)
    ensures Sum(FwdLoads(stream, holds[r := h], c))
         == Sum(FwdLoads(stream, holds, c)) - FwdLoad(stream, holds[r], c) + FwdLoad(stream, h, c)
  {
    assert PreLoads(holds[r := h]) == PreLoads(holds)[r := PreLoad(h)];
    SumUpdate(PreLoads(holds), r, PreLoad(h));
    assert AckLoads(stream, holds[r := h], c) == AckLoads(stream, holds, c)[r := AckLoad(stream, h, c)];
    SumUpdate(AckLoads(stream, holds, c), r, AckLoad(stream, h, c));
    assert FwdLoads(stream, holds[r := h], c) == FwdLoads(stream, holds, c)[r := FwdLoad(stream, h, c)];
    SumUpdate(FwdLoads(stream, holds, c), r, FwdLoad(stream, h, c));
  }

  /** ---- The mux half: who holds what ---- */

  ghost predicate HoldOk(l: Ledger, r: nat)
    requires r < |l.holds|
  {
    match l.holds[r]
    case Free => true
    case Pre(i) => l.accepted <= i < |l.owner| && l.owner[i] == r
    case AckTurn(i) => i < l.accepted && i < |l.owner| && l.owner[i] == r
    case FwdTurn(i) => i < l.accepted && i < |l.owner| && l.owner[i] == r
  }

  ghost predicate MuxInv(l: Ledger) {
    && l.accepted <= |l.owner| <= |l.stream|
    && (forall i :: 0 <= i < |l.owner| ==> l.owner[i] < |l.holds|)
    && (forall r :: 0 <= r < |l.holds| ==> HoldOk(l, r))
    && (forall i :: l.accepted <= i < |l.owner| ==> l.holds[l.owner[i]] == Pre(i))
    && Sum(PreLoads(l.holds)) == |l.owner| - l.accepted
  }

  /** ---- One live connection: admitted and forwarded byte counts ---- */

  ghost predicate AckAhead(l: Ledger, c: nat, admitted: nat, r: nat)
    requires MuxInv(l) && r < |l.holds|
  {
    l.holds[r].AckTurn? && l.holds[r].i < |l.stream| && Data(l.stream[l.holds[r].i], c) ==>
      admitted <= Off(l.stream, c, l.holds[r].i)
  }

  ghost predicate FwdBetween(l: Ledger, c: nat, admitted: nat, forwarded: nat, r: nat)
    requires MuxInv(l) && r < |l.holds|
  {
    l.holds[r].FwdTurn? && l.holds[r].i < |l.stream| && Data(l.stream[l.holds[r].i], c) ==>
      forwarded <= Off(l.stream, c, l.holds[r].i) && Off(l.stream, c, l.holds[r].i + 1) <= admitted
  }

  ghost predicate Tracked(l: Ledger, c: nat, admitted: nat, forwarded: nat, i: nat)
    requires MuxInv(l) && i < l.accepted
  {
    Data(l.stream[i], c) ==>
      if admitted < Off(l.stream, c, i + 1) then l.holds[l.owner[i]] == AckTurn(i)
      else forwarded < Off(l.stream, c, i + 1) ==> l.holds[l.owner[i]] == FwdTurn(i)
  }

  /** The bytes of c split into forwarded, admitted, accepted: no byte lies
      between two of these marks unless a receiver holds it. */
  ghost predicate Chain(l: Ledger, c: nat, admitted: nat, forwarded: nat)
    requires MuxInv(l)
  {
    && forwarded <= admitted <= Off(l.stream, c, l.accepted)
    && (forall r :: 0 <= r < |l.holds| ==> AckAhead(l, c, admitted, r))
    && (forall r :: 0 <= r < |l.holds| ==> FwdBetween(l, c, admitted, forwarded, r))
    && (forall i :: 0 <= i < l.accepted ==> Tracked(l, c, admitted, forwarded, i))
    && Sum(AckLoads(l.stream, l.holds, c)) == Off(l.stream, c, l.accepted) - admitted
    && Sum(FwdLoads(l.stream, l.holds, c)) == admitted - forwarded
  }

  ghost predicate SmallPayloads(stream: seq<Packet>) {
    forall i :: 0 <= i < |stream| ==> |stream[i].payload| <= USB_MRU
  }

  /** ---- Bounds ---- */

  /** At most n packets are held before their mux turn. */
  lemma HeldBound(l: Ledger)
    requires MuxInv(l)
    ensures |l.owner| - l.accepted <= |l.holds|
  {
    SumBound(PreLoads(l.holds), 1);
  }

  /** At most n full transfers lie between accepted and forwarded. */
  lemma ChainBound(l: Ledger, c: nat, admitted: nat, forwarded: nat)
    requires MuxInv(l) && SmallPayloads(l.stream) && Chain(l, c, admitted, forwarded)
    ensures Off(l.stream, c, l.accepted) - admitted <= |l.holds| * USB_MRU
    ensures admitted - forwarded <= |l.holds| * USB_MRU
  {
    SumBound(AckLoads(l.stream, l.holds, c), USB_MRU);
    SumBound(FwdLoads(l.stream, l.holds, c), USB_MRU);
  }

  /** ---- Moves ---- */

  function Sent(l: Ledger, p: Packet): Ledger { l.(stream := l.stream + [p]) }

  function Took(l: Ledger, r: nat): Ledger
    requires r < |l.holds|
  {
    l.(owner := l.owner + [r], holds := l.holds[r := Pre(|l.owner|)])
  }

  function Accepted(l: Ledger, r: nat): Ledger
    requires r < |l.holds| && l.holds[r].Pre?
  {
    l.(accepted := l.accepted + 1, holds := l.holds[r := AckTurn(l.holds[r].i)])
  }

  function Moved(l: Ledger, r: nat, h: Hold): Ledger
    requires r < |l.holds|
  {
    l.(holds := l.holds[r := h])
  }

  lemma SentKeeps(l: Ledger, p: Packet)
    requires MuxInv(l)
    ensures MuxInv(Sent(l, p))
    ensures forall c: nat, a: nat, f: nat {:trigger Chain(Sent(l, p), c, a, f)} :: Chain(l, c, a, f) ==> Chain(Sent(l, p), c, a, f)
  {
    var l' := Sent(l, p);
    assert forall r :: 0 <= r < |l.holds| ==> HoldOk(l, r) ==> HoldOk(l', r);
    forall c: nat, a: nat, f: nat | Chain(l, c, a, f)
      ensures Chain(l', c, a, f)
    {
      SentKeepsChain(l, p, c, a, f);
    }
  }

  lemma SentKeepsChain(l: Ledger, p: Packet, c: nat, a: nat, f: nat)
    requires MuxInv(l) && MuxInv(Sent(l, p)) && Chain(l, c, a, f)
    ensures Chain(Sent(l, p), c, a, f)
  {
    var l' := Sent(l, p);
    forall i: nat | i <= |l.stream|
      ensures Off(l'.stream, c, i) == Off(l.stream, c, i)
    {
      OffStable(l.stream, [p], c, i);
    }
    forall r | 0 <= r < |l.holds|
      ensures AckAhead(l', c, a, r) && FwdBetween(l', c, a, f, r)
    {
      assert AckAhead(l, c, a, r) && FwdBetween(l, c, a, f, r) && HoldOk(l, r);
    }
    forall i | 0 <= i < l.accepted
      ensures Tracked(l', c, a, f, i)
    {
      assert Tracked(l, c, a, f, i);
      assert l'.stream[i] == l.stream[i];
    }
    forall r | 0 <= r < |l.holds|
      ensures AckLoads(l'.stream, l'.holds, c)[r] == AckLoads(l.stream, l.holds, c)[r]
      ensures FwdLoads(l'.stream, l'.holds, c)[r] == FwdLoads(l.stream, l.holds, c)[r]
    {
      assert HoldOk(l, r);
    }
    assert AckLoads(l'.stream, l'.holds, c) == AckLoads(l.stream, l.holds, c);
    assert FwdLoads(l'.stream, l'.holds, c) == FwdLoads(l.stream, l.holds, c);
  }

  lemma TookKeeps(l: Ledger, r: nat)
    requires MuxInv(l) && r < |l.holds| && l.holds[r].Free? && |l.owner| < |l.stream|
    ensures MuxInv(Took(l, r))
  {
    var l' := Took(l, r);
    MoveLoads(l.stream, l.holds, r, Pre(|l.owner|), 0);
    forall q | 0 <= q < |l.holds|
      ensures HoldOk(l', q)
    {
      assert HoldOk(l, q);
    }
    forall i | l'.accepted <= i < |l'.owner|
      ensures l'.holds[l'.owner[i]] == Pre(i)
    {
      if i < |l.owner| {
        assert l.holds[l.owner[i]] == Pre(i);
      }
    }
  }

  lemma TookKeepsChain(l: Ledger, r: nat, c: nat, a: nat, f: nat)
    requires MuxInv(l) && r < |l.holds| && l.holds[r].Free? && MuxInv(Took(l, r)) && Chain(l, c, a, f)
    ensures Chain(Took(l, r), c, a, f)
  {
    var l' := Took(l, r);
    MoveLoads(l.stream, l.holds, r, Pre(|l.owner|), c);
    OtherHoldsKept(l, l', r, c, a, f);
  }

  /** The holdings of the other receivers keep their place in the chain. */
  lemma OtherHoldsKept(l: Ledger, l': Ledger, r: nat, c: nat, a: nat, f: nat)
    requires MuxInv(l) && MuxInv(l') && l'.stream == l.stream && |l'.holds| == |l.holds| && r < |l.holds|
    requires l.accepted <= l'.accepted && l.owner <= l'.owner
    requires Chain(l, c, a, f)
    requires forall q :: 0 <= q < |l.holds| && q != r ==> l'.holds[q] == l.holds[q]
    ensures forall q :: 0 <= q < |l.holds| && q != r ==> AckAhead(l', c, a, q) && FwdBetween(l', c, a, f, q)
    ensures forall i :: 0 <= i < l.accepted && l.owner[i] != r ==> Tracked(l', c, a, f, i)
    ensures (forall i :: 0 <= i < l.accepted && l.owner[i] == r ==> l.holds[r] != AckTurn(i) && l.holds[r] != FwdTurn(i))
         ==> forall i :: 0 <= i < l.accepted ==> Tracked(l', c, a, f, i)
  {
    forall q | 0 <= q < |l.holds| && q != r
      ensures AckAhead(l', c, a, q) && FwdBetween(l', c, a, f, q)
    {
      assert AckAhead(l, c, a, q) && FwdBetween(l, c, a, f, q);
    }
    forall i | 0 <= i < l.accepted && (l.owner[i] != r || (l.holds[r] != AckTurn(i) && l.holds[r] != FwdTurn(i)))
      ensures Tracked(l', c, a, f, i)
    {
      assert Tracked(l, c, a, f, i);
      assert l'.owner[i] == l.owner[i];
    }
  }

  /** Only the packet whose number is the expected one is accepted. */
  lemma AcceptedKeeps(l: Ledger, r: nat)
    requires MuxInv(l) && r < |l.holds| && l.holds[r] == Pre(l.accepted)
    ensures MuxInv(Accepted(l, r))
  {
    var l' := Accepted(l, r);
    assert HoldOk(l, r);
    MoveLoads(l.stream, l.holds, r, AckTurn(l.accepted), 0);
    forall q | 0 <= q < |l.holds|
      ensures HoldOk(l', q)
    {
      assert HoldOk(l, q);
    }
    forall i | l'.accepted <= i < |l'.owner|
      ensures l'.holds[l'.owner[i]] == Pre(i)
    {
      assert l.holds[l.owner[i]] == Pre(i);
    }
  }

  lemma AcceptedKeepsChain(l: Ledger, r: nat, c: nat, a: nat, f: nat)
    requires MuxInv(l) && r < |l.holds| && l.holds[r] == Pre(l.accepted) && MuxInv(Accepted(l, r))
    requires Chain(l, c, a, f)
    ensures Chain(Accepted(l, r), c, a, f)
  {
    var l' := Accepted(l, r);
    var i := l.accepted;
    assert HoldOk(l, r);
    MoveLoads(l.stream, l.holds, r, AckTurn(i), c);
    OtherHoldsKept(l, l', r, c, a, f);
    assert AckAhead(l', c, a, r) && FwdBetween(l', c, a, f, r);
    assert Off(l.stream, c, i + 1) == Off(l.stream, c, i) + Len(l.stream[i], c);
    assert Tracked(l', c, a, f, i);
  }

  /** A receiver leaves: it held nothing for the mux turn, and its sum is not needed. */
  lemma MovedKeeps(l: Ledger, r: nat, h: Hold)
    requires MuxInv(l) && r < |l.holds| && !l.holds[r].Pre? && !l.holds[r].Free?
    requires h == Free || (h.FwdTurn? && h.i == l.holds[r].i)
    ensures MuxInv(Moved(l, r, h))
  {
    var l' := Moved(l, r, h);
    assert HoldOk(l, r);
    MoveLoads(l.stream, l.holds, r, h, 0);
    forall q | 0 <= q < |l.holds|
      ensures HoldOk(l', q)
    {
      assert HoldOk(l, q);
    }
    forall i | l'.accepted <= i < |l'.owner|
      ensures l'.holds[l'.owner[i]] == Pre(i)
    {
      assert l.holds[l.owner[i]] == Pre(i);
    }
  }

  /** What happens to a packet without bytes for c does not concern c. */
  lemma MovedKeepsOther(l: Ledger, r: nat, h: Hold, c: nat, a: nat, f: nat)
    requires MuxInv(l) && r < |l.holds| && !l.holds[r].Pre? && !l.holds[r].Free?
    requires h == Free || (h.FwdTurn? && h.i == l.holds[r].i)
    requires MuxInv(Moved(l, r, h)) && Chain(l, c, a, f)
    requires l.holds[r].i < |l.stream| && !Data(l.stream[l.holds[r].i], c)
    ensures Chain(Moved(l, r, h), c, a, f)
  {
    var l' := Moved(l, r, h);
    MoveLoads(l.stream, l.holds, r, h, c);
    OtherHoldsKept(l, l', r, c, a, f);
    forall i | 0 <= i < l.accepted
      ensures Tracked(l', c, a, f, i)
    {
      assert Tracked(l, c, a, f, i);
    }
    assert AckAhead(l', c, a, r) && FwdBetween(l', c, a, f, r);
  }

  /** The acknowledgement turn: equal sequence numbers mean equal offsets. */
  lemma AckTurnExact(l: Ledger, r: nat, c: nat, a: nat, f: nat, base: nat)
    requires MuxInv(l) && SmallPayloads(l.stream) && |l.holds| < 0x1_0000 && Chain(l, c, a, f)
    requires r < |l.holds| && l.holds[r].AckTurn? && l.holds[r].i < |l.stream| && Data(l.stream[l.holds[r].i], c)
    requires Wrap32(base + Off(l.stream, c, l.holds[r].i)) == Wrap32(base + a)
    ensures Off(l.stream, c, l.holds[r].i) == a
  {
    var i := l.holds[r].i;
    assert HoldOk(l, r) && AckAhead(l, c, a, r);
    OffMonotone(l.stream, c, i, l.accepted);
    ChainBound(l, c, a, f);
    NoAlias32(base + Off(l.stream, c, i), base + a);
  }

  /** The forward turn, likewise. */
  lemma FwdTurnExact(l: Ledger, r: nat, c: nat, a: nat, f: nat, base: nat)
    requires MuxInv(l) && SmallPayloads(l.stream) && |l.holds| < 0x1_0000 && Chain(l, c, a, f)
    requires r < |l.holds| && l.holds[r].FwdTurn? && l.holds[r].i < |l.stream| && Data(l.stream[l.holds[r].i], c)
    requires Wrap32(base + Off(l.stream, c, l.holds[r].i)) == Wrap32(base + f)
    ensures Off(l.stream, c, l.holds[r].i) == f
  {
    var i := l.holds[r].i;
    assert HoldOk(l, r) && FwdBetween(l, c, a, f, r);
    OffMonotone(l.stream, c, i, i + 1);
    ChainBound(l, c, a, f);
    NoAlias32(base + Off(l.stream, c, i), base + f);
  }

  /** Admitting the data packet at offset a extends the admitted bytes over it. */
  lemma AdmitKeepsChain(l: Ledger, r: nat, c: nat, a: nat, f: nat)
    requires MuxInv(l) && Chain(l, c, a, f)
    requires r < |l.holds| && l.holds[r].AckTurn? && l.holds[r].i < |l.stream| && Data(l.stream[l.holds[r].i], c)
    requires Off(l.stream, c, l.holds[r].i) == a
    requires MuxInv(Moved(l, r, FwdTurn(l.holds[r].i)))
    ensures Chain(Moved(l, r, FwdTurn(l.holds[r].i)), c, a + |l.stream[l.holds[r].i].payload|, f)
  {
    var i := l.holds[r].i;
    var l' := Moved(l, r, FwdTurn(i));
    var a' := a + |l.stream[i].payload|;
    assert HoldOk(l, r);
    MoveLoads(l.stream, l.holds, r, FwdTurn(i), c);
    assert Off(l.stream, c, i + 1) == a';
    OffMonotone(l.stream, c, i + 1, l.accepted);
    forall q | 0 <= q < |l.holds|
      ensures AckAhead(l', c, a', q) && FwdBetween(l', c, a', f, q)
    {
      AdmitKeepsHolding(l, r, c, a, f, q);
    }
    forall k | 0 <= k < l.accepted
      ensures Tracked(l', c, a', f, k)
    {
      AdmitKeepsTrack(l, r, c, a, f, k);
    }
  }

  lemma AdmitKeepsHolding(l: Ledger, r: nat, c: nat, a: nat, f: nat, q: nat)
    requires MuxInv(l) && Chain(l, c, a, f) && q < |l.holds|
    requires r < |l.holds| && l.holds[r].AckTurn? && l.holds[r].i < |l.stream| && Data(l.stream[l.holds[r].i], c)
    requires Off(l.stream, c, l.holds[r].i) == a
    requires MuxInv(Moved(l, r, FwdTurn(l.holds[r].i)))
    ensures AckAhead(Moved(l, r, FwdTurn(l.holds[r].i)), c, a + |l.stream[l.holds[r].i].payload|, q)
    ensures FwdBetween(Moved(l, r, FwdTurn(l.holds[r].i)), c, a + |l.stream[l.holds[r].i].payload|, f, q)
  {
    var i := l.holds[r].i;
    assert HoldOk(l, r) && HoldOk(l, q);
    assert AckAhead(l, c, a, q) && FwdBetween(l, c, a, f, q);
    assert Off(l.stream, c, i + 1) == a + |l.stream[i].payload|;
    if q != r && l.holds[q].AckTurn? && Data(l.stream[l.holds[q].i], c) {
      DistinctOffsets(l.stream, c, i, l.holds[q].i);
    }
  }

  lemma AdmitKeepsTrack(l: Ledger, r: nat, c: nat, a: nat, f: nat, k: nat)
    requires MuxInv(l) && Chain(l, c, a, f) && k < l.accepted
    requires r < |l.holds| && l.holds[r].AckTurn? && l.holds[r].i < |l.stream| && Data(l.stream[l.holds[r].i], c)
    requires Off(l.stream, c, l.holds[r].i) == a
    requires MuxInv(Moved(l, r, FwdTurn(l.holds[r].i)))
    ensures Tracked(Moved(l, r, FwdTurn(l.holds[r].i)), c, a + |l.stream[l.holds[r].i].payload|, f, k)
  {
    var i := l.holds[r].i;
    assert HoldOk(l, r);
    assert Tracked(l, c, a, f, k);
    assert Off(l.stream, c, i + 1) == a + |l.stream[i].payload|;
    if k != i && Data(l.stream[k], c) {
      DistinctOffsets(l.stream, c, i, k);
    }
  }

  /** Handing on the data packet at offset f extends the forwarded bytes over it. */
  lemma ForwardKeepsChain(l: Ledger, r: nat, c: nat, a: nat, f: nat)
    requires MuxInv(l) && Chain(l, c, a, f)
    requires r < |l.holds| && l.holds[r].FwdTurn? && l.holds[r].i < |l.stream| && Data(l.stream[l.holds[r].i], c)
    requires Off(l.stream, c, l.holds[r].i) == f
    requires MuxInv(Moved(l, r, Free))
    ensures Chain(Moved(l, r, Free), c, a, f + |l.stream[l.holds[r].i].payload|)
  {
    var i := l.holds[r].i;
    var l' := Moved(l, r, Free);
    var f' := f + |l.stream[i].payload|;
    assert HoldOk(l, r) && FwdBetween(l, c, a, f, r);
    MoveLoads(l.stream, l.holds, r, Free, c);
    assert Off(l.stream, c, i + 1) == f';
    forall q | 0 <= q < |l.holds|
      ensures AckAhead(l', c, a, q) && FwdBetween(l', c, a, f', q)
    {
      ForwardKeepsHolding(l, r, c, a, f, q);
    }
    forall k | 0 <= k < l.accepted
      ensures Tracked(l', c, a, f', k)
    {
      ForwardKeepsTrack(l, r, c, a, f, k);
    }
  }

  lemma ForwardKeepsHolding(l: Ledger, r: nat, c: nat, a: nat, f: nat, q: nat)
    requires MuxInv(l) && Chain(l, c, a, f) && q < |l.holds|
    requires r < |l.holds| && l.holds[r].FwdTurn? && l.holds[r].i < |l.stream| && Data(l.stream[l.holds[r].i], c)
    requires Off(l.stream, c, l.holds[r].i) == f
    requires MuxInv(Moved(l, r, Free))
    ensures AckAhead(Moved(l, r, Free), c, a, q)
    ensures FwdBetween(Moved(l, r, Free), c, a, f + |l.stream[l.holds[r].i].payload|, q)
  {
    var i := l.holds[r].i;
    assert HoldOk(l, r) && HoldOk(l, q);
    assert AckAhead(l, c, a, q) && FwdBetween(l, c, a, f, q);
    assert Off(l.stream, c, i + 1) == f + |l.stream[i].payload|;
    if q != r && l.holds[q].FwdTurn? && Data(l.stream[l.holds[q].i], c) {
      DistinctOffsets(l.stream, c, i, l.holds[q].i);
    }
  }

  lemma ForwardKeepsTrack(l: Ledger, r: nat, c: nat, a: nat, f: nat, k: nat)
    requires MuxInv(l) && Chain(l, c, a, f) && k < l.accepted
    requires r < |l.holds| && l.holds[r].FwdTurn? && l.holds[r].i < |l.stream| && Data(l.stream[l.holds[r].i], c)
    requires Off(l.stream, c, l.holds[r].i) == f
    requires MuxInv(Moved(l, r, Free))
    ensures Tracked(Moved(l, r, Free), c, a, f + |l.stream[l.holds[r].i].payload|, k)
  {
    var i := l.holds[r].i;
    assert HoldOk(l, r) && FwdBetween(l, c, a, f, r);
    assert Tracked(l, c, a, f, k);
    assert Off(l.stream, c, i + 1) == f + |l.stream[i].payload|;
    if k != i && Data(l.stream[k], c) {
      DistinctOffsets(l.stream, c, i, k);
    }
  }

  /** Two data packets of c occupy disjoint ranges of offsets. */
  lemma DistinctOffsets(stream: seq<Packet>, c: nat, i: nat, k: nat)
    requires i < |stream| && k < |stream| && i != k && Data(stream[i], c) && Data(stream[k], c)
    ensures Off(stream, c, i) < Off(stream, c, i + 1) && Off(stream, c, k) < Off(stream, c, k + 1)
    ensures Off(stream, c, i + 1) <= Off(stream, c, k) || Off(stream, c, k + 1) <= Off(stream, c, i)
  {
    if i < k {
      OffMonotone(stream, c, i + 1, k);
    } else {
      OffMonotone(stream, c, k + 1, i);
    }
  }

  /** A connection that has not been sent data yet has an empty chain. */
  lemma EmptyChain(l: Ledger, c: nat)
    requires MuxInv(l)
    requires forall i :: 0 <= i < |l.stream| ==> !Carries(l.stream[i], c)
    ensures Chain(l, c, 0, 0)
  {
    NothingCarried(l.stream, c, l.accepted);
    SumZero(AckLoads(l.stream, l.holds, c));
    SumZero(FwdLoads(l.stream, l.holds, c));
    assert forall r :: 0 <= r < |l.holds| ==> AckAhead(l, c, 0, r) && FwdBetween(l, c, 0, 0, r);
    assert forall i :: 0 <= i < l.accepted ==> Tracked(l, c, 0, 0, i);
  }

  /** ---- The oldest packet held ---- */

  ghost predicate Oldest(l: Ledger, i: nat) {
    forall q :: 0 <= q < |l.holds| && !l.holds[q].Free? ==> i <= l.holds[q].i
  }

  /** An accepted data packet whose bytes are not all forwarded is still held by who took it. */
  lemma StillHeld(l: Ledger, c: nat, a: nat, f: nat, k: nat)
    requires MuxInv(l) && Chain(l, c, a, f) && k < l.accepted && Data(l.stream[k], c)
    requires f < Off(l.stream, c, k + 1)
    ensures l.holds[l.owner[k]] == if a < Off(l.stream, c, k + 1) then AckTurn(k) else FwdTurn(k)
  {
    assert Tracked(l, c, a, f, k);
  }

  /** A data packet is admitted as a whole. */
  lemma AdmittedWhole(l: Ledger, c: nat, a: nat, f: nat, k: nat)
    requires MuxInv(l) && Chain(l, c, a, f) && k < l.accepted && Data(l.stream[k], c)
    requires Off(l.stream, c, k) < a
    ensures Off(l.stream, c, k + 1) <= a
  {
    assert AckAhead(l, c, a, l.owner[k]);
    assert Tracked(l, c, a, f, k);
  }

  /** No data packet of c before packet i is still held between its turns. */
  ghost predicate NothingBefore(l: Ledger, c: nat, i: nat)
    requires MuxInv(l)
  {
    forall k :: 0 <= k < i && k < l.accepted && Data(l.stream[k], c) ==>
      l.holds[l.owner[k]] != AckTurn(k) && l.holds[l.owner[k]] != FwdTurn(k)
  }

  /** The oldest packet still before its mux turn is the one expected next. */
  lemma OldestIsExpected(l: Ledger, r: nat)
    requires MuxInv(l) && r < |l.holds| && l.holds[r].Pre?
    requires forall q :: 0 <= q < |l.holds| && l.holds[q].Pre? ==> l.holds[r].i <= l.holds[q].i
    ensures l.holds[r].i == l.accepted
  {
    assert HoldOk(l, r);
    assert l.holds[l.owner[l.accepted]] == Pre(l.accepted);
  }

  /** The connection's oldest data packet before its acknowledgement turn starts where the
      admitted bytes end. */
  lemma OldestIsNextAdmitted(l: Ledger, r: nat, c: nat, a: nat, f: nat)
    requires MuxInv(l) && Chain(l, c, a, f) && r < |l.holds| && l.holds[r].AckTurn?
    requires l.holds[r].i < |l.stream| && Carries(l.stream[l.holds[r].i], c) && NothingBefore(l, c, l.holds[r].i)
    ensures Off(l.stream, c, l.holds[r].i) <= a
    ensures Data(l.stream[l.holds[r].i], c) ==> Off(l.stream, c, l.holds[r].i) == a
  {
    var i := l.holds[r].i;
    assert HoldOk(l, r) && AckAhead(l, c, a, r);
    if a < Off(l.stream, c, i) {
      var k := PacketAt(l.stream, c, i, a);
      StillHeld(l, c, a, f, k);
      assert false;
    }
  }

  /** With no data packet before it, a packet at its acknowledgement turn starts where the
      admitted bytes end unless a later data packet of the connection was admitted before it. */
  lemma OldestUnlessOvertaken(l: Ledger, r: nat, c: nat, a: nat, f: nat)
    requires MuxInv(l) && Chain(l, c, a, f) && r < |l.holds| && l.holds[r].AckTurn?
    requires l.holds[r].i < |l.stream| && Carries(l.stream[l.holds[r].i], c) && NothingBefore(l, c, l.holds[r].i)
    ensures Off(l.stream, c, l.holds[r].i) == a <==> !AdmittedAfter(l.stream, c, l.holds[r].i, a)
    ensures Off(l.stream, c, l.holds[r].i) <= a
  {
    var i := l.holds[r].i;
    assert HoldOk(l, r);
    OldestIsNextAdmitted(l, r, c, a, f);
    if Off(l.stream, c, i) == a {
      forall k | i < k < |l.stream| && Data(l.stream[k], c)
        ensures a < Off(l.stream, c, k + 1)
      {
        OffMonotone(l.stream, c, i, k);
      }
    } else {
      var k := PacketAt(l.stream, c, l.accepted, Off(l.stream, c, i));
      if k < i {
        OffMonotone(l.stream, c, k + 1, i);
      }
      AdmittedWhole(l, c, a, f, k);
    }
  }

  /** A data packet sent after packet i on c lies within the first a bytes. */
  ghost predicate AdmittedAfter(stream: seq<Packet>, c: nat, i: nat, a: nat) {
    exists k :: i < k < |stream| && Data(stream[k], c) && Off(stream, c, k + 1) <= a
  }

  /** The connection's oldest data packet before its forward turn starts where the forwarded
      bytes end. */
  lemma OldestIsNextForwarded(l: Ledger, r: nat, c: nat, a: nat, f: nat)
    requires MuxInv(l) && Chain(l, c, a, f) && r < |l.holds| && l.holds[r].FwdTurn?
    requires l.holds[r].i < |l.stream| && Data(l.stream[l.holds[r].i], c) && NothingBefore(l, c, l.holds[r].i)
    ensures Off(l.stream, c, l.holds[r].i) == f
  {
    var i := l.holds[r].i;
    assert HoldOk(l, r) && FwdBetween(l, c, a, f, r);
    if f < Off(l.stream, c, i) {
      var k := PacketAt(l.stream, c, i, f);
      StillHeld(l, c, a, f, k);
      assert false;
    }
  }
}
