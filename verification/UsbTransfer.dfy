/** Bulk transfers on the wire: a transfer is cut into packets of at most wMaxPacketSize
    bytes, and the other side takes a shorter packet (an empty one included) as the end of
    a transfer, section 5.8.3 of the USB 2.0 specification. */
module UsbTransfer {
  import opened Wrapping

  /** What usb_send submits for one buffer: the buffer, and an empty transfer behind it when
      its last packet would be a full one. */
  function Submitted(w: nat, buf: seq<byte>): (transfers: seq<seq<byte>>)
    requires w > 0
  {
    if |buf| % w == 0 && |buf| >= w then [buf, []] else [buf]
  }

  lemma SubmittedFirst(w: nat, buf: seq<byte>)
    requires w > 0
    ensures Submitted(w, buf)[..0] == [] && Submitted(w, buf)[..1] == [buf]
    ensures |Submitted(w, buf)| == 2 ==> Submitted(w, buf)[..2] == [buf, []]
  {
  }

  function SubmittedAll(w: nat, bufs: seq<seq<byte>>): seq<seq<byte>>
    requires w > 0
  {
    if bufs == [] then [] else Submitted(w, bufs[0]) + SubmittedAll(w, bufs[1..])
  }

  /** What is submitted if of the transfers for buffer k only the first counts[k] are accepted. */
  function SubmittedParts(w: nat, bufs: seq<seq<byte>>, counts: seq<nat>): seq<seq<byte>>
    requires w > 0 && |counts| == |bufs|
    requires forall k :: 0 <= k < |bufs| ==> counts[k] <= |Submitted(w, bufs[k])|
  {
    if bufs == [] then [] else
    Submitted(w, bufs[0])[..counts[0]] + SubmittedParts(w, bufs[1..], counts[1..])
  }

  lemma {:induction false} PartsAppend(w: nat, bufs: seq<seq<byte>>, counts: seq<nat>, buf: seq<byte>, count: nat)
    requires w > 0 && |counts| == |bufs| && count <= |Submitted(w, buf)|
    requires forall k :: 0 <= k < |bufs| ==> counts[k] <= |Submitted(w, bufs[k])|
    ensures SubmittedParts(w, bufs + [buf], counts + [count])
         == SubmittedParts(w, bufs, counts) + Submitted(w, buf)[..count]
  {
    if bufs == [] {
      assert [buf][1..] == [] && [count][1..] == [];
      assert bufs + [buf] == [buf] && counts + [count] == [count];
    } else {
      assert (bufs + [buf])[1..] == bufs[1..] + [buf] && (counts + [count])[1..] == counts[1..] + [count];
      PartsAppend(w, bufs[1..], counts[1..], buf, count);
    }
  }

  /** If every submission is accepted, nothing is missing. */
  lemma {:induction false} PartsWhole(w: nat, bufs: seq<seq<byte>>, counts: seq<nat>)
    requires w > 0 && |counts| == |bufs|
    requires forall k :: 0 <= k < |bufs| ==> counts[k] == |Submitted(w, bufs[k])|
    ensures SubmittedParts(w, bufs, counts) == SubmittedAll(w, bufs)
  {
    if bufs != [] {
      PartsWhole(w, bufs[1..], counts[1..]);
    }
  }

  /** The packets of one transfer; an empty transfer is one empty packet. */
  function Packets(w: nat, transfer: seq<byte>): seq<seq<byte>>
    requires w > 0
    decreases |transfer|
  {
    if |transfer| <= w then [transfer] else [transfer[..w]] + Packets(w, transfer[w..])
  }

  function Wire(w: nat, transfers: seq<seq<byte>>): seq<seq<byte>>
    requires w > 0
  {
    if transfers == [] then [] else Packets(w, transfers[0]) + Wire(w, transfers[1..])
  }

  /** The receiving side: packets gathered so far, completed by each short packet. */
  function Regroup(w: nat, packets: seq<seq<byte>>, gathered: seq<byte>): seq<seq<byte>>
    requires w > 0
  {
    if packets == [] then []
    else if |packets[0]| < w then [gathered + packets[0]] + Regroup(w, packets[1..], [])
    else Regroup(w, packets[1..], gathered + packets[0])
  }

  lemma {:induction false} WireJoin(w: nat, a: seq<seq<byte>>, b: seq<seq<byte>>)
    requires w > 0
    ensures Wire(w, a + b) == Wire(w, a) + Wire(w, b)
  {
    hide Packets;
    if a == [] {
      assert a + b == b;
    } else {
      WireJoin(w, a[1..], b);
      assert (a + b)[1..] == a[1..] + b;
    }
  }

  lemma WireOne(w: nat, transfer: seq<byte>)
    requires w > 0
    ensures Wire(w, [transfer]) == Packets(w, transfer)
  {
  }

  /** The last packet would be a full one. */
  predicate EndsFull(w: nat, n: nat)
    requires w > 0
  {
    n % w == 0 && n >= w
  }

  lemma SmallRemainder(w: nat, n: nat)
    requires n < w
    ensures n % w == n
  {
  }

  lemma {:induction false} MultipleAtLeast(k: nat, w: nat)
    requires k >= 1
    ensures k * w >= w
  {
    if k > 1 {
      MultipleAtLeast(k - 1, w);
      assert k * w == (k - 1) * w + w;
    }
  }

  lemma RemainderUnique(w: nat, q: int, r: nat, n: nat)
    requires w > 0 && r < w && n == q * w + r
    ensures n % w == r
  {
    var q' := n / w;
    assert n == q' * w + n % w;
    if q > q' {
      assert (q - q') * w == q * w - q' * w;
      MultipleAtLeast(q - q', w);
    } else if q < q' {
      assert (q' - q) * w == q' * w - q * w;
      MultipleAtLeast(q' - q, w);
    }
  }

  lemma EndsFullRest(w: nat, n: nat)
    requires w > 0 && n > w
    ensures EndsFull(w, n - w) <==> EndsFull(w, n)
  {
    RemainderUnique(w, n / w - 1, n % w, n - w);
    if n - w < w {
      SmallRemainder(w, n - w);
    }
  }

  /** One transfer's packets complete it exactly if its last packet is short. */
  lemma {:induction false} RegroupTransfer(w: nat, transfer: seq<byte>, rest: seq<seq<byte>>, gathered: seq<byte>)
    requires w > 0
    ensures Regroup(w, Packets(w, transfer) + rest, gathered) ==
              if EndsFull(w, |transfer|) then Regroup(w, rest, gathered + transfer)
              else [gathered + transfer] + Regroup(w, rest, [])
    decreases |transfer|
  {
    var all := Packets(w, transfer) + rest;
    if |transfer| <= w {
      assert all[0] == transfer && all[1..] == rest;
      if |transfer| == w {
        RemainderUnique(w, 1, 0, w);
      }
    } else {
      assert all[0] == transfer[..w] && all[1..] == Packets(w, transfer[w..]) + rest;
      RegroupTransfer(w, transfer[w..], rest, gathered + transfer[..w]);
      assert gathered + transfer[..w] + transfer[w..] == gathered + transfer;
      EndsFullRest(w, |transfer|);
    }
  }

  /** Whatever is submitted for a buffer, its packets give back the buffer. */
  lemma RegroupSubmitted(w: nat, buf: seq<byte>, rest: seq<seq<byte>>)
    requires w > 0
    ensures Regroup(w, Wire(w, Submitted(w, buf)) + rest, []) == [buf] + Regroup(w, rest, [])
  {
    assert [] + buf == buf && buf + [] == buf;
    if EndsFull(w, |buf|) {
      WireJoin(w, [buf], [[]]);
      assert [buf] + [[]] == [buf, []];
      WireOne(w, buf);
      WireOne(w, []);
      var tail := Packets(w, []) + rest;
      assert Packets(w, buf) + Packets(w, []) + rest == Packets(w, buf) + tail;
      RegroupTransfer(w, buf, tail, []);
      RegroupTransfer(w, [], rest, buf);
    } else {
      WireOne(w, buf);
      RegroupTransfer(w, buf, rest, []);
    }
  }

  /** For any buffers, regrouping the wire at every short packet recovers exactly them. */
  lemma {:induction false} BoundariesSurvive(w: nat, bufs: seq<seq<byte>>)
    requires w > 0
    ensures Regroup(w, Wire(w, SubmittedAll(w, bufs)), []) == bufs
  {
    if bufs != [] {
      BoundariesSurvive(w, bufs[1..]);
      WireJoin(w, Submitted(w, bufs[0]), SubmittedAll(w, bufs[1..]));
      RegroupSubmitted(w, bufs[0], Wire(w, SubmittedAll(w, bufs[1..])));
      assert bufs == [bufs[0]] + bufs[1..];
    }
  }

  /** The empty transfer is needed: without it a nonempty buffer is delivered exactly if its
      length is not a multiple of the packet size. */
  lemma WithoutEmptyTransfer(w: nat, buf: seq<byte>)
    requires w > 0 && buf != []
    ensures Regroup(w, Packets(w, buf), []) == [buf] <==> |buf| % w != 0
  {
    RegroupTransfer(w, buf, [], []);
    assert Packets(w, buf) + [] == Packets(w, buf) && [] + buf == buf;
    if |buf| < w {
      SmallRemainder(w, |buf|);
    }
  }
}
