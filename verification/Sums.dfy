/** Sums of per-receiver loads. */
module Sums {
  function Sum(ws: seq<nat>): nat {
    if ws == [] then 0 else ws[0] + Sum(ws[1..])
  }

  lemma {:induction false} SumUpdate(ws: seq<nat>, r: nat, w: nat)
    requires r < |ws|
    ensures Sum(ws[r := w]) == Sum(ws) - ws[r] + w
  {
    if r == 0 {
      assert ws[r := w][1..] == ws[1..];
    } else {
      assert ws[r := w][1..] == ws[1..][r - 1 := w];
      SumUpdate(ws[1..], r - 1, w);
    }
  }

  lemma {:induction false} SumBound(ws: seq<nat>, b: nat)
    requires forall r :: 0 <= r < |ws| ==> ws[r] <= b
    ensures Sum(ws) <= |ws| * b
  {
    if ws != [] {
      SumBound(ws[1..], b);
    }
  }

  lemma {:induction false} SumZero(ws: seq<nat>)
    requires forall r :: 0 <= r < |ws| ==> ws[r] == 0
    ensures Sum(ws) == 0
  {
    if ws != [] {
      SumZero(ws[1..]);
    }
  }
}
