// Sums over integer sequences.
module Sums {

  function Sum(xs: seq<int>): int {
    if xs == [] then 0 else xs[0] + Sum(xs[1..])
  }

  lemma {:induction false} SumUpdate(xs: seq<int>, i: nat, v: int)
    requires i < |xs|
    ensures Sum(xs[i := v]) == Sum(xs) - xs[i] + v
  {
    if i == 0 {
      assert xs[0 := v][1..] == xs[1..];
    } else {
      SumUpdate(xs[1..], i - 1, v);
      assert xs[i := v][1..] == xs[1..][i - 1 := v];
    }
  }

  lemma {:induction false} SumAppend(xs: seq<int>, v: int)
    ensures Sum(xs + [v]) == Sum(xs) + v
  {
    if xs != [] {
      SumAppend(xs[1..], v);
      assert (xs + [v])[1..] == xs[1..] + [v];
    }
  }

  // Sums are pointwise.
  lemma {:induction false} SumLinear(xs: seq<int>, ys: seq<int>, zs: seq<int>)
    requires |xs| == |ys| == |zs|
    requires forall i :: 0 <= i < |xs| ==> zs[i] == xs[i] + ys[i]
    ensures Sum(zs) == Sum(xs) + Sum(ys)
  {
    if xs != [] {
      SumLinear(xs[1..], ys[1..], zs[1..]);
    }
  }

  lemma {:induction false} SumBounds(xs: seq<int>, lo: int, hi: int)
    requires forall i :: 0 <= i < |xs| ==> lo <= xs[i] <= hi
    ensures lo * |xs| <= Sum(xs) <= hi * |xs|
  {
    if xs != [] {
      SumBounds(xs[1..], lo, hi);
      assert lo * |xs| == lo + lo * |xs[1..]| && hi * |xs| == hi + hi * |xs[1..]|;
    }
  }

  lemma {:induction false} SumNonNegative(xs: seq<int>)
    requires forall i :: 0 <= i < |xs| ==> xs[i] >= 0
    ensures Sum(xs) >= 0
    ensures Sum(xs) == 0 <==> forall i :: 0 <= i < |xs| ==> xs[i] == 0
  {
    if xs != [] {
      SumNonNegative(xs[1..]);
      assert forall i :: 0 < i < |xs| ==> xs[i] == xs[1..][i - 1];
    }
  }

  lemma {:induction false} SumAtLeast(xs: seq<int>, i: nat)
    requires i < |xs| && forall k :: 0 <= k < |xs| ==> xs[k] >= 0
    ensures xs[i] <= Sum(xs)
  {
    if i == 0 {
      SumNonNegative(xs[1..]);
    } else {
      SumAtLeast(xs[1..], i - 1);
    }
  }

  lemma {:induction false} SumAtLeastTwo(xs: seq<int>, i: nat, j: nat)
    requires i < j < |xs| && forall k :: 0 <= k < |xs| ==> xs[k] >= 0
    ensures xs[i] + xs[j] <= Sum(xs)
  {
    if i == 0 {
      SumAtLeast(xs[1..], j - 1);
    } else {
      SumAtLeastTwo(xs[1..], i - 1, j - 1);
    }
  }

  function Indicator(b: bool): int { if b then 1 else 0 }
}
