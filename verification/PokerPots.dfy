// Side pots, layer by layer.
module PokerPots {
  // The layers of a hand's contributions, who may win each layer, and what
  // happens to the chips no live seat can win.
  import opened Sorting
  import opened Sums
  import opened PokerTable

  // ---------------------------------------------------------------------
  // Definitions
  // ---------------------------------------------------------------------

  // The seats that can win the layer up to `level`, in seat order.
  function Eligible(seats: seq<Seat>, level: int): seq<int> {
    if seats == [] then []
    else
      var n := |seats| - 1;
      Eligible(seats[..n], level) +
      if seats[n].total > 0 && seats[n].total >= level && seats[n].status != Folded then [seats[n].index] else []
  }

  // What each seat put into the layer between two levels.
  function LayerShares(seats: seq<Seat>, prev: int, level: int): (xs: seq<int>)
    ensures |xs| == |seats|
    ensures forall i :: 0 <= i < |seats| ==> xs[i] == if seats[i].total >= level then level - prev else 0
  {
    seq(|seats|, i requires 0 <= i < |seats| => if seats[i].total >= level then level - prev else 0)
  }

  // A layer nobody can win is dropped; one with the same winners is merged.
  function AddLayer(pots: seq<Pot>, amount: int, eligible: seq<int>): seq<Pot> {
    if amount == 0 || eligible == [] then pots
    else if |pots| > 0 && pots[|pots| - 1].eligible == eligible then
      pots[|pots| - 1 := Pot(pots[|pots| - 1].amount + amount, eligible)]
    else pots + [Pot(amount, eligible)]
  }

  function Below(levels: seq<int>): int {
    if levels == [] then 0 else levels[|levels| - 1]
  }

  function PotsOf(seats: seq<Seat>, levels: seq<int>): seq<Pot> {
    if levels == [] then []
    else
      var n := |levels| - 1;
      AddLayer(PotsOf(seats, levels[..n]),
               Sum(LayerShares(seats, Below(levels[..n]), levels[n])),
               Eligible(seats, levels[n]))
  }

  ghost predicate Rising(s: seq<int>) {
    forall i, j :: 0 <= i < j < |s| ==> s[i] < s[j]
  }

  // The distinct contribution levels, ascending.
  ghost predicate AreLevels(seats: seq<Seat>, levels: seq<int>) {
    && Rising(levels)
    && (forall x :: x in levels ==> x > 0 && exists i :: 0 <= i < |seats| && seats[i].total == x)
    && (forall i :: 0 <= i < |seats| && seats[i].total > 0 ==> seats[i].total in levels)
  }

  // The highest contribution of a seat that has not folded.
  function MaxUnfolded(seats: seq<Seat>): (m: int)
    ensures m >= 0
    ensures forall i :: 0 <= i < |seats| && seats[i].status != Folded ==> seats[i].total <= m
    ensures m > 0 ==> exists i :: 0 <= i < |seats| && seats[i].status != Folded && seats[i].total == m
  {
    if seats == [] then 0
    else if seats[0].status == Folded then MaxUnfolded(seats[1..])
    else Max(seats[0].total, MaxUnfolded(seats[1..]))
  }

  function Amounts(pots: seq<Pot>): (xs: seq<int>)
    ensures |xs| == |pots| && forall i :: 0 <= i < |pots| ==> xs[i] == pots[i].amount
  {
    seq(|pots|, i requires 0 <= i < |pots| => pots[i].amount)
  }

  // The amounts of the pots that a seat can win.
  function AmountsFor(pots: seq<Pot>, index: int): (xs: seq<int>)
    ensures |xs| == |pots| && forall i :: 0 <= i < |pots| ==> xs[i] == if index in pots[i].eligible then pots[i].amount else 0
  {
    seq(|pots|, i requires 0 <= i < |pots| => if index in pots[i].eligible then pots[i].amount else 0)
  }

  function PotSum(pots: seq<Pot>): int { Sum(Amounts(pots)) }
  function Listed(pots: seq<Pot>, index: int): int { Sum(AmountsFor(pots, index)) }

  // ---------------------------------------------------------------------
  // Layering
  // ---------------------------------------------------------------------

  lemma {:induction false} EligibleMeans(seats: seq<Seat>, level: int, i: nat)
    requires DistinctSeats(seats) && i < |seats| && level > 0
    ensures seats[i].index in Eligible(seats, level) <==> seats[i].total >= level && seats[i].status != Folded
  {
    EligibleMembers(seats, level);
  }

  lemma {:induction false} EligibleMembers(seats: seq<Seat>, level: int)
    ensures forall x :: x in Eligible(seats, level) <==>
              exists i :: 0 <= i < |seats| && seats[i].index == x && seats[i].total > 0 && seats[i].total >= level && seats[i].status != Folded
  {
    if seats != [] {
      var n := |seats| - 1;
      EligibleMembers(seats[..n], level);
      assert forall i :: 0 <= i < n ==> seats[..n][i] == seats[i];
    }
  }

  lemma AddLayerSums(pots: seq<Pot>, amount: int, eligible: seq<int>, index: int)
    requires amount > 0 && eligible != []
    ensures PotSum(AddLayer(pots, amount, eligible)) == PotSum(pots) + amount
    ensures Listed(AddLayer(pots, amount, eligible), index) == Listed(pots, index) + if index in eligible then amount else 0
  {
    var after := AddLayer(pots, amount, eligible);
    var n := |pots| - 1;
    if |after| == |pots| {
      SumUpdate(Amounts(pots), n, after[n].amount);
      assert Amounts(after) == Amounts(pots)[n := after[n].amount];
      SumUpdate(AmountsFor(pots, index), n, AmountsFor(after, index)[n]);
      assert AmountsFor(after, index) == AmountsFor(pots, index)[n := AmountsFor(after, index)[n]];
    } else {
      SumAppend(Amounts(pots), amount);
      assert Amounts(after) == Amounts(pots) + [amount];
      SumAppend(AmountsFor(pots, index), if index in eligible then amount else 0);
      assert AmountsFor(after, index) == AmountsFor(pots, index) + [if index in eligible then amount else 0];
    }
  }

  // One layer is what the cap grows by, when nobody stopped in between.
  lemma LayerIsGrowth(seats: seq<Seat>, prev: int, level: int)
    requires 0 <= prev < level && NoneBetween(seats, prev, level)
    ensures Sum(Capped(seats, level)) == Sum(Capped(seats, prev)) + Sum(LayerShares(seats, prev, level))
  {
    SumLinear(Capped(seats, prev), LayerShares(seats, prev, level), Capped(seats, level));
  }

  lemma CapGrows(seats: seq<Seat>, prev: int, level: int, m: int)
    requires 0 <= prev < level && NoneBetween(seats, prev, level) && (m <= prev || m >= level)
    ensures Sum(Capped(seats, Min(level, m))) ==
            Sum(Capped(seats, Min(prev, m))) + if m >= level then Sum(LayerShares(seats, prev, level)) else 0
  {
    LayerIsGrowth(seats, prev, level);
    if m >= level {
      assert Min(level, m) == level && Min(prev, m) == prev;
    } else {
      assert Min(level, m) == m == Min(prev, m);
    }
  }

  lemma LayerNonEmpty(seats: seq<Seat>, prev: int, level: int, i: nat)
    requires prev < level && i < |seats| && seats[i].total >= level
    ensures Sum(LayerShares(seats, prev, level)) > 0
  {
    SumAtLeast(LayerShares(seats, prev, level), i);
  }

  lemma CappedAtZero(seats: seq<Seat>)
    requires NonNegative(seats)
    ensures Sum(Capped(seats, 0)) == 0
  {
    SumBounds(Capped(seats, 0), 0, 0);
  }

  ghost predicate NonNegative(seats: seq<Seat>) {
    forall i :: 0 <= i < |seats| ==> seats[i].total >= 0
  }

  // Nobody stopped strictly between two levels.
  ghost predicate NoneBetween(seats: seq<Seat>, prev: int, level: int) {
    forall i :: 0 <= i < |seats| ==> seats[i].total <= prev || seats[i].total >= level
  }

  // Positive, rising, and skipping no contribution.
  ghost predicate Ladder(seats: seq<Seat>, levels: seq<int>) {
    levels == [] ||
    var n := |levels| - 1;
    && Ladder(seats, levels[..n])
    && 0 <= Below(levels[..n]) < levels[n]
    && NoneBetween(seats, Below(levels[..n]), levels[n])
  }

  lemma {:induction false} LevelsAreLadder(seats: seq<Seat>, levels: seq<int>, k: nat)
    requires AreLevels(seats, levels) && k <= |levels| && NonNegative(seats)
    ensures Ladder(seats, levels[..k])
  {
    if k > 0 {
      var n := k - 1;
      LevelsAreLadder(seats, levels, n);
      assert levels[..k][..n] == levels[..n];
      assert levels[n] in levels;
      assert n > 0 ==> levels[n - 1] in levels;
      forall i | 0 <= i < |seats|
        ensures seats[i].total <= Below(levels[..n]) || seats[i].total >= levels[n]
      {
        if seats[i].total > 0 {
          var j :| 0 <= j < |levels| && levels[j] == seats[i].total;
        }
      }
    }
  }

  // What one more layer adds to all pots, and to the pots of one seat.
  lemma {:induction false} OneLayer(seats: seq<Seat>, pots: seq<Pot>, prev: int, level: int, i: nat)
    requires DistinctSeats(seats) && 0 <= prev < level
    requires i < |seats| && seats[i].status != Folded
    ensures var more := AddLayer(pots, Sum(LayerShares(seats, prev, level)), Eligible(seats, level));
            && PotSum(more) == PotSum(pots) +
                 (if MaxUnfolded(seats) >= level then Sum(LayerShares(seats, prev, level)) else 0)
            && Listed(more, seats[i].index) == Listed(pots, seats[i].index) +
                 (if seats[i].total >= level then Sum(LayerShares(seats, prev, level)) else 0)
  {
    var eligible := Eligible(seats, level);
    EligibleMeans(seats, level, i);
    if MaxUnfolded(seats) >= level {
      var top :| 0 <= top < |seats| && seats[top].status != Folded && seats[top].total == MaxUnfolded(seats);
      EligibleMeans(seats, level, top);
      LayerNonEmpty(seats, prev, level, top);
      AddLayerSums(pots, Sum(LayerShares(seats, prev, level)), eligible, seats[i].index);
    } else {
      NoneEligible(seats, level);
    }
  }

  lemma {:induction false} NoneEligible(seats: seq<Seat>, level: int)
    requires forall i :: 0 <= i < |seats| ==> seats[i].status == Folded || seats[i].total < level
    ensures Eligible(seats, level) == []
  {
    if seats != [] {
      NoneEligible(seats[..|seats| - 1], level);
    }
  }

  // All pots together hold every contribution up to the level reached, but
  // never more than the best unfolded seat put in; and a seat is listed for
  // what its own contribution matches.
  lemma {:induction false} LayersUpTo(seats: seq<Seat>, levels: seq<int>, i: nat)
    requires DistinctSeats(seats) && Ladder(seats, levels) && NonNegative(seats)
    requires i < |seats| && seats[i].status != Folded
    ensures PotSum(PotsOf(seats, levels)) == Sum(Capped(seats, Min(Below(levels), MaxUnfolded(seats))))
    ensures Listed(PotsOf(seats, levels), seats[i].index) == Sum(Capped(seats, Min(Below(levels), seats[i].total)))
  {
    if levels == [] {
      CappedAtZero(seats);
    } else {
      var n := |levels| - 1;
      var prev, level := Below(levels[..n]), levels[n];
      LayersUpTo(seats, levels[..n], i);
      OneLayer(seats, PotsOf(seats, levels[..n]), prev, level, i);
      if MaxUnfolded(seats) > 0 {
        var top :| 0 <= top < |seats| && seats[top].total == MaxUnfolded(seats);
        assert seats[top].total <= prev || seats[top].total >= level;
      }
      CapGrows(seats, prev, level, MaxUnfolded(seats));
      CapGrows(seats, prev, level, seats[i].total);
    }
  }

  lemma LevelsReachAll(seats: seq<Seat>, levels: seq<int>, i: nat)
    requires AreLevels(seats, levels) && i < |seats| && NonNegative(seats)
    ensures seats[i].total <= Below(levels)
  {
    if seats[i].total > 0 {
      var j :| 0 <= j < |levels| && levels[j] == seats[i].total;
    } else if levels != [] {
      assert levels[|levels| - 1] in levels;
    }
  }

  // The layering theorem. For every seat still in the hand, the pots listing
  // it add up to what its contribution matches from each seat; all pots
  // together hold every contribution up to the best unfolded one.
  lemma {:induction false} PotsAreLayers(seats: seq<Seat>, levels: seq<int>, i: nat)
    requires DistinctSeats(seats) && AreLevels(seats, levels) && NonNegative(seats)
    requires i < |seats| && seats[i].status != Folded
    ensures Listed(PotsOf(seats, levels), seats[i].index) == Sum(Capped(seats, seats[i].total))
    ensures PotSum(PotsOf(seats, levels)) == Sum(Capped(seats, MaxUnfolded(seats)))
  {
    LevelsAreLadder(seats, levels, |levels|);
    assert levels[..|levels|] == levels;
    LayersUpTo(seats, levels, i);
    LevelsReachAll(seats, levels, i);
    if MaxUnfolded(seats) > 0 {
      var top :| 0 <= top < |seats| && seats[top].status != Folded && seats[top].total == MaxUnfolded(seats);
      LevelsReachAll(seats, levels, top);
    }
  }

  // Every pot is worth something and can be won, by seats still in the hand.
  lemma {:induction false} PotsAreWinnable(seats: seq<Seat>, levels: seq<int>)
    requires Ladder(seats, levels)
    ensures forall pot :: pot in PotsOf(seats, levels) ==> Winnable(seats, pot)
  {
    if levels != [] {
      var n := |levels| - 1;
      PotsAreWinnable(seats, levels[..n]);
      EligibleMembers(seats, levels[n]);
      SumNonNegative(LayerShares(seats, Below(levels[..n]), levels[n]));
      var before := PotsOf(seats, levels[..n]);
      assert |before| > 0 ==> before[|before| - 1] in before;
    }
  }

  ghost predicate Winnable(seats: seq<Seat>, pot: Pot) {
    && pot.amount > 0 && pot.eligible != []
    && forall x :: x in pot.eligible ==>
         exists i :: 0 <= i < |seats| && seats[i].index == x && seats[i].status != Folded && seats[i].total > 0
  }

  function DistinctTotals(seats: seq<Seat>): seq<int> {
    if seats == [] then []
    else
      var n := |seats| - 1;
      var before := DistinctTotals(seats[..n]);
      if seats[n].total > 0 && seats[n].total !in before then before + [seats[n].total] else before
  }

  function LevelsOf(seats: seq<Seat>): seq<int> {
    Sort(DistinctTotals(seats))
  }

  lemma {:induction false} DistinctTotalsCorrect(seats: seq<Seat>)
    ensures forall x :: x in DistinctTotals(seats) <==> x > 0 && exists i :: 0 <= i < |seats| && seats[i].total == x
    ensures forall j, k :: 0 <= j < k < |DistinctTotals(seats)| ==> DistinctTotals(seats)[j] != DistinctTotals(seats)[k]
  {
    if seats != [] {
      var n := |seats| - 1;
      DistinctTotalsCorrect(seats[..n]);
      assert forall i :: 0 <= i < n ==> seats[..n][i] == seats[i];
    }
  }

  lemma LevelsCorrect(seats: seq<Seat>)
    ensures AreLevels(seats, LevelsOf(seats))
  {
    DistinctTotalsCorrect(seats);
    SortMembers(DistinctTotals(seats));
    SortDistinct(DistinctTotals(seats));
  }

  method BuildPots(seats: seq<Seat>) returns (pots: seq<Pot>)
    ensures pots == PotsOf(seats, LevelsOf(seats))
  {
    // The level set, as the list of its keys.
    var levelSet := [];
    for i := 0 to |seats|
      invariant levelSet == DistinctTotals(seats[..i])
    {
      assert seats[..i + 1][..i] == seats[..i];
      if seats[i].total > 0 && seats[i].total !in levelSet {
        levelSet := levelSet + [seats[i].total];
      }
    }
    assert seats[..|seats|] == seats;
    var levels := Sort(levelSet);
    LevelsCorrect(seats);
    assert forall k :: 0 <= k < |levels| ==> levels[k] in levels;
    pots := LayerPots(seats, levels);
  }

  // One pass over the levels: drop empty layers, merge equal ones.
  lemma {:induction false} PotsOfStep(seats: seq<Seat>, levels: seq<int>, k: nat)
    requires k < |levels|
    ensures Below(levels[..k + 1]) == levels[k]
    ensures PotsOf(seats, levels[..k + 1]) ==
            AddLayer(PotsOf(seats, levels[..k]), Sum(LayerShares(seats, Below(levels[..k]), levels[k])), Eligible(seats, levels[k]))
  {
    assert levels[..k + 1][..k] == levels[..k];
  }

  method LayerPots(seats: seq<Seat>, levels: seq<int>) returns (pots: seq<Pot>)
    requires forall k :: 0 <= k < |levels| ==> levels[k] > 0
    ensures pots == PotsOf(seats, levels)
  {
    pots := [];
    var prev := 0;
    for k := 0 to |levels|
      invariant prev == Below(levels[..k]) && pots == PotsOf(seats, levels[..k])
    {
      PotsOfStep(seats, levels, k);
      var amount, eligible := Layer(seats, prev, levels[k]);
      prev := levels[k];
      if amount == 0 || eligible == [] {
        continue;
      }
      if |pots| > 0 && pots[|pots| - 1].eligible == eligible {
        pots := pots[|pots| - 1 := Pot(pots[|pots| - 1].amount + amount, eligible)];
        continue;
      }
      pots := pots + [Pot(amount, eligible)];
    }
    assert levels[..|levels|] == levels;
  }

  // The chips of one layer and the seats that can win it.
  method Layer(seats: seq<Seat>, prev: int, level: int) returns (amount: int, eligible: seq<int>)
    requires level > 0
    ensures amount == Sum(LayerShares(seats, prev, level)) && eligible == Eligible(seats, level)
  {
    amount, eligible := 0, [];
    for i := 0 to |seats|
      invariant amount == Sum(LayerShares(seats[..i], prev, level))
      invariant eligible == Eligible(seats[..i], level)
    {
      assert seats[..i + 1][..i] == seats[..i];
      var share := if seats[i].total >= level then level - prev else 0;
      SumAppend(LayerShares(seats[..i], prev, level), share);
      assert LayerShares(seats[..i + 1], prev, level) == LayerShares(seats[..i], prev, level) + [share];
      if seats[i].total >= level {
        amount := amount + (level - prev);
        if seats[i].status != Folded {
          eligible := eligible + [seats[i].index];
        }
      }
    }
    assert seats[..|seats|] == seats;
  }

  lemma {:induction false} SortDistinct(s: seq<int>)
    requires forall i, j :: 0 <= i < j < |s| ==> s[i] != s[j]
    ensures Rising(Sort(s))
  {
    SortAscending(s);
    SortElements(s);
    var r := Sort(s);
    forall i, j | 0 <= i < j < |r|
      ensures r[i] < r[j]
    {
      if r[i] == r[j] {
        TwiceCounted(r, i, j);
        OnceCounted(s, r[i]);
      }
    }
  }

  lemma TwiceCounted(s: seq<int>, i: nat, j: nat)
    requires i < j < |s| && s[i] == s[j]
    ensures multiset(s)[s[i]] >= 2
  {
    assert s == s[..j] + [s[j]] + s[j + 1..];
    assert s[i] in s[..j];
  }

  lemma {:induction false} OnceCounted(s: seq<int>, x: int)
    requires forall i, j :: 0 <= i < j < |s| ==> s[i] != s[j]
    ensures multiset(s)[x] <= 1
  {
    if s != [] {
      OnceCounted(s[1..], x);
      assert s == [s[0]] + s[1..];
      if s[0] == x {
        assert x !in s[1..];
      }
    }
  }
}
