// Who wins what at a showdown.
module PokerWinners {
  // Nobody wins more than his contribution matches from each seat, and a sole
  // best hand wins exactly that.
  import opened Sorting
  import opened Sums
  import opened PokerTable
  import opened PokerPots
  import opened PokerShowdown

  ghost predicate Distinct(s: seq<int>) {
    forall i, j :: 0 <= i < j < |s| ==> s[i] != s[j]
  }

  lemma {:induction false} EligibleDistinct(seats: seq<Seat>, level: int)
    requires DistinctSeats(seats)
    ensures Distinct(Eligible(seats, level))
  {
    if seats != [] {
      var n := |seats| - 1;
      EligibleDistinct(seats[..n], level);
      EligibleMembers(seats[..n], level);
      assert forall i :: 0 <= i < n ==> seats[..n][i].index != seats[n].index;
      assert seats[n].index !in Eligible(seats[..n], level);
    }
  }

  lemma {:induction false} PotsDistinct(seats: seq<Seat>, levels: seq<int>)
    requires DistinctSeats(seats)
    ensures forall pot :: pot in PotsOf(seats, levels) ==> Distinct(pot.eligible)
  {
    if levels != [] {
      var n := |levels| - 1;
      PotsDistinct(seats, levels[..n]);
      EligibleDistinct(seats, levels[n]);
    }
  }

  lemma {:induction false} WithValueDistinct(eligible: seq<int>, values: map<int, int>, v: int)
    requires Distinct(eligible)
    ensures Distinct(WithValue(eligible, values, v))
  {
    if eligible != [] {
      var n := |eligible| - 1;
      WithValueDistinct(eligible[..n], values, v);
      assert eligible[n] !in eligible[..n];
    }
  }

  lemma CreditPayout(paid: Paid, winner: int, chips: int, index: int)
    requires Seated(paid.seats, winner) && chips >= 0
    ensures PayoutOf(Credit(paid, winner, chips), index) == PayoutOf(paid, index) + if index == winner then chips else 0
  {
    CreditKeeps(paid, winner, chips);
  }

  // Each of the first k winners is paid once.
  lemma {:induction false} PayFirstPayout(paid: Paid, winners: seq<int>, share: int, odd: int, k: nat, index: int)
    requires k <= |winners| && share >= 0 && odd >= 0 && Distinct(winners)
    requires forall x :: x in winners ==> Seated(paid.seats, x)
    ensures PayoutOf(paid, index) <= PayoutOf(PayFirst(paid, winners, share, odd, k), index)
    ensures index !in winners[..k] ==> PayoutOf(PayFirst(paid, winners, share, odd, k), index) == PayoutOf(paid, index)
    ensures PayoutOf(PayFirst(paid, winners, share, odd, k), index) <= PayoutOf(paid, index) + share + if odd > 0 then 1 else 0
  {
    if k > 0 {
      PayFirstPayout(paid, winners, share, odd, k - 1, index);
      PayFirstKeeps(paid, winners, share, odd, k - 1);
      var before := PayFirst(paid, winners, share, odd, k - 1);
      assert winners[k - 1] in winners && winners[k - 1] !in winners[..k - 1];
      assert winners[..k] == winners[..k - 1] + [winners[k - 1]];
      StillSeated(paid.seats, before.seats, winners[k - 1]);
      CreditPayout(before, winners[k - 1], share + if k - 1 < odd then 1 else 0, index);
    }
  }

  lemma ShareAtMost(amount: int, n: nat)
    requires amount > 0 && n > 0
    ensures amount / n + (if amount % n > 0 then 1 else 0) <= amount
    ensures n == 1 ==> amount / n == amount && amount % n == 0
  {
    ShareOut(amount, n);
    if n > 1 {
      var q, r := amount / n, amount % n;
      assert n * q == q + (n - 1) * q;
      assert (n - 1) * q >= q * 1 by { assert n - 1 >= 1 && q >= 0; }
    }
  }

  // One pot pays a seat at most its amount, and only if it lists the seat.
  lemma AwardPotPayout(paid: Paid, pot: Pot, values: map<int, int>, index: int)
    requires Payable(paid.seats, pot, values) && Distinct(pot.eligible)
    ensures PayoutOf(paid, index) <= PayoutOf(AwardPot(paid, pot, values), index)
    ensures PayoutOf(AwardPot(paid, pot, values), index) <= PayoutOf(paid, index) + if index in pot.eligible then pot.amount else 0
  {
    HasWinner(pot, values);
    var winners := Winners(pot.eligible, values);
    WithValueDistinct(pot.eligible, values, BestValue(pot.eligible, values).value);
    var sorted := Sort(winners);
    SortMembers(winners);
    SortDistinct(winners);
    var n := |sorted|;
    ShareOut(pot.amount, n);
    ShareAtMost(pot.amount, n);
    PayFirstPayout(paid, sorted, pot.amount / n, pot.amount % n, n, index);
    assert sorted[..n] == sorted;
  }

  ghost predicate SoleBest(values: map<int, int>, index: int) {
    index in values && forall x :: x in values && x != index ==> values[x] < values[index]
  }

  lemma {:induction false} SoleWithValue(eligible: seq<int>, values: map<int, int>, index: int)
    requires Distinct(eligible) && SoleBest(values, index)
    ensures WithValue(eligible, values, values[index]) == if index in eligible then [index] else []
  {
    if eligible != [] {
      var n := |eligible| - 1;
      SoleWithValue(eligible[..n], values, index);
      assert eligible[n] !in eligible[..n];
      assert eligible == eligible[..n] + [eligible[n]];
    }
  }

  lemma SoleWinner(pot: Pot, values: map<int, int>, index: int)
    requires Distinct(pot.eligible) && index in pot.eligible && SoleBest(values, index)
    ensures Winners(pot.eligible, values) == [index]
  {
    SoleWithValue(pot.eligible, values, index);
  }

  lemma PayOne(paid: Paid, index: int, amount: int)
    requires Seated(paid.seats, index) && amount > 0
    ensures PayoutOf(Distribute(paid, amount, [index]), index) == PayoutOf(paid, index) + amount
  {
    assert Sort([index]) == [index];
    ShareAtMost(amount, 1);
    assert PayFirst(paid, [index], amount / 1, amount % 1, 1) == Credit(PayFirst(paid, [index], amount / 1, amount % 1, 0), index, amount);
    CreditKeeps(paid, index, amount);
  }

  // The only seat of maximal strength takes the whole pot.
  lemma AwardPotSole(paid: Paid, pot: Pot, values: map<int, int>, index: int)
    requires Payable(paid.seats, pot, values) && Distinct(pot.eligible)
    requires index in pot.eligible && SoleBest(values, index)
    ensures PayoutOf(AwardPot(paid, pot, values), index) == PayoutOf(paid, index) + pot.amount
  {
    SoleWinner(pot, values, index);
    PayOne(paid, index, pot.amount);
  }

  lemma ListedAppend(pots: seq<Pot>, pot: Pot, index: int)
    ensures Listed(pots + [pot], index) == Listed(pots, index) + if index in pot.eligible then pot.amount else 0
  {
    SumAppend(AmountsFor(pots, index), if index in pot.eligible then pot.amount else 0);
    assert AmountsFor(pots + [pot], index) == AmountsFor(pots, index) + [if index in pot.eligible then pot.amount else 0];
  }

  lemma {:induction false} AwardPayout(paid: Paid, pots: seq<Pot>, values: map<int, int>, index: int)
    requires forall pot :: pot in pots ==> Payable(paid.seats, pot, values) && Distinct(pot.eligible)
    ensures PayoutOf(paid, index) <= PayoutOf(Award(paid, pots, values), index) <= PayoutOf(paid, index) + Listed(pots, index)
    ensures SoleBest(values, index) ==>
              PayoutOf(Award(paid, pots, values), index) == PayoutOf(paid, index) + Listed(pots, index)
  {
    if pots != [] {
      var n := |pots| - 1;
      AwardPayout(paid, pots[..n], values, index);
      AwardKeeps(paid, pots[..n], values);
      var before := Award(paid, pots[..n], values);
      PayableStill(paid.seats, before.seats, pots[n], values);
      AwardPotPayout(before, pots[n], values, index);
      if SoleBest(values, index) && index in pots[n].eligible {
        AwardPotSole(before, pots[n], values, index);
      }
      ListedAppend(pots[..n], pots[n], index);
      assert pots[..n] + [pots[n]] == pots;
    }
  }

  lemma PayableStill(a: seq<Seat>, b: seq<Seat>, pot: Pot, values: map<int, int>)
    requires SamePlayers(a, b) && Payable(a, pot, values)
    ensures Payable(b, pot, values)
  {
    forall x | x in pot.eligible
      ensures Seated(b, x)
    {
      StillSeated(a, b, x);
    }
  }

  // What seat i is reported to win, from the contributions after the
  // uncalled bet went back: never more than they match, and exactly that
  // much for a sole best hand.
  lemma {:induction false} PayoutIsMatched(before: seq<Seat>, board: seq<int>, eval: Evaluator, i: nat)
    requires Accounted(before) && i < |before| && before[i].Live()
    ensures var seats := ReturnUncalled(before); var values := Values(seats, board, eval);
            var paid := Award(Paid(seats, map[]), PotsAtShowdown(before), values);
            && |seats| == |before|
            && 0 <= PayoutOf(paid, before[i].index) <= Sum(Capped(seats, seats[i].total))
            && (SoleBest(values, before[i].index) ==> PayoutOf(paid, before[i].index) == Sum(Capped(seats, seats[i].total)))
  {
    var seats := ReturnUncalled(before);
    ReturnMoves(before);
    MovedAccounted(before, seats);
    PotsPayable(seats, board, eval);
    PotsDistinct(seats, LevelsOf(seats));
    LevelsCorrect(seats);
    PotsAreLayers(seats, LevelsOf(seats), i);
    AwardPayout(Paid(seats, map[]), PotsAtShowdown(before), Values(seats, board, eval), before[i].index);
  }

  // A seat that no pot lists, like a folded one, wins nothing.
  lemma {:induction false} FoldedWinsNothing(before: seq<Seat>, board: seq<int>, eval: Evaluator, i: nat)
    requires Accounted(before) && i < |before| && before[i].status == Folded
    ensures PayoutOf(Award(Paid(ReturnUncalled(before), map[]), PotsAtShowdown(before),
                           Values(ReturnUncalled(before), board, eval)), before[i].index) == 0
  {
    var seats := ReturnUncalled(before);
    ReturnMoves(before);
    MovedAccounted(before, seats);
    PotsPayable(seats, board, eval);
    PotsDistinct(seats, LevelsOf(seats));
    AwardPayout(Paid(seats, map[]), PotsAtShowdown(before), Values(seats, board, eval), before[i].index);
    LevelsCorrect(seats);
    LevelsAreLadder(seats, LevelsOf(seats), |LevelsOf(seats)|);
    assert LevelsOf(seats)[..|LevelsOf(seats)|] == LevelsOf(seats);
    PotsAreWinnable(seats, LevelsOf(seats));
    NotListed(seats, PotsAtShowdown(before), i);
  }

  lemma NotListed(seats: seq<Seat>, pots: seq<Pot>, i: nat)
    requires DistinctSeats(seats) && i < |seats| && seats[i].status == Folded
    requires forall pot :: pot in pots ==> Winnable(seats, pot)
    ensures Listed(pots, seats[i].index) == 0
  {
    forall k | 0 <= k < |pots|
      ensures seats[i].index !in pots[k].eligible
    {
      assert Winnable(seats, pots[k]);
    }
    SumBounds(AmountsFor(pots, seats[i].index), 0, 0);
  }
}
