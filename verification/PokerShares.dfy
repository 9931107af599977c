// How a pot is shared.
module PokerShares {
  // The best hands a pot lists share it evenly; the chips left over go one each
  // to the lowest of their seats.
  import opened Wrappers
  import opened Sorting
  import opened Sums
  import opened PokerTable
  import opened PokerPots
  import opened PokerShowdown
  import opened PokerWinners

  // ---------------------------------------------------------------------
  // Who shares, and how much
  // ---------------------------------------------------------------------

  // No listed hand beats that of seat x.
  ghost predicate Unbeaten(eligible: seq<int>, values: map<int, int>, x: int) {
    && x in eligible && x in values
    && forall y :: y in eligible && y in values ==> values[y] <= values[x]
  }

  ghost function Best(eligible: seq<int>, values: map<int, int>): set<int> {
    set x | x in eligible && Unbeaten(eligible, values, x)
  }

  // How many of a set are below x.
  ghost function Lower(s: set<int>, x: int): nat {
    |set y | y in s && y < x|
  }

  // An even share, and one of the odd chips for the lowest seats.
  ghost function ShareOf(pot: Pot, values: map<int, int>, x: int): int {
    var best := Best(pot.eligible, values);
    if x !in best then 0
    else
      assert |best| != 0;
      pot.amount / |best| + if Lower(best, x) < pot.amount % |best| then 1 else 0
  }

  ghost function Shares(pots: seq<Pot>, values: map<int, int>, x: int): (xs: seq<int>)
    ensures |xs| == |pots| && forall k :: 0 <= k < |pots| ==> xs[k] == ShareOf(pots[k], values, x)
  {
    seq(|pots|, k requires 0 <= k < |pots| => ShareOf(pots[k], values, x))
  }

  ghost function Wins(pots: seq<Pot>, values: map<int, int>, x: int): int {
    Sum(Shares(pots, values, x))
  }

  // ---------------------------------------------------------------------
  // The sorted winners
  // ---------------------------------------------------------------------

  ghost function Elements(s: seq<int>): set<int> {
    set y | y in s
  }

  lemma {:induction false} FirstOnes(s: seq<int>, k: nat)
    requires Rising(s) && k <= |s|
    ensures |Elements(s[..k])| == k
  {
    if k > 0 {
      FirstOnes(s, k - 1);
      assert s[..k] == s[..k - 1] + [s[k - 1]];
      assert Elements(s[..k]) == Elements(s[..k - 1]) + {s[k - 1]};
      assert s[k - 1] !in s[..k - 1];
    } else {
      assert Elements(s[..0]) == {};
    }
  }

  // In a rising list of a set, each element comes after those below it.
  lemma RisingPlaces(s: seq<int>, all: set<int>)
    requires Rising(s) && forall x :: x in s <==> x in all
    ensures |s| == |all| && forall k :: 0 <= k < |s| ==> Lower(all, s[k]) == k
  {
    FirstOnes(s, |s|);
    assert s[..|s|] == s;
    forall y
      ensures y in Elements(s) <==> y in all
    {
      assert y in s <==> y in all;
    }
    assert Elements(s) == all;
    forall k | 0 <= k < |s|
      ensures Lower(all, s[k]) == k
    {
      FirstOnes(s, k);
      BelowAreFirst(s, k);
      assert (set y | y in all && y < s[k]) == Elements(s[..k]);
    }
  }

  lemma BelowAreFirst(s: seq<int>, k: nat)
    requires Rising(s) && k < |s|
    ensures forall y :: y in s && y < s[k] <==> y in s[..k]
  {
    forall y | y in s && y < s[k]
      ensures y in s[..k]
    {
      var j :| 0 <= j < |s| && s[j] == y;
      assert j < k;
    }
  }

  // The winners of a pot are the unbeaten seats.
  lemma WinnersAreBest(pot: Pot, values: map<int, int>)
    ensures forall x :: x in Winners(pot.eligible, values) <==> x in Best(pot.eligible, values)
  {
    var best := BestValue(pot.eligible, values);
    if best.Some? {
      var i :| 0 <= i < |pot.eligible| && pot.eligible[i] in values && values[pot.eligible[i]] == best.value;
      var top := pot.eligible[i];
      assert top in pot.eligible;
      forall x
        ensures x in Winners(pot.eligible, values) <==> x in Best(pot.eligible, values)
      {
        assert x in Best(pot.eligible, values) ==> values[top] <= values[x];
      }
    }
  }

  lemma SortedWinners(pot: Pot, values: map<int, int>)
    requires Distinct(pot.eligible) && Winners(pot.eligible, values) != []
    ensures var sorted := Sort(Winners(pot.eligible, values)); var best := Best(pot.eligible, values);
            && Rising(sorted) && |sorted| == |best| && (forall x :: x in sorted <==> x in best)
            && forall k :: 0 <= k < |sorted| ==> Lower(best, sorted[k]) == k
  {
    var winners := Winners(pot.eligible, values);
    WithValueDistinct(pot.eligible, values, BestValue(pot.eligible, values).value);
    SortDistinct(winners);
    SortMembers(winners);
    WinnersAreBest(pot, values);
    RisingPlaces(Sort(winners), Best(pot.eligible, values));
  }

  // ---------------------------------------------------------------------
  // Paying
  // ---------------------------------------------------------------------

  // What a seat's stack gained is what is reported for it.
  ghost predicate ReportedAt(a: Paid, b: Paid, i: nat) {
    && i < |a.seats| == |b.seats|
    && b.seats[i].stack - a.seats[i].stack == PayoutOf(b, a.seats[i].index) - PayoutOf(a, a.seats[i].index)
  }

  lemma CreditReported(paid: Paid, winner: int, chips: int, i: nat)
    requires DistinctSeats(paid.seats) && Seated(paid.seats, winner) && chips >= 0 && i < |paid.seats|
    ensures ReportedAt(paid, Credit(paid, winner, chips), i)
  {
    CreditKeeps(paid, winner, chips);
    var p := SeatAt(paid.seats, winner).value;
    assert i != p ==> paid.seats[i].index != paid.seats[p].index;
  }

  lemma StillDistinct(a: seq<Seat>, b: seq<Seat>)
    requires SamePlayers(a, b) && DistinctSeats(a)
    ensures DistinctSeats(b)
  {
    forall i, j | 0 <= i < j < |b|
      ensures b[i].index != b[j].index
    {
      assert a[i].index != a[j].index;
    }
  }

  lemma CreditNext(paid: Paid, before: Paid, winner: int, chips: int, i: nat)
    requires DistinctSeats(paid.seats) && SamePlayers(paid.seats, before.seats) && Seated(paid.seats, winner) && chips >= 0
    requires ReportedAt(paid, before, i)
    ensures ReportedAt(paid, Credit(before, winner, chips), i)
  {
    StillDistinct(paid.seats, before.seats);
    StillSeated(paid.seats, before.seats, winner);
    CreditReported(before, winner, chips, i);
  }

  lemma {:induction false} PayFirstSame(paid: Paid, winners: seq<int>, share: int, odd: int, k: nat)
    requires k <= |winners| && share >= 0 && odd >= 0
    requires forall w :: w in winners ==> Seated(paid.seats, w)
    ensures SamePlayers(paid.seats, PayFirst(paid, winners, share, odd, k).seats)
  {
    PayFirstKeeps(paid, winners, share, odd, k);
  }

  lemma {:induction false} PayFirstReported(paid: Paid, winners: seq<int>, share: int, odd: int, k: nat, i: nat)
    requires k <= |winners| && share >= 0 && odd >= 0 && DistinctSeats(paid.seats) && i < |paid.seats|
    requires forall w :: w in winners ==> Seated(paid.seats, w)
    ensures ReportedAt(paid, PayFirst(paid, winners, share, odd, k), i)
  {
    if k > 0 {
      PayFirstReported(paid, winners, share, odd, k - 1, i);
      PayFirstSame(paid, winners, share, odd, k - 1);
      assert winners[k - 1] in winners;
      var chips := share + if k - 1 < odd then 1 else 0;
      CreditNext(paid, PayFirst(paid, winners, share, odd, k - 1), winners[k - 1], chips, i);
    }
  }

  // The winner at place j is paid when it is its turn, and never again; j is -1
  // for somebody who is no winner.
  ghost predicate PlaceIs(winners: seq<int>, x: int, j: int) {
    if j < 0 then x !in winners else j < |winners| && winners[j] == x
  }

  lemma {:induction false} PayFirstExact(paid: Paid, winners: seq<int>, share: int, odd: int, k: nat, x: int, j: int)
    requires k <= |winners| && share >= 0 && odd >= 0 && Rising(winners) && PlaceIs(winners, x, j)
    requires forall w :: w in winners ==> Seated(paid.seats, w)
    ensures PayoutOf(PayFirst(paid, winners, share, odd, k), x) ==
            PayoutOf(paid, x) + if 0 <= j < k then share + (if j < odd then 1 else 0) else 0
  {
    if k > 0 {
      PayFirstExact(paid, winners, share, odd, k - 1, x, j);
      PayFirstSame(paid, winners, share, odd, k - 1);
      var before, w := PayFirst(paid, winners, share, odd, k - 1), winners[k - 1];
      assert w in winners;
      StillSeated(paid.seats, before.seats, w);
      CreditPayout(before, w, share + if k - 1 < odd then 1 else 0, x);
      assert j >= 0 && j != k - 1 ==> winners[j] != w;
    }
  }

  // The share of the winner at place j.
  lemma PlaceShare(pot: Pot, values: map<int, int>, sorted: seq<int>, x: int, j: int)
    requires Winners(pot.eligible, values) != [] && sorted == Sort(Winners(pot.eligible, values)) != []
    requires Distinct(pot.eligible) && PlaceIs(sorted, x, j)
    ensures ShareOf(pot, values, x) ==
            if j >= 0 then pot.amount / |sorted| + (if j < pot.amount % |sorted| then 1 else 0) else 0
  {
    SortedWinners(pot, values);
  }

  lemma PlaceOf(s: seq<int>, x: int) returns (j: int)
    ensures PlaceIs(s, x, j)
  {
    if x in s {
      j :| 0 <= j < |s| && s[j] == x;
    } else {
      j := -1;
    }
  }

  // One pot: everybody gets what ShareOf says.
  lemma AwardPotShares(paid: Paid, pot: Pot, values: map<int, int>, x: int)
    requires Payable(paid.seats, pot, values) && Distinct(pot.eligible)
    ensures PayoutOf(AwardPot(paid, pot, values), x) == PayoutOf(paid, x) + ShareOf(pot, values, x)
  {
    HasWinner(pot, values);
    SortedWinners(pot, values);
    BestAreSeated(paid.seats, pot, values);
    var sorted := Sort(Winners(pot.eligible, values));
    SortMembers(Winners(pot.eligible, values));
    var n := |sorted|;
    ShareOut(pot.amount, n);
    var j := PlaceOf(sorted, x);
    PayFirstExact(paid, sorted, pot.amount / n, pot.amount % n, n, x, j);
    PlaceShare(pot, values, sorted, x, j);
  }

  lemma BestAreSeated(seats: seq<Seat>, pot: Pot, values: map<int, int>)
    requires Payable(seats, pot, values)
    ensures forall x :: x in Best(pot.eligible, values) ==> Seated(seats, x)
  {
  }

  lemma AwardPotReported(paid: Paid, pot: Pot, values: map<int, int>, i: nat)
    requires Payable(paid.seats, pot, values) && Distinct(pot.eligible) && DistinctSeats(paid.seats) && i < |paid.seats|
    ensures ReportedAt(paid, AwardPot(paid, pot, values), i)
  {
    HasWinner(pot, values);
    SortedWinners(pot, values);
    BestAreSeated(paid.seats, pot, values);
    var sorted := Sort(Winners(pot.eligible, values));
    ShareOut(pot.amount, |sorted|);
    PayFirstReported(paid, sorted, pot.amount / |sorted|, pot.amount % |sorted|, |sorted|, i);
  }

  lemma {:induction false} AwardReported(paid: Paid, pots: seq<Pot>, values: map<int, int>, i: nat)
    requires DistinctSeats(paid.seats) && i < |paid.seats|
    requires forall pot :: pot in pots ==> Payable(paid.seats, pot, values) && Distinct(pot.eligible)
    ensures ReportedAt(paid, Award(paid, pots, values), i)
  {
    if pots != [] {
      var n := |pots| - 1;
      AwardReported(paid, pots[..n], values, i);
      AwardKeeps(paid, pots[..n], values);
      var before := Award(paid, pots[..n], values);
      StillDistinct(paid.seats, before.seats);
      PayableStill(paid.seats, before.seats, pots[n], values);
      AwardPotReported(before, pots[n], values, i);
    }
  }

  // One pot more, after some pots of the same table.
  lemma NextShares(seats: seq<Seat>, before: Paid, pot: Pot, values: map<int, int>, x: int)
    requires SamePlayers(seats, before.seats) && Payable(seats, pot, values) && Distinct(pot.eligible)
    ensures PayoutOf(AwardPot(before, pot, values), x) == PayoutOf(before, x) + ShareOf(pot, values, x)
  {
    PayableStill(seats, before.seats, pot, values);
    AwardPotShares(before, pot, values, x);
  }

  lemma WinsAppend(pots: seq<Pot>, values: map<int, int>, x: int)
    requires pots != []
    ensures Wins(pots, values, x) == Wins(pots[..|pots| - 1], values, x) + ShareOf(pots[|pots| - 1], values, x)
  {
    var n := |pots| - 1;
    SumAppend(Shares(pots[..n], values, x), ShareOf(pots[n], values, x));
    assert Shares(pots, values, x) == Shares(pots[..n], values, x) + [ShareOf(pots[n], values, x)];
  }

  lemma {:induction false} AwardShares(paid: Paid, pots: seq<Pot>, values: map<int, int>, x: int)
    requires forall pot :: pot in pots ==> Payable(paid.seats, pot, values) && Distinct(pot.eligible)
    ensures PayoutOf(Award(paid, pots, values), x) == PayoutOf(paid, x) + Wins(pots, values, x)
  {
    if pots != [] {
      var n := |pots| - 1;
      AwardShares(paid, pots[..n], values, x);
      AwardKeeps(paid, pots[..n], values);
      NextShares(paid.seats, Award(paid, pots[..n], values), pots[n], values, x);
      WinsAppend(pots, values, x);
    }
  }

  // ---------------------------------------------------------------------
  // The showdown
  // ---------------------------------------------------------------------

  // The live seats, each with the strength of its own cards and the board.
  ghost predicate Strengths(values: map<int, int>, seats: seq<Seat>, board: seq<int>, eval: Evaluator) {
    && (forall i :: 0 <= i < |seats| && seats[i].Live() ==> seats[i].index in values && values[seats[i].index] == eval(seats[i].hole + board))
    && forall x :: x in values ==> exists i :: 0 <= i < |seats| && seats[i].index == x && seats[i].Live()
  }

  lemma {:induction false} ValuesAreStrengths(seats: seq<Seat>, board: seq<int>, eval: Evaluator)
    requires DistinctSeats(seats)
    ensures Strengths(Values(seats, board, eval), seats, board, eval)
  {
    if seats != [] {
      var n := |seats| - 1;
      ValuesAreStrengths(seats[..n], board, eval);
      forall i | 0 <= i < n
        ensures seats[..n][i] == seats[i] && seats[i].index != seats[n].index
      {
      }
      var before, values := Values(seats[..n], board, eval), Values(seats, board, eval);
      assert values == if seats[n].Live() then before[seats[n].index := eval(seats[n].hole + board)] else before;
      forall i | 0 <= i < |seats| && seats[i].Live()
        ensures seats[i].index in values && values[seats[i].index] == eval(seats[i].hole + board)
      {
        if i < n {
          assert seats[..n][i].Live();
        }
      }
    }
  }

  lemma StrengthsAreUnique(a: map<int, int>, b: map<int, int>, seats: seq<Seat>, board: seq<int>, eval: Evaluator)
    requires Strengths(a, seats, board, eval) && Strengths(b, seats, board, eval)
    ensures a == b
  {
    forall x | x in a
      ensures x in b && a[x] == b[x]
    {
      var i :| 0 <= i < |seats| && seats[i].index == x && seats[i].Live();
    }
    forall x | x in b
      ensures x in a
    {
      var i :| 0 <= i < |seats| && seats[i].index == x && seats[i].Live();
    }
  }

  lemma SameStrengths(values: map<int, int>, a: seq<Seat>, b: seq<Seat>, board: seq<int>, eval: Evaluator)
    requires Strengths(values, a, board, eval) && Moved(a, b)
    ensures Strengths(values, b, board, eval)
  {
    forall x | x in values
      ensures exists i :: 0 <= i < |b| && b[i].index == x && b[i].Live()
    {
      var i :| 0 <= i < |a| && a[i].index == x && a[i].Live();
      assert b[i].index == x && b[i].Live();
    }
  }

  // What the pots of an accounted table pay.
  lemma {:induction false} PotsPay(seats: seq<Seat>, board: seq<int>, eval: Evaluator, values: map<int, int>, paid: Paid)
    requires Accounted(seats) && Strengths(values, seats, board, eval)
    requires paid == Award(Paid(seats, map[]), PotsOf(seats, LevelsOf(seats)), Values(seats, board, eval))
    ensures |paid.seats| == |seats| && forall x :: PayoutOf(paid, x) == Wins(PotsOf(seats, LevelsOf(seats)), values, x)
    ensures forall i :: 0 <= i < |seats| ==>
              paid.seats[i].stack == seats[i].stack + Wins(PotsOf(seats, LevelsOf(seats)), values, seats[i].index)
  {
    var pots, start := PotsOf(seats, LevelsOf(seats)), Paid(seats, map[]);
    ValuesAreStrengths(seats, board, eval);
    StrengthsAreUnique(values, Values(seats, board, eval), seats, board, eval);
    PotsPayable(seats, board, eval);
    PotsDistinct(seats, LevelsOf(seats));
    AwardKeeps(start, pots, values);
    forall x
      ensures PayoutOf(paid, x) == Wins(pots, values, x)
    {
      AwardShares(start, pots, values, x);
    }
    forall i | 0 <= i < |seats|
      ensures paid.seats[i].stack == seats[i].stack + Wins(pots, values, seats[i].index)
    {
      AwardReported(start, pots, values, i);
    }
  }

  // Stacks and payouts are what the shares of the pots say.
  ghost predicate PaidShares(returned: seq<Seat>, after: Table, values: map<int, int>) {
    && |after.seats| == |returned| && after.payouts.Some?
    && (forall i :: 0 <= i < |returned| ==> after.seats[i].stack == returned[i].stack + Wins(after.pots, values, returned[i].index))
    && forall x :: (if x in after.payouts.value then after.payouts.value[x] else 0) == Wins(after.pots, values, x)
  }

  lemma SharesArePaid(ts: Table, returned: seq<Seat>, eval: Evaluator, values: map<int, int>)
    requires returned == ReturnUncalled(ts.seats) && Accounted(returned) && Strengths(values, returned, ts.board, eval)
    ensures PaidShares(returned, RunShowdown(ts, eval), values)
  {
    var paid := Award(Paid(returned, map[]), PotsOf(returned, LevelsOf(returned)), Values(returned, ts.board, eval));
    PotsPay(returned, ts.board, eval, values, paid);
    ShowdownIs(ts, returned, eval, paid);
  }

  lemma {:induction false} ShowdownIs(ts: Table, returned: seq<Seat>, eval: Evaluator, paid: Paid)
    requires returned == ReturnUncalled(ts.seats)
    requires paid == Award(Paid(returned, map[]), PotsOf(returned, LevelsOf(returned)), Values(returned, ts.board, eval))
    ensures var after := RunShowdown(ts, eval);
            && after.pots == PotsOf(returned, LevelsOf(returned)) && after.payouts == Some(paid.payouts) && |after.seats| == |paid.seats|
            && forall i :: 0 <= i < |paid.seats| ==> after.seats[i].stack == paid.seats[i].stack
  {
  }

  // After the uncalled bet went back, every seat's stack grows by its shares of
  // the pots, as reported.
  lemma ShowdownShares(ts: Table, eval: Evaluator, values: map<int, int>)
    requires Accounted(ts.seats) && Strengths(values, ts.seats, ts.board, eval)
    ensures PaidShares(ReturnUncalled(ts.seats), RunShowdown(ts, eval), values)
  {
    var returned := ReturnUncalled(ts.seats);
    ReturnMoves(ts.seats);
    MovedAccounted(ts.seats, returned);
    SameStrengths(values, ts.seats, returned, ts.board, eval);
    SharesArePaid(ts, returned, eval, values);
  }

  // ---------------------------------------------------------------------
  // The uncalled bet
  // ---------------------------------------------------------------------

  // Only a contribution above all others shrinks, to the highest of those, and
  // the rest of it goes back to its stack; a lone contribution stays.
  ghost predicate UncalledBack(before: seq<Seat>, after: seq<Seat>) {
    && |after| == |before|
    && forall i :: 0 <= i < |before| ==>
         && after[i] == before[i].(stack := after[i].stack, total := after[i].total)
         && after[i].stack + after[i].total == before[i].stack + before[i].total
         && (if TopAlone(before, i)
             then after[i].total < before[i].total && exists j :: 0 <= j < |before| && j != i && after[i].total == before[j].total > 0 && NoneAbove(before, i, before[j].total)
             else after[i].total == before[i].total)
  }

  ghost predicate NoneAbove(seats: seq<Seat>, i: nat, level: int) {
    forall j :: 0 <= j < |seats| && j != i ==> seats[j].total <= level
  }

  // Seat i put in more than anybody else, and somebody else put something in.
  ghost predicate TopAlone(seats: seq<Seat>, i: nat)
    requires i < |seats|
  {
    && (forall j :: 0 <= j < |seats| && j != i ==> seats[j].total < seats[i].total)
    && exists j :: 0 <= j < |seats| && j != i && seats[j].total > 0
  }

  lemma UncalledIsReturned(seats: seq<Seat>)
    requires NonNegative(seats)
    ensures UncalledBack(seats, ReturnUncalled(seats))
  {
    var top := MaxTotal(seats);
    var at := PosWithTotal(seats, top);
    if at.Some? {
      var next := MaxTotal(Others(seats, at.value));
      OthersMax(seats, at.value);
      if 0 < next < top {
        OneBack(seats, at.value, next);
      } else {
        NobodyAlone(seats, at.value, next);
      }
    }
  }

  lemma OthersMax(seats: seq<Seat>, p: nat)
    requires NonNegative(seats) && p < |seats|
    ensures var next := MaxTotal(Others(seats, p));
            && NoneAbove(seats, p, next) && (next > 0 ==> exists q :: 0 <= q < |seats| && q != p && seats[q].total == next)
  {
    var next := MaxTotal(Others(seats, p));
    forall j | 0 <= j < |seats| && j != p
      ensures seats[j].total <= next
    {
      OthersBound(seats, p, j);
    }
    if next > 0 {
      var q := OthersAttained(seats, p);
    }
  }

  lemma {:induction false} NobodyAlone(seats: seq<Seat>, p: nat, next: int)
    requires NonNegative(seats) && p < |seats| && seats[p].total == MaxTotal(seats) && NoneAbove(seats, p, next)
    requires next > 0 ==> exists q :: 0 <= q < |seats| && q != p && seats[q].total == next
    requires !(0 < next < seats[p].total)
    ensures forall i :: 0 <= i < |seats| ==> !TopAlone(seats, i)
  {
  }

  lemma {:induction false} OneBack(seats: seq<Seat>, p: nat, next: int)
    requires NonNegative(seats) && p < |seats| && seats[p].total == MaxTotal(seats) && 0 < next < seats[p].total && NoneAbove(seats, p, next)
    requires exists q :: 0 <= q < |seats| && q != p && seats[q].total == next
    ensures UncalledBack(seats, Refund(seats, p, next))
  {
    var q :| 0 <= q < |seats| && q != p && seats[q].total == next;
    assert TopAlone(seats, p);
    forall i | 0 <= i < |seats| && i != p
      ensures !TopAlone(seats, i)
    {
    }
  }
}
