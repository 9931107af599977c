// The account of a showdown.
module PokerShowdown {
  // The uncalled bet goes back, every pot goes to the best hands among the seats
  // it lists, and not a chip is left unexplained.
  import opened Wrappers
  import opened Sorting
  import opened Sums
  import opened PokerTable
  import opened PokerPots

  // ---------------------------------------------------------------------
  // The uncalled bet
  // ---------------------------------------------------------------------

  function PosWithTotal(seats: seq<Seat>, x: int): (r: Option<nat>)
    ensures r.Some? ==> r.value < |seats| && seats[r.value].total == x
    ensures r.None? ==> forall i :: 0 <= i < |seats| ==> seats[i].total != x
  {
    if seats == [] then None
    else if seats[0].total == x then Some(0)
    else match PosWithTotal(seats[1..], x) case None => None case Some(i) => Some(i + 1)
  }

  function Others(seats: seq<Seat>, p: nat): seq<Seat>
    requires p < |seats|
  {
    seats[..p] + seats[p + 1..]
  }

  // The best contribution, when it is alone, shrinks to the second best.
  function ReturnUncalled(seats: seq<Seat>): seq<Seat> {
    var top := MaxTotal(seats);
    match PosWithTotal(seats, top)
    case None => seats
    case Some(p) =>
      var next := MaxTotal(Others(seats, p));
      if next > 0 && top > next then Refund(seats, p, next) else seats
  }

  function Refund(seats: seq<Seat>, p: nat, next: int): seq<Seat>
    requires p < |seats|
  {
    seats[p := seats[p].(stack := seats[p].stack + (seats[p].total - next), total := next)]
  }

  // ---------------------------------------------------------------------
  // Winners and payments
  // ---------------------------------------------------------------------

  // Strengths of the live seats.
  function Values(seats: seq<Seat>, board: seq<int>, eval: Evaluator): (values: map<int, int>)
    ensures forall i :: 0 <= i < |seats| && seats[i].Live() ==> seats[i].index in values
    ensures forall x :: x in values ==> exists i :: 0 <= i < |seats| && seats[i].index == x && seats[i].Live()
  {
    if seats == [] then map[]
    else
      var n := |seats| - 1;
      var before := Values(seats[..n], board, eval);
      assert forall i :: 0 <= i < n ==> seats[..n][i] == seats[i];
      if seats[n].Live() then before[seats[n].index := eval(seats[n].hole + board)] else before
  }

  function BestValue(eligible: seq<int>, values: map<int, int>): (best: Option<int>)
    ensures forall x :: x in eligible && x in values ==> best.Some? && values[x] <= best.value
    ensures best.Some? ==> exists i :: 0 <= i < |eligible| && eligible[i] in values && values[eligible[i]] == best.value
  {
    if eligible == [] then None
    else
      var n := |eligible| - 1;
      var before := BestValue(eligible[..n], values);
      assert eligible == eligible[..n] + [eligible[n]];
      if eligible[n] in values && (before.None? || values[eligible[n]] > before.value)
      then Some(values[eligible[n]]) else before
  }

  function WithValue(eligible: seq<int>, values: map<int, int>, v: int): (r: seq<int>)
    ensures forall x :: x in r <==> x in eligible && x in values && values[x] == v
  {
    if eligible == [] then []
    else
      var n := |eligible| - 1;
      assert eligible == eligible[..n] + [eligible[n]];
      WithValue(eligible[..n], values, v) +
      if eligible[n] in values && values[eligible[n]] == v then [eligible[n]] else []
  }

  // The listed live seats of maximal strength.
  function Winners(eligible: seq<int>, values: map<int, int>): seq<int> {
    match BestValue(eligible, values)
    case None => []
    case Some(v) => WithValue(eligible, values, v)
  }

  datatype Paid = Paid(seats: seq<Seat>, payouts: map<int, int>)

  function Credit(paid: Paid, index: int, chips: int): Paid {
    match SeatAt(paid.seats, index)
    case None => paid
    case Some(p) =>
      Paid(paid.seats[p := paid.seats[p].(stack := paid.seats[p].stack + chips)],
           paid.payouts[index := (if index in paid.payouts then paid.payouts[index] else 0) + chips])
  }

  // The first k winners each get a share, the first `odd` one chip more.
  function PayFirst(paid: Paid, winners: seq<int>, share: int, odd: int, k: nat): Paid
    requires k <= |winners|
  {
    if k == 0 then paid
    else Credit(PayFirst(paid, winners, share, odd, k - 1), winners[k - 1], share + if k - 1 < odd then 1 else 0)
  }

  function Distribute(paid: Paid, amount: int, winners: seq<int>): Paid
    requires winners != []
  {
    var sorted := Sort(winners);
    SortMembers(winners);
    PayFirst(paid, sorted, amount / |sorted|, amount % |sorted|, |sorted|)
  }

  function AwardPot(paid: Paid, pot: Pot, values: map<int, int>): Paid {
    var winners := Winners(pot.eligible, values);
    if winners == [] then paid else Distribute(paid, pot.amount, winners)
  }

  function Award(paid: Paid, pots: seq<Pot>, values: map<int, int>): Paid {
    if pots == [] then paid
    else AwardPot(Award(paid, pots[..|pots| - 1], values), pots[|pots| - 1], values)
  }

  function Cleared(seats: seq<Seat>): (r: seq<Seat>)
    ensures |r| == |seats| && forall i :: 0 <= i < |seats| ==> r[i] == seats[i].(committed := 0, total := 0)
  {
    seq(|seats|, i requires 0 <= i < |seats| => seats[i].(committed := 0, total := 0))
  }

  function PotsAtShowdown(seats: seq<Seat>): seq<Pot> {
    PotsOf(ReturnUncalled(seats), LevelsOf(ReturnUncalled(seats)))
  }

  function ShowdownPaid(ts: Table, eval: Evaluator): Paid {
    var seats := ReturnUncalled(ts.seats);
    Award(Paid(seats, map[]), PotsAtShowdown(ts.seats), Values(seats, ts.board, eval))
  }

  function RunShowdown(ts: Table, eval: Evaluator): Table {
    var paid := ShowdownPaid(ts, eval);
    ts.(seats := Cleared(paid.seats), stage := HandOver, currentTurn := -1,
        pots := PotsAtShowdown(ts.seats), payouts := Some(paid.payouts))
  }

  // ---------------------------------------------------------------------
  // Conservation in the payments
  // ---------------------------------------------------------------------

  // Only the stacks differ.
  ghost predicate SamePlayers(a: seq<Seat>, b: seq<Seat>) {
    |a| == |b| && forall i :: 0 <= i < |a| ==> b[i] == a[i].(stack := b[i].stack)
  }

  ghost predicate Seated(seats: seq<Seat>, index: int) {
    exists i :: 0 <= i < |seats| && seats[i].index == index
  }

  lemma CreditKeeps(paid: Paid, index: int, chips: int)
    requires Seated(paid.seats, index) && chips >= 0
    ensures SamePlayers(paid.seats, Credit(paid, index, chips).seats)
    ensures Sum(Stacks(Credit(paid, index, chips).seats)) == Sum(Stacks(paid.seats)) + chips
    ensures forall i :: 0 <= i < |paid.seats| ==> Credit(paid, index, chips).seats[i].stack >= paid.seats[i].stack
    ensures Credit(paid, index, chips).payouts == paid.payouts[index := PayoutOf(paid, index) + chips]
  {
    var p := SeatAt(paid.seats, index).value;
    ChipsUpdate(paid.seats, p, paid.seats[p].(stack := paid.seats[p].stack + chips));
  }

  function PayoutOf(paid: Paid, index: int): int {
    if index in paid.payouts then paid.payouts[index] else 0
  }

  // The same players, none of them poorer, with so many more chips in all.
  ghost predicate Gains(a: seq<Seat>, b: seq<Seat>, chips: int) {
    && SamePlayers(a, b) && Sum(Stacks(b)) == Sum(Stacks(a)) + chips
    && forall i :: 0 <= i < |a| ==> b[i].stack >= a[i].stack
  }

  lemma GainsAdd(a: seq<Seat>, b: seq<Seat>, c: seq<Seat>, x: int, y: int)
    requires Gains(a, b, x) && Gains(b, c, y)
    ensures Gains(a, c, x + y)
  {
  }

  lemma {:induction false} PayFirstKeeps(paid: Paid, winners: seq<int>, share: int, odd: int, k: nat)
    requires k <= |winners| && share >= 0 && odd >= 0
    requires forall x :: x in winners ==> Seated(paid.seats, x)
    ensures SamePlayers(paid.seats, PayFirst(paid, winners, share, odd, k).seats)
    ensures Sum(Stacks(PayFirst(paid, winners, share, odd, k).seats)) == Sum(Stacks(paid.seats)) + k * share + Min(k, odd)
    ensures forall i :: 0 <= i < |paid.seats| ==> PayFirst(paid, winners, share, odd, k).seats[i].stack >= paid.seats[i].stack
  {
    if k > 0 {
      PayFirstKeeps(paid, winners, share, odd, k - 1);
      var before := PayFirst(paid, winners, share, odd, k - 1);
      assert winners[k - 1] in winners;
      CreditGains(paid.seats, before, winners[k - 1], share + (if k - 1 < odd then 1 else 0), (k - 1) * share + Min(k - 1, odd));
      ShareStep(share, odd, k);
    }
  }

  lemma ShareStep(share: int, odd: int, k: nat)
    requires k > 0
    ensures k * share + Min(k, odd) == ((k - 1) * share + Min(k - 1, odd)) + (share + if k - 1 < odd then 1 else 0)
  {
  }

  lemma CreditGains(seats: seq<Seat>, before: Paid, index: int, chips: int, got: int)
    requires Gains(seats, before.seats, got) && Seated(seats, index) && chips >= 0
    ensures Gains(seats, Credit(before, index, chips).seats, got + chips)
  {
    StillSeated(seats, before.seats, index);
    CreditKeeps(before, index, chips);
    GainsAdd(seats, before.seats, Credit(before, index, chips).seats, got, chips);
  }

  lemma StillSeated(a: seq<Seat>, b: seq<Seat>, index: int)
    requires SamePlayers(a, b) && Seated(a, index)
    ensures Seated(b, index)
  {
    var i :| 0 <= i < |a| && a[i].index == index;
    assert b[i].index == index;
  }

  lemma ShareOut(amount: int, n: nat)
    requires amount >= 0 && n > 0
    ensures n * (amount / n) + amount % n == amount && amount / n >= 0 && 0 <= amount % n < n
  {
  }

  // A pot is paid out in full.
  lemma AwardPotKeeps(paid: Paid, pot: Pot, values: map<int, int>)
    requires pot.amount >= 0
    requires forall x :: x in pot.eligible ==> Seated(paid.seats, x)
    ensures SamePlayers(paid.seats, AwardPot(paid, pot, values).seats)
    ensures Sum(Stacks(AwardPot(paid, pot, values).seats)) ==
            Sum(Stacks(paid.seats)) + if Winners(pot.eligible, values) == [] then 0 else pot.amount
    ensures forall i :: 0 <= i < |paid.seats| ==> AwardPot(paid, pot, values).seats[i].stack >= paid.seats[i].stack
  {
    var winners := Winners(pot.eligible, values);
    if winners != [] {
      var sorted := Sort(winners);
      SortMembers(winners);
      var n := |sorted|;
      ShareOut(pot.amount, n);
      PayFirstKeeps(paid, sorted, pot.amount / n, pot.amount % n, n);
    }
  }

  // Every eligible seat has a strength, so every pot has a winner.
  lemma HasWinner(pot: Pot, values: map<int, int>)
    requires pot.eligible != [] && forall x :: x in pot.eligible ==> x in values
    ensures Winners(pot.eligible, values) != []
  {
    var e := pot.eligible[0];
    assert e in pot.eligible && e in values;
    var v := BestValue(pot.eligible, values).value;
    var i :| 0 <= i < |pot.eligible| && pot.eligible[i] in values && values[pot.eligible[i]] == v;
    assert pot.eligible[i] in WithValue(pot.eligible, values, v);
  }

  // One more pot, after some pots of the same table.
  lemma NextPotKeeps(start: Paid, before: Paid, pot: Pot, values: map<int, int>)
    requires Payable(start.seats, pot, values) && SamePlayers(start.seats, before.seats)
    ensures Gains(before.seats, AwardPot(before, pot, values).seats, pot.amount)
  {
    forall x | x in pot.eligible
      ensures Seated(before.seats, x)
    {
      StillSeated(start.seats, before.seats, x);
    }
    HasWinner(pot, values);
    AwardPotKeeps(before, pot, values);
  }

  lemma {:induction false} AwardKeeps(paid: Paid, pots: seq<Pot>, values: map<int, int>)
    requires forall pot :: pot in pots ==> Payable(paid.seats, pot, values)
    ensures Gains(paid.seats, Award(paid, pots, values).seats, PotSum(pots))
  {
    if pots != [] {
      var n := |pots| - 1;
      AwardKeeps(paid, pots[..n], values);
      var before := Award(paid, pots[..n], values);
      assert pots[n] in pots;
      NextPotKeeps(paid, before, pots[n], values);
      GainsAdd(paid.seats, before.seats, AwardPot(before, pots[n], values).seats, PotSum(pots[..n]), pots[n].amount);
      SumAppend(Amounts(pots[..n]), pots[n].amount);
      assert Amounts(pots) == Amounts(pots[..n]) + [pots[n].amount];
    }
  }

  // A pot of the table whose listed seats all show a hand.
  ghost predicate Payable(seats: seq<Seat>, pot: Pot, values: map<int, int>) {
    && pot.amount > 0 && pot.eligible != []
    && forall x :: x in pot.eligible ==> x in values && Seated(seats, x)
  }

  // ---------------------------------------------------------------------
  // The account of a showdown
  // ---------------------------------------------------------------------

  // What a table brings to a showdown.
  ghost predicate Accounted(seats: seq<Seat>) {
    && DistinctSeats(seats) && NonNegative(seats)
    && (forall i :: 0 <= i < |seats| ==> seats[i].stack >= 0)
    && (forall i :: 0 <= i < |seats| && seats[i].status == SittingOut ==> seats[i].total == 0)
    && (exists i :: 0 <= i < |seats| && seats[i].Live())
  }

  // Chips above every unfolded contribution, per seat.
  function Excess(seats: seq<Seat>, level: int): (xs: seq<int>)
    ensures |xs| == |seats| && forall i :: 0 <= i < |seats| ==> xs[i] == Max(0, seats[i].total - level)
  {
    seq(|seats|, i requires 0 <= i < |seats| => Max(0, seats[i].total - level))
  }

  // Chips that no pot holds after the uncalled bet went back.
  function Stranded(seats: seq<Seat>): int {
    Sum(Excess(ReturnUncalled(seats), MaxUnfolded(ReturnUncalled(seats))))
  }

  lemma {:induction false} MaxOf(seats: seq<Seat>, m: int)
    requires m >= 0 && forall i :: 0 <= i < |seats| ==> seats[i].total <= m
    requires m > 0 ==> exists i :: 0 <= i < |seats| && seats[i].total == m
    ensures MaxTotal(seats) == m
  {
  }

  // Chips move from pot shares back to stacks, nothing else.
  ghost predicate Moved(seats: seq<Seat>, after: seq<Seat>) {
    && |after| == |seats|
    && forall i :: 0 <= i < |seats| ==>
         && after[i] == seats[i].(stack := after[i].stack, total := after[i].total)
         && after[i].stack >= seats[i].stack && 0 <= after[i].total <= seats[i].total
  }

  lemma RefundMoves(seats: seq<Seat>, p: nat, next: int)
    requires NonNegative(seats) && p < |seats| && 0 <= next <= seats[p].total
    ensures Moved(seats, Refund(seats, p, next)) && Chips(Refund(seats, p, next)) == Chips(seats)
  {
    ChipsUpdate(seats, p, seats[p].(stack := seats[p].stack + (seats[p].total - next), total := next));
  }

  lemma ReturnMoves(seats: seq<Seat>)
    requires NonNegative(seats)
    ensures Moved(seats, ReturnUncalled(seats)) && Chips(ReturnUncalled(seats)) == Chips(seats)
  {
    assert Moved(seats, seats);
    var at := PosWithTotal(seats, MaxTotal(seats));
    if at.Some? {
      var next := MaxTotal(Others(seats, at.value));
      if 0 < next < MaxTotal(seats) {
        RefundMoves(seats, at.value, next);
      }
    }
  }

  lemma MovedAccounted(seats: seq<Seat>, after: seq<Seat>)
    requires Accounted(seats) && Moved(seats, after)
    ensures Accounted(after)
  {
    var w :| 0 <= w < |seats| && seats[w].Live();
    assert after[w].Live();
    forall i, j | 0 <= i < j < |after|
      ensures after[i].index != after[j].index
    {
      assert seats[i].index != seats[j].index;
    }
  }

  lemma {:induction false} PotsPayable(seats: seq<Seat>, board: seq<int>, eval: Evaluator)
    requires Accounted(seats)
    ensures forall pot :: pot in PotsOf(seats, LevelsOf(seats)) ==> Payable(seats, pot, Values(seats, board, eval))
  {
    var levels := LevelsOf(seats);
    LevelsCorrect(seats);
    LevelsAreLadder(seats, levels, |levels|);
    assert levels[..|levels|] == levels;
    PotsAreWinnable(seats, levels);
    forall pot | pot in PotsOf(seats, levels)
      ensures Payable(seats, pot, Values(seats, board, eval))
    {
      WinnableIsPayable(seats, pot, Values(seats, board, eval));
    }
  }

  lemma WinnableIsPayable(seats: seq<Seat>, pot: Pot, values: map<int, int>)
    requires Accounted(seats) && Winnable(seats, pot)
    requires forall i :: 0 <= i < |seats| && seats[i].Live() ==> seats[i].index in values
    ensures Payable(seats, pot, values)
  {
    forall x | x in pot.eligible
      ensures x in values && Seated(seats, x)
    {
      var i :| 0 <= i < |seats| && seats[i].index == x && seats[i].status != Folded && seats[i].total > 0;
      assert seats[i].Live();
    }
  }

  // What paying out some pots does to an accounted table.
  lemma {:induction false} PaidOut(seats: seq<Seat>, pots: seq<Pot>, values: map<int, int>, after: seq<Seat>)
    requires Accounted(seats) && forall pot :: pot in pots ==> Payable(seats, pot, values)
    requires after == Cleared(Award(Paid(seats, map[]), pots, values).seats)
    ensures |after| == |seats|
    ensures Sum(Stacks(after)) == Sum(Stacks(seats)) + PotSum(pots) && Sum(Totals(after)) == 0
    ensures forall i :: 0 <= i < |seats| ==> SameSeat(seats[i], after[i])
  {
    AwardKeeps(Paid(seats, map[]), pots, values);
    var paid := Award(Paid(seats, map[]), pots, values).seats;
    assert Stacks(after) == Stacks(paid);
    SumBounds(Totals(after), 0, 0);
  }

  lemma {:induction false} PotsAreAllButOver(seats: seq<Seat>)
    requires Accounted(seats)
    ensures PotSum(PotsOf(seats, LevelsOf(seats))) == Sum(Totals(seats)) - Sum(Excess(seats, MaxUnfolded(seats)))
  {
    LevelsCorrect(seats);
    var w :| 0 <= w < |seats| && seats[w].Live();
    PotsAreLayers(seats, LevelsOf(seats), w);
    CappedAndExcess(seats, MaxUnfolded(seats));
  }

  lemma CappedAndExcess(seats: seq<Seat>, m: int)
    ensures Sum(Capped(seats, m)) + Sum(Excess(seats, m)) == Sum(Totals(seats))
  {
    SumLinear(Capped(seats, m), Excess(seats, m), Totals(seats));
  }

  lemma {:induction false} PaidAccount(seats: seq<Seat>, returned: seq<Seat>, board: seq<int>, eval: Evaluator, after: seq<Seat>)
    requires Accounted(seats) && returned == ReturnUncalled(seats)
    requires after == Cleared(Award(Paid(returned, map[]), PotsOf(returned, LevelsOf(returned)), Values(returned, board, eval)).seats)
    ensures Sum(Stacks(after)) == Chips(seats) - Stranded(seats) && Sum(Totals(after)) == 0
    ensures |after| == |seats| && forall i :: 0 <= i < |seats| ==> SameSeat(seats[i], after[i])
  {
    ReturnMoves(seats);
    MovedAccounted(seats, returned);
    ReturnedAccount(returned, board, eval, after);
  }

  lemma {:induction false} ReturnedAccount(seats: seq<Seat>, board: seq<int>, eval: Evaluator, after: seq<Seat>)
    requires Accounted(seats)
    requires after == Cleared(Award(Paid(seats, map[]), PotsOf(seats, LevelsOf(seats)), Values(seats, board, eval)).seats)
    ensures Sum(Stacks(after)) == Chips(seats) - Sum(Excess(seats, MaxUnfolded(seats))) && Sum(Totals(after)) == 0
    ensures |after| == |seats| && forall i :: 0 <= i < |seats| ==> SameSeat(seats[i], after[i])
  {
    PotsPayable(seats, board, eval);
    PotsAreAllButOver(seats);
    PaidOut(seats, PotsOf(seats, LevelsOf(seats)), Values(seats, board, eval), after);
  }

  // The exact account: after a showdown the stacks hold all chips of the hand
  // except those stranded above every live contribution, and nobody lost
  // more than what was in the pot.
  lemma ShowdownAccount(ts: Table, eval: Evaluator)
    requires Accounted(ts.seats)
    ensures Sum(Stacks(RunShowdown(ts, eval).seats)) == Chips(ts.seats) - Stranded(ts.seats)
    ensures Sum(Totals(RunShowdown(ts, eval).seats)) == 0
    ensures |RunShowdown(ts, eval).seats| == |ts.seats|
    ensures forall i :: 0 <= i < |ts.seats| ==> SameSeat(ts.seats[i], RunShowdown(ts, eval).seats[i])
  {
    PaidAccount(ts.seats, ReturnUncalled(ts.seats), ts.board, eval, RunShowdown(ts, eval).seats);
  }

  // The same player, with at least as many chips behind as before.
  ghost predicate SameSeat(a: Seat, b: Seat) {
    b.index == a.index && b.user == a.user && b.status == a.status && b.hole == a.hole && b.stack >= a.stack
  }

  // ---------------------------------------------------------------------
  // When nothing is stranded
  // ---------------------------------------------------------------------

  // Two folded seats put in more than every seat still in the hand.
  ghost predicate TwoDeadAbove(seats: seq<Seat>) {
    exists i, j :: 0 <= i < j < |seats| && DeadAbove(seats, i) && DeadAbove(seats, j)
  }

  ghost predicate DeadAbove(seats: seq<Seat>, i: nat)
    requires i < |seats|
  {
    seats[i].status == Folded && seats[i].total > MaxUnfolded(seats)
  }

  lemma {:induction false} UnfoldedUnchanged(a: seq<Seat>, b: seq<Seat>)
    requires |a| == |b| && forall i :: 0 <= i < |a| ==> a[i].status == b[i].status
    requires forall i :: 0 <= i < |a| && a[i].status != Folded ==> a[i].total == b[i].total
    ensures MaxUnfolded(a) == MaxUnfolded(b)
  {
  }

  lemma OthersBound(seats: seq<Seat>, p: nat, i: nat)
    requires p < |seats| && i < |seats| && i != p
    ensures seats[i].total <= MaxTotal(Others(seats, p))
  {
    assert seats[i] == if i < p then Others(seats, p)[i] else Others(seats, p)[i - 1];
  }

  lemma OthersAttained(seats: seq<Seat>, p: nat) returns (q: nat)
    requires p < |seats| && MaxTotal(Others(seats, p)) > 0
    ensures q < |seats| && q != p && seats[q].total == MaxTotal(Others(seats, p))
  {
    var k :| 0 <= k < |Others(seats, p)| && Others(seats, p)[k].total == MaxTotal(Others(seats, p));
    q := if k < p then k else k + 1;
  }

  lemma {:induction false} NothingOver(seats: seq<Seat>)
    ensures Sum(Excess(seats, MaxUnfolded(seats))) == 0 <==> forall i :: 0 <= i < |seats| ==> seats[i].total <= MaxUnfolded(seats)
    ensures Sum(Excess(seats, MaxUnfolded(seats))) >= 0
  {
    var xs := Excess(seats, MaxUnfolded(seats));
    SumNonNegative(xs);
    assert forall i :: 0 <= i < |seats| ==> (xs[i] == 0 <==> seats[i].total <= MaxUnfolded(seats));
  }

  // Chips are conserved by a showdown exactly unless two folded seats stand
  // above every live seat.
  lemma StrandedIff(seats: seq<Seat>)
    requires Accounted(seats) && Contributors(seats)
    ensures Stranded(seats) >= 0
    ensures Stranded(seats) == 0 <==> !TwoDeadAbove(seats)
  {
    NothingOver(ReturnUncalled(seats));
    if TwoDeadAbove(seats) {
      StrandedWhenTwoDead(seats);
    } else {
      var p, q := HighestTwo(seats);
      NothingWhenNotTwoDead(seats, p, q);
    }
  }

  lemma HighestTwo(seats: seq<Seat>) returns (p: nat, q: nat)
    requires Contributors(seats)
    ensures p < |seats| && q < |seats| && q != p && PosWithTotal(seats, MaxTotal(seats)) == Some(p)
    ensures seats[q].total == MaxTotal(Others(seats, p)) > 0
  {
    p := PosWithTotal(seats, MaxTotal(seats)).value;
    var a, b :| 0 <= a < b < |seats| && seats[a].total > 0 && seats[b].total > 0;
    OthersBound(seats, p, if a == p then b else a);
    q := OthersAttained(seats, p);
  }

  // At least two seats put chips in, as the blinds guarantee.
  ghost predicate Contributors(seats: seq<Seat>) {
    exists i, j :: 0 <= i < j < |seats| && seats[i].total > 0 && seats[j].total > 0
  }

  lemma StrandedWhenTwoDead(seats: seq<Seat>)
    requires TwoDeadAbove(seats)
    ensures exists i :: 0 <= i < |seats| && ReturnUncalled(seats)[i].total > MaxUnfolded(ReturnUncalled(seats))
  {
    var i, j :| 0 <= i < j < |seats| && DeadAbove(seats, i) && DeadAbove(seats, j);
    var after := ReturnUncalled(seats);
    var p := PosWithTotal(seats, MaxTotal(seats));
    if p.Some? {
      assert seats[p.value].status == Folded;
    }
    UnfoldedUnchanged(seats, after);
    var k := if p == Some(i) then j else i;
    assert after[k].total == seats[k].total;
  }

  lemma {:induction false} NothingWhenNotTwoDead(seats: seq<Seat>, p: nat, q: nat)
    requires !TwoDeadAbove(seats) && p < |seats| && q < |seats| && q != p
    requires PosWithTotal(seats, MaxTotal(seats)) == Some(p)
    requires seats[q].total == MaxTotal(Others(seats, p)) > 0
    ensures forall i :: 0 <= i < |seats| ==> ReturnUncalled(seats)[i].total <= MaxUnfolded(ReturnUncalled(seats))
  {
    var after := ReturnUncalled(seats);
    var next := seats[q].total;
    forall i | 0 <= i < |seats|
      ensures after[i].total <= next
    {
      if i != p {
        OthersBound(seats, p, i);
      }
    }
    if seats[p].status != Folded {
      assert after[p].total >= next;
    } else if seats[q].status != Folded {
      assert after[q].total == next;
    } else {
      UnfoldedUnchanged(seats, after);
      if next > MaxUnfolded(seats) {
        assert DeadAbove(seats, p) && DeadAbove(seats, q);
        assert TwoDeadAbove(seats);
      }
    }
  }
}
