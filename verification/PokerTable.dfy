// A poker table: seats, chips and cards.
module PokerTable {
  import opened Wrappers
  import opened Sums

  datatype Status = SittingOut | Active | Folded | AllIn

  datatype Stage = Preflop | Flop | Turn | River | Showdown | HandOver

  // `committed` counts the current betting round, `total` the whole hand.
  datatype Seat = Seat(index: int, user: nat, stack: int, committed: int, total: int,
                       status: Status, hasActed: bool, hole: seq<int>)
  {
    predicate Live() { status == Active || status == AllIn }
    predicate CanAct() { status == Active && stack > 0 }
    predicate Actionable(currentBet: int) { CanAct() && (!hasActed || committed < currentBet) }

    // Chips move from the stack into the pot; an empty stack is all-in.
    function Pay(amount: int): Seat {
      Seat(index, user, stack - amount, committed + amount, total + amount,
           if stack - amount == 0 then AllIn else status, hasActed, hole)
    }
  }

  datatype Pot = Pot(amount: int, eligible: seq<int>)

  datatype Table = Table(
    handNo: nat, smallBlind: int, bigBlind: int, button: int,
    seats: seq<Seat>, stage: Stage, board: seq<int>, deck: seq<int>,
    currentBet: int, minRaise: int, lastAggressor: int, currentTurn: int,
    pots: seq<Pot>, payouts: Option<map<int, int>>)

  datatype Action = Fold | Check | Call | Bet(to: int) | Raise(to: int) | Unknown

  datatype Error = NotEnoughPlayers | IllegalAction | NotYourTurn

  // The strength of a hand; larger is better. Its definition is not modelled.
  type Evaluator = seq<int> -> int

  // ---------------------------------------------------------------------
  // Finding seats
  // ---------------------------------------------------------------------

  function SeatAt(seats: seq<Seat>, index: int): (r: Option<nat>)
    ensures r.Some? ==> r.value < |seats| && seats[r.value].index == index
    ensures r.None? ==> forall i :: 0 <= i < |seats| ==> seats[i].index != index
  {
    if seats == [] then None
    else if seats[0].index == index then Some(0)
    else match SeatAt(seats[1..], index) case None => None case Some(i) => Some(i + 1)
  }

  function SeatOfUser(seats: seq<Seat>, user: nat): (r: Option<nat>)
    ensures r.Some? ==> r.value < |seats| && seats[r.value].user == user
    ensures r.None? ==> forall i :: 0 <= i < |seats| ==> seats[i].user != user
  {
    if seats == [] then None
    else if seats[0].user == user then Some(0)
    else match SeatOfUser(seats[1..], user) case None => None case Some(i) => Some(i + 1)
  }

  ghost predicate DistinctSeats(seats: seq<Seat>) {
    && (forall i :: 0 <= i < |seats| ==> seats[i].index >= 0)
    && (forall i, j {:trigger seats[i].index, seats[j].index} :: 0 <= i < j < |seats| ==> seats[i].index != seats[j].index)
  }

  lemma {:induction false} SeatAtSelf(seats: seq<Seat>, i: nat)
    requires DistinctSeats(seats) && i < |seats|
    ensures SeatAt(seats, seats[i].index) == Some(i)
  {
    var k := SeatAt(seats, seats[i].index).value;
    assert k == i;
  }

  // ---------------------------------------------------------------------
  // Adding up over the seats
  // ---------------------------------------------------------------------

  function Stacks(seats: seq<Seat>): (xs: seq<int>)
    ensures |xs| == |seats| && forall i :: 0 <= i < |seats| ==> xs[i] == seats[i].stack
  {
    seq(|seats|, i requires 0 <= i < |seats| => seats[i].stack)
  }

  function Totals(seats: seq<Seat>): (xs: seq<int>)
    ensures |xs| == |seats| && forall i :: 0 <= i < |seats| ==> xs[i] == seats[i].total
  {
    seq(|seats|, i requires 0 <= i < |seats| => seats[i].total)
  }

  function Min(a: int, b: int): int { if a < b then a else b }
  function Max(a: int, b: int): int { if a > b then a else b }

  // Contributions counted up to a level.
  function Capped(seats: seq<Seat>, level: int): (xs: seq<int>)
    ensures |xs| == |seats| && forall i :: 0 <= i < |seats| ==> xs[i] == Min(seats[i].total, level)
  {
    seq(|seats|, i requires 0 <= i < |seats| => Min(seats[i].total, level))
  }

  function LiveFlags(seats: seq<Seat>): (xs: seq<int>)
    ensures |xs| == |seats| && forall i :: 0 <= i < |seats| ==> xs[i] == Indicator(seats[i].Live())
  {
    seq(|seats|, i requires 0 <= i < |seats| => Indicator(seats[i].Live()))
  }

  function CanActFlags(seats: seq<Seat>): (xs: seq<int>)
    ensures |xs| == |seats| && forall i :: 0 <= i < |seats| ==> xs[i] == Indicator(seats[i].CanAct())
  {
    seq(|seats|, i requires 0 <= i < |seats| => Indicator(seats[i].CanAct()))
  }

  function ActionableFlags(seats: seq<Seat>, currentBet: int): (xs: seq<int>)
    ensures |xs| == |seats| && forall i :: 0 <= i < |seats| ==> xs[i] == Indicator(seats[i].Actionable(currentBet))
  {
    seq(|seats|, i requires 0 <= i < |seats| => Indicator(seats[i].Actionable(currentBet)))
  }

  function NonFolded(seats: seq<Seat>): int { Sum(LiveFlags(seats)) }
  function CanActCount(seats: seq<Seat>): int { Sum(CanActFlags(seats)) }

  // Chips in stacks and in the pot.
  function Chips(seats: seq<Seat>): int { Sum(Stacks(seats)) + Sum(Totals(seats)) }

  lemma ChipsUpdate(seats: seq<Seat>, i: nat, s: Seat)
    requires i < |seats|
    ensures Sum(Stacks(seats[i := s])) == Sum(Stacks(seats)) - seats[i].stack + s.stack
    ensures Sum(Totals(seats[i := s])) == Sum(Totals(seats)) - seats[i].total + s.total
  {
    SumUpdate(Stacks(seats), i, s.stack);
    SumUpdate(Totals(seats), i, s.total);
    assert Stacks(seats[i := s]) == Stacks(seats)[i := s.stack];
    assert Totals(seats[i := s]) == Totals(seats)[i := s.total];
  }

  function MaxTotal(seats: seq<Seat>): (m: int)
    ensures m >= 0
    ensures forall i :: 0 <= i < |seats| ==> seats[i].total <= m
    ensures m > 0 ==> exists i :: 0 <= i < |seats| && seats[i].total == m
  {
    if seats == [] then 0 else Max(seats[0].total, MaxTotal(seats[1..]))
  }

  function MaxCommitted(seats: seq<Seat>): (m: int)
    ensures m >= 0
    ensures forall i :: 0 <= i < |seats| ==> seats[i].committed <= m
    ensures m > 0 ==> exists i :: 0 <= i < |seats| && seats[i].committed == m
  {
    if seats == [] then 0 else Max(seats[0].committed, MaxCommitted(seats[1..]))
  }
}
