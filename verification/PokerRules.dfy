// One hand of no-limit betting as state transitions: dealing, the players'
// actions, and the moves from street to street.
module PokerRules {
  import opened Wrappers
  import opened Sorting
  import opened Sums
  import opened PokerTable
  import opened PokerShowdown

  const MIN_SEATS := 2

  // ---------------------------------------------------------------------
  // Who acts next
  // ---------------------------------------------------------------------

  // Seat indices still in the deal, ascending.
  function InHand(seats: seq<Seat>): seq<int> {
    Sort(InHandUnsorted(seats))
  }

  function InHandUnsorted(seats: seq<Seat>): (r: seq<int>)
    ensures forall x :: x in r <==> exists i :: 0 <= i < |seats| && seats[i].index == x && seats[i].status != SittingOut
  {
    if seats == [] then []
    else
      var n := |seats| - 1;
      var before := InHandUnsorted(seats[..n]);
      assert forall i :: 0 <= i < n ==> seats[..n][i] == seats[i];
      if seats[n].status != SittingOut then before + [seats[n].index] else before
  }

  // The lowest actionable seat index above `floor`, if any.
  function LowestActor(seats: seq<Seat>, currentBet: int, floor: int): (r: Option<int>)
    ensures r.Some? ==> exists i :: 0 <= i < |seats| && seats[i].index == r.value && seats[i].Actionable(currentBet)
    ensures r.Some? ==> r.value > floor
    ensures forall i :: 0 <= i < |seats| && seats[i].Actionable(currentBet) && seats[i].index > floor ==>
              r.Some? && r.value <= seats[i].index
  {
    if seats == [] then None
    else
      var n := |seats| - 1;
      var before := LowestActor(seats[..n], currentBet, floor);
      assert forall i :: 0 <= i < n ==> seats[..n][i] == seats[i];
      if seats[n].Actionable(currentBet) && seats[n].index > floor && (before.None? || seats[n].index < before.value)
      then Some(seats[n].index) else before
  }

  // Clockwise from `after`: the next higher actionable seat, else the lowest
  // one, else -1. From a seat outside the deal the search starts at the lowest.
  function NextActor(seats: seq<Seat>, currentBet: int, after: int): int {
    var above := if after in InHandUnsorted(seats) then LowestActor(seats, currentBet, after) else None;
    if above.Some? then above.value
    else match LowestActor(seats, currentBet, -1) case Some(x) => x case None => -1
  }

  ghost predicate SomeActor(seats: seq<Seat>, currentBet: int) {
    exists i :: 0 <= i < |seats| && seats[i].Actionable(currentBet)
  }

  ghost predicate ActorAt(seats: seq<Seat>, currentBet: int, index: int) {
    exists i :: 0 <= i < |seats| && seats[i].index == index && seats[i].Actionable(currentBet)
  }

  lemma NextActorFound(seats: seq<Seat>, currentBet: int, after: int)
    requires forall i :: 0 <= i < |seats| ==> seats[i].index >= 0
    ensures NextActor(seats, currentBet, after) >= 0 <==> SomeActor(seats, currentBet)
    ensures NextActor(seats, currentBet, after) >= 0 ==> ActorAt(seats, currentBet, NextActor(seats, currentBet, after))
  {
    var low := LowestActor(seats, currentBet, -1);
    if low.Some? {
      assert ActorAt(seats, currentBet, low.value);
    }
    var above := LowestActor(seats, currentBet, after);
    if above.Some? {
      assert ActorAt(seats, currentBet, above.value);
    }
  }

  // ---------------------------------------------------------------------
  // From street to street
  // ---------------------------------------------------------------------

  function StreetsLeft(stage: Stage): nat {
    match stage
    case Preflop => 4
    case Flop => 3
    case Turn => 2
    case River => 1
    case _ => 0
  }

  function CardsLeft(stage: Stage): nat {
    match stage
    case Preflop => 5
    case Flop => 2
    case Turn => 1
    case _ => 0
  }

  predicate IsStreet(stage: Stage) {
    StreetsLeft(stage) > 0
  }

  function Following(stage: Stage): Stage {
    match stage
    case Preflop => Flop
    case Flop => Turn
    case Turn => River
    case _ => Showdown
  }

  function DealBoard(ts: Table, n: nat): Table
    requires n <= |ts.deck|
  {
    ts.(board := ts.board + ts.deck[..n], deck := ts.deck[n..])
  }

  // The next street, with its cards.
  function NextStreet(ts: Table): Table
    requires IsStreet(ts.stage) && |ts.deck| >= CardsLeft(ts.stage)
  {
    var next := Following(ts.stage);
    DealBoard(ts, CardsLeft(ts.stage) - CardsLeft(next)).(stage := next)
  }

  function RunOut(ts: Table, eval: Evaluator): Table
    requires |ts.deck| >= CardsLeft(ts.stage)
    decreases StreetsLeft(ts.stage)
  {
    if IsStreet(ts.stage) then RunOut(NextStreet(ts), eval) else RunShowdown(ts, eval)
  }

  function NewRound(seats: seq<Seat>): (r: seq<Seat>)
    ensures |r| == |seats|
    ensures forall i :: 0 <= i < |seats| ==>
              r[i] == seats[i].(committed := 0, hasActed := seats[i].hasActed && seats[i].status != Active)
  {
    seq(|seats|, i requires 0 <= i < |seats| => seats[i].(committed := 0, hasActed := seats[i].hasActed && seats[i].status != Active))
  }

  function AdvanceStage(ts: Table, eval: Evaluator): Table
    requires |ts.deck| >= CardsLeft(ts.stage)
  {
    var reset := ts.(seats := NewRound(ts.seats), currentBet := 0, minRaise := ts.bigBlind, lastAggressor := -1);
    if ts.stage == River then RunShowdown(reset, eval)
    else if !IsStreet(ts.stage) then reset
    else
      var next := NextStreet(reset);
      if CanActCount(next.seats) < 2 then RunOut(next, eval)
      else next.(currentTurn := NextActor(next.seats, 0, next.button))
  }

  function LastLive(seats: seq<Seat>): (r: Option<nat>)
    ensures r.Some? ==> r.value < |seats| && seats[r.value].Live()
    ensures r.None? ==> forall i :: 0 <= i < |seats| ==> !seats[i].Live()
  {
    if seats == [] then None
    else if seats[0].Live() then Some(0)
    else match LastLive(seats[1..]) case None => None case Some(i) => Some(i + 1)
  }

  function EndUncontested(ts: Table, winner: nat): Table
    requires winner < |ts.seats|
  {
    var pot := Sum(Totals(ts.seats));
    var paid := ts.seats[winner := ts.seats[winner].(stack := ts.seats[winner].stack + pot)];
    ts.(seats := Cleared(paid), stage := HandOver, currentTurn := -1,
        payouts := Some(map[ts.seats[winner].index := pot]))
  }

  // ---------------------------------------------------------------------
  // A player's action
  // ---------------------------------------------------------------------

  // Everybody else still to act must answer the new bet.
  function Reopened(seats: seq<Seat>, raiser: int): (r: seq<Seat>)
    ensures |r| == |seats|
    ensures forall i :: 0 <= i < |seats| ==>
              r[i] == seats[i].(hasActed := seats[i].hasActed && (seats[i].index == raiser || seats[i].status != Active))
  {
    seq(|seats|, i requires 0 <= i < |seats| =>
      seats[i].(hasActed := seats[i].hasActed && (seats[i].index == raiser || seats[i].status != Active)))
  }

  function Acted(seats: seq<Seat>, p: nat): seq<Seat>
    requires p < |seats|
  {
    seats[p := seats[p].(hasActed := true)]
  }

  // A full bet or raise to `to`, which reopens the action.
  function Aggress(ts: Table, p: nat, to: int, minRaise: int): Table
    requires p < |ts.seats|
  {
    var s := ts.seats[p];
    var paid := ts.seats[p := s.Pay(to - s.committed)];
    ts.(seats := Acted(Reopened(paid, s.index), p), currentBet := to, minRaise := minRaise, lastAggressor := s.index)
  }

  function ApplyAction(ts: Table, p: nat, a: Action): Result<Table, Error>
    requires p < |ts.seats|
  {
    var s := ts.seats[p];
    var toCall := ts.currentBet - s.committed;
    match a
    case Fold => Ok(ts.(seats := ts.seats[p := s.(status := Folded, hasActed := true)]))
    case Check => if toCall > 0 then Err(IllegalAction) else Ok(ts.(seats := Acted(ts.seats, p)))
    case Call => Ok(ts.(seats := Acted(ts.seats[p := s.Pay(Min(toCall, s.stack))], p)))
    case Bet(to) =>
      var pay := to - s.committed;
      if ts.currentBet != 0 || pay <= 0 || pay > s.stack then Err(IllegalAction)
      else if to < ts.bigBlind && pay != s.stack then Err(IllegalAction)
      else Ok(Aggress(ts, p, to, to))
    case Raise(to) =>
      var pay := to - s.committed;
      var increment := to - ts.currentBet;
      if ts.currentBet == 0 || to <= ts.currentBet || pay > s.stack then Err(IllegalAction)
      else if increment < ts.minRaise && pay != s.stack then Err(IllegalAction)
      else if increment >= ts.minRaise then Ok(Aggress(ts, p, to, increment))
      else Ok(ts.(seats := Acted(ts.seats[p := s.Pay(pay)], p), currentBet := to))
    case Unknown => Err(IllegalAction)
  }

  // What happens once seat p has acted.
  function Resolve(ts: Table, p: nat, eval: Evaluator): Table
    requires p < |ts.seats| && |ts.deck| >= CardsLeft(ts.stage)
  {
    if NonFolded(ts.seats) == 1 && LastLive(ts.seats).Some? then EndUncontested(ts, LastLive(ts.seats).value)
    else
      var next := NextActor(ts.seats, ts.currentBet, ts.seats[p].index);
      if next < 0 then AdvanceStage(ts, eval) else ts.(currentTurn := next)
  }

  function Apply(ts: Table, user: nat, a: Action, eval: Evaluator): Result<Table, Error>
    requires |ts.deck| >= CardsLeft(ts.stage)
  {
    if ts.stage == HandOver then Err(IllegalAction)
    else match SeatOfUser(ts.seats, user)
      case None => Err(IllegalAction)
      case Some(p) =>
        if ts.currentTurn != ts.seats[p].index then Err(NotYourTurn)
        else match ApplyAction(ts, p, a)
          case Err(e) => Err(e)
          case Ok(after) => Ok(Resolve(after, p, eval))
  }

  // ---------------------------------------------------------------------
  // Dealing a hand
  // ---------------------------------------------------------------------

  function Fresh(seats: seq<Seat>): (r: seq<Seat>)
    ensures |r| == |seats|
    ensures forall i :: 0 <= i < |seats| ==>
              r[i] == seats[i].(committed := 0, total := 0, hole := [], hasActed := false,
                                status := if seats[i].stack > 0 then Active else SittingOut)
  {
    seq(|seats|, i requires 0 <= i < |seats| =>
      seats[i].(committed := 0, total := 0, hole := [], hasActed := false,
                status := if seats[i].stack > 0 then Active else SittingOut))
  }

  function GiveCard(seats: seq<Seat>, index: int, card: int): seq<Seat> {
    match SeatAt(seats, index)
    case None => seats
    case Some(p) => seats[p := seats[p].(hole := seats[p].hole + [card])]
  }

  // The k-th seat of a deal order that goes round and round.
  function Around(order: seq<int>, k: nat): int
    requires order != []
  {
    order[k % |order|]
  }

  // The first k hole cards, one at a time clockwise from position `start`.
  function DealHoles(seats: seq<Seat>, order: seq<int>, start: nat, deck: seq<int>, k: nat): seq<Seat>
    requires order != [] && k <= |deck|
  {
    if k == 0 then seats
    else GiveCard(DealHoles(seats, order, start, deck, k - 1), Around(order, start + (k - 1)), deck[k - 1])
  }

  function PostBlind(seats: seq<Seat>, index: int, amount: int): seq<Seat> {
    match SeatAt(seats, index)
    case None => seats
    case Some(p) => seats[p := seats[p].Pay(Min(amount, seats[p].stack))]
  }

  function PositionOf(order: seq<int>, index: int): (k: nat)
    ensures order != [] ==> k < |order|
  {
    if order == [] || order[0] == index || index !in order then 0 else 1 + PositionOf(order[1..], index)
  }

  // Positions of the small blind, the big blind and the first to act.
  function Positions(n: nat, button: nat): (r: (nat, nat, nat))
    requires n >= 2
    ensures r.0 < n && r.1 < n && r.2 < n
  {
    if n == 2 then (button % n, (button + 1) % n, button % n)
    else ((button + 1) % n, (button + 2) % n, (button + 3) % n)
  }

  // The positions in a deal order around the button.
  function Places(button: int, order: seq<int>): (nat, nat, nat)
    requires |order| >= MIN_SEATS
  {
    Positions(|order|, PositionOf(order, if button in order then button else order[0]))
  }

  // Cleared seats with their cards, dealt from position `start`.
  function DealtOut(ts: Table, order: seq<int>, start: nat, deck: seq<int>): Table
    requires |order| >= MIN_SEATS && 2 * |order| <= |deck|
  {
    ts.(seats := DealHoles(ts.seats, order, start, deck, 2 * |order|), deck := deck[2 * |order|..],
        board := [], pots := [], payouts := None, stage := Preflop)
  }

  // Both blinds, and what they leave to call.
  function BlindsPaid(ts: Table, small: int, big: int): Table {
    var seats := PostBlind(PostBlind(ts.seats, small, ts.smallBlind), big, ts.bigBlind);
    ts.(seats := seats, currentBet := MaxCommitted(seats), minRaise := ts.bigBlind, lastAggressor := big)
  }

  // Cards dealt and blinds posted to cleared seats.
  function Blinded(ts: Table, order: seq<int>, deck: seq<int>): Table
    requires |order| >= MIN_SEATS && 2 * |order| <= |deck|
  {
    var (sb, bb, _) := Places(ts.button, order);
    var placed := ts.(button := if ts.button in order then ts.button else order[0]);
    BlindsPaid(DealtOut(placed, order, sb, deck), order[sb], order[bb])
  }

  // The hand before anyone acts.
  function PostedTo(ts: Table, order: seq<int>, deck: seq<int>): Table
    requires |order| >= MIN_SEATS && 2 * |order| <= |deck|
  {
    var blinded := Blinded(ts, order, deck);
    blinded.(currentTurn := FirstToAct(blinded.seats, order[Places(ts.button, order).2]))
  }

  function Posted(ts: Table, deck: seq<int>): Table
    requires |InHand(Fresh(ts.seats))| >= MIN_SEATS && 2 * |InHand(Fresh(ts.seats))| <= |deck|
  {
    PostedTo(ts.(seats := Fresh(ts.seats)), InHand(Fresh(ts.seats)), deck)
  }

  function FirstToAct(seats: seq<Seat>, first: int): int {
    match SeatAt(seats, first)
    case None => -1
    case Some(p) => if seats[p].CanAct() then first else NextActor(seats, MaxCommitted(seats), first)
  }

  function DealHand(ts: Table, deck: seq<int>, eval: Evaluator): Result<Table, Error>
    requires |deck| >= 2 * |ts.seats| + 5
  {
    InHandSize(Fresh(ts.seats));
    if |InHand(Fresh(ts.seats))| < MIN_SEATS then Err(NotEnoughPlayers)
    else
      var posted := Posted(ts, deck);
      if posted.currentTurn < 0 || CanActCount(posted.seats) < 2 then Ok(RunOut(posted, eval))
      else Ok(posted)
  }

  lemma {:induction false} InHandUnsortedSize(seats: seq<Seat>)
    ensures |InHandUnsorted(seats)| <= |seats|
  {
    if seats != [] {
      InHandUnsortedSize(seats[..|seats| - 1]);
    }
  }

  lemma InHandSize(seats: seq<Seat>)
    ensures |InHand(seats)| <= |seats|
  {
    InHandUnsortedSize(seats);
    SortMembers(InHandUnsorted(seats));
  }
}
