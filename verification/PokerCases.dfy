// A hand that loses chips.
module PokerCases {
  // Dealt and played by accepted actions only: two deep stacks bet, two short
  // ones are all-in, and both deep stacks fold with nothing to call.
  import opened Wrappers
  import opened Sums
  import Sorting
  import Lobby
  import opened PokerTable
  import opened PokerPots
  import opened PokerShowdown
  import opened PokerRules
  import opened PokerLaws
  import opened PokerHands

  // ---------------------------------------------------------------------
  // What a table looks like, cards aside
  // ---------------------------------------------------------------------

  datatype Row = Row(stack: int, committed: int, total: int, status: Status, acted: bool)

  // Seat i of user i shows row i.
  ghost predicate Looks(seats: seq<Seat>, rows: seq<Row>) {
    && |seats| == |rows| == 4
    && forall i :: 0 <= i < 4 ==> Shows(seats[i], i, rows[i])
  }

  ghost predicate Shows(s: Seat, i: nat, r: Row) {
    && s.index == i && s.user == i && s.stack == r.stack && s.committed == r.committed && s.total == r.total
    && s.status == r.status && s.hasActed == r.acted
  }

  ghost predicate At(ts: Table, rows: seq<Row>, stage: Stage, bet: int, minRaise: int, turn: int) {
    && Looks(ts.seats, rows) && ts.stage == stage && ts.currentBet == bet && ts.minRaise == minRaise && ts.currentTurn == turn
    && ts.button == 0 && ts.smallBlind == 5 && ts.bigBlind == 10 && |ts.deck| >= CardsLeft(stage)
  }

  // ---------------------------------------------------------------------
  // One action among four
  // ---------------------------------------------------------------------

  ghost predicate Indexed(seats: seq<Seat>) {
    |seats| == 4 && forall i :: 0 <= i < 4 ==> seats[i].index == i && seats[i].user == i
  }

  // The next seat clockwise, when nobody in between can act.
  lemma NextIs(seats: seq<Seat>, bet: int, p: nat, q: nat)
    requires Indexed(seats) && p < 4 && q < 4 && q != p && seats[p].status != SittingOut && seats[q].Actionable(bet)
    requires forall i :: 0 <= i < 4 && (if q > p then p < i < q else i > p || i < q) ==> !seats[i].Actionable(bet)
    ensures NextActor(seats, bet, p) == q
  {
    assert seats[p].index == p && seats[q].index == q;
    assert p in InHandUnsorted(seats);
    var above, low := LowestActor(seats, bet, p), LowestActor(seats, bet, -1);
  }

  lemma NextIsNobody(seats: seq<Seat>, bet: int, p: nat)
    requires Indexed(seats) && p < 4 && forall i :: 0 <= i < 4 ==> !seats[i].Actionable(bet)
    ensures NextActor(seats, bet, p) == -1
  {
    var above, low := LowestActor(seats, bet, p), LowestActor(seats, bet, -1);
  }

  lemma TwoLive(seats: seq<Seat>, i: nat, j: nat)
    requires i < j < |seats| && seats[i].Live() && seats[j].Live()
    ensures NonFolded(seats) >= 2
  {
    SumAtLeastTwo(LiveFlags(seats), i, j);
  }

  lemma Plays(ts: Table, p: nat, a: Action, after: Table, eval: Evaluator)
    requires Indexed(ts.seats) && p < 4 && ts.currentTurn == p && ts.stage != HandOver && |ts.deck| >= CardsLeft(ts.stage)
    requires ApplyAction(ts, p, a) == Ok(after) && |after.seats| == 4 && after.deck == ts.deck && after.stage == ts.stage
    ensures Apply(ts, p, a, eval) == Ok(Resolve(after, p, eval))
  {
    assert ts.seats[p].user == p;
    assert SeatOfUser(ts.seats, p) == Some(p);
  }

  // The action passes on within the round.
  lemma PassesOn(ts: Table, p: nat, q: nat, eval: Evaluator)
    requires Indexed(ts.seats) && p < 4 && q < 4 && q != p && ts.seats[p].status != SittingOut && |ts.deck| >= CardsLeft(ts.stage)
    requires ts.seats[q].Actionable(ts.currentBet)
    requires forall i :: 0 <= i < 4 && (if q > p then p < i < q else i > p || i < q) ==> !ts.seats[i].Actionable(ts.currentBet)
    requires exists i, j :: 0 <= i < j < 4 && ts.seats[i].Live() && ts.seats[j].Live()
    ensures Resolve(ts, p, eval) == ts.(currentTurn := q)
  {
    NextIs(ts.seats, ts.currentBet, p, q);
    var i, j :| 0 <= i < j < 4 && ts.seats[i].Live() && ts.seats[j].Live();
    TwoLive(ts.seats, i, j);
  }

  // The round ends with two live seats and betting to come.
  lemma RoundEnds(ts: Table, p: nat, q: nat, eval: Evaluator)
    requires Indexed(ts.seats) && p < 4 && 0 < q < 4 && ts.stage == Preflop && |ts.deck| >= 5 && ts.button == 0
    requires forall i :: 0 <= i < 4 ==> !ts.seats[i].Actionable(ts.currentBet)
    requires ts.seats[0].status != SittingOut && ts.seats[q].CanAct() && exists j :: q < j < 4 && ts.seats[j].CanAct()
    requires forall i :: 0 <= i < q ==> !ts.seats[i].CanAct()
    ensures var after := Resolve(ts, p, eval);
            && after.seats == NewRound(ts.seats) && after.stage == Flop && after.currentBet == 0 && after.minRaise == ts.bigBlind
            && after.currentTurn == q && |after.deck| == |ts.deck| - 3 && after.button == 0
            && after.smallBlind == ts.smallBlind && after.bigBlind == ts.bigBlind
  {
    NextIsNobody(ts.seats, ts.currentBet, p);
    var j :| q < j < 4 && ts.seats[j].CanAct();
    TwoLive(ts.seats, q, j);
    var reset := NewRound(ts.seats);
    SumAtLeastTwo(CanActFlags(reset), q, j);
    NextIs(reset, 0, 0, q);
  }

  // ---------------------------------------------------------------------
  // The deal
  // ---------------------------------------------------------------------

  // The lobby's table: seats 0 and 3 bring 10 chips, seats 1 and 2 bring 1000.
  function Lobbied(): seq<Lobby.SeatInit> {
    [Lobby.SeatInit(0, 0, 10), Lobby.SeatInit(1, 1, 1000), Lobby.SeatInit(2, 2, 1000), Lobby.SeatInit(3, 3, 10)]
  }

  lemma {:induction false} RisesBy(s: seq<int>, j: nat)
    requires Rising(s) && j < |s|
    ensures s[j] >= s[0] + j
  {
    if j > 0 {
      RisesBy(s, j - 1);
      assert s[j - 1] < s[j];
    }
  }

  lemma PlaceOf(s: seq<int>, x: nat) returns (k: nat)
    requires Rising(s) && x in s && forall y :: y in s ==> y >= 0
    ensures k < |s| && s[k] == x && k <= x
  {
    k :| 0 <= k < |s| && s[k] == x;
    assert s[0] in s;
    RisesBy(s, k);
  }

  lemma CountsUp(s: seq<int>)
    requires Rising(s) && forall x :: x in s <==> 0 <= x < 4
    ensures s == [0, 1, 2, 3]
  {
    var a := PlaceOf(s, 0);
    var b := PlaceOf(s, 1);
    var c := PlaceOf(s, 2);
    var d := PlaceOf(s, 3);
    assert s[|s| - 1] in s && s[0] in s;
    RisesBy(s, |s| - 1);
  }

  lemma OrderOfFour(seats: seq<Seat>)
    requires Indexed(seats) && forall i :: 0 <= i < 4 ==> seats[i].status == Active
    ensures InHand(seats) == [0, 1, 2, 3]
  {
    InHandOrder(seats);
    Sorting.SortMembers(InHandUnsorted(seats));
    forall x
      ensures x in InHand(seats) <==> 0 <= x < 4
    {
      if 0 <= x < 4 {
        assert seats[x].index == x;
      }
    }
    CountsUp(InHand(seats));
  }

  function Opening(): seq<Row> {
    [Row(10, 0, 0, Active, false), Row(995, 5, 5, Active, false), Row(990, 10, 10, Active, false), Row(10, 0, 0, Active, false)]
  }

  lemma BlindAt(seats: seq<Seat>, i: nat, amount: int)
    requires Indexed(seats) && i < 4
    ensures PostBlind(seats, i, amount) == seats[i := seats[i].Pay(Min(amount, seats[i].stack))]
  {
    assert seats[i].index == i;
  }

  lemma FourCleared(cleared: seq<Seat>)
    requires cleared == Fresh(SeatsFrom(Lobbied()))
    ensures Indexed(cleared) && InHand(cleared) == [0, 1, 2, 3]
  {
    OrderOfFour(cleared);
  }

  lemma FourPosted(cleared: seq<Seat>, deck: seq<int>) returns (posted: seq<Seat>)
    requires |deck| == DECK_SIZE && cleared == Fresh(SeatsFrom(Lobbied())) && Indexed(cleared)
    ensures posted == PostBlind(PostBlind(DealHoles(cleared, [0, 1, 2, 3], 1, deck, 8), 1, 5), 2, 10)
    ensures Looks(posted, Opening()) && MaxCommitted(posted) == 10 && FirstToAct(posted, 3) == 3 && CanActCount(posted) >= 2
  {
    var dealt := DealHoles(cleared, [0, 1, 2, 3], 1, deck, 8);
    DealHolesKeeps(cleared, [0, 1, 2, 3], 1, deck, 8);
    BlindAt(dealt, 1, 5);
    var small := PostBlind(dealt, 1, 5);
    BlindAt(small, 2, 10);
    posted := PostBlind(small, 2, 10);
    OpeningLooks(posted, cleared, dealt);
    SumAtLeastTwo(CanActFlags(posted), 0, 3);
  }

  lemma {:induction false} PostedIs(table: Table, deck: seq<int>, posted: seq<Seat>)
    requires table == NewTable(Lobbied()) && table.button == 0 && |deck| == DECK_SIZE && InHand(Fresh(table.seats)) == [0, 1, 2, 3]
    requires posted == PostBlind(PostBlind(DealHoles(Fresh(table.seats), [0, 1, 2, 3], 1, deck, 8), 1, 5), 2, 10)
    ensures var ts := Posted(table, deck);
            && ts.seats == posted && ts.stage == Preflop && ts.currentBet == MaxCommitted(posted) && ts.minRaise == 10
            && ts.currentTurn == FirstToAct(posted, 3) && ts.button == 0 && ts.smallBlind == 5 && ts.bigBlind == 10
            && |ts.deck| == DECK_SIZE - 8
  {
    PlacesOfFour([0, 1, 2, 3]);
  }

  // After the blinds seat 3 is first to act.
  lemma DealtTable(deck: seq<int>, eval: Evaluator) returns (ts: Table)
    requires |deck| == DECK_SIZE
    ensures InitState(Lobbied(), deck, eval) == Ok(ts) && At(ts, Opening(), Preflop, 10, 10, 3)
  {
    var table := NewTable(Lobbied());
    LowestOfFour();
    FourCleared(Fresh(table.seats));
    var posted := FourPosted(Fresh(table.seats), deck);
    PostedIs(table, deck, posted);
    ts := Posted(table, deck);
  }

  lemma LowestOfFour()
    ensures LowestSeat(Lobbied()) == 0
  {
    var l := Lobbied();
    assert l[..3][..2] == l[..2] && l[..2][..1] == l[..1] && l[..1][..0] == [];
    assert LowestSeat(l[..1]) == 0;
    assert LowestSeat(l[..2]) == 0;
    assert LowestSeat(l[..3]) == 0;
  }

  lemma PlacesOfFour(order: seq<int>)
    requires order == [0, 1, 2, 3]
    ensures Places(0, order) == (1, 2, 3)
  {
  }

  lemma {:induction false} OpeningLooks(posted: seq<Seat>, cleared: seq<Seat>, dealt: seq<Seat>)
    requires cleared == Fresh(SeatsFrom(Lobbied())) && SameButCards(cleared, dealt)
    requires posted == dealt[1 := dealt[1].Pay(5)][2 := dealt[2].Pay(10)]
    ensures Looks(posted, Opening()) && MaxCommitted(posted) == 10
    ensures FirstToAct(posted, 3) == 3
  {
    assert posted[2].committed == 10;
    assert posted[3].index == 3;
  }

  // ---------------------------------------------------------------------
  // The six actions
  // ---------------------------------------------------------------------

  function Called(): seq<Row> {
    Opening()[3 := Row(0, 10, 10, AllIn, true)]
  }

  lemma SeatThreeCalls(ts: Table, eval: Evaluator) returns (ts': Table)
    requires At(ts, Opening(), Preflop, 10, 10, 3)
    ensures Accepted(ts, Move(3, Call), ts', eval) && At(ts', Called(), Preflop, 10, 10, 0)
  {
    var after := ApplyAction(ts, 3, Call).value;
    Plays(ts, 3, Call, after, eval);
    assert after.seats[1].Live() && after.seats[2].Live();
    PassesOn(after, 3, 0, eval);
    ts' := after.(currentTurn := 0);
  }

  function BothCalled(): seq<Row> {
    Called()[0 := Row(0, 10, 10, AllIn, true)]
  }

  lemma SeatZeroCalls(ts: Table, eval: Evaluator) returns (ts': Table)
    requires At(ts, Called(), Preflop, 10, 10, 0)
    ensures Accepted(ts, Move(0, Call), ts', eval) && At(ts', BothCalled(), Preflop, 10, 10, 1)
  {
    var after := ApplyAction(ts, 0, Call).value;
    Plays(ts, 0, Call, after, eval);
    assert after.seats[1].Live() && after.seats[2].Live();
    PassesOn(after, 0, 1, eval);
    ts' := after.(currentTurn := 1);
  }

  function RaisedTo(): seq<Row> {
    BothCalled()[1 := Row(900, 100, 100, Active, true)]
  }

  lemma SeatOneRaises(ts: Table, eval: Evaluator) returns (ts': Table)
    requires At(ts, BothCalled(), Preflop, 10, 10, 1)
    ensures Accepted(ts, Move(1, Raise(100)), ts', eval) && At(ts', RaisedTo(), Preflop, 100, 90, 2)
  {
    var after := ApplyAction(ts, 1, Raise(100)).value;
    Plays(ts, 1, Raise(100), after, eval);
    assert after.seats[1].Live() && after.seats[2].Live();
    PassesOn(after, 1, 2, eval);
    ts' := after.(currentTurn := 2);
  }

  function OnTheFlop(): seq<Row> {
    [Row(0, 0, 10, AllIn, true), Row(900, 0, 100, Active, false), Row(900, 0, 100, Active, false), Row(0, 0, 10, AllIn, true)]
  }

  lemma SeatTwoCalls(ts: Table, eval: Evaluator) returns (ts': Table)
    requires At(ts, RaisedTo(), Preflop, 100, 90, 2)
    ensures Accepted(ts, Move(2, Call), ts', eval) && At(ts', OnTheFlop(), Flop, 0, 10, 1)
  {
    var after := ApplyAction(ts, 2, Call).value;
    Plays(ts, 2, Call, after, eval);
    assert after.seats[2].CanAct();
    RoundEnds(after, 2, 1, eval);
    ts' := Resolve(after, 2, eval);
  }

  function OneFolded(): seq<Row> {
    OnTheFlop()[1 := Row(900, 0, 100, Folded, true)]
  }

  lemma SeatOneFolds(ts: Table, eval: Evaluator) returns (ts': Table)
    requires At(ts, OnTheFlop(), Flop, 0, 10, 1)
    ensures Accepted(ts, Move(1, Fold), ts', eval) && At(ts', OneFolded(), Flop, 0, 10, 2)
  {
    var after := ApplyAction(ts, 1, Fold).value;
    Plays(ts, 1, Fold, after, eval);
    assert after.seats[0].Live() && after.seats[3].Live();
    PassesOn(after, 1, 2, eval);
    ts' := after.(currentTurn := 2);
  }

  // The last fold ends the betting with two folded seats above both live ones.
  lemma SeatTwoFolds(ts: Table, eval: Evaluator) returns (ts': Table)
    requires At(ts, OneFolded(), Flop, 0, 10, 2)
    ensures Accepted(ts, Move(2, Fold), ts', eval)
    ensures ShowdownSeats(ts, 2, Fold).Some? && TwoDeadAbove(ApplyAction(ts, 2, Fold).value.seats)
  {
    var after := ApplyAction(ts, 2, Fold).value;
    Plays(ts, 2, Fold, after, eval);
    ts' := Resolve(after, 2, eval);
    BothFolded(ts, after);
    NextIsNobody(after.seats, 0, 2);
    DeadAreAbove(after.seats);
  }

  function BothOut(): seq<Row> {
    OneFolded()[2 := Row(900, 0, 100, Folded, true)]
  }

  lemma BothFolded(ts: Table, after: Table)
    requires At(ts, OneFolded(), Flop, 0, 10, 2) && ApplyAction(ts, 2, Fold) == Ok(after)
    ensures Looks(after.seats, BothOut()) && after.currentBet == 0
    ensures NonFolded(after.seats) >= 2 && CanActCount(NewRound(after.seats)) == 0
  {
    assert after.seats[0].Live() && after.seats[3].Live();
    TwoLive(after.seats, 0, 3);
    SumBounds(CanActFlags(NewRound(after.seats)), 0, 0);
  }

  lemma DeadAreAbove(seats: seq<Seat>)
    requires Looks(seats, BothOut())
    ensures TwoDeadAbove(seats)
  {
    assert Shows(seats[1], 1, BothOut()[1]) && Shows(seats[2], 2, BothOut()[2]);
    assert DeadAbove(seats, 1) && DeadAbove(seats, 2);
  }

  function TheMoves(): seq<Move> {
    [Move(3, Call), Move(0, Call), Move(1, Raise(100)), Move(2, Call), Move(1, Fold), Move(2, Fold)]
  }

  lemma LongerRun(states: seq<Table>, moves: seq<Move>, move: Move, after: Table, eval: Evaluator) returns (longer: seq<Table>)
    requires IsRun(states, moves, eval) && Accepted(states[|moves|], move, after, eval)
    ensures IsRun(longer, moves + [move], eval) && longer[0] == states[0] && longer[|moves| + 1] == after
    ensures longer[|moves|] == states[|moves|]
  {
    longer := states + [after];
    var more := moves + [move];
    forall k | 0 <= k < |more|
      ensures Accepted(longer[k], more[k], longer[k + 1], eval)
    {
      assert k < |moves| ==> Accepted(states[k], moves[k], states[k + 1], eval);
    }
  }

  lemma ShortStacksIn(t0: Table, eval: Evaluator) returns (states: seq<Table>)
    requires At(t0, Opening(), Preflop, 10, 10, 3)
    ensures IsRun(states, TheMoves()[..2], eval) && states[0] == t0 && At(states[2], BothCalled(), Preflop, 10, 10, 1)
  {
    var t1 := SeatThreeCalls(t0, eval);
    states := LongerRun([t0], [], Move(3, Call), t1, eval);
    var t2 := SeatZeroCalls(t1, eval);
    states := LongerRun(states, [Move(3, Call)], Move(0, Call), t2, eval);
    assert TheMoves()[..2] == [Move(3, Call)] + [Move(0, Call)];
  }

  lemma DeepStacksIn(before: seq<Table>, eval: Evaluator) returns (states: seq<Table>)
    requires IsRun(before, TheMoves()[..2], eval) && At(before[2], BothCalled(), Preflop, 10, 10, 1)
    ensures IsRun(states, TheMoves()[..4], eval) && states[0] == before[0] && At(states[4], OnTheFlop(), Flop, 0, 10, 1)
  {
    states := RaiseIn(before, eval);
    var t4 := SeatTwoCalls(states[3], eval);
    states := LongerRun(states, TheMoves()[..3], Move(2, Call), t4, eval);
    assert TheMoves()[..4] == TheMoves()[..3] + [Move(2, Call)];
  }

  lemma RaiseIn(before: seq<Table>, eval: Evaluator) returns (states: seq<Table>)
    requires IsRun(before, TheMoves()[..2], eval) && At(before[2], BothCalled(), Preflop, 10, 10, 1)
    ensures IsRun(states, TheMoves()[..3], eval) && states[0] == before[0] && At(states[3], RaisedTo(), Preflop, 100, 90, 2)
  {
    var t3 := SeatOneRaises(before[2], eval);
    states := LongerRun(before, TheMoves()[..2], Move(1, Raise(100)), t3, eval);
    assert TheMoves()[..3] == TheMoves()[..2] + [Move(1, Raise(100))];
  }

  lemma DeepStacksOut(before: seq<Table>, eval: Evaluator) returns (states: seq<Table>)
    requires IsRun(before, TheMoves()[..4], eval) && At(before[4], OnTheFlop(), Flop, 0, 10, 1)
    ensures IsRun(states, TheMoves(), eval) && states[0] == before[0] && At(states[5], OneFolded(), Flop, 0, 10, 2)
    ensures ShowdownSeats(states[5], 2, Fold).Some? && TwoDeadAbove(ApplyAction(states[5], 2, Fold).value.seats)
  {
    var t5 := SeatOneFolds(before[4], eval);
    states := LongerRun(before, TheMoves()[..4], Move(1, Fold), t5, eval);
    assert TheMoves()[..5] == TheMoves()[..4] + [Move(1, Fold)];
    var t6 := SeatTwoFolds(t5, eval);
    states := LongerRun(states, TheMoves()[..5], Move(2, Fold), t6, eval);
    assert TheMoves() == TheMoves()[..5] + [Move(2, Fold)];
  }

  lemma LastFoldLoses(ts: Table, ts': Table, eval: Evaluator)
    requires Playing(ts) && At(ts, OneFolded(), Flop, 0, 10, 2) && Accepted(ts, Move(2, Fold), ts', eval)
    requires ShowdownSeats(ts, 2, Fold).Some? && TwoDeadAbove(ApplyAction(ts, 2, Fold).value.seats)
    ensures Chips(ts'.seats) < Chips(ts.seats) && !Playing(ts')
  {
    TurnIsMine(ts, 2);
    LostIff(ts, 2, Fold);
    StepKeeps(ts, 2, Fold, eval, ts');
  }

  lemma LastState(states: seq<Table>, eval: Evaluator)
    requires IsRun(states, TheMoves(), eval) && Playing(states[0]) && At(states[5], OneFolded(), Flop, 0, 10, 2)
    requires ShowdownSeats(states[5], 2, Fold).Some? && TwoDeadAbove(ApplyAction(states[5], 2, Fold).value.seats)
    ensures Over(states[6]) && Chips(states[6].seats) < Chips(states[0].seats)
  {
    HandEnds(states, TheMoves(), eval);
    assert Accepted(states[5], TheMoves()[5], states[6], eval);
    LastFoldLoses(states[5], states[6], eval);
  }

  lemma PlayedOut(t0: Table, eval: Evaluator) returns (states: seq<Table>)
    requires At(t0, Opening(), Preflop, 10, 10, 3) && Playing(t0)
    ensures IsRun(states, TheMoves(), eval) && states[0] == t0 && Over(states[6]) && Chips(states[6].seats) < Chips(t0.seats)
  {
    states := ShortStacksIn(t0, eval);
    states := DeepStacksIn(states, eval);
    states := DeepStacksOut(states, eval);
    LastState(states, eval);
  }

  lemma StartsPlaying(seats: seq<Seat>, r: Result<Table, Error>, ts: Table)
    requires DealtFrom(seats, r) && r == Ok(ts) && ts.stage == Preflop
    ensures Playing(ts)
  {
  }

  lemma LobbiedOk()
    ensures Lobby.DistinctSeats(Lobbied()) && |Lobbied()| == 4 && forall i :: 0 <= i < 4 ==> Lobbied()[i].stack >= 0
  {
  }

  lemma DealtIsPlaying(deck: seq<int>, eval: Evaluator, ts: Table)
    requires |deck| == DECK_SIZE && InitState(Lobbied(), deck, eval) == Ok(ts) && ts.stage == Preflop
    ensures Playing(ts)
  {
    LobbiedOk();
    FirstHandKeeps(Lobbied(), deck, eval);
    StartsPlaying(SeatsFrom(Lobbied()), InitState(Lobbied(), deck, eval), ts);
  }

  // Conservation is not a law of this game: whatever the cards, from a new
  // table six accepted actions lead to a finished hand with fewer chips than
  // the lobby handed out.
  lemma ChipsCanVanish(deck: seq<int>, eval: Evaluator) returns (states: seq<Table>)
    requires |deck| == DECK_SIZE
    ensures IsRun(states, TheMoves(), eval) && InitState(Lobbied(), deck, eval) == Ok(states[0])
    ensures Playing(states[0]) && Over(states[6]) && Chips(states[6].seats) < Chips(states[0].seats)
  {
    var t0 := DealtTable(deck, eval);
    DealtIsPlaying(deck, eval, t0);
    states := PlayedOut(t0, eval);
  }
}
