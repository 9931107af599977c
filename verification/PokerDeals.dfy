// Who holds which cards.
module PokerDeals {
  // Two rounds of hole cards from the small blind on, and then the board from
  // the top of what is left; in every state of a hand the cards are those of
  // the shuffled deck, each in one place.
  import opened Wrappers
  import Arithmetic
  import opened Counting
  import Lobby
  import opened PokerTable
  import opened PokerPots
  import Sorting
  import opened PokerShowdown
  import opened PokerRules
  import opened PokerLaws
  import opened PokerHands

  // ---------------------------------------------------------------------
  // Hole cards
  // ---------------------------------------------------------------------

  // The cards of the a-th seat of the circle once k cards were dealt.
  function CardsSoFar(deck: seq<int>, n: nat, a: nat, k: nat): seq<int>
    requires a < n && k <= 2 * n <= |deck|
  {
    if k <= a then [] else if k <= n + a then [deck[a]] else [deck[a], deck[n + a]]
  }

  lemma SamePlace(start: nat, x: nat, a: nat, n: nat)
    requires start < n && a < n && x < 2 * n
    ensures (start + x) % n == (start + a) % n <==> x == a || x == n + a
  {
    Folded(start + x, n);
    Folded(start + a, n);
  }

  // A remainder below 3n, by subtraction.
  lemma Folded(y: nat, n: nat)
    requires n >= 1 && y < 3 * n
    ensures y % n == if y < n then y else if y < 2 * n then y - n else y - 2 * n
  {
    if y < n {
      Arithmetic.RemainderIs(y, n, 0, y);
    } else if y < 2 * n {
      Arithmetic.RemainderIs(y, n, 1, y - n);
    } else {
      Arithmetic.RemainderIs(y, n, 2, y - 2 * n);
    }
  }

  lemma CardsDistinct(seats: seq<Seat>, after: seq<Seat>)
    requires DistinctSeats(seats) && SameButCards(seats, after)
    ensures DistinctSeats(after)
  {
    forall i, j | 0 <= i < j < |after|
      ensures after[i].index != after[j].index
    {
      assert seats[i].index != seats[j].index;
    }
  }

  // One card goes to one seat of the circle.
  lemma OneCard(seats: seq<Seat>, order: seq<int>, start: nat, a: nat, p: nat, x: nat, card: int)
    requires DistinctSeats(seats) && Rising(order) && start < |order| && a < |order| && x < 2 * |order| && p < |seats|
    requires seats[p].index == Around(order, start + a)
    ensures |GiveCard(seats, Around(order, start + x), card)| == |seats|
    ensures GiveCard(seats, Around(order, start + x), card)[p] ==
            if x == a || x == |order| + a then seats[p].(hole := seats[p].hole + [card]) else seats[p]
  {
    SeatAtSelf(seats, p);
    SamePlace(start, x, a, |order|);
  }

  lemma HoleStep(before: seq<Seat>, order: seq<int>, start: nat, deck: seq<int>, k: nat, a: nat, p: nat)
    requires DistinctSeats(before) && Rising(order) && start < |order| && a < |order| && 0 < k <= 2 * |order| <= |deck| && p < |before|
    requires before[p].index == Around(order, start + a) && before[p].hole == CardsSoFar(deck, |order|, a, k - 1)
    ensures var after := GiveCard(before, Around(order, start + (k - 1)), deck[k - 1]);
            |after| == |before| && after[p].hole == CardsSoFar(deck, |order|, a, k)
  {
    OneCard(before, order, start, a, p, k - 1, deck[k - 1]);
    CardsStep(deck, |order|, a, k);
  }

  // The a-th seat after `start` gets the a-th card of each round.
  lemma {:induction false} HoleAfter(seats: seq<Seat>, order: seq<int>, start: nat, deck: seq<int>, k: nat, a: nat, p: nat)
    requires DistinctSeats(seats) && Rising(order) && start < |order| && a < |order| && k <= 2 * |order| <= |deck| && p < |seats|
    requires seats[p].index == Around(order, start + a) && seats[p].hole == []
    ensures |DealHoles(seats, order, start, deck, k)| == |seats|
    ensures DealHoles(seats, order, start, deck, k)[p].hole == CardsSoFar(deck, |order|, a, k)
  {
    if k > 0 {
      HoleAfter(seats, order, start, deck, k - 1, a, p);
      StillInPlace(seats, order, start, deck, k - 1, p);
      HoleStep(DealHoles(seats, order, start, deck, k - 1), order, start, deck, k, a, p);
    }
  }

  lemma CardsStep(deck: seq<int>, n: nat, a: nat, k: nat)
    requires a < n && 0 < k <= 2 * n <= |deck|
    ensures CardsSoFar(deck, n, a, k) ==
            if k - 1 == a || k - 1 == n + a then CardsSoFar(deck, n, a, k - 1) + [deck[k - 1]] else CardsSoFar(deck, n, a, k - 1)
  {
  }

  lemma {:induction false} StillInPlace(seats: seq<Seat>, order: seq<int>, start: nat, deck: seq<int>, k: nat, p: nat)
    requires DistinctSeats(seats) && order != [] && k <= |deck| && p < |seats|
    ensures var dealt := DealHoles(seats, order, start, deck, k);
            DistinctSeats(dealt) && |dealt| == |seats| && dealt[p].index == seats[p].index
  {
    DealHolesKeeps(seats, order, start, deck, k);
    CardsDistinct(seats, DealHoles(seats, order, start, deck, k));
  }

  // Whoever is not in the circle gets nothing.
  lemma {:induction false} NoCard(seats: seq<Seat>, order: seq<int>, start: nat, deck: seq<int>, k: nat, p: nat)
    requires order != [] && k <= |deck| && p < |seats| && seats[p].index !in order
    ensures |DealHoles(seats, order, start, deck, k)| == |seats|
    ensures DealHoles(seats, order, start, deck, k)[p].hole == seats[p].hole
  {
    if k > 0 {
      NoCard(seats, order, start, deck, k - 1, p);
      DealHolesKeeps(seats, order, start, deck, k - 1);
    }
  }

  // ---------------------------------------------------------------------
  // The cards of a hand
  // ---------------------------------------------------------------------

  // Two hole cards for every seat of the circle, from the seat at `start` on,
  // and none for anybody else.
  ghost predicate TwoEach(seats: seq<Seat>, order: seq<int>, start: nat, deck: seq<int>) {
    && start < |order| && 2 * |order| <= |deck|
    && (forall a: nat, p: nat :: a < |order| && p < |seats| && seats[p].index == Around(order, start + a) ==>
          seats[p].hole == [deck[a], deck[|order| + a]])
    && forall p :: 0 <= p < |seats| && seats[p].index !in order ==> seats[p].hole == []
  }

  lemma {:induction false} DealtTwoEach(seats: seq<Seat>, order: seq<int>, start: nat, deck: seq<int>)
    requires DistinctSeats(seats) && Rising(order) && start < |order| && 2 * |order| <= |deck|
    requires forall p :: 0 <= p < |seats| ==> seats[p].hole == []
    ensures TwoEach(DealHoles(seats, order, start, deck, 2 * |order|), order, start, deck)
  {
    var n := |order|;
    var dealt := DealHoles(seats, order, start, deck, 2 * n);
    DealHolesKeeps(seats, order, start, deck, 2 * n);
    forall a: nat, p: nat | a < n && p < |dealt| && dealt[p].index == Around(order, start + a)
      ensures dealt[p].hole == [deck[a], deck[n + a]]
    {
      HoleAfter(seats, order, start, deck, 2 * n, a, p);
    }
    forall p | 0 <= p < |dealt| && dealt[p].index !in order
      ensures dealt[p].hole == []
    {
      NoCard(seats, order, start, deck, 2 * n, p);
    }
  }

  // The same seats with the same cards.
  ghost predicate SameHoles(a: seq<Seat>, b: seq<Seat>) {
    |a| == |b| && forall p :: 0 <= p < |a| ==> b[p].hole == a[p].hole && b[p].index == a[p].index
  }

  // The next cards of the deck lie on the board, the rest is still in it.
  ghost predicate SameCards(a: Table, b: Table) {
    SameHoles(a.seats, b.seats) && b.board + b.deck == a.board + a.deck && |b.board| >= |a.board|
  }

  lemma BlindsKeepCards(seats: seq<Seat>, a: int, small: int, b: int, big: int)
    ensures SameHoles(seats, PostBlind(PostBlind(seats, a, small), b, big))
  {
  }

  lemma SameTwoEach(a: seq<Seat>, b: seq<Seat>, order: seq<int>, start: nat, deck: seq<int>)
    requires SameHoles(a, b) && TwoEach(a, order, start, deck)
    ensures TwoEach(b, order, start, deck)
  {
  }

  // A hand with these cards, in whatever state.
  ghost predicate DealtFromDeck(ts: Table, order: seq<int>, start: nat, deck: seq<int>) {
    TwoEach(ts.seats, order, start, deck) && ts.board + ts.deck == deck[2 * |order|..]
  }

  lemma PostedCards(ts: Table, deck: seq<int>)
    requires Ready(ts) && MIN_SEATS <= |InHand(Fresh(ts.seats))| && 2 * |InHand(Fresh(ts.seats))| <= |deck|
    ensures var order := InHand(Fresh(ts.seats)); var posted := Posted(ts, deck);
            DealtFromDeck(posted, order, Places(ts.button, order).0, deck) && posted.board == []
  {
    var cleared, order := Fresh(ts.seats), InHand(Fresh(ts.seats));
    FreshIsFresh(ts);
    InHandOrder(cleared);
    var (sb, bb, _) := Places(ts.button, order);
    DealtTwoEach(cleared, order, sb, deck);
    var dealt := DealHoles(cleared, order, sb, deck, 2 * |order|);
    BlindsKeepCards(dealt, order[sb], ts.smallBlind, order[bb], ts.bigBlind);
    SameTwoEach(dealt, Posted(ts, deck).seats, order, sb, deck);
  }

  // ---------------------------------------------------------------------
  // Paying out touches no card
  // ---------------------------------------------------------------------

  lemma {:induction false} PayFirstHoles(paid: Paid, winners: seq<int>, share: int, odd: int, k: nat)
    requires k <= |winners|
    ensures SameHoles(paid.seats, PayFirst(paid, winners, share, odd, k).seats)
  {
    if k > 0 {
      PayFirstHoles(paid, winners, share, odd, k - 1);
    }
  }

  lemma AwardPotHoles(paid: Paid, pot: Pot, values: map<int, int>)
    ensures SameHoles(paid.seats, AwardPot(paid, pot, values).seats)
  {
    var winners := Winners(pot.eligible, values);
    if winners != [] {
      Sorting.SortMembers(winners);
      var n := |Sorting.Sort(winners)|;
      PayFirstHoles(paid, Sorting.Sort(winners), pot.amount / n, pot.amount % n, n);
    }
  }

  lemma {:induction false} AwardHoles(paid: Paid, pots: seq<Pot>, values: map<int, int>)
    ensures SameHoles(paid.seats, Award(paid, pots, values).seats)
  {
    if pots != [] {
      var n := |pots| - 1;
      AwardHoles(paid, pots[..n], values);
      AwardPotHoles(Award(paid, pots[..n], values), pots[n], values);
    }
  }

  lemma ShowdownCards(ts: Table, eval: Evaluator)
    ensures SameHoles(ts.seats, RunShowdown(ts, eval).seats)
    ensures RunShowdown(ts, eval).board == ts.board && RunShowdown(ts, eval).deck == ts.deck
  {
    var returned := ReturnUncalled(ts.seats);
    assert SameHoles(ts.seats, returned);
    AwardHoles(Paid(returned, map[]), PotsAtShowdown(ts.seats), Values(returned, ts.board, eval));
  }

  // ---------------------------------------------------------------------
  // The board
  // ---------------------------------------------------------------------

  // The table with its board completed.
  function Boarded(ts: Table): Table
    requires |ts.deck| >= CardsLeft(ts.stage)
  {
    ts.(board := ts.board + ts.deck[..CardsLeft(ts.stage)], deck := ts.deck[CardsLeft(ts.stage)..])
  }

  // Playing a hand out deals the missing cards from the top and shows down.
  lemma {:induction false} RunOutShows(ts: Table, eval: Evaluator)
    requires |ts.deck| >= CardsLeft(ts.stage)
    ensures RunOut(ts, eval) == RunShowdown(Boarded(ts), eval)
    decreases StreetsLeft(ts.stage)
  {
    if IsStreet(ts.stage) {
      var next := NextStreet(ts);
      RunOutShows(next, eval);
      NextStreetBoards(ts);
      SameShowdown(Boarded(next), Boarded(ts), eval);
    } else {
      assert Boarded(ts) == ts;
    }
  }

  lemma NextStreetBoards(ts: Table)
    requires IsStreet(ts.stage) && |ts.deck| >= CardsLeft(ts.stage)
    ensures |NextStreet(ts).deck| >= CardsLeft(NextStreet(ts).stage)
    ensures Boarded(NextStreet(ts)) == Boarded(ts).(stage := NextStreet(ts).stage)
  {
    var n := CardsLeft(ts.stage) - CardsLeft(Following(ts.stage));
    assert ts.deck[..CardsLeft(ts.stage)] == ts.deck[..n] + ts.deck[n..][..CardsLeft(Following(ts.stage))];
    assert ts.deck[n..][CardsLeft(Following(ts.stage))..] == ts.deck[CardsLeft(ts.stage)..];
  }

  lemma SameShowdown(a: Table, b: Table, eval: Evaluator)
    requires a == b.(stage := a.stage)
    ensures RunShowdown(a, eval) == RunShowdown(b, eval)
  {
  }

  lemma {:induction false} RunOutCards(ts: Table, eval: Evaluator)
    requires |ts.deck| >= CardsLeft(ts.stage)
    ensures SameCards(ts, RunOut(ts, eval)) && |RunOut(ts, eval).board| == |ts.board| + CardsLeft(ts.stage)
  {
    RunOutShows(ts, eval);
    ShowdownCards(Boarded(ts), eval);
    FromTheTop(ts.board, ts.deck, CardsLeft(ts.stage));
  }

  lemma FromTheTop(board: seq<int>, deck: seq<int>, n: nat)
    requires n <= |deck|
    ensures (board + deck[..n]) + deck[n..] == board + deck
  {
    assert deck[..n] + deck[n..] == deck;
  }

  lemma NextStreetCards(ts: Table)
    requires IsStreet(ts.stage) && |ts.deck| >= CardsLeft(ts.stage)
    ensures SameCards(ts, NextStreet(ts))
  {
    FromTheTop(ts.board, ts.deck, CardsLeft(ts.stage) - CardsLeft(Following(ts.stage)));
  }

  lemma AdvanceCards(ts: Table, eval: Evaluator)
    requires |ts.deck| >= CardsLeft(ts.stage)
    ensures SameCards(ts, AdvanceStage(ts, eval))
  {
    var reset := ts.(seats := NewRound(ts.seats), currentBet := 0, minRaise := ts.bigBlind, lastAggressor := -1);
    assert SameCards(ts, reset);
    if ts.stage == River {
      ShowdownCards(reset, eval);
    } else if IsStreet(ts.stage) {
      NextStreetCards(reset);
      RunOutCards(NextStreet(reset), eval);
    }
  }

  lemma ResolveCards(ts: Table, p: nat, eval: Evaluator)
    requires p < |ts.seats| && |ts.deck| >= CardsLeft(ts.stage)
    ensures SameCards(ts, Resolve(ts, p, eval))
  {
    AdvanceCards(ts, eval);
  }

  lemma ActionCards(ts: Table, p: nat, a: Action, after: Table)
    requires p < |ts.seats| && ApplyAction(ts, p, a) == Ok(after)
    ensures SameCards(ts, after) && after.deck == ts.deck && after.stage == ts.stage && |after.seats| == |ts.seats|
  {
  }

  // No action moves a hole card, and the board grows from the top of the deck.
  lemma StepCards(ts: Table, move: Move, ts': Table, eval: Evaluator)
    requires Accepted(ts, move, ts', eval)
    ensures SameCards(ts, ts')
  {
    var p := SeatOfUser(ts.seats, move.user).value;
    var after := ApplyAction(ts, p, move.action).value;
    ActionCards(ts, p, move.action, after);
    ResolveCards(after, p, eval);
  }

  // ---------------------------------------------------------------------
  // Every state of a hand
  // ---------------------------------------------------------------------

  lemma SameDealt(a: Table, b: Table, order: seq<int>, start: nat, deck: seq<int>)
    requires SameCards(a, b) && DealtFromDeck(a, order, start, deck)
    ensures DealtFromDeck(b, order, start, deck)
  {
    SameTwoEach(a.seats, b.seats, order, start, deck);
  }

  // After a deal, in progress or played out at once.
  lemma DealCards(ts: Table, deck: seq<int>, eval: Evaluator, dealt: Table)
    requires Ready(ts) && |deck| == DECK_SIZE && DealHand(ts, deck, eval) == Ok(dealt)
    ensures var order := InHand(Fresh(ts.seats));
            && |order| >= MIN_SEATS && DealtFromDeck(dealt, order, Places(ts.button, order).0, deck)
            && (if dealt.stage == Preflop then dealt.board == [] else |dealt.board| == 5)
  {
    InHandSize(Fresh(ts.seats));
    var posted := Posted(ts, deck);
    PostedCards(ts, deck);
    RunOutCards(posted, eval);
    RunOutShows(posted, eval);
    var order := InHand(Fresh(ts.seats));
    if dealt != posted {
      SameDealt(posted, dealt, order, Places(ts.button, order).0, deck);
    }
  }

  lemma {:induction false} RunCards(states: seq<Table>, moves: seq<Move>, eval: Evaluator, k: nat)
    requires IsRun(states, moves, eval) && k <= |moves|
    ensures SameCards(states[0], states[k])
  {
    if k > 0 {
      RunCards(states, moves, eval, k - 1);
      assert Accepted(states[k - 1], moves[k - 1], states[k], eval);
      StepCards(states[k - 1], moves[k - 1], states[k], eval);
    }
  }

  // ---------------------------------------------------------------------
  // No card twice, none lost
  // ---------------------------------------------------------------------

  // How often a card is among the hole cards.
  function InHoles(seats: seq<Seat>, c: int): int {
    if seats == [] then 0 else InHoles(seats[..|seats| - 1], c) + Times(seats[|seats| - 1].hole, c)
  }

  lemma {:induction false} HolesUpdate(seats: seq<Seat>, p: nat, s: Seat, c: int)
    requires p < |seats|
    ensures InHoles(seats[p := s], c) == InHoles(seats, c) - Times(seats[p].hole, c) + Times(s.hole, c)
  {
    var n := |seats| - 1;
    if p == n {
      assert seats[p := s][..n] == seats[..n];
    } else {
      HolesUpdate(seats[..n], p, s, c);
      assert seats[p := s][..n] == seats[..n][p := s];
    }
  }

  lemma {:induction false} SameHolesSame(a: seq<Seat>, b: seq<Seat>, c: int)
    requires SameHoles(a, b)
    ensures InHoles(a, c) == InHoles(b, c)
  {
    if a != [] {
      SameHolesSame(a[..|a| - 1], b[..|b| - 1], c);
    }
  }

  lemma {:induction false} CardGiven(seats: seq<Seat>, index: int, card: int, c: int)
    requires Seated(seats, index)
    ensures InHoles(GiveCard(seats, index, card), c) == InHoles(seats, c) + Times([card], c)
  {
    var p := SeatAt(seats, index).value;
    HolesUpdate(seats, p, seats[p].(hole := seats[p].hole + [card]), c);
    TimesConcat(seats[p].hole, [card], c);
  }

  lemma {:induction false} HolesFromDeck(seats: seq<Seat>, order: seq<int>, start: nat, deck: seq<int>, k: nat, c: int)
    requires order != [] && k <= |deck| && forall x :: x in order ==> Seated(seats, x)
    ensures InHoles(DealHoles(seats, order, start, deck, k), c) == InHoles(seats, c) + Times(deck[..k], c)
  {
    if k > 0 {
      HolesFromDeck(seats, order, start, deck, k - 1, c);
      var before, x := DealHoles(seats, order, start, deck, k - 1), Around(order, start + (k - 1));
      SeatedAround(seats, order, start, deck, k - 1, x);
      CardGiven(before, x, deck[k - 1], c);
      TimesConcat(deck[..k - 1], [deck[k - 1]], c);
      assert deck[..k] == deck[..k - 1] + [deck[k - 1]];
    }
  }

  lemma {:induction false} SeatedAround(seats: seq<Seat>, order: seq<int>, start: nat, deck: seq<int>, k: nat, x: int)
    requires order != [] && k <= |deck| && Seated(seats, x)
    ensures Seated(DealHoles(seats, order, start, deck, k), x)
  {
    DealHolesKeeps(seats, order, start, deck, k);
    SeatedStill(seats, DealHoles(seats, order, start, deck, k), x);
  }

  lemma SeatedStill(seats: seq<Seat>, after: seq<Seat>, index: int)
    requires SameButCards(seats, after) && Seated(seats, index)
    ensures Seated(after, index)
  {
    var i :| 0 <= i < |seats| && seats[i].index == index;
    assert after[i].index == index;
  }

  lemma {:induction false} NoHoles(seats: seq<Seat>, c: int)
    requires forall p :: 0 <= p < |seats| ==> seats[p].hole == []
    ensures InHoles(seats, c) == 0
  {
    if seats != [] {
      NoHoles(seats[..|seats| - 1], c);
    }
  }

  // How often a card is anywhere on the table.
  function OnTable(ts: Table, c: int): int {
    InHoles(ts.seats, c) + Times(ts.board, c) + Times(ts.deck, c)
  }

  lemma SameOnTable(a: Table, b: Table, c: int)
    requires SameCards(a, b)
    ensures OnTable(a, c) == OnTable(b, c)
  {
    SameHolesSame(a.seats, b.seats, c);
    TimesConcat(a.board, a.deck, c);
    TimesConcat(b.board, b.deck, c);
  }

  // The deal, before the blinds.
  lemma {:induction false} DealtOnce(cleared: seq<Seat>, sb: nat, deck: seq<int>, c: int)
    requires DistinctSeats(cleared) && sb < |InHand(cleared)| && 2 * |InHand(cleared)| <= |deck|
    requires forall p :: 0 <= p < |cleared| ==> cleared[p].hole == []
    ensures var order := InHand(cleared); var n := 2 * |order|;
            InHoles(DealHoles(cleared, order, sb, deck, n), c) + Times(deck[n..], c) == Times(deck, c)
  {
    var order := InHand(cleared);
    var n := 2 * |order|;
    InHandOrder(cleared);
    NoHoles(cleared, c);
    forall x | x in order
      ensures Seated(cleared, x)
    {
      var k :| 0 <= k < |order| && order[k] == x;
      assert InDeal(cleared, order[k]);
    }
    HolesFromDeck(cleared, order, sb, deck, n, c);
    TimesConcat(deck[..n], deck[n..], c);
    assert deck == deck[..n] + deck[n..];
  }

  lemma {:induction false} PostedOnTable(ts: Table, deck: seq<int>, c: int)
    requires Ready(ts) && MIN_SEATS <= |InHand(Fresh(ts.seats))| && 2 * |InHand(Fresh(ts.seats))| <= |deck|
    ensures OnTable(Posted(ts, deck), c) == Times(deck, c)
  {
    var cleared, order := Fresh(ts.seats), InHand(Fresh(ts.seats));
    var (sb, bb, _) := Places(ts.button, order);
    FreshIsFresh(ts);
    DealtOnce(cleared, sb, deck, c);
    var dealt := DealHoles(cleared, order, sb, deck, 2 * |order|);
    BlindsKeepCards(dealt, order[sb], ts.smallBlind, order[bb], ts.bigBlind);
    SameHolesSame(dealt, Posted(ts, deck).seats, c);
  }

  lemma {:induction false} DealOnTable(ts: Table, deck: seq<int>, eval: Evaluator, dealt: Table, c: int)
    requires Ready(ts) && |deck| == DECK_SIZE && DealHand(ts, deck, eval) == Ok(dealt)
    ensures OnTable(dealt, c) == Times(deck, c)
  {
    InHandSize(Fresh(ts.seats));
    PostedOnTable(ts, deck, c);
    RunOutCards(Posted(ts, deck), eval);
    SameOnTable(Posted(ts, deck), dealt, c);
  }

  // In every state of a hand dealt from a deck: everybody in the deal holds
  // the two cards that went to his place from the small blind on, nobody else
  // holds any, the board is the next cards, and no card is lost or doubled.
  lemma {:induction false} CardsOfTheHand(ts: Table, deck: seq<int>, eval: Evaluator, states: seq<Table>, moves: seq<Move>, k: nat)
    requires Ready(ts) && |deck| == DECK_SIZE && IsRun(states, moves, eval) && DealHand(ts, deck, eval) == Ok(states[0]) && k <= |moves|
    ensures var order := InHand(Fresh(ts.seats));
            |order| >= MIN_SEATS && DealtFromDeck(states[k], order, Places(ts.button, order).0, deck)
    ensures forall c :: OnTable(states[k], c) == Times(deck, c)
  {
    DealCards(ts, deck, eval, states[0]);
    RunCards(states, moves, eval, k);
    forall c
      ensures OnTable(states[k], c) == Times(deck, c)
    {
      DealOnTable(ts, deck, eval, states[0], c);
      SameOnTable(states[0], states[k], c);
    }
    var order := InHand(Fresh(ts.seats));
    SameDealt(states[0], states[k], order, Places(ts.button, order).0, deck);
  }

  // The same from a lobby and from a finished hand.
  lemma {:induction false} FirstHandCards(inits: seq<Lobby.SeatInit>, deck: seq<int>, eval: Evaluator, states: seq<Table>, moves: seq<Move>, k: nat)
    requires Lobby.DistinctSeats(inits) && MIN_SEATS <= |inits| <= MAX_SEATS && |deck| == DECK_SIZE
    requires forall i :: 0 <= i < |inits| ==> inits[i].stack >= 0
    requires IsRun(states, moves, eval) && InitState(inits, deck, eval) == Ok(states[0]) && k <= |moves|
    ensures var order := InHand(Fresh(SeatsFrom(inits)));
            |order| >= MIN_SEATS && DealtFromDeck(states[k], order, Places(LowestSeat(inits), order).0, deck)
    ensures forall c :: OnTable(states[k], c) == Times(deck, c)
  {
    NewTableReady(inits);
    CardsOfTheHand(NewTable(inits), deck, eval, states, moves, k);
  }

  lemma {:induction false} NextHandCards(ts: Table, deck: seq<int>, eval: Evaluator, states: seq<Table>, moves: seq<Move>, k: nat)
    requires Over(ts) && |ts.seats| <= MAX_SEATS && |deck| == DECK_SIZE
    requires IsRun(states, moves, eval) && NextHand(ts, deck, eval) == Ok(states[0]) && k <= |moves|
    ensures var order := InHand(Fresh(ts.seats));
            |order| >= MIN_SEATS && DealtFromDeck(states[k], order, Places(NextTable(ts).button, order).0, deck)
    ensures forall c :: OnTable(states[k], c) == Times(deck, c)
  {
    CardsOfTheHand(NextTable(ts), deck, eval, states, moves, k);
  }
}
