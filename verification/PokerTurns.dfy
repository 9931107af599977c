// Who acts when, and what an action costs.
module PokerTurns {
  // The turn and the button go clockwise, the blinds come from the right seats,
  // and every action moves the chips it names.
  import opened Wrappers
  import Arithmetic
  import Lobby
  import Sorting
  import opened Sums
  import opened PokerTable
  import opened PokerPots
  import opened PokerShowdown
  import opened PokerRules
  import opened PokerLaws
  import opened PokerHands
  import opened PokerFolds
  import opened PokerShares
  import opened PokerDeals

  // ---------------------------------------------------------------------
  // Clockwise
  // ---------------------------------------------------------------------

  // Seat y comes first, going clockwise from the place after x: from y to x
  // lies the whole circle.
  ghost predicate IsNext(circle: seq<int>, x: int, y: int) {
    y in circle && forall z :: z in circle ==> Within(y, z, x)
  }

  lemma NextIsNext(circle: seq<int>, k: nat)
    requires Rising(circle) && k < |circle|
    ensures IsNext(circle, circle[k], circle[Next(k, |circle|)])
  {
    forall z | z in circle
      ensures Within(circle[Next(k, |circle|)], z, circle[k])
    {
      var j :| 0 <= j < |circle| && circle[j] == z;
      CircleWithin(circle, k, j);
    }
  }

  // Within a round the turn goes to the next seat clockwise that has to act;
  // in a new one to the first such seat after the button.
  ghost predicate TurnIsNext(ts: Table, from: int) {
    && ActorAt(ts.seats, ts.currentBet, ts.currentTurn)
    && forall i :: 0 <= i < |ts.seats| && ts.seats[i].Actionable(ts.currentBet) ==> Within(ts.currentTurn, ts.seats[i].index, from)
  }

  lemma ActorIsNext(seats: seq<Seat>, bet: int, from: int)
    requires DistinctSeats(seats) && SomeActor(seats, bet)
    requires exists p :: 0 <= p < |seats| && seats[p].index == from && seats[p].status != SittingOut
    ensures ActorAt(seats, bet, NextActor(seats, bet, from))
    ensures forall i :: 0 <= i < |seats| && seats[i].Actionable(bet) ==> Within(NextActor(seats, bet, from), seats[i].index, from)
  {
    var p :| 0 <= p < |seats| && seats[p].index == from && seats[p].status != SittingOut;
    NextActorFound(seats, bet, from);
    forall i | 0 <= i < |seats| && seats[i].Actionable(bet)
      ensures Within(NextActor(seats, bet, from), seats[i].index, from)
    {
      NextIsFirst(seats, bet, p, i);
    }
  }

  // ---------------------------------------------------------------------
  // The turn
  // ---------------------------------------------------------------------

  // Nobody drops out of the deal, so the button stays with one of its seats.
  lemma ActedInDeal(ts: Table, after: Table, p: nat, index: int)
    requires p < |ts.seats| && ActedAt(ts, after, p) && InDeal(ts.seats, index) && ts.seats[p].status != SittingOut
    ensures InDeal(after.seats, index)
  {
    var i :| 0 <= i < |ts.seats| && ts.seats[i].index == index && ts.seats[i].status != SittingOut;
    assert after.seats[i].index == index && after.seats[i].status != SittingOut;
  }

  lemma RoundInDeal(seats: seq<Seat>, index: int)
    requires InDeal(seats, index)
    ensures InDeal(NewRound(seats), index)
  {
    var i :| 0 <= i < |seats| && seats[i].index == index && seats[i].status != SittingOut;
    assert NewRound(seats)[i].index == index && NewRound(seats)[i].status != SittingOut;
  }

  // Three cards on the flop, then one at a time.
  function BoardSize(stage: Stage): nat {
    match stage
    case Preflop => 0
    case Flop => 3
    case Turn => 4
    case _ => 5
  }

  // A new street: its cards lie on the board, all bets are in, and everybody
  // who can act has to.
  ghost predicate StreetOpens(ts: Table, ts': Table) {
    && ts'.stage == Following(ts.stage) && |ts'.board| == BoardSize(ts'.stage) && ts'.currentBet == 0 && ts'.minRaise == ts.bigBlind
    && forall i :: 0 <= i < |ts'.seats| ==> ts'.seats[i].committed == 0 && (ts'.seats[i].CanAct() ==> ts'.seats[i].Actionable(0))
  }

  lemma RoundPasses(after: Table, p: nat, next: int)
    requires DistinctSeats(after.seats) && p < |after.seats| && after.seats[p].status != SittingOut
    requires next == NextActor(after.seats, after.currentBet, after.seats[p].index) >= 0
    ensures TurnIsNext(after.(currentTurn := next), after.seats[p].index)
  {
    NextActorFound(after.seats, after.currentBet, after.seats[p].index);
    ActorIsNext(after.seats, after.currentBet, after.seats[p].index);
  }

  lemma StreetIs(after: Table, eval: Evaluator)
    requires StageOk(after) && !GoesToShowdown(after)
    ensures var ts' := AdvanceStage(after, eval);
            && ts'.seats == NewRound(after.seats) && ts'.stage == Following(after.stage) && |ts'.board| == BoardSize(ts'.stage) && ts'.currentBet == 0 && ts'.minRaise == after.bigBlind
            && ts'.button == after.button && ts'.currentTurn == NextActor(NewRound(after.seats), 0, after.button)
  {
  }

  lemma StreetPasses(after: Table, eval: Evaluator)
    requires StageOk(after) && DistinctSeats(after.seats) && InDeal(after.seats, after.button) && !GoesToShowdown(after)
    ensures var ts' := AdvanceStage(after, eval);
            StreetOpens(after, ts') && TurnIsNext(ts', after.button) && ts'.button == after.button && InDeal(ts'.seats, after.button)
  {
    StreetIs(after, eval);
    RoundInDeal(after.seats, after.button);
    NewRoundActor(after.seats);
    RoundDistinct(after.seats);
    ActorIsNext(NewRound(after.seats), 0, after.button);
  }

  lemma RoundDistinct(seats: seq<Seat>)
    requires DistinctSeats(seats)
    ensures DistinctSeats(NewRound(seats))
  {
    forall i, j | 0 <= i < j < |seats|
      ensures NewRound(seats)[i].index != NewRound(seats)[j].index
    {
      assert seats[i].index != seats[j].index;
    }
  }

  // After an action the next seat clockwise that has to act is to act; when
  // there is none, a new street opens and the first such seat after the
  // button is.
  ghost predicate PassesOn(ts: Table, after: Table, ts': Table) {
    && ts'.button == ts.button && InDeal(ts'.seats, ts.button)
    && if SomeActor(after.seats, after.currentBet) then ts' == after.(currentTurn := ts'.currentTurn) && TurnIsNext(ts', ts.currentTurn)
       else StreetOpens(ts, ts') && TurnIsNext(ts', ts.button)
  }

  lemma TurnPasses(ts: Table, p: nat, a: Action, eval: Evaluator, ts': Table)
    requires Playing(ts) && InDeal(ts.seats, ts.button) && p < |ts.seats|
    requires Apply(ts, ts.seats[p].user, a, eval) == Ok(ts') && Playing(ts')
    ensures ts.seats[p].index == ts.currentTurn && ApplyAction(ts, p, a).Ok? && PassesOn(ts, ApplyAction(ts, p, a).value, ts')
  {
    TurnIsMine(ts, p);
    var after := ApplyAction(ts, p, a).value;
    ActionActs(ts, p, a, after);
    ActedKeeps(ts, after, p);
    ActedLive(ts, after, p);
    ActedInDeal(ts, after, p, ts.button);
    Passed(ts, after, p, eval, ts');
  }

  lemma Passed(ts: Table, after: Table, p: nat, eval: Evaluator, ts': Table)
    requires InProgress(after) && p < |after.seats| == |ts.seats| && ActedAt(ts, after, p) && NonFolded(after.seats) >= 1 && ts.seats[p].index == ts.currentTurn
    requires InDeal(after.seats, ts.button) && after.seats[p].status != SittingOut
    requires ts' == Resolve(after, p, eval) && Playing(ts')
    ensures PassesOn(ts, after, ts')
  {
    var next := NextActor(after.seats, after.currentBet, after.seats[p].index);
    ResolvesTo(after, p, eval, next);
    NextActorFound(after.seats, after.currentBet, after.seats[p].index);
    if next >= 0 {
      RoundPasses(after, p, next);
    } else {
      AdvanceKeeps(after, eval);
      StreetPasses(after, eval);
    }
  }

  // ---------------------------------------------------------------------
  // What an action costs
  // ---------------------------------------------------------------------

  // A player may bet or raise to what he has, from the big blind or the last
  // raise up; with less only when it is all he has.
  ghost predicate MayDo(ts: Table, s: Seat, a: Action) {
    var all := s.committed + s.stack;
    match a
    case Fold | Call => true
    case Check => s.committed == ts.currentBet
    case Bet(to) => ts.currentBet == 0 && 0 < to <= all && (to >= ts.bigBlind || to == all)
    case Raise(to) => 0 < ts.currentBet < to <= all && (to - ts.currentBet >= ts.minRaise || to == all)
    case Unknown => false
  }

  // The chips an action moves.
  function Cost(ts: Table, s: Seat, a: Action): int {
    match a
    case Call => Min(ts.currentBet - s.committed, s.stack)
    case Bet(to) => to - s.committed
    case Raise(to) => to - s.committed
    case _ => 0
  }

  // A bet or a full raise sets the least raise that may follow; an all-in for
  // less leaves it.
  function NextMinRaise(ts: Table, a: Action): int {
    match a
    case Bet(to) => to
    case Raise(to) => if to - ts.currentBet >= ts.minRaise then to - ts.currentBet else ts.minRaise
    case _ => ts.minRaise
  }

  ghost predicate Done(ts: Table, after: Table, p: nat, a: Action)
    requires p < |ts.seats|
  {
    var s, cost := ts.seats[p], Cost(ts, ts.seats[p], a);
    && |after.seats| == |ts.seats| && after.minRaise == NextMinRaise(ts, a)
    && after.seats[p].stack == s.stack - cost && after.seats[p].committed == s.committed + cost && after.seats[p].total == s.total + cost
    && after.seats[p].status == (if a == Fold then Folded else if s.stack == cost then AllIn else Active)
    && after.currentBet == (if a.Bet? || a.Raise? then s.committed + cost else ts.currentBet)
    && !after.seats[p].Actionable(after.currentBet)
    && (a.Bet? || a.Raise? ==> forall i :: 0 <= i < |ts.seats| && i != p && ts.seats[i].CanAct() ==> after.seats[i].Actionable(after.currentBet))
    && (!a.Bet? && !a.Raise? ==> forall i :: 0 <= i < |ts.seats| && i != p ==> after.seats[i] == ts.seats[i])
  }

  lemma ActionDoes(ts: Table, p: nat, a: Action)
    requires InProgress(ts) && p < |ts.seats| && ts.seats[p].Actionable(ts.currentBet)
    ensures ApplyAction(ts, p, a).Ok? <==> MayDo(ts, ts.seats[p], a)
    ensures ApplyAction(ts, p, a).Ok? ==> Done(ts, ApplyAction(ts, p, a).value, p, a)
  {
    assert SeatOk(ts.seats[p], ts.currentBet);
    if ApplyAction(ts, p, a).Ok? {
      var after := ApplyAction(ts, p, a).value;
      forall i | 0 <= i < |ts.seats| && i != p && ts.seats[i].CanAct() && (a.Bet? || a.Raise?)
        ensures after.seats[i].Actionable(after.currentBet)
      {
        assert SeatOk(ts.seats[i], ts.currentBet) && ts.seats[i].index != ts.seats[p].index;
      }
    }
  }

  // ---------------------------------------------------------------------
  // The end of a hand
  // ---------------------------------------------------------------------

  // Seat w alone is left and takes everything that was put in.
  ghost predicate TakesAll(before: seq<Seat>, ts': Table, w: nat) {
    && w < |before| == |ts'.seats| && before[w].Live() && ts'.payouts == Some(map[before[w].index := Sum(Totals(before))])
    && forall i :: 0 <= i < |before| ==> ts'.seats[i].stack == before[i].stack + if i == w then Sum(Totals(before)) else 0
  }

  lemma LastOneTakesAll(ts: Table, p: nat, a: Action, eval: Evaluator, ts': Table) returns (w: nat)
    requires Playing(ts) && p < |ts.seats| && Apply(ts, ts.seats[p].user, a, eval) == Ok(ts')
    requires ApplyAction(ts, p, a).Ok? && NonFolded(ApplyAction(ts, p, a).value.seats) == 1
    ensures TakesAll(ApplyAction(ts, p, a).value.seats, ts', w) && ts'.stage == HandOver
  {
    TurnIsMine(ts, p);
    var after := ApplyAction(ts, p, a).value;
    SomebodyLive(after.seats);
    w := LastLive(after.seats).value;
  }

  // The cards decide: the board is complete, and every stack grows by its
  // shares of the pots.
  lemma CardsDecide(ts: Table, p: nat, a: Action, eval: Evaluator, ts': Table, values: map<int, int>)
    requires Playing(ts) && p < |ts.seats| && Apply(ts, ts.seats[p].user, a, eval) == Ok(ts') && ShowdownSeats(ts, p, a).Some?
    requires Strengths(values, ShowdownSeats(ts, p, a).value, ts'.board, eval)
    ensures |ts'.board| == 5 && PaidShares(ReturnUncalled(ShowdownSeats(ts, p, a).value), ts', values)
  {
    TurnIsMine(ts, p);
    var after := ApplyAction(ts, p, a).value;
    ActionActs(ts, p, a, after);
    ActedKeeps(ts, after, p);
    ActedLive(ts, after, p);
    ShownDown(after, eval, values, ts');
  }

  function Reset(ts: Table): Table {
    ts.(seats := NewRound(ts.seats), currentBet := 0, minRaise := ts.bigBlind, lastAggressor := -1)
  }

  lemma AdvanceShows(after: Table, eval: Evaluator)
    requires StageOk(after) && GoesToShowdown(after)
    ensures AdvanceStage(after, eval) == RunShowdown(Boarded(Reset(after)), eval)
  {
    var reset := Reset(after);
    if after.stage == River {
      assert Boarded(reset) == reset;
    } else {
      RunOutShows(NextStreet(reset), eval);
      NextStreetBoards(reset);
      SameShowdown(Boarded(NextStreet(reset)), Boarded(reset), eval);
    }
  }

  lemma ShownDown(after: Table, eval: Evaluator, values: map<int, int>, ts': Table)
    requires InProgress(after) && NonFolded(after.seats) >= 1 && GoesToShowdown(after) && ts' == AdvanceStage(after, eval)
    requires Strengths(values, NewRound(after.seats), ts'.board, eval)
    ensures |ts'.board| == 5 && PaidShares(ReturnUncalled(NewRound(after.seats)), ts', values)
  {
    AdvanceShows(after, eval);
    RoundAccounted(after);
    ShowdownShares(Boarded(Reset(after)), eval, values);
  }

  lemma RoundAccounted(after: Table)
    requires InProgress(after) && NonFolded(after.seats) >= 1
    ensures Accounted(NewRound(after.seats))
  {
    NewRoundKeeps(after, Reset(after));
    NewRoundChips(after.seats);
    InProgressAccounted(Reset(after));
  }

  // ---------------------------------------------------------------------
  // The button and the blinds
  // ---------------------------------------------------------------------

  // Who posts what: with two players the button posts the small blind and acts
  // first, with more the next seat posts it and the third one acts first. A
  // short stack posts what it has; the turn goes to the first seat that can act.
  ghost predicate BlindsFrom(ts: Table, posted: Table, circle: seq<int>, small: int, big: int, first: int) {
    && circle != [] && posted.button == (if ts.button in circle then ts.button else circle[0])
    && (if |circle| == 2 then small == posted.button else IsNext(circle, posted.button, small))
    && small in circle && IsNext(circle, small, big) && IsNext(circle, big, first) && small != big
    && |posted.seats| == |ts.seats|
    && (forall i :: 0 <= i < |ts.seats| ==> PaidIn(ts.seats[i], posted.seats[i],
          if ts.seats[i].index == small then ts.smallBlind else if ts.seats[i].index == big then ts.bigBlind else 0))
  }

  // A seat's own chips, less what it posts.
  ghost predicate PaidIn(s: Seat, s': Seat, blind: int) {
    s'.index == s.index && s'.user == s.user && s'.committed == s'.total == Min(blind, s.stack) && s'.stack == s.stack - Min(blind, s.stack)
  }

  lemma BlindTaken(seats: seq<Seat>, index: int, amount: int, i: nat)
    requires DistinctSeats(seats) && i < |seats|
    ensures |PostBlind(seats, index, amount)| == |seats|
    ensures PostBlind(seats, index, amount)[i] == if seats[i].index == index then seats[i].Pay(Min(amount, seats[i].stack)) else seats[i]
  {
    SeatAtSelf(seats, i);
  }

  lemma BlindDistinct(seats: seq<Seat>, index: int, amount: int)
    requires DistinctSeats(seats)
    ensures DistinctSeats(PostBlind(seats, index, amount))
  {
    var posted := PostBlind(seats, index, amount);
    forall i, j | 0 <= i < j < |posted|
      ensures posted[i].index != posted[j].index
    {
      assert seats[i].index != seats[j].index;
    }
  }

  lemma BothTaken(seats: seq<Seat>, a: int, small: int, b: int, big: int, i: nat)
    requires DistinctSeats(seats) && a != b && i < |seats| && small >= 0 && big >= 0
    requires seats[i].committed == seats[i].total == 0 && seats[i].stack >= 0
    ensures var posted := PostBlind(PostBlind(seats, a, small), b, big);
            |posted| == |seats| && PaidIn(seats[i], posted[i], if seats[i].index == a then small else if seats[i].index == b then big else 0)
  {
    BlindTaken(seats, a, small, i);
    BlindDistinct(seats, a, small);
    BlindTaken(PostBlind(seats, a, small), b, big, i);
  }

  // The places around the button.
  lemma CirclePlaces(circle: seq<int>, at: nat)
    requires Rising(circle) && |circle| >= 2 && at < |circle|
    ensures var (sb, bb, first) := Positions(|circle|, at);
            && (if |circle| == 2 then sb == at else IsNext(circle, circle[at], circle[sb]))
            && IsNext(circle, circle[sb], circle[bb]) && IsNext(circle, circle[bb], circle[first]) && circle[sb] != circle[bb]
  {
    var n := |circle|;
    var (sb, bb, first) := Positions(n, at);
    PlacesFollow(n, at);
    DistinctPositions(n, at);
    Arithmetic.WrapsOnce(at, n);
    Arithmetic.WrapsOnce(at + 1, n);
    NextIsNext(circle, at);
    NextIsNext(circle, sb);
    NextIsNext(circle, bb);
  }

  lemma {:induction false} PositionFound(order: seq<int>, index: int)
    requires index in order
    ensures order[PositionOf(order, index)] == index
  {
    if order[0] != index {
      PositionFound(order[1..], index);
    }
  }

  lemma ButtonAndBlinds(ts: Table, deck: seq<int>) returns (small: int, big: int, first: int)
    requires Ready(ts) && MIN_SEATS <= |InHand(Fresh(ts.seats))| && 2 * |InHand(Fresh(ts.seats))| <= |deck|
    ensures var posted := Posted(ts, deck); var circle := InHand(Fresh(ts.seats));
            && Rising(circle) && BlindsFrom(ts, posted, circle, small, big, first)
            && posted.currentBet == MaxCommitted(posted.seats) && posted.currentTurn == FirstToAct(posted.seats, first)
  {
    var cleared, circle := Fresh(ts.seats), InHand(Fresh(ts.seats));
    FreshIsFresh(ts);
    InHandOrder(cleared);
    var button := if ts.button in circle then ts.button else circle[0];
    var at := PositionOf(circle, button);
    PositionFound(circle, button);
    var (sb, bb, f) := Positions(|circle|, at);
    CirclePlaces(circle, at);
    small, big, first := circle[sb], circle[bb], circle[f];
    var dealt := DealHoles(cleared, circle, sb, deck, 2 * |circle|);
    DealHolesKeeps(cleared, circle, sb, deck, 2 * |circle|);
    BlindsOf(ts, dealt, small, big);
  }

  lemma BlindsOf(ts: Table, dealt: seq<Seat>, small: int, big: int)
    requires Ready(ts) && SameButCards(Fresh(ts.seats), dealt) && small != big
    ensures var posted := PostBlind(PostBlind(dealt, small, ts.smallBlind), big, ts.bigBlind);
            |posted| == |ts.seats| && forall i :: 0 <= i < |ts.seats| ==> PaidIn(ts.seats[i], posted[i],
              if ts.seats[i].index == small then ts.smallBlind else if ts.seats[i].index == big then ts.bigBlind else 0)
  {
    FreshIsFresh(ts);
    CardsDistinct(Fresh(ts.seats), dealt);
    var posted := PostBlind(PostBlind(dealt, small, ts.smallBlind), big, ts.bigBlind);
    forall i | 0 <= i < |ts.seats|
      ensures |posted| == |ts.seats|
      ensures PaidIn(ts.seats[i], posted[i], if ts.seats[i].index == small then ts.smallBlind else if ts.seats[i].index == big then ts.bigBlind else 0)
    {
      BothTaken(dealt, small, ts.smallBlind, big, ts.bigBlind, i);
    }
  }

  // Going clockwise from the first place on, nobody who can act comes before
  // the one to act.
  ghost predicate OpensAt(ts: Table, first: int) {
    && ActorAt(ts.seats, ts.currentBet, ts.currentTurn)
    && forall i :: 0 <= i < |ts.seats| && ts.seats[i].Actionable(ts.currentBet) ==> Within(first, ts.currentTurn, ts.seats[i].index)
  }

  lemma FirstOpens(ts: Table, first: int)
    requires FreshSeats(ts.seats) && ts.currentBet == MaxCommitted(ts.seats) && ts.currentTurn == FirstToAct(ts.seats, first) >= 0
    requires InDeal(ts.seats, first)
    ensures OpensAt(ts, first)
  {
    var f :| 0 <= f < |ts.seats| && ts.seats[f].index == first && ts.seats[f].status != SittingOut;
    SeatAtSelf(ts.seats, f);
    FirstIsActor(ts.seats, first);
    if !ts.seats[f].CanAct() {
      forall i | 0 <= i < |ts.seats| && ts.seats[i].Actionable(ts.currentBet)
        ensures Within(first, ts.currentTurn, ts.seats[i].index)
      {
        NextIsFirst(ts.seats, ts.currentBet, f, i);
      }
    }
  }

  // Everybody with chips is dealt in, and nobody else.
  lemma CircleIsChips(ts: Table, x: int)
    ensures x in InHand(Fresh(ts.seats)) <==> exists i :: 0 <= i < |ts.seats| && ts.seats[i].index == x && ts.seats[i].stack > 0
  {
    Sorting.SortMembers(InHandUnsorted(Fresh(ts.seats)));
    if i :| 0 <= i < |ts.seats| && ts.seats[i].index == x && ts.seats[i].stack > 0 {
      assert Fresh(ts.seats)[i].index == x && Fresh(ts.seats)[i].status != SittingOut;
    }
  }

  // A hand in progress right after the deal.
  lemma DealtTurns(ts: Table, deck: seq<int>, eval: Evaluator, dealt: Table) returns (small: int, big: int, first: int)
    requires Ready(ts) && |deck| == DECK_SIZE && DealHand(ts, deck, eval) == Ok(dealt) && Playing(dealt)
    ensures BlindsFrom(ts, dealt, InHand(Fresh(ts.seats)), small, big, first)
    ensures OpensAt(dealt, first) && InDeal(dealt.seats, dealt.button)
  {
    InHandSize(Fresh(ts.seats));
    small, big, first := ButtonAndBlinds(ts, deck);
    var posted := Posted(ts, deck);
    var f := PostedStarts(ts, deck);
    NotPlayedOut(ts, deck, eval, dealt);
    StillIn(ts, deck, dealt.button);
    StillIn(ts, deck, first);
    FirstOpens(posted, first);
  }

  lemma NotPlayedOut(ts: Table, deck: seq<int>, eval: Evaluator, dealt: Table)
    requires |deck| == DECK_SIZE && MIN_SEATS <= |InHand(Fresh(ts.seats))| <= |ts.seats| <= MAX_SEATS
    requires DealHand(ts, deck, eval) == Ok(dealt) && IsStreet(dealt.stage)
    ensures dealt == Posted(ts, deck) && dealt.currentTurn >= 0
  {
    PlayedOutIsOver(Posted(ts, deck), eval);
  }

  lemma {:induction false} PlayedOutIsOver(ts: Table, eval: Evaluator)
    requires |ts.deck| >= CardsLeft(ts.stage)
    ensures RunOut(ts, eval).stage == HandOver
    decreases StreetsLeft(ts.stage)
  {
    if IsStreet(ts.stage) {
      PlayedOutIsOver(NextStreet(ts), eval);
    }
  }

  lemma StillIn(ts: Table, deck: seq<int>, index: int)
    requires Ready(ts) && MIN_SEATS <= |InHand(Fresh(ts.seats))| && 2 * |InHand(Fresh(ts.seats))| <= |deck| && index in InHand(Fresh(ts.seats))
    ensures InDeal(Posted(ts, deck).seats, index)
  {
    var cleared, circle := Fresh(ts.seats), InHand(Fresh(ts.seats));
    FreshIsFresh(ts);
    InHandOrder(cleared);
    var k :| 0 <= k < |circle| && circle[k] == index;
    var (sb, bb, _) := Places(ts.button, circle);
    var dealt := DealHoles(cleared, circle, sb, deck, 2 * |circle|);
    DealHolesKeeps(cleared, circle, sb, deck, 2 * |circle|);
    StillInDeal(cleared, dealt, index);
    CardsDistinct(cleared, dealt);
    PostedInDeal(dealt, circle[sb], ts.smallBlind, circle[bb], ts.bigBlind, index);
  }

  lemma PostedInDeal(seats: seq<Seat>, a: int, small: int, b: int, big: int, index: int)
    requires DistinctSeats(seats) && InDeal(seats, index)
    ensures InDeal(PostBlind(PostBlind(seats, a, small), b, big), index)
  {
    var i :| 0 <= i < |seats| && seats[i].index == index && seats[i].status != SittingOut;
    BlindTaken(seats, a, small, i);
    BlindDistinct(seats, a, small);
    BlindTaken(PostBlind(seats, a, small), b, big, i);
    assert PostBlind(PostBlind(seats, a, small), b, big)[i].index == index;
  }

  // The seats with chips, in ascending order.
  ghost predicate IsCircle(seats: seq<Seat>, circle: seq<int>) {
    Rising(circle) && forall x :: x in circle <==> HasChips(seats, x)
  }

  ghost predicate HasChips(seats: seq<Seat>, x: int) {
    exists i :: 0 <= i < |seats| && seats[i].index == x && seats[i].stack > 0
  }

  lemma DealtCircle(ts: Table)
    requires DistinctSeats(ts.seats)
    ensures IsCircle(ts.seats, InHand(Fresh(ts.seats)))
  {
    forall i, j | 0 <= i < j < |ts.seats|
      ensures Fresh(ts.seats)[i].index != Fresh(ts.seats)[j].index
    {
      assert ts.seats[i].index != ts.seats[j].index;
    }
    InHandOrder(Fresh(ts.seats));
    forall x
      ensures x in InHand(Fresh(ts.seats)) <==> HasChips(ts.seats, x)
    {
      CircleIsChips(ts, x);
    }
  }

  // A new table seats everybody with the chips of the lobby, and the button is
  // with the lowest seat that has some.
  ghost predicate Brings(init: Lobby.SeatInit, s: Seat, blind: int) {
    s.index == init.seat && s.user == init.user && s.committed == s.total == Min(blind, init.stack) && s.stack + s.total == init.stack
  }

  lemma FirstHandStarts(inits: seq<Lobby.SeatInit>, deck: seq<int>, eval: Evaluator, dealt: Table) returns (circle: seq<int>, small: int, big: int, first: int)
    requires Lobby.DistinctSeats(inits) && |inits| <= MAX_SEATS && |deck| == DECK_SIZE
    requires forall i :: 0 <= i < |inits| ==> inits[i].stack >= 0
    requires InitState(inits, deck, eval) == Ok(dealt) && Playing(dealt)
    ensures IsCircle(SeatsFrom(inits), circle) && BlindsFrom(NewTable(inits), dealt, circle, small, big, first) && OpensAt(dealt, first)
    ensures dealt.button == circle[0]
    ensures forall i :: 0 <= i < |inits| ==> Brings(inits[i], dealt.seats[i], if inits[i].seat == small then 5 else if inits[i].seat == big then 10 else 0)
  {
    var ts := NewTable(inits);
    NewTableReady(inits);
    circle := InHand(Fresh(ts.seats));
    DealtCircle(ts);
    small, big, first := DealtTurns(ts, deck, eval, dealt);
    ButtonOpens(inits, circle, dealt.button);
    forall i | 0 <= i < |inits|
      ensures Brings(inits[i], dealt.seats[i], if inits[i].seat == small then 5 else if inits[i].seat == big then 10 else 0)
    {
      LobbyChips(inits, dealt, circle, small, big, first, i);
    }
  }

  lemma LobbyChips(inits: seq<Lobby.SeatInit>, dealt: Table, circle: seq<int>, small: int, big: int, first: int, i: nat)
    requires BlindsFrom(NewTable(inits), dealt, circle, small, big, first) && i < |inits|
    ensures Brings(inits[i], dealt.seats[i], if inits[i].seat == small then 5 else if inits[i].seat == big then 10 else 0)
  {
    assert PaidIn(SeatsFrom(inits)[i], dealt.seats[i], if inits[i].seat == small then 5 else if inits[i].seat == big then 10 else 0);
  }

  lemma {:induction false} ButtonOpens(inits: seq<Lobby.SeatInit>, circle: seq<int>, button: int)
    requires Lobby.DistinctSeats(inits) && IsCircle(SeatsFrom(inits), circle) && circle != []
    requires button == if LowestSeat(inits) in circle then LowestSeat(inits) else circle[0]
    ensures button == circle[0]
  {
    if LowestSeat(inits) in circle {
      LowestOpens(inits, circle);
    }
  }

  lemma {:induction false} LowestOpens(inits: seq<Lobby.SeatInit>, circle: seq<int>)
    requires Lobby.DistinctSeats(inits) && IsCircle(SeatsFrom(inits), circle) && LowestSeat(inits) in circle
    ensures circle[0] == LowestSeat(inits)
  {
    ButtonStartsLowest(inits);
    assert circle[0] in circle && HasChips(SeatsFrom(inits), circle[0]);
    var k :| 0 <= k < |circle| && circle[k] == LowestSeat(inits);
  }

  // The next hand is dealt from the stacks of the last one, with the button one
  // seat with chips further.
  lemma NextHandStarts(ts: Table, deck: seq<int>, eval: Evaluator, dealt: Table) returns (circle: seq<int>, small: int, big: int, first: int)
    requires Over(ts) && |ts.seats| <= MAX_SEATS && |deck| == DECK_SIZE && NextHand(ts, deck, eval) == Ok(dealt) && Playing(dealt)
    requires exists i :: 0 <= i < |ts.seats| && ts.seats[i].index == ts.button
    ensures IsCircle(ts.seats, circle) && IsNext(circle, ts.button, dealt.button)
    ensures BlindsFrom(ts.(button := dealt.button), dealt, circle, small, big, first) && OpensAt(dealt, first)
  {
    var next := NextTable(ts);
    circle := InHand(Fresh(next.seats));
    DealtCircle(next);
    small, big, first := DealtTurns(next, deck, eval, dealt);
    ButtonIsNext(ts, circle);
    SameBlinds(ts, next, dealt, circle, small, big, first);
  }

  lemma SameBlinds(ts: Table, next: Table, dealt: Table, circle: seq<int>, small: int, big: int, first: int)
    requires next.seats == ts.seats && next.smallBlind == ts.smallBlind && next.bigBlind == ts.bigBlind && next.button in circle
    requires BlindsFrom(next, dealt, circle, small, big, first)
    ensures BlindsFrom(ts.(button := dealt.button), dealt, circle, small, big, first) && dealt.button == next.button
  {
  }

  // For the next hand the button goes to the next seat with chips, clockwise.
  lemma ButtonMoves(ts: Table)
    requires DistinctSeats(ts.seats) && (exists i :: 0 <= i < |ts.seats| && ts.seats[i].index == ts.button)
    requires exists i :: 0 <= i < |ts.seats| && ts.seats[i].stack > 0
    ensures var next := NextTable(ts).button;
            && (exists i :: 0 <= i < |ts.seats| && ts.seats[i].index == next && ts.seats[i].stack > 0)
            && forall i :: 0 <= i < |ts.seats| && ts.seats[i].stack > 0 ==> Within(next, ts.seats[i].index, ts.button)
  {
    var i :| 0 <= i < |ts.seats| && ts.seats[i].index == ts.button;
    SeatAtSelf(ts.seats, i);
  }

  lemma ButtonIsNext(ts: Table, circle: seq<int>)
    requires DistinctSeats(ts.seats) && (exists i :: 0 <= i < |ts.seats| && ts.seats[i].index == ts.button)
    requires IsCircle(ts.seats, circle) && circle != []
    ensures IsNext(circle, ts.button, NextTable(ts).button)
  {
    assert circle[0] in circle;
    var i :| 0 <= i < |ts.seats| && ts.seats[i].index == circle[0] && ts.seats[i].stack > 0;
    ButtonMoves(ts);
    assert HasChips(ts.seats, NextTable(ts).button);
    forall x | x in circle
      ensures Within(NextTable(ts).button, x, ts.button)
    {
      var k :| 0 <= k < |ts.seats| && ts.seats[k].index == x && ts.seats[k].stack > 0;
    }
  }

  // For the first hand it is with the lowest seat.
  lemma {:induction false} ButtonStartsLowest(inits: seq<Lobby.SeatInit>)
    requires forall i :: 0 <= i < |inits| ==> inits[i].seat >= 0
    ensures inits == [] <==> LowestSeat(inits) < 0
    ensures forall i :: 0 <= i < |inits| ==> LowestSeat(inits) <= inits[i].seat
    ensures inits != [] ==> exists i :: 0 <= i < |inits| && inits[i].seat == LowestSeat(inits)
  {
    if inits != [] {
      var n := |inits| - 1;
      ButtonStartsLowest(inits[..n]);
      assert forall i :: 0 <= i < n ==> inits[..n][i] == inits[i];
      assert inits[n].seat == LowestSeat(inits) || inits[..n] != [];
    }
  }
}
