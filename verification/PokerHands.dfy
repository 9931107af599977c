// Whole hands, one after another.
module PokerHands {
  // Dealing starts a hand, every run of accepted actions ends it, and the
  // advertised actions are exactly the accepted ones.
  import opened Wrappers
  import opened Sorting
  import opened Sums
  import opened Arithmetic
  import Lobby
  import opened PokerTable
  import opened PokerPots
  import opened PokerShowdown
  import opened PokerRules
  import opened PokerLaws

  const DECK_SIZE := 52
  const MAX_SEATS := 9
  const DEFAULT_SMALL_BLIND := 5
  const DEFAULT_BIG_BLIND := 10

  // ---------------------------------------------------------------------
  // Dealing
  // ---------------------------------------------------------------------

  // A table between hands.
  ghost predicate Ready(ts: Table) {
    && ts.smallBlind >= 1 && ts.bigBlind >= 1 && |ts.seats| <= MAX_SEATS
    && DistinctSeats(ts.seats) && DistinctUsers(ts.seats)
    && forall i :: 0 <= i < |ts.seats| ==> ts.seats[i].stack >= 0
  }

  // Two seats differ in nothing but their cards.
  ghost predicate SameButCards(a: seq<Seat>, b: seq<Seat>) {
    |a| == |b| && forall i :: 0 <= i < |a| ==> b[i] == a[i].(hole := b[i].hole)
  }

  lemma {:induction false} DealHolesKeeps(seats: seq<Seat>, order: seq<int>, start: nat, deck: seq<int>, k: nat)
    requires order != [] && k <= |deck|
    ensures SameButCards(seats, DealHoles(seats, order, start, deck, k))
  {
    if k > 0 {
      DealHolesKeeps(seats, order, start, deck, k - 1);
    }
  }

  lemma {:induction false} InHandDistinct(seats: seq<Seat>)
    requires DistinctSeats(seats)
    ensures forall i, j :: 0 <= i < j < |InHandUnsorted(seats)| ==> InHandUnsorted(seats)[i] != InHandUnsorted(seats)[j]
  {
    if seats != [] {
      var n := |seats| - 1;
      InHandDistinct(seats[..n]);
      assert forall i :: 0 <= i < n ==> seats[..n][i].index != seats[n].index;
      assert seats[n].index !in InHandUnsorted(seats[..n]);
    }
  }

  lemma InHandOrder(seats: seq<Seat>)
    requires DistinctSeats(seats)
    ensures Rising(InHand(seats))
    ensures forall k :: 0 <= k < |InHand(seats)| ==> InDeal(seats, InHand(seats)[k])
  {
    InHandDistinct(seats);
    SortDistinct(InHandUnsorted(seats));
    SortMembers(InHandUnsorted(seats));
    forall k | 0 <= k < |InHand(seats)|
      ensures InDeal(seats, InHand(seats)[k])
    {
      assert InHand(seats)[k] in InHandUnsorted(seats);
    }
  }

  ghost predicate InDeal(seats: seq<Seat>, index: int) {
    exists i :: 0 <= i < |seats| && seats[i].index == index && seats[i].status != SittingOut
  }

  // A seat of a freshly dealt hand, before or after its blind.
  ghost predicate FreshSeat(s: Seat) {
    && s.index >= 0 && s.stack >= 0 && 0 <= s.committed == s.total && !s.hasActed && s.status != Folded
    && (s.status == Active ==> s.stack > 0) && (s.status == AllIn ==> s.stack == 0)
    && (s.status == SittingOut ==> s.total == 0 && s.stack == 0)
  }

  ghost predicate FreshSeats(seats: seq<Seat>) {
    DistinctSeats(seats) && DistinctUsers(seats) && forall i :: 0 <= i < |seats| ==> FreshSeat(seats[i])
  }

  lemma BlindKeeps(seats: seq<Seat>, index: int, amount: int) returns (p: nat)
    requires FreshSeats(seats) && amount >= 1 && InDeal(seats, index)
    ensures p < |seats| && seats[p].index == index && SeatAt(seats, index) == Some(p)
    ensures FreshSeats(PostBlind(seats, index, amount))
    ensures Chips(PostBlind(seats, index, amount)) == Chips(seats)
    ensures |PostBlind(seats, index, amount)| == |seats|
    ensures forall i :: 0 <= i < |seats| && i != p ==> PostBlind(seats, index, amount)[i] == seats[i]
    ensures PostBlind(seats, index, amount)[p].index == index
    ensures PostBlind(seats, index, amount)[p].status != SittingOut
    ensures seats[p].stack > 0 ==> PostBlind(seats, index, amount)[p].total > 0
  {
    var i :| 0 <= i < |seats| && seats[i].index == index && seats[i].status != SittingOut;
    SeatAtSelf(seats, i);
    p := i;
    assert FreshSeat(seats[p]);
    var s := seats[p].Pay(Min(amount, seats[p].stack));
    ChipsUpdate(seats, p, s);
    forall k, l | 0 <= k < l < |seats|
      ensures PostBlind(seats, index, amount)[k].index != PostBlind(seats, index, amount)[l].index
      ensures PostBlind(seats, index, amount)[k].user != PostBlind(seats, index, amount)[l].user
    {
      assert seats[k].index != seats[l].index;
    }
  }

  // Both blinds came from different seats of the deal.
  ghost predicate BlindsAt(posted: seq<Seat>, p: nat, q: nat) {
    && p < |posted| && q < |posted| && p != q
    && posted[p].status != SittingOut && posted[p].total > 0
    && posted[q].status != SittingOut && posted[q].total > 0
  }

  lemma BothBlinds(seats: seq<Seat>, a: int, small: int, b: int, big: int) returns (p: nat, q: nat)
    requires FreshSeats(seats) && small >= 1 && big >= 1 && a != b
    requires forall i :: 0 <= i < |seats| ==> seats[i].status == if seats[i].stack > 0 then Active else SittingOut
    requires InDeal(seats, a) && InDeal(seats, b)
    ensures var posted := PostBlind(PostBlind(seats, a, small), b, big);
            FreshSeats(posted) && BlindsAt(posted, p, q) && Chips(posted) == Chips(seats)
  {
    p := BlindKeeps(seats, a, small);
    var once := PostBlind(seats, a, small);
    var q0 :| 0 <= q0 < |seats| && seats[q0].index == b && seats[q0].status != SittingOut;
    assert once[q0] == seats[q0];
    q := BlindKeeps(once, b, big);
  }

  // After both blinds: two contributors, both still in the hand.
  lemma BlindsCount(posted: seq<Seat>, p: nat, q: nat)
    requires FreshSeats(posted) && BlindsAt(posted, p, q)
    ensures Contributors(posted) && NonFolded(posted) >= 2
  {
    assert FreshSeat(posted[p]) && FreshSeat(posted[q]);
    var lo, hi := if p < q then p else q, if p < q then q else p;
    assert posted[lo].total > 0 && posted[hi].total > 0;
    SumAtLeastTwo(LiveFlags(posted), lo, hi);
  }

  lemma FreshIsFresh(ts: Table)
    requires Ready(ts)
    ensures FreshSeats(Fresh(ts.seats)) && Chips(Fresh(ts.seats)) == Sum(Stacks(ts.seats))
  {
    var seats := Fresh(ts.seats);
    assert Stacks(seats) == Stacks(ts.seats);
    SumBounds(Totals(seats), 0, 0);
    forall i, j | 0 <= i < j < |seats|
      ensures seats[i].index != seats[j].index && seats[i].user != seats[j].user
    {
      assert ts.seats[i].index != ts.seats[j].index;
    }
  }

  lemma CardsKeepFresh(a: seq<Seat>, b: seq<Seat>)
    requires FreshSeats(a) && SameButCards(a, b)
    ensures FreshSeats(b) && Chips(b) == Chips(a)
  {
    assert Stacks(b) == Stacks(a) && Totals(b) == Totals(a);
    forall i, j | 0 <= i < j < |b|
      ensures b[i].index != b[j].index && b[i].user != b[j].user
    {
      assert a[i].index != a[j].index;
    }
  }

  // Both rounds of cards and both blinds, from cleared seats.
  lemma {:induction false} DealtBlinds(cleared: seq<Seat>, sb: nat, bb: nat, small: int, big: int, deck: seq<int>)
    requires FreshSeats(cleared) && small >= 1 && big >= 1
    requires forall i :: 0 <= i < |cleared| ==> cleared[i].status == if cleared[i].stack > 0 then Active else SittingOut
    requires sb < |InHand(cleared)| && bb < |InHand(cleared)| && sb != bb && 2 * |InHand(cleared)| <= |deck|
    ensures var order := InHand(cleared);
            var dealt := DealHoles(cleared, order, sb, deck, 2 * |order|);
            var posted := PostBlind(PostBlind(dealt, order[sb], small), order[bb], big);
            && FreshSeats(posted) && Contributors(posted) && NonFolded(posted) >= 2 && Chips(posted) == Chips(cleared)
  {
    var order := InHand(cleared);
    InHandOrder(cleared);
    var dealt := DealHoles(cleared, order, sb, deck, 2 * |order|);
    DealHolesKeeps(cleared, order, sb, deck, 2 * |order|);
    CardsKeepFresh(cleared, dealt);
    StillInDeal(cleared, dealt, order[sb]);
    StillInDeal(cleared, dealt, order[bb]);
    var p, q := BothBlinds(dealt, order[sb], small, order[bb], big);
    BlindsCount(PostBlind(PostBlind(dealt, order[sb], small), order[bb], big), p, q);
  }

  lemma PostedKeeps(ts: Table, deck: seq<int>)
    requires Ready(ts) && |deck| == DECK_SIZE && |InHand(Fresh(ts.seats))| >= MIN_SEATS
    requires 2 * |InHand(Fresh(ts.seats))| <= |deck|
    ensures var posted := Posted(ts, deck);
            && FreshSeats(posted.seats) && Contributors(posted.seats) && NonFolded(posted.seats) >= 2
            && Chips(posted.seats) == Sum(Stacks(ts.seats))
  {
    FreshIsFresh(ts);
    var cleared := Fresh(ts.seats);
    var order := InHand(cleared);
    var at := PositionOf(order, if ts.button in order then ts.button else order[0]);
    var (sb, bb, first) := Positions(|order|, at);
    DistinctPositions(|order|, at);
    DealtBlinds(cleared, sb, bb, ts.smallBlind, ts.bigBlind, deck);
  }

  lemma DistinctPositions(n: nat, button: nat)
    requires n >= 2 && button < n
    ensures var (sb, bb, first) := Positions(n, button); sb < n && bb < n && first < n && sb != bb
  {
    WrapsOnce(button, n);
    WrapsOnce(button + 1, n);
    WrapsOnce(button + 2, n);
  }

  lemma StillInDeal(a: seq<Seat>, b: seq<Seat>, index: int)
    requires SameButCards(a, b) && InDeal(a, index)
    ensures InDeal(b, index)
  {
    var i :| 0 <= i < |a| && a[i].index == index && a[i].status != SittingOut;
    assert b[i].index == index && b[i].status != SittingOut;
  }

  lemma FreshInProgress(ts: Table)
    requires FreshSeats(ts.seats) && Contributors(ts.seats) && StageOk(ts)
    requires ts.smallBlind >= 1 && ts.bigBlind >= 1 && ts.minRaise == ts.bigBlind
    requires ts.currentBet == MaxCommitted(ts.seats)
    ensures InProgress(ts)
  {
    forall i | 0 <= i < |ts.seats|
      ensures SeatOk(ts.seats[i], ts.currentBet)
    {
      assert FreshSeat(ts.seats[i]);
    }
  }

  lemma {:induction false} FirstIsActor(seats: seq<Seat>, first: int)
    requires FreshSeats(seats) && FirstToAct(seats, first) >= 0
    ensures ActorAt(seats, MaxCommitted(seats), FirstToAct(seats, first))
  {
    NextActorFound(seats, MaxCommitted(seats), first);
    var at := SeatAt(seats, first);
    if at.Some? && seats[at.value].CanAct() {
      assert FreshSeat(seats[at.value]);
      assert seats[at.value].Actionable(MaxCommitted(seats));
    }
  }

  // Nobody has folded yet, so nothing can be stranded.
  lemma NobodyDead(seats: seq<Seat>)
    requires Accounted(seats) && Contributors(seats)
    requires forall i :: 0 <= i < |seats| ==> seats[i].status != Folded
    ensures Stranded(seats) == 0
  {
    StrandedIff(seats);
    assert forall i :: 0 <= i < |seats| ==> !DeadAbove(seats, i);
  }

  // What a posted table leads to.
  function Started(posted: Table, eval: Evaluator): Table
    requires |posted.deck| >= CardsLeft(posted.stage)
  {
    if posted.currentTurn < 0 || CanActCount(posted.seats) < 2 then RunOut(posted, eval) else posted
  }

  // Blinds that leave nothing to bet: the hand is played out, no chip is lost.
  lemma {:induction false} RunOutClean(posted: Table, eval: Evaluator)
    requires InProgress(posted) && NonFolded(posted.seats) >= 2
    requires forall i :: 0 <= i < |posted.seats| ==> posted.seats[i].status != Folded
    ensures Over(RunOut(posted, eval)) && Chips(RunOut(posted, eval).seats) == Chips(posted.seats)
  {
    InProgressAccounted(posted);
    NobodyDead(posted.seats);
    RunOutOver(posted, eval);
  }

  lemma StartedKeeps(posted: Table, first: int, eval: Evaluator, after: Table)
    requires InProgress(posted) && FreshSeats(posted.seats) && NonFolded(posted.seats) >= 2
    requires posted.currentBet == MaxCommitted(posted.seats) && posted.currentTurn == FirstToAct(posted.seats, first)
    requires after == Started(posted, eval)
    ensures (Playing(after) || Over(after)) && Chips(after.seats) == Chips(posted.seats)
  {
    if posted.currentTurn < 0 || CanActCount(posted.seats) < 2 {
      forall i | 0 <= i < |posted.seats|
        ensures posted.seats[i].status != Folded
      {
        assert FreshSeat(posted.seats[i]);
      }
      RunOutClean(posted, eval);
    } else {
      FirstIsActor(posted.seats, first);
    }
  }

  // A deal starts a hand in which somebody can act, or one that the blinds
  // already decided; no chip is gained or lost either way.
  ghost predicate DealtFrom(seats: seq<Seat>, r: Result<Table, Error>) {
    match r
    case Err(_) => |InHand(Fresh(seats))| < MIN_SEATS
    case Ok(dealt) =>
      && |InHand(Fresh(seats))| >= MIN_SEATS
      && (Playing(dealt) || Over(dealt)) && Chips(dealt.seats) == Sum(Stacks(seats))
  }

  lemma PostedStarts(ts: Table, deck: seq<int>) returns (first: int)
    requires Ready(ts) && |deck| == DECK_SIZE
    requires MIN_SEATS <= |InHand(Fresh(ts.seats))| <= |ts.seats|
    ensures var posted := Posted(ts, deck);
            && InProgress(posted) && FreshSeats(posted.seats) && NonFolded(posted.seats) >= 2
            && posted.currentBet == MaxCommitted(posted.seats) && posted.currentTurn == FirstToAct(posted.seats, first)
            && Chips(posted.seats) == Sum(Stacks(ts.seats))
  {
    PostedKeeps(ts, deck);
    FreshInProgress(Posted(ts, deck));
    var order := InHand(Fresh(ts.seats));
    var button := if ts.button in order then ts.button else order[0];
    first := order[Positions(|order|, PositionOf(order, button)).2];
  }

  lemma DealKeeps(ts: Table, deck: seq<int>, eval: Evaluator)
    requires Ready(ts) && |deck| == DECK_SIZE
    ensures DealtFrom(ts.seats, DealHand(ts, deck, eval))
  {
    InHandSize(Fresh(ts.seats));
    if |InHand(Fresh(ts.seats))| >= MIN_SEATS {
      var first := PostedStarts(ts, deck);
      StartedKeeps(Posted(ts, deck), first, eval, Started(Posted(ts, deck), eval));
      assert DealHand(ts, deck, eval) == Ok(Started(Posted(ts, deck), eval));
    }
  }

  // ---------------------------------------------------------------------
  // Starting a table and the next hand
  // ---------------------------------------------------------------------

  function LowestSeat(inits: seq<Lobby.SeatInit>): int {
    if inits == [] then -1
    else
      var before := LowestSeat(inits[..|inits| - 1]);
      var seat := inits[|inits| - 1].seat;
      if before < 0 || seat < before then seat else before
  }

  function SeatsFrom(inits: seq<Lobby.SeatInit>): (r: seq<Seat>)
    ensures |r| == |inits|
    ensures forall i :: 0 <= i < |inits| ==> r[i] == Seat(inits[i].seat, inits[i].user, inits[i].stack, 0, 0, SittingOut, false, [])
  {
    seq(|inits|, i requires 0 <= i < |inits| => Seat(inits[i].seat, inits[i].user, inits[i].stack, 0, 0, SittingOut, false, []))
  }

  function NewTable(inits: seq<Lobby.SeatInit>): Table {
    Table(1, DEFAULT_SMALL_BLIND, DEFAULT_BIG_BLIND, LowestSeat(inits), SeatsFrom(inits), Preflop, [], [],
          0, 0, -1, 0, [], None)
  }

  function InitState(inits: seq<Lobby.SeatInit>, deck: seq<int>, eval: Evaluator): Result<Table, Error>
    requires |deck| >= 2 * |inits| + 5
  {
    if |inits| < MIN_SEATS then Err(NotEnoughPlayers) else DealHand(NewTable(inits), deck, eval)
  }

  lemma NewTableReady(inits: seq<Lobby.SeatInit>)
    requires Lobby.DistinctSeats(inits) && |inits| <= MAX_SEATS && forall i :: 0 <= i < |inits| ==> inits[i].stack >= 0
    ensures Ready(NewTable(inits))
  {
    var ts := NewTable(inits);
    forall i, j | 0 <= i < j < |ts.seats|
      ensures ts.seats[i].index != ts.seats[j].index && ts.seats[i].user != ts.seats[j].user
    {
      assert inits[i].seat != inits[j].seat;
    }
  }

  // The first hand starts with exactly the chips the lobby handed out.
  lemma FirstHandKeeps(inits: seq<Lobby.SeatInit>, deck: seq<int>, eval: Evaluator)
    requires Lobby.DistinctSeats(inits) && MIN_SEATS <= |inits| <= MAX_SEATS && |deck| == DECK_SIZE
    requires forall i :: 0 <= i < |inits| ==> inits[i].stack >= 0
    ensures DealtFrom(SeatsFrom(inits), InitState(inits, deck, eval))
  {
    NewTableReady(inits);
    DealKeeps(NewTable(inits), deck, eval);
  }

  // The lowest seat index with chips above `floor`.
  function LowestWithChips(seats: seq<Seat>, floor: int): (r: Option<int>)
    ensures r.Some? ==> r.value > floor && exists i :: 0 <= i < |seats| && seats[i].index == r.value && seats[i].stack > 0
    ensures forall i :: 0 <= i < |seats| && seats[i].stack > 0 && seats[i].index > floor ==> r.Some? && r.value <= seats[i].index
  {
    if seats == [] then None
    else
      var n := |seats| - 1;
      var before := LowestWithChips(seats[..n], floor);
      assert forall i :: 0 <= i < n ==> seats[..n][i] == seats[i];
      if seats[n].stack > 0 && seats[n].index > floor && (before.None? || seats[n].index < before.value)
      then Some(seats[n].index) else before
  }

  // The button moves clockwise to the next seat with chips.
  function NextSeatWithChips(seats: seq<Seat>, from: int): int {
    var above := if SeatAt(seats, from).Some? then LowestWithChips(seats, from) else None;
    if above.Some? then above.value
    else match LowestWithChips(seats, -1) case Some(x) => x case None => from
  }

  function NextTable(ts: Table): Table {
    ts.(button := NextSeatWithChips(ts.seats, ts.button), handNo := ts.handNo + 1, payouts := None)
  }

  function NextHand(ts: Table, deck: seq<int>, eval: Evaluator): Result<Table, Error>
    requires |deck| >= 2 * |ts.seats| + 5
  {
    DealHand(NextTable(ts), deck, eval)
  }

  // From any finished hand the next one starts with exactly the same chips.
  lemma NextHandKeeps(ts: Table, deck: seq<int>, eval: Evaluator)
    requires Over(ts) && |ts.seats| <= MAX_SEATS && |deck| == DECK_SIZE
    ensures DealtFrom(ts.seats, NextHand(ts, deck, eval)) && Sum(Stacks(ts.seats)) == Chips(ts.seats)
  {
    SumBounds(Totals(ts.seats), 0, 0);
    DealKeeps(NextTable(ts), deck, eval);
  }

  // ---------------------------------------------------------------------
  // Runs
  // ---------------------------------------------------------------------

  datatype Move = Move(user: nat, action: Action)

  // Consecutive states, each reached from the one before by an accepted action.
  ghost predicate IsRun(states: seq<Table>, moves: seq<Move>, eval: Evaluator) {
    && |states| == |moves| + 1
    && forall i :: 0 <= i < |moves| ==> Accepted(states[i], moves[i], states[i + 1], eval)
  }

  ghost predicate Accepted(ts: Table, move: Move, ts': Table, eval: Evaluator) {
    |ts.deck| >= CardsLeft(ts.stage) && Apply(ts, move.user, move.action, eval) == Ok(ts')
  }

  // How many more actions a hand can take at most.
  ghost function Weight(ts: Table): int {
    if ts.stage == HandOver then 0
    else
      Weigh(StreetsLeft(ts.stage), Sum(Stacks(ts.seats)), Waiting(ts.seats, ts.currentBet), Chips(ts.seats) + 1, |ts.seats| + 1)
  }

  // Streets, stacks below c and waiting seats below n as one number.
  ghost function Weigh(streets: int, stacks: int, waiting: int, c: int, n: int): int {
    (streets * c + stacks) * n + waiting
  }

  lemma Bounds(ts: Table)
    requires Playing(ts)
    ensures 0 <= Sum(Stacks(ts.seats)) <= Chips(ts.seats)
    ensures 1 <= Waiting(ts.seats, ts.currentBet) <= |ts.seats|
  {
    forall i | 0 <= i < |ts.seats|
      ensures ts.seats[i].stack >= 0 && ts.seats[i].total >= 0
    {
      assert SeatOk(ts.seats[i], ts.currentBet);
    }
    SumNonNegative(Stacks(ts.seats));
    SumNonNegative(Totals(ts.seats));
    SumBounds(ActionableFlags(ts.seats, ts.currentBet), 0, 1);
    var i :| 0 <= i < |ts.seats| && ts.seats[i].index == ts.currentTurn && ts.seats[i].Actionable(ts.currentBet);
    SumAtLeast(ActionableFlags(ts.seats, ts.currentBet), i);
  }

  lemma WeightDrops(ts: Table, ts': Table)
    requires Playing(ts) && (Playing(ts') || Over(ts')) && Less(ts', ts)
    requires |ts'.seats| == |ts.seats| && (Playing(ts') ==> Chips(ts'.seats) == Chips(ts.seats))
    ensures 0 <= Weight(ts') < Weight(ts)
  {
    Bounds(ts);
    var s, x, w := StreetsLeft(ts.stage), Sum(Stacks(ts.seats)), Waiting(ts.seats, ts.currentBet);
    var c, n := Chips(ts.seats) + 1, |ts.seats| + 1;
    WeighPositive(s, x, w, c, n);
    if Playing(ts') {
      Bounds(ts');
      var s', x', w' := StreetsLeft(ts'.stage), Sum(Stacks(ts'.seats)), Waiting(ts'.seats, ts'.currentBet);
      WeighPositive(s', x', w', c, n);
      WeighDrops(s, x, w, s', x', w', c, n);
    }
  }

  lemma WeighPositive(s: int, x: int, w: int, c: int, n: int)
    requires s >= 0 && 0 <= x < c && 0 < w < n
    ensures Weigh(s, x, w, c, n) > 0
  {
    MulMono(0, s, c);
    MulMono(0, s * c + x, n);
  }

  lemma WeighDrops(s: int, x: int, w: int, s': int, x': int, w': int, c: int, n: int)
    requires 0 <= x' < c && 0 <= x && 0 <= w' < n && 0 <= w
    requires s' < s || (s' == s && (x' < x || (x' == x && w' < w)))
    ensures Weigh(s', x', w', c, n) < Weigh(s, x, w, c, n)
  {
    if s' < s || x' < x { Digit(s, x, s', x', c); }
    Digit(s * c + x, w, s' * c + x', w', n);
  }

  lemma WeightNonNegative(ts: Table)
    requires Playing(ts)
    ensures Weight(ts) >= 0
  {
    Bounds(ts);
    MulMono(0, StreetsLeft(ts.stage) * (Chips(ts.seats) + 1) + Sum(Stacks(ts.seats)), |ts.seats| + 1);
  }

  lemma StepInRun(states: seq<Table>, moves: seq<Move>, eval: Evaluator, k: nat)
    requires IsRun(states, moves, eval) && k < |moves| && (Playing(states[k]) || Over(states[k]))
    ensures Playing(states[k]) && (Playing(states[k + 1]) || Over(states[k + 1]))
    ensures Playing(states[k + 1]) ==> Chips(states[k + 1].seats) == Chips(states[k].seats)
    ensures 0 <= Weight(states[k + 1]) < Weight(states[k])
  {
    var ts, ts' := states[k], states[k + 1];
    assert Accepted(states[k], moves[k], states[k + 1], eval);
    var p := SeatOfUser(ts.seats, moves[k].user).value;
    StepKeeps(ts, p, moves[k].action, eval, ts');
    WeightDrops(ts, ts');
  }

  lemma {:induction false} RunUpTo(states: seq<Table>, moves: seq<Move>, eval: Evaluator, k: nat)
    requires IsRun(states, moves, eval) && Playing(states[0]) && k <= |moves|
    ensures Playing(states[k]) || Over(states[k])
    ensures Playing(states[k]) ==> Chips(states[k].seats) == Chips(states[0].seats)
    ensures k + Weight(states[k]) <= Weight(states[0]) && (k > 0 ==> Weight(states[k]) >= 0)
  {
    if k > 0 {
      RunUpTo(states, moves, eval, k - 1);
      StepInRun(states, moves, eval, k - 1);
    }
  }

  // What the last action of a run lost, if anything.
  ghost function LastLoss(ts: Table, move: Move): int {
    match SeatOfUser(ts.seats, move.user) case None => 0 case Some(p) => Lost(ts, p, move.action)
  }

  lemma LastAccount(ts: Table, move: Move, ts': Table, eval: Evaluator)
    requires Playing(ts) && Accepted(ts, move, ts', eval)
    ensures Chips(ts'.seats) == Chips(ts.seats) - LastLoss(ts, move) && LastLoss(ts, move) >= 0
  {
    var p := SeatOfUser(ts.seats, move.user).value;
    StepKeeps(ts, p, move.action, eval, ts');
    TurnIsMine(ts, p);
    LostIff(ts, p, move.action);
  }

  // A run of a hand: chips are constant until its last action, which loses
  // exactly the stated amount, and the run is no longer than its weight.
  lemma HandEnds(states: seq<Table>, moves: seq<Move>, eval: Evaluator)
    requires IsRun(states, moves, eval) && Playing(states[0])
    ensures forall i :: 0 <= i < |moves| ==> Playing(states[i]) && Chips(states[i].seats) == Chips(states[0].seats)
    ensures Playing(states[|moves|]) || Over(states[|moves|])
    ensures Playing(states[|moves|]) ==> Chips(states[|moves|].seats) == Chips(states[0].seats)
    ensures |moves| > 0 ==> Chips(states[|moves|].seats) == Chips(states[0].seats) - LastLoss(states[|moves| - 1], moves[|moves| - 1])
    ensures |moves| <= Weight(states[0])
  {
    forall i | 0 <= i < |moves|
      ensures Playing(states[i]) && Chips(states[i].seats) == Chips(states[0].seats)
    {
      RunUpTo(states, moves, eval, i);
      StepInRun(states, moves, eval, i);
    }
    RunUpTo(states, moves, eval, |moves|);
    WeightNonNegative(states[0]);
    if |moves| > 0 {
      assert Accepted(states[|moves| - 1], moves[|moves| - 1], states[|moves|], eval);
      LastAccount(states[|moves| - 1], moves[|moves| - 1], states[|moves|], eval);
    }
  }

  // While a hand is in progress the player to act exists and may at least fold.
  lemma SomebodyCanMove(ts: Table, eval: Evaluator) returns (p: nat)
    requires Playing(ts)
    ensures p < |ts.seats| && ts.seats[p].index == ts.currentTurn
    ensures Apply(ts, ts.seats[p].user, Fold, eval).Ok?
  {
    p :| 0 <= p < |ts.seats| && ts.seats[p].index == ts.currentTurn && ts.seats[p].Actionable(ts.currentBet);
    TurnIsMine(ts, p);
  }

  // ---------------------------------------------------------------------
  // The advertised actions
  // ---------------------------------------------------------------------

  datatype LegalActions = LegalActions(canFold: bool, canCheck: bool, canCall: bool, callAmount: int,
                                       canBet: bool, canRaise: bool, minBet: int, minRaise: int, maxAmount: int)

  function Legal(ts: Table, s: Seat): Option<LegalActions> {
    if !s.CanAct() then None
    else
      var toCall := ts.currentBet - s.committed;
      var maxAmount := s.committed + s.stack;
      var canBet := ts.currentBet == 0;
      var canRaise := !canBet && s.stack > toCall;
      Some(LegalActions(
        true, toCall <= 0, toCall > 0, if toCall > 0 then Min(toCall, s.stack) else 0,
        canBet, canRaise,
        if canBet then Min(ts.bigBlind, maxAmount) else 0,
        if canRaise then Min(ts.currentBet + ts.minRaise, maxAmount) else 0,
        maxAmount))
  }

  // For the player to act: a check, and a bet or raise to any amount, is
  // accepted exactly when it is advertised within the advertised bounds;
  // folding is always accepted, and an advertised call moves exactly the
  // advertised chips.
  lemma LegalIsAccepted(ts: Table, p: nat, eval: Evaluator)
    requires Playing(ts) && p < |ts.seats| && ts.seats[p].index == ts.currentTurn
    ensures Legal(ts, ts.seats[p]).Some?
    ensures var la := Legal(ts, ts.seats[p]).value; var user := ts.seats[p].user;
            && la.canFold && Apply(ts, user, Fold, eval).Ok?
            && (la.canCheck <==> Apply(ts, user, Check, eval).Ok?)
            && (la.canCheck <==> !la.canCall)
            && (la.canCall ==> CallMoves(ts, p, la.callAmount))
            && (forall x :: la.canBet && la.minBet <= x <= la.maxAmount <==> Apply(ts, user, Bet(x), eval).Ok?)
            && (forall x :: la.canRaise && la.minRaise <= x <= la.maxAmount <==> Apply(ts, user, Raise(x), eval).Ok?)
  {
    TurnIsMine(ts, p);
    assert SeatOk(ts.seats[p], ts.currentBet);
    LegalActionsExact(ts, p);
    var la := Legal(ts, ts.seats[p]).value;
    AcceptedIff(ts, p, Fold, eval);
    AcceptedIff(ts, p, Check, eval);
    forall x
      ensures la.canBet && la.minBet <= x <= la.maxAmount <==> Apply(ts, ts.seats[p].user, Bet(x), eval).Ok?
      ensures la.canRaise && la.minRaise <= x <= la.maxAmount <==> Apply(ts, ts.seats[p].user, Raise(x), eval).Ok?
    {
      AcceptedIff(ts, p, Bet(x), eval);
      AcceptedIff(ts, p, Raise(x), eval);
    }
  }

  // On one's turn, only the action itself can be refused.
  lemma AcceptedIff(ts: Table, p: nat, a: Action, eval: Evaluator)
    requires Playing(ts) && p < |ts.seats| && ts.seats[p].index == ts.currentTurn
    ensures Apply(ts, ts.seats[p].user, a, eval).Ok? <==> ApplyAction(ts, p, a).Ok?
  {
    TurnIsMine(ts, p);
  }

  lemma LegalActionsExact(ts: Table, p: nat)
    requires p < |ts.seats| && SeatOk(ts.seats[p], ts.currentBet) && ts.seats[p].Actionable(ts.currentBet)
    requires ts.minRaise >= 1 && ts.bigBlind >= 1
    ensures Legal(ts, ts.seats[p]).Some?
    ensures var la := Legal(ts, ts.seats[p]).value;
            && la.canFold && ApplyAction(ts, p, Fold).Ok?
            && (la.canCheck <==> ApplyAction(ts, p, Check).Ok?)
            && (la.canCheck <==> !la.canCall)
            && (la.canCall ==> CallMoves(ts, p, la.callAmount))
            && (forall x :: la.canBet && la.minBet <= x <= la.maxAmount <==> ApplyAction(ts, p, Bet(x)).Ok?)
            && (forall x :: la.canRaise && la.minRaise <= x <= la.maxAmount <==> ApplyAction(ts, p, Raise(x)).Ok?)
  {
  }

  ghost predicate CallMoves(ts: Table, p: nat, chips: int)
    requires p < |ts.seats|
  {
    && 0 < chips && ApplyAction(ts, p, Call).Ok?
    && var after := ApplyAction(ts, p, Call).value;
       |after.seats| == |ts.seats| && after.seats[p].stack == ts.seats[p].stack - chips && after.seats[p].total == ts.seats[p].total + chips
  }
}
