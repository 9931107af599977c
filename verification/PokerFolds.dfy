// Only a fold can lose chips.
module PokerFolds {
  // In a hand that was really dealt, somebody who is still in stands behind the
  // highest bet, so nothing but a last fold can leave chips above everybody.
  import opened Wrappers
  import Arithmetic
  import Lobby
  import Sorting
  import opened Sums
  import opened PokerTable
  import opened PokerPots
  import opened PokerShowdown
  import opened PokerRules
  import opened PokerLaws
  import opened PokerHands

  // ---------------------------------------------------------------------
  // What the earlier rounds left
  // ---------------------------------------------------------------------

  // What a seat put in before this round.
  function Prior(s: Seat): int { s.total - s.committed }

  // Nobody put in more than `top` before this round, and exactly that much
  // did everybody who can still bet or has bet in it.
  ghost predicate LevelOk(s: Seat, top: int) {
    Prior(s) <= top && (s.status == Active || s.committed > 0 ==> Prior(s) == top)
  }

  ghost predicate Levelled(seats: seq<Seat>, top: int) {
    forall i :: 0 <= i < |seats| ==> LevelOk(seats[i], top)
  }

  lemma ActedLevelled(ts: Table, after: Table, p: nat, top: int)
    requires InProgress(ts) && p < |ts.seats| && ActedAt(ts, after, p) && ts.seats[p].status == Active && Levelled(ts.seats, top)
    ensures Levelled(after.seats, top)
  {
    forall i | 0 <= i < |after.seats|
      ensures LevelOk(after.seats[i], top)
    {
      assert LevelOk(ts.seats[i], top) && SeatOk(ts.seats[i], ts.currentBet);
    }
  }

  // Whoever can still bet after a round has matched its bet.
  lemma NewRoundLevelled(seats: seq<Seat>, bet: int, top: int)
    requires SeatsOk(seats, bet) && Levelled(seats, top) && !SomeActor(seats, bet) && bet >= 0
    ensures Levelled(NewRound(seats), top + bet)
  {
    forall i | 0 <= i < |seats|
      ensures LevelOk(NewRound(seats)[i], top + bet)
    {
      assert SeatOk(seats[i], bet) && LevelOk(seats[i], top) && !seats[i].Actionable(bet);
    }
  }

  // ---------------------------------------------------------------------
  // Who stands behind the bet
  // ---------------------------------------------------------------------

  // Going clockwise from one seat, x comes no later than `last`.
  predicate Within(from: int, x: int, last: int) {
    if from <= last then from <= x <= last else x >= from || x <= last
  }

  // Nobody is to act after `last` any more.
  ghost predicate UpTo(seats: seq<Seat>, bet: int, turn: int, last: int) {
    forall i :: 0 <= i < |seats| && seats[i].Actionable(bet) ==> Within(turn, seats[i].index, last)
  }

  // Seat b is in for the whole bet; if it may still act, it is the last to.
  ghost predicate HoldsBet(ts: Table, b: nat) {
    && b < |ts.seats| && ts.seats[b].Live() && ts.seats[b].committed == ts.currentBet
    && (ts.seats[b].Actionable(ts.currentBet) ==> UpTo(ts.seats, ts.currentBet, ts.currentTurn, ts.seats[b].index))
  }

  ghost predicate Held(ts: Table) {
    ts.currentBet == 0 || exists b: nat :: HoldsBet(ts, b)
  }

  // From the next actor clockwise every other actor comes before seat p again.
  lemma NextIsFirst(seats: seq<Seat>, bet: int, p: nat, i: nat)
    requires DistinctSeats(seats) && p < |seats| && seats[p].status != SittingOut && i < |seats| && seats[i].Actionable(bet)
    ensures Within(NextActor(seats, bet, seats[p].index), seats[i].index, seats[p].index)
  {
    var after := seats[p].index;
    assert after in InHandUnsorted(seats);
    var above, low := LowestActor(seats, bet, after), LowestActor(seats, bet, -1);
  }

  // Between the next actor and the last one there is everybody that was
  // between seat p and the last one.
  lemma NextKeepsUpTo(seats: seq<Seat>, bet: int, p: nat, b: nat)
    requires DistinctSeats(seats) && p < |seats| && seats[p].status != SittingOut && !seats[p].Actionable(bet)
    requires b < |seats| && seats[b].Actionable(bet) && UpTo(seats, bet, seats[p].index, seats[b].index)
    ensures UpTo(seats, bet, NextActor(seats, bet, seats[p].index), seats[b].index)
  {
    var from, last := seats[p].index, seats[b].index;
    var next := NextActor(seats, bet, from);
    assert SomeActor(seats, bet);
    NextActorFound(seats, bet, from);
    var n :| 0 <= n < |seats| && seats[n].index == next && seats[n].Actionable(bet);
    NextIsFirst(seats, bet, p, b);
    forall i | 0 <= i < |seats| && seats[i].Actionable(bet)
      ensures Within(next, seats[i].index, last)
    {
      NextIsFirst(seats, bet, p, i);
      assert seats[i].index != from && last != from;
    }
  }

  // An action that does not touch the bet leaves the others as they were.
  lemma QuietActors(ts: Table, p: nat, a: Action, after: Table)
    requires InProgress(ts) && p < |ts.seats| && ts.seats[p].Actionable(ts.currentBet) && ApplyAction(ts, p, a) == Ok(after)
    requires after.currentBet == ts.currentBet && ts.currentBet > 0
    ensures |after.seats| == |ts.seats| && !after.seats[p].Actionable(ts.currentBet)
    ensures forall i :: 0 <= i < |ts.seats| && i != p ==> after.seats[i] == ts.seats[i]
  {
    assert SeatOk(ts.seats[p], ts.currentBet);
  }

  // A bet or a raise stands for itself.
  lemma RaiserHolds(ts: Table, p: nat, a: Action, after: Table)
    requires InProgress(ts) && p < |ts.seats| && ts.seats[p].Actionable(ts.currentBet) && ApplyAction(ts, p, a) == Ok(after)
    requires after.currentBet != ts.currentBet
    ensures |after.seats| == |ts.seats| && after.seats[p].committed == after.currentBet && after.seats[p].hasActed && after.seats[p].Live()
  {
    assert SeatOk(ts.seats[p], ts.currentBet);
  }

  // The one who stands behind the bet acts last: then nobody is left to act.
  lemma HolderActsLast(ts: Table, p: nat, after: Table)
    requires p < |ts.seats| == |after.seats| && HoldsBet(ts, p) && DistinctSeats(ts.seats) && ts.seats[p].index == ts.currentTurn
    requires ts.seats[p].Actionable(ts.currentBet) && !after.seats[p].Actionable(ts.currentBet)
    requires forall i :: 0 <= i < |ts.seats| && i != p ==> after.seats[i] == ts.seats[i]
    ensures !SomeActor(after.seats, ts.currentBet)
  {
    forall i | 0 <= i < |after.seats|
      ensures !after.seats[i].Actionable(ts.currentBet)
    {
      assert i != p && ts.seats[i].Actionable(ts.currentBet) ==> Within(ts.currentTurn, ts.seats[i].index, ts.seats[p].index);
    }
  }

  lemma OthersUpTo(ts: Table, after: Table, p: nat, b: nat)
    requires p < |ts.seats| == |after.seats| && b < |ts.seats| && after.seats[p].index == ts.seats[p].index == ts.currentTurn
    requires UpTo(ts.seats, ts.currentBet, ts.currentTurn, ts.seats[b].index) && !after.seats[p].Actionable(ts.currentBet) && b != p
    requires forall i :: 0 <= i < |ts.seats| && i != p ==> after.seats[i] == ts.seats[i]
    ensures UpTo(after.seats, ts.currentBet, after.seats[p].index, after.seats[b].index)
  {
  }

  // Somebody else who stands behind the bet still does when the turn passes.
  lemma OtherHolds(ts: Table, after: Table, p: nat, b: nat, next: int)
    requires p < |ts.seats| == |after.seats| && HoldsBet(ts, b) && b != p && after.currentBet == ts.currentBet
    requires after.seats[p].index == ts.seats[p].index == ts.currentTurn && !after.seats[p].Actionable(ts.currentBet)
    requires DistinctSeats(after.seats) && after.seats[p].status != SittingOut
    requires forall i :: 0 <= i < |ts.seats| && i != p ==> after.seats[i] == ts.seats[i]
    requires next == NextActor(after.seats, after.currentBet, after.seats[p].index)
    ensures HoldsBet(after.(currentTurn := next), b)
  {
    if after.seats[b].Actionable(ts.currentBet) {
      OthersUpTo(ts, after, p, b);
      NextKeepsUpTo(after.seats, ts.currentBet, p, b);
    }
  }

  // Within a round somebody who is in keeps standing behind the bet.
  lemma HeldAfter(ts: Table, p: nat, a: Action, after: Table, next: int)
    requires InProgress(ts) && Held(ts) && p < |ts.seats| && ts.seats[p].index == ts.currentTurn
    requires ts.seats[p].Actionable(ts.currentBet) && ApplyAction(ts, p, a) == Ok(after) && |after.seats| == |ts.seats|
    requires DistinctSeats(after.seats) && after.seats[p].index == ts.seats[p].index && after.seats[p].status != SittingOut
    requires next == NextActor(after.seats, after.currentBet, after.seats[p].index)
    ensures next < 0 || Held(after.(currentTurn := next))
  {
    var moved := after.(currentTurn := next);
    assert SeatOk(ts.seats[p], ts.currentBet);
    if after.currentBet != ts.currentBet {
      RaiserHolds(ts, p, a, after);
      assert HoldsBet(moved, p);
    } else if ts.currentBet > 0 {
      var b: nat :| HoldsBet(ts, b);
      QuietActors(ts, p, a, after);
      if b == p {
        HolderActsLast(ts, p, after);
        NextActorFound(after.seats, after.currentBet, after.seats[p].index);
      } else {
        OtherHolds(ts, after, p, b, next);
        assert HoldsBet(moved, b);
      }
    }
  }

  // ---------------------------------------------------------------------
  // What every action keeps
  // ---------------------------------------------------------------------

  ghost predicate Square(ts: Table) {
    Held(ts) && exists top :: Levelled(ts.seats, top)
  }

  lemma AdvancedSquare(ts: Table, top: int, eval: Evaluator)
    requires InProgress(ts) && Levelled(ts.seats, top) && !SomeActor(ts.seats, ts.currentBet) && !GoesToShowdown(ts)
    ensures Square(AdvanceStage(ts, eval))
  {
    assert ts.currentBet >= 0 by {
      var i, j :| 0 <= i < j < |ts.seats| && ts.seats[i].total > 0 && ts.seats[j].total > 0;
      assert SeatOk(ts.seats[i], ts.currentBet);
    }
    NewRoundLevelled(ts.seats, ts.currentBet, top);
    assert Levelled(AdvanceStage(ts, eval).seats, top + ts.currentBet);
  }

  lemma RoundOverSquare(after: Table, p: nat, eval: Evaluator, top: int)
    requires InProgress(after) && NonFolded(after.seats) >= 2 && p < |after.seats| && Levelled(after.seats, top)
    requires NextActor(after.seats, after.currentBet, after.seats[p].index) < 0 && Playing(AdvanceStage(after, eval))
    ensures Square(AdvanceStage(after, eval))
  {
    NextActorFound(after.seats, after.currentBet, after.seats[p].index);
    AdvanceKeeps(after, eval);
    AdvancedSquare(after, top, eval);
  }

  lemma ResolvedSquare(ts: Table, p: nat, a: Action, after: Table, eval: Evaluator, top: int)
    requires Playing(ts) && Held(ts) && Levelled(ts.seats, top) && p < |ts.seats| && ts.seats[p].index == ts.currentTurn
    requires ts.seats[p].Actionable(ts.currentBet) && ApplyAction(ts, p, a) == Ok(after)
    requires InProgress(after) && |after.seats| == |ts.seats| && ActedAt(ts, after, p) && NonFolded(after.seats) >= 1
    requires Playing(Resolve(after, p, eval))
    ensures Square(Resolve(after, p, eval))
  {
    ActedLevelled(ts, after, p, top);
    var next := NextActor(after.seats, after.currentBet, after.seats[p].index);
    ResolvesTo(after, p, eval, next);
    if next >= 0 {
      HeldAfter(ts, p, a, after, next);
    } else {
      RoundOverSquare(after, p, eval, top);
    }
  }

  // Where the hand goes on, the turn passes or the street changes.
  lemma ResolvesTo(after: Table, p: nat, eval: Evaluator, next: int)
    requires InProgress(after) && p < |after.seats| && NonFolded(after.seats) >= 1 && Playing(Resolve(after, p, eval))
    requires next == NextActor(after.seats, after.currentBet, after.seats[p].index)
    ensures NonFolded(after.seats) >= 2
    ensures Resolve(after, p, eval) == if next >= 0 then after.(currentTurn := next) else AdvanceStage(after, eval)
  {
    if NonFolded(after.seats) == 1 {
      SomebodyLive(after.seats);
    }
  }

  lemma StepSquare(ts: Table, p: nat, a: Action, eval: Evaluator, ts': Table)
    requires Playing(ts) && Square(ts) && p < |ts.seats| && Apply(ts, ts.seats[p].user, a, eval) == Ok(ts') && Playing(ts')
    ensures Square(ts')
  {
    TurnIsMine(ts, p);
    var after := ApplyAction(ts, p, a).value;
    ActionActs(ts, p, a, after);
    ActedKeeps(ts, after, p);
    ActedLive(ts, after, p);
    var top :| Levelled(ts.seats, top);
    ResolvedSquare(ts, p, a, after, eval, top);
  }

  // ---------------------------------------------------------------------
  // What that means for the chips
  // ---------------------------------------------------------------------

  // A seat that is in for the whole bet has put in as much as anybody.
  lemma HolderIsTop(seats: seq<Seat>, bet: int, top: int, b: nat)
    requires SeatsOk(seats, bet) && Levelled(seats, top) && b < |seats| && seats[b].committed == bet
    requires bet > 0 || seats[b].status == Active
    ensures forall i :: 0 <= i < |seats| ==> seats[i].total <= seats[b].total
  {
    assert LevelOk(seats[b], top);
    forall i | 0 <= i < |seats|
      ensures seats[i].total <= seats[b].total
    {
      assert LevelOk(seats[i], top) && SeatOk(seats[i], bet);
    }
  }

  lemma TopIsAlive(seats: seq<Seat>, b: nat)
    requires b < |seats| && seats[b].status != Folded && forall i :: 0 <= i < |seats| ==> seats[i].total <= seats[b].total
    ensures !TwoDeadAbove(seats)
  {
    assert seats[b].total <= MaxUnfolded(seats);
  }

  // After anything but a fold somebody who is in has put in as much as anybody.
  lemma SomebodyIsTop(ts: Table, p: nat, a: Action, after: Table, top: int) returns (b: nat)
    requires Playing(ts) && Held(ts) && Levelled(ts.seats, top) && p < |ts.seats| && ts.seats[p].Actionable(ts.currentBet)
    requires ApplyAction(ts, p, a) == Ok(after) && a != Fold && ActedAt(ts, after, p) && InProgress(after)
    requires after.seats[p].status != Folded
    ensures b < |after.seats| && after.seats[b].status != Folded
    ensures forall i :: 0 <= i < |after.seats| ==> after.seats[i].total <= after.seats[b].total
  {
    ActedLevelled(ts, after, p, top);
    assert SeatOk(ts.seats[p], ts.currentBet) && LevelOk(ts.seats[p], top) && LevelOk(after.seats[p], top);
    if after.seats[p].committed == after.currentBet {
      b := p;
      ActorIsTop(ts, p, after, top);
    } else {
      ShortCall(ts, p, a, after);
      b :| HoldsBet(ts, b);
      QuietActors(ts, p, a, after);
      HolderIsTop(after.seats, after.currentBet, top, b);
    }
  }

  lemma ActorIsTop(ts: Table, p: nat, after: Table, top: int)
    requires p < |ts.seats| && ActedAt(ts, after, p) && SeatsOk(after.seats, after.currentBet) && Levelled(after.seats, top)
    requires LevelOk(ts.seats[p], top) && ts.seats[p].status == Active && after.seats[p].committed == after.currentBet
    ensures forall i :: 0 <= i < |after.seats| ==> after.seats[i].total <= after.seats[p].total
  {
    forall i | 0 <= i < |after.seats|
      ensures after.seats[i].total <= after.seats[p].total
    {
      assert LevelOk(after.seats[i], top) && SeatOk(after.seats[i], after.currentBet);
    }
  }

  // Only a call that does not reach the bet leaves its seat below it.
  lemma ShortCall(ts: Table, p: nat, a: Action, after: Table)
    requires InProgress(ts) && p < |ts.seats| && ts.seats[p].Actionable(ts.currentBet) && ApplyAction(ts, p, a) == Ok(after)
    requires a != Fold && after.seats[p].committed != after.currentBet && p < |after.seats|
    ensures after.currentBet == ts.currentBet > 0 && ts.seats[p].committed < ts.currentBet
  {
    assert SeatOk(ts.seats[p], ts.currentBet);
  }

  lemma OthersLoseNothing(ts: Table, p: nat, a: Action)
    requires Playing(ts) && Square(ts) && p < |ts.seats| && ts.seats[p].Actionable(ts.currentBet) && a != Fold
    ensures Lost(ts, p, a) == 0
  {
    LostIff(ts, p, a);
    if ShowdownSeats(ts, p, a).Some? {
      var after := ApplyAction(ts, p, a).value;
      ActionActs(ts, p, a, after);
      ActedKeeps(ts, after, p);
      var top :| Levelled(ts.seats, top);
      var b := SomebodyIsTop(ts, p, a, after, top);
      TopIsAlive(after.seats, b);
    }
  }

  // ---------------------------------------------------------------------
  // A dealt hand starts that way
  // ---------------------------------------------------------------------

  function Next(k: nat, n: nat): nat { if k + 1 < n then k + 1 else 0 }

  lemma PlacesFollow(n: nat, at: nat)
    requires n >= 2 && at < n
    ensures var (sb, bb, first) := Positions(n, at); bb == Next(sb, n) && first == Next(bb, n)
  {
    Arithmetic.WrapsOnce(at, n);
    Arithmetic.WrapsOnce(at + 1, n);
    Arithmetic.WrapsOnce(at + 2, n);
    if n >= 3 {
      Arithmetic.WrapsOnce(at + 3, n);
    }
  }

  // From the place after `last` the whole circle comes no later than `last`.
  lemma CircleWithin(order: seq<int>, last: nat, k: nat)
    requires Rising(order) && last < |order| && k < |order|
    ensures Within(order[Next(last, |order|)], order[k], order[last])
    ensures |order| >= 2 && k != Next(last, |order|) ==>
              Within(order[Next(Next(last, |order|), |order|)], order[k], order[last])
  {
    RisingTo(order, k, last);
    RisingTo(order, last, k);
    RisingTo(order, Next(last, |order|), k);
    RisingTo(order, Next(Next(last, |order|), |order|), k);
  }

  lemma RisingTo(order: seq<int>, j: nat, k: nat)
    requires Rising(order) && j < |order| && k < |order|
    ensures j <= k ==> order[j] <= order[k]
  {
  }

  // What the blinds leave: seat p paid the small and seat q the big one, or
  // what they had.
  ghost predicate BlindsShape(posted: seq<Seat>, p: nat, q: nat, a: int, small: int, b: int, big: int) {
    && p < |posted| && q < |posted| && p != q && posted[p].index == a && posted[q].index == b
    && posted[p].committed <= small && (posted[q].committed == big || !posted[q].CanAct())
    && posted[q].committed <= big
    && forall i :: 0 <= i < |posted| && i != p && i != q ==> posted[i].committed == 0
  }

  lemma OneBlind(seats: seq<Seat>, index: int, amount: int) returns (p: nat)
    requires FreshSeats(seats) && amount >= 1 && InDeal(seats, index)
    requires forall i :: 0 <= i < |seats| && seats[i].index == index ==> seats[i].committed == 0
    ensures var posted := PostBlind(seats, index, amount);
            && |posted| == |seats| && FreshSeats(posted) && p < |seats| && posted[p].index == index && posted[p].Live()
            && posted[p].committed <= amount && (posted[p].committed == amount || !posted[p].CanAct())
            && seats[p].index == index && seats[p].status != SittingOut
            && forall i :: 0 <= i < |seats| && i != p ==> posted[i] == seats[i]
  {
    var i :| 0 <= i < |seats| && seats[i].index == index && seats[i].status != SittingOut;
    p := BlindKeeps(seats, index, amount);
    assert i == p;
    var posted := PostBlind(seats, index, amount);
    assert FreshSeat(posted[p]) && posted[p] == seats[p].Pay(Min(amount, seats[p].stack));
  }

  lemma BlindsLeave(seats: seq<Seat>, a: int, small: int, b: int, big: int) returns (p: nat, q: nat)
    requires FreshSeats(seats) && small >= 1 && big >= 1 && a != b && InDeal(seats, a) && InDeal(seats, b)
    requires forall i :: 0 <= i < |seats| ==> seats[i].committed == 0
    ensures var posted := PostBlind(PostBlind(seats, a, small), b, big);
            && |posted| == |seats| && FreshSeats(posted) && BlindsShape(posted, p, q, a, small, b, big)
            && posted[p].Live() && posted[q].Live()
            && forall i :: 0 <= i < |seats| ==> posted[i].index == seats[i].index && (posted[i].Live() ==> seats[i].status != SittingOut)
  {
    p := OneBlind(seats, a, small);
    var once := PostBlind(seats, a, small);
    StillDealt(seats, once, p, b);
    q := OneBlind(once, b, big);
  }

  lemma StillDealt(seats: seq<Seat>, once: seq<Seat>, p: nat, b: int)
    requires p < |seats| == |once| && InDeal(seats, b) && once[p].index != b && FreshSeats(once)
    requires forall i :: 0 <= i < |seats| && i != p ==> once[i] == seats[i]
    requires forall i :: 0 <= i < |seats| ==> seats[i].index == once[i].index || i == p
    requires seats[p].index == once[p].index
    ensures InDeal(once, b)
  {
    var i :| 0 <= i < |seats| && seats[i].index == b && seats[i].status != SittingOut;
    assert once[i] == seats[i];
  }

  // From the place after the big blind on, whoever can act comes no later than
  // the big blind, and no later than the small one if the big blind cannot act.
  lemma CircleUpTo(seats: seq<Seat>, bet: int, order: seq<int>, sb: nat, last: nat)
    requires Rising(order) && |order| >= 2 && sb < |order| && (last == Next(sb, |order|) || last == sb)
    requires forall i :: 0 <= i < |seats| && seats[i].Live() ==> seats[i].index in order
    requires last == sb ==> forall i :: 0 <= i < |seats| && seats[i].Actionable(bet) ==> seats[i].index != order[Next(sb, |order|)]
    ensures UpTo(seats, bet, order[Next(Next(sb, |order|), |order|)], order[last])
  {
    forall i | 0 <= i < |seats| && seats[i].Actionable(bet)
      ensures Within(order[Next(Next(sb, |order|), |order|)], seats[i].index, order[last])
    {
      var k :| 0 <= k < |order| && order[k] == seats[i].index;
      CircleWithin(order, last, k);
    }
  }

  // Somebody stands behind the bet after the blinds.
  lemma BlindsHold(ts: Table, order: seq<int>, sb: nat, p: nat, q: nat)
    requires FreshSeats(ts.seats) && Rising(order) && |order| >= 2 && sb < |order| && ts.smallBlind <= ts.bigBlind
    requires BlindsShape(ts.seats, p, q, order[sb], ts.smallBlind, order[Next(sb, |order|)], ts.bigBlind)
    requires forall i :: 0 <= i < |ts.seats| && ts.seats[i].Live() ==> ts.seats[i].index in order
    requires ts.currentBet == MaxCommitted(ts.seats) > 0 && ts.seats[p].Live() && ts.seats[q].Live()
    requires var first := order[Next(Next(sb, |order|), |order|)]; ts.currentTurn == FirstToAct(ts.seats, first) && InDeal(ts.seats, first)
    ensures Held(ts)
  {
    var n := |order|;
    var bb := Next(sb, n);
    var b, last := if ts.seats[q].committed == ts.currentBet then q else p, if ts.seats[q].committed == ts.currentBet then bb else sb;
    var m :| 0 <= m < |ts.seats| && ts.seats[m].committed == ts.currentBet;
    assert ts.seats[b].committed == ts.currentBet;
    CircleUpTo(ts.seats, ts.currentBet, order, sb, last);
    TurnUpTo(ts.seats, ts.currentBet, order[Next(bb, n)], b);
    assert HoldsBet(ts, b);
  }

  lemma {:induction false} TurnUpTo(seats: seq<Seat>, bet: int, first: int, b: nat)
    requires DistinctSeats(seats) && b < |seats| && bet == MaxCommitted(seats) && InDeal(seats, first)
    requires UpTo(seats, bet, first, seats[b].index)
    ensures seats[b].Actionable(bet) ==> UpTo(seats, bet, FirstToAct(seats, first), seats[b].index)
  {
    var f :| 0 <= f < |seats| && seats[f].index == first && seats[f].status != SittingOut;
    SeatAtSelf(seats, f);
    if !seats[f].CanAct() && seats[b].Actionable(bet) {
      NextKeepsUpTo(seats, bet, f, b);
    }
  }

  lemma FreshLevelled(seats: seq<Seat>)
    requires FreshSeats(seats)
    ensures Levelled(seats, 0)
  {
    forall i | 0 <= i < |seats|
      ensures LevelOk(seats[i], 0)
    {
      assert FreshSeat(seats[i]);
    }
  }

  // Whoever is in the hand after the blinds was in the deal order.
  lemma LiveAreDealt(cleared: seq<Seat>, posted: seq<Seat>)
    requires |cleared| == |posted| && FreshSeats(posted)
    requires forall i :: 0 <= i < |cleared| ==> posted[i].index == cleared[i].index && (posted[i].Live() ==> cleared[i].status != SittingOut)
    ensures forall i :: 0 <= i < |posted| && posted[i].Live() ==> posted[i].index in InHand(cleared)
  {
    Sorting.SortMembers(InHandUnsorted(cleared));
    forall i | 0 <= i < |posted| && posted[i].Live()
      ensures posted[i].index in InHand(cleared)
    {
      assert cleared[i].index in InHandUnsorted(cleared);
    }
  }

  lemma {:induction false} HolesLeave(cleared: seq<Seat>, order: seq<int>, sb: nat, deck: seq<int>)
    requires FreshSeats(cleared) && order == InHand(cleared) && |order| >= 2 && sb < |order| && 2 * |order| <= |deck|
    requires forall i :: 0 <= i < |cleared| ==> cleared[i].committed == 0
    ensures Rising(order) && forall k :: 0 <= k < |order| ==> InDeal(cleared, order[k])
    ensures var dealt := DealHoles(cleared, order, sb, deck, 2 * |order|);
            && SameButCards(cleared, dealt) && FreshSeats(dealt)
            && InDeal(dealt, order[sb]) && InDeal(dealt, order[Next(sb, |order|)])
            && forall i :: 0 <= i < |dealt| ==> dealt[i].committed == 0
  {
    InHandOrder(cleared);
    var dealt := DealHoles(cleared, order, sb, deck, 2 * |order|);
    DealHolesKeeps(cleared, order, sb, deck, 2 * |order|);
    CardsKeepFresh(cleared, dealt);
    StillInDeal(cleared, dealt, order[sb]);
    StillInDeal(cleared, dealt, order[Next(sb, |order|)]);
  }

  // What both blinds leave of a deal.
  lemma DealLeaves(cleared: seq<Seat>, dealt: seq<Seat>, order: seq<int>, sb: nat, small: int, big: int, posted: seq<Seat>)
    returns (p: nat, q: nat)
    requires SameButCards(cleared, dealt) && FreshSeats(dealt) && 1 <= small && 1 <= big && order == InHand(cleared)
    requires |order| >= 2 && sb < |order| && order[sb] != order[Next(sb, |order|)]
    requires InDeal(dealt, order[sb]) && InDeal(dealt, order[Next(sb, |order|)]) && InDeal(cleared, order[Next(Next(sb, |order|), |order|)])
    requires forall i :: 0 <= i < |dealt| ==> dealt[i].committed == 0
    requires posted == PostBlind(PostBlind(dealt, order[sb], small), order[Next(sb, |order|)], big)
    ensures FreshSeats(posted) && BlindsShape(posted, p, q, order[sb], small, order[Next(sb, |order|)], big)
    ensures posted[p].Live() && posted[q].Live() && InDeal(posted, order[Next(Next(sb, |order|), |order|)])
    ensures forall i :: 0 <= i < |posted| && posted[i].Live() ==> posted[i].index in order
  {
    p, q := BlindsLeave(dealt, order[sb], small, order[Next(sb, |order|)], big);
    LiveAreDealt(cleared, posted);
    FirstInDeal(dealt, posted, p, q, order[Next(Next(sb, |order|), |order|)], cleared);
  }

  // Right after the blinds the table is square.
  lemma BlindsSquare(ts: Table, order: seq<int>, sb: nat, p: nat, q: nat)
    requires FreshSeats(ts.seats) && Rising(order) && |order| >= 2 && sb < |order| && ts.smallBlind <= ts.bigBlind
    requires BlindsShape(ts.seats, p, q, order[sb], ts.smallBlind, order[Next(sb, |order|)], ts.bigBlind)
    requires forall i :: 0 <= i < |ts.seats| && ts.seats[i].Live() ==> ts.seats[i].index in order
    requires ts.currentBet == MaxCommitted(ts.seats) > 0 && ts.seats[p].Live() && ts.seats[q].Live()
    requires var first := order[Next(Next(sb, |order|), |order|)]; ts.currentTurn == FirstToAct(ts.seats, first) && InDeal(ts.seats, first)
    ensures Square(ts)
  {
    BlindsHold(ts, order, sb, p, q);
    FreshLevelled(ts.seats);
  }

  lemma FirstInDeal(dealt: seq<Seat>, posted: seq<Seat>, p: nat, q: nat, index: int, cleared: seq<Seat>)
    requires SameButCards(cleared, dealt) && InDeal(cleared, index) && |posted| == |dealt| && p < |posted| && q < |posted|
    requires posted[p].Live() && posted[q].Live() && forall i :: 0 <= i < |posted| ==> posted[i].index == dealt[i].index
    requires forall i :: 0 <= i < |posted| && i != p && i != q ==> posted[i].status == dealt[i].status
    ensures InDeal(posted, index)
  {
    var i :| 0 <= i < |cleared| && cleared[i].index == index && cleared[i].status != SittingOut;
    assert posted[i].index == index && posted[i].status != SittingOut;
  }

  // Every dealt hand starts square.
  lemma DealtSquare(ts: Table, deck: seq<int>, eval: Evaluator, dealt: Table)
    requires Ready(ts) && ts.smallBlind <= ts.bigBlind && |deck| == DECK_SIZE && DealHand(ts, deck, eval) == Ok(dealt) && Playing(dealt)
    ensures Square(dealt) && SameBlinds(ts, dealt)
  {
    InHandSize(Fresh(ts.seats));
    var posted := Posted(ts, deck);
    var first := PostedStarts(ts, deck);
    if dealt != posted {
      InProgressAccounted(posted);
      RunOutOver(posted, eval);
      assert false;
    }
    PostedSquare(ts, deck);
  }

  // Where the blinds were posted and who acts first.
  lemma PostedPlaces(ts: Table, deck: seq<int>) returns (sb: nat)
    requires Ready(ts) && MIN_SEATS <= |InHand(Fresh(ts.seats))| && 2 * |InHand(Fresh(ts.seats))| <= |deck|
    ensures var order := InHand(Fresh(ts.seats)); var n := |order|; var posted := Posted(ts, deck);
            && sb < n && posted.smallBlind == ts.smallBlind && posted.bigBlind == ts.bigBlind
            && posted.seats == PostBlind(PostBlind(DealHoles(Fresh(ts.seats), order, sb, deck, 2 * n), order[sb], ts.smallBlind), order[Next(sb, n)], ts.bigBlind)
            && posted.currentBet == MaxCommitted(posted.seats) && posted.currentTurn == FirstToAct(posted.seats, order[Next(Next(sb, n), n)])
  {
    var order := InHand(Fresh(ts.seats));
    PlacesFollow(|order|, PositionOf(order, if ts.button in order then ts.button else order[0]));
    sb := Places(ts.button, order).0;
  }

  lemma {:induction false} BlindsBet(seats: seq<Seat>)
    requires FreshSeats(seats) && Contributors(seats)
    ensures MaxCommitted(seats) > 0
  {
    var i, j :| 0 <= i < j < |seats| && seats[i].total > 0 && seats[j].total > 0;
    assert FreshSeat(seats[i]);
  }

  lemma PostedSquare(ts: Table, deck: seq<int>)
    requires Ready(ts) && ts.smallBlind <= ts.bigBlind
    requires MIN_SEATS <= |InHand(Fresh(ts.seats))| && 2 * |InHand(Fresh(ts.seats))| <= |deck|
    requires Contributors(Posted(ts, deck).seats)
    ensures Square(Posted(ts, deck))
  {
    FreshIsFresh(ts);
    var posted := Posted(ts, deck);
    var order := InHand(Fresh(ts.seats));
    var sb := PostedPlaces(ts, deck);
    HolesLeave(Fresh(ts.seats), order, sb, deck);
    var dealt := DealHoles(Fresh(ts.seats), order, sb, deck, 2 * |order|);
    var p, q := DealLeaves(Fresh(ts.seats), dealt, order, sb, ts.smallBlind, ts.bigBlind, posted.seats);
    BlindsBet(posted.seats);
    BlindsSquare(posted, order, sb, p, q);
  }

  // ---------------------------------------------------------------------
  // Exactly which fold
  // ---------------------------------------------------------------------

  // Seat i is out once seat p is, and put in more than everybody left.
  ghost predicate OutAbove(seats: seq<Seat>, p: nat, i: nat) {
    && i < |seats| && (i == p || seats[i].status == Folded)
    && forall k :: 0 <= k < |seats| && k != p && seats[k].Live() ==> seats[k].total < seats[i].total
  }

  // Before the call: nobody else is left to act, at least two others are in,
  // no more betting can follow, and seat p and a folded seat, or two folded
  // ones, are above all of them.
  ghost predicate FoldStrands(ts: Table, p: nat) {
    && NonFolded(ts.seats) >= 3 && (ts.stage == River || CanActCount(ts.seats) <= 2)
    && (forall i :: 0 <= i < |ts.seats| && i != p ==> !ts.seats[i].Actionable(ts.currentBet))
    && exists i: nat, j: nat :: i < j && OutAbove(ts.seats, p, i) && OutAbove(ts.seats, p, j)
  }

  // The round is over after seat p folds, and the cards decide.
  lemma FoldShows(ts: Table, p: nat)
    requires Playing(ts) && p < |ts.seats| && ts.seats[p].Actionable(ts.currentBet)
    ensures ShowdownSeats(ts, p, Fold).Some? <==>
              && NonFolded(ts.seats) >= 3 && (ts.stage == River || CanActCount(ts.seats) <= 2)
              && forall i :: 0 <= i < |ts.seats| && i != p ==> !ts.seats[i].Actionable(ts.currentBet)
  {
    var after := ApplyAction(ts, p, Fold).value;
    SumUpdate(LiveFlags(ts.seats), p, 0);
    assert LiveFlags(after.seats) == LiveFlags(ts.seats)[p := 0];
    SumUpdate(CanActFlags(ts.seats), p, 0);
    assert CanActFlags(NewRound(after.seats)) == CanActFlags(ts.seats)[p := 0];
    NextActorFound(after.seats, ts.currentBet, after.seats[p].index);
    assert SomeActor(after.seats, ts.currentBet) <==>
             exists i :: 0 <= i < |ts.seats| && i != p && ts.seats[i].Actionable(ts.currentBet) by {
      if i :| 0 <= i < |ts.seats| && i != p && ts.seats[i].Actionable(ts.currentBet) {
        assert after.seats[i].Actionable(ts.currentBet);
      }
    }
  }

  function WithoutSeat(seats: seq<Seat>, p: nat): (r: seq<Seat>)
    requires p < |seats|
    ensures |r| == |seats| && r[p].status == Folded && r[p].total == seats[p].total
    ensures forall i :: 0 <= i < |seats| && i != p ==> r[i] == seats[i]
  {
    seats[p := seats[p].(status := Folded, hasActed := true)]
  }

  lemma DeadMeans(seats: seq<Seat>, p: nat, i: nat, l: nat)
    requires p < |seats| && i < |seats| && l < |seats| && l != p && seats[l].Live() && seats[l].total >= 0
    requires forall k :: 0 <= k < |seats| && seats[k].status == SittingOut ==> seats[k].total == 0
    ensures DeadAbove(WithoutSeat(seats, p), i) <==> OutAbove(seats, p, i)
  {
    var after := WithoutSeat(seats, p);
    if OutAbove(seats, p, i) && MaxUnfolded(after) > 0 {
      var m :| 0 <= m < |after| && after[m].status != Folded && after[m].total == MaxUnfolded(after);
      assert after[m].Live();
    }
  }

  lemma TwoDeadMeans(seats: seq<Seat>, p: nat, l: nat)
    requires p < |seats| && l < |seats| && l != p && seats[l].Live() && seats[l].total >= 0
    requires forall k :: 0 <= k < |seats| && seats[k].status == SittingOut ==> seats[k].total == 0
    ensures TwoDeadAbove(WithoutSeat(seats, p)) <==> exists i: nat, j: nat :: i < j && OutAbove(seats, p, i) && OutAbove(seats, p, j)
  {
    forall i: nat | i < |seats|
      ensures DeadAbove(WithoutSeat(seats, p), i) <==> OutAbove(seats, p, i)
    {
      DeadMeans(seats, p, i, l);
    }
    if i, j :| 0 <= i < j < |seats| && DeadAbove(WithoutSeat(seats, p), i) && DeadAbove(WithoutSeat(seats, p), j) {
      assert OutAbove(seats, p, i) && OutAbove(seats, p, j);
    }
    if i: nat, j: nat :| i < j && OutAbove(seats, p, i) && OutAbove(seats, p, j) {
      assert DeadAbove(WithoutSeat(seats, p), i) && DeadAbove(WithoutSeat(seats, p), j);
    }
  }

  // With three in, somebody else is still in after a fold.
  lemma AnotherLive(ts: Table, p: nat) returns (l: nat)
    requires InProgress(ts) && NonFolded(ts.seats) >= 3 && p < |ts.seats|
    ensures l < |ts.seats| && l != p && ts.seats[l].Live() && ts.seats[l].total >= 0
    ensures forall k :: 0 <= k < |ts.seats| && ts.seats[k].status == SittingOut ==> ts.seats[k].total == 0
  {
    SumUpdate(LiveFlags(ts.seats), p, 0);
    assert LiveFlags(WithoutSeat(ts.seats, p)) == LiveFlags(ts.seats)[p := 0];
    SomebodyLive(WithoutSeat(ts.seats, p));
    l :| 0 <= l < |ts.seats| && WithoutSeat(ts.seats, p)[l].Live();
    forall k | 0 <= k < |ts.seats|
      ensures ts.seats[k].total >= 0 && (ts.seats[k].status == SittingOut ==> ts.seats[k].total == 0)
    {
      assert SeatOk(ts.seats[k], ts.currentBet);
    }
  }

  lemma FoldLoses(ts: Table, p: nat)
    requires Playing(ts) && p < |ts.seats| && ts.seats[p].Actionable(ts.currentBet)
    ensures Lost(ts, p, Fold) > 0 <==> FoldStrands(ts, p)
  {
    LostIff(ts, p, Fold);
    FoldShows(ts, p);
    assert ApplyAction(ts, p, Fold).value.seats == WithoutSeat(ts.seats, p);
    if NonFolded(ts.seats) >= 3 {
      var l := AnotherLive(ts, p);
      TwoDeadMeans(ts.seats, p, l);
    }
  }

  // A chip is lost exactly by a fold that FoldStrands describes.
  lemma LostExactly(ts: Table, p: nat, a: Action)
    requires Playing(ts) && Square(ts) && p < |ts.seats| && ts.seats[p].Actionable(ts.currentBet)
    ensures Lost(ts, p, a) > 0 <==> a == Fold && FoldStrands(ts, p)
  {
    if a == Fold {
      FoldLoses(ts, p);
    } else {
      OthersLoseNothing(ts, p, a);
    }
  }

  // ---------------------------------------------------------------------
  // Runs
  // ---------------------------------------------------------------------

  // The first hand, and every next one, starts square.
  lemma FirstHandSquare(inits: seq<Lobby.SeatInit>, deck: seq<int>, eval: Evaluator, dealt: Table)
    requires Lobby.DistinctSeats(inits) && MIN_SEATS <= |inits| <= MAX_SEATS && |deck| == DECK_SIZE
    requires forall i :: 0 <= i < |inits| ==> inits[i].stack >= 0
    requires InitState(inits, deck, eval) == Ok(dealt) && Playing(dealt)
    ensures Square(dealt) && dealt.smallBlind <= dealt.bigBlind
  {
    NewTableReady(inits);
    DealtSquare(NewTable(inits), deck, eval, dealt);
  }

  lemma NextHandSquare(ts: Table, deck: seq<int>, eval: Evaluator, dealt: Table)
    requires Over(ts) && ts.smallBlind <= ts.bigBlind && |ts.seats| <= MAX_SEATS && |deck| == DECK_SIZE
    requires NextHand(ts, deck, eval) == Ok(dealt) && Playing(dealt)
    ensures Square(dealt) && SameBlinds(ts, dealt)
  {
    DealtSquare(NextTable(ts), deck, eval, dealt);
  }

  lemma {:induction false} RunSquare(states: seq<Table>, moves: seq<Move>, eval: Evaluator, k: nat)
    requires IsRun(states, moves, eval) && Playing(states[0]) && Square(states[0]) && k <= |moves|
    ensures Playing(states[k]) ==> Square(states[k])
  {
    if k > 0 {
      RunSquare(states, moves, eval, k - 1);
      HandEnds(states, moves, eval);
      var ts, move, ts' := states[k - 1], moves[k - 1], states[k];
      assert Accepted(ts, move, ts', eval);
      if Playing(ts') {
        StepSquare(ts, SeatOfUser(ts.seats, move.user).value, move.action, eval, ts');
      }
    }
  }

  // ---------------------------------------------------------------------
  // The blinds stay as they are
  // ---------------------------------------------------------------------

  ghost predicate SameBlinds(a: Table, b: Table) {
    b.smallBlind == a.smallBlind && b.bigBlind == a.bigBlind
  }

  lemma {:induction false} RunOutBlinds(ts: Table, eval: Evaluator)
    requires |ts.deck| >= CardsLeft(ts.stage)
    ensures SameBlinds(ts, RunOut(ts, eval))
    decreases StreetsLeft(ts.stage)
  {
    if IsStreet(ts.stage) {
      RunOutBlinds(NextStreet(ts), eval);
    }
  }

  lemma ResolveBlinds(ts: Table, p: nat, eval: Evaluator)
    requires p < |ts.seats| && |ts.deck| >= CardsLeft(ts.stage)
    ensures SameBlinds(ts, Resolve(ts, p, eval))
  {
    var reset := ts.(seats := NewRound(ts.seats), currentBet := 0, minRaise := ts.bigBlind, lastAggressor := -1);
    if IsStreet(ts.stage) && ts.stage != River {
      RunOutBlinds(NextStreet(reset), eval);
    }
  }

  lemma MoveBlinds(ts: Table, move: Move, ts': Table, eval: Evaluator)
    requires Accepted(ts, move, ts', eval)
    ensures SameBlinds(ts, ts')
  {
    var p := SeatOfUser(ts.seats, move.user).value;
    ActionBlinds(ts, p, move.action);
    ResolveBlinds(ApplyAction(ts, p, move.action).value, p, eval);
  }

  lemma ActionBlinds(ts: Table, p: nat, a: Action)
    requires p < |ts.seats| && ApplyAction(ts, p, a).Ok?
    ensures var after := ApplyAction(ts, p, a).value; SameBlinds(ts, after) && after.deck == ts.deck && after.stage == ts.stage
  {
  }

  lemma {:induction false} RunBlinds(states: seq<Table>, moves: seq<Move>, eval: Evaluator, k: nat)
    requires IsRun(states, moves, eval) && k <= |moves|
    ensures SameBlinds(states[0], states[k])
  {
    if k > 0 {
      RunBlinds(states, moves, eval, k - 1);
      assert Accepted(states[k - 1], moves[k - 1], states[k], eval);
      MoveBlinds(states[k - 1], moves[k - 1], states[k], eval);
    }
  }

  // The user of this move folds a seat, and that strands chips.
  ghost predicate StrandingFold(ts: Table, move: Move) {
    move.action == Fold && match SeatOfUser(ts.seats, move.user) case None => false case Some(p) => FoldStrands(ts, p)
  }

  // In a dealt hand chips are lost by a stranding fold as the last action, and
  // in no other way.
  lemma OnlyFoldsLose(states: seq<Table>, moves: seq<Move>, eval: Evaluator)
    requires IsRun(states, moves, eval) && Playing(states[0]) && Square(states[0]) && |moves| > 0
    ensures Chips(states[|moves|].seats) <= Chips(states[0].seats)
    ensures Chips(states[|moves|].seats) < Chips(states[0].seats) <==> StrandingFold(states[|moves| - 1], moves[|moves| - 1])
    ensures forall k :: 0 <= k < |moves| ==> Playing(states[k]) && Square(states[k])
    ensures SameBlinds(states[0], states[|moves|])
  {
    HandEnds(states, moves, eval);
    RunBlinds(states, moves, eval, |moves|);
    forall k | 0 <= k < |moves|
      ensures Square(states[k])
    {
      RunSquare(states, moves, eval, k);
    }
    var ts, move := states[|moves| - 1], moves[|moves| - 1];
    assert Accepted(ts, move, states[|moves|], eval);
    var p := SeatOfUser(ts.seats, move.user).value;
    TurnIsMine(ts, p);
    LostIff(ts, p, move.action);
    LostExactly(ts, p, move.action);
  }
}
