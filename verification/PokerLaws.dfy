// What every poker action keeps.
module PokerLaws {
  // Chips are accounted for exactly, somebody can always act, and every action
  // brings the hand closer to its end.
  import opened Wrappers
  import opened Sums
  import opened PokerTable
  import opened PokerShowdown
  import opened PokerRules

  // ---------------------------------------------------------------------
  // The invariant
  // ---------------------------------------------------------------------

  ghost predicate SeatOk(s: Seat, currentBet: int) {
    && s.index >= 0 && s.stack >= 0
    && 0 <= s.committed <= currentBet && s.committed <= s.total
    && (s.status == Active ==> s.stack > 0)
    && (s.status == AllIn ==> s.stack == 0)
    && (s.status == SittingOut ==> s.total == 0)
  }

  ghost predicate SeatsOk(seats: seq<Seat>, currentBet: int) {
    forall i {:trigger SeatOk(seats[i], currentBet)} :: 0 <= i < |seats| ==> SeatOk(seats[i], currentBet)
  }

  ghost predicate DistinctUsers(seats: seq<Seat>) {
    forall i, j {:trigger seats[i].user, seats[j].user} :: 0 <= i < j < |seats| ==> seats[i].user != seats[j].user
  }

  ghost predicate StageOk(ts: Table) {
    && IsStreet(ts.stage) && |ts.deck| >= CardsLeft(ts.stage) && |ts.board| == 5 - CardsLeft(ts.stage)
  }

  // A hand in progress, apart from whose turn it is.
  ghost predicate InProgress(ts: Table) {
    && DistinctSeats(ts.seats) && DistinctUsers(ts.seats) && SeatsOk(ts.seats, ts.currentBet)
    && ts.smallBlind >= 1 && ts.bigBlind >= 1 && ts.minRaise >= 1
    && StageOk(ts) && Contributors(ts.seats)
  }

  ghost predicate Playing(ts: Table) {
    && InProgress(ts) && NonFolded(ts.seats) >= 2
    && ActorAt(ts.seats, ts.currentBet, ts.currentTurn)
  }

  // A finished hand: everything is back in the stacks.
  ghost predicate Over(ts: Table) {
    && ts.stage == HandOver && ts.currentTurn == -1
    && ts.smallBlind >= 1 && ts.bigBlind >= 1
    && DistinctSeats(ts.seats) && DistinctUsers(ts.seats)
    && forall i :: 0 <= i < |ts.seats| ==> ts.seats[i].stack >= 0 && ts.seats[i].total == 0 && ts.seats[i].committed == 0
  }

  // ---------------------------------------------------------------------
  // The effect of one action on the seats
  // ---------------------------------------------------------------------

  // Seat p moved chips forward or answered without chips; nobody else's
  // chips or standing changed.
  ghost predicate ActedAt(ts: Table, after: Table, p: nat)
    requires p < |ts.seats|
  {
    && |after.seats| == |ts.seats|
    && after == ts.(seats := after.seats, currentBet := after.currentBet, minRaise := after.minRaise, lastAggressor := after.lastAggressor)
    && after.currentBet >= ts.currentBet && after.minRaise >= 1
    && (forall i :: 0 <= i < |ts.seats| && i != p ==> after.seats[i] == ts.seats[i].(hasActed := after.seats[i].hasActed))
    && var s, s' := ts.seats[p], after.seats[p];
       && s' == s.(stack := s'.stack, committed := s'.committed, total := s'.total, status := s'.status, hasActed := true)
       && 0 <= s'.stack <= s.stack
       && s'.committed - s.committed == s'.total - s.total == s.stack - s'.stack
       && s'.committed <= after.currentBet
       && (s'.status == Folded || s'.status == if s'.stack == 0 then AllIn else Active)
       && (s'.stack == s.stack ==>
             && after.currentBet == ts.currentBet && (s'.status == Folded || s'.committed == after.currentBet)
             && forall i :: 0 <= i < |ts.seats| && i != p ==> after.seats[i] == ts.seats[i])
  }

  lemma ActionActs(ts: Table, p: nat, a: Action, after: Table)
    requires InProgress(ts) && p < |ts.seats| && ts.seats[p].Actionable(ts.currentBet)
    requires ApplyAction(ts, p, a) == Ok(after)
    ensures ActedAt(ts, after, p)
    ensures after.seats[p].status == Folded <==> a == Fold
  {
    assert SeatOk(ts.seats[p], ts.currentBet);
    if a.Bet? || a.Raise? {
      forall i | 0 <= i < |ts.seats| && i != p
        ensures ts.seats[i].index != ts.seats[p].index
      {
      }
    }
  }

  lemma ActedKeeps(ts: Table, after: Table, p: nat)
    requires InProgress(ts) && p < |ts.seats| && ActedAt(ts, after, p)
    ensures InProgress(after)
  {
    forall i | 0 <= i < |after.seats|
      ensures SeatOk(after.seats[i], after.currentBet)
    {
      assert SeatOk(ts.seats[i], ts.currentBet);
    }
    var a, b :| 0 <= a < b < |ts.seats| && ts.seats[a].total > 0 && ts.seats[b].total > 0;
    assert after.seats[a].total > 0 && after.seats[b].total > 0;
    forall i, j | 0 <= i < j < |after.seats|
      ensures after.seats[i].index != after.seats[j].index && after.seats[i].user != after.seats[j].user
    {
      assert ts.seats[i].index != ts.seats[j].index;
    }
  }

  lemma ActedChips(ts: Table, after: Table, p: nat)
    requires p < |ts.seats| && ActedAt(ts, after, p)
    ensures Sum(Stacks(after.seats)) == Sum(Stacks(ts.seats)) - (ts.seats[p].stack - after.seats[p].stack)
    ensures Chips(after.seats) == Chips(ts.seats)
  {
    SumUpdate(Stacks(ts.seats), p, after.seats[p].stack);
    SumUpdate(Totals(ts.seats), p, after.seats[p].total);
    assert Stacks(after.seats) == Stacks(ts.seats)[p := after.seats[p].stack];
    assert Totals(after.seats) == Totals(ts.seats)[p := after.seats[p].total];
  }

  lemma ActedLive(ts: Table, after: Table, p: nat)
    requires p < |ts.seats| && ActedAt(ts, after, p) && ts.seats[p].Live()
    ensures NonFolded(after.seats) == NonFolded(ts.seats) - Indicator(after.seats[p].status == Folded)
  {
    SumUpdate(LiveFlags(ts.seats), p, Indicator(after.seats[p].Live()));
    assert LiveFlags(after.seats) == LiveFlags(ts.seats)[p := Indicator(after.seats[p].Live())];
  }

  function Waiting(seats: seq<Seat>, currentBet: int): int { Sum(ActionableFlags(seats, currentBet)) }

  // Either chips moved forward, or one player fewer is waiting to act.
  lemma ActedProgress(ts: Table, after: Table, p: nat)
    requires p < |ts.seats| && ActedAt(ts, after, p) && ts.seats[p].Actionable(ts.currentBet)
    ensures after.seats[p].stack < ts.seats[p].stack ||
            Waiting(after.seats, after.currentBet) == Waiting(ts.seats, ts.currentBet) - 1
  {
    if after.seats[p].stack == ts.seats[p].stack {
      SumUpdate(ActionableFlags(ts.seats, ts.currentBet), p, 0);
      assert ActionableFlags(after.seats, after.currentBet) == ActionableFlags(ts.seats, ts.currentBet)[p := 0];
    }
  }

  // ---------------------------------------------------------------------
  // Moving on
  // ---------------------------------------------------------------------

  lemma SomebodyLive(seats: seq<Seat>)
    requires NonFolded(seats) >= 1
    ensures exists i :: 0 <= i < |seats| && seats[i].Live()
  {
    if forall i :: 0 <= i < |seats| ==> !seats[i].Live() {
      SumBounds(LiveFlags(seats), 0, 0);
    }
  }

  lemma InProgressAccounted(ts: Table)
    requires InProgress(ts) && NonFolded(ts.seats) >= 1
    ensures Accounted(ts.seats)
  {
    SomebodyLive(ts.seats);
    forall i | 0 <= i < |ts.seats|
      ensures ts.seats[i].stack >= 0 && ts.seats[i].total >= 0 && (ts.seats[i].status == SittingOut ==> ts.seats[i].total == 0)
    {
      assert SeatOk(ts.seats[i], ts.currentBet);
    }
  }

  lemma UncontestedOver(ts: Table, w: nat)
    requires InProgress(ts) && w < |ts.seats|
    ensures Over(EndUncontested(ts, w)) && Chips(EndUncontested(ts, w).seats) == Chips(ts.seats)
  {
    var pot := Sum(Totals(ts.seats));
    forall i | 0 <= i < |ts.seats|
      ensures ts.seats[i].total >= 0 && ts.seats[i].stack >= 0
    {
      assert SeatOk(ts.seats[i], ts.currentBet);
    }
    SumNonNegative(Totals(ts.seats));
    SumUpdate(Stacks(ts.seats), w, ts.seats[w].stack + pot);
    var after := EndUncontested(ts, w).seats;
    assert Stacks(after) == Stacks(ts.seats)[w := ts.seats[w].stack + pot];
    SumBounds(Totals(after), 0, 0);
    forall i, j | 0 <= i < j < |after|
      ensures after[i].index != after[j].index && after[i].user != after[j].user
    {
      assert ts.seats[i].index != ts.seats[j].index;
    }
  }

  lemma ShowdownOver(ts: Table, eval: Evaluator)
    requires Accounted(ts.seats) && DistinctUsers(ts.seats) && ts.smallBlind >= 1 && ts.bigBlind >= 1
    ensures Over(RunShowdown(ts, eval)) && |RunShowdown(ts, eval).seats| == |ts.seats|
    ensures Chips(RunShowdown(ts, eval).seats) == Chips(ts.seats) - Stranded(ts.seats)
  {
    ShowdownAccount(ts, eval);
    ShowdownClears(ts, eval);
    AllOver(ts, RunShowdown(ts, eval));
  }

  lemma ShowdownClears(ts: Table, eval: Evaluator)
    ensures Closed(ts, RunShowdown(ts, eval))
  {
  }

  // Nothing is left in front of any seat.
  ghost predicate Closed(ts: Table, after: Table) {
    && after.stage == HandOver && after.currentTurn == -1
    && after.smallBlind == ts.smallBlind && after.bigBlind == ts.bigBlind
    && forall i :: 0 <= i < |after.seats| ==> after.seats[i].total == 0 && after.seats[i].committed == 0
  }

  lemma AllOver(ts: Table, after: Table)
    requires Accounted(ts.seats) && DistinctUsers(ts.seats) && ts.smallBlind >= 1 && ts.bigBlind >= 1
    requires |after.seats| == |ts.seats| && forall i :: 0 <= i < |ts.seats| ==> SameSeat(ts.seats[i], after.seats[i])
    requires Closed(ts, after)
    ensures Over(after)
  {
    forall i | 0 <= i < |after.seats|
      ensures after.seats[i].stack >= 0 && after.seats[i].index >= 0
    {
      assert SameSeat(ts.seats[i], after.seats[i]);
    }
    forall i, j | 0 <= i < j < |after.seats|
      ensures after.seats[i].index != after.seats[j].index && after.seats[i].user != after.seats[j].user
    {
      assert SameSeat(ts.seats[i], after.seats[i]) && SameSeat(ts.seats[j], after.seats[j]);
      assert ts.seats[i].index != ts.seats[j].index;
    }
  }

  // Dealing out the rest of the board never runs out of cards and ends the hand.
  lemma {:induction false} RunOutOver(ts: Table, eval: Evaluator)
    requires |ts.deck| >= CardsLeft(ts.stage)
    requires Accounted(ts.seats) && DistinctUsers(ts.seats) && ts.smallBlind >= 1 && ts.bigBlind >= 1
    ensures Over(RunOut(ts, eval)) && |RunOut(ts, eval).seats| == |ts.seats|
    ensures Chips(RunOut(ts, eval).seats) == Chips(ts.seats) - Stranded(ts.seats)
    decreases StreetsLeft(ts.stage)
  {
    if IsStreet(ts.stage) {
      RunOutOver(NextStreet(ts), eval);
    } else {
      ShowdownOver(ts, eval);
    }
  }

  lemma NewRoundKeeps(ts: Table, after: Table)
    requires InProgress(ts)
    requires after == ts.(seats := NewRound(ts.seats), currentBet := 0, minRaise := ts.bigBlind, lastAggressor := -1)
    ensures InProgress(after)
  {
    forall i | 0 <= i < |after.seats|
      ensures SeatOk(after.seats[i], 0)
    {
      assert SeatOk(ts.seats[i], ts.currentBet);
    }
    var a, b :| 0 <= a < b < |ts.seats| && ts.seats[a].total > 0 && ts.seats[b].total > 0;
    assert after.seats[a].total > 0 && after.seats[b].total > 0;
  }

  lemma NewRoundChips(seats: seq<Seat>)
    ensures Chips(NewRound(seats)) == Chips(seats) && Sum(Stacks(NewRound(seats))) == Sum(Stacks(seats))
    ensures NonFolded(NewRound(seats)) == NonFolded(seats)
  {
    assert Stacks(NewRound(seats)) == Stacks(seats);
    assert Totals(NewRound(seats)) == Totals(seats);
    assert LiveFlags(NewRound(seats)) == LiveFlags(seats);
  }

  lemma NewRoundDead(seats: seq<Seat>)
    ensures TwoDeadAbove(NewRound(seats)) <==> TwoDeadAbove(seats)
  {
    UnfoldedUnchanged(seats, NewRound(seats));
    forall i | 0 <= i < |seats|
      ensures DeadAbove(seats, i) <==> DeadAbove(NewRound(seats), i)
    {
    }
  }

  lemma NewRoundActor(seats: seq<Seat>)
    requires CanActCount(NewRound(seats)) >= 1
    ensures SomeActor(NewRound(seats), 0)
  {
    var after := NewRound(seats);
    if forall i :: 0 <= i < |after| ==> !after[i].CanAct() {
      SumBounds(CanActFlags(after), 0, 0);
    } else {
      var i :| 0 <= i < |after| && after[i].CanAct();
      assert after[i].Actionable(0);
    }
  }

  // Showdown comes next: the river is done, or at most one player can bet.
  ghost predicate GoesToShowdown(after: Table) {
    after.stage == River || CanActCount(NewRound(after.seats)) < 2
  }

  lemma AdvanceKeeps(ts: Table, eval: Evaluator)
    requires InProgress(ts) && NonFolded(ts.seats) >= 2
    ensures |AdvanceStage(ts, eval).seats| == |ts.seats|
    ensures var after := AdvanceStage(ts, eval);
            if GoesToShowdown(ts)
            then Over(after) && Chips(after.seats) == Chips(ts.seats) - Stranded(NewRound(ts.seats))
            else
              && Playing(after) && Chips(after.seats) == Chips(ts.seats)
              && Sum(Stacks(after.seats)) == Sum(Stacks(ts.seats))
              && StreetsLeft(after.stage) == StreetsLeft(ts.stage) - 1
  {
    var reset := ts.(seats := NewRound(ts.seats), currentBet := 0, minRaise := ts.bigBlind, lastAggressor := -1);
    NewRoundKeeps(ts, reset);
    NewRoundChips(ts.seats);
    InProgressAccounted(reset);
    if ts.stage == River {
      ShowdownOver(reset, eval);
    } else {
      var next := NextStreet(reset);
      if CanActCount(next.seats) < 2 {
        RunOutOver(next, eval);
      } else {
        NewRoundActor(ts.seats);
        NextActorFound(next.seats, 0, next.button);
      }
    }
  }

  // ---------------------------------------------------------------------
  // One accepted action
  // ---------------------------------------------------------------------

  ghost predicate Less(after: Table, ts: Table) {
    || StreetsLeft(after.stage) < StreetsLeft(ts.stage)
    || (after.stage == ts.stage && Sum(Stacks(after.seats)) < Sum(Stacks(ts.seats)))
    || (after.stage == ts.stage && Sum(Stacks(after.seats)) == Sum(Stacks(ts.seats)) &&
        Waiting(after.seats, after.currentBet) < Waiting(ts.seats, ts.currentBet))
  }

  // The round is over and there is more than one player left.
  ghost predicate RoundDone(ts: Table, p: nat)
    requires p < |ts.seats|
  {
    NonFolded(ts.seats) != 1 && NextActor(ts.seats, ts.currentBet, ts.seats[p].index) < 0
  }

  // How a hand goes on after seat p has acted.
  ghost predicate Outcome(ts: Table, p: nat, after: Table)
    requires p < |ts.seats|
  {
    && |after.seats| == |ts.seats|
    && if RoundDone(ts, p) && GoesToShowdown(ts) then
      Over(after) && Chips(after.seats) == Chips(ts.seats) - Stranded(NewRound(ts.seats))
    else
      && Chips(after.seats) == Chips(ts.seats)
      && (Over(after) ||
          (Playing(after) && Sum(Stacks(after.seats)) == Sum(Stacks(ts.seats)) &&
           (StreetsLeft(after.stage) < StreetsLeft(ts.stage) ||
            (after.stage == ts.stage && Waiting(after.seats, after.currentBet) == Waiting(ts.seats, ts.currentBet)))))
  }

  lemma ResolveKeeps(ts: Table, p: nat, eval: Evaluator)
    requires InProgress(ts) && NonFolded(ts.seats) >= 1 && p < |ts.seats|
    ensures Outcome(ts, p, Resolve(ts, p, eval))
  {
    NextActorFound(ts.seats, ts.currentBet, ts.seats[p].index);
    if NonFolded(ts.seats) == 1 {
      SomebodyLive(ts.seats);
      UncontestedOver(ts, LastLive(ts.seats).value);
    } else if RoundDone(ts, p) {
      AdvanceKeeps(ts, eval);
    }
  }

  // The seats of a showdown that an action leads to, if it does.
  ghost function ShowdownSeats(ts: Table, p: nat, a: Action): Option<seq<Seat>>
    requires p < |ts.seats|
  {
    match ApplyAction(ts, p, a)
    case Err(_) => None
    case Ok(after) =>
      if p < |after.seats| && RoundDone(after, p) && GoesToShowdown(after)
      then Some(NewRound(after.seats)) else None
  }

  ghost function Lost(ts: Table, p: nat, a: Action): int
    requires p < |ts.seats|
  {
    match ShowdownSeats(ts, p, a) case None => 0 case Some(seats) => Stranded(seats)
  }

  // Every accepted action leaves a hand in progress or a finished one, moves
  // strictly closer to the end, and accounts for every chip.
  lemma StepKeeps(ts: Table, p: nat, a: Action, eval: Evaluator, ts': Table)
    requires Playing(ts) && p < |ts.seats|
    requires Apply(ts, ts.seats[p].user, a, eval) == Ok(ts')
    ensures ts.seats[p].index == ts.currentTurn && ApplyAction(ts, p, a).Ok?
    ensures Playing(ts') || Over(ts')
    ensures Less(ts', ts) && |ts'.seats| == |ts.seats|
    ensures Chips(ts'.seats) == Chips(ts.seats) - Lost(ts, p, a)
    ensures Playing(ts') ==> Lost(ts, p, a) == 0
  {
    TurnIsMine(ts, p);
    var after := ApplyAction(ts, p, a).value;
    ActionActs(ts, p, a, after);
    ActedKeeps(ts, after, p);
    ActedLive(ts, after, p);
    ResolveKeeps(after, p, eval);
    MovesOn(ts, after, p, ts');
  }

  // An action and what followed it, put together.
  lemma MovesOn(ts: Table, after: Table, p: nat, ts': Table)
    requires Playing(ts) && p < |ts.seats| && ts.seats[p].Actionable(ts.currentBet)
    requires ActedAt(ts, after, p) && Outcome(after, p, ts')
    ensures Less(ts', ts)
    ensures Chips(ts'.seats) == Chips(ts.seats) - if RoundDone(after, p) && GoesToShowdown(after) then Stranded(NewRound(after.seats)) else 0
  {
    ActedChips(ts, after, p);
    ActedProgress(ts, after, p);
  }

  lemma TurnIsMine(ts: Table, p: nat)
    requires Playing(ts) && p < |ts.seats|
    ensures SeatOfUser(ts.seats, ts.seats[p].user) == Some(p)
    ensures ts.seats[p].index == ts.currentTurn ==> ts.seats[p].Actionable(ts.currentBet)
  {
    var q := SeatOfUser(ts.seats, ts.seats[p].user).value;
    assert q == p;
    if ts.seats[p].index == ts.currentTurn {
      var i :| 0 <= i < |ts.seats| && ts.seats[i].index == ts.currentTurn && ts.seats[i].Actionable(ts.currentBet);
      assert i == p;
    }
  }

  // A chip is lost exactly when the action leads to a showdown in which two
  // folded seats stand above every live one.
  lemma LostIff(ts: Table, p: nat, a: Action)
    requires Playing(ts) && p < |ts.seats| && ts.seats[p].Actionable(ts.currentBet)
    ensures Lost(ts, p, a) >= 0
    ensures Lost(ts, p, a) > 0 <==> ShowdownSeats(ts, p, a).Some? && TwoDeadAbove(ApplyAction(ts, p, a).value.seats)
  {
    if ShowdownSeats(ts, p, a).Some? {
      var after := ApplyAction(ts, p, a).value;
      ActionActs(ts, p, a, after);
      ActedKeeps(ts, after, p);
      ActedLive(ts, after, p);
      var reset := after.(seats := NewRound(after.seats), currentBet := 0, minRaise := after.bigBlind, lastAggressor := -1);
      NewRoundKeeps(after, reset);
      NewRoundChips(after.seats);
      NewRoundDead(after.seats);
      InProgressAccounted(reset);
      StrandedIff(reset.seats);
    }
  }
}
