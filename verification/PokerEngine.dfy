// The poker engine as it runs: a table object whose fields the actions
// overwrite. Every method is tied to its specification in the rules.
module PokerEngine {
  import opened Wrappers
  import opened Sorting
  import opened Sums
  import Arithmetic
  import opened PokerTable
  import opened PokerPots
  import opened PokerShowdown
  import opened PokerRules
  import PokerHands
  import Lobby

  class TableState {
    const eval: Evaluator
    var handNo: nat
    var smallBlind: int
    var bigBlind: int
    var button: int
    var seats: seq<Seat>
    var stage: Stage
    var board: seq<int>
    var deck: seq<int>
    var currentBet: int
    var minRaise: int
    var lastAggressor: int
    var currentTurn: int
    var pots: seq<Pot>
    var payouts: Option<map<int, int>>

    // The table these fields describe.
    function Snapshot(): Table
      reads this
    {
      Table(handNo, smallBlind, bigBlind, button, seats, stage, board, deck,
            currentBet, minRaise, lastAggressor, currentTurn, pots, payouts)
    }

    constructor (ts: Table, eval: Evaluator)
      ensures Snapshot() == ts && this.eval == eval
    {
      this.eval := eval;
      handNo, smallBlind, bigBlind, button := ts.handNo, ts.smallBlind, ts.bigBlind, ts.button;
      seats, stage, board, deck := ts.seats, ts.stage, ts.board, ts.deck;
      currentBet, minRaise, lastAggressor, currentTurn := ts.currentBet, ts.minRaise, ts.lastAggressor, ts.currentTurn;
      pots, payouts := ts.pots, ts.payouts;
    }

    // -------------------------------------------------------------------
    // Reading the table
    // -------------------------------------------------------------------

    method InHandSeats() returns (order: seq<int>)
      ensures order == InHand(seats)
    {
      var list := [];
      for i := 0 to |seats|
        invariant list == InHandUnsorted(seats[..i])
      {
        assert seats[..i + 1][..i] == seats[..i];
        if seats[i].status != SittingOut {
          list := list + [seats[i].index];
        }
      }
      assert seats[..|seats|] == seats;
      order := Sort(list);
    }

    method CountCanAct() returns (n: int)
      ensures n == CanActCount(seats)
    {
      n := 0;
      for i := 0 to |seats|
        invariant n == CanActCount(seats[..i])
      {
        SumAppend(CanActFlags(seats[..i]), Indicator(seats[i].CanAct()));
        assert CanActFlags(seats[..i + 1]) == CanActFlags(seats[..i]) + [Indicator(seats[i].CanAct())];
        if seats[i].status == Active && seats[i].stack > 0 {
          n := n + 1;
        }
      }
      assert seats[..|seats|] == seats;
    }

    method NonFoldedCount() returns (n: int)
      ensures n == NonFolded(seats)
    {
      n := 0;
      for i := 0 to |seats|
        invariant n == NonFolded(seats[..i])
      {
        SumAppend(LiveFlags(seats[..i]), Indicator(seats[i].Live()));
        assert LiveFlags(seats[..i + 1]) == LiveFlags(seats[..i]) + [Indicator(seats[i].Live())];
        if seats[i].status == Active || seats[i].status == AllIn {
          n := n + 1;
        }
      }
      assert seats[..|seats|] == seats;
    }

    method MaxCommittedChips() returns (m: int)
      ensures m == MaxCommitted(seats)
    {
      m := 0;
      for i := 0 to |seats|
        invariant m >= 0 && forall k :: 0 <= k < i ==> seats[k].committed <= m
        invariant m > 0 ==> exists k :: 0 <= k < i && seats[k].committed == m
      {
        if seats[i].committed > m {
          m := seats[i].committed;
        }
      }
    }

    // Where the circular scan starts: just past seat `after`, or at the lowest.
    static method StartAfter(order: seq<int>, after: int) returns (start: nat)
      ensures start <= |order|
      ensures if start > 0 then order[start - 1] == after else after !in order
    {
      for i := 0 to |order|
        invariant forall k :: 0 <= k < i ==> order[k] != after
      {
        if order[i] == after {
          return i + 1;
        }
      }
      return 0;
    }

    // The circular scan over the sorted seats finds the next seat clockwise.
    method FindNextActor(after: int) returns (r: int)
      requires DistinctSeats(seats)
      ensures r == NextActor(seats, currentBet, after)
    {
      var order := InHandSeats();
      var start := StartAfter(order, after);
      var n := |order|;
      for k := 0 to n
        invariant forall j :: 0 <= j < k ==> !IsActor(order[Wrap(start, j, n)])
      {
        var pos := (start + k) % n;
        WrapMod(start, k, n);
        var at := SeatAt(seats, order[pos]);
        if at.Some? && seats[at.value].Actionable(currentBet) {
          FoundIsNext(order, start, k, after);
          return order[pos];
        }
        NotActor(order[pos]);
      }
      NoneIsNext(order, start, after);
      return -1;
    }

    // Position start + k around a circle of n places.
    static function Wrap(start: nat, k: nat, n: nat): (pos: nat)
      requires start <= n && k < n
      ensures pos < n
    {
      if start + k < n then start + k else start + k - n
    }

    static lemma WrapMod(start: nat, k: nat, n: nat)
      requires start <= n && k < n
      ensures (start + k) % n == Wrap(start, k, n)
    {
      Arithmetic.WrapsOnce(start + k, n);
    }

    ghost predicate IsActor(index: int)
      reads this
    {
      exists i :: 0 <= i < |seats| && seats[i].index == index && seats[i].Actionable(currentBet)
    }

    lemma {:induction false} NotActor(index: int)
      requires DistinctSeats(seats)
      requires SeatAt(seats, index).Some? ==> !seats[SeatAt(seats, index).value].Actionable(currentBet)
      ensures !IsActor(index)
    {
      forall i | 0 <= i < |seats| && seats[i].index == index
        ensures !seats[i].Actionable(currentBet)
      {
        SeatAtSelf(seats, i);
      }
    }

    // Every seat in the deal sits somewhere on the circle.
    lemma OnCircle(order: seq<int>, start: nat, i: nat) returns (j: nat)
      requires order == InHand(seats) && start <= |order|
      requires i < |seats| && seats[i].status != SittingOut
      ensures j < |order| && order[Wrap(start, j, |order|)] == seats[i].index
    {
      SortMembers(InHandUnsorted(seats));
      assert seats[i].index in order;
      var p :| 0 <= p < |order| && order[p] == seats[i].index;
      j := if p >= start then p - start else p + |order| - start;
    }

    lemma FoundIsNext(order: seq<int>, start: nat, k: nat, after: int)
      requires DistinctSeats(seats) && order == InHand(seats) && start <= |order| && k < |order|
      requires if start > 0 then order[start - 1] == after else after !in order
      requires forall j :: 0 <= j < k ==> !IsActor(order[Wrap(start, j, |order|)])
      requires IsActor(order[Wrap(start, k, |order|)])
      ensures NextActor(seats, currentBet, after) == order[Wrap(start, k, |order|)]
    {
      var r := order[Wrap(start, k, |order|)];
      PokerHands.InHandOrder(seats);
      SortMembers(InHandUnsorted(seats));
      forall i | 0 <= i < |seats| && seats[i].Actionable(currentBet)
        ensures if start > 0 && r > after then seats[i].index <= after || r <= seats[i].index
                else r <= seats[i].index && (start > 0 ==> seats[i].index <= after)
      {
        var j := OnCircle(order, start, i);
        assert IsActor(order[Wrap(start, j, |order|)]);
        assert j >= k;
      }
      LowestIs(if start > 0 && r > after then after else -1, r);
      if start > 0 && r <= after {
        NoneAbove(after);
      }
    }

    // `r` is the lowest actor above `floor`.
    lemma {:induction false} LowestIs(floor: int, r: int)
      requires IsActor(r) && r > floor
      requires forall i :: 0 <= i < |seats| && seats[i].Actionable(currentBet) && seats[i].index > floor ==> r <= seats[i].index
      ensures LowestActor(seats, currentBet, floor) == Some(r)
    {
      var w :| 0 <= w < |seats| && seats[w].index == r && seats[w].Actionable(currentBet);
    }

    lemma {:induction false} NoneAbove(floor: int)
      requires forall i :: 0 <= i < |seats| && seats[i].Actionable(currentBet) ==> seats[i].index <= floor
      ensures LowestActor(seats, currentBet, floor) == None
    {
    }

    lemma NoneIsNext(order: seq<int>, start: nat, after: int)
      requires DistinctSeats(seats) && order == InHand(seats) && start <= |order|
      requires forall j :: 0 <= j < |order| ==> !IsActor(order[Wrap(start, j, |order|)])
      ensures NextActor(seats, currentBet, after) == -1
    {
      forall i | 0 <= i < |seats| && seats[i].status != SittingOut
        ensures !seats[i].Actionable(currentBet)
      {
        var j := OnCircle(order, start, i);
        assert !IsActor(order[Wrap(start, j, |order|)]);
      }
    }

    // -------------------------------------------------------------------
    // Cards
    // -------------------------------------------------------------------

    method DrawCard() returns (card: int)
      requires deck != []
      modifies this`deck
      ensures card == old(deck[0]) && deck == old(deck[1..])
    {
      card := deck[0];
      deck := deck[1..];
    }

    method DealCommunity(n: nat)
      requires n <= |deck|
      modifies this`board, this`deck
      ensures Snapshot() == DealBoard(old(Snapshot()), n)
    {
      for i := 0 to n
        invariant board == old(board) + old(deck)[..i] && deck == old(deck)[i..]
      {
        var card := DrawCard();
        board := board + [card];
      }
    }

    // -------------------------------------------------------------------
    // Showdown
    // -------------------------------------------------------------------

    method ClearCommitments()
      modifies this`seats
      ensures seats == Cleared(old(seats))
    {
      for i := 0 to |seats|
        invariant |seats| == |old(seats)|
        invariant forall k :: 0 <= k < i ==> seats[k] == old(seats)[k].(committed := 0, total := 0)
        invariant forall k :: i <= k < |seats| ==> seats[k] == old(seats)[k]
      {
        seats := seats[i := seats[i].(committed := 0, total := 0)];
      }
    }

    method PotTotal() returns (pot: int)
      ensures pot == Sum(Totals(seats))
    {
      pot := 0;
      for i := 0 to |seats|
        invariant pot == Sum(Totals(seats[..i]))
      {
        SumAppend(Totals(seats[..i]), seats[i].total);
        assert Totals(seats[..i + 1]) == Totals(seats[..i]) + [seats[i].total];
        pot := pot + seats[i].total;
      }
      assert seats[..|seats|] == seats;
    }

    method EndHandUncontested(winner: nat)
      requires winner < |seats|
      modifies this
      ensures Snapshot() == EndUncontested(old(Snapshot()), winner)
    {
      var pot := PotTotal();
      seats := seats[winner := seats[winner].(stack := seats[winner].stack + pot)];
      payouts := Some(map[seats[winner].index := pot]);
      ClearCommitments();
      stage := HandOver;
      currentTurn := -1;
    }

    method PositiveContributions() returns (list: seq<int>)
      ensures list == Positives(Totals(seats))
    {
      list := [];
      for i := 0 to |seats|
        invariant list == Positives(Totals(seats)[..i])
      {
        assert Totals(seats)[..i + 1][..i] == Totals(seats)[..i];
        if seats[i].total > 0 {
          list := list + [seats[i].total];
        }
      }
      assert Totals(seats)[..|seats|] == Totals(seats);
    }

    // Only a single highest contributor can have an uncalled amount.
    method GiveBack(p: nat, refund: int)
      requires p < |seats|
      modifies this`seats
      ensures seats == Refund(old(seats), p, old(seats[p].total) - refund)
    {
      var s := seats[p];
      seats := seats[p := s.(stack := s.stack + refund, total := s.total - refund)];
    }

    method RefundUncalled()
      modifies this`seats
      ensures seats == ReturnUncalled(old(seats))
    {
      var list := PositiveContributions();
      var sorted := Sort(list);
      SortMembers(list);
      var n := |list|;
      if n < 2 {
        FewContributors(seats);
        return;
      }
      SortedPositives(Totals(seats));
      ghost var at := RefundIs(seats, sorted);
      var p := PosWithTotal(seats, sorted[n - 1]).value;
      if sorted[n - 1] > sorted[n - 2] {
        var refund := sorted[n - 1] - sorted[n - 2];
        GiveBack(p, refund);
      }
    }

    static method HandValues(seats: seq<Seat>, board: seq<int>, eval: Evaluator) returns (values: map<int, int>)
      ensures values == Values(seats, board, eval)
    {
      values := map[];
      for i := 0 to |seats|
        invariant values == Values(seats[..i], board, eval)
      {
        assert seats[..i + 1][..i] == seats[..i];
        if seats[i].status == Active || seats[i].status == AllIn {
          values := values[seats[i].index := eval(seats[i].hole + board)];
        }
      }
      assert seats[..|seats|] == seats;
    }

    static method BestHands(eligible: seq<int>, values: map<int, int>) returns (winners: seq<int>)
      ensures winners == Winners(eligible, values)
    {
      winners := [];
      var best := 0;
      for i := 0 to |eligible|
        invariant winners == Winners(eligible[..i], values)
        invariant winners != [] ==> BestValue(eligible[..i], values) == Some(best)
      {
        var idx := eligible[i];
        assert eligible[..i + 1] == eligible[..i] + [idx];
        WinnersStep(eligible[..i], idx, values);
        if idx in values {
          var v := values[idx];
          if winners == [] || v > best {
            best, winners := v, [idx];
          } else if v == best {
            winners := winners + [idx];
          }
        }
      }
      assert eligible[..|eligible|] == eligible;
    }

    method DistributePot(amount: int, winners: seq<int>, before: map<int, int>) returns (after: map<int, int>)
      requires winners != []
      modifies this`seats
      ensures Paid(seats, after) == Distribute(Paid(old(seats), before), amount, winners)
    {
      var sorted := Sort(winners);
      SortMembers(winners);
      var share, odd := amount / |sorted|, amount % |sorted|;
      after := before;
      for i := 0 to |sorted|
        invariant Paid(seats, after) == PayFirst(Paid(old(seats), before), sorted, share, odd, i)
      {
        var w := if i < odd then share + 1 else share;
        var at := SeatAt(seats, sorted[i]);
        if at.Some? {
          after := after[sorted[i] := (if sorted[i] in after then after[sorted[i]] else 0) + w];
          seats := seats[at.value := seats[at.value].(stack := seats[at.value].stack + w)];
        }
      }
    }

    method AwardPots(layers: seq<Pot>, values: map<int, int>) returns (paid: map<int, int>)
      modifies this`seats
      ensures Paid(seats, paid) == Award(Paid(old(seats), map[]), layers, values)
    {
      paid := map[];
      for i := 0 to |layers|
        invariant Paid(seats, paid) == Award(Paid(old(seats), map[]), layers[..i], values)
      {
        assert layers[..i + 1][..i] == layers[..i];
        var winners := BestHands(layers[i].eligible, values);
        if winners != [] {
          paid := DistributePot(layers[i].amount, winners, paid);
        }
      }
      assert layers[..|layers|] == layers;
    }

    // Returns the uncalled bet, builds the pots and pays them out.
    method SettlePots() returns (layers: seq<Pot>, paid: map<int, int>)
      modifies this`seats
      ensures Paid(seats, paid) == ShowdownPaid(old(Snapshot()), eval) && layers == PotsAtShowdown(old(seats))
    {
      RefundUncalled();
      layers := BuildPots(seats);
      var values := HandValues(seats, board, eval);
      paid := AwardPots(layers, values);
    }

    method Showdown()
      modifies this
      ensures Snapshot() == RunShowdown(old(Snapshot()), eval)
    {
      var layers, paid := SettlePots();
      ClearCommitments();
      CloseHand(layers, paid);
    }

    method CloseHand(layers: seq<Pot>, paid: map<int, int>)
      modifies this`pots, this`stage, this`currentTurn, this`payouts
      ensures Snapshot() == old(Snapshot()).(pots := layers, stage := HandOver, currentTurn := -1, payouts := Some(paid))
    {
      pots := layers;
      stage := HandOver;
      currentTurn := -1;
      payouts := Some(paid);
    }

    // -------------------------------------------------------------------
    // From street to street
    // -------------------------------------------------------------------

    // The next street and its cards.
    method DealStreet()
      requires IsStreet(stage) && |deck| >= CardsLeft(stage)
      modifies this`stage, this`board, this`deck
      ensures Snapshot() == NextStreet(old(Snapshot()))
    {
      match stage {
        case Preflop => DealCommunity(3); stage := Flop;
        case Flop => DealCommunity(1); stage := Turn;
        case Turn => DealCommunity(1); stage := River;
        case River => stage := Stage.Showdown; assert deck[0..] == deck && board + deck[..0] == board;
      }
    }

    static lemma {:induction false} NextStreetRunsOut(ts: Table, eval: Evaluator)
      requires IsStreet(ts.stage) && |ts.deck| >= CardsLeft(ts.stage)
      ensures |NextStreet(ts).deck| >= CardsLeft(NextStreet(ts).stage) && NextStreet(ts).stage != HandOver
      ensures StreetsLeft(NextStreet(ts).stage) < StreetsLeft(ts.stage)
      ensures RunOut(ts, eval) == RunOut(NextStreet(ts), eval)
    {
    }

    method RunOutAndShowdown()
      requires stage != HandOver && |deck| >= CardsLeft(stage)
      modifies this
      ensures Snapshot() == RunOut(old(Snapshot()), eval)
    {
      while stage != Stage.Showdown
        invariant stage != HandOver && |deck| >= CardsLeft(stage)
        invariant RunOut(Snapshot(), eval) == RunOut(old(Snapshot()), eval)
        decreases StreetsLeft(stage)
      {
        NextStreetRunsOut(Snapshot(), eval);
        DealStreet();
      }
      Showdown();
    }

    method ResetRound()
      modifies this
      ensures Snapshot() == old(Snapshot()).(seats := NewRound(old(seats)), currentBet := 0, minRaise := bigBlind, lastAggressor := -1)
    {
      for i := 0 to |seats|
        invariant |seats| == |old(seats)| && Snapshot() == old(Snapshot()).(seats := seats)
        invariant forall k :: 0 <= k < i ==> seats[k] == NewRound(old(seats))[k]
        invariant forall k :: i <= k < |seats| ==> seats[k] == old(seats)[k]
      {
        seats := seats[i := seats[i].(committed := 0)];
        if seats[i].status == Active {
          seats := seats[i := seats[i].(hasActed := false)];
        }
      }
      assert seats == NewRound(old(seats));
      currentBet := 0;
      minRaise := bigBlind;
      lastAggressor := -1;
    }

    method Advance()
      requires DistinctSeats(seats) && |deck| >= CardsLeft(stage)
      modifies this
      ensures Snapshot() == AdvanceStage(old(Snapshot()), eval)
    {
      ResetRound();
      if stage == River {
        Showdown();
        return;
      } else if !IsStreet(stage) {
        return;
      }
      DealStreet();
      var n := CountCanAct();
      if n < 2 {
        RunOutAndShowdown();
        return;
      }
      currentTurn := FindNextActor(button);
    }

    // -------------------------------------------------------------------
    // A player's action
    // -------------------------------------------------------------------

    method Commit(p: nat, pay: int)
      requires p < |seats|
      modifies this`seats
      ensures seats == old(seats)[p := old(seats)[p].Pay(pay)]
    {
      var s := seats[p];
      s := s.(stack := s.stack - pay, committed := s.committed + pay, total := s.total + pay);
      if s.stack == 0 {
        s := s.(status := AllIn);
      }
      seats := seats[p := s];
    }

    method Reopen(raiser: int)
      modifies this`seats
      ensures seats == Reopened(old(seats), raiser)
    {
      for i := 0 to |seats|
        invariant |seats| == |old(seats)|
        invariant forall k :: 0 <= k < i ==> seats[k] == Reopened(old(seats), raiser)[k]
        invariant forall k :: i <= k < |seats| ==> seats[k] == old(seats)[k]
      {
        if seats[i].index != raiser && seats[i].status == Active {
          seats := seats[i := seats[i].(hasActed := false)];
        }
      }
    }

    method MarkActed(p: nat)
      requires p < |seats|
      modifies this`seats
      ensures seats == Acted(old(seats), p)
    {
      seats := seats[p := seats[p].(hasActed := true)];
    }

    // A bet or a full raise.
    method BetFull(p: nat, to: int, increment: int)
      requires p < |seats|
      modifies this
      ensures Snapshot() == Aggress(old(Snapshot()), p, to, increment)
    {
      Commit(p, to - seats[p].committed);
      currentBet := to;
      minRaise := increment;
      lastAggressor := seats[p].index;
      Reopen(seats[p].index);
      MarkActed(p);
    }

    method BetTo(p: nat, to: int) returns (refused: Option<Error>)
      requires p < |seats|
      modifies this
      ensures Done(old(Snapshot()), refused, ApplyAction(old(Snapshot()), p, Bet(to)))
    {
      if currentBet != 0 {
        return Some(IllegalAction);
      }
      var pay := to - seats[p].committed;
      if pay <= 0 || pay > seats[p].stack {
        return Some(IllegalAction);
      }
      if to < bigBlind && pay != seats[p].stack {
        return Some(IllegalAction);
      }
      BetFull(p, to, to);
      return None;
    }

    method RaiseTo(p: nat, to: int) returns (refused: Option<Error>)
      requires p < |seats|
      modifies this
      ensures Done(old(Snapshot()), refused, ApplyAction(old(Snapshot()), p, Raise(to)))
    {
      if currentBet == 0 {
        return Some(IllegalAction);
      }
      var pay := to - seats[p].committed;
      if to <= currentBet || pay > seats[p].stack {
        return Some(IllegalAction);
      }
      var increment := to - currentBet;
      if increment < minRaise && pay != seats[p].stack {
        return Some(IllegalAction);
      }
      if increment >= minRaise {
        BetFull(p, to, increment);
        return None;
      }
      Commit(p, pay);
      currentBet := to;
      MarkActed(p);
      return None;
    }

    // A refused action leaves the table as it was.
    ghost predicate Done(before: Table, refused: Option<Error>, r: Result<Table, Error>)
      reads this
    {
      match r
      case Ok(after) => refused.None? && Snapshot() == after
      case Err(e) => refused == Some(e) && Snapshot() == before
    }

    method Act(p: nat, a: Action) returns (refused: Option<Error>)
      requires p < |seats|
      modifies this
      ensures Done(old(Snapshot()), refused, ApplyAction(old(Snapshot()), p, a))
    {
      var toCall := currentBet - seats[p].committed;
      match a {
        case Fold =>
          seats := seats[p := seats[p].(status := Folded, hasActed := true)];
        case Check =>
          if toCall > 0 {
            return Some(IllegalAction);
          }
          MarkActed(p);
        case Call =>
          Commit(p, if toCall > seats[p].stack then seats[p].stack else toCall);
          MarkActed(p);
        case Bet(to) => refused := BetTo(p, to); return;
        case Raise(to) => refused := RaiseTo(p, to); return;
        case Unknown => return Some(IllegalAction);
      }
      return None;
    }

    // -------------------------------------------------------------------
    // Dealing
    // -------------------------------------------------------------------

    method ClearSeats()
      modifies this`seats
      ensures seats == Fresh(old(seats))
    {
      for i := 0 to |seats|
        invariant |seats| == |old(seats)|
        invariant forall k :: 0 <= k < i ==> seats[k] == Fresh(old(seats))[k]
        invariant forall k :: i <= k < |seats| ==> seats[k] == old(seats)[k]
      {
        var s := seats[i].(committed := 0, total := 0, hole := [], hasActed := false);
        if s.stack > 0 {
          s := s.(status := Active);
        } else {
          s := s.(status := SittingOut);
        }
        seats := seats[i := s];
      }
    }

    // One card each, clockwise from position `start`, after `done` cards.
    method DealRound(order: seq<int>, start: nat, ghost seats0: seq<Seat>, ghost deck0: seq<int>, ghost done: nat)
      requires order != [] && done + |order| <= |deck0|
      requires forall k :: 0 <= k < |order| ==> SamePlace(order, start, done, k)
      requires seats == DealHoles(seats0, order, start, deck0, done) && deck == deck0[done..]
      modifies this`seats, this`deck
      ensures seats == DealHoles(seats0, order, start, deck0, done + |order|) && deck == deck0[done + |order|..]
    {
      var n := |order|;
      ghost var dealt := done;
      for k := 0 to n
        invariant dealt == done + k && seats == DealHoles(seats0, order, start, deck0, dealt) && deck == deck0[dealt..]
      {
        assert SamePlace(order, start, done, k);
        DealOne(order, start + k, start, seats0, deck0, dealt);
        dealt := dealt + 1;
      }
    }

    // The next card of the deal.
    method DealOne(order: seq<int>, at: nat, ghost start: nat, ghost seats0: seq<Seat>, ghost deck0: seq<int>, ghost d: nat)
      requires order != [] && d < |deck0| && Around(order, at) == Around(order, start + d)
      requires seats == DealHoles(seats0, order, start, deck0, d) && deck == deck0[d..]
      modifies this`seats, this`deck
      ensures seats == DealHoles(seats0, order, start, deck0, d + 1) && deck == deck0[d + 1..]
    {
      var card := DrawCard();
      seats := GiveCard(seats, Around(order, at), card);
      assert card == deck0[d];
    }

    static ghost predicate SamePlace(order: seq<int>, start: nat, done: nat, k: nat)
      requires order != []
    {
      Around(order, start + (done + k)) == Around(order, start + k)
    }

    static lemma SamePlaces(order: seq<int>, start: nat, done: nat)
      requires order != [] && (done == 0 || done == |order|)
      ensures forall k :: 0 <= k < |order| ==> SamePlace(order, start, done, k)
    {
      var n := |order|;
      forall k | 0 <= k < n
        ensures SamePlace(order, start, done, k)
      {
        Arithmetic.AddCircle(start + k, n);
        assert start + (n + k) == start + k + n;
      }
    }

    // Two rounds, clockwise from the small blind.
    method DealHoleCards(order: seq<int>, start: nat)
      requires order != [] && 2 * |order| <= |deck|
      modifies this`seats, this`deck
      ensures seats == DealHoles(old(seats), order, start, old(deck), 2 * |order|)
      ensures deck == old(deck)[2 * |order|..]
    {
      ghost var done := 0;
      for round := 0 to 2
        invariant done == if round == 0 then 0 else if round == 1 then |order| else 2 * |order|
        invariant seats == DealHoles(old(seats), order, start, old(deck), done) && deck == old(deck)[done..]
      {
        SamePlaces(order, start, done);
        DealRound(order, start, old(seats), old(deck), done);
        done := done + |order|;
      }
    }

    method PayBlind(index: int, amount: int)
      modifies this`seats
      ensures seats == PostBlind(old(seats), index, amount)
    {
      var at := SeatAt(seats, index);
      if at.Some? {
        Commit(at.value, if amount > seats[at.value].stack then seats[at.value].stack else amount);
      }
    }

    // The order of the deal and where the button, the blinds and the first to act are.
    method PlaceButton(order: seq<int>) returns (sb: nat, bb: nat, first: nat)
      requires |order| >= 2
      modifies this`button
      ensures button == if old(button) in order then old(button) else order[0]
      ensures (sb, bb, first) == Places(old(button), order)
    {
      if button !in order {
        button := order[0];
      }
      var n := |order|;
      var at := PositionOf(order, button);
      if n == 2 {
        sb, bb, first := at % n, (at + 1) % n, at % n;
      } else {
        sb, bb, first := (at + 1) % n, (at + 2) % n, (at + 3) % n;
      }
    }

    // The blinds, and the bet they make.
    method PayBlinds(order: seq<int>, sb: nat, bb: nat)
      requires sb < |order| && bb < |order|
      modifies this`seats, this`currentBet, this`minRaise, this`lastAggressor
      ensures Snapshot() == BlindsPaid(old(Snapshot()), order[sb], order[bb])
    {
      PayBlind(order[sb], smallBlind);
      PayBlind(order[bb], bigBlind);
      currentBet := MaxCommittedChips();
      minRaise := bigBlind;
      lastAggressor := order[bb];
    }

    method ChooseFirst(index: int)
      requires DistinctSeats(seats) && currentBet == MaxCommitted(seats)
      modifies this`currentTurn
      ensures currentTurn == FirstToAct(seats, index)
    {
      var at := SeatAt(seats, index);
      if at.None? {
        currentTurn := -1;
      } else if seats[at.value].status == Active && seats[at.value].stack > 0 {
        currentTurn := index;
      } else {
        currentTurn := FindNextActor(index);
      }
    }

    method DealOut(cards: seq<int>, order: seq<int>, start: nat)
      requires |order| >= 2 && 2 * |order| <= |cards|
      modifies this`board, this`pots, this`payouts, this`stage, this`seats, this`deck
      ensures Snapshot() == DealtOut(old(Snapshot()), order, start, cards)
    {
      board, pots, payouts, stage, deck := [], [], None, Preflop, cards;
      DealHoleCards(order, start);
    }

    method SetUpHand(cards: seq<int>, order: seq<int>) returns (first: nat)
      requires |order| >= 2 && 2 * |order| <= |cards|
      modifies this
      ensures Snapshot() == Blinded(old(Snapshot()), order, cards) && first == Places(old(button), order).2
    {
      var sb, bb;
      sb, bb, first := PlaceButton(order);
      DealOut(cards, order, sb);
      PayBlinds(order, sb, bb);
    }

    method PostHand(cards: seq<int>, order: seq<int>)
      requires DistinctSeats(seats) && |order| >= 2 && 2 * |order| <= |cards|
      modifies this
      ensures Snapshot() == PostedTo(old(Snapshot()), order, cards)
    {
      ghost var ts := Snapshot();
      var first := SetUpHand(cards, order);
      BlindedSeats(ts, order, cards);
      ChooseFirst(order[first]);
      assert Snapshot() == Blinded(ts, order, cards).(currentTurn := currentTurn);
    }

    static lemma BlindedSeats(ts: Table, order: seq<int>, cards: seq<int>)
      requires DistinctSeats(ts.seats) && |order| >= 2 && 2 * |order| <= |cards|
      ensures DistinctSeats(Blinded(ts, order, cards).seats)
    {
      var (sb, bb, _) := Places(ts.button, order);
      PokerHands.DealHolesKeeps(ts.seats, order, sb, cards, 2 * |order|);
      var dealt := DealHoles(ts.seats, order, sb, cards, 2 * |order|);
      var after := PostBlind(PostBlind(dealt, order[sb], ts.smallBlind), order[bb], ts.bigBlind);
      assert |after| == |dealt| && forall i :: 0 <= i < |dealt| ==> after[i].index == dealt[i].index;
    }

    method Deal(cards: seq<int>) returns (refused: Option<Error>)
      requires DistinctSeats(seats) && |cards| >= 2 * |seats| + 5
      modifies this
      ensures match DealHand(old(Snapshot()), cards, eval)
              case Ok(after) => refused.None? && Snapshot() == after
              case Err(e) => refused == Some(e)
    {
      ClearSeats();
      InHandSize(seats);
      var order := InHandSeats();
      if |order| < MIN_SEATS {
        return Some(NotEnoughPlayers);
      }
      PostHand(cards, order);
      var able := CountCanAct();
      if currentTurn < 0 || able < 2 {
        RunOutAndShowdown();
      }
      return None;
    }

    // -------------------------------------------------------------------
    // One action
    // -------------------------------------------------------------------

    // What happens once a seat has acted.
    method GoOn(p: nat)
      requires p < |seats| && DistinctSeats(seats) && |deck| >= CardsLeft(stage)
      modifies this
      ensures Snapshot() == Resolve(old(Snapshot()), p, eval)
    {
      var live := NonFoldedCount();
      var last := LastLive(seats);
      if live == 1 && last.Some? {
        EndHandUncontested(last.value);
        return;
      }
      var next := FindNextActor(seats[p].index);
      if next < 0 {
        Advance();
      } else {
        currentTurn := next;
      }
    }
  }

  // ---------------------------------------------------------------------
  // The two highest contributions
  // ---------------------------------------------------------------------

  // Contributions above zero, in order.
  function Positives(xs: seq<int>): seq<int> {
    if xs == [] then []
    else
      var n := |xs| - 1;
      Positives(xs[..n]) + if xs[n] > 0 then [xs[n]] else []
  }

  ghost predicate SamePositives(a: seq<int>, b: seq<int>) {
    && (forall x :: x in a ==> x > 0)
    && forall x :: x > 0 ==> multiset(a)[x] == multiset(b)[x]
  }

  lemma {:induction false} PositivesSame(xs: seq<int>)
    ensures SamePositives(Positives(xs), xs)
  {
    if xs != [] {
      PositivesSame(xs[..|xs| - 1]);
      assert xs == xs[..|xs| - 1] + [xs[|xs| - 1]];
    }
  }

  lemma {:induction false} SortedPositives(xs: seq<int>)
    ensures SamePositives(Sort(Positives(xs)), xs) && Ascending(Sort(Positives(xs)))
    ensures |Sort(Positives(xs))| == |Positives(xs)|
  {
    PositivesSame(xs);
    SortElements(Positives(xs));
    SortMembers(Positives(xs));
    SortAscending(Positives(xs));
  }

  function Without(xs: seq<int>, p: nat): seq<int>
    requires p < |xs|
  {
    xs[..p] + xs[p + 1..]
  }

  // The last of the sorted contributions is the highest.
  lemma LastIsMax(xs: seq<int>, sorted: seq<int>)
    requires sorted != [] && Ascending(sorted) && SamePositives(sorted, xs)
    ensures sorted[|sorted| - 1] > 0 && sorted[|sorted| - 1] in xs
    ensures forall i :: 0 <= i < |xs| ==> xs[i] <= sorted[|sorted| - 1]
  {
    var m := sorted[|sorted| - 1];
    assert m in sorted && m in multiset(sorted);
    assert m in multiset(xs);
    forall i | 0 <= i < |xs|
      ensures xs[i] <= m
    {
      assert xs[i] in multiset(xs);
      assert xs[i] > 0 ==> xs[i] in multiset(sorted);
      assert xs[i] > 0 ==> xs[i] in sorted;
    }
  }

  lemma WithoutLast(xs: seq<int>, sorted: seq<int>, p: nat)
    requires sorted != [] && SamePositives(sorted, xs) && p < |xs| && xs[p] == sorted[|sorted| - 1]
    ensures SamePositives(sorted[..|sorted| - 1], Without(xs, p))
  {
    var n := |sorted| - 1;
    assert sorted == sorted[..n] + [sorted[n]];
    assert xs == xs[..p] + [xs[p]] + xs[p + 1..];
    assert multiset(xs) == multiset(Without(xs, p)) + multiset{xs[p]};
    assert multiset(sorted) == multiset(sorted[..n]) + multiset{sorted[n]};
    forall x | x > 0
      ensures multiset(sorted[..n])[x] == multiset(Without(xs, p))[x]
    {
      assert multiset(sorted)[x] == multiset(xs)[x];
    }
    forall x | x in sorted[..n]
      ensures x > 0
    {
      assert x in sorted;
    }
  }

  lemma {:induction false} HighestTotal(seats: seq<Seat>, sorted: seq<int>)
    requires sorted != [] && Ascending(sorted) && SamePositives(sorted, Totals(seats))
    ensures MaxTotal(seats) == sorted[|sorted| - 1] > 0
  {
    var m := sorted[|sorted| - 1];
    LastIsMax(Totals(seats), sorted);
    var i :| 0 <= i < |seats| && Totals(seats)[i] == m;
    assert seats[i].total == m;
    MaxOf(seats, m);
  }

  lemma OthersTotals(seats: seq<Seat>, p: nat)
    requires p < |seats|
    ensures Totals(Others(seats, p)) == Without(Totals(seats), p)
  {
  }

  lemma {:induction false} SecondHighest(rest: seq<Seat>, xs: seq<int>, sorted: seq<int>, p: nat)
    requires Ascending(sorted) && SamePositives(sorted, xs) && |sorted| >= 2
    requires p < |xs| && xs[p] == sorted[|sorted| - 1] && Totals(rest) == Without(xs, p)
    ensures MaxTotal(rest) == sorted[|sorted| - 2] > 0
  {
    WithoutLast(xs, sorted, p);
    HighestTotal(rest, sorted[..|sorted| - 1]);
  }

  lemma {:induction false} TopTwo(seats: seq<Seat>, sorted: seq<int>, p: nat)
    requires Ascending(sorted) && SamePositives(sorted, Totals(seats)) && |sorted| >= 2
    requires p < |seats| && seats[p].total == sorted[|sorted| - 1]
    ensures MaxTotal(seats) == sorted[|sorted| - 1] && MaxTotal(Others(seats, p)) == sorted[|sorted| - 2] > 0
  {
    HighestTotal(seats, sorted);
    OthersTotals(seats, p);
    SecondHighest(Others(seats, p), Totals(seats), sorted, p);
  }

  lemma RefundIs(seats: seq<Seat>, sorted: seq<int>) returns (p: nat)
    requires Ascending(sorted) && SamePositives(sorted, Totals(seats)) && |sorted| >= 2
    ensures PosWithTotal(seats, sorted[|sorted| - 1]) == Some(p) && p < |seats|
    ensures seats[p].total == sorted[|sorted| - 1]
    ensures ReturnUncalled(seats) ==
            if sorted[|sorted| - 1] > sorted[|sorted| - 2] then Refund(seats, p, sorted[|sorted| - 2]) else seats
  {
    LastIsMax(Totals(seats), sorted);
    var i :| 0 <= i < |seats| && Totals(seats)[i] == sorted[|sorted| - 1];
    assert seats[i].total == sorted[|sorted| - 1];
    p := PosWithTotal(seats, sorted[|sorted| - 1]).value;
    TopTwo(seats, sorted, p);
  }

  lemma {:induction false} PositiveFound(xs: seq<int>, p: nat)
    requires p < |xs| && xs[p] > 0
    ensures |Positives(xs)| >= 1
  {
    if p < |xs| - 1 {
      PositiveFound(xs[..|xs| - 1], p);
    }
  }

  lemma {:induction false} TwoPositives(xs: seq<int>, p: nat, q: nat)
    requires p < q < |xs| && xs[p] > 0 && xs[q] > 0
    ensures |Positives(xs)| >= 2
  {
    if q < |xs| - 1 {
      TwoPositives(xs[..|xs| - 1], p, q);
    } else {
      PositiveFound(xs[..|xs| - 1], p);
    }
  }

  lemma FewContributors(seats: seq<Seat>)
    requires |Positives(Totals(seats))| < 2
    ensures ReturnUncalled(seats) == seats
  {
    var top := MaxTotal(seats);
    var p := PosWithTotal(seats, top);
    if p.Some? && top > 0 {
      forall i | 0 <= i < |seats| && i != p.value
        ensures seats[i].total <= 0
      {
        if seats[i].total > 0 {
          TwoPositives(Totals(seats), if i < p.value then i else p.value, if i < p.value then p.value else i);
        }
      }
      AllSmall(Others(seats, p.value));
    }
  }

  lemma {:induction false} AllSmall(seats: seq<Seat>)
    requires forall i :: 0 <= i < |seats| ==> seats[i].total <= 0
    ensures MaxTotal(seats) == 0
  {
  }

  // ---------------------------------------------------------------------
  // The best hands
  // ---------------------------------------------------------------------

  lemma {:induction false} BeyondBest(eligible: seq<int>, values: map<int, int>, v: int)
    requires BestValue(eligible, values).Some? ==> v > BestValue(eligible, values).value
    ensures WithValue(eligible, values, v) == []
  {
    if eligible != [] {
      BeyondBest(eligible[..|eligible| - 1], values, v);
    }
  }

  // One more candidate, compared with the best so far.
  lemma {:induction false} WinnersStep(eligible: seq<int>, idx: int, values: map<int, int>)
    ensures var winners := Winners(eligible, values); var best := BestValue(eligible, values);
            && Winners(eligible + [idx], values) ==
                 (if idx !in values then winners
                  else if best.None? || values[idx] > best.value then [idx]
                  else if values[idx] == best.value then winners + [idx] else winners)
            && BestValue(eligible + [idx], values) ==
                 (if idx in values && (best.None? || values[idx] > best.value) then Some(values[idx]) else best)
  {
    assert (eligible + [idx])[..|eligible|] == eligible;
    var best := BestValue(eligible, values);
    if idx in values && (best.None? || values[idx] > best.value) {
      BeyondBest(eligible, values, values[idx]);
    }
  }

  lemma ActionKeepsSeats(ts: Table, p: nat, a: Action)
    requires p < |ts.seats| && DistinctSeats(ts.seats) && ApplyAction(ts, p, a).Ok?
    ensures var after := ApplyAction(ts, p, a).value;
            |after.seats| == |ts.seats| && DistinctSeats(after.seats) && after.deck == ts.deck && after.stage == ts.stage
  {
    var after := ApplyAction(ts, p, a).value;
    assert |after.seats| == |ts.seats| && forall i :: 0 <= i < |ts.seats| ==> after.seats[i].index == ts.seats[i].index;
  }

  // One action on a stored table, from its decoded state to the state to store.
  method Apply(ts: Table, user: nat, a: Action, eval: Evaluator) returns (r: Result<Table, Error>)
    requires DistinctSeats(ts.seats) && |ts.deck| >= CardsLeft(ts.stage)
    ensures r == PokerRules.Apply(ts, user, a, eval)
  {
    if ts.stage == HandOver {
      return Err(IllegalAction);
    }
    var at := SeatOfUser(ts.seats, user);
    if at.None? {
      return Err(IllegalAction);
    }
    var p := at.value;
    if ts.currentTurn != ts.seats[p].index {
      return Err(NotYourTurn);
    }
    var table := new TableState(ts, eval);
    var refused := table.Act(p, a);
    if refused.Some? {
      return Err(refused.value);
    }
    ActionKeepsSeats(ts, p, a);
    table.GoOn(p);
    return Ok(table.Snapshot());
  }

  // A new table and its first hand.
  method InitState(inits: seq<Lobby.SeatInit>, cards: seq<int>, eval: Evaluator) returns (r: Result<Table, Error>)
    requires DistinctSeats(PokerHands.SeatsFrom(inits)) && |cards| >= 2 * |inits| + 5
    ensures r == PokerHands.InitState(inits, cards, eval)
  {
    if |inits| < MIN_SEATS {
      return Err(NotEnoughPlayers);
    }
    var lowest := -1;
    var seats := [];
    for i := 0 to |inits|
      invariant lowest == PokerHands.LowestSeat(inits[..i]) && seats == PokerHands.SeatsFrom(inits[..i])
    {
      assert inits[..i + 1][..i] == inits[..i];
      seats := seats + [Seat(inits[i].seat, inits[i].user, inits[i].stack, 0, 0, SittingOut, false, [])];
      if lowest < 0 || inits[i].seat < lowest {
        lowest := inits[i].seat;
      }
    }
    assert inits[..|inits|] == inits;
    var table := new TableState(PokerHands.NewTable(inits).(button := lowest, seats := seats), eval);
    var refused := table.Deal(cards);
    r := if refused.Some? then Err(refused.value) else Ok(table.Snapshot());
  }

  // The next hand of a table that finished one.
  method NextHand(ts: Table, cards: seq<int>, eval: Evaluator) returns (r: Result<Table, Error>)
    requires DistinctSeats(ts.seats) && |cards| >= 2 * |ts.seats| + 5
    ensures r == PokerHands.NextHand(ts, cards, eval)
  {
    var table := new TableState(PokerHands.NextTable(ts), eval);
    var refused := table.Deal(cards);
    r := if refused.Some? then Err(refused.value) else Ok(table.Snapshot());
  }
}
