// Turn order, resignations and the final round.
module TtrFinalRound {
  import opened Wrappers
  import Arithmetic
  import opened TtrBoard
  import opened TtrPayment
  import opened TtrCards
  import opened TtrGame
  import opened TtrRules
  import opened TtrFlow

  // ---------------------------------------------------------------------
  // One action: the turn goes on, or it is completed
  // ---------------------------------------------------------------------

  ghost predicate Continues(gs: Game, after: Game) {
    && IsAwaiting(after.phase) && after.turnNo == gs.turnNo && after.currentSeat == gs.currentSeat
    && after.finalTurnsLeft == gs.finalTurnsLeft && ActiveSeats(after.players) == ActiveSeats(gs.players)
  }

  ghost predicate HasParked(gs: Game) {
    gs.drawing.Some? || gs.tunnel.Some? || gs.ticketDraw.Some?
  }

  // The counter is armed with the number of players when few trains are left,
  // and counted down once it is armed; at zero the game is over, and otherwise
  // the next active seat is to move.
  ghost predicate Completes(gs: Game, after: Game, i: nat) {
    && i < |after.players| && !HasParked(after) && after.turnNo == gs.turnNo + 1 && ActiveSeats(after.players) == ActiveSeats(gs.players)
    && after.finalTurnsLeft == (if gs.finalTurnsLeft >= 0 then gs.finalTurnsLeft - 1
                                else if after.players[i].trainsLeft <= 2 then ActiveCount(gs.players) else gs.finalTurnsLeft)
    && (if after.finalTurnsLeft == 0 then after.phase == Finished && after.currentSeat == gs.currentSeat
        else after.phase == Normal && after.currentSeat == NextActive(gs.players, gs.currentSeat))
  }

  lemma TurnCompletes(gs: Game, played: Game, i: nat)
    requires Flow(gs) && gs.phase != Finished && i < |gs.players|
    requires SameStanding(gs.players, played.players) && played.finalTurnsLeft == gs.finalTurnsLeft
    requires played.currentSeat == gs.currentSeat && played.turnNo == gs.turnNo
    ensures Completes(gs, EndTurn(played, i), i)
  {
    StandingKeeps(gs.players, played.players);
  }

  lemma TurnContinues(gs: Game, after: Game)
    requires SameStanding(gs.players, after.players) && IsAwaiting(after.phase)
    requires after.turnNo == gs.turnNo && after.currentSeat == gs.currentSeat && after.finalTurnsLeft == gs.finalTurnsLeft
    ensures Continues(gs, after)
  {
    StandingKeeps(gs.players, after.players);
  }

  ghost predicate Moves(gs: Game, after: Game, i: nat) {
    Continues(gs, after) || Completes(gs, after, i)
  }

  lemma DrawnMoves(gs: Game, i: nat, card: Color, piles: Piles, over: bool)
    requires Flow(gs) && gs.phase != Finished && i < |gs.players|
    ensures Moves(gs, Drawn(gs, i, card, piles, over), i)
  {
    DealtKeeps(gs, i, card, piles);
    if over {
      TurnCompletes(gs, Dealt(gs, i, card, piles), i);
    } else {
      TurnContinues(gs, Drawn(gs, i, card, piles, over));
    }
  }

  lemma DrawMoves(gs: Game, i: nat, source: Source, sh: Shuffler, after: Game)
    requires Flow(gs) && gs.phase != Finished && i < |gs.players| && ApplyDrawCard(gs, i, source, sh) == Ok(after)
    ensures Moves(gs, after, i)
  {
    var isSecond := gs.drawing.Some? && gs.drawing.value.cardsTaken > 0;
    match source {
      case Deck =>
        var pop := Popped(gs.piles, sh);
        DrawnMoves(gs, i, pop.card.value, pop.piles, isSecond);
      case FaceUpSlot(slot) =>
        var card := gs.piles.faceUp[slot];
        DrawnMoves(gs, i, card, TakenFaceUp(gs.piles, slot, sh), isSecond || card == Loco);
    }
  }

  lemma TurnedMoves(gs: Game, paid: Game, i: nat, r: Route, pay: Payment, color: Color, turned: Reveal)
    requires Flow(gs) && gs.phase != Finished && i < |gs.players| && PointsForLength(r.length).Some?
    requires paid == gs.(players := paid.players) && SameStanding(gs.players, paid.players)
    ensures Moves(gs, TunnelTurned(paid, i, r, pay, color, turned), i)
  {
    if Matches(turned.cards, color) == 0 {
      TurnCompletes(gs, FinishClaim(paid.(piles := Discarded(turned.piles, turned.cards)), i, r, pay), i);
    } else {
      TurnContinues(gs, TunnelTurned(paid, i, r, pay, color, turned));
    }
  }

  lemma CommitMoves(gs: Game, paid: Game, i: nat, r: Route, pay: Payment)
    requires Flow(gs) && gs.phase != Finished && i < |gs.players| && PointsForLength(r.length).Some?
    requires paid == gs.(players := paid.players) && SameStanding(gs.players, paid.players)
    ensures Moves(gs, EndTurn(FinishClaim(paid, i, r, pay), i), i)
  {
    TurnCompletes(gs, FinishClaim(paid, i, r, pay), i);
  }

  lemma ClaimMoves(m: Board, gs: Game, i: nat, id: RouteId, pay: Payment, sh: Shuffler, after: Game)
    requires m.Valid() && Flow(gs) && gs.phase != Finished && i < |gs.players| && ApplyClaimRoute(m, gs, i, id, pay, sh) == Ok(after)
    ensures Moves(gs, after, i)
  {
    var r := m.routeById[id];
    var paid := gs.(players := HandTo(gs.players, i, Debited(gs.players[i].hand, pay)));
    if r.tunnel {
      TurnedMoves(gs, paid, i, r, pay, Declared(pay), Revealed(paid.piles, TUNNEL_REVEAL_COUNT, sh));
    } else {
      CommitMoves(gs, paid, i, r, pay);
    }
  }

  lemma RefundedMoves(gs: Game, i: nat, t: Tunnel)
    requires Flow(gs) && gs.phase != Finished && i < |gs.players|
    ensures Moves(gs, Refunded(gs, i, t), i)
  {
    TurnCompletes(gs, Repaid(gs, i, t), i);
  }

  lemma AcceptedMoves(gs: Game, i: nat, r: Route, t: Tunnel, extra: Payment)
    requires Flow(gs) && gs.phase != Finished && i < |gs.players| && PointsForLength(r.length).Some?
    ensures Moves(gs, Accepted(gs, i, r, t, extra), i)
  {
    TurnCompletes(gs, FinishClaim(Surcharged(gs, i, t, extra), i, r, Merged(t.base, extra)), i);
  }

  lemma TunnelMoves(m: Board, gs: Game, i: nat, accept: bool, extra: Payment, handFirst: bool, after: Game)
    requires m.Valid() && Flow(gs) && gs.phase == AwaitTunnel && i < |gs.players|
    requires ApplyTunnelDecision(m, gs, i, accept, extra, handFirst) == Ok(after)
    ensures Moves(gs, after, i)
  {
    var t := gs.tunnel.value;
    RefundedMoves(gs, i, t);
    if t.route in m.routeById {
      AcceptedMoves(gs, i, m.routeById[t.route], t, extra);
    }
  }

  lemma StationMoves(m: Board, gs: Game, i: nat, city: City, pay: Payment, after: Game)
    requires Flow(gs) && gs.phase != Finished && i < |gs.players| && ApplyBuildStation(m, gs, i, city, pay) == Ok(after)
    ensures Moves(gs, after, i)
  {
    TurnCompletes(gs, Built(gs, i, city, pay), i);
  }

  lemma DecisionMoves(m: Board, gs: Game, i: nat, kind: Kind, keep: seq<TicketId>, accept: bool, extra: Payment, handFirst: bool, after: Game)
    requires m.Valid() && Flow(gs) && gs.phase != Finished && gs.phase != SetupTickets && i < |gs.players|
    requires ApplyDecision(m, gs, i, kind, keep, accept, extra, handFirst) == Ok(after)
    ensures Moves(gs, after, i)
  {
    match gs.phase {
      case AwaitTicketKeep =>
        TurnCompletes(gs, gs.(players := TicketsTo(gs.players, i, keep),
                              ticketDeck := gs.ticketDeck + Rejected(gs.ticketDraw.value, keep), ticketDraw := None), i);
      case AwaitTunnel => TunnelMoves(m, gs, i, accept, extra, handFirst, after);
      case AwaitSecondDraw => TurnCompletes(gs, gs.(drawing := None), i);
      case _ =>
    }
  }

  lemma DispatchMoves(m: Board, gs: Game, i: nat, a: Action, sh: Shuffler, handFirst: bool, after: Game)
    requires m.Valid() && Flow(gs) && gs.phase != SetupTickets && i < |gs.players| && Gate(gs, i, a).None? && !a.Resign?
    requires Dispatch(m, gs, i, a, sh, handFirst) == Ok(after)
    ensures Moves(gs, after, i)
  {
    match a {
      case DrawCard(source) => DrawMoves(gs, i, source, sh, after);
      case ClaimRoute(id, pay) => ClaimMoves(m, gs, i, id, pay, sh, after);
      case BuildStation(city, pay) => StationMoves(m, gs, i, city, pay, after);
      case DrawTickets => TurnContinues(gs, after);
      case ResolveDecision(kind, keep, accept, extra) => DecisionMoves(m, gs, i, kind, keep, accept, extra, handFirst, after);
    }
  }

  // After setup every accepted action but a resignation either leaves the turn
  // and the counter as they are, or completes the turn.
  lemma StepMoves(m: Board, gs: Game, user: nat, a: Action, sh: Shuffler, handFirst: bool, after: Game) returns (i: nat)
    requires m.Valid() && Flow(gs) && gs.phase != SetupTickets && !a.Resign?
    requires Apply(m, gs, user, a, sh, handFirst) == Ok(after)
    ensures OfUser(gs.players, user) == Some(i) && i < |gs.players| && gs.players[i].seat == gs.currentSeat
    ensures Moves(gs, after, i)
  {
    var done;
    i, done := Taken(m, gs, user, a, sh, handFirst, after);
    GateIsMine(gs, i, a);
    DispatchMoves(m, gs, i, a, sh, handFirst, done);
    NumberedMoves(gs, done, i);
  }

  // An accepted action passed the gate; its outcome is numbered.
  lemma Taken(m: Board, gs: Game, user: nat, a: Action, sh: Shuffler, handFirst: bool, after: Game) returns (i: nat, done: Game)
    requires m.Valid() && Apply(m, gs, user, a, sh, handFirst) == Ok(after)
    ensures OfUser(gs.players, user) == Some(i) && i < |gs.players| && Gate(gs, i, a).None?
    ensures Dispatch(m, gs, i, a, sh, handFirst) == Ok(done) && after == done.(seqNo := done.seqNo + 1)
  {
    i := OfUser(gs.players, user).value;
    done := Dispatch(m, gs, i, a, sh, handFirst).value;
  }

  lemma GateIsMine(gs: Game, i: nat, a: Action)
    requires Flow(gs) && gs.phase != SetupTickets && i < |gs.players| && Gate(gs, i, a).None? && !a.Resign?
    ensures gs.players[i].seat == gs.currentSeat
  {
    CurrentIs(gs, i);
  }

  lemma NumberedMoves(gs: Game, done: Game, i: nat)
    requires Moves(gs, done, i)
    ensures Moves(gs, done.(seqNo := done.seqNo + 1), i)
  {
  }

  // ---------------------------------------------------------------------
  // The order of turns
  // ---------------------------------------------------------------------

  lemma {:induction false} SeatsRise(ps: seq<Player>)
    requires SeatsOk(ps)
    ensures forall i, j :: 0 <= i < j < |ActiveSeats(ps)| ==> ActiveSeats(ps)[i] < ActiveSeats(ps)[j]
  {
    if ps != [] {
      var n := |ps| - 1;
      forall i, j | 0 <= i < j < n
        ensures Apart(ps[..n][i], ps[..n][j])
      {
        assert Apart(ps[i], ps[j]);
      }
      SeatsRise(ps[..n]);
      ActiveMembers(ps[..n]);
      forall k | 0 <= k < |ActiveSeats(ps[..n])|
        ensures ActiveSeats(ps[..n])[k] < ps[n].seat
      {
        assert ActiveSeats(ps[..n])[k] in ActiveSeats(ps[..n]);
        var i :| 0 <= i < |ps[..n]| && ps[..n][i].seat == ActiveSeats(ps[..n])[k];
        assert Apart(ps[i], ps[n]);
      }
    }
  }

  // From the seat at position p of the circle, the next turn is at p + 1.
  lemma {:induction false} NextOnCircle(ps: seq<Player>, p: nat)
    requires SeatsOk(ps) && p < |ActiveSeats(ps)|
    ensures NextActive(ps, ActiveSeats(ps)[p]) == ActiveSeats(ps)[(p + 1) % |ActiveSeats(ps)|]
  {
    SeatsRise(ps);
    var q := PositionIn(ActiveSeats(ps), ActiveSeats(ps)[p]).value;
    assert q == p;
  }

  datatype Move = Move(user: nat, action: Action, handFirst: bool)

  ghost predicate Accepts(m: Board, gs: Game, move: Move, sh: Shuffler, after: Game)
    requires m.Valid()
  {
    Apply(m, gs, move.user, move.action, sh, move.handFirst) == Ok(after)
  }

  ghost predicate IsRun(m: Board, states: seq<Game>, moves: seq<Move>, sh: Shuffler)
    requires m.Valid()
  {
    && |states| == |moves| + 1
    && forall i :: 0 <= i < |moves| ==> Accepts(m, states[i], moves[i], sh, states[i + 1])
  }

  ghost predicate NobodyResigns(moves: seq<Move>) {
    forall i :: 0 <= i < |moves| ==> !moves[i].action.Resign?
  }

  // In a final round with f turns to go from position p of the circle, `gs` is
  // reached after as many turns as its turn number says.
  ghost predicate InFinalRound(start: Game, gs: Game, circle: seq<int>, p: nat, f: int)
    requires circle != []
  {
    && ActiveSeats(gs.players) == circle
    && var k := gs.turnNo - start.turnNo;
       && 0 <= k <= f && gs.finalTurnsLeft == f - k
       && (gs.phase == Finished <==> k == f)
       && gs.currentSeat == circle[(p + if k == f then f - 1 else k) % |circle|]
  }

  lemma FinalRoundStep(start: Game, gs: Game, after: Game, i: nat, circle: seq<int>, p: nat, f: int)
    requires SeatsOk(gs.players) && circle != [] && f >= 1 && gs.phase != Finished && InFinalRound(start, gs, circle, p, f)
    requires Moves(gs, after, i)
    ensures after.phase != SetupTickets && InFinalRound(start, after, circle, p, f)
  {
    var k := gs.turnNo - start.turnNo;
    if Completes(gs, after, i) && k + 1 < f {
      NextOnCircle(gs.players, (p + k) % |circle|);
      Arithmetic.NextOnCircle(p + k, |circle|);
    }
  }

  lemma FinalRoundMove(m: Board, start: Game, gs: Game, move: Move, sh: Shuffler, after: Game, circle: seq<int>, p: nat, f: int)
    requires m.Valid() && Accepts(m, gs, move, sh, after) && !move.action.Resign?
    requires Flow(gs) && gs.phase != SetupTickets && circle != [] && f >= 1 && InFinalRound(start, gs, circle, p, f)
    ensures Flow(after) && after.phase != SetupTickets && InFinalRound(start, after, circle, p, f)
  {
    var i := StepMoves(m, gs, move.user, move.action, sh, move.handFirst, after);
    FinalRoundStep(start, gs, after, i, circle, p, f);
    StepFlow(m, gs, move.user, move.action, sh, move.handFirst, after);
  }

  lemma {:induction false} FinalRoundUpTo(m: Board, states: seq<Game>, moves: seq<Move>, sh: Shuffler, circle: seq<int>, p: nat, f: int, k: nat)
    requires m.Valid() && IsRun(m, states, moves, sh) && NobodyResigns(moves) && k <= |moves|
    requires Flow(states[0]) && states[0].phase != SetupTickets
    requires circle != [] && f >= 1 && InFinalRound(states[0], states[0], circle, p, f)
    ensures Flow(states[k]) && states[k].phase != SetupTickets && InFinalRound(states[0], states[k], circle, p, f)
  {
    if k > 0 {
      FinalRoundUpTo(m, states, moves, sh, circle, p, f, k - 1);
      FinalRoundMove(m, states[0], states[k - 1], moves[k - 1], sh, states[k], circle, p, f);
    }
  }

  // The turn of seat s has just armed the counter.
  ghost predicate JustArmed(gs: Game, s: int) {
    && gs.phase == Normal && gs.finalTurnsLeft == ActiveCount(gs.players)
    && s in ActiveSeats(gs.players) && gs.currentSeat == NextActive(gs.players, s)
  }

  // The final round: if nobody resigns, the k-th further turn belongs to the
  // k-th active seat after the triggering seat s, the game ends with the n-th
  // turn and not before, and that last turn is the one of s.
  lemma FinalRound(m: Board, states: seq<Game>, moves: seq<Move>, sh: Shuffler, s: int, k: nat) returns (p: nat)
    requires m.Valid() && IsRun(m, states, moves, sh) && NobodyResigns(moves) && k <= |moves|
    requires Flow(states[0]) && JustArmed(states[0], s)
    ensures var circle := ActiveSeats(states[0].players); var n := |circle|; var turns := states[k].turnNo - states[0].turnNo;
            && p < n && circle[p] == s && ActiveSeats(states[k].players) == circle
            && 0 <= turns <= n && (states[k].phase == Finished <==> turns == n)
            && (turns < n ==> states[k].currentSeat == circle[(p + 1 + turns) % n])
            && (turns == n ==> states[k].currentSeat == s)
  {
    var gs := states[0];
    var circle := ActiveSeats(gs.players);
    var n := |circle|;
    p := PositionIn(circle, s).value;
    NextOnCircle(gs.players, p);
    WrapAround(p, n);
    assert InFinalRound(gs, gs, circle, p + 1, n);
    FinalRoundUpTo(m, states, moves, sh, circle, p + 1, n, k);
  }

  lemma WrapAround(p: nat, n: nat)
    requires p < n
    ensures (p + 1 + (n - 1)) % n == p && (p + 1 + 0) % n == (p + 1) % n
  {
    Arithmetic.WrapsOnce(p + 1 + (n - 1), n);
  }

  // ---------------------------------------------------------------------
  // Resigning in turn
  // ---------------------------------------------------------------------

  // A game that ends by a resignation keeps a parked decision exactly when the
  // decision was somebody else's.
  lemma ResignKeepsParked(gs: Game, i: nat, after: Game)
    requires Flow(gs) && gs.phase != Finished && i < |gs.players| && ApplyResign(gs, i) == Ok(after) && after.phase == Finished
    ensures HasParked(after) <==> HasParked(gs) && !IsCurrent(gs, i)
  {
    ResignMoves(gs, i, after);
  }

  // And nothing else ends a game with a decision still parked.
  lemma FinishedParkedIff(m: Board, gs: Game, move: Move, sh: Shuffler, after: Game) returns (i: nat)
    requires m.Valid() && Flow(gs) && gs.phase != SetupTickets && Accepts(m, gs, move, sh, after) && after.phase == Finished
    ensures i < |gs.players| && gs.players[i].user == move.user
    ensures HasParked(after) <==> move.action.Resign? && HasParked(gs) && !IsCurrent(gs, i)
  {
    i := OfUser(gs.players, move.user).value;
    if move.action.Resign? {
      ResignKeepsParked(gs, i, ApplyResign(gs, i).value);
    } else {
      i := StepMoves(m, gs, move.user, move.action, sh, move.handFirst, after);
    }
  }

  // A resignation in turn hands the turn to the lowest active seat. That is the
  // next seat clockwise exactly when the resigning seat is the lowest or the
  // highest active one.
  lemma ResignPassesToLowest(gs: Game, i: nat, after: Game) returns (p: nat)
    requires Flow(gs) && i < |gs.players| && HoldsTurn(gs, i) && ApplyResign(gs, i) == Ok(after) && after.phase == Normal
    ensures var circle := ActiveSeats(gs.players); var rest := ActiveSeats(after.players);
            && rest != [] && after.currentSeat == rest[0] && p < |circle| && circle[p] == gs.players[i].seat
            && (after.currentSeat == NextActive(gs.players, gs.players[i].seat) <==> p == 0 || p == |circle| - 1)
  {
    var ps := gs.players;
    p := PositionOfSeat(ps, i);
    SeatsRise(ps);
    TurnHandedOn(gs, i, after);
    WithoutSeat(ps, i, after.players[i], p);
    LowestIsNextIff(ActiveSeats(ps), p);
    NextOnCircle(ps, p);
  }

  // The turn is looked up from a seat that is no longer active.
  lemma TurnHandedOn(gs: Game, i: nat, after: Game)
    requires Flow(gs) && i < |gs.players| && HoldsTurn(gs, i) && ApplyResign(gs, i) == Ok(after) && after.phase == Normal
    ensures after.players == gs.players[i := gs.players[i].(hand := multiset{}, resigned := true)]
    ensures |ActiveSeats(gs.players)| >= 3 && ActiveSeats(after.players) != []
    ensures after.currentSeat == ActiveSeats(after.players)[0]
  {
    CurrentIs(gs, i);
    var gone := Retired(Freed(gs, i), i);
    RetiredSeats(Freed(gs, i), i);
    ActiveIffListed(gone.players, gs.players[i].seat);
  }

  lemma PositionOfSeat(ps: seq<Player>, i: nat) returns (p: nat)
    requires SeatsOk(ps) && i < |ps| && !ps[i].resigned
    ensures p < |ActiveSeats(ps)| && ActiveSeats(ps)[p] == ps[i].seat
  {
    SeatFound(ps, i);
    ActiveIffListed(ps, ps[i].seat);
    p := PositionIn(ActiveSeats(ps), ps[i].seat).value;
  }

  lemma LowestIsNextIff(circle: seq<int>, p: nat)
    requires p < |circle| && |circle| >= 2 && forall i, j :: 0 <= i < j < |circle| ==> circle[i] < circle[j]
    ensures (circle[..p] + circle[p + 1..])[0] == circle[(p + 1) % |circle|] <==> p == 0 || p == |circle| - 1
  {
    WrapPosition(p, |circle|);
  }

  lemma WrapPosition(p: nat, n: nat)
    requires p < n
    ensures (p + 1) % n == if p + 1 < n then p + 1 else 0
  {
    Arithmetic.WrapsOnce(p + 1, n);
  }

  lemma OnePosition(circle: seq<int>, p: nat, q: nat)
    requires p < |circle| && q < |circle| && circle[p] == circle[q]
    requires forall i, j :: 0 <= i < j < |circle| ==> circle[i] < circle[j]
    ensures p == q
  {
  }

  lemma {:induction false} WithoutSeat(ps: seq<Player>, i: nat, p': Player, p: nat)
    requires SeatsOk(ps) && i < |ps| && !ps[i].resigned && p'.resigned
    requires p < |ActiveSeats(ps)| && ActiveSeats(ps)[p] == ps[i].seat
    ensures ActiveSeats(ps[i := p']) == ActiveSeats(ps)[..p] + ActiveSeats(ps)[p + 1..]
  {
    var n := |ps| - 1;
    var before := ActiveSeats(ps[..n]);
    forall a, b | 0 <= a < b < n
      ensures Apart(ps[..n][a], ps[..n][b])
    {
      assert Apart(ps[a], ps[b]);
    }
    if i == n {
      assert ps[i := p'][..n] == ps[..n];
      SeatsRise(ps);
      OnePosition(ActiveSeats(ps), p, |before|);
    } else {
      assert Apart(ps[i], ps[n]);
      WithoutSeat(ps[..n], i, p', p);
      assert ps[i := p'][..n] == ps[..n][i := p'];
    }
  }

  // ---------------------------------------------------------------------
  // Setup can get stuck
  // ---------------------------------------------------------------------

  // Everybody still in the game has answered, but nobody noticed.
  predicate Stuck(gs: Game) {
    gs.phase == SetupTickets && AllSetupDone(gs.players)
  }

  // Then nothing but another resignation is accepted.
  lemma StuckRefuses(m: Board, gs: Game, user: nat, a: Action, sh: Shuffler, handFirst: bool)
    requires m.Valid() && Stuck(gs)
    ensures Apply(m, gs, user, a, sh, handFirst).Ok? ==> a.Resign?
  {
  }

  // A setup answer never leads there; a resignation does exactly when at least
  // two players stay and the one who leaves was the last to have an answer to give.
  lemma StuckIff(gs: Game, i: nat, after: Game)
    requires Flow(gs) && gs.phase == SetupTickets && i < |gs.players| && ApplyResign(gs, i) == Ok(after)
    ensures Stuck(after) <==> ActiveCount(gs.players) >= 3 && forall k :: 0 <= k < |gs.players| && k != i && !gs.players[k].resigned ==> gs.players[k].setupDone
  {
    RetiredSeats(gs, i);
    var ps := Retired(gs, i).players;
    forall k | 0 <= k < |ps|
      ensures ps[k].setupDone == gs.players[k].setupDone && ps[k].resigned == (gs.players[k].resigned || k == i)
    {
    }
  }

  lemma AnswerNeverSticks(gs: Game, i: nat, keep: seq<TicketId>, after: Game)
    requires gs.phase == SetupTickets && i < |gs.players| && ApplySetupKeep(gs, i, keep) == Ok(after)
    ensures !Stuck(after)
  {
  }
}
