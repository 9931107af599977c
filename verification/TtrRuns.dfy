// Whole games of Ticket to Ride.
module TtrRuns {
  import opened Wrappers
  import opened Lobby
  import opened TtrBoard
  import opened TtrCards
  import opened TtrGame
  import opened TtrRules
  import opened TtrFlow
  import opened TtrCustody
  import opened TtrLedger
  import opened TtrSetup
  import opened TtrFinalRound
  import opened TtrOptions

  ghost predicate Sound(m: Board, gs: Game) {
    Flow(gs) && Ledger(m, gs) && TunnelOpen(m, gs) && NoTicketTwice(gs) && RowOk(gs.piles)
  }

  lemma StepSound(m: Board, gs: Game, move: Move, sh: Shuffler, after: Game, c: Color)
    requires m.Valid() && Fair(sh) && Sound(m, gs) && Accepts(m, gs, move, sh, after)
    ensures Sound(m, after) && (c != Gray ==> Cards(after, c) == Cards(gs, c))
  {
    StepFlow(m, gs, move.user, move.action, sh, move.handFirst, after);
    StepKeepsLedger(m, gs, move.user, move.action, sh, move.handFirst, after);
    StepTicketOnce(m, gs, move.user, move.action, sh, move.handFirst, after);
    StepKeepsRow(m, gs, move.user, move.action, sh, move.handFirst, after);
    if c != Gray {
      StepKeepsCards(m, gs, move.user, move.action, sh, move.handFirst, after, c);
    }
  }

  lemma StepAt(m: Board, states: seq<Game>, moves: seq<Move>, sh: Shuffler, k: nat, c: Color)
    requires m.Valid() && Fair(sh) && IsRun(m, states, moves, sh) && k < |moves| && Sound(m, states[k])
    ensures Sound(m, states[k + 1]) && (c != Gray ==> Cards(states[k + 1], c) == Cards(states[k], c))
  {
    assert Accepts(m, states[k], moves[k], sh, states[k + 1]);
    StepSound(m, states[k], moves[k], sh, states[k + 1], c);
  }

  lemma {:induction false} RunSound(m: Board, states: seq<Game>, moves: seq<Move>, sh: Shuffler, k: nat, c: Color)
    requires m.Valid() && Fair(sh) && IsRun(m, states, moves, sh) && k <= |moves| && Sound(m, states[0])
    ensures Sound(m, states[k]) && (c != Gray ==> Cards(states[k], c) == Cards(states[0], c))
  {
    if k > 0 {
      RunSound(m, states, moves, sh, k - 1, c);
      StepAt(m, states, moves, sh, k - 1, c);
    }
  }

  // In every state of every game, resignations included: all cards of the
  // 110-card deck are accounted for, colour by colour, no ticket is in two
  // places, the board ledger is right, and the parked decision, the player to
  // move and the final-round counter agree with the phase.
  lemma GamesAreSound(m: Board, seats: seq<SeatInit>, sh: Shuffler, longs: seq<TicketId>, regulars: seq<TicketId>, first: nat,
                      states: seq<Game>, moves: seq<Move>, k: nat, c: Color)
    requires m.Valid() && m.stationsPerPlayer >= 0 && DistinctSeats(seats) && Fair(sh) && 4 * m.maxPlayers <= |sh(0, FullDeck())|
    requires Shuffled(longs, m.longTickets) && Shuffled(regulars, m.regularTickets)
    requires IsRun(m, states, moves, sh) && k <= |moves| && InitState(m, seats, sh, longs, regulars, first) == Ok(states[0])
    ensures Sound(m, states[k]) && (c != Gray ==> Cards(states[k], c) == DeckCount(c))
  {
    InitKeeps(m, seats, sh, longs, regulars, first, states[0]);
    RunSound(m, states, moves, sh, k, c);
  }

  // ---------------------------------------------------------------------
  // The counter over a whole game
  // ---------------------------------------------------------------------

  // The turn that arms the counter is followed by the final round.
  lemma ArmingStartsFinalRound(m: Board, gs: Game, move: Move, sh: Shuffler, after: Game)
    requires m.Valid() && Flow(gs) && Accepts(m, gs, move, sh, after) && !move.action.Resign?
    requires gs.phase != SetupTickets && gs.finalTurnsLeft == -1 && after.finalTurnsLeft != -1
    ensures JustArmed(after, gs.currentSeat)
  {
    var i := StepMoves(m, gs, move.user, move.action, sh, move.handFirst, after);
    StepFlow(m, gs, move.user, move.action, sh, move.handFirst, after);
    ActiveIffListed(gs.players, gs.currentSeat);
    assert Completes(gs, after, i);
    SameCircle(gs.players, after.players, gs.currentSeat);
  }

  lemma {:induction false} SameCircle(a: seq<Player>, b: seq<Player>, seat: int)
    requires ActiveSeats(a) == ActiveSeats(b) && ActiveSeats(a) != []
    ensures NextActive(a, seat) == NextActive(b, seat)
  {
  }

  lemma ResignCounter(gs: Game, i: nat, after: Game)
    requires Flow(gs) && gs.phase != Finished && i < |gs.players| && ApplyResign(gs, i) == Ok(after)
    ensures (gs.finalTurnsLeft == -1 ==> after.finalTurnsLeft == -1) && after.finalTurnsLeft <= gs.finalTurnsLeft
  {
    ResignMoves(gs, i, after);
    RetiredSeats(Freed(gs, i), i);
  }

  lemma ResignedCounter(m: Board, gs: Game, move: Move, sh: Shuffler, after: Game)
    requires m.Valid() && Flow(gs) && Accepts(m, gs, move, sh, after) && move.action.Resign?
    ensures (gs.finalTurnsLeft == -1 ==> after.finalTurnsLeft == -1) && after.finalTurnsLeft <= gs.finalTurnsLeft
  {
    var i := OfUser(gs.players, move.user).value;
    ResignCounter(gs, i, ApplyResign(gs, i).value);
  }

  lemma PlayedCounter(m: Board, gs: Game, move: Move, sh: Shuffler, after: Game)
    requires m.Valid() && Flow(gs) && gs.phase != SetupTickets && gs.phase != Finished
    requires Accepts(m, gs, move, sh, after) && !move.action.Resign? && gs.finalTurnsLeft != -1
    ensures after.finalTurnsLeft <= gs.finalTurnsLeft
  {
    var i := StepMoves(m, gs, move.user, move.action, sh, move.handFirst, after);
  }

  // Once armed the counter never rises again, and a resignation never arms it.
  lemma CounterOnlyFalls(m: Board, gs: Game, move: Move, sh: Shuffler, after: Game)
    requires m.Valid() && Flow(gs) && gs.phase != SetupTickets && gs.phase != Finished && Accepts(m, gs, move, sh, after)
    requires gs.finalTurnsLeft != -1 || move.action.Resign?
    ensures after.finalTurnsLeft <= gs.finalTurnsLeft
  {
    if move.action.Resign? {
      ResignedCounter(m, gs, move, sh, after);
    } else {
      PlayedCounter(m, gs, move, sh, after);
    }
  }
}
