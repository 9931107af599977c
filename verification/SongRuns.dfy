// Whole games of "Guess the Song".
module SongRuns {
  // What holds in every state of a run, and how long it can last.
  import opened Wrappers
  import opened Sums
  import opened Arithmetic
  import opened Lobby
  import opened SongTable
  import opened SongRules
  import opened SongLedger
  import opened SongLaws
  import opened SongStart
  import opened SongWhole
  import opened SongProgress

  datatype Move = Move(user: nat, action: Action, draw: nat)

  ghost predicate Accepted(pack: Pack, gs: Game, move: Move, after: Game) {
    Present(gs) && Apply(pack, gs, move.user, move.action, move.draw) == Ok(after)
  }

  ghost predicate IsRun(pack: Pack, states: seq<Game>, moves: seq<Move>) {
    && |states| == |moves| + 1
    && forall i :: 0 <= i < |moves| ==> Accepted(pack, states[i], moves[i], states[i + 1])
  }

  // ---------------------------------------------------------------------
  // Safety
  // ---------------------------------------------------------------------

  lemma StepAt(pack: Pack, states: seq<Game>, moves: seq<Move>, k: nat, id: Option<nat>)
    requires IsRun(pack, states, moves) && k < |moves| && Inv(pack, states[k])
    ensures Inv(pack, states[k + 1]) && Whole(states[k + 1], id) == Whole(states[k], id)
  {
    var m := moves[k];
    assert Accepted(pack, states[k], m, states[k + 1]);
    StepKeeps(pack, states[k], m.user, m.action, m.draw, states[k + 1]);
    StepConserves(pack, states[k], m.user, m.action, m.draw, states[k + 1], id);
  }

  lemma {:induction false} RunKeeps(pack: Pack, states: seq<Game>, moves: seq<Move>, k: nat, id: Option<nat>)
    requires IsRun(pack, states, moves) && Inv(pack, states[0]) && k <= |moves|
    ensures Inv(pack, states[k]) && Whole(states[k], id) == Whole(states[0], id)
  {
    if k > 0 {
      RunKeeps(pack, states, moves, k - 1, id);
      StepAt(pack, states, moves, k - 1, id);
    }
  }

  // From a new game on: the invariant, and each song of its pack exactly once
  // in exactly one place.
  lemma GamesAreSound(pack: Pack, seats: seq<SeatInit>, states: seq<Game>, moves: seq<Move>, k: nat, id: nat)
    requires ValidPack(pack) && DistinctSeats(seats) && IsRun(pack, states, moves) && k <= |moves|
    requires InitState(pack, seats) == Ok(states[0])
    ensures Inv(pack, states[k])
    ensures Unplayed(states[k].cells, Some(id)) + InPlay(states[k], Some(id)) + Played(states[k].history, Some(id)) ==
            if SongById(pack, id).Some? then 1 else 0
  {
    InitKeeps(pack, seats, states[0]);
    RunKeeps(pack, states, moves, k, Some(id));
    EverySongOnce(pack, states[k], id);
  }

  // A game that was played to the last song of an even pack gave both teams
  // the same number of rounds.
  lemma ExhaustedGamesAreFair(pack: Pack, seats: seq<SeatInit>, states: seq<Game>, moves: seq<Move>)
    requires ValidPack(pack) && DistinctSeats(seats) && IsRun(pack, states, moves)
    requires InitState(pack, seats) == Ok(states[0]) && UnplayedCount(BuildCells(pack)) % 2 == 0
    requires states[|moves|].phase == Finished && UnplayedCount(states[|moves|].cells) == 0
    ensures var history := states[|moves|].history;
            Rounds(history, TeamA) == Rounds(history, TeamB) == UnplayedCount(BuildCells(pack)) / 2
  {
    InitKeeps(pack, seats, states[0]);
    RunKeeps(pack, states, moves, |moves|, None);
    ExhaustionIsFair(pack, states[|moves|]);
  }

  // The final standings: a player's total is what the team was awarded over
  // the whole game, and a team is first exactly when no team is ahead of it.
  lemma FinalStandings(pack: Pack, gs: Game, i: nat)
    requires (InFlight(gs) ==> gs.song.Some?) && Inv(pack, Finalized(gs)) && i < |gs.participants|
    ensures var after := Finalized(gs); var r := after.results[i]; var team := gs.participants[i].team;
            && r.seat == gs.participants[i].seat
            && if team == NoTeam then r.total == 0 && r.rank == 0
               else
                 && r.total == Credited(after.history, team)
                 && (r.rank == 1 <==> Credited(after.history, team) >= Credited(after.history, Opponent(team)))
                 && (r.rank == 2 <==> Credited(after.history, team) < Credited(after.history, Opponent(team)))
  {
  }

  // ---------------------------------------------------------------------
  // Termination
  // ---------------------------------------------------------------------

  // The measure as one number, for at most t unplayed songs of at most k blocks.
  function Weight(gs: Game, t: int, k: int): int {
    ((((ActiveCount(gs.participants) * (t + 1) + UnplayedCount(gs.cells)) * 3 + PhaseRank(gs)) * (k + 1)
      + ClosedBlocks(gs)) * 5 + SubRank(gs)) * 2 + Vacancy(gs)
  }

  ghost predicate Within(gs: Game, t: int, k: int) {
    && 0 <= UnplayedCount(gs.cells) <= t && 0 <= ClosedBlocks(gs) <= k
    && 0 <= SubRank(gs) < 5 && 0 <= PhaseRank(gs) < 3 && 0 <= Vacancy(gs) < 2 && 0 <= ActiveCount(gs.participants)
  }

  lemma InvWithin(pack: Pack, gs: Game, k: int)
    requires Inv(pack, gs) && Bounded(gs, k) && k >= 0
    ensures Within(gs, UnplayedCount(gs.cells), k)
  {
    SumNonNegative(PoolSizes(gs.cells));
    SumNonNegative(ActiveFlags(gs.participants));
    if InFlight(gs) {
      RevealedBounds(gs.song.value.mask);
    }
  }

  lemma LessIsLighter(gs: Game, after: Game, t: int, k: int)
    requires Less(after, gs) && Within(gs, t, k) && Within(after, t, k)
    ensures Weight(after, t, k) < Weight(gs, t, k)
  {
    var a, a' := ActiveCount(gs.participants), ActiveCount(after.participants);
    var u, u' := UnplayedCount(gs.cells), UnplayedCount(after.cells);
    Lighter(a, u, PhaseRank(gs), ClosedBlocks(gs), SubRank(gs), Vacancy(gs),
            a', u', PhaseRank(after), ClosedBlocks(after), SubRank(after), Vacancy(after), t, k);
  }

  lemma Lighter(a: int, u: int, p: int, c: int, s: int, v: int, a': int, u': int, p': int, c': int, s': int, v': int, t: int, k: int)
    requires 0 <= u <= t && 0 <= c <= k && 0 <= s < 5 && 0 <= p < 3 && 0 <= v < 2
    requires 0 <= u' <= t && 0 <= c' <= k && 0 <= s' < 5 && 0 <= p' < 3 && 0 <= v' < 2
    requires a' < a || (a' == a && (u' < u || (u' == u && (p' < p || (p' == p && (c' < c || (c' == c && (s' < s || (s' == s && v' < v)))))))))
    ensures ((((a' * (t + 1) + u') * 3 + p') * (k + 1) + c') * 5 + s') * 2 + v' < ((((a * (t + 1) + u) * 3 + p) * (k + 1) + c) * 5 + s) * 2 + v
  {
    var w1, w1' := a * (t + 1) + u, a' * (t + 1) + u';
    if a' < a || u' < u { Digit(a, u, a', u', t + 1); }
    var w2, w2' := w1 * 3 + p, w1' * 3 + p';
    if w1' < w1 || p' < p { Digit(w1, p, w1', p', 3); }
    var w3, w3' := w2 * (k + 1) + c, w2' * (k + 1) + c';
    if w2' < w2 || c' < c { Digit(w2, c, w2', c', k + 1); }
  }

  lemma WeightNonNegative(gs: Game, t: int, k: int)
    requires Within(gs, t, k)
    ensures Weight(gs, t, k) >= 0
  {
    MulMono(0, ActiveCount(gs.participants), t + 1);
    MulMono(0, (ActiveCount(gs.participants) * (t + 1) + UnplayedCount(gs.cells)) * 3 + PhaseRank(gs), k + 1);
  }

  ghost predicate NoVoid(moves: seq<Move>) {
    forall i :: 0 <= i < |moves| ==> !moves[i].action.VoidDecision?
  }

  // A game under way with at most t unplayed songs, each of at most k blocks.
  ghost predicate Under(pack: Pack, gs: Game, t: int, k: int) {
    Inv(pack, gs) && (Begun(gs) || gs.phase == Finished) && Bounded(gs, k) && UnplayedCount(gs.cells) <= t
  }

  lemma UnderStep(pack: Pack, gs: Game, m: Move, after: Game, t: int, k: int)
    requires Under(pack, gs, t, k) && k >= 0 && Accepted(pack, gs, m, after) && !m.action.VoidDecision?
    ensures Under(pack, after, t, k)
    ensures 0 <= Weight(after, t, k) < Weight(gs, t, k)
  {
    StepKeeps(pack, gs, m.user, m.action, m.draw, after);
    StepForward(pack, gs, m.user, m.action, m.draw, after);
    InvWithin(pack, gs, k);
    InvWithin(pack, after, k);
    LessIsLighter(gs, after, t, k);
    WeightNonNegative(after, t, k);
  }

  lemma LighterAt(pack: Pack, states: seq<Game>, moves: seq<Move>, t: int, k: int, n: nat)
    requires IsRun(pack, states, moves) && NoVoid(moves) && n < |moves| && Under(pack, states[n], t, k) && k >= 0
    ensures Under(pack, states[n + 1], t, k) && 0 <= Weight(states[n + 1], t, k) < Weight(states[n], t, k)
  {
    assert Accepted(pack, states[n], moves[n], states[n + 1]);
    UnderStep(pack, states[n], moves[n], states[n + 1], t, k);
  }

  lemma {:induction false} RunUpTo(pack: Pack, states: seq<Game>, moves: seq<Move>, t: int, k: int, n: nat)
    requires IsRun(pack, states, moves) && NoVoid(moves) && Under(pack, states[0], t, k) && k >= 0 && n <= |moves|
    ensures Under(pack, states[n], t, k) && n + Weight(states[n], t, k) <= Weight(states[0], t, k)
    ensures n > 0 ==> Weight(states[n], t, k) >= 0
  {
    if n > 0 {
      RunUpTo(pack, states, moves, t, k, n - 1);
      LighterAt(pack, states, moves, t, k, n - 1);
    }
  }

  // A game that has begun cannot last longer than its weight, unless
  // decisions are voided.
  lemma GameEnds(pack: Pack, states: seq<Game>, moves: seq<Move>, k: nat)
    requires IsRun(pack, states, moves) && NoVoid(moves)
    requires Inv(pack, states[0]) && Begun(states[0]) && Bounded(states[0], k)
    ensures |moves| <= Weight(states[0], UnplayedCount(states[0].cells), k)
  {
    var t := UnplayedCount(states[0].cells);
    InvWithin(pack, states[0], k);
    WeightNonNegative(states[0], t, k);
    RunUpTo(pack, states, moves, t, k, |moves|);
  }
}
