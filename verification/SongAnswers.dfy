// Who may answer, and what an answer is worth.
module SongAnswers {
  // Every question a player would ask of one song: who gets the points, what
  // opens, who is asked next.
  import opened Wrappers
  import opened Sums
  import opened SongTable
  import opened SongRules
  import opened SongLaws
  import opened SongRuns

  function Score(gs: Game, team: Team): int {
    match team case TeamA => gs.scoreA case TeamB => gs.scoreB case NoTeam => 0
  }

  // The blocks that nobody has opened.
  function Closed(mask: seq<bool>): set<nat> {
    set i | 0 <= i < |mask| && !mask[i]
  }

  lemma {:induction false} ClosedCount(mask: seq<bool>)
    ensures |Closed(mask)| == |mask| - RevealedCount(mask)
  {
    if mask != [] {
      var n := |mask| - 1;
      ClosedCount(mask[..n]);
      SumAppend(MaskFlags(mask[..n]), Indicator(mask[n]));
      assert MaskFlags(mask) == MaskFlags(mask[..n]) + [Indicator(mask[n])];
      assert Closed(mask) == Closed(mask[..n]) + if mask[n] then {} else {n};
    } else {
      assert Closed(mask) == {};
    }
  }

  // The team whose answer is awaited.
  function Asked(gs: Game): Team {
    if AwaitingOf(gs) == ActiveTurn then gs.activeTeam else Opponent(gs.activeTeam)
  }

  // ---------------------------------------------------------------------
  // What becomes of a song
  // ---------------------------------------------------------------------

  // The table apart from the song itself: scores and finished songs.
  ghost predicate SameScores(gs: Game, after: Game) {
    after.scoreA == gs.scoreA && after.scoreB == gs.scoreB && after.history == gs.history && after.activeTeam == gs.activeTeam
  }

  // The song is over, for `team` or for nobody, and is recorded as it stood.
  ghost predicate Recorded(gs: Game, after: Game, team: Team, points: int, mask: seq<bool>, skipped: bool) {
    && gs.song.Some? && after.phase == SongResult && after.pending.None? && |after.history| == |gs.history| + 1
    && after.history[..|gs.history|] == gs.history
    && var song := gs.song.value;
       && after.history[|gs.history|] ==
            Outcome(song.id, song.language, song.bucket, |mask| - |Closed(mask)|, team, points, skipped, gs.activeTeam)
       && after.song.Some? && after.song.value.id == song.id && after.song.value.mask == mask
       && after.song.value.awarded == team && after.song.value.points == points
  }

  // A team wins the song: one point for each block still closed, and nothing
  // for the other team.
  ghost predicate Won(gs: Game, after: Game, team: Team) {
    && gs.song.Some? && team != NoTeam
    && var points := |Closed(gs.song.value.mask)|;
       && points >= 1 && Recorded(gs, after, team, points, gs.song.value.mask, false)
       && Score(after, team) == Score(gs, team) + points
       && Score(after, Opponent(team)) == Score(gs, Opponent(team))
  }

  // Nobody wins the song, which ends with these blocks open.
  ghost predicate Lost(gs: Game, after: Game, mask: seq<bool>, skipped: bool) {
    Recorded(gs, after, NoTeam, 0, mask, skipped) && after.scoreA == gs.scoreA && after.scoreB == gs.scoreB
  }

  // Block i opens, and steals stay as they were or are over; the last block
  // ends the song.
  ghost predicate Opened(gs: Game, after: Game, i: int, stealAllowed: bool) {
    && gs.song.Some? && 0 <= i < |gs.song.value.mask| && !gs.song.value.mask[i]
    && var mask := gs.song.value.mask[i := true];
       if Closed(mask) == {} then Lost(gs, after, mask, false)
       else
         && after.phase == SongPlay && SameScores(gs, after) && after.song.Some? && after.pending.None?
         && after.song.value == gs.song.value.(mask := mask, awaiting := ActiveTurn, stealAllowed := stealAllowed)
  }

  lemma NothingClosed(song: Song)
    requires |song.mask| == |song.blocks|
    ensures Potential(song) == |Closed(song.mask)|
    ensures Potential(song) == 0 <==> Closed(song.mask) == {}
  {
    ClosedCount(song.mask);
  }

  lemma EndRecords(gs: Game, awarded: Team, points: int, skipped: bool, lastGuess: string)
    requires gs.song.Some?
    ensures Recorded(gs, FinishSong(gs, awarded, points, skipped, lastGuess), awarded, points, gs.song.value.mask, skipped)
  {
    ClosedCount(gs.song.value.mask);
  }

  lemma RevealOpens(gs: Game, index: int, after: Game)
    requires gs.song.Some? && gs.phase == SongPlay && gs.pending.None? && |gs.song.value.mask| == |gs.song.value.blocks|
    requires RevealAt(gs, index) == Ok(after)
    ensures Opened(gs, after, index, gs.song.value.stealAllowed)
  {
    var song := gs.song.value;
    var shown := song.(mask := song.mask[index := true]);
    NothingClosed(shown);
    if Potential(shown) == 0 {
      EndRecords(gs.(song := Some(shown)), NoTeam, 0, false, song.lastGuess);
    }
  }

  // ---------------------------------------------------------------------
  // From the claim to the decision
  // ---------------------------------------------------------------------

  // What a waiting decision will pay, and to whom.
  ghost predicate Waits(gs: Game, team: Team, awaiting: Awaiting) {
    && Effective(gs) == PendingJudgement && gs.song.Some? && gs.pending.Some?
    && gs.song.value.awaiting == awaiting && gs.pending.value.claimant == team
    && gs.pending.value.potential == |Closed(gs.song.value.mask)|
  }

  // A claim changes nothing but that it waits, for the team that was asked.
  lemma ClaimWaits(pack: Pack, gs: Game, user: nat, a: Action, draw: nat, claimed: Game)
    requires Inv(pack, gs) && (a.Guess? || a.Steal?) && Apply(pack, gs, user, a, draw) == Ok(claimed)
    ensures gs.phase == SongPlay && claimed.song == gs.song && SameScores(gs, claimed)
    ensures Waits(claimed, Asked(gs), AwaitingOf(gs))
    ensures a.Steal? <==> AwaitingOf(gs) == StealTurn
    ensures claimed.pending.value.guess == a.text && |a.text| <= 200
    ensures exists i :: 0 <= i < |gs.participants| && gs.participants[i].user == user && gs.participants[i].seat == claimed.pending.value.claimantSeat
  {
    NothingClosed(gs.song.value);
    var i := OfUser(gs.participants, user).value;
    assert gs.participants[i].seat == claimed.pending.value.claimantSeat;
  }

  ghost predicate SameQuestion(gs: Game, after: Game) {
    after.song == gs.song && after.pending == gs.pending && SameScores(gs, after)
  }

  lemma VacatedWaits(gs: Game, user: nat, after: Game)
    requires Present(gs) && ApplyResign(gs, user) == Ok(after) && Effective(gs) == PendingJudgement == Effective(after)
    ensures SameQuestion(gs, after)
  {
    var left := LeftGame(gs, OfUser(gs.participants, user).value);
    assert after == GoOn(left);
  }

  lemma FilledWaits(gs: Game, user: nat, seat: int, after: Game)
    requires Present(gs) && ApplyAssignJudge(gs, user, seat) == Ok(after) && Effective(gs) == PendingJudgement == Effective(after)
    ensures SameQuestion(gs, after)
  {
    assert after == GoOn(ResumedGame(gs, Target(gs, seat).value));
  }

  // Nothing else leaves a decision waiting.
  lemma OnlyPeopleChange(pack: Pack, gs: Game, user: nat, a: Action, draw: nat, after: Game)
    requires Inv(pack, gs) && Dispatch(pack, gs, user, a, draw) == Ok(after) && Effective(gs) == PendingJudgement
    requires !a.Resign? && !a.AssignJudge?
    ensures Effective(after) != PendingJudgement
  {
    assert gs.phase == PendingJudgement;
    match a {
      case SkipSong =>
      case JudgeResult(_) =>
      case VoidDecision =>
      case _ => assert false;
    }
  }

  // Until it is decided it goes on waiting, whoever leaves and whoever
  // becomes the judge.
  lemma StillWaits(pack: Pack, gs: Game, user: nat, a: Action, draw: nat, after: Game)
    requires Inv(pack, gs) && Apply(pack, gs, user, a, draw) == Ok(after)
    requires Effective(gs) == PendingJudgement == Effective(after)
    ensures SameQuestion(gs, after)
  {
    var stepped := Dispatch(pack, gs, user, a, draw).value;
    match a {
      case Resign => VacatedWaits(gs, user, stepped);
      case AssignJudge(seat) => FilledWaits(gs, user, seat, stepped);
      case _ => OnlyPeopleChange(pack, gs, user, a, draw, stepped);
    }
  }

  lemma {:induction false} WaitsThrough(pack: Pack, states: seq<Game>, moves: seq<Move>, k: nat)
    requires IsRun(pack, states, moves) && Inv(pack, states[0]) && 1 <= k < |moves|
    requires moves[0].action.Guess? || moves[0].action.Steal?
    requires forall j :: 0 < j < |moves| ==> Effective(states[j]) == PendingJudgement
    ensures Inv(pack, states[k]) && states[k].song == states[0].song && SameScores(states[0], states[k])
    ensures Waits(states[k], Asked(states[0]), AwaitingOf(states[0]))
  {
    RunKeeps(pack, states, moves, k, None);
    assert Accepted(pack, states[k - 1], moves[k - 1], states[k]);
    if k == 1 {
      ClaimWaits(pack, states[0], moves[0].user, moves[0].action, moves[0].draw, states[1]);
    } else {
      WaitsThrough(pack, states, moves, k - 1);
      StillWaits(pack, states[k - 1], moves[k - 1].user, moves[k - 1].action, moves[k - 1].draw, states[k]);
    }
  }

  // ---------------------------------------------------------------------
  // The decision
  // ---------------------------------------------------------------------

  lemma JudgedRight(pack: Pack, gs: Game, user: nat, draw: nat, after: Game)
    requires Inv(pack, gs) && Apply(pack, gs, user, JudgeResult(true), draw) == Ok(after)
    ensures gs.pending.Some? && Won(gs, after, gs.pending.value.claimant)
  {
    var pending := gs.pending.value;
    NothingClosed(gs.song.value);
    EndRecords(gs, pending.claimant, pending.potential, false, pending.guess);
  }

  // What a wrong answer leads to: after the active team's guess the opponents
  // are asked once, a wrong last chance ends the song, and a wrong steal opens
  // the block on offer and ends stealing.
  ghost predicate Missed(gs: Game, after: Game) {
    gs.song.Some? &&
    match gs.song.value.awaiting
    case ActiveTurn =>
      && after.phase == SongPlay && after.pending.None? && SameScores(gs, after)
      && after.song == Some(gs.song.value.(awaiting := LastChanceTurn))
    case StealTurn => Opened(gs, after, gs.song.value.stealWindow, false)
    case LastChanceTurn => Lost(gs, after, gs.song.value.mask, false)
    case Nobody => false
  }

  lemma JudgedWrong(pack: Pack, gs: Game, user: nat, draw: nat, after: Game)
    requires Inv(pack, gs) && Apply(pack, gs, user, JudgeResult(false), draw) == Ok(after)
    ensures Missed(gs, after)
  {
    var pending := gs.pending.value;
    if pending.kind == StealGuess {
      var back := gs.(phase := SongPlay, pending := None, song := Some(gs.song.value.(stealAllowed := false)));
      RevealOpens(back, pending.owed, RevealAt(back, pending.owed).value);
    } else if pending.kind == LastChanceGuess {
      EndRecords(gs, NoTeam, 0, false, pending.guess);
    }
  }

  // A guess or steal that the judge finds right wins the song for the team
  // that was asked, whatever happens between the claim and the decision; a
  // wrong one leads on as described.
  lemma AnswersPay(pack: Pack, states: seq<Game>, moves: seq<Move>)
    requires IsRun(pack, states, moves) && Inv(pack, states[0]) && |moves| >= 2
    requires moves[0].action.Guess? || moves[0].action.Steal?
    requires forall j :: 0 < j < |moves| ==> Effective(states[j]) == PendingJudgement
    ensures moves[|moves| - 1].action == JudgeResult(true) ==> Won(states[0], states[|moves|], Asked(states[0]))
    ensures moves[|moves| - 1].action == JudgeResult(false) ==> Missed(states[0], states[|moves|])
  {
    var n := |moves| - 1;
    WaitsThrough(pack, states, moves, n);
    assert Accepted(pack, states[n], moves[n], states[n + 1]);
    if moves[n].action == JudgeResult(true) {
      JudgedRight(pack, states[n], moves[n].user, moves[n].draw, states[n + 1]);
    } else if moves[n].action == JudgeResult(false) {
      JudgedWrong(pack, states[n], moves[n].user, moves[n].draw, states[n + 1]);
    }
  }
}
