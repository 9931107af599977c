// Every game of guessing comes to an end.
module SongProgress {
  // Whatever anybody does, short of voiding a decision, brings a game that has
  // begun closer to its end.
  import opened Wrappers
  import opened Sums
  import opened SongTable
  import opened SongRules
  import opened SongRoster
  import opened SongLedger
  import opened SongLaws

  // ---------------------------------------------------------------------
  // The measure
  // ---------------------------------------------------------------------

  function PhaseRank(gs: Game): int {
    if InFlight(gs) then 2 else if Effective(gs) == SongResult then 1 else 0
  }

  function ClosedBlocks(gs: Game): int {
    if InFlight(gs) && gs.song.Some? then Potential(gs.song.value) else 0
  }

  // Decisions left before the next block opens or the song ends.
  function SubRank(gs: Game): int {
    if !InFlight(gs) then 0
    else
      var decisions := match AwaitingOf(gs) case ActiveTurn => 4 case StealTurn => 3 case LastChanceTurn => 2 case Nobody => 1;
      if Effective(gs) == PendingJudgement then decisions - 1 else decisions
  }

  function Vacancy(gs: Game): int { Indicator(gs.phase == JudgeVacant) }

  ghost predicate Less(after: Game, gs: Game) {
    || ActiveCount(after.participants) < ActiveCount(gs.participants)
    || (ActiveCount(after.participants) == ActiveCount(gs.participants) &&
        (|| UnplayedCount(after.cells) < UnplayedCount(gs.cells)
         || (UnplayedCount(after.cells) == UnplayedCount(gs.cells) &&
             (|| PhaseRank(after) < PhaseRank(gs)
              || (PhaseRank(after) == PhaseRank(gs) &&
                  (|| ClosedBlocks(after) < ClosedBlocks(gs)
                   || (ClosedBlocks(after) == ClosedBlocks(gs) &&
                       (|| SubRank(after) < SubRank(gs)
                        || (SubRank(after) == SubRank(gs) && Vacancy(after) < Vacancy(gs))))))))))
  }

  // No line is longer than k blocks.
  ghost predicate Bounded(gs: Game, k: int) {
    && (forall c :: 0 <= c < |gs.cells| ==> gs.cells[c].bucket <= k)
    && (gs.song.Some? ==> gs.song.value.bucket <= k)
  }

  // What one action does to the measure.
  ghost predicate Forward(gs: Game, after: Game) {
    && Less(after, gs)
    && (Begun(after) || after.phase == Finished)
    && UnplayedCount(after.cells) <= UnplayedCount(gs.cells)
    && forall k :: Bounded(gs, k) ==> Bounded(after, k)
  }

  // ---------------------------------------------------------------------
  // Each action
  // ---------------------------------------------------------------------

  lemma FinishForward(gs: Game, awarded: Team, points: int, skipped: bool, lastGuess: string)
    requires InFlight(gs) && gs.song.Some?
    ensures Forward(gs, FinishSong(gs, awarded, points, skipped, lastGuess))
  {
  }

  lemma RevealForward(gs: Game, index: int, after: Game)
    requires gs.phase == SongPlay && gs.song.Some? && |gs.song.value.mask| == |gs.song.value.blocks|
    requires RevealAt(gs, index) == Ok(after)
    ensures Forward(gs, after)
    ensures ClosedBlocks(after) < ClosedBlocks(gs)
  {
    var song := gs.song.value;
    RevealOne(song.mask, index);
    RevealedBounds(song.mask[index := true]);
  }

  // A later state of the same song.
  ghost predicate SameSong(gs: Game, after: Game) {
    && after.participants == gs.participants && after.cells == gs.cells
    && InFlight(gs) && InFlight(after) && gs.song.Some? && after.song.Some?
    && after.song.value.mask == gs.song.value.mask && after.song.value.blocks == gs.song.value.blocks
    && after.song.value.bucket == gs.song.value.bucket
  }

  lemma SubForward(gs: Game, after: Game)
    requires SameSong(gs, after) && SubRank(after) < SubRank(gs)
    ensures Forward(gs, after)
  {
  }

  lemma OpenForward(pack: Pack, gs: Game, user: nat, index: int, after: Game)
    requires Inv(pack, gs) && ApplyOpenBlock(gs, user, index) == Ok(after)
    ensures Forward(gs, after)
  {
    var song := gs.song.value;
    if song.stealAllowed && RevealedCount(song.mask) > 0 {
      SubForward(gs, after);
    } else {
      RevealForward(gs, index, after);
    }
  }

  lemma PassForward(pack: Pack, gs: Game, user: nat, after: Game)
    requires Inv(pack, gs) && ApplyPass(gs, user) == Ok(after)
    ensures Forward(gs, after)
  {
    if AwaitingOf(gs) == StealTurn {
      RevealForward(gs, gs.song.value.stealWindow, after);
    } else {
      FinishForward(gs, NoTeam, 0, false, gs.song.value.lastGuess);
    }
  }

  lemma JudgedForward(pack: Pack, gs: Game, user: nat, correct: bool, after: Game)
    requires Inv(pack, gs) && ApplyJudgeResult(gs, user, correct) == Ok(after)
    ensures Forward(gs, after)
  {
    var pending := gs.pending.value;
    if correct {
      FinishForward(gs, pending.claimant, pending.potential, false, pending.guess);
    } else if pending.kind == LastChanceGuess {
      FinishForward(gs, NoTeam, 0, false, pending.guess);
    } else if pending.kind == StealGuess {
      var lockedOut := gs.(phase := SongPlay, pending := None, song := Some(gs.song.value.(stealAllowed := false)));
      RevealForward(lockedOut, pending.owed, after);
      LockedOutForward(gs, lockedOut, after);
    } else {
      SubForward(gs, after);
    }
  }

  lemma LockedOutForward(gs: Game, lockedOut: Game, after: Game)
    requires SameSong(gs, lockedOut) && Forward(lockedOut, after) && ClosedBlocks(after) < ClosedBlocks(lockedOut)
    ensures Forward(gs, after)
  {
    forall k | Bounded(gs, k)
      ensures Bounded(after, k)
    {
      assert Bounded(lockedOut, k);
    }
  }

  lemma SelectForward(pack: Pack, gs: Game, user: nat, language: string, bucket: int, draw: nat, after: Game)
    requires ApplySelectCell(pack, gs, user, language, bucket, draw) == Ok(after)
    ensures Forward(gs, after)
  {
    var c := CellFor(gs.cells, language, bucket).value;
    DrawCounts(gs.cells, c, draw % |gs.cells[c].unplayed|);
  }

  lemma NextForward(pack: Pack, gs: Game, user: nat, after: Game)
    requires Inv(pack, gs) && ApplyNextRound(gs, user) == Ok(after)
    ensures Forward(gs, after)
  {
  }

  lemma SameActive(a: seq<Participant>, b: seq<Participant>)
    requires |a| == |b| && forall i :: 0 <= i < |a| ==> a[i].active == b[i].active
    ensures ActiveCount(a) == ActiveCount(b)
  {
    assert ActiveFlags(a) == ActiveFlags(b);
  }

  // Resuming leaves a vacancy behind.
  lemma ResumedLess(pack: Pack, gs: Game, t: nat)
    requires Inv(pack, gs) && gs.phase == JudgeVacant && t < |gs.participants| && gs.participants[t].active
    ensures Less(ResumedGame(gs, t), gs)
  {
    ReassignedKeeps(gs.participants, t);
    SameActive(gs.participants, Reassigned(gs.participants, t));
  }

  lemma AssignJudgeForward(pack: Pack, gs: Game, user: nat, seat: int, after: Game)
    requires Inv(pack, gs) && Begun(gs) && ApplyAssignJudge(gs, user, seat) == Ok(after)
    ensures Forward(gs, after)
  {
    var t := Target(gs, seat).value;
    ResumedLess(pack, gs, t);
    var resumed := ResumedGame(gs, t);
    if Terminal(resumed.participants) {
      FinalizedForward(resumed);
    }
  }

  // Ending the game never takes the measure up.
  lemma FinalizedForward(gs: Game)
    requires (InFlight(gs) ==> gs.song.Some?) && gs.phase != JudgeVacant
    ensures var after := Finalized(gs);
            && after.phase == Finished && after.participants == gs.participants && after.cells == gs.cells
            && (Less(after, gs) || SameMeasure(after, gs) || !InFlight(gs))
            && PhaseRank(after) == ClosedBlocks(after) == SubRank(after) == Vacancy(after) == 0
            && forall k :: Bounded(gs, k) ==> Bounded(after, k)
  {
  }

  ghost predicate SameMeasure(after: Game, gs: Game) {
    PhaseRank(after) == PhaseRank(gs) && ClosedBlocks(after) == ClosedBlocks(gs) && SubRank(after) == SubRank(gs)
  }

  lemma ResignForward(pack: Pack, gs: Game, user: nat, after: Game)
    requires Inv(pack, gs) && Begun(gs) && ApplyResign(gs, user) == Ok(after)
    ensures Forward(gs, after)
  {
    var i := OfUser(gs.participants, user).value;
    LeftCrew(gs, i);
    LeftKeeps(gs.participants, i);
  }

  lemma PlayForward(pack: Pack, gs: Game, user: nat, a: Action, draw: nat, after: Game)
    requires a.OpenBlock? || a.Guess? || a.Steal? || a.Pass? || a.SkipSong? || a.JudgeResult?
    requires Inv(pack, gs) && Dispatch(pack, gs, user, a, draw) == Ok(after)
    ensures Forward(gs, after)
  {
    match a {
      case OpenBlock(index) => OpenForward(pack, gs, user, index, after);
      case Pass => PassForward(pack, gs, user, after);
      case SkipSong => FinishForward(gs, NoTeam, 0, true, gs.song.value.lastGuess);
      case JudgeResult(correct) => JudgedForward(pack, gs, user, correct, after);
      case _ => SubForward(gs, after);
    }
  }

  lemma RoundForward(pack: Pack, gs: Game, user: nat, a: Action, draw: nat, after: Game)
    requires a.SelectCell? || a.NextRound? || a.Resign? || a.AssignJudge?
    requires Inv(pack, gs) && Begun(gs) && Dispatch(pack, gs, user, a, draw) == Ok(after)
    ensures Forward(gs, after)
  {
    match a {
      case SelectCell(language, bucket) => SelectForward(pack, gs, user, language, bucket, draw, after);
      case NextRound => NextForward(pack, gs, user, after);
      case Resign => ResignForward(pack, gs, user, after);
      case AssignJudge(seat) => AssignJudgeForward(pack, gs, user, seat, after);
    }
  }

  // Every accepted action but void takes a game that has begun strictly closer
  // to its end.
  lemma StepForward(pack: Pack, gs: Game, user: nat, a: Action, draw: nat, after: Game)
    requires Inv(pack, gs) && Begun(gs) && Apply(pack, gs, user, a, draw) == Ok(after) && !a.VoidDecision?
    ensures Forward(gs, after)
  {
    var stepped := Dispatch(pack, gs, user, a, draw).value;
    if a.SelectCell? || a.NextRound? || a.Resign? || a.AssignJudge? {
      RoundForward(pack, gs, user, a, draw, stepped);
    } else {
      assert a.OpenBlock? || a.Guess? || a.Steal? || a.Pass? || a.SkipSong? || a.JudgeResult?;
      PlayForward(pack, gs, user, a, draw, stepped);
    }
    CountedForward(gs, stepped, after);
  }

  lemma CountedForward(gs: Game, stepped: Game, after: Game)
    requires Forward(gs, stepped) && after == stepped.(seqNo := after.seqNo)
    ensures Forward(gs, after)
  {
    forall k | Bounded(gs, k)
      ensures Bounded(after, k)
    {
      assert Bounded(stepped, k);
    }
  }
}
