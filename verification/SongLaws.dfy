// The invariant of a game of "Guess the Song", kept by every accepted action.
module SongLaws {
  import opened Wrappers
  import opened Sums
  import opened SongTable
  import opened SongRules
  import opened SongRoster
  import opened SongLedger

  // ---------------------------------------------------------------------
  // The invariant
  // ---------------------------------------------------------------------

  // The game has begun and is not over.
  predicate Begun(gs: Game) {
    match Effective(gs)
    case RoundSelect | SongPlay | PendingJudgement | SongResult => true
    case _ => false
  }

  // The people: who they are, and once the game has begun, that every role
  // somebody must fill is filled.
  ghost predicate Crew(gs: Game) {
    && RosterOk(gs.participants) && HostStays(gs.participants, gs.hostSeat)
    && (gs.phase == JudgeVacant ==> JudgeOf(gs.participants).None?)
    && (Begun(gs) ==>
          && BothCovered(gs.participants) && !Terminal(gs.participants)
          && AtSeat(gs.participants, gs.hostSeat).Some?
          && gs.activeTeam != NoTeam
          && (gs.phase != JudgeVacant ==> JudgeOf(gs.participants).Some?))
  }

  ghost predicate SongOk(song: Song) {
    && |song.mask| == |song.blocks| == song.bucket && RevealedCount(song.mask) < |song.blocks|
    && song.awaiting != Nobody
    && (song.awaiting == StealTurn ==>
          song.stealAllowed && RevealedCount(song.mask) > 0 &&
          0 <= song.stealWindow < |song.mask| && !song.mask[song.stealWindow])
  }

  // A waiting decision says what it is worth and where void goes back to.
  ghost predicate PendingOk(song: Song, pending: Pending, activeTeam: Team) {
    && pending.potential == Potential(song) && pending.resume == song.awaiting
    && match pending.kind
       case ActiveGuess => song.awaiting == ActiveTurn && pending.claimant == activeTeam && !pending.revealAfter
       case StealGuess => song.awaiting == StealTurn && pending.claimant == Opponent(activeTeam) && pending.revealAfter && pending.owed == song.stealWindow
       case LastChanceGuess => song.awaiting == LastChanceTurn && pending.claimant == Opponent(activeTeam) && !pending.revealAfter
       case NoKind => false
  }

  ghost predicate Stage(gs: Game) {
    match Effective(gs)
    case Roster => gs.song.None? && gs.pending.None?
    case RoundSelect => gs.song.None? && gs.pending.None? && UnplayedCount(gs.cells) > 0
    case SongPlay => gs.song.Some? && SongOk(gs.song.value) && gs.pending.None?
    case PendingJudgement =>
      gs.song.Some? && SongOk(gs.song.value) && gs.pending.Some? && PendingOk(gs.song.value, gs.pending.value, gs.activeTeam)
    case SongResult => gs.pending.None?
    case Finished => gs.pending.None? && gs.phase == Finished
    case JudgeVacant => false
    case NoPhase => false
  }

  function LastActive(history: seq<Outcome>): Team {
    if history == [] then NoTeam else history[|history| - 1].activeTeam
  }

  // The round counter, and whose turn it is, agree with the finished songs.
  ghost predicate Turns(gs: Game) {
    && Alternates(gs.history)
    && match Effective(gs)
       case Roster => gs.history == [] && gs.roundNo == 0
       case SongResult => gs.history != [] && gs.roundNo == |gs.history| && LastActive(gs.history) == gs.activeTeam
       case Finished => |gs.history| <= gs.roundNo <= |gs.history| + 1
       case _ => gs.roundNo == |gs.history| + 1 && gs.activeTeam != NoTeam && LastActive(gs.history) != gs.activeTeam
  }

  ghost predicate Books(pack: Pack, gs: Game) {
    && Ledger(gs.history, gs.scoreA, gs.scoreB) && Turns(gs)
    && CellsOk(pack, gs.cells)
  }

  ghost predicate Inv(pack: Pack, gs: Game) {
    Crew(gs) && Stage(gs) && Books(pack, gs)
  }

  // ---------------------------------------------------------------------
  // Ending a song
  // ---------------------------------------------------------------------

  // A song in flight can be ended with an award for what is still closed,
  // or with none.
  lemma FinishKeeps(pack: Pack, gs: Game, awarded: Team, points: int, skipped: bool, lastGuess: string)
    requires Books(pack, gs) && InFlight(gs) && gs.song.Some? && gs.activeTeam != NoTeam
    requires |gs.song.value.blocks| == |gs.song.value.mask| == gs.song.value.bucket >= 1
    requires if awarded == NoTeam then points == 0
             else !skipped && points == Potential(gs.song.value) && RevealedCount(gs.song.value.mask) < |gs.song.value.mask|
    ensures Books(pack, FinishSong(gs, awarded, points, skipped, lastGuess))
    ensures Stage(FinishSong(gs, awarded, points, skipped, lastGuess))
  {
    var song := gs.song.value;
    var o := Outcome(song.id, song.language, song.bucket, RevealedCount(song.mask), awarded, points, skipped, gs.activeTeam);
    RevealedBounds(song.mask);
    AppendLedger(gs.history, gs.scoreA, gs.scoreB, o);
    AppendTurns(gs.history, o);
  }

  lemma AppendTurns(history: seq<Outcome>, o: Outcome)
    requires Alternates(history) && o.activeTeam != NoTeam && LastActive(history) != o.activeTeam
    ensures Alternates(history + [o])
  {
    var h := history + [o];
    forall i | 0 < i < |h|
      ensures Flips(h, i)
    {
      assert i < |history| ==> Flips(history, i);
    }
  }

  lemma FinalizedKeeps(pack: Pack, gs: Game)
    requires Books(pack, gs) && Stage(gs) && (InFlight(gs) ==> gs.activeTeam != NoTeam) && Effective(gs) != Finished
    requires RosterOk(gs.participants) && HostStays(gs.participants, gs.hostSeat)
    ensures Inv(pack, Finalized(gs)) && Finalized(gs).phase == Finished
  {
    if InFlight(gs) {
      RevealedBounds(gs.song.value.mask);
      FinishKeeps(pack, gs, NoTeam, 0, true, gs.song.value.lastGuess);
    }
  }

  // A game that goes on with the same books.
  ghost predicate SameBooks(gs: Game, after: Game) {
    && after.history == gs.history && after.scoreA == gs.scoreA && after.scoreB == gs.scoreB
    && after.roundNo == gs.roundNo && after.activeTeam == gs.activeTeam && after.cells == gs.cells
    && (if InFlight(gs) then InFlight(after) else Effective(after) == Effective(gs))
  }

  lemma BooksStay(pack: Pack, gs: Game, after: Game)
    requires Books(pack, gs) && SameBooks(gs, after)
    ensures Books(pack, after)
  {
  }

  // ---------------------------------------------------------------------
  // Playing and judging
  // ---------------------------------------------------------------------

  // Only the song, the decision and the phase changed, inside the game.
  ghost predicate SameCrew(gs: Game, after: Game) {
    && after.participants == gs.participants && after.hostSeat == gs.hostSeat && after.activeTeam == gs.activeTeam
    && after.phase != JudgeVacant
  }

  lemma CrewStays(gs: Game, after: Game)
    requires Crew(gs) && Begun(gs) && gs.phase != JudgeVacant && SameCrew(gs, after)
    ensures Crew(after)
  {
  }

  lemma RevealKeeps(pack: Pack, gs: Game, index: int, after: Game)
    requires Books(pack, gs) && Crew(gs) && gs.phase == SongPlay && gs.pending.None?
    requires gs.song.Some? && |gs.song.value.mask| == |gs.song.value.blocks| == gs.song.value.bucket
    requires RevealAt(gs, index) == Ok(after)
    ensures Inv(pack, after)
  {
    var song := gs.song.value;
    RevealOne(song.mask, index);
    RevealedBounds(song.mask[index := true]);
    var shown := gs.(song := Some(song.(mask := song.mask[index := true])));
    if Potential(shown.song.value) == 0 {
      assert Books(pack, shown);
      FinishKeeps(pack, shown, NoTeam, 0, false, song.lastGuess);
    }
    CrewStays(gs, after);
  }

  lemma OpenKeeps(pack: Pack, gs: Game, user: nat, index: int, after: Game)
    requires Inv(pack, gs) && ApplyOpenBlock(gs, user, index) == Ok(after)
    ensures Inv(pack, after)
  {
    var song := gs.song.value;
    if song.stealAllowed && RevealedCount(song.mask) > 0 {
      BooksStay(pack, gs, after);
      CrewStays(gs, after);
    } else {
      RevealKeeps(pack, gs, index, after);
    }
  }

  lemma {:induction false} ClaimKeeps(pack: Pack, gs: Game, user: nat, kind: JudgeKind, text: string)
    requires Inv(pack, gs) && gs.phase == SongPlay && OfUser(gs.participants, user).Some?
    requires match kind
             case ActiveGuess => gs.song.value.awaiting == ActiveTurn
             case StealGuess => gs.song.value.awaiting == StealTurn
             case LastChanceGuess => gs.song.value.awaiting == LastChanceTurn
             case NoKind => false
    ensures Inv(pack, Claimed(gs, user, kind, text))
  {
    BooksStay(pack, gs, Claimed(gs, user, kind, text));
    CrewStays(gs, Claimed(gs, user, kind, text));
  }

  lemma EndKeeps(pack: Pack, gs: Game, awarded: Team, points: int, skipped: bool, lastGuess: string)
    requires Inv(pack, gs) && (gs.phase == SongPlay || gs.phase == PendingJudgement)
    requires if awarded == NoTeam then points == 0 else !skipped && points == Potential(gs.song.value)
    ensures Inv(pack, FinishSong(gs, awarded, points, skipped, lastGuess))
  {
    RevealedBounds(gs.song.value.mask);
    FinishKeeps(pack, gs, awarded, points, skipped, lastGuess);
    CrewStays(gs, FinishSong(gs, awarded, points, skipped, lastGuess));
  }

  lemma JudgedKeeps(pack: Pack, gs: Game, user: nat, correct: bool, after: Game)
    requires Inv(pack, gs) && ApplyJudgeResult(gs, user, correct) == Ok(after)
    ensures Inv(pack, after)
  {
    var pending := gs.pending.value;
    if correct {
      EndKeeps(pack, gs, pending.claimant, pending.potential, false, pending.guess);
    } else {
      match pending.kind {
        case ActiveGuess =>
          BooksStay(pack, gs, after);
          CrewStays(gs, after);
        case StealGuess =>
          var lockedOut := gs.(phase := SongPlay, pending := None, song := Some(gs.song.value.(stealAllowed := false)));
          BooksStay(pack, gs, lockedOut);
          CrewStays(gs, lockedOut);
          RevealKeeps(pack, lockedOut, pending.owed, after);
        case LastChanceGuess =>
          EndKeeps(pack, gs, NoTeam, 0, false, pending.guess);
        case NoKind =>
      }
    }
  }

  lemma VoidKeeps(pack: Pack, gs: Game, user: nat, after: Game)
    requires Inv(pack, gs) && ApplyVoid(gs, user) == Ok(after)
    ensures Inv(pack, after)
  {
    BooksStay(pack, gs, after);
    CrewStays(gs, after);
  }

  // ---------------------------------------------------------------------
  // Rounds
  // ---------------------------------------------------------------------

  lemma SelectKeeps(pack: Pack, gs: Game, user: nat, language: string, bucket: int, draw: nat, after: Game)
    requires Inv(pack, gs) && ApplySelectCell(pack, gs, user, language, bucket, draw) == Ok(after)
    ensures Inv(pack, after)
  {
    var c := CellFor(gs.cells, language, bucket).value;
    var ids := gs.cells[c].unplayed;
    var k := draw % |ids|;
    assert Drawable(pack, gs.cells[c].bucket, ids[k]);
    DrawnCellsOk(pack, gs.cells, c, k);
    AllClosed(|after.song.value.blocks|);
    CrewStays(gs, after);
  }

  lemma NextKeeps(pack: Pack, gs: Game, user: nat, after: Game)
    requires Inv(pack, gs) && ApplyNextRound(gs, user) == Ok(after)
    ensures Inv(pack, after)
  {
    SumNonNegative(PoolSizes(gs.cells));
  }

  // ---------------------------------------------------------------------
  // The roster, leaving, and the judge's seat
  // ---------------------------------------------------------------------

  lemma LeftCrew(gs: Game, i: nat)
    requires Crew(gs) && gs.phase != Finished && i < |gs.participants| && gs.participants[i].active
    ensures var left := LeftGame(gs, i);
            && Effective(left) == Effective(gs)
            && RosterOk(left.participants) && HostStays(left.participants, left.hostSeat)
            && (!Terminal(left.participants) ==> Crew(left))
  {
    var ps := Left(gs.participants, i);
    LeftKeeps(gs.participants, i);
    HostAfterLeaving(gs.participants, i, gs.hostSeat);
    if gs.participants[i].judge {
      JudgeFound(gs.participants, i);
    }
    if Begun(gs) {
      LeftCovered(gs.participants, i);
    }
    if !Terminal(ps) {
      StaysManned(ps);
    }
  }

  // A changed crew, with the game's phase and books as before.
  lemma GoOnKeeps(pack: Pack, gs: Game, after: Game)
    requires Stage(gs) && Books(pack, gs) && gs.phase != Finished && SameBooks(gs, after) && Effective(after) == Effective(gs)
    requires after.song == gs.song && after.pending == gs.pending
    requires InFlight(gs) ==> gs.activeTeam != NoTeam
    requires RosterOk(after.participants) && HostStays(after.participants, after.hostSeat)
    requires !Terminal(after.participants) ==> Crew(after)
    ensures InFlight(after) ==> after.song.Some?
    ensures Inv(pack, GoOn(after))
  {
    BooksStay(pack, gs, after);
    StageStays(gs, after);
    if Terminal(after.participants) {
      FinalizedKeeps(pack, after);
    }
  }

  lemma ResignKeeps(pack: Pack, gs: Game, user: nat, after: Game)
    requires Inv(pack, gs) && gs.phase != Finished && ApplyResign(gs, user) == Ok(after)
    ensures Inv(pack, after)
  {
    var i := OfUser(gs.participants, user).value;
    LeftCrew(gs, i);
    GoOnKeeps(pack, gs, LeftGame(gs, i));
  }

  lemma StageStays(gs: Game, left: Game)
    requires Stage(gs) && Effective(left) == Effective(gs) && gs.phase != Finished
    requires left.song == gs.song && left.pending == gs.pending && left.cells == gs.cells && left.activeTeam == gs.activeTeam
    ensures Stage(left)
  {
  }

  lemma {:induction false} StaysManned(ps: seq<Participant>)
    requires !Terminal(ps)
    ensures FirstActive(ps).Some?
  {
    if forall i :: 0 <= i < |ps| ==> !ps[i].active {
      SumBounds(ActiveFlags(ps), 0, 0);
    }
  }

  lemma ReassignedCrew(gs: Game, t: nat)
    requires Crew(gs) && t < |gs.participants| && gs.participants[t].active
    ensures var ps := Reassigned(gs.participants, t);
            RosterOk(ps) && HostStays(ps, gs.hostSeat) && JudgeOf(ps).Some? &&
            (Begun(gs) ==> BothCovered(ps) && AtSeat(ps, gs.hostSeat).Some?)
  {
    ReassignedKeeps(gs.participants, t);
    HostKept(gs.participants, Reassigned(gs.participants, t), gs.hostSeat);
  }

  lemma AssignJudgeKeeps(pack: Pack, gs: Game, user: nat, seat: int, after: Game)
    requires Inv(pack, gs) && ApplyAssignJudge(gs, user, seat) == Ok(after)
    ensures Inv(pack, after)
  {
    var t := Target(gs, seat).value;
    ReassignedCrew(gs, t);
    if gs.phase == Roster {
      BooksStay(pack, gs, after);
    } else {
      GoOnKeeps(pack, gs, ResumedGame(gs, t));
    }
  }

  lemma {:induction false} HostKept(ps: seq<Participant>, r: seq<Participant>, hostSeat: int)
    requires RosterOk(r) && SamePeople(ps, r) && HostStays(ps, hostSeat)
    requires forall i :: 0 <= i < |ps| ==> r[i].active == ps[i].active
    ensures HostStays(r, hostSeat)
    ensures AtSeat(ps, hostSeat).Some? ==> AtSeat(r, hostSeat).Some?
  {
    forall i | 0 <= i < |r| && r[i].seat == hostSeat
      ensures r[i].active
    {
      assert SamePerson(ps[i], r[i]);
    }
    if AtSeat(ps, hostSeat).Some? {
      assert SamePerson(ps[AtSeat(ps, hostSeat).value], r[AtSeat(ps, hostSeat).value]);
      UserFound(r, AtSeat(ps, hostSeat).value);
    }
  }

  lemma AssignTeamKeeps(pack: Pack, gs: Game, user: nat, seat: int, wire: string, after: Game)
    requires Inv(pack, gs) && ApplyAssignTeam(gs, user, seat, wire) == Ok(after)
    ensures Inv(pack, after)
  {
    TeamChangeOk(gs.participants, Target(gs, seat).value, ParseTeam(wire).value);
    BooksStay(pack, gs, after);
  }

  lemma AssignCaptainKeeps(pack: Pack, gs: Game, user: nat, seat: int, after: Game)
    requires Inv(pack, gs) && ApplyAssignCaptain(gs, user, seat) == Ok(after)
    ensures Inv(pack, after)
  {
    CaptainedOk(gs.participants, Target(gs, seat).value);
    BooksStay(pack, gs, after);
  }

  lemma SetTeamNameKeeps(pack: Pack, gs: Game, user: nat, wire: string, name: string, after: Game)
    requires Inv(pack, gs) && ApplySetTeamName(gs, user, wire, name) == Ok(after)
    ensures Inv(pack, after)
  {
    BooksStay(pack, gs, after);
  }

  lemma BeginKeeps(pack: Pack, gs: Game, user: nat, starting: string, after: Game)
    requires Inv(pack, gs) && ApplyBeginGame(gs, user, starting) == Ok(after)
    ensures Inv(pack, after) && Begun(after)
  {
    ReadyCrew(gs.participants);
    SumNonNegative(PoolSizes(gs.cells));
    UserFound(gs.participants, OfUser(gs.participants, user).value);
  }

  // ---------------------------------------------------------------------
  // Every accepted action
  // ---------------------------------------------------------------------

  lemma RosterStepKeeps(pack: Pack, gs: Game, user: nat, a: Action, draw: nat, after: Game)
    requires a.AssignTeam? || a.AssignCaptain? || a.SetTeamName? || a.AssignJudge? || a.BeginGame?
    requires Inv(pack, gs) && Dispatch(pack, gs, user, a, draw) == Ok(after)
    ensures Inv(pack, after)
  {
    match a {
      case AssignTeam(seat, team) => AssignTeamKeeps(pack, gs, user, seat, team, after);
      case AssignCaptain(seat) => AssignCaptainKeeps(pack, gs, user, seat, after);
      case SetTeamName(team, name) => SetTeamNameKeeps(pack, gs, user, team, name, after);
      case AssignJudge(seat) => AssignJudgeKeeps(pack, gs, user, seat, after);
      case BeginGame(starting) => BeginKeeps(pack, gs, user, starting, after);
    }
  }

  lemma PlayStepKeeps(pack: Pack, gs: Game, user: nat, a: Action, draw: nat, after: Game)
    requires a.OpenBlock? || a.Guess? || a.Steal? || a.Pass?
    requires Inv(pack, gs) && Dispatch(pack, gs, user, a, draw) == Ok(after)
    ensures Inv(pack, after)
  {
    match a {
      case OpenBlock(index) => OpenKeeps(pack, gs, user, index, after);
      case Guess(text) => ClaimKeeps(pack, gs, user, if AwaitingOf(gs) == ActiveTurn then ActiveGuess else LastChanceGuess, text);
      case Steal(text) => ClaimKeeps(pack, gs, user, StealGuess, text);
      case Pass => PassKeeps(pack, gs, user, after);
    }
  }

  lemma JudgeStepKeeps(pack: Pack, gs: Game, user: nat, a: Action, draw: nat, after: Game)
    requires a.SkipSong? || a.JudgeResult? || a.VoidDecision?
    requires Inv(pack, gs) && Dispatch(pack, gs, user, a, draw) == Ok(after)
    ensures Inv(pack, after)
  {
    match a {
      case SkipSong => EndKeeps(pack, gs, NoTeam, 0, true, gs.song.value.lastGuess);
      case JudgeResult(correct) => JudgedKeeps(pack, gs, user, correct, after);
      case VoidDecision => VoidKeeps(pack, gs, user, after);
    }
  }

  lemma RoundStepKeeps(pack: Pack, gs: Game, user: nat, a: Action, draw: nat, after: Game)
    requires a.SelectCell? || a.NextRound? || a.Resign?
    requires Inv(pack, gs) && gs.phase != Finished && Dispatch(pack, gs, user, a, draw) == Ok(after)
    ensures Inv(pack, after)
  {
    match a {
      case SelectCell(language, bucket) => SelectKeeps(pack, gs, user, language, bucket, draw, after);
      case NextRound => NextKeeps(pack, gs, user, after);
      case Resign => ResignKeeps(pack, gs, user, after);
    }
  }

  // Whatever anybody does, the invariant stays.
  lemma StepKeeps(pack: Pack, gs: Game, user: nat, a: Action, draw: nat, after: Game)
    requires Inv(pack, gs) && Apply(pack, gs, user, a, draw) == Ok(after)
    ensures Inv(pack, after)
  {
    var stepped := Dispatch(pack, gs, user, a, draw).value;
    if a.AssignTeam? || a.AssignCaptain? || a.SetTeamName? || a.AssignJudge? || a.BeginGame? {
      RosterStepKeeps(pack, gs, user, a, draw, stepped);
    } else if a.OpenBlock? || a.Guess? || a.Steal? || a.Pass? {
      PlayStepKeeps(pack, gs, user, a, draw, stepped);
    } else if a.SkipSong? || a.JudgeResult? || a.VoidDecision? {
      JudgeStepKeeps(pack, gs, user, a, draw, stepped);
    } else {
      RoundStepKeeps(pack, gs, user, a, draw, stepped);
    }
    CountedKeeps(pack, stepped, after);
  }

  lemma CountedKeeps(pack: Pack, gs: Game, after: Game)
    requires Inv(pack, gs) && after == gs.(seqNo := after.seqNo)
    ensures Inv(pack, after)
  {
  }

  lemma PassKeeps(pack: Pack, gs: Game, user: nat, after: Game)
    requires Inv(pack, gs) && ApplyPass(gs, user) == Ok(after)
    ensures Inv(pack, after)
  {
    if AwaitingOf(gs) == StealTurn {
      RevealKeeps(pack, gs, gs.song.value.stealWindow, after);
    } else {
      EndKeeps(pack, gs, NoTeam, 0, false, gs.song.value.lastGuess);
    }
  }
}
