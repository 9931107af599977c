// What every action of "Guess the Song" does, and who may do it.
module SongSteps {
  import opened Wrappers
  import opened Sums
  import opened SongTable
  import opened SongRules
  import opened SongRoster
  import opened SongLedger
  import opened SongLaws
  import opened SongAnswers

  // ---------------------------------------------------------------------
  // Who may act
  // ---------------------------------------------------------------------

  ghost predicate IsCaptain(gs: Game, user: nat, team: Team) {
    exists i :: 0 <= i < |gs.participants| && gs.participants[i].user == user && gs.participants[i].active && IsCaptainOf(gs.participants[i], team)
  }

  ghost predicate IsJudge(gs: Game, user: nat) {
    exists i :: 0 <= i < |gs.participants| && gs.participants[i].user == user && gs.participants[i].active && gs.participants[i].judge
  }

  ghost predicate IsHost(gs: Game, user: nat) {
    exists i :: 0 <= i < |gs.participants| && gs.participants[i].user == user && gs.participants[i].active && gs.participants[i].seat == gs.hostSeat
  }

  ghost predicate IsPlaying(gs: Game, user: nat) {
    exists i :: 0 <= i < |gs.participants| && gs.participants[i].user == user && gs.participants[i].active
  }

  // Each action belongs to one role.
  ghost predicate IsHis(gs: Game, user: nat, a: Action) {
    match a
    case SelectCell(_, _) | OpenBlock(_) => IsCaptain(gs, user, gs.activeTeam)
    case Guess(_) => IsCaptain(gs, user, Asked(gs))
    case Steal(_) | Pass => IsCaptain(gs, user, Opponent(gs.activeTeam))
    case JudgeResult(_) | VoidDecision => IsJudge(gs, user)
    case NextRound => IsCaptain(gs, user, Opponent(gs.activeTeam)) || IsHost(gs, user)
    case Resign => IsPlaying(gs, user)
    case Unknown => false
    case _ => IsHost(gs, user)
  }

  lemma CaptainMay(gs: Game, user: nat, team: Team)
    requires RosterOk(gs.participants) && CaptainGuard(gs, user, team).None?
    ensures IsCaptain(gs, user, team)
  {
    var i := OfUser(gs.participants, user).value;
    var c := CaptainOf(gs.participants, team).value;
    SeatIsUnique(gs.participants, i, c);
    assert MemberOk(gs.participants[i]);
  }

  lemma HostMay(gs: Game, user: nat)
    requires Crew(gs) && HostGuard(gs, user).None?
    ensures IsHost(gs, user)
  {
    var i := OfUser(gs.participants, user).value;
  }

  lemma JudgeMay(gs: Game, user: nat)
    requires RosterOk(gs.participants) && JudgeGuard(gs, user).None?
    ensures IsJudge(gs, user)
  {
    var i := OfUser(gs.participants, user).value;
    assert MemberOk(gs.participants[i]);
  }

  // An accepted action comes from the one it belongs to.
  lemma RightOne(pack: Pack, gs: Game, user: nat, a: Action, draw: nat)
    requires Inv(pack, gs) && Apply(pack, gs, user, a, draw).Ok?
    ensures IsHis(gs, user, a)
  {
    match a {
      case SelectCell(_, _) => CaptainMay(gs, user, gs.activeTeam);
      case OpenBlock(_) => CaptainMay(gs, user, gs.activeTeam);
      case Guess(_) => CaptainMay(gs, user, Asked(gs));
      case Steal(_) => CaptainMay(gs, user, Opponent(gs.activeTeam));
      case Pass => CaptainMay(gs, user, Opponent(gs.activeTeam));
      case JudgeResult(_) => JudgeMay(gs, user);
      case VoidDecision => JudgeMay(gs, user);
      case NextRound =>
        if CaptainGuard(gs, user, Opponent(gs.activeTeam)).None? {
          CaptainMay(gs, user, Opponent(gs.activeTeam));
        } else {
          HostMay(gs, user);
        }
      case Resign =>
      case _ => HostMay(gs, user);
    }
  }

  // ---------------------------------------------------------------------
  // Songs begin, open and end
  // ---------------------------------------------------------------------

  // A block the active captain asks for is offered to the opponents if they
  // may still steal and something is open; otherwise it opens.
  ghost predicate Requested(gs: Game, after: Game, index: int) {
    gs.song.Some? &&
    if gs.song.value.stealAllowed && |Closed(gs.song.value.mask)| < |gs.song.value.mask| then
      && after.phase == SongPlay && SameScores(gs, after)
      && after.song == Some(gs.song.value.(awaiting := StealTurn, stealWindow := index))
    else Opened(gs, after, index, gs.song.value.stealAllowed)
  }

  lemma OpenDoes(pack: Pack, gs: Game, user: nat, index: int, draw: nat, after: Game)
    requires Inv(pack, gs) && Apply(pack, gs, user, OpenBlock(index), draw) == Ok(after)
    ensures gs.phase == SongPlay && AwaitingOf(gs) == ActiveTurn && Requested(gs, after, index)
  {
    ClosedCount(gs.song.value.mask);
    if !(gs.song.value.stealAllowed && RevealedCount(gs.song.value.mask) > 0) {
      RevealOpens(gs, index, RevealAt(gs, index).value);
    }
  }

  // The opponents let the offered block open, or give up the last chance.
  lemma PassDoes(pack: Pack, gs: Game, user: nat, draw: nat, after: Game)
    requires Inv(pack, gs) && Apply(pack, gs, user, Pass, draw) == Ok(after)
    ensures gs.phase == SongPlay && (AwaitingOf(gs) == StealTurn || AwaitingOf(gs) == LastChanceTurn)
    ensures AwaitingOf(gs) == StealTurn ==> Opened(gs, after, gs.song.value.stealWindow, true)
    ensures AwaitingOf(gs) == LastChanceTurn ==> Lost(gs, after, gs.song.value.mask, false)
  {
    var song := gs.song.value;
    if song.awaiting == StealTurn {
      RevealOpens(gs, song.stealWindow, RevealAt(gs, song.stealWindow).value);
    } else {
      EndRecords(gs, NoTeam, 0, false, song.lastGuess);
    }
  }

  lemma SkipDoes(pack: Pack, gs: Game, user: nat, draw: nat, after: Game)
    requires Inv(pack, gs) && Apply(pack, gs, user, SkipSong, draw) == Ok(after)
    ensures (gs.phase == SongPlay || gs.phase == PendingJudgement) && Lost(gs, after, gs.song.value.mask, true)
  {
    EndRecords(gs, NoTeam, 0, true, gs.song.value.lastGuess);
  }

  // A song of the chosen cell, that was not played yet, with all blocks
  // closed; it leaves its cell, and no other cell changes.
  ghost predicate Selected(pack: Pack, gs: Game, after: Game, language: string, bucket: int) {
    && after.phase == SongPlay && SameScores(gs, after) && after.song.Some? && |after.cells| == |gs.cells|
    && var song := after.song.value;
       && song.language == language && song.bucket == bucket && song.awaiting == ActiveTurn && song.stealAllowed
       && |song.blocks| == |song.mask| == bucket && (forall i :: 0 <= i < bucket ==> !song.mask[i])
       && SongById(pack, song.id).Some? && song.blocks == SongById(pack, song.id).value.line
       && exists c :: 0 <= c < |gs.cells| && LeavesCell(gs.cells, after.cells, c, song.id) && gs.cells[c].language == language && gs.cells[c].bucket == bucket
  }

  ghost predicate LeavesCell(before: seq<Cell>, after: seq<Cell>, c: nat, id: nat) {
    && c < |before| == |after| && (forall d :: 0 <= d < |before| && d != c ==> after[d] == before[d])
    && multiset(before[c].unplayed) == multiset(after[c].unplayed) + multiset{id}
    && after[c].played == before[c].played + 1
  }

  lemma SwapRemoveTakes(ids: seq<nat>, k: nat)
    requires k < |ids|
    ensures multiset(ids) == multiset(SwapRemove(ids, k)) + multiset{ids[k]}
  {
    var n := |ids| - 1;
    var swapped := ids[k := ids[n]];
    assert swapped == swapped[..n] + [ids[n]];
    assert multiset(swapped) == multiset(ids) - multiset{ids[k]} + multiset{ids[n]};
  }

  lemma SelectDoes(pack: Pack, gs: Game, user: nat, language: string, bucket: int, draw: nat, after: Game)
    requires Inv(pack, gs) && Apply(pack, gs, user, SelectCell(language, bucket), draw) == Ok(after)
    ensures gs.phase == RoundSelect && Selected(pack, gs, after, language, bucket)
  {
    var c := CellFor(gs.cells, language, bucket).value;
    var ids := gs.cells[c].unplayed;
    SwapRemoveTakes(ids, draw % |ids|);
    assert Drawable(pack, gs.cells[c].bucket, ids[draw % |ids|]);
    assert LeavesCell(gs.cells, after.cells, c, after.song.value.id);
  }

  // ---------------------------------------------------------------------
  // Points come from right answers alone
  // ---------------------------------------------------------------------

  // No points, and at most one song that nobody won.
  ghost predicate Scoreless(gs: Game, after: Game) {
    && after.scoreA == gs.scoreA && after.scoreB == gs.scoreB
    && |gs.history| <= |after.history| <= |gs.history| + 1 && after.history[..|gs.history|] == gs.history
    && (|after.history| > |gs.history| ==> after.history[|gs.history|].awarded == NoTeam && after.history[|gs.history|].points == 0)
  }

  lemma EndScoreless(gs: Game, after: Game, skipped: bool, lastGuess: string)
    requires gs.song.Some? && after.history == FinishSong(gs, NoTeam, 0, skipped, lastGuess).history
    requires after.scoreA == gs.scoreA && after.scoreB == gs.scoreB
    ensures Scoreless(gs, after)
  {
  }

  lemma PlayScoreless(pack: Pack, gs: Game, user: nat, a: Action, draw: nat, after: Game)
    requires Inv(pack, gs) && Apply(pack, gs, user, a, draw) == Ok(after)
    requires a.OpenBlock? || a.Pass? || a.SkipSong? || a == JudgeResult(false)
    ensures Scoreless(gs, after)
  {
    match a {
      case OpenBlock(index) => OpenDoes(pack, gs, user, index, draw, after);
      case Pass => PassDoes(pack, gs, user, draw, after);
      case SkipSong => SkipDoes(pack, gs, user, draw, after);
      case JudgeResult(_) => JudgedWrong(pack, gs, user, draw, after);
    }
  }

  lemma FinalizedScoreless(gs: Game)
    requires InFlight(gs) ==> gs.song.Some?
    ensures Scoreless(gs, Finalized(gs))
  {
    if InFlight(gs) {
      EndScoreless(gs, Finalized(gs), true, gs.song.value.lastGuess);
    }
  }

  lemma GoOnScoreless(gs: Game, mid: Game)
    requires (InFlight(mid) ==> mid.song.Some?) && mid.history == gs.history && mid.scoreA == gs.scoreA && mid.scoreB == gs.scoreB
    ensures Scoreless(gs, GoOn(mid))
  {
    FinalizedScoreless(mid);
  }

  // No other action than a right decision scores.
  lemma OnlyRightAnswersScore(pack: Pack, gs: Game, user: nat, a: Action, draw: nat, after: Game)
    requires Inv(pack, gs) && Apply(pack, gs, user, a, draw) == Ok(after) && a != JudgeResult(true)
    ensures Scoreless(gs, after)
  {
    var stepped := Dispatch(pack, gs, user, a, draw).value;
    match a {
      case OpenBlock(_) => PlayScoreless(pack, gs, user, a, draw, after);
      case Pass => PlayScoreless(pack, gs, user, a, draw, after);
      case SkipSong => PlayScoreless(pack, gs, user, a, draw, after);
      case JudgeResult(_) => PlayScoreless(pack, gs, user, a, draw, after);
      case Resign => GoOnScoreless(gs, LeftGame(gs, OfUser(gs.participants, user).value));
      case AssignJudge(seat) => AssignScoreless(pack, gs, user, seat, draw, after);
      case NextRound => FinalizedScoreless(gs.(activeTeam := Opponent(gs.activeTeam), song := None));
      case _ => OthersScoreless(pack, gs, user, a, draw, stepped);
    }
  }

  lemma AssignScoreless(pack: Pack, gs: Game, user: nat, seat: int, draw: nat, after: Game)
    requires Inv(pack, gs) && Apply(pack, gs, user, AssignJudge(seat), draw) == Ok(after)
    ensures Scoreless(gs, after)
  {
    if gs.phase == JudgeVacant {
      GoOnScoreless(gs, ResumedGame(gs, Target(gs, seat).value));
    }
  }

  lemma OthersScoreless(pack: Pack, gs: Game, user: nat, a: Action, draw: nat, after: Game)
    requires Present(gs) && Dispatch(pack, gs, user, a, draw) == Ok(after)
    requires a.AssignTeam? || a.AssignCaptain? || a.SetTeamName? || a.BeginGame? || a.SelectCell? || a.Guess? || a.Steal? || a.VoidDecision? || a.Unknown?
    ensures Scoreless(gs, after)
  {
  }

  // ---------------------------------------------------------------------
  // Rounds, and the end of the game
  // ---------------------------------------------------------------------

  // The other team is up, or the game is over when no song is left.
  lemma NextDoes(pack: Pack, gs: Game, user: nat, draw: nat, after: Game)
    requires Inv(pack, gs) && Apply(pack, gs, user, NextRound, draw) == Ok(after)
    ensures gs.phase == SongResult && after.activeTeam == Opponent(gs.activeTeam) && after.history == gs.history
    ensures after.phase == if forall c :: 0 <= c < |gs.cells| ==> gs.cells[c].unplayed == [] then Finished else RoundSelect
  {
    NothingLeft(gs.cells);
  }

  lemma NothingLeft(cells: seq<Cell>)
    ensures UnplayedCount(cells) == 0 <==> forall c :: 0 <= c < |cells| ==> cells[c].unplayed == []
  {
    SumNonNegative(PoolSizes(cells));
  }

  lemma BeginDoes(pack: Pack, gs: Game, user: nat, starting: string, draw: nat, after: Game)
    requires Inv(pack, gs) && Apply(pack, gs, user, BeginGame(starting), draw) == Ok(after)
    ensures gs.phase == Roster && after.phase == RoundSelect && after.participants == gs.participants && after.cells == gs.cells
    ensures after.activeTeam == (if starting == "b" then TeamB else TeamA) && (starting == "" || starting == "a" || starting == "b")
  {
  }

  // ---------------------------------------------------------------------
  // Leaving
  // ---------------------------------------------------------------------

  // Too few people: a team without anybody, or fewer than three in all.
  ghost predicate TooFew(ps: seq<Participant>) {
    || (forall i :: 0 <= i < |ps| ==> !PlaysFor(ps[i], TeamA))
    || (forall i :: 0 <= i < |ps| ==> !PlaysFor(ps[i], TeamB))
    || |Staying(ps)| < 3
  }

  ghost function Staying(ps: seq<Participant>): set<nat> {
    set i | 0 <= i < |ps| && ps[i].active
  }

  lemma {:induction false} StayingCount(ps: seq<Participant>)
    ensures |Staying(ps)| == ActiveCount(ps)
  {
    if ps != [] {
      var n := |ps| - 1;
      StayingCount(ps[..n]);
      SumAppend(ActiveFlags(ps[..n]), Indicator(ps[n].active));
      assert ActiveFlags(ps) == ActiveFlags(ps[..n]) + [Indicator(ps[n].active)];
      assert Staying(ps) == Staying(ps[..n]) + if ps[n].active then {n} else {};
    } else {
      assert Staying(ps) == {};
    }
  }

  lemma NoMembers(ps: seq<Participant>, team: Team)
    ensures MemberCount(ps, team) == 0 <==> forall i :: 0 <= i < |ps| ==> !PlaysFor(ps[i], team)
  {
    SumNonNegative(MemberFlags(ps, team));
  }

  lemma TooFewMeans(ps: seq<Participant>)
    ensures Terminal(ps) <==> TooFew(ps)
  {
    NoMembers(ps, TeamA);
    NoMembers(ps, TeamB);
    StayingCount(ps);
  }

  // Of the others in the team of participant i, k has the lowest seat.
  ghost predicate Inherits(ps: seq<Participant>, i: nat, k: nat) {
    && i < |ps| && k < |ps| && k != i && PlaysFor(ps[k], ps[i].team)
    && forall j :: 0 <= j < |ps| && j != i && PlaysFor(ps[j], ps[i].team) ==> ps[k].seat <= ps[j].seat
  }

  // Participant i gives up his roles and keeps his team; a captaincy goes to
  // the lowest seat left in the team, and nobody else changes.
  ghost predicate OneLeaves(before: seq<Participant>, after: seq<Participant>, i: nat) {
    && i < |before| == |after| && after[i] == before[i].(active := false, captain := false, judge := false)
    && forall k :: 0 <= k < |before| && k != i ==>
         after[k] == before[k].(captain := before[k].captain || (before[i].captain && Inherits(before, i, k)))
  }

  lemma LeftLeaves(ps: seq<Participant>, i: nat)
    requires RosterOk(ps) && i < |ps|
    ensures OneLeaves(ps, Left(ps, i), i)
  {
    var left := Left(ps, i);
    forall k | 0 <= k < |ps| && k != i
      ensures left[k] == ps[k].(captain := ps[k].captain || (ps[i].captain && Inherits(ps, i, k)))
    {
      if ps[i].captain {
        HeirIsFirst(ps, i, k);
      }
    }
  }

  lemma HeirIsFirst(ps: seq<Participant>, i: nat, k: nat)
    requires RosterOk(ps) && i < |ps| && k < |ps| && k != i
    ensures Inherits(ps, i, k) <==> FirstOf(Gone(ps, i), ps[i].team) == Some(k)
  {
    var gone := Gone(ps, i);
    var heir := FirstOf(gone, ps[i].team);
    assert forall j :: 0 <= j < |ps| ==> (PlaysFor(gone[j], ps[i].team) <==> j != i && PlaysFor(ps[j], ps[i].team));
    if heir.Some? {
      assert PlaysFor(gone[heir.value], ps[i].team);
      if heir.value < k { assert Apart(ps[heir.value], ps[k]); }
      if heir == Some(k) {
        forall j | 0 <= j < |ps| && j != i && PlaysFor(ps[j], ps[i].team)
          ensures ps[k].seat <= ps[j].seat
        {
          assert PlaysFor(gone[j], ps[i].team);
          if k < j { assert Apart(ps[k], ps[j]); }
        }
      }
    }
    if Inherits(ps, i, k) {
      assert PlaysFor(gone[k], ps[i].team);
    }
  }

  // One leaves: the game is over if too few stay, and otherwise goes on in its
  // phase or, without a judge, waits for one. The host's rights pass to the
  // lowest seat that stays.
  lemma ResignDoes(pack: Pack, gs: Game, user: nat, draw: nat, after: Game) returns (i: nat)
    requires Inv(pack, gs) && Apply(pack, gs, user, Resign, draw) == Ok(after)
    ensures i < |gs.participants| == |after.participants| && gs.participants[i].user == user && gs.participants[i].active
    ensures OneLeaves(gs.participants, after.participants, i)
    ensures if TooFew(after.participants) then after.phase == Finished
            else if gs.participants[i].judge then after.phase == JudgeVacant && after.resumePhase == gs.phase
            else after.phase == gs.phase && after.resumePhase == gs.resumePhase
    ensures gs.participants[i].seat != gs.hostSeat ==> after.hostSeat == gs.hostSeat
    ensures gs.participants[i].seat == gs.hostSeat && Staying(after.participants) != {} ==> HostIsLowest(after.participants, after.hostSeat)
  {
    i := OfUser(gs.participants, user).value;
    LeftDoes(gs, i);
    OverOrOn(LeftGame(gs, i));
  }

  lemma LeftDoes(gs: Game, i: nat)
    requires RosterOk(gs.participants) && i < |gs.participants| && gs.participants[i].active
    ensures var left := LeftGame(gs, i);
            && OneLeaves(gs.participants, left.participants, i)
            && (if gs.participants[i].judge then left.phase == JudgeVacant && left.resumePhase == gs.phase
                else left.phase == gs.phase && left.resumePhase == gs.resumePhase)
            && (gs.participants[i].seat != gs.hostSeat ==> left.hostSeat == gs.hostSeat)
            && (gs.participants[i].seat == gs.hostSeat && Staying(left.participants) != {} ==> HostIsLowest(left.participants, left.hostSeat))
  {
    LeftKeeps(gs.participants, i);
    LeftLeaves(gs.participants, i);
    if Staying(Left(gs.participants, i)) != {} {
      LowestHosts(Left(gs.participants, i));
    }
  }

  lemma OverOrOn(gs: Game)
    requires InFlight(gs) ==> gs.song.Some?
    ensures GoOn(gs).participants == gs.participants && GoOn(gs).hostSeat == gs.hostSeat
    ensures if TooFew(gs.participants) then GoOn(gs).phase == Finished
            else GoOn(gs).phase == gs.phase && GoOn(gs).resumePhase == gs.resumePhase
  {
    TooFewMeans(gs.participants);
  }

  ghost predicate HostIsLowest(ps: seq<Participant>, seat: int) {
    && (exists i :: 0 <= i < |ps| && ps[i].active && ps[i].seat == seat)
    && forall i :: 0 <= i < |ps| && ps[i].active ==> seat <= ps[i].seat
  }

  lemma LowestHosts(ps: seq<Participant>)
    requires RosterOk(ps) && Staying(ps) != {}
    ensures HostIsLowest(ps, LowestActiveSeat(ps))
  {
    var k :| k in Staying(ps);
    var first := FirstActive(ps).value;
    forall i | 0 <= i < |ps| && ps[i].active
      ensures ps[first].seat <= ps[i].seat
    {
      assert first < i ==> Apart(ps[first], ps[i]);
    }
  }

  // ---------------------------------------------------------------------
  // The roster
  // ---------------------------------------------------------------------

  // The same people in the same teams; only captaincies and the judgeship move.
  ghost predicate SameTeamsBut(a: seq<Participant>, b: seq<Participant>, t: nat) {
    && t < |a| == |b| && b[t].seat == a[t].seat && b[t].user == a[t].user && b[t].active == a[t].active
    && forall i :: 0 <= i < |a| && i != t ==> b[i] == a[i].(captain := b[i].captain, judge := b[i].judge)
  }

  lemma AssignTeamDoes(pack: Pack, gs: Game, user: nat, seat: int, wire: string, draw: nat, after: Game) returns (t: nat)
    requires Inv(pack, gs) && Apply(pack, gs, user, AssignTeam(seat, wire), draw) == Ok(after)
    ensures gs.phase == Roster && t < |gs.participants| && gs.participants[t].seat == seat && ParseTeam(wire).Some?
    ensures var p, team := gs.participants[t], ParseTeam(wire).value;
            after.participants == gs.participants[t := p.(team := team, captain := p.captain && team == p.team)]
  {
    t := Target(gs, seat).value;
  }

  lemma AssignCaptainDoes(pack: Pack, gs: Game, user: nat, seat: int, draw: nat, after: Game) returns (t: nat)
    requires Inv(pack, gs) && Apply(pack, gs, user, AssignCaptain(seat), draw) == Ok(after)
    ensures gs.phase == Roster && t < |gs.participants| && gs.participants[t].seat == seat && SameTeamsBut(gs.participants, after.participants, t)
    ensures after.participants[t].team == gs.participants[t].team
    ensures CaptainOf(after.participants, gs.participants[t].team) == Some(t)
  {
    t := Target(gs, seat).value;
    StepKeeps(pack, gs, user, AssignCaptain(seat), draw, after);
    CaptainFound(after.participants, t);
  }

  lemma AssignJudgeDoes(pack: Pack, gs: Game, user: nat, seat: int, draw: nat, after: Game) returns (t: nat)
    requires Inv(pack, gs) && gs.phase == Roster && Apply(pack, gs, user, AssignJudge(seat), draw) == Ok(after)
    ensures t < |gs.participants| && gs.participants[t].seat == seat && SameTeamsBut(gs.participants, after.participants, t)
    ensures JudgeOf(after.participants) == Some(t) && after.participants[t].team == NoTeam
  {
    t := Target(gs, seat).value;
    ReassignedKeeps(gs.participants, t);
    JudgeHasNoTeam(after.participants, t);
    ReassignedTeams(gs.participants, t);
  }

  lemma ReassignedTeams(ps: seq<Participant>, t: nat)
    requires t < |ps|
    ensures SameTeamsBut(ps, Reassigned(ps, t), t)
  {
  }

  lemma {:induction false} JudgeHasNoTeam(ps: seq<Participant>, t: nat)
    requires RosterOk(ps) && JudgeOf(ps) == Some(t)
    ensures ps[t].team == NoTeam
  {
    assert MemberOk(ps[t]);
  }

  // A vacancy filled: the interrupted phase goes on where it was, or the game
  // is over because too few are left.
  lemma VacancyFilled(pack: Pack, gs: Game, user: nat, seat: int, draw: nat, after: Game) returns (t: nat)
    requires Inv(pack, gs) && gs.phase == JudgeVacant && Apply(pack, gs, user, AssignJudge(seat), draw) == Ok(after)
    ensures t < |gs.participants| && gs.participants[t].seat == seat && SameTeamsBut(gs.participants, after.participants, t)
    ensures JudgeOf(after.participants) == Some(t) && after.participants[t].team == NoTeam
    ensures if TooFew(after.participants) then after.phase == Finished
            else after.phase == gs.resumePhase && after.song == gs.song && after.pending == gs.pending && SameScores(gs, after)
  {
    t := Target(gs, seat).value;
    var filled := GoOn(ResumedGame(gs, t));
    assert ApplyAssignJudge(gs, user, seat) == Ok(filled);
    assert after == filled.(seqNo := filled.seqNo + 1);
    Filled(gs, t);
  }

  lemma Filled(gs: Game, t: nat)
    requires Present(gs) && RosterOk(gs.participants) && gs.phase == JudgeVacant && t < |gs.participants| && gs.participants[t].active
    requires InFlight(ResumedGame(gs, t)) ==> gs.song.Some?
    ensures var after := GoOn(ResumedGame(gs, t));
            && SameTeamsBut(gs.participants, after.participants, t)
            && JudgeOf(after.participants) == Some(t) && after.participants[t].team == NoTeam
            && if TooFew(after.participants) then after.phase == Finished
               else after.phase == gs.resumePhase && after.song == gs.song && after.pending == gs.pending && SameScores(gs, after)
  {
    ReassignedKeeps(gs.participants, t);
    JudgeHasNoTeam(Reassigned(gs.participants, t), t);
    ReassignedTeams(gs.participants, t);
    TooFewMeans(Reassigned(gs.participants, t));
  }

  lemma SetTeamNameDoes(pack: Pack, gs: Game, user: nat, wire: string, name: string, draw: nat, after: Game)
    requires Inv(pack, gs) && Apply(pack, gs, user, SetTeamName(wire, name), draw) == Ok(after)
    ensures gs.phase == Roster && 1 <= |name| <= 32 && (wire == "a" || wire == "b")
    ensures after == gs.(nameA := if wire == "a" then name else gs.nameA, nameB := if wire == "b" then name else gs.nameB, seqNo := gs.seqNo + 1)
  {
  }
}
