// Advertised actions are the acceptable ones.
module SongLegal {
  // Somebody can always go on, and every game can be played to its end.
  import opened Wrappers
  import opened Sums
  import opened SongTable
  import opened SongRules
  import opened SongRoster
  import opened SongLedger
  import opened SongLaws
  import opened SongProgress
  import opened SongRuns

  datatype Kind =
    | KAssignTeam | KAssignCaptain | KAssignJudge | KSetTeamName | KBeginGame | KSelectCell | KOpenBlock | KGuess
    | KSteal | KPass | KJudgeResult | KVoid | KSkipSong | KNextRound | KResign | KUnknown

  function KindOf(a: Action): Kind {
    match a
    case AssignTeam(_, _) => KAssignTeam
    case AssignCaptain(_) => KAssignCaptain
    case AssignJudge(_) => KAssignJudge
    case SetTeamName(_, _) => KSetTeamName
    case BeginGame(_) => KBeginGame
    case SelectCell(_, _) => KSelectCell
    case OpenBlock(_) => KOpenBlock
    case Guess(_) => KGuess
    case Steal(_) => KSteal
    case Pass => KPass
    case JudgeResult(_) => KJudgeResult
    case VoidDecision => KVoid
    case SkipSong => KSkipSong
    case NextRound => KNextRound
    case Resign => KResign
    case Unknown => KUnknown
  }

  // ---------------------------------------------------------------------
  // The advertised actions
  // ---------------------------------------------------------------------

  predicate HoldsCaptaincy(gs: Game, p: Participant, team: Team) {
    match CaptainOf(gs.participants, team) case None => false case Some(c) => gs.participants[c].seat == p.seat
  }

  predicate IsHost(gs: Game, p: Participant) { p.seat == gs.hostSeat }

  predicate BlocksRemainClosed(song: Song) {
    exists i :: 0 <= i < |song.mask| && !song.mask[i]
  }

  function SongPlayActions(gs: Game, p: Participant): seq<Kind> {
    var acting :=
      match AwaitingOf(gs)
      case ActiveTurn =>
        if !HoldsCaptaincy(gs, p, gs.activeTeam) then []
        else if gs.song.Some? && BlocksRemainClosed(gs.song.value) then [KGuess, KOpenBlock] else [KGuess]
      case StealTurn => if HoldsCaptaincy(gs, p, Opponent(gs.activeTeam)) then [KSteal, KPass] else []
      case LastChanceTurn => if HoldsCaptaincy(gs, p, Opponent(gs.activeTeam)) then [KGuess, KPass] else []
      case Nobody => [];
    acting + if IsHost(gs, p) then [KSkipSong] else []
  }

  function PhaseActions(gs: Game, p: Participant): seq<Kind> {
    match gs.phase
    case Roster => if IsHost(gs, p) then [KAssignTeam, KAssignCaptain, KAssignJudge, KSetTeamName, KBeginGame] else []
    case RoundSelect => if HoldsCaptaincy(gs, p, gs.activeTeam) then [KSelectCell] else []
    case SongPlay => SongPlayActions(gs, p)
    case PendingJudgement => (if p.judge then [KJudgeResult, KVoid] else []) + if IsHost(gs, p) then [KSkipSong] else []
    case SongResult => if HoldsCaptaincy(gs, p, Opponent(gs.activeTeam)) || IsHost(gs, p) then [KNextRound] else []
    case _ => []
  }

  function Legal(gs: Game, p: Participant): seq<Kind> {
    if !p.active then []
    else if gs.phase == JudgeVacant then (if IsHost(gs, p) then [KAssignJudge] else []) + [KResign]
    else PhaseActions(gs, p) + if gs.phase != Finished then [KResign] else []
  }

  // ---------------------------------------------------------------------
  // A payload for each advertised action
  // ---------------------------------------------------------------------

  // The first cell with an unplayed song.
  function OpenCell(cells: seq<Cell>): (r: Option<nat>)
    ensures r.Some? ==> r.value < |cells| && cells[r.value].unplayed != []
    ensures r.None? ==> forall c :: 0 <= c < |cells| ==> cells[c].unplayed == []
  {
    if cells == [] then None
    else if cells[0].unplayed != [] then Some(0)
    else match OpenCell(cells[1..]) case None => None case Some(c) => Some(c + 1)
  }

  function FirstClosed(mask: seq<bool>): (r: nat)
    ensures (exists i :: 0 <= i < |mask| && !mask[i]) ==> r < |mask| && !mask[r]
  {
    if mask == [] || !mask[0] then 0
    else
      assert forall i :: 0 < i < |mask| ==> mask[i] == mask[1..][i - 1];
      1 + FirstClosed(mask[1..])
  }

  // An action of a kind that is accepted whenever any action of that kind is.
  function Example(gs: Game, p: Participant, kind: Kind): Action {
    match kind
    case KAssignTeam => AssignTeam(p.seat, "none")
    case KAssignCaptain => AssignCaptain(p.seat)
    case KAssignJudge => AssignJudge(p.seat)
    case KSetTeamName => SetTeamName("a", "A")
    case KBeginGame => BeginGame("")
    case KSelectCell =>
      (match OpenCell(gs.cells) case None => SelectCell("", 0) case Some(c) => SelectCell(gs.cells[c].language, gs.cells[c].bucket))
    case KOpenBlock => OpenBlock(match gs.song case None => 0 case Some(song) => FirstClosed(song.mask))
    case KGuess => Guess("")
    case KSteal => Steal("")
    case KPass => Pass
    case KJudgeResult => JudgeResult(true)
    case KVoid => VoidDecision
    case KSkipSong => SkipSong
    case KNextRound => NextRound
    case KResign => Resign
    case KUnknown => Unknown
  }

  lemma ExampleKind(gs: Game, p: Participant, kind: Kind)
    ensures KindOf(Example(gs, p, kind)) == kind
  {
  }

  // ---------------------------------------------------------------------
  // Advertised means acceptable
  // ---------------------------------------------------------------------

  lemma SelectAccepted(pack: Pack, gs: Game, p: nat, draw: nat)
    requires Inv(pack, gs) && p < |gs.participants| && gs.phase == RoundSelect
    requires HoldsCaptaincy(gs, gs.participants[p], gs.activeTeam)
    ensures Dispatch(pack, gs, gs.participants[p].user, Example(gs, gs.participants[p], KSelectCell), draw).Ok?
  {
    UserFound(gs.participants, p);
    var open := OpenCell(gs.cells);
    if open.None? {
      SumBounds(PoolSizes(gs.cells), 0, 0);
    } else {
      var c := open.value;
      var found := CellFor(gs.cells, gs.cells[c].language, gs.cells[c].bucket).value;
      assert found == c;
      assert Drawable(pack, gs.cells[c].bucket, gs.cells[c].unplayed[draw % |gs.cells[c].unplayed|]);
    }
  }

  lemma OpenAccepted(gs: Game, p: nat)
    requires RosterOk(gs.participants) && p < |gs.participants|
    requires gs.phase == SongPlay && gs.song.Some? && SongOk(gs.song.value) && gs.song.value.awaiting == ActiveTurn
    requires HoldsCaptaincy(gs, gs.participants[p], gs.activeTeam)
    ensures ApplyOpenBlock(gs, gs.participants[p].user, FirstClosed(gs.song.value.mask)).Ok?
  {
    UserFound(gs.participants, p);
    var closed := SomeClosed(gs.song.value.mask);
  }

  lemma PassAccepted(gs: Game, p: nat)
    requires RosterOk(gs.participants) && p < |gs.participants|
    requires gs.phase == SongPlay && gs.song.Some? && SongOk(gs.song.value) && gs.song.value.awaiting != ActiveTurn
    requires HoldsCaptaincy(gs, gs.participants[p], Opponent(gs.activeTeam))
    ensures ApplyPass(gs, gs.participants[p].user).Ok?
  {
    UserFound(gs.participants, p);
  }

  lemma GuessAccepted(gs: Game, p: nat, kind: Kind)
    requires RosterOk(gs.participants) && p < |gs.participants|
    requires gs.phase == SongPlay && gs.song.Some? && SongOk(gs.song.value)
    requires kind in SongPlayActions(gs, gs.participants[p]) && (kind == KGuess || kind == KSteal || kind == KSkipSong)
    ensures kind == KGuess ==> ApplyGuess(gs, gs.participants[p].user, "").Ok?
    ensures kind == KSteal ==> ApplySteal(gs, gs.participants[p].user, "").Ok?
    ensures kind == KSkipSong ==> ApplySkipSong(gs, gs.participants[p].user).Ok?
  {
    UserFound(gs.participants, p);
  }

  lemma ListedInPlay(gs: Game, p: Participant, kind: Kind)
    requires kind in SongPlayActions(gs, p)
    ensures kind == KGuess || kind == KSteal || kind == KSkipSong || kind == KOpenBlock || kind == KPass
    ensures kind == KOpenBlock ==> AwaitingOf(gs) == ActiveTurn && HoldsCaptaincy(gs, p, gs.activeTeam)
    ensures kind == KPass ==> AwaitingOf(gs) != ActiveTurn && HoldsCaptaincy(gs, p, Opponent(gs.activeTeam))
  {
  }

  lemma GuessDispatched(pack: Pack, gs: Game, p: nat, kind: Kind, draw: nat)
    requires RosterOk(gs.participants) && p < |gs.participants|
    requires gs.phase == SongPlay && gs.song.Some? && SongOk(gs.song.value)
    requires kind in SongPlayActions(gs, gs.participants[p]) && (kind == KGuess || kind == KSteal || kind == KSkipSong)
    ensures Dispatch(pack, gs, gs.participants[p].user, Example(gs, gs.participants[p], kind), draw).Ok?
  {
    GuessAccepted(gs, p, kind);
  }

  lemma PlayAccepted(pack: Pack, gs: Game, p: nat, kind: Kind, draw: nat)
    requires RosterOk(gs.participants) && p < |gs.participants|
    requires gs.phase == SongPlay && gs.song.Some? && SongOk(gs.song.value)
    requires kind in SongPlayActions(gs, gs.participants[p])
    ensures Dispatch(pack, gs, gs.participants[p].user, Example(gs, gs.participants[p], kind), draw).Ok?
  {
    ListedInPlay(gs, gs.participants[p], kind);
    if kind == KOpenBlock {
      OpenAccepted(gs, p);
    } else if kind == KPass {
      PassAccepted(gs, p);
    } else {
      GuessDispatched(pack, gs, p, kind, draw);
    }
  }

  lemma JudgeAccepted(pack: Pack, gs: Game, p: nat, kind: Kind, draw: nat)
    requires RosterOk(gs.participants) && Present(gs) && p < |gs.participants| && gs.phase == PendingJudgement
    requires kind in PhaseActions(gs, gs.participants[p])
    ensures Dispatch(pack, gs, gs.participants[p].user, Example(gs, gs.participants[p], kind), draw).Ok?
  {
    UserFound(gs.participants, p);
  }

  lemma ResignAccepted(pack: Pack, gs: Game, p: nat, draw: nat)
    requires RosterOk(gs.participants) && p < |gs.participants| && gs.participants[p].active && Present(gs)
    ensures Dispatch(pack, gs, gs.participants[p].user, Resign, draw).Ok?
  {
    UserFound(gs.participants, p);
  }

  lemma VacancyAccepted(pack: Pack, gs: Game, p: nat, draw: nat)
    requires RosterOk(gs.participants) && p < |gs.participants| && gs.participants[p].active && Present(gs)
    requires gs.phase == JudgeVacant && IsHost(gs, gs.participants[p])
    ensures Dispatch(pack, gs, gs.participants[p].user, AssignJudge(gs.participants[p].seat), draw).Ok?
  {
    UserFound(gs.participants, p);
  }

  lemma PlayAdvertised(pack: Pack, gs: Game, p: nat, a: Action)
    requires Inv(pack, gs) && p < |gs.participants| && gs.phase == SongPlay
    requires match a
             case OpenBlock(index) => ApplyOpenBlock(gs, gs.participants[p].user, index).Ok?
             case Guess(text) => ApplyGuess(gs, gs.participants[p].user, text).Ok?
             case Steal(text) => ApplySteal(gs, gs.participants[p].user, text).Ok?
             case Pass => ApplyPass(gs, gs.participants[p].user).Ok?
             case SkipSong => ApplySkipSong(gs, gs.participants[p].user).Ok?
             case _ => false
    ensures KindOf(a) in SongPlayActions(gs, gs.participants[p])
  {
    UserFound(gs.participants, p);
    var closed := SomeClosed(gs.song.value.mask);
  }

  lemma NextAccepted(pack: Pack, gs: Game, p: nat, draw: nat)
    requires RosterOk(gs.participants) && p < |gs.participants| && Present(gs)
    requires gs.phase == SongResult && KNextRound in PhaseActions(gs, gs.participants[p])
    ensures Dispatch(pack, gs, gs.participants[p].user, NextRound, draw).Ok?
  {
    UserFound(gs.participants, p);
  }

  lemma ExampleDispatched(pack: Pack, gs: Game, p: nat, kind: Kind, draw: nat)
    requires Inv(pack, gs) && Begun(gs) && p < |gs.participants| && kind in Legal(gs, gs.participants[p])
    ensures Dispatch(pack, gs, gs.participants[p].user, Example(gs, gs.participants[p], kind), draw).Ok?
  {
    if kind == KResign {
      ResignAccepted(pack, gs, p, draw);
    } else {
      match gs.phase {
        case RoundSelect => SelectAccepted(pack, gs, p, draw);
        case SongPlay => PlayAccepted(pack, gs, p, kind, draw);
        case PendingJudgement => JudgeAccepted(pack, gs, p, kind, draw);
        case SongResult => NextAccepted(pack, gs, p, draw);
        case _ => VacancyAccepted(pack, gs, p, draw);
      }
    }
  }

  lemma ExampleAccepted(pack: Pack, gs: Game, p: nat, kind: Kind, draw: nat)
    requires Inv(pack, gs) && Begun(gs) && p < |gs.participants| && kind in Legal(gs, gs.participants[p])
    ensures Apply(pack, gs, gs.participants[p].user, Example(gs, gs.participants[p], kind), draw).Ok?
  {
    ExampleDispatched(pack, gs, p, kind, draw);
  }

  lemma OffPlayAdvertised(pack: Pack, gs: Game, p: nat, a: Action, draw: nat)
    requires Inv(pack, gs) && Begun(gs) && p < |gs.participants| && gs.participants[p].active
    requires (gs.phase != SongPlay || a.Resign?) && Apply(pack, gs, gs.participants[p].user, a, draw).Ok?
    ensures KindOf(a) in Legal(gs, gs.participants[p])
  {
    UserFound(gs.participants, p);
  }

  lemma AcceptedAdvertised(pack: Pack, gs: Game, p: nat, a: Action, draw: nat)
    requires Inv(pack, gs) && Begun(gs) && p < |gs.participants| && gs.participants[p].active
    requires Apply(pack, gs, gs.participants[p].user, a, draw).Ok?
    ensures KindOf(a) in Legal(gs, gs.participants[p])
  {
    if gs.phase == SongPlay && !a.Resign? {
      PlayAdvertised(pack, gs, p, a);
    } else {
      OffPlayAdvertised(pack, gs, p, a, draw);
    }
  }

  ghost predicate CanDo(pack: Pack, gs: Game, user: nat, kind: Kind, draw: nat)
    requires Present(gs)
  {
    exists a :: KindOf(a) == kind && Apply(pack, gs, user, a, draw).Ok?
  }

  // Once the game has begun, an action is advertised to a participant exactly
  // when some payload makes the engine accept it, whatever is drawn.
  lemma LegalIsExact(pack: Pack, gs: Game, p: nat, kind: Kind, draw: nat)
    requires Inv(pack, gs) && Begun(gs) && p < |gs.participants| && gs.participants[p].active
    ensures kind in Legal(gs, gs.participants[p]) <==> CanDo(pack, gs, gs.participants[p].user, kind, draw)
  {
    var user := gs.participants[p].user;
    if kind in Legal(gs, gs.participants[p]) {
      ExampleAccepted(pack, gs, p, kind, draw);
      ExampleKind(gs, gs.participants[p], kind);
    } else {
      forall a | KindOf(a) == kind
        ensures !Apply(pack, gs, user, a, draw).Ok?
      {
        if Apply(pack, gs, user, a, draw).Ok? { AcceptedAdvertised(pack, gs, p, a, draw); }
      }
    }
  }

  // ---------------------------------------------------------------------
  // Somebody can always go on
  // ---------------------------------------------------------------------

  // In every state of a game under way an active participant has an acceptable
  // action that neither leaves the game nor voids a decision.
  lemma SomebodyGoesOn(pack: Pack, gs: Game, draw: nat) returns (p: nat, a: Action)
    requires Inv(pack, gs) && Begun(gs)
    ensures p < |gs.participants| && gs.participants[p].active
    ensures KindOf(a) in Legal(gs, gs.participants[p]) && !a.Resign? && !a.VoidDecision?
    ensures Apply(pack, gs, gs.participants[p].user, a, draw).Ok?
  {
    var kind;
    p, kind := Mover(gs);
    a := ActsOn(pack, gs, p, kind, draw);
  }

  lemma ActsOn(pack: Pack, gs: Game, p: nat, kind: Kind, draw: nat) returns (a: Action)
    requires Inv(pack, gs) && Begun(gs) && p < |gs.participants| && kind in Legal(gs, gs.participants[p])
    ensures KindOf(a) == kind && Apply(pack, gs, gs.participants[p].user, a, draw).Ok?
    ensures (a.Resign? <==> kind == KResign) && (a.VoidDecision? <==> kind == KVoid)
  {
    ExampleAccepted(pack, gs, p, kind, draw);
    ExampleKind(gs, gs.participants[p], kind);
    a := Example(gs, gs.participants[p], kind);
    KindDecides(a);
  }

  lemma KindDecides(a: Action)
    ensures (a.Resign? <==> KindOf(a) == KResign) && (a.VoidDecision? <==> KindOf(a) == KVoid)
  {
  }

  lemma Mover(gs: Game) returns (p: nat, kind: Kind)
    requires Crew(gs) && Stage(gs) && Begun(gs)
    ensures p < |gs.participants| && gs.participants[p].active
    ensures kind in Legal(gs, gs.participants[p]) && kind != KResign && kind != KVoid
  {
    CrewHasCaptain(gs.participants, gs.activeTeam);
    CrewHasCaptain(gs.participants, Opponent(gs.activeTeam));
    var host := AtSeat(gs.participants, gs.hostSeat).value;
    match gs.phase {
      case JudgeVacant => p, kind := host, KAssignJudge;
      case RoundSelect => p, kind := CaptainOf(gs.participants, gs.activeTeam).value, KSelectCell;
      case SongPlay =>
        if AwaitingOf(gs) == ActiveTurn {
          p, kind := CaptainOf(gs.participants, gs.activeTeam).value, KGuess;
        } else {
          p, kind := CaptainOf(gs.participants, Opponent(gs.activeTeam)).value, KPass;
        }
      case PendingJudgement =>
        p, kind := JudgeOf(gs.participants).value, KJudgeResult;
        assert MemberOk(gs.participants[p]);
      case _ => p, kind := host, KNextRound;
    }
  }

  lemma OneMore(pack: Pack, gs: Game) returns (move: Move, after: Game)
    requires Inv(pack, gs) && Begun(gs)
    ensures Accepted(pack, gs, move, after) && !move.action.Resign? && !move.action.VoidDecision?
  {
    var p, a := SomebodyGoesOn(pack, gs, 0);
    move := Move(gs.participants[p].user, a, 0);
    after := Apply(pack, gs, gs.participants[p].user, a, 0).value;
  }

  lemma GoesForward(pack: Pack, gs: Game, move: Move, after: Game)
    requires Inv(pack, gs) && Begun(gs) && Accepted(pack, gs, move, after) && !move.action.VoidDecision?
    ensures Inv(pack, after) && Less(after, gs) && (Begun(after) || after.phase == Finished)
  {
    StepKeeps(pack, gs, move.user, move.action, move.draw, after);
    StepForward(pack, gs, move.user, move.action, move.draw, after);
  }

  ghost predicate NobodyLeaves(moves: seq<Move>) {
    forall i :: 0 <= i < |moves| ==> !moves[i].action.Resign?
  }

  // So every game under way can be played to its end without anybody leaving.
  lemma PlaysOut(pack: Pack, gs: Game) returns (states: seq<Game>, moves: seq<Move>)
    requires Inv(pack, gs) && (Begun(gs) || gs.phase == Finished)
    ensures IsRun(pack, states, moves) && states[0] == gs && states[|moves|].phase == Finished && NobodyLeaves(moves)
    decreases ActiveCount(gs.participants), UnplayedCount(gs.cells), PhaseRank(gs), ClosedBlocks(gs), SubRank(gs), Vacancy(gs)
  {
    if gs.phase == Finished {
      return [gs], [];
    }
    var move, after := OneMore(pack, gs);
    GoesForward(pack, gs, move, after);
    Bounds(pack, gs);
    var rest, more := PlaysOut(pack, after);
    states, moves := [gs] + rest, [move] + more;
    RunFrom(pack, gs, move, rest, more);
  }

  lemma Bounds(pack: Pack, gs: Game)
    requires Inv(pack, gs)
    ensures ActiveCount(gs.participants) >= 0 && UnplayedCount(gs.cells) >= 0 && ClosedBlocks(gs) >= 0 && SubRank(gs) >= 0
  {
    SumNonNegative(PoolSizes(gs.cells));
    SumNonNegative(ActiveFlags(gs.participants));
  }

  lemma RunFrom(pack: Pack, gs: Game, move: Move, rest: seq<Game>, more: seq<Move>)
    requires IsRun(pack, rest, more) && Accepted(pack, gs, move, rest[0])
    ensures IsRun(pack, [gs] + rest, [move] + more)
  {
    var states, moves := [gs] + rest, [move] + more;
    forall i | 0 <= i < |moves|
      ensures Accepted(pack, states[i], moves[i], states[i + 1])
    {
      assert i > 0 ==> Accepted(pack, rest[i - 1], more[i - 1], rest[i]);
    }
  }

  // ---------------------------------------------------------------------
  // What a decision promises
  // ---------------------------------------------------------------------

  // Voiding a decision takes the game back to exactly where it was before the
  // claim.
  lemma VoidUndoesClaim(gs: Game, user: nat, text: string, judge: nat, claimed: Game)
    requires Present(gs) && Stage(gs)
    requires ApplyGuess(gs, user, text) == Ok(claimed) || ApplySteal(gs, user, text) == Ok(claimed)
    ensures Present(claimed) && (ApplyVoid(claimed, judge).Ok? ==> ApplyVoid(claimed, judge) == Ok(gs))
  {
  }

  // The block on offer in a steal window is the one that opens, whether the
  // opponents decline or fail; failing also costs them later steals.
  lemma StealWindowOpensItsBlock(gs: Game, captain: nat, index: int, offered: Game, opponent: nat, judge: nat, text: string)
    requires Present(gs) && Stage(gs) && gs.phase == SongPlay && gs.song.value.stealAllowed && RevealedCount(gs.song.value.mask) > 0
    requires ApplyOpenBlock(gs, captain, index) == Ok(offered)
    ensures offered.song == Some(gs.song.value.(awaiting := StealTurn, stealWindow := index))
    ensures Present(offered) && (ApplyPass(offered, opponent).Ok? ==> Shows(gs, index, true, ApplyPass(offered, opponent).value))
    ensures ApplySteal(offered, opponent, text).Ok? ==>
              var claimed := ApplySteal(offered, opponent, text).value;
              Present(claimed) && (ApplyJudgeResult(claimed, judge, false).Ok? ==>
                Shows(gs, index, false, ApplyJudgeResult(claimed, judge, false).value))
  {
  }

  // The song of `gs` goes on with exactly one more block open, or ended because
  // that was the last one.
  ghost predicate Shows(gs: Game, index: int, stealAllowed: bool, after: Game)
    requires gs.song.Some?
  {
    && after.song.Some? && 0 <= index < |gs.song.value.mask|
    && after.song.value.mask == gs.song.value.mask[index := true]
    && after.song.value.stealAllowed == stealAllowed
    && (after.phase == SongPlay || (after.phase == SongResult && Potential(after.song.value) == 0))
  }
}
