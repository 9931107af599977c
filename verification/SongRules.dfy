// The protocol of "Guess the Song": one function for each action, from the
// decoded state to the next one or to a refusal.
module SongRules {
  import opened Wrappers
  import opened Lobby
  import opened SongTable

  const MIN_SEATS := 3
  const MAX_SEATS := 10
  const MAX_GUESS := 200
  const MAX_TEAM_NAME := 32

  // The phase that a vacancy interrupts, or the phase itself.
  function Effective(gs: Game): Phase {
    if gs.phase == JudgeVacant then gs.resumePhase else gs.phase
  }

  predicate InFlight(gs: Game) {
    Effective(gs) == SongPlay || Effective(gs) == PendingJudgement
  }

  // A song in flight is there, and so is a decision waiting for the judge.
  predicate Present(gs: Game) {
    && (InFlight(gs) ==> gs.song.Some?)
    && (gs.phase == PendingJudgement ==> gs.pending.Some?)
  }

  function AwaitingOf(gs: Game): Awaiting {
    match gs.song case None => Nobody case Some(song) => song.awaiting
  }

  // ---------------------------------------------------------------------
  // Guards
  // ---------------------------------------------------------------------

  function Sits(gs: Game, user: nat, seat: int): Option<Error> {
    match OfUser(gs.participants, user)
    case None => Some(NotSeated)
    case Some(i) => if gs.participants[i].seat == seat then None else Some(NotYourTurn)
  }

  function HostGuard(gs: Game, user: nat): Option<Error> {
    Sits(gs, user, gs.hostSeat)
  }

  function RosterGuard(gs: Game, user: nat): Option<Error> {
    if HostGuard(gs, user).Some? then HostGuard(gs, user)
    else if gs.phase != Roster then Some(WrongPhase)
    else None
  }

  function CaptainGuard(gs: Game, user: nat, team: Team): Option<Error> {
    match OfUser(gs.participants, user)
    case None => Some(NotSeated)
    case Some(i) =>
      match CaptainOf(gs.participants, team)
      case None => Some(NotYourTurn)
      case Some(c) => if gs.participants[c].seat == gs.participants[i].seat then None else Some(NotYourTurn)
  }

  function ActiveCaptainGuard(gs: Game, user: nat): Option<Error> {
    CaptainGuard(gs, user, gs.activeTeam)
  }

  function OpponentCaptainGuard(gs: Game, user: nat): Option<Error> {
    CaptainGuard(gs, user, Opponent(gs.activeTeam))
  }

  function JudgeGuard(gs: Game, user: nat): Option<Error> {
    if gs.phase != PendingJudgement then Some(WrongPhase)
    else match OfUser(gs.participants, user)
      case None => Some(NotSeated)
      case Some(i) => if gs.participants[i].judge then None else Some(NotYourTurn)
  }

  // The target of a roster action: an active participant.
  function Target(gs: Game, seat: int): (r: Option<nat>)
    ensures r.Some? ==> r.value < |gs.participants| && gs.participants[r.value].active && gs.participants[r.value].seat == seat
  {
    match AtSeat(gs.participants, seat)
    case None => None
    case Some(i) => if gs.participants[i].active then Some(i) else None
  }

  // ---------------------------------------------------------------------
  // The roster
  // ---------------------------------------------------------------------

  function Promoted(ps: seq<Participant>, team: Team): (r: seq<Participant>)
    ensures |r| == |ps|
  {
    match FirstOf(ps, team)
    case None => ps
    case Some(i) => ps[i := ps[i].(captain := true)]
  }

  // Whoever else was the judge no longer is.
  function Cleared(ps: seq<Participant>, t: nat): (r: seq<Participant>)
    requires t < |ps|
    ensures |r| == |ps|
  {
    match JudgeOf(ps)
    case None => ps
    case Some(j) => if ps[j].seat != ps[t].seat then ps[j := ps[j].(judge := false)] else ps
  }

  function Installed(ps: seq<Participant>, t: nat): (r: seq<Participant>)
    requires t < |ps|
    ensures |r| == |ps|
  {
    ps[t := ps[t].(judge := true, team := NoTeam, captain := false)]
  }

  // Seat t becomes the judge; the team it leaves gets a new captain if it needs one.
  function Reassigned(ps: seq<Participant>, t: nat): (r: seq<Participant>)
    requires t < |ps|
    ensures |r| == |ps|
  {
    var cleared := Cleared(ps, t);
    var team := cleared[t].team;
    var installed := Installed(cleared, t);
    if team != NoTeam && CaptainOf(installed, team).None? then Promoted(installed, team) else installed
  }

  function Gone(ps: seq<Participant>, i: nat): (r: seq<Participant>)
    requires i < |ps|
    ensures |r| == |ps|
  {
    ps[i := ps[i].(active := false, captain := false, judge := false)]
  }

  // Participant i leaves; a captain's team gets a new one.
  function Left(ps: seq<Participant>, i: nat): (r: seq<Participant>)
    requires i < |ps|
    ensures |r| == |ps|
  {
    if ps[i].captain then Promoted(Gone(ps, i), ps[i].team) else Gone(ps, i)
  }

  function LowestActiveSeat(ps: seq<Participant>): int {
    match FirstActive(ps) case None => -1 case Some(i) => ps[i].seat
  }

  predicate Terminal(ps: seq<Participant>) {
    MemberCount(ps, TeamA) == 0 || MemberCount(ps, TeamB) == 0 || ActiveCount(ps) < 3
  }

  predicate TeamReady(ps: seq<Participant>, team: Team) {
    MemberCount(ps, team) != 0 && CaptainCount(ps, team) == 1
  }

  predicate RosterReady(ps: seq<Participant>) {
    && JudgeOf(ps).Some? && ps[JudgeOf(ps).value].team == NoTeam
    && TeamReady(ps, TeamA) && TeamReady(ps, TeamB)
  }

  function ApplyAssignTeam(gs: Game, user: nat, seat: int, wire: string): Result<Game, Error> {
    if RosterGuard(gs, user).Some? then Err(RosterGuard(gs, user).value)
    else match Target(gs, seat)
      case None => Err(IllegalAction)
      case Some(t) =>
        match ParseTeam(wire)
        case None => Err(IllegalAction)
        case Some(team) =>
          var p := gs.participants[t];
          if team != NoTeam && p.judge then Err(IllegalAction)
          else Ok(gs.(participants := gs.participants[t := p.(team := team, captain := p.captain && team == p.team)]))
  }

  function Captained(ps: seq<Participant>, t: nat): (r: seq<Participant>)
    requires t < |ps|
    ensures |r| == |ps|
  {
    var cleared := match CaptainOf(ps, ps[t].team)
                   case None => ps
                   case Some(c) => if ps[c].seat != ps[t].seat then ps[c := ps[c].(captain := false)] else ps;
    cleared[t := cleared[t].(captain := true)]
  }

  function ApplyAssignCaptain(gs: Game, user: nat, seat: int): Result<Game, Error> {
    if RosterGuard(gs, user).Some? then Err(RosterGuard(gs, user).value)
    else match Target(gs, seat)
      case None => Err(IllegalAction)
      case Some(t) =>
        if gs.participants[t].team == NoTeam then Err(IllegalAction)
        else Ok(gs.(participants := Captained(gs.participants, t)))
  }

  // The vacancy is filled and the interrupted phase is back.
  function ResumedGame(gs: Game, t: nat): Game
    requires t < |gs.participants|
  {
    gs.(participants := Reassigned(gs.participants, t), phase := gs.resumePhase, resumePhase := NoPhase)
  }

  function ApplyAssignJudge(gs: Game, user: nat, seat: int): Result<Game, Error>
    requires Present(gs)
  {
    if gs.phase != Roster && gs.phase != JudgeVacant then Err(WrongPhase)
    else if HostGuard(gs, user).Some? then Err(HostGuard(gs, user).value)
    else match Target(gs, seat)
      case None => Err(IllegalAction)
      case Some(t) =>
        if gs.phase == Roster then Ok(gs.(participants := Reassigned(gs.participants, t)))
        else Ok(GoOn(ResumedGame(gs, t)))
  }

  function ApplySetTeamName(gs: Game, user: nat, wire: string, name: string): Result<Game, Error> {
    if RosterGuard(gs, user).Some? then Err(RosterGuard(gs, user).value)
    else match ParseTeam(wire)
      case None => Err(IllegalAction)
      case Some(team) =>
        if team == NoTeam || !(1 <= |name| <= MAX_TEAM_NAME) then Err(IllegalAction)
        else Ok(if team == TeamA then gs.(nameA := name) else gs.(nameB := name))
  }

  function StartingTeam(wire: string): Option<Team> {
    if wire == "" then Some(TeamA)
    else match ParseTeam(wire)
      case None => None
      case Some(team) => if team == NoTeam then None else Some(team)
  }

  function ApplyBeginGame(gs: Game, user: nat, starting: string): Result<Game, Error> {
    if RosterGuard(gs, user).Some? then Err(RosterGuard(gs, user).value)
    else if !RosterReady(gs.participants) || UnplayedCount(gs.cells) == 0 || StartingTeam(starting).None? then Err(IllegalAction)
    else Ok(gs.(phase := RoundSelect, activeTeam := StartingTeam(starting).value, roundNo := 1))
  }

  // ---------------------------------------------------------------------
  // Rounds
  // ---------------------------------------------------------------------

  // The drawn id goes; the last one takes its place.
  function SwapRemove(ids: seq<nat>, k: nat): seq<nat>
    requires k < |ids|
  {
    ids[k := ids[|ids| - 1]][..|ids| - 1]
  }

  function Drawn(cell: Cell, k: nat): Cell
    requires k < |cell.unplayed|
  {
    cell.(unplayed := SwapRemove(cell.unplayed, k), played := cell.played + 1)
  }

  function FreshSong(song: PackSong, language: string, bucket: int): Song {
    Song(song.id, language, bucket, song.line, seq(|song.line|, i => false), true, ActiveTurn, 0, NoTeam, 0, false, "")
  }

  // `draw` stands for the shuffler's choice among the unplayed songs.
  function ApplySelectCell(pack: Pack, gs: Game, user: nat, language: string, bucket: int, draw: nat): Result<Game, Error> {
    if gs.phase != RoundSelect then Err(WrongPhase)
    else if ActiveCaptainGuard(gs, user).Some? then Err(ActiveCaptainGuard(gs, user).value)
    else match CellFor(gs.cells, language, bucket)
      case None => Err(IllegalAction)
      case Some(c) =>
        var cell := gs.cells[c];
        if cell.unplayed == [] then Err(IllegalAction)
        else
          var k := draw % |cell.unplayed|;
          match SongById(pack, cell.unplayed[k])
          case None => Err(InvalidPack)
          case Some(song) =>
            Ok(gs.(cells := gs.cells[c := Drawn(cell, k)],
                   song := Some(FreshSong(song, language, bucket)), phase := SongPlay))
  }

  function ApplyNextRound(gs: Game, user: nat): Result<Game, Error> {
    if gs.phase != SongResult then Err(WrongPhase)
    else
      var next := Opponent(gs.activeTeam);
      if OfUser(gs.participants, user).None? then Err(NotSeated)
      else if CaptainGuard(gs, user, next).Some? && HostGuard(gs, user).Some? then Err(NotYourTurn)
      else
        var turned := gs.(activeTeam := next, song := None);
        if UnplayedCount(gs.cells) == 0 then Ok(Finalized(turned))
        else Ok(turned.(roundNo := gs.roundNo + 1, phase := RoundSelect))
  }

  // ---------------------------------------------------------------------
  // Playing a song
  // ---------------------------------------------------------------------

  // The song in flight ends: the one place where history and scores grow.
  function FinishSong(gs: Game, awarded: Team, points: int, skipped: bool, lastGuess: string): Game
    requires gs.song.Some?
  {
    var song := gs.song.value;
    gs.(song := Some(song.(awarded := awarded, points := points, skipped := skipped, lastGuess := lastGuess)),
        history := gs.history + [Outcome(song.id, song.language, song.bucket, RevealedCount(song.mask),
                                         awarded, points, skipped, gs.activeTeam)],
        scoreA := gs.scoreA + if awarded == TeamA then points else 0,
        scoreB := gs.scoreB + if awarded == TeamB then points else 0,
        phase := SongResult, pending := None)
  }

  function EndSong(gs: Game, skipped: bool): Game
    requires gs.song.Some?
  {
    FinishSong(gs, NoTeam, 0, skipped, gs.song.value.lastGuess)
  }

  // Block `index` opens; the song ends when it was the last one.
  function RevealAt(gs: Game, index: int): Result<Game, Error>
    requires gs.song.Some?
  {
    var song := gs.song.value;
    if !(0 <= index < |song.mask|) || song.mask[index] then Err(IllegalAction)
    else
      var shown := song.(mask := song.mask[index := true]);
      if Potential(shown) == 0 then Ok(EndSong(gs.(song := Some(shown)), false))
      else Ok(gs.(song := Some(shown.(awaiting := ActiveTurn))))
  }

  function ApplyOpenBlock(gs: Game, user: nat, index: int): Result<Game, Error>
    requires Present(gs)
  {
    if gs.phase != SongPlay || AwaitingOf(gs) != ActiveTurn then Err(WrongPhase)
    else if ActiveCaptainGuard(gs, user).Some? then Err(ActiveCaptainGuard(gs, user).value)
    else
      var song := gs.song.value;
      if !(0 <= index < |song.mask|) || song.mask[index] || Potential(song) <= 0 then Err(IllegalAction)
      else if song.stealAllowed && RevealedCount(song.mask) > 0 then
        Ok(gs.(song := Some(song.(awaiting := StealTurn, stealWindow := index))))
      else RevealAt(gs, index)
  }

  // A guess waits for the judge.
  function Claimed(gs: Game, user: nat, kind: JudgeKind, text: string): Game
    requires gs.song.Some? && OfUser(gs.participants, user).Some?
  {
    var song := gs.song.value;
    gs.(pending := Some(Pending(
          kind, if kind == ActiveGuess then gs.activeTeam else Opponent(gs.activeTeam),
          gs.participants[OfUser(gs.participants, user).value].seat, text, Potential(song),
          match kind case ActiveGuess => ActiveTurn case StealGuess => StealTurn case LastChanceGuess => LastChanceTurn case NoKind => Nobody,
          kind == StealGuess, if kind == StealGuess then song.stealWindow else -1)),
        phase := PendingJudgement)
  }

  function ApplyGuess(gs: Game, user: nat, text: string): Result<Game, Error>
    requires Present(gs)
  {
    if gs.phase != SongPlay then Err(WrongPhase)
    else match AwaitingOf(gs)
      case ActiveTurn =>
        if ActiveCaptainGuard(gs, user).Some? then Err(ActiveCaptainGuard(gs, user).value)
        else if |text| > MAX_GUESS then Err(IllegalAction)
        else Ok(Claimed(gs, user, ActiveGuess, text))
      case LastChanceTurn =>
        if OpponentCaptainGuard(gs, user).Some? then Err(OpponentCaptainGuard(gs, user).value)
        else if |text| > MAX_GUESS then Err(IllegalAction)
        else Ok(Claimed(gs, user, LastChanceGuess, text))
      case StealTurn => Err(IllegalAction)
      case Nobody => Err(WrongPhase)
  }

  function ApplySteal(gs: Game, user: nat, text: string): Result<Game, Error>
    requires Present(gs)
  {
    if gs.phase != SongPlay || AwaitingOf(gs) != StealTurn then Err(WrongPhase)
    else if OpponentCaptainGuard(gs, user).Some? then Err(OpponentCaptainGuard(gs, user).value)
    else if !gs.song.value.stealAllowed || |text| > MAX_GUESS then Err(IllegalAction)
    else Ok(Claimed(gs, user, StealGuess, text))
  }

  function ApplyPass(gs: Game, user: nat): Result<Game, Error>
    requires Present(gs)
  {
    if gs.phase != SongPlay then Err(WrongPhase)
    else match AwaitingOf(gs)
      case StealTurn =>
        if OpponentCaptainGuard(gs, user).Some? then Err(OpponentCaptainGuard(gs, user).value)
        else RevealAt(gs, gs.song.value.stealWindow)
      case LastChanceTurn =>
        if OpponentCaptainGuard(gs, user).Some? then Err(OpponentCaptainGuard(gs, user).value)
        else Ok(EndSong(gs, false))
      case ActiveTurn => Err(IllegalAction)
      case Nobody => Err(WrongPhase)
  }

  function ApplySkipSong(gs: Game, user: nat): Result<Game, Error>
    requires Present(gs)
  {
    if HostGuard(gs, user).Some? then Err(HostGuard(gs, user).value)
    else if gs.phase != SongPlay && gs.phase != PendingJudgement then Err(WrongPhase)
    else Ok(EndSong(gs, true))
  }

  // ---------------------------------------------------------------------
  // Judging
  // ---------------------------------------------------------------------

  function ApplyJudgeResult(gs: Game, user: nat, correct: bool): Result<Game, Error>
    requires Present(gs)
  {
    if JudgeGuard(gs, user).Some? then Err(JudgeGuard(gs, user).value)
    else
      var pending := gs.pending.value;
      if correct then Ok(FinishSong(gs, pending.claimant, pending.potential, false, pending.guess))
      else
        var back := gs.(phase := SongPlay, pending := None);
        match pending.kind
        case ActiveGuess => Ok(back.(song := Some(gs.song.value.(awaiting := LastChanceTurn))))
        case StealGuess =>
          var lockedOut := back.(song := Some(gs.song.value.(stealAllowed := false)));
          if pending.revealAfter then RevealAt(lockedOut, pending.owed)
          else Ok(lockedOut.(song := Some(lockedOut.song.value.(awaiting := pending.resume))))
        case LastChanceGuess => Ok(FinishSong(gs, NoTeam, 0, false, pending.guess))
        case NoKind => Err(IllegalAction)
  }

  function ApplyVoid(gs: Game, user: nat): Result<Game, Error>
    requires Present(gs)
  {
    if JudgeGuard(gs, user).Some? then Err(JudgeGuard(gs, user).value)
    else Ok(gs.(phase := SongPlay, pending := None, song := Some(gs.song.value.(awaiting := gs.pending.value.resume))))
  }

  // ---------------------------------------------------------------------
  // Leaving and the end of the game
  // ---------------------------------------------------------------------

  function TeamRanks(scoreA: int, scoreB: int): (int, int) {
    if scoreA > scoreB then (1, 2) else if scoreB > scoreA then (2, 1) else (1, 1)
  }

  function ResultOf(p: Participant, scoreA: int, scoreB: int): ResultEntry {
    var ranks := TeamRanks(scoreA, scoreB);
    match p.team
    case TeamA => ResultEntry(p.seat, p.user, TeamA, scoreA, ranks.0, p.judge)
    case TeamB => ResultEntry(p.seat, p.user, TeamB, scoreB, ranks.1, p.judge)
    case NoTeam => ResultEntry(p.seat, p.user, NoTeam, 0, 0, p.judge)
  }

  function Results(gs: Game): (r: seq<ResultEntry>)
    ensures |r| == |gs.participants|
    ensures forall i :: 0 <= i < |r| ==> r[i] == ResultOf(gs.participants[i], gs.scoreA, gs.scoreB)
  {
    seq(|gs.participants|, i requires 0 <= i < |gs.participants| => ResultOf(gs.participants[i], gs.scoreA, gs.scoreB))
  }

  // A song still in flight is recorded first, as skipped.
  function Finalized(gs: Game): Game
    requires InFlight(gs) ==> gs.song.Some?
  {
    var ended := if InFlight(gs) then EndSong(gs, true) else gs;
    ended.(phase := Finished, resumePhase := NoPhase, results := Results(ended))
  }

  // The game right after somebody left, before it is known whether it goes on.
  function LeftGame(gs: Game, i: nat): Game
    requires i < |gs.participants|
  {
    var p := gs.participants[i];
    var ps := Left(gs.participants, i);
    gs.(participants := ps,
        resumePhase := if p.judge then gs.phase else gs.resumePhase,
        phase := if p.judge then JudgeVacant else gs.phase,
        hostSeat := if p.seat == gs.hostSeat then LowestActiveSeat(ps) else gs.hostSeat)
  }

  // The game goes on if enough people are left.
  function GoOn(gs: Game): Game
    requires InFlight(gs) ==> gs.song.Some?
  {
    if Terminal(gs.participants) then Finalized(gs) else gs
  }

  function ApplyResign(gs: Game, user: nat): Result<Game, Error>
    requires Present(gs)
  {
    match OfUser(gs.participants, user)
    case None => Err(NotSeated)
    case Some(i) => if !gs.participants[i].active then Err(IllegalAction) else Ok(GoOn(LeftGame(gs, i)))
  }

  // ---------------------------------------------------------------------
  // Dispatch
  // ---------------------------------------------------------------------

  function Dispatch(pack: Pack, gs: Game, user: nat, a: Action, draw: nat): Result<Game, Error>
    requires Present(gs)
  {
    if gs.phase == JudgeVacant && !a.AssignJudge? && !a.Resign? then Err(WrongPhase)
    else match a
      case AssignTeam(seat, team) => ApplyAssignTeam(gs, user, seat, team)
      case AssignCaptain(seat) => ApplyAssignCaptain(gs, user, seat)
      case AssignJudge(seat) => ApplyAssignJudge(gs, user, seat)
      case SetTeamName(team, name) => ApplySetTeamName(gs, user, team, name)
      case BeginGame(starting) => ApplyBeginGame(gs, user, starting)
      case SelectCell(language, bucket) => ApplySelectCell(pack, gs, user, language, bucket, draw)
      case NextRound => ApplyNextRound(gs, user)
      case OpenBlock(index) => ApplyOpenBlock(gs, user, index)
      case Guess(text) => ApplyGuess(gs, user, text)
      case Steal(text) => ApplySteal(gs, user, text)
      case Pass => ApplyPass(gs, user)
      case SkipSong => ApplySkipSong(gs, user)
      case JudgeResult(correct) => ApplyJudgeResult(gs, user, correct)
      case VoidDecision => ApplyVoid(gs, user)
      case Resign => ApplyResign(gs, user)
      case Unknown => Err(IllegalAction)
  }

  // Accepted actions are numbered.
  function Numbered(r: Result<Game, Error>): Result<Game, Error> {
    match r
    case Err(e) => Err(e)
    case Ok(after) => Ok(after.(seqNo := after.seqNo + 1))
  }

  function Apply(pack: Pack, gs: Game, user: nat, a: Action, draw: nat): Result<Game, Error>
    requires Present(gs)
  {
    if gs.phase == Finished then Err(GameOver)
    else Numbered(Dispatch(pack, gs, user, a, draw))
  }

  // ---------------------------------------------------------------------
  // A new game
  // ---------------------------------------------------------------------

  // Even seats play for team A, odd seats for team B.
  function Seated(seats: seq<SeatInit>): (r: seq<Participant>)
    ensures |r| == |seats|
    ensures forall i :: 0 <= i < |seats| ==>
              r[i] == Participant(seats[i].seat, seats[i].user, if seats[i].seat % 2 != 0 then TeamB else TeamA, false, false, true)
  {
    seq(|seats|, i requires 0 <= i < |seats| =>
      Participant(seats[i].seat, seats[i].user, if seats[i].seat % 2 != 0 then TeamB else TeamA, false, false, true))
  }

  // Default captains, and the host of seat 0 as the judge.
  function DefaultRoster(seats: seq<SeatInit>): seq<Participant> {
    var ps := Promoted(Promoted(Seated(SortSeats(seats)), TeamA), TeamB);
    match AtSeat(ps, 0) case None => ps case Some(i) => Reassigned(ps, i)
  }

  function InitState(pack: Pack, seats: seq<SeatInit>): Result<Game, Error> {
    if !(MIN_SEATS <= |seats| <= MAX_SEATS) then Err(NotEnoughPlayers)
    else if UnplayedCount(BuildCells(pack)) == 0 then Err(InvalidPack)
    else Ok(Game(Roster, 0, 0, DefaultRoster(seats), "Team A", "Team B", 0, 0, TeamA, 0, BuildCells(pack), None, None,
                 NoPhase, [], []))
  }
}
