// "Guess the Song" as it runs: a game object whose fields the actions
// overwrite. Every method is tied to the protocol.
module SongEngine {
  import opened Wrappers
  import opened Sums
  import opened Lobby
  import opened SongTable
  import opened SongRules

  class GameState {
    const pack: Pack
    var phase: Phase
    var seqNo: nat
    var hostSeat: int
    var participants: seq<Participant>
    var nameA: string
    var nameB: string
    var scoreA: int
    var scoreB: int
    var activeTeam: Team
    var roundNo: int
    var cells: seq<Cell>
    var song: Option<Song>
    var pending: Option<Pending>
    var resumePhase: Phase
    var results: seq<ResultEntry>
    var history: seq<Outcome>

    // The game these fields describe.
    function Snapshot(): Game
      reads this
    {
      Game(phase, seqNo, hostSeat, participants, nameA, nameB, scoreA, scoreB, activeTeam, roundNo, cells, song, pending,
           resumePhase, results, history)
    }

    constructor (pack: Pack, gs: Game)
      ensures Snapshot() == gs && this.pack == pack
    {
      this.pack := pack;
      phase, seqNo, hostSeat, participants := gs.phase, gs.seqNo, gs.hostSeat, gs.participants;
      nameA, nameB, scoreA, scoreB := gs.nameA, gs.nameB, gs.scoreA, gs.scoreB;
      activeTeam, roundNo, cells, song := gs.activeTeam, gs.roundNo, gs.cells, gs.song;
      pending, resumePhase, results, history := gs.pending, gs.resumePhase, gs.results, gs.history;
    }

    // An accepted action leaves the game the protocol says; what a refused one
    // leaves is never stored.
    ghost predicate Done(refused: Option<Error>, r: Result<Game, Error>)
      reads this
    {
      match r
      case Ok(after) => refused.None? && Snapshot() == after
      case Err(e) => refused == Some(e)
    }

    // -------------------------------------------------------------------
    // Counting
    // -------------------------------------------------------------------

    method CountMembers(team: Team) returns (n: int)
      ensures n == MemberCount(participants, team)
    {
      n := 0;
      for i := 0 to |participants|
        invariant n == MemberCount(participants[..i], team)
      {
        SumAppend(MemberFlags(participants[..i], team), Indicator(PlaysFor(participants[i], team)));
        assert MemberFlags(participants[..i + 1], team) ==
               MemberFlags(participants[..i], team) + [Indicator(PlaysFor(participants[i], team))];
        if participants[i].active && participants[i].team == team {
          n := n + 1;
        }
      }
      assert participants[..|participants|] == participants;
    }

    method CountCaptains(team: Team) returns (n: int)
      ensures n == CaptainCount(participants, team)
    {
      n := 0;
      for i := 0 to |participants|
        invariant n == CaptainCount(participants[..i], team)
      {
        var p := participants[i];
        SumAppend(CaptainFlags(participants[..i], team), Indicator(p.active && IsCaptainOf(p, team)));
        assert CaptainFlags(participants[..i + 1], team) ==
               CaptainFlags(participants[..i], team) + [Indicator(p.active && IsCaptainOf(p, team))];
        if p.active && p.team == team && p.captain {
          n := n + 1;
        }
      }
      assert participants[..|participants|] == participants;
    }

    method CountActive() returns (n: int)
      ensures n == ActiveCount(participants)
    {
      n := 0;
      for i := 0 to |participants|
        invariant n == ActiveCount(participants[..i])
      {
        SumAppend(ActiveFlags(participants[..i]), Indicator(participants[i].active));
        assert ActiveFlags(participants[..i + 1]) == ActiveFlags(participants[..i]) + [Indicator(participants[i].active)];
        if participants[i].active {
          n := n + 1;
        }
      }
      assert participants[..|participants|] == participants;
    }

    method UnplayedRemaining() returns (n: int)
      ensures n == UnplayedCount(cells)
    {
      n := 0;
      for c := 0 to |cells|
        invariant n == UnplayedCount(cells[..c])
      {
        SumAppend(PoolSizes(cells[..c]), |cells[c].unplayed|);
        assert PoolSizes(cells[..c + 1]) == PoolSizes(cells[..c]) + [|cells[c].unplayed|];
        n := n + |cells[c].unplayed|;
      }
      assert cells[..|cells|] == cells;
    }

    static method CountRevealed(mask: seq<bool>) returns (n: int)
      ensures n == RevealedCount(mask)
    {
      n := 0;
      for i := 0 to |mask|
        invariant n == RevealedCount(mask[..i])
      {
        SumAppend(MaskFlags(mask[..i]), Indicator(mask[i]));
        assert MaskFlags(mask[..i + 1]) == MaskFlags(mask[..i]) + [Indicator(mask[i])];
        if mask[i] {
          n := n + 1;
        }
      }
      assert mask[..|mask|] == mask;
    }

    method IsTerminal() returns (r: bool)
      ensures r == Terminal(participants)
    {
      var a := CountMembers(TeamA);
      var b := CountMembers(TeamB);
      if a == 0 || b == 0 {
        return true;
      }
      var n := CountActive();
      return n < 3;
    }

    // -------------------------------------------------------------------
    // The roster
    // -------------------------------------------------------------------

    method PromoteCaptain(team: Team)
      modifies this`participants
      ensures participants == Promoted(old(participants), team)
    {
      for i := 0 to |participants|
        invariant participants == old(participants)
        invariant forall k :: 0 <= k < i ==> !PlaysFor(participants[k], team)
      {
        if participants[i].active && participants[i].team == team {
          participants := participants[i := participants[i].(captain := true)];
          return;
        }
      }
    }

    method ReassignJudge(t: nat)
      requires t < |participants|
      modifies this`participants
      ensures participants == Reassigned(old(participants), t)
    {
      var previous := JudgeOf(participants);
      if previous.Some? && participants[previous.value].seat != participants[t].seat {
        participants := participants[previous.value := participants[previous.value].(judge := false)];
      }
      var team := participants[t].team;
      participants := participants[t := participants[t].(judge := true, team := NoTeam, captain := false)];
      if team != NoTeam && CaptainOf(participants, team).None? {
        PromoteCaptain(team);
      }
    }

    method AssignTeamTo(user: nat, seat: int, wire: string) returns (refused: Option<Error>)
      modifies this`participants
      ensures Done(refused, ApplyAssignTeam(old(Snapshot()), user, seat, wire))
    {
      refused := RosterGuard(Snapshot(), user);
      if refused.Some? {
        return;
      }
      var target := Target(Snapshot(), seat);
      var team := ParseTeam(wire);
      if target.None? || team.None? {
        return Some(IllegalAction);
      }
      var t := target.value;
      if team.value != NoTeam && participants[t].judge {
        return Some(IllegalAction);
      }
      var previous := participants[t].team;
      participants := participants[t := participants[t].(team := team.value)];
      if participants[t].captain && team.value != previous {
        participants := participants[t := participants[t].(captain := false)];
      }
    }

    method AssignCaptainTo(user: nat, seat: int) returns (refused: Option<Error>)
      modifies this`participants
      ensures Done(refused, ApplyAssignCaptain(old(Snapshot()), user, seat))
    {
      refused := RosterGuard(Snapshot(), user);
      if refused.Some? {
        return;
      }
      var target := Target(Snapshot(), seat);
      if target.None? || participants[target.value].team == NoTeam {
        return Some(IllegalAction);
      }
      var t := target.value;
      var previous := CaptainOf(participants, participants[t].team);
      if previous.Some? && participants[previous.value].seat != participants[t].seat {
        participants := participants[previous.value := participants[previous.value].(captain := false)];
      }
      participants := participants[t := participants[t].(captain := true)];
    }

    method AssignJudgeTo(user: nat, seat: int) returns (refused: Option<Error>)
      requires Present(Snapshot())
      modifies this
      ensures Done(refused, ApplyAssignJudge(old(Snapshot()), user, seat))
    {
      if phase != Roster && phase != JudgeVacant {
        return Some(WrongPhase);
      }
      refused := HostGuard(Snapshot(), user);
      if refused.Some? {
        return;
      }
      var target := Target(Snapshot(), seat);
      if target.None? {
        return Some(IllegalAction);
      }
      ReassignJudge(target.value);
      if phase == JudgeVacant {
        phase := resumePhase;
        resumePhase := NoPhase;
        FinalizeIfTerminal();
      }
    }

    method RenameTeam(user: nat, wire: string, name: string) returns (refused: Option<Error>)
      modifies this`nameA, this`nameB
      ensures Done(refused, ApplySetTeamName(old(Snapshot()), user, wire, name))
    {
      refused := RosterGuard(Snapshot(), user);
      if refused.Some? {
        return;
      }
      var team := ParseTeam(wire);
      if team.None? || team.value == NoTeam || !(1 <= |name| <= MAX_TEAM_NAME) {
        return Some(IllegalAction);
      }
      if team.value == TeamA {
        nameA := name;
      } else {
        nameB := name;
      }
    }

    // The four guards on the roster before a game may begin.
    method ValidateRoster() returns (ok: bool)
      ensures ok == RosterReady(participants)
    {
      var judge := JudgeOf(participants);
      if judge.None? || participants[judge.value].team != NoTeam {
        return false;
      }
      var a := CountMembers(TeamA);
      var captainsA := CountCaptains(TeamA);
      var b := CountMembers(TeamB);
      var captainsB := CountCaptains(TeamB);
      return a != 0 && captainsA == 1 && b != 0 && captainsB == 1;
    }

    method Begin(user: nat, starting: string) returns (refused: Option<Error>)
      modifies this`phase, this`activeTeam, this`roundNo
      ensures Done(refused, ApplyBeginGame(old(Snapshot()), user, starting))
    {
      refused := RosterGuard(Snapshot(), user);
      if refused.Some? {
        return;
      }
      var ready := ValidateRoster();
      var remaining := UnplayedRemaining();
      var start := StartingTeam(starting);
      if !ready || remaining == 0 || start.None? {
        return Some(IllegalAction);
      }
      phase := RoundSelect;
      activeTeam := start.value;
      roundNo := 1;
    }

    // -------------------------------------------------------------------
    // Rounds
    // -------------------------------------------------------------------

    method Select(user: nat, language: string, bucket: int, draw: nat) returns (refused: Option<Error>)
      modifies this`cells, this`song, this`phase
      ensures Done(refused, ApplySelectCell(pack, old(Snapshot()), user, language, bucket, draw))
    {
      if phase != RoundSelect {
        return Some(WrongPhase);
      }
      refused := ActiveCaptainGuard(Snapshot(), user);
      if refused.Some? {
        return;
      }
      var at := CellFor(cells, language, bucket);
      if at.None? || cells[at.value].unplayed == [] {
        return Some(IllegalAction);
      }
      var c := at.value;
      var ids := cells[c].unplayed;
      var k := draw % |ids|;
      var id := ids[k];
      ids := ids[k := ids[|ids| - 1]];
      ids := ids[..|ids| - 1];
      cells := cells[c := cells[c].(unplayed := ids, played := cells[c].played + 1)];
      var drawn := SongById(pack, id);
      if drawn.None? {
        return Some(InvalidPack);
      }
      song := Some(FreshSong(drawn.value, language, bucket));
      phase := SongPlay;
    }

    method Next(user: nat) returns (refused: Option<Error>)
      modifies this
      ensures Done(refused, ApplyNextRound(old(Snapshot()), user))
    {
      if phase != SongResult {
        return Some(WrongPhase);
      }
      if OfUser(participants, user).None? {
        return Some(NotSeated);
      }
      var next := Opponent(activeTeam);
      if CaptainGuard(Snapshot(), user, next).Some? && HostGuard(Snapshot(), user).Some? {
        return Some(NotYourTurn);
      }
      activeTeam := next;
      song := None;
      var remaining := UnplayedRemaining();
      if remaining == 0 {
        Finalize();
        return None;
      }
      roundNo := roundNo + 1;
      phase := RoundSelect;
      return None;
    }

    // -------------------------------------------------------------------
    // Playing a song
    // -------------------------------------------------------------------

    // The one place that appends to the history and adds to a score.
    method Finish(awarded: Team, points: int, skipped: bool, lastGuess: string)
      requires song.Some?
      modifies this`song, this`history, this`scoreA, this`scoreB, this`phase, this`pending
      ensures Snapshot() == FinishSong(old(Snapshot()), awarded, points, skipped, lastGuess)
    {
      var s := song.value;
      song := Some(s.(awarded := awarded, points := points, skipped := skipped, lastGuess := lastGuess));
      var revealed := CountRevealed(s.mask);
      history := history + [Outcome(s.id, s.language, s.bucket, revealed, awarded, points, skipped, activeTeam)];
      if awarded == TeamA {
        scoreA := scoreA + points;
      } else if awarded == TeamB {
        scoreB := scoreB + points;
      }
      phase := SongResult;
      pending := None;
    }

    method Reveal(index: int) returns (refused: Option<Error>)
      requires song.Some?
      modifies this`song, this`history, this`scoreA, this`scoreB, this`phase, this`pending
      ensures Done(refused, RevealAt(old(Snapshot()), index))
    {
      var s := song.value;
      if !(0 <= index < |s.mask|) || s.mask[index] {
        return Some(IllegalAction);
      }
      s := s.(mask := s.mask[index := true]);
      song := Some(s);
      var revealed := CountRevealed(s.mask);
      if |s.blocks| - revealed == 0 {
        Finish(NoTeam, 0, false, s.lastGuess);
        return None;
      }
      song := Some(s.(awaiting := ActiveTurn));
      return None;
    }

    method Open(user: nat, index: int) returns (refused: Option<Error>)
      requires Present(Snapshot())
      modifies this`song, this`history, this`scoreA, this`scoreB, this`phase, this`pending
      ensures Done(refused, ApplyOpenBlock(old(Snapshot()), user, index))
    {
      if phase != SongPlay || AwaitingOf(Snapshot()) != ActiveTurn {
        return Some(WrongPhase);
      }
      refused := ActiveCaptainGuard(Snapshot(), user);
      if refused.Some? {
        return;
      }
      var s := song.value;
      var revealed := CountRevealed(s.mask);
      if !(0 <= index < |s.mask|) || s.mask[index] || |s.blocks| - revealed <= 0 {
        return Some(IllegalAction);
      }
      if s.stealAllowed && revealed > 0 {
        song := Some(s.(awaiting := StealTurn, stealWindow := index));
        return;
      }
      refused := Reveal(index);
    }

    // A guess goes to the judge.
    method Claim(user: nat, kind: JudgeKind, text: string)
      requires song.Some? && OfUser(participants, user).Some?
      modifies this`pending, this`phase
      ensures Snapshot() == Claimed(old(Snapshot()), user, kind, text)
    {
      var s := song.value;
      var revealed := CountRevealed(s.mask);
      var seat := participants[OfUser(participants, user).value].seat;
      var claimant := if kind == ActiveGuess then activeTeam else Opponent(activeTeam);
      var resume := match kind case ActiveGuess => ActiveTurn case StealGuess => StealTurn case LastChanceGuess => LastChanceTurn case NoKind => Nobody;
      pending := Some(Pending(kind, claimant, seat, text, |s.blocks| - revealed, resume, kind == StealGuess,
                              if kind == StealGuess then s.stealWindow else -1));
      phase := PendingJudgement;
    }

    method MakeGuess(user: nat, text: string) returns (refused: Option<Error>)
      requires Present(Snapshot())
      modifies this`pending, this`phase
      ensures Done(refused, ApplyGuess(old(Snapshot()), user, text))
    {
      if phase != SongPlay {
        return Some(WrongPhase);
      }
      match song.value.awaiting {
        case ActiveTurn =>
          refused := ActiveCaptainGuard(Snapshot(), user);
          if refused.Some? {
            return;
          }
          if |text| > MAX_GUESS {
            return Some(IllegalAction);
          }
          Claim(user, ActiveGuess, text);
        case LastChanceTurn =>
          refused := OpponentCaptainGuard(Snapshot(), user);
          if refused.Some? {
            return;
          }
          if |text| > MAX_GUESS {
            return Some(IllegalAction);
          }
          Claim(user, LastChanceGuess, text);
        case StealTurn => return Some(IllegalAction);
        case Nobody => return Some(WrongPhase);
      }
    }

    method MakeSteal(user: nat, text: string) returns (refused: Option<Error>)
      requires Present(Snapshot())
      modifies this`pending, this`phase
      ensures Done(refused, ApplySteal(old(Snapshot()), user, text))
    {
      if phase != SongPlay || AwaitingOf(Snapshot()) != StealTurn {
        return Some(WrongPhase);
      }
      refused := OpponentCaptainGuard(Snapshot(), user);
      if refused.Some? {
        return;
      }
      if !song.value.stealAllowed || |text| > MAX_GUESS {
        return Some(IllegalAction);
      }
      Claim(user, StealGuess, text);
    }

    method DeclineTurn(user: nat) returns (refused: Option<Error>)
      requires Present(Snapshot())
      modifies this`song, this`history, this`scoreA, this`scoreB, this`phase, this`pending
      ensures Done(refused, ApplyPass(old(Snapshot()), user))
    {
      if phase != SongPlay {
        return Some(WrongPhase);
      }
      match song.value.awaiting {
        case StealTurn =>
          refused := OpponentCaptainGuard(Snapshot(), user);
          if refused.None? {
            refused := Reveal(song.value.stealWindow);
          }
        case LastChanceTurn =>
          refused := OpponentCaptainGuard(Snapshot(), user);
          if refused.None? {
            Finish(NoTeam, 0, false, song.value.lastGuess);
          }
        case ActiveTurn => return Some(IllegalAction);
        case Nobody => return Some(WrongPhase);
      }
    }

    method Skip(user: nat) returns (refused: Option<Error>)
      requires Present(Snapshot())
      modifies this`song, this`history, this`scoreA, this`scoreB, this`phase, this`pending
      ensures Done(refused, ApplySkipSong(old(Snapshot()), user))
    {
      refused := HostGuard(Snapshot(), user);
      if refused.Some? {
        return;
      }
      if phase != SongPlay && phase != PendingJudgement {
        return Some(WrongPhase);
      }
      Finish(NoTeam, 0, true, song.value.lastGuess);
    }

    // -------------------------------------------------------------------
    // Judging
    // -------------------------------------------------------------------

    method Judge(user: nat, correct: bool) returns (refused: Option<Error>)
      requires Present(Snapshot())
      modifies this`song, this`history, this`scoreA, this`scoreB, this`phase, this`pending
      ensures Done(refused, ApplyJudgeResult(old(Snapshot()), user, correct))
    {
      refused := JudgeGuard(Snapshot(), user);
      if refused.Some? {
        return;
      }
      var decision := pending.value;
      if correct {
        Finish(decision.claimant, decision.potential, false, decision.guess);
        return;
      }
      match decision.kind {
        case ActiveGuess =>
          phase := SongPlay;
          pending := None;
          song := Some(song.value.(awaiting := LastChanceTurn));
        case StealGuess =>
          song := Some(song.value.(stealAllowed := false));
          phase := SongPlay;
          pending := None;
          if decision.revealAfter {
            refused := Reveal(decision.owed);
          } else {
            song := Some(song.value.(awaiting := decision.resume));
          }
        case LastChanceGuess => Finish(NoTeam, 0, false, decision.guess);
        case NoKind => return Some(IllegalAction);
      }
    }

    method DiscardDecision(user: nat) returns (refused: Option<Error>)
      requires Present(Snapshot())
      modifies this`song, this`phase, this`pending
      ensures Done(refused, ApplyVoid(old(Snapshot()), user))
    {
      refused := JudgeGuard(Snapshot(), user);
      if refused.Some? {
        return;
      }
      phase := SongPlay;
      song := Some(song.value.(awaiting := pending.value.resume));
      pending := None;
    }

    // -------------------------------------------------------------------
    // Leaving and the end of the game
    // -------------------------------------------------------------------

    method BuildResults() returns (entries: seq<ResultEntry>)
      ensures entries == Results(Snapshot())
    {
      var ranks := TeamRanks(scoreA, scoreB);
      entries := [];
      for i := 0 to |participants|
        invariant |entries| == i
        invariant forall k :: 0 <= k < i ==> entries[k] == ResultOf(participants[k], scoreA, scoreB)
      {
        var p := participants[i];
        var entry := ResultEntry(p.seat, p.user, p.team, 0, 0, p.judge);
        match p.team {
          case TeamA => entry := entry.(total := scoreA, rank := ranks.0);
          case TeamB => entry := entry.(total := scoreB, rank := ranks.1);
          case NoTeam =>
        }
        entries := entries + [entry];
      }
    }

    method Finalize()
      requires InFlight(Snapshot()) ==> song.Some?
      modifies this
      ensures Snapshot() == Finalized(old(Snapshot()))
    {
      var interrupted := if phase == JudgeVacant then resumePhase else phase;
      if interrupted == SongPlay || interrupted == PendingJudgement {
        Finish(NoTeam, 0, true, song.value.lastGuess);
      }
      var entries := BuildResults();
      phase := Finished;
      resumePhase := NoPhase;
      results := entries;
    }

    method FinalizeIfTerminal()
      requires InFlight(Snapshot()) ==> song.Some?
      modifies this
      ensures Snapshot() == GoOn(old(Snapshot()))
    {
      var over := IsTerminal();
      if over {
        Finalize();
      }
    }

    method Leave(i: nat)
      requires i < |participants|
      modifies this`participants, this`phase, this`resumePhase, this`hostSeat
      ensures Snapshot() == LeftGame(old(Snapshot()), i)
    {
      var p := participants[i];
      participants := participants[i := p.(active := false, captain := false, judge := false)];
      if p.captain {
        PromoteCaptain(p.team);
      }
      if p.judge {
        resumePhase := phase;
        phase := JudgeVacant;
      }
      if p.seat == hostSeat {
        hostSeat := LowestActiveSeat(participants);
      }
    }

    method ResignUser(user: nat) returns (refused: Option<Error>)
      requires Present(Snapshot())
      modifies this
      ensures Done(refused, ApplyResign(old(Snapshot()), user))
    {
      var at := OfUser(participants, user);
      if at.None? {
        return Some(NotSeated);
      }
      if !participants[at.value].active {
        return Some(IllegalAction);
      }
      Leave(at.value);
      FinalizeIfTerminal();
      return None;
    }

    // -------------------------------------------------------------------
    // Dispatch
    // -------------------------------------------------------------------

    method Route(user: nat, a: Action, draw: nat) returns (refused: Option<Error>)
      requires Present(Snapshot())
      modifies this
      ensures Done(refused, Dispatch(pack, old(Snapshot()), user, a, draw))
    {
      if phase == JudgeVacant && !a.AssignJudge? && !a.Resign? {
        return Some(WrongPhase);
      }
      match a {
        case AssignTeam(seat, team) => refused := AssignTeamTo(user, seat, team);
        case AssignCaptain(seat) => refused := AssignCaptainTo(user, seat);
        case AssignJudge(seat) => refused := AssignJudgeTo(user, seat);
        case SetTeamName(team, name) => refused := RenameTeam(user, team, name);
        case BeginGame(starting) => refused := Begin(user, starting);
        case SelectCell(language, bucket) => refused := Select(user, language, bucket, draw);
        case NextRound => refused := Next(user);
        case Resign => refused := ResignUser(user);
        case Unknown => refused := Some(IllegalAction);
        case _ => refused := RoutePlay(user, a, draw);
      }
    }

    method RoutePlay(user: nat, a: Action, draw: nat) returns (refused: Option<Error>)
      requires Present(Snapshot()) && phase != JudgeVacant
      requires a.OpenBlock? || a.Guess? || a.Steal? || a.Pass? || a.SkipSong? || a.JudgeResult? || a.VoidDecision?
      modifies this
      ensures Done(refused, Dispatch(pack, old(Snapshot()), user, a, draw))
    {
      match a {
        case OpenBlock(index) => refused := Open(user, index);
        case Guess(text) => refused := MakeGuess(user, text);
        case Steal(text) => refused := MakeSteal(user, text);
        case Pass => refused := DeclineTurn(user);
        case SkipSong => refused := Skip(user);
        case JudgeResult(correct) => refused := Judge(user, correct);
        case VoidDecision => refused := DiscardDecision(user);
      }
    }
  }

  // What is left to store once an action was carried out or refused.
  method Settle(game: GameState, refused: Option<Error>, ghost done: Result<Game, Error>) returns (r: Result<Game, Error>)
    requires game.Done(refused, done)
    modifies game`seqNo
    ensures r == Numbered(done)
  {
    if refused.Some? {
      return Err(refused.value);
    }
    game.seqNo := game.seqNo + 1;
    r := Ok(game.Snapshot());
  }

  // One action on a stored game, from its decoded state to the state to store.
  method Apply(pack: Pack, gs: Game, user: nat, a: Action, draw: nat) returns (r: Result<Game, Error>)
    requires Present(gs)
    ensures r == SongRules.Apply(pack, gs, user, a, draw)
  {
    if gs.phase == Finished {
      return Err(GameOver);
    }
    var game := new GameState(pack, gs);
    var refused := game.Route(user, a, draw);
    r := Settle(game, refused, Dispatch(pack, gs, user, a, draw));
  }

  // The selection table: one row of cells for each language, in pack order.
  method FlattenPack(pack: Pack) returns (cells: seq<Cell>)
    ensures cells == BuildCells(pack)
  {
    cells := [];
    ghost var shelves := [];
    for l := 0 to |pack|
      invariant shelves == Shelves(pack[..l]) && |cells| == |shelves|
      invariant forall c :: 0 <= c < |cells| ==> CellOf(cells[c], shelves[c])
    {
      assert pack[..l + 1][..l] == pack[..l];
      ghost var before := shelves;
      var buckets := pack[l].buckets;
      for b := 0 to |buckets|
        invariant shelves == before + ShelvesOf(l, pack[l].name, buckets)[..b] && |cells| == |shelves|
        invariant forall c :: 0 <= c < |cells| ==> CellOf(cells[c], shelves[c])
      {
        var ids: seq<nat> := [];
        for i := 0 to |buckets[b].songs|
          invariant ids == Ids(buckets[b].songs)[..i]
        {
          ids := ids + [buckets[b].songs[i].id];
        }
        cells := cells + [Cell(l, pack[l].name, buckets[b].blocks, ids, 0)];
        shelves := shelves + [Shelf(l, pack[l].name, buckets[b].blocks, buckets[b].songs)];
      }
    }
    assert pack[..|pack|] == pack;
  }

  ghost predicate CellOf(cell: Cell, shelf: Shelf) {
    cell == Cell(shelf.languageIndex, shelf.language, shelf.bucket, Ids(shelf.songs), 0)
  }

  // A new game with the default roster: teams by seat parity, the lowest seats
  // as captains, and the host of seat 0, if there is one, as the judge.
  method InitState(pack: Pack, seats: seq<SeatInit>) returns (r: Result<Game, Error>)
    ensures r == SongRules.InitState(pack, seats)
  {
    if !(MIN_SEATS <= |seats| <= MAX_SEATS) {
      return Err(NotEnoughPlayers);
    }
    var cells := FlattenPack(pack);
    var seated := Seated(SortSeats(seats));
    var game := new GameState(pack, Game(Roster, 0, 0, seated, "Team A", "Team B", 0, 0, TeamA, 0, cells, None, None,
                                         NoPhase, [], []));
    var remaining := game.UnplayedRemaining();
    if remaining == 0 {
      return Err(InvalidPack);
    }
    game.PromoteCaptain(TeamA);
    game.PromoteCaptain(TeamB);
    var host := AtSeat(game.participants, game.hostSeat);
    if host.Some? {
      game.ReassignJudge(host.value);
    }
    return Ok(game.Snapshot());
  }
}
