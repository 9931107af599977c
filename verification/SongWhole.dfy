// Every song of a pack stays in exactly one place.
module SongWhole {
  import opened Wrappers
  import opened Sums
  import opened Counting
  import opened SongTable
  import opened SongRules
  import opened SongLedger
  import opened SongLaws

  // ---------------------------------------------------------------------
  // Counting songs: one id, or with None all of them
  // ---------------------------------------------------------------------

  function Match(id: Option<nat>, x: nat): int { Indicator(id == None || id == Some(x)) }

  function Occurrences(ids: seq<nat>, id: Option<nat>): int {
    match id case None => |ids| case Some(x) => Times(ids, x)
  }

  function Unplayed(cells: seq<Cell>, id: Option<nat>): int {
    if cells == [] then 0 else Unplayed(cells[..|cells| - 1], id) + Occurrences(cells[|cells| - 1].unplayed, id)
  }

  function Played(history: seq<Outcome>, id: Option<nat>): int {
    if history == [] then 0 else Played(history[..|history| - 1], id) + Match(id, history[|history| - 1].id)
  }

  function InPlay(gs: Game, id: Option<nat>): int {
    if InFlight(gs) && gs.song.Some? then Match(id, gs.song.value.id) else 0
  }

  // Unplayed, in play and finished together.
  function Whole(gs: Game, id: Option<nat>): int {
    Unplayed(gs.cells, id) + InPlay(gs, id) + Played(gs.history, id)
  }

  // A drawn song leaves its list, and the last one takes its place.
  lemma SwapRemoved(ids: seq<nat>, k: nat, id: Option<nat>)
    requires k < |ids|
    ensures Occurrences(SwapRemove(ids, k), id) == Occurrences(ids, id) - Match(id, ids[k])
  {
    if id.Some? {
      var n := |ids| - 1;
      var swapped := ids[k := ids[n]];
      TimesUpdate(ids, k, ids[n], id.value);
      TimesConcat(swapped[..n], [ids[n]], id.value);
      assert swapped == swapped[..n] + [ids[n]];
    }
  }

  lemma {:induction false} UnplayedUpdate(cells: seq<Cell>, c: nat, cell: Cell, id: Option<nat>)
    requires c < |cells|
    ensures Unplayed(cells[c := cell], id) == Unplayed(cells, id) - Occurrences(cells[c].unplayed, id) + Occurrences(cell.unplayed, id)
  {
    var n := |cells| - 1;
    if c == n {
      assert cells[c := cell][..n] == cells[..n];
    } else {
      UnplayedUpdate(cells[..n], c, cell, id);
      assert cells[c := cell][..n] == cells[..n][c := cell];
    }
  }

  // Drawing takes exactly the drawn song out of the table.
  lemma DrawMoves(cells: seq<Cell>, c: nat, k: nat, id: Option<nat>)
    requires c < |cells| && k < |cells[c].unplayed|
    ensures Unplayed(cells[c := Drawn(cells[c], k)], id) == Unplayed(cells, id) - Match(id, cells[c].unplayed[k])
  {
    SwapRemoved(cells[c].unplayed, k, id);
    UnplayedUpdate(cells, c, Drawn(cells[c], k), id);
  }

  // ---------------------------------------------------------------------
  // Conservation
  // ---------------------------------------------------------------------

  lemma SameWhole(gs: Game, after: Game, id: Option<nat>)
    requires after.cells == gs.cells && after.history == gs.history && InPlay(after, id) == InPlay(gs, id)
    ensures Whole(after, id) == Whole(gs, id)
  {
  }

  lemma FinishWhole(gs: Game, awarded: Team, points: int, skipped: bool, lastGuess: string, id: Option<nat>)
    requires InFlight(gs) && gs.song.Some?
    ensures Whole(FinishSong(gs, awarded, points, skipped, lastGuess), id) == Whole(gs, id)
  {
    var after := FinishSong(gs, awarded, points, skipped, lastGuess);
    assert after.history[..|gs.history|] == gs.history;
  }

  lemma FinalizedWhole(gs: Game, id: Option<nat>)
    requires InFlight(gs) ==> gs.song.Some?
    ensures Whole(Finalized(gs), id) == Whole(gs, id)
  {
    if InFlight(gs) {
      FinishWhole(gs, NoTeam, 0, true, gs.song.value.lastGuess, id);
      SameWhole(EndSong(gs, true), Finalized(gs), id);
    }
  }

  lemma GoOnWhole(gs: Game, after: Game, id: Option<nat>)
    requires Present(gs) && after.cells == gs.cells && after.history == gs.history && after.song == gs.song && Effective(after) == Effective(gs)
    ensures InFlight(after) ==> after.song.Some?
    ensures Whole(GoOn(after), id) == Whole(gs, id)
  {
    SameWhole(gs, after, id);
    if Terminal(after.participants) {
      FinalizedWhole(after, id);
    }
  }

  lemma RevealWhole(gs: Game, index: int, id: Option<nat>)
    requires InFlight(gs) && gs.song.Some? && RevealAt(gs, index).Ok?
    ensures Whole(RevealAt(gs, index).value, id) == Whole(gs, id)
  {
    var song := gs.song.value;
    var shown := gs.(song := Some(song.(mask := song.mask[index := true])));
    SameWhole(gs, shown, id);
    if Potential(shown.song.value) == 0 {
      FinishWhole(shown, NoTeam, 0, false, song.lastGuess, id);
    } else {
      SameWhole(gs, RevealAt(gs, index).value, id);
    }
  }

  lemma SelectWhole(pack: Pack, gs: Game, user: nat, language: string, bucket: int, draw: nat, after: Game, id: Option<nat>)
    requires ApplySelectCell(pack, gs, user, language, bucket, draw) == Ok(after)
    ensures Whole(after, id) == Whole(gs, id)
  {
    var c := CellFor(gs.cells, language, bucket).value;
    var ids := gs.cells[c].unplayed;
    DrawMoves(gs.cells, c, draw % |ids|, id);
  }

  lemma NextWhole(gs: Game, user: nat, after: Game, id: Option<nat>)
    requires ApplyNextRound(gs, user) == Ok(after)
    ensures Whole(after, id) == Whole(gs, id)
  {
    SameWhole(gs, after, id);
  }

  lemma JudgedWhole(gs: Game, user: nat, correct: bool, after: Game, id: Option<nat>)
    requires Present(gs) && ApplyJudgeResult(gs, user, correct) == Ok(after)
    ensures Whole(after, id) == Whole(gs, id)
  {
    var pending := gs.pending.value;
    if correct {
      FinishWhole(gs, pending.claimant, pending.potential, false, pending.guess, id);
    } else if pending.kind == LastChanceGuess {
      FinishWhole(gs, NoTeam, 0, false, pending.guess, id);
    } else if pending.kind == StealGuess && pending.revealAfter {
      var lockedOut := gs.(phase := SongPlay, pending := None, song := Some(gs.song.value.(stealAllowed := false)));
      SameWhole(gs, lockedOut, id);
      RevealWhole(lockedOut, pending.owed, id);
    } else {
      SameWhole(gs, after, id);
    }
  }

  lemma OpenWhole(gs: Game, user: nat, index: int, after: Game, id: Option<nat>)
    requires Present(gs) && ApplyOpenBlock(gs, user, index) == Ok(after)
    ensures Whole(after, id) == Whole(gs, id)
  {
    var song := gs.song.value;
    if song.stealAllowed && RevealedCount(song.mask) > 0 {
      SameWhole(gs, after, id);
    } else {
      RevealWhole(gs, index, id);
    }
  }

  lemma PassWhole(gs: Game, user: nat, after: Game, id: Option<nat>)
    requires Present(gs) && ApplyPass(gs, user) == Ok(after)
    ensures Whole(after, id) == Whole(gs, id)
  {
    if AwaitingOf(gs) == StealTurn {
      RevealWhole(gs, gs.song.value.stealWindow, id);
    } else {
      FinishWhole(gs, NoTeam, 0, false, gs.song.value.lastGuess, id);
    }
  }

  lemma AssignJudgeWhole(pack: Pack, gs: Game, user: nat, seat: int, after: Game, id: Option<nat>)
    requires Inv(pack, gs) && ApplyAssignJudge(gs, user, seat) == Ok(after)
    ensures Whole(after, id) == Whole(gs, id)
  {
    var t := Target(gs, seat).value;
    if gs.phase == Roster {
      SameWhole(gs, after, id);
    } else {
      GoOnWhole(gs, ResumedGame(gs, t), id);
    }
  }

  lemma ResignWhole(pack: Pack, gs: Game, user: nat, after: Game, id: Option<nat>)
    requires Inv(pack, gs) && gs.phase != Finished && ApplyResign(gs, user) == Ok(after)
    ensures Whole(after, id) == Whole(gs, id)
  {
    var i := OfUser(gs.participants, user).value;
    LeftCrew(gs, i);
    GoOnWhole(gs, LeftGame(gs, i), id);
  }

  lemma PlayWhole(pack: Pack, gs: Game, user: nat, a: Action, draw: nat, after: Game, id: Option<nat>)
    requires a.OpenBlock? || a.Guess? || a.Steal? || a.Pass? || a.SkipSong? || a.JudgeResult? || a.VoidDecision?
    requires Present(gs) && Dispatch(pack, gs, user, a, draw) == Ok(after)
    ensures Whole(after, id) == Whole(gs, id)
  {
    match a {
      case OpenBlock(index) => OpenWhole(gs, user, index, after, id);
      case Pass => PassWhole(gs, user, after, id);
      case SkipSong => FinishWhole(gs, NoTeam, 0, true, gs.song.value.lastGuess, id);
      case JudgeResult(correct) => JudgedWhole(gs, user, correct, after, id);
      case _ => SameWhole(gs, after, id);
    }
  }

  lemma RosterWhole(pack: Pack, gs: Game, user: nat, a: Action, draw: nat, after: Game, id: Option<nat>)
    requires a.AssignTeam? || a.AssignCaptain? || a.SetTeamName? || a.AssignJudge? || a.BeginGame?
    requires Inv(pack, gs) && Dispatch(pack, gs, user, a, draw) == Ok(after)
    ensures Whole(after, id) == Whole(gs, id)
  {
    match a {
      case AssignJudge(seat) => AssignJudgeWhole(pack, gs, user, seat, after, id);
      case _ => SameWhole(gs, after, id);
    }
  }

  lemma RoundWhole(pack: Pack, gs: Game, user: nat, a: Action, draw: nat, after: Game, id: Option<nat>)
    requires a.SelectCell? || a.NextRound? || a.Resign?
    requires Inv(pack, gs) && gs.phase != Finished && Dispatch(pack, gs, user, a, draw) == Ok(after)
    ensures Whole(after, id) == Whole(gs, id)
  {
    match a {
      case SelectCell(language, bucket) => SelectWhole(pack, gs, user, language, bucket, draw, after, id);
      case NextRound => NextWhole(gs, user, after, id);
      case Resign => ResignWhole(pack, gs, user, after, id);
    }
  }

  lemma CountedWhole(gs: Game, after: Game, id: Option<nat>)
    requires after == gs.(seqNo := after.seqNo)
    ensures Whole(after, id) == Whole(gs, id)
  {
  }

  // No action loses, duplicates or invents a song.
  lemma StepConserves(pack: Pack, gs: Game, user: nat, a: Action, draw: nat, after: Game, id: Option<nat>)
    requires Inv(pack, gs) && Apply(pack, gs, user, a, draw) == Ok(after)
    ensures Whole(after, id) == Whole(gs, id)
  {
    var stepped := Dispatch(pack, gs, user, a, draw).value;
    if a.SelectCell? || a.NextRound? || a.Resign? {
      RoundWhole(pack, gs, user, a, draw, stepped, id);
    } else if a.AssignTeam? || a.AssignCaptain? || a.SetTeamName? || a.AssignJudge? || a.BeginGame? {
      RosterWhole(pack, gs, user, a, draw, stepped, id);
    } else {
      PlayWhole(pack, gs, user, a, draw, stepped, id);
    }
    CountedWhole(stepped, after, id);
  }

  // ---------------------------------------------------------------------
  // Exactly one place
  // ---------------------------------------------------------------------

  ghost predicate Holds(cell: Cell, id: nat) { id in cell.unplayed }

  lemma {:induction false} UnplayedSomewhere(cells: seq<Cell>, id: nat)
    ensures Unplayed(cells, Some(id)) >= 0
    ensures Unplayed(cells, Some(id)) > 0 <==> exists c :: 0 <= c < |cells| && Holds(cells[c], id)
  {
    if cells != [] {
      var n := |cells| - 1;
      UnplayedSomewhere(cells[..n], id);
      TimesMember(cells[n].unplayed, id);
      assert forall c :: 0 <= c < n ==> cells[..n][c] == cells[c];
    }
  }

  lemma {:induction false} UnplayedOnce(cells: seq<Cell>, id: nat)
    requires forall c :: 0 <= c < |cells| ==> Times(cells[c].unplayed, id) <= 1
    requires forall c, d {:trigger Holds(cells[c], id), Holds(cells[d], id)} :: 0 <= c < d < |cells| ==> !(Holds(cells[c], id) && Holds(cells[d], id))
    ensures Unplayed(cells, Some(id)) <= 1
  {
    if cells != [] {
      var n := |cells| - 1;
      assert forall c :: 0 <= c < n ==> cells[..n][c] == cells[c];
      UnplayedOnce(cells[..n], id);
      UnplayedSomewhere(cells[..n], id);
      TimesMember(cells[n].unplayed, id);
      assert forall c :: 0 <= c < n ==> !(Holds(cells[c], id) && Holds(cells[n], id));
    }
  }

  lemma PackOnce(pack: Pack, id: nat)
    requires ValidPack(pack)
    ensures Unplayed(BuildCells(pack), Some(id)) == if SongById(pack, id).Some? then 1 else 0
  {
    var shelves := Shelves(pack);
    var cells := BuildCells(pack);
    forall c | 0 <= c < |cells|
      ensures Times(cells[c].unplayed, id) <= 1
    {
      forall i, j | 0 <= i < j < |cells[c].unplayed|
        ensures cells[c].unplayed[i] != cells[c].unplayed[j]
      {
        assert shelves[c].songs[i].id == cells[c].unplayed[i];
      }
      TimesDistinct(cells[c].unplayed, id);
    }
    forall c, d | 0 <= c < d < |cells|
      ensures !(Holds(cells[c], id) && Holds(cells[d], id))
    {
      assert forall i, j :: 0 <= i < |shelves[c].songs| && 0 <= j < |shelves[d].songs| ==> shelves[c].songs[i].id != shelves[d].songs[j].id;
    }
    UnplayedOnce(cells, id);
    UnplayedSomewhere(cells, id);
    FoundInPack(shelves, cells, id);
  }

  lemma {:induction false} FoundInPack(shelves: seq<Shelf>, cells: seq<Cell>, id: nat)
    requires |cells| == |shelves| && forall c :: 0 <= c < |cells| ==> cells[c].unplayed == Ids(shelves[c].songs)
    ensures FindSong(shelves, id).Some? <==> exists c :: 0 <= c < |cells| && Holds(cells[c], id)
  {
    var found := FindSong(shelves, id);
    if found.Some? {
      var s :| 0 <= s < |shelves| && found.value in shelves[s].songs;
      var i :| 0 <= i < |shelves[s].songs| && shelves[s].songs[i] == found.value;
      assert cells[s].unplayed[i] == id;
      assert Holds(cells[s], id);
    }
  }

  // In every game with a valid pack, each of its songs is exactly once in
  // exactly one of three places - unplayed, in play, finished - and no other
  // song is anywhere.
  lemma EverySongOnce(pack: Pack, gs: Game, id: nat)
    requires ValidPack(pack) && Whole(gs, Some(id)) == Unplayed(BuildCells(pack), Some(id))
    ensures Unplayed(gs.cells, Some(id)) + InPlay(gs, Some(id)) + Played(gs.history, Some(id)) ==
            if SongById(pack, id).Some? then 1 else 0
  {
    PackOnce(pack, id);
  }

  lemma {:induction false} UnplayedAll(cells: seq<Cell>)
    ensures Unplayed(cells, None) == UnplayedCount(cells)
  {
    if cells != [] {
      var n := |cells| - 1;
      UnplayedAll(cells[..n]);
      SumAppend(PoolSizes(cells[..n]), |cells[n].unplayed|);
      assert PoolSizes(cells) == PoolSizes(cells[..n]) + [|cells[n].unplayed|];
    }
  }

  lemma {:induction false} PlayedAll(history: seq<Outcome>)
    ensures Played(history, None) == |history|
  {
    if history != [] {
      PlayedAll(history[..|history| - 1]);
    }
  }

  // When the whole pack has been played, the two teams have had the same
  // number of rounds: half of an even pack each.
  lemma ExhaustionIsFair(pack: Pack, gs: Game)
    requires Inv(pack, gs) && Whole(gs, None) == Unplayed(BuildCells(pack), None)
    requires UnplayedCount(gs.cells) == 0 && !InFlight(gs) && UnplayedCount(BuildCells(pack)) % 2 == 0
    ensures Rounds(gs.history, TeamA) == Rounds(gs.history, TeamB) == UnplayedCount(BuildCells(pack)) / 2
  {
    UnplayedAll(gs.cells);
    UnplayedAll(BuildCells(pack));
    PlayedAll(gs.history);
    RoundsShared(gs.history);
  }
}
