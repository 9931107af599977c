// The books of a game: finished songs, scores, and where every song of the
// pack is.
module SongLedger {
  import opened Wrappers
  import opened Sums
  import opened SongTable
  import opened SongRules

  // ---------------------------------------------------------------------
  // Finished songs
  // ---------------------------------------------------------------------

  // Points a team was awarded over the finished songs.
  function Credited(history: seq<Outcome>, team: Team): int {
    if history == [] then 0
    else
      var n := |history| - 1;
      Credited(history[..n], team) + if history[n].awarded == team then history[n].points else 0
  }

  // Rounds in which a team was the active one.
  function Rounds(history: seq<Outcome>, team: Team): int {
    if history == [] then 0
    else
      var n := |history| - 1;
      Rounds(history[..n], team) + Indicator(history[n].activeTeam == team)
  }

  // An award is worth the blocks still closed, between one and the bucket;
  // a song nobody won is worth nothing.
  ghost predicate OutcomeOk(o: Outcome) {
    && 0 <= o.revealed <= o.bucket && o.bucket >= 1
    && if o.awarded == NoTeam then o.points == 0 else o.points == o.bucket - o.revealed && 1 <= o.points <= o.bucket && !o.skipped
  }

  ghost predicate Alternates(history: seq<Outcome>) {
    && (forall i :: 0 <= i < |history| ==> history[i].activeTeam != NoTeam)
    && (forall i {:trigger Flips(history, i)} :: 0 < i < |history| ==> Flips(history, i))
  }

  ghost predicate Flips(history: seq<Outcome>, i: nat)
    requires 0 < i < |history|
  {
    history[i - 1].activeTeam != history[i].activeTeam
  }

  ghost predicate Ledger(history: seq<Outcome>, scoreA: int, scoreB: int) {
    && (forall i {:trigger OutcomeOk(history[i])} :: 0 <= i < |history| ==> OutcomeOk(history[i]))
    && scoreA == Credited(history, TeamA) && scoreB == Credited(history, TeamB)
  }

  lemma {:induction false} AppendOutcome(history: seq<Outcome>, o: Outcome, team: Team)
    ensures Credited(history + [o], team) == Credited(history, team) + if o.awarded == team then o.points else 0
  {
    assert (history + [o])[..|history|] == history;
  }

  lemma AppendLedger(history: seq<Outcome>, scoreA: int, scoreB: int, o: Outcome)
    requires Ledger(history, scoreA, scoreB) && OutcomeOk(o)
    ensures Ledger(history + [o], scoreA + if o.awarded == TeamA then o.points else 0,
                   scoreB + if o.awarded == TeamB then o.points else 0)
  {
    AppendOutcome(history, o, TeamA);
    AppendOutcome(history, o, TeamB);
    forall i | 0 <= i <= |history|
      ensures OutcomeOk((history + [o])[i])
    {
      assert i < |history| ==> OutcomeOk(history[i]);
    }
  }

  // Turns alternate, so the teams' numbers of rounds differ by at most one,
  // in favour of the team that went last.
  lemma {:induction false} RoundsShared(history: seq<Outcome>)
    requires Alternates(history)
    ensures Rounds(history, TeamA) + Rounds(history, TeamB) == |history|
    ensures |history| % 2 == 0 ==> Rounds(history, TeamA) == Rounds(history, TeamB)
    ensures |history| % 2 == 1 ==> Rounds(history, history[|history| - 1].activeTeam) == (|history| + 1) / 2
  {
    if history != [] {
      var n := |history| - 1;
      assert Alternates(history[..n]) by {
        forall i | 0 < i < n
          ensures Flips(history[..n], i)
        {
          assert Flips(history, i);
        }
      }
      RoundsShared(history[..n]);
      assert n > 0 ==> Flips(history, n);
    }
  }

  // ---------------------------------------------------------------------
  // The selection table
  // ---------------------------------------------------------------------

  lemma SwapRemoveMembers(ids: seq<nat>, k: nat)
    requires k < |ids|
    ensures forall x :: x in SwapRemove(ids, k) ==> x in ids
  {
  }

  lemma DrawCounts(cells: seq<Cell>, c: nat, k: nat)
    requires c < |cells| && k < |cells[c].unplayed|
    ensures UnplayedCount(cells[c := Drawn(cells[c], k)]) == UnplayedCount(cells) - 1
  {
    var cell := Drawn(cells[c], k);
    SumUpdate(PoolSizes(cells), c, |cell.unplayed|);
    assert PoolSizes(cells[c := cell]) == PoolSizes(cells)[c := |cell.unplayed|];
  }

  // ---------------------------------------------------------------------
  // The song pack behind the table
  // ---------------------------------------------------------------------

  ghost predicate Drawable(pack: Pack, bucket: int, id: nat) {
    SongById(pack, id).Some? && |SongById(pack, id).value.line| == bucket && bucket >= 1
  }

  ghost predicate CellsOk(pack: Pack, cells: seq<Cell>) {
    && (forall c, k :: 0 <= c < |cells| && 0 <= k < |cells[c].unplayed| ==> Drawable(pack, cells[c].bucket, cells[c].unplayed[k]))
    && (forall c, d {:trigger cells[c].language, cells[d].language} :: 0 <= c < d < |cells| ==>
          cells[c].language != cells[d].language || cells[c].bucket != cells[d].bucket)
  }

  // Every id of a valid pack leads back to its own song.
  lemma FreshCellsOk(pack: Pack)
    requires ValidPack(pack)
    ensures CellsOk(pack, BuildCells(pack))
  {
    var shelves := Shelves(pack);
    var cells := BuildCells(pack);
    forall c, k | 0 <= c < |cells| && 0 <= k < |cells[c].unplayed|
      ensures Drawable(pack, cells[c].bucket, cells[c].unplayed[k])
    {
      var id := shelves[c].songs[k].id;
      var found := FindSong(shelves, id);
      assert found.Some?;
      var s :| 0 <= s < |shelves| && found.value in shelves[s].songs;
      var i :| 0 <= i < |shelves[s].songs| && shelves[s].songs[i] == found.value;
      assert s == c && i == k;
    }
  }

  lemma DrawnCellsOk(pack: Pack, cells: seq<Cell>, c: nat, k: nat)
    requires CellsOk(pack, cells) && c < |cells| && k < |cells[c].unplayed|
    ensures CellsOk(pack, cells[c := Drawn(cells[c], k)])
  {
    var ids := SwapRemove(cells[c].unplayed, k);
    SwapRemoveMembers(cells[c].unplayed, k);
    forall j | 0 <= j < |ids|
      ensures Drawable(pack, cells[c].bucket, ids[j])
    {
      assert ids[j] in ids;
      var m :| 0 <= m < |cells[c].unplayed| && cells[c].unplayed[m] == ids[j];
    }
  }

  // ---------------------------------------------------------------------
  // Blocks
  // ---------------------------------------------------------------------

  lemma RevealOne(mask: seq<bool>, i: nat)
    requires i < |mask| && !mask[i]
    ensures RevealedCount(mask[i := true]) == RevealedCount(mask) + 1
  {
    SumUpdate(MaskFlags(mask), i, 1);
    assert MaskFlags(mask[i := true]) == MaskFlags(mask)[i := 1];
  }

  lemma RevealedBounds(mask: seq<bool>)
    ensures 0 <= RevealedCount(mask) <= |mask|
  {
    SumBounds(MaskFlags(mask), 0, 1);
  }

  lemma AllClosed(n: nat)
    ensures RevealedCount(seq(n, i => false)) == 0
  {
    SumBounds(MaskFlags(seq(n, i => false)), 0, 0);
  }

  lemma {:induction false} SomeClosed(mask: seq<bool>) returns (i: nat)
    requires RevealedCount(mask) < |mask|
    ensures i < |mask| && !mask[i]
  {
    if mask[0] {
      assert MaskFlags(mask)[1..] == MaskFlags(mask[1..]);
      i := SomeClosed(mask[1..]);
      i := i + 1;
    } else {
      i := 0;
    }
  }
}
