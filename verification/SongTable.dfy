// "Guess the Song": song packs, the roster, the selection table and the game state.
module SongTable {
  import opened Wrappers
  import opened Sums

  datatype Team = NoTeam | TeamA | TeamB

  datatype Phase = Roster | RoundSelect | SongPlay | PendingJudgement | SongResult | JudgeVacant | Finished | NoPhase

  // Who is expected to decide while a song is being played.
  datatype Awaiting = Nobody | ActiveTurn | StealTurn | LastChanceTurn

  datatype JudgeKind = NoKind | ActiveGuess | StealGuess | LastChanceGuess

  datatype Participant = Participant(seat: int, user: nat, team: Team, captain: bool, judge: bool, active: bool)

  datatype Cell = Cell(languageIndex: nat, language: string, bucket: int, unplayed: seq<nat>, played: nat)

  // mask[i] tells whether block i has been opened.
  datatype Song = Song(id: nat, language: string, bucket: int, blocks: seq<string>, mask: seq<bool>,
                       stealAllowed: bool, awaiting: Awaiting, stealWindow: int,
                       awarded: Team, points: int, skipped: bool, lastGuess: string)

  datatype Pending = Pending(kind: JudgeKind, claimant: Team, claimantSeat: int, guess: string, potential: int,
                             resume: Awaiting, revealAfter: bool, owed: int)

  datatype Outcome = Outcome(id: nat, language: string, bucket: int, revealed: int, awarded: Team, points: int,
                             skipped: bool, activeTeam: Team)

  datatype ResultEntry = ResultEntry(seat: int, user: nat, team: Team, total: int, rank: int, judge: bool)

  datatype Game = Game(
    phase: Phase, seqNo: nat, hostSeat: int, participants: seq<Participant>,
    nameA: string, nameB: string, scoreA: int, scoreB: int,
    activeTeam: Team, roundNo: int, cells: seq<Cell>, song: Option<Song>, pending: Option<Pending>,
    resumePhase: Phase, results: seq<ResultEntry>, history: seq<Outcome>)

  datatype Action =
    | AssignTeam(seat: int, team: string)
    | AssignCaptain(seat: int)
    | AssignJudge(seat: int)
    | SetTeamName(team: string, name: string)
    | BeginGame(starting: string)
    | SelectCell(language: string, bucket: int)
    | OpenBlock(index: int)
    | Guess(text: string)
    | Steal(text: string)
    | Pass
    | JudgeResult(correct: bool)
    | VoidDecision
    | SkipSong
    | NextRound
    | Resign
    | Unknown

  datatype Error = NotSeated | NotYourTurn | WrongPhase | IllegalAction | GameOver | InvalidPack | NotEnoughPlayers

  // ---------------------------------------------------------------------
  // The song pack
  // ---------------------------------------------------------------------

  datatype PackSong = PackSong(id: nat, line: seq<string>)
  datatype Bucket = Bucket(blocks: nat, songs: seq<PackSong>)
  datatype Language = Language(name: string, buckets: seq<Bucket>)
  type Pack = seq<Language>

  datatype Shelf = Shelf(languageIndex: nat, language: string, bucket: nat, songs: seq<PackSong>)

  function ShelvesOf(index: nat, name: string, buckets: seq<Bucket>): (r: seq<Shelf>)
    ensures |r| == |buckets|
    ensures forall i :: 0 <= i < |buckets| ==> r[i] == Shelf(index, name, buckets[i].blocks, buckets[i].songs)
  {
    seq(|buckets|, i requires 0 <= i < |buckets| => Shelf(index, name, buckets[i].blocks, buckets[i].songs))
  }

  // The (language, bucket) shelves of a pack in document order.
  function Shelves(pack: Pack): seq<Shelf> {
    if pack == [] then []
    else
      var n := |pack| - 1;
      Shelves(pack[..n]) + ShelvesOf(n, pack[n].name, pack[n].buckets)
  }

  function FindOn(songs: seq<PackSong>, id: nat): (r: Option<PackSong>)
    ensures r.Some? ==> r.value in songs && r.value.id == id
    ensures r.None? ==> forall i :: 0 <= i < |songs| ==> songs[i].id != id
  {
    if songs == [] then None
    else if songs[0].id == id then Some(songs[0])
    else FindOn(songs[1..], id)
  }

  function FindSong(shelves: seq<Shelf>, id: nat): (r: Option<PackSong>)
    ensures r.Some? ==> r.value.id == id && exists s :: 0 <= s < |shelves| && r.value in shelves[s].songs
    ensures r.None? ==> forall s, i :: 0 <= s < |shelves| && 0 <= i < |shelves[s].songs| ==> shelves[s].songs[i].id != id
  {
    if shelves == [] then None
    else if FindOn(shelves[0].songs, id).Some? then FindOn(shelves[0].songs, id)
    else FindSong(shelves[1..], id)
  }

  function SongById(pack: Pack, id: nat): Option<PackSong> {
    FindSong(Shelves(pack), id)
  }

  // What the parser of packs checks: one shelf for each (language, bucket) pair,
  // every line with as many blocks as its bucket says, at least one, and no
  // song id twice.
  ghost predicate ShelvesOk(shelves: seq<Shelf>) {
    && (forall s, t {:trigger shelves[s].language, shelves[t].language} :: 0 <= s < t < |shelves| ==>
          shelves[s].language != shelves[t].language || shelves[s].bucket != shelves[t].bucket)
    && (forall s, i :: 0 <= s < |shelves| && 0 <= i < |shelves[s].songs| ==>
          |shelves[s].songs[i].line| == shelves[s].bucket >= 1)
    && (forall s, i, t, j {:trigger shelves[s].songs[i], shelves[t].songs[j]} ::
          (0 <= s < |shelves| && 0 <= i < |shelves[s].songs| && 0 <= t < |shelves| && 0 <= j < |shelves[t].songs| &&
           shelves[s].songs[i].id == shelves[t].songs[j].id) ==> (s == t && i == j))
  }

  ghost predicate ValidPack(pack: Pack) {
    ShelvesOk(Shelves(pack))
  }

  function Ids(songs: seq<PackSong>): (r: seq<nat>)
    ensures |r| == |songs| && forall i :: 0 <= i < |songs| ==> r[i] == songs[i].id
  {
    seq(|songs|, i requires 0 <= i < |songs| => songs[i].id)
  }

  // The selection table at the start: every song unplayed.
  function BuildCells(pack: Pack): (r: seq<Cell>)
    ensures |r| == |Shelves(pack)|
    ensures forall c :: 0 <= c < |r| ==>
              r[c] == Cell(Shelves(pack)[c].languageIndex, Shelves(pack)[c].language, Shelves(pack)[c].bucket,
                           Ids(Shelves(pack)[c].songs), 0)
  {
    var shelves := Shelves(pack);
    seq(|shelves|, c requires 0 <= c < |shelves| =>
      Cell(shelves[c].languageIndex, shelves[c].language, shelves[c].bucket, Ids(shelves[c].songs), 0))
  }

  // ---------------------------------------------------------------------
  // Finding participants
  // ---------------------------------------------------------------------

  function AtSeat(ps: seq<Participant>, seat: int): (r: Option<nat>)
    ensures r.Some? ==> r.value < |ps| && ps[r.value].seat == seat
    ensures r.None? ==> forall i :: 0 <= i < |ps| ==> ps[i].seat != seat
  {
    if ps == [] then None
    else if ps[0].seat == seat then Some(0)
    else match AtSeat(ps[1..], seat) case None => None case Some(i) => Some(i + 1)
  }

  function OfUser(ps: seq<Participant>, user: nat): (r: Option<nat>)
    ensures r.Some? ==> r.value < |ps| && ps[r.value].user == user
    ensures r.None? ==> forall i :: 0 <= i < |ps| ==> ps[i].user != user
  {
    if ps == [] then None
    else if ps[0].user == user then Some(0)
    else match OfUser(ps[1..], user) case None => None case Some(i) => Some(i + 1)
  }

  predicate IsCaptainOf(p: Participant, team: Team) {
    p.team == team && p.captain
  }

  function CaptainOf(ps: seq<Participant>, team: Team): (r: Option<nat>)
    ensures r.Some? ==> r.value < |ps| && IsCaptainOf(ps[r.value], team) && team != NoTeam
    ensures r.None? && team != NoTeam ==> forall i :: 0 <= i < |ps| ==> !IsCaptainOf(ps[i], team)
  {
    if ps == [] || team == NoTeam then None
    else if IsCaptainOf(ps[0], team) then Some(0)
    else match CaptainOf(ps[1..], team) case None => None case Some(i) => Some(i + 1)
  }

  function JudgeOf(ps: seq<Participant>): (r: Option<nat>)
    ensures r.Some? ==> r.value < |ps| && ps[r.value].judge
    ensures r.None? ==> forall i :: 0 <= i < |ps| ==> !ps[i].judge
  {
    if ps == [] then None
    else if ps[0].judge then Some(0)
    else match JudgeOf(ps[1..]) case None => None case Some(i) => Some(i + 1)
  }

  predicate PlaysFor(p: Participant, team: Team) {
    p.active && p.team == team
  }

  // The first active member of a team.
  function FirstOf(ps: seq<Participant>, team: Team): (r: Option<nat>)
    ensures r.Some? ==> r.value < |ps| && PlaysFor(ps[r.value], team)
    ensures r.Some? ==> forall i :: 0 <= i < r.value ==> !PlaysFor(ps[i], team)
    ensures r.None? ==> forall i :: 0 <= i < |ps| ==> !PlaysFor(ps[i], team)
  {
    if ps == [] then None
    else if PlaysFor(ps[0], team) then Some(0)
    else
      assert forall i :: 0 < i < |ps| ==> ps[i] == ps[1..][i - 1];
      match FirstOf(ps[1..], team) case None => None case Some(i) => Some(i + 1)
  }

  function FirstActive(ps: seq<Participant>): (r: Option<nat>)
    ensures r.Some? ==> r.value < |ps| && ps[r.value].active
    ensures r.Some? ==> forall i :: 0 <= i < r.value ==> !ps[i].active
    ensures r.None? ==> forall i :: 0 <= i < |ps| ==> !ps[i].active
  {
    if ps == [] then None
    else if ps[0].active then Some(0)
    else
      assert forall i :: 0 < i < |ps| ==> ps[i] == ps[1..][i - 1];
      match FirstActive(ps[1..]) case None => None case Some(i) => Some(i + 1)
  }

  function ActiveFlags(ps: seq<Participant>): (xs: seq<int>)
    ensures |xs| == |ps| && forall i :: 0 <= i < |ps| ==> xs[i] == Indicator(ps[i].active)
  {
    seq(|ps|, i requires 0 <= i < |ps| => Indicator(ps[i].active))
  }

  function MemberFlags(ps: seq<Participant>, team: Team): (xs: seq<int>)
    ensures |xs| == |ps| && forall i :: 0 <= i < |ps| ==> xs[i] == Indicator(PlaysFor(ps[i], team))
  {
    seq(|ps|, i requires 0 <= i < |ps| => Indicator(PlaysFor(ps[i], team)))
  }

  function CaptainFlags(ps: seq<Participant>, team: Team): (xs: seq<int>)
    ensures |xs| == |ps| && forall i :: 0 <= i < |ps| ==> xs[i] == Indicator(ps[i].active && IsCaptainOf(ps[i], team))
  {
    seq(|ps|, i requires 0 <= i < |ps| => Indicator(ps[i].active && IsCaptainOf(ps[i], team)))
  }

  function ActiveCount(ps: seq<Participant>): int { Sum(ActiveFlags(ps)) }
  function MemberCount(ps: seq<Participant>, team: Team): int { Sum(MemberFlags(ps, team)) }
  function CaptainCount(ps: seq<Participant>, team: Team): int { Sum(CaptainFlags(ps, team)) }

  function Opponent(team: Team): Team {
    match team case NoTeam => NoTeam case TeamA => TeamB case TeamB => TeamA
  }

  function ParseTeam(s: string): Option<Team> {
    if s == "a" then Some(TeamA) else if s == "b" then Some(TeamB) else if s == "none" then Some(NoTeam) else None
  }

  // ---------------------------------------------------------------------
  // Cells and blocks
  // ---------------------------------------------------------------------

  function CellFor(cells: seq<Cell>, language: string, bucket: int): (r: Option<nat>)
    ensures r.Some? ==> r.value < |cells| && cells[r.value].language == language && cells[r.value].bucket == bucket
    ensures r.None? ==> forall c :: 0 <= c < |cells| ==> cells[c].language != language || cells[c].bucket != bucket
  {
    if cells == [] then None
    else if cells[0].language == language && cells[0].bucket == bucket then Some(0)
    else match CellFor(cells[1..], language, bucket) case None => None case Some(c) => Some(c + 1)
  }

  function PoolSizes(cells: seq<Cell>): (xs: seq<int>)
    ensures |xs| == |cells| && forall c :: 0 <= c < |cells| ==> xs[c] == |cells[c].unplayed|
  {
    seq(|cells|, c requires 0 <= c < |cells| => |cells[c].unplayed|)
  }

  function UnplayedCount(cells: seq<Cell>): int { Sum(PoolSizes(cells)) }

  function MaskFlags(mask: seq<bool>): (xs: seq<int>)
    ensures |xs| == |mask| && forall i :: 0 <= i < |mask| ==> xs[i] == Indicator(mask[i])
  {
    seq(|mask|, i requires 0 <= i < |mask| => Indicator(mask[i]))
  }

  function RevealedCount(mask: seq<bool>): int { Sum(MaskFlags(mask)) }
  function Potential(song: Song): int { |song.blocks| - RevealedCount(song.mask) }
}
