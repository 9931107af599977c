// The final scores: routes, stations, trails, tickets, and ranks.
module TtrScoring {
  import opened Wrappers
  import opened TtrBoard
  import opened TtrUnionFind
  import opened TtrTrail
  import opened TtrStations
  import opened TtrGame
  import opened TtrLedger
  import opened TtrRanking
  import Sorting

  const UNBUILT_STATION_POINTS := 4
  const LONGEST_PATH_BONUS := 10

  datatype Breakdown = Breakdown(
    seat: int, routePoints: int, completedPoints: int, missedPoints: int, stationBonus: int, longestBonus: int,
    longestLength: int, completed: seq<TicketId>, missed: seq<TicketId>, borrowed: map<City, RouteId>,
    total: int, rank: int, shared: bool)

  // ---------------------------------------------------------------------
  // Ranks
  // ---------------------------------------------------------------------

  ghost predicate Placed(s: seq<Rankable>, n: nat) {
    DistinctPlaces(s) && forall k :: 0 <= k < |s| ==> s[k].idx < n
  }

  ghost predicate Unplaced(s: seq<Rankable>, j: nat) {
    forall k :: 0 <= k < |s| ==> s[k].idx != j
  }

  // Competition ranking over sorted entries: a tie takes the rank before it.
  method RankAll(results: array<Breakdown>, sorted: seq<Rankable>)
    requires Placed(sorted, results.Length) && InRankOrder(sorted)
    modifies results
    ensures forall k :: 0 <= k < |sorted| ==> results[sorted[k].idx] == old(results[sorted[k].idx]).(rank := 1 + Ahead(sorted, sorted[k]))
    ensures forall j :: 0 <= j < results.Length && Unplaced(sorted, j) ==> results[j] == old(results[j])
  {
    for i := 0 to |sorted|
      invariant forall k :: 0 <= k < i ==> results[sorted[k].idx] == old(results[sorted[k].idx]).(rank := 1 + Ahead(sorted, sorted[k]))
      invariant forall k :: i <= k < |sorted| ==> results[sorted[k].idx] == old(results[sorted[k].idx])
      invariant forall j :: 0 <= j < results.Length && Unplaced(sorted, j) ==> results[j] == old(results[j])
    {
      var x := sorted[i];
      var rank := i + 1;
      if i > 0 && RankTie(sorted[i - 1], x) {
        rank := results[sorted[i - 1].idx].rank;
      }
      RankHere(sorted, i);
      results[x.idx] := results[x.idx].(rank := rank);
    }
  }

  lemma {:induction false} RankHere(sorted: seq<Rankable>, i: nat)
    requires InRankOrder(sorted) && i < |sorted|
    ensures Ahead(sorted, sorted[i]) == if i > 0 && RankTie(sorted[i - 1], sorted[i]) then Ahead(sorted, sorted[i - 1]) else i
  {
    if i > 0 && RankTie(sorted[i - 1], sorted[i]) {
      TiedAhead(sorted, sorted[i - 1], sorted[i]);
    } else {
      PositionIsRank(sorted, i);
    }
  }

  // Everybody in first place.
  method FirstPlaces(results: array<Breakdown>, sorted: seq<Rankable>) returns (firsts: seq<nat>)
    requires Placed(sorted, results.Length)
    requires forall k :: 0 <= k < |sorted| ==> results[sorted[k].idx].rank == 1 + Ahead(sorted, sorted[k])
    ensures firsts == FirstIndices(sorted, sorted) && |firsts| == Firsts(sorted, sorted)
  {
    firsts := [];
    for i := 0 to |sorted|
      invariant firsts == FirstIndices(sorted[..i], sorted) && |firsts| == Firsts(sorted[..i], sorted)
    {
      assert sorted[..i + 1] == sorted[..i] + [sorted[i]];
      FirstsConcat(sorted[..i], [sorted[i]], sorted);
      if results[sorted[i].idx].rank == 1 {
        firsts := firsts + [sorted[i].idx];
      }
    }
    assert sorted[..|sorted|] == sorted;
  }

  function FirstIndices(s: seq<Rankable>, field: seq<Rankable>): seq<nat> {
    if s == [] then []
    else
      var n := |s| - 1;
      FirstIndices(s[..n], field) + if Ahead(field, s[n]) == 0 then [s[n].idx] else []
  }

  lemma {:induction false} FirstListed(s: seq<Rankable>, field: seq<Rankable>, j: nat)
    ensures j in FirstIndices(s, field) <==> exists k :: 0 <= k < |s| && s[k].idx == j && Ahead(field, s[k]) == 0
  {
    if s != [] {
      var n := |s| - 1;
      FirstListed(s[..n], field, j);
      assert forall k :: 0 <= k < n ==> s[..n][k] == s[k];
    }
  }

  method ShareVictory(results: array<Breakdown>, firsts: seq<nat>)
    requires forall j :: j in firsts ==> j < results.Length
    modifies results
    ensures forall j :: 0 <= j < results.Length ==> results[j] == if j in firsts then old(results[j]).(shared := true) else old(results[j])
  {
    for i := 0 to |firsts|
      invariant forall j :: 0 <= j < results.Length ==>
                  results[j] == if j in firsts[..i] then old(results[j]).(shared := true) else old(results[j])
    {
      assert firsts[..i + 1] == firsts[..i] + [firsts[i]];
      assert firsts[i] in firsts;
      results[firsts[i]] := results[firsts[i]].(shared := true);
    }
    assert firsts[..|firsts|] == firsts;
  }

  method AssignSorted(results: array<Breakdown>, sorted: seq<Rankable>)
    requires Placed(sorted, results.Length) && InRankOrder(sorted)
    requires forall j :: 0 <= j < results.Length ==> !results[j].shared
    modifies results
    ensures forall k :: 0 <= k < |sorted| ==>
              results[sorted[k].idx] ==
              old(results[sorted[k].idx]).(rank := 1 + Ahead(sorted, sorted[k]), shared := SharesFirst(sorted, sorted[k]))
    ensures forall j :: 0 <= j < results.Length && Unplaced(sorted, j) ==> results[j] == old(results[j])
  {
    RankAll(results, sorted);
    var firsts := FirstPlaces(results, sorted);
    forall j: nat
      ensures j in firsts <==> exists k :: 0 <= k < |sorted| && sorted[k].idx == j && Ahead(sorted, sorted[k]) == 0
    {
      FirstListed(sorted, sorted, j);
    }
    if |firsts| > 1 {
      ShareVictory(results, firsts);
    }
  }

  // A rank counts who is strictly ahead; a victory is shared exactly when two
  // or more are first.
  method AssignRanks(results: array<Breakdown>, ranked: seq<Rankable>)
    requires Placed(ranked, results.Length)
    requires forall j :: 0 <= j < results.Length ==> !results[j].shared
    modifies results
    ensures forall k :: 0 <= k < |ranked| ==>
              results[ranked[k].idx] ==
              old(results[ranked[k].idx]).(rank := 1 + Ahead(ranked, ranked[k]), shared := SharesFirst(ranked, ranked[k]))
    ensures forall j :: 0 <= j < results.Length && Unplaced(ranked, j) ==> results[j] == old(results[j])
  {
    var sorted := Sort(ranked);
    SortPlaced(ranked, results.Length);
    AssignSorted(results, sorted);
    forall j | 0 <= j < results.Length && Unplaced(ranked, j)
      ensures Unplaced(sorted, j)
    {
      SortMisses(ranked, j);
    }
    forall k | 0 <= k < |ranked|
      ensures results[ranked[k].idx] ==
              old(results[ranked[k].idx]).(rank := 1 + Ahead(ranked, ranked[k]), shared := SharesFirst(ranked, ranked[k]))
    {
      var l := SortFinds(ranked, k);
    }
  }

  lemma {:induction false} SortPlaced(s: seq<Rankable>, n: nat)
    requires Placed(s, n)
    ensures Placed(Sort(s), n) && InRankOrder(Sort(s))
  {
    SortDistinct(s);
    SortKeeps(s, Rankable(0, 0, 0, 0, false));
    var sorted := Sort(s);
    forall k | 0 <= k < |sorted|
      ensures sorted[k].idx < n
    {
      assert sorted[k] in sorted;
      SortKeeps(s, sorted[k]);
    }
  }

  lemma {:induction false} SortMisses(s: seq<Rankable>, j: nat)
    requires Unplaced(s, j)
    ensures Unplaced(Sort(s), j)
  {
    var sorted := Sort(s);
    forall k | 0 <= k < |sorted|
      ensures sorted[k].idx != j
    {
      assert sorted[k] in sorted;
      SortKeeps(s, sorted[k]);
    }
  }

  // Where an entry went, and that its standing does not depend on the order.
  lemma SortFinds(s: seq<Rankable>, k: nat) returns (l: nat)
    requires k < |s|
    ensures l < |Sort(s)| && Sort(s)[l] == s[k]
    ensures Ahead(Sort(s), s[k]) == Ahead(s, s[k]) && SharesFirst(Sort(s), s[k]) == SharesFirst(s, s[k])
  {
    SortKeeps(s, s[k]);
    SortFirsts(s, s);
    assert s[k] in Sort(s);
    l :| 0 <= l < |Sort(s)| && Sort(s)[l] == s[k];
  }

  // ---------------------------------------------------------------------
  // One player's score
  // ---------------------------------------------------------------------

  ghost predicate AllKnown(m: Board, ids: seq<RouteId>) {
    forall k :: 0 <= k < |ids| ==> ids[k] in m.routeById
  }

  // The checksum of a player's route score; unknown routes make it fail.
  method SumRoutePoints(m: Board, ids: seq<RouteId>) returns (points: Option<int>)
    requires m.Valid()
    ensures points == if AllKnown(m, ids) then Some(PointsOf(m, ids)) else None
  {
    var total := 0;
    for k := 0 to |ids|
      invariant total == PointsOf(m, ids[..k]) && forall j :: 0 <= j < k ==> ids[j] in m.routeById
    {
      if ids[k] !in m.routeById {
        return None;
      }
      assert m.ValidRoute(ids[k], m.routeById[ids[k]]);
      assert ids[..k + 1][..k] == ids[..k];
      total := total + PointsForLength(m.routeById[ids[k]].length).value;
    }
    assert ids[..|ids|] == ids;
    return Some(total);
  }

  function TicketPoints(m: Board, ids: seq<TicketId>): int {
    if ids == [] then 0
    else
      var n := |ids| - 1;
      TicketPoints(m, ids[..n]) + if ids[n] in m.ticketById then m.ticketById[ids[n]].points else 0
  }

  method SumTicketPoints(m: Board, ids: seq<TicketId>) returns (total: int)
    ensures total == TicketPoints(m, ids)
  {
    total := 0;
    for k := 0 to |ids|
      invariant total == TicketPoints(m, ids[..k])
    {
      assert ids[..k + 1][..k] == ids[..k];
      if ids[k] in m.ticketById {
        total := total + m.ticketById[ids[k]].points;
      }
    }
    assert ids[..|ids|] == ids;
  }

  // The two halves of the split are worth the net score together.
  lemma {:induction false} SplitIsNet(m: Board, links: Links, ids: seq<TicketId>)
    ensures TicketPoints(m, Sorted(m, links, ids, true)) - TicketPoints(m, Sorted(m, links, ids, false)) == Net(m, links, ids)
  {
    if ids != [] {
      var n := |ids| - 1;
      SplitIsNet(m, links, ids[..n]);
      var yes, no := Sorted(m, links, ids[..n], true), Sorted(m, links, ids[..n], false);
      assert yes + [] == yes && no + [] == no;
      assert (yes + [ids[n]])[..|yes|] == yes && (no + [ids[n]])[..|no|] == no;
    }
  }

  // The ticket part of a breakdown is that of a best use of the stations.
  ghost predicate BestTickets(m: Board, owner: map<RouteId, int>, p: Player, b: Breakdown) {
    && (exists choice :: IsChoice(m, owner, p.seat, p.stations, choice) &&
          IsOutcome(m, p.claimed, p.tickets, choice, Outcome(b.borrowed, b.completedPoints - b.missedPoints, b.completed, b.missed)))
    && (forall choice :: IsChoice(m, owner, p.seat, p.stations, choice) ==>
          Worth(m, p.claimed, p.tickets, choice) <= b.completedPoints - b.missedPoints)
  }

  ghost predicate ScoreOf(m: Board, owner: map<RouteId, int>, p: Player, length: int, top: int, b: Breakdown) {
    && b.seat == p.seat && b.routePoints == PointsOf(m, p.claimed) && BestTickets(m, owner, p, b)
    && b.stationBonus == p.stationsLeft * 4
    && b.longestLength == length && b.longestBonus == (if top > 0 && length == top then 10 else 0)
    && b.total == b.routePoints + b.completedPoints - b.missedPoints + b.stationBonus + b.longestBonus
  }

  method ScoreTicketsOf(m: Board, owner: map<RouteId, int>, p: Player) returns (o: Outcome, completed: int, missed: int)
    requires m.Valid()
    ensures exists choice :: IsChoice(m, owner, p.seat, p.stations, choice) && IsOutcome(m, p.claimed, p.tickets, choice, o)
    ensures forall choice :: IsChoice(m, owner, p.seat, p.stations, choice) ==> Worth(m, p.claimed, p.tickets, choice) <= o.net
    ensures completed - missed == o.net
  {
    o := BestStationAssignment(m, owner, p.seat, p.claimed, p.stations, p.tickets);
    completed := SumTicketPoints(m, o.completed);
    missed := SumTicketPoints(m, o.missed);
    ghost var choice :| IsChoice(m, owner, p.seat, p.stations, choice) && IsOutcome(m, p.claimed, p.tickets, choice, o);
    SplitIsNet(m, Network(m, p.claimed, choice), Sorting.Sort(p.tickets));
  }

  method BuildBreakdown(m: Board, owner: map<RouteId, int>, p: Player, length: int, top: int) returns (b: Option<Breakdown>)
    requires m.Valid()
    ensures b.Some? <==> AllKnown(m, p.claimed)
    ensures b.Some? ==> ScoreOf(m, owner, p, length, top, b.value) && b.value.rank == 0 && !b.value.shared
  {
    var points := SumRoutePoints(m, p.claimed);
    if points.None? {
      return None;
    }
    var o, completed, missed := ScoreTicketsOf(m, owner, p);
    var bonus := if top > 0 && length == top then LONGEST_PATH_BONUS else 0;
    var stations := p.stationsLeft * UNBUILT_STATION_POINTS;
    b := Some(Breakdown(p.seat, points.value, completed, missed, stations, bonus, length, o.completed, o.missed, o.assignment,
                        points.value + completed - missed + stations + bonus, 0, false));
    assert o == Outcome(o.assignment, completed - missed, o.completed, o.missed);
  }

  // ---------------------------------------------------------------------
  // Everybody's score
  // ---------------------------------------------------------------------

  // The lengths of the active players' longest trails and the longest of all.
  ghost predicate Measured(m: Board, ps: seq<Player>, lengths: seq<int>, top: int) {
    && |lengths| == |ps| && top >= 0
    && (forall i :: 0 <= i < |ps| && !ps[i].resigned ==> IsLongest(OwnEdges(m.routeById, ps[i].claimed), lengths[i]) && lengths[i] <= top)
    && (top > 0 ==> exists i :: 0 <= i < |ps| && !ps[i].resigned && lengths[i] == top)
  }

  method LongestTrails(m: Board, ps: seq<Player>) returns (lengths: seq<int>, top: int)
    ensures Measured(m, ps, lengths, top)
  {
    lengths, top := [], 0;
    for i := 0 to |ps|
      invariant Measured(m, ps[..i], lengths, top)
    {
      var length := 0;
      if !ps[i].resigned {
        length := LongestTrail(m.routeById, ps[i].claimed);
      }
      ghost var before := top;
      if !ps[i].resigned && length > top {
        top := length;
      }
      MeasuredOneMore(m, ps[..i + 1], lengths, before, length);
      assert ps[..i + 1][..i] == ps[..i];
      lengths := lengths + [length];
    }
    assert ps[..|ps|] == ps;
  }

  lemma MeasuredOneMore(m: Board, ps: seq<Player>, lengths: seq<int>, top: int, length: int)
    requires ps != [] && Measured(m, ps[..|ps| - 1], lengths, top)
    requires !ps[|ps| - 1].resigned ==> IsLongest(OwnEdges(m.routeById, ps[|ps| - 1].claimed), length)
    ensures Measured(m, ps, lengths + [length], if !ps[|ps| - 1].resigned && length > top then length else top)
  {
    var n := |ps| - 1;
    var next := if !ps[n].resigned && length > top then length else top;
    assert forall i :: 0 <= i < n ==> ps[..n][i] == ps[i];
    if next > 0 {
      if next == top {
        var i :| 0 <= i < n && !ps[..n][i].resigned && lengths[i] == top;
        assert (lengths + [length])[i] == next;
      } else {
        assert (lengths + [length])[n] == next;
      }
    }
  }

  // What the tie-breaks look at.
  function RankableFor(idx: nat, b: Breakdown, p: Player): Rankable {
    Rankable(idx, b.total, |b.completed|, |p.stations|, b.longestBonus > 0)
  }

  // The active players in the standings.
  function Field(ps: seq<Player>, results: seq<Breakdown>): seq<Rankable>
    requires |ps| == |results|
  {
    if ps == [] then []
    else
      var n := |ps| - 1;
      Field(ps[..n], results[..n]) + if ps[n].resigned then [] else [RankableFor(n, results[n], ps[n])]
  }

  // A resigned player scores nothing and ranks last.
  function Zeroed(p: Player, n: nat): Breakdown {
    Breakdown(p.seat, 0, 0, 0, 0, 0, 0, [], [], map[], 0, n, false)
  }

  ghost predicate EveryoneKnown(m: Board, ps: seq<Player>) {
    forall i :: 0 <= i < |ps| && !ps[i].resigned ==> AllKnown(m, ps[i].claimed)
  }

  ghost predicate RawScore(m: Board, gs: Game, lengths: seq<int>, top: int, i: nat, b: Breakdown)
    requires i < |gs.players| == |lengths|
  {
    var p := gs.players[i];
    if p.resigned then b == Zeroed(p, |gs.players|) else ScoreOf(m, gs.routeOwner, p, lengths[i], top, b) && !b.shared
  }

  // The score of a player in the final results, and his standing among all.
  ghost predicate FinalScoreOf(m: Board, gs: Game, lengths: seq<int>, top: int, i: nat, results: seq<Breakdown>)
    requires i < |gs.players| == |lengths| == |results|
  {
    var p, b := gs.players[i], results[i];
    if p.resigned then b == Zeroed(p, |gs.players|)
    else
      && ScoreOf(m, gs.routeOwner, p, lengths[i], top, b)
      && b.rank == 1 + Ahead(Field(gs.players, results), RankableFor(i, b, p))
      && b.shared == SharesFirst(Field(gs.players, results), RankableFor(i, b, p))
  }

  ghost predicate FinalScores(m: Board, gs: Game, results: seq<Breakdown>) {
    && |results| == |gs.players|
    && exists lengths, top :: Measured(m, gs.players, lengths, top) &&
         forall i :: 0 <= i < |gs.players| ==> FinalScoreOf(m, gs, lengths, top, i, results)
  }

  lemma {:induction false} FieldPlaced(ps: seq<Player>, results: seq<Breakdown>)
    requires |ps| == |results|
    ensures Placed(Field(ps, results), |ps|)
    ensures forall k {:trigger Field(ps, results)[k]} :: 0 <= k < |Field(ps, results)| ==> FieldEntry(ps, results, Field(ps, results)[k])
  {
    if ps != [] {
      var n := |ps| - 1;
      FieldPlaced(ps[..n], results[..n]);
      forall k {:trigger Field(ps, results)[k]} | 0 <= k < |Field(ps, results)|
        ensures FieldEntry(ps, results, Field(ps, results)[k])
      {
        assert k < |Field(ps[..n], results[..n])| ==> FieldEntry(ps[..n], results[..n], Field(ps[..n], results[..n])[k]);
      }
    }
  }

  ghost predicate FieldEntry(ps: seq<Player>, results: seq<Breakdown>, x: Rankable)
    requires |ps| == |results|
  {
    x.idx < |ps| && !ps[x.idx].resigned && x == RankableFor(x.idx, results[x.idx], ps[x.idx])
  }

  lemma {:induction false} FieldFinds(ps: seq<Player>, results: seq<Breakdown>, i: nat) returns (k: nat)
    requires i < |ps| == |results| && !ps[i].resigned
    ensures k < |Field(ps, results)| && Field(ps, results)[k] == RankableFor(i, results[i], ps[i])
  {
    var n := |ps| - 1;
    if i == n {
      k := |Field(ps, results)| - 1;
    } else {
      k := FieldFinds(ps[..n], results[..n], i);
    }
  }

  // Ranks and shared victories are not among the tie-breaks.
  lemma {:induction false} FieldIgnoresRanks(ps: seq<Player>, a: seq<Breakdown>, b: seq<Breakdown>)
    requires |ps| == |a| == |b| && forall i :: 0 <= i < |a| ==> b[i] == a[i].(rank := b[i].rank, shared := b[i].shared)
    ensures Field(ps, a) == Field(ps, b)
  {
    if ps != [] {
      var n := |ps| - 1;
      FieldIgnoresRanks(ps[..n], a[..n], b[..n]);
    }
  }

  // The ranks of the field are written in, and nothing else changes.
  ghost predicate Written(field: seq<Rankable>, raw: seq<Breakdown>, results: seq<Breakdown>) {
    && |results| == |raw| && Placed(field, |raw|)
    && (forall k :: 0 <= k < |field| ==> InStanding(field, field[k], raw[field[k].idx], results[field[k].idx]))
    && (forall j :: 0 <= j < |raw| && Unplaced(field, j) ==> results[j] == raw[j])
  }

  ghost predicate InStanding(field: seq<Rankable>, x: Rankable, before: Breakdown, after: Breakdown) {
    after == before.(rank := 1 + Ahead(field, x), shared := SharesFirst(field, x))
  }

  lemma {:induction false} WrittenFor(ps: seq<Player>, raw: seq<Breakdown>, results: seq<Breakdown>, i: nat)
    requires i < |ps| == |raw| && Written(Field(ps, raw), raw, results)
    ensures if ps[i].resigned then results[i] == raw[i]
            else InStanding(Field(ps, raw), RankableFor(i, raw[i], ps[i]), raw[i], results[i])
  {
    if ps[i].resigned {
      ResignedUnplaced(ps, raw, i);
    } else {
      var k := FieldFinds(ps, raw, i);
      assert Field(ps, raw)[k].idx == i;
    }
  }

  lemma {:induction false} WrittenField(ps: seq<Player>, raw: seq<Breakdown>, results: seq<Breakdown>)
    requires |ps| == |raw| && Written(Field(ps, raw), raw, results)
    ensures Field(ps, results) == Field(ps, raw)
  {
    forall i | 0 <= i < |raw|
      ensures results[i] == raw[i].(rank := results[i].rank, shared := results[i].shared)
    {
      WrittenFor(ps, raw, results, i);
    }
    FieldIgnoresRanks(ps, raw, results);
  }

  // Writing the ranks in completes the raw scores.
  lemma {:induction false} RankedScore(m: Board, gs: Game, lengths: seq<int>, top: int, raw: seq<Breakdown>, results: seq<Breakdown>, i: nat)
    requires i < |gs.players| == |raw| == |lengths| && RawScore(m, gs, lengths, top, i, raw[i])
    requires Written(Field(gs.players, raw), raw, results)
    ensures FinalScoreOf(m, gs, lengths, top, i, results)
  {
    WrittenFor(gs.players, raw, results, i);
    WrittenField(gs.players, raw, results);
    if !gs.players[i].resigned {
      SameScore(m, gs.routeOwner, gs.players[i], lengths[i], top, raw[i], results[i]);
    }
  }

  lemma SameScore(m: Board, owner: map<RouteId, int>, p: Player, length: int, top: int, a: Breakdown, b: Breakdown)
    requires ScoreOf(m, owner, p, length, top, a) && b == a.(rank := b.rank, shared := b.shared)
    ensures ScoreOf(m, owner, p, length, top, b)
  {
  }

  lemma {:induction false} ResignedUnplaced(ps: seq<Player>, results: seq<Breakdown>, i: nat)
    requires i < |ps| == |results| && ps[i].resigned
    ensures Unplaced(Field(ps, results), i)
  {
    FieldPlaced(ps, results);
    forall k | 0 <= k < |Field(ps, results)|
      ensures Field(ps, results)[k].idx != i
    {
      assert FieldEntry(ps, results, Field(ps, results)[k]);
    }
  }

  // A player's breakdown before the ranks are known.
  method RawScoreOf(m: Board, gs: Game, i: nat, lengths: seq<int>, top: int) returns (b: Option<Breakdown>)
    requires m.Valid() && i < |gs.players| == |lengths|
    ensures b.Some? <==> gs.players[i].resigned || AllKnown(m, gs.players[i].claimed)
    ensures b.Some? ==> RawScore(m, gs, lengths, top, i, b.value) && !b.value.shared
  {
    var p := gs.players[i];
    if p.resigned {
      return Some(Zeroed(p, |gs.players|));
    }
    b := BuildBreakdown(m, gs.routeOwner, p, lengths[i], top);
  }

  method RawScores(m: Board, gs: Game, lengths: seq<int>, top: int) returns (raw: seq<Breakdown>, ranked: seq<Rankable>, ok: bool)
    requires m.Valid() && |lengths| == |gs.players|
    ensures ok <==> EveryoneKnown(m, gs.players)
    ensures ok ==> |raw| == |gs.players| && ranked == Field(gs.players, raw) && AllRaw(m, gs, lengths, top, raw)
  {
    var ps := gs.players;
    raw, ranked := [], [];
    for i := 0 to |ps|
      invariant |raw| == i && ranked == Field(ps[..i], raw) && AllRaw(m, gs, lengths, top, raw)
      invariant forall k :: 0 <= k < i && !ps[k].resigned ==> AllKnown(m, ps[k].claimed)
    {
      var b := RawScoreOf(m, gs, i, lengths, top);
      if b.None? {
        return raw, ranked, false;
      }
      FieldOneMore(ps, raw, b.value);
      RawOneMore(m, gs, lengths, top, raw, b.value);
      raw := raw + [b.value];
      if !ps[i].resigned {
        ranked := ranked + [RankableFor(i, b.value, ps[i])];
      }
    }
    assert ps[..|ps|] == ps;
    ok := true;
  }

  ghost predicate AllRaw(m: Board, gs: Game, lengths: seq<int>, top: int, raw: seq<Breakdown>)
    requires |raw| <= |gs.players| == |lengths|
  {
    forall k :: 0 <= k < |raw| ==> RawScore(m, gs, lengths, top, k, raw[k]) && !raw[k].shared
  }

  lemma RawOneMore(m: Board, gs: Game, lengths: seq<int>, top: int, raw: seq<Breakdown>, b: Breakdown)
    requires |raw| < |gs.players| == |lengths| && AllRaw(m, gs, lengths, top, raw)
    requires RawScore(m, gs, lengths, top, |raw|, b) && !b.shared
    ensures AllRaw(m, gs, lengths, top, raw + [b])
  {
  }

  lemma {:induction false} FieldOneMore(ps: seq<Player>, raw: seq<Breakdown>, b: Breakdown)
    requires |raw| < |ps|
    ensures var n := |raw|;
            Field(ps[..n + 1], raw + [b]) == Field(ps[..n], raw) + if ps[n].resigned then [] else [RankableFor(n, b, ps[n])]
  {
    var n := |raw|;
    assert ps[..n + 1][..n] == ps[..n] && (raw + [b])[..n] == raw;
  }

  // The standings, written into the results in place.
  method RankAmong(ps: seq<Player>, raw: seq<Breakdown>, ranked: seq<Rankable>) returns (r: seq<Breakdown>)
    requires |raw| == |ps| && ranked == Field(ps, raw) && forall k :: 0 <= k < |raw| ==> !raw[k].shared
    ensures Written(Field(ps, raw), raw, r)
  {
    var results := new Breakdown[|raw|](i requires 0 <= i < |raw| => raw[i]);
    assert results[..] == raw;
    FieldPlaced(ps, raw);
    AssignRanks(results, ranked);
    r := results[..];
  }

  lemma {:induction false} RanksComplete(m: Board, gs: Game, lengths: seq<int>, top: int, raw: seq<Breakdown>, results: seq<Breakdown>)
    requires |raw| == |gs.players| && Measured(m, gs.players, lengths, top) && AllRaw(m, gs, lengths, top, raw)
    requires Written(Field(gs.players, raw), raw, results)
    ensures FinalScores(m, gs, results)
  {
    forall i | 0 <= i < |gs.players|
      ensures FinalScoreOf(m, gs, lengths, top, i, results)
    {
      RankedScore(m, gs, lengths, top, raw, results, i);
    }
  }

  method FinalScore(m: Board, gs: Game) returns (r: Option<seq<Breakdown>>)
    requires m.Valid()
    ensures r.Some? <==> EveryoneKnown(m, gs.players)
    ensures r.Some? ==> FinalScores(m, gs, r.value)
  {
    var lengths, top := LongestTrails(m, gs.players);
    var raw, ranked, ok := RawScores(m, gs, lengths, top);
    if !ok {
      return None;
    }
    var results := RankAmong(gs.players, raw, ranked);
    RanksComplete(m, gs, lengths, top, raw, results);
    r := Some(results);
  }

  // In a game whose books are right the scoring cannot fail.
  lemma BooksAreKnown(m: Board, gs: Game)
    requires Ledger(m, gs)
    ensures EveryoneKnown(m, gs.players)
  {
    forall k | 0 <= k < |gs.players|
      ensures AllKnown(m, gs.players[k].claimed)
    {
      assert PlayerLedger(m, gs.players[k]);
    }
  }

  // And the route points agree with the running score of every player still in.
  lemma RoutePointsAgree(m: Board, gs: Game, results: seq<Breakdown>, i: nat)
    requires Ledger(m, gs) && FinalScores(m, gs, results) && i < |gs.players| && !gs.players[i].resigned
    ensures results[i].routePoints == gs.players[i].routeScore
  {
    var lengths, top :| Measured(m, gs.players, lengths, top) &&
      forall k :: 0 <= k < |gs.players| ==> FinalScoreOf(m, gs, lengths, top, k, results);
    assert FinalScoreOf(m, gs, lengths, top, i, results);
    assert PlayerLedger(m, gs.players[i]);
  }

  // More points, or else more completed tickets, or else fewer stations built,
  // or else alone the longest path.
  predicate Beats(a: Breakdown, built: nat, b: Breakdown, built': nat) {
    || a.total > b.total
    || (a.total == b.total && |a.completed| > |b.completed|)
    || (a.total == b.total && |a.completed| == |b.completed| && built < built')
    || (a.total == b.total && |a.completed| == |b.completed| && built == built' && a.longestBonus > 0 && b.longestBonus <= 0)
  }

  // Of two players one ranks before the other exactly when that one beats the
  // other, and they share a rank when neither does.
  lemma FinalOrder(m: Board, gs: Game, results: seq<Breakdown>, i: nat, j: nat)
    requires FinalScores(m, gs, results) && i < |gs.players| && j < |gs.players| && !gs.players[i].resigned && !gs.players[j].resigned
    ensures results[i].rank < results[j].rank <==> Beats(results[i], |gs.players[i].stations|, results[j], |gs.players[j].stations|)
    ensures results[i].rank == results[j].rank <==>
              && !Beats(results[i], |gs.players[i].stations|, results[j], |gs.players[j].stations|)
              && !Beats(results[j], |gs.players[j].stations|, results[i], |gs.players[i].stations|)
  {
    var field := Field(gs.players, results);
    var k := RankInField(m, gs, results, i);
    var l := RankInField(m, gs, results, j);
    RanksFollowOrder(field, field[k], field[l]);
  }

  lemma RankInField(m: Board, gs: Game, results: seq<Breakdown>, i: nat) returns (k: nat)
    requires FinalScores(m, gs, results) && i < |gs.players| && !gs.players[i].resigned
    ensures var field := Field(gs.players, results);
            k < |field| && field[k] == RankableFor(i, results[i], gs.players[i]) && results[i].rank == 1 + Ahead(field, field[k])
  {
    var lengths, top :| Measured(m, gs.players, lengths, top) &&
                        forall i :: 0 <= i < |gs.players| ==> FinalScoreOf(m, gs, lengths, top, i, results);
    assert FinalScoreOf(m, gs, lengths, top, i, results);
    k := FieldFinds(gs.players, results, i);
  }
}
