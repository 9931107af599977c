// A new game satisfies the invariant.
module SongStart {
  import opened Wrappers
  import opened Lobby
  import opened SongTable
  import opened SongRules
  import opened SongRoster
  import opened SongLedger
  import opened SongLaws

  lemma SeatedOk(sorted: seq<SeatInit>)
    requires InOrder(sorted) && forall i :: 0 <= i < |sorted| ==> sorted[i].seat >= 0
    ensures RosterOk(Seated(sorted))
  {
    var ps := Seated(sorted);
    forall i | 0 <= i < |ps|
      ensures MemberOk(ps[i])
    {
    }
    forall i, j | 0 <= i < j < |ps|
      ensures Apart(ps[i], ps[j])
    {
      assert sorted[i].seat < sorted[j].seat;
    }
  }

  ghost predicate AllActive(ps: seq<Participant>) {
    forall i :: 0 <= i < |ps| ==> ps[i].active
  }

  lemma CaptainsOk(ps: seq<Participant>)
    requires RosterOk(ps) && AllActive(ps) && forall i :: 0 <= i < |ps| ==> !ps[i].captain
    ensures RosterOk(Promoted(Promoted(ps, TeamA), TeamB)) && AllActive(Promoted(Promoted(ps, TeamA), TeamB))
  {
    PromotedKeeps(ps, TeamA);
    PromotedKeeps(Promoted(ps, TeamA), TeamB);
  }

  lemma DefaultRosterOk(seats: seq<SeatInit>)
    requires DistinctSeats(seats)
    ensures RosterOk(DefaultRoster(seats)) && AllActive(DefaultRoster(seats))
  {
    var sorted := SortSeats(seats);
    SortedSeats(seats);
    forall i | 0 <= i < |sorted|
      ensures sorted[i].seat >= 0
    {
      assert sorted[i] in seats;
    }
    SeatedOk(sorted);
    CaptainsOk(Seated(sorted));
    var ps := Promoted(Promoted(Seated(sorted), TeamA), TeamB);
    if AtSeat(ps, 0).Some? {
      ReassignedKeeps(ps, AtSeat(ps, 0).value);
    }
  }

  lemma InitKeeps(pack: Pack, seats: seq<SeatInit>, gs: Game)
    requires ValidPack(pack) && DistinctSeats(seats) && InitState(pack, seats) == Ok(gs)
    ensures Inv(pack, gs)
  {
    DefaultRosterOk(seats);
    FreshCellsOk(pack);
  }

  // ---------------------------------------------------------------------
  // Who plays what in a new game
  // ---------------------------------------------------------------------

  // Seat 0 judges; the other even seats play for team A and the odd ones for
  // team B, each led by its lowest seat.
  ghost predicate DefaultRole(ps: seq<Participant>, i: nat)
    requires i < |ps|
  {
    && (ps[i].judge <==> ps[i].seat == 0)
    && ps[i].team == (if ps[i].seat == 0 then NoTeam else if ps[i].seat % 2 != 0 then TeamB else TeamA)
    && (ps[i].captain <==> ps[i].team != NoTeam && forall j :: 0 <= j < |ps| && ps[j].team == ps[i].team ==> ps[i].seat <= ps[j].seat)
  }

  // The same, before there is a judge.
  ghost predicate Led(ps: seq<Participant>, sorted: seq<SeatInit>, i: nat)
    requires i < |ps| == |sorted|
  {
    && ps[i] == Seated(sorted)[i].(captain := ps[i].captain)
    && (ps[i].captain <==> forall j :: 0 <= j < |sorted| && sorted[j].seat % 2 == sorted[i].seat % 2 ==> sorted[i].seat <= sorted[j].seat)
  }

  lemma {:induction false} FirstIsLowest(ps: seq<Participant>, team: Team, i: nat)
    requires RosterOk(ps) && AllActive(ps) && i < |ps| && ps[i].team == team
    ensures FirstOf(ps, team) == Some(i) <==> forall j :: 0 <= j < |ps| && ps[j].team == team ==> ps[i].seat <= ps[j].seat
  {
    var first := FirstOf(ps, team).value;
    assert PlaysFor(ps[i], team);
    if first < i {
      assert Apart(ps[first], ps[i]);
    }
    forall j | i < j < |ps|
      ensures ps[i].seat <= ps[j].seat
    {
      assert Apart(ps[i], ps[j]);
    }
    forall j | 0 <= j < |ps| && ps[j].team == team
      ensures j >= first
    {
      assert PlaysFor(ps[j], team);
    }
  }

  lemma LedByLowest(sorted: seq<SeatInit>, i: nat)
    requires InOrder(sorted) && (forall k :: 0 <= k < |sorted| ==> sorted[k].seat >= 0) && i < |sorted|
    ensures Led(Promoted(Promoted(Seated(sorted), TeamA), TeamB), sorted, i)
  {
    var ps := Seated(sorted);
    SeatedOk(sorted);
    var once := Promoted(ps, TeamA);
    PromotedKeeps(ps, TeamA);
    FirstIsLowest(ps, ps[i].team, i);
    FirstIsLowest(once, ps[i].team, i);
  }

  ghost predicate AllLed(ps: seq<Participant>, sorted: seq<SeatInit>) {
    |ps| == |sorted| && forall i :: 0 <= i < |ps| ==> Led(ps, sorted, i)
  }

  lemma NoSeatZero(ps: seq<Participant>, sorted: seq<SeatInit>, i: nat)
    requires AllLed(ps, sorted) && i < |ps| && forall j :: 0 <= j < |sorted| ==> sorted[j].seat > 0
    ensures DefaultRole(ps, i)
  {
    assert Led(ps, sorted, i);
    forall j | 0 <= j < |ps|
      ensures ps[j].seat == sorted[j].seat && (ps[j].team == ps[i].team <==> sorted[j].seat % 2 == sorted[i].seat % 2)
    {
      assert Led(ps, sorted, j);
    }
  }

  // With seat 0 as the judge, team A is led by its lowest other seat.
  lemma SeatZeroJudges(ps: seq<Participant>, sorted: seq<SeatInit>, i: nat)
    requires AllLed(ps, sorted) && InOrder(sorted) && RosterOk(ps) && AllActive(ps) && i < |ps| && sorted[0].seat == 0
    ensures |Reassigned(ps, 0)| == |ps| && DefaultRole(Reassigned(ps, 0), i)
  {
    var installed, r := Installed(ps, 0), Reassigned(ps, 0);
    SeatZeroMoves(ps, sorted);
    forall j | 0 <= j < |ps|
      ensures r[j].seat == sorted[j].seat && (j > 0 ==> Led(ps, sorted, j)) && r[j].team == installed[j].team
      ensures installed[j].team == if j == 0 then NoTeam else if sorted[j].seat % 2 != 0 then TeamB else TeamA
    {
      assert Led(ps, sorted, j);
    }
    if i > 0 && ps[i].team == TeamA {
      EvenLed(installed, i);
    } else if i > 0 {
      OddLed(ps, sorted, r, i);
    }
  }

  lemma SeatZeroMoves(ps: seq<Participant>, sorted: seq<SeatInit>)
    requires AllLed(ps, sorted) && InOrder(sorted) && RosterOk(ps) && AllActive(ps) && |ps| > 0 && sorted[0].seat == 0
    ensures Reassigned(ps, 0) == Promoted(Installed(ps, 0), TeamA)
    ensures RosterOk(Installed(ps, 0)) && AllActive(Installed(ps, 0)) && CaptainOf(Installed(ps, 0), TeamA).None?
    ensures forall j :: 0 < j < |ps| ==> ps[j].seat > 0 && !ps[j].judge
  {
    forall j | 0 <= j < |ps|
      ensures Led(ps, sorted, j) && (j > 0 ==> ps[j].seat > 0) && !ps[j].judge
    {
      assert Led(ps, sorted, j);
    }
    assert Cleared(ps, 0) == ps;
    InstalledOk(ps, 0);
    forall j | 0 <= j < |ps|
      ensures !IsCaptainOf(Installed(ps, 0)[j], TeamA)
    {
      assert Led(ps, sorted, j) && sorted[0].seat <= sorted[j].seat;
    }
  }

  lemma {:induction false} EvenLed(ps: seq<Participant>, i: nat)
    requires RosterOk(ps) && AllActive(ps) && CaptainOf(ps, TeamA).None? && i < |ps| && ps[i].team == TeamA
    ensures var r := Promoted(ps, TeamA);
            r[i].captain <==> forall j :: 0 <= j < |r| && r[j].team == TeamA ==> r[i].seat <= r[j].seat
  {
    FirstIsLowest(ps, TeamA, i);
    assert !IsCaptainOf(ps[i], TeamA);
    var r := Promoted(ps, TeamA);
    assert forall j :: 0 <= j < |ps| ==> r[j].seat == ps[j].seat && r[j].team == ps[j].team;
  }

  lemma OddLed(ps: seq<Participant>, sorted: seq<SeatInit>, r: seq<Participant>, i: nat)
    requires |ps| == |sorted| == |r| && i < |ps| && Led(ps, sorted, i) && sorted[i].seat % 2 != 0 && r[i].captain == ps[i].captain
    requires forall j :: 0 <= j < |r| ==> r[j].seat == sorted[j].seat && (r[j].team == TeamB <==> sorted[j].seat % 2 != 0)
    ensures r[i].captain <==> forall j :: 0 <= j < |r| && r[j].team == TeamB ==> r[i].seat <= r[j].seat
  {
  }

  lemma {:induction false} NewRoles(seats: seq<SeatInit>, i: nat)
    requires DistinctSeats(seats) && i < |DefaultRoster(seats)|
    ensures |DefaultRoster(seats)| == |SortSeats(seats)|
    ensures DefaultRoster(seats)[i].seat == SortSeats(seats)[i].seat && DefaultRoster(seats)[i].user == SortSeats(seats)[i].user
    ensures DefaultRole(DefaultRoster(seats), i)
  {
    var sorted := SortSeats(seats);
    SortedSeats(seats);
    forall k | 0 <= k < |sorted|
      ensures sorted[k].seat >= 0
    {
      assert sorted[k] in seats;
    }
    var ps := Promoted(Promoted(Seated(sorted), TeamA), TeamB);
    SeatedOk(sorted);
    CaptainsOk(Seated(sorted));
    forall k | 0 <= k < |ps|
      ensures Led(ps, sorted, k)
    {
      LedByLowest(sorted, k);
    }
    var at := AtSeat(ps, 0);
    if at.Some? {
      assert Led(ps, sorted, at.value) && at.value == 0;
      SeatZeroJudges(ps, sorted, i);
      ReassignedKeeps(ps, 0);
    } else {
      NoneAtZero(ps, sorted);
      NoSeatZero(ps, sorted, i);
    }
    assert Led(ps, sorted, i);
  }

  lemma {:induction false} NoneAtZero(ps: seq<Participant>, sorted: seq<SeatInit>)
    requires AllLed(ps, sorted) && AtSeat(ps, 0).None? && forall k :: 0 <= k < |sorted| ==> sorted[k].seat >= 0
    ensures forall j :: 0 <= j < |sorted| ==> sorted[j].seat > 0
  {
    forall j | 0 <= j < |sorted|
      ensures sorted[j].seat > 0
    {
      assert Led(ps, sorted, j);
    }
  }
}
