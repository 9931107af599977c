// What every roster change keeps: one captain for each team, one judge, and
// nobody who left still holds a role.
module SongRoster {
  import opened Wrappers
  import opened Sums
  import opened SongTable
  import opened SongRules

  // ---------------------------------------------------------------------
  // The invariant
  // ---------------------------------------------------------------------

  ghost predicate MemberOk(p: Participant) {
    && p.seat >= 0
    && (p.captain ==> p.team != NoTeam)
    && (p.judge ==> p.team == NoTeam)
    && (!p.active ==> !p.captain && !p.judge)
  }

  // Two participants in seat order.
  ghost predicate Apart(p: Participant, q: Participant) {
    && p.seat < q.seat && p.user != q.user
    && !(p.judge && q.judge)
    && (p.captain && q.captain ==> p.team != q.team)
  }

  ghost predicate RosterOk(ps: seq<Participant>) {
    && (forall i {:trigger MemberOk(ps[i])} :: 0 <= i < |ps| ==> MemberOk(ps[i]))
    && (forall i, j {:trigger Apart(ps[i], ps[j])} :: 0 <= i < j < |ps| ==> Apart(ps[i], ps[j]))
  }

  // A team with somebody left in it has a captain.
  ghost predicate Covered(ps: seq<Participant>, team: Team) {
    FirstOf(ps, team).Some? ==> CaptainOf(ps, team).Some?
  }

  // Whoever sits in the host's seat is still there.
  ghost predicate HostStays(ps: seq<Participant>, hostSeat: int) {
    forall i :: 0 <= i < |ps| && ps[i].seat == hostSeat ==> ps[i].active
  }

  lemma SeatIsUnique(ps: seq<Participant>, i: nat, j: nat)
    requires RosterOk(ps) && i < |ps| && j < |ps| && (ps[i].seat == ps[j].seat || ps[i].user == ps[j].user)
    ensures i == j
  {
    assert i < j ==> Apart(ps[i], ps[j]);
    assert j < i ==> Apart(ps[j], ps[i]);
  }

  lemma {:induction false} UserFound(ps: seq<Participant>, i: nat)
    requires RosterOk(ps) && i < |ps|
    ensures OfUser(ps, ps[i].user) == Some(i) && AtSeat(ps, ps[i].seat) == Some(i)
  {
    SeatIsUnique(ps, i, OfUser(ps, ps[i].user).value);
    SeatIsUnique(ps, i, AtSeat(ps, ps[i].seat).value);
  }

  lemma {:induction false} CaptainFound(ps: seq<Participant>, i: nat)
    requires RosterOk(ps) && i < |ps| && ps[i].captain
    ensures CaptainOf(ps, ps[i].team) == Some(i)
  {
    assert MemberOk(ps[i]);
    var c := CaptainOf(ps, ps[i].team).value;
    assert i < c ==> Apart(ps[i], ps[c]);
    assert c < i ==> Apart(ps[c], ps[i]);
  }

  lemma {:induction false} JudgeFound(ps: seq<Participant>, i: nat)
    requires RosterOk(ps) && i < |ps| && ps[i].judge
    ensures JudgeOf(ps) == Some(i)
  {
    var j := JudgeOf(ps).value;
    assert i < j ==> Apart(ps[i], ps[j]);
    assert j < i ==> Apart(ps[j], ps[i]);
  }

  // ---------------------------------------------------------------------
  // One participant changes
  // ---------------------------------------------------------------------

  ghost predicate SamePerson(p: Participant, q: Participant) {
    q.seat == p.seat && q.user == p.user
  }

  // A change that gives participant i no role that somebody else holds.
  lemma ChangeOk(ps: seq<Participant>, i: nat, p: Participant)
    requires RosterOk(ps) && i < |ps| && SamePerson(ps[i], p) && MemberOk(p)
    requires p.judge ==> ps[i].judge || JudgeOf(ps).None?
    requires p.captain ==> (ps[i].captain && p.team == ps[i].team) || CaptainOf(ps, p.team).None?
    ensures RosterOk(ps[i := p])
  {
    var r := ps[i := p];
    forall k | 0 <= k < |r|
      ensures MemberOk(r[k])
    {
      assert MemberOk(ps[k]);
    }
    forall a, b | 0 <= a < b < |r|
      ensures Apart(r[a], r[b])
    {
      assert Apart(ps[a], ps[b]);
      var other := if a == i then b else a;
      assert p.captain && ps[other].captain && ps[other].team == p.team ==> IsCaptainOf(ps[other], p.team);
    }
  }

  lemma {:induction false} PromotedOk(ps: seq<Participant>, team: Team)
    requires RosterOk(ps) && team != NoTeam && CaptainOf(ps, team).None?
    ensures RosterOk(Promoted(ps, team))
    ensures Covered(Promoted(ps, team), team)
  {
    var f := FirstOf(ps, team);
    if f.Some? {
      var p := ps[f.value].(captain := true);
      assert MemberOk(ps[f.value]);
      ChangeOk(ps, f.value, p);
      CaptainFound(ps[f.value := p], f.value);
    }
  }

  // The captain of a team stays when everybody's part in that team stays.
  lemma {:induction false} CaptainStays(ps: seq<Participant>, r: seq<Participant>, team: Team)
    requires RosterOk(r) && |r| == |ps| && team != NoTeam
    requires forall i :: 0 <= i < |ps| && IsCaptainOf(ps[i], team) ==> IsCaptainOf(r[i], team)
    ensures CaptainOf(ps, team).Some? ==> CaptainOf(r, team) == CaptainOf(ps, team)
  {
    if CaptainOf(ps, team).Some? {
      CaptainFound(r, CaptainOf(ps, team).value);
    }
  }

  lemma CoveredStays(ps: seq<Participant>, r: seq<Participant>, team: Team)
    requires RosterOk(r) && |r| == |ps| && team != NoTeam && Covered(ps, team)
    requires forall i :: 0 <= i < |ps| && IsCaptainOf(ps[i], team) ==> IsCaptainOf(r[i], team)
    requires forall i :: 0 <= i < |ps| && PlaysFor(r[i], team) ==> PlaysFor(ps[i], team)
    ensures Covered(r, team)
  {
    CaptainStays(ps, r, team);
  }

  // ---------------------------------------------------------------------
  // A new judge
  // ---------------------------------------------------------------------

  lemma ClearedOk(ps: seq<Participant>, t: nat)
    requires RosterOk(ps) && t < |ps|
    ensures RosterOk(Cleared(ps, t))
    ensures forall i :: 0 <= i < |ps| ==> Cleared(ps, t)[i] == ps[i].(judge := ps[i].judge && i == t)
  {
    var r := Cleared(ps, t);
    var at := JudgeOf(ps);
    if at.Some? {
      assert MemberOk(ps[at.value]);
      if ps[at.value].seat != ps[t].seat {
        ChangeOk(ps, at.value, ps[at.value].(judge := false));
      } else {
        SeatIsUnique(ps, at.value, t);
      }
    }
    forall i | 0 <= i < |ps|
      ensures r[i] == ps[i].(judge := ps[i].judge && i == t)
    {
      if ps[i].judge { JudgeFound(ps, i); }
    }
  }

  lemma InstalledOk(ps: seq<Participant>, t: nat)
    requires RosterOk(ps) && t < |ps| && ps[t].active && forall i :: 0 <= i < |ps| && ps[i].judge ==> i == t
    ensures RosterOk(Installed(ps, t))
    ensures JudgeOf(Installed(ps, t)) == Some(t)
    ensures forall team :: team != NoTeam && team != ps[t].team && Covered(ps, team) ==> Covered(Installed(ps, t), team)
  {
    assert MemberOk(ps[t]);
    ChangeOk(ps, t, ps[t].(judge := true, team := NoTeam, captain := false));
    JudgeFound(Installed(ps, t), t);
    forall team | team != NoTeam && team != ps[t].team && Covered(ps, team)
      ensures Covered(Installed(ps, t), team)
    {
      CoveredStays(ps, Installed(ps, t), team);
    }
  }

  ghost predicate BothCovered(ps: seq<Participant>) {
    Covered(ps, TeamA) && Covered(ps, TeamB)
  }

  // Only captaincies change.
  ghost predicate SameButCaptains(a: seq<Participant>, b: seq<Participant>) {
    |a| == |b| && forall i :: 0 <= i < |a| ==> b[i] == a[i].(captain := b[i].captain)
  }

  lemma {:induction false} PromotedKeeps(ps: seq<Participant>, team: Team)
    requires RosterOk(ps) && team != NoTeam && CaptainOf(ps, team).None?
    ensures RosterOk(Promoted(ps, team)) && SameButCaptains(ps, Promoted(ps, team))
    ensures Covered(Promoted(ps, team), team)
    ensures forall other :: other != NoTeam && other != team && Covered(ps, other) ==> Covered(Promoted(ps, team), other)
    ensures JudgeOf(ps).Some? ==> JudgeOf(Promoted(ps, team)) == JudgeOf(ps)
    ensures JudgeOf(ps).None? ==> JudgeOf(Promoted(ps, team)).None?
  {
    PromotedOk(ps, team);
    var r := Promoted(ps, team);
    forall other | other != NoTeam && other != team && Covered(ps, other)
      ensures Covered(r, other)
    {
      CoveredStays(ps, r, other);
    }
    if JudgeOf(ps).Some? { JudgeFound(r, JudgeOf(ps).value); }
  }

  // Nobody but t changes seat, activity or judgeship for the worse.
  ghost predicate SamePeople(a: seq<Participant>, b: seq<Participant>) {
    |a| == |b| && forall i :: 0 <= i < |a| ==> SamePerson(a[i], b[i])
  }

  lemma ReassignedKeeps(ps: seq<Participant>, t: nat)
    requires RosterOk(ps) && t < |ps| && ps[t].active
    ensures RosterOk(Reassigned(ps, t)) && JudgeOf(Reassigned(ps, t)) == Some(t)
    ensures BothCovered(ps) ==> BothCovered(Reassigned(ps, t))
    ensures SamePeople(ps, Reassigned(ps, t))
    ensures forall i :: 0 <= i < |ps| ==> Reassigned(ps, t)[i].active == ps[i].active
  {
    var cleared := Cleared(ps, t);
    ClearedOk(ps, t);
    if BothCovered(ps) {
      CoveredStays(ps, cleared, TeamA);
      CoveredStays(ps, cleared, TeamB);
    }
    InstalledOk(cleared, t);
    var team := cleared[t].team;
    var installed := Installed(cleared, t);
    if team != NoTeam && CaptainOf(installed, team).None? {
      PromotedKeeps(installed, team);
    }
  }

  // ---------------------------------------------------------------------
  // Leaving
  // ---------------------------------------------------------------------

  lemma GoneOk(ps: seq<Participant>, i: nat)
    requires RosterOk(ps) && i < |ps| && ps[i].active
    ensures RosterOk(Gone(ps, i)) && ActiveCount(Gone(ps, i)) == ActiveCount(ps) - 1
    ensures ps[i].captain ==> CaptainOf(Gone(ps, i), ps[i].team).None?
    ensures forall team :: team != NoTeam && Covered(ps, team) && !IsCaptainOf(ps[i], team) ==> Covered(Gone(ps, i), team)
  {
    assert MemberOk(ps[i]);
    var r := Gone(ps, i);
    ChangeOk(ps, i, r[i]);
    SumUpdate(ActiveFlags(ps), i, 0);
    assert ActiveFlags(r) == ActiveFlags(ps)[i := 0];
    if ps[i].captain {
      forall k | 0 <= k < |r|
        ensures !IsCaptainOf(r[k], ps[i].team)
      {
        assert k < i ==> Apart(ps[k], ps[i]);
        assert i < k ==> Apart(ps[i], ps[k]);
      }
    }
    forall team | team != NoTeam && Covered(ps, team) && !IsCaptainOf(ps[i], team)
      ensures Covered(r, team)
    {
      CoveredStays(ps, r, team);
    }
  }

  lemma {:induction false} GoneJudge(ps: seq<Participant>, i: nat)
    requires RosterOk(ps) && i < |ps| && ps[i].active
    ensures JudgeOf(Gone(ps, i)).Some? <==> JudgeOf(ps).Some? && !ps[i].judge
  {
    var gone := Gone(ps, i);
    GoneOk(ps, i);
    if JudgeOf(ps).Some? && !ps[i].judge {
      JudgeFound(gone, JudgeOf(ps).value);
    }
    if ps[i].judge {
      forall k | 0 <= k < |gone|
        ensures !gone[k].judge
      {
        assert k < i ==> Apart(ps[k], ps[i]);
        assert i < k ==> Apart(ps[i], ps[k]);
      }
    }
  }

  // A captain's team finds another one, if anybody is left in it.
  lemma {:induction false} SuccessorKeeps(gone: seq<Participant>, team: Team)
    requires RosterOk(gone) && team != NoTeam && CaptainOf(gone, team).None? && Covered(gone, Opponent(team))
    ensures BothCovered(Promoted(gone, team)) && ActiveCount(Promoted(gone, team)) == ActiveCount(gone)
  {
    PromotedKeeps(gone, team);
    assert ActiveFlags(Promoted(gone, team)) == ActiveFlags(gone);
  }

  lemma LeftCovered(ps: seq<Participant>, i: nat)
    requires RosterOk(ps) && i < |ps| && ps[i].active && BothCovered(ps)
    ensures BothCovered(Left(ps, i))
  {
    GoneOk(ps, i);
    assert MemberOk(ps[i]);
    if ps[i].captain {
      SuccessorKeeps(Gone(ps, i), ps[i].team);
    }
  }

  lemma {:induction false} LeftKeeps(ps: seq<Participant>, i: nat)
    requires RosterOk(ps) && i < |ps| && ps[i].active
    ensures RosterOk(Left(ps, i)) && ActiveCount(Left(ps, i)) == ActiveCount(ps) - 1
    ensures SamePeople(ps, Left(ps, i))
    ensures forall k :: 0 <= k < |ps| ==> Left(ps, i)[k].active == (ps[k].active && k != i)
    ensures JudgeOf(Left(ps, i)).Some? <==> JudgeOf(ps).Some? && !ps[i].judge
  {
    GoneOk(ps, i);
    GoneJudge(ps, i);
    assert MemberOk(ps[i]);
    if ps[i].captain {
      PromotedKeeps(Gone(ps, i), ps[i].team);
      assert ActiveFlags(Left(ps, i)) == ActiveFlags(Gone(ps, i));
    }
  }

  lemma HostAfterLeaving(ps: seq<Participant>, i: nat, hostSeat: int)
    requires RosterOk(ps) && i < |ps| && ps[i].active && HostStays(ps, hostSeat)
    ensures var r := Left(ps, i); var host := if ps[i].seat == hostSeat then LowestActiveSeat(r) else hostSeat;
            && HostStays(r, host)
            && (AtSeat(ps, hostSeat).Some? && FirstActive(r).Some? ==> AtSeat(r, host).Some?)
  {
    LeftKeeps(ps, i);
    var r := Left(ps, i);
    var host := if ps[i].seat == hostSeat then LowestActiveSeat(r) else hostSeat;
    forall k | 0 <= k < |r| && r[k].seat == host
      ensures r[k].active
    {
      assert MemberOk(r[k]);
      if ps[i].seat == hostSeat {
        SeatIsUnique(r, k, FirstActive(r).value);
      } else {
        assert SamePerson(ps[k], r[k]);
      }
    }
    if ps[i].seat == hostSeat && FirstActive(r).Some? {
      UserFound(r, FirstActive(r).value);
    } else if AtSeat(ps, hostSeat).Some? {
      UserFound(r, AtSeat(ps, hostSeat).value);
    }
  }

  // ---------------------------------------------------------------------
  // The host's roster actions
  // ---------------------------------------------------------------------

  lemma CaptainedOk(ps: seq<Participant>, t: nat)
    requires RosterOk(ps) && t < |ps| && ps[t].active && ps[t].team != NoTeam
    ensures RosterOk(Captained(ps, t)) && SameButCaptains(ps, Captained(ps, t))
  {
    assert MemberOk(ps[t]);
    var at := CaptainOf(ps, ps[t].team);
    if at.Some? && ps[at.value].seat != ps[t].seat {
      var c := at.value;
      assert MemberOk(ps[c]);
      ChangeOk(ps, c, ps[c].(captain := false));
      var cleared := ps[c := ps[c].(captain := false)];
      forall k | 0 <= k < |ps|
        ensures !IsCaptainOf(cleared[k], ps[t].team)
      {
        assert k < c ==> Apart(ps[k], ps[c]);
        assert c < k ==> Apart(ps[c], ps[k]);
      }
      ChangeOk(cleared, t, cleared[t].(captain := true));
    } else if at.Some? {
      SeatIsUnique(ps, at.value, t);
      ChangeOk(ps, t, ps[t].(captain := true));
    } else {
      ChangeOk(ps, t, ps[t].(captain := true));
    }
  }

  lemma TeamChangeOk(ps: seq<Participant>, t: nat, team: Team)
    requires RosterOk(ps) && t < |ps| && (team == NoTeam || !ps[t].judge)
    ensures RosterOk(ps[t := ps[t].(team := team, captain := ps[t].captain && team == ps[t].team)])
  {
    assert MemberOk(ps[t]);
    ChangeOk(ps, t, ps[t].(team := team, captain := ps[t].captain && team == ps[t].team));
  }

  lemma {:induction false} SomeFlag(xs: seq<int>)
    requires forall i :: 0 <= i < |xs| ==> xs[i] >= 0
    ensures Sum(xs) > 0 <==> exists i :: 0 <= i < |xs| && xs[i] > 0
  {
    SumNonNegative(xs);
  }

  // Before the game starts: enough people, and a captain for each team.
  lemma ReadyCrew(ps: seq<Participant>)
    requires RosterOk(ps) && RosterReady(ps)
    ensures BothCovered(ps) && !Terminal(ps)
  {
    SomeFlag(MemberFlags(ps, TeamA));
    SomeFlag(MemberFlags(ps, TeamB));
    SomeFlag(CaptainFlags(ps, TeamA));
    SomeFlag(CaptainFlags(ps, TeamB));
    var a :| 0 <= a < |ps| && MemberFlags(ps, TeamA)[a] > 0;
    var b :| 0 <= b < |ps| && MemberFlags(ps, TeamB)[b] > 0;
    var j := JudgeOf(ps).value;
    assert MemberOk(ps[j]);
    ThreeActive(ps, a, b, j);
  }

  lemma ThreeActive(ps: seq<Participant>, a: nat, b: nat, c: nat)
    requires a < |ps| && b < |ps| && c < |ps| && a != b && b != c && a != c
    requires ps[a].active && ps[b].active && ps[c].active
    ensures ActiveCount(ps) >= 3
  {
    var xs := ActiveFlags(ps);
    SumUpdate(xs, a, 0);
    SumUpdate(xs[a := 0], b, 0);
    SumAtLeast(xs[a := 0][b := 0], c);
  }

  // While the game goes on, each team has a captain who is still there.
  lemma {:induction false} CrewHasCaptain(ps: seq<Participant>, team: Team)
    requires RosterOk(ps) && BothCovered(ps) && !Terminal(ps) && team != NoTeam
    ensures CaptainOf(ps, team).Some? && ps[CaptainOf(ps, team).value].active
  {
    SomeFlag(MemberFlags(ps, team));
    assert FirstOf(ps, team).Some? by {
      SumNonNegative(MemberFlags(ps, team));
      var i :| 0 <= i < |ps| && MemberFlags(ps, team)[i] > 0;
      assert PlaysFor(ps[i], team);
    }
    assert MemberOk(ps[CaptainOf(ps, team).value]);
  }
}
