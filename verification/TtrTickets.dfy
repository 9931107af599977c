// What stations and tickets cost.
module TtrTickets {
  // The k-th station costs k cards; kept tickets stay with the player and the
  // others go under the deck.
  import opened Wrappers
  import opened TtrBoard
  import opened TtrPayment
  import opened TtrCards
  import opened TtrGame
  import opened TtrRules
  import opened TtrFlow
  import opened TtrLedger
  import opened TtrFinalRound
  import opened TtrTunnels

  // ---------------------------------------------------------------------
  // Stations
  // ---------------------------------------------------------------------

  // Player i has one station more, paid with cards of one colour and
  // locomotives, one for each station including the new one.
  ghost predicate BuildsStation(gs: Game, after: Game, i: nat, city: City, pay: Payment) {
    && i < |gs.players| == |after.players| && after.players == gs.players[i := after.players[i]]
    && PaidFrom(gs.players[i].hand, after.players[i].hand, pay) && Total(pay) == |gs.players[i].stations| + 1
    && after.players[i] == gs.players[i].(hand := after.players[i].hand, stationsLeft := gs.players[i].stationsLeft - 1,
                                          stations := gs.players[i].stations + [city])
    && after.stationOwner == gs.stationOwner[city := gs.players[i].seat] && after.routeOwner == gs.routeOwner
  }

  lemma BuiltDoes(m: Board, gs: Game, i: nat, city: City, pay: Payment, after: Game)
    requires Flow(gs) && gs.phase == Normal && Ledger(m, gs) && i < |gs.players| && ApplyBuildStation(m, gs, i, city, pay) == Ok(after)
    ensures BuildsStation(gs, after, i, city, pay) && Completes(gs, after, i)
  {
    assert PlayerLedger(m, gs.players[i]);
    DebitPays(gs.players[i].hand, pay, StationCost(m, gs.players[i]));
    TurnCompletes(gs, Built(gs, i, city, pay), i);
  }

  lemma StationDoes(m: Board, gs: Game, user: nat, city: City, pay: Payment, sh: Shuffler, handFirst: bool, after: Game) returns (i: nat)
    requires m.Valid() && Flow(gs) && Ledger(m, gs) && Apply(m, gs, user, BuildStation(city, pay), sh, handFirst) == Ok(after)
    ensures gs.phase == Normal && i < |gs.players| && OfUser(gs.players, user) == Some(i)
    ensures BuildsStation(gs, after, i, city, pay) && Completes(gs, after, i)
  {
    i := OfUser(gs.players, user).value;
    BuiltDoes(m, gs, i, city, pay, ApplyBuildStation(m, gs, i, city, pay).value);
  }

  // A station may be built in any city of the board that has none, by the
  // player to move who has one left.
  ghost predicate MayBuild(m: Board, gs: Game, i: nat, city: City)
    requires i < |gs.players|
  {
    && city in m.cities && |gs.players[i].stations| < m.stationsPerPlayer
    && forall k :: 0 <= k < |gs.players| ==> city !in gs.players[k].stations
  }

  lemma NoStationThere(m: Board, gs: Game, city: City)
    requires Ledger(m, gs)
    ensures city in gs.stationOwner <==> exists k :: 0 <= k < |gs.players| && city in gs.players[k].stations
  {
    if city in gs.stationOwner {
      var k :| 0 <= k < |gs.players| && HasStation(gs.players[k], city);
    }
    if k :| 0 <= k < |gs.players| && city in gs.players[k].stations {
      assert HasStation(gs.players[k], city);
    }
  }

  lemma StationAcceptedIff(m: Board, gs: Game, i: nat, city: City, pay: Payment, sh: Shuffler, handFirst: bool)
    requires m.Valid() && Flow(gs) && Ledger(m, gs) && i < |gs.players| && !gs.players[i].resigned && gs.phase != Finished
    ensures Apply(m, gs, gs.players[i].user, BuildStation(city, pay), sh, handFirst).Ok? <==>
              && gs.phase == Normal && gs.players[i].seat == gs.currentSeat && MayBuild(m, gs, i, city)
              && WellFormed(pay) && SingleColour(gs.players[i].hand, pay, |gs.players[i].stations| + 1)
  {
    SeatFound(gs.players, i);
    CurrentIs(gs, i);
    assert PlayerLedger(m, gs.players[i]);
    NoStationThere(m, gs, city);
  }

  // ---------------------------------------------------------------------
  // Tickets
  // ---------------------------------------------------------------------

  // Up to three tickets from the top are set aside for the player to move.
  lemma DrawTicketsDoes(m: Board, gs: Game, user: nat, sh: Shuffler, handFirst: bool, after: Game)
    requires m.Valid() && Flow(gs) && Apply(m, gs, user, DrawTickets, sh, handFirst) == Ok(after)
    ensures gs.phase == Normal && Continues(gs, after) && after.phase == AwaitTicketKeep && after.players == gs.players
    ensures after.ticketDraw.Some? && after.ticketDraw.value + after.ticketDeck == gs.ticketDeck
    ensures |after.ticketDraw.value| == if |gs.ticketDeck| < 3 then |gs.ticketDeck| else 3
  {
    TurnContinues(gs, ApplyDrawTickets(gs).value);
  }

  // The tickets of an offer that are not kept, in the order of the offer.
  ghost predicate RestOf(offered: seq<TicketId>, keep: seq<TicketId>, rest: seq<TicketId>) {
    && (forall id :: id in rest <==> id in offered && id !in keep)
    && (forall j, k :: 0 <= j < k < |rest| ==> exists a, b :: 0 <= a < b < |offered| && offered[a] == rest[j] && offered[b] == rest[k])
  }

  lemma {:induction false} RejectedIsRest(offered: seq<TicketId>, keep: seq<TicketId>)
    ensures RestOf(offered, keep, Rejected(offered, keep))
  {
    if offered != [] {
      var rest, all := Rejected(offered[1..], keep), Rejected(offered, keep);
      RejectedIsRest(offered[1..], keep);
      assert offered == [offered[0]] + offered[1..];
      var d := |all| - |rest|;
      forall j, k | 0 <= j < k < |all|
        ensures exists a, b :: 0 <= a < b < |offered| && offered[a] == all[j] && offered[b] == all[k]
      {
        assert all[k] == rest[k - d];
        if j < d {
          assert rest[k - d] in rest;
          var b :| 0 <= b < |offered[1..]| && offered[1..][b] == all[k];
          assert offered[0] == all[j] && offered[b + 1] == all[k];
        } else {
          var a, b :| 0 <= a < b < |offered[1..]| && offered[1..][a] == rest[j - d] && offered[1..][b] == rest[k - d];
          assert offered[a + 1] == all[j] && offered[b + 1] == all[k];
        }
      }
    }
  }

  // Some of the offered tickets, at least `least` of them, each once.
  ghost predicate Chosen(offered: seq<TicketId>, keep: seq<TicketId>, least: nat) {
    |keep| >= least && (forall id :: id in keep ==> id in offered) && forall j, k :: 0 <= j < k < |keep| ==> keep[j] != keep[k]
  }

  ghost predicate KeepsTickets(gs: Game, after: Game, i: nat, keep: seq<TicketId>) {
    i < |gs.players| && after.players == gs.players[i := gs.players[i].(tickets := gs.players[i].tickets + keep)]
  }

  lemma KeepDoes(m: Board, gs: Game, user: nat, keep: seq<TicketId>, accept: bool, extra: Payment, sh: Shuffler, handFirst: bool, after: Game)
    returns (i: nat, rest: seq<TicketId>)
    requires m.Valid() && Flow(gs) && gs.phase == AwaitTicketKeep
    requires Apply(m, gs, user, ResolveDecision(KTicketKeep, keep, accept, extra), sh, handFirst) == Ok(after)
    ensures OfUser(gs.players, user) == Some(i) && KeepsTickets(gs, after, i, keep) && Completes(gs, after, i)
    ensures Chosen(gs.ticketDraw.value, keep, 1) && RestOf(gs.ticketDraw.value, keep, rest) && after.ticketDeck == gs.ticketDeck + rest
  {
    i := OfUser(gs.players, user).value;
    rest := KeptDoes(gs, i, keep, ApplyTicketKeep(gs, i, keep).value);
  }

  lemma KeptDoes(gs: Game, i: nat, keep: seq<TicketId>, after: Game) returns (rest: seq<TicketId>)
    requires Flow(gs) && gs.phase == AwaitTicketKeep && i < |gs.players| && ApplyTicketKeep(gs, i, keep) == Ok(after)
    ensures KeepsTickets(gs, after, i, keep) && Completes(gs, after, i)
    ensures Chosen(gs.ticketDraw.value, keep, 1) && RestOf(gs.ticketDraw.value, keep, rest) && after.ticketDeck == gs.ticketDeck + rest
  {
    rest := Rejected(gs.ticketDraw.value, keep);
    RejectedIsRest(gs.ticketDraw.value, keep);
    TurnCompletes(gs, gs.(players := TicketsTo(gs.players, i, keep), ticketDeck := gs.ticketDeck + rest, ticketDraw := None), i);
  }

  // At setup at least two tickets stay, and the others leave the game; when
  // everybody has answered, play starts with the first player who is still in.
  lemma SetupDoes(m: Board, gs: Game, user: nat, keep: seq<TicketId>, accept: bool, extra: Payment, sh: Shuffler, handFirst: bool, after: Game)
    returns (i: nat)
    requires m.Valid() && Flow(gs) && gs.phase == SetupTickets
    requires Apply(m, gs, user, ResolveDecision(KSetup, keep, accept, extra), sh, handFirst) == Ok(after)
    ensures i < |gs.players| && OfUser(gs.players, user) == Some(i) && !gs.players[i].setupDone && Chosen(gs.players[i].offer, keep, 2)
    ensures after.players == gs.players[i := gs.players[i].(tickets := gs.players[i].tickets + keep, offer := [], setupDone := true)]
    ensures after.ticketDeck == gs.ticketDeck
    ensures if forall k :: 0 <= k < |after.players| ==> after.players[k].resigned || after.players[k].setupDone
            then after.phase == Normal && after.turnNo == 1 && (SeatIsActive(gs.players, gs.currentSeat) ==> after.currentSeat == gs.currentSeat)
            else after.phase == SetupTickets && after.currentSeat == gs.currentSeat
  {
    i := OfUser(gs.players, user).value;
    SetupAnswered(gs, i, keep, ApplySetupKeep(gs, i, keep).value);
    SameActiveSeat(gs.players, after.players, gs.currentSeat);
  }

  lemma {:induction false} SameActiveSeat(a: seq<Player>, b: seq<Player>, seat: int)
    requires SameStanding(a, b)
    ensures AtSeat(a, seat) == AtSeat(b, seat) && (SeatIsActive(a, seat) <==> SeatIsActive(b, seat))
  {
    if a != [] && a[0].seat != seat {
      SameActiveSeat(a[1..], b[1..], seat);
    }
  }
}
