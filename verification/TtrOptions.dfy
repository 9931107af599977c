// Who can still do something, and when nobody can.
module TtrOptions {
  import opened Wrappers
  import opened TtrBoard
  import opened TtrPayment
  import opened TtrCards
  import opened TtrGame
  import opened TtrRules
  import opened TtrFlow
  import TtrLedger

  // ---------------------------------------------------------------------
  // What a hand can pay for
  // ---------------------------------------------------------------------

  // Enough cards of one colour together with locomotives.
  ghost predicate Covers(hand: Hand, price: int) {
    exists c :: c != Loco && c != Gray && hand[c] + hand[Loco] >= price
  }

  ghost predicate CoversRoute(r: Route, hand: Hand) {
    Forced(r) <= hand[Loco] && exists c :: IsCandidate(r, c) && hand[c] + hand[Loco] >= r.length
  }

  lemma RoutePayableIff(r: Route, hand: Hand)
    requires 0 <= r.locos <= r.length && r.color != Loco
    ensures (exists pay :: WellFormed(pay) && Pays(r, hand, pay)) <==> CoversRoute(r, hand)
  {
    if CoversRoute(r, hand) {
      var c :| IsCandidate(r, c) && hand[c] + hand[Loco] >= r.length;
      BestPays(r, hand, c);
      assert WellFormed(Best(r, hand, c));
    }
    if pay :| WellFormed(pay) && Pays(r, hand, pay) {
      var c := EveryPaymentHasBase(r, hand, pay);
    }
  }

  lemma MixedIsPayment(hand: Hand, c: Color, used: int, locos: int)
    requires c != Loco && c != Gray && 0 <= used <= hand[c] && 0 <= locos <= hand[Loco]
    ensures WellFormed(Mixed(c, used, locos)) && SingleColour(hand, Mixed(c, used, locos), used + locos)
  {
    MixedCounts(c, used, locos);
    var pay := Mixed(c, used, locos);
    assert forall d :: d in pay ==> d == c || d == Loco;
  }

  lemma PricePayableIff(hand: Hand, price: int)
    requires price >= 1
    ensures (exists pay :: WellFormed(pay) && SingleColour(hand, pay, price)) <==> Covers(hand, price)
  {
    if Covers(hand, price) {
      var c :| c != Loco && c != Gray && hand[c] + hand[Loco] >= price;
      var used := if hand[c] < price then hand[c] else price;
      MixedIsPayment(hand, c, used, price - used);
    }
    if pay :| WellFormed(pay) && SingleColour(hand, pay, price) {
      var c := if exists d :: d in pay && d != Loco then BaseOf(pay) else Purple;
      BaseCovers(hand, pay, price, c);
    }
  }

  ghost function BaseOf(pay: Payment): Color
    requires exists d :: d in pay && d != Loco
  {
    var d :| d in pay && d != Loco; d
  }

  lemma BaseCovers(hand: Hand, pay: Payment, price: int, c: Color)
    requires SingleColour(hand, pay, price) && c != Loco && forall d :: d in pay ==> d == c || d == Loco
    ensures hand[c] + hand[Loco] >= price
  {
    match c case _ =>
  }

  // ---------------------------------------------------------------------
  // The player to move
  // ---------------------------------------------------------------------

  ghost predicate RouteOpen(m: Board, gs: Game, i: nat)
    requires i < |gs.players|
  {
    exists id :: id in m.routeById && Claimable(gs, i, m.routeById[id]) && CoversRoute(m.routeById[id], gs.players[i].hand)
  }

  ghost predicate StationOpen(m: Board, gs: Game, i: nat)
    requires i < |gs.players|
  {
    && gs.players[i].stationsLeft >= 1 && Covers(gs.players[i].hand, StationCost(m, gs.players[i]))
    && exists city :: city in m.cities && city !in gs.stationOwner
  }

  // A card, a ticket, a route or a station is to be had.
  ghost predicate TurnOpen(m: Board, gs: Game, i: nat)
    requires i < |gs.players|
  {
    || gs.piles.draw != [] || gs.piles.discard != [] || gs.piles.faceUp != [] || gs.ticketDeck != []
    || RouteOpen(m, gs, i) || StationOpen(m, gs, i)
  }

  ghost predicate Can(m: Board, gs: Game, i: nat, a: Action, sh: Shuffler)
    requires m.Valid() && i < |gs.players|
  {
    !a.Resign? && Apply(m, gs, gs.players[i].user, a, sh, true).Ok?
  }

  // The order in which a surcharge is visited does not decide whether there
  // is something to do.
  ghost predicate CanSome(m: Board, gs: Game, i: nat, sh: Shuffler)
    requires m.Valid() && i < |gs.players|
  {
    exists a: Action, handFirst :: !a.Resign? && Apply(m, gs, gs.players[i].user, a, sh, handFirst).Ok?
  }

  lemma OnTurnIs(gs: Game, i: nat)
    requires Flow(gs) && gs.phase != SetupTickets && gs.phase != Finished && i < |gs.players|
    ensures OfUser(gs.players, gs.players[i].user) == Some(i)
    ensures IsCurrent(gs, i) <==> gs.players[i].seat == gs.currentSeat
    ensures IsCurrent(gs, i) ==> !gs.players[i].resigned
  {
    SeatFound(gs.players, i);
    CurrentIs(gs, i);
  }

  // On his turn a player may do whatever the rules of the action allow.
  lemma TurnGivesMove(m: Board, gs: Game, i: nat, a: Action, sh: Shuffler)
    requires m.Valid() && Flow(gs) && gs.phase == Normal && i < |gs.players| && IsCurrent(gs, i)
    requires a.DrawCard? || a.ClaimRoute? || a.BuildStation? || a.DrawTickets?
    requires Dispatch(m, gs, i, a, sh, true).Ok?
    ensures Can(m, gs, i, a, sh)
  {
    GateOpens(gs, i, a);
    assert Apply(m, gs, gs.players[i].user, a, sh, true) == Numbered(Dispatch(m, gs, i, a, sh, true));
  }

  lemma GateOpens(gs: Game, i: nat, a: Action)
    requires Flow(gs) && gs.phase == Normal && i < |gs.players| && IsCurrent(gs, i)
    requires a.DrawCard? || a.ClaimRoute? || a.BuildStation? || a.DrawTickets?
    ensures OfUser(gs.players, gs.players[i].user) == Some(i) && Gate(gs, i, a).None?
  {
    OnTurnIs(gs, i);
  }

  lemma OpenRoutePays(m: Board, gs: Game, i: nat) returns (id: RouteId, pay: Payment)
    requires m.Valid() && i < |gs.players| && RouteOpen(m, gs, i)
    ensures id in m.routeById && Claimable(gs, i, m.routeById[id])
    ensures WellFormed(pay) && Pays(m.routeById[id], gs.players[i].hand, pay)
  {
    id :| id in m.routeById && Claimable(gs, i, m.routeById[id]) && CoversRoute(m.routeById[id], gs.players[i].hand);
    assert m.ValidRoute(id, m.routeById[id]);
    RoutePayableIff(m.routeById[id], gs.players[i].hand);
    pay :| WellFormed(pay) && Pays(m.routeById[id], gs.players[i].hand, pay);
  }

  lemma RouteGivesMove(m: Board, gs: Game, i: nat, sh: Shuffler) returns (a: Action)
    requires m.Valid() && Flow(gs) && gs.phase == Normal && i < |gs.players| && IsCurrent(gs, i) && RouteOpen(m, gs, i)
    ensures Can(m, gs, i, a, sh)
  {
    var id, pay := OpenRoutePays(m, gs, i);
    a := ClaimRoute(id, pay);
    ClaimDispatches(m, gs, i, id, pay, sh);
    TurnGivesMove(m, gs, i, a, sh);
  }

  lemma ClaimDispatches(m: Board, gs: Game, i: nat, id: RouteId, pay: Payment, sh: Shuffler)
    requires m.Valid() && i < |gs.players| && id in m.routeById && Claimable(gs, i, m.routeById[id])
    requires WellFormed(pay) && Pays(m.routeById[id], gs.players[i].hand, pay)
    ensures Dispatch(m, gs, i, ClaimRoute(id, pay), sh, true).Ok?
  {
  }

  lemma OpenStationPays(m: Board, gs: Game, i: nat) returns (city: City, pay: Payment)
    requires TtrLedger.Ledger(m, gs) && i < |gs.players| && StationOpen(m, gs, i)
    ensures city in m.cities && city !in gs.stationOwner
    ensures WellFormed(pay) && SingleColour(gs.players[i].hand, pay, StationCost(m, gs.players[i]))
  {
    assert TtrLedger.PlayerLedger(m, gs.players[i]);
    city :| city in m.cities && city !in gs.stationOwner;
    PricePayableIff(gs.players[i].hand, StationCost(m, gs.players[i]));
    pay :| WellFormed(pay) && SingleColour(gs.players[i].hand, pay, StationCost(m, gs.players[i]));
  }

  lemma StationGivesMove(m: Board, gs: Game, i: nat, sh: Shuffler) returns (a: Action)
    requires m.Valid() && Flow(gs) && TtrLedger.Ledger(m, gs) && gs.phase == Normal && i < |gs.players| && IsCurrent(gs, i)
    requires StationOpen(m, gs, i)
    ensures Can(m, gs, i, a, sh)
  {
    var city, pay := OpenStationPays(m, gs, i);
    a := BuildStation(city, pay);
    StationDispatches(m, gs, i, city, pay, sh);
    TurnGivesMove(m, gs, i, a, sh);
  }

  lemma StationDispatches(m: Board, gs: Game, i: nat, city: City, pay: Payment, sh: Shuffler)
    requires m.Valid() && i < |gs.players| && city in m.cities && city !in gs.stationOwner && gs.players[i].stationsLeft >= 1
    requires WellFormed(pay) && SingleColour(gs.players[i].hand, pay, StationCost(m, gs.players[i]))
    ensures Dispatch(m, gs, i, BuildStation(city, pay), sh, true).Ok?
  {
  }

  lemma DrawGivesMove(m: Board, gs: Game, i: nat, sh: Shuffler) returns (a: Action)
    requires m.Valid() && Fair(sh) && Flow(gs) && gs.phase == Normal && i < |gs.players| && IsCurrent(gs, i)
    requires gs.piles.draw != [] || gs.piles.discard != [] || gs.piles.faceUp != [] || gs.ticketDeck != []
    ensures Can(m, gs, i, a, sh)
  {
    OnTurnIs(gs, i);
    if gs.ticketDeck != [] {
      a := DrawTickets;
    } else if gs.piles.faceUp != [] {
      a := DrawCard(FaceUpSlot(0));
      assert ApplyDrawCard(gs, i, FaceUpSlot(0), sh).Ok?;
    } else {
      a := DrawCard(Deck);
      PopGives(gs.piles, sh);
      assert ApplyDrawCard(gs, i, Deck, sh).Ok?;
    }
  }

  lemma PopGives(p: Piles, sh: Shuffler)
    requires Fair(sh)
    ensures Popped(p, sh).card.Some? <==> p.draw != [] || p.discard != []
  {
    assert SameCards(sh(p.shuffles, p.discard), p.discard);
  }

  // Nothing else is accepted on a normal turn.
  lemma MoveIsOpen(m: Board, gs: Game, i: nat, a: Action, sh: Shuffler, handFirst: bool)
    requires m.Valid() && Fair(sh) && Flow(gs) && TtrLedger.Ledger(m, gs) && gs.phase == Normal && i < |gs.players|
    requires !a.Resign? && Apply(m, gs, gs.players[i].user, a, sh, handFirst).Ok?
    ensures IsCurrent(gs, i) && TurnOpen(m, gs, i)
  {
    OnTurnIs(gs, i);
    match a {
      case DrawCard(source) => PopGives(gs.piles, sh);
      case ClaimRoute(id, pay) =>
        assert m.ValidRoute(id, m.routeById[id]);
        RoutePayableIff(m.routeById[id], gs.players[i].hand);
      case BuildStation(city, pay) =>
        assert TtrLedger.PlayerLedger(m, gs.players[i]);
        PricePayableIff(gs.players[i].hand, StationCost(m, gs.players[i]));
      case DrawTickets =>
      case _ =>
    }
  }

  // On a normal turn there is something to do but to resign exactly when a
  // card, a ticket, a payable route or a payable station is to be had.
  lemma TurnOpenIff(m: Board, gs: Game, i: nat, sh: Shuffler)
    requires m.Valid() && Fair(sh) && Flow(gs) && TtrLedger.Ledger(m, gs) && gs.phase == Normal
    requires i < |gs.players| && IsCurrent(gs, i)
    ensures CanSome(m, gs, i, sh) <==> TurnOpen(m, gs, i)
  {
    if CanSome(m, gs, i, sh) {
      var a: Action, handFirst :| !a.Resign? && Apply(m, gs, gs.players[i].user, a, sh, handFirst).Ok?;
      MoveIsOpen(m, gs, i, a, sh, handFirst);
    }
    if TurnOpen(m, gs, i) {
      var a;
      if RouteOpen(m, gs, i) {
        a := RouteGivesMove(m, gs, i, sh);
      } else if StationOpen(m, gs, i) {
        a := StationGivesMove(m, gs, i, sh);
      } else {
        a := DrawGivesMove(m, gs, i, sh);
      }
      assert Can(m, gs, i, a, sh);
    }
  }

  // ---------------------------------------------------------------------
  // The row never outgrows its slots
  // ---------------------------------------------------------------------

  lemma {:induction false} RevealedRow(p: Piles, k: nat, sh: Shuffler)
    ensures Revealed(p, k, sh).piles.faceUp == p.faceUp
  {
    if k > 0 {
      RevealedRow(p, k - 1, sh);
    }
  }

  lemma DrawRow(gs: Game, i: nat, source: Source, sh: Shuffler, after: Game)
    requires RowOk(gs.piles) && i < |gs.players| && ApplyDrawCard(gs, i, source, sh) == Ok(after)
    ensures RowOk(after.piles)
  {
    match source {
      case Deck => assert after.piles == Popped(gs.piles, sh).piles;
      case FaceUpSlot(slot) =>
        TakenRowOk(gs.piles, slot, sh);
        assert after.piles == TakenFaceUp(gs.piles, slot, sh);
    }
  }

  lemma ClaimRow(m: Board, gs: Game, i: nat, id: RouteId, pay: Payment, sh: Shuffler, after: Game)
    requires m.Valid() && i < |gs.players| && ApplyClaimRoute(m, gs, i, id, pay, sh) == Ok(after)
    ensures after.piles.faceUp == gs.piles.faceUp
  {
    RevealedRow(gs.piles, TUNNEL_REVEAL_COUNT, sh);
    var paid := gs.(players := HandTo(gs.players, i, Debited(gs.players[i].hand, pay)));
    TurnedRow(paid, i, m.routeById[id], pay, Declared(pay), Revealed(gs.piles, TUNNEL_REVEAL_COUNT, sh));
  }

  lemma TurnedRow(gs: Game, i: nat, r: Route, pay: Payment, color: Color, turned: Reveal)
    requires i < |gs.players| && PointsForLength(r.length).Some?
    ensures TunnelTurned(gs, i, r, pay, color, turned).piles.faceUp == turned.piles.faceUp
  {
  }

  lemma TunnelRow(m: Board, gs: Game, i: nat, accept: bool, extra: Payment, handFirst: bool, after: Game)
    requires m.Valid() && i < |gs.players| && ApplyTunnelDecision(m, gs, i, accept, extra, handFirst) == Ok(after)
    ensures after.piles.faceUp == gs.piles.faceUp
  {
  }

  lemma DecisionRow(m: Board, gs: Game, i: nat, kind: Kind, keep: seq<TicketId>, accept: bool, extra: Payment, handFirst: bool,
                    after: Game)
    requires m.Valid() && i < |gs.players| && ApplyDecision(m, gs, i, kind, keep, accept, extra, handFirst) == Ok(after)
    ensures after.piles.faceUp == gs.piles.faceUp
  {
    if gs.phase == AwaitTunnel {
      TunnelRow(m, gs, i, accept, extra, handFirst, after);
    }
  }

  lemma StationRow(m: Board, gs: Game, i: nat, city: City, pay: Payment, after: Game)
    requires i < |gs.players| && ApplyBuildStation(m, gs, i, city, pay) == Ok(after)
    ensures after.piles.faceUp == gs.piles.faceUp
  {
  }

  lemma ResignRow(gs: Game, i: nat, after: Game)
    requires i < |gs.players| && ApplyResign(gs, i) == Ok(after)
    ensures after.piles.faceUp == gs.piles.faceUp
  {
  }

  // No action lets the row grow beyond five cards.
  lemma StepKeepsRow(m: Board, gs: Game, user: nat, a: Action, sh: Shuffler, handFirst: bool, after: Game)
    requires m.Valid() && RowOk(gs.piles) && Apply(m, gs, user, a, sh, handFirst) == Ok(after)
    ensures RowOk(after.piles)
  {
    var i := OfUser(gs.players, user).value;
    var stepped := Dispatch(m, gs, i, a, sh, handFirst).value;
    match a {
      case DrawCard(source) => DrawRow(gs, i, source, sh, stepped);
      case ClaimRoute(id, pay) => ClaimRow(m, gs, i, id, pay, sh, stepped);
      case BuildStation(city, pay) => StationRow(m, gs, i, city, pay, stepped);
      case DrawTickets =>
      case ResolveDecision(kind, keep, accept, extra) => DecisionRow(m, gs, i, kind, keep, accept, extra, handFirst, stepped);
      case Resign => ResignRow(gs, i, stepped);
    }
  }

  // ---------------------------------------------------------------------
  // A parked decision
  // ---------------------------------------------------------------------

  // The second card, or the way out when there is none to take.
  lemma SecondDrawHasAnswer(m: Board, gs: Game, i: nat, sh: Shuffler) returns (a: Action)
    requires m.Valid() && Fair(sh) && Flow(gs) && gs.phase == AwaitSecondDraw && i < |gs.players| && IsCurrent(gs, i)
    requires RowOk(gs.piles)
    ensures Can(m, gs, i, a, sh)
  {
    OnTurnIs(gs, i);
    PopGives(gs.piles, sh);
    if gs.piles.draw != [] || gs.piles.discard != [] {
      a := DrawCard(Deck);
      assert ApplyDrawCard(gs, i, Deck, sh).Ok?;
    } else if exists k :: 0 <= k < |gs.piles.faceUp| && gs.piles.faceUp[k] != Loco {
      var k :| 0 <= k < |gs.piles.faceUp| && gs.piles.faceUp[k] != Loco;
      a := DrawCard(FaceUpSlot(k));
      assert ApplyDrawCard(gs, i, FaceUpSlot(k), sh).Ok?;
    } else {
      a := ResolveDecision(KEndDraw, [], false, map[]);
      assert ApplyEndDraw(gs, i).Ok?;
    }
  }

  // Declining a tunnel, or keeping the first ticket offered.
  lemma ParkedHasAnswer(m: Board, gs: Game, i: nat, sh: Shuffler) returns (a: Action)
    requires m.Valid() && Flow(gs) && (gs.phase == AwaitTunnel || gs.phase == AwaitTicketKeep)
    requires i < |gs.players| && IsCurrent(gs, i)
    ensures Can(m, gs, i, a, sh)
  {
    OnTurnIs(gs, i);
    if gs.phase == AwaitTunnel {
      a := ResolveDecision(KTunnel, [], false, map[]);
      assert ApplyTunnelDecision(m, gs, i, false, map[], true).Ok?;
    } else {
      a := ResolveDecision(KTicketKeep, [gs.ticketDraw.value[0]], false, map[]);
      assert ApplyTicketKeep(gs, i, [gs.ticketDraw.value[0]]).Ok?;
    }
  }

  // In setup whoever has not answered can.
  lemma SetupHasAnswer(m: Board, gs: Game, i: nat, sh: Shuffler) returns (a: Action)
    requires m.Valid() && Flow(gs) && gs.phase == SetupTickets && i < |gs.players|
    requires !gs.players[i].resigned && !gs.players[i].setupDone
    ensures Can(m, gs, i, a, sh)
  {
    SeatFound(gs.players, i);
    assert CanAnswer(gs.players[i]);
    var keep := [gs.players[i].offer[0], gs.players[i].offer[1]];
    a := ResolveDecision(KSetup, keep, false, map[]);
    assert ApplySetupKeep(gs, i, keep).Ok?;
  }

  // ---------------------------------------------------------------------
  // When nobody can do anything but resign
  // ---------------------------------------------------------------------

  ghost predicate SomethingOpen(m: Board, gs: Game) {
    match gs.phase
    case SetupTickets => !AllSetupDone(gs.players)
    case Normal => exists i :: 0 <= i < |gs.players| && IsCurrent(gs, i) && TurnOpen(m, gs, i)
    case Finished => false
    case _ => true
  }

  ghost predicate SomebodyCan(m: Board, gs: Game, sh: Shuffler)
    requires m.Valid()
  {
    exists i :: 0 <= i < |gs.players| && CanSome(m, gs, i, sh)
  }

  lemma SomebodyIsCurrent(gs: Game) returns (i: nat)
    requires Flow(gs) && gs.phase != Finished && gs.phase != SetupTickets
    ensures i < |gs.players| && IsCurrent(gs, i)
  {
    i := AtSeat(gs.players, gs.currentSeat).value;
  }

  lemma OpenGivesMove(m: Board, gs: Game, sh: Shuffler) returns (i: nat, a: Action)
    requires m.Valid() && Fair(sh) && Flow(gs) && TtrLedger.Ledger(m, gs) && RowOk(gs.piles) && gs.phase != Normal
    requires SomethingOpen(m, gs)
    ensures i < |gs.players| && Can(m, gs, i, a, sh)
  {
    if gs.phase == SetupTickets {
      i :| 0 <= i < |gs.players| && !gs.players[i].resigned && !gs.players[i].setupDone;
      a := SetupHasAnswer(m, gs, i, sh);
    } else {
      i := SomebodyIsCurrent(gs);
      if gs.phase == AwaitSecondDraw {
        a := SecondDrawHasAnswer(m, gs, i, sh);
      } else {
        a := ParkedHasAnswer(m, gs, i, sh);
      }
    }
  }

  lemma MoveNeedsOpening(m: Board, gs: Game, i: nat, a: Action, sh: Shuffler, handFirst: bool)
    requires m.Valid() && Flow(gs) && gs.phase != Normal && i < |gs.players|
    requires !a.Resign? && Apply(m, gs, gs.players[i].user, a, sh, handFirst).Ok?
    ensures SomethingOpen(m, gs)
  {
    SeatFound(gs.players, i);
  }

  // In every state of a game somebody can do something other than resign
  // exactly when a setup answer is missing, a decision is parked, or the
  // player to move has something to draw, to claim or to build.
  lemma SomebodyCanIff(m: Board, gs: Game, sh: Shuffler)
    requires m.Valid() && Fair(sh) && Flow(gs) && TtrLedger.Ledger(m, gs) && RowOk(gs.piles)
    ensures SomebodyCan(m, gs, sh) <==> SomethingOpen(m, gs)
  {
    if SomebodyCan(m, gs, sh) {
      var i :| 0 <= i < |gs.players| && CanSome(m, gs, i, sh);
      var a: Action, handFirst :| !a.Resign? && Apply(m, gs, gs.players[i].user, a, sh, handFirst).Ok?;
      if gs.phase == Normal {
        MoveIsOpen(m, gs, i, a, sh, handFirst);
      } else {
        MoveNeedsOpening(m, gs, i, a, sh, handFirst);
      }
    }
    if SomethingOpen(m, gs) {
      if gs.phase == Normal {
        var i :| 0 <= i < |gs.players| && IsCurrent(gs, i) && TurnOpen(m, gs, i);
        TurnOpenIff(m, gs, i, sh);
      } else {
        var i, a := OpenGivesMove(m, gs, sh);
        assert CanSome(m, gs, i, sh);
      }
    }
  }
}
