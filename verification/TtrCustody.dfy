// Every train card and every ticket is always in one place.
module TtrCustody {
  import opened Wrappers
  import opened Sums
  import opened Counting
  import opened TtrBoard
  import opened TtrPayment
  import opened TtrCards
  import opened TtrGame
  import opened TtrRules
  import opened TtrFlow

  // ---------------------------------------------------------------------
  // Train cards
  // ---------------------------------------------------------------------

  function HandCounts(ps: seq<Player>, c: Color): (xs: seq<int>)
    ensures |xs| == |ps| && forall i :: 0 <= i < |ps| ==> xs[i] == ps[i].hand[c]
  {
    seq(|ps|, i requires 0 <= i < |ps| => ps[i].hand[c])
  }

  function InHands(ps: seq<Player>, c: Color): int { Sum(HandCounts(ps, c)) }

  // The base payment and the reveals of a parked tunnel.
  function InTunnel(tunnel: Option<Tunnel>, c: Color): int {
    match tunnel case None => 0 case Some(t) => Count(t.base, c) + Times(t.revealed, c)
  }

  // Cards of one colour over the table, the hands and a parked tunnel.
  function Cards(gs: Game, c: Color): int {
    OnTable(gs.piles, c) + InHands(gs.players, c) + InTunnel(gs.tunnel, c)
  }

  lemma HandChange(ps: seq<Player>, i: nat, p: Player, c: Color)
    requires i < |ps|
    ensures InHands(ps[i := p], c) == InHands(ps, c) - ps[i].hand[c] + p.hand[c]
  {
    SumUpdate(HandCounts(ps, c), i, p.hand[c]);
    assert HandCounts(ps[i := p], c) == HandCounts(ps, c)[i := p.hand[c]];
  }

  lemma {:induction false} DiscardAdds(p: Piles, cards: seq<Color>, c: Color)
    ensures OnTable(Discarded(p, cards), c) == OnTable(p, c) + Times(cards, c)
  {
    TimesConcat(p.discard, cards, c);
  }

  lemma {:induction false} LaidTimes(pay: Payment, c: Color)
    requires forall d :: Count(pay, d) >= 0
    ensures Times(LaidPayment(pay, ALL_COLORS), c) == if c == Gray then 0 else Count(pay, c)
  {
    ColorsOnce();
    LaidPaymentTimes(pay, ALL_COLORS, c);
  }

  lemma {:induction false} HandTimes(hand: Hand, c: Color)
    ensures Times(LaidHand(hand, ALL_COLORS), c) == if c == Gray then 0 else hand[c]
  {
    ColorsOnce();
    LaidHandTimes(hand, ALL_COLORS, c);
  }

  lemma EndTurnCards(gs: Game, i: nat, c: Color)
    requires i < |gs.players| && gs.tunnel.None?
    ensures Cards(EndTurn(gs, i), c) == Cards(gs, c)
  {
  }

  lemma FinishClaimCards(gs: Game, i: nat, r: Route, pay: Payment, c: Color)
    requires i < |gs.players| && PointsForLength(r.length).Some? && c != Gray && forall d :: Count(pay, d) >= 0
    ensures Cards(FinishClaim(gs, i, r, pay), c) == Cards(gs, c) + Count(pay, c)
  {
    DiscardAdds(gs.piles, LaidPayment(pay, ALL_COLORS), c);
    LaidTimes(pay, c);
    HandChange(gs.players, i, FinishClaim(gs, i, r, pay).players[i], c);
  }

  lemma DealtCards(gs: Game, i: nat, card: Color, piles: Piles, c: Color)
    requires i < |gs.players|
    ensures Cards(Dealt(gs, i, card, piles), c) == Cards(gs, c) - OnTable(gs.piles, c) + OnTable(piles, c) + Is(card, c)
  {
    HandChange(gs.players, i, Dealt(gs, i, card, piles).players[i], c);
  }

  lemma DrawnCards(gs: Game, i: nat, card: Color, piles: Piles, over: bool, c: Color)
    requires i < |gs.players| && gs.tunnel.None? && OnTable(piles, c) == OnTable(gs.piles, c) - Is(card, c)
    ensures Cards(Drawn(gs, i, card, piles, over), c) == Cards(gs, c)
  {
    DealtCards(gs, i, card, piles, c);
    EndTurnCards(Dealt(gs, i, card, piles), i, c);
  }

  lemma DrawCards(gs: Game, i: nat, source: Source, sh: Shuffler, after: Game, c: Color)
    requires Fair(sh) && i < |gs.players| && gs.tunnel.None? && ApplyDrawCard(gs, i, source, sh) == Ok(after)
    ensures Cards(after, c) == Cards(gs, c)
  {
    var isSecond := gs.drawing.Some? && gs.drawing.value.cardsTaken > 0;
    match source {
      case Deck =>
        var pop := Popped(gs.piles, sh);
        PoppedKeeps(gs.piles, sh, c);
        DrawnCards(gs, i, pop.card.value, pop.piles, isSecond, c);
      case FaceUpSlot(slot) =>
        var card := gs.piles.faceUp[slot];
        TakenKeeps(gs.piles, slot, sh, c);
        DrawnCards(gs, i, card, TakenFaceUp(gs.piles, slot, sh), isSecond || card == Loco, c);
    }
  }

  lemma {:induction false} RevealedKeeps(p: Piles, k: nat, sh: Shuffler, c: Color)
    requires Fair(sh)
    ensures OnTable(Revealed(p, k, sh).piles, c) + Times(Revealed(p, k, sh).cards, c) == OnTable(p, c)
  {
    if k > 0 {
      RevealedKeeps(p, k - 1, sh, c);
      var before := Revealed(p, k - 1, sh);
      var pop := Popped(before.piles, sh);
      PoppedKeeps(before.piles, sh, c);
      if pop.card.Some? { TimesConcat(before.cards, [pop.card.value], c); }
    }
  }

  // A payment the hand can make leaves the hand with exactly that much less.
  lemma DebitTakes(gs: Game, i: nat, pay: Payment, c: Color)
    requires i < |gs.players| && forall d :: 0 <= Count(pay, d) <= gs.players[i].hand[d]
    ensures var paid := gs.(players := HandTo(gs.players, i, Debited(gs.players[i].hand, pay)));
            Cards(paid, c) == Cards(gs, c) - Count(pay, c)
  {
    HandChange(gs.players, i, gs.players[i].(hand := Debited(gs.players[i].hand, pay)), c);
  }

  lemma {:induction false} BurnedCards(gs: Game, i: nat, r: Route, pay: Payment, turned: Reveal, c: Color)
    requires i < |gs.players| && PointsForLength(r.length).Some? && c != Gray
    requires gs.tunnel.None? && forall d :: Count(pay, d) >= 0
    requires OnTable(turned.piles, c) + Times(turned.cards, c) == OnTable(gs.piles, c)
    ensures Cards(Burned(gs, i, r, pay, turned), c) == Cards(gs, c) + Count(pay, c)
  {
    DiscardAdds(turned.piles, turned.cards, c);
    var burned := gs.(piles := Discarded(turned.piles, turned.cards));
    FinishClaimCards(burned, i, r, pay, c);
    EndTurnCards(FinishClaim(burned, i, r, pay), i, c);
  }

  lemma {:induction false} TurnedCards(gs: Game, i: nat, r: Route, pay: Payment, color: Color, turned: Reveal, c: Color)
    requires i < |gs.players| && PointsForLength(r.length).Some? && c != Gray
    requires gs.tunnel.None? && forall d :: Count(pay, d) >= 0
    requires OnTable(turned.piles, c) + Times(turned.cards, c) == OnTable(gs.piles, c)
    ensures Cards(TunnelTurned(gs, i, r, pay, color, turned), c) == Cards(gs, c) + Count(pay, c)
  {
    if Matches(turned.cards, color) == 0 {
      BurnedCards(gs, i, r, pay, turned, c);
    } else {
      ParkedCards(gs, TunnelTurned(gs, i, r, pay, color, turned), pay, turned, c);
    }
  }

  lemma {:induction false} ParkedCards(gs: Game, after: Game, pay: Payment, turned: Reveal, c: Color)
    requires gs.tunnel.None? && OnTable(turned.piles, c) + Times(turned.cards, c) == OnTable(gs.piles, c)
    requires after.players == gs.players && after.piles == turned.piles
    requires after.tunnel.Some? && after.tunnel.value.base == pay && after.tunnel.value.revealed == turned.cards
    ensures Cards(after, c) == Cards(gs, c) + Count(pay, c)
  {
  }

  lemma OfferedCards(gs: Game, after: Game, c: Color)
    requires ApplyDrawTickets(gs) == Ok(after)
    ensures Cards(after, c) == Cards(gs, c)
  {
  }

  lemma ClaimCards(m: Board, gs: Game, i: nat, id: RouteId, pay: Payment, sh: Shuffler, after: Game, c: Color)
    requires m.Valid() && Fair(sh) && i < |gs.players| && gs.tunnel.None? && c != Gray
    requires ApplyClaimRoute(m, gs, i, id, pay, sh) == Ok(after)
    ensures Cards(after, c) == Cards(gs, c)
  {
    var r := m.routeById[id];
    DebitTakes(gs, i, pay, c);
    var paid := gs.(players := HandTo(gs.players, i, Debited(gs.players[i].hand, pay)));
    if r.tunnel {
      RevealedKeeps(paid.piles, TUNNEL_REVEAL_COUNT, sh, c);
      TurnedCards(paid, i, r, pay, Declared(pay), Revealed(paid.piles, TUNNEL_REVEAL_COUNT, sh), c);
    } else {
      FinishClaimCards(paid, i, r, pay, c);
      EndTurnCards(FinishClaim(paid, i, r, pay), i, c);
    }
  }

  lemma RefundCards(gs: Game, i: nat, c: Color)
    requires i < |gs.players| && gs.tunnel.Some? && forall d :: Count(gs.tunnel.value.base, d) >= 0
    ensures Cards(Refunded(gs, i, gs.tunnel.value), c) == Cards(gs, c)
  {
    var t := gs.tunnel.value;
    HandChange(gs.players, i, gs.players[i].(hand := Credited(gs.players[i].hand, t.base)), c);
    DiscardAdds(gs.piles, t.revealed, c);
    EndTurnCards(Repaid(gs, i, t), i, c);
  }

  lemma AcceptCards(gs: Game, i: nat, r: Route, extra: Payment, c: Color)
    requires i < |gs.players| && gs.tunnel.Some? && PointsForLength(r.length).Some? && c != Gray
    requires forall d :: Count(gs.tunnel.value.base, d) >= 0
    requires forall d :: 0 <= Count(extra, d) <= gs.players[i].hand[d]
    ensures Cards(Accepted(gs, i, r, gs.tunnel.value, extra), c) == Cards(gs, c)
  {
    var t := gs.tunnel.value;
    DiscardAdds(gs.piles, t.revealed, c);
    HandChange(gs.players, i, gs.players[i].(hand := Debited(gs.players[i].hand, extra)), c);
    var paid := Surcharged(gs, i, t, extra);
    MergedCounts(t.base, extra, c);
    assert forall d :: Count(Merged(t.base, extra), d) >= 0;
    FinishClaimCards(paid, i, r, Merged(t.base, extra), c);
    EndTurnCards(FinishClaim(paid, i, r, Merged(t.base, extra)), i, c);
  }

  lemma MergedCounts(a: Payment, b: Payment, c: Color)
    ensures Count(Merged(a, b), c) == Count(a, c) + Count(b, c)
  {
  }

  // A tunnel answer ends in a refund or in a paid claim.
  lemma TunnelResults(m: Board, gs: Game, i: nat, accept: bool, extra: Payment, handFirst: bool, after: Game)
    requires m.Valid() && i < |gs.players| && gs.tunnel.Some?
    requires ApplyTunnelDecision(m, gs, i, accept, extra, handFirst) == Ok(after)
    ensures var t := gs.tunnel.value;
            || after == Refunded(gs, i, t)
            || (t.route in m.routeById && WellFormed(extra) && SurchargeVerdict(t, gs.players[i].hand, extra, handFirst) == Fits &&
                after == Accepted(gs, i, m.routeById[t.route], t, extra))
  {
  }

  lemma TunnelCards(m: Board, gs: Game, i: nat, accept: bool, extra: Payment, handFirst: bool, after: Game, c: Color)
    requires m.Valid() && Flow(gs) && gs.phase == AwaitTunnel && i < |gs.players| && c != Gray
    requires ApplyTunnelDecision(m, gs, i, accept, extra, handFirst) == Ok(after)
    ensures Cards(after, c) == Cards(gs, c)
  {
    TunnelResults(m, gs, i, accept, extra, handFirst, after);
    if after == Refunded(gs, i, gs.tunnel.value) {
      RefundCards(gs, i, c);
    } else {
      FitsPays(m, gs, i, extra, handFirst);
      AcceptCards(gs, i, m.routeById[gs.tunnel.value.route], extra, c);
    }
  }

  lemma FitsPays(m: Board, gs: Game, i: nat, extra: Payment, handFirst: bool)
    requires m.Valid() && i < |gs.players| && gs.tunnel.Some? && gs.tunnel.value.route in m.routeById && WellFormed(extra)
    requires SurchargeVerdict(gs.tunnel.value, gs.players[i].hand, extra, handFirst) == Fits
    ensures PointsForLength(m.routeById[gs.tunnel.value.route].length).Some?
    ensures forall d :: 0 <= Count(extra, d) <= gs.players[i].hand[d]
  {
    assert m.ValidRoute(gs.tunnel.value.route, m.routeById[gs.tunnel.value.route]);
  }

  lemma StationCards(m: Board, gs: Game, i: nat, city: City, pay: Payment, after: Game, c: Color)
    requires i < |gs.players| && gs.tunnel.None? && c != Gray
    requires ApplyBuildStation(m, gs, i, city, pay) == Ok(after)
    ensures Cards(after, c) == Cards(gs, c)
  {
    HandChange(gs.players, i, BuiltBy(gs.players[i], city, pay), c);
    LaidTimes(pay, c);
    DiscardAdds(gs.piles, LaidPayment(pay, ALL_COLORS), c);
    EndTurnCards(Built(gs, i, city, pay), i, c);
  }

  // Handing out tickets moves no card.
  lemma TicketCards(gs: Game, i: nat, p: Player, c: Color)
    requires i < |gs.players| && p.hand == gs.players[i].hand
    ensures InHands(gs.players[i := p], c) == InHands(gs.players, c)
  {
    HandChange(gs.players, i, p, c);
  }

  lemma ReleasedCards(gs: Game, c: Color)
    requires c != Gray && (gs.tunnel.Some? ==> forall d :: Count(gs.tunnel.value.base, d) >= 0)
    ensures Cards(Released(gs), c) == Cards(gs, c)
  {
    if gs.tunnel.Some? {
      var t := gs.tunnel.value;
      LaidTimes(t.base, c);
      TimesConcat(LaidPayment(t.base, ALL_COLORS), t.revealed, c);
      DiscardAdds(gs.piles, LaidPayment(t.base, ALL_COLORS) + t.revealed, c);
    } else {
      DiscardAdds(gs.piles, [], c);
    }
  }

  lemma RetiredCards(gs: Game, i: nat, c: Color)
    requires i < |gs.players| && c != Gray
    ensures Cards(Retired(gs, i), c) == Cards(gs, c)
  {
    HandTimes(gs.players[i].hand, c);
    DiscardAdds(gs.piles, LaidHand(gs.players[i].hand, ALL_COLORS), c);
    HandChange(gs.players, i, gs.players[i].(hand := multiset{}, resigned := true), c);
  }

  lemma ResignCards(gs: Game, i: nat, after: Game, c: Color)
    requires Flow(gs) && i < |gs.players| && c != Gray && ApplyResign(gs, i) == Ok(after)
    ensures Cards(after, c) == Cards(gs, c)
  {
    ReleasedCards(gs, c);
    RetiredCards(Freed(gs, i), i, c);
    ResignMoves(gs, i, after);
  }

  lemma KeepCards(gs: Game, i: nat, keep: seq<TicketId>, after: Game, c: Color)
    requires i < |gs.players| && gs.tunnel.None? && gs.ticketDraw.Some? && ApplyTicketKeep(gs, i, keep) == Ok(after)
    ensures Cards(after, c) == Cards(gs, c)
  {
    TicketCards(gs, i, TicketsTo(gs.players, i, keep)[i], c);
    EndTurnCards(gs.(players := TicketsTo(gs.players, i, keep),
                     ticketDeck := gs.ticketDeck + Rejected(gs.ticketDraw.value, keep), ticketDraw := None), i, c);
  }

  lemma DecisionCards(m: Board, gs: Game, i: nat, kind: Kind, keep: seq<TicketId>, accept: bool, extra: Payment, handFirst: bool,
                      after: Game, c: Color)
    requires m.Valid() && Flow(gs) && gs.phase != Finished && i < |gs.players| && c != Gray
    requires ApplyDecision(m, gs, i, kind, keep, accept, extra, handFirst) == Ok(after)
    ensures Cards(after, c) == Cards(gs, c)
  {
    match gs.phase {
      case SetupTickets => TicketCards(gs, i, after.players[i], c);
      case AwaitTicketKeep => KeepCards(gs, i, keep, after, c);
      case AwaitTunnel => TunnelCards(m, gs, i, accept, extra, handFirst, after, c);
      case AwaitSecondDraw => EndTurnCards(gs.(drawing := None), i, c);
      case _ =>
    }
  }

  lemma TurnCardsKept(m: Board, gs: Game, i: nat, a: Action, sh: Shuffler, handFirst: bool, after: Game, c: Color)
    requires m.Valid() && Flow(gs) && Fair(sh) && i < |gs.players| && c != Gray
    requires gs.phase == Normal || (gs.phase == AwaitSecondDraw && a.DrawCard?)
    requires a.DrawCard? || a.ClaimRoute? || a.BuildStation?
    requires Dispatch(m, gs, i, a, sh, handFirst) == Ok(after)
    ensures Cards(after, c) == Cards(gs, c)
  {
    match a {
      case DrawCard(source) => DrawCards(gs, i, source, sh, after, c);
      case ClaimRoute(id, pay) => ClaimCards(m, gs, i, id, pay, sh, after, c);
      case BuildStation(city, pay) => StationCards(m, gs, i, city, pay, after, c);
    }
  }

  lemma OtherCardsKept(m: Board, gs: Game, i: nat, a: Action, sh: Shuffler, handFirst: bool, after: Game, c: Color)
    requires m.Valid() && Flow(gs) && Fair(sh) && i < |gs.players| && gs.phase != Finished && c != Gray
    requires a.DrawTickets? || a.ResolveDecision? || a.Resign?
    requires a.DrawTickets? ==> gs.phase == Normal
    requires Dispatch(m, gs, i, a, sh, handFirst) == Ok(after)
    ensures Cards(after, c) == Cards(gs, c)
  {
    match a {
      case DrawTickets => OfferedCards(gs, after, c);
      case ResolveDecision(kind, keep, accept, extra) => DecisionCards(m, gs, i, kind, keep, accept, extra, handFirst, after, c);
      case Resign => ResignCards(gs, i, after, c);
    }
  }

  lemma DispatchCards(m: Board, gs: Game, i: nat, a: Action, sh: Shuffler, handFirst: bool, after: Game, c: Color)
    requires m.Valid() && Flow(gs) && Fair(sh) && i < |gs.players| && Gate(gs, i, a).None? && c != Gray
    requires Dispatch(m, gs, i, a, sh, handFirst) == Ok(after)
    ensures Cards(after, c) == Cards(gs, c)
  {
    if a.DrawCard? || a.ClaimRoute? || a.BuildStation? {
      TurnCardsKept(m, gs, i, a, sh, handFirst, after, c);
    } else {
      OtherCardsKept(m, gs, i, a, sh, handFirst, after, c);
    }
  }

  // No action creates or destroys a train card.
  lemma StepKeepsCards(m: Board, gs: Game, user: nat, a: Action, sh: Shuffler, handFirst: bool, after: Game, c: Color)
    requires m.Valid() && Flow(gs) && Fair(sh) && c != Gray
    requires Apply(m, gs, user, a, sh, handFirst) == Ok(after)
    ensures Cards(after, c) == Cards(gs, c)
  {
    var i := OfUser(gs.players, user).value;
    DispatchCards(m, gs, i, a, sh, handFirst, Dispatch(m, gs, i, a, sh, handFirst).value, c);
  }

  // ---------------------------------------------------------------------
  // Tickets
  // ---------------------------------------------------------------------

  function KeptCounts(ps: seq<Player>, id: TicketId): (xs: seq<int>)
    ensures |xs| == |ps| && forall i :: 0 <= i < |ps| ==> xs[i] == Times(ps[i].tickets, id)
  {
    seq(|ps|, i requires 0 <= i < |ps| => Times(ps[i].tickets, id))
  }

  function OfferCounts(ps: seq<Player>, id: TicketId): (xs: seq<int>)
    ensures |xs| == |ps| && forall i :: 0 <= i < |ps| ==> xs[i] == Times(ps[i].offer, id)
  {
    seq(|ps|, i requires 0 <= i < |ps| => Times(ps[i].offer, id))
  }

  // Places of a ticket in play: the deck, a parked ticket draw, somebody's
  // kept tickets.
  function InCustody(gs: Game, id: TicketId): int {
    Times(gs.ticketDeck, id) + (match gs.ticketDraw case None => 0 case Some(offered) => Times(offered, id))
    + Sum(KeptCounts(gs.players, id))
  }

  // And the tickets on offer during setup.
  function OnOffer(gs: Game, id: TicketId): int { Sum(OfferCounts(gs.players, id)) }

  ghost predicate NoTicketTwice(gs: Game) {
    forall id :: InCustody(gs, id) + OnOffer(gs, id) <= 1
  }

  ghost predicate SameTickets(a: seq<Player>, b: seq<Player>) {
    |a| == |b| && forall i :: 0 <= i < |a| ==> b[i].tickets == a[i].tickets && b[i].offer == a[i].offer
  }

  // A change that leaves all tickets where they are.
  lemma TicketsStay(gs: Game, after: Game, id: TicketId)
    requires SameTickets(gs.players, after.players) && after.ticketDeck == gs.ticketDeck && after.ticketDraw == gs.ticketDraw
    ensures InCustody(after, id) == InCustody(gs, id) && OnOffer(after, id) == OnOffer(gs, id)
  {
    assert KeptCounts(after.players, id) == KeptCounts(gs.players, id);
    assert OfferCounts(after.players, id) == OfferCounts(gs.players, id);
  }

  lemma {:induction false} RejectedTimes(offered: seq<TicketId>, keep: seq<TicketId>, id: TicketId)
    ensures Times(Rejected(offered, keep), id) == if id in keep then 0 else Times(offered, id)
  {
    if offered != [] {
      RejectedTimes(offered[1..], keep, id);
      TimesConcat(if offered[0] in keep then [] else [offered[0]], Rejected(offered[1..], keep), id);
    }
  }

  lemma {:induction false} KeptTimes(offered: seq<TicketId>, keep: seq<TicketId>, least: nat, id: TicketId)
    requires Keepable(offered, keep, least) && Times(offered, id) <= 1
    ensures Times(keep, id) + Times(Rejected(offered, keep), id) == Times(offered, id)
  {
    TimesDistinct(keep, id);
    TimesMember(offered, id);
    RejectedTimes(offered, keep, id);
  }

  lemma {:induction false} KeptChange(ps: seq<Player>, i: nat, p: Player, id: TicketId)
    requires i < |ps|
    ensures Sum(KeptCounts(ps[i := p], id)) == Sum(KeptCounts(ps, id)) - Times(ps[i].tickets, id) + Times(p.tickets, id)
    ensures Sum(OfferCounts(ps[i := p], id)) == Sum(OfferCounts(ps, id)) - Times(ps[i].offer, id) + Times(p.offer, id)
  {
    SumUpdate(KeptCounts(ps, id), i, Times(p.tickets, id));
    assert KeptCounts(ps[i := p], id) == KeptCounts(ps, id)[i := Times(p.tickets, id)];
    SumUpdate(OfferCounts(ps, id), i, Times(p.offer, id));
    assert OfferCounts(ps[i := p], id) == OfferCounts(ps, id)[i := Times(p.offer, id)];
  }

  lemma TicketKeepCustody(gs: Game, i: nat, keep: seq<TicketId>, after: Game, id: TicketId)
    requires i < |gs.players| && NoTicketTwice(gs) && ApplyTicketKeep(gs, i, keep) == Ok(after)
    ensures InCustody(after, id) == InCustody(gs, id) && OnOffer(after, id) == OnOffer(gs, id)
  {
    var offered := gs.ticketDraw.value;
    SumNonNegative(KeptCounts(gs.players, id));
    SumNonNegative(OfferCounts(gs.players, id));
    assert InCustody(gs, id) + OnOffer(gs, id) <= 1;
    KeptTimes(offered, keep, MIN_TICKETS_KEPT_IN_GAME, id);
    KeptChange(gs.players, i, TicketsTo(gs.players, i, keep)[i], id);
    TimesConcat(gs.players[i].tickets, keep, id);
    TimesConcat(gs.ticketDeck, Rejected(offered, keep), id);
  }

  // Rejected setup tickets leave the game, and nothing else does.
  lemma {:induction false} SetupCustody(gs: Game, i: nat, keep: seq<TicketId>, after: Game, id: TicketId)
    requires i < |gs.players| && NoTicketTwice(gs) && ApplySetupKeep(gs, i, keep) == Ok(after)
    ensures InCustody(after, id) == InCustody(gs, id) + Times(keep, id)
    ensures OnOffer(after, id) == OnOffer(gs, id) - Times(gs.players[i].offer, id)
    ensures Times(keep, id) <= Times(gs.players[i].offer, id)
  {
    var p := gs.players[i];
    KeptChange(gs.players, i, after.players[i], id);
    TimesConcat(p.tickets, keep, id);
    TimesDistinct(keep, id);
    TimesMember(p.offer, id);
  }

  lemma DrawTicketsCustody(gs: Game, after: Game, id: TicketId)
    requires gs.ticketDraw.None? && ApplyDrawTickets(gs) == Ok(after)
    ensures InCustody(after, id) == InCustody(gs, id) && OnOffer(after, id) == OnOffer(gs, id)
  {
    var n := |after.ticketDraw.value|;
    assert gs.ticketDeck == gs.ticketDeck[..n] + gs.ticketDeck[n..];
    TimesConcat(gs.ticketDeck[..n], gs.ticketDeck[n..], id);
  }

  lemma FreedCustody(gs: Game, i: nat, id: TicketId)
    requires i < |gs.players|
    ensures InCustody(Freed(gs, i), id) == InCustody(gs, id) && Freed(gs, i).players == gs.players
  {
    if gs.ticketDraw.Some? { TimesConcat(gs.ticketDeck, gs.ticketDraw.value, id); }
    assert gs.ticketDeck + [] == gs.ticketDeck;
  }

  lemma ResignCustody(gs: Game, i: nat, after: Game, id: TicketId)
    requires i < |gs.players| && ApplyResign(gs, i) == Ok(after)
    ensures InCustody(after, id) == InCustody(gs, id) && OnOffer(after, id) == OnOffer(gs, id)
  {
    FreedCustody(gs, i, id);
    ResignMoves(gs, i, after);
    TicketsStay(Freed(gs, i), after, id);
  }

  // Nothing in this action concerns tickets.
  ghost predicate NoTickets(gs: Game, after: Game) {
    SameTickets(gs.players, after.players) && after.ticketDeck == gs.ticketDeck && after.ticketDraw == gs.ticketDraw
  }

  lemma DrawnNoTickets(gs: Game, i: nat, card: Color, piles: Piles, over: bool)
    requires i < |gs.players| && gs.ticketDraw.None?
    ensures NoTickets(gs, Drawn(gs, i, card, piles, over))
  {
  }

  lemma DrawNoTickets(gs: Game, i: nat, source: Source, sh: Shuffler, after: Game)
    requires i < |gs.players| && gs.ticketDraw.None? && ApplyDrawCard(gs, i, source, sh) == Ok(after)
    ensures NoTickets(gs, after)
  {
    var isSecond := gs.drawing.Some? && gs.drawing.value.cardsTaken > 0;
    match source {
      case Deck => DrawnNoTickets(gs, i, Popped(gs.piles, sh).card.value, Popped(gs.piles, sh).piles, isSecond);
      case FaceUpSlot(slot) =>
        var card := gs.piles.faceUp[slot];
        DrawnNoTickets(gs, i, card, TakenFaceUp(gs.piles, slot, sh), isSecond || card == Loco);
    }
  }

  lemma FinishNoTickets(gs: Game, i: nat, r: Route, pay: Payment)
    requires i < |gs.players| && PointsForLength(r.length).Some? && gs.ticketDraw.None?
    ensures NoTickets(gs, EndTurn(FinishClaim(gs, i, r, pay), i))
  {
  }

  lemma TurnedNoTickets(gs: Game, i: nat, r: Route, pay: Payment, color: Color, turned: Reveal)
    requires i < |gs.players| && PointsForLength(r.length).Some? && gs.ticketDraw.None?
    ensures NoTickets(gs, TunnelTurned(gs, i, r, pay, color, turned))
  {
    FinishNoTickets(gs.(piles := Discarded(turned.piles, turned.cards)), i, r, pay);
  }

  lemma ClaimNoTickets(m: Board, gs: Game, i: nat, id: RouteId, pay: Payment, sh: Shuffler, after: Game)
    requires m.Valid() && i < |gs.players| && gs.ticketDraw.None? && ApplyClaimRoute(m, gs, i, id, pay, sh) == Ok(after)
    ensures NoTickets(gs, after)
  {
    var r := m.routeById[id];
    var paid := gs.(players := HandTo(gs.players, i, Debited(gs.players[i].hand, pay)));
    if r.tunnel {
      TurnedNoTickets(paid, i, r, pay, Declared(pay), Revealed(paid.piles, TUNNEL_REVEAL_COUNT, sh));
    } else {
      FinishNoTickets(paid, i, r, pay);
    }
  }

  lemma StationNoTickets(m: Board, gs: Game, i: nat, city: City, pay: Payment, after: Game)
    requires i < |gs.players| && gs.ticketDraw.None? && ApplyBuildStation(m, gs, i, city, pay) == Ok(after)
    ensures NoTickets(gs, after)
  {
  }

  lemma RefundedNoTickets(gs: Game, i: nat, t: Tunnel)
    requires i < |gs.players| && gs.ticketDraw.None?
    ensures NoTickets(gs, Refunded(gs, i, t))
  {
  }

  lemma AcceptedNoTickets(gs: Game, i: nat, r: Route, t: Tunnel, extra: Payment)
    requires i < |gs.players| && gs.ticketDraw.None? && PointsForLength(r.length).Some?
    ensures NoTickets(gs, Accepted(gs, i, r, t, extra))
  {
    FinishNoTickets(Surcharged(gs, i, t, extra), i, r, Merged(t.base, extra));
  }

  lemma TunnelNoTickets(m: Board, gs: Game, i: nat, accept: bool, extra: Payment, handFirst: bool, after: Game)
    requires m.Valid() && i < |gs.players| && gs.ticketDraw.None?
    requires ApplyTunnelDecision(m, gs, i, accept, extra, handFirst) == Ok(after)
    ensures NoTickets(gs, after)
  {
    var t := gs.tunnel.value;
    RefundedNoTickets(gs, i, t);
    if t.route in m.routeById {
      AcceptedNoTickets(gs, i, m.routeById[t.route], t, extra);
    }
  }

  lemma DecisionCustody(m: Board, gs: Game, i: nat, kind: Kind, keep: seq<TicketId>, accept: bool, extra: Payment, handFirst: bool,
                        after: Game, id: TicketId)
    requires m.Valid() && Flow(gs) && NoTicketTwice(gs) && gs.phase != Finished && gs.phase != SetupTickets && i < |gs.players|
    requires ApplyDecision(m, gs, i, kind, keep, accept, extra, handFirst) == Ok(after)
    ensures InCustody(after, id) == InCustody(gs, id) && OnOffer(after, id) == OnOffer(gs, id)
  {
    if gs.phase == AwaitTicketKeep {
      TicketKeepCustody(gs, i, keep, after, id);
    } else {
      if gs.phase == AwaitTunnel {
        TunnelNoTickets(m, gs, i, accept, extra, handFirst, after);
      }
      TicketsStay(gs, after, id);
    }
  }

  lemma TurnNoTickets(m: Board, gs: Game, i: nat, a: Action, sh: Shuffler, handFirst: bool, after: Game)
    requires m.Valid() && i < |gs.players| && gs.ticketDraw.None?
    requires a.DrawCard? || a.ClaimRoute? || a.BuildStation?
    requires Dispatch(m, gs, i, a, sh, handFirst) == Ok(after)
    ensures NoTickets(gs, after)
  {
    match a {
      case DrawCard(source) => DrawNoTickets(gs, i, source, sh, after);
      case ClaimRoute(route, pay) => ClaimNoTickets(m, gs, i, route, pay, sh, after);
      case BuildStation(city, pay) => StationNoTickets(m, gs, i, city, pay, after);
    }
  }

  lemma DispatchCustody(m: Board, gs: Game, i: nat, a: Action, sh: Shuffler, handFirst: bool, after: Game, id: TicketId)
    requires m.Valid() && Flow(gs) && NoTicketTwice(gs) && gs.phase != SetupTickets && i < |gs.players| && Gate(gs, i, a).None?
    requires Dispatch(m, gs, i, a, sh, handFirst) == Ok(after)
    ensures InCustody(after, id) == InCustody(gs, id) && OnOffer(after, id) == OnOffer(gs, id)
  {
    match a {
      case DrawTickets => DrawTicketsCustody(gs, after, id);
      case ResolveDecision(kind, keep, accept, extra) => DecisionCustody(m, gs, i, kind, keep, accept, extra, handFirst, after, id);
      case Resign => ResignCustody(gs, i, after, id);
      case _ => TurnCustody(m, gs, i, a, sh, handFirst, after, id);
    }
  }

  lemma TurnCustody(m: Board, gs: Game, i: nat, a: Action, sh: Shuffler, handFirst: bool, after: Game, id: TicketId)
    requires m.Valid() && Flow(gs) && gs.phase != SetupTickets && i < |gs.players| && Gate(gs, i, a).None?
    requires (a.DrawCard? || a.ClaimRoute? || a.BuildStation?) && Dispatch(m, gs, i, a, sh, handFirst) == Ok(after)
    ensures InCustody(after, id) == InCustody(gs, id) && OnOffer(after, id) == OnOffer(gs, id)
  {
    TurnNoTickets(m, gs, i, a, sh, handFirst, after);
    TicketsStay(gs, after, id);
  }

  // Once play has left setup, no ticket enters or leaves the game, whoever
  // resigns.
  lemma StepKeepsTickets(m: Board, gs: Game, user: nat, a: Action, sh: Shuffler, handFirst: bool, after: Game, id: TicketId)
    requires m.Valid() && Flow(gs) && NoTicketTwice(gs) && gs.phase != SetupTickets
    requires Apply(m, gs, user, a, sh, handFirst) == Ok(after)
    ensures InCustody(after, id) == InCustody(gs, id) && OnOffer(after, id) == OnOffer(gs, id)
  {
    var i := OfUser(gs.players, user).value;
    DispatchCustody(m, gs, i, a, sh, handFirst, Dispatch(m, gs, i, a, sh, handFirst).value, id);
  }

  lemma SetupStepCustody(m: Board, gs: Game, user: nat, a: Action, sh: Shuffler, handFirst: bool, after: Game, id: TicketId)
    requires m.Valid() && NoTicketTwice(gs) && gs.phase == SetupTickets
    requires Apply(m, gs, user, a, sh, handFirst) == Ok(after)
    ensures InCustody(after, id) + OnOffer(after, id) <= InCustody(gs, id) + OnOffer(gs, id)
  {
    var i := OfUser(gs.players, user).value;
    var stepped := Dispatch(m, gs, i, a, sh, handFirst).value;
    SetupDispatchCustody(m, gs, i, a, sh, handFirst, stepped, id);
  }

  lemma SetupDispatchCustody(m: Board, gs: Game, i: nat, a: Action, sh: Shuffler, handFirst: bool, after: Game, id: TicketId)
    requires m.Valid() && NoTicketTwice(gs) && gs.phase == SetupTickets && i < |gs.players| && Gate(gs, i, a).None?
    requires Dispatch(m, gs, i, a, sh, handFirst) == Ok(after)
    ensures InCustody(after, id) + OnOffer(after, id) <= InCustody(gs, id) + OnOffer(gs, id)
  {
    if a.Resign? {
      ResignCustody(gs, i, after, id);
    } else {
      SetupCustody(gs, i, a.keep, after, id);
    }
  }

  // In no reachable state is a ticket in two places.
  lemma StepTicketOnce(m: Board, gs: Game, user: nat, a: Action, sh: Shuffler, handFirst: bool, after: Game)
    requires m.Valid() && Flow(gs) && NoTicketTwice(gs)
    requires Apply(m, gs, user, a, sh, handFirst) == Ok(after)
    ensures NoTicketTwice(after)
  {
    forall id
      ensures InCustody(after, id) + OnOffer(after, id) <= 1
    {
      assert InCustody(gs, id) + OnOffer(gs, id) <= 1;
      if gs.phase == SetupTickets {
        SetupStepCustody(m, gs, user, a, sh, handFirst, after, id);
      } else {
        StepKeepsTickets(m, gs, user, a, sh, handFirst, after, id);
      }
    }
  }
}
