// The board ledger: routes, stations, trains, points.
module TtrLedger {
  // Who owns what, and which siblings of double routes are closed.
  import opened Wrappers
  import opened TtrBoard
  import opened TtrPayment
  import opened TtrCards
  import opened TtrGame
  import opened TtrRules
  import opened TtrFlow

  // ---------------------------------------------------------------------
  // The ledger
  // ---------------------------------------------------------------------

  function LengthOf(m: Board, ids: seq<RouteId>): int {
    if ids == [] then 0
    else
      var n := |ids| - 1;
      LengthOf(m, ids[..n]) + if ids[n] in m.routeById then m.routeById[ids[n]].length else 0
  }

  // The points of the routes, computed afresh from the board.
  function PointsOf(m: Board, ids: seq<RouteId>): int {
    if ids == [] then 0
    else
      var n := |ids| - 1;
      PointsOf(m, ids[..n]) +
      if ids[n] in m.routeById && PointsForLength(m.routeById[ids[n]].length).Some?
      then PointsForLength(m.routeById[ids[n]].length).value else 0
  }

  predicate IsSibling(m: Board, id: RouteId, other: RouteId) {
    id in m.routeById && m.routeById[id].pair == Some(other)
  }

  // One player's books: trains, points, stations, and never both halves of a
  // double route.
  ghost predicate PlayerLedger(m: Board, p: Player) {
    && p.trainsLeft >= 0 && p.trainsLeft + LengthOf(m, p.claimed) == m.trainsPerPlayer
    && p.routeScore == PointsOf(m, p.claimed)
    && p.stationsLeft >= 0 && p.stationsLeft + |p.stations| == m.stationsPerPlayer
    && (forall id :: id in p.claimed ==> id in m.routeById)
    && (forall id, other :: id in p.claimed && IsSibling(m, id, other) ==> other !in p.claimed)
    && (forall j, k :: 0 <= j < k < |p.claimed| ==> p.claimed[j] != p.claimed[k])
  }

  ghost predicate HasRoute(p: Player, id: RouteId) { id in p.claimed }
  ghost predicate HasStation(p: Player, c: City) { c in p.stations }

  // The owner map and the players' lists say the same.
  ghost predicate RoutesOwned(ps: seq<Player>, owner: map<RouteId, int>) {
    && (forall i, id {:trigger HasRoute(ps[i], id)} :: 0 <= i < |ps| && HasRoute(ps[i], id) ==> id in owner && owner[id] == ps[i].seat)
    && (forall id :: id in owner ==> exists i :: 0 <= i < |ps| && HasRoute(ps[i], id))
  }

  ghost predicate StationsOwned(ps: seq<Player>, owner: map<City, int>) {
    && (forall i, c {:trigger HasStation(ps[i], c)} :: 0 <= i < |ps| && HasStation(ps[i], c) ==> c in owner && owner[c] == ps[i].seat)
    && (forall c :: c in owner ==> exists i :: 0 <= i < |ps| && HasStation(ps[i], c))
  }

  ghost predicate SiblingClaimed(m: Board, gs: Game, id: RouteId) {
    exists o :: o in gs.routeOwner && IsSibling(m, o, id)
  }

  // With two or three players the closed routes are exactly the unowned
  // siblings of claimed routes; with more, none is closed.
  ghost predicate ClosedOk(m: Board, gs: Game) {
    && (|gs.players| > 3 ==> gs.closed == [])
    && (|gs.players| <= 3 ==> forall id :: id in gs.closed <==> SiblingClaimed(m, gs, id))
    && (forall id :: id in gs.closed ==> id !in gs.routeOwner)
  }

  ghost predicate Ledger(m: Board, gs: Game) {
    && (forall i {:trigger PlayerLedger(m, gs.players[i])} :: 0 <= i < |gs.players| ==> PlayerLedger(m, gs.players[i]))
    && RoutesOwned(gs.players, gs.routeOwner) && StationsOwned(gs.players, gs.stationOwner) && ClosedOk(m, gs)
  }

  // A parked tunnel route can still be claimed by the player it is parked for.
  ghost predicate TunnelOpen(m: Board, gs: Game) {
    gs.phase == AwaitTunnel && gs.tunnel.Some? ==>
      && gs.tunnel.value.route in m.routeById && m.routeById[gs.tunnel.value.route].tunnel
      && forall i :: 0 <= i < |gs.players| && gs.players[i].seat == gs.currentSeat ==>
           Claimable(gs, i, m.routeById[gs.tunnel.value.route])
  }

  // ---------------------------------------------------------------------
  // Changes that do not concern the ledger
  // ---------------------------------------------------------------------

  ghost predicate SameBooks(p: Player, q: Player) {
    && q.seat == p.seat && q.trainsLeft == p.trainsLeft && q.stationsLeft == p.stationsLeft
    && q.routeScore == p.routeScore && q.claimed == p.claimed && q.stations == p.stations
  }

  ghost predicate SameLedger(gs: Game, after: Game) {
    && after.routeOwner == gs.routeOwner && after.stationOwner == gs.stationOwner && after.closed == gs.closed
    && |after.players| == |gs.players|
    && forall i {:trigger SameBooks(gs.players[i], after.players[i])} :: 0 <= i < |gs.players| ==> SameBooks(gs.players[i], after.players[i])
  }

  lemma LedgerStays(m: Board, gs: Game, after: Game)
    requires Ledger(m, gs) && SameLedger(gs, after)
    ensures Ledger(m, after)
  {
    forall i | 0 <= i < |after.players|
      ensures PlayerLedger(m, after.players[i])
    {
      assert SameBooks(gs.players[i], after.players[i]);
      assert PlayerLedger(m, gs.players[i]);
    }
    forall i | 0 <= i < |after.players|
      ensures SameBooks(gs.players[i], after.players[i])
    {
    }
    RoutesStay(gs.players, after.players, gs.routeOwner);
    StationsStay(gs.players, after.players, gs.stationOwner);
    ClosedStays(m, gs, after);
  }

  lemma RoutesStay(a: seq<Player>, b: seq<Player>, owner: map<RouteId, int>)
    requires RoutesOwned(a, owner) && |a| == |b|
    requires forall i :: 0 <= i < |a| ==> b[i].seat == a[i].seat && b[i].claimed == a[i].claimed
    ensures RoutesOwned(b, owner)
  {
    forall i, id | 0 <= i < |b|
      ensures HasRoute(b[i], id) <==> HasRoute(a[i], id)
    {
    }
  }

  lemma StationsStay(a: seq<Player>, b: seq<Player>, owner: map<City, int>)
    requires StationsOwned(a, owner) && |a| == |b|
    requires forall i :: 0 <= i < |a| ==> b[i].seat == a[i].seat && b[i].stations == a[i].stations
    ensures StationsOwned(b, owner)
  {
    forall i, c | 0 <= i < |b|
      ensures HasStation(b[i], c) <==> HasStation(a[i], c)
    {
    }
  }

  lemma ClosedStays(m: Board, gs: Game, after: Game)
    requires ClosedOk(m, gs) && after.routeOwner == gs.routeOwner && after.closed == gs.closed && |after.players| == |gs.players|
    ensures ClosedOk(m, after)
  {
    forall id
      ensures SiblingClaimed(m, after, id) <==> SiblingClaimed(m, gs, id)
    {
    }
  }

  // ---------------------------------------------------------------------
  // A claim
  // ---------------------------------------------------------------------

  lemma ClaimedBooks(m: Board, gs: Game, i: nat, r: Route, p: Player)
    requires m.Valid() && Ledger(m, gs) && i < |gs.players| && r.id in m.routeById && m.routeById[r.id] == r
    requires Claimable(gs, i, r)
    requires p == gs.players[i].(trainsLeft := gs.players[i].trainsLeft - r.length,
                                 routeScore := gs.players[i].routeScore + PointsForLength(r.length).value,
                                 claimed := gs.players[i].claimed + [r.id], hand := p.hand)
    ensures PlayerLedger(m, p)
  {
    var before := gs.players[i];
    assert PlayerLedger(m, before);
    assert p.claimed[..|before.claimed|] == before.claimed;
    assert !HasRoute(before, r.id);
    forall id, other | id in p.claimed && IsSibling(m, id, other)
      ensures other !in p.claimed
    {
      assert m.ValidPair(id, other);
      assert IsSibling(m, other, id);
    }
  }

  lemma ClaimedOwners(a: seq<Player>, b: seq<Player>, owner: map<RouteId, int>, i: nat, id: RouteId)
    requires RoutesOwned(a, owner) && i < |a| == |b| && id !in owner
    requires forall k :: 0 <= k < |a| ==> b[k].seat == a[k].seat && b[k].claimed == if k == i then a[k].claimed + [id] else a[k].claimed
    ensures RoutesOwned(b, owner[id := a[i].seat])
  {
    forall k, x | 0 <= k < |b|
      ensures HasRoute(b[k], x) <==> HasRoute(a[k], x) || (k == i && x == id)
    {
    }
    assert HasRoute(b[i], id);
  }

  lemma ClaimedClosed(m: Board, gs: Game, r: Route, after: Game, seat: int)
    requires m.Valid() && ClosedOk(m, gs) && r.id in m.routeById && m.routeById[r.id] == r
    requires r.id !in gs.routeOwner && r.id !in gs.closed
    requires |after.players| == |gs.players| && after.routeOwner == gs.routeOwner[r.id := seat]
    requires after.closed == if |gs.players| <= 3 && r.pair.Some? then gs.closed + [r.pair.value] else gs.closed
    ensures ClosedOk(m, after)
  {
    forall id
      ensures SiblingClaimed(m, after, id) <==> SiblingClaimed(m, gs, id) || r.pair == Some(id)
    {
      if SiblingClaimed(m, gs, id) {
        var o :| o in gs.routeOwner && IsSibling(m, o, id);
        assert o in after.routeOwner;
      }
      if r.pair == Some(id) {
        assert r.id in after.routeOwner && IsSibling(m, r.id, id);
      }
    }
    if |gs.players| <= 3 && r.pair.Some? {
      var other := r.pair.value;
      assert m.ValidPair(r.id, other);
      assert other in gs.routeOwner ==> IsSibling(m, other, r.id) && SiblingClaimed(m, gs, r.id);
    }
  }

  // A claimable route can be claimed: the ledger stays right.
  lemma ClaimKeepsLedger(m: Board, gs: Game, i: nat, r: Route, pay: Payment)
    requires m.Valid() && SeatsOk(gs.players) && Ledger(m, gs) && i < |gs.players|
    requires r.id in m.routeById && m.routeById[r.id] == r && Claimable(gs, i, r)
    ensures Ledger(m, FinishClaim(gs, i, r, pay))
  {
    var after := FinishClaim(gs, i, r, pay);
    ClaimedBooks(m, gs, i, r, after.players[i]);
    forall k | 0 <= k < |after.players|
      ensures PlayerLedger(m, after.players[k])
    {
      assert PlayerLedger(m, gs.players[k]);
    }
    ClaimedOwners(gs.players, after.players, gs.routeOwner, i, r.id);
    StationsStay(gs.players, after.players, gs.stationOwner);
    ClaimedClosed(m, gs, r, after, gs.players[i].seat);
  }

  // ---------------------------------------------------------------------
  // Each action
  // ---------------------------------------------------------------------

  lemma EndTurnLedger(m: Board, gs: Game, i: nat)
    requires i < |gs.players| && Ledger(m, gs)
    ensures Ledger(m, EndTurn(gs, i)) && TunnelOpen(m, EndTurn(gs, i))
  {
    LedgerStays(m, gs, EndTurn(gs, i));
  }

  // A claim after its payment has been taken from the hand.
  lemma PaidClaim(m: Board, gs: Game, i: nat, hand: Hand, piles: Piles, r: Route, pay: Payment)
    requires m.Valid() && SeatsOk(gs.players) && Ledger(m, gs) && i < |gs.players|
    requires r.id in m.routeById && m.routeById[r.id] == r && Claimable(gs, i, r)
    ensures var paid := gs.(players := HandTo(gs.players, i, hand), piles := piles, tunnel := None);
            var after := EndTurn(FinishClaim(paid, i, r, pay), i);
            Ledger(m, after) && TunnelOpen(m, after)
  {
    var paid := gs.(players := HandTo(gs.players, i, hand), piles := piles, tunnel := None);
    LedgerStays(m, gs, paid);
    StandingKeeps(gs.players, paid.players);
    ClaimKeepsLedger(m, paid, i, r, pay);
    EndTurnLedger(m, FinishClaim(paid, i, r, pay), i);
  }

  lemma ParkedTunnel(m: Board, gs: Game, i: nat, hand: Hand, r: Route, after: Game)
    requires SeatsOk(gs.players) && Ledger(m, gs) && i < |gs.players| && gs.players[i].seat == gs.currentSeat
    requires r.id in m.routeById && m.routeById[r.id] == r && r.tunnel && Claimable(gs, i, r)
    requires after == gs.(players := HandTo(gs.players, i, hand), piles := after.piles, tunnel := after.tunnel, phase := AwaitTunnel)
    requires after.tunnel.Some? && after.tunnel.value.route == r.id
    ensures Ledger(m, after) && TunnelOpen(m, after)
  {
    LedgerStays(m, gs, after);
    forall k | 0 <= k < |after.players| && after.players[k].seat == after.currentSeat
      ensures Claimable(after, k, r)
    {
      assert k < i ==> Apart(gs.players[k], gs.players[i]);
      assert i < k ==> Apart(gs.players[i], gs.players[k]);
    }
  }

  lemma ClaimLedger(m: Board, gs: Game, i: nat, id: RouteId, pay: Payment, sh: Shuffler, after: Game)
    requires m.Valid() && SeatsOk(gs.players) && Ledger(m, gs) && i < |gs.players| && gs.players[i].seat == gs.currentSeat
    requires gs.tunnel.None? && ApplyClaimRoute(m, gs, i, id, pay, sh) == Ok(after)
    ensures Ledger(m, after) && TunnelOpen(m, after)
  {
    var r := m.routeById[id];
    var hand := Debited(gs.players[i].hand, pay);
    if !r.tunnel {
      PaidClaim(m, gs, i, hand, gs.piles, r, pay);
    } else {
      var turned := Revealed(gs.piles, TUNNEL_REVEAL_COUNT, sh);
      if Matches(turned.cards, Declared(pay)) == 0 {
        PaidClaim(m, gs, i, hand, Discarded(turned.piles, turned.cards), r, pay);
      } else {
        ParkedTunnel(m, gs, i, hand, r, after);
      }
    }
  }

  lemma RefundedLedger(m: Board, gs: Game, i: nat, t: Tunnel)
    requires Ledger(m, gs) && i < |gs.players|
    ensures Ledger(m, Refunded(gs, i, t)) && TunnelOpen(m, Refunded(gs, i, t))
  {
    LedgerStays(m, gs, Repaid(gs, i, t));
    EndTurnLedger(m, Repaid(gs, i, t), i);
  }

  lemma TunnelLedger(m: Board, gs: Game, i: nat, accept: bool, extra: Payment, handFirst: bool, after: Game)
    requires m.Valid() && SeatsOk(gs.players) && Ledger(m, gs) && TunnelOpen(m, gs)
    requires gs.phase == AwaitTunnel && i < |gs.players| && gs.players[i].seat == gs.currentSeat
    requires ApplyTunnelDecision(m, gs, i, accept, extra, handFirst) == Ok(after)
    ensures Ledger(m, after) && TunnelOpen(m, after)
  {
    var t := gs.tunnel.value;
    RefundedLedger(m, gs, i, t);
    if after != Refunded(gs, i, t) {
      PaidClaim(m, gs, i, Debited(gs.players[i].hand, extra), Discarded(gs.piles, t.revealed), m.routeById[t.route], Merged(t.base, extra));
    }
  }

  lemma StationOwners(a: seq<Player>, b: seq<Player>, owner: map<City, int>, i: nat, city: City)
    requires StationsOwned(a, owner) && i < |a| == |b| && city !in owner
    requires forall k :: 0 <= k < |a| ==> b[k].seat == a[k].seat && b[k].stations == if k == i then a[k].stations + [city] else a[k].stations
    ensures StationsOwned(b, owner[city := a[i].seat])
  {
    forall k, c | 0 <= k < |b|
      ensures HasStation(b[k], c) <==> HasStation(a[k], c) || (k == i && c == city)
    {
    }
    assert HasStation(b[i], city);
  }

  lemma StationLedger(m: Board, gs: Game, i: nat, city: City, pay: Payment, after: Game)
    requires Ledger(m, gs) && i < |gs.players| && ApplyBuildStation(m, gs, i, city, pay) == Ok(after)
    ensures Ledger(m, after) && TunnelOpen(m, after)
  {
    var built := Built(gs, i, city, pay);
    forall k | 0 <= k < |built.players|
      ensures PlayerLedger(m, built.players[k])
    {
      assert PlayerLedger(m, gs.players[k]);
    }
    StationOwners(gs.players, built.players, gs.stationOwner, i, city);
    RoutesStay(gs.players, built.players, gs.routeOwner);
    ClosedStays(m, gs, built);
    EndTurnLedger(m, built, i);
  }

  // Draws and tickets leave the ledger alone; the parked tunnel is gone or
  // there is none.
  lemma QuietLedger(m: Board, gs: Game, after: Game)
    requires Ledger(m, gs) && SameLedger(gs, after) && after.phase != AwaitTunnel
    ensures Ledger(m, after) && TunnelOpen(m, after)
  {
    LedgerStays(m, gs, after);
  }

  lemma DrawnLedger(m: Board, gs: Game, i: nat, card: Color, piles: Piles, over: bool)
    requires Ledger(m, gs) && i < |gs.players|
    ensures Ledger(m, Drawn(gs, i, card, piles, over)) && TunnelOpen(m, Drawn(gs, i, card, piles, over))
  {
    LedgerStays(m, gs, Dealt(gs, i, card, piles));
    if over {
      EndTurnLedger(m, Dealt(gs, i, card, piles), i);
    } else {
      QuietLedger(m, Dealt(gs, i, card, piles), Drawn(gs, i, card, piles, over));
    }
  }

  lemma DrawLedger(m: Board, gs: Game, i: nat, source: Source, sh: Shuffler, after: Game)
    requires Ledger(m, gs) && i < |gs.players| && ApplyDrawCard(gs, i, source, sh) == Ok(after)
    ensures Ledger(m, after) && TunnelOpen(m, after)
  {
    var isSecond := gs.drawing.Some? && gs.drawing.value.cardsTaken > 0;
    match source {
      case Deck =>
        var pop := Popped(gs.piles, sh);
        DrawnLedger(m, gs, i, pop.card.value, pop.piles, isSecond);
      case FaceUpSlot(slot) =>
        var card := gs.piles.faceUp[slot];
        DrawnLedger(m, gs, i, card, TakenFaceUp(gs.piles, slot, sh), isSecond || card == Loco);
    }
  }

  // An opponent's resignation does not touch a parked tunnel; a resignation in
  // turn gives it up.
  lemma ResignLedger(m: Board, gs: Game, i: nat, after: Game)
    requires Flow(gs) && Ledger(m, gs) && TunnelOpen(m, gs) && i < |gs.players| && ApplyResign(gs, i) == Ok(after)
    ensures Ledger(m, after) && TunnelOpen(m, after)
  {
    ResignMoves(gs, i, after);
    LedgerStays(m, gs, after);
    CurrentIs(gs, i);
  }

  lemma TicketKeepLedger(m: Board, gs: Game, i: nat, keep: seq<TicketId>, after: Game)
    requires Ledger(m, gs) && i < |gs.players| && ApplyTicketKeep(gs, i, keep) == Ok(after)
    ensures Ledger(m, after) && TunnelOpen(m, after)
  {
    var kept := gs.(players := TicketsTo(gs.players, i, keep),
                    ticketDeck := gs.ticketDeck + Rejected(gs.ticketDraw.value, keep), ticketDraw := None);
    LedgerStays(m, gs, kept);
    EndTurnLedger(m, kept, i);
  }

  lemma SetupLedger(m: Board, gs: Game, i: nat, keep: seq<TicketId>, after: Game)
    requires Ledger(m, gs) && gs.phase == SetupTickets && i < |gs.players| && ApplySetupKeep(gs, i, keep) == Ok(after)
    ensures Ledger(m, after) && TunnelOpen(m, after)
  {
    QuietLedger(m, gs, after);
  }

  lemma DecisionLedger(m: Board, gs: Game, i: nat, kind: Kind, keep: seq<TicketId>, accept: bool, extra: Payment, handFirst: bool, after: Game)
    requires m.Valid() && SeatsOk(gs.players) && Ledger(m, gs) && TunnelOpen(m, gs) && i < |gs.players|
    requires gs.phase == AwaitTunnel ==> gs.players[i].seat == gs.currentSeat
    requires ApplyDecision(m, gs, i, kind, keep, accept, extra, handFirst) == Ok(after)
    ensures Ledger(m, after) && TunnelOpen(m, after)
  {
    match gs.phase {
      case SetupTickets => SetupLedger(m, gs, i, keep, after);
      case AwaitTicketKeep => TicketKeepLedger(m, gs, i, keep, after);
      case AwaitTunnel => TunnelLedger(m, gs, i, accept, extra, handFirst, after);
      case AwaitSecondDraw =>
        LedgerStays(m, gs, gs.(drawing := None));
        EndTurnLedger(m, gs.(drawing := None), i);
      case _ =>
    }
  }

  lemma DispatchLedger(m: Board, gs: Game, i: nat, a: Action, sh: Shuffler, handFirst: bool, after: Game)
    requires m.Valid() && Flow(gs) && Ledger(m, gs) && TunnelOpen(m, gs) && i < |gs.players| && Gate(gs, i, a).None?
    requires Dispatch(m, gs, i, a, sh, handFirst) == Ok(after)
    ensures Ledger(m, after) && TunnelOpen(m, after)
  {
    CurrentIs(gs, i);
    match a {
      case DrawCard(source) => DrawLedger(m, gs, i, source, sh, after);
      case ClaimRoute(id, pay) => ClaimLedger(m, gs, i, id, pay, sh, after);
      case BuildStation(city, pay) => StationLedger(m, gs, i, city, pay, after);
      case DrawTickets => QuietLedger(m, gs, after);
      case ResolveDecision(kind, keep, accept, extra) => DecisionLedger(m, gs, i, kind, keep, accept, extra, handFirst, after);
      case Resign => ResignLedger(m, gs, i, after);
    }
  }

  // Whatever anybody does, the board ledger stays right, and a parked tunnel
  // route stays claimable for the player it is parked for.
  lemma StepKeepsLedger(m: Board, gs: Game, user: nat, a: Action, sh: Shuffler, handFirst: bool, after: Game)
    requires m.Valid() && Flow(gs) && Ledger(m, gs) && TunnelOpen(m, gs)
    requires Apply(m, gs, user, a, sh, handFirst) == Ok(after)
    ensures Ledger(m, after) && TunnelOpen(m, after)
  {
    var i := OfUser(gs.players, user).value;
    var stepped := Dispatch(m, gs, i, a, sh, handFirst).value;
    DispatchLedger(m, gs, i, a, sh, handFirst, stepped);
    CountedLedger(m, stepped, after);
  }

  lemma CountedLedger(m: Board, gs: Game, after: Game)
    requires Ledger(m, gs) && TunnelOpen(m, gs) && after == gs.(seqNo := after.seqNo)
    ensures Ledger(m, after) && TunnelOpen(m, after)
  {
    LedgerStays(m, gs, after);
  }
}
