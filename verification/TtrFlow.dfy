// The turn flow: which decision is parked in which phase, whose turn it is,
// and the final-round counter.
module TtrFlow {
  import opened Wrappers
  import opened TtrBoard
  import opened TtrPayment
  import opened TtrCards
  import opened TtrGame
  import opened TtrRules

  // ---------------------------------------------------------------------
  // Seats
  // ---------------------------------------------------------------------

  ghost predicate Apart(p: Player, q: Player) { p.seat < q.seat && p.user != q.user }

  ghost predicate SeatsOk(ps: seq<Player>) {
    forall i, j {:trigger Apart(ps[i], ps[j])} :: 0 <= i < j < |ps| ==> Apart(ps[i], ps[j])
  }

  // Nobody moves and nobody resigns.
  ghost predicate SameStanding(a: seq<Player>, b: seq<Player>) {
    |a| == |b| && forall i :: 0 <= i < |a| ==> b[i].seat == a[i].seat && b[i].user == a[i].user && b[i].resigned == a[i].resigned
  }

  lemma {:induction false} SeatFound(ps: seq<Player>, i: nat)
    requires SeatsOk(ps) && i < |ps|
    ensures AtSeat(ps, ps[i].seat) == Some(i) && OfUser(ps, ps[i].user) == Some(i)
  {
    var s, u := AtSeat(ps, ps[i].seat).value, OfUser(ps, ps[i].user).value;
    assert s < i ==> Apart(ps[s], ps[i]);
    assert i < s ==> Apart(ps[i], ps[s]);
    assert u < i ==> Apart(ps[u], ps[i]);
    assert i < u ==> Apart(ps[i], ps[u]);
  }

  lemma {:induction false} ActiveMembers(ps: seq<Player>)
    ensures forall s :: s in ActiveSeats(ps) <==> exists i :: 0 <= i < |ps| && ps[i].seat == s && !ps[i].resigned
  {
    if ps != [] {
      var n := |ps| - 1;
      ActiveMembers(ps[..n]);
      assert forall i :: 0 <= i < n ==> ps[..n][i] == ps[i];
    }
  }

  lemma {:induction false} ActiveIffListed(ps: seq<Player>, seat: int)
    requires SeatsOk(ps)
    ensures SeatIsActive(ps, seat) <==> seat in ActiveSeats(ps)
  {
    ActiveMembers(ps);
    if seat in ActiveSeats(ps) {
      var i :| 0 <= i < |ps| && ps[i].seat == seat && !ps[i].resigned;
      SeatFound(ps, i);
    }
  }

  lemma {:induction false} StandingKeeps(a: seq<Player>, b: seq<Player>)
    requires SameStanding(a, b)
    ensures ActiveSeats(a) == ActiveSeats(b)
    ensures SeatsOk(a) ==> SeatsOk(b)
  {
    if a != [] {
      var n := |a| - 1;
      StandingKeeps(a[..n], b[..n]);
    }
    if SeatsOk(a) {
      forall i, j | 0 <= i < j < |b|
        ensures Apart(b[i], b[j])
      {
        assert Apart(a[i], a[j]);
      }
    }
  }

  lemma StandingActive(a: seq<Player>, b: seq<Player>, seat: int)
    requires SeatsOk(a) && SameStanding(a, b)
    ensures SeatIsActive(a, seat) <==> SeatIsActive(b, seat)
  {
    StandingKeeps(a, b);
    ActiveIffListed(a, seat);
    ActiveIffListed(b, seat);
  }

  lemma {:induction false} NextIsActive(ps: seq<Player>, seat: int)
    requires SeatsOk(ps) && ActiveSeats(ps) != []
    ensures SeatIsActive(ps, NextActive(ps, seat))
  {
    var active := ActiveSeats(ps);
    var at := PositionIn(active, seat);
    var k := if at.Some? then (at.value + 1) % |active| else 0;
    assert active[k] in active;
    ActiveIffListed(ps, NextActive(ps, seat));
  }

  // ---------------------------------------------------------------------
  // The invariant
  // ---------------------------------------------------------------------

  // Whoever still has to answer in setup can: two different tickets are on offer.
  ghost predicate CanAnswer(p: Player) {
    !p.setupDone ==> |p.offer| >= 2 && p.offer[0] != p.offer[1]
  }

  // Exactly the decision of the phase is parked, with something to decide.
  ghost predicate Parked(gs: Game) {
    match gs.phase
    case SetupTickets =>
      && gs.drawing.None? && gs.tunnel.None? && gs.ticketDraw.None? && gs.finalTurnsLeft == -1
      && forall i :: 0 <= i < |gs.players| ==> CanAnswer(gs.players[i])
    case Normal => gs.drawing.None? && gs.tunnel.None? && gs.ticketDraw.None?
    case AwaitSecondDraw => gs.drawing == Some(Progress(1, true)) && gs.tunnel.None? && gs.ticketDraw.None?
    case AwaitTunnel => gs.drawing.None? && gs.tunnel.Some? && gs.ticketDraw.None?
    case AwaitTicketKeep => gs.drawing.None? && gs.tunnel.None? && gs.ticketDraw.Some? && gs.ticketDraw.value != []
    case Finished => true
  }

  ghost predicate CounterOk(final: int, active: int) {
    final == -1 || 1 <= final <= active
  }

  ghost predicate Flow(gs: Game) {
    && SeatsOk(gs.players) && Parked(gs)
    && (gs.tunnel.Some? ==> WellFormed(gs.tunnel.value.base))
    && (gs.phase != Finished ==> ActiveCount(gs.players) >= 2 && CounterOk(gs.finalTurnsLeft, ActiveCount(gs.players)))
    && (gs.phase != Finished && gs.phase != SetupTickets ==> SeatIsActive(gs.players, gs.currentSeat))
  }

  // ---------------------------------------------------------------------
  // The end of a turn
  // ---------------------------------------------------------------------

  lemma AdvanceFlow(gs: Game)
    requires SeatsOk(gs.players) && ActiveCount(gs.players) >= 2
    requires gs.finalTurnsLeft == 0 || CounterOk(gs.finalTurnsLeft, ActiveCount(gs.players))
    requires gs.drawing.None? && gs.tunnel.None? && gs.ticketDraw.None?
    ensures Flow(AdvanceOrFinish(gs))
  {
    NextIsActive(gs.players, gs.currentSeat);
  }

  lemma EndTurnFlow(gs: Game, i: nat)
    requires SeatsOk(gs.players) && ActiveCount(gs.players) >= 2 && i < |gs.players|
    requires CounterOk(gs.finalTurnsLeft, ActiveCount(gs.players))
    ensures Flow(EndTurn(gs, i))
  {
    AdvanceFlow(TurnClosed(gs, i));
  }

  // What an action changed before the turn ends does not touch the standing.
  lemma TurnEnds(gs: Game, played: Game, i: nat)
    requires Flow(gs) && gs.phase != Finished && i < |gs.players|
    requires SameStanding(gs.players, played.players) && played.finalTurnsLeft == gs.finalTurnsLeft
    ensures Flow(EndTurn(played, i))
  {
    StandingKeeps(gs.players, played.players);
    EndTurnFlow(played, i);
  }

  // ---------------------------------------------------------------------
  // Each action
  // ---------------------------------------------------------------------

  // The turn goes on with a parked decision.
  lemma TurnWaits(gs: Game, after: Game)
    requires Flow(gs) && gs.phase != Finished && gs.phase != SetupTickets
    requires SameStanding(gs.players, after.players)
    requires after.finalTurnsLeft == gs.finalTurnsLeft && after.currentSeat == gs.currentSeat
    requires Parked(after) && IsAwaiting(after.phase) && (after.tunnel.Some? ==> WellFormed(after.tunnel.value.base))
    ensures Flow(after)
  {
    StandingKeeps(gs.players, after.players);
    StandingActive(gs.players, after.players, gs.currentSeat);
  }

  lemma DealtKeeps(gs: Game, i: nat, card: Color, piles: Piles)
    requires i < |gs.players|
    ensures SameStanding(gs.players, Dealt(gs, i, card, piles).players)
    ensures Dealt(gs, i, card, piles).finalTurnsLeft == gs.finalTurnsLeft
  {
  }

  lemma DrawnWaits(gs: Game, i: nat, card: Color, piles: Piles)
    requires Flow(gs) && (gs.phase == Normal || gs.phase == AwaitSecondDraw) && i < |gs.players|
    ensures Flow(Drawn(gs, i, card, piles, false))
  {
    DealtKeeps(gs, i, card, piles);
    TurnWaits(gs, Drawn(gs, i, card, piles, false));
  }

  lemma DrawnEnds(gs: Game, i: nat, card: Color, piles: Piles)
    requires Flow(gs) && (gs.phase == Normal || gs.phase == AwaitSecondDraw) && i < |gs.players|
    ensures Flow(Drawn(gs, i, card, piles, true))
  {
    DealtKeeps(gs, i, card, piles);
    TurnEnds(gs, Dealt(gs, i, card, piles), i);
  }

  lemma DrawnFlow(gs: Game, i: nat, card: Color, piles: Piles, over: bool)
    requires Flow(gs) && (gs.phase == Normal || gs.phase == AwaitSecondDraw) && i < |gs.players|
    ensures Flow(Drawn(gs, i, card, piles, over))
  {
    if over {
      DrawnEnds(gs, i, card, piles);
    } else {
      DrawnWaits(gs, i, card, piles);
    }
  }

  lemma DrawFlow(gs: Game, i: nat, source: Source, sh: Shuffler, after: Game)
    requires Flow(gs) && (gs.phase == Normal || gs.phase == AwaitSecondDraw) && i < |gs.players|
    requires ApplyDrawCard(gs, i, source, sh) == Ok(after)
    ensures Flow(after)
  {
    var isSecond := gs.drawing.Some? && gs.drawing.value.cardsTaken > 0;
    match source {
      case Deck =>
        var pop := Popped(gs.piles, sh);
        DrawnFlow(gs, i, pop.card.value, pop.piles, isSecond);
      case FaceUpSlot(slot) =>
        var card := gs.piles.faceUp[slot];
        DrawnFlow(gs, i, card, TakenFaceUp(gs.piles, slot, sh), isSecond || card == Loco);
    }
  }

  lemma ClaimFlow(m: Board, gs: Game, i: nat, id: RouteId, pay: Payment, sh: Shuffler, after: Game)
    requires m.Valid() && Flow(gs) && gs.phase == Normal && i < |gs.players|
    requires ApplyClaimRoute(m, gs, i, id, pay, sh) == Ok(after)
    ensures Flow(after)
  {
    var r := m.routeById[id];
    var paid := gs.(players := HandTo(gs.players, i, Debited(gs.players[i].hand, pay)));
    if r.tunnel {
      TurnedFlow(gs, paid, i, r, pay, Declared(pay), Revealed(paid.piles, TUNNEL_REVEAL_COUNT, sh));
    } else {
      TurnEnds(gs, FinishClaim(paid, i, r, pay), i);
    }
  }

  lemma TurnedFlow(gs: Game, paid: Game, i: nat, r: Route, pay: Payment, color: Color, turned: Reveal)
    requires Flow(gs) && gs.phase == Normal && i < |gs.players| && PointsForLength(r.length).Some? && WellFormed(pay)
    requires paid == gs.(players := paid.players) && SameStanding(gs.players, paid.players)
    ensures Flow(TunnelTurned(paid, i, r, pay, color, turned))
  {
    if Matches(turned.cards, color) == 0 {
      TurnEnds(gs, FinishClaim(paid.(piles := Discarded(turned.piles, turned.cards)), i, r, pay), i);
    } else {
      TurnWaits(gs, TunnelTurned(paid, i, r, pay, color, turned));
    }
  }

  lemma RefundedFlow(gs: Game, i: nat, t: Tunnel)
    requires Flow(gs) && gs.phase == AwaitTunnel && i < |gs.players|
    ensures Flow(Refunded(gs, i, t))
  {
    TurnEnds(gs, Repaid(gs, i, t), i);
  }

  lemma AcceptedFlow(gs: Game, i: nat, r: Route, t: Tunnel, extra: Payment)
    requires Flow(gs) && gs.phase == AwaitTunnel && i < |gs.players| && PointsForLength(r.length).Some?
    ensures Flow(Accepted(gs, i, r, t, extra))
  {
    TurnEnds(gs, FinishClaim(Surcharged(gs, i, t, extra), i, r, Merged(t.base, extra)), i);
  }

  lemma TunnelFlow(m: Board, gs: Game, i: nat, accept: bool, extra: Payment, handFirst: bool, after: Game)
    requires m.Valid() && Flow(gs) && gs.phase == AwaitTunnel && i < |gs.players|
    requires ApplyTunnelDecision(m, gs, i, accept, extra, handFirst) == Ok(after)
    ensures Flow(after)
  {
    var t := gs.tunnel.value;
    RefundedFlow(gs, i, t);
    if t.route in m.routeById {
      AcceptedFlow(gs, i, m.routeById[t.route], t, extra);
    }
  }

  lemma StationFlow(m: Board, gs: Game, i: nat, city: City, pay: Payment, after: Game)
    requires Flow(gs) && gs.phase == Normal && i < |gs.players|
    requires ApplyBuildStation(m, gs, i, city, pay) == Ok(after)
    ensures Flow(after)
  {
    TurnEnds(gs, Built(gs, i, city, pay), i);
  }

  lemma TicketKeepFlow(gs: Game, i: nat, keep: seq<TicketId>, after: Game)
    requires Flow(gs) && gs.phase == AwaitTicketKeep && i < |gs.players|
    requires ApplyTicketKeep(gs, i, keep) == Ok(after)
    ensures Flow(after)
  {
    TurnEnds(gs, gs.(players := TicketsTo(gs.players, i, keep),
                     ticketDeck := gs.ticketDeck + Rejected(gs.ticketDraw.value, keep), ticketDraw := None), i);
  }

  lemma SetupAnswered(gs: Game, i: nat, keep: seq<TicketId>, after: Game)
    requires Flow(gs) && gs.phase == SetupTickets && i < |gs.players|
    requires ApplySetupKeep(gs, i, keep) == Ok(after)
    ensures SameStanding(gs.players, after.players)
    ensures after == gs.(players := after.players, phase := after.phase, turnNo := after.turnNo, currentSeat := after.currentSeat)
    ensures after.phase == SetupTickets || (after.phase == Normal && (SeatIsActive(after.players, after.currentSeat) || after.currentSeat == NextActive(after.players, gs.currentSeat)))
    ensures forall k :: 0 <= k < |after.players| ==> CanAnswer(after.players[k])
  {
  }

  lemma SetupFlow(gs: Game, i: nat, keep: seq<TicketId>, after: Game)
    requires Flow(gs) && gs.phase == SetupTickets && i < |gs.players|
    requires ApplySetupKeep(gs, i, keep) == Ok(after)
    ensures Flow(after)
  {
    SetupAnswered(gs, i, keep, after);
    StandingKeeps(gs.players, after.players);
    NextIsActive(after.players, gs.currentSeat);
  }

  lemma {:induction false} OneFewer(ps: seq<Player>, i: nat, p: Player)
    requires i < |ps| && !ps[i].resigned && p.resigned
    ensures |ActiveSeats(ps[i := p])| == |ActiveSeats(ps)| - 1
  {
    var n := |ps| - 1;
    if i == n {
      assert ps[i := p][..n] == ps[..n];
    } else {
      OneFewer(ps[..n], i, p);
      assert ps[i := p][..n] == ps[..n][i := p];
    }
  }

  // Somebody leaves: one active seat fewer, and nobody else's seat changes.
  lemma RetiredSeats(gs: Game, i: nat)
    requires SeatsOk(gs.players) && i < |gs.players| && !gs.players[i].resigned
    ensures var ps := Retired(gs, i).players;
            && SeatsOk(ps) && ActiveCount(ps) == ActiveCount(gs.players) - 1
            && forall seat :: SeatIsActive(ps, seat) <==> SeatIsActive(gs.players, seat) && seat != gs.players[i].seat
  {
    var ps := Retired(gs, i).players;
    OneFewer(gs.players, i, ps[i]);
    forall a, b | 0 <= a < b < |ps|
      ensures Apart(ps[a], ps[b])
    {
      assert Apart(gs.players[a], gs.players[b]);
    }
    forall seat
      ensures SeatIsActive(ps, seat) <==> SeatIsActive(gs.players, seat) && seat != gs.players[i].seat
    {
      if AtSeat(gs.players, seat).Some? {
        SeatFound(ps, AtSeat(gs.players, seat).value);
      }
    }
  }

  // The game with the parked decision of a player on turn given back.
  function Freed(gs: Game, i: nat): Game
    requires i < |gs.players|
  {
    if HoldsTurn(gs, i) then Released(gs) else gs
  }

  // What a resignation does to the cards, the tickets and the players.
  lemma ResignMoves(gs: Game, i: nat, after: Game)
    requires i < |gs.players| && ApplyResign(gs, i) == Ok(after)
    ensures var gone := Retired(Freed(gs, i), i);
            after == gone.(phase := after.phase, currentSeat := after.currentSeat, turnNo := after.turnNo,
                           finalTurnsLeft := after.finalTurnsLeft)
  {
  }

  lemma HolderResignFlow(gs: Game, i: nat, after: Game)
    requires Flow(gs) && gs.phase != Finished && i < |gs.players| && HoldsTurn(gs, i)
    requires ApplyResign(gs, i) == Ok(after)
    ensures Flow(after)
  {
    var gone := Retired(Released(gs), i);
    RetiredSeats(Released(gs), i);
    var active := ActiveCount(gone.players);
    if active >= 2 {
      var final := Clamped(gone.finalTurnsLeft, active);
      AdvanceFlow(gone.(turnNo := gone.turnNo + 1, finalTurnsLeft := if final >= 0 then final - 1 else final));
    }
  }

  lemma ResignFlow(gs: Game, i: nat, after: Game)
    requires Flow(gs) && gs.phase != Finished && i < |gs.players|
    requires ApplyResign(gs, i) == Ok(after)
    ensures Flow(after)
  {
    if HoldsTurn(gs, i) {
      HolderResignFlow(gs, i, after);
    } else {
      RetiredSeats(gs, i);
      if gs.phase != SetupTickets {
        NotCurrent(gs, i);
      }
    }
  }

  lemma NotCurrent(gs: Game, i: nat)
    requires SeatsOk(gs.players) && i < |gs.players| && SeatIsActive(gs.players, gs.currentSeat) && !IsCurrent(gs, i)
    ensures gs.players[i].seat != gs.currentSeat
  {
    SeatFound(gs.players, i);
  }

  // Being current is sitting in the current seat.
  lemma CurrentIs(gs: Game, i: nat)
    requires SeatsOk(gs.players) && i < |gs.players|
    ensures IsCurrent(gs, i) <==> gs.players[i].seat == gs.currentSeat
  {
    SeatFound(gs.players, i);
    if IsCurrent(gs, i) {
      SeatFound(gs.players, AtSeat(gs.players, gs.currentSeat).value);
    }
  }

  lemma DecisionFlow(m: Board, gs: Game, i: nat, kind: Kind, keep: seq<TicketId>, accept: bool, extra: Payment, handFirst: bool, after: Game)
    requires m.Valid() && Flow(gs) && gs.phase != Finished && i < |gs.players|
    requires ApplyDecision(m, gs, i, kind, keep, accept, extra, handFirst) == Ok(after)
    ensures Flow(after)
  {
    match gs.phase {
      case SetupTickets => SetupFlow(gs, i, keep, after);
      case AwaitTicketKeep => TicketKeepFlow(gs, i, keep, after);
      case AwaitTunnel => TunnelFlow(m, gs, i, accept, extra, handFirst, after);
      case AwaitSecondDraw => TurnEnds(gs, gs.(drawing := None), i);
      case _ =>
    }
  }

  lemma TurnFlowKept(m: Board, gs: Game, i: nat, a: Action, sh: Shuffler, handFirst: bool, after: Game)
    requires m.Valid() && Flow(gs) && i < |gs.players|
    requires gs.phase == Normal || (gs.phase == AwaitSecondDraw && a.DrawCard?)
    requires a.DrawCard? || a.ClaimRoute? || a.BuildStation?
    requires Dispatch(m, gs, i, a, sh, handFirst) == Ok(after)
    ensures Flow(after)
  {
    match a {
      case DrawCard(source) => DrawFlow(gs, i, source, sh, after);
      case ClaimRoute(id, pay) => ClaimFlow(m, gs, i, id, pay, sh, after);
      case BuildStation(city, pay) => StationFlow(m, gs, i, city, pay, after);
    }
  }

  lemma OtherFlowKept(m: Board, gs: Game, i: nat, a: Action, sh: Shuffler, handFirst: bool, after: Game)
    requires m.Valid() && Flow(gs) && i < |gs.players| && gs.phase != Finished
    requires a.DrawTickets? || a.ResolveDecision? || a.Resign?
    requires a.DrawTickets? ==> gs.phase == Normal
    requires Dispatch(m, gs, i, a, sh, handFirst) == Ok(after)
    ensures Flow(after)
  {
    match a {
      case DrawTickets => TurnWaits(gs, after);
      case ResolveDecision(kind, keep, accept, extra) => DecisionFlow(m, gs, i, kind, keep, accept, extra, handFirst, after);
      case Resign => ResignFlow(gs, i, after);
    }
  }

  lemma DispatchFlow(m: Board, gs: Game, i: nat, a: Action, sh: Shuffler, handFirst: bool, after: Game)
    requires m.Valid() && Flow(gs) && i < |gs.players| && Gate(gs, i, a).None?
    requires Dispatch(m, gs, i, a, sh, handFirst) == Ok(after)
    ensures Flow(after)
  {
    if a.DrawCard? || a.ClaimRoute? || a.BuildStation? {
      TurnFlowKept(m, gs, i, a, sh, handFirst, after);
    } else {
      OtherFlowKept(m, gs, i, a, sh, handFirst, after);
    }
  }

  // Whatever anybody does: the parked decision matches the phase, at least two
  // players are left, the player to move is one of them, and the final-round
  // counter is unset or between one and their number.
  lemma StepFlow(m: Board, gs: Game, user: nat, a: Action, sh: Shuffler, handFirst: bool, after: Game)
    requires m.Valid() && Flow(gs) && Apply(m, gs, user, a, sh, handFirst) == Ok(after)
    ensures Flow(after)
  {
    var i := OfUser(gs.players, user).value;
    DispatchFlow(m, gs, i, a, sh, handFirst, Dispatch(m, gs, i, a, sh, handFirst).value);
  }
}
