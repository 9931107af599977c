// The turn engine of Ticket to Ride: one function for each action, from the
// decoded state to the next one or to a refusal.
module TtrRules {
  import opened Wrappers
  import opened Counting
  import opened TtrBoard
  import opened TtrPayment
  import opened TtrCards
  import opened TtrGame

  const END_TRIGGER_TRAINS := 2
  const INITIAL_TRAIN_CARDS := 4
  const INITIAL_REGULAR_TICKETS := 3
  const MIN_TICKETS_KEPT_AT_SETUP := 2
  const MIN_TICKETS_KEPT_IN_GAME := 1
  const TICKET_DRAW_COUNT := 3
  const TUNNEL_REVEAL_COUNT := 3

  function ActiveCount(ps: seq<Player>): int { |ActiveSeats(ps)| }

  // ---------------------------------------------------------------------
  // The end of a turn
  // ---------------------------------------------------------------------

  // The game is over at zero; otherwise the turn passes on.
  function AdvanceOrFinish(gs: Game): Game {
    if gs.finalTurnsLeft == 0 then gs.(phase := Finished)
    else gs.(phase := Normal, currentSeat := NextActive(gs.players, gs.currentSeat))
  }

  // Armed with the number of players when few trains are left, or counted down;
  // never both.
  function CountedDown(final: int, trainsLeft: int, active: int): int {
    if final < 0 && trainsLeft <= END_TRIGGER_TRAINS then active
    else if final >= 0 then final - 1
    else final
  }

  // Nothing is parked any more and the turn is counted.
  function TurnClosed(gs: Game, i: nat): Game
    requires i < |gs.players|
  {
    gs.(drawing := None, tunnel := None, ticketDraw := None, turnNo := gs.turnNo + 1,
        finalTurnsLeft := CountedDown(gs.finalTurnsLeft, gs.players[i].trainsLeft, ActiveCount(gs.players)))
  }

  function EndTurn(gs: Game, i: nat): Game
    requires i < |gs.players|
  {
    AdvanceOrFinish(TurnClosed(gs, i))
  }

  // ---------------------------------------------------------------------
  // Drawing cards
  // ---------------------------------------------------------------------

  function HandTo(ps: seq<Player>, i: nat, hand: Hand): seq<Player>
    requires i < |ps|
  {
    ps[i := ps[i].(hand := hand)]
  }

  // Player i has one card more.
  function Dealt(gs: Game, i: nat, card: Color, piles: Piles): Game
    requires i < |gs.players|
  {
    var hand := gs.players[i].hand;
    gs.(players := HandTo(gs.players, i, hand[card := hand[card] + 1]), piles := piles, drawing := None)
  }

  // A second card follows unless this was the second or a face-up locomotive.
  function Drawn(gs: Game, i: nat, card: Color, piles: Piles, over: bool): Game
    requires i < |gs.players|
  {
    var dealt := Dealt(gs, i, card, piles);
    if over then EndTurn(dealt, i) else dealt.(drawing := Some(Progress(1, true)), phase := AwaitSecondDraw)
  }

  function ApplyDrawCard(gs: Game, i: nat, source: Source, sh: Shuffler): Result<Game, Error>
    requires i < |gs.players|
  {
    var isSecond := gs.drawing.Some? && gs.drawing.value.cardsTaken > 0;
    match source
    case Deck =>
      var pop := Popped(gs.piles, sh);
      (match pop.card
       case None => Err(IllegalAction)
       case Some(card) => Ok(Drawn(gs, i, card, pop.piles, isSecond)))
    case FaceUpSlot(slot) =>
      if !(0 <= slot < FACE_UP_SLOTS && slot < |gs.piles.faceUp|) then Err(IllegalAction)
      else
        var card := gs.piles.faceUp[slot];
        if gs.drawing.Some? && gs.drawing.value.locoLocked && card == Loco then Err(IllegalAction)
        else Ok(Drawn(gs, i, card, TakenFaceUp(gs.piles, slot, sh), isSecond || card == Loco))
    case UnknownSource => Err(IllegalAction)
  }

  predicate SecondDrawAvailable(p: Piles) {
    p.draw != [] || p.discard != [] || exists k :: 0 <= k < |p.faceUp| && p.faceUp[k] != Loco
  }

  function ApplyEndDraw(gs: Game, i: nat): Result<Game, Error>
    requires i < |gs.players|
  {
    if SecondDrawAvailable(gs.piles) then Err(IllegalAction) else Ok(EndTurn(gs.(drawing := None), i))
  }

  // ---------------------------------------------------------------------
  // Claiming routes
  // ---------------------------------------------------------------------

  predicate Claimable(gs: Game, i: nat, r: Route)
    requires i < |gs.players|
  {
    && r.id !in gs.routeOwner && r.id !in gs.closed
    && (r.pair.Some? ==> r.pair.value !in gs.players[i].claimed)
    && gs.players[i].trainsLeft >= r.length
  }

  function Discarded(p: Piles, cards: seq<Color>): Piles {
    p.(discard := p.discard + cards)
  }

  function ClaimedBy(p: Player, r: Route): Player
    requires PointsForLength(r.length).Some?
  {
    p.(trainsLeft := p.trainsLeft - r.length, routeScore := p.routeScore + PointsForLength(r.length).value, claimed := p.claimed + [r.id])
  }

  // Route r is player i's; the cards that paid for it are discarded.
  function FinishClaim(gs: Game, i: nat, r: Route, pay: Payment): Game
    requires i < |gs.players| && PointsForLength(r.length).Some?
  {
    gs.(piles := Discarded(gs.piles, LaidPayment(pay, ALL_COLORS)),
        players := gs.players[i := ClaimedBy(gs.players[i], r)],
        routeOwner := gs.routeOwner[r.id := gs.players[i].seat],
        closed := if |gs.players| <= 3 && r.pair.Some? then gs.closed + [r.pair.value] else gs.closed)
  }

  datatype Reveal = Reveal(cards: seq<Color>, piles: Piles)

  // Up to k cards from the draw pile.
  function Revealed(p: Piles, k: nat, sh: Shuffler): Reveal {
    if k == 0 then Reveal([], p)
    else
      var before := Revealed(p, k - 1, sh);
      if |before.cards| < k - 1 then before
      else
        var pop := Popped(before.piles, sh);
        match pop.card
        case None => Reveal(before.cards, pop.piles)
        case Some(card) => Reveal(before.cards + [card], pop.piles)
  }

  // Locomotives match, and cards of the payment's colour.
  function Matches(cards: seq<Color>, color: Color): int {
    if color == Loco then Times(cards, Loco) else Times(cards, Loco) + Times(cards, color)
  }

  // The reveals are discarded and the claim stands.
  function Burned(gs: Game, i: nat, r: Route, pay: Payment, turned: Reveal): Game
    requires i < |gs.players| && PointsForLength(r.length).Some?
  {
    EndTurn(FinishClaim(gs.(piles := Discarded(turned.piles, turned.cards)), i, r, pay), i)
  }

  // Player i has paid for tunnel r; a surcharge waits for a decision.
  function TunnelTurned(gs: Game, i: nat, r: Route, pay: Payment, color: Color, turned: Reveal): Game
    requires i < |gs.players| && PointsForLength(r.length).Some?
  {
    var matches := Matches(turned.cards, color);
    if matches == 0 then Burned(gs, i, r, pay, turned)
    else gs.(piles := turned.piles, tunnel := Some(Tunnel(r.id, pay, color, turned.cards, matches)), phase := AwaitTunnel)
  }

  function BeginTunnel(gs: Game, i: nat, r: Route, pay: Payment, color: Color, sh: Shuffler): Game
    requires i < |gs.players| && PointsForLength(r.length).Some?
  {
    TunnelTurned(gs, i, r, pay, color, Revealed(gs.piles, TUNNEL_REVEAL_COUNT, sh))
  }

  ghost function ApplyClaimRoute(m: Board, gs: Game, i: nat, id: RouteId, pay: Payment, sh: Shuffler): Result<Game, Error>
    requires m.Valid() && i < |gs.players|
  {
    if id !in m.routeById then Err(IllegalAction)
    else
      var r := m.routeById[id];
      if !Claimable(gs, i, r) || !WellFormed(pay) || !Pays(r, gs.players[i].hand, pay) then Err(IllegalAction)
      else
        var paid := gs.(players := HandTo(gs.players, i, Debited(gs.players[i].hand, pay)));
        if r.tunnel then Ok(BeginTunnel(paid, i, r, pay, Declared(pay), sh))
        else Ok(EndTurn(FinishClaim(paid, i, r, pay), i))
  }

  function Repaid(gs: Game, i: nat, t: Tunnel): Game
    requires i < |gs.players|
  {
    gs.(players := HandTo(gs.players, i, Credited(gs.players[i].hand, t.base)),
        piles := Discarded(gs.piles, t.revealed), tunnel := None)
  }

  // The base payment comes back and the reveals are discarded.
  function Refunded(gs: Game, i: nat, t: Tunnel): Game
    requires i < |gs.players|
  {
    EndTurn(Repaid(gs, i, t), i)
  }

  function Surcharged(gs: Game, i: nat, t: Tunnel, extra: Payment): Game
    requires i < |gs.players|
  {
    gs.(players := HandTo(gs.players, i, Debited(gs.players[i].hand, extra)),
        piles := Discarded(gs.piles, t.revealed), tunnel := None)
  }

  // The surcharge is paid on top of the base payment.
  function Accepted(gs: Game, i: nat, r: Route, t: Tunnel, extra: Payment): Game
    requires i < |gs.players| && PointsForLength(r.length).Some?
  {
    EndTurn(FinishClaim(Surcharged(gs, i, t, extra), i, r, Merged(t.base, extra)), i)
  }

  ghost function ApplyTunnelDecision(m: Board, gs: Game, i: nat, accept: bool, extra: Payment, handFirst: bool): Result<Game, Error>
    requires m.Valid() && i < |gs.players|
  {
    match gs.tunnel
    case None => Err(IllegalAction)
    case Some(t) =>
      if !accept then Ok(Refunded(gs, i, t))
      else if !WellFormed(extra) then Err(IllegalAction)
      else match SurchargeVerdict(t, gs.players[i].hand, extra, handFirst)
        case Malformed => Err(IllegalAction)
        case Unaffordable => Ok(Refunded(gs, i, t))
        case Fits =>
          if t.route !in m.routeById then Err(IllegalAction) else Ok(Accepted(gs, i, m.routeById[t.route], t, extra))
  }

  // ---------------------------------------------------------------------
  // Stations
  // ---------------------------------------------------------------------

  function StationCost(m: Board, p: Player): int {
    m.stationsPerPlayer - p.stationsLeft + 1
  }

  function BuiltBy(p: Player, city: City, pay: Payment): Player {
    p.(hand := Debited(p.hand, pay), stationsLeft := p.stationsLeft - 1, stations := p.stations + [city])
  }

  function Built(gs: Game, i: nat, city: City, pay: Payment): Game
    requires i < |gs.players|
  {
    gs.(piles := Discarded(gs.piles, LaidPayment(pay, ALL_COLORS)),
        players := gs.players[i := BuiltBy(gs.players[i], city, pay)],
        stationOwner := gs.stationOwner[city := gs.players[i].seat])
  }

  ghost function ApplyBuildStation(m: Board, gs: Game, i: nat, city: City, pay: Payment): Result<Game, Error>
    requires i < |gs.players|
  {
    var p := gs.players[i];
    if city !in m.cities || city in gs.stationOwner || p.stationsLeft < 1 || !WellFormed(pay) then Err(IllegalAction)
    else if !SingleColour(p.hand, pay, StationCost(m, p)) then Err(IllegalAction)
    else Ok(EndTurn(Built(gs, i, city, pay), i))
  }

  // ---------------------------------------------------------------------
  // Tickets
  // ---------------------------------------------------------------------

  function ApplyDrawTickets(gs: Game): Result<Game, Error> {
    if gs.ticketDeck == [] then Err(IllegalAction)
    else
      var n := if |gs.ticketDeck| < TICKET_DRAW_COUNT then |gs.ticketDeck| else TICKET_DRAW_COUNT;
      Ok(gs.(ticketDeck := gs.ticketDeck[n..], ticketDraw := Some(gs.ticketDeck[..n]), phase := AwaitTicketKeep))
  }

  // A choice of offered tickets, each once.
  predicate Keepable(offered: seq<TicketId>, keep: seq<TicketId>, least: nat) {
    && |keep| >= least
    && (forall k :: 0 <= k < |keep| ==> keep[k] in offered)
    && (forall j, k :: 0 <= j < k < |keep| ==> keep[j] != keep[k])
  }

  function Rejected(offered: seq<TicketId>, keep: seq<TicketId>): seq<TicketId> {
    if offered == [] then []
    else (if offered[0] in keep then [] else [offered[0]]) + Rejected(offered[1..], keep)
  }

  function TicketsTo(ps: seq<Player>, i: nat, keep: seq<TicketId>): seq<Player>
    requires i < |ps|
  {
    ps[i := ps[i].(tickets := ps[i].tickets + keep)]
  }

  function ApplyTicketKeep(gs: Game, i: nat, keep: seq<TicketId>): Result<Game, Error>
    requires i < |gs.players|
  {
    match gs.ticketDraw
    case None => Err(IllegalAction)
    case Some(offered) =>
      if !Keepable(offered, keep, MIN_TICKETS_KEPT_IN_GAME) then Err(IllegalAction)
      else Ok(EndTurn(gs.(players := TicketsTo(gs.players, i, keep),
                          ticketDeck := gs.ticketDeck + Rejected(offered, keep), ticketDraw := None), i))
  }

  predicate AllSetupDone(ps: seq<Player>) {
    forall k :: 0 <= k < |ps| && !ps[k].resigned ==> ps[k].setupDone
  }

  predicate SeatIsActive(ps: seq<Player>, seat: int) {
    match AtSeat(ps, seat) case None => false case Some(c) => !ps[c].resigned
  }

  function ApplySetupKeep(gs: Game, i: nat, keep: seq<TicketId>): Result<Game, Error>
    requires i < |gs.players|
  {
    var p := gs.players[i];
    if p.setupDone || !Keepable(p.offer, keep, MIN_TICKETS_KEPT_AT_SETUP) then Err(IllegalAction)
    else
      var ps := gs.players[i := p.(tickets := p.tickets + keep, offer := [], setupDone := true)];
      if !AllSetupDone(ps) then Ok(gs.(players := ps))
      else
        Ok(gs.(players := ps, phase := Normal, turnNo := 1,
               currentSeat := if SeatIsActive(ps, gs.currentSeat) then gs.currentSeat else NextActive(ps, gs.currentSeat)))
  }

  // ---------------------------------------------------------------------
  // Resigning
  // ---------------------------------------------------------------------

  predicate HoldsTurn(gs: Game, i: nat)
    requires i < |gs.players|
  {
    (gs.phase == Normal || IsAwaiting(gs.phase)) && IsCurrent(gs, i)
  }

  // A parked decision gives its cards and tickets back to their piles.
  function Released(gs: Game): Game {
    var cards := match gs.tunnel case None => [] case Some(t) => LaidPayment(t.base, ALL_COLORS) + t.revealed;
    var ids := match gs.ticketDraw case None => [] case Some(offered) => offered;
    gs.(piles := Discarded(gs.piles, cards), ticketDeck := gs.ticketDeck + ids, tunnel := None, ticketDraw := None, drawing := None)
  }

  function Retired(gs: Game, i: nat): Game
    requires i < |gs.players|
  {
    gs.(piles := Discarded(gs.piles, LaidHand(gs.players[i].hand, ALL_COLORS)),
        players := gs.players[i := gs.players[i].(hand := multiset{}, resigned := true)])
  }

  function Clamped(final: int, active: int): int {
    if final >= 0 && active < final then active else final
  }

  // With somebody gone the game ends, goes on, or passes to the next turn.
  function PassOn(gone: Game, holds: bool): Game {
    var active := ActiveCount(gone.players);
    if active < 2 then gone.(phase := Finished)
    else
      var final := Clamped(gone.finalTurnsLeft, active);
      if !holds then gone.(finalTurnsLeft := final)
      else AdvanceOrFinish(gone.(turnNo := gone.turnNo + 1, finalTurnsLeft := if final >= 0 then final - 1 else final))
  }

  function ApplyResign(gs: Game, i: nat): Result<Game, Error>
    requires i < |gs.players|
  {
    if gs.players[i].resigned then Err(IllegalAction)
    else
      var holds := HoldsTurn(gs, i);
      Ok(PassOn(Retired(if holds then Released(gs) else gs, i), holds))
  }

  // ---------------------------------------------------------------------
  // Dispatch
  // ---------------------------------------------------------------------

  function OnTurn(gs: Game, i: nat): Option<Error>
    requires i < |gs.players|
  {
    if IsCurrent(gs, i) then None else Some(NotYourTurn)
  }

  // Which actions the phase admits, and from whom.
  function Gate(gs: Game, i: nat, a: Action): Option<Error>
    requires i < |gs.players|
  {
    if gs.phase == Finished then Some(GameOver)
    else if a.Resign? then None
    else if gs.players[i].resigned then Some(IllegalAction)
    else if gs.phase == SetupTickets then
      if a.ResolveDecision? then None else Some(WrongPhase)
    else if gs.phase == AwaitSecondDraw then
      if a.DrawCard? || a.ResolveDecision? then OnTurn(gs, i) else Some(WrongPhase)
    else if IsAwaiting(gs.phase) then
      if a.ResolveDecision? then OnTurn(gs, i) else Some(WrongPhase)
    else if a.DrawCard? || a.ClaimRoute? || a.BuildStation? || a.DrawTickets? then OnTurn(gs, i)
    else Some(WrongPhase)
  }

  ghost function ApplyDecision(m: Board, gs: Game, i: nat, kind: Kind, keep: seq<TicketId>, accept: bool, extra: Payment,
                               handFirst: bool): Result<Game, Error>
    requires m.Valid() && i < |gs.players|
  {
    match gs.phase
    case SetupTickets => if kind == KSetup then ApplySetupKeep(gs, i, keep) else Err(WrongPhase)
    case AwaitTicketKeep => if kind == KTicketKeep then ApplyTicketKeep(gs, i, keep) else Err(WrongPhase)
    case AwaitTunnel => if kind == KTunnel then ApplyTunnelDecision(m, gs, i, accept, extra, handFirst) else Err(WrongPhase)
    case AwaitSecondDraw => if kind == KEndDraw then ApplyEndDraw(gs, i) else Err(WrongPhase)
    case _ => Err(WrongPhase)
  }

  ghost function Dispatch(m: Board, gs: Game, i: nat, a: Action, sh: Shuffler, handFirst: bool): Result<Game, Error>
    requires m.Valid() && i < |gs.players|
  {
    match a
    case DrawCard(source) => ApplyDrawCard(gs, i, source, sh)
    case ClaimRoute(id, pay) => ApplyClaimRoute(m, gs, i, id, pay, sh)
    case BuildStation(city, pay) => ApplyBuildStation(m, gs, i, city, pay)
    case DrawTickets => ApplyDrawTickets(gs)
    case ResolveDecision(kind, keep, accept, extra) => ApplyDecision(m, gs, i, kind, keep, accept, extra, handFirst)
    case Resign => ApplyResign(gs, i)
    case Unknown => Err(IllegalAction)
  }

  // Accepted actions are numbered.
  function Numbered(r: Result<Game, Error>): Result<Game, Error> {
    match r
    case Err(e) => Err(e)
    case Ok(after) => Ok(after.(seqNo := after.seqNo + 1))
  }

  // One action. `sh` stands for the shuffler, `handFirst` for the order in which
  // a surcharge payment's colours are visited.
  ghost function Apply(m: Board, gs: Game, user: nat, a: Action, sh: Shuffler, handFirst: bool): Result<Game, Error>
    requires m.Valid()
  {
    match OfUser(gs.players, user)
    case None => Err(NotSeated)
    case Some(i) =>
      if Gate(gs, i, a).Some? then Err(Gate(gs, i, a).value)
      else Numbered(Dispatch(m, gs, i, a, sh, handFirst))
  }
}
