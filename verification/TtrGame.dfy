// A game of Ticket to Ride: players, board ownership, piles and the one
// decision that may be parked.
module TtrGame {
  import opened Wrappers
  import opened Counting
  import opened TtrBoard
  import opened TtrPayment
  import opened TtrCards

  datatype Phase = SetupTickets | Normal | AwaitSecondDraw | AwaitTunnel | AwaitTicketKeep | Finished

  datatype Player = Player(
    seat: int, user: nat, hand: Hand, trainsLeft: int, stationsLeft: int, routeScore: int,
    claimed: seq<RouteId>, stations: seq<City>, tickets: seq<TicketId>, offer: seq<TicketId>,
    setupDone: bool, resigned: bool)

  datatype Tunnel = Tunnel(route: RouteId, base: Payment, color: Color, revealed: seq<Color>, surcharge: int)

  datatype Progress = Progress(cardsTaken: int, locoLocked: bool)

  datatype Game = Game(
    phase: Phase, seqNo: nat, turnNo: int, currentSeat: int, players: seq<Player>, piles: Piles,
    ticketDeck: seq<TicketId>, routeOwner: map<RouteId, int>, stationOwner: map<City, int>, closed: seq<RouteId>,
    drawing: Option<Progress>, tunnel: Option<Tunnel>, ticketDraw: Option<seq<TicketId>>, finalTurnsLeft: int)

  datatype Source = Deck | FaceUpSlot(slot: int) | UnknownSource

  datatype Kind = KSetup | KTicketKeep | KTunnel | KEndDraw | KUnknown

  datatype Action =
    | DrawCard(source: Source)
    | ClaimRoute(route: RouteId, payment: Payment)
    | BuildStation(city: City, payment: Payment)
    | DrawTickets
    | ResolveDecision(kind: Kind, keep: seq<TicketId>, accept: bool, extra: Payment)
    | Resign
    | Unknown

  datatype Error = NotSeated | GameOver | WrongPhase | NotYourTurn | IllegalAction | InvalidMap | NotEnoughPlayers

  // ---------------------------------------------------------------------
  // Players
  // ---------------------------------------------------------------------

  function AtSeat(ps: seq<Player>, seat: int): (r: Option<nat>)
    ensures r.Some? ==> r.value < |ps| && ps[r.value].seat == seat
    ensures r.None? ==> forall i :: 0 <= i < |ps| ==> ps[i].seat != seat
  {
    if ps == [] then None
    else if ps[0].seat == seat then Some(0)
    else match AtSeat(ps[1..], seat) case None => None case Some(i) => Some(i + 1)
  }

  function OfUser(ps: seq<Player>, user: nat): (r: Option<nat>)
    ensures r.Some? ==> r.value < |ps| && ps[r.value].user == user
    ensures r.None? ==> forall i :: 0 <= i < |ps| ==> ps[i].user != user
  {
    if ps == [] then None
    else if ps[0].user == user then Some(0)
    else match OfUser(ps[1..], user) case None => None case Some(i) => Some(i + 1)
  }

  // Seats of the players who have not resigned, in seat order.
  function ActiveSeats(ps: seq<Player>): seq<int> {
    if ps == [] then []
    else
      var n := |ps| - 1;
      ActiveSeats(ps[..n]) + if ps[n].resigned then [] else [ps[n].seat]
  }

  function PositionIn(seats: seq<int>, seat: int): (r: Option<nat>)
    ensures r.Some? ==> r.value < |seats| && seats[r.value] == seat
    ensures r.None? ==> seat !in seats
  {
    if seats == [] then None
    else if seats[0] == seat then Some(0)
    else match PositionIn(seats[1..], seat) case None => None case Some(i) => Some(i + 1)
  }

  // The active seat after this one, clockwise; the first one if this seat is
  // not active.
  function NextActive(ps: seq<Player>, seat: int): int {
    var active := ActiveSeats(ps);
    if active == [] then seat
    else match PositionIn(active, seat)
      case None => active[0]
      case Some(i) => active[(i + 1) % |active|]
  }

  predicate IsCurrent(gs: Game, i: nat)
    requires i < |gs.players|
  {
    match AtSeat(gs.players, gs.currentSeat) case None => false case Some(c) => gs.players[c].user == gs.players[i].user
  }

  predicate IsAwaiting(phase: Phase) {
    phase == AwaitSecondDraw || phase == AwaitTunnel || phase == AwaitTicketKeep
  }

  // ---------------------------------------------------------------------
  // Hands
  // ---------------------------------------------------------------------

  const ALL_COLORS: seq<Color> := [Purple, Blue, Orange, White, Green, Yellow, Black, Red, Loco]

  lemma AllColorsListed()
    ensures forall c :: c in ALL_COLORS + [Gray]
  {
    var all := ALL_COLORS + [Gray];
    assert all == [Purple, Blue, Orange, White, Green, Yellow, Black, Red, Loco, Gray];
    forall c
      ensures c in all
    {
      match c {
        case Purple => assert all[0] == c;
        case Blue => assert all[1] == c;
        case Orange => assert all[2] == c;
        case White => assert all[3] == c;
        case Green => assert all[4] == c;
        case Yellow => assert all[5] == c;
        case Black => assert all[6] == c;
        case Red => assert all[7] == c;
        case Loco => assert all[8] == c;
        case Gray => assert all[9] == c;
      }
    }
  }

  lemma ColorsOnce()
    ensures forall i, j :: 0 <= i < j < |ALL_COLORS| ==> ALL_COLORS[i] != ALL_COLORS[j]
    ensures forall c :: c in ALL_COLORS <==> c != Gray
  {
    AllColorsListed();
    forall c
      ensures c in ALL_COLORS <==> c != Gray
    {
      assert c in ALL_COLORS + [Gray];
    }
  }

  // What is left of c after paying; a hand never holds less than nothing.
  function Rest(hand: Hand, pay: Payment, c: Color): nat {
    if Count(pay, c) <= 0 then hand[c] else if hand[c] > Count(pay, c) then hand[c] - Count(pay, c) else 0
  }

  function DebitedIn(hand: Hand, pay: Payment, colors: seq<Color>): (r: Hand)
    ensures forall c :: c !in colors ==> r[c] == hand[c]
    ensures forall c :: c in colors ==> r[c] == Rest(hand, pay, c)
  {
    if colors == [] then hand
    else
      var before := DebitedIn(hand, pay, colors[1..]);
      assert colors == [colors[0]] + colors[1..];
      before[colors[0] := Rest(hand, pay, colors[0])]
  }

  // The hand after a payment.
  function Debited(hand: Hand, pay: Payment): (r: Hand)
    ensures forall c :: r[c] == Rest(hand, pay, c)
  {
    var r := DebitedIn(hand, pay, ALL_COLORS + [Gray]);
    AllColorsListed();
    r
  }

  function CreditedIn(hand: Hand, pay: Payment, colors: seq<Color>): (r: Hand)
    ensures forall c :: c !in colors ==> r[c] == hand[c]
    ensures forall c :: c in colors ==> r[c] == hand[c] + if Count(pay, c) > 0 then Count(pay, c) else 0
  {
    if colors == [] then hand
    else
      var before := CreditedIn(hand, pay, colors[1..]);
      assert colors == [colors[0]] + colors[1..];
      before[colors[0] := hand[colors[0]] + if Count(pay, colors[0]) > 0 then Count(pay, colors[0]) else 0]
  }

  // The hand after a payment comes back.
  function Credited(hand: Hand, pay: Payment): (r: Hand)
    ensures forall c :: r[c] == hand[c] + if Count(pay, c) > 0 then Count(pay, c) else 0
  {
    var r := CreditedIn(hand, pay, ALL_COLORS + [Gray]);
    AllColorsListed();
    r
  }

  function Copies(c: Color, n: int): seq<Color> {
    if n <= 0 then [] else seq(n, i => c)
  }

  // Cards in the fixed order in which payments and hands are discarded.
  function LaidPayment(pay: Payment, colors: seq<Color>): seq<Color> {
    if colors == [] then [] else Copies(colors[0], Count(pay, colors[0])) + LaidPayment(pay, colors[1..])
  }

  function LaidHand(hand: Hand, colors: seq<Color>): seq<Color> {
    if colors == [] then [] else Copies(colors[0], hand[colors[0]]) + LaidHand(hand, colors[1..])
  }

  lemma {:induction false} CopiesTimes(c: Color, n: int, x: Color)
    requires n >= 0
    ensures Times(Copies(c, n), x) == if c == x then n else 0
  {
    if n > 0 {
      CopiesTimes(c, n - 1, x);
      assert Copies(c, n)[1..] == Copies(c, n - 1);
    }
  }

  lemma {:induction false} LaidPaymentTimes(pay: Payment, colors: seq<Color>, x: Color)
    requires forall c :: Count(pay, c) >= 0
    requires forall i, j :: 0 <= i < j < |colors| ==> colors[i] != colors[j]
    ensures Times(LaidPayment(pay, colors), x) == if x in colors then Count(pay, x) else 0
  {
    if colors != [] {
      LaidPaymentTimes(pay, colors[1..], x);
      CopiesTimes(colors[0], Count(pay, colors[0]), x);
      TimesConcat(Copies(colors[0], Count(pay, colors[0])), LaidPayment(pay, colors[1..]), x);
      assert colors == [colors[0]] + colors[1..];
      if x == colors[0] { assert x !in colors[1..]; }
    }
  }

  lemma {:induction false} LaidHandTimes(hand: Hand, colors: seq<Color>, x: Color)
    requires forall i, j :: 0 <= i < j < |colors| ==> colors[i] != colors[j]
    ensures Times(LaidHand(hand, colors), x) == if x in colors then hand[x] else 0
  {
    if colors != [] {
      LaidHandTimes(hand, colors[1..], x);
      CopiesTimes(colors[0], hand[colors[0]], x);
      TimesConcat(Copies(colors[0], hand[colors[0]]), LaidHand(hand, colors[1..]), x);
      assert colors == [colors[0]] + colors[1..];
      if x == colors[0] { assert x !in colors[1..]; }
    }
  }

  // ---------------------------------------------------------------------
  // Payments
  // ---------------------------------------------------------------------

  // The one colour besides locomotives that a payment uses, or locomotive.
  function DeclaredIn(pay: Payment, colors: seq<Color>): Color {
    if colors == [] then Loco else if colors[0] in pay then colors[0] else DeclaredIn(pay, colors[1..])
  }

  function Declared(pay: Payment): Color {
    DeclaredIn(pay, CARD_COLORS)
  }

  // Both payments together.
  function Merged(a: Payment, b: Payment): (r: Payment)
    ensures r.Keys == a.Keys + b.Keys && forall c :: c in r ==> r[c] == Count(a, c) + Count(b, c)
  {
    map c | c in a.Keys + b.Keys :: Count(a, c) + Count(b, c)
  }

  datatype Verdict = Fits | Unaffordable | Malformed

  // Some colour is neither the declared one nor locomotive.
  ghost predicate Strange(t: Tunnel, extra: Payment) {
    exists c :: c in extra && c != t.color && c != Loco
  }

  // Some legal colour is offered beyond what the hand holds.
  ghost predicate Short(t: Tunnel, hand: Hand, extra: Payment) {
    exists c :: c in extra && (c == t.color || c == Loco) && hand[c] < extra[c]
  }

  // What is wrong with a surcharge payment. With two different faults, which
  // one is found first depends on the order in which the colours are visited.
  ghost function SurchargeVerdict(t: Tunnel, hand: Hand, extra: Payment, handFirst: bool): Verdict {
    if Strange(t, extra) && (!Short(t, hand, extra) || !handFirst) then Malformed
    else if Short(t, hand, extra) then Unaffordable
    else if Total(extra) != t.surcharge then Malformed
    else Fits
  }
}
