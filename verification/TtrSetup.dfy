// Setting up a game of Ticket to Ride.
module TtrSetup {
  import opened Wrappers
  import opened Sums
  import opened Counting
  import opened Lobby
  import opened TtrBoard
  import opened TtrCards
  import opened TtrGame
  import opened TtrRules
  import opened TtrFlow
  import opened TtrCustody
  import opened TtrLedger

  // ---------------------------------------------------------------------
  // The deck
  // ---------------------------------------------------------------------

  function DeckCount(c: Color): int {
    match c case Loco => 14 case Gray => 0 case _ => 12
  }

  function DeckOf(colors: seq<Color>): seq<Color> {
    if colors == [] then [] else Copies(colors[0], DeckCount(colors[0])) + DeckOf(colors[1..])
  }

  // The 110 train cards: twelve of each colour and fourteen locomotives.
  function FullDeck(): seq<Color> { DeckOf(ALL_COLORS) }

  lemma {:induction false} DeckTimes(colors: seq<Color>, c: Color)
    requires forall i, j :: 0 <= i < j < |colors| ==> colors[i] != colors[j]
    ensures Times(DeckOf(colors), c) == if c in colors then DeckCount(c) else 0
  {
    if colors != [] {
      DeckTimes(colors[1..], c);
      CopiesTimes(colors[0], DeckCount(colors[0]), c);
      TimesConcat(Copies(colors[0], DeckCount(colors[0])), DeckOf(colors[1..]), c);
      assert colors == [colors[0]] + colors[1..];
      if c == colors[0] { assert c !in colors[1..]; }
    }
  }

  lemma {:induction false} FullDeckTimes(c: Color)
    ensures Times(FullDeck(), c) == DeckCount(c) == if c == Loco then 14 else if c == Gray then 0 else 12
  {
    ColorsOnce();
    DeckTimes(ALL_COLORS, c);
  }

  lemma {:induction false} DeckSize(colors: seq<Color>)
    requires forall i :: 0 <= i < |colors| ==> colors[i] != Gray
    ensures |DeckOf(colors)| >= 12 * |colors|
  {
    if colors != [] {
      DeckSize(colors[1..]);
    }
  }

  // There are always enough cards for the first hands.
  lemma DeckSuffices(m: Board, sh: Shuffler)
    requires m.Valid() && Fair(sh)
    ensures 1 <= m.minPlayers && 4 * m.maxPlayers <= |sh(0, FullDeck())|
  {
    DeckSize(ALL_COLORS);
    assert SameCards(sh(0, FullDeck()), FullDeck());
  }

  // ---------------------------------------------------------------------
  // Dealing
  // ---------------------------------------------------------------------

  function Seated(m: Board, seats: seq<SeatInit>): (r: seq<Player>)
    ensures |r| == |seats|
    ensures forall i :: 0 <= i < |seats| ==>
              r[i] == Player(seats[i].seat, seats[i].user, multiset{}, m.trainsPerPlayer, m.stationsPerPlayer, 0, [], [], [], [], false, false)
  {
    seq(|seats|, i requires 0 <= i < |seats| =>
      Player(seats[i].seat, seats[i].user, multiset{}, m.trainsPerPlayer, m.stationsPerPlayer, 0, [], [], [], [], false, false))
  }

  // The first k cards, one at a time around the table.
  function DealtHands(ps: seq<Player>, deck: seq<Color>, k: nat): (r: seq<Player>)
    requires ps != [] && k <= |deck|
    ensures |r| == |ps|
  {
    if k == 0 then ps
    else
      var before := DealtHands(ps, deck, k - 1);
      var i := (k - 1) % |ps|;
      HandTo(before, i, before[i].hand[deck[k - 1] := before[i].hand[deck[k - 1]] + 1])
  }

  // One long ticket and three regular ones for each player.
  function Offers(ps: seq<Player>, longs: seq<TicketId>, regulars: seq<TicketId>): (r: seq<Player>)
    requires |ps| <= |longs| && INITIAL_REGULAR_TICKETS * |ps| <= |regulars|
    ensures |r| == |ps|
    ensures forall i :: 0 <= i < |ps| ==> r[i] == ps[i].(offer := [longs[i]] + regulars[3 * i..3 * i + 3])
  {
    seq(|ps|, i requires 0 <= i < |ps| => ps[i].(offer := [longs[i]] + regulars[3 * i..3 * i + 3]))
  }

  // `longs` and `regulars` are the shuffled ticket decks, `first` the random
  // choice of the first player.
  function InitFrom(m: Board, seats: seq<SeatInit>, deck: seq<Color>, sh: Shuffler, longs: seq<TicketId>, regulars: seq<TicketId>,
                    first: nat): Result<Game, Error>
    requires 1 <= m.minPlayers && 4 * m.maxPlayers <= |deck|
  {
    if !(m.minPlayers <= |seats| <= m.maxPlayers) then Err(NotEnoughPlayers)
    else if |longs| < |seats| || |regulars| < INITIAL_REGULAR_TICKETS * |seats| then Err(InvalidMap)
    else
      SortedLength(seats);
      var n := |seats|;
      var ps := Offers(DealtHands(Seated(m, SortSeats(seats)), deck, INITIAL_TRAIN_CARDS * n), longs, regulars);
      var piles := Flushed(Filled(Piles(deck[INITIAL_TRAIN_CARDS * n..], [], [], 1), sh), sh, MAX_FLUSHES);
      Ok(Game(SetupTickets, 0, 0, ps[first % n].seat, ps, piles, regulars[INITIAL_REGULAR_TICKETS * n..], map[], map[], [],
              None, None, None, -1))
  }

  function InitState(m: Board, seats: seq<SeatInit>, sh: Shuffler, longs: seq<TicketId>, regulars: seq<TicketId>, first: nat): Result<Game, Error>
    requires 1 <= m.minPlayers && 4 * m.maxPlayers <= |sh(0, FullDeck())|
  {
    InitFrom(m, seats, sh(0, FullDeck()), sh, longs, regulars, first)
  }

  lemma {:induction false} InsertLength(s: SeatInit, sorted: seq<SeatInit>)
    ensures |InsertSeat(s, sorted)| == |sorted| + 1
  {
    if sorted == [] || s.seat <= sorted[0].seat {
    } else {
      InsertLength(s, sorted[1..]);
    }
  }

  lemma {:induction false} SortedLength(seats: seq<SeatInit>)
    ensures |SortSeats(seats)| == |seats|
  {
    if seats != [] {
      SortedLength(seats[1..]);
      InsertLength(seats[0], SortSeats(seats[1..]));
    }
  }

  // ---------------------------------------------------------------------
  // What a new game satisfies
  // ---------------------------------------------------------------------

  lemma {:induction false} DealtKeeps(ps: seq<Player>, deck: seq<Color>, k: nat, c: Color)
    requires ps != [] && k <= |deck|
    ensures InHands(DealtHands(ps, deck, k), c) == InHands(ps, c) + Times(deck[..k], c)
    ensures forall i :: 0 <= i < |ps| ==> DealtHands(ps, deck, k)[i] == ps[i].(hand := DealtHands(ps, deck, k)[i].hand)
  {
    if k > 0 {
      DealtKeeps(ps, deck, k - 1, c);
      var before := DealtHands(ps, deck, k - 1);
      var i := (k - 1) % |ps|;
      HandChange(before, i, DealtHands(ps, deck, k)[i], c);
      TimesConcat(deck[..k - 1], [deck[k - 1]], c);
      assert deck[..k] == deck[..k - 1] + [deck[k - 1]];
    }
  }

  lemma EmptyHands(ps: seq<Player>, c: Color)
    requires forall i :: 0 <= i < |ps| ==> ps[i].hand == multiset{}
    ensures InHands(ps, c) == 0
  {
    SumBounds(HandCounts(ps, c), 0, 0);
  }

  // The tickets on offer to the first k players are the first k long ones and
  // the first 3k regular ones.
  lemma {:induction false} OffersAre(ps: seq<Player>, longs: seq<TicketId>, regulars: seq<TicketId>, k: nat, id: TicketId)
    requires |ps| <= |longs| && 3 * |ps| <= |regulars| && k <= |ps|
    ensures Sum(OfferCounts(Offers(ps, longs, regulars)[..k], id)) == Times(longs[..k], id) + Times(regulars[..3 * k], id)
  {
    var offers := Offers(ps, longs, regulars);
    if k > 0 {
      OffersAre(ps, longs, regulars, k - 1, id);
      var offer := offers[k - 1].offer;
      SumAppend(OfferCounts(offers[..k - 1], id), Times(offer, id));
      assert OfferCounts(offers[..k], id) == OfferCounts(offers[..k - 1], id) + [Times(offer, id)];
      TimesConcat([longs[k - 1]], regulars[3 * (k - 1)..3 * k], id);
      TimesConcat(longs[..k - 1], [longs[k - 1]], id);
      assert longs[..k] == longs[..k - 1] + [longs[k - 1]];
      TimesConcat(regulars[..3 * (k - 1)], regulars[3 * (k - 1)..3 * k], id);
      assert regulars[..3 * k] == regulars[..3 * (k - 1)] + regulars[3 * (k - 1)..3 * k];
    }
  }

  ghost predicate Shuffled(a: seq<TicketId>, b: seq<TicketId>) {
    |a| == |b| && forall id :: Times(a, id) == Times(b, id)
  }

  lemma {:induction false} TicketsOnce(m: Board, ps: seq<Player>, longs: seq<TicketId>, regulars: seq<TicketId>, id: TicketId)
    requires m.Valid() && Shuffled(longs, m.longTickets) && Shuffled(regulars, m.regularTickets)
    requires |ps| <= |longs| && 3 * |ps| <= |regulars|
    ensures Sum(OfferCounts(Offers(ps, longs, regulars), id)) + Times(regulars[3 * |ps|..], id) <= 1
  {
    var n := |ps|;
    OffersAre(ps, longs, regulars, n, id);
    assert Offers(ps, longs, regulars)[..n] == Offers(ps, longs, regulars);
    TimesConcat(longs[..n], longs[n..], id);
    assert longs[..n] + longs[n..] == longs;
    TimesConcat(regulars[..3 * n], regulars[3 * n..], id);
    assert regulars[..3 * n] + regulars[3 * n..] == regulars;
    TimesDistinct(m.longTickets, id);
    TimesDistinct(m.regularTickets, id);
  }

  lemma {:induction false} InitCards(m: Board, seats: seq<SeatInit>, deck: seq<Color>, sh: Shuffler, longs: seq<TicketId>, regulars: seq<TicketId>, first: nat,
                  gs: Game, c: Color)
    requires Fair(sh) && 1 <= m.minPlayers && 4 * m.maxPlayers <= |deck|
    requires InitFrom(m, seats, deck, sh, longs, regulars, first) == Ok(gs)
    ensures Cards(gs, c) == Times(deck, c)
  {
    var seated := Seated(m, SortSeats(seats));
    SortedLength(seats);
    var k := INITIAL_TRAIN_CARDS * |seats|;
    EmptyHands(seated, c);
    DealtKeeps(seated, deck, k, c);
    var dealt := DealtHands(seated, deck, k);
    assert HandCounts(gs.players, c) == HandCounts(dealt, c);
    TimesConcat(deck[..k], deck[k..], c);
    assert deck[..k] + deck[k..] == deck;
    var left := Piles(deck[k..], [], [], 1);
    FilledKeeps(left, sh, c);
    FlushedKeeps(Filled(left, sh), sh, MAX_FLUSHES, c);
  }

  // A new player has played nothing.
  ghost predicate Fresh(m: Board, p: Player) {
    && p.trainsLeft == m.trainsPerPlayer && p.stationsLeft == m.stationsPerPlayer && p.routeScore == 0
    && p.claimed == [] && p.stations == [] && p.tickets == [] && !p.resigned && !p.setupDone
  }

  lemma InitPlayers(m: Board, seats: seq<SeatInit>, deck: seq<Color>, sh: Shuffler, longs: seq<TicketId>, regulars: seq<TicketId>, first: nat, gs: Game)
    requires DistinctSeats(seats) && 1 <= m.minPlayers && 4 * m.maxPlayers <= |deck|
    requires InitFrom(m, seats, deck, sh, longs, regulars, first) == Ok(gs)
    ensures |gs.players| == |seats| && SeatsOk(gs.players)
    ensures forall i :: 0 <= i < |gs.players| ==> Fresh(m, gs.players[i])
  {
    var sorted := SortSeats(seats);
    SortedLength(seats);
    SortedSeats(seats);
    DealtKeeps(Seated(m, sorted), deck, INITIAL_TRAIN_CARDS * |seats|, Loco);
    forall i, j | 0 <= i < j < |gs.players|
      ensures Apart(gs.players[i], gs.players[j])
    {
      assert sorted[i].seat < sorted[j].seat;
    }
  }

  lemma {:induction false} AllActive(ps: seq<Player>)
    requires forall i :: 0 <= i < |ps| ==> !ps[i].resigned
    ensures |ActiveSeats(ps)| == |ps|
  {
    if ps != [] {
      AllActive(ps[..|ps| - 1]);
    }
  }

  lemma FreshLedger(m: Board, gs: Game)
    requires m.Valid() && m.stationsPerPlayer >= 0 && forall i :: 0 <= i < |gs.players| ==> Fresh(m, gs.players[i])
    requires gs.routeOwner == map[] && gs.stationOwner == map[] && gs.closed == [] && gs.phase == SetupTickets
    ensures Ledger(m, gs) && TunnelOpen(m, gs)
  {
    forall i | 0 <= i < |gs.players|
      ensures PlayerLedger(m, gs.players[i])
    {
      assert Fresh(m, gs.players[i]);
    }
    forall i, id | 0 <= i < |gs.players|
      ensures !HasRoute(gs.players[i], id)
    {
      assert Fresh(m, gs.players[i]);
    }
    forall i, c | 0 <= i < |gs.players|
      ensures !HasStation(gs.players[i], c)
    {
      assert Fresh(m, gs.players[i]);
    }
    assert forall id :: !SiblingClaimed(m, gs, id);
  }

  lemma InitTickets(m: Board, seats: seq<SeatInit>, deck: seq<Color>, sh: Shuffler, longs: seq<TicketId>, regulars: seq<TicketId>, first: nat,
                    gs: Game, id: TicketId)
    requires m.Valid() && DistinctSeats(seats) && 4 * m.maxPlayers <= |deck|
    requires Shuffled(longs, m.longTickets) && Shuffled(regulars, m.regularTickets)
    requires InitFrom(m, seats, deck, sh, longs, regulars, first) == Ok(gs)
    ensures InCustody(gs, id) + OnOffer(gs, id) <= 1
  {
    InitPlayers(m, seats, deck, sh, longs, regulars, first, gs);
    SortedLength(seats);
    TicketsOnce(m, DealtHands(Seated(m, SortSeats(seats)), deck, INITIAL_TRAIN_CARDS * |seats|), longs, regulars, id);
    forall i | 0 <= i < |gs.players|
      ensures KeptCounts(gs.players, id)[i] == 0
    {
      assert Fresh(m, gs.players[i]);
    }
    SumBounds(KeptCounts(gs.players, id), 0, 0);
  }

  // A long and a regular ticket are never the same.
  lemma OffersAnswerable(m: Board, longs: seq<TicketId>, regulars: seq<TicketId>, ps: seq<Player>)
    requires m.Valid() && Shuffled(longs, m.longTickets) && Shuffled(regulars, m.regularTickets)
    requires |ps| <= |longs| && INITIAL_REGULAR_TICKETS * |ps| <= |regulars|
    requires forall i :: 0 <= i < |ps| ==> ps[i].offer == [longs[i]] + regulars[3 * i..3 * i + 3]
    ensures forall i :: 0 <= i < |ps| ==> CanAnswer(ps[i])
  {
    forall i | 0 <= i < |ps|
      ensures CanAnswer(ps[i])
    {
      TimesMember(longs, longs[i]);
      TimesMember(m.longTickets, longs[i]);
      TimesMember(regulars, regulars[3 * i]);
      TimesMember(m.regularTickets, regulars[3 * i]);
      assert longs[i] in longs && regulars[3 * i] in regulars;
    }
  }

  lemma InitFromKeeps(m: Board, seats: seq<SeatInit>, deck: seq<Color>, sh: Shuffler, longs: seq<TicketId>, regulars: seq<TicketId>,
                      first: nat, gs: Game)
    requires m.Valid() && m.stationsPerPlayer >= 0 && DistinctSeats(seats) && Fair(sh) && 4 * m.maxPlayers <= |deck|
    requires Shuffled(longs, m.longTickets) && Shuffled(regulars, m.regularTickets)
    requires InitFrom(m, seats, deck, sh, longs, regulars, first) == Ok(gs)
    ensures Flow(gs) && Ledger(m, gs) && TunnelOpen(m, gs) && NoTicketTwice(gs)
  {
    InitPlayers(m, seats, deck, sh, longs, regulars, first, gs);
    AllActive(gs.players);
    OffersAnswerable(m, longs, regulars, gs.players);
    FreshLedger(m, gs);
    forall id
      ensures InCustody(gs, id) + OnOffer(gs, id) <= 1
    {
      InitTickets(m, seats, deck, sh, longs, regulars, first, gs, id);
    }
  }

  // Everything the turn engine keeps holds of a new game: all 110 cards are
  // dealt out over the table and the hands, and no ticket is in two places.
  lemma InitKeeps(m: Board, seats: seq<SeatInit>, sh: Shuffler, longs: seq<TicketId>, regulars: seq<TicketId>, first: nat, gs: Game)
    requires m.Valid() && m.stationsPerPlayer >= 0 && DistinctSeats(seats) && Fair(sh) && 4 * m.maxPlayers <= |sh(0, FullDeck())|
    requires Shuffled(longs, m.longTickets) && Shuffled(regulars, m.regularTickets)
    requires InitState(m, seats, sh, longs, regulars, first) == Ok(gs)
    ensures Flow(gs) && Ledger(m, gs) && TunnelOpen(m, gs) && NoTicketTwice(gs) && RowOk(gs.piles)
    ensures forall c :: Cards(gs, c) == DeckCount(c)
  {
    var left := Piles(sh(0, FullDeck())[INITIAL_TRAIN_CARDS * |seats|..], [], [], 1);
    FilledRowOk(left, sh);
    FlushedRowOk(Filled(left, sh), sh, MAX_FLUSHES);
    InitFromKeeps(m, seats, sh(0, FullDeck()), sh, longs, regulars, first, gs);
    assert SameCards(sh(0, FullDeck()), FullDeck());
    forall c
      ensures Cards(gs, c) == DeckCount(c)
    {
      InitCards(m, seats, sh(0, FullDeck()), sh, longs, regulars, first, gs, c);
      FullDeckTimes(c);
    }
  }
}
