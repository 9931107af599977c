// What everybody starts a game with.
module TtrDeals {
  // Four cards each, one at a time around the table, one long and three regular
  // tickets on offer, all trains and stations, and a row of five.
  import opened Wrappers
  import Arithmetic
  import opened Counting
  import opened Lobby
  import opened TtrBoard
  import opened TtrPayment
  import opened TtrCards
  import opened TtrGame
  import opened TtrRules
  import opened TtrSetup

  // ---------------------------------------------------------------------
  // Hands
  // ---------------------------------------------------------------------

  // A card of the deal is player i's when it is his place's in one of the rounds.
  lemma PlaceInRounds(x: nat, n: nat, i: nat)
    requires i < n && x < 4 * n
    ensures x % n == i <==> x == i || x == n + i || x == 2 * n + i || x == 3 * n + i
  {
    if x < n {
      Arithmetic.RemainderIs(x, n, 0, x);
    } else if x < 2 * n {
      Arithmetic.RemainderIs(x, n, 1, x - n);
    } else if x < 3 * n {
      Arithmetic.RemainderIs(x, n, 2, x - 2 * n);
    } else {
      Arithmetic.RemainderIs(x, n, 3, x - 3 * n);
    }
  }

  // How many cards c player i has after k cards of the deal.
  function InRounds(deck: seq<Color>, n: nat, i: nat, k: nat, c: Color): int
    requires i < n && k <= 4 * n <= |deck|
  {
    (if i < k then Is(deck[i], c) else 0) + (if n + i < k then Is(deck[n + i], c) else 0) +
    (if 2 * n + i < k then Is(deck[2 * n + i], c) else 0) + (if 3 * n + i < k then Is(deck[3 * n + i], c) else 0)
  }

  lemma RoundStep(deck: seq<Color>, n: nat, i: nat, k: nat, c: Color)
    requires i < n && 0 < k <= 4 * n <= |deck|
    ensures InRounds(deck, n, i, k, c) == InRounds(deck, n, i, k - 1, c) + if (k - 1) % n == i then Is(deck[k - 1], c) else 0
  {
    PlaceInRounds(k - 1, n, i);
  }

  lemma {:induction false} HandAfter(ps: seq<Player>, deck: seq<Color>, k: nat, i: nat, c: Color)
    requires i < |ps| && k <= 4 * |ps| <= |deck|
    ensures DealtHands(ps, deck, k)[i].hand[c] == ps[i].hand[c] + InRounds(deck, |ps|, i, k, c)
  {
    if k > 0 {
      HandAfter(ps, deck, k - 1, i, c);
      RoundStep(deck, |ps|, i, k, c);
      var before := DealtHands(ps, deck, k - 1);
      assert DealtHands(ps, deck, k)[i].hand[c] ==
             before[i].hand[c] + if (k - 1) % |ps| == i then Is(deck[k - 1], c) else 0;
    }
  }

  // These cards and no others.
  ghost predicate Holds(hand: Hand, cards: seq<Color>) {
    forall c :: hand[c] == Times(cards, c)
  }

  // The i-th card of each of the four rounds.
  function Rounds(deck: seq<Color>, n: nat, i: nat): seq<Color>
    requires i < n && 4 * n <= |deck|
  {
    [deck[i], deck[n + i], deck[2 * n + i], deck[3 * n + i]]
  }

  lemma {:induction false} FourEach(ps: seq<Player>, deck: seq<Color>, i: nat)
    requires i < |ps| && 4 * |ps| <= |deck| && ps[i].hand == multiset{}
    ensures Holds(DealtHands(ps, deck, 4 * |ps|)[i].hand, Rounds(deck, |ps|, i))
  {
    forall c
      ensures DealtHands(ps, deck, 4 * |ps|)[i].hand[c] == Times(Rounds(deck, |ps|, i), c)
    {
      HandAfter(ps, deck, 4 * |ps|, i, c);
      FourTimes(Rounds(deck, |ps|, i), c);
    }
  }

  lemma {:induction false} FourTimes(cards: seq<Color>, c: Color)
    requires |cards| == 4
    ensures Times(cards, c) == Is(cards[0], c) + Is(cards[1], c) + Is(cards[2], c) + Is(cards[3], c)
  {
    assert cards[1..][1..] == cards[2..] && cards[2..][1..] == cards[3..] && cards[3..][1..] == [];
    assert Times(cards[3..], c) == Is(cards[3], c);
    assert Times(cards[2..], c) == Times(cards[3..], c) + Is(cards[2], c);
    assert Times(cards[1..], c) == Times(cards[2..], c) + Is(cards[1], c);
  }

  // ---------------------------------------------------------------------
  // A new game
  // ---------------------------------------------------------------------

  // Player i of n, from the shuffled deck and tickets.
  ghost predicate StartsWith(m: Board, p: Player, seat: SeatInit, deck: seq<Color>, longs: seq<TicketId>, regulars: seq<TicketId>, n: nat, i: nat)
    requires i < n && 4 * n <= |deck| && n <= |longs| && 3 * n <= |regulars|
  {
    && p.seat == seat.seat && p.user == seat.user
    && Holds(p.hand, Rounds(deck, n, i))
    && p.offer == [longs[i], regulars[3 * i], regulars[3 * i + 1], regulars[3 * i + 2]]
    && p.trainsLeft == m.trainsPerPlayer && p.stationsLeft == m.stationsPerPlayer
    && p.claimed == [] && p.stations == [] && p.tickets == [] && p.routeScore == 0 && !p.setupDone && !p.resigned
  }

  lemma {:induction false} NewPlayer(m: Board, seats: seq<SeatInit>, deck: seq<Color>, longs: seq<TicketId>, regulars: seq<TicketId>, i: nat)
    requires i < |seats| && 4 * |seats| <= |deck| && |seats| <= |longs| && 3 * |seats| <= |regulars|
    ensures StartsWith(m, Offers(DealtHands(Seated(m, seats), deck, 4 * |seats|), longs, regulars)[i], seats[i], deck, longs, regulars, |seats|, i)
  {
    var ps := Seated(m, seats);
    FourEach(ps, deck, i);
    OnlyHands(ps, deck, 4 * |seats|, i);
    FourTickets(longs, regulars, i);
  }

  lemma {:induction false} OnlyHands(ps: seq<Player>, deck: seq<Color>, k: nat, i: nat)
    requires i < |ps| && k <= |deck|
    ensures DealtHands(ps, deck, k)[i] == ps[i].(hand := DealtHands(ps, deck, k)[i].hand)
  {
    DealtKeeps(ps, deck, k, Loco);
  }

  lemma FourTickets(longs: seq<TicketId>, regulars: seq<TicketId>, i: nat)
    requires i < |longs| && 3 * i + 3 <= |regulars|
    ensures [longs[i]] + regulars[3 * i..3 * i + 3] == [longs[i], regulars[3 * i], regulars[3 * i + 1], regulars[3 * i + 2]]
  {
  }

  // Everybody has his cards, tickets, trains and stations; the first player is
  // the drawn one; the tickets left are the deck.
  lemma {:induction false} NewGameDeals(m: Board, seats: seq<SeatInit>, sh: Shuffler, longs: seq<TicketId>, regulars: seq<TicketId>, first: nat, gs: Game)
    requires m.Valid() && DistinctSeats(seats) && 4 * m.maxPlayers <= |sh(0, FullDeck())|
    requires InitState(m, seats, sh, longs, regulars, first) == Ok(gs)
    ensures var n := |seats|; var deck := sh(0, FullDeck());
            && 0 < n && m.minPlayers <= n <= m.maxPlayers && 4 * n <= |deck| && n <= |longs| && 3 * n <= |regulars| && |gs.players| == |SortSeats(seats)| == n
            && (forall i :: 0 <= i < n ==> StartsWith(m, gs.players[i], SortSeats(seats)[i], deck, longs, regulars, n, i))
            && gs.currentSeat == gs.players[first % n].seat && gs.ticketDeck == regulars[3 * n..]
            && gs.phase == SetupTickets && gs.finalTurnsLeft == -1 && gs.routeOwner == map[] && gs.stationOwner == map[]
  {
    SortedLength(seats);
    forall i | 0 <= i < |seats|
      ensures StartsWith(m, gs.players[i], SortSeats(seats)[i], sh(0, FullDeck()), longs, regulars, |seats|, i)
    {
      NewPlayer(m, SortSeats(seats), sh(0, FullDeck()), longs, regulars, i);
    }
  }

  // The row is the next five cards, unless three of them are locomotives.
  lemma NewGameRow(m: Board, seats: seq<SeatInit>, sh: Shuffler, longs: seq<TicketId>, regulars: seq<TicketId>, first: nat, gs: Game)
    requires m.Valid() && 4 * m.maxPlayers + 5 <= |sh(0, FullDeck())|
    requires InitState(m, seats, sh, longs, regulars, first) == Ok(gs)
    requires Locos(sh(0, FullDeck())[4 * |seats|..4 * |seats| + 5]) < 3
    ensures var deck, k := sh(0, FullDeck()), 4 * |seats|;
            gs.piles.faceUp == deck[k..k + 5] && gs.piles.draw == deck[k + 5..] && gs.piles.discard == []
  {
    var deck, k := sh(0, FullDeck()), 4 * |seats|;
    FirstRow(deck[k..], sh);
    NextFive(deck, k);
    var filled := Filled(Piles(deck[k..], [], [], 1), sh);
    assert Flushed(filled, sh, MAX_FLUSHES) == filled;
  }

  lemma NextFive(deck: seq<Color>, k: nat)
    requires k + 5 <= |deck|
    ensures deck[k..][..5] == deck[k..k + 5] && deck[k..][5..] == deck[k + 5..]
  {
  }

  lemma FirstRow(cards: seq<Color>, sh: Shuffler)
    requires |cards| >= 5
    ensures Filled(Piles(cards, [], [], 1), sh) == Piles(cards[5..], [], cards[..5], 1)
  {
    RowOf(cards, 5, sh);
  }

  lemma {:induction false} RowOf(cards: seq<Color>, k: nat, sh: Shuffler)
    requires |cards| >= 5 && k <= 5
    ensures Filled(Piles(cards[5 - k..], [], cards[..5 - k], 1), sh) == Piles(cards[5..], [], cards[..5], 1)
  {
    if k > 0 {
      RowOf(cards, k - 1, sh);
      assert cards[..5 - k] + [cards[5 - k]] == cards[..5 - (k - 1)];
      assert cards[5 - k..][1..] == cards[5 - (k - 1)..];
    }
  }
}
