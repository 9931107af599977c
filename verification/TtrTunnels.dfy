// What a route costs.
module TtrTunnels {
  // A claim takes the route's length in cards and trains; a tunnel asks for one
  // card more for each revealed card that matches the payment.
  import opened Wrappers
  import opened Counting
  import opened TtrBoard
  import opened TtrPayment
  import opened TtrCards
  import opened TtrGame
  import opened TtrRules
  import opened TtrFlow
  import opened TtrLedger
  import opened TtrFinalRound
  import opened TtrActions

  // ---------------------------------------------------------------------
  // The reveal
  // ---------------------------------------------------------------------

  function First(s: seq<Color>, k: nat): seq<Color> {
    if |s| <= k then s else s[..k]
  }

  // One card more of the next ones.
  lemma FirstStep(cards: seq<Color>, k: nat)
    requires k >= 1
    ensures |cards| < k ==> First(cards, k) == First(cards, k - 1) == cards
    ensures |cards| >= k ==> First(cards, k) == First(cards, k - 1) + [cards[k - 1]] && cards[k - 1..][1..] == cards[k..]
  {
  }

  // The next hidden cards are turned, as far as there are any.
  lemma {:induction false} RevealsNext(p: Piles, k: nat, sh: Shuffler)
    ensures Revealed(p, k, sh).cards == First(Coming(p, sh), k)
    ensures Coming(Revealed(p, k, sh).piles, sh) == Coming(p, sh)[|First(Coming(p, sh), k)|..]
  {
    if k > 0 {
      RevealsNext(p, k - 1, sh);
      var before, cards := Revealed(p, k - 1, sh), Coming(p, sh);
      FirstStep(cards, k);
      if |cards| < k - 1 {
        assert Revealed(p, k, sh) == before;
      } else {
        var pop := Popped(before.piles, sh);
        PoppedComes(before.piles, sh);
        assert Revealed(p, k, sh) == if pop.card.Some? then Reveal(before.cards + [pop.card.value], pop.piles) else Reveal(before.cards, pop.piles);
      }
    }
  }

  // The revealed cards that cost one card more: locomotives, and cards of a
  // colour in the payment.
  ghost function Matching(revealed: seq<Color>, pay: Payment): set<nat> {
    set k | 0 <= k < |revealed| && (revealed[k] == Loco || revealed[k] in pay)
  }

  // The colour of a payment, besides locomotives.
  ghost predicate ColourOf(pay: Payment, c: Color) {
    forall d :: d == Loco || d in pay <==> d == Loco || d == c
  }

  lemma MatchesStep(cards: seq<Color>, card: Color, c: Color)
    ensures Matches(cards + [card], c) == Matches(cards, c) + if card == Loco || card == c then 1 else 0
  {
    TimesConcat(cards, [card], Loco);
    TimesConcat(cards, [card], c);
  }

  lemma {:induction false} MatchesCount(revealed: seq<Color>, pay: Payment, c: Color)
    requires ColourOf(pay, c)
    ensures |Matching(revealed, pay)| == Matches(revealed, c)
  {
    if revealed == [] {
      assert Matching(revealed, pay) == {};
    } else {
      var n := |revealed| - 1;
      MatchesCount(revealed[..n], pay, c);
      MatchesStep(revealed[..n], revealed[n], c);
      assert revealed == revealed[..n] + [revealed[n]];
      MatchingStep(revealed[..n], revealed[n], pay);
    }
  }

  lemma MatchingStep(cards: seq<Color>, card: Color, pay: Payment)
    ensures |Matching(cards + [card], pay)| == |Matching(cards, pay)| + if card == Loco || card in pay then 1 else 0
  {
    assert Matching(cards + [card], pay) == Matching(cards, pay) + if card == Loco || card in pay then {|cards|} else {};
  }

  // The colour that a legal payment declares.
  lemma {:induction false} DeclaredFound(pay: Payment, colors: seq<Color>)
    requires Loco !in colors
    ensures DeclaredIn(pay, colors) == Loco ==> forall d :: d in colors && d in pay ==> d == Loco
    ensures DeclaredIn(pay, colors) != Loco ==> DeclaredIn(pay, colors) in pay
  {
    if colors != [] {
      DeclaredFound(pay, colors[1..]);
      assert colors == [colors[0]] + colors[1..];
    }
  }

  lemma DeclaredIsColour(hand: Hand, pay: Payment, want: int)
    requires SingleColour(hand, pay, want) && WellFormed(pay)
    ensures ColourOf(pay, Declared(pay))
  {
    DeclaredFound(pay, CARD_COLORS);
    CardColorsListed();
  }

  lemma CardColorsListed()
    ensures forall d :: d != Gray && d != Loco ==> d in CARD_COLORS
  {
    assert CARD_COLORS == [Purple, Blue, Orange, White, Green, Yellow, Black, Red];
    forall d | d != Gray && d != Loco
      ensures d in CARD_COLORS
    {
      match d {
        case Purple => assert CARD_COLORS[0] == d;
        case Blue => assert CARD_COLORS[1] == d;
        case Orange => assert CARD_COLORS[2] == d;
        case White => assert CARD_COLORS[3] == d;
        case Green => assert CARD_COLORS[4] == d;
        case Yellow => assert CARD_COLORS[5] == d;
        case Black => assert CARD_COLORS[6] == d;
        case Red => assert CARD_COLORS[7] == d;
      }
    }
  }

  // ---------------------------------------------------------------------
  // Claims
  // ---------------------------------------------------------------------

  // The cards of a payment are gone from a hand, and no others.
  ghost predicate PaidFrom(before: Hand, after: Hand, pay: Payment) {
    forall c :: after[c] == before[c] - Count(pay, c)
  }

  // Route r is player i's for these cards; nobody else's books change.
  ghost predicate TakesRoute(gs: Game, after: Game, i: nat, r: Route, pay: Payment) {
    && i < |gs.players| == |after.players| && PointsForLength(r.length).Some?
    && after.players == gs.players[i := after.players[i]] && after.routeOwner == gs.routeOwner[r.id := gs.players[i].seat]
    && PaidFrom(gs.players[i].hand, after.players[i].hand, pay)
    && after.players[i] == gs.players[i].(hand := after.players[i].hand, trainsLeft := gs.players[i].trainsLeft - r.length,
                                          routeScore := gs.players[i].routeScore + PointsForLength(r.length).value,
                                          claimed := gs.players[i].claimed + [r.id])
  }

  // The claim waits: the payment has left the hand and nobody has the route.
  ghost predicate WaitsForSurcharge(gs: Game, after: Game, i: nat, r: Route, pay: Payment, revealed: seq<Color>) {
    && HandOnly(gs, after, i) && PaidFrom(gs.players[i].hand, after.players[i].hand, pay) && after.routeOwner == gs.routeOwner
    && after.phase == AwaitTunnel && after.tunnel.Some?
    && var t := after.tunnel.value;
       t.route == r.id && t.base == pay && ColourOf(pay, t.color) && t.revealed == revealed && t.surcharge == |Matching(revealed, pay)|
  }

  lemma CommitTakes(gs: Game, paid: Game, i: nat, r: Route, pay: Payment, laid: Payment)
    requires Flow(gs) && gs.phase != Finished && PointsForLength(r.length).Some? && HandOnly(gs, paid, i)
    requires paid == gs.(players := paid.players, piles := paid.piles, tunnel := paid.tunnel)
    requires PaidFrom(gs.players[i].hand, paid.players[i].hand, pay)
    ensures var after := EndTurn(FinishClaim(paid, i, r, laid), i); TakesRoute(gs, after, i, r, pay) && Completes(gs, after, i)
  {
    FinishTakes(gs, paid, i, r, pay, laid);
    TurnCompletes(gs, FinishClaim(paid, i, r, laid), i);
  }

  // The cards laid down may include some that were paid before.
  lemma FinishTakes(gs: Game, paid: Game, i: nat, r: Route, pay: Payment, laid: Payment)
    requires PointsForLength(r.length).Some? && HandOnly(gs, paid, i) && paid.routeOwner == gs.routeOwner
    requires PaidFrom(gs.players[i].hand, paid.players[i].hand, pay)
    ensures TakesRoute(gs, FinishClaim(paid, i, r, laid), i, r, pay) && SameStanding(gs.players, FinishClaim(paid, i, r, laid).players)
  {
  }

  lemma DebitPays(hand: Hand, pay: Payment, want: int)
    requires SingleColour(hand, pay, want)
    ensures PaidFrom(hand, Debited(hand, pay), pay)
  {
  }

  lemma TunnelDoes(gs: Game, paid: Game, i: nat, r: Route, pay: Payment, sh: Shuffler)
    requires Flow(gs) && gs.phase == Normal && PointsForLength(r.length).Some? && HandOnly(gs, paid, i)
    requires paid == gs.(players := paid.players) && PaidFrom(gs.players[i].hand, paid.players[i].hand, pay)
    requires SingleColour(gs.players[i].hand, pay, r.length) && WellFormed(pay)
    ensures var after := BeginTunnel(paid, i, r, pay, Declared(pay), sh); var revealed := First(Coming(gs.piles, sh), 3);
            if Matching(revealed, pay) == {} then TakesRoute(gs, after, i, r, pay) && Completes(gs, after, i)
            else WaitsForSurcharge(gs, after, i, r, pay, revealed) && Continues(gs, after)
  {
    var turned := Revealed(paid.piles, TUNNEL_REVEAL_COUNT, sh);
    RevealsNext(paid.piles, TUNNEL_REVEAL_COUNT, sh);
    DeclaredIsColour(gs.players[i].hand, pay, r.length);
    MatchesCount(turned.cards, pay, Declared(pay));
    if Matching(turned.cards, pay) == {} {
      CommitTakes(gs, paid.(piles := Discarded(turned.piles, turned.cards)), i, r, pay, pay);
    } else {
      TurnContinues(gs, TunnelTurned(paid, i, r, pay, Declared(pay), turned));
    }
  }

  // An accepted claim costs the route's length in cards and trains. A tunnel
  // turns the next three cards: without a match the route is taken at once, and
  // otherwise the claim waits for as many cards more as there are matches.
  lemma ClaimDoes(m: Board, gs: Game, user: nat, id: RouteId, pay: Payment, sh: Shuffler, handFirst: bool, after: Game) returns (i: nat)
    requires m.Valid() && Flow(gs) && Apply(m, gs, user, ClaimRoute(id, pay), sh, handFirst) == Ok(after)
    ensures gs.phase == Normal && i < |gs.players| && OfUser(gs.players, user) == Some(i) && id in m.routeById
    ensures var r := m.routeById[id]; var revealed := First(Coming(gs.piles, sh), 3);
            && Total(pay) == r.length
            && if r.tunnel && Matching(revealed, pay) != {} then WaitsForSurcharge(gs, after, i, r, pay, revealed) && Continues(gs, after)
               else TakesRoute(gs, after, i, r, pay) && Completes(gs, after, i)
  {
    i := OfUser(gs.players, user).value;
    var r := m.routeById[id];
    assert m.ValidRoute(id, r);
    var stepped := ApplyClaimRoute(m, gs, i, id, pay, sh).value;
    ClaimTakes(m, gs, i, id, pay, sh, stepped);
  }

  lemma ClaimTakes(m: Board, gs: Game, i: nat, id: RouteId, pay: Payment, sh: Shuffler, after: Game)
    requires m.Valid() && Flow(gs) && gs.phase == Normal && i < |gs.players| && ApplyClaimRoute(m, gs, i, id, pay, sh) == Ok(after)
    ensures id in m.routeById
    ensures var r := m.routeById[id]; var revealed := First(Coming(gs.piles, sh), 3);
            && Total(pay) == r.length
            && if r.tunnel && Matching(revealed, pay) != {} then WaitsForSurcharge(gs, after, i, r, pay, revealed) && Continues(gs, after)
               else TakesRoute(gs, after, i, r, pay) && Completes(gs, after, i)
  {
    var r := m.routeById[id];
    assert m.ValidRoute(id, r);
    var paid := gs.(players := HandTo(gs.players, i, Debited(gs.players[i].hand, pay)));
    DebitPays(gs.players[i].hand, pay, r.length);
    if r.tunnel {
      TunnelDoes(gs, paid, i, r, pay, sh);
    } else {
      CommitTakes(gs, paid, i, r, pay, pay);
    }
  }

  // ---------------------------------------------------------------------
  // The surcharge
  // ---------------------------------------------------------------------

  // Exactly the surcharge, from the hand, in the colour of the claim's payment
  // and locomotives.
  ghost predicate PaysSurcharge(t: Tunnel, hand: Hand, extra: Payment) {
    && WellFormed(extra) && Total(extra) == t.surcharge
    && forall c :: c in extra ==> (c == t.color || c == Loco) && extra[c] <= hand[c]
  }

  // The claim's payment comes back, and nobody has the route.
  ghost predicate GivesBack(gs: Game, after: Game, i: nat, t: Tunnel) {
    && HandOnly(gs, after, i) && after.routeOwner == gs.routeOwner
    && forall c :: after.players[i].hand[c] == gs.players[i].hand[c] + if Count(t.base, c) > 0 then Count(t.base, c) else 0
  }

  lemma FitsIsPays(t: Tunnel, hand: Hand, extra: Payment, handFirst: bool)
    requires WellFormed(extra)
    ensures SurchargeVerdict(t, hand, extra, handFirst) == Fits <==> PaysSurcharge(t, hand, extra)
  {
  }

  lemma AcceptTakes(gs: Game, i: nat, r: Route, t: Tunnel, extra: Payment)
    requires Flow(gs) && gs.phase == AwaitTunnel && PointsForLength(r.length).Some? && i < |gs.players| && PaysSurcharge(t, gs.players[i].hand, extra)
    ensures TakesRoute(gs, Accepted(gs, i, r, t, extra), i, r, extra) && Completes(gs, Accepted(gs, i, r, t, extra), i)
  {
    SurchargePays(gs.players[i].hand, t, extra);
    CommitTakes(gs, Surcharged(gs, i, t, extra), i, r, extra, Merged(t.base, extra));
  }

  lemma SurchargePays(hand: Hand, t: Tunnel, extra: Payment)
    requires PaysSurcharge(t, hand, extra)
    ensures PaidFrom(hand, Debited(hand, extra), extra)
  {
  }

  lemma RefundGivesBack(gs: Game, i: nat, t: Tunnel)
    requires Flow(gs) && gs.phase == AwaitTunnel && i < |gs.players|
    ensures GivesBack(gs, Refunded(gs, i, t), i, t) && Completes(gs, Refunded(gs, i, t), i)
  {
    TurnCompletes(gs, Repaid(gs, i, t), i);
  }

  // Whoever pays the surcharge has the route; everybody else has the claim's
  // payment back, and the turn is over either way.
  ghost predicate Decides(m: Board, gs: Game, after: Game, i: nat, accept: bool, extra: Payment)
    requires gs.tunnel.Some? && i < |gs.players|
  {
    var t := gs.tunnel.value;
    && Completes(gs, after, i)
    && if accept && PaysSurcharge(t, gs.players[i].hand, extra)
       then t.route in m.routeById && TakesRoute(gs, after, i, m.routeById[t.route], extra)
       else GivesBack(gs, after, i, t)
  }

  lemma DecisionDoes(m: Board, gs: Game, user: nat, keep: seq<TicketId>, accept: bool, extra: Payment, sh: Shuffler, handFirst: bool,
                     after: Game) returns (i: nat)
    requires m.Valid() && Flow(gs) && gs.phase == AwaitTunnel && gs.tunnel.Some?
    requires Apply(m, gs, user, ResolveDecision(KTunnel, keep, accept, extra), sh, handFirst) == Ok(after)
    ensures i < |gs.players| && OfUser(gs.players, user) == Some(i) && Decides(m, gs, after, i, accept, extra)
  {
    var decided;
    i, decided := Taken(m, gs, user, ResolveDecision(KTunnel, keep, accept, extra), sh, handFirst, after);
    DecidedDoes(m, gs, i, accept, extra, handFirst, decided);
    NumberedDecides(m, gs, decided, after, i, accept, extra);
  }

  // The number of an action is no part of what it does.
  lemma NumberedDecides(m: Board, gs: Game, decided: Game, after: Game, i: nat, accept: bool, extra: Payment)
    requires gs.tunnel.Some? && i < |gs.players| && Decides(m, gs, decided, i, accept, extra) && after == decided.(seqNo := decided.seqNo + 1)
    ensures Decides(m, gs, after, i, accept, extra)
  {
  }

  lemma DecidedDoes(m: Board, gs: Game, i: nat, accept: bool, extra: Payment, handFirst: bool, after: Game)
    requires m.Valid() && Flow(gs) && gs.phase == AwaitTunnel && gs.tunnel.Some? && i < |gs.players|
    requires ApplyTunnelDecision(m, gs, i, accept, extra, handFirst) == Ok(after)
    ensures Decides(m, gs, after, i, accept, extra)
  {
    var t := gs.tunnel.value;
    RefundGivesBack(gs, i, t);
    if accept && WellFormed(extra) {
      FitsIsPays(t, gs.players[i].hand, extra, handFirst);
      if PaysSurcharge(t, gs.players[i].hand, extra) {
        assert m.ValidRoute(t.route, m.routeById[t.route]);
        AcceptTakes(gs, i, m.routeById[t.route], t, extra);
      }
    }
  }

  // ---------------------------------------------------------------------
  // Which routes can be claimed
  // ---------------------------------------------------------------------

  ghost predicate OwnedBy(gs: Game, id: RouteId, i: nat) {
    i < |gs.players| && id in gs.players[i].claimed
  }

  // Free, with trains enough, and its double not the player's own nor, with two
  // or three players, anybody's.
  ghost predicate IsFree(m: Board, gs: Game, i: nat, r: Route)
    requires i < |gs.players|
  {
    && gs.players[i].trainsLeft >= r.length
    && (forall k: nat :: !OwnedBy(gs, r.id, k))
    && (r.pair.Some? ==> forall k: nat :: OwnedBy(gs, r.pair.value, k) ==> k != i && |gs.players| > 3)
  }

  lemma OwnedIsListed(m: Board, gs: Game, id: RouteId)
    requires Ledger(m, gs)
    ensures id in gs.routeOwner <==> exists k: nat :: OwnedBy(gs, id, k)
  {
    if id in gs.routeOwner {
      var k :| 0 <= k < |gs.players| && HasRoute(gs.players[k], id);
      assert OwnedBy(gs, id, k);
    }
    if k: nat :| OwnedBy(gs, id, k) {
      assert HasRoute(gs.players[k], id);
    }
  }

  // A route is closed when its double is taken among two or three players.
  lemma ClosedMeans(m: Board, gs: Game, r: Route)
    requires m.Valid() && Ledger(m, gs) && r.id in m.routeById && m.routeById[r.id] == r && r.id !in gs.routeOwner
    ensures r.id in gs.closed <==> |gs.players| <= 3 && r.pair.Some? && r.pair.value in gs.routeOwner
  {
    if r.id in gs.closed && |gs.players| <= 3 {
      var o :| o in gs.routeOwner && IsSibling(m, o, r.id);
      assert m.ValidPair(o, r.id);
    }
    if |gs.players| <= 3 && r.pair.Some? && r.pair.value in gs.routeOwner {
      assert m.ValidPair(r.id, r.pair.value);
      assert IsSibling(m, r.pair.value, r.id);
    }
  }

  // What the books of the game say about a claim.
  lemma ClaimableMeans(m: Board, gs: Game, i: nat, r: Route)
    requires m.Valid() && Ledger(m, gs) && i < |gs.players| && r.id in m.routeById && m.routeById[r.id] == r
    ensures Claimable(gs, i, r) <==> IsFree(m, gs, i, r)
  {
    OwnedIsListed(m, gs, r.id);
    if r.id !in gs.routeOwner {
      ClosedMeans(m, gs, r);
      if r.pair.Some? {
        DoubleMeans(m, gs, i, r.pair.value);
      }
    }
  }

  lemma DoubleMeans(m: Board, gs: Game, i: nat, other: RouteId)
    requires Ledger(m, gs) && i < |gs.players|
    ensures (forall k: nat :: OwnedBy(gs, other, k) ==> k != i && |gs.players| > 3) <==>
              other !in gs.players[i].claimed && (|gs.players| <= 3 ==> other !in gs.routeOwner)
  {
    OwnedIsListed(m, gs, other);
    assert OwnedBy(gs, other, i) <==> other in gs.players[i].claimed;
  }

  // A claim is accepted exactly from the player to move, for a free route, with
  // a payment of its length in its colour and, on a ferry, its locomotives.
  lemma ClaimAcceptedIff(m: Board, gs: Game, i: nat, id: RouteId, pay: Payment, sh: Shuffler, handFirst: bool)
    requires m.Valid() && Flow(gs) && Ledger(m, gs) && i < |gs.players| && !gs.players[i].resigned && gs.phase != Finished
    ensures Apply(m, gs, gs.players[i].user, ClaimRoute(id, pay), sh, handFirst).Ok? <==>
              && gs.phase == Normal && gs.players[i].seat == gs.currentSeat && id in m.routeById && IsFree(m, gs, i, m.routeById[id])
              && WellFormed(pay) && Pays(m.routeById[id], gs.players[i].hand, pay)
  {
    SeatFound(gs.players, i);
    CurrentIs(gs, i);
    var a := ClaimRoute(id, pay);
    assert Gate(gs, i, a).None? <==> gs.phase == Normal && gs.players[i].seat == gs.currentSeat;
    assert Apply(m, gs, gs.players[i].user, a, sh, handFirst).Ok? <==> Gate(gs, i, a).None? && ApplyClaimRoute(m, gs, i, id, pay, sh).Ok?;
    if id in m.routeById {
      assert m.ValidRoute(id, m.routeById[id]);
      ClaimableMeans(m, gs, i, m.routeById[id]);
    }
  }
}
