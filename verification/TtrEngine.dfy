// The turn engine as it runs: a game object whose piles, hands and pending
// fields the actions overwrite. Every method is tied to its specification.
module TtrEngine {
  import opened Wrappers
  import opened Lobby
  import Arithmetic
  import opened Counting
  import opened TtrBoard
  import opened TtrPayment
  import opened TtrCards
  import opened TtrGame
  import opened TtrRules
  import opened TtrSetup

  class GameState {
    const board: Board
    const sh: Shuffler
    var phase: Phase
    var seqNo: nat
    var turnNo: int
    var currentSeat: int
    var players: seq<Player>
    var drawPile: seq<Color>
    var discardPile: seq<Color>
    var faceUp: seq<Color>
    var shuffles: nat
    var ticketDeck: seq<TicketId>
    var routeOwner: map<RouteId, int>
    var stationOwner: map<City, int>
    var closed: seq<RouteId>
    var drawing: Option<Progress>
    var tunnel: Option<Tunnel>
    var ticketDraw: Option<seq<TicketId>>
    var finalTurnsLeft: int

    // The piles and the game these fields describe.
    function Table(): Piles
      reads this
    {
      Piles(drawPile, discardPile, faceUp, shuffles)
    }

    function Snapshot(): Game
      reads this
    {
      Game(phase, seqNo, turnNo, currentSeat, players, Table(), ticketDeck, routeOwner, stationOwner, closed,
           drawing, tunnel, ticketDraw, finalTurnsLeft)
    }

    constructor (board: Board, gs: Game, sh: Shuffler)
      ensures Snapshot() == gs && this.board == board && this.sh == sh
    {
      this.board, this.sh := board, sh;
      phase, seqNo, turnNo, currentSeat, players := gs.phase, gs.seqNo, gs.turnNo, gs.currentSeat, gs.players;
      drawPile, discardPile, faceUp, shuffles := gs.piles.draw, gs.piles.discard, gs.piles.faceUp, gs.piles.shuffles;
      ticketDeck, routeOwner, stationOwner, closed := gs.ticketDeck, gs.routeOwner, gs.stationOwner, gs.closed;
      drawing, tunnel, ticketDraw, finalTurnsLeft := gs.drawing, gs.tunnel, gs.ticketDraw, gs.finalTurnsLeft;
    }

    // An accepted action leaves the game the rules say; what a refused one
    // leaves is never stored.
    ghost predicate Done(refused: Option<Error>, r: Result<Game, Error>)
      reads this
    {
      match r
      case Ok(after) => refused.None? && Snapshot() == after
      case Err(e) => refused == Some(e)
    }

    // -------------------------------------------------------------------
    // Piles
    // -------------------------------------------------------------------

    method RefillDrawPile()
      modifies this`drawPile, this`discardPile, this`shuffles
      ensures Table() == Refilled(old(Table()), sh)
    {
      if drawPile != [] || discardPile == [] {
        return;
      }
      drawPile, discardPile := sh(shuffles, discardPile), [];
      shuffles := shuffles + 1;
    }

    method PopDrawPile() returns (card: Option<Color>)
      modifies this`drawPile, this`discardPile, this`shuffles
      ensures Pop(card, Table()) == Popped(old(Table()), sh)
    {
      RefillDrawPile();
      if drawPile == [] {
        return None;
      }
      card := Some(drawPile[0]);
      drawPile := drawPile[1..];
    }

    method FillFaceUp()
      modifies this`drawPile, this`discardPile, this`shuffles, this`faceUp
      ensures Table() == Filled(old(Table()), sh)
    {
      while |faceUp| < FACE_UP_SLOTS
        invariant Filled(Table(), sh) == Filled(old(Table()), sh)
        decreases FACE_UP_SLOTS - |faceUp|
      {
        ghost var before := Table();
        RefillDrawPile();
        if drawPile == [] {
          assert Filled(before, sh) == Table();
          return;
        }
        faceUp := faceUp + [drawPile[0]];
        drawPile := drawPile[1..];
        assert Filled(before, sh) == Filled(Table(), sh);
      }
    }

    static method CountLocos(row: seq<Color>) returns (n: int)
      ensures n == Locos(row)
    {
      n := 0;
      for i := 0 to |row|
        invariant n == Locos(row[..i])
      {
        TimesConcat(row[..i], [row[i]], Loco);
        assert row[..i + 1] == row[..i] + [row[i]];
        if row[i] == Loco {
          n := n + 1;
        }
      }
      assert row[..|row|] == row;
    }

    method FlushFaceUpLocos()
      modifies this`drawPile, this`discardPile, this`shuffles, this`faceUp
      ensures Table() == Flushed(old(Table()), sh, MAX_FLUSHES)
    {
      for k := 0 to MAX_FLUSHES
        invariant Flushed(Table(), sh, MAX_FLUSHES - k) == Flushed(old(Table()), sh, MAX_FLUSHES)
      {
        var n := CountLocos(faceUp);
        if n < LOCO_FLUSH_THRESHOLD {
          return;
        }
        discardPile := discardPile + faceUp;
        faceUp := [];
        FillFaceUp();
        if |faceUp| < FACE_UP_SLOTS {
          return;
        }
      }
    }

    method TakeFaceUp(slot: nat)
      requires slot < |faceUp|
      modifies this`drawPile, this`discardPile, this`shuffles, this`faceUp
      ensures Table() == TakenFaceUp(old(Table()), slot, sh)
    {
      RefillDrawPile();
      if drawPile != [] {
        faceUp := faceUp[slot := drawPile[0]];
        drawPile := drawPile[1..];
      } else {
        faceUp := faceUp[..slot] + faceUp[slot + 1..];
      }
      assert Table() == SlotRefilled(old(Table()), slot, sh);
      FillFaceUp();
      FlushFaceUpLocos();
    }

    // -------------------------------------------------------------------
    // Hands and payments
    // -------------------------------------------------------------------

    method AddToHand(i: nat, card: Color)
      requires i < |players|
      modifies this`players
      ensures players == HandTo(old(players), i, old(players[i].hand)[card := old(players[i].hand)[card] + 1])
    {
      var p := players[i];
      players := players[i := p.(hand := p.hand[card := p.hand[card] + 1])];
    }

    // The colours of a payment are visited in no particular order.
    method DebitHand(i: nat, pay: Payment)
      requires i < |players|
      modifies this`players
      ensures players == HandTo(old(players), i, Debited(old(players[i].hand), pay))
    {
      ghost var before := players[i].hand;
      var todo := pay.Keys;
      while todo != {}
        invariant todo <= pay.Keys && |players| == |old(players)|
        invariant players == old(players)[i := old(players[i]).(hand := players[i].hand)]
        invariant forall c :: players[i].hand[c] == if c in pay && c !in todo then Rest(before, pay, c) else before[c]
      {
        var c :| c in todo;
        var n := pay[c];
        if n > 0 {
          var hand := players[i].hand;
          var remaining := hand[c] - n;
          hand := hand[c := if remaining <= 0 then 0 else remaining];
          players := players[i := players[i].(hand := hand)];
        }
        todo := todo - {c};
      }
      assert players[i].hand == Debited(before, pay);
    }

    // A payment comes back card for card.
    method CreditHand(i: nat, pay: Payment)
      requires i < |players|
      modifies this`players
      ensures players == HandTo(old(players), i, Credited(old(players[i].hand), pay))
    {
      ghost var before := players[i].hand;
      var todo := pay.Keys;
      while todo != {}
        invariant todo <= pay.Keys && |players| == |old(players)|
        invariant players == old(players)[i := old(players[i]).(hand := players[i].hand)]
        invariant forall c :: players[i].hand[c] == before[c] + if c in pay && c !in todo && pay[c] > 0 then pay[c] else 0
      {
        var c :| c in todo;
        if pay[c] > 0 {
          var hand := players[i].hand;
          players := players[i := players[i].(hand := hand[c := hand[c] + pay[c]])];
        }
        todo := todo - {c};
      }
      assert players[i].hand == Credited(before, pay);
    }

    static method LayOut(pay: Payment, colors: seq<Color>) returns (cards: seq<Color>)
      ensures cards == LaidPayment(pay, colors)
    {
      cards := [];
      for k := 0 to |colors|
        invariant cards + LaidPayment(pay, colors[k..]) == LaidPayment(pay, colors)
      {
        var c := colors[k];
        assert colors[k..][1..] == colors[k + 1..] && colors[k..][0] == c;
        assert cards + LaidPayment(pay, colors[k..]) == cards + Copies(c, Count(pay, c)) + LaidPayment(pay, colors[k + 1..]);
        cards := cards + Copies(c, Count(pay, c));
      }
      assert LaidPayment(pay, colors[|colors|..]) == [];
    }

    static method LayOutHand(hand: Hand, colors: seq<Color>) returns (cards: seq<Color>)
      ensures cards == LaidHand(hand, colors)
    {
      cards := [];
      for k := 0 to |colors|
        invariant cards + LaidHand(hand, colors[k..]) == LaidHand(hand, colors)
      {
        var c := colors[k];
        assert colors[k..][1..] == colors[k + 1..] && colors[k..][0] == c;
        cards := cards + Copies(c, hand[c]);
      }
      assert LaidHand(hand, colors[|colors|..]) == [];
    }

    // -------------------------------------------------------------------
    // The end of a turn
    // -------------------------------------------------------------------

    static method ActivePlayers(ps: seq<Player>) returns (seats: seq<int>)
      ensures seats == ActiveSeats(ps)
    {
      seats := [];
      for i := 0 to |ps|
        invariant seats == ActiveSeats(ps[..i])
      {
        assert ps[..i + 1][..i] == ps[..i];
        if !ps[i].resigned {
          seats := seats + [ps[i].seat];
        }
      }
      assert ps[..|ps|] == ps;
    }

    method NextActiveSeat(seat: int) returns (next: int)
      ensures next == NextActive(players, seat)
    {
      var active := ActivePlayers(players);
      if active == [] {
        return seat;
      }
      for i := 0 to |active|
        invariant forall k :: 0 <= k < i ==> active[k] != seat
      {
        if active[i] == seat {
          FirstPosition(active, seat, i);
          return active[(i + 1) % |active|];
        }
      }
      return active[0];
    }

    static lemma {:induction false} FirstPosition(seats: seq<int>, seat: int, i: nat)
      requires i < |seats| && seats[i] == seat && forall k :: 0 <= k < i ==> seats[k] != seat
      ensures PositionIn(seats, seat) == Some(i)
    {
      if i > 0 {
        FirstPosition(seats[1..], seat, i - 1);
      }
    }

    method Advance()
      modifies this`phase, this`currentSeat
      ensures Snapshot() == AdvanceOrFinish(old(Snapshot()))
    {
      if finalTurnsLeft == 0 {
        phase := Finished;
        return;
      }
      phase := Normal;
      currentSeat := NextActiveSeat(currentSeat);
    }

    // The counter is armed or counted down, never both.
    method CountDown(i: nat)
      requires i < |players|
      modifies this`finalTurnsLeft
      ensures finalTurnsLeft == CountedDown(old(finalTurnsLeft), players[i].trainsLeft, ActiveCount(players))
    {
      if finalTurnsLeft < 0 && players[i].trainsLeft <= END_TRIGGER_TRAINS {
        var active := ActivePlayers(players);
        finalTurnsLeft := |active|;
      } else if finalTurnsLeft >= 0 {
        finalTurnsLeft := finalTurnsLeft - 1;
      }
    }

    method CloseTurn(i: nat)
      requires i < |players|
      modifies this`drawing, this`tunnel, this`ticketDraw, this`turnNo, this`finalTurnsLeft
      ensures drawing == None && tunnel == None && ticketDraw == None && turnNo == old(turnNo) + 1
      ensures finalTurnsLeft == CountedDown(old(finalTurnsLeft), players[i].trainsLeft, ActiveCount(players))
    {
      drawing, tunnel, ticketDraw := None, None, None;
      turnNo := turnNo + 1;
      CountDown(i);
    }

    method Finish(i: nat)
      requires i < |players|
      modifies this`drawing, this`tunnel, this`ticketDraw, this`turnNo, this`finalTurnsLeft, this`phase, this`currentSeat
      ensures Snapshot() == EndTurn(old(Snapshot()), i)
    {
      ghost var gs := Snapshot();
      CloseTurn(i);
      assert Snapshot() == TurnClosed(gs, i);
      Advance();
    }

    // -------------------------------------------------------------------
    // Drawing cards
    // -------------------------------------------------------------------

    method Receive(i: nat, card: Color, over: bool)
      requires i < |players|
      modifies this`players, this`drawing, this`tunnel, this`ticketDraw, this`turnNo, this`finalTurnsLeft, this`phase, this`currentSeat
      ensures Snapshot() == Drawn(old(Snapshot()), i, card, old(Table()), over)
    {
      AddToHand(i, card);
      drawing := None;
      assert Snapshot() == Dealt(old(Snapshot()), i, card, old(Table()));
      if over {
        Finish(i);
        return;
      }
      drawing := Some(Progress(1, true));
      phase := AwaitSecondDraw;
    }

    static lemma DrawnFrom(gs: Game, piles: Piles, i: nat, card: Color, over: bool)
      requires i < |gs.players|
      ensures Drawn(gs.(piles := piles), i, card, piles, over) == Drawn(gs, i, card, piles, over)
    {
    }

    method DrawBlind(i: nat) returns (refused: Option<Error>)
      requires i < |players|
      modifies this
      ensures Done(refused, ApplyDrawCard(old(Snapshot()), i, Deck, sh))
    {
      ghost var gs := Snapshot();
      var isSecond := drawing.Some? && drawing.value.cardsTaken > 0;
      var card := PopDrawPile();
      if card.None? {
        return Some(IllegalAction);
      }
      DrawnFrom(gs, Table(), i, card.value, isSecond);
      Receive(i, card.value, isSecond);
      return None;
    }

    method DrawFaceUp(i: nat, slot: int) returns (refused: Option<Error>)
      requires i < |players|
      modifies this
      ensures Done(refused, ApplyDrawCard(old(Snapshot()), i, FaceUpSlot(slot), sh))
    {
      ghost var gs := Snapshot();
      var isSecond := drawing.Some? && drawing.value.cardsTaken > 0;
      if slot < 0 || slot >= FACE_UP_SLOTS || slot >= |faceUp| {
        return Some(IllegalAction);
      }
      var card := faceUp[slot];
      if drawing.Some? && drawing.value.locoLocked && card == Loco {
        return Some(IllegalAction);
      }
      TakeFaceUp(slot);
      DrawnFrom(gs, Table(), i, card, isSecond || card == Loco);
      Receive(i, card, isSecond || card == Loco);
      return None;
    }

    method Draw(i: nat, source: Source) returns (refused: Option<Error>)
      requires i < |players|
      modifies this
      ensures Done(refused, ApplyDrawCard(old(Snapshot()), i, source, sh))
    {
      match source {
        case Deck => refused := DrawBlind(i);
        case FaceUpSlot(slot) => refused := DrawFaceUp(i, slot);
        case UnknownSource => return Some(IllegalAction);
      }
    }

    method CanDrawSecond() returns (r: bool)
      ensures r == SecondDrawAvailable(Table())
    {
      if drawPile != [] || discardPile != [] {
        return true;
      }
      for k := 0 to |faceUp|
        invariant forall j :: 0 <= j < k ==> faceUp[j] == Loco
      {
        if faceUp[k] != Loco {
          return true;
        }
      }
      return false;
    }

    method EndDraw(i: nat) returns (refused: Option<Error>)
      requires i < |players|
      modifies this
      ensures Done(refused, ApplyEndDraw(old(Snapshot()), i))
    {
      var more := CanDrawSecond();
      if more {
        return Some(IllegalAction);
      }
      drawing := None;
      Finish(i);
      return None;
    }

    // -------------------------------------------------------------------
    // Claiming routes
    // -------------------------------------------------------------------

    method RecordClaim(i: nat, r: Route, pay: Payment)
      requires i < |players| && PointsForLength(r.length).Some?
      modifies this`discardPile, this`players, this`routeOwner, this`closed
      ensures discardPile == old(discardPile) + LaidPayment(pay, ALL_COLORS)
      ensures players == old(players)[i := ClaimedBy(old(players)[i], r)]
      ensures routeOwner == old(routeOwner)[r.id := old(players)[i].seat]
      ensures closed == if |old(players)| <= 3 && r.pair.Some? then old(closed) + [r.pair.value] else old(closed)
    {
      var cards := LayOut(pay, ALL_COLORS);
      discardPile := discardPile + cards;
      var p := players[i];
      p := p.(trainsLeft := p.trainsLeft - r.length);
      p := p.(routeScore := p.routeScore + PointsForLength(r.length).value);
      routeOwner := routeOwner[r.id := p.seat];
      players := players[i := p.(claimed := p.claimed + [r.id])];
      if |players| <= 3 && r.pair.Some? {
        closed := closed + [r.pair.value];
      }
    }

    method ClaimAndFinish(i: nat, r: Route, pay: Payment)
      requires i < |players| && PointsForLength(r.length).Some?
      modifies this
      ensures Snapshot() == EndTurn(FinishClaim(old(Snapshot()), i, r, pay), i)
    {
      ghost var gs := Snapshot();
      RecordClaim(i, r, pay);
      assert Snapshot() == FinishClaim(gs, i, r, pay);
      Finish(i);
    }

    // Up to three cards, and how many of them match the payment's colour.
    method RevealTunnel(color: Color) returns (cards: seq<Color>, matches: int)
      modifies this`drawPile, this`discardPile, this`shuffles
      ensures Reveal(cards, Table()) == Revealed(old(Table()), TUNNEL_REVEAL_COUNT, sh)
      ensures matches == Matches(cards, color)
    {
      cards := [];
      for k := 0 to TUNNEL_REVEAL_COUNT
        invariant Reveal(cards, Table()) == Revealed(old(Table()), k, sh) && |cards| == k
      {
        var card := PopDrawPile();
        if card.None? {
          StopsEarly(old(Table()), k, sh);
          break;
        }
        cards := cards + [card.value];
      }
      assert Reveal(cards, Table()) == Revealed(old(Table()), TUNNEL_REVEAL_COUNT, sh);
      matches := CountMatches(cards, color);
    }

    // Once there is no card to reveal, nothing more is revealed.
    static lemma {:induction false} StopsEarly(p: Piles, k: nat, sh: Shuffler)
      requires k < TUNNEL_REVEAL_COUNT && |Revealed(p, k, sh).cards| == k && |Revealed(p, k + 1, sh).cards| == k
      ensures Revealed(p, TUNNEL_REVEAL_COUNT, sh) == Revealed(p, k + 1, sh)
    {
      assert Revealed(p, k + 2, sh) == Revealed(p, k + 1, sh);
      assert Revealed(p, k + 3, sh) == Revealed(p, k + 1, sh);
    }

    static method CountMatches(cards: seq<Color>, color: Color) returns (n: int)
      ensures n == Matches(cards, color)
    {
      n := 0;
      for k := 0 to |cards|
        invariant n == Matches(cards[..k], color)
      {
        TimesConcat(cards[..k], [cards[k]], Loco);
        TimesConcat(cards[..k], [cards[k]], color);
        assert cards[..k + 1] == cards[..k] + [cards[k]];
        if cards[k] == Loco || cards[k] == color {
          n := n + 1;
        }
      }
      assert cards[..|cards|] == cards;
    }

    method BurnAndClaim(i: nat, r: Route, pay: Payment, cards: seq<Color>)
      requires i < |players| && PointsForLength(r.length).Some?
      modifies this
      ensures Snapshot() == Burned(old(Snapshot()), i, r, pay, Reveal(cards, old(Table())))
    {
      ghost var gs := Snapshot();
      discardPile := discardPile + cards;
      assert Snapshot() == gs.(piles := Discarded(gs.piles, cards));
      ClaimAndFinish(i, r, pay);
    }

    method SettleReveal(i: nat, r: Route, pay: Payment, color: Color, cards: seq<Color>, matches: int)
      requires i < |players| && PointsForLength(r.length).Some? && matches == Matches(cards, color)
      modifies this
      ensures Snapshot() == TunnelTurned(old(Snapshot()), i, r, pay, color, Reveal(cards, old(Table())))
    {
      if matches == 0 {
        BurnAndClaim(i, r, pay, cards);
        return;
      }
      tunnel := Some(Tunnel(r.id, pay, color, cards, matches));
      phase := AwaitTunnel;
    }

    static lemma TurnedFrom(gs: Game, i: nat, r: Route, pay: Payment, color: Color, turned: Reveal)
      requires i < |gs.players| && PointsForLength(r.length).Some?
      ensures TunnelTurned(gs.(piles := turned.piles), i, r, pay, color, turned) == TunnelTurned(gs, i, r, pay, color, turned)
    {
    }

    // The payment has left the hand; the surcharge decides what happens next.
    method StartTunnel(i: nat, r: Route, pay: Payment, color: Color)
      requires i < |players| && PointsForLength(r.length).Some?
      modifies this
      ensures Snapshot() == BeginTunnel(old(Snapshot()), i, r, pay, color, sh)
    {
      ghost var gs := Snapshot();
      var cards, matches := RevealTunnel(color);
      TurnedFrom(gs, i, r, pay, color, Reveal(cards, Table()));
      assert Snapshot() == gs.(piles := Table());
      SettleReveal(i, r, pay, color, cards, matches);
    }

    method Claim(i: nat, id: RouteId, pay: Payment) returns (refused: Option<Error>)
      requires board.Valid() && i < |players|
      modifies this
      ensures Done(refused, ApplyClaimRoute(board, old(Snapshot()), i, id, pay, sh))
    {
      if id !in board.routeById {
        return Some(IllegalAction);
      }
      var r := board.routeById[id];
      if !Claimable(Snapshot(), i, r) {
        return Some(IllegalAction);
      }
      var wellFormed := PaymentToColors(pay);
      if !wellFormed {
        return Some(IllegalAction);
      }
      var color := ValidatePayment(r, players[i].hand, pay);
      if color.None? {
        return Some(IllegalAction);
      }
      DeclaredIs(pay, color.value);
      DebitHand(i, pay);
      if r.tunnel {
        StartTunnel(i, r, pay, color.value);
        return None;
      }
      ClaimAndFinish(i, r, pay);
      return None;
    }

    static lemma DeclaredIs(pay: Payment, c: Color)
      requires WellFormed(pay) && Declares(pay, c) && forall d, e :: d in pay && e in pay && d != Loco && e != Loco ==> d == e
      ensures Declared(pay) == c
    {
      DeclaredFound(pay, CARD_COLORS);
      ColorsOnce();
      if c != Loco {
        assert c in ALL_COLORS;
        assert ALL_COLORS == CARD_COLORS + [Loco];
      }
    }

    static lemma {:induction false} DeclaredFound(pay: Payment, colors: seq<Color>)
      requires Loco !in colors
      ensures if DeclaredIn(pay, colors) == Loco then forall c :: c in colors ==> c !in pay
              else DeclaredIn(pay, colors) in pay
    {
      if colors != [] {
        DeclaredFound(pay, colors[1..]);
        assert colors == [colors[0]] + colors[1..];
      }
    }

    // -------------------------------------------------------------------
    // A parked tunnel
    // -------------------------------------------------------------------

    // Which of two different faults is found first depends on the order in which
    // the colours are visited, and that order is arbitrary.
    static method CheckSurcharge(t: Tunnel, hand: Hand, extra: Payment) returns (verdict: Verdict, ghost handFirst: bool)
      ensures verdict == SurchargeVerdict(t, hand, extra, handFirst)
    {
      handFirst := true;
      var total := 0;
      var todo := extra.Keys;
      while todo != {}
        invariant todo <= extra.Keys && total == TotalOf(extra, extra.Keys - todo)
        invariant forall c :: c in extra && c !in todo ==> (c == t.color || c == Loco) && hand[c] >= extra[c]
      {
        var c :| c in todo;
        var n := extra[c];
        if c != t.color && c != Loco {
          handFirst := false;
          return Malformed, handFirst;
        }
        if hand[c] < n {
          return Unaffordable, handFirst;
        }
        total := total + n;
        OneMore(extra, extra.Keys - todo, c);
        assert extra.Keys - (todo - {c}) == (extra.Keys - todo) + {c};
        todo := todo - {c};
      }
      assert extra.Keys - todo == extra.Keys;
      verdict := if total != t.surcharge then Malformed else Fits;
    }

    method GiveBack(i: nat, t: Tunnel)
      requires i < |players|
      modifies this`players, this`discardPile, this`tunnel
      ensures Snapshot() == Repaid(old(Snapshot()), i, t)
    {
      CreditHand(i, t.base);
      discardPile := discardPile + t.revealed;
      tunnel := None;
    }

    method Refund(i: nat, t: Tunnel)
      requires i < |players|
      modifies this
      ensures Snapshot() == Refunded(old(Snapshot()), i, t)
    {
      GiveBack(i, t);
      Finish(i);
    }

    method TakeSurcharge(i: nat, t: Tunnel, extra: Payment)
      requires i < |players|
      modifies this`players, this`discardPile, this`tunnel
      ensures Snapshot() == Surcharged(old(Snapshot()), i, t, extra)
    {
      DebitHand(i, extra);
      discardPile := discardPile + t.revealed;
      tunnel := None;
    }

    method PaySurcharge(i: nat, r: Route, t: Tunnel, extra: Payment)
      requires i < |players| && PointsForLength(r.length).Some?
      modifies this
      ensures Snapshot() == Accepted(old(Snapshot()), i, r, t, extra)
    {
      TakeSurcharge(i, t, extra);
      ClaimAndFinish(i, r, Merged(t.base, extra));
    }

    method ResolveTunnel(i: nat, accept: bool, extra: Payment) returns (refused: Option<Error>, ghost handFirst: bool)
      requires board.Valid() && i < |players|
      modifies this
      ensures Done(refused, ApplyTunnelDecision(board, old(Snapshot()), i, accept, extra, handFirst))
    {
      handFirst := true;
      if tunnel.None? {
        return Some(IllegalAction), handFirst;
      }
      var t := tunnel.value;
      if !accept {
        Refund(i, t);
        return None, handFirst;
      }
      var wellFormed := PaymentToColors(extra);
      if !wellFormed {
        return Some(IllegalAction), handFirst;
      }
      var verdict;
      verdict, handFirst := CheckSurcharge(t, players[i].hand, extra);
      match verdict {
        case Malformed => return Some(IllegalAction), handFirst;
        case Unaffordable =>
          Refund(i, t);
          return None, handFirst;
        case Fits =>
          if t.route !in board.routeById {
            return Some(IllegalAction), handFirst;
          }
          PaySurcharge(i, board.routeById[t.route], t, extra);
          return None, handFirst;
      }
    }

    // -------------------------------------------------------------------
    // Stations
    // -------------------------------------------------------------------

    method Build(i: nat, city: City, pay: Payment) returns (refused: Option<Error>)
      requires i < |players|
      modifies this
      ensures Done(refused, ApplyBuildStation(board, old(Snapshot()), i, city, pay))
    {
      if city !in board.cities || city in stationOwner || players[i].stationsLeft < 1 {
        return Some(IllegalAction);
      }
      var wellFormed := PaymentToColors(pay);
      if !wellFormed {
        return Some(IllegalAction);
      }
      var color := ValidateSingleColourPayment(players[i].hand, pay, StationCost(board, players[i]));
      if color.None? {
        return Some(IllegalAction);
      }
      PlaceStation(i, city, pay);
      Finish(i);
      return None;
    }

    // A payment leaves the hand for the discard pile.
    method PayOut(i: nat, pay: Payment)
      requires i < |players|
      modifies this`discardPile, this`players
      ensures players == HandTo(old(players), i, Debited(old(players[i].hand), pay))
      ensures discardPile == old(discardPile) + LaidPayment(pay, ALL_COLORS)
    {
      DebitHand(i, pay);
      var cards := LayOut(pay, ALL_COLORS);
      discardPile := discardPile + cards;
    }

    method PlaceStation(i: nat, city: City, pay: Payment)
      requires i < |players|
      modifies this`discardPile, this`players, this`stationOwner
      ensures Snapshot() == Built(old(Snapshot()), i, city, pay)
    {
      PayOut(i, pay);
      var p := players[i];
      players := players[i := p.(stationsLeft := p.stationsLeft - 1, stations := p.stations + [city])];
      stationOwner := stationOwner[city := p.seat];
    }

    // -------------------------------------------------------------------
    // Tickets
    // -------------------------------------------------------------------

    method OfferTickets() returns (refused: Option<Error>)
      modifies this`ticketDeck, this`ticketDraw, this`phase
      ensures Done(refused, ApplyDrawTickets(old(Snapshot())))
    {
      if ticketDeck == [] {
        return Some(IllegalAction);
      }
      var n := if |ticketDeck| < TICKET_DRAW_COUNT then |ticketDeck| else TICKET_DRAW_COUNT;
      ticketDraw := Some(ticketDeck[..n]);
      ticketDeck := ticketDeck[n..];
      phase := AwaitTicketKeep;
      return None;
    }

    // Every kept ticket was offered, and none is kept twice.
    static method CheckKeep(offered: seq<TicketId>, keep: seq<TicketId>, least: nat) returns (ok: bool)
      ensures ok == Keepable(offered, keep, least)
    {
      if |keep| < least {
        return false;
      }
      var kept: set<TicketId> := {};
      for k := 0 to |keep|
        invariant forall id :: id in kept <==> exists j :: 0 <= j < k && keep[j] == id
        invariant forall j :: 0 <= j < k ==> keep[j] in offered
        invariant forall j, l :: 0 <= j < l < k ==> keep[j] != keep[l]
      {
        if keep[k] !in offered {
          return false;
        }
        if keep[k] in kept {
          ghost var j :| 0 <= j < k && keep[j] == keep[k];
          return false;
        }
        kept := kept + {keep[k]};
      }
      return true;
    }

    static method CollectRejected(offered: seq<TicketId>, keep: seq<TicketId>) returns (rejected: seq<TicketId>)
      ensures rejected == Rejected(offered, keep)
    {
      rejected := [];
      for k := 0 to |offered|
        invariant rejected + Rejected(offered[k..], keep) == Rejected(offered, keep)
      {
        assert offered[k..][0] == offered[k] && offered[k..][1..] == offered[k + 1..];
        if offered[k] !in keep {
          rejected := rejected + [offered[k]];
        }
      }
      assert Rejected(offered[|offered|..], keep) == [];
    }

    method KeepTickets(i: nat, keep: seq<TicketId>) returns (refused: Option<Error>)
      requires i < |players|
      modifies this
      ensures Done(refused, ApplyTicketKeep(old(Snapshot()), i, keep))
    {
      if ticketDraw.None? {
        return Some(IllegalAction);
      }
      var offered := ticketDraw.value;
      var ok := CheckKeep(offered, keep, MIN_TICKETS_KEPT_IN_GAME);
      if !ok {
        return Some(IllegalAction);
      }
      var rejected := CollectRejected(offered, keep);
      players := players[i := players[i].(tickets := players[i].tickets + keep)];
      ticketDeck := ticketDeck + rejected;
      ticketDraw := None;
      Finish(i);
      return None;
    }

    static method EverybodyAnswered(ps: seq<Player>) returns (r: bool)
      ensures r == AllSetupDone(ps)
    {
      for k := 0 to |ps|
        invariant forall j :: 0 <= j < k && !ps[j].resigned ==> ps[j].setupDone
      {
        if !ps[k].resigned && !ps[k].setupDone {
          return false;
        }
      }
      return true;
    }

    method AnswerSetup(i: nat, keep: seq<TicketId>) returns (refused: Option<Error>)
      requires i < |players|
      modifies this`players, this`phase, this`turnNo, this`currentSeat
      ensures Done(refused, ApplySetupKeep(old(Snapshot()), i, keep))
    {
      if players[i].setupDone {
        return Some(IllegalAction);
      }
      var ok := CheckKeep(players[i].offer, keep, MIN_TICKETS_KEPT_AT_SETUP);
      if !ok {
        return Some(IllegalAction);
      }
      var p := players[i];
      players := players[i := p.(tickets := p.tickets + keep, offer := [], setupDone := true)];
      var done := EverybodyAnswered(players);
      if done {
        phase := Normal;
        turnNo := 1;
        if !SeatIsActive(players, currentSeat) {
          currentSeat := NextActiveSeat(currentSeat);
        }
      }
      return None;
    }

    // -------------------------------------------------------------------
    // Resigning
    // -------------------------------------------------------------------

    // The base payment and the reveals of a parked tunnel are discarded.
    method ReleaseTunnel()
      modifies this`discardPile, this`tunnel
      ensures tunnel == None
      ensures discardPile == old(discardPile) +
                match old(tunnel) case None => [] case Some(t) => LaidPayment(t.base, ALL_COLORS) + t.revealed
    {
      if tunnel.Some? {
        var cards := LayOut(tunnel.value.base, ALL_COLORS);
        discardPile := discardPile + cards;
        discardPile := discardPile + tunnel.value.revealed;
        assert discardPile == old(discardPile) + (cards + tunnel.value.revealed);
        tunnel := None;
      } else {
        assert discardPile == discardPile + [];
      }
    }

    // Offered tickets go back under the deck.
    method ReleaseTickets()
      modifies this`ticketDeck, this`ticketDraw
      ensures ticketDraw == None
      ensures ticketDeck == old(ticketDeck) + match old(ticketDraw) case None => [] case Some(offered) => offered
    {
      if ticketDraw.Some? {
        ticketDeck := ticketDeck + ticketDraw.value;
        ticketDraw := None;
      } else {
        assert ticketDeck == ticketDeck + [];
      }
    }

    method ReleaseDecision()
      modifies this`discardPile, this`ticketDeck, this`tunnel, this`ticketDraw, this`drawing
      ensures Snapshot() == Released(old(Snapshot()))
    {
      ReleaseTunnel();
      ReleaseTickets();
      drawing := None;
    }

    method Retire(i: nat)
      requires i < |players|
      modifies this`discardPile, this`players
      ensures Snapshot() == Retired(old(Snapshot()), i)
    {
      var cards := LayOutHand(players[i].hand, ALL_COLORS);
      discardPile := discardPile + cards;
      players := players[i := players[i].(hand := multiset{}, resigned := true)];
    }

    method PassTurnOn(holds: bool)
      modifies this`phase, this`turnNo, this`finalTurnsLeft, this`currentSeat
      ensures Snapshot() == PassOn(old(Snapshot()), holds)
    {
      var active := ActivePlayers(players);
      if |active| < 2 {
        phase := Finished;
        return;
      }
      if finalTurnsLeft >= 0 && |active| < finalTurnsLeft {
        finalTurnsLeft := |active|;
      }
      if holds {
        turnNo := turnNo + 1;
        if finalTurnsLeft >= 0 {
          finalTurnsLeft := finalTurnsLeft - 1;
        }
        Advance();
      }
    }

    method ResignPlayer(i: nat) returns (refused: Option<Error>)
      requires i < |players|
      modifies this
      ensures Done(refused, ApplyResign(old(Snapshot()), i))
    {
      if players[i].resigned {
        return Some(IllegalAction);
      }
      var holds := HoldsTurn(Snapshot(), i);
      if holds {
        ReleaseDecision();
      }
      Retire(i);
      PassTurnOn(holds);
      return None;
    }

    // -------------------------------------------------------------------
    // Dispatch
    // -------------------------------------------------------------------

    method Resolve(i: nat, kind: Kind, keep: seq<TicketId>, accept: bool, extra: Payment)
      returns (refused: Option<Error>, ghost handFirst: bool)
      requires board.Valid() && i < |players|
      modifies this
      ensures Done(refused, ApplyDecision(board, old(Snapshot()), i, kind, keep, accept, extra, handFirst))
    {
      handFirst := true;
      if phase == SetupTickets && kind == KSetup {
        refused := AnswerSetup(i, keep);
      } else if phase == AwaitTicketKeep && kind == KTicketKeep {
        refused := KeepTickets(i, keep);
      } else if phase == AwaitTunnel && kind == KTunnel {
        refused, handFirst := ResolveTunnel(i, accept, extra);
      } else if phase == AwaitSecondDraw && kind == KEndDraw {
        refused := EndDraw(i);
      } else {
        refused := Some(WrongPhase);
      }
    }

    method Route(i: nat, a: Action) returns (refused: Option<Error>, ghost handFirst: bool)
      requires board.Valid() && i < |players|
      modifies this
      ensures Done(refused, Dispatch(board, old(Snapshot()), i, a, sh, handFirst))
    {
      handFirst := true;
      match a {
        case DrawCard(source) => refused := Draw(i, source);
        case ClaimRoute(id, pay) => refused := Claim(i, id, pay);
        case BuildStation(city, pay) => refused := Build(i, city, pay);
        case DrawTickets => refused := OfferTickets();
        case ResolveDecision(kind, keep, accept, extra) => refused, handFirst := Resolve(i, kind, keep, accept, extra);
        case Resign => refused := ResignPlayer(i);
        case Unknown => refused := Some(IllegalAction);
      }
    }
  }

  // What is left to store once an action was carried out or refused.
  method Settle(game: GameState, refused: Option<Error>, ghost done: Result<Game, Error>) returns (r: Result<Game, Error>)
    requires game.Done(refused, done)
    modifies game`seqNo
    ensures r == Numbered(done)
  {
    if refused.Some? {
      return Err(refused.value);
    }
    game.seqNo := game.seqNo + 1;
    r := Ok(game.Snapshot());
  }

  // A dispatched action, from the decoded state to the state to store.
  method Perform(m: Board, gs: Game, i: nat, a: Action, sh: Shuffler) returns (r: Result<Game, Error>, ghost handFirst: bool)
    requires m.Valid() && i < |gs.players|
    ensures r == Numbered(Dispatch(m, gs, i, a, sh, handFirst))
  {
    var game := new GameState(m, gs, sh);
    var refused;
    refused, handFirst := game.Route(i, a);
    r := Settle(game, refused, Dispatch(m, gs, i, a, sh, handFirst));
  }

  // One action on a stored game; the colours of a surcharge payment are visited
  // in some order.
  method Apply(m: Board, gs: Game, user: nat, a: Action, sh: Shuffler) returns (r: Result<Game, Error>)
    requires m.Valid()
    ensures exists handFirst :: r == TtrRules.Apply(m, gs, user, a, sh, handFirst)
  {
    ghost var handFirst := true;
    var at := OfUser(gs.players, user);
    if at.None? {
      r := Err(NotSeated);
    } else {
      var gate := Gate(gs, at.value, a);
      if gate.Some? {
        r := Err(gate.value);
      } else {
        r, handFirst := Perform(m, gs, at.value, a, sh);
      }
    }
    assert r == TtrRules.Apply(m, gs, user, a, sh, handFirst);
  }

  // ---------------------------------------------------------------------
  // What can be claimed
  // ---------------------------------------------------------------------

  // Some payment makes the engine accept a claim of this route.
  ghost predicate CanClaim(m: Board, gs: Game, i: nat, id: RouteId, sh: Shuffler)
    requires m.Valid() && i < |gs.players|
  {
    exists pay :: ApplyClaimRoute(m, gs, i, id, pay, sh).Ok?
  }

  lemma ClaimIff(m: Board, gs: Game, i: nat, id: RouteId, pay: Payment, sh: Shuffler)
    requires m.Valid() && i < |gs.players|
    ensures ApplyClaimRoute(m, gs, i, id, pay, sh).Ok? <==>
              id in m.routeById && Claimable(gs, i, m.routeById[id]) && WellFormed(pay) && Pays(m.routeById[id], gs.players[i].hand, pay)
  {
  }

  ghost predicate AllAccepted(m: Board, gs: Game, i: nat, id: RouteId, offers: seq<Payment>, sh: Shuffler)
    requires m.Valid() && i < |gs.players|
  {
    forall pay :: pay in offers ==> ApplyClaimRoute(m, gs, i, id, pay, sh).Ok?
  }

  // Everything the engine would accept is served by some offer.
  ghost predicate AllOffered(m: Board, gs: Game, i: nat, id: RouteId, offers: seq<Payment>, sh: Shuffler)
    requires m.Valid() && i < |gs.players|
  {
    forall pay :: ApplyClaimRoute(m, gs, i, id, pay, sh).Ok? ==> exists o :: o in offers && Serves(o, pay)
  }

  ghost predicate Offered(m: Board, gs: Game, i: nat, id: RouteId, offers: seq<Payment>, sh: Shuffler)
    requires m.Valid() && i < |gs.players|
  {
    offers != [] && AllAccepted(m, gs, i, id, offers, sh) && AllOffered(m, gs, i, id, offers, sh)
  }

  // The payment options for one route: none exactly when it cannot be claimed.
  method OffersFor(m: Board, gs: Game, i: nat, r: Route, ghost sh: Shuffler) returns (offers: seq<Payment>)
    requires m.Valid() && i < |gs.players| && r.id in m.routeById && m.routeById[r.id] == r
    ensures CanClaim(m, gs, i, r.id, sh) <==> offers != []
    ensures offers != [] ==> Offered(m, gs, i, r.id, offers, sh)
  {
    assert m.ValidRoute(r.id, r);
    offers := [];
    if Claimable(gs, i, r) {
      offers := PaymentOptions(r, gs.players[i].hand);
    }
    OffersDecide(m, gs, i, r, offers, sh);
  }

  lemma OffersDecide(m: Board, gs: Game, i: nat, r: Route, offers: seq<Payment>, sh: Shuffler)
    requires m.Valid() && i < |gs.players| && r.id in m.routeById && m.routeById[r.id] == r
    requires forall o :: o in offers ==> Claimable(gs, i, r) && Pays(r, gs.players[i].hand, o) && WellFormed(o)
    requires Claimable(gs, i, r) ==>
               forall pay :: Pays(r, gs.players[i].hand, pay) && WellFormed(pay) ==> exists o :: o in offers && Serves(o, pay)
    ensures CanClaim(m, gs, i, r.id, sh) <==> offers != []
    ensures AllAccepted(m, gs, i, r.id, offers, sh) && AllOffered(m, gs, i, r.id, offers, sh)
  {
    forall pay
      ensures ApplyClaimRoute(m, gs, i, r.id, pay, sh).Ok? <==>
                Claimable(gs, i, r) && WellFormed(pay) && Pays(r, gs.players[i].hand, pay)
    {
      ClaimIff(m, gs, i, r.id, pay, sh);
    }
    if offers != [] {
      assert offers[0] in offers;
    }
  }

  // Exactly the routes the player can claim, each with its payment options:
  // at least one, all accepted, and one for whatever would be accepted.
  method ClaimableRoutes(m: Board, gs: Game, i: nat, ghost sh: Shuffler) returns (ids: seq<RouteId>, options: seq<seq<Payment>>)
    requires m.Valid() && i < |gs.players|
    ensures forall id :: id in ids <==> CanClaim(m, gs, i, id, sh)
    ensures EachOffered(m, gs, i, ids, options, sh)
  {
    ghost var can: RouteId -> bool := id => CanClaim(m, gs, i, id, sh);
    ids, options := [], [];
    for k := 0 to |m.routes|
      invariant ids == IdsWith(m.routes[..k], can)
      invariant EachOffered(m, gs, i, ids, options, sh)
    {
      var offers := OffersFor(m, gs, i, m.routes[k], sh);
      IdsWithStep(m.routes, can, k);
      if offers != [] {
        OneMoreOffered(m, gs, i, ids, options, m.routes[k].id, offers, sh);
        ids := ids + [m.routes[k].id];
        options := options + [offers];
      }
    }
    assert m.routes[..|m.routes|] == m.routes;
    ListedIff(m, gs, i, can, sh);
  }

  lemma OneMoreOffered(m: Board, gs: Game, i: nat, ids: seq<RouteId>, options: seq<seq<Payment>>, id: RouteId, offers: seq<Payment>, sh: Shuffler)
    requires m.Valid() && i < |gs.players| && EachOffered(m, gs, i, ids, options, sh) && Offered(m, gs, i, id, offers, sh)
    ensures EachOffered(m, gs, i, ids + [id], options + [offers], sh)
  {
    forall k | 0 <= k < |ids| + 1
      ensures Offered(m, gs, i, (ids + [id])[k], (options + [offers])[k], sh)
    {
      if k < |ids| {
        assert Offered(m, gs, i, ids[k], options[k], sh);
      }
    }
  }

  lemma IdsWithStep(routes: seq<Route>, can: RouteId -> bool, k: nat)
    requires k < |routes|
    ensures IdsWith(routes[..k + 1], can) == IdsWith(routes[..k], can) + if can(routes[k].id) then [routes[k].id] else []
  {
    assert routes[..k + 1][..k] == routes[..k];
  }

  lemma ListedIff(m: Board, gs: Game, i: nat, can: RouteId -> bool, sh: Shuffler)
    requires m.Valid() && i < |gs.players| && forall id :: can(id) <==> CanClaim(m, gs, i, id, sh)
    ensures forall id :: id in IdsWith(m.routes, can) <==> CanClaim(m, gs, i, id, sh)
  {
    forall id
      ensures id in IdsWith(m.routes, can) <==> CanClaim(m, gs, i, id, sh)
    {
      IdsWithIff(m.routes, can, id);
      if CanClaim(m, gs, i, id, sh) {
        ClaimedIsListed(m, gs, i, id, sh);
      }
    }
  }

  ghost predicate EachOffered(m: Board, gs: Game, i: nat, ids: seq<RouteId>, options: seq<seq<Payment>>, sh: Shuffler)
    requires m.Valid() && i < |gs.players|
  {
    |options| == |ids| && forall k :: 0 <= k < |ids| ==> Offered(m, gs, i, ids[k], options[k], sh)
  }

  ghost function IdsWith(routes: seq<Route>, can: RouteId -> bool): seq<RouteId> {
    if routes == [] then []
    else
      var n := |routes| - 1;
      IdsWith(routes[..n], can) + if can(routes[n].id) then [routes[n].id] else []
  }

  lemma {:induction false} IdsWithIff(routes: seq<Route>, can: RouteId -> bool, id: RouteId)
    ensures id in IdsWith(routes, can) <==> can(id) && exists j :: 0 <= j < |routes| && routes[j].id == id
  {
    if routes != [] {
      var n := |routes| - 1;
      IdsWithIff(routes[..n], can, id);
      assert forall j :: 0 <= j < n ==> routes[..n][j] == routes[j];
    }
  }

  lemma ClaimedIsListed(m: Board, gs: Game, i: nat, id: RouteId, sh: Shuffler)
    requires m.Valid() && i < |gs.players| && CanClaim(m, gs, i, id, sh)
    ensures exists j :: 0 <= j < |m.routes| && m.routes[j].id == id
  {
    var pay :| ApplyClaimRoute(m, gs, i, id, pay, sh).Ok?;
    assert m.ValidRoute(id, m.routeById[id]);
    assert m.routeById[id] in m.routes;
  }

  // ---------------------------------------------------------------------
  // A new game
  // ---------------------------------------------------------------------

  method BuildDeck(colors: seq<Color>) returns (deck: seq<Color>)
    ensures deck == DeckOf(colors)
  {
    deck := [];
    for k := 0 to |colors|
      invariant deck + DeckOf(colors[k..]) == DeckOf(colors)
    {
      var c := colors[k];
      assert colors[k..][1..] == colors[k + 1..] && colors[k..][0] == c;
      deck := deck + Copies(c, DeckCount(c));
    }
    assert DeckOf(colors[|colors|..]) == [];
  }

  // Four rounds of one card for everybody.
  method DealInitialHands(seated: seq<Player>, deck: seq<Color>) returns (ps: seq<Player>, left: seq<Color>)
    requires seated != [] && INITIAL_TRAIN_CARDS * |seated| <= |deck|
    ensures ps == DealtHands(seated, deck, INITIAL_TRAIN_CARDS * |seated|) && left == deck[INITIAL_TRAIN_CARDS * |seated|..]
  {
    ghost var n := |seated|;
    ps, left := DealRound(seated, seated, deck, deck, 0, 0);
    for round := 1 to INITIAL_TRAIN_CARDS
      invariant ps == DealtHands(seated, deck, Given(round, n)) && left == deck[Given(round, n)..]
    {
      ps, left := DealRound(seated, ps, deck, left, Given(round, n), round);
    }
  }

  // Cards given out in the first rounds.
  ghost function Given(round: nat, n: nat): (k: nat)
    requires round <= INITIAL_TRAIN_CARDS
    ensures k == round * n && k <= INITIAL_TRAIN_CARDS * n
    ensures round < INITIAL_TRAIN_CARDS ==> k + n == (round + 1) * n <= INITIAL_TRAIN_CARDS * n
  {
    if round == 0 then 0 else if round == 1 then n else if round == 2 then 2 * n else if round == 3 then 3 * n else 4 * n
  }

  method DealRound(ghost seated: seq<Player>, before: seq<Player>, ghost deck: seq<Color>, cards: seq<Color>, ghost given: nat, ghost round: nat)
    returns (ps: seq<Player>, left: seq<Color>)
    requires seated != [] && given == round * |seated| && given + |seated| <= |deck|
    requires before == DealtHands(seated, deck, given) && cards == deck[given..]
    ensures ps == DealtHands(seated, deck, given + |seated|) && left == deck[given + |seated|..]
  {
    ps, left := before, cards;
    for j := 0 to |before|
      invariant ps == DealtHands(seated, deck, given + j) && left == deck[given + j..]
    {
      Arithmetic.RemainderIs(given + j, |seated|, round, j);
      ps := HandTo(ps, j, ps[j].hand[left[0] := ps[j].hand[left[0]] + 1]);
      left := left[1..];
    }
  }

  // One long ticket and three regular ones for everybody.
  method DealOffers(dealt: seq<Player>, longs: seq<TicketId>, regulars: seq<TicketId>) returns (ps: seq<Player>)
    requires |dealt| <= |longs| && INITIAL_REGULAR_TICKETS * |dealt| <= |regulars|
    ensures ps == Offers(dealt, longs, regulars)
  {
    ps := dealt;
    for i := 0 to |dealt|
      invariant |ps| == |dealt|
      invariant forall k :: 0 <= k < |dealt| ==> ps[k] == if k < i then Offers(dealt, longs, regulars)[k] else dealt[k]
    {
      ps := ps[i := ps[i].(offer := [longs[i]] + regulars[3 * i..3 * i + 3])];
    }
  }

  // The face-up row of a new game.
  method OpenRow(m: Board, gs: Game, sh: Shuffler) returns (r: Result<Game, Error>)
    ensures r == Ok(gs.(piles := Flushed(Filled(gs.piles, sh), sh, MAX_FLUSHES)))
  {
    var game := new GameState(m, gs, sh);
    game.FillFaceUp();
    game.FlushFaceUpLocos();
    r := Ok(game.Snapshot());
  }

  // A new game from a shuffled deck.
  method StartGame(m: Board, seats: seq<SeatInit>, deck: seq<Color>, sh: Shuffler, longs: seq<TicketId>, regulars: seq<TicketId>, first: nat)
    returns (r: Result<Game, Error>)
    requires 1 <= m.minPlayers && 4 * m.maxPlayers <= |deck|
    ensures r == InitFrom(m, seats, deck, sh, longs, regulars, first)
  {
    var n := |seats|;
    if n < m.minPlayers || n > m.maxPlayers {
      return Err(NotEnoughPlayers);
    }
    if |longs| < n || |regulars| < INITIAL_REGULAR_TICKETS * n {
      return Err(InvalidMap);
    }
    SortedLength(seats);
    var dealt, left := DealInitialHands(Seated(m, SortSeats(seats)), deck);
    var ps := DealOffers(dealt, longs, regulars);
    r := OpenRow(m, Game(SetupTickets, 0, 0, ps[first % n].seat, ps, Piles(left, [], [], 1), regulars[INITIAL_REGULAR_TICKETS * n..],
                         map[], map[], [], None, None, None, -1), sh);
  }

  method InitState(m: Board, seats: seq<SeatInit>, sh: Shuffler, longs: seq<TicketId>, regulars: seq<TicketId>, first: nat)
    returns (r: Result<Game, Error>)
    requires 1 <= m.minPlayers && 4 * m.maxPlayers <= |sh(0, FullDeck())|
    ensures r == TtrSetup.InitState(m, seats, sh, longs, regulars, first)
  {
    var deck := BuildDeck(ALL_COLORS);
    r := StartGame(m, seats, sh(0, deck), sh, longs, regulars, first);
  }
}
