// What a draw and a resignation do.
module TtrActions {
  // Which card is drawn and when a draw ends the turn, and what somebody who
  // leaves leaves behind.
  import opened Wrappers
  import opened TtrBoard
  import opened TtrPayment
  import opened TtrCards
  import opened TtrGame
  import opened TtrRules
  import opened TtrFlow
  import opened TtrFinalRound

  // ---------------------------------------------------------------------
  // The cards to come
  // ---------------------------------------------------------------------

  // The hidden cards in the order in which they will be drawn: the draw pile,
  // and then the discard pile as it would be shuffled.
  function Coming(p: Piles, sh: Shuffler): seq<Color> {
    p.draw + if p.discard == [] then [] else sh(p.shuffles, p.discard)
  }

  lemma PoppedComes(p: Piles, sh: Shuffler)
    ensures var pop := Popped(p, sh); var cards := Coming(p, sh);
            && (pop.card.Some? <==> cards != [])
            && Coming(pop.piles, sh) == (if cards == [] then [] else cards[1..])
            && (pop.card.Some? ==> pop.card.value == cards[0])
  {
    if p.draw != [] {
      assert Coming(p, sh)[1..] == p.draw[1..] + Coming(p, sh)[|p.draw|..];
    }
  }

  // Only player i changes, and only in the hand.
  ghost predicate HandOnly(gs: Game, after: Game, i: nat) {
    && i < |gs.players| == |after.players|
    && after.players == gs.players[i := gs.players[i].(hand := after.players[i].hand)]
  }

  // ---------------------------------------------------------------------
  // Drawing cards
  // ---------------------------------------------------------------------

  predicate OnTheRow(gs: Game, source: Source) {
    source.FaceUpSlot? && 0 <= source.slot < FACE_UP_SLOTS && source.slot < |gs.piles.faceUp|
  }

  // The card a source gives.
  function Offered(gs: Game, source: Source, sh: Shuffler): Option<Color> {
    if OnTheRow(gs, source) then Some(gs.piles.faceUp[source.slot])
    else if source == Deck && Coming(gs.piles, sh) != [] then Some(Coming(gs.piles, sh)[0])
    else None
  }

  predicate TakesFaceUpLoco(gs: Game, source: Source) {
    OnTheRow(gs, source) && gs.piles.faceUp[source.slot] == Loco
  }

  // A first draw ends the turn exactly when it took a face-up locomotive, a
  // second one always.
  ghost predicate DrawEnds(gs: Game, source: Source) {
    gs.phase == AwaitSecondDraw || TakesFaceUpLoco(gs, source)
  }

  lemma DrawGives(gs: Game, i: nat, source: Source, sh: Shuffler)
    requires Flow(gs) && (gs.phase == Normal || gs.phase == AwaitSecondDraw) && i < |gs.players|
    ensures ApplyDrawCard(gs, i, source, sh).Ok? <==>
              Offered(gs, source, sh).Some? && !(gs.phase == AwaitSecondDraw && TakesFaceUpLoco(gs, source))
    ensures ApplyDrawCard(gs, i, source, sh).Ok? ==>
              exists piles :: ApplyDrawCard(gs, i, source, sh).value == Drawn(gs, i, Offered(gs, source, sh).value, piles, DrawEnds(gs, source))
  {
    if source == Deck {
      DeckGives(gs, i, sh);
      if Coming(gs.piles, sh) != [] {
        assert ApplyDrawCard(gs, i, source, sh).value ==
               Drawn(gs, i, Offered(gs, source, sh).value, Popped(gs.piles, sh).piles, DrawEnds(gs, source));
      }
    } else if OnTheRow(gs, source) && ApplyDrawCard(gs, i, source, sh).Ok? {
      assert ApplyDrawCard(gs, i, source, sh).value ==
             Drawn(gs, i, Offered(gs, source, sh).value, TakenFaceUp(gs.piles, source.slot, sh), DrawEnds(gs, source));
    }
  }

  lemma DeckGives(gs: Game, i: nat, sh: Shuffler)
    requires Flow(gs) && (gs.phase == Normal || gs.phase == AwaitSecondDraw) && i < |gs.players|
    ensures ApplyDrawCard(gs, i, Deck, sh).Ok? <==> Coming(gs.piles, sh) != []
    ensures Coming(gs.piles, sh) != [] ==>
              ApplyDrawCard(gs, i, Deck, sh).value == Drawn(gs, i, Coming(gs.piles, sh)[0], Popped(gs.piles, sh).piles, gs.phase == AwaitSecondDraw)
  {
    PoppedComes(gs.piles, sh);
  }

  lemma DrawnDoes(gs: Game, i: nat, card: Color, piles: Piles, ends: bool)
    requires Flow(gs) && gs.phase != Finished && i < |gs.players|
    ensures var after := Drawn(gs, i, card, piles, ends);
            && HandOnly(gs, after, i) && after.players[i].hand == gs.players[i].hand + multiset{card}
            && if ends then Completes(gs, after, i) else Continues(gs, after) && after.phase == AwaitSecondDraw
  {
    DealtKeeps(gs, i, card, piles);
    if ends {
      TurnCompletes(gs, Dealt(gs, i, card, piles), i);
    } else {
      TurnContinues(gs, Drawn(gs, i, card, piles, ends));
    }
  }

  // A draw gives the card of its source, ends the turn or waits for the second
  // card, and is refused exactly when there is no such card or the second one
  // would be a face-up locomotive.
  lemma DrawDoes(m: Board, gs: Game, user: nat, source: Source, sh: Shuffler, handFirst: bool, after: Game) returns (i: nat)
    requires m.Valid() && Flow(gs) && Apply(m, gs, user, DrawCard(source), sh, handFirst) == Ok(after)
    ensures (gs.phase == Normal || gs.phase == AwaitSecondDraw) && i < |gs.players| && OfUser(gs.players, user) == Some(i)
    ensures Offered(gs, source, sh).Some? && !(gs.phase == AwaitSecondDraw && TakesFaceUpLoco(gs, source))
    ensures HandOnly(gs, after, i) && after.players[i].hand == gs.players[i].hand + multiset{Offered(gs, source, sh).value}
    ensures if DrawEnds(gs, source) then Completes(gs, after, i) else Continues(gs, after) && after.phase == AwaitSecondDraw
  {
    i := OfUser(gs.players, user).value;
    DrawGives(gs, i, source, sh);
    var piles :| ApplyDrawCard(gs, i, source, sh).value == Drawn(gs, i, Offered(gs, source, sh).value, piles, DrawEnds(gs, source));
    DrawnDoes(gs, i, Offered(gs, source, sh).value, piles, DrawEnds(gs, source));
  }

  lemma DrawRefusedIff(m: Board, gs: Game, i: nat, source: Source, sh: Shuffler, handFirst: bool)
    requires m.Valid() && Flow(gs) && i < |gs.players| && gs.players[i].seat == gs.currentSeat
    requires gs.phase == Normal || gs.phase == AwaitSecondDraw
    ensures Apply(m, gs, gs.players[i].user, DrawCard(source), sh, handFirst).Err? <==>
              Offered(gs, source, sh).None? || (gs.phase == AwaitSecondDraw && TakesFaceUpLoco(gs, source))
  {
    OnTurnMay(gs, i);
    DrawGives(gs, i, source, sh);
  }

  lemma OnTurnMay(gs: Game, i: nat)
    requires Flow(gs) && i < |gs.players| && gs.players[i].seat == gs.currentSeat && gs.phase != Finished && gs.phase != SetupTickets
    ensures OfUser(gs.players, gs.players[i].user) == Some(i) && IsCurrent(gs, i) && !gs.players[i].resigned
  {
    SeatFound(gs.players, i);
    CurrentIs(gs, i);
  }

  // The card of a blind draw is gone from the hidden ones; the row stays.
  lemma BlindDrawPiles(m: Board, gs: Game, user: nat, sh: Shuffler, handFirst: bool, after: Game)
    requires m.Valid() && Flow(gs) && Apply(m, gs, user, DrawCard(Deck), sh, handFirst) == Ok(after)
    ensures Coming(gs.piles, sh) != [] && Coming(after.piles, sh) == Coming(gs.piles, sh)[1..] && after.piles.faceUp == gs.piles.faceUp
  {
    var i := OfUser(gs.players, user).value;
    BlindPiles(gs, i, sh, ApplyDrawCard(gs, i, Deck, sh).value);
  }

  lemma BlindPiles(gs: Game, i: nat, sh: Shuffler, after: Game)
    requires i < |gs.players| && ApplyDrawCard(gs, i, Deck, sh) == Ok(after)
    ensures Coming(gs.piles, sh) != [] && Coming(after.piles, sh) == Coming(gs.piles, sh)[1..] && after.piles.faceUp == gs.piles.faceUp
  {
    PoppedComes(gs.piles, sh);
  }

  // The row once a card is taken: the next hidden card lies in its slot, or the
  // row closes up when there is none.
  function RowAfter(p: Piles, slot: nat, sh: Shuffler): seq<Color>
    requires slot < |p.faceUp|
  {
    if Coming(p, sh) != [] then p.faceUp[slot := Coming(p, sh)[0]] else p.faceUp[..slot] + p.faceUp[slot + 1..]
  }

  // From a full row, unless three locomotives have it dealt anew, that is the
  // row, and one hidden card is gone.
  lemma SlotIsReplaced(p: Piles, slot: nat, sh: Shuffler)
    requires slot < |p.faceUp| == 5 && Locos(RowAfter(p, slot, sh)) < 3
    ensures TakenFaceUp(p, slot, sh).faceUp == RowAfter(p, slot, sh)
    ensures Coming(TakenFaceUp(p, slot, sh), sh) == if Coming(p, sh) == [] then [] else Coming(p, sh)[1..]
  {
    PoppedComes(p, sh);
    var r := Refilled(p, sh);
    assert Coming(r, sh) == Coming(p, sh);
  }

  // The second card may be declined only when there is none to draw.
  lemma EndDrawDoes(m: Board, gs: Game, user: nat, keep: seq<TicketId>, accept: bool, extra: Payment, sh: Shuffler, handFirst: bool, after: Game)
    returns (i: nat)
    requires m.Valid() && Fair(sh) && Flow(gs) && gs.phase == AwaitSecondDraw
    requires Apply(m, gs, user, ResolveDecision(KEndDraw, keep, accept, extra), sh, handFirst) == Ok(after)
    ensures i < |gs.players| && OfUser(gs.players, user) == Some(i) && Completes(gs, after, i)
    ensures after.players == gs.players && after.piles == gs.piles
    ensures forall source :: Offered(gs, source, sh).Some? ==> TakesFaceUpLoco(gs, source)
  {
    i := OfUser(gs.players, user).value;
    assert Dispatch(m, gs, i, ResolveDecision(KEndDraw, keep, accept, extra), sh, handFirst) == ApplyEndDraw(gs, i);
    assert Numbered(ApplyEndDraw(gs, i)) == Ok(after);
    NothingComes(gs.piles, sh);
    TurnCompletes(gs, gs.(drawing := None), i);
  }

  lemma NothingComes(p: Piles, sh: Shuffler)
    requires Fair(sh)
    ensures Coming(p, sh) == [] <==> p.draw == [] && p.discard == []
  {
    assert SameCards(sh(p.shuffles, p.discard), p.discard);
  }

  // ---------------------------------------------------------------------
  // Resigning
  // ---------------------------------------------------------------------

  // The one who leaves keeps the board but no cards; nobody else changes.
  ghost predicate Leaves(gs: Game, after: Game, i: nat) {
    i < |gs.players| && after.players == gs.players[i := gs.players[i].(hand := multiset{}, resigned := true)]
  }

  // With fewer than two players the game is over. Otherwise somebody else's
  // turn goes on as it was, and the turn of the one who leaves is over: nothing
  // stays parked, offered tickets go under the deck, and the counter, cut to
  // the players left, is counted down once it is armed.
  ghost predicate GoesOn(gs: Game, after: Game, i: nat)
    requires i < |gs.players|
  {
    var active := ActiveCount(after.players);
    var final := if 0 <= active < gs.finalTurnsLeft then active else gs.finalTurnsLeft;
    if active < 2 then after.phase == Finished
    else if !(gs.players[i].seat == gs.currentSeat && gs.phase != SetupTickets) then
      && after.phase == gs.phase && after.currentSeat == gs.currentSeat && after.turnNo == gs.turnNo && after.finalTurnsLeft == final
      && after.drawing == gs.drawing && after.tunnel == gs.tunnel && after.ticketDraw == gs.ticketDraw && after.ticketDeck == gs.ticketDeck
    else
      && !HasParked(after) && after.turnNo == gs.turnNo + 1 && after.finalTurnsLeft == (if final >= 0 then final - 1 else final)
      && after.ticketDeck == gs.ticketDeck + (if gs.ticketDraw.Some? then gs.ticketDraw.value else [])
      && (if after.finalTurnsLeft == 0 then after.phase == Finished
          else after.phase == Normal && after.currentSeat == NextActive(after.players, gs.currentSeat))
  }

  lemma ResignDoes(m: Board, gs: Game, user: nat, sh: Shuffler, handFirst: bool, after: Game) returns (i: nat)
    requires m.Valid() && Flow(gs) && Apply(m, gs, user, Resign, sh, handFirst) == Ok(after)
    ensures i < |gs.players| && OfUser(gs.players, user) == Some(i) && !gs.players[i].resigned
    ensures Leaves(gs, after, i) && GoesOn(gs, after, i)
  {
    i := OfUser(gs.players, user).value;
    CurrentIs(gs, i);
    Resigned(gs, i, ApplyResign(gs, i).value);
  }

  lemma Resigned(gs: Game, i: nat, after: Game)
    requires Flow(gs) && gs.phase != Finished && i < |gs.players| && ApplyResign(gs, i) == Ok(after)
    requires IsCurrent(gs, i) <==> gs.players[i].seat == gs.currentSeat
    ensures Leaves(gs, after, i) && GoesOn(gs, after, i)
  {
    if HoldsTurn(gs, i) {
      OwnTurnOver(gs, i, after);
    } else {
      assert after == PassOn(Retired(gs, i), false);
    }
  }

  lemma OwnTurnOver(gs: Game, i: nat, after: Game)
    requires Flow(gs) && gs.phase != Finished && i < |gs.players| && gs.players[i].seat == gs.currentSeat && gs.phase != SetupTickets
    requires after == PassOn(Retired(Released(gs), i), true)
    ensures Leaves(gs, after, i) && GoesOn(gs, after, i)
  {
    var gone := Retired(Released(gs), i);
    var final := Clamped(gs.finalTurnsLeft, ActiveCount(gone.players));
    assert ActiveCount(gone.players) >= 2 ==>
           after == AdvanceOrFinish(gone.(turnNo := gs.turnNo + 1, finalTurnsLeft := if final >= 0 then final - 1 else final));
  }
}
