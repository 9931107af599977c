// Games that take a turn one would not expect.
module TtrCases {
  import opened Wrappers
  import opened Counting
  import opened Lobby
  import opened TtrBoard
  import opened TtrPayment
  import opened TtrCards
  import opened TtrGame
  import opened TtrRules
  import opened TtrFlow
  import opened TtrSetup
  import opened TtrFinalRound
  import opened TtrOptions
  import Arithmetic
  import TtrSurcharge

  // ---------------------------------------------------------------------
  // Runs, one move at a time
  // ---------------------------------------------------------------------

  lemma LongerRun(m: Board, states: seq<Game>, moves: seq<Move>, sh: Shuffler, move: Move, after: Game)
    returns (longer: seq<Game>, more: seq<Move>)
    requires m.Valid() && IsRun(m, states, moves, sh) && Accepts(m, states[|moves|], move, sh, after)
    ensures IsRun(m, longer, more, sh) && |more| == |moves| + 1 && longer[0] == states[0] && longer[|more|] == after
  {
    longer, more := states + [after], moves + [move];
    forall k | 0 <= k < |more|
      ensures Accepts(m, longer[k], more[k], sh, longer[k + 1])
    {
      assert k < |moves| ==> Accepts(m, states[k], moves[k], sh, states[k + 1]);
    }
  }

  // ---------------------------------------------------------------------
  // The setup answers, one player after the other
  // ---------------------------------------------------------------------

  // The first k players have answered; nobody has left.
  ghost predicate Waiting(gs: Game, k: nat) {
    && Flow(gs) && gs.phase == SetupTickets && k < |gs.players| && SeatIsActive(gs.players, gs.currentSeat)
    && forall i :: 0 <= i < |gs.players| ==> !gs.players[i].resigned && (gs.players[i].setupDone <==> i < k)
  }

  // The same table, apart from tickets.
  ghost predicate SameTable(gs: Game, after: Game) {
    && SameStanding(gs.players, after.players) && after.currentSeat == gs.currentSeat
    && after.piles == gs.piles && after.ticketDeck == gs.ticketDeck
    && after.routeOwner == gs.routeOwner && after.closed == gs.closed && after.finalTurnsLeft == gs.finalTurnsLeft
    && forall i :: 0 <= i < |gs.players| ==>
         after.players[i].hand == gs.players[i].hand && after.players[i].claimed == gs.players[i].claimed &&
         after.players[i].trainsLeft == gs.players[i].trainsLeft
  }

  function Answer(p: Player): Move
    requires |p.offer| >= 2
  {
    Move(p.user, ResolveDecision(KSetup, [p.offer[0], p.offer[1]], false, map[]), true)
  }

  lemma AnswerAccepted(m: Board, gs: Game, k: nat, sh: Shuffler) returns (after: Game)
    requires m.Valid() && Waiting(gs, k)
    ensures |gs.players[k].offer| >= 2 && Accepts(m, gs, Answer(gs.players[k]), sh, after)
    ensures Flow(after) && SameTable(gs, after)
    ensures forall i :: 0 <= i < |gs.players| ==> (after.players[i].setupDone <==> i <= k)
    ensures after.phase == if k + 1 < |gs.players| then SetupTickets else Normal
  {
    assert CanAnswer(gs.players[k]);
    var keep := [gs.players[k].offer[0], gs.players[k].offer[1]];
    var stepped := KeptInSetup(gs, k, keep);
    after := stepped.(seqNo := stepped.seqNo + 1);
    KeepAccepted(m, gs, k, keep, sh, stepped);
    StepFlow(m, gs, gs.players[k].user, Answer(gs.players[k]).action, sh, true, after);
  }

  lemma KeepAccepted(m: Board, gs: Game, k: nat, keep: seq<TicketId>, sh: Shuffler, stepped: Game)
    requires m.Valid() && Waiting(gs, k) && ApplySetupKeep(gs, k, keep) == Ok(stepped)
    ensures Apply(m, gs, gs.players[k].user, ResolveDecision(KSetup, keep, false, map[]), sh, true) ==
            Ok(stepped.(seqNo := stepped.seqNo + 1))
  {
    SeatFound(gs.players, k);
  }

  lemma KeptInSetup(gs: Game, k: nat, keep: seq<TicketId>) returns (after: Game)
    requires Waiting(gs, k) && Keepable(gs.players[k].offer, keep, MIN_TICKETS_KEPT_AT_SETUP)
    ensures ApplySetupKeep(gs, k, keep) == Ok(after) && SameTable(gs, after)
    ensures forall i :: 0 <= i < |gs.players| ==> (after.players[i].setupDone <==> i <= k)
    ensures after.phase == if k + 1 < |gs.players| then SetupTickets else Normal
  {
    var p := gs.players[k];
    var ps := gs.players[k := p.(tickets := p.tickets + keep, offer := [], setupDone := true)];
    AnsweredPlayers(gs, k, ps);
    StandingActive(gs.players, ps, gs.currentSeat);
    after := ApplySetupKeep(gs, k, keep).value;
  }

  lemma AnsweredPlayers(gs: Game, k: nat, ps: seq<Player>)
    requires Waiting(gs, k) && |ps| == |gs.players| && ps[k].setupDone && !ps[k].resigned
    requires forall i :: 0 <= i < |ps| && i != k ==> ps[i] == gs.players[i]
    ensures AllSetupDone(ps) <==> k + 1 == |ps|
  {
    if k + 1 < |ps| {
      assert !ps[k + 1].setupDone && !ps[k + 1].resigned;
    }
  }

  lemma SameTableChain(a: Game, b: Game, c: Game)
    requires SameTable(a, b) && SameTable(b, c)
    ensures SameTable(a, c)
  {
  }

  lemma NextAnswer(m: Board, gs: Game, k: nat, sh: Shuffler) returns (after: Game)
    requires m.Valid() && Waiting(gs, k) && k + 1 < |gs.players|
    ensures |gs.players[k].offer| >= 2 && Accepts(m, gs, Answer(gs.players[k]), sh, after)
    ensures Waiting(after, k + 1) && SameTable(gs, after)
  {
    after := AnswerAccepted(m, gs, k, sh);
    StandingActive(gs.players, after.players, gs.currentSeat);
  }

  lemma LastAnswer(m: Board, gs: Game, k: nat, sh: Shuffler) returns (after: Game)
    requires m.Valid() && Waiting(gs, k) && k + 1 == |gs.players|
    ensures |gs.players[k].offer| >= 2 && Accepts(m, gs, Answer(gs.players[k]), sh, after)
    ensures Flow(after) && after.phase == Normal && SameTable(gs, after)
  {
    after := AnswerAccepted(m, gs, k, sh);
  }

  // The first k answers.
  lemma {:induction false} AnswersRun(m: Board, gs: Game, k: nat, sh: Shuffler) returns (states: seq<Game>, moves: seq<Move>, last: Game)
    requires m.Valid() && Waiting(gs, 0) && k < |gs.players|
    ensures IsRun(m, states, moves, sh) && states[0] == gs && last == states[|moves|]
    ensures Waiting(last, k) && SameTable(gs, last) && |last.players| == |gs.players|
  {
    if k == 0 {
      return [gs], [], gs;
    }
    var before, answers, prev := AnswersRun(m, gs, k - 1, sh);
    last := NextAnswer(m, prev, k - 1, sh);
    SameTableChain(gs, prev, last);
    states, moves := LongerRun(m, before, answers, sh, Answer(prev.players[k - 1]), last);
  }

  // All answers: play begins with the player the draw chose.
  lemma SetupRun(m: Board, gs: Game, sh: Shuffler) returns (states: seq<Game>, moves: seq<Move>, play: Game)
    requires m.Valid() && Waiting(gs, 0)
    ensures IsRun(m, states, moves, sh) && states[0] == gs && play == states[|moves|]
    ensures Flow(play) && play.phase == Normal && SameTable(gs, play)
  {
    var k := |gs.players| - 1;
    var before, answers, last := AnswersRun(m, gs, k, sh);
    play := LastAnswer(m, last, k, sh);
    SameTableChain(gs, last, play);
    states, moves := LongerRun(m, before, answers, sh, Answer(last.players[k]), play);
  }

  // A new game is waiting for everybody.
  lemma NewGameWaits(m: Board, seats: seq<SeatInit>, sh: Shuffler, longs: seq<TicketId>, regulars: seq<TicketId>, first: nat, gs: Game)
    requires m.Valid() && m.stationsPerPlayer >= 0 && DistinctSeats(seats) && Fair(sh) && 4 * m.maxPlayers <= |sh(0, FullDeck())|
    requires Shuffled(longs, m.longTickets) && Shuffled(regulars, m.regularTickets)
    requires InitState(m, seats, sh, longs, regulars, first) == Ok(gs)
    ensures Waiting(gs, 0) && |gs.players| == |seats| && gs.currentSeat == gs.players[first % |seats|].seat
    ensures gs.ticketDeck == regulars[3 * |seats|..]
  {
    InitKeeps(m, seats, sh, longs, regulars, first, gs);
    InitPlayers(m, seats, sh(0, FullDeck()), sh, longs, regulars, first, gs);
    forall i | 0 <= i < |gs.players|
      ensures !gs.players[i].resigned && !gs.players[i].setupDone
    {
      assert TtrSetup.Fresh(m, gs.players[i]);
    }
    SeatFound(gs.players, first % |seats|);
  }

  // ---------------------------------------------------------------------
  // A setup that gets stuck
  // ---------------------------------------------------------------------

  lemma ResignAccepted(m: Board, gs: Game, i: nat, sh: Shuffler) returns (after: Game)
    requires m.Valid() && Flow(gs) && gs.phase != Finished && i < |gs.players| && !gs.players[i].resigned
    ensures Accepts(m, gs, Move(gs.players[i].user, Resign, true), sh, after)
    ensures Resigned(gs, i, after)
  {
    SeatFound(gs.players, i);
    after := Numbered(ApplyResign(gs, i)).value;
    ResignDispatches(m, gs, i, sh);
  }

  lemma ResignDispatches(m: Board, gs: Game, i: nat, sh: Shuffler)
    requires m.Valid() && i < |gs.players|
    ensures Dispatch(m, gs, i, Resign, sh, true) == ApplyResign(gs, i)
    ensures gs.phase != Finished ==> Gate(gs, i, Resign).None?
  {
  }

  ghost predicate Resigned(gs: Game, i: nat, after: Game)
    requires i < |gs.players|
  {
    Numbered(ApplyResign(gs, i)) == Ok(after)
  }

  lemma LastOneLeaves(m: Board, gs: Game, k: nat, sh: Shuffler) returns (after: Game)
    requires m.Valid() && Waiting(gs, k) && k + 1 == |gs.players| && k >= 2
    ensures Accepts(m, gs, Move(gs.players[k].user, Resign, true), sh, after) && Stuck(after)
  {
    after := ResignAccepted(m, gs, k, sh);
    AllActive(gs.players);
    StuckIff(gs, k, ApplyResign(gs, k).value);
  }

  // Every new game of three or more players can get stuck: all but the last
  // player answer, and the last one resigns.
  lemma SetupCanStick(m: Board, gs: Game, sh: Shuffler) returns (states: seq<Game>, moves: seq<Move>)
    requires m.Valid() && Waiting(gs, 0) && |gs.players| >= 3
    ensures IsRun(m, states, moves, sh) && states[0] == gs && Stuck(states[|moves|])
  {
    var k := |gs.players| - 1;
    var before, answers, last := AnswersRun(m, gs, k, sh);
    var after := LastOneLeaves(m, last, k, sh);
    states, moves := LongerRun(m, before, answers, sh, Move(last.players[k].user, Resign, true), after);
  }

  // ---------------------------------------------------------------------
  // A turn that goes the wrong way
  // ---------------------------------------------------------------------

  lemma {:induction false} EverySeatActive(ps: seq<Player>)
    requires forall i :: 0 <= i < |ps| ==> !ps[i].resigned
    ensures |ActiveSeats(ps)| == |ps| && forall i :: 0 <= i < |ps| ==> ActiveSeats(ps)[i] == ps[i].seat
  {
    if ps != [] {
      EverySeatActive(ps[..|ps| - 1]);
    }
  }

  // In every new game whose first player sits neither first nor last, that
  // player can resign at once and the turn skips the next seat.
  lemma TurnCanSkip(m: Board, gs: Game, sh: Shuffler, i: nat) returns (states: seq<Game>, moves: seq<Move>)
    requires m.Valid() && Waiting(gs, 0) && 0 < i < |gs.players| - 1 && gs.currentSeat == gs.players[i].seat
    ensures IsRun(m, states, moves, sh) && states[0] == gs
    ensures var after := states[|moves|]; after.phase == Normal && after.currentSeat == gs.players[0].seat
    ensures NextActive(gs.players, gs.players[i].seat) == gs.players[i + 1].seat
  {
    var before, answers, play := SetupRun(m, gs, sh);
    var after := ResignAccepted(m, play, i, sh);
    states, moves := LongerRun(m, before, answers, sh, Move(play.players[i].user, Resign, true), after);
    ResignInTurn(play, i, after);
    NextSeat(gs.players, i);
  }

  lemma NextSeat(ps: seq<Player>, i: nat)
    requires SeatsOk(ps) && i < |ps| - 1 && forall k :: 0 <= k < |ps| ==> !ps[k].resigned
    ensures NextActive(ps, ps[i].seat) == ps[i + 1].seat
  {
    EverySeatActive(ps);
    Arithmetic.RemainderIs(i + 1, |ps|, 0, i + 1);
    NextOnCircle(ps, i);
  }

  lemma ResignInTurn(play: Game, i: nat, after: Game)
    requires Flow(play) && play.phase == Normal && 0 < i < |play.players| - 1 && play.currentSeat == play.players[i].seat
    requires play.finalTurnsLeft == -1 && forall k :: 0 <= k < |play.players| ==> !play.players[k].resigned
    requires Resigned(play, i, after)
    ensures after.phase == Normal && after.currentSeat == play.players[0].seat
  {
    var stepped := ApplyResign(play, i).value;
    EnoughStay(play, i, stepped);
    CurrentIs(play, i);
    var p := ResignPassesToLowest(play, i, stepped);
    LowestStays(play.players, i, stepped.players);
  }

  // Of three or more players one leaves: play goes on without that one.
  lemma EnoughStay(play: Game, i: nat, stepped: Game)
    requires Flow(play) && play.phase == Normal && 0 < i < |play.players| - 1
    requires play.finalTurnsLeft == -1 && forall k :: 0 <= k < |play.players| ==> !play.players[k].resigned
    requires ApplyResign(play, i) == Ok(stepped)
    ensures stepped.phase == Normal && |stepped.players| == |play.players|
    ensures forall k :: 0 <= k < |play.players| ==>
              stepped.players[k].seat == play.players[k].seat && (stepped.players[k].resigned <==> k == i)
  {
    AllActive(play.players);
    RetiredSeats(Released(play), i);
    EverySeatActive(play.players);
  }

  lemma {:induction false} LowestStays(ps: seq<Player>, i: nat, after: seq<Player>)
    requires 0 < i < |ps| == |after| && SeatsOk(ps) && forall k :: 0 <= k < |ps| ==> !ps[k].resigned
    requires forall k :: 0 <= k < |ps| ==> after[k].seat == ps[k].seat && (after[k].resigned <==> k == i)
    ensures ActiveSeats(after) != [] && ActiveSeats(after)[0] == ps[0].seat
  {
    FirstStays(after);
  }

  lemma {:induction false} FirstStays(ps: seq<Player>)
    requires ps != [] && !ps[0].resigned
    ensures ActiveSeats(ps) != [] && ActiveSeats(ps)[0] == ps[0].seat
  {
    if |ps| > 1 {
      FirstStays(ps[..|ps| - 1]);
    } else {
      assert ActiveSeats(ps[..0]) == [];
    }
  }

  // ---------------------------------------------------------------------
  // A game over with a decision still parked
  // ---------------------------------------------------------------------

  lemma OfferAccepted(m: Board, gs: Game, i: nat, sh: Shuffler) returns (after: Game)
    requires m.Valid() && Flow(gs) && gs.phase == Normal && i < |gs.players| && gs.players[i].seat == gs.currentSeat
    requires gs.ticketDeck != []
    ensures Accepts(m, gs, Move(gs.players[i].user, DrawTickets, true), sh, after)
    ensures Flow(after) && after.phase == AwaitTicketKeep && after.players == gs.players && after.currentSeat == gs.currentSeat
  {
    OnTurnIs(gs, i);
    var stepped := ApplyDrawTickets(gs).value;
    after := stepped.(seqNo := stepped.seqNo + 1);
    StepFlow(m, gs, gs.players[i].user, DrawTickets, sh, true, after);
  }

  // Of two players, the one who is not to move leaves.
  lemma OtherLeaves(m: Board, gs: Game, i: nat, sh: Shuffler) returns (after: Game)
    requires m.Valid() && Flow(gs) && IsAwaiting(gs.phase) && |gs.players| == 2 && i < 2
    requires gs.players[i].seat != gs.currentSeat && !gs.players[i].resigned
    ensures Accepts(m, gs, Move(gs.players[i].user, Resign, true), sh, after)
    ensures after.phase == Finished && HasParked(after)
  {
    after := ResignAccepted(m, gs, i, sh);
    CurrentIs(gs, i);
    RetiredSeats(gs, i);
    assert ActiveCount(gs.players) <= 2 by { ActiveAtMost(gs.players); }
    ResignKeepsParked(gs, i, ApplyResign(gs, i).value);
  }

  lemma {:induction false} ActiveAtMost(ps: seq<Player>)
    ensures |ActiveSeats(ps)| <= |ps|
  {
    if ps != [] {
      ActiveAtMost(ps[..|ps| - 1]);
    }
  }

  // Every new game of two players with tickets left can end with a ticket
  // choice still open.
  lemma CanEndParked(m: Board, gs: Game, sh: Shuffler, i: nat) returns (states: seq<Game>, moves: seq<Move>)
    requires m.Valid() && Waiting(gs, 0) && |gs.players| == 2 && i < 2 && gs.currentSeat == gs.players[i].seat && gs.ticketDeck != []
    ensures IsRun(m, states, moves, sh) && states[0] == gs
    ensures states[|moves|].phase == Finished && HasParked(states[|moves|])
  {
    var before, answers, play := SetupRun(m, gs, sh);
    var offered := OfferAccepted(m, play, i, sh);
    var longer, more := LongerRun(m, before, answers, sh, Move(play.players[i].user, DrawTickets, true), offered);
    assert TtrFlow.Apart(play.players[0], play.players[1]);
    var after := OtherLeaves(m, offered, 1 - i, sh);
    states, moves := LongerRun(m, longer, more, sh, Move(offered.players[1 - i].user, Resign, true), after);
  }

  // ---------------------------------------------------------------------
  // A small board on which all of this happens
  // ---------------------------------------------------------------------

  const WEST := City("west")
  const EAST := City("east")
  const PASS := Route(1, WEST, EAST, Blue, 1, true, 0, None)

  // Tickets with consecutive ids.
  function Tickets(from: TicketId, n: nat): (ids: seq<TicketId>)
    ensures |ids| == n && forall i :: 0 <= i < n ==> ids[i] == from + i
  {
    seq(n, i => from + i)
  }

  const LONGS: seq<TicketId> := Tickets(1, 5)
  const REGULARS: seq<TicketId> := Tickets(6, 16)

  // One tunnel between two cities, and twenty-one tickets.
  function SmallBoard(): Board {
    Board(2, 5, 45, 3, [WEST, EAST], [PASS], map[1 := PASS], map[WEST := [1], EAST := [1]],
          map id | id in LONGS + REGULARS :: Ticket(id, WEST, EAST, 5, id <= 5), LONGS, REGULARS)
  }

  lemma SmallBoardValid()
    ensures SmallBoard().Valid()
  {
    var m := SmallBoard();
    SmallRoutes(m);
    SmallTickets(m);
  }

  lemma SmallRoutes(m: Board)
    requires m == SmallBoard()
    ensures forall i :: 0 <= i < |m.routes| ==> m.routes[i].id in m.routeById && m.routeById[m.routes[i].id] == m.routes[i]
    ensures forall id :: id in m.routeById ==> m.ValidRoute(id, m.routeById[id]) && m.routeById[id] in m.routes && m.routeById[id].pair.None?
    ensures forall c, id :: c in m.routesByCity && id in m.routesByCity[c] ==> id in m.routeById && m.routeById[id].Touches(c)
    ensures forall id :: id in m.routeById ==> m.IndexedAt(id, m.routeById[id].a) && m.IndexedAt(id, m.routeById[id].b)
  {
    assert m.routes == [PASS];
  }

  lemma SmallTickets(m: Board)
    requires m == SmallBoard()
    ensures forall i, j :: 0 <= i < j < |m.longTickets| ==> m.longTickets[i] != m.longTickets[j]
    ensures forall i, j :: 0 <= i < j < |m.regularTickets| ==> m.regularTickets[i] != m.regularTickets[j]
    ensures forall t :: t in m.longTickets ==> t !in m.regularTickets
  {
    assert m.longTickets == Tickets(1, 5) && m.regularTickets == Tickets(6, 16);
  }

  // Ten cards from the top go under the pile.
  const CUT: Shuffler := (n: nat, s: seq<Color>) => if |s| < 10 then s else s[10..] + s[..10]

  lemma CutIsFair()
    ensures Fair(CUT)
  {
    forall n: nat, s: seq<Color>
      ensures SameCards(CUT(n, s), s)
    {
      if |s| >= 10 {
        forall c
          ensures Times(CUT(n, s), c) == Times(s, c)
        {
          TimesConcat(s[10..], s[..10], c);
          TimesConcat(s[..10], s[10..], c);
          assert s[..10] + s[10..] == s;
        }
      }
    }
  }

  function Table(n: nat): (seats: seq<SeatInit>)
    ensures |seats| == n && forall i :: 0 <= i < n ==> seats[i] == SeatInit(i, 100 + i, 0)
  {
    seq(n, i requires 0 <= i => SeatInit(i, 100 + i, 0))
  }

  // A new game of n players on the small board.
  lemma SmallGame(n: nat, first: nat) returns (gs: Game)
    requires 2 <= n <= 5
    ensures SmallBoard().Valid() && Fair(CUT) && 4 * SmallBoard().maxPlayers <= |CUT(0, FullDeck())|
    ensures Shuffled(LONGS, SmallBoard().longTickets) && Shuffled(REGULARS, SmallBoard().regularTickets)
    ensures InitState(SmallBoard(), Table(n), CUT, LONGS, REGULARS, first) == Ok(gs)
    ensures Waiting(gs, 0) && |gs.players| == n && gs.currentSeat == gs.players[first % n].seat && gs.ticketDeck != []
  {
    SmallBoardValid();
    CutIsFair();
    DeckSuffices(SmallBoard(), CUT);
    gs := InitState(SmallBoard(), Table(n), CUT, LONGS, REGULARS, first).value;
    NewGameWaits(SmallBoard(), Table(n), CUT, LONGS, REGULARS, first, gs);
  }

  // So none of the three is idle: from a new game the engine accepts a run to
  // a stuck setup, to a skipped seat, and to a finished game with an open choice.
  lemma AllThreeHappen() returns (stuck: seq<Game>, skipped: seq<Game>, parked: seq<Game>, a: seq<Move>, b: seq<Move>, c: seq<Move>)
    ensures SmallBoard().Valid() && 4 * SmallBoard().maxPlayers <= |CUT(0, FullDeck())|
    ensures IsRun(SmallBoard(), stuck, a, CUT) && Stuck(stuck[|a|])
    ensures InitState(SmallBoard(), Table(3), CUT, LONGS, REGULARS, 0) == Ok(stuck[0])
    ensures IsRun(SmallBoard(), skipped, b, CUT) && skipped[|b|].phase == Normal
    ensures InitState(SmallBoard(), Table(3), CUT, LONGS, REGULARS, 1) == Ok(skipped[0]) && |skipped[0].players| == 3
    ensures skipped[|b|].currentSeat == skipped[0].players[0].seat &&
            NextActive(skipped[0].players, skipped[0].currentSeat) == skipped[0].players[2].seat
    ensures IsRun(SmallBoard(), parked, c, CUT) && parked[|c|].phase == Finished && HasParked(parked[|c|])
    ensures InitState(SmallBoard(), Table(2), CUT, LONGS, REGULARS, 0) == Ok(parked[0])
  {
    var three := SmallGame(3, 0);
    stuck, a := SetupCanStick(SmallBoard(), three, CUT);
    var middle := SmallGame(3, 1);
    skipped, b := TurnCanSkip(SmallBoard(), middle, CUT, 1);
    var two := SmallGame(2, 0);
    parked, c := CanEndParked(SmallBoard(), two, CUT, 0);
  }

  // ---------------------------------------------------------------------
  // One tunnel on that board
  // ---------------------------------------------------------------------

  // The cut deck: two purple cards, twelve blue and twelve orange ones, ...
  lemma CutDeck(deck: seq<Color>)
    requires deck == CUT(0, FullDeck())
    ensures |deck| >= 26 && forall k :: 0 <= k < 26 ==> deck[k] == if k < 2 then Purple else if k < 14 then Blue else Orange
  {
    var all := ALL_COLORS;
    assert all[1..][1..] == all[2..] && all[2..][1..] == all[3..];
    var purple, blue, orange := Copies(Purple, 12), Copies(Blue, 12), Copies(Orange, 12);
    assert DeckOf(all) == purple + DeckOf(all[1..]);
    assert DeckOf(all[1..]) == blue + DeckOf(all[2..]);
    assert DeckOf(all[2..]) == orange + DeckOf(all[3..]);
    DeckSize(all[3..]);
    var full := FullDeck();
    assert full == purple + (blue + (orange + DeckOf(all[3..])));
    assert forall k :: 0 <= k < 36 ==> full[k] == if k < 12 then Purple else if k < 24 then Blue else Orange;
  }

  // The row is dealt straight from a pile that is long enough.
  lemma {:induction false} FilledFromPile(p: Piles, sh: Shuffler)
    requires RowOk(p) && |p.draw| > FACE_UP_SLOTS - |p.faceUp|
    ensures var n := FACE_UP_SLOTS - |p.faceUp|;
            Filled(p, sh) == p.(faceUp := p.faceUp + p.draw[..n], draw := p.draw[n..])
    decreases FACE_UP_SLOTS - |p.faceUp|
  {
    if |p.faceUp| < FACE_UP_SLOTS {
      var q := p.(faceUp := p.faceUp + [p.draw[0]], draw := p.draw[1..]);
      FilledFromPile(q, sh);
      var n := FACE_UP_SLOTS - |p.faceUp|;
      assert p.draw[..n] == [p.draw[0]] + p.draw[1..][..n - 1];
      assert p.draw[1..][n - 1..] == p.draw[n..];
      assert q.faceUp + q.draw[..n - 1] == p.faceUp + p.draw[..n];
    }
  }

  // Of the first eight cards the first of two players gets every other one.
  lemma {:induction false} FirstHand(ps: seq<Player>, deck: seq<Color>)
    requires |ps| == 2 && |deck| >= 8 && ps[0].hand == multiset{}
    requires deck[0] == Purple && forall k :: 2 <= k < 8 ==> deck[k] == Blue
    ensures DealtHands(ps, deck, 8)[0].hand[Blue] == 3
  {
    assert DealtHands(ps, deck, 1)[0].hand[Blue] == 0;
    assert DealtHands(ps, deck, 2)[0].hand[Blue] == 0;
    assert DealtHands(ps, deck, 3)[0].hand[Blue] == 1;
    assert DealtHands(ps, deck, 4)[0].hand[Blue] == 1;
    assert DealtHands(ps, deck, 5)[0].hand[Blue] == 2;
    assert DealtHands(ps, deck, 6)[0].hand[Blue] == 2;
    assert DealtHands(ps, deck, 7)[0].hand[Blue] == 3;
  }

  lemma SmallPile(deck: seq<Color>)
    requires |deck| >= 26 && forall k :: 8 <= k < 26 ==> deck[k] == if k < 14 then Blue else Orange
    ensures var p := Flushed(Filled(Piles(deck[8..], [], [], 1), CUT), CUT, MAX_FLUSHES);
            |p.draw| >= 3 && p.draw[..3] == [Blue, Orange, Orange]
  {
    var left := Piles(deck[8..], [], [], 1);
    FilledFromPile(left, CUT);
    var row := Filled(left, CUT);
    assert row.faceUp == [Blue, Blue, Blue, Blue, Blue];
    TimesMember(row.faceUp, Loco);
    assert row.draw == deck[13..];
  }

  lemma {:induction false} SmallStart(m: Board, deck: seq<Color>, gs: Game)
    requires 1 <= m.minPlayers && 4 * m.maxPlayers <= |deck| && |deck| >= 8
    requires InitFrom(m, Table(2), deck, CUT, LONGS, REGULARS, 0) == Ok(gs)
    ensures |gs.players| == 2 && |SortSeats(Table(2))| == 2
    ensures gs.players[0].hand == DealtHands(Seated(m, SortSeats(Table(2))), deck, 8)[0].hand
    ensures gs.piles == Flushed(Filled(Piles(deck[8..], [], [], 1), CUT), CUT, MAX_FLUSHES)
  {
    SortedLength(Table(2));
  }

  // What the first player of two holds, and what lies on the pile.
  lemma SmallDeal(gs: Game)
    requires SmallBoard().Valid() && 4 * SmallBoard().maxPlayers <= |CUT(0, FullDeck())|
    requires InitState(SmallBoard(), Table(2), CUT, LONGS, REGULARS, 0) == Ok(gs)
    ensures |gs.players| == 2 && gs.players[0].hand[Blue] == 3
    ensures |gs.piles.draw| >= 3 && gs.piles.draw[..3] == [Blue, Orange, Orange]
  {
    var deck := CUT(0, FullDeck());
    CutDeck(deck);
    SmallStart(SmallBoard(), deck, gs);
    FirstHand(Seated(SmallBoard(), SortSeats(Table(2))), deck);
    SmallPile(deck);
  }

  // The first player claims the tunnel for one blue card: of the three cards
  // turned up one is blue, and a surcharge of one waits for a decision.
  lemma TunnelParks(m: Board, gs: Game) returns (after: Game)
    requires m == SmallBoard() && m.Valid() && Flow(gs) && gs.phase == Normal && |gs.players| == 2
    requires gs.currentSeat == gs.players[0].seat && gs.players[0].hand[Blue] == 3 && gs.players[0].trainsLeft >= 1
    requires gs.routeOwner == map[] && gs.closed == [] && |gs.piles.draw| >= 3 && gs.piles.draw[..3] == [Blue, Orange, Orange]
    ensures Accepts(m, gs, Move(gs.players[0].user, ClaimRoute(1, map[Blue := 1]), true), CUT, after)
    ensures Flow(after) && after.phase == AwaitTunnel && after.currentSeat == gs.currentSeat && SameStanding(gs.players, after.players)
    ensures after.tunnel == Some(Tunnel(1, map[Blue := 1], Blue, [Blue, Orange, Orange], 1)) && after.players[0].hand[Blue] == 2
  {
    OnTurnIs(gs, 0);
    var pay: Payment := map[Blue := 1];
    var paid := gs.(players := HandTo(gs.players, 0, Debited(gs.players[0].hand, pay)));
    ThreeTurned(paid.piles);
    BluePays(gs.players[0].hand);
    var turned := Revealed(paid.piles, TUNNEL_REVEAL_COUNT, CUT);
    SurchargeOfOne(paid, turned);
    ClaimDispatches(m, gs, 0, 1, pay, CUT);
    TurnGivesMove(m, gs, 0, ClaimRoute(1, pay), CUT);
    assert ApplyClaimRoute(m, gs, 0, 1, pay, CUT) == Ok(TunnelTurned(paid, 0, PASS, pay, Blue, turned));
    after := Numbered(ApplyClaimRoute(m, gs, 0, 1, pay, CUT)).value;
    StepFlow(m, gs, gs.players[0].user, ClaimRoute(1, pay), CUT, true, after);
  }

  lemma {:induction false} ThreeTurned(p: Piles)
    requires |p.draw| >= 3 && p.draw[..3] == [Blue, Orange, Orange]
    ensures Revealed(p, 3, CUT).cards == [Blue, Orange, Orange]
  {
    assert p.draw[0] == Blue && p.draw[1] == Orange && p.draw[2] == Orange;
    assert Revealed(p, 1, CUT) == Reveal([Blue], p.(draw := p.draw[1..]));
    assert Revealed(p, 2, CUT) == Reveal([Blue, Orange], p.(draw := p.draw[2..]));
  }

  lemma BluePays(hand: Hand)
    requires hand[Blue] == 3
    ensures var pay: Payment := map[Blue := 1]; WellFormed(pay) && Pays(PASS, hand, pay) && Declared(pay) == Blue
    ensures Debited(hand, map[Blue := 1])[Blue] == 2
  {
    MixedIsPayment(hand, Blue, 1, 0);
    var pay: Payment := map[Blue := 1];
    assert Mixed(Blue, 1, 0) == pay;
    assert CARD_COLORS[1..][0] == Blue && CARD_COLORS[0] == Purple;
    assert Declared(pay) == DeclaredIn(pay, CARD_COLORS[1..]);
  }

  lemma SurchargeOfOne(paid: Game, turned: Reveal)
    requires |paid.players| == 2 && turned.cards == [Blue, Orange, Orange]
    ensures TunnelTurned(paid, 0, PASS, map[Blue := 1], Blue, turned) ==
            paid.(piles := turned.piles, tunnel := Some(Tunnel(1, map[Blue := 1], Blue, turned.cards, 1)), phase := AwaitTunnel)
  {
    assert Times([Blue, Orange, Orange], Blue) == 1 && Times([Blue, Orange, Orange], Loco) == 0 by {
      assert [Blue, Orange, Orange][1..] == [Orange, Orange] && [Orange, Orange][1..] == [Orange];
    }
  }

  // A parked tunnel, reached from a new game by accepted moves.
  lemma TunnelGame() returns (states: seq<Game>, moves: seq<Move>, parked: Game)
    ensures SmallBoard().Valid() && 4 * SmallBoard().maxPlayers <= |CUT(0, FullDeck())|
    ensures IsRun(SmallBoard(), states, moves, CUT) && parked == states[|moves|] && Flow(parked)
    ensures InitState(SmallBoard(), Table(2), CUT, LONGS, REGULARS, 0) == Ok(states[0])
    ensures parked.phase == AwaitTunnel && |parked.players| == 2 && parked.currentSeat == parked.players[0].seat
    ensures parked.tunnel == Some(Tunnel(1, map[Blue := 1], Blue, [Blue, Orange, Orange], 1)) && parked.players[0].hand[Blue] == 2
  {
    var gs := SmallGame(2, 0);
    SmallDeal(gs);
    SmallIsFresh(gs);
    var before, answers, play := SetupRun(SmallBoard(), gs, CUT);
    parked := TunnelParks(SmallBoard(), play);
    states, moves := LongerRun(SmallBoard(), before, answers, CUT, Move(play.players[0].user, ClaimRoute(1, map[Blue := 1]), true), parked);
  }

  lemma SmallIsFresh(gs: Game)
    requires SmallBoard().Valid() && Fair(CUT) && 4 * SmallBoard().maxPlayers <= |CUT(0, FullDeck())|
    requires InitState(SmallBoard(), Table(2), CUT, LONGS, REGULARS, 0) == Ok(gs) && |gs.players| == 2
    ensures gs.players[0].trainsLeft == 45 && gs.routeOwner == map[] && gs.closed == []
  {
    InitPlayers(SmallBoard(), Table(2), CUT(0, FullDeck()), CUT, LONGS, REGULARS, 0, gs);
    assert TtrSetup.Fresh(SmallBoard(), gs.players[0]);
  }

  // An answer with both faults, from the player a tunnel is parked for: refused
  // in one order of the colours, and the turn and the route lost in the other.
  lemma BothOutcomes(m: Board, gs: Game, i: nat, extra: Payment, sh: Shuffler) returns (a: Action, lost: Game)
    requires m.Valid() && Flow(gs) && gs.phase == AwaitTunnel && i < |gs.players| && gs.players[i].seat == gs.currentSeat
    requires WellFormed(extra) && Strange(gs.tunnel.value, extra) && Short(gs.tunnel.value, gs.players[i].hand, extra)
    ensures a == ResolveDecision(KTunnel, [], true, extra)
    ensures Apply(m, gs, gs.players[i].user, a, sh, false) == Err(IllegalAction)
    ensures Apply(m, gs, gs.players[i].user, a, sh, true) == Ok(lost)
    ensures lost == Numbered(Ok(Refunded(gs, i, gs.tunnel.value))).value && TtrSurcharge.Forfeits(gs, i, Ok(lost))
  {
    OnTurnIs(gs, i);
    a := ResolveDecision(KTunnel, [], true, extra);
    TtrSurcharge.AcceptForfeitsIff(m, gs, i, extra, true);
    TtrSurcharge.AcceptForfeitsIff(m, gs, i, extra, false);
    FaultyAnswer(m, gs, i, extra);
    lost := Numbered(ApplyTunnelDecision(m, gs, i, true, extra, true)).value;
    TunnelDispatches(m, gs, i, extra, sh, true);
    TunnelDispatches(m, gs, i, extra, sh, false);
  }

  lemma FaultyAnswer(m: Board, gs: Game, i: nat, extra: Payment)
    requires m.Valid() && gs.tunnel.Some? && i < |gs.players|
    requires WellFormed(extra) && Strange(gs.tunnel.value, extra) && Short(gs.tunnel.value, gs.players[i].hand, extra)
    ensures ApplyTunnelDecision(m, gs, i, true, extra, false) == Err(IllegalAction)
    ensures ApplyTunnelDecision(m, gs, i, true, extra, true) == Ok(Refunded(gs, i, gs.tunnel.value))
  {
  }

  lemma TunnelDispatches(m: Board, gs: Game, i: nat, extra: Payment, sh: Shuffler, handFirst: bool)
    requires m.Valid() && gs.phase == AwaitTunnel && i < |gs.players|
    ensures Dispatch(m, gs, i, ResolveDecision(KTunnel, [], true, extra), sh, handFirst) ==
            ApplyTunnelDecision(m, gs, i, true, extra, handFirst)
  {
  }

  // Reached by play: the same answer, with a blue card too many and a purple
  // one that does not belong, has both outcomes.
  lemma SameAnswerTwoOutcomes() returns (states: seq<Game>, moves: seq<Move>, parked: Game, a: Action, lost: Game)
    ensures SmallBoard().Valid() && 4 * SmallBoard().maxPlayers <= |CUT(0, FullDeck())|
    ensures IsRun(SmallBoard(), states, moves, CUT) && parked == states[|moves|] && parked.phase == AwaitTunnel
    ensures InitState(SmallBoard(), Table(2), CUT, LONGS, REGULARS, 0) == Ok(states[0]) && |parked.players| == 2
    ensures Apply(SmallBoard(), parked, parked.players[0].user, a, CUT, false) == Err(IllegalAction)
    ensures Apply(SmallBoard(), parked, parked.players[0].user, a, CUT, true) == Ok(lost)
    ensures TtrSurcharge.Forfeits(parked, 0, Ok(lost))
  {
    states, moves, parked := TunnelGame();
    var extra: Payment := map[Blue := 3, Purple := 1];
    TwoFaults(parked.tunnel.value, parked.players[0].hand, extra);
    a, lost := BothOutcomes(SmallBoard(), parked, 0, extra, CUT);
  }

  lemma TwoFaults(t: Tunnel, hand: Hand, extra: Payment)
    requires t.color == Blue && hand[Blue] == 2 && extra == map[Blue := 3, Purple := 1]
    ensures WellFormed(extra) && Strange(t, extra) && Short(t, hand, extra)
  {
    assert Purple in extra && Blue in extra && extra[Blue] == 3;
  }

  // And a player who could pay the surcharge of one loses the route, in every
  // order, by offering one blue card more than he holds.
  lemma AbleButForfeits() returns (states: seq<Game>, moves: seq<Move>, parked: Game)
    ensures SmallBoard().Valid() && 4 * SmallBoard().maxPlayers <= |CUT(0, FullDeck())|
    ensures IsRun(SmallBoard(), states, moves, CUT) && parked == states[|moves|] && parked.phase == AwaitTunnel
    ensures InitState(SmallBoard(), Table(2), CUT, LONGS, REGULARS, 0) == Ok(states[0]) && |parked.players| == 2 && parked.tunnel.Some?
    ensures TtrSurcharge.CanPay(parked.tunnel.value, parked.players[0].hand)
    ensures forall handFirst :: TtrSurcharge.Forfeits(parked, 0,
              ApplyTunnelDecision(SmallBoard(), parked, 0, true, map[Blue := 3], handFirst))
  {
    states, moves, parked := TunnelGame();
    TtrSurcharge.CanPayIff(parked.tunnel.value, parked.players[0].hand);
    forall handFirst
      ensures TtrSurcharge.Forfeits(parked, 0, ApplyTunnelDecision(SmallBoard(), parked, 0, true, map[Blue := 3], handFirst))
    {
      TtrSurcharge.OverOfferForfeits(SmallBoard(), parked, 0, 3, handFirst);
    }
  }
}
