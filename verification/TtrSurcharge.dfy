// Answers to a parked tunnel, and what each one costs.
module TtrSurcharge {
  import opened Wrappers
  import opened TtrBoard
  import opened TtrPayment
  import opened TtrCards
  import opened TtrGame
  import opened TtrRules

  // ---------------------------------------------------------------------
  // The order of the colours
  // ---------------------------------------------------------------------

  // Every colour of a payment, once.
  ghost predicate Visits(order: seq<Color>, extra: Payment) {
    && (forall c :: c in order <==> c in extra)
    && (forall j, k :: 0 <= j < k < |order| ==> order[j] != order[k])
  }

  predicate IsStrange(t: Tunnel, c: Color) { c != t.color && c != Loco }

  // The check as it goes through the colours: the first fault decides, and
  // the total is compared at the end.
  function VerdictInOrder(t: Tunnel, hand: Hand, extra: Payment, order: seq<Color>): Verdict
    requires forall c :: c in order ==> c in extra
  {
    if order == [] then if Total(extra) != t.surcharge then Malformed else Fits
    else
      var c := order[0];
      if IsStrange(t, c) then Malformed
      else if hand[c] < extra[c] then Unaffordable
      else VerdictInOrder(t, hand, extra, order[1..])
  }

  // The part of an order that still has to be visited decides: without a
  // fault the total counts, with faults of one kind that kind, and with both
  // kinds whichever comes first.
  lemma {:induction false} FirstFaultDecides(t: Tunnel, hand: Hand, extra: Payment, order: seq<Color>)
    requires forall c :: c in order ==> c in extra
    ensures var strange := exists c :: c in order && IsStrange(t, c);
            var short := exists c :: c in order && !IsStrange(t, c) && hand[c] < extra[c];
            var v := VerdictInOrder(t, hand, extra, order);
            && (!strange && !short ==> v == if Total(extra) != t.surcharge then Malformed else Fits)
            && (strange && !short ==> v == Malformed)
            && (!strange && short ==> v == Unaffordable)
            && (strange && short ==> v == Malformed || v == Unaffordable)
  {
    if order != [] {
      FirstFaultDecides(t, hand, extra, order[1..]);
      assert forall c :: c in order <==> c == order[0] || c in order[1..];
    }
  }

  // Whatever the order, the verdict is one of the two the rules allow for.
  lemma OrderGivesVerdict(t: Tunnel, hand: Hand, extra: Payment, order: seq<Color>) returns (handFirst: bool)
    requires Visits(order, extra)
    ensures VerdictInOrder(t, hand, extra, order) == SurchargeVerdict(t, hand, extra, handFirst)
  {
    FirstFaultDecides(t, hand, extra, order);
    handFirst := VerdictInOrder(t, hand, extra, order) == Unaffordable;
    assert Strange(t, extra) <==> exists c :: c in order && IsStrange(t, c);
    assert Short(t, hand, extra) <==> exists c :: c in order && !IsStrange(t, c) && hand[c] < extra[c];
  }

  // And some order gives each of them.
  lemma VerdictHasOrder(t: Tunnel, hand: Hand, extra: Payment, handFirst: bool) returns (order: seq<Color>)
    ensures Visits(order, extra)
    ensures VerdictInOrder(t, hand, extra, order) == SurchargeVerdict(t, hand, extra, handFirst)
  {
    order := Listed(extra.Keys);
    if Strange(t, extra) && Short(t, hand, extra) {
      var c: Color;
      if handFirst {
        c :| c in extra && (c == t.color || c == Loco) && hand[c] < extra[c];
      } else {
        c :| c in extra && c != t.color && c != Loco;
      }
      var rest := Listed(extra.Keys - {c});
      order := [c] + rest;
      assert forall k :: 0 <= k < |rest| ==> rest[k] in rest;
    } else {
      var h := OrderGivesVerdict(t, hand, extra, order);
    }
  }

  lemma {:induction false} Listed(some: set<Color>) returns (order: seq<Color>)
    ensures forall c :: c in order <==> c in some
    ensures forall j, k :: 0 <= j < k < |order| ==> order[j] != order[k]
  {
    if some == {} {
      order := [];
    } else {
      var c :| c in some;
      var rest := Listed(some - {c});
      order := [c] + rest;
      assert forall k :: 0 <= k < |rest| ==> rest[k] in rest;
    }
  }

  // ---------------------------------------------------------------------
  // When the order matters
  // ---------------------------------------------------------------------

  // An accepting answer that fails both tests.
  ghost predicate BothFaults(gs: Game, i: nat, a: Action)
    requires i < |gs.players|
  {
    && a.ResolveDecision? && a.kind == KTunnel && a.accept && WellFormed(a.extra)
    && gs.phase == AwaitTunnel && gs.tunnel.Some?
    && Strange(gs.tunnel.value, a.extra) && Short(gs.tunnel.value, gs.players[i].hand, a.extra)
  }

  lemma DecisionOrderIff(m: Board, gs: Game, i: nat, extra: Payment)
    requires m.Valid() && i < |gs.players|
    ensures ApplyTunnelDecision(m, gs, i, true, extra, true) == ApplyTunnelDecision(m, gs, i, true, extra, false) <==>
            !(gs.tunnel.Some? && WellFormed(extra) && Strange(gs.tunnel.value, extra) &&
              Short(gs.tunnel.value, gs.players[i].hand, extra))
  {
  }

  lemma DispatchOrderIff(m: Board, gs: Game, i: nat, a: Action, sh: Shuffler)
    requires m.Valid() && i < |gs.players|
    ensures Dispatch(m, gs, i, a, sh, true) == Dispatch(m, gs, i, a, sh, false) <==> !BothFaults(gs, i, a)
  {
    if a.ResolveDecision? && a.kind == KTunnel && a.accept && gs.phase == AwaitTunnel {
      DecisionOrderIff(m, gs, i, a.extra);
    }
  }

  // Of all actions in all states, exactly these answers of the player to move
  // have an outcome that state and payload do not determine.
  lemma {:induction false} OrderMattersIff(m: Board, gs: Game, user: nat, a: Action, sh: Shuffler)
    requires m.Valid()
    ensures Apply(m, gs, user, a, sh, true) == Apply(m, gs, user, a, sh, false) <==>
            (OfUser(gs.players, user).Some? ==>
               var i := OfUser(gs.players, user).value;
               Gate(gs, i, a).Some? || !BothFaults(gs, i, a))
  {
    if OfUser(gs.players, user).Some? {
      var i := OfUser(gs.players, user).value;
      DispatchOrderIff(m, gs, i, a, sh);
      NumberedOnce(Dispatch(m, gs, i, a, sh, true), Dispatch(m, gs, i, a, sh, false));
    }
  }

  lemma NumberedOnce(r: Result<Game, Error>, q: Result<Game, Error>)
    ensures Numbered(r) == Numbered(q) <==> r == q
  {
    if r.Ok? && q.Ok? && Numbered(r) == Numbered(q) {
      assert r.value == q.value.(seqNo := r.value.seqNo);
    }
  }

  // ---------------------------------------------------------------------
  // What an accepting answer costs
  // ---------------------------------------------------------------------

  // The turn ends and the route is not player i's.
  ghost predicate Forfeits(gs: Game, i: nat, r: Result<Game, Error>)
    requires i < |gs.players|
  {
    r.Ok? && i < |r.value.players| && r.value.players[i].claimed == gs.players[i].claimed
  }

  // Accepting forfeits the claim exactly when a legal colour is offered beyond
  // the hand, unless a strange colour was noticed first; what is then stored
  // is what declining stores.
  lemma AcceptForfeitsIff(m: Board, gs: Game, i: nat, extra: Payment, handFirst: bool)
    requires m.Valid() && i < |gs.players| && gs.tunnel.Some?
    ensures var t := gs.tunnel.value; var r := ApplyTunnelDecision(m, gs, i, true, extra, handFirst);
            && (Forfeits(gs, i, r) <==>
                  WellFormed(extra) && Short(t, gs.players[i].hand, extra) && (handFirst || !Strange(t, extra)))
            && (Forfeits(gs, i, r) ==> r == ApplyTunnelDecision(m, gs, i, false, extra, handFirst))
  {
    var t := gs.tunnel.value;
    var r := ApplyTunnelDecision(m, gs, i, true, extra, handFirst);
    if r.Ok? && SurchargeVerdict(t, gs.players[i].hand, extra, handFirst) == Fits {
      PaidIsClaimed(gs, i, m.routeById[t.route], t, extra);
    }
  }

  lemma PaidIsClaimed(gs: Game, i: nat, r: Route, t: Tunnel, extra: Payment)
    requires i < |gs.players| && PointsForLength(r.length).Some?
    ensures |Accepted(gs, i, r, t, extra).players[i].claimed| == |gs.players[i].claimed| + 1
  {
  }

  // A payload that is no surcharge at all: a strange colour or a wrong total.
  ghost predicate Wrong(t: Tunnel, extra: Payment) {
    !WellFormed(extra) || Strange(t, extra) || Total(extra) != t.surcharge
  }

  // "A malformed answer is refused and leaves the decision pending": true of a
  // wrong answer, in every order, if and only if it offers no legal colour
  // beyond the hand.
  lemma WrongIsRefusedIff(m: Board, gs: Game, i: nat, extra: Payment)
    requires m.Valid() && i < |gs.players| && gs.tunnel.Some? && Wrong(gs.tunnel.value, extra)
    ensures (forall handFirst :: ApplyTunnelDecision(m, gs, i, true, extra, handFirst).Err?) <==>
            !(WellFormed(extra) && Short(gs.tunnel.value, gs.players[i].hand, extra))
  {
    forall handFirst
      ensures ApplyTunnelDecision(m, gs, i, true, extra, handFirst).Err? <==>
              !(WellFormed(extra) && Short(gs.tunnel.value, gs.players[i].hand, extra) && (handFirst || !Strange(gs.tunnel.value, extra)))
    {
      AcceptForfeitsIff(m, gs, i, extra, handFirst);
    }
    assert ApplyTunnelDecision(m, gs, i, true, extra, true).Err? || !ApplyTunnelDecision(m, gs, i, true, extra, true).Err?;
  }

  // Cards of the hand that may go towards a surcharge.
  function Usable(t: Tunnel, hand: Hand): nat {
    hand[Loco] + if t.color == Loco then 0 else hand[t.color]
  }

  ghost predicate CanPay(t: Tunnel, hand: Hand) {
    exists extra :: WellFormed(extra) && SurchargeVerdict(t, hand, extra, true) == Fits
  }

  lemma CanPayIff(t: Tunnel, hand: Hand)
    requires t.surcharge >= 1 && t.color != Gray
    ensures CanPay(t, hand) <==> Usable(t, hand) >= t.surcharge
  {
    if Usable(t, hand) >= t.surcharge {
      var extra := Covering(t, hand);
    }
    if CanPay(t, hand) {
      var extra :| WellFormed(extra) && SurchargeVerdict(t, hand, extra, true) == Fits;
      FittingTotal(t, hand, extra);
    }
  }

  lemma Covering(t: Tunnel, hand: Hand) returns (extra: Payment)
    requires t.surcharge >= 1 && t.color != Gray && Usable(t, hand) >= t.surcharge
    ensures WellFormed(extra) && SurchargeVerdict(t, hand, extra, true) == Fits
  {
    var base := if t.color == Loco then Purple else t.color;
    var used := if t.color == Loco then 0 else if hand[base] < t.surcharge then hand[base] else t.surcharge;
    extra := Mixed(base, used, t.surcharge - used);
    MixedCounts(base, used, t.surcharge - used);
    MixedFits(t, hand, base, used, t.surcharge - used);
  }

  lemma MixedFits(t: Tunnel, hand: Hand, c: Color, used: int, locos: int)
    requires c != Loco && c != Gray && 0 <= used && 0 <= locos <= hand[Loco]
    requires used > 0 ==> c == t.color && used <= hand[c]
    ensures var extra := Mixed(c, used, locos); WellFormed(extra) && !Strange(t, extra) && !Short(t, hand, extra)
  {
    var extra := Mixed(c, used, locos);
    assert forall d :: d in extra ==> (d == c && used > 0 && extra[d] == used) || (d == Loco && extra[d] == locos);
  }

  lemma FittingTotal(t: Tunnel, hand: Hand, extra: Payment)
    requires WellFormed(extra) && SurchargeVerdict(t, hand, extra, true) == Fits
    ensures t.surcharge <= Usable(t, hand)
  {
    assert Count(extra, t.color) <= hand[t.color] && Count(extra, Loco) <= hand[Loco];
    match t.color case _ =>
  }

  // So a slip of the finger is enough: in every parked tunnel there is an
  // offer in the declared colour alone that forfeits the claim in every order,
  // also of a player who could have paid.
  lemma OverOfferForfeits(m: Board, gs: Game, i: nat, n: int, handFirst: bool)
    requires m.Valid() && i < |gs.players| && gs.tunnel.Some? && gs.tunnel.value.color != Gray
    requires n > gs.players[i].hand[gs.tunnel.value.color]
    ensures var extra: Payment := map[gs.tunnel.value.color := n];
            && Forfeits(gs, i, ApplyTunnelDecision(m, gs, i, true, extra, handFirst))
            && ApplyTunnelDecision(m, gs, i, true, extra, handFirst) == ApplyTunnelDecision(m, gs, i, false, extra, handFirst)
  {
    OverOfferIsShort(gs.tunnel.value, gs.players[i].hand, n);
    AcceptForfeitsIff(m, gs, i, map[gs.tunnel.value.color := n], handFirst);
  }

  lemma OverOfferIsShort(t: Tunnel, hand: Hand, n: int)
    requires t.color != Gray && n > hand[t.color]
    ensures WellFormed(map[t.color := n]) && !Strange(t, map[t.color := n]) && Short(t, hand, map[t.color := n])
  {
    var extra: Payment := map[t.color := n];
    assert t.color in extra && hand[t.color] < extra[t.color];
  }
}
