// Legal payments, and those on offer.
module TtrPayment {
  import opened Wrappers
  import opened TtrBoard

  type Hand = multiset<Color>

  // Colours with the number of cards of each.
  type Payment = map<Color, int>

  function Count(pay: Payment, c: Color): int {
    if c in pay then pay[c] else 0
  }

  // The part of a payment in the colours of `some`.
  function TotalOf(pay: Payment, some: set<Color>): int {
    (if Purple in some then Count(pay, Purple) else 0) +
    (if Blue in some then Count(pay, Blue) else 0) +
    (if Orange in some then Count(pay, Orange) else 0) +
    (if White in some then Count(pay, White) else 0) +
    (if Green in some then Count(pay, Green) else 0) +
    (if Yellow in some then Count(pay, Yellow) else 0) +
    (if Black in some then Count(pay, Black) else 0) +
    (if Red in some then Count(pay, Red) else 0) +
    (if Gray in some then Count(pay, Gray) else 0) +
    (if Loco in some then Count(pay, Loco) else 0)
  }

  function Total(pay: Payment): int {
    TotalOf(pay, pay.Keys)
  }

  // Cards the hand really holds, in at most one colour besides locomotives,
  // adding up to the price.
  ghost predicate SingleColour(hand: Hand, pay: Payment, want: int) {
    && (forall c :: c in pay ==> 0 < pay[c] <= hand[c])
    && (forall c, d :: c in pay && d in pay && c != Loco && d != Loco ==> c == d)
    && Total(pay) == want
  }

  // The colour a payment declares: locomotive only when it is all locomotives.
  ghost predicate Declares(pay: Payment, c: Color) {
    if c == Loco then forall d :: d in pay ==> d == Loco
    else c in pay
  }

  // A payment that satisfies a route's price, colour and ferry floor.
  ghost predicate Pays(r: Route, hand: Hand, pay: Payment) {
    && SingleColour(hand, pay, r.length)
    && (r.IsFerry() ==> Count(pay, Loco) >= r.locos)
    && (!r.IsFerry() && r.color != Gray ==> forall c :: c in pay ==> c == Loco || c == r.color)
  }

  // The wire form admits positive counts of real card colours only.
  ghost predicate WellFormed(pay: Payment) {
    forall c :: c in pay ==> pay[c] > 0 && c != Gray
  }

  method PaymentToColors(pay: Payment) returns (ok: bool)
    ensures ok <==> WellFormed(pay)
  {
    var todo := pay.Keys;
    while todo != {}
      invariant todo <= pay.Keys
      invariant forall c :: c in pay && c !in todo ==> pay[c] > 0 && c != Gray
    {
      var c :| c in todo;
      if pay[c] <= 0 || c == Gray {
        return false;
      }
      todo := todo - {c};
    }
    return true;
  }

  // Some(declared colour) exactly for a legal single-colour payment.
  method ValidateSingleColourPayment(hand: Hand, pay: Payment, want: int) returns (declared: Option<Color>)
    ensures declared.Some? <==> SingleColour(hand, pay, want)
    ensures declared.Some? ==> Declares(pay, declared.value)
  {
    var total := 0;
    var paymentColor := Loco;
    var nonLocoSeen := false;
    var todo := pay.Keys;
    while todo != {}
      invariant todo <= pay.Keys
      invariant total == TotalOf(pay, pay.Keys - todo)
      invariant forall c :: c in pay && c !in todo ==> 0 < pay[c] <= hand[c]
      invariant if nonLocoSeen
                then paymentColor != Loco && paymentColor in pay && paymentColor !in todo &&
                     forall c :: c in pay && c !in todo && c != Loco ==> c == paymentColor
                else paymentColor == Loco && forall c :: c in pay && c !in todo ==> c == Loco
    {
      var c :| c in todo;
      var n := pay[c];
      if n <= 0 || hand[c] < n {
        return None;
      }
      total := total + n;
      OneMore(pay, pay.Keys - todo, c);
      assert pay.Keys - (todo - {c}) == (pay.Keys - todo) + {c};
      todo := todo - {c};
      if c == Loco {
        continue;
      }
      if nonLocoSeen {
        return None;
      }
      nonLocoSeen := true;
      paymentColor := c;
    }
    assert pay.Keys - todo == pay.Keys;
    return if total == want then Some(paymentColor) else None;
  }

  lemma OneMore(pay: Payment, some: set<Color>, c: Color)
    requires c !in some
    ensures TotalOf(pay, some + {c}) == TotalOf(pay, some) + Count(pay, c)
  {
    match c case _ =>
  }

  method ValidatePayment(r: Route, hand: Hand, pay: Payment) returns (declared: Option<Color>)
    ensures declared.Some? <==> Pays(r, hand, pay)
    ensures declared.Some? ==> Declares(pay, declared.value)
  {
    declared := ValidateSingleColourPayment(hand, pay, r.length);
    if declared.None? {
      return;
    }
    if r.IsFerry() {
      if Count(pay, Loco) < r.locos {
        return None;
      }
    } else if r.color != Gray && declared.value != Loco && declared.value != r.color {
      return None;
    }
  }

  // ---------------------------------------------------------------------
  // The payment options offered for a route
  // ---------------------------------------------------------------------

  // `used` cards of colour c, the rest in locomotives; zero entries are left out.
  function Mixed(c: Color, used: int, locos: int): Payment {
    (if used > 0 then map[c := used] else map[]) + (if locos > 0 then map[Loco := locos] else map[])
  }

  lemma MixedCounts(c: Color, used: int, locos: int)
    requires used >= 0 && locos >= 0 && c != Loco
    ensures Count(Mixed(c, used, locos), c) == used && Count(Mixed(c, used, locos), Loco) == locos
    ensures Total(Mixed(c, used, locos)) == used + locos
  {
    match c case _ =>
  }

  // A legal payment in at most one colour is a Mixed one.
  lemma PaysIsMixed(r: Route, hand: Hand, pay: Payment, c: Color)
    requires Pays(r, hand, pay) && c != Loco
    requires forall d :: d in pay ==> d == c || d == Loco
    ensures 0 <= Count(pay, c) <= hand[c] && 0 <= Count(pay, Loco) <= hand[Loco]
    ensures Count(pay, c) + Count(pay, Loco) == r.length
  {
    match c case _ =>
  }

  predicate IsCandidate(r: Route, c: Color) {
    if !r.IsFerry() && r.color != Gray then c == r.color else c != Gray && c != Loco
  }

  function Forced(r: Route): int { if r.IsFerry() then r.locos else 0 }

  // As many cards of the base colour as the price leaves room for.
  function UsedOf(r: Route, hand: Hand, c: Color): int {
    if hand[c] < r.length - Forced(r) then hand[c] else r.length - Forced(r)
  }

  // The cheapest payment in base colour c.
  function Best(r: Route, hand: Hand, c: Color): Payment {
    Mixed(c, UsedOf(r, hand, c), r.length - UsedOf(r, hand, c))
  }

  predicate Affordable(r: Route, hand: Hand, c: Color) {
    r.length - UsedOf(r, hand, c) <= hand[Loco]
  }

  lemma MixedPays(r: Route, hand: Hand, c: Color, used: int, locos: int)
    requires IsCandidate(r, c) && c != Loco && used + locos == r.length
    requires 0 <= used <= hand[c] && 0 <= locos <= hand[Loco]
    requires r.IsFerry() ==> locos >= r.locos
    ensures Pays(r, hand, Mixed(c, used, locos))
  {
    MixedCounts(c, used, locos);
    assert forall d :: d in Mixed(c, used, locos) ==> d == c || d == Loco;
  }

  lemma BestPays(r: Route, hand: Hand, c: Color)
    requires 0 <= r.locos <= r.length && IsCandidate(r, c) && c != Loco && Affordable(r, hand, c)
    ensures Pays(r, hand, Best(r, hand, c))
  {
    MixedPays(r, hand, c, UsedOf(r, hand, c), r.length - UsedOf(r, hand, c));
  }

  // No legal payment of the same base colour spends fewer locomotives.
  lemma BestIsFrugal(r: Route, hand: Hand, c: Color, other: Payment)
    requires 0 <= r.locos <= r.length && c != Loco && Pays(r, hand, other)
    requires forall d :: d in other ==> d == c || d == Loco
    ensures Count(Best(r, hand, c), Loco) <= Count(other, Loco) && Affordable(r, hand, c)
  {
    MixedCounts(c, UsedOf(r, hand, c), r.length - UsedOf(r, hand, c));
    PaysIsMixed(r, hand, other, c);
  }

  // Option o answers payment `pay`: it stays within the colour `pay` uses and
  // spends no more locomotives.
  ghost predicate Serves(o: Payment, pay: Payment) {
    && Count(o, Loco) <= Count(pay, Loco)
    && forall d, e :: d in pay && d != Loco && e in o ==> e == d || e == Loco
  }

  // Every legal payment is answered by the best payment of a candidate colour.
  lemma EveryPaymentHasBase(r: Route, hand: Hand, pay: Payment) returns (c: Color)
    requires 0 <= r.locos <= r.length && r.color != Loco && Pays(r, hand, pay) && WellFormed(pay)
    ensures IsCandidate(r, c) && c != Loco && Affordable(r, hand, c) && Serves(Best(r, hand, c), pay)
  {
    if exists d :: d in pay && d != Loco {
      c :| c in pay && c != Loco;
    } else {
      c := if !r.IsFerry() && r.color != Gray then r.color else Purple;
    }
    BestIsFrugal(r, hand, c, pay);
  }

  // The colours tried for a route, in order.
  function Candidates(r: Route): seq<Color> {
    if !r.IsFerry() && r.color != Gray then [r.color] else CARD_COLORS
  }

  ghost predicate Complete(r: Route, cs: seq<Color>) {
    && (forall k :: 0 <= k < |cs| ==> IsCandidate(r, cs[k]) && cs[k] != Loco)
    && (forall c :: IsCandidate(r, c) ==> c in cs)
    && (forall k, l :: 0 <= k < l < |cs| ==> cs[k] != cs[l])
  }

  lemma CandidatesComplete(r: Route)
    requires r.color != Loco
    ensures Complete(r, Candidates(r))
  {
    forall c | IsCandidate(r, c)
      ensures c in Candidates(r)
    {
      match c case _ =>
    }
  }

  ghost predicate HasColour(pay: Payment) {
    exists d :: d in pay && d != Loco
  }

  // The best payment of each affordable candidate, the all-locomotive one once.
  method TryCandidates(r: Route, hand: Hand, candidates: seq<Color>) returns (options: seq<Payment>, sawPureLoco: bool)
    requires 0 <= r.locos <= r.length && Complete(r, candidates) && Forced(r) <= hand[Loco]
    ensures Tried(r, hand, candidates, |candidates|, options, sawPureLoco)
  {
    options, sawPureLoco := [], false;
    var forced := Forced(r);
    var remaining, available := r.length - forced, hand[Loco] - forced;
    for i := 0 to |candidates|
      invariant Tried(r, hand, candidates, i, options, sawPureLoco)
    {
      var c := candidates[i];
      var used := if hand[c] < remaining then hand[c] else remaining;
      var neededLoco := remaining - used;
      if neededLoco > available {
        continue;
      }
      if used == 0 {
        if sawPureLoco {
          PureOnce(r, hand, candidates, i, options);
          continue;
        }
        sawPureLoco := true;
      }
      var payment: Payment := if used > 0 then map[c := used] else map[];
      if forced + neededLoco > 0 {
        payment := payment[Loco := forced + neededLoco];
      }
      assert payment == Best(r, hand, c);
      AddBest(r, hand, candidates, i, options, sawPureLoco && used > 0);
      options := options + [payment];
    }
  }

  // Sound, complete and minimal; no option appears twice.
  method PaymentOptions(r: Route, hand: Hand) returns (options: seq<Payment>)
    requires 0 <= r.locos <= r.length && r.color != Loco
    ensures forall o :: o in options ==> Pays(r, hand, o) && WellFormed(o)
    ensures forall pay :: Pays(r, hand, pay) && WellFormed(pay) ==> exists o :: o in options && Serves(o, pay)
    ensures forall j, k :: 0 <= j < k < |options| ==> options[j] != options[k]
  {
    if Forced(r) > hand[Loco] {
      return [];
    }
    var candidates := Candidates(r);
    CandidatesComplete(r);
    var sawPureLoco;
    options, sawPureLoco := TryCandidates(r, hand, candidates);
    AllPay(r, hand, candidates, options, sawPureLoco);
    AllServed(r, hand, candidates, options);
  }

  // After i candidates: the affordable ones among them are offered, each once.
  ghost predicate Tried(r: Route, hand: Hand, cs: seq<Color>, i: nat, options: seq<Payment>, sawPureLoco: bool)
    requires i <= |cs|
  {
    && (forall o :: o in options ==> exists k :: 0 <= k < i && o == Best(r, hand, cs[k]) && Affordable(r, hand, cs[k]))
    && (forall k :: 0 <= k < i && Affordable(r, hand, cs[k]) ==> Best(r, hand, cs[k]) in options)
    && (if sawPureLoco then Mixed(Purple, 0, r.length) in options else forall o :: o in options ==> HasColour(o))
    && (forall j, k :: 0 <= j < k < |options| ==> options[j] != options[k])
  }

  // A second all-locomotive candidate is the same payment again.
  lemma PureOnce(r: Route, hand: Hand, cs: seq<Color>, i: nat, options: seq<Payment>)
    requires i < |cs| && Tried(r, hand, cs, i, options, true)
    requires UsedOf(r, hand, cs[i]) == 0
    ensures Tried(r, hand, cs, i + 1, options, true)
  {
    assert Best(r, hand, cs[i]) == Mixed(Purple, 0, r.length);
  }

  lemma AddBest(r: Route, hand: Hand, cs: seq<Color>, i: nat, options: seq<Payment>, sawPureLoco: bool)
    requires 0 <= r.locos <= r.length && Complete(r, cs) && i < |cs|
    requires Tried(r, hand, cs, i, options, sawPureLoco) && Affordable(r, hand, cs[i])
    requires UsedOf(r, hand, cs[i]) == 0 ==> !sawPureLoco
    ensures Tried(r, hand, cs, i + 1, options + [Best(r, hand, cs[i])],
                  sawPureLoco || UsedOf(r, hand, cs[i]) == 0)
  {
    var c := cs[i];
    var best, used := Best(r, hand, c), UsedOf(r, hand, c);
    if used == 0 {
      assert best == Mixed(Purple, 0, r.length);
    } else {
      assert c in best && HasColour(best);
    }
    forall o | o in options
      ensures o != best
    {
      IsNew(r, hand, cs, i, options, sawPureLoco, o);
    }
    var more := options + [best];
    assert forall o :: o in more <==> o in options || o == best;
    assert forall j :: 0 <= j < |options| ==> options[j] in options;
  }

  lemma IsNew(r: Route, hand: Hand, cs: seq<Color>, i: nat, options: seq<Payment>, sawPureLoco: bool, o: Payment)
    requires 0 <= r.locos <= r.length && Complete(r, cs) && i < |cs|
    requires Tried(r, hand, cs, i, options, sawPureLoco) && o in options
    requires UsedOf(r, hand, cs[i]) == 0 ==> !sawPureLoco
    ensures o != Best(r, hand, cs[i])
  {
    var c := cs[i];
    if UsedOf(r, hand, c) == 0 {
      assert HasColour(o) && !HasColour(Best(r, hand, c));
    } else {
      var k :| 0 <= k < i && o == Best(r, hand, cs[k]);
      assert cs[k] != c;
      assert c in Best(r, hand, c) && c !in o;
    }
  }

  lemma AllPay(r: Route, hand: Hand, cs: seq<Color>, options: seq<Payment>, sawPureLoco: bool)
    requires 0 <= r.locos <= r.length && r.color != Loco && Complete(r, cs)
    requires Tried(r, hand, cs, |cs|, options, sawPureLoco)
    ensures forall o :: o in options ==> Pays(r, hand, o) && WellFormed(o)
  {
    forall o | o in options
      ensures Pays(r, hand, o) && WellFormed(o)
    {
      var k :| 0 <= k < |cs| && o == Best(r, hand, cs[k]) && Affordable(r, hand, cs[k]);
      BestPays(r, hand, cs[k]);
    }
  }

  lemma AllServed(r: Route, hand: Hand, cs: seq<Color>, options: seq<Payment>)
    requires 0 <= r.locos <= r.length && r.color != Loco && Complete(r, cs)
    requires forall k :: 0 <= k < |cs| && Affordable(r, hand, cs[k]) ==> Best(r, hand, cs[k]) in options
    ensures forall pay :: Pays(r, hand, pay) && WellFormed(pay) ==> exists o :: o in options && Serves(o, pay)
  {
    forall pay | Pays(r, hand, pay) && WellFormed(pay)
      ensures exists o :: o in options && Serves(o, pay)
    {
      var c := EveryPaymentHasBase(r, hand, pay);
      assert Best(r, hand, c) in options;
    }
  }
}
