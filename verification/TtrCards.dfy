// The train cards on the table: draw pile, discard pile and face-up row, and
// how they are refilled.
module TtrCards {
  import opened Wrappers
  import opened Counting
  import opened TtrBoard

  const FACE_UP_SLOTS := 5
  const LOCO_FLUSH_THRESHOLD := 3
  const MAX_FLUSHES := 25

  // `shuffles` counts the shuffles so far; each one is a new permutation.
  datatype Piles = Piles(draw: seq<Color>, discard: seq<Color>, faceUp: seq<Color>, shuffles: nat)

  type Shuffler = (nat, seq<Color>) -> seq<Color>

  // Shuffling permutes.
  ghost predicate Fair(sh: Shuffler) {
    forall n, s {:trigger sh(n, s)} :: SameCards(sh(n, s), s)
  }

  ghost predicate SameCards(a: seq<Color>, b: seq<Color>) {
    |a| == |b| && forall c :: Times(a, c) == Times(b, c)
  }

  // ---------------------------------------------------------------------
  // Drawing
  // ---------------------------------------------------------------------

  // The discard pile becomes the draw pile when that is empty.
  function Refilled(p: Piles, sh: Shuffler): Piles {
    if p.draw != [] || p.discard == [] then p
    else p.(draw := sh(p.shuffles, p.discard), discard := [], shuffles := p.shuffles + 1)
  }

  datatype Pop = Pop(card: Option<Color>, piles: Piles)

  function Popped(p: Piles, sh: Shuffler): Pop {
    var r := Refilled(p, sh);
    if r.draw == [] then Pop(None, r) else Pop(Some(r.draw[0]), r.(draw := r.draw[1..]))
  }

  // The row is topped up to five cards, as far as there are cards.
  function Filled(p: Piles, sh: Shuffler): Piles
    decreases FACE_UP_SLOTS - |p.faceUp|
  {
    if |p.faceUp| >= FACE_UP_SLOTS then p
    else
      var r := Refilled(p, sh);
      if r.draw == [] then r else Filled(r.(faceUp := r.faceUp + [r.draw[0]], draw := r.draw[1..]), sh)
  }

  function Locos(row: seq<Color>): int { Times(row, Loco) }

  // The row is discarded and dealt anew.
  function Redealt(p: Piles, sh: Shuffler): Piles {
    Filled(p.(discard := p.discard + p.faceUp, faceUp := []), sh)
  }

  // Rows with three or more locomotives are dealt anew, at most k times.
  function Flushed(p: Piles, sh: Shuffler, k: nat): Piles
    decreases k
  {
    if k == 0 || Locos(p.faceUp) < LOCO_FLUSH_THRESHOLD then p
    else
      var dealt := Redealt(p, sh);
      if |dealt.faceUp| < FACE_UP_SLOTS then dealt else Flushed(dealt, sh, k - 1)
  }

  // The slot is refilled in place, or closed up when there is no card for it.
  function SlotRefilled(p: Piles, slot: nat, sh: Shuffler): Piles
    requires slot < |p.faceUp|
  {
    var r := Refilled(p, sh);
    if r.draw != [] then r.(faceUp := r.faceUp[slot := r.draw[0]], draw := r.draw[1..])
    else r.(faceUp := r.faceUp[..slot] + r.faceUp[slot + 1..])
  }

  function TakenFaceUp(p: Piles, slot: nat, sh: Shuffler): Piles
    requires slot < |p.faceUp|
  {
    Flushed(Filled(SlotRefilled(p, slot, sh), sh), sh, MAX_FLUSHES)
  }

  // ---------------------------------------------------------------------
  // No card is lost
  // ---------------------------------------------------------------------

  function OnTable(p: Piles, c: Color): int {
    Times(p.draw, c) + Times(p.discard, c) + Times(p.faceUp, c)
  }

  function Is(a: Color, c: Color): int { if a == c then 1 else 0 }

  lemma RefilledKeeps(p: Piles, sh: Shuffler, c: Color)
    requires Fair(sh)
    ensures OnTable(Refilled(p, sh), c) == OnTable(p, c)
    ensures Refilled(p, sh).faceUp == p.faceUp
    ensures Refilled(p, sh).draw == [] ==> Refilled(p, sh).discard == []
  {
    assert SameCards(sh(p.shuffles, p.discard), p.discard);
  }

  lemma PoppedKeeps(p: Piles, sh: Shuffler, c: Color)
    requires Fair(sh)
    ensures var r := Popped(p, sh);
            && OnTable(r.piles, c) == OnTable(p, c) - (if r.card.Some? then Is(r.card.value, c) else 0)
            && r.piles.faceUp == p.faceUp
  {
    RefilledKeeps(p, sh, c);
  }

  lemma {:induction false} FilledKeeps(p: Piles, sh: Shuffler, c: Color)
    requires Fair(sh)
    ensures OnTable(Filled(p, sh), c) == OnTable(p, c)
    decreases FACE_UP_SLOTS - |p.faceUp|
  {
    if |p.faceUp| < FACE_UP_SLOTS {
      RefilledKeeps(p, sh, c);
      var r := Refilled(p, sh);
      if r.draw != [] {
        TimesConcat(r.faceUp, [r.draw[0]], c);
        FilledKeeps(r.(faceUp := r.faceUp + [r.draw[0]], draw := r.draw[1..]), sh, c);
      }
    }
  }

  lemma RedealtKeeps(p: Piles, sh: Shuffler, c: Color)
    requires Fair(sh)
    ensures OnTable(Redealt(p, sh), c) == OnTable(p, c)
  {
    TimesConcat(p.discard, p.faceUp, c);
    FilledKeeps(p.(discard := p.discard + p.faceUp, faceUp := []), sh, c);
  }

  lemma {:induction false} FlushedKeeps(p: Piles, sh: Shuffler, k: nat, c: Color)
    requires Fair(sh)
    ensures OnTable(Flushed(p, sh, k), c) == OnTable(p, c)
    decreases k
  {
    if k > 0 && Locos(p.faceUp) >= LOCO_FLUSH_THRESHOLD {
      RedealtKeeps(p, sh, c);
      if |Redealt(p, sh).faceUp| >= FACE_UP_SLOTS {
        FlushedKeeps(Redealt(p, sh), sh, k - 1, c);
      }
    }
  }

  // Taking a face-up card takes exactly that card off the table.
  lemma TakenKeeps(p: Piles, slot: nat, sh: Shuffler, c: Color)
    requires Fair(sh) && slot < |p.faceUp|
    ensures OnTable(TakenFaceUp(p, slot, sh), c) == OnTable(p, c) - Is(p.faceUp[slot], c)
  {
    RefilledKeeps(p, sh, c);
    var r := Refilled(p, sh);
    var t := SlotRefilled(p, slot, sh);
    if r.draw != [] {
      TimesUpdate(r.faceUp, slot, r.draw[0], c);
    } else {
      TimesWithout(r.faceUp, slot, c);
    }
    FilledKeeps(t, sh, c);
    FlushedKeeps(Filled(t, sh), sh, MAX_FLUSHES, c);
  }

  // ---------------------------------------------------------------------
  // The shape of the row
  // ---------------------------------------------------------------------

  predicate RowOk(p: Piles) { |p.faceUp| <= FACE_UP_SLOTS }

  lemma {:induction false} FilledRowOk(p: Piles, sh: Shuffler)
    requires RowOk(p)
    ensures RowOk(Filled(p, sh))
    decreases FACE_UP_SLOTS - |p.faceUp|
  {
    if |p.faceUp| < FACE_UP_SLOTS && Refilled(p, sh).draw != [] {
      var r := Refilled(p, sh);
      FilledRowOk(r.(faceUp := r.faceUp + [r.draw[0]], draw := r.draw[1..]), sh);
    }
  }

  lemma {:induction false} FlushedRowOk(p: Piles, sh: Shuffler, k: nat)
    requires RowOk(p)
    ensures RowOk(Flushed(p, sh, k))
    decreases k
  {
    if k > 0 && Locos(p.faceUp) >= LOCO_FLUSH_THRESHOLD {
      FilledRowOk(p.(discard := p.discard + p.faceUp, faceUp := []), sh);
      if |Redealt(p, sh).faceUp| >= FACE_UP_SLOTS {
        FlushedRowOk(Redealt(p, sh), sh, k - 1);
      }
    }
  }

  lemma TakenRowOk(p: Piles, slot: nat, sh: Shuffler)
    requires RowOk(p) && slot < |p.faceUp|
    ensures RowOk(TakenFaceUp(p, slot, sh))
  {
    FilledRowOk(SlotRefilled(p, slot, sh), sh);
    FlushedRowOk(Filled(SlotRefilled(p, slot, sh), sh), sh, MAX_FLUSHES);
  }

  // Five cards, or every card that is left.
  ghost predicate FullRow(p: Piles) {
    |p.faceUp| == FACE_UP_SLOTS || (|p.faceUp| < FACE_UP_SLOTS && p.draw == [] && p.discard == [])
  }

  lemma {:induction false} FilledRow(p: Piles, sh: Shuffler)
    requires Fair(sh) && |p.faceUp| <= FACE_UP_SLOTS
    ensures FullRow(Filled(p, sh))
    decreases FACE_UP_SLOTS - |p.faceUp|
  {
    if |p.faceUp| < FACE_UP_SLOTS {
      RefilledKeeps(p, sh, Loco);
      var r := Refilled(p, sh);
      if r.draw != [] {
        FilledRow(r.(faceUp := r.faceUp + [r.draw[0]], draw := r.draw[1..]), sh);
      }
    }
  }

  lemma {:induction false} FlushedRow(p: Piles, sh: Shuffler, k: nat)
    requires Fair(sh) && FullRow(p)
    ensures FullRow(Flushed(p, sh, k))
    decreases k
  {
    if k > 0 && Locos(p.faceUp) >= LOCO_FLUSH_THRESHOLD {
      FilledRow(p.(discard := p.discard + p.faceUp, faceUp := []), sh);
      if |Redealt(p, sh).faceUp| >= FACE_UP_SLOTS {
        FlushedRow(Redealt(p, sh), sh, k - 1);
      }
    }
  }

  // ---------------------------------------------------------------------
  // When three locomotives stay in the row
  // ---------------------------------------------------------------------

  // This row and k fresh ones, all dealt in full, have too many.
  ghost predicate Stubborn(p: Piles, sh: Shuffler, k: nat)
    decreases k
  {
    && Locos(p.faceUp) >= 3
    && (k == 0 || (|Redealt(p, sh).faceUp| >= 5 && Stubborn(Redealt(p, sh), sh, k - 1)))
  }

  // Full rows have too many until a fresh one is short of cards and has too
  // many as well.
  ghost predicate RunsShort(p: Piles, sh: Shuffler, k: nat)
    decreases k
  {
    && k > 0 && Locos(p.faceUp) >= 3
    && (if |Redealt(p, sh).faceUp| < 5 then Locos(Redealt(p, sh).faceUp) >= 3
        else RunsShort(Redealt(p, sh), sh, k - 1))
  }

  lemma {:induction false} ThreeStayIff(p: Piles, sh: Shuffler, k: nat)
    ensures Locos(Flushed(p, sh, k).faceUp) >= 3 <==> Stubborn(p, sh, k) || RunsShort(p, sh, k)
    ensures !(Stubborn(p, sh, k) && RunsShort(p, sh, k))
    decreases k
  {
    if k > 0 && Locos(p.faceUp) >= 3 && |Redealt(p, sh).faceUp| >= 5 {
      ThreeStayIff(Redealt(p, sh), sh, k - 1);
    }
  }

  // After a face-up card is taken the row is full again, or every card left is
  // in it; and three locomotives stay in it exactly when the allowed fresh rows
  // all had three, or the first short one did.
  lemma TakenRow(p: Piles, slot: nat, sh: Shuffler)
    requires Fair(sh) && RowOk(p) && slot < |p.faceUp|
    ensures FullRow(TakenFaceUp(p, slot, sh))
    ensures var t := Filled(SlotRefilled(p, slot, sh), sh);
            Locos(TakenFaceUp(p, slot, sh).faceUp) >= 3 <==> Stubborn(t, sh, 25) || RunsShort(t, sh, 25)
  {
    RefilledKeeps(p, sh, Loco);
    var t := Filled(SlotRefilled(p, slot, sh), sh);
    FilledRow(SlotRefilled(p, slot, sh), sh);
    FlushedRow(t, sh, MAX_FLUSHES);
    ThreeStayIff(t, sh, MAX_FLUSHES);
  }

  function Size(p: Piles): nat { |p.draw| + |p.discard| + |p.faceUp| }

  lemma RefilledSize(p: Piles, sh: Shuffler)
    requires Fair(sh)
    ensures Size(Refilled(p, sh)) == Size(p)
  {
    assert SameCards(sh(p.shuffles, p.discard), p.discard);
  }

  lemma {:induction false} FilledSize(p: Piles, sh: Shuffler)
    requires Fair(sh)
    ensures Size(Filled(p, sh)) == Size(p)
    decreases FACE_UP_SLOTS - |p.faceUp|
  {
    if |p.faceUp| < FACE_UP_SLOTS {
      RefilledSize(p, sh);
      var r := Refilled(p, sh);
      if r.draw != [] {
        FilledSize(r.(faceUp := r.faceUp + [r.draw[0]], draw := r.draw[1..]), sh);
      }
    }
  }

  lemma {:induction false} FlushedSize(p: Piles, sh: Shuffler, k: nat)
    requires Fair(sh)
    ensures Size(Flushed(p, sh, k)) == Size(p)
    decreases k
  {
    if k > 0 && Locos(p.faceUp) >= 3 {
      FilledSize(p.(discard := p.discard + p.faceUp, faceUp := []), sh);
      if |Redealt(p, sh).faceUp| >= 5 {
        FlushedSize(Redealt(p, sh), sh, k - 1);
      }
    }
  }

  lemma TakenSize(p: Piles, slot: nat, sh: Shuffler)
    requires Fair(sh) && slot < |p.faceUp|
    ensures Size(TakenFaceUp(p, slot, sh)) == Size(p) - 1
  {
    RefilledSize(p, sh);
    FilledSize(SlotRefilled(p, slot, sh), sh);
    FlushedSize(Filled(SlotRefilled(p, slot, sh), sh), sh, MAX_FLUSHES);
  }

  lemma {:induction false} TimesAtMost(s: seq<Color>, c: Color)
    ensures Times(s, c) <= |s|
  {
    if s != [] {
      TimesAtMost(s[1..], c);
    }
  }

  // What can be said before a card is taken, whatever the shuffles: with fewer
  // than three locomotives left on the table the row never keeps three, with at
  // least five cards left and at most two of them not locomotives it always
  // does, and with no more than five cards left they are all in it.
  lemma TakenRowForeseen(p: Piles, slot: nat, sh: Shuffler)
    requires Fair(sh) && RowOk(p) && slot < |p.faceUp|
    ensures var row := TakenFaceUp(p, slot, sh).faceUp;
            var cards, locos := Size(p) - 1, OnTable(p, Loco) - Is(p.faceUp[slot], Loco);
            && (locos < 3 ==> Locos(row) < 3)
            && (cards >= 5 && cards - locos <= 2 ==> Locos(row) >= 3)
            && (cards <= 5 ==> Locos(row) == locos)
  {
    var t := TakenFaceUp(p, slot, sh);
    TakenKeeps(p, slot, sh, Loco);
    TakenSize(p, slot, sh);
    TakenRow(p, slot, sh);
    TimesAtMost(t.draw, Loco);
    TimesAtMost(t.discard, Loco);
  }

  // It happens: whatever the shuffles, taking the red card leaves a row of
  // three locomotives, a red and a blue card that no redeal can change.
  lemma ThreeStay(sh: Shuffler)
    requires Fair(sh)
    ensures var p := Piles([Blue], [], [Red, Loco, Loco, Loco, Red], 0);
            Locos(TakenFaceUp(p, 0, sh).faceUp) == 3
  {
    var p := Piles([Blue], [], [Red, Loco, Loco, Loco, Red], 0);
    assert p.faceUp[1..] == [Loco, Loco, Loco, Red] && p.faceUp[1..][1..] == [Loco, Loco, Red] && p.faceUp[1..][1..][1..] == [Loco, Red];
    assert OnTable(p, Loco) == 3;
    TakenRowForeseen(p, 0, sh);
  }
}
