// The final standings, with their ties.
module TtrRanking {

  datatype Rankable = Rankable(idx: nat, total: int, completed: nat, builtStations: nat, hasLongest: bool)

  predicate RankLess(a: Rankable, b: Rankable) {
    if a.total != b.total then a.total > b.total
    else if a.completed != b.completed then a.completed > b.completed
    else if a.builtStations != b.builtStations then a.builtStations < b.builtStations
    else a.hasLongest && !b.hasLongest
  }

  predicate RankTie(a: Rankable, b: Rankable) {
    a.total == b.total && a.completed == b.completed && a.builtStations == b.builtStations && a.hasLongest == b.hasLongest
  }

  // How many entries are strictly ahead of an entry.
  function Ahead(entries: seq<Rankable>, x: Rankable): (n: nat)
    ensures n <= |entries|
  {
    if entries == [] then 0
    else Ahead(entries[..|entries| - 1], x) + if RankLess(entries[|entries| - 1], x) then 1 else 0
  }

  // ---------------------------------------------------------------------
  // The library's stable sort
  // ---------------------------------------------------------------------

  // An entry goes in front of those that are not ahead of it.
  function Insert(x: Rankable, s: seq<Rankable>): seq<Rankable> {
    if s == [] || !RankLess(s[0], x) then [x] + s else [s[0]] + Insert(x, s[1..])
  }

  function Sort(s: seq<Rankable>): seq<Rankable> {
    if s == [] then [] else Insert(s[0], Sort(s[1..]))
  }

  ghost predicate InRankOrder(s: seq<Rankable>) {
    forall i, j :: 0 <= i < j < |s| ==> !RankLess(s[j], s[i])
  }

  lemma {:induction false} AheadConcat(a: seq<Rankable>, b: seq<Rankable>, x: Rankable)
    ensures Ahead(a + b, x) == Ahead(a, x) + Ahead(b, x)
  {
    if b == [] {
      assert a + b == a;
    } else {
      AheadConcat(a, b[..|b| - 1], x);
      assert (a + b)[..|a + b| - 1] == a + b[..|b| - 1];
    }
  }

  lemma {:induction false} InsertKeeps(x: Rankable, s: seq<Rankable>, y: Rankable)
    ensures |Insert(x, s)| == |s| + 1
    ensures y in Insert(x, s) <==> y == x || y in s
    ensures Ahead(Insert(x, s), y) == Ahead(s, y) + if RankLess(x, y) then 1 else 0
  {
    if s == [] || !RankLess(s[0], x) {
      AheadConcat([x], s, y);
    } else {
      InsertKeeps(x, s[1..], y);
      AheadConcat([s[0]], Insert(x, s[1..]), y);
      AheadConcat([s[0]], s[1..], y);
      assert s == [s[0]] + s[1..];
    }
  }

  lemma {:induction false} InsertInOrder(x: Rankable, s: seq<Rankable>)
    requires InRankOrder(s)
    ensures InRankOrder(Insert(x, s))
  {
    if s == [] || !RankLess(s[0], x) {
    } else {
      var rest := Insert(x, s[1..]);
      InsertInOrder(x, s[1..]);
      forall j | 0 <= j < |rest|
        ensures !RankLess(rest[j], s[0])
      {
        InsertKeeps(x, s[1..], rest[j]);
        assert rest[j] in rest;
      }
    }
  }

  lemma {:induction false} SortKeeps(s: seq<Rankable>, y: Rankable)
    ensures |Sort(s)| == |s| && InRankOrder(Sort(s))
    ensures y in Sort(s) <==> y in s
    ensures Ahead(Sort(s), y) == Ahead(s, y)
  {
    if s != [] {
      SortKeeps(s[1..], y);
      InsertInOrder(s[0], Sort(s[1..]));
      InsertKeeps(s[0], Sort(s[1..]), y);
      AheadConcat([s[0]], s[1..], y);
      assert s == [s[0]] + s[1..];
    }
  }

  // ---------------------------------------------------------------------
  // Ranks
  // ---------------------------------------------------------------------

  lemma {:induction false} TiedAhead(s: seq<Rankable>, x: Rankable, y: Rankable)
    requires RankTie(x, y)
    ensures Ahead(s, x) == Ahead(s, y)
  {
    if s != [] {
      TiedAhead(s[..|s| - 1], x, y);
    }
  }

  lemma {:induction false} AllAhead(s: seq<Rankable>, x: Rankable)
    requires forall k :: 0 <= k < |s| ==> RankLess(s[k], x)
    ensures Ahead(s, x) == |s|
  {
    if s != [] {
      AllAhead(s[..|s| - 1], x);
    }
  }

  lemma {:induction false} NoneAhead(s: seq<Rankable>, x: Rankable)
    ensures Ahead(s, x) == 0 <==> forall k :: 0 <= k < |s| ==> !RankLess(s[k], x)
  {
    if s != [] {
      NoneAhead(s[..|s| - 1], x);
      assert forall k :: 0 <= k < |s| - 1 ==> s[..|s| - 1][k] == s[k];
    }
  }

  lemma EarlierIsAhead(s: seq<Rankable>, i: nat, k: nat)
    requires InRankOrder(s) && k < i < |s| && !RankTie(s[i - 1], s[i])
    ensures RankLess(s[k], s[i])
  {
    var a, b, c := s[k], s[i - 1], s[i];
    assert !RankLess(c, b) && (k < i - 1 ==> !RankLess(b, a));
  }

  lemma {:induction false} EarlierAhead(s: seq<Rankable>, before: seq<Rankable>, i: nat)
    requires InRankOrder(s) && 0 < i < |s| && !RankTie(s[i - 1], s[i]) && before == s[..i]
    ensures Ahead(before, s[i]) == i
  {
    forall k | 0 <= k < i
      ensures RankLess(before[k], s[i])
    {
      EarlierIsAhead(s, i, k);
    }
    AllAhead(before, s[i]);
  }

  lemma {:induction false} LaterNotAhead(s: seq<Rankable>, after: seq<Rankable>, i: nat)
    requires InRankOrder(s) && i < |s| && after == s[i..]
    ensures Ahead(after, s[i]) == 0
  {
    forall k | 0 <= k < |after|
      ensures !RankLess(after[k], s[i])
    {
      assert after[k] == s[i + k];
    }
    NoneAhead(after, s[i]);
  }

  // In sorted order an entry that does not tie with the one before it has
  // everything before it ahead, and nothing else.
  lemma {:induction false} PositionIsRank(s: seq<Rankable>, i: nat)
    requires InRankOrder(s) && i < |s| && (i > 0 ==> !RankTie(s[i - 1], s[i]))
    ensures Ahead(s, s[i]) == i
  {
    if i > 0 {
      EarlierAhead(s, s[..i], i);
    }
    LaterNotAhead(s, s[i..], i);
    AheadConcat(s[..i], s[i..], s[i]);
    assert s == s[..i] + s[i..];
  }

  // Whoever is ahead has the better rank, and exactly the ties share one.
  lemma {:induction false} RanksFollowOrder(s: seq<Rankable>, x: Rankable, y: Rankable)
    requires x in s && y in s
    ensures RankLess(x, y) <==> Ahead(s, x) < Ahead(s, y)
    ensures RankTie(x, y) <==> Ahead(s, x) == Ahead(s, y)
  {
    if RankTie(x, y) {
      TiedAhead(s, x, y);
    } else if RankLess(x, y) {
      AheadGrows(s, x, y);
    } else {
      AheadGrows(s, y, x);
    }
  }

  lemma {:induction false} AheadGrows(s: seq<Rankable>, x: Rankable, y: Rankable)
    requires RankLess(x, y)
    ensures Ahead(s, x) + (if x in s then 1 else 0) <= Ahead(s, y)
  {
    if s != [] {
      var n := |s| - 1;
      AheadGrows(s[..n], x, y);
      assert s == s[..n] + [s[n]];
    }
  }

  // Somebody is first.
  lemma SomebodyFirst(s: seq<Rankable>) returns (x: Rankable)
    requires s != []
    ensures x in s && Ahead(s, x) == 0
  {
    var sorted := Sort(s);
    SortKeeps(s, s[0]);
    x := sorted[0];
    SortKeeps(s, x);
    assert x in sorted;
    NoneAhead(sorted, x);
  }

  // ---------------------------------------------------------------------
  // Writing ranks into the results
  // ---------------------------------------------------------------------

  ghost predicate DistinctPlaces(s: seq<Rankable>) {
    forall i, j :: 0 <= i < j < |s| ==> s[i].idx != s[j].idx
  }

  lemma {:induction false} InsertDistinct(x: Rankable, s: seq<Rankable>)
    requires DistinctPlaces(s) && forall y :: y in s ==> y.idx != x.idx
    ensures DistinctPlaces(Insert(x, s))
  {
    if s == [] || !RankLess(s[0], x) {
    } else {
      InsertDistinct(x, s[1..]);
      var rest := Insert(x, s[1..]);
      forall j | 0 <= j < |rest|
        ensures rest[j].idx != s[0].idx
      {
        InsertKeeps(x, s[1..], rest[j]);
        assert rest[j] in rest;
      }
    }
  }

  lemma {:induction false} SortDistinct(s: seq<Rankable>)
    requires DistinctPlaces(s)
    ensures DistinctPlaces(Sort(s))
  {
    if s != [] {
      SortDistinct(s[1..]);
      forall y | y in Sort(s[1..])
        ensures y.idx != s[0].idx
      {
        SortKeeps(s[1..], y);
      }
      InsertDistinct(s[0], Sort(s[1..]));
    }
  }

  // How many of some entries nobody of the field is ahead of.
  function Firsts(s: seq<Rankable>, field: seq<Rankable>): (n: nat)
    ensures n <= |s|
  {
    if s == [] then 0
    else Firsts(s[1..], field) + if Ahead(field, s[0]) == 0 then 1 else 0
  }

  lemma {:induction false} FirstsConcat(a: seq<Rankable>, b: seq<Rankable>, field: seq<Rankable>)
    ensures Firsts(a + b, field) == Firsts(a, field) + Firsts(b, field)
  {
    if a == [] {
      assert a + b == b;
    } else {
      FirstsConcat(a[1..], b, field);
      assert (a + b)[1..] == a[1..] + b;
    }
  }

  lemma {:induction false} InsertFirsts(x: Rankable, s: seq<Rankable>, field: seq<Rankable>)
    ensures Firsts(Insert(x, s), field) == Firsts(s, field) + if Ahead(field, x) == 0 then 1 else 0
  {
    if s == [] || !RankLess(s[0], x) {
      assert ([x] + s)[1..] == s;
    } else {
      InsertFirsts(x, s[1..], field);
      assert ([s[0]] + Insert(x, s[1..]))[1..] == Insert(x, s[1..]);
    }
  }

  lemma {:induction false} SortFirsts(s: seq<Rankable>, field: seq<Rankable>)
    ensures Firsts(Sort(s), Sort(field)) == Firsts(s, field)
  {
    if s != [] {
      SortFirsts(s[1..], field);
      SortKeeps(field, s[0]);
      InsertFirsts(s[0], Sort(s[1..]), Sort(field));
    }
  }

  // First, and not alone.
  predicate SharesFirst(s: seq<Rankable>, x: Rankable) {
    Ahead(s, x) == 0 && Firsts(s, s) > 1
  }
}
