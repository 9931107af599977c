// The longest trail.
module TtrTrail {
  // The weight of the heaviest edge-distinct walk through one player's own
  // routes, by backtracking search with optional memoisation.
  import opened TtrBoard

  datatype Edge = Edge(a: City, b: City, length: int)
  {
    predicate At(v: City) { a == v || b == v }

    // The far end, as the search computes it.
    function Far(v: City): City { if v == b then a else b }
  }

  // ---------------------------------------------------------------------
  // What a trail is
  // ---------------------------------------------------------------------

  // `walk` visits one more city than it crosses edges; no edge is crossed twice.
  ghost predicate IsTrail(edges: seq<Edge>, cities: seq<City>, walk: seq<nat>) {
    && |cities| == |walk| + 1
    && (forall i :: 0 <= i < |walk| ==> walk[i] < |edges|)
    && (forall i :: 0 <= i < |walk| ==> Joins(edges, walk[i], cities[i], cities[i + 1]))
    && (forall i, j :: 0 <= i < j < |walk| ==> walk[i] != walk[j])
  }

  ghost predicate Joins(edges: seq<Edge>, e: nat, v: City, w: City) {
    && e < |edges|
    && ((edges[e].a == v && edges[e].b == w) || (edges[e].b == v && edges[e].a == w))
  }

  ghost function Weight(edges: seq<Edge>, walk: seq<nat>): int
    requires forall i :: 0 <= i < |walk| ==> walk[i] < |edges|
  {
    if walk == [] then 0 else edges[walk[0]].length + Weight(edges, walk[1..])
  }

  ghost predicate IsLongest(edges: seq<Edge>, best: int) {
    && (exists cities, walk :: IsTrail(edges, cities, walk) && Weight(edges, walk) == best)
    && (forall cities, walk :: IsTrail(edges, cities, walk) ==> Weight(edges, walk) <= best)
  }

  // ---------------------------------------------------------------------
  // The same notion relative to a search state: a start city and the edges
  // already used
  // ---------------------------------------------------------------------

  ghost predicate From(edges: seq<Edge>, v: City, used: seq<bool>, walk: seq<nat>)
    requires |used| == |edges|
    decreases |walk|
  {
    walk == [] ||
    var e := walk[0];
    && e < |edges| && !used[e] && edges[e].At(v)
    && From(edges, edges[e].Far(v), used[e := true], walk[1..])
  }

  lemma {:induction false} FromInRange(edges: seq<Edge>, v: City, used: seq<bool>, walk: seq<nat>)
    requires |used| == |edges| && From(edges, v, used, walk)
    ensures forall i :: 0 <= i < |walk| ==> walk[i] < |edges| && !used[walk[i]]
    ensures forall i, j :: 0 <= i < j < |walk| ==> walk[i] != walk[j]
    decreases |walk|
  {
    if walk != [] {
      var e, rest := walk[0], walk[1..];
      FromInRange(edges, edges[e].Far(v), used[e := true], rest);
      assert forall i :: 0 < i < |walk| ==> walk[i] == rest[i - 1];
    }
  }

  ghost function W(edges: seq<Edge>, v: City, used: seq<bool>, walk: seq<nat>): int
    requires |used| == |edges| && From(edges, v, used, walk)
  {
    FromInRange(edges, v, used, walk);
    Weight(edges, walk)
  }

  ghost predicate Attained(edges: seq<Edge>, v: City, used: seq<bool>, best: int)
    requires |used| == |edges|
  {
    exists walk :: From(edges, v, used, walk) && W(edges, v, used, walk) == best
  }

  ghost predicate IsBest(edges: seq<Edge>, v: City, used: seq<bool>, best: int)
    requires |used| == |edges|
  {
    && Attained(edges, v, used, best)
    && forall walk :: From(edges, v, used, walk) ==> W(edges, v, used, walk) <= best
  }

  // One edge in front of a walk.
  lemma {:induction false} Prepend(edges: seq<Edge>, v: City, used: seq<bool>, e: nat, walk: seq<nat>)
    requires |used| == |edges| && e < |edges| && !used[e] && edges[e].At(v)
    requires From(edges, edges[e].Far(v), used[e := true], walk)
    ensures From(edges, v, used, [e] + walk)
    ensures W(edges, v, used, [e] + walk) ==
            edges[e].length + W(edges, edges[e].Far(v), used[e := true], walk)
  {
    assert ([e] + walk)[1..] == walk;
  }

  function Unused(used: seq<bool>): nat {
    if used == [] then 0 else (if used[0] then 0 else 1) + Unused(used[1..])
  }

  lemma {:induction false} MarkingUsesUp(used: seq<bool>, e: nat)
    requires e < |used| && !used[e]
    ensures Unused(used[e := true]) == Unused(used) - 1
  {
    if e == 0 {
      assert used[0 := true][1..] == used[1..];
    } else {
      MarkingUsesUp(used[1..], e - 1);
      assert used[e := true][1..] == used[1..][e - 1 := true];
    }
  }

  // Taking edge `e` first: `rest` decides the best such walk.
  lemma {:induction false} ExtendBest(edges: seq<Edge>, v: City, u: seq<bool>, e: nat, rest: int)
    requires |u| == |edges| && e < |edges| && !u[e] && edges[e].At(v)
    requires IsBest(edges, edges[e].Far(v), u[e := true], rest)
    ensures Attained(edges, v, u, edges[e].length + rest)
    ensures forall walk :: From(edges, v, u, walk) && walk != [] && walk[0] == e ==>
              W(edges, v, u, walk) <= edges[e].length + rest
  {
    var tail :| From(edges, edges[e].Far(v), u[e := true], tail) && W(edges, edges[e].Far(v), u[e := true], tail) == rest;
    Prepend(edges, v, u, e, tail);
    forall walk | From(edges, v, u, walk) && walk != [] && walk[0] == e
      ensures W(edges, v, u, walk) <= edges[e].length + rest
    {
      assert walk == [e] + walk[1..];
      Prepend(edges, v, u, e, walk[1..]);
    }
  }

  // `best` is what a walk weighs, and none that starts with one of `firsts`
  // weighs more.
  ghost predicate BestAmong(edges: seq<Edge>, v: City, u: seq<bool>, firsts: seq<nat>, best: int)
    requires |u| == |edges|
  {
    && Attained(edges, v, u, best) && 0 <= best
    && forall walk :: From(edges, v, u, walk) && walk != [] && walk[0] in firsts ==> W(edges, v, u, walk) <= best
  }

  lemma AmongNone(edges: seq<Edge>, v: City, u: seq<bool>)
    requires |u| == |edges|
    ensures BestAmong(edges, v, u, [], 0)
  {
    assert From(edges, v, u, []) && W(edges, v, u, []) == 0;
  }

  lemma AmongUsed(edges: seq<Edge>, v: City, u: seq<bool>, firsts: seq<nat>, e: nat, best: int)
    requires |u| == |edges| && e < |edges| && BestAmong(edges, v, u, firsts, best)
    ensures u[e] ==> BestAmong(edges, v, u, firsts + [e], best)
  {
  }

  lemma AmongOneMore(edges: seq<Edge>, v: City, u: seq<bool>, firsts: seq<nat>, e: nat, best: int, rest: int)
    requires |u| == |edges| && e < |edges| && !u[e] && edges[e].At(v)
    requires BestAmong(edges, v, u, firsts, best) && IsBest(edges, edges[e].Far(v), u[e := true], rest)
    ensures var taken := edges[e].length + rest; BestAmong(edges, v, u, firsts + [e], if taken > best then taken else best)
  {
    ExtendBest(edges, v, u, e, rest);
  }

  // ---------------------------------------------------------------------
  // The plain search, without a memo
  // ---------------------------------------------------------------------

  // The best continuation that starts with one of the first k edges, or stops.
  ghost function BestOver(edges: seq<Edge>, v: City, used: seq<bool>, k: nat): int
    requires |used| == |edges| && k <= |edges|
    decreases Unused(used), k
  {
    if k == 0 then 0
    else
      var e, before := k - 1, BestOver(edges, v, used, k - 1);
      if used[e] || !edges[e].At(v) then before
      else
        MarkingUsesUp(used, e);
        var taken := edges[e].length + BestOver(edges, edges[e].Far(v), used[e := true], |edges|);
        if taken > before then taken else before
  }

  ghost function PlainSearch(edges: seq<Edge>, v: City, used: seq<bool>): int
    requires |used| == |edges|
  {
    BestOver(edges, v, used, |edges|)
  }

  lemma {:induction false} BestOverIsBest(edges: seq<Edge>, v: City, used: seq<bool>, k: nat)
    requires |used| == |edges| && k <= |edges|
    ensures 0 <= BestOver(edges, v, used, k) && Attained(edges, v, used, BestOver(edges, v, used, k))
    ensures forall walk :: From(edges, v, used, walk) && walk != [] && walk[0] < k ==> W(edges, v, used, walk) <= BestOver(edges, v, used, k)
    decreases Unused(used), k
  {
    if k == 0 {
      assert From(edges, v, used, []) && W(edges, v, used, []) == 0;
    } else {
      var e := k - 1;
      BestOverIsBest(edges, v, used, e);
      if !used[e] && edges[e].At(v) {
        MarkingUsesUp(used, e);
        var next, after := edges[e].Far(v), used[e := true];
        BestOverIsBest(edges, next, after, |edges|);
        ExtendBest(edges, v, used, e, BestOver(edges, next, after, |edges|));
      }
    }
  }

  // The plain search finds the one value that a search state has.
  lemma PlainSearchIsBest(edges: seq<Edge>, v: City, used: seq<bool>, best: int)
    requires |used| == |edges|
    ensures IsBest(edges, v, used, best) <==> best == PlainSearch(edges, v, used)
  {
    BestOverIsBest(edges, v, used, |edges|);
  }

  // ---------------------------------------------------------------------
  // Trails and search states describe the same walks
  // ---------------------------------------------------------------------

  lemma {:induction false} TrailIsWalk(edges: seq<Edge>, cities: seq<City>, walk: seq<nat>, used: seq<bool>)
    requires |used| == |edges| && IsTrail(edges, cities, walk)
    requires forall i :: 0 <= i < |walk| ==> !used[walk[i]]
    ensures From(edges, cities[0], used, walk)
    decreases |walk|
  {
    if walk != [] {
      var e, rest, tail := walk[0], walk[1..], cities[1..];
      assert Joins(edges, walk[0], cities[0], cities[1]);
      forall i | 0 <= i < |rest|
        ensures Joins(edges, rest[i], tail[i], tail[i + 1])
      {
        assert Joins(edges, walk[i + 1], cities[i + 1], cities[i + 2]);
      }
      TrailIsWalk(edges, tail, rest, used[e := true]);
      assert cities[1] == edges[e].Far(cities[0]);
    }
  }

  lemma {:induction false} WalkIsTrail(edges: seq<Edge>, v: City, used: seq<bool>, walk: seq<nat>) returns (cities: seq<City>)
    requires |used| == |edges| && From(edges, v, used, walk)
    ensures IsTrail(edges, cities, walk) && cities[0] == v
    decreases |walk|
  {
    FromInRange(edges, v, used, walk);
    if walk == [] {
      cities := [v];
    } else {
      var e, rest := walk[0], walk[1..];
      var tail := WalkIsTrail(edges, edges[e].Far(v), used[e := true], rest);
      cities := [v] + tail;
      forall i | 0 <= i < |walk|
        ensures Joins(edges, walk[i], cities[i], cities[i + 1])
      {
        if i > 0 {
          assert Joins(edges, rest[i - 1], tail[i - 1], tail[i]);
        }
      }
    }
  }

  // ---------------------------------------------------------------------
  // The memo key: used edges packed into a 64-bit word
  // ---------------------------------------------------------------------

  function Pow2(n: nat): nat {
    if n == 0 then 1 else 2 * Pow2(n - 1)
  }

  // A shift by 64 or more leaves nothing in a 64-bit word.
  function Bit(i: nat): nat {
    if i < 64 then Pow2(i) else 0
  }

  // OR-ing a bit that is not set yet adds it.
  function Key(used: seq<bool>): nat {
    if used == [] then 0
    else Key(used[..|used| - 1]) + if used[|used| - 1] then Bit(|used| - 1) else 0
  }

  lemma {:induction false} KeyBound(used: seq<bool>)
    requires |used| <= 64
    ensures Key(used) < Pow2(|used|)
  {
    if used != [] {
      KeyBound(used[..|used| - 1]);
    }
  }

  lemma {:induction false} KeyInjective(u: seq<bool>, w: seq<bool>)
    requires |u| == |w| <= 64 && Key(u) == Key(w)
    ensures u == w
  {
    if u != [] {
      var n := |u| - 1;
      KeyBound(u[..n]);
      KeyBound(w[..n]);
      assert u[n] == w[n];
      KeyInjective(u[..n], w[..n]);
      assert u == u[..n] + [u[n]] && w == w[..n] + [w[n]];
    }
  }

  lemma {:induction false} KeyOfBlank(n: nat)
    ensures Key(seq(n, _ => false)) == 0
  {
    if n > 0 {
      assert seq(n, _ => false)[..n - 1] == seq(n - 1, _ => false);
      KeyOfBlank(n - 1);
    }
  }

  // The guard on the number of edges is exact: the key identifies the used
  // set if and only if there are at most 64 edges.
  lemma KeyInjectiveIff(n: nat)
    ensures n <= 64 <==> forall u: seq<bool>, w: seq<bool> :: |u| == |w| == n && Key(u) == Key(w) ==> u == w
  {
    if n <= 64 {
      forall u: seq<bool>, w: seq<bool> | |u| == |w| == n && Key(u) == Key(w)
        ensures u == w
      {
        KeyInjective(u, w);
      }
    } else {
      var blank := seq(n, _ => false);
      var last := blank[n - 1 := true];
      assert last[..n - 1] == blank[..n - 1];
      assert |blank| == |last| == n && Key(blank) == Key(last) && blank != last;
    }
  }

  // ---------------------------------------------------------------------
  // The search
  // ---------------------------------------------------------------------

  ghost predicate AdjacencyOf(edges: seq<Edge>, adjacency: map<City, seq<nat>>) {
    && (forall v, i :: v in adjacency && 0 <= i < |adjacency[v]| ==>
          adjacency[v][i] < |edges| && edges[adjacency[v][i]].At(v))
    && (forall e :: 0 <= e < |edges| ==>
          edges[e].a in adjacency && e in adjacency[edges[e].a] &&
          edges[e].b in adjacency && e in adjacency[edges[e].b])
  }

  // Everything listed stays where it was; only v gains e, at the end.
  lemma AddAtKeeps(adjacency: map<City, seq<nat>>, v: City, e: nat)
    ensures v in AddAt(adjacency, v, e) && e in AddAt(adjacency, v, e)[v]
    ensures forall u :: u in adjacency ==> u in AddAt(adjacency, v, e) && adjacency[u] <= AddAt(adjacency, v, e)[u]
  {
    var list := AddAt(adjacency, v, e)[v];
    assert list[|list| - 1] == e;
  }

  ghost predicate ListsIncident(edges: seq<Edge>, adjacency: map<City, seq<nat>>) {
    forall v, i :: v in adjacency && 0 <= i < |adjacency[v]| ==> adjacency[v][i] < |edges| && edges[adjacency[v][i]].At(v)
  }

  lemma AddAtListsIncident(edges: seq<Edge>, adjacency: map<City, seq<nat>>, v: City, e: nat)
    requires ListsIncident(edges, adjacency) && e < |edges| && edges[e].At(v)
    ensures ListsIncident(edges, AddAt(adjacency, v, e))
  {
  }

  lemma AddedEdge(edges: seq<Edge>, adjacency: map<City, seq<nat>>, e: Edge)
    requires AdjacencyOf(edges, adjacency)
    ensures AdjacencyOf(edges + [e], AddAt(AddAt(adjacency, e.a, |edges|), e.b, |edges|))
  {
    var n, once, more := |edges|, AddAt(adjacency, e.a, |edges|), edges + [e];
    AddAtListsIncident(more, adjacency, e.a, n);
    AddAtListsIncident(more, once, e.b, n);
    AddAtKeeps(adjacency, e.a, n);
    AddAtKeeps(once, e.b, n);
  }

  method BuildTrailGraph(routeById: map<RouteId, Route>, routeIds: seq<RouteId>)
    returns (edges: seq<Edge>, adjacency: map<City, seq<nat>>)
    ensures edges == OwnEdges(routeById, routeIds)
    ensures AdjacencyOf(edges, adjacency)
  {
    edges, adjacency := [], map[];
    for i := 0 to |routeIds|
      invariant edges == OwnEdges(routeById, routeIds[..i])
      invariant AdjacencyOf(edges, adjacency)
    {
      assert routeIds[..i + 1][..i] == routeIds[..i];
      var id := routeIds[i];
      if id in routeById {
        var r := routeById[id];
        var idx := |edges|;
        AddedEdge(edges, adjacency, Edge(r.a, r.b, r.length));
        edges := edges + [Edge(r.a, r.b, r.length)];
        adjacency := AddAt(adjacency, r.a, idx);
        adjacency := AddAt(adjacency, r.b, idx);
      }
    }
    assert routeIds[..|routeIds|] == routeIds;
  }

  function AddAt(adjacency: map<City, seq<nat>>, v: City, e: nat): map<City, seq<nat>> {
    adjacency[v := (if v in adjacency then adjacency[v] else []) + [e]]
  }

  // Unknown route ids are skipped.
  function OwnEdges(routeById: map<RouteId, Route>, routeIds: seq<RouteId>): seq<Edge> {
    if routeIds == [] then []
    else
      var n := |routeIds| - 1;
      var before := OwnEdges(routeById, routeIds[..n]);
      if routeIds[n] in routeById
      then var r := routeById[routeIds[n]]; before + [Edge(r.a, r.b, r.length)]
      else before
  }

  datatype TrailState = TrailState(vertex: City, used: nat)

  class TrailDFS {
    const edges: seq<Edge>
    const adjacency: map<City, seq<nat>>
    const useMemo: bool
    var memo: map<TrailState, int>

    ghost predicate Valid()
      reads this
    {
      && AdjacencyOf(edges, adjacency)
      && (useMemo ==> |edges| <= 64)
      && (forall v: City, u: seq<bool> ::
            |u| == |edges| && TrailState(v, Key(u)) in memo ==> IsBest(edges, v, u, memo[TrailState(v, Key(u))]))
    }

    constructor (edges: seq<Edge>, adjacency: map<City, seq<nat>>)
      requires AdjacencyOf(edges, adjacency)
      ensures Valid() && this.edges == edges && fresh(this)
      ensures useMemo <==> 20 < |edges| <= 64
    {
      this.edges, this.adjacency := edges, adjacency;
      useMemo := |edges| > 20 && |edges| <= 64;
      memo := map[];
    }

    method BitsetOf(used: array<bool>) returns (bits: nat)
      ensures bits == Key(used[..])
    {
      bits := 0;
      for i := 0 to used.Length
        invariant bits == Key(used[..i])
      {
        assert used[..i + 1][..i] == used[..i];
        if used[i] {
          bits := bits + Bit(i);
        }
      }
      assert used[..used.Length] == used[..];
    }

    // The heaviest continuation from `vertex` over the unused edges, memoised
    // or not what the plain search finds. The used set is put back as it was.
    method Search(vertex: City, used: array<bool>) returns (best: int)
      requires Valid() && used.Length == |edges|
      modifies this`memo, used
      ensures Valid() && used[..] == old(used[..])
      ensures IsBest(edges, vertex, used[..], best) && best == PlainSearch(edges, vertex, used[..])
      decreases Unused(used[..])
    {
      ghost var u := used[..];
      var key := TrailState(vertex, 0);
      if useMemo {
        var bits := BitsetOf(used);
        key := TrailState(vertex, bits);
        if key in memo {
          PlainSearchIsBest(edges, vertex, u, memo[key]);
          return memo[key];
        }
      }
      best := 0;
      var incident := if vertex in adjacency then adjacency[vertex] else [];
      AmongNone(edges, vertex, u);
      for i := 0 to |incident|
        invariant Valid() && used[..] == u
        invariant BestAmong(edges, vertex, u, incident[..i], best)
      {
        var e := incident[i];
        assert incident[..i + 1] == incident[..i] + [e];
        AmongUsed(edges, vertex, u, incident[..i], e, best);
        if !used[e] {
          var next := edges[e].Far(vertex);
          MarkingUsesUp(u, e);
          used[e] := true;
          assert used[..] == u[e := true];
          var rest := Search(next, used);
          used[e] := false;
          assert used[..] == u;
          AmongOneMore(edges, vertex, u, incident[..i], e, best, rest);
          if edges[e].length + rest > best {
            best := edges[e].length + rest;
          }
        }
      }
      CoversAll(vertex, u, incident, best);
      PlainSearchIsBest(edges, vertex, u, best);
      if useMemo {
        Remember(vertex, u, best);
        memo := memo[key := best];
      }
    }

    lemma CoversAll(v: City, u: seq<bool>, incident: seq<nat>, best: int)
      requires AdjacencyOf(edges, adjacency) && |u| == |edges|
      requires incident == if v in adjacency then adjacency[v] else []
      requires BestAmong(edges, v, u, incident[..|incident|], best)
      ensures IsBest(edges, v, u, best)
    {
      assert incident[..|incident|] == incident;
      forall walk | From(edges, v, u, walk)
        ensures W(edges, v, u, walk) <= best
      {
        if walk != [] {
          assert edges[walk[0]].At(v);
        }
      }
    }

    lemma {:induction false} Remember(v: City, u: seq<bool>, best: int)
      requires Valid() && useMemo && |u| == |edges| && IsBest(edges, v, u, best)
      ensures forall u': seq<bool> :: |u'| == |edges| && Key(u') == Key(u) ==> IsBest(edges, v, u', best)
    {
      forall u': seq<bool> | |u'| == |edges| && Key(u') == Key(u)
        ensures IsBest(edges, v, u', best)
      {
        KeyInjective(u', u);
      }
    }
  }

  // `best` is the weight of some trail, and no search from a city already
  // tried does better.
  ghost predicate Covers(edges: seq<Edge>, blank: seq<bool>, tried: set<City>, best: int) {
    && |blank| == |edges| && 0 <= best
    && (exists cities, walk :: IsTrail(edges, cities, walk) && Weight(edges, walk) == best)
    && (forall v, walk :: v in tried && From(edges, v, blank, walk) ==> W(edges, v, blank, walk) <= best)
  }

  lemma CoverOneMore(edges: seq<Edge>, blank: seq<bool>, tried: set<City>, best: int, v: City, r: int)
    requires Covers(edges, blank, tried, best) && IsBest(edges, v, blank, r)
    ensures Covers(edges, blank, tried + {v}, if r > best then r else best)
  {
    if r > best {
      var walk :| From(edges, v, blank, walk) && W(edges, v, blank, walk) == r;
      var cities := WalkIsTrail(edges, v, blank, walk);
    }
  }

  lemma AllCovered(edges: seq<Edge>, blank: seq<bool>, tried: set<City>, best: int)
    requires Covers(edges, blank, tried, best)
    requires forall i :: 0 <= i < |blank| ==> !blank[i]
    requires forall k :: 0 <= k < |edges| ==> edges[k].a in tried && edges[k].b in tried
    ensures IsLongest(edges, best)
  {
    forall cities, walk | IsTrail(edges, cities, walk)
      ensures Weight(edges, walk) <= best
    {
      TrailIsWalk(edges, cities, walk, blank);
      if walk != [] {
        assert Joins(edges, walk[0], cities[0], cities[1]);
        assert W(edges, cities[0], blank, walk) <= best;
      }
    }
  }

  // The longest trail through the routes a player has claimed.
  method LongestTrail(routeById: map<RouteId, Route>, routeIds: seq<RouteId>) returns (best: int)
    ensures IsLongest(OwnEdges(routeById, routeIds), best)
  {
    var edges, adjacency := BuildTrailGraph(routeById, routeIds);
    assert IsTrail(edges, [City("")], []) && Weight(edges, []) == 0;
    if |edges| == 0 {
      AllCovered(edges, [], {}, 0);
      return 0;
    }
    var dfs := new TrailDFS(edges, adjacency);
    best := 0;
    var seen: set<City> := {};
    var used := new bool[|edges|](_ => false);
    ghost var blank := used[..];
    for i := 0 to |edges|
      invariant dfs.Valid() && dfs.edges == edges && used[..] == blank && fresh(used) && fresh(dfs)
      invariant Covers(edges, blank, seen, best)
      invariant forall k :: 0 <= k < i ==> edges[k].a in seen && edges[k].b in seen
    {
      var ends := [edges[i].a, edges[i].b];
      for j := 0 to 2
        invariant dfs.Valid() && dfs.edges == edges && used[..] == blank && fresh(used) && fresh(dfs)
        invariant Covers(edges, blank, seen, best)
        invariant forall k :: 0 <= k < i ==> edges[k].a in seen && edges[k].b in seen
        invariant forall k :: 0 <= k < j ==> ends[k] in seen
      {
        var v := ends[j];
        if v !in seen {
          var r := dfs.Search(v, used);
          CoverOneMore(edges, blank, seen, best, v, r);
          seen := seen + {v};
          if r > best {
            best := r;
          }
        }
      }
      assert ends[0] in seen && ends[1] in seen;
    }
    AllCovered(edges, blank, seen, best);
  }
}
