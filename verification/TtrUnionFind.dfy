// A disjoint-set forest.
module TtrUnionFind {
  // With path compression, and what it decides: whether two cities are joined by
  // a path over the links added so far.
  import opened TtrBoard

  type Links = set<(City, City)>

  ghost predicate Linked(links: Links, x: City, y: City) {
    (x, y) in links || (y, x) in links
  }

  ghost predicate IsPath(links: Links, path: seq<City>) {
    && |path| > 0
    && forall i :: 0 <= i < |path| - 1 ==> Linked(links, path[i], path[i + 1])
  }

  ghost predicate Joined(links: Links, x: City, y: City) {
    exists path :: IsPath(links, path) && path[0] == x && path[|path| - 1] == y
  }

  lemma JoinedRefl(links: Links, x: City)
    ensures Joined(links, x, x)
  {
    assert IsPath(links, [x]);
  }

  lemma JoinedLink(links: Links, x: City, y: City)
    requires Linked(links, x, y)
    ensures Joined(links, x, y)
  {
    assert IsPath(links, [x, y]);
  }

  lemma JoinedTrans(links: Links, x: City, y: City, z: City)
    requires Joined(links, x, y) && Joined(links, y, z)
    ensures Joined(links, x, z)
  {
    var p :| IsPath(links, p) && p[0] == x && p[|p| - 1] == y;
    var q :| IsPath(links, q) && q[0] == y && q[|q| - 1] == z;
    var r := p + q[1..];
    forall i | 0 <= i < |r| - 1
      ensures Linked(links, r[i], r[i + 1])
    {
      if i < |p| - 1 {
        assert r[i] == p[i] && r[i + 1] == p[i + 1];
      } else {
        assert r[i] == q[i - |p| + 1] && r[i + 1] == q[i - |p| + 2];
      }
    }
    assert IsPath(links, r);
  }

  lemma JoinedSym(links: Links, x: City, y: City)
    requires Joined(links, x, y)
    ensures Joined(links, y, x)
  {
    var p :| IsPath(links, p) && p[0] == x && p[|p| - 1] == y;
    var r := seq(|p|, i requires 0 <= i < |p| => p[|p| - 1 - i]);
    forall i | 0 <= i < |r| - 1
      ensures Linked(links, r[i], r[i + 1])
    {
      assert Linked(links, p[|p| - 2 - i], p[|p| - 1 - i]);
    }
    assert IsPath(links, r);
  }

  lemma JoinedMono(links: Links, more: Links, x: City, y: City)
    requires Joined(links, x, y) && links <= more
    ensures Joined(more, x, y)
  {
    var p :| IsPath(links, p) && p[0] == x && p[|p| - 1] == y;
    forall i | 0 <= i < |p| - 1
      ensures Linked(more, p[i], p[i + 1])
    {
      assert Linked(links, p[i], p[i + 1]);
    }
    assert IsPath(more, p);
  }

  // A city without an entry stands for itself, at rank 0.
  ghost function Rep(rep: map<City, City>, x: City): City {
    if x in rep then rep[x] else x
  }

  ghost function RankOf(rank: map<City, nat>, x: City): nat {
    if x in rank then rank[x] else 0
  }

  // Equal representatives mean joined by a path, and nothing else does.
  ghost predicate Decides(links: Links, rep: map<City, City>) {
    forall x, y {:trigger Joined(links, x, y)} :: Joined(links, x, y) <==> Rep(rep, x) == Rep(rep, y)
  }

  lemma {:induction false} PathKeepsRep(links: Links, rep: map<City, City>, path: seq<City>)
    requires IsPath(links, path)
    requires forall x, y :: Linked(links, x, y) ==> Rep(rep, x) == Rep(rep, y)
    ensures Rep(rep, path[0]) == Rep(rep, path[|path| - 1])
    decreases |path|
  {
    if |path| > 1 {
      assert Linked(links, path[0], path[1]);
      forall i | 0 <= i < |path[1..]| - 1
        ensures Linked(links, path[1..][i], path[1..][i + 1])
      {
        assert Linked(links, path[i + 1], path[i + 2]);
      }
      PathKeepsRep(links, rep, path[1..]);
    }
  }

  // Merging two classes is exactly adding one link.
  lemma MergeDecides(links: Links, rep: map<City, City>, a: City, b: City, rep': map<City, City>)
    requires Decides(links, rep)
    requires forall z :: Rep(rep', z) == if Rep(rep, z) == Rep(rep, a) then Rep(rep, b) else Rep(rep, z)
    ensures Decides(links + {(a, b)}, rep')
  {
    var more := links + {(a, b)};
    forall x, y
      ensures Joined(more, x, y) <==> Rep(rep', x) == Rep(rep', y)
    {
      if Joined(more, x, y) {
        var p :| IsPath(more, p) && p[0] == x && p[|p| - 1] == y;
        forall u, v | Linked(more, u, v)
          ensures Rep(rep', u) == Rep(rep', v)
        {
          if Linked(links, u, v) {
            JoinedLink(links, u, v);
          }
        }
        PathKeepsRep(more, rep', p);
      }
      if Rep(rep', x) == Rep(rep', y) {
        if Rep(rep, x) == Rep(rep, y) {
          JoinedMono(links, more, x, y);
        } else if Rep(rep, x) == Rep(rep, a) {
          Through(links, a, b, x, y);
        } else {
          Through(links, a, b, y, x);
          JoinedSym(more, y, x);
        }
      }
    }
  }

  lemma Through(links: Links, a: City, b: City, x: City, y: City)
    requires Joined(links, x, a) && Joined(links, b, y)
    ensures Joined(links + {(a, b)}, x, y)
  {
    var more := links + {(a, b)};
    JoinedMono(links, more, x, a);
    JoinedLink(more, a, b);
    JoinedTrans(more, x, a, b);
    JoinedMono(links, more, b, y);
    JoinedTrans(more, x, b, y);
  }

  lemma NoLinksDecide()
    ensures Decides({}, map[])
  {
    forall x, y
      ensures Joined({}, x, y) <==> x == y
    {
      if x == y {
        JoinedRefl({}, x);
      }
      if Joined({}, x, y) {
        var p :| IsPath({}, p) && p[0] == x && p[|p| - 1] == y;
        if |p| > 1 {
          assert Linked({}, p[0], p[1]);
        }
      }
    }
  }

  // The local shape of a forest at city x: parents lead, with growing rank,
  // to the representative; a city never seen stands for itself.
  ghost predicate Node(parent: map<City, City>, rep: map<City, City>, rank: map<City, nat>, bound: nat, x: City) {
    && RankOf(rank, x) <= bound
    && if x in parent then
         && parent[x] in parent && Rep(rep, x) in parent
         && parent[Rep(rep, x)] == Rep(rep, x) && Rep(rep, parent[x]) == Rep(rep, x)
         && if parent[x] == x then Rep(rep, x) == x else RankOf(rank, x) < RankOf(rank, parent[x])
       else Rep(rep, x) == x
  }

  ghost predicate IsForest(parent: map<City, City>, rep: map<City, City>, rank: map<City, nat>, bound: nat) {
    forall x {:trigger Node(parent, rep, rank, bound, x)} :: Node(parent, rep, rank, bound, x)
  }

  lemma AddRoot(parent: map<City, City>, rep: map<City, City>, rank: map<City, nat>, bound: nat, x: City)
    requires IsForest(parent, rep, rank, bound) && x !in parent
    ensures IsForest(parent[x := x], rep, rank, bound)
  {
    assert Node(parent, rep, rank, bound, x);
    forall z {:trigger Node(parent[x := x], rep, rank, bound, z)}
      ensures Node(parent[x := x], rep, rank, bound, z)
    {
      assert Node(parent, rep, rank, bound, z);
    }
  }

  lemma Compress(parent: map<City, City>, rep: map<City, City>, rank: map<City, nat>, bound: nat, x: City)
    requires IsForest(parent, rep, rank, bound) && x in parent && RankOf(rank, x) < RankOf(rank, Rep(rep, x))
    ensures IsForest(parent[x := Rep(rep, x)], rep, rank, bound)
  {
    assert Node(parent, rep, rank, bound, x);
    assert Node(parent, rep, rank, bound, Rep(rep, x));
    forall z {:trigger Node(parent[x := Rep(rep, x)], rep, rank, bound, z)}
      ensures Node(parent[x := Rep(rep, x)], rep, rank, bound, z)
    {
      assert Node(parent, rep, rank, bound, z);
    }
  }

  ghost function Redirect(rep: map<City, City>, ra: City, rb: City): map<City, City> {
    (map z | z in rep :: if rep[z] == ra then rb else rep[z])[ra := rb]
  }

  ghost function Raise(rank: map<City, nat>, ra: City, rb: City): map<City, nat> {
    rank[rb := if RankOf(rank, rb) <= RankOf(rank, ra) then RankOf(rank, ra) + 1 else RankOf(rank, rb)]
  }

  lemma RedirectMerges(links: Links, rep: map<City, City>, a: City, b: City)
    requires Decides(links, rep)
    requires Rep(rep, Rep(rep, a)) == Rep(rep, a) != Rep(rep, b)
    ensures Decides(links + {(a, b)}, Redirect(rep, Rep(rep, a), Rep(rep, b)))
  {
    MergeDecides(links, rep, a, b, Redirect(rep, Rep(rep, a), Rep(rep, b)));
  }

  // Hanging root ra below root rb.
  lemma Hang(parent: map<City, City>, rep: map<City, City>, rank: map<City, nat>, bound: nat, ra: City, rb: City)
    requires IsForest(parent, rep, rank, bound) && ra in parent && rb in parent && ra != rb
    requires parent[ra] == ra && parent[rb] == rb
    ensures IsForest(parent[ra := rb], Redirect(rep, ra, rb), Raise(rank, ra, rb), bound + 1)
  {
    assert Node(parent, rep, rank, bound, ra);
    assert Node(parent, rep, rank, bound, rb);
    forall z {:trigger Node(parent[ra := rb], Redirect(rep, ra, rb), Raise(rank, ra, rb), bound + 1, z)}
      ensures Node(parent[ra := rb], Redirect(rep, ra, rb), Raise(rank, ra, rb), bound + 1, z)
    {
      assert Node(parent, rep, rank, bound, z);
      if z in parent {
        assert Node(parent, rep, rank, bound, parent[z]);
      }
    }
  }

  class UnionFind {
    var parent: map<City, City>
    ghost var links: Links
    ghost var rep: map<City, City>
    ghost var rank: map<City, nat>
    ghost var bound: nat

    ghost predicate Forest()
      reads this
    {
      IsForest(parent, rep, rank, bound)
    }

    ghost predicate Valid()
      reads this
    {
      Forest() && Decides(links, rep)
    }

    constructor ()
      ensures Valid() && links == {} && fresh(this)
    {
      parent, links, rep, rank, bound := map[], {}, map[], map[], 0;
      new;
      NoLinksDecide();
    }

    // Finding a representative compresses the path but changes no class.
    method Find(x: City) returns (r: City)
      requires Forest()
      modifies `parent
      ensures Forest()
      ensures x in parent && r == Rep(rep, x) && r in parent && parent[r] == r
      ensures r == x || RankOf(rank, x) < RankOf(rank, r)
      ensures old(parent).Keys <= parent.Keys
      ensures forall z :: z in old(parent) && old(parent)[z] == z ==> parent[z] == z
      decreases if x in parent then 1 + bound - RankOf(rank, x) else 0
    {
      assert Node(parent, rep, rank, bound, x);
      if x !in parent {
        AddRoot(parent, rep, rank, bound, x);
        parent := parent[x := x];
        return x;
      }
      if parent[x] != x {
        assert Node(parent, rep, rank, bound, parent[x]);
        ghost var p := parent[x];
        var up := Find(parent[x]);
        Compress(parent, rep, rank, bound, x);
        parent := parent[x := up];
      }
      assert Node(parent, rep, rank, bound, x);
      return parent[x];
    }

    method Union(a: City, b: City)
      requires Valid()
      modifies this
      ensures Valid() && links == old(links) + {(a, b)}
    {
      var ra := Find(a);
      var rb := Find(b);
      if ra != rb {
        assert Node(parent, rep, rank, bound, ra);
        RedirectMerges(links, rep, a, b);
        Hang(parent, rep, rank, bound, ra, rb);
        parent := parent[ra := rb];
        rank, bound, rep := Raise(rank, ra, rb), bound + 1, Redirect(rep, ra, rb);
      } else {
        MergeDecides(links, rep, a, b, rep);
      }
      links := links + {(a, b)};
    }

    method Connected(a: City, b: City) returns (joined: bool)
      requires Valid()
      modifies this
      ensures Valid() && links == old(links)
      ensures joined <==> Joined(links, a, b)
    {
      var ra := Find(a);
      var rb := Find(b);
      joined := ra == rb;
    }
  }
}
