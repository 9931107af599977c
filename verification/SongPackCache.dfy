// The cache of parsed song packs.
module SongPackCache {
  // A map for lookup and a recency list for eviction, over a loader of immutable
  // documents.
  import opened Wrappers

  datatype Key = Key(packId: string, version: int)
  datatype Doc = Doc(bytes: seq<int>)
  datatype Pack = Pack(source: Doc)
  datatype Error = LoadFailed | ParseFailed

  // ---------------------------------------------------------------------
  // Recency, without a cache
  // ---------------------------------------------------------------------

  function Without<T(==)>(s: seq<T>, x: T): (r: seq<T>)
    ensures forall y :: y in s && y != x ==> y in r
    ensures forall y :: y in r ==> y in s && y != x
    ensures |r| <= |s|
  {
    if s == [] then []
    else if s[0] == x then Without(s[1..], x)
    else [s[0]] + Without(s[1..], x)
  }

  ghost predicate Distinct<T>(s: seq<T>) {
    forall i, j :: 0 <= i < j < |s| ==> s[i] != s[j]
  }

  function Take<T>(s: seq<T>, n: nat): seq<T> {
    if |s| <= n then s else s[..n]
  }

  // The distinct keys of a request history, the latest request first.
  function Recent(history: seq<Key>): seq<Key> {
    if history == [] then []
    else
      var n := |history| - 1;
      [history[n]] + Without(Recent(history[..n]), history[n])
  }

  // Using a key moves it to the front; what falls off the end is evicted.
  function Touch(recency: seq<Key>, key: Key, capacity: nat): seq<Key> {
    Take([key] + Without(recency, key), capacity)
  }

  function TouchAll(recency: seq<Key>, keys: seq<Key>, capacity: nat): seq<Key> {
    if keys == [] then recency
    else Touch(TouchAll(recency, keys[..|keys| - 1], capacity), keys[|keys| - 1], capacity)
  }

  // The position of the latest request for a key, -1 when there is none.
  ghost function LastUse(history: seq<Key>, key: Key): (at: int)
    ensures -1 <= at < |history|
    ensures at >= 0 ==> history[at] == key
    ensures forall i :: at < i < |history| ==> history[i] != key
  {
    if history == [] then -1
    else
      var n := |history| - 1;
      if history[n] == key then n else LastUse(history[..n], key)
  }

  // Two survivors stood in the same order before.
  lemma {:induction false} WithoutOrder<T>(s: seq<T>, x: T, i: nat, j: nat) returns (k: nat, l: nat)
    requires i < j < |Without(s, x)|
    ensures k < l < |s| && s[k] == Without(s, x)[i] && s[l] == Without(s, x)[j]
  {
    var rest := Without(s[1..], x);
    if s[0] == x || i > 0 {
      var d := if s[0] == x then 0 else 1;
      k, l := WithoutOrder(s[1..], x, i - d, j - d);
      k, l := k + 1, l + 1;
    } else {
      assert rest[j - 1] in rest;
      l :| 0 <= l < |s[1..]| && s[1..][l] == rest[j - 1];
      k, l := 0, l + 1;
    }
  }

  lemma {:induction false} WithoutDistinct<T>(s: seq<T>, x: T)
    requires Distinct(s)
    ensures Distinct(Without(s, x))
  {
    forall i, j | 0 <= i < j < |Without(s, x)|
      ensures Without(s, x)[i] != Without(s, x)[j]
    {
      var k, l := WithoutOrder(s, x, i, j);
    }
  }

  lemma {:induction false} ToFrontDistinct<T>(s: seq<T>, x: T)
    requires Distinct(s)
    ensures Distinct([x] + Without(s, x))
  {
    WithoutDistinct(s, x);
    var r := [x] + Without(s, x);
    forall j | 0 < j < |r|
      ensures r[j] != x
    {
      assert r[j] == Without(s, x)[j - 1] && Without(s, x)[j - 1] in Without(s, x);
    }
  }

  // `Recent` lists every requested key once, by latest use.
  lemma {:induction false} RecentKeys(history: seq<Key>)
    ensures Distinct(Recent(history))
    ensures forall key :: key in Recent(history) <==> key in history
  {
    if history != [] {
      var n := |history| - 1;
      RecentKeys(history[..n]);
      ToFrontDistinct(Recent(history[..n]), history[n]);
      assert history == history[..n] + [history[n]];
    }
  }

  lemma {:induction false} RecentByLastUse(history: seq<Key>, i: nat, j: nat)
    requires i < j < |Recent(history)|
    ensures LastUse(history, Recent(history)[i]) > LastUse(history, Recent(history)[j])
  {
    var n := |history| - 1;
    var before, last := Recent(history[..n]), history[n];
    var r, rest := Recent(history), Without(before, last);
    assert r[j] == rest[j - 1] && rest[j - 1] in rest;
    if i > 0 {
      assert r[i] == rest[i - 1] && rest[i - 1] in rest;
      var k, l := WithoutOrder(before, last, i - 1, j - 1);
      RecentByLastUse(history[..n], k, l);
    }
  }

  lemma {:induction false} WithoutTake(s: seq<Key>, key: Key, n: nat)
    requires Distinct(s)
    ensures Take(Without(Take(s, n + 1), key), n) == Take(Without(s, key), n)
  {
    if s == [] {
    } else if s[0] == key {
      WithoutAbsent(s[1..], key);
      WithoutAbsent(Take(s, n + 1)[1..], key);
      assert Take(s, n + 1)[1..] == Take(s[1..], n);
    } else if n == 0 {
    } else {
      WithoutTake(s[1..], key, n - 1);
      assert Take(s, n + 1)[1..] == Take(s[1..], n);
      assert Without(Take(s, n + 1), key) == [s[0]] + Without(Take(s[1..], n), key);
      TakeCons(s[0], Without(Take(s[1..], n), key), n - 1);
      TakeCons(s[0], Without(s[1..], key), n - 1);
    }
  }

  lemma TakeCons<T>(x: T, s: seq<T>, n: nat)
    ensures Take([x] + s, n + 1) == [x] + Take(s, n)
  {
  }

  lemma {:induction false} WithoutAbsent<T>(s: seq<T>, x: T)
    requires x !in s
    ensures Without(s, x) == s
  {
    if s != [] {
      WithoutAbsent(s[1..], x);
    }
  }

  lemma {:induction false} TouchTaken(r: seq<Key>, key: Key, capacity: nat)
    requires capacity >= 1 && Distinct(r)
    ensures Touch(Take(r, capacity), key, capacity) == Take([key] + Without(r, key), capacity)
  {
    TakeCons(key, Without(Take(r, capacity), key), capacity - 1);
    TakeCons(key, Without(r, key), capacity - 1);
    WithoutTake(r, key, capacity - 1);
  }

  // After any history of requests on an empty cache, the cache holds exactly
  // the `capacity` most recently requested keys, most recent first.
  lemma {:induction false} CacheIsMostRecent(history: seq<Key>, capacity: nat)
    requires capacity >= 1
    ensures TouchAll([], history, capacity) == Take(Recent(history), capacity)
  {
    if history != [] {
      var n := |history| - 1;
      var before, last := history[..n], history[n];
      CacheIsMostRecent(before, capacity);
      RecentKeys(before);
      TouchTaken(Recent(before), last, capacity);
    }
  }

  // One more request keeps it that way.
  lemma {:induction false} RecentStep(history: seq<Key>, key: Key, capacity: nat)
    requires capacity >= 1
    ensures Touch(Take(Recent(history), capacity), key, capacity) == Take(Recent(history + [key]), capacity)
  {
    CacheIsMostRecent(history, capacity);
    CacheIsMostRecent(history + [key], capacity);
    assert (history + [key])[..|history|] == history;
  }

  // Goroutines interleave whole lookups and inserts: a lookup promotes a key
  // only when it is present, an insert always makes it the most recent.
  datatype CacheStep = Looked(key: Key) | Inserted(key: Key)

  function Interleaved(recency: seq<Key>, steps: seq<CacheStep>, capacity: nat): seq<Key> {
    if steps == [] then recency
    else
      var before := Interleaved(recency, steps[..|steps| - 1], capacity);
      match steps[|steps| - 1]
      case Looked(key) => if key in before then Touch(before, key, capacity) else before
      case Inserted(key) => Touch(before, key, capacity)
  }

  lemma {:induction false} InterleavedStaysBounded(recency: seq<Key>, steps: seq<CacheStep>, capacity: nat)
    requires Distinct(recency) && |recency| <= capacity
    ensures Distinct(Interleaved(recency, steps, capacity)) && |Interleaved(recency, steps, capacity)| <= capacity
    ensures forall key :: key in Interleaved(recency, steps, capacity) ==> key in recency || Inserted(key) in steps
  {
    if steps != [] {
      var n := |steps| - 1;
      InterleavedStaysBounded(recency, steps[..n], capacity);
      var before := Interleaved(recency, steps[..n], capacity);
      ToFrontDistinct(before, steps[n].key);
      assert steps == steps[..n] + [steps[n]];
    }
  }

  // ---------------------------------------------------------------------
  // The cache
  // ---------------------------------------------------------------------

  // One list element; the list and the map share these objects.
  class Element {
    const key: Key
    const pack: Pack

    constructor (key: Key, pack: Pack)
      ensures this.key == key && this.pack == pack
    {
      this.key, this.pack := key, pack;
    }
  }

  function Keys(order: seq<Element>): (keys: seq<Key>)
    ensures |keys| == |order| && forall i :: 0 <= i < |order| ==> keys[i] == order[i].key
  {
    seq(|order|, i requires 0 <= i < |order| => order[i].key)
  }

  lemma {:induction false} KeysWithout(order: seq<Element>, el: Element)
    requires Distinct(Keys(order)) && el in order
    ensures Keys(Without(order, el)) == Without(Keys(order), el.key)
    ensures |Without(order, el)| == |order| - 1
  {
    assert Keys(order)[1..] == Keys(order[1..]);
    if order[0] == el {
      assert el !in order[1..] by {
        assert forall i :: 0 < i < |order| ==> Keys(order)[i] != Keys(order)[0];
      }
      WithoutAbsent(order[1..], el);
      assert el.key !in Keys(order[1..]);
      WithoutAbsent(Keys(order[1..]), el.key);
    } else {
      assert order[0].key != el.key by {
        var i :| 0 <= i < |order| && order[i] == el;
        assert Keys(order)[0] != Keys(order)[i];
      }
      KeysWithout(order[1..], el);
    }
  }

  class PackCache {
    const loader: Key -> Result<Doc, Error>
    const parse: Doc -> Option<Pack>
    const capacity: nat
    var entries: map<Key, Element>
    var order: seq<Element>

    ghost function Recency(): seq<Key>
      reads this
    {
      Keys(order)
    }

    // What a document of the loader parses to.
    ghost predicate IsPackOf(key: Key, pack: Pack) {
      loader(key).Ok? && parse(loader(key).value) == Some(pack)
    }

    // The map and the list hold the same elements, one for each key.
    ghost predicate Matched()
      reads this
    {
      && Distinct(Recency())
      && (forall key :: key in entries ==> entries[key] in order && entries[key].key == key)
      && (forall el :: el in order ==> el.key in entries && entries[el.key] == el && IsPackOf(el.key, el.pack))
    }

    ghost predicate Valid()
      reads this
    {
      1 <= capacity && |order| <= capacity && Matched()
    }

    constructor (loader: Key -> Result<Doc, Error>, parse: Doc -> Option<Pack>, capacity: int)
      ensures Valid() && Recency() == []
      ensures this.loader == loader && this.parse == parse
      ensures this.capacity == if capacity < 1 then 1 else capacity
    {
      this.loader, this.parse := loader, parse;
      this.capacity := if capacity < 1 then 1 else capacity;
      entries, order := map[], [];
    }

    method MoveToFront(el: Element)
      requires Valid() && el in order
      modifies `order
      ensures Valid() && Recency() == Touch(old(Recency()), el.key, capacity)
      ensures el in order && el.key in Recency()
    {
      KeysWithout(order, el);
      ToFrontDistinct(Recency(), el.key);
      order := [el] + Without(order, el);
      assert Recency() == [el.key] + Without(old(Recency()), el.key);
    }

    method Lookup(key: Key) returns (hit: Option<Pack>)
      requires Valid()
      modifies this
      ensures Valid()
      ensures Recency() == if key in old(Recency()) then Touch(old(Recency()), key, capacity) else old(Recency())
      ensures hit.Some? <==> key in old(Recency())
      ensures hit.Some? ==> IsPackOf(key, hit.value)
    {
      if key !in entries {
        return None;
      }
      var el := entries[key];
      assert key in Recency() by {
        var i :| 0 <= i < |order| && order[i] == el;
        assert Recency()[i] == key;
      }
      MoveToFront(el);
      return Some(el.pack);
    }

    method Insert(key: Key, pack: Pack) returns (kept: Pack)
      requires Valid() && IsPackOf(key, pack)
      modifies this
      ensures Valid() && Recency() == Touch(old(Recency()), key, capacity)
      ensures IsPackOf(key, kept)
    {
      if key in entries {
        var el := entries[key];
        MoveToFront(el);
        return el.pack;
      }
      assert key !in Recency();
      WithoutAbsent(Recency(), key);
      PushFront(key, pack);
      if |order| > capacity {
        EvictOldestLocked();
      }
      return pack;
    }

    method PushFront(key: Key, pack: Pack)
      requires Valid() && key !in entries && IsPackOf(key, pack)
      modifies this
      ensures Matched() && Recency() == [key] + old(Recency())
    {
      assert key !in Recency();
      ghost var before := Recency();
      var el := new Element(key, pack);
      order := [el] + order;
      entries := entries[key := el];
      assert Recency() == [key] + before;
      assert forall j :: 0 < j < |order| ==> Recency()[j] == before[j - 1] != key;
    }

    method EvictOldestLocked()
      requires 1 <= capacity && |order| == capacity + 1 && Matched()
      modifies this
      ensures Valid() && Recency() == old(Recency())[..capacity]
    {
      var oldest := order[|order| - 1];
      assert forall i :: 0 <= i < |order| - 1 ==> Recency()[i] != Recency()[|order| - 1];
      order := order[..|order| - 1];
      entries := map k | k in entries && k != oldest.key :: entries[k];
      assert Recency() == old(Recency())[..capacity];
      forall key | key in entries
        ensures entries[key] in order
      {
        assert entries[key] in old(order) && entries[key] != oldest;
      }
    }

    // A successful request returns the parse of the loader's document and
    // makes the key the most recent one; a failed one changes nothing.
    method Get(key: Key) returns (r: Result<Pack, Error>)
      requires Valid()
      modifies this
      ensures Valid()
      ensures r.Ok? ==> IsPackOf(key, r.value) && Recency() == Touch(old(Recency()), key, capacity)
      ensures r.Err? ==> Recency() == old(Recency()) && forall pack :: !IsPackOf(key, pack)
    {
      var hit := Lookup(key);
      if hit.Some? {
        return Ok(hit.value);
      }
      var doc := loader(key);
      if doc.Err? {
        return Err(LoadFailed);
      }
      var pack := parse(doc.value);
      if pack.None? {
        return Err(ParseFailed);
      }
      var kept := Insert(key, pack.value);
      return Ok(kept);
    }

    ghost predicate IsServed(key: Key) {
      loader(key).Ok? && parse(loader(key).value).Some?
    }

    // The requests that do not fail.
    ghost function Served(keys: seq<Key>): seq<Key> {
      if keys == [] then []
      else
        var n := |keys| - 1;
        if IsServed(keys[n]) then Served(keys[..n]) + [keys[n]] else Served(keys[..n])
    }

    // A cache that holds the most recent keys of a history goes on doing so.
    method GetAfter(key: Key, ghost history: seq<Key>) returns (r: Result<Pack, Error>)
      requires Valid() && Recency() == Take(Recent(history), capacity)
      modifies this
      ensures Valid() && Recency() == Take(Recent(history + Served([key])), capacity)
      ensures Answers(key, r)
    {
      r := Get(key);
      assert Served([key]) == if IsServed(key) then [key] else [];
      if IsServed(key) {
        assert IsPackOf(key, parse(loader(key).value).value);
        RecentStep(history, key, capacity);
      } else {
        assert history + [] == history;
      }
    }

    ghost predicate Answers(key: Key, r: Result<Pack, Error>) {
      (r.Ok? <==> IsServed(key)) && (r.Ok? ==> IsPackOf(key, r.value))
    }

    // Requests one after another, each answered by its pack or refused.
    method GetAll(keys: seq<Key>, ghost history: seq<Key>) returns (rs: seq<Result<Pack, Error>>)
      requires Valid() && Recency() == Take(Recent(history), capacity)
      modifies this
      ensures Valid() && Recency() == Take(Recent(history + Served(keys)), capacity)
      ensures |rs| == |keys| && forall i :: 0 <= i < |keys| ==> Answers(keys[i], rs[i])
    {
      rs := [];
      ghost var sofar := history;
      assert history + Served([]) == history;
      for i := 0 to |keys|
        invariant Valid() && Recency() == Take(Recent(sofar), capacity)
        invariant sofar == history + Served(keys[..i])
        invariant |rs| == i && forall j :: 0 <= j < i ==> Answers(keys[j], rs[j])
      {
        var r := GetAfter(keys[i], sofar);
        rs := rs + [r];
        ServedStep(history, keys, i);
        sofar := sofar + Served([keys[i]]);
      }
      assert keys[..|keys|] == keys;
    }

    lemma ServedStep(history: seq<Key>, keys: seq<Key>, i: nat)
      requires i < |keys|
      ensures history + Served(keys[..i + 1]) == history + Served(keys[..i]) + Served([keys[i]])
    {
      assert keys[..i + 1][..i] == keys[..i];
      assert [keys[i]][..0] == [];
    }
  }
}
