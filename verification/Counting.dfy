// How often an element occurs in a sequence.
module Counting {

  function Times<T(==)>(s: seq<T>, x: T): (n: int)
    ensures n >= 0
  {
    if s == [] then 0 else Times(s[1..], x) + if s[0] == x then 1 else 0
  }

  lemma {:induction false} TimesConcat<T>(a: seq<T>, b: seq<T>, x: T)
    ensures Times(a + b, x) == Times(a, x) + Times(b, x)
  {
    if a == [] {
      assert a + b == b;
    } else {
      TimesConcat(a[1..], b, x);
      assert (a + b)[1..] == a[1..] + b;
    }
  }

  // An element taken out of the middle.
  lemma {:induction false} TimesWithout<T>(s: seq<T>, i: nat, x: T)
    requires i < |s|
    ensures Times(s, x) == Times(s[..i] + s[i + 1..], x) + if s[i] == x then 1 else 0
  {
    assert s == s[..i] + ([s[i]] + s[i + 1..]);
    TimesConcat(s[..i], [s[i]] + s[i + 1..], x);
    TimesConcat(s[..i], s[i + 1..], x);
    assert ([s[i]] + s[i + 1..])[1..] == s[i + 1..];
  }

  lemma TimesUpdate<T>(s: seq<T>, i: nat, v: T, x: T)
    requires i < |s|
    ensures Times(s[i := v], x) == Times(s, x) - (if s[i] == x then 1 else 0) + if v == x then 1 else 0
  {
    TimesWithout(s, i, x);
    TimesWithout(s[i := v], i, x);
    assert s[i := v][..i] == s[..i] && s[i := v][i + 1..] == s[i + 1..];
  }

  lemma {:induction false} TimesMember<T>(s: seq<T>, x: T)
    ensures Times(s, x) > 0 <==> x in s
  {
    if s != [] {
      TimesMember(s[1..], x);
      assert s == [s[0]] + s[1..];
    }
  }

  lemma {:induction false} TimesDistinct<T>(s: seq<T>, x: T)
    requires forall i, j :: 0 <= i < j < |s| ==> s[i] != s[j]
    ensures Times(s, x) == if x in s then 1 else 0
  {
    if s != [] {
      TimesDistinct(s[1..], x);
      assert s == [s[0]] + s[1..];
      if s[0] == x {
        assert x !in s[1..];
      }
    }
  }
}
