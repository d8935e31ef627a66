/** Sequence combinators used by the specifications; all recurse on the last element, as the loops grow. */
module Sequences {
  function Min(a: nat, b: nat): nat {
    if a <= b then a else b
  }

  function Monus(a: nat, b: nat): nat {
    if a <= b then 0 else a - b
  }

  function Take<T>(s: seq<T>, n: nat): seq<T> {
    s[..Min(n, |s|)]
  }

  function Filter<T(!new)>(p: T -> bool, s: seq<T>): (r: seq<T>)
    ensures |r| <= |s|
  {
    if s == [] then []
    else
      var rest := Filter(p, s[..|s| - 1]);
      if p(s[|s| - 1]) then rest + [s[|s| - 1]] else rest
  }

  function Map<T, U>(f: T -> U, s: seq<T>): (r: seq<U>)
    ensures |r| == |s|
    ensures forall i :: 0 <= i < |s| ==> r[i] == f(s[i])
  {
    if s == [] then [] else Map(f, s[..|s| - 1]) + [f(s[|s| - 1])]
  }

  function FlatMap<T, U>(f: T -> seq<U>, s: seq<T>): seq<U> {
    if s == [] then [] else FlatMap(f, s[..|s| - 1]) + f(s[|s| - 1])
  }

  function Flatten<T>(s: seq<seq<T>>): seq<T> {
    if s == [] then [] else Flatten(s[..|s| - 1]) + s[|s| - 1]
  }

  function Sum(s: seq<nat>): nat {
    if s == [] then 0 else Sum(s[..|s| - 1]) + s[|s| - 1]
  }

  predicate Every<T>(p: T -> bool, s: seq<T>) {
    s == [] || (Every(p, s[..|s| - 1]) && p(s[|s| - 1]))
  }

  lemma {:induction false} EveryElement<T>(p: T -> bool, s: seq<T>)
    ensures Every(p, s) <==> forall i :: 0 <= i < |s| ==> p(s[i])
  {
    if s != [] {
      EveryElement(p, s[..|s| - 1]);
    }
  }

  lemma EveryFails<T>(p: T -> bool, s: seq<T>, i: nat)
    requires i < |s| && !p(s[i])
    ensures !Every(p, s)
  {
    EveryElement(p, s);
  }

  lemma TakeSnoc<T>(s: seq<T>, i: nat)
    requires i < |s|
    ensures s[..i + 1] == s[..i] + [s[i]]
    ensures s[..i + 1][..i] == s[..i]
  {
  }

  lemma {:induction false} FilterAppend<T(!new)>(p: T -> bool, a: seq<T>, b: seq<T>)
    ensures Filter(p, a + b) == Filter(p, a) + Filter(p, b)
  {
    if b == [] {
      assert a + b == a;
    } else {
      FilterAppend(p, a, b[..|b| - 1]);
      assert (a + b)[..|a + b| - 1] == a + b[..|b| - 1];
    }
  }

  lemma {:induction false} FilterMembers<T(!new)>(p: T -> bool, s: seq<T>)
    ensures forall x :: x in Filter(p, s) <==> x in s && p(x)
  {
    if s != [] {
      FilterMembers(p, s[..|s| - 1]);
    }
  }

  lemma {:induction false} MapAppend<T, U>(f: T -> U, a: seq<T>, b: seq<T>)
    ensures Map(f, a + b) == Map(f, a) + Map(f, b)
  {
  }

  lemma MapSnoc<T, U>(f: T -> U, s: seq<T>)
    requires s != []
    ensures Map(f, s) == Map(f, s[..|s| - 1]) + [f(s[|s| - 1])]
  {
  }

  lemma MapSame<T(!new), U>(f: T -> U, g: T -> U, s: seq<T>)
    requires forall x :: x in s ==> f(x) == g(x)
    ensures Map(f, s) == Map(g, s)
  {
    forall i | 0 <= i < |s| ensures Map(f, s)[i] == Map(g, s)[i] {
      assert s[i] in s;
    }
  }

  lemma MapTwice<T(!new), U, V, W>(f: U -> W, g: T -> U, h: V -> W, k: T -> V, s: seq<T>)
    requires forall x :: x in s ==> f(g(x)) == h(k(x))
    ensures Map(f, Map(g, s)) == Map(h, Map(k, s))
  {
    forall i | 0 <= i < |s| ensures Map(f, Map(g, s))[i] == Map(h, Map(k, s))[i] {
      assert s[i] in s;
    }
  }

  lemma MapMembers<T(!new), U>(f: T -> U, s: seq<T>, x: T)
    requires x in s
    ensures f(x) in Map(f, s)
  {
    var i :| 0 <= i < |s| && s[i] == x;
    assert Map(f, s)[i] == f(x);
  }

  lemma {:induction false} FlatMapAppend<T, U>(f: T -> seq<U>, a: seq<T>, b: seq<T>)
    ensures FlatMap(f, a + b) == FlatMap(f, a) + FlatMap(f, b)
  {
    if b == [] {
      assert a + b == a;
    } else {
      FlatMapAppend(f, a, b[..|b| - 1]);
      assert (a + b)[..|a + b| - 1] == a + b[..|b| - 1];
    }
  }

  lemma {:induction false} FilterAll<T(!new)>(p: T -> bool, s: seq<T>)
    ensures (forall x :: x in s ==> p(x)) ==> Filter(p, s) == s
    ensures (forall x :: x in s ==> !p(x)) ==> Filter(p, s) == []
  {
    if s != [] {
      FilterAll(p, s[..|s| - 1]);
      assert s == s[..|s| - 1] + [s[|s| - 1]];
    }
  }

  /** Three properties of which each element has exactly one. */
  lemma {:induction false} FilterThree<T(!new)>(p: T -> bool, q: T -> bool, r: T -> bool, s: seq<T>)
    requires forall x :: (p(x) || q(x) || r(x)) && !(p(x) && q(x)) && !(p(x) && r(x)) && !(q(x) && r(x))
    ensures |s| == |Filter(p, s)| + |Filter(q, s)| + |Filter(r, s)|
  {
    if s != [] {
      FilterThree(p, q, r, s[..|s| - 1]);
    }
  }

  /** Counting elements of a filtered sequence. */
  /** A predicate that holds for more of the elements keeps more of them. */
  lemma {:induction false} FilterMore<T(!new)>(p: T -> bool, q: T -> bool, s: seq<T>)
    requires forall x :: x in s && q(x) ==> p(x)
    ensures |Filter(p, s)| >= |Filter(q, s)|
    ensures (exists x :: x in s && p(x) && !q(x)) ==> |Filter(p, s)| > |Filter(q, s)|
  {
    if s != [] {
      FilterMore(p, q, s[..|s| - 1]);
      assert s == s[..|s| - 1] + [s[|s| - 1]];
    }
  }

  lemma {:induction false} FilterMultiset<T(!new)>(p: T -> bool, s: seq<T>)
    ensures forall x :: multiset(Filter(p, s))[x] == if p(x) then multiset(s)[x] else 0
  {
    if s != [] {
      FilterMultiset(p, s[..|s| - 1]);
      assert s == s[..|s| - 1] + [s[|s| - 1]];
    }
  }

  /** A filtered permutation is a permutation of the filtered sequence. */
  lemma FilterPermutation<T(!new)>(p: T -> bool, a: seq<T>, b: seq<T>)
    requires multiset(a) == multiset(b)
    ensures multiset(Filter(p, a)) == multiset(Filter(p, b))
    ensures |Filter(p, a)| == |Filter(p, b)|
  {
    FilterMultiset(p, a);
    FilterMultiset(p, b);
    PermutationLength(Filter(p, a), Filter(p, b));
  }

  lemma PermutationLength<T(!new)>(a: seq<T>, b: seq<T>)
    requires multiset(a) == multiset(b)
    ensures |a| == |b|
    ensures forall x :: x in a <==> x in b
  {
    assert |multiset(a)| == |a| && |multiset(b)| == |b|;
    forall x ensures x in a <==> x in b {
      assert x in a <==> x in multiset(a);
      assert x in b <==> x in multiset(b);
    }
  }

  function HitBy<T, U(==)>(f: T -> U, u: U): T -> bool {
    (x: T) => f(x) == u
  }

  lemma {:induction false} MapCount<T(!new), U(!new)>(f: T -> U, s: seq<T>, u: U)
    ensures multiset(Map(f, s))[u] == |Filter(HitBy(f, u), s)|
  {
    if s != [] {
      MapCount(f, s[..|s| - 1], u);
    }
  }

  /** The images of a permutation are a permutation of the images. */
  /** Two functions that differ at `a` only: an occurrence of `a` leaves the value it had. */
  lemma MapElsewhere<T(!new), U(!new)>(f: T -> U, g: T -> U, a: T, s: seq<T>)
    requires a in s && f(a) != g(a) && forall x :: x != a ==> f(x) == g(x)
    ensures multiset(Map(f, s))[f(a)] > multiset(Map(g, s))[f(a)]
  {
    MapCount(f, s, f(a));
    MapCount(g, s, f(a));
    FilterMore(HitBy(f, f(a)), HitBy(g, f(a)), s);
    assert HitBy(f, f(a))(a) && !HitBy(g, f(a))(a);
  }

  lemma MapPermutation<T(!new), U(!new)>(f: T -> U, a: seq<T>, b: seq<T>)
    requires multiset(a) == multiset(b)
    ensures multiset(Map(f, a)) == multiset(Map(f, b))
  {
    forall u ensures multiset(Map(f, a))[u] == multiset(Map(f, b))[u] {
      MapCount(f, a, u);
      MapCount(f, b, u);
      FilterPermutation(HitBy(f, u), a, b);
    }
  }

  /** Counting elements by a mapped value, among those a property keeps. */
  lemma {:induction false} CountMapped<T(!new), U(!new), V(!new)>(p: T -> bool, f: T -> U, g: U -> V, v: V,
                                                                  q: T -> bool, s: seq<T>)
    requires forall x :: q(x) <==> p(x) && g(f(x)) == v
    ensures multiset(Map(g, Map(f, Filter(p, s))))[v] == |Filter(q, s)|
  {
    if s != [] {
      CountMapped(p, f, g, v, q, s[..|s| - 1]);
      var rest, last := Filter(p, s[..|s| - 1]), s[|s| - 1];
      if p(last) {
        MapAppend(f, rest, [last]);
        MapAppend(g, Map(f, rest), [f(last)]);
        assert Map(f, [last]) == [f(last)] && Map(g, [f(last)]) == [g(f(last))];
      }
    }
  }

  lemma {:induction false} FilterMapped<T(!new), U(!new)>(p: T -> bool, f: T -> U, r: U -> bool, q: T -> bool,
                                                          s: seq<T>)
    requires forall x :: q(x) <==> p(x) && r(f(x))
    ensures |Filter(r, Map(f, Filter(p, s)))| == |Filter(q, s)|
  {
    if s != [] {
      FilterMapped(p, f, r, q, s[..|s| - 1]);
      var rest, last := Filter(p, s[..|s| - 1]), s[|s| - 1];
      if p(last) {
        MapAppend(f, rest, [last]);
        FilterAppend(r, Map(f, rest), [f(last)]);
        assert Map(f, [last]) == [f(last)];
      }
    }
  }
}
