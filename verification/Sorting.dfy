/** The library sort as a function, and the uniqueness of its result. */
module Sorting {
  import opened Sequences
  import opened Strings

  ghost predicate Sorted<T>(key: T -> string, s: seq<T>) {
    forall i, j :: 0 <= i < j < |s| ==> Le(key(s[i]), key(s[j]))
  }

  /** Elements with the same key are the same element, so an unstable sort has no choice to make. */
  ghost predicate KeyDetermines<T(!new)>(key: T -> string, s: seq<T>) {
    forall x, y :: x in s && y in s && key(x) == key(y) ==> x == y
  }

  function Insert<T>(key: T -> string, x: T, s: seq<T>): seq<T> {
    if s == [] || Le(key(x), key(s[0])) then [x] + s else [s[0]] + Insert(key, x, s[1..])
  }

  function Sort<T>(key: T -> string, s: seq<T>): seq<T> {
    if s == [] then [] else Insert(key, s[|s| - 1], Sort(key, s[..|s| - 1]))
  }

  function Self(s: string): string {
    s
  }

  /** The keys below an index cap: the first `max` in ascending order. */
  function Window(keys: seq<string>, max: nat): seq<string> {
    Take(Sort(Self, keys), max)
  }

  lemma {:induction false} InsertMultiset<T(!new)>(key: T -> string, x: T, s: seq<T>)
    ensures multiset(Insert(key, x, s)) == multiset(s) + multiset{x}
    ensures forall y :: y in Insert(key, x, s) <==> y in s || y == x
  {
    if s != [] && !Le(key(x), key(s[0])) {
      InsertMultiset(key, x, s[1..]);
      assert s == [s[0]] + s[1..];
    }
  }

  lemma {:induction false} InsertProperties<T(!new)>(key: T -> string, x: T, s: seq<T>)
    ensures multiset(Insert(key, x, s)) == multiset(s) + multiset{x}
    ensures Sorted(key, s) ==> Sorted(key, Insert(key, x, s))
  {
    InsertMultiset(key, x, s);
    if Sorted(key, s) && s != [] {
      if Le(key(x), key(s[0])) {
        forall j | 0 <= j < |s| ensures Le(key(x), key(s[j])) {
          if j > 0 {
            LeTransitive(key(x), key(s[0]), key(s[j]));
          }
        }
      } else {
        LeTotal(key(x), key(s[0]));
        InsertProperties(key, x, s[1..]);
        var t := Insert(key, x, s[1..]);
        InsertMultiset(key, x, s[1..]);
        forall j | 0 <= j < |t| ensures Le(key(s[0]), key(t[j])) {
          assert t[j] in t;
        }
      }
    }
  }

  /** The sort returns a sorted permutation of its argument. */
  lemma {:induction false} SortProperties<T(!new)>(key: T -> string, s: seq<T>)
    ensures multiset(Sort(key, s)) == multiset(s)
    ensures Sorted(key, Sort(key, s))
    ensures |Sort(key, s)| == |s| && forall x :: x in Sort(key, s) <==> x in s
  {
    if s != [] {
      var front := s[..|s| - 1];
      SortProperties(key, front);
      InsertProperties(key, s[|s| - 1], Sort(key, front));
      assert s == front + [s[|s| - 1]];
    }
    PermutationLength(Sort(key, s), s);
  }

  lemma SortLength<T(!new)>(key: T -> string, s: seq<T>)
    ensures |Sort(key, s)| == |s|
  {
    SortProperties(key, s);
  }

  lemma SortedHead<T(!new)>(key: T -> string, s: seq<T>, x: T)
    requires Sorted(key, s) && x in s
    ensures Le(key(s[0]), key(x))
  {
    var i :| 0 <= i < |s| && s[i] == x;
    LeRefl(key(x));
  }

  lemma TailMultiset<T>(s: seq<T>)
    requires s != []
    ensures multiset(s[1..]) == multiset(s) - multiset{s[0]}
  {
    assert s == [s[0]] + s[1..];
  }

  /** Two sorted permutations are equal as soon as equal keys mean equal elements. */
  lemma {:induction false} SortedUnique<T(!new)>(key: T -> string, a: seq<T>, b: seq<T>)
    requires multiset(a) == multiset(b)
    requires Sorted(key, a) && Sorted(key, b)
    requires KeyDetermines(key, a)
    ensures a == b
  {
    PermutationLength(a, b);
    if a != [] {
      assert a[0] == b[0] by {
        assert a[0] in b && b[0] in a;
        SortedHead(key, a, b[0]);
        SortedHead(key, b, a[0]);
        LeAntisymmetric(key(a[0]), key(b[0]));
      }
      TailMultiset(a);
      TailMultiset(b);
      assert KeyDetermines(key, a[1..]);
      SortedUnique(key, a[1..], b[1..]);
      assert a == [a[0]] + a[1..] && b == [b[0]] + b[1..];
    }
  }

  /** Sorting hides the order of its input. */
  lemma SortPermutation<T(!new)>(key: T -> string, a: seq<T>, b: seq<T>)
    requires multiset(a) == multiset(b)
    requires KeyDetermines(key, a)
    ensures Sort(key, a) == Sort(key, b)
  {
    SortProperties(key, a);
    SortProperties(key, b);
    SortedUnique(key, Sort(key, a), Sort(key, b));
  }

  lemma SortStringsPermutation(a: seq<string>, b: seq<string>)
    requires multiset(a) == multiset(b)
    ensures Sort(Self, a) == Sort(Self, b)
  {
    SortPermutation(Self, a, b);
  }

  // ---------------------------------------------------------------- sorted key sets

  /** No repetitions. */
  ghost predicate Distinct<T>(s: seq<T>) {
    forall i, j :: 0 <= i < j < |s| ==> s[i] != s[j]
  }

  ghost predicate ListsSet(s: seq<string>, keys: set<string>) {
    Sorted(Self, s) && Distinct(s) && (forall x :: x in s <==> x in keys)
  }

  /** The ascending list of a set of strings. */
  ghost function SortedSet(keys: set<string>): seq<string> {
    if keys == {} then []
    else
      var x :| x in keys;
      Insert(Self, x, SortedSet(keys - {x}))
  }

  lemma {:induction false} SortedSetProperties(keys: set<string>)
    ensures ListsSet(SortedSet(keys), keys)
    ensures |SortedSet(keys)| == |keys|
  {
    if keys != {} {
      var x :| x in keys && SortedSet(keys) == Insert(Self, x, SortedSet(keys - {x}));
      var rest := SortedSet(keys - {x});
      SortedSetProperties(keys - {x});
      InsertDistinct(x, rest);
      InsertProperties(Self, x, rest);
      var r := Insert(Self, x, rest);
      forall y ensures y in r <==> y in keys {
        assert y in r <==> y in multiset(r);
        assert y in rest <==> y in multiset(rest);
      }
    }
  }

  lemma {:induction false} InsertDistinct(x: string, s: seq<string>)
    requires Distinct(s) && x !in s
    ensures Distinct(Insert(Self, x, s))
    ensures |Insert(Self, x, s)| == |s| + 1
  {
    InsertProperties(Self, x, s);
    var r := Insert(Self, x, s);
    if !(s == [] || Le(x, s[0])) {
      InsertDistinct(x, s[1..]);
      InsertProperties(Self, x, s[1..]);
      var t := Insert(Self, x, s[1..]);
      forall j | 0 <= j < |t| ensures t[j] != s[0] {
        assert t[j] in multiset(t);
      }
    }
  }

  lemma {:induction false} DistinctMultiset<T(!new)>(s: seq<T>)
    requires Distinct(s)
    ensures forall x :: multiset(s)[x] == if x in s then 1 else 0
  {
    if s != [] {
      DistinctMultiset(s[..|s| - 1]);
      assert s == s[..|s| - 1] + [s[|s| - 1]];
    }
  }

  lemma ListsSetUnique(a: seq<string>, b: seq<string>, keys: set<string>)
    requires ListsSet(a, keys) && ListsSet(b, keys)
    ensures a == b
  {
    DistinctMultiset(a);
    DistinctMultiset(b);
    assert multiset(a) == multiset(b);
    SortedUnique(Self, a, b);
  }

  /** Ranging over a map in whatever order and sorting the keys always gives the ascending key list. */
  method SortedKeys(keys: set<string>) returns (names: seq<string>)
    ensures names == SortedSet(keys)
  {
    var rest := keys;
    names := [];
    while rest != {}
      invariant rest <= keys
      invariant Distinct(names) && forall x :: x in names <==> x in keys - rest
      decreases rest
    {
      var x :| x in rest;
      assert x !in names;
      names := names + [x];
      rest := rest - {x};
    }
    SortProperties(Self, names);
    DistinctMultiset(names);
    SortedDistinct(Self, names);
    names := Sort(Self, names);
    SortedSetProperties(keys);
    ListsSetUnique(names, SortedSet(keys), keys);
  }

  lemma {:induction false} SortedDistinct<T(!new)>(key: T -> string, s: seq<T>)
    requires Distinct(s)
    ensures Distinct(Sort(key, s))
  {
    SortProperties(key, s);
    DistinctMultiset(s);
    CountsDistinct(Sort(key, s));
  }

  /** Without an element that counts twice there is no repetition. */
  lemma {:induction false} CountsDistinct<T(!new)>(s: seq<T>)
    requires forall x :: multiset(s)[x] <= 1
    ensures Distinct(s)
  {
    if s != [] {
      var front, last := s[..|s| - 1], s[|s| - 1];
      assert s == front + [last];
      forall x ensures multiset(front)[x] <= 1 {
        assert multiset(s)[x] <= 1;
      }
      CountsDistinct(front);
      assert multiset(s)[last] == multiset(front)[last] + 1;
      DistinctSnoc(front, last);
    }
  }

  lemma DistinctSnoc<T>(s: seq<T>, x: T)
    ensures Distinct(s + [x]) <==> Distinct(s) && x !in s
  {
    if Distinct(s + [x]) {
      assert forall i :: 0 <= i < |s| ==> (s + [x])[i] == s[i] && (s + [x])[i] != (s + [x])[|s|];
    }
  }

  lemma {:induction false} FilterDistinct<T(!new)>(p: T -> bool, s: seq<T>)
    requires Distinct(s)
    ensures Distinct(Filter(p, s))
  {
    if s != [] {
      var front, last := s[..|s| - 1], s[|s| - 1];
      assert s == front + [last];
      DistinctSnoc(front, last);
      FilterDistinct(p, front);
      FilterMembers(p, front);
      DistinctSnoc(Filter(p, front), last);
    }
  }
}
