/** When the series of a report can be told apart by family and labels. */
module LabelSets {
  import opened Sequences
  import opened Strings
  import opened Sorting
  import opened Metrics

  predicate SameId(a: Series, b: Series) {
    a.family == b.family && a.labels == b.labels
  }

  /** No two series have the same family and labels. */
  ghost predicate IdsDistinct(series: seq<Series>) {
    forall i, j :: 0 <= i < j < |series| ==> !SameId(series[i], series[j])
  }

  ghost predicate Apart(a: seq<Series>, b: seq<Series>) {
    forall s, t :: s in a && t in b ==> !SameId(s, t)
  }

  lemma IdsAppend(a: seq<Series>, b: seq<Series>)
    ensures IdsDistinct(a + b) <==> IdsDistinct(a) && IdsDistinct(b) && Apart(a, b)
  {
    var ab := a + b;
    assert forall i :: 0 <= i < |a| ==> ab[i] == a[i];
    assert forall i :: 0 <= i < |b| ==> ab[|a| + i] == b[i];
    if IdsDistinct(ab) {
      forall i, j | 0 <= i < j < |b| ensures !SameId(b[i], b[j]) {
        assert !SameId(ab[|a| + i], ab[|a| + j]);
      }
      forall s, t | s in a && t in b ensures !SameId(s, t) {
        var i :| 0 <= i < |a| && a[i] == s;
        var j :| 0 <= j < |b| && b[j] == t;
        assert !SameId(ab[i], ab[|a| + j]);
      }
    }
    if IdsDistinct(a) && IdsDistinct(b) && Apart(a, b) {
      forall i, j | 0 <= i < j < |ab| ensures !SameId(ab[i], ab[j]) {
        if j < |a| {
        } else if |a| <= i {
          assert ab[i] == b[i - |a|] && ab[j] == b[j - |a|];
        } else {
          assert ab[i] in a && ab[j] == b[j - |a|] && b[j - |a|] in b;
        }
      }
    }
  }

  /** Leaving disabled families out repeats nothing. */
  lemma {:induction false} KeepIds(filter: MetricFilter, series: seq<Series>)
    requires IdsDistinct(series)
    ensures IdsDistinct(filter.Keep(series))
  {
    if series != [] {
      var front, last := series[..|series| - 1], series[|series| - 1];
      assert series == front + [last];
      IdsAppend(front, [last]);
      KeepIds(filter, front);
      FilterMembers(filter.Keeps(), front);
      IdsAppend(filter.Keep(front), [last]);
    }
  }

  // ---------------------------------------------------------------- one block of series per owner

  /** All series have the owner as their first label. */
  ghost predicate Shows(series: seq<Series>, owner: string) {
    forall r :: r in series ==> r.labels != [] && r.labels[0] == owner
  }

  /** The owner of a key that is labelled by its part behind the table prefix. */
  function Behind(prefix: string): string -> string {
    (key: string) => TrimPrefix(key, prefix)
  }

  /** Each owner's block repeats nothing and shows the owner in the first label, and its head is told by the owner. */
  ghost predicate OwnedBlocks<T(!new)>(block: T -> seq<Series>, owner: T -> string, s: seq<T>) {
    && (forall x :: x in s ==> block(x) != [] && IdsDistinct(block(x)))
    && (forall x, r :: x in s && r in block(x) ==> r.labels != [] && r.labels[0] == owner(x))
    && (forall x, y :: x in s && y in s && owner(x) == owner(y) ==> SameId(block(x)[0], block(y)[0]))
  }

  lemma {:induction false} BlockOwners<T(!new)>(block: T -> seq<Series>, owner: T -> string, s: seq<T>, r: Series)
    requires OwnedBlocks(block, owner, s) && r in FlatMap(block, s)
    ensures r.labels != [] && r.labels[0] in Map(owner, s)
  {
    var front, last := s[..|s| - 1], s[|s| - 1];
    assert s == front + [last];
    if r in block(last) {
    } else {
      BlockOwners(block, owner, front, r);
    }
  }

  lemma {:induction false} BlockHead<T(!new)>(block: T -> seq<Series>, owner: T -> string, s: seq<T>, x: T)
    requires OwnedBlocks(block, owner, s) && x in s
    ensures block(x)[0] in FlatMap(block, s)
  {
    var front, last := s[..|s| - 1], s[|s| - 1];
    assert s == front + [last];
    if x != last {
      BlockHead(block, owner, front, x);
    }
  }

  lemma BlockApart<T(!new)>(block: T -> seq<Series>, owner: T -> string, front: seq<T>, last: T)
    requires OwnedBlocks(block, owner, front + [last])
    ensures Apart(FlatMap(block, front), block(last)) <==> owner(last) !in Map(owner, front)
  {
    assert last in front + [last] && forall x :: x in front ==> x in front + [last];
    if owner(last) in Map(owner, front) {
      var i :| 0 <= i < |front| && Map(owner, front)[i] == owner(last);
      BlockHead(block, owner, front, front[i]);
      assert front[i] in front && SameId(block(front[i])[0], block(last)[0]);
      assert block(last)[0] in block(last);
    } else {
      forall s, t | s in FlatMap(block, front) && t in block(last) ensures !SameId(s, t) {
        BlockOwners(block, owner, front, s);
      }
    }
  }

  /** Exactly when a report of blocks repeats nothing: when no owner has two blocks. */
  lemma {:induction false} BlocksDistinct<T(!new)>(block: T -> seq<Series>, owner: T -> string, s: seq<T>)
    requires OwnedBlocks(block, owner, s)
    ensures IdsDistinct(FlatMap(block, s)) <==> Distinct(Map(owner, s))
  {
    if s != [] {
      var front, last := s[..|s| - 1], s[|s| - 1];
      assert s == front + [last];
      BlocksDistinct(block, owner, front);
      BlockApart(block, owner, front, last);
      IdsAppend(FlatMap(block, front), block(last));
      DistinctSnoc(Map(owner, front), owner(last));
    }
  }

  // ---------------------------------------------------------------- one series per family

  /** Series of pairwise different families. */
  ghost predicate FamiliesDistinct(series: seq<Series>) {
    forall i, j :: 0 <= i < j < |series| ==> series[i].family != series[j].family
  }

  /** At most one series for each of some families, all under the same first label. */
  ghost predicate OneEach(series: seq<Series>, families: seq<string>, owner: string) {
    && FamiliesDistinct(series)
    && forall s :: s in series ==> s.family in families && s.labels != [] && s.labels[0] == owner
  }

  lemma OneEachIds(series: seq<Series>, families: seq<string>, owner: string)
    requires OneEach(series, families, owner)
    ensures IdsDistinct(series)
  {
  }

  lemma OneMore(series: seq<Series>, families: seq<string>, owner: string, family: string, more: seq<Series>)
    requires OneEach(series, families, owner) && family !in families
    requires |more| <= 1
    requires forall s :: s in more ==> s.family == family && s.labels != [] && s.labels[0] == owner
    ensures OneEach(series + more, families + [family], owner)
  {
    var all := series + more;
    forall i, j | 0 <= i < j < |all| ensures all[i].family != all[j].family {
      if j < |series| {
      } else {
        assert all[j] in more && all[i] in series;
      }
    }
  }
}
