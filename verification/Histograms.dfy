/** Label histograms, their totals, and their emission in ascending label order under a cap. */
module Histograms {
  import opened Sequences
  import opened Strings
  import opened Sorting
  import opened Metrics

  type Histogram = map<string, nat>

  function Count(h: Histogram, name: string): nat {
    if name in h then h[name] else 0
  }

  function Bump(h: Histogram, name: string): Histogram {
    h[name := Count(h, name) + 1]
  }

  function Tally(labels: seq<string>): Histogram {
    if labels == [] then map[] else Bump(Tally(labels[..|labels| - 1]), labels[|labels| - 1])
  }

  /** A tally has exactly the labels that occur, each with the number of its occurrences. */
  lemma {:induction false} TallyCounts(labels: seq<string>)
    ensures forall l :: l in Tally(labels) <==> l in labels
    ensures forall l :: Count(Tally(labels), l) == multiset(labels)[l]
    ensures forall l :: l in Tally(labels) ==> Tally(labels)[l] >= 1
  {
    if labels != [] {
      TallyCounts(labels[..|labels| - 1]);
      assert labels == labels[..|labels| - 1] + [labels[|labels| - 1]];
    }
  }

  function Total(h: Histogram, labels: seq<string>): nat {
    if labels == [] then 0 else Total(h, labels[..|labels| - 1]) + Count(h, labels[|labels| - 1])
  }

  lemma {:induction false} TotalBump(h: Histogram, name: string, labels: seq<string>)
    requires Distinct(labels)
    ensures Total(Bump(h, name), labels) == Total(h, labels) + if name in labels then 1 else 0
  {
    if labels != [] {
      TotalBump(h, name, labels[..|labels| - 1]);
      assert labels == labels[..|labels| - 1] + [labels[|labels| - 1]];
    }
  }

  lemma {:induction false} TotalEmpty(labels: seq<string>)
    ensures Total(map[], labels) == 0
  {
    if labels != [] {
      TotalEmpty(labels[..|labels| - 1]);
    }
  }

  /** Conservation: over all its labels, a tally adds up to the number of tallied entries. */
  lemma {:induction false} TotalTally(entries: seq<string>, labels: seq<string>)
    requires Distinct(labels) && forall l :: l in entries ==> l in labels
    ensures Total(Tally(entries), labels) == |entries|
  {
    if entries == [] {
      TotalEmpty(labels);
    } else {
      var front := entries[..|entries| - 1];
      assert entries == front + [entries[|entries| - 1]];
      TotalTally(front, labels);
      TotalBump(Tally(front), entries[|entries| - 1], labels);
    }
  }

  /** Leaving labels out loses exactly their counts. */
  lemma {:induction false} TotalSplit(h: Histogram, labels: seq<string>, n: nat)
    requires n <= |labels|
    ensures Total(h, labels) == Total(h, labels[..n]) + Total(h, labels[n..])
  {
    if n == |labels| {
      assert labels[..n] == labels;
    } else {
      TotalSplit(h, labels[..|labels| - 1], n);
      assert labels[..|labels| - 1][..n] == labels[..n];
      assert labels[n..][..|labels[n..]| - 1] == labels[..|labels| - 1][n..];
    }
  }

  lemma {:induction false} TotalAtLeast(h: Histogram, labels: seq<string>)
    requires forall l :: l in labels ==> Count(h, l) >= 1
    ensures Total(h, labels) >= |labels|
  {
    if labels != [] {
      TotalAtLeast(h, labels[..|labels| - 1]);
    }
  }

  /** The exported labels: the lexicographically first `cap`. */
  ghost function Shown(h: Histogram, cap: nat): seq<string> {
    Take(SortedSet(h.Keys), cap)
  }

  /** The shown counts add up to the number of entries exactly when no label is cut off. */
  lemma ShownTotal(entries: seq<string>, cap: nat)
    ensures Total(Tally(entries), Shown(Tally(entries), cap)) <= |entries|
    ensures Total(Tally(entries), Shown(Tally(entries), cap)) == |entries| <==> |Tally(entries)| <= cap
  {
    var h := Tally(entries);
    var all := SortedSet(h.Keys);
    SortedSetProperties(h.Keys);
    TallyCounts(entries);
    TotalTally(entries, all);
    var n := Min(cap, |all|);
    TotalSplit(h, all, n);
    TotalAtLeast(h, all[n..]);
    assert n == |all| ==> all[n..] == [];
  }

  // ---------------------------------------------------------------- series

  function CountSeries(family: string, h: Histogram): string -> Series {
    (name: string) => Series(family, [name], Count(h, name) as real)
  }

  /** The values of count series add up to the total of their labels. */
  lemma {:induction false} SeriesSum(series: string -> Series, h: Histogram, labels: seq<string>)
    requires forall name :: series(name).value == Count(h, name) as real
    ensures SumValues(Map(series, labels)) == Total(h, labels) as real
  {
    if labels != [] {
      SeriesSum(series, h, labels[..|labels| - 1]);
    }
  }

  lemma EmitStep(filter: MetricFilter, series: string -> Series, labels: seq<string>, idx: nat, metrics: seq<Series>)
    requires idx < |labels|
    ensures filter.Emit(metrics + filter.Keep(Map(series, labels[..idx])), series(labels[idx]))
         == metrics + filter.Keep(Map(series, labels[..idx + 1]))
  {
    TakeSnoc(labels, idx);
    filter.EmitKeeps(Map(series, labels[..idx]), series(labels[idx]));
  }

  /** Emits one series for each of the first `cap` labels and counts the labels that are cut off. */
  method EmitShown(filter: MetricFilter, series: string -> Series, h: Histogram, cap: nat, metrics: seq<Series>,
                   skipped: nat)
    returns (metrics': seq<Series>, skipped': nat)
    ensures metrics' == metrics + filter.Keep(Map(series, Shown(h, cap)))
    ensures skipped' == skipped + Monus(|h|, cap)
  {
    SortedSetProperties(h.Keys);
    var labels := SortedKeys(h.Keys);
    metrics', skipped' := metrics, skipped;
    assert labels[..0] == [];
    for idx := 0 to |labels|
      invariant idx <= cap
      invariant metrics' == metrics + filter.Keep(Map(series, labels[..idx]))
      invariant skipped' == skipped
    {
      if idx >= cap {
        skipped' := skipped' + (|labels| - idx);
        return;
      }
      EmitStep(filter, series, labels, idx, metrics);
      metrics' := filter.Emit(metrics', series(labels[idx]));
    }
  }

  /** Emits one series for every label. */
  method EmitAll(filter: MetricFilter, series: string -> Series, h: Histogram, metrics: seq<Series>)
    returns (metrics': seq<Series>)
    ensures metrics' == metrics + filter.Keep(Map(series, SortedSet(h.Keys)))
  {
    var labels := SortedKeys(h.Keys);
    metrics' := metrics;
    assert labels[..0] == [];
    for idx := 0 to |labels|
      invariant metrics' == metrics + filter.Keep(Map(series, labels[..idx]))
    {
      EmitStep(filter, series, labels, idx, metrics);
      metrics' := filter.Emit(metrics', series(labels[idx]));
    }
    assert labels[..|labels|] == labels;
  }
}
