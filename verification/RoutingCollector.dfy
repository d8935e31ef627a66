/** The routing collector: neighbours and routes counted under composite keys that are joined and split on "|". */
module RoutingCollector {
  import opened Results
  import opened Sequences
  import opened Strings
  import opened Sorting
  import opened Redis
  import opened Metrics
  import opened Histograms

  /** A table of APPL_DB: which key suffixes are well formed, and what pair an entry is counted under. */
  datatype Table = Table(prefix: string, wellFormed: string -> bool, pair: (string, Fields) -> (string, string),
                         show: (string, nat) -> Series)

  datatype Limits = Limits(maxNeighbors: nat, maxRoutes: nat)

  datatype Report = Report(series: seq<Series>, skipped: nat, truncated: bool) {
    function Filtered(filter: MetricFilter): Report {
      Report(filter.Keep(series), skipped, truncated)
    }
  }

  function FamilyFromPrefix(address: string): string {
    if ':' in address then "ipv6" else "ipv4"
  }

  function HasInterface(suffix: string): bool {
    Cut(suffix, ':').Some?
  }

  /** Interface and address family of a neighbour entry. */
  function NeighborPair(suffix: string, fields: Fields): (string, string) {
    var family := ToLower(TrimSpace(Get(fields, "family")));
    match Cut(suffix, ':')
    case None => ("", family)
    case Some(parts) => (parts.0, if family == "" then FamilyFromPrefix(parts.1) else family)
  }

  function AnySuffix(suffix: string): bool { true }

  /** Address family and protocol of a route entry. */
  function RoutePair(suffix: string, fields: Fields): (string, string) {
    var protocol := ToLower(TrimSpace(Get(fields, "protocol")));
    (FamilyFromPrefix(suffix), if protocol == "" then "unknown" else protocol)
  }

  /** The two label values recovered from a composite key. */
  function SplitKey(key: string): (string, string) {
    var parts := Split(key, '|');
    if |parts| > 1 then (parts[0], parts[1]) else (key, "")
  }

  function NeighborSeries(key: string, n: nat): Series {
    Series("sonic_routing_neighbor_entries", [SplitKey(key).0, SplitKey(key).1], n as real)
  }

  function RouteSeries(key: string, n: nat): Series {
    Series("sonic_routing_route_entries", [SplitKey(key).0, SplitKey(key).1], n as real)
  }

  const NEIGHBORS := Table("NEIGH_TABLE:", HasInterface, NeighborPair, NeighborSeries)
  const ROUTES := Table("ROUTE_TABLE:", AnySuffix, RoutePair, RouteSeries)

  // ---------------------------------------------------------------- specification

  predicate WellFormed(t: Table, key: string) {
    Suffix(key, t.prefix).Some? && t.wellFormed(Suffix(key, t.prefix).value)
  }

  function Accepts(t: Table, store: Store): string -> bool {
    (key: string) => WellFormed(t, key) && store.Hash(APPL_DB, key) != map[]
  }

  function EntryReads(t: Table, store: Store): string -> bool {
    (key: string) => WellFormed(t, key) ==> store.Readable(HGetAll(APPL_DB, key))
  }

  function PairAt(t: Table, store: Store, key: string): (string, string) {
    match Suffix(key, t.prefix)
    case None => ("", "")
    case Some(suffix) => t.pair(suffix, store.Hash(APPL_DB, key))
  }

  function PairsOf(t: Table, store: Store): string -> (string, string) {
    (key: string) => PairAt(t, store, key)
  }

  function Composite(pair: (string, string)): string {
    pair.0 + "|" + pair.1
  }

  function ScanOf(t: Table, store: Store): seq<string> {
    store.Keys(APPL_DB, t.prefix + "*")
  }

  /** The pairs of the entries counted among the keys. */
  function CountedPairs(t: Table, store: Store, keys: seq<string>): seq<(string, string)> {
    Map(PairsOf(t, store), Filter(Accepts(t, store), keys))
  }

  function CountsOf(t: Table, store: Store, keys: seq<string>): Histogram {
    Tally(Map(Composite, CountedPairs(t, store, keys)))
  }

  function Shower(t: Table, h: Histogram): string -> Series {
    (key: string) => t.show(key, Count(h, key))
  }

  ghost function TableSeries(t: Table, h: Histogram): seq<Series> {
    Map(Shower(t, h), SortedSet(h.Keys))
  }

  /** A series shows the count, under the two halves of the composite key. */
  ghost predicate ShowsPairs(t: Table) {
    forall key, n :: t.show(key, n).value == n as real && t.show(key, n).labels == [SplitKey(key).0, SplitKey(key).1]
  }

  ghost predicate ShowsCounts(t: Table) {
    forall key, n :: t.show(key, n).value == n as real
  }

  lemma TablesShowPairs()
    ensures ShowsPairs(NEIGHBORS) && ShowsPairs(ROUTES)
    ensures ShowsCounts(NEIGHBORS) && ShowsCounts(ROUTES)
  {
  }

  /** The scanned keys of one table that are not counted. */
  function SkippedOf(t: Table, store: Store, scanned: seq<string>, max: nat): nat {
    Monus(|scanned|, |CountedPairs(t, store, Window(scanned, max))|)
  }

  function SkippedIn(t: Table, store: Store, max: nat): nat {
    SkippedOf(t, store, ScanOf(t, store), max)
  }

  /** The report for the keys that the two scans returned. */
  ghost function ReportOfScans(store: Store, limits: Limits, n: Table, r: Table, neighbors: seq<string>,
                               routes: seq<string>): Report {
    Report(TableSeries(n, CountsOf(n, store, Window(neighbors, limits.maxNeighbors)))
           + TableSeries(r, CountsOf(r, store, Window(routes, limits.maxRoutes))),
           SkippedOf(n, store, neighbors, limits.maxNeighbors) + SkippedOf(r, store, routes, limits.maxRoutes),
           |neighbors| > limits.maxNeighbors || |routes| > limits.maxRoutes)
  }

  ghost function ReportOf(store: Store, limits: Limits, n: Table, r: Table): Report {
    ReportOfScans(store, limits, n, r, ScanOf(n, store), ScanOf(r, store))
  }

  predicate Complete(store: Store, limits: Limits, n: Table, r: Table) {
    && store.Readable(Scan(APPL_DB, n.prefix + "*")) && store.Readable(Scan(APPL_DB, r.prefix + "*"))
    && EntriesReadable(store, limits, n, r)
  }

  // ---------------------------------------------------------------- the refresh

  /** One key of a counting loop: skipped, counted, or unreadable. */
  method CountKey(t: Table, store: Store, key: string, ghost before: seq<string>, counts: Histogram, skipped: nat,
                  ghost counted: nat)
    returns (failed: Option<Request>, counts': Histogram, skipped': nat, ghost counted': nat)
    requires counts == CountsOf(t, store, before) && counted == |CountedPairs(t, store, before)|
    requires Every(EntryReads(t, store), before)
    ensures failed.None? ==>
      && counts' == CountsOf(t, store, before + [key])
      && counted' == |CountedPairs(t, store, before + [key])|
      && Every(EntryReads(t, store), before + [key])
      && counted <= counted' <= counted + 1
      && skipped' + counted' == skipped + counted + 1
    ensures failed.Some? ==> !EntryReads(t, store)(key) && !store.Readable(failed.value)
  {
    failed, counts', skipped', counted' := None, counts, skipped, counted;
    CountStep(t, store, before, key);
    var suffix := Suffix(key, t.prefix);
    if suffix.None? || !t.wellFormed(suffix.value) {
      skipped' := skipped + 1;
    } else {
      var fields := store.ReadHash(APPL_DB, key);
      if fields.Failure? {
        failed := Some(fields.error);
      } else if |fields.value| == 0 {
        skipped' := skipped + 1;
      } else {
        counts' := Bump(counts, Composite(t.pair(suffix.value, fields.value)));
        counted' := counted + 1;
      }
    }
  }

  /** A counting loop after the keys in `seen`, none of them beyond the cap. */
  ghost predicate LoopHolds(t: Table, store: Store, seen: seq<string>, counts: Histogram, counted: nat, skipped: nat) {
    && counts == CountsOf(t, store, seen)
    && counted == |CountedPairs(t, store, seen)|
    && skipped + counted == |seen|
    && Every(EntryReads(t, store), seen)
  }

  /** The loop ends at the cap or with the last key; the keys from there on are skipped. */
  lemma LoopEnds(t: Table, store: Store, keys: seq<string>, max: nat, i: nat, counts: Histogram, counted: nat,
                 skipped: nat)
    requires i == Min(|keys|, max) && LoopHolds(t, store, keys[..i], counts, counted, skipped)
    ensures Every(EntryReads(t, store), Take(keys, max))
    ensures counts == CountsOf(t, store, Take(keys, max))
    ensures skipped + (|keys| - i) == Monus(|keys|, |CountedPairs(t, store, Take(keys, max))|)
  {
  }

  /** One of the two counting loops, over sorted keys up to an index cap. */
  method CountTable(t: Table, store: Store, keys: seq<string>, max: nat, skipped: nat, truncated: bool)
    returns (outcome: Result<Histogram, Request>, skipped': nat, truncated': bool)
    ensures outcome.Success? ==>
      && Every(EntryReads(t, store), Take(keys, max))
      && outcome.value == CountsOf(t, store, Take(keys, max))
      && skipped' == skipped + Monus(|keys|, |CountedPairs(t, store, Take(keys, max))|)
      && truncated' == (truncated || |keys| > max)
    ensures outcome.Failure? ==> !Every(EntryReads(t, store), Take(keys, max)) && !store.Readable(outcome.error)
  {
    var counts: Histogram := map[];
    skipped', truncated' := skipped, truncated;
    ghost var counted := 0;
    for index := 0 to |keys|
      invariant index <= max && skipped <= skipped' && truncated' == truncated
      invariant LoopHolds(t, store, keys[..index], counts, counted, skipped' - skipped)
    {
      if index >= max {
        LoopEnds(t, store, keys, max, index, counts, counted, skipped' - skipped);
        truncated' := true;
        skipped' := skipped' + (|keys| - index);
        return Success(counts), skipped', truncated';
      }
      var failed;
      failed, counts, skipped', counted := CountNext(t, store, keys, index, counts, skipped', counted, skipped);
      if failed.Some? {
        EveryFails(EntryReads(t, store), Take(keys, max), index);
        return Failure(failed.value), skipped', truncated';
      }
    }
    LoopEnds(t, store, keys, max, |keys|, counts, counted, skipped' - skipped);
    outcome := Success(counts);
  }

  /** The body of a counting loop. */
  method CountNext(t: Table, store: Store, keys: seq<string>, index: nat, counts: Histogram, skipped: nat,
                   ghost counted: nat, ghost before: nat)
    returns (failed: Option<Request>, counts': Histogram, skipped': nat, ghost counted': nat)
    requires index < |keys| && before <= skipped
    requires LoopHolds(t, store, keys[..index], counts, counted, skipped - before)
    ensures failed.None? ==>
      before <= skipped' && LoopHolds(t, store, keys[..index + 1], counts', counted', skipped' - before)
    ensures failed.Some? ==> !EntryReads(t, store)(keys[index]) && !store.Readable(failed.value)
  {
    TakeSnoc(keys, index);
    failed, counts', skipped', counted' := CountKey(t, store, keys[index], keys[..index], counts, skipped, counted);
  }

  lemma CountStep(t: Table, store: Store, keys: seq<string>, key: string)
    ensures Accepts(t, store)(key) ==>
      && CountsOf(t, store, keys + [key]) == Bump(CountsOf(t, store, keys), Composite(PairAt(t, store, key)))
      && |CountedPairs(t, store, keys + [key])| == |CountedPairs(t, store, keys)| + 1
    ensures !Accepts(t, store)(key) ==> CountedPairs(t, store, keys + [key]) == CountedPairs(t, store, keys)
    ensures Every(EntryReads(t, store), keys + [key])
         <==> Every(EntryReads(t, store), keys) && EntryReads(t, store)(key)
  {
    assert (keys + [key])[..|keys|] == keys;
    var accepted := Filter(Accepts(t, store), keys);
    assert (accepted + [key])[..|accepted|] == accepted;
    TallyPairsSnoc(CountedPairs(t, store, keys), PairAt(t, store, key));
  }

  lemma TallyPairsSnoc(pairs: seq<(string, string)>, pair: (string, string))
    ensures Tally(Map(Composite, pairs + [pair])) == Bump(Tally(Map(Composite, pairs)), Composite(pair))
  {
    assert (pairs + [pair])[..|pairs|] == pairs;
    var labels := Map(Composite, pairs);
    assert (labels + [Composite(pair)])[..|labels|] == labels;
  }

  method ScrapeRouting(limits: Limits, filter: MetricFilter, store: Store) returns (outcome: Result<Report, Request>)
    ensures store.Answers(Complete(store, limits, NEIGHBORS, ROUTES),
                          ReportOf(store, limits, NEIGHBORS, ROUTES).Filtered(filter), outcome)
  {
    outcome := ScrapeTables(limits, filter, store, NEIGHBORS, ROUTES);
  }

  /** The entries of both tables can be read. */
  predicate EntriesReadable(store: Store, limits: Limits, n: Table, r: Table) {
    && Every(EntryReads(n, store), Window(ScanOf(n, store), limits.maxNeighbors))
    && Every(EntryReads(r, store), Window(ScanOf(r, store), limits.maxRoutes))
  }

  /** Both counting loops, one after the other. */
  method CountBoth(limits: Limits, store: Store, n: Table, r: Table)
    returns (outcome: Result<(Histogram, Histogram), Request>, skipped: nat, truncated: bool)
    ensures outcome.Failure? ==> !EntriesReadable(store, limits, n, r) && !store.Readable(outcome.error)
    ensures outcome.Success? ==>
      && EntriesReadable(store, limits, n, r)
      && outcome.value.0 == CountsOf(n, store, Window(ScanOf(n, store), limits.maxNeighbors))
      && outcome.value.1 == CountsOf(r, store, Window(ScanOf(r, store), limits.maxRoutes))
      && skipped == SkippedIn(n, store, limits.maxNeighbors) + SkippedIn(r, store, limits.maxRoutes)
      && truncated == (|ScanOf(n, store)| > limits.maxNeighbors || |ScanOf(r, store)| > limits.maxRoutes)
  {
    SortLength(Self, ScanOf(n, store));
    SortLength(Self, ScanOf(r, store));
    var neighborCounts;
    neighborCounts, skipped, truncated := CountTable(n, store, Sort(Self, ScanOf(n, store)), limits.maxNeighbors, 0,
                                                     false);
    if neighborCounts.Failure? {
      return Failure(neighborCounts.error), skipped, truncated;
    }
    var routeCounts;
    routeCounts, skipped, truncated := CountTable(r, store, Sort(Self, ScanOf(r, store)), limits.maxRoutes, skipped,
                                                  truncated);
    if routeCounts.Failure? {
      return Failure(routeCounts.error), skipped, truncated;
    }
    outcome := Success((neighborCounts.value, routeCounts.value));
  }

  method EmitBoth(filter: MetricFilter, n: Table, neighborCounts: Histogram, r: Table, routeCounts: Histogram)
    returns (metrics: seq<Series>)
    ensures metrics == filter.Keep(TableSeries(n, neighborCounts) + TableSeries(r, routeCounts))
  {
    metrics := EmitTable(filter, n, neighborCounts, [], []);
    assert [] + TableSeries(n, neighborCounts) == TableSeries(n, neighborCounts);
    metrics := EmitTable(filter, r, routeCounts, metrics, TableSeries(n, neighborCounts));
  }

  /** Appends the series of one table to what is already emitted, which is `full` unfiltered. */
  method EmitTable(filter: MetricFilter, t: Table, counts: Histogram, metrics: seq<Series>, ghost full: seq<Series>)
    returns (metrics': seq<Series>)
    requires metrics == filter.Keep(full)
    ensures metrics' == filter.Keep(full + TableSeries(t, counts))
  {
    metrics' := EmitAll(filter, Shower(t, counts), counts, metrics);
    filter.KeepAppend(full, TableSeries(t, counts));
  }

  method ScrapeTables(limits: Limits, filter: MetricFilter, store: Store, n: Table, r: Table)
    returns (outcome: Result<Report, Request>)
    ensures store.Answers(Complete(store, limits, n, r), ReportOf(store, limits, n, r).Filtered(filter), outcome)
  {
    var neighborKeys := store.ScanKeys(APPL_DB, n.prefix + "*");
    if neighborKeys.Failure? {
      return Failure(neighborKeys.error);
    }
    var routeKeys := store.ScanKeys(APPL_DB, r.prefix + "*");
    if routeKeys.Failure? {
      return Failure(routeKeys.error);
    }
    var counted, skipped, truncated := CountBoth(limits, store, n, r);
    if counted.Failure? {
      return Failure(counted.error);
    }
    var (neighborCounts, routeCounts) := counted.value;
    var metrics := EmitBoth(filter, n, neighborCounts, r, routeCounts);
    outcome := Success(Report(metrics, skipped, truncated));
  }

  // ---------------------------------------------------------------- conservation

  /** The series of a table add up to its counted entries. */
  lemma TableSeriesSum(t: Table, store: Store, keys: seq<string>)
    requires ShowsCounts(t)
    ensures SumValues(TableSeries(t, CountsOf(t, store, keys))) == |CountedPairs(t, store, keys)| as real
  {
    var names := Map(Composite, CountedPairs(t, store, keys));
    var h := Tally(names);
    SortedSetProperties(h.Keys);
    TallyCounts(names);
    TotalTally(names, SortedSet(h.Keys));
    SeriesSum(Shower(t, h), h, SortedSet(h.Keys));
  }

  lemma WindowSize(t: Table, store: Store, max: nat)
    ensures |CountedPairs(t, store, Window(ScanOf(t, store), max))| <= |ScanOf(t, store)|
  {
    SortLength(Self, ScanOf(t, store));
  }

  /** All emitted counts and the skip counter together are the number of scanned keys. */
  lemma RoutingConserves(store: Store, limits: Limits, n: Table, r: Table)
    requires ShowsCounts(n) && ShowsCounts(r)
    ensures var report := ReportOf(store, limits, n, r);
            SumValues(report.series) + report.skipped as real == (|ScanOf(n, store)| + |ScanOf(r, store)|) as real
  {
    var nw, rw := Window(ScanOf(n, store), limits.maxNeighbors), Window(ScanOf(r, store), limits.maxRoutes);
    WindowSize(n, store, limits.maxNeighbors);
    WindowSize(r, store, limits.maxRoutes);
    TableSeriesSum(n, store, nw);
    TableSeriesSum(r, store, rw);
    SumValuesAppend(TableSeries(n, CountsOf(n, store, nw)), TableSeries(r, CountsOf(r, store, rw)));
  }

  /** The order in which the two scans return their keys does not reach the report. */
  lemma RoutingScanOrderIrrelevant(store: Store, limits: Limits, n: Table, r: Table, a: seq<string>, a': seq<string>,
                                   b: seq<string>, b': seq<string>)
    requires multiset(a) == multiset(a') && multiset(b) == multiset(b')
    ensures ReportOfScans(store, limits, n, r, a, b) == ReportOfScans(store, limits, n, r, a', b')
  {
    SortStringsPermutation(a, a');
    SortStringsPermutation(b, b');
    PermutationLength(a, a');
    PermutationLength(b, b');
  }

  // ---------------------------------------------------------------- composite keys

  /** The two label values an entry with this pair is shown under: the first two "|"-separated parts of both halves. */
  function ShownPair(pair: (string, string)): (string, string) {
    if '|' in pair.0 then SplitKey(pair.0) else (pair.0, Split(pair.1, '|')[0])
  }

  /** What splitting a composite key recovers, for every pair. */
  lemma SplitKeyComposite(pair: (string, string))
    ensures SplitKey(Composite(pair)) == ShownPair(pair)
  {
    assert Composite(pair) == pair.0 + ['|'] + pair.1;
    SplitAppend(pair.0, '|', pair.1);
    SplitProperties(pair.0, '|');
    SplitProperties(pair.1, '|');
    CutProperties(pair.0, '|');
    if '|' in pair.0 {
      SplitProperties(Cut(pair.0, '|').value.1, '|');
    }
  }

  /** Splitting a composite key gives the pair back exactly when neither half contains the separator. */
  lemma SplitComposite(pair: (string, string))
    ensures SplitKey(Composite(pair)) == pair <==> '|' !in pair.0 && '|' !in pair.1
  {
    SplitProperties(Composite(pair), '|');
    var parts := Split(Composite(pair), '|');
    if '|' !in pair.0 {
      CutUnique(pair.0, '|', pair.1);
      assert Composite(pair) == pair.0 + ['|'] + pair.1;
      SplitProperties(pair.1, '|');
      CutProperties(pair.1, '|');
    } else {
      assert parts[0] in parts;
    }
  }

  // ---------------------------------------------------------------- label sets

  /** No two series have the same labels. */
  ghost predicate LabelsDistinct(series: seq<Series>) {
    forall i, j :: 0 <= i < j < |series| ==> series[i].labels != series[j].labels
  }

  /** Two pairs that are counted apart but shown under the same labels. */
  predicate Collide(p: (string, string), q: (string, string)) {
    Composite(p) != Composite(q) && ShownPair(p) == ShownPair(q)
  }

  ghost predicate NoneCollide(pairs: seq<(string, string)>) {
    forall p, q :: p in pairs && q in pairs ==> !Collide(p, q)
  }

  /** The composite keys of the pairs, each once. */
  ghost predicate Keys(names: seq<string>, pairs: seq<(string, string)>) {
    Distinct(names) && forall name :: name in names <==> name in Map(Composite, pairs)
  }

  lemma TableKeys(t: Table, store: Store, keys: seq<string>)
    ensures Keys(SortedSet(CountsOf(t, store, keys).Keys), CountedPairs(t, store, keys))
  {
    TallyCounts(Map(Composite, CountedPairs(t, store, keys)));
    SortedSetProperties(CountsOf(t, store, keys).Keys);
  }

  lemma KeySource(names: seq<string>, pairs: seq<(string, string)>, i: nat) returns (pair: (string, string))
    requires Keys(names, pairs) && i < |names|
    ensures pair in pairs && Composite(pair) == names[i] && SplitKey(names[i]) == ShownPair(pair)
  {
    assert names[i] in names;
    var k: nat :| k < |pairs| && Map(Composite, pairs)[k] == names[i];
    pair := pairs[k];
    SplitKeyComposite(pair);
  }

  lemma KeyOf(names: seq<string>, pairs: seq<(string, string)>, pair: (string, string)) returns (i: nat)
    requires Keys(names, pairs) && pair in pairs
    ensures i < |names| && names[i] == Composite(pair) && SplitKey(names[i]) == ShownPair(pair)
  {
    var k: nat :| k < |pairs| && pairs[k] == pair;
    assert Map(Composite, pairs)[k] == Composite(pair) && Composite(pair) in names;
    i :| 0 <= i < |names| && names[i] == Composite(pair);
    SplitKeyComposite(pair);
  }

  ghost predicate SplitsDistinct(names: seq<string>) {
    forall i, j :: 0 <= i < j < |names| ==> SplitKey(names[i]) != SplitKey(names[j])
  }

  lemma SplitsDistinctExactly(names: seq<string>, pairs: seq<(string, string)>)
    requires Keys(names, pairs)
    ensures SplitsDistinct(names) <==> NoneCollide(pairs)
  {
    if NoneCollide(pairs) {
      forall i, j | 0 <= i < j < |names| ensures SplitKey(names[i]) != SplitKey(names[j]) {
        var p := KeySource(names, pairs, i);
        var q := KeySource(names, pairs, j);
        assert !Collide(p, q);
      }
    } else {
      var p, q :| p in pairs && q in pairs && Collide(p, q);
      var i := KeyOf(names, pairs, p);
      var j := KeyOf(names, pairs, q);
      assert i != j;
    }
  }

  lemma PairLabels(a: (string, string), b: (string, string))
    ensures [a.0, a.1] == [b.0, b.1] <==> a == b
  {
    var s, t := [a.0, a.1], [b.0, b.1];
    assert s[0] == a.0 && s[1] == a.1 && t[0] == b.0 && t[1] == b.1;
  }

  ghost predicate ShowsSplit(show: string -> Series) {
    forall key :: show(key).labels == [SplitKey(key).0, SplitKey(key).1]
  }

  lemma ShowerShows(t: Table, h: Histogram)
    requires ShowsPairs(t)
    ensures ShowsSplit(Shower(t, h))
  {
    forall key ensures Shower(t, h)(key).labels == [SplitKey(key).0, SplitKey(key).1] {
      assert Shower(t, h)(key) == t.show(key, Count(h, key));
    }
  }

  lemma LabelsDistinctExactly(show: string -> Series, names: seq<string>)
    requires ShowsSplit(show)
    ensures LabelsDistinct(Map(show, names)) <==> SplitsDistinct(names)
  {
    var series := Map(show, names);
    forall i, j | 0 <= i < j < |names|
      ensures series[i].labels == series[j].labels <==> SplitKey(names[i]) == SplitKey(names[j])
    {
      PairLabels(SplitKey(names[i]), SplitKey(names[j]));
    }
  }

  /** Exactly when the label sets of a table are pairwise distinct: when no two counted pairs collide. */
  lemma LabelSetsDistinct(t: Table, store: Store, keys: seq<string>)
    requires ShowsPairs(t)
    ensures LabelsDistinct(TableSeries(t, CountsOf(t, store, keys))) <==> NoneCollide(CountedPairs(t, store, keys))
  {
    var h := CountsOf(t, store, keys);
    TableKeys(t, store, keys);
    ShowerShows(t, h);
    SplitsDistinctExactly(SortedSet(h.Keys), CountedPairs(t, store, keys));
    LabelsDistinctExactly(Shower(t, h), SortedSet(h.Keys));
  }

  /** In particular no pairs collide when no interface, family or protocol contains the separator. */
  lemma PipeFreeNoneCollide(pairs: seq<(string, string)>)
    requires forall p :: p in pairs ==> '|' !in p.0 && '|' !in p.1
    ensures NoneCollide(pairs)
  {
    forall p, q | p in pairs && q in pairs ensures !Collide(p, q) {
      SplitComposite(p);
      SplitComposite(q);
      SplitKeyComposite(p);
      SplitKeyComposite(q);
    }
  }

  /** Two routes with the protocols "a|b" and "a|c" are counted apart and emitted under the same labels. */
  lemma RoutesCollide(store: Store, x: string, y: string)
    requires x == "ROUTE_TABLE:10.0.0.0/8" && store.Hash(APPL_DB, x) == map["protocol" := "a|b"]
    requires y == "ROUTE_TABLE:11.0.0.0/8" && store.Hash(APPL_DB, y) == map["protocol" := "a|c"]
    ensures CountedPairs(ROUTES, store, [x, y]) == [("ipv4", "a|b"), ("ipv4", "a|c")]
    ensures !LabelsDistinct(TableSeries(ROUTES, CountsOf(ROUTES, store, [x, y])))
  {
    FirstRoute(store, x);
    SecondRoute(store, y);
    TablesShowPairs();
    ProtocolsCollide();
    TwoEntriesCollide(ROUTES, store, x, y, ("ipv4", "a|b"), ("ipv4", "a|c"));
  }

  lemma FirstRoute(store: Store, key: string)
    requires key == "ROUTE_TABLE:10.0.0.0/8" && store.Hash(APPL_DB, key) == map["protocol" := "a|b"]
    ensures Accepts(ROUTES, store)(key) && PairAt(ROUTES, store, key) == ("ipv4", "a|b")
  {
    LowerTextStays("a|b");
    RouteCounted(store, key, "10.0.0.0/8", "a|b");
  }

  lemma SecondRoute(store: Store, key: string)
    requires key == "ROUTE_TABLE:11.0.0.0/8" && store.Hash(APPL_DB, key) == map["protocol" := "a|c"]
    ensures Accepts(ROUTES, store)(key) && PairAt(ROUTES, store, key) == ("ipv4", "a|c")
  {
    LowerTextStays("a|c");
    RouteCounted(store, key, "11.0.0.0/8", "a|c");
  }

  lemma TwoEntriesCollide(t: Table, store: Store, x: string, y: string, p: (string, string), q: (string, string))
    requires ShowsPairs(t) && Accepts(t, store)(x) && Accepts(t, store)(y)
    requires PairAt(t, store, x) == p && PairAt(t, store, y) == q && Collide(p, q)
    ensures CountedPairs(t, store, [x, y]) == [p, q]
    ensures !LabelsDistinct(TableSeries(t, CountsOf(t, store, [x, y])))
  {
    TwoCounted(t, store, x, y);
    assert p in [p, q] && q in [p, q];
    LabelSetsDistinct(t, store, [x, y]);
  }

  lemma TwoCounted(t: Table, store: Store, a: string, b: string)
    requires Accepts(t, store)(a) && Accepts(t, store)(b)
    ensures CountedPairs(t, store, [a, b]) == [PairAt(t, store, a), PairAt(t, store, b)]
  {
    assert [a, b][..1] == [a] && [a][..0] == [];
    assert Filter(Accepts(t, store), [a]) == [a];
    assert Filter(Accepts(t, store), [a, b]) == [a, b];
  }

  lemma ProtocolsCollide()
    ensures Collide(("ipv4", "a|b"), ("ipv4", "a|c"))
  {
    assert "a" + ['|'] + "b" == "a|b" && "a" + ['|'] + "c" == "a|c";
    SplitAppend("a", '|', "b");
    SplitAppend("a", '|', "c");
    CutProperties("a", '|');
    CutProperties("ipv4", '|');
    assert Composite(("ipv4", "a|b"))[7] == 'b' && Composite(("ipv4", "a|c"))[7] == 'c';
  }

  lemma RouteCounted(store: Store, key: string, prefix: string, protocol: string)
    requires key == "ROUTE_TABLE:" + prefix && prefix != "" && ':' !in prefix
    requires store.Hash(APPL_DB, key) == map["protocol" := protocol]
    requires protocol != "" && TrimSpace(protocol) == protocol && ToLower(protocol) == protocol
    ensures Accepts(ROUTES, store)(key) && PairAt(ROUTES, store, key) == ("ipv4", protocol)
  {
    assert Suffix(key, "ROUTE_TABLE:") == Some(prefix);
    var fields := store.Hash(APPL_DB, key);
    assert "protocol" in fields && Get(fields, "protocol") == protocol;
  }
}
