/**
 * The docker collector as an object: its cached fields, the refresh that fills them, and the collect that reads them.
 */
module DockerCache {
  import opened Results
  import opened Sequences
  import opened Redis
  import opened Strings
  import opened Metrics
  import opened AcceptedCap
  import opened DockerCollector
  import opened SnapshotCache

  // ---------------------------------------------------------------- what a collect emits

  /** The families of the gauges that accompany the cached series. */
  datatype GaugeNames = GaugeNames(containers: string, lastUpdate: string, sourceAge: string, stale: string,
                                   skipped: string, duration: string, success: string, cacheAge: string)

  const DOCKER_GAUGES := GaugeNames(
    "sonic_docker_containers", "sonic_docker_source_last_update_timestamp_seconds", "sonic_docker_source_age_seconds",
    "sonic_docker_source_stale", "sonic_docker_entries_skipped", "sonic_docker_scrape_duration_seconds",
    "sonic_docker_collector_success", "sonic_docker_cache_age_seconds")

  const NANOS_PER_SECOND := 1_000_000_000

  function Seconds(nanos: int): real {
    nanos as real / NANOS_PER_SECOND as real
  }

  function Flag(b: bool): real {
    if b then 1.0 else 0.0
  }

  /** The whole seconds since the epoch, rounded down. */
  function Timestamp(t: Option<int>): real {
    match t
    case None => 0.0
    case Some(at) => (at / NANOS_PER_SECOND) as real
  }

  function Age(t: Option<int>, now: int): real {
    match t
    case None => 0.0
    case Some(at) => Seconds(now - at)
  }

  function NotNegative(x: real): real {
    if x < 0.0 then 0.0 else x
  }

  function Gauges(names: GaugeNames, s: Snapshot, now: int): seq<Series> {
    [Series(names.containers, [], s.containers as real),
     Series(names.lastUpdate, [], Timestamp(s.sourceTime)),
     Series(names.sourceAge, [], NotNegative(Age(s.sourceTime, now))),
     Series(names.stale, [], Flag(s.stale)),
     Series(names.skipped, [], s.skipped as real),
     Series(names.duration, [], s.duration),
     Series(names.success, [], Flag(s.success)),
     Series(names.cacheAge, [], Age(s.refreshTime, now))]
  }

  /** The cached series were filtered when they were built; the gauges are filtered on emission. */
  function Emission(filter: MetricFilter, names: GaugeNames, s: Snapshot, now: int): seq<Series> {
    s.series + filter.Keep(Gauges(names, s, now))
  }

  // ---------------------------------------------------------------- how a refresh ends

  datatype Config = Config(enabled: bool, maxContainers: nat, staleThreshold: nat, parse: ParseNumber,
                           parseTime: ParseTime)

  /** The tables as one refresh finds them, None if no client could be made, and the clock readings it takes. */
  datatype Attempt = Attempt(store: Option<Store>, now: int, duration: real, published: int)

  function SourceOf(config: Config): Source {
    DockerSource(config.parse, config.parseTime)
  }

  /** A refresh succeeds, with the report of its tables, exactly when all its requests are answered. */
  ghost predicate Ends(config: Config, filter: MetricFilter, a: Attempt, o: Outcome) {
    && o.duration == a.duration
    && if a.store.Some? && DockerComplete(SourceOf(config), config.maxContainers, a.store.value)
       then o.Succeeded? && o.at == a.published && Reports(config, filter, a.store.value, a.now, o.report)
       else o.Failed?
  }

  ghost predicate Reports(config: Config, filter: MetricFilter, store: Store, now: int, report: DockerReport) {
    exists raw :: ResolvesTo(store.Hash(STATE_DB, SourceOf(config).updateKey), raw)
      && report == ReportWith(SourceOf(config), config.maxContainers, config.staleThreshold, now, store, raw, filter)
  }

  /** Each outcome is that of some refresh. */
  ghost predicate Ran(config: Config, filter: MetricFilter, history: seq<Outcome>) {
    forall i :: 0 <= i < |history| ==> OfRefresh(config, filter, history[i])
  }

  ghost predicate OfRefresh(config: Config, filter: MetricFilter, o: Outcome) {
    exists a: Attempt :: Ends(config, filter, a, o)
  }

  lemma RanSnoc(config: Config, filter: MetricFilter, history: seq<Outcome>, o: Outcome)
    requires Ran(config, filter, history) && OfRefresh(config, filter, o)
    ensures Ran(config, filter, history + [o])
  {
  }

  // ---------------------------------------------------------------- what the gauges tell

  /** The family has exactly this one sample, or none if it is disabled. */
  ghost predicate Shows(filter: MetricFilter, emitted: seq<Series>, family: string, value: real) {
    OfFamily(family, emitted) == if filter.Enabled(family) then [Series(family, [], value)] else []
  }

  ghost predicate LatestIs(history: seq<Outcome>, i: int) {
    && 0 <= i < |history| && history[i].Succeeded?
    && forall j :: i < j < |history| ==> history[j].Failed?
  }

  ghost predicate NoneSucceeded(history: seq<Outcome>) {
    forall i :: 0 <= i < |history| ==> history[i].Failed?
  }

  /** The gauges about the last refresh. */
  ghost predicate LastTold(filter: MetricFilter, history: seq<Outcome>, emitted: seq<Series>) {
    if history == [] then
      && Shows(filter, emitted, "sonic_docker_collector_success", 0.0)
      && Shows(filter, emitted, "sonic_docker_scrape_duration_seconds", 0.0)
    else
      var last := history[|history| - 1];
      && Shows(filter, emitted, "sonic_docker_collector_success", if last.Succeeded? then 1.0 else 0.0)
      && Shows(filter, emitted, "sonic_docker_scrape_duration_seconds", last.duration)
  }

  /** The gauges about the data, which are those of one successful refresh. */
  ghost predicate DataTold(filter: MetricFilter, report: DockerReport, at: int, now: int, emitted: seq<Series>) {
    && Shows(filter, emitted, "sonic_docker_containers", report.containers as real)
    && Shows(filter, emitted, "sonic_docker_entries_skipped", report.skipped as real)
    && Shows(filter, emitted, "sonic_docker_source_stale", if report.stale then 1.0 else 0.0)
    && Shows(filter, emitted, "sonic_docker_cache_age_seconds", (now - at) as real / 1_000_000_000.0)
    && SourceTold(filter, report.sourceTime, now, emitted)
  }

  /** Whole seconds of the source's time and its age in seconds, which is never negative; zero if it is not known. */
  ghost predicate SourceTold(filter: MetricFilter, sourceTime: Option<int>, now: int, emitted: seq<Series>) {
    match sourceTime
    case None =>
      && Shows(filter, emitted, "sonic_docker_source_last_update_timestamp_seconds", 0.0)
      && Shows(filter, emitted, "sonic_docker_source_age_seconds", 0.0)
    case Some(at) =>
      && Shows(filter, emitted, "sonic_docker_source_last_update_timestamp_seconds", (at / 1_000_000_000) as real)
      && Shows(filter, emitted, "sonic_docker_source_age_seconds",
               if at <= now then (now - at) as real / 1_000_000_000.0 else 0.0)
  }

  ghost predicate NoDataTold(filter: MetricFilter, emitted: seq<Series>) {
    && Shows(filter, emitted, "sonic_docker_containers", 0.0)
    && Shows(filter, emitted, "sonic_docker_entries_skipped", 0.0)
    && Shows(filter, emitted, "sonic_docker_source_stale", 0.0)
    && Shows(filter, emitted, "sonic_docker_cache_age_seconds", 0.0)
    && Shows(filter, emitted, "sonic_docker_source_last_update_timestamp_seconds", 0.0)
    && Shows(filter, emitted, "sonic_docker_source_age_seconds", 0.0)
  }

  /** The gauges tell of the last refresh and of the last successful one. */
  ghost predicate GaugesTell(filter: MetricFilter, history: seq<Outcome>, now: int, emitted: seq<Series>) {
    && LastTold(filter, history, emitted)
    && (forall i :: LatestIs(history, i) ==> DataTold(filter, history[i].report, history[i].at, now, emitted))
    && (NoneSucceeded(history) ==> NoDataTold(filter, emitted))
  }

  ghost predicate FamiliesDiffer(series: seq<Series>) {
    forall i, j :: 0 <= i < j < |series| ==> series[i].family != series[j].family
  }

  lemma {:induction false} OneOfFamily(filter: MetricFilter, series: seq<Series>, k: nat)
    requires k < |series| && FamiliesDiffer(series)
    ensures OfFamily(series[k].family, filter.Keep(series))
         == if filter.Enabled(series[k].family) then [series[k]] else []
  {
    var front, last := series[..|series| - 1], series[|series| - 1];
    filter.KeepAppend(front, [last]);
    assert series == front + [last];
    if k < |front| {
      OneOfFamily(filter, front, k);
    } else {
      FilterMembers(filter.Keeps(), front);
      FilterAll(InFamily(last.family), filter.Keep(front));
    }
  }

  /** Behind series of other families, the samples of enabled families are found as they are. */
  lemma ShowsAt(filter: MetricFilter, base: seq<Series>, samples: seq<Series>, k: nat)
    requires k < |samples| && FamiliesDiffer(samples) && samples[k].labels == []
    requires forall s :: s in base ==> s.family != samples[k].family
    ensures Shows(filter, base + filter.Keep(samples), samples[k].family, samples[k].value)
  {
    var family := samples[k].family;
    FilterAppend(InFamily(family), base, filter.Keep(samples));
    FilterAll(InFamily(family), base);
    OneOfFamily(filter, samples, k);
  }

  /** Families of containers begin with the subsystem and the word container. */
  predicate ContainerFamily(family: string) {
    |family| > 22 && family[15] == 'n' && family[22] == '_'
  }

  ghost predicate ContainerSeries(series: seq<Series>) {
    forall s :: s in series ==> ContainerFamily(s.family)
  }

  lemma GaugeFamilies(s: Snapshot, now: int)
    ensures FamiliesDiffer(Gauges(DOCKER_GAUGES, s, now))
    ensures forall g :: g in Gauges(DOCKER_GAUGES, s, now) ==> !ContainerFamily(g.family) && g.labels == []
  {
    GaugeLengths();
    DifferByLength(DOCKER_GAUGES, s, now);
  }

  /** The lengths of the gauge names tell them apart, but for two. */
  ghost predicate LengthsTell(n: GaugeNames) {
    && |n.containers| == 23 && |n.lastUpdate| == 49 && |n.sourceAge| == 31 && |n.stale| == 25
    && |n.skipped| == 28 && |n.duration| == 36 && |n.success| == |n.cacheAge| == 30
    && n.success[14] != n.cacheAge[14]
    && n.containers[22] == 's' && n.lastUpdate[15] == 'u' && n.sourceAge[15] == 'u' && n.stale[15] == 'u'
    && n.skipped[15] == 't' && n.duration[15] == 'r' && n.success[15] == 'l' && n.cacheAge[15] == 'c'
  }

  lemma GaugeLengths()
    ensures LengthsTell(DOCKER_GAUGES)
  {
  }

  lemma DifferByLength(n: GaugeNames, s: Snapshot, now: int)
    requires LengthsTell(n)
    ensures FamiliesDiffer(Gauges(n, s, now))
    ensures forall g :: g in Gauges(n, s, now) ==> !ContainerFamily(g.family) && g.labels == []
  {
  }

  lemma FieldFamilies()
    ensures forall i :: 0 <= i < |DOCKER_FIELDS| ==> ContainerFamily(DOCKER_FIELDS[i].1)
  {
  }

  lemma {:induction false} NumberFamiliesOf(parse: ParseNumber, fields: Fields, container: string,
                                            numbers: seq<(string, string)>)
    requires forall i :: 0 <= i < |numbers| ==> ContainerFamily(numbers[i].1)
    ensures ContainerSeries(FlatMap(NumberSeries(parse, fields, container), numbers))
  {
    if numbers != [] {
      NumberFamiliesOf(parse, fields, container, numbers[..|numbers| - 1]);
    }
  }

  lemma JudgedFamilies(parse: ParseNumber, store: Store, key: string)
    ensures ContainerSeries(SeriesAt(DockerRules(parse), store, key))
  {
    FieldFamilies();
    JudgedFamiliesOf(parse, DOCKER_FIELDS, key, store.Hash(STATE_DB, key));
  }

  lemma JudgedFamiliesOf(parse: ParseNumber, numbers: seq<(string, string)>, key: string, fields: Fields)
    requires forall i :: 0 <= i < |numbers| ==> ContainerFamily(numbers[i].1)
    ensures var verdict := DockerJudge(parse, numbers)(key, fields);
            verdict.Accepted? ==> ContainerSeries(verdict.series)
  {
    NumberFamiliesOf(parse, fields, TrimSpace(Get(fields, "NAME")), numbers);
  }

  lemma {:induction false} ReportedFamilies(parse: ParseNumber, store: Store, keys: seq<string>)
    ensures ContainerSeries(FlatMap(SeriesFor(DockerRules(parse), store), keys))
  {
    if keys != [] {
      ReportedFamilies(parse, store, keys[..|keys| - 1]);
      JudgedFamilies(parse, store, keys[|keys| - 1]);
    }
  }

  /** What a refresh caches are series of containers. */
  lemma CachedFamilies(config: Config, filter: MetricFilter, a: Attempt, o: Outcome)
    requires Ends(config, filter, a, o) && o.Succeeded?
    ensures ContainerSeries(o.report.series)
  {
    var src, store := SourceOf(config), a.store.value;
    var full := ContainerReport(src, config.maxContainers, store).series;
    ReportedFamilies(config.parse, store, Chosen(src.rules, store, ContainerKeys(src, store), config.maxContainers));
    FilterMembers(filter.Keeps(), full);
  }

  lemma {:induction false} ServedFamilies(config: Config, filter: MetricFilter, history: seq<Outcome>)
    requires Ran(config, filter, history)
    ensures ContainerSeries(Served(history).series)
  {
    if history != [] {
      var front, last := history[..|history| - 1], history[|history| - 1];
      assert OfRefresh(config, filter, last);
      ServedFamilies(config, filter, front);
      Published(Served(front), last);
      var a: Attempt :| Ends(config, filter, a, last);
      if last.Succeeded? {
        CachedFamilies(config, filter, a, last);
      }
    }
  }

  /** Each gauge shows its field of a snapshot. */
  ghost predicate SnapshotTold(filter: MetricFilter, s: Snapshot, now: int, emitted: seq<Series>) {
    && Shows(filter, emitted, "sonic_docker_containers", s.containers as real)
    && Shows(filter, emitted, "sonic_docker_source_last_update_timestamp_seconds", Timestamp(s.sourceTime))
    && Shows(filter, emitted, "sonic_docker_source_age_seconds", NotNegative(Age(s.sourceTime, now)))
    && Shows(filter, emitted, "sonic_docker_source_stale", Flag(s.stale))
    && Shows(filter, emitted, "sonic_docker_entries_skipped", s.skipped as real)
    && Shows(filter, emitted, "sonic_docker_scrape_duration_seconds", s.duration)
    && Shows(filter, emitted, "sonic_docker_collector_success", Flag(s.success))
    && Shows(filter, emitted, "sonic_docker_cache_age_seconds", Age(s.refreshTime, now))
  }

  lemma GaugesShow(filter: MetricFilter, s: Snapshot, now: int)
    requires ContainerSeries(s.series)
    ensures SnapshotTold(filter, s, now, Emission(filter, DOCKER_GAUGES, s, now))
  {
    GaugeFamilies(s, now);
    NamedGaugesShow(filter, DOCKER_GAUGES, s, now);
  }

  lemma NamedGaugesShow(filter: MetricFilter, n: GaugeNames, s: Snapshot, now: int)
    requires ContainerSeries(s.series) && FamiliesDiffer(Gauges(n, s, now))
    requires forall g :: g in Gauges(n, s, now) ==> !ContainerFamily(g.family) && g.labels == []
    ensures var e := Emission(filter, n, s, now);
            && Shows(filter, e, n.containers, s.containers as real)
            && Shows(filter, e, n.lastUpdate, Timestamp(s.sourceTime))
            && Shows(filter, e, n.sourceAge, NotNegative(Age(s.sourceTime, now)))
            && Shows(filter, e, n.stale, Flag(s.stale))
            && Shows(filter, e, n.skipped, s.skipped as real)
            && Shows(filter, e, n.duration, s.duration)
            && Shows(filter, e, n.success, Flag(s.success))
            && Shows(filter, e, n.cacheAge, Age(s.refreshTime, now))
  {
    var g := Gauges(n, s, now);
    forall k | 0 <= k < |g| ensures Shows(filter, s.series + filter.Keep(g), g[k].family, g[k].value) {
      assert g[k] in g;
      ShowsAt(filter, s.series, g, k);
    }
    assert g[0].family == n.containers && g[1].family == n.lastUpdate && g[2].family == n.sourceAge;
    assert g[3].family == n.stale && g[4].family == n.skipped && g[5].family == n.duration;
    assert g[6].family == n.success && g[7].family == n.cacheAge;
  }

  lemma {:induction false} LatestFound(history: seq<Outcome>)
    ensures forall i :: LatestIs(history, i) ==> LatestSuccess(history) == Some(history[i])
    ensures NoneSucceeded(history) ==> LatestSuccess(history) == None
  {
    if history != [] {
      var front, last := history[..|history| - 1], history[|history| - 1];
      LatestFound(front);
      forall i | LatestIs(history, i) ensures LatestSuccess(history) == Some(history[i]) {
        if i < |front| {
          assert LatestIs(front, i) && last.Failed?;
        }
      }
    }
  }

  lemma AgeInSeconds(at: int, now: int)
    ensures NotNegative(Age(Some(at), now)) == if at <= now then (now - at) as real / 1_000_000_000.0 else 0.0
  {
    if now < at {
      assert (now - at) as real / 1_000_000_000.0 < 0.0;
    }
  }

  lemma SuccessTold(filter: MetricFilter, s: Snapshot, o: Outcome, now: int, emitted: seq<Series>)
    requires SnapshotTold(filter, s, now, emitted) && o.Succeeded?
    requires s == Values(o).(duration := s.duration, success := s.success)
    ensures DataTold(filter, o.report, o.at, now, emitted)
  {
    if o.report.sourceTime.Some? {
      AgeInSeconds(o.report.sourceTime.value, now);
    }
  }

  lemma NothingTold(filter: MetricFilter, s: Snapshot, now: int, emitted: seq<Series>)
    requires SnapshotTold(filter, s, now, emitted)
    requires s == INITIAL.(duration := s.duration, success := s.success)
    ensures NoDataTold(filter, emitted)
  {
  }

  /** Whatever the refreshes, the eight gauges tell of the last refresh and of the last successful one. */
  lemma CollectedGauges(config: Config, filter: MetricFilter, history: seq<Outcome>, now: int)
    requires Ran(config, filter, history)
    ensures GaugesTell(filter, history, now, Emission(filter, DOCKER_GAUGES, Served(history), now))
  {
    ServedFamilies(config, filter, history);
    GaugesShow(filter, Served(history), now);
    HistoryTold(filter, history, now, Emission(filter, DOCKER_GAUGES, Served(history), now));
  }

  /** After one successful refresh with a fresh source, success shows as 1 and staleness as 0. */
  lemma FreshRefresh(config: Config, filter: MetricFilter, o: Outcome, now: int)
    requires OfRefresh(config, filter, o) && o.Succeeded? && !o.report.stale
    ensures var emitted := Emission(filter, DOCKER_GAUGES, Served([o]), now);
            && Shows(filter, emitted, "sonic_docker_collector_success", 1.0)
            && Shows(filter, emitted, "sonic_docker_source_stale", 0.0)
  {
    CollectedGauges(config, filter, [o], now);
    assert LatestIs([o], 0);
  }

  lemma HistoryTold(filter: MetricFilter, history: seq<Outcome>, now: int, emitted: seq<Series>)
    requires SnapshotTold(filter, Served(history), now, emitted)
    ensures GaugesTell(filter, history, now, emitted)
  {
    var s := Served(history);
    ServedIsLatestSuccess(history);
    LatestFound(history);
    forall i | LatestIs(history, i) ensures DataTold(filter, history[i].report, history[i].at, now, emitted) {
      SuccessTold(filter, s, history[i], now, emitted);
    }
    if NoneSucceeded(history) {
      NothingTold(filter, s, now, emitted);
    }
    LastShown(filter, history, s, now, emitted);
  }

  lemma LastShown(filter: MetricFilter, history: seq<Outcome>, s: Snapshot, now: int, emitted: seq<Series>)
    requires SnapshotTold(filter, s, now, emitted)
    requires if history == [] then s == INITIAL
             else s.success == history[|history| - 1].Succeeded? && s.duration == history[|history| - 1].duration
    ensures LastTold(filter, history, emitted)
  {
  }

  lemma EmitOn(filter: MetricFilter, base: seq<Series>, done: seq<Series>, s: Series)
    ensures filter.Emit(base + filter.Keep(done), s) == base + filter.Keep(done + [s])
  {
    filter.EmitKeeps(done, s);
  }

  class Collector {
    const config: Config
    const filter: MetricFilter
    const names: GaugeNames

    var cachedMetrics: seq<Series>
    var lastSuccess: bool
    var lastScrapeDuration: real
    var lastRefreshTime: Option<int>
    var lastSourceUpdateTime: Option<int>
    var lastSourceStale: bool
    var lastEntriesSkipped: nat
    var lastContainerCount: nat

    /** The outcomes of all refreshes so far. */
    ghost var history: seq<Outcome>

    function Contents(): Snapshot
      reads this
    {
      Snapshot(cachedMetrics, lastScrapeDuration, lastSuccess, lastRefreshTime, lastSourceUpdateTime, lastSourceStale,
               lastEntriesSkipped, lastContainerCount)
    }

    ghost predicate Valid()
      reads this
    {
      Caches() && Ran(config, filter, history)
    }

    /** The fields hold what the history leaves behind. */
    ghost predicate Caches()
      reads this
    {
      Contents() == Served(history)
    }

    constructor (config: Config, filter: MetricFilter, names: GaugeNames)
      ensures Valid() && history == []
      ensures this.config == config && this.filter == filter && this.names == names
    {
      this.config, this.filter, this.names := config, filter, names;
      cachedMetrics, lastSuccess, lastScrapeDuration, lastRefreshTime := [], false, 0.0, None;
      lastSourceUpdateTime, lastSourceStale, lastEntriesSkipped, lastContainerCount := None, false, 0, 0;
      history := [];
    }

    /** One refresh: a failure leaves the cached data alone, a success replaces all of it. */
    method RefreshMetrics(a: Attempt)
      requires Valid()
      modifies this
      ensures Valid()
      ensures |history| == |old(history)| + 1 && history[..|old(history)|] == old(history)
      ensures Ends(config, filter, a, history[|history| - 1])
      ensures var last, source := history[|history| - 1], SourceOf(config);
              && last.duration == a.duration
              && (last.Succeeded? <==> a.store.Some? && DockerComplete(source, config.maxContainers, a.store.value))
              && (last.Succeeded? ==> last.at == a.published)
    {
      var outcome := Failed(a.duration);
      if a.store.Some? {
        var scraped := ScrapeDocker(config.maxContainers, config.staleThreshold, a.now, filter, a.store.value,
                                    config.parse, config.parseTime);
        if scraped.Success? {
          outcome := Succeeded(a.duration, scraped.value, a.published);
        }
      }
      assert Ends(config, filter, a, outcome);
      RanSnoc(config, filter, history, outcome);
      StoreOutcome(outcome);
    }

    /** The assignments under the write lock. */
    method StoreOutcome(outcome: Outcome)
      requires Caches()
      modifies this
      ensures Caches()
      ensures history == old(history) + [outcome]
    {
      ghost var before := Contents();
      Published(before, outcome);
      assert (history + [outcome])[..|history|] == history;
      history := history + [outcome];
      lastScrapeDuration := outcome.duration;
      if outcome.Failed? {
        lastSuccess := false;
        return;
      }
      cachedMetrics := outcome.report.series;
      lastEntriesSkipped := outcome.report.skipped;
      lastContainerCount := outcome.report.containers;
      lastSourceUpdateTime := outcome.report.sourceTime;
      lastSourceStale := outcome.report.stale;
      lastSuccess := true;
      lastRefreshTime := Some(outcome.at);
    }

    /** A scrape of the endpoint: emits the cached series and the gauges, and changes nothing. */
    method Collect(now: int) returns (emitted: seq<Series>)
      requires Valid()
      ensures emitted == if config.enabled then Emission(filter, names, Served(history), now) else []
      ensures config.enabled && names == DOCKER_GAUGES ==> GaugesTell(filter, history, now, emitted)
    {
      if !config.enabled {
        return [];
      }
      emitted := CollectCached(now);
      CollectedGauges(config, filter, history, now);
    }

    /** The cached series and the gauges of the copied fields. */
    method CollectCached(now: int) returns (emitted: seq<Series>)
      requires Caches()
      ensures emitted == Emission(filter, names, Served(history), now)
    {
      var sourceTimestamp, sourceAge := SourceTimes(now);
      var cacheAge := 0.0;
      if lastRefreshTime.Some? {
        cacheAge := Seconds(now - lastRefreshTime.value);
      }
      emitted := EmitGauges(cachedMetrics,
                            Series(names.containers, [], lastContainerCount as real),
                            Series(names.lastUpdate, [], sourceTimestamp),
                            Series(names.sourceAge, [], sourceAge),
                            Series(names.stale, [], Flag(lastSourceStale)),
                            Series(names.skipped, [], lastEntriesSkipped as real),
                            Series(names.duration, [], lastScrapeDuration),
                            Series(names.success, [], Flag(lastSuccess)),
                            Series(names.cacheAge, [], cacheAge));
    }

    /** The time of the source and its age, which is not negative even if the source's clock is ahead. */
    method SourceTimes(now: int) returns (timestamp: real, age: real)
      ensures timestamp == Timestamp(lastSourceUpdateTime)
      ensures age == NotNegative(Age(lastSourceUpdateTime, now))
    {
      timestamp, age := 0.0, 0.0;
      if lastSourceUpdateTime.Some? {
        timestamp := (lastSourceUpdateTime.value / NANOS_PER_SECOND) as real;
        age := Seconds(now - lastSourceUpdateTime.value);
        if age < 0.0 {
          age := 0.0;
        }
      }
    }

    method EmitGauges(base: seq<Series>, a: Series, b: Series, c: Series, d: Series, e: Series, f: Series, g: Series,
                      h: Series)
      returns (emitted: seq<Series>)
      ensures emitted == base + filter.Keep([a, b, c, d, e, f, g, h])
    {
      ghost var all := [a, b, c, d, e, f, g, h];
      assert all[..0] == [] && all[..8] == all;
      emitted := base;
      emitted := EmitGauge(base, all, 0, a, emitted);
      emitted := EmitGauge(base, all, 1, b, emitted);
      emitted := EmitGauge(base, all, 2, c, emitted);
      emitted := EmitGauge(base, all, 3, d, emitted);
      emitted := EmitGauge(base, all, 4, e, emitted);
      emitted := EmitGauge(base, all, 5, f, emitted);
      emitted := EmitGauge(base, all, 6, g, emitted);
      emitted := EmitGauge(base, all, 7, h, emitted);
    }

    /** One gauge, if its family is enabled. */
    method EmitGauge(ghost base: seq<Series>, ghost all: seq<Series>, ghost k: nat, s: Series, emitted: seq<Series>)
      returns (emitted': seq<Series>)
      requires k < |all| && all[k] == s
      requires emitted == base + filter.Keep(all[..k])
      ensures emitted' == base + filter.Keep(all[..k + 1])
    {
      TakeSnoc(all, k);
      EmitOn(filter, base, all[..k], s);
      emitted' := filter.Emit(emitted, s);
    }
  }

  /** A new collector refreshes once before anything can collect, unless it is disabled. */
  method NewDockerCollector(config: Config, filter: MetricFilter, first: Attempt) returns (c: Collector)
    ensures fresh(c) && c.Valid() && c.config == config && c.filter == filter && c.names == DOCKER_GAUGES
    ensures !config.enabled ==> c.history == []
    ensures config.enabled ==> |c.history| == 1 && Ends(config, filter, first, c.history[0])
  {
    c := new Collector(config, filter, DOCKER_GAUGES);
    if config.enabled {
      c.RefreshMetrics(first);
    }
  }

  // ---------------------------------------------------------------- the filter over whole runs

  /** The outcome the same refresh has under a filter. */
  function Under(filter: MetricFilter): Outcome -> Outcome {
    (o: Outcome) => if o.Failed? then o else o.(report := o.report.(series := filter.Keep(o.report.series)))
  }

  /** Under a filter a refresh ends the same way, with nothing but the disabled families gone from its series. */
  lemma OutcomesUnder(config: Config, filter: MetricFilter, a: Attempt, o: Outcome)
    requires Ends(config, NoFilter(filter.glob), a, o)
    ensures Ends(config, filter, a, Under(filter)(o))
  {
    if o.Succeeded? {
      var src, store, all := SourceOf(config), a.store.value, NoFilter(filter.glob);
      var raw :| ResolvesTo(store.Hash(STATE_DB, src.updateKey), raw)
        && o.report == ReportWith(src, config.maxContainers, config.staleThreshold, a.now, store, raw, all);
      NoFilterKeepsAll(filter.glob, ContainerReport(src, config.maxContainers, store).series);
      assert Under(filter)(o).report
          == ReportWith(src, config.maxContainers, config.staleThreshold, a.now, store, raw, filter);
    }
  }

  lemma {:induction false} ServedUnder(filter: MetricFilter, history: seq<Outcome>)
    ensures Served(Map(Under(filter), history)) == Served(history).(series := filter.Keep(Served(history).series))
  {
    if history != [] {
      var front, last := history[..|history| - 1], history[|history| - 1];
      ServedUnder(filter, front);
      Published(Served(front), last);
      Published(Served(Map(Under(filter), front)), Under(filter)(last));
    }
  }

  /**
   * Non-interference over every run: after any refreshes, what is emitted under a filter is what is emitted without
   * one, minus the disabled families, in the same order and with the same values.
   */
  lemma FilterOnlyRemoves(filter: MetricFilter, names: GaugeNames, history: seq<Outcome>, now: int)
    ensures Emission(filter, names, Served(Map(Under(filter), history)), now)
         == filter.Keep(Emission(NoFilter(filter.glob), names, Served(history), now))
  {
    ServedUnder(filter, history);
    var s := Served(history);
    NoFilterKeepsAll(filter.glob, Gauges(names, s, now));
    filter.KeepAppend(s.series, Gauges(names, s, now));
  }
}
