/**
 * The platform-health collector: processes and storage devices, each capped by accepted count, and a health summary.
 */
module PlatformHealthCollector {
  import opened Results
  import opened Sequences
  import opened Strings
  import opened Sorting
  import opened Redis
  import opened Metrics
  import opened AcceptedCap

  predicate IsSlash(c: char) { c == '/' }

  function FirstToken(s: string): string {
    if s == "" || IsSpace(s[0]) then "" else [s[0]] + FirstToken(s[1..])
  }

  function AfterLastSlash(s: string): string {
    if s == "" || IsSlash(s[|s| - 1]) then "" else AfterLastSlash(s[..|s| - 1]) + [s[|s| - 1]]
  }

  /** The base name of the command's first word. */
  function ProcessName(command: string): string {
    var first := FirstToken(TrimSpace(command));
    var path := TrimRight(first, IsSlash);
    if first == "" then "unknown" else if path == "" then "/" else AfterLastSlash(path)
  }

  function Number(parse: ParseNumber, fields: Fields, name: string): Option<real> {
    parse(TrimSpace(Get(fields, name)))
  }

  /** The current field, or the legacy one when the current one is no number. */
  function Percent(parse: ParseNumber, fields: Fields, current: string, legacy: string): Option<real> {
    var value := Number(parse, fields, current);
    if value.Some? then value else Number(parse, fields, legacy)
  }

  function Gauge(family: string, labels: seq<string>, value: Option<real>): seq<Series> {
    match value
    case None => []
    case Some(v) => [Series(family, labels, v)]
  }

  // ---------------------------------------------------------------- processes

  function ProcessIgnored(key: string): bool { key == "PROCESS_STATS|LastUpdateTime" }
  function ProcessWellFormed(key: string): bool { Suffix(key, "PROCESS_STATS|").Some? }

  function ProcessJudge(parse: ParseNumber): (string, Fields) -> Verdict {
    (key: string, fields: Fields) =>
      var pid := TrimPrefix(key, "PROCESS_STATS|");
      var name := ProcessName(Get(fields, "CMD"));
      if fields == map[] then Rejected
      else
        Accepted([Series("sonic_platform_process_info", [pid, name, TrimSpace(Get(fields, "UID"))], 1.0),
                  Series("sonic_platform_process_running", [pid, name], 1.0)]
                 + Gauge("sonic_platform_process_cpu_percent", [pid, name], Percent(parse, fields, "%CPU", "CPU"))
                 + Gauge("sonic_platform_process_memory_percent", [pid, name],
                         Percent(parse, fields, "%MEM", "MEM")), 0)
  }

  function ProcessRules(parse: ParseNumber): Rules {
    Rules(STATE_DB, ProcessIgnored, false, ProcessWellFormed, ProcessJudge(parse))
  }

  // ---------------------------------------------------------------- storage devices

  function StorageIgnored(key: string): bool {
    Suffix(key, "STORAGE_INFO|").None? || Suffix(key, "STORAGE_INFO|") == Some("FSSTATS_SYNC")
  }


  function StorageJudge(parse: ParseNumber): (string, Fields) -> Verdict {
    (key: string, fields: Fields) =>
      var device := TrimPrefix(key, "STORAGE_INFO|");
      if fields == map[] then Rejected
      else
        Accepted([Series("sonic_platform_storage_info",
                         [device, Get(fields, "device_model"), Get(fields, "serial"), Get(fields, "firmware")], 1.0)]
                 + Gauge("sonic_platform_storage_health_percent", [device], Number(parse, fields, "health"))
                 + Gauge("sonic_platform_storage_temperature_celsius", [device], Number(parse, fields, "temperature"))
                 + Gauge("sonic_platform_storage_reserved_blocks", [device], Number(parse, fields, "reserved_blocks"))
                 + Gauge("sonic_platform_storage_total_fsio_reads_total", [device],
                         Number(parse, fields, "total_fsio_reads"))
                 + Gauge("sonic_platform_storage_total_fsio_writes_total", [device],
                         Number(parse, fields, "total_fsio_writes"))
                 + Gauge("sonic_platform_storage_disk_io_reads_total", [device], Number(parse, fields, "disk_io_reads"))
                 + Gauge("sonic_platform_storage_disk_io_writes_total", [device],
                         Number(parse, fields, "disk_io_writes")), 0)
  }

  function StorageRules(parse: ParseNumber): Rules {
    Rules(STATE_DB, StorageIgnored, false, AnyKey, StorageJudge(parse))
  }

  // ---------------------------------------------------------------- one refresh

  function HealthSummary(name: string, value: string): Series {
    Series("sonic_platform_system_health_info", [TrimSpace(name + "=" + value)], 1.0)
  }

  type Summary = (string, string) -> Series

  function HealthSeries(show: Summary, fields: Fields): string -> Series {
    (name: string) => show(name, Get(fields, name))
  }

  ghost function HealthReport(show: Summary, fields: Fields): Report {
    Report(Map(HealthSeries(show, fields), SortedSet(fields.Keys)), 0, 0, false)
  }

  /** What one refresh scans and reads, in order. */
  datatype Source = Source(processes: string, processRules: Rules, storage: string, storageRules: Rules,
                           health: string, show: Summary)

  function PlatformSource(parse: ParseNumber): Source {
    Source("PROCESS_STATS|*", ProcessRules(parse), "STORAGE_INFO|*", StorageRules(parse), "SYSTEM_HEALTH_INFO",
           HealthSummary)
  }

  function SortedKeysOf(store: Store, pattern: string): seq<string> {
    Sort(Self, store.Keys(STATE_DB, pattern))
  }

  datatype Limits = Limits(maxProcesses: nat, maxStorageDevices: nat)

  function ProcessReport(src: Source, limits: Limits, store: Store): Report {
    ReportOf(src.processRules, store, SortedKeysOf(store, src.processes), limits.maxProcesses)
  }

  function StorageReport(src: Source, limits: Limits, store: Store): Report {
    ReportOf(src.storageRules, store, SortedKeysOf(store, src.storage), limits.maxStorageDevices)
  }

  ghost function PlatformReport(src: Source, limits: Limits, store: Store): Report {
    ProcessReport(src, limits, store)
      .Then(StorageReport(src, limits, store))
      .Then(HealthReport(src.show, store.Hash(STATE_DB, src.health)))
  }

  /** The report for the keys that the two scans returned. */
  ghost function ReportOfScans(src: Source, limits: Limits, store: Store, processes: seq<string>,
                               storage: seq<string>): Report {
    ReportOf(src.processRules, store, Sort(Self, processes), limits.maxProcesses)
      .Then(ReportOf(src.storageRules, store, Sort(Self, storage), limits.maxStorageDevices))
      .Then(HealthReport(src.show, store.Hash(STATE_DB, src.health)))
  }

  predicate TableComplete(rules: Rules, pattern: string, max: nat, store: Store) {
    store.Readable(Scan(STATE_DB, pattern)) && Complete(rules, store, SortedKeysOf(store, pattern), max)
  }

  predicate PlatformComplete(src: Source, limits: Limits, store: Store) {
    && TablesComplete(src, limits, store)
    && store.Readable(HGetAll(STATE_DB, src.health))
  }

  method ScrapePlatform(limits: Limits, filter: MetricFilter, store: Store, parse: ParseNumber)
    returns (outcome: Result<Report, Request>)
    ensures store.Answers(PlatformComplete(PlatformSource(parse), limits, store),
                          PlatformReport(PlatformSource(parse), limits, store).Filtered(filter), outcome)
  {
    outcome := ScrapeSource(PlatformSource(parse), limits, filter, store);
    PartsFiltered(PlatformSource(parse), limits, store, filter);
  }

  ghost function FilteredParts(src: Source, limits: Limits, store: Store, filter: MetricFilter): Report {
    ProcessReport(src, limits, store).Filtered(filter)
      .Then(StorageReport(src, limits, store).Filtered(filter))
      .Then(HealthReport(src.show, store.Hash(STATE_DB, src.health)).Filtered(filter))
  }

  /** Filtering part by part is filtering the whole report. */
  lemma PartsFiltered(src: Source, limits: Limits, store: Store, filter: MetricFilter)
    ensures FilteredParts(src, limits, store, filter) == PlatformReport(src, limits, store).Filtered(filter)
  {
    ThreeFiltered(ProcessReport(src, limits, store), StorageReport(src, limits, store),
                  HealthReport(src.show, store.Hash(STATE_DB, src.health)), filter);
  }

  lemma ThreeFiltered(a: Report, b: Report, c: Report, filter: MetricFilter)
    ensures a.Filtered(filter).Then(b.Filtered(filter)).Then(c.Filtered(filter)) == a.Then(b).Then(c).Filtered(filter)
  {
    a.ThenFiltered(b, filter);
    a.Then(b).ThenFiltered(c, filter);
  }

  method ScrapeTable(rules: Rules, pattern: string, max: nat, filter: MetricFilter, store: Store)
    returns (outcome: Result<Report, Request>)
    ensures store.Answers(TableComplete(rules, pattern, max, store),
                          ReportOf(rules, store, SortedKeysOf(store, pattern), max).Filtered(filter), outcome)
  {
    var scanned := store.ScanKeys(STATE_DB, pattern);
    if scanned.Failure? {
      return Failure(scanned.error);
    }
    outcome := ScrapeCapped(rules, max, filter, store, Sort(Self, scanned.value));
  }

  method EmitHealth(show: Summary, filter: MetricFilter, fields: Fields) returns (report: Report)
    ensures report == HealthReport(show, fields).Filtered(filter)
  {
    var names := SortedKeys(fields.Keys);
    var metrics: seq<Series> := [];
    assert names[..0] == [];
    for i := 0 to |names|
      invariant metrics == filter.Keep(Map(HealthSeries(show, fields), names[..i]))
    {
      TakeSnoc(names, i);
      metrics := filter.Emit(metrics, HealthSeries(show, fields)(names[i]));
    }
    assert names[..|names|] == names;
    report := Report(metrics, 0, 0, false);
  }

  predicate TablesComplete(src: Source, limits: Limits, store: Store) {
    && TableComplete(src.processRules, src.processes, limits.maxProcesses, store)
    && TableComplete(src.storageRules, src.storage, limits.maxStorageDevices, store)
  }

  method ScrapeTables(src: Source, limits: Limits, filter: MetricFilter, store: Store)
    returns (outcome: Result<(Report, Report), Request>)
    ensures store.Answers(TablesComplete(src, limits, store),
                          (ProcessReport(src, limits, store).Filtered(filter),
                           StorageReport(src, limits, store).Filtered(filter)), outcome)
  {
    var processes := ScrapeTable(src.processRules, src.processes, limits.maxProcesses, filter, store);
    if processes.Failure? {
      return Failure(processes.error);
    }
    var storage := ScrapeTable(src.storageRules, src.storage, limits.maxStorageDevices, filter, store);
    if storage.Failure? {
      return Failure(storage.error);
    }
    outcome := Success((processes.value, storage.value));
  }

  method ScrapeSource(src: Source, limits: Limits, filter: MetricFilter, store: Store)
    returns (outcome: Result<Report, Request>)
    ensures store.Answers(PlatformComplete(src, limits, store), FilteredParts(src, limits, store, filter), outcome)
  {
    var tables := ScrapeTables(src, limits, filter, store);
    if tables.Failure? {
      return Failure(tables.error);
    }
    outcome := AddHealth(src.health, src.show, filter, store, tables.value.0, tables.value.1);
  }

  method AddHealth(key: string, show: Summary, filter: MetricFilter, store: Store, processes: Report, storage: Report)
    returns (outcome: Result<Report, Request>)
    ensures store.Answers(store.Readable(HGetAll(STATE_DB, key)),
                          processes.Then(storage)
                            .Then(HealthReport(show, store.Hash(STATE_DB, key)).Filtered(filter)),
                          outcome)
  {
    var health := store.ReadHash(STATE_DB, key);
    if health.Failure? {
      return Failure(health.error);
    }
    var summary := EmitHealth(show, filter, health.value);
    outcome := Success(processes.Then(storage).Then(summary));
  }

  // ---------------------------------------------------------------- guarantees

  /** The order in which the two scans return their keys does not reach the report. */
  lemma PlatformScanOrderIrrelevant(src: Source, limits: Limits, store: Store, a: seq<string>, a': seq<string>,
                                    b: seq<string>, b': seq<string>)
    requires multiset(a) == multiset(a') && multiset(b) == multiset(b')
    ensures ReportOfScans(src, limits, store, a, b) == ReportOfScans(src, limits, store, a', b')
    ensures PlatformReport(src, limits, store)
         == ReportOfScans(src, limits, store, store.Keys(STATE_DB, src.processes), store.Keys(STATE_DB, src.storage))
  {
    SortStringsPermutation(a, a');
    SortStringsPermutation(b, b');
  }

  /** Unless the truncation flag is raised, every valid process and storage entry is exported. */
  lemma PlatformLosesNothingUntruncated(parse: ParseNumber, limits: Limits, store: Store)
    ensures var src := PlatformSource(parse);
            var processes := SortedKeysOf(store, src.processes);
            var storage := SortedKeysOf(store, src.storage);
            !PlatformReport(src, limits, store).truncated ==>
              && Chosen(src.processRules, store, processes, limits.maxProcesses)
                  == Eligible(src.processRules, store, processes)
              && Chosen(src.storageRules, store, storage, limits.maxStorageDevices)
                  == Eligible(src.storageRules, store, storage)
  {
    var src := PlatformSource(parse);
    NothingLostUnlessCut(src.processRules, store, SortedKeysOf(store, src.processes), limits.maxProcesses);
    NothingLostUnlessCut(src.storageRules, store, SortedKeysOf(store, src.storage), limits.maxStorageDevices);
  }

  /** Accepted, skipped and deliberately ignored keys together are the scanned keys. */
  lemma PlatformKeysAccountedFor(parse: ParseNumber, limits: Limits, store: Store)
    ensures var src := PlatformSource(parse);
            var processes := store.Keys(STATE_DB, src.processes);
            var storage := store.Keys(STATE_DB, src.storage);
            var report := PlatformReport(src, limits, store);
            report.accepted + report.skipped
            + |Filter(Ignores(src.processRules), processes)| + |Filter(Ignores(src.storageRules), storage)|
            == |processes| + |storage|
  {
    var src := PlatformSource(parse);
    TableKeysAccountedFor(src.processRules, store, src.processes, limits.maxProcesses);
    TableKeysAccountedFor(src.storageRules, store, src.storage, limits.maxStorageDevices);
  }

  lemma TableKeysAccountedFor(rules: Rules, store: Store, pattern: string, max: nat)
    requires !rules.capFirst
    requires NeverMissing(rules)
    ensures var keys := store.Keys(STATE_DB, pattern);
            var report := ReportOf(rules, store, SortedKeysOf(store, pattern), max);
            report.accepted + report.skipped + |Filter(Ignores(rules), keys)| == |keys|
  {
    var keys := store.Keys(STATE_DB, pattern);
    var sorted := SortedKeysOf(store, pattern);
    EntriesAccountedFor(rules, store, sorted, max);
    AllIgnoredPassed(rules, store, sorted, max);
    NothingMissing(rules, store, Chosen(rules, store, sorted, max));
    SortProperties(Self, keys);
    FilterPermutation(Ignores(rules), sorted, keys);
  }
}
