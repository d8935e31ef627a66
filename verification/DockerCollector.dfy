/** The docker collector: container statistics capped by accepted count, and the age of their source. */
module DockerCollector {
  import opened Results
  import opened Sequences
  import opened Strings
  import opened Sorting
  import opened Redis
  import opened Metrics
  import opened AcceptedCap

  /** Parsing of timestamps, which is not part of this model; times are in nanoseconds. */
  type ParseTime = string -> Option<int>

  // ---------------------------------------------------------------- containers

  /** Redis field and metric family of each number, in emission order. */
  const DOCKER_FIELDS: seq<(string, string)> := [
    ("CPU%", "sonic_docker_container_cpu_percent"),
    ("MEM_BYTES", "sonic_docker_container_memory_usage_bytes"),
    ("MEM_LIMIT_BYTES", "sonic_docker_container_memory_limit_bytes"),
    ("MEM%", "sonic_docker_container_memory_percent"),
    ("NET_IN_BYTES", "sonic_docker_container_network_receive_bytes_total"),
    ("NET_OUT_BYTES", "sonic_docker_container_network_transmit_bytes_total"),
    ("BLOCK_IN_BYTES", "sonic_docker_container_block_read_bytes_total"),
    ("BLOCK_OUT_BYTES", "sonic_docker_container_block_write_bytes_total"),
    ("PIDS", "sonic_docker_container_pids")]

  function DockerNumber(parse: ParseNumber, fields: Fields, name: string): Option<real> {
    var raw := TrimSpace(Get(fields, name));
    if raw == "" then None else parse(raw)
  }

  function NumberSeries(parse: ParseNumber, fields: Fields, container: string): ((string, string)) -> seq<Series> {
    (field: (string, string)) =>
      match DockerNumber(parse, fields, field.0)
      case None => []
      case Some(v) => [Series(field.1, [container], v)]
  }

  function Unusable(parse: ParseNumber, fields: Fields): ((string, string)) -> bool {
    (field: (string, string)) => DockerNumber(parse, fields, field.0).None?
  }

  function DockerJudge(parse: ParseNumber, numbers: seq<(string, string)>): (string, Fields) -> Verdict {
    (key: string, fields: Fields) =>
      var container := TrimSpace(Get(fields, "NAME"));
      if fields == map[] || container == "" then Rejected
      else Accepted([Series("sonic_docker_container_info", [container], 1.0)]
                    + FlatMap(NumberSeries(parse, fields, container), numbers),
                    |Filter(Unusable(parse, fields), numbers)|)
  }

  /** The families of the numbers differ from each other and from one more family. */
  ghost predicate FamiliesDiffer(family: string, numbers: seq<(string, string)>) {
    && (forall i :: 0 <= i < |numbers| ==> numbers[i].1 != family)
    && (forall i, j :: 0 <= i < j < |numbers| ==> numbers[i].1 != numbers[j].1)
  }

  /** Names that differ in length, but for two pairs that differ in a letter. */
  lemma DifferByLength(f: string, n: seq<(string, string)>)
    requires |n| == 9 && |f| == 27 && |n[0].1| == 34 && |n[1].1| == 41 && |n[2].1| == 41 && |n[3].1| == 37
    requires |n[4].1| == 50 && |n[5].1| == 51 && |n[6].1| == 45 && |n[7].1| == 46 && |n[8].1| == 27
    requires f[23] != n[8].1[23] && n[1].1[30] != n[2].1[30]
    ensures FamiliesDiffer(f, n)
  {
  }

  lemma DockerFamilies()
    ensures FamiliesDiffer("sonic_docker_container_info", DOCKER_FIELDS)
  {
    DifferByLength("sonic_docker_container_info", DOCKER_FIELDS);
  }

  function DockerIgnored(key: string): bool { key == "DOCKER_STATS|LastUpdateTime" }

  function DockerRules(parse: ParseNumber): Rules {
    Rules(STATE_DB, DockerIgnored, false, AnyKey, DockerJudge(parse, DOCKER_FIELDS))
  }

  // ---------------------------------------------------------------- the source timestamp

  const UPDATE_FIELDS: seq<string> := ["lastupdate", "last_update", "LastUpdate", "LastUpdateTime"]

  function WithoutUnderscores(s: string): string {
    if s == "" then ""
    else (if s[0] == '_' then "" else [s[0]]) + WithoutUnderscores(s[1..])
  }

  predicate NamesUpdate(field: string) {
    ToLower(WithoutUnderscores(TrimSpace(field))) in {"lastupdate", "lastupdatetime"}
  }

  /** The first preferred field with a value, if any. */
  function Preferred(fields: Fields, names: seq<string>): string {
    if names == [] then ""
    else if TrimSpace(Get(fields, names[0])) != "" then TrimSpace(Get(fields, names[0]))
    else Preferred(fields, names[1..])
  }

  /** Any field whose normalised name says it is the update time, with a value. */
  ghost predicate Fallback(fields: Fields, value: string) {
    exists name :: name in fields && NamesUpdate(name) && TrimSpace(fields[name]) == value && value != ""
  }

  /** What the two lookups may answer; among several fallback fields the map order decides. */
  ghost predicate ResolvesTo(fields: Fields, value: string) {
    if Preferred(fields, UPDATE_FIELDS) != "" then value == Preferred(fields, UPDATE_FIELDS)
    else if value == "" then forall v :: !Fallback(fields, v)
    else Fallback(fields, value)
  }

  /** All fallback fields with a value have the same one. */
  ghost predicate FallbacksAgree(fields: Fields) {
    forall v, w :: Fallback(fields, v) && Fallback(fields, w) ==> v == w
  }

  /** Exactly when the map order cannot decide the answer: with a preferred field, or when the fallback fields agree. */
  lemma ResolutionDetermined(fields: Fields)
    ensures (forall v, w :: ResolvesTo(fields, v) && ResolvesTo(fields, w) ==> v == w)
       <==> Preferred(fields, UPDATE_FIELDS) != "" || FallbacksAgree(fields)
  {
    if Preferred(fields, UPDATE_FIELDS) == "" && !FallbacksAgree(fields) {
      var v, w :| Fallback(fields, v) && Fallback(fields, w) && v != w;
      assert ResolvesTo(fields, v) && ResolvesTo(fields, w);
    }
  }

  method ResolveLastUpdate(fields: Fields) returns (value: string)
    ensures ResolvesTo(fields, value)
  {
    var names := UPDATE_FIELDS;
    for i := 0 to |names|
      invariant Preferred(fields, names) == Preferred(fields, names[i..])
    {
      value := TrimSpace(Get(fields, names[i]));
      assert names[i..][1..] == names[i + 1..];
      if value != "" {
        return;
      }
    }
    var rest := fields.Keys;
    while rest != {}
      invariant rest <= fields.Keys
      invariant forall name :: name in fields.Keys - rest && NamesUpdate(name) ==> TrimSpace(fields[name]) == ""
      decreases rest
    {
      var name :| name in rest;
      if NamesUpdate(name) {
        value := TrimSpace(fields[name]);
        if value != "" {
          return;
        }
      }
      rest := rest - {name};
    }
    value := "";
  }

  /** Source time and staleness for a resolved timestamp text, seen at time `now`. */
  function SourceState(raw: string, parseTime: ParseTime, now: int, threshold: nat): (Option<int>, bool) {
    if raw == "" then (None, true)
    else
      match parseTime(raw)
      case None => (None, true)
      case Some(t) => (Some(t), (if now < t then 0 else now - t) > threshold)
  }

  /**
   * The source time is what the text stands for; the source counts as fresh exactly when that is known and not older
   * than the threshold.
   */
  lemma FreshExactly(raw: string, parseTime: ParseTime, now: int, threshold: nat)
    ensures var state := SourceState(raw, parseTime, now, threshold);
            && (!state.1 <==> raw != "" && parseTime(raw).Some? && now <= parseTime(raw).value + threshold)
            && state.0 == if raw == "" then None else parseTime(raw)
  {
  }

  /** All fallback fields with a value lead to the same source state, whatever their texts. */
  ghost predicate StatesAgree(fields: Fields, parseTime: ParseTime, now: int, threshold: nat) {
    forall v, w :: Fallback(fields, v) && Fallback(fields, w) ==>
      SourceState(v, parseTime, now, threshold) == SourceState(w, parseTime, now, threshold)
  }

  /**
   * Exactly when the map order cannot decide the source time and its staleness: with a preferred field, or when the
   * fallback fields lead to one state, for instance because none of them can be parsed.
   */
  lemma SourceStateDetermined(fields: Fields, parseTime: ParseTime, now: int, threshold: nat)
    ensures (forall v, w :: ResolvesTo(fields, v) && ResolvesTo(fields, w) ==>
               SourceState(v, parseTime, now, threshold) == SourceState(w, parseTime, now, threshold))
       <==> Preferred(fields, UPDATE_FIELDS) != "" || StatesAgree(fields, parseTime, now, threshold)
  {
    if Preferred(fields, UPDATE_FIELDS) == "" {
      forall v | v != "" ensures ResolvesTo(fields, v) <==> Fallback(fields, v) {
      }
      if StatesAgree(fields, parseTime, now, threshold) {
        forall v, w | ResolvesTo(fields, v) && ResolvesTo(fields, w)
          ensures SourceState(v, parseTime, now, threshold) == SourceState(w, parseTime, now, threshold)
        {
          assert v == "" || w == "" ==> v == w;
        }
      }
    }
  }

  lemma ReadsAs(name: string, text: string)
    requires '_' !in name && Bare(name, IsSpace)
    requires |name| == |text| && forall i :: 0 <= i < |name| ==> LowerChar(name[i]) == text[i]
    ensures ToLower(WithoutUnderscores(TrimSpace(name))) == text
  {
    TrimProperties(name, IsSpace);
    NoUnderscores(name);
  }

  lemma {:induction false} NoUnderscores(s: string)
    requires '_' !in s
    ensures WithoutUnderscores(s) == s
  {
    if s != "" {
      NoUnderscores(s[1..]);
    }
  }

  /** Two names that only the second lookup finds. */
  lemma FallbackNames(name: string)
    requires name == "lastUpdate" || name == "LASTUPDATE"
    ensures NamesUpdate(name)
  {
    ReadsAs(name, "lastupdate");
  }

  lemma FallbackFound(fields: Fields, name: string, value: string)
    requires name == "lastUpdate" || name == "LASTUPDATE"
    requires name in fields && fields[name] == value && value != "" && Bare(value, IsSpace)
    ensures Fallback(fields, value)
  {
    FallbackNames(name);
    TrimProperties(value, IsSpace);
  }

  /** Two spellings of the field with different times: either one can become the source time. */
  lemma SourceTimeAmbiguous(fields: Fields, v: string, w: string, s: int, t: int, parseTime: ParseTime, now: int,
                            threshold: nat)
    requires fields == map["lastUpdate" := v, "LASTUPDATE" := w]
    requires v != "" && Bare(v, IsSpace) && parseTime(v) == Some(s)
    requires w != "" && Bare(w, IsSpace) && parseTime(w) == Some(t)
    ensures ResolvesTo(fields, v) && SourceState(v, parseTime, now, threshold).0 == Some(s)
    ensures ResolvesTo(fields, w) && SourceState(w, parseTime, now, threshold).0 == Some(t)
  {
    assert "lastUpdate"[0] != "LASTUPDATE"[0];
    NotPreferred(fields);
    FallbackFound(fields, "lastUpdate", v);
    FallbackFound(fields, "LASTUPDATE", w);
  }

  lemma NotPreferred(fields: Fields)
    requires fields.Keys == {"lastUpdate", "LASTUPDATE"}
    ensures Preferred(fields, UPDATE_FIELDS) == ""
  {
    var a, b := "lastUpdate", "LASTUPDATE";
    assert a[0] == 'l' && a[4] == 'U' && b[1] == 'A';
    forall name | name in UPDATE_FIELDS ensures name !in fields {
    }
    AbsentNotPreferred(fields, UPDATE_FIELDS);
  }

  lemma {:induction false} AbsentNotPreferred(fields: Fields, names: seq<string>)
    requires forall name :: name in names ==> name !in fields
    ensures Preferred(fields, names) == ""
  {
    TrimProperties("", IsSpace);
    if names != [] {
      AbsentNotPreferred(fields, names[1..]);
    }
  }

  // ---------------------------------------------------------------- one refresh

  datatype DockerReport = DockerReport(series: seq<Series>, skipped: nat, containers: nat, sourceTime: Option<int>,
                                       stale: bool)

  datatype Source = Source(updateKey: string, pattern: string, rules: Rules, parseTime: ParseTime)

  function DockerSource(parse: ParseNumber, parseTime: ParseTime): Source {
    Source("DOCKER_STATS|LastUpdateTime", "DOCKER_STATS|*", DockerRules(parse), parseTime)
  }

  function ContainerKeys(src: Source, store: Store): seq<string> {
    Sort(Self, store.Keys(STATE_DB, src.pattern))
  }

  function ContainerReport(src: Source, max: nat, store: Store): Report {
    ReportOf(src.rules, store, ContainerKeys(src, store), max)
  }

  /** The report of one loop with the source state of a timestamp text. */
  function WithState(r: Report, state: (Option<int>, bool)): DockerReport {
    DockerReport(r.series, r.skipped, r.accepted, state.0, state.1)
  }

  /** The report of a refresh whose timestamp lookup resolved to `raw`. */
  function ReportWith(src: Source, max: nat, threshold: nat, now: int, store: Store, raw: string,
                      filter: MetricFilter): DockerReport {
    WithState(ContainerReport(src, max, store).Filtered(filter), SourceState(raw, src.parseTime, now, threshold))
  }

  /** The same for the keys that a scan returned. */
  function ReportOfScan(src: Source, max: nat, threshold: nat, now: int, store: Store, raw: string,
                        filter: MetricFilter, scanned: seq<string>): DockerReport {
    WithState(ReportOf(src.rules, store, Sort(Self, scanned), max).Filtered(filter),
              SourceState(raw, src.parseTime, now, threshold))
  }

  predicate DockerComplete(src: Source, max: nat, store: Store) {
    && store.Readable(HGetAll(STATE_DB, src.updateKey))
    && store.Readable(Scan(STATE_DB, src.pattern))
    && Complete(src.rules, store, ContainerKeys(src, store), max)
  }

  /** Series, counts and staleness of one refresh; the filter reaches only the series. */
  method ScrapeDocker(max: nat, threshold: nat, now: int, filter: MetricFilter, store: Store, parse: ParseNumber,
                      parseTime: ParseTime)
    returns (outcome: Result<DockerReport, Request>)
    ensures var src := DockerSource(parse, parseTime);
            && (outcome.Failure? ==> !DockerComplete(src, max, store) && !store.Readable(outcome.error))
            && (outcome.Success? ==>
                && DockerComplete(src, max, store)
                && exists raw :: ResolvesTo(store.Hash(STATE_DB, src.updateKey), raw)
                     && outcome.value == ReportWith(src, max, threshold, now, store, raw, filter))
  {
    outcome := ScrapeSource(DockerSource(parse, parseTime), max, threshold, now, filter, store);
  }

  method ScrapeSource(src: Source, max: nat, threshold: nat, now: int, filter: MetricFilter, store: Store)
    returns (outcome: Result<DockerReport, Request>)
    ensures outcome.Failure? ==> !DockerComplete(src, max, store) && !store.Readable(outcome.error)
    ensures outcome.Success? ==>
      && DockerComplete(src, max, store)
      && exists raw :: ResolvesTo(store.Hash(STATE_DB, src.updateKey), raw)
           && outcome.value == ReportWith(src, max, threshold, now, store, raw, filter)
  {
    var update := store.ReadHash(STATE_DB, src.updateKey);
    if update.Failure? {
      return Failure(update.error);
    }
    var raw := ResolveLastUpdate(update.value);
    var (sourceTime, stale) := SourceState(raw, src.parseTime, now, threshold);
    var scanned := store.ScanKeys(STATE_DB, src.pattern);
    if scanned.Failure? {
      return Failure(scanned.error);
    }
    var containers := ScrapeCapped(src.rules, max, filter, store, Sort(Self, scanned.value));
    if containers.Failure? {
      return Failure(containers.error);
    }
    var r := containers.value;
    outcome := Success(DockerReport(r.series, r.skipped, r.accepted, sourceTime, stale));
    assert outcome.value == ReportWith(src, max, threshold, now, store, raw, filter);
  }

  // ---------------------------------------------------------------- guarantees

  /** Whatever the timestamp lookup answers, it reaches only the source time and its staleness. */
  lemma LookupReachesOnlySourceState(src: Source, max: nat, threshold: nat, now: int, store: Store, v: string,
                                     w: string, filter: MetricFilter)
    ensures var a := ReportWith(src, max, threshold, now, store, v, filter);
            var b := ReportWith(src, max, threshold, now, store, w, filter);
            a == b.(sourceTime := a.sourceTime, stale := a.stale)
  {
  }

  /** The order in which the scan returns the keys reaches neither the report nor the requests. */
  lemma DockerScanOrderIrrelevant(src: Source, max: nat, threshold: nat, now: int, store: Store, raw: string,
                                  filter: MetricFilter, a: seq<string>, b: seq<string>)
    requires multiset(a) == multiset(b)
    ensures ReportOfScan(src, max, threshold, now, store, raw, filter, a)
         == ReportOfScan(src, max, threshold, now, store, raw, filter, b)
    ensures Probed(src.rules, store, Sort(Self, a), max) == Probed(src.rules, store, Sort(Self, b), max)
    ensures ReportWith(src, max, threshold, now, store, raw, filter)
         == ReportOfScan(src, max, threshold, now, store, raw, filter, store.Keys(STATE_DB, src.pattern))
  {
    SortStringsPermutation(a, b);
  }

  /**
   * Containers and whole skipped entries make up the scanned keys but for the timestamp key; unusable numbers add to
   * the skips.
   */
  lemma DockerKeysAccountedFor(parse: ParseNumber, parseTime: ParseTime, max: nat, threshold: nat, now: int,
                               store: Store, raw: string, filter: MetricFilter)
    ensures var src := DockerSource(parse, parseTime);
            var scanned := store.Keys(STATE_DB, src.pattern);
            var chosen := Chosen(src.rules, store, ContainerKeys(src, store), max);
            var report := ReportWith(src, max, threshold, now, store, raw, filter);
            && report.containers == |chosen|
            && report.containers + report.skipped + |Filter(Ignores(src.rules), scanned)|
               == |scanned| + Sum(Map(MissingFor(src.rules, store), chosen))
  {
    var src := DockerSource(parse, parseTime);
    KeysAccountedFor(src, max, store);
  }

  lemma KeysAccountedFor(src: Source, max: nat, store: Store)
    requires !src.rules.capFirst
    ensures var scanned := store.Keys(STATE_DB, src.pattern);
            var report := ContainerReport(src, max, store);
            report.accepted + report.skipped + |Filter(Ignores(src.rules), scanned)|
            == |scanned| + Sum(Map(MissingFor(src.rules, store),
                                   Chosen(src.rules, store, ContainerKeys(src, store), max)))
  {
    var keys := ContainerKeys(src, store);
    EntriesAccountedFor(src.rules, store, keys, max);
    AllIgnoredPassed(src.rules, store, keys, max);
    SortProperties(Self, store.Keys(STATE_DB, src.pattern));
    FilterPermutation(Ignores(src.rules), keys, store.Keys(STATE_DB, src.pattern));
  }

  /** Every number of an accepted container is either emitted or counted as unusable. */
  lemma {:induction false} NumbersEmittedOrCounted(parse: ParseNumber, fields: Fields, container: string,
                                                   numbers: seq<(string, string)>)
    ensures |FlatMap(NumberSeries(parse, fields, container), numbers)| + |Filter(Unusable(parse, fields), numbers)|
         == |numbers|
  {
    if numbers != [] {
      NumbersEmittedOrCounted(parse, fields, container, numbers[..|numbers| - 1]);
    }
  }
}
