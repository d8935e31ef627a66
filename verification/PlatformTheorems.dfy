/** What the platform-health series show: which field of which table each family reads. */
module PlatformTheorems {
  import opened Results
  import opened Sequences
  import opened Strings
  import opened Sorting
  import opened Redis
  import opened Metrics
  import opened AcceptedCap
  import opened FamilyBlocks
  import opened PlatformHealthCollector

  /** The family shows the number a text stands for, or nothing if it stands for none. */
  ghost predicate NumberTold(series: seq<Series>, family: string, labels: seq<string>, number: Option<real>) {
    OfFamily(family, series) == if number.Some? then [Series(family, labels, number.value)] else []
  }

  // ---------------------------------------------------------------- processes

  /** The number in the current field, and the one in the legacy field only if the current one has none. */
  function CurrentOrLegacy(parse: ParseNumber, current: string, legacy: string): Option<real> {
    if parse(TrimSpace(current)).Some? then parse(TrimSpace(current)) else parse(TrimSpace(legacy))
  }

  /** The series of a process, family by family. */
  ghost predicate ProcessTold(parse: ParseNumber, pid: string, name: string, fields: Fields, series: seq<Series>) {
    && OfFamily("sonic_platform_process_info", series)
        == [Series("sonic_platform_process_info", [pid, name, TrimSpace(Get(fields, "UID"))], 1.0)]
    && OfFamily("sonic_platform_process_running", series)
        == [Series("sonic_platform_process_running", [pid, name], 1.0)]
    && NumberTold(series, "sonic_platform_process_cpu_percent", [pid, name],
                  CurrentOrLegacy(parse, Get(fields, "%CPU"), Get(fields, "CPU")))
    && NumberTold(series, "sonic_platform_process_memory_percent", [pid, name],
                  CurrentOrLegacy(parse, Get(fields, "%MEM"), Get(fields, "MEM")))
  }

  /** Four rows of two series that are always there and two optional ones. */
  lemma FourRows(i: Series, r: Series, c: string, m: string, labels: seq<string>, cpu: Option<real>, mem: Option<real>)
    requires i.family != r.family && i.family != c && i.family != m && r.family != c && r.family != m && c != m
    ensures var series := [i, r] + Gauge(c, labels, cpu) + Gauge(m, labels, mem);
            && OfFamily(i.family, series) == [i] && OfFamily(r.family, series) == [r]
            && NumberTold(series, c, labels, cpu) && NumberTold(series, m, labels, mem)
  {
    var rows: seq<Row> :=
      [(i.family, [i]), (r.family, [r]), (c, Gauge(c, labels, cpu)), (m, Gauge(m, labels, mem))];
    FlatFour(rows);
    assert [i] + [r] == [i, r];
    RowFamily(rows, 0);
    RowFamily(rows, 1);
    RowFamily(rows, 2);
    RowFamily(rows, 3);
  }

  lemma FlatFour(rows: seq<Row>)
    requires |rows| == 4
    ensures FlatMap(SeriesIn, rows) == rows[0].1 + rows[1].1 + rows[2].1 + rows[3].1
  {
    assert rows[..3][..2] == rows[..2] && rows[..2][..1] == rows[..1] && rows[..1][..0] == [];
    assert FlatMap(SeriesIn, rows[..1]) == rows[0].1;
    assert FlatMap(SeriesIn, rows[..2]) == rows[0].1 + rows[1].1;
    assert FlatMap(SeriesIn, rows[..3]) == rows[0].1 + rows[1].1 + rows[2].1;
  }

  lemma ProcessFields(parse: ParseNumber, pid: string, name: string, fields: Fields)
    ensures ProcessTold(parse, pid, name, fields,
                        [Series("sonic_platform_process_info", [pid, name, TrimSpace(Get(fields, "UID"))], 1.0),
                         Series("sonic_platform_process_running", [pid, name], 1.0)]
                        + Gauge("sonic_platform_process_cpu_percent", [pid, name],
                                CurrentOrLegacy(parse, Get(fields, "%CPU"), Get(fields, "CPU")))
                        + Gauge("sonic_platform_process_memory_percent", [pid, name],
                                CurrentOrLegacy(parse, Get(fields, "%MEM"), Get(fields, "MEM"))))
  {
    FourRows(Series("sonic_platform_process_info", [pid, name, TrimSpace(Get(fields, "UID"))], 1.0),
             Series("sonic_platform_process_running", [pid, name], 1.0), "sonic_platform_process_cpu_percent",
             "sonic_platform_process_memory_percent", [pid, name],
             CurrentOrLegacy(parse, Get(fields, "%CPU"), Get(fields, "CPU")),
             CurrentOrLegacy(parse, Get(fields, "%MEM"), Get(fields, "MEM")));
  }

  lemma ProcessSeriesAt(parse: ParseNumber, key: string, fields: Fields, pid: string)
    requires fields != map[] && "PROCESS_STATS|" <= key && pid == key[14..]
    ensures var name := ProcessName(Get(fields, "CMD"));
            ProcessJudge(parse)(key, fields)
            == Accepted([Series("sonic_platform_process_info", [pid, name, TrimSpace(Get(fields, "UID"))], 1.0),
                         Series("sonic_platform_process_running", [pid, name], 1.0)]
                        + Gauge("sonic_platform_process_cpu_percent", [pid, name],
                                CurrentOrLegacy(parse, Get(fields, "%CPU"), Get(fields, "CPU")))
                        + Gauge("sonic_platform_process_memory_percent", [pid, name],
                                CurrentOrLegacy(parse, Get(fields, "%MEM"), Get(fields, "MEM"))), 0)
  {
  }

  /** A process is accepted exactly if its key names one, it is not the time stamp, and its row is not empty. */
  lemma ProcessAcceptedExactly(parse: ParseNumber, store: Store, key: string)
    ensures Valid(ProcessRules(parse), store, key)
       <==> "PROCESS_STATS|" < key && key != "PROCESS_STATS|LastUpdateTime" && store.Hash(STATE_DB, key) != map[]
  {
  }

  /** Every accepted process shows its number, its name, its user, and the two percentages. */
  lemma ProcessShown(parse: ParseNumber, store: Store, key: string)
    requires Valid(ProcessRules(parse), store, key)
    ensures "PROCESS_STATS|" < key
    ensures var fields := store.Hash(STATE_DB, key);
            ProcessTold(parse, key[14..], ProcessName(Get(fields, "CMD")), fields,
                        SeriesAt(ProcessRules(parse), store, key))
  {
    var fields := store.Hash(STATE_DB, key);
    ProcessAcceptedExactly(parse, store, key);
    ProcessSeriesAt(parse, key, fields, key[14..]);
    ProcessFields(parse, key[14..], ProcessName(Get(fields, "CMD")), fields);
  }

  // ---------------------------------------------------------------- storage devices

  /** The number in a field. */
  function NumberIn(parse: ParseNumber, fields: Fields, field: string): Option<real> {
    parse(TrimSpace(Get(fields, field)))
  }

  /** The series of a storage device, family by family. */
  ghost predicate StorageTold(parse: ParseNumber, device: string, fields: Fields, series: seq<Series>) {
    && OfFamily("sonic_platform_storage_info", series)
        == [Series("sonic_platform_storage_info",
                   [device, Get(fields, "device_model"), Get(fields, "serial"), Get(fields, "firmware")], 1.0)]
    && NumberTold(series, "sonic_platform_storage_health_percent", [device], NumberIn(parse, fields, "health"))
    && NumberTold(series, "sonic_platform_storage_temperature_celsius", [device],
                  NumberIn(parse, fields, "temperature"))
    && NumberTold(series, "sonic_platform_storage_reserved_blocks", [device],
                  NumberIn(parse, fields, "reserved_blocks"))
    && NumberTold(series, "sonic_platform_storage_total_fsio_reads_total", [device],
                  NumberIn(parse, fields, "total_fsio_reads"))
    && NumberTold(series, "sonic_platform_storage_total_fsio_writes_total", [device],
                  NumberIn(parse, fields, "total_fsio_writes"))
    && NumberTold(series, "sonic_platform_storage_disk_io_reads_total", [device],
                  NumberIn(parse, fields, "disk_io_reads"))
    && NumberTold(series, "sonic_platform_storage_disk_io_writes_total", [device],
                  NumberIn(parse, fields, "disk_io_writes"))
  }

  /** Families and the numbers they show. */
  function GaugeRows(families: seq<string>, labels: seq<string>, numbers: seq<Option<real>>): seq<Row>
    requires |families| == |numbers|
  {
    seq(|families|, i requires 0 <= i < |families| => (families[i], Gauge(families[i], labels, numbers[i])))
  }

  ghost predicate Different(info: string, families: seq<string>) {
    && (forall i :: 0 <= i < |families| ==> families[i] != info)
    && (forall i, j :: 0 <= i < j < |families| ==> families[i] != families[j])
  }

  /** Behind its information series, each number is found under its own family. */
  lemma GaugesTold(info: Series, families: seq<string>, labels: seq<string>, numbers: seq<Option<real>>, k: nat)
    requires |families| == |numbers| && Different(info.family, families) && k < |families|
    ensures var series := [info] + FlatMap(SeriesIn, GaugeRows(families, labels, numbers));
            NumberTold(series, families[k], labels, numbers[k])
    ensures OfFamily(info.family, [info] + FlatMap(SeriesIn, GaugeRows(families, labels, numbers))) == [info]
  {
    var rows := GaugeRows(families, labels, numbers);
    RowFamily(rows, k);
    NoRow(rows, info.family);
    FilterAll(InFamily(families[k]), [info]);
    FilterAll(InFamily(info.family), [info]);
    FilterAppend(InFamily(families[k]), [info], FlatMap(SeriesIn, rows));
    FilterAppend(InFamily(info.family), [info], FlatMap(SeriesIn, rows));
  }

  const STORAGE_FAMILIES: seq<string> := [
    "sonic_platform_storage_health_percent",
    "sonic_platform_storage_temperature_celsius",
    "sonic_platform_storage_reserved_blocks",
    "sonic_platform_storage_total_fsio_reads_total",
    "sonic_platform_storage_total_fsio_writes_total",
    "sonic_platform_storage_disk_io_reads_total",
    "sonic_platform_storage_disk_io_writes_total"]

  function StorageNumbers(parse: ParseNumber, fields: Fields): seq<Option<real>> {
    [NumberIn(parse, fields, "health"),
     NumberIn(parse, fields, "temperature"),
     NumberIn(parse, fields, "reserved_blocks"),
     NumberIn(parse, fields, "total_fsio_reads"),
     NumberIn(parse, fields, "total_fsio_writes"),
     NumberIn(parse, fields, "disk_io_reads"),
     NumberIn(parse, fields, "disk_io_writes")]
  }

  /** The families have different lengths, but for two that differ in a letter. */
  lemma StorageFamiliesDiffer()
    ensures |STORAGE_FAMILIES| == 7 && Different("sonic_platform_storage_info", STORAGE_FAMILIES)
  {
    var f := STORAGE_FAMILIES;
    assert f[1][23] == 't' && f[5][23] == 'd';
    LengthsDiffer("sonic_platform_storage_info", f);
  }

  lemma LengthsDiffer(info: string, f: seq<string>)
    requires |f| == 7 && |info| == 27 && |f[0]| == 37 && |f[1]| == 42 && |f[2]| == 38 && |f[3]| == 45
    requires |f[4]| == 46 && |f[5]| == 42 && |f[6]| == 43 && f[1][23] != f[5][23]
    ensures Different(info, f)
  {
  }

  lemma SevenGauges(info: Series, f: seq<string>, labels: seq<string>, v: seq<Option<real>>)
    requires |f| == |v| == 7
    ensures [info] + FlatMap(SeriesIn, GaugeRows(f, labels, v))
         == [info] + Gauge(f[0], labels, v[0]) + Gauge(f[1], labels, v[1]) + Gauge(f[2], labels, v[2])
            + Gauge(f[3], labels, v[3]) + Gauge(f[4], labels, v[4]) + Gauge(f[5], labels, v[5])
            + Gauge(f[6], labels, v[6])
  {
    var rows := GaugeRows(f, labels, v);
    FlatSeven([info], rows);
  }

  lemma {:induction false} FlatSnoc(before: seq<Series>, rows: seq<Row>, n: nat)
    requires n < |rows|
    ensures before + FlatMap(SeriesIn, rows[..n + 1]) == before + FlatMap(SeriesIn, rows[..n]) + rows[n].1
  {
    TakeSnoc(rows, n);
  }

  lemma FlatSeven(before: seq<Series>, rows: seq<Row>)
    requires |rows| == 7
    ensures before + FlatMap(SeriesIn, rows)
         == before + rows[0].1 + rows[1].1 + rows[2].1 + rows[3].1 + rows[4].1 + rows[5].1 + rows[6].1
  {
    FlatThree(before, rows);
    FlatSnoc(before, rows, 3);
    FlatSnoc(before, rows, 4);
    FlatSnoc(before, rows, 5);
    FlatSnoc(before, rows, 6);
    assert rows[..7] == rows;
  }

  lemma FlatThree(before: seq<Series>, rows: seq<Row>)
    requires |rows| == 7
    ensures before + FlatMap(SeriesIn, rows[..3]) == before + rows[0].1 + rows[1].1 + rows[2].1
  {
    assert before + FlatMap(SeriesIn, rows[..0]) == before;
    FlatSnoc(before, rows, 0);
    FlatSnoc(before, rows, 1);
    FlatSnoc(before, rows, 2);
  }

  lemma AllGaugesTold(info: Series, f: seq<string>, labels: seq<string>, v: seq<Option<real>>, series: seq<Series>)
    requires |f| == |v| == 7 && Different(info.family, f)
    requires series == [info] + Gauge(f[0], labels, v[0]) + Gauge(f[1], labels, v[1]) + Gauge(f[2], labels, v[2])
        + Gauge(f[3], labels, v[3]) + Gauge(f[4], labels, v[4]) + Gauge(f[5], labels, v[5]) + Gauge(f[6], labels, v[6])
    ensures OfFamily(info.family, series) == [info]
    ensures forall k :: 0 <= k < 7 ==> NumberTold(series, f[k], labels, v[k])
  {
    SevenGauges(info, f, labels, v);
    forall k | 0 <= k < 7 ensures NumberTold(series, f[k], labels, v[k]) {
      GaugesTold(info, f, labels, v, k);
    }
    GaugesTold(info, f, labels, v, 0);
  }

  function StorageInfo(device: string, fields: Fields): Series {
    Series("sonic_platform_storage_info",
           [device, Get(fields, "device_model"), Get(fields, "serial"), Get(fields, "firmware")], 1.0)
  }

  lemma StorageSeriesAt(parse: ParseNumber, key: string, fields: Fields, device: string)
    requires fields != map[] && "STORAGE_INFO|" <= key && device == key[13..]
    ensures var f, v, verdict := STORAGE_FAMILIES, StorageNumbers(parse, fields), StorageJudge(parse)(key, fields);
            && verdict.Accepted? && verdict.missing == 0
            && verdict.series
               == [StorageInfo(device, fields)] + Gauge(f[0], [device], v[0]) + Gauge(f[1], [device], v[1])
                  + Gauge(f[2], [device], v[2]) + Gauge(f[3], [device], v[3]) + Gauge(f[4], [device], v[4])
                  + Gauge(f[5], [device], v[5]) + Gauge(f[6], [device], v[6])
  {
  }

  lemma NumbersToTold(parse: ParseNumber, device: string, fields: Fields, series: seq<Series>)
    requires OfFamily("sonic_platform_storage_info", series) == [StorageInfo(device, fields)]
    requires var f, v := STORAGE_FAMILIES, StorageNumbers(parse, fields);
             forall k :: 0 <= k < 7 ==> NumberTold(series, f[k], [device], v[k])
    ensures StorageTold(parse, device, fields, series)
  {
    var f, v := STORAGE_FAMILIES, StorageNumbers(parse, fields);
    assert NumberTold(series, f[0], [device], v[0]) && NumberTold(series, f[1], [device], v[1]);
    assert NumberTold(series, f[2], [device], v[2]) && NumberTold(series, f[3], [device], v[3]);
    assert NumberTold(series, f[4], [device], v[4]) && NumberTold(series, f[5], [device], v[5]);
    assert NumberTold(series, f[6], [device], v[6]);
  }

  lemma StorageAcceptedExactly(parse: ParseNumber, store: Store, key: string)
    ensures Valid(StorageRules(parse), store, key)
       <==> "STORAGE_INFO|" < key && key != "STORAGE_INFO|FSSTATS_SYNC" && store.Hash(STATE_DB, key) != map[]
  {
    if "STORAGE_INFO|" < key {
      SuffixProperties(key, "STORAGE_INFO|");
      assert "STORAGE_INFO|" + "FSSTATS_SYNC" == "STORAGE_INFO|FSSTATS_SYNC";
    }
  }

  /** Every accepted storage device shows its name, what it is, and its seven numbers. */
  lemma StorageShown(parse: ParseNumber, store: Store, key: string)
    requires Valid(StorageRules(parse), store, key)
    ensures "STORAGE_INFO|" < key
    ensures StorageTold(parse, key[13..], store.Hash(STATE_DB, key), SeriesAt(StorageRules(parse), store, key))
  {
    var fields, series := store.Hash(STATE_DB, key), SeriesAt(StorageRules(parse), store, key);
    StorageAcceptedExactly(parse, store, key);
    StorageSeriesAt(parse, key, fields, key[13..]);
    StorageFamiliesDiffer();
    AllGaugesTold(StorageInfo(key[13..], fields), STORAGE_FAMILIES, [key[13..]], StorageNumbers(parse, fields), series);
    NumbersToTold(parse, key[13..], fields, series);
  }

  // ---------------------------------------------------------------- the name of a process

  predicate NoSlash(s: string) {
    forall i :: 0 <= i < |s| ==> s[i] != '/'
  }

  predicate OnlySlashes(s: string) {
    forall i :: 0 <= i < |s| ==> s[i] == '/'
  }

  predicate NoSpace(s: string) {
    forall i :: 0 <= i < |s| ==> !IsSpace(s[i])
  }

  lemma {:induction false} FirstWord(word: string, rest: string)
    requires NoSpace(word) && (rest == "" || IsSpace(rest[0]))
    ensures FirstToken(word + rest) == word
  {
    if word == "" {
      assert word + rest == rest;
    } else {
      assert (word + rest)[1..] == word[1..] + rest;
      FirstWord(word[1..], rest);
    }
  }

  lemma {:induction false} SlashesTrimmed(path: string, slashes: string)
    requires OnlySlashes(slashes) && (path == "" || path[|path| - 1] != '/')
    ensures TrimRight(path + slashes, IsSlash) == path
  {
    if slashes == "" {
      assert path + slashes == path;
    } else {
      var n := |slashes| - 1;
      assert (path + slashes)[..|path + slashes| - 1] == path + slashes[..n];
      SlashesTrimmed(path, slashes[..n]);
    }
  }

  lemma {:induction false} LastPart(dir: string, base: string)
    requires NoSlash(base) && (dir == "" || dir[|dir| - 1] == '/')
    ensures AfterLastSlash(dir + base) == base
  {
    if base == "" {
      assert dir + base == dir;
    } else {
      var n := |base| - 1;
      assert (dir + base)[..|dir + base| - 1] == dir + base[..n];
      LastPart(dir, base[..n]);
    }
  }

  /** A process is named after the last part of the path that is the first word of its command. */
  lemma ProcessNameIsBase(command: string, dir: string, base: string, slashes: string, rest: string)
    requires TrimSpace(command) == ((dir + base) + slashes) + rest && (rest == "" || IsSpace(rest[0]))
    requires NoSpace((dir + base) + slashes) && base != "" && NoSlash(base) && OnlySlashes(slashes)
    requires dir == "" || dir[|dir| - 1] == '/'
    ensures ProcessName(command) == base
  {
    FirstWord((dir + base) + slashes, rest);
    SlashesTrimmed(dir + base, slashes);
    LastPart(dir, base);
  }

  /** A blank command has no name, and one whose first word is a path of slashes is named after the root. */
  lemma ProcessNameWithoutBase(command: string, slashes: string, rest: string)
    requires OnlySlashes(slashes) && NoSpace(slashes) && (rest == "" || IsSpace(rest[0]))
    ensures TrimSpace(command) == "" ==> ProcessName(command) == "unknown"
    ensures TrimSpace(command) == slashes + rest && slashes != "" ==> ProcessName(command) == "/"
  {
    FirstWord(slashes, rest);
    SlashesTrimmed("", slashes);
    assert "" + slashes == slashes;
  }

  // ---------------------------------------------------------------- the whole report

  lemma SummaryShown(fields: Fields, name: string)
    requires name in fields
    ensures Series("sonic_platform_system_health_info", [TrimSpace(name + "=" + fields[name])], 1.0)
         in HealthReport(HealthSummary, fields).series
  {
    SortedSetProperties(fields.Keys);
    assert name in fields.Keys && Get(fields, name) == fields[name];
    MapMembers(HealthSeries(HealthSummary, fields), SortedSet(fields.Keys), name);
    assert HealthSeries(HealthSummary, fields)(name) == HealthSummary(name, fields[name]);
  }

  lemma InThird(a: Report, b: Report, c: Report, s: Series)
    requires s in c.series
    ensures s in a.Then(b).Then(c).series
  {
  }

  /** Each field of the health table is shown as "name=value". */
  lemma HealthShown(parse: ParseNumber, limits: Limits, store: Store, name: string)
    requires name in store.Hash(STATE_DB, "SYSTEM_HEALTH_INFO")
    ensures Series("sonic_platform_system_health_info",
                   [TrimSpace(name + "=" + store.Hash(STATE_DB, "SYSTEM_HEALTH_INFO")[name])], 1.0)
         in PlatformReport(PlatformSource(parse), limits, store).series
  {
    var fields, src := store.Hash(STATE_DB, "SYSTEM_HEALTH_INFO"), PlatformSource(parse);
    SummaryShown(fields, name);
    InThird(ProcessReport(src, limits, store), StorageReport(src, limits, store), HealthReport(src.show, fields),
            Series("sonic_platform_system_health_info", [TrimSpace(name + "=" + fields[name])], 1.0));
  }

  /** The series of each exported process and of each exported storage device are in the report. */
  lemma PlatformShows(parse: ParseNumber, limits: Limits, store: Store, key: string, s: Series)
    ensures var processes := Sort(Self, store.Keys(STATE_DB, "PROCESS_STATS|*"));
            key in Chosen(ProcessRules(parse), store, processes, limits.maxProcesses)
            && s in SeriesAt(ProcessRules(parse), store, key)
            ==> s in PlatformReport(PlatformSource(parse), limits, store).series
    ensures var storage := Sort(Self, store.Keys(STATE_DB, "STORAGE_INFO|*"));
            key in Chosen(StorageRules(parse), store, storage, limits.maxStorageDevices)
            && s in SeriesAt(StorageRules(parse), store, key)
            ==> s in PlatformReport(PlatformSource(parse), limits, store).series
  {
    var processes, storage := Sort(Self, store.Keys(STATE_DB, "PROCESS_STATS|*")),
                              Sort(Self, store.Keys(STATE_DB, "STORAGE_INFO|*"));
    if key in Chosen(ProcessRules(parse), store, processes, limits.maxProcesses)
        && s in SeriesAt(ProcessRules(parse), store, key) {
      ChosenShown(ProcessRules(parse), store, processes, limits.maxProcesses, key, s);
    }
    if key in Chosen(StorageRules(parse), store, storage, limits.maxStorageDevices)
        && s in SeriesAt(StorageRules(parse), store, key) {
      ChosenShown(StorageRules(parse), store, storage, limits.maxStorageDevices, key, s);
    }
  }
}
