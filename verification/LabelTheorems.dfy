/** Which collectors can emit two series with the same family and labels, and exactly when they do. */
module LabelTheorems {
  import opened Results
  import opened Sequences
  import opened Strings
  import opened Sorting
  import opened Redis
  import opened Metrics
  import opened Histograms
  import opened AcceptedCap
  import opened LabelSets
  import Docker = DockerCollector
  import Fdb = FdbCollector
  import Lldp = LldpCollector
  import Platform = PlatformHealthCollector

  // ---------------------------------------------------------------- reports of accepted entries

  lemma ChosenValid(rules: Rules, store: Store, keys: seq<string>, max: nat)
    ensures forall key :: key in Chosen(rules, store, keys, max) ==> Valid(rules, store, key)
  {
    var eligible := Eligible(rules, store, keys);
    FilterMembers(IsValid(rules, store), keys);
    forall key | key in Chosen(rules, store, keys, max) ensures Valid(rules, store, key) {
      assert key in eligible && IsValid(rules, store)(key);
    }
  }

  /** A scan that repeats no key accepts no key twice. */
  lemma ChosenDistinct(rules: Rules, store: Store, scanned: seq<string>, max: nat)
    requires Distinct(scanned)
    ensures Distinct(Chosen(rules, store, Sort(Self, scanned), max))
  {
    SortedDistinct(Self, scanned);
    FilterDistinct(IsValid(rules, store), Sort(Self, scanned));
  }

  /** A block of series that repeats nothing and shows its owner first. */
  ghost predicate Block(series: seq<Series>, owner: string) {
    series != [] && IdsDistinct(series) && Shows(series, owner)
  }

  ghost predicate ValidBlocks(rules: Rules, store: Store, owner: string -> string) {
    forall key :: Valid(rules, store, key) ==> Block(SeriesAt(rules, store, key), owner(key))
  }

  /** Two valid keys with one owner have the same first series. */
  ghost predicate HeadsAgree(rules: Rules, store: Store, owner: string -> string) {
    forall a, b :: Valid(rules, store, a) && Valid(rules, store, b) && owner(a) == owner(b) ==>
      SeriesAt(rules, store, a) != [] && SeriesAt(rules, store, b) != []
      && SameId(SeriesAt(rules, store, a)[0], SeriesAt(rules, store, b)[0])
  }

  /** Exactly when the report of a loop repeats no series: when no two accepted keys have one owner. */
  lemma AcceptedIds(rules: Rules, store: Store, keys: seq<string>, max: nat, owner: string -> string)
    requires ValidBlocks(rules, store, owner) && HeadsAgree(rules, store, owner)
    ensures IdsDistinct(ReportOf(rules, store, keys, max).series)
       <==> Distinct(Map(owner, Chosen(rules, store, keys, max)))
  {
    ChosenValid(rules, store, keys, max);
    BlocksDistinct(SeriesFor(rules, store), owner, Chosen(rules, store, keys, max));
  }

  /** If in addition the owner tells the key: when no key was accepted twice. */
  lemma AcceptedOnce(rules: Rules, store: Store, keys: seq<string>, max: nat, owner: string -> string)
    requires ValidBlocks(rules, store, owner)
    requires forall a, b :: Valid(rules, store, a) && Valid(rules, store, b) && owner(a) == owner(b) ==> a == b
    ensures IdsDistinct(ReportOf(rules, store, keys, max).series) <==> Distinct(Chosen(rules, store, keys, max))
  {
    var chosen := Chosen(rules, store, keys, max);
    AcceptedIds(rules, store, keys, max, owner);
    ChosenValid(rules, store, keys, max);
    forall i, j | 0 <= i < j < |chosen| ensures owner(chosen[i]) == owner(chosen[j]) <==> chosen[i] == chosen[j] {
      assert chosen[i] in chosen && chosen[j] in chosen;
    }
  }

  // ---------------------------------------------------------------- containers

  function ContainerAt(store: Store): string -> string {
    (key: string) => TrimSpace(Get(store.Hash(STATE_DB, key), "NAME"))
  }

  function FamilyOf(field: (string, string)): string { field.1 }

  lemma {:induction false} NumbersOneEach(parse: ParseNumber, fields: Fields, container: string,
                                          numbers: seq<(string, string)>, head: Series)
    requires Docker.FamiliesDiffer(head.family, numbers) && head.labels == [container]
    ensures OneEach([head] + FlatMap(Docker.NumberSeries(parse, fields, container), numbers),
                    [head.family] + Map(FamilyOf, numbers), container)
  {
    var block := Docker.NumberSeries(parse, fields, container);
    if numbers != [] {
      var front, last := numbers[..|numbers| - 1], numbers[|numbers| - 1];
      var series, families := [head] + FlatMap(block, front), [head.family] + Map(FamilyOf, front);
      assert [head.family] + Map(FamilyOf, numbers) == families + [last.1];
      NumbersOneEach(parse, fields, container, front, head);
      OneMore(series, families, container, last.1, block(last));
      assert series + block(last) == [head] + FlatMap(block, numbers);
    }
  }

  lemma NumbersBlock(parse: ParseNumber, fields: Fields, container: string, numbers: seq<(string, string)>,
                     family: string)
    requires Docker.FamiliesDiffer(family, numbers)
    ensures Block([Series(family, [container], 1.0)] + FlatMap(Docker.NumberSeries(parse, fields, container), numbers),
                  container)
  {
    var head := Series(family, [container], 1.0);
    NumbersOneEach(parse, fields, container, numbers, head);
    OneEachIds([head] + FlatMap(Docker.NumberSeries(parse, fields, container), numbers),
               [head.family] + Map(FamilyOf, numbers), container);
  }

  ghost predicate ContainerBlockAt(rules: Rules, store: Store, key: string) {
    && Block(SeriesAt(rules, store, key), ContainerAt(store)(key))
    && SeriesAt(rules, store, key)[0] == Series("sonic_docker_container_info", [ContainerAt(store)(key)], 1.0)
  }

  lemma ContainerBlock(parse: ParseNumber, store: Store, key: string)
    requires Valid(Docker.DockerRules(parse), store, key)
    ensures ContainerBlockAt(Docker.DockerRules(parse), store, key)
  {
    Docker.DockerFamilies();
    NumbersBlock(parse, store.Hash(STATE_DB, key), ContainerAt(store)(key), Docker.DOCKER_FIELDS,
                 "sonic_docker_container_info");
  }

  lemma ContainerIds(rules: Rules, store: Store, keys: seq<string>, max: nat)
    requires forall key :: Valid(rules, store, key) ==> ContainerBlockAt(rules, store, key)
    ensures IdsDistinct(ReportOf(rules, store, keys, max).series)
       <==> Distinct(Map(ContainerAt(store), Chosen(rules, store, keys, max)))
  {
    AcceptedIds(rules, store, keys, max, ContainerAt(store));
  }

  /** Exactly when the docker collector emits no series twice: when no two accepted containers have one name. */
  lemma ContainerIdsDistinct(parse: ParseNumber, store: Store, keys: seq<string>, max: nat)
    ensures var rules := Docker.DockerRules(parse);
            IdsDistinct(ReportOf(rules, store, keys, max).series)
            <==> Distinct(Map(ContainerAt(store), Chosen(rules, store, keys, max)))
  {
    forall key | Valid(Docker.DockerRules(parse), store, key)
      ensures ContainerBlockAt(Docker.DockerRules(parse), store, key)
    {
      ContainerBlock(parse, store, key);
    }
    ContainerIds(Docker.DockerRules(parse), store, keys, max);
  }

  /** Two entries of one name: the container's series are emitted twice. */
  lemma OneNameTwice(parse: ParseNumber, store: Store, a: string, b: string)
    requires a != "DOCKER_STATS|LastUpdateTime" && store.Hash(STATE_DB, a) == map["NAME" := "bgp"]
    requires b != "DOCKER_STATS|LastUpdateTime" && store.Hash(STATE_DB, b) == map["NAME" := "bgp"]
    ensures !IdsDistinct(ReportOf(Docker.DockerRules(parse), store, [a, b], 2).series)
  {
    NamedContainer(parse, store, a);
    NamedContainer(parse, store, b);
    BothChosen(Docker.DockerRules(parse), store, a, b);
    var names := Map(ContainerAt(store), [a, b]);
    assert names[0] == names[1];
    ContainerIdsDistinct(parse, store, [a, b], 2);
  }

  lemma NamedContainer(parse: ParseNumber, store: Store, key: string)
    requires key != "DOCKER_STATS|LastUpdateTime" && store.Hash(STATE_DB, key) == map["NAME" := "bgp"]
    ensures Valid(Docker.DockerRules(parse), store, key) && ContainerAt(store)(key) == "bgp"
  {
    LowerTextStays("bgp");
    assert "NAME" in store.Hash(STATE_DB, key);
  }

  lemma BothChosen(rules: Rules, store: Store, a: string, b: string)
    requires Valid(rules, store, a) && Valid(rules, store, b)
    ensures Chosen(rules, store, [a, b], 2) == [a, b]
  {
    assert forall key :: key in [a, b] ==> IsValid(rules, store)(key);
    FilterAll(IsValid(rules, store), [a, b]);
  }

  // ---------------------------------------------------------------- processes, storage devices and neighbours

  /** Collectors that label their series by the suffix of the key emit none twice unless a key was accepted twice. */
  lemma SuffixLabelled(rules: Rules, store: Store, keys: seq<string>, max: nat, prefix: string)
    requires ValidBlocks(rules, store, Behind(prefix))
    requires forall key :: Valid(rules, store, key) ==> Suffix(key, prefix).Some?
    ensures IdsDistinct(ReportOf(rules, store, keys, max).series) <==> Distinct(Chosen(rules, store, keys, max))
  {
    forall a, b | Valid(rules, store, a) && Valid(rules, store, b) && Behind(prefix)(a) == Behind(prefix)(b)
      ensures a == b
    {
      SuffixTellsKey(a, b, prefix);
    }
    AcceptedOnce(rules, store, keys, max, Behind(prefix));
  }

  lemma GaugeShape(family: string, labels: seq<string>, value: Option<real>)
    ensures var g := Platform.Gauge(family, labels, value);
            |g| <= 1 && forall s :: s in g ==> s.family == family && s.labels == labels
  {
  }

  lemma OneGaugeMore(series: seq<Series>, families: seq<string>, owner: string, labels: seq<string>,
                     value: Option<real>, i: nat)
    requires i < |families| && Distinct(families) && OneEach(series, families[..i], owner)
    requires labels != [] && labels[0] == owner
    ensures OneEach(series + Platform.Gauge(families[i], labels, value), families[..i + 1], owner)
  {
    GaugeShape(families[i], labels, value);
    TakeSnoc(families, i);
    OneMore(series, families[..i], owner, families[i], Platform.Gauge(families[i], labels, value));
  }

  const PROCESS_FAMILIES := ["sonic_platform_process_info", "sonic_platform_process_running",
                             "sonic_platform_process_cpu_percent", "sonic_platform_process_memory_percent"]

  lemma ProcessFamilies()
    ensures Distinct(PROCESS_FAMILIES)
  {
    var f := PROCESS_FAMILIES;
    assert |f[0]| == 27 && |f[1]| == 30 && |f[2]| == 34 && |f[3]| == 37;
  }

  lemma ProcessBlock(parse: ParseNumber, store: Store, key: string)
    requires Valid(Platform.ProcessRules(parse), store, key)
    ensures Block(SeriesAt(Platform.ProcessRules(parse), store, key), TrimPrefix(key, "PROCESS_STATS|"))
  {
    var fields, pid, f := store.Hash(STATE_DB, key), TrimPrefix(key, "PROCESS_STATS|"), PROCESS_FAMILIES;
    var name := Platform.ProcessName(Get(fields, "CMD"));
    ProcessFamilies();
    var heads := [Series(f[0], [pid, name, TrimSpace(Get(fields, "UID"))], 1.0), Series(f[1], [pid, name], 1.0)];
    TwoHeads(heads, f, pid);
    var cpu, mem := Platform.Percent(parse, fields, "%CPU", "CPU"), Platform.Percent(parse, fields, "%MEM", "MEM");
    OneGaugeMore(heads, f, pid, [pid, name], cpu, 2);
    OneGaugeMore(heads + Platform.Gauge(f[2], [pid, name], cpu), f, pid, [pid, name], mem, 3);
    OneEachIds(heads + Platform.Gauge(f[2], [pid, name], cpu) + Platform.Gauge(f[3], [pid, name], mem), f[..4], pid);
  }

  lemma TwoHeads(heads: seq<Series>, families: seq<string>, owner: string)
    requires |heads| == 2 <= |families| && Distinct(families)
    requires forall i :: 0 <= i < 2 ==>
      heads[i].family == families[i] && heads[i].labels != [] && heads[i].labels[0] == owner
    ensures OneEach(heads, families[..2], owner)
  {
    assert families[..2][0] == families[0] && families[..2][1] == families[1];
  }

  /** Process series repeat exactly when a key was accepted twice. */
  lemma ProcessIdsDistinct(parse: ParseNumber, store: Store, keys: seq<string>, max: nat)
    ensures var rules := Platform.ProcessRules(parse);
            IdsDistinct(ReportOf(rules, store, keys, max).series) <==> Distinct(Chosen(rules, store, keys, max))
  {
    var rules := Platform.ProcessRules(parse);
    forall key | Valid(rules, store, key)
      ensures Block(SeriesAt(rules, store, key), Behind("PROCESS_STATS|")(key))
    {
      ProcessBlock(parse, store, key);
    }
    SuffixLabelled(rules, store, keys, max, "PROCESS_STATS|");
  }

  const STORAGE_FAMILIES := ["sonic_platform_storage_info", "sonic_platform_storage_health_percent",
                             "sonic_platform_storage_temperature_celsius", "sonic_platform_storage_reserved_blocks",
                             "sonic_platform_storage_total_fsio_reads_total",
                             "sonic_platform_storage_total_fsio_writes_total",
                             "sonic_platform_storage_disk_io_reads_total",
                             "sonic_platform_storage_disk_io_writes_total"]

  lemma StorageFamilies()
    ensures Distinct(STORAGE_FAMILIES)
  {
    var f := STORAGE_FAMILIES;
    assert |f[0]| == 27 && |f[1]| == 37 && |f[2]| == 42 && |f[3]| == 38;
    assert |f[4]| == 45 && |f[5]| == 46 && |f[6]| == 42 && |f[7]| == 43;
    assert f[2][23] == 't' && f[6][23] == 'd';
  }

  /** A head and the gauges of the families behind it, up to the `n`-th family. */
  function GaugesBehind(head: Series, f: seq<string>, device: string, v: seq<Option<real>>, n: nat): seq<Series>
    requires 1 <= n <= |f| == |v|
  {
    if n == 1 then [head]
    else GaugesBehind(head, f, device, v, n - 1) + Platform.Gauge(f[n - 1], [device], v[n - 1])
  }

  lemma {:induction false} GaugesOneEach(head: Series, f: seq<string>, device: string, v: seq<Option<real>>, n: nat)
    requires 1 <= n <= |f| == |v| && Distinct(f)
    requires head.family == f[0] && head.labels != [] && head.labels[0] == device
    ensures OneEach(GaugesBehind(head, f, device, v, n), f[..n], device)
  {
    if n == 1 {
      assert f[..1][0] == f[0];
    } else {
      GaugesOneEach(head, f, device, v, n - 1);
      OneGaugeMore(GaugesBehind(head, f, device, v, n - 1), f, device, [device], v[n - 1], n - 1);
    }
  }

  lemma SevenGauges(head: Series, f: seq<string>, device: string, v: seq<Option<real>>)
    requires |f| == |v| == 8
    ensures GaugesBehind(head, f, device, v, 8)
         == [head] + Platform.Gauge(f[1], [device], v[1]) + Platform.Gauge(f[2], [device], v[2])
            + Platform.Gauge(f[3], [device], v[3]) + Platform.Gauge(f[4], [device], v[4])
            + Platform.Gauge(f[5], [device], v[5]) + Platform.Gauge(f[6], [device], v[6])
            + Platform.Gauge(f[7], [device], v[7])
  {
    var three := GaugesBehind(head, f, device, v, 3);
    assert GaugesBehind(head, f, device, v, 2) == [head] + Platform.Gauge(f[1], [device], v[1]);
    assert GaugesBehind(head, f, device, v, 5)
        == three + Platform.Gauge(f[3], [device], v[3]) + Platform.Gauge(f[4], [device], v[4]);
    assert GaugesBehind(head, f, device, v, 7)
        == GaugesBehind(head, f, device, v, 5) + Platform.Gauge(f[5], [device], v[5])
           + Platform.Gauge(f[6], [device], v[6]);
  }

  function StorageValues(parse: ParseNumber, fields: Fields): seq<Option<real>> {
    [None, Platform.Number(parse, fields, "health"), Platform.Number(parse, fields, "temperature"),
     Platform.Number(parse, fields, "reserved_blocks"), Platform.Number(parse, fields, "total_fsio_reads"),
     Platform.Number(parse, fields, "total_fsio_writes"), Platform.Number(parse, fields, "disk_io_reads"),
     Platform.Number(parse, fields, "disk_io_writes")]
  }

  lemma StorageBlock(parse: ParseNumber, store: Store, key: string)
    requires Valid(Platform.StorageRules(parse), store, key)
    ensures Block(SeriesAt(Platform.StorageRules(parse), store, key), TrimPrefix(key, "STORAGE_INFO|"))
  {
    var fields, device, f := store.Hash(STATE_DB, key), TrimPrefix(key, "STORAGE_INFO|"), STORAGE_FAMILIES;
    var labels := [device, Get(fields, "device_model"), Get(fields, "serial"), Get(fields, "firmware")];
    var head, v := Series(f[0], labels, 1.0), StorageValues(parse, fields);
    StorageFamilies();
    SevenGauges(head, f, device, v);
    GaugesOneEach(head, f, device, v, 8);
    OneEachIds(GaugesBehind(head, f, device, v, 8), f[..8], device);
  }

  /** Storage series repeat exactly when a key was accepted twice. */
  lemma StorageIdsDistinct(parse: ParseNumber, store: Store, keys: seq<string>, max: nat)
    ensures var rules := Platform.StorageRules(parse);
            IdsDistinct(ReportOf(rules, store, keys, max).series) <==> Distinct(Chosen(rules, store, keys, max))
  {
    var rules := Platform.StorageRules(parse);
    forall key | Valid(rules, store, key)
      ensures Block(SeriesAt(rules, store, key), Behind("STORAGE_INFO|")(key))
    {
      StorageBlock(parse, store, key);
    }
    SuffixLabelled(rules, store, keys, max, "STORAGE_INFO|");
  }

  /** Neighbour series repeat exactly when a key was accepted twice. */
  lemma NeighborIdsDistinct(includeMgmt: bool, store: Store, keys: seq<string>, max: nat)
    ensures var rules := Lldp.LldpRules(includeMgmt);
            IdsDistinct(ReportOf(rules, store, keys, max).series) <==> Distinct(Chosen(rules, store, keys, max))
  {
    var rules := Lldp.LldpRules(includeMgmt);
    forall key | Valid(rules, store, key)
      ensures Block(SeriesAt(rules, store, key), Behind(Lldp.LLDP_PREFIX)(key))
    {
    }
    SuffixLabelled(rules, store, keys, max, Lldp.LLDP_PREFIX);
  }

  // ---------------------------------------------------------------- FDB

  lemma CountIds(family: string, h: Histogram, labels: seq<string>)
    requires Distinct(labels)
    ensures IdsDistinct(Map(CountSeries(family, h), labels))
    ensures forall s :: s in Map(CountSeries(family, h), labels) ==> s.family == family
  {
    var series := Map(CountSeries(family, h), labels);
    forall i, j | 0 <= i < j < |series| ensures !SameId(series[i], series[j]) {
      assert series[i].labels[0] == labels[i] && series[j].labels[0] == labels[j];
    }
  }

  lemma ShownDistinct(h: Histogram, cap: nat)
    ensures Distinct(Shown(h, cap)) && Distinct(SortedSet(h.Keys))
  {
    SortedSetProperties(h.Keys);
  }

  /** Blocks of different families, one behind another, repeat nothing if none of them does. */
  lemma FourBlocks(a: seq<Series>, b: seq<Series>, c: seq<Series>, d: seq<Series>)
    requires IdsDistinct(a) && IdsDistinct(b) && IdsDistinct(c) && IdsDistinct(d)
    requires Apart(a, b) && Apart(a, c) && Apart(a, d) && Apart(b, c) && Apart(b, d) && Apart(c, d)
    ensures IdsDistinct(a + b + c + d)
  {
    IdsAppend(a, b);
    IdsAppend(a + b, c);
    IdsAppend(a + b + c, d);
  }

  lemma FdbFamilies(v: string, p: string, t: string)
    requires v == "sonic_fdb_entries_by_vlan" && p == "sonic_fdb_entries_by_port" && t == "sonic_fdb_entries_by_type"
    ensures v != p && v != t && p != t && |v| == |p| == |t| == 25
  {
    assert v[21] == 'v' && p[21] == 'p' && t[21] == 't';
  }

  /** The FDB collector never emits a series twice, whatever its tables hold. */
  lemma FdbIdsDistinct(c: Fdb.Counts, limits: Fdb.Limits)
    ensures IdsDistinct(Fdb.SeriesOf(c, limits))
  {
    var v, p, t := "sonic_fdb_entries_by_vlan", "sonic_fdb_entries_by_port", "sonic_fdb_entries_by_type";
    FdbFamilies(v, p, t);
    var heads := [Series("sonic_fdb_entries", [], c.total as real),
                  Series("sonic_fdb_entries_unknown_vlan", [], c.unknownVlan as real)];
    assert |heads[0].family| == 17 && |heads[1].family| == 30;
    ShownDistinct(c.byVlan, limits.maxVlans);
    ShownDistinct(c.byPort, limits.maxPorts);
    ShownDistinct(c.byType, 0);
    CountIds(v, c.byVlan, Shown(c.byVlan, limits.maxVlans));
    CountIds(p, c.byPort, Shown(c.byPort, limits.maxPorts));
    CountIds(t, c.byType, SortedSet(c.byType.Keys));
    FourBlocks(heads, Map(CountSeries(v, c.byVlan), Shown(c.byVlan, limits.maxVlans)),
               Map(CountSeries(p, c.byPort), Shown(c.byPort, limits.maxPorts)),
               Map(CountSeries(t, c.byType), SortedSet(c.byType.Keys)));
  }
}
