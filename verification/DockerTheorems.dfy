/** What the series of a container show: which field of its entry each family reads. */
module DockerTheorems {
  import opened Results
  import opened Sequences
  import opened Strings
  import opened Sorting
  import opened Redis
  import opened Metrics
  import opened AcceptedCap
  import opened DockerCollector

  /** The family shows the number in the field, under the container's name, or nothing if there is no such number. */
  ghost predicate NumberShown(parse: ParseNumber, fields: Fields, series: seq<Series>, family: string, field: string) {
    var container, text := TrimSpace(Get(fields, "NAME")), TrimSpace(Get(fields, field));
    && (text == "" || parse(text) == None ==> OfFamily(family, series) == [])
    && (text != "" && parse(text).Some? ==>
        OfFamily(family, series) == [Series(family, [container], parse(text).value)])
  }

  lemma NumberFamily(parse: ParseNumber, fields: Fields, container: string, field: (string, string), family: string)
    ensures OfFamily(family, NumberSeries(parse, fields, container)(field))
         == if family == field.1 then NumberSeries(parse, fields, container)(field) else []
  {
    FilterAll(InFamily(family), NumberSeries(parse, fields, container)(field));
  }

  /** The series of one family among those of the numbers. */
  function FamilyAmong(parse: ParseNumber, fields: Fields, container: string, numbers: seq<(string, string)>,
                       family: string): seq<Series> {
    OfFamily(family, FlatMap(NumberSeries(parse, fields, container), numbers))
  }

  lemma FamilyStep(parse: ParseNumber, fields: Fields, container: string, numbers: seq<(string, string)>,
                   family: string)
    requires numbers != []
    ensures var front, last := numbers[..|numbers| - 1], numbers[|numbers| - 1];
            FamilyAmong(parse, fields, container, numbers, family)
            == FamilyAmong(parse, fields, container, front, family)
               + if family == last.1 then NumberSeries(parse, fields, container)(last) else []
  {
    var block, front, last := NumberSeries(parse, fields, container), numbers[..|numbers| - 1], numbers[|numbers| - 1];
    NumberFamily(parse, fields, container, last, family);
    FilterAppend(InFamily(family), FlatMap(block, front), block(last));
  }

  lemma {:induction false} NumbersNoFamily(parse: ParseNumber, fields: Fields, container: string,
                                           numbers: seq<(string, string)>, family: string)
    requires forall i :: 0 <= i < |numbers| ==> numbers[i].1 != family
    ensures FamilyAmong(parse, fields, container, numbers, family) == []
  {
    if numbers != [] {
      NumbersNoFamily(parse, fields, container, numbers[..|numbers| - 1], family);
      FamilyStep(parse, fields, container, numbers, family);
    }
  }

  lemma FamilyAppend(parse: ParseNumber, fields: Fields, container: string, a: seq<(string, string)>,
                     b: seq<(string, string)>, family: string)
    ensures FamilyAmong(parse, fields, container, a + b, family)
         == FamilyAmong(parse, fields, container, a, family) + FamilyAmong(parse, fields, container, b, family)
  {
    var block := NumberSeries(parse, fields, container);
    FlatMapAppend(block, a, b);
    FilterAppend(InFamily(family), FlatMap(block, a), FlatMap(block, b));
  }

  lemma NumbersFamily(parse: ParseNumber, fields: Fields, container: string, a: seq<(string, string)>,
                      field: (string, string), b: seq<(string, string)>)
    requires forall i :: 0 <= i < |a| ==> a[i].1 != field.1
    requires forall i :: 0 <= i < |b| ==> b[i].1 != field.1
    ensures FamilyAmong(parse, fields, container, a + [field] + b, field.1)
         == NumberSeries(parse, fields, container)(field)
  {
    FamilyAppend(parse, fields, container, a + [field], b, field.1);
    FamilyAppend(parse, fields, container, a, [field], field.1);
    NumbersNoFamily(parse, fields, container, a, field.1);
    NumbersNoFamily(parse, fields, container, b, field.1);
    NumbersNoFamily(parse, fields, container, [], field.1);
    assert [field][..0] == [];
    FamilyStep(parse, fields, container, [field], field.1);
  }

  lemma BehindInfo(info: Series, rest: seq<Series>, family: string)
    requires info.family != family
    ensures OfFamily(family, [info] + rest) == OfFamily(family, rest)
  {
    FilterAll(InFamily(family), [info]);
    FilterAppend(InFamily(family), [info], rest);
  }

  function ContainerSeries(parse: ParseNumber, fields: Fields, info: Series,
                           numbers: seq<(string, string)>): seq<Series> {
    [info] + FlatMap(NumberSeries(parse, fields, TrimSpace(Get(fields, "NAME"))), numbers)
  }

  lemma NumberShownAt(parse: ParseNumber, fields: Fields, info: Series, numbers: seq<(string, string)>, k: nat)
    requires k < |numbers| && FamiliesDiffer(info.family, numbers)
    ensures NumberShown(parse, fields, ContainerSeries(parse, fields, info, numbers), numbers[k].1, numbers[k].0)
  {
    var container := TrimSpace(Get(fields, "NAME"));
    assert numbers == numbers[..k] + [numbers[k]] + numbers[k + 1..];
    NumbersFamily(parse, fields, container, numbers[..k], numbers[k], numbers[k + 1..]);
    BehindInfo(info, FlatMap(NumberSeries(parse, fields, container), numbers), numbers[k].1);
  }

  lemma NumbersShown(parse: ParseNumber, fields: Fields, info: Series, numbers: seq<(string, string)>)
    requires FamiliesDiffer(info.family, numbers)
    ensures var series := ContainerSeries(parse, fields, info, numbers);
            forall k :: 0 <= k < |numbers| ==> NumberShown(parse, fields, series, numbers[k].1, numbers[k].0)
  {
    var series := ContainerSeries(parse, fields, info, numbers);
    forall k | 0 <= k < |numbers| ensures NumberShown(parse, fields, series, numbers[k].1, numbers[k].0) {
      NumberShownAt(parse, fields, info, numbers, k);
    }
  }

  /** Which field each family of a container shows. */
  ghost predicate ContainerTold(parse: ParseNumber, fields: Fields, series: seq<Series>) {
    && NumberShown(parse, fields, series, "sonic_docker_container_cpu_percent", "CPU%")
    && NumberShown(parse, fields, series, "sonic_docker_container_memory_usage_bytes", "MEM_BYTES")
    && NumberShown(parse, fields, series, "sonic_docker_container_memory_limit_bytes", "MEM_LIMIT_BYTES")
    && NumberShown(parse, fields, series, "sonic_docker_container_memory_percent", "MEM%")
    && NumberShown(parse, fields, series, "sonic_docker_container_network_receive_bytes_total", "NET_IN_BYTES")
    && NumberShown(parse, fields, series, "sonic_docker_container_network_transmit_bytes_total", "NET_OUT_BYTES")
    && NumberShown(parse, fields, series, "sonic_docker_container_block_read_bytes_total", "BLOCK_IN_BYTES")
    && NumberShown(parse, fields, series, "sonic_docker_container_block_write_bytes_total", "BLOCK_OUT_BYTES")
    && NumberShown(parse, fields, series, "sonic_docker_container_pids", "PIDS")
  }

  lemma FieldsTold(parse: ParseNumber, fields: Fields, series: seq<Series>)
    requires var n := DOCKER_FIELDS;
             forall k :: 0 <= k < |n| ==> NumberShown(parse, fields, series, n[k].1, n[k].0)
    ensures ContainerTold(parse, fields, series)
  {
    var n := DOCKER_FIELDS;
    assert NumberShown(parse, fields, series, n[0].1, n[0].0) && NumberShown(parse, fields, series, n[1].1, n[1].0);
    assert NumberShown(parse, fields, series, n[2].1, n[2].0) && NumberShown(parse, fields, series, n[3].1, n[3].0);
    assert NumberShown(parse, fields, series, n[4].1, n[4].0) && NumberShown(parse, fields, series, n[5].1, n[5].0);
    assert NumberShown(parse, fields, series, n[6].1, n[6].0) && NumberShown(parse, fields, series, n[7].1, n[7].0);
    assert NumberShown(parse, fields, series, n[8].1, n[8].0);
  }

  /** The series of every accepted container show the fields of its entry, family by family. */
  lemma ContainerShowsFields(parse: ParseNumber, store: Store, key: string)
    requires Valid(DockerRules(parse), store, key)
    ensures ContainerTold(parse, store.Hash(STATE_DB, key), SeriesAt(DockerRules(parse), store, key))
  {
    var fields := store.Hash(STATE_DB, key);
    var info := Series("sonic_docker_container_info", [TrimSpace(Get(fields, "NAME"))], 1.0);
    DockerFamilies();
    NumbersShown(parse, fields, info, DOCKER_FIELDS);
    FieldsTold(parse, fields, SeriesAt(DockerRules(parse), store, key));
  }

  /** A container is accepted exactly if its entry is not the time stamp's and names it. */
  lemma ContainerAcceptedExactly(parse: ParseNumber, store: Store, key: string)
    ensures Valid(DockerRules(parse), store, key)
       <==> key != "DOCKER_STATS|LastUpdateTime" && TrimSpace(Get(store.Hash(STATE_DB, key), "NAME")) != ""
  {
    assert TrimSpace("") == "";
  }

  /** The series of each exported container are in the report, unless their family is disabled. */
  lemma ContainerShown(parse: ParseNumber, parseTime: ParseTime, max: nat, threshold: nat, now: int, store: Store,
                       raw: string, filter: MetricFilter, key: string, s: Series)
    requires key in Chosen(DockerRules(parse), store, Sort(Self, store.Keys(STATE_DB, "DOCKER_STATS|*")), max)
    requires s in SeriesAt(DockerRules(parse), store, key)
    ensures s in ReportWith(DockerSource(parse, parseTime), max, threshold, now, store, raw, filter).series
       <==> filter.Enabled(s.family)
  {
    var src := DockerSource(parse, parseTime);
    ChosenShown(DockerRules(parse), store, ContainerKeys(src, store), max, key, s);
    FilterMembers(filter.Keeps(), ContainerReport(src, max, store).series);
  }

  /** The preferred names of the time stamp, in order of preference. */
  lemma PreferredTold(fields: Fields)
    ensures var a, b := TrimSpace(Get(fields, "lastupdate")), TrimSpace(Get(fields, "last_update"));
            var c, d := TrimSpace(Get(fields, "LastUpdate")), TrimSpace(Get(fields, "LastUpdateTime"));
            Preferred(fields, UPDATE_FIELDS) == if a != "" then a else if b != "" then b else if c != "" then c else d
  {
    var n := UPDATE_FIELDS;
    PreferredStep(fields, n, 0);
    PreferredStep(fields, n, 1);
    PreferredStep(fields, n, 2);
    PreferredStep(fields, n, 3);
    assert n[0..] == n && n[4..] == [];
  }

  lemma PreferredStep(fields: Fields, names: seq<string>, i: nat)
    requires i < |names|
    ensures Preferred(fields, names[i..])
         == if TrimSpace(Get(fields, names[i])) != "" then TrimSpace(Get(fields, names[i]))
            else Preferred(fields, names[i + 1..])
  {
    assert names[i..][1..] == names[i + 1..];
  }
}
