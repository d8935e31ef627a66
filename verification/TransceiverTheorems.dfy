/** What the transceiver series show: which field of which table each family reads, and which parser. */
module TransceiverTheorems {
  import opened Results
  import opened Sequences
  import opened Strings
  import opened Sorting
  import opened Redis
  import opened Metrics
  import opened LabelSets
  import opened TransceiverCollector
  import opened TransceiverLabels

  /**
   * The series of a family for a device: one for each field of `table` that is not excluded, with the number that the
   * parser makes of the field of the same name in `source`.
   */
  ghost predicate FieldsTold(series: seq<Series>, family: string, device: string, table: Fields, excluded: set<string>,
                             source: Fields, parse: string -> Option<real>) {
    forall field, v :: FieldTold(series, family, device, table, excluded, source, parse, field, v)
  }

  ghost predicate FieldTold(series: seq<Series>, family: string, device: string, table: Fields, excluded: set<string>,
                            source: Fields, parse: string -> Option<real>, field: string, v: real) {
    Series(family, [device, field], v) in series
    <==> field in table && field !in excluded && parse(Get(source, field)) == Some(v)
  }

  // ---------------------------------------------------------------- loops over fields

  lemma {:induction false} InBlocks(block: string -> seq<Series>, fields: seq<string>, s: Series)
    ensures s in FlatMap(block, fields) <==> exists field :: field in fields && s in block(field)
  {
    if fields != [] {
      var front, last := fields[..|fields| - 1], fields[|fields| - 1];
      assert fields == front + [last];
      InBlocks(block, front, s);
      if s in block(last) {
        assert last in fields;
      }
      if s in FlatMap(block, front) {
        var field :| field in front && s in block(field);
        assert field in fields;
      }
    }
  }

  /** The labels of an optional series tell its field. */
  lemma InOptional(family: string, device: string, field: string, at: string, value: Option<real>, family': string,
                   v: real)
    ensures Series(family, [device, field], v) in Optional(family', device, at, value)
       <==> family == family' && field == at && value == Some(v)
  {
    assert [device, field][1] == field && [device, at][1] == at;
  }

  /** The block of one field shows the source's field of that name, unless it is excluded. */
  ghost predicate BlockTold(block: string -> seq<Series>, family: string, device: string, excluded: set<string>,
                            source: Fields, parse: string -> Option<real>, at: string, field: string, v: real) {
    Series(family, [device, field], v) in block(at)
    <==> at == field && field !in excluded && parse(Get(source, field)) == Some(v)
  }

  lemma LoopTold(block: string -> seq<Series>, family: string, device: string, table: Fields, excluded: set<string>,
                 source: Fields, parse: string -> Option<real>)
    requires forall at, field, v :: BlockTold(block, family, device, excluded, source, parse, at, field, v)
    ensures FieldsTold(FlatMap(block, SortedSet(table.Keys)), family, device, table, excluded, source, parse)
  {
    var fields := SortedSet(table.Keys);
    SortedSetProperties(table.Keys);
    forall field, v
      ensures FieldTold(FlatMap(block, fields), family, device, table, excluded, source, parse, field, v)
    {
      var s := Series(family, [device, field], v);
      InBlocks(block, fields, s);
      assert field in table.Keys <==> field in fields;
      assert BlockTold(block, family, device, excluded, source, parse, field, field, v);
      if s in FlatMap(block, fields) {
        var at :| at in fields && s in block(at);
        assert BlockTold(block, family, device, excluded, source, parse, at, field, v);
      }
    }
  }

  lemma DataTold(family: string, device: string, data: Fields, parse: string -> Option<real>, excluded: set<string>)
    ensures FieldsTold(FlatMap(FieldSeries(family, device, data, parse, excluded), SortedSet(data.Keys)), family,
                       device, data, excluded, data, parse)
  {
    var block := FieldSeries(family, device, data, parse, excluded);
    forall at, field, v ensures BlockTold(block, family, device, excluded, data, parse, at, field, v) {
      InOptional(family, device, field, at, parse(Get(data, at)), family, v);
    }
    LoopTold(block, family, device, data, excluded, data, parse);
  }

  /** The four series of one flag, each in its own family. */
  lemma InFlag(p: Parsers, names: FlagNames, device: string, d: FlagData, at: string, family: string, field: string,
               v: real)
    ensures Series(family, [device, field], v) in FlagSeriesAt(p, names, device, d, at)
       <==> at == field
            && (|| (family == names.values && p.boolish(Get(d.values, field)) == Some(v))
                || (family == names.changes && p.counter(Get(d.changes, field)) == Some(v))
                || (family == names.sets && p.eventTime(Get(d.sets, field)) == Some(v))
                || (family == names.clears && p.eventTime(Get(d.clears, field)) == Some(v)))
  {
    InOptional(family, device, field, at, p.boolish(Get(d.values, at)), names.values, v);
    InOptional(family, device, field, at, p.counter(Get(d.changes, at)), names.changes, v);
    InOptional(family, device, field, at, p.eventTime(Get(d.sets, at)), names.sets, v);
    InOptional(family, device, field, at, p.eventTime(Get(d.clears, at)), names.clears, v);
  }

  /** One of the four families, with its table and parser. */
  ghost predicate FlagSource(p: Parsers, names: FlagNames, d: FlagData, family: string, source: Fields,
                             parse: string -> Option<real>) {
    || (family == names.values && source == d.values && parse == p.boolish)
    || (family == names.changes && source == d.changes && parse == p.counter)
    || (family == names.sets && source == d.sets && parse == p.eventTime)
    || (family == names.clears && source == d.clears && parse == p.eventTime)
  }

  ghost predicate FourDiffer(names: FlagNames) {
    && names.values != names.changes && names.values != names.sets && names.values != names.clears
    && names.changes != names.sets && names.changes != names.clears && names.sets != names.clears
  }

  lemma FlagTold(p: Parsers, names: FlagNames, device: string, d: FlagData, family: string, source: Fields,
                 parse: string -> Option<real>)
    requires FourDiffer(names) && FlagSource(p, names, d, family, source, parse)
    ensures FieldsTold(FlatMap(FlagSeries(p, names, device, d), SortedSet(d.values.Keys)), family, device, d.values, {},
                       source, parse)
  {
    var block := FlagSeries(p, names, device, d);
    forall at, field, v ensures BlockTold(block, family, device, {}, source, parse, at, field, v) {
      InFlag(p, names, device, d, at, family, field, v);
    }
    LoopTold(block, family, device, d.values, {}, source, parse);
  }

  // ---------------------------------------------------------------- all series of a device

  /** Five blocks with nothing in common: what is in one family of one block is in the whole list exactly if there. */
  ghost predicate FiveApart(fs: seq<seq<string>>) {
    |fs| == 5 && forall i, j, x :: 0 <= i < j < 5 && x in fs[i] ==> x !in fs[j]
  }

  lemma OneOfFive(a: seq<Series>, b: seq<Series>, c: seq<Series>, d: seq<Series>, e: seq<Series>, fs: seq<seq<string>>,
                  s: Series)
    requires FiveApart(fs) && InFamilies(a, fs[0]) && InFamilies(b, fs[1]) && InFamilies(c, fs[2])
    requires InFamilies(d, fs[3]) && InFamilies(e, fs[4])
    ensures s.family in fs[0] ==> (s in a + b + c + d + e <==> s in a)
    ensures s.family in fs[1] ==> (s in a + b + c + d + e <==> s in b)
    ensures s.family in fs[2] ==> (s in a + b + c + d + e <==> s in c)
    ensures s.family in fs[3] ==> (s in a + b + c + d + e <==> s in d)
    ensures s.family in fs[4] ==> (s in a + b + c + d + e <==> s in e)
  {
  }

  function BlocksOf(names: Names): seq<seq<string>> {
    [[names.moduleInfo], [names.status], FlagFamilies(names.domFlags), FlagFamilies(names.statusFlags),
     [names.threshold]]
  }

  lemma NamesApart(names: Names)
    requires FamiliesApart(names)
    ensures FiveApart(BlocksOf(names)) && FourDiffer(names.domFlags) && FourDiffer(names.statusFlags)
  {
    var three := [names.moduleInfo, names.status, names.threshold];
    assert three[0] != three[1] && three[0] != three[2] && three[1] != three[2];
    var f, g := FlagFamilies(names.domFlags), FlagFamilies(names.statusFlags);
    assert f[0] != f[1] && f[0] != f[2] && f[0] != f[3] && f[1] != f[2] && f[1] != f[3] && f[2] != f[3];
    assert g[0] != g[1] && g[0] != g[2] && g[0] != g[3] && g[1] != g[2] && g[1] != g[3] && g[2] != g[3];
  }

  /** What a list tells of a family, the whole list tells too if it has the family only there. */
  lemma PartTold(part: seq<Series>, whole: seq<Series>, family: string, device: string, table: Fields,
                 excluded: set<string>, source: Fields, parse: string -> Option<real>)
    requires FieldsTold(part, family, device, table, excluded, source, parse)
    requires forall s: Series :: s.family == family ==> (s in whole <==> s in part)
    ensures FieldsTold(whole, family, device, table, excluded, source, parse)
  {
    forall field, v ensures FieldTold(whole, family, device, table, excluded, source, parse, field, v) {
      assert FieldTold(part, family, device, table, excluded, source, parse, field, v);
      assert Series(family, [device, field], v).family == family;
    }
  }

  ghost predicate FlagsTold(series: seq<Series>, p: Parsers, names: FlagNames, device: string, d: FlagData) {
    && FieldsTold(series, names.values, device, d.values, {}, d.values, p.boolish)
    && FieldsTold(series, names.changes, device, d.values, {}, d.changes, p.counter)
    && FieldsTold(series, names.sets, device, d.values, {}, d.sets, p.eventTime)
    && FieldsTold(series, names.clears, device, d.values, {}, d.clears, p.eventTime)
  }

  lemma FlagsPart(p: Parsers, names: FlagNames, device: string, d: FlagData, whole: seq<Series>)
    requires FourDiffer(names)
    requires var part := FlatMap(FlagSeries(p, names, device, d), SortedSet(d.values.Keys));
             forall s: Series :: s.family in FlagFamilies(names) ==> (s in whole <==> s in part)
    ensures FlagsTold(whole, p, names, device, d)
  {
    var part, f := FlatMap(FlagSeries(p, names, device, d), SortedSet(d.values.Keys)), FlagFamilies(names);
    assert f[0] in f && f[1] in f && f[2] in f && f[3] in f;
    FlagTold(p, names, device, d, names.values, d.values, p.boolish);
    FlagTold(p, names, device, d, names.changes, d.changes, p.counter);
    FlagTold(p, names, device, d, names.sets, d.sets, p.eventTime);
    FlagTold(p, names, device, d, names.clears, d.clears, p.eventTime);
    PartTold(part, whole, names.values, device, d.values, {}, d.values, p.boolish);
    PartTold(part, whole, names.changes, device, d.values, {}, d.changes, p.counter);
    PartTold(part, whole, names.sets, device, d.values, {}, d.sets, p.eventTime);
    PartTold(part, whole, names.clears, device, d.values, {}, d.clears, p.eventTime);
  }

  /** The blocks of a device have the families of its names. */
  lemma DeviceBlocks(p: Parsers, names: Names, device: string, s: Status)
    requires FamiliesApart(names)
    ensures InFamilies(FlatMap(FieldSeries(names.status, device, s.data, p.boolish, STATUS_EXCLUDED),
                               SortedSet(s.data.Keys)), [names.status])
    ensures InFamilies(FlatMap(FlagSeries(p, names.domFlags, device, s.domFlags), SortedSet(s.domFlags.values.Keys)),
                       FlagFamilies(names.domFlags))
    ensures InFamilies(FlatMap(FlagSeries(p, names.statusFlags, device, s.statusFlags),
                               SortedSet(s.statusFlags.values.Keys)), FlagFamilies(names.statusFlags))
    ensures InFamilies(FlatMap(FieldSeries(names.threshold, device, s.threshold, p.counter, THRESHOLD_EXCLUDED),
                               SortedSet(s.threshold.Keys)), [names.threshold])
  {
    SingleBlocks(names.status, device, s.data, p.boolish, STATUS_EXCLUDED);
    FlagBlocks(p, names.domFlags, device, s.domFlags);
    FlagBlocks(p, names.statusFlags, device, s.statusFlags);
    SingleBlocks(names.threshold, device, s.threshold, p.counter, THRESHOLD_EXCLUDED);
    SetFields(FieldSeries(names.status, device, s.data, p.boolish, STATUS_EXCLUDED), device, [names.status],
              s.data.Keys);
    SetFields(FlagSeries(p, names.domFlags, device, s.domFlags), device, FlagFamilies(names.domFlags),
              s.domFlags.values.Keys);
    SetFields(FlagSeries(p, names.statusFlags, device, s.statusFlags), device, FlagFamilies(names.statusFlags),
              s.statusFlags.values.Keys);
    SetFields(FieldSeries(names.threshold, device, s.threshold, p.counter, THRESHOLD_EXCLUDED), device,
              [names.threshold], s.threshold.Keys);
  }

  ghost predicate DeviceTold(p: Parsers, names: Names, device: string, s: Status, series: seq<Series>) {
    && FieldsTold(series, names.status, device, s.data, STATUS_EXCLUDED, s.data, p.boolish)
    && FlagsTold(series, p, names.domFlags, device, s.domFlags)
    && FlagsTold(series, p, names.statusFlags, device, s.statusFlags)
    && FieldsTold(series, names.threshold, device, s.threshold, THRESHOLD_EXCLUDED, s.threshold, p.counter)
  }

  /** Each block is what the whole list has of its families. */
  ghost predicate Only(series: seq<Series>, part: seq<Series>, families: seq<string>) {
    forall s: Series :: s.family in families ==> (s in series <==> s in part)
  }

  lemma FiveOnly(info: seq<Series>, a: seq<Series>, b: seq<Series>, c: seq<Series>, d: seq<Series>,
                 fs: seq<seq<string>>)
    requires FiveApart(fs) && InFamilies(info, fs[0]) && InFamilies(a, fs[1]) && InFamilies(b, fs[2])
    requires InFamilies(c, fs[3]) && InFamilies(d, fs[4])
    ensures var series := info + a + b + c + d;
            Only(series, a, fs[1]) && Only(series, b, fs[2]) && Only(series, c, fs[3]) && Only(series, d, fs[4])
  {
    forall s: Series {
      OneOfFive(info, a, b, c, d, fs, s);
    }
  }

  lemma StatusSeriesTold(p: Parsers, names: Names, device: string, s: Status)
    requires FamiliesApart(names)
    ensures DeviceTold(p, names, device, s, StatusSeries(p, names, device, s))
  {
    var info := [Series(names.moduleInfo, [device, Get(s.data, "module_state"), Get(s.data, "module_fault_cause")],
                        1.0)];
    var a := FlatMap(FieldSeries(names.status, device, s.data, p.boolish, STATUS_EXCLUDED), SortedSet(s.data.Keys));
    var b := FlatMap(FlagSeries(p, names.domFlags, device, s.domFlags), SortedSet(s.domFlags.values.Keys));
    var c := FlatMap(FlagSeries(p, names.statusFlags, device, s.statusFlags), SortedSet(s.statusFlags.values.Keys));
    var d := FlatMap(FieldSeries(names.threshold, device, s.threshold, p.counter, THRESHOLD_EXCLUDED),
                     SortedSet(s.threshold.Keys));
    NamesApart(names);
    DeviceBlocks(p, names, device, s);
    FiveOnly(info, a, b, c, d, BlocksOf(names));
    BlocksTold(p, names, device, s, info + a + b + c + d, a, b, c, d);
  }

  lemma BlocksTold(p: Parsers, names: Names, device: string, s: Status, series: seq<Series>, a: seq<Series>,
                   b: seq<Series>, c: seq<Series>, d: seq<Series>)
    requires FourDiffer(names.domFlags) && FourDiffer(names.statusFlags)
    requires a == FlatMap(FieldSeries(names.status, device, s.data, p.boolish, STATUS_EXCLUDED), SortedSet(s.data.Keys))
    requires b == FlatMap(FlagSeries(p, names.domFlags, device, s.domFlags), SortedSet(s.domFlags.values.Keys))
    requires c == FlatMap(FlagSeries(p, names.statusFlags, device, s.statusFlags), SortedSet(s.statusFlags.values.Keys))
    requires d == FlatMap(FieldSeries(names.threshold, device, s.threshold, p.counter, THRESHOLD_EXCLUDED),
                          SortedSet(s.threshold.Keys))
    requires Only(series, a, [names.status]) && Only(series, b, FlagFamilies(names.domFlags))
    requires Only(series, c, FlagFamilies(names.statusFlags)) && Only(series, d, [names.threshold])
    ensures DeviceTold(p, names, device, s, series)
  {
    DataTold(names.status, device, s.data, p.boolish, STATUS_EXCLUDED);
    PartTold(a, series, names.status, device, s.data, STATUS_EXCLUDED, s.data, p.boolish);
    FlagsPart(p, names.domFlags, device, s.domFlags, series);
    FlagsPart(p, names.statusFlags, device, s.statusFlags, series);
    DataTold(names.threshold, device, s.threshold, p.counter, THRESHOLD_EXCLUDED);
    PartTold(d, series, names.threshold, device, s.threshold, THRESHOLD_EXCLUDED, s.threshold, p.counter);
  }

  // ---------------------------------------------------------------- the tables of a device

  function Table(store: Store, table: string, device: string): Fields {
    store.Hash(STATE_DB, table + device)
  }

  /** A flag table shows, under its four families, values, changes, and the times of the last set and clear. */
  ghost predicate FlagTableTold(store: Store, p: Parsers, device: string, series: seq<Series>, tables: FlagNames,
                                families: FlagNames) {
    var flags := Table(store, tables.values, device);
    && FieldsTold(series, families.values, device, flags, {}, flags, p.boolish)
    && FieldsTold(series, families.changes, device, flags, {}, Table(store, tables.changes, device), p.counter)
    && FieldsTold(series, families.sets, device, flags, {}, Table(store, tables.sets, device), p.eventTime)
    && FieldsTold(series, families.clears, device, flags, {}, Table(store, tables.clears, device), p.eventTime)
  }

  ghost predicate TransceiverTold(store: Store, p: Parsers, device: string, series: seq<Series>) {
    var status, threshold := Table(store, "TRANSCEIVER_STATUS|", device),
                             Table(store, "TRANSCEIVER_DOM_THRESHOLD|", device);
    && Series("sonic_transceiver_module_info",
              [device, Get(status, "module_state"), Get(status, "module_fault_cause")], 1.0) in series
    && FieldsTold(series, "sonic_transceiver_status_value", device, status,
                  {"module_state", "module_fault_cause", "last_update_time"}, status, p.boolish)
    && FlagTableTold(store, p, device, series,
                     FlagNames("TRANSCEIVER_DOM_FLAG|", "TRANSCEIVER_DOM_FLAG_CHANGE_COUNT|",
                               "TRANSCEIVER_DOM_FLAG_SET_TIME|", "TRANSCEIVER_DOM_FLAG_CLEAR_TIME|"),
                     FlagNames("sonic_transceiver_dom_flag_value", "sonic_transceiver_dom_flag_changes_total",
                               "sonic_transceiver_dom_flag_last_set_timestamp_seconds",
                               "sonic_transceiver_dom_flag_last_clear_timestamp_seconds"))
    && FlagTableTold(store, p, device, series,
                     FlagNames("TRANSCEIVER_STATUS_FLAG|", "TRANSCEIVER_STATUS_FLAG_CHANGE_COUNT|",
                               "TRANSCEIVER_STATUS_FLAG_SET_TIME|", "TRANSCEIVER_STATUS_FLAG_CLEAR_TIME|"),
                     FlagNames("sonic_transceiver_status_flag_value", "sonic_transceiver_status_flag_changes_total",
                               "sonic_transceiver_status_flag_last_set_timestamp_seconds",
                               "sonic_transceiver_status_flag_last_clear_timestamp_seconds"))
    && FieldsTold(series, "sonic_transceiver_dom_threshold_value", device, threshold, {"last_update_time"}, threshold,
                  p.counter)
  }

  lemma FlagsOfTable(store: Store, p: Parsers, device: string, series: seq<Series>, tables: FlagNames,
                     families: FlagNames)
    requires FlagsTold(series, p, families, device, FlagDataOf(store, tables, device))
    ensures FlagTableTold(store, p, device, series, tables, families)
  {
  }

  /** What is told of the status of a device, is told of its tables. */
  ghost predicate TablesTold(store: Store, p: Parsers, device: string, series: seq<Series>, t: Tables, n: Names) {
    && FieldsTold(series, n.status, device, Table(store, t.status, device), STATUS_EXCLUDED,
                  Table(store, t.status, device), p.boolish)
    && FlagTableTold(store, p, device, series, t.domFlags, n.domFlags)
    && FlagTableTold(store, p, device, series, t.statusFlags, n.statusFlags)
    && FieldsTold(series, n.threshold, device, Table(store, t.threshold, device), THRESHOLD_EXCLUDED,
                  Table(store, t.threshold, device), p.counter)
  }

  lemma TablesOfDevice(store: Store, t: Tables, p: Parsers, n: Names, device: string)
    requires FamiliesApart(n)
    ensures TablesTold(store, p, device, StatusSeries(p, n, device, StatusOf(store, t, t.status + device, device)),
                       t, n)
  {
    var s := StatusOf(store, t, t.status + device, device);
    var series := StatusSeries(p, n, device, s);
    StatusSeriesTold(p, n, device, s);
    FlagsOfTable(store, p, device, series, t.domFlags, n.domFlags);
    FlagsOfTable(store, p, device, series, t.statusFlags, n.statusFlags);
  }

  lemma StatusAtDevice(store: Store, t: Tables, p: Parsers, n: Names, device: string)
    requires device != ""
    ensures StatusAt(store, t, p, n)(t.status + device)
         == StatusSeries(p, n, device, StatusOf(store, t, t.status + device, device))
  {
    assert (t.status + device)[|t.status|..] == device;
  }

  lemma InfoIn(p: Parsers, n: Names, device: string, s: Status)
    ensures Series(n.moduleInfo, [device, Get(s.data, "module_state"), Get(s.data, "module_fault_cause")], 1.0)
         in StatusSeries(p, n, device, s)
  {
  }

  /** Every device with a status shows, in each family, exactly the fields of the family's table. */
  lemma DeviceShown(store: Store, p: Parsers, device: string)
    requires device != "" && store.Hash(STATE_DB, "TRANSCEIVER_STATUS|" + device) != map[]
    ensures HasStatus(store, TRANSCEIVER_TABLES)("TRANSCEIVER_STATUS|" + device)
    ensures TransceiverTold(store, p, device,
                            StatusAt(store, TRANSCEIVER_TABLES, p, TRANSCEIVER_NAMES)("TRANSCEIVER_STATUS|" + device))
  {
    var t, n := TRANSCEIVER_TABLES, TRANSCEIVER_NAMES;
    TransceiverFamilies();
    TablesOfDevice(store, t, p, n, device);
    StatusAtDevice(store, t, p, n, device);
    InfoIn(p, n, device, StatusOf(store, t, t.status + device, device));
  }

  /** The labels of an identity. */
  function IdentityLabels(device: string, info: Fields): seq<string> {
    [device, TrimSpace(Get(info, "manufacturer")), TrimSpace(Get(info, "model")), TrimSpace(Get(info, "serial")),
     TrimSpace(Get(info, "vendor_rev")), TrimSpace(Get(info, "vendor_oui")), TrimSpace(Get(info, "type"))]
  }

  /** Every device with an identity shows it, label by label. */
  lemma IdentityShown(store: Store, device: string)
    requires device != ""
    ensures var info, key := Table(store, "TRANSCEIVER_INFO|", device), "TRANSCEIVER_INFO|" + device;
            IdentityAt(store, TRANSCEIVER_TABLES, TRANSCEIVER_NAMES, IDENTITY_FIELDS)(key)
            == [Series("sonic_transceiver_identity_info", IdentityLabels(device, info), 1.0)]
  {
    IdentityAtDevice(store, TRANSCEIVER_TABLES, TRANSCEIVER_NAMES, IDENTITY_FIELDS, device);
    LabelsInOrder(device, Table(store, "TRANSCEIVER_INFO|", device));
  }

  lemma LabelsInOrder(device: string, info: Fields)
    ensures [device] + Map(Trimmed(info), IDENTITY_FIELDS) == IdentityLabels(device, info)
  {
    SevenLabels(device, Map(Trimmed(info), IDENTITY_FIELDS));
    SixInOrder(Trimmed(info));
  }

  lemma SevenLabels(device: string, labels: seq<string>)
    ensures |labels| == 6 ==>
      [device] + labels == [device, labels[0], labels[1], labels[2], labels[3], labels[4], labels[5]]
  {
  }

  lemma IdentityAtDevice(store: Store, t: Tables, n: Names, fields: seq<string>, device: string)
    requires device != ""
    ensures IdentityAt(store, t, n, fields)(t.identity + device)
         == [Series(n.identity, [device] + Map(Trimmed(Table(store, t.identity, device)), fields), 1.0)]
  {
    assert (t.identity + device)[|t.identity|..] == device;
  }

  lemma SixInOrder(f: string -> string)
    ensures Map(f, IDENTITY_FIELDS)
         == [f("manufacturer"), f("model"), f("serial"), f("vendor_rev"), f("vendor_oui"), f("type")]
  {
  }

  /** The series of each accepted key below the cap are in the report. */
  lemma TransceiverShows(store: Store, t: Tables, p: Parsers, names: Names, fields: seq<string>, scans: Scans, max: nat,
                         key: string, s: Series)
    ensures key in Filter(HasStatus(store, t), Window(scans.status, max)) && s in StatusAt(store, t, p, names)(key)
      ==> s in ReportOf(store, t, p, names, fields, scans, max).series
    ensures key in Filter(HasIdentity(store, t, fields), Window(scans.identity, max))
        && s in IdentityAt(store, t, names, fields)(key)
      ==> s in ReportOf(store, t, p, names, fields, scans, max).series
  {
    InBlocks(StatusAt(store, t, p, names), Filter(HasStatus(store, t), Window(scans.status, max)), s);
    InBlocks(IdentityAt(store, t, names, fields), Filter(HasIdentity(store, t, fields), Window(scans.identity, max)),
             s);
  }
}
