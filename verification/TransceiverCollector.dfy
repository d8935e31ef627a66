/** The transceiver collector: two loops with a cap on the index, whose counters are merged into one report. */
module TransceiverCollector {
  import opened Results
  import opened Sequences
  import opened Strings
  import opened Sorting
  import opened Redis
  import opened Metrics
  import opened AcceptedCap

  /** Reading booleans, counters and event times, which is not part of this model. */
  datatype Parsers = Parsers(boolish: string -> Option<real>, counter: string -> Option<real>,
                             eventTime: string -> Option<real>)

  /** Table prefixes or metric families of one group of flags. */
  datatype FlagNames = FlagNames(values: string, changes: string, sets: string, clears: string)

  datatype Names = Names(identity: string, moduleInfo: string, status: string, domFlags: FlagNames,
                         statusFlags: FlagNames, threshold: string)

  datatype Tables = Tables(identity: string, status: string, domFlags: FlagNames, statusFlags: FlagNames,
                           threshold: string)

  const TRANSCEIVER_TABLES := Tables(
    "TRANSCEIVER_INFO|", "TRANSCEIVER_STATUS|",
    FlagNames("TRANSCEIVER_DOM_FLAG|", "TRANSCEIVER_DOM_FLAG_CHANGE_COUNT|", "TRANSCEIVER_DOM_FLAG_SET_TIME|",
              "TRANSCEIVER_DOM_FLAG_CLEAR_TIME|"),
    FlagNames("TRANSCEIVER_STATUS_FLAG|", "TRANSCEIVER_STATUS_FLAG_CHANGE_COUNT|", "TRANSCEIVER_STATUS_FLAG_SET_TIME|",
              "TRANSCEIVER_STATUS_FLAG_CLEAR_TIME|"),
    "TRANSCEIVER_DOM_THRESHOLD|")

  const TRANSCEIVER_NAMES := Names(
    "sonic_transceiver_identity_info", "sonic_transceiver_module_info", "sonic_transceiver_status_value",
    FlagNames("sonic_transceiver_dom_flag_value", "sonic_transceiver_dom_flag_changes_total",
              "sonic_transceiver_dom_flag_last_set_timestamp_seconds",
              "sonic_transceiver_dom_flag_last_clear_timestamp_seconds"),
    FlagNames("sonic_transceiver_status_flag_value", "sonic_transceiver_status_flag_changes_total",
              "sonic_transceiver_status_flag_last_set_timestamp_seconds",
              "sonic_transceiver_status_flag_last_clear_timestamp_seconds"),
    "sonic_transceiver_dom_threshold_value")

  // ---------------------------------------------------------------- the series of one transceiver

  const IDENTITY_FIELDS: seq<string> := ["manufacturer", "model", "serial", "vendor_rev", "vendor_oui", "type"]

  function Trimmed(data: Fields): string -> string {
    (field: string) => TrimSpace(Get(data, field))
  }

  function Blank(s: string): bool { s == "" }

  predicate NoIdentity(identityFields: seq<string>, data: Fields) {
    Every(Blank, Map(Trimmed(data), identityFields))
  }

  function IdentitySeries(family: string, identityFields: seq<string>, device: string, data: Fields): Series {
    Series(family, [device] + Map(Trimmed(data), identityFields), 1.0)
  }

  function Optional(family: string, device: string, field: string, value: Option<real>): seq<Series> {
    match value
    case None => []
    case Some(v) => [Series(family, [device, field], v)]
  }

  /** One series for each field with a value that parses, in ascending field order. */
  function FieldSeries(family: string, device: string, data: Fields, parse: string -> Option<real>,
                       excluded: set<string>)
    : string -> seq<Series>
  {
    (field: string) => if field in excluded then [] else Optional(family, device, field, parse(Get(data, field)))
  }

  datatype FlagData = FlagData(values: Fields, changes: Fields, sets: Fields, clears: Fields)

  function FlagSeriesAt(p: Parsers, names: FlagNames, device: string, d: FlagData, field: string): seq<Series> {
    Optional(names.values, device, field, p.boolish(Get(d.values, field)))
    + Optional(names.changes, device, field, p.counter(Get(d.changes, field)))
    + Optional(names.sets, device, field, p.eventTime(Get(d.sets, field)))
    + Optional(names.clears, device, field, p.eventTime(Get(d.clears, field)))
  }

  function FlagSeries(p: Parsers, names: FlagNames, device: string, d: FlagData): string -> seq<Series> {
    (field: string) => FlagSeriesAt(p, names, device, d, field)
  }

  /** All tables of one device. */
  datatype Status = Status(data: Fields, domFlags: FlagData, statusFlags: FlagData, threshold: Fields)

  const STATUS_EXCLUDED: set<string> := {"module_state", "module_fault_cause", "last_update_time"}
  const THRESHOLD_EXCLUDED: set<string> := {"last_update_time"}

  ghost function StatusSeries(p: Parsers, names: Names, device: string, s: Status): seq<Series> {
    [Series(names.moduleInfo, [device, Get(s.data, "module_state"), Get(s.data, "module_fault_cause")], 1.0)]
    + FlatMap(FieldSeries(names.status, device, s.data, p.boolish, STATUS_EXCLUDED), SortedSet(s.data.Keys))
    + FlatMap(FlagSeries(p, names.domFlags, device, s.domFlags), SortedSet(s.domFlags.values.Keys))
    + FlatMap(FlagSeries(p, names.statusFlags, device, s.statusFlags), SortedSet(s.statusFlags.values.Keys))
    + FlatMap(FieldSeries(names.threshold, device, s.threshold, p.counter, THRESHOLD_EXCLUDED),
              SortedSet(s.threshold.Keys))
  }

  method EmitOptional(filter: MetricFilter, metrics: seq<Series>, family: string, device: string, field: string,
                      value: Option<real>)
    returns (metrics': seq<Series>)
    ensures metrics' == metrics + filter.Keep(Optional(family, device, field, value))
  {
    metrics' := metrics;
    if value.Some? {
      var s := Series(family, [device, field], value.value);
      filter.EmitKeeps([], s);
      assert [] + [s] == [s];
      metrics' := filter.Emit(metrics, s);
    }
  }

  lemma AppendStep(filter: MetricFilter, f: string -> seq<Series>, fields: seq<string>, i: nat, metrics: seq<Series>)
    requires i < |fields|
    ensures metrics + filter.Keep(FlatMap(f, fields[..i])) + filter.Keep(f(fields[i]))
         == metrics + filter.Keep(FlatMap(f, fields[..i + 1]))
  {
    TakeSnoc(fields, i);
    filter.KeepAppend(FlatMap(f, fields[..i]), f(fields[i]));
  }

  lemma AppendNone(filter: MetricFilter, f: string -> seq<Series>, fields: seq<string>, metrics: seq<Series>)
    ensures metrics + filter.Keep(FlatMap(f, fields[..0])) == metrics
    ensures fields[..|fields|] == fields
  {
  }

  method AppendField(filter: MetricFilter, family: string, device: string, data: Fields, parse: string -> Option<real>,
                     excluded: set<string>, field: string, metrics: seq<Series>)
    returns (metrics': seq<Series>)
    ensures metrics' == metrics + filter.Keep(FieldSeries(family, device, data, parse, excluded)(field))
  {
    if field in excluded {
      return metrics;
    }
    metrics' := EmitOptional(filter, metrics, family, device, field, parse(Get(data, field)));
  }

  /** The field loops: every field of a table but the excluded ones, in ascending order. */
  method AppendFields(filter: MetricFilter, family: string, device: string, data: Fields, parse: string -> Option<real>,
                      excluded: set<string>, metrics: seq<Series>)
    returns (metrics': seq<Series>)
    ensures metrics' == metrics + filter.Keep(FlatMap(FieldSeries(family, device, data, parse, excluded),
                                                      SortedSet(data.Keys)))
  {
    var fields := SortedKeys(data.Keys);
    metrics' := metrics;
    ghost var f := FieldSeries(family, device, data, parse, excluded);
    AppendNone(filter, f, fields, metrics);
    for i := 0 to |fields|
      invariant metrics' == metrics + filter.Keep(FlatMap(f, fields[..i]))
    {
      AppendStep(filter, f, fields, i, metrics);
      metrics' := AppendField(filter, family, device, data, parse, excluded, fields[i], metrics');
    }
  }

  /** The flag loop over the fields of the value table; the other three tables are looked up by the same fields. */
  method AppendFlags(filter: MetricFilter, p: Parsers, names: FlagNames, device: string, d: FlagData,
                     metrics: seq<Series>)
    returns (metrics': seq<Series>)
    ensures metrics' == metrics + filter.Keep(FlatMap(FlagSeries(p, names, device, d), SortedSet(d.values.Keys)))
  {
    var fields := SortedKeys(d.values.Keys);
    metrics' := metrics;
    ghost var f := FlagSeries(p, names, device, d);
    AppendNone(filter, f, fields, metrics);
    for i := 0 to |fields|
      invariant metrics' == metrics + filter.Keep(FlatMap(f, fields[..i]))
    {
      AppendStep(filter, f, fields, i, metrics);
      metrics' := AppendFlag(filter, p, names, device, d, fields[i], metrics');
    }
  }

  method AppendFlag(filter: MetricFilter, p: Parsers, names: FlagNames, device: string, d: FlagData, field: string,
                    metrics: seq<Series>)
    returns (metrics': seq<Series>)
    ensures metrics' == metrics + filter.Keep(FlagSeriesAt(p, names, device, d, field))
  {
    ghost var a := Optional(names.values, device, field, p.boolish(Get(d.values, field)));
    ghost var b := Optional(names.changes, device, field, p.counter(Get(d.changes, field)));
    ghost var c := Optional(names.sets, device, field, p.eventTime(Get(d.sets, field)));
    ghost var e := Optional(names.clears, device, field, p.eventTime(Get(d.clears, field)));
    KeepFour(filter, a, b, c, e);
    metrics' := EmitOptional(filter, metrics, names.values, device, field, p.boolish(Get(d.values, field)));
    metrics' := EmitOptional(filter, metrics', names.changes, device, field, p.counter(Get(d.changes, field)));
    metrics' := EmitOptional(filter, metrics', names.sets, device, field, p.eventTime(Get(d.sets, field)));
    metrics' := EmitOptional(filter, metrics', names.clears, device, field, p.eventTime(Get(d.clears, field)));
  }

  lemma KeepFour(filter: MetricFilter, a: seq<Series>, b: seq<Series>, c: seq<Series>, d: seq<Series>)
    ensures filter.Keep(a + b + c + d) == filter.Keep(a) + filter.Keep(b) + filter.Keep(c) + filter.Keep(d)
  {
    filter.KeepAppend(a, b);
    filter.KeepAppend(a + b, c);
    filter.KeepAppend(a + b + c, d);
  }

  method EmitStatus(filter: MetricFilter, p: Parsers, names: Names, device: string, s: Status, metrics: seq<Series>)
    returns (metrics': seq<Series>)
    ensures metrics' == metrics + filter.Keep(StatusSeries(p, names, device, s))
  {
    var info := Series(names.moduleInfo, [device, Get(s.data, "module_state"), Get(s.data, "module_fault_cause")], 1.0);
    ghost var a := FlatMap(FieldSeries(names.status, device, s.data, p.boolish, STATUS_EXCLUDED),
                           SortedSet(s.data.Keys));
    ghost var b := FlatMap(FlagSeries(p, names.domFlags, device, s.domFlags), SortedSet(s.domFlags.values.Keys));
    ghost var c := FlatMap(FlagSeries(p, names.statusFlags, device, s.statusFlags),
                           SortedSet(s.statusFlags.values.Keys));
    ghost var d := FlatMap(FieldSeries(names.threshold, device, s.threshold, p.counter, THRESHOLD_EXCLUDED),
                           SortedSet(s.threshold.Keys));
    KeepFive(filter, metrics, info, a, b, c, d);
    metrics' := filter.Emit(metrics, info);
    metrics' := AppendFields(filter, names.status, device, s.data, p.boolish, STATUS_EXCLUDED, metrics');
    metrics' := AppendFlags(filter, p, names.domFlags, device, s.domFlags, metrics');
    metrics' := AppendFlags(filter, p, names.statusFlags, device, s.statusFlags, metrics');
    metrics' := AppendFields(filter, names.threshold, device, s.threshold, p.counter, THRESHOLD_EXCLUDED, metrics');
  }

  lemma KeepFive(filter: MetricFilter, metrics: seq<Series>, info: Series, a: seq<Series>, b: seq<Series>,
                 c: seq<Series>, d: seq<Series>)
    ensures filter.Emit(metrics, info) + filter.Keep(a) + filter.Keep(b) + filter.Keep(c) + filter.Keep(d)
         == metrics + filter.Keep([info] + a + b + c + d)
  {
    filter.EmitKeeps([], info);
    assert [] + [info] == [info];
    KeepFour(filter, [info] + a, b, c, d);
    filter.KeepAppend([info], a);
    assert filter.Emit(metrics, info) == metrics + filter.Keep([info]);
  }

  // ---------------------------------------------------------------- specification of the two loops

  function FlagDataOf(store: Store, tables: FlagNames, device: string): FlagData {
    FlagData(store.Hash(STATE_DB, tables.values + device), store.Hash(STATE_DB, tables.changes + device),
             store.Hash(STATE_DB, tables.sets + device), store.Hash(STATE_DB, tables.clears + device))
  }

  function StatusOf(store: Store, t: Tables, key: string, device: string): Status {
    Status(store.Hash(STATE_DB, key), FlagDataOf(store, t.domFlags, device), FlagDataOf(store, t.statusFlags, device),
           store.Hash(STATE_DB, t.threshold + device))
  }

  predicate FlagsReadable(store: Store, tables: FlagNames, device: string) {
    && store.Readable(HGetAll(STATE_DB, tables.values + device))
    && store.Readable(HGetAll(STATE_DB, tables.changes + device))
    && store.Readable(HGetAll(STATE_DB, tables.sets + device))
    && store.Readable(HGetAll(STATE_DB, tables.clears + device))
  }

  function HasIdentity(store: Store, t: Tables, identityFields: seq<string>): string -> bool {
    (key: string) => Suffix(key, t.identity).Some? && !NoIdentity(identityFields, store.Hash(STATE_DB, key))
  }

  function ReadsIdentity(store: Store, t: Tables): string -> bool {
    (key: string) => Suffix(key, t.identity).Some? ==> store.Readable(HGetAll(STATE_DB, key))
  }

  function IdentityAt(store: Store, t: Tables, names: Names, identityFields: seq<string>): string -> seq<Series> {
    (key: string) =>
      match Suffix(key, t.identity)
      case None => []
      case Some(device) => [IdentitySeries(names.identity, identityFields, device, store.Hash(STATE_DB, key))]
  }

  function HasStatus(store: Store, t: Tables): string -> bool {
    (key: string) => Suffix(key, t.status).Some? && store.Hash(STATE_DB, key) != map[]
  }

  predicate StatusReadable(store: Store, t: Tables, key: string, device: string) {
    && store.Readable(HGetAll(STATE_DB, key))
    && (store.Hash(STATE_DB, key) != map[] ==> ExtrasReadable(store, t, device))
  }

  predicate ExtrasReadable(store: Store, t: Tables, device: string) {
    && FlagsReadable(store, t.domFlags, device) && FlagsReadable(store, t.statusFlags, device)
    && store.Readable(HGetAll(STATE_DB, t.threshold + device))
  }

  function ReadsStatus(store: Store, t: Tables): string -> bool {
    (key: string) =>
      match Suffix(key, t.status)
      case None => true
      case Some(device) => StatusReadable(store, t, key, device)
  }

  ghost function StatusAt(store: Store, t: Tables, p: Parsers, names: Names): string -> seq<Series> {
    (key: string) =>
      match Suffix(key, t.status)
      case None => []
      case Some(device) => StatusSeries(p, names, device, StatusOf(store, t, key, device))
  }

  /** The report of a loop over sorted keys: everything beyond the cap or not accepted is skipped. */
  ghost function LoopReport(accepts: string -> bool, series: string -> seq<Series>, keys: seq<string>,
                            max: nat): Report {
    var accepted := Filter(accepts, Take(keys, max));
    Report(FlatMap(series, accepted), |accepted|, Monus(|keys|, |accepted|), |keys| > max)
  }

  /** The loop after `i` keys, none of them beyond the cap. */
  ghost predicate LoopHolds(filter: MetricFilter, accepts: string -> bool, readable: string -> bool,
                            series: string -> seq<Series>,
                            seen: seq<string>, metrics: seq<Series>, accepted: nat, skipped: nat) {
    && Every(readable, seen)
    && metrics == filter.Keep(FlatMap(series, Filter(accepts, seen)))
    && accepted == |Filter(accepts, seen)|
    && skipped + accepted == |seen|
  }

  lemma LoopStep(filter: MetricFilter, accepts: string -> bool, readable: string -> bool, series: string -> seq<Series>,
                 keys: seq<string>, i: nat, metrics: seq<Series>, accepted: nat, skipped: nat)
    requires i < |keys| && readable(keys[i])
    requires LoopHolds(filter, accepts, readable, series, keys[..i], metrics, accepted, skipped)
    ensures accepts(keys[i]) ==>
      LoopHolds(filter, accepts, readable, series, keys[..i + 1],
                metrics + filter.Keep(series(keys[i])), accepted + 1, skipped)
    ensures !accepts(keys[i]) ==>
      LoopHolds(filter, accepts, readable, series, keys[..i + 1], metrics, accepted, skipped + 1)
  {
    TakeSnoc(keys, i);
    var before := Filter(accepts, keys[..i]);
    assert (before + [keys[i]])[..|before|] == before;
    filter.KeepAppend(FlatMap(series, before), series(keys[i]));
  }

  lemma LoopEnds(filter: MetricFilter, accepts: string -> bool, readable: string -> bool, series: string -> seq<Series>,
                 keys: seq<string>, max: nat, i: nat, metrics: seq<Series>, accepted: nat, skipped: nat)
    requires i <= |keys| && i == Min(|keys|, max)
    requires LoopHolds(filter, accepts, readable, series, keys[..i], metrics, accepted, skipped)
    ensures Every(readable, Take(keys, max))
    ensures Report(metrics, accepted, skipped + (|keys| - i), |keys| > max)
         == LoopReport(accepts, series, keys, max).Filtered(filter)
  {
  }

  // ---------------------------------------------------------------- the identity loop

  method IdentityIsEmpty(identityFields: seq<string>, data: Fields) returns (empty: bool)
    ensures empty == NoIdentity(identityFields, data)
  {
    ghost var values := Map(Trimmed(data), identityFields);
    for i := 0 to |identityFields|
      invariant Every(Blank, values[..i])
    {
      TakeSnoc(values, i);
      if TrimSpace(Get(data, identityFields[i])) != "" {
        EveryFails(Blank, values, i);
        return false;
      }
    }
    assert values[..|values|] == values;
    empty := true;
  }

  /** One key of the identity loop; a key is accepted, and counted, whether or not its family is enabled. */
  method VisitIdentity(filter: MetricFilter, store: Store, t: Tables, names: Names, identityFields: seq<string>,
                       key: string, metrics: seq<Series>)
    returns (failed: Option<Request>, accepted: bool, metrics': seq<Series>)
    ensures failed.Some? ==> !ReadsIdentity(store, t)(key) && !store.Readable(failed.value)
    ensures failed.None? ==>
      && ReadsIdentity(store, t)(key)
      && accepted == HasIdentity(store, t, identityFields)(key)
      && metrics' == metrics + if accepted then filter.Keep(IdentityAt(store, t, names, identityFields)(key)) else []
  {
    failed, accepted, metrics' := None, false, metrics;
    var suffix := Suffix(key, t.identity);
    if suffix.None? {
      return;
    }
    var identity := store.ReadHash(STATE_DB, key);
    if identity.Failure? {
      return Some(identity.error), false, metrics;
    }
    var empty := IdentityIsEmpty(identityFields, identity.value);
    if empty {
      return;
    }
    accepted := true;
    var s := IdentitySeries(names.identity, identityFields, suffix.value, identity.value);
    filter.EmitKeeps([], s);
    assert [] + [s] == [s];
    metrics' := filter.Emit(metrics, s);
  }

  method IdentityLoop(filter: MetricFilter, store: Store, t: Tables, names: Names, identityFields: seq<string>,
                      keys: seq<string>, max: nat)
    returns (outcome: Result<Report, Request>)
    ensures store.Answers(Every(ReadsIdentity(store, t), Take(keys, max)),
                          LoopReport(HasIdentity(store, t, identityFields),
                                     IdentityAt(store, t, names, identityFields), keys, max)
                            .Filtered(filter),
                          outcome)
  {
    ghost var accepts, readable := HasIdentity(store, t, identityFields), ReadsIdentity(store, t);
    ghost var series := IdentityAt(store, t, names, identityFields);
    var metrics: seq<Series>, accepted, skipped := [], 0, 0;
    for i := 0 to |keys|
      invariant i <= max
      invariant LoopHolds(filter, accepts, readable, series, keys[..i], metrics, accepted, skipped)
    {
      if i >= max {
        LoopEnds(filter, accepts, readable, series, keys, max, i, metrics, accepted, skipped);
        return Success(Report(metrics, accepted, skipped + (|keys| - i), true));
      }
      var failed, taken, metrics' := VisitIdentity(filter, store, t, names, identityFields, keys[i], metrics);
      if failed.Some? {
        EveryFails(readable, Take(keys, max), i);
        return Failure(failed.value);
      }
      LoopStep(filter, accepts, readable, series, keys, i, metrics, accepted, skipped);
      metrics := metrics';
      if taken {
        accepted := accepted + 1;
      } else {
        skipped := skipped + 1;
      }
    }
    LoopEnds(filter, accepts, readable, series, keys, max, |keys|, metrics, accepted, skipped);
    outcome := Success(Report(metrics, accepted, skipped, false));
  }

  // ---------------------------------------------------------------- the status loop

  method ReadFlags(store: Store, tables: FlagNames, device: string) returns (outcome: Result<FlagData, Request>)
    ensures store.Answers(FlagsReadable(store, tables, device), FlagDataOf(store, tables, device), outcome)
  {
    var values := store.ReadHash(STATE_DB, tables.values + device);
    if values.Failure? {
      return Failure(values.error);
    }
    var changes := store.ReadHash(STATE_DB, tables.changes + device);
    if changes.Failure? {
      return Failure(changes.error);
    }
    var sets := store.ReadHash(STATE_DB, tables.sets + device);
    if sets.Failure? {
      return Failure(sets.error);
    }
    var clears := store.ReadHash(STATE_DB, tables.clears + device);
    if clears.Failure? {
      return Failure(clears.error);
    }
    outcome := Success(FlagData(values.value, changes.value, sets.value, clears.value));
  }

  /** The further tables of a device whose status hash is `data`. */
  method ReadExtras(store: Store, t: Tables, device: string, data: Fields) returns (outcome: Result<Status, Request>)
    ensures store.Answers(ExtrasReadable(store, t, device),
                          Status(data, FlagDataOf(store, t.domFlags, device), FlagDataOf(store, t.statusFlags, device),
                                 store.Hash(STATE_DB, t.threshold + device)),
                          outcome)
  {
    var domFlags := ReadFlags(store, t.domFlags, device);
    if domFlags.Failure? {
      return Failure(domFlags.error);
    }
    var statusFlags := ReadFlags(store, t.statusFlags, device);
    if statusFlags.Failure? {
      return Failure(statusFlags.error);
    }
    var threshold := store.ReadHash(STATE_DB, t.threshold + device);
    if threshold.Failure? {
      return Failure(threshold.error);
    }
    outcome := Success(Status(data, domFlags.value, statusFlags.value, threshold.value));
  }

  method VisitStatus(filter: MetricFilter, store: Store, t: Tables, p: Parsers, names: Names, key: string,
                     metrics: seq<Series>)
    returns (failed: Option<Request>, accepted: bool, metrics': seq<Series>)
    ensures failed.Some? ==> !ReadsStatus(store, t)(key) && !store.Readable(failed.value)
    ensures failed.None? ==>
      && ReadsStatus(store, t)(key)
      && accepted == HasStatus(store, t)(key)
      && metrics' == if accepted then metrics + filter.Keep(StatusAt(store, t, p, names)(key)) else metrics
  {
    failed, accepted, metrics' := None, false, metrics;
    var suffix := Suffix(key, t.status);
    if suffix.None? {
      return;
    }
    var data := store.ReadHash(STATE_DB, key);
    if data.Failure? {
      return Some(data.error), false, metrics;
    }
    if |data.value| == 0 {
      return;
    }
    var status := ReadExtras(store, t, suffix.value, data.value);
    if status.Failure? {
      return Some(status.error), false, metrics;
    }
    accepted := true;
    metrics' := EmitStatus(filter, p, names, suffix.value, status.value, metrics);
  }

  method StatusLoop(filter: MetricFilter, store: Store, t: Tables, p: Parsers, names: Names, keys: seq<string>,
                    max: nat)
    returns (outcome: Result<Report, Request>)
    ensures store.Answers(Every(ReadsStatus(store, t), Take(keys, max)),
                          LoopReport(HasStatus(store, t), StatusAt(store, t, p, names), keys, max).Filtered(filter),
                          outcome)
  {
    ghost var accepts, readable, series := HasStatus(store, t), ReadsStatus(store, t), StatusAt(store, t, p, names);
    var metrics: seq<Series>, accepted, skipped := [], 0, 0;
    for i := 0 to |keys|
      invariant i <= max
      invariant LoopHolds(filter, accepts, readable, series, keys[..i], metrics, accepted, skipped)
    {
      if i >= max {
        LoopEnds(filter, accepts, readable, series, keys, max, i, metrics, accepted, skipped);
        return Success(Report(metrics, accepted, skipped + (|keys| - i), true));
      }
      var failed, taken, metrics' := VisitStatus(filter, store, t, p, names, keys[i], metrics);
      if failed.Some? {
        EveryFails(readable, Take(keys, max), i);
        return Failure(failed.value);
      }
      LoopStep(filter, accepts, readable, series, keys, i, metrics, accepted, skipped);
      metrics := metrics';
      if taken {
        accepted := accepted + 1;
      } else {
        skipped := skipped + 1;
      }
    }
    LoopEnds(filter, accepts, readable, series, keys, max, |keys|, metrics, accepted, skipped);
    outcome := Success(Report(metrics, accepted, skipped, false));
  }

  // ---------------------------------------------------------------- one refresh

  /** The key lists of the two scans. */
  datatype Scans = Scans(identity: seq<string>, status: seq<string>)

  function ScansOf(store: Store, t: Tables): Scans {
    Scans(store.Keys(STATE_DB, t.identity + "*"), store.Keys(STATE_DB, t.status + "*"))
  }

  ghost function IdentityReport(store: Store, t: Tables, names: Names, identityFields: seq<string>,
                                keys: seq<string>, max: nat): Report {
    LoopReport(HasIdentity(store, t, identityFields), IdentityAt(store, t, names, identityFields), Sort(Self, keys),
               max)
  }

  ghost function StatusReport(store: Store, t: Tables, p: Parsers, names: Names, keys: seq<string>, max: nat): Report {
    LoopReport(HasStatus(store, t), StatusAt(store, t, p, names), Sort(Self, keys), max)
  }

  /** Both loops under one cap each; series, skips and the truncation flag are combined. */
  ghost function ReportOf(store: Store, t: Tables, p: Parsers, names: Names, identityFields: seq<string>,
                          scans: Scans, max: nat): Report {
    IdentityReport(store, t, names, identityFields, scans.identity, max)
      .Then(StatusReport(store, t, p, names, scans.status, max))
  }

  predicate Complete(store: Store, t: Tables, max: nat) {
    && store.Readable(Scan(STATE_DB, t.status + "*")) && store.Readable(Scan(STATE_DB, t.identity + "*"))
    && Every(ReadsIdentity(store, t), Take(Sort(Self, ScansOf(store, t).identity), max))
    && Every(ReadsStatus(store, t), Take(Sort(Self, ScansOf(store, t).status), max))
  }

  method ScrapeTransceivers(filter: MetricFilter, store: Store, p: Parsers, max: nat)
    returns (outcome: Result<Report, Request>)
    ensures store.Answers(Complete(store, TRANSCEIVER_TABLES, max),
                          ReportOf(store, TRANSCEIVER_TABLES, p, TRANSCEIVER_NAMES, IDENTITY_FIELDS,
                                   ScansOf(store, TRANSCEIVER_TABLES), max).Filtered(filter),
                          outcome)
  {
    outcome := ScrapeTables(filter, store, TRANSCEIVER_TABLES, p, TRANSCEIVER_NAMES, IDENTITY_FIELDS, max);
  }

  method ScrapeTables(filter: MetricFilter, store: Store, t: Tables, p: Parsers, names: Names,
                      identityFields: seq<string>, max: nat)
    returns (outcome: Result<Report, Request>)
    ensures store.Answers(Complete(store, t, max),
                          ReportOf(store, t, p, names, identityFields, ScansOf(store, t), max).Filtered(filter),
                          outcome)
  {
    var statusKeys := store.ScanKeys(STATE_DB, t.status + "*");
    if statusKeys.Failure? {
      return Failure(statusKeys.error);
    }
    var identityKeys := store.ScanKeys(STATE_DB, t.identity + "*");
    if identityKeys.Failure? {
      return Failure(identityKeys.error);
    }
    var identity := IdentityLoop(filter, store, t, names, identityFields, Sort(Self, identityKeys.value), max);
    if identity.Failure? {
      return Failure(identity.error);
    }
    var status := StatusLoop(filter, store, t, p, names, Sort(Self, statusKeys.value), max);
    if status.Failure? {
      return Failure(status.error);
    }
    outcome := Success(identity.value.Then(status.value));
    IdentityReport(store, t, names, identityFields, identityKeys.value, max)
      .ThenFiltered(StatusReport(store, t, p, names, statusKeys.value, max), filter);
  }

  // ---------------------------------------------------------------- guarantees

  /**
   * Conservation: accepted and skipped entries of both loops together are the scanned keys, and truncation is told
   * exactly.
   */
  lemma TransceiverKeysAccountedFor(store: Store, t: Tables, p: Parsers, names: Names, identityFields: seq<string>,
                                    scans: Scans, max: nat)
    ensures var r := ReportOf(store, t, p, names, identityFields, scans, max);
            && r.accepted + r.skipped == |scans.identity| + |scans.status|
            && (r.truncated <==> |scans.identity| > max || |scans.status| > max)
            && r.accepted <= 2 * max
  {
    SortLength(Self, scans.identity);
    SortLength(Self, scans.status);
  }

  function NoDevice(prefix: string): string -> bool {
    (key: string) => Suffix(key, prefix).None?
  }

  function LacksIdentity(store: Store, t: Tables, identityFields: seq<string>): string -> bool {
    (key: string) => Suffix(key, t.identity).Some? && NoIdentity(identityFields, store.Hash(STATE_DB, key))
  }

  function LacksStatus(store: Store, t: Tables): string -> bool {
    (key: string) => Suffix(key, t.status).Some? && store.Hash(STATE_DB, key) == map[]
  }

  /** Keys below the cap that name no device, keys below the cap without data, and keys beyond the cap. */
  function SkipReasons(malformed: string -> bool, empty: string -> bool, keys: seq<string>, max: nat): nat {
    |Filter(malformed, Window(keys, max))| + |Filter(empty, Window(keys, max))| + Monus(|keys|, max)
  }

  lemma LoopSkips(accepts: string -> bool, malformed: string -> bool, empty: string -> bool,
                  series: string -> seq<Series>, keys: seq<string>, max: nat)
    requires forall x :: (accepts(x) || malformed(x) || empty(x)) && !(accepts(x) && malformed(x))
                         && !(accepts(x) && empty(x)) && !(malformed(x) && empty(x))
    ensures LoopReport(accepts, series, Sort(Self, keys), max).skipped == SkipReasons(malformed, empty, keys, max)
  {
    SortLength(Self, keys);
    FilterThree(accepts, malformed, empty, Window(keys, max));
  }

  /** The combined skip counter, reason by reason for each loop. */
  lemma TransceiverSkipLedger(store: Store, t: Tables, p: Parsers, names: Names, identityFields: seq<string>,
                              scans: Scans, max: nat)
    ensures ReportOf(store, t, p, names, identityFields, scans, max).skipped
         == SkipReasons(NoDevice(t.identity), LacksIdentity(store, t, identityFields), scans.identity, max)
            + SkipReasons(NoDevice(t.status), LacksStatus(store, t), scans.status, max)
  {
    LoopSkips(HasIdentity(store, t, identityFields), NoDevice(t.identity), LacksIdentity(store, t, identityFields),
              IdentityAt(store, t, names, identityFields), scans.identity, max);
    LoopSkips(HasStatus(store, t), NoDevice(t.status), LacksStatus(store, t), StatusAt(store, t, p, names),
              scans.status, max);
  }

  /** Neither the order of the scans nor the order of map iteration reaches the report. */
  lemma TransceiverScanOrderIrrelevant(store: Store, t: Tables, p: Parsers, names: Names, identityFields: seq<string>,
                                       a: Scans, b: Scans, max: nat)
    requires multiset(a.identity) == multiset(b.identity) && multiset(a.status) == multiset(b.status)
    ensures ReportOf(store, t, p, names, identityFields, a, max) == ReportOf(store, t, p, names, identityFields, b, max)
  {
    SortStringsPermutation(a.identity, b.identity);
    SortStringsPermutation(a.status, b.status);
  }
}
