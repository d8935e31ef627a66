/** When the transceiver collector emits two series with the same family and labels. */
module TransceiverLabels {
  import opened Results
  import opened Sequences
  import opened Strings
  import opened Sorting
  import opened Redis
  import opened Metrics
  import opened LabelSets
  import opened TransceiverCollector

  // ---------------------------------------------------------------- series of one device, field by field

  /** Series under the labels device and field. */
  ghost predicate FieldLabelled(series: seq<Series>, device: string, field: string) {
    forall r :: r in series ==> r.labels == [device, field]
  }

  ghost predicate InFamilies(series: seq<Series>, families: seq<string>) {
    forall r :: r in series ==> r.family in families
  }

  ghost predicate FieldBlocks(block: string -> seq<Series>, device: string, families: seq<string>) {
    forall field :: IdsDistinct(block(field)) && FieldLabelled(block(field), device, field)
                    && InFamilies(block(field), families)
  }

  ghost predicate FieldsIn(series: seq<Series>, device: string, fields: seq<string>) {
    forall r :: r in series ==> |r.labels| == 2 && r.labels[0] == device && r.labels[1] in fields
  }

  lemma NewField(before: seq<Series>, device: string, fields: seq<string>, block: seq<Series>, field: string)
    requires FieldsIn(before, device, fields) && FieldLabelled(block, device, field) && field !in fields
    ensures Apart(before, block) && FieldsIn(before + block, device, fields + [field])
  {
    assert [device, field][1] == field;
  }

  /** A loop over different fields repeats nothing if it repeats nothing under any one field. */
  lemma {:induction false} FieldsDistinct(block: string -> seq<Series>, device: string, families: seq<string>,
                                          fields: seq<string>)
    requires FieldBlocks(block, device, families) && Distinct(fields)
    ensures IdsDistinct(FlatMap(block, fields)) && FieldsIn(FlatMap(block, fields), device, fields)
    ensures InFamilies(FlatMap(block, fields), families)
  {
    if fields != [] {
      var front, last := fields[..|fields| - 1], fields[|fields| - 1];
      assert fields == front + [last];
      DistinctSnoc(front, last);
      FieldsDistinct(block, device, families, front);
      NewField(FlatMap(block, front), device, front, block(last), last);
      IdsAppend(FlatMap(block, front), block(last));
    }
  }

  lemma SingleBlocks(family: string, device: string, data: Fields, parse: string -> Option<real>,
                     excluded: set<string>)
    ensures FieldBlocks(FieldSeries(family, device, data, parse, excluded), device, [family])
  {
    forall field
      ensures var series := FieldSeries(family, device, data, parse, excluded)(field);
              IdsDistinct(series) && FieldLabelled(series, device, field) && InFamilies(series, [family])
    {
      OptionalShape(family, device, field, parse(Get(data, field)));
    }
  }

  lemma OptionalShape(family: string, device: string, field: string, value: Option<real>)
    ensures var series := Optional(family, device, field, value);
            |series| <= 1 && FieldLabelled(series, device, field) && InFamilies(series, [family])
  {
  }

  lemma OptionalMore(series: seq<Series>, families: seq<string>, device: string, family: string, field: string,
                     value: Option<real>)
    requires OneEach(series, families, device) && FieldLabelled(series, device, field) && family !in families
    ensures OneEach(series + Optional(family, device, field, value), families + [family], device)
    ensures FieldLabelled(series + Optional(family, device, field, value), device, field)
  {
    OneMore(series, families, device, family, Optional(family, device, field, value));
  }

  function FlagFamilies(names: FlagNames): seq<string> {
    [names.values, names.changes, names.sets, names.clears]
  }

  lemma FlagBlock(p: Parsers, names: FlagNames, device: string, d: FlagData, field: string)
    requires Distinct(FlagFamilies(names))
    ensures var series := FlagSeriesAt(p, names, device, d, field);
            IdsDistinct(series) && FieldLabelled(series, device, field) && InFamilies(series, FlagFamilies(names))
  {
    var f := FlagFamilies(names);
    assert f[0] != f[1] && f[0] != f[2] && f[0] != f[3] && f[1] != f[2] && f[1] != f[3] && f[2] != f[3];
    var a := Optional(names.values, device, field, p.boolish(Get(d.values, field)));
    var b := a + Optional(names.changes, device, field, p.counter(Get(d.changes, field)));
    var c := b + Optional(names.sets, device, field, p.eventTime(Get(d.sets, field)));
    OptionalMore([], [], device, names.values, field, p.boolish(Get(d.values, field)));
    assert [] + a == a && [] + [names.values] == [names.values];
    OptionalMore(a, [names.values], device, names.changes, field, p.counter(Get(d.changes, field)));
    OptionalMore(b, [names.values] + [names.changes], device, names.sets, field, p.eventTime(Get(d.sets, field)));
    OptionalMore(c, [names.values] + [names.changes] + [names.sets], device, names.clears, field,
                 p.eventTime(Get(d.clears, field)));
    assert [names.values] + [names.changes] + [names.sets] + [names.clears] == f;
    OneEachIds(FlagSeriesAt(p, names, device, d, field), f, device);
  }

  lemma FlagBlocks(p: Parsers, names: FlagNames, device: string, d: FlagData)
    requires Distinct(FlagFamilies(names))
    ensures FieldBlocks(FlagSeries(p, names, device, d), device, FlagFamilies(names))
  {
    forall field
      ensures var series := FlagSeries(p, names, device, d)(field);
              IdsDistinct(series) && FieldLabelled(series, device, field) && InFamilies(series, FlagFamilies(names))
    {
      FlagBlock(p, names, device, d, field);
    }
  }

  // ---------------------------------------------------------------- the series of one device

  function StatusFamilies(names: Names): seq<string> {
    [names.moduleInfo] + [names.status] + FlagFamilies(names.domFlags) + FlagFamilies(names.statusFlags)
    + [names.threshold]
  }

  /** The families of the blocks of one device have nothing in common. */
  ghost predicate FamiliesApart(names: Names) {
    && Distinct(FlagFamilies(names.domFlags)) && Distinct(FlagFamilies(names.statusFlags))
    && Distinct([names.moduleInfo, names.status, names.threshold])
    && (forall f :: f in FlagFamilies(names.domFlags) ==> f !in FlagFamilies(names.statusFlags))
    && (forall f :: f in FlagFamilies(names.domFlags) || f in FlagFamilies(names.statusFlags) ==>
          f != names.moduleInfo && f != names.status && f != names.threshold)
  }

  lemma DifferentFamilies(a: seq<Series>, b: seq<Series>, f: seq<string>, g: seq<string>)
    requires InFamilies(a, f) && InFamilies(b, g) && forall x :: x in f ==> x !in g
    ensures Apart(a, b) && InFamilies(a + b, f + g)
  {
  }

  lemma BlockAppend(a: seq<Series>, b: seq<Series>, f: seq<string>, g: seq<string>, device: string)
    requires IdsDistinct(a) && InFamilies(a, f) && Shows(a, device)
    requires IdsDistinct(b) && InFamilies(b, g) && Shows(b, device)
    requires forall x :: x in f ==> x !in g
    ensures IdsDistinct(a + b) && InFamilies(a + b, f + g) && Shows(a + b, device)
  {
    DifferentFamilies(a, b, f, g);
    IdsAppend(a, b);
  }

  lemma SetFields(block: string -> seq<Series>, device: string, families: seq<string>, fields: set<string>)
    requires FieldBlocks(block, device, families)
    ensures var series := FlatMap(block, SortedSet(fields));
            IdsDistinct(series) && InFamilies(series, families) && Shows(series, device)
  {
    SortedSetProperties(fields);
    FieldsDistinct(block, device, families, SortedSet(fields));
  }

  lemma StatusBlock(p: Parsers, names: Names, device: string, s: Status)
    requires FamiliesApart(names)
    ensures var series := StatusSeries(p, names, device, s);
            IdsDistinct(series) && Shows(series, device) && series != []
            && InFamilies(series, StatusFamilies(names))
  {
    var info := [Series(names.moduleInfo, [device, Get(s.data, "module_state"), Get(s.data, "module_fault_cause")],
                        1.0)];
    var a := FieldSeries(names.status, device, s.data, p.boolish, STATUS_EXCLUDED);
    var b := FlagSeries(p, names.domFlags, device, s.domFlags);
    var c := FlagSeries(p, names.statusFlags, device, s.statusFlags);
    var d := FieldSeries(names.threshold, device, s.threshold, p.counter, THRESHOLD_EXCLUDED);
    SingleBlocks(names.status, device, s.data, p.boolish, STATUS_EXCLUDED);
    FlagBlocks(p, names.domFlags, device, s.domFlags);
    FlagBlocks(p, names.statusFlags, device, s.statusFlags);
    SingleBlocks(names.threshold, device, s.threshold, p.counter, THRESHOLD_EXCLUDED);
    SetFields(a, device, [names.status], s.data.Keys);
    SetFields(b, device, FlagFamilies(names.domFlags), s.domFlags.values.Keys);
    SetFields(c, device, FlagFamilies(names.statusFlags), s.statusFlags.values.Keys);
    SetFields(d, device, [names.threshold], s.threshold.Keys);
    FiveBlocks(names, device, info, FlatMap(a, SortedSet(s.data.Keys)),
               FlatMap(b, SortedSet(s.domFlags.values.Keys)), FlatMap(c, SortedSet(s.statusFlags.values.Keys)),
               FlatMap(d, SortedSet(s.threshold.Keys)));
  }

  lemma FiveBlocks(names: Names, device: string, info: seq<Series>, a: seq<Series>, b: seq<Series>, c: seq<Series>,
                   d: seq<Series>)
    requires FamiliesApart(names)
    requires IdsDistinct(info) && InFamilies(info, [names.moduleInfo]) && Shows(info, device)
    requires IdsDistinct(a) && InFamilies(a, [names.status]) && Shows(a, device)
    requires IdsDistinct(b) && InFamilies(b, FlagFamilies(names.domFlags)) && Shows(b, device)
    requires IdsDistinct(c) && InFamilies(c, FlagFamilies(names.statusFlags)) && Shows(c, device)
    requires IdsDistinct(d) && InFamilies(d, [names.threshold]) && Shows(d, device)
    ensures IdsDistinct(info + a + b + c + d) && Shows(info + a + b + c + d, device)
    ensures InFamilies(info + a + b + c + d, StatusFamilies(names))
  {
    var three := [names.moduleInfo, names.status, names.threshold];
    assert three[0] != three[1] && three[0] != three[2] && three[1] != three[2];
    BlockAppend(info, a, [names.moduleInfo], [names.status], device);
    BlockAppend(info + a, b, [names.moduleInfo] + [names.status], FlagFamilies(names.domFlags), device);
    BlockAppend(info + a + b, c, [names.moduleInfo] + [names.status] + FlagFamilies(names.domFlags),
                FlagFamilies(names.statusFlags), device);
    BlockAppend(info + a + b + c, d, [names.moduleInfo] + [names.status] + FlagFamilies(names.domFlags)
                + FlagFamilies(names.statusFlags), [names.threshold], device);
  }

  // ---------------------------------------------------------------- both loops

  /** A loop that labels by the key suffix repeats a series exactly when it accepts a key twice. */
  lemma LoopIds(accepts: string -> bool, series: string -> seq<Series>, prefix: string, keys: seq<string>, max: nat)
    requires forall key :: accepts(key) ==> Suffix(key, prefix).Some? && series(key) != [] && IdsDistinct(series(key))
    requires forall key :: accepts(key) ==> Shows(series(key), TrimPrefix(key, prefix))
    ensures IdsDistinct(LoopReport(accepts, series, keys, max).series) <==> Distinct(Filter(accepts, Take(keys, max)))
  {
    var taken := Filter(accepts, Take(keys, max));
    FilterMembers(accepts, Take(keys, max));
    forall i, j | 0 <= i < j < |taken|
      ensures Behind(prefix)(taken[i]) == Behind(prefix)(taken[j]) <==> taken[i] == taken[j]
    {
      assert taken[i] in taken && taken[j] in taken;
      if TrimPrefix(taken[i], prefix) == TrimPrefix(taken[j], prefix) {
        SuffixTellsKey(taken[i], taken[j], prefix);
      }
    }
    forall x, y | x in taken && y in taken && Behind(prefix)(x) == Behind(prefix)(y) ensures x == y {
      SuffixTellsKey(x, y, prefix);
    }
    BlocksDistinct(series, Behind(prefix), taken);
  }

  lemma IdentityBlock(family: string, identityFields: seq<string>, device: string, data: Fields)
    ensures var series := [IdentitySeries(family, identityFields, device, data)];
            IdsDistinct(series) && Shows(series, device) && InFamilies(series, [family])
  {
  }

  lemma IdentityIds(store: Store, t: Tables, names: Names, identityFields: seq<string>, keys: seq<string>, max: nat)
    ensures var accepts, series := HasIdentity(store, t, identityFields), IdentityAt(store, t, names, identityFields);
            && (IdsDistinct(LoopReport(accepts, series, keys, max).series)
                <==> Distinct(Filter(accepts, Take(keys, max))))
            && InFamilies(LoopReport(accepts, series, keys, max).series, [names.identity])
  {
    var accepts, series := HasIdentity(store, t, identityFields), IdentityAt(store, t, names, identityFields);
    forall key | Suffix(key, t.identity).Some?
      ensures series(key) != [] && IdsDistinct(series(key)) && Shows(series(key), TrimPrefix(key, t.identity))
      ensures InFamilies(series(key), [names.identity])
    {
      IdentityBlock(names.identity, identityFields, TrimPrefix(key, t.identity), store.Hash(STATE_DB, key));
      assert series(key) == [IdentitySeries(names.identity, identityFields, TrimPrefix(key, t.identity),
                                            store.Hash(STATE_DB, key))];
    }
    LoopIds(accepts, series, t.identity, keys, max);
    BlockFamilies(series, [names.identity], Filter(accepts, Take(keys, max)));
  }

  lemma StatusIds(store: Store, t: Tables, p: Parsers, names: Names, keys: seq<string>, max: nat)
    requires FamiliesApart(names)
    ensures var accepts, series := HasStatus(store, t), StatusAt(store, t, p, names);
            && (IdsDistinct(LoopReport(accepts, series, keys, max).series)
                <==> Distinct(Filter(accepts, Take(keys, max))))
            && InFamilies(LoopReport(accepts, series, keys, max).series, StatusFamilies(names))
  {
    var accepts, series := HasStatus(store, t), StatusAt(store, t, p, names);
    forall key | Suffix(key, t.status).Some?
      ensures series(key) != [] && IdsDistinct(series(key)) && Shows(series(key), TrimPrefix(key, t.status))
      ensures InFamilies(series(key), StatusFamilies(names))
    {
      var device := Suffix(key, t.status).value;
      StatusBlock(p, names, device, StatusOf(store, t, key, device));
    }
    LoopIds(accepts, series, t.status, keys, max);
    BlockFamilies(series, StatusFamilies(names), Filter(accepts, Take(keys, max)));
  }

  lemma {:induction false} BlockFamilies(series: string -> seq<Series>, families: seq<string>, keys: seq<string>)
    requires forall key :: InFamilies(series(key), families)
    ensures InFamilies(FlatMap(series, keys), families)
  {
    if keys != [] {
      BlockFamilies(series, families, keys[..|keys| - 1]);
    }
  }

  /** Exactly when a report of both loops repeats no series: when neither loop accepts a key twice. */
  lemma BothLoopsIds(store: Store, t: Tables, p: Parsers, names: Names, identityFields: seq<string>, scans: Scans,
                     max: nat)
    requires FamiliesApart(names) && names.identity !in StatusFamilies(names)
    ensures IdsDistinct(ReportOf(store, t, p, names, identityFields, scans, max).series)
       <==> (&& Distinct(Filter(HasIdentity(store, t, identityFields), Window(scans.identity, max)))
             && Distinct(Filter(HasStatus(store, t), Window(scans.status, max))))
  {
    var a := IdentityReport(store, t, names, identityFields, scans.identity, max).series;
    var b := StatusReport(store, t, p, names, scans.status, max).series;
    IdentityIds(store, t, names, identityFields, Sort(Self, scans.identity), max);
    StatusIds(store, t, p, names, Sort(Self, scans.status), max);
    DifferentFamilies(a, b, [names.identity], StatusFamilies(names));
    IdsAppend(a, b);
  }

  lemma TransceiverFamilies()
    ensures FamiliesApart(TRANSCEIVER_NAMES)
    ensures TRANSCEIVER_NAMES.identity !in StatusFamilies(TRANSCEIVER_NAMES)
  {
    var n := TRANSCEIVER_NAMES;
    assert |n.identity| == 31 && |n.moduleInfo| == 29 && |n.status| == 30 && |n.threshold| == 37;
    assert |n.domFlags.values| == 32 && |n.domFlags.changes| == 40 && |n.domFlags.sets| == 53;
    assert |n.domFlags.clears| == 55 && |n.statusFlags.values| == 35 && |n.statusFlags.changes| == 43;
    assert |n.statusFlags.sets| == 56 && |n.statusFlags.clears| == 58;
  }

  /** The transceiver collector repeats a series exactly when one of its loops accepts a key twice. */
  lemma TransceiverIdsDistinct(store: Store, p: Parsers, scans: Scans, max: nat)
    ensures var t := TRANSCEIVER_TABLES;
            IdsDistinct(ReportOf(store, t, p, TRANSCEIVER_NAMES, IDENTITY_FIELDS, scans, max).series)
            <==> (&& Distinct(Filter(HasIdentity(store, t, IDENTITY_FIELDS), Window(scans.identity, max)))
                  && Distinct(Filter(HasStatus(store, t), Window(scans.status, max))))
  {
    TransceiverFamilies();
    BothLoopsIds(store, TRANSCEIVER_TABLES, p, TRANSCEIVER_NAMES, IDENTITY_FIELDS, scans, max);
  }
}
