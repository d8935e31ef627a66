/**
 * The FDB collector: entries joined with VLAN objects, bridge ports and port names, counted by VLAN, port and type.
 */
module FdbCollector {
  import opened Results
  import opened Sequences
  import opened Strings
  import opened Sorting
  import opened Redis
  import opened Metrics
  import opened Histograms

  const FDB_PREFIX := "ASIC_STATE:SAI_OBJECT_TYPE_FDB_ENTRY:"
  const VLAN_PREFIX := "ASIC_STATE:SAI_OBJECT_TYPE_VLAN:"
  const BRIDGE_PREFIX := "ASIC_STATE:SAI_OBJECT_TYPE_BRIDGE_PORT:"

  datatype EntryKey = EntryKey(bvid: string, vlan: string, mac: string)

  /** The JSON decoder for the key payload, which is not part of this model. */
  type Decoder = string -> Option<EntryKey>

  /** The tables, with the three key prefixes as parameters. */
  datatype Source = Source(store: Store, decode: Decoder, fdb: string, vlan: string, bridge: string)

  function AsicSource(store: Store, decode: Decoder): Source {
    Source(store, decode, FDB_PREFIX, VLAN_PREFIX, BRIDGE_PREFIX)
  }

  datatype Limits = Limits(maxEntries: nat, maxPorts: nat, maxVlans: nat)

  datatype Report = Report(series: seq<Series>, skipped: nat, truncated: bool) {
    function Filtered(filter: MetricFilter): Report {
      Report(filter.Keep(series), skipped, truncated)
    }
  }

  // ---------------------------------------------------------------- lookup tables built from key lists

  /** The map built by visiting the keys in order and storing what `entry` makes of each. */
  function TableOf(entry: string -> Option<(string, string)>, keys: seq<string>): map<string, string> {
    if keys == [] then map[]
    else
      var table := TableOf(entry, keys[..|keys| - 1]);
      match entry(keys[|keys| - 1])
      case None => table
      case Some(pair) => table[pair.0 := pair.1]
  }

  /** Different keys never store different values under the same name. */
  ghost predicate Consistent(entry: string -> Option<(string, string)>) {
    forall a, b :: entry(a).Some? && entry(b).Some? && entry(a).value.0 == entry(b).value.0 ==> entry(a) == entry(b)
  }

  lemma {:induction false} TableOfLookup(entry: string -> Option<(string, string)>, keys: seq<string>, name: string)
    requires Consistent(entry)
    ensures name in TableOf(entry, keys)
         ==> exists key :: key in keys && entry(key) == Some((name, TableOf(entry, keys)[name]))
    ensures forall key :: key in keys && entry(key).Some? && entry(key).value.0 == name ==>
      name in TableOf(entry, keys) && entry(key).value.1 == TableOf(entry, keys)[name]
  {
    if keys != [] {
      var front, last := keys[..|keys| - 1], keys[|keys| - 1];
      TableOfLookup(entry, front, name);
      assert keys == front + [last];
      if name in TableOf(entry, keys) {
        if entry(last).Some? && entry(last).value.0 == name {
          assert last in keys && entry(last) == Some((name, TableOf(entry, keys)[name]));
        } else {
          var key :| key in front && entry(key) == Some((name, TableOf(entry, front)[name]));
          assert key in keys;
        }
      }
    }
  }

  lemma TableOfPermutation(entry: string -> Option<(string, string)>, a: seq<string>, b: seq<string>)
    requires Consistent(entry)
    requires multiset(a) == multiset(b)
    ensures TableOf(entry, a) == TableOf(entry, b)
  {
    PermutationLength(a, b);
    forall name
      ensures name in TableOf(entry, a) <==> name in TableOf(entry, b)
      ensures name in TableOf(entry, a) && name in TableOf(entry, b)
           ==> TableOf(entry, a)[name] == TableOf(entry, b)[name]
    {
      TableOfLookup(entry, a, name);
      TableOfLookup(entry, b, name);
    }
  }

  /** VLAN object id and VLAN id; objects without a VLAN id are skipped. */
  function VlanEntryAt(src: Source, key: string): Option<(string, string)> {
    match Suffix(key, src.vlan)
    case None => None
    case Some(bvid) =>
      var vlanId := TrimSpace(Get(src.store.Hash(ASIC_DB, key), "SAI_VLAN_ATTR_VLAN_ID"));
      if vlanId == "" then None else Some((bvid, vlanId))
  }

  function VlanEntry(src: Source): string -> Option<(string, string)> {
    (key: string) => VlanEntryAt(src, key)
  }

  function SkippedVlan(src: Source): string -> bool {
    (key: string) => VlanEntryAt(src, key).None?
  }

  function PortId(src: Source, key: string): string {
    Get(src.store.Hash(ASIC_DB, key), "SAI_BRIDGE_PORT_ATTR_PORT_ID")
  }

  /** Bridge port id and port name, for bridge ports whose port object has a non-empty name. */
  function BridgeEntryAt(src: Source, oidToName: map<string, string>, key: string): Option<(string, string)> {
    match Suffix(key, src.bridge)
    case None => None
    case Some(bridgePort) =>
      var name := Get(oidToName, PortId(src, key));
      if PortId(src, key) == "" || name == "" then None else Some((bridgePort, name))
  }

  function BridgeEntry(src: Source, oidToName: map<string, string>): string -> Option<(string, string)> {
    (key: string) => BridgeEntryAt(src, oidToName, key)
  }

  /** A bridge port without a port object is passed over silently; all other unusable ones are counted. */
  function SkippedBridge(src: Source, oidToName: map<string, string>): string -> bool {
    (key: string) => BridgeEntryAt(src, oidToName, key).None?
        && (Suffix(key, src.bridge).None? || PortId(src, key) != "")
  }

  lemma VlanEntryConsistent(src: Source)
    ensures Consistent(VlanEntry(src))
  {
    var entry := VlanEntry(src);
    forall a, b | entry(a).Some? && entry(b).Some? && entry(a).value.0 == entry(b).value.0
      ensures entry(a) == entry(b)
    {
      SuffixProperties(a, src.vlan);
      SuffixProperties(b, src.vlan);
    }
  }

  lemma BridgeEntryConsistent(src: Source, oidToName: map<string, string>)
    ensures Consistent(BridgeEntry(src, oidToName))
  {
    var entry := BridgeEntry(src, oidToName);
    forall a, b | entry(a).Some? && entry(b).Some? && entry(a).value.0 == entry(b).value.0
      ensures entry(a) == entry(b)
    {
      SuffixProperties(a, src.bridge);
      SuffixProperties(b, src.bridge);
    }
  }

  // ---------------------------------------------------------------- the inverted OID map

  /** A name the inversion may give an OID: a LAG name if some LAG has the OID, and otherwise a port name. */
  ghost predicate Candidate(oid: string, name: string, ports: Fields, lags: Fields) {
    if oid in lags.Values then name in lags && lags[name] == oid else name in ports && ports[name] == oid
  }

  /** Each OID has a name that maps to it; a LAG name wins over a port name. */
  ghost predicate Inverts(oidToName: map<string, string>, ports: Fields, lags: Fields) {
    && oidToName.Keys == ports.Values + lags.Values
    && (forall oid :: oid in oidToName ==> Candidate(oid, oidToName[oid], ports, lags))
  }

  /** Stores the names of one map under their OIDs, in whatever order the map is ranged over. */
  method AddNames(oidToName: map<string, string>, names: Fields) returns (r: map<string, string>)
    ensures r.Keys == oidToName.Keys + names.Values
    ensures forall oid :: oid in r ==>
      if oid in names.Values then r[oid] in names && names[r[oid]] == oid else r[oid] == oidToName[oid]
  {
    r := oidToName;
    var rest := names.Keys;
    while rest != {}
      invariant rest <= names.Keys
      invariant r.Keys == oidToName.Keys + (set name | name in names.Keys - rest :: names[name])
      invariant forall oid :: oid in r ==>
        if oid in (set name | name in names.Keys - rest :: names[name])
        then r[oid] in names && names[r[oid]] == oid
        else oid in oidToName && r[oid] == oidToName[oid]
      decreases rest
    {
      var name :| name in rest;
      r := r[names[name] := name];
      rest := rest - {name};
    }
    assert names.Values == set name | name in names.Keys :: names[name];
  }

  method InvertNames(ports: Fields, lags: Fields) returns (oidToName: map<string, string>)
    ensures Inverts(oidToName, ports, lags)
  {
    oidToName := AddNames(map[], ports);
    oidToName := AddNames(oidToName, lags);
  }

  /** No OID has two names to choose from. */
  ghost predicate OneCandidate(ports: Fields, lags: Fields) {
    forall oid, p, q :: Candidate(oid, p, ports, lags) && Candidate(oid, q, ports, lags) ==> p == q
  }

  /** Every name map can be inverted, and any one OID can be given any of its candidates. */
  lemma InversionChoosing(oid: string, name: string, ports: Fields, lags: Fields) returns (x: map<string, string>)
    requires Candidate(oid, name, ports, lags)
    ensures Inverts(x, ports, lags) && oid in x && x[oid] == name
  {
    forall o | o in ports.Values + lags.Values ensures exists n :: Candidate(o, n, ports, lags) {
      if o in lags.Values {
        var n :| n in lags && lags[n] == o;
        assert Candidate(o, n, ports, lags);
      } else {
        var n :| n in ports && ports[n] == o;
        assert Candidate(o, n, ports, lags);
      }
    }
    var base := map o | o in ports.Values + lags.Values :: var n :| Candidate(o, n, ports, lags); n;
    assert oid in ports.Values + lags.Values;
    x := base[oid := name];
  }

  /** Exactly when the inversion does not depend on the iteration order: when no OID has two candidates. */
  lemma InversionUnique(ports: Fields, lags: Fields)
    ensures (forall a, b :: Inverts(a, ports, lags) && Inverts(b, ports, lags) ==> a == b)
         <==> OneCandidate(ports, lags)
  {
    if OneCandidate(ports, lags) {
      forall a, b | Inverts(a, ports, lags) && Inverts(b, ports, lags) ensures a == b {
        assert forall oid :: oid in a ==> Candidate(oid, a[oid], ports, lags) && Candidate(oid, b[oid], ports, lags);
      }
    } else {
      var oid, p, q :| Candidate(oid, p, ports, lags) && Candidate(oid, q, ports, lags) && p != q;
      var a := InversionChoosing(oid, p, ports, lags);
      var b := InversionChoosing(oid, q, ports, lags);
      assert a != b;
    }
  }

  // ---------------------------------------------------------------- entries

  function ParseFdbKey(src: Source, key: string): Option<EntryKey> {
    match Suffix(key, src.fdb)
    case None => None
    case Some(payload) =>
      match src.decode(payload)
      case None => None
      case Some(entry) => if entry.mac == "" then None else Some(entry)
  }

  datatype Join = Join(bvidToVlan: map<string, string>, bridgeToPort: map<string, string>)

  /** What one entry is counted under. */
  datatype Labels = Labels(vlan: string, port: string, kind: string, unknownVlan: bool)

  function VlanLabel(entry: EntryKey, bvidToVlan: map<string, string>): (string, bool) {
    var own := TrimSpace(entry.vlan);
    var mapped := Get(bvidToVlan, TrimSpace(entry.bvid));
    if own != "" then (own, false) else if mapped != "" then (mapped, false) else ("unknown", true)
  }

  function OrUnknown(s: string): string {
    if s == "" then "unknown" else s
  }

  function EntryType(raw: string): string {
    TrimPrefix(TrimSpace(ToLower(raw)), "sai_fdb_entry_type_")
  }

  function LabelsAt(src: Source, join: Join, key: string): Labels {
    match ParseFdbKey(src, key)
    case None => Labels("", "", "", false)
    case Some(entry) =>
      var fields := src.store.Hash(ASIC_DB, key);
      var vlan := VlanLabel(entry, join.bvidToVlan);
      Labels(vlan.0,
             OrUnknown(Get(join.bridgeToPort, Get(fields, "SAI_FDB_ENTRY_ATTR_BRIDGE_PORT_ID"))),
             OrUnknown(EntryType(Get(fields, "SAI_FDB_ENTRY_ATTR_TYPE"))),
             vlan.1)
  }

  function LabelsOf(src: Source, join: Join): string -> Labels {
    (key: string) => LabelsAt(src, join, key)
  }

  predicate Accepted(src: Source, key: string) {
    ParseFdbKey(src, key).Some? && src.store.Hash(ASIC_DB, key) != map[]
  }

  function Accepts(src: Source): string -> bool {
    (key: string) => Accepted(src, key)
  }

  /** The counted entries among the keys. */
  function EntriesOf(src: Source, join: Join, keys: seq<string>): seq<Labels> {
    Map(LabelsOf(src, join), Filter(Accepts(src), keys))
  }

  function VlanOf(l: Labels): string { l.vlan }
  function PortOf(l: Labels): string { l.port }
  function KindOf(l: Labels): string { l.kind }
  function IsUnknownVlan(l: Labels): bool { l.unknownVlan }

  datatype Counts = Counts(total: nat, unknownVlan: nat, byVlan: Histogram, byPort: Histogram, byType: Histogram)

  function CountsOf(entries: seq<Labels>): Counts {
    Counts(|entries|, |Filter(IsUnknownVlan, entries)|,
           Tally(Map(VlanOf, entries)), Tally(Map(PortOf, entries)), Tally(Map(KindOf, entries)))
  }

  function CountEntry(c: Counts, l: Labels): Counts {
    Counts(c.total + 1, if l.unknownVlan then c.unknownVlan + 1 else c.unknownVlan,
           Bump(c.byVlan, l.vlan), Bump(c.byPort, l.port), Bump(c.byType, l.kind))
  }

  // ---------------------------------------------------------------- specification

  function VlanKeys(src: Source): seq<string> { src.store.Keys(ASIC_DB, src.vlan + "*") }
  function BridgeKeys(src: Source): seq<string> { src.store.Keys(ASIC_DB, src.bridge + "*") }
  function FdbKeys(src: Source): seq<string> { src.store.Keys(ASIC_DB, src.fdb + "*") }

  datatype Scans = Scans(vlans: seq<string>, bridges: seq<string>, entries: seq<string>)

  function ScansOf(src: Source): Scans {
    Scans(VlanKeys(src), BridgeKeys(src), FdbKeys(src))
  }

  function JoinOf(src: Source, oidToName: map<string, string>, scans: Scans): Join {
    Join(TableOf(VlanEntry(src), scans.vlans), TableOf(BridgeEntry(src, oidToName), scans.bridges))
  }

  ghost function SeriesOf(c: Counts, limits: Limits): seq<Series> {
    [Series("sonic_fdb_entries", [], c.total as real),
     Series("sonic_fdb_entries_unknown_vlan", [], c.unknownVlan as real)]
    + Map(CountSeries("sonic_fdb_entries_by_vlan", c.byVlan), Shown(c.byVlan, limits.maxVlans))
    + Map(CountSeries("sonic_fdb_entries_by_port", c.byPort), Shown(c.byPort, limits.maxPorts))
    + Map(CountSeries("sonic_fdb_entries_by_type", c.byType), SortedSet(c.byType.Keys))
  }

  /** Keys left out of the VLAN and bridge port tables. */
  function TableSkips(src: Source, oidToName: map<string, string>, scans: Scans): nat {
    |Filter(SkippedVlan(src), scans.vlans)| + |Filter(SkippedBridge(src, oidToName), scans.bridges)|
  }

  /**
   * The part of a report after the tables: their skips, then malformed, empty and cut-off entries, then cut-off labels.
   */
  ghost function EntriesReport(c: Counts, limits: Limits, tableSkips: nat, scanned: nat): Report {
    Report(SeriesOf(c, limits),
           tableSkips + Monus(scanned, c.total) + Monus(|c.byVlan|, limits.maxVlans)
               + Monus(|c.byPort|, limits.maxPorts),
           scanned > limits.maxEntries)
  }

  function CountsIn(src: Source, limits: Limits, oidToName: map<string, string>, scans: Scans): Counts {
    CountsOf(EntriesOf(src, JoinOf(src, oidToName, scans), Window(scans.entries, limits.maxEntries)))
  }

  ghost function ReportOf(src: Source, limits: Limits, oidToName: map<string, string>, scans: Scans): Report {
    EntriesReport(CountsIn(src, limits, oidToName, scans), limits, TableSkips(src, oidToName, scans), |scans.entries|)
  }

  function VlanReads(src: Source): string -> bool {
    (key: string) => Suffix(key, src.vlan).Some? ==> src.store.Readable(HGetAll(ASIC_DB, key))
  }

  function BridgeReads(src: Source): string -> bool {
    (key: string) => Suffix(key, src.bridge).Some? ==> src.store.Readable(HGetAll(ASIC_DB, key))
  }

  function EntryReads(src: Source): string -> bool {
    (key: string) => ParseFdbKey(src, key).Some? ==> src.store.Readable(HGetAll(ASIC_DB, key))
  }

  predicate NamesReadable(store: Store) {
    store.Readable(HGetAll(COUNTERS_DB, "COUNTERS_PORT_NAME_MAP"))
        && store.Readable(HGetAll(COUNTERS_DB, "COUNTERS_LAG_NAME_MAP"))
  }

  function PortNames(store: Store): Fields { store.Hash(COUNTERS_DB, "COUNTERS_PORT_NAME_MAP") }
  function LagNames(store: Store): Fields { store.Hash(COUNTERS_DB, "COUNTERS_LAG_NAME_MAP") }

  /** Every request of one refresh is answered. */
  predicate Complete(src: Source, limits: Limits) {
    NamesReadable(src.store) && TablesReadable(src, limits)
  }

  predicate TablesReadable(src: Source, limits: Limits) {
    JoinReadable(src) && EntriesReadable(src, limits)
  }

  /** Every request for the VLAN and bridge port tables is answered. */
  predicate JoinReadable(src: Source) {
    VlansReadable(src) && BridgesReadable(src)
  }

  predicate VlansReadable(src: Source) {
    src.store.Readable(Scan(ASIC_DB, src.vlan + "*")) && Every(VlanReads(src), VlanKeys(src))
  }

  predicate BridgesReadable(src: Source) {
    src.store.Readable(Scan(ASIC_DB, src.bridge + "*")) && Every(BridgeReads(src), BridgeKeys(src))
  }

  // ---------------------------------------------------------------- the refresh

  method PortOidToName(store: Store) returns (outcome: Result<map<string, string>, Request>)
    ensures outcome.Success? ==> NamesReadable(store) && Inverts(outcome.value, PortNames(store), LagNames(store))
    ensures outcome.Failure? ==> !NamesReadable(store) && !store.Readable(outcome.error)
  {
    var ports := store.ReadHash(COUNTERS_DB, "COUNTERS_PORT_NAME_MAP");
    if ports.Failure? {
      return Failure(ports.error);
    }
    var lags := store.ReadHash(COUNTERS_DB, "COUNTERS_LAG_NAME_MAP");
    if lags.Failure? {
      return Failure(lags.error);
    }
    var oidToName := InvertNames(ports.value, lags.value);
    outcome := Success(oidToName);
  }

  /** One more key of a lookup table. */
  lemma TableStep(entry: string -> Option<(string, string)>, bad: string -> bool, good: string -> bool,
                  keys: seq<string>, i: nat)
    requires i < |keys|
    ensures entry(keys[i]).None? ==> TableOf(entry, keys[..i + 1]) == TableOf(entry, keys[..i])
    ensures entry(keys[i]).Some? ==>
      TableOf(entry, keys[..i + 1]) == TableOf(entry, keys[..i])[entry(keys[i]).value.0 := entry(keys[i]).value.1]
    ensures |Filter(bad, keys[..i + 1])| == |Filter(bad, keys[..i])| + if bad(keys[i]) then 1 else 0
    ensures Every(good, keys[..i + 1]) <==> Every(good, keys[..i]) && good(keys[i])
  {
    TakeSnoc(keys, i);
  }

  /** One row of the VLAN table. */
  method ReadVlan(src: Source, key: string) returns (outcome: Result<Option<(string, string)>, Request>)
    requires src.vlan != ""
    ensures outcome.Failure? ==> !VlanReads(src)(key) && !src.store.Readable(outcome.error)
    ensures outcome.Success? ==>
      VlanReads(src)(key) && outcome.value == VlanEntry(src)(key) && (outcome.value.None? <==> SkippedVlan(src)(key))
  {
    TrimPrefixIsSuffix(key, src.vlan);
    var bvid := TrimPrefix(key, src.vlan);
    if bvid == "" || bvid == key {
      return Success(None);
    }
    var fields := src.store.ReadHash(ASIC_DB, key);
    if fields.Failure? {
      return Failure(fields.error);
    }
    var vlanId := TrimSpace(Get(fields.value, "SAI_VLAN_ATTR_VLAN_ID"));
    outcome := Success(if vlanId == "" then None else Some((bvid, vlanId)));
  }

  /** A lookup table and its skip count after the keys in `seen`. */
  ghost predicate TableHolds(entry: string -> Option<(string, string)>, bad: string -> bool, good: string -> bool,
                             seen: seq<string>, table: map<string, string>, skipped: nat) {
    table == TableOf(entry, seen) && skipped == |Filter(bad, seen)| && Every(good, seen)
  }

  lemma TableNext(entry: string -> Option<(string, string)>, bad: string -> bool, good: string -> bool,
                  keys: seq<string>, i: nat, table: map<string, string>, skipped: nat)
    requires i < |keys| && good(keys[i]) && TableHolds(entry, bad, good, keys[..i], table, skipped)
    ensures TableHolds(entry, bad, good, keys[..i + 1],
                       if entry(keys[i]).None? then table else table[entry(keys[i]).value.0 := entry(keys[i]).value.1],
                       skipped + if bad(keys[i]) then 1 else 0)
  {
    TableStep(entry, bad, good, keys, i);
  }

  method BvidToVlan(src: Source) returns (outcome: Result<(map<string, string>, nat), Request>)
    requires src.vlan != ""
    ensures src.store.Answers(VlansReadable(src),
                              (TableOf(VlanEntry(src), VlanKeys(src)), |Filter(SkippedVlan(src), VlanKeys(src))|),
                              outcome)
  {
    var scanned := src.store.ScanKeys(ASIC_DB, src.vlan + "*");
    if scanned.Failure? {
      return Failure(scanned.error);
    }
    var keys := scanned.value;
    var table: map<string, string> := map[];
    var skipped := 0;
    for i := 0 to |keys|
      invariant TableHolds(VlanEntry(src), SkippedVlan(src), VlanReads(src), keys[..i], table, skipped)
    {
      var row := ReadVlan(src, keys[i]);
      if row.Failure? {
        EveryFails(VlanReads(src), keys, i);
        return Failure(row.error);
      }
      TableNext(VlanEntry(src), SkippedVlan(src), VlanReads(src), keys, i, table, skipped);
      if row.value.None? {
        skipped := skipped + 1;
      } else {
        table := table[row.value.value.0 := row.value.value.1];
      }
    }
    assert keys[..|keys|] == keys;
    outcome := Success((table, skipped));
  }

  /** One row of the bridge port table, and whether it counts as skipped. */
  method ReadBridgePort(src: Source, oidToName: map<string, string>, key: string)
    returns (outcome: Result<Option<(string, string)>, Request>, skip: bool)
    requires src.bridge != ""
    ensures outcome.Failure? ==> !BridgeReads(src)(key) && !src.store.Readable(outcome.error)
    ensures outcome.Success? ==>
      && BridgeReads(src)(key)
      && outcome.value == BridgeEntry(src, oidToName)(key)
      && (skip <==> SkippedBridge(src, oidToName)(key))
  {
    TrimPrefixIsSuffix(key, src.bridge);
    var bridgePort := TrimPrefix(key, src.bridge);
    if bridgePort == "" || bridgePort == key {
      return Success(None), true;
    }
    var fields := src.store.ReadHash(ASIC_DB, key);
    if fields.Failure? {
      return Failure(fields.error), false;
    }
    var portId := Get(fields.value, "SAI_BRIDGE_PORT_ATTR_PORT_ID");
    if portId == "" {
      return Success(None), false;
    }
    var portName := Get(oidToName, portId);
    if portName == "" {
      return Success(None), true;
    }
    return Success(Some((bridgePort, portName))), false;
  }

  method BridgePortToPort(src: Source, oidToName: map<string, string>)
    returns (outcome: Result<(map<string, string>, nat), Request>)
    requires src.bridge != ""
    ensures src.store.Answers(BridgesReadable(src),
                          (TableOf(BridgeEntry(src, oidToName), BridgeKeys(src)),
                           |Filter(SkippedBridge(src, oidToName), BridgeKeys(src))|),
                          outcome)
  {
    var scanned := src.store.ScanKeys(ASIC_DB, src.bridge + "*");
    if scanned.Failure? {
      return Failure(scanned.error);
    }
    var keys := scanned.value;
    var table: map<string, string> := map[];
    var skipped := 0;
    for i := 0 to |keys|
      invariant TableHolds(BridgeEntry(src, oidToName), SkippedBridge(src, oidToName), BridgeReads(src), keys[..i],
                           table, skipped)
    {
      var row, skip := ReadBridgePort(src, oidToName, keys[i]);
      if row.Failure? {
        EveryFails(BridgeReads(src), keys, i);
        return Failure(row.error);
      }
      TableNext(BridgeEntry(src, oidToName), SkippedBridge(src, oidToName), BridgeReads(src), keys, i, table, skipped);
      if skip {
        skipped := skipped + 1;
      }
      if row.value.Some? {
        table := table[row.value.value.0 := row.value.value.1];
      }
    }
    assert keys[..|keys|] == keys;
    outcome := Success((table, skipped));
  }

  /** One key of the entry loop: skipped, counted, or unreadable. */
  method CountKey(src: Source, join: Join, key: string, ghost before: seq<string>, c: Counts, skipped: nat)
    returns (failed: Option<Request>, c': Counts, skipped': nat)
    requires c == CountsOf(EntriesOf(src, join, before)) && Every(EntryReads(src), before)
    ensures failed.None? ==>
      && c' == CountsOf(EntriesOf(src, join, before + [key]))
      && Every(EntryReads(src), before + [key])
      && c.total <= c'.total <= c.total + 1
      && skipped' + c'.total == skipped + c.total + 1
    ensures failed.Some? ==> !EntryReads(src)(key) && !src.store.Readable(failed.value)
  {
    failed, c', skipped' := None, c, skipped;
    EntryStep(src, join, before, key);
    if ParseFdbKey(src, key).None? {
      skipped' := skipped + 1;
    } else {
      var fields := src.store.ReadHash(ASIC_DB, key);
      if fields.Failure? {
        failed := Some(fields.error);
      } else if |fields.value| == 0 {
        skipped' := skipped + 1;
      } else {
        c' := CountEntry(c, LabelsAt(src, join, key));
      }
    }
  }

  /** The entry loop over the sorted keys, stopping at the cap. */
  method CountEntries(src: Source, maxEntries: nat, join: Join, keys: seq<string>, skipped: nat)
    returns (outcome: Result<Counts, Request>, skipped': nat, truncated: bool)
    ensures outcome.Success? ==>
      && Every(EntryReads(src), Take(keys, maxEntries))
      && outcome.value == CountsOf(EntriesOf(src, join, Take(keys, maxEntries)))
      && outcome.value.total <= |keys|
      && skipped' == skipped + (|keys| - outcome.value.total)
      && truncated == (|keys| > maxEntries)
    ensures outcome.Failure? ==> !Every(EntryReads(src), Take(keys, maxEntries)) && !src.store.Readable(outcome.error)
  {
    var c := Counts(0, 0, map[], map[], map[]);
    skipped', truncated := skipped, false;
    for idx := 0 to |keys|
      invariant idx <= maxEntries && c.total <= idx
      invariant c == CountsOf(EntriesOf(src, join, keys[..idx]))
      invariant skipped' == skipped + (idx - c.total) && !truncated
      invariant Every(EntryReads(src), keys[..idx])
    {
      if idx >= maxEntries {
        truncated := true;
        skipped' := skipped' + (|keys| - idx);
        return Success(c), skipped', truncated;
      }
      TakeSnoc(keys, idx);
      var failed;
      failed, c, skipped' := CountKey(src, join, keys[idx], keys[..idx], c, skipped');
      if failed.Some? {
        EveryFails(EntryReads(src), Take(keys, maxEntries), idx);
        return Failure(failed.value), skipped', truncated;
      }
    }
    assert keys[..|keys|] == keys;
    outcome := Success(c);
  }

  lemma EntryStep(src: Source, join: Join, keys: seq<string>, key: string)
    ensures Accepted(src, key) ==>
      CountsOf(EntriesOf(src, join, keys + [key]))
      == CountEntry(CountsOf(EntriesOf(src, join, keys)), LabelsAt(src, join, key))
    ensures !Accepted(src, key) ==> EntriesOf(src, join, keys + [key]) == EntriesOf(src, join, keys)
    ensures Every(EntryReads(src), keys + [key]) <==> Every(EntryReads(src), keys) && EntryReads(src)(key)
  {
    EntryAppended(src, join, keys, key);
    EntriesSnoc(EntriesOf(src, join, keys), LabelsAt(src, join, key));
    assert (keys + [key])[..|keys|] == keys;
  }

  lemma EntryAppended(src: Source, join: Join, keys: seq<string>, key: string)
    ensures EntriesOf(src, join, keys + [key])
         == EntriesOf(src, join, keys) + if Accepted(src, key) then [LabelsAt(src, join, key)] else []
  {
    assert (keys + [key])[..|keys|] == keys;
    var accepted := Filter(Accepts(src), keys);
    assert (accepted + [key])[..|accepted|] == accepted;
  }

  lemma EntriesSnoc(entries: seq<Labels>, l: Labels)
    ensures CountsOf(entries + [l]) == CountEntry(CountsOf(entries), l)
  {
    assert (entries + [l])[..|entries|] == entries;
    TallySnoc(Map(VlanOf, entries), l.vlan);
    TallySnoc(Map(PortOf, entries), l.port);
    TallySnoc(Map(KindOf, entries), l.kind);
  }

  lemma TallySnoc(labels: seq<string>, l: string)
    ensures Tally(labels + [l]) == Bump(Tally(labels), l)
  {
    assert (labels + [l])[..|labels|] == labels;
  }

  method EmitCounts(filter: MetricFilter, c: Counts, limits: Limits, skipped: nat)
    returns (metrics: seq<Series>, skipped': nat)
    ensures metrics == filter.Keep(SeriesOf(c, limits))
    ensures skipped' == skipped + Monus(|c.byVlan|, limits.maxVlans) + Monus(|c.byPort|, limits.maxPorts)
  {
    metrics := filter.Emit([], Series("sonic_fdb_entries", [], c.total as real));
    metrics := filter.Emit(metrics, Series("sonic_fdb_entries_unknown_vlan", [], c.unknownVlan as real));
    ghost var full := [Series("sonic_fdb_entries", [], c.total as real),
                       Series("sonic_fdb_entries_unknown_vlan", [], c.unknownVlan as real)];
    assert metrics == filter.Keep(full) by {
      filter.EmitKeeps([], full[0]);
      filter.EmitKeeps([full[0]], full[1]);
      assert [full[0]] + [full[1]] == full;
    }
    var vlanSeries := CountSeries("sonic_fdb_entries_by_vlan", c.byVlan);
    var portSeries := CountSeries("sonic_fdb_entries_by_port", c.byPort);
    var typeSeries := CountSeries("sonic_fdb_entries_by_type", c.byType);
    metrics, skipped' := EmitShown(filter, vlanSeries, c.byVlan, limits.maxVlans, metrics, skipped);
    filter.KeepAppend(full, Map(vlanSeries, Shown(c.byVlan, limits.maxVlans)));
    full := full + Map(vlanSeries, Shown(c.byVlan, limits.maxVlans));
    metrics, skipped' := EmitShown(filter, portSeries, c.byPort, limits.maxPorts, metrics, skipped');
    filter.KeepAppend(full, Map(portSeries, Shown(c.byPort, limits.maxPorts)));
    full := full + Map(portSeries, Shown(c.byPort, limits.maxPorts));
    metrics := EmitAll(filter, typeSeries, c.byType, metrics);
    filter.KeepAppend(full, Map(typeSeries, SortedSet(c.byType.Keys)));
  }

  /** One refresh, for some inversion of the name maps. */
  method ScrapeFdb(limits: Limits, filter: MetricFilter, store: Store, decode: Decoder)
    returns (outcome: Result<Report, Request>)
    ensures var src := AsicSource(store, decode);
            && (outcome.Failure? ==> !Complete(src, limits) && !store.Readable(outcome.error))
            && (outcome.Success? ==>
                && Complete(src, limits)
                && exists oidToName :: Inverts(oidToName, PortNames(store), LagNames(store))
                     && outcome.value == ReportOf(src, limits, oidToName, ScansOf(src)).Filtered(filter))
  {
    var src := AsicSource(store, decode);
    outcome := ScrapeSource(limits, filter, src);
  }

  method ScrapeSource(limits: Limits, filter: MetricFilter, src: Source) returns (outcome: Result<Report, Request>)
    requires src.vlan != "" && src.bridge != ""
    ensures outcome.Failure? ==> !Complete(src, limits) && !src.store.Readable(outcome.error)
    ensures outcome.Success? ==>
      && Complete(src, limits)
      && exists oidToName :: Inverts(oidToName, PortNames(src.store), LagNames(src.store))
           && outcome.value == ReportOf(src, limits, oidToName, ScansOf(src)).Filtered(filter)
  {
    var names := PortOidToName(src.store);
    if names.Failure? {
      return Failure(names.error);
    }
    outcome := ScrapeTables(limits, filter, src, names.value);
  }

  /** Every entry request is answered. */
  predicate EntriesReadable(src: Source, limits: Limits) {
    src.store.Readable(Scan(ASIC_DB, src.fdb + "*")) && Every(EntryReads(src), Window(FdbKeys(src), limits.maxEntries))
  }

  /** Scans, sorts and counts the entries. */
  method CountFdb(src: Source, limits: Limits, join: Join, tableSkips: nat)
    returns (outcome: Result<Counts, Request>, skipped: nat, truncated: bool)
    ensures outcome.Failure? ==> !EntriesReadable(src, limits) && !src.store.Readable(outcome.error)
    ensures outcome.Success? ==>
      && EntriesReadable(src, limits)
      && outcome.value == CountsOf(EntriesOf(src, join, Window(FdbKeys(src), limits.maxEntries)))
      && skipped == tableSkips + Monus(|FdbKeys(src)|, outcome.value.total)
      && truncated == (|FdbKeys(src)| > limits.maxEntries)
  {
    var scanned := src.store.ScanKeys(ASIC_DB, src.fdb + "*");
    if scanned.Failure? {
      return Failure(scanned.error), tableSkips, false;
    }
    var keys := Sort(Self, scanned.value);
    SortLength(Self, scanned.value);
    outcome, skipped, truncated := CountEntries(src, limits.maxEntries, join, keys, tableSkips);
  }

  /** The lookup tables, with the keys skipped while building them. */
  method LoadTables(src: Source, oidToName: map<string, string>) returns (outcome: Result<(Join, nat), Request>)
    requires src.vlan != "" && src.bridge != ""
    ensures outcome.Failure? ==> !JoinReadable(src) && !src.store.Readable(outcome.error)
    ensures outcome.Success? ==> JoinReadable(src) && outcome.value.0 == JoinOf(src, oidToName, ScansOf(src))
    ensures outcome.Success? ==> outcome.value.1 == TableSkips(src, oidToName, ScansOf(src))
  {
    var vlans := BvidToVlan(src);
    if vlans.Failure? {
      return Failure(vlans.error);
    }
    var bridges := BridgePortToPort(src, oidToName);
    if bridges.Failure? {
      return Failure(bridges.error);
    }
    outcome := Success((Join(vlans.value.0, bridges.value.0), vlans.value.1 + bridges.value.1));
  }

  /** The part of a refresh after the tables. */
  method ScrapeEntries(limits: Limits, filter: MetricFilter, src: Source, join: Join, tableSkips: nat)
    returns (outcome: Result<Report, Request>)
    ensures src.store.Answers(EntriesReadable(src, limits),
                              EntriesReport(CountsOf(EntriesOf(src, join, Window(FdbKeys(src), limits.maxEntries))),
                                            limits, tableSkips, |FdbKeys(src)|).Filtered(filter),
                              outcome)
  {
    var counted, skipped, truncated := CountFdb(src, limits, join, tableSkips);
    if counted.Failure? {
      return Failure(counted.error);
    }
    var metrics;
    metrics, skipped := EmitCounts(filter, counted.value, limits, skipped);
    outcome := Success(Report(metrics, skipped, truncated));
  }

  /** The part of a refresh after the name maps. */
  method ScrapeTables(limits: Limits, filter: MetricFilter, src: Source, oidToName: map<string, string>)
    returns (outcome: Result<Report, Request>)
    requires src.vlan != "" && src.bridge != ""
    ensures src.store.Answers(TablesReadable(src, limits),
                              ReportOf(src, limits, oidToName, ScansOf(src)).Filtered(filter), outcome)
  {
    var tables := LoadTables(src, oidToName);
    if tables.Failure? {
      outcome := Failure(tables.error);
    } else {
      outcome := ScrapeEntries(limits, filter, src, tables.value.0, tables.value.1);
    }
  }
}
