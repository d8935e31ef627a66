/** What every counted FDB entry is counted under, spelled out over the Redis tables, and what the series count. */
module FdbLabels {
  import opened Results
  import opened Sequences
  import opened Strings
  import opened Sorting
  import opened Redis
  import opened Metrics
  import opened Histograms
  import opened FdbCollector
  import opened FdbTheorems

  // ---------------------------------------------------------------- the labels of one entry

  /** The key has a payload that decodes to an entry with a MAC address, and its row is not empty. */
  ghost predicate EntryKeyIs(src: Source, key: string, entry: EntryKey) {
    && src.fdb < key && src.decode(key[|src.fdb|..]) == Some(entry) && entry.mac != ""
    && src.store.Hash(ASIC_DB, key) != map[]
  }

  lemma FdbAcceptedExactly(src: Source, key: string)
    ensures Accepted(src, key) <==> exists entry :: EntryKeyIs(src, key, entry)
  {
    if Accepted(src, key) {
      assert EntryKeyIs(src, key, ParseFdbKey(src, key).value);
    }
  }

  /** The VLAN of an entry: its own, or else that of the scanned VLAN row its bvid names, or none. */
  ghost function EntryVlan(src: Source, vlans: seq<string>, entry: EntryKey): Option<string> {
    var row := src.vlan + TrimSpace(entry.bvid);
    var id := TrimSpace(Get(src.store.Hash(ASIC_DB, row), "SAI_VLAN_ATTR_VLAN_ID"));
    if TrimSpace(entry.vlan) != "" then Some(TrimSpace(entry.vlan))
    else if TrimSpace(entry.bvid) != "" && row in vlans && id != "" then Some(id)
    else None
  }

  /** An entry is counted under its VLAN, and as one of unknown VLAN exactly if it has none. */
  lemma FdbEntryVlan(src: Source, oidToName: map<string, string>, scans: Scans, key: string, entry: EntryKey)
    requires EntryKeyIs(src, key, entry)
    ensures var labels := LabelsAt(src, JoinOf(src, oidToName, scans), key);
            && labels.vlan == EntryVlan(src, scans.vlans, entry).GetOr("unknown")
            && (labels.unknownVlan <==> EntryVlan(src, scans.vlans, entry).None?)
  {
    FdbVlanJoin(src, scans.vlans, TrimSpace(entry.bvid));
  }

  /** The type of an entry without SAI's prefix, in lower case. */
  function EntryKind(raw: string): string {
    var lower := TrimSpace(ToLower(raw));
    if lower == "" || lower == "sai_fdb_entry_type_" then "unknown"
    else if "sai_fdb_entry_type_" <= lower then lower[19..]
    else lower
  }

  lemma KindIs(raw: string)
    ensures OrUnknown(EntryType(raw)) == EntryKind(raw)
  {
    KindOfText(TrimSpace(ToLower(raw)), "sai_fdb_entry_type_");
  }

  lemma KindOfText(lower: string, prefix: string)
    ensures OrUnknown(TrimPrefix(lower, prefix))
         == if lower == "" || lower == prefix then "unknown"
            else if prefix <= lower then lower[|prefix|..] else lower
  {
    if prefix <= lower && |lower| == |prefix| {
      assert lower == prefix;
    }
  }

  lemma FdbEntryType(src: Source, join: Join, key: string, entry: EntryKey)
    requires EntryKeyIs(src, key, entry)
    ensures LabelsAt(src, join, key).kind == EntryKind(Get(src.store.Hash(ASIC_DB, key), "SAI_FDB_ENTRY_ATTR_TYPE"))
  {
    KindIs(Get(src.store.Hash(ASIC_DB, key), "SAI_FDB_ENTRY_ATTR_TYPE"));
  }

  /** The bridge port of an entry stands for no port name. */
  ghost predicate NoPort(src: Source, oidToName: map<string, string>, bridges: seq<string>, key: string) {
    var bridgePort := Get(src.store.Hash(ASIC_DB, key), "SAI_FDB_ENTRY_ATTR_BRIDGE_PORT_ID");
    forall name :: !PortResolves(src, oidToName, bridges, bridgePort, name)
  }

  lemma FdbEntryNoPort(src: Source, oidToName: map<string, string>, scans: Scans, key: string, entry: EntryKey)
    requires EntryKeyIs(src, key, entry) && NoPort(src, oidToName, scans.bridges, key)
    ensures LabelsAt(src, JoinOf(src, oidToName, scans), key).port == "unknown"
  {
    FdbPortJoin(src, oidToName, scans, Get(src.store.Hash(ASIC_DB, key), "SAI_FDB_ENTRY_ATTR_BRIDGE_PORT_ID"));
  }

  lemma TenStays()
    ensures TrimSpace("10") == "10"
  {
    TrimProperties("10", IsSpace);
  }

  /**
   * With the exporter's own key prefixes: an entry without a VLAN of its own whose VLAN row says 10 is counted under
   * that.
   */
  lemma BvidCountedUnderTen(store: Store, decode: Decoder, oidToName: map<string, string>, scans: Scans,
                            payload: string, bvid: string, mac: string)
    requires payload != "" && mac != "" && decode(payload) == Some(EntryKey(bvid, "", mac))
    requires store.Hash(ASIC_DB, "ASIC_STATE:SAI_OBJECT_TYPE_FDB_ENTRY:" + payload) != map[]
    requires bvid != "" && TrimSpace(bvid) == bvid && "ASIC_STATE:SAI_OBJECT_TYPE_VLAN:" + bvid in scans.vlans
    requires Get(store.Hash(ASIC_DB, "ASIC_STATE:SAI_OBJECT_TYPE_VLAN:" + bvid), "SAI_VLAN_ATTR_VLAN_ID") == "10"
    ensures var src := AsicSource(store, decode);
            var key := "ASIC_STATE:SAI_OBJECT_TYPE_FDB_ENTRY:" + payload;
            var labels := LabelsAt(src, JoinOf(src, oidToName, scans), key);
            labels.vlan == "10" && !labels.unknownVlan
  {
    var src := AsicSource(store, decode);
    var key := "ASIC_STATE:SAI_OBJECT_TYPE_FDB_ENTRY:" + payload;
    assert key[|src.fdb|..] == payload;
    assert TrimSpace("") == "";
    TenStays();
    FdbEntryVlan(src, oidToName, scans, key, EntryKey(bvid, "", mac));
  }

  /**
   * A VLAN row is skipped exactly without an id in its key or its fields; a bridge port row exactly without an id in
   * its key or with a port object that has no name, so one without a port object is passed over in silence.
   */
  lemma TableSkipsExactly(src: Source, oidToName: map<string, string>, key: string)
    ensures SkippedVlan(src)(key)
       <==> !(src.vlan < key) || TrimSpace(Get(src.store.Hash(ASIC_DB, key), "SAI_VLAN_ATTR_VLAN_ID")) == ""
    ensures SkippedBridge(src, oidToName)(key)
       <==> var port := Get(src.store.Hash(ASIC_DB, key), "SAI_BRIDGE_PORT_ATTR_PORT_ID");
            !(src.bridge < key) || (port != "" && (port !in oidToName || oidToName[port] == ""))
  {
  }

  // ---------------------------------------------------------------- the counts

  function CountedVlan(src: Source, join: Join, vlan: string): string -> bool {
    (key: string) => Accepted(src, key) && LabelsAt(src, join, key).vlan == vlan
  }

  function CountedPort(src: Source, join: Join, port: string): string -> bool {
    (key: string) => Accepted(src, key) && LabelsAt(src, join, key).port == port
  }

  function CountedType(src: Source, join: Join, kind: string): string -> bool {
    (key: string) => Accepted(src, key) && LabelsAt(src, join, key).kind == kind
  }

  function CountedUnknown(src: Source, join: Join): string -> bool {
    (key: string) => Accepted(src, key) && LabelsAt(src, join, key).unknownVlan
  }

  /** Each count of a refresh is the number of accepted keys within the cap that have the label. */
  lemma FdbCountsTold(src: Source, limits: Limits, oidToName: map<string, string>, scans: Scans, text: string)
    ensures var c, join := CountsIn(src, limits, oidToName, scans), JoinOf(src, oidToName, scans);
            var window := Window(scans.entries, limits.maxEntries);
            && c.total == |Filter(Accepts(src), window)|
            && c.unknownVlan == |Filter(CountedUnknown(src, join), window)|
            && Count(c.byVlan, text) == |Filter(CountedVlan(src, join, text), window)|
            && Count(c.byPort, text) == |Filter(CountedPort(src, join, text), window)|
            && Count(c.byType, text) == |Filter(CountedType(src, join, text), window)|
  {
    var join, window := JoinOf(src, oidToName, scans), Window(scans.entries, limits.maxEntries);
    var entries := EntriesOf(src, join, window);
    TallyCounts(Map(VlanOf, entries));
    TallyCounts(Map(PortOf, entries));
    TallyCounts(Map(KindOf, entries));
    CountMapped(Accepts(src), LabelsOf(src, join), VlanOf, text, CountedVlan(src, join, text), window);
    CountMapped(Accepts(src), LabelsOf(src, join), PortOf, text, CountedPort(src, join, text), window);
    CountMapped(Accepts(src), LabelsOf(src, join), KindOf, text, CountedType(src, join, text), window);
    FilterMapped(Accepts(src), LabelsOf(src, join), IsUnknownVlan, CountedUnknown(src, join), window);
  }

  /** The two series without labels: the counted entries, and those of unknown VLAN. */
  lemma FdbTotals(c: Counts, limits: Limits)
    ensures var series := SeriesOf(c, limits);
            && OfFamily("sonic_fdb_entries", series) == [Series("sonic_fdb_entries", [], c.total as real)]
            && OfFamily("sonic_fdb_entries_unknown_vlan", series)
               == [Series("sonic_fdb_entries_unknown_vlan", [], c.unknownVlan as real)]
  {
    var v, p, t := "sonic_fdb_entries_by_vlan", "sonic_fdb_entries_by_port", "sonic_fdb_entries_by_type";
    var n, u := "sonic_fdb_entries", "sonic_fdb_entries_unknown_vlan";
    CountSeriesFamily(v, c.byVlan, Shown(c.byVlan, limits.maxVlans));
    CountSeriesFamily(p, c.byPort, Shown(c.byPort, limits.maxPorts));
    CountSeriesFamily(t, c.byType, SortedSet(c.byType.Keys));
    TwoHeads(Series(n, [], c.total as real), Series(u, [], c.unknownVlan as real), v, p, t,
             Map(CountSeries(v, c.byVlan), Shown(c.byVlan, limits.maxVlans)),
             Map(CountSeries(p, c.byPort), Shown(c.byPort, limits.maxPorts)),
             Map(CountSeries(t, c.byType), SortedSet(c.byType.Keys)));
  }

  lemma TwoHeads(n: Series, u: Series, v: string, p: string, t: string, vs: seq<Series>, ps: seq<Series>,
                 ts: seq<Series>)
    requires |n.family| < |v| && |v| == |p| == |t| && |v| < |u.family|
    requires AllInFamily(v, vs) && AllInFamily(p, ps) && AllInFamily(t, ts)
    ensures OfFamily(n.family, [n, u] + vs + ps + ts) == [n]
    ensures OfFamily(u.family, [n, u] + vs + ps + ts) == [u]
  {
    HeadOf(n.family, n, u, vs, ps, ts);
    HeadOf(u.family, n, u, vs, ps, ts);
  }

  lemma HeadOf(family: string, n: Series, u: Series, vs: seq<Series>, ps: seq<Series>, ts: seq<Series>)
    requires forall s :: s in vs || s in ps || s in ts ==> s.family != family
    ensures OfFamily(family, [n, u] + vs + ps + ts)
         == (if n.family == family then [n] else []) + (if u.family == family then [u] else [])
  {
    OfFamilyAppend(family, [n, u], vs, ps, ts);
    NoneOfFamily(family, vs);
    NoneOfFamily(family, ps);
    NoneOfFamily(family, ts);
    assert [n, u] == [n] + [u];
    FilterAppend(InFamily(family), [n], [u]);
    FilterAll(InFamily(family), [n]);
    FilterAll(InFamily(family), [u]);
  }
}
