/** What the FDB counts, labels and skip counter guarantee about every refresh. */
module FdbTheorems {
  import opened Results
  import opened Sequences
  import opened Strings
  import opened Sorting
  import opened Redis
  import opened Metrics
  import opened Histograms
  import opened FdbCollector

  // ---------------------------------------------------------------- conservation

  function MalformedKey(src: Source): string -> bool {
    (key: string) => ParseFdbKey(src, key).None?
  }

  function EmptyEntry(src: Source): string -> bool {
    (key: string) => ParseFdbKey(src, key).Some? && src.store.Hash(ASIC_DB, key) == map[]
  }

  /** Every scanned entry key is counted, malformed, empty, or beyond the cap. */
  lemma FdbKeysAccountedFor(src: Source, limits: Limits, oidToName: map<string, string>, scans: Scans)
    ensures var window := Window(scans.entries, limits.maxEntries);
            CountsIn(src, limits, oidToName, scans).total
            + |Filter(MalformedKey(src), window)| + |Filter(EmptyEntry(src), window)|
            + Monus(|scans.entries|, limits.maxEntries)
            == |scans.entries|
  {
    var window := Window(scans.entries, limits.maxEntries);
    SortLength(Self, scans.entries);
    FilterThree(Accepts(src), MalformedKey(src), EmptyEntry(src), window);
  }

  /** The final skip counter, contribution by contribution. */
  lemma FdbSkipLedger(src: Source, limits: Limits, oidToName: map<string, string>, scans: Scans)
    ensures var window := Window(scans.entries, limits.maxEntries);
            var c := CountsIn(src, limits, oidToName, scans);
            var report := ReportOf(src, limits, oidToName, scans);
            && report.skipped
               == |Filter(SkippedVlan(src), scans.vlans)| + |Filter(SkippedBridge(src, oidToName), scans.bridges)|
                  + |Filter(MalformedKey(src), window)| + |Filter(EmptyEntry(src), window)|
                  + Monus(|scans.entries|, limits.maxEntries)
                  + Monus(|c.byVlan|, limits.maxVlans) + Monus(|c.byPort|, limits.maxPorts)
            && (report.truncated <==> |scans.entries| > limits.maxEntries)
  {
    FdbKeysAccountedFor(src, limits, oidToName, scans);
  }

  lemma {:induction false} UnknownWithin(entries: seq<Labels>)
    requires forall l :: l in entries && l.unknownVlan ==> l.vlan == "unknown"
    ensures |Filter(IsUnknownVlan, entries)| <= Count(Tally(Map(VlanOf, entries)), "unknown")
  {
    if entries != [] {
      UnknownWithin(entries[..|entries| - 1]);
    }
  }

  lemma UnknownLabelled(src: Source, join: Join, keys: seq<string>)
    ensures forall l :: l in EntriesOf(src, join, keys) && l.unknownVlan ==> l.vlan == "unknown"
  {
    var accepted := Filter(Accepts(src), keys);
    forall i | 0 <= i < |accepted|
      ensures LabelsAt(src, join, accepted[i]).unknownVlan ==> LabelsAt(src, join, accepted[i]).vlan == "unknown"
    {
    }
  }

  /**
   * Each marginal histogram adds up to the number of entries, and the unknown VLANs are part of the "unknown" bucket.
   */
  lemma FdbHistogramsConserve(src: Source, limits: Limits, oidToName: map<string, string>, scans: Scans)
    ensures var c := CountsIn(src, limits, oidToName, scans);
            && Total(c.byVlan, SortedSet(c.byVlan.Keys)) == c.total
            && Total(c.byPort, SortedSet(c.byPort.Keys)) == c.total
            && Total(c.byType, SortedSet(c.byType.Keys)) == c.total
            && c.unknownVlan <= Count(c.byVlan, "unknown")
  {
    var join := JoinOf(src, oidToName, scans);
    var entries := EntriesOf(src, join, Window(scans.entries, limits.maxEntries));
    TallyTotals(Map(VlanOf, entries));
    TallyTotals(Map(PortOf, entries));
    TallyTotals(Map(KindOf, entries));
    UnknownLabelled(src, join, Window(scans.entries, limits.maxEntries));
    UnknownWithin(entries);
  }

  lemma TallyTotals(labels: seq<string>)
    ensures Total(Tally(labels), SortedSet(Tally(labels).Keys)) == |labels|
  {
    SortedSetProperties(Tally(labels).Keys);
    TallyCounts(labels);
    TotalTally(labels, SortedSet(Tally(labels).Keys));
  }

  lemma OfFamilyAppend(family: string, a: seq<Series>, b: seq<Series>, c: seq<Series>, d: seq<Series>)
    ensures OfFamily(family, a + b + c + d)
         == OfFamily(family, a) + OfFamily(family, b) + OfFamily(family, c) + OfFamily(family, d)
  {
    FilterAppend(InFamily(family), a, b);
    FilterAppend(InFamily(family), a + b, c);
    FilterAppend(InFamily(family), a + b + c, d);
  }

  ghost predicate AllInFamily(family: string, series: seq<Series>) {
    forall s :: s in series ==> s.family == family
  }

  lemma WholeFamily(family: string, series: seq<Series>)
    requires AllInFamily(family, series)
    ensures OfFamily(family, series) == series
  {
    FilterAll(InFamily(family), series);
  }

  lemma NoneOfFamily(family: string, series: seq<Series>)
    requires forall s :: s in series ==> s.family != family
    ensures OfFamily(family, series) == []
  {
    FilterAll(InFamily(family), series);
  }

  /** Of three blocks of different families behind other series, each family keeps exactly its own block. */
  lemma ThreeBlocks(heads: seq<Series>, v: string, p: string, t: string, vs: seq<Series>, ps: seq<Series>,
                    ts: seq<Series>)
    requires v != p && v != t && p != t
    requires forall s :: s in heads ==> s.family != v && s.family != p && s.family != t
    requires AllInFamily(v, vs) && AllInFamily(p, ps) && AllInFamily(t, ts)
    ensures OfFamily(v, heads + vs + ps + ts) == vs
    ensures OfFamily(p, heads + vs + ps + ts) == ps
    ensures OfFamily(t, heads + vs + ps + ts) == ts
  {
    FirstBlock(v, heads, vs, ps, ts);
    SecondBlock(p, heads, vs, ps, ts);
    ThirdBlock(t, heads, vs, ps, ts);
  }

  lemma FirstBlock(family: string, heads: seq<Series>, a: seq<Series>, b: seq<Series>, c: seq<Series>)
    requires AllInFamily(family, a) && forall s :: s in heads || s in b || s in c ==> s.family != family
    ensures OfFamily(family, heads + a + b + c) == a
  {
    OfFamilyAppend(family, heads, a, b, c);
    WholeFamily(family, a);
    NoneOfFamily(family, heads);
    NoneOfFamily(family, b);
    NoneOfFamily(family, c);
  }

  lemma SecondBlock(family: string, heads: seq<Series>, a: seq<Series>, b: seq<Series>, c: seq<Series>)
    requires AllInFamily(family, b) && forall s :: s in heads || s in a || s in c ==> s.family != family
    ensures OfFamily(family, heads + a + b + c) == b
  {
    OfFamilyAppend(family, heads, a, b, c);
    WholeFamily(family, b);
    NoneOfFamily(family, heads);
    NoneOfFamily(family, a);
    NoneOfFamily(family, c);
  }

  lemma ThirdBlock(family: string, heads: seq<Series>, a: seq<Series>, b: seq<Series>, c: seq<Series>)
    requires AllInFamily(family, c) && forall s :: s in heads || s in a || s in b ==> s.family != family
    ensures OfFamily(family, heads + a + b + c) == c
  {
    OfFamilyAppend(family, heads, a, b, c);
    WholeFamily(family, c);
    NoneOfFamily(family, heads);
    NoneOfFamily(family, a);
    NoneOfFamily(family, b);
  }

  lemma CountSeriesFamily(family: string, h: Histogram, labels: seq<string>)
    ensures AllInFamily(family, Map(CountSeries(family, h), labels))
  {
  }

  /** The series of the labelled families in a report: ascending labels, each with its count, up to the cap. */
  lemma FdbFamily(c: Counts, limits: Limits)
    ensures var series := SeriesOf(c, limits);
            && OfFamily("sonic_fdb_entries_by_vlan", series)
               == Map(CountSeries("sonic_fdb_entries_by_vlan", c.byVlan), Shown(c.byVlan, limits.maxVlans))
            && OfFamily("sonic_fdb_entries_by_port", series)
               == Map(CountSeries("sonic_fdb_entries_by_port", c.byPort), Shown(c.byPort, limits.maxPorts))
            && OfFamily("sonic_fdb_entries_by_type", series)
               == Map(CountSeries("sonic_fdb_entries_by_type", c.byType), SortedSet(c.byType.Keys))
  {
    var v, p, t := "sonic_fdb_entries_by_vlan", "sonic_fdb_entries_by_port", "sonic_fdb_entries_by_type";
    assert v[21] == 'v' && p[21] == 'p' && t[21] == 't';
    var heads := [Series("sonic_fdb_entries", [], c.total as real),
                  Series("sonic_fdb_entries_unknown_vlan", [], c.unknownVlan as real)];
    assert |heads[0].family| == 17 && |heads[1].family| == 30 && |v| == |p| == |t| == 25;
    CountSeriesFamily(v, c.byVlan, Shown(c.byVlan, limits.maxVlans));
    CountSeriesFamily(p, c.byPort, Shown(c.byPort, limits.maxPorts));
    CountSeriesFamily(t, c.byType, SortedSet(c.byType.Keys));
    ThreeBlocks(heads, v, p, t, Map(CountSeries(v, c.byVlan), Shown(c.byVlan, limits.maxVlans)),
                Map(CountSeries(p, c.byPort), Shown(c.byPort, limits.maxPorts)),
                Map(CountSeries(t, c.byType), SortedSet(c.byType.Keys)));
  }

  /** A capped block adds up to the number of tallied entries exactly when the cap cuts nothing off. */
  lemma CappedBlock(family: string, labels: seq<string>, cap: nat)
    ensures var sum := SumValues(Map(CountSeries(family, Tally(labels)), Shown(Tally(labels), cap)));
            sum <= |labels| as real && (sum == |labels| as real <==> |Tally(labels)| <= cap)
  {
    SeriesSum(CountSeries(family, Tally(labels)), Tally(labels), Shown(Tally(labels), cap));
    ShownTotal(labels, cap);
  }

  lemma WholeBlock(family: string, labels: seq<string>)
    ensures SumValues(Map(CountSeries(family, Tally(labels)), SortedSet(Tally(labels).Keys))) == |labels| as real
  {
    SeriesSum(CountSeries(family, Tally(labels)), Tally(labels), SortedSet(Tally(labels).Keys));
    TallyTotals(labels);
  }

  /** The emitted by-VLAN and by-port values add up to the emitted total exactly when no label is cut off. */
  lemma FdbSeriesConserve(entries: seq<Labels>, limits: Limits)
    ensures var c := CountsOf(entries);
            && CappedFamily("sonic_fdb_entries_by_vlan", c, c.byVlan, limits, limits.maxVlans)
            && CappedFamily("sonic_fdb_entries_by_port", c, c.byPort, limits, limits.maxPorts)
            && SumValues(OfFamily("sonic_fdb_entries_by_type", SeriesOf(c, limits))) == c.total as real
  {
    var c := CountsOf(entries);
    FdbFamily(c, limits);
    CappedBlock("sonic_fdb_entries_by_vlan", Map(VlanOf, entries), limits.maxVlans);
    CappedBlock("sonic_fdb_entries_by_port", Map(PortOf, entries), limits.maxPorts);
    WholeBlock("sonic_fdb_entries_by_type", Map(KindOf, entries));
  }

  /** The series of a family add up to at most the total, and to the total exactly when no label is cut off. */
  ghost predicate CappedFamily(family: string, c: Counts, h: Histogram, limits: Limits, cap: nat) {
    var sum := SumValues(OfFamily(family, SeriesOf(c, limits)));
    sum <= c.total as real && (sum == c.total as real <==> |h| <= cap)
  }

  // ---------------------------------------------------------------- the three-table join

  /** The port name a bridge port id stands for: its row exists, has a port object, and that object has a name. */
  ghost predicate PortResolves(src: Source, oidToName: map<string, string>, bridges: seq<string>, bridgePort: string,
                               name: string) {
    && bridgePort != "" && src.bridge + bridgePort in bridges
    && var oid := Get(src.store.Hash(ASIC_DB, src.bridge + bridgePort), "SAI_BRIDGE_PORT_ATTR_PORT_ID");
       oid != "" && oid in oidToName && oidToName[oid] == name && name != ""
  }

  /** A bridge port is labelled with the name its tables give, and with "unknown" exactly when they give none. */
  lemma FdbPortJoin(src: Source, oidToName: map<string, string>, scans: Scans, bridgePort: string)
    ensures var port := OrUnknown(Get(JoinOf(src, oidToName, scans).bridgeToPort, bridgePort));
            && (forall name :: PortResolves(src, oidToName, scans.bridges, bridgePort, name) ==> port == name)
            && ((forall name :: !PortResolves(src, oidToName, scans.bridges, bridgePort, name)) ==> port == "unknown")
  {
    var entry := BridgeEntry(src, oidToName);
    var table := TableOf(entry, scans.bridges);
    BridgeEntryConsistent(src, oidToName);
    TableOfLookup(entry, scans.bridges, bridgePort);
    var key := src.bridge + bridgePort;
    if bridgePort != "" {
      assert Suffix(key, src.bridge) == Some(bridgePort);
    }
    if bridgePort in table {
      var k :| k in scans.bridges && entry(k) == Some((bridgePort, table[bridgePort]));
      SuffixProperties(k, src.bridge);
      assert k == key;
      assert PortResolves(src, oidToName, scans.bridges, bridgePort, table[bridgePort]);
    }
    forall name | PortResolves(src, oidToName, scans.bridges, bridgePort, name)
      ensures OrUnknown(Get(table, bridgePort)) == name
    {
      assert entry(key) == Some((bridgePort, name));
    }
  }

  /** The labels of a counted entry, spelled out over the tables. */
  lemma FdbEntryPort(src: Source, oidToName: map<string, string>, scans: Scans, key: string, name: string)
    requires Inverts(oidToName, PortNames(src.store), LagNames(src.store))
    requires Accepted(src, key)
    requires var bridgePort := Get(src.store.Hash(ASIC_DB, key), "SAI_FDB_ENTRY_ATTR_BRIDGE_PORT_ID");
             PortResolves(src, oidToName, scans.bridges, bridgePort, name)
    ensures LabelsAt(src, JoinOf(src, oidToName, scans), key).port == name
    ensures var bridgePort := Get(src.store.Hash(ASIC_DB, key), "SAI_FDB_ENTRY_ATTR_BRIDGE_PORT_ID");
            var oid := Get(src.store.Hash(ASIC_DB, src.bridge + bridgePort), "SAI_BRIDGE_PORT_ATTR_PORT_ID");
            if oid in LagNames(src.store).Values
            then name in LagNames(src.store) && LagNames(src.store)[name] == oid
            else name in PortNames(src.store) && PortNames(src.store)[name] == oid
  {
    FdbPortJoin(src, oidToName, scans, Get(src.store.Hash(ASIC_DB, key), "SAI_FDB_ENTRY_ATTR_BRIDGE_PORT_ID"));
  }

  /** A VLAN object id is looked up as the trimmed VLAN id of its row, if the row exists and has one. */
  lemma FdbVlanJoin(src: Source, vlans: seq<string>, bvid: string)
    ensures var id := TrimSpace(Get(src.store.Hash(ASIC_DB, src.vlan + bvid), "SAI_VLAN_ATTR_VLAN_ID"));
            Get(TableOf(VlanEntry(src), vlans), bvid) == if bvid != "" && src.vlan + bvid in vlans then id else ""
  {
    var entry := VlanEntry(src);
    var table := TableOf(entry, vlans);
    VlanEntryConsistent(src);
    TableOfLookup(entry, vlans, bvid);
    var key := src.vlan + bvid;
    if bvid != "" {
      assert Suffix(key, src.vlan) == Some(bvid);
    }
    if bvid in table {
      var k :| k in vlans && entry(k) == Some((bvid, table[bvid]));
      SuffixProperties(k, src.vlan);
      assert k == key;
    } else if bvid != "" && key in vlans {
      assert entry(key).None?;
    }
  }

  // ---------------------------------------------------------------- scan order does not matter

  ghost predicate SameKeys(a: Scans, b: Scans) {
    && multiset(a.vlans) == multiset(b.vlans)
    && multiset(a.bridges) == multiset(b.bridges)
    && multiset(a.entries) == multiset(b.entries)
  }

  lemma WindowPermutation(limits: Limits, a: seq<string>, b: seq<string>)
    requires multiset(a) == multiset(b)
    ensures Window(a, limits.maxEntries) == Window(b, limits.maxEntries)
    ensures |a| == |b|
  {
    SortStringsPermutation(a, b);
    PermutationLength(a, b);
  }

  lemma JoinPermutation(src: Source, oidToName: map<string, string>, a: Scans, b: Scans)
    requires SameKeys(a, b)
    ensures JoinOf(src, oidToName, a) == JoinOf(src, oidToName, b)
  {
    VlanEntryConsistent(src);
    BridgeEntryConsistent(src, oidToName);
    TableOfPermutation(VlanEntry(src), a.vlans, b.vlans);
    TableOfPermutation(BridgeEntry(src, oidToName), a.bridges, b.bridges);
  }

  lemma SkipsPermutation(src: Source, oidToName: map<string, string>, a: Scans, b: Scans)
    requires SameKeys(a, b)
    ensures TableSkips(src, oidToName, a) == TableSkips(src, oidToName, b)
  {
    FilterPermutation(SkippedVlan(src), a.vlans, b.vlans);
    FilterPermutation(SkippedBridge(src, oidToName), a.bridges, b.bridges);
    PermutationLength(a.entries, b.entries);
  }

  /** The order in which the three scans return their keys does not reach the report. */
  lemma FdbScanOrderIrrelevant(src: Source, limits: Limits, oidToName: map<string, string>, a: Scans, b: Scans)
    requires SameKeys(a, b)
    ensures ReportOf(src, limits, oidToName, a) == ReportOf(src, limits, oidToName, b)
  {
    WindowPermutation(limits, a.entries, b.entries);
    JoinPermutation(src, oidToName, a, b);
    SkipsPermutation(src, oidToName, a, b);
  }
}
