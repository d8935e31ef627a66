/** How far Go's map iteration order, which decides between the names of one OID, can reach into an FDB report. */
module FdbMapOrder {
  import opened Results
  import opened Sequences
  import opened Strings
  import opened Sorting
  import opened Redis
  import opened Metrics
  import opened Histograms
  import opened FdbCollector
  import opened FdbTheorems

  // ---------------------------------------------------------------- the label of a bridge port

  /** The label a bridge port id gets under an inversion. */
  function PortLabel(src: Source, oidToName: map<string, string>, bridges: seq<string>, bridgePort: string): string {
    OrUnknown(Get(TableOf(BridgeEntry(src, oidToName), bridges), bridgePort))
  }

  /** The OID of the port behind a bridge port id, empty if there is none. */
  function PortOid(src: Source, bridges: seq<string>, bridgePort: string): string {
    if bridgePort != "" && src.bridge + bridgePort in bridges then PortId(src, src.bridge + bridgePort) else ""
  }

  lemma PortLabelByOid(src: Source, oidToName: map<string, string>, bridges: seq<string>, bridgePort: string)
    ensures var oid := PortOid(src, bridges, bridgePort);
            PortLabel(src, oidToName, bridges, bridgePort)
            == if oid == "" then "unknown" else OrUnknown(Get(oidToName, oid))
  {
    var oid, scans := PortOid(src, bridges, bridgePort), Scans([], bridges, []);
    FdbPortJoin(src, oidToName, scans, bridgePort);
    if oid != "" && Get(oidToName, oid) != "" {
      assert PortResolves(src, oidToName, bridges, bridgePort, Get(oidToName, oid));
    }
  }

  /** All candidate names of an OID give the same label. */
  ghost predicate SameLabel(oid: string, ports: Fields, lags: Fields) {
    forall p, q :: Candidate(oid, p, ports, lags) && Candidate(oid, q, ports, lags) ==> OrUnknown(p) == OrUnknown(q)
  }

  /**
   * Exactly when Go's map order cannot change the label of a bridge port: when it leads to no port OID, or when all the
   * candidate names of that OID give the same label.
   */
  lemma PortLabelDetermined(src: Source, bridges: seq<string>, bridgePort: string)
    ensures var ports, lags, oid := PortNames(src.store), LagNames(src.store), PortOid(src, bridges, bridgePort);
            (forall x, y :: Inverts(x, ports, lags) && Inverts(y, ports, lags) ==>
               PortLabel(src, x, bridges, bridgePort) == PortLabel(src, y, bridges, bridgePort))
            <==> oid == "" || SameLabel(oid, ports, lags)
  {
    var ports, lags, oid := PortNames(src.store), LagNames(src.store), PortOid(src, bridges, bridgePort);
    if oid == "" || SameLabel(oid, ports, lags) {
      forall x, y | Inverts(x, ports, lags) && Inverts(y, ports, lags)
        ensures PortLabel(src, x, bridges, bridgePort) == PortLabel(src, y, bridges, bridgePort)
      {
        PortLabelByOid(src, x, bridges, bridgePort);
        PortLabelByOid(src, y, bridges, bridgePort);
        assert oid in x <==> oid in y;
        assert oid in x ==> Candidate(oid, x[oid], ports, lags) && Candidate(oid, y[oid], ports, lags);
      }
    } else {
      var p, q :| Candidate(oid, p, ports, lags) && Candidate(oid, q, ports, lags) && OrUnknown(p) != OrUnknown(q);
      var x := PortLabelChosen(src, bridges, bridgePort, p);
      var y := PortLabelChosen(src, bridges, bridgePort, q);
      assert PortLabel(src, x, bridges, bridgePort) != PortLabel(src, y, bridges, bridgePort);
    }
  }

  /** Any candidate name of the port's OID can become the label. */
  lemma PortLabelChosen(src: Source, bridges: seq<string>, bridgePort: string, name: string)
    returns (x: map<string, string>)
    requires PortOid(src, bridges, bridgePort) != ""
    requires Candidate(PortOid(src, bridges, bridgePort), name, PortNames(src.store), LagNames(src.store))
    ensures Inverts(x, PortNames(src.store), LagNames(src.store))
    ensures PortLabel(src, x, bridges, bridgePort) == OrUnknown(name)
  {
    x := InversionChoosing(PortOid(src, bridges, bridgePort), name, PortNames(src.store), LagNames(src.store));
    PortLabelByOid(src, x, bridges, bridgePort);
  }

  /**
   * Two ports with one OID: the same bridge port is labelled Ethernet0 under one map order and Ethernet4 under another.
   */
  lemma PortLabelAmbiguous(src: Source, bridgePort: string) returns (x: map<string, string>, y: map<string, string>)
    requires PortNames(src.store) == map["Ethernet0" := "oid:0x1", "Ethernet4" := "oid:0x1"]
         && LagNames(src.store) == map[]
    requires bridgePort != "" && PortId(src, src.bridge + bridgePort) == "oid:0x1"
    ensures Inverts(x, PortNames(src.store), LagNames(src.store))
         && Inverts(y, PortNames(src.store), LagNames(src.store))
    ensures PortLabel(src, x, [src.bridge + bridgePort], bridgePort) == "Ethernet0"
    ensures PortLabel(src, y, [src.bridge + bridgePort], bridgePort) == "Ethernet4"
  {
    var bridges := [src.bridge + bridgePort];
    assert src.bridge + bridgePort in bridges;
    var ports := PortNames(src.store);
    assert "Ethernet0" in ports && ports["Ethernet0"] == "oid:0x1" && "Ethernet4" in ports
        && ports["Ethernet4"] == "oid:0x1";
    x := PortLabelChosen(src, bridges, bridgePort, "Ethernet0");
    y := PortLabelChosen(src, bridges, bridgePort, "Ethernet4");
  }

  // ---------------------------------------------------------------- the counts by port

  /** A map that some iteration order can build. */
  ghost predicate Possible(src: Source, oidToName: map<string, string>) {
    Inverts(oidToName, PortNames(src.store), LagNames(src.store))
  }

  ghost predicate IsCandidate(src: Source, oid: string, name: string) {
    Candidate(oid, name, PortNames(src.store), LagNames(src.store))
  }

  function BridgePortAt(src: Source, key: string): string {
    Get(src.store.Hash(ASIC_DB, key), "SAI_FDB_ENTRY_ATTR_BRIDGE_PORT_ID")
  }

  function EntryOid(src: Source, bridges: seq<string>): string -> string {
    (key: string) => PortOid(src, bridges, BridgePortAt(src, key))
  }

  function CountedKeys(src: Source, limits: Limits, scans: Scans): seq<string> {
    Filter(Accepts(src), Window(scans.entries, limits.maxEntries))
  }

  /** The port OIDs of the counted entries, empty for entries without one. */
  function CountedOids(src: Source, limits: Limits, scans: Scans): seq<string> {
    Map(EntryOid(src, scans.bridges), CountedKeys(src, limits, scans))
  }

  function OidLabel(oidToName: map<string, string>): string -> string {
    (oid: string) => if oid == "" then "unknown" else OrUnknown(Get(oidToName, oid))
  }

  function PortCounts(src: Source, limits: Limits, oidToName: map<string, string>, scans: Scans): Histogram {
    CountsIn(src, limits, oidToName, scans).byPort
  }

  lemma JoinedPort(src: Source, join: Join, key: string)
    requires Accepted(src, key)
    ensures LabelsAt(src, join, key).port == OrUnknown(Get(join.bridgeToPort, BridgePortAt(src, key)))
  {
  }

  lemma EntryPortLabel(src: Source, x: map<string, string>, scans: Scans, key: string)
    requires Accepted(src, key)
    ensures PortOf(LabelsOf(src, JoinOf(src, x, scans))(key)) == OidLabel(x)(EntryOid(src, scans.bridges)(key))
  {
    JoinedPort(src, JoinOf(src, x, scans), key);
    PortLabelByOid(src, x, scans.bridges, BridgePortAt(src, key));
  }

  lemma CountedAccepted(src: Source, limits: Limits, scans: Scans)
    ensures forall key :: key in CountedKeys(src, limits, scans) ==> Accepted(src, key)
  {
    FilterMembers(Accepts(src), Window(scans.entries, limits.maxEntries));
  }

  lemma PortLabelsByOid(src: Source, x: map<string, string>, scans: Scans, keys: seq<string>)
    requires forall key :: key in keys ==> Accepted(src, key)
    ensures Map(PortOf, Map(LabelsOf(src, JoinOf(src, x, scans)), keys))
         == Map(OidLabel(x), Map(EntryOid(src, scans.bridges), keys))
  {
    var labels, oid := LabelsOf(src, JoinOf(src, x, scans)), EntryOid(src, scans.bridges);
    forall key | key in keys ensures PortOf(labels(key)) == OidLabel(x)(oid(key)) {
      EntryPortLabel(src, x, scans, key);
    }
    MapTwice(PortOf, labels, OidLabel(x), oid, keys);
  }

  lemma TalliedPorts(src: Source, limits: Limits, x: map<string, string>, scans: Scans)
    ensures PortCounts(src, limits, x, scans)
         == Tally(Map(PortOf, Map(LabelsOf(src, JoinOf(src, x, scans)), CountedKeys(src, limits, scans))))
  {
  }

  /** The counts by port are those of the labels of the counted OIDs. */
  lemma PortCountsByOid(src: Source, limits: Limits, x: map<string, string>, scans: Scans)
    ensures PortCounts(src, limits, x, scans) == Tally(Map(OidLabel(x), CountedOids(src, limits, scans)))
  {
    CountedAccepted(src, limits, scans);
    PortLabelsByOid(src, x, scans, CountedKeys(src, limits, scans));
    TalliedPorts(src, limits, x, scans);
  }

  /** Each OID in the list is empty or has candidate names of one label only. */
  ghost predicate LabelsAgree(src: Source, oids: seq<string>) {
    forall oid :: oid in oids ==> oid == "" || SameLabel(oid, PortNames(src.store), LagNames(src.store))
  }

  lemma AgreeingLabel(src: Source, oids: seq<string>, x: map<string, string>, y: map<string, string>, oid: string)
    requires LabelsAgree(src, oids) && Possible(src, x) && Possible(src, y) && oid in oids
    ensures OidLabel(x)(oid) == OidLabel(y)(oid)
  {
    assert oid in x <==> oid in y;
    assert oid in x ==> IsCandidate(src, oid, x[oid]) && IsCandidate(src, oid, y[oid]);
  }

  lemma SameButPort(src: Source, a: Join, b: Join, key: string)
    requires a.bvidToVlan == b.bvidToVlan && LabelsAt(src, a, key).port == LabelsAt(src, b, key).port
    ensures LabelsAt(src, a, key) == LabelsAt(src, b, key)
  {
  }

  lemma SameEntry(src: Source, x: map<string, string>, y: map<string, string>, scans: Scans, oids: seq<string>,
                  key: string)
    requires LabelsAgree(src, oids) && Possible(src, x) && Possible(src, y)
    requires Accepted(src, key) && EntryOid(src, scans.bridges)(key) in oids
    ensures LabelsOf(src, JoinOf(src, x, scans))(key) == LabelsOf(src, JoinOf(src, y, scans))(key)
  {
    AgreeingLabel(src, oids, x, y, EntryOid(src, scans.bridges)(key));
    EntryPortLabel(src, x, scans, key);
    EntryPortLabel(src, y, scans, key);
    SameButPort(src, JoinOf(src, x, scans), JoinOf(src, y, scans), key);
  }

  lemma SameLabels(src: Source, x: map<string, string>, y: map<string, string>, scans: Scans, keys: seq<string>)
    requires LabelsAgree(src, Map(EntryOid(src, scans.bridges), keys)) && Possible(src, x) && Possible(src, y)
    requires forall key :: key in keys ==> Accepted(src, key)
    ensures Map(LabelsOf(src, JoinOf(src, x, scans)), keys) == Map(LabelsOf(src, JoinOf(src, y, scans)), keys)
  {
    var oids := Map(EntryOid(src, scans.bridges), keys);
    var f, g := LabelsOf(src, JoinOf(src, x, scans)), LabelsOf(src, JoinOf(src, y, scans));
    forall key | key in keys ensures f(key) == g(key) {
      MapMembers(EntryOid(src, scans.bridges), keys, key);
      SameEntry(src, x, y, scans, oids, key);
    }
    MapSame(f, g, keys);
  }

  /** With agreeing labels, every map order leads to the same counts. */
  lemma SameCounts(src: Source, limits: Limits, x: map<string, string>, y: map<string, string>, scans: Scans)
    requires LabelsAgree(src, CountedOids(src, limits, scans)) && Possible(src, x) && Possible(src, y)
    ensures CountsIn(src, limits, x, scans) == CountsIn(src, limits, y, scans)
  {
    CountedAccepted(src, limits, scans);
    SameLabels(src, x, y, scans, CountedKeys(src, limits, scans));
  }

  /** Two inversions that differ in the name of one OID. */
  lemma TwoInversions(src: Source, oid: string, p: string, q: string)
    returns (x: map<string, string>, y: map<string, string>)
    requires IsCandidate(src, oid, p) && IsCandidate(src, oid, q)
    ensures Possible(src, x) && Possible(src, y) && oid in x && x[oid] == p && y == x[oid := q]
  {
    x := InversionChoosing(oid, p, PortNames(src.store), LagNames(src.store));
    y := x[oid := q];
  }

  lemma Relabelled(x: map<string, string>, oid: string, name: string, oids: seq<string>)
    requires oid != "" && oid in oids && OrUnknown(name) != OidLabel(x)(oid)
    ensures Tally(Map(OidLabel(x), oids)) != Tally(Map(OidLabel(x[oid := name]), oids))
  {
    var f, g := OidLabel(x), OidLabel(x[oid := name]);
    assert forall o :: o != oid ==> f(o) == g(o);
    MapElsewhere(f, g, oid, oids);
    TallyCounts(Map(f, oids));
    TallyCounts(Map(g, oids));
    assert Count(Tally(Map(f, oids)), f(oid)) != Count(Tally(Map(g, oids)), f(oid));
  }

  lemma DisagreeingCounts(src: Source, limits: Limits, scans: Scans)
    returns (x: map<string, string>, y: map<string, string>)
    requires !LabelsAgree(src, CountedOids(src, limits, scans))
    ensures Possible(src, x) && Possible(src, y)
    ensures PortCounts(src, limits, x, scans) != PortCounts(src, limits, y, scans)
  {
    x, y := DisagreeingTallies(src, CountedOids(src, limits, scans));
    PortCountsByOid(src, limits, x, scans);
    PortCountsByOid(src, limits, y, scans);
  }

  lemma DisagreeingTallies(src: Source, oids: seq<string>) returns (x: map<string, string>, y: map<string, string>)
    requires !LabelsAgree(src, oids)
    ensures Possible(src, x) && Possible(src, y)
    ensures Tally(Map(OidLabel(x), oids)) != Tally(Map(OidLabel(y), oids))
  {
    var oid :| oid in oids && oid != "" && !SameLabel(oid, PortNames(src.store), LagNames(src.store));
    var p, q :| IsCandidate(src, oid, p) && IsCandidate(src, oid, q) && OrUnknown(p) != OrUnknown(q);
    x, y := TwoInversions(src, oid, p, q);
    Relabelled(x, oid, q, oids);
  }

  /**
   * Exactly when Go's map order cannot change the counts by port: when for every counted entry with a port OID, the
   * candidate names of that OID give the same label. An ambiguity of a counted entry always shows in the counts.
   */
  lemma FdbPortCountsDetermined(src: Source, limits: Limits, scans: Scans)
    ensures (forall x, y :: Possible(src, x) && Possible(src, y) ==>
               PortCounts(src, limits, x, scans) == PortCounts(src, limits, y, scans))
            <==> LabelsAgree(src, CountedOids(src, limits, scans))
  {
    if LabelsAgree(src, CountedOids(src, limits, scans)) {
      forall x, y | Possible(src, x) && Possible(src, y)
        ensures PortCounts(src, limits, x, scans) == PortCounts(src, limits, y, scans)
      {
        SameCounts(src, limits, x, y, scans);
      }
    } else {
      var x, y := DisagreeingCounts(src, limits, scans);
    }
  }

  // ---------------------------------------------------------------- the table skips

  /** Among the candidate names of an OID, none or all are empty. */
  ghost predicate SameNaming(src: Source, oid: string) {
    forall p, q :: IsCandidate(src, oid, p) && IsCandidate(src, oid, q) ==> (p == "" <==> q == "")
  }

  ghost predicate NamingAgrees(src: Source, bridges: seq<string>) {
    forall key :: key in bridges && Suffix(key, src.bridge).Some? && PortId(src, key) != "" ==>
      SameNaming(src, PortId(src, key))
  }

  lemma AgreeingSkip(src: Source, bridges: seq<string>, x: map<string, string>, y: map<string, string>, key: string)
    requires NamingAgrees(src, bridges) && Possible(src, x) && Possible(src, y) && key in bridges
    ensures SkippedBridge(src, x)(key) <==> SkippedBridge(src, y)(key)
  {
    var oid := PortId(src, key);
    assert oid in x <==> oid in y;
    assert oid in x ==> IsCandidate(src, oid, x[oid]) && IsCandidate(src, oid, y[oid]);
  }

  lemma AgreeingSkips(src: Source, scans: Scans, x: map<string, string>, y: map<string, string>)
    requires NamingAgrees(src, scans.bridges) && Possible(src, x) && Possible(src, y)
    ensures TableSkips(src, x, scans) == TableSkips(src, y, scans)
  {
    forall key | key in scans.bridges ensures SkippedBridge(src, x)(key) <==> SkippedBridge(src, y)(key) {
      AgreeingSkip(src, scans.bridges, x, y, key);
    }
    FilterMore(SkippedBridge(src, x), SkippedBridge(src, y), scans.bridges);
    FilterMore(SkippedBridge(src, y), SkippedBridge(src, x), scans.bridges);
  }

  lemma FewerSkips(src: Source, bridges: seq<string>, x: map<string, string>, key: string, name: string)
    requires key in bridges && Suffix(key, src.bridge).Some? && PortId(src, key) != ""
    requires Get(x, PortId(src, key)) == "" && name != ""
    ensures |Filter(SkippedBridge(src, x), bridges)|
          > |Filter(SkippedBridge(src, x[PortId(src, key) := name]), bridges)|
  {
    var y := x[PortId(src, key) := name];
    forall k | SkippedBridge(src, y)(k) ensures SkippedBridge(src, x)(k) {
    }
    assert SkippedBridge(src, x)(key) && !SkippedBridge(src, y)(key);
    FilterMore(SkippedBridge(src, x), SkippedBridge(src, y), bridges);
  }

  lemma DisagreeingSkips(src: Source, scans: Scans) returns (x: map<string, string>, y: map<string, string>)
    requires !NamingAgrees(src, scans.bridges)
    ensures Possible(src, x) && Possible(src, y) && TableSkips(src, x, scans) > TableSkips(src, y, scans)
  {
    var key :| key in scans.bridges && Suffix(key, src.bridge).Some? && PortId(src, key) != ""
      && !SameNaming(src, PortId(src, key));
    var q :| IsCandidate(src, PortId(src, key), "") && IsCandidate(src, PortId(src, key), q) && q != "";
    x, y := TwoInversions(src, PortId(src, key), "", q);
    FewerSkips(src, scans.bridges, x, key, q);
  }

  // ---------------------------------------------------------------- the report

  /** When all ambiguities are harmless, neither scan order nor map order reaches the report. */
  lemma FdbDeterministic(src: Source, limits: Limits, x: map<string, string>, y: map<string, string>, a: Scans,
                         b: Scans)
    requires LabelsAgree(src, CountedOids(src, limits, a)) && NamingAgrees(src, a.bridges)
    requires Possible(src, x) && Possible(src, y) && SameKeys(a, b)
    ensures ReportOf(src, limits, x, a) == ReportOf(src, limits, y, b)
  {
    SameCounts(src, limits, x, y, a);
    AgreeingSkips(src, a, x, y);
    FdbScanOrderIrrelevant(src, limits, y, a, b);
  }

  /** The total and the counts by VLAN never depend on the inversion. */
  lemma SameVlans(src: Source, limits: Limits, x: map<string, string>, y: map<string, string>, scans: Scans)
    ensures CountsIn(src, limits, x, scans).total == CountsIn(src, limits, y, scans).total
    ensures CountsIn(src, limits, x, scans).byVlan == CountsIn(src, limits, y, scans).byVlan
  {
    var keys := CountedKeys(src, limits, scans);
    MapTwice(VlanOf, LabelsOf(src, JoinOf(src, x, scans)), VlanOf, LabelsOf(src, JoinOf(src, y, scans)), keys);
  }

  lemma SeriesReveal(family: string, a: Histogram, b: Histogram, m: seq<string>, n: seq<string>)
    requires Map(CountSeries(family, a), m) == Map(CountSeries(family, b), n)
    ensures m == n && forall name :: name in m ==> Count(a, name) == Count(b, name)
  {
    var s, t := Map(CountSeries(family, a), m), Map(CountSeries(family, b), n);
    assert |m| == |s| == |t| == |n|;
    forall i | 0 <= i < |m| ensures m[i] == n[i] && Count(a, m[i]) == Count(b, n[i]) {
      assert s[i] == CountSeries(family, a)(m[i]) && t[i] == CountSeries(family, b)(n[i]);
      assert s[i].labels[0] == m[i] && t[i].labels[0] == n[i];
    }
  }

  /** A histogram that is shown whole can be read back from its series. */
  lemma ShownWhole(family: string, a: Histogram, b: Histogram, cap: nat)
    requires |a| <= cap && |b| <= cap
    requires Map(CountSeries(family, a), Shown(a, cap)) == Map(CountSeries(family, b), Shown(b, cap))
    ensures a == b
  {
    ShownAll(a, cap);
    ShownAll(b, cap);
    SeriesReveal(family, a, b, Shown(a, cap), Shown(b, cap));
    SameHistogram(a, b, Shown(a, cap));
  }

  lemma ShownAll(h: Histogram, cap: nat)
    requires |h| <= cap
    ensures forall name :: name in Shown(h, cap) <==> name in h
  {
    SortedSetProperties(h.Keys);
    assert Shown(h, cap) == SortedSet(h.Keys);
  }

  lemma SameHistogram(a: Histogram, b: Histogram, names: seq<string>)
    requires forall name :: name in names <==> name in a
    requires forall name :: name in names <==> name in b
    requires forall name :: name in names ==> Count(a, name) == Count(b, name)
    ensures a == b
  {
  }

  /** Under no map order does the port cap cut a label off. */
  ghost predicate PortsFit(src: Source, limits: Limits, scans: Scans) {
    forall x :: Possible(src, x) ==> |PortCounts(src, limits, x, scans)| <= limits.maxPorts
  }

  lemma SeriesRevealPorts(c: Counts, e: Counts, limits: Limits)
    requires |c.byPort| <= limits.maxPorts && |e.byPort| <= limits.maxPorts
    requires SeriesOf(c, limits) == SeriesOf(e, limits)
    ensures c.byPort == e.byPort
  {
    FdbFamily(c, limits);
    FdbFamily(e, limits);
    ShownWhole("sonic_fdb_entries_by_port", c.byPort, e.byPort, limits.maxPorts);
  }

  /** With all ports shown, different counts by port or different table skips make different reports. */
  lemma ReportsDiffer(c: Counts, e: Counts, limits: Limits, m: nat, n: nat, scanned: nat)
    requires |c.byPort| <= limits.maxPorts && |e.byPort| <= limits.maxPorts
    requires c.total == e.total && c.byVlan == e.byVlan && (c.byPort != e.byPort || m != n)
    ensures EntriesReport(c, limits, m, scanned) != EntriesReport(e, limits, n, scanned)
  {
    if SeriesOf(c, limits) == SeriesOf(e, limits) {
      SeriesRevealPorts(c, e, limits);
    }
  }

  ghost predicate PartsDiffer(src: Source, limits: Limits, scans: Scans, x: map<string, string>,
                              y: map<string, string>) {
    || PortCounts(src, limits, x, scans) != PortCounts(src, limits, y, scans)
    || TableSkips(src, x, scans) != TableSkips(src, y, scans)
  }

  lemma DisagreeingParts(src: Source, limits: Limits, scans: Scans)
    returns (x: map<string, string>, y: map<string, string>)
    requires !Harmless(src, limits, scans)
    ensures Possible(src, x) && Possible(src, y)
    ensures PartsDiffer(src, limits, scans, x, y)
  {
    if !LabelsAgree(src, CountedOids(src, limits, scans)) {
      x, y := DisagreeingCounts(src, limits, scans);
    } else {
      x, y := DisagreeingSkips(src, scans);
    }
  }

  lemma DisagreeingReport(src: Source, limits: Limits, x: map<string, string>, y: map<string, string>, scans: Scans)
    requires PortsFit(src, limits, scans) && Possible(src, x) && Possible(src, y)
    requires PartsDiffer(src, limits, scans, x, y)
    ensures !SameReport(src, limits, scans, x, y)
  {
    assert |PortCounts(src, limits, x, scans)| <= limits.maxPorts;
    assert |PortCounts(src, limits, y, scans)| <= limits.maxPorts;
    SameVlans(src, limits, x, y, scans);
    ReportsDiffer(CountsIn(src, limits, x, scans), CountsIn(src, limits, y, scans), limits,
                  TableSkips(src, x, scans), TableSkips(src, y, scans), |scans.entries|);
  }

  ghost predicate SameReport(src: Source, limits: Limits, scans: Scans, x: map<string, string>,
                             y: map<string, string>) {
    ReportOf(src, limits, x, scans) == ReportOf(src, limits, y, scans)
  }

  /** Every map order leads to the same report. */
  ghost predicate ReportFixed(src: Source, limits: Limits, scans: Scans) {
    forall x, y ::
      Possible(src, x) && Possible(src, y) ==> SameReport(src, limits, scans, x, y)
  }

  /** No choice between the names of an OID can matter: to the label of a counted entry, or to the table skips. */
  ghost predicate Harmless(src: Source, limits: Limits, scans: Scans) {
    LabelsAgree(src, CountedOids(src, limits, scans)) && NamingAgrees(src, scans.bridges)
  }

  lemma HarmlessFixed(src: Source, limits: Limits, scans: Scans)
    requires Harmless(src, limits, scans)
    ensures ReportFixed(src, limits, scans)
  {
    forall x, y | Possible(src, x) && Possible(src, y) ensures SameReport(src, limits, scans, x, y) {
      FdbDeterministic(src, limits, x, y, scans, scans);
    }
  }

  lemma ReportVaries(src: Source, limits: Limits, scans: Scans, x: map<string, string>, y: map<string, string>)
    requires Possible(src, x) && Possible(src, y) && !SameReport(src, limits, scans, x, y)
    ensures !ReportFixed(src, limits, scans)
  {
  }

  lemma HarmfulVaries(src: Source, limits: Limits, scans: Scans)
    requires PortsFit(src, limits, scans) && !Harmless(src, limits, scans)
    ensures !ReportFixed(src, limits, scans)
  {
    var x, y := DisagreeingParts(src, limits, scans);
    DisagreeingReport(src, limits, x, y, scans);
    ReportVaries(src, limits, scans, x, y);
  }

  /**
   * As long as the port cap cuts no label off, exactly when Go's map order cannot change the report: when all candidate
   * names agree in label for the OIDs of counted entries, and in being empty for the OIDs of bridge ports.
   */
  lemma FdbReportDetermined(src: Source, limits: Limits, scans: Scans)
    requires PortsFit(src, limits, scans)
    ensures ReportFixed(src, limits, scans) <==> Harmless(src, limits, scans)
  {
    if Harmless(src, limits, scans) {
      HarmlessFixed(src, limits, scans);
    } else {
      HarmfulVaries(src, limits, scans);
    }
  }
}
