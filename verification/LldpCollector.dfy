/** The LLDP collector: neighbours capped by accepted count, with the management port optionally left out. */
module LldpCollector {
  import opened Results
  import opened Sequences
  import opened Strings
  import opened Sorting
  import opened Redis
  import opened Metrics
  import opened AcceptedCap

  const LLDP_PREFIX := "LLDP_ENTRY_TABLE:"

  function Interface(key: string): string {
    TrimPrefix(key, LLDP_PREFIX)
  }

  function LldpWellFormed(key: string): bool {
    Suffix(key, LLDP_PREFIX).Some?
  }

  function LldpIgnored(includeMgmt: bool): string -> bool {
    (key: string) => !includeMgmt && Suffix(key, LLDP_PREFIX) == Some("eth0")
  }

  function PortDisplay(portId: string, portDesc: string, subtype: string): string {
    var kind := ToLower(TrimSpace(subtype));
    if portDesc != "" && kind in {"7", "local", "3", "mac"} then portDesc
    else if portId != "" then portId
    else portDesc
  }

  function LocalRole(interface: string): string {
    if interface == "eth0" then "management" else if "Ethernet" <= interface then "frontpanel" else "other"
  }

  function LldpJudge(key: string, fields: Fields): Verdict {
    var system := Get(fields, "lldp_rem_sys_name");
    var portId := Get(fields, "lldp_rem_port_id");
    var portDesc := Get(fields, "lldp_rem_port_desc");
    var subtype := Get(fields, "lldp_rem_port_id_subtype");
    var chassis := Get(fields, "lldp_rem_chassis_id");
    var address := Get(fields, "lldp_rem_man_addr");
    if fields == map[] then Rejected
    else if system == "" && portId == "" && portDesc == "" && chassis == "" && address == "" then Rejected
    else
      Accepted([Series("sonic_lldp_neighbor_info",
                       [Interface(key), LocalRole(Interface(key)), system, portId, portDesc, subtype,
                        PortDisplay(portId, portDesc, subtype), chassis, address],
                       1.0)], 0)
  }

  function LldpRules(includeMgmt: bool): Rules {
    Rules(APPL_DB, LldpIgnored(includeMgmt), true, LldpWellFormed, LldpJudge)
  }

  function ChassisSeries(fields: Fields): seq<Series> {
    if fields == map[] then []
    else [Series("sonic_lldp_local_chassis_info",
                 [Get(fields, "lldp_loc_sys_name"), Get(fields, "lldp_loc_chassis_id")], 1.0)]
  }

  /** What one refresh scans and reads. */
  datatype Source = Source(pattern: string, chassisKey: string, heading: Fields -> seq<Series>, rules: Rules)

  function LldpSource(includeMgmt: bool): Source {
    Source("LLDP_ENTRY_TABLE:*", "LLDP_LOC_CHASSIS", ChassisSeries, LldpRules(includeMgmt))
  }

  function NeighborKeys(src: Source, store: Store): seq<string> {
    Sort(Self, store.Keys(APPL_DB, src.pattern))
  }

  function LldpReport(src: Source, max: nat, store: Store, keys: seq<string>): Report {
    Report(src.heading(store.Hash(APPL_DB, src.chassisKey)), 0, 0, false).Then(ReportOf(src.rules, store, keys, max))
  }

  predicate LldpComplete(src: Source, max: nat, store: Store) {
    && store.Readable(Scan(APPL_DB, src.pattern))
    && store.Readable(HGetAll(APPL_DB, src.chassisKey))
    && Complete(src.rules, store, NeighborKeys(src, store), max)
  }

  /** One refresh; the truncation flag of the shared report is not exported by this collector. */
  method ScrapeLldp(includeMgmt: bool, maxNeighbors: nat, filter: MetricFilter, store: Store)
    returns (outcome: Result<Report, Request>)
    ensures var src := LldpSource(includeMgmt);
            store.Answers(LldpComplete(src, maxNeighbors, store),
                          LldpReport(src, maxNeighbors, store, NeighborKeys(src, store)).Filtered(filter), outcome)
  {
    outcome := ScrapeSource(LldpSource(includeMgmt), maxNeighbors, filter, store);
  }

  method ScrapeSource(src: Source, maxNeighbors: nat, filter: MetricFilter, store: Store)
    returns (outcome: Result<Report, Request>)
    ensures store.Answers(LldpComplete(src, maxNeighbors, store),
                          LldpReport(src, maxNeighbors, store, NeighborKeys(src, store)).Filtered(filter), outcome)
  {
    var scanned := store.ScanKeys(APPL_DB, src.pattern);
    if scanned.Failure? {
      return Failure(scanned.error);
    }
    var keys := Sort(Self, scanned.value);
    var chassis := store.ReadHash(APPL_DB, src.chassisKey);
    if chassis.Failure? {
      return Failure(chassis.error);
    }
    var neighbors := ScrapeCapped(src.rules, maxNeighbors, filter, store, keys);
    if neighbors.Failure? {
      return Failure(neighbors.error);
    }
    var heading := Report(src.heading(chassis.value), 0, 0, false);
    heading.ThenFiltered(ReportOf(src.rules, store, keys, maxNeighbors), filter);
    outcome := Success(heading.Filtered(filter).Then(neighbors.value));
  }

  /** The order in which the scan returns the keys does not reach the report. */
  lemma LldpScanOrderIrrelevant(src: Source, max: nat, store: Store, a: seq<string>, b: seq<string>)
    requires multiset(a) == multiset(b)
    ensures LldpReport(src, max, store, Sort(Self, a)) == LldpReport(src, max, store, Sort(Self, b))
  {
    SortStringsPermutation(a, b);
  }

  /**
   * The excluded management port costs a skip exactly when the cap is already full where it sorts; then it is counted
   * among the skipped entries although it is left out on purpose.
   */
  lemma ManagementExclusion(max: nat, store: Store, keys: seq<string>)
    ensures var rules := LldpRules(false);
            var excluded := |Filter(Ignores(rules), keys)|;
            (ReportOf(rules, store, keys, max).accepted + ReportOf(rules, store, keys, max).skipped + excluded == |keys|
             <==> forall i :: 0 <= i < |keys| && rules.ignored(keys[i]) ==> !Full(rules, store, keys[..i], max))
  {
    var rules := LldpRules(false);
    LateIgnoredCounted(rules, store, keys, max);
    EntriesAccountedFor(rules, store, keys, max);
    NothingMissing(rules, store, Chosen(rules, store, keys, max));
  }

  /** With room for one neighbour, Ethernet0 fills the cap and the excluded eth0 after it is counted as skipped. */
  lemma ManagementCountedAfterFullCap(store: Store)
    requires store.Hash(APPL_DB, LLDP_PREFIX + "Ethernet0") == map["lldp_rem_sys_name" := "leaf"]
    ensures var keys := [LLDP_PREFIX + "Ethernet0", LLDP_PREFIX + "eth0"];
            && Le(keys[0], keys[1])
            && ReportOf(LldpRules(false), store, keys, 1).skipped == 1
            && ReportOf(LldpRules(false), store, keys, 2).skipped == 0
  {
    var rules := LldpRules(false);
    var a, b := LLDP_PREFIX + "Ethernet0", LLDP_PREFIX + "eth0";
    assert Suffix(a, LLDP_PREFIX) == Some("Ethernet0") && Suffix(b, LLDP_PREFIX) == Some("eth0");
    assert "Ethernet0"[0] == 'E' && "eth0"[0] == 'e';
    var fields := store.Hash(APPL_DB, a);
    assert "lldp_rem_sys_name" in fields && Get(fields, "lldp_rem_sys_name") == "leaf";
    EthernetThenMgmt(rules, store, a, b);
    LePrefix(LLDP_PREFIX, "Ethernet0", "eth0");
  }

  lemma EthernetThenMgmt(rules: Rules, store: Store, a: string, b: string)
    requires rules.capFirst && NeverMissing(rules)
    requires Valid(rules, store, a) && rules.ignored(b) && rules.wellFormed(b)
    ensures ReportOf(rules, store, [a, b], 1).skipped == 1
    ensures ReportOf(rules, store, [a, b], 2).skipped == 0
  {
    TwoKeys(rules, store, a, b, 1);
    TwoKeys(rules, store, a, b, 2);
  }

  lemma FatesOfTwo(rules: Rules, store: Store, a: string, b: string, max: nat)
    requires rules.capFirst && max > 0
    requires Valid(rules, store, a) && rules.ignored(b) && rules.wellFormed(b)
    ensures FateOf(rules, store, [], a, max) == Taken
    ensures FateOf(rules, store, [a], b, max) == if max == 1 then BeyondCap else PassedOver
  {
    assert [a][..0] == [] && Eligible(rules, store, [a]) == [a];
  }

  lemma TwoKeys(rules: Rules, store: Store, a: string, b: string, max: nat)
    requires rules.capFirst && NeverMissing(rules) && max > 0
    requires Valid(rules, store, a) && rules.ignored(b) && rules.wellFormed(b)
    ensures ReportOf(rules, store, [a, b], max).skipped == if max == 1 then 1 else 0
  {
    var keys := [a, b];
    FatesOfTwo(rules, store, a, b, max);
    FatedTwo(rules, store, a, b, max, BeyondCap);
    FatedTwo(rules, store, a, b, max, Malformed);
    FatedTwo(rules, store, a, b, max, Refused);
    NothingMissing(rules, store, Chosen(rules, store, keys, max));
    SkipLedger(rules, store, keys, max);
  }

  lemma FatedTwo(rules: Rules, store: Store, a: string, b: string, max: nat, fate: Fate)
    ensures Fated(rules, store, [a, b], max, fate)
         == (if FateOf(rules, store, [], a, max) == fate then 1 else 0)
            + (if FateOf(rules, store, [a], b, max) == fate then 1 else 0)
  {
    assert [a, b][..1] == [a] && [a][..0] == [];
    assert Fated(rules, store, [a], max, fate) == if FateOf(rules, store, [], a, max) == fate then 1 else 0;
  }
}
