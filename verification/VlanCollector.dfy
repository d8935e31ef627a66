/** The VLAN collector: VLAN names from CONFIG_DB and APPL_DB, members from CONFIG_DB. */
module VlanCollector {
  import opened Results
  import opened Sequences
  import opened Strings
  import opened Sorting
  import opened Redis
  import opened Metrics
  import opened GroupBudget
  import opened GroupBudgetTheorems
  import opened LagCollector

  function VlanHeading(name: string, config: Fields, appl: Fields): seq<Series> {
    var vlanId := FirstNonEmpty([Get(config, "vlanid"), TrimPrefix(name, "Vlan")]);
    var admin := FirstNonEmpty([Get(appl, "admin_status"), Get(config, "admin_status")]);
    var oper := Get(appl, "oper_status");
    [Series("sonic_vlan_info", [name, vlanId], 1.0)]
    + (if admin != "" then [Series("sonic_vlan_admin_status", [name], StatusToGauge(admin))] else [])
    + (if oper != "" then [Series("sonic_vlan_oper_status", [name], StatusToGauge(oper))] else [])
  }

  function TaggingMode(fields: Fields): string {
    FirstNonEmpty([Get(fields, "tagging_mode"), "unknown"])
  }

  function VlanMemberSeries(m: Member): Series {
    Series("sonic_vlan_member_info", [m.group, m.name, m.detail], 1.0)
  }

  const VLAN_TABLES := Tables("VLAN|", "VLAN_TABLE:", CONFIG_DB, "VLAN_MEMBER|", '|',
                              TaggingMode, VlanHeading, VlanMemberSeries, "sonic_vlan_members")

  method ScrapeVlans(maxVlans: nat, maxMembers: nat, filter: MetricFilter, store: Store)
    returns (outcome: Result<Report, Request>)
    ensures var limits := Limits(maxVlans, maxMembers);
            var scans := ScansOf(VLAN_TABLES, store);
            store.Answers(Complete(VLAN_TABLES, store, limits),
                          ReportOf(VLAN_TABLES, store, limits, scans).Filtered(filter), outcome)
  {
    outcome := Scrape(VLAN_TABLES, Limits(maxVlans, maxMembers), filter, store);
  }

  lemma VlanFamiliesApart()
    ensures FamiliesApart(VLAN_TABLES, "sonic_vlan_member_info")
  {
  }

  /** The exported VLAN members and the VLAN member gauges of every refresh, each gauge with its value. */
  lemma VlanMembersExported(store: Store, limits: Limits)
    ensures var scans := ScansOf(VLAN_TABLES, store);
            var series := ReportOf(VLAN_TABLES, store, limits, scans).series;
            var members := Flatten(KeptGroups(VLAN_TABLES, store, limits, scans));
            && OfFamily("sonic_vlan_member_info", series) == Map(VlanMemberSeries, Take(members, limits.maxMembers))
            && OfFamily("sonic_vlan_members", series) == AllGauges(VLAN_TABLES, store, limits, scans)
            && SumValues(OfFamily("sonic_vlan_members", series)) == Min(limits.maxMembers, |members|) as real
  {
    VlanFamiliesApart();
    MembersExported(VLAN_TABLES, store, limits, ScansOf(VLAN_TABLES, store), "sonic_vlan_member_info");
  }

  lemma NoNames(t: Tables, scans: Scans)
    requires scans.config == [] && scans.appl == []
    ensures Names(t, scans) == []
  {
    assert NameSet(t.configPrefix, []) + NameSet(t.applPrefix, []) == {};
  }

  lemma NoneMalformed(t: Tables, key: string)
    requires ParseMember(t, key).Some?
    ensures MalformedCount(t, Scans([], [], [key])) == 0
  {
    assert [key][..0] == [];
  }

  lemma NothingReported(t: Tables, store: Store, limits: Limits, scans: Scans)
    requires Names(t, scans) == [] && MalformedCount(t, scans) == 0
    ensures ReportOf(t, store, limits, scans) == Report([], 0)
  {
  }

  lemma OrphanMember(t: Tables, store: Store, limits: Limits, key: string)
    requires ParseMember(t, key).Some?
    ensures ReportOf(t, store, limits, Scans([], [], [key])) == Report([], 0)
  {
    NoNames(t, Scans([], [], [key]));
    NoneMalformed(t, key);
    NothingReported(t, store, limits, Scans([], [], [key]));
  }

  lemma OrphanKey()
    ensures ParseMember(VLAN_TABLES, "VLAN_MEMBER|Vlan10|Ethernet0").Some?
  {
    assert Suffix("VLAN_MEMBER|Vlan10|Ethernet0", VLAN_TABLES.memberPrefix).value == "Vlan10" + ['|'] + "Ethernet0";
    CutUnique("Vlan10", '|', "Ethernet0");
  }

  /** A member of a VLAN that neither table knows disappears without a trace: nothing emitted, nothing skipped. */
  lemma OrphanMemberUncounted(store: Store, limits: Limits)
    ensures ReportOf(VLAN_TABLES, store, limits, Scans([], [], ["VLAN_MEMBER|Vlan10|Ethernet0"])) == Report([], 0)
  {
    OrphanKey();
    OrphanMember(VLAN_TABLES, store, limits, "VLAN_MEMBER|Vlan10|Ethernet0");
  }
}
