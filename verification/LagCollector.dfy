/** The LAG collector: LAG names from CONFIG_DB and APPL_DB, members from APPL_DB. */
module LagCollector {
  import opened Results
  import opened Sequences
  import opened Strings
  import opened Redis
  import opened Metrics
  import opened GroupBudget
  import opened GroupBudgetTheorems

  /** The first value that is more than white space, as it is. */
  function FirstNonEmpty(values: seq<string>): string {
    if values == [] then ""
    else if TrimSpace(values[0]) != "" then values[0]
    else FirstNonEmpty(values[1..])
  }

  function StatusToGauge(status: string): real {
    if ToLower(TrimSpace(status)) in {"up", "enabled", "selected", "active", "true", "ok"} then 1.0 else 0.0
  }

  function LagHeading(name: string, config: Fields, appl: Fields): seq<Series> {
    var admin := FirstNonEmpty([Get(appl, "admin_status"), Get(config, "admin_status")]);
    var oper := Get(appl, "oper_status");
    [Series("sonic_lag_info", [name], 1.0)]
    + (if admin != "" then [Series("sonic_lag_admin_status", [name], StatusToGauge(admin))] else [])
    + (if oper != "" then [Series("sonic_lag_oper_status", [name], StatusToGauge(oper))] else [])
  }

  function MemberStatus(fields: Fields): string {
    Get(fields, "status")
  }

  function LagMemberSeries(m: Member): Series {
    Series("sonic_lag_member_status", [m.group, m.name], StatusToGauge(m.detail))
  }

  const LAG_TABLES := Tables("PORTCHANNEL|", "LAG_TABLE:", APPL_DB, "LAG_MEMBER_TABLE:", ':',
                             MemberStatus, LagHeading, LagMemberSeries, "sonic_lag_members")

  method ScrapeLags(maxLags: nat, maxMembers: nat, filter: MetricFilter, store: Store)
    returns (outcome: Result<Report, Request>)
    ensures var limits := Limits(maxLags, maxMembers);
            var scans := ScansOf(LAG_TABLES, store);
            store.Answers(Complete(LAG_TABLES, store, limits),
                          ReportOf(LAG_TABLES, store, limits, scans).Filtered(filter), outcome)
  {
    outcome := Scrape(LAG_TABLES, Limits(maxLags, maxMembers), filter, store);
  }

  lemma LagFamiliesApart()
    ensures FamiliesApart(LAG_TABLES, "sonic_lag_member_status")
  {
  }

  /** The exported LAG members and the LAG member gauges of every refresh, each gauge with its value. */
  lemma LagMembersExported(store: Store, limits: Limits)
    ensures var scans := ScansOf(LAG_TABLES, store);
            var series := ReportOf(LAG_TABLES, store, limits, scans).series;
            var members := Flatten(KeptGroups(LAG_TABLES, store, limits, scans));
            && OfFamily("sonic_lag_member_status", series) == Map(LagMemberSeries, Take(members, limits.maxMembers))
            && OfFamily("sonic_lag_members", series) == AllGauges(LAG_TABLES, store, limits, scans)
            && SumValues(OfFamily("sonic_lag_members", series)) == Min(limits.maxMembers, |members|) as real
  {
    LagFamiliesApart();
    MembersExported(LAG_TABLES, store, limits, ScansOf(LAG_TABLES, store), "sonic_lag_member_status");
  }
}
