/** What the series of VLANs and LAGs say about the tables: status values, VLAN ids, tagging modes. */
module GroupStatus {
  import opened Results
  import opened Sequences
  import opened Strings
  import opened Sorting
  import opened Redis
  import opened Metrics
  import opened GroupBudget
  import opened GroupBudgetTheorems
  import Lag = LagCollector
  import Vlan = VlanCollector

  // ---------------------------------------------------------------- what is promised

  predicate HasText(s: string) {
    TrimSpace(s) != ""
  }

  /** The six words for up, with any surrounding white space and in any letter case. */
  predicate IsUp(text: string) {
    ToLower(TrimSpace(text)) in {"up", "enabled", "selected", "active", "true", "ok"}
  }

  function UpOrDown(text: string): real {
    if IsUp(text) then 1.0 else 0.0
  }

  /** One status series for a text, and none without one. */
  function StatusFor(family: string, name: string, text: string): seq<Series> {
    if text == "" then [] else [Series(family, [name], UpOrDown(text))]
  }

  /** The administrative status in APPL_DB, and in CONFIG_DB if APPL_DB has no text. */
  function AdminText(appl: Fields, config: Fields): string {
    if HasText(Get(appl, "admin_status")) then Get(appl, "admin_status")
    else if HasText(Get(config, "admin_status")) then Get(config, "admin_status")
    else ""
  }

  function LagConfig(store: Store, name: string): Fields { store.Hash(CONFIG_DB, "PORTCHANNEL|" + name) }
  function LagAppl(store: Store, name: string): Fields { store.Hash(APPL_DB, "LAG_TABLE:" + name) }
  function VlanConfig(store: Store, name: string): Fields { store.Hash(CONFIG_DB, "VLAN|" + name) }
  function VlanAppl(store: Store, name: string): Fields { store.Hash(APPL_DB, "VLAN_TABLE:" + name) }

  function LagInfo(name: string): Series {
    Series("sonic_lag_info", [name], 1.0)
  }

  function LagAdmin(store: Store): string -> seq<Series> {
    (name: string) =>
      StatusFor("sonic_lag_admin_status", name, AdminText(LagAppl(store, name), LagConfig(store, name)))
  }

  function LagOper(store: Store): string -> seq<Series> {
    (name: string) => StatusFor("sonic_lag_oper_status", name, Get(LagAppl(store, name), "oper_status"))
  }

  /** The configured VLAN id, or else what follows "Vlan" in the name, if either has text. */
  function VlanId(config: Fields, name: string): string {
    var own := if "Vlan" <= name then name[4..] else name;
    if HasText(Get(config, "vlanid")) then Get(config, "vlanid") else if HasText(own) then own else ""
  }

  function VlanInfo(store: Store): string -> Series {
    (name: string) => Series("sonic_vlan_info", [name, VlanId(VlanConfig(store, name), name)], 1.0)
  }

  function VlanAdmin(store: Store): string -> seq<Series> {
    (name: string) =>
      StatusFor("sonic_vlan_admin_status", name, AdminText(VlanAppl(store, name), VlanConfig(store, name)))
  }

  function VlanOper(store: Store): string -> seq<Series> {
    (name: string) => StatusFor("sonic_vlan_oper_status", name, Get(VlanAppl(store, name), "oper_status"))
  }

  // ---------------------------------------------------------------- headings in a report

  /** The part of one family in the heading of a group. */
  function HeadingPart(t: Tables, store: Store, family: string): string -> seq<Series> {
    (name: string) => OfFamily(family, t.heading(name, store.Hash(CONFIG_DB, t.configPrefix + name),
                                                 store.Hash(APPL_DB, t.applPrefix + name)))
  }

  lemma SectionPart(t: Tables, store: Store, name: string, exported: seq<Member>, memberFamily: string, family: string)
    requires FamiliesApart(t, memberFamily) && family != memberFamily && family != t.countFamily
    ensures OfFamily(family, Section(t, store, name, exported)) == HeadingPart(t, store, family)(name)
  {
    var heading := t.heading(name, store.Hash(CONFIG_DB, t.configPrefix + name),
                             store.Hash(APPL_DB, t.applPrefix + name));
    var infos, gauge := Map(t.memberSeries, exported), [Series(t.countFamily, [name], |exported| as real)];
    FilterAll(InFamily(family), infos);
    FilterAll(InFamily(family), gauge);
    FilterAppend(InFamily(family), heading, infos);
    FilterAppend(InFamily(family), heading + infos, gauge);
  }

  lemma {:induction false} SectionsPart(t: Tables, store: Store, budget: nat, names: seq<string>,
                                        groups: seq<seq<Member>>, n: nat, memberFamily: string, family: string)
    requires n <= |names| && n <= |groups|
    requires FamiliesApart(t, memberFamily) && family != memberFamily && family != t.countFamily
    ensures OfFamily(family, Sections(t, store, budget, names, groups, n))
         == FlatMap(HeadingPart(t, store, family), names[..n])
  {
    if n > 0 {
      var exported := groups[n - 1][..Allotted(groups, budget, n - 1)];
      SectionsPart(t, store, budget, names, groups, n - 1, memberFamily, family);
      SectionPart(t, store, names[n - 1], exported, memberFamily, family);
      FilterAppend(InFamily(family), Sections(t, store, budget, names, groups, n - 1),
                   Section(t, store, names[n - 1], exported));
      TakeSnoc(names, n - 1);
    }
  }

  /** A heading family of a report is that of the exported names, one after the other. */
  lemma ReportPart(t: Tables, store: Store, limits: Limits, scans: Scans, memberFamily: string, family: string)
    requires FamiliesApart(t, memberFamily) && family != memberFamily && family != t.countFamily
    ensures OfFamily(family, ReportOf(t, store, limits, scans).series)
         == FlatMap(HeadingPart(t, store, family), KeptNames(t, limits, scans))
  {
    var names, groups := KeptNames(t, limits, scans), KeptGroups(t, store, limits, scans);
    SectionsPart(t, store, limits.maxMembers, names, groups, |names|, memberFamily, family);
    assert names[..|names|] == names;
  }

  lemma PartOf(family: string, info: Series, admin: seq<Series>, oper: seq<Series>)
    ensures OfFamily(family, [info] + admin + oper)
         == (if info.family == family then [info] else []) + OfFamily(family, admin) + OfFamily(family, oper)
  {
    FilterAll(InFamily(family), [info]);
    FilterAppend(InFamily(family), [info], admin);
    FilterAppend(InFamily(family), [info] + admin, oper);
  }

  lemma OneFamily(family: string, series: seq<Series>, b: string, c: string)
    requires (forall s :: s in series ==> s.family == family) && family != b && family != c
    ensures OfFamily(family, series) == series && OfFamily(b, series) == [] && OfFamily(c, series) == []
  {
    FilterAll(InFamily(family), series);
    FilterAll(InFamily(b), series);
    FilterAll(InFamily(c), series);
  }

  lemma Alone<T>(s: seq<T>)
    ensures [] + s + [] == s && [] + [] + s == s && s + [] + [] == s
  {
  }

  /** Of an information series and two optional ones, in three families. */
  lemma ThreeParts(info: Series, admin: seq<Series>, oper: seq<Series>, a: string, o: string)
    requires info.family != a && info.family != o && a != o
    requires forall s :: s in admin ==> s.family == a
    requires forall s :: s in oper ==> s.family == o
    ensures OfFamily(info.family, [info] + admin + oper) == [info]
    ensures OfFamily(a, [info] + admin + oper) == admin
    ensures OfFamily(o, [info] + admin + oper) == oper
  {
    PartOf(info.family, info, admin, oper);
    PartOf(a, info, admin, oper);
    PartOf(o, info, admin, oper);
    OneFamily(a, admin, info.family, o);
    OneFamily(o, oper, info.family, a);
    Alone([info]);
    Alone(admin);
    Alone(oper);
  }

  /** The families of a heading differ from each other and from those of members and member gauges. */
  ghost predicate HeadingFamilies(i: string, a: string, o: string, m: string, c: string) {
    && i != a && i != o && a != o
    && i != m && a != m && o != m && i != c && a != c && o != c
  }

  /** The three parts of the heading of a name. */
  ghost predicate Parts(heading: seq<Series>, info: Series, admin: seq<Series>, oper: seq<Series>, i: string,
                        a: string, o: string) {
    && heading == [info] + admin + oper && info.family == i
    && (forall s :: s in admin ==> s.family == a)
    && (forall s :: s in oper ==> s.family == o)
  }

  function Heading(t: Tables, store: Store, name: string): seq<Series> {
    t.heading(name, store.Hash(CONFIG_DB, t.configPrefix + name), store.Hash(APPL_DB, t.applPrefix + name))
  }

  function Single(info: string -> Series): string -> seq<Series> {
    (name: string) => [info(name)]
  }

  lemma ReportParts(t: Tables, store: Store, limits: Limits, scans: Scans, m: string, i: string, a: string, o: string)
    requires FamiliesApart(t, m) && HeadingFamilies(i, a, o, m, t.countFamily)
    ensures var series, names := ReportOf(t, store, limits, scans).series, KeptNames(t, limits, scans);
            && OfFamily(i, series) == FlatMap(HeadingPart(t, store, i), names)
            && OfFamily(a, series) == FlatMap(HeadingPart(t, store, a), names)
            && OfFamily(o, series) == FlatMap(HeadingPart(t, store, o), names)
  {
    ReportPart(t, store, limits, scans, m, i);
    ReportPart(t, store, limits, scans, m, a);
    ReportPart(t, store, limits, scans, m, o);
  }

  lemma PartsFound(t: Tables, store: Store, name: string, info: Series, admin: seq<Series>, oper: seq<Series>,
                   i: string, a: string, o: string)
    requires Parts(Heading(t, store, name), info, admin, oper, i, a, o) && i != a && i != o && a != o
    ensures HeadingPart(t, store, i)(name) == [info]
    ensures HeadingPart(t, store, a)(name) == admin
    ensures HeadingPart(t, store, o)(name) == oper
  {
    ThreeParts(info, admin, oper, a, o);
  }

  /** The first of two values that has text. */
  lemma FirstText(a: string, b: string)
    ensures Lag.FirstNonEmpty([a, b]) == if HasText(a) then a else if HasText(b) then b else ""
  {
    assert [a, b][1..] == [b] && [b][1..] == [];
    assert Lag.FirstNonEmpty([b]) == if HasText(b) then b else "";
  }

  lemma AdminFound(appl: Fields, config: Fields)
    ensures Lag.FirstNonEmpty([Get(appl, "admin_status"), Get(config, "admin_status")]) == AdminText(appl, config)
  {
    FirstText(Get(appl, "admin_status"), Get(config, "admin_status"));
  }

  lemma GaugeOfStatus(text: string)
    ensures Lag.StatusToGauge(text) == UpOrDown(text)
  {
  }

  lemma StatusPart(family: string, name: string, text: string)
    ensures StatusFor(family, name, text)
         == if text != "" then [Series(family, [name], Lag.StatusToGauge(text))] else []
  {
    GaugeOfStatus(text);
  }

  lemma StatusParts(heading: seq<Series>, info: Series, name: string, admin: string, oper: string, i: string,
                    a: string, o: string)
    requires heading == [info] + StatusFor(a, name, admin) + StatusFor(o, name, oper) && info.family == i
    ensures Parts(heading, info, StatusFor(a, name, admin), StatusFor(o, name, oper), i, a, o)
  {
  }

  ghost predicate SameAt(f: string -> seq<Series>, g: string -> seq<Series>, name: string) {
    f(name) == g(name)
  }

  ghost predicate Same(f: string -> seq<Series>, g: string -> seq<Series>) {
    forall name :: SameAt(f, g, name)
  }

  lemma {:induction false} SameReport(f: string -> seq<Series>, g: string -> seq<Series>, names: seq<string>)
    requires Same(f, g)
    ensures FlatMap(f, names) == FlatMap(g, names)
  {
    if names != [] {
      SameReport(f, g, names[..|names| - 1]);
      assert SameAt(f, g, names[|names| - 1]);
    }
  }

  lemma SameThree(f: string -> seq<Series>, f': string -> seq<Series>, g: string -> seq<Series>,
                  g': string -> seq<Series>, h: string -> seq<Series>, h': string -> seq<Series>, names: seq<string>)
    requires Same(f, f') && Same(g, g') && Same(h, h')
    ensures FlatMap(f, names) == FlatMap(f', names)
    ensures FlatMap(g, names) == FlatMap(g', names)
    ensures FlatMap(h, names) == FlatMap(h', names)
  {
    SameReport(f, f', names);
    SameReport(g, g', names);
    SameReport(h, h', names);
  }

  // ---------------------------------------------------------------- LAGs

  lemma LagHeadingIs(name: string, config: Fields, appl: Fields)
    ensures Lag.LagHeading(name, config, appl)
         == [LagInfo(name)]
            + StatusFor("sonic_lag_admin_status", name, AdminText(appl, config))
            + StatusFor("sonic_lag_oper_status", name, Get(appl, "oper_status"))
  {
    AdminFound(appl, config);
    StatusPart("sonic_lag_admin_status", name, AdminText(appl, config));
    StatusPart("sonic_lag_oper_status", name, Get(appl, "oper_status"));
  }

  lemma LagHeadingAt(store: Store, name: string)
    ensures Heading(Lag.LAG_TABLES, store, name) == Lag.LagHeading(name, LagConfig(store, name), LagAppl(store, name))
  {
  }

  lemma LagParts(store: Store, name: string)
    ensures Parts(Heading(Lag.LAG_TABLES, store, name), LagInfo(name), LagAdmin(store)(name), LagOper(store)(name),
                  "sonic_lag_info", "sonic_lag_admin_status", "sonic_lag_oper_status")
  {
    LagHeadingAt(store, name);
    LagHeadingIs(name, LagConfig(store, name), LagAppl(store, name));
    StatusParts(Heading(Lag.LAG_TABLES, store, name), LagInfo(name), name,
                AdminText(LagAppl(store, name), LagConfig(store, name)), Get(LagAppl(store, name), "oper_status"),
                "sonic_lag_info", "sonic_lag_admin_status", "sonic_lag_oper_status");
  }

  lemma LagFamilies()
    ensures HeadingFamilies("sonic_lag_info", "sonic_lag_admin_status", "sonic_lag_oper_status",
                            "sonic_lag_member_status", Lag.LAG_TABLES.countFamily)
  {
    DifferByLength("sonic_lag_info", "sonic_lag_admin_status", "sonic_lag_oper_status", "sonic_lag_member_status",
                   Lag.LAG_TABLES.countFamily);
  }

  lemma DifferByLength(i: string, a: string, o: string, m: string, c: string)
    requires |i| != |a| && |a| != |o| && |i| != |o|
    requires |i| != |m| && |a| != |m| && |o| != |m| && |i| != |c| && |a| != |c| && |o| != |c|
    ensures HeadingFamilies(i, a, o, m, c)
  {
  }

  lemma LagPartsAt(store: Store, name: string)
    ensures SameAt(HeadingPart(Lag.LAG_TABLES, store, "sonic_lag_info"), Single(LagInfo), name)
    ensures SameAt(HeadingPart(Lag.LAG_TABLES, store, "sonic_lag_admin_status"), LagAdmin(store), name)
    ensures SameAt(HeadingPart(Lag.LAG_TABLES, store, "sonic_lag_oper_status"), LagOper(store), name)
  {
    LagParts(store, name);
    LagFamilies();
    PartsFound(Lag.LAG_TABLES, store, name, LagInfo(name), LagAdmin(store)(name), LagOper(store)(name),
               "sonic_lag_info", "sonic_lag_admin_status", "sonic_lag_oper_status");
  }

  lemma LagInfoAt(store: Store, name: string)
    ensures SameAt(HeadingPart(Lag.LAG_TABLES, store, "sonic_lag_info"), Single(LagInfo), name)
  {
    LagPartsAt(store, name);
  }

  lemma LagInfoSame(store: Store)
    ensures Same(HeadingPart(Lag.LAG_TABLES, store, "sonic_lag_info"), Single(LagInfo))
  {
    forall name {
      LagInfoAt(store, name);
    }
  }

  lemma LagAdminAt(store: Store, name: string)
    ensures SameAt(HeadingPart(Lag.LAG_TABLES, store, "sonic_lag_admin_status"), LagAdmin(store), name)
  {
    LagPartsAt(store, name);
  }

  lemma LagAdminSame(store: Store)
    ensures Same(HeadingPart(Lag.LAG_TABLES, store, "sonic_lag_admin_status"), LagAdmin(store))
  {
    forall name {
      LagAdminAt(store, name);
    }
  }

  lemma LagOperAt(store: Store, name: string)
    ensures SameAt(HeadingPart(Lag.LAG_TABLES, store, "sonic_lag_oper_status"), LagOper(store), name)
  {
    LagPartsAt(store, name);
  }

  lemma LagOperSame(store: Store)
    ensures Same(HeadingPart(Lag.LAG_TABLES, store, "sonic_lag_oper_status"), LagOper(store))
  {
    forall name {
      LagOperAt(store, name);
    }
  }

  /**
   * The LAGs of a report: each exported LAG has its information series; an administrative status exactly if APPL_DB or
   * else CONFIG_DB has text for it; an operational status exactly if APPL_DB has a value; each is 1 for the six words
   * and 0 for any other text.
   */
  lemma LagStatusTold(store: Store, limits: Limits, scans: Scans)
    ensures var series, names := ReportOf(Lag.LAG_TABLES, store, limits, scans).series,
                                 KeptNames(Lag.LAG_TABLES, limits, scans);
            && OfFamily("sonic_lag_info", series) == FlatMap(Single(LagInfo), names)
            && OfFamily("sonic_lag_admin_status", series) == FlatMap(LagAdmin(store), names)
            && OfFamily("sonic_lag_oper_status", series) == FlatMap(LagOper(store), names)
  {
    Lag.LagFamiliesApart();
    LagFamilies();
    ReportParts(Lag.LAG_TABLES, store, limits, scans, "sonic_lag_member_status", "sonic_lag_info",
                "sonic_lag_admin_status", "sonic_lag_oper_status");
    LagInfoSame(store);
    LagAdminSame(store);
    LagOperSame(store);
    SameThree(HeadingPart(Lag.LAG_TABLES, store, "sonic_lag_info"), Single(LagInfo),
              HeadingPart(Lag.LAG_TABLES, store, "sonic_lag_admin_status"), LagAdmin(store),
              HeadingPart(Lag.LAG_TABLES, store, "sonic_lag_oper_status"), LagOper(store),
              KeptNames(Lag.LAG_TABLES, limits, scans));
  }

  // ---------------------------------------------------------------- VLANs

  lemma VlanHeadingIs(name: string, config: Fields, appl: Fields)
    ensures Vlan.VlanHeading(name, config, appl)
         == [Series("sonic_vlan_info", [name, VlanId(config, name)], 1.0)]
            + StatusFor("sonic_vlan_admin_status", name, AdminText(appl, config))
            + StatusFor("sonic_vlan_oper_status", name, Get(appl, "oper_status"))
  {
    AdminFound(appl, config);
    FirstText(Get(config, "vlanid"), TrimPrefix(name, "Vlan"));
    StatusPart("sonic_vlan_admin_status", name, AdminText(appl, config));
    StatusPart("sonic_vlan_oper_status", name, Get(appl, "oper_status"));
  }

  lemma VlanHeadingAt(store: Store, name: string)
    ensures Heading(Vlan.VLAN_TABLES, store, name)
         == Vlan.VlanHeading(name, VlanConfig(store, name), VlanAppl(store, name))
  {
  }

  lemma VlanParts(store: Store, name: string)
    ensures Parts(Heading(Vlan.VLAN_TABLES, store, name), VlanInfo(store)(name), VlanAdmin(store)(name),
                  VlanOper(store)(name), "sonic_vlan_info", "sonic_vlan_admin_status", "sonic_vlan_oper_status")
  {
    VlanHeadingAt(store, name);
    VlanHeadingIs(name, VlanConfig(store, name), VlanAppl(store, name));
    StatusParts(Heading(Vlan.VLAN_TABLES, store, name), VlanInfo(store)(name), name,
                AdminText(VlanAppl(store, name), VlanConfig(store, name)), Get(VlanAppl(store, name), "oper_status"),
                "sonic_vlan_info", "sonic_vlan_admin_status", "sonic_vlan_oper_status");
  }

  lemma VlanFamilies()
    ensures HeadingFamilies("sonic_vlan_info", "sonic_vlan_admin_status", "sonic_vlan_oper_status",
                            "sonic_vlan_member_info", Vlan.VLAN_TABLES.countFamily)
  {
    assert "sonic_vlan_oper_status"[11] == 'o' && "sonic_vlan_member_info"[11] == 'm';
  }

  lemma VlanPartsAt(store: Store, name: string)
    ensures SameAt(HeadingPart(Vlan.VLAN_TABLES, store, "sonic_vlan_info"), Single(VlanInfo(store)), name)
    ensures SameAt(HeadingPart(Vlan.VLAN_TABLES, store, "sonic_vlan_admin_status"), VlanAdmin(store), name)
    ensures SameAt(HeadingPart(Vlan.VLAN_TABLES, store, "sonic_vlan_oper_status"), VlanOper(store), name)
  {
    VlanParts(store, name);
    VlanFamilies();
    PartsFound(Vlan.VLAN_TABLES, store, name, VlanInfo(store)(name), VlanAdmin(store)(name), VlanOper(store)(name),
               "sonic_vlan_info", "sonic_vlan_admin_status", "sonic_vlan_oper_status");
  }

  lemma VlanInfoAt(store: Store, name: string)
    ensures SameAt(HeadingPart(Vlan.VLAN_TABLES, store, "sonic_vlan_info"), Single(VlanInfo(store)), name)
  {
    VlanPartsAt(store, name);
  }

  lemma VlanInfoSame(store: Store)
    ensures Same(HeadingPart(Vlan.VLAN_TABLES, store, "sonic_vlan_info"), Single(VlanInfo(store)))
  {
    forall name {
      VlanInfoAt(store, name);
    }
  }

  lemma VlanAdminAt(store: Store, name: string)
    ensures SameAt(HeadingPart(Vlan.VLAN_TABLES, store, "sonic_vlan_admin_status"), VlanAdmin(store), name)
  {
    VlanPartsAt(store, name);
  }

  lemma VlanAdminSame(store: Store)
    ensures Same(HeadingPart(Vlan.VLAN_TABLES, store, "sonic_vlan_admin_status"), VlanAdmin(store))
  {
    forall name {
      VlanAdminAt(store, name);
    }
  }

  lemma VlanOperAt(store: Store, name: string)
    ensures SameAt(HeadingPart(Vlan.VLAN_TABLES, store, "sonic_vlan_oper_status"), VlanOper(store), name)
  {
    VlanPartsAt(store, name);
  }

  lemma VlanOperSame(store: Store)
    ensures Same(HeadingPart(Vlan.VLAN_TABLES, store, "sonic_vlan_oper_status"), VlanOper(store))
  {
    forall name {
      VlanOperAt(store, name);
    }
  }

  /** The VLANs of a report, in the same way; the information series shows the VLAN id. */
  lemma VlanStatusTold(store: Store, limits: Limits, scans: Scans)
    ensures var series, names := ReportOf(Vlan.VLAN_TABLES, store, limits, scans).series,
                                 KeptNames(Vlan.VLAN_TABLES, limits, scans);
            && OfFamily("sonic_vlan_info", series) == FlatMap(Single(VlanInfo(store)), names)
            && OfFamily("sonic_vlan_admin_status", series) == FlatMap(VlanAdmin(store), names)
            && OfFamily("sonic_vlan_oper_status", series) == FlatMap(VlanOper(store), names)
  {
    Vlan.VlanFamiliesApart();
    VlanFamilies();
    ReportParts(Vlan.VLAN_TABLES, store, limits, scans, "sonic_vlan_member_info", "sonic_vlan_info",
                "sonic_vlan_admin_status", "sonic_vlan_oper_status");
    VlanInfoSame(store);
    VlanAdminSame(store);
    VlanOperSame(store);
    SameThree(HeadingPart(Vlan.VLAN_TABLES, store, "sonic_vlan_info"), Single(VlanInfo(store)),
              HeadingPart(Vlan.VLAN_TABLES, store, "sonic_vlan_admin_status"), VlanAdmin(store),
              HeadingPart(Vlan.VLAN_TABLES, store, "sonic_vlan_oper_status"), VlanOper(store),
              KeptNames(Vlan.VLAN_TABLES, limits, scans));
  }

  // ---------------------------------------------------------------- members

  lemma {:induction false} FlattenSource<T>(groups: seq<seq<T>>, x: T) returns (i: nat)
    requires x in Flatten(groups)
    ensures i < |groups| && x in groups[i]
  {
    var n := |groups| - 1;
    if x in groups[n] {
      i := n;
    } else {
      i := FlattenSource(groups[..n], x);
    }
  }

  /** The key a member was read from: its group, the first separator, its name. */
  ghost predicate ReadFrom(t: Tables, store: Store, keys: seq<string>, m: Member, key: string) {
    && key in keys && key == t.memberPrefix + (m.group + [t.separator] + m.name)
    && t.separator !in m.group && m.group != "" && m.name != ""
    && m.detail == t.detail(store.Hash(t.memberDb, key))
  }

  /** A member key is the prefix, a group without the separator, the separator and a name; nothing else is one. */
  lemma MemberKeyExactly(t: Tables, key: string)
    ensures ParseMember(t, key).Some? <==> exists group, name :: MemberKeyOf(t, key, group, name)
    ensures ParseMember(t, key).Some? ==> MemberKeyOf(t, key, ParseMember(t, key).value.0, ParseMember(t, key).value.1)
  {
    if ParseMember(t, key).Some? {
      var pair := ParseMember(t, key).value;
      MemberKeyParts(t, key);
      CutProperties(Suffix(key, t.memberPrefix).value, t.separator);
      assert MemberKeyOf(t, key, pair.0, pair.1);
    }
    if exists group, name :: MemberKeyOf(t, key, group, name) {
      var group, name :| MemberKeyOf(t, key, group, name);
      assert Suffix(key, t.memberPrefix) == Some(group + [t.separator] + name);
      CutUnique(group, t.separator, name);
    }
  }

  ghost predicate MemberKeyOf(t: Tables, key: string, group: string, name: string) {
    && key == t.memberPrefix + (group + [t.separator] + name)
    && t.separator !in group && group != "" && name != ""
  }

  /** Each member of an exported group has a scanned key of its own. */
  lemma MemberKey(t: Tables, store: Store, limits: Limits, scans: Scans, m: Member) returns (key: string)
    requires m in Flatten(KeptGroups(t, store, limits, scans))
    ensures ReadFrom(t, store, scans.members, m, key) && m.group in KeptNames(t, limits, scans)
  {
    var groups, names := KeptGroups(t, store, limits, scans), KeptNames(t, limits, scans);
    var i := FlattenSource(groups, m);
    var mine := Filter(InGroup(names[i]), AllMembers(t, store, scans.members));
    SortProperties(MemberName, mine);
    FilterMembers(InGroup(names[i]), AllMembers(t, store, scans.members));
    assert groups[i] == Sort(MemberName, mine);
    assert m in mine;
    key := MemberSource(t, store, scans.members, m);
    MemberKeyParts(t, key);
    SuffixProperties(key, t.memberPrefix);
    CutProperties(Suffix(key, t.memberPrefix).value, t.separator);
  }

  function LagMemberKey(m: Member): string {
    "LAG_MEMBER_TABLE:" + (m.group + [':'] + m.name)
  }

  /** The status of a member is 1 exactly if its row in APPL_DB says one of the words for up. */
  function LagMemberShown(store: Store): Member -> Series {
    (m: Member) =>
      Series("sonic_lag_member_status", [m.group, m.name],
             UpOrDown(Get(store.Hash(APPL_DB, LagMemberKey(m)), "status")))
  }

  function VlanMemberKey(m: Member): string {
    "VLAN_MEMBER|" + (m.group + ['|'] + m.name)
  }

  function TaggingShown(fields: Fields): string {
    if HasText(Get(fields, "tagging_mode")) then Get(fields, "tagging_mode") else "unknown"
  }

  /** A member shows the tagging mode of its row in CONFIG_DB if that has text. */
  function VlanMemberShown(store: Store): Member -> Series {
    (m: Member) =>
      Series("sonic_vlan_member_info", [m.group, m.name, TaggingShown(store.Hash(CONFIG_DB, VlanMemberKey(m)))], 1.0)
  }

  lemma LagMemberIs(store: Store, keys: seq<string>, m: Member, key: string)
    requires ReadFrom(Lag.LAG_TABLES, store, keys, m, key)
    ensures key == LagMemberKey(m) && Lag.LagMemberSeries(m) == LagMemberShown(store)(m)
  {
    GaugeOfStatus(m.detail);
  }

  lemma TaggingIs(fields: Fields)
    ensures Vlan.TaggingMode(fields) == TaggingShown(fields)
  {
    FirstText(Get(fields, "tagging_mode"), "unknown");
    TextOfUnknown();
  }

  lemma TextOfUnknown()
    ensures HasText("unknown")
  {
    LowerTextStays("unknown");
  }

  lemma VlanMemberIs(store: Store, keys: seq<string>, m: Member, key: string)
    requires ReadFrom(Vlan.VLAN_TABLES, store, keys, m, key)
    ensures key == VlanMemberKey(m) && Vlan.VlanMemberSeries(m) == VlanMemberShown(store)(m)
  {
    TaggingIs(store.Hash(CONFIG_DB, key));
  }

  /** The exported members of a table: those the budget reaches, in the order of their groups. */
  ghost function ExportedMembers(t: Tables, store: Store, limits: Limits, scans: Scans): seq<Member> {
    Take(Flatten(KeptGroups(t, store, limits, scans)), limits.maxMembers)
  }

  /** Each exported member belongs to an exported group and has a scanned key. */
  ghost predicate MembersScanned(t: Tables, store: Store, limits: Limits, scans: Scans) {
    forall m :: m in ExportedMembers(t, store, limits, scans) ==>
      && m.group in KeptNames(t, limits, scans)
      && exists key :: ReadFrom(t, store, scans.members, m, key)
  }

  lemma AllScanned(t: Tables, store: Store, limits: Limits, scans: Scans)
    ensures MembersScanned(t, store, limits, scans)
  {
    forall m | m in ExportedMembers(t, store, limits, scans)
      ensures m.group in KeptNames(t, limits, scans) && exists key :: ReadFrom(t, store, scans.members, m, key)
    {
      var key := MemberKey(t, store, limits, scans, m);
    }
  }

  lemma LagMembersTold(store: Store, limits: Limits)
    ensures var scans := ScansOf(Lag.LAG_TABLES, store);
            var members := ExportedMembers(Lag.LAG_TABLES, store, limits, scans);
            && OfFamily("sonic_lag_member_status", ReportOf(Lag.LAG_TABLES, store, limits, scans).series)
                == Map(LagMemberShown(store), members)
            && forall m :: m in members ==>
                 LagMemberKey(m) in scans.members && m.group in KeptNames(Lag.LAG_TABLES, limits, scans)
  {
    var scans := ScansOf(Lag.LAG_TABLES, store);
    var members := ExportedMembers(Lag.LAG_TABLES, store, limits, scans);
    Lag.LagMembersExported(store, limits);
    AllScanned(Lag.LAG_TABLES, store, limits, scans);
    forall m | m in members
      ensures Lag.LagMemberSeries(m) == LagMemberShown(store)(m) && LagMemberKey(m) in scans.members
    {
      var key :| ReadFrom(Lag.LAG_TABLES, store, scans.members, m, key);
      LagMemberIs(store, scans.members, m, key);
    }
    Sequences.MapSame(Lag.LagMemberSeries, LagMemberShown(store), members);
  }

  lemma VlanMembersTold(store: Store, limits: Limits)
    ensures var scans := ScansOf(Vlan.VLAN_TABLES, store);
            var members := ExportedMembers(Vlan.VLAN_TABLES, store, limits, scans);
            && OfFamily("sonic_vlan_member_info", ReportOf(Vlan.VLAN_TABLES, store, limits, scans).series)
                == Map(VlanMemberShown(store), members)
            && forall m :: m in members ==>
                 VlanMemberKey(m) in scans.members && m.group in KeptNames(Vlan.VLAN_TABLES, limits, scans)
  {
    var scans := ScansOf(Vlan.VLAN_TABLES, store);
    var members := ExportedMembers(Vlan.VLAN_TABLES, store, limits, scans);
    Vlan.VlanMembersExported(store, limits);
    AllScanned(Vlan.VLAN_TABLES, store, limits, scans);
    forall m | m in members
      ensures Vlan.VlanMemberSeries(m) == VlanMemberShown(store)(m) && VlanMemberKey(m) in scans.members
    {
      var key :| ReadFrom(Vlan.VLAN_TABLES, store, scans.members, m, key);
      VlanMemberIs(store, scans.members, m, key);
    }
    Sequences.MapSame(Vlan.VlanMemberSeries, VlanMemberShown(store), members);
  }

  // ---------------------------------------------------------------- up and down

  lemma WordsTold()
    ensures UpOrDown("up") == 1.0 && UpOrDown("down") == 0.0
  {
    LowerTextStays("up");
    LowerTextStays("down");
    assert "down"[0] == 'd';
  }

  lemma {:induction false} FlatMapMembers<T, U>(f: T -> seq<U>, s: seq<T>, x: T, u: U)
    requires x in s && u in f(x)
    ensures u in FlatMap(f, s)
  {
    if x != s[|s| - 1] {
      FlatMapMembers(f, s[..|s| - 1], x, u);
    }
  }

  lemma ShownInReport(family: string, part: string -> seq<Series>, series: seq<Series>, names: seq<string>,
                      name: string, shown: Series)
    requires OfFamily(family, series) == FlatMap(part, names) && name in names && part(name) == [shown]
    ensures shown in series
  {
    FlatMapMembers(part, names, name, shown);
    FilterMembers(InFamily(family), series);
  }

  lemma LagOperShown(store: Store, series: seq<Series>, names: seq<string>, name: string)
    requires OfFamily("sonic_lag_oper_status", series) == FlatMap(LagOper(store), names) && name in names
    requires Get(LagAppl(store, name), "oper_status") != ""
    ensures Series("sonic_lag_oper_status", [name], UpOrDown(Get(LagAppl(store, name), "oper_status"))) in series
  {
    ShownInReport("sonic_lag_oper_status", LagOper(store), series, names, name,
                  Series("sonic_lag_oper_status", [name], UpOrDown(Get(LagAppl(store, name), "oper_status"))));
  }

  lemma LagOperReported(store: Store, limits: Limits, scans: Scans, name: string)
    requires name in KeptNames(Lag.LAG_TABLES, limits, scans) && Get(LagAppl(store, name), "oper_status") != ""
    ensures Series("sonic_lag_oper_status", [name], UpOrDown(Get(LagAppl(store, name), "oper_status")))
         in ReportOf(Lag.LAG_TABLES, store, limits, scans).series
  {
    LagStatusTold(store, limits, scans);
    LagOperShown(store, ReportOf(Lag.LAG_TABLES, store, limits, scans).series,
                 KeptNames(Lag.LAG_TABLES, limits, scans), name);
  }

  /** An exported LAG whose APPL_DB row says "up" shows 1 in the report, one whose row says "down" shows 0. */
  lemma LagUpAndDown(store: Store, limits: Limits, scans: Scans, name: string)
    requires name in KeptNames(Lag.LAG_TABLES, limits, scans)
    requires Get(store.Hash(APPL_DB, "LAG_TABLE:" + name), "oper_status") in {"up", "down"}
    ensures Series("sonic_lag_oper_status", [name],
                   if Get(store.Hash(APPL_DB, "LAG_TABLE:" + name), "oper_status") == "up" then 1.0 else 0.0)
         in ReportOf(Lag.LAG_TABLES, store, limits, scans).series
  {
    WordsTold();
    LagOperReported(store, limits, scans, name);
  }

  lemma VlanOperShown(store: Store, series: seq<Series>, names: seq<string>, name: string)
    requires OfFamily("sonic_vlan_oper_status", series) == FlatMap(VlanOper(store), names) && name in names
    requires Get(VlanAppl(store, name), "oper_status") != ""
    ensures Series("sonic_vlan_oper_status", [name], UpOrDown(Get(VlanAppl(store, name), "oper_status"))) in series
  {
    ShownInReport("sonic_vlan_oper_status", VlanOper(store), series, names, name,
                  Series("sonic_vlan_oper_status", [name], UpOrDown(Get(VlanAppl(store, name), "oper_status"))));
  }

  lemma VlanOperReported(store: Store, limits: Limits, scans: Scans, name: string)
    requires name in KeptNames(Vlan.VLAN_TABLES, limits, scans) && Get(VlanAppl(store, name), "oper_status") != ""
    ensures Series("sonic_vlan_oper_status", [name], UpOrDown(Get(VlanAppl(store, name), "oper_status")))
         in ReportOf(Vlan.VLAN_TABLES, store, limits, scans).series
  {
    VlanStatusTold(store, limits, scans);
    VlanOperShown(store, ReportOf(Vlan.VLAN_TABLES, store, limits, scans).series,
                  KeptNames(Vlan.VLAN_TABLES, limits, scans), name);
  }

  /** An exported VLAN whose APPL_DB row says "up" shows 1 in the report, one whose row says "down" shows 0. */
  lemma VlanUpAndDown(store: Store, limits: Limits, scans: Scans, name: string)
    requires name in KeptNames(Vlan.VLAN_TABLES, limits, scans)
    requires Get(store.Hash(APPL_DB, "VLAN_TABLE:" + name), "oper_status") in {"up", "down"}
    ensures Series("sonic_vlan_oper_status", [name],
                   if Get(store.Hash(APPL_DB, "VLAN_TABLE:" + name), "oper_status") == "up" then 1.0 else 0.0)
         in ReportOf(Vlan.VLAN_TABLES, store, limits, scans).series
  {
    WordsTold();
    VlanOperReported(store, limits, scans, name);
  }
}
