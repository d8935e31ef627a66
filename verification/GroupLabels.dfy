/** When the VLAN and LAG collectors emit two series with the same family and labels. */
module GroupLabels {
  import opened Results
  import opened Sequences
  import opened Strings
  import opened Sorting
  import opened Redis
  import opened Metrics
  import opened LabelSets
  import opened GroupBudget
  import opened GroupBudgetTheorems
  import Lag = LagCollector
  import Vlan = VlanCollector

  /** Headings repeat nothing, everything shows its group first, and a member series tells group and name. */
  ghost predicate LabelsTell(t: Tables, memberFamily: string) {
    && FamiliesApart(t, memberFamily)
    && (forall name, config, appl :: IdsDistinct(t.heading(name, config, appl)))
    && (forall name, config, appl :: Shows(t.heading(name, config, appl), name))
    && (forall m :: t.memberSeries(m).labels != [] && t.memberSeries(m).labels[0] == m.group)
    && (forall a, b :: SameId(t.memberSeries(a), t.memberSeries(b)) ==> a.name == b.name)
    && (forall m :: SameId(t.memberSeries(m), t.memberSeries(m)))
  }

  lemma MembersIds(t: Tables, memberFamily: string, members: seq<Member>)
    requires LabelsTell(t, memberFamily) && KeyDetermines(MemberName, members)
    ensures IdsDistinct(Map(t.memberSeries, members)) <==> Distinct(members)
  {
    var series := Map(t.memberSeries, members);
    forall i, j | 0 <= i < j < |members| ensures SameId(series[i], series[j]) <==> members[i] == members[j] {
      assert members[i] in members && members[j] in members;
      if SameId(series[i], series[j]) {
        assert MemberName(members[i]) == MemberName(members[j]);
      }
    }
  }

  /** A section repeats a series exactly when it has a member twice. */
  lemma SectionIds(t: Tables, store: Store, name: string, exported: seq<Member>, memberFamily: string)
    requires LabelsTell(t, memberFamily) && KeyDetermines(MemberName, exported)
    requires forall m :: m in exported ==> m.group == name
    ensures IdsDistinct(Section(t, store, name, exported)) <==> Distinct(exported)
    ensures Shows(Section(t, store, name, exported), name)
  {
    var heading := t.heading(name, store.Hash(CONFIG_DB, t.configPrefix + name),
                             store.Hash(APPL_DB, t.applPrefix + name));
    var infos, gauge := Map(t.memberSeries, exported), Series(t.countFamily, [name], |exported| as real);
    forall r | r in infos ensures r.family == memberFamily && r.labels != [] && r.labels[0] == name {
      var i :| 0 <= i < |infos| && infos[i] == r;
      assert exported[i] in exported;
    }
    MembersIds(t, memberFamily, exported);
    IdsAppend(heading, infos);
    IdsAppend(heading + infos, [gauge]);
  }

  // ---------------------------------------------------------------- all groups

  ghost predicate OwnersIn(series: seq<Series>, owners: seq<string>) {
    forall r :: r in series ==> r.labels != [] && r.labels[0] in owners
  }

  ghost predicate GroupsIn(members: seq<Member>, owners: seq<string>) {
    forall m :: m in members ==> m.group in owners
  }

  lemma NewOwner(before: seq<Series>, owners: seq<string>, section: seq<Series>, name: string)
    requires OwnersIn(before, owners) && Shows(section, name) && name !in owners
    ensures Apart(before, section) && OwnersIn(before + section, owners + [name])
  {
  }

  lemma NewGroup(before: seq<Member>, owners: seq<string>, members: seq<Member>, name: string)
    requires GroupsIn(before, owners) && name !in owners && forall m :: m in members ==> m.group == name
    ensures Distinct(before + members) <==> Distinct(before) && Distinct(members)
    ensures GroupsIn(before + members, owners + [name])
  {
    var both := before + members;
    assert forall i :: 0 <= i < |before| ==> both[i] == before[i];
    assert forall i :: 0 <= i < |members| ==> both[|before| + i] == members[i];
    if Distinct(both) {
      forall i, j | 0 <= i < j < |members| ensures members[i] != members[j] {
        assert both[|before| + i] != both[|before| + j];
      }
    }
    if Distinct(before) && Distinct(members) {
      forall i, j | 0 <= i < j < |both| ensures both[i] != both[j] {
        if i < |before| <= j {
          assert both[i] in before && both[j] == members[j - |before|] && both[j] in members;
        } else if |before| <= i {
          assert both[i] == members[i - |before|] && both[j] == members[j - |before|];
        }
      }
    }
  }

  /** Each name has a group of its own members, in which a name tells the member. */
  ghost predicate OwnMembers(names: seq<string>, groups: seq<seq<Member>>) {
    && |names| == |groups|
    && (forall i :: 0 <= i < |groups| ==> KeyDetermines(MemberName, groups[i]))
    && (forall i, m :: 0 <= i < |groups| && m in groups[i] ==> m.group == names[i])
  }

  lemma {:induction false} SectionsIds(t: Tables, store: Store, budget: nat, names: seq<string>,
                                       groups: seq<seq<Member>>, n: nat, memberFamily: string)
    requires LabelsTell(t, memberFamily) && OwnMembers(names, groups) && Distinct(names) && n <= |names|
    ensures IdsDistinct(Sections(t, store, budget, names, groups, n)) <==> Distinct(Exported(groups, budget, n))
    ensures OwnersIn(Sections(t, store, budget, names, groups, n), names[..n])
    ensures GroupsIn(Exported(groups, budget, n), names[..n])
  {
    if n > 0 {
      var before, name := Sections(t, store, budget, names, groups, n - 1), names[n - 1];
      var exported := groups[n - 1][..Allotted(groups, budget, n - 1)];
      SectionsIds(t, store, budget, names, groups, n - 1, memberFamily);
      SectionIds(t, store, name, exported, memberFamily);
      NameIsNew(names, n - 1);
      NewOwner(before, names[..n - 1], Section(t, store, name, exported), name);
      NewGroup(Exported(groups, budget, n - 1), names[..n - 1], exported, name);
      IdsAppend(before, Section(t, store, name, exported));
    }
  }

  lemma NameIsNew(names: seq<string>, i: nat)
    requires Distinct(names) && i < |names|
    ensures names[i] !in names[..i] && names[..i + 1] == names[..i] + [names[i]]
  {
  }

  lemma KeptGrouped(t: Tables, store: Store, limits: Limits, scans: Scans)
    ensures OwnMembers(KeptNames(t, limits, scans), KeptGroups(t, store, limits, scans))
    ensures Distinct(KeptNames(t, limits, scans))
  {
    var names, groups := KeptNames(t, limits, scans), KeptGroups(t, store, limits, scans);
    SortedSetProperties(NameSet(t.configPrefix, scans.config) + NameSet(t.applPrefix, scans.appl));
    forall i | 0 <= i < |groups|
      ensures KeyDetermines(MemberName, groups[i]) && forall m: Member :: m in groups[i] ==> m.group == names[i]
    {
      var mine := Filter(InGroup(names[i]), AllMembers(t, store, scans.members));
      NameDetermines(t, store, scans.members, names[i]);
      SortProperties(MemberName, mine);
      FilterMembers(InGroup(names[i]), AllMembers(t, store, scans.members));
      assert groups[i] == Sort(MemberName, mine);
    }
  }

  /** Exactly when a report of groups repeats no series: when no member is exported twice. */
  lemma GroupIdsDistinct(t: Tables, store: Store, limits: Limits, scans: Scans, memberFamily: string)
    requires LabelsTell(t, memberFamily)
    ensures IdsDistinct(ReportOf(t, store, limits, scans).series)
       <==> Distinct(Take(Flatten(KeptGroups(t, store, limits, scans)), limits.maxMembers))
  {
    var names, groups := KeptNames(t, limits, scans), KeptGroups(t, store, limits, scans);
    KeptGrouped(t, store, limits, scans);
    SectionsIds(t, store, limits.maxMembers, names, groups, |names|, memberFamily);
    assert groups[..|groups|] == groups;
    AllotmentsArePrefix(groups, limits.maxMembers, |names|);
  }

  // ---------------------------------------------------------------- scans that repeat no member key

  lemma SameKey(t: Tables, store: Store, a: string, b: string)
    requires ParseMember(t, a).Some? && ParseMember(t, b).Some? && MemberAt(t, store, a) == MemberAt(t, store, b)
    ensures a == b
  {
    MemberKeyParts(t, a);
    MemberKeyParts(t, b);
  }

  lemma MembersOnce(t: Tables, store: Store, keys: seq<string>)
    requires Distinct(keys)
    ensures Distinct(AllMembers(t, store, keys))
  {
    var valid := Filter(IsMemberKey(t), keys);
    FilterDistinct(IsMemberKey(t), keys);
    FilterMembers(IsMemberKey(t), keys);
    forall i, j | 0 <= i < j < |valid| ensures MemberAt(t, store, valid[i]) != MemberAt(t, store, valid[j]) {
      assert valid[i] in valid && valid[j] in valid;
      if MemberAt(t, store, valid[i]) == MemberAt(t, store, valid[j]) {
        SameKey(t, store, valid[i], valid[j]);
      }
    }
  }

  lemma {:induction false} FlattenOnce(names: seq<string>, groups: seq<seq<Member>>, n: nat)
    requires OwnMembers(names, groups) && Distinct(names) && n <= |names|
    requires forall i :: 0 <= i < |groups| ==> Distinct(groups[i])
    ensures Distinct(Flatten(groups[..n])) && GroupsIn(Flatten(groups[..n]), names[..n])
  {
    if n > 0 {
      FlattenOnce(names, groups, n - 1);
      NameIsNew(names, n - 1);
      TakeSnoc(groups, n - 1);
      NewGroup(Flatten(groups[..n - 1]), names[..n - 1], groups[n - 1], names[n - 1]);
    }
  }

  /** When the member scan repeats no key, no member is exported twice. */
  lemma ExportedOnce(t: Tables, store: Store, limits: Limits, scans: Scans)
    requires Distinct(scans.members)
    ensures Distinct(Take(Flatten(KeptGroups(t, store, limits, scans)), limits.maxMembers))
  {
    var names, groups := KeptNames(t, limits, scans), KeptGroups(t, store, limits, scans);
    KeptGrouped(t, store, limits, scans);
    forall i | 0 <= i < |groups| ensures Distinct(groups[i]) {
      MembersOnce(t, store, scans.members);
      FilterDistinct(InGroup(names[i]), AllMembers(t, store, scans.members));
      SortedDistinct(MemberName, Filter(InGroup(names[i]), AllMembers(t, store, scans.members)));
    }
    FlattenOnce(names, groups, |names|);
    assert groups[..|groups|] == groups;
  }

  // ---------------------------------------------------------------- VLANs and LAGs

  lemma HeadingIds(info: Series, admin: seq<Series>, oper: seq<Series>, families: seq<string>)
    requires |families| == 3 && Distinct(families) && info.family == families[0]
    requires |admin| <= 1 && |oper| <= 1
    requires forall s :: s in admin ==> s.family == families[1]
    requires forall s :: s in oper ==> s.family == families[2]
    ensures IdsDistinct([info] + admin + oper)
  {
    IdsAppend([info], admin);
    IdsAppend([info] + admin, oper);
  }

  lemma VlanLabelsTell()
    ensures LabelsTell(Vlan.VLAN_TABLES, "sonic_vlan_member_info")
  {
    var t := Vlan.VLAN_TABLES;
    Vlan.VlanFamiliesApart();
    forall name, config, appl
      ensures IdsDistinct(t.heading(name, config, appl)) && Shows(t.heading(name, config, appl), name)
    {
      VlanHeadingIds(name, config, appl);
    }
    forall a, b | SameId(t.memberSeries(a), t.memberSeries(b)) ensures a.name == b.name {
      assert t.memberSeries(a).labels[1] == a.name && t.memberSeries(b).labels[1] == b.name;
    }
  }

  lemma VlanHeadingIds(name: string, config: Fields, appl: Fields)
    ensures IdsDistinct(Vlan.VlanHeading(name, config, appl)) && Shows(Vlan.VlanHeading(name, config, appl), name)
  {
    var families := ["sonic_vlan_info", "sonic_vlan_admin_status", "sonic_vlan_oper_status"];
    assert |families[0]| == 15 && |families[1]| == 23 && |families[2]| == 22;
    var series := Vlan.VlanHeading(name, config, appl);
    var admin := Lag.FirstNonEmpty([Get(appl, "admin_status"), Get(config, "admin_status")]);
    var oper := Get(appl, "oper_status");
    HeadingIds(series[0],
               if admin != "" then [Series(families[1], [name], Lag.StatusToGauge(admin))] else [],
               if oper != "" then [Series(families[2], [name], Lag.StatusToGauge(oper))] else [], families);
  }

  /** The VLAN collector repeats a series exactly when it exports a member twice. */
  lemma VlanIdsDistinct(store: Store, limits: Limits, scans: Scans)
    ensures IdsDistinct(ReportOf(Vlan.VLAN_TABLES, store, limits, scans).series)
       <==> Distinct(Take(Flatten(KeptGroups(Vlan.VLAN_TABLES, store, limits, scans)), limits.maxMembers))
  {
    VlanLabelsTell();
    GroupIdsDistinct(Vlan.VLAN_TABLES, store, limits, scans, "sonic_vlan_member_info");
  }

  lemma LagLabelsTell()
    ensures LabelsTell(Lag.LAG_TABLES, "sonic_lag_member_status")
  {
    var t := Lag.LAG_TABLES;
    Lag.LagFamiliesApart();
    forall name, config, appl
      ensures IdsDistinct(t.heading(name, config, appl)) && Shows(t.heading(name, config, appl), name)
    {
      LagHeadingIds(name, config, appl);
    }
    forall a, b | SameId(t.memberSeries(a), t.memberSeries(b)) ensures a.name == b.name {
      assert t.memberSeries(a).labels[1] == a.name && t.memberSeries(b).labels[1] == b.name;
    }
  }

  lemma LagHeadingIds(name: string, config: Fields, appl: Fields)
    ensures IdsDistinct(Lag.LagHeading(name, config, appl)) && Shows(Lag.LagHeading(name, config, appl), name)
  {
    var families := ["sonic_lag_info", "sonic_lag_admin_status", "sonic_lag_oper_status"];
    assert |families[0]| == 14 && |families[1]| == 22 && |families[2]| == 21;
    var series := Lag.LagHeading(name, config, appl);
    var admin := Lag.FirstNonEmpty([Get(appl, "admin_status"), Get(config, "admin_status")]);
    var oper := Get(appl, "oper_status");
    HeadingIds(series[0],
               if admin != "" then [Series(families[1], [name], Lag.StatusToGauge(admin))] else [],
               if oper != "" then [Series(families[2], [name], Lag.StatusToGauge(oper))] else [], families);
  }

  /** The LAG collector repeats a series exactly when it exports a member twice. */
  lemma LagIdsDistinct(store: Store, limits: Limits, scans: Scans)
    ensures IdsDistinct(ReportOf(Lag.LAG_TABLES, store, limits, scans).series)
       <==> Distinct(Take(Flatten(KeptGroups(Lag.LAG_TABLES, store, limits, scans)), limits.maxMembers))
  {
    LagLabelsTell();
    GroupIdsDistinct(Lag.LAG_TABLES, store, limits, scans, "sonic_lag_member_status");
  }
}
