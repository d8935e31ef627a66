/** What the two budgets, the sorting and the filter of GroupBudget guarantee about every report. */
module GroupBudgetTheorems {
  import opened Results
  import opened Sequences
  import opened Strings
  import opened Sorting
  import opened Redis
  import opened Metrics
  import opened GroupBudget

  // ---------------------------------------------------------------- the budgets allocate a prefix

  /** The allotted part of each of the first `n` groups, one after the other. */
  function Exported<T>(groups: seq<seq<T>>, budget: nat, n: nat): seq<T>
    requires n <= |groups|
  {
    if n == 0 then [] else Exported(groups, budget, n - 1) + groups[n - 1][..Allotted(groups, budget, n - 1)]
  }

  /** The per-group allotments cut the concatenation of all groups at exactly the budget. */
  lemma {:induction false} AllotmentsArePrefix<T>(groups: seq<seq<T>>, budget: nat, n: nat)
    requires n <= |groups|
    ensures Exported(groups, budget, n) == Take(Flatten(groups[..n]), budget)
  {
    if n > 0 {
      AllotmentsArePrefix(groups, budget, n - 1);
      TakeSnoc(groups, n - 1);
      var before := Flatten(groups[..n - 1]);
      var a := Allotted(groups, budget, n - 1);
      assert Flatten(groups[..n]) == before + groups[n - 1];
      if |before| <= budget {
        assert Take(before, budget) == before;
        assert (before + groups[n - 1])[..|before| + a] == before + groups[n - 1][..a];
      }
    }
  }

  /** The families of member series, member gauges and heading series do not overlap. */
  ghost predicate FamiliesApart(t: Tables, memberFamily: string) {
    && memberFamily != t.countFamily
    && (forall m :: t.memberSeries(m).family == memberFamily)
    && (forall name, config, appl, s :: s in t.heading(name, config, appl) ==>
          s.family != memberFamily && s.family != t.countFamily)
  }

  function Gauges<T>(t: Tables, names: seq<string>, groups: seq<seq<T>>, budget: nat, n: nat): seq<Series>
    requires n <= |names| && n <= |groups|
  {
    if n == 0 then [] else
      Gauges(t, names, groups, budget, n - 1)
      + [Series(t.countFamily, [names[n - 1]], Allotted(groups, budget, n - 1) as real)]
  }

  /** One member gauge per exported group: what the budget leaves of the group. */
  ghost function AllGauges(t: Tables, store: Store, limits: Limits, scans: Scans): seq<Series> {
    Gauges(t, KeptNames(t, limits, scans), KeptGroups(t, store, limits, scans), limits.maxMembers,
           |KeptNames(t, limits, scans)|)
  }

  lemma {:induction false} MemberSeriesFamily(t: Tables, members: seq<Member>, memberFamily: string)
    requires FamiliesApart(t, memberFamily)
    ensures OfFamily(memberFamily, Map(t.memberSeries, members)) == Map(t.memberSeries, members)
    ensures OfFamily(t.countFamily, Map(t.memberSeries, members)) == []
  {
    FilterAll(InFamily(memberFamily), Map(t.memberSeries, members));
    FilterAll(InFamily(t.countFamily), Map(t.memberSeries, members));
  }

  lemma SectionFamilies(t: Tables, store: Store, name: string, exported: seq<Member>, memberFamily: string)
    requires FamiliesApart(t, memberFamily)
    ensures OfFamily(memberFamily, Section(t, store, name, exported)) == Map(t.memberSeries, exported)
    ensures OfFamily(t.countFamily, Section(t, store, name, exported))
         == [Series(t.countFamily, [name], |exported| as real)]
  {
    var heading := t.heading(name, store.Hash(CONFIG_DB, t.configPrefix + name),
                             store.Hash(APPL_DB, t.applPrefix + name));
    var infos := Map(t.memberSeries, exported);
    MemberSeriesFamily(t, exported, memberFamily);
    FilterAll(InFamily(memberFamily), heading);
    FilterAll(InFamily(t.countFamily), heading);
    FilterAppend(InFamily(memberFamily), heading, infos);
    FilterAppend(InFamily(t.countFamily), heading, infos);
  }

  lemma {:induction false} SectionsFamilies(t: Tables, store: Store, budget: nat, names: seq<string>,
                                            groups: seq<seq<Member>>, n: nat, memberFamily: string)
    requires n <= |names| && n <= |groups|
    requires FamiliesApart(t, memberFamily)
    ensures OfFamily(memberFamily, Sections(t, store, budget, names, groups, n))
         == Map(t.memberSeries, Exported(groups, budget, n))
    ensures OfFamily(t.countFamily, Sections(t, store, budget, names, groups, n)) == Gauges(t, names, groups, budget, n)
  {
    if n > 0 {
      var before := Sections(t, store, budget, names, groups, n - 1);
      var exported := groups[n - 1][..Allotted(groups, budget, n - 1)];
      SectionsFamilies(t, store, budget, names, groups, n - 1, memberFamily);
      SectionFamilies(t, store, names[n - 1], exported, memberFamily);
      FilterAppend(InFamily(memberFamily), before, Section(t, store, names[n - 1], exported));
      FilterAppend(InFamily(t.countFamily), before, Section(t, store, names[n - 1], exported));
      MapAppend(t.memberSeries, Exported(groups, budget, n - 1), exported);
    }
  }

  lemma {:induction false} GaugesSum<T>(t: Tables, names: seq<string>, groups: seq<seq<T>>, budget: nat, n: nat)
    requires n <= |names| && n <= |groups|
    ensures SumValues(Gauges(t, names, groups, budget, n)) == Min(budget, |Flatten(groups[..n])|) as real
  {
    if n > 0 {
      GaugesSum(t, names, groups, budget, n - 1);
      TakeSnoc(groups, n - 1);
    }
  }

  /**
   * The member series are those of the first `maxMembers` members of the concatenated, sorted member lists of the
   * first `maxGroups` names; each member gauge is what the budget leaves of its group, and the gauges add up to the
   * number of exported members.
   */
  lemma MembersExported(t: Tables, store: Store, limits: Limits, scans: Scans, memberFamily: string)
    requires FamiliesApart(t, memberFamily)
    ensures var report := ReportOf(t, store, limits, scans);
            var members := Flatten(KeptGroups(t, store, limits, scans));
            && OfFamily(memberFamily, report.series) == Map(t.memberSeries, Take(members, limits.maxMembers))
            && OfFamily(t.countFamily, report.series) == AllGauges(t, store, limits, scans)
            && SumValues(OfFamily(t.countFamily, report.series)) == Min(limits.maxMembers, |members|) as real
            && |OfFamily(memberFamily, report.series)| == Min(limits.maxMembers, |members|)
  {
    var names := KeptNames(t, limits, scans);
    var groups := KeptGroups(t, store, limits, scans);
    assert groups[..|groups|] == groups;
    SectionsFamilies(t, store, limits.maxMembers, names, groups, |names|, memberFamily);
    AllotmentsArePrefix(groups, limits.maxMembers, |names|);
    GaugesSum(t, names, groups, limits.maxMembers, |names|);
  }

  // ---------------------------------------------------------------- scan order does not matter

  ghost predicate SameKeys(a: Scans, b: Scans) {
    && multiset(a.config) == multiset(b.config)
    && multiset(a.appl) == multiset(b.appl)
    && multiset(a.members) == multiset(b.members)
  }

  lemma NameSetPermutation(prefix: string, a: seq<string>, b: seq<string>)
    requires multiset(a) == multiset(b)
    ensures NameSet(prefix, a) == NameSet(prefix, b)
  {
    PermutationLength(a, b);
  }

  lemma MembersOfPermutation(t: Tables, store: Store, a: seq<string>, b: seq<string>, group: string)
    requires multiset(a) == multiset(b)
    ensures MembersOf(t, store, a, group) == MembersOf(t, store, b, group)
  {
    FilterPermutation(IsMemberKey(t), a, b);
    MapPermutation(ToMember(t, store), Filter(IsMemberKey(t), a), Filter(IsMemberKey(t), b));
    FilterPermutation(InGroup(group), AllMembers(t, store, a), AllMembers(t, store, b));
    NameDetermines(t, store, a, group);
    SortPermutation(MemberName, Filter(InGroup(group), AllMembers(t, store, a)),
                    Filter(InGroup(group), AllMembers(t, store, b)));
  }

  lemma {:induction false} MapSame<T, U>(f: T -> U, g: T -> U, s: seq<T>)
    requires forall x :: x in s ==> f(x) == g(x)
    ensures Map(f, s) == Map(g, s)
  {
  }

  lemma NamesPermutation(t: Tables, a: Scans, b: Scans)
    requires SameKeys(a, b)
    ensures Names(t, a) == Names(t, b) && MalformedCount(t, a) == MalformedCount(t, b)
  {
    NameSetPermutation(t.configPrefix, a.config, b.config);
    NameSetPermutation(t.applPrefix, a.appl, b.appl);
    FilterPermutation(Malformed(t.configPrefix), a.config, b.config);
    FilterPermutation(Malformed(t.applPrefix), a.appl, b.appl);
    FilterPermutation(NotMemberKey(t), a.members, b.members);
  }

  lemma GroupsPermutation(t: Tables, store: Store, a: seq<string>, b: seq<string>, names: seq<string>)
    requires multiset(a) == multiset(b)
    ensures Map(MemberLister(t, store, a), names) == Map(MemberLister(t, store, b), names)
  {
    forall group ensures MemberLister(t, store, a)(group) == MemberLister(t, store, b)(group) {
      MembersOfPermutation(t, store, a, b, group);
    }
    MapSame(MemberLister(t, store, a), MemberLister(t, store, b), names);
  }

  /**
   * However Redis orders (or repeats) the keys of its scans, the report is the same, although the member sort is
   * unstable; a refresh also completes for both orders or for neither.
   */
  lemma ScanOrderIrrelevant(t: Tables, store: Store, limits: Limits, a: Scans, b: Scans)
    requires SameKeys(a, b)
    ensures ReportOf(t, store, limits, a) == ReportOf(t, store, limits, b)
    ensures Every(MemberReads(t, store), a.members) <==> Every(MemberReads(t, store), b.members)
    ensures KeptNames(t, limits, a) == KeptNames(t, limits, b)
  {
    NamesPermutation(t, a, b);
    GroupsPermutation(t, store, a.members, b.members, KeptNames(t, limits, a));
    EveryPermutation(MemberReads(t, store), a.members, b.members);
  }

  lemma EveryPermutation<T(!new)>(p: T -> bool, a: seq<T>, b: seq<T>)
    requires multiset(a) == multiset(b)
    ensures Every(p, a) <==> Every(p, b)
  {
    PermutationLength(a, b);
    EveryElement(p, a);
    EveryElement(p, b);
    assert Every(p, a) <==> forall x :: x in a ==> p(x);
    assert Every(p, b) <==> forall x :: x in b ==> p(x);
  }

  // ---------------------------------------------------------------- the ledger of scanned member keys

  function InGroups(groups: set<string>): Member -> bool {
    (m: Member) => m.group in groups
  }

  function OutsideGroups(groups: set<string>): Member -> bool {
    (m: Member) => m.group !in groups
  }

  lemma {:induction false} OneMoreGroup(groups: set<string>, last: string, members: seq<Member>)
    requires last !in groups
    ensures |Filter(InGroups(groups + {last}), members)|
         == |Filter(InGroups(groups), members)| + |Filter(InGroup(last), members)|
  {
    if members != [] {
      OneMoreGroup(groups, last, members[..|members| - 1]);
    }
  }

  lemma {:induction false} FilterComplement<T(!new)>(p: T -> bool, q: T -> bool, s: seq<T>)
    requires forall x :: p(x) <==> !q(x)
    ensures |s| == |Filter(p, s)| + |Filter(q, s)|
  {
    if s != [] {
      FilterComplement(p, q, s[..|s| - 1]);
    }
  }

  ghost function Elements(names: seq<string>): set<string> {
    set name | name in names
  }

  lemma SetSnoc(names: seq<string>)
    requires names != []
    ensures Elements(names) == Elements(names[..|names| - 1]) + {names[|names| - 1]}
    ensures Distinct(names) ==> names[|names| - 1] !in names[..|names| - 1]
  {
    assert names == names[..|names| - 1] + [names[|names| - 1]];
  }

  /** The members of distinct groups together are the members whose group is one of them. */
  lemma {:induction false} GroupsPartition(t: Tables, store: Store, keys: seq<string>, names: seq<string>)
    requires Distinct(names)
    ensures |Flatten(Map(MemberLister(t, store, keys), names))|
         == |Filter(InGroups(Elements(names)), AllMembers(t, store, keys))|
  {
    var members := AllMembers(t, store, keys);
    if names == [] {
      FilterAll(InGroups(Elements(names)), members);
    } else {
      var front, last := names[..|names| - 1], names[|names| - 1];
      GroupsPartition(t, store, keys, front);
      SetSnoc(names);
      OneMoreGroup(Elements(front), last, members);
      SortProperties(MemberName, Filter(InGroup(last), members));
    }
  }

  /** Well-formed members whose group is not exported: neither emitted nor counted. */
  ghost function Unlisted(t: Tables, store: Store, limits: Limits, scans: Scans): nat {
    |Filter(OutsideGroups(Elements(KeptNames(t, limits, scans))), AllMembers(t, store, scans.members))|
  }

  lemma KeptNamesDistinct(t: Tables, limits: Limits, scans: Scans)
    ensures Distinct(KeptNames(t, limits, scans))
  {
    SortedSetProperties(NameSet(t.configPrefix, scans.config) + NameSet(t.applPrefix, scans.appl));
  }

  /**
   * Conservation: every scanned key is exported, or counted as skipped, or is a member of a group that is not exported.
   * A name found in both tables is one group, so names are counted once.
   */
  lemma KeysAccountedFor(t: Tables, store: Store, limits: Limits, scans: Scans)
    ensures var report := ReportOf(t, store, limits, scans);
            var exported := Min(limits.maxMembers, |Flatten(KeptGroups(t, store, limits, scans))|);
            |Filter(Malformed(t.configPrefix), scans.config)| + |Filter(Malformed(t.applPrefix), scans.appl)|
            + |Names(t, scans)| + |scans.members|
            == |KeptNames(t, limits, scans)| + exported + report.skipped + Unlisted(t, store, limits, scans)
  {
    var kept := KeptNames(t, limits, scans);
    var members := AllMembers(t, store, scans.members);
    var groups := Elements(kept);
    FilterComplement(IsMemberKey(t), NotMemberKey(t), scans.members);
    FilterComplement(InGroups(groups), OutsideGroups(groups), members);
    KeptNamesDistinct(t, limits, scans);
    GroupsPartition(t, store, scans.members, kept);
  }

  function WellFormedName(prefix: string): string -> bool {
    (key: string) => Suffix(key, prefix).Some?
  }

  lemma {:induction false} NamesOnce(prefix: string, keys: seq<string>)
    requires Distinct(keys)
    ensures |NameSet(prefix, keys)| == |Filter(WellFormedName(prefix), keys)|
  {
    if keys != [] {
      var front, last := keys[..|keys| - 1], keys[|keys| - 1];
      assert keys == front + [last];
      NamesOnce(prefix, front);
      NameSetSnoc(prefix, front, last);
    }
  }

  lemma NameSetSnoc(prefix: string, front: seq<string>, last: string)
    requires last !in front
    ensures Suffix(last, prefix).None? ==> NameSet(prefix, front + [last]) == NameSet(prefix, front)
    ensures Suffix(last, prefix).Some? ==>
      && NameSet(prefix, front + [last]) == NameSet(prefix, front) + {Suffix(last, prefix).value}
      && Suffix(last, prefix).value !in NameSet(prefix, front)
  {
    if Suffix(last, prefix).Some? {
      SuffixProperties(last, prefix);
      forall key | key in front && Suffix(key, prefix) == Suffix(last, prefix) ensures false {
        SuffixProperties(key, prefix);
      }
    }
  }

  /** The names found in both tables. */
  ghost function SharedNames(t: Tables, scans: Scans): set<string> {
    NameSet(t.configPrefix, scans.config) * NameSet(t.applPrefix, scans.appl)
  }

  lemma NamesCounted(t: Tables, scans: Scans)
    requires Distinct(scans.config) && Distinct(scans.appl)
    ensures |scans.config| + |scans.appl|
         == |Filter(Malformed(t.configPrefix), scans.config)| + |Filter(Malformed(t.applPrefix), scans.appl)|
            + |Names(t, scans)| + |SharedNames(t, scans)|
  {
    var config, appl := NameSet(t.configPrefix, scans.config), NameSet(t.applPrefix, scans.appl);
    NamesOnce(t.configPrefix, scans.config);
    NamesOnce(t.applPrefix, scans.appl);
    FilterComplement(WellFormedName(t.configPrefix), Malformed(t.configPrefix), scans.config);
    FilterComplement(WellFormedName(t.applPrefix), Malformed(t.applPrefix), scans.appl);
    SortedSetProperties(config + appl);
    assert |config + appl| + |config * appl| == |config| + |appl|;
  }

  /**
   * The same key by key, when no scan repeats a name key: every scanned key is exported, counted as skipped, a member
   * of a group that is not exported, or the second key of a name that both tables have.
   */
  lemma ScannedKeysAccountedFor(t: Tables, store: Store, limits: Limits, scans: Scans)
    requires Distinct(scans.config) && Distinct(scans.appl)
    ensures var report := ReportOf(t, store, limits, scans);
            var exported := Min(limits.maxMembers, |Flatten(KeptGroups(t, store, limits, scans))|);
            |scans.config| + |scans.appl| + |scans.members|
            == |KeptNames(t, limits, scans)| + exported + report.skipped + Unlisted(t, store, limits, scans)
               + |SharedNames(t, scans)|
  {
    NamesCounted(t, scans);
    KeysAccountedFor(t, store, limits, scans);
  }

  /** The skip counter explains every missing member key exactly when no member belongs to an unexported group. */
  lemma SkippedExplainsAll(t: Tables, store: Store, limits: Limits, scans: Scans)
    ensures var report := ReportOf(t, store, limits, scans);
            var exported := Min(limits.maxMembers, |Flatten(KeptGroups(t, store, limits, scans))|);
            (|Filter(Malformed(t.configPrefix), scans.config)| + |Filter(Malformed(t.applPrefix), scans.appl)|
             + |Names(t, scans)| + |scans.members|
             == |KeptNames(t, limits, scans)| + exported + report.skipped
             <==> forall m :: m in AllMembers(t, store, scans.members) ==> m.group in KeptNames(t, limits, scans))
  {
    KeysAccountedFor(t, store, limits, scans);
    NoneOutside(Elements(KeptNames(t, limits, scans)), AllMembers(t, store, scans.members));
  }

  lemma NoneOutside(groups: set<string>, members: seq<Member>)
    ensures |Filter(OutsideGroups(groups), members)| == 0 <==> forall m :: m in members ==> m.group in groups
  {
    FilterMembers(OutsideGroups(groups), members);
    FilterAll(OutsideGroups(groups), members);
    if |Filter(OutsideGroups(groups), members)| > 0 {
      var m := Filter(OutsideGroups(groups), members)[0];
      assert m in members && m.group !in groups;
    }
  }
}
