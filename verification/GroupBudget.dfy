/**
 * Groups (VLANs, LAGs) with members, exported under two nested budgets: at most `maxGroups` groups and, over all
 * exported groups together, at most `maxMembers` members. The VLAN and LAG collectors differ only in their tables.
 */
module GroupBudget {
  import opened Results
  import opened Sequences
  import opened Strings
  import opened Sorting
  import opened Redis
  import opened Metrics

  datatype Member = Member(group: string, name: string, detail: string)

  datatype Tables = Tables(
    configPrefix: string,
    applPrefix: string,
    memberDb: Db,
    memberPrefix: string,
    separator: char,
    detail: Fields -> string,
    heading: (string, Fields, Fields) -> seq<Series>,
    memberSeries: Member -> Series,
    countFamily: string)

  datatype Limits = Limits(maxGroups: nat, maxMembers: nat)

  datatype Report = Report(series: seq<Series>, skipped: nat) {
    function Filtered(filter: MetricFilter): Report {
      Report(filter.Keep(series), skipped)
    }
  }

  // ---------------------------------------------------------------- reading keys

  /** Group and member name of a member key; both must be non-empty. */
  function ParseMember(t: Tables, key: string): Option<(string, string)> {
    match Suffix(key, t.memberPrefix)
    case None => None
    case Some(path) =>
      match Cut(path, t.separator)
      case None => None
      case Some(pair) => if pair.0 == "" || pair.1 == "" then None else Some(pair)
  }

  function IsMemberKey(t: Tables): string -> bool {
    (key: string) => ParseMember(t, key).Some?
  }

  function NotMemberKey(t: Tables): string -> bool {
    (key: string) => ParseMember(t, key).None?
  }

  function Malformed(prefix: string): string -> bool {
    (key: string) => Suffix(key, prefix).None?
  }

  /** The member a key stands for, with what its hash says about it. */
  function MemberAt(t: Tables, store: Store, key: string): Member {
    match ParseMember(t, key)
    case Some(pair) => Member(pair.0, pair.1, t.detail(store.Hash(t.memberDb, key)))
    case None => Member("", "", "")
  }

  function ToMember(t: Tables, store: Store): string -> Member {
    (key: string) => MemberAt(t, store, key)
  }

  function InGroup(group: string): Member -> bool {
    (m: Member) => m.group == group
  }

  function MemberName(m: Member): string {
    m.name
  }

  // ---------------------------------------------------------------- specification

  function NameSet(prefix: string, keys: seq<string>): set<string> {
    set key | key in keys && Suffix(key, prefix).Some? :: Suffix(key, prefix).value
  }

  function AllMembers(t: Tables, store: Store, keys: seq<string>): seq<Member> {
    Map(ToMember(t, store), Filter(IsMemberKey(t), keys))
  }

  function MembersOf(t: Tables, store: Store, keys: seq<string>, group: string): seq<Member> {
    Sort(MemberName, Filter(InGroup(group), AllMembers(t, store, keys)))
  }

  function MemberLister(t: Tables, store: Store, keys: seq<string>): string -> seq<Member> {
    (group: string) => MembersOf(t, store, keys, group)
  }

  /** The three key lists a refresh starts from. */
  datatype Scans = Scans(config: seq<string>, appl: seq<string>, members: seq<string>)

  function ScansOf(t: Tables, store: Store): Scans {
    Scans(store.Keys(CONFIG_DB, t.configPrefix + "*"),
          store.Keys(APPL_DB, t.applPrefix + "*"),
          store.Keys(t.memberDb, t.memberPrefix + "*"))
  }

  ghost function Names(t: Tables, scans: Scans): seq<string> {
    SortedSet(NameSet(t.configPrefix, scans.config) + NameSet(t.applPrefix, scans.appl))
  }

  /** The exported groups: the first `maxGroups` names. */
  ghost function KeptNames(t: Tables, limits: Limits, scans: Scans): seq<string> {
    Take(Names(t, scans), limits.maxGroups)
  }

  ghost function KeptGroups(t: Tables, store: Store, limits: Limits, scans: Scans): seq<seq<Member>> {
    Map(MemberLister(t, store, scans.members), KeptNames(t, limits, scans))
  }

  /** What is left of the member budget for group `i`, at most the size of the group. */
  function Allotted<T>(groups: seq<seq<T>>, budget: nat, i: nat): nat
    requires i < |groups|
  {
    Min(|groups[i]|, Monus(budget, |Flatten(groups[..i])|))
  }

  function Section(t: Tables, store: Store, name: string, exported: seq<Member>): seq<Series> {
    t.heading(name, store.Hash(CONFIG_DB, t.configPrefix + name), store.Hash(APPL_DB, t.applPrefix + name))
    + Map(t.memberSeries, exported)
    + [Series(t.countFamily, [name], |exported| as real)]
  }

  /** The sections of the first `n` exported groups. */
  function Sections(t: Tables, store: Store, budget: nat, names: seq<string>, groups: seq<seq<Member>>,
                    n: nat): seq<Series>
    requires n <= |names| && n <= |groups|
  {
    if n == 0 then []
    else
      Sections(t, store, budget, names, groups, n - 1)
      + Section(t, store, names[n - 1], groups[n - 1][..Allotted(groups, budget, n - 1)])
  }

  ghost function MalformedCount(t: Tables, scans: Scans): nat {
    |Filter(Malformed(t.configPrefix), scans.config)|
    + |Filter(Malformed(t.applPrefix), scans.appl)|
    + |Filter(NotMemberKey(t), scans.members)|
  }

  ghost function ReportOf(t: Tables, store: Store, limits: Limits, scans: Scans): Report {
    var names := KeptNames(t, limits, scans);
    var groups := KeptGroups(t, store, limits, scans);
    Report(Sections(t, store, limits.maxMembers, names, groups, |names|),
           MalformedCount(t, scans)
           + (|Names(t, scans)| - |names|)
           + Monus(|Flatten(groups)|, limits.maxMembers))
  }

  predicate MemberReadable(t: Tables, store: Store, key: string) {
    ParseMember(t, key).Some? ==> store.Readable(HGetAll(t.memberDb, key))
  }

  predicate GroupReadable(t: Tables, store: Store, name: string) {
    store.Readable(HGetAll(CONFIG_DB, t.configPrefix + name)) && store.Readable(HGetAll(APPL_DB, t.applPrefix + name))
  }

  function MemberReads(t: Tables, store: Store): string -> bool {
    (key: string) => MemberReadable(t, store, key)
  }

  function GroupReads(t: Tables, store: Store): string -> bool {
    (name: string) => GroupReadable(t, store, name)
  }

  predicate ScansReadable(t: Tables, store: Store) {
    && store.Readable(Scan(CONFIG_DB, t.configPrefix + "*"))
    && store.Readable(Scan(APPL_DB, t.applPrefix + "*"))
    && store.Readable(Scan(t.memberDb, t.memberPrefix + "*"))
  }

  /** Every request of one refresh is answered: the scans, each well-formed member, each exported group. */
  ghost predicate Complete(t: Tables, store: Store, limits: Limits) {
    var scans := ScansOf(t, store);
    && ScansReadable(t, store)
    && Every(MemberReads(t, store), scans.members)
    && Every(GroupReads(t, store), KeptNames(t, limits, scans))
  }

  // ---------------------------------------------------------------- the refresh

  /** Adds the well-formed names of one table to the union and counts the malformed keys. */
  method AddNames(prefix: string, keys: seq<string>, names: set<string>, skipped: nat)
    returns (names': set<string>, skipped': nat)
    requires prefix != ""
    ensures names' == names + NameSet(prefix, keys)
    ensures skipped' == skipped + |Filter(Malformed(prefix), keys)|
  {
    names', skipped' := names, skipped;
    for i := 0 to |keys|
      invariant names' == names + NameSet(prefix, keys[..i])
      invariant skipped' == skipped + |Filter(Malformed(prefix), keys[..i])|
    {
      TakeSnoc(keys, i);
      TrimPrefixIsSuffix(keys[i], prefix);
      var name := TrimPrefix(keys[i], prefix);
      if name == "" || name == keys[i] {
        skipped' := skipped' + 1;
      } else {
        names' := names' + {name};
      }
    }
    assert keys[..|keys|] == keys;
  }

  function Listed(byGroup: map<string, seq<Member>>, group: string): seq<Member> {
    if group in byGroup then byGroup[group] else []
  }

  function AddMember(byGroup: map<string, seq<Member>>, m: Member): map<string, seq<Member>> {
    byGroup[m.group := Listed(byGroup, m.group) + [m]]
  }

  function ByGroup(members: seq<Member>): map<string, seq<Member>> {
    if members == [] then map[] else AddMember(ByGroup(members[..|members| - 1]), members[|members| - 1])
  }

  lemma {:induction false} ByGroupLists(members: seq<Member>, group: string)
    ensures Listed(ByGroup(members), group) == Filter(InGroup(group), members)
  {
    if members != [] {
      ByGroupLists(members[..|members| - 1], group);
    }
  }

  /** One more key: one more member or one more malformed key. */
  lemma MemberStep(t: Tables, store: Store, keys: seq<string>, i: nat)
    requires i < |keys|
    ensures ParseMember(t, keys[i]).Some? ==>
      && ByGroup(AllMembers(t, store, keys[..i + 1]))
          == AddMember(ByGroup(AllMembers(t, store, keys[..i])), MemberAt(t, store, keys[i]))
      && |Filter(NotMemberKey(t), keys[..i + 1])| == |Filter(NotMemberKey(t), keys[..i])|
    ensures ParseMember(t, keys[i]).None? ==>
      && AllMembers(t, store, keys[..i + 1]) == AllMembers(t, store, keys[..i])
      && |Filter(NotMemberKey(t), keys[..i + 1])| == |Filter(NotMemberKey(t), keys[..i])| + 1
  {
    TakeSnoc(keys, i);
    var valid := Filter(IsMemberKey(t), keys[..i]);
    assert (valid + [keys[i]])[..|valid|] == valid;
    var members := AllMembers(t, store, keys[..i]);
    assert (members + [MemberAt(t, store, keys[i])])[..|members|] == members;
  }

  /** The grouping after the keys in `seen`. */
  ghost predicate Grouped(t: Tables, store: Store, seen: seq<string>, byGroup: map<string, seq<Member>>,
                          malformed: nat) {
    && byGroup == ByGroup(AllMembers(t, store, seen))
    && malformed == |Filter(NotMemberKey(t), seen)|
    && Every(MemberReads(t, store), seen)
  }

  /** The body of the grouping loop. */
  method GroupNext(t: Tables, store: Store, keys: seq<string>, i: nat, byGroup: map<string, seq<Member>>,
                   ghost malformed: nat)
    returns (failed: Option<Request>, byGroup': map<string, seq<Member>>, bad: bool)
    requires i < |keys| && Grouped(t, store, keys[..i], byGroup, malformed)
    ensures failed.Some? ==> !store.Readable(failed.value) && !MemberReads(t, store)(keys[i])
    ensures failed.None? ==> Grouped(t, store, keys[..i + 1], byGroup', malformed + if bad then 1 else 0)
  {
    failed, byGroup', bad := None, byGroup, false;
    TakeSnoc(keys, i);
    MemberStep(t, store, keys, i);
    var parsed := ParseMember(t, keys[i]);
    if parsed.None? {
      bad := true;
    } else {
      var fields := store.ReadHash(t.memberDb, keys[i]);
      if fields.Failure? {
        failed := Some(fields.error);
      } else {
        byGroup' := AddMember(byGroup, Member(parsed.value.0, parsed.value.1, t.detail(fields.value)));
      }
    }
  }

  /** Groups the members by their parent, in scan order, reading each member's hash. */
  method GroupMembers(t: Tables, store: Store, keys: seq<string>, skipped: nat)
    returns (outcome: Result<map<string, seq<Member>>, Request>, skipped': nat)
    ensures outcome.Success? ==>
      && outcome.value == ByGroup(AllMembers(t, store, keys))
      && skipped' == skipped + |Filter(NotMemberKey(t), keys)|
      && Every(MemberReads(t, store), keys)
    ensures outcome.Failure? ==>
      && !store.Readable(outcome.error)
      && !Every(MemberReads(t, store), keys)
  {
    skipped' := skipped;
    var byGroup: map<string, seq<Member>> := map[];
    for i := 0 to |keys|
      invariant skipped <= skipped' && Grouped(t, store, keys[..i], byGroup, skipped' - skipped)
    {
      var failed, byGroup', bad := GroupNext(t, store, keys, i, byGroup, skipped' - skipped);
      if failed.Some? {
        EveryFails(MemberReads(t, store), keys, i);
        return Failure(failed.value), skipped';
      }
      byGroup := byGroup';
      if bad {
        skipped' := skipped' + 1;
      }
    }
    assert keys[..|keys|] == keys;
    outcome := Success(byGroup);
  }

  /** An unstable sort by member name: the order of members with equal names is not promised. */
  method SortMembers(members: seq<Member>) returns (sorted: seq<Member>)
    ensures multiset(sorted) == multiset(members)
    ensures Sorted(MemberName, sorted)
  {
    SortProperties(MemberName, members);
    sorted := Sort(MemberName, members);
  }

  /** Whatever a sort by member name makes of `members`, it is `sorted`. */
  ghost predicate SortsTo(members: seq<Member>, sorted: seq<Member>) {
    forall s :: multiset(s) == multiset(members) && Sorted(MemberName, s) ==> s == sorted
  }

  /** The inner loop: the members of one group, as far as the shared budget reaches. */
  method EmitMembers(t: Tables, maxMembers: nat, filter: MetricFilter, members: seq<Member>,
                     metrics: seq<Series>, processed: nat, skipped: nat)
    returns (metrics': seq<Series>, processed': nat, skipped': nat, count: nat)
    requires processed <= maxMembers
    ensures count == Min(|members|, maxMembers - processed)
    ensures processed' == processed + count
    ensures skipped' == skipped + (|members| - count)
    ensures metrics' == metrics + filter.Keep(Map(t.memberSeries, members[..count]))
  {
    metrics', processed', skipped', count := metrics, processed, skipped, 0;
    for j := 0 to |members|
      invariant count == Min(j, maxMembers - processed)
      invariant processed' == processed + count
      invariant skipped' == skipped + (j - count)
      invariant metrics' == metrics + filter.Keep(Map(t.memberSeries, members[..count]))
    {
      if processed' >= maxMembers {
        skipped' := skipped' + 1;
        continue;
      }
      TakeSnoc(members, j);
      metrics' := filter.Emit(metrics', t.memberSeries(members[j]));
      processed' := processed' + 1;
      count := count + 1;
    }
  }

  /** One group: its heading, its members, its member gauge. */
  method EmitGroup(t: Tables, maxMembers: nat, filter: MetricFilter, store: Store, name: string, listed: seq<Member>,
                   metrics: seq<Series>, processed: nat, skipped: nat, ghost sorted: seq<Member>)
    returns (failed: Option<Request>, metrics': seq<Series>, processed': nat, skipped': nat)
    requires processed <= maxMembers
    requires SortsTo(listed, sorted)
    ensures failed.Some? ==> !store.Readable(failed.value) && !GroupReadable(t, store, name)
    ensures failed.None? ==>
      var count := Min(|sorted|, maxMembers - processed);
      && GroupReadable(t, store, name)
      && metrics' == metrics + filter.Keep(Section(t, store, name, sorted[..count]))
      && processed' == processed + count
      && skipped' == skipped + (|sorted| - count)
  {
    metrics', processed', skipped' := metrics, processed, skipped;
    var configData := store.ReadHash(CONFIG_DB, t.configPrefix + name);
    if configData.Failure? {
      return Some(configData.error), metrics', processed', skipped';
    }
    var applData := store.ReadHash(APPL_DB, t.applPrefix + name);
    if applData.Failure? {
      return Some(applData.error), metrics', processed', skipped';
    }
    var heading := t.heading(name, configData.value, applData.value);
    metrics' := metrics' + filter.Keep(heading);
    var members := SortMembers(listed);
    var count;
    metrics', processed', skipped', count := EmitMembers(t, maxMembers, filter, members, metrics', processed',
                                                         skipped');
    var gauge := Series(t.countFamily, [name], count as real);
    metrics' := filter.Emit(metrics', gauge);
    KeepSection(filter, metrics, heading, Map(t.memberSeries, members[..count]), gauge);
    failed := None;
  }

  lemma KeepSection(filter: MetricFilter, before: seq<Series>, heading: seq<Series>, infos: seq<Series>, gauge: Series)
    ensures filter.Emit(before + filter.Keep(heading) + filter.Keep(infos), gauge)
         == before + filter.Keep(heading + infos + [gauge])
  {
    filter.KeepAppend(heading, infos);
    filter.EmitKeeps(heading + infos, gauge);
  }

  /** What the loop has emitted after `done` groups. */
  ghost function Emitted(t: Tables, store: Store, filter: MetricFilter, budget: nat, names: seq<string>,
                         groups: seq<seq<Member>>, done: nat): seq<Series>
    requires done <= |groups| <= |names|
  {
    filter.Keep(Sections(t, store, budget, names, groups, done))
  }

  lemma GroupStep(t: Tables, store: Store, filter: MetricFilter, budget: nat, names: seq<string>,
                  groups: seq<seq<Member>>, i: nat)
    requires i < |groups| <= |names|
    ensures |Flatten(groups[..i + 1])| == |Flatten(groups[..i])| + |groups[i]|
    ensures Allotted(groups, budget, i) == Min(|groups[i]|, budget - Min(|Flatten(groups[..i])|, budget))
    ensures filter.Keep(Sections(t, store, budget, names, groups, i + 1))
         == filter.Keep(Sections(t, store, budget, names, groups, i))
            + filter.Keep(Section(t, store, names[i], groups[i][..Allotted(groups, budget, i)]))
    ensures Every(GroupReads(t, store), names[..i + 1])
       <==> Every(GroupReads(t, store), names[..i]) && GroupReadable(t, store, names[i])
  {
    TakeSnoc(groups, i);
    TakeSnoc(names, i);
    filter.KeepAppend(Sections(t, store, budget, names, groups, i),
                      Section(t, store, names[i], groups[i][..Allotted(groups, budget, i)]));
  }

  /** The body of the group loop: the next group, with the part of the member budget that is left. */
  method NextGroup(t: Tables, maxMembers: nat, filter: MetricFilter, store: Store, names: seq<string>,
                   listed: seq<Member>, metrics: seq<Series>, processed: nat, skipped: nat,
                   ghost groups: seq<seq<Member>>, i: nat, ghost used: nat)
    returns (failed: Option<Request>, metrics': seq<Series>, processed': nat, skipped': nat)
    requires i < |groups| <= |names| && SortsTo(listed, groups[i])
    requires used == |Flatten(groups[..i])| && processed == Min(used, maxMembers)
    requires metrics == Emitted(t, store, filter, maxMembers, names, groups, i)
         && Every(GroupReads(t, store), names[..i])
    ensures failed.Some? ==> !store.Readable(failed.value) && !GroupReads(t, store)(names[i])
    ensures failed.None? ==>
      && Every(GroupReads(t, store), names[..i + 1])
      && used + |groups[i]| == |Flatten(groups[..i + 1])|
      && processed' == Min(used + |groups[i]|, maxMembers)
      && metrics' == Emitted(t, store, filter, maxMembers, names, groups, i + 1)
      && skipped' == skipped + (Monus(used + |groups[i]|, maxMembers) - Monus(used, maxMembers))
  {
    GroupStep(t, store, filter, maxMembers, names, groups, i);
    failed, metrics', processed', skipped' :=
      EmitGroup(t, maxMembers, filter, store, names[i], listed, metrics, processed, skipped, groups[i]);
  }

  /** All groups in ascending order, as far as the group budget reaches. */
  method EmitGroups(t: Tables, limits: Limits, filter: MetricFilter, store: Store,
                    names: seq<string>, byGroup: map<string, seq<Member>>, malformed: nat,
                    ghost groups: seq<seq<Member>>)
    returns (outcome: Result<Report, Request>)
    requires |groups| == Min(|names|, limits.maxGroups)
    requires forall i :: 0 <= i < |groups| ==> SortsTo(Listed(byGroup, names[i]), groups[i])
    ensures outcome.Success? ==>
      && Every(GroupReads(t, store), names[..|groups|])
      && outcome.value.series == filter.Keep(Sections(t, store, limits.maxMembers, names, groups, |groups|))
      && outcome.value.skipped == malformed + (|names| - |groups|) + Monus(|Flatten(groups)|, limits.maxMembers)
    ensures outcome.Failure? ==>
      && !store.Readable(outcome.error)
      && !Every(GroupReads(t, store), names[..|groups|])
  {
    var metrics: seq<Series> := [];
    var processedGroups, processedMembers, skipped := 0, 0, malformed;
    ghost var used := 0;
    for i := 0 to |names|
      invariant processedGroups == Min(i, limits.maxGroups)
      invariant used == |Flatten(groups[..processedGroups])|
      invariant processedMembers == Min(used, limits.maxMembers)
      invariant skipped == malformed + (i - processedGroups) + Monus(used, limits.maxMembers)
      invariant metrics == Emitted(t, store, filter, limits.maxMembers, names, groups, processedGroups)
      invariant Every(GroupReads(t, store), names[..processedGroups])
    {
      if processedGroups >= limits.maxGroups {
        skipped := skipped + 1;
        continue;
      }
      var failed;
      failed, metrics, processedMembers, skipped :=
        NextGroup(t, limits.maxMembers, filter, store, names, Listed(byGroup, names[i]), metrics, processedMembers,
                  skipped, groups, i, used);
      if failed.Some? {
        EveryFails(GroupReads(t, store), names[..|groups|], i);
        return Failure(failed.value);
      }
      used := used + |groups[i]|;
      processedGroups := processedGroups + 1;
    }
    assert groups[..|groups|] == groups;
    outcome := Success(Report(metrics, skipped));
  }

  /** The three scans. */
  method ScanTables(t: Tables, store: Store) returns (outcome: Result<Scans, Request>)
    ensures store.Answers(ScansReadable(t, store), ScansOf(t, store), outcome)
  {
    var configKeys := store.ScanKeys(CONFIG_DB, t.configPrefix + "*");
    if configKeys.Failure? {
      return Failure(configKeys.error);
    }
    var applKeys := store.ScanKeys(APPL_DB, t.applPrefix + "*");
    if applKeys.Failure? {
      return Failure(applKeys.error);
    }
    var memberKeys := store.ScanKeys(t.memberDb, t.memberPrefix + "*");
    if memberKeys.Failure? {
      return Failure(memberKeys.error);
    }
    outcome := Success(Scans(configKeys.value, applKeys.value, memberKeys.value));
  }

  /** The union of the names of the two tables in ascending order. */
  method CollectNames(t: Tables, scans: Scans) returns (names: seq<string>, skipped: nat)
    requires t.configPrefix != "" && t.applPrefix != ""
    ensures names == Names(t, scans)
    ensures skipped == |Filter(Malformed(t.configPrefix), scans.config)| + |Filter(Malformed(t.applPrefix), scans.appl)|
  {
    var found: set<string>;
    found, skipped := AddNames(t.configPrefix, scans.config, {}, 0);
    found, skipped := AddNames(t.applPrefix, scans.appl, found, skipped);
    assert found == NameSet(t.configPrefix, scans.config) + NameSet(t.applPrefix, scans.appl);
    names := SortedKeys(found);
  }

  /** One refresh: the report of the tables with the disabled families deleted, or the request that failed. */
  method Scrape(t: Tables, limits: Limits, filter: MetricFilter, store: Store)
    returns (outcome: Result<Report, Request>)
    requires t.configPrefix != "" && t.applPrefix != ""
    ensures store.Answers(Complete(t, store, limits), ReportOf(t, store, limits, ScansOf(t, store)).Filtered(filter),
                          outcome)
  {
    var scanned := ScanTables(t, store);
    if scanned.Failure? {
      return Failure(scanned.error);
    }
    var scans := scanned.value;
    var names, skipped := CollectNames(t, scans);
    var byGroup;
    byGroup, skipped := GroupMembers(t, store, scans.members, skipped);
    if byGroup.Failure? {
      return Failure(byGroup.error);
    }
    ghost var groups := KeptGroups(t, store, limits, scans);
    GroupsForced(t, store, limits, scans);
    outcome := EmitGroups(t, limits, filter, store, names, byGroup.value, skipped, groups);
    SectionsPrefix(t, store, limits.maxMembers, names, |groups|, groups, |groups|);
  }

  /** Only the exported names matter for the sections. */
  lemma {:induction false} SectionsPrefix(t: Tables, store: Store, budget: nat, names: seq<string>, kept: nat,
                                          groups: seq<seq<Member>>, n: nat)
    requires n <= |groups| && n <= kept <= |names|
    ensures Sections(t, store, budget, names[..kept], groups, n) == Sections(t, store, budget, names, groups, n)
  {
    if n > 0 {
      SectionsPrefix(t, store, budget, names, kept, groups, n - 1);
    }
  }

  // ---------------------------------------------------------------- the unstable sort has no choice

  /** A member key is determined by its group and member name. */
  lemma MemberKeyParts(t: Tables, key: string)
    requires ParseMember(t, key).Some?
    ensures var pair := ParseMember(t, key).value;
            key == t.memberPrefix + (pair.0 + [t.separator] + pair.1)
  {
    SuffixProperties(key, t.memberPrefix);
    CutProperties(Suffix(key, t.memberPrefix).value, t.separator);
  }

  lemma SameMember(t: Tables, store: Store, a: string, b: string)
    requires ParseMember(t, a).Some? && ParseMember(t, b).Some?
    requires MemberAt(t, store, a).group == MemberAt(t, store, b).group
    requires MemberAt(t, store, a).name == MemberAt(t, store, b).name
    ensures MemberAt(t, store, a) == MemberAt(t, store, b)
  {
    MemberKeyParts(t, a);
    MemberKeyParts(t, b);
  }

  lemma MemberSource(t: Tables, store: Store, keys: seq<string>, m: Member) returns (key: string)
    requires m in AllMembers(t, store, keys)
    ensures key in keys && ParseMember(t, key).Some? && m == MemberAt(t, store, key)
  {
    var valid := Filter(IsMemberKey(t), keys);
    FilterMembers(IsMemberKey(t), keys);
    var i :| 0 <= i < |valid| && Map(ToMember(t, store), valid)[i] == m;
    key := valid[i];
    assert key in valid;
  }

  /** Two members of one group with the same name come from the same key, so they are the same member. */
  lemma NameDetermines(t: Tables, store: Store, keys: seq<string>, group: string)
    ensures KeyDetermines(MemberName, Filter(InGroup(group), AllMembers(t, store, keys)))
  {
    var members := AllMembers(t, store, keys);
    var mine := Filter(InGroup(group), members);
    FilterMembers(InGroup(group), members);
    forall x, y | x in mine && y in mine && MemberName(x) == MemberName(y) ensures x == y {
      var a := MemberSource(t, store, keys, x);
      var b := MemberSource(t, store, keys, y);
      SameMember(t, store, a, b);
    }
  }

  lemma SortIsForced(t: Tables, store: Store, keys: seq<string>, group: string)
    ensures SortsTo(Filter(InGroup(group), AllMembers(t, store, keys)), MembersOf(t, store, keys, group))
  {
    var members := Filter(InGroup(group), AllMembers(t, store, keys));
    SortProperties(MemberName, members);
    NameDetermines(t, store, keys, group);
    var sorted := MembersOf(t, store, keys, group);
    PermutationLength(sorted, members);
    forall s | multiset(s) == multiset(members) && Sorted(MemberName, s) ensures s == sorted {
      SortedUnique(MemberName, sorted, s);
    }
  }

  lemma GroupsForced(t: Tables, store: Store, limits: Limits, scans: Scans)
    ensures var kept := KeptNames(t, limits, scans);
            var groups := KeptGroups(t, store, limits, scans);
            var byGroup := ByGroup(AllMembers(t, store, scans.members));
            |groups| == |kept| && forall i :: 0 <= i < |groups| ==> SortsTo(Listed(byGroup, kept[i]), groups[i])
  {
    var kept := KeptNames(t, limits, scans);
    var groups := KeptGroups(t, store, limits, scans);
    forall i | 0 <= i < |groups|
      ensures SortsTo(Listed(ByGroup(AllMembers(t, store, scans.members)), kept[i]), groups[i])
    {
      ByGroupLists(AllMembers(t, store, scans.members), kept[i]);
      SortIsForced(t, store, scans.members, kept[i]);
    }
  }
}
