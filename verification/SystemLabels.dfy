/** Every label of the system series, spelled out over the sources: who is asked, in which order, under which key. */
module SystemLabels {
  import opened Results
  import opened Sequences
  import opened Strings
  import opened Metrics
  import opened SystemMetadata

  // ---------------------------------------------------------------- what is promised

  datatype Origin =
    | DeviceMetadata | ChassisInfo | VersionFile | MachineConf | HostnameFile
    | PlatformSummary | ShowVersion | SysEeprom

  /** What an origin answers; the commands answer nothing when they are switched off. */
  function Answer(inputs: Inputs, origin: Origin): Option<map<string, string>> {
    match origin
    case DeviceMetadata => inputs.device
    case ChassisInfo => inputs.chassis
    case VersionFile => inputs.versionFile
    case MachineConf => inputs.machineConf
    case HostnameFile => inputs.hostnameFile
    case PlatformSummary => if inputs.commandEnabled then inputs.summary else None
    case ShowVersion => if inputs.commandEnabled then inputs.showVersion else None
    case SysEeprom => if inputs.commandEnabled then inputs.eeprom else None
  }

  /** The origins of a field in the order in which they are asked, each with its own key for it. */
  function Origins(f: Field): seq<(Origin, string)> {
    match f
    case Hostname => [(DeviceMetadata, "hostname"), (HostnameFile, "hostname")]
    case Platform =>
      [(DeviceMetadata, "platform"), (MachineConf, "onie_platform"), (PlatformSummary, "platform"),
       (ShowVersion, "platform")]
    case Hwsku => [(DeviceMetadata, "hwsku"), (PlatformSummary, "hwsku"), (ShowVersion, "hwsku")]
    case Asic => [(VersionFile, "asic_type"), (PlatformSummary, "asic_type"), (ShowVersion, "asic")]
    case AsicCount => [(VersionFile, "asic_count"), (PlatformSummary, "asic_count"), (ShowVersion, "asic_count")]
    case Serial =>
      [(ChassisInfo, "serial"), (PlatformSummary, "serial"), (ShowVersion, "serial"), (SysEeprom, "serial")]
    case Model => [(ChassisInfo, "model"), (PlatformSummary, "model"), (ShowVersion, "model"), (SysEeprom, "model")]
    case Revision =>
      [(ChassisInfo, "revision"), (PlatformSummary, "revision"), (ShowVersion, "revision"), (SysEeprom, "revision")]
    case SonicVersion => [(VersionFile, "build_version"), (ShowVersion, "sonic_version")]
    case SonicOS => [(VersionFile, "sonic_os_version"), (ShowVersion, "sonic_os_version")]
    case DebianVersion => [(VersionFile, "debian_version"), (ShowVersion, "debian_version")]
    case KernelVersion => [(VersionFile, "kernel_version"), (ShowVersion, "kernel_version")]
    case BuildCommit => [(VersionFile, "commit_id"), (ShowVersion, "build_commit")]
    case BuildDate => [(VersionFile, "build_date"), (ShowVersion, "build_date")]
    case BuiltBy => [(VersionFile, "built_by"), (ShowVersion, "built_by")]
    case Branch => [(VersionFile, "branch")]
    case Release => [(VersionFile, "release")]
  }

  /** A value without the quotes at its ends and then without the white space there. */
  function Clean(raw: string): string {
    TrimSpace(Trim(raw, IsQuote))
  }

  /** Something is left of the value, and it does not stand for a missing one. */
  predicate Usable(raw: string) {
    Clean(raw) != "" && ToLower(Clean(raw)) !in {"n/a", "na", "null"}
  }

  function Said(inputs: Inputs, asked: (Origin, string)): string {
    var answer := Answer(inputs, asked.0);
    if answer.Some? && asked.1 in answer.value then answer.value[asked.1] else ""
  }

  /** The first usable value, clean, or nothing. */
  function FirstUsable(inputs: Inputs, origins: seq<(Origin, string)>): string {
    if origins == [] then ""
    else if Usable(Said(inputs, origins[0])) then Clean(Said(inputs, origins[0]))
    else FirstUsable(inputs, origins[1..])
  }

  /** The label of a field: cleaned once more, "unknown" unless usable; the ASIC in lower case, its count an integer. */
  function SystemLabel(inputs: Inputs, f: Field): string {
    var value := FirstUsable(inputs, Origins(f));
    var known := if Usable(value) then Clean(value) else "unknown";
    if f == Asic then ToLower(known) else if f == AsicCount && !IsInteger(known) then "unknown" else known
  }

  function SystemTold(inputs: Inputs): seq<Series> {
    var uptime := inputs.uptime.GetOr(0.0);
    [Series("sonic_system_identity_info",
            [SystemLabel(inputs, Hostname), SystemLabel(inputs, Platform), SystemLabel(inputs, Hwsku),
             SystemLabel(inputs, Asic), SystemLabel(inputs, AsicCount), SystemLabel(inputs, Serial),
             SystemLabel(inputs, Model), SystemLabel(inputs, Revision)], 1.0),
     Series("sonic_system_software_info",
            [SystemLabel(inputs, SonicVersion), SystemLabel(inputs, SonicOS), SystemLabel(inputs, DebianVersion),
             SystemLabel(inputs, KernelVersion), SystemLabel(inputs, BuildCommit), SystemLabel(inputs, BuildDate),
             SystemLabel(inputs, BuiltBy), SystemLabel(inputs, Branch), SystemLabel(inputs, Release)], 1.0),
     Series("sonic_system_uptime_seconds", [], if uptime < 0.0 then 0.0 else uptime)]
  }

  // ---------------------------------------------------------------- one source

  lemma NormalizeIsClean(raw: string)
    ensures Normalize(raw) == if Usable(raw) then Clean(raw) else ""
  {
  }

  /** The key under which an origin has a field, if it has one. */
  function Key(origin: Origin, f: Field): Option<string> {
    match origin
    case DeviceMetadata =>
      (match f case Hostname => Some("hostname") case Platform => Some("platform") case Hwsku => Some("hwsku")
               case _ => None)
    case ChassisInfo => IdentityKey(f)
    case VersionFile =>
      (match f case SonicVersion => Some("build_version") case SonicOS => Some("sonic_os_version")
               case DebianVersion => Some("debian_version") case KernelVersion => Some("kernel_version")
               case Asic => Some("asic_type") case AsicCount => Some("asic_count")
               case BuildCommit => Some("commit_id") case BuildDate => Some("build_date")
               case BuiltBy => Some("built_by") case Branch => Some("branch") case Release => Some("release")
               case _ => None)
    case MachineConf => if f == Platform then Some("onie_platform") else None
    case HostnameFile => if f == Hostname then Some("hostname") else None
    case PlatformSummary =>
      (match f case Platform => Some("platform") case Hwsku => Some("hwsku") case Asic => Some("asic_type")
               case AsicCount => Some("asic_count") case _ => IdentityKey(f))
    case ShowVersion =>
      (match f case SonicVersion => Some("sonic_version") case SonicOS => Some("sonic_os_version")
               case DebianVersion => Some("debian_version") case KernelVersion => Some("kernel_version")
               case BuildCommit => Some("build_commit") case BuildDate => Some("build_date")
               case BuiltBy => Some("built_by") case Platform => Some("platform") case Hwsku => Some("hwsku")
               case Asic => Some("asic") case AsicCount => Some("asic_count") case _ => IdentityKey(f))
    case SysEeprom => IdentityKey(f)
  }

  function IdentityKey(f: Field): Option<string> {
    match f
    case Serial => Some("serial")
    case Model => Some("model")
    case Revision => Some("revision")
    case _ => None
  }

  ghost predicate Has(source: Source, f: Field) {
    exists i :: 0 <= i < |source| && source[i].0 == f
  }

  /** The source asks for the field under this key, or not at all. */
  ghost predicate KeyIs(source: Source, f: Field, key: Option<string>) {
    && (forall i :: 0 <= i < |source| && source[i].0 == f ==> key == Some(source[i].1))
    && (key.Some? ==> Has(source, f))
  }

  lemma {:induction false} FirstOfSource(source: Source, f: Field, values: map<string, string>, key: Option<string>)
    requires forall i :: 0 <= i < |source| && source[i].0 == f ==> key == Some(source[i].1)
    ensures FirstFor(f, Map(OfferFrom(values), source))
         == if !Has(source, f) || key.None? then ""
            else Normalize(if key.value in values then values[key.value] else "")
  {
    if source != [] {
      var n := |source| - 1;
      var front, last := source[..n], source[n];
      FirstOfSource(front, f, values, key);
      FirstForSnoc(f, Map(OfferFrom(values), front), OfferFrom(values)(last));
      MapSnoc(OfferFrom(values), source);
      HasSnoc(source, n, f);
    }
  }

  lemma HasSnoc(source: Source, n: nat, f: Field)
    requires |source| == n + 1
    ensures Has(source, f) <==> Has(source[..n], f) || source[n].0 == f
  {
    assert forall i :: 0 <= i < n ==> source[..n][i] == source[i];
  }


  lemma DeviceMetadataKey(f: Field)
    ensures KeyIs(SYSTEM_SOURCES.device, f, Key(DeviceMetadata, f))
  {
    var source := SYSTEM_SOURCES.device;
    assert source[0].0 == Hostname && source[1].0 == Platform && source[2].0 == Hwsku;
  }

  lemma ChassisInfoKey(f: Field)
    ensures KeyIs(SYSTEM_SOURCES.chassis, f, Key(ChassisInfo, f))
  {
    var source := SYSTEM_SOURCES.chassis;
    assert source[0].0 == Serial && source[1].0 == Model && source[2].0 == Revision;
  }

  lemma VersionFileOnly(f: Field)
    ensures forall i :: 0 <= i < |SYSTEM_SOURCES.versionFile| && SYSTEM_SOURCES.versionFile[i].0 == f ==>
      Key(VersionFile, f) == Some(SYSTEM_SOURCES.versionFile[i].1)
  {
  }

  lemma VersionFileHas(f: Field)
    ensures Key(VersionFile, f).Some? ==> Has(SYSTEM_SOURCES.versionFile, f)
  {
    var source := SYSTEM_SOURCES.versionFile;
    match f
    case SonicVersion => assert source[0].0 == f;
    case SonicOS => assert source[1].0 == f;
    case DebianVersion => assert source[2].0 == f;
    case KernelVersion => assert source[3].0 == f;
    case Asic => assert source[4].0 == f;
    case AsicCount => assert source[5].0 == f;
    case BuildCommit => assert source[6].0 == f;
    case BuildDate => assert source[7].0 == f;
    case BuiltBy => assert source[8].0 == f;
    case Branch => assert source[9].0 == f;
    case Release => assert source[10].0 == f;
    case _ =>
  }

  lemma VersionFileKey(f: Field)
    ensures KeyIs(SYSTEM_SOURCES.versionFile, f, Key(VersionFile, f))
  {
    VersionFileOnly(f);
    VersionFileHas(f);
  }

  lemma MachineConfKey(f: Field)
    ensures KeyIs(SYSTEM_SOURCES.machineConf, f, Key(MachineConf, f))
  {
    var source := SYSTEM_SOURCES.machineConf;
    assert source[0].0 == Platform;
  }

  lemma HostnameFileKey(f: Field)
    ensures KeyIs(SYSTEM_SOURCES.hostnameFile, f, Key(HostnameFile, f))
  {
    var source := SYSTEM_SOURCES.hostnameFile;
    assert source[0].0 == Hostname;
  }

  lemma PlatformSummaryKey(f: Field)
    ensures KeyIs(SYSTEM_SOURCES.summary, f, Key(PlatformSummary, f))
  {
    var source := SYSTEM_SOURCES.summary;
    match f
    case Platform => assert source[0].0 == f;
    case Hwsku => assert source[1].0 == f;
    case Asic => assert source[2].0 == f;
    case AsicCount => assert source[3].0 == f;
    case Serial => assert source[4].0 == f;
    case Model => assert source[5].0 == f;
    case Revision => assert source[6].0 == f;
    case _ =>
  }

  lemma ShowVersionOnly(f: Field)
    ensures forall i :: 0 <= i < |SYSTEM_SOURCES.showVersion| && SYSTEM_SOURCES.showVersion[i].0 == f ==>
      Key(ShowVersion, f) == Some(SYSTEM_SOURCES.showVersion[i].1)
  {
  }

  lemma ShowVersionHas(f: Field)
    ensures Key(ShowVersion, f).Some? ==> Has(SYSTEM_SOURCES.showVersion, f)
  {
    var source := SYSTEM_SOURCES.showVersion;
    match f
    case SonicVersion => assert source[0].0 == f;
    case SonicOS => assert source[1].0 == f;
    case DebianVersion => assert source[2].0 == f;
    case KernelVersion => assert source[3].0 == f;
    case BuildCommit => assert source[4].0 == f;
    case BuildDate => assert source[5].0 == f;
    case BuiltBy => assert source[6].0 == f;
    case Platform => assert source[7].0 == f;
    case Hwsku => assert source[8].0 == f;
    case Asic => assert source[9].0 == f;
    case AsicCount => assert source[10].0 == f;
    case Serial => assert source[11].0 == f;
    case Model => assert source[12].0 == f;
    case Revision => assert source[13].0 == f;
    case _ =>
  }

  lemma ShowVersionKey(f: Field)
    ensures KeyIs(SYSTEM_SOURCES.showVersion, f, Key(ShowVersion, f))
  {
    ShowVersionOnly(f);
    ShowVersionHas(f);
  }

  lemma SysEepromKey(f: Field)
    ensures KeyIs(SYSTEM_SOURCES.eeprom, f, Key(SysEeprom, f))
  {
    var source := SYSTEM_SOURCES.eeprom;
    assert source[0].0 == Serial && source[1].0 == Model && source[2].0 == Revision;
  }

  // ---------------------------------------------------------------- all sources

  /** What an origin alone gives a field. */
  function Part(origin: Origin, f: Field): seq<(Origin, string)> {
    if Key(origin, f).Some? then [(origin, Key(origin, f).value)] else []
  }

  lemma SourceFirst(inputs: Inputs, origin: Origin, source: Source, f: Field)
    requires KeyIs(source, f, Key(origin, f))
    ensures FirstFor(f, OffersOf(source, Answer(inputs, origin))) == FirstUsable(inputs, Part(origin, f))
  {
    var answer, key := Answer(inputs, origin), Key(origin, f);
    OneUsable(inputs, origin, key);
    if answer.Some? {
      FirstOfSource(source, f, answer.value, key);
    }
    if key.Some? {
      NormalizeIsClean(Said(inputs, (origin, key.value)));
      NothingUsable();
    }
  }

  lemma NothingUsable()
    ensures !Usable("")
  {
    assert Trim("", IsQuote) == "" && TrimSpace("") == "";
  }

  lemma OneUsable(inputs: Inputs, origin: Origin, key: Option<string>)
    ensures key.Some? ==>
      var said := Said(inputs, (origin, key.value));
      FirstUsable(inputs, [(origin, key.value)]) == if Usable(said) then Clean(said) else ""
  {
    if key.Some? {
      assert [(origin, key.value)][1..] == [];
    }
  }

  lemma {:induction false} FirstForAppend(f: Field, a: seq<Offer>, b: seq<Offer>)
    ensures FirstFor(f, a + b) == if FirstFor(f, a) != "" then FirstFor(f, a) else FirstFor(f, b)
  {
    if a == [] {
      assert a + b == b;
    } else {
      assert (a + b)[1..] == a[1..] + b;
      FirstForAppend(f, a[1..], b);
    }
  }

  lemma {:induction false} FirstUsableAppend(inputs: Inputs, a: seq<(Origin, string)>, b: seq<(Origin, string)>)
    ensures FirstUsable(inputs, a + b)
         == if FirstUsable(inputs, a) != "" then FirstUsable(inputs, a) else FirstUsable(inputs, b)
  {
    if a == [] {
      assert a + b == b;
    } else {
      assert (a + b)[1..] == a[1..] + b;
      FirstUsableAppend(inputs, a[1..], b);
    }
  }

  /** Offers that say the same as origins. */
  ghost predicate SaySame(inputs: Inputs, f: Field, offers: seq<Offer>, origins: seq<(Origin, string)>) {
    FirstFor(f, offers) == FirstUsable(inputs, origins)
  }

  lemma SaySameAppend(inputs: Inputs, f: Field, offers: seq<Offer>, origins: seq<(Origin, string)>, source: Source,
                      origin: Origin)
    requires SaySame(inputs, f, offers, origins) && KeyIs(source, f, Key(origin, f))
    ensures SaySame(inputs, f, offers + OffersOf(source, Answer(inputs, origin)), origins + Part(origin, f))
  {
    SourceFirst(inputs, origin, source, f);
    FirstForAppend(f, offers, OffersOf(source, Answer(inputs, origin)));
    FirstUsableAppend(inputs, origins, Part(origin, f));
  }

  function StoredOrigins(f: Field): seq<(Origin, string)> {
    Part(DeviceMetadata, f) + Part(ChassisInfo, f) + Part(VersionFile, f) + Part(MachineConf, f) + Part(HostnameFile, f)
  }

  lemma StoredSaySame(inputs: Inputs, f: Field)
    ensures SaySame(inputs, f, StoredOffers(SYSTEM_SOURCES, inputs), StoredOrigins(f))
  {
    var s := SYSTEM_SOURCES;
    DeviceMetadataKey(f);
    ChassisInfoKey(f);
    VersionFileKey(f);
    MachineConfKey(f);
    HostnameFileKey(f);
    StoredInOrder(s, inputs, f);
  }

  lemma StoredInOrder(s: Sources, inputs: Inputs, f: Field)
    requires KeyIs(s.device, f, Key(DeviceMetadata, f)) && KeyIs(s.chassis, f, Key(ChassisInfo, f))
    requires KeyIs(s.versionFile, f, Key(VersionFile, f)) && KeyIs(s.machineConf, f, Key(MachineConf, f))
    requires KeyIs(s.hostnameFile, f, Key(HostnameFile, f))
    ensures SaySame(inputs, f, StoredOffers(s, inputs), StoredOrigins(f))
  {
    SourceFirst(inputs, DeviceMetadata, s.device, f);
    var offers, origins := OffersOf(s.device, inputs.device), Part(DeviceMetadata, f);
    SaySameAppend(inputs, f, offers, origins, s.chassis, ChassisInfo);
    offers, origins := offers + OffersOf(s.chassis, inputs.chassis), origins + Part(ChassisInfo, f);
    SaySameAppend(inputs, f, offers, origins, s.versionFile, VersionFile);
    offers, origins := offers + OffersOf(s.versionFile, inputs.versionFile), origins + Part(VersionFile, f);
    SaySameAppend(inputs, f, offers, origins, s.machineConf, MachineConf);
    offers, origins := offers + OffersOf(s.machineConf, inputs.machineConf), origins + Part(MachineConf, f);
    SaySameAppend(inputs, f, offers, origins, s.hostnameFile, HostnameFile);
  }

  /** The commands in order, whether or not they are switched on. */
  lemma CommandsInOrder(s: Sources, inputs: Inputs, f: Field, offers: seq<Offer>, origins: seq<(Origin, string)>)
    requires SaySame(inputs, f, offers, origins)
    requires KeyIs(s.summary, f, Key(PlatformSummary, f)) && KeyIs(s.showVersion, f, Key(ShowVersion, f))
    requires KeyIs(s.eeprom, f, Key(SysEeprom, f))
    ensures SaySame(inputs, f, (offers + CommandOffers(s, inputs)) + LateOffers(s, inputs),
                    origins + Part(PlatformSummary, f) + Part(ShowVersion, f) + Part(SysEeprom, f))
  {
    CommandsAnswer(s, inputs);
    OneByOne(s, inputs, f, offers, origins);
    Regroup(offers, OffersOf(s.summary, Answer(inputs, PlatformSummary)),
            OffersOf(s.showVersion, Answer(inputs, ShowVersion)), LateOffers(s, inputs));
  }

  lemma Regroup<T>(a: seq<T>, b: seq<T>, c: seq<T>, d: seq<T>)
    ensures (a + (b + c)) + d == a + b + c + d
  {
    assert a + (b + c) == a + b + c;
  }

  lemma OneByOne(s: Sources, inputs: Inputs, f: Field, offers: seq<Offer>, origins: seq<(Origin, string)>)
    requires SaySame(inputs, f, offers, origins)
    requires KeyIs(s.summary, f, Key(PlatformSummary, f)) && KeyIs(s.showVersion, f, Key(ShowVersion, f))
    requires KeyIs(s.eeprom, f, Key(SysEeprom, f))
    ensures SaySame(inputs, f, offers + OffersOf(s.summary, Answer(inputs, PlatformSummary))
                               + OffersOf(s.showVersion, Answer(inputs, ShowVersion))
                               + OffersOf(s.eeprom, Answer(inputs, SysEeprom)),
                    origins + Part(PlatformSummary, f) + Part(ShowVersion, f) + Part(SysEeprom, f))
  {
    SaySameAppend(inputs, f, offers, origins, s.summary, PlatformSummary);
    var more := offers + OffersOf(s.summary, Answer(inputs, PlatformSummary));
    var asked := origins + Part(PlatformSummary, f);
    SaySameAppend(inputs, f, more, asked, s.showVersion, ShowVersion);
    more, asked := more + OffersOf(s.showVersion, Answer(inputs, ShowVersion)), asked + Part(ShowVersion, f);
    SaySameAppend(inputs, f, more, asked, s.eeprom, SysEeprom);
  }

  lemma CommandsAnswer(s: Sources, inputs: Inputs)
    ensures CommandOffers(s, inputs)
         == OffersOf(s.summary, Answer(inputs, PlatformSummary)) + OffersOf(s.showVersion, Answer(inputs, ShowVersion))
    ensures LateOffers(s, inputs) == OffersOf(s.eeprom, Answer(inputs, SysEeprom))
  {
  }

  lemma AllSaySame(inputs: Inputs, f: Field)
    ensures SaySame(inputs, f, AllOffers(SYSTEM_SOURCES, inputs), ListedOrigins(f))
  {
    StoredSaySame(inputs, f);
    PlatformSummaryKey(f);
    ShowVersionKey(f);
    SysEepromKey(f);
    CommandsInOrder(SYSTEM_SOURCES, inputs, f, StoredOffers(SYSTEM_SOURCES, inputs), StoredOrigins(f));
  }

  function ListedOrigins(f: Field): seq<(Origin, string)> {
    StoredOrigins(f) + Part(PlatformSummary, f) + Part(ShowVersion, f) + Part(SysEeprom, f)
  }

  lemma IdentityListed(f: Field)
    requires f.Hostname? || f.Platform? || f.Hwsku? || f.Asic? || f.AsicCount? || f.Serial? || f.Model? || f.Revision?
    ensures Origins(f) == ListedOrigins(f)
  {
  }

  lemma VersionsListed(f: Field)
    requires f.SonicVersion? || f.SonicOS? || f.DebianVersion? || f.KernelVersion?
    ensures Origins(f) == ListedOrigins(f)
  {
  }

  lemma BuildListed(f: Field)
    requires f.BuildCommit? || f.BuildDate? || f.BuiltBy? || f.Branch? || f.Release?
    ensures Origins(f) == ListedOrigins(f)
  {
  }

  /** The origins of each field, origin by origin. */
  lemma OriginsListed(f: Field)
    ensures Origins(f) == ListedOrigins(f)
  {
    if f.Hostname? || f.Platform? || f.Hwsku? || f.Asic? || f.AsicCount? || f.Serial? || f.Model? || f.Revision? {
      IdentityListed(f);
    } else if f.SonicVersion? || f.SonicOS? || f.DebianVersion? || f.KernelVersion? {
      VersionsListed(f);
    } else {
      BuildListed(f);
    }
  }

  /** What a field holds after all sources were asked: the first usable value in the order of its origins. */
  lemma SystemValue(inputs: Inputs, f: Field)
    ensures Value(OfferedAll(map[], AllOffers(SYSTEM_SOURCES, inputs)), f) == FirstUsable(inputs, Origins(f))
  {
    FirstSourceWins(map[], AllOffers(SYSTEM_SOURCES, inputs), f);
    AllSaySame(inputs, f);
    OriginsListed(f);
  }

  lemma FinalizedIsTold(inputs: Inputs, f: Field)
    ensures Finalized(f, FirstUsable(inputs, Origins(f))) == SystemLabel(inputs, f)
  {
    NormalizeIsClean(FirstUsable(inputs, Origins(f)));
  }

  lemma LabelIsTold(inputs: Inputs, f: Field)
    ensures FinalLabel(OfferedAll(map[], AllOffers(SYSTEM_SOURCES, inputs)), f) == SystemLabel(inputs, f)
  {
    SystemValue(inputs, f);
    FinalizedIsTold(inputs, f);
  }

  function Label(inputs: Inputs): Field -> string {
    (f: Field) => SystemLabel(inputs, f)
  }

  lemma LabelsAreTold(m: Values, inputs: Inputs, fields: seq<Field>)
    requires m == OfferedAll(map[], AllOffers(SYSTEM_SOURCES, inputs))
    ensures Map(LabelOf(m), fields) == Map(Label(inputs), fields)
  {
    forall f ensures LabelOf(m)(f) == Label(inputs)(f) {
      LabelIsTold(inputs, f);
    }
    MapSame(LabelOf(m), Label(inputs), fields);
  }

  lemma SystemSeriesTold(inputs: Inputs)
    ensures SystemSeries(OfferedAll(map[], AllOffers(SYSTEM_SOURCES, inputs)), inputs.uptime.GetOr(0.0))
         == SystemTold(inputs)
  {
    var m := OfferedAll(map[], AllOffers(SYSTEM_SOURCES, inputs));
    LabelsAreTold(m, inputs, IDENTITY);
    LabelsAreTold(m, inputs, SOFTWARE);
    IdentityInOrder(Label(inputs));
    SoftwareInOrder(Label(inputs));
  }

  lemma IdentityInOrder(l: Field -> string)
    ensures Map(l, IDENTITY)
         == [l(Hostname), l(Platform), l(Hwsku), l(Asic), l(AsicCount), l(Serial), l(Model), l(Revision)]
  {
  }

  lemma SoftwareInOrder(l: Field -> string)
    ensures Map(l, SOFTWARE)
         == [l(SonicVersion), l(SonicOS), l(DebianVersion), l(KernelVersion), l(BuildCommit), l(BuildDate), l(BuiltBy),
             l(Branch), l(Release)]
  {
  }

  /** One refresh of the exporter; it cannot fail. */
  method ScrapeSystem(inputs: Inputs, filter: MetricFilter) returns (metrics: seq<Series>)
    ensures metrics == filter.Keep(SystemTold(inputs))
  {
    SystemEepromIdentityOnly();
    metrics := ScrapeSources(SYSTEM_SOURCES, inputs, filter);
    SystemSeriesTold(inputs);
  }

  /** A platform in DEVICE_METADATA is kept, whatever machine.conf and the commands say. */
  lemma DeviceBeforeMachineConf(inputs: Inputs)
    requires inputs.device == Some(map["platform" := "A"]) && inputs.machineConf == Some(map["onie_platform" := "B"])
    ensures SystemLabel(inputs, Platform) == "A"
  {
    LetterIsUsable("A");
    assert Said(inputs, Origins(Platform)[0]) == "A";
  }

  lemma LetterIsUsable(letter: string)
    requires |letter| == 1 && 'A' <= letter[0] <= 'Z'
    ensures Clean(letter) == letter && Usable(letter)
  {
    TrimProperties(letter, IsQuote);
    TrimProperties(letter, IsSpace);
    assert |ToLower(letter)| == 1;
  }
}
