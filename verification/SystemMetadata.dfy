/** The system collector's metadata: values offered by a chain of sources, the first usable one wins. */
module SystemMetadata {
  import opened Results
  import opened Sequences
  import opened Strings
  import opened Metrics

  // ---------------------------------------------------------------- normalisation

  predicate IsQuote(c: char) {
    c == '\'' || c == '"'
  }

  /** Values that stand for a missing one. */
  predicate StandsForMissing(s: string) {
    ToLower(s) in {"n/a", "na", "null"}
  }

  function Stripped(value: string): string {
    TrimSpace(Trim(value, IsQuote))
  }

  function Normalize(value: string): string {
    var s := Stripped(value);
    if s == "" || StandsForMissing(s) then "" else s
  }

  /** Normalising again changes nothing exactly when the result has no quote at either end. */
  lemma NormalizeTwice(value: string)
    ensures var once := Normalize(value);
            Normalize(once) == once <==> Bare(once, IsQuote)
  {
    var once := Normalize(value);
    TrimProperties(Trim(value, IsQuote), IsSpace);
    TrimProperties(once, IsQuote);
    TrimProperties(Trim(once, IsQuote), IsSpace);
    if Bare(once, IsQuote) {
      TrimProperties(once, IsSpace);
      if once == "" {
        assert Bare("", IsSpace);
        TrimProperties("", IsSpace);
      }
    }
  }

  lemma NormalizedShape(value: string)
    ensures Normalize(value) == "" || (Bare(Normalize(value), IsSpace) && !StandsForMissing(Normalize(value)))
    ensures |Normalize(value)| <= |value|
  {
    TrimProperties(value, IsQuote);
    TrimProperties(Trim(value, IsQuote), IsSpace);
  }

  // ---------------------------------------------------------------- fields and offers

  datatype Field =
    | Hostname | Platform | Hwsku | Asic | AsicCount | Serial | Model | Revision
    | SonicVersion | SonicOS | DebianVersion | KernelVersion | BuildCommit | BuildDate | BuiltBy | Branch | Release

  /** The string fields of the metadata; a field that is not in the map is still empty. */
  type Values = map<Field, string>

  function Value(m: Values, f: Field): string {
    if f in m then m[f] else ""
  }

  /** A raw value that a source has for a field. */
  datatype Offer = Offer(field: Field, raw: string)

  function Offered(m: Values, o: Offer): Values {
    if Normalize(o.raw) != "" && Value(m, o.field) == "" then m[o.field := Normalize(o.raw)] else m
  }

  function OfferedAll(m: Values, offers: seq<Offer>): Values {
    if offers == [] then m else Offered(OfferedAll(m, offers[..|offers| - 1]), offers[|offers| - 1])
  }

  /** The normalised value of the first offer for the field that has one. */
  function FirstFor(f: Field, offers: seq<Offer>): string {
    if offers == [] then ""
    else if offers[0].field == f && Normalize(offers[0].raw) != "" then Normalize(offers[0].raw)
    else FirstFor(f, offers[1..])
  }

  lemma {:induction false} FirstForSnoc(f: Field, offers: seq<Offer>, o: Offer)
    ensures FirstFor(f, offers + [o])
         == if FirstFor(f, offers) != "" then FirstFor(f, offers) else if o.field == f then Normalize(o.raw) else ""
  {
    if offers != [] {
      assert (offers + [o])[1..] == offers[1..] + [o];
      FirstForSnoc(f, offers[1..], o);
    }
  }

  lemma OfferedValue(m: Values, o: Offer, f: Field)
    ensures Value(Offered(m, o), f)
         == if Value(m, f) != "" then Value(m, f) else if o.field == f then Normalize(o.raw) else ""
  {
  }

  lemma OfferedSnoc(m: Values, front: seq<Offer>, o: Offer, f: Field)
    ensures var before := Value(OfferedAll(m, front), f);
            Value(OfferedAll(m, front + [o]), f)
            == if before != "" then before else if o.field == f then Normalize(o.raw) else ""
  {
    assert (front + [o])[..|front|] == front;
    OfferedValue(OfferedAll(m, front), o, f);
  }

  /**
   * First source wins: each field holds the first usable value offered for it, in call order, unless it was set before.
   */
  lemma {:induction false} FirstSourceWins(m: Values, offers: seq<Offer>, f: Field)
    ensures Value(OfferedAll(m, offers), f) == if Value(m, f) != "" then Value(m, f) else FirstFor(f, offers)
    decreases |offers|
  {
    if offers == [] {
    } else {
      var front, last := offers[..|offers| - 1], offers[|offers| - 1];
      assert offers == front + [last];
      FirstSourceWins(m, front, f);
      OfferedSnoc(m, front, last, f);
      FirstForSnoc(f, front, last);
    }
  }

  lemma {:induction false} OfferedAppend(m: Values, a: seq<Offer>, b: seq<Offer>)
    ensures OfferedAll(m, a + b) == OfferedAll(OfferedAll(m, a), b)
  {
    if b == [] {
      assert a + b == a;
    } else {
      assert (a + b)[..|a + b| - 1] == a + b[..|b| - 1];
      OfferedAppend(m, a, b[..|b| - 1]);
    }
  }

  /** Sources that only have values for fields already set change nothing, whatever they say. */
  lemma {:induction false} SetFieldsStay(m: Values, offers: seq<Offer>)
    requires forall i :: 0 <= i < |offers| ==> Value(m, offers[i].field) != ""
    ensures OfferedAll(m, offers) == m
  {
    if offers != [] {
      SetFieldsStay(m, offers[..|offers| - 1]);
    }
  }

  // ---------------------------------------------------------------- sources

  /** A source: which of its values goes to which field, in call order. */
  type Source = seq<(Field, string)>

  function OfferFrom(values: map<string, string>): ((Field, string)) -> Offer {
    (entry: (Field, string)) => Offer(entry.0, if entry.1 in values then values[entry.1] else "")
  }

  /** A source that cannot be read offers nothing. */
  function OffersOf(source: Source, values: Option<map<string, string>>): seq<Offer> {
    if values.None? then [] else Map(OfferFrom(values.value), source)
  }

  datatype Sources = Sources(device: Source, chassis: Source, versionFile: Source, machineConf: Source,
                             hostnameFile: Source, summary: Source, showVersion: Source, eeprom: Source)

  const SYSTEM_SOURCES := Sources(
    [(Hostname, "hostname"), (Platform, "platform"), (Hwsku, "hwsku")],
    [(Serial, "serial"), (Model, "model"), (Revision, "revision")],
    [(SonicVersion, "build_version"), (SonicOS, "sonic_os_version"), (DebianVersion, "debian_version"),
     (KernelVersion, "kernel_version"), (Asic, "asic_type"), (AsicCount, "asic_count"), (BuildCommit, "commit_id"),
     (BuildDate, "build_date"), (BuiltBy, "built_by"), (Branch, "branch"), (Release, "release")],
    [(Platform, "onie_platform")],
    [(Hostname, "hostname")],
    [(Platform, "platform"), (Hwsku, "hwsku"), (Asic, "asic_type"), (AsicCount, "asic_count"), (Serial, "serial"),
     (Model, "model"), (Revision, "revision")],
    [(SonicVersion, "sonic_version"), (SonicOS, "sonic_os_version"), (DebianVersion, "debian_version"),
     (KernelVersion, "kernel_version"), (BuildCommit, "build_commit"), (BuildDate, "build_date"), (BuiltBy, "built_by"),
     (Platform, "platform"), (Hwsku, "hwsku"), (Asic, "asic"), (AsicCount, "asic_count"), (Serial, "serial"),
     (Model, "model"), (Revision, "revision")],
    [(Serial, "serial"), (Model, "model"), (Revision, "revision")])

  /** What the sources would answer; None where the source cannot be reached, read or parsed. */
  datatype Inputs = Inputs(device: Option<map<string, string>>, chassis: Option<map<string, string>>,
                           versionFile: Option<map<string, string>>, machineConf: Option<map<string, string>>,
                           hostnameFile: Option<map<string, string>>, uptime: Option<real>, commandEnabled: bool,
                           summary: Option<map<string, string>>, showVersion: Option<map<string, string>>,
                           eeprom: Option<map<string, string>>)

  function StoredOffers(s: Sources, inputs: Inputs): seq<Offer> {
    OffersOf(s.device, inputs.device)
    + OffersOf(s.chassis, inputs.chassis)
    + OffersOf(s.versionFile, inputs.versionFile)
    + OffersOf(s.machineConf, inputs.machineConf)
    + OffersOf(s.hostnameFile, inputs.hostnameFile)
  }

  function CommandOffers(s: Sources, inputs: Inputs): seq<Offer> {
    if !inputs.commandEnabled then []
    else OffersOf(s.summary, inputs.summary) + OffersOf(s.showVersion, inputs.showVersion)
  }

  /** Every offer in call order before the syseeprom command: Redis, then files, then commands. */
  function EarlyOffers(s: Sources, inputs: Inputs): seq<Offer> {
    StoredOffers(s, inputs) + CommandOffers(s, inputs)
  }

  function LateOffers(s: Sources, inputs: Inputs): seq<Offer> {
    if inputs.commandEnabled then OffersOf(s.eeprom, inputs.eeprom) else []
  }

  /** The offers of all sources, as if the syseeprom command were always run. */
  function AllOffers(s: Sources, inputs: Inputs): seq<Offer> {
    EarlyOffers(s, inputs) + LateOffers(s, inputs)
  }

  predicate EepromNeeded(m: Values) {
    Value(m, Serial) == "" || Value(m, Model) == "" || Value(m, Revision) == ""
  }

  predicate IdentityOnly(source: Source) {
    forall i :: 0 <= i < |source| ==> source[i].0 in {Serial, Model, Revision}
  }

  /** The guard preserves meaning: when it skips the syseeprom command, running it would not have changed anything. */
  lemma EepromGuard(s: Sources, inputs: Inputs, m: Values)
    requires IdentityOnly(s.eeprom) && !EepromNeeded(m)
    ensures OfferedAll(m, LateOffers(s, inputs)) == m
  {
    SetFieldsStay(m, LateOffers(s, inputs));
  }

  lemma SystemEepromIdentityOnly()
    ensures IdentityOnly(SYSTEM_SOURCES.eeprom)
  {
  }

  /** An output with the same value for all three fields. */
  function SameForAll(raw: string): Option<map<string, string>> {
    Some(map["serial" := raw, "model" := raw, "revision" := raw])
  }

  lemma EepromOffers(raw: string)
    ensures OffersOf(SYSTEM_SOURCES.eeprom, SameForAll(raw))
         == [Offer(Serial, raw), Offer(Model, raw), Offer(Revision, raw)]
  {
  }

  /** The guard is also exact: it skips the command exactly when no output whatever could change the metadata. */
  lemma EepromGuardExact(m: Values)
    ensures (forall answer :: OfferedAll(m, OffersOf(SYSTEM_SOURCES.eeprom, answer)) == m) <==> !EepromNeeded(m)
  {
    if EepromNeeded(m) {
      LetterIsNormal();
      ThreeOffers(m, "X");
      EepromOffers("X");
      assert OfferedAll(m, OffersOf(SYSTEM_SOURCES.eeprom, SameForAll("X"))) != m;
    } else {
      SystemEepromIdentityOnly();
      GuardedAnswers(SYSTEM_SOURCES.eeprom, m);
    }
  }

  lemma GuardedAnswers(source: Source, m: Values)
    requires IdentityOnly(source) && !EepromNeeded(m)
    ensures forall answer :: OfferedAll(m, OffersOf(source, answer)) == m
  {
    forall answer ensures OfferedAll(m, OffersOf(source, answer)) == m {
      SetFieldsStay(m, OffersOf(source, answer));
    }
  }

  /** Offering something for all three fields sets each of them. */
  lemma ThreeOffers(m: Values, raw: string)
    requires Normalize(raw) != ""
    ensures !EepromNeeded(OfferedAll(m, [Offer(Serial, raw), Offer(Model, raw), Offer(Revision, raw)]))
  {
    var offers := [Offer(Serial, raw), Offer(Model, raw), Offer(Revision, raw)];
    FirstSourceWins(m, offers, Serial);
    FirstSourceWins(m, offers, Model);
    FirstSourceWins(m, offers, Revision);
    assert offers[1..] == [Offer(Model, raw), Offer(Revision, raw)] && offers[1..][1..] == [Offer(Revision, raw)];
  }

  lemma LetterIsNormal()
    ensures Normalize("X") == "X"
  {
    TrimProperties("X", IsQuote);
    TrimProperties("X", IsSpace);
    assert |ToLower("X")| == 1;
  }

  // ---------------------------------------------------------------- loading

  class Metadata {
    var values: Values
    var uptime: real

    constructor ()
      ensures values == map[] && uptime == 0.0
    {
      values, uptime := map[], 0.0;
    }

    method SetIfEmpty(f: Field, raw: string)
      modifies this`values
      ensures values == Offered(old(values), Offer(f, raw))
      ensures forall g ::
        Value(values, g) == if Value(old(values), g) == "" && g == f then Normalize(raw) else Value(old(values), g)
    {
      var normalized := Normalize(raw);
      if normalized == "" {
        return;
      }
      if Value(values, f) == "" {
        values := values[f := normalized];
      }
    }

    /** One of the loaders: offers the values of a source field by field, if the source can be read. */
    method Load(source: Source, answer: Option<map<string, string>>)
      modifies this`values
      ensures values == OfferedAll(old(values), OffersOf(source, answer))
    {
      if answer.None? {
        return;
      }
      ghost var offers := OffersOf(source, answer);
      for i := 0 to |source|
        invariant values == OfferedAll(old(values), offers[..i])
      {
        TakeSnoc(offers, i);
        var key := source[i].1;
        SetIfEmpty(source[i].0, if key in answer.value then answer.value[key] else "");
      }
      assert offers[..|offers|] == offers;
    }

    /** All loaders in order; the syseeprom command only runs while serial, model or revision is missing. */
    method LoadAll(s: Sources, inputs: Inputs)
      requires IdentityOnly(s.eeprom)
      modifies this
      ensures values == OfferedAll(old(values), AllOffers(s, inputs))
      ensures uptime == inputs.uptime.GetOr(old(uptime))
    {
      ghost var start := values;
      LoadStored(s, inputs);
      LoadCommands(s, inputs);
      OfferedAppend(start, StoredOffers(s, inputs), CommandOffers(s, inputs));
      OfferedAppend(start, EarlyOffers(s, inputs), LateOffers(s, inputs));
      if inputs.commandEnabled {
        if EepromNeeded(values) {
          Load(s.eeprom, inputs.eeprom);
        } else {
          EepromGuard(s, inputs, values);
        }
      }
    }

    /** Redis and the files. */
    method LoadStored(s: Sources, inputs: Inputs)
      modifies this
      ensures values == OfferedAll(old(values), StoredOffers(s, inputs))
      ensures uptime == inputs.uptime.GetOr(old(uptime))
    {
      ghost var start := values;
      Load(s.device, inputs.device);
      ghost var done := LoadNext(start, OffersOf(s.device, inputs.device), s.chassis, inputs.chassis);
      done := LoadNext(start, done, s.versionFile, inputs.versionFile);
      done := LoadNext(start, done, s.machineConf, inputs.machineConf);
      done := LoadNext(start, done, s.hostnameFile, inputs.hostnameFile);
      if inputs.uptime.Some? {
        uptime := inputs.uptime.value;
      }
    }

    method LoadCommands(s: Sources, inputs: Inputs)
      modifies this`values
      ensures values == OfferedAll(old(values), CommandOffers(s, inputs))
    {
      if inputs.commandEnabled {
        ghost var start := values;
        Load(s.summary, inputs.summary);
        ghost var done := LoadNext(start, OffersOf(s.summary, inputs.summary), s.showVersion, inputs.showVersion);
      }
    }

    method LoadNext(ghost start: Values, ghost done: seq<Offer>, source: Source, answer: Option<map<string, string>>)
      returns (ghost done': seq<Offer>)
      requires values == OfferedAll(start, done)
      modifies this`values
      ensures done' == done + OffersOf(source, answer)
      ensures values == OfferedAll(start, done')
    {
      OfferedAppend(start, done, OffersOf(source, answer));
      Load(source, answer);
      done' := done + OffersOf(source, answer);
    }
  }

  // ---------------------------------------------------------------- finalising

  predicate IsDigit(c: char) {
    '0' <= c <= '9'
  }

  function Digits(s: string): nat {
    if s == "" then 0
    else Digits(s[..|s| - 1]) * 10 + if IsDigit(s[|s| - 1]) then (s[|s| - 1] as int - '0' as int) else 0
  }

  predicate AllDigits(s: string) {
    s != "" && forall i :: 0 <= i < |s| ==> IsDigit(s[i])
  }

  /** A decimal integer with an optional sign that fits 64 bits. */
  predicate IsInteger(s: string) {
    var digits := if s != "" && (s[0] == '+' || s[0] == '-') then s[1..] else s;
    AllDigits(digits) &&
    if s[0] == '-' then Digits(digits) <= 0x8000_0000_0000_0000 else Digits(digits) <= 0x7FFF_FFFF_FFFF_FFFF
  }

  function ValueOrUnknown(value: string): string {
    if Normalize(value) == "" then "unknown" else Normalize(value)
  }

  /** The label for a loaded value: normalised again, lower case for the ASIC, an integer for the ASIC count. */
  function Finalized(f: Field, value: string): string {
    var v := ValueOrUnknown(value);
    match f
    case Asic => ToLower(v)
    case AsicCount => if IsInteger(v) then v else "unknown"
    case _ => v
  }

  function FinalLabel(m: Values, f: Field): string {
    Finalized(f, Value(m, f))
  }

  function FinalUptime(uptime: real): real {
    if uptime < 0.0 then 0.0 else uptime
  }

  const IDENTITY: seq<Field> := [Hostname, Platform, Hwsku, Asic, AsicCount, Serial, Model, Revision]
  const SOFTWARE: seq<Field> := [SonicVersion, SonicOS, DebianVersion, KernelVersion, BuildCommit, BuildDate, BuiltBy,
                                 Branch, Release]

  function LabelOf(m: Values): Field -> string {
    (f: Field) => FinalLabel(m, f)
  }

  function SystemSeries(m: Values, uptime: real): seq<Series> {
    [Series("sonic_system_identity_info", Map(LabelOf(m), IDENTITY), 1.0),
     Series("sonic_system_software_info", Map(LabelOf(m), SOFTWARE), 1.0),
     Series("sonic_system_uptime_seconds", [], FinalUptime(uptime))]
  }

  /** One refresh with any loaders. */
  method ScrapeSources(s: Sources, inputs: Inputs, filter: MetricFilter) returns (metrics: seq<Series>)
    requires IdentityOnly(s.eeprom)
    ensures metrics == filter.Keep(SystemSeries(OfferedAll(map[], AllOffers(s, inputs)), inputs.uptime.GetOr(0.0)))
  {
    var metadata := new Metadata();
    metadata.LoadAll(s, inputs);
    var all := SystemSeries(metadata.values, metadata.uptime);
    metrics := EmitThree(filter, all[0], all[1], all[2]);
    assert all == [all[0], all[1], all[2]];
  }

  method EmitThree(filter: MetricFilter, a: Series, b: Series, c: Series) returns (metrics: seq<Series>)
    ensures metrics == filter.Keep([a, b, c])
  {
    filter.EmitKeeps([], a);
    filter.EmitKeeps([a], b);
    filter.EmitKeeps([a, b], c);
    assert [] + [a] == [a] && [a] + [b] == [a, b] && [a, b] + [c] == [a, b, c];
    metrics := filter.Emit([], a);
    metrics := filter.Emit(metrics, b);
    metrics := filter.Emit(metrics, c);
  }

  lemma ValueOrUnknownNotEmpty(value: string)
    ensures ValueOrUnknown(value) != ""
  {
  }

  lemma LowerHasNoCapitals(s: string)
    ensures forall c :: c in ToLower(s) ==> !('A' <= c <= 'Z')
  {
  }

  /**
   * Whatever the sources say: no label is empty, the ASIC count is an integer or "unknown", and the uptime is not
   * negative.
   */
  lemma FinalLabels(m: Values, f: Field, uptime: real)
    ensures FinalLabel(m, f) != ""
    ensures IsInteger(FinalLabel(m, AsicCount)) || FinalLabel(m, AsicCount) == "unknown"
    ensures forall c :: c in FinalLabel(m, Asic) ==> !('A' <= c <= 'Z')
    ensures FinalUptime(uptime) >= 0.0
  {
    ValueOrUnknownNotEmpty(Value(m, f));
    LowerHasNoCapitals(ValueOrUnknown(Value(m, Asic)));
  }

  /** A label as a function of the offers: the first usable value, finalised; nothing else that was offered matters. */
  lemma LabelFromOffers(offers: seq<Offer>, f: Field)
    ensures FinalLabel(OfferedAll(map[], offers), f) == Finalized(f, FirstFor(f, offers))
  {
    FirstSourceWins(map[], offers, f);
  }

  lemma {:induction false} FirstForNormalized(f: Field, offers: seq<Offer>) returns (raw: string)
    ensures FirstFor(f, offers) == Normalize(raw)
  {
    if offers == [] {
      raw := "";
      TrimProperties("", IsQuote);
    } else if offers[0].field == f && Normalize(offers[0].raw) != "" {
      raw := offers[0].raw;
    } else {
      raw := FirstForNormalized(f, offers[1..]);
    }
  }

  /**
   * Exactly when a label is the first usable value itself: the value has no quote at either end, and has no capitals
   * for the ASIC, or is an integer for the ASIC count.
   */
  lemma LabelIsFirstValue(offers: seq<Offer>, f: Field)
    requires FirstFor(f, offers) != "" && FirstFor(f, offers) != "unknown"
    ensures var first := FirstFor(f, offers);
            FinalLabel(OfferedAll(map[], offers), f) == first
            <==> (&& Bare(first, IsQuote)
                  && (f == Asic ==> ToLower(first) == first)
                  && (f == AsicCount ==> IsInteger(first)))
  {
    LabelFromOffers(offers, f);
    var raw := FirstForNormalized(f, offers);
    FinalizedIsSame(f, raw);
  }

  lemma FinalizedIsSame(f: Field, raw: string)
    requires Normalize(raw) != "" && Normalize(raw) != "unknown"
    ensures var once := Normalize(raw);
            Finalized(f, once) == once
            <==> Bare(once, IsQuote) && (f == Asic ==> ToLower(once) == once) && (f == AsicCount ==> IsInteger(once))
  {
    var once := Normalize(raw);
    NormalizeTwice(raw);
    if !Bare(once, IsQuote) {
      QuotedChanges(f, once);
    }
  }

  lemma QuotedChanges(f: Field, value: string)
    requires !Bare(value, IsQuote) && value != "unknown"
    ensures Finalized(f, value) != value
  {
    ShorterWhenQuoted(value);
    if f == Asic && Normalize(value) == "" {
      assert ToLower("unknown") == "unknown";
    }
  }

  /** A value with a quote at an end loses it when it is normalised. */
  lemma ShorterWhenQuoted(value: string)
    requires !Bare(value, IsQuote)
    ensures |Normalize(value)| < |value|
  {
    TrimProperties(value, IsQuote);
    TrimProperties(Trim(value, IsQuote), IsSpace);
  }

  /** A quoted placeholder inside quotes hides a good value from a later source. */
  lemma QuotedPlaceholderMasks()
    ensures var offers := [Offer(Serial, "\" 'na' \""), Offer(Serial, "ABC123")];
            FinalLabel(OfferedAll(map[], offers), Serial) == "unknown"
  {
    var offers := [Offer(Serial, "\" 'na' \""), Offer(Serial, "ABC123")];
    MaskedValue();
    assert FirstFor(Serial, offers) == "'na'";
    LabelFromOffers(offers, Serial);
  }

  lemma MaskedValue()
    ensures Normalize("\" 'na' \"") == "'na'" && Normalize("'na'") == ""
  {
    InnerQuotes();
    Placeholder();
  }

  lemma InnerQuotes()
    ensures Normalize("\" 'na' \"") == "'na'"
  {
    TrimBoth("\"", " 'na' ", "\"", IsQuote);
    assert "\"" + " 'na' " + "\"" == "\" 'na' \"";
    TrimBoth(" ", "'na'", " ", IsSpace);
    assert " " + "'na'" + " " == " 'na' ";
    assert ToLower("'na'")[0] == '\'';
  }

  lemma Placeholder()
    ensures Normalize("'na'") == ""
  {
    TrimBoth("'", "na", "'", IsQuote);
    assert "'" + "na" + "'" == "'na'";
    TrimProperties("na", IsSpace);
    assert ToLower("na") == "na";
  }

  lemma TrimBoth(l: string, s: string, r: string, cut: char -> bool)
    requires |l| == 1 && cut(l[0]) && |r| == 1 && cut(r[0])
    requires s != "" && Bare(s, cut)
    ensures Trim(l + s + r, cut) == s
  {
    var whole := l + s + r;
    assert whole[1..] == s + r;
    TrimLeftProperties(s + r, cut);
    assert TrimLeft(whole, cut) == s + r;
    assert (s + r)[..|s + r| - 1] == s;
    TrimRightProperties(s, cut);
  }
}
