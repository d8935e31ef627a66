/** Handing the FRR settings to the upstream exporter as command line flags, and reading them back. */
module FrrFlags {
  import opened Results
  import opened Sequences
  import opened Strings

  // ---------------------------------------------------------------- settings

  /** A configured value; a key list is configured as comma-separated text. */
  datatype Value = Bool(on: bool) | Text(text: string) | Duration(nanos: int) | Keys(raw: string)

  /** What the upstream exporter ends up with. */
  datatype Meaning = IsBool(on: bool) | IsText(text: string) | IsDuration(nanos: int) | IsKeys(keys: seq<string>)

  datatype Setting = Setting(name: string, default: Value)

  predicate SameKind(a: Value, b: Value) {
    match a
    case Bool(_) => b.Bool?
    case Text(_) => b.Text?
    case Duration(_) => b.Duration?
    case Keys(_) => b.Keys?
  }

  /** A configuration has one value for each setting. */
  predicate Configures(settings: seq<Setting>, config: seq<Value>) {
    |config| == |settings| && forall i :: 0 <= i < |settings| ==> SameKind(settings[i].default, config[i])
  }

  // ---------------------------------------------------------------- key lists

  predicate NonEmpty(s: string) { s != "" }

  /** The trimmed non-empty parts between commas. */
  function CleanParts(raw: string): seq<string> {
    Filter(NonEmpty, Map(TrimSpace, Split(raw, ',')))
  }

  predicate PlainPart(s: string) {
    s != "" && ',' !in s
  }

  /** Each part is non-empty and free of commas. */
  lemma CleanPartsPlain(raw: string)
    ensures forall p :: p in CleanParts(raw) ==> PlainPart(p)
  {
    var parts := Split(raw, ',');
    SplitProperties(raw, ',');
    FilterMembers(NonEmpty, Map(TrimSpace, parts));
    forall p | p in Map(TrimSpace, parts) ensures ',' !in p {
      var i :| 0 <= i < |parts| && p == TrimSpace(parts[i]);
      TrimProperties(parts[i], IsSpace);
    }
  }

  method SplitCommaSeparated(raw: string) returns (cleaned: seq<string>)
    ensures cleaned == CleanParts(raw)
  {
    if TrimSpace(raw) == "" {
      BlankHasNoParts(raw);
      return [];
    }
    var parts := Split(raw, ',');
    cleaned := [];
    for i := 0 to |parts|
      invariant cleaned == Filter(NonEmpty, Map(TrimSpace, parts[..i]))
    {
      TakeSnoc(parts, i);
      var trimmed := TrimSpace(parts[i]);
      if trimmed != "" {
        cleaned := cleaned + [trimmed];
      }
    }
    assert parts[..|parts|] == parts;
  }

  lemma BlankHasNoParts(raw: string)
    requires TrimSpace(raw) == ""
    ensures CleanParts(raw) == []
  {
    TrimmedAway(raw, IsSpace);
    assert !IsSpace(',');
    CutProperties(raw, ',');
    assert Split(raw, ',') == [raw] && [raw][..0] == [];
    assert Map(TrimSpace, [raw]) == [""] && [""][..0] == [];
  }

  // ---------------------------------------------------------------- building

  /** Printing and reading durations, which are not part of this model. */
  datatype Durations = Durations(show: int -> string, read: string -> Option<int>)

  ghost predicate Inverse(d: Durations) {
    forall n :: d.read(d.show(n)) == Some(n)
  }

  function Flag(name: string): string { "--" + name }

  function NoFlag(name: string): string { "--no-" + name }

  function FlagWith(name: string): string -> string {
    (value: string) => "--" + (name + ['='] + value)
  }

  /** The arguments for one setting. */
  function ArgsOf(d: Durations, setting: Setting, value: Value): seq<string> {
    match value
    case Bool(on) =>
      if value == setting.default then [] else if on then [Flag(setting.name)] else [NoFlag(setting.name)]
    case Text(text) => if value == setting.default || text == "" then [] else [FlagWith(setting.name)(text)]
    case Duration(nanos) => if value == setting.default then [] else [FlagWith(setting.name)(d.show(nanos))]
    case Keys(raw) =>
      if setting.default.Keys? && CleanParts(raw) == CleanParts(setting.default.raw) then []
      else Map(FlagWith(setting.name), CleanParts(raw))
  }

  function ArgsOfAll(d: Durations, settings: seq<Setting>, config: seq<Value>): seq<string>
    requires |config| == |settings|
  {
    if settings == [] then []
    else
      var n := |settings| - 1;
      ArgsOfAll(d, settings[..n], config[..n]) + ArgsOf(d, settings[n], config[n])
  }

  method AppendBoolFlag(args: seq<string>, name: string, value: bool, default: bool) returns (args': seq<string>)
    ensures forall d :: args' == args + ArgsOf(d, Setting(name, Bool(default)), Bool(value))
  {
    if value == default {
      return args;
    }
    if value {
      return args + ["--" + name];
    }
    return args + ["--no-" + name];
  }

  method AppendStringFlag(args: seq<string>, name: string, value: string, default: string) returns (args': seq<string>)
    ensures forall d :: args' == args + ArgsOf(d, Setting(name, Text(default)), Text(value))
  {
    if value == default || value == "" {
      return args;
    }
    return args + ["--" + (name + "=" + value)];
  }

  method AppendDurationFlag(d: Durations, args: seq<string>, name: string, value: int, default: int)
    returns (args': seq<string>)
    ensures args' == args + ArgsOf(d, Setting(name, Duration(default)), Duration(value))
  {
    if value == default {
      return args;
    }
    return args + ["--" + (name + "=" + d.show(value))];
  }

  /** Compares the lists by their joined texts and leaves out empty values. */
  method AppendRepeatedStringFlag(args: seq<string>, name: string, values: seq<string>, defaults: seq<string>)
    returns (args': seq<string>)
    ensures args' == args + if Join(values, ',') == Join(defaults, ',')
                            then []
                            else Map(FlagWith(name), Filter(NonEmpty, values))
  {
    if Join(values, ',') == Join(defaults, ',') {
      return args;
    }
    args' := args;
    assert values[..0] == [];
    for i := 0 to |values|
      invariant args' == args + Map(FlagWith(name), Filter(NonEmpty, values[..i]))
    {
      TakeSnoc(values, i);
      if values[i] != "" {
        args' := args' + ["--" + (name + "=" + values[i])];
      }
    }
    assert values[..|values|] == values;
  }

  /** The parts split again at every separator inside them; no part at all counts as one empty piece. */
  function Resplit(parts: seq<string>): seq<string> {
    if parts == [] then [""]
    else Split(parts[0], ',') + if |parts| == 1 then [] else Resplit(parts[1..])
  }

  lemma {:induction false} SplitOfJoin(parts: seq<string>)
    ensures Split(Join(parts, ','), ',') == Resplit(parts)
  {
    if |parts| > 1 {
      SplitAppend(parts[0], ',', Join(parts[1..], ','));
      SplitOfJoin(parts[1..]);
    }
  }

  /**
   * What comparing joined texts compares, for any two lists: the lists of comma-separated pieces. So it takes different
   * lists for equal exactly when they only group the same pieces differently.
   */
  lemma JoinComparesPieces(a: seq<string>, b: seq<string>)
    ensures Join(a, ',') == Join(b, ',') <==> Resplit(a) == Resplit(b)
  {
    SplitOfJoin(a);
    SplitOfJoin(b);
    if Resplit(a) == Resplit(b) {
      SplitInjective(Join(a, ','), Join(b, ','), ',');
    }
  }

  /** For the parts that the split produces, joined texts are equal only for equal lists, and no value is left out. */
  lemma PlainPartsCompared(values: seq<string>, defaults: seq<string>)
    requires forall p :: p in values || p in defaults ==> PlainPart(p)
    ensures Join(values, ',') == Join(defaults, ',') <==> values == defaults
    ensures Filter(NonEmpty, values) == values
  {
    JoinInjective(values, defaults, ',');
    FilterAll(NonEmpty, values);
  }

  method AppendFlag(d: Durations, args: seq<string>, setting: Setting, value: Value) returns (args': seq<string>)
    requires SameKind(setting.default, value)
    ensures args' == args + ArgsOf(d, setting, value)
  {
    match value
    case Bool(on) => args' := AppendBoolFlag(args, setting.name, on, setting.default.on);
    case Text(text) => args' := AppendStringFlag(args, setting.name, text, setting.default.text);
    case Duration(nanos) => args' := AppendDurationFlag(d, args, setting.name, nanos, setting.default.nanos);
    case Keys(raw) =>
      var values := SplitCommaSeparated(raw);
      var defaults := SplitCommaSeparated(setting.default.raw);
      CleanPartsPlain(raw);
      CleanPartsPlain(setting.default.raw);
      PlainPartsCompared(values, defaults);
      args' := AppendRepeatedStringFlag(args, setting.name, values, defaults);
  }

  method BuildArgs(d: Durations, settings: seq<Setting>, config: seq<Value>) returns (args: seq<string>)
    requires Configures(settings, config)
    ensures args == ArgsOfAll(d, settings, config)
  {
    args := [];
    for i := 0 to |settings|
      invariant args == ArgsOfAll(d, settings[..i], config[..i])
    {
      TakeSnoc(settings, i);
      TakeSnoc(config, i);
      args := AppendFlag(d, args, settings[i], config[i]);
    }
    assert settings[..|settings|] == settings && config[..|config|] == config;
  }

  // ---------------------------------------------------------------- parsing

  /** The flags given so far. */
  type Given = map<string, Meaning>

  function Find(settings: seq<Setting>, name: string): Option<Value> {
    if settings == [] then None
    else if settings[|settings| - 1].name == name then Some(settings[|settings| - 1].default)
    else Find(settings[..|settings| - 1], name)
  }

  /** A switch without a value, possibly negated. */
  function ParseSwitch(settings: seq<Setting>, body: string): Option<(string, Meaning)> {
    if Find(settings, body) != None then
      if Find(settings, body).value.Bool? then Some((body, IsBool(true))) else None
    else if "no-" <= body && Find(settings, body[3..]).Some? && Find(settings, body[3..]).value.Bool? then
      Some((body[3..], IsBool(false)))
    else None
  }

  /** A flag with a value; a repeated list flag accumulates. */
  function ParseValue(d: Durations, settings: seq<Setting>, given: Given, name: string,
                      value: string): Option<(string, Meaning)> {
    match Find(settings, name)
    case Some(Text(_)) => Some((name, IsText(value)))
    case Some(Duration(_)) => (match d.read(value) case None => None case Some(n) => Some((name, IsDuration(n))))
    case Some(Keys(_)) =>
      Some((name, IsKeys((if name in given && given[name].IsKeys? then given[name].keys else []) + [value])))
    case _ => None
  }

  function ParseArg(d: Durations, settings: seq<Setting>, given: Given, arg: string): Option<Given> {
    if !("--" <= arg) then None
    else
      var parsed := match Cut(arg[2..], '=')
                    case None => ParseSwitch(settings, arg[2..])
                    case Some(pair) => ParseValue(d, settings, given, pair.0, pair.1);
      match parsed
      case None => None
      case Some(entry) => Some(given[entry.0 := entry.1])
  }

  function ParseAll(d: Durations, settings: seq<Setting>, args: seq<string>): Option<Given> {
    if args == [] then Some(map[])
    else
      match ParseAll(d, settings, args[..|args| - 1])
      case None => None
      case Some(given) => ParseArg(d, settings, given, args[|args| - 1])
  }

  function MeaningOf(v: Value): Meaning {
    match v
    case Bool(on) => IsBool(on)
    case Text(text) => IsText(text)
    case Duration(nanos) => IsDuration(nanos)
    case Keys(raw) => IsKeys(CleanParts(raw))
  }

  /** A given flag, or else the default. */
  function Effective(given: Given, setting: Setting): Meaning {
    if setting.name in given then given[setting.name] else MeaningOf(setting.default)
  }

  // ---------------------------------------------------------------- the round trip

  /** Flag names are distinct, have no '=', and no name is the negation of another. */
  ghost predicate ParsableNames(settings: seq<Setting>) {
    && (forall i :: 0 <= i < |settings| ==> '=' !in settings[i].name)
    && (forall i, j :: 0 <= i < j < |settings| ==> settings[i].name != settings[j].name)
    && (forall i, j :: 0 <= i < |settings| && 0 <= j < |settings| ==> settings[i].name != "no-" + settings[j].name)
  }

  /** Some value the flags can express: an empty text or key list can only be had by default. */
  predicate Expressible(setting: Setting, value: Value) {
    match value
    case Text(text) => text != "" || setting.default == value
    case Keys(raw) => CleanParts(raw) != [] || (setting.default.Keys? && CleanParts(setting.default.raw) == [])
    case _ => true
  }

  lemma {:induction false} FindSetting(settings: seq<Setting>, i: nat)
    requires i < |settings| && forall j, k :: 0 <= j < k < |settings| ==> settings[j].name != settings[k].name
    ensures Find(settings, settings[i].name) == Some(settings[i].default)
  {
    if i < |settings| - 1 {
      FindSetting(settings[..|settings| - 1], i);
    }
  }

  lemma {:induction false} FindNothing(settings: seq<Setting>, name: string)
    requires forall i :: 0 <= i < |settings| ==> settings[i].name != name
    ensures Find(settings, name).None?
  {
    if settings != [] {
      FindNothing(settings[..|settings| - 1], name);
    }
  }

  lemma ParseFlag(d: Durations, settings: seq<Setting>, given: Given, i: nat)
    requires ParsableNames(settings) && i < |settings| && settings[i].default.Bool?
    ensures ParseArg(d, settings, given, Flag(settings[i].name)) == Some(given[settings[i].name := IsBool(true)])
    ensures ParseArg(d, settings, given, NoFlag(settings[i].name)) == Some(given[settings[i].name := IsBool(false)])
  {
    var name := settings[i].name;
    FindSetting(settings, i);
    assert Flag(name)[2..] == name;
    CutProperties(name, '=');
    var negated := "no-" + name;
    assert NoFlag(name)[2..] == negated && negated[3..] == name;
    CutProperties(negated, '=');
    FindNothing(settings, negated);
  }

  lemma DropDashes(body: string)
    ensures "--" <= "--" + body && ("--" + body)[2..] == body
  {
  }

  lemma ParseFlagWith(d: Durations, settings: seq<Setting>, given: Given, i: nat, value: string)
    requires ParsableNames(settings) && i < |settings|
    ensures var parsed := ParseValue(d, settings, given, settings[i].name, value);
            ParseArg(d, settings, given, FlagWith(settings[i].name)(value))
            == if parsed.None? then None else Some(given[parsed.value.0 := parsed.value.1])
    ensures Find(settings, settings[i].name) == Some(settings[i].default)
  {
    FindSetting(settings, i);
    DropDashes(settings[i].name + ['='] + value);
    CutUnique(settings[i].name, '=', value);
  }

  /** Continues a parse with more arguments. */
  function ParseMore(d: Durations, settings: seq<Setting>, given: Given, args: seq<string>): Option<Given> {
    if args == [] then Some(given)
    else
      match ParseMore(d, settings, given, args[..|args| - 1])
      case None => None
      case Some(g) => ParseArg(d, settings, g, args[|args| - 1])
  }

  lemma {:induction false} ParseAppend(d: Durations, settings: seq<Setting>, a: seq<string>, b: seq<string>)
    requires ParseAll(d, settings, a).Some?
    ensures ParseAll(d, settings, a + b) == ParseMore(d, settings, ParseAll(d, settings, a).value, b)
  {
    if b == [] {
      assert a + b == a;
    } else {
      assert (a + b)[..|a + b| - 1] == a + b[..|b| - 1];
      ParseAppend(d, settings, a, b[..|b| - 1]);
    }
  }

  /** One more key for a list flag. */
  lemma ParseKey(d: Durations, settings: seq<Setting>, given: Given, i: nat, front: seq<string>, last: string)
    requires ParsableNames(settings) && i < |settings| && settings[i].default.Keys?
    requires if settings[i].name in given then given[settings[i].name] == IsKeys(front) else front == []
    ensures ParseArg(d, settings, given, FlagWith(settings[i].name)(last))
         == Some(given[settings[i].name := IsKeys(front + [last])])
  {
    ParseFlagWith(d, settings, given, i, last);
  }

  function WithKeys(given: Given, name: string, keys: seq<string>): Given {
    if keys == [] then given else given[name := IsKeys(keys)]
  }

  lemma ParseMoreSnoc(d: Durations, settings: seq<Setting>, given: Given, args: seq<string>, arg: string)
    requires ParseMore(d, settings, given, args).Some?
    ensures ParseMore(d, settings, given, args + [arg])
         == ParseArg(d, settings, ParseMore(d, settings, given, args).value, arg)
  {
    assert (args + [arg])[..|args|] == args;
  }

  lemma ParseKeysStep(d: Durations, settings: seq<Setting>, given: Given, i: nat, keys: seq<string>)
    requires ParsableNames(settings) && i < |settings| && settings[i].default.Keys? && settings[i].name !in given
    requires keys != []
    requires ParseMore(d, settings, given, Map(FlagWith(settings[i].name), keys[..|keys| - 1]))
         == Some(WithKeys(given, settings[i].name, keys[..|keys| - 1]))
    ensures ParseMore(d, settings, given, Map(FlagWith(settings[i].name), keys))
         == Some(WithKeys(given, settings[i].name, keys))
  {
    var name, front, last := settings[i].name, keys[..|keys| - 1], keys[|keys| - 1];
    assert keys == front + [last];
    MapSnoc(FlagWith(name), keys);
    ParseMoreSnoc(d, settings, given, Map(FlagWith(name), front), FlagWith(name)(last));
    ParseKey(d, settings, WithKeys(given, name, front), i, front, last);
    KeysAgain(given, name, front, keys);
  }

  lemma {:induction false} ParseKeys(d: Durations, settings: seq<Setting>, given: Given, i: nat, keys: seq<string>)
    requires ParsableNames(settings) && i < |settings| && settings[i].default.Keys?
    requires settings[i].name !in given
    ensures ParseMore(d, settings, given, Map(FlagWith(settings[i].name), keys))
         == Some(WithKeys(given, settings[i].name, keys))
  {
    if keys != [] {
      ParseKeys(d, settings, given, i, keys[..|keys| - 1]);
      ParseKeysStep(d, settings, given, i, keys);
    }
  }

  lemma KeysAgain(given: Given, name: string, front: seq<string>, keys: seq<string>)
    ensures WithKeys(given, name, front)[name := IsKeys(keys)] == given[name := IsKeys(keys)]
  {
  }

  /** Parsing the arguments of one setting touches no other, and gives its value unless there are none. */
  lemma ParseSetting(d: Durations, settings: seq<Setting>, given: Given, i: nat, value: Value)
    requires Inverse(d) && ParsableNames(settings) && i < |settings| && SameKind(settings[i].default, value)
    requires settings[i].name !in given
    ensures ParseMore(d, settings, given, ArgsOf(d, settings[i], value))
         == Some(if ArgsOf(d, settings[i], value) == [] then given else given[settings[i].name := MeaningOf(value)])
  {
    var name, args := settings[i].name, ArgsOf(d, settings[i], value);
    if value.Keys? {
      ParseKeys(d, settings, given, i, CleanParts(value.raw));
    } else if args != [] {
      assert args[..0] == [];
      if value.Bool? {
        ParseFlag(d, settings, given, i);
      } else {
        ParseFlagWith(d, settings, given, i, if value.Text? then value.text else d.show(value.nanos));
      }
    }
  }

  lemma ArgsExpress(d: Durations, setting: Setting, value: Value)
    requires SameKind(setting.default, value)
    ensures (ArgsOf(d, setting, value) != [] || MeaningOf(setting.default) == MeaningOf(value))
         <==> Expressible(setting, value)
  {
  }

  /** The value itself if there are arguments for it, else the default. */
  function Reproduced(d: Durations, setting: Setting, value: Value): Meaning {
    if ArgsOf(d, setting, value) == [] then MeaningOf(setting.default) else MeaningOf(value)
  }

  function ReproducedAll(d: Durations, settings: seq<Setting>, config: seq<Value>): seq<Meaning>
    requires |config| == |settings|
  {
    seq(|settings|, i requires 0 <= i < |settings| => Reproduced(d, settings[i], config[i]))
  }

  /** What parsing the arguments of the first `n` settings has to leave behind. */
  ghost predicate Holds(settings: seq<Setting>, want: seq<Meaning>, n: nat, given: Given)
    requires |want| == |settings| && n <= |settings|
  {
    && (forall i :: n <= i < |settings| ==> settings[i].name !in given)
    && (forall i :: 0 <= i < n ==> Effective(given, settings[i]) == want[i])
  }

  lemma HoldsWithDefault(settings: seq<Setting>, want: seq<Meaning>, n: nat, given: Given)
    requires |want| == |settings| && n < |settings| && Holds(settings, want, n, given)
    requires want[n] == MeaningOf(settings[n].default)
    ensures Holds(settings, want, n + 1, given)
  {
  }

  lemma HoldsWithValue(settings: seq<Setting>, want: seq<Meaning>, n: nat, given: Given)
    requires forall i, j :: 0 <= i < j < |settings| ==> settings[i].name != settings[j].name
    requires |want| == |settings| && n < |settings| && Holds(settings, want, n, given)
    ensures Holds(settings, want, n + 1, given[settings[n].name := want[n]])
  {
    var given' := given[settings[n].name := want[n]];
    forall i | n + 1 <= i < |settings| ensures settings[i].name !in given' {
      assert settings[n].name != settings[i].name;
    }
    forall i | 0 <= i < n ensures Effective(given', settings[i]) == want[i] {
      assert settings[i].name != settings[n].name;
    }
  }

  lemma {:induction false} ParsePrefix(d: Durations, settings: seq<Setting>, config: seq<Value>, n: nat)
    requires Inverse(d) && ParsableNames(settings) && Configures(settings, config) && n <= |settings|
    ensures var parsed := ParseAll(d, settings, ArgsOfAll(d, settings[..n], config[..n]));
            parsed.Some? && Holds(settings, ReproducedAll(d, settings, config), n, parsed.value)
  {
    if n > 0 {
      ParsePrefix(d, settings, config, n - 1);
      TakeSnoc(settings, n - 1);
      TakeSnoc(config, n - 1);
      var before, want := ArgsOfAll(d, settings[..n - 1], config[..n - 1]), ReproducedAll(d, settings, config);
      var given := ParseAll(d, settings, before).value;
      ParseAppend(d, settings, before, ArgsOf(d, settings[n - 1], config[n - 1]));
      ParseSetting(d, settings, given, n - 1, config[n - 1]);
      if ArgsOf(d, settings[n - 1], config[n - 1]) == [] {
        HoldsWithDefault(settings, want, n - 1, given);
      } else {
        HoldsWithValue(settings, want, n - 1, given);
      }
    }
  }

  /**
   * Round trip: the upstream parser always accepts the built flags, and it ends up with the configured value of a
   * setting exactly when the flags can express that value; otherwise it ends up with the default.
   */
  lemma RoundTrip(d: Durations, settings: seq<Setting>, config: seq<Value>, i: nat)
    requires Inverse(d) && ParsableNames(settings) && Configures(settings, config) && i < |settings|
    ensures ParseAll(d, settings, ArgsOfAll(d, settings, config)).Some?
    ensures Reproduces(d, settings, config, i) <==> Expressible(settings[i], config[i])
    ensures !Expressible(settings[i], config[i]) ==>
      Effective(ParseAll(d, settings, ArgsOfAll(d, settings, config)).value, settings[i])
      == MeaningOf(settings[i].default)
  {
    var n := |settings|;
    assert settings[..n] == settings && config[..n] == config;
    ParsePrefix(d, settings, config, n);
    ArgsExpress(d, settings[i], config[i]);
  }

  /** The flags are accepted and give setting `i` its configured value. */
  predicate Reproduces(d: Durations, settings: seq<Setting>, config: seq<Value>, i: nat)
    requires |config| == |settings| && i < |settings|
  {
    var parsed := ParseAll(d, settings, ArgsOfAll(d, settings, config));
    parsed.Some? && Effective(parsed.value, settings[i]) == MeaningOf(config[i])
  }
}
