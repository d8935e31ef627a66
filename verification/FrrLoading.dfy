/**
 * The FRR settings from the environment to the upstream exporter: the loader, what is documented, and that the built
 * flags carry the one to the other.
 */
module FrrLoading {
  import opened Results
  import opened Sequences
  import opened Strings
  import opened FrrFlags
  import opened FrrSettings

  type Environment = string -> Option<string>

  // ---------------------------------------------------------------- the loader

  datatype Variable = Variable(name: string, default: Value)

  /** The variables in the order in which they are read, with the defaults the loader gives them. */
  const LOADER: seq<Variable> :=
    SOCKET_LOADER + VTYSH_LOADER + PROTOCOL_LOADER + FEATURE_LOADER
    + PEER_TYPE_LOADER + PEER_TEXT_LOADER + PEER_DETAIL_LOADER + PREFIX_LOADER

  const SOCKET_LOADER: seq<Variable> := [
    Variable("FRR_SOCKET_DIR_PATH", Text("/var/run/frr")),
    Variable("FRR_SOCKET_TIMEOUT", Duration(20 * SECOND))]

  const VTYSH_LOADER: seq<Variable> := [
    Variable("FRR_VTYSH_ENABLED", Bool(false)),
    Variable("FRR_VTYSH_PATH", Text("/usr/bin/vtysh")),
    Variable("FRR_VTYSH_TIMEOUT", Duration(20 * SECOND)),
    Variable("FRR_VTYSH_SUDO", Bool(false)),
    Variable("FRR_VTYSH_OPTIONS", Text(""))]

  const PROTOCOL_LOADER: seq<Variable> := [
    Variable("FRR_BGP_ENABLED", Bool(true)),
    Variable("FRR_BGP6_ENABLED", Bool(false)),
    Variable("FRR_BGPL2VPN_ENABLED", Bool(false)),
    Variable("FRR_OSPF_ENABLED", Bool(true)),
    Variable("FRR_OSPF_INSTANCES", Text("")),
    Variable("FRR_BFD_ENABLED", Bool(true))]

  const FEATURE_LOADER: seq<Variable> := [
    Variable("FRR_ROUTE_ENABLED", Bool(true)),
    Variable("FRR_ROUTE_DETAILED_ENABLED", Bool(false)),
    Variable("FRR_RPKI_ENABLED", Bool(false)),
    Variable("FRR_VRRP_ENABLED", Bool(false)),
    Variable("FRR_PIM_ENABLED", Bool(false)),
    Variable("FRR_STATUS_ENABLED", Bool(true))]

  const PEER_TYPE_LOADER: seq<Variable> := [
    Variable("FRR_BGP_PEER_TYPES_ENABLED", Bool(false)),
    Variable("FRR_BGP_PEER_TYPES_KEYS", Keys("type"))]

  const PEER_TEXT_LOADER: seq<Variable> := [
    Variable("FRR_BGP_PEER_DESCRIPTIONS_ENABLED", Bool(false)),
    Variable("FRR_BGP_PEER_DESCRIPTIONS_PLAIN_TEXT", Bool(false))]

  const PEER_DETAIL_LOADER: seq<Variable> := [
    Variable("FRR_BGP_PEER_GROUPS_ENABLED", Bool(false)),
    Variable("FRR_BGP_PEER_HOSTNAMES_ENABLED", Bool(false)),
    Variable("FRR_BGP_ADVERTISED_PREFIXES_ENABLED", Bool(false))]

  const PREFIX_LOADER: seq<Variable> := [
    Variable("FRR_BGP_ACCEPTED_FILTERED_PREFIXES_ENABLED", Bool(false)),
    Variable("FRR_BGP_NEXT_HOP_INTERFACE_ENABLED", Bool(false)),
    Variable("FRR_BGP_MONITORED_PREFIXES_FILE", Text(""))]

  function ParseBool(s: string): Option<bool> {
    if s in {"1", "t", "T", "TRUE", "true", "True"} then Some(true)
    else if s in {"0", "f", "F", "FALSE", "false", "False"} then Some(false)
    else None
  }

  function LoadedBool(env: Option<string>, default: bool): bool {
    if env.None? || env.value == "" then default else ParseBool(env.value).GetOr(default)
  }

  /** A duration that is not positive counts as unset. */
  function LoadedDuration(d: Durations, env: Option<string>, default: int): int {
    if env.None? || env.value == "" then default
    else
      match d.read(env.value)
      case None => default
      case Some(nanos) => if nanos <= 0 then default else nanos
  }

  /** A blank text counts as unset. */
  function LoadedText(env: Option<string>, default: string): string {
    if env.None? || TrimSpace(env.value) == "" then default else TrimSpace(env.value)
  }

  function LoadedValue(d: Durations, env: Option<string>, default: Value): Value {
    match default
    case Bool(on) => Bool(LoadedBool(env, on))
    case Text(text) => Text(LoadedText(env, text))
    case Duration(nanos) => Duration(LoadedDuration(d, env, nanos))
    case Keys(raw) => Keys(LoadedText(env, raw))
  }

  function Load(d: Durations, env: Environment): Variable -> Value {
    (v: Variable) => LoadedValue(d, env(v.name), v.default)
  }

  function LoadFrrConfig(d: Durations, env: Environment): seq<Value> {
    Map(Load(d, env), LOADER)
  }

  // ---------------------------------------------------------------- what is documented

  /** A setting as documented: its variable, the upstream flag it is for, and the default of that flag upstream. */
  datatype Documented = Documented(variable: string, flag: string, default: Value)

  /** The settings in the order of the documentation. */
  const DOCUMENTED: seq<Documented> :=
    SOCKET_DOCUMENTED + VTYSH_DOCUMENTED + PROTOCOL_DOCUMENTED + FEATURE_DOCUMENTED
    + PEER_TYPE_DOCUMENTED + PEER_TEXT_DOCUMENTED + PEER_DETAIL_DOCUMENTED + PREFIX_DOCUMENTED

  const SOCKET_DOCUMENTED: seq<Documented> := [
    Documented("FRR_SOCKET_DIR_PATH", "frr.socket.dir-path", Text("/var/run/frr")),
    Documented("FRR_SOCKET_TIMEOUT", "frr.socket.timeout", Duration(20 * SECOND))]

  const VTYSH_DOCUMENTED: seq<Documented> := [
    Documented("FRR_VTYSH_ENABLED", "frr.vtysh", Bool(false)),
    Documented("FRR_VTYSH_PATH", "frr.vtysh.path", Text("/usr/bin/vtysh")),
    Documented("FRR_VTYSH_TIMEOUT", "frr.vtysh.timeout", Duration(20 * SECOND)),
    Documented("FRR_VTYSH_SUDO", "frr.vtysh.sudo", Bool(false)),
    Documented("FRR_VTYSH_OPTIONS", "frr.vtysh.options", Text(""))]

  const PROTOCOL_DOCUMENTED: seq<Documented> := [
    Documented("FRR_BGP_ENABLED", "collector.bgp", Bool(true)),
    Documented("FRR_BGP6_ENABLED", "collector.bgp6", Bool(false)),
    Documented("FRR_BGPL2VPN_ENABLED", "collector.bgpl2vpn", Bool(false)),
    Documented("FRR_OSPF_ENABLED", "collector.ospf", Bool(true)),
    Documented("FRR_OSPF_INSTANCES", "collector.ospf.instances", Text("")),
    Documented("FRR_BFD_ENABLED", "collector.bfd", Bool(true))]

  const FEATURE_DOCUMENTED: seq<Documented> := [
    Documented("FRR_ROUTE_ENABLED", "collector.route", Bool(true)),
    Documented("FRR_ROUTE_DETAILED_ENABLED", "collector.route.detailed-routes", Bool(false)),
    Documented("FRR_RPKI_ENABLED", "collector.rpki", Bool(false)),
    Documented("FRR_VRRP_ENABLED", "collector.vrrp", Bool(false)),
    Documented("FRR_PIM_ENABLED", "collector.pim", Bool(false)),
    Documented("FRR_STATUS_ENABLED", "collector.status", Bool(true))]

  const PEER_TYPE_DOCUMENTED: seq<Documented> := [
    Documented("FRR_BGP_PEER_TYPES_ENABLED", "collector.bgp.peer-types", Bool(false)),
    Documented("FRR_BGP_PEER_TYPES_KEYS", "collector.bgp.peer-types.keys", Keys("type"))]

  const PEER_TEXT_DOCUMENTED: seq<Documented> := [
    Documented("FRR_BGP_PEER_DESCRIPTIONS_ENABLED", "collector.bgp.peer-descriptions", Bool(false)),
    Documented("FRR_BGP_PEER_DESCRIPTIONS_PLAIN_TEXT", "collector.bgp.peer-descriptions.plain-text", Bool(false))]

  const PEER_DETAIL_DOCUMENTED: seq<Documented> := [
    Documented("FRR_BGP_PEER_GROUPS_ENABLED", "collector.bgp.peer-groups", Bool(false)),
    Documented("FRR_BGP_PEER_HOSTNAMES_ENABLED", "collector.bgp.peer-hostnames", Bool(false)),
    Documented("FRR_BGP_ADVERTISED_PREFIXES_ENABLED", "collector.bgp.advertised-prefixes", Bool(false))]

  const PREFIX_DOCUMENTED: seq<Documented> := [
    Documented("FRR_BGP_ACCEPTED_FILTERED_PREFIXES_ENABLED", "collector.bgp.accepted-filtered-prefixes", Bool(false)),
    Documented("FRR_BGP_NEXT_HOP_INTERFACE_ENABLED", "collector.bgp.next-hop-interface", Bool(false)),
    Documented("FRR_BGP_MONITORED_PREFIXES_FILE", "collector.bgp.monitored-prefixes", Text(""))]

  function UpstreamFlag(row: Documented): Setting {
    Setting(row.flag, row.default)
  }

  /** The flags the upstream exporter knows. */
  const UPSTREAM: seq<Setting> := Map(UpstreamFlag, DOCUMENTED)

  function Asked(env: Environment, row: Documented): string {
    env(row.variable).GetOr("")
  }

  /** The arguments a documented setting stands for: none unless its variable asks for something but the default. */
  function FlagsFor(d: Durations, env: Environment): Documented -> seq<string> {
    (row: Documented) => RowFlags(d, Asked(env, row), row)
  }

  function RowFlags(d: Durations, asked: string, row: Documented): seq<string> {
    match row.default
    case Bool(on) =>
      if ParseBool(asked) != Some(!on) then [] else if on then ["--no-" + row.flag] else ["--" + row.flag]
    case Text(text) =>
      if TrimSpace(asked) in {"", text} then [] else ["--" + (row.flag + ['='] + TrimSpace(asked))]
    case Duration(nanos) =>
      var wanted := d.read(asked).GetOr(nanos);
      if asked == "" || wanted <= 0 || wanted == nanos then [] else ["--" + (row.flag + ['='] + d.show(wanted))]
    case Keys(raw) =>
      var keys := CleanParts(TrimSpace(asked));
      if keys == CleanParts(raw) then [] else Map(FlagWith(row.flag), keys)
  }

  /** What the upstream exporter is to end up with: a usable value of the variable, or else the default. */
  function Wanted(d: Durations, env: Environment, row: Documented): Meaning {
    var asked := Asked(env, row);
    match row.default
    case Bool(on) => IsBool(ParseBool(asked).GetOr(on))
    case Text(text) => IsText(if TrimSpace(asked) == "" then text else TrimSpace(asked))
    case Duration(nanos) =>
      var wanted := d.read(asked).GetOr(nanos);
      IsDuration(if asked == "" || wanted <= 0 then nanos else wanted)
    case Keys(raw) =>
      var keys := CleanParts(TrimSpace(asked));
      IsKeys(if keys == [] then CleanParts(raw) else keys)
  }

  // ---------------------------------------------------------------- the three tables agree

  /** Loader, builder and documentation speak of the same setting with the same default. */
  ghost predicate Agree(v: Variable, s: Setting, row: Documented) {
    v == Variable(row.variable, row.default) && s == Setting(row.flag, row.default)
  }

  ghost predicate Aligned(vs: seq<Variable>, ss: seq<Setting>, rows: seq<Documented>) {
    |vs| == |ss| == |rows| && forall i :: 0 <= i < |rows| ==> Agree(vs[i], ss[i], rows[i])
  }

  lemma AlignedAppend(vs: seq<Variable>, ss: seq<Setting>, rows: seq<Documented>, vs': seq<Variable>, ss': seq<Setting>,
                      rows': seq<Documented>)
    requires Aligned(vs, ss, rows) && Aligned(vs', ss', rows')
    ensures Aligned(vs + vs', ss + ss', rows + rows')
  {
    forall i | 0 <= i < |rows + rows'| ensures Agree((vs + vs')[i], (ss + ss')[i], (rows + rows')[i]) {
      assert i >= |rows| ==> Agree(vs'[i - |rows|], ss'[i - |rows|], rows'[i - |rows|]);
    }
  }

  lemma SocketAligned()
    ensures Aligned(SOCKET_LOADER, SOCKET_SETTINGS, SOCKET_DOCUMENTED)
  {
  }

  lemma VtyshAligned()
    ensures Aligned(VTYSH_LOADER, VTYSH_SETTINGS, VTYSH_DOCUMENTED)
  {
  }

  lemma ProtocolAligned()
    ensures Aligned(PROTOCOL_LOADER, PROTOCOL_SETTINGS, PROTOCOL_DOCUMENTED)
  {
  }

  lemma FeatureAligned()
    ensures Aligned(FEATURE_LOADER, FEATURE_SETTINGS, FEATURE_DOCUMENTED)
  {
  }

  lemma PeerTypeAligned()
    ensures Aligned(PEER_TYPE_LOADER, PEER_TYPE_SETTINGS, PEER_TYPE_DOCUMENTED)
  {
  }

  lemma PeerTextAligned()
    ensures Aligned(PEER_TEXT_LOADER, PEER_TEXT_SETTINGS, PEER_TEXT_DOCUMENTED)
  {
  }

  lemma PeerDetailAligned()
    ensures Aligned(PEER_DETAIL_LOADER, PEER_DETAIL_SETTINGS, PEER_DETAIL_DOCUMENTED)
  {
  }

  lemma PrefixAligned()
    ensures Aligned(PREFIX_LOADER, PREFIX_SETTINGS, PREFIX_DOCUMENTED)
  {
  }

  lemma FrrAligned()
    ensures Aligned(LOADER, FRR_SETTINGS, DOCUMENTED)
  {
    SocketAligned();
    VtyshAligned();
    ProtocolAligned();
    FeatureAligned();
    PeerTypeAligned();
    PeerTextAligned();
    PeerDetailAligned();
    PrefixAligned();
    var vs, ss, rows := SOCKET_LOADER, SOCKET_SETTINGS, SOCKET_DOCUMENTED;
    AlignedAppend(vs, ss, rows, VTYSH_LOADER, VTYSH_SETTINGS, VTYSH_DOCUMENTED);
    vs, ss, rows := vs + VTYSH_LOADER, ss + VTYSH_SETTINGS, rows + VTYSH_DOCUMENTED;
    AlignedAppend(vs, ss, rows, PROTOCOL_LOADER, PROTOCOL_SETTINGS, PROTOCOL_DOCUMENTED);
    vs, ss, rows := vs + PROTOCOL_LOADER, ss + PROTOCOL_SETTINGS, rows + PROTOCOL_DOCUMENTED;
    AlignedAppend(vs, ss, rows, FEATURE_LOADER, FEATURE_SETTINGS, FEATURE_DOCUMENTED);
    vs, ss, rows := vs + FEATURE_LOADER, ss + FEATURE_SETTINGS, rows + FEATURE_DOCUMENTED;
    AlignedAppend(vs, ss, rows, PEER_TYPE_LOADER, PEER_TYPE_SETTINGS, PEER_TYPE_DOCUMENTED);
    vs, ss, rows := vs + PEER_TYPE_LOADER, ss + PEER_TYPE_SETTINGS, rows + PEER_TYPE_DOCUMENTED;
    AlignedAppend(vs, ss, rows, PEER_TEXT_LOADER, PEER_TEXT_SETTINGS, PEER_TEXT_DOCUMENTED);
    vs, ss, rows := vs + PEER_TEXT_LOADER, ss + PEER_TEXT_SETTINGS, rows + PEER_TEXT_DOCUMENTED;
    AlignedAppend(vs, ss, rows, PEER_DETAIL_LOADER, PEER_DETAIL_SETTINGS, PEER_DETAIL_DOCUMENTED);
    vs, ss, rows := vs + PEER_DETAIL_LOADER, ss + PEER_DETAIL_SETTINGS, rows + PEER_DETAIL_DOCUMENTED;
    AlignedAppend(vs, ss, rows, PREFIX_LOADER, PREFIX_SETTINGS, PREFIX_DOCUMENTED);
    vs, ss, rows := vs + PREFIX_LOADER, ss + PREFIX_SETTINGS, rows + PREFIX_DOCUMENTED;
  }

  lemma AlignedFlags(vs: seq<Variable>, ss: seq<Setting>, rows: seq<Documented>)
    requires Aligned(vs, ss, rows)
    ensures Map(UpstreamFlag, rows) == ss
  {
    forall i | 0 <= i < |rows| ensures Map(UpstreamFlag, rows)[i] == ss[i] {
      assert Agree(vs[i], ss[i], rows[i]);
    }
  }

  /** The flags are built for the upstream exporter's own names and defaults. */
  lemma BuiltForUpstream()
    ensures FRR_SETTINGS == UPSTREAM
  {
    FrrAligned();
    AlignedFlags(LOADER, FRR_SETTINGS, DOCUMENTED);
  }

  // ---------------------------------------------------------------- from the environment to the arguments

  lemma KeysLoaded(asked: string, raw: string)
    ensures CleanParts(LoadedText(Some(asked), raw))
         == if TrimSpace(asked) == "" then CleanParts(raw) else CleanParts(TrimSpace(asked))
    ensures TrimSpace(asked) == "" ==> CleanParts(TrimSpace(asked)) == []
  {
    if TrimSpace(asked) == "" {
      assert TrimSpace("") == "";
      BlankHasNoParts("");
    }
  }

  lemma SameUnset(d: Durations, env: Option<string>, default: Value)
    ensures LoadedValue(d, env, default) == LoadedValue(d, Some(env.GetOr("")), default)
  {
    assert TrimSpace("") == "";
  }

  lemma SwitchArgs(d: Durations, asked: string, flag: string, on: bool, read: Option<bool>)
    requires read == ParseBool(asked) && (asked == "" ==> read.None?)
    ensures ArgsOf(d, Setting(flag, Bool(on)), Bool(LoadedBool(Some(asked), on)))
         == if read != Some(!on) then [] else if on then ["--no-" + flag] else ["--" + flag]
    ensures LoadedBool(Some(asked), on) == read.GetOr(on)
  {
  }

  lemma EmptyIsNoBool()
    ensures ParseBool("").None?
  {
  }

  lemma TextArgs(d: Durations, asked: string, flag: string, text: string)
    ensures ArgsOf(d, Setting(flag, Text(text)), Text(LoadedText(Some(asked), text)))
         == if TrimSpace(asked) in {"", text} then [] else ["--" + (flag + ['='] + TrimSpace(asked))]
  {
  }

  lemma KeysArgs(d: Durations, asked: string, flag: string, raw: string)
    ensures ArgsOf(d, Setting(flag, Keys(raw)), Keys(LoadedText(Some(asked), raw)))
         == if CleanParts(TrimSpace(asked)) == CleanParts(raw) then []
            else Map(FlagWith(flag), CleanParts(TrimSpace(asked)))
  {
    KeysLoaded(asked, raw);
    KeysGiven(d, Setting(flag, Keys(raw)), Keys(LoadedText(Some(asked), raw)),
              CleanParts(LoadedText(Some(asked), raw)), CleanParts(raw));
    NoKeysNoFlags(flag, CleanParts(TrimSpace(asked)));
  }

  lemma KeysGiven(d: Durations, setting: Setting, value: Value, keys: seq<string>, defaults: seq<string>)
    requires setting.default.Keys? && defaults == CleanParts(setting.default.raw)
    requires value.Keys? && keys == CleanParts(value.raw)
    ensures ArgsOf(d, setting, value) == if keys == defaults then [] else Map(FlagWith(setting.name), keys)
  {
  }

  lemma NoKeysNoFlags(flag: string, keys: seq<string>)
    ensures keys == [] ==> Map(FlagWith(flag), keys) == []
  {
  }

  lemma RowArgs(d: Durations, asked: string, s: Setting, row: Documented)
    requires s == Setting(row.flag, row.default)
    ensures ArgsOf(d, s, LoadedValue(d, Some(asked), row.default)) == RowFlags(d, asked, row)
  {
    match row.default
    case Bool(on) =>
      EmptyIsNoBool();
      SwitchArgs(d, asked, row.flag, on, ParseBool(asked));
    case Text(text) => TextArgs(d, asked, row.flag, text);
    case Duration(_) =>
    case Keys(raw) => KeysArgs(d, asked, row.flag, raw);
  }

  lemma RowWanted(d: Durations, asked: string, s: Setting, row: Documented, env: Environment)
    requires s == Setting(row.flag, row.default)
    requires asked == Asked(env, row)
    ensures Wanted(d, env, row)
         == if Expressible(s, LoadedValue(d, Some(asked), row.default))
            then MeaningOf(LoadedValue(d, Some(asked), row.default)) else MeaningOf(row.default)
  {
    match row.default
    case Bool(on) =>
      EmptyIsNoBool();
      SwitchArgs(d, asked, row.flag, on, ParseBool(asked));
    case Text(_) =>
    case Duration(_) =>
    case Keys(raw) => KeysLoaded(asked, raw);
  }

  lemma {:induction false} AllArgs(d: Durations, env: Environment, vs: seq<Variable>, ss: seq<Setting>,
                                   rows: seq<Documented>)
    requires Aligned(vs, ss, rows)
    ensures ArgsOfAll(d, ss, Map(Load(d, env), vs)) == FlatMap(FlagsFor(d, env), rows)
  {
    if rows != [] {
      var n := |rows| - 1;
      AllArgs(d, env, vs[..n], ss[..n], rows[..n]);
      assert Agree(vs[n], ss[n], rows[n]);
      SameUnset(d, env(rows[n].variable), rows[n].default);
      RowArgs(d, Asked(env, rows[n]), ss[n], rows[n]);
      MapSnoc(Load(d, env), vs);
      assert Map(Load(d, env), vs)[..n] == Map(Load(d, env), vs[..n]);
    }
  }

  lemma FrrConfigures(d: Durations, env: Environment)
    ensures Configures(FRR_SETTINGS, LoadFrrConfig(d, env))
  {
    FrrAligned();
    forall i | 0 <= i < |FRR_SETTINGS| ensures SameKind(FRR_SETTINGS[i].default, LoadFrrConfig(d, env)[i]) {
      assert Agree(LOADER[i], FRR_SETTINGS[i], DOCUMENTED[i]);
    }
  }

  /** Each setting in order, compared with the default it has upstream. */
  method BuildFrrArgs(d: Durations, config: seq<Value>) returns (args: seq<string>)
    requires Configures(FRR_SETTINGS, config)
    ensures |config| == |UPSTREAM| && args == ArgsOfAll(d, UPSTREAM, config)
  {
    BuiltForUpstream();
    args := BuildArgs(d, FRR_SETTINGS, config);
  }

  /** Loads the settings and builds the arguments: for every environment, those of the documented settings in order. */
  method FrrArgs(d: Durations, env: Environment) returns (args: seq<string>)
    ensures args == FlatMap(FlagsFor(d, env), DOCUMENTED)
  {
    FrrConfigures(d, env);
    args := BuildFrrArgs(d, LoadFrrConfig(d, env));
    BuiltForUpstream();
    FrrAligned();
    AllArgs(d, env, LOADER, FRR_SETTINGS, DOCUMENTED);
  }

  /** Whatever the environment, the upstream exporter accepts the arguments and ends up with what each variable asks. */
  lemma UpstreamGetsWanted(d: Durations, env: Environment, i: nat)
    requires Inverse(d) && i < |DOCUMENTED|
    ensures var parsed := ParseAll(d, UPSTREAM, FlatMap(FlagsFor(d, env), DOCUMENTED));
            parsed.Some? && Effective(parsed.value, UpstreamFlag(DOCUMENTED[i])) == Wanted(d, env, DOCUMENTED[i])
  {
    var config := LoadFrrConfig(d, env);
    FrrAligned();
    BuiltForUpstream();
    FrrConfigures(d, env);
    FrrNamesParsable();
    assert Agree(LOADER[i], FRR_SETTINGS[i], DOCUMENTED[i]);
    AllArgs(d, env, LOADER, FRR_SETTINGS, DOCUMENTED);
    RoundTrip(d, FRR_SETTINGS, config, i);
    SameUnset(d, env(DOCUMENTED[i].variable), DOCUMENTED[i].default);
    RowWanted(d, Asked(env, DOCUMENTED[i]), FRR_SETTINGS[i], DOCUMENTED[i], env);
  }

  predicate AllBlank(parts: seq<string>) {
    forall p :: p in parts ==> TrimSpace(p) == ""
  }

  /** Nothing but commas and white space. */
  predicate NothingBetweenCommas(s: string) {
    forall c :: c in s ==> c == ',' || IsSpace(c)
  }

  lemma {:induction false} BlankPieces(s: string)
    ensures AllBlank(Split(s, ',')) <==> NothingBetweenCommas(s)
    decreases |s|
  {
    CutProperties(s, ',');
    if Cut(s, ',').None? {
      TrimmedAwayExactly(s, IsSpace);
      assert s in Split(s, ',');
    } else {
      var (head, rest) := Cut(s, ',').value;
      TrimmedAwayExactly(head, IsSpace);
      BlankPieces(rest);
      assert AllBlank([head] + Split(rest, ',')) <==> TrimSpace(head) == "" && AllBlank(Split(rest, ','));
      assert NothingBetweenCommas(s) <==> NothingBetweenCommas(head) && NothingBetweenCommas(rest);
    }
  }

  /** Exactly when a list has no keys: when its text has nothing but commas and white space. */
  lemma NoKeysExactly(raw: string)
    ensures CleanParts(raw) == [] <==> NothingBetweenCommas(raw)
  {
    var parts := Split(raw, ',');
    var trimmed := Map(TrimSpace, parts);
    BlankPieces(raw);
    FilterMembers(NonEmpty, trimmed);
    FilterAll(NonEmpty, trimmed);
    if CleanParts(raw) == [] {
      forall p | p in parts ensures TrimSpace(p) == "" {
        var i :| 0 <= i < |parts| && parts[i] == p;
        assert trimmed[i] in trimmed && trimmed[i] !in CleanParts(raw);
      }
    }
  }

  // ---------------------------------------------------------------- what comes out of simple environments

  predicate Unset(env: Environment, row: Documented) {
    env(row.variable).None? || env(row.variable).value == ""
  }

  lemma UnsetIsSilent(d: Durations, env: Environment, row: Documented)
    requires Unset(env, row)
    ensures FlagsFor(d, env)(row) == []
  {
    assert TrimSpace("") == "";
    match row.default
    case Bool(_) => EmptyIsNoBool();
    case Text(_) =>
    case Duration(_) =>
    case Keys(_) =>
      BlankHasNoParts("");
      NoKeysNoFlags(row.flag, CleanParts(""));
  }

  lemma {:induction false} FlatMapNothing<T, U>(f: T -> seq<U>, s: seq<T>)
    requires forall j :: 0 <= j < |s| ==> f(s[j]) == []
    ensures FlatMap(f, s) == []
  {
    if s != [] {
      FlatMapNothing(f, s[..|s| - 1]);
    }
  }

  lemma {:induction false} FlatMapOnly<T, U>(f: T -> seq<U>, s: seq<T>, i: nat)
    requires i < |s| && forall j :: 0 <= j < |s| && j != i ==> f(s[j]) == []
    ensures FlatMap(f, s) == f(s[i])
  {
    if i == |s| - 1 {
      FlatMapNothing(f, s[..i]);
    } else {
      FlatMapOnly(f, s[..|s| - 1], i);
    }
  }

  /** Without any variable set, no argument is built. */
  lemma EmptyEnvironment(d: Durations, env: Environment)
    requires forall i :: 0 <= i < |DOCUMENTED| ==> Unset(env, DOCUMENTED[i])
    ensures FlatMap(FlagsFor(d, env), DOCUMENTED) == []
  {
    forall i | 0 <= i < |DOCUMENTED| ensures FlagsFor(d, env)(DOCUMENTED[i]) == [] {
      UnsetIsSilent(d, env, DOCUMENTED[i]);
    }
    FlatMapNothing(FlagsFor(d, env), DOCUMENTED);
  }

  /** With one variable set, the arguments are those of its setting. */
  lemma OnlyRow(d: Durations, env: Environment, rows: seq<Documented>, i: nat)
    requires i < |rows| && forall j :: 0 <= j < |rows| && j != i ==> Unset(env, rows[j])
    ensures FlatMap(FlagsFor(d, env), rows) == FlagsFor(d, env)(rows[i])
  {
    forall j | 0 <= j < |rows| && j != i ensures FlagsFor(d, env)(rows[j]) == [] {
      UnsetIsSilent(d, env, rows[j]);
    }
    FlatMapOnly(FlagsFor(d, env), rows, i);
  }

  /** A single switch turned against its upstream default yields exactly its flag, negated if the default is on. */
  lemma OneSwitchTurned(d: Durations, env: Environment, i: nat)
    requires i < |DOCUMENTED| && DOCUMENTED[i].default.Bool?
    requires forall j :: 0 <= j < |DOCUMENTED| && j != i ==> Unset(env, DOCUMENTED[j])
    requires ParseBool(Asked(env, DOCUMENTED[i])) == Some(!DOCUMENTED[i].default.on)
    ensures FlatMap(FlagsFor(d, env), DOCUMENTED)
         == [(if DOCUMENTED[i].default.on then "--no-" else "--") + DOCUMENTED[i].flag]
  {
    OnlyRow(d, env, DOCUMENTED, i);
  }

  /** An environment with one variable. */
  function Only(name: string, value: string): Environment {
    (variable: string) => if variable == name then Some(value) else None
  }

  /** Some variable other than FRR_BGP_ENABLED. */
  predicate NotBgp(row: Documented) {
    |row.variable| != 15 || row.variable[4] != 'B' || row.variable[5] != 'G'
  }

  ghost predicate NoneBgp(rows: seq<Documented>) {
    forall i :: 0 <= i < |rows| ==> NotBgp(rows[i])
  }

  lemma NoneBgpAppend(a: seq<Documented>, b: seq<Documented>)
    requires NoneBgp(a) && NoneBgp(b)
    ensures NoneBgp(a + b)
  {
  }

  lemma BgpAlone()
    ensures |SOCKET_DOCUMENTED + VTYSH_DOCUMENTED| == 7 && NoneBgp(SOCKET_DOCUMENTED + VTYSH_DOCUMENTED)
    ensures NoneBgp(PROTOCOL_DOCUMENTED[1..]) && NoneBgp(FEATURE_DOCUMENTED) && NoneBgp(PEER_TYPE_DOCUMENTED)
    ensures NoneBgp(PEER_TEXT_DOCUMENTED) && NoneBgp(PEER_DETAIL_DOCUMENTED) && NoneBgp(PREFIX_DOCUMENTED)
  {
  }

  lemma BgpRow()
    ensures |DOCUMENTED| == 29 && DOCUMENTED[7] == Documented("FRR_BGP_ENABLED", "collector.bgp", Bool(true))
    ensures NoneBgp(DOCUMENTED[..7]) && NoneBgp(DOCUMENTED[8..])
  {
    BgpAlone();
    AroundSeventh(SOCKET_DOCUMENTED + VTYSH_DOCUMENTED, PROTOCOL_DOCUMENTED, FEATURE_DOCUMENTED, PEER_TYPE_DOCUMENTED,
                  PEER_TEXT_DOCUMENTED, PEER_DETAIL_DOCUMENTED, PREFIX_DOCUMENTED);
  }

  lemma AroundSeventh(a: seq<Documented>, b: seq<Documented>, c: seq<Documented>, d: seq<Documented>,
                      e: seq<Documented>, f: seq<Documented>, g: seq<Documented>)
    requires |a| == 7 && |b| > 0 && NoneBgp(a) && NoneBgp(b[1..]) && NoneBgp(c) && NoneBgp(d) && NoneBgp(e)
    requires NoneBgp(f) && NoneBgp(g)
    ensures var all := a + b + c + d + e + f + g;
            NoneBgp(all[..7]) && NoneBgp(all[8..]) && all[7] == b[0]
  {
    var rest := b[1..] + c;
    NoneBgpAppend(rest, d);
    rest := rest + d;
    NoneBgpAppend(rest, e);
    rest := rest + e;
    NoneBgpAppend(rest, f);
    rest := rest + f;
    NoneBgpAppend(rest, g);
    rest := rest + g;
    assert (a + b + c + d + e + f + g)[..7] == a && (a + b + c + d + e + f + g)[8..] == rest;
  }

  lemma UnsetOutside(env: Environment, rows: seq<Documented>, i: nat, value: string)
    requires i < |rows| && NoneBgp(rows[..i]) && NoneBgp(rows[i + 1..])
    requires env == Only("FRR_BGP_ENABLED", value)
    ensures forall j :: 0 <= j < |rows| && j != i ==> Unset(env, rows[j])
  {
    forall j | 0 <= j < |rows| && j != i ensures Unset(env, rows[j]) {
      assert NotBgp(rows[j]) by {
        if j < i {
          assert rows[..i][j] == rows[j];
        } else {
          assert rows[i + 1..][j - (i + 1)] == rows[j];
        }
      }
      NotBgpDiffers(rows[j], "FRR_BGP_ENABLED");
    }
  }

  lemma NotBgpDiffers(row: Documented, name: string)
    requires NotBgp(row) && |name| == 15 && name[4] == 'B' && name[5] == 'G'
    ensures row.variable != name
  {
  }

  /** With `FRR_BGP_ENABLED=false` and nothing else, the exporter is told to leave BGP out, and nothing else. */
  lemma BgpTurnedOff(d: Durations)
    ensures FlatMap(FlagsFor(d, Only("FRR_BGP_ENABLED", "false")), DOCUMENTED) == ["--no-collector.bgp"]
  {
    var env := Only("FRR_BGP_ENABLED", "false");
    BgpRow();
    UnsetOutside(env, DOCUMENTED, 7, "false");
    OneSwitchTurned(d, env, 7);
    assert "--no-" + "collector.bgp" == "--no-collector.bgp";
  }

  // ---------------------------------------------------------------- loaded configurations

  /** The upstream exporter accepts the arguments and gives setting `i` its configured value. */
  predicate ReachesUpstream(d: Durations, config: seq<Value>, i: nat)
    requires |config| == |FRR_SETTINGS| && i < |UPSTREAM| && i < |config|
  {
    var parsed := ParseAll(d, UPSTREAM, ArgsOfAll(d, FRR_SETTINGS, config));
    parsed.Some? && Effective(parsed.value, UPSTREAM[i]) == MeaningOf(config[i])
  }

  lemma SameLengths()
    ensures |LOADER| == |FRR_SETTINGS| == |UPSTREAM| == |DOCUMENTED|
  {
    FrrAligned();
  }

  /**
   * Whatever the environment, the built flags carry every loaded setting to the upstream exporter, except a key list
   * without keys.
   */
  lemma LoadedRoundTrip(d: Durations, env: Environment, i: nat)
    requires Inverse(d) && i < |LOADER|
    ensures |LoadFrrConfig(d, env)| == |FRR_SETTINGS| == |UPSTREAM|
    ensures var config := LoadFrrConfig(d, env);
            ReachesUpstream(d, config, i) <==> (config[i].Keys? ==> CleanParts(config[i].raw) != [])
  {
    var config := LoadFrrConfig(d, env);
    FrrAligned();
    BuiltForUpstream();
    FrrConfigures(d, env);
    FrrNamesParsable();
    assert Agree(LOADER[i], FRR_SETTINGS[i], DOCUMENTED[i]);
    RoundTrip(d, FRR_SETTINGS, config, i);
    LoadedExpressible(d, env, i);
  }

  lemma LoadedExpressible(d: Durations, env: Environment, i: nat)
    requires i < |LOADER| == |FRR_SETTINGS|
    ensures var value := LoadFrrConfig(d, env)[i];
            Expressible(FRR_SETTINGS[i], value) <==> (value.Keys? ==> CleanParts(value.raw) != [])
  {
    FrrAligned();
    assert Agree(LOADER[i], FRR_SETTINGS[i], DOCUMENTED[i]);
    KeyDefault(i);
  }

  lemma KeyDefault(i: nat)
    requires i < |DOCUMENTED|
    ensures DOCUMENTED[i].default.Keys? ==> CleanParts(DOCUMENTED[i].default.raw) == ["type"]
  {
    FrrWellNamed();
    FrrAligned();
    assert WellNamed(FRR_SETTINGS[i], 0 + i) && Agree(LOADER[i], FRR_SETTINGS[i], DOCUMENTED[i]);
    DefaultKey();
  }

  /** A loaded configuration arrives as a whole exactly when its key lists have a key. */
  lemma LoadedRoundTripAll(d: Durations, env: Environment)
    requires Inverse(d)
    ensures |LoadFrrConfig(d, env)| == |FRR_SETTINGS| == |UPSTREAM|
    ensures var config := LoadFrrConfig(d, env);
            (forall i :: 0 <= i < |config| ==> ReachesUpstream(d, config, i))
            <==> forall i :: 0 <= i < |config| && config[i].Keys? ==> CleanParts(config[i].raw) != []
  {
    var config := LoadFrrConfig(d, env);
    SameLengths();
    forall i | 0 <= i < |config|
      ensures ReachesUpstream(d, config, i) <==> (config[i].Keys? ==> CleanParts(config[i].raw) != [])
    {
      LoadedRoundTrip(d, env, i);
    }
  }

  lemma CommaIsLoaded(raw: string)
    requires raw == ","
    ensures TrimSpace(raw) == raw && CleanParts(raw) == []
  {
    assert !IsSpace(raw[0]);
    TrimProperties(raw, IsSpace);
    NoKeysExactly(raw);
  }

  /** With a comma in the environment, the upstream exporter does not end up with no key but with the key `type`. */
  lemma CommaTurnsIntoDefault(d: Durations, env: Environment, i: nat)
    requires Inverse(d) && i < |DOCUMENTED| == |LOADER| && DOCUMENTED[i].default.Keys?
    requires env(DOCUMENTED[i].variable) == Some(",")
    ensures LoadFrrConfig(d, env)[i] == Keys(",") && MeaningOf(Keys(",")) == IsKeys([])
    ensures var parsed := ParseAll(d, UPSTREAM, FlatMap(FlagsFor(d, env), DOCUMENTED));
            parsed.Some? && Effective(parsed.value, UpstreamFlag(DOCUMENTED[i])) == IsKeys(["type"])
  {
    CommaLoaded(d, env, i);
    CommaIsLoaded(",");
    NoKeysWanted(d, env, DOCUMENTED[i], ",");
    KeyDefault(i);
    UpstreamGetsWanted(d, env, i);
  }

  lemma CommaLoaded(d: Durations, env: Environment, i: nat)
    requires i < |DOCUMENTED| == |LOADER| && DOCUMENTED[i].default.Keys?
    requires env(DOCUMENTED[i].variable) == Some(",")
    ensures LoadFrrConfig(d, env)[i] == Keys(",") && MeaningOf(Keys(",")) == IsKeys([])
  {
    CommaIsLoaded(",");
    FrrAligned();
    assert Agree(LOADER[i], FRR_SETTINGS[i], DOCUMENTED[i]);
  }

  lemma NoKeysWanted(d: Durations, env: Environment, row: Documented, asked: string)
    requires row.default.Keys? && env(row.variable) == Some(asked) && CleanParts(TrimSpace(asked)) == []
    ensures Wanted(d, env, row) == IsKeys(CleanParts(row.default.raw))
  {
  }
}
