/** The FRR settings: the table of flags that are built, with names fit for parsing. */
module FrrSettings {
  import opened Results
  import opened Sequences
  import opened Strings
  import opened FrrFlags

  const SECOND := 1_000_000_000

  /** The flags in the order in which they are built, with the defaults they are compared against. */
  const FRR_SETTINGS :=
    SOCKET_SETTINGS + VTYSH_SETTINGS + PROTOCOL_SETTINGS + FEATURE_SETTINGS
    + PEER_TYPE_SETTINGS + PEER_TEXT_SETTINGS + PEER_DETAIL_SETTINGS + PREFIX_SETTINGS

  const SOCKET_SETTINGS: seq<Setting> := [
    Setting("frr.socket.dir-path", Text("/var/run/frr")),
    Setting("frr.socket.timeout", Duration(20 * SECOND))]

  const VTYSH_SETTINGS: seq<Setting> := [
    Setting("frr.vtysh", Bool(false)),
    Setting("frr.vtysh.path", Text("/usr/bin/vtysh")),
    Setting("frr.vtysh.timeout", Duration(20 * SECOND)),
    Setting("frr.vtysh.sudo", Bool(false)),
    Setting("frr.vtysh.options", Text(""))]

  const PROTOCOL_SETTINGS: seq<Setting> := [
    Setting("collector.bgp", Bool(true)),
    Setting("collector.bgp6", Bool(false)),
    Setting("collector.bgpl2vpn", Bool(false)),
    Setting("collector.ospf", Bool(true)),
    Setting("collector.ospf.instances", Text("")),
    Setting("collector.bfd", Bool(true))]

  const FEATURE_SETTINGS: seq<Setting> := [
    Setting("collector.route", Bool(true)),
    Setting("collector.route.detailed-routes", Bool(false)),
    Setting("collector.rpki", Bool(false)),
    Setting("collector.vrrp", Bool(false)),
    Setting("collector.pim", Bool(false)),
    Setting("collector.status", Bool(true))]

  const PEER_TYPE_SETTINGS: seq<Setting> := [
    Setting("collector.bgp.peer-types", Bool(false)),
    Setting("collector.bgp.peer-types.keys", Keys("type"))]

  const PEER_TEXT_SETTINGS: seq<Setting> := [
    Setting("collector.bgp.peer-descriptions", Bool(false)),
    Setting("collector.bgp.peer-descriptions.plain-text", Bool(false))]

  const PEER_DETAIL_SETTINGS: seq<Setting> := [
    Setting("collector.bgp.peer-groups", Bool(false)),
    Setting("collector.bgp.peer-hostnames", Bool(false)),
    Setting("collector.bgp.advertised-prefixes", Bool(false))]

  const PREFIX_SETTINGS: seq<Setting> := [
    Setting("collector.bgp.accepted-filtered-prefixes", Bool(false)),
    Setting("collector.bgp.next-hop-interface", Bool(false)),
    Setting("collector.bgp.monitored-prefixes", Text(""))]

  // ---------------------------------------------------------------- the names are fit for parsing

  /** The position of each flag name, told by its length and last letters; it shows that the names are distinct. */
  function Position(s: string): nat {
    var n := |s|;
    if n == 9 then 2
    else if n == 13 then (if s[n - 1] == 'p' then 7 else if s[n - 1] == 'd' then 12 else 17)
    else if n == 14 then
      (if s[n - 1] == 'h' then 3 else if s[n - 1] == 'o' then 5 else if s[n - 1] == '6' then 8
       else if s[n - 1] == 'f' then 10 else if s[n - 1] == 'i' then 15 else 16)
    else if n == 15 then 13
    else if n == 16 then 18
    else if n == 17 then (if s[n - 1] == 't' then 4 else 6)
    else if n == 18 then (if s[n - 1] == 't' then 1 else 9)
    else if n == 19 then 0
    else if n == 24 then (if s[n - 3] == 'c' then 11 else 19)
    else if n == 25 then 23
    else if n == 28 then 24
    else if n == 29 then 20
    else if n == 31 then (if s[n - 3] == 't' then 14 else 21)
    else if n == 32 then (if s[n - 1] == 'e' then 27 else 28)
    else if n == 33 then 25
    else if n == 40 then 26
    else if n == 42 then 22
    else 29
  }

  /**
   * A setting that has its own position and a name the parser can tell from a negation; key lists default to one key.
   */
  predicate WellNamed(setting: Setting, i: nat) {
    && Position(setting.name) == i
    && setting.name != "" && setting.name[0] != 'n' && '=' !in setting.name
    && (setting.default.Keys? ==> setting.default.raw == "type")
  }

  ghost predicate WellNamedFrom(settings: seq<Setting>, start: nat) {
    forall i :: 0 <= i < |settings| ==> WellNamed(settings[i], start + i)
  }

  lemma SocketSettingsPlain()
    ensures '=' !in "frr.socket.dir-path"
    ensures '=' !in "frr.socket.timeout"
  {
  }

  lemma SocketSettingsNamed()
    ensures |SOCKET_SETTINGS| == 2 && WellNamedFrom(SOCKET_SETTINGS, 0)
  {
    SocketSettingsPlain();
  }

  lemma VtyshSettingsPlain()
    ensures '=' !in "frr.vtysh"
    ensures '=' !in "frr.vtysh.path"
    ensures '=' !in "frr.vtysh.timeout"
    ensures '=' !in "frr.vtysh.sudo"
    ensures '=' !in "frr.vtysh.options"
  {
  }

  lemma VtyshSettingsNamed()
    ensures |VTYSH_SETTINGS| == 5 && WellNamedFrom(VTYSH_SETTINGS, 2)
  {
    VtyshSettingsPlain();
  }

  lemma ProtocolSettingsPlain()
    ensures '=' !in "collector.bgp"
    ensures '=' !in "collector.bgp6"
    ensures '=' !in "collector.bgpl2vpn"
    ensures '=' !in "collector.ospf"
    ensures '=' !in "collector.ospf.instances"
    ensures '=' !in "collector.bfd"
  {
  }

  lemma ProtocolSettingsNamed()
    ensures |PROTOCOL_SETTINGS| == 6 && WellNamedFrom(PROTOCOL_SETTINGS, 7)
  {
    ProtocolSettingsPlain();
  }

  lemma FeatureSettingsPlain()
    ensures '=' !in "collector.route"
    ensures '=' !in "collector.route.detailed-routes"
    ensures '=' !in "collector.rpki"
    ensures '=' !in "collector.vrrp"
    ensures '=' !in "collector.pim"
    ensures '=' !in "collector.status"
  {
  }

  lemma FeatureSettingsNamed()
    ensures |FEATURE_SETTINGS| == 6 && WellNamedFrom(FEATURE_SETTINGS, 13)
  {
    FeatureSettingsPlain();
  }

  lemma PeerTypeSettingsPlain()
    ensures '=' !in "collector.bgp.peer-types"
    ensures '=' !in "collector.bgp.peer-types.keys"
  {
  }

  lemma PeerTypeSettingsNamed()
    ensures |PEER_TYPE_SETTINGS| == 2 && WellNamedFrom(PEER_TYPE_SETTINGS, 19)
  {
    PeerTypeSettingsPlain();
  }

  lemma PeerTextSettingsPlain()
    ensures '=' !in "collector.bgp.peer-descriptions"
    ensures '=' !in "collector.bgp.peer-descriptions.plain-text"
  {
  }

  lemma PeerTextSettingsNamed()
    ensures |PEER_TEXT_SETTINGS| == 2 && WellNamedFrom(PEER_TEXT_SETTINGS, 21)
  {
    PeerTextSettingsPlain();
  }

  lemma PeerDetailSettingsPlain()
    ensures '=' !in "collector.bgp.peer-groups"
    ensures '=' !in "collector.bgp.peer-hostnames"
    ensures '=' !in "collector.bgp.advertised-prefixes"
  {
  }

  lemma PeerDetailSettingsNamed()
    ensures |PEER_DETAIL_SETTINGS| == 3 && WellNamedFrom(PEER_DETAIL_SETTINGS, 23)
  {
    PeerDetailSettingsPlain();
  }

  lemma PrefixSettingsPlain()
    ensures '=' !in "collector.bgp.accepted-filtered-prefixes"
    ensures '=' !in "collector.bgp.next-hop-interface"
    ensures '=' !in "collector.bgp.monitored-prefixes"
  {
  }

  lemma PrefixSettingsNamed()
    ensures |PREFIX_SETTINGS| == 3 && WellNamedFrom(PREFIX_SETTINGS, 26)
  {
    PrefixSettingsPlain();
  }

  lemma NamedAppend(a: seq<Setting>, b: seq<Setting>)
    requires WellNamedFrom(a, 0) && WellNamedFrom(b, |a|)
    ensures WellNamedFrom(a + b, 0)
  {
    forall i | 0 <= i < |a + b| ensures WellNamed((a + b)[i], i) {
      assert i >= |a| ==> WellNamed(b[i - |a|], |a| + (i - |a|));
    }
  }

  lemma FrrWellNamed()
    ensures WellNamedFrom(FRR_SETTINGS, 0)
  {
    SocketSettingsNamed();
    VtyshSettingsNamed();
    ProtocolSettingsNamed();
    FeatureSettingsNamed();
    PeerTypeSettingsNamed();
    PeerTextSettingsNamed();
    PeerDetailSettingsNamed();
    PrefixSettingsNamed();
    var s := SOCKET_SETTINGS;
    NamedAppend(s, VTYSH_SETTINGS);
    s := s + VTYSH_SETTINGS;
    NamedAppend(s, PROTOCOL_SETTINGS);
    s := s + PROTOCOL_SETTINGS;
    NamedAppend(s, FEATURE_SETTINGS);
    s := s + FEATURE_SETTINGS;
    NamedAppend(s, PEER_TYPE_SETTINGS);
    s := s + PEER_TYPE_SETTINGS;
    NamedAppend(s, PEER_TEXT_SETTINGS);
    s := s + PEER_TEXT_SETTINGS;
    NamedAppend(s, PEER_DETAIL_SETTINGS);
    s := s + PEER_DETAIL_SETTINGS;
    NamedAppend(s, PREFIX_SETTINGS);
    s := s + PREFIX_SETTINGS;
  }

  lemma WellNamedParsable(settings: seq<Setting>)
    requires WellNamedFrom(settings, 0)
    ensures ParsableNames(settings)
  {
    forall i, j | 0 <= i < |settings| && 0 <= j < |settings|
      ensures '=' !in settings[i].name && settings[i].name != "no-" + settings[j].name
      ensures i < j ==> settings[i].name != settings[j].name
    {
      assert WellNamed(settings[i], 0 + i) && WellNamed(settings[j], 0 + j);
    }
  }

  lemma FrrNamesParsable()
    ensures ParsableNames(FRR_SETTINGS)
  {
    FrrWellNamed();
    WellNamedParsable(FRR_SETTINGS);
  }

  lemma DefaultKey()
    ensures CleanParts("type") == ["type"]
  {
    var raw := "type";
    CutProperties(raw, ',');
    assert Split(raw, ',') == [raw] && [raw][..0] == [];
    TrimProperties(raw, IsSpace);
    assert Map(TrimSpace, [raw]) == [raw];
  }
}
