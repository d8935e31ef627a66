/** What the LLDP series show: each neighbour's labels, its role and display name, and the local chassis. */
module LldpTheorems {
  import opened Results
  import opened Sequences
  import opened Strings
  import opened Sorting
  import opened Redis
  import opened Metrics
  import opened AcceptedCap
  import opened LldpCollector

  /** A neighbour's port is shown by its description for the subtypes local and MAC, or without a port id. */
  predicate ShowsDescription(fields: Fields) {
    || (Get(fields, "lldp_rem_port_desc") != ""
        && ToLower(TrimSpace(Get(fields, "lldp_rem_port_id_subtype"))) in {"7", "local", "3", "mac"})
    || Get(fields, "lldp_rem_port_id") == ""
  }

  /** The nine labels of a neighbour on an interface. */
  function NeighborLabels(interface: string, fields: Fields): seq<string> {
    [interface,
     if interface == "eth0" then "management" else if "Ethernet" <= interface then "frontpanel" else "other",
     Get(fields, "lldp_rem_sys_name"), Get(fields, "lldp_rem_port_id"), Get(fields, "lldp_rem_port_desc"),
     Get(fields, "lldp_rem_port_id_subtype"),
     Get(fields, if ShowsDescription(fields) then "lldp_rem_port_desc" else "lldp_rem_port_id"),
     Get(fields, "lldp_rem_chassis_id"), Get(fields, "lldp_rem_man_addr")]
  }

  /** Something besides the subtype is known about the neighbour. */
  predicate TellsNeighbor(fields: Fields) {
    || Get(fields, "lldp_rem_sys_name") != "" || Get(fields, "lldp_rem_port_id") != ""
    || Get(fields, "lldp_rem_port_desc") != "" || Get(fields, "lldp_rem_chassis_id") != ""
    || Get(fields, "lldp_rem_man_addr") != ""
  }

  lemma DisplayIs(fields: Fields)
    ensures PortDisplay(Get(fields, "lldp_rem_port_id"), Get(fields, "lldp_rem_port_desc"),
                        Get(fields, "lldp_rem_port_id_subtype"))
         == Get(fields, if ShowsDescription(fields) then "lldp_rem_port_desc" else "lldp_rem_port_id")
  {
  }

  lemma JudgedNeighbor(interface: string, fields: Fields)
    requires TellsNeighbor(fields) && interface != ""
    ensures LldpJudge("LLDP_ENTRY_TABLE:" + interface, fields)
         == Accepted([Series("sonic_lldp_neighbor_info", NeighborLabels(interface, fields), 1.0)], 0)
  {
    InterfaceOf(interface);
    DisplayIs(fields);
  }

  lemma InterfaceOf(interface: string)
    ensures Interface("LLDP_ENTRY_TABLE:" + interface) == interface
  {
  }

  lemma JudgedEmpty(key: string, fields: Fields)
    requires !TellsNeighbor(fields)
    ensures LldpJudge(key, fields) == Rejected
  {
  }

  /**
   * A neighbour is accepted exactly if its key names an interface that is not left out on purpose and its entry tells
   * something, and it is then shown under its nine labels.
   */
  lemma NeighborShown(includeMgmt: bool, store: Store, interface: string)
    ensures var key := "LLDP_ENTRY_TABLE:" + interface;
            var rules, fields := LldpRules(includeMgmt), store.Hash(APPL_DB, key);
            && (Valid(rules, store, key)
                <==> interface != "" && (includeMgmt || interface != "eth0") && TellsNeighbor(fields))
            && (Valid(rules, store, key) ==>
                SeriesAt(rules, store, key)
                == [Series("sonic_lldp_neighbor_info", NeighborLabels(interface, fields), 1.0)])
  {
    var key := "LLDP_ENTRY_TABLE:" + interface;
    var fields := store.Hash(APPL_DB, key);
    KeyOfInterface(interface);
    if TellsNeighbor(fields) {
      if interface != "" {
        JudgedNeighbor(interface, fields);
      }
    } else {
      JudgedEmpty(key, fields);
    }
  }

  lemma KeyOfInterface(interface: string)
    ensures Suffix("LLDP_ENTRY_TABLE:" + interface, LLDP_PREFIX) == if interface == "" then None else Some(interface)
  {
    assert ("LLDP_ENTRY_TABLE:" + interface)[17..] == interface;
  }

  /** The local chassis comes first, if it is known, and the series of each exported neighbour are in the report. */
  lemma LldpShows(includeMgmt: bool, max: nat, store: Store, keys: seq<string>, key: string, s: Series)
    ensures var chassis := store.Hash(APPL_DB, "LLDP_LOC_CHASSIS");
            var series := LldpReport(LldpSource(includeMgmt), max, store, keys).series;
            && (chassis != map[] ==>
                series != [] && series[0] == Series("sonic_lldp_local_chassis_info",
                                                    [Get(chassis, "lldp_loc_sys_name"),
                                                     Get(chassis, "lldp_loc_chassis_id")], 1.0))
            && (s in SeriesAt(LldpRules(includeMgmt), store, key) ==>
                key in Chosen(LldpRules(includeMgmt), store, keys, max) ==> s in series)
    ensures NeighborKeys(LldpSource(includeMgmt), store) == Sort(Self, store.Keys(APPL_DB, "LLDP_ENTRY_TABLE:*"))
  {
    var rules := LldpRules(includeMgmt);
    if key in Chosen(rules, store, keys, max) && s in SeriesAt(rules, store, key) {
      ChosenShown(rules, store, keys, max, key, s);
    }
  }
}
