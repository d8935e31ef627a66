/** What the routing series show: the pair each entry is counted under, and the count under each pair. */
module RoutingTheorems {
  import opened Results
  import opened Sequences
  import opened Strings
  import opened Sorting
  import opened Redis
  import opened Metrics
  import opened Histograms
  import opened RoutingCollector

  // ---------------------------------------------------------------- the pair of an entry

  /** An entry's own family, or else the one its address looks like. */
  function NeighborFamily(own: string, address: string): string {
    if ToLower(TrimSpace(own)) != "" then ToLower(TrimSpace(own)) else if ':' in address then "ipv6" else "ipv4"
  }

  /** A neighbour is counted under the interface before the first colon of its key and its address family. */
  lemma NeighborCountedUnder(store: Store, interface: string, address: string)
    requires ':' !in interface
    requires store.Hash(APPL_DB, "NEIGH_TABLE:" + (interface + [':'] + address)) != map[]
    ensures var key := "NEIGH_TABLE:" + (interface + [':'] + address);
            && Accepts(NEIGHBORS, store)(key)
            && PairAt(NEIGHBORS, store, key)
               == (interface, NeighborFamily(Get(store.Hash(APPL_DB, key), "family"), address))
  {
    var suffix := interface + [':'] + address;
    var key := "NEIGH_TABLE:" + suffix;
    assert key[12..] == suffix;
    CutUnique(interface, ':', address);
  }

  /** Nothing else is counted: a key without a second colon, or without an entry, is no neighbour. */
  lemma NeighborNeedsAddress(store: Store, key: string)
    requires Accepts(NEIGHBORS, store)(key)
    ensures "NEIGH_TABLE:" < key && ':' in key[12..] && store.Hash(APPL_DB, key) != map[]
  {
    CutProperties(key[12..], ':');
  }

  /** A route is counted under the family its prefix looks like and its protocol, or "unknown" without one. */
  lemma RouteCountedUnder(store: Store, prefix: string)
    ensures var key := "ROUTE_TABLE:" + prefix;
            var protocol := ToLower(TrimSpace(Get(store.Hash(APPL_DB, key), "protocol")));
            && (Accepts(ROUTES, store)(key) <==> prefix != "" && store.Hash(APPL_DB, key) != map[])
            && (prefix != "" ==>
                PairAt(ROUTES, store, key)
                == (if ':' in prefix then "ipv6" else "ipv4", if protocol == "" then "unknown" else protocol))
  {
    assert ("ROUTE_TABLE:" + prefix)[12..] == prefix;
  }

  // ---------------------------------------------------------------- the count under a pair

  /** The entries counted under a composite key. */
  function CountedUnder(t: Table, store: Store, composite: string): string -> bool {
    (key: string) => Accepts(t, store)(key) && Composite(PairAt(t, store, key)) == composite
  }

  /** Each counted entry has a series under its pair, with the number of entries that share its composite key. */
  lemma PairShown(t: Table, store: Store, keys: seq<string>, key: string)
    requires key in keys && Accepts(t, store)(key)
    ensures var composite := Composite(PairAt(t, store, key));
            t.show(composite, |Filter(CountedUnder(t, store, composite), keys)|)
            in TableSeries(t, CountsOf(t, store, keys))
  {
    var composite := Composite(PairAt(t, store, key));
    var names := Map(Composite, CountedPairs(t, store, keys));
    var h := Tally(names);
    CountMapped(Accepts(t, store), PairsOf(t, store), Composite, composite, CountedUnder(t, store, composite), keys);
    FilterMembers(Accepts(t, store), keys);
    MapMembers(PairsOf(t, store), Filter(Accepts(t, store), keys), key);
    MapMembers(Composite, CountedPairs(t, store, keys), PairAt(t, store, key));
    TallyCounts(names);
    SortedSetProperties(h.Keys);
    assert composite in h.Keys;
    MapMembers(Shower(t, h), SortedSet(h.Keys), composite);
  }

  /** Both tables of a report show their pairs. */
  lemma BothTables(store: Store, limits: Limits, n: Table, r: Table, s: Series)
    requires s in TableSeries(n, CountsOf(n, store, Window(ScanOf(n, store), limits.maxNeighbors)))
          || s in TableSeries(r, CountsOf(r, store, Window(ScanOf(r, store), limits.maxRoutes)))
    ensures s in ReportOf(store, limits, n, r).series
  {
  }

  /** The entries of a table that share the composite key of an entry. */
  function Sharing(t: Table, store: Store, pair: (string, string), keys: seq<string>): nat {
    |Filter(CountedUnder(t, store, pair.0 + "|" + pair.1), keys)|
  }

  /** In the report: each neighbour below the cap is counted under its pair. */
  lemma NeighborsShown(store: Store, limits: Limits, key: string)
    requires key in Window(store.Keys(APPL_DB, "NEIGH_TABLE:*"), limits.maxNeighbors) && Accepts(NEIGHBORS, store)(key)
    ensures var pair := PairAt(NEIGHBORS, store, key);
            var n := Sharing(NEIGHBORS, store, pair, Window(store.Keys(APPL_DB, "NEIGH_TABLE:*"), limits.maxNeighbors));
            Series("sonic_routing_neighbor_entries", [ShownPair(pair).0, ShownPair(pair).1], n as real)
            in ReportOf(store, limits, NEIGHBORS, ROUTES).series
  {
    var pair := PairAt(NEIGHBORS, store, key);
    NeighborScan(store);
    PairShown(NEIGHBORS, store, Window(ScanOf(NEIGHBORS, store), limits.maxNeighbors), key);
    SplitKeyComposite(pair);
    BothTables(store, limits, NEIGHBORS, ROUTES,
               NeighborSeries(Composite(pair),
                              Sharing(NEIGHBORS, store, pair, Window(ScanOf(NEIGHBORS, store), limits.maxNeighbors))));
  }

  lemma NeighborScan(store: Store)
    ensures ScanOf(NEIGHBORS, store) == store.Keys(APPL_DB, "NEIGH_TABLE:*")
  {
    assert "NEIGH_TABLE:" + "*" == "NEIGH_TABLE:*";
  }

  /** In the report: each route below the cap is counted under its pair. */
  lemma RoutesShown(store: Store, limits: Limits, key: string)
    requires key in Window(store.Keys(APPL_DB, "ROUTE_TABLE:*"), limits.maxRoutes) && Accepts(ROUTES, store)(key)
    ensures var pair := PairAt(ROUTES, store, key);
            var n := Sharing(ROUTES, store, pair, Window(store.Keys(APPL_DB, "ROUTE_TABLE:*"), limits.maxRoutes));
            Series("sonic_routing_route_entries", [ShownPair(pair).0, ShownPair(pair).1], n as real)
            in ReportOf(store, limits, NEIGHBORS, ROUTES).series
  {
    var pair := PairAt(ROUTES, store, key);
    RouteScan(store);
    PairShown(ROUTES, store, Window(ScanOf(ROUTES, store), limits.maxRoutes), key);
    SplitKeyComposite(pair);
    BothTables(store, limits, NEIGHBORS, ROUTES,
               RouteSeries(Composite(pair),
                           Sharing(ROUTES, store, pair, Window(ScanOf(ROUTES, store), limits.maxRoutes))));
  }

  lemma RouteScan(store: Store)
    ensures ScanOf(ROUTES, store) == store.Keys(APPL_DB, "ROUTE_TABLE:*")
  {
    assert "ROUTE_TABLE:" + "*" == "ROUTE_TABLE:*";
  }
}
