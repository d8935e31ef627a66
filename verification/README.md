# Verified model of sonic-exporter

sonic-exporter reads the Redis tables of a SONiC switch and serves them as cached Prometheus series. This project models
the parts of it that promise something over every table or every run, and proves those promises in Dafny 4.11:

- **Budgeted aggregation.** Each refresh turns sorted key lists into series under caps and accounts for what it drops.
  `GroupBudget` holds the loop shared by the VLAN and LAG collectors (two nested budgets), `FdbCollector` the three-table
  join with three histograms, `RoutingCollector` the composite-key histograms, `TransceiverCollector` the two index-capped
  loops, and `AcceptedCap` the loop of the LLDP, docker and platform health collectors, which cap the number of accepted
  entries. Every refresh method is proved against a specification of its report without a filter; the filter of disabled
  families reaches nothing but the list of series. `GroupBudgetTheorems` and `FdbTheorems` hold what the reports guarantee,
  `FdbMapOrder` how far Go's map order reaches into them, and `LabelTheorems`, `GroupLabels` and `TransceiverLabels` when a
  report repeats a series.
- **What the series say.** For each collector, every family with the table, field and rule its labels and values come from,
  spelled out over Redis and without the functions that build the series: `GroupStatus` (VLANs and LAGs), `FdbLabels`,
  `DockerTheorems`, `RoutingTheorems`, `LldpTheorems`, `PlatformTheorems`, `TransceiverTheorems`, `SystemLabels`.
- **The background snapshot cache.** `SnapshotCache` is the protocol of one refresher and any number of concurrent
  collects, step by step at the level of single field accesses; `DockerCache` is the collector object itself.
- **The scrape-time cache.** `ScrapeTimeCache` is the interface collector, which refills its cache in place and serves it
  for 15 seconds.
- **System metadata.** `SystemMetadata` is the first-source-wins chain, `SysEeprom` one of its parsers, `OutputBuffer` the
  byte-limited command output.
- **Two small protocols.** `WebListeners` binds, serves and releases the web listeners; `FrrFlags` encodes settings as
  command line flags and reads them back, `FrrSettings` is the table of FRR flags, and `FrrLoading` leads from environment
  variables through the loader and the flags to what the upstream exporter ends up with, against the documented settings.

Redis is a `Store`: each request has one answer for the whole refresh, or fails. A refresh method succeeds with the
specified report exactly when every request it needs is answered, and otherwise fails with a request that is not
(`Store.Answers`). A series is its family, its labels and its value.

## What the proofs found

Where the code departs from what a reader of its documentation would expect, the model follows the code:

- A VLAN or LAG member of a group that is not exported, because neither name table has it or because the group budget cuts
  it off, is neither emitted nor counted in `entries_skipped` (`GroupBudgetTheorems.SkippedExplainsAll` says exactly when
  the counter is complete, `VlanCollector.OrphanMemberUncounted` is an instance).
- The excluded LLDP management port is passed over silently, unless the neighbour cap is already full where it sorts; then
  it is counted as skipped (`LldpCollector.ManagementExclusion`, `LldpCollector.ManagementCountedAfterFullCap`).
- The architecture notes (`docs/architecture.md:105`) say that a failed refresh keeps the previous cache. For the
  scrape-time cache this holds exactly for the failures that could not make a Redis client
  (`ScrapeTimeCache.FailureKeepsCache`); any other failure replaces the cache by a partial list
  (`ScrapeTimeCache.FailureDropsSeries` is a run that loses a series). What it keeps grows: every failed client appends
  another success sample, so one collect can emit the success family several times (`ScrapeTimeCache.SuccessSamples`, with
  the instance `ScrapeTimeCache.TwoSuccessSamples`).
- The notes promise deterministic output (`docs/architecture.md:142`). Two results still depend on Go's map iteration order,
  each under an exact condition. The FDB port label does when its OID has several candidate names that give different
  labels (`FdbMapOrder.PortLabelDetermined`, with the instance `FdbMapOrder.PortLabelAmbiguous`; for the counts by port and
  the whole report, `FdbMapOrder.FdbPortCountsDetermined` and `FdbMapOrder.FdbReportDetermined`). The docker source time and
  its staleness do when no preferred field is present and the texts of the other timestamp fields lead to different states
  (`DockerCollector.SourceStateDetermined`, with the instance `DockerCollector.SourceTimeAmbiguous`); texts that differ but
  cannot be parsed, or mean one instant, do no harm.
- Routing label sets are not always distinct: two series collide exactly when two counted pairs with different composite
  keys show the same two halves (`RoutingCollector.LabelSetsDistinct`), which takes a `|` in a name; two routes with
  protocols `a|b` and `a|c` do (`RoutingCollector.RoutesCollide`).
- System values are normalised twice, which is not idempotent: a quoted placeholder within quotes masks the good value of a
  later source (`SystemMetadata.QuotedPlaceholderMasks`).
- The output buffer by itself reports truncation although nothing was lost when an empty write follows output that fills it
  exactly (`OutputBuffer.FalseAlarm`), and with a limit that is not positive it loses everything without reporting it
  (`OutputBuffer.NoLimitKeepsNothing`). The exporter gives it neither input: `parseIntEnv`
  (`internal/collector/lldp_collector.go:319-337`) turns limits below one into the default, and the copy from a command's
  pipe makes no empty write.
- Containers are labelled by their name field and not by their key, so two entries with one name are emitted as the same
  series twice; nothing else makes container series repeat (`LabelTheorems.ContainerIdsDistinct`, with the instance
  `LabelTheorems.OneNameTwice`). The FDB collector never repeats a series; process, storage, neighbour, VLAN, LAG and
  transceiver series repeat only if a scan returns a key twice.
- A list of FRR peer-type keys that has nothing but commas and white space contains no key (`FrrLoading.NoKeysExactly`) and
  silently turns into the default list (`FrrLoading.LoadedRoundTrip`, with the instance
  `FrrLoading.CommaTurnsIntoDefault`). The helper compares lists by their joined texts, so it takes different lists for equal
  when they only group the same comma-separated pieces differently (`FrrFlags.JoinComparesPieces`); the lists it is called
  with have one piece per part (`FrrFlags.PlainPartsCompared`).

## Model

| member | source | states |
|---|---|---|
| SnapshotCache.CollectSeesOneSnapshot | internal/collector/docker_collector.go:150-241 | In every interleaving of field accesses, what one collect copies is one served snapshot: all its data from the latest success of some prefix of the refreshes, its success flag and duration from that prefix's last refresh. |
| SnapshotCache.RunsKeepInvariant | internal/collector/docker_collector.go:150-241 | Every state of every schedule keeps the memory, reader and collected-copy invariants. |
| SnapshotCache.ServedIsLatestSuccess | internal/collector/docker_collector.go:215-241 | After any history the served snapshot is that of the most recent success, zero values if none, with the flag and duration of the last refresh. |
| SnapshotCache.Published | internal/collector/docker_collector.go:226-240 | The assignments under the lock replace the whole snapshot on success and touch only the flag and the duration on failure. |
| SnapshotCache.RefreshTimeMonotone | internal/collector/docker_collector.go:240 | With a clock that does not run backwards the refresh time never decreases and never disappears. |
| SnapshotCache.CollectsNeverGoBack | internal/collector/docker_collector.go:150-159 | Of two collects, the one that finishes later never carries the older refresh time. |
| SnapshotCache.MemoryPreserved | internal/collector/docker_collector.go:223-240 | A write step under the lock keeps memory equal to the served snapshot plus the assignments made so far. |
| SnapshotCache.ReadersPreserved | internal/collector/docker_collector.go:150-159 | Every field a collect has copied so far stays current until it releases the read lock. |
| SnapshotCache.CollectedPreserved | internal/collector/docker_collector.go:150-159 | Finished copies stay snapshots of the history, in order. |
| DockerCache.NewDockerCollector | internal/collector/docker_collector.go:61-118 | A new collector has refreshed exactly once if it is enabled and not at all if it is disabled. |
| DockerCache.Collector.constructor | internal/collector/docker_collector.go:104-107 | A new collector object serves the zero values of an empty history. |
| DockerCache.Collector.RefreshMetrics | internal/collector/docker_collector.go:215-241 | One refresh adds one outcome to the history, a success with the report of the tables exactly when a client exists and every request is answered. |
| DockerCache.Collector.StoreOutcome | internal/collector/docker_collector.go:226-240 | The eight assignments store the outcome that the history then ends with. |
| DockerCache.Collector.Collect | internal/collector/docker_collector.go:145-204 | A collect changes nothing and emits nothing when disabled, and otherwise the cached series and eight gauges: success is 1 exactly if the last outcome succeeded; stale, skipped, containers, source time and refresh time are those of the latest successful outcome, zero values if there is none. |
| DockerCache.CollectedGauges | internal/collector/docker_collector.go:170-204 | For every history of refreshes, filter and clock reading, the value of each of the eight gauge families, stated over the outcomes of the history. |
| DockerCache.FreshRefresh | internal/collector/docker_collector.go:190-199 | After one successful refresh with a fresh source, success is emitted as 1 and stale as 0. |
| DockerCache.OutcomesUnder | internal/collector/docker_collector.go:260-352 | A refresh ends the same way under any filter, with the disabled families gone from its series and all counts unchanged. |
| DockerCache.FilterOnlyRemoves | internal/collector/docker_collector.go:180-352 | After any run of refreshes, what is emitted under a filter is what is emitted without one minus the disabled families, in the same order. |
| ScrapeTimeCache.HitServesLastSuccess | internal/collector/interface_collector.go:127-135 | In every run with a monotone clock a collect inside the window emits exactly the complete output of the last successful scrape. |
| ScrapeTimeCache.FifteenSeconds | internal/collector/interface_collector.go:127-135 | After a first successful scrape, a collect repeats its output before 15 seconds are over and scrapes again from then on. |
| ScrapeTimeCache.CollectTold | internal/collector/interface_collector.go:117-201 | What any collect after any run leaves and emits: the same within the window; all builders, the duration and a success of 1 after a scrape without a failure; a success of 0 behind the builders up to the first failure, or behind the old cache when no client could be made. |
| ScrapeTimeCache.FailureRetries | internal/collector/interface_collector.go:137-200 | The collect after a failed scrape always scrapes again. |
| ScrapeTimeCache.CacheInvariant | internal/collector/interface_collector.go:117-201 | Under any clock, the timestamp is that of the last success, and the cache is its complete output unless a scrape has failed since. |
| ScrapeTimeCache.CacheExactly | internal/collector/interface_collector.go:117-201 | Under any clock and after some success, the cache that a hit serves is the complete output of the last success if and only if no scrape has failed since. |
| ScrapeTimeCache.FailureKeepsCache | docs/architecture.md:105 | A failed scrape keeps every previous cache, adding a zero success sample, if and only if it could not make a client. |
| ScrapeTimeCache.FailureDropsSeries | internal/collector/interface_collector.go:153-201 | A run in which a failed builder makes a cached series disappear. |
| ScrapeTimeCache.BackwardsClockServesPartial | internal/collector/interface_collector.go:127-135 | Why the monotone readings matter: if a clock stepped back, which Go's readings do not, a collect would serve the partial list of a failed scrape. |
| ScrapeTimeCache.SuccessSamples | internal/collector/interface_collector.go:137-165 | A collect emits one success sample for the last reset and one more for every later collect that could not make a client. |
| ScrapeTimeCache.TwoSuccessSamples | internal/collector/interface_collector.go:137-165 | Two collects in a row without a client: the second emits two success samples. |
| ScrapeTimeCache.OneSampleExactly | internal/collector/interface_collector.go:142-165 | Once the cache was reset, exactly one success sample is emitted if and only if no client failed since. |
| ScrapeTimeCache.Collector.Collect | internal/collector/interface_collector.go:117-151 | A collect appends its event to the run and emits the cached list the run leaves. |
| ScrapeTimeCache.Collector.ScrapeMetrics | internal/collector/interface_collector.go:153-201 | The refill keeps everything up to the first failing builder, keeps the old cache when there is no client, and moves the timestamp only on success. |
| GroupBudget.Scrape | internal/collector/vlan_collector.go:180-319 | The refresh with its two nested budgets returns the filtered report of the specification exactly when every request is answered. |
| GroupBudget.EmitGroups | internal/collector/vlan_collector.go:252-316 | The group loop emits the sections of the kept groups under both budgets and counts every group and member beyond them. |
| GroupBudget.NextGroup | internal/collector/vlan_collector.go:262-315 | One group takes what the member budget leaves for it and counts the rest as skipped. |
| GroupBudget.EmitMembers | internal/collector/vlan_collector.go:290-310 | The member loop emits a prefix of the members that fills the budget and counts the others. |
| GroupBudget.SortMembers | internal/collector/vlan_collector.go:285-288 | The member sort is known only up to the order of equal names. |
| GroupBudget.GroupMembers | internal/collector/vlan_collector.go:229-250 | Grouping keeps every well-formed member in scan order under its group and counts the malformed keys. |
| GroupStatus.MemberKeyExactly | internal/collector/vlan_collector.go:229-250 | A member key is the prefix, a non-empty group without the separator, the separator and a non-empty name, and nothing else is one. |
| GroupBudget.CollectNames | internal/collector/vlan_collector.go:202-227 | The names are the ascending union of both tables, and keys without a name are counted. |
| GroupBudget.NameDetermines | internal/collector/vlan_collector.go:237-249 | Within a group the member name determines the whole entry, since it determines the key. |
| GroupBudget.SortIsForced | internal/collector/vlan_collector.go:285-288 | The unstable member sort therefore has only one possible result. |
| GroupBudgetTheorems.MembersExported | internal/collector/vlan_collector.go:290-314 | The exported members are the first maxMembers of the concatenated sorted member lists of the first maxVlans names, each gauge is what the budget leaves of its group, and the gauges sum to the smaller of budget and total. |
| GroupBudgetTheorems.AllotmentsArePrefix | internal/collector/vlan_collector.go:290-310 | The per-group allotments cut the concatenation of all groups at exactly the budget. |
| GroupBudgetTheorems.GaugesSum | internal/collector/vlan_collector.go:312-314 | The member gauges add up to the smaller of the budget and the number of members. |
| GroupBudgetTheorems.ScanOrderIrrelevant | docs/architecture.md:142 | Permuting the keys of the three scans, repeated ones included, leaves the report and the kept names unchanged, and the reads of the member table are all answered in both orders or in neither. |
| GroupBudgetTheorems.KeysAccountedFor | internal/collector/vlan_collector.go:203-316 | Every distinct name, malformed name key and scanned member key is exported, skipped, or a member of a group that is not exported. |
| GroupBudgetTheorems.ScannedKeysAccountedFor | internal/collector/vlan_collector.go:203-316 | When no name scan repeats a key, every scanned key is exported, skipped, a member of a group that is not exported, or the second key of a name that both tables have. |
| GroupBudgetTheorems.SkippedExplainsAll | internal/collector/vlan_collector.go:229-316 | The skip counter explains every missing key if and only if every member's group is exported. |
| VlanCollector.ScrapeVlans | internal/collector/vlan_collector.go:180-319 | The VLAN refresh returns the filtered report of the VLAN tables. |
| VlanCollector.VlanMembersExported | internal/collector/vlan_collector.go:252-316 | The exported VLAN members, each VLAN's member gauge with its value, and the sum of the gauges. |
| VlanCollector.OrphanMemberUncounted | internal/collector/vlan_collector.go:229-256 | A member of a VLAN in neither table leaves no series and no skip. |
| GroupStatus.VlanStatusTold | internal/collector/vlan_collector.go:262-284 | Each exported VLAN has its information series with the configured id, or else its name without "Vlan"; an administrative status exactly if APPL_DB or else CONFIG_DB has text for it; an operational status exactly if APPL_DB has a value; 1 for the six words for up, trimmed and in any case, and 0 otherwise. |
| GroupStatus.VlanMembersTold | internal/collector/vlan_collector.go:229-310 | The member series are those of the exported members, each with a scanned key of an exported VLAN and with the tagging mode of its CONFIG_DB row, "unknown" without text. |
| GroupStatus.VlanUpAndDown | internal/collector/vlan_collector.go:281-283 | An exported VLAN whose APPL_DB row says "up" shows 1 in the report, and one whose row says "down" shows 0. |
| LagCollector.ScrapeLags | internal/collector/lag_collector.go:180-317 | The LAG refresh returns the filtered report of the LAG tables. |
| LagCollector.LagMembersExported | internal/collector/lag_collector.go:251-314 | The exported LAG members, each LAG's member gauge with its value, and the sum of the gauges. |
| GroupStatus.LagStatusTold | internal/collector/lag_collector.go:261-282 | Each exported LAG has its information series; an administrative status exactly if APPL_DB or else CONFIG_DB has text for it; an operational status exactly if APPL_DB has a value; 1 for the six words for up, trimmed and in any case, and 0 otherwise. |
| GroupStatus.LagMembersTold | internal/collector/lag_collector.go:290-309 | The member series are those of the exported members, each with a scanned key of an exported LAG, and 1 exactly if its APPL_DB row has one of the six words as status. |
| GroupStatus.LagUpAndDown | internal/collector/lag_collector.go:280-282 | An exported LAG whose APPL_DB row says "up" shows 1 in the report, and one whose row says "down" shows 0. |
| FdbCollector.ScrapeFdb | internal/collector/fdb_collector.go:199-318 | The refresh returns the filtered report for some inversion of the name maps exactly when every request is answered. |
| FdbCollector.AddNames | internal/collector/fdb_collector.go:331-338 | Ranging over a name map in any order stores under each OID a name that maps to it. |
| FdbCollector.InvertNames | internal/collector/fdb_collector.go:320-341 | Each OID gets a name that maps to it, LAG names overriding port names. |
| FdbCollector.InversionUnique | internal/collector/fdb_collector.go:331-338 | The inversion is independent of the iteration order if and only if no OID has two candidate names: two LAG names, or two port names and no LAG name. |
| FdbCollector.BvidToVlan | internal/collector/fdb_collector.go:343-374 | The VLAN table and its skip count as functions of the scanned keys. |
| FdbCollector.BridgePortToPort | internal/collector/fdb_collector.go:376-412 | The bridge port table and its skip count; a bridge port without a port object is passed over uncounted. |
| FdbCollector.CountKey | internal/collector/fdb_collector.go:243-277 | One entry is skipped, or counted under its VLAN, port and type. |
| FdbCollector.CountEntries | internal/collector/fdb_collector.go:229-278 | The entry loop counts the accepted keys of the first maxEntries, skips all others, and raises the flag exactly beyond the cap. |
| FdbCollector.EmitCounts | internal/collector/fdb_collector.go:280-317 | The emission is the filtered series list, and labels beyond the two caps are added to the skips. |
| FdbTheorems.FdbKeysAccountedFor | internal/collector/fdb_collector.go:229-278 | Counted, malformed, empty and cut-off keys are all the scanned keys. |
| FdbTheorems.FdbSkipLedger | internal/collector/fdb_collector.go:211-308 | The final skip counter, contribution by contribution, and truncation exactly when the scan exceeds the cap. |
| FdbTheorems.FdbHistogramsConserve | internal/collector/fdb_collector.go:259-277 | Each of the three histograms sums to the total, and unknown VLANs are at most the "unknown" bucket. |
| FdbTheorems.FdbFamily | internal/collector/fdb_collector.go:288-315 | The labelled families list the lexicographically first labels up to their caps, each with its count. |
| FdbTheorems.FdbSeriesConserve | internal/collector/fdb_collector.go:280-315 | The emitted VLAN and port values sum to the emitted total if and only if no label is cut off; the type values always do. |
| FdbTheorems.FdbPortJoin | internal/collector/fdb_collector.go:269-272 | A bridge port is labelled with the name its tables give, and "unknown" exactly when they give none. |
| FdbTheorems.FdbEntryPort | internal/collector/fdb_collector.go:259-277 | The port label of an entry is a name that really maps to its port's OID, a LAG name if there is one. |
| FdbTheorems.FdbVlanJoin | internal/collector/fdb_collector.go:343-374 | A VLAN object id stands for the trimmed VLAN id of its row, if there is one. |
| FdbLabels.FdbEntryVlan | internal/collector/fdb_collector.go:445-457 | An accepted entry is counted under its own trimmed VLAN, or else under the trimmed VLAN id of the scanned row that its trimmed bvid names, or else under "unknown", and as one of unknown VLAN exactly in the last case. |
| FdbLabels.FdbEntryType | internal/collector/fdb_collector.go:264-277 | An accepted entry is counted under its type in lower case without the SAI prefix, or "unknown" if nothing is left. |
| FdbLabels.FdbEntryNoPort | internal/collector/fdb_collector.go:269-272 | An accepted entry whose bridge port stands for no port name is counted under "unknown". |
| FdbLabels.TableSkipsExactly | internal/collector/fdb_collector.go:349-409 | A VLAN row is skipped if and only if its key or fields lack an id; a bridge port row if and only if its key lacks an id or its port object has no name, so one without a port object is passed over. |
| FdbLabels.FdbAcceptedExactly | internal/collector/fdb_collector.go:243-257 | An entry is accepted if and only if its key carries a payload that decodes to an entry with a MAC address and its row is not empty. |
| FdbLabels.BvidCountedUnderTen | internal/collector/fdb_collector.go:445-457 | With the real key prefixes, an entry without a VLAN whose VLAN row says 10 is counted under 10. |
| FdbLabels.FdbCountsTold | internal/collector/fdb_collector.go:259-277 | Each count by VLAN, port and type, the total and the unknown VLANs are the numbers of accepted keys below the cap with that label. |
| FdbLabels.FdbTotals | internal/collector/fdb_collector.go:280-286 | The two families without labels show the total and the number of entries of unknown VLAN. |
| FdbTheorems.FdbScanOrderIrrelevant | internal/collector/fdb_collector.go:227 | Permuting the keys of the three scans leaves the report unchanged. |
| FdbMapOrder.FdbDeterministic | internal/collector/fdb_collector.go:227-341 | When the candidate names of every counted entry's OID give one label, and those of every bridge port's OID are all empty or all non-empty, neither scan order nor map order reaches the report. |
| FdbMapOrder.PortLabelDetermined | internal/collector/fdb_collector.go:331-412 | The label of a bridge port is independent of the map order if and only if the tables give it no OID or all candidate names of its OID read the same as labels. |
| FdbMapOrder.PortLabelAmbiguous | internal/collector/fdb_collector.go:331-412 | With two ports of one OID, the same bridge port is labelled Ethernet0 under one map order and Ethernet4 under another. |
| FdbMapOrder.FdbPortCountsDetermined | internal/collector/fdb_collector.go:243-277 | The counts by port are independent of the map order if and only if for every counted entry with a port OID the candidate names of that OID give the same label; ambiguities never cancel out. |
| FdbMapOrder.FdbReportDetermined | internal/collector/fdb_collector.go:199-318 | As long as the port cap cuts no label off, the whole report is independent of the map order if and only if the condition of FdbDeterministic holds. |
| Histograms.EmitShown | internal/collector/fdb_collector.go:288-308 | Exactly the first labels up to the cap are emitted in ascending order and the others are counted. |
| Histograms.TallyCounts | internal/collector/fdb_collector.go:274-277 | A histogram has exactly the labels that occur, each with its number of occurrences. |
| Histograms.TotalTally | internal/collector/fdb_collector.go:274-277 | A histogram adds up to the number of entries. |
| Histograms.ShownTotal | internal/collector/fdb_collector.go:288-308 | The shown counts add up to the number of entries if and only if the cap cuts nothing off. |
| Sorting.SortedKeys | internal/collector/fdb_collector.go:465-472 | Ranging over a map in any order and sorting gives the one ascending key list. |
| Sorting.SortedUnique | internal/collector/vlan_collector.go:285-288 | Two sorted permutations are equal when equal keys mean equal elements. |
| RoutingCollector.ScrapeRouting | internal/collector/routing_collector.go:180-286 | The refresh returns the filtered report of both tables exactly when every request is answered. |
| RoutingCollector.CountTable | internal/collector/routing_collector.go:205-268 | A counting loop tallies the accepted keys below the index cap, skips all others and raises the flag exactly beyond it. |
| RoutingCollector.RoutingConserves | internal/collector/routing_collector.go:205-283 | Emitted counts plus skips are the scanned keys of both tables. |
| RoutingCollector.RoutingScanOrderIrrelevant | internal/collector/routing_collector.go:190-268 | Permuting the keys of both scans leaves the report unchanged. |
| RoutingCollector.SplitComposite | internal/collector/routing_collector.go:237-274 | Splitting a composite key gives its pair back if and only if neither half contains the separator. |
| RoutingCollector.SplitKeyComposite | internal/collector/routing_collector.go:237-274 | What a composite key shows of any pair: the first two pieces between separators, from the first half alone if that contains one. |
| RoutingCollector.LabelSetsDistinct | internal/collector/routing_collector.go:270-283 | The label sets of a table are pairwise distinct if and only if no two counted pairs with different composite keys show the same two halves. |
| RoutingCollector.PipeFreeNoneCollide | internal/collector/routing_collector.go:270-283 | Pairs without separators never collide. |
| RoutingCollector.RoutesCollide | internal/collector/routing_collector.go:243-283 | Two stored routes whose protocols differ only after a separator are counted apart and shown under the same labels. |
| RoutingTheorems.NeighborCountedUnder | internal/collector/routing_collector.go:212-237 | A neighbour is counted under the interface before the first colon and its own family, or else ipv6 exactly if its address has a colon. |
| RoutingTheorems.NeighborNeedsAddress | internal/collector/routing_collector.go:212-230 | A counted neighbour has a second colon in its key and a row that is not empty. |
| RoutingTheorems.RouteCountedUnder | internal/collector/routing_collector.go:247-267 | A route is counted if and only if it has a prefix and a row, under ipv6 exactly if the prefix has a colon, and its protocol or "unknown". |
| RoutingTheorems.NeighborsShown | internal/collector/routing_collector.go:271-276 | Each counted neighbour has a series under its pair with the number of neighbours that share the composite key. |
| RoutingTheorems.RoutesShown | internal/collector/routing_collector.go:278-283 | Each counted route has a series under its pair with the number of routes that share the composite key. |
| AcceptedCap.ScrapeCapped | internal/collector/lldp_collector.go:207-268 | The loop that tests the cap before validity returns the report of taking the first max of the valid entries. |
| AcceptedCap.VisitKey | internal/collector/platform_health_collector.go:233-282 | One key is passed over, skipped, cut off or accepted, in the order of the tests. |
| AcceptedCap.EntriesAccountedFor | internal/collector/platform_health_collector.go:231-336 | Accepted, skipped and passed-over keys are all keys, plus the unusable fields of accepted entries. |
| AcceptedCap.SkipLedger | internal/collector/platform_health_collector.go:231-336 | The skip counter is the sum of keys beyond the cap, malformed keys, refused entries and unusable fields of accepted ones; the flag is raised exactly when some key is beyond the cap. |
| AcceptedCap.NothingLostUnlessCut | internal/collector/platform_health_collector.go:237-241 | Unless the flag is raised every valid entry is accepted. |
| AcceptedCap.CutOffExactly | internal/collector/platform_health_collector.go:237-241 | The flag is raised if and only if a key that is not passed over comes after max valid entries. |
| AcceptedCap.AllIgnoredPassed | internal/collector/platform_health_collector.go:234-236 | Keys recognised before the cap test are all passed over. |
| AcceptedCap.LateIgnoredCounted | internal/collector/lldp_collector.go:208-221 | Keys recognised after the cap test are all passed over if and only if none of them meets a full cap. |
| LldpCollector.ScrapeLldp | internal/collector/lldp_collector.go:175-271 | The refresh returns the filtered report of the chassis entry and the neighbours. |
| LldpCollector.LldpScanOrderIrrelevant | internal/collector/lldp_collector.go:187 | Permuting the scanned keys leaves the report unchanged. |
| LldpCollector.ManagementExclusion | internal/collector/lldp_collector.go:207-221 | The excluded management port stays out of the skip counter if and only if it does not meet a full cap. |
| LldpCollector.ManagementCountedAfterFullCap | internal/collector/lldp_collector.go:207-221 | With room for one neighbour, Ethernet0 makes the excluded eth0 count as skipped. |
| LldpTheorems.NeighborShown | internal/collector/lldp_collector.go:213-264 | A neighbour is accepted if and only if its key names an interface that is not excluded and its entry tells something besides the subtype, and it then shows nine labels: role by interface name, and the description for the subtypes local and MAC or without a port id. |
| LldpTheorems.LldpShows | internal/collector/lldp_collector.go:182-268 | A known local chassis comes first in the report, and the series of each chosen neighbour are in it. |
| PlatformHealthCollector.ScrapePlatform | internal/collector/platform_health_collector.go:216-357 | The refresh returns the filtered report of processes, storage and health fields. |
| PlatformHealthCollector.PlatformLosesNothingUntruncated | internal/collector/platform_health_collector.go:231-336 | Unless truncation is reported every valid process and storage entry is exported. |
| PlatformHealthCollector.PlatformKeysAccountedFor | internal/collector/platform_health_collector.go:231-336 | Accepted, skipped and deliberately ignored keys are the scanned keys. |
| PlatformHealthCollector.PlatformScanOrderIrrelevant | internal/collector/platform_health_collector.go:229-300 | Permuting the keys of both scans leaves the report unchanged. |
| PlatformTheorems.ProcessShown | internal/collector/platform_health_collector.go:250-282 | An accepted process shows its pid, name and user, a running series, and each percentage from the current field, or from the legacy field only if the current one is no number. |
| PlatformTheorems.StorageShown | internal/collector/platform_health_collector.go:290-336 | An accepted storage device shows what it is and, family by family, the seven fields that are numbers. |
| PlatformTheorems.ProcessNameIsBase | internal/collector/redis_value_helpers.go:45-57 | A process is named after the last part of the path that is the first word of its command, whatever slashes follow. |
| PlatformTheorems.ProcessNameWithoutBase | internal/collector/redis_value_helpers.go:45-57 | A blank command is named "unknown", and a path of slashes "/". |
| PlatformTheorems.HealthShown | internal/collector/platform_health_collector.go:338-354 | Each field of the health table is in the report as "name=value". |
| PlatformTheorems.PlatformShows | internal/collector/platform_health_collector.go:220-336 | The series of each chosen process and storage device are in the report. |
| DockerCollector.ScrapeDocker | internal/collector/docker_collector.go:243-359 | The refresh returns series, counts and source state for a timestamp the lookup may resolve to, exactly when every request is answered. |
| DockerCollector.ResolveLastUpdate | internal/collector/docker_collector.go:392-410 | A preferred field wins, otherwise some field whose normalised name fits; empty exactly when neither exists. |
| DockerCollector.ResolutionDetermined | internal/collector/docker_collector.go:392-410 | The text of the timestamp lookup is independent of the map order if and only if a preferred field is present or all fallback fields agree. |
| DockerCollector.SourceStateDetermined | internal/collector/docker_collector.go:361-410 | The source time and its staleness are independent of the map order if and only if a preferred field is present or all fallback fields lead to one state. |
| DockerCollector.SourceTimeAmbiguous | internal/collector/docker_collector.go:361-410 | With two spellings of the timestamp field and two times, either one can become the source time. |
| DockerCollector.LookupReachesOnlySourceState | internal/collector/docker_collector.go:243-359 | Whatever the lookup answers, it changes nothing but the source time and its staleness. |
| DockerCollector.FreshExactly | internal/collector/docker_collector.go:361-390 | The source time is what the text stands for, and the source is fresh if and only if that is known and no older than the threshold. |
| DockerCollector.DockerKeysAccountedFor | internal/collector/docker_collector.go:265-352 | For the report of every refresh, containers and skips are the scanned keys but the timestamp key, plus the unusable numbers of accepted containers. |
| DockerCollector.DockerScanOrderIrrelevant | internal/collector/docker_collector.go:257-262 | Permuting the scanned keys changes neither the report nor the requests for containers. |
| DockerCollector.NumbersEmittedOrCounted | internal/collector/docker_collector.go:297-349 | Each of a container's numbers is emitted or counted as skipped. |
| DockerTheorems.ContainerShowsFields | internal/collector/docker_collector.go:282-349 | Every accepted container shows, under each of the nine families, the number in that family's field and nothing if the field has none. |
| DockerTheorems.ContainerAcceptedExactly | internal/collector/docker_collector.go:265-291 | A container is accepted if and only if its key is not the time stamp's and its name field has text. |
| DockerTheorems.ContainerShown | internal/collector/docker_collector.go:262-352 | A series of a chosen container is in the report if and only if its family is enabled. |
| DockerTheorems.PreferredTold | internal/collector/docker_collector.go:392-402 | The four preferred timestamp fields in their order of preference. |
| TransceiverCollector.ScrapeTransceivers | internal/collector/transceiver_collector.go:209-349 | The refresh returns the filtered combination of both loops exactly when every request is answered. |
| TransceiverCollector.IdentityLoop | internal/collector/transceiver_identity.go:13-63 | The identity loop accepts the keys with an identity below the index cap, whether or not their family is enabled, and skips all others. |
| TransceiverCollector.StatusLoop | internal/collector/transceiver_collector.go:236-346 | The status loop accepts the keys with data below the index cap and skips all others. |
| TransceiverCollector.AppendFlags | internal/collector/transceiver_collector.go:351-372 | The flag loop emits, per field of the value table in ascending order, each of the four values that parses and is enabled. |
| TransceiverCollector.IdentityIsEmpty | internal/collector/transceiver_identity.go:65-72 | An identity is empty exactly when all six fields are blank. |
| TransceiverCollector.TransceiverKeysAccountedFor | internal/collector/transceiver_collector.go:222-346 | Accepted and skipped entries of both loops are the scanned keys, and truncation is reported exactly when either list exceeds the cap. |
| TransceiverCollector.TransceiverSkipLedger | internal/collector/transceiver_collector.go:222-346 | The combined skip counter is, for each loop, its malformed keys, its entries without data and its keys beyond the cap. |
| TransceiverCollector.TransceiverScanOrderIrrelevant | internal/collector/transceiver_collector.go:220 | Permuting the keys of both scans leaves the report unchanged. |
| TransceiverTheorems.DeviceShown | internal/collector/transceiver_collector.go:254-372 | For every device with a status: its module information, and for each of the ten families exactly the fields of its table with the value its parser makes of the family's own table, set times and clear times included. |
| TransceiverTheorems.IdentityShown | internal/collector/transceiver_identity.go:13-63 | The seven labels of an identity in order, trimmed. |
| TransceiverTheorems.TransceiverShows | internal/collector/transceiver_collector.go:222-346 | The series of each accepted key below the cap are in the report. |
| LabelTheorems.ContainerIdsDistinct | internal/collector/docker_collector.go:282-349 | The docker collector emits no two series with one family and labels if and only if no two accepted containers have one name. |
| LabelTheorems.OneNameTwice | internal/collector/docker_collector.go:282-291 | Two entries with one name emit the same series twice. |
| LabelTheorems.ProcessIdsDistinct | internal/collector/platform_health_collector.go:231-282 | The process series are distinct if and only if no key was accepted twice. |
| LabelTheorems.StorageIdsDistinct | internal/collector/platform_health_collector.go:290-336 | The storage series are distinct if and only if no key was accepted twice. |
| LabelTheorems.NeighborIdsDistinct | internal/collector/lldp_collector.go:207-268 | The neighbour series are distinct if and only if no key was accepted twice. |
| LabelTheorems.FdbIdsDistinct | internal/collector/fdb_collector.go:280-315 | The FDB collector never emits two series with one family and labels. |
| LabelTheorems.ChosenDistinct | internal/collector/docker_collector.go:262-349 | A scan that repeats no key leads to no key accepted twice. |
| GroupLabels.VlanIdsDistinct | internal/collector/vlan_collector.go:252-316 | The VLAN series are distinct if and only if no member is exported twice. |
| GroupLabels.LagIdsDistinct | internal/collector/lag_collector.go:251-314 | The LAG series are distinct if and only if no member is exported twice. |
| GroupLabels.ExportedOnce | internal/collector/vlan_collector.go:229-310 | When the member scan repeats no key, no member is exported twice. |
| TransceiverLabels.TransceiverIdsDistinct | internal/collector/transceiver_collector.go:222-372 | The transceiver series are distinct if and only if neither loop accepts a key twice. |
| Metrics.NewMetricFilter | internal/collector/metric_filter.go:18-53 | A family ends up disabled exactly when some token of the list names or matches it; malformed patterns are dropped. |
| Metrics.MetricFilter.IsDisabled | internal/collector/metric_filter.go:56-72 | The lookup through exact names and patterns decides exactly the disabled families. |
| Metrics.NoFilterKeepsAll | internal/collector/metric_filter.go:28-31 | Without the variable nothing is disabled. |
| Metrics.AddToken | internal/collector/metric_filter.go:33-50 | One token disables exactly the families it names or matches, on top of those disabled before. |
| SystemLabels.ScrapeSystem | internal/collector/system_collector.go:230-292 | The refresh emits, filtered, the identity and software series with every label spelled out over the sources, and the uptime, not negative. |
| SystemLabels.SystemValue | internal/collector/system_collector.go:294-441 | What each field holds is the first usable value of its written-out list of sources and keys: Redis, then files, then commands, which say nothing when switched off. |
| SystemLabels.LabelIsTold | internal/collector/system_collector.go:233-474 | Each label is that first usable value, cleaned once more: "unknown" if nothing is left, the ASIC in lower case, the ASIC count only if an integer. |
| SystemLabels.DeviceBeforeMachineConf | internal/collector/system_collector.go:302-348 | A platform in DEVICE_METADATA is kept whatever machine.conf and the commands say. |
| SystemMetadata.FirstSourceWins | internal/collector/system_collector.go:485-499 | Each field holds the first usable value offered for it in call order; later sources never change it. |
| SystemMetadata.EepromGuard | internal/collector/system_collector.go:243-245 | When the guard skips the syseeprom command, running it would have changed nothing. |
| SystemMetadata.EepromGuardExact | internal/collector/system_collector.go:243-245 | The guard skips the command if and only if no output whatever could change the metadata. |
| SystemMetadata.Metadata.Load | internal/collector/system_collector.go:294-319 | A loader offers the values of its source field by field, or nothing if the source cannot be read. |
| SystemMetadata.Metadata.LoadAll | internal/collector/system_collector.go:233-248 | All loaders together, with the guard, lead to the metadata of all offers. |
| SystemMetadata.NormalizeTwice | internal/collector/system_collector.go:734-746 | Normalising again changes nothing if and only if the result has no quote at either end. |
| SystemMetadata.NormalizedShape | internal/collector/system_collector.go:734-746 | A normalised value is empty, or trimmed and not a placeholder. |
| SystemMetadata.FinalLabels | internal/collector/system_collector.go:443-474 | No final label is empty, the ASIC count is an integer or "unknown", the ASIC has no capitals, the uptime is not negative. |
| SystemMetadata.LabelFromOffers | internal/collector/system_collector.go:443-499 | A label is the first usable value finalised, and depends on no other offer. |
| SystemMetadata.LabelIsFirstValue | internal/collector/system_collector.go:443-499 | A label is the first usable value itself if and only if that value has no quote at either end and, for the ASIC, no capitals, or, for the ASIC count, is an integer. |
| SystemMetadata.QuotedPlaceholderMasks | internal/collector/system_collector.go:476-499 | A quoted placeholder within quotes turns into "unknown" and hides a later good value. |
| SysEeprom.ParseSysEeprom | internal/collector/system_collector.go:690-715 | Serial and model are the last captures, the revision follows the precedence of label revision over device version. |
| SysEeprom.LastLabelRevision | internal/collector/system_collector.go:704-711 | The last label revision wins if non-empty, otherwise the first device version from its line on. |
| SysEeprom.DeviceVersionFallback | internal/collector/system_collector.go:707-711 | Without any label revision the revision is the first non-empty device version. |
| OutputBuffer.LimitedOutputBuffer.Write | internal/collector/system_collector.go:92-111 | After any writes the buffer holds the first maxBytes bytes of their concatenation, and each write reports its full length. |
| OutputBuffer.UntruncatedIsComplete | internal/collector/system_collector.go:86-111 | With a positive limit an unset flag means the buffer holds the complete output. |
| OutputBuffer.FalseAlarm | internal/collector/system_collector.go:97-107 | The flag is set although nothing was lost if and only if an empty write follows output that fills the buffer exactly. |
| OutputBuffer.NoLimitKeepsNothing | internal/collector/system_collector.go:93-95 | Output is lost without the flag if and only if the limit is not positive and there was output. |
| WebListeners.WebServer.Serve | cmd/sonic-exporter/listener.go:34-59 | The error and the sequence of actions of a whole serve call, on every branch. |
| WebListeners.WebServer.BindWebListeners | cmd/sonic-exporter/listener.go:61-74 | One listener per address in order, or the release of all opened ones and the combined error. |
| WebListeners.WebServer.CloseWebListeners | cmd/sonic-exporter/listener.go:76-84 | Every listener is closed in order even when earlier closes fail, and all errors are joined. |
| WebListeners.FailureReleasesAll | cmd/sonic-exporter/listener.go:47-74 | When a serve call fails, each listener it opened is closed exactly once and no other is closed. |
| WebListeners.SuccessKeepsAll | cmd/sonic-exporter/listener.go:47-54 | When it succeeds it opened one listener per address in order, served exactly those and closed none. |
| WebListeners.ErrorsCarried | cmd/sonic-exporter/listener.go:51-84 | The returned error carries the original error and then the error of every failed close, in order. |
| WebListeners.RejectedUntouched | cmd/sonic-exporter/listener.go:34-45 | Exactly the requests without a VRF are handed over, with the error of the handover; one with a VRF is turned away untouched if and only if it asks for a systemd socket or a vsock address. |
| WebListeners.VsockRejected | cmd/sonic-exporter/listener.go:41-45 | A request turned away for a vsock address names the first one. |
| WebListeners.BindFailureNamed | cmd/sonic-exporter/listener.go:61-74 | A failed bind is reported with the first address that could not be opened and the VRF. |
| FrrFlags.RoundTrip | internal/collector/frr_collector.go:137-216 | Parsing accepts the built flags and gives a setting its configured value if and only if the flags can express that value, and otherwise its default. |
| FrrLoading.LoadedRoundTrip | internal/collector/frr_collector.go:102-216 | For every environment each loaded setting reaches the upstream exporter, except a key list without keys. |
| FrrLoading.LoadedRoundTripAll | internal/collector/frr_collector.go:102-216 | A loaded configuration arrives as a whole if and only if its key list has a key. |
| FrrLoading.NoKeysExactly | internal/collector/frr_collector.go:218-233 | A list has no keys if and only if its text has nothing but commas and white space. |
| FrrLoading.CommaTurnsIntoDefault | internal/collector/frr_collector.go:203-233 | With a single comma in the environment the configured key list is empty and the upstream exporter ends up with the key `type`. |
| FrrSettings.FrrNamesParsable | internal/collector/frr_collector.go:140-170 | The flag names are distinct, free of "=", and none is the negation of another. |
| FrrLoading.FrrArgs | internal/collector/frr_collector.go:102-216 | For every environment, the arguments are those of the documented settings in order: none unless the variable has a usable value that differs from the default, then exactly the flag for that value. |
| FrrLoading.UpstreamGetsWanted | docs/configuration.md:248-276 | Whatever the environment, the upstream exporter accepts the arguments and ends up with what each variable asks, or the documented default where it asks nothing usable. |
| FrrLoading.BuiltForUpstream | internal/collector/frr_collector.go:137-173 | The names and defaults the flags are compared with are those of the documented settings. |
| FrrLoading.BuildFrrArgs | internal/collector/frr_collector.go:137-173 | The argument list is that of all upstream flags in order, each compared with its upstream default. |
| FrrLoading.EmptyEnvironment | docs/configuration.md:248-276 | Without any variable set no argument is built. |
| FrrLoading.OneSwitchTurned | internal/collector/frr_collector.go:175-185 | A single switch turned against its upstream default yields exactly its flag, negated if the default is on. |
| FrrLoading.BgpTurnedOff | internal/collector/frr_collector.go:148 | FRR_BGP_ENABLED=false alone yields exactly `--no-collector.bgp`. |
| FrrFlags.BuildArgs | internal/collector/frr_collector.go:137-173 | The argument list of any table of settings is that of its settings in order. |
| FrrFlags.ParseSetting | internal/collector/frr_collector.go:175-216 | Parsing the arguments of one setting gives that setting the configured value and touches no other; without arguments it changes nothing. |
| FrrFlags.ArgsExpress | internal/collector/frr_collector.go:175-216 | A value yields arguments, or means the same as its default, if and only if the flags can express it. |
| FrrFlags.AppendRepeatedStringFlag | internal/collector/frr_collector.go:203-216 | Nothing is given when the joined texts are equal, otherwise every non-empty value in order. |
| FrrFlags.JoinComparesPieces | internal/collector/frr_collector.go:203-206 | Two lists have equal joined texts if and only if they have the same comma-separated pieces. |
| FrrFlags.PlainPartsCompared | internal/collector/frr_collector.go:203-233 | For the parts that the split produces, equal joined texts mean equal lists, and no value is left out. |
| FrrFlags.SplitCommaSeparated | internal/collector/frr_collector.go:218-233 | The parts between commas, trimmed, without the empty ones. |
| FrrFlags.CleanPartsPlain | internal/collector/frr_collector.go:218-233 | Each part is non-empty and free of commas. |
| Strings.JoinInjective | internal/collector/frr_collector.go:203-206 | Joined texts of non-empty comma-free parts are equal if and only if the lists are. |
| Strings.SplitAppend | internal/collector/routing_collector.go:272-274 | Splitting two texts around a separator gives the pieces of both. |
| Strings.SplitInjective | internal/collector/frr_collector.go:203-206 | Texts with equal pieces are equal. |
| Strings.TrimPrefixIsSuffix | internal/collector/vlan_collector.go:206-210 | The test for a malformed key holds exactly when the key lacks the prefix or has nothing after it. |

## Left out

- The hw, crm, queue, switch and thermal collectors: they repeat the caches and caps modelled here with other labels.
- The cached fields of the other background collectors: the same protocol as docker's with fewer fields.
- Redis connections, SCAN paging, contexts and timeouts: a request is answered or fails, and the answer does not change
  during a refresh. Client creation is modelled for the docker cache and the scrape-time cache only.
- Which of several unanswered requests a failed refresh reports: proved to be one that is not answered, not the first. The
  error reaches nothing but a log line.
- Prometheus descriptors, `Describe`, registries (also what a registry does with a repeated series) and the HTTP handler; the
  refresh ticker; logging.
- JSON decoding of FDB keys, `path.Match`, the regular expressions, number, duration and time parsing, the boolean word list
  and the line parsers of the version file and of `show` output: parameters of the model.
- Floating point: values are real numbers, counters are natural numbers, and NaN does not occur.
- Letter case beyond ASCII and strings that are not valid UTF-8: strings are sequences of code points.
- Go's priority of waiting writers in `RWMutex`: the model allows more interleavings.
- The refill of the interface cache by concrete builders: each is what it appends and whether it fails.
- WebListeners.WebServer.Serve: does not model that serving may itself close a listener before the explicit close.
- FrrFlags.BuildArgs: walks a table of the settings where the source has one call per setting; of the upstream parser only
  the flag forms that are built are modelled.
- SystemMetadata.Metadata.Load: walks a table of fields where the source has one call per field.
- Environment parsing except that of the FRR settings, whose durations are read by a parameter; all caps are natural numbers
  here, positive in the source.
