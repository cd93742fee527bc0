# OTLens: a model of its stateful cores

OTLens is a passive monitor for industrial networks. Sensors learn how their network normally behaves and send
what they see to a Central server. This project models the parts of both that keep state, and proves what they
promise, over every input, every run and every reachable state.

- **Behaviour baseline** (`Stats`, `Quantiles`, `CappedTotals`, `Baseline*`): online statistics, the
  learning-to-monitoring state machine over sharded bounded tables, shadow candidates, promotion, exclusion, snapshot,
  restore and restarts. `BaselineHistory`, `BaselineAssetHistory`, `BaselineDecisions` and `BaselineCounters` say what
  every record and counter holds and how every observation is decided, in terms of the events alone.
- **Central's ledgers** (`FlowLedger`, `Bindings`, `Alerts`, `EdgeAggregation`): cumulative flow counters turned into
  minutes, address ownership rebuilt from complete snapshots, alert history with occurrence buckets.
- **Sensor and Central** (`Telemetry`, `Receipts`, `Central`, `Protocol`, `Sensor`): batches over a network that loses,
  repeats and reorders, and commands that stay pending until a report shows their effect.
- **Searches** (`AttackPaths`, `ContactTrace`): bounded path enumeration and breadth-first tracing.
- **Inventory and live stream** (`Assets`, `AssetDetails`, `AssetEngine`, `LiveHub`): which device owns which address, and
  fan-out with sends outside the lock.

Each component is a state machine on values (datatypes, maps and sequences, one transition function per operation)
and, where the program updates in place, a class whose methods are proved to make exactly those transitions. What the
program promises over time is then proved about runs of the state machine. One call of the baseline engine, one locked
section of the live stream, or one database transaction, is one step. Where the iteration order of a map decides
(which of several equally old entries is evicted, say), the choice is a parameter of the step restricted to what the
loop can produce.

`dafny verify dfyconfig.toml` checks the whole project.

## What turned out otherwise

The model follows the code. Where a natural expectation, or a comment in the code, does not hold, the exact
condition is proved instead:

- The deterministic "reservoir" is a sliding window of the last 128 values, but only up to 128 and from 256 values on
  (`Stats.WindowExactly`).
- The frozen baseline is frozen for every timestamp from an instant of monitoring on, in any order
  (`BaselineFrozen.BaselineStaysFrozen`); for every timestamp at all exactly after an explicit completion
  (`BaselineFrozen.FrozenInAnyOrderExactly`).
- Exclusions are stored in lower case but compared case-sensitively (`BaselineExclusions.StoredExclusionCoversExactly`).
- Directional flow columns are not conserved when they move without packets or bytes
  (`FlowLedger.DirectionsConservedExactly`).
- A counter stamped exactly at the epoch finds no report stale. A repeated report changes nothing exactly unless it
  meets such a counter and still moves it (`FlowLedger.ReplaysChangeNothingExactly`), and packets and bytes balance
  exactly unless a report from before 1970 meets one (`FlowLedger.PacketsAndBytesConserved`).
- As-of queries read the end of an episode as inclusive, so at a snapshot's own time they also see what it ended
  (`Bindings.InclusiveReadSeesTwoSnapshots`) and may return a previous owner; exactly when is
  `Bindings.ResolvedOwnerExactly`.
- A confirmed alert also leaves its verdict on a report with an unknown status
  (`Alerts.ConfirmedReopensOnlyOnRecurrence`).
- An id promoted before the retention window needs its command executed twice (`Protocol.StalePromotionNeedsTwoExecutions`).
- Aggregated edges count their first flow twice (`EdgeAggregation.PacketsConservedExactly`).
- An asset created by a claim to an unusable address can be locked to an observed address by a restart
  (`Assets.RestoreKeepsLockExactly`).
- Overlapping publications can reach a browser out of order; order is certain exactly when none overlap
  (`LiveHub.OrderedExactlyWithoutOverlap`).

## Model

| member | source | states |
|---|---|---|
| Stats.RunningStats.Add | internal/behaviorbaseline/model.go:60-83 | one added value turns the whole summary into the specified one, including which stored sample it overwrites |
| Stats.WelfordIsExact | internal/behaviorbaseline/model.go:60-74 | after any values, Mean is their arithmetic mean and M2 the sum of squared deviations from it |
| Stats.ExtremesAreExact | internal/behaviorbaseline/model.go:62-70 | Min and Max are values that were added and bound all of them |
| Stats.VarianceIsUnbiased | internal/behaviorbaseline/model.go:85-90 | Variance times count minus one is the sum of squared deviations; never negative |
| Stats.SlotIsProduct | internal/behaviorbaseline/model.go:80 | the slot computed with 64-bit wrap-around equals 21 times the count modulo 128, so the wrap never matters |
| Stats.OverwritesHitDistinctSlots | internal/behaviorbaseline/model.go:75-82 | values 129 to 256 overwrite pairwise different slots |
| Stats.SlidingWindow | internal/behaviorbaseline/model.go:75-82 | from the 256th value on, the "reservoir" is a permutation of exactly the last 128 values |
| Stats.FirstValueSurvives | internal/behaviorbaseline/model.go:75-82 | with 128 to 255 values the very first value is still stored |
| Stats.WindowExactly | internal/behaviorbaseline/model.go:75-82 | for distinct values the store is the last-128 window if and only if at most 128 or at least 256 were added |
| Stats.Feed | internal/behaviorbaseline/model.go:60-83 | a record fed one value at a time holds the summary of the whole sequence |
| Quantiles.QuantileIgnoresOrder | internal/behaviorbaseline/model.go:92-112 | a quantile depends only on the multiset of samples |
| Quantiles.QuantileForgets | internal/behaviorbaseline/model.go:75-112 | from 256 values on, every quantile is that of the last 128 values in their own order |
| Quantiles.QuantileWithinSamples | internal/behaviorbaseline/model.go:92-112 | a quantile lies between the smallest and the largest sample, and exists unless there are none |
| Quantiles.QuantileMonotone | internal/behaviorbaseline/model.go:92-112 | a larger q never gives a smaller quantile |
| Quantiles.QuantileInterpolates | internal/behaviorbaseline/model.go:92-112 | a quantile lies on the line between the two samples on either side of its rank |
| Quantiles.MedianMADIsTrueMedian | internal/behaviorbaseline/model.go:113-133 | the reported median and MAD have at least half the samples (deviations) on either side; the MAD is not negative |
| Quantiles.ComputeMedianMAD | internal/behaviorbaseline/model.go:113-133 | the loop over samples computes the specified pair, both true medians |
| BaselineEngine.Engine.Observe | internal/behaviorbaseline/engine.go:443-481 | one observation moves the engine to the specified next state under a legal choice of evicted entries, and keeps every invariant |
| BaselineEngine.Engine.ObserveFlow | internal/behaviorbaseline/engine.go:531-563 | the sharded flow table, its gauge, the eviction count and the pattern times after one trusted observation; a full shard gives up a least recently seen flow |
| BaselineEngine.Engine.ObserveAsset | internal/behaviorbaseline/engine.go:748-820 | the same for the asset table of one endpoint |
| BaselineEngine.Engine.ObserveCandidate | internal/behaviorbaseline/engine.go:583-618 | the shadow store after one shadowed observation; full, it gives up a least recently seen candidate |
| BaselineEngine.Engine.HasTrustedKey | internal/behaviorbaseline/engine.go:503-525 | known exactly if the shard holds the key or any shard holds the same flow at the same time of day in the same context |
| BaselineEngine.Engine.IsExcluded | internal/behaviorbaseline/engine.go:1243-1264 | whether an unexpired exclusion covers the flow, and that only expired exclusions are forgotten on the way |
| BaselineEngine.Engine.AssetMaturities | internal/behaviorbaseline/engine.go:955-1030 | how many assets have learned profiles and how many are mature, independent of iteration order |
| BaselineEngine.ScoresDecideMaturity | internal/behaviorbaseline/engine.go:955-1030 | both capped scores reach one exactly when the asset is old enough and has samples enough |
| BaselineEngine.Engine.Readiness | internal/behaviorbaseline/engine.go:901-946 | the weighted score and the ready flag of the current tables |
| BaselineEngine.Engine.Mode | internal/behaviorbaseline/engine.go:842-866 | learning or monitoring, derived from clock, readiness and the hard deadline |
| BaselineEngine.Engine.PromoteCandidate | internal/behaviorbaseline/engine.go:627-673 | the verdict in order of its tests, and the whole state after a promotion or none |
| BaselineEngine.Engine.ObservePromotedAsset | internal/behaviorbaseline/engine.go:675-714 | what a promotion adds to one endpoint, whatever the size of its shard |
| BaselineReachable.FailureStaysListed | internal/behaviorbaseline/engine.go:191-238 | a recorded promotion failure stays on the list of every status over any run if and only if no operation of it promotes the candidate, records another failure for it, finds it past retention or resets the engine |
| BaselineEngine.Engine.CompleteLearning | internal/behaviorbaseline/engine.go:872-899 | the result in order of its tests, and when the baseline is frozen |
| BaselineEngine.Engine.ApplyLearningExclusion | internal/behaviorbaseline/engine.go:1167-1224 | the recorded exclusion, the disqualified candidates and, while learning, everything deleted, with the gauge reduced by wrap-around subtraction |
| BaselineReachable.AddressBelongsToLatest | internal/behaviorbaseline/engine.go:716-736 | on every reachable state an address belongs to the identity last remembered for it since the last reset, else to itself; nothing else in between matters |
| BaselineEngine.Engine.ReportStatus | internal/behaviorbaseline/engine.go:191-224 | promotions and failures within retention are reported, older ones forgotten |
| BaselineEngine.Engine.Reset | internal/behaviorbaseline/engine.go:1266-1300 | everything returns to the initial state except the revision |
| BaselineEngine.Engine.TakeSnapshot | internal/behaviorbaseline/engine.go:1302-1353 | a snapshot lists every profile and candidate once, and promotions and failures within retention |
| BaselineEngine.Engine.Restore | internal/behaviorbaseline/engine.go:1380-1469 | the whole engine after a restore; a newer version is refused and changes nothing |
| BaselineFrozen.ReadinessRises | internal/behaviorbaseline/engine.go:901-946 | for a fixed state readiness and the ready flag never fall as time passes |
| BaselineFrozen.ModeIsMonotone | internal/behaviorbaseline/engine.go:842-866 | for a fixed state monitoring never reverts to learning as time passes |
| BaselineFrozen.BaselineStaysFrozen | internal/behaviorbaseline/engine.go:443-481 | from an instant of monitoring on, any run short of promotion and reset with no timestamp before that instant, but otherwise in any order, leaves every trusted profile, gauge and the mode unchanged |
| BaselineFrozen.CompletedStaysFrozen | internal/behaviorbaseline/engine.go:872-899 | after explicit completion the same holds for timestamps in any order |
| BaselineFrozen.FrozenInAnyOrderExactly | internal/behaviorbaseline/engine.go:842-866 | a flow that no stored exclusion covers and no review concerns is safe from being learned at every timestamp if and only if learning was completed explicitly |
| BaselineFrozen.TrustedOutcomeChangesProfile | internal/behaviorbaseline/engine.go:531-581 | a trusted observation does alter the stored profile and the revision |
| BaselineAccounting.GaugesAlwaysExact | internal/behaviorbaseline/engine.go:531-563 | on every reachable state both gauges equal the total size of their shards, through wrap-around subtraction |
| BaselineAccounting.EveryObservationIsCounted | internal/behaviorbaseline/engine.go:443-481 | observed = dropped + excluded + learned + shadowed after any run |
| BaselineAccounting.TablesStayBounded | internal/behaviorbaseline/engine.go:531-673 | no flow shard exceeds its capacity by more than the promotions since the last reset, no asset shard by more than twice that, the candidate store never its limit |
| BaselineReachable.AlwaysGood | internal/behaviorbaseline/engine.go:565-618 | on every reachable state each profile sits in its shard with exact statistics, and 1 <= DistinctDays = size of the day set <= Observations with the last seen day in the set |
| BaselineReachable.ReachableProfilesAreExact | internal/behaviorbaseline/engine.go:565-581 | on every reachable profile PacketBytes.Count = Packets and Mean * Packets = Bytes |
| BaselineReachable.ReachableAssetsAreExact | internal/behaviorbaseline/engine.go:748-820 | on every reachable asset profile PacketBytes counts the packets of both directions, Mean times that count is their bytes, and operations and addresses hold at most 256 entries |
| BaselineReachable.ReadyExactlyWhenPromotable | internal/behaviorbaseline/engine.go:627-652 | on every reachable state ready for promotion is reported exactly when a promotion would succeed |
| BaselineReachable.ReadinessSurvives | internal/behaviorbaseline/engine.go:583-673 | a ready candidate stays ready throughout a run if and only if no operation of the run evicts it from a full store, promotes it, excludes its flow or resets the engine |
| BaselineSnapshot.RestoreUndoesSnapshot | internal/behaviorbaseline/engine.go:1302-1469 | restoring a snapshot brings back every profile, asset profile and candidate with its days, promotions and failures within retention, unexpired exclusions, all counters and monitoring mode |
| BaselineSnapshot.CandidateRoundTrip | internal/behaviorbaseline/engine.go:1380-1469 | a candidate and its day set survive because the last seen day is always in the set |
| BaselineRestarts.SoundAcrossRestarts | internal/behaviorbaseline/engine.go:1302-1469 | through any number of snapshots and restarts, each losing what happened since its snapshot, profiles and candidates stay consistent, gauges exact, every surviving observation counted once and the tables bounded |
| BaselineRestarts.FrozenAcrossRestarts | internal/behaviorbaseline/engine.go:1380-1469 | a frozen baseline stays frozen through snapshots and restarts, although the times of new patterns behind the mode are forgotten |
| BaselineRestarts.RestartFrozenExactly | internal/behaviorbaseline/engine.go:1380-1469 | after a restart a flow is safe from being learned at every timestamp if and only if the snapshot was taken in monitoring |
| BaselineExclusions.StoredExclusionCoversExactly | internal/behaviorbaseline/engine.go:1226-1264 | a stored exclusion covers a flow it was meant for if and only if its sensor and addresses are lower case |
| BaselineExclusions.ExclusionKeepsFlowOut | internal/behaviorbaseline/engine.go:1167-1264 | an exclusion applied while learning keeps every matching flow out of the trusted baseline over any undisturbed run until it expires |
| BaselineExclusions.MonitoringIgnoresExclusions | internal/behaviorbaseline/engine.go:443-481 | in monitoring the exclusions change no outcome |
| BaselineHistory.FlowsFollowHistory | internal/behaviorbaseline/engine.go:531-581 | on every reachable state a flow is trusted exactly while it has a life in the events (from its first trusted sample or its promotion, with the samples shadowed before it, to eviction, exclusion or reset), and its profile holds exactly those samples: packets, bytes, sizes, pauses, round trips, operations, first and last time |
| BaselineHistory.LeastRecentFlowGoes | internal/behaviorbaseline/engine.go:539-556 | a flow evicted from a full shard was last sampled no later than any other flow of that shard |
| BaselineHistory.CandidatesFollowHistory | internal/behaviorbaseline/engine.go:583-618 | on every reachable state a candidate is stored exactly while it has a life, with as many observations as samples of its id since it was created, exactly their days, and eligible exactly if no exclusion has met it since |
| BaselineHistory.LeastRecentCandidateGoes | internal/behaviorbaseline/engine.go:587-600 | a candidate evicted from the full store was last seen no later than any other |
| BaselineHistory.PromotionsFollowHistory | internal/behaviorbaseline/engine.go:627-673 | an id is on record as promoted, and since when, exactly as its last successful promotion within the retention of every report since |
| BaselineHistory.VerdictFollowsHistory | internal/behaviorbaseline/engine.go:627-652 | what a promotion is answered, in terms of the samples and exclusions since the candidate was created |
| BaselineAssetHistory.AssetProfilesFollowHistory | internal/behaviorbaseline/engine.go:675-820 | on every reachable state an asset profile holds exactly what happened to it since it was created: totals by direction and by peer, protocols, ports, operations and addresses under their caps, and exclusions that cut a peer out |
| BaselineDecisions.OutcomeFollowsHistory | internal/behaviorbaseline/engine.go:443-525 | which of the four outcomes an observation has: by exclusions and reach while learning, by the flows known from the past in monitoring |
| BaselineDecisions.KnownFollowsHistory | internal/behaviorbaseline/engine.go:503-529 | a flow counts as known exactly if one alike up to day class and shift has a life |
| BaselineDecisions.IdsIgnoreTransportAndShift | internal/behaviorbaseline/engine.go:620-625 | flows share a candidate exactly if they differ in transport and shift at most |
| BaselineDecisions.ClockFollowsHistory | internal/behaviorbaseline/engine.go:828-840 | the clock shows the first observation since the last reset, and the novelty history the last 10,000 discoveries |
| BaselineDecisions.CompletionFreezesExactly | internal/behaviorbaseline/engine.go:872-899 | a request to complete learning freezes an enabled, started engine exactly if it is forced or the minimum duration has passed |
| BaselineDecisions.CoverageByCriteria | internal/behaviorbaseline/engine.go:1226-1241 | which flows an exclusion covers, criterion by criterion and in either direction |
| BaselineDecisions.ExclusionIsRecorded | internal/behaviorbaseline/engine.go:1167-1180 | an applied exclusion is on record under its criteria in small letters until its own end, or for a day |
| BaselineCounters.CountersFollowHistory | internal/behaviorbaseline/engine.go:443-481 | each counter shows what happened since the last reset: observations, dropped, refused, and entries that gave way to others |
| BaselineCounters.RevisionCountsChanges | internal/behaviorbaseline/engine.go:443-1300 | the revision has grown by one for every learned observation, promotion, recorded failure, completion, reset and exclusion that removed a trusted flow |
| BaselineReports.CandidateReportsFollowHistory | internal/behaviorbaseline/engine.go:1131-1159 | a snapshot reports every candidate alive with the samples, days and exclusions of its life, and as ready exactly if promoting it would succeed |
| BaselineSnapshot.RestoreRebuilds | internal/behaviorbaseline/engine.go:1380-1409 | what a restore rebuilds from any snapshot: an address belongs to an asset exactly if one of its profiles lists it, and the patterns are the last listed 10,000; a newer version changes nothing |
| BaselineSnapshot.RestoredCandidateDays | internal/behaviorbaseline/engine.go:1410-1438 | a candidate restored from a record of any age has the recorded days and that of its last observation, and that of its first if none were recorded |
| BaselineReadiness.ProfileCounts | internal/behaviorbaseline/engine.go:955-1030 | how one more profile counts for the samples of an asset: with its events in both directions, unless of another asset or learned during maintenance |
| BaselineReadiness.ReadyTakes | internal/behaviorbaseline/engine.go:901-946 | ready exactly if the minimum duration has passed, the score reaches its threshold, at least three quarters of the learned assets are mature, and at most one pattern in twenty is new |
| BaselineReadiness.ModeExactly | internal/behaviorbaseline/engine.go:842-866 | monitoring exactly if learning was completed, or the minimum duration has passed and the baseline is ready or the last nanosecond of the extended duration is over |
| BaselineReadiness.ReadinessWeighs | internal/behaviorbaseline/engine.go:901-946 | the score weighs duration, maturity, coverage and stability 7 : 7 : 3 : 3 and never needs its cap |
| BaselineReadiness.NoveltyAtMost | internal/behaviorbaseline/engine.go:1079-1101 | novelty is the share of remembered patterns first seen within a tenth of the minimum duration, but within one minute at least and half an hour at most |
| FlowLedger.FlowTables.Persist | internal/central/contact_tracing.go:59-244 | the chunked batch leaves both tables as specified, or unchanged if a statement meets the same row twice |
| FlowLedger.BatchIsFold | internal/central/contact_tracing.go:59-247 | a batch of distinct flows never fails and equals taking its reports one at a time |
| FlowLedger.SelectionIsEnough | internal/central/contact_tracing.go:60-119 | reading only the counters of complete reports decides the batch as the whole table would |
| FlowLedger.LedgerBalances | internal/central/contact_tracing.go:130-242 | for every column and any times: posted minutes + movement stored unposted + old counter = old minutes + new counter + counters before resets + movement posted unstored |
| FlowLedger.PacketsAndBytesConserved | internal/central/contact_tracing.go:130-242 | after any reports, in any order and of any time, a flow's minutes add up to its last accepted counter, the counter just before each detected reset and what was posted past a counter at the epoch; without the last term if and only if no arrival did that |
| FlowLedger.DirectionsConservedExactly | internal/central/contact_tracing.go:150-175 | the directional columns balance if and only if as much was stored unposted as was posted unstored; from 1970 on, if and only if no accepted report moved them without moving packets or bytes |
| FlowLedger.DirectionAloneIsLost | internal/central/contact_tracing.go:150-175 | a first report with directional packets only is stored and never posted |
| FlowLedger.UnstoredIsOlderThanEpoch | internal/central/contact_tracing.go:134-241 | movement is posted unstored only by a report stamped before 1970 that meets a counter stamped exactly at the epoch |
| FlowLedger.UnstoredMovementBreaksBalance | internal/central/contact_tracing.go:134-241 | such a report: five packets posted that no counter or reset accounts for |
| FlowLedger.ReplaysChangeNothingExactly | internal/central/contact_tracing.go:130-241 | repeating any report of a run, however late and whatever came between, changes neither table if and only if it is incomplete or does not meet a counter stamped at the epoch that it still moves; never for reports after the epoch |
| FlowLedger.EpochReplayIsCounted | internal/central/contact_tracing.go:134-148 | for every new flow with two reports stamped at the epoch, repeating the overtaken one posts all its packets a second time |
| FlowLedger.AcceptedExactly | internal/central/contact_tracing.go:62-148 | a report is taken exactly if it names its flow and both ends and is not overtaken by the stored counter |
| FlowLedger.MinuteHoldsItsMovement | internal/central/contact_tracing.go:184-242 | after any reports the cell of a flow and a minute holds exactly the summed movement of the accepted reports of that flow whose event time lies in that minute, and the latest of those times; without one there is no cell |
| FlowLedger.BucketsAreMinutes | internal/central/contact_tracing.go:201 | every cell starts on a whole minute and ends within it |
| Bindings.BindingTables.Upsert | internal/central/topology_edges.go:251-400 | a snapshot's claims are grouped by address and leave the episode rows and the current-node rows as specified |
| Bindings.BindingTables.RecordClaim | internal/central/topology_edges.go:346-358 | one claim extends the open episode of its pair or opens one |
| Bindings.OpenExactlyWhatIsClaimed | internal/central/topology_edges.go:346-398 | after a complete snapshot the open episodes are exactly the claimed (identity, address) pairs, one each, if and only if the clock has passed the last confirmation of every missing pair |
| Bindings.ClosedEpisodesNeverChange | internal/central/topology_edges.go:346-398 | closed episodes are never altered or removed and no start ever moves |
| Bindings.HistoryReproducesSnapshots | internal/central/topology_edges.go:326-398 | reading ends as exclusive, the history gives back every past snapshot at its own time if and only if every opened pair was last seen after the previous snapshot and not after its own |
| Bindings.InclusiveReadSeesTwoSnapshots | internal/central/topology_edges.go:431-437 | the inclusive condition of the query selects, at a snapshot's own time, the pairs of that snapshot and of the one before |
| Bindings.ResolvedOwnerExactly | internal/central/topology_edges.go:431-440 | of these the query returns the best-ranked; it finds an owner exactly if either snapshot claimed the address, and is certain to return an owner of the snapshot asked about if and only if every episode that snapshot ended is outranked by one in force |
| Bindings.HandoverAtItsOwnTime | internal/central/topology_edges.go:431-440 | when an address passes to another device, the query at that snapshot's own time returns the old owner if and only if only the old owner was ARP-verified |
| Bindings.ConflictsResolveToNobody | internal/central/topology_edges.go:276-323 | an address claimed by two hardware addresses resolves to neither; any other to a best-ranked claimant |
| Bindings.SortClaims | internal/central/topology_edges.go:277-288 | the claims to one address in order: ARP-verified, then newest, then lowest hardware address |
| Bindings.ClaimsAre | internal/central/topology_edges.go:255-274 | which addresses a node claims: those it lists, or its single one if it lists none, trimmed and never blank |
| Bindings.SameDeviceExactly | internal/central/topology_edges.go:230-239 | two claims are taken for the same device exactly if both carry the same readable hardware address, or neither one and they claim the same address |
| Bindings.CurrentRowShows | internal/central/topology_edges.go:252-323 | what the current-node table shows of every address after a snapshot: claimed, contested or no longer claimed |
| Bindings.UnclaimedResolvesToLastKnown | internal/central/topology_edges.go:402-429 | an address no longer claimed resolves to its last known identity, else to itself |
| Bindings.EpisodeGathersClaims | internal/central/topology_edges.go:346-358 | what a snapshot's claims make of one episode: latest sighting, last VLAN, verification once verified, first hardware address |
| Alerts.AlertTables.Upsert | internal/central/alert_history.go:56-152 | a batch of reports leaves rows and buckets as the one-at-a-time run does, and returns the new alerts |
| Alerts.VerdictStands | internal/central/alert_history.go:112-169 | an alert an operator approved is approved from then on, whatever is reported about it and decided about others |
| Alerts.RowsSpanReports | internal/central/alert_history.go:98-121 | an alert is stored exactly if it was usably reported, with the largest count, earliest start and latest end its reports give; a report without a count counts once, one without a start starts when it ends |
| Alerts.OrderDoesNotMatter | internal/central/alert_history.go:98-121 | runs with the same sightings agree on count, first and last time, whatever their order |
| Alerts.VerdictIsTheStatus | internal/central/alert_history.go:154-169 | an operator's verdict, whatever the status before, is the status until the alert is reported again |
| Alerts.ApprovedIsPermanent | internal/central/alert_history.go:112-117 | no report ever changes an approved status |
| Alerts.ConfirmedReopensOnlyOnRecurrence | internal/central/alert_history.go:112-117 | over any reports a confirmed or approved alert stays so throughout if and only if no report, not older than the last sighting of a confirmed one, announces it as new with a larger count or carries a status of none of the three kinds |
| Alerts.BucketsAddUp | internal/central/alert_history.go:122-138 | all buckets sum to final count - first stored count + 1 over all alerts, and to one new finding per alert |
| Alerts.AnnouncedOnce | internal/central/alert_history.go:139-150 | each alert is returned as newly created exactly once over any run |
| Alerts.MinuteCountsItsReports | internal/central/alert_history.go:122-138 | after any run the cell of a type and a minute counts exactly what the usable reports of that type last seen within that minute added, and the alerts they created |
| Alerts.BucketsAreMinutes | internal/central/alert_history.go:131 | every cell starts on a whole minute |
| Alerts.LatestReportSpeaks | internal/central/alert_history.go:98-121 | type, severity, message, address and evidence of an alert are those of its last report not older than all before it; its identity is the last one such a report named |
| Central.Repository.PutTelemetry | internal/central/repository.go:1661-1843 | the gate's reply in order of its tests, and the whole state after the transaction: folded or untouched |
| Central.Repository.Store | internal/central/repository.go:1708-1843 | the writes of one transaction, all or none |
| Central.Repository.StoreTopology | internal/central/repository.go:1784-1827 | addresses first, then flows, then asset acknowledgements |
| Central.Repository.AcknowledgeStatus | internal/central/repository.go:1713-1731 | which learning and promotion commands a status retires |
| Central.Repository.AcknowledgeAssets | internal/central/repository.go:1801-1827 | which asset commands a topology retires |
| Central.Repository.PopCommands | internal/central/repository.go:2051-2104 | hands out every pending command in queue order and delivers only the one-shot ones |
| Central.Repository.QueueCommandIfMissing | internal/central/repository.go:1959-1978 | queues unless the same command is pending, and says whether it did |
| Central.Repository.QueueCommands | internal/central/repository.go:1980-2001 | appends every non-blank target |
| Central.Repository.PromoteBaselineCandidate | internal/central/server.go:2529-2624 | the reply in order of its tests on the last stored status, and what it queues |
| Central.PromotedList | internal/central/repository.go:1603-1626 | the distinct non-blank reported ids |
| Telemetry.AppliedIncrease | internal/central/repository.go:1688-1706 | stored sequence numbers strictly increase and the last one is Central's mark |
| Telemetry.LedgersFoldStoredBatches | internal/central/repository.go:1688-1843 | whatever is lost, repeated or reordered, the ledgers are the fold of exactly the stored batches |
| Telemetry.RetryChangesNothing | internal/central/repository.go:1698-1706 | a stored batch delivered again at any later time changes nothing |
| Telemetry.StoredExactlyRecords | internal/central/repository.go:1688-1706 | a delivery is stored if and only if its sequence exceeds that of every earlier delivery |
| Telemetry.MarkIsMaximum | internal/central/repository.go:1688-1706 | Central's mark is the largest sequence number ever delivered |
| Telemetry.NetworkConservesFlows | internal/central/repository.go:1688-1795 | flow conservation over any network behaviour, in terms of the stored batches, for reports of any time |
| Telemetry.CommandStep | internal/central/repository.go:1713-1825 | what one event does to one queued command |
| Telemetry.OneShotReturnedAtMostOnce | internal/central/repository.go:2051-2104 | a one-shot command is handed out at most once, and is delivered exactly when it has been |
| Telemetry.PoppedInOrder | internal/central/repository.go:2051-2070 | commands are handed out oldest first, none twice |
| Telemetry.PendingUntilReported | internal/central/repository.go:2051-2104 | a state-confirmed command is handed out by every download until, and only until, a stored batch reports its state |
| Telemetry.OnePendingPromotion | internal/central/repository.go:1955-1978 | a candidate never has two pending promotion commands |
| Protocol.StopAndWaitIsExactlyOnce | internal/central/repository.go:1688-1706 | a sensor that waits for acknowledgements gets every batch stored exactly once and in order |
| Protocol.ExchangeAdvances | internal/central/server.go:474-505 | no history blocks the protocol: one undisturbed exchange moves the sensor on |
| Protocol.ApplyingLists | cmd/otlens/main.go:348-364 | an executed promotion is listed as promoted or failed at its time, unless the id was already promoted |
| Protocol.AppliedPromotionIsReported | internal/behaviorbaseline/engine.go:191-224 | after a first execution every status captured within retention reports the id, whatever happens in between short of a reset |
| Protocol.AppliedPromotionRetires | internal/central/repository.go:1713-1731 | such a report retires the command once its batch is stored |
| Protocol.StalePromotionNeedsTwoExecutions | internal/behaviorbaseline/engine.go:627-640 | an id promoted before the retention window is reported only after a second execution |
| Protocol.CompletedLearningRetires | internal/central/repository.go:1585-1601 | an accepted completion of learning is reported from then on and retires its command |
| Sensor.Sensor.ApplyCommand | cmd/otlens/main.go:312-376 | what each state-changing command does to the two engines |
| Sensor.ConfirmedAssetRetires | internal/central/repository.go:1801-1822 | a confirmed asset is reported confirmed while it is reported at all, and retires its command |
| Sensor.DeletedAssetRetires | internal/central/repository.go:1801-1825 | a deleted asset is missing until seen again, and retires its command |
| Receipts.RepliesFollowHistory | internal/central/repository.go:1661-1706 | what a delivery is told, in terms of everything delivered and queued before it |
| Receipts.AcknowledgedExactly | internal/central/repository.go:1585-1626 | what a stored batch must report to retire a command of each kind |
| Receipts.QueueAppendsTargets | internal/central/repository.go:1980-2001 | queuing keeps the queue and appends one pending command per non-blank target, in order |
| Receipts.QueuedOnceWhilePending | internal/central/repository.go:1955-1978 | a command asked for again while pending is not queued again; otherwise exactly one is appended |
| Receipts.PromotionQueuedExactly | internal/central/server.go:2529-2624 | a promotion request queues a command exactly if the last stored status offers the candidate and no promotion of it is pending |
| Receipts.NetworkLeavesHistories | internal/central/repository.go:1708-1843 | whatever the network does, the alert history is that of the stored batches' alerts, the address history that of their topologies, the status the last one stored |
| AttackPaths.Search | internal/central/itot_attack_path.go:384-428 | the queue search ends; it returns simple connected paths within the hop limit ending at their first target, each once, shortest first, all of them unless cut off, and nothing omitted is shorter than anything returned |
| AttackPaths.FindObservedITOTPaths | internal/central/itot_attack_path.go:357-436 | limits clamped, unknown source refused, every found path scored, best first |
| AttackPaths.ScorePath | internal/central/itot_attack_path.go:285-344 | both capped scores and both flags |
| AttackPaths.CrossingDecidedAtTheEnds | internal/central/itot_attack_path.go:310-337 | for returned paths crossing is decided by the source and the last asset before the target, with the risk that entails |
| ContactTrace.CreateContactTrace | internal/central/contact_tracing.go:365-394 | every asset within the hop limit is recorded exactly once at its shortest distance, with a parent one hop closer over a shared contact; no other is; worst first |
| ContactTrace.RingIsDistance | internal/central/contact_tracing.go:365-392 | the search rounds are exactly the shortest distances in the undirected contact graph |
| ContactTrace.ContactExposureScore | internal/central/contact_tracing.go:300-332 | the exposure score |
| ContactTrace.ScoreFallsWithDistance | internal/central/contact_tracing.go:288-332 | each further hop costs exactly 15 points until none are left; when the score is zero and when it is critical, in terms of the contact's own worth; only OT contacts up to two hops away are critical |
| AttackPaths.ScoreCounts | internal/central/itot_attack_path.go:289-344 | the two scores as counted over the path: 15 per critical asset, 18 per administrative and 15 per OT hop, 30 per hop straight from IT to a target, 20 without a DMZ; 6 per hop, 5 per busy hop, 8 per override, 4 per known role |
| ContactTrace.WorthByParts | internal/central/contact_tracing.go:300-328 | each trait of a contact adds its own points, 20 before any |
| EdgeAggregation.AggregateEdges | internal/central/server.go:1552-1608 | the loop leaves one edge per pair of addresses, in order of first appearance |
| EdgeAggregation.PairsAreUndirected | internal/central/server.go:1545-1550 | flows share an edge exactly when they join the same two addresses |
| EdgeAggregation.EdgeSummarisesFlows | internal/central/server.go:1552-1596 | count, protocols, marks, direction and times of an edge from its flows; the first flow's packets and bytes are counted twice |
| EdgeAggregation.PacketsConservedExactly | internal/central/server.go:1566-1585 | an edge's packets are those of its flows if and only if its first flow carried none |
| EdgeAggregation.FlowCountsAddUp | internal/central/server.go:1570-1573 | every flow is counted on exactly one edge |
| AssetEngine.Engine.Update | internal/asset/engine.go:132-318 | one sighting moves the inventory to the specified next state |
| AssetEngine.Engine.Handle | internal/asset/engine.go:693-770 | a packet yields one sighting per hardware address it names, in some order |
| AssetEngine.UpsertAddressBinding | internal/asset/engine.go:66-91 | the first binding of the address is extended, or one appended |
| AssetEngine.KeepVerified | internal/asset/engine.go:241-251 | what a first claim leaves of the provisional addresses |
| AssetEngine.Engine.Delete | internal/asset/engine.go:447-466 | the asset, its lock and its trust are gone |
| AssetEngine.Engine.Prune | internal/asset/engine.go:418-441 | exactly the stale live assets and their locks are gone |
| AssetEngine.Engine.Confirm | internal/asset/engine.go:495-516 | the asset is confirmed and trusted |
| AssetEngine.Engine.HandleHostname | internal/asset/engine.go:616-644 | a known asset takes the observed name |
| AssetEngine.Engine.HandleBaselineComplete | internal/asset/engine.go:675-691 | learned hardware addresses become trusted and the baseline established |
| AssetEngine.Engine.Restore | internal/asset/engine.go:340-404 | the inventory is replaced; addresses cleaned; locks rebuilt from provenance |
| Assets.AssetsFollowHistory | internal/asset/engine.go:132-318 | after any run an asset owns its latest claimed address, or before any claim its latest observed one; its list holds the claimed (else the observed) addresses once each with their earliest and latest counting times; packets are sightings; it exists and is locked exactly when its history says so |
| Assets.ConfirmationHolds | internal/asset/engine.go:495-530 | a confirmed asset stays confirmed whenever it exists, short of deletion, learning reset or wipe |
| Assets.PacketSays | internal/asset/engine.go:693-745 | what a packet says about which hardware address, and which of it are claims |
| Assets.PacketClaims | internal/asset/engine.go:132-318 | a claim in a packet takes its address for its sender and locks it, with the time and VLAN of the packet |
| Assets.MergePrefersClaims | internal/asset/engine.go:746-766 | per hardware address a claim is preferred, else an observation that carries an address |
| Assets.RestoreKeepsAssets | internal/asset/engine.go:340-404 | saving and restoring brings back every asset as it was |
| Assets.RestoredRecord | internal/asset/engine.go:340-404 | what restoring any one record does: its address is on its list and stays open to routed traffic exactly if the record knows that no claim confirmed it |
| Assets.RestoreKeepsLockExactly | internal/asset/engine.go:394-403 | the lock survives if and only if the asset was not created by an unusable claim and then only observed |
| Assets.RestartLocksObservedAddress | internal/asset/engine.go:394-403 | such an asset: open to routed traffic before the restart, locked after it |
| AssetDetails.DetailsFollowHistory | internal/asset/engine.go:132-318 | after any run an asset has the name and the VLAN it was last given, and is confirmed exactly if its history vouches for it |
| LiveHub.Stream.PublishLocked | internal/central/live_events.go:49-66 | the locked part of a publication: the numbered, retained event and whom to send it to |
| LiveHub.Stream.Subscribe | internal/central/live_events.go:88-100 | the new subscriber and the retained events past its cursor |
| LiveHub.Stream.Snapshot | internal/central/live_events.go:264-283 | the newest retained events past a cursor, at most the limit, oldest first |
| LiveHub.ReverseInPlace | internal/central/live_events.go:279-281 | reverses in place |
| LiveHub.ReplayIsRecentHistory | internal/central/live_events.go:49-61 | the retained list is always the last events since the last clear, as many as fit, with consecutive ids |
| LiveHub.LogIsWhatWasPublished | internal/central/live_events.go:49-66 | the events are exactly those published with a kind, in order, numbered from one, under the time given or else the clock |
| LiveHub.NoGapNoDuplicate | internal/central/live_events.go:49-106 | a subscriber's replay and its offers are disjoint, free of repetition, and together exactly the retained events past its cursor and all published while it was subscribed |
| LiveHub.OnePublisherKeepsOrder | internal/central/live_events.go:49-77 | if every publication finds the earlier sends to its own targets done, every subscriber is offered events in order |
| LiveHub.ConcurrentPublishersMayReorder | internal/central/live_events.go:49-77 | from any reachable state, a publication that finds a send to a subscribed browser outstanding can overtake it and leave its offers out of order |
| LiveHub.OrderedExactlyWithoutOverlap | internal/central/live_events.go:49-77 | for every run: all browsers are certain to be offered events in order, however sends interleave, if and only if publications do not overlap |

## Left out

- Floating point: scores, means and quantiles are over the reals; rounding, NaN and infinities are not modelled.
- Machine widths: only the 64-bit gauges of the baseline, the reservoir slot and the packet sum of a path score wrap;
  other counters, event ids and sequence numbers are unbounded, and time differences do not saturate.
- Shard hashes are arbitrary functions; no property depends on their values.
- Joined text keys (candidate ids, address pairs, bucket keys) are modelled by their parts, which assumes that no part
  contains the separator. Candidate ids keep the source's omission of transport and shift.
- Parsing and normalising of addresses, hardware addresses and checksums, and the test for public addresses, are
  parameters. Case folding of checksums is lower-casing.
- Clocks are parameters. A zero time passed to the mode or readiness is not replaced by the current time.
- BaselineSnapshot.RestoreUndoesSnapshot: the address identities, the pattern times and, while still learning, the mode
  are rebuilt only approximately by the program and are not part of the round trip.
- BaselineEngine.Engine.Restore: does not promise the engine's invariants for arbitrary snapshots, because the program
  accepts any; for snapshots it took itself the round trip gives them back.
- BaselineEngine.Engine.TakeSnapshot: copies are values; that the program shares the sample slices between a snapshot and
  the live profile is not modelled.
- BaselineEngine.Engine.Observe: observation, promotion, exclusion and reset take several locks in turn, and each is
  one step here. An observation that read the mode before a completion or an exclusion may still learn after it;
  BaselineFrozen.CompletedStaysFrozen and BaselineExclusions.ExclusionKeepsFlowOut are about the coarser steps.
- BaselineRestarts.FrozenAcrossRestarts: a restart loads a snapshot the engine took itself; when snapshots are written
  is left open.
- BaselineFrozen.BaselineStaysFrozen: promotion and reset are excluded, being the operator's ways to change the baseline.
- FlowLedger.ReplaysChangeNothingExactly: compares reported times with stored ones exactly, as do all flow lemmas; the
  database keeps microseconds, so reports less than a microsecond apart may compare differently there.
- FlowLedger.FlowTables.Persist: identities and fixed columns stamped on a minute are not modelled.
- Bindings.ResolvedOwnerExactly: times are exact here too; the fallback to the coarse identity history, when no episode is
  selected, is not modelled.
- Bindings.BindingTables.Upsert: the order in which addresses are visited is left open, as is the order of claims that
  rank equal. The coarse identity history, the descriptive columns and the promotion of operator state to hardware
  identities are not modelled.
- Alerts.AlertTables.Upsert: the asset identity of a report is given, not looked up; text and evidence are opaque.
- Central.Repository.PutTelemetry: DNS, SMB and protocol observations, aggregated edges, the export outbox and the sensor
  status row are not part of the state; concurrent uploads are serialised by the program's lock and so are steps here.
  Central-side data resets and deletion of a sensor, which forget the stored sequence number, are not events.
- Protocol.StopAndWaitIsExactlyOnce: describes a sensor that waits; the sensor's own worker gives up after three attempts
  and sends a fresh batch with a larger number, which Telemetry.StoredExactlyRecords and
  Telemetry.LedgersFoldStoredBatches cover. internal/syncagent is not part of this model.
- Sensor.Sensor.ApplyCommand: whether the disk flush succeeded and whether the sensor's other learning engine allows
  completion are parameters; resets and one-shot commands do not touch the two engines here.
- AttackPaths.FindObservedITOTPaths: reading nodes and edges from tables, role inference and the texts of the reasons.
- ContactTrace.CreateContactTrace: the look-back window, the reason texts and the rows written per exposure.
- AssetEngine.Engine.Handle: the order in which the program visits the addresses of one packet is left open. Published
  events and decoy-station transitions are not modelled, and neither is the sharing of address lists by GetAll.
- LiveHub.NoGapNoDuplicate: speaks of events offered to a subscriber's channel; the channel's capacity, and so the offers
  a slow browser drops, are not modelled.
- HTTP handlers, sessions, permissions, notification delivery, report rendering and the user interface.
- Packet capture and protocol decoding, detection rules, incident correlation, risk scoring and retention sweeps.
