/** What the engine's counters count, over whole runs. */
module BaselineCounters {
  import opened BaselineModel
  import opened BaselineSpec
  import opened BaselineFrames
  import opened BaselineReachable
  import opened BaselineHistory
  import AssetHistory = BaselineAssetHistory

  /** One asset entry gives way to another. */
  ghost function AssetEvictions(c: Config, st: State, v: Sample, asset: string): nat {
    var k := AssetKeyOf(v.key, asset);
    if Crowded(Row(st.assetShards, AssetShard(c, k)), k, c.maxAssetProfiles) then 1 else 0
  }

  ghost function FlowEvictions(c: Config, st: State, v: Sample): nat {
    if Crowded(Row(st.shards, FlowShard(c, v.key)), v.key, c.maxProfiles) then 1 else 0
  }

  /** What one trusted observation evicts: a flow if its shard is crowded without it, and an asset likewise for each
      of its own, the target finding what the source left. */
  ghost function Evictions(c: Config, st: State, v: Sample, w: Choice): nat {
    hide LearnSource, AssetEvictions, FlowEvictions;
    FlowEvictions(c, st, v) + (if v.srcAsset == "" then 0 else AssetEvictions(c, st, v, v.srcAsset))
    + if v.dstAsset == "" || v.dstAsset == v.srcAsset then 0 else AssetEvictions(c, LearnSource(c, st, v, w), v, v.dstAsset)
  }

  datatype Counts = Counts(observed: nat, dropped: nat, excluded: nat, evicted: nat)

  const NO_COUNTS := Counts(0, 0, 0, 0)

  ghost function CountsStep(c: Config, st: State, n: Counts, e: Event): Counts
    requires ValidConfig(c)
  {
    match e
    case Observation(v, w) =>
      var o := n.(observed := n.observed + 1);
      var outcome := OutcomeOf(c, st, v);
      if outcome == Dropped then o.(dropped := n.dropped + 1)
      else if outcome == Refused then o.(excluded := n.excluded + 1)
      else if outcome == Trusted then o.(evicted := n.evicted + Evictions(c, st, v, w))
      else o
    case ResetAll => NO_COUNTS
    case _ => n
  }

  /** How many observations there were since the last reset, how many of them each outcome but learning and shadowing
      had, and how much the others evicted. */
  ghost function CountsOf(c: Config, es: seq<Event>): Counts
    requires ValidConfig(c)
  {
    if es == [] then NO_COUNTS
    else CountsStep(c, Run(c, Initial(), es[..|es|-1]), CountsOf(c, es[..|es|-1]), es[|es|-1])
  }

  predicate Shows(st: State, n: Counts) { Counts(st.observed, st.dropped, st.excluded, st.evicted) == n }

  /** The event changes what a snapshot would save of the trusted baseline or of the decisions on it. */
  ghost predicate Changes(c: Config, st: State, e: Event)
    requires ValidConfig(c)
  {
    match e
    case Observation(v, _) => OutcomeOf(c, st, v) == Trusted
    case PromoteCandidate(id, _) => PromoteVerdict(c, st, id) == Promoted
    case RecordPromotionFailure(_, _, _) => true
    case ApplyLearningExclusion(x, at) =>
      ModeAt(c, st, at) == Learning && exists i, k :: 0 <= i < |st.shards| && k in st.shards[i] && Excludes(x, k)
    case Complete(force, at) => CompleteVerdict(c, st, force, at) in {AlreadyMonitoring, Completed}
    case ResetAll => true
    case _ => false
  }

  ghost function ChangesIn(c: Config, es: seq<Event>): nat
    requires ValidConfig(c)
  {
    if es == [] then 0
    else ChangesIn(c, es[..|es|-1]) + if Changes(c, Run(c, Initial(), es[..|es|-1]), es[|es|-1]) then 1 else 0
  }

  lemma FlowEvicts(c: Config, st: State, v: Sample, victim: Key)
    ensures LearnFlow(c, st, v, victim).evicted == st.evicted + FlowEvictions(c, st, v)
  {
    CrowdedMeansFull(c, st, v.key);
    hide FlowFull, Crowded, FlowRow, SetRow, Gauge, Remembered;
  }

  lemma AssetEvicts(c: Config, st: State, v: Sample, asset: string, peer: string, ip: string, peerIP: string,
                    inbound: bool, victim: AssetKey)
    ensures LearnAsset(c, st, v, asset, peer, ip, peerIP, inbound, victim).evicted == st.evicted + AssetEvictions(c, st, v, asset)
  {
    AssetHistory.CrowdedMeansFull(c, st, AssetKeyOf(v.key, asset));
    hide AssetFull, Crowded, AssetRow, SetRow, Gauge;
  }

  /** The source's side depends on the asset tables only. */
  lemma SameSource(c: Config, a: State, b: State, v: Sample, w: Choice)
    requires a.assetShards == b.assetShards
    ensures LearnSource(c, a, v, w).assetShards == LearnSource(c, b, v, w).assetShards
  {
    hide AssetRow, SetRow, Gauge;
  }

  lemma SameAssetEvictions(c: Config, a: State, b: State, v: Sample, asset: string)
    requires a.assetShards == b.assetShards
    ensures AssetEvictions(c, a, v, asset) == AssetEvictions(c, b, v, asset)
  {
  }

  lemma SameEvictions(c: Config, a: State, b: State, v: Sample, w: Choice)
    requires a.shards == b.shards && a.assetShards == b.assetShards
    ensures Evictions(c, a, v, w) == Evictions(c, b, v, w)
  {
    hide LearnSource, AssetEvictions, FlowEvictions;
    SameSource(c, a, b, v, w);
    SameFlowEvictions(c, a, b, v);
    SameAssetEvictions(c, a, b, v, v.srcAsset);
    SameAssetEvictions(c, LearnSource(c, a, v, w), LearnSource(c, b, v, w), v, v.dstAsset);
  }

  lemma SameFlowEvictions(c: Config, a: State, b: State, v: Sample)
    requires a.shards == b.shards
    ensures FlowEvictions(c, a, v) == FlowEvictions(c, b, v)
  {
  }

  lemma LearningEvicts(c: Config, st: State, v: Sample, w: Choice)
    ensures Learn(c, st, v, w).evicted == st.evicted + Evictions(c, st, v, w)
  {
    var f := LearnFlow(c, st, v, w.flow);
    FlowEvicts(c, st, v, w.flow);
    LearnFlowFrame(c, st, v, w.flow);
    SameSource(c, st, f, v, w);
    SameAssetEvictions(c, st, f, v, v.srcAsset);
    SameAssetEvictions(c, LearnSource(c, st, v, w), LearnSource(c, f, v, w), v, v.dstAsset);
    AssetsEvict(c, f, v, w);
    hide LearnFlow, LearnSource, LearnTarget, FlowEvictions, AssetEvictions;
  }

  lemma AssetsEvict(c: Config, st: State, v: Sample, w: Choice)
    ensures LearnTarget(c, LearnSource(c, st, v, w), v, w).evicted
         == st.evicted + (if v.srcAsset == "" then 0 else AssetEvictions(c, st, v, v.srcAsset))
            + if v.dstAsset == "" || v.dstAsset == v.srcAsset then 0 else AssetEvictions(c, LearnSource(c, st, v, w), v, v.dstAsset)
  {
    AssetEvicts(c, st, v, v.srcAsset, v.dstAsset, v.key.srcIP, v.key.dstIP, false, w.source);
    AssetEvicts(c, LearnSource(c, st, v, w), v, v.dstAsset, v.srcAsset, v.key.dstIP, v.key.srcIP, true, w.target);
    hide LearnAsset, AssetEvictions;
  }

  lemma ObservationCounts(c: Config, st: State, n: Counts, v: Sample, w: Choice)
    requires ValidConfig(c) && Shows(st, n)
    ensures Shows(Observed(c, st, v, w), CountsStep(c, st, n, Observation(v, w)))
  {
    hide Learn, OutcomeOf, ModeAt, Shadow, StartedBy, Evictions;
    var s := Scanned(c, st, v, w);
    match OutcomeOf(c, st, v)
    case Trusted =>
      LearnFrame(c, s, v, w);
      LearningEvicts(c, s, v, w);
      SameEvictions(c, st, s, v, w);
    case Shadowed => ShadowFrame(c, s, v, true, ReviewReason(c, v.key), w.candidate);
    case _ =>
  }

  lemma StepCounts(c: Config, st: State, n: Counts, e: Event)
    requires ValidConfig(c) && Shows(st, n)
    ensures Shows(Step(c, st, e), CountsStep(c, st, n, e))
  {
    hide Observed, Promote, ApplyExclusion, OutcomeOf, PromoteVerdict, CompleteVerdict, Evictions;
    match e
    case Observation(v, w) => ObservationCounts(c, st, n, v, w);
    case PromoteCandidate(id, at) =>
      if PromoteVerdict(c, st, id) == Promoted { PromoteFrame(c, st, id, at); } else { UnpromotedStays(c, st, id, at); }
    case ApplyLearningExclusion(x, at) => ExclusionFrame(c, st, x, at);
    case _ =>
  }

  /** On every reachable state each counter shows what happened since the last reset: the observations, those dropped,
      those refused, and the entries that gave way to others. */
  lemma {:induction false} CountersFollowHistory(c: Config, es: seq<Event>)
    requires ValidConfig(c)
    ensures Shows(Run(c, Initial(), es), CountsOf(c, es))
  {
    hide Step, CountsStep;
    if es != [] {
      CountersFollowHistory(c, es[..|es|-1]);
      StepCounts(c, Run(c, Initial(), es[..|es|-1]), CountsOf(c, es[..|es|-1]), es[|es|-1]);
    }
  }

  lemma {:induction false} DeletedSome(shards: seq<map<Key, Profile>>, x: Exclusion)
    ensures Deleted(shards, x) > 0 <==> exists i, k :: 0 <= i < |shards| && k in shards[i] && Excludes(x, k)
  {
    hide Excludes;
    if shards != [] {
      var n := |shards| - 1;
      var before, row := shards[..n], shards[n];
      DeletedSome(before, x);
      assert forall i :: 0 <= i < n ==> before[i] == shards[i];
      var gone := set k | k in row && Excludes(x, k);
      if k :| k in gone {
        assert k in shards[n] && Excludes(x, k);
      } else {
        forall k | k in shards[n] ensures !Excludes(x, k) { assert k !in gone; }
        assert gone == {};
      }
    }
  }

  lemma RevisionStep(c: Config, st: State, e: Event)
    requires ValidConfig(c)
    ensures Step(c, st, e).revision == st.revision + if Changes(c, st, e) then 1 else 0
  {
    hide Observed, Promote, ApplyExclusion, OutcomeOf, PromoteVerdict, CompleteVerdict, ModeAt;
    match e
    case Observation(v, w) => ObservedRevision(c, st, v, w);
    case PromoteCandidate(id, at) =>
      if PromoteVerdict(c, st, id) == Promoted { PromoteFrame(c, st, id, at); } else { UnpromotedStays(c, st, id, at); }
    case ApplyLearningExclusion(x, at) => ExcludedRevision(c, st, x, at);
    case _ =>
  }

  lemma ObservedRevision(c: Config, st: State, v: Sample, w: Choice)
    requires ValidConfig(c)
    ensures Observed(c, st, v, w).revision == st.revision + if OutcomeOf(c, st, v) == Trusted then 1 else 0
  {
    hide Observed, OutcomeOf, Learn, ModeAt;
    if OutcomeOf(c, st, v) == Trusted {
      TrustedLearns(c, st, v, w);
      LearnFrame(c, Scanned(c, st, v, w), v, w);
    } else {
      UntrustedObservation(c, st, v, w);
    }
  }

  lemma ExcludedRevision(c: Config, st: State, x: Exclusion, at: Time)
    requires ValidConfig(c)
    ensures ApplyExclusion(c, st, x, at).revision
         == st.revision + if Changes(c, st, ApplyLearningExclusion(x, at)) then 1 else 0
  {
    DeletedSome(st.shards, x);
    SameModeWithoutTables(c, st, Disqualified(st, x, at), at);
    hide ModeAt, Deleted, CleansedAll, ForgetAll, Excludes, Quarantine;
  }

  /** The revision, by which the engine knows that it has something to save, has grown by one for every change. */
  lemma {:induction false} RevisionCountsChanges(c: Config, es: seq<Event>)
    requires ValidConfig(c)
    ensures Run(c, Initial(), es).revision == ChangesIn(c, es)
  {
    hide Step, Changes;
    if es != [] {
      RevisionCountsChanges(c, es[..|es|-1]);
      RevisionStep(c, Run(c, Initial(), es[..|es|-1]), es[|es|-1]);
    }
  }
}
