/** The engine's gauges, counters and size bounds, over every run from the initial state. */
module BaselineAccounting {
  import opened BaselineModel
  import opened BaselineSpec
  import opened BaselineFrames
  import opened Stats
  import MapSums

  // ---------- Table sizes ----------

  lemma {:induction false} EntriesSetRow<K, V>(table: seq<map<K, V>>, i: nat, row: map<K, V>)
    requires i < |table|
    ensures Entries(SetRow(table, i, row)) == Entries(table) - |table[i]| + |row|
    ensures |table[i]| <= Entries(table)
  {
    var n := |table| - 1;
    var t := SetRow(table, i, row);
    if i == n {
      assert t[..n] == table[..n];
    } else {
      EntriesSetRow(table[..n], i, row);
      assert t[..n] == SetRow(table[..n], i, row);
    }
  }

  lemma SizePut<K, V>(m: map<K, V>, k: K, v: V)
    ensures |m[k := v]| == if k in m then |m| else |m| + 1
  {
    assert m[k := v].Keys == m.Keys + {k};
    assert |m.Keys + {k}| == if k in m.Keys then |m.Keys| else |m.Keys| + 1;
    assert |m[k := v].Keys| == |m[k := v]|;
  }

  lemma FlowRowSize(m: map<Key, Profile>, v: Sample, full: bool, victim: Key)
    requires full ==> v.key !in m && victim in m
    ensures |FlowRow(m, v, full, victim)| == if v.key in m then |m| else if full then |m| else |m| + 1
    ensures v.key !in m && full ==> |m| > 0
  {
    hide UpdateProfile;
    if full { MapSums.SizeRemove(m, victim); }
    var room := if full then m - {victim} else m;
    var p := if v.key in m then m[v.key] else NewProfile(v.key, v.at);
    SizePut(room, v.key, UpdateProfile(p, v));
  }

  lemma AssetRowSize(m: map<AssetKey, AssetProfile>, key: AssetKey, v: Sample, peer: string, ip: string, peerIP: string,
                     inbound: bool, full: bool, victim: AssetKey)
    requires full ==> key !in m && victim in m
    ensures |AssetRow(m, key, v, peer, ip, peerIP, inbound, full, victim)|
         == if key in m then |m| else if full then |m| else |m| + 1
    ensures key !in m && full ==> |m| > 0
  {
    hide UpdateAsset;
    if full { MapSums.SizeRemove(m, victim); }
    var room := if full then m - {victim} else m;
    var p := if key in m then m[key] else NewAssetProfile(key, v.at, 0);
    SizePut(room, key, UpdateAsset(p, v, peer, ip, peerIP, inbound));
  }

  // ---------- Gauges ----------

  predicate Shaped(st: State) { |st.shards| == SHARDS && |st.assetShards| == SHARDS }

  /** Each gauge is its table's size, modulo the width of the counter. */
  predicate GaugesExact(st: State) {
    && Shaped(st)
    && st.profiles == Entries(st.shards) % TWO_64
    && st.assetProfiles == Entries(st.assetShards) % TWO_64
  }

  /** Wrap-around subtraction followed by an increment loses nothing. */
  lemma GaugeFollows(size: nat, added: bool, full: bool)
    requires full ==> added && size > 0
    ensures Gauge(size % TWO_64, added, full)
         == (if added && !full then size + 1 else size) % TWO_64
  {
  }

  lemma DownByFollows(size: nat, n: nat)
    requires n <= size
    ensures DownBy(size % TWO_64, n) == (size - n) % TWO_64
  {
    var q, r, q', r' := size / TWO_64, size % TWO_64, n / TWO_64, n % TWO_64;
    assert size - n == TWO_64 * (q - q') + (r - r');
    if r >= r' {
      assert r + (TWO_64 - r') == TWO_64 + (r - r');
    }
  }

  lemma FlowFullMeansNew(c: Config, st: State, key: Key)
    ensures FlowFull(c, st, key) ==> key !in Row(st.shards, FlowShard(c, key))
  {
  }

  lemma AssetFullMeansNew(c: Config, st: State, key: AssetKey)
    ensures AssetFull(c, st, key) ==> key !in Row(st.assetShards, AssetShard(c, key))
  {
  }

  lemma LearnFlowGauge(c: Config, st: State, v: Sample, victim: Key)
    requires GaugesExact(st)
    requires FlowFull(c, st, v.key) ==> victim in Row(st.shards, FlowShard(c, v.key))
    ensures GaugesExact(LearnFlow(c, st, v, victim))
  {
    hide FlowRow, Gauge, Remembered, FlowFull;
    FlowFullMeansNew(c, st, v.key);
    var i := FlowShard(c, v.key);
    var m, full := st.shards[i], FlowFull(c, st, v.key);
    FlowRowSize(m, v, full, victim);
    EntriesSetRow(st.shards, i, FlowRow(m, v, full, victim));
    GaugeFollows(Entries(st.shards), v.key !in m, full);
  }

  lemma LearnAssetGauge(c: Config, st: State, v: Sample, asset: string, peer: string, ip: string, peerIP: string,
                        inbound: bool, victim: AssetKey)
    requires GaugesExact(st)
    requires AssetFull(c, st, AssetKeyOf(v.key, asset)) ==> victim in Row(st.assetShards, AssetShard(c, AssetKeyOf(v.key, asset)))
    ensures GaugesExact(LearnAsset(c, st, v, asset, peer, ip, peerIP, inbound, victim))
  {
    hide AssetRow, Gauge, AssetFull;
    AssetFullMeansNew(c, st, AssetKeyOf(v.key, asset));
    var key := AssetKeyOf(v.key, asset);
    var i := AssetShard(c, key);
    var m, full := st.assetShards[i], AssetFull(c, st, key);
    AssetRowSize(m, key, v, peer, ip, peerIP, inbound, full, victim);
    EntriesSetRow(st.assetShards, i, AssetRow(m, key, v, peer, ip, peerIP, inbound, full, victim));
    GaugeFollows(Entries(st.assetShards), key !in m, full);
  }

  lemma LearnGauge(c: Config, st: State, v: Sample, w: Choice)
    requires GaugesExact(st) && LegalLearn(c, st, v, w)
    ensures GaugesExact(Learn(c, st, v, w))
  {
    hide LearnFlow, LearnAsset, FlowFull, AssetFull;
    LearnFlowGauge(c, st, v, w.flow);
    var s1 := LearnFlow(c, st, v, w.flow);
    if v.srcAsset != "" {
      LearnAssetGauge(c, s1, v, v.srcAsset, v.dstAsset, v.key.srcIP, v.key.dstIP, false, w.source);
    }
    var s2 := LearnSource(c, s1, v, w);
    if v.dstAsset != "" && v.dstAsset != v.srcAsset {
      LearnAssetGauge(c, s2, v, v.dstAsset, v.srcAsset, v.key.dstIP, v.key.srcIP, true, w.target);
    }
  }

  lemma ObservedGauge(c: Config, st: State, v: Sample, w: Choice)
    requires ValidConfig(c) && GaugesExact(st) && LegalChoice(c, st, v, w)
    ensures GaugesExact(Observed(c, st, v, w))
  {
    hide Learn, LegalLearn, OutcomeOf, LegalPurge, ModeAt, Entries, Shadow;
    if OutcomeOf(c, st, v) == Trusted {
        LearnGauge(c, Scanned(c, st, v, w), v, w);
    } else {
      UntrustedObservation(c, st, v, w);
    }
  }

  lemma TrustGauge(c: Config, st: State, key: Key, p: Profile)
    requires GaugesExact(st)
    ensures GaugesExact(TrustProfile(c, st, key, p))
  {
    hide Gauge;
    var i := FlowShard(c, key);
    SizePut(st.shards[i], key, p);
    EntriesSetRow(st.shards, i, st.shards[i][key := p]);
    GaugeFollows(Entries(st.shards), key !in st.shards[i], false);
  }

  lemma SeedRowSize(m: map<AssetKey, AssetProfile>, k: AssetKey, key: Key, at: Time, peer: string, inbound: bool, events: nat)
    ensures |SeedRow(m, k, key, at, peer, inbound, events)| == if k in m then |m| else |m| + 1
  {
    hide PromoteAsset;
    var p := if k in m then m[k] else NewAssetProfile(k, at, at);
    SizePut(m, k, PromoteAsset(p, key, at, peer, inbound, events));
  }

  lemma SeedGauge(c: Config, st: State, key: Key, at: Time, asset: string, peer: string, inbound: bool, events: nat)
    requires GaugesExact(st)
    ensures GaugesExact(SeedAsset(c, st, key, at, asset, peer, inbound, events))
  {
    hide SeedRow, Gauge;
    if asset != "" {
      var k := AssetKeyOf(key, asset);
      var i := AssetShard(c, k);
      var m := st.assetShards[i];
      SeedRowSize(m, k, key, at, peer, inbound, events);
      EntriesSetRow(st.assetShards, i, SeedRow(m, k, key, at, peer, inbound, events));
      GaugeFollows(Entries(st.assetShards), k !in m, false);
    }
  }

  lemma PromoteGauge(c: Config, st: State, id: CandidateId, now: Time)
    requires GaugesExact(st)
    ensures GaugesExact(Promote(c, st, id, now))
  {
    hide TrustProfile, SeedAsset, Entries;
    if PromoteVerdict(c, st, id) == Promoted {
      var x := st.candidates[id];
      var s0 := st.(candidates := st.candidates - {id}, promoted := st.promoted[id := now], failures := st.failures - {id});
      var events := if x.observations == 0 then 1 else x.observations;
      TrustGauge(c, s0, x.key, x.profile);
      var s1 := TrustProfile(c, s0, x.key, x.profile);
      SeedGauge(c, s1, x.key, x.lastSeen, x.srcAsset, x.dstAsset, false, events);
      var s2 := SeedAsset(c, s1, x.key, x.lastSeen, x.srcAsset, x.dstAsset, false, events);
      SeedGauge(c, s2, x.key, x.lastSeen, x.dstAsset, x.srcAsset, true, events);
    }
  }

  lemma CleansedSize(m: map<Key, Profile>, e: Exclusion)
    ensures |Cleansed(m, e)| == |m| - |set k | k in m && Excludes(e, k)|
  {
    var gone := set k | k in m && Excludes(e, k);
    assert Cleansed(m, e).Keys == m.Keys - gone;
    assert |m.Keys - gone| == |m.Keys| - |gone| by { assert m.Keys == (m.Keys - gone) + gone; }
    assert |Cleansed(m, e).Keys| == |Cleansed(m, e)|;
  }

  lemma {:induction false} CleansedEntries(table: seq<map<Key, Profile>>, cleansed: seq<map<Key, Profile>>, e: Exclusion)
    requires |cleansed| == |table| && forall i :: 0 <= i < |table| ==> cleansed[i] == Cleansed(table[i], e)
    ensures Deleted(table, e) <= Entries(table)
    ensures Entries(cleansed) == Entries(table) - Deleted(table, e)
  {
    if table != [] {
      var n := |table| - 1;
      CleansedEntries(table[..n], cleansed[..n], e);
      CleansedSize(table[n], e);
    }
  }

  lemma {:induction false} SameKeysSameEntries<K, V>(a: seq<map<K, V>>, b: seq<map<K, V>>)
    requires |a| == |b| && forall i :: 0 <= i < |a| ==> a[i].Keys == b[i].Keys
    ensures Entries(a) == Entries(b)
  {
    if a != [] {
      var n := |a| - 1;
      SameKeysSameEntries(a[..n], b[..n]);
      assert |a[n].Keys| == |a[n]| && |b[n].Keys| == |b[n]|;
    }
  }

  lemma ExclusionGauge(c: Config, st: State, e: Exclusion, now: Time)
    requires ValidConfig(c) && GaugesExact(st)
    ensures GaugesExact(ApplyExclusion(c, st, e, now))
  {
    hide ModeAt, Cleansed, ForgetPeer, Deleted, Entries, DownBy, Quarantine;
    var s := ApplyExclusion(c, st, e, now);
    var flows := CleansedAll(st.shards, e);
    var a, b := Resolve(st, e.sensor, e.srcIP), Resolve(st, e.sensor, e.dstIP);
    var assets := ForgetAll(st.assetShards, a, b);
    CleansedEntries(st.shards, flows, e);
    DownByFollows(Entries(st.shards), Deleted(st.shards, e));
    forall i | 0 <= i < |assets| ensures assets[i].Keys == st.assetShards[i].Keys {}
    SameKeysSameEntries(assets, st.assetShards);
  }

  lemma StepGauge(c: Config, st: State, e: Event)
    requires ValidConfig(c) && GaugesExact(st) && Legal(c, st, e)
    ensures GaugesExact(Step(c, st, e))
  {
    hide Observed, Promote, ApplyExclusion, LegalChoice, CompleteVerdict;
    match e
    case Observation(v, w) => ObservedGauge(c, st, v, w);
    case PromoteCandidate(id, at) => PromoteGauge(c, st, id, at);
    case ApplyLearningExclusion(x, at) => ExclusionGauge(c, st, x, at);
    case ResetAll => InitialGauge();
    case _ =>
  }

  lemma {:induction false} EmptyEntries<K, V>(table: seq<map<K, V>>)
    requires forall i :: 0 <= i < |table| ==> table[i] == map[]
    ensures Entries(table) == 0
  {
    if table != [] { EmptyEntries(table[..|table|-1]); }
  }

  lemma InitialGauge()
    ensures GaugesExact(Initial())
  {
    EmptyEntries(Initial().shards);
    EmptyEntries(Initial().assetShards);
  }

  /** On every reachable state each gauge equals the number of stored profiles. */
  lemma {:induction false} GaugesAlwaysExact(c: Config, es: seq<Event>)
    requires ValidConfig(c) && LegalRun(c, Initial(), es)
    ensures GaugesExact(Run(c, Initial(), es))
  {
    hide Step, Legal, Entries;
    if es == [] {
      InitialGauge();
    } else {
      GaugesAlwaysExact(c, es[..|es|-1]);
      StepGauge(c, Run(c, Initial(), es[..|es|-1]), es[|es|-1]);
    }
  }

  // ---------- Every observation is accounted for ----------

  /** What has happened since the last reset. */
  datatype Tally = Tally(trusted: nat, shadowed: nat, promotions: nat)

  ghost function TallyStep(c: Config, st: State, t: Tally, e: Event): Tally
    requires ValidConfig(c)
  {
    match e
    case Observation(v, _) =>
      (match OutcomeOf(c, st, v)
       case Trusted => t.(trusted := t.trusted + 1)
       case Shadowed => t.(shadowed := t.shadowed + 1)
       case _ => t)
    case PromoteCandidate(id, _) =>
      if PromoteVerdict(c, st, id) == Promoted then t.(promotions := t.promotions + 1) else t
    case ResetAll => Tally(0, 0, 0)
    case _ => t
  }

  ghost function TallyOf(c: Config, es: seq<Event>): Tally
    requires ValidConfig(c)
  {
    if es == [] then Tally(0, 0, 0)
    else TallyStep(c, Run(c, Initial(), es[..|es|-1]), TallyOf(c, es[..|es|-1]), es[|es|-1])
  }

  predicate Balanced(st: State, t: Tally) {
    st.observed == st.dropped + st.excluded + t.trusted + t.shadowed
  }

  lemma ObservationBalances(c: Config, st: State, t: Tally, v: Sample, w: Choice)
    requires ValidConfig(c) && Balanced(st, t)
    ensures Balanced(Observed(c, st, v, w), TallyStep(c, st, t, Observation(v, w)))
  {
    hide Learn, OutcomeOf, ModeAt, Shadow, StartedBy;
    var s := Scanned(c, st, v, w);
    match OutcomeOf(c, st, v)
    case Trusted => LearnFrame(c, s, v, w);
    case Shadowed => ShadowFrame(c, s, v, true, ReviewReason(c, v.key), w.candidate);
    case _ =>
  }

  lemma StepBalances(c: Config, st: State, t: Tally, e: Event)
    requires ValidConfig(c) && Balanced(st, t)
    ensures Balanced(Step(c, st, e), TallyStep(c, st, t, e))
  {
    hide Observed, Promote, ApplyExclusion, OutcomeOf, PromoteVerdict, CompleteVerdict;
    match e
    case Observation(v, w) => ObservationBalances(c, st, t, v, w);
    case PromoteCandidate(id, at) =>
      if PromoteVerdict(c, st, id) == Promoted { PromoteFrame(c, st, id, at); } else { UnpromotedStays(c, st, id, at); }
    case ApplyLearningExclusion(x, at) => ExclusionFrame(c, st, x, at);
    case _ =>
  }

  /** Observed = dropped + excluded + learned + shadowed, whatever the interleaving of operations. */
  lemma {:induction false} EveryObservationIsCounted(c: Config, es: seq<Event>)
    requires ValidConfig(c)
    ensures Balanced(Run(c, Initial(), es), TallyOf(c, es))
  {
    hide Step, TallyStep;
    if es != [] {
      EveryObservationIsCounted(c, es[..|es|-1]);
      StepBalances(c, Run(c, Initial(), es[..|es|-1]), TallyOf(c, es[..|es|-1]), es[|es|-1]);
    }
  }

  // ---------- Tables stay bounded ----------

  ghost predicate RowsWithin<K, V>(table: seq<map<K, V>>, bound: nat) {
    forall i :: 0 <= i < |table| ==> |table[i]| <= bound
  }

  /** Promotion is the only way past a shard's capacity, by one flow and at most two asset entries each. */
  ghost predicate Bounded(c: Config, st: State, t: Tally) {
    && Shaped(st)
    && RowsWithin(st.shards, Capacity(c.maxProfiles) + t.promotions)
    && RowsWithin(st.assetShards, Capacity(c.maxAssetProfiles) + 2 * t.promotions)
    && |st.candidates| <= c.maxProfiles
  }

  lemma RowsSetRow<K, V>(table: seq<map<K, V>>, i: nat, row: map<K, V>, bound: nat)
    requires RowsWithin(table, bound) && |row| <= bound
    ensures RowsWithin(SetRow(table, i, row), bound)
  {
  }

  lemma RowsWiden<K, V>(table: seq<map<K, V>>, a: nat, b: nat)
    requires RowsWithin(table, a) && a <= b
    ensures RowsWithin(table, b)
  {
  }

  lemma LearnFlowRows(c: Config, st: State, v: Sample, victim: Key, bound: nat)
    requires Shaped(st) && RowsWithin(st.shards, bound) && Capacity(c.maxProfiles) <= bound
    requires FlowFull(c, st, v.key) ==> victim in Row(st.shards, FlowShard(c, v.key))
    ensures RowsWithin(LearnFlow(c, st, v, victim).shards, bound)
  {
    hide FlowRow, Gauge, Remembered;
    var i := FlowShard(c, v.key);
    var m := st.shards[i];
    FlowRowSize(m, v, FlowFull(c, st, v.key), victim);
    RowsSetRow(st.shards, i, FlowRow(m, v, FlowFull(c, st, v.key), victim), bound);
  }

  lemma LearnAssetRows(c: Config, st: State, v: Sample, asset: string, peer: string, ip: string, peerIP: string,
                       inbound: bool, victim: AssetKey, bound: nat)
    requires Shaped(st) && RowsWithin(st.assetShards, bound) && Capacity(c.maxAssetProfiles) <= bound
    requires AssetFull(c, st, AssetKeyOf(v.key, asset)) ==> victim in Row(st.assetShards, AssetShard(c, AssetKeyOf(v.key, asset)))
    ensures RowsWithin(LearnAsset(c, st, v, asset, peer, ip, peerIP, inbound, victim).assetShards, bound)
  {
    hide AssetRow, Gauge;
    var key := AssetKeyOf(v.key, asset);
    var i := AssetShard(c, key);
    var m := st.assetShards[i];
    AssetRowSize(m, key, v, peer, ip, peerIP, inbound, AssetFull(c, st, key), victim);
    RowsSetRow(st.assetShards, i, AssetRow(m, key, v, peer, ip, peerIP, inbound, AssetFull(c, st, key), victim), bound);
  }

  lemma LearnRows(c: Config, st: State, v: Sample, w: Choice, bound: nat)
    requires Shaped(st) && RowsWithin(st.assetShards, bound) && Capacity(c.maxAssetProfiles) <= bound
    requires LegalLearn(c, st, v, w)
    ensures RowsWithin(Learn(c, st, v, w).assetShards, bound)
  {
    hide LearnFlow, LearnAsset, FlowFull, AssetFull, RowsWithin;
    LearnFlowFrame(c, st, v, w.flow);
    var s1 := LearnFlow(c, st, v, w.flow);
    FlowShape(c, st, v, w.flow);
    if v.srcAsset != "" {
      LearnAssetRows(c, s1, v, v.srcAsset, v.dstAsset, v.key.srcIP, v.key.dstIP, false, w.source, bound);
      AssetShape(c, s1, v, v.srcAsset, v.dstAsset, v.key.srcIP, v.key.dstIP, false, w.source);
    }
    var s2 := LearnSource(c, s1, v, w);
    if v.dstAsset != "" && v.dstAsset != v.srcAsset {
      LearnAssetRows(c, s2, v, v.dstAsset, v.srcAsset, v.key.dstIP, v.key.srcIP, true, w.target, bound);
    }
  }

  lemma FlowShape(c: Config, st: State, v: Sample, victim: Key)
    ensures Shaped(st) ==> Shaped(LearnFlow(c, st, v, victim))
  {
    hide FlowRow, Gauge, Remembered;
  }

  lemma AssetShape(c: Config, st: State, v: Sample, asset: string, peer: string, ip: string, peerIP: string,
                   inbound: bool, victim: AssetKey)
    ensures Shaped(st) ==> Shaped(LearnAsset(c, st, v, asset, peer, ip, peerIP, inbound, victim))
  {
    hide AssetRow, Gauge;
  }

  lemma ShadowSize(c: Config, st: State, v: Sample, eligible: bool, reason: string, victim: CandidateId)
    requires c.maxProfiles > 0 && |st.candidates| <= c.maxProfiles
    requires CandidatesFull(c, st, v.key) ==> victim in st.candidates
    ensures |Shadow(c, st, v, eligible, reason, victim).candidates| <= c.maxProfiles
  {
    hide UpdateCandidate, NewCandidate;
    var id := IdOf(v.key);
    var full := CandidatesFull(c, st, v.key);
    if full { MapSums.SizeRemove(st.candidates, victim); }
    var room := if full then st.candidates - {victim} else st.candidates;
    var x := if id in st.candidates then st.candidates[id] else NewCandidate(v, eligible, reason);
    SizePut(room, id, UpdateCandidate(x, v, eligible, reason));
  }

  lemma ObservedBounded(c: Config, st: State, t: Tally, v: Sample, w: Choice)
    requires ValidConfig(c) && Bounded(c, st, t) && LegalChoice(c, st, v, w)
    ensures Bounded(c, Observed(c, st, v, w), TallyStep(c, st, t, Observation(v, w)))
  {
    hide LearnFlow, LearnSource, LearnTarget, LegalLearn, OutcomeOf, LegalPurge, ModeAt, RowsWithin, Shadow, Capacity;
    var s := Scanned(c, st, v, w);
    var t' := TallyStep(c, st, t, Observation(v, w));
    assert t'.promotions == t.promotions;
    match OutcomeOf(c, st, v)
    case Trusted =>
      LegalLearnVictim(c, s, v, w);
      LearnFlowRows(c, s, v, w.flow, Capacity(c.maxProfiles) + t.promotions);
      LearnRows(c, s, v, w, Capacity(c.maxAssetProfiles) + 2 * t.promotions);
      LearnShape(c, s, v, w);
      LearnFrame(c, s, v, w);
    case Shadowed =>
      ShadowSize(c, s, v, true, ReviewReason(c, v.key), w.candidate);
      ShadowFrame(c, s, v, true, ReviewReason(c, v.key), w.candidate);
    case _ =>
  }

  lemma LegalLearnVictim(c: Config, st: State, v: Sample, w: Choice)
    requires LegalLearn(c, st, v, w)
    ensures FlowFull(c, st, v.key) ==> w.flow in Row(st.shards, FlowShard(c, v.key))
  {
    hide LearnFlow, LearnSource, FlowFull, AssetFull, OldestAsset;
  }

  lemma LearnShape(c: Config, st: State, v: Sample, w: Choice)
    requires Shaped(st)
    ensures Shaped(Learn(c, st, v, w))
  {
    hide LearnFlow, LearnAsset;
    FlowShape(c, st, v, w.flow);
    var s1 := LearnFlow(c, st, v, w.flow);
    AssetShape(c, s1, v, v.srcAsset, v.dstAsset, v.key.srcIP, v.key.dstIP, false, w.source);
    AssetShape(c, LearnSource(c, s1, v, w), v, v.dstAsset, v.srcAsset, v.key.dstIP, v.key.srcIP, true, w.target);
  }

  lemma RowsAddOne<K, V>(table: seq<map<K, V>>, i: nat, k: K, v: V, bound: nat)
    requires i < |table| && RowsWithin(table, bound)
    ensures RowsWithin(SetRow(table, i, Row(table, i)[k := v]), bound + 1)
  {
    SizePut(table[i], k, v);
  }

  lemma SeedRows(c: Config, st: State, key: Key, at: Time, asset: string, peer: string, inbound: bool, events: nat, bound: nat)
    requires Shaped(st) && RowsWithin(st.assetShards, bound)
    ensures Shaped(SeedAsset(c, st, key, at, asset, peer, inbound, events))
    ensures RowsWithin(SeedAsset(c, st, key, at, asset, peer, inbound, events).assetShards, bound + 1)
  {
    hide PromoteAsset, Gauge;
    if asset != "" {
      var k := AssetKeyOf(key, asset);
      var i := AssetShard(c, k);
      var m := st.assetShards[i];
      var p := if k in m then m[k] else NewAssetProfile(k, at, at);
      RowsAddOne(st.assetShards, i, k, PromoteAsset(p, key, at, peer, inbound, events), bound);
    }
  }

  lemma PromotedRows(c: Config, st: State, id: CandidateId, now: Time, bound: nat)
    requires Shaped(st) && RowsWithin(st.assetShards, bound) && PromoteVerdict(c, st, id) == Promoted
    ensures Shaped(Promote(c, st, id, now))
    ensures RowsWithin(Promote(c, st, id, now).assetShards, bound + 2)
  {
    hide SeedAsset, Gauge, RowsWithin;
    var x := st.candidates[id];
    var s0 := st.(candidates := st.candidates - {id}, promoted := st.promoted[id := now], failures := st.failures - {id});
    var s1 := TrustProfile(c, s0, x.key, x.profile);
    var events := if x.observations == 0 then 1 else x.observations;
    SeedRows(c, s1, x.key, x.lastSeen, x.srcAsset, x.dstAsset, false, events, bound);
    var s2 := SeedAsset(c, s1, x.key, x.lastSeen, x.srcAsset, x.dstAsset, false, events);
    SeedRows(c, s2, x.key, x.lastSeen, x.dstAsset, x.srcAsset, true, events, bound + 1);
  }

  lemma PromoteBounded(c: Config, st: State, t: Tally, id: CandidateId, now: Time)
    requires ValidConfig(c) && Bounded(c, st, t) && PromoteVerdict(c, st, id) == Promoted
    ensures Bounded(c, Promote(c, st, id, now), t.(promotions := t.promotions + 1))
  {
    hide Gauge, RowsWithin, Capacity, Promote, SetRow;
    var x := st.candidates[id];
    PromoteFrame(c, st, id, now);
    PromotedRows(c, st, id, now, Capacity(c.maxAssetProfiles) + 2 * t.promotions);
    RowsAddOne(st.shards, FlowShard(c, x.key), x.key, x.profile, Capacity(c.maxProfiles) + t.promotions);
    MapSums.SizeRemove(st.candidates, id);
  }

  lemma ExclusionBounded(c: Config, st: State, t: Tally, e: Exclusion, now: Time)
    requires ValidConfig(c) && Bounded(c, st, t)
    ensures Bounded(c, ApplyExclusion(c, st, e, now), t)
  {
    hide ModeAt, Cleansed, ForgetPeer, Deleted, DownBy, Quarantine, Capacity, Resolve;
    ExclusionFrame(c, st, e, now);
    var s := ApplyExclusion(c, st, e, now);
    forall i | 0 <= i < |st.shards| ensures |Cleansed(st.shards[i], e)| <= |st.shards[i]| {
      CleansedSize(st.shards[i], e);
    }
    forall m: map<AssetKey, AssetProfile>, a, b | m in st.assetShards ensures |ForgetPeers(m, a, b)| == |m| {
      assert ForgetPeers(m, a, b).Keys == m.Keys;
      assert |ForgetPeers(m, a, b).Keys| == |ForgetPeers(m, a, b)|;
    }
    assert s.candidates.Keys == st.candidates.Keys;
    assert |s.candidates.Keys| == |s.candidates| && |st.candidates.Keys| == |st.candidates|;
  }

  lemma StepBounded(c: Config, st: State, t: Tally, e: Event)
    requires ValidConfig(c) && Bounded(c, st, t) && Legal(c, st, e)
    ensures Bounded(c, Step(c, st, e), TallyStep(c, st, t, e))
  {
    hide Observed, Promote, ApplyExclusion, PromoteVerdict, CompleteVerdict, LegalChoice, OutcomeOf;
    match e
    case Observation(v, w) => ObservedBounded(c, st, t, v, w);
    case PromoteCandidate(id, at) =>
      if PromoteVerdict(c, st, id) == Promoted { PromoteBounded(c, st, t, id, at); } else { UnpromotedStays(c, st, id, at); }
    case ApplyLearningExclusion(x, at) => ExclusionBounded(c, st, t, x, at);
    case _ =>
  }

  /** No flow shard outgrows its capacity by more than the promotions since the last reset, no asset shard by
      more than twice that, and the shadow store never outgrows the profile limit. */
  lemma {:induction false} TablesStayBounded(c: Config, es: seq<Event>)
    requires ValidConfig(c) && LegalRun(c, Initial(), es)
    ensures Bounded(c, Run(c, Initial(), es), TallyOf(c, es))
  {
    hide Step, TallyStep, Legal;
    if es != [] {
      TablesStayBounded(c, es[..|es|-1]);
      StepBounded(c, Run(c, Initial(), es[..|es|-1]), TallyOf(c, es[..|es|-1]), es[|es|-1]);
    }
  }
}
