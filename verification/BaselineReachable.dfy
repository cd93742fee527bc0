/** What holds of every stored profile and shadow candidate on every reachable state. */
module BaselineReachable {
  import opened BaselineModel
  import opened BaselineSpec
  import opened BaselineFrames
  import opened Stats

  // ---------- Profiles ----------

  /** The packet statistics are those of some sequence of packet sizes, and the plain counters agree. */
  ghost predicate Measured(p: Profile) {
    exists sizes: seq<real> :: MeasuredBy(p, sizes)
  }

  ghost predicate MeasuredBy(p: Profile, sizes: seq<real>) {
    p.packetBytes == After(sizes) && p.packets == |sizes| && p.bytes as real == Sum(sizes)
  }

  lemma NewProfileMeasured(key: Key, at: Time)
    ensures Measured(NewProfile(key, at))
  {
    assert MeasuredBy(NewProfile(key, at), []);
  }

  lemma UpdateKeepsMeasured(p: Profile, v: Sample)
    requires Measured(p)
    ensures Measured(UpdateProfile(p, v))
  {
    var sizes :| MeasuredBy(p, sizes);
    if v.packet {
      var longer := sizes + [v.bytes as real];
      AfterSnoc(sizes, v.bytes as real);
      SnocValues(sizes, v.bytes as real, 0.0);
      assert (p.bytes + v.bytes) as real == p.bytes as real + v.bytes as real;
      hide Observe, After, Sum, Gap, Bump;
      assert MeasuredBy(UpdateProfile(p, v), longer);
    } else {
      assert MeasuredBy(UpdateProfile(p, v), sizes);
    }
  }

  lemma AfterSnoc(vs: seq<real>, x: real)
    ensures After(vs + [x]) == Observe(After(vs), x)
  {
    hide Observe;
    assert (vs + [x])[..|vs|] == vs;
  }

  /** The mean of measured sizes times their number is their sum. */
  lemma MeanTimesCount(sizes: seq<real>, packets: nat, mean: real, bytes: real)
    requires packets == |sizes| > 0 && mean == After(sizes).mean && bytes == Sum(sizes)
    ensures packets as real * mean == bytes
  {
    hide After, Sum, SquaredDeviations;
    WelfordIsExact(sizes);
    RenameFactor(|sizes| as real, packets as real, mean);
  }

  lemma CountIsExact(sizes: seq<real>)
    ensures After(sizes).count == |sizes|
  {
    if sizes != [] {
      hide After, Sum, SquaredDeviations;
      WelfordIsExact(sizes);
    }
  }

  /** On a measured profile the statistics count the packets and their mean times that count is the bytes. */
  lemma MeasuredAgrees(p: Profile)
    requires Measured(p)
    ensures p.packetBytes.count == p.packets
    ensures p.packets > 0 ==> p.packets as real * p.packetBytes.mean == p.bytes as real
  {
    hide After, Sum, SquaredDeviations;
    var sizes :| MeasuredBy(p, sizes);
    CountIsExact(sizes);
    if p.packets > 0 { MeanTimesCount(sizes, p.packets, p.packetBytes.mean, p.bytes as real); }
  }

  ghost predicate GoodProfile(key: Key, p: Profile) {
    p.key == key && p.firstSeen > 0 && p.lastSeen > 0 && Measured(p)
  }

  lemma UpdatedProfileGood(key: Key, p: Profile, v: Sample)
    requires p.key == key && p.firstSeen > 0 && Measured(p) && v.at > 0
    ensures GoodProfile(key, UpdateProfile(p, v))
  {
    hide UpdateProfile;
    UpdateKeepsMeasured(p, v);
  }

  // ---------- Asset profiles ----------

  /** The packet statistics of an asset are those of the packets of both directions together. */
  ghost predicate AssetMeasured(p: AssetProfile) {
    exists sizes: seq<real> :: AssetMeasuredBy(p, sizes)
  }

  ghost predicate AssetMeasuredBy(p: AssetProfile, sizes: seq<real>) {
    && p.packetBytes == After(sizes)
    && p.inbound.packets + p.outbound.packets == |sizes|
    && (p.inbound.bytes + p.outbound.bytes) as real == Sum(sizes)
  }

  /** Observation caps these dimensions, and promotion does not touch them. */
  predicate DimensionsBounded(p: AssetProfile) { |p.operations| <= MAX_DIMENSIONS && |p.ips| <= MAX_DIMENSIONS }

  lemma NewAssetMeasured(key: AssetKey, at: Time, lastSeen: Time)
    ensures AssetMeasured(NewAssetProfile(key, at, lastSeen)) && DimensionsBounded(NewAssetProfile(key, at, lastSeen))
  {
    assert AssetMeasuredBy(NewAssetProfile(key, at, lastSeen), []);
  }

  lemma UpdateMeasuresAsset(p: AssetProfile, v: Sample, peerID: string, assetIP: string, peerIP: string, inbound: bool)
    requires AssetMeasured(p)
    ensures AssetMeasured(UpdateAsset(p, v, peerID, assetIP, peerIP, inbound))
  {
    hide AddPeer, Gap, Bump, Accumulate, EventsIn, CountIn, Observe;
    var r := UpdateAsset(p, v, peerID, assetIP, peerIP, inbound);
    var sizes :| AssetMeasuredBy(p, sizes);
    if v.packet {
      var longer := sizes + [v.bytes as real];
      AfterSnoc(sizes, v.bytes as real);
      SnocValues(sizes, v.bytes as real, 0.0);
      hide After, Sum;
      assert r.inbound.bytes + r.outbound.bytes == p.inbound.bytes + p.outbound.bytes + v.bytes;
      assert AssetMeasuredBy(r, longer);
    } else {
      assert AssetMeasuredBy(r, sizes);
    }
  }

  lemma BumpSize<K>(m: map<K, nat>, k: K)
    ensures |Bump(m, k)| <= |m| + 1
    ensures k in m ==> |Bump(m, k)| == |m|
  {
    var b := Bump(m, k);
    assert |b| == |b.Keys| && |m| == |m.Keys|;
    if k in m { assert b.Keys == m.Keys; } else { assert b.Keys == m.Keys + {k}; }
  }

  lemma UpdateBoundsDimensions(p: AssetProfile, v: Sample, peerID: string, assetIP: string, peerIP: string, inbound: bool)
    requires DimensionsBounded(p)
    ensures DimensionsBounded(UpdateAsset(p, v, peerID, assetIP, peerIP, inbound))
  {
    BumpSize(p.operations, v.operation);
    BumpSize(p.ips, assetIP);
    hide AddPeer, Gap, Bump, Accumulate, EventsIn, Observe;
  }

  lemma UpdatedAssetGood(key: AssetKey, p: AssetProfile, v: Sample, peerID: string, assetIP: string, peerIP: string, inbound: bool)
    requires p.key == key && p.firstSeen > 0 && AssetMeasured(p) && DimensionsBounded(p) && v.at > 0
    ensures GoodAsset(key, UpdateAsset(p, v, peerID, assetIP, peerIP, inbound))
  {
    hide UpdateAsset, AssetMeasured, DimensionsBounded;
    UpdateMeasuresAsset(p, v, peerID, assetIP, peerIP, inbound);
    UpdateBoundsDimensions(p, v, peerID, assetIP, peerIP, inbound);
  }

  lemma PromotedAssetGood(key: AssetKey, p: AssetProfile, flow: Key, at: Time, peerID: string, inbound: bool, events: nat)
    requires GoodAsset(key, p)
    ensures GoodAsset(key, PromoteAsset(p, flow, at, peerID, inbound, events))
  {
    hide AddPeer, Accumulate;
    var sizes :| AssetMeasuredBy(p, sizes);
    assert AssetMeasuredBy(PromoteAsset(p, flow, at, peerID, inbound, events), sizes);
  }

  lemma ForgottenPeerGood(key: AssetKey, p: AssetProfile, a: string, b: string)
    requires GoodAsset(key, p)
    ensures GoodAsset(key, ForgetPeer(p, a, b))
  {
    var sizes :| AssetMeasuredBy(p, sizes);
    assert AssetMeasuredBy(ForgetPeer(p, a, b), sizes);
  }

  // ---------- Candidates ----------

  /** A shadow candidate sits under its own id, has been seen on at least one day, on no more days than
      observations, and the day it was last seen is among them. */
  ghost predicate GoodCandidate(id: CandidateId, x: Candidate) {
    && x.id == id && IdOf(x.key) == id
    && 1 <= x.distinctDays == |x.days| <= x.observations
    && x.firstSeen > 0 && x.lastSeen > 0 && DayOf(x.lastSeen) in x.days
    && GoodProfile(x.key, x.profile)
  }

  lemma UpdatedCandidateGood(id: CandidateId, x: Candidate, v: Sample, eligible: bool, reason: string)
    requires IdOf(v.key) == id && x.id == id && IdOf(x.key) == id && v.at > 0 && x.firstSeen > 0
    requires |x.days| <= x.observations && x.profile.key == x.key && x.profile.firstSeen > 0 && Measured(x.profile)
    ensures GoodCandidate(id, UpdateCandidate(x, v, eligible, reason))
  {
    hide UpdateProfile;
    UpdatedProfileGood(x.key, x.profile, v);
    var d := {DayOf(v.at)};
    assert |x.days + d| <= |x.days| + 1 by {
      if d <= x.days { assert x.days + d == x.days; } else { assert x.days !! d; assert |x.days + d| == |x.days| + |d|; }
    }
    assert DayOf(v.at) in x.days + d;
    assert |x.days + d| > 0;
  }

  // ---------- The whole state ----------

  ghost predicate FlowsPlaced(c: Config, shards: seq<map<Key, Profile>>) {
    forall i, k :: 0 <= i < |shards| && k in shards[i] ==> FlowShard(c, k) == i && GoodProfile(k, shards[i][k])
  }

  ghost predicate GoodAsset(key: AssetKey, p: AssetProfile) {
    p.key == key && p.firstSeen > 0 && p.lastSeen > 0 && AssetMeasured(p) && DimensionsBounded(p)
  }

  ghost predicate AssetsPlaced(c: Config, shards: seq<map<AssetKey, AssetProfile>>) {
    forall i, k :: 0 <= i < |shards| && k in shards[i] ==> AssetShard(c, k) == i && GoodAsset(k, shards[i][k])
  }

  ghost predicate CandidatesGood(m: map<CandidateId, Candidate>) {
    forall id :: id in m ==> GoodCandidate(id, m[id])
  }

  ghost predicate Good(c: Config, st: State) {
    && |st.shards| == SHARDS && |st.assetShards| == SHARDS
    && FlowsPlaced(c, st.shards) && AssetsPlaced(c, st.assetShards) && CandidatesGood(st.candidates)
    && (forall id :: id in st.failures ==> st.failures[id].id == id)
  }

  lemma PlaceFlow(c: Config, shards: seq<map<Key, Profile>>, k: Key, row: map<Key, Profile>)
    requires FlowsPlaced(c, shards)
    requires forall j :: j in row ==> (j == k && GoodProfile(k, row[j])) || (j in Row(shards, FlowShard(c, k)) && row[j] == Row(shards, FlowShard(c, k))[j])
    ensures FlowsPlaced(c, SetRow(shards, FlowShard(c, k), row))
  {
  }

  lemma PlaceAsset(c: Config, shards: seq<map<AssetKey, AssetProfile>>, k: AssetKey, row: map<AssetKey, AssetProfile>)
    requires AssetsPlaced(c, shards)
    requires forall j :: j in row ==> (j == k && GoodAsset(k, row[j])) || (j in Row(shards, AssetShard(c, k)) && row[j] == Row(shards, AssetShard(c, k))[j])
    ensures AssetsPlaced(c, SetRow(shards, AssetShard(c, k), row))
  {
  }

  lemma FlowRowGood(c: Config, shards: seq<map<Key, Profile>>, v: Sample, full: bool, victim: Key)
    requires FlowsPlaced(c, shards) && v.at > 0
    ensures var i := FlowShard(c, v.key); FlowsPlaced(c, SetRow(shards, i, FlowRow(Row(shards, i), v, full, victim)))
  {
    hide UpdateProfile;
    var m := Row(shards, FlowShard(c, v.key));
    NewProfileMeasured(v.key, v.at);
    var p := if v.key in m then m[v.key] else NewProfile(v.key, v.at);
    assert v.key in m ==> GoodProfile(v.key, m[v.key]);
    UpdatedProfileGood(v.key, p, v);
    PlaceFlow(c, shards, v.key, FlowRow(m, v, full, victim));
  }

  lemma AssetRowGood(c: Config, shards: seq<map<AssetKey, AssetProfile>>, key: AssetKey, v: Sample, peer: string,
                     ip: string, peerIP: string, inbound: bool, full: bool, victim: AssetKey)
    requires AssetsPlaced(c, shards) && v.at > 0
    ensures var i := AssetShard(c, key);
            AssetsPlaced(c, SetRow(shards, i, AssetRow(Row(shards, i), key, v, peer, ip, peerIP, inbound, full, victim)))
  {
    hide UpdateAsset, AssetMeasured, DimensionsBounded;
    var m := Row(shards, AssetShard(c, key));
    assert key in m ==> GoodAsset(key, m[key]);
    NewAssetMeasured(key, v.at, 0);
    UpdatedAssetGood(key, if key in m then m[key] else NewAssetProfile(key, v.at, 0), v, peer, ip, peerIP, inbound);
    hide GoodAsset;
    PlaceAsset(c, shards, key, AssetRow(m, key, v, peer, ip, peerIP, inbound, full, victim));
  }

  lemma LearnGood(c: Config, st: State, v: Sample, w: Choice)
    requires Good(c, st) && v.at > 0
    ensures Good(c, Learn(c, st, v, w))
  {
    hide FlowRow, AssetRow, Gauge, Remembered, FlowFull, AssetFull, FlowsPlaced, AssetsPlaced, CandidatesGood;
    FlowRowGood(c, st.shards, v, FlowFull(c, st, v.key), w.flow);
    var s1 := LearnFlow(c, st, v, w.flow);
    LearnAssetGood(c, s1, v, v.srcAsset, v.dstAsset, v.key.srcIP, v.key.dstIP, false, w.source);
    hide LearnAsset;
    var s2 := LearnSource(c, s1, v, w);
    LearnAssetGood(c, s2, v, v.dstAsset, v.srcAsset, v.key.dstIP, v.key.srcIP, true, w.target);
  }

  lemma LearnAssetGood(c: Config, st: State, v: Sample, asset: string, peer: string, ip: string, peerIP: string,
                       inbound: bool, victim: AssetKey)
    requires Good(c, st) && v.at > 0
    ensures Good(c, LearnAsset(c, st, v, asset, peer, ip, peerIP, inbound, victim))
  {
    hide AssetRow, Gauge, AssetFull, FlowsPlaced, AssetsPlaced, CandidatesGood;
    var key := AssetKeyOf(v.key, asset);
    AssetRowGood(c, st.assetShards, key, v, peer, ip, peerIP, inbound, AssetFull(c, st, key), victim);
  }

  lemma ShadowGood(c: Config, st: State, v: Sample, eligible: bool, reason: string, victim: CandidateId)
    requires CandidatesGood(st.candidates) && v.at > 0
    ensures CandidatesGood(Shadow(c, st, v, eligible, reason, victim).candidates)
  {
    hide UpdateCandidate;
    var id := IdOf(v.key);
    var x := if id in st.candidates then st.candidates[id] else NewCandidate(v, eligible, reason);
    NewProfileMeasured(v.key, v.at);
    UpdatedCandidateGood(id, x, v, eligible, reason);
  }

  lemma ObservedGood(c: Config, st: State, v: Sample, w: Choice)
    requires ValidConfig(c) && Good(c, st) && v.at > 0
    ensures Good(c, Observed(c, st, v, w))
  {
    hide Learn, Shadow, OutcomeOf, ModeAt, StartedBy, FlowsPlaced, AssetsPlaced, CandidatesGood;
    var s := Scanned(c, st, v, w);
    match OutcomeOf(c, st, v)
    case Trusted => LearnGood(c, s, v, w);
    case Shadowed =>
      ShadowGood(c, s, v, true, ReviewReason(c, v.key), w.candidate);
      ShadowFrame(c, s, v, true, ReviewReason(c, v.key), w.candidate);
    case _ =>
  }

  lemma SeedGood(c: Config, st: State, key: Key, at: Time, asset: string, peer: string, inbound: bool, events: nat)
    requires Good(c, st) && at > 0
    ensures Good(c, SeedAsset(c, st, key, at, asset, peer, inbound, events))
  {
    hide PromoteAsset, Gauge, FlowsPlaced, CandidatesGood, AssetMeasured, DimensionsBounded;
    if asset != "" {
      var k := AssetKeyOf(key, asset);
      var m := Row(st.assetShards, AssetShard(c, k));
      assert k in m ==> GoodAsset(k, m[k]);
      NewAssetMeasured(k, at, at);
      PromotedAssetGood(k, if k in m then m[k] else NewAssetProfile(k, at, at), key, at, peer, inbound, events);
      hide GoodAsset;
      PlaceAsset(c, st.assetShards, k, SeedRow(m, k, key, at, peer, inbound, events));
    }
  }

  lemma PromoteGood(c: Config, st: State, id: CandidateId, now: Time)
    requires Good(c, st)
    ensures Good(c, Promote(c, st, id, now))
  {
    hide SeedAsset, Gauge, AssetsPlaced, FlowsPlaced;
    if PromoteVerdict(c, st, id) == Promoted {
      var x := st.candidates[id];
      assert GoodCandidate(id, x);
      var s0 := st.(candidates := st.candidates - {id}, promoted := st.promoted[id := now], failures := st.failures - {id});
      PlaceFlow(c, st.shards, x.key, Row(st.shards, FlowShard(c, x.key))[x.key := x.profile]);
      var s1 := TrustProfile(c, s0, x.key, x.profile);
      var events := if x.observations == 0 then 1 else x.observations;
      SeedGood(c, s1, x.key, x.lastSeen, x.srcAsset, x.dstAsset, false, events);
      var s2 := SeedAsset(c, s1, x.key, x.lastSeen, x.srcAsset, x.dstAsset, false, events);
      SeedGood(c, s2, x.key, x.lastSeen, x.dstAsset, x.srcAsset, true, events);
    }
  }

  lemma CleansedGood(c: Config, shards: seq<map<Key, Profile>>, e: Exclusion)
    requires FlowsPlaced(c, shards)
    ensures FlowsPlaced(c, CleansedAll(shards, e))
  {
    hide GoodProfile, Excludes;
  }

  lemma AssetPlaced(c: Config, shards: seq<map<AssetKey, AssetProfile>>, i: int, k: AssetKey)
    requires AssetsPlaced(c, shards) && 0 <= i < |shards| && k in shards[i]
    ensures AssetShard(c, k) == i && GoodAsset(k, shards[i][k])
  {
  }

  lemma ForgetPeersGood(c: Config, shards: seq<map<AssetKey, AssetProfile>>, a: string, b: string)
    requires AssetsPlaced(c, shards)
    ensures AssetsPlaced(c, ForgetAll(shards, a, b))
  {
    hide GoodAsset, ForgetPeer;
    var after := ForgetAll(shards, a, b);
    forall i, k | 0 <= i < |after| && k in after[i] ensures AssetShard(c, k) == i && GoodAsset(k, after[i][k]) {
      AssetPlaced(c, shards, i, k);
      ForgottenPeerGood(k, shards[i][k], a, b);
    }
  }

  lemma QuarantineGood(m: map<CandidateId, Candidate>, e: Exclusion)
    requires CandidatesGood(m)
    ensures CandidatesGood(map id | id in m :: Quarantine(m[id], e))
  {
    hide GoodProfile, Excludes;
    var after := map id | id in m :: Quarantine(m[id], e);
    forall id | id in after ensures GoodCandidate(id, after[id]) {
      assert GoodCandidate(id, m[id]);
    }
  }

  lemma ExclusionGood(c: Config, st: State, e: Exclusion, now: Time)
    requires ValidConfig(c) && Good(c, st)
    ensures Good(c, ApplyExclusion(c, st, e, now))
  {
    hide ModeAt, Deleted, DownBy, Resolve, FlowsPlaced, AssetsPlaced, CandidatesGood, CleansedAll, ForgetAll, Quarantine;
    CleansedGood(c, st.shards, e);
    var s0 := Disqualified(st, e, now);
    ForgetPeersGood(c, st.assetShards, Resolve(s0, e.sensor, e.srcIP), Resolve(s0, e.sensor, e.dstIP));
    QuarantineGood(st.candidates, e);
  }

  lemma StepGood(c: Config, st: State, e: Event)
    requires ValidConfig(c) && Good(c, st) && Legal(c, st, e)
    ensures Good(c, Step(c, st, e))
  {
    hide Observed, Promote, ApplyExclusion, CompleteVerdict, LegalChoice, FlowsPlaced, AssetsPlaced, CandidatesGood;
    match e
    case Observation(v, w) => ObservedGood(c, st, v, w);
    case PromoteCandidate(id, at) => PromoteGood(c, st, id, at);
    case ApplyLearningExclusion(x, at) => ExclusionGood(c, st, x, at);
    case ResetAll => InitialGood(c);
    case _ =>
  }

  lemma InitialGood(c: Config)
    ensures Good(c, Initial())
  {
  }

  /** Every reachable state is good: profiles are where their hash puts them and measured exactly, candidates
      have consistent evidence. */
  lemma {:induction false} AlwaysGood(c: Config, es: seq<Event>)
    requires ValidConfig(c) && LegalRun(c, Initial(), es)
    ensures Good(c, Run(c, Initial(), es))
  {
    hide Step, Legal;
    if es == [] {
      InitialGood(c);
    } else {
      AlwaysGood(c, es[..|es|-1]);
      StepGood(c, Run(c, Initial(), es[..|es|-1]), es[|es|-1]);
    }
  }

  /** The Welford identities on every profile a reachable state holds. */
  lemma ReachableProfilesAreExact(c: Config, es: seq<Event>, i: nat, k: Key)
    requires ValidConfig(c) && LegalRun(c, Initial(), es)
    requires i < |Run(c, Initial(), es).shards| && k in Run(c, Initial(), es).shards[i]
    ensures var p := Run(c, Initial(), es).shards[i][k];
            && p.packetBytes.count == p.packets
            && (p.packets > 0 ==> p.packets as real * p.packetBytes.mean == p.bytes as real)
  {
    hide Run, LegalRun, Measured;
    AlwaysGood(c, es);
    var st := Run(c, Initial(), es);
    assert FlowShard(c, k) == i && GoodProfile(k, st.shards[i][k]);
    MeasuredAgrees(st.shards[i][k]);
  }

  /** And on every reachable asset profile: the statistics count the packets of both directions, their mean times
      that count is the bytes of both, and the capped dimensions hold at most 256 entries each. */
  lemma ReachableAssetsAreExact(c: Config, es: seq<Event>, i: nat, k: AssetKey)
    requires ValidConfig(c) && LegalRun(c, Initial(), es)
    requires i < |Run(c, Initial(), es).assetShards| && k in Run(c, Initial(), es).assetShards[i]
    ensures var p := Run(c, Initial(), es).assetShards[i][k];
            var packets, bytes := p.inbound.packets + p.outbound.packets, p.inbound.bytes + p.outbound.bytes;
            && p.packetBytes.count == packets
            && (packets > 0 ==> packets as real * p.packetBytes.mean == bytes as real)
            && |p.operations| <= MAX_DIMENSIONS && |p.ips| <= MAX_DIMENSIONS
  {
    hide Run, LegalRun, AssetMeasured;
    AlwaysGood(c, es);
    var st := Run(c, Initial(), es);
    assert AssetsPlaced(c, st.assetShards);
    AssetPlaced(c, st.assetShards, i, k);
    AssetMeasuredAgrees(st.assetShards[i][k]);
  }

  lemma AssetMeasuredAgrees(p: AssetProfile)
    requires AssetMeasured(p)
    ensures var packets, bytes := p.inbound.packets + p.outbound.packets, p.inbound.bytes + p.outbound.bytes;
            p.packetBytes.count == packets && (packets > 0 ==> packets as real * p.packetBytes.mean == bytes as real)
  {
    hide After, Sum, SquaredDeviations;
    var sizes :| AssetMeasuredBy(p, sizes);
    var packets, bytes := p.inbound.packets + p.outbound.packets, p.inbound.bytes + p.outbound.bytes;
    CountIsExact(sizes);
    if packets > 0 { MeanTimesCount(sizes, packets, p.packetBytes.mean, bytes as real); }
  }

  // ---------- The promotion gate ----------

  predicate IsReady(c: Config, st: State, id: CandidateId) {
    id in st.candidates && ReadyForPromotion(c, st.candidates[id])
  }

  lemma ReadyMeansPromotable(c: Config, st: State, id: CandidateId)
    requires Good(c, st)
    ensures IsReady(c, st, id) <==> PromoteVerdict(c, st, id) == Promoted
  {
    hide GoodProfile;
    if id in st.candidates { assert GoodCandidate(id, st.candidates[id]); }
  }

  /** On every reachable state a candidate is reported ready exactly when promoting it would succeed; the report
      counts the day set, the promotion trusts the stored number of days. */
  lemma ReadyExactlyWhenPromotable(c: Config, es: seq<Event>, id: CandidateId)
    requires ValidConfig(c) && LegalRun(c, Initial(), es)
    ensures IsReady(c, Run(c, Initial(), es), id) <==> PromoteVerdict(c, Run(c, Initial(), es), id) == Promoted
  {
    hide Run, LegalRun;
    AlwaysGood(c, es);
    ReadyMeansPromotable(c, Run(c, Initial(), es), id);
  }

  lemma UpdateKeepsReadiness(c: Config, x: Candidate, v: Sample, reason: string)
    requires ReadyForPromotion(c, x)
    ensures ReadyForPromotion(c, UpdateCandidate(x, v, true, reason))
  {
    hide UpdateProfile;
    var days := x.days + {DayOf(v.at)};
    assert |x.days| <= |days| by { assert days == x.days + (days - x.days); }
  }

  lemma ShadowKeepsReadiness(c: Config, st: State, v: Sample, reason: string, victim: CandidateId, id: CandidateId)
    requires IsReady(c, st, id)
    ensures IsReady(c, Shadow(c, st, v, true, reason, victim), id) <==> !(id == victim && CandidatesFull(c, st, v.key))
  {
    hide UpdateCandidate, NewCandidate, ReadyForPromotion;
    UpdateKeepsReadiness(c, st.candidates[id], v, reason);
  }

  lemma ObservationKeepsReadiness(c: Config, st: State, v: Sample, w: Choice, id: CandidateId)
    requires ValidConfig(c) && IsReady(c, st, id)
    ensures IsReady(c, Observed(c, st, v, w), id) <==>
              !(id == w.candidate && CandidatesFull(c, st, v.key) && OutcomeOf(c, st, v) == Shadowed)
  {
    hide Learn, Shadow, OutcomeOf, ModeAt, StartedBy, ReadyForPromotion, Quarantined, HasTrusted;
    var s := Scanned(c, st, v, w);
    match OutcomeOf(c, st, v)
    case Trusted => LearnFrame(c, s, v, w);
    case Shadowed => ShadowKeepsReadiness(c, s, v, ReviewReason(c, v.key), w.candidate, id);
    case _ =>
  }

  lemma PromotionKeepsReadiness(c: Config, st: State, other: CandidateId, now: Time, id: CandidateId)
    requires Good(c, st) && IsReady(c, st, id)
    ensures IsReady(c, Promote(c, st, other, now), id) <==> other != id
  {
    hide ReadyForPromotion, Good;
    ReadyMeansPromotable(c, st, id);
    if PromoteVerdict(c, st, other) == Promoted { PromoteFrame(c, st, other, now); }
    hide PromoteVerdict;
  }

  lemma ExclusionKeepsReadiness(c: Config, st: State, x: Exclusion, now: Time, id: CandidateId)
    requires ValidConfig(c) && IsReady(c, st, id)
    ensures IsReady(c, ApplyExclusion(c, st, x, now), id) <==> !Excludes(x, st.candidates[id].key)
  {
    hide ModeAt, Excludes, CleansedAll, ForgetAll, Deleted, DownBy, Resolve;
    var after := ApplyExclusion(c, st, x, now).candidates;
    assert after == map j | j in st.candidates :: Quarantine(st.candidates[j], x);
    assert after[id] == Quarantine(st.candidates[id], x);
  }

  /** The operation leaves a ready candidate alone: it does not evict it from a full store, promote it, exclude
      its flow or reset the engine. */
  ghost predicate Spares(c: Config, st: State, e: Event, id: CandidateId)
    requires ValidConfig(c)
  {
    match e
    case Observation(v, w) => !(id == w.candidate && CandidatesFull(c, st, v.key) && OutcomeOf(c, st, v) == Shadowed)
    case PromoteCandidate(other, _) => other != id
    case ApplyLearningExclusion(x, _) => id in st.candidates ==> !Excludes(x, st.candidates[id].key)
    case ResetAll => false
    case _ => true
  }

  lemma StepKeepsReadiness(c: Config, st: State, e: Event, id: CandidateId)
    requires ValidConfig(c) && Good(c, st) && IsReady(c, st, id)
    ensures IsReady(c, Step(c, st, e), id) <==> Spares(c, st, e, id)
  {
    hide Good, Observed, Promote, ApplyExclusion, CompleteVerdict, OutcomeOf, ReadyForPromotion, CandidatesFull, Excludes;
    match e
    case Observation(v, w) => ObservationKeepsReadiness(c, st, v, w, id);
    case PromoteCandidate(other, at) => PromotionKeepsReadiness(c, st, other, at, id);
    case ApplyLearningExclusion(x, at) => ExclusionKeepsReadiness(c, st, x, at, id);
    case _ =>
  }

  ghost predicate AllSpare(c: Config, st: State, es: seq<Event>, id: CandidateId)
    requires ValidConfig(c)
  {
    forall i :: 0 <= i < |es| ==> Spares(c, Run(c, st, es[..i]), es[i], id)
  }

  ghost predicate AlwaysReady(c: Config, st: State, es: seq<Event>, id: CandidateId)
    requires ValidConfig(c)
  {
    forall i :: 0 <= i <= |es| ==> IsReady(c, Run(c, st, es[..i]), id)
  }

  lemma ReadyPrefix(c: Config, st: State, es: seq<Event>, id: CandidateId)
    requires ValidConfig(c) && es != []
    ensures AllSpare(c, st, es, id) <==>
              AllSpare(c, st, es[..|es|-1], id) && Spares(c, Run(c, st, es[..|es|-1]), es[|es|-1], id)
    ensures AlwaysReady(c, st, es, id) <==> AlwaysReady(c, st, es[..|es|-1], id) && IsReady(c, Run(c, st, es), id)
  {
    hide Spares, IsReady, Run;
    var init := es[..|es|-1];
    assert es[..|es|] == es;
    forall i | 0 <= i <= |init| ensures init[..i] == es[..i] {}
    forall i | 0 <= i < |init| ensures init[i] == es[i] {}
  }

  /** A ready candidate stays ready throughout a run exactly if every operation of the run spares it. */
  lemma {:induction false} ReadinessSurvives(c: Config, st: State, es: seq<Event>, id: CandidateId)
    requires ValidConfig(c) && Good(c, st) && LegalRun(c, st, es) && IsReady(c, st, id)
    ensures Good(c, Run(c, st, es))
    ensures AlwaysReady(c, st, es, id) <==> AllSpare(c, st, es, id)
  {
    hide Good, Step, Legal, Spares, IsReady, AllSpare, AlwaysReady;
    if es == [] {
      NothingHappened(c, st, id);
    } else {
      var init, mid := es[..|es|-1], Run(c, st, es[..|es|-1]);
      ReadinessSurvives(c, st, init, id);
      StepGood(c, mid, es[|es|-1]);
      ReadyPrefix(c, st, es, id);
      if AlwaysReady(c, st, init, id) {
        ReadyAtTheEnd(c, st, init, id);
        StepKeepsReadiness(c, mid, es[|es|-1], id);
      }
    }
  }

  lemma NothingHappened(c: Config, st: State, id: CandidateId)
    requires ValidConfig(c) && IsReady(c, st, id)
    ensures AllSpare(c, st, [], id) && AlwaysReady(c, st, [], id)
  {
    forall i | 0 <= i <= 0 ensures IsReady(c, Run(c, st, [][..i]), id) {}
  }

  lemma ReadyAtTheEnd(c: Config, st: State, es: seq<Event>, id: CandidateId)
    requires ValidConfig(c) && AlwaysReady(c, st, es, id)
    ensures IsReady(c, Run(c, st, es), id)
  {
    hide IsReady, Run;
    assert es[..|es|] == es;
  }

  // ---------- Who owns an address ----------

  /** The identity last remembered for an address since the last reset, blank if none. */
  function LatestIdentity(es: seq<Event>, sensor: string, ip: string): string {
    if es == [] || es[|es|-1].ResetAll? then ""
    else if Names(es[|es|-1], sensor, ip) then
      (if es[|es|-1].mac != "" then "mac:" + es[|es|-1].mac else "ip:" + ip)
    else LatestIdentity(es[..|es|-1], sensor, ip)
  }

  lemma IdentitiesStay(c: Config, st: State, e: Event)
    requires ValidConfig(c) && !e.RememberIdentity? && !e.ResetAll?
    ensures Step(c, st, e).identities == st.identities
  {
    hide Observed, Promote, PromoteVerdict, ApplyExclusion, CompleteVerdict;
    match e
    case Observation(v, w) => ObservationKeepsRecords(c, st, v, w);
    case PromoteCandidate(id, at) =>
      if PromoteVerdict(c, st, id) == Promoted { PromoteFrame(c, st, id, at); } else { UnpromotedStays(c, st, id, at); }
    case ApplyLearningExclusion(x, at) => ExclusionFrame(c, st, x, at);
    case _ =>
  }

  lemma ObservationKeepsRecords(c: Config, st: State, v: Sample, w: Choice)
    requires ValidConfig(c)
    ensures Observed(c, st, v, w).identities == st.identities && Observed(c, st, v, w).failures == st.failures
    ensures Observed(c, st, v, w).promoted == st.promoted
  {
    hide Learn, LearnFlow, Observed, OutcomeOf, ModeAt;
    if OutcomeOf(c, st, v) == Trusted {
      LearnFrame(c, Scanned(c, st, v, w), v, w);
      assert Observed(c, st, v, w) == Learn(c, Scanned(c, st, v, w), v, w) by { TrustedLearns(c, st, v, w); }
    } else {
      UntrustedObservation(c, st, v, w);
    }
  }

  lemma TrustedLearns(c: Config, st: State, v: Sample, w: Choice)
    requires ValidConfig(c) && OutcomeOf(c, st, v) == Trusted
    ensures Observed(c, st, v, w) == Learn(c, Scanned(c, st, v, w), v, w)
  {
    hide Learn, OutcomeOf, ModeAt;
  }

  /** On every reachable state an address belongs to the identity last remembered for it since the last reset, and
      to itself if there is none: no observation, promotion or exclusion in between makes a difference. */
  lemma {:induction false} AddressBelongsToLatest(c: Config, es: seq<Event>, sensor: string, ip: string)
    requires ValidConfig(c)
    ensures Resolve(Run(c, Initial(), es), sensor, ip)
         == if LatestIdentity(es, sensor, ip) != "" then LatestIdentity(es, sensor, ip) else "ip:" + ip
  {
    hide Step, LegalRun, Resolve;
    if es == [] {
      NoIdentities(sensor, ip);
    } else {
      var before, e := Run(c, Initial(), es[..|es|-1]), es[|es|-1];
      AddressBelongsToLatest(c, es[..|es|-1], sensor, ip);
      StepResolves(c, before, e, sensor, ip);
    }
  }

  lemma NoIdentities(sensor: string, ip: string)
    ensures Resolve(Initial(), sensor, ip) == "ip:" + ip
  {
  }

  predicate Names(e: Event, sensor: string, ip: string) {
    e.RememberIdentity? && ip != "" && e.sensor == sensor && e.ip == ip
  }

  lemma StepResolves(c: Config, st: State, e: Event, sensor: string, ip: string)
    requires ValidConfig(c)
    ensures Resolve(Step(c, st, e), sensor, ip)
         == if e.ResetAll? || (Names(e, sensor, ip) && e.mac == "") then "ip:" + ip
            else if Names(e, sensor, ip) then "mac:" + e.mac
            else Resolve(st, sensor, ip)
  {
    hide Observed, Promote, ApplyExclusion, CompleteVerdict;
    if !e.RememberIdentity? && !e.ResetAll? { IdentitiesStay(c, st, e); }
  }

  // ---------- Failed promotions ----------

  predicate Listed(st: State, f: Failure) { f.id in st.failures && st.failures[f.id] == f }

  /** The operation takes the failure off the list: the promotion succeeds after all, another failure replaces it,
      a status finds it older than the retention window, or the engine is reset. */
  predicate Clears(c: Config, st: State, e: Event, f: Failure) {
    match e
    case PromoteCandidate(id, _) => id == f.id && PromoteVerdict(c, st, id) == Promoted
    case RecordPromotionFailure(id, error, at) => id == f.id && Failure(id, error, at) != f
    case ReportStatus(at) => f.at < at - RETENTION
    case ResetAll => true
    case _ => false
  }

  lemma StepKeepsFailure(c: Config, st: State, e: Event, f: Failure)
    requires ValidConfig(c) && Listed(st, f)
    ensures Listed(Step(c, st, e), f) <==> !Clears(c, st, e, f)
  {
    hide Observed, Promote, PromoteVerdict, ApplyExclusion, CompleteVerdict;
    match e
    case Observation(v, w) => ObservationKeepsRecords(c, st, v, w);
    case PromoteCandidate(id, at) =>
      if PromoteVerdict(c, st, id) == Promoted { PromoteFrame(c, st, id, at); } else { UnpromotedStays(c, st, id, at); }
    case ApplyLearningExclusion(x, at) => ExclusionFrame(c, st, x, at);
    case _ =>
  }

  ghost predicate ListedAt(c: Config, st: State, es: seq<Event>, i: nat, f: Failure)
    requires ValidConfig(c) && i <= |es|
  { Listed(Run(c, st, es[..i]), f) }

  ghost predicate ClearsAt(c: Config, st: State, es: seq<Event>, i: nat, f: Failure)
    requires ValidConfig(c) && i < |es|
  { Clears(c, Run(c, st, es[..i]), es[i], f) }

  lemma NextKeepsFailure(c: Config, st: State, es: seq<Event>, i: nat, f: Failure)
    requires ValidConfig(c) && i < |es| && ListedAt(c, st, es, i, f)
    ensures ListedAt(c, st, es, i + 1, f) <==> !ClearsAt(c, st, es, i, f)
  {
    hide Step, Clears, Listed;
    assert es[..i+1][..i] == es[..i] && es[..i+1][i] == es[i];
    StepKeepsFailure(c, Run(c, st, es[..i]), es[i], f);
  }

  lemma {:induction false} ListedThroughout(c: Config, st: State, es: seq<Event>, n: nat, f: Failure)
    requires ValidConfig(c) && n <= |es| && Listed(st, f)
    ensures (forall i :: 0 <= i <= n ==> ListedAt(c, st, es, i, f)) <==> (forall i :: 0 <= i < n ==> !ClearsAt(c, st, es, i, f))
  {
    hide ListedAt, ClearsAt, Listed;
    if n == 0 {
      ListedAtStart(c, st, es, f);
    } else {
      ListedThroughout(c, st, es, n - 1, f);
      if ListedAt(c, st, es, n - 1, f) { NextKeepsFailure(c, st, es, n - 1, f); }
    }
  }

  lemma ListedAtStart(c: Config, st: State, es: seq<Event>, f: Failure)
    requires ValidConfig(c) && Listed(st, f)
    ensures ListedAt(c, st, es, 0, f)
  {
    assert es[..0] == [];
  }

  /** A recorded failure is on the list of every status over a run exactly if no operation of it clears it. */
  lemma FailureStaysListed(c: Config, st: State, id: CandidateId, error: PromoteResult, now: Time, es: seq<Event>)
    requires ValidConfig(c)
    ensures var s, f := RecordFailure(st, id, error, now), Failure(id, error, now);
            (forall i :: 0 <= i <= |es| ==> ListedAt(c, s, es, i, f)) <==> (forall i :: 0 <= i < |es| ==> !ClearsAt(c, s, es, i, f))
  {
    hide ListedAt, ClearsAt;
    ListedThroughout(c, RecordFailure(st, id, error, now), es, |es|, Failure(id, error, now));
  }
}
