/** What each engine operation leaves alone. */
module BaselineFrames {
  import opened BaselineModel
  import opened BaselineSpec

  lemma ShadowFrame(c: Config, st: State, v: Sample, eligible: bool, reason: string, victim: CandidateId)
    ensures Shadow(c, st, v, eligible, reason, victim)
         == st.(candidates := Shadow(c, st, v, eligible, reason, victim).candidates)
  {
    hide UpdateCandidate, NewCandidate;
  }

  /** Only learning touches the trusted side. */
  lemma UntrustedObservation(c: Config, st: State, v: Sample, w: Choice)
    requires ValidConfig(c) && OutcomeOf(c, st, v) != Trusted
    ensures var s := Observed(c, st, v, w);
            s == st.(started := StartedBy(st, v.at).started, observed := st.observed + 1, exclusions := s.exclusions,
                     candidates := s.candidates, dropped := s.dropped, excluded := s.excluded)
  {
    hide Shadow, OutcomeOf, ModeAt, StartedBy, ReviewReason;
    ShadowFrame(c, Scanned(c, st, v, w), v, true, ReviewReason(c, v.key), w.candidate);
  }

  lemma LearnFlowFrame(c: Config, st: State, v: Sample, victim: Key)
    ensures var s := LearnFlow(c, st, v, victim);
            s == st.(shards := s.shards, profiles := s.profiles, evicted := s.evicted, patterns := s.patterns)
  {
    hide FlowRow, SetRow, Gauge, Remembered;
  }

  lemma LearnAssetFrame(c: Config, st: State, v: Sample, asset: string, peer: string, ip: string, peerIP: string,
                        inbound: bool, victim: AssetKey)
    ensures var s := LearnAsset(c, st, v, asset, peer, ip, peerIP, inbound, victim);
            s == st.(assetShards := s.assetShards, assetProfiles := s.assetProfiles, evicted := s.evicted)
  {
    hide AssetRow, SetRow, Gauge;
  }

  lemma LearningAssetsFrame(c: Config, st: State, v: Sample, w: Choice)
    ensures var s := LearnTarget(c, LearnSource(c, st, v, w), v, w);
            s == st.(assetShards := s.assetShards, assetProfiles := s.assetProfiles, evicted := s.evicted)
  {
    hide LearnAsset;
    LearnAssetFrame(c, st, v, v.srcAsset, v.dstAsset, v.key.srcIP, v.key.dstIP, false, w.source);
    LearnAssetFrame(c, LearnSource(c, st, v, w), v, v.dstAsset, v.srcAsset, v.key.dstIP, v.key.srcIP, true, w.target);
  }

  lemma LearnFrame(c: Config, st: State, v: Sample, w: Choice)
    ensures var s, f := Learn(c, st, v, w), LearnFlow(c, st, v, w.flow);
            s == st.(shards := f.shards, profiles := f.profiles, patterns := f.patterns,
                     assetShards := s.assetShards, assetProfiles := s.assetProfiles, evicted := s.evicted,
                     revision := st.revision + 1)
  {
    hide LearnSource, LearnTarget, LearnFlow;
    LearnFlowFrame(c, st, v, w.flow);
    LearningAssetsFrame(c, LearnFlow(c, st, v, w.flow), v, w);
  }

  lemma SeedAssetFrame(c: Config, st: State, key: Key, at: Time, asset: string, peer: string, inbound: bool, events: nat)
    ensures var s := SeedAsset(c, st, key, at, asset, peer, inbound, events);
            s == st.(assetShards := s.assetShards, assetProfiles := s.assetProfiles)
  {
    hide SeedRow, SetRow, Gauge;
  }

  lemma UnpromotedStays(c: Config, st: State, id: CandidateId, now: Time)
    requires PromoteVerdict(c, st, id) != Promoted
    ensures Promote(c, st, id, now) == st
  {
  }

  lemma PromoteFrame(c: Config, st: State, id: CandidateId, now: Time)
    requires PromoteVerdict(c, st, id) == Promoted
    ensures var s, x := Promote(c, st, id, now), st.candidates[id];
            var i := FlowShard(c, x.key);
            s == st.(candidates := st.candidates - {id}, promoted := st.promoted[id := now], failures := st.failures - {id},
                     shards := SetRow(st.shards, i, Row(st.shards, i)[x.key := x.profile]),
                     profiles := Gauge(st.profiles, x.key !in Row(st.shards, i), false),
                     assetShards := s.assetShards, assetProfiles := s.assetProfiles, revision := st.revision + 1)
  {
    hide SeedAsset, SetRow, Row, Gauge;
    var x := st.candidates[id];
    var s0 := st.(candidates := st.candidates - {id}, promoted := st.promoted[id := now], failures := st.failures - {id});
    var s1 := TrustProfile(c, s0, x.key, x.profile);
    var events := if x.observations == 0 then 1 else x.observations;
    SeedAssetFrame(c, s1, x.key, x.lastSeen, x.srcAsset, x.dstAsset, false, events);
    SeedAssetFrame(c, SeedAsset(c, s1, x.key, x.lastSeen, x.srcAsset, x.dstAsset, false, events),
                   x.key, x.lastSeen, x.dstAsset, x.srcAsset, true, events);
  }

  lemma ExclusionFrame(c: Config, st: State, e: Exclusion, now: Time)
    requires ValidConfig(c)
    ensures var s := ApplyExclusion(c, st, e, now);
            && s == st.(exclusions := st.exclusions[KeyOf(e) := ExclusionEnd(e, now)], candidates := s.candidates,
                        shards := s.shards, assetShards := s.assetShards, profiles := s.profiles, revision := s.revision)
            && s.candidates == map id | id in st.candidates :: Quarantine(st.candidates[id], e)
  {
    hide ModeAt, Cleansed, ForgetPeers, Deleted, Resolve, DownBy, Quarantine;
  }

  /** The mode depends only on the clock, the asset table and the novelty history. */
  lemma SameModeWithoutTables(c: Config, a: State, b: State, t: int)
    requires ValidConfig(c)
    requires a.started == b.started && a.complete == b.complete && a.assetShards == b.assetShards && a.patterns == b.patterns
    ensures ModeAt(c, a, t) == ModeAt(c, b, t)
  {
    assert MatureIds(c, a, t) == MatureIds(c, b, t);
    assert Novelty(c, a, t) == Novelty(c, b, t);
    assert Readiness(c, a, t) == Readiness(c, b, t);
  }
}
