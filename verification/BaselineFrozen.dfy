/** Once learning is over, observation never touches the trusted baseline. */
module BaselineFrozen {
  import opened Permutations
  import opened BaselineModel
  import opened BaselineSpec
  import opened BaselineFrames

  // ---------- For a fixed state, readiness rises and novelty falls with time ----------

  lemma {:induction false} RecentFalls(patterns: seq<Time>, cut: int, cut': int)
    requires cut <= cut'
    ensures Recent(patterns, cut') <= Recent(patterns, cut)
  {
    if patterns != [] { RecentFalls(patterns[..|patterns|-1], cut, cut'); }
  }

  lemma Quotients(a: real, b: real, d: real)
    requires a <= b && d > 0.0
    ensures a / d <= b / d
  {
    assert b / d - a / d == (b - a) / d;
    assert (b - a) / d >= 0.0;
  }

  lemma NoveltyFalls(c: Config, st: State, t: int, t': int)
    requires t <= t'
    ensures Novelty(c, st, t') <= Novelty(c, st, t)
  {
    if st.patterns != [] {
      RecentFalls(st.patterns, t - NoveltyWindow(c), t' - NoveltyWindow(c));
      Quotients(Recent(st.patterns, t' - NoveltyWindow(c)) as real, Recent(st.patterns, t - NoveltyWindow(c)) as real,
                |st.patterns| as real);
    }
  }

  lemma MaturityRises(c: Config, st: State, t: int, t': int)
    requires t <= t'
    ensures Maturity(c, st, t) <= Maturity(c, st, t')
  {
    var a, b, all := MatureIds(c, st, t), MatureIds(c, st, t'), AssetIds(st.assetShards);
    forall id | id in a ensures id in b {
      var i, k :| 0 <= i < |st.assetShards| && k in st.assetShards[i] && Counts(st.assetShards[i][k], id)
               && t - st.assetShards[i][k].firstSeen >= c.minAssetAge;
      assert t' - st.assetShards[i][k].firstSeen >= c.minAssetAge;
    }
    SubsetSize(a, b);
    if |all| > 0 { Quotients(|a| as real, |b| as real, |all| as real); }
  }

  lemma ScoreRises(d: real, d': real, m: real, m': real, g: real, n: real, n': real)
    requires d <= d' && m <= m' && n' <= n
    ensures Score(d, m, g, n) <= Score(d', m', g, n')
  {
    Quotients(n', n, 0.05);
  }

  lemma ReadinessRises(c: Config, st: State, t: int, t': int)
    requires ValidConfig(c) && t <= t'
    ensures Readiness(c, st, t) <= Readiness(c, st, t')
    ensures Ready(c, st, t) ==> Ready(c, st, t')
  {
    hide Score, Maturity, Novelty, TimeCoverage;
    NoveltyFalls(c, st, t, t');
    MaturityRises(c, st, t, t');
    if st.started != 0 {
      var ld := c.learningDuration as real;
      Quotients((t - st.started) as real, (t' - st.started) as real, ld);
      ScoreRises(AtMostOne((t - st.started) as real / ld), AtMostOne((t' - st.started) as real / ld),
                 Maturity(c, st, t), Maturity(c, st, t'), TimeCoverage(c, st), Novelty(c, st, t), Novelty(c, st, t'));
    }
  }

  /** Monitoring never reverts as time goes on. */
  lemma ModeIsMonotone(c: Config, st: State, t: int, t': int)
    requires ValidConfig(c) && t <= t' && ModeAt(c, st, t) == Monitoring
    ensures ModeAt(c, st, t') == Monitoring
  {
    ReadinessRises(c, st, t, t');
  }

  // ---------- Steps that leave the trusted baseline alone ----------

  /** The trusted flow and asset profiles, their gauges and the novelty history agree. */
  predicate SameBaseline(a: State, b: State) {
    && a.shards == b.shards && a.assetShards == b.assetShards && a.patterns == b.patterns
    && a.profiles == b.profiles && a.assetProfiles == b.assetProfiles
  }

  /** `b` is in monitoring whenever `a` is. */
  predicate SameClock(a: State, b: State) {
    b.complete || (a.complete == b.complete && a.started == b.started)
  }

  lemma ModeFromBaseline(c: Config, a: State, b: State, t: int)
    requires ValidConfig(c) && SameBaseline(a, b) && SameClock(a, b) && ModeAt(c, a, t) == Monitoring
    ensures ModeAt(c, b, t) == Monitoring
  {
    if !b.complete {
      assert MatureIds(c, a, t) == MatureIds(c, b, t);
      assert Novelty(c, a, t) == Novelty(c, b, t);
      assert Readiness(c, a, t) == Readiness(c, b, t);
    }
  }

  /** Every engine operation except promotion and reset. */
  predicate Passive(e: Event) { !e.PromoteCandidate? && !e.ResetAll? }

  function TimeOf(e: Event): Time {
    match e
    case Observation(v, _) => v.at
    case PromoteCandidate(_, at) => at
    case RecordPromotionFailure(_, _, at) => at
    case ApplyLearningExclusion(_, at) => at
    case Complete(_, at) => at
    case ReportStatus(at) => at
    case _ => 0
  }

  predicate Timed(e: Event) { e.Observation? || e.ApplyLearningExclusion? }

  lemma MonitoringStarted(c: Config, st: State, at: Time)
    requires ValidConfig(c) && ModeAt(c, st, at) == Monitoring
    ensures st.complete || st.started != 0
    ensures ModeAt(c, StartedBy(st, at), at) == Monitoring
  {
  }

  lemma MonitoringObservationIsFrozen(c: Config, st: State, v: Sample, w: Choice)
    requires ValidConfig(c) && ModeAt(c, st, v.at) == Monitoring
    ensures SameBaseline(st, Observed(c, st, v, w)) && SameClock(st, Observed(c, st, v, w))
  {
    hide Observed, Readiness, Ready, HasTrusted, Quarantined;
    MonitoringStarted(c, st, v.at);
    UntrustedObservation(c, st, v, w);
  }

  lemma MonitoringExclusionIsFrozen(c: Config, st: State, x: Exclusion, at: Time)
    requires ValidConfig(c) && ModeAt(c, st, at) == Monitoring
    ensures SameBaseline(st, ApplyExclusion(c, st, x, at)) && SameClock(st, ApplyExclusion(c, st, x, at))
  {
    hide ForgetPeers, Cleansed, Deleted, Resolve;
    var s0 := st.(exclusions := st.exclusions[KeyOf(x) := ExclusionEnd(x, at)],
                  candidates := map id | id in st.candidates :: Quarantine(st.candidates[id], x));
    ModeFromBaseline(c, st, s0, at);
  }

  lemma MonitoringStepIsFrozen(c: Config, st: State, e: Event)
    requires ValidConfig(c) && Passive(e)
    requires Timed(e) ==> ModeAt(c, st, TimeOf(e)) == Monitoring
    ensures SameBaseline(st, Step(c, st, e)) && SameClock(st, Step(c, st, e))
  {
    hide ModeAt, Observed, ApplyExclusion;
    match e
    case Observation(v, w) => MonitoringObservationIsFrozen(c, st, v, w);
    case ApplyLearningExclusion(x, at) => MonitoringExclusionIsFrozen(c, st, x, at);
    case _ =>
  }

  /** No observation and no exclusion is stamped before `from`; otherwise they come in any order. */
  predicate NoneBefore(from: Time, es: seq<Event>) {
    forall i :: 0 <= i < |es| && Timed(es[i]) ==> from <= TimeOf(es[i])
  }

  ghost predicate AllPassive(es: seq<Event>) { forall i :: 0 <= i < |es| ==> Passive(es[i]) }

  lemma SameBaselineTransitive(a: State, b: State, d: State)
    requires SameBaseline(a, b) && SameClock(a, b) && SameBaseline(b, d) && SameClock(b, d)
    ensures SameBaseline(a, d) && SameClock(a, d)
  {
  }

  /** From an instant of monitoring on, any run of operations short of promotion and reset, none of them stamped
      before that instant but otherwise in any order, leaves every trusted profile as it was and stays in
      monitoring. */
  lemma {:induction false} BaselineStaysFrozen(c: Config, st: State, es: seq<Event>, from: Time)
    requires ValidConfig(c) && ModeAt(c, st, from) == Monitoring
    requires AllPassive(es) && NoneBefore(from, es)
    ensures SameBaseline(st, Run(c, st, es)) && SameClock(st, Run(c, st, es))
    ensures forall t :: t >= from ==> ModeAt(c, Run(c, st, es), t) == Monitoring
  {
    hide ModeAt, Step;
    if es == [] {
      forall t | t >= from ensures ModeAt(c, st, t) == Monitoring { ModeIsMonotone(c, st, from, t); }
    } else {
      var init, e := es[..|es|-1], es[|es|-1];
      BaselineStaysFrozen(c, st, init, from);
      var mid := Run(c, st, init);
      assert Passive(e) && (Timed(e) ==> from <= TimeOf(e));
      MonitoringStepIsFrozen(c, mid, e);
      SameBaselineTransitive(st, mid, Step(c, mid, e));
      forall t | t >= from ensures ModeAt(c, Step(c, mid, e), t) == Monitoring {
        ModeFromBaseline(c, mid, Step(c, mid, e), t);
      }
    }
  }

  /** After an explicit completion the order of timestamps no longer matters. */
  lemma {:induction false} CompletedStaysFrozen(c: Config, st: State, es: seq<Event>)
    requires ValidConfig(c) && st.complete && AllPassive(es)
    ensures SameBaseline(st, Run(c, st, es)) && Run(c, st, es).complete
  {
    if es != [] {
      var init, e := es[..|es|-1], es[|es|-1];
      CompletedStaysFrozen(c, st, init);
      assert Passive(e);
      MonitoringStepIsFrozen(c, Run(c, st, init), e);
    }
  }

  /** Without it, a packet stamped inside the learning window is learned however long monitoring has lasted. A flow
      that no stored exclusion covers and no review concerns is therefore safe from every timestamp exactly when
      learning was completed explicitly. */
  lemma FrozenInAnyOrderExactly(c: Config, st: State, v: Sample)
    requires ValidConfig(c) && !ReviewOnly(c, v.key)
    requires forall x :: x in st.exclusions ==> !StoredExcludes(x, v.key)
    ensures (forall at: Time :: at > 0 ==> OutcomeOf(c, st, v.(at := at)) != Trusted) <==> st.complete
  {
    hide StoredExcludes, HasTrusted;
    var late := v.(at := if st.started != 0 then st.started else 1);
    if !st.complete {
      assert ModeAt(c, StartedBy(st, late.at), late.at) == Learning;
      assert !Quarantined(StartedBy(st, late.at), late.key, late.at);
      assert OutcomeOf(c, st, late) == Trusted;
    }
  }

  lemma FlowRowStores(m: map<Key, Profile>, v: Sample, full: bool, victim: Key)
    ensures var row := FlowRow(m, v, full, victim); v.key in row && row[v.key].lastSeen == v.at
  {
    hide UpdateProfile;
  }

  lemma LearnFlowStores(c: Config, st: State, v: Sample, victim: Key)
    requires |st.shards| == SHARDS
    ensures var row := Row(LearnFlow(c, st, v, victim).shards, FlowShard(c, v.key));
            v.key in row && row[v.key].lastSeen == v.at
    ensures LearnFlow(c, st, v, victim).revision == st.revision
  {
    hide FlowRow, Gauge, Remembered;
    FlowRowStores(Row(st.shards, FlowShard(c, v.key)), v, FlowFull(c, st, v.key), victim);
  }

  /** What "learned" means there: the flow's trusted profile takes the late timestamp. */
  lemma TrustedOutcomeChangesProfile(c: Config, st: State, v: Sample, w: Choice)
    requires ValidConfig(c) && |st.shards| == SHARDS && OutcomeOf(c, st, v) == Trusted
    ensures var row := Row(Observed(c, st, v, w).shards, FlowShard(c, v.key));
            v.key in row && row[v.key].lastSeen == v.at
    ensures Observed(c, st, v, w).revision == st.revision + 1
  {
    hide Learn, LearnFlow, OutcomeOf, ModeAt;
    LearnFrame(c, Scanned(c, st, v, w), v, w);
    LearnFlowStores(c, Scanned(c, st, v, w), v, w.flow);
  }
}
