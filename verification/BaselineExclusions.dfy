/** How far a learning exclusion keeps a flow out of the trusted baseline. */
module BaselineExclusions {
  import opened BaselineModel
  import opened BaselineSpec
  import opened BaselineFrames

  // ---------- Which flows a stored exclusion still covers ----------

  lemma LowerIsIdempotent(s: string)
    ensures Lower(Lower(s)) == Lower(s)
  {
  }

  predicate LowerCase(s: string) { Lower(s) == s }

  /** Exclusions are stored under lower-cased fields but compared case-sensitively on the sensor and the
      addresses, so a stored exclusion covers a flow it was meant for exactly when those are lower case. */
  lemma StoredExclusionCoversExactly(e: Exclusion, key: Key)
    requires Excludes(e, key)
    ensures StoredExcludes(KeyOf(e), key)
       <==> (e.sensor == "" || LowerCase(e.sensor)) && LowerCase(e.srcIP) && LowerCase(e.dstIP)
  {
    LowerIsIdempotent(e.protocol);
    LowerIsIdempotent(e.srcIP);
    LowerIsIdempotent(e.dstIP);
  }

  predicate WellCased(e: Exclusion) {
    (e.sensor == "" || LowerCase(e.sensor)) && LowerCase(e.srcIP) && LowerCase(e.dstIP)
  }

  // ---------- Learning keeps excluded flows out ----------

  /** The exclusion is on record until `end` and no trusted flow profile matches it. */
  ghost predicate KeptOut(st: State, e: Exclusion, end: Time) {
    && KeyOf(e) in st.exclusions && (st.exclusions[KeyOf(e)] == 0 || st.exclusions[KeyOf(e)] >= end)
    && forall i, k :: 0 <= i < |st.shards| && k in st.shards[i] ==> !Excludes(e, k)
  }

  lemma ExclusionCleansLearning(c: Config, st: State, e: Exclusion, now: Time)
    requires ValidConfig(c) && ModeAt(c, st, now) == Learning
    ensures KeptOut(ApplyExclusion(c, st, e, now), e, ExclusionEnd(e, now))
  {
    hide ForgetPeers, Deleted, Resolve, DownBy, Quarantine, Excludes, Readiness;
    var s0 := st.(exclusions := st.exclusions[KeyOf(e) := ExclusionEnd(e, now)],
                  candidates := map id | id in st.candidates :: Quarantine(st.candidates[id], e));
    SameModeWithoutTables(c, st, s0, now);
  }

  lemma ScanKeepsExclusion(c: Config, st: State, v: Sample, w: Choice, e: Exclusion, end: Time)
    requires ValidConfig(c) && KeptOut(st, e, end) && v.at <= end && LegalPurge(c, st, v, w)
    ensures KeptOut(Scanned(c, st, v, w), e, end)
  {
    hide Excludes, OutcomeOf, ModeAt;
    assert KeyOf(e) !in w.purged;
  }

  /** While the exclusion lasts, an observation of the flow is never learned. */
  lemma ExcludedFlowIsNotLearned(c: Config, st: State, v: Sample, e: Exclusion, end: Time)
    requires ValidConfig(c) && KeptOut(st, e, end) && WellCased(e) && v.at <= end && Excludes(e, v.key)
    ensures OutcomeOf(c, st, v) != Trusted
  {
    hide ModeAt, Excludes, StoredExcludes;
    StoredExclusionCoversExactly(e, v.key);
    var s := StartedBy(st, v.at);
    assert KeyOf(e) in s.exclusions && !Expired(s.exclusions[KeyOf(e)], v.at);
  }

  lemma LearnFlowKeepsOut(c: Config, st: State, v: Sample, victim: Key, e: Exclusion, end: Time)
    requires KeptOut(st, e, end) && !Excludes(e, v.key)
    ensures KeptOut(LearnFlow(c, st, v, victim), e, end)
  {
    hide UpdateProfile, Gauge, Remembered, Excludes, FlowFull;
  }

  lemma ObservationKeepsOut(c: Config, st: State, v: Sample, w: Choice, e: Exclusion, end: Time)
    requires ValidConfig(c) && KeptOut(st, e, end) && WellCased(e) && v.at <= end && LegalPurge(c, st, v, w)
    ensures KeptOut(Observed(c, st, v, w), e, end)
  {
    hide Learn, Shadow, OutcomeOf, ModeAt, WellCased, LearnFlow, LegalPurge, Excludes;
    var s := Scanned(c, st, v, w);
    ScanKeepsExclusion(c, st, v, w, e, end);
    match OutcomeOf(c, st, v)
    case Trusted =>
      if Excludes(e, v.key) { ExcludedFlowIsNotLearned(c, st, v, e, end); }
      LearnFlowKeepsOut(c, s, v, w.flow, e, end);
      LearnFlowFrame(c, s, v, w.flow);
      LearnFrame(c, s, v, w);
    case Shadowed => ShadowFrame(c, s, v, true, ReviewReason(c, v.key), w.candidate);
    case _ =>
  }

  /** Operations that neither promote, reset nor rewrite exclusions, with observations no later than `end`. */
  ghost predicate Undisturbed(es: seq<Event>, end: Time) {
    forall i :: 0 <= i < |es| ==>
      (es[i].Observation? && es[i].v.at <= end) || es[i].Complete? || es[i].RememberIdentity? || es[i].RecordPromotionFailure? || es[i].ReportStatus?
  }

  /** An exclusion applied while learning keeps every matching flow out of the trusted baseline for as long as
      observations carry timestamps up to its end, in whatever order they come. */
  lemma {:induction false} ExclusionKeepsFlowOut(c: Config, st: State, e: Exclusion, now: Time, es: seq<Event>)
    requires ValidConfig(c) && ModeAt(c, st, now) == Learning && WellCased(e)
    requires Undisturbed(es, ExclusionEnd(e, now)) && LegalRun(c, ApplyExclusion(c, st, e, now), es)
    ensures KeptOut(Run(c, ApplyExclusion(c, st, e, now), es), e, ExclusionEnd(e, now))
  {
    hide Observed, LegalChoice, ApplyExclusion, WellCased, ModeAt, Excludes;
    var start, end := ApplyExclusion(c, st, e, now), ExclusionEnd(e, now);
    if es == [] {
      ExclusionCleansLearning(c, st, e, now);
    } else {
      var init, last := es[..|es|-1], es[|es|-1];
      ExclusionKeepsFlowOut(c, st, e, now, init);
      if last.Observation? {
        LegalChoicePurges(c, Run(c, start, init), last.v, last.w);
        ObservationKeepsOut(c, Run(c, start, init), last.v, last.w, e, end);
      }
    }
  }

  lemma LegalChoicePurges(c: Config, st: State, v: Sample, w: Choice)
    requires ValidConfig(c) && LegalChoice(c, st, v, w)
    ensures LegalPurge(c, st, v, w)
  {
    hide LegalLearn, OutcomeOf, LegalPurge, Scanned;
  }

  /** In monitoring the exclusions are not consulted at all: they change no outcome, so a flow first seen then is
      shadowed as an eligible candidate even while it is excluded. */
  lemma MonitoringIgnoresExclusions(c: Config, st: State, v: Sample, w: Choice, xs: map<ExclusionKey, Time>)
    requires ValidConfig(c) && ModeAt(c, st, v.at) == Monitoring
    ensures OutcomeOf(c, st.(exclusions := xs), v) == OutcomeOf(c, st, v)
    ensures OutcomeOf(c, st, v) == Shadowed && IdOf(v.key) !in st.candidates ==>
              var m := Observed(c, st.(exclusions := xs), v, w).candidates;
              IdOf(v.key) in m && m[IdOf(v.key)].eligible
  {
    var b := st.(exclusions := xs);
    OutcomeWithoutExclusions(c, st, v, xs);
    hide OutcomeOf, ModeAt, StartedBy;
    if OutcomeOf(c, st, v) == Shadowed && IdOf(v.key) !in st.candidates { NewCandidateEligible(c, b, v, w); }
  }

  lemma OutcomeWithoutExclusions(c: Config, st: State, v: Sample, xs: map<ExclusionKey, Time>)
    requires ValidConfig(c) && ModeAt(c, st, v.at) == Monitoring
    ensures OutcomeOf(c, st.(exclusions := xs), v) == OutcomeOf(c, st, v)
  {
    var b := st.(exclusions := xs);
    SameModeWithoutTables(c, StartedBy(st, v.at), StartedBy(b, v.at), v.at);
    StartedInMonitoring(c, st, v.at);
    assert HasTrusted(c, StartedBy(st, v.at), v.key) == HasTrusted(c, StartedBy(b, v.at), v.key);
    hide HasTrusted, ModeAt, Quarantined;
  }

  lemma StartedInMonitoring(c: Config, st: State, at: Time)
    requires ValidConfig(c) && ModeAt(c, st, at) == Monitoring
    ensures ModeAt(c, StartedBy(st, at), at) == Monitoring
  {
    hide Readiness, Ready;
  }

  lemma NewCandidateEligible(c: Config, st: State, v: Sample, w: Choice)
    requires ValidConfig(c) && OutcomeOf(c, st, v) == Shadowed && IdOf(v.key) !in st.candidates
    ensures var m := Observed(c, st, v, w).candidates; IdOf(v.key) in m && m[IdOf(v.key)].eligible
  {
    hide UpdateProfile, Learn, OutcomeOf, ModeAt, StartedBy;
  }

}
