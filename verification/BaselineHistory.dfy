/**
  What the engine knows as a function of what happened: the samples a stored flow or shadow candidate has taken in
  since its entry was created, read off the run alone, and the numbers they must add up to.
*/
module BaselineHistory {
  import opened Options
  import opened BaselineModel
  import opened BaselineSpec
  import opened BaselineFrames
  import opened BaselineReachable
  import opened Stats

  // ---------- What a list of samples adds up to ----------

  /** The sizes of the packets among the samples. */
  function Sizes(vs: seq<Sample>): seq<real> {
    if vs == [] then []
    else Sizes(vs[..|vs|-1]) + if vs[|vs|-1].packet then [vs[|vs|-1].bytes as real] else []
  }

  function TotalBytes(vs: seq<Sample>): nat {
    if vs == [] then 0 else TotalBytes(vs[..|vs|-1]) + if vs[|vs|-1].packet then vs[|vs|-1].bytes else 0
  }

  /** The measured round trips. */
  function RoundTrips(vs: seq<Sample>): seq<real> {
    if vs == [] then []
    else RoundTrips(vs[..|vs|-1]) + if vs[|vs|-1].rttMillis > 0.0 then [vs[|vs|-1].rttMillis] else []
  }

  /** The milliseconds from one time to a later one. */
  function Pause(a: Time, b: Time): seq<real> {
    if a < b then [(b - a) as real / 1000000.0] else []
  }

  /** The pauses from each sample to the next, where time advances. */
  function Pauses(vs: seq<Sample>): seq<real> {
    if |vs| < 2 then [] else Pauses(vs[..|vs|-1]) + Pause(vs[|vs|-2].at, vs[|vs|-1].at)
  }

  function Times(vs: seq<Sample>, operation: string): nat {
    if vs == [] then 0 else Times(vs[..|vs|-1], operation) + if vs[|vs|-1].operation == operation then 1 else 0
  }

  /** The profile is what exactly these samples leave: their packets, bytes, sizes, pauses and round trips, the
      first and the last time, and every named operation as often as it occurred. */
  ghost predicate Records(p: Profile, key: Key, vs: seq<Sample>) {
    && vs != [] && p.key == key
    && p.firstSeen == vs[0].at && p.lastSeen == vs[|vs|-1].at
    && p.packets == |Sizes(vs)| && p.bytes == TotalBytes(vs)
    && p.packetBytes == After(Sizes(vs)) && p.interArrival == After(Pauses(vs)) && p.rttMillis == After(RoundTrips(vs))
    && CountsOperations(p.operations, vs)
  }

  lemma SamplesNext(vs: seq<Sample>, v: Sample)
    ensures Sizes(vs + [v]) == Sizes(vs) + if v.packet then [v.bytes as real] else []
    ensures TotalBytes(vs + [v]) == TotalBytes(vs) + if v.packet then v.bytes else 0
    ensures RoundTrips(vs + [v]) == RoundTrips(vs) + if v.rttMillis > 0.0 then [v.rttMillis] else []
  {
    assert (vs + [v])[..|vs|] == vs && (vs + [v])[|vs|] == v;
  }

  lemma TimesNext(vs: seq<Sample>, v: Sample, operation: string)
    ensures Times(vs + [v], operation) == Times(vs, operation) + if v.operation == operation then 1 else 0
  {
    assert (vs + [v])[..|vs|] == vs && (vs + [v])[|vs|] == v;
  }

  lemma PausesNext(vs: seq<Sample>, v: Sample)
    requires vs != []
    ensures Pauses(vs + [v]) == Pauses(vs) + Pause(vs[|vs|-1].at, v.at)
  {
    hide Pause;
    var all := vs + [v];
    assert all[..|all|-1] == vs;
    assert all[|all|-1] == v && all[|all|-2] == vs[|vs|-1];
  }

  lemma AfterNext(xs: seq<real>, x: real)
    ensures After(xs + [x]) == Observe(After(xs), x)
  {
    hide Observe;
    assert (xs + [x])[..|xs|] == xs;
  }

  lemma GapNext(stats: seq<real>, last: Time, at: Time)
    requires last > 0
    ensures Gap(After(stats), last, at) == After(stats + Pause(last, at))
  {
    hide Observe, After;
    if last < at {
      AfterNext(stats, (at - last) as real / 1000000.0);
    } else {
      assert stats + [] == stats;
    }
  }

  ghost predicate CountsOperations(m: map<string, nat>, vs: seq<Sample>) {
    && (forall o :: o in m <==> o != "" && Times(vs, o) > 0)
    && (forall o :: o in m ==> m[o] == Times(vs, o))
  }

  lemma OperationsNext(m: map<string, nat>, vs: seq<Sample>, v: Sample)
    requires CountsOperations(m, vs)
    ensures CountsOperations(if v.operation != "" then Bump(m, v.operation) else m, vs + [v])
  {
    hide Times;
    forall o ensures Times(vs + [v], o) == Times(vs, o) + if v.operation == o then 1 else 0 { TimesNext(vs, v, o); }
  }

  /** One more sample: the profile takes it in and forgets nothing. */
  lemma RecordsNext(p: Profile, key: Key, vs: seq<Sample>, v: Sample)
    requires Records(p, key, vs) && vs[|vs|-1].at > 0
    ensures Records(UpdateProfile(p, v), key, vs + [v])
  {
    hide Sizes, TotalBytes, RoundTrips, Pauses, Pause, CountsOperations, After, Observe, Gap, Bump;
    SamplesNext(vs, v);
    PausesNext(vs, v);
    OperationsNext(p.operations, vs, v);
    AfterNext(Sizes(vs), v.bytes as real);
    AfterNext(RoundTrips(vs), v.rttMillis);
    assert Sizes(vs) + [] == Sizes(vs) && RoundTrips(vs) + [] == RoundTrips(vs);
    GapNext(Pauses(vs), p.lastSeen, v.at);
  }

  lemma NothingSampled()
    ensures Sizes([]) == [] && RoundTrips([]) == [] && Pauses([]) == [] && TotalBytes([]) == 0
    ensures CountsOperations(map[], [])
    ensures After([]) == EMPTY
  {
  }

  lemma NoPause(v: Sample)
    ensures Gap(EMPTY, 0, v.at) == EMPTY && Pauses([v]) == []
  {
  }

  lemma RecordsFirst(key: Key, v: Sample)
    ensures Records(UpdateProfile(NewProfile(key, v.at), v), key, [v])
  {
    hide Sizes, TotalBytes, RoundTrips, Pauses, Pause, CountsOperations, After, Observe, Gap, Bump;
    NothingSampled();
    SamplesNext([], v);
    assert [] + [v] == [v];
    OperationsNext(map[], [], v);
    AfterNext([], v.bytes as real);
    AfterNext([], v.rttMillis);
    assert [] + [v.bytes as real] == [v.bytes as real] && [] + [v.rttMillis] == [v.rttMillis];
    assert Gap(EMPTY, 0, v.at) == EMPTY && Pauses([v]) == [] by { NoPause(v); }
  }

  // ---------- The life of a shadow candidate ----------

  /** The samples a candidate has taken in, and the reason of the last exclusion that met it, if any did. */
  datatype ShadowLife = ShadowLife(samples: seq<Sample>, refused: Option<string>)

  function Days(vs: seq<Sample>): set<nat> { set v | v in vs :: v.at / DAY }

  /** Enough evidence, and no exclusion against it. */
  predicate Ripe(c: Config, life: Option<ShadowLife>) {
    && life.Some? && life.value.refused.None?
    && |life.value.samples| >= c.candidateMinSamples && |Days(life.value.samples)| >= c.candidateMinDays
  }

  /** The candidate's life since it was last created: by a shadowed sample, ended by eviction from a full store,
      promotion or reset. */
  ghost function CandidateLife(c: Config, es: seq<Event>, id: CandidateId): Option<ShadowLife>
    requires ValidConfig(c)
  {
    if es == [] then None
    else NextCandidateLife(c, Run(c, Initial(), es[..|es|-1]), CandidateLife(c, es[..|es|-1], id), es[|es|-1], id)
  }

  ghost function NextCandidateLife(c: Config, st: State, life: Option<ShadowLife>, e: Event, id: CandidateId): Option<ShadowLife>
    requires ValidConfig(c)
  {
    match e
    case Observation(v, w) =>
      if OutcomeOf(c, st, v) != Shadowed then life
      else if IdOf(v.key) == id then
        Some(if life.Some? then life.value.(samples := life.value.samples + [v]) else ShadowLife([v], None))
      else if IdOf(v.key) !in st.candidates && |st.candidates| >= c.maxProfiles && id == w.candidate then None
      else life
    case PromoteCandidate(other, _) => if other == id && Ripe(c, life) then None else life
    case ApplyLearningExclusion(x, _) =>
      if life.Some? && life.value.samples != [] && Excludes(x, life.value.samples[0].key)
      then Some(life.value.(refused := Some(x.reason))) else life
    case ResetAll => None
    case _ => life
  }

  /** The stored candidate says exactly what its life says. */
  ghost predicate Reflects(c: Config, x: Candidate, id: CandidateId, life: ShadowLife) {
    && life.samples != [] && (forall v :: v in life.samples ==> v.at > 0)
    && x.id == id && x.key == life.samples[0].key
    && x.firstSeen == life.samples[0].at && x.lastSeen == life.samples[|life.samples|-1].at
    && x.observations == |life.samples| && x.days == Days(life.samples) && x.distinctDays == |Days(life.samples)|
    && (x.eligible <==> life.refused.None?)
    && x.reason == (if life.refused.Some? then life.refused.value else if ReviewOnly(c, x.key) then REVIEW else "")
    && x.srcAsset == life.samples[0].srcAsset && x.dstAsset == life.samples[0].dstAsset
    && Records(x.profile, x.key, life.samples)
  }

  ghost predicate CandidateFollows(c: Config, st: State, id: CandidateId, life: Option<ShadowLife>) {
    && (id in st.candidates <==> life.Some?)
    && (life.Some? ==> Reflects(c, st.candidates[id], id, life.value))
  }

  lemma DaysNext(vs: seq<Sample>, v: Sample)
    ensures Days(vs + [v]) == Days(vs) + {v.at / DAY}
  {
    assert forall y :: y in vs + [v] <==> y in vs || y == v;
  }

  lemma ReflectsNext(c: Config, x: Candidate, id: CandidateId, life: ShadowLife, v: Sample)
    requires Reflects(c, x, id, life) && v.at > 0
    ensures Reflects(c, UpdateCandidate(x, v, true, ReviewReason(c, v.key)), id, life.(samples := life.samples + [v]))
  {
    hide UpdateProfile, Records, Days;
    DaysNext(life.samples, v);
    assert life.samples[|life.samples|-1] in life.samples;
    LastSampleTimed(x.profile, x.key, life.samples);
    RecordsNext(x.profile, x.key, life.samples, v);
  }

  lemma LastSampleTimed(p: Profile, key: Key, vs: seq<Sample>)
    requires Records(p, key, vs)
    ensures vs != []
  {
  }

  lemma ReflectsFirst(c: Config, v: Sample)
    requires v.at > 0
    ensures Reflects(c, UpdateCandidate(NewCandidate(v, true, ReviewReason(c, v.key)), v, true, ReviewReason(c, v.key)),
                     IdOf(v.key), ShadowLife([v], None))
  {
    hide UpdateProfile, Records, Days;
    DaysNext([], v);
    assert [] + [v] == [v] && Days([]) == {} by { NoDays(); }
    RecordsFirst(v.key, v);
  }

  lemma NoDays()
    ensures Days([]) == {}
  {
  }

  lemma ShadowFollows(c: Config, st: State, v: Sample, w: Choice, id: CandidateId, life: Option<ShadowLife>)
    requires CandidateFollows(c, st, id, life) && v.at > 0
    ensures CandidateFollows(c, Shadow(c, st, v, true, ReviewReason(c, v.key), w.candidate), id,
              if IdOf(v.key) == id then Some(if life.Some? then life.value.(samples := life.value.samples + [v]) else ShadowLife([v], None))
              else if CandidatesFull(c, st, v.key) && id == w.candidate then None
              else life)
  {
    hide UpdateCandidate, NewCandidate, Reflects, ReviewReason;
    if IdOf(v.key) == id {
      if life.Some? { ReflectsNext(c, st.candidates[id], id, life.value, v); } else { ReflectsFirst(c, v); }
    }
  }

  lemma ObservationFollows(c: Config, st: State, v: Sample, w: Choice, id: CandidateId, life: Option<ShadowLife>)
    requires ValidConfig(c) && CandidateFollows(c, st, id, life) && v.at > 0
    ensures CandidateFollows(c, Observed(c, st, v, w), id, NextCandidateLife(c, st, life, Observation(v, w), id))
  {
    hide Learn, Shadow, OutcomeOf, ModeAt, StartedBy, Reflects, IdOf;
    var s := Scanned(c, st, v, w);
    match OutcomeOf(c, st, v)
    case Trusted => LearnFrame(c, s, v, w);
    case Shadowed => ShadowFollows(c, s, v, w, id, life);
    case _ =>
  }

  lemma QuarantineFollows(c: Config, x: Candidate, e: Exclusion, id: CandidateId, life: ShadowLife)
    requires Reflects(c, x, id, life)
    ensures Reflects(c, Quarantine(x, e), id, if Excludes(e, life.samples[0].key) then life.(refused := Some(e.reason)) else life)
  {
    hide Excludes, Records, Days;
  }

  lemma ReflectsSamples(c: Config, x: Candidate, id: CandidateId, life: ShadowLife)
    requires Reflects(c, x, id, life)
    ensures life.samples != []
  {
  }

  lemma ExclusionFollows(c: Config, st: State, x: Exclusion, at: Time, id: CandidateId, life: Option<ShadowLife>)
    requires ValidConfig(c) && CandidateFollows(c, st, id, life)
    ensures CandidateFollows(c, ApplyExclusion(c, st, x, at), id, NextCandidateLife(c, st, life, ApplyLearningExclusion(x, at), id))
  {
    hide ApplyExclusion, Excludes, Reflects, Quarantine, OutcomeOf, CandidatesFull;
    ExclusionFrame(c, st, x, at);
    assert ApplyExclusion(c, st, x, at).candidates == map j | j in st.candidates :: Quarantine(st.candidates[j], x);
    if life.Some? {
      ReflectsSamples(c, st.candidates[id], id, life.value);
      QuarantineFollows(c, st.candidates[id], x, id, life.value);
    }
  }

  /** Whether a candidate may be promoted is decided by its life. */
  lemma RipeMeansPromotable(c: Config, st: State, id: CandidateId, life: Option<ShadowLife>)
    requires CandidateFollows(c, st, id, life)
    ensures PromoteVerdict(c, st, id) == Promoted <==> Ripe(c, life)
  {
    hide Records, Days;
  }

  lemma PromotionFollows(c: Config, st: State, other: CandidateId, at: Time, id: CandidateId, life: Option<ShadowLife>)
    requires ValidConfig(c) && CandidateFollows(c, st, id, life)
    ensures CandidateFollows(c, Promote(c, st, other, at), id, NextCandidateLife(c, st, life, PromoteCandidate(other, at), id))
  {
    RipeMeansPromotable(c, st, id, life);
    hide Reflects, Promote, PromoteVerdict, Ripe;
    if PromoteVerdict(c, st, other) == Promoted { PromoteFrame(c, st, other, at); } else { UnpromotedStays(c, st, other, at); }
  }

  lemma StepFollows(c: Config, st: State, e: Event, id: CandidateId, life: Option<ShadowLife>)
    requires ValidConfig(c) && Legal(c, st, e) && CandidateFollows(c, st, id, life)
    ensures CandidateFollows(c, Step(c, st, e), id, NextCandidateLife(c, st, life, e, id))
  {
    hide Observed, Promote, ApplyExclusion, CompleteVerdict, OutcomeOf, LegalChoice, Reflects, Ripe, CandidatesFull, Excludes;
    match e
    case Observation(v, w) => ObservationFollows(c, st, v, w, id, life);
    case PromoteCandidate(other, at) => PromotionFollows(c, st, other, at, id, life);
    case ApplyLearningExclusion(x, at) => ExclusionFollows(c, st, x, at, id, life);
    case _ =>
  }

  /** On every reachable state a candidate is stored exactly while it has a life, and says what that life says: as
      many observations as samples since it was created, exactly their days, eligible exactly if no exclusion
      has met it since. */
  lemma {:induction false} CandidatesFollowHistory(c: Config, es: seq<Event>, id: CandidateId)
    requires ValidConfig(c) && LegalRun(c, Initial(), es)
    ensures CandidateFollows(c, Run(c, Initial(), es), id, CandidateLife(c, es, id))
  {
    hide Step, Legal, NextCandidateLife, Reflects;
    if es != [] {
      CandidatesFollowHistory(c, es[..|es|-1], id);
      StepFollows(c, Run(c, Initial(), es[..|es|-1]), es[|es|-1], id, CandidateLife(c, es[..|es|-1], id));
    }
  }

  /** When the id was last promoted, unless a status has found that older than the retention window since. */
  ghost function PromotedAt(c: Config, es: seq<Event>, id: CandidateId): Option<Time>
    requires ValidConfig(c)
  {
    if es == [] then None
    else NextPromotedAt(c, PromotedAt(c, es[..|es|-1], id), es[|es|-1], id, CandidateLife(c, es[..|es|-1], id))
  }

  function NextPromotedAt(c: Config, before: Option<Time>, e: Event, id: CandidateId, life: Option<ShadowLife>): Option<Time> {
    match e
    case PromoteCandidate(other, at) => if other == id && Ripe(c, life) then Some(at) else before
    case ReportStatus(at) => if before.Some? && before.value < at - RETENTION then None else before
    case ResetAll => None
    case _ => before
  }

  lemma PromotedByCommand(c: Config, st: State, other: CandidateId, at: Time, id: CandidateId, life: Option<ShadowLife>)
    requires CandidateFollows(c, st, id, life)
    ensures Lookup(Promote(c, st, other, at).promoted, id) == if other == id && Ripe(c, life) then Some(at) else Lookup(st.promoted, id)
  {
    RipeMeansPromotable(c, st, id, life);
    hide Promote, PromoteVerdict, CandidateFollows, Ripe;
    if PromoteVerdict(c, st, other) == Promoted { PromoteFrame(c, st, other, at); } else { UnpromotedStays(c, st, other, at); }
  }

  lemma PromotedStep(c: Config, st: State, e: Event, id: CandidateId, life: Option<ShadowLife>)
    requires ValidConfig(c) && CandidateFollows(c, st, id, life)
    ensures Lookup(Step(c, st, e).promoted, id) == NextPromotedAt(c, Lookup(st.promoted, id), e, id, life)
  {
    hide Observed, Promote, ApplyExclusion, CompleteVerdict, CandidateFollows, Ripe;
    match e
    case Observation(v, w) => ObservationKeepsRecords(c, st, v, w);
    case PromoteCandidate(other, at) => PromotedByCommand(c, st, other, at, id, life);
    case ApplyLearningExclusion(x, at) => ExclusionFrame(c, st, x, at);
    case _ =>
  }

  lemma {:induction false} PromotionsFollowHistory(c: Config, es: seq<Event>, id: CandidateId)
    requires ValidConfig(c) && LegalRun(c, Initial(), es)
    ensures Lookup(Run(c, Initial(), es).promoted, id) == PromotedAt(c, es, id)
  {
    hide Step, Legal, CandidateLife, CandidateFollows, NextPromotedAt;
    if es != [] {
      var before := es[..|es|-1];
      PromotionsFollowHistory(c, before, id);
      CandidatesFollowHistory(c, before, id);
      PromotedStep(c, Run(c, Initial(), before), es[|es|-1], id, CandidateLife(c, before, id));
    }
  }

  /** What an operator who asks for a promotion is told, in terms of what happened: unknown or already promoted
      without a life, refused for the reason of the last exclusion that met it, short of samples or of days, or
      promoted. */
  lemma VerdictFollowsHistory(c: Config, es: seq<Event>, id: CandidateId)
    requires ValidConfig(c) && LegalRun(c, Initial(), es)
    ensures PromoteVerdict(c, Run(c, Initial(), es), id) ==
              match CandidateLife(c, es, id)
              case None => if PromotedAt(c, es, id).Some? then AlreadyPromoted else NotFound
              case Some(life) =>
                if life.refused.Some? then NotEligible(life.refused.value)
                else if |life.samples| < c.candidateMinSamples || |Days(life.samples)| < c.candidateMinDays then NeedsEvidence
                else Promoted
  {
    hide Run, LegalRun, CandidateLife, PromotedAt, Days, Records;
    CandidatesFollowHistory(c, es, id);
    PromotionsFollowHistory(c, es, id);
  }

  // ---------- The life of a trusted flow ----------

  /** A shard without the key that already holds its share of the limit. */
  predicate Crowded<K, V>(m: map<K, V>, k: K, max: nat) { k !in m && |m| * SHARDS >= max }

  lemma CrowdedMeansFull(c: Config, st: State, k: Key)
    ensures FlowFull(c, st, k) <==> Crowded(Row(st.shards, FlowShard(c, k)), k, c.maxProfiles)
  {
  }

  /** The trusted samples of a flow since its profile was last created: by learning it, or by promoting a candidate,
      whose samples come first and replace whatever was known; ended by eviction, exclusion while learning or
      reset. */
  ghost function FlowLife(c: Config, es: seq<Event>, k: Key): Option<seq<Sample>>
    requires ValidConfig(c)
  {
    if es == [] then None
    else NextFlowLife(c, Run(c, Initial(), es[..|es|-1]), FlowLife(c, es[..|es|-1], k), es[..|es|-1], es[|es|-1], k)
  }

  ghost function NextFlowLife(c: Config, st: State, life: Option<seq<Sample>>, before: seq<Event>, e: Event, k: Key): Option<seq<Sample>>
    requires ValidConfig(c)
  {
    match e
    case Observation(v, w) =>
      if OutcomeOf(c, st, v) != Trusted then life
      else if v.key == k then Some((if life.Some? then life.value else []) + [v])
      else if FlowShard(c, v.key) == FlowShard(c, k) && Crowded(Row(st.shards, FlowShard(c, k)), v.key, c.maxProfiles) && w.flow == k then None
      else life
    case PromoteCandidate(id, _) =>
      var shadow := CandidateLife(c, before, id);
      if Ripe(c, shadow) && shadow.value.samples != [] && shadow.value.samples[0].key == k then Some(shadow.value.samples)
      else life
    case ApplyLearningExclusion(x, at) => if ModeAt(c, st, at) == Learning && Excludes(x, k) then None else life
    case ResetAll => None
    case _ => life
  }

  /** The stored profile, if any, is what the flow's life leaves. */
  ghost predicate FlowFollows(c: Config, shards: seq<map<Key, Profile>>, k: Key, life: Option<seq<Sample>>) {
    && |shards| == SHARDS
    && (k in shards[FlowShard(c, k)] <==> life.Some?)
    && (life.Some? ==> Records(shards[FlowShard(c, k)][k], k, life.value) && forall v :: v in life.value ==> v.at > 0)
  }

  lemma RowFollows(c: Config, m: map<Key, Profile>, v: Sample, full: bool, victim: Key, k: Key, life: Option<seq<Sample>>)
    requires k in m <==> life.Some?
    requires life.Some? ==> Records(m[k], k, life.value) && forall x :: x in life.value ==> x.at > 0
    requires v.at > 0 && (full ==> v.key !in m)
    ensures var r, next := FlowRow(m, v, full, victim),
                           if v.key == k then Some((if life.Some? then life.value else []) + [v])
                           else if full && victim == k then None else life;
            && (k in r <==> next.Some?)
            && (next.Some? ==> Records(r[k], k, next.value) && forall x :: x in next.value ==> x.at > 0)
  {
    hide UpdateProfile, Records;
    if v.key == k {
      if life.Some? {
        LastSampleTimed(m[k], k, life.value);
        assert life.value[|life.value|-1] in life.value;
        RecordsNext(m[k], k, life.value, v);
      } else {
        assert [] + [v] == [v];
        RecordsFirst(k, v);
      }
    }
  }

  lemma LearningFollows(c: Config, st: State, v: Sample, victim: Key, k: Key, life: Option<seq<Sample>>)
    requires FlowFollows(c, st.shards, k, life) && v.at > 0
    ensures FlowFollows(c, LearnFlow(c, st, v, victim).shards, k,
                        if v.key == k then Some((if life.Some? then life.value else []) + [v])
                        else if FlowFull(c, st, v.key) && FlowShard(c, v.key) == FlowShard(c, k) && victim == k then None
                        else life)
  {
    hide FlowRow, Gauge, Remembered, Records;
    if FlowShard(c, k) == FlowShard(c, v.key) {
      RowFollows(c, st.shards[FlowShard(c, k)], v, FlowFull(c, st, v.key), victim, k, life);
    }
  }

  lemma ObservedFlow(c: Config, st: State, v: Sample, w: Choice, before: seq<Event>, k: Key, life: Option<seq<Sample>>)
    requires ValidConfig(c) && FlowFollows(c, st.shards, k, life) && v.at > 0
    ensures FlowFollows(c, Observed(c, st, v, w).shards, k, NextFlowLife(c, st, life, before, Observation(v, w), k))
  {
    hide Learn, LearnFlow, Observed, OutcomeOf, ModeAt, FlowFollows, CandidateLife, FlowFull, Crowded;
    if OutcomeOf(c, st, v) == Trusted {
      var s := Scanned(c, st, v, w);
      TrustedLearns(c, st, v, w);
      LearnFrame(c, s, v, w);
      LearningFollows(c, s, v, w.flow, k, life);
      CrowdedMeansFull(c, s, v.key);
    } else {
      UntrustedObservation(c, st, v, w);
    }
  }

  lemma PromotedFlow(c: Config, st: State, id: CandidateId, at: Time, before: seq<Event>, k: Key, life: Option<seq<Sample>>)
    requires ValidConfig(c) && FlowFollows(c, st.shards, k, life) && CandidateFollows(c, st, id, CandidateLife(c, before, id))
    ensures FlowFollows(c, Promote(c, st, id, at).shards, k, NextFlowLife(c, st, life, before, PromoteCandidate(id, at), k))
  {
    hide Promote, PromoteVerdict, CandidateLife, Records, Ripe;
    RipeMeansPromotable(c, st, id, CandidateLife(c, before, id));
    if PromoteVerdict(c, st, id) == Promoted {
      PromoteFrame(c, st, id, at);
      RipeHasLife(c, CandidateLife(c, before, id));
    } else {
      UnpromotedStays(c, st, id, at);
    }
  }

  lemma RipeHasLife(c: Config, life: Option<ShadowLife>)
    requires Ripe(c, life)
    ensures life.Some?
  {
  }

  lemma ExcludedShards(c: Config, st: State, x: Exclusion, at: Time)
    requires ValidConfig(c)
    ensures ApplyExclusion(c, st, x, at).shards == if ModeAt(c, st, at) == Learning then CleansedAll(st.shards, x) else st.shards
  {
    var s0 := Disqualified(st, x, at);
    SameModeWithoutTables(c, st, s0, at);
    hide ModeAt, CleansedAll, ForgetAll, Deleted, DownBy, Resolve, Quarantine;
  }

  lemma ExcludedFlow(c: Config, st: State, x: Exclusion, at: Time, before: seq<Event>, k: Key, life: Option<seq<Sample>>)
    requires ValidConfig(c) && FlowFollows(c, st.shards, k, life)
    ensures FlowFollows(c, ApplyExclusion(c, st, x, at).shards, k,
                        NextFlowLife(c, st, life, before, ApplyLearningExclusion(x, at), k))
  {
    hide ModeAt, Excludes, ApplyExclusion, Records, CandidateLife, OutcomeOf;
    ExcludedShards(c, st, x, at);
  }

  lemma StepFlow(c: Config, st: State, e: Event, before: seq<Event>, k: Key, life: Option<seq<Sample>>)
    requires ValidConfig(c) && Legal(c, st, e) && FlowFollows(c, st.shards, k, life)
    requires e.PromoteCandidate? ==> CandidateFollows(c, st, e.id, CandidateLife(c, before, e.id))
    ensures FlowFollows(c, Step(c, st, e).shards, k, NextFlowLife(c, st, life, before, e, k))
  {
    hide Observed, Promote, ApplyExclusion, CompleteVerdict, OutcomeOf, LegalChoice, Records, Ripe, FlowFull, Excludes, ModeAt,
         CandidateLife, CandidateFollows;
    match e
    case Observation(v, w) => ObservedFlow(c, st, v, w, before, k, life);
    case PromoteCandidate(id, at) => PromotedFlow(c, st, id, at, before, k, life);
    case ApplyLearningExclusion(x, at) => ExcludedFlow(c, st, x, at, before, k, life);
    case _ =>
  }

  /** On every reachable state a flow is trusted exactly while it has a life, and its profile holds exactly the samples
      of that life: nothing is forgotten and nothing counted twice. */
  lemma {:induction false} FlowsFollowHistory(c: Config, es: seq<Event>, k: Key)
    requires ValidConfig(c) && LegalRun(c, Initial(), es)
    ensures FlowFollows(c, Run(c, Initial(), es).shards, k, FlowLife(c, es, k))
  {
    hide Step, Legal, NextFlowLife, CandidateLife, CandidateFollows;
    if es == [] {
      NoFlows(c, k);
    } else {
      var before, e := es[..|es|-1], es[|es|-1];
      FlowsFollowHistory(c, before, k);
      if e.PromoteCandidate? { CandidatesFollowHistory(c, before, e.id); }
      StepFlow(c, Run(c, Initial(), before), e, before, k, FlowLife(c, before, k));
    }
  }

  lemma NoFlows(c: Config, k: Key)
    ensures FlowFollows(c, Initial().shards, k, None)
  {
  }

  // ---------- Who is evicted ----------

  /** A full shard gives up a flow whose last sample is no later than that of any other flow it holds. */
  lemma LeastRecentFlowGoes(c: Config, es: seq<Event>, v: Sample, w: Choice, k: Key, j: Key)
    requires ValidConfig(c) && LegalRun(c, Initial(), es) && Legal(c, Run(c, Initial(), es), Observation(v, w))
    requires FlowLife(c, es, k).Some? && NextFlowLife(c, Run(c, Initial(), es), FlowLife(c, es, k), es, Observation(v, w), k).None?
    requires FlowLife(c, es, j).Some? && FlowShard(c, j) == FlowShard(c, k)
    ensures var a, b := FlowLife(c, es, k).value, FlowLife(c, es, j).value;
            a != [] && b != [] && a[|a|-1].at <= b[|b|-1].at
  {
    hide Run, LegalRun, FlowLife, OutcomeOf, ModeAt, LegalLearn, LegalPurge, Records, Good, FlowFull, Crowded, OldestFlow;
    var st := Run(c, Initial(), es);
    AlwaysGood(c, es);
    FlowsFollowHistory(c, es, k);
    FlowsFollowHistory(c, es, j);
    CrowdedMeansFull(c, st, v.key);
    LegalVictim(c, st, v, w);
    OldestSeen(c, st, w.flow, FlowShard(c, k), j);
    LastSeenIs(st.shards[FlowShard(c, k)][k], k, FlowLife(c, es, k).value);
    LastSeenIs(st.shards[FlowShard(c, j)][j], j, FlowLife(c, es, j).value);
  }

  lemma LastSeenIs(p: Profile, key: Key, vs: seq<Sample>)
    requires Records(p, key, vs)
    ensures vs != [] && p.lastSeen == vs[|vs|-1].at
  {
  }

  lemma LegalVictim(c: Config, st: State, v: Sample, w: Choice)
    requires ValidConfig(c) && LegalChoice(c, st, v, w) && OutcomeOf(c, st, v) == Trusted && FlowFull(c, st, v.key)
    ensures OldestFlow(Row(st.shards, FlowShard(c, v.key)), w.flow)
  {
    hide OutcomeOf, ModeAt, LearnSource, LearnFlow, AssetFull, OldestFlow, OldestAsset, LegalPurge;
  }

  lemma OldestSeen(c: Config, st: State, victim: Key, i: nat, j: Key)
    requires Good(c, st) && i < SHARDS && OldestFlow(st.shards[i], victim) && j in st.shards[i]
    ensures victim in st.shards[i] && st.shards[i][victim].lastSeen <= st.shards[i][j].lastSeen
  {
    hide Measured;
    var times := FlowTimes(st.shards[i]);
    assert forall k :: k in times ==> times[k] == st.shards[i][k].lastSeen;
    forall k | k in st.shards[i] ensures st.shards[i][k].lastSeen > 0 {
      assert FlowShard(c, k) == i && GoodProfile(k, st.shards[i][k]);
    }
  }

  lemma LegalCandidateVictim(c: Config, st: State, v: Sample, w: Choice)
    requires ValidConfig(c) && LegalChoice(c, st, v, w) && OutcomeOf(c, st, v) == Shadowed && CandidatesFull(c, st, v.key)
    ensures OldestCandidate(st.candidates, w.candidate)
  {
    hide OutcomeOf, ModeAt, LegalLearn, LegalPurge, OldestCandidate, CandidatesFull;
  }

  lemma OldestCandidateSeen(m: map<CandidateId, Candidate>, victim: CandidateId, other: CandidateId)
    requires CandidatesGood(m) && OldestCandidate(m, victim) && other in m
    ensures victim in m && m[victim].lastSeen <= m[other].lastSeen
  {
    var times := CandidateTimes(m);
    assert forall k :: k in times ==> times[k] == m[k].lastSeen;
    forall k | k in m ensures m[k].lastSeen > 0 { assert GoodCandidate(k, m[k]); }
  }

  lemma CandidateLastSeen(c: Config, x: Candidate, id: CandidateId, life: ShadowLife)
    requires Reflects(c, x, id, life)
    ensures life.samples != [] && x.lastSeen == life.samples[|life.samples|-1].at
  {
  }

  /** A full shadow store gives up a candidate whose last sample is no later than that of any other. */
  lemma LeastRecentCandidateGoes(c: Config, es: seq<Event>, v: Sample, w: Choice, id: CandidateId, other: CandidateId)
    requires ValidConfig(c) && LegalRun(c, Initial(), es) && Legal(c, Run(c, Initial(), es), Observation(v, w))
    requires CandidateLife(c, es, id).Some? && CandidateLife(c, es, other).Some?
    requires NextCandidateLife(c, Run(c, Initial(), es), CandidateLife(c, es, id), Observation(v, w), id).None?
    ensures var a, b := CandidateLife(c, es, id).value.samples, CandidateLife(c, es, other).value.samples;
            a != [] && b != [] && a[|a|-1].at <= b[|b|-1].at
  {
    hide Run, LegalRun, CandidateLife, OutcomeOf, LegalChoice, IdOf, Reflects, OldestCandidate, CandidatesGood;
    var st := Run(c, Initial(), es);
    CandidatesFollowHistory(c, es, id);
    CandidatesFollowHistory(c, es, other);
    AlwaysGood(c, es);
    LegalCandidateVictim(c, st, v, w);
    OldestCandidateSeen(st.candidates, id, other);
    CandidateLastSeen(c, st.candidates[id], id, CandidateLife(c, es, id).value);
    CandidateLastSeen(c, st.candidates[other], other, CandidateLife(c, es, other).value);
  }
}
