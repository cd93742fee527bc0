/** What becomes of an observation, of a completion and of an exclusion, in terms of what happened before. */
module BaselineDecisions {
  import opened Options
  import opened BaselineModel
  import opened BaselineSpec
  import opened BaselineFrames
  import opened BaselineReachable
  import opened BaselineHistory

  // ---------- Names ----------

  /** Flows share a candidate exactly if they differ in transport and shift at most. */
  lemma IdsIgnoreTransportAndShift(a: Key, b: Key)
    ensures IdOf(a) == IdOf(b) <==> a.(transport := b.transport, shift := b.shift) == b
  {
  }

  /** Asset entries are kept apart by sensor, asset and everything about the time and context of the flow. */
  lemma AssetKeysSeparate(a: Key, x: string, b: Key, y: string)
    ensures AssetKeyOf(a, x) == AssetKeyOf(b, y) <==>
              && x == y && a.sensor == b.sensor && a.timeBucket == b.timeBucket && a.dayClass == b.dayClass
              && a.shift == b.shift && a.context == b.context
  {
  }

  // ---------- Known flows ----------

  /** The same flow at the same time of day in the same context, whatever the kind of day and shift. */
  predicate Alike(a: Key, b: Key) { a.(dayClass := b.dayClass, shift := b.shift) == b }

  ghost predicate Known(c: Config, es: seq<Event>, key: Key)
    requires ValidConfig(c)
  {
    exists k :: FlowLife(c, es, k).Some? && Alike(k, key)
  }

  lemma {:induction false} KnownFollowsHistory(c: Config, es: seq<Event>, key: Key)
    requires ValidConfig(c) && LegalRun(c, Initial(), es)
    ensures HasTrusted(c, Run(c, Initial(), es), key) <==> Known(c, es, key)
  {
    hide Run, LegalRun, FlowLife, Records;
    var st := Run(c, Initial(), es);
    AlwaysGood(c, es);
    if HasTrusted(c, st, key) {
      var k := TrustedKey(c, st, key);
      FlowsFollowHistory(c, es, k);
    }
    if Known(c, es, key) {
      var k :| FlowLife(c, es, k).Some? && Alike(k, key);
      FlowsFollowHistory(c, es, k);
      assert k in st.shards[FlowShard(c, k)] && SameFlowAndBucket(k, key);
    }
  }

  lemma TrustedKey(c: Config, st: State, key: Key) returns (k: Key)
    requires Good(c, st) && HasTrusted(c, st, key)
    ensures k in Row(st.shards, FlowShard(c, k)) && Alike(k, key)
  {
    hide GoodProfile, AssetsPlaced, CandidatesGood;
    if key in Row(st.shards, FlowShard(c, key)) {
      k := key;
    } else {
      var i, j :| 0 <= i < |st.shards| && j in st.shards[i] && SameFlowAndBucket(j, key);
      assert FlowShard(c, j) == i && GoodProfile(j, st.shards[i][j]);
      k := j;
    }
  }

  // ---------- What becomes of an observation ----------

  /** A stored exclusion that has no end, or not yet reached it, covers the flow. */
  ghost predicate ExcludedAt(st: State, key: Key, at: Time) {
    exists x :: x in st.exclusions && (st.exclusions[x] == 0 || at <= st.exclusions[x]) && StoredExcludes(x, key)
  }

  /** One end is a public internet address and the other a local one. */
  predicate LeavesTheSite(c: Config, key: Key) {
    || (c.publicInternet(key.srcIP) && !c.publicInternet(key.dstIP) && key.dstIP != "")
    || (c.publicInternet(key.dstIP) && !c.publicInternet(key.srcIP) && key.srcIP != "")
  }

  lemma StartKeepsMode(c: Config, st: State, at: Time)
    requires ValidConfig(c)
    ensures ModeAt(c, StartedBy(st, at), at) == ModeAt(c, st, at)
  {
    hide Ready;
  }

  lemma OutcomeByParts(c: Config, st: State, v: Sample)
    requires ValidConfig(c)
    ensures var learning, excluded, out := ModeAt(c, st, v.at) == Learning, ExcludedAt(st, v.key, v.at), LeavesTheSite(c, v.key);
            && (OutcomeOf(c, st, v) == Refused <==> learning && excluded)
            && (OutcomeOf(c, st, v) == Trusted <==> learning && !excluded && !out)
            && (OutcomeOf(c, st, v) == Shadowed <==> if learning then !excluded && out else !HasTrusted(c, st, v.key))
            && (OutcomeOf(c, st, v) == Dropped <==> !learning && HasTrusted(c, st, v.key))
  {
    StartKeepsMode(c, st, v.at);
    var s := StartedBy(st, v.at);
    assert Quarantined(s, v.key, v.at) == ExcludedAt(st, v.key, v.at) by { hide StoredExcludes; }
    assert HasTrusted(c, s, v.key) == HasTrusted(c, st, v.key);
    hide ModeAt, HasTrusted, Quarantined, ExcludedAt;
  }

  /** While learning, an observation is refused exactly if an exclusion in force covers it, kept for review exactly if
      not and its flow leaves the site, and learned exactly otherwise. In monitoring it is dropped exactly if a flow
      alike is known from the past, and shadowed exactly if not. */
  lemma OutcomeFollowsHistory(c: Config, es: seq<Event>, v: Sample)
    requires ValidConfig(c) && LegalRun(c, Initial(), es)
    ensures var st := Run(c, Initial(), es);
            var learning, excluded, out := ModeAt(c, st, v.at) == Learning, ExcludedAt(st, v.key, v.at), LeavesTheSite(c, v.key);
            && (OutcomeOf(c, st, v) == Refused <==> learning && excluded)
            && (OutcomeOf(c, st, v) == Trusted <==> learning && !excluded && !out)
            && (OutcomeOf(c, st, v) == Shadowed <==> if learning then !excluded && out else !Known(c, es, v.key))
            && (OutcomeOf(c, st, v) == Dropped <==> !learning && Known(c, es, v.key))
  {
    hide Run, LegalRun, OutcomeOf, ModeAt, HasTrusted, ExcludedAt, LeavesTheSite, Known;
    KnownFollowsHistory(c, es, v.key);
    OutcomeByParts(c, Run(c, Initial(), es), v);
  }

  // ---------- The clock and the patterns ----------

  /** The time of the first observation since the last reset. */
  function FirstObserved(es: seq<Event>): Time {
    if es == [] then 0
    else
      var before := FirstObserved(es[..|es|-1]);
      match es[|es|-1]
      case Observation(v, _) => if before == 0 then v.at else before
      case ResetAll => 0
      case _ => before
  }

  /** The times at which a flow was learned that had no life then, since the last reset. */
  ghost function Discovered(c: Config, es: seq<Event>): seq<Time>
    requires ValidConfig(c)
  {
    if es == [] then []
    else
      var before, e := es[..|es|-1], es[|es|-1];
      match e
      case Observation(v, _) =>
        if OutcomeOf(c, Run(c, Initial(), before), v) == Trusted && FlowLife(c, before, v.key).None?
        then Discovered(c, before) + [v.at] else Discovered(c, before)
      case ResetAll => []
      case _ => Discovered(c, before)
  }

  function Latest(xs: seq<Time>): seq<Time> { if |xs| > 10_000 then xs[|xs|-10_000..] else xs }

  lemma LatestNext(xs: seq<Time>, x: Time)
    ensures Remembered(Latest(xs), x) == Latest(xs + [x])
  {
  }

  lemma ClockStep(c: Config, st: State, e: Event)
    requires ValidConfig(c)
    ensures Step(c, st, e).started ==
              if e.ResetAll? then 0 else if e.Observation? && st.started == 0 then e.v.at else st.started
    ensures Step(c, st, e).patterns ==
              if e.ResetAll? then []
              else if e.Observation? && OutcomeOf(c, st, e.v) == Trusted && e.v.key !in Row(st.shards, FlowShard(c, e.v.key))
              then Remembered(st.patterns, e.v.at) else st.patterns
  {
    hide Observed, Promote, PromoteVerdict, ApplyExclusion, CompleteVerdict, OutcomeOf, Remembered;
    match e
    case Observation(v, w) => ObservedClock(c, st, v, w);
    case PromoteCandidate(id, at) =>
      if PromoteVerdict(c, st, id) == Promoted { PromoteFrame(c, st, id, at); } else { UnpromotedStays(c, st, id, at); }
    case ApplyLearningExclusion(x, at) => ExclusionFrame(c, st, x, at);
    case _ =>
  }

  lemma ObservedClock(c: Config, st: State, v: Sample, w: Choice)
    requires ValidConfig(c)
    ensures Observed(c, st, v, w).started == if st.started == 0 then v.at else st.started
    ensures Observed(c, st, v, w).patterns ==
              if OutcomeOf(c, st, v) == Trusted && v.key !in Row(st.shards, FlowShard(c, v.key))
              then Remembered(st.patterns, v.at) else st.patterns
  {
    hide Observed, OutcomeOf, Learn, ModeAt, Remembered, LearnFlow;
    if OutcomeOf(c, st, v) == Trusted {
      TrustedLearns(c, st, v, w);
      LearnFrame(c, Scanned(c, st, v, w), v, w);
      LearnedPatterns(c, Scanned(c, st, v, w), v, w.flow);
    } else {
      UntrustedObservation(c, st, v, w);
    }
  }

  lemma LearnedPatterns(c: Config, st: State, v: Sample, victim: Key)
    ensures var f := LearnFlow(c, st, v, victim);
            && f.started == st.started
            && f.patterns == if v.key !in Row(st.shards, FlowShard(c, v.key)) then Remembered(st.patterns, v.at) else st.patterns
  {
    hide FlowRow, SetRow, Gauge, FlowFull, Remembered;
  }

  /** On every reachable state the learning clock shows the first observation since the last reset, and the novelty
      history the last 10,000 discoveries of a flow: learning one again after it was evicted or excluded counts, a
      promotion does not. */
  lemma {:induction false} ClockFollowsHistory(c: Config, es: seq<Event>)
    requires ValidConfig(c) && LegalRun(c, Initial(), es)
    ensures Run(c, Initial(), es).started == FirstObserved(es)
    ensures Run(c, Initial(), es).patterns == Latest(Discovered(c, es))
  {
    hide Step, FlowLife, OutcomeOf, Remembered, Legal, Latest;
    if es == [] {
      assert Latest([]) == [] by { NothingLatest(); }
    } else {
      var before, e := es[..|es|-1], es[|es|-1];
      var st := Run(c, Initial(), before);
      ClockFollowsHistory(c, before);
      ClockStep(c, st, e);
      NothingLatest();
      if e.Observation? {
        FlowsFollowHistory(c, before, e.v.key);
        LatestNext(Discovered(c, before), e.v.at);
      }
      hide Records;
    }
  }

  lemma NothingLatest()
    ensures Latest([]) == []
  {
  }

  // ---------- Completing the learning ----------

  /** Asked to complete learning, an enabled engine whose clock runs freezes its baseline exactly if it is forced to or
      the minimum duration has passed; it stays frozen if it was. */
  lemma CompletionFreezesExactly(c: Config, st: State, force: bool, now: Time)
    requires ValidConfig(c)
    ensures CompleteLearning(c, st, force, now).complete <==>
              || st.complete
              || (c.enabled && st.started != 0 && (force || now - st.started >= c.learningDuration))
    ensures CompleteVerdict(c, st, force, now) == Completed ==> ModeAt(c, st, now) == Learning
    ensures CompleteLearning(c, st, force, now) == st.(complete := CompleteLearning(c, st, force, now).complete,
              revision := if CompleteLearning(c, st, force, now).complete && !st.complete then st.revision + 1 else st.revision)
  {
    hide Ready;
  }

  // ---------- What an exclusion covers ----------

  /** Letters A to Z become small, nothing else changes. */
  lemma LowerMeans(s: string, i: nat)
    requires i < |s|
    ensures Lower(s)[i] as int == if 'A' <= s[i] <= 'Z' then s[i] as int + 32 else s[i] as int
  {
  }

  /** An exclusion without criteria covers exactly the flows between its two addresses, in either direction; a sensor, a
      port or a protocol of its own leaves out exactly the flows of another. */
  lemma CoverageByCriteria(x: Exclusion, key: Key)
    ensures Excludes(x.(sensor := "", protocol := "", servicePort := 0), key) <==>
              multiset{key.srcIP, key.dstIP} == multiset{x.srcIP, x.dstIP}
    ensures Excludes(x, key) <==> Excludes(x.(sensor := ""), key) && (x.sensor == "" || key.sensor == x.sensor)
    ensures Excludes(x, key) <==> Excludes(x.(servicePort := 0), key) && (x.servicePort == 0 || key.servicePort == x.servicePort)
    ensures Excludes(x, key) <==>
              (Excludes(x.(protocol := ""), key)
               && (x.protocol == "" || Lower(x.protocol) in {Lower(key.protocol), Lower(key.transport)}))
  {
    var a, b := multiset{key.srcIP, key.dstIP}, multiset{x.srcIP, x.dstIP};
    if a == b {
      assert key.srcIP in b && key.dstIP in b && x.srcIP in a && x.dstIP in a;
      if key.srcIP == key.dstIP { assert a[key.srcIP] == 2 == b[key.srcIP]; }
    }
    hide Lower;
  }

  /** Applied, an exclusion is on record under its criteria in small letters until its own end, or for a day. */
  lemma ExclusionIsRecorded(c: Config, st: State, x: Exclusion, now: Time)
    requires ValidConfig(c)
    ensures ApplyExclusion(c, st, x, now).exclusions
         == st.exclusions[ExclusionKey(Lower(x.sensor), Lower(x.srcIP), Lower(x.dstIP), Lower(x.protocol), x.servicePort) :=
                          if x.until == 0 then now + 86_400_000_000_000 else x.until]
  {
    hide Lower;
    ExclusionFrame(c, st, x, now);
    hide ApplyExclusion;
  }
}
