/** When learning ends: what the mode, the ready flag and the readiness score are made of. */
module BaselineReadiness {
  import opened BaselineModel
  import opened BaselineSpec
  import opened Permutations
  import opened MapSums

  // ---------- Quotients as products ----------

  lemma RatioAtLeast(part: nat, whole: nat, p: nat, q: nat)
    requires whole > 0 && q > 0
    ensures part as real / whole as real >= p as real / q as real <==> q * part >= p * whole
  {
    var a, b, x, y := part as real, whole as real, p as real, q as real;
    assert (a / b) * b == a && (x / y) * y == x;
    if a / b >= x / y {
      Scaled(x / y, a / b, b * y);
      assert (x / y) * (b * y) == x * b && (a / b) * (b * y) == a * y;
    } else {
      StrictlyScaled(a / b, x / y, b * y);
      assert (x / y) * (b * y) == x * b && (a / b) * (b * y) == a * y;
    }
    assert a * y == (q * part) as real && x * b == (p * whole) as real;
  }

  lemma Scaled(a: real, b: real, k: real)
    requires a <= b && k > 0.0
    ensures a * k <= b * k
  {
    assert (b - a) * k >= 0.0;
  }

  lemma StrictlyScaled(a: real, b: real, k: real)
    requires a < b && k > 0.0
    ensures a * k < b * k
  {
    assert (b - a) * k > 0.0;
  }

  // ---------- New patterns ----------

  /** A tenth of the learning duration, but at least a minute and at most half an hour. */
  function Window(c: Config): int {
    if c.learningDuration < 600_000_000_000 then 60_000_000_000
    else if c.learningDuration > 18_000_000_000_000 then 1_800_000_000_000
    else c.learningDuration / 10
  }

  /** The patterns first seen within the window. */
  function NewPatterns(c: Config, st: State, now: int): set<nat> {
    set i | 0 <= i < |st.patterns| && st.patterns[i] >= now - Window(c)
  }

  lemma WindowIs(c: Config)
    ensures NoveltyWindow(c) == Window(c)
  {
  }

  lemma {:induction false} RecentCounts(patterns: seq<Time>, cutoff: int)
    ensures Recent(patterns, cutoff) == |set i | 0 <= i < |patterns| && patterns[i] >= cutoff|
  {
    var all := set i | 0 <= i < |patterns| && patterns[i] >= cutoff;
    if patterns == [] {
      assert all == {};
    } else {
      var init, n := patterns[..|patterns|-1], |patterns| - 1;
      RecentCounts(init, cutoff);
      var before := set i | 0 <= i < |init| && init[i] >= cutoff;
      assert all == before + if patterns[n] >= cutoff then {n} else {};
      assert n !in before;
    }
  }

  /** Novelty is the share of patterns first seen within the window. */
  lemma NoveltyAtMost(c: Config, st: State, now: int)
    ensures Novelty(c, st, now) <= 0.05 <==> 20 * |NewPatterns(c, st, now)| <= |st.patterns|
    ensures Novelty(c, st, now) * |st.patterns| as real == |NewPatterns(c, st, now)| as real
    ensures Novelty(c, st, now) >= 0.0
  {
    WindowIs(c);
    RecentCounts(st.patterns, now - Window(c));
    var recent, all := |NewPatterns(c, st, now)|, |st.patterns|;
    if all > 0 {
      hide NewPatterns, Window;
      assert Novelty(c, st, now) == recent as real / all as real;
      AtMost(recent, all);
    } else {
      assert NewPatterns(c, st, now) == {};
    }
  }

  lemma AtMost(part: nat, whole: nat)
    requires whole > 0
    ensures part as real / whole as real <= 0.05 <==> 20 * part <= whole
    ensures part as real / whole as real * whole as real == part as real
    ensures part as real / whole as real >= 0.0
  {
    var r, b := part as real / whole as real, whole as real;
    assert r * b == part as real;
    if r <= 0.05 { Scaled(r, 0.05, b); } else { StrictlyScaled(0.05, r, b); }
    assert 20.0 * part as real == (20 * part) as real;
  }

  // ---------- What it takes to be ready ----------

  lemma RatioIs(part: nat, whole: nat)
    ensures Ratio(part, whole) >= 0.75 <==> whole > 0 && 4 * part >= 3 * whole
    ensures Ratio(part, whole) * whole as real == if whole == 0 then 0.0 else part as real
    ensures part <= whole ==> Ratio(part, whole) <= 1.0
  {
    if whole > 0 {
      RatioAtLeast(part, whole, 3, 4);
      var r, b := part as real / whole as real, whole as real;
      assert r * b == part as real;
      if r > 1.0 { StrictlyScaled(1.0, r, b); }
    }
  }

  lemma MaturityIs(c: Config, st: State, now: int)
    ensures var mature, learned := MatureIds(c, st, now), AssetIds(st.assetShards);
            && (Maturity(c, st, now) >= 0.75 <==> learned != {} && 4 * |mature| >= 3 * |learned|)
            && Maturity(c, st, now) * |learned| as real == (if learned == {} then 0.0 else |mature| as real)
            && Maturity(c, st, now) <= 1.0
  {
    var mature, learned := MatureIds(c, st, now), AssetIds(st.assetShards);
    assert mature <= learned;
    hide MatureIds, AssetIds, Ratio;
    SubsetSize(mature, learned);
    RatioIs(|mature|, |learned|);
    assert Maturity(c, st, now) == Ratio(|mature|, |learned|);
    assert learned == {} <==> |learned| == 0;
  }

  /** How one more profile counts for the maturity of an asset: not at all if it is of another asset or learned during
      maintenance, else with its events in either direction, and with its age. Without profiles nothing counts. */
  lemma {:induction false} ProfileCounts(shards: seq<map<AssetKey, AssetProfile>>, i: nat, k: AssetKey, p: AssetProfile, id: string)
    requires i < |shards| && k !in shards[i]
    ensures AssetEvents(shards[i := shards[i][k := p]], id)
         == AssetEvents(shards, id)
            + if p.key.context != "maintenance" && p.key.assetID == id then p.inbound.events + p.outbound.events else 0
  {
    hide ShardEvents, EventsFor, Counts;
    var n := |shards| - 1;
    var more := shards[i := shards[i][k := p]];
    assert EventsFor(p, id) == (if p.key.context != "maintenance" && p.key.assetID == id then p.inbound.events + p.outbound.events else 0)
      by { EventsOf(p, id); }
    if i == n {
      assert more[..n] == shards[..n];
      ShardProfileCounts(shards[n], k, p, id);
    } else {
      assert more[..n] == shards[..n][i := shards[i][k := p]];
      ProfileCounts(shards[..n], i, k, p, id);
    }
  }

  lemma EventsOf(p: AssetProfile, id: string)
    ensures EventsFor(p, id) == if p.key.context != "maintenance" && p.key.assetID == id then p.inbound.events + p.outbound.events else 0
  {
  }

  lemma ShardProfileCounts(m: map<AssetKey, AssetProfile>, k: AssetKey, p: AssetProfile, id: string)
    requires k !in m
    ensures ShardEvents(m[k := p], id) == ShardEvents(m, id) + EventsFor(p, id)
  {
    hide EventsFor;
    assert Contributions(m[k := p], id) == Contributions(m, id)[k := EventsFor(p, id)];
    TotalInsert(Contributions(m, id), k, EventsFor(p, id));
  }

  /** An asset is mature exactly if some profile of it, not learned during maintenance, was first seen at least the
      minimum age ago, and all such profiles together have the minimum number of samples. */
  lemma MatureExactly(c: Config, st: State, id: string, now: int)
    ensures id in MatureIds(c, st, now) <==>
              && AssetEvents(st.assetShards, id) >= c.minAssetSamples
              && exists i, k :: 0 <= i < |st.assetShards| && k in st.assetShards[i]
                   && var p := st.assetShards[i][k];
                      p.key.assetID == id && p.key.context != "maintenance" && p.firstSeen + c.minAssetAge <= now
  {
    hide AssetEvents;
  }

  /** Ready: the minimum duration has passed, the score reaches the threshold, at least three quarters of the learned
      assets are mature, of which there must be some, and at most one pattern in twenty is new. */
  lemma ReadyTakes(c: Config, st: State, now: int)
    requires ValidConfig(c)
    ensures Ready(c, st, now) <==>
              && st.started != 0 && now - st.started >= c.learningDuration
              && Readiness(c, st, now) >= c.readinessThreshold
              && AssetIds(st.assetShards) != {} && 4 * |MatureIds(c, st, now)| >= 3 * |AssetIds(st.assetShards)|
              && 20 * |NewPatterns(c, st, now)| <= |st.patterns|
  {
    MaturityIs(c, st, now);
    NoveltyAtMost(c, st, now);
    hide Maturity, Novelty, Readiness, NewPatterns, MatureIds, AssetIds;
  }

  /** The mode is decided by completion, the clock and readiness alone: monitoring once learning was completed, or
      once the minimum duration has passed and the baseline is ready or the last nanosecond of the extended
      duration is over. */
  lemma ModeExactly(c: Config, st: State, now: int)
    requires ValidConfig(c)
    ensures ModeAt(c, st, now) == Monitoring <==>
              || st.complete
              || (st.started != 0 && now - st.started >= c.learningDuration
                  && (Ready(c, st, now)
                      || (now - st.started + 1) as real > c.learningDuration as real * c.maxLearningMultiplier))
  {
    hide Ready;
    var limit := c.learningDuration as real * c.maxLearningMultiplier;
    assert limit.Floor as real <= limit < (limit.Floor + 1) as real;
    assert Deadline(c) == limit.Floor;
  }

  lemma CappedQuotient(part: real, whole: real)
    requires whole > 0.0
    ensures AtMostOne(part / whole) * whole == if part < whole then part else whole
    ensures AtMostOne(part / whole) <= 1.0
  {
    var r := part / whole;
    assert r * whole == part;
    if part < whole { if r >= 1.0 { Scaled(1.0, r, whole); } } else { if r < 1.0 { StrictlyScaled(r, 1.0, whole); } }
  }

  /** The score weighs how much of the minimum duration has passed, how many assets are mature, how many times of day
      were covered and how stable the patterns are, 7 : 7 : 3 : 3, and never needs its cap. */
  lemma ReadinessWeighs(c: Config, st: State, now: int) returns (duration: real, maturity: real, coverage: real, novelty: real)
    requires ValidConfig(c) && st.started != 0
    ensures var elapsed, learned, perDay := now - st.started, AssetIds(st.assetShards), DAY / c.bucketDuration;
            && duration * c.learningDuration as real
               == (if elapsed < c.learningDuration then elapsed else c.learningDuration) as real
            && maturity * |learned| as real == (if learned == {} then 0.0 else |MatureIds(c, st, now)| as real)
            && coverage * perDay as real
               == (if |TimesSeen(st)| < perDay then |TimesSeen(st)| else perDay) as real
            && novelty * |st.patterns| as real == |NewPatterns(c, st, now)| as real
    ensures 20.0 * Readiness(c, st, now)
         == 7.0 * duration + 7.0 * maturity + 3.0 * coverage + (if novelty < 0.05 then 3.0 - 60.0 * novelty else 0.0)
  {
    hide Maturity, Novelty, TimeCoverage, MatureIds, AssetIds, TimesSeen, NewPatterns, AtMostOne, Score, BucketsPerDay;
    duration := DurationShare(c, st, now);
    maturity, coverage, novelty := Maturity(c, st, now), TimeCoverage(c, st), Novelty(c, st, now);
    CoverageIs(c, st);
    MaturityIs(c, st, now);
    NoveltyAtMost(c, st, now);
    ScoreIs(duration, maturity, coverage, novelty);
  }

  /** The share of the minimum duration that has passed, as the score takes it. */
  lemma DurationShare(c: Config, st: State, now: int) returns (duration: real)
    requires ValidConfig(c) && st.started != 0
    ensures duration <= 1.0
    ensures duration * c.learningDuration as real
         == (if now - st.started < c.learningDuration then now - st.started else c.learningDuration) as real
    ensures Readiness(c, st, now) == Score(duration, Maturity(c, st, now), TimeCoverage(c, st), Novelty(c, st, now))
  {
    hide Maturity, Novelty, TimeCoverage, Score;
    CappedQuotient((now - st.started) as real, c.learningDuration as real);
    duration := AtMostOne((now - st.started) as real / c.learningDuration as real);
  }

  lemma WholeBuckets(c: Config)
    requires ValidConfig(c)
    ensures BucketsPerDay(c) == DAY / c.bucketDuration >= 1
  {
  }

  /** The times of day at which a learned asset was seen in production, or in no particular context. */
  ghost function TimesSeen(st: State): set<nat> {
    set i, k | 0 <= i < |st.assetShards| && k in st.assetShards[i] && st.assetShards[i][k].key.context in ["", "production"]
      :: st.assetShards[i][k].key.timeBucket
  }

  lemma CoverageIs(c: Config, st: State)
    requires ValidConfig(c)
    ensures TimeCoverage(c, st) <= 1.0
    ensures var seen, perDay := |TimesSeen(st)|, DAY / c.bucketDuration;
            TimeCoverage(c, st) * perDay as real == (if seen < perDay then seen else perDay) as real
  {
    WholeBuckets(c);
    CappedQuotient(|Buckets(st.assetShards)| as real, BucketsPerDay(c) as real);
    assert TimesSeen(st) == Buckets(st.assetShards);
    hide Buckets, TimesSeen;
  }

  lemma ScoreIs(d: real, m: real, t: real, n: real)
    requires d <= 1.0 && m <= 1.0 && t <= 1.0 && n >= 0.0
    ensures 20.0 * Score(d, m, t, n) == 7.0 * d + 7.0 * m + 3.0 * t + (if n < 0.05 then 3.0 - 60.0 * n else 0.0)
  {
    assert n / 0.05 == 20.0 * n;
  }
}
