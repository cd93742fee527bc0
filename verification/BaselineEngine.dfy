/**
  The behaviour-baseline engine itself: sharded tables, counters and maps updated in place. Every method is
  proved against the state machine of BaselineSpec. Each operation is one step, also where the program takes
  several locks in turn.
*/
module BaselineEngine {
  import opened BaselineModel
  import opened BaselineSpec
  import opened BaselineFrames
  import opened BaselineReachable
  import opened BaselineSnapshot
  import opened Permutations
  import opened MapSums
  import opened Stats

  /** What readiness accumulates per asset. */
  datatype Aggregate = Aggregate(first: Time, samples: nat)

  /** The aggregates of the profiles `seen` so far. */
  ghost predicate Aggregated(m: map<string, Aggregate>, seen: seq<map<AssetKey, AssetProfile>>) {
    && m.Keys == AssetIds(seen)
    && forall id :: id in m ==> FirstIs(seen, id, m[id].first) && m[id].samples == AssetEvents(seen, id)
  }

  ghost predicate FirstIs(seen: seq<map<AssetKey, AssetProfile>>, id: string, first: Time) {
    && (exists i, k :: 0 <= i < |seen| && k in seen[i] && Counts(seen[i][k], id) && seen[i][k].firstSeen == first)
    && (forall i, k :: 0 <= i < |seen| && k in seen[i] && Counts(seen[i][k], id) ==> first <= seen[i][k].firstSeen)
  }

  function Absorb(m: map<string, Aggregate>, p: AssetProfile): map<string, Aggregate> {
    if p.key.context == "maintenance" then m
    else
      var events := p.inbound.events + p.outbound.events;
      var id := p.key.assetID;
      if id !in m then m[id := Aggregate(p.firstSeen, events)]
      else m[id := Aggregate(if p.firstSeen < m[id].first then p.firstSeen else m[id].first, m[id].samples + events)]
  }

  lemma LastShardEvents(before: seq<map<AssetKey, AssetProfile>>, row: map<AssetKey, AssetProfile>, id: string)
    ensures AssetEvents(before + [row], id) == AssetEvents(before, id) + ShardEvents(row, id)
  {
    assert (before + [row])[..|before|] == before;
  }

  lemma PutShardEvents(row: map<AssetKey, AssetProfile>, k: AssetKey, p: AssetProfile, id: string)
    requires k !in row
    ensures ShardEvents(row[k := p], id) == ShardEvents(row, id) + EventsFor(p, id)
  {
    TotalInsert(Contributions(row, id), k, EventsFor(p, id));
    assert Contributions(row[k := p], id) == Contributions(row, id)[k := EventsFor(p, id)];
  }

  lemma {:induction false} NoEvents(events: map<AssetKey, nat>)
    requires forall k :: k in events ==> events[k] == 0
    ensures Total(events) == 0
    decreases |events|
  {
    if events != map[] {
      var k :| k in events;
      SizeRemove(events, k);
      TotalRemove(events, k);
      NoEvents(events - {k});
    }
  }

  lemma {:induction false} AbsentAssetHasNoEvents(seen: seq<map<AssetKey, AssetProfile>>, id: string)
    requires id !in AssetIds(seen)
    ensures AssetEvents(seen, id) == 0
  {
    if seen != [] {
      var n := |seen| - 1;
      forall i, k | 0 <= i < n && k in seen[..n][i] ensures !Counts(seen[..n][i][k], id) { assert k in seen[i]; }
      AbsentAssetHasNoEvents(seen[..n], id);
      NoEvents(Contributions(seen[n], id));
    }
  }

  lemma AbsorbIds(before: seq<map<AssetKey, AssetProfile>>, row: map<AssetKey, AssetProfile>, k: AssetKey, p: AssetProfile)
    requires k !in row
    ensures AssetIds(before + [row[k := p]])
         == AssetIds(before + [row]) + if p.key.context == "maintenance" then {} else {p.key.assetID}
  {
    var a, b := before + [row], before + [row[k := p]];
    forall i, j | 0 <= i < |a| && j in a[i] ensures j in b[i] && b[i][j] == a[i][j] {}
    assert k in b[|before|] && b[|before|][k] == p;
    forall i, j | 0 <= i < |b| && j in b[i] ensures (i == |before| && j == k) || (j in a[i] && a[i][j] == b[i][j]) {}
  }

  /** `first` is the earliest start among the asset's profiles, and one of them starts then. */
  lemma FirstStays(a: seq<map<AssetKey, AssetProfile>>, b: seq<map<AssetKey, AssetProfile>>, id: string, first: Time)
    requires FirstIs(a, id, first) && |b| >= |a|
    requires forall i, k :: 0 <= i < |a| && k in a[i] ==> k in b[i] && b[i][k] == a[i][k]
    ensures exists i, k :: 0 <= i < |b| && k in b[i] && Counts(b[i][k], id) && b[i][k].firstSeen == first
  {
    hide Counts;
    var i, k :| 0 <= i < |a| && k in a[i] && Counts(a[i][k], id) && a[i][k].firstSeen == first;
    assert k in b[i] && b[i][k] == a[i][k];
  }

  lemma CountedIsListed(a: seq<map<AssetKey, AssetProfile>>, id: string, i: nat, k: AssetKey)
    requires i < |a| && k in a[i] && Counts(a[i][k], id)
    ensures id in AssetIds(a)
  {
  }

  lemma AbsorbFirst(before: seq<map<AssetKey, AssetProfile>>, row: map<AssetKey, AssetProfile>, k: AssetKey,
                    p: AssetProfile, id: string, first: Time)
    requires k !in row
    requires if id in AssetIds(before + [row]) then FirstIs(before + [row], id, first) else Counts(p, id)
    ensures FirstIs(before + [row[k := p]], id,
                    if !Counts(p, id) then first
                    else if id !in AssetIds(before + [row]) || p.firstSeen < first then p.firstSeen else first)
  {
    hide Counts, AssetIds;
    var a, b := before + [row], before + [row[k := p]];
    assert k in b[|before|] && b[|before|][k] == p;
    forall i, j | 0 <= i < |a| && j in a[i] ensures j in b[i] && b[i][j] == a[i][j] {}
    forall i, j | 0 <= i < |b| && j in b[i] && Counts(b[i][j], id)
      ensures (i == |before| && j == k) || (id in AssetIds(a) && first <= b[i][j].firstSeen)
    {
      if !(i == |before| && j == k) {
        assert j in a[i] && a[i][j] == b[i][j];
        CountedIsListed(a, id, i, j);
      }
    }
    if id in AssetIds(a) { FirstStays(a, b, id, first); }
  }

  /** Absorbing one more profile keeps the aggregates exact. */
  lemma AbsorbStep(m: map<string, Aggregate>, before: seq<map<AssetKey, AssetProfile>>, row: map<AssetKey, AssetProfile>,
                   k: AssetKey, p: AssetProfile)
    requires Aggregated(m, before + [row]) && k !in row
    ensures Aggregated(Absorb(m, p), before + [row[k := p]])
  {
    hide FirstIs, AssetIds, AssetEvents, ShardEvents;
    var m' := Absorb(m, p);
    AbsorbIds(before, row, k, p);
    forall id | id in m'
      ensures FirstIs(before + [row[k := p]], id, m'[id].first)
      ensures m'[id].samples == AssetEvents(before + [row[k := p]], id)
    {
      AbsorbFirst(before, row, k, p, id, if id in m then m[id].first else 0);
      LastShardEvents(before, row, id);
      LastShardEvents(before, row[k := p], id);
      PutShardEvents(row, k, p, id);
      if id !in m { AbsentAssetHasNoEvents(before + [row], id); }
    }
  }

  lemma EmptyRowFirst(before: seq<map<AssetKey, AssetProfile>>, id: string, first: Time)
    requires FirstIs(before, id, first)
    ensures FirstIs(before + [map[]], id, first)
  {
    var seen := before + [map[]];
    var i, k :| 0 <= i < |before| && k in before[i] && Counts(before[i][k], id) && before[i][k].firstSeen == first;
    assert k in seen[i] && seen[i][k] == before[i][k];
  }

  lemma EmptyRowIds(before: seq<map<AssetKey, AssetProfile>>)
    ensures AssetIds(before + [map[]]) == AssetIds(before)
  {
    var seen := before + [map[]];
    forall i, k | 0 <= i < |seen| && k in seen[i] ensures i < |before| && k in before[i] && before[i][k] == seen[i][k] {}
    forall i, k | 0 <= i < |before| && k in before[i] ensures k in seen[i] && before[i][k] == seen[i][k] {}
  }

  lemma EmptyRowChangesNothing(m: map<string, Aggregate>, before: seq<map<AssetKey, AssetProfile>>)
    requires Aggregated(m, before)
    ensures Aggregated(m, before + [map[]])
  {
    hide FirstIs, AssetIds, AssetEvents;
    EmptyRowIds(before);
    forall id | id in m ensures FirstIs(before + [map[]], id, m[id].first) && m[id].samples == AssetEvents(before + [map[]], id) {
      EmptyRowFirst(before, id, m[id].first);
      LastShardEvents(before, map[], id);
      NoEvents(Contributions(map[], id));
    }
  }

  method AggregateAssets(shards: seq<map<AssetKey, AssetProfile>>) returns (byAsset: map<string, Aggregate>)
    ensures Aggregated(byAsset, shards)
  {
    byAsset := map[];
    for i := 0 to |shards|
      invariant Aggregated(byAsset, shards[..i])
    {
      byAsset := AggregateShard(shards[i], byAsset, shards[..i]);
      assert shards[..i] + [shards[i]] == shards[..i+1];
    }
    assert shards[..|shards|] == shards;
  }

  method AggregateShard(row: map<AssetKey, AssetProfile>, start: map<string, Aggregate>,
                        ghost before: seq<map<AssetKey, AssetProfile>>)
    returns (byAsset: map<string, Aggregate>)
    requires Aggregated(start, before)
    ensures Aggregated(byAsset, before + [row])
  {
    hide Aggregated;
    byAsset := start;
    var keys := row.Keys;
    ghost var done: map<AssetKey, AssetProfile> := map[];
    EmptyRowChangesNothing(byAsset, before);
    while keys != {}
      invariant keys <= row.Keys && done.Keys == row.Keys - keys
      invariant forall k :: k in done ==> done[k] == row[k]
      invariant Aggregated(byAsset, before + [done])
    {
      var k :| k in keys;
      AbsorbStep(byAsset, before, done, k, row[k]);
      byAsset := Absorb(byAsset, row[k]);
      done := done[k := row[k]];
      keys := keys - {k};
    }
    assert done == row;
  }

  lemma WholeOrMore(q: real, d: real)
    requires d > 0.0
    ensures q >= 1.0 <==> q * d >= d
  {
    var r := q - 1.0;
    assert q * d == r * d + d;
    if r >= 0.0 { assert r * d >= 0.0; } else { assert (-r) * d > 0.0; }
  }

  lemma AtLeastOneWhole(x: real, d: real)
    requires d > 0.0
    ensures AtMostOne(x / d) >= 1.0 <==> x >= d
  {
    Quotient(x, d);
    WholeOrMore(x / d, d);
  }

  /** Both scores saturate exactly when the asset is mature. */
  lemma ScoresDecideMaturity(c: Config, st: State, id: string, a: Aggregate, now: int)
    requires ValidConfig(c) && FirstIs(st.assetShards, id, a.first) && a.samples == AssetEvents(st.assetShards, id)
    ensures Mature(c, st, id, now) <==> (
              && AtMostOne((now - a.first) as real / c.minAssetAge as real) >= 1.0
              && AtMostOne(a.samples as real / c.minAssetSamples as real) >= 1.0)
  {
    hide AtMostOne, AssetEvents;
    AtLeastOneWhole((now - a.first) as real, c.minAssetAge as real);
    AtLeastOneWhole(a.samples as real, c.minAssetSamples as real);
    if now - a.first >= c.minAssetAge {
      var i, k :| 0 <= i < |st.assetShards| && k in st.assetShards[i] && Counts(st.assetShards[i][k], id)
               && st.assetShards[i][k].firstSeen == a.first;
      assert Aged(c, st, id, now);
    }
    assert Aged(c, st, id, now) <==> now - a.first >= c.minAssetAge;
    assert AtMostOne((now - a.first) as real / c.minAssetAge as real) >= 1.0 <==> now - a.first >= c.minAssetAge;
    assert AtMostOne(a.samples as real / c.minAssetSamples as real) >= 1.0 <==> a.samples >= c.minAssetSamples;
  }

  lemma AggregatedKeys(m: map<string, Aggregate>, seen: seq<map<AssetKey, AssetProfile>>)
    requires Aggregated(m, seen)
    ensures m.Keys == AssetIds(seen)
  {
  }

  lemma LearnFlowShape(c: Config, st: State, v: Sample, victim: Key)
    ensures |LearnFlow(c, st, v, victim).shards| == |st.shards|
    ensures |LearnFlow(c, st, v, victim).assetShards| == |st.assetShards|
  {
    hide FlowRow, Gauge, Remembered;
  }

  lemma LearnAssetShape(c: Config, st: State, v: Sample, asset: string, peer: string, ip: string, peerIP: string,
                        inbound: bool, victim: AssetKey)
    ensures |LearnAsset(c, st, v, asset, peer, ip, peerIP, inbound, victim).assetShards| == |st.assetShards|
  {
    hide AssetRow, Gauge;
  }

  /** The state once the clock runs and the observation is counted. */
  function Counted(st: State, v: Sample): State {
    StartedBy(st, v.at).(observed := st.observed + 1)
  }

  lemma CountedState(c: Config, st: State, v: Sample)
    requires ValidConfig(c)
    ensures Good(c, st) ==> Good(c, Counted(st, v))
    ensures ModeAt(c, Counted(st, v), v.at) == ModeAt(c, StartedBy(st, v.at), v.at)
  {
    hide ModeAt, FlowsPlaced, AssetsPlaced, CandidatesGood;
    SameModeWithoutTables(c, StartedBy(st, v.at), Counted(st, v), v.at);
  }

  lemma SameQuarantine(st: State, counted: State, key: Key, now: Time)
    requires counted.exclusions == st.exclusions
    ensures Quarantined(counted, key, now) == Quarantined(st, key, now)
    ensures Quarantined(StartedBy(st, now), key, now) == Quarantined(st, key, now)
  {
    hide StoredExcludes;
  }

  lemma PurgeIsNoLearningChoice(c: Config, st: State, v: Sample, w: Choice, purged: set<ExclusionKey>)
    ensures Learn(c, st, v, w.(purged := purged)) == Learn(c, st, v, w)
    ensures LegalLearn(c, st, v, w.(purged := purged)) == LegalLearn(c, st, v, w)
  {
    hide LearnFlow, LearnAsset, FlowFull, AssetFull, OldestFlow, OldestAsset;
  }

  lemma ScannedState(c: Config, st: State, v: Sample, w: Choice)
    requires ValidConfig(c)
    ensures Scanned(c, st, v, w) == if ModeAt(c, StartedBy(st, v.at), v.at) == Learning
              then Counted(st, v).(exclusions := st.exclusions - w.purged) else Counted(st, v)
  {
    hide ModeAt;
  }

  lemma OutcomeCases(c: Config, st: State, v: Sample)
    requires ValidConfig(c)
    ensures OutcomeOf(c, st, v) ==
              if ModeAt(c, StartedBy(st, v.at), v.at) == Learning then
                (if Quarantined(StartedBy(st, v.at), v.key, v.at) then Refused
                 else if ReviewOnly(c, v.key) then Shadowed else Trusted)
              else if HasTrusted(c, StartedBy(st, v.at), v.key) then Dropped else Shadowed
  {
  }

  ghost predicate PurgedLegally(st: State, w: Choice, now: Time, all: bool) {
    && (forall x :: x in w.purged ==> x in st.exclusions && Expired(st.exclusions[x], now))
    && (all ==> forall x :: x in st.exclusions && Expired(st.exclusions[x], now) ==> x in w.purged)
  }

  lemma RefusedStep(c: Config, st: State, v: Sample, w: Choice)
    requires ValidConfig(c) && OutcomeOf(c, st, v) == Refused && PurgedLegally(st, w, v.at, false)
    ensures LegalChoice(c, st, v, w)
    ensures Observed(c, st, v, w) == Scanned(c, st, v, w).(excluded := Scanned(c, st, v, w).excluded + 1)
  {
    hide OutcomeOf, ModeAt, Scanned;
  }

  lemma DroppedStep(c: Config, st: State, v: Sample, w: Choice)
    requires ValidConfig(c) && OutcomeOf(c, st, v) == Dropped && w.purged == {}
    requires ModeAt(c, StartedBy(st, v.at), v.at) == Monitoring
    ensures LegalChoice(c, st, v, w)
    ensures Observed(c, st, v, w) == Scanned(c, st, v, w).(dropped := Scanned(c, st, v, w).dropped + 1)
  {
    hide OutcomeOf, ModeAt, Scanned;
  }

  lemma ShadowedStep(c: Config, st: State, v: Sample, w: Choice, scanned: State)
    requires ValidConfig(c) && OutcomeOf(c, st, v) == Shadowed && scanned == Scanned(c, st, v, w)
    requires PurgedLegally(st, w, v.at, ModeAt(c, StartedBy(st, v.at), v.at) == Learning)
    requires CandidatesFull(c, scanned, v.key) ==> OldestCandidate(scanned.candidates, w.candidate)
    ensures LegalChoice(c, st, v, w)
    ensures Observed(c, st, v, w) == Shadow(c, scanned, v, true, ReviewReason(c, v.key), w.candidate)
  {
    hide OutcomeOf, ModeAt, Shadow, OldestCandidate;
  }

  lemma TrustedStep(c: Config, st: State, v: Sample, learned: Choice, w: Choice, scanned: State)
    requires ValidConfig(c) && OutcomeOf(c, st, v) == Trusted && scanned == Scanned(c, st, v, w)
    requires PurgedLegally(st, w, v.at, true)
    requires LegalLearn(c, scanned, v, learned) && w == learned.(purged := w.purged)
    ensures LegalChoice(c, st, v, w)
    ensures Observed(c, st, v, w) == Learn(c, scanned, v, learned)
  {
    hide OutcomeOf, ModeAt, Learn, LegalLearn, Scanned;
    PurgeIsNoLearningChoice(c, scanned, v, learned, w.purged);
  }

  predicate Productive(p: AssetProfile) { p.key.context == "production" || p.key.context == "" }

  ghost function ShardBuckets(row: map<AssetKey, AssetProfile>): set<nat> {
    set k | k in row && Productive(row[k]) :: row[k].key.timeBucket
  }

  lemma BucketsOfPrefix(shards: seq<map<AssetKey, AssetProfile>>, i: nat)
    requires i < |shards|
    ensures Buckets(shards[..i+1]) == Buckets(shards[..i]) + ShardBuckets(shards[i])
  {
    var a, b := shards[..i], shards[..i+1];
    forall j, k | 0 <= j < |a| && k in a[j] ensures k in b[j] && b[j][k] == a[j][k] {}
    assert b[i] == shards[i];
    forall j, k | 0 <= j < |b| && k in b[j] ensures j == i || (k in a[j] && a[j][k] == b[j][k]) {}
  }

  lemma NoBuckets()
    ensures Buckets([]) == {}
  {
  }

  method CollectBuckets(row: map<AssetKey, AssetProfile>) returns (buckets: set<nat>)
    ensures buckets == ShardBuckets(row)
  {
    buckets := {};
    var keys := row.Keys;
    while keys != {}
      invariant keys <= row.Keys
      invariant buckets == set k | k in row && k !in keys && Productive(row[k]) :: row[k].key.timeBucket
    {
      var k :| k in keys;
      if Productive(row[k]) { buckets := buckets + {row[k].key.timeBucket}; }
      keys := keys - {k};
    }
  }

  method CountMature(c: Config, ghost st: State, byAsset: map<string, Aggregate>, now: int) returns (mature: nat)
    requires ValidConfig(c) && Aggregated(byAsset, st.assetShards)
    ensures mature == |MatureIds(c, st, now)|
  {
    hide Mature, AtMostOne, AssetIds, FirstIs, AssetEvents;
    var ids := byAsset.Keys;
    mature := 0;
    ghost var found: set<string> := {};
    while ids != {}
      invariant ids <= byAsset.Keys
      invariant mature == |found|
      invariant found == set id | id in byAsset.Keys - ids && Mature(c, st, id, now)
    {
      var id :| id in ids;
      var a := byAsset[id];
      var ageScore := AtMostOne((now - a.first) as real / c.minAssetAge as real);
      var sampleScore := AtMostOne(a.samples as real / c.minAssetSamples as real);
      ScoresDecideMaturity(c, st, id, a, now);
      if ageScore >= 1.0 && sampleScore >= 1.0 {
        mature := mature + 1;
        found := found + {id};
      }
      ids := ids - {id};
    }
    assert found == MatureIds(c, st, now);
  }

  /** The scan for the entry to evict: the first one it meets, then any older one. */
  method OldestKey<K(==)>(seen: map<K, Time>) returns (oldest: K)
    requires seen.Keys != {}
    ensures Oldest(seen, oldest)
  {
    var keys := seen.Keys;
    oldest :| oldest in seen;
    var time: Time := 0;
    while keys != {}
      invariant keys <= seen.Keys
      invariant oldest in seen && (time != 0 ==> seen[oldest] == time)
      invariant (forall j :: j in seen ==> seen[j] != 0) ==>
                  && (time == 0 ==> keys == seen.Keys)
                  && (forall j :: j in seen && j !in keys ==> seen[oldest] <= seen[j])
    {
      var k :| k in keys;
      if time == 0 || seen[k] < time {
        oldest, time := k, seen[k];
      }
      keys := keys - {k};
    }
  }

  /** Looks the flow up in its shard, making room and a new profile when it is not there, and updates it. */
  method AdmitFlow(m: map<Key, Profile>, v: Sample, capacity: nat)
    returns (row: map<Key, Profile>, created: bool, full: bool, victim: Key)
    requires capacity > 0
    ensures created == (v.key !in m) && full == (created && |m| >= capacity)
    ensures full ==> OldestFlow(m, victim)
    ensures row == FlowRow(m, v, full, victim)
  {
    hide UpdateProfile, Oldest;
    row, victim := m, v.key;
    created, full := v.key !in m, false;
    if created {
      if |row| >= capacity {
        full := true;
        assert row.Keys != {};
        victim := OldestKey(FlowTimes(row));
        row := row - {victim};
      }
      row := row[v.key := NewProfile(v.key, v.at)];
    }
    row := row[v.key := UpdateProfile(row[v.key], v)];
  }

  method AdmitAsset(m: map<AssetKey, AssetProfile>, key: AssetKey, v: Sample, peer: string, assetIP: string,
                    peerIP: string, inbound: bool, capacity: nat)
    returns (row: map<AssetKey, AssetProfile>, created: bool, full: bool, victim: AssetKey)
    requires capacity > 0
    ensures created == (key !in m) && full == (created && |m| >= capacity)
    ensures full ==> OldestAsset(m, victim)
    ensures row == AssetRow(m, key, v, peer, assetIP, peerIP, inbound, full, victim)
  {
    hide UpdateAsset, Oldest;
    row, victim := m, key;
    created, full := key !in m, false;
    if created {
      if |row| >= capacity {
        full := true;
        assert row.Keys != {};
        victim := OldestKey(AssetTimes(row));
        row := row - {victim};
      }
      row := row[key := NewAssetProfile(key, v.at, 0)];
    }
    row := row[key := UpdateAsset(row[key], v, peer, assetIP, peerIP, inbound)];
  }

  // ---------- Steps of promotion and exclusion ----------

  /** Goodness looks only at the tables. */
  lemma GoodTables(c: Config, a: State, b: State)
    requires Good(c, a)
    requires b.shards == a.shards && b.assetShards == a.assetShards && b.candidates == a.candidates
    requires forall id :: id in b.failures ==> b.failures[id].id == id
    ensures Good(c, b)
  {
    hide FlowsPlaced, AssetsPlaced, CandidatesGood;
  }

  lemma UnpromotedState(c: Config, st: State, id: CandidateId, now: Time)
    requires PromoteVerdict(c, st, id) != Promoted
    ensures Promote(c, st, id, now) == st
  {
  }

  lemma PromotedState(c: Config, st: State, id: CandidateId, now: Time)
    requires PromoteVerdict(c, st, id) == Promoted
    ensures var x := st.candidates[id];
            var s0 := st.(candidates := st.candidates - {id}, promoted := st.promoted[id := now], failures := st.failures - {id});
            var events := if x.observations == 0 then 1 else x.observations;
            var s2 := SeedAsset(c, TrustProfile(c, s0, x.key, x.profile), x.key, x.lastSeen, x.srcAsset, x.dstAsset, false, events);
            var s3 := SeedAsset(c, s2, x.key, x.lastSeen, x.dstAsset, x.srcAsset, true, events);
            Promote(c, st, id, now) == s3.(revision := s3.revision + 1)
  {
    hide SeedAsset, TrustProfile, PromoteVerdict;
  }

  lemma GoodShape(c: Config, st: State)
    requires Good(c, st)
    ensures |st.shards| == SHARDS && |st.assetShards| == SHARDS
  {
  }

  lemma TrustShape(c: Config, st: State, key: Key, p: Profile)
    ensures |TrustProfile(c, st, key, p).assetShards| == |st.assetShards|
  {
    hide Gauge;
  }

  lemma SeedShape(c: Config, st: State, key: Key, at: Time, asset: string, peer: string, inbound: bool, events: nat)
    ensures |SeedAsset(c, st, key, at, asset, peer, inbound, events).assetShards| == |st.assetShards|
  {
    hide SeedRow, Gauge;
  }

  lemma DisqualifiedGood(c: Config, st: State, e: Exclusion, now: Time)
    requires Good(c, st)
    ensures Good(c, Disqualified(st, e, now))
  {
    hide FlowsPlaced, AssetsPlaced, CandidatesGood, Quarantine;
    QuarantineGood(st.candidates, e);
  }

  method QuarantineAll(m: map<CandidateId, Candidate>, e: Exclusion) returns (r: map<CandidateId, Candidate>)
    ensures r == map id | id in m :: Quarantine(m[id], e)
  {
    hide Excludes;
    r := m;
    var ids := m.Keys;
    while ids != {}
      invariant ids <= m.Keys && r.Keys == m.Keys
      invariant forall id :: id in m ==> r[id] == if id in ids then m[id] else Quarantine(m[id], e)
    {
      var id :| id in ids;
      if Excludes(e, m[id].key) {
        r := r[id := r[id].(eligible := false, reason := e.reason)];
      }
      ids := ids - {id};
    }
  }

  method CleanShard(m: map<Key, Profile>, e: Exclusion) returns (r: map<Key, Profile>, removed: nat)
    ensures r == Cleansed(m, e) && removed == |set k | k in m && Excludes(e, k)|
  {
    hide Excludes;
    r, removed := m, 0;
    var keys := m.Keys;
    ghost var gone: set<Key> := {};
    while keys != {}
      invariant keys <= m.Keys
      invariant gone == set k | k in m && k !in keys && Excludes(e, k)
      invariant r == m - gone && removed == |gone|
    {
      var k :| k in keys;
      if Excludes(e, k) {
        r := r - {k};
        removed := removed + 1;
        gone := gone + {k};
      }
      keys := keys - {k};
    }
    assert gone == set k | k in m && Excludes(e, k);
    assert r == Cleansed(m, e);
  }

  method CleanShards(shards: seq<map<Key, Profile>>, e: Exclusion) returns (r: seq<map<Key, Profile>>, removed: nat)
    ensures r == CleansedAll(shards, e) && removed == Deleted(shards, e)
  {
    hide Cleansed, Excludes;
    r, removed := [], 0;
    for i := 0 to |shards|
      invariant |r| == i && forall j :: 0 <= j < i ==> r[j] == Cleansed(shards[j], e)
      invariant removed == Deleted(shards[..i], e)
    {
      assert shards[..i+1][..i] == shards[..i];
      var row, n := CleanShard(shards[i], e);
      r, removed := r + [row], removed + n;
    }
    assert shards[..|shards|] == shards;
  }

  method ForgetInShards(shards: seq<map<AssetKey, AssetProfile>>, a: string, b: string)
    returns (r: seq<map<AssetKey, AssetProfile>>)
    ensures r == ForgetAll(shards, a, b)
  {
    hide ForgetPeers;
    r := [];
    for i := 0 to |shards|
      invariant |r| == i && forall j :: 0 <= j < i ==> r[j] == ForgetPeers(shards[j], a, b)
    {
      var row := ForgetInShard(shards[i], a, b);
      r := r + [row];
    }
  }

  method ForgetInShard(m: map<AssetKey, AssetProfile>, a: string, b: string) returns (r: map<AssetKey, AssetProfile>)
    ensures r == ForgetPeers(m, a, b)
  {
    r := m;
    var keys := m.Keys;
    while keys != {}
      invariant keys <= m.Keys && r.Keys == m.Keys
      invariant forall k :: k in m ==> r[k] == if k in keys then m[k] else ForgetPeer(m[k], a, b)
    {
      var k :| k in keys;
      r := r[k := ForgetPeer(r[k], a, b)];
      keys := keys - {k};
    }
  }

  lemma GoodFailures(c: Config, st: State)
    requires Good(c, st)
    ensures forall id :: id in st.failures ==> st.failures[id].id == id
  {
  }

  lemma PrunedGood(c: Config, st: State, now: Time)
    requires Good(c, st)
    ensures Good(c, Pruned(st, now))
  {
    GoodTables(c, st, Pruned(st, now));
  }

  // ---------- Listing for a snapshot ----------

  /** Appending another shard's entries keeps a listing free of repetition. */
  lemma AppendShard<P>(xs: seq<P>, row: seq<P>)
    requires Distinct(xs) && Distinct(row) && forall p :: p in row ==> p !in xs
    ensures Distinct(xs + row)
  {
    var all := xs + row;
    forall i, j | 0 <= i < j < |all| ensures all[i] != all[j] {
      if i < |xs| <= j {
        assert all[j] == row[j - |xs|] && row[j - |xs|] in row;
        assert all[i] == xs[i] && xs[i] in xs;
      }
    }
  }

  method ListFlows(c: Config, ghost st: State, shards: seq<map<Key, Profile>>) returns (xs: seq<Profile>)
    requires st.shards == shards && |shards| == SHARDS && FlowsPlaced(c, shards)
    ensures ListsFlows(c, st, xs)
  {
    hide GoodProfile, Distinct;
    xs := [];
    EmptyDistinct<Profile>();
    for i := 0 to |shards|
      invariant Distinct(xs)
      invariant forall p :: p in xs ==> FlowShard(c, p.key) < i && p.key in shards[FlowShard(c, p.key)] && shards[FlowShard(c, p.key)][p.key] == p
      invariant forall j, k :: 0 <= j < i && k in shards[j] ==> shards[j][k] in xs
    {
      forall k | k in shards[i] ensures FlowShard(c, k) == i && shards[i][k].key == k { FlowAt(c, shards, i, k); }
      var row := ListRow(shards[i]);
      assert forall p :: p in row ==> FlowShard(c, p.key) == i;
      AppendShard<Profile>(xs, row);
      xs := xs + row;
    }
  }

  lemma EmptyDistinct<T>()
    ensures Distinct<T>([])
  {
  }

  method ListRow(m: map<Key, Profile>) returns (xs: seq<Profile>)
    requires forall k :: k in m ==> m[k].key == k
    ensures Distinct(xs)
    ensures forall p :: p in xs <==> p.key in m && m[p.key] == p
  {
    xs := [];
    var keys := m.Keys;
    while keys != {}
      invariant keys <= m.Keys && Distinct(xs)
      invariant forall p :: p in xs <==> p.key in m && p.key !in keys && m[p.key] == p
    {
      var k :| k in keys;
      xs := xs + [m[k]];
      keys := keys - {k};
    }
  }

  method ListAssets(c: Config, ghost st: State, shards: seq<map<AssetKey, AssetProfile>>) returns (xs: seq<AssetProfile>)
    requires st.assetShards == shards && |shards| == SHARDS && AssetsPlaced(c, shards)
    ensures ListsAssets(c, st, xs)
  {
    xs := [];
    for i := 0 to |shards|
      invariant Distinct(xs)
      invariant forall p :: p in xs ==> AssetShard(c, p.key) < i && p.key in shards[AssetShard(c, p.key)] && shards[AssetShard(c, p.key)][p.key] == p
      invariant forall j, k :: 0 <= j < i && k in shards[j] ==> shards[j][k] in xs
    {
      forall k | k in shards[i] ensures AssetShard(c, k) == i && shards[i][k].key == k { AssetPlaced(c, shards, i, k); }
      var row := ListAssetRow(shards[i]);
      xs := xs + row;
    }
  }

  method ListAssetRow(m: map<AssetKey, AssetProfile>) returns (xs: seq<AssetProfile>)
    requires forall k :: k in m ==> m[k].key == k
    ensures Distinct(xs)
    ensures forall p :: p in xs <==> p.key in m && m[p.key] == p
  {
    xs := [];
    var keys := m.Keys;
    while keys != {}
      invariant keys <= m.Keys && Distinct(xs)
      invariant forall p :: p in xs <==> p.key in m && p.key !in keys && m[p.key] == p
    {
      var k :| k in keys;
      xs := xs + [m[k]];
      keys := keys - {k};
    }
  }

  method ListDays(days: set<nat>) returns (xs: seq<nat>)
    ensures Distinct(xs) && (set d | d in xs) == days
  {
    xs := [];
    var left := days;
    while left != {}
      invariant left <= days && Distinct(xs)
      invariant forall d :: d in xs <==> d in days && d !in left
    {
      var d :| d in left;
      xs := xs + [d];
      left := left - {d};
    }
  }

  method ReportCandidate(c: Config, id: CandidateId, x: Candidate) returns (row: CandidateRow, saved: CandidateProfile)
    requires x.id == id
    ensures row.id == id && ReportsCandidate(c, x, row)
    ensures saved.id == id && ReportsProfile(x, saved)
  {
    var days := ListDays(x.days);
    row := CandidateRow(x.id, x.key, x.firstSeen, x.lastSeen, x.observations, |x.days|, days, x.eligible,
                        ReadyForPromotion(c, x), x.reason);
    saved := CandidateProfile(id, x.profile, x.srcAsset, x.dstAsset);
  }

  method ListCandidates(c: Config, ghost st: State, candidates: map<CandidateId, Candidate>)
    returns (rows: seq<CandidateRow>, saved: seq<CandidateProfile>)
    requires st.candidates == candidates && CandidatesGood(candidates)
    ensures ListsCandidates(c, st, rows) && ListsCandidateProfiles(st, saved)
  {
    hide GoodProfile, ReportsCandidate, ReportsProfile;
    rows, saved := [], [];
    var ids := candidates.Keys;
    while ids != {}
      invariant ids <= candidates.Keys
      invariant forall r :: r in rows ==> r.id in candidates && ReportsCandidate(c, candidates[r.id], r)
      invariant forall r :: r in saved ==> r.id in candidates && ReportsProfile(candidates[r.id], r)
      invariant forall id :: id in candidates && id !in ids ==> (exists r :: r in rows && r.id == id)
      invariant forall id :: id in candidates && id !in ids ==> (exists r :: r in saved && r.id == id)
    {
      var id :| id in ids;
      assert GoodCandidate(id, candidates[id]);
      hide GoodCandidate;
      var row, profile := ReportCandidate(c, id, candidates[id]);
      ghost var rows', saved' := rows, saved;
      rows, saved := rows + [row], saved + [profile];
      assert row in rows && profile in saved;
      assert forall r :: r in rows' ==> r in rows;
      assert forall r :: r in saved' ==> r in saved;
      ids := ids - {id};
    }
  }

  method ListRecent<K(!new)>(m: map<K, Time>, cutoff: int) returns (xs: seq<(K, Time)>)
    ensures ListsRecent(m, cutoff, xs)
  {
    xs := [];
    var keys := m.Keys;
    while keys != {}
      invariant keys <= m.Keys
      invariant forall k, t :: (k, t) in xs <==> k in m && k !in keys && m[k] == t && t >= cutoff
    {
      var k :| k in keys;
      if m[k] >= cutoff { xs := xs + [(k, m[k])]; }
      keys := keys - {k};
    }
  }

  method ListFailures(m: map<CandidateId, Failure>, cutoff: int) returns (xs: seq<Failure>)
    requires forall id :: id in m ==> m[id].id == id
    ensures ListsFailures(m, cutoff, xs)
  {
    xs := [];
    var ids := m.Keys;
    while ids != {}
      invariant ids <= m.Keys
      invariant forall f :: f in xs <==> f.id in m && f.id !in ids && m[f.id] == f && f.at >= cutoff
    {
      var id :| id in ids;
      if m[id].at >= cutoff { xs := xs + [m[id]]; }
      ids := ids - {id};
    }
  }

  /** Every address of a restored asset resolves to it again. */
  method ClaimIPs(identities: map<(string, string), string>, p: AssetProfile) returns (r: map<(string, string), string>)
    ensures r == identities + Claims(p.key.sensor, p.key.assetID, p.ips.Keys)
  {
    r := identities;
    var ips := p.ips.Keys;
    assert p.ips.Keys - ips == {};
    while ips != {}
      invariant ips <= p.ips.Keys
      invariant r == identities + Claims(p.key.sensor, p.key.assetID, p.ips.Keys - ips)
    {
      var ip :| ip in ips;
      ClaimsNext(p.key.sensor, p.key.assetID, p.ips.Keys - ips, ip);
      hide Claims;
      assert p.ips.Keys - (ips - {ip}) == (p.ips.Keys - ips) + {ip};
      r := r[(p.key.sensor, ip) := p.key.assetID];
      ips := ips - {ip};
    }
    assert p.ips.Keys - {} == p.ips.Keys;
  }

  lemma ClaimsNext(sensor: string, id: string, ips: set<string>, ip: string)
    ensures Claims(sensor, id, ips + {ip}) == Claims(sensor, id, ips)[(sensor, ip) := id]
  {
  }

  // ---------- Loading a snapshot ----------

  lemma ClearedState(st: State, v: State)
    requires v.shards == Initial().shards && v.assetShards == Initial().assetShards
    requires v == State(v.shards, v.assetShards, map[], 0, false, map[], map[], map[], map[], [], 0, 0, 0, 0, 0, 0, st.revision + 1)
    ensures v == BaselineSpec.Reset(st)
  {
  }

  lemma ResetGood(c: Config, st: State)
    requires ValidConfig(c)
    ensures Good(c, BaselineSpec.Reset(st)) && BaselineSpec.Reset(st).revision == st.revision + 1
  {
    InitialGood(c);
    GoodTables(c, Initial(), BaselineSpec.Reset(st));
  }

  method EmptyTables() returns (flows: seq<map<Key, Profile>>, assets: seq<map<AssetKey, AssetProfile>>)
    ensures flows == Initial().shards && assets == Initial().assetShards
  {
    flows, assets := seq(SHARDS, _ => map[]), seq(SHARDS, _ => map[]);
  }

  method RestoreFlows(c: Config, xs: seq<Profile>) returns (shards: seq<map<Key, Profile>>, patterns: seq<Time>)
    ensures shards == LoadFlows(c, xs) && patterns == LoadPatterns(xs)
  {
    hide Remembered;
    var flows, _ := EmptyTables();
    shards, patterns := flows, [];
    assert xs[..0] == [];
    for i := 0 to |xs|
      invariant shards == LoadFlows(c, xs[..i]) && patterns == LoadPatterns(xs[..i])
    {
      assert xs[..i+1][..i] == xs[..i];
      var p := xs[i];
      var index := FlowShard(c, p.key);
      shards := shards[index := shards[index][p.key := p]];
      patterns := Engine.RecordPatternCreated(patterns, p.firstSeen);
    }
    assert xs[..|xs|] == xs;
  }

  method RestoreAssets(c: Config, xs: seq<AssetProfile>)
    returns (shards: seq<map<AssetKey, AssetProfile>>, identities: map<(string, string), string>)
    ensures shards == LoadAssets(c, xs) && identities == LoadIdentities(xs)
  {
    var _, assets := EmptyTables();
    shards, identities := assets, map[];
    assert xs[..0] == [];
    for i := 0 to |xs|
      invariant shards == LoadAssets(c, xs[..i]) && identities == LoadIdentities(xs[..i])
    {
      assert xs[..i+1][..i] == xs[..i];
      var p := xs[i];
      var index := AssetShard(c, p.key);
      shards := shards[index := shards[index][p.key := p]];
      identities := ClaimIPs(identities, p);
    }
    assert xs[..|xs|] == xs;
  }

  method RestoreProfiles(xs: seq<CandidateProfile>) returns (m: map<CandidateId, CandidateProfile>)
    ensures m == LoadProfiles(xs)
  {
    m := map[];
    for i := 0 to |xs|
      invariant m == LoadProfiles(xs[..i])
    {
      assert xs[..i+1][..i] == xs[..i];
      m := m[xs[i].id := xs[i]];
    }
    assert xs[..|xs|] == xs;
  }

  method RestoreCandidates(xs: seq<CandidateRow>, saved: map<CandidateId, CandidateProfile>)
    returns (m: map<CandidateId, Candidate>)
    ensures m == LoadCandidates(xs, saved)
  {
    hide LoadCandidate;
    m := map[];
    for i := 0 to |xs|
      invariant m == LoadCandidates(xs[..i], saved)
    {
      assert xs[..i+1][..i] == xs[..i];
      m := m[xs[i].id := LoadCandidate(xs[i], saved)];
    }
    assert xs[..|xs|] == xs;
  }

  method RestoreRecent<K(==)>(xs: seq<(K, Time)>, cutoff: int) returns (m: map<K, Time>)
    ensures m == LoadRecent(xs, cutoff)
  {
    m := map[];
    for i := 0 to |xs|
      invariant m == LoadRecent(xs[..i], cutoff)
    {
      assert xs[..i+1][..i] == xs[..i];
      if xs[i].1 >= cutoff { m := m[xs[i].0 := xs[i].1]; }
    }
    assert xs[..|xs|] == xs;
  }

  method RestoreFailures(xs: seq<Failure>, cutoff: int) returns (m: map<CandidateId, Failure>)
    ensures m == LoadFailures(xs, cutoff)
  {
    m := map[];
    for i := 0 to |xs|
      invariant m == LoadFailures(xs[..i], cutoff)
    {
      assert xs[..i+1][..i] == xs[..i];
      if xs[i].at >= cutoff { m := m[xs[i].id := xs[i]]; }
    }
    assert xs[..|xs|] == xs;
  }

  method RestoreExclusions(xs: seq<(ExclusionKey, Time)>, now: Time) returns (m: map<ExclusionKey, Time>)
    ensures m == LoadExclusions(xs, now)
  {
    m := map[];
    for i := 0 to |xs|
      invariant m == LoadExclusions(xs[..i], now)
    {
      assert xs[..i+1][..i] == xs[..i];
      if xs[i].1 == 0 || xs[i].1 > now { m := m[xs[i].0 := xs[i].1]; }
    }
    assert xs[..|xs|] == xs;
  }

  class Engine {
    const config: Config
    var shards: seq<map<Key, Profile>>
    var assetShards: seq<map<AssetKey, AssetProfile>>
    var identityByIP: map<(string, string), string>
    var learningStarted: Time
    var learningComplete: bool
    var candidates: map<CandidateId, Candidate>
    var promoted: map<CandidateId, Time>
    var promotionFailures: map<CandidateId, Failure>
    var exclusions: map<ExclusionKey, Time>
    var patternCreated: seq<Time>
    var profiles: nat
    var assetProfiles: nat
    var observed: nat
    var dropped: nat
    var excluded: nat
    var evicted: nat
    var revision: nat

    ghost function View(): State reads this {
      State(shards, assetShards, identityByIP, learningStarted, learningComplete, candidates, promoted,
            promotionFailures, exclusions, patternCreated, profiles, assetProfiles, observed, dropped, excluded,
            evicted, revision)
    }

    ghost predicate Valid() reads this {
      ValidConfig(config) && Good(config, View())
    }

    constructor (c: Config)
      requires ValidConfig(c)
      ensures Valid() && config == c && View() == Initial()
    {
      config := c;
      shards, assetShards := seq(SHARDS, _ => map[]), seq(SHARDS, _ => map[]);
      identityByIP, learningStarted, learningComplete := map[], 0, false;
      candidates, promoted, promotionFailures, exclusions, patternCreated := map[], map[], map[], map[], [];
      profiles, assetProfiles, observed, dropped, excluded, evicted, revision := 0, 0, 0, 0, 0, 0, 0;
      new;
      assert View() == Initial();
    }

    // ---------- Reading ----------

    method HasTrustedKey(key: Key) returns (known: bool)
      requires Valid()
      ensures known == HasTrusted(config, View(), key)
    {
      hide Good;
      if key in Row(shards, FlowShard(config, key)) { return true; }
      for i := 0 to |shards|
        invariant forall j, k :: 0 <= j < i && k in shards[j] ==> !SameFlowAndBucket(k, key)
      {
        var keys := shards[i].Keys;
        while keys != {}
          invariant keys <= shards[i].Keys
          invariant forall k :: k in shards[i] && k !in keys ==> !SameFlowAndBucket(k, key)
        {
          var k :| k in keys;
          if SameFlowAndBucket(k, key) { return true; }
          keys := keys - {k};
        }
      }
      return false;
    }

    /** How many assets have learned profiles, and how many of them are mature. */
    method AssetMaturities(now: int) returns (total: nat, mature: nat)
      requires Valid()
      ensures total == |AssetIds(assetShards)| && mature == |MatureIds(config, View(), now)|
    {
      hide Good, AssetIds, MatureIds;
      var byAsset := AggregateAssets(assetShards);
      AggregatedKeys(byAsset, assetShards);
      assert |byAsset| == |byAsset.Keys|;
      total := |byAsset|;
      mature := CountMature(config, View(), byAsset, now);
    }

    method TimeCoverage() returns (coverage: real)
      requires Valid()
      ensures coverage == BaselineSpec.TimeCoverage(config, View())
    {
      hide Good, ShardBuckets, Buckets;
      var buckets: set<nat> := {};
      NoBuckets();
      for i := 0 to |assetShards|
        invariant buckets == Buckets(assetShards[..i])
      {
        var more := CollectBuckets(assetShards[i]);
        BucketsOfPrefix(assetShards, i);
        buckets := buckets + more;
      }
      assert assetShards[..|assetShards|] == assetShards;
      coverage := AtMostOne(|buckets| as real / BucketsPerDay(config) as real);
    }

    method NewPatternRate(now: int) returns (rate: real)
      ensures rate == Novelty(config, View(), now)
    {
      var cutoff := now - NoveltyWindow(config);
      var recent := 0;
      for i := 0 to |patternCreated|
        invariant recent == Recent(patternCreated[..i], cutoff)
      {
        assert patternCreated[..i+1][..i] == patternCreated[..i];
        if patternCreated[i] >= cutoff { recent := recent + 1; }
      }
      assert patternCreated[..|patternCreated|] == patternCreated;
      rate := if |patternCreated| == 0 then 0.0 else recent as real / |patternCreated| as real;
    }

    method Readiness(now: int) returns (readiness: real, ready: bool)
      requires Valid()
      ensures readiness == BaselineSpec.Readiness(config, View(), now)
      ensures ready == Ready(config, View(), now)
    {
      hide Good, AssetIds, MatureIds, Novelty, BaselineSpec.TimeCoverage, AtMostOne;
      if learningStarted == 0 { return 0.0, false; }
      var elapsed := now - learningStarted;
      var durationScore := AtMostOne(elapsed as real / config.learningDuration as real);
      var total, mature := AssetMaturities(now);
      var maturityRatio := if total > 0 then mature as real / total as real else 0.0;
      assert maturityRatio == Maturity(config, View(), now);
      var coverage := TimeCoverage();
      var novelty := NewPatternRate(now);
      var stability := 1.0 - AtMostOne(novelty / 0.05);
      readiness := AtMostOne(0.35 * durationScore + 0.35 * maturityRatio + 0.15 * coverage + 0.15 * stability);
      ready := elapsed >= config.learningDuration && readiness >= config.readinessThreshold
            && maturityRatio >= 0.75 && novelty <= 0.05;
    }

    method Mode(now: int) returns (mode: Mode)
      requires Valid()
      ensures mode == ModeAt(config, View(), now)
    {
      hide Good, BaselineSpec.Readiness, Ready;
      if learningComplete { return Monitoring; }
      if learningStarted == 0 { return Learning; }
      var elapsed := now - learningStarted;
      if elapsed < config.learningDuration { return Learning; }
      var _, ready := Readiness(now);
      if ready || elapsed >= Deadline(config) { return Monitoring; }
      return Learning;
    }

    // ---------- Learning ----------

    static method RecordPatternCreated(patterns: seq<Time>, at: Time) returns (r: seq<Time>)
      ensures r == Remembered(patterns, at)
    {
      r := patterns + [at];
      if |r| > MAX_PATTERNS {
        r := r[|r|-MAX_PATTERNS..];
      }
    }

    /** The flow half of observeTrusted. */
    method ObserveFlow(v: Sample) returns (ghost victim: Key)
      requires ValidConfig(config) && |shards| == SHARDS
      modifies this
      ensures View() == LearnFlow(config, old(View()), v, victim)
      ensures FlowFull(config, old(View()), v.key) ==> OldestFlow(Row(old(shards), FlowShard(config, v.key)), victim)
    {
      hide FlowRow, Remembered, OldestFlow, Gauge;
      var index := FlowShard(config, v.key);
      var shard, created, full, oldest := AdmitFlow(shards[index], v, Capacity(config.maxProfiles));
      victim := oldest;
      shards := shards[index := shard];
      CountFlow(created, full, v.at);
    }

    /** What the flow table's change does to its gauge, the eviction count and the pattern times. */
    method CountFlow(created: bool, full: bool, at: Time)
      requires full ==> created
      modifies `evicted, `profiles, `patternCreated
      ensures View() == old(View()).(evicted := if full then old(evicted) + 1 else old(evicted),
                                     profiles := Gauge(old(profiles), created, full),
                                     patterns := if created then Remembered(old(patternCreated), at) else old(patternCreated))
    {
      hide Remembered, Up, Down;
      if full {
        evicted := evicted + 1;
        profiles := Down(profiles);
      }
      if created {
        profiles := Up(profiles);
        patternCreated := RecordPatternCreated(patternCreated, at);
      }
    }

    method ObserveAsset(v: Sample, asset: string, peer: string, assetIP: string, peerIP: string, inbound: bool)
      returns (ghost victim: AssetKey)
      requires ValidConfig(config) && |assetShards| == SHARDS
      modifies this
      ensures View() == LearnAsset(config, old(View()), v, asset, peer, assetIP, peerIP, inbound, victim)
      ensures var key := AssetKeyOf(v.key, asset);
              AssetFull(config, old(View()), key) ==> OldestAsset(Row(old(assetShards), AssetShard(config, key)), victim)
    {
      hide AssetRow, OldestAsset, Up, Down;
      var key := AssetKeyOf(v.key, asset);
      var index := AssetShard(config, key);
      var shard, created, full, oldest :=
        AdmitAsset(assetShards[index], key, v, peer, assetIP, peerIP, inbound, Capacity(config.maxAssetProfiles));
      victim := oldest;
      assetShards := assetShards[index := shard];
      if full {
        evicted := evicted + 1;
        assetProfiles := Down(assetProfiles);
      }
      if created {
        assetProfiles := Up(assetProfiles);
      }
    }

    method ObserveTrusted(v: Sample) returns (ghost w: Choice)
      requires ValidConfig(config) && |shards| == SHARDS && |assetShards| == SHARDS
      modifies this
      ensures LegalLearn(config, old(View()), v, w) && View() == Learn(config, old(View()), v, w)
      ensures w.purged == {} && w.candidate == IdOf(v.key)
    {
      hide LearnFlow, LearnAsset, FlowFull, AssetFull, OldestFlow, OldestAsset, Row;
      ghost var source, target := AssetKeyOf(v.key, ""), AssetKeyOf(v.key, "");
      ghost var flow := ObserveFlow(v);
      LearnFlowShape(config, old(View()), v, flow);
      if v.srcAsset != "" {
        source := ObserveAsset(v, v.srcAsset, v.dstAsset, v.key.srcIP, v.key.dstIP, false);
        LearnAssetShape(config, LearnFlow(config, old(View()), v, flow), v, v.srcAsset, v.dstAsset, v.key.srcIP,
                        v.key.dstIP, false, source);
      }
      if v.dstAsset != "" && v.dstAsset != v.srcAsset {
        target := ObserveAsset(v, v.dstAsset, v.srcAsset, v.key.dstIP, v.key.srcIP, true);
      }
      revision := revision + 1;
      w := Choice(flow, source, target, IdOf(v.key), {});
    }

    method ObserveCandidate(v: Sample, eligible: bool, reason: string) returns (ghost victim: CandidateId)
      requires config.maxProfiles > 0
      modifies `candidates
      ensures View() == Shadow(config, old(View()), v, eligible, reason, victim)
      ensures CandidatesFull(config, old(View()), v.key) ==> OldestCandidate(old(candidates), victim)
    {
      hide UpdateProfile;
      var id := IdOf(v.key);
      victim := id;
      var candidate := NewCandidate(v, eligible, reason);
      if id in candidates {
        candidate := candidates[id];
      } else if |candidates| >= config.maxProfiles {
        assert candidates.Keys != {};
        var oldest := OldestKey(CandidateTimes(candidates));
        victim := oldest;
        candidates := candidates - {oldest};
      }
      candidates := candidates[id := UpdateCandidate(candidate, v, eligible, reason)];
    }

    /** Scans the exclusions, forgetting the expired ones it meets before a match. */
    method IsExcluded(key: Key, now: Time) returns (hit: bool, ghost purged: set<ExclusionKey>)
      modifies `exclusions
      ensures hit == Quarantined(old(View()), key, now)
      ensures exclusions == old(exclusions) - purged
      ensures forall x :: x in purged ==> x in old(exclusions) && Expired(old(exclusions)[x], now)
      ensures !hit ==> forall x :: x in old(exclusions) && Expired(old(exclusions)[x], now) ==> x in purged
    {
      hide StoredExcludes;
      purged := {};
      var keys := exclusions.Keys;
      while keys != {}
        invariant keys <= old(exclusions).Keys
        invariant exclusions == old(exclusions) - purged
        invariant purged !! keys
        invariant forall x :: x in purged ==> x in old(exclusions) && Expired(old(exclusions)[x], now)
        invariant forall x :: x in old(exclusions) && x !in keys ==>
                    if Expired(old(exclusions)[x], now) then x in purged else !StoredExcludes(x, key)
      {
        var x :| x in keys;
        keys := keys - {x};
        if Expired(exclusions[x], now) {
          exclusions := exclusions - {x};
          purged := purged + {x};
        } else if StoredExcludes(x, key) {
          return true, purged;
        }
      }
      return false, purged;
    }

    method EnsureStarted(at: Time)
      modifies `learningStarted
      ensures View() == StartedBy(old(View()), at)
    {
      if learningStarted == 0 { learningStarted := at; }
    }

    /** An observation while learning, once it has been counted. */
    method ObserveLearning(v: Sample, ghost start: State) returns (ghost w: Choice)
      requires ValidConfig(config) && |shards| == SHARDS && |assetShards| == SHARDS
      requires View() == Counted(start, v) && ModeAt(config, StartedBy(start, v.at), v.at) == Learning
      modifies this
      ensures LegalChoice(config, start, v, w) && View() == Observed(config, start, v, w)
    {
      hide ModeAt, Learn, LegalLearn, Shadow, Quarantined, OldestCandidate, OutcomeOf, Scanned, LegalChoice, Observed;
      SameQuarantine(start, View(), v.key, v.at);
      OutcomeCases(config, start, v);
      var hit, purged := IsExcluded(v.key, v.at);
      w := Choice(v.key, AssetKeyOf(v.key, ""), AssetKeyOf(v.key, ""), IdOf(v.key), purged);
      ghost var scanned := View();
      ScannedState(config, start, v, w);
      if hit {
        excluded := excluded + 1;
        RefusedStep(config, start, v, w);
      } else if ReviewOnly(config, v.key) {
        ghost var victim := ObserveCandidate(v, true, REVIEW);
        w := w.(candidate := victim);
        ScannedState(config, start, v, w);
        ShadowedStep(config, start, v, w, scanned);
      } else {
        ghost var learned := ObserveTrusted(v);
        w := learned.(purged := purged);
        ScannedState(config, start, v, w);
        TrustedStep(config, start, v, learned, w, scanned);
      }
    }

    method ObserveMonitoring(v: Sample, ghost start: State) returns (ghost w: Choice)
      requires Valid()
      requires View() == Counted(start, v) && ModeAt(config, StartedBy(start, v.at), v.at) == Monitoring
      modifies this
      ensures LegalChoice(config, start, v, w) && View() == Observed(config, start, v, w)
    {
      hide ModeAt, Shadow, OldestCandidate, Good, OutcomeOf, Scanned, LegalChoice, Observed;
      w := Choice(v.key, AssetKeyOf(v.key, ""), AssetKeyOf(v.key, ""), IdOf(v.key), {});
      ghost var scanned := View();
      ScannedState(config, start, v, w);
      OutcomeCases(config, start, v);
      assert HasTrusted(config, View(), v.key) == HasTrusted(config, StartedBy(start, v.at), v.key);
      hide HasTrusted;
      var known := HasTrustedKey(v.key);
      if known {
        dropped := dropped + 1;
        DroppedStep(config, start, v, w);
      } else {
        ghost var victim := ObserveCandidate(v, true, ReviewReason(config, v.key));
        w := w.(candidate := victim);
        ScannedState(config, start, v, w);
        ShadowedStep(config, start, v, w, scanned);
      }
    }

    /** One observation; a sample without a time takes the clock's. */
    method Observe(sample: Sample, clock: Time) returns (ghost v: Sample, ghost w: Choice)
      requires Valid() && clock > 0
      modifies this
      ensures v == if sample.at == 0 then sample.(at := clock) else sample
      ensures LegalChoice(config, old(View()), v, w)
      ensures View() == Observed(config, old(View()), v, w) && Valid()
    {
      hide ModeAt, Observed, LegalChoice;
      var value := if sample.at == 0 then sample.(at := clock) else sample;
      v := value;
      ghost var start := View();
      EnsureStarted(value.at);
      observed := observed + 1;
      CountedState(config, start, value);
      var mode := Mode(value.at);
      if mode == Learning {
        w := ObserveLearning(value, start);
      } else {
        w := ObserveMonitoring(value, start);
      }
      ObservedGood(config, start, value, w);
    }

    // ---------- Operator commands ----------

    /** Adds the promoted relationship to one endpoint's asset profile, whatever the size of its shard. */
    method ObservePromotedAsset(key: Key, at: Time, asset: string, peer: string, inbound: bool, events: nat)
      requires |assetShards| == SHARDS
      modifies this
      ensures View() == SeedAsset(config, old(View()), key, at, asset, peer, inbound, events)
    {
      hide PromoteAsset, Up;
      if asset == "" { return; }
      var k := AssetKeyOf(key, asset);
      var index := AssetShard(config, k);
      var shard := assetShards[index];
      ghost var before := shard;
      if k !in shard {
        shard := shard[k := NewAssetProfile(k, at, at)];
        assetProfiles := Up(assetProfiles);
      }
      shard := shard[k := PromoteAsset(shard[k], key, at, peer, inbound, events)];
      assert shard == SeedRow(before, k, key, at, peer, inbound, events);
      assetShards := assetShards[index := shard];
    }

    /** Moves one shadow candidate into the trusted baseline; promoting a promoted id again succeeds. */
    method PromoteCandidate(id: CandidateId, now: Time) returns (result: PromoteResult)
      requires Valid()
      modifies this
      ensures result == PromoteVerdict(config, old(View()), id)
      ensures View() == Promote(config, old(View()), id, now) && Valid()
    {
      ghost var start := View();
      GoodShape(config, start);
      PromoteGood(config, start, id, now);
      hide Good, Promote;
      if id !in candidates {
        result := if id in promoted then AlreadyPromoted else NotFound;
        UnpromotedState(config, start, id, now);
        return;
      }
      var candidate := candidates[id];
      if !candidate.eligible {
        result := NotEligible(candidate.reason);
        UnpromotedState(config, start, id, now);
        return;
      }
      if candidate.observations < config.candidateMinSamples || candidate.distinctDays < config.candidateMinDays {
        result := NeedsEvidence;
        UnpromotedState(config, start, id, now);
        return;
      }
      MoveToTrusted(id, now);
      result := Promoted;
    }

    method MoveToTrusted(id: CandidateId, now: Time)
      requires |shards| == SHARDS && |assetShards| == SHARDS
      requires PromoteVerdict(config, View(), id) == Promoted
      modifies this
      ensures View() == Promote(config, old(View()), id, now)
    {
      PromotedState(config, View(), id, now);
      var candidate := candidates[id];
      hide SeedAsset, TrustProfile, Promote, PromoteVerdict;
      ghost var start := View();
      TakeCandidate(id, now);
      ghost var taken := View();
      TrustShape(config, taken, candidate.key, candidate.profile);
      StoreTrusted(candidate.key, candidate.profile);
      SeedEndpoints(candidate);
      revision := revision + 1;
    }

    method TakeCandidate(id: CandidateId, now: Time)
      modifies this
      ensures View() == old(View()).(candidates := old(candidates) - {id}, promoted := old(promoted)[id := now],
                                     failures := old(promotionFailures) - {id})
    {
      candidates := candidates - {id};
      promoted := promoted[id := now];
      promotionFailures := promotionFailures - {id};
    }

    method SeedEndpoints(x: Candidate)
      requires |assetShards| == SHARDS
      modifies this
      ensures var events := if x.observations == 0 then 1 else x.observations;
              var s2 := SeedAsset(config, old(View()), x.key, x.lastSeen, x.srcAsset, x.dstAsset, false, events);
              View() == SeedAsset(config, s2, x.key, x.lastSeen, x.dstAsset, x.srcAsset, true, events)
    {
      hide SeedAsset;
      var events := if x.observations == 0 then 1 else x.observations;
      SeedShape(config, View(), x.key, x.lastSeen, x.srcAsset, x.dstAsset, false, events);
      ObservePromotedAsset(x.key, x.lastSeen, x.srcAsset, x.dstAsset, false, events);
      ObservePromotedAsset(x.key, x.lastSeen, x.dstAsset, x.srcAsset, true, events);
    }

    /** Overwrites whatever trusted profile the key already had. */
    method StoreTrusted(key: Key, profile: Profile)
      requires |shards| == SHARDS
      modifies this
      ensures View() == TrustProfile(config, old(View()), key, profile)
    {
      hide Up;
      var index := FlowShard(config, key);
      var existed := key in shards[index];
      shards := shards[index := shards[index][key := profile]];
      if !existed { profiles := Up(profiles); }
    }

    method RecordPromotionFailure(id: CandidateId, error: PromoteResult, now: Time)
      requires Valid()
      modifies this
      ensures View() == RecordFailure(old(View()), id, error, now) && Valid()
    {
      ghost var start := View();
      GoodFailures(config, start);
      hide Good;
      promotionFailures := promotionFailures[id := Failure(id, error, now)];
      revision := revision + 1;
      GoodTables(config, start, View());
    }

    /** Freezes the baseline; `force` overrides only the minimum duration. */
    method CompleteLearning(force: bool, now: Time) returns (changed: bool, result: CompleteResult)
      requires Valid()
      modifies this
      ensures result == CompleteVerdict(config, old(View()), force, now) && changed == (result == Completed)
      ensures View() == BaselineSpec.CompleteLearning(config, old(View()), force, now) && Valid()
    {
      hide ModeAt;
      if !config.enabled { return false, Disabled; }
      ghost var start := View();
      GoodFailures(config, start);
      GoodTables(config, start, start.(complete := true, revision := start.revision + 1));
      hide Good;
      var mode := Mode(now);
      if learningComplete { return false, AlreadyComplete; }
      if learningStarted == 0 { return false, NotStarted; }
      if mode == Monitoring {
        learningComplete := true;
        revision := revision + 1;
        return false, AlreadyMonitoring;
      }
      if !force && now - learningStarted < config.learningDuration { return false, TooEarly; }
      learningComplete := true;
      revision := revision + 1;
      return true, Completed;
    }

    method ResolveIdentity(sensor: string, ip: string) returns (identity: string)
      ensures identity == Resolve(View(), sensor, ip)
    {
      identity := if (sensor, ip) in identityByIP then identityByIP[(sensor, ip)] else "";
      if identity == "" { identity := "ip:" + ip; }
    }

    method RememberIdentity(sensor: string, ip: string, mac: string) returns (identity: string)
      requires Valid()
      modifies this
      ensures identity == if mac != "" then "mac:" + mac else "ip:" + ip
      ensures View() == Remember(old(View()), sensor, ip, mac) && Valid()
    {
      ghost var start := View();
      GoodFailures(config, start);
      hide Good;
      identity := if mac != "" then "mac:" + mac else "ip:" + ip;
      if ip != "" { identityByIP := identityByIP[(sensor, ip) := identity]; }
      GoodTables(config, start, View());
    }

    /** Quarantines a flow: records the exclusion, disqualifies its candidates and, while learning, deletes what
        was learned of it. */
    method ApplyLearningExclusion(e: Exclusion, now: Time)
      requires Valid()
      modifies this
      ensures View() == ApplyExclusion(config, old(View()), e, now) && Valid()
    {
      hide ModeAt, Good, Unlearned, Quarantine;
      ExclusionGood(config, View(), e, now);
      DisqualifiedGood(config, View(), e, now);
      ghost var start := View();
      exclusions := exclusions[KeyOf(e) := ExclusionEnd(e, now)];
      candidates := QuarantineAll(candidates, e);
      assert View() == Disqualified(start, e, now);
      var mode := Mode(now);
      if mode == Learning { Unlearn(e); }
    }

    method Unlearn(e: Exclusion)
      modifies this
      ensures View() == Unlearned(old(View()), e)
    {
      hide Cleansed, ForgetPeers, Deleted, DownBy, Resolve;
      var flows, removed := CleanShards(shards, e);
      var source := ResolveIdentity(e.sensor, e.srcIP);
      var target := ResolveIdentity(e.sensor, e.dstIP);
      shards := flows;
      assetShards := ForgetInShards(assetShards, source, target);
      if removed > 0 {
        profiles := DownBy(profiles, removed);
        revision := revision + 1;
      }
    }

    method ForgetOld(now: Time)
      modifies this
      ensures View() == Pruned(old(View()), now)
    {
      ghost var kept := Pruned(View(), now);
      promoted := map id | id in promoted && promoted[id] >= now - RETENTION :: promoted[id];
      assert promoted == kept.promoted;
      promotionFailures := map id | id in promotionFailures && promotionFailures[id].at >= now - RETENTION :: promotionFailures[id];
      assert promotionFailures == kept.failures;
    }

    /** Reports the promoted ids, forgetting promotions and failures older than the retention window. */
    method ReportStatus(now: Time) returns (ids: set<CandidateId>, failed: set<CandidateId>)
      requires Valid()
      modifies this
      ensures View() == Pruned(old(View()), now) && Valid()
      ensures ids == promoted.Keys && failed == promotionFailures.Keys
    {
      PrunedGood(config, View(), now);
      hide Good, Pruned;
      ForgetOld(now);
      ids, failed := promoted.Keys, promotionFailures.Keys;
    }

    method ClearTables()
      modifies this
      ensures View() == old(View()).(shards := Initial().shards, assetShards := Initial().assetShards, identities := map[],
                                     started := 0, complete := false)
    {
      hide Initial;
      shards, assetShards := EmptyTables();
      identityByIP, learningStarted, learningComplete := map[], 0, false;
    }

    method ClearCandidates()
      modifies this
      ensures View() == old(View()).(candidates := map[], promoted := map[], failures := map[], exclusions := map[], patterns := [])
    {
      candidates, promoted, promotionFailures, exclusions, patternCreated := map[], map[], map[], map[], [];
    }

    method SetGauges(flows: nat, assets: nat)
      modifies this
      ensures View() == old(View()).(profiles := flows, assetProfiles := assets, revision := old(revision) + 1)
    {
      profiles, assetProfiles, revision := flows, assets, revision + 1;
    }

    method SetTotals(seen: nat, drops: nat, refusals: nat, evictions: nat)
      modifies this
      ensures View() == old(View()).(observed := seen, dropped := drops, excluded := refusals, evicted := evictions)
    {
      observed, dropped, excluded, evicted := seen, drops, refusals, evictions;
    }

    method Reset()
      requires ValidConfig(config)
      modifies this
      ensures View() == BaselineSpec.Reset(old(View())) && Valid()
      ensures revision == old(revision) + 1
    {
      hide Good, Initial, BaselineSpec.Reset;
      ghost var start := View();
      ClearTables();
      ClearCandidates();
      SetGauges(0, 0);
      SetTotals(0, 0, 0, 0);
      ClearedState(start, View());
      ResetGood(config, start);
    }

    // ---------- Persistence ----------

    method TakeSnapshot(now: Time) returns (s: Snapshot)
      requires Valid()
      ensures IsSnapshot(config, View(), now, s)
    {
      hide ModeAt, GoodProfile, ListsFlows, ListsAssets, ListsCandidates, ListsCandidateProfiles, ListsRecent, ListsFailures;
      var mode := Mode(now);
      var flows := ListFlows(config, View(), shards);
      var assets := ListAssets(config, View(), assetShards);
      var rows, saved := ListCandidates(config, View(), candidates);
      var recent := ListRecent(promoted, now - RETENTION);
      var failed := ListFailures(promotionFailures, now - RETENTION);
      var open := ListRecent(exclusions, 0);
      s := Snapshot(VERSION, mode, learningStarted, flows, assets, rows, saved, recent, failed, open,
                    observed, dropped, excluded, evicted);
    }

    method RestoreTables(s: Snapshot)
      modifies this
      ensures View() == old(View()).(shards := LoadFlows(config, s.profiles), assetShards := LoadAssets(config, s.assets),
                                     identities := LoadIdentities(s.assets), patterns := LoadPatterns(s.profiles))
    {
      hide LoadFlows, LoadAssets, LoadPatterns, LoadIdentities;
      shards, patternCreated := RestoreFlows(config, s.profiles);
      assetShards, identityByIP := RestoreAssets(config, s.assets);
    }

    method RestoreCandidateSet(s: Snapshot)
      modifies this
      ensures View() == old(View()).(candidates := LoadCandidates(s.candidates, LoadProfiles(s.candidateProfiles)),
                                     started := s.started, complete := s.mode == Monitoring)
    {
      hide LoadCandidates, LoadProfiles;
      var saved := RestoreProfiles(s.candidateProfiles);
      candidates := RestoreCandidates(s.candidates, saved);
      learningStarted, learningComplete := s.started, s.mode == Monitoring;
    }

    method RestoreDecisions(s: Snapshot, now: Time)
      modifies this
      ensures View() == old(View()).(promoted := LoadRecent(s.promoted, now - RETENTION),
                                     failures := LoadFailures(s.failures, now - RETENTION),
                                     exclusions := LoadExclusions(s.exclusions, now))
    {
      hide LoadRecent, LoadFailures, LoadExclusions;
      promoted := RestoreRecent(s.promoted, now - RETENTION);
      promotionFailures := RestoreFailures(s.failures, now - RETENTION);
      exclusions := RestoreExclusions(s.exclusions, now);
    }

    /** Replaces everything by the snapshot; a snapshot of a newer version is refused. */
    method Restore(s: Snapshot, now: Time) returns (ok: bool)
      requires ValidConfig(config)
      modifies this
      ensures ok == (s.version <= VERSION)
      ensures View() == Restored(config, old(View()), s, now)
    {
      hide Good, LoadFlows, LoadAssets, LoadPatterns, LoadIdentities, LoadCandidates, LoadProfiles, LoadRecent,
           LoadFailures, LoadExclusions, BaselineSpec.Reset;
      if s.version > VERSION { return false; }
      Reset();
      RestoreTables(s);
      RestoreCandidateSet(s);
      RestoreDecisions(s, now);
      SetGauges(|s.profiles| % TWO_64, |s.assets| % TWO_64);
      SetTotals(s.observed, s.dropped, s.excluded, s.evicted);
      return true;
    }
  }
}
