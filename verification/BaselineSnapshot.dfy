/** Snapshots of the engine and what restoring one brings back. */
module BaselineSnapshot {
  import opened BaselineModel
  import opened BaselineSpec
  import opened BaselineReachable
  import opened BaselineAccounting
  import opened Permutations
  import opened Stats

  datatype CandidateRow = CandidateRow(
    id: CandidateId, key: Key, firstSeen: Time, lastSeen: Time, observations: nat, distinctDays: nat,
    days: seq<nat>, eligible: bool, ready: bool, reason: string)

  datatype CandidateProfile = CandidateProfile(id: CandidateId, profile: Profile, srcAsset: string, dstAsset: string)

  datatype Snapshot = Snapshot(
    version: nat, mode: Mode, started: Time,
    profiles: seq<Profile>, assets: seq<AssetProfile>,
    candidates: seq<CandidateRow>, candidateProfiles: seq<CandidateProfile>,
    promoted: seq<(CandidateId, Time)>, failures: seq<Failure>, exclusions: seq<(ExclusionKey, Time)>,
    observed: nat, dropped: nat, excluded: nat, evicted: nat)

  const VERSION := 6

  // ---------- Taking a snapshot; lists follow map iteration, so only their contents are fixed ----------

  ghost predicate ListsFlows(c: Config, st: State, xs: seq<Profile>) {
    && Distinct(xs)
    && (forall p :: p in xs ==> p.key in Row(st.shards, FlowShard(c, p.key)) && Row(st.shards, FlowShard(c, p.key))[p.key] == p)
    && (forall i, k :: 0 <= i < |st.shards| && k in st.shards[i] ==> st.shards[i][k] in xs)
  }

  ghost predicate ListsAssets(c: Config, st: State, xs: seq<AssetProfile>) {
    && Distinct(xs)
    && (forall p :: p in xs ==> p.key in Row(st.assetShards, AssetShard(c, p.key)) && Row(st.assetShards, AssetShard(c, p.key))[p.key] == p)
    && (forall i, k :: 0 <= i < |st.assetShards| && k in st.assetShards[i] ==> st.assetShards[i][k] in xs)
  }

  ghost predicate ReportsCandidate(c: Config, x: Candidate, r: CandidateRow) {
    && r == CandidateRow(x.id, x.key, x.firstSeen, x.lastSeen, x.observations, |x.days|, r.days, x.eligible,
                         ReadyForPromotion(c, x), x.reason)
    && Distinct(r.days) && (set d | d in r.days) == x.days
  }

  ghost predicate ListsCandidates(c: Config, st: State, xs: seq<CandidateRow>) {
    && (forall r :: r in xs ==> r.id in st.candidates && ReportsCandidate(c, st.candidates[r.id], r))
    && (forall id :: id in st.candidates ==> exists r :: r in xs && r.id == id)
  }

  predicate ReportsProfile(x: Candidate, r: CandidateProfile) {
    r.profile == x.profile && r.srcAsset == x.srcAsset && r.dstAsset == x.dstAsset
  }

  ghost predicate ListsCandidateProfiles(st: State, xs: seq<CandidateProfile>) {
    && (forall r :: r in xs ==> r.id in st.candidates && ReportsProfile(st.candidates[r.id], r))
    && (forall id :: id in st.candidates ==> exists r :: r in xs && r.id == id)
  }

  /** The list holds exactly the entries of the map whose time passes the filter. */
  ghost predicate ListsRecent<K(!new)>(m: map<K, Time>, cutoff: int, xs: seq<(K, Time)>) {
    forall k, t :: (k, t) in xs <==> k in m && m[k] == t && t >= cutoff
  }

  ghost predicate ListsFailures(m: map<CandidateId, Failure>, cutoff: int, xs: seq<Failure>) {
    forall f :: f in xs <==> f.id in m && m[f.id] == f && f.at >= cutoff
  }

  ghost predicate IsSnapshot(c: Config, st: State, now: Time, s: Snapshot)
    requires ValidConfig(c)
  {
    && s.version == VERSION && s.mode == ModeAt(c, st, now) && s.started == st.started
    && ListsFlows(c, st, s.profiles) && ListsAssets(c, st, s.assets)
    && ListsCandidates(c, st, s.candidates) && ListsCandidateProfiles(st, s.candidateProfiles)
    && ListsRecent(st.promoted, now - RETENTION, s.promoted)
    && ListsFailures(st.failures, now - RETENTION, s.failures)
    && ListsRecent(st.exclusions, 0, s.exclusions)
    && s.observed == st.observed && s.dropped == st.dropped && s.excluded == st.excluded && s.evicted == st.evicted
  }

  // ---------- Restoring ----------

  function LoadFlows(c: Config, xs: seq<Profile>): (r: seq<map<Key, Profile>>)
    ensures |r| == SHARDS
  {
    if xs == [] then Initial().shards
    else
      var before, p := LoadFlows(c, xs[..|xs|-1]), xs[|xs|-1];
      var i := FlowShard(c, p.key);
      SetRow(before, i, Row(before, i)[p.key := p])
  }

  function LoadAssets(c: Config, xs: seq<AssetProfile>): (r: seq<map<AssetKey, AssetProfile>>)
    ensures |r| == SHARDS
  {
    if xs == [] then Initial().assetShards
    else
      var before, p := LoadAssets(c, xs[..|xs|-1]), xs[|xs|-1];
      var i := AssetShard(c, p.key);
      SetRow(before, i, Row(before, i)[p.key := p])
  }

  /** The addresses of one asset of a sensor. */
  function Claims(sensor: string, id: string, ips: set<string>): map<(string, string), string> {
    map ip | ip in ips :: (sensor, ip) := id
  }

  function LoadIdentities(xs: seq<AssetProfile>): map<(string, string), string> {
    if xs == [] then map[]
    else
      var p := xs[|xs|-1];
      LoadIdentities(xs[..|xs|-1]) + Claims(p.key.sensor, p.key.assetID, p.ips.Keys)
  }

  function LoadPatterns(xs: seq<Profile>): seq<Time> {
    if xs == [] then [] else Remembered(LoadPatterns(xs[..|xs|-1]), xs[|xs|-1].firstSeen)
  }

  function LoadProfiles(xs: seq<CandidateProfile>): map<CandidateId, CandidateProfile> {
    if xs == [] then map[] else LoadProfiles(xs[..|xs|-1])[xs[|xs|-1].id := xs[|xs|-1]]
  }

  function LoadDays(r: CandidateRow): set<nat> {
    var listed := set d | d in r.days;
    var first := if listed == {} && r.firstSeen != 0 then {DayOf(r.firstSeen)} else {};
    listed + first + if r.lastSeen != 0 then {DayOf(r.lastSeen)} else {}
  }

  function LoadCandidate(r: CandidateRow, profiles: map<CandidateId, CandidateProfile>): Candidate {
    var days := LoadDays(r);
    var saved := r.id in profiles;
    Candidate(r.id, r.key, r.firstSeen, r.lastSeen, r.observations, |days|, r.eligible, r.reason,
              if saved then profiles[r.id].profile else NewProfile(r.key, r.firstSeen).(lastSeen := r.lastSeen),
              if saved then profiles[r.id].srcAsset else "",
              if saved then profiles[r.id].dstAsset else "",
              days)
  }

  function LoadCandidates(xs: seq<CandidateRow>, profiles: map<CandidateId, CandidateProfile>): map<CandidateId, Candidate> {
    if xs == [] then map[]
    else LoadCandidates(xs[..|xs|-1], profiles)[xs[|xs|-1].id := LoadCandidate(xs[|xs|-1], profiles)]
  }

  function LoadRecent<K>(xs: seq<(K, Time)>, cutoff: int): map<K, Time> {
    if xs == [] then map[]
    else
      var before, x := LoadRecent(xs[..|xs|-1], cutoff), xs[|xs|-1];
      if x.1 < cutoff then before else before[x.0 := x.1]
  }

  function LoadFailures(xs: seq<Failure>, cutoff: int): map<CandidateId, Failure> {
    if xs == [] then map[]
    else
      var before, x := LoadFailures(xs[..|xs|-1], cutoff), xs[|xs|-1];
      if x.at < cutoff then before else before[x.id := x]
  }

  function LoadExclusions(xs: seq<(ExclusionKey, Time)>, now: Time): map<ExclusionKey, Time> {
    if xs == [] then map[]
    else
      var before, x := LoadExclusions(xs[..|xs|-1], now), xs[|xs|-1];
      if x.1 == 0 || x.1 > now then before[x.0 := x.1] else before
  }

  /** The whole engine after a restore; a newer snapshot version is refused and changes nothing. */
  function Restored(c: Config, st: State, s: Snapshot, now: Time): State {
    if s.version > VERSION then st
    else State(
      LoadFlows(c, s.profiles), LoadAssets(c, s.assets), LoadIdentities(s.assets),
      s.started, s.mode == Monitoring,
      LoadCandidates(s.candidates, LoadProfiles(s.candidateProfiles)),
      LoadRecent(s.promoted, now - RETENTION), LoadFailures(s.failures, now - RETENTION),
      LoadExclusions(s.exclusions, now),
      LoadPatterns(s.profiles),
      |s.profiles| % TWO_64, |s.assets| % TWO_64, s.observed, s.dropped, s.excluded, s.evicted, st.revision + 2)
  }

  // ---------- The round trip ----------

  /** Which profile, if any, loading leaves under a key. */
  lemma {:induction false} LoadedFlow(c: Config, xs: seq<Profile>, i: nat, k: Key)
    requires i < SHARDS
    ensures k in LoadFlows(c, xs)[i] ==> FlowShard(c, k) == i && LoadFlows(c, xs)[i][k] in xs && LoadFlows(c, xs)[i][k].key == k
    ensures (exists p :: p in xs && p.key == k) && FlowShard(c, k) == i ==> k in LoadFlows(c, xs)[i]
  {
    if xs != [] {
      LoadedFlow(c, xs[..|xs|-1], i, k);
    }
  }

  lemma FlowsRoundTrip(c: Config, st: State, xs: seq<Profile>)
    requires |st.shards| == SHARDS && FlowsPlaced(c, st.shards) && ListsFlows(c, st, xs)
    ensures LoadFlows(c, xs) == st.shards
  {
    hide GoodProfile, LoadFlows;
    var r := LoadFlows(c, xs);
    forall i | 0 <= i < SHARDS ensures r[i] == st.shards[i] {
      forall k ensures k in r[i] <==> k in st.shards[i]
               ensures k in r[i] ==> r[i][k] == st.shards[i][k] {
        LoadedFlow(c, xs, i, k);
        if k in st.shards[i] { FlowAt(c, st.shards, i, k); }
      }
    }
  }

  lemma FlowAt(c: Config, shards: seq<map<Key, Profile>>, i: nat, k: Key)
    requires FlowsPlaced(c, shards) && i < |shards| && k in shards[i]
    ensures FlowShard(c, k) == i && shards[i][k].key == k
  {
  }

  lemma {:induction false} LoadedAsset(c: Config, xs: seq<AssetProfile>, i: nat, k: AssetKey)
    requires i < SHARDS
    ensures k in LoadAssets(c, xs)[i] ==> AssetShard(c, k) == i && LoadAssets(c, xs)[i][k] in xs && LoadAssets(c, xs)[i][k].key == k
    ensures (exists p :: p in xs && p.key == k) && AssetShard(c, k) == i ==> k in LoadAssets(c, xs)[i]
  {
    if xs != [] {
      LoadedAsset(c, xs[..|xs|-1], i, k);
    }
  }

  lemma AssetsRoundTrip(c: Config, st: State, xs: seq<AssetProfile>)
    requires |st.assetShards| == SHARDS && AssetsPlaced(c, st.assetShards) && ListsAssets(c, st, xs)
    ensures LoadAssets(c, xs) == st.assetShards
  {
    hide LoadAssets;
    var r := LoadAssets(c, xs);
    forall i | 0 <= i < SHARDS ensures r[i] == st.assetShards[i] {
      forall k ensures k in r[i] <==> k in st.assetShards[i]
               ensures k in r[i] ==> r[i][k] == st.assetShards[i][k] {
        LoadedAsset(c, xs, i, k);
        if k in st.assetShards[i] { AssetPlaced(c, st.assetShards, i, k); }
      }
    }
  }

  /** Distinct keys load without overwriting, so the restored gauge is the size of the table. */
  lemma {:induction false} LoadFlowsSize(c: Config, xs: seq<Profile>)
    requires forall i, j :: 0 <= i < j < |xs| ==> xs[i].key != xs[j].key
    ensures Entries(LoadFlows(c, xs)) == |xs|
  {
    if xs == [] {
      EmptyEntries(Initial().shards);
    } else {
      var init, p := xs[..|xs|-1], xs[|xs|-1];
      LoadFlowsSize(c, init);
      var i := FlowShard(c, p.key);
      LoadedFlow(c, init, i, p.key);
      var before := LoadFlows(c, init);
      SizePut(before[i], p.key, p);
      EntriesSetRow(before, i, before[i][p.key := p]);
    }
  }

  lemma {:induction false} LoadAssetsSize(c: Config, xs: seq<AssetProfile>)
    requires forall i, j :: 0 <= i < j < |xs| ==> xs[i].key != xs[j].key
    ensures Entries(LoadAssets(c, xs)) == |xs|
  {
    if xs == [] {
      EmptyEntries(Initial().assetShards);
    } else {
      var init, p := xs[..|xs|-1], xs[|xs|-1];
      LoadAssetsSize(c, init);
      var i := AssetShard(c, p.key);
      LoadedAsset(c, init, i, p.key);
      var before := LoadAssets(c, init);
      SizePut(before[i], p.key, p);
      EntriesSetRow(before, i, before[i][p.key := p]);
    }
  }

  lemma {:induction false} LoadedProfile(xs: seq<CandidateProfile>, id: CandidateId)
    ensures id in LoadProfiles(xs) <==> exists r :: r in xs && r.id == id
    ensures id in LoadProfiles(xs) ==> LoadProfiles(xs)[id] in xs && LoadProfiles(xs)[id].id == id
  {
    if xs != [] { LoadedProfile(xs[..|xs|-1], id); }
  }

  lemma {:induction false} LoadedCandidate(xs: seq<CandidateRow>, profiles: map<CandidateId, CandidateProfile>, id: CandidateId)
    ensures id in LoadCandidates(xs, profiles) <==> exists r :: r in xs && r.id == id
    ensures id in LoadCandidates(xs, profiles) ==>
              exists r :: r in xs && r.id == id && LoadCandidates(xs, profiles)[id] == LoadCandidate(r, profiles)
  {
    hide LoadCandidate;
    if xs != [] { LoadedCandidate(xs[..|xs|-1], profiles, id); }
  }

  /** The day set survives because the last seen day is always in it. */
  lemma CandidateRoundTrip(c: Config, st: State, r: CandidateRow, ps: seq<CandidateProfile>)
    requires r.id in st.candidates && GoodCandidate(r.id, st.candidates[r.id])
    requires ReportsCandidate(c, st.candidates[r.id], r) && ListsCandidateProfiles(st, ps)
    ensures LoadCandidate(r, LoadProfiles(ps)) == st.candidates[r.id]
  {
    hide LoadProfiles, GoodProfile;
    LoadedProfile(ps, r.id);
    var x := st.candidates[r.id];
    assert DayOf(x.lastSeen) in x.days;
    assert LoadDays(r) == x.days;
  }

  lemma CandidatesRoundTrip(c: Config, st: State, xs: seq<CandidateRow>, ps: seq<CandidateProfile>)
    requires CandidatesGood(st.candidates) && ListsCandidates(c, st, xs) && ListsCandidateProfiles(st, ps)
    ensures LoadCandidates(xs, LoadProfiles(ps)) == st.candidates
  {
    hide LoadCandidates, LoadProfiles, GoodCandidate, ReportsCandidate, LoadCandidate, ListsCandidateProfiles;
    var m := LoadCandidates(xs, LoadProfiles(ps));
    forall id ensures id in m <==> id in st.candidates
              ensures id in m ==> m[id] == st.candidates[id] {
      LoadedCandidate(xs, LoadProfiles(ps), id);
      if id in m {
        var r :| r in xs && r.id == id && m[id] == LoadCandidate(r, LoadProfiles(ps));
        CandidateRoundTrip(c, st, r, ps);
      }
    }
  }

  lemma {:induction false} LoadedRecent<K(!new)>(xs: seq<(K, Time)>, cutoff: int, k: K)
    ensures k in LoadRecent(xs, cutoff) ==> (k, LoadRecent(xs, cutoff)[k]) in xs && LoadRecent(xs, cutoff)[k] >= cutoff
    ensures (exists t :: (k, t) in xs && t >= cutoff) ==> k in LoadRecent(xs, cutoff)
  {
    if xs != [] { LoadedRecent(xs[..|xs|-1], cutoff, k); }
  }

  lemma RecentRoundTrip<K(!new)>(m: map<K, Time>, saved: int, cutoff: int, xs: seq<(K, Time)>)
    requires ListsRecent(m, saved, xs)
    ensures LoadRecent(xs, cutoff) == map k | k in m && m[k] >= saved && m[k] >= cutoff :: m[k]
  {
    hide LoadRecent;
    var r := LoadRecent(xs, cutoff);
    forall k ensures k in r <==> k in m && m[k] >= saved && m[k] >= cutoff
             ensures k in r ==> r[k] == m[k] {
      LoadedRecent(xs, cutoff, k);
      if k in m && m[k] >= saved && m[k] >= cutoff { assert (k, m[k]) in xs; }
    }
  }

  lemma {:induction false} LoadedFailure(xs: seq<Failure>, cutoff: int, id: CandidateId)
    ensures id in LoadFailures(xs, cutoff) ==>
              LoadFailures(xs, cutoff)[id] in xs && LoadFailures(xs, cutoff)[id].id == id && LoadFailures(xs, cutoff)[id].at >= cutoff
    ensures (exists f :: f in xs && f.id == id && f.at >= cutoff) ==> id in LoadFailures(xs, cutoff)
  {
    if xs != [] { LoadedFailure(xs[..|xs|-1], cutoff, id); }
  }

  lemma FailuresRoundTrip(m: map<CandidateId, Failure>, saved: int, cutoff: int, xs: seq<Failure>)
    requires ListsFailures(m, saved, xs)
    requires forall id :: id in m ==> m[id].id == id
    ensures LoadFailures(xs, cutoff) == map id | id in m && m[id].at >= saved && m[id].at >= cutoff :: m[id]
  {
    hide LoadFailures;
    var r := LoadFailures(xs, cutoff);
    forall id ensures id in r <==> id in m && m[id].at >= saved && m[id].at >= cutoff
              ensures id in r ==> r[id] == m[id] {
      LoadedFailure(xs, cutoff, id);
      if id in m && m[id].at >= saved && m[id].at >= cutoff { assert m[id] in xs; }
    }
  }

  lemma {:induction false} LoadedExclusion(xs: seq<(ExclusionKey, Time)>, now: Time, k: ExclusionKey)
    ensures k in LoadExclusions(xs, now) ==>
              var t := LoadExclusions(xs, now)[k]; (k, t) in xs && (t == 0 || t > now)
    ensures (exists t :: (k, t) in xs && (t == 0 || t > now)) ==> k in LoadExclusions(xs, now)
  {
    if xs != [] { LoadedExclusion(xs[..|xs|-1], now, k); }
  }

  lemma ExclusionsRoundTrip(m: map<ExclusionKey, Time>, now: Time, xs: seq<(ExclusionKey, Time)>)
    requires ListsRecent(m, 0, xs)
    ensures LoadExclusions(xs, now) == map k | k in m && (m[k] == 0 || m[k] > now) :: m[k]
  {
    hide LoadExclusions;
    var r := LoadExclusions(xs, now);
    forall k ensures k in r <==> k in m && (m[k] == 0 || m[k] > now)
             ensures k in r ==> r[k] == m[k] {
      LoadedExclusion(xs, now, k);
      if k in m && (m[k] == 0 || m[k] > now) { assert (k, m[k]) in xs; }
    }
  }

  /** The time a promotion or failure must not precede to survive: within retention both of the snapshot and of
      the restore. */
  function Surviving(taken: Time, now: Time): int { (if taken > now then taken else now) - RETENTION }

  /** Restoring a snapshot brings back every trusted profile, asset profile and candidate unchanged, the
      promotions and failures still within retention, the unexpired exclusions, the counters, and monitoring
      mode, which from then on no timestamp can undo. */
  lemma RestoreUndoesSnapshot(c: Config, st: State, t: Time, s: Snapshot, before: State, now: Time)
    requires ValidConfig(c) && Good(c, st) && GaugesExact(st) && IsSnapshot(c, st, t, s)
    ensures var r := Restored(c, before, s, now);
            && r.shards == st.shards && r.assetShards == st.assetShards && r.candidates == st.candidates
            && r.promoted == (map id | id in st.promoted && st.promoted[id] >= Surviving(t, now) :: st.promoted[id])
            && r.failures == (map id | id in st.failures && st.failures[id].at >= Surviving(t, now) :: st.failures[id])
            && r.exclusions == (map k | k in st.exclusions && (st.exclusions[k] == 0 || st.exclusions[k] > now) :: st.exclusions[k])
            && r.profiles == st.profiles && r.assetProfiles == st.assetProfiles
            && r.observed == st.observed && r.dropped == st.dropped && r.excluded == st.excluded && r.evicted == st.evicted
            && r.started == st.started
            && (r.complete <==> ModeAt(c, st, t) == Monitoring)
  {
    hide LoadFlows, LoadAssets, LoadCandidates, LoadProfiles, LoadRecent, LoadFailures, LoadExclusions, LoadPatterns,
         LoadIdentities, ModeAt, Entries, GoodProfile, ListsCandidates, ListsCandidateProfiles, ListsRecent, ListsFailures;
    FlowsRoundTrip(c, st, s.profiles);
    AssetsRoundTrip(c, st, s.assets);
    LoadFlowsSize(c, s.profiles);
    LoadAssetsSize(c, s.assets);
    CandidatesRoundTrip(c, st, s.candidates, s.candidateProfiles);
    RecentRoundTrip(st.promoted, t - RETENTION, now - RETENTION, s.promoted);
    FailuresRoundTrip(st.failures, t - RETENTION, now - RETENTION, s.failures);
    ExclusionsRoundTrip(st.exclusions, now, s.exclusions);
  }

  // ---------- What a restore rebuilds, from any snapshot ----------

  lemma {:induction false} LoadedIdentity(xs: seq<AssetProfile>, sensor: string, ip: string)
    ensures (sensor, ip) in LoadIdentities(xs) <==> exists p :: p in xs && p.key.sensor == sensor && ip in p.ips
    ensures (sensor, ip) in LoadIdentities(xs) ==>
              exists p :: p in xs && p.key.sensor == sensor && ip in p.ips && LoadIdentities(xs)[(sensor, ip)] == p.key.assetID
  {
    if xs != [] {
      var before, p := xs[..|xs|-1], xs[|xs|-1];
      LoadedIdentity(before, sensor, ip);
      assert xs == before + [p];
      assert (sensor, ip) in Claims(p.key.sensor, p.key.assetID, p.ips.Keys) <==> p.key.sensor == sensor && ip in p.ips;
    }
  }

  lemma {:induction false} LoadedPatterns(xs: seq<Profile>)
    ensures var r := LoadPatterns(xs);
            && |r| == (if |xs| < 10_000 then |xs| else 10_000)
            && forall i :: 0 <= i < |r| ==> r[i] == xs[|xs|-|r|+i].firstSeen
  {
    if xs != [] {
      var before, p := xs[..|xs|-1], xs[|xs|-1];
      LoadedPatterns(before);
      RememberedAt(LoadPatterns(before), p.firstSeen);
      hide Remembered;
      var b, r := LoadPatterns(before), LoadPatterns(xs);
      forall i | 0 <= i < |r| ensures r[i] == xs[|xs|-|r|+i].firstSeen {
        if i < |r| - 1 { assert r[i] == b[|b|+1-|r|+i] == before[|before|-|b|+(|b|+1-|r|+i)].firstSeen; }
      }
    }
  }

  lemma RememberedAt(patterns: seq<Time>, at: Time)
    requires |patterns| <= 10_000
    ensures var r := Remembered(patterns, at);
            && |r| == (if |patterns| < 10_000 then |patterns| + 1 else 10_000)
            && r[|r|-1] == at && forall i :: 0 <= i < |r| - 1 ==> r[i] == patterns[|patterns|+1-|r|+i]
  {
  }

  /** What the snapshot does not say, a restore rebuilds from the profiles: an address belongs to an asset exactly if some
      asset profile of that sensor lists it, and the patterns are those of the last listed 10,000 flows. A snapshot of a
      later version than 6 changes nothing. */
  lemma RestoreRebuilds(c: Config, st: State, s: Snapshot, now: Time, sensor: string, ip: string)
    ensures var r := Restored(c, st, s, now);
            if s.version >= 7 then r == st
            else
              && ((sensor, ip) in r.identities <==> exists p :: p in s.assets && p.key.sensor == sensor && ip in p.ips)
              && ((sensor, ip) in r.identities ==>
                    exists p :: p in s.assets && p.key.sensor == sensor && ip in p.ips && r.identities[(sensor, ip)] == p.key.assetID)
              && |r.patterns| == (if |s.profiles| < 10_000 then |s.profiles| else 10_000)
              && forall i :: 0 <= i < |r.patterns| ==> r.patterns[i] == s.profiles[|s.profiles|-|r.patterns|+i].firstSeen
  {
    LoadedIdentity(s.assets, sensor, ip);
    LoadedPatterns(s.profiles);
    hide LoadIdentities, LoadPatterns, LoadFlows, LoadAssets, LoadCandidates, LoadRecent, LoadFailures, LoadExclusions, LoadProfiles;
  }

  lemma LoadedDay(r: CandidateRow, day: nat)
    ensures day in LoadDays(r) <==> || day in r.days
                                    || (r.lastSeen > 0 && day == DayOf(r.lastSeen))
                                    || (r.days == [] && r.firstSeen > 0 && day == DayOf(r.firstSeen))
  {
    hide DayOf;
    var listed := set d | d in r.days;
    assert day in listed <==> day in r.days;
    if r.days == [] { assert listed == {}; } else { assert r.days[0] in listed && listed != {}; }
    assert LoadDays(r) == listed + (if listed == {} && r.firstSeen != 0 then {DayOf(r.firstSeen)} else {})
                          + if r.lastSeen != 0 then {DayOf(r.lastSeen)} else {};
  }

  /** A candidate restored from a record of any age has the recorded days and that of its last observation, and that of its
      first if none were recorded; without a saved profile it starts with an empty one. */
  lemma RestoredCandidateDays(r: CandidateRow, profiles: map<CandidateId, CandidateProfile>, day: nat)
    ensures var x := LoadCandidate(r, profiles);
            && x.distinctDays == |x.days|
            && (day in x.days <==> || day in r.days
                                   || (r.lastSeen > 0 && day == r.lastSeen / DAY)
                                   || (r.days == [] && r.firstSeen > 0 && day == r.firstSeen / DAY))
            && (r.id !in profiles ==>
                  x.profile.packets == 0 && x.profile.lastSeen == r.lastSeen && x.srcAsset == "" && x.dstAsset == "")
  {
    LoadedDay(r, day);
    hide LoadDays;
  }
}
