/**
  The behaviour-baseline engine as a state machine on values: what each operation does to the whole state.
  Where a Go map iteration decides between equally old entries, the choice is a parameter of the step.
*/
module BaselineSpec {
  import opened BaselineModel
  import opened Stats
  import opened MapSums

  const SHARDS := 64
  const MAX_PATTERNS := 10000
  const MINUTE: int := 60_000_000_000
  const REVIEW := "public internet communication requires explicit approval"
  const RETENTION: int := 604_800_000_000_000

  datatype Config = Config(
    enabled: bool, sensor: string, learningDuration: int, bucketDuration: int, maxProfiles: nat, maxAssetProfiles: nat,
    minAssetSamples: nat, minAssetAge: int, readinessThreshold: real, maxLearningMultiplier: real,
    candidateMinSamples: nat, candidateMinDays: nat,
    hashKey: Key -> nat, hashAsset: AssetKey -> nat, publicInternet: string -> bool)

  predicate ValidConfig(c: Config) {
    && c.learningDuration > 0 && 0 < c.bucketDuration <= DAY
    && c.maxProfiles > 0 && c.maxAssetProfiles > 0 && c.minAssetSamples > 0 && c.minAssetAge > 0
    && 0.0 < c.readinessThreshold <= 1.0 && c.maxLearningMultiplier >= 1.25
    && c.candidateMinSamples > 0 && c.candidateMinDays > 0
  }

  datatype State = State(
    shards: seq<map<Key, Profile>>, assetShards: seq<map<AssetKey, AssetProfile>>,
    identities: map<(string, string), string>,
    started: Time, complete: bool,
    candidates: map<CandidateId, Candidate>, promoted: map<CandidateId, Time>, failures: map<CandidateId, Failure>,
    exclusions: map<ExclusionKey, Time>,
    patterns: seq<Time>,
    profiles: nat, assetProfiles: nat, observed: nat, dropped: nat, excluded: nat, evicted: nat, revision: nat)

  function Initial(): State {
    State(seq(SHARDS, _ => map[]), seq(SHARDS, _ => map[]), map[], 0, false, map[], map[], map[], map[], [],
          0, 0, 0, 0, 0, 0, 0)
  }

  function FlowShard(c: Config, k: Key): (i: nat)
    ensures i < SHARDS
  { c.hashKey(k) % SHARDS }

  function AssetShard(c: Config, k: AssetKey): (i: nat)
    ensures i < SHARDS
  { c.hashAsset(k) % SHARDS }

  /** One shard of a table. */
  function Row<K, V>(table: seq<map<K, V>>, i: nat): map<K, V> {
    if i < |table| then table[i] else map[]
  }

  function SetRow<K, V>(table: seq<map<K, V>>, i: nat, row: map<K, V>): (r: seq<map<K, V>>)
    ensures |r| == |table|
  {
    if i < |table| then table[i := row] else table
  }

  /** The number of entries in all shards. */
  function Entries<K, V>(table: seq<map<K, V>>): nat {
    if table == [] then 0 else Entries(table[..|table|-1]) + |table[|table|-1]|
  }

  // ---------- 64-bit gauges ----------

  function Up(x: nat): nat { (x + 1) % TWO_64 }

  /** Adding the complement of zero. */
  function Down(x: nat): nat { (x + (TWO_64 - 1)) % TWO_64 }

  /** Adding the complement of `n - 1`. */
  function DownBy(x: nat, n: nat): nat { (x + (TWO_64 - n % TWO_64)) % TWO_64 }

  // ---------- Mode and readiness ----------

  /** Some learned non-maintenance profile of the asset is at least as old as the minimum age. */
  ghost predicate Aged(c: Config, st: State, id: string, now: int) {
    exists i, k :: 0 <= i < |st.assetShards| && k in st.assetShards[i] && Counts(st.assetShards[i][k], id)
                && now - st.assetShards[i][k].firstSeen >= c.minAssetAge
  }

  predicate Counts(p: AssetProfile, id: string) { p.key.context != "maintenance" && p.key.assetID == id }

  function EventsFor(p: AssetProfile, id: string): nat {
    if Counts(p, id) then p.inbound.events + p.outbound.events else 0
  }

  ghost function Contributions(m: map<AssetKey, AssetProfile>, id: string): map<AssetKey, nat> {
    map k | k in m :: EventsFor(m[k], id)
  }

  ghost function ShardEvents(m: map<AssetKey, AssetProfile>, id: string): nat {
    Total(Contributions(m, id))
  }

  ghost function AssetEvents(shards: seq<map<AssetKey, AssetProfile>>, id: string): nat {
    if shards == [] then 0 else AssetEvents(shards[..|shards|-1], id) + ShardEvents(shards[|shards|-1], id)
  }

  ghost function AssetIds(shards: seq<map<AssetKey, AssetProfile>>): set<string> {
    set i, k | 0 <= i < |shards| && k in shards[i] && shards[i][k].key.context != "maintenance" :: shards[i][k].key.assetID
  }

  ghost predicate Mature(c: Config, st: State, id: string, now: int) {
    Aged(c, st, id, now) && AssetEvents(st.assetShards, id) >= c.minAssetSamples
  }

  ghost function MatureIds(c: Config, st: State, now: int): set<string> {
    set id | id in AssetIds(st.assetShards) && Mature(c, st, id, now)
  }

  ghost function Ratio(part: nat, whole: nat): real {
    if whole == 0 then 0.0 else part as real / whole as real
  }

  function AtMostOne(x: real): real { if x < 1.0 then x else 1.0 }

  ghost function Buckets(shards: seq<map<AssetKey, AssetProfile>>): set<nat> {
    set i, k | 0 <= i < |shards| && k in shards[i]
            && (shards[i][k].key.context == "production" || shards[i][k].key.context == "") :: shards[i][k].key.timeBucket
  }

  function BucketsPerDay(c: Config): int
    requires ValidConfig(c)
  {
    if DAY / c.bucketDuration < 1 then 1 else DAY / c.bucketDuration
  }

  ghost function TimeCoverage(c: Config, st: State): real
    requires ValidConfig(c)
  {
    AtMostOne(|Buckets(st.assetShards)| as real / BucketsPerDay(c) as real)
  }

  function NoveltyWindow(c: Config): int {
    var w := c.learningDuration / 10;
    if w < MINUTE then MINUTE else if w > 30 * MINUTE then 30 * MINUTE else w
  }

  function Recent(patterns: seq<Time>, cutoff: int): (n: nat)
    ensures n <= |patterns|
  {
    if patterns == [] then 0
    else Recent(patterns[..|patterns|-1], cutoff) + if patterns[|patterns|-1] >= cutoff then 1 else 0
  }

  function Novelty(c: Config, st: State, now: int): real {
    if st.patterns == [] then 0.0
    else Recent(st.patterns, now - NoveltyWindow(c)) as real / |st.patterns| as real
  }

  ghost function Maturity(c: Config, st: State, now: int): real {
    Ratio(|MatureIds(c, st, now)|, |AssetIds(st.assetShards)|)
  }

  function Score(duration: real, maturity: real, coverage: real, novelty: real): real {
    AtMostOne(0.35 * duration + 0.35 * maturity + 0.15 * coverage + 0.15 * (1.0 - AtMostOne(novelty / 0.05)))
  }

  ghost function Readiness(c: Config, st: State, now: int): real
    requires ValidConfig(c)
  {
    if st.started == 0 then 0.0
    else Score(AtMostOne((now - st.started) as real / c.learningDuration as real), Maturity(c, st, now),
               TimeCoverage(c, st), Novelty(c, st, now))
  }

  ghost predicate Ready(c: Config, st: State, now: int)
    requires ValidConfig(c)
  {
    && st.started != 0
    && now - st.started >= c.learningDuration
    && Readiness(c, st, now) >= c.readinessThreshold
    && Maturity(c, st, now) >= 0.75
    && Novelty(c, st, now) <= 0.05
  }

  /** The deadline after which learning ends whatever the readiness: the product truncated to whole nanoseconds. */
  function Deadline(c: Config): int { (c.learningDuration as real * c.maxLearningMultiplier).Floor }

  ghost function ModeAt(c: Config, st: State, now: int): Mode
    requires ValidConfig(c)
  {
    if st.complete then Monitoring
    else if st.started == 0 then Learning
    else if now - st.started < c.learningDuration then Learning
    else if Ready(c, st, now) || now - st.started >= Deadline(c) then Monitoring
    else Learning
  }

  // ---------- Observation ----------

  function StartedBy(st: State, at: Time): State {
    if st.started == 0 then st.(started := at) else st
  }

  predicate Internal(c: Config, ip: string) { ip != "" && !c.publicInternet(ip) }

  predicate ReviewOnly(c: Config, key: Key) {
    || (c.publicInternet(key.srcIP) && Internal(c, key.dstIP))
    || (c.publicInternet(key.dstIP) && Internal(c, key.srcIP))
  }

  ghost predicate HasTrusted(c: Config, st: State, key: Key) {
    || key in Row(st.shards, FlowShard(c, key))
    || exists i, k :: 0 <= i < |st.shards| && k in st.shards[i] && SameFlowAndBucket(k, key)
  }

  predicate Expired(until: Time, now: Time) { until != 0 && now > until }

  /** An unexpired exclusion covers the flow. */
  ghost predicate Quarantined(st: State, key: Key, now: Time) {
    exists x :: x in st.exclusions && !Expired(st.exclusions[x], now) && StoredExcludes(x, key)
  }

  /** The choices one observation leaves to map iteration: which entry each eviction removes, and which
      expired exclusions were met before a match ended the scan. */
  datatype Choice = Choice(flow: Key, source: AssetKey, target: AssetKey, candidate: CandidateId, purged: set<ExclusionKey>)

  /** A shard's share, rounded up. */
  function Capacity(max: nat): (r: nat)
    ensures max <= r * SHARDS < max + SHARDS
  { (max + SHARDS - 1) / SHARDS }

  /** `k` is a least recently seen entry; entries without a time make the scan's order matter. */
  ghost predicate Oldest<K>(seen: map<K, Time>, k: K) {
    k in seen && ((forall j :: j in seen ==> seen[j] != 0) ==> forall j :: j in seen ==> seen[k] <= seen[j])
  }

  function FlowTimes(m: map<Key, Profile>): (seen: map<Key, Time>)
    ensures seen.Keys == m.Keys
  {
    map k | k in m :: m[k].lastSeen
  }

  function AssetTimes(m: map<AssetKey, AssetProfile>): (seen: map<AssetKey, Time>)
    ensures seen.Keys == m.Keys
  {
    map k | k in m :: m[k].lastSeen
  }

  function CandidateTimes(m: map<CandidateId, Candidate>): (seen: map<CandidateId, Time>)
    ensures seen.Keys == m.Keys
  {
    map k | k in m :: m[k].lastSeen
  }

  ghost predicate OldestFlow(m: map<Key, Profile>, k: Key) { Oldest(FlowTimes(m), k) }

  ghost predicate OldestAsset(m: map<AssetKey, AssetProfile>, k: AssetKey) { Oldest(AssetTimes(m), k) }

  ghost predicate OldestCandidate(m: map<CandidateId, Candidate>, k: CandidateId) { Oldest(CandidateTimes(m), k) }

  predicate FlowFull(c: Config, st: State, key: Key) {
    var m := Row(st.shards, FlowShard(c, key));
    key !in m && |m| >= Capacity(c.maxProfiles)
  }

  predicate AssetFull(c: Config, st: State, key: AssetKey) {
    var m := Row(st.assetShards, AssetShard(c, key));
    key !in m && |m| >= Capacity(c.maxAssetProfiles)
  }

  function Remembered(patterns: seq<Time>, at: Time): seq<Time> {
    var all := patterns + [at];
    if |all| > MAX_PATTERNS then all[|all|-MAX_PATTERNS..] else all
  }

  /** A flow shard after it learned the observation; a full shard gives up `victim` for a new flow. */
  function FlowRow(m: map<Key, Profile>, v: Sample, full: bool, victim: Key): map<Key, Profile> {
    var room := if full then m - {victim} else m;
    var p := if v.key in m then m[v.key] else NewProfile(v.key, v.at);
    room[v.key := UpdateProfile(p, v)]
  }

  function AssetRow(m: map<AssetKey, AssetProfile>, key: AssetKey, v: Sample, peer: string, assetIP: string,
                    peerIP: string, inbound: bool, full: bool, victim: AssetKey): map<AssetKey, AssetProfile> {
    var room := if full then m - {victim} else m;
    var p := if key in m then m[key] else NewAssetProfile(key, v.at, 0);
    room[key := UpdateAsset(p, v, peer, assetIP, peerIP, inbound)]
  }

  /** The gauge of a table that may lose one entry and gain one. */
  function Gauge(x: nat, added: bool, full: bool): nat {
    if added then Up(if full then Down(x) else x) else x
  }

  /** The trusted flow profile only. */
  function LearnFlow(c: Config, st: State, v: Sample, victim: Key): State {
    var i := FlowShard(c, v.key);
    var added, full := v.key !in Row(st.shards, i), FlowFull(c, st, v.key);
    st.(shards := SetRow(st.shards, i, FlowRow(Row(st.shards, i), v, full, victim)),
        profiles := Gauge(st.profiles, added, full),
        evicted := if full then st.evicted + 1 else st.evicted,
        patterns := if added then Remembered(st.patterns, v.at) else st.patterns)
  }

  function LearnAsset(c: Config, st: State, v: Sample, asset: string, peer: string, assetIP: string, peerIP: string,
                      inbound: bool, victim: AssetKey): State {
    var key := AssetKeyOf(v.key, asset);
    var i := AssetShard(c, key);
    var added, full := key !in Row(st.assetShards, i), AssetFull(c, st, key);
    st.(assetShards := SetRow(st.assetShards, i,
          AssetRow(Row(st.assetShards, i), key, v, peer, assetIP, peerIP, inbound, full, victim)),
        assetProfiles := Gauge(st.assetProfiles, added, full),
        evicted := if full then st.evicted + 1 else st.evicted)
  }

  function LearnSource(c: Config, st: State, v: Sample, w: Choice): State {
    if v.srcAsset != "" then LearnAsset(c, st, v, v.srcAsset, v.dstAsset, v.key.srcIP, v.key.dstIP, false, w.source)
    else st
  }

  function LearnTarget(c: Config, st: State, v: Sample, w: Choice): State {
    if v.dstAsset != "" && v.dstAsset != v.srcAsset
    then LearnAsset(c, st, v, v.dstAsset, v.srcAsset, v.key.dstIP, v.key.srcIP, true, w.target)
    else st
  }

  function Learn(c: Config, st: State, v: Sample, w: Choice): State {
    var s := LearnTarget(c, LearnSource(c, LearnFlow(c, st, v, w.flow), v, w), v, w);
    s.(revision := s.revision + 1)
  }

  ghost predicate LegalLearn(c: Config, st: State, v: Sample, w: Choice) {
    var s1 := LearnFlow(c, st, v, w.flow);
    var s2 := LearnSource(c, s1, v, w);
    && (FlowFull(c, st, v.key) ==> OldestFlow(Row(st.shards, FlowShard(c, v.key)), w.flow))
    && (v.srcAsset != "" && AssetFull(c, s1, AssetKeyOf(v.key, v.srcAsset)) ==>
          OldestAsset(Row(s1.assetShards, AssetShard(c, AssetKeyOf(v.key, v.srcAsset))), w.source))
    && (v.dstAsset != "" && v.dstAsset != v.srcAsset && AssetFull(c, s2, AssetKeyOf(v.key, v.dstAsset)) ==>
          OldestAsset(Row(s2.assetShards, AssetShard(c, AssetKeyOf(v.key, v.dstAsset))), w.target))
  }

  function NewCandidate(v: Sample, eligible: bool, reason: string): Candidate {
    Candidate(IdOf(v.key), v.key, v.at, 0, 0, 0, eligible, reason, NewProfile(v.key, v.at), v.srcAsset, v.dstAsset, {})
  }

  function UpdateCandidate(x: Candidate, v: Sample, eligible: bool, reason: string): Candidate {
    var days := x.days + {DayOf(v.at)};
    x.(lastSeen := v.at, observations := x.observations + 1, days := days, distinctDays := |days|,
       eligible := x.eligible && eligible,
       reason := if !eligible && reason != "" then reason else x.reason,
       profile := UpdateProfile(x.profile, v))
  }

  predicate CandidatesFull(c: Config, st: State, key: Key) {
    IdOf(key) !in st.candidates && |st.candidates| >= c.maxProfiles
  }

  function Shadow(c: Config, st: State, v: Sample, eligible: bool, reason: string, victim: CandidateId): State {
    var id := IdOf(v.key);
    var room := if CandidatesFull(c, st, v.key) then st.candidates - {victim} else st.candidates;
    var x := if id in st.candidates then st.candidates[id] else NewCandidate(v, eligible, reason);
    st.(candidates := room[id := UpdateCandidate(x, v, eligible, reason)])
  }

  /** What becomes of one observation. */
  datatype Outcome = Dropped | Refused | Trusted | Shadowed

  ghost function OutcomeOf(c: Config, st: State, v: Sample): Outcome
    requires ValidConfig(c)
  {
    var s := StartedBy(st, v.at);
    if ModeAt(c, s, v.at) == Learning then
      if Quarantined(s, v.key, v.at) then Refused
      else if ReviewOnly(c, v.key) then Shadowed
      else Trusted
    else if HasTrusted(c, s, v.key) then Dropped
    else Shadowed
  }

  /** The common start of an observation: the clock starts, the observation is counted and, while learning,
      the exclusion scan forgets expired entries. */
  ghost function Scanned(c: Config, st: State, v: Sample, w: Choice): State
    requires ValidConfig(c)
  {
    st.(started := StartedBy(st, v.at).started, observed := st.observed + 1,
        exclusions := if ModeAt(c, StartedBy(st, v.at), v.at) == Learning then st.exclusions - w.purged else st.exclusions)
  }

  function ReviewReason(c: Config, key: Key): string {
    if ReviewOnly(c, key) then REVIEW else ""
  }

  /** One observation. In every branch that shadows, the flow counts as eligible: the only ineligible
      reason is the review reason, and that one is admitted for review. */
  ghost function Observed(c: Config, st: State, v: Sample, w: Choice): State
    requires ValidConfig(c)
  {
    var s := Scanned(c, st, v, w);
    match OutcomeOf(c, st, v)
    case Dropped => s.(dropped := s.dropped + 1)
    case Refused => s.(excluded := s.excluded + 1)
    case Trusted => Learn(c, s, v, w)
    case Shadowed => Shadow(c, s, v, true, ReviewReason(c, v.key), w.candidate)
  }

  ghost predicate LegalPurge(c: Config, st: State, v: Sample, w: Choice)
    requires ValidConfig(c)
  {
    && (forall x :: x in w.purged ==> x in st.exclusions && Expired(st.exclusions[x], v.at))
    && (ModeAt(c, StartedBy(st, v.at), v.at) == Learning && OutcomeOf(c, st, v) != Refused ==>
          forall x :: x in st.exclusions && Expired(st.exclusions[x], v.at) ==> x in w.purged)
  }

  ghost predicate LegalChoice(c: Config, st: State, v: Sample, w: Choice)
    requires ValidConfig(c)
  {
    && LegalPurge(c, st, v, w)
    && (OutcomeOf(c, st, v) == Trusted ==> LegalLearn(c, Scanned(c, st, v, w), v, w))
    && (OutcomeOf(c, st, v) == Shadowed && CandidatesFull(c, st, v.key) ==> OldestCandidate(st.candidates, w.candidate))
  }

  // ---------- Operator commands ----------

  predicate ReadyForPromotion(c: Config, x: Candidate) {
    x.eligible && x.observations >= c.candidateMinSamples && |x.days| >= c.candidateMinDays
  }

  function PromoteVerdict(c: Config, st: State, id: CandidateId): PromoteResult {
    if id !in st.candidates then if id in st.promoted then AlreadyPromoted else NotFound
    else
      var x := st.candidates[id];
      if !x.eligible then NotEligible(x.reason)
      else if x.observations < c.candidateMinSamples || x.distinctDays < c.candidateMinDays then NeedsEvidence
      else Promoted
  }

  function SeedRow(m: map<AssetKey, AssetProfile>, k: AssetKey, key: Key, at: Time, peer: string, inbound: bool,
                   events: nat): map<AssetKey, AssetProfile> {
    var p := if k in m then m[k] else NewAssetProfile(k, at, at);
    m[k := PromoteAsset(p, key, at, peer, inbound, events)]
  }

  function SeedAsset(c: Config, st: State, key: Key, at: Time, asset: string, peer: string, inbound: bool, events: nat): State {
    if asset == "" then st
    else
      var k := AssetKeyOf(key, asset);
      var i := AssetShard(c, k);
      st.(assetShards := SetRow(st.assetShards, i, SeedRow(Row(st.assetShards, i), k, key, at, peer, inbound, events)),
          assetProfiles := Gauge(st.assetProfiles, k !in Row(st.assetShards, i), false))
  }

  function TrustProfile(c: Config, st: State, key: Key, p: Profile): State {
    var i := FlowShard(c, key);
    st.(shards := SetRow(st.shards, i, Row(st.shards, i)[key := p]),
        profiles := Gauge(st.profiles, key !in Row(st.shards, i), false))
  }

  function Promote(c: Config, st: State, id: CandidateId, now: Time): State {
    if PromoteVerdict(c, st, id) != Promoted then st
    else
      var x := st.candidates[id];
      var s0 := st.(candidates := st.candidates - {id}, promoted := st.promoted[id := now], failures := st.failures - {id});
      var s1 := TrustProfile(c, s0, x.key, x.profile);
      var events := if x.observations == 0 then 1 else x.observations;
      var s2 := SeedAsset(c, s1, x.key, x.lastSeen, x.srcAsset, x.dstAsset, false, events);
      var s3 := SeedAsset(c, s2, x.key, x.lastSeen, x.dstAsset, x.srcAsset, true, events);
      s3.(revision := s3.revision + 1)
  }

  /** Blank ids are ignored by the caller; a `Foreign` id is never blank here. */
  function RecordFailure(st: State, id: CandidateId, error: PromoteResult, now: Time): State {
    st.(failures := st.failures[id := Failure(id, error, now)], revision := st.revision + 1)
  }

  datatype CompleteResult = Disabled | AlreadyComplete | NotStarted | AlreadyMonitoring | TooEarly | Completed

  ghost function CompleteVerdict(c: Config, st: State, force: bool, now: Time): CompleteResult
    requires ValidConfig(c)
  {
    if !c.enabled then Disabled
    else if st.complete then AlreadyComplete
    else if st.started == 0 then NotStarted
    else if ModeAt(c, st, now) == Monitoring then AlreadyMonitoring
    else if !force && now - st.started < c.learningDuration then TooEarly
    else Completed
  }

  ghost function CompleteLearning(c: Config, st: State, force: bool, now: Time): State
    requires ValidConfig(c)
  {
    var r := CompleteVerdict(c, st, force, now);
    if r == AlreadyMonitoring || r == Completed then st.(complete := true, revision := st.revision + 1) else st
  }

  function Resolve(st: State, sensor: string, ip: string): string {
    if (sensor, ip) in st.identities && st.identities[(sensor, ip)] != "" then st.identities[(sensor, ip)] else "ip:" + ip
  }

  function Quarantine(x: Candidate, e: Exclusion): Candidate {
    if Excludes(e, x.key) then x.(eligible := false, reason := e.reason) else x
  }

  function Cleansed(m: map<Key, Profile>, e: Exclusion): map<Key, Profile> {
    map k | k in m && !Excludes(e, k) :: m[k]
  }

  function ForgetPeer(p: AssetProfile, a: string, b: string): AssetProfile {
    if p.key.assetID == a then p.(peers := p.peers - {b})
    else if p.key.assetID == b then p.(peers := p.peers - {a})
    else p
  }

  function ForgetPeers(m: map<AssetKey, AssetProfile>, a: string, b: string): map<AssetKey, AssetProfile> {
    map k | k in m :: ForgetPeer(m[k], a, b)
  }

  function CleansedAll(shards: seq<map<Key, Profile>>, e: Exclusion): (r: seq<map<Key, Profile>>)
    ensures |r| == |shards| && forall i :: 0 <= i < |shards| ==> r[i] == Cleansed(shards[i], e)
  {
    seq(|shards|, i requires 0 <= i < |shards| => Cleansed(shards[i], e))
  }

  function ForgetAll(shards: seq<map<AssetKey, AssetProfile>>, a: string, b: string): (r: seq<map<AssetKey, AssetProfile>>)
    ensures |r| == |shards| && forall i :: 0 <= i < |shards| ==> r[i] == ForgetPeers(shards[i], a, b)
  {
    seq(|shards|, i requires 0 <= i < |shards| => ForgetPeers(shards[i], a, b))
  }

  /** How many trusted flow profiles an exclusion deletes. */
  function Deleted(shards: seq<map<Key, Profile>>, e: Exclusion): nat {
    if shards == [] then 0
    else
      var row := shards[|shards|-1];
      Deleted(shards[..|shards|-1], e) + |set k | k in row && Excludes(e, k)|
  }

  function ExclusionEnd(e: Exclusion, now: Time): Time {
    if e.until == 0 then now + DAY else e.until
  }

  /** Records the exclusion and disqualifies its candidates. */
  function Disqualified(st: State, e: Exclusion, now: Time): State {
    st.(exclusions := st.exclusions[KeyOf(e) := ExclusionEnd(e, now)],
        candidates := map id | id in st.candidates :: Quarantine(st.candidates[id], e))
  }

  /** Deletes what was learned of the flow and of the peer relationship behind it. */
  function Unlearned(st: State, e: Exclusion): State {
    var removed := Deleted(st.shards, e);
    st.(shards := CleansedAll(st.shards, e),
        assetShards := ForgetAll(st.assetShards, Resolve(st, e.sensor, e.srcIP), Resolve(st, e.sensor, e.dstIP)),
        profiles := if removed > 0 then DownBy(st.profiles, removed) else st.profiles,
        revision := if removed > 0 then st.revision + 1 else st.revision)
  }

  ghost function ApplyExclusion(c: Config, st: State, e: Exclusion, now: Time): State
    requires ValidConfig(c)
  {
    var s0 := Disqualified(st, e, now);
    if ModeAt(c, s0, now) == Learning then Unlearned(s0, e) else s0
  }

  function Remember(st: State, sensor: string, ip: string, mac: string): State {
    if ip == "" then st
    else st.(identities := st.identities[(sensor, ip) := if mac != "" then "mac:" + mac else "ip:" + ip])
  }

  /** Reporting promotions and failures forgets those older than the retention window. */
  function Pruned(st: State, now: Time): State {
    st.(promoted := map id | id in st.promoted && st.promoted[id] >= now - RETENTION :: st.promoted[id],
        failures := map id | id in st.failures && st.failures[id].at >= now - RETENTION :: st.failures[id])
  }

  function Reset(st: State): State { Initial().(revision := st.revision + 1) }

  // ---------- Runs ----------

  datatype Event =
    | Observation(v: Sample, w: Choice)
    | PromoteCandidate(id: CandidateId, at: Time)
    | RecordPromotionFailure(id: CandidateId, error: PromoteResult, at: Time)
    | ApplyLearningExclusion(x: Exclusion, at: Time)
    | Complete(force: bool, at: Time)
    | RememberIdentity(sensor: string, ip: string, mac: string)
    | ReportStatus(at: Time)
    | ResetAll

  ghost predicate Legal(c: Config, st: State, e: Event)
    requires ValidConfig(c)
  {
    match e
    case Observation(v, w) => v.at > 0 && LegalChoice(c, st, v, w)
    case _ => true
  }

  ghost function Step(c: Config, st: State, e: Event): State
    requires ValidConfig(c)
  {
    match e
    case Observation(v, w) => Observed(c, st, v, w)
    case PromoteCandidate(id, at) => Promote(c, st, id, at)
    case RecordPromotionFailure(id, error, at) => RecordFailure(st, id, error, at)
    case ApplyLearningExclusion(x, at) => ApplyExclusion(c, st, x, at)
    case Complete(force, at) => CompleteLearning(c, st, force, at)
    case RememberIdentity(sensor, ip, mac) => Remember(st, sensor, ip, mac)
    case ReportStatus(at) => Pruned(st, at)
    case ResetAll => Reset(st)
  }

  ghost function Run(c: Config, st: State, es: seq<Event>): State
    requires ValidConfig(c)
  {
    if es == [] then st else Step(c, Run(c, st, es[..|es|-1]), es[|es|-1])
  }

  ghost predicate LegalRun(c: Config, st: State, es: seq<Event>)
    requires ValidConfig(c)
  {
    es != [] ==> LegalRun(c, st, es[..|es|-1]) && Legal(c, Run(c, st, es[..|es|-1]), es[|es|-1])
  }
}
