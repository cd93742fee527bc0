/**
  The records of the behaviour baseline and how one observation changes each of them.
  Times are nanoseconds; 0 is the zero time, so every observed time is positive.
*/
module BaselineModel {
  import opened Stats

  type Time = nat

  datatype Mode = Learning | Monitoring

  datatype Scope = Network | Application

  datatype Key = Key(
    sensor: string, scope: Scope, srcIP: string, dstIP: string, transport: string, protocol: string,
    servicePort: nat, timeBucket: nat, dayClass: string, shift: string, context: string)

  datatype AssetKey = AssetKey(
    sensor: string, assetID: string, timeBucket: nat, dayClass: string, shift: string, context: string)

  datatype Sample = Sample(
    key: Key, srcAsset: string, dstAsset: string, at: Time, bytes: nat, rttMillis: real,
    operation: string, packet: bool)

  datatype Profile = Profile(
    key: Key, firstSeen: Time, lastSeen: Time, packets: nat, bytes: nat,
    packetBytes: Stat, interArrival: Stat, rttMillis: Stat, operations: map<string, nat>)

  datatype Totals = Totals(packets: nat, bytes: nat, events: nat)

  datatype Peer = Peer(inbound: Totals, outbound: Totals, lastSeen: Time)

  datatype AssetProfile = AssetProfile(
    key: AssetKey, firstSeen: Time, lastSeen: Time, inbound: Totals, outbound: Totals,
    packetBytes: Stat, interArrival: Stat, rttMillis: Stat,
    peers: map<string, Peer>, protocols: map<string, Totals>, ports: map<nat, Totals>,
    operations: map<string, nat>, ips: map<string, nat>)

  /** The joined candidate id as its parts; Transport and Shift do not enter it. `Foreign` is any other
      id an operator command may carry. */
  datatype CandidateId =
    | FlowId(sensor: string, scope: Scope, srcIP: string, dstIP: string, protocol: string,
             servicePort: nat, timeBucket: nat, dayClass: string, context: string)
    | Foreign(text: string)

  datatype Candidate = Candidate(
    id: CandidateId, key: Key, firstSeen: Time, lastSeen: Time, observations: nat, distinctDays: nat,
    eligible: bool, reason: string, profile: Profile, srcAsset: string, dstAsset: string, days: set<nat>)

  datatype Failure = Failure(id: CandidateId, error: PromoteResult, at: Time)

  datatype PromoteResult = Promoted | AlreadyPromoted | NotFound | NotEligible(reason: string) | NeedsEvidence | NotPersisted

  datatype Exclusion = Exclusion(
    sensor: string, srcIP: string, dstIP: string, protocol: string, servicePort: nat, until: Time, reason: string)

  datatype ExclusionKey = ExclusionKey(
    sensor: string, srcIP: string, dstIP: string, protocol: string, servicePort: nat)

  const MAX_DIMENSIONS := 256
  const DAY: nat := 86_400_000_000_000
  const NO_TOTALS := Totals(0, 0, 0)

  function DayOf(at: Time): nat { at / DAY }

  function IdOf(key: Key): CandidateId {
    FlowId(key.sensor, key.scope, key.srcIP, key.dstIP, key.protocol, key.servicePort, key.timeBucket,
           key.dayClass, key.context)
  }

  function AssetKeyOf(key: Key, assetID: string): AssetKey {
    AssetKey(key.sensor, assetID, key.timeBucket, key.dayClass, key.shift, key.context)
  }

  function Bump<K>(m: map<K, nat>, k: K): map<K, nat> {
    m[k := (if k in m then m[k] else 0) + 1]
  }

  function Plus(a: Totals, b: Totals): Totals {
    Totals(a.packets + b.packets, a.bytes + b.bytes, a.events + b.events)
  }

  function Accumulate<K>(m: map<K, Totals>, k: K, delta: Totals): map<K, Totals> {
    m[k := Plus(if k in m then m[k] else NO_TOTALS, delta)]
  }

  function Gap(stat: Stat, last: Time, at: Time): Stat {
    if last != 0 && at > last then Observe(stat, (at - last) as real / 1000000.0) else stat
  }

  function NewProfile(key: Key, at: Time): Profile {
    Profile(key, at, 0, 0, 0, EMPTY, EMPTY, EMPTY, map[])
  }

  function UpdateProfile(p: Profile, v: Sample): (r: Profile)
    ensures r.key == p.key && r.firstSeen == p.firstSeen && r.lastSeen == v.at
  {
    Profile(
      p.key, p.firstSeen, v.at,
      if v.packet then p.packets + 1 else p.packets,
      if v.packet then p.bytes + v.bytes else p.bytes,
      if v.packet then Observe(p.packetBytes, v.bytes as real) else p.packetBytes,
      Gap(p.interArrival, p.lastSeen, v.at),
      if v.rttMillis > 0.0 then Observe(p.rttMillis, v.rttMillis) else p.rttMillis,
      if v.operation != "" then Bump(p.operations, v.operation) else p.operations)
  }

  function NewAssetProfile(key: AssetKey, at: Time, lastSeen: Time): AssetProfile {
    AssetProfile(key, at, lastSeen, NO_TOTALS, NO_TOTALS, EMPTY, EMPTY, EMPTY, map[], map[], map[], map[], map[])
  }

  function AddPeer(peers: map<string, Peer>, id: string, at: Time, inbound: bool, delta: Totals): map<string, Peer> {
    var peer := if id in peers then peers[id] else Peer(NO_TOTALS, NO_TOTALS, 0);
    peers[id := if inbound then Peer(Plus(peer.inbound, delta), peer.outbound, at)
                else Peer(peer.inbound, Plus(peer.outbound, delta), at)]
  }

  function EventsIn<K>(m: map<K, Totals>, k: K): nat { if k in m then m[k].events else 0 }

  function CountIn<K>(m: map<K, nat>, k: K): nat { if k in m then m[k] else 0 }

  /** One observed packet or operation, seen from one of its two assets. */
  function UpdateAsset(p: AssetProfile, v: Sample, peerID: string, assetIP: string, peerIP: string,
                       inbound: bool): (r: AssetProfile)
    ensures r.key == p.key && r.firstSeen == p.firstSeen && r.lastSeen == v.at
  {
    var delta := if v.packet then Totals(1, v.bytes, 1) else Totals(0, 0, 1);
    var peer := if peerID == "" then "ip:" + peerIP else peerID;
    AssetProfile(
      p.key, p.firstSeen, v.at,
      if inbound then Plus(p.inbound, delta) else p.inbound,
      if inbound then p.outbound else Plus(p.outbound, delta),
      if v.packet then Observe(p.packetBytes, v.bytes as real) else p.packetBytes,
      Gap(p.interArrival, p.lastSeen, v.at),
      if v.rttMillis > 0.0 then Observe(p.rttMillis, v.rttMillis) else p.rttMillis,
      if |p.peers| < MAX_DIMENSIONS || peer in p.peers then AddPeer(p.peers, peer, v.at, inbound, delta)
        else p.peers,
      if v.key.protocol != "" && (|p.protocols| < MAX_DIMENSIONS || EventsIn(p.protocols, v.key.protocol) > 0)
        then Accumulate(p.protocols, v.key.protocol, delta) else p.protocols,
      if v.key.servicePort > 0 && (|p.ports| < MAX_DIMENSIONS || EventsIn(p.ports, v.key.servicePort) > 0)
        then Accumulate(p.ports, v.key.servicePort, delta) else p.ports,
      if v.operation != "" && (|p.operations| < MAX_DIMENSIONS || CountIn(p.operations, v.operation) > 0)
        then Bump(p.operations, v.operation) else p.operations,
      if assetIP != "" && (|p.ips| < MAX_DIMENSIONS || CountIn(p.ips, assetIP) > 0)
        then Bump(p.ips, assetIP) else p.ips)
  }

  /** What promotion writes into an asset profile: `events` observations of the relationship, unbounded. */
  function PromoteAsset(p: AssetProfile, key: Key, at: Time, peerID: string, inbound: bool, events: nat): (r: AssetProfile)
    ensures r.key == p.key && r.firstSeen == p.firstSeen && r.lastSeen == p.lastSeen
  {
    var total := Totals(0, 0, events);
    p.(inbound := if inbound then Plus(p.inbound, total) else p.inbound,
       outbound := if inbound then p.outbound else Plus(p.outbound, total),
       peers := if peerID != "" then AddPeer(p.peers, peerID, at, inbound, total) else p.peers,
       protocols := Accumulate(p.protocols, key.protocol, total),
       ports := if key.servicePort != 0 then Accumulate(p.ports, key.servicePort, total) else p.ports)
  }

  // ---------- Exclusion matching ----------

  function LowerChar(c: char): char {
    if 'A' <= c <= 'Z' then c - 'A' + 'a' else c
  }

  function Lower(s: string): (r: string)
    ensures |r| == |s|
  {
    seq(|s|, i requires 0 <= i < |s| => LowerChar(s[i]))
  }

  function KeyOf(x: Exclusion): ExclusionKey {
    ExclusionKey(Lower(x.sensor), Lower(x.srcIP), Lower(x.dstIP), Lower(x.protocol), x.servicePort)
  }

  predicate Matches(key: Key, sensor: string, srcIP: string, dstIP: string, protocol: string, port: nat) {
    && (sensor == "" || key.sensor == sensor)
    && (protocol == "" || Lower(key.protocol) == Lower(protocol) || Lower(key.transport) == Lower(protocol))
    && (port == 0 || key.servicePort == port)
    && ((key.srcIP == srcIP && key.dstIP == dstIP) || (key.srcIP == dstIP && key.dstIP == srcIP))
  }

  predicate Excludes(x: Exclusion, key: Key) {
    Matches(key, x.sensor, x.srcIP, x.dstIP, x.protocol, x.servicePort)
  }

  predicate StoredExcludes(k: ExclusionKey, key: Key) {
    Matches(key, k.sensor, k.srcIP, k.dstIP, k.protocol, k.servicePort)
  }

  predicate SameFlowBase(a: Key, b: Key) {
    && a.sensor == b.sensor && a.scope == b.scope && a.srcIP == b.srcIP && a.dstIP == b.dstIP
    && a.transport == b.transport && a.protocol == b.protocol && a.servicePort == b.servicePort
  }

  /** Same flow at the same time of day in the same context, on any day class. */
  predicate SameFlowAndBucket(a: Key, b: Key) {
    SameFlowBase(a, b) && a.timeBucket == b.timeBucket && a.context == b.context
  }
}
