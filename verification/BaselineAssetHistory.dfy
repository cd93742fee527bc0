/**
  What the engine knows of an asset as a function of what happened to it: every trusted sample seen from its side,
  every promotion that seeded it and every exclusion that unlinked a peer, since its profile was created.
*/
module BaselineAssetHistory {
  import opened Options
  import opened BaselineModel
  import opened BaselineSpec
  import opened BaselineFrames
  import opened BaselineReachable
  import opened BaselineHistory
  import opened CappedTotals
  import opened Stats

  datatype Touch =
    | Saw(v: Sample, peer: string, ip: string, inbound: bool)
    | Seeded(key: Key, at: Time, peer: string, inbound: bool, events: nat)
    | Unlinked(peer: string)

  // ---------- What a list of touches adds up to ----------

  function At(t: Touch): Time {
    match t
    case Saw(v, _, _, _) => v.at
    case Seeded(_, at, _, _, _) => at
    case Unlinked(_) => 0
  }

  /** One event, and one packet of so many bytes if it was a packet; a promotion counts all its observations. */
  function Amount(t: Touch): Totals {
    match t
    case Saw(v, _, _, _) => if v.packet then Totals(1, v.bytes, 1) else Totals(0, 0, 1)
    case Seeded(_, _, _, _, events) => Totals(0, 0, events)
    case Unlinked(_) => NO_TOTALS
  }

  /** What a touch adds in one direction. */
  function Share(t: Touch, inbound: bool): Totals {
    if !t.Unlinked? && t.inbound == inbound then Amount(t) else NO_TOTALS
  }

  function Sum(ts: seq<Touch>, inbound: bool): Totals {
    if ts == [] then NO_TOTALS else Plus(Sum(ts[..|ts|-1], inbound), Share(ts[|ts|-1], inbound))
  }

  function Seen(ts: seq<Touch>): seq<Sample> {
    if ts == [] then [] else Seen(ts[..|ts|-1]) + if ts[|ts|-1].Saw? then [ts[|ts|-1].v] else []
  }

  /** When the asset was last seen; a promotion counts only if it created the profile. */
  function Clock(ts: seq<Touch>): Time {
    if ts == [] then 0
    else
      var t := ts[|ts|-1];
      if t.Saw? || (t.Seeded? && |ts| == 1) then At(t) else Clock(ts[..|ts|-1])
  }

  /** The pauses between sightings. */
  function Rests(ts: seq<Touch>): seq<real> {
    if ts == [] then []
    else
      var before, t := ts[..|ts|-1], ts[|ts|-1];
      Rests(before) + if t.Saw? && Clock(before) > 0 then Pause(Clock(before), t.v.at) else []
  }

  function PeerEntry(t: Touch, inbound: bool): seq<Entry<string>> {
    match t
    case Saw(_, peer, _, _) => [Add(peer, Share(t, inbound), false)]
    case Seeded(_, _, peer, _, _) => if peer != "" then [Add(peer, Share(t, inbound), true)] else []
    case Unlinked(peer) => [Drop(peer)]
  }

  function PeerEntries(ts: seq<Touch>, inbound: bool): seq<Entry<string>> {
    if ts == [] then [] else PeerEntries(ts[..|ts|-1], inbound) + PeerEntry(ts[|ts|-1], inbound)
  }

  /** When the peer was last met. */
  function LastMet(ts: seq<Touch>, peer: string): Time {
    if ts == [] then 0
    else if !ts[|ts|-1].Unlinked? && ts[|ts|-1].peer == peer != "" then At(ts[|ts|-1])
    else LastMet(ts[..|ts|-1], peer)
  }

  function ProtocolEntry(t: Touch): seq<Entry<string>> {
    match t
    case Saw(v, _, _, _) => if v.key.protocol != "" then [Add(v.key.protocol, Amount(t), false)] else []
    case Seeded(key, _, _, _, _) => [Add(key.protocol, Amount(t), true)]
    case Unlinked(_) => []
  }

  function Protocols(ts: seq<Touch>): seq<Entry<string>> {
    if ts == [] then [] else Protocols(ts[..|ts|-1]) + ProtocolEntry(ts[|ts|-1])
  }

  function PortEntry(t: Touch): seq<Entry<nat>> {
    match t
    case Saw(v, _, _, _) => if v.key.servicePort > 0 then [Add(v.key.servicePort, Amount(t), false)] else []
    case Seeded(key, _, _, _, _) => if key.servicePort > 0 then [Add(key.servicePort, Amount(t), true)] else []
    case Unlinked(_) => []
  }

  function Ports(ts: seq<Touch>): seq<Entry<nat>> {
    if ts == [] then [] else Ports(ts[..|ts|-1]) + PortEntry(ts[|ts|-1])
  }

  const ONE := Totals(0, 0, 1)

  function Operations(ts: seq<Touch>): seq<Entry<string>> {
    if ts == [] then []
    else
      var t := ts[|ts|-1];
      Operations(ts[..|ts|-1]) + if t.Saw? && t.v.operation != "" then [Add(t.v.operation, ONE, false)] else []
  }

  function Addresses(ts: seq<Touch>): seq<Entry<string>> {
    if ts == [] then []
    else
      var t := ts[|ts|-1];
      Addresses(ts[..|ts|-1]) + if t.Saw? && t.ip != "" then [Add(t.ip, ONE, false)] else []
  }

  // ---------- The profile those touches leave ----------

  ghost predicate Measures(p: AssetProfile, ts: seq<Touch>) {
    && p.inbound == Sum(ts, true) && p.outbound == Sum(ts, false)
    && p.packetBytes == After(Sizes(Seen(ts))) && p.rttMillis == After(RoundTrips(Seen(ts)))
    && p.interArrival == After(Rests(ts))
  }

  ghost predicate KnowsPeers(m: map<string, Peer>, ts: seq<Touch>) {
    && m.Keys == Present(PeerEntries(ts, true)) == Present(PeerEntries(ts, false))
    && forall k :: k in m ==> m[k] == Peer(Since(PeerEntries(ts, true), k), Since(PeerEntries(ts, false), k), LastMet(ts, k))
  }

  /** Totals in each direction, sizes, pauses and round trips, and per peer, protocol, port, operation and address what
      the touches add up to, at most 256 names each unless promoted. */
  ghost predicate Adds(p: AssetProfile, ts: seq<Touch>) {
    && Measures(p, ts) && KnowsPeers(p.peers, ts)
    && Tabulates(p.protocols, Protocols(ts)) && Tabulates(p.ports, Ports(ts))
    && Enumerates(p.operations, Operations(ts)) && Enumerates(p.ips, Addresses(ts))
  }

  ghost predicate Timely(ts: seq<Touch>) {
    forall t :: t in ts ==> match t case Saw(v, _, _, _) => v.at > 0 case Seeded(_, at, _, _, events) => at > 0 && events > 0 case _ => true
  }

  ghost predicate Knows(p: AssetProfile, k: AssetKey, ts: seq<Touch>) {
    && ts != [] && !ts[0].Unlinked? && Timely(ts)
    && p.key == k && p.firstSeen == At(ts[0]) && p.lastSeen == Clock(ts) && Adds(p, ts)
  }

  // ---------- One more touch ----------

  lemma Split(ts: seq<Touch>, t: Touch)
    ensures (ts + [t])[..|ts + [t]|-1] == ts && (ts + [t])[|ts + [t]|-1] == t && ts + [t] != []
  {
  }

  lemma MeasuresSaw(p: AssetProfile, ts: seq<Touch>, v: Sample, peerID: string, assetIP: string, peerIP: string, inbound: bool,
                    t: Touch)
    requires Measures(p, ts) && p.lastSeen == Clock(ts) && t == Saw(v, PeerName(peerID, peerIP), assetIP, inbound)
    ensures Measures(UpdateAsset(p, v, peerID, assetIP, peerIP, inbound), ts + [t])
  {
    Split(ts, t);
    UpdatedMeasures(p, v, peerID, assetIP, peerIP, inbound);
    hide UpdateAsset, After, Sizes, RoundTrips, Clock, Pause, Plus, Observe, Gap;
    SamplesNext(Seen(ts), v);
    AfterNext(Sizes(Seen(ts)), v.bytes as real);
    AfterNext(RoundTrips(Seen(ts)), v.rttMillis);
    assert Sizes(Seen(ts)) + [] == Sizes(Seen(ts)) && RoundTrips(Seen(ts)) + [] == RoundTrips(Seen(ts));
    assert Rests(ts) + [] == Rests(ts);
    if Clock(ts) > 0 { GapNext(Rests(ts), Clock(ts), v.at); } else { NoGap(p.interArrival, v.at); }
    NothingMore(Sum(ts, !inbound));
  }

  lemma NothingMore(a: Totals)
    ensures Plus(a, NO_TOTALS) == a && Plus(NO_TOTALS, a) == a
  {
  }

  lemma NoGap(s: Stat, at: Time)
    ensures Gap(s, 0, at) == s
  {
  }

  /** The name a peer goes by: its identity, else its address. */
  function PeerName(peerID: string, peerIP: string): string { if peerID == "" then "ip:" + peerIP else peerID }

  lemma UpdatedMeasures(p: AssetProfile, v: Sample, peerID: string, assetIP: string, peerIP: string, inbound: bool)
    ensures var r, d := UpdateAsset(p, v, peerID, assetIP, peerIP, inbound), if v.packet then Totals(1, v.bytes, 1) else Totals(0, 0, 1);
            && r.inbound == (if inbound then Plus(p.inbound, d) else p.inbound)
            && r.outbound == (if inbound then p.outbound else Plus(p.outbound, d))
            && r.packetBytes == (if v.packet then Observe(p.packetBytes, v.bytes as real) else p.packetBytes)
            && r.interArrival == Gap(p.interArrival, p.lastSeen, v.at)
            && r.rttMillis == (if v.rttMillis > 0.0 then Observe(p.rttMillis, v.rttMillis) else p.rttMillis)
  {
    hide Observe, Gap, AddPeer, Accumulate, Bump, EventsIn, CountIn, Plus;
  }

  lemma UpdatedDimensions(p: AssetProfile, v: Sample, peerID: string, assetIP: string, peerIP: string, inbound: bool)
    ensures var r, d := UpdateAsset(p, v, peerID, assetIP, peerIP, inbound), if v.packet then Totals(1, v.bytes, 1) else Totals(0, 0, 1);
            var peer := PeerName(peerID, peerIP);
            && r.peers == (if |p.peers| < MAX_DIMENSIONS || peer in p.peers then AddPeer(p.peers, peer, v.at, inbound, d) else p.peers)
            && r.protocols == (if v.key.protocol != "" && (|p.protocols| < MAX_DIMENSIONS || EventsIn(p.protocols, v.key.protocol) > 0)
                               then Accumulate(p.protocols, v.key.protocol, d) else p.protocols)
            && r.ports == (if v.key.servicePort > 0 && (|p.ports| < MAX_DIMENSIONS || EventsIn(p.ports, v.key.servicePort) > 0)
                           then Accumulate(p.ports, v.key.servicePort, d) else p.ports)
            && r.operations == (if v.operation != "" && (|p.operations| < MAX_DIMENSIONS || CountIn(p.operations, v.operation) > 0)
                                then Bump(p.operations, v.operation) else p.operations)
            && r.ips == (if assetIP != "" && (|p.ips| < MAX_DIMENSIONS || CountIn(p.ips, assetIP) > 0)
                         then Bump(p.ips, assetIP) else p.ips)
  {
    hide Observe, Gap, AddPeer, Accumulate, Bump, EventsIn, CountIn, Plus;
  }

  /** What a touch in one direction does to a peer's entries in either. */
  lemma PeerEntriesNext(ts: seq<Touch>, t: Touch, inbound: bool)
    ensures PeerEntries(ts + [t], inbound) == PeerEntries(ts, inbound) + PeerEntry(t, inbound)
  {
    Split(ts, t);
    hide PeerEntry;
  }

  lemma PeerMet(m: map<string, Peer>, ts: seq<Touch>, t: Touch, free: bool)
    requires KnowsPeers(m, ts) && !t.Unlinked? && t.peer != ""
    requires forall inbound :: PeerEntry(t, inbound) == [Add(t.peer, Share(t, inbound), free)]
    ensures KnowsPeers(if free || |m| < MAX_DIMENSIONS || t.peer in m then AddPeer(m, t.peer, At(t), t.inbound, Amount(t)) else m, ts + [t])
  {
    hide Present, Since, PeerEntries, PeerEntry, AddPeer;
    PeerEntriesNext(ts, t, true);
    PeerEntriesNext(ts, t, false);
    PeersMet(m, ts, t, free);
    var r := if free || |m| < MAX_DIMENSIONS || t.peer in m then AddPeer(m, t.peer, At(t), t.inbound, Amount(t)) else m;
    forall k | k in r
      ensures r[k] == Peer(Since(PeerEntries(ts + [t], true), k), Since(PeerEntries(ts + [t], false), k), LastMet(ts + [t], k))
    {
      PeerMetAt(m, ts, t, free, k);
    }
  }

  lemma PeersMet(m: map<string, Peer>, ts: seq<Touch>, t: Touch, free: bool)
    requires KnowsPeers(m, ts) && !t.Unlinked?
    ensures var r := if free || |m| < MAX_DIMENSIONS || t.peer in m then AddPeer(m, t.peer, At(t), t.inbound, Amount(t)) else m;
            r.Keys == Present(PeerEntries(ts, true) + [Add(t.peer, Share(t, true), free)])
                   == Present(PeerEntries(ts, false) + [Add(t.peer, Share(t, false), free)])
  {
    hide Present, Since, PeerEntries, Amount, At, Share;
    assert |m| == |m.Keys|;
    EntryAdded(PeerEntries(ts, true), t.peer, Share(t, true), free, t.peer);
    EntryAdded(PeerEntries(ts, false), t.peer, Share(t, false), free, t.peer);
  }

  lemma PeerMetAt(m: map<string, Peer>, ts: seq<Touch>, t: Touch, free: bool, k: string)
    requires KnowsPeers(m, ts) && !t.Unlinked? && t.peer != ""
    requires k in if free || |m| < MAX_DIMENSIONS || t.peer in m then AddPeer(m, t.peer, At(t), t.inbound, Amount(t)) else m
    ensures (if free || |m| < MAX_DIMENSIONS || t.peer in m then AddPeer(m, t.peer, At(t), t.inbound, Amount(t)) else m)[k]
         == Peer(Since(PeerEntries(ts, true) + [Add(t.peer, Share(t, true), free)], k),
                 Since(PeerEntries(ts, false) + [Add(t.peer, Share(t, false), free)], k), LastMet(ts + [t], k))
  {
    var a, b := PeerEntries(ts, true), PeerEntries(ts, false);
    Split(ts, t);
    hide Present, Since, PeerEntries, Amount, At, Share;
    assert |m| == |m.Keys|;
    EntryAdded(a, t.peer, Share(t, true), free, k);
    EntryAdded(b, t.peer, Share(t, false), free, k);
    if t.peer !in m { AbsentHasNone(a, t.peer); AbsentHasNone(b, t.peer); }
    if k == t.peer { PeerTotals(m, ts, t, k); }
  }

  lemma PeerTotals(m: map<string, Peer>, ts: seq<Touch>, t: Touch, k: string)
    requires !t.Unlinked? && k == t.peer && (k in m ==> m[k].inbound == Since(PeerEntries(ts, true), k) && m[k].outbound == Since(PeerEntries(ts, false), k))
    requires k !in m ==> Since(PeerEntries(ts, true), k) == NO_TOTALS == Since(PeerEntries(ts, false), k)
    ensures AddPeer(m, k, At(t), t.inbound, Amount(t))[k]
         == Peer(Plus(Since(PeerEntries(ts, true), k), Share(t, true)), Plus(Since(PeerEntries(ts, false), k), Share(t, false)), At(t))
  {
    hide Since, PeerEntries, Amount, At, Plus;
    NothingMore(Since(PeerEntries(ts, true), k));
    NothingMore(Since(PeerEntries(ts, false), k));
  }

  lemma EntriesNext(ts: seq<Touch>, t: Touch)
    ensures Protocols(ts + [t]) == Protocols(ts) + ProtocolEntry(t)
    ensures Ports(ts + [t]) == Ports(ts) + PortEntry(t)
    ensures Operations(ts + [t]) == Operations(ts) + if t.Saw? && t.v.operation != "" then [Add(t.v.operation, ONE, false)] else []
    ensures Addresses(ts + [t]) == Addresses(ts) + if t.Saw? && t.ip != "" then [Add(t.ip, ONE, false)] else []
  {
    Split(ts, t);
    hide ProtocolEntry, PortEntry;
  }

  lemma NoEntry<K>(xs: seq<Entry<K>>)
    ensures xs + [] == xs
  {
  }

  lemma ProtocolMet(m: map<string, Totals>, ts: seq<Touch>, t: Touch)
    requires Tabulates(m, Protocols(ts)) && Amount(t).events > 0
    ensures t.Saw? ==>
              Tabulates(if t.v.key.protocol != "" && (|m| < MAX_DIMENSIONS || EventsIn(m, t.v.key.protocol) > 0)
                        then Accumulate(m, t.v.key.protocol, Amount(t)) else m, Protocols(ts + [t]))
    ensures t.Seeded? ==> Tabulates(Accumulate(m, t.key.protocol, Amount(t)), Protocols(ts + [t]))
  {
    EntriesNext(ts, t);
    NoEntry(Protocols(ts));
    hide Tabulates, Protocols, Accumulate, EventsIn, Amount;
    if t.Saw? && t.v.key.protocol != "" { AddTabulates(m, Protocols(ts), t.v.key.protocol, Amount(t), false); }
    if t.Seeded? { AddTabulates(m, Protocols(ts), t.key.protocol, Amount(t), true); }
  }

  lemma PortMet(m: map<nat, Totals>, ts: seq<Touch>, t: Touch)
    requires Tabulates(m, Ports(ts)) && Amount(t).events > 0
    ensures t.Saw? ==>
              Tabulates(if t.v.key.servicePort > 0 && (|m| < MAX_DIMENSIONS || EventsIn(m, t.v.key.servicePort) > 0)
                        then Accumulate(m, t.v.key.servicePort, Amount(t)) else m, Ports(ts + [t]))
    ensures t.Seeded? ==>
              Tabulates(if t.key.servicePort != 0 then Accumulate(m, t.key.servicePort, Amount(t)) else m, Ports(ts + [t]))
  {
    EntriesNext(ts, t);
    NoEntry(Ports(ts));
    hide Tabulates, Ports, Accumulate, EventsIn, Amount;
    if t.Saw? && t.v.key.servicePort > 0 { AddTabulates(m, Ports(ts), t.v.key.servicePort, Amount(t), false); }
    if t.Seeded? && t.key.servicePort != 0 { AddTabulates(m, Ports(ts), t.key.servicePort, Amount(t), true); }
  }

  lemma OperationMet(m: map<string, nat>, ts: seq<Touch>, t: Touch)
    requires Enumerates(m, Operations(ts))
    ensures Enumerates(if t.Saw? && t.v.operation != "" && (|m| < MAX_DIMENSIONS || CountIn(m, t.v.operation) > 0)
                       then Bump(m, t.v.operation) else m, Operations(ts + [t]))
  {
    EntriesNext(ts, t);
    NoEntry(Operations(ts));
    hide Enumerates, Operations, Bump, CountIn;
    if t.Saw? && t.v.operation != "" { AddEnumerates(m, Operations(ts), t.v.operation); }
  }

  lemma AddressMet(m: map<string, nat>, ts: seq<Touch>, t: Touch)
    requires Enumerates(m, Addresses(ts))
    ensures Enumerates(if t.Saw? && t.ip != "" && (|m| < MAX_DIMENSIONS || CountIn(m, t.ip) > 0)
                       then Bump(m, t.ip) else m, Addresses(ts + [t]))
  {
    EntriesNext(ts, t);
    NoEntry(Addresses(ts));
    hide Enumerates, Addresses, Bump, CountIn;
    if t.Saw? && t.ip != "" { AddEnumerates(m, Addresses(ts), t.ip); }
  }

  lemma SawEntry(t: Touch)
    requires t.Saw?
    ensures forall inbound :: PeerEntry(t, inbound) == [Add(t.peer, Share(t, inbound), false)]
    ensures Amount(t) == (if t.v.packet then Totals(1, t.v.bytes, 1) else Totals(0, 0, 1)) && At(t) == t.v.at
  {
  }

  lemma AddsSaw(p: AssetProfile, ts: seq<Touch>, v: Sample, peerID: string, assetIP: string, peerIP: string, inbound: bool)
    requires Adds(p, ts) && p.lastSeen == Clock(ts)
    ensures Adds(UpdateAsset(p, v, peerID, assetIP, peerIP, inbound), ts + [Saw(v, PeerName(peerID, peerIP), assetIP, inbound)])
  {
    var t := Saw(v, PeerName(peerID, peerIP), assetIP, inbound);
    assert t.peer != "";
    hide UpdateAsset, Measures, KnowsPeers, Tabulates, Enumerates, Protocols, Ports, Operations, Addresses, AddPeer, Accumulate, Bump,
         EventsIn, CountIn, PeerName, PeerEntry, Share, Clock, Amount, At;
    MeasuresSaw(p, ts, v, peerID, assetIP, peerIP, inbound, t);
    UpdatedDimensions(p, v, peerID, assetIP, peerIP, inbound);
    SawEntry(t);
    PeerMet(p.peers, ts, t, false);
    ProtocolMet(p.protocols, ts, t);
    PortMet(p.ports, ts, t);
    OperationMet(p.operations, ts, t);
    AddressMet(p.ips, ts, t);
  }

  lemma MeasuresSeeded(p: AssetProfile, ts: seq<Touch>, t: Touch)
    requires Measures(p, ts) && t.Seeded?
    ensures Measures(PromoteAsset(p, t.key, t.at, t.peer, t.inbound, t.events), ts + [t])
  {
    Split(ts, t);
    hide After, AddPeer, Accumulate, Plus;
    assert Seen(ts) + [] == Seen(ts) && Rests(ts) + [] == Rests(ts);
    NothingMore(Sum(ts, !t.inbound));
  }

  lemma SeededDimensions(p: AssetProfile, t: Touch)
    requires t.Seeded?
    ensures var r := PromoteAsset(p, t.key, t.at, t.peer, t.inbound, t.events);
            && r.peers == (if t.peer != "" then AddPeer(p.peers, t.peer, At(t), t.inbound, Amount(t)) else p.peers)
            && r.protocols == Accumulate(p.protocols, t.key.protocol, Amount(t))
            && r.ports == (if t.key.servicePort != 0 then Accumulate(p.ports, t.key.servicePort, Amount(t)) else p.ports)
            && r.operations == p.operations && r.ips == p.ips
    ensures Amount(t).events == t.events
    ensures t.peer != "" ==> forall inbound :: PeerEntry(t, inbound) == [Add(t.peer, Share(t, inbound), true)]
  {
    hide AddPeer, Accumulate;
  }

  lemma AddsSeeded(p: AssetProfile, ts: seq<Touch>, t: Touch)
    requires Adds(p, ts) && t.Seeded? && t.events > 0
    ensures Adds(PromoteAsset(p, t.key, t.at, t.peer, t.inbound, t.events), ts + [t])
  {
    hide PromoteAsset, Measures, KnowsPeers, Tabulates, Enumerates, Protocols, Ports, Operations, Addresses, AddPeer, Accumulate,
         EventsIn, CountIn, Bump, PeerEntry, Share, Amount, At;
    MeasuresSeeded(p, ts, t);
    SeededDimensions(p, t);
    if t.peer != "" { PeerMet(p.peers, ts, t, true); } else { PeersUntouched(p.peers, ts, t); }
    ProtocolMet(p.protocols, ts, t);
    PortMet(p.ports, ts, t);
    OperationMet(p.operations, ts, t);
    AddressMet(p.ips, ts, t);
  }

  lemma PeersUntouched(m: map<string, Peer>, ts: seq<Touch>, t: Touch)
    requires KnowsPeers(m, ts) && t.Seeded? && t.peer == ""
    ensures KnowsPeers(m, ts + [t])
  {
    Split(ts, t);
    PeerEntriesNext(ts, t, true);
    PeerEntriesNext(ts, t, false);
    NoEntry(PeerEntries(ts, true));
    NoEntry(PeerEntries(ts, false));
    hide PeerEntries, Present, Since;
  }

  lemma AddsUnlinked(p: AssetProfile, ts: seq<Touch>, peer: string)
    requires Adds(p, ts)
    ensures Adds(p.(peers := p.peers - {peer}), ts + [Unlinked(peer)])
  {
    hide Measures, KnowsPeers, Tabulates, Enumerates, Protocols, Ports, Operations, Addresses;
    UnlinkedEntries(ts, peer);
    PeerForgotten(p.peers, ts, peer);
    MeasuresUnlinked(p, ts, peer);
  }

  lemma UnlinkedEntries(ts: seq<Touch>, peer: string)
    ensures var all := ts + [Unlinked(peer)];
            Protocols(all) == Protocols(ts) && Ports(all) == Ports(ts) && Operations(all) == Operations(ts) && Addresses(all) == Addresses(ts)
  {
    hide Protocols, Ports, Operations, Addresses;
    EntriesNext(ts, Unlinked(peer));
    NoEntry(Protocols(ts));
    NoEntry(Ports(ts));
    NoEntry(Operations(ts));
    NoEntry(Addresses(ts));
  }

  lemma MeasuresUnlinked(p: AssetProfile, ts: seq<Touch>, peer: string)
    requires Measures(p, ts)
    ensures Measures(p.(peers := p.peers - {peer}), ts + [Unlinked(peer)])
  {
    Split(ts, Unlinked(peer));
    hide After, Plus;
    assert Seen(ts) + [] == Seen(ts) && Rests(ts) + [] == Rests(ts);
    NothingMore(Sum(ts, true));
    NothingMore(Sum(ts, false));
  }

  lemma PeerForgotten(m: map<string, Peer>, ts: seq<Touch>, peer: string)
    requires KnowsPeers(m, ts)
    ensures KnowsPeers(m - {peer}, ts + [Unlinked(peer)])
  {
    var t := Unlinked(peer);
    var a, b := PeerEntries(ts, true), PeerEntries(ts, false);
    Split(ts, t);
    PeerEntriesNext(ts, t, true);
    PeerEntriesNext(ts, t, false);
    hide PeerEntries, Present, Since;
    EntryDropped(a, peer, peer);
    EntryDropped(b, peer, peer);
    assert (m - {peer}).Keys == m.Keys - {peer};
    forall k | k in m - {peer}
      ensures m[k] == Peer(Since(a + [Drop(peer)], k), Since(b + [Drop(peer)], k), LastMet(ts + [t], k))
    {
      EntryDropped(a, peer, k);
      EntryDropped(b, peer, k);
    }
  }

  // ---------- The profile of an asset with a life ----------

  lemma KnowsSaw(p: AssetProfile, k: AssetKey, ts: seq<Touch>, v: Sample, peerID: string, assetIP: string, peerIP: string, inbound: bool)
    requires Knows(p, k, ts) && v.at > 0
    ensures Knows(UpdateAsset(p, v, peerID, assetIP, peerIP, inbound), k, ts + [Saw(v, PeerName(peerID, peerIP), assetIP, inbound)])
  {
    hide UpdateAsset, Adds, PeerName;
    var t := Saw(v, PeerName(peerID, peerIP), assetIP, inbound);
    AddsSaw(p, ts, v, peerID, assetIP, peerIP, inbound);
    Split(ts, t);
    assert forall x :: x in ts + [t] <==> x in ts || x == t;
  }

  lemma NothingTouched(p: AssetProfile)
    requires p == NewAssetProfile(p.key, p.firstSeen, p.lastSeen)
    ensures Adds(p, []) && Clock([]) == 0
  {
    hide After;
    assert After([]) == EMPTY by { NothingSampled(); }
    assert Sizes([]) == [] && RoundTrips([]) == [];
  }

  lemma KnowsFirstSaw(k: AssetKey, v: Sample, peerID: string, assetIP: string, peerIP: string, inbound: bool)
    requires v.at > 0
    ensures Knows(UpdateAsset(NewAssetProfile(k, v.at, 0), v, peerID, assetIP, peerIP, inbound), k,
                  [Saw(v, PeerName(peerID, peerIP), assetIP, inbound)])
  {
    hide UpdateAsset, Adds, PeerName;
    var t := Saw(v, PeerName(peerID, peerIP), assetIP, inbound);
    NothingTouched(NewAssetProfile(k, v.at, 0));
    AddsSaw(NewAssetProfile(k, v.at, 0), [], v, peerID, assetIP, peerIP, inbound);
    assert [] + [t] == [t];
  }

  lemma KnowsSeeded(p: AssetProfile, k: AssetKey, ts: seq<Touch>, t: Touch)
    requires Knows(p, k, ts) && t.Seeded? && t.events > 0 && t.at > 0
    ensures Knows(PromoteAsset(p, t.key, t.at, t.peer, t.inbound, t.events), k, ts + [t])
  {
    hide PromoteAsset, Adds;
    AddsSeeded(p, ts, t);
    Split(ts, t);
    assert forall x :: x in ts + [t] <==> x in ts || x == t;
  }

  lemma KnowsFirstSeeded(k: AssetKey, t: Touch)
    requires t.Seeded? && t.events > 0 && t.at > 0
    ensures Knows(PromoteAsset(NewAssetProfile(k, t.at, t.at), t.key, t.at, t.peer, t.inbound, t.events), k, [t])
  {
    hide PromoteAsset, Adds;
    NothingTouched(NewAssetProfile(k, t.at, t.at));
    AddsSeeded(NewAssetProfile(k, t.at, t.at), [], t);
    assert [] + [t] == [t];
  }

  lemma KnowsUnlinked(p: AssetProfile, k: AssetKey, ts: seq<Touch>, peer: string)
    requires Knows(p, k, ts)
    ensures Knows(p.(peers := p.peers - {peer}), k, ts + [Unlinked(peer)])
  {
    hide Adds;
    var t := Unlinked(peer);
    AddsUnlinked(p, ts, peer);
    Split(ts, t);
    assert forall x :: x in ts + [t] <==> x in ts || x == t;
  }

  // ---------- The life of an asset ----------

  function TouchedBy(life: Option<seq<Touch>>, hit: bool, t: Touch, evicted: bool): Option<seq<Touch>> {
    if hit then Some((if life.Some? then life.value else []) + [t]) else if evicted then None else life
  }

  /** A full shard gives up this asset for a new one. */
  ghost predicate Evicts(c: Config, st: State, target: AssetKey, victim: AssetKey, k: AssetKey) {
    && AssetShard(c, target) == AssetShard(c, k) && victim == k
    && Crowded(Row(st.assetShards, AssetShard(c, k)), target, c.maxAssetProfiles)
  }

  lemma CrowdedMeansFull(c: Config, st: State, k: AssetKey)
    ensures AssetFull(c, st, k) <==> Crowded(Row(st.assetShards, AssetShard(c, k)), k, c.maxAssetProfiles)
  {
  }

  ghost function LearnedBy(c: Config, st: State, life: Option<seq<Touch>>, v: Sample, w: Choice, k: AssetKey): Option<seq<Touch>> {
    var source, target := AssetKeyOf(v.key, v.srcAsset), AssetKeyOf(v.key, v.dstAsset);
    var l := if v.srcAsset == "" then life
             else TouchedBy(life, source == k, Saw(v, PeerName(v.dstAsset, v.key.dstIP), v.key.srcIP, false),
                            Evicts(c, st, source, w.source, k));
    if v.dstAsset == "" || v.dstAsset == v.srcAsset then l
    else TouchedBy(l, target == k, Saw(v, PeerName(v.srcAsset, v.key.srcIP), v.key.dstIP, true),
                   Evicts(c, LearnSource(c, st, v, w), target, w.target, k))
  }

  function SeededBy(life: Option<seq<Touch>>, vs: seq<Sample>, k: AssetKey): Option<seq<Touch>>
    requires vs != []
  {
    var first, at := vs[0], vs[|vs|-1].at;
    var l := if first.srcAsset == "" then life
             else TouchedBy(life, AssetKeyOf(first.key, first.srcAsset) == k, Seeded(first.key, at, first.dstAsset, false, |vs|), false);
    if first.dstAsset == "" then l
    else TouchedBy(l, AssetKeyOf(first.key, first.dstAsset) == k, Seeded(first.key, at, first.srcAsset, true, |vs|), false)
  }

  /** What happened to an asset since its profile was created: each trusted sample seen from its side, outbound as a
      source and inbound as a target; each promotion of a candidate between it and a peer, with all the candidate's
      observations; each exclusion, while learning, of its traffic with a peer. Ended by eviction or reset. */
  ghost function AssetLife(c: Config, es: seq<Event>, k: AssetKey): Option<seq<Touch>>
    requires ValidConfig(c)
  {
    if es == [] then None
    else NextAssetLife(c, Run(c, Initial(), es[..|es|-1]), AssetLife(c, es[..|es|-1], k), es[..|es|-1], es[|es|-1], k)
  }

  ghost function NextAssetLife(c: Config, st: State, life: Option<seq<Touch>>, before: seq<Event>, e: Event, k: AssetKey): Option<seq<Touch>>
    requires ValidConfig(c)
  {
    match e
    case Observation(v, w) =>
      if OutcomeOf(c, st, v) != Trusted then life else LearnedBy(c, LearnFlow(c, Scanned(c, st, v, w), v, w.flow), life, v, w, k)
    case PromoteCandidate(id, _) =>
      var shadow := CandidateLife(c, before, id);
      if Ripe(c, shadow) && shadow.value.samples != [] then SeededBy(life, shadow.value.samples, k) else life
    case ApplyLearningExclusion(x, at) =>
      if ModeAt(c, st, at) == Learning && life.Some? then
        Some(life.value + Severed(Resolve(st, x.sensor, x.srcIP), Resolve(st, x.sensor, x.dstIP), k))
      else life
    case ResetAll => None
    case _ => life
  }

  /** An exclusion between two assets unlinks each from the other. */
  function Severed(a: string, b: string, k: AssetKey): seq<Touch> {
    if k.assetID == a then [Unlinked(b)] else if k.assetID == b then [Unlinked(a)] else []
  }

  ghost predicate AssetFollows(c: Config, shards: seq<map<AssetKey, AssetProfile>>, k: AssetKey, life: Option<seq<Touch>>) {
    && |shards| == SHARDS
    && (k in shards[AssetShard(c, k)] <==> life.Some?)
    && (life.Some? ==> Knows(shards[AssetShard(c, k)][k], k, life.value))
  }

  lemma LearnAssetFollows(c: Config, st: State, v: Sample, asset: string, peer: string, ip: string, peerIP: string, inbound: bool,
                          victim: AssetKey, k: AssetKey, life: Option<seq<Touch>>)
    requires AssetFollows(c, st.assetShards, k, life) && v.at > 0
    ensures var key := AssetKeyOf(v.key, asset);
            AssetFollows(c, LearnAsset(c, st, v, asset, peer, ip, peerIP, inbound, victim).assetShards, k,
                         TouchedBy(life, key == k, Saw(v, PeerName(peer, peerIP), ip, inbound), Evicts(c, st, key, victim, k)))
  {
    var key := AssetKeyOf(v.key, asset);
    CrowdedMeansFull(c, st, key);
    hide UpdateAsset, Gauge, Knows, PeerName, Capacity, Crowded, AssetFull;
    var t := Saw(v, PeerName(peer, peerIP), ip, inbound);
    if key == k {
      if life.Some? {
        KnowsSaw(st.assetShards[AssetShard(c, k)][k], k, life.value, v, peer, ip, peerIP, inbound);
      } else {
        assert [] + [t] == [t];
        KnowsFirstSaw(k, v, peer, ip, peerIP, inbound);
      }
    }
  }

  lemma LearnedFollows(c: Config, st: State, v: Sample, w: Choice, k: AssetKey, life: Option<seq<Touch>>)
    requires AssetFollows(c, st.assetShards, k, life) && v.at > 0
    ensures AssetFollows(c, LearnTarget(c, LearnSource(c, st, v, w), v, w).assetShards, k, LearnedBy(c, st, life, v, w, k))
  {
    hide LearnAsset, AssetFollows, Evicts, PeerName;
    if v.srcAsset != "" {
      LearnAssetFollows(c, st, v, v.srcAsset, v.dstAsset, v.key.srcIP, v.key.dstIP, false, w.source, k, life);
    }
    var l := if v.srcAsset == "" then life
             else TouchedBy(life, AssetKeyOf(v.key, v.srcAsset) == k, Saw(v, PeerName(v.dstAsset, v.key.dstIP), v.key.srcIP, false),
                            Evicts(c, st, AssetKeyOf(v.key, v.srcAsset), w.source, k));
    if v.dstAsset != "" && v.dstAsset != v.srcAsset {
      LearnAssetFollows(c, LearnSource(c, st, v, w), v, v.dstAsset, v.srcAsset, v.key.dstIP, v.key.srcIP, true, w.target, k, l);
    }
  }

  lemma ObservedAsset(c: Config, st: State, v: Sample, w: Choice, before: seq<Event>, k: AssetKey, life: Option<seq<Touch>>)
    requires ValidConfig(c) && AssetFollows(c, st.assetShards, k, life) && v.at > 0
    ensures AssetFollows(c, Observed(c, st, v, w).assetShards, k, NextAssetLife(c, st, life, before, Observation(v, w), k))
  {
    hide LearnFlow, LearnSource, LearnTarget, Observed, OutcomeOf, ModeAt, AssetFollows, CandidateLife, LearnedBy;
    if OutcomeOf(c, st, v) == Trusted {
      var s := Scanned(c, st, v, w);
      var f := LearnFlow(c, s, v, w.flow);
      LearnFlowFrame(c, s, v, w.flow);
      LearnedFollows(c, f, v, w, k, life);
      TrustedLearns(c, st, v, w);
    } else {
      UntrustedObservation(c, st, v, w);
    }
  }

  lemma SeedFollows(c: Config, st: State, key: Key, at: Time, asset: string, peer: string, inbound: bool, events: nat,
                    k: AssetKey, life: Option<seq<Touch>>)
    requires AssetFollows(c, st.assetShards, k, life) && at > 0 && events > 0
    ensures AssetFollows(c, SeedAsset(c, st, key, at, asset, peer, inbound, events).assetShards, k,
              if asset == "" then life else TouchedBy(life, AssetKeyOf(key, asset) == k, Seeded(key, at, peer, inbound, events), false))
  {
    hide PromoteAsset, Gauge, Knows;
    var t := Seeded(key, at, peer, inbound, events);
    if asset != "" && AssetKeyOf(key, asset) == k {
      if life.Some? {
        KnowsSeeded(st.assetShards[AssetShard(c, k)][k], k, life.value, t);
      } else {
        assert [] + [t] == [t];
        KnowsFirstSeeded(k, t);
      }
    }
  }

  lemma ReflectsEvidence(c: Config, x: Candidate, id: CandidateId, life: ShadowLife)
    requires Reflects(c, x, id, life)
    ensures life.samples != [] && x.key == life.samples[0].key && x.lastSeen == life.samples[|life.samples|-1].at
    ensures x.lastSeen > 0 && x.observations == |life.samples| > 0
    ensures x.srcAsset == life.samples[0].srcAsset && x.dstAsset == life.samples[0].dstAsset
  {
    hide Records, Days;
    assert life.samples[|life.samples|-1] in life.samples;
  }

  lemma PromotedAsset(c: Config, st: State, id: CandidateId, at: Time, before: seq<Event>, k: AssetKey, life: Option<seq<Touch>>)
    requires ValidConfig(c) && AssetFollows(c, st.assetShards, k, life) && CandidateFollows(c, st, id, CandidateLife(c, before, id))
    ensures AssetFollows(c, Promote(c, st, id, at).assetShards, k, NextAssetLife(c, st, life, before, PromoteCandidate(id, at), k))
  {
    hide SeedAsset, CandidateLife, AssetFollows, PromoteVerdict, Ripe, Gauge, Reflects, LearnedBy;
    RipeMeansPromotable(c, st, id, CandidateLife(c, before, id));
    if PromoteVerdict(c, st, id) == Promoted {
      RipeHasLife(c, CandidateLife(c, before, id));
      var x, vs := st.candidates[id], CandidateLife(c, before, id).value.samples;
      ReflectsEvidence(c, x, id, CandidateLife(c, before, id).value);
      var s0 := st.(candidates := st.candidates - {id}, promoted := st.promoted[id := at], failures := st.failures - {id});
      var s1 := TrustProfile(c, s0, x.key, x.profile);
      SeedFollows(c, s1, x.key, x.lastSeen, x.srcAsset, x.dstAsset, false, x.observations, k, life);
      var s2 := SeedAsset(c, s1, x.key, x.lastSeen, x.srcAsset, x.dstAsset, false, x.observations);
      var l := if x.srcAsset == "" then life
               else TouchedBy(life, AssetKeyOf(x.key, x.srcAsset) == k, Seeded(x.key, x.lastSeen, x.dstAsset, false, |vs|), false);
      SeedFollows(c, s2, x.key, x.lastSeen, x.dstAsset, x.srcAsset, true, x.observations, k, l);
    } else {
      UnpromotedStays(c, st, id, at);
    }
  }

  lemma ExcludedAssets(c: Config, st: State, x: Exclusion, at: Time)
    requires ValidConfig(c)
    ensures ApplyExclusion(c, st, x, at).assetShards ==
              if ModeAt(c, st, at) == Learning
              then ForgetAll(st.assetShards, Resolve(st, x.sensor, x.srcIP), Resolve(st, x.sensor, x.dstIP)) else st.assetShards
  {
    var s0 := Disqualified(st, x, at);
    SameModeWithoutTables(c, st, s0, at);
    assert Resolve(s0, x.sensor, x.srcIP) == Resolve(st, x.sensor, x.srcIP);
    assert Resolve(s0, x.sensor, x.dstIP) == Resolve(st, x.sensor, x.dstIP);
    hide ModeAt, CleansedAll, ForgetAll, Deleted, DownBy, Resolve, Quarantine;
  }

  lemma ForgottenFollows(p: AssetProfile, k: AssetKey, ts: seq<Touch>, a: string, b: string)
    requires Knows(p, k, ts)
    ensures Knows(ForgetPeer(p, a, b), k, ts + Severed(a, b, k))
  {
    hide Adds, Timely, At, Clock;
    assert ts + [] == ts;
    if k.assetID == a { KnowsUnlinked(p, k, ts, b); } else if k.assetID == b { KnowsUnlinked(p, k, ts, a); }
  }

  lemma ExcludedAsset(c: Config, st: State, x: Exclusion, at: Time, before: seq<Event>, k: AssetKey, life: Option<seq<Touch>>)
    requires ValidConfig(c) && AssetFollows(c, st.assetShards, k, life)
    ensures AssetFollows(c, ApplyExclusion(c, st, x, at).assetShards, k,
                         NextAssetLife(c, st, life, before, ApplyLearningExclusion(x, at), k))
  {
    hide ModeAt, ApplyExclusion, Knows, CandidateLife, OutcomeOf, Resolve, LearnedBy, Severed, ForgetPeer;
    ExcludedAssets(c, st, x, at);
    if life.Some? {
      ForgottenFollows(st.assetShards[AssetShard(c, k)][k], k, life.value, Resolve(st, x.sensor, x.srcIP), Resolve(st, x.sensor, x.dstIP));
    }
  }

  lemma StepAsset(c: Config, st: State, e: Event, before: seq<Event>, k: AssetKey, life: Option<seq<Touch>>)
    requires ValidConfig(c) && Legal(c, st, e) && AssetFollows(c, st.assetShards, k, life)
    requires e.PromoteCandidate? ==> CandidateFollows(c, st, e.id, CandidateLife(c, before, e.id))
    ensures AssetFollows(c, Step(c, st, e).assetShards, k, NextAssetLife(c, st, life, before, e, k))
  {
    hide Observed, Promote, ApplyExclusion, CompleteVerdict, OutcomeOf, LegalChoice, Knows, Ripe, ModeAt, LearnedBy, Severed,
         CandidateLife, CandidateFollows, Resolve;
    match e
    case Observation(v, w) => ObservedAsset(c, st, v, w, before, k, life);
    case PromoteCandidate(id, at) => PromotedAsset(c, st, id, at, before, k, life);
    case ApplyLearningExclusion(x, at) => ExcludedAsset(c, st, x, at, before, k, life);
    case _ =>
  }

  /** On every reachable state an asset is known exactly while it has a life, and its profile holds exactly what that
      life adds up to, in the direction and with the peer of each touch. */
  lemma {:induction false} AssetProfilesFollowHistory(c: Config, es: seq<Event>, k: AssetKey)
    requires ValidConfig(c) && LegalRun(c, Initial(), es)
    ensures AssetFollows(c, Run(c, Initial(), es).assetShards, k, AssetLife(c, es, k))
  {
    hide Step, Legal, NextAssetLife, CandidateLife, CandidateFollows, Knows;
    if es != [] {
      var before, e := es[..|es|-1], es[|es|-1];
      AssetProfilesFollowHistory(c, before, k);
      if e.PromoteCandidate? { CandidatesFollowHistory(c, before, e.id); }
      StepAsset(c, Run(c, Initial(), before), e, before, k, AssetLife(c, before, k));
    }
  }
}
