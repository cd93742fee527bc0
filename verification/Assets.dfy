/**
  The sensor's asset inventory: which address each hardware address owns, as packets arrive, assets are deleted
  or aged out and the inventory is saved and restored. Times are nanoseconds; 0 is the zero time.
*/
module Assets {
  import opened Options

  type Time = nat

  /** Parsing of addresses, and the configured decoy addresses. Unusable addresses read as "". */
  datatype Config = Config(
    canonicalIP: string -> string, canonicalMAC: string -> Option<string>, multicast: string -> bool,
    scores: map<string, int>)

  datatype Binding = Binding(ip: string, firstSeen: Time, lastSeen: Time, known: bool, verified: bool, vlan: nat)

  datatype Asset = Asset(
    mac: string, ip: string, hostname: string, firstSeen: Time, lastSeen: Time, confirmed: bool, fromAnalysis: bool,
    verificationKnown: bool, verifiedByARP: bool, vlan: nat, score: int, packets: nat, addresses: seq<Binding>)

  /** `locked` holds the hardware addresses whose owner address came from an ARP or NDP claim. */
  datatype State = State(assets: map<string, Asset>, locked: set<string>, established: bool, learned: set<string>)

  const EMPTY_STATE := State(map[], {}, false, {})

  datatype Sighting = Sighting(
    ip: string, mac: string, hostname: string, at: Time, fromARP: bool, fromAnalysis: bool, vlan: nat)

  // ---------- The address list ----------

  function Seen(b: Binding, at: Time, verified: bool, vlan: nat): Binding {
    Binding(b.ip, if b.firstSeen == 0 || at < b.firstSeen then at else b.firstSeen,
            if b.lastSeen == 0 || at > b.lastSeen then at else b.lastSeen,
            true, b.verified || verified, if vlan != 0 then vlan else b.vlan)
  }

  /** Extends the first binding of the address, or appends one. */
  function Upsert(bs: seq<Binding>, ip: string, at: Time, verified: bool, vlan: nat): seq<Binding> {
    if ip == "" then bs
    else if bs == [] then [Binding(ip, at, at, true, verified, vlan)]
    else if bs[0].ip == ip then [Seen(bs[0], at, verified, vlan)] + bs[1..]
    else [bs[0]] + Upsert(bs[1..], ip, at, verified, vlan)
  }

  predicate Keeps(b: Binding, ip: string) { b.verified || b.ip == ip }

  /** What a first claim leaves of the addresses learned from routed traffic. */
  function Purged(bs: seq<Binding>, ip: string): seq<Binding> {
    if bs == [] then [] else Purged(bs[..|bs|-1], ip) + if Keeps(bs[|bs|-1], ip) then [bs[|bs|-1]] else []
  }

  // ---------- One sighting ----------

  function MacOf(c: Config, mac: string): Option<string> {
    var parsed := c.canonicalMAC(mac);
    if parsed.Some? && c.multicast(parsed.value) then None else parsed
  }

  function ScoreOf(c: Config, ip: string): int { if ip in c.scores then c.scores[ip] else 1 }

  function NewAsset(c: Config, st: State, mac: string, s: Sighting): Asset {
    Asset(mac, c.canonicalIP(s.ip), s.hostname, s.at, 0, !st.established || mac in st.learned, s.fromAnalysis,
          true, s.fromARP, s.vlan, 0, 0, [])
  }

  /** A known asset is no longer only history once live traffic shows it, and becomes reviewable again when the
      finished learning window did not include it. */
  function Revisited(st: State, a: Asset, s: Sighting): Asset {
    a.(fromAnalysis := a.fromAnalysis && s.fromAnalysis,
       confirmed := a.confirmed && (!st.established || a.mac in st.learned))
  }

  /** Ownership: a claim always takes the address; an observation only while nothing was ever claimed. */
  function Owned(a: Asset, ip: string, s: Sighting, locked: bool): Asset {
    if ip == "" then a
    else if s.fromARP then
      a.(ip := ip, verificationKnown := true, verifiedByARP := true,
         addresses := Upsert(if locked then a.addresses else Purged(a.addresses, ip), ip, s.at, true, s.vlan))
    else if locked then a
    else a.(ip := ip, addresses := Upsert(a.addresses, ip, s.at, false, s.vlan))
  }

  function Recorded(c: Config, a: Asset, s: Sighting): Asset {
    a.(vlan := if s.vlan != 0 then s.vlan else a.vlan, score := ScoreOf(c, a.ip), lastSeen := s.at, packets := a.packets + 1)
  }

  function Update(c: Config, st: State, s: Sighting): State {
    var parsed := MacOf(c, s.mac);
    if parsed.None? then st
    else
      var mac, ip := parsed.value, c.canonicalIP(s.ip);
      var a := if mac in st.assets then Revisited(st, st.assets[mac], s) else NewAsset(c, st, mac, s);
      st.(assets := st.assets[mac := Recorded(c, Owned(a, ip, s, mac in st.locked), s)],
          locked := if s.fromARP && ip != "" then st.locked + {mac} else st.locked)
  }

  // ---------- Other operations ----------

  function Delete(c: Config, st: State, mac: string): State {
    var parsed := c.canonicalMAC(mac);
    if parsed.None? || parsed.value !in st.assets then st
    else State(st.assets - {parsed.value}, st.locked - {parsed.value}, st.established, st.learned - {parsed.value})
  }

  predicate Stale(a: Asset, cutoff: int) { !a.fromAnalysis && a.lastSeen < cutoff }

  function StaleMacs(st: State, cutoff: int): set<string> { set m | m in st.assets && Stale(st.assets[m], cutoff) }

  function Prune(st: State, cutoff: int): State {
    st.(assets := st.assets - StaleMacs(st, cutoff), locked := st.locked - StaleMacs(st, cutoff))
  }

  function Confirm(c: Config, st: State, mac: string): State {
    var parsed := c.canonicalMAC(mac);
    if parsed.None? || parsed.value !in st.assets then st
    else st.(assets := st.assets[parsed.value := st.assets[parsed.value].(confirmed := true)], learned := st.learned + {parsed.value})
  }

  function Named(c: Config, st: State, mac: string, name: string): State {
    var parsed := c.canonicalMAC(mac);
    if mac == "" || name == "" || parsed.None? || parsed.value !in st.assets then st
    else st.(assets := st.assets[parsed.value := st.assets[parsed.value].(hostname := name)])
  }

  function BaselineComplete(c: Config, st: State, macs: seq<string>): State {
    st.(established := true, learned := st.learned + set m | m in macs && c.canonicalMAC(m).Some? :: c.canonicalMAC(m).value)
  }

  function ResetBaseline(st: State): State { st.(established := false, learned := {}) }

  datatype Event =
    | Sighted(s: Sighting)
    | Deleted(mac: string)
    | Pruned(cutoff: int)
    | Confirmed(mac: string)
    | HostnameSeen(mac: string, name: string)
    | LearningComplete(macs: seq<string>)
    | LearningReset
    | Cleared

  function Step(c: Config, st: State, e: Event): State {
    match e
    case Sighted(s) => Update(c, st, s)
    case Deleted(mac) => Delete(c, st, mac)
    case Pruned(cutoff) => Prune(st, cutoff)
    case Confirmed(mac) => Confirm(c, st, mac)
    case HostnameSeen(mac, name) => Named(c, st, mac, name)
    case LearningComplete(macs) => BaselineComplete(c, st, macs)
    case LearningReset => ResetBaseline(st)
    case Cleared => EMPTY_STATE
  }

  function Run(c: Config, st: State, es: seq<Event>): State {
    if es == [] then st else Step(c, Run(c, st, es[..|es|-1]), es[|es|-1])
  }

  // ---------- History: what should be known of an asset ----------

  predicate IsClaim(c: Config, s: Sighting) { s.fromARP && c.canonicalIP(s.ip) != "" }

  /** The last address the sightings claim, "" if none does. */
  function LatestClaimed(c: Config, life: seq<Sighting>): string {
    if life == [] then ""
    else if IsClaim(c, life[|life|-1]) then c.canonicalIP(life[|life|-1].ip)
    else LatestClaimed(c, life[..|life|-1])
  }

  function LatestObserved(c: Config, life: seq<Sighting>): string {
    if life == [] then ""
    else if c.canonicalIP(life[|life|-1].ip) != "" then c.canonicalIP(life[|life|-1].ip)
    else LatestObserved(c, life[..|life|-1])
  }

  function FirstClaimed(c: Config, life: seq<Sighting>): string {
    if life == [] then ""
    else
      var before := FirstClaimed(c, life[..|life|-1]);
      if before != "" then before else if IsClaim(c, life[|life|-1]) then c.canonicalIP(life[|life|-1].ip) else ""
  }

  /** The address an asset owns: the latest claimed one, or before any claim the latest observed one. */
  function Owner(c: Config, life: seq<Sighting>): string {
    if LatestClaimed(c, life) != "" then LatestClaimed(c, life) else LatestObserved(c, life)
  }

  function ClaimedSet(c: Config, life: seq<Sighting>): set<string> {
    set s | s in life && IsClaim(c, s) :: c.canonicalIP(s.ip)
  }

  function ObservedSet(c: Config, life: seq<Sighting>): set<string> {
    set s | s in life && c.canonicalIP(s.ip) != "" :: c.canonicalIP(s.ip)
  }

  /** Sighting `i` counts for an address: it claims it, or it observed it before any claim and the first claim,
      if there was one, was to the same address. */
  predicate CountsFor(c: Config, life: seq<Sighting>, i: nat, ip: string)
    requires i < |life|
  {
    && c.canonicalIP(life[i].ip) == ip
    && (life[i].fromARP || (FirstClaimed(c, life[..i]) == "" && FirstClaimed(c, life) in {"", ip}))
  }

  function TimesOf(c: Config, life: seq<Sighting>, ip: string): set<Time> {
    set i | 0 <= i < |life| && CountsFor(c, life, i, ip) :: life[i].at
  }

  ghost predicate Spans(first: Time, last: Time, ts: set<Time>) {
    first in ts && last in ts && forall t :: t in ts ==> first <= t <= last
  }

  /** Sighting `i` is the last that counts for the address and names a VLAN, and names this one. */
  ghost predicate NamesVlan(c: Config, life: seq<Sighting>, ip: string, i: nat, vlan: nat) {
    && i < |life| && CountsFor(c, life, i, ip) && life[i].vlan == vlan
    && forall j :: i < j < |life| && CountsFor(c, life, j, ip) ==> life[j].vlan == 0
  }

  ghost predicate VlanFits(c: Config, life: seq<Sighting>, ip: string, vlan: nat) {
    if vlan == 0 then forall i :: 0 <= i < |life| && CountsFor(c, life, i, ip) ==> life[i].vlan == 0
    else exists i: nat :: NamesVlan(c, life, ip, i, vlan)
  }

  /** The binding spans the sightings that count for its address, is verified if the address was claimed and lies in the
      VLAN those sightings named last. */
  ghost predicate BindingFits(c: Config, life: seq<Sighting>, b: Binding) {
    && b.ip != "" && b.known && Spans(b.firstSeen, b.lastSeen, TimesOf(c, life, b.ip))
    && (b.verified <==> b.ip in ClaimedSet(c, life)) && VlanFits(c, life, b.ip, b.vlan)
  }

  function Ips(bs: seq<Binding>): set<string> { set b | b in bs :: b.ip }

  ghost predicate DistinctIps(bs: seq<Binding>) {
    forall i, j :: 0 <= i < j < |bs| ==> bs[i].ip != bs[j].ip
  }

  /** The address list: each claimed address once, or before any claim each observed address once, with the span
      of the sightings that count for it. */
  ghost predicate AddressesFit(c: Config, life: seq<Sighting>, bs: seq<Binding>) {
    && DistinctIps(bs)
    && Ips(bs) == (if FirstClaimed(c, life) != "" then ClaimedSet(c, life) else ObservedSet(c, life))
    && forall b :: b in bs ==> BindingFits(c, life, b)
  }

  predicate AllAnalysis(life: seq<Sighting>) { forall s :: s in life ==> s.fromAnalysis }

  /** The sightings of one hardware address since its asset was last created, if the asset exists. */
  function Life(c: Config, es: seq<Event>, m: string): Option<seq<Sighting>> {
    if es == [] then None
    else
      var before := Life(c, es[..|es|-1], m);
      match es[|es|-1]
      case Sighted(s) => if MacOf(c, s.mac) == Some(m) then Some((if before.Some? then before.value else []) + [s]) else before
      case Deleted(mac) => if c.canonicalMAC(mac) == Some(m) then None else before
      case Pruned(cutoff) =>
        if before.Some? && before.value != [] && !AllAnalysis(before.value) && before.value[|before.value|-1].at < cutoff then None else before
      case Cleared => None
      case _ => before
  }

  ghost predicate AssetFits(c: Config, a: Asset, m: string, life: seq<Sighting>) {
    && life != [] && a.mac == m && a.packets == |life|
    && a.firstSeen == life[0].at && a.lastSeen == life[|life|-1].at
    && a.ip == Owner(c, life) && a.score == ScoreOf(c, a.ip)
    && a.fromAnalysis == AllAnalysis(life)
    && a.verificationKnown && (a.verifiedByARP <==> life[0].fromARP || FirstClaimed(c, life) != "")
    && AddressesFit(c, life, a.addresses)
  }

  ghost predicate Fits(c: Config, st: State, m: string, life: Option<seq<Sighting>>) {
    && (m in st.assets <==> life.Some?)
    && (m in st.locked <==> life.Some? && FirstClaimed(c, life.value) != "")
    && (life.Some? ==> AssetFits(c, st.assets[m], m, life.value))
  }

  // ---------- Lists of addresses ----------

  lemma ConsIps(b: Binding, bs: seq<Binding>)
    ensures Ips([b] + bs) == {b.ip} + Ips(bs)
  {
    assert forall x :: x in [b] + bs <==> x == b || x in bs;
  }

  lemma ConsDistinct(b: Binding, bs: seq<Binding>)
    ensures DistinctIps([b] + bs) <==> DistinctIps(bs) && b.ip !in Ips(bs)
  {
    var all := [b] + bs;
    if DistinctIps(all) {
      forall i, j | 0 <= i < j < |bs| ensures bs[i].ip != bs[j].ip { assert all[i+1].ip != all[j+1].ip; }
      forall k | 0 <= k < |bs| ensures bs[k].ip != b.ip { assert all[0].ip != all[k+1].ip; }
    }
    if DistinctIps(bs) && b.ip !in Ips(bs) {
      forall i, j | 0 <= i < j < |all| ensures all[i].ip != all[j].ip { assert all[j] in bs && all[j].ip in Ips(bs); }
    }
  }

  lemma {:induction false} UpsertIps(bs: seq<Binding>, ip: string, at: Time, verified: bool, vlan: nat)
    requires DistinctIps(bs) && ip != ""
    ensures DistinctIps(Upsert(bs, ip, at, verified, vlan))
    ensures Ips(Upsert(bs, ip, at, verified, vlan)) == Ips(bs) + {ip}
  {
    if bs == [] {
      assert Ips(Upsert(bs, ip, at, verified, vlan)) == {ip};
    } else {
      hide DistinctIps, Ips;
      var rest := bs[1..];
      assert bs == [bs[0]] + rest;
      ConsIps(bs[0], rest);
      ConsDistinct(bs[0], rest);
      if bs[0].ip == ip {
        ConsIps(Seen(bs[0], at, verified, vlan), rest);
        ConsDistinct(Seen(bs[0], at, verified, vlan), rest);
      } else {
        UpsertIps(rest, ip, at, verified, vlan);
        ConsIps(bs[0], Upsert(rest, ip, at, verified, vlan));
        ConsDistinct(bs[0], Upsert(rest, ip, at, verified, vlan));
      }
    }
  }

  lemma {:induction false} UpsertMember(bs: seq<Binding>, ip: string, at: Time, verified: bool, vlan: nat, b: Binding)
    requires DistinctIps(bs) && ip != "" && b in Upsert(bs, ip, at, verified, vlan)
    ensures b.ip != ip ==> b in bs
    ensures b.ip == ip ==> (
              || (ip !in Ips(bs) && b == Binding(ip, at, at, true, verified, vlan))
              || exists x :: x in bs && x.ip == ip && b == Seen(x, at, verified, vlan))
  {
    if bs != [] {
      assert bs == [bs[0]] + bs[1..];
      ConsIps(bs[0], bs[1..]);
      if bs[0].ip == ip {
        if b == Seen(bs[0], at, verified, vlan) { assert bs[0] in bs; }
        else { assert b in bs[1..]; }
      } else if b != bs[0] {
        UpsertMember(bs[1..], ip, at, verified, vlan, b);
      }
    }
  }

  lemma {:induction false} PurgedAre(bs: seq<Binding>, ip: string)
    requires DistinctIps(bs)
    ensures DistinctIps(Purged(bs, ip)) && forall b :: b in Purged(bs, ip) <==> b in bs && Keeps(b, ip)
  {
    if bs != [] {
      var before := bs[..|bs|-1];
      PurgedAre(before, ip);
      assert bs == before + [bs[|bs|-1]];
      forall b | b in Purged(before, ip) ensures b.ip != bs[|bs|-1].ip {
        var k :| 0 <= k < |before| && before[k] == b;
        assert bs[k].ip != bs[|bs|-1].ip;
      }
    }
  }

  // ---------- Which sightings count ----------

  lemma SetsNext(c: Config, life: seq<Sighting>, s: Sighting)
    ensures ClaimedSet(c, life + [s]) == ClaimedSet(c, life) + if IsClaim(c, s) then {c.canonicalIP(s.ip)} else {}
    ensures ObservedSet(c, life + [s]) == ObservedSet(c, life) + if c.canonicalIP(s.ip) != "" then {c.canonicalIP(s.ip)} else {}
  {
    assert forall x :: x in life + [s] <==> x in life || x == s;
  }

  lemma OwnersNext(c: Config, life: seq<Sighting>, s: Sighting)
    ensures LatestClaimed(c, life + [s]) == if IsClaim(c, s) then c.canonicalIP(s.ip) else LatestClaimed(c, life)
    ensures LatestObserved(c, life + [s]) == if c.canonicalIP(s.ip) != "" then c.canonicalIP(s.ip) else LatestObserved(c, life)
    ensures FirstClaimed(c, life + [s]) ==
              if FirstClaimed(c, life) != "" then FirstClaimed(c, life) else if IsClaim(c, s) then c.canonicalIP(s.ip) else ""
  {
    assert (life + [s])[..|life|] == life;
  }

  lemma {:induction false} ClaimsAgree(c: Config, life: seq<Sighting>)
    ensures LatestClaimed(c, life) != "" <==> FirstClaimed(c, life) != ""
    ensures ClaimedSet(c, life) != {} <==> FirstClaimed(c, life) != ""
    ensures FirstClaimed(c, life) != "" ==> FirstClaimed(c, life) in ClaimedSet(c, life)
  {
    if life != [] {
      var before, s := life[..|life|-1], life[|life|-1];
      assert life == before + [s];
      ClaimsAgree(c, before);
      SetsNext(c, before, s);
      OwnersNext(c, before, s);
    }
  }

  lemma {:induction false} FirstClaimLasts(c: Config, life: seq<Sighting>, i: nat)
    requires i <= |life| && FirstClaimed(c, life[..i]) != ""
    ensures FirstClaimed(c, life) == FirstClaimed(c, life[..i])
  {
    if i == |life| {
      assert life[..i] == life;
    } else {
      var before := life[..|life|-1];
      assert before[..i] == life[..i];
      FirstClaimLasts(c, before, i);
    }
  }

  /** How one more sighting changes the times that count for an address. */
  lemma TimesNext(c: Config, life: seq<Sighting>, s: Sighting, ip: string)
    requires ip != ""
    ensures var before, after := TimesOf(c, life, ip), TimesOf(c, life + [s], ip);
            if IsClaim(c, s) && FirstClaimed(c, life) == "" && c.canonicalIP(s.ip) != ip then after == {}
            else if c.canonicalIP(s.ip) == ip && (s.fromARP || FirstClaimed(c, life) == "") then after == before + {s.at}
            else after == before
  {
    var all, n := life + [s], |life|;
    OwnersNext(c, life, s);
    assert all[..n] == life;
    forall i | 0 <= i < n
      ensures all[i] == life[i] && all[..i] == life[..i]
      ensures CountsFor(c, all, i, ip) <==>
                CountsFor(c, life, i, ip) && !(IsClaim(c, s) && FirstClaimed(c, life) == "" && c.canonicalIP(s.ip) != ip)
    {
      EarlierSightingCounts(c, life, s, i, ip);
    }
    assert CountsFor(c, all, n, ip) <==> c.canonicalIP(s.ip) == ip && (s.fromARP || FirstClaimed(c, life) == "") by {
      if !s.fromARP { assert FirstClaimed(c, all) == FirstClaimed(c, life); }
    }
    hide CountsFor;
    assert all[n] == s;
    forall t ensures t in TimesOf(c, all, ip) <==>
      (exists i :: 0 <= i < n && CountsFor(c, all, i, ip) && life[i].at == t) || (CountsFor(c, all, n, ip) && t == s.at) {}
  }

  /** Which sightings count after one more, and so which VLAN they name. */
  lemma VlanNext(c: Config, life: seq<Sighting>, s: Sighting, ip: string, vlan: nat)
    requires ip != "" && VlanFits(c, life, ip, vlan)
    requires !(IsClaim(c, s) && FirstClaimed(c, life) == "" && c.canonicalIP(s.ip) != ip)
    ensures VlanFits(c, life + [s], ip,
                     if c.canonicalIP(s.ip) == ip && (s.fromARP || FirstClaimed(c, life) == "") && s.vlan != 0 then s.vlan else vlan)
  {
    var all, n := life + [s], |life|;
    OwnersNext(c, life, s);
    assert all[..n] == life && all[n] == s;
    forall i | 0 <= i < n ensures all[i] == life[i] && CountsFor(c, all, i, ip) == CountsFor(c, life, i, ip) {
      EarlierSightingCounts(c, life, s, i, ip);
    }
    assert CountsFor(c, all, n, ip) <==> c.canonicalIP(s.ip) == ip && (s.fromARP || FirstClaimed(c, life) == "") by {
      if !s.fromARP { assert FirstClaimed(c, all) == FirstClaimed(c, life); }
    }
    hide CountsFor, FirstClaimed;
    if CountsFor(c, all, n, ip) && s.vlan != 0 {
      assert NamesVlan(c, all, ip, n, s.vlan);
    } else if vlan != 0 {
      var i: nat :| NamesVlan(c, life, ip, i, vlan);
      assert NamesVlan(c, all, ip, i, vlan);
    }
  }

  lemma EarlierSightingCounts(c: Config, life: seq<Sighting>, s: Sighting, i: nat, ip: string)
    requires i < |life| && ip != ""
    ensures (life + [s])[i] == life[i] && (life + [s])[..i] == life[..i]
    ensures CountsFor(c, life + [s], i, ip) <==>
              CountsFor(c, life, i, ip) && !(IsClaim(c, s) && FirstClaimed(c, life) == "" && c.canonicalIP(s.ip) != ip)
  {
    OwnersNext(c, life, s);
    assert (life + [s])[..i] == life[..i];
    hide FirstClaimed;
    if life[i].fromARP && c.canonicalIP(life[i].ip) == ip { ClaimLasts(c, life, i); }
  }

  /** From a claim on, the first claimed address is settled. */
  lemma ClaimLasts(c: Config, life: seq<Sighting>, i: nat)
    requires i < |life| && IsClaim(c, life[i])
    ensures FirstClaimed(c, life) != ""
  {
    OwnersNext(c, life[..i], life[i]);
    assert life[..i+1] == life[..i] + [life[i]];
    hide FirstClaimed;
    FirstClaimLasts(c, life, i + 1);
  }

  // ---------- One more sighting ----------

  lemma SpanGrows(first: Time, last: Time, ts: set<Time>, at: Time)
    requires Spans(first, last, ts) && first > 0
    ensures Spans(if at < first then at else first, if at > last then at else last, ts + {at})
  {
  }

  ghost predicate Timed(life: seq<Sighting>) { forall s :: s in life ==> s.at > 0 }

  lemma TimesArePositive(c: Config, life: seq<Sighting>, ip: string)
    requires Timed(life)
    ensures forall t :: t in TimesOf(c, life, ip) ==> t > 0
  {
    hide CountsFor;
  }

  /** A binding that the sighting does not touch still fits. */
  lemma OtherBindingFits(c: Config, life: seq<Sighting>, s: Sighting, b: Binding)
    requires BindingFits(c, life, b)
    requires b.ip != c.canonicalIP(s.ip) || (!s.fromARP && FirstClaimed(c, life) != "")
    requires !(IsClaim(c, s) && FirstClaimed(c, life) == "")
    ensures BindingFits(c, life + [s], b)
  {
    TimesNext(c, life, s, b.ip);
    SetsNext(c, life, s);
    VlanNext(c, life, s, b.ip, b.vlan);
    hide TimesOf, ClaimedSet, ObservedSet, FirstClaimed, VlanFits;
  }

  /** The binding of the sighted address, extended. */
  lemma SeenBindingFits(c: Config, life: seq<Sighting>, s: Sighting, b: Binding)
    requires BindingFits(c, life, b) && b.ip == c.canonicalIP(s.ip) && Timed(life) && s.at > 0
    requires s.fromARP || FirstClaimed(c, life) == ""
    ensures BindingFits(c, life + [s], Seen(b, s.at, s.fromARP, s.vlan))
  {
    TimesNext(c, life, s, b.ip);
    SetsNext(c, life, s);
    TimesArePositive(c, life, b.ip);
    VlanNext(c, life, s, b.ip, b.vlan);
    hide TimesOf, ClaimedSet, ObservedSet, FirstClaimed, VlanFits;
    SpanGrows(b.firstSeen, b.lastSeen, TimesOf(c, life, b.ip), s.at);
  }

  lemma NoTimesWithoutBinding(c: Config, life: seq<Sighting>, bs: seq<Binding>, ip: string)
    requires AddressesFit(c, life, bs) && ip != "" && ip !in Ips(bs)
    ensures TimesOf(c, life, ip) == {} && VlanFits(c, life, ip, 0)
  {
    forall i | 0 <= i < |life| ensures !CountsFor(c, life, i, ip) {
      ClaimsAgree(c, life);
      if c.canonicalIP(life[i].ip) == ip {
        assert life[i] in life && ip in ObservedSet(c, life);
        assert life[i].fromARP ==> ip in ClaimedSet(c, life);
      }
    }
  }

  lemma NewBindingFits(c: Config, life: seq<Sighting>, s: Sighting, bs: seq<Binding>)
    requires AddressesFit(c, life, bs) && c.canonicalIP(s.ip) != "" && c.canonicalIP(s.ip) !in Ips(bs)
    requires s.fromARP || FirstClaimed(c, life) == ""
    ensures BindingFits(c, life + [s], Binding(c.canonicalIP(s.ip), s.at, s.at, true, s.fromARP, s.vlan))
  {
    var ip := c.canonicalIP(s.ip);
    NoTimesWithoutBinding(c, life, bs, ip);
    TimesNext(c, life, s, ip);
    SetsNext(c, life, s);
    VlanNext(c, life, s, ip, 0);
    if !s.fromARP { ClaimsAgree(c, life); }
    hide TimesOf, ClaimedSet, ObservedSet, FirstClaimed, VlanFits;
  }

  /** A sighting that may extend the list, no first claim. */
  lemma AddressExtends(c: Config, life: seq<Sighting>, s: Sighting, bs: seq<Binding>)
    requires AddressesFit(c, life, bs) && c.canonicalIP(s.ip) != "" && Timed(life) && s.at > 0
    requires if s.fromARP then FirstClaimed(c, life) != "" else FirstClaimed(c, life) == ""
    ensures AddressesFit(c, life + [s], Upsert(bs, c.canonicalIP(s.ip), s.at, s.fromARP, s.vlan))
  {
    var ip, r := c.canonicalIP(s.ip), Upsert(bs, c.canonicalIP(s.ip), s.at, s.fromARP, s.vlan);
    UpsertIps(bs, ip, s.at, s.fromARP, s.vlan);
    SetsNext(c, life, s);
    OwnersNext(c, life, s);
    hide Upsert, TimesOf, ClaimedSet, ObservedSet, FirstClaimed, BindingFits;
    forall b | b in r ensures BindingFits(c, life + [s], b) {
      UpsertMember(bs, ip, s.at, s.fromARP, s.vlan, b);
      if b.ip != ip {
        OtherBindingFits(c, life, s, b);
      } else if ip !in Ips(bs) {
        NewBindingFits(c, life, s, bs);
        NotListed(bs, ip);
      } else {
        ListedSomewhere(bs, ip);
        var x :| x in bs && x.ip == ip && b == Seen(x, s.at, s.fromARP, s.vlan);
        SeenBindingFits(c, life, s, x);
      }
    }
  }

  lemma NotListed(bs: seq<Binding>, ip: string)
    requires ip !in Ips(bs)
    ensures forall x :: x in bs ==> x.ip != ip
  {
  }

  lemma ListedSomewhere(bs: seq<Binding>, ip: string)
    requires ip in Ips(bs)
    ensures exists x :: x in bs && x.ip == ip
  {
  }

  /** Whatever a first claim leaves in the list fits. */
  lemma PurgedBindingFits(c: Config, life: seq<Sighting>, s: Sighting, bs: seq<Binding>, b: Binding)
    requires AddressesFit(c, life, bs) && IsClaim(c, s) && FirstClaimed(c, life) == "" && Timed(life) && s.at > 0
    requires b in Upsert(Purged(bs, c.canonicalIP(s.ip)), c.canonicalIP(s.ip), s.at, true, s.vlan)
    requires b.ip == c.canonicalIP(s.ip)
    ensures BindingFits(c, life + [s], b)
  {
    hide Upsert, Purged, TimesOf, ClaimedSet, ObservedSet, FirstClaimed, BindingFits;
    var ip := c.canonicalIP(s.ip);
    var kept := Purged(bs, ip);
    PurgedAre(bs, ip);
    UpsertMember(kept, ip, s.at, true, s.vlan, b);
    if ip !in Ips(kept) {
      NotListed(kept, ip);
      KeptUnlessAbsent(bs, kept, ip);
      NewBindingFits(c, life, s, bs);
    } else {
      ListedSomewhere(kept, ip);
      var x :| x in kept && x.ip == ip && b == Seen(x, s.at, true, s.vlan);
      SeenBindingFits(c, life, s, x);
    }
  }

  /** The first claim: the list shrinks to the claimed address. */
  lemma FirstClaimPurges(c: Config, life: seq<Sighting>, s: Sighting, bs: seq<Binding>)
    requires AddressesFit(c, life, bs) && IsClaim(c, s) && FirstClaimed(c, life) == "" && Timed(life) && s.at > 0
    ensures AddressesFit(c, life + [s], Upsert(Purged(bs, c.canonicalIP(s.ip)), c.canonicalIP(s.ip), s.at, true, s.vlan))
  {
    hide Upsert, Purged, TimesOf, BindingFits, ClaimedSet, ObservedSet, FirstClaimed, Timed;
    var ip := c.canonicalIP(s.ip);
    var kept := Purged(bs, ip);
    var r := Upsert(kept, ip, s.at, true, s.vlan);
    PurgedAre(bs, ip);
    UpsertIps(kept, ip, s.at, true, s.vlan);
    SetsNext(c, life, s);
    OwnersNext(c, life, s);
    NothingVerified(c, life, bs, ip);
    OnlyAddress(kept, ip);
    forall b | b in r ensures BindingFits(c, life + [s], b) {
      assert b.ip in Ips(r);
      PurgedBindingFits(c, life, s, bs, b);
    }
  }

  lemma NothingVerified(c: Config, life: seq<Sighting>, bs: seq<Binding>, ip: string)
    requires AddressesFit(c, life, bs) && FirstClaimed(c, life) == ""
    ensures ClaimedSet(c, life) == {}
    ensures forall b :: b in bs && Keeps(b, ip) ==> b.ip == ip
  {
    ClaimsAgree(c, life);
    hide ClaimedSet, ObservedSet, FirstClaimed, TimesOf;
  }

  lemma OnlyAddress(bs: seq<Binding>, ip: string)
    requires forall b :: b in bs ==> b.ip == ip
    ensures Ips(bs) + {ip} == {ip}
  {
  }

  lemma KeptUnlessAbsent(bs: seq<Binding>, kept: seq<Binding>, ip: string)
    requires (forall b :: b in bs && Keeps(b, ip) ==> b in kept) && ip !in Ips(kept)
    ensures ip !in Ips(bs)
  {
  }

  /** A sighting that leaves the list alone. */
  lemma AddressesKept(c: Config, life: seq<Sighting>, s: Sighting, bs: seq<Binding>)
    requires AddressesFit(c, life, bs)
    requires c.canonicalIP(s.ip) == "" || (!s.fromARP && FirstClaimed(c, life) != "")
    ensures AddressesFit(c, life + [s], bs)
  {
    SetsNext(c, life, s);
    OwnersNext(c, life, s);
    hide TimesOf, ClaimedSet, ObservedSet, FirstClaimed, BindingFits;
    forall b | b in bs ensures BindingFits(c, life + [s], b) {
      BindingIp(c, life, b);
      OtherBindingFits(c, life, s, b);
    }
  }

  lemma BindingIp(c: Config, life: seq<Sighting>, b: Binding)
    requires BindingFits(c, life, b)
    ensures b.ip != ""
  {
  }

  lemma AddressesNext(c: Config, life: seq<Sighting>, s: Sighting, a: Asset, locked: bool)
    requires AddressesFit(c, life, a.addresses) && Timed(life) && s.at > 0 && (locked <==> FirstClaimed(c, life) != "")
    ensures AddressesFit(c, life + [s], Owned(a, c.canonicalIP(s.ip), s, locked).addresses)
  {
    hide AddressesFit, Upsert, Purged;
    if c.canonicalIP(s.ip) == "" || (!s.fromARP && locked) {
      AddressesKept(c, life, s, a.addresses);
    } else if s.fromARP && !locked {
      FirstClaimPurges(c, life, s, a.addresses);
    } else {
      AddressExtends(c, life, s, a.addresses);
    }
  }

  lemma StartFits(c: Config)
    ensures AddressesFit(c, [], [])
  {
  }

  lemma OwnerNext(c: Config, life: seq<Sighting>, s: Sighting)
    ensures Owner(c, life + [s]) ==
              if c.canonicalIP(s.ip) != "" && (s.fromARP || FirstClaimed(c, life) == "") then c.canonicalIP(s.ip) else Owner(c, life)
  {
    OwnersNext(c, life, s);
    ClaimsAgree(c, life);
    ClaimsAgree(c, life + [s]);
  }

  /** The first sighting of an asset. */
  lemma CreationFits(c: Config, st: State, m: string, s: Sighting)
    requires s.at > 0
    ensures var a := Recorded(c, Owned(NewAsset(c, st, m, s), c.canonicalIP(s.ip), s, false), s);
            AssetFits(c, a, m, [s])
  {
    StartFits(c);
    assert [] + [s] == [s];
    var a := NewAsset(c, st, m, s);
    AddressesNext(c, [], s, a, false);
    OwnersNext(c, [], s);
    OwnerNext(c, [], s);
    hide AddressesFit, Upsert, Purged, FirstClaimed, Owner;
  }

  /** A further sighting of an asset. */
  lemma RevisitFits(c: Config, st: State, m: string, s: Sighting, life: seq<Sighting>, locked: bool)
    requires m in st.assets && AssetFits(c, st.assets[m], m, life) && Timed(life) && s.at > 0
    requires locked <==> FirstClaimed(c, life) != ""
    ensures AssetFits(c, Recorded(c, Owned(Revisited(st, st.assets[m], s), c.canonicalIP(s.ip), s, locked), s), m, life + [s])
  {
    var a := Revisited(st, st.assets[m], s);
    AddressesNext(c, life, s, a, locked);
    OwnersNext(c, life, s);
    OwnerNext(c, life, s);
    AnalysisNext(life, s);
    hide AddressesFit, Upsert, Purged, FirstClaimed, Owner, AllAnalysis;
  }

  lemma AnalysisNext(life: seq<Sighting>, s: Sighting)
    ensures AllAnalysis(life + [s]) == (AllAnalysis(life) && s.fromAnalysis)
  {
    assert forall x :: x in life + [s] <==> x in life || x == s;
  }

  lemma SightingFits(c: Config, st: State, s: Sighting, m: string, life: Option<seq<Sighting>>)
    requires Fits(c, st, m, life) && (life.Some? ==> Timed(life.value)) && s.at > 0
    ensures Fits(c, Update(c, st, s), m,
                 if MacOf(c, s.mac) == Some(m) then Some((if life.Some? then life.value else []) + [s]) else life)
  {
    hide AssetFits, Owned, Recorded, Revisited, NewAsset, MacOf;
    if MacOf(c, s.mac) == Some(m) {
      if life.Some? {
        OwnersNext(c, life.value, s);
        RevisitFits(c, st, m, s, life.value, m in st.locked);
      } else {
        assert [] + [s] == [s];
        OwnersNext(c, [], s);
        CreationFits(c, st, m, s);
      }
      hide FirstClaimed, IsClaim;
    }
  }

  lemma PruneFits(c: Config, st: State, cutoff: int, m: string, life: Option<seq<Sighting>>)
    requires Fits(c, st, m, life)
    ensures Fits(c, Prune(st, cutoff), m,
                 if life.Some? && life.value != [] && !AllAnalysis(life.value) && life.value[|life.value|-1].at < cutoff then None else life)
  {
    hide AddressesFit, Owner, FirstClaimed, AllAnalysis;
  }

  lemma ConfirmFits(c: Config, st: State, mac: string, m: string, life: Option<seq<Sighting>>)
    requires Fits(c, st, m, life)
    ensures Fits(c, Confirm(c, st, mac), m, life)
  {
    hide AddressesFit, Owner, FirstClaimed, AllAnalysis;
  }

  lemma NamedFits(c: Config, st: State, mac: string, name: string, m: string, life: Option<seq<Sighting>>)
    requires Fits(c, st, m, life)
    ensures Fits(c, Named(c, st, mac, name), m, life)
  {
    hide AddressesFit, Owner, FirstClaimed, AllAnalysis;
  }

  ghost predicate TimedEvents(es: seq<Event>) {
    forall i :: 0 <= i < |es| ==> es[i].Sighted? ==> es[i].s.at > 0
  }

  lemma {:induction false} LifeIsTimed(c: Config, es: seq<Event>, m: string)
    requires TimedEvents(es)
    ensures Life(c, es, m).Some? ==> Timed(Life(c, es, m).value)
  {
    hide MacOf;
    if es != [] { LifeIsTimed(c, es[..|es|-1], m); }
  }

  /** After any run, an asset is exactly what its own history since creation says: it owns the latest claimed
      address, or before any claim the latest observed one; its list holds each claimed address once (before any
      claim each observed one) with the earliest and latest time that count; its packets are its sightings; and it
      exists, and is locked, exactly when the history says so. */
  lemma {:induction false} AssetsFollowHistory(c: Config, es: seq<Event>, m: string)
    requires TimedEvents(es)
    ensures Fits(c, Run(c, EMPTY_STATE, es), m, Life(c, es, m))
  {
    if es != [] {
      hide Fits, Update, Prune, Confirm, Named, MacOf;
      var before, e := es[..|es|-1], es[|es|-1];
      var st, life := Run(c, EMPTY_STATE, before), Life(c, before, m);
      AssetsFollowHistory(c, before, m);
      LifeIsTimed(c, before, m);
      match e
      case Sighted(s) => SightingFits(c, st, s, m, life);
      case Deleted(mac) => DeleteFits(c, st, mac, m, life);
      case Pruned(cutoff) => PruneFits(c, st, cutoff, m, life);
      case Confirmed(mac) => ConfirmFits(c, st, mac, m, life);
      case HostnameSeen(mac, name) => NamedFits(c, st, mac, name, m, life);
      case LearningComplete(macs) => TrustFits(c, st, BaselineComplete(c, st, macs), m, life);
      case LearningReset => TrustFits(c, st, ResetBaseline(st), m, life);
      case Cleared => NothingFits(c, m);
    }
  }

  lemma DeleteFits(c: Config, st: State, mac: string, m: string, life: Option<seq<Sighting>>)
    requires Fits(c, st, m, life)
    ensures Fits(c, Delete(c, st, mac), m, if c.canonicalMAC(mac) == Some(m) then None else life)
  {
    hide AssetFits, FirstClaimed;
  }

  lemma TrustFits(c: Config, a: State, b: State, m: string, life: Option<seq<Sighting>>)
    requires Fits(c, a, m, life) && b.assets == a.assets && b.locked == a.locked
    ensures Fits(c, b, m, life)
  {
  }

  lemma NothingFits(c: Config, m: string)
    ensures Fits(c, EMPTY_STATE, m, None)
  {
  }

  // ---------- Confirmation ----------

  predicate KeepsTrust(c: Config, e: Event, m: string) {
    !e.LearningReset? && !e.Cleared? && !(e.Deleted? && c.canonicalMAC(e.mac) == Some(m))
  }

  /** Once an analyst confirmed an asset, it is confirmed whenever it exists: only a deletion, a learning reset or
      a wipe can make it reviewable again, whatever it does and however often it ages out and returns. */
  lemma {:induction false} ConfirmationHolds(c: Config, st: State, mac: string, es: seq<Event>, m: string)
    requires c.canonicalMAC(mac) == Some(m) && m in st.assets && st.assets[m].mac == m
    requires forall i :: 0 <= i < |es| ==> KeepsTrust(c, es[i], m)
    ensures var r := Run(c, Confirm(c, st, mac), es);
            m in r.learned && (m in r.assets ==> r.assets[m].confirmed && r.assets[m].mac == m)
  {
    if es != [] {
      hide MacOf, Owned, Recorded;
      ConfirmationHolds(c, st, mac, es[..|es|-1], m);
      ConfirmedStep(c, Run(c, Confirm(c, st, mac), es[..|es|-1]), es[|es|-1], m);
      hide Step;
    }
  }

  lemma ConfirmedStep(c: Config, st: State, e: Event, m: string)
    requires m in st.learned && (m in st.assets ==> st.assets[m].confirmed && st.assets[m].mac == m)
    requires KeepsTrust(c, e, m)
    ensures var r := Step(c, st, e);
            m in r.learned && (m in r.assets ==> r.assets[m].confirmed && r.assets[m].mac == m)
  {
    hide Upsert, Purged, MacOf, ScoreOf;
  }

  // ---------- Saving and restoring ----------

  ghost predicate ValidConfig(c: Config) {
    && c.canonicalIP("") == ""
    && (forall x :: c.canonicalIP(c.canonicalIP(x)) == c.canonicalIP(x))
    && (forall x :: c.canonicalMAC(x).Some? ==> c.canonicalMAC(c.canonicalMAC(x).value) == c.canonicalMAC(x))
  }

  /** Drops unusable and repeated addresses. */
  function Clean(c: Config, bs: seq<Binding>): seq<Binding> {
    if bs == [] then []
    else
      var before, ip := Clean(c, bs[..|bs|-1]), c.canonicalIP(bs[|bs|-1].ip);
      if ip == "" || ip in Ips(before) then before else before + [bs[|bs|-1].(ip := ip)]
  }

  function RestoredAsset(c: Config, a: Asset, mac: string): Asset {
    var ip, clean := c.canonicalIP(a.ip), Clean(c, a.addresses);
    var own := Binding(ip, a.firstSeen, a.lastSeen, a.verificationKnown, a.verifiedByARP, a.vlan);
    a.(mac := mac, ip := ip, addresses := if ip != "" && ip !in Ips(clean) then clean + [own] else clean,
       score := ScoreOf(c, ip))
  }

  /** Whether a restored asset's address is locked; old records without provenance are locked. */
  predicate LocksOnRestore(a: Asset) { !a.verificationKnown || a.verifiedByARP }

  function RestoreOne(c: Config, st: State, a: Asset): State {
    var parsed := MacOf(c, a.mac);
    if parsed.None? then st
    else
      var mac := parsed.value;
      var r := RestoredAsset(c, a, mac);
      st.(assets := st.assets[mac := r],
          locked := if r.ip == "" then st.locked else if LocksOnRestore(a) then st.locked + {mac} else st.locked - {mac})
  }

  /** Replaces the inventory; learning and trust stay as they are. */
  function Restore(c: Config, st: State, list: seq<Asset>): State {
    if list == [] then State(map[], {}, st.established, st.learned)
    else RestoreOne(c, Restore(c, st, list[..|list|-1]), list[|list|-1])
  }

  /** A saved inventory: every asset once. */
  ghost predicate IsListing(assets: map<string, Asset>, list: seq<Asset>) {
    && (forall i, j :: 0 <= i < j < |list| ==> list[i].mac != list[j].mac)
    && (forall a :: a in list <==> a.mac in assets && assets[a.mac] == a)
  }

  /** Restoring the record leaves it as it is. */
  ghost predicate Settled(c: Config, a: Asset) { MacOf(c, a.mac) == Some(a.mac) && RestoredAsset(c, a, a.mac) == a }

  /** What restoring one record does, whatever it says: its address is on its list, added with the record's own times and
      provenance if it was missing, and stays open to routed traffic exactly if the record knows that no claim
      confirmed it. */
  lemma RestoredRecord(c: Config, st: State, a: Asset, m: string)
    requires MacOf(c, a.mac) == Some(m) && c.canonicalIP(a.ip) != ""
    ensures var r, ip := RestoreOne(c, st, a), c.canonicalIP(a.ip);
            && m in r.assets && r.assets[m].ip == ip && r.assets[m].mac == m
            && ip in Ips(r.assets[m].addresses)
            && (m !in r.locked <==> a.verificationKnown && !a.verifiedByARP)
            && ((forall b :: b in a.addresses ==> c.canonicalIP(b.ip) != ip) ==>
                  exists b :: b in r.assets[m].addresses && b.ip == ip && b.firstSeen == a.firstSeen && b.lastSeen == a.lastSeen
                           && b.verified == a.verifiedByARP && b.known == a.verificationKnown && b.vlan == a.vlan)
  {
    var ip, clean := c.canonicalIP(a.ip), Clean(c, a.addresses);
    var own := Binding(ip, a.firstSeen, a.lastSeen, a.verificationKnown, a.verifiedByARP, a.vlan);
    if ip in Ips(clean) { CleanedFrom(c, a.addresses, ip); } else { assert own in clean + [own]; }
    hide MacOf, Clean, ScoreOf;
  }

  lemma {:induction false} CleanedFrom(c: Config, bs: seq<Binding>, ip: string)
    requires ip in Ips(Clean(c, bs))
    ensures exists b :: b in bs && c.canonicalIP(b.ip) == ip
  {
    var before, b := bs[..|bs|-1], bs[|bs|-1];
    if ip in Ips(Clean(c, before)) { CleanedFrom(c, before, ip); } else { assert b in bs; }
  }

  lemma {:induction false} CleanKeepsClean(c: Config, bs: seq<Binding>)
    requires DistinctIps(bs) && forall b :: b in bs ==> b.ip != "" && c.canonicalIP(b.ip) == b.ip
    ensures Clean(c, bs) == bs
  {
    if bs != [] {
      var before, b := bs[..|bs|-1], bs[|bs|-1];
      CleanKeepsClean(c, before);
      assert b.ip !in Ips(before);
      assert bs == before + [b] && b.(ip := b.ip) == b;
    }
  }

  lemma {:induction false} OwnerIsCanonical(c: Config, life: seq<Sighting>)
    requires ValidConfig(c)
    ensures c.canonicalIP(Owner(c, life)) == Owner(c, life)
    ensures LatestClaimed(c, life) != "" ==> LatestClaimed(c, life) in ClaimedSet(c, life)
    ensures LatestObserved(c, life) != "" ==> LatestObserved(c, life) in ObservedSet(c, life)
    ensures LatestObserved(c, life) == "" <==> ObservedSet(c, life) == {}
    ensures c.canonicalIP(LatestClaimed(c, life)) == LatestClaimed(c, life)
    ensures c.canonicalIP(LatestObserved(c, life)) == LatestObserved(c, life)
  {
    if life != [] {
      var before, s := life[..|life|-1], life[|life|-1];
      assert life == before + [s];
      OwnerIsCanonical(c, before);
      SetsNext(c, before, s);
      OwnersNext(c, before, s);
    }
  }

  lemma FittingAssetSettles(c: Config, a: Asset, m: string, life: seq<Sighting>)
    requires ValidConfig(c) && AssetFits(c, a, m, life) && MacOf(c, m) == Some(m)
    ensures Settled(c, a)
  {
    OwnerIsCanonical(c, life);
    ClaimsAgree(c, life);
    forall b | b in a.addresses ensures b.ip != "" && c.canonicalIP(b.ip) == b.ip {
      BindingIp(c, life, b);
      assert b.ip in Ips(a.addresses);
    }
    CleanKeepsClean(c, a.addresses);
    assert a.ip != "" ==> a.ip in Ips(a.addresses);
    hide AddressesFit, Owner, Clean, Ips, FirstClaimed, MacOf;
  }

  lemma {:induction false} LifeHasMac(c: Config, es: seq<Event>, m: string)
    requires ValidConfig(c) && Life(c, es, m).Some?
    ensures MacOf(c, m) == Some(m)
  {
    hide ValidConfig;
    var before := es[..|es|-1];
    if Life(c, before, m).Some? { LifeHasMac(c, before, m); }
    else { MacIsCanonical(c, es[|es|-1].s.mac); }
  }

  lemma MacIsCanonical(c: Config, mac: string)
    requires ValidConfig(c)
    ensures MacOf(c, mac).Some? ==> MacOf(c, MacOf(c, mac).value) == MacOf(c, mac)
  {
  }

  lemma {:induction false} RestoredFrom(c: Config, st: State, list: seq<Asset>, m: string)
    requires forall i, j :: 0 <= i < j < |list| ==> list[i].mac != list[j].mac
    requires forall a :: a in list ==> Settled(c, a)
    ensures m in Restore(c, st, list).assets <==> exists a :: a in list && a.mac == m
    ensures m in Restore(c, st, list).assets ==> Restore(c, st, list).assets[m] in list && Restore(c, st, list).assets[m].mac == m
    ensures m in Restore(c, st, list).locked <==> exists a :: a in list && a.mac == m && a.ip != "" && LocksOnRestore(a)
  {
    if list != [] {
      hide RestoreOne, LocksOnRestore, Settled;
      var before, x := list[..|list|-1], list[|list|-1];
      assert list == before + [x];
      RestoredFrom(c, st, before, m);
      RestoredSettled(c, Restore(c, st, before), x);
      forall a | a in before ensures a.mac != x.mac { var i :| 0 <= i < |before| && before[i] == a; assert list[i].mac != x.mac; }
    }
  }

  lemma RestoredSettled(c: Config, st: State, a: Asset)
    requires Settled(c, a)
    ensures RestoreOne(c, st, a).assets == st.assets[a.mac := a]
    ensures RestoreOne(c, st, a).locked ==
              if a.ip == "" then st.locked else if LocksOnRestore(a) then st.locked + {a.mac} else st.locked - {a.mac}
  {
    hide RestoredAsset, MacOf, LocksOnRestore;
  }

  /** Saving the inventory and restoring it brings back every asset as it was. */
  lemma RestoreKeepsAssets(c: Config, es: seq<Event>, list: seq<Asset>)
    requires ValidConfig(c) && TimedEvents(es) && IsListing(Run(c, EMPTY_STATE, es).assets, list)
    ensures Restore(c, Run(c, EMPTY_STATE, es), list).assets == Run(c, EMPTY_STATE, es).assets
  {
    hide Run, Life, Restore, Settled, Fits, ValidConfig;
    var st := Run(c, EMPTY_STATE, es);
    var r := Restore(c, st, list);
    forall a | a in list ensures Settled(c, a) { ReachedAssetSettles(c, es, a.mac); }
    forall m ensures m in r.assets <==> m in st.assets
             ensures m in r.assets ==> r.assets[m] == st.assets[m] {
      RestoredFrom(c, st, list, m);
      if m in st.assets { ReachedAssetSettles(c, es, m); assert st.assets[m] in list; }
    }
  }

  lemma ReachedAssetSettles(c: Config, es: seq<Event>, m: string)
    requires ValidConfig(c) && TimedEvents(es) && m in Run(c, EMPTY_STATE, es).assets
    ensures Settled(c, Run(c, EMPTY_STATE, es).assets[m]) && Run(c, EMPTY_STATE, es).assets[m].mac == m
  {
    hide Run, Life, Settled, ValidConfig;
    AssetsFollowHistory(c, es, m);
    LifeHasMac(c, es, m);
    FittingAssetSettles(c, Run(c, EMPTY_STATE, es).assets[m], m, Life(c, es, m).value);
  }

  /** The lock on an asset's address survives saving and restoring if and only if the asset was not created by a
      claim to an unusable address and then only observed: such an asset was open to routed traffic before the
      restart and is locked to an observed address after it. */
  lemma RestoreKeepsLockExactly(c: Config, es: seq<Event>, list: seq<Asset>, m: string)
    requires ValidConfig(c) && TimedEvents(es) && IsListing(Run(c, EMPTY_STATE, es).assets, list)
    requires Life(c, es, m).Some?
    ensures var st, life := Run(c, EMPTY_STATE, es), Life(c, es, m).value;
            life != []
            && ((m in Restore(c, st, list).locked <==> m in st.locked) <==>
                !(life[0].fromARP && ClaimedSet(c, life) == {} && ObservedSet(c, life) != {}))
  {
    hide Run, Life, Restore, Settled;
    var st, life := Run(c, EMPTY_STATE, es), Life(c, es, m).value;
    AssetsFollowHistory(c, es, m);
    forall a | a in list ensures Settled(c, a) { ReachedAssetSettles(c, es, a.mac); }
    RestoredFrom(c, st, list, m);
    ReachedAssetSettles(c, es, m);
    assert st.assets[m] in list;
    forall a | a in list && a.mac == m ensures a == st.assets[m] {}
    ClaimsAgree(c, life);
    OwnerIsCanonical(c, life);
    hide AddressesFit, FirstClaimed, LatestClaimed, LatestObserved, ClaimedSet, ObservedSet;
  }

  /** Such an asset: a claim to an unusable address creates it, routed traffic then names an address. */
  lemma RestartLocksObservedAddress(c: Config, m: string, junk: string, ip: string, list: seq<Asset>)
    requires ValidConfig(c) && MacOf(c, m) == Some(m) && c.canonicalIP(junk) == "" && c.canonicalIP(ip) != ""
    requires IsListing(Run(c, EMPTY_STATE, TwoSightings(m, junk, ip)).assets, list)
    ensures var st := Run(c, EMPTY_STATE, TwoSightings(m, junk, ip));
            m in st.assets && m !in st.locked && m in Restore(c, st, list).locked
  {
    hide Restore, Run, ValidConfig, MacOf;
    var es := TwoSightings(m, junk, ip);
    var a, b := es[0].s, es[1].s;
    assert es[..1] == [es[0]] && [es[0]][..0] == [];
    assert Life(c, [es[0]], m) == Some([a]) by { assert [] + [a] == [a]; }
    assert [a] + [b] == [a, b];
    assert Life(c, es, m) == Some([a, b]);
    assert [a] + [b] == [a, b] && [] + [a] == [a];
    SetsNext(c, [a], b);
    SetsNext(c, [], a);
    AssetsFollowHistory(c, es, m);
    ClaimsAgree(c, [a, b]);
    assert ClaimedSet(c, []) == {};
    assert c.canonicalIP(ip) in ObservedSet(c, [a, b]);
    RestoreKeepsLockExactly(c, es, list, m);
  }

  function TwoSightings(m: string, junk: string, ip: string): seq<Event> {
    [Sighted(Sighting(junk, m, "", 1, true, false, 0)), Sighted(Sighting(ip, m, "", 2, false, false, 0))]
  }

  // ---------- What one packet says ----------

  datatype Packet = Packet(
    srcMAC: string, srcIP: string, dstMAC: string, dstIP: string, arpMAC: string, arpIP: string,
    ndpMAC: string, ndpIP: string, at: Time, fromAnalysis: bool, vlan: nat)

  datatype Observation = Observation(ip: string, mac: string, fromARP: bool)

  function Observations(c: Config, p: Packet): seq<Observation> {
    (if p.srcMAC != "" && !c.multicast(p.srcMAC) then [Observation(p.srcIP, p.srcMAC, false)] else [])
    + (if p.dstMAC != "" && !c.multicast(p.dstMAC) then [Observation(p.dstIP, p.dstMAC, false)] else [])
    + (if p.arpMAC != "" && !c.multicast(p.arpMAC) && p.arpIP != "" && p.arpIP != "0.0.0.0"
       then [Observation(p.arpIP, p.arpMAC, true)] else [])
    + (if p.ndpMAC != "" && !c.multicast(p.ndpMAC) && p.ndpIP != "" && p.ndpIP != "::"
       then [Observation(p.ndpIP, p.ndpMAC, true)] else [])
  }

  /** What a packet says: who sent it and who is to receive it, and whom an ARP or NDP message in it names as the owner of
      an address, unless the address is the unspecified one; never about a multicast or missing hardware address. */
  lemma PacketSays(c: Config, p: Packet, x: Observation)
    ensures x in Observations(c, p) <==>
              (&& x.mac != "" && !c.multicast(x.mac)
               && (if x.fromARP then ((x.mac, x.ip) == (p.arpMAC, p.arpIP) && x.ip !in {"", "0.0.0.0"})
                                     || ((x.mac, x.ip) == (p.ndpMAC, p.ndpIP) && x.ip !in {"", "::"})
                   else (x.mac, x.ip) in {(p.srcMAC, p.srcIP), (p.dstMAC, p.dstIP)}))
  {
  }

  function Preferred(x: Observation, y: Observation): Observation {
    if y.fromARP && !x.fromARP then y
    else if !x.fromARP && x.ip == "" && y.ip != "" then y
    else x
  }

  function MergedByMac(xs: seq<Observation>): map<string, Observation> {
    if xs == [] then map[]
    else
      var before, x := MergedByMac(xs[..|xs|-1]), xs[|xs|-1];
      before[x.mac := if x.mac in before then Preferred(before[x.mac], x) else x]
  }

  /** A packet yields at most one sighting per spelled hardware address: a claim if the packet makes one for it,
      else one that carries an address if there is one. */
  lemma {:induction false} MergePrefersClaims(xs: seq<Observation>, mac: string)
    ensures mac in MergedByMac(xs) <==> exists x :: x in xs && x.mac == mac
    ensures mac in MergedByMac(xs) ==>
              var m := MergedByMac(xs)[mac];
              && m in xs && m.mac == mac
              && ((exists x :: x in xs && x.mac == mac && x.fromARP) ==> m.fromARP)
              && ((exists x :: x in xs && x.mac == mac && !x.fromARP && x.ip != "") ==> m.fromARP || m.ip != "")
  {
    if xs != [] {
      var before, x := xs[..|xs|-1], xs[|xs|-1];
      assert xs == before + [x];
      MergePrefersClaims(before, mac);
    }
  }

  function SightingOf(p: Packet, x: Observation): Sighting {
    Sighting(x.ip, x.mac, "", p.at, x.fromARP, p.fromAnalysis, p.vlan)
  }

  /** A claim in a packet takes its address for its sender and locks it; the time and the VLAN are those of the packet. */
  lemma PacketClaims(c: Config, st: State, p: Packet, x: Observation, m: string)
    requires x in Observations(c, p) && x.fromARP && MacOf(c, x.mac) == Some(m) && c.canonicalIP(x.ip) != ""
    ensures var r := Update(c, st, SightingOf(p, x));
            && m in r.locked && m in r.assets
            && r.assets[m].ip == c.canonicalIP(x.ip) && r.assets[m].lastSeen == p.at
            && r.assets[m].verifiedByARP && (p.vlan != 0 ==> r.assets[m].vlan == p.vlan)
            && (m !in st.assets ==> r.assets[m].fromAnalysis == p.fromAnalysis)
  {
    hide Observations, MacOf, Upsert, Purged, ScoreOf;
  }
}
