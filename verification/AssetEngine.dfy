/** The asset engine itself: its maps updated in place, proved against the state machine of Assets. */
module AssetEngine {
  import opened Options
  import opened Assets

  lemma {:induction false} UpsertAt(bs: seq<Binding>, ip: string, at: Time, verified: bool, vlan: nat, i: nat)
    requires ip != "" && i < |bs| && bs[i].ip == ip && forall j :: 0 <= j < i ==> bs[j].ip != ip
    ensures Upsert(bs, ip, at, verified, vlan) == bs[i := Seen(bs[i], at, verified, vlan)]
  {
    if i > 0 {
      UpsertAt(bs[1..], ip, at, verified, vlan, i - 1);
    }
  }

  lemma {:induction false} UpsertAppends(bs: seq<Binding>, ip: string, at: Time, verified: bool, vlan: nat)
    requires ip != "" && forall j :: 0 <= j < |bs| ==> bs[j].ip != ip
    ensures Upsert(bs, ip, at, verified, vlan) == bs + [Binding(ip, at, at, true, verified, vlan)]
  {
    if bs != [] { UpsertAppends(bs[1..], ip, at, verified, vlan); }
  }

  method UpsertAddressBinding(bs: seq<Binding>, ip: string, at: Time, verified: bool, vlan: nat) returns (r: seq<Binding>)
    ensures r == Upsert(bs, ip, at, verified, vlan)
  {
    if ip == "" { return bs; }
    for i := 0 to |bs|
      invariant forall j :: 0 <= j < i ==> bs[j].ip != ip
    {
      if bs[i].ip == ip {
        var b := bs[i];
        if b.firstSeen == 0 || at < b.firstSeen { b := b.(firstSeen := at); }
        if b.lastSeen == 0 || at > b.lastSeen { b := b.(lastSeen := at); }
        b := b.(known := true);
        if verified { b := b.(verified := true); }
        if vlan != 0 { b := b.(vlan := vlan); }
        UpsertAt(bs, ip, at, verified, vlan, i);
        return bs[i := b];
      }
    }
    UpsertAppends(bs, ip, at, verified, vlan);
    r := bs + [Binding(ip, at, at, true, verified, vlan)];
  }

  /** Keeps the addresses a first claim does not contradict. */
  method KeepVerified(bs: seq<Binding>, ip: string) returns (kept: seq<Binding>)
    ensures kept == Purged(bs, ip)
  {
    kept := [];
    for i := 0 to |bs|
      invariant kept == Purged(bs[..i], ip)
    {
      assert bs[..i+1][..i] == bs[..i];
      if bs[i].verified || bs[i].ip == ip { kept := kept + [bs[i]]; }
    }
    assert bs[..|bs|] == bs;
  }

  method CleanAddresses(c: Config, bs: seq<Binding>) returns (clean: seq<Binding>, seen: set<string>)
    ensures clean == Clean(c, bs) && seen == Ips(clean)
  {
    clean, seen := [], {};
    for i := 0 to |bs|
      invariant clean == Clean(c, bs[..i]) && seen == Ips(clean)
    {
      assert bs[..i+1][..i] == bs[..i];
      var ip := c.canonicalIP(bs[i].ip);
      if ip != "" && ip !in seen {
        assert forall b :: b in clean + [bs[i].(ip := ip)] <==> b in clean || b == bs[i].(ip := ip);
        seen := seen + {ip};
        clean := clean + [bs[i].(ip := ip)];
      }
    }
    assert bs[..|bs|] == bs;
  }

  class Engine {
    const config: Config
    var assets: map<string, Asset>
    var arpVerified: set<string>
    var baselineEstablished: bool
    var knownFromBaseline: set<string>

    ghost function View(): State reads this { State(assets, arpVerified, baselineEstablished, knownFromBaseline) }

    constructor (c: Config)
      ensures config == c && View() == EMPTY_STATE
    {
      config := c;
      assets, arpVerified, baselineEstablished, knownFromBaseline := map[], {}, false, {};
    }

    /** Gives the address to the asset, unless an earlier claim of another address stands against an observation. */
    method TakeAddress(start: Asset, ip: string, s: Sighting, locked: bool) returns (a: Asset)
      ensures a == Owned(start, ip, s, locked)
    {
      hide Upsert, Purged;
      a := start;
      if ip == "" { return; }
      if s.fromARP {
        var kept := a.addresses;
        if !locked { kept := KeepVerified(kept, ip); }
        var list := UpsertAddressBinding(kept, ip, s.at, true, s.vlan);
        a := a.(addresses := list);
        a := a.(ip := ip, verificationKnown := true, verifiedByARP := true);
      } else if !locked {
        var list := UpsertAddressBinding(a.addresses, ip, s.at, false, s.vlan);
        a := a.(addresses := list);
        a := a.(ip := ip);
      }
    }

    /** The record before the sighting: a new one, or the known one as the sighting finds it. */
    method LookUp(mac: string, ip: string, s: Sighting) returns (a: Asset)
      requires ip == config.canonicalIP(s.ip)
      ensures a == if mac in assets then Revisited(View(), assets[mac], s) else NewAsset(config, View(), mac, s)
    {
      if mac !in assets {
        var confirmed := true;
        if baselineEstablished && mac !in knownFromBaseline { confirmed := false; }
        return Asset(mac, ip, s.hostname, s.at, 0, confirmed, s.fromAnalysis, true, s.fromARP, s.vlan, 0, 0, []);
      }
      a := assets[mac];
      if !s.fromAnalysis { a := a.(fromAnalysis := false); }
      if baselineEstablished && a.mac !in knownFromBaseline && a.confirmed { a := a.(confirmed := false); }
    }

    method Touch(start: Asset, s: Sighting) returns (a: Asset)
      ensures a == Recorded(config, start, s)
    {
      a := start;
      if s.vlan != 0 { a := a.(vlan := s.vlan); }
      a := a.(score := ScoreOf(config, a.ip));
      a := a.(lastSeen := s.at, packets := a.packets + 1);
    }

    /** Records a sighting of a hardware address at an address. */
    method Update(s: Sighting)
      modifies this
      ensures View() == Assets.Update(config, old(View()), s)
    {
      hide Owned, MacOf, Revisited, NewAsset, Recorded;
      var ip := config.canonicalIP(s.ip);
      var parsed := MacOf(config, s.mac);
      if parsed.None? { return; }
      var mac := parsed.value;
      var a := LookUp(mac, ip, s);
      a := TakeAddress(a, ip, s, mac in arpVerified);
      a := Touch(a, s);
      assets := assets[mac := a];
      if s.fromARP && ip != "" { arpVerified := arpVerified + {mac}; }
    }

    /** Records what one packet says about each hardware address it names, in some order. */
    method Handle(p: Packet) returns (ghost order: seq<Observation>)
      modifies this
      ensures forall x :: x in order <==> exists mac :: mac in MergedByMac(Observations(config, p)) && MergedByMac(Observations(config, p))[mac] == x
      ensures |order| == |MergedByMac(Observations(config, p))|
      ensures View() == Run(config, old(View()), Sightings(p, order))
    {
      hide Assets.Update, Observations;
      var xs := Observations(config, p);
      var byMAC: map<string, Observation> := map[];
      for i := 0 to |xs|
        invariant byMAC == MergedByMac(xs[..i])
      {
        assert xs[..i+1][..i] == xs[..i];
        var x := xs[i];
        if x.mac !in byMAC { byMAC := byMAC[x.mac := x]; }
        else if x.fromARP && !byMAC[x.mac].fromARP { byMAC := byMAC[x.mac := x]; }
        else if !byMAC[x.mac].fromARP && byMAC[x.mac].ip == "" && x.ip != "" { byMAC := byMAC[x.mac := x]; }
        else { assert byMAC == byMAC[x.mac := byMAC[x.mac]]; }
      }
      assert xs[..|xs|] == xs;
      ghost var start := View();
      order := [];
      var macs := byMAC.Keys;
      while macs != {}
        invariant macs <= byMAC.Keys && |order| + |macs| == |byMAC.Keys|
        invariant forall x :: x in order <==> exists mac :: mac in byMAC && mac !in macs && byMAC[mac] == x
        invariant View() == Run(config, start, Sightings(p, order))
      {
        var mac :| mac in macs;
        var x := byMAC[mac];
        Update(SightingOf(p, x));
        assert Sightings(p, order + [x])[..|order|] == Sightings(p, order);
        order := order + [x];
        macs := macs - {mac};
      }
      assert |byMAC| == |byMAC.Keys|;
    }

    method Delete(mac: string) returns (found: bool)
      modifies this
      ensures View() == Assets.Delete(config, old(View()), mac)
      ensures found <==> config.canonicalMAC(mac).Some? && config.canonicalMAC(mac).value in old(assets)
    {
      var parsed := config.canonicalMAC(mac);
      if parsed.None? { return false; }
      if parsed.value !in assets { return false; }
      assets := assets - {parsed.value};
      arpVerified := arpVerified - {parsed.value};
      knownFromBaseline := knownFromBaseline - {parsed.value};
      return true;
    }

    /** Drops the assets not seen since the cutoff, except those known only from analysed captures. */
    method Prune(cutoff: int) returns (removed: nat)
      modifies this
      ensures View() == Assets.Prune(old(View()), cutoff)
      ensures removed == |StaleMacs(old(View()), cutoff)|
    {
      hide Stale;
      ghost var start := View();
      removed := 0;
      ghost var gone: set<string> := {};
      var macs := assets.Keys;
      while macs != {}
        invariant macs <= start.assets.Keys
        invariant gone == set m | m in start.assets && m !in macs && Stale(start.assets[m], cutoff)
        invariant assets == start.assets - gone && arpVerified == start.locked - gone && removed == |gone|
        invariant baselineEstablished == start.established && knownFromBaseline == start.learned
      {
        var mac :| mac in macs;
        assert mac in assets && assets[mac] == start.assets[mac];
        if Stale(assets[mac], cutoff) {
          assets := assets - {mac};
          arpVerified := arpVerified - {mac};
          removed := removed + 1;
          gone := gone + {mac};
        }
        macs := macs - {mac};
      }
      assert gone == StaleMacs(start, cutoff);
    }

    method Confirm(mac: string) returns (found: bool)
      modifies this
      ensures View() == Assets.Confirm(config, old(View()), mac)
      ensures found <==> config.canonicalMAC(mac).Some? && config.canonicalMAC(mac).value in old(assets)
    {
      var parsed := config.canonicalMAC(mac);
      if parsed.None? { return false; }
      if parsed.value !in assets { return false; }
      assets := assets[parsed.value := assets[parsed.value].(confirmed := true)];
      knownFromBaseline := knownFromBaseline + {parsed.value};
      return true;
    }

    method HandleHostname(mac: string, name: string)
      modifies this
      ensures View() == Named(config, old(View()), mac, name)
    {
      if mac == "" || name == "" { return; }
      var parsed := config.canonicalMAC(mac);
      if parsed.None? || parsed.value !in assets { return; }
      var a := assets[parsed.value];
      if a.hostname != name {
        assets := assets[parsed.value := a.(hostname := name)];
      } else {
        assert assets[parsed.value := a.(hostname := name)] == assets;
      }
    }

    method HandleBaselineComplete(macs: seq<string>)
      modifies this
      ensures View() == BaselineComplete(config, old(View()), macs)
    {
      ghost var before := knownFromBaseline;
      for i := 0 to |macs|
        invariant knownFromBaseline == before + set m | m in macs[..i] && config.canonicalMAC(m).Some? :: config.canonicalMAC(m).value
        invariant assets == old(assets) && arpVerified == old(arpVerified)
      {
        assert forall m :: m in macs[..i+1] <==> m in macs[..i] || m == macs[i];
        var parsed := config.canonicalMAC(macs[i]);
        if parsed.Some? { knownFromBaseline := knownFromBaseline + {parsed.value}; }
      }
      assert macs[..|macs|] == macs;
      baselineEstablished := true;
    }

    method ResetBaseline()
      modifies this
      ensures View() == Assets.ResetBaseline(old(View()))
    {
      baselineEstablished, knownFromBaseline := false, {};
    }

    method Clear()
      modifies this
      ensures View() == EMPTY_STATE
    {
      assets, arpVerified, knownFromBaseline, baselineEstablished := map[], {}, {}, false;
    }

    /** Replaces the inventory by a saved one. */
    method Restore(list: seq<Asset>)
      modifies this
      ensures View() == Assets.Restore(config, old(View()), list)
    {
      hide Clean, MacOf, ScoreOf;
      ghost var start := View();
      assets, arpVerified := map[], {};
      assert list[..0] == [];
      for i := 0 to |list|
        invariant View() == Assets.Restore(config, start, list[..i])
      {
        assert list[..i+1][..i] == list[..i];
        RestoreNext(list[i]);
      }
      assert list[..|list|] == list;
    }

    method RestoreNext(saved: Asset)
      modifies this
      ensures View() == RestoreOne(config, old(View()), saved)
    {
      hide Clean, MacOf, ScoreOf, Ips;
      var parsed := MacOf(config, saved.mac);
      if parsed.None? { return; }
      var mac := parsed.value;
      var a := saved.(mac := mac, ip := config.canonicalIP(saved.ip));
      var clean, seen := CleanAddresses(config, a.addresses);
      if a.ip != "" && a.ip !in seen {
        clean := clean + [Binding(a.ip, a.firstSeen, a.lastSeen, a.verificationKnown, a.verifiedByARP, a.vlan)];
      }
      a := a.(addresses := clean);
      a := a.(score := ScoreOf(config, a.ip));
      assert a == RestoredAsset(config, saved, mac);
      assets := assets[mac := a];
      if a.ip != "" {
        if LocksOnRestore(saved) { arpVerified := arpVerified + {mac}; } else { arpVerified := arpVerified - {mac}; }
      }
    }
  }

  function Sightings(p: Packet, xs: seq<Observation>): (es: seq<Event>)
    ensures |es| == |xs| && forall i :: 0 <= i < |xs| ==> es[i] == Sighted(SightingOf(p, xs[i]))
  {
    seq(|xs|, i requires 0 <= i < |xs| => Sighted(SightingOf(p, xs[i])))
  }
}
