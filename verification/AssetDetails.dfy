/** What an asset is called, where it was last seen and whether it needs review, as functions of what happened. */
module AssetDetails {
  import opened Options
  import opened Assets

  /** The VLAN the sightings named last, 0 if none did. */
  function LatestVlan(life: seq<Sighting>): nat {
    if life == [] then 0
    else if life[|life|-1].vlan != 0 then life[|life|-1].vlan
    else LatestVlan(life[..|life|-1])
  }

  /** The name of an asset: that of the sighting that created it, until it is observed under another. */
  function LatestName(c: Config, es: seq<Event>, m: string): string {
    if es == [] then ""
    else
      var before := es[..|es|-1];
      match es[|es|-1]
      case Sighted(s) => if MacOf(c, s.mac) == Some(m) && Life(c, before, m).None? then s.hostname else LatestName(c, before, m)
      case HostnameSeen(mac, name) =>
        if mac != "" && name != "" && c.canonicalMAC(mac) == Some(m) && Life(c, before, m).Some? then name else LatestName(c, before, m)
      case _ => LatestName(c, before, m)
  }

  /** A learning window has been finished since the last reset. */
  predicate Established(es: seq<Event>) {
    if es == [] then false
    else
      match es[|es|-1]
      case LearningComplete(_) => true
      case LearningReset => false
      case Cleared => false
      case _ => Established(es[..|es|-1])
  }

  /** A finished window included the hardware address, or an analyst vouched for its asset, since it was last deleted
      and since the last reset. */
  predicate Trusted(c: Config, es: seq<Event>, m: string) {
    if es == [] then false
    else
      var before := es[..|es|-1];
      match es[|es|-1]
      case LearningComplete(macs) => Trusted(c, before, m) || exists x :: x in macs && c.canonicalMAC(x) == Some(m)
      case Confirmed(mac) => Trusted(c, before, m) || (c.canonicalMAC(mac) == Some(m) && Life(c, before, m).Some?)
      case Deleted(mac) => Trusted(c, before, m) && !(c.canonicalMAC(mac) == Some(m) && Life(c, before, m).Some?)
      case LearningReset => false
      case Cleared => false
      case _ => Trusted(c, before, m)
  }

  /** The asset needs no review: whenever it was seen, no window was finished or it was trusted, or an analyst confirmed
      it after the last sighting that found otherwise. */
  predicate Vouched(c: Config, es: seq<Event>, m: string) {
    if es == [] then false
    else
      var before := es[..|es|-1];
      match es[|es|-1]
      case Sighted(s) =>
        if MacOf(c, s.mac) == Some(m)
        then (Life(c, before, m).None? || Vouched(c, before, m)) && (!Established(before) || Trusted(c, before, m))
        else Vouched(c, before, m)
      case Confirmed(mac) => Vouched(c, before, m) || (c.canonicalMAC(mac) == Some(m) && Life(c, before, m).Some?)
      case _ => Vouched(c, before, m)
  }

  ghost predicate Detailed(c: Config, st: State, es: seq<Event>, m: string) {
    && st.established == Established(es) && (m in st.learned <==> Trusted(c, es, m))
    && (m in st.assets && Life(c, es, m).Some? ==>
          && st.assets[m].mac == m
          && st.assets[m].vlan == LatestVlan(Life(c, es, m).value)
          && st.assets[m].score == (if st.assets[m].ip !in c.scores then 1 else c.scores[st.assets[m].ip])
          && st.assets[m].hostname == LatestName(c, es, m)
          && (st.assets[m].confirmed <==> Vouched(c, es, m)))
  }

  lemma VlanNext(life: seq<Sighting>, s: Sighting)
    ensures LatestVlan(life + [s]) == if s.vlan != 0 then s.vlan else LatestVlan(life)
  {
    assert (life + [s])[..|life|] == life;
  }

  /** What one sighting does to the details of its asset. */
  lemma SightingDetails(c: Config, st: State, s: Sighting, m: string)
    requires MacOf(c, s.mac) == Some(m)
    ensures var r := Update(c, st, s);
            && r.established == st.established && r.learned == st.learned && m in r.assets
            && (m in st.assets && st.assets[m].mac == m ==>
                  && r.assets[m].mac == m && r.assets[m].hostname == st.assets[m].hostname
                  && r.assets[m].vlan == (if s.vlan != 0 then s.vlan else st.assets[m].vlan)
                  && r.assets[m].confirmed == (st.assets[m].confirmed && (!st.established || m in st.learned)))
            && (m !in st.assets ==>
                  && r.assets[m].mac == m && r.assets[m].hostname == s.hostname && r.assets[m].vlan == s.vlan
                  && r.assets[m].confirmed == (!st.established || m in st.learned))
  {
    hide Upsert, Purged, MacOf;
  }

  lemma OtherSighting(c: Config, st: State, s: Sighting, m: string)
    requires MacOf(c, s.mac) != Some(m)
    ensures var r := Update(c, st, s);
            r.established == st.established && r.learned == st.learned && (m in r.assets <==> m in st.assets)
            && (m in st.assets ==> r.assets[m] == st.assets[m])
  {
    hide Owned, Recorded, Revisited, NewAsset, MacOf;
  }

  lemma OtherSteps(c: Config, st: State, e: Event, m: string)
    requires !e.Sighted?
    ensures var r := Step(c, st, e);
            && r.established == (e.LearningComplete? || (st.established && !e.LearningReset? && !e.Cleared?))
            && (m in r.assets && m in st.assets ==>
                  && r.assets[m].mac == st.assets[m].mac && r.assets[m].vlan == st.assets[m].vlan
                  && r.assets[m].hostname
                     == (if e.HostnameSeen? && e.mac != "" && e.name != "" && c.canonicalMAC(e.mac) == Some(m) then e.name
                         else st.assets[m].hostname)
                  && r.assets[m].confirmed == (st.assets[m].confirmed || (e.Confirmed? && c.canonicalMAC(e.mac) == Some(m))))
            && (m in r.assets ==> m in st.assets)
            && (m in r.learned <==>
                  match e
                  case LearningComplete(macs) => m in st.learned || exists x :: x in macs && c.canonicalMAC(x) == Some(m)
                  case Confirmed(mac) => m in st.learned || (c.canonicalMAC(mac) == Some(m) && m in st.assets)
                  case Deleted(mac) => m in st.learned && !(c.canonicalMAC(mac) == Some(m) && m in st.assets)
                  case LearningReset => false
                  case Cleared => false
                  case _ => m in st.learned)
  {
    if e.LearningComplete? {
      forall x | x in e.macs && c.canonicalMAC(x) == Some(m) ensures m in BaselineComplete(c, st, e.macs).learned {}
    }
  }

  lemma SightedDetails(c: Config, st: State, s: Sighting, m: string, before: seq<Event>)
    requires Detailed(c, st, before, m) && (m in st.assets <==> Life(c, before, m).Some?) && MacOf(c, s.mac) == Some(m)
    ensures Detailed(c, Update(c, st, s), before + [Sighted(s)], m)
  {
    var es := before + [Sighted(s)];
    assert es[..|es|-1] == before;
    SightingDetails(c, st, s, m);
    var life := Life(c, before, m);
    assert Life(c, es, m) == Some((if life.Some? then life.value else []) + [s]);
    VlanNext(if life.Some? then life.value else [], s);
    hide Update, MacOf, Life;
  }

  lemma OtherSightedDetails(c: Config, st: State, s: Sighting, m: string, before: seq<Event>)
    requires Detailed(c, st, before, m) && MacOf(c, s.mac) != Some(m)
    ensures Detailed(c, Update(c, st, s), before + [Sighted(s)], m)
  {
    var es := before + [Sighted(s)];
    assert es[..|es|-1] == before;
    OtherSighting(c, st, s, m);
    assert Life(c, es, m) == Life(c, before, m);
    hide Update, MacOf, Life, LatestVlan;
  }

  lemma OtherDetails(c: Config, st: State, e: Event, m: string, before: seq<Event>)
    requires Detailed(c, st, before, m) && (m in st.assets <==> Life(c, before, m).Some?) && !e.Sighted?
    ensures Detailed(c, Step(c, st, e), before + [e], m)
  {
    var es := before + [e];
    assert es[..|es|-1] == before && es[|es|-1] == e;
    OtherSteps(c, st, e, m);
    assert Life(c, es, m).Some? ==> Life(c, es, m) == Life(c, before, m);
    hide Step, Life, LatestVlan;
  }

  /** After any run an asset has the name and the VLAN it was last given, and is confirmed exactly if its history vouches
      for it. */
  lemma {:induction false} DetailsFollowHistory(c: Config, es: seq<Event>, m: string)
    requires TimedEvents(es)
    ensures Detailed(c, Run(c, EMPTY_STATE, es), es, m)
    ensures m in Run(c, EMPTY_STATE, es).assets <==> Life(c, es, m).Some?
  {
    AssetsFollowHistory(c, es, m);
    hide Detailed, Step, AssetFits, FirstClaimed, MacOf, Life;
    if es == [] {
      NothingDetailed(c, m);
    } else {
      var before, e := es[..|es|-1], es[|es|-1];
      var st := Run(c, EMPTY_STATE, before);
      DetailsFollowHistory(c, before, m);
      assert before + [e] == es;
      if e.Sighted? {
        if MacOf(c, e.s.mac) == Some(m) { SightedDetails(c, st, e.s, m, before); } else { OtherSightedDetails(c, st, e.s, m, before); }
        SightedStep(c, st, e);
      } else {
        OtherDetails(c, st, e, m, before);
      }
    }
  }

  lemma SightedStep(c: Config, st: State, e: Event)
    requires e.Sighted?
    ensures Step(c, st, e) == Update(c, st, e.s)
  {
  }

  lemma NothingDetailed(c: Config, m: string)
    ensures Detailed(c, EMPTY_STATE, [], m)
  {
  }
}
