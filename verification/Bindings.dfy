/**
  Which device held which address, and when: binding episodes rebuilt from complete topology snapshots of
  one sensor. Times are integers; `now` is Central's own clock when it applies a snapshot.
*/
module Bindings {
  import opened Permutations
  import opened Ranking
  import opened Options
  import opened Strings

  /** Text handling of the surrounding code: trimming, lower-casing and parsing a 48-bit hardware address. */
  datatype Config = Config(trim: string -> string, lower: string -> string, parseMAC: string -> Option<string>)

  datatype Identity = Mac(address: string) | Provisional(ip: string)

  datatype Node = Node(
    mac: string, ip: string, ips: seq<string>, arp: bool, confirmed: bool, firstSeen: Option<int>, lastSeen: Option<int>, vlan: nat)

  /** A node claims one of its addresses. */
  datatype Claim = Claim(node: Node, ip: string)

  datatype Episode = Episode(
    identity: Identity, ip: string, mac: string, vlan: nat, arp: bool,
    validFrom: int, validTo: Option<int>, lastObserved: int, snapshotSeenAt: int)

  type Pair = (Identity, string)

  function IdentityOf(c: Config, mac: string, ip: string): Identity {
    var parsed := c.parseMAC(c.trim(mac));
    if parsed.Some? then Mac(parsed.value) else Provisional(c.trim(ip))
  }

  function PairOf(c: Config, x: Claim): Pair { (IdentityOf(c, x.node.mac, x.ip), x.ip) }

  /** A binding starts when the node was last seen, not when it was first seen. */
  function Start(x: Claim, now: int): int { if x.node.lastSeen.Some? then x.node.lastSeen.value else now }

  predicate Open(e: Episode) { e.validTo.None? }

  predicate OpenFor(e: Episode, p: Pair) { Open(e) && (e.identity, e.ip) == p }

  // ---------- One snapshot ----------

  function Refresh(e: Episode, x: Claim, now: int): Episode {
    e.(lastObserved := if Start(x, now) > e.lastObserved then Start(x, now) else e.lastObserved,
       snapshotSeenAt := now, vlan := x.node.vlan, arp := e.arp || x.node.arp)
  }

  predicate HasOpen(h: seq<Episode>, p: Pair) { exists i :: 0 <= i < |h| && OpenFor(h[i], p) }

  function TouchedRow(c: Config, e: Episode, x: Claim, now: int): Episode {
    if OpenFor(e, PairOf(c, x)) then Refresh(e, x, now) else e
  }

  function Touch(c: Config, h: seq<Episode>, x: Claim, now: int): (r: seq<Episode>)
    ensures |r| == |h|
    ensures forall i :: 0 <= i < |h| ==> r[i] == TouchedRow(c, h[i], x, now)
  {
    seq(|h|, i requires 0 <= i < |h| => TouchedRow(c, h[i], x, now))
  }

  function NewEpisode(c: Config, x: Claim, now: int): Episode {
    var p := PairOf(c, x);
    Episode(p.0, p.1, x.node.mac, x.node.vlan, x.node.arp, Start(x, now), None, Start(x, now), now)
  }

  /** Extends the open episode of the claimed pair, or opens one. */
  function Record(c: Config, h: seq<Episode>, x: Claim, now: int): seq<Episode> {
    if HasOpen(h, PairOf(c, x)) then Touch(c, h, x, now) else h + [NewEpisode(c, x, now)]
  }

  function RecordAll(c: Config, h: seq<Episode>, xs: seq<Claim>, now: int): seq<Episode> {
    if xs == [] then h else Record(c, RecordAll(c, h, xs[..|xs|-1], now), xs[|xs|-1], now)
  }

  function Ended(e: Episode, now: int): Episode {
    if Open(e) && e.snapshotSeenAt < now then e.(validTo := Some(now)) else e
  }

  /** Ends every open episode the snapshot did not refresh. */
  function Close(h: seq<Episode>, now: int): (r: seq<Episode>)
    ensures |r| == |h|
    ensures forall i :: 0 <= i < |h| ==> r[i] == Ended(h[i], now)
  {
    seq(|h|, i requires 0 <= i < |h| => Ended(h[i], now))
  }

  function Snapshot(c: Config, h: seq<Episode>, xs: seq<Claim>, now: int): seq<Episode> {
    Close(RecordAll(c, h, xs, now), now)
  }

  // ---------- What one snapshot keeps ----------

  function Pairs(c: Config, xs: seq<Claim>): set<Pair> { set x | x in xs :: PairOf(c, x) }

  function OpenPairs(h: seq<Episode>): set<Pair> {
    set i | 0 <= i < |h| && Open(h[i]) :: (h[i].identity, h[i].ip)
  }

  ghost predicate OneOpenEach(h: seq<Episode>) {
    forall i, j :: 0 <= i < j < |h| && Open(h[i]) && Open(h[j]) ==> (h[i].identity, h[i].ip) != (h[j].identity, h[j].ip)
  }

  /** The start of the first claim to a pair: the episode it opens begins there. */
  function Opening(c: Config, xs: seq<Claim>, p: Pair, now: int): (t: int)
    requires p in Pairs(c, xs)
  {
    var init := xs[..|xs|-1];
    if p in Pairs(c, init) then Opening(c, init, p, now) else Start(xs[|xs|-1], now)
  }

  predicate SameSpan(a: Episode, b: Episode) {
    a.validFrom == b.validFrom && a.validTo == b.validTo && a.identity == b.identity && a.ip == b.ip
  }

  /** What recording claims makes of a row that was there before. */
  predicate CarriedRow(c: Config, xs: seq<Claim>, now: int, e: Episode, f: Episode) {
    && SameSpan(f, e)
    && (!Open(e) ==> f == e)
    && (Open(e) ==> f.snapshotSeenAt == if (e.identity, e.ip) in Pairs(c, xs) then now else e.snapshotSeenAt)
  }

  /** How the rows after recording relate to the rows before. */
  ghost predicate Extends(c: Config, h: seq<Episode>, xs: seq<Claim>, now: int, r: seq<Episode>) {
    && |r| >= |h|
    && (forall i :: 0 <= i < |h| ==> CarriedRow(c, xs, now, h[i], r[i]))
    && (forall i :: |h| <= i < |r| ==> Opened(c, h, xs, now, r[i]))
    && (forall p :: p in Pairs(c, xs) ==> HasOpen(r, p))
  }

  /** A row that the snapshot opened. */
  ghost predicate Opened(c: Config, h: seq<Episode>, xs: seq<Claim>, now: int, e: Episode) {
    var p := (e.identity, e.ip);
    p in Pairs(c, xs) && !HasOpen(h, p) && Open(e) && e.snapshotSeenAt == now && e.validFrom == Opening(c, xs, p, now)
  }

  lemma PairsNext(c: Config, init: seq<Claim>, x: Claim)
    ensures Pairs(c, init + [x]) == Pairs(c, init) + {PairOf(c, x)}
  {
    assert forall y :: y in init + [x] <==> y in init || y == x;
  }

  lemma OpeningNext(c: Config, init: seq<Claim>, x: Claim, p: Pair, now: int)
    requires p in Pairs(c, init) + {PairOf(c, x)}
    ensures p in Pairs(c, init + [x])
    ensures Opening(c, init + [x], p, now) == if p in Pairs(c, init) then Opening(c, init, p, now) else Start(x, now)
  {
    PairsNext(c, init, x);
    assert (init + [x])[..|init|] == init;
  }

  lemma CarryRow(c: Config, init: seq<Claim>, x: Claim, now: int, e: Episode, f: Episode)
    requires CarriedRow(c, init, now, e, f)
    ensures CarriedRow(c, init + [x], now, e, TouchedRow(c, f, x, now))
  {
    hide Pairs, PairOf;
    PairsNext(c, init, x);
  }

  lemma OpenedRow(c: Config, h: seq<Episode>, init: seq<Claim>, x: Claim, now: int, e: Episode)
    requires Opened(c, h, init, now, e)
    ensures Opened(c, h, init + [x], now, TouchedRow(c, e, x, now))
  {
    hide Pairs, Opening, PairOf, HasOpen;
    PairsNext(c, init, x);
    OpeningNext(c, init, x, (e.identity, e.ip), now);
  }

  lemma TouchedSpan(c: Config, e: Episode, x: Claim, now: int)
    ensures SameSpan(TouchedRow(c, e, x, now), e)
  {
  }

  lemma TouchStep(c: Config, h: seq<Episode>, init: seq<Claim>, x: Claim, now: int, r: seq<Episode>)
    requires Extends(c, h, init, now, r) && OneOpenEach(r) && HasOpen(r, PairOf(c, x))
    ensures Extends(c, h, init + [x], now, Touch(c, r, x, now)) && OneOpenEach(Touch(c, r, x, now))
  {
    hide Pairs, Opening, PairOf, CarriedRow, Opened, TouchedRow, Touch;
    var s := Touch(c, r, x, now);
    PairsNext(c, init, x);
    forall i | 0 <= i < |r| ensures s[i] == TouchedRow(c, r[i], x, now) && SameSpan(s[i], r[i]) {
      TouchedSpan(c, r[i], x, now);
    }
    forall i | 0 <= i < |h| ensures CarriedRow(c, init + [x], now, h[i], s[i]) { CarryRow(c, init, x, now, h[i], r[i]); }
    forall i | |h| <= i < |s| ensures Opened(c, h, init + [x], now, s[i]) { OpenedRow(c, h, init, x, now, r[i]); }
    forall q | q in Pairs(c, init + [x]) ensures HasOpen(s, q) {
      var i :| 0 <= i < |r| && OpenFor(r[i], q);
      assert OpenFor(s[i], q);
    }
  }

  lemma AppendStep(c: Config, h: seq<Episode>, init: seq<Claim>, x: Claim, now: int, r: seq<Episode>)
    requires Extends(c, h, init, now, r) && OneOpenEach(r) && !HasOpen(r, PairOf(c, x))
    ensures Extends(c, h, init + [x], now, r + [NewEpisode(c, x, now)]) && OneOpenEach(r + [NewEpisode(c, x, now)])
  {
    hide Pairs, Opening, PairOf, Start;
    var p, s := PairOf(c, x), r + [NewEpisode(c, x, now)];
    PairsNext(c, init, x);
    assert forall i :: 0 <= i < |r| ==> !OpenFor(r[i], p);
    assert !HasOpen(h, p) by { assert forall i :: 0 <= i < |h| ==> OpenFor(h[i], p) == OpenFor(r[i], p); }
    forall i | |h| <= i < |s| ensures Opened(c, h, init + [x], now, s[i]) {
      assert i < |r| ==> Opened(c, h, init, now, r[i]);
      OpeningNext(c, init, x, (s[i].identity, s[i].ip), now);
    }
    forall q | q in Pairs(c, init + [x]) ensures HasOpen(s, q) {
      if HasOpen(r, q) {
        var i :| 0 <= i < |r| && OpenFor(r[i], q);
        assert OpenFor(s[i], q);
      } else {
        assert OpenFor(s[|r|], q);
      }
    }
  }

  lemma RecordStep(c: Config, h: seq<Episode>, init: seq<Claim>, x: Claim, now: int, r: seq<Episode>)
    requires Extends(c, h, init, now, r) && OneOpenEach(r)
    ensures Extends(c, h, init + [x], now, Record(c, r, x, now)) && OneOpenEach(Record(c, r, x, now))
  {
    hide Extends, OneOpenEach;
    if HasOpen(r, PairOf(c, x)) { TouchStep(c, h, init, x, now, r); } else { AppendStep(c, h, init, x, now, r); }
  }

  lemma NothingExtends(c: Config, h: seq<Episode>, now: int)
    ensures Extends(c, h, [], now, h)
  {
    forall i | 0 <= i < |h| ensures CarriedRow(c, [], now, h[i], h[i]) {}
  }

  lemma {:induction false} RecordExtends(c: Config, h: seq<Episode>, xs: seq<Claim>, now: int)
    requires OneOpenEach(h)
    ensures Extends(c, h, xs, now, RecordAll(c, h, xs, now)) && OneOpenEach(RecordAll(c, h, xs, now))
  {
    hide Extends, OneOpenEach, Record;
    if xs == [] {
      NothingExtends(c, h, now);
    } else {
      var init := xs[..|xs|-1];
      RecordExtends(c, h, init, now);
      RecordStep(c, h, init, xs[|xs|-1], now, RecordAll(c, h, init, now));
      assert init + [xs[|xs|-1]] == xs;
    }
  }

  /** After a complete snapshot the open episodes are exactly the claimed pairs, one each, if and only if
      Central's clock has passed the snapshot that last confirmed every pair now missing. */
  lemma OpenExactlyWhatIsClaimed(c: Config, h: seq<Episode>, xs: seq<Claim>, now: int)
    requires OneOpenEach(h)
    ensures OneOpenEach(Snapshot(c, h, xs, now))
    ensures (OpenPairs(Snapshot(c, h, xs, now)) == Pairs(c, xs))
        <==> (forall i :: 0 <= i < |h| && Open(h[i]) && (h[i].identity, h[i].ip) !in Pairs(c, xs) ==> h[i].snapshotSeenAt < now)
  {
    hide Pairs, Opening, RecordAll;
    RecordExtends(c, h, xs, now);
    var r, s := RecordAll(c, h, xs, now), Snapshot(c, h, xs, now);
    forall p | p in Pairs(c, xs) ensures p in OpenPairs(s) {
      var i :| 0 <= i < |r| && OpenFor(r[i], p);
      assert s[i] == Ended(r[i], now) && Open(s[i]);
    }
    forall i | 0 <= i < |h| && Open(h[i]) && (h[i].identity, h[i].ip) !in Pairs(c, xs)
      ensures Open(s[i]) <==> h[i].snapshotSeenAt >= now
    {
      assert s[i] == Ended(r[i], now);
    }
    forall i | 0 <= i < |s| ensures Open(s[i]) ==> Open(r[i]) && s[i] == r[i] { assert s[i] == Ended(r[i], now); }
  }

  /** A closed episode is history: no later snapshot alters or removes it, and no snapshot moves a start. */
  lemma ClosedEpisodesNeverChange(c: Config, h: seq<Episode>, xs: seq<Claim>, now: int, i: nat)
    requires OneOpenEach(h) && i < |h|
    ensures i < |Snapshot(c, h, xs, now)|
    ensures !Open(h[i]) ==> Snapshot(c, h, xs, now)[i] == h[i]
    ensures var e := Snapshot(c, h, xs, now)[i];
            e.identity == h[i].identity && e.ip == h[i].ip && e.validFrom == h[i].validFrom
  {
    RecordExtends(c, h, xs, now);
  }

  // ---------- What an episode gathers from its claims ----------

  predicate For(c: Config, x: Claim, p: Pair) { PairOf(c, x) == p }

  /** The VLAN of the last claim to the pair, else what was known. */
  function LastVlan(c: Config, xs: seq<Claim>, p: Pair, known: nat): nat {
    if xs == [] then known
    else if For(c, xs[|xs|-1], p) then xs[|xs|-1].node.vlan
    else LastVlan(c, xs[..|xs|-1], p, known)
  }

  /** The hardware address, as written, of the first claim to the pair. */
  function FirstMac(c: Config, xs: seq<Claim>, p: Pair): string {
    if xs == [] then ""
    else
      var before := FirstMac(c, xs[..|xs|-1], p);
      if exists i :: 0 <= i < |xs| - 1 && For(c, xs[i], p) then before
      else if For(c, xs[|xs|-1], p) then xs[|xs|-1].node.mac
      else ""
  }

  /** The episode is what it was before, if there was one, and what the claims to its pair add: verified if it or any of
      them was, last observed at the latest of their times, in the VLAN of the last of them. */
  ghost predicate Gathers(c: Config, base: Option<Episode>, xs: seq<Claim>, now: int, p: Pair, e: Episode) {
    && (e.arp <==> (base.Some? && base.value.arp) || exists x :: x in xs && For(c, x, p) && x.node.arp)
    && ((base.Some? && e.lastObserved == base.value.lastObserved) || exists x :: x in xs && For(c, x, p) && e.lastObserved == Start(x, now))
    && (base.Some? ==> base.value.lastObserved <= e.lastObserved)
    && (forall x :: x in xs && For(c, x, p) ==> Start(x, now) <= e.lastObserved)
    && e.vlan == LastVlan(c, xs, p, if base.Some? then base.value.vlan else 0)
    && e.mac == (if base.Some? then base.value.mac else FirstMac(c, xs, p))
  }

  lemma ClaimsNext(c: Config, xs: seq<Claim>, x: Claim, p: Pair, known: nat)
    ensures LastVlan(c, xs + [x], p, known) == if For(c, x, p) then x.node.vlan else LastVlan(c, xs, p, known)
    ensures FirstMac(c, xs + [x], p) == if exists i :: 0 <= i < |xs| && For(c, xs[i], p) then FirstMac(c, xs, p)
                                        else if For(c, x, p) then x.node.mac else ""
  {
    var all := xs + [x];
    assert all[..|xs|] == xs && all[|xs|] == x;
    assert (exists i :: 0 <= i < |xs| && For(c, xs[i], p)) <==> (exists i :: 0 <= i < |xs| && For(c, all[i], p)) by {
      if i :| 0 <= i < |xs| && For(c, xs[i], p) { assert For(c, all[i], p); }
      if i :| 0 <= i < |xs| && For(c, all[i], p) { assert For(c, xs[i], p); }
    }
    hide For;
  }

  lemma {:induction false} NoFirstMac(c: Config, xs: seq<Claim>, p: Pair)
    requires forall x :: x in xs ==> !For(c, x, p)
    ensures FirstMac(c, xs, p) == ""
  {
    if xs != [] { NoFirstMac(c, xs[..|xs|-1], p); }
  }

  lemma GatherTouched(c: Config, base: Option<Episode>, xs: seq<Claim>, x: Claim, now: int, p: Pair, e: Episode)
    requires Gathers(c, base, xs, now, p, e) && For(c, x, p) && (base.None? ==> exists i :: 0 <= i < |xs| && For(c, xs[i], p))
    ensures Gathers(c, base, xs + [x], now, p, Refresh(e, x, now))
  {
    ClaimsNext(c, xs, x, p, if base.Some? then base.value.vlan else 0);
    hide For, Start, LastVlan, FirstMac;
    assert x in xs + [x] && forall y :: y in xs + [x] <==> y in xs || y == x;
  }

  lemma GatherOther(c: Config, base: Option<Episode>, xs: seq<Claim>, x: Claim, now: int, p: Pair, e: Episode)
    requires Gathers(c, base, xs, now, p, e) && !For(c, x, p) && (base.None? ==> exists i :: 0 <= i < |xs| && For(c, xs[i], p))
    ensures Gathers(c, base, xs + [x], now, p, e)
  {
    ClaimsNext(c, xs, x, p, if base.Some? then base.value.vlan else 0);
    hide For, Start, LastVlan, FirstMac;
    assert forall y :: y in xs + [x] <==> y in xs || y == x;
  }

  lemma GatherFirst(c: Config, xs: seq<Claim>, x: Claim, now: int)
    requires forall y :: y in xs ==> !For(c, y, PairOf(c, x))
    ensures Gathers(c, None, xs + [x], now, PairOf(c, x), NewEpisode(c, x, now))
  {
    ClaimsNext(c, xs, x, PairOf(c, x), 0);
    hide Start, LastVlan, FirstMac;
    assert x in xs + [x] && forall y :: y in xs + [x] <==> y in xs || y == x;
    assert For(c, x, PairOf(c, x));
  }

  function BaseOf(h: seq<Episode>, i: nat): Option<Episode> { if i < |h| then Some(h[i]) else None }

  ghost predicate AllGather(c: Config, h: seq<Episode>, xs: seq<Claim>, now: int, r: seq<Episode>) {
    forall i :: 0 <= i < |r| && Open(r[i]) ==> Gathers(c, BaseOf(h, i), xs, now, (r[i].identity, r[i].ip), r[i])
  }

  lemma OpenedWasClaimed(c: Config, h: seq<Episode>, xs: seq<Claim>, now: int, r: seq<Episode>, i: nat)
    requires Extends(c, h, xs, now, r) && |h| <= i < |r|
    ensures exists j :: 0 <= j < |xs| && For(c, xs[j], (r[i].identity, r[i].ip))
  {
    assert Opened(c, h, xs, now, r[i]);
    var x :| x in xs && PairOf(c, x) == (r[i].identity, r[i].ip);
    var j :| 0 <= j < |xs| && xs[j] == x;
    assert For(c, xs[j], (r[i].identity, r[i].ip));
  }

  lemma GatheredAt(c: Config, h: seq<Episode>, xs: seq<Claim>, now: int, r: seq<Episode>, i: nat)
    requires AllGather(c, h, xs, now, r) && i < |r| && Open(r[i])
    ensures Gathers(c, BaseOf(h, i), xs, now, (r[i].identity, r[i].ip), r[i])
  {
    hide Gathers;
  }

  lemma ExtendsGrows(c: Config, h: seq<Episode>, xs: seq<Claim>, now: int, r: seq<Episode>)
    requires Extends(c, h, xs, now, r)
    ensures |r| >= |h|
  {
    hide CarriedRow, Opened, HasOpen;
  }

  lemma UnclaimedPair(c: Config, h: seq<Episode>, xs: seq<Claim>, now: int, r: seq<Episode>, p: Pair)
    requires Extends(c, h, xs, now, r) && !HasOpen(r, p)
    ensures forall y :: y in xs ==> !For(c, y, p)
  {
    hide CarriedRow, Opened, HasOpen;
    forall y | y in xs ensures PairOf(c, y) in Pairs(c, xs) {}
  }

  lemma GatherStep(c: Config, h: seq<Episode>, xs: seq<Claim>, x: Claim, now: int, r: seq<Episode>)
    requires Extends(c, h, xs, now, r) && AllGather(c, h, xs, now, r)
    ensures AllGather(c, h, xs + [x], now, Record(c, r, x, now))
  {
    var p, s := PairOf(c, x), Record(c, r, x, now);
    forall i | 0 <= i < |s| && Open(s[i])
      ensures Gathers(c, BaseOf(h, i), xs + [x], now, (s[i].identity, s[i].ip), s[i])
    {
      hide Gathers, Extends, AllGather;
      if i < |r| {
        assert Open(r[i]) && (s[i].identity, s[i].ip) == (r[i].identity, r[i].ip);
        assert Gathers(c, BaseOf(h, i), xs, now, (r[i].identity, r[i].ip), r[i]) by { GatheredAt(c, h, xs, now, r, i); }
        if i >= |h| { OpenedWasClaimed(c, h, xs, now, r, i); }
        if (r[i].identity, r[i].ip) == p {
          assert HasOpen(r, p) by { assert OpenFor(r[i], p); }
          GatherTouched(c, BaseOf(h, i), xs, x, now, p, r[i]);
        } else {
          GatherOther(c, BaseOf(h, i), xs, x, now, (r[i].identity, r[i].ip), r[i]);
        }
      } else {
        UnclaimedPair(c, h, xs, now, r, p);
        assert |r| >= |h| by { ExtendsGrows(c, h, xs, now, r); }
        GatherFirst(c, xs, x, now);
      }
    }
  }

  lemma {:induction false} RecordsGather(c: Config, h: seq<Episode>, xs: seq<Claim>, now: int)
    requires OneOpenEach(h)
    ensures AllGather(c, h, xs, now, RecordAll(c, h, xs, now))
  {
    hide Record, AllGather, OneOpenEach, Extends;
    if xs == [] {
      NothingGathered(c, h, now);
    } else {
      var init := xs[..|xs|-1];
      RecordsGather(c, h, init, now);
      RecordExtends(c, h, init, now);
      GatherStep(c, h, init, xs[|xs|-1], now, RecordAll(c, h, init, now));
      assert init + [xs[|xs|-1]] == xs;
    }
  }

  lemma NothingGathered(c: Config, h: seq<Episode>, now: int)
    ensures AllGather(c, h, [], now, h)
  {
  }

  /** After a snapshot every open episode is what it was and what the snapshot's claims to its pair add. */
  lemma EpisodeGathersClaims(c: Config, h: seq<Episode>, xs: seq<Claim>, now: int, i: nat)
    requires OneOpenEach(h) && i < |Snapshot(c, h, xs, now)| && Open(Snapshot(c, h, xs, now)[i])
    ensures var e := Snapshot(c, h, xs, now)[i]; Gathers(c, BaseOf(h, i), xs, now, (e.identity, e.ip), e)
  {
    RecordsGather(c, h, xs, now);
    hide Gathers, RecordAll;
    assert Snapshot(c, h, xs, now)[i] == Ended(RecordAll(c, h, xs, now)[i], now);
    GatheredAt(c, h, xs, now, RecordAll(c, h, xs, now), i);
  }

  // ---------- Runs of snapshots ----------

  datatype Snap = Snap(at: int, claims: seq<Claim>)

  function History(c: Config, snaps: seq<Snap>): seq<Episode> {
    if snaps == [] then []
    else Snapshot(c, History(c, snaps[..|snaps|-1]), snaps[|snaps|-1].claims, snaps[|snaps|-1].at)
  }

  ghost predicate Increasing(snaps: seq<Snap>) {
    forall i, j :: 0 <= i < j < |snaps| ==> snaps[i].at < snaps[j].at
  }

  function PairsAt(c: Config, snaps: seq<Snap>, k: nat): set<Pair> {
    if k < |snaps| then Pairs(c, snaps[k].claims) else {}
  }

  ghost predicate Settled(c: Config, h: seq<Episode>, last: int) {
    && OneOpenEach(h)
    && (forall i :: 0 <= i < |h| ==> if Open(h[i]) then h[i].snapshotSeenAt == last else h[i].validTo.value <= last)
  }

  lemma SnapshotSettles(c: Config, h: seq<Episode>, xs: seq<Claim>, last: int, now: int)
    requires (Settled(c, h, last) && last < now) || h == []
    ensures Settled(c, Snapshot(c, h, xs, now), now)
    ensures OpenPairs(Snapshot(c, h, xs, now)) == Pairs(c, xs)
  {
    OpenExactlyWhatIsClaimed(c, h, xs, now);
    RecordExtends(c, h, xs, now);
    hide Pairs, Opening, RecordAll;
    var r, s := RecordAll(c, h, xs, now), Snapshot(c, h, xs, now);
    forall i | 0 <= i < |s| ensures if Open(s[i]) then s[i].snapshotSeenAt == now else s[i].validTo.value <= now {
      assert s[i] == Ended(r[i], now);
      assert i >= |h| ==> Opened(c, h, xs, now, r[i]);
    }
  }

  lemma {:induction false} HistorySettled(c: Config, snaps: seq<Snap>)
    requires Increasing(snaps) && snaps != []
    ensures Settled(c, History(c, snaps), snaps[|snaps|-1].at)
    ensures OpenPairs(History(c, snaps)) == PairsAt(c, snaps, |snaps| - 1)
  {
    hide Settled, Pairs, OpenPairs, Snapshot;
    var before, x := snaps[..|snaps|-1], snaps[|snaps|-1];
    if before != [] { HistorySettled(c, before); }
    SnapshotSettles(c, History(c, before), x.claims, if before == [] then x.at else before[|before|-1].at, x.at);
  }

  // ---------- Reading the past ----------

  predicate ValidAt(e: Episode, t: int) { e.validFrom <= t && (e.validTo.Some? ==> t < e.validTo.value) }

  /** The pairs in force at a time, an episode's end being exclusive. */
  function AsOf(h: seq<Episode>, t: int): set<Pair> {
    set i | 0 <= i < |h| && ValidAt(h[i], t) :: (h[i].identity, h[i].ip)
  }

  /** What the source's own queries read: an episode's end is inclusive. */
  function AsOfInclusive(h: seq<Episode>, t: int): set<Pair> {
    set i | 0 <= i < |h| && h[i].validFrom <= t && (h[i].validTo.Some? ==> t <= h[i].validTo.value)
      :: (h[i].identity, h[i].ip)
  }

  function EndedAt(h: seq<Episode>, t: int): set<Pair> {
    set i | 0 <= i < |h| && h[i].validFrom <= t && h[i].validTo == Some(t) :: (h[i].identity, h[i].ip)
  }

  /** The pairs a snapshot opens with a start no later than `t`. */
  function OpenedBy(c: Config, h: seq<Episode>, xs: seq<Claim>, now: int, t: int): set<Pair> {
    set p | p in Pairs(c, xs) && p !in OpenPairs(h) && Opening(c, xs, p, now) <= t
  }

  lemma NothingOpen()
    ensures OpenPairs([]) == {}
  {
  }

  lemma OpenPairsAre(h: seq<Episode>, p: Pair)
    ensures p in OpenPairs(h) <==> HasOpen(h, p)
  {
    if HasOpen(h, p) { var i :| 0 <= i < |h| && OpenFor(h[i], p); assert (h[i].identity, h[i].ip) in OpenPairs(h); }
  }

  /** Looking back past a snapshot, one sees what was seen before it, plus whatever it opened too early. */
  lemma LookingBack(c: Config, h: seq<Episode>, xs: seq<Claim>, now: int, t: int)
    requires OneOpenEach(h) && t < now
    ensures AsOf(Snapshot(c, h, xs, now), t) == AsOf(h, t) + OpenedBy(c, h, xs, now, t)
  {
    hide Pairs, Opening, RecordAll, OpenPairs;
    RecordExtends(c, h, xs, now);
    var r, s := RecordAll(c, h, xs, now), Snapshot(c, h, xs, now);
    forall i | 0 <= i < |s| ensures ValidAt(s[i], t) == ValidAt(r[i], t) { assert s[i] == Ended(r[i], now); }
    forall i | 0 <= i < |h| ensures ValidAt(r[i], t) == ValidAt(h[i], t) {}
    forall i | |h| <= i < |s| && ValidAt(s[i], t) ensures (s[i].identity, s[i].ip) in OpenedBy(c, h, xs, now, t) {
      assert Opened(c, h, xs, now, r[i]);
      OpenPairsAre(h, (s[i].identity, s[i].ip));
    }
    forall p | p in OpenedBy(c, h, xs, now, t) ensures p in AsOf(s, t) {
      OpenPairsAre(h, p);
      assert forall j :: 0 <= j < |h| ==> OpenFor(h[j], p) == OpenFor(r[j], p);
      var i :| 0 <= i < |r| && OpenFor(r[i], p);
      assert Opened(c, h, xs, now, r[i]) && ValidAt(s[i], t);
    }
    forall p | p in AsOf(h, t) ensures p in AsOf(s, t) {
      var i :| 0 <= i < |h| && ValidAt(h[i], t) && p == (h[i].identity, h[i].ip);
      assert ValidAt(s[i], t);
    }
  }

  /** At the snapshot's own time, one sees the claimed pairs, except those opened in the future. */
  lemma LookingNow(c: Config, h: seq<Episode>, xs: seq<Claim>, last: int, now: int)
    requires (Settled(c, h, last) && last < now && AsOf(h, last) == OpenPairs(h)) || h == []
    ensures AsOf(Snapshot(c, h, xs, now), now) == Pairs(c, xs) <==>
              (forall p :: p in Pairs(c, xs) && p !in OpenPairs(h) ==> Opening(c, xs, p, now) <= now)
  {
    hide Pairs, Opening, RecordAll, OpenPairs;
    RecordExtends(c, h, xs, now);
    SnapshotSettles(c, h, xs, last, now);
    var r, s := RecordAll(c, h, xs, now), Snapshot(c, h, xs, now);
    forall i | 0 <= i < |s| && ValidAt(s[i], now) ensures (s[i].identity, s[i].ip) in Pairs(c, xs) {
      assert Open(s[i]);
      OpenPairsAre(s, (s[i].identity, s[i].ip));
      assert OpenFor(s[i], (s[i].identity, s[i].ip));
    }
    forall p | p in Pairs(c, xs)
      ensures p in AsOf(s, now) <==> (p in OpenPairs(h) || Opening(c, xs, p, now) <= now) { SeenNow(c, h, xs, last, now, p); }
  }

  lemma SeenNow(c: Config, h: seq<Episode>, xs: seq<Claim>, last: int, now: int, p: Pair)
    requires (Settled(c, h, last) && last < now && AsOf(h, last) == OpenPairs(h)) || h == []
    requires p in Pairs(c, xs)
    ensures p in AsOf(Snapshot(c, h, xs, now), now) <==> (p in OpenPairs(h) || Opening(c, xs, p, now) <= now)
  {
    hide Pairs, Opening, RecordAll, OpenPairs, Snapshot, AsOf;
    RecordExtends(c, h, xs, now);
    SnapshotSettles(c, h, xs, last, now);
    var r, s := RecordAll(c, h, xs, now), Snapshot(c, h, xs, now);
    SnapshotRows(c, h, xs, now);
    OpenPairsAre(h, p);
    OpenPairsAre(s, p);
    var i :| 0 <= i < |s| && OpenFor(s[i], p);
    SeenWhere(s, now, p, i);
    if p in OpenPairs(h) {
      OpenSince(h, last, p);
      var j :| 0 <= j < |h| && OpenFor(h[j], p) && h[j].validFrom <= last;
      assert CarriedRow(c, xs, now, h[j], r[j]);
      assert OpenFor(s[j], p);
    } else {
      assert !HasOpen(h, p);
      forall j | 0 <= j < |h| ensures !OpenFor(s[j], p) { assert !OpenFor(h[j], p) && CarriedRow(c, xs, now, h[j], r[j]); }
      assert Opened(c, h, xs, now, r[i]);
    }
  }

  lemma SnapshotRows(c: Config, h: seq<Episode>, xs: seq<Claim>, now: int)
    ensures var r, s := RecordAll(c, h, xs, now), Snapshot(c, h, xs, now);
            |s| == |r| && forall i :: 0 <= i < |s| ==> s[i] == Ended(r[i], now)
  {
    hide RecordAll, Ended;
  }

  lemma OpenSince(h: seq<Episode>, t: int, p: Pair)
    requires p in OpenPairs(h) && AsOf(h, t) == OpenPairs(h) && forall i :: 0 <= i < |h| && !Open(h[i]) ==> h[i].validTo.value <= t
    ensures exists j :: 0 <= j < |h| && OpenFor(h[j], p) && h[j].validFrom <= t
  {
    assert p in AsOf(h, t);
    var j :| 0 <= j < |h| && ValidAt(h[j], t) && p == (h[j].identity, h[j].ip);
    assert OpenFor(h[j], p);
  }

  /** When every ended episode has ended by now, a pair is in force now exactly if its one open episode has begun. */
  lemma SeenWhere(s: seq<Episode>, now: int, p: Pair, i: nat)
    requires OneOpenEach(s) && forall j :: 0 <= j < |s| && !Open(s[j]) ==> s[j].validTo.value <= now
    requires i < |s| && OpenFor(s[i], p)
    ensures p in AsOf(s, now) <==> s[i].validFrom <= now
  {
    forall j | 0 <= j < |s| && ValidAt(s[j], now) && (s[j].identity, s[j].ip) == p ensures j == i { assert Open(s[j]); }
    if s[i].validFrom <= now { assert ValidAt(s[i], now); }
  }

  /** Every pair a snapshot opens starts after the previous snapshot and not after its own. */
  ghost predicate TimelyAt(c: Config, snaps: seq<Snap>, k: nat)
    requires k < |snaps|
  {
    forall p :: p in PairsAt(c, snaps, k) && (k == 0 || p !in PairsAt(c, snaps, k - 1)) ==> (
      && (k > 0 ==> snaps[k-1].at < Opening(c, snaps[k].claims, p, snaps[k].at))
      && Opening(c, snaps[k].claims, p, snaps[k].at) <= snaps[k].at)
  }

  ghost predicate Timely(c: Config, snaps: seq<Snap>) {
    forall k :: 0 <= k < |snaps| ==> TimelyAt(c, snaps, k)
  }

  ghost predicate Reproduces(c: Config, snaps: seq<Snap>, h: seq<Episode>, k: nat)
    requires k < |snaps|
  {
    AsOf(h, snaps[k].at) == PairsAt(c, snaps, k)
  }

  ghost predicate ReproducesAll(c: Config, snaps: seq<Snap>, h: seq<Episode>) {
    forall k :: 0 <= k < |snaps| ==> Reproduces(c, snaps, h, k)
  }

  lemma TimelyPrefix(c: Config, snaps: seq<Snap>)
    requires snaps != []
    ensures Timely(c, snaps) <==> Timely(c, snaps[..|snaps|-1]) && TimelyAt(c, snaps, |snaps| - 1)
  {
    hide Pairs, Opening;
    var before := snaps[..|snaps|-1];
    forall k | 0 <= k < |before| ensures TimelyAt(c, snaps, k) == TimelyAt(c, before, k) {
      assert before[k] == snaps[k] && (k > 0 ==> before[k-1] == snaps[k-1]);
    }
  }

  /** The past reads back right after one more snapshot exactly when it did before and nothing opened too early. */
  lemma PastAfterSnapshot(c: Config, snaps: seq<Snap>)
    requires Increasing(snaps) && |snaps| >= 2
    ensures var before, last := snaps[..|snaps|-1], |snaps| - 1;
            (forall k :: 0 <= k < last ==> Reproduces(c, snaps, History(c, snaps), k)) <==>
              (ReproducesAll(c, before, History(c, before))
               && OpenedBy(c, History(c, before), snaps[last].claims, snaps[last].at, snaps[last-1].at) == {})
  {
    hide Pairs, Opening, AsOf, OpenPairs, Snapshot;
    var before, last := snaps[..|snaps|-1], |snaps| - 1;
    var h, x := History(c, before), snaps[last];
    HistorySettled(c, before);
    assert before[last-1] == snaps[last-1];
    forall k | 0 <= k < last
      ensures AsOf(History(c, snaps), snaps[k].at) == AsOf(h, before[k].at) + OpenedBy(c, h, x.claims, x.at, before[k].at)
      ensures PairsAt(c, snaps, k) == PairsAt(c, before, k)
      ensures OpenedBy(c, h, x.claims, x.at, before[k].at) <= OpenedBy(c, h, x.claims, x.at, before[last-1].at)
    {
      assert before[k] == snaps[k];
      LookingBack(c, h, x.claims, x.at, snaps[k].at);
    }
    assert OpenedBy(c, h, x.claims, x.at, before[last-1].at) !! OpenPairs(h);
    assert Reproduces(c, snaps, History(c, snaps), last - 1) <==> AsOf(History(c, snaps), snaps[last-1].at) == OpenPairs(h);
    if OpenedBy(c, h, x.claims, x.at, before[last-1].at) == {} {
      forall k | 0 <= k < last
        ensures Reproduces(c, snaps, History(c, snaps), k) == Reproduces(c, before, h, k) { assert before[k] == snaps[k]; }
    }
  }

  lemma TimelyMeans(c: Config, snaps: seq<Snap>)
    requires Increasing(snaps) && |snaps| >= 2
    ensures var h, k := History(c, snaps[..|snaps|-1]), |snaps| - 1;
            var xs, now := snaps[k].claims, snaps[k].at;
            (TimelyAt(c, snaps, k) <==>
             (OpenedBy(c, h, xs, now, snaps[k-1].at) == {}
              && forall p :: p in Pairs(c, xs) && p !in OpenPairs(h) ==> Opening(c, xs, p, now) <= now))
  {
    hide Pairs, Opening, OpenPairs, History;
    HistorySettled(c, snaps[..|snaps|-1]);
    assert snaps[..|snaps|-1][|snaps|-2] == snaps[|snaps|-2];
    var h, k := History(c, snaps[..|snaps|-1]), |snaps| - 1;
    assert PairsAt(c, snaps, k - 1) == OpenPairs(h);
    var early := OpenedBy(c, h, snaps[k].claims, snaps[k].at, snaps[k-1].at);
    assert forall p :: p in early ==> (
      p in PairsAt(c, snaps, k) && p !in PairsAt(c, snaps, k - 1) && Opening(c, snaps[k].claims, p, snaps[k].at) <= snaps[k-1].at);
    if OpenedBy(c, h, snaps[k].claims, snaps[k].at, snaps[k-1].at) == {} {
      forall p | p in Pairs(c, snaps[k].claims) && p !in OpenPairs(h)
        ensures snaps[k-1].at < Opening(c, snaps[k].claims, p, snaps[k].at)
      {
        assert p !in OpenedBy(c, h, snaps[k].claims, snaps[k].at, snaps[k-1].at);
      }
    }
  }

  lemma FirstSnapshot(c: Config, snaps: seq<Snap>)
    requires |snaps| == 1
    ensures ReproducesAll(c, snaps, History(c, snaps)) <==> Timely(c, snaps)
  {
    hide Pairs, Opening, AsOf, OpenPairs, Snapshot;
    var x := snaps[0];
    NothingOpen();
    LookingNow(c, [], x.claims, x.at, x.at);
    assert snaps[..0] == [];
    assert History(c, snaps) == Snapshot(c, [], x.claims, x.at);
    assert Timely(c, snaps) <==> TimelyAt(c, snaps, 0);
    assert PairsAt(c, snaps, 0) == Pairs(c, x.claims);
    assert ReproducesAll(c, snaps, History(c, snaps)) <==> Reproduces(c, snaps, History(c, snaps), 0);
    assert TimelyAt(c, snaps, 0) <==> forall p :: p in Pairs(c, x.claims) && p !in OpenPairs([]) ==> Opening(c, x.claims, p, x.at) <= x.at;
  }

  /** Reading episode ends as exclusive, the history reproduces every past snapshot at its own time if and only
      if every opened pair was last seen after the previous snapshot and not after its own. */
  lemma {:induction false} HistoryReproducesSnapshots(c: Config, snaps: seq<Snap>)
    requires Increasing(snaps)
    ensures ReproducesAll(c, snaps, History(c, snaps)) <==> Timely(c, snaps)
  {
    if snaps != [] {
      hide Pairs, Opening, AsOf, OpenPairs, Snapshot;
      var before, last := snaps[..|snaps|-1], |snaps| - 1;
      var h, x := History(c, before), snaps[last];
      TimelyPrefix(c, snaps);
      HistoryReproducesSnapshots(c, before);
      if before == [] {
        FirstSnapshot(c, snaps);
      } else {
        HistorySettled(c, before);
        PastAfterSnapshot(c, snaps);
        TimelyMeans(c, snaps);
        assert before[last-1] == snaps[last-1];
        if ReproducesAll(c, before, h) {
          assert Reproduces(c, before, h, last - 1);
          LookingNow(c, h, x.claims, before[last-1].at, x.at);
        }
        hide TimelyAt, OpenedBy;
        assert ReproducesAll(c, snaps, History(c, snaps)) <==>
          (forall k :: 0 <= k < last ==> Reproduces(c, snaps, History(c, snaps), k)) && Reproduces(c, snaps, History(c, snaps), last);
      }
    }
  }

  // ---------- The inclusive reading ----------

  lemma EndedBefore(c: Config, h: seq<Episode>, xs: seq<Claim>, now: int, t: int)
    requires OneOpenEach(h) && t < now
    ensures EndedAt(Snapshot(c, h, xs, now), t) == EndedAt(h, t)
  {
    hide Pairs, Opening, RecordAll;
    RecordExtends(c, h, xs, now);
    var r, s := RecordAll(c, h, xs, now), Snapshot(c, h, xs, now);
    forall i | 0 <= i < |s| ensures s[i].validTo == Some(t) <==> i < |h| && h[i].validTo == Some(t) {
      assert s[i] == Ended(r[i], now);
      assert i >= |h| ==> Opened(c, h, xs, now, r[i]);
      assert i < |h| ==> CarriedRow(c, xs, now, h[i], r[i]);
    }
    forall i | 0 <= i < |h| && h[i].validTo == Some(t) ensures s[i] == h[i] {
      assert CarriedRow(c, xs, now, h[i], r[i]) && s[i] == Ended(r[i], now);
    }
  }

  lemma EndedNow(c: Config, h: seq<Episode>, xs: seq<Claim>, last: int, now: int)
    requires (Settled(c, h, last) && last < now && AsOf(h, last) == OpenPairs(h)) || h == []
    ensures EndedAt(Snapshot(c, h, xs, now), now) == OpenPairs(h) - Pairs(c, xs)
  {
    hide Pairs, Opening, RecordAll, OpenPairs;
    RecordExtends(c, h, xs, now);
    var r, s := RecordAll(c, h, xs, now), Snapshot(c, h, xs, now);
    forall i | 0 <= i < |s| && s[i].validTo == Some(now)
      ensures i < |h| && Open(h[i]) && (s[i].identity, s[i].ip) in OpenPairs(h) - Pairs(c, xs)
    {
      assert s[i] == Ended(r[i], now);
      assert i >= |h| ==> Opened(c, h, xs, now, r[i]);
      assert CarriedRow(c, xs, now, h[i], r[i]);
      assert OpenFor(h[i], (h[i].identity, h[i].ip));
      OpenPairsAre(h, (h[i].identity, h[i].ip));
    }
    forall p | p in OpenPairs(h) - Pairs(c, xs) ensures p in EndedAt(s, now) {
      OpenPairsAre(h, p);
      assert p in AsOf(h, last);
      var i :| 0 <= i < |h| && ValidAt(h[i], last) && p == (h[i].identity, h[i].ip);
      assert CarriedRow(c, xs, now, h[i], r[i]) && s[i] == Ended(r[i], now);
    }
  }

  lemma {:induction false} EndedAre(c: Config, snaps: seq<Snap>, k: nat)
    requires Increasing(snaps) && Timely(c, snaps) && k < |snaps|
    ensures EndedAt(History(c, snaps), snaps[k].at) == if k == 0 then {} else PairsAt(c, snaps, k - 1) - PairsAt(c, snaps, k)
  {
    hide Pairs, Opening, AsOf, OpenPairs, Snapshot, EndedAt, TimelyAt;
    var before, last := snaps[..|snaps|-1], |snaps| - 1;
    var h, x := History(c, before), snaps[last];
    TimelyPrefix(c, snaps);
    NothingOpen();
    if before == [] {
      EndedNow(c, h, x.claims, x.at, x.at);
    } else {
      HistorySettled(c, before);
      assert before[last-1] == snaps[last-1];
      if k < last {
        assert before[k] == snaps[k] && (k > 0 ==> before[k-1] == snaps[k-1]);
        EndedAre(c, before, k);
        EndedBefore(c, h, x.claims, x.at, snaps[k].at);
      } else {
        HistoryReproducesSnapshots(c, before);
        assert Reproduces(c, before, h, last - 1);
        EndedNow(c, h, x.claims, before[last-1].at, x.at);
      }
    }
  }

  /** The queries of the source read an end as inclusive, so at a snapshot's own time they also return the
      pairs that this very snapshot ended. */
  lemma InclusiveReadSeesTwoSnapshots(c: Config, snaps: seq<Snap>, k: nat)
    requires Increasing(snaps) && Timely(c, snaps) && k < |snaps|
    ensures AsOfInclusive(History(c, snaps), snaps[k].at)
         == PairsAt(c, snaps, k) + if k == 0 then {} else PairsAt(c, snaps, k - 1)
  {
    var h := History(c, snaps);
    hide History, Pairs, Opening, TimelyAt;
    HistoryReproducesSnapshots(c, snaps);
    assert Reproduces(c, snaps, h, k);
    EndedAre(c, snaps, k);
    InclusiveIsAsOfOrEnded(h, snaps[k].at);
  }

  lemma InclusiveIsAsOfOrEnded(h: seq<Episode>, t: int)
    ensures AsOfInclusive(h, t) == AsOf(h, t) + EndedAt(h, t)
  {
  }

  // ---------- The one owner a query returns ----------

  /** What the query for an address at a time selects before it picks one row. */
  predicate Selects(e: Episode, ip: string, t: int) {
    e.ip == ip && e.validFrom <= t && (e.validTo.Some? ==> t <= e.validTo.value)
  }

  /** The query's order: ARP-verified episodes first, then the latest observed. */
  predicate Outranks(a: Episode, b: Episode) {
    if a.arp != b.arp then a.arp else a.lastObserved > b.lastObserved
  }

  /** The query may return this row: it is selected and no selected row outranks it. Among equals the database
      chooses. */
  ghost predicate Answers(h: seq<Episode>, ip: string, t: int, i: nat) {
    && i < |h| && Selects(h[i], ip, t)
    && forall j :: 0 <= j < |h| && Selects(h[j], ip, t) ==> !Outranks(h[j], h[i])
  }

  /** Among the first `n` rows some selected one is outranked by none. */
  lemma {:induction false} BestRow(h: seq<Episode>, ip: string, t: int, n: nat, i: nat) returns (best: nat)
    requires i < n <= |h| && Selects(h[i], ip, t)
    ensures best < n && Selects(h[best], ip, t)
    ensures forall j :: 0 <= j < n && Selects(h[j], ip, t) ==> !Outranks(h[j], h[best])
  {
    if exists j :: 0 <= j < n - 1 && Selects(h[j], ip, t) {
      var j :| 0 <= j < n - 1 && Selects(h[j], ip, t);
      best := BestRow(h, ip, t, n - 1, j);
      if Selects(h[n-1], ip, t) && Outranks(h[n-1], h[best]) { best := n - 1; }
    } else {
      best := i;
    }
  }

  /** A selected row at a snapshot's own time is in force exactly if that snapshot claimed its pair. */
  lemma SelectedAtSnapshot(c: Config, snaps: seq<Snap>, k: nat, i: nat)
    requires Increasing(snaps) && Timely(c, snaps) && k < |snaps| && i < |History(c, snaps)|
    requires Selects(History(c, snaps)[i], History(c, snaps)[i].ip, snaps[k].at)
    ensures var e := History(c, snaps)[i];
            && (ValidAt(e, snaps[k].at) <==> (e.identity, e.ip) in PairsAt(c, snaps, k))
            && (!ValidAt(e, snaps[k].at) ==> k > 0 && (e.identity, e.ip) in PairsAt(c, snaps, k - 1))
  {
    var h, t := History(c, snaps), snaps[k].at;
    hide History, PairsAt, TimelyAt;
    HistoryReproducesSnapshots(c, snaps);
    assert Reproduces(c, snaps, h, k);
    EndedAre(c, snaps, k);
    var e := h[i];
    if ValidAt(e, t) {
      assert (e.identity, e.ip) in AsOf(h, t);
    } else {
      assert e.validTo == Some(t) && (e.identity, e.ip) in EndedAt(h, t);
    }
  }

  lemma SomeAnswer(h: seq<Episode>, ip: string, t: int)
    ensures (exists i: nat :: Answers(h, ip, t, i)) <==> exists p :: p in AsOfInclusive(h, t) && p.1 == ip
  {
    if i: nat :| Answers(h, ip, t, i) { assert (h[i].identity, h[i].ip) in AsOfInclusive(h, t); }
    if p :| p in AsOfInclusive(h, t) && p.1 == ip {
      var j :| 0 <= j < |h| && Selects(h[j], ip, t) && (h[j].identity, h[j].ip) == p;
      var b := BestRow(h, ip, t, |h|, j);
      assert Answers(h, ip, t, b);
    }
  }

  /** Whether every possible answer is in force: whether every selected row that is not is outranked by one that is. */
  lemma CertainAnswer(h: seq<Episode>, ip: string, t: int)
    ensures (forall i: nat :: Answers(h, ip, t, i) ==> ValidAt(h[i], t)) <==>
            (forall j :: 0 <= j < |h| && Selects(h[j], ip, t) && !ValidAt(h[j], t) ==>
               exists i :: 0 <= i < |h| && Selects(h[i], ip, t) && ValidAt(h[i], t) && Outranks(h[i], h[j]))
  {
    hide ValidAt, Selects;
    if forall i: nat :: Answers(h, ip, t, i) ==> ValidAt(h[i], t) {
      forall j | 0 <= j < |h| && Selects(h[j], ip, t) && !ValidAt(h[j], t)
        ensures exists i :: 0 <= i < |h| && Selects(h[i], ip, t) && ValidAt(h[i], t) && Outranks(h[i], h[j])
      {
        var b := BestRow(h, ip, t, |h|, j);
        assert Answers(h, ip, t, b) && !Answers(h, ip, t, j);
        assert Outranks(h[b], h[j]);
      }
    }
  }

  /** Asked at a snapshot's own time, the query finds an owner exactly if that snapshot or the one before claimed the
      address, and only such owners. It is certain to answer with an owner of that snapshot exactly if every
      episode the snapshot ended for the address is outranked by one then in force. */
  lemma ResolvedOwnerExactly(c: Config, snaps: seq<Snap>, k: nat, ip: string)
    requires Increasing(snaps) && Timely(c, snaps) && k < |snaps|
    ensures var h, t := History(c, snaps), snaps[k].at;
            && ((exists i: nat :: Answers(h, ip, t, i)) <==> exists p :: p in AsOfInclusive(h, t) && p.1 == ip)
            && (forall i: nat :: Answers(h, ip, t, i) ==>
                  (h[i].identity, ip) in PairsAt(c, snaps, k) || (k > 0 && (h[i].identity, ip) in PairsAt(c, snaps, k - 1)))
            && ((forall i: nat :: Answers(h, ip, t, i) ==> (h[i].identity, ip) in PairsAt(c, snaps, k)) <==>
                (forall j :: 0 <= j < |h| && Selects(h[j], ip, t) && !ValidAt(h[j], t) ==>
                   exists i :: 0 <= i < |h| && Selects(h[i], ip, t) && ValidAt(h[i], t) && Outranks(h[i], h[j])))
  {
    var h, t := History(c, snaps), snaps[k].at;
    hide History, PairsAt, Timely, Increasing, AsOfInclusive, ValidAt, Outranks;
    forall i: nat | Answers(h, ip, t, i)
      ensures ValidAt(h[i], t) <==> (h[i].identity, ip) in PairsAt(c, snaps, k)
      ensures !ValidAt(h[i], t) ==> k > 0 && (h[i].identity, ip) in PairsAt(c, snaps, k - 1)
    {
      SelectedAtSnapshot(c, snaps, k, i);
    }
    hide Answers, Selects;
    SomeAnswer(h, ip, t);
    CertainAnswer(h, ip, t);
  }

  /** An address that passes from one device to another between two snapshots: asked at the second snapshot's own
      time, the query answers with the old owner exactly if only the old owner was ARP-verified. */
  lemma HandoverAtItsOwnTime(c: Config, t0: int, x: Claim, t1: int, y: Claim, i: nat)
    requires x.ip == y.ip && PairOf(c, x) != PairOf(c, y)
    requires Start(x, t0) <= t0 < Start(y, t1) <= t1
    ensures var h := History(c, [Snap(t0, [x]), Snap(t1, [y])]);
            && |h| == 2 && (h[0].identity, h[0].ip) == PairOf(c, x) && (h[1].identity, h[1].ip) == PairOf(c, y)
            && (Answers(h, x.ip, t1, i) <==> i == if x.node.arp && !y.node.arp then 0 else 1)
  {
    hide PairOf, Start, Answers;
    var snaps := [Snap(t0, [x]), Snap(t1, [y])];
    assert snaps[..1] == [Snap(t0, [x])] && [Snap(t0, [x])][..0] == [];
    OneClaim(c, [], x, t0);
    var h0 := History(c, snaps[..1]);
    assert h0 == [NewEpisode(c, x, t0)] by { FirstEpisode(c, x, t0); }
    OneClaim(c, h0, y, t1);
    assert !HasOpen(h0, PairOf(c, y));
    var h := History(c, snaps);
    assert h == Close(h0 + [NewEpisode(c, y, t1)], t1);
    assert h[0] == Ended(h0[0], t1) && h[1] == Ended(NewEpisode(c, y, t1), t1);
    assert h[0].ip == x.ip && h[1].ip == x.ip by { PairHasAddress(c, x); PairHasAddress(c, y); }
    TwoRows(h, x.ip, t1, i);
  }

  lemma FirstEpisode(c: Config, x: Claim, now: int)
    ensures History(c, [Snap(now, [x])]) == [NewEpisode(c, x, now)]
  {
    hide PairOf, Start;
    OneClaim(c, [], x, now);
    assert [Snap(now, [x])][..0] == [];
    assert [] + [NewEpisode(c, x, now)] == [NewEpisode(c, x, now)];
    assert History(c, [Snap(now, [x])]) == Close([NewEpisode(c, x, now)], now);
  }

  lemma PairHasAddress(c: Config, x: Claim)
    ensures PairOf(c, x).1 == x.ip
  {
  }

  lemma OneClaim(c: Config, h: seq<Episode>, x: Claim, now: int)
    ensures RecordAll(c, h, [x], now) == Record(c, h, x, now)
  {
    hide Record;
    assert [x][..0] == [];
  }

  lemma TwoRows(h: seq<Episode>, ip: string, t: int, i: nat)
    requires |h| == 2 && Selects(h[0], ip, t) && Selects(h[1], ip, t) && h[0].lastObserved < h[1].lastObserved
    ensures Answers(h, ip, t, i) <==> i == if h[0].arp && !h[1].arp then 0 else 1
  {
  }

  // ---------- Current nodes and conflicting claims ----------

  datatype NodeRow = NodeRow(mac: string, active: bool, conflict: bool, macs: set<string>, firstSeen: int, lastSeen: int)

  function Listed(n: Node): seq<string> { if n.ips == [] && n.ip != "" then [n.ip] else n.ips }

  function Addresses(c: Config, n: Node): set<string> {
    set a | a in Listed(n) && c.trim(a) != "" :: c.trim(a)
  }

  function ClaimSet(c: Config, nodes: seq<Node>): set<Claim> {
    set n, ip | n in nodes && ip in Addresses(c, n) :: Claim(n, ip)
  }

  function MacOf(c: Config, x: Claim): string { c.lower(c.trim(x.node.mac)) }

  function Macs(c: Config, xs: set<Claim>, ip: string): set<string> {
    set x | x in xs && x.ip == ip && MacOf(c, x) != "" :: MacOf(c, x)
  }

  predicate Newer(a: Option<int>, b: Option<int>) { a.Some? && (b.None? || a.value > b.value) }

  /** ARP-verified claims first, then the newest, then the lowest address. */
  predicate RanksBefore(c: Config, a: Claim, b: Claim) {
    if a.node.arp != b.node.arp then a.node.arp
    else if a.node.lastSeen != b.node.lastSeen then Newer(a.node.lastSeen, b.node.lastSeen)
    else LexLess(c.lower(a.node.mac), c.lower(b.node.mac))
  }

  ghost predicate BestFor(c: Config, xs: set<Claim>, ip: string, d: Claim) {
    d in xs && d.ip == ip && forall x :: x in xs && x.ip == ip ==> !RanksBefore(c, x, d)
  }

  /** What makes a claim the best for its address: it is ARP-verified if any is; among those alike in that, none was
      seen later, a claim without a time counting as the earliest; among those alike in both, none has a lower
      hardware address. */
  lemma BestClaimIs(c: Config, xs: set<Claim>, ip: string, d: Claim, x: Claim)
    requires BestFor(c, xs, ip, d) && x in xs && x.ip == ip
    ensures x.node.arp ==> d.node.arp
    ensures x.node.arp == d.node.arp && x.node.lastSeen.Some? ==> d.node.lastSeen.Some? && x.node.lastSeen.value <= d.node.lastSeen.value
    ensures x.node.arp == d.node.arp && x.node.lastSeen == d.node.lastSeen ==> !LexLess(c.lower(x.node.mac), c.lower(d.node.mac))
  {
  }

  function RowFor(d: Claim, macs: set<string>, now: int): NodeRow {
    var first := if d.node.firstSeen.Some? then d.node.firstSeen.value else now;
    NodeRow(if |macs| > 1 then "" else d.node.mac, true, |macs| > 1, macs, first,
            if d.node.lastSeen.Some? then d.node.lastSeen.value else first)
  }

  function Inactive(row: NodeRow): NodeRow { row.(active := false, conflict := false, macs := {}) }

  /** The current-node table after a snapshot: claimed addresses show a best claim, all others fall inactive. */
  ghost predicate NodesAfter(c: Config, before: map<string, NodeRow>, xs: set<Claim>, now: int, after: map<string, NodeRow>) {
    && after.Keys == before.Keys + (set x | x in xs :: x.ip)
    && (forall ip :: ip in after && (exists x :: x in xs && x.ip == ip) ==>
          exists d :: BestFor(c, xs, ip, d) && after[ip] == RowFor(d, Macs(c, xs, ip), now))
    && (forall ip :: ip in before && (forall x :: x in xs ==> x.ip != ip) ==> after[ip] == Inactive(before[ip]))
  }

  function Resolve(c: Config, nodes: map<string, NodeRow>, lastKnown: Option<Identity>, ip: string): Identity {
    if ip in nodes && nodes[ip].active then IdentityOf(c, if nodes[ip].conflict then "" else nodes[ip].mac, ip)
    else if lastKnown.Some? then lastKnown.value
    else IdentityOf(c, "", ip)
  }

  /** Two claims to the address carry different hardware addresses. */
  ghost predicate Contested(c: Config, xs: set<Claim>, ip: string) {
    exists a, b :: a in xs && b in xs && a.ip == ip && b.ip == ip
                && MacOf(c, a) != "" && MacOf(c, b) != "" && MacOf(c, a) != MacOf(c, b)
  }

  lemma TwoMembers<T>(s: set<T>)
    ensures |s| > 1 <==> exists a, b :: a in s && b in s && a != b
  {
    if |s| > 1 {
      var a :| a in s;
      assert |s - {a}| == |s| - 1;
      var b :| b in s - {a};
      assert a in s && b in s && a != b;
    }
    if a, b :| a in s && b in s && a != b {
      SubsetSize({a, b}, s);
    }
  }

  lemma ContestedMeansManyMacs(c: Config, xs: set<Claim>, ip: string)
    ensures Contested(c, xs, ip) <==> |Macs(c, xs, ip)| > 1
  {
    hide MacOf;
    var macs := Macs(c, xs, ip);
    TwoMembers(macs);
    if Contested(c, xs, ip) {
      var a, b :| a in xs && b in xs && a.ip == ip && b.ip == ip
               && MacOf(c, a) != "" && MacOf(c, b) != "" && MacOf(c, a) != MacOf(c, b);
      assert MacOf(c, a) in macs && MacOf(c, b) in macs;
    }
  }

  /** A node claims the addresses it lists, or its single one if it lists none, trimmed and never blank. */
  lemma ClaimsAre(c: Config, nodes: seq<Node>, x: Claim)
    ensures x in ClaimSet(c, nodes) <==>
              (&& x.node in nodes && x.ip != ""
               && ((exists a :: a in x.node.ips && c.trim(a) == x.ip)
                   || (|x.node.ips| == 0 && x.node.ip != "" && c.trim(x.node.ip) == x.ip)))
  {
    assert x.ip in Addresses(c, x.node) <==> exists a :: a in Listed(x.node) && c.trim(a) != "" && c.trim(a) == x.ip;
  }

  /** Two claims are taken for the same device exactly if both carry the same readable hardware address, or neither carries
      one and they claim the same address. */
  lemma SameDeviceExactly(c: Config, a: Claim, b: Claim)
    ensures var m, n := c.parseMAC(c.trim(a.node.mac)), c.parseMAC(c.trim(b.node.mac));
            PairOf(c, a).0 == PairOf(c, b).0 <==> m == n && (m.None? ==> c.trim(a.ip) == c.trim(b.ip))
  {
  }

  /** What the current-node table shows of an address after a snapshot. Claimed, it is active, lists every hardware address
      that claims it and shows the one of a best claim, blank if they are several, with that claim's times, or the clock
      for a missing first and the first for a missing last. Not claimed, it keeps hardware address and times only. */
  lemma CurrentRowShows(c: Config, before: map<string, NodeRow>, xs: set<Claim>, now: int, after: map<string, NodeRow>, ip: string)
    requires NodesAfter(c, before, xs, now, after)
    ensures ip in after <==> ip in before || exists x :: x in xs && x.ip == ip
    ensures (exists x :: x in xs && x.ip == ip) ==>
              var row := after[ip];
              && row.active && (row.conflict <==> Contested(c, xs, ip))
              && (forall m :: m in row.macs <==> m != "" && exists x :: x in xs && x.ip == ip && MacOf(c, x) == m)
              && (exists d :: BestFor(c, xs, ip, d) && ShownFrom(d, now, row))
    ensures ip in before && (forall x :: x in xs ==> x.ip != ip) ==>
              after[ip] == before[ip].(active := false, conflict := false, macs := {})
  {
    if x :| x in xs && x.ip == ip {
      ContestedMeansManyMacs(c, xs, ip);
      hide BestFor, Contested, MacOf;
      assert ip in after;
      var d :| BestFor(c, xs, ip, d) && after[ip] == RowFor(d, Macs(c, xs, ip), now);
      RowShows(d, Macs(c, xs, ip), now);
      hide RowFor, ShownFrom;
    }
  }

  lemma RowShows(d: Claim, macs: set<string>, now: int)
    ensures var row := RowFor(d, macs, now);
            row.active && row.macs == macs && (row.conflict <==> |macs| > 1) && ShownFrom(d, now, row)
  {
  }

  predicate ShownFrom(d: Claim, now: int, row: NodeRow) {
    && row.mac == (if row.conflict then "" else d.node.mac)
    && (if d.node.firstSeen.None? then row.firstSeen == now else Some(row.firstSeen) == d.node.firstSeen)
    && (if d.node.lastSeen.None? then row.lastSeen == row.firstSeen else Some(row.lastSeen) == d.node.lastSeen)
  }

  /** An address claimed by two different hardware addresses resolves to neither of them, whatever was stored
      before; any other claimed address resolves to a best-ranked claimant. */
  lemma ConflictsResolveToNobody(c: Config, before: map<string, NodeRow>, xs: set<Claim>, now: int,
                                 after: map<string, NodeRow>, lastKnown: Option<Identity>, x: Claim)
    requires c.parseMAC(c.trim("")).None? && NodesAfter(c, before, xs, now, after) && x in xs
    ensures if Contested(c, xs, x.ip) then Resolve(c, after, lastKnown, x.ip) == Provisional(c.trim(x.ip))
            else exists d :: BestFor(c, xs, x.ip, d) && Resolve(c, after, lastKnown, x.ip) == IdentityOf(c, d.node.mac, x.ip)
  {
    hide BestFor, Contested, Macs;
    assert x.ip in after;
    ContestedMeansManyMacs(c, xs, x.ip);
    var d :| BestFor(c, xs, x.ip, d) && after[x.ip] == RowFor(d, Macs(c, xs, x.ip), now);
  }

  /** An address that was known and is no longer claimed resolves to the identity it is last known by, else to itself. */
  lemma UnclaimedResolvesToLastKnown(c: Config, before: map<string, NodeRow>, xs: set<Claim>, now: int,
                                     after: map<string, NodeRow>, lastKnown: Option<Identity>, ip: string)
    requires c.parseMAC(c.trim("")).None? && NodesAfter(c, before, xs, now, after) && forall x :: x in xs ==> x.ip != ip
    ensures Some(Resolve(c, after, lastKnown, ip)) == if lastKnown.None? then Some(Provisional(c.trim(ip))) else lastKnown
  {
    hide BestFor, Macs;
    CurrentRowShows(c, before, xs, now, after, ip);
  }

  // ---------- The tables, updated in place ----------

  /** The sort order as a value. */
  function Order(c: Config): (Claim, Claim) -> bool { (a, b) => RanksBefore(c, a, b) }

  lemma LaterStaysLater(c: Config, x: Claim, y: Claim, z: Claim)
    requires !RanksBefore(c, x, y) && !RanksBefore(c, y, z)
    ensures !RanksBefore(c, x, z)
  {
    var a, b, d := c.lower(x.node.mac), c.lower(y.node.mac), c.lower(z.node.mac);
    LexLessTotal(b, d);
    if LexLess(a, d) && LexLess(d, b) { LexLessTransitive(a, d, b); }
    hide LexLess;
  }

  lemma RanksOneWay(c: Config, x: Claim, y: Claim)
    requires RanksBefore(c, x, y)
    ensures !RanksBefore(c, y, x)
  {
    LexLessTotal(c.lower(x.node.mac), c.lower(y.node.mac));
    LexLessIrreflexive(c.lower(x.node.mac));
    hide LexLess;
  }

  lemma ClaimsRank(c: Config)
    ensures Ranks(Order(c))
  {
    hide RanksBefore;
    forall a, b | RanksBefore(c, a, b) ensures !RanksBefore(c, b, a) { RanksOneWay(c, a, b); }
    forall a, b, d | !RanksBefore(c, a, b) && !RanksBefore(c, b, d) ensures !RanksBefore(c, a, d) { LaterStaysLater(c, a, b, d); }
  }

  /** The claims to one address, ARP-verified first, then newest, then lowest hardware address. */
  method SortClaims(c: Config, cs: seq<Claim>) returns (sorted: seq<Claim>)
    ensures Ranked(sorted, Order(c)) && multiset(sorted) == multiset(cs)
    ensures forall x :: x in sorted <==> x in cs
  {
    ClaimsRank(c);
    sorted := Sort(cs, Order(c));
    forall x ensures x in sorted <==> x in cs { assert x in multiset(sorted) <==> x in multiset(cs); }
  }

  /** The claims of a snapshot, grouped by address. */
  ghost predicate Grouped(xs: set<Claim>, byIP: map<string, seq<Claim>>) {
    && (forall ip :: ip in byIP ==> byIP[ip] != [] && forall x :: x in byIP[ip] ==> x in xs && x.ip == ip)
    && (forall x :: x in xs ==> x.ip in byIP && x in byIP[x.ip])
  }

  method GroupNode(c: Config, n: Node, start: map<string, seq<Claim>>, ghost xs: set<Claim>) returns (byIP: map<string, seq<Claim>>)
    requires Grouped(xs, start)
    ensures Grouped(xs + (set ip | ip in Addresses(c, n) :: Claim(n, ip)), byIP)
  {
    byIP := start;
    var ips := Listed(n);
    var seen: set<string> := {};
    ghost var claims := xs;
    for i := 0 to |ips|
      invariant seen == set j | 0 <= j < i && c.trim(ips[j]) != "" :: c.trim(ips[j])
      invariant claims == xs + (set ip | ip in seen :: Claim(n, ip))
      invariant Grouped(claims, byIP)
    {
      var ip := c.trim(ips[i]);
      if ip != "" && ip !in seen {
        byIP := AddClaim(byIP, Claim(n, ip), claims);
        seen := seen + {ip};
        claims := claims + {Claim(n, ip)};
      }
    }
    assert seen == Addresses(c, n);
  }

  method AddClaim(start: map<string, seq<Claim>>, x: Claim, ghost xs: set<Claim>) returns (byIP: map<string, seq<Claim>>)
    requires Grouped(xs, start)
    ensures Grouped(xs + {x}, byIP)
  {
    byIP := start[x.ip := (if x.ip in start then start[x.ip] else []) + [x]];
  }

  method GroupByIP(c: Config, nodes: seq<Node>) returns (byIP: map<string, seq<Claim>>)
    ensures Grouped(ClaimSet(c, nodes), byIP)
  {
    hide Grouped, Addresses;
    byIP := map[];
    NothingGrouped();
    ghost var xs: set<Claim> := {};
    for i := 0 to |nodes|
      invariant Grouped(xs, byIP)
      invariant xs == ClaimSet(c, nodes[..i])
    {
      byIP := GroupNode(c, nodes[i], byIP, xs);
      xs := xs + (set ip | ip in Addresses(c, nodes[i]) :: Claim(nodes[i], ip));
      assert forall n :: n in nodes[..i+1] <==> n in nodes[..i] || n == nodes[i];
    }
    assert nodes[..|nodes|] == nodes;
  }

  lemma NothingGrouped()
    ensures Grouped({}, map[])
  {
  }

  lemma NothingRecorded(c: Config, h: seq<Episode>, now: int)
    ensures RecordAll(c, h, [], now) == h
  {
  }

  /** The node table once the addresses `done` are processed. */
  ghost predicate NodesPartly(c: Config, before: map<string, NodeRow>, xs: set<Claim>, now: int, done: set<string>,
                              after: map<string, NodeRow>) {
    && after.Keys == before.Keys + done
    && (forall ip :: ip in done ==> exists d :: BestFor(c, xs, ip, d) && after[ip] == RowFor(d, Macs(c, xs, ip), now))
    && (forall ip :: ip in before && ip !in done ==> after[ip] == Inactive(before[ip]))
  }

  lemma NodesStep(c: Config, before: map<string, NodeRow>, xs: set<Claim>, now: int, done: set<string>,
                  after: map<string, NodeRow>, d: Claim)
    requires NodesPartly(c, before, xs, now, done, after) && BestFor(c, xs, d.ip, d) && d.ip !in done
    ensures NodesPartly(c, before, xs, now, done + {d.ip}, after[d.ip := RowFor(d, Macs(c, xs, d.ip), now)])
  {
    hide BestFor, RowFor, Macs;
  }

  lemma NoNodeDone(c: Config, before: map<string, NodeRow>, xs: set<Claim>, now: int, after: map<string, NodeRow>)
    requires after.Keys == before.Keys && forall ip :: ip in after ==> after[ip] == Inactive(before[ip])
    ensures NodesPartly(c, before, xs, now, {}, after)
  {
  }

  lemma BestIs(c: Config, xs: set<Claim>, ip: string, d: Claim)
    requires BestFor(c, xs, ip, d)
    ensures d.ip == ip
  {
  }

  ghost predicate SortedWithinAddresses(c: Config, order: seq<Claim>) {
    forall i, j :: 0 <= i < j < |order| && order[i].ip == order[j].ip ==> !RanksBefore(c, order[j], order[i])
  }

  lemma SortedGroupAppends(c: Config, order: seq<Claim>, cs: seq<Claim>, ip: string)
    requires SortedWithinAddresses(c, order) && Ranked(cs, Order(c))
    requires (forall x :: x in order ==> x.ip != ip) && forall x :: x in cs ==> x.ip == ip
    ensures SortedWithinAddresses(c, order + cs)
  {
    hide RanksBefore;
    var all := order + cs;
    forall i | 0 <= i < |all| ensures all[i].ip == ip <==> i >= |order| {
      if i < |order| { assert all[i] in order; } else { assert all[i] in cs; }
    }
    forall i, j | 0 <= i < j < |all| && all[i].ip == all[j].ip ensures !RanksBefore(c, all[j], all[i]) {
      if i >= |order| { assert !Order(c)(cs[j-|order|], cs[i-|order|]); }
    }
  }

  lemma FirstIsBest(c: Config, cs: seq<Claim>, x: Claim)
    requires Ranked(cs, Order(c)) && x in cs
    ensures !RanksBefore(c, x, cs[0])
  {
    var i :| 0 <= i < |cs| && cs[i] == x;
    if i > 0 { assert !Order(c)(cs[i], cs[0]); }
    else if RanksBefore(c, x, x) { RanksOneWay(c, x, x); }
  }

  lemma GroupIs(xs: set<Claim>, byIP: map<string, seq<Claim>>, ip: string)
    requires Grouped(xs, byIP) && ip in byIP
    ensures byIP[ip] != [] && forall x :: x in byIP[ip] <==> x in xs && x.ip == ip
  {
  }

  lemma AllNodesDone(c: Config, before: map<string, NodeRow>, xs: set<Claim>, now: int, byIP: map<string, seq<Claim>>,
                     after: map<string, NodeRow>)
    requires Grouped(xs, byIP) && NodesPartly(c, before, xs, now, byIP.Keys, after)
    ensures NodesAfter(c, before, xs, now, after)
  {
    hide BestFor, RowFor, Macs;
    forall ip ensures ip in byIP <==> exists x :: x in xs && x.ip == ip {
      if ip in byIP { assert byIP[ip][0] in byIP[ip]; }
    }
  }

  lemma GroupsCover(xs: set<Claim>, byIP: map<string, seq<Claim>>)
    requires Grouped(xs, byIP)
    ensures forall x :: x in xs ==> x.ip in byIP
  {
  }

  class BindingTables {
    const config: Config
    var rows: seq<Episode>
    var nodes: map<string, NodeRow>

    constructor (c: Config)
      ensures config == c && rows == [] && nodes == map[]
    {
      config, rows, nodes := c, [], map[];
    }

    /** One UPDATE of the open episode of the claimed pair, or one INSERT. */
    method RecordClaim(x: Claim, now: int)
      modifies this`rows
      ensures rows == Record(config, old(rows), x, now)
    {
      hide Refresh, PairOf, OpenFor;
      var updated, touched: nat := [], 0;
      for i := 0 to |rows|
        invariant updated == Touch(config, rows[..i], x, now)
        invariant touched > 0 <==> HasOpen(rows[..i], PairOf(config, x))
      {
        var e := rows[i];
        if OpenFor(e, PairOf(config, x)) {
          e := Refresh(e, x, now);
          touched := touched + 1;
          assert OpenFor(rows[..i+1][i], PairOf(config, x));
        }
        updated := updated + [e];
      }
      assert rows[..|rows|] == rows;
      if touched > 0 { rows := updated; } else { rows := rows + [NewEpisode(config, x, now)]; }
    }

    method RecordGroup(cs: seq<Claim>, now: int, ghost base: seq<Episode>, ghost before: seq<Claim>)
      requires rows == RecordAll(config, base, before, now)
      modifies this`rows
      ensures rows == RecordAll(config, base, before + cs, now)
    {
      hide Record;
      assert before + cs[..0] == before;
      for i := 0 to |cs|
        invariant rows == RecordAll(config, base, before + cs[..i], now)
      {
        assert (before + cs[..i+1])[..|before|+i] == before + cs[..i];
        RecordClaim(cs[i], now);
      }
      assert cs[..|cs|] == cs;
    }

    method Deactivate()
      modifies this`nodes
      ensures nodes.Keys == old(nodes).Keys && forall ip :: ip in nodes ==> nodes[ip] == Inactive(old(nodes)[ip])
    {
      nodes := map ip | ip in nodes :: Inactive(nodes[ip]);
    }

    method CloseMissing(now: int)
      modifies this`rows
      ensures rows == Close(old(rows), now)
    {
      var closed := [];
      for i := 0 to |rows|
        invariant closed == Close(rows[..i], now)
      {
        closed := closed + [Ended(rows[i], now)];
      }
      assert rows[..|rows|] == rows;
      rows := closed;
    }

    /** The current-node row of one address. */
    method ShowBest(ip: string, cs: seq<Claim>, now: int, ghost xs: set<Claim>) returns (ghost d: Claim)
      requires cs != [] && Ranked(cs, Order(config)) && forall x :: x in cs <==> x in xs && x.ip == ip
      modifies this`nodes
      ensures BestFor(config, xs, ip, d) && nodes == old(nodes)[ip := RowFor(d, Macs(config, xs, ip), now)]
    {
      hide RanksBefore, RowFor, MacOf;
      var display := cs[0];
      forall x | x in cs ensures !RanksBefore(config, x, display) {
        FirstIsBest(config, cs, x);
      }
      var macs := set x | x in cs && MacOf(config, x) != "" :: MacOf(config, x);
      assert macs == Macs(config, xs, ip);
      d := display;
      nodes := nodes[ip := RowFor(display, macs, now)];
    }

    /** Applies one complete snapshot; `order` is the order in which the claims were processed: address by address,
        and within each address as they sort. */
    method Upsert(list: seq<Node>, now: int) returns (ghost order: seq<Claim>)
      modifies this
      ensures forall x :: x in order <==> x in ClaimSet(config, list)
      ensures SortedWithinAddresses(config, order)
      ensures rows == Snapshot(config, old(rows), order, now)
      ensures NodesAfter(config, old(nodes), ClaimSet(config, list), now, nodes)
    {
      hide Grouped, RecordAll, ClaimSet, NodesAfter, BestFor, Macs, RowFor, NodesPartly, RanksBefore, Ranked, Order;
      ghost var xs, base, start := ClaimSet(config, list), rows, nodes;
      Deactivate();
      var byIP := GroupByIP(config, list);
      order := [];
      NothingRecorded(config, base, now);
      NoNodeDone(config, start, xs, now, nodes);
      var left := byIP.Keys;
      assert byIP.Keys - left == {};
      while left != {}
        invariant left <= byIP.Keys
        invariant rows == RecordAll(config, base, order, now)
        invariant forall x :: x in order <==> x in xs && x.ip in byIP && x.ip !in left
        invariant SortedWithinAddresses(config, order)
        invariant NodesPartly(config, start, xs, now, byIP.Keys - left, nodes)
      {
        var ip :| ip in left;
        GroupIs(xs, byIP, ip);
        var cs := SortClaims(config, byIP[ip]);
        assert byIP[ip][0] in cs;
        RecordGroup(cs, now, base, order);
        ghost var shown := nodes;
        ghost var d := ShowBest(ip, cs, now, xs);
        BestIs(config, xs, ip, d);
        NodesStep(config, start, xs, now, byIP.Keys - left, shown, d);
        SortedGroupAppends(config, order, cs, ip);
        order := order + cs;
        assert byIP.Keys - (left - {ip}) == byIP.Keys - left + {ip};
        left := left - {ip};
      }
      assert byIP.Keys - left == byIP.Keys;
      CloseMissing(now);
      AllNodesDone(config, start, xs, now, byIP, nodes);
      GroupsCover(xs, byIP);
    }
  }
}
