/**
  Contact tracing: who may have been exposed to an infected asset, by breadth-first rounds over the undirected
  graph of observed contacts.
*/
module ContactTrace {
  import opened Ranking

  datatype Contact = Contact(
    a: string, b: string, protocol: string, srcPort: nat, dstPort: nat, first: int, last: int,
    bytes: nat, packets: nat, isOT: bool)

  datatype Severity = Low | Medium | High | Critical

  datatype Exposure = Exposure(asset: string, parent: string, hops: nat, contact: Contact, score: nat, severity: Severity)

  // ---------- The contact graph ----------

  /** The contact links the two assets, in either direction; a blank address is nobody. */
  predicate Links(c: Contact, x: string, y: string) {
    y != "" && ((c.a == x && c.b == y) || (c.b == x && c.a == y))
  }

  predicate Touch(contacts: seq<Contact>, x: string, y: string) { exists c :: c in contacts && Links(c, x, y) }

  /** A walk along contacts. */
  ghost predicate Walk(contacts: seq<Contact>, w: seq<string>) {
    w != [] && forall i :: 0 <= i < |w| - 1 ==> Touch(contacts, w[i], w[i+1])
  }

  ghost predicate WalkTo(contacts: seq<Contact>, source: string, y: string, w: seq<string>) {
    Walk(contacts, w) && w[0] == source && w[|w|-1] == y
  }

  /** The shortest walk from the source has exactly `n` hops. */
  ghost predicate Distance(contacts: seq<Contact>, source: string, y: string, n: nat) {
    && (exists w :: WalkTo(contacts, source, y, w) && |w| == n + 1)
    && (forall w :: WalkTo(contacts, source, y, w) ==> |w| >= n + 1)
  }

  function Neighbours(contacts: seq<Contact>, x: string): set<string> {
    (set c | c in contacts && c.a == x && c.b != "" :: c.b) + (set c | c in contacts && c.b == x && c.a != "" :: c.a)
  }

  /** Everything within `n` hops of the source. */
  function Ball(contacts: seq<Contact>, source: string, n: nat): set<string> {
    if n == 0 then {source}
    else
      var inner := Ball(contacts, source, n - 1);
      inner + set x, y | x in inner && y in Neighbours(contacts, x) :: y
  }

  /** Everything at exactly `n` hops. */
  function Ring(contacts: seq<Contact>, source: string, n: nat): set<string> {
    if n == 0 then {source} else Ball(contacts, source, n) - Ball(contacts, source, n - 1)
  }

  lemma NeighboursTouch(contacts: seq<Contact>, x: string, y: string)
    ensures y in Neighbours(contacts, x) <==> Touch(contacts, x, y)
  {
    if Touch(contacts, x, y) { var c :| c in contacts && Links(c, x, y); }
    if y in Neighbours(contacts, x) {
      if c :| c in contacts && c.a == x && c.b != "" && c.b == y { assert Links(c, x, y); }
      else { var c :| c in contacts && c.b == x && c.a != "" && c.a == y; assert Links(c, x, y); }
    }
  }

  lemma {:induction false} BallHasWalk(contacts: seq<Contact>, source: string, n: nat, y: string) returns (w: seq<string>)
    requires y in Ball(contacts, source, n)
    ensures WalkTo(contacts, source, y, w) && |w| <= n + 1
  {
    hide Touch, Neighbours;
    if n == 0 {
      w := [source];
    } else if y in Ball(contacts, source, n - 1) {
      w := BallHasWalk(contacts, source, n - 1, y);
    } else {
      var x :| x in Ball(contacts, source, n - 1) && y in Neighbours(contacts, x);
      var v := BallHasWalk(contacts, source, n - 1, x);
      NeighboursTouch(contacts, x, y);
      w := v + [y];
    }
  }

  lemma {:induction false} WalkStaysInBall(contacts: seq<Contact>, source: string, y: string, w: seq<string>)
    requires WalkTo(contacts, source, y, w)
    ensures y in Ball(contacts, source, |w| - 1)
    decreases |w|
  {
    hide Touch, Neighbours;
    var n := |w| - 1;
    if n > 0 {
      var v := w[..n];
      WalkStaysInBall(contacts, source, w[n-1], v);
      assert Touch(contacts, w[n-1], w[n]);
      NeighboursTouch(contacts, w[n-1], y);
    }
  }

  lemma {:induction false} BallGrows(contacts: seq<Contact>, source: string, m: nat, n: nat)
    requires m <= n
    ensures Ball(contacts, source, m) <= Ball(contacts, source, n)
  {
    if m < n { BallGrows(contacts, source, m, n - 1); }
  }

  /** The rings are the distances. */
  lemma RingIsDistance(contacts: seq<Contact>, source: string, y: string, n: nat)
    ensures y in Ring(contacts, source, n) <==> Distance(contacts, source, y, n)
  {
    hide Walk, Ball;
    if y in Ring(contacts, source, n) {
      if n == 0 { FirstBall(contacts, source); }
      var w := BallHasWalk(contacts, source, n, y);
      forall v | WalkTo(contacts, source, y, v) ensures |v| >= n + 1 { CloserWalk(contacts, source, y, v, n); }
    }
    if Distance(contacts, source, y, n) {
      var w :| WalkTo(contacts, source, y, w) && |w| == n + 1;
      WalkStaysInBall(contacts, source, y, w);
      if n == 0 { FirstBall(contacts, source); }
      else if y in Ball(contacts, source, n - 1) { var v := BallHasWalk(contacts, source, n - 1, y); }
    }
  }

  lemma FirstBall(contacts: seq<Contact>, source: string)
    ensures Ball(contacts, source, 0) == {source}
  {
  }

  lemma CloserWalk(contacts: seq<Contact>, source: string, y: string, v: seq<string>, n: nat)
    requires WalkTo(contacts, source, y, v) && y in Ring(contacts, source, n)
    ensures |v| >= n + 1
  {
    WalkStaysInBall(contacts, source, y, v);
    if n > 0 && |v| - 1 <= n - 1 { BallGrows(contacts, source, |v| - 1, n - 1); }
  }

  // ---------- Scores ----------

  predicate IsTCP(protocol: string) {
    |protocol| == 3 && protocol[0] in {'t', 'T'} && protocol[1] in {'c', 'C'} && protocol[2] in {'p', 'P'}
  }

  predicate Administrative(c: Contact) {
    IsTCP(c.protocol) && (c.srcPort in {445, 3389, 22, 5985} || c.dstPort in {445, 3389, 22, 5985})
  }

  const LARGE: nat := 104_857_600

  /** What the contact itself is worth, before distance. */
  function Base(c: Contact): nat {
    20 + (if Administrative(c) then 25 else 0) + (if c.bytes >= LARGE then 15 else 0)
    + (if c.packets >= 100 then 10 else 0) + if c.isOT then 30 else 0
  }

  function ScoreAt(c: Contact, hop: nat): nat
    requires hop >= 1
  {
    var score := Base(c) - 15 * (hop - 1);
    if score < 0 then 0 else if score > 100 then 100 else score
  }

  function SeverityOf(score: nat): Severity {
    if score >= 80 then Critical else if score >= 60 then High else if score >= 30 then Medium else Low
  }

  method ContactExposureScore(c: Contact, hop: nat) returns (score: nat)
    requires hop >= 1
    ensures score == ScoreAt(c, hop)
  {
    var total: int := 20;
    if Administrative(c) { total := total + 25; }
    if c.bytes >= LARGE { total := total + 15; }
    if c.packets >= 100 { total := total + 10; }
    if c.isOT { total := total + 30; }
    total := total - 15 * (hop - 1);
    if total < 0 { total := 0; }
    if total > 100 { total := 100; }
    score := total;
  }

  /** The upper cap never bites; each further hop costs exactly 15 points until nothing is left, a contact scores
      nothing exactly from the hop on that its own worth no longer pays for, and it is critical exactly if it is
      worth 80 there, which takes OT and at most two hops. */
  lemma ScoreFallsWithDistance(c: Contact, hop: nat)
    requires hop >= 1
    ensures ScoreAt(c, hop) <= (if 15 * (hop - 1) <= 100 then 100 - 15 * (hop - 1) else 0)
    ensures ScoreAt(c, hop + 1) == if ScoreAt(c, hop) >= 15 then ScoreAt(c, hop) - 15 else 0
    ensures ScoreAt(c, hop) == 0 <==> Base(c) <= 15 * (hop - 1)
    ensures SeverityOf(ScoreAt(c, hop)) == Critical <==> Base(c) >= 80 + 15 * (hop - 1)
    ensures SeverityOf(ScoreAt(c, hop)) == Critical ==> c.isOT && hop <= 2
  {
  }

  /** What makes a contact worth more: 20 for itself, 25 more over TCP on a port of remote administration or file
      sharing, 15 more from 100 MiB on, 10 more from 100 packets on, 30 more for OT, each on its own. */
  lemma WorthByParts(c: Contact)
    ensures Base(c) == Base(c.(isOT := false)) + if c.isOT then 30 else 0
    ensures Base(c) == Base(c.(packets := 0)) + if c.packets >= 100 then 10 else 0
    ensures Base(c) == Base(c.(bytes := 0)) + if c.bytes >= 100 * 1024 * 1024 then 15 else 0
    ensures Base(c) == Base(c.(protocol := "")) +
              if IsTCP(c.protocol) && {c.srcPort, c.dstPort} * {22, 445, 3389, 5985} != {} then 25 else 0
    ensures Base(c.(isOT := false, packets := 0, bytes := 0, protocol := "")) == 20
  {
    assert Administrative(c) <==> IsTCP(c.protocol) && {c.srcPort, c.dstPort} * {22, 445, 3389, 5985} != {} by {
      var s := {c.srcPort, c.dstPort} * {22, 445, 3389, 5985};
      if c.srcPort in {445, 3389, 22, 5985} { assert c.srcPort in s; }
      if c.dstPort in {445, 3389, 22, 5985} { assert c.dstPort in s; }
      if s != {} { var p :| p in s; assert p == c.srcPort || p == c.dstPort; }
    }
  }

  /** Scores fall into four bands: below 30, from 30, from 60 and from 80 on. */
  lemma SeverityBands(score: nat)
    ensures SeverityOf(score) == Low <==> score < 30
    ensures SeverityOf(score) == Medium <==> 30 <= score < 60
    ensures SeverityOf(score) == High <==> 60 <= score < 80
    ensures SeverityOf(score) == Critical <==> 80 <= score
  {
  }

  // ---------- The trace ----------

  /** The other end of a contact, as the search looks it up: blank when the contact does not touch `cur`. */
  function Other(c: Contact, cur: string): string {
    if c.a == cur then c.b else if c.b == cur then c.a else ""
  }

  /** A recorded exposure: an asset at its true distance, found from one a hop closer over a contact they share. */
  ghost predicate Sound(contacts: seq<Contact>, source: string, e: Exposure) {
    && e.hops >= 1
    && e.asset in Ring(contacts, source, e.hops) && e.parent in Ring(contacts, source, e.hops - 1)
    && e.contact in contacts && Links(e.contact, e.parent, e.asset)
    && e.score == ScoreAt(e.contact, e.hops) && e.severity == SeverityOf(e.score)
  }

  function Assets(es: seq<Exposure>): set<string> { set e | e in es :: e.asset }

  ghost predicate OncePerAsset(es: seq<Exposure>) {
    forall i, j :: 0 <= i < j < |es| ==> es[i].asset != es[j].asset
  }

  /** Where a round stands: `next` is what it has found so far beyond the previous rounds. */
  ghost predicate Round(contacts: seq<Contact>, source: string, hop: nat, visited: set<string>, next: seq<string>, es: seq<Exposure>)
    requires hop >= 1
  {
    && visited == Ball(contacts, source, hop - 1) + (set y | y in next)
    && (forall y :: y in next ==> y in Ring(contacts, source, hop))
    && visited == Assets(es) + {source} && source !in Assets(es) && OncePerAsset(es)
    && (forall e :: e in es ==> Sound(contacts, source, e) && e.hops <= hop)
  }

  lemma NewNeighbour(contacts: seq<Contact>, source: string, hop: nat, cur: string, c: Contact)
    requires hop >= 1 && cur in Ring(contacts, source, hop - 1) && c in contacts
    requires Other(c, cur) != "" && Other(c, cur) !in Ball(contacts, source, hop - 1)
    ensures Other(c, cur) in Ring(contacts, source, hop) && Links(c, cur, Other(c, cur))
  {
    hide Ball, Neighbours;
    var y := Other(c, cur);
    assert Links(c, cur, y) && Touch(contacts, cur, y);
    NeighboursTouch(contacts, cur, y);
    RingInBall(contacts, source, hop - 1, cur);
    NeighbourInBall(contacts, source, hop, cur, y);
  }

  lemma RingInBall(contacts: seq<Contact>, source: string, n: nat, x: string)
    requires x in Ring(contacts, source, n)
    ensures x in Ball(contacts, source, n)
  {
  }

  lemma NeighbourInBall(contacts: seq<Contact>, source: string, n: nat, x: string, y: string)
    requires n >= 1 && x in Ball(contacts, source, n - 1) && y in Neighbours(contacts, x)
    ensures y in Ball(contacts, source, n)
  {
    hide Neighbours;
  }

  /** When every asset of the last ring has been searched from, the round has found the whole next ball. */
  lemma RoundComplete(contacts: seq<Contact>, source: string, hop: nat, visited: set<string>, next: seq<string>)
    requires hop >= 1
    requires visited == Ball(contacts, source, hop - 1) + (set y | y in next)
    requires forall y :: y in next ==> y in Ring(contacts, source, hop)
    requires forall x, y :: x in Ring(contacts, source, hop - 1) && y in Neighbours(contacts, x) ==> y in visited
    ensures visited == Ball(contacts, source, hop)
    ensures forall y :: y in next <==> y in Ring(contacts, source, hop)
  {
    hide Neighbours;
    var inner := Ball(contacts, source, hop - 1);
    forall x, y | x in inner && y in Neighbours(contacts, x) ensures y in visited {
      if x !in Ring(contacts, source, hop - 1) {
        NeighbourInBall(contacts, source, hop - 1, x, y);
      }
    }
  }

  /** Records the unvisited assets one frontier asset is in contact with. */
  method SearchFrom(contacts: seq<Contact>, source: string, hop: nat, cur: string, visited: set<string>, next: seq<string>, es: seq<Exposure>)
    returns (visited': set<string>, next': seq<string>, es': seq<Exposure>)
    requires hop >= 1 && Round(contacts, source, hop, visited, next, es) && cur in Ring(contacts, source, hop - 1)
    ensures Round(contacts, source, hop, visited', next', es') && visited <= visited'
    ensures forall y :: y in Neighbours(contacts, cur) ==> y in visited'
  {
    hide Ball, Ring, ScoreAt;
    visited', next', es' := visited, next, es;
    for i := 0 to |contacts|
      invariant Round(contacts, source, hop, visited', next', es') && visited <= visited'
      invariant forall j :: 0 <= j < i && Other(contacts[j], cur) != "" ==> Other(contacts[j], cur) in visited'
    {
      var c := contacts[i];
      var other := Other(c, cur);
      if other != "" && other !in visited' {
        NewNeighbour(contacts, source, hop, cur, c);
        var score := ContactExposureScore(c, hop);
        var e := Exposure(other, cur, hop, c, score, SeverityOf(score));
        RoundAdds(contacts, source, hop, visited', next', es', e);
        visited' := visited' + {other};
        es' := es' + [e];
        next' := next' + [other];
      }
    }
    RingInBall(contacts, source, hop - 1, cur);
    AllSeen(contacts, cur, visited');
  }

  lemma AllSeen(contacts: seq<Contact>, cur: string, visited: set<string>)
    requires forall j :: 0 <= j < |contacts| && Other(contacts[j], cur) != "" ==> Other(contacts[j], cur) in visited
    requires cur in visited
    ensures forall y :: y in Neighbours(contacts, cur) ==> y in visited
  {
    forall y | y in Neighbours(contacts, cur) ensures y in visited {
      NeighboursTouch(contacts, cur, y);
      var c :| c in contacts && Links(c, cur, y);
      var j :| 0 <= j < |contacts| && contacts[j] == c;
      assert Other(contacts[j], cur) == y || y == cur;
    }
  }

  lemma RoundAdds(contacts: seq<Contact>, source: string, hop: nat, visited: set<string>, next: seq<string>, es: seq<Exposure>, e: Exposure)
    requires hop >= 1 && Round(contacts, source, hop, visited, next, es)
    requires e.asset !in visited && e.hops == hop && Sound(contacts, source, e)
    ensures Round(contacts, source, hop, visited + {e.asset}, next + [e.asset], es + [e])
  {
    hide Ball, Ring, Sound, ScoreAt;
    SoundAsset(contacts, source, e);
    assert forall x :: x in es + [e] <==> x in es || x == e;
    assert Assets(es + [e]) == Assets(es) + {e.asset};
    assert (set y | y in next + [e.asset]) == (set y | y in next) + {e.asset};
    forall i | 0 <= i < |es| ensures es[i].asset != e.asset { assert es[i] in es && es[i].asset in Assets(es); }
  }

  lemma SoundAsset(contacts: seq<Contact>, source: string, e: Exposure)
    requires Sound(contacts, source, e)
    ensures e.asset in Ring(contacts, source, e.hops)
  {
  }

  function ClampHops(requested: int): nat { if requested < 1 then 1 else if requested > 3 then 3 else requested }

  /** The hop limit is the nearest one to that asked for within one to three. */
  lemma HopsClamped(requested: int, other: int)
    requires 1 <= other <= 3
    ensures 1 <= ClampHops(requested) <= 3
    ensures (if requested <= other then requested <= ClampHops(requested) <= other || requested < 1 == ClampHops(requested)
             else other <= ClampHops(requested) <= requested)
  {
  }

  predicate MoreExposed(x: Exposure, y: Exposure) { x.score > y.score }

  lemma ExposuresRank()
    ensures Ranks(MoreExposed)
  {
  }

  lemma FirstRing(contacts: seq<Contact>, source: string)
    ensures Ring(contacts, source, 0) == {source} && Round(contacts, source, 1, {source}, [], [])
  {
  }

  lemma NextRound(contacts: seq<Contact>, source: string, hop: nat, visited: set<string>, next: seq<string>, es: seq<Exposure>)
    requires hop >= 1 && Round(contacts, source, hop, visited, next, es) && visited == Ball(contacts, source, hop)
    ensures Round(contacts, source, hop + 1, visited, [], es)
  {
    hide Ball, Ring, Sound;
  }

  lemma {:induction false} InSomeRing(contacts: seq<Contact>, source: string, n: nat, y: string)
    ensures y in Ball(contacts, source, n) <==> exists k: nat :: k <= n && y in Ring(contacts, source, k)
  {
    if n > 0 { InSomeRing(contacts, source, n - 1, y); }
    if y in Ball(contacts, source, n) && (n == 0 || y !in Ball(contacts, source, n - 1)) {
      assert y in Ring(contacts, source, n);
    }
    if k: nat :| k <= n && y in Ring(contacts, source, k) {
      RingInBall(contacts, source, k, y);
      BallGrows(contacts, source, k, n);
    }
  }

  lemma Complete(contacts: seq<Contact>, source: string, n: nat, visited: set<string>, es: seq<Exposure>)
    requires Round(contacts, source, n + 1, visited, [], es)
    ensures forall y :: y in Assets(es) <==> y != source && exists k: nat :: k <= n && Distance(contacts, source, y, k)
  {
    hide Ball, Ring, Sound, Distance;
    forall y ensures y in Assets(es) <==> y != source && exists k: nat :: k <= n && Distance(contacts, source, y, k) {
      InSomeRing(contacts, source, n, y);
      forall k: nat ensures y in Ring(contacts, source, k) <==> Distance(contacts, source, y, k) { RingIsDistance(contacts, source, y, k); }
    }
  }

  lemma {:induction false} NoRepeats(es: seq<Exposure>, e: Exposure)
    requires OncePerAsset(es)
    ensures multiset(es)[e] <= 1
  {
    if es != [] {
      var n := |es| - 1;
      NoRepeats(es[..n], e);
      assert es == es[..n] + [es[n]];
      if e in es[..n] { var i :| 0 <= i < n && es[i] == e; assert es[i].asset != es[n].asset; }
    }
  }

  /** Sorting cannot introduce a repetition. */
  lemma SortedOnce(es: seq<Exposure>, r: seq<Exposure>)
    requires OncePerAsset(es) && multiset(r) == multiset(es)
    ensures OncePerAsset(r) && forall e :: e in r <==> e in es
  {
    forall e ensures e in r <==> e in es { assert e in multiset(r) <==> e in multiset(es); }
    forall i, j | 0 <= i < j < |r| ensures r[i].asset != r[j].asset {
      NoRepeats(es, r[i]);
      CountsTwice(r, i, j);
      assert r[i] in r && r[j] in r;
      var k :| 0 <= k < |es| && es[k] == r[i];
      var l :| 0 <= l < |es| && es[l] == r[j];
    }
  }

  lemma CountsTwice<T>(r: seq<T>, i: nat, j: nat)
    requires i < j < |r|
    ensures r[i] == r[j] ==> multiset(r)[r[i]] >= 2
  {
    assert r == r[..j] + r[j..];
    assert r[i] == r[..j][i] && r[i] in r[..j];
    assert r[j] == r[j..][0] && r[j] in r[j..];
  }

  /** Traces contacts for at most three rounds: every asset within that distance is recorded exactly once, at its
      true distance and with a parent one hop closer, no other asset is, and the worst exposures come first. */
  method CreateContactTrace(contacts: seq<Contact>, source: string, hops: int) returns (exposures: seq<Exposure>)
    ensures OncePerAsset(exposures) && Ranked(exposures, MoreExposed)
    ensures forall e :: e in exposures ==> Sound(contacts, source, e) && e.hops <= ClampHops(hops)
    ensures forall y :: y in Assets(exposures) <==> y != source && exists n: nat :: n <= ClampHops(hops) && Distance(contacts, source, y, n)
  {
    hide Ball, Ring, Neighbours, Sound;
    var frontier, visited := [source], {source};
    var es: seq<Exposure> := [];
    FirstRing(contacts, source);
    var hop := 1;
    while hop <= ClampHops(hops)
      invariant 1 <= hop <= ClampHops(hops) + 1
      invariant Round(contacts, source, hop, visited, [], es)
      invariant forall y :: y in frontier <==> y in Ring(contacts, source, hop - 1)
      invariant forall e :: e in es ==> e.hops < hop
    {
      var next: seq<string> := [];
      for i := 0 to |frontier|
        invariant Round(contacts, source, hop, visited, next, es)
        invariant forall j, y :: 0 <= j < i && y in Neighbours(contacts, frontier[j]) ==> y in visited
      {
        assert frontier[i] in frontier;
        visited, next, es := SearchFrom(contacts, source, hop, frontier[i], visited, next, es);
      }
      forall x, y | x in Ring(contacts, source, hop - 1) && y in Neighbours(contacts, x) ensures y in visited {
        assert x in frontier;
        var j :| 0 <= j < |frontier| && frontier[j] == x;
      }
      RoundComplete(contacts, source, hop, visited, next);
      NextRound(contacts, source, hop, visited, next, es);
      frontier := next;
      hop := hop + 1;
    }
    Complete(contacts, source, ClampHops(hops), visited, es);
    ExposuresRank();
    exposures := Sort(es, MoreExposed);
    SortedOnce(es, exposures);
    assert forall y :: y in Assets(exposures) <==> y in Assets(es);
  }
}
