/**
  Observed IT-to-OT attack paths: a bounded breadth-first enumeration of simple paths from one asset to the
  first OT targets it reaches, and the score each path is given.
*/
module AttackPaths {
  import opened Options
  import opened Permutations
  import opened Ranking
  import opened Stats

  datatype Node = Node(
    purdue: Option<real>, overridden: bool, role: string, critical: bool, isOT: bool, isTarget: bool)

  datatype Edge = Edge(
    initiator: string, responder: string, protocol: string, port: nat, packetsAToB: nat, packetsBToA: nat, isOT: bool)

  /** Edges are the groups of one aggregation query, so no two are equal. */
  datatype Graph = Graph(nodes: map<string, Node>, edges: seq<Edge>)

  type Path = seq<Edge>

  predicate IsTarget(n: Node) { n.isTarget || n.isOT || (n.purdue.Some? && n.purdue.value <= 2.0) }

  predicate IsIT(n: Node) { n.purdue.Some? && n.purdue.value >= 4.0 }

  predicate IsDMZ(n: Node) { n.purdue.Some? && -0.01 < n.purdue.value - 3.5 < 0.01 }

  predicate TargetAt(g: Graph, ip: string) { ip in g.nodes && IsTarget(g.nodes[ip]) }

  // ---------- What is searched for ----------

  /** The `i`th asset a path visits. */
  function Stop(source: string, p: Path, i: nat): string
    requires i <= |p|
  {
    if i == 0 then source else p[i-1].responder
  }

  /** The addresses a path visits. */
  function Ips(source: string, p: Path): (r: seq<string>)
    ensures |r| == |p| + 1
  {
    seq(|p| + 1, i requires 0 <= i <= |p| => Stop(source, p, i))
  }

  /** Hop `i` follows an observed edge from where the path stands to a known asset. */
  ghost predicate Linked(g: Graph, source: string, p: Path, i: nat)
    requires i < |p|
  {
    p[i] in g.edges && p[i].responder in g.nodes && p[i].initiator == Stop(source, p, i)
  }

  /** A connected walk over observed edges between known assets that visits no asset twice. */
  ghost predicate SimplePath(g: Graph, source: string, p: Path) {
    && (forall i :: 0 <= i < |p| ==> Linked(g, source, p, i))
    && (forall i, j :: 0 <= i < j <= |p| ==> Stop(source, p, i) != Stop(source, p, j))
  }

  /** No asset on the path before its end, other than the source, is a target. */
  ghost predicate Avoids(g: Graph, p: Path) {
    forall i :: 0 <= i < |p| - 1 ==> !TargetAt(g, p[i].responder)
  }

  /** A path the search looks for: within the hop limit it ends at its first target after the source. */
  ghost predicate Goal(g: Graph, source: string, maxHops: nat, p: Path) {
    1 <= |p| <= maxHops && SimplePath(g, source, p) && Avoids(g, p) && TargetAt(g, p[|p|-1].responder)
  }

  /** A path the search may hold in its queue. */
  ghost predicate Partial(g: Graph, source: string, maxHops: nat, p: Path) {
    |p| <= maxHops && SimplePath(g, source, p) && Avoids(g, p)
  }

  // ---------- The queue ----------

  /** No path of the queue continues another, or a path already found. */
  ghost predicate Antichain(q: seq<Path>, found: seq<Path>) {
    && (forall i, j :: 0 <= i < |q| && 0 <= j < |q| && i != j ==> !(q[i] <= q[j]))
    && (forall i, j :: 0 <= i < |q| && 0 <= j < |found| ==> !(q[i] <= found[j]))
    && Distinct(found)
  }

  ghost predicate Covered(g: Graph, source: string, maxHops: nat, q: seq<Path>, found: seq<Path>) {
    forall p :: Goal(g, source, maxHops, p) ==> p in found || exists i :: 0 <= i < |q| && q[i] <= p
  }

  /** Breadth first: lengths never fall along what was found and what still waits, and differ by at most one hop. */
  ghost predicate ByLength(q: seq<Path>, found: seq<Path>) {
    && (forall i, j :: 0 <= i < j < |q| ==> |q[i]| <= |q[j]| <= |q[i]| + 1)
    && (forall i, j :: 0 <= i < j < |found| ==> |found[i]| <= |found[j]|)
    && (forall i, j :: 0 <= i < |found| && 0 <= j < |q| ==> |found[i]| <= |q[j]|)
  }

  /** The children of a path in the order of the edges. */
  function Children(g: Graph, source: string, p: Path, edges: seq<Edge>): seq<Path> {
    if edges == [] then []
    else
      var e := edges[|edges|-1];
      Children(g, source, p, edges[..|edges|-1]) + if Extends(g, source, p, e) then [p + [e]] else []
  }

  predicate Extends(g: Graph, source: string, p: Path, e: Edge) {
    e.initiator == Stop(source, p, |p|) && e.responder !in Ips(source, p) && e.responder in g.nodes
  }

  predicate ChildOf(g: Graph, source: string, p: Path, edges: seq<Edge>, x: Path) {
    |x| == |p| + 1 && p <= x && x[|p|] in edges && Extends(g, source, p, x[|p|])
  }

  lemma {:induction false} ChildrenAre(g: Graph, source: string, p: Path, edges: seq<Edge>, x: Path)
    ensures x in Children(g, source, p, edges) <==> ChildOf(g, source, p, edges, x)
  {
    hide Extends;
    if edges != [] {
      var before, e := edges[..|edges|-1], edges[|edges|-1];
      ChildrenAre(g, source, p, before, x);
      assert edges == before + [e];
      if |x| == |p| + 1 && p <= x { assert x == p + [x[|p|]]; }
    }
  }

  lemma ChildAt(g: Graph, source: string, p: Path, i: nat)
    requires i < |Children(g, source, p, g.edges)|
    ensures ChildOf(g, source, p, g.edges, Children(g, source, p, g.edges)[i])
  {
    ChildrenAre(g, source, p, g.edges, Children(g, source, p, g.edges)[i]);
  }

  lemma {:induction false} ChildrenDistinct(g: Graph, source: string, p: Path, edges: seq<Edge>)
    requires Distinct(edges)
    ensures Distinct(Children(g, source, p, edges)) && |Children(g, source, p, edges)| <= |edges|
  {
    hide Extends;
    if edges != [] {
      var before, e := edges[..|edges|-1], edges[|edges|-1];
      ChildrenDistinct(g, source, p, before);
      ChildrenAre(g, source, p, before, p + [e]);
      assert (p + [e])[|p|] == e;
      assert e !in before;
    }
  }

  lemma PrefixStops(source: string, a: Path, b: Path, i: nat)
    requires a <= b && i <= |a|
    ensures Stop(source, b, i) == Stop(source, a, i)
  {
  }

  lemma InIps(source: string, p: Path, ip: string)
    ensures ip in Ips(source, p) <==> exists i :: 0 <= i <= |p| && Stop(source, p, i) == ip
  {
    hide Stop;
    if i :| 0 <= i <= |p| && Stop(source, p, i) == ip { assert Ips(source, p)[i] == ip; }
  }

  lemma NextHopExtends(g: Graph, source: string, cur: Path, p: Path)
    requires SimplePath(g, source, p) && cur <= p && |cur| < |p|
    ensures Extends(g, source, cur, p[|cur|]) && p[|cur|] in g.edges
  {
    var n := |cur|;
    assert Linked(g, source, p, n);
    PrefixStops(source, cur, p, n);
    InIps(source, cur, p[n].responder);
    hide Ips;
    assert p[n].responder == Stop(source, p, n + 1);
    forall i | 0 <= i <= n ensures Stop(source, cur, i) != p[n].responder { PrefixStops(source, cur, p, i); }
  }

  /** A goal that properly extends a path runs through one of the path's children. */
  lemma NextHopIsChild(g: Graph, source: string, maxHops: nat, cur: Path, p: Path)
    requires Goal(g, source, maxHops, p) && cur <= p && |cur| < |p|
    ensures p[..|cur|+1] in Children(g, source, cur, g.edges)
  {
    NextHopExtends(g, source, cur, p);
    hide Extends;
    ChildrenAre(g, source, cur, g.edges, p[..|cur|+1]);
  }

  lemma ChildIsPartial(g: Graph, source: string, maxHops: nat, cur: Path, x: Path)
    requires Partial(g, source, maxHops, cur) && |cur| < maxHops && (cur == [] || !TargetAt(g, cur[|cur|-1].responder))
    requires ChildOf(g, source, cur, g.edges, x)
    ensures Partial(g, source, maxHops, x)
  {
    var e, n := x[|cur|], |cur|;
    assert x[..n] == cur;
    InIps(source, cur, e.responder);
    hide Ips;
    forall i | 0 <= i < |x| ensures Linked(g, source, x, i) {
      PrefixStops(source, cur, x, i);
      assert i < n ==> Linked(g, source, cur, i);
    }
    forall i, j | 0 <= i < j <= |x| ensures Stop(source, x, i) != Stop(source, x, j) {
      PrefixStops(source, cur, x, i);
      if j <= n { PrefixStops(source, cur, x, j); } else { assert Stop(source, x, j) == e.responder; }
    }
  }

  lemma AntichainPop(q: seq<Path>, found: seq<Path>)
    requires Antichain(q, found) && q != []
    ensures Antichain(q[1..], found)
  {
  }

  lemma AntichainFind(q: seq<Path>, found: seq<Path>)
    requires Antichain(q, found) && q != []
    ensures Antichain(q[1..], found + [q[0]])
  {
    forall j | 0 <= j < |found| ensures found[j] != q[0] { assert !(q[0] <= found[j]); }
  }

  lemma PrefixOfChild(x: Path, cur: Path, child: Path)
    requires |child| == |cur| + 1 && cur <= child
    ensures x <= child <==> x <= cur || x == child
    ensures child <= x ==> cur <= x
  {
    if x <= child && x != child { assert x == child[..|x|] && cur == child[..|cur|]; }
  }

  lemma AntichainExpand(g: Graph, source: string, q: seq<Path>, found: seq<Path>)
    requires Antichain(q, found) && q != [] && Distinct(g.edges)
    ensures Antichain(q[1..] + Children(g, source, q[0], g.edges), found)
  {
    var cur, rest, xs := q[0], q[1..], Children(g, source, q[0], g.edges);
    ChildrenDistinct(g, source, cur, g.edges);
    forall i | 0 <= i < |xs| ensures |xs[i]| == |cur| + 1 && cur <= xs[i] { ChildAt(g, source, cur, i); }
    hide Children;
    ReplaceByChildren(cur, rest, xs, found);
  }

  lemma ReplaceByChildren(cur: Path, rest: seq<Path>, xs: seq<Path>, found: seq<Path>)
    requires Antichain([cur] + rest, found) && Distinct(xs)
    requires forall i :: 0 <= i < |xs| ==> |xs[i]| == |cur| + 1 && cur <= xs[i]
    ensures Antichain(rest + xs, found)
  {
    var q, next := [cur] + rest, rest + xs;
    forall i | 0 <= i < |rest|
      ensures !(rest[i] <= cur) && !(cur <= rest[i])
      ensures forall j :: 0 <= j < |rest| && i != j ==> !(rest[i] <= rest[j])
      ensures forall j :: 0 <= j < |found| ==> !(rest[i] <= found[j])
    {
      assert q[i+1] == rest[i] && q[0] == cur;
      forall j | 0 <= j < |rest| && i != j ensures !(rest[i] <= rest[j]) { assert !(q[i+1] <= q[j+1]); }
    }
    forall i, j | 0 <= i < |xs| && 0 <= j < |rest| ensures !(rest[j] <= xs[i]) && !(xs[i] <= rest[j]) {
      PrefixOfChild(rest[j], cur, xs[i]);
    }
    forall i, j | 0 <= i < |xs| && 0 <= j < |xs| && i != j ensures !(xs[i] <= xs[j]) {
      PrefixOfChild(xs[i], cur, xs[j]);
    }
    forall i, j | 0 <= i < |xs| && 0 <= j < |found| ensures !(xs[i] <= found[j]) {
      PrefixOfChild(found[j], cur, xs[i]);
      assert !(q[0] <= found[j]);
    }
  }

  // ---------- Termination ----------

  /** More than the number of queue entries a path with `hops` hops left can still cause. */
  function Weight(hops: nat, fanout: nat): (w: nat)
    ensures w >= 1
  {
    if hops == 0 then 1 else 1 + fanout * Weight(hops - 1, fanout)
  }

  function Remaining(maxHops: nat, p: Path): nat { if |p| <= maxHops then maxHops - |p| else 0 }

  function Work(q: seq<Path>, maxHops: nat, fanout: nat): nat {
    if q == [] then 0 else Work(q[..|q|-1], maxHops, fanout) + Weight(Remaining(maxHops, q[|q|-1]), fanout)
  }

  lemma {:induction false} WorkConcat(a: seq<Path>, b: seq<Path>, maxHops: nat, fanout: nat)
    ensures Work(a + b, maxHops, fanout) == Work(a, maxHops, fanout) + Work(b, maxHops, fanout)
  {
    if b == [] { assert a + b == a; }
    else {
      WorkConcat(a, b[..|b|-1], maxHops, fanout);
      assert (a + b)[..|a + b|-1] == a + b[..|b|-1];
    }
  }

  lemma {:induction false} WorkOfEqualLengths(q: seq<Path>, maxHops: nat, fanout: nat, n: nat)
    requires forall i :: 0 <= i < |q| ==> |q[i]| == n
    ensures Work(q, maxHops, fanout) == |q| * Weight(if n <= maxHops then maxHops - n else 0, fanout)
  {
    if q != [] { WorkOfEqualLengths(q[..|q|-1], maxHops, fanout, n); }
  }

  lemma Scaled(a: nat, b: nat, w: nat)
    requires a <= b
    ensures a * w <= b * w
  {
  }

  lemma WorkPop(q: seq<Path>, maxHops: nat, fanout: nat)
    requires q != []
    ensures Work(q, maxHops, fanout) == Weight(Remaining(maxHops, q[0]), fanout) + Work(q[1..], maxHops, fanout)
  {
    assert q == [q[0]] + q[1..];
    WorkConcat([q[0]], q[1..], maxHops, fanout);
    assert [q[0]][..0] == [];
  }

  lemma WorkShrinks(g: Graph, source: string, q: seq<Path>, maxHops: nat)
    requires q != [] && |q[0]| < maxHops && Distinct(g.edges)
    ensures Work(q[1..] + Children(g, source, q[0], g.edges), maxHops, |g.edges|) < Work(q, maxHops, |g.edges|)
  {
    var xs, n := Children(g, source, q[0], g.edges), |g.edges|;
    ChildrenDistinct(g, source, q[0], g.edges);
    forall i | 0 <= i < |xs| ensures |xs[i]| == |q[0]| + 1 { ChildAt(g, source, q[0], i); }
    hide Children, Work, Distinct;
    WorkPop(q, maxHops, n);
    WorkConcat(q[1..], xs, maxHops, n);
    WorkOfEqualLengths(xs, maxHops, n, |q[0]| + 1);
    Scaled(|xs|, n, Weight(maxHops - |q[0]| - 1, n));
  }

  // ---------- One iteration ----------

  ghost predicate Searching(g: Graph, source: string, maxHops: nat, q: seq<Path>, found: seq<Path>) {
    && (forall i :: 0 <= i < |q| ==> Partial(g, source, maxHops, q[i]))
    && (forall i :: 0 <= i < |found| ==> Goal(g, source, maxHops, found[i]))
    && Antichain(q, found) && Covered(g, source, maxHops, q, found) && ByLength(q, found)
  }

  predicate EndsAtTarget(g: Graph, p: Path) { p != [] && TargetAt(g, p[|p|-1].responder) }

  /** Taking the front path off the queue loses no goal other than itself and those through its children. */
  lemma CoverPop(g: Graph, source: string, maxHops: nat, q: seq<Path>, found: seq<Path>, p: Path)
    requires q != [] && Covered(g, source, maxHops, q, found) && Goal(g, source, maxHops, p)
    ensures p in found || q[0] <= p || exists i :: 0 <= i < |q[1..]| && q[1..][i] <= p
  {
    if p !in found {
      var i :| 0 <= i < |q| && q[i] <= p;
      if i > 0 { assert q[1..][i-1] == q[i]; }
    }
  }

  /** A goal that begins with a path reaching a target is that path. */
  lemma GoalStopsAtTarget(g: Graph, source: string, maxHops: nat, cur: Path, p: Path)
    requires Goal(g, source, maxHops, p) && cur <= p && EndsAtTarget(g, cur)
    ensures p == cur
  {
    assert p[|cur|-1] == cur[|cur|-1];
  }

  lemma GoalGoesOn(g: Graph, source: string, maxHops: nat, cur: Path, p: Path)
    requires Goal(g, source, maxHops, p) && cur <= p && !EndsAtTarget(g, cur)
    ensures |cur| < |p| <= maxHops
  {
    assert |cur| == |p| ==> cur == p;
  }

  lemma FoundStep(g: Graph, source: string, maxHops: nat, q: seq<Path>, found: seq<Path>)
    requires Searching(g, source, maxHops, q, found) && q != [] && EndsAtTarget(g, q[0])
    ensures Searching(g, source, maxHops, q[1..], found + [q[0]])
  {
    hide SimplePath;
    var cur := q[0];
    AntichainFind(q, found);
    assert Goal(g, source, maxHops, cur);
    forall p | Goal(g, source, maxHops, p)
      ensures p in found + [cur] || exists i :: 0 <= i < |q[1..]| && q[1..][i] <= p
    {
      CoverPop(g, source, maxHops, q, found, p);
      assert (found + [cur])[|found|] == cur;
      if cur <= p { GoalStopsAtTarget(g, source, maxHops, cur, p); }
    }
    hide Antichain, Partial, Goal;
  }

  lemma LimitStep(g: Graph, source: string, maxHops: nat, q: seq<Path>, found: seq<Path>)
    requires Searching(g, source, maxHops, q, found) && q != [] && !EndsAtTarget(g, q[0]) && |q[0]| >= maxHops > 0
    ensures Searching(g, source, maxHops, q[1..], found)
  {
    hide SimplePath;
    AntichainPop(q, found);
    forall p | Goal(g, source, maxHops, p)
      ensures p in found || exists i :: 0 <= i < |q[1..]| && q[1..][i] <= p
    {
      CoverPop(g, source, maxHops, q, found, p);
      if q[0] <= p { GoalGoesOn(g, source, maxHops, q[0], p); }
    }
    hide Antichain, Partial, Goal;
  }

  lemma ExpandCovers(g: Graph, source: string, maxHops: nat, q: seq<Path>, found: seq<Path>)
    requires Covered(g, source, maxHops, q, found) && q != [] && !EndsAtTarget(g, q[0])
    ensures Covered(g, source, maxHops, q[1..] + Children(g, source, q[0], g.edges), found)
  {
    hide SimplePath, Avoids, Children;
    var cur, xs := q[0], Children(g, source, q[0], g.edges);
    var next := q[1..] + xs;
    forall p | Goal(g, source, maxHops, p) && p !in found ensures exists i :: 0 <= i < |next| && next[i] <= p {
      CoverPop(g, source, maxHops, q, found, p);
      if i :| 0 <= i < |q[1..]| && q[1..][i] <= p {
        assert next[i] <= p;
      } else {
        GoalGoesOn(g, source, maxHops, cur, p);
        NextHopIsChild(g, source, maxHops, cur, p);
        var i :| 0 <= i < |xs| && xs[i] == p[..|cur|+1];
        assert next[|q[1..]|+i] <= p;
      }
    }
  }

  lemma ExpandLengths(cur: Path, rest: seq<Path>, xs: seq<Path>, found: seq<Path>)
    requires ByLength([cur] + rest, found) && forall i :: 0 <= i < |xs| ==> |xs[i]| == |cur| + 1
    ensures ByLength(rest + xs, found)
  {
    var q, next := [cur] + rest, rest + xs;
    forall i | 0 <= i < |next| ensures |cur| <= |next[i]| <= |cur| + 1 && (i >= |rest| ==> |next[i]| == |cur| + 1) {
      if i < |rest| { assert |q[0]| <= |q[i+1]| <= |q[0]| + 1 && q[i+1] == next[i]; }
    }
    forall i, j | 0 <= i < j < |next| ensures |next[i]| <= |next[j]| <= |next[i]| + 1 {
      if j < |rest| { assert |q[i+1]| <= |q[j+1]| && q[i+1] == next[i] && q[j+1] == next[j]; }
    }
    forall i, j | 0 <= i < |found| && 0 <= j < |next| ensures |found[i]| <= |next[j]| { assert |found[i]| <= |q[0]|; }
  }

  lemma ExpandStep(g: Graph, source: string, maxHops: nat, q: seq<Path>, found: seq<Path>)
    requires Searching(g, source, maxHops, q, found) && q != [] && !EndsAtTarget(g, q[0]) && |q[0]| < maxHops && Distinct(g.edges)
    ensures Searching(g, source, maxHops, q[1..] + Children(g, source, q[0], g.edges), found)
  {
    var cur, xs := q[0], Children(g, source, q[0], g.edges);
    AntichainExpand(g, source, q, found);
    ExpandCovers(g, source, maxHops, q, found);
    forall i | 0 <= i < |xs| ensures Partial(g, source, maxHops, xs[i]) && |xs[i]| == |cur| + 1 {
      ChildAt(g, source, cur, i);
      ChildIsPartial(g, source, maxHops, cur, xs[i]);
    }
    hide Children, Partial, Goal, Antichain, Covered, Distinct;
    assert q == [cur] + q[1..];
    ExpandLengths(cur, q[1..], xs, found);
    hide ByLength;
  }

  lemma StartSearching(g: Graph, source: string, maxHops: nat)
    ensures Searching(g, source, maxHops, [[]], [])
  {
    var q: seq<Path> := [[]];
    forall p | Goal(g, source, maxHops, p) ensures exists i :: 0 <= i < |q| && q[i] <= p {
      assert q[0] <= p;
    }
  }

  /** The result of a search: goals only, each once, shortest first; if the search stopped early, nothing it left
      out is shorter than anything it returned, and otherwise nothing is left out. */
  ghost predicate SearchResult(g: Graph, source: string, maxHops: nat, maxPaths: nat, found: seq<Path>) {
    && |found| <= maxPaths && Distinct(found)
    && (forall i :: 0 <= i < |found| ==> Goal(g, source, maxHops, found[i]))
    && (forall i, j :: 0 <= i < j < |found| ==> |found[i]| <= |found[j]|)
    && (|found| < maxPaths ==> forall p :: Goal(g, source, maxHops, p) ==> p in found)
    && (forall p, i :: Goal(g, source, maxHops, p) && p !in found && 0 <= i < |found| ==> |found[i]| <= |p|)
  }

  lemma DoneSearching(g: Graph, source: string, maxHops: nat, maxPaths: nat, q: seq<Path>, found: seq<Path>)
    requires Searching(g, source, maxHops, q, found) && |found| <= maxPaths && (q == [] || |found| == maxPaths)
    ensures SearchResult(g, source, maxHops, maxPaths, found)
  {
    hide SimplePath, Avoids;
    forall p, i | Goal(g, source, maxHops, p) && p !in found && 0 <= i < |found| ensures |found[i]| <= |p| {
      var j :| 0 <= j < |q| && q[j] <= p;
      assert |q[j]| <= |p|;
    }
  }

  // ---------- The search ----------

  /** The edges leaving an asset, in order. */
  function Leaving(edges: seq<Edge>, ip: string): seq<Edge> {
    if edges == [] then []
    else Leaving(edges[..|edges|-1], ip) + if edges[|edges|-1].initiator == ip then [edges[|edges|-1]] else []
  }

  function Listed(adj: map<string, seq<Edge>>, ip: string): seq<Edge> { if ip in adj then adj[ip] else [] }

  method BuildAdjacency(edges: seq<Edge>) returns (adj: map<string, seq<Edge>>)
    ensures forall ip :: Listed(adj, ip) == Leaving(edges, ip)
  {
    adj := map[];
    for i := 0 to |edges|
      invariant forall ip :: Listed(adj, ip) == Leaving(edges[..i], ip)
    {
      assert edges[..i+1][..i] == edges[..i];
      var ip := edges[i].initiator;
      adj := adj[ip := Listed(adj, ip) + [edges[i]]];
    }
    assert edges[..|edges|] == edges;
  }

  lemma ChildrenNext(g: Graph, source: string, p: Path, before: seq<Edge>, e: Edge)
    ensures Children(g, source, p, before + [e]) == Children(g, source, p, before) + if Extends(g, source, p, e) then [p + [e]] else []
  {
    hide Extends;
    assert (before + [e])[..|before|] == before;
  }

  /** Only the edges leaving the path's end can extend it. */
  lemma {:induction false} ChildrenFromAdjacency(g: Graph, source: string, p: Path, edges: seq<Edge>)
    ensures Children(g, source, p, Leaving(edges, Stop(source, p, |p|))) == Children(g, source, p, edges)
  {
    if edges != [] {
      hide Children, Ips;
      var before, e := edges[..|edges|-1], edges[|edges|-1];
      assert edges == before + [e];
      ChildrenFromAdjacency(g, source, p, before);
      ChildrenNext(g, source, p, before, e);
      ChildrenNext(g, source, p, Leaving(before, Stop(source, p, |p|)), e);
      if e.initiator != Stop(source, p, |p|) {
        assert Leaving(edges, Stop(source, p, |p|)) == Leaving(before, Stop(source, p, |p|));
      }
    }
  }

  /** Appends the unvisited known neighbours of the path's end. */
  method Expand(g: Graph, source: string, cur: Path, edges: seq<Edge>) returns (xs: seq<Path>)
    requires forall e :: e in edges ==> e.initiator == Stop(source, cur, |cur|)
    ensures xs == Children(g, source, cur, edges)
  {
    xs := [];
    var ips := Ips(source, cur);
    for i := 0 to |edges|
      invariant xs == Children(g, source, cur, edges[..i])
    {
      assert edges[..i+1][..i] == edges[..i];
      var e, seen, j := edges[i], false, 0;
      while j < |ips| && !seen
        invariant 0 <= j <= |ips| && (seen <==> e.responder in ips[..j])
      {
        seen := ips[j] == e.responder;
        j := j + 1;
      }
      assert ips[..|ips|] == ips;
      if !seen && e.responder in g.nodes { xs := xs + [cur + [e]]; }
    }
    assert edges[..|edges|] == edges;
  }

  lemma {:induction false} LeavingStart(edges: seq<Edge>, ip: string)
    ensures forall e :: e in Leaving(edges, ip) ==> e.initiator == ip
  {
    if edges != [] { LeavingStart(edges[..|edges|-1], ip); }
  }

  method Search(g: Graph, source: string, maxHops: nat, maxPaths: nat) returns (found: seq<Path>)
    requires Distinct(g.edges) && maxHops > 0
    ensures SearchResult(g, source, maxHops, maxPaths, found)
  {
    hide Searching, Children, Work, Ips, Distinct;
    var adj := BuildAdjacency(g.edges);
    var q: seq<Path> := [[]];
    found := [];
    StartSearching(g, source, maxHops);
    while |q| > 0 && |found| < maxPaths
      invariant Searching(g, source, maxHops, q, found) && |found| <= maxPaths
      decreases Work(q, maxHops, |g.edges|)
    {
      var cur := q[0];
      var last := Stop(source, cur, |cur|);
      WorkPop(q, maxHops, |g.edges|);
      if EndsAtTarget(g, cur) {
        FoundStep(g, source, maxHops, q, found);
        q, found := q[1..], found + [cur];
      } else if |cur| >= maxHops {
        LimitStep(g, source, maxHops, q, found);
        q := q[1..];
      } else {
        LeavingStart(g.edges, last);
        ChildrenFromAdjacency(g, source, cur, g.edges);
        var xs := Expand(g, source, cur, Listed(adj, last));
        WorkShrinks(g, source, q, maxHops);
        ExpandStep(g, source, maxHops, q, found);
        q := q[1..] + xs;
      }
    }
    DoneSearching(g, source, maxHops, maxPaths, q, found);
  }

  // ---------- Scoring ----------

  datatype Score = Score(risk: nat, confidence: nat, crosses: bool, bypassesDMZ: bool)

  predicate Administrative(port: nat) { port == 445 || port == 3389 || port == 22 || port == 5985 || port == 5986 }

  function NodeRisk(n: Node): nat { if n.critical then 15 else 0 }

  function NodeConfidence(n: Node): nat {
    (if n.overridden then 8 else 0) + if n.role != "unknown" && n.role != "" then 4 else 0
  }

  function EdgeRisk(e: Edge): nat { (if Administrative(e.port) then 18 else 0) + if e.isOT then 15 else 0 }

  /** The two packet counters are added in 64 bits. */
  function EdgeConfidence(e: Edge): nat {
    6 + if (e.packetsAToB + e.packetsBToA) % TWO_64 > 100 then 5 else 0
  }

  /** Hop `i` leads straight from an IT asset to an OT target. */
  predicate Direct(ns: seq<Node>, i: nat) { i + 1 < |ns| && IsIT(ns[i]) && IsTarget(ns[i+1]) }

  function NodeRisks(ns: seq<Node>): nat {
    if ns == [] then 0 else NodeRisks(ns[..|ns|-1]) + NodeRisk(ns[|ns|-1])
  }

  function NodeConfidences(ns: seq<Node>): nat {
    if ns == [] then 0 else NodeConfidences(ns[..|ns|-1]) + NodeConfidence(ns[|ns|-1])
  }

  function EdgeRisks(ns: seq<Node>, es: seq<Edge>): nat {
    if es == [] then 0
    else EdgeRisks(ns, es[..|es|-1]) + EdgeRisk(es[|es|-1]) + if Direct(ns, |es| - 1) then 30 else 0
  }

  function EdgeConfidences(es: seq<Edge>): nat {
    if es == [] then 0 else EdgeConfidences(es[..|es|-1]) + EdgeConfidence(es[|es|-1])
  }

  function AtMost100(n: nat): nat { if n > 100 then 100 else n }

  /** The path enters OT: some hop goes straight from IT to a target, or the path begins in IT and ends at a target. */
  ghost predicate Crosses(ns: seq<Node>, hops: nat) {
    || (exists i :: 0 <= i < hops && Direct(ns, i))
    || (|ns| > 1 && IsIT(ns[0]) && IsTarget(ns[|ns|-1]))
  }

  ghost predicate HasDMZ(ns: seq<Node>) { exists i :: 0 <= i < |ns| && IsDMZ(ns[i]) }

  ghost function ScoreOf(ns: seq<Node>, es: seq<Edge>): Score {
    var crosses := Crosses(ns, |es|);
    var bypasses := crosses && !HasDMZ(ns);
    Score(AtMost100(10 + NodeRisks(ns) + EdgeRisks(ns, es) + if bypasses then 20 else 0),
          AtMost100(30 + NodeConfidences(ns) + EdgeConfidences(es)), crosses, bypasses)
  }

  method ScorePath(ns: seq<Node>, es: seq<Edge>) returns (score: Score)
    ensures score == ScoreOf(ns, es)
  {
    hide IsDMZ, IsIT, IsTarget, NodeRisk, NodeConfidence, EdgeRisk, EdgeConfidence;
    var risk: nat, confidence: nat, crosses, hasDMZ := 10, 30, false, false;
    for i := 0 to |ns|
      invariant risk == 10 + NodeRisks(ns[..i]) && confidence == 30 + NodeConfidences(ns[..i])
      invariant hasDMZ <==> exists j :: 0 <= j < i && IsDMZ(ns[j])
    {
      assert ns[..i+1][..i] == ns[..i];
      if IsDMZ(ns[i]) { hasDMZ := true; }
      risk := risk + NodeRisk(ns[i]);
      confidence := confidence + NodeConfidence(ns[i]);
    }
    assert ns[..|ns|] == ns;
    for i := 0 to |es|
      invariant risk == 10 + NodeRisks(ns) + EdgeRisks(ns, es[..i])
      invariant confidence == 30 + NodeConfidences(ns) + EdgeConfidences(es[..i])
      invariant crosses <==> exists j :: 0 <= j < i && Direct(ns, j)
    {
      assert es[..i+1][..i] == es[..i];
      risk := risk + EdgeRisk(es[i]);
      if Direct(ns, i) {
        crosses := true;
        risk := risk + 30;
      }
      confidence := confidence + EdgeConfidence(es[i]);
    }
    assert es[..|es|] == es;
    if |ns| > 1 && IsIT(ns[0]) && IsTarget(ns[|ns|-1]) { crosses := true; }
    var bypasses := crosses && !hasDMZ;
    if bypasses { risk := risk + 20; }
    score := Score(AtMost100(risk), AtMost100(confidence), crosses, bypasses);
  }

  // ---------- What a score counts ----------

  function Criticals(ns: seq<Node>): set<nat> { set i | 0 <= i < |ns| && ns[i].critical }

  function Overridden(ns: seq<Node>): set<nat> { set i | 0 <= i < |ns| && ns[i].overridden }

  function WithRole(ns: seq<Node>): set<nat> { set i | 0 <= i < |ns| && ns[i].role != "" && ns[i].role != "unknown" }

  function AdminHops(es: seq<Edge>): set<nat> { set i | 0 <= i < |es| && es[i].port in {22, 445, 3389, 5985, 5986} }

  function OTHops(es: seq<Edge>): set<nat> { set i | 0 <= i < |es| && es[i].isOT }

  /** Hops with more than 100 packets, counted in 64 bits. */
  function BusyHops(es: seq<Edge>): set<nat> {
    set i | 0 <= i < |es| && (es[i].packetsAToB + es[i].packetsBToA) % 0x1_0000_0000_0000_0000 > 100
  }

  /** From an asset at level 4 or above straight to a target: marked, OT, or at level 2 or below. */
  predicate Straight(a: Node, b: Node) {
    && a.purdue.Some? && a.purdue.value >= 4.0
    && (b.isTarget || b.isOT || (b.purdue.Some? && b.purdue.value <= 2.0))
  }

  predicate StraightHop(ns: seq<Node>, i: nat) { i + 1 < |ns| && Straight(ns[i], ns[i+1]) }

  function DirectHops(ns: seq<Node>, hops: nat): set<nat> { set i: nat | i < hops && StraightHop(ns, i) }

  lemma OneMore(before: set<nat>, after: set<nat>, n: nat, more: bool)
    requires after == (if more then before + {n} else before) && n !in before
    ensures |after| == |before| + if more then 1 else 0
  {
  }

  lemma LastNodeCounts(ns: seq<Node>)
    requires ns != []
    ensures var init, n, x := ns[..|ns|-1], |ns| - 1, ns[|ns|-1];
            && Criticals(ns) == (if x.critical then Criticals(init) + {n} else Criticals(init))
            && Overridden(ns) == (if x.overridden then Overridden(init) + {n} else Overridden(init))
            && WithRole(ns) == (if x.role != "" && x.role != "unknown" then WithRole(init) + {n} else WithRole(init))
            && n !in Criticals(init) && n !in Overridden(init) && n !in WithRole(init)
  {
  }

  lemma {:induction false} NodesCount(ns: seq<Node>)
    ensures NodeRisks(ns) == 15 * |Criticals(ns)|
    ensures NodeConfidences(ns) == 8 * |Overridden(ns)| + 4 * |WithRole(ns)|
  {
    if ns == [] {
      assert Criticals(ns) == {} && Overridden(ns) == {} && WithRole(ns) == {};
    } else {
      hide Criticals, Overridden, WithRole;
      var init, n, x := ns[..|ns|-1], |ns| - 1, ns[|ns|-1];
      NodesCount(init);
      LastNodeCounts(ns);
      OneMore(Criticals(init), Criticals(ns), n, x.critical);
      OneMore(Overridden(init), Overridden(ns), n, x.overridden);
      OneMore(WithRole(init), WithRole(ns), n, x.role != "" && x.role != "unknown");
    }
  }

  lemma {:induction false} EdgesCount(ns: seq<Node>, es: seq<Edge>)
    ensures EdgeRisks(ns, es) == 18 * |AdminHops(es)| + 15 * |OTHops(es)| + 30 * |DirectHops(ns, |es|)|
    ensures EdgeConfidences(es) == 6 * |es| + 5 * |BusyHops(es)|
  {
    if es == [] {
      assert AdminHops(es) == {} && OTHops(es) == {} && BusyHops(es) == {} && DirectHops(ns, 0) == {};
    } else {
      hide AdminHops, OTHops, BusyHops, DirectHops, Administrative, Direct, Busy, EdgeRisks, EdgeConfidences;
      var init, n, x := es[..|es|-1], |es| - 1, es[|es|-1];
      EdgesCount(ns, init);
      LastEdgeCounts(ns, es);
      LastEdgeScores(ns, es);
      OneMore(AdminHops(init), AdminHops(es), n, Administrative(x.port));
      OneMore(OTHops(init), OTHops(es), n, x.isOT);
      OneMore(BusyHops(init), BusyHops(es), n, Busy(x));
      OneMore(DirectHops(ns, n), DirectHops(ns, n + 1), n, Direct(ns, n));
    }
  }

  predicate Busy(e: Edge) { (e.packetsAToB + e.packetsBToA) % TWO_64 > 100 }

  lemma LastEdgeScores(ns: seq<Node>, es: seq<Edge>)
    requires es != []
    ensures var init, n, x := es[..|es|-1], |es| - 1, es[|es|-1];
            && EdgeRisks(ns, es) == EdgeRisks(ns, init) + (if Administrative(x.port) then 18 else 0)
                                    + (if x.isOT then 15 else 0) + (if Direct(ns, n) then 30 else 0)
            && EdgeConfidences(es) == EdgeConfidences(init) + 6 + (if Busy(x) then 5 else 0)
  {
    hide Administrative, Direct;
  }

  lemma LastEdgeCounts(ns: seq<Node>, es: seq<Edge>)
    requires es != []
    ensures var init, n, x := es[..|es|-1], |es| - 1, es[|es|-1];
            && AdminHops(es) == (if Administrative(x.port) then AdminHops(init) + {n} else AdminHops(init))
            && OTHops(es) == (if x.isOT then OTHops(init) + {n} else OTHops(init))
            && BusyHops(es) == (if Busy(x) then BusyHops(init) + {n} else BusyHops(init))
            && DirectHops(ns, n + 1) == (if Direct(ns, n) then DirectHops(ns, n) + {n} else DirectHops(ns, n))
            && n !in AdminHops(init) && n !in OTHops(init) && n !in BusyHops(init) && n !in DirectHops(ns, n)
  {
  }

  /** The score of a path is a matter of counting: critical assets, administrative, OT and direct hops raise the risk,
      known and overridden assets, hops and busy hops the confidence, each up to 100. It crosses into OT by a direct
      hop or by leading from IT to a target, and bypasses the DMZ if it then meets no asset at level 3.5. */
  lemma ScoreCounts(ns: seq<Node>, es: seq<Edge>)
    ensures var score, direct := ScoreOf(ns, es), |DirectHops(ns, |es|)|;
            var risk := 10 + 15 * |Criticals(ns)| + 18 * |AdminHops(es)| + 15 * |OTHops(es)| + 30 * direct
                        + (if score.bypassesDMZ then 20 else 0);
            var confidence := 30 + 8 * |Overridden(ns)| + 4 * |WithRole(ns)| + 6 * |es| + 5 * |BusyHops(es)|;
            && score.risk == (if risk < 100 then risk else 100)
            && score.confidence == (if confidence < 100 then confidence else 100)
            && (score.crosses <==> direct > 0 || (|ns| > 1 && IsIT(ns[0]) && IsTarget(ns[|ns|-1])))
            && (score.bypassesDMZ <==> score.crosses && forall i :: 0 <= i < |ns| ==> !IsDMZ(ns[i]))
  {
    NodesCount(ns);
    EdgesCount(ns, es);
    DirectMeansCrossing(ns, |es|);
    hide NodeRisks, NodeConfidences, EdgeRisks, EdgeConfidences, Criticals, Overridden, WithRole, AdminHops, OTHops, BusyHops,
         DirectHops, IsIT, IsTarget, IsDMZ;
  }

  lemma DirectMeansCrossing(ns: seq<Node>, hops: nat)
    ensures |DirectHops(ns, hops)| > 0 <==> exists i :: 0 <= i < hops && Direct(ns, i)
  {
    if i :| 0 <= i < hops && Direct(ns, i) { assert i in DirectHops(ns, hops); }
    if |DirectHops(ns, hops)| > 0 {
      var i :| i in DirectHops(ns, hops);
      assert Direct(ns, i);
    }
  }

  ghost predicate Known(g: Graph, source: string, p: Path) {
    source in g.nodes && forall i :: 0 <= i < |p| ==> p[i].responder in g.nodes
  }

  function NodesOf(g: Graph, source: string, p: Path): (ns: seq<Node>)
    requires Known(g, source, p)
    ensures |ns| == |p| + 1
  {
    [g.nodes[source]] + seq(|p|, i requires 0 <= i < |p| => g.nodes[p[i].responder])
  }

  lemma KnownAssets(g: Graph, source: string, maxHops: nat, p: Path)
    requires source in g.nodes && Goal(g, source, maxHops, p)
    ensures Known(g, source, p)
  {
    forall i | 0 <= i < |p| ensures p[i].responder in g.nodes { assert Linked(g, source, p, i); }
  }

  lemma GoalTargets(g: Graph, source: string, maxHops: nat, p: Path)
    requires Known(g, source, p) && Goal(g, source, maxHops, p)
    ensures IsTarget(NodesOf(g, source, p)[|p|])
    ensures forall i :: 0 < i < |p| ==> !IsTarget(NodesOf(g, source, p)[i])
  {
    hide IsTarget, SimplePath;
    forall i | 0 < i < |p| ensures !IsTarget(NodesOf(g, source, p)[i]) { assert !TargetAt(g, p[i-1].responder); }
  }

  lemma CrossesAtTheEnds(ns: seq<Node>, hops: nat)
    requires |ns| == hops + 1 && hops >= 1 && IsTarget(ns[hops]) && forall i :: 0 < i < hops ==> !IsTarget(ns[i])
    ensures Crosses(ns, hops) <==> IsIT(ns[0]) || IsIT(ns[hops-1])
    ensures IsIT(ns[hops-1]) ==> Direct(ns, hops - 1)
  {
    hide IsTarget, IsIT;
    if IsIT(ns[hops-1]) { assert Direct(ns, hops - 1); }
  }

  lemma ScoreAtTheEnds(ns: seq<Node>, es: seq<Edge>)
    requires |ns| == |es| + 1 && es != [] && IsTarget(ns[|es|]) && forall i :: 0 < i < |es| ==> !IsTarget(ns[i])
    ensures ScoreOf(ns, es).crosses <==> IsIT(ns[0]) || IsIT(ns[|es|-1])
    ensures IsIT(ns[|es|-1]) ==> ScoreOf(ns, es).risk >= if HasDMZ(ns) then 40 else 60
  {
    CrossesAtTheEnds(ns, |es|);
    DirectEnding(ns, es);
    hide IsTarget, IsIT, HasDMZ, Crosses, Direct, EdgeConfidences, NodeConfidences, NodeRisks, EdgeRisks;
  }

  /** For the paths the search returns, crossing the boundary is decided at two places: the source and the last
      asset before the target. Entering the target straight from an IT asset alone is worth 40 points of risk, and
      doing so past no DMZ 60. */
  lemma CrossingDecidedAtTheEnds(g: Graph, source: string, maxHops: nat, p: Path)
    requires Known(g, source, p) && Goal(g, source, maxHops, p)
    ensures var ns := NodesOf(g, source, p);
            var score := ScoreOf(ns, p);
            && (score.crosses <==> IsIT(ns[0]) || IsIT(ns[|p|-1]))
            && (IsIT(ns[|p|-1]) ==> score.risk >= if HasDMZ(ns) then 40 else 60)
  {
    GoalTargets(g, source, maxHops, p);
    hide IsTarget, IsIT, HasDMZ, ScoreOf;
    assert p != [];
    hide Goal;
    ScoreAtTheEnds(NodesOf(g, source, p), p);
  }

  lemma DirectEnding(ns: seq<Node>, es: seq<Edge>)
    requires es != []
    ensures Direct(ns, |es| - 1) ==> EdgeRisks(ns, es) >= 30
  {
    hide Direct, EdgeRisk;
  }

  // ---------- The response ----------

  datatype ScoredPath = ScoredPath(path: Path, score: Score)

  predicate Above(a: ScoredPath, b: ScoredPath) {
    if a.score.risk == b.score.risk then a.score.confidence > b.score.confidence else a.score.risk > b.score.risk
  }

  lemma AboveRanks()
    ensures Ranks(Above)
  {
  }

  datatype Response = SourceNotFound | Paths(maxHops: nat, paths: seq<ScoredPath>)

  function ClampHops(requested: int): nat { if requested < 1 then 4 else if requested > 8 then 8 else requested }

  function ClampPaths(requested: int): nat { if requested <= 0 then 50 else if requested > 200 then 200 else requested }

  /** Best first: never a riskier path behind a less risky one, nor among equally risky ones a surer one behind. */
  lemma BestFirst(paths: seq<ScoredPath>, i: nat, j: nat)
    requires Ranked(paths, Above) && i < j < |paths|
    ensures paths[i].score.risk > paths[j].score.risk
         || (paths[i].score.risk == paths[j].score.risk && paths[i].score.confidence >= paths[j].score.confidence)
  {
    assert !Above(paths[j], paths[i]);
  }

  /** Requests within the limits are taken as they are; without a limit the defaults of 4 hops and 50 paths apply, and
      beyond it 8 hops and 200 paths. */
  lemma LimitsClamped(hops: int, paths: int)
    ensures 1 <= ClampHops(hops) <= 8 && 1 <= ClampPaths(paths) <= 200
    ensures 1 <= hops <= 8 ==> ClampHops(hops) == hops
    ensures 1 <= paths <= 200 ==> ClampPaths(paths) == paths
    ensures hops < 1 ==> ClampHops(hops) == 4
    ensures hops > 8 ==> ClampHops(hops) == 8
    ensures paths < 1 ==> ClampPaths(paths) == 50
    ensures paths > 200 ==> ClampPaths(paths) == 200
  {
  }

  /** Each found path with its score, in the order found. */
  ghost predicate ScoresOf(g: Graph, source: string, found: seq<Path>, scored: seq<ScoredPath>) {
    |scored| == |found|
    && forall i :: 0 <= i < |found| ==>
         scored[i].path == found[i] && Known(g, source, found[i]) && scored[i].score == ScoreOf(NodesOf(g, source, found[i]), found[i])
  }

  method ScoreAll(g: Graph, source: string, maxHops: nat, found: seq<Path>) returns (scored: seq<ScoredPath>)
    requires source in g.nodes && forall i :: 0 <= i < |found| ==> Goal(g, source, maxHops, found[i])
    ensures ScoresOf(g, source, found, scored)
  {
    hide Goal, ScoreOf;
    scored := [];
    for i := 0 to |found|
      invariant ScoresOf(g, source, found[..i], scored)
    {
      KnownAssets(g, source, maxHops, found[i]);
      var score := ScorePath(NodesOf(g, source, found[i]), found[i]);
      scored := scored + [ScoredPath(found[i], score)];
    }
    assert found[..|found|] == found;
  }

  /** The whole request: limits clamped, paths found breadth first, each scored, best first. */
  method FindObservedITOTPaths(g: Graph, source: string, hops: int, limit: int)
    returns (r: Response, ghost found: seq<Path>, ghost scored: seq<ScoredPath>)
    requires Distinct(g.edges)
    ensures source !in g.nodes <==> r == SourceNotFound
    ensures source in g.nodes ==>
              && r.Paths? && r.maxHops == ClampHops(hops) && 1 <= r.maxHops <= 8
              && SearchResult(g, source, ClampHops(hops), ClampPaths(limit), found)
              && ScoresOf(g, source, found, scored)
              && multiset(r.paths) == multiset(scored) && Ranked(r.paths, Above)
  {
    hide SearchResult, Goal, Ranked, ScoresOf;
    found, scored := [], [];
    if source !in g.nodes { return SourceNotFound, found, scored; }
    var paths := Search(g, source, ClampHops(hops), ClampPaths(limit));
    FoundAreGoals(g, source, ClampHops(hops), ClampPaths(limit), paths);
    var all := ScoreAll(g, source, ClampHops(hops), paths);
    AboveRanks();
    var ranked := Sort(all, Above);
    return Paths(ClampHops(hops), ranked), paths, all;
  }

  lemma FoundAreGoals(g: Graph, source: string, maxHops: nat, maxPaths: nat, found: seq<Path>)
    requires SearchResult(g, source, maxHops, maxPaths, found)
    ensures forall i :: 0 <= i < |found| ==> Goal(g, source, maxHops, found[i])
  {
  }
}
