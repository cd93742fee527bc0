/** Flows aggregated into one edge per pair of addresses. Times are nanoseconds; 0 is the zero time. */
module EdgeAggregation {
  import opened MapSums
  import opened Strings

  datatype Flow = Flow(
    src: string, dst: string, protocol: string, isOT: bool, fromHoneypot: bool, packets: nat, bytes: nat,
    firstSeen: nat, lastSeen: nat)

  datatype Bucket = Bucket(edge: Flow, protocols: set<string>, count: nat)

  type Pair = (string, string)

  function CanonicalPair(a: string, b: string): Pair { if LexLess(b, a) then (b, a) else (a, b) }

  function PairOf(f: Flow): Pair { CanonicalPair(f.src, f.dst) }

  /** Two flows share an edge exactly when they join the same two addresses, in whichever direction. */
  lemma PairsAreUndirected(f: Flow, g: Flow)
    ensures PairOf(f) == PairOf(g) <==> {f.src, f.dst} == {g.src, g.dst}
  {
    LexLessTotal(f.src, f.dst);
    LexLessTotal(g.src, g.dst);
    LexLessIrreflexive(f.src);
    hide LexLess;
    if {f.src, f.dst} == {g.src, g.dst} {
      assert f.src in {g.src, g.dst} && f.dst in {g.src, g.dst} && g.src in {f.src, f.dst} && g.dst in {f.src, f.dst};
    }
  }

  function Joined(b: Bucket, f: Flow): Bucket {
    var e := b.edge;
    var redirected := f.fromHoneypot && !e.fromHoneypot;
    Bucket(
      e.(isOT := e.isOT || f.isOT, fromHoneypot := e.fromHoneypot || f.fromHoneypot,
         src := if redirected then f.src else e.src, dst := if redirected then f.dst else e.dst,
         packets := e.packets + f.packets, bytes := e.bytes + f.bytes,
         firstSeen := if e.firstSeen == 0 || (f.firstSeen != 0 && f.firstSeen < e.firstSeen) then f.firstSeen else e.firstSeen,
         lastSeen := if f.lastSeen > e.lastSeen then f.lastSeen else e.lastSeen),
      b.protocols + {f.protocol}, b.count + 1)
  }

  /** A new edge starts as a copy of its first flow, to which that same flow is then added. */
  function Aggregated(flows: seq<Flow>): map<Pair, Bucket> {
    if flows == [] then map[]
    else
      var before, f := Aggregated(flows[..|flows|-1]), flows[|flows|-1];
      before[PairOf(f) := Joined(if PairOf(f) in before then before[PairOf(f)] else Bucket(f, {}, 0), f)]
  }

  /** The flows of one pair, in order. */
  function Between(flows: seq<Flow>, k: Pair): seq<Flow> {
    if flows == [] then []
    else Between(flows[..|flows|-1], k) + if PairOf(flows[|flows|-1]) == k then [flows[|flows|-1]] else []
  }

  function Packets(flows: seq<Flow>): nat {
    if flows == [] then 0 else Packets(flows[..|flows|-1]) + flows[|flows|-1].packets
  }

  function Bytes(flows: seq<Flow>): nat {
    if flows == [] then 0 else Bytes(flows[..|flows|-1]) + flows[|flows|-1].bytes
  }

  /** The flow whose direction the edge shows: the first from a honeypot, or else the first. */
  function Leading(flows: seq<Flow>): Flow
    requires flows != []
  {
    var before := flows[..|flows|-1];
    if before == [] then flows[0]
    else if flows[|flows|-1].fromHoneypot && (forall f :: f in before ==> !f.fromHoneypot) then flows[|flows|-1]
    else Leading(before)
  }

  ghost predicate EarliestKnown(t: nat, flows: seq<Flow>) {
    if forall f :: f in flows ==> f.firstSeen == 0 then t == 0
    else (exists f :: f in flows && f.firstSeen == t) && t != 0 && forall f :: f in flows && f.firstSeen != 0 ==> t <= f.firstSeen
  }

  ghost predicate Amounts(b: Bucket, xs: seq<Flow>)
    requires xs != []
  {
    && b.count == |xs|
    && b.edge.packets == Packets(xs) + xs[0].packets && b.edge.bytes == Bytes(xs) + xs[0].bytes
    && b.edge.src == Leading(xs).src && b.edge.dst == Leading(xs).dst
  }

  ghost predicate Marks(b: Bucket, xs: seq<Flow>) {
    && (b.edge.isOT <==> exists f :: f in xs && f.isOT)
    && (b.edge.fromHoneypot <==> exists f :: f in xs && f.fromHoneypot)
    && b.protocols == (set f | f in xs :: f.protocol)
    && EarliestKnown(b.edge.firstSeen, xs)
    && (exists f :: f in xs && f.lastSeen == b.edge.lastSeen) && (forall f :: f in xs ==> f.lastSeen <= b.edge.lastSeen)
  }

  ghost predicate Summary(b: Bucket, xs: seq<Flow>)
    requires xs != []
  {
    Amounts(b, xs) && Marks(b, xs)
  }

  lemma FirstJoins(f: Flow)
    ensures Summary(Joined(Bucket(f, {}, 0), f), [f])
  {
    assert [f][..0] == [] && f in [f];
    assert (set x | x in [f] :: x.protocol) == {f.protocol};
  }

  lemma LeadingNext(xs: seq<Flow>, f: Flow)
    requires xs != []
    ensures Leading(xs + [f]) == if f.fromHoneypot && (forall x :: x in xs ==> !x.fromHoneypot) then f else Leading(xs)
  {
    assert (xs + [f])[..|xs|] == xs;
  }

  lemma NextAmounts(b: Bucket, xs: seq<Flow>, f: Flow)
    requires xs != [] && Amounts(b, xs) && (b.edge.fromHoneypot <==> exists x :: x in xs && x.fromHoneypot)
    ensures Amounts(Joined(b, f), xs + [f])
  {
    assert (xs + [f])[..|xs|] == xs && (xs + [f])[0] == xs[0];
    LeadingNext(xs, f);
    hide Leading;
  }

  lemma NextMarks(b: Bucket, xs: seq<Flow>, f: Flow)
    requires xs != [] && Marks(b, xs)
    ensures Marks(Joined(b, f), xs + [f])
  {
    var all := xs + [f];
    assert forall x :: x in all <==> x in xs || x == f;
    assert (set x | x in all :: x.protocol) == (set x | x in xs :: x.protocol) + {f.protocol};
    EarliestNext(b.edge.firstSeen, xs, f);
    hide EarliestKnown;
  }

  lemma NextJoins(b: Bucket, xs: seq<Flow>, f: Flow)
    requires xs != [] && Summary(b, xs)
    ensures Summary(Joined(b, f), xs + [f])
  {
    NextAmounts(b, xs, f);
    NextMarks(b, xs, f);
    hide Joined, Amounts, Marks;
  }

  lemma EarliestNext(t: nat, xs: seq<Flow>, f: Flow)
    requires xs != [] && EarliestKnown(t, xs)
    ensures EarliestKnown(if t == 0 || (f.firstSeen != 0 && f.firstSeen < t) then f.firstSeen else t, xs + [f])
  {
    assert forall x :: x in xs + [f] <==> x in xs || x == f;
  }

  /** Each edge in terms of its own flows: counts, protocols, direction and times are what they should be, but the
      first flow's packets and bytes are counted twice. */
  lemma {:induction false} EdgeSummarisesFlows(flows: seq<Flow>, k: Pair)
    ensures k in Aggregated(flows) <==> Between(flows, k) != []
    ensures Between(flows, k) != [] ==> Summary(Aggregated(flows)[k], Between(flows, k))
  {
    hide Summary, Joined;
    if flows != [] {
      var before, f := flows[..|flows|-1], flows[|flows|-1];
      EdgeSummarisesFlows(before, k);
      if PairOf(f) == k {
        if Between(before, k) != [] {
          NextJoins(Aggregated(before)[k], Between(before, k), f);
        } else {
          FirstJoins(f);
          assert Between(flows, k) == [f];
        }
      } else {
        assert Between(flows, k) == Between(before, k);
      }
    }
  }

  /** The packets of an edge are those of its flows if and only if its first flow carried none. */
  lemma PacketsConservedExactly(flows: seq<Flow>, k: Pair)
    requires k in Aggregated(flows)
    ensures Between(flows, k) != []
    ensures Aggregated(flows)[k].edge.packets == Packets(Between(flows, k)) <==> Between(flows, k)[0].packets == 0
  {
    EdgeSummarisesFlows(flows, k);
    hide Leading, Marks;
  }

  function Counts(buckets: map<Pair, Bucket>): map<Pair, nat> { map k | k in buckets :: buckets[k].count }

  lemma CountsNext(buckets: map<Pair, Bucket>, k: Pair, b: Bucket)
    ensures Counts(buckets[k := b]) == Counts(buckets)[k := b.count]
  {
  }

  lemma JoinedCount(b: Bucket, f: Flow)
    ensures Joined(b, f).count == b.count + 1
  {
  }

  /** Every flow is counted on exactly one edge. */
  lemma {:induction false} FlowCountsAddUp(flows: seq<Flow>)
    ensures Total(Counts(Aggregated(flows))) == |flows|
  {
    if flows == [] {
      assert Counts(map[]) == map[];
    } else {
      hide PairOf, Joined, Total;
      var before, f := flows[..|flows|-1], flows[|flows|-1];
      FlowCountsAddUp(before);
      var k, buckets := PairOf(f), Aggregated(before);
      var b := Joined(if k in buckets then buckets[k] else Bucket(f, {}, 0), f);
      CountsNext(buckets, k, b);
      JoinedCount(if k in buckets then buckets[k] else Bucket(f, {}, 0), f);
      if k in buckets {
        TotalUpdate(Counts(buckets), k, b.count);
      } else {
        TotalInsert(Counts(buckets), k, b.count);
      }
    }
  }

  ghost predicate Lists(order: seq<Pair>, buckets: map<Pair, Bucket>) {
    && (forall k :: k in order <==> k in buckets)
    && (forall j, k :: 0 <= j < k < |order| ==> order[j] != order[k])
  }

  /** The loop: buckets updated in place, edges listed in the order their pairs first appeared. */
  method AggregateEdges(flows: seq<Flow>) returns (order: seq<Pair>, out: seq<Bucket>)
    ensures Lists(order, Aggregated(flows))
    ensures |out| == |order| && forall i :: 0 <= i < |order| ==> order[i] in Aggregated(flows) && out[i] == Aggregated(flows)[order[i]]
  {
    hide Joined, PairOf;
    order := [];
    var buckets: map<Pair, Bucket> := map[];
    for i := 0 to |flows|
      invariant buckets == Aggregated(flows[..i]) && Lists(order, buckets)
    {
      assert flows[..i+1][..i] == flows[..i];
      var f := flows[i];
      var key := PairOf(f);
      if key !in buckets {
        buckets := buckets[key := Bucket(f, {}, 0)];
        order := order + [key];
      }
      buckets := buckets[key := Joined(buckets[key], f)];
    }
    assert flows[..|flows|] == flows;
    out := InOrder(order, buckets);
  }

  method InOrder(order: seq<Pair>, buckets: map<Pair, Bucket>) returns (out: seq<Bucket>)
    requires Lists(order, buckets)
    ensures |out| == |order| && forall i :: 0 <= i < |order| ==> order[i] in buckets && out[i] == buckets[order[i]]
  {
    out := [];
    for i := 0 to |order|
      invariant |out| == i && forall j :: 0 <= j < i ==> order[j] in buckets && out[j] == buckets[order[j]]
    {
      assert order[i] in order;
      out := out + [buckets[order[i]]];
    }
  }
}
