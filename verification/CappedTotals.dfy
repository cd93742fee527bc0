/** Totals per name where at most 256 names are admitted, read off the list of what was added and dropped. */
module CappedTotals {
  import opened BaselineModel

  /** An amount for a name, which may be admitted past the limit, or the end of a name. */
  datatype Entry<K> = Add(k: K, n: Totals, free: bool) | Drop(k: K)

  /** The names present: a new one is admitted while there are fewer than the limit. */
  function Present<K(==)>(xs: seq<Entry<K>>): set<K> {
    if xs == [] then {}
    else
      var before := Present(xs[..|xs|-1]);
      match xs[|xs|-1]
      case Add(k, _, free) => if free || k in before || |before| < MAX_DIMENSIONS then before + {k} else before
      case Drop(k) => before - {k}
  }

  /** What was added for a name since it was last admitted. */
  function Since<K(==)>(xs: seq<Entry<K>>, k: K): Totals {
    if xs == [] || k !in Present(xs) then NO_TOTALS
    else
      var before := Since(xs[..|xs|-1], k);
      if xs[|xs|-1].Add? && xs[|xs|-1].k == k then Plus(before, xs[|xs|-1].n) else before
  }

  /** The table holds the present names with what was added for each. */
  ghost predicate Tabulates<K>(m: map<K, Totals>, xs: seq<Entry<K>>) {
    && m.Keys == Present(xs)
    && forall k :: k in m ==> m[k] == Since(xs, k) && m[k].events > 0
  }

  /** The same for a table of bare counts. */
  ghost predicate Enumerates<K>(m: map<K, nat>, xs: seq<Entry<K>>) {
    && m.Keys == Present(xs)
    && forall k :: k in m ==> m[k] == Since(xs, k).events && m[k] > 0
  }

  lemma PresentNext<K>(xs: seq<Entry<K>>, x: Entry<K>)
    ensures Present(xs + [x]) ==
              if x.Add? then (if x.free || x.k in Present(xs) || |Present(xs)| < MAX_DIMENSIONS then Present(xs) + {x.k} else Present(xs))
              else Present(xs) - {x.k}
  {
    assert (xs + [x])[..|xs|] == xs;
  }

  lemma SinceNext<K>(xs: seq<Entry<K>>, x: Entry<K>, k: K)
    ensures Since(xs + [x], k) ==
              if k !in Present(xs + [x]) then NO_TOTALS
              else if x.Add? && x.k == k then Plus(Since(xs, k), x.n) else Since(xs, k)
  {
    assert (xs + [x])[..|xs|] == xs;
  }

  lemma AbsentHasNone<K>(xs: seq<Entry<K>>, k: K)
    requires k !in Present(xs)
    ensures Since(xs, k) == NO_TOTALS
  {
  }

  predicate Admits<K(==)>(xs: seq<Entry<K>>, k: K, free: bool) { free || k in Present(xs) || |Present(xs)| < MAX_DIMENSIONS }

  lemma EntryAdded<K>(xs: seq<Entry<K>>, k: K, n: Totals, free: bool, j: K)
    ensures var all := xs + [Add(k, n, free)];
            && Present(all) == (if Admits(xs, k, free) then Present(xs) + {k} else Present(xs))
            && Since(all, j) == if j == k && Admits(xs, k, free) then Plus(Since(xs, j), n) else Since(xs, j)
  {
    hide Present, Since;
    var x: Entry<K> := Add(k, n, free);
    PresentNext(xs, x);
    SinceNext(xs, x, j);
    if j !in Present(xs) { AbsentHasNone(xs, j); }
  }

  lemma AddTabulates<K>(m: map<K, Totals>, xs: seq<Entry<K>>, k: K, n: Totals, free: bool)
    requires Tabulates(m, xs) && n.events > 0
    ensures Tabulates(if free || |m| < MAX_DIMENSIONS || EventsIn(m, k) > 0 then Accumulate(m, k, n) else m, xs + [Add(k, n, free)])
  {
    hide Present, Since;
    var r, all := if free || |m| < MAX_DIMENSIONS || EventsIn(m, k) > 0 then Accumulate(m, k, n) else m, xs + [Add(k, n, free)];
    assert |m| == |m.Keys|;
    EntryAdded(xs, k, n, free, k);
    if k !in m { AbsentHasNone(xs, k); }
    assert r.Keys == Present(all);
    forall j | j in r ensures r[j] == Since(all, j) && r[j].events > 0 { EntryAdded(xs, k, n, free, j); }
  }

  lemma AddEnumerates<K>(m: map<K, nat>, xs: seq<Entry<K>>, k: K)
    requires Enumerates(m, xs)
    ensures Enumerates(if |m| < MAX_DIMENSIONS || CountIn(m, k) > 0 then Bump(m, k) else m, xs + [Add(k, Totals(0, 0, 1), false)])
  {
    hide Present, Since, Plus;
    var one := Totals(0, 0, 1);
    var all := xs + [Add(k, one, false)];
    assert |m| == |m.Keys|;
    EntryAdded(xs, k, one, false, k);
    if Admits(xs, k, false) {
      var r := Bump(m, k);
      assert r.Keys == m.Keys + {k};
      forall j | j in r ensures r[j] == Since(all, j).events && r[j] > 0 {
        EntryAdded(xs, k, one, false, j);
        OneMore(Since(xs, k));
        if k !in m { AbsentHasNone(xs, k); }
      }
    } else {
      forall j | j in m ensures m[j] == Since(all, j).events { EntryAdded(xs, k, one, false, j); }
    }
  }

  lemma OneMore(n: Totals)
    ensures Plus(n, Totals(0, 0, 1)).events == n.events + 1
  {
  }

  lemma EntryDropped<K>(xs: seq<Entry<K>>, k: K, j: K)
    ensures Present(xs + [Drop(k)]) == Present(xs) - {k}
    ensures Since(xs + [Drop(k)], j) == if j == k then NO_TOTALS else Since(xs, j)
  {
    hide Present, Since;
    var x: Entry<K> := Drop(k);
    PresentNext(xs, x);
    SinceNext(xs, x, j);
    if j !in Present(xs) { AbsentHasNone(xs, j); }
  }
}
