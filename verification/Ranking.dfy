/** Sorting a result list best first, as the library sort leaves it: any order among equals. */
module Ranking {

  /** `above` ranks consistently: never both ways, and never through a third element against the grain. */
  ghost predicate Ranks<T(!new)>(above: (T, T) -> bool) {
    && (forall a, b :: above(a, b) ==> !above(b, a))
    && (forall a, b, d :: !above(a, b) && !above(b, d) ==> !above(a, d))
  }

  ghost predicate Ranked<T>(xs: seq<T>, above: (T, T) -> bool) {
    forall i, j :: 0 <= i < j < |xs| ==> !above(xs[j], xs[i])
  }

  lemma InsertionRanked<T(!new)>(xs: seq<T>, k: nat, x: T, above: (T, T) -> bool)
    requires Ranks(above) && k <= |xs| && Ranked(xs, above)
    requires (k > 0 ==> !above(x, xs[k-1])) && forall i :: k <= i < |xs| ==> above(x, xs[i])
    ensures Ranked(xs[..k] + [x] + xs[k..], above)
  {
    var r := xs[..k] + [x] + xs[k..];
    forall i | 0 <= i < k ensures !above(x, xs[i]) {
      if i < k - 1 { assert !above(xs[k-1], xs[i]); }
    }
    forall i, j | 0 <= i < j < |r| ensures !above(r[j], r[i]) {
      if j < k { assert r[i] == xs[i] && r[j] == xs[j]; }
      else if i > k { assert r[i] == xs[i-1] && r[j] == xs[j-1]; }
      else if i == k { assert r[j] == xs[j-1] && above(x, xs[j-1]); }
      else if j > k { assert r[i] == xs[i] && r[j] == xs[j-1]; }
    }
  }

  /** Inserts one element behind everything that does not rank below it. */
  method Insert<T(!new)>(xs: seq<T>, x: T, above: (T, T) -> bool) returns (r: seq<T>)
    requires Ranks(above) && Ranked(xs, above)
    ensures Ranked(r, above) && multiset(r) == multiset(xs) + multiset{x}
  {
    var k := |xs|;
    while k > 0 && above(x, xs[k-1])
      invariant 0 <= k <= |xs| && forall i :: k <= i < |xs| ==> above(x, xs[i])
    {
      k := k - 1;
    }
    r := xs[..k] + [x] + xs[k..];
    InsertionRanked(xs, k, x, above);
    assert xs == xs[..k] + xs[k..];
  }

  method Sort<T(!new)>(xs: seq<T>, above: (T, T) -> bool) returns (r: seq<T>)
    requires Ranks(above)
    ensures Ranked(r, above) && multiset(r) == multiset(xs)
  {
    hide Ranks;
    r := [];
    for i := 0 to |xs|
      invariant Ranked(r, above) && multiset(r) == multiset(xs[..i])
    {
      assert xs[..i+1] == xs[..i] + [xs[i]];
      r := Insert(r, xs[i], above);
    }
    assert xs[..|xs|] == xs;
  }
}
