/** Facts about rearranging and counting that several components share. */
module Permutations {

  /** The elements of `s` at the positions listed in `at`. */
  function Pick<T>(s: seq<T>, at: seq<nat>): (r: seq<T>)
    requires forall j :: 0 <= j < |at| ==> at[j] < |s|
    ensures |r| == |at| && forall j :: 0 <= j < |at| ==> r[j] == s[at[j]]
  {
    seq(|at|, j requires 0 <= j < |at| => s[at[j]])
  }

  ghost predicate Distinct<T>(s: seq<T>) {
    forall i, j :: 0 <= i < j < |s| ==> s[i] != s[j]
  }

  lemma RemoveAt<T>(p: seq<T>, q: nat)
    requires q < |p|
    ensures multiset(p) == multiset(p[..q] + p[q+1..]) + multiset{p[q]}
  {
    assert p == p[..q] + [p[q]] + p[q+1..];
  }

  /** Without the position of the last element, the others lie before it. */
  lemma RestPositions(at: seq<nat>, q: nat, n: nat)
    requires q < |at| && at[q] == n && Distinct(at) && forall j :: 0 <= j < |at| ==> at[j] <= n
    ensures var rest := at[..q] + at[q+1..]; Distinct(rest) && forall j :: 0 <= j < |rest| ==> rest[j] < n
  {
    var rest := at[..q] + at[q+1..];
    forall j | 0 <= j < |rest| ensures rest[j] == at[if j < q then j else j + 1] {}
  }

  /** Picking distinct positions never uses an element more often than `s` holds it. */
  lemma {:induction false} PickIsSubmultiset<T>(s: seq<T>, at: seq<nat>)
    requires forall j :: 0 <= j < |at| ==> at[j] < |s|
    requires Distinct(at)
    ensures multiset(Pick(s, at)) <= multiset(s)
    decreases |s|
  {
    if at == [] {
      assert Pick(s, at) == [];
    } else {
      assert at[0] < |s|;
      var n := |s| - 1;
      var init := s[..n];
      SplitLast(s);
      if q :| 0 <= q < |at| && at[q] == n {
        var rest, p := at[..q] + at[q+1..], Pick(s, at);
        RestPositions(at, q, n);
        PickIsSubmultiset(init, rest);
        PickRest(s, at, q, n);
        RemoveAt(p, q);
        hide Distinct;
        assert multiset(p) == multiset(Pick(init, rest)) + multiset{s[n]};
      } else {
        assert forall j :: 0 <= j < |at| ==> at[j] < n;
        PickIsSubmultiset(init, at);
        assert Pick(init, at) == Pick(s, at);
      }
    }
  }

  lemma SplitLast<T>(s: seq<T>)
    requires s != []
    ensures multiset(s) == multiset(s[..|s|-1]) + multiset{s[|s|-1]}
  {
    assert s == s[..|s|-1] + [s[|s|-1]];
  }

  lemma PickRest<T>(s: seq<T>, at: seq<nat>, q: nat, n: nat)
    requires n < |s| && q < |at| && at[q] == n && forall j :: 0 <= j < |at| ==> at[j] <= n
    requires var rest := at[..q] + at[q+1..]; forall j :: 0 <= j < |rest| ==> rest[j] < n
    ensures Pick(s[..n], at[..q] + at[q+1..]) == Pick(s, at)[..q] + Pick(s, at)[q+1..]
    ensures Pick(s, at)[q] == s[n]
  {
    var rest := at[..q] + at[q+1..];
    forall j | 0 <= j < |rest| ensures rest[j] == at[if j < q then j else j + 1] {}
  }

  lemma SubmultisetOfSameSize<T>(a: multiset<T>, b: multiset<T>)
    requires a <= b && |a| == |b|
    ensures a == b
  {
    assert b == a + (b - a);
    assert |b - a| == 0;
  }

  lemma CancelOne<T>(a: multiset<T>, b: multiset<T>, x: T)
    requires a + multiset{x} == b + multiset{x}
    ensures a == b
  {
    assert a == a + multiset{x} - multiset{x};
    assert b == b + multiset{x} - multiset{x};
  }

  /** Picking every position exactly once is a permutation. */
  lemma PickAllIsPermutation<T>(s: seq<T>, at: seq<nat>)
    requires |at| == |s|
    requires forall j :: 0 <= j < |at| ==> at[j] < |s|
    requires Distinct(at)
    ensures multiset(Pick(s, at)) == multiset(s)
  {
    PickIsSubmultiset(s, at);
    SubmultisetOfSameSize(multiset(Pick(s, at)), multiset(s));
  }

  lemma SubsetSize<T>(a: set<T>, b: set<T>)
    requires a <= b
    ensures |a| <= |b|
  {
    assert b == a + (b - a);
  }
}
