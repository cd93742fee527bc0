/**
  Online statistics of the behaviour baseline: Welford's mean and variance, and the
  bounded sample store that the quantiles are read from.
*/
module Stats {
  import opened Permutations

  const RESERVOIR: nat := 128
  const MULTIPLIER: nat := 11400714819323198485
  const TWO_64: nat := 0x1_0000_0000_0000_0000

  /** The value of a RunningStats record; a profile embeds four of these by value. */
  datatype Summary = Summary(count: nat, mean: real, m2: real, min: real, max: real, samples: seq<real>)

  /** Every summary a program can hold: the store never outgrows its bound. */
  type Stat = s: Summary | |s.samples| <= RESERVOIR witness EMPTY

  const EMPTY := Summary(0, 0.0, 0.0, 0.0, 0.0, [])

  /** The slot that observation number `count` overwrites; see SlotIsProduct for the program's own formula. */
  function Slot(count: nat): (r: nat)
    ensures r < RESERVOIR
  {
    (21 * count) % RESERVOIR
  }

  /** The mean moved towards one more value, the `count`th. */
  function MovedMean(mean: real, value: real, count: nat): real
    requires count > 0
  {
    mean + (value - mean) / count as real
  }

  function GrownM2(m2: real, mean: real, value: real, moved: real): real { m2 + (value - mean) * (value - moved) }

  function Observe(s: Stat, value: real): Stat {
    var count := s.count + 1;
    var kept := if |s.samples| < RESERVOIR then s.samples + [value]
                else s.samples[Slot(count) := value];
    if count == 1 then Summary(count, value, s.m2, value, value, kept)
    else
      var mean := MovedMean(s.mean, value, count);
      Summary(count, mean, GrownM2(s.m2, s.mean, value, mean),
              if value < s.min then value else s.min,
              if value > s.max then value else s.max,
              kept)
  }

  function Variance(s: Summary): real {
    if s.count < 2 then 0.0 else s.m2 / (s.count - 1) as real
  }

  /** The summary after the values of `vs`, in order. */
  function After(vs: seq<real>): (s: Stat)
    ensures s.count == |vs|
    ensures |s.samples| == if |vs| < RESERVOIR then |vs| else RESERVOIR
  {
    if vs == [] then EMPTY else Observe(After(vs[..|vs|-1]), vs[|vs|-1])
  }

  // ---------- Welford ----------

  function Sum(vs: seq<real>): real {
    if vs == [] then 0.0 else Sum(vs[..|vs|-1]) + vs[|vs|-1]
  }

  function Square(d: real): real { d * d }

  /** Sum of squared deviations from `centre`. */
  function SquaredDeviations(vs: seq<real>, centre: real): real {
    if vs == [] then 0.0
    else SquaredDeviations(vs[..|vs|-1], centre) + Square(vs[|vs|-1] - centre)
  }

  lemma LessOne(n: real, a: real)
    ensures (n - 1.0) * a == n * a - a
  {
  }

  lemma InitGap(vs: seq<real>, a: real, z: real, n: real)
    requires vs != [] && z == Sum(vs) - n * a
    ensures z - (vs[|vs|-1] - a) == Sum(vs[..|vs|-1]) - (n - 1.0) * a
  {
    LessOne(n, a);
  }

  lemma ShiftNothing(a: real, k: real, z: real, n: real)
    requires n == 0.0 && z == Sum([]) - n * a
    ensures SquaredDeviations([], a + k) == SquaredDeviations([], a) - 2.0 * k * z + n * (k * k)
  {
    assert n * a == 0.0 && z == 0.0;
    assert n * (k * k) == 0.0 && 2.0 * k * z == 0.0;
  }

  /** Moving the centre by `k` costs the usual parallel-axis terms. */
  lemma {:induction false} ShiftCentre(vs: seq<real>, a: real, k: real, z: real, n: real)
    requires n == |vs| as real && z == Sum(vs) - n * a
    ensures SquaredDeviations(vs, a + k) == SquaredDeviations(vs, a) - 2.0 * k * z + n * (k * k)
  {
    hide Sum, SquaredDeviations;
    if vs == [] {
      ShiftNothing(a, k, z, n);
    } else {
      var init, x := vs[..|vs|-1], vs[|vs|-1];
      InitGap(vs, a, z, n);
      ShiftCentre(init, a, k, z - (x - a), n - 1.0);
      ShiftSnoc(vs, a, k, z, n);
    }
  }

  lemma ShiftSnoc(vs: seq<real>, a: real, k: real, z: real, n: real)
    requires vs != []
    requires SquaredDeviations(vs[..|vs|-1], a + k)
          == SquaredDeviations(vs[..|vs|-1], a) - 2.0 * k * (z - (vs[|vs|-1] - a)) + (n - 1.0) * (k * k)
    ensures SquaredDeviations(vs, a + k) == SquaredDeviations(vs, a) - 2.0 * k * z + n * (k * k)
  {
    var x := vs[|vs|-1];
    ShiftAlgebra(x - a, k, z, n);
    assert x - (a + k) == (x - a) - k;
    assert Square(x - (a + k)) == ((x - a) - k) * ((x - a) - k);
  }

  lemma ShiftAlgebra(d: real, k: real, z: real, n: real)
    ensures (d - k) * (d - k) - 2.0 * k * (z - d) + (n - 1.0) * (k * k) == d * d - 2.0 * k * z + n * (k * k)
  {
  }

  lemma Quotient(a: real, b: real)
    requires b > 0.0
    ensures a / b * b == a && (a >= 0.0 ==> a / b >= 0.0)
  {
  }

  lemma SnocValues(vs: seq<real>, x: real, c: real)
    ensures Sum(vs + [x]) == Sum(vs) + x
    ensures SquaredDeviations(vs + [x], c) == SquaredDeviations(vs, c) + Square(x - c)
  {
    assert (vs + [x])[..|vs|] == vs;
  }

  /** One Welford update moves the centre from the mean `m` to the new mean `m'` and keeps M2 exact. */
  lemma WelfordUpdate(vs: seq<real>, x: real, m: real, k: real, n: real, m': real)
    requires n == |vs| as real && Sum(vs) == n * m
    requires k * (n + 1.0) == x - m && m' == m + k
    ensures Sum(vs + [x]) == (n + 1.0) * m'
    ensures SquaredDeviations(vs + [x], m') == SquaredDeviations(vs, m) + (x - m) * (x - m')
  {
    WelfordMean(n, m, k, x, m');
    WelfordM2(n, m, k, x, m');
    SnocValues(vs, x, m');
    ShiftCentre(vs, m, k, 0.0, n);
  }

  lemma WelfordMean(n: real, m: real, k: real, x: real, m': real)
    requires k * (n + 1.0) == x - m && m' == m + k
    ensures n * m + x == (n + 1.0) * m'
  {
    assert (n + 1.0) * (m + k) == n * m + m + k * (n + 1.0);
  }

  lemma WelfordM2(n: real, m: real, k: real, x: real, m': real)
    requires k * (n + 1.0) == x - m && m' == m + k
    ensures n * (k * k) + Square(x - m') == (x - m) * (x - m')
  {
    assert x - m' == k * n;
    assert x - m == k * n + k;
    assert (k * n + k) * (k * n) == (k * n) * (k * n) + n * (k * k);
  }

  /** The summary's mean is the arithmetic mean of the `n` values and its M2 the sum of squared
      deviations from it. */
  ghost predicate Exact(vs: seq<real>, s: Summary, n: real) {
    && s.count == |vs|
    && n == |vs| as real
    && Sum(vs) == n * s.mean
    && s.m2 == SquaredDeviations(vs, s.mean)
  }

  lemma FirstObservation(s: Stat, x: real)
    requires s == EMPTY
    ensures Exact([x], Observe(s, x), 1.0)
  {
    assert [x][..0] == [];
    assert SquaredDeviations([x], x) == 0.0 + Square(0.0);
  }

  /** The same step in the terms of the program: divide by the new count, then add to the old mean. */
  lemma MeanStep(m: real, x: real, n: real, n': real, k: real)
    requires n >= 0.0 && n' == n + 1.0 && k == (x - m) / n'
    ensures k * (n + 1.0) == x - m
  {
    Quotient(x - m, n');
    RenameFactor((x - m) / n', k, n');
    RenameFactor(n', n + 1.0, k);
  }

  lemma LaterMoments(s: Summary, vs: seq<real>, x: real, s': Summary, n: real, k: real)
    requires Exact(vs, s, n) && k * (n + 1.0) == x - s.mean
    requires s'.count == s.count + 1 && s'.mean == s.mean + k
    requires s'.m2 == s.m2 + (x - s.mean) * (x - s'.mean)
    ensures Exact(vs + [x], s', n + 1.0)
  {
    WelfordUpdate(vs, x, s.mean, k, n, s'.mean);
  }

  lemma RenameFactor(a: real, b: real, m: real)
    requires a == b
    ensures a * m == b * m
  {
  }

  lemma ObserveMoments(s: Stat, x: real, n: real) returns (k: real)
    requires s.count > 0 && n == s.count as real
    ensures k * (n + 1.0) == x - s.mean
    ensures Observe(s, x).count == s.count + 1 && Observe(s, x).mean == s.mean + k
    ensures Observe(s, x).m2 == s.m2 + (x - s.mean) * (x - Observe(s, x).mean)
  {
    var n' := (s.count + 1) as real;
    k := (x - s.mean) / n';
    MeanStep(s.mean, x, n, n', k);
  }

  lemma {:induction false} WelfordIsExact(vs: seq<real>)
    requires vs != []
    ensures Exact(vs, After(vs), |vs| as real)
  {
    hide Observe, Exact, Sum, SquaredDeviations;
    var init, x := vs[..|vs|-1], vs[|vs|-1];
    assert vs == init + [x];
    if init == [] {
      FirstObservation(After(init), x);
    } else {
      WelfordIsExact(init);
      var s, n := After(init), |init| as real;
      var k := ObserveMoments(s, x, n);
      LaterMoments(s, init, x, After(vs), n, k);
    }
  }

  /** Min and Max are the exact extremes. */
  lemma {:induction false} ExtremesAreExact(vs: seq<real>)
    requires vs != []
    ensures After(vs).min in vs && After(vs).max in vs
    ensures forall v :: v in vs ==> After(vs).min <= v <= After(vs).max
  {
    var init := vs[..|vs|-1];
    assert vs == init + [vs[|vs|-1]];
    if init != [] {
      ExtremesAreExact(init);
    }
  }

  /** Consequently the reported variance is the unbiased sample variance, and never negative. */
  lemma VarianceIsUnbiased(vs: seq<real>, s: Summary)
    requires |vs| >= 2 && s == After(vs)
    ensures Variance(s) * (|vs| - 1) as real == SquaredDeviations(vs, s.mean)
    ensures Variance(s) >= 0.0
  {
    WelfordIsExact(vs);
    VarianceOfExact(vs, s);
  }

  lemma VarianceOfExact(vs: seq<real>, s: Summary)
    requires |vs| >= 2 && Exact(vs, s, |vs| as real)
    ensures Variance(s) * (|vs| - 1) as real == SquaredDeviations(vs, s.mean)
    ensures Variance(s) >= 0.0
  {
    DeviationsNonNegative(vs, s.mean);
    Quotient(s.m2, (|vs| - 1) as real);
  }

  lemma SquareNonNegative(d: real)
    ensures Square(d) >= 0.0
  {
  }

  lemma {:induction false} DeviationsNonNegative(vs: seq<real>, c: real)
    ensures SquaredDeviations(vs, c) >= 0.0
  {
    if vs != [] {
      DeviationsNonNegative(vs[..|vs|-1], c);
      SquareNonNegative(vs[|vs|-1] - c);
    }
  }

  // ---------- The sample store is a sliding window ----------

  /** The program multiplies by a 64-bit odd constant with wrap-around and keeps the remainder modulo 128;
      wrap-around does not reach the low seven bits. */
  lemma SlotIsProduct(count: nat)
    ensures ((count * MULTIPLIER) % TWO_64) % RESERVOIR == Slot(count)
  {
    var p := count * MULTIPLIER;
    assert TWO_64 == RESERVOIR * 144115188075855872;
    assert MULTIPLIER == RESERVOIR * 89068084525962488 + 21;
    var q := p / TWO_64;
    assert p % TWO_64 == p - q * TWO_64;
    var c := count * 89068084525962488 - q * 144115188075855872;
    assert p % TWO_64 == RESERVOIR * c + 21 * count;
    ModOffset(c, 21 * count);
  }

  lemma ModOffset(c: int, x: int)
    ensures (RESERVOIR * c + x) % RESERVOIR == x % RESERVOIR
  {
    var q, r := x / RESERVOIR, x % RESERVOIR;
    assert RESERVOIR * c + x == RESERVOIR * (c + q) + r;
  }

  /** The only observation number in (n - 128, n] that lands in slot `i`; 61 inverts 21 modulo 128. */
  function Occupant(i: nat, n: nat): (c: nat)
    requires i < RESERVOIR && RESERVOIR <= n
    ensures n - RESERVOIR < c <= n
  {
    n - (n - 61 * i) % RESERVOIR
  }

  lemma InverseOf21(q: int, i: int)
    requires 0 <= i < 128
    ensures (21 * (RESERVOIR * q + 61 * i)) % RESERVOIR == i
  {
    assert 21 * (RESERVOIR * q + 61 * i) == RESERVOIR * (21 * q + 10 * i) + i;
    ModOffset(21 * q + 10 * i, i);
  }

  lemma OccupantLands(i: nat, n: nat)
    requires i < RESERVOIR && RESERVOIR <= n
    ensures Slot(Occupant(i, n)) == i
  {
    var q := (n - 61 * i) / RESERVOIR;
    assert Occupant(i, n) == RESERVOIR * q + 61 * i;
    InverseOf21(q, i);
  }

  lemma SameSlotSameClass(c: int, d: int)
    requires (21 * c) % RESERVOIR == (21 * d) % RESERVOIR
    requires -128 < c - d < 128
    ensures c == d
  {
    var q := 21 * c / RESERVOIR - 21 * d / RESERVOIR;
    assert 21 * (c - d) == RESERVOIR * q;
    assert c - d == RESERVOIR * (61 * q - 10 * (c - d));
  }

  lemma OccupantUnique(c: nat, n: nat)
    requires RESERVOIR <= n && n - RESERVOIR < c <= n
    ensures Occupant(Slot(c), n) == c
  {
    var i := Slot(c);
    OccupantLands(i, n);
    var d := Occupant(i, n);
    SameSlotSameClass(c, d);
  }

  /** What slot `i` holds after `n >= 128` values: its occupant, or still the initial value while the
      occupant would be one of the first 128. */
  function SlotSource(i: nat, n: nat): (r: nat)
    requires i < RESERVOIR <= n
    ensures r < n
  {
    var c := Occupant(i, n);
    if c > RESERVOIR then c - 1 else i
  }

  lemma {:induction false} SamplesAt(vs: seq<real>, i: nat)
    requires |vs| >= RESERVOIR && i < RESERVOIR
    ensures After(vs).samples[i] == vs[SlotSource(i, |vs|)]
    decreases |vs|
  {
    hide Slot, Occupant;
    var n := |vs|;
    var init := vs[..n-1];
    if n == RESERVOIR {
      FirstFill(vs);
    } else {
      SamplesAt(init, i);
      OccupantLands(i, n);
      if Slot(n) == i {
        OccupantUnique(n, n);
      } else {
        var c := Occupant(i, n);
        assert c != n;
        OccupantLands(i, n - 1);
        if c > n - 1 - RESERVOIR { OccupantUnique(c, n - 1); }
      }
    }
  }

  lemma {:induction false} FirstFill(vs: seq<real>)
    requires |vs| <= RESERVOIR
    ensures After(vs).samples == vs
  {
    if vs != [] {
      FirstFill(vs[..|vs|-1]);
    }
  }

  function LastWindow(vs: seq<real>): seq<real> {
    if |vs| <= RESERVOIR then vs else vs[|vs|-RESERVOIR..]
  }

  /** For each slot, the position in the last window of the value it holds. */
  function WindowPositions(n: nat): (at: seq<nat>)
    requires n >= 2 * RESERVOIR
    ensures |at| == RESERVOIR
    ensures forall i :: 0 <= i < RESERVOIR ==> at[i] == Occupant(i, n) - 1 - (n - RESERVOIR) && at[i] < RESERVOIR
  {
    seq(RESERVOIR, i requires 0 <= i < RESERVOIR => Occupant(i, n) - 1 - (n - RESERVOIR))
  }

  lemma WindowPositionsDistinct(n: nat)
    requires n >= 2 * RESERVOIR
    ensures Distinct(WindowPositions(n))
  {
    forall i, j | 0 <= i < j < RESERVOIR ensures Occupant(i, n) != Occupant(j, n) {
      OccupantLands(i, n);
      OccupantLands(j, n);
    }
  }

  lemma SamplesAreWindow(vs: seq<real>)
    requires |vs| >= 2 * RESERVOIR
    ensures After(vs).samples == Pick(LastWindow(vs), WindowPositions(|vs|))
  {
    var s := After(vs).samples;
    forall i | 0 <= i < RESERVOIR ensures s[i] == vs[Occupant(i, |vs|) - 1] {
      SamplesAt(vs, i);
    }
  }

  /** From the 256th value on, the store is a permutation of exactly the last 128 values. */
  lemma SlidingWindow(vs: seq<real>)
    requires |vs| >= 2 * RESERVOIR
    ensures multiset(After(vs).samples) == multiset(LastWindow(vs))
  {
    SamplesAreWindow(vs);
    WindowPositionsDistinct(|vs|);
    PickAllIsPermutation(LastWindow(vs), WindowPositions(|vs|));
  }

  /** While values 129..256 arrive, each overwrites a slot no earlier one of them touched. */
  lemma OverwritesHitDistinctSlots(a: nat, b: nat)
    requires RESERVOIR < a < b <= 2 * RESERVOIR
    ensures Slot(a) != Slot(b)
  {
    OccupantUnique(a, 2 * RESERVOIR);
    OccupantUnique(b, 2 * RESERVOIR);
  }

  lemma OccupantOfZero(n: nat)
    requires RESERVOIR <= n < 2 * RESERVOIR
    ensures Occupant(0, n) == RESERVOIR
  {
    assert (n - 61 * 0) % RESERVOIR == n - RESERVOIR;
  }

  /** In between, the very first value is still stored. */
  lemma FirstValueSurvives(vs: seq<real>)
    requires RESERVOIR <= |vs| < 2 * RESERVOIR
    ensures After(vs).samples[0] == vs[0]
  {
    SamplesAt(vs, 0);
    OccupantOfZero(|vs|);
  }

  lemma FirstValueNotInWindow(vs: seq<real>)
    requires Distinct(vs) && |vs| > RESERVOIR
    ensures vs[0] !in multiset(LastWindow(vs))
  {
    var w := LastWindow(vs);
    assert forall j :: 0 <= j < |w| ==> w[j] == vs[|vs| - RESERVOIR + j];
    assert vs[0] !in w;
  }

  /** The window property holds of distinct values exactly outside the 129..255 gap. */
  lemma WindowExactly(vs: seq<real>)
    requires Distinct(vs)
    ensures multiset(After(vs).samples) == multiset(LastWindow(vs))
       <==> |vs| <= RESERVOIR || |vs| >= 2 * RESERVOIR
  {
    if |vs| <= RESERVOIR {
      FirstFill(vs);
    } else if |vs| >= 2 * RESERVOIR {
      SlidingWindow(vs);
    } else {
      FirstValueSurvives(vs);
      FirstValueNotInWindow(vs);
      assert vs[0] in After(vs).samples;
    }
  }

  // ---------- The mutable record ----------

  class RunningStats {
    var Count: nat
    var Mean: real
    var M2: real
    var Min: real
    var Max: real
    var Samples: seq<real>

    ghost predicate Valid() reads this { |Samples| <= RESERVOIR }

    ghost function Value(): Stat
      requires Valid()
      reads this
    {
      Summary(Count, Mean, M2, Min, Max, Samples)
    }

    constructor ()
      ensures Valid() && Value() == EMPTY
    {
      Count, Mean, M2, Min, Max, Samples := 0, 0.0, 0.0, 0.0, 0.0, [];
    }

    method Add(value: real)
      requires Valid()
      modifies this
      ensures Valid() && Value() == Observe(old(Value()), value)
    {
      hide MovedMean, GrownM2;
      Count := Count + 1;
      if Count == 1 {
        Mean, Min, Max := value, value, value;
      } else {
        if value < Min { Min := value; }
        if value > Max { Max := value; }
        var mean := Mean;
        Mean := MovedMean(mean, value, Count);
        M2 := GrownM2(M2, mean, value, Mean);
      }
      if |Samples| < RESERVOIR {
        Samples := Samples + [value];
      } else {
        var idx := SlotIndex(Count);
        Samples := Samples[idx := value];
      }
    }

    /** The slot in the program's own arithmetic. */
    static method SlotIndex(count: nat) returns (idx: nat)
      ensures idx == Slot(count)
    {
      SlotIsProduct(count);
      idx := ((count * MULTIPLIER) % TWO_64) % RESERVOIR;
    }
  }

  /** Feeding a fresh record one value at a time reaches `After`. */
  method Feed(vs: seq<real>) returns (s: RunningStats)
    ensures fresh(s) && s.Valid() && s.Value() == After(vs)
  {
    s := new RunningStats();
    for i := 0 to |vs|
      invariant fresh(s) && s.Valid() && s.Value() == After(vs[..i])
    {
      assert vs[..i+1][..i] == vs[..i];
      s.Add(vs[i]);
    }
    assert vs[..|vs|] == vs;
  }
}
