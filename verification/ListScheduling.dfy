/** What putting each unit into a currently lightest package guarantees, whatever
    tie-break picks among the lightest.  `w` holds the unit weights in the order they
    are placed and `a[i]` is the package that receives unit `i`. */
module ListScheduling {

  /** Weight in package `j` after the first `n` units. */
  function Load(w: seq<real>, a: seq<nat>, n: nat, j: nat): real
    requires n <= |w| && n <= |a|
  {
    if n == 0 then 0.0
    else Load(w, a, n - 1, j) + (if a[n - 1] == j then w[n - 1] else 0.0)
  }

  function Sum(w: seq<real>, n: nat): real
    requires n <= |w|
  {
    if n == 0 then 0.0 else Sum(w, n - 1) + w[n - 1]
  }

  /** Number of units in package `j` after the first `n`. */
  function Count(a: seq<nat>, n: nat, j: nat): nat
    requires n <= |a|
  {
    if n == 0 then 0 else Count(a, n - 1, j) + (if a[n - 1] == j then 1 else 0)
  }

  /** Package `i` is lighter than `j`, fewer units winning between equal weights. */
  predicate Lighter(w: seq<real>, a: seq<nat>, n: nat, i: nat, j: nat)
    requires n <= |w| && n <= |a|
  {
    || Load(w, a, n, i) < Load(w, a, n, j)
    || (Load(w, a, n, i) == Load(w, a, n, j) && Count(a, n, i) < Count(a, n, j))
  }

  /** First lightest of the packages `0..k` after `n` units. */
  function Pick(w: seq<real>, a: seq<nat>, n: nat, k: nat): (t: nat)
    requires n <= |w| && n <= |a| && 0 < k
    ensures t < k
  {
    if k == 1 then 0
    else
      var t := Pick(w, a, n, k - 1);
      if Lighter(w, a, n, k - 1, t) then k - 1 else t
  }

  /** Where the first `n` of the units go. */
  function Destinations(w: seq<real>, m: nat, n: nat): (a: seq<nat>)
    requires 0 < m && n <= |w|
    ensures |a| == n
  {
    if n == 0 then []
    else
      var a := Destinations(w, m, n - 1);
      a + [Pick(w, a, n - 1, m)]
  }

  /** `a` sends every unit to one of `m` packages. */
  ghost predicate Assignment(a: seq<nat>, w: seq<real>, m: nat) {
    |a| == |w| && forall i | 0 <= i < |a| :: a[i] < m
  }

  /** Package `t` is lightest among the `m` packages after `n` units. */
  ghost predicate Lightest(w: seq<real>, a: seq<nat>, m: nat, n: nat, t: nat)
    requires n <= |w| && n <= |a|
  {
    forall j | 0 <= j < m :: Load(w, a, n, t) <= Load(w, a, n, j)
  }

  /** Every unit goes to a package that is lightest at that moment. */
  ghost predicate Greedy(w: seq<real>, a: seq<nat>, m: nat) {
    && Assignment(a, w, m)
    && forall i | 0 <= i < |w| :: Lightest(w, a, m, i, a[i])
  }

  ghost predicate NonNegative(w: seq<real>) {
    forall i | 0 <= i < |w| :: w[i] >= 0.0
  }

  ghost predicate HeaviestFirst(w: seq<real>) {
    forall i, j | 0 <= i < j < |w| :: w[i] >= w[j]
  }

  /** `cap` bounds the weight of every package of `a`. */
  ghost predicate FitsUnder(w: seq<real>, a: seq<nat>, m: nat, cap: real) {
    && Assignment(a, w, m)
    && forall j | 0 <= j < m :: Load(w, a, |w|, j) <= cap
  }

  /** Nothing is lighter than the pick, and the pick is lighter than all before it. */
  lemma {:induction false} PickIsFirstLightest(w: seq<real>, a: seq<nat>, n: nat, k: nat)
    requires n <= |w| && n <= |a| && 0 < k
    ensures forall j | 0 <= j < k :: !Lighter(w, a, n, j, Pick(w, a, n, k))
    ensures forall j | 0 <= j < Pick(w, a, n, k) :: Lighter(w, a, n, Pick(w, a, n, k), j)
  {
    if k > 1 {
      PickIsFirstLightest(w, a, n, k - 1);
      var t, p := Pick(w, a, n, k - 1), Pick(w, a, n, k);
      forall j | 0 <= j < k ensures !Lighter(w, a, n, j, p) {
        assert j == k - 1 || !Lighter(w, a, n, j, t);
      }
      forall j | 0 <= j < p ensures Lighter(w, a, n, p, j) {
        assert p == t || j == t || j > t || Lighter(w, a, n, t, j);
        assert !Lighter(w, a, n, j, t);
      }
    }
  }

  /** Only the first `n` destinations matter for what the first `n` units do. */
  lemma {:induction false} LoadOfPrefix(w: seq<real>, a: seq<nat>, b: seq<nat>, n: nat, j: nat)
    requires n <= |w| && n <= |a| && n <= |b| && a[..n] == b[..n]
    ensures Load(w, a, n, j) == Load(w, b, n, j) && Count(a, n, j) == Count(b, n, j)
  {
    if n > 0 {
      assert a[n - 1] == a[..n][n - 1] && a[..n - 1] == a[..n][..n - 1];
      assert b[n - 1] == b[..n][n - 1] && b[..n - 1] == b[..n][..n - 1];
      LoadOfPrefix(w, a, b, n - 1, j);
    }
  }

  lemma {:induction false} DestinationAt(w: seq<real>, m: nat, n: nat, i: nat)
    requires 0 < m && i < n <= |w|
    ensures Destinations(w, m, n)[..i] == Destinations(w, m, i)
    ensures Destinations(w, m, n)[i] == Pick(w, Destinations(w, m, i), i, m)
  {
    var before := Destinations(w, m, n - 1);
    var a := Destinations(w, m, n);
    assert a == before + [Pick(w, before, n - 1, m)];
    if i < n - 1 {
      DestinationAt(w, m, n - 1, i);
      assert a[..i] == before[..i] && a[i] == before[i];
    } else {
      assert a[..i] == before;
    }
  }

  /** Every choice of the planner goes to a lightest package. */
  lemma {:induction false} DestinationsAreGreedy(w: seq<real>, m: nat)
    requires 0 < m
    ensures Greedy(w, Destinations(w, m, |w|), m)
  {
    var a := Destinations(w, m, |w|);
    forall i | 0 <= i < |w| ensures a[i] < m && Lightest(w, a, m, i, a[i]) {
      DestinationAt(w, m, |w|, i);
      var b := Destinations(w, m, i);
      PickIsFirstLightest(w, b, i, m);
      LoadOfPrefix(w, a, b, i, a[i]);
      forall j | 0 <= j < m ensures Load(w, a, i, a[i]) <= Load(w, a, i, j) {
        LoadOfPrefix(w, a, b, i, j);
        assert !Lighter(w, b, i, j, a[i]);
      }
    }
  }

  /** Weight of the packages `0..m`. */
  ghost function SumLoads(w: seq<real>, a: seq<nat>, n: nat, m: nat): real
    requires n <= |w| && n <= |a|
  {
    if m == 0 then 0.0 else SumLoads(w, a, n, m - 1) + Load(w, a, n, m - 1)
  }

  lemma {:induction false} AddToOne(w: seq<real>, a: seq<nat>, n: nat, m: nat)
    requires 0 < n <= |w| && n <= |a|
    ensures SumLoads(w, a, n, m) == SumLoads(w, a, n - 1, m) + (if a[n - 1] < m then w[n - 1] else 0.0)
  {
    if m > 0 {
      AddToOne(w, a, n, m - 1);
    }
  }

  lemma {:induction false} NothingYet(w: seq<real>, a: seq<nat>, m: nat)
    ensures SumLoads(w, a, 0, m) == 0.0
  {
    if m > 0 {
      NothingYet(w, a, m - 1);
    }
  }

  /** No weight is lost or invented: the packages together weigh what the units weigh. */
  lemma {:induction false} LoadsConserveWeight(w: seq<real>, a: seq<nat>, n: nat, m: nat)
    requires Assignment(a, w, m) && n <= |w|
    ensures SumLoads(w, a, n, m) == Sum(w, n)
  {
    if n == 0 {
      NothingYet(w, a, m);
    } else {
      LoadsConserveWeight(w, a, n - 1, m);
      AddToOne(w, a, n, m);
    }
  }

  /** `m` times `x`, by repeated addition. */
  ghost function Times(m: nat, x: real): real {
    if m == 0 then 0.0 else Times(m - 1, x) + x
  }

  lemma {:induction false} TimesIsProduct(m: nat, x: real)
    ensures Times(m, x) == m as real * x
  {
    if m > 0 {
      TimesIsProduct(m - 1, x);
      assert m as real * x == (m - 1) as real * x + x;
    }
  }

  lemma {:induction false} SumLoadsAtLeast(w: seq<real>, a: seq<nat>, n: nat, m: nat, c: real)
    requires n <= |w| && n <= |a|
    requires forall j | 0 <= j < m :: c <= Load(w, a, n, j)
    ensures Times(m, c) <= SumLoads(w, a, n, m)
  {
    if m > 0 {
      SumLoadsAtLeast(w, a, n, m - 1, c);
    }
  }

  lemma {:induction false} SumLoadsAtMost(w: seq<real>, a: seq<nat>, n: nat, m: nat, c: real)
    requires n <= |w| && n <= |a|
    requires forall j | 0 <= j < m :: Load(w, a, n, j) <= c
    ensures SumLoads(w, a, n, m) <= Times(m, c)
  {
    if m > 0 {
      SumLoadsAtMost(w, a, n, m - 1, c);
    }
  }

  lemma {:induction false} LoadGrows(w: seq<real>, a: seq<nat>, k: nat, n: nat, j: nat)
    requires NonNegative(w) && k <= n <= |w| && n <= |a|
    ensures 0.0 <= Load(w, a, k, j) <= Load(w, a, n, j)
  {
    if n > k {
      LoadGrows(w, a, k, n - 1, j);
    } else if k > 0 {
      LoadGrows(w, a, k - 1, k - 1, j);
    }
  }

  lemma {:induction false} SumGrows(w: seq<real>, k: nat, n: nat)
    requires NonNegative(w) && k <= n <= |w|
    ensures 0.0 <= Sum(w, k) <= Sum(w, n)
  {
    if n > k {
      SumGrows(w, k, n - 1);
    } else if k > 0 {
      SumGrows(w, k - 1, k - 1);
    }
  }

  /** A package holds each unit that was put into it. */
  lemma {:induction false} UnitFits(w: seq<real>, a: seq<nat>, i: nat, n: nat)
    requires NonNegative(w) && i < n <= |w| && n <= |a|
    ensures w[i] <= Load(w, a, n, a[i])
  {
    LoadGrows(w, a, i, i, a[i]);
    LoadGrows(w, a, i + 1, n, a[i]);
  }

  // ---- balance ----

  /** Any two packages differ by at most the heaviest unit. */
  lemma {:induction false} GreedyBalance(w: seq<real>, a: seq<nat>, m: nat, n: nat, heaviest: real, i: nat, j: nat)
    requires NonNegative(w) && Greedy(w, a, m) && n <= |w| && i < m && j < m
    requires 0.0 <= heaviest && forall k | 0 <= k < |w| :: w[k] <= heaviest
    ensures Load(w, a, n, i) - Load(w, a, n, j) <= heaviest
  {
    if n > 0 {
      GreedyBalance(w, a, m, n - 1, heaviest, i, j);
      assert Lightest(w, a, m, n - 1, a[n - 1]);
    }
  }

  // ---- comparison with every other assignment ----

  /** The last unit that package `i` received. */
  lemma {:induction false} LastUnit(w: seq<real>, a: seq<nat>, n: nat, i: nat) returns (l: nat)
    requires n <= |w| && n <= |a| && Load(w, a, n, i) > 0.0
    ensures l < n && a[l] == i && Load(w, a, n, i) == Load(w, a, l, i) + w[l]
  {
    if a[n - 1] == i {
      l := n - 1;
    } else {
      l := LastUnit(w, a, n - 1, i);
    }
  }

  /** When unit `l` is placed its package holds at most the average of the rest. */
  lemma {:induction false} BelowAverage(w: seq<real>, a: seq<nat>, m: nat, l: nat, other: seq<nat>, cap: real)
    requires NonNegative(w) && Greedy(w, a, m) && l < |w| && FitsUnder(w, other, m, cap)
    ensures Times(m, Load(w, a, l, a[l])) + w[l] <= Times(m, cap)
  {
    var x := Load(w, a, l, a[l]);
    assert Sum(w, l) >= Times(m, x) by {
      assert Lightest(w, a, m, l, a[l]);
      SumLoadsAtLeast(w, a, l, m, x);
      LoadsConserveWeight(w, a, l, m);
    }
    assert Sum(w, |w|) <= Times(m, cap) by {
      LoadsConserveWeight(w, other, |w|, m);
      SumLoadsAtMost(w, other, |w|, m, cap);
    }
    SumGrows(w, l + 1, |w|);
  }

  lemma {:induction false} ProductIsNonNegative(x: real, y: real)
    requires 0.0 <= x && 0.0 <= y
    ensures 0.0 <= x * y
  {
  }

  lemma {:induction false} ScaleThird(m: nat, x: real, y: real, cap: real)
    requires m >= 1 && 3.0 * y <= cap && Times(m, x) + y <= Times(m, cap)
    ensures 3.0 * (m as real * (x + y)) <= (4.0 * m as real - 1.0) * cap
  {
    TimesIsProduct(m, x);
    TimesIsProduct(m, cap);
    var r := m as real;
    ProductIsNonNegative(r - 1.0, cap - 3.0 * y);
    assert r * (x + y) == (r * x + y) + (r - 1.0) * y;
  }

  lemma {:induction false} ScaleUnder(m: nat, z: real, cap: real)
    requires m >= 1 && z <= cap && 0.0 <= cap
    ensures 3.0 * (m as real * z) <= (4.0 * m as real - 1.0) * cap
  {
    var r := m as real;
    ProductIsNonNegative(r, cap - z);
    ProductIsNonNegative(r - 1.0, cap);
  }

  // ---- heaviest first: the 4/3 bound ----

  /** Counts a unit double when it cannot share a package of weight `cap` with unit `l`. */
  ghost function Halves(w: seq<real>, l: nat, cap: real): (v: seq<real>)
    requires l < |w|
    ensures |v| == l + 1
    ensures forall q | 0 <= q <= l :: v[q] == if w[q] + w[l] > cap then 2.0 else 1.0
  {
    seq(l + 1, q requires 0 <= q <= l => if w[q] + w[l] > cap then 2.0 else 1.0)
  }

  /** A package of the greedy plan that unit `l` overfills already counts two halves. */
  lemma {:induction false} OverfilledCountsTwo(w: seq<real>, a: seq<nat>, l: nat, cap: real, n: nat, j: nat)
    requires NonNegative(w) && l < |w| <= |a| && n <= l && w[l] <= cap
    ensures var c := Load(Halves(w, l, cap), a, n, j);
            && (c == 0.0 || c == 1.0 || c >= 2.0)
            && (c == 0.0 ==> Load(w, a, n, j) == 0.0)
            && (c == 1.0 ==> Load(w, a, n, j) + w[l] <= cap)
  {
    if n > 0 {
      OverfilledCountsTwo(w, a, l, cap, n - 1, j);
    }
  }

  /** With every unit above a third of `cap`, no package under `cap` holds three halves. */
  lemma {:induction false} UnderCapCountsTwo(w: seq<real>, b: seq<nat>, m: nat, l: nat, cap: real, n: nat, j: nat)
    requires NonNegative(w) && HeaviestFirst(w) && l < |w| && FitsUnder(w, b, m, cap)
    requires n <= l + 1 && j < m && 3.0 * w[l] > cap
    ensures var c, x := Load(Halves(w, l, cap), b, n, j), Load(w, b, n, j);
            || (c == 0.0 && x == 0.0)
            || (c == 1.0 && x >= w[l])
            || (c == 2.0 && (x + w[l] > cap || x >= 2.0 * w[l]))
  {
    if n > 0 {
      UnderCapCountsTwo(w, b, m, l, cap, n - 1, j);
      LoadGrows(w, b, n, |w|, j);
      assert w[n - 1] >= w[l];
    }
  }

  lemma {:induction false} AllOverfilled(w: seq<real>, a: seq<nat>, m: nat, cap: real, l: nat)
    requires NonNegative(w) && Greedy(w, a, m) && l < |w| && w[l] <= cap
    requires Load(w, a, l, a[l]) + w[l] > cap
    ensures Times(m, 2.0) <= Sum(Halves(w, l, cap), l)
  {
    var v := Halves(w, l, cap);
    forall j | 0 <= j < m ensures 2.0 <= Load(v, a, l, j) {
      assert Lightest(w, a, m, l, a[l]);
      OverfilledCountsTwo(w, a, l, cap, l, j);
    }
    SumLoadsAtLeast(v, a, l, m, 2.0);
    PrefixConserves(v, a, l, m);
  }

  lemma {:induction false} OthersCountTwo(w: seq<real>, b: seq<nat>, m: nat, cap: real, l: nat)
    requires NonNegative(w) && HeaviestFirst(w) && l < |w| && FitsUnder(w, b, m, cap) && 3.0 * w[l] > cap
    ensures Sum(Halves(w, l, cap), l + 1) <= Times(m, 2.0)
  {
    var v, n := Halves(w, l, cap), l + 1;
    forall j | 0 <= j < m ensures Load(v, b, n, j) <= 2.0 {
      UnderCapCountsTwo(w, b, m, l, cap, n, j);
    }
    SumLoadsAtMost(v, b, n, m, 2.0);
    PrefixConserves(v, b, n, m);
  }

  /** A unit heavier than a third of `cap` never lifts its package above `cap`. */
  lemma {:induction false} BigUnitFits(w: seq<real>, a: seq<nat>, m: nat, other: seq<nat>, cap: real, l: nat)
    requires NonNegative(w) && HeaviestFirst(w) && Greedy(w, a, m) && l < |w|
    requires FitsUnder(w, other, m, cap) && 3.0 * w[l] > cap
    ensures Load(w, a, l, a[l]) + w[l] <= cap
  {
    UnitFits(w, other, l, |w|);
    if Load(w, a, l, a[l]) + w[l] > cap {
      AllOverfilled(w, a, m, cap, l);
      OthersCountTwo(w, other, m, cap, l);
    }
  }

  lemma {:induction false} PrefixConserves(v: seq<real>, a: seq<nat>, n: nat, m: nat)
    requires n <= |v| <= |a| && forall i | 0 <= i < |a| :: a[i] < m
    ensures SumLoads(v, a, n, m) == Sum(v, n)
  {
    if n == 0 {
      NothingYet(v, a, m);
    } else {
      PrefixConserves(v, a, n - 1, m);
      AddToOne(v, a, n, m);
    }
  }

  /** `x` is at most (4/3 - 1/(3m)) times `cap`. */
  ghost predicate WithinFourThirds(m: nat, x: real, cap: real) {
    3.0 * (m as real * x) <= (4.0 * m as real - 1.0) * cap
  }

  /** Placed heaviest first, the heaviest package is at most (4/3 - 1/(3m)) times the
      heaviest package of any assignment of the same units to `m` packages. */
  lemma {:induction false} GreedyWithinFourThirds(w: seq<real>, a: seq<nat>, m: nat, other: seq<nat>, cap: real, i: nat)
    requires NonNegative(w) && HeaviestFirst(w) && Greedy(w, a, m) && i < m
    requires FitsUnder(w, other, m, cap)
    ensures WithinFourThirds(m, Load(w, a, |w|, i), cap)
  {
    assert 0.0 <= cap by { LoadGrows(w, other, 0, |w|, 0); }
    var z := Load(w, a, |w|, i);
    if z <= cap {
      ScaleUnder(m, z, cap);
    } else {
      var l := LastUnit(w, a, |w|, i);
      var x, y := Load(w, a, l, i), w[l];
      assert Times(m, x) + y <= Times(m, cap) by { BelowAverage(w, a, m, l, other, cap); }
      assert 3.0 * y <= cap by {
        if 3.0 * y > cap { BigUnitFits(w, a, m, other, cap, l); }
      }
      ScaleThird(m, x, y, cap);
    }
  }
}
