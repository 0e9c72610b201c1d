/** What a package of a plan holds and measures, in terms of the units sent to it. */
module SplitContents {
  import opened Common
  import opened StableSorting
  import opened SplitPlan
  import opened SplitAgreement
  import opened SplitLimits
  import opened ListScheduling
  import SplitBalance
  import Text

  // ---- the units ----

  /** The measures of a SKU are those of its last resolution item, when that one is complete. */
  lemma {:induction false} SpecMeans(items: seq<ResolutionItem>, sku: string, last: nat)
    requires last < |items| && items[last].warehouseSKU == sku
    requires forall i | last < i < |items| :: items[i].warehouseSKU != sku
    ensures var (r, spec) := (items[last], SpecOf(SpecTable(items), sku));
            if r.complete && r.weight.Some? && r.length.Some? && r.width.Some? && r.height.Some?
            then spec == Some(Spec(r.weight.value, r.length.value, r.width.value, r.height.value)) else spec == None
  {
    if last < |items| - 1 { SpecMeans(items[..|items| - 1], sku, last); }
  }

  lemma {:induction false} UnknownSku(items: seq<ResolutionItem>, sku: string)
    requires forall i | 0 <= i < |items| :: items[i].warehouseSKU != sku
    ensures SpecOf(SpecTable(items), sku) == None
  {
    if items != [] { UnknownSku(items[..|items| - 1], sku); }
  }

  /** Unit `u` may stand before unit `v`: measured units first, then the heavier ones, then by order number. */
  predicate InOrder(u: Unit, v: Unit) {
    && (v.spec.Some? ==> u.spec.Some? && u.spec.value.weight >= v.spec.value.weight)
    && ((u.spec.None? && v.spec.None?) || (u.spec.Some? && v.spec.Some? && u.spec.value.weight == v.spec.value.weight) ==>
         !Text.Before(v.line.orderSN, u.line.orderSN))
  }

  /** The units placed are those of the lines, in that order. */
  lemma {:induction false} UnitsInOrder(lines: seq<OrderLine>, resolution: seq<ResolutionItem>, i: nat, j: nat)
    requires i < j < |PlanUnits(lines, resolution)|
    ensures multiset(PlanUnits(lines, resolution)) == multiset(UnitsOf(lines, SpecTable(resolution)))
    ensures InOrder(PlanUnits(lines, resolution)[i], PlanUnits(lines, resolution)[j])
  {
    var all := UnitsOf(lines, SpecTable(resolution));
    SplitBalance.HeavierFirstIsStrictWeak(all);
    SortSorts(HeavierFirst, all);
    assert !HeavierFirst(StableSort(HeavierFirst, all)[j], StableSort(HeavierFirst, all)[i]);
  }

  /** Exactly where a unit goes: to a lightest package, of these to one with fewest units, of these to the first. */
  lemma {:induction false} DestinationMeans(w: seq<real>, m: nat, i: nat, j: nat)
    requires j < m && i < |w|
    ensures var a := Destinations(w, m, |w|);
            var t := a[i];
            && t < m && Load(w, a, i, t) <= Load(w, a, i, j)
            && (Load(w, a, i, t) == Load(w, a, i, j) ==> Count(a, i, t) < Count(a, i, j) || (Count(a, i, t) == Count(a, i, j) && t <= j))
  {
    var a, b := Destinations(w, m, |w|), Destinations(w, m, i);
    DestinationAt(w, m, |w|, i);
    PickIsFirstLightest(w, b, i, m);
    LoadOfPrefix(w, a, b, i, a[i]);
    LoadOfPrefix(w, a, b, i, j);
    CountOfPrefix(a, b, i, a[i]);
    CountOfPrefix(a, b, i, j);
    assert !Lighter(w, b, i, j, a[i]);
    assert j < a[i] ==> Lighter(w, b, i, a[i], j);
  }

  lemma {:induction false} CountOfPrefix(a: seq<nat>, b: seq<nat>, n: nat, j: nat)
    requires n <= |a| && n <= |b| && a[..n] == b[..n]
    ensures Count(a, n, j) == Count(b, n, j)
  {
    if n > 0 {
      assert a[n - 1] == a[..n][n - 1] && a[..n - 1] == a[..n][..n - 1];
      assert b[n - 1] == b[..n][n - 1] && b[..n - 1] == b[..n][..n - 1];
      CountOfPrefix(a, b, n - 1, j);
    }
  }

  // ---- what fails ----

  lemma {:induction false} AllCount(units: seq<Unit>)
    ensures UnitCount(units, sn => true) == |units|
  {
    if units != [] { AllCount(units[1..]); }
  }

  /** A plan is refused exactly for a bad package count or for more packages than pieces. */
  lemma {:induction false} PlanFailsExactlyWhen(lines: seq<OrderLine>, resolution: seq<ResolutionItem>,
                                                packageCount: int)
    ensures var (r, pieces) := (Plan(lines, resolution, packageCount), Asked(lines, sn => true));
            && (r == Err(BadPackageCount) <==> packageCount < 2 || packageCount > 20)
            && (r == Err(MorePackagesThanUnits) <==> 2 <= packageCount <= 20 && packageCount > pieces)
            && (r.Ok? ==> |r.value| == packageCount)
  {
    UnitsCount(lines, SpecTable(resolution), sn => true);
    AllCount(UnitsOf(lines, SpecTable(resolution)));
  }

  // ---- the sides ----

  /** Unit `i` is measured and goes to package `j`. */
  predicate MeasuredIn(units: seq<Unit>, a: seq<nat>, i: nat, j: nat)
    requires i < |units| && i < |a|
  {
    a[i] == j && units[i].spec.Some?
  }

  /** `x` is the largest side of this kind among the measured units sent to package `j`, or zero without any. */
  ghost predicate Largest(x: real, units: seq<Unit>, a: seq<nat>, n: nat, j: nat, side: Spec -> real)
    requires n <= |units| && n <= |a|
  {
    && x >= 0.0 && (forall i | 0 <= i < n && MeasuredIn(units, a, i, j) :: side(units[i].spec.value) <= x)
    && (x == 0.0 || exists i | 0 <= i < n && MeasuredIn(units, a, i, j) :: side(units[i].spec.value) == x)
  }

  lemma {:induction false} OneMoreSide(x: real, units: seq<Unit>, a: seq<nat>, n: nat, j: nat, side: Spec -> real)
    requires 0 < n <= |units| && n <= |a| && Largest(x, units, a, n - 1, j, side)
    ensures Largest(if MeasuredIn(units, a, n - 1, j) then Max(x, side(units[n - 1].spec.value)) else x, units, a, n, j, side)
  {
    if i :| 0 <= i < n - 1 && MeasuredIn(units, a, i, j) && side(units[i].spec.value) == x {
      assert MeasuredIn(units, a, i, j);
    }
    if MeasuredIn(units, a, n - 1, j) {
      assert Max(x, side(units[n - 1].spec.value)) >= x;
    }
  }

  /** A package is as long as the longest longest side and as wide as the longest middle side in it. */
  lemma {:induction false} FilledSides(units: seq<Unit>, a: seq<nat>, n: nat, j: nat)
    requires n <= |units| && n <= |a|
    ensures Largest(Filled(units, a, n, j).length, units, a, n, j, Longest)
    ensures Largest(Filled(units, a, n, j).width, units, a, n, j, Middle)
  {
    if n > 0 {
      FilledSides(units, a, n - 1, j);
      OneMoreSide(Filled(units, a, n - 1, j).length, units, a, n, j, Longest);
      OneMoreSide(Filled(units, a, n - 1, j).width, units, a, n, j, Middle);
      if MeasuredIn(units, a, n - 1, j) { SidesOf(units[n - 1].spec.value); }
    }
  }

  /** `y` is the least multiple of `1 / factor` that is not below `x`. */
  ghost predicate RoundedUp(x: real, y: real, factor: real) {
    x * factor <= y * factor < x * factor + 1.0 && (y * factor).Floor as real == y * factor
  }

  lemma {:induction false} RoundToRoundsUp(x: real, factor: real)
    requires factor > 0.0
    ensures RoundedUp(x, RoundTo(x, factor), factor)
  {
    var k := Ceil(x * factor);
    assert k as real == RoundTo(x, factor) * factor;
  }

  /** The measures a package is handed out with: zero when a unit in it is not measured; otherwise the weights and the
      shortest sides added up, the largest longest and the largest middle side, each rounded up. */
  lemma {:induction false} PackageMeasures(lines: seq<OrderLine>, resolution: seq<ResolutionItem>, m: nat,
                                           packages: seq<SplitPackage>, j: nat)
    requires Plan(lines, resolution, m) == Ok(packages) && j < m
    ensures var (units, p) := (PlanUnits(lines, resolution), packages[j]);
            var (a, n) := (Destinations(Weights(units), m, |units|), |units|);
            && p.number == j + 1 && p.estimated
            && (p.needsMeasurement <==> exists i | 0 <= i < n :: a[i] == j && units[i].spec.None?)
            && (p.needsMeasurement ==> p.weight == p.length == p.width == p.height == 0.0)
            && (!p.needsMeasurement ==>
                 && RoundedUp(Load(Parts(units, Weight), a, n, j), p.weight, 1000.0)
                 && RoundedUp(Load(Parts(units, Shortest), a, n, j), p.height, 100.0)
                 && (exists length :: Largest(length, units, a, n, j, Longest) && RoundedUp(length, p.length, 100.0))
                 && (exists width :: Largest(width, units, a, n, j, Middle) && RoundedUp(width, p.width, 100.0)))
  {
    var units := PlanUnits(lines, resolution);
    var (a, n) := (Destinations(Weights(units), m, |units|), |units|);
    var b := PlanBuild(units, m, j);
    PlanPackageAt(units, m, m, j);
    MissingMeansUnmeasured(units, a, n, j);
    FilledMeasures(units, a, n, j);
    FilledSides(units, a, n, j);
    if !b.missing {
      RoundToRoundsUp(b.weight, 1000.0);
      RoundToRoundsUp(b.length, 100.0);
      RoundToRoundsUp(b.width, 100.0);
      RoundToRoundsUp(b.height, 100.0);
    }
  }

  // ---- the items ----

  /** How many of the first `n` units with this order number go to package `j`. */
  function Sent(units: seq<Unit>, a: seq<nat>, n: nat, j: nat, sn: string): nat
    requires n <= |units| && n <= |a|
  {
    if n == 0 then 0
    else Sent(units, a, n - 1, j, sn) + (if a[n - 1] == j && units[n - 1].line.orderSN == sn then 1 else 0)
  }

  /** The units that bring a new order number into package `j`. */
  function Firsts(units: seq<Unit>, a: seq<nat>, n: nat, j: nat): (r: seq<nat>)
    requires n <= |units| && n <= |a|
    ensures forall k | 0 <= k < |r| :: r[k] < n && a[r[k]] == j
  {
    if n == 0 then []
    else Firsts(units, a, n - 1, j) + (if a[n - 1] == j && Sent(units, a, n - 1, j, units[n - 1].line.orderSN) == 0 then [n - 1] else [])
  }

  /** The item a line gets in a package. */
  function ItemOf(line: OrderLine, quantity: int): SplitItem {
    SplitItem(orderSN := line.orderSN, warehouseSKU := line.extCode, productName := line.goodsName, quantity := quantity,
              goodsID := line.goodsID, skuID := line.skuID)
  }

  /** One item for each order number, in the order in which they come, each with the texts of the first unit. */
  ghost predicate Lists(items: seq<SplitItem>, units: seq<Unit>, a: seq<nat>, n: nat, j: nat)
    requires n <= |units| && n <= |a|
  {
    var firsts := Firsts(units, a, n, j);
    && |items| == |firsts|
    && (forall k | 0 <= k < |items| ::
         items[k] == ItemOf(units[firsts[k]].line, Sent(units, a, n, j, units[firsts[k]].line.orderSN)))
  }

  /** An order number that came before has an item already. */
  lemma {:induction false} SentHasItem(units: seq<Unit>, a: seq<nat>, n: nat, j: nat, sn: string) returns (k: nat)
    requires n <= |units| && n <= |a| && Sent(units, a, n, j, sn) > 0
    ensures k < |Firsts(units, a, n, j)| && units[Firsts(units, a, n, j)[k]].line.orderSN == sn
  {
    if Sent(units, a, n - 1, j, sn) > 0 {
      k := SentHasItem(units, a, n - 1, j, sn);
    } else {
      k := |Firsts(units, a, n, j)| - 1;
    }
  }

  lemma {:induction false} FirstsWereSent(units: seq<Unit>, a: seq<nat>, n: nat, j: nat, k: nat)
    requires n <= |units| && n <= |a| && k < |Firsts(units, a, n, j)|
    ensures Sent(units, a, n, j, units[Firsts(units, a, n, j)[k]].line.orderSN) > 0
  {
    if k < |Firsts(units, a, n - 1, j)| { FirstsWereSent(units, a, n - 1, j, k); }
  }

  /** The next unit's order number is the one of item `i`. */
  lemma {:induction false} KnownListed(before: seq<SplitItem>, units: seq<Unit>, a: seq<nat>, n: nat, j: nat, i: nat)
    requires 0 < n <= |units| && n <= |a| && a[n - 1] == j && Lists(before, units, a, n - 1, j) && WellPacked(before)
    requires i < |before| && before[i].orderSN == units[n - 1].line.orderSN && Sent(units, a, n - 1, j, before[i].orderSN) > 0
    ensures Lists(before[i := before[i].(quantity := before[i].quantity + 1)], units, a, n, j)
  {
    assert Firsts(units, a, n, j) == Firsts(units, a, n - 1, j);
    forall k | 0 <= k < |before|
      ensures Sent(units, a, n, j, before[k].orderSN) == Sent(units, a, n - 1, j, before[k].orderSN) + (if k == i then 1 else 0)
    {
    }
  }

  lemma {:induction false} NewListed(before: seq<SplitItem>, units: seq<Unit>, a: seq<nat>, n: nat, j: nat)
    requires 0 < n <= |units| && n <= |a| && a[n - 1] == j && Lists(before, units, a, n - 1, j)
    requires Sent(units, a, n - 1, j, units[n - 1].line.orderSN) == 0
    ensures Lists(before + [ItemOf(units[n - 1].line, 1)], units, a, n, j)
    ensures forall k | 0 <= k < |before| :: before[k].orderSN != units[n - 1].line.orderSN
  {
    forall k | 0 <= k < |before|
      ensures before[k].orderSN != units[n - 1].line.orderSN
      ensures Sent(units, a, n, j, before[k].orderSN) == Sent(units, a, n - 1, j, before[k].orderSN)
    {
      FirstsWereSent(units, a, n - 1, j, k);
    }
  }

  lemma {:induction false} OneMoreListed(before: seq<SplitItem>, units: seq<Unit>, a: seq<nat>, n: nat, j: nat)
    requires 0 < n <= |units| && n <= |a| && a[n - 1] == j && Lists(before, units, a, n - 1, j) && WellPacked(before)
    ensures Lists(WithOneMore(before, units[n - 1].line), units, a, n, j)
  {
    var sn := units[n - 1].line.orderSN;
    if Sent(units, a, n - 1, j, sn) > 0 {
      var k := SentHasItem(units, a, n - 1, j, sn);
      assert before[k].orderSN == sn;
      KnownListed(before, units, a, n, j, k);
    } else {
      NewListed(before, units, a, n, j);
    }
  }

  lemma {:induction false} ItemsList(units: seq<Unit>, a: seq<nat>, n: nat, j: nat)
    requires n <= |units| && n <= |a|
    ensures Lists(Items(units, a, n, j), units, a, n, j)
  {
    if n > 0 {
      ItemsList(units, a, n - 1, j);
      ItemsAreWellPacked(units, a, n - 1, j);
      if a[n - 1] == j { OneMoreListed(Items(units, a, n - 1, j), units, a, n, j); }
    }
  }

  lemma {:induction false} PackageItems(lines: seq<OrderLine>, resolution: seq<ResolutionItem>, m: nat,
                                        packages: seq<SplitPackage>, j: nat)
    requires Plan(lines, resolution, m) == Ok(packages) && j < m
    ensures var units := PlanUnits(lines, resolution);
            Lists(packages[j].items, units, Destinations(Weights(units), m, |units|), |units|, j)
  {
    var units := PlanUnits(lines, resolution);
    PlanItems(units, m, m, j);
    ItemsList(units, Destinations(Weights(units), m, |units|), |units|, j);
  }
}
