/** The planner that spreads one order over several packages, and the validator that
    every submitted split has to pass (internal/service/split_quote.go). */
module SplitPlan {
  import opened Common
  import opened StableSorting
  import Text
  import ListScheduling

  const MAX_PACKAGES := 20
  const MAX_METRIC := 10000.0

  datatype OrderLine = OrderLine(orderSN: string, extCode: string, goodsName: string,
                                 goodsID: int, skuID: int, quantity: int)

  /** One SKU of the package resolution; a missing measure is a nil pointer in the source. */
  datatype ResolutionItem = ResolutionItem(warehouseSKU: string, complete: bool, weight: Option<real>,
                                           length: Option<real>, width: Option<real>, height: Option<real>)

  datatype Spec = Spec(weight: real, length: real, width: real, height: real)

  /** One piece of one line; `spec` is `None` when the SKU is not completely measured. */
  datatype Unit = Unit(line: OrderLine, spec: Option<Spec>)

  datatype SplitItem = SplitItem(orderSN: string, warehouseSKU: string, productName: string,
                                 quantity: int, goodsID: int, skuID: int)

  datatype SplitPackage = SplitPackage(number: int, items: seq<SplitItem>, weight: real, length: real,
                                       width: real, height: real, estimated: bool, needsMeasurement: bool)

  /** A package while it is being filled. */
  datatype Build = Build(items: seq<SplitItem>, weight: real, length: real, width: real, height: real,
                         units: nat, missing: bool)

  datatype PlanError = BadPackageCount | MorePackagesThanUnits

  // ---- units ----

  /** A later resolution item for the same SKU overwrites an earlier one. */
  function SpecTable(items: seq<ResolutionItem>): map<string, ResolutionItem> {
    if items == [] then map[]
    else var last := items[|items| - 1]; SpecTable(items[..|items| - 1])[last.warehouseSKU := last]
  }

  function SpecOf(specs: map<string, ResolutionItem>, sku: string): Option<Spec> {
    if sku !in specs then None
    else match specs[sku]
         case ResolutionItem(_, true, Some(weight), Some(length), Some(width), Some(height)) =>
           Some(Spec(weight, length, width, height))
         case _ => None
  }

  function UnitOf(line: OrderLine, specs: map<string, ResolutionItem>): Unit {
    Unit(line, SpecOf(specs, Text.Trim(line.extCode)))
  }

  function Copies(u: Unit, quantity: int): seq<Unit> {
    if quantity <= 0 then [] else Copies(u, quantity - 1) + [u]
  }

  function UnitsOf(lines: seq<OrderLine>, specs: map<string, ResolutionItem>): seq<Unit> {
    if lines == [] then []
    else
      var last := lines[|lines| - 1];
      UnitsOf(lines[..|lines| - 1], specs) + Copies(UnitOf(last, specs), last.quantity)
  }

  function UnitWeight(u: Unit): real {
    if u.spec.Some? then u.spec.value.weight else 0.0
  }

  /** Measured units first, heaviest first, then by order number. */
  predicate HeavierFirst(u: Unit, v: Unit) {
    if u.spec.Some? != v.spec.Some? then u.spec.Some?
    else if UnitWeight(u) != UnitWeight(v) then UnitWeight(u) > UnitWeight(v)
    else Text.Before(u.line.orderSN, v.line.orderSN)
  }

  // ---- packages ----

  const EMPTY := Build([], 0.0, 0.0, 0.0, 0.0, 0, false)

  predicate LighterBuild(left: Build, right: Build) {
    || left.weight < right.weight
    || (left.weight == right.weight && left.units < right.units)
  }

  function ItemIndex(items: seq<SplitItem>, orderSN: string, from: nat): (i: nat)
    requires from <= |items|
    ensures from <= i <= |items|
    ensures i < |items| ==> items[i].orderSN == orderSN
    ensures forall k | from <= k < i :: items[k].orderSN != orderSN
    decreases |items| - from
  {
    if from == |items| || items[from].orderSN == orderSN then from else ItemIndex(items, orderSN, from + 1)
  }

  function WithOneMore(items: seq<SplitItem>, line: OrderLine): (r: seq<SplitItem>) {
    var i := ItemIndex(items, line.orderSN, 0);
    if i < |items| then items[i := items[i].(quantity := items[i].quantity + 1)]
    else items + [SplitItem(line.orderSN, line.extCode, line.goodsName, 1, line.goodsID, line.skuID)]
  }

  function Max(a: real, b: real): real { if a < b then b else a }

  function Min(a: real, b: real): real { if a < b then a else b }

  /** The three sides of a unit, longest first. */
  function Descending(spec: Spec): (r: (real, real, real))
    ensures r.0 >= r.1 >= r.2
    ensures multiset{r.0, r.1, r.2} == multiset{spec.length, spec.width, spec.height}
  {
    var hi, lo := Max(spec.length, spec.width), Min(spec.length, spec.width);
    if spec.height >= hi then (spec.height, hi, lo)
    else if spec.height >= lo then (hi, spec.height, lo)
    else (hi, lo, spec.height)
  }

  /** The package with one more unit, laid flat on top of what is already packed. */
  function Added(b: Build, u: Unit): Build {
    match u.spec
    case None => Build(WithOneMore(b.items, u.line), b.weight, b.length, b.width, b.height, b.units + 1, true)
    case Some(spec) =>
      var d := Descending(spec);
      Build(WithOneMore(b.items, u.line), b.weight + spec.weight, Max(b.length, d.0), Max(b.width, d.1),
            b.height + d.2, b.units + 1, b.missing)
  }

  /** What is in package `j` after the first `n` units: the units sent there, one on top of the other. */
  function Filled(units: seq<Unit>, a: seq<nat>, n: nat, j: nat): Build
    requires n <= |units| && n <= |a|
  {
    if n == 0 then EMPTY
    else if a[n - 1] == j then Added(Filled(units, a, n - 1, j), units[n - 1])
    else Filled(units, a, n - 1, j)
  }

  function Weights(units: seq<Unit>): (w: seq<real>)
    ensures |w| == |units|
  {
    if units == [] then [] else Weights(units[..|units| - 1]) + [UnitWeight(units[|units| - 1])]
  }

  lemma {:induction false} WeightAt(units: seq<Unit>, i: nat)
    requires i < |units|
    ensures Weights(units)[i] == UnitWeight(units[i])
  {
    if i < |units| - 1 {
      WeightAt(units[..|units| - 1], i);
    }
  }

  /** A package weighs exactly what the units sent to it weigh. */
  lemma {:induction false} FilledWeight(units: seq<Unit>, a: seq<nat>, n: nat, j: nat)
    requires n <= |units| && n <= |a|
    ensures Filled(units, a, n, j).weight == ListScheduling.Load(Weights(units), a, n, j)
    ensures Filled(units, a, n, j).units == ListScheduling.Count(a, n, j)
  {
    if n > 0 {
      FilledWeight(units, a, n - 1, j);
      WeightAt(units, n - 1);
    }
  }

  lemma {:induction false} FilledPrefix(units: seq<Unit>, a: seq<nat>, b: seq<nat>, n: nat, j: nat)
    requires n <= |units| && n <= |a| && n <= |b| && a[..n] == b[..n]
    ensures Filled(units, a, n, j) == Filled(units, b, n, j)
  {
    if n > 0 {
      assert a[n - 1] == a[..n][n - 1] && a[..n - 1] == a[..n][..n - 1];
      assert b[n - 1] == b[..n][n - 1] && b[..n - 1] == b[..n][..n - 1];
      FilledPrefix(units, a, b, n - 1, j);
    }
  }

  function Ceil(x: real): int { -((-x).Floor) }

  /** `roundTo`: up to the next multiple of `1 / factor`. */
  function RoundTo(value: real, factor: real): real
    requires factor > 0.0
  {
    Ceil(value * factor) as real / factor
  }

  /** The package handed out: zeroed when something in it is unmeasured, rounded up otherwise. */
  function Finished(index: nat, b: Build): SplitPackage {
    if b.missing then SplitPackage(index + 1, b.items, 0.0, 0.0, 0.0, 0.0, true, true)
    else SplitPackage(index + 1, b.items, RoundTo(b.weight, 1000.0), RoundTo(b.length, 100.0),
                      RoundTo(b.width, 100.0), RoundTo(b.height, 100.0), true, false)
  }

  /** The units in the order the planner places them. */
  function PlanUnits(lines: seq<OrderLine>, resolution: seq<ResolutionItem>): seq<Unit> {
    StableSort(HeavierFirst, UnitsOf(lines, SpecTable(resolution)))
  }

  function PlanBuild(units: seq<Unit>, m: nat, j: nat): Build
    requires 0 < m
  {
    Filled(units, ListScheduling.Destinations(Weights(units), m, |units|), |units|, j)
  }

  /** The first `k` of the `m` packages. */
  function PlanPackages(units: seq<Unit>, m: nat, k: nat): (r: seq<SplitPackage>)
    requires 0 < m
    ensures |r| == k
  {
    if k == 0 then [] else PlanPackages(units, m, k - 1) + [Finished(k - 1, PlanBuild(units, m, k - 1))]
  }

  lemma {:induction false} PlanPackageAt(units: seq<Unit>, m: nat, k: nat, j: nat)
    requires 0 < m && j < k
    ensures PlanPackages(units, m, k)[j] == Finished(j, PlanBuild(units, m, j))
  {
    if j < k - 1 {
      PlanPackageAt(units, m, k - 1, j);
    }
  }

  function Plan(lines: seq<OrderLine>, resolution: seq<ResolutionItem>, packageCount: int)
    : Result<seq<SplitPackage>, PlanError>
  {
    var units := PlanUnits(lines, resolution);
    if packageCount < 2 || packageCount > MAX_PACKAGES then Err(BadPackageCount)
    else if packageCount > |units| then Err(MorePackagesThanUnits)
    else Ok(PlanPackages(units, packageCount, packageCount))
  }

  // ---- the planner's code ----

  method AddItem(items: seq<SplitItem>, line: OrderLine) returns (r: seq<SplitItem>)
    ensures r == WithOneMore(items, line)
  {
    var itemIndex := 0;
    while itemIndex < |items| && items[itemIndex].orderSN != line.orderSN
      invariant itemIndex <= |items|
      invariant ItemIndex(items, line.orderSN, 0) == ItemIndex(items, line.orderSN, itemIndex)
    {
      itemIndex := itemIndex + 1;
    }
    r := items;
    if itemIndex == |items| {
      r := r + [SplitItem(line.orderSN, line.extCode, line.goodsName, 0, line.goodsID, line.skuID)];
    }
    r := r[itemIndex := r[itemIndex].(quantity := r[itemIndex].quantity + 1)];
  }

  method AddSplitUnit(builds: array<Build>, target: nat, unit: Unit)
    requires target < builds.Length
    modifies builds
    ensures builds[..] == old(builds[..])[target := Added(old(builds[target]), unit)]
  {
    var build := builds[target];
    var items := AddItem(build.items, unit.line);
    build := build.(items := items, units := build.units + 1);
    if unit.spec.None? {
      builds[target] := build.(missing := true);
      return;
    }
    var dimensions := Descending(unit.spec.value);
    build := build.(weight := build.weight + unit.spec.value.weight);
    build := build.(length := Max(build.length, dimensions.0), width := Max(build.width, dimensions.1));
    builds[target] := build.(height := build.height + dimensions.2);
  }

  /** The builds hold the first `n` units where the planner sends them. */
  ghost predicate Holds(builds: seq<Build>, units: seq<Unit>, n: nat)
    requires n <= |units| && |builds| > 0
  {
    forall j | 0 <= j < |builds| ::
      builds[j] == Filled(units, ListScheduling.Destinations(Weights(units), |builds|, n), n, j)
  }

  method PickTarget(builds: array<Build>, ghost units: seq<Unit>, ghost n: nat) returns (target: nat)
    requires builds.Length > 0 && n < |units| && Holds(builds[..], units, n)
    ensures var w := Weights(units);
            target == ListScheduling.Pick(w, ListScheduling.Destinations(w, builds.Length, n), n, builds.Length)
    ensures target < builds.Length
  {
    ghost var w := Weights(units);
    ghost var a := ListScheduling.Destinations(w, builds.Length, n);
    target := 0;
    for index := 1 to builds.Length
      invariant target < index
      invariant target == ListScheduling.Pick(w, a, n, index)
    {
      assert builds[..][index] == Filled(units, a, n, index) && builds[..][target] == Filled(units, a, n, target);
      FilledWeight(units, a, n, index);
      FilledWeight(units, a, n, target);
      if LighterBuild(builds[index], builds[target]) {
        target := index;
      }
    }
  }

  lemma {:induction false} OneMoreHeld(before: seq<Build>, after: seq<Build>, units: seq<Unit>, n: nat, t: nat)
    requires |before| > 0 && n < |units| && Holds(before, units, n) && t < |before|
    requires var w := Weights(units);
             t == ListScheduling.Pick(w, ListScheduling.Destinations(w, |before|, n), n, |before|)
    requires after == before[t := Added(before[t], units[n])]
    ensures Holds(after, units, n + 1)
  {
    var a := ListScheduling.Destinations(Weights(units), |before|, n);
    forall j | 0 <= j < |after| ensures after[j] == Filled(units, a + [t], n + 1, j) {
      FilledPrefix(units, a, a + [t], n, j);
    }
  }

  method PlaceUnits(builds: array<Build>, units: seq<Unit>)
    requires builds.Length > 0 && Holds(builds[..], units, 0)
    modifies builds
    ensures Holds(builds[..], units, |units|)
  {
    for i := 0 to |units|
      invariant Holds(builds[..], units, i)
    {
      ghost var before := builds[..];
      var target := PickTarget(builds, units, i);
      AddSplitUnit(builds, target, units[i]);
      OneMoreHeld(before, builds[..], units, i, target);
    }
  }

  method SplitUnits(lines: seq<OrderLine>, resolution: seq<ResolutionItem>) returns (units: seq<Unit>)
    ensures units == UnitsOf(lines, SpecTable(resolution))
  {
    var specs: map<string, ResolutionItem> := map[];
    for i := 0 to |resolution|
      invariant specs == SpecTable(resolution[..i])
    {
      assert resolution[..i + 1][..i] == resolution[..i];
      specs := specs[resolution[i].warehouseSKU := resolution[i]];
    }
    assert resolution[..|resolution|] == resolution;
    units := [];
    for i := 0 to |lines|
      invariant units == UnitsOf(lines[..i], specs)
    {
      assert lines[..i + 1][..i] == lines[..i];
      var line, before := lines[i], units;
      var quantity := 0;
      while quantity < line.quantity
        invariant quantity <= line.quantity || quantity == 0
        invariant units == before + Copies(UnitOf(line, specs), quantity)
      {
        units := units + [UnitOf(line, specs)];
        quantity := quantity + 1;
      }
    }
    assert lines[..|lines|] == lines;
  }

  method BuildSplitPackages(lines: seq<OrderLine>, resolution: seq<ResolutionItem>, packageCount: int)
    returns (r: Result<seq<SplitPackage>, PlanError>)
    ensures r == Plan(lines, resolution, packageCount)
  {
    if packageCount < 2 || packageCount > MAX_PACKAGES {
      return Err(BadPackageCount);
    }
    var units := SplitUnits(lines, resolution);
    if packageCount > |units| {
      return Err(MorePackagesThanUnits);
    }
    units := StableSort(HeavierFirst, units);
    var m: nat := packageCount;
    var builds := new Build[m](_ => EMPTY);
    PlaceUnits(builds, units);
    var packages := [];
    for index := 0 to m
      invariant packages == PlanPackages(units, m, index)
    {
      assert builds[..][index] == PlanBuild(units, m, index);
      packages := packages + [Finished(index, builds[index])];
    }
    r := Ok(packages);
  }
}
