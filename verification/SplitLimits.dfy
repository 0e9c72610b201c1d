/** When no package of a plan outgrows the limit, in terms of the order alone: what a caller can check
    before planning. */
module SplitLimits {
  import opened Common
  import opened StableSorting
  import opened SplitPlan
  import opened SplitValidation
  import opened SplitAgreement
  import opened SplitTheorem
  import opened ListScheduling
  import Text

  // ---- totals of a measure ----

  function Weight(spec: Spec): real { spec.weight }

  function Longest(spec: Spec): real { Max(spec.length, Max(spec.width, spec.height)) }

  /** A unit is laid flat: packages grow by its shortest side. */
  function Shortest(spec: Spec): real { Min(spec.length, Min(spec.width, spec.height)) }

  /** What the longest and the shortest side leave of the three. */
  function Middle(spec: Spec): real { spec.length + spec.width + spec.height - Longest(spec) - Shortest(spec) }

  /** A unit's sides do not depend on how it was measured. */
  lemma {:induction false} SidesOf(spec: Spec)
    ensures Descending(spec) == (Longest(spec), Middle(spec), Shortest(spec))
    ensures Longest(spec) >= Middle(spec) >= Shortest(spec)
    ensures multiset{Longest(spec), Middle(spec), Shortest(spec)} == multiset{spec.length, spec.width, spec.height}
  {
  }

  function Part(spec: Option<Spec>, part: Spec -> real): real {
    if spec.None? then 0.0 else part(spec.value)
  }

  /** `quantity` pieces of one measure; a line without a positive quantity has none. */
  function Measured(quantity: int, x: real): real {
    if quantity > 0 then quantity as real * x else 0.0
  }

  /** What the lines ask for in all. */
  function Demand(lines: seq<OrderLine>, specs: map<string, ResolutionItem>, part: Spec -> real): real {
    if lines == [] then 0.0
    else
      var last := lines[|lines| - 1];
      Demand(lines[..|lines| - 1], specs, part) + Measured(last.quantity, Part(SpecOf(specs, Text.Trim(last.extCode)), part))
  }

  function Total(units: seq<Unit>, part: Spec -> real): real {
    if units == [] then 0.0 else Part(units[0].spec, part) + Total(units[1..], part)
  }

  function Parts(units: seq<Unit>, part: Spec -> real): (w: seq<real>)
    ensures |w| == |units|
  {
    if units == [] then [] else Parts(units[..|units| - 1], part) + [Part(units[|units| - 1].spec, part)]
  }

  lemma {:induction false} PartAt(units: seq<Unit>, part: Spec -> real, i: nat)
    requires i < |units|
    ensures Parts(units, part)[i] == Part(units[i].spec, part)
  {
    if i < |units| - 1 { PartAt(units[..|units| - 1], part, i); }
  }

  lemma {:induction false} TotalOfConcat(s: seq<Unit>, t: seq<Unit>, part: Spec -> real)
    ensures Total(s + t, part) == Total(s, part) + Total(t, part)
  {
    if s == [] {
      assert s + t == t;
    } else {
      TotalOfConcat(s[1..], t, part);
      assert (s + t)[1..] == s[1..] + t;
    }
  }

  lemma {:induction false} SumOfParts(units: seq<Unit>, part: Spec -> real, n: nat)
    requires n <= |units|
    ensures Sum(Parts(units, part), n) == Total(units[..n], part)
  {
    if n > 0 {
      SumOfParts(units, part, n - 1);
      PartAt(units, part, n - 1);
      assert units[..n] == units[..n - 1] + [units[n - 1]];
      TotalOfConcat(units[..n - 1], [units[n - 1]], part);
    }
  }

  lemma {:induction false} InsertTotal(x: Unit, s: seq<Unit>, part: Spec -> real)
    ensures Total(Insert(HeavierFirst, x, s), part) == Part(x.spec, part) + Total(s, part)
  {
    assert ([x] + s)[1..] == s;
    if s != [] && HeavierFirst(s[0], x) {
      InsertTotal(x, s[1..], part);
      var rest := Insert(HeavierFirst, x, s[1..]);
      assert ([s[0]] + rest)[1..] == rest;
    }
  }

  lemma {:induction false} SortTotal(s: seq<Unit>, part: Spec -> real)
    ensures Total(StableSort(HeavierFirst, s), part) == Total(s, part)
  {
    if s != [] {
      SortTotal(s[1..], part);
      InsertTotal(s[0], StableSort(HeavierFirst, s[1..]), part);
    }
  }

  lemma {:induction false} CopiesTotal(u: Unit, quantity: int, part: Spec -> real)
    ensures Total(Copies(u, quantity), part) == Measured(quantity, Part(u.spec, part))
  {
    if quantity > 0 {
      CopiesTotal(u, quantity - 1, part);
      TotalOfConcat(Copies(u, quantity - 1), [u], part);
      OneMoreCopy(quantity, Part(u.spec, part));
    }
  }

  lemma {:induction false} OneMoreCopy(quantity: int, x: real)
    requires quantity > 0
    ensures quantity as real * x == (quantity - 1) as real * x + x
  {
  }

  lemma {:induction false} UnitsTotal(lines: seq<OrderLine>, specs: map<string, ResolutionItem>, part: Spec -> real)
    ensures Total(UnitsOf(lines, specs), part) == Demand(lines, specs, part)
  {
    if lines != [] {
      var front, last := lines[..|lines| - 1], lines[|lines| - 1];
      UnitsTotal(front, specs, part);
      CopiesTotal(UnitOf(last, specs), last.quantity, part);
      TotalOfConcat(UnitsOf(front, specs), Copies(UnitOf(last, specs), last.quantity), part);
    }
  }

  /** The planned units together measure what the lines ask for. */
  lemma {:induction false} PlannedTotal(lines: seq<OrderLine>, resolution: seq<ResolutionItem>, part: Spec -> real)
    ensures var w := Parts(PlanUnits(lines, resolution), part); Sum(w, |w|) == Demand(lines, SpecTable(resolution), part)
  {
    var units := PlanUnits(lines, resolution);
    SumOfParts(units, part, |units|);
    assert units[..|units|] == units;
    SortTotal(UnitsOf(lines, SpecTable(resolution)), part);
    UnitsTotal(lines, SpecTable(resolution), part);
  }

  // ---- one package ----

  /** Laid flat: the shortest side goes on top of what is there. */
  lemma {:induction false} AddedMeasures(b: Build, u: Unit)
    ensures Added(b, u).weight == b.weight + Part(u.spec, Weight) && Added(b, u).height == b.height + Part(u.spec, Shortest)
    ensures Added(b, u).length == if u.spec.Some? then Max(b.length, Longest(u.spec.value)) else b.length
    ensures Added(b, u).width == if u.spec.Some? then Max(b.width, Middle(u.spec.value)) else b.width
  {
    if u.spec.Some? { SidesOf(u.spec.value); }
  }

  lemma {:induction false} FilledMeasures(units: seq<Unit>, a: seq<nat>, n: nat, j: nat)
    requires n <= |units| && n <= |a|
    ensures Filled(units, a, n, j).weight == Load(Parts(units, Weight), a, n, j)
    ensures Filled(units, a, n, j).height == Load(Parts(units, Shortest), a, n, j)
  {
    if n > 0 {
      FilledMeasures(units, a, n - 1, j);
      AddedMeasures(Filled(units, a, n - 1, j), units[n - 1]);
      PartAt(units, Weight, n - 1);
      PartAt(units, Shortest, n - 1);
    }
  }

  /** Length and width are those of single units. */
  lemma {:induction false} FilledWithin(units: seq<Unit>, a: seq<nat>, n: nat, j: nat, limit: real)
    requires n <= |units| && n <= |a| && limit >= 0.0
    requires forall u | u in units :: Part(u.spec, Longest) <= limit
    ensures Filled(units, a, n, j).length <= limit && Filled(units, a, n, j).width <= limit
  {
    if n > 0 {
      FilledWithin(units, a, n - 1, j, limit);
      assert units[n - 1] in units;
    }
  }

  lemma {:induction false} FilledReaches(units: seq<Unit>, a: seq<nat>, n: nat, i: nat)
    requires i < n <= |units| && n <= |a| && units[i].spec.Some?
    ensures Longest(units[i].spec.value) <= Filled(units, a, n, a[i]).length
  {
    if i < n - 1 { FilledReaches(units, a, n - 1, i); }
  }

  lemma {:induction false} OneOfMany(w: seq<real>, a: seq<nat>, n: nat, i: nat)
    requires NonNegative(w) && i < n <= |w| && n <= |a|
    ensures w[i] <= Load(w, a, n, a[i])
  {
    if i < n - 1 {
      OneOfMany(w, a, n - 1, i);
    } else {
      LoadGrows(w, a, n - 1, n - 1, a[i]);
    }
  }

  lemma {:induction false} LoadAtMostSum(w: seq<real>, a: seq<nat>, n: nat, j: nat)
    requires NonNegative(w) && n <= |w| && n <= |a|
    ensures 0.0 <= Load(w, a, n, j) <= Sum(w, n)
  {
    if n > 0 { LoadAtMostSum(w, a, n - 1, j); }
  }

  lemma {:induction false} PartsAreNonNegative(units: seq<Unit>, part: Spec -> real)
    requires PositiveUnits(units) && (part == Weight || part == Shortest)
    ensures NonNegative(Parts(units, part))
  {
    forall i | 0 <= i < |units| ensures Parts(units, part)[i] >= 0.0 {
      PartAt(units, part, i);
      assert units[i] in units;
    }
  }

  lemma {:induction false} TimesAdds(m: nat, x: real, y: real)
    ensures Times(m, x + y) == Times(m, x) + Times(m, y)
  {
    if m > 0 { TimesAdds(m - 1, x, y); }
  }

  lemma {:induction false} TimesGrowsStrictly(m: nat, x: real, y: real)
    requires m > 0 && x > y
    ensures Times(m, x) > Times(m, y)
  {
    if m > 1 { TimesGrowsStrictly(m - 1, x, y); } else { assert Times(0, x) == Times(0, y); }
  }

  /** A balanced load is at most the average plus the heaviest unit. */
  lemma {:induction false} BalancedLoad(w: seq<real>, m: nat, heaviest: real, limit: real, j: nat)
    requires j < m && forall i | 0 <= i < |w| :: 0.0 <= w[i] <= heaviest
    requires 0.0 <= heaviest && Sum(w, |w|) + Times(m, heaviest) <= Times(m, limit)
    ensures Load(w, Destinations(w, m, |w|), |w|, j) <= limit
  {
    var a := Destinations(w, m, |w|);
    var load := Load(w, a, |w|, j);
    DestinationsAreGreedy(w, m);
    forall i | 0 <= i < m ensures load - heaviest <= Load(w, a, |w|, i) { GreedyBalance(w, a, m, |w|, heaviest, j, i); }
    SumLoadsAtLeast(w, a, |w|, m, load - heaviest);
    LoadsConserveWeight(w, a, |w|, m);
    TimesAdds(m, load - heaviest, heaviest);
    if load > limit { TimesGrowsStrictly(m, load, limit); }
  }

  // ---- the order as the caller sees it ----

  /** The measures of the SKU a line asks for. */
  function LineSpec(line: OrderLine, resolution: seq<ResolutionItem>): Option<Spec> {
    SpecOf(SpecTable(resolution), Text.Trim(line.extCode))
  }

  ghost predicate FullyMeasured(lines: seq<OrderLine>, resolution: seq<ResolutionItem>) {
    forall l | l in lines && l.quantity > 0 :: LineSpec(l, resolution).Some?
  }

  /** Every piece weighs at most `heaviest` and is at most `longest` long. */
  ghost predicate PiecesWithin(lines: seq<OrderLine>, resolution: seq<ResolutionItem>, heaviest: real, longest: real) {
    forall l | l in lines && l.quantity > 0 ::
      Part(LineSpec(l, resolution), Weight) <= heaviest && Part(LineSpec(l, resolution), Longest) <= longest
  }

  /** The whole order fits into one package, or its average package leaves room for the heaviest piece. */
  ghost predicate WeightHasRoom(total: real, m: nat, heaviest: real) {
    total <= MAX_METRIC || total + Times(m, heaviest) <= Times(m, MAX_METRIC)
  }

  lemma {:induction false} UnitsWithin(lines: seq<OrderLine>, resolution: seq<ResolutionItem>, heaviest: real,
                                       longest: real)
    requires PiecesWithin(lines, resolution, heaviest, longest) && FullyMeasured(lines, resolution) && PositiveSpecs(resolution)
    ensures var units := PlanUnits(lines, resolution);
            && PositiveUnits(units) && AllMeasured(units)
            && (forall u | u in units :: Part(u.spec, Longest) <= longest)
            && (forall i | 0 <= i < |units| :: 0.0 <= Weights(units)[i] <= heaviest)
  {
    var units := PlanUnits(lines, resolution);
    PlanUnitsComeFromLines(lines, resolution);
    forall u | u in units ensures u.spec.Some? && Part(u.spec, Longest) <= longest && 0.0 <= UnitWeight(u) <= heaviest {
      assert FromLines(u, lines, SpecTable(resolution));
      assert u.spec == LineSpec(u.line, resolution);
    }
    forall i | 0 <= i < |units| ensures 0.0 <= Weights(units)[i] <= heaviest { WeightAt(units, i); assert units[i] in units; }
  }

  lemma {:induction false} WeightsAreParts(units: seq<Unit>)
    ensures Weights(units) == Parts(units, Weight)
  {
    if units != [] { WeightsAreParts(units[..|units| - 1]); }
  }

  lemma {:induction false} WeightStaysWithin(lines: seq<OrderLine>, resolution: seq<ResolutionItem>, m: nat,
                                             heaviest: real, j: nat)
    requires j < m && heaviest >= 0.0 && WeightHasRoom(Demand(lines, SpecTable(resolution), Weight), m, heaviest)
    requires var w := Weights(PlanUnits(lines, resolution)); forall i | 0 <= i < |w| :: 0.0 <= w[i] <= heaviest
    ensures PlanBuild(PlanUnits(lines, resolution), m, j).weight <= MAX_METRIC
  {
    var units := PlanUnits(lines, resolution);
    var w := Weights(units);
    var a := Destinations(w, m, |w|);
    WeightsAreParts(units);
    FilledMeasures(units, a, |units|, j);
    PlannedTotal(lines, resolution, Weight);
    LoadAtMostSum(w, a, |w|, j);
    if Sum(w, |w|) > MAX_METRIC { BalancedLoad(w, m, heaviest, MAX_METRIC, j); }
  }

  lemma {:induction false} HeightStaysWithin(lines: seq<OrderLine>, resolution: seq<ResolutionItem>, m: nat, j: nat)
    requires j < m && Demand(lines, SpecTable(resolution), Shortest) <= MAX_METRIC && PositiveUnits(PlanUnits(lines, resolution))
    ensures PlanBuild(PlanUnits(lines, resolution), m, j).height <= MAX_METRIC
  {
    var units := PlanUnits(lines, resolution);
    var a := Destinations(Weights(units), m, |units|);
    FilledMeasures(units, a, |units|, j);
    PlannedTotal(lines, resolution, Shortest);
    PartsAreNonNegative(units, Shortest);
    LoadAtMostSum(Parts(units, Shortest), a, |units|, j);
  }

  /** A plan passes the validator when the order is consistent and fully measured, no piece is longer than the
      limit, all shortest sides together stay within it, and the weight has room. */
  lemma {:induction false} RoomyOrderPasses(lines: seq<OrderLine>, resolution: seq<ResolutionItem>, m: nat,
                                            packages: seq<SplitPackage>, heaviest: real)
    requires Plan(lines, resolution, m) == Ok(packages) && PositiveSpecs(resolution)
    requires Consistent(lines) && FullyMeasured(lines, resolution) && PiecesWithin(lines, resolution, heaviest, MAX_METRIC)
    requires Demand(lines, SpecTable(resolution), Shortest) <= MAX_METRIC
    requires heaviest >= 0.0 && WeightHasRoom(Demand(lines, SpecTable(resolution), Weight), m, heaviest)
    ensures Accepts(lines, packages)
  {
    var units := PlanUnits(lines, resolution);
    UnitsWithin(lines, resolution, heaviest, MAX_METRIC);
    forall j | 0 <= j < m ensures SizesWithinLimit(PlanBuild(units, m, j)) {
      WeightStaysWithin(lines, resolution, m, heaviest, j);
      HeightStaysWithin(lines, resolution, m, j);
      FilledWithin(units, Destinations(Weights(units), m, |units|), |units|, j, MAX_METRIC);
    }
    PlanPassesExactlyWhen(lines, resolution, m, packages);
  }

  // ---- orders that cannot pass ----

  lemma {:induction false} LinesHaveUnits(lines: seq<OrderLine>, specs: map<string, ResolutionItem>, l: OrderLine)
    requires l in lines && l.quantity > 0
    ensures UnitOf(l, specs) in UnitsOf(lines, specs)
  {
    var front, last := lines[..|lines| - 1], lines[|lines| - 1];
    assert lines == front + [last];
    if l == last {
      assert UnitOf(l, specs) in Copies(UnitOf(last, specs), last.quantity);
    } else {
      LinesHaveUnits(front, specs, l);
    }
  }

  lemma {:induction false} OversizedUnitShows(units: seq<Unit>, m: nat, u: Unit) returns (j: nat)
    requires 0 < m && PositiveUnits(units) && u in units && u.spec.Some?
    requires Longest(u.spec.value) > MAX_METRIC || u.spec.value.weight > MAX_METRIC
    ensures j < m && !SizesWithinLimit(PlanBuild(units, m, j))
  {
    var a := Destinations(Weights(units), m, |units|);
    var i :| 0 <= i < |units| && units[i] == u;
    DestinationsAreGreedy(Weights(units), m);
    j := a[i];
    FilledReaches(units, a, |units|, i);
    FilledMeasures(units, a, |units|, j);
    PartsAreNonNegative(units, Weight);
    OneOfMany(Parts(units, Weight), a, |units|, i);
    PartAt(units, Weight, i);
  }

  /** A piece too long or too heavy for the limit is too long or too heavy for every plan. */
  lemma {:induction false} OversizedPieceFails(lines: seq<OrderLine>, resolution: seq<ResolutionItem>, m: nat,
                                               packages: seq<SplitPackage>, l: OrderLine)
    requires Plan(lines, resolution, m) == Ok(packages) && PositiveSpecs(resolution)
    requires l in lines && l.quantity > 0 && LineSpec(l, resolution).Some?
    requires Longest(LineSpec(l, resolution).value) > MAX_METRIC || LineSpec(l, resolution).value.weight > MAX_METRIC
    ensures !Accepts(lines, packages)
  {
    var units := PlanUnits(lines, resolution);
    LinesHaveUnits(lines, SpecTable(resolution), l);
    SameElements(UnitsOf(lines, SpecTable(resolution)), units);
    PlanUnitsComeFromLines(lines, resolution);
    var j := OversizedUnitShows(units, m, UnitOf(l, SpecTable(resolution)));
    PlanPassesExactlyWhen(lines, resolution, m, packages);
  }

  lemma {:induction false} LoadsWithinMeansSumWithin(w: seq<real>, units: seq<Unit>, m: nat, limit: real)
    requires 0 < m && |w| == |units|
    requires forall j | 0 <= j < m :: Load(w, Destinations(Weights(units), m, |units|), |units|, j) <= limit
    ensures Sum(w, |w|) <= Times(m, limit)
  {
    var a := Destinations(Weights(units), m, |units|);
    DestinationsAreGreedy(Weights(units), m);
    LoadsConserveWeight(w, a, |w|, m);
    SumLoadsAtMost(w, a, |w|, m, limit);
  }

  /** Nor can an order pass whose weight or whose shortest sides are more than the packages can take together. */
  lemma {:induction false} OverfullOrderFails(lines: seq<OrderLine>, resolution: seq<ResolutionItem>, m: nat,
                                              packages: seq<SplitPackage>)
    requires Plan(lines, resolution, m) == Ok(packages) && PositiveSpecs(resolution)
    requires || Demand(lines, SpecTable(resolution), Weight) > Times(m, MAX_METRIC)
             || Demand(lines, SpecTable(resolution), Shortest) > Times(m, MAX_METRIC)
    ensures !Accepts(lines, packages)
  {
    var units := PlanUnits(lines, resolution);
    PlanPassesExactlyWhen(lines, resolution, m, packages);
    if Accepts(lines, packages) {
      var a := Destinations(Weights(units), m, |units|);
      forall j | 0 <= j < m
        ensures Load(Parts(units, Weight), a, |units|, j) <= MAX_METRIC && Load(Parts(units, Shortest), a, |units|, j) <= MAX_METRIC
      {
        FilledMeasures(units, a, |units|, j);
        assert SizesWithinLimit(PlanBuild(units, m, j));
      }
      LoadsWithinMeansSumWithin(Parts(units, Weight), units, m, MAX_METRIC);
      LoadsWithinMeansSumWithin(Parts(units, Shortest), units, m, MAX_METRIC);
      PlannedTotal(lines, resolution, Weight);
      PlannedTotal(lines, resolution, Shortest);
      assert false;
    }
  }

  const POLE := OrderLine("A", "S", "pole", 1, 1, 2)
  const POLE_SIZES := ResolutionItem("S", true, Some(1.0), Some(20000.0), Some(1.0), Some(1.0))

  lemma {:induction false} PoleIsMeasured()
    ensures LineSpec(POLE, [POLE_SIZES]) == Some(Spec(1.0, 20000.0, 1.0, 1.0)) && PositiveSpecs([POLE_SIZES])
  {
    Text.TrimmedEnds("S");
    assert [POLE_SIZES][..0] == [] && SpecTable([POLE_SIZES]) == map["S" := POLE_SIZES];
  }

  lemma {:induction false} PoleIsConsistent()
    ensures Consistent([POLE])
  {
    Text.TrimmedEnds("A");
    ConsistentExactlyWhen([POLE]);
  }

  lemma {:induction false} TwoPoles(specs: map<string, ResolutionItem>)
    ensures |UnitsOf([POLE], specs)| == 2
  {
    var u := UnitOf(POLE, specs);
    assert [POLE][..0] == [] && UnitsOf([], specs) == [];
    assert Copies(u, 0) == [] && Copies(u, 1) == [u];
  }

  /** Such orders exist, with nothing else wrong: two pieces of a pole longer than the limit. */
  lemma {:induction false} LongPolesFail() returns (packages: seq<SplitPackage>)
    ensures Plan([POLE], [POLE_SIZES], 2) == Ok(packages) && PositiveSpecs([POLE_SIZES])
    ensures Consistent([POLE]) && FullyMeasured([POLE], [POLE_SIZES])
    ensures !Accepts([POLE], packages)
  {
    PoleIsMeasured();
    PoleIsConsistent();
    TwoPoles(SpecTable([POLE_SIZES]));
    packages := PlanPackages(PlanUnits([POLE], [POLE_SIZES]), 2, 2);
    OversizedPieceFails([POLE], [POLE_SIZES], 2, packages, POLE);
  }
}
