/** How well the planner balances the packages. */
module SplitBalance {
  import opened StableSorting
  import opened SplitPlan
  import opened ListScheduling
  import Text

  ghost predicate NonNegativeWeights(units: seq<Unit>) {
    forall u | u in units :: UnitWeight(u) >= 0.0
  }

  lemma {:induction false} HeavierFirstIsStrictWeak(units: seq<Unit>)
    ensures StrictWeakOn(HeavierFirst, units)
  {
    Text.BeforeIsOrder();
    forall u, v, x {:trigger HeavierFirst(u, v), HeavierFirst(v, x)} | HeavierFirst(u, v) && HeavierFirst(v, x)
      ensures HeavierFirst(u, x)
    {}
    forall u, v, x {:trigger HeavierFirst(u, v), HeavierFirst(v, x)} | !HeavierFirst(u, v) && !HeavierFirst(v, x)
      ensures !HeavierFirst(u, x)
    {}
  }

  /** The planner places its units heaviest first, incomplete ones (weight 0) last. */
  lemma {:induction false} SortedUnitsGoDown(units: seq<Unit>)
    requires NonNegativeWeights(units)
    ensures NonNegative(Weights(StableSort(HeavierFirst, units)))
    ensures HeaviestFirst(Weights(StableSort(HeavierFirst, units)))
  {
    var s := StableSort(HeavierFirst, units);
    SameElements(s, units);
    HeavierFirstIsStrictWeak(units);
    SortSorts(HeavierFirst, units);
    forall i, j | 0 <= i < j < |s| ensures Weights(s)[i] >= Weights(s)[j] {
      WeightAt(s, i);
      WeightAt(s, j);
      assert !HeavierFirst(s[j], s[i]);
      assert s[i] in s && s[j] in s;
    }
    forall i | 0 <= i < |s| ensures Weights(s)[i] >= 0.0 {
      WeightAt(s, i);
      assert s[i] in s;
    }
  }

  /** Before rounding, two packages of a plan differ by at most the heaviest unit. */
  lemma {:induction false} PlanIsBalanced(lines: seq<OrderLine>, resolution: seq<ResolutionItem>, m: nat,
                                          heaviest: real, i: nat, j: nat)
    requires i < m && j < m
    requires NonNegativeWeights(UnitsOf(lines, SpecTable(resolution))) && 0.0 <= heaviest
    requires forall u | u in UnitsOf(lines, SpecTable(resolution)) :: UnitWeight(u) <= heaviest
    ensures var units := PlanUnits(lines, resolution);
            PlanBuild(units, m, i).weight - PlanBuild(units, m, j).weight <= heaviest
  {
    var units := PlanUnits(lines, resolution);
    var w := Weights(units);
    var a := Destinations(w, m, |w|);
    SameElements(units, UnitsOf(lines, SpecTable(resolution)));
    forall k | 0 <= k < |w| ensures 0.0 <= w[k] <= heaviest {
      WeightAt(units, k);
      assert units[k] in units;
    }
    DestinationsAreGreedy(w, m);
    FilledWeight(units, a, |w|, i);
    FilledWeight(units, a, |w|, j);
    GreedyBalance(w, a, m, |w|, heaviest, i, j);
  }

  /** No assignment of the same units to `m` packages has a heaviest package lighter than
      3m / (4m - 1) of the plan's heaviest: `other` is any assignment, `cap` bounds its packages. */
  lemma {:induction false} PlanIsNearlyOptimal(lines: seq<OrderLine>, resolution: seq<ResolutionItem>, m: nat,
                            other: seq<nat>, cap: real, j: nat)
    requires j < m && NonNegativeWeights(UnitsOf(lines, SpecTable(resolution)))
    requires FitsUnder(Weights(PlanUnits(lines, resolution)), other, m, cap)
    ensures WithinFourThirds(m, PlanBuild(PlanUnits(lines, resolution), m, j).weight, cap)
  {
    var units := PlanUnits(lines, resolution);
    var w := Weights(units);
    var a := Destinations(w, m, |w|);
    SortedUnitsGoDown(UnitsOf(lines, SpecTable(resolution)));
    DestinationsAreGreedy(w, m);
    FilledWeight(units, a, |w|, j);
    GreedyWithinFourThirds(w, a, m, other, cap, j);
  }
}
