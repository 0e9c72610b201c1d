/** When a plan passes the validator. */
module SplitTheorem {
  import opened Common
  import opened StableSorting
  import opened SplitPlan
  import opened SplitValidation
  import opened SplitAgreement
  import ListScheduling
  import SplitBalance
  import Text

  /** Every order number with pieces is trimmed, and the last line of each order number asks for
      all the pieces that carry it. */
  ghost predicate Consistent(lines: seq<OrderLine>) {
    && (forall l | l in lines && l.quantity > 0 :: Text.Trim(l.orderSN) == l.orderSN)
    && (forall sn | sn in LineTable(lines) :: LineTable(lines)[sn].quantity == Asked(lines, Is(sn)))
  }

  ghost predicate PositiveSpecs(resolution: seq<ResolutionItem>) {
    forall sku | SpecOf(SpecTable(resolution), sku).Some? :: PositiveSpec(SpecOf(SpecTable(resolution), sku).value)
  }

  // ---- what the lines ask for ----

  lemma {:induction false} AskedSame(lines: seq<OrderLine>, f: string -> bool, g: string -> bool)
    requires forall l | l in lines && l.quantity > 0 :: f(l.orderSN) == g(l.orderSN)
    ensures Asked(lines, f) == Asked(lines, g)
  {
    if lines != [] {
      assert lines[|lines| - 1] in lines && forall l | l in lines[..|lines| - 1] :: l in lines;
      AskedSame(lines[..|lines| - 1], f, g);
    }
  }

  lemma {:induction false} AskedSplits(lines: seq<OrderLine>, f: string -> bool, g: string -> bool, h: string -> bool)
    requires forall s :: g(s) ==> f(s) && !h(s)
    requires forall s :: h(s) ==> f(s)
    ensures 0 <= Asked(lines, g) && 0 <= Asked(lines, h) && Asked(lines, g) + Asked(lines, h) <= Asked(lines, f)
  {
    if lines != [] { AskedSplits(lines[..|lines| - 1], f, g, h); }
  }

  lemma {:induction false} AskedIncludes(lines: seq<OrderLine>, k: nat, f: string -> bool)
    requires k < |lines| && f(lines[k].orderSN)
    ensures lines[k].quantity <= Asked(lines, f) && 0 <= Asked(lines, f)
  {
    var front := lines[..|lines| - 1];
    AskedSplits(front, f, f, s => false);
    if k < |lines| - 1 { AskedIncludes(front, k, f); }
  }

  lemma {:induction false} TableHolds(lines: seq<OrderLine>)
    ensures forall k | 0 <= k < |lines| :: lines[k].orderSN in LineTable(lines)
    ensures forall sn | sn in LineTable(lines) ::
              exists k | 0 <= k < |lines| :: lines[k] == LineTable(lines)[sn] && lines[k].orderSN == sn
  {
    if lines != [] {
      var front, n := lines[..|lines| - 1], |lines| - 1;
      TableHolds(front);
      forall k | 0 <= k < |lines| ensures lines[k].orderSN in LineTable(lines) {
        assert k < n ==> front[k].orderSN in LineTable(front);
      }
      forall sn | sn in LineTable(lines)
        ensures exists k | 0 <= k < |lines| :: lines[k] == LineTable(lines)[sn] && lines[k].orderSN == sn
      {
        if sn == lines[n].orderSN {
          assert lines[n] == LineTable(lines)[sn];
        } else {
          var k :| 0 <= k < |front| && front[k] == LineTable(front)[sn] && front[k].orderSN == sn;
          assert lines[k] == LineTable(lines)[sn];
        }
      }
    }
  }

  lemma {:induction false} QuantityAtMostAsked(lines: seq<OrderLine>, sn: string)
    requires sn in LineTable(lines)
    ensures LineTable(lines)[sn].quantity <= Asked(lines, Is(sn))
  {
    TableHolds(lines);
    var k :| 0 <= k < |lines| && lines[k] == LineTable(lines)[sn] && lines[k].orderSN == sn;
    AskedIncludes(lines, k, Is(sn));
  }

  // ---- where the items come from ----

  ghost predicate FromLines(u: Unit, lines: seq<OrderLine>, specs: map<string, ResolutionItem>) {
    u.line in lines && u.line.quantity > 0 && u == UnitOf(u.line, specs)
  }

  lemma {:induction false} CopiesAre(u: Unit, quantity: int)
    ensures forall x | x in Copies(u, quantity) :: x == u && quantity > 0
  {
    if quantity > 0 { CopiesAre(u, quantity - 1); }
  }

  lemma {:induction false} UnitsComeFromLines(lines: seq<OrderLine>, specs: map<string, ResolutionItem>)
    ensures forall u | u in UnitsOf(lines, specs) :: FromLines(u, lines, specs)
  {
    if lines != [] {
      var front, last := lines[..|lines| - 1], lines[|lines| - 1];
      UnitsComeFromLines(front, specs);
      CopiesAre(UnitOf(last, specs), last.quantity);
      assert last in lines && forall l | l in front :: l in lines;
      forall u | u in UnitsOf(lines, specs) ensures FromLines(u, lines, specs) {
        assert u in UnitsOf(front, specs) || u in Copies(UnitOf(last, specs), last.quantity);
      }
    }
  }

  lemma {:induction false} PlanUnitsComeFromLines(lines: seq<OrderLine>, resolution: seq<ResolutionItem>)
    ensures forall u | u in PlanUnits(lines, resolution) :: FromLines(u, lines, SpecTable(resolution))
    ensures PositiveSpecs(resolution) ==> PositiveUnits(PlanUnits(lines, resolution))
  {
    UnitsComeFromLines(lines, SpecTable(resolution));
    SameElements(PlanUnits(lines, resolution), UnitsOf(lines, SpecTable(resolution)));
  }

  lemma {:induction false} NumbersAre(items: seq<SplitItem>, sn: string)
    requires sn in Numbers(items)
    ensures exists k | 0 <= k < |items| :: Text.Trim(items[k].orderSN) == sn
  {
    var n := |items| - 1;
    if Text.Trim(items[n].orderSN) != sn {
      NumbersAre(items[..n], sn);
      var k :| 0 <= k < n && Text.Trim(items[..n][k].orderSN) == sn;
      assert Text.Trim(items[k].orderSN) == sn;
    }
  }

  /** Trimmed order numbers of the order, none twice: that is all the validator wants of the items. */
  lemma {:induction false} TrimmedItemsFit(table: map<string, OrderLine>, items: seq<SplitItem>)
    requires WellPacked(items)
    requires forall k | 0 <= k < |items| :: items[k].orderSN in table && Text.Trim(items[k].orderSN) == items[k].orderSN
    ensures ItemsFit(table, items)
  {
    if items != [] {
      var n := |items| - 1;
      TrimmedItemsFit(table, items[..n]);
      if Text.Trim(items[n].orderSN) in Numbers(items[..n]) {
        NumbersAre(items[..n], Text.Trim(items[n].orderSN));
      }
    }
  }

  lemma {:induction false} SomePieceIsThere(packages: seq<SplitPackage>, f: string -> bool)
    requires AllPieces(packages, f) > 0
    ensures exists j, k :: 0 <= j < |packages| && 0 <= k < |packages[j].items| && f(packages[j].items[k].orderSN)
  {
    var n := |packages| - 1;
    if Pieces(packages[n].items, f) > 0 {
      var k := SomeItemIsThere(packages[n].items, f);
      assert f(packages[n].items[k].orderSN);
    } else {
      SomePieceIsThere(packages[..n], f);
      var j, k :| 0 <= j < n && 0 <= k < |packages[..n][j].items| && f(packages[..n][j].items[k].orderSN);
      assert f(packages[j].items[k].orderSN);
    }
  }

  lemma {:induction false} SomeItemIsThere(items: seq<SplitItem>, f: string -> bool) returns (k: nat)
    requires Pieces(items, f) > 0
    ensures k < |items| && f(items[k].orderSN)
  {
    var n := |items| - 1;
    if f(items[n].orderSN) {
      k := n;
    } else {
      k := SomeItemIsThere(items[..n], f);
    }
  }

  // ---- the two directions ----

  lemma {:induction false} AllocatedIsAsked(lines: seq<OrderLine>, resolution: seq<ResolutionItem>, m: nat, sn: string)
    requires 0 < m
    ensures Allocated(PlanPackages(PlanUnits(lines, resolution), m, m), sn) == Asked(lines, TrimsTo(sn))
  {
    PlanKeepsEveryPiece(lines, resolution, m, TrimsTo(sn));
  }

  /** An untrimmed order number with pieces always shows in the totals. */
  lemma {:induction false} AcceptedMeansTrimmed(lines: seq<OrderLine>, resolution: seq<ResolutionItem>, m: nat, i: nat)
    requires 0 < m && i < |lines| && lines[i].quantity > 0
    requires Accepts(lines, PlanPackages(PlanUnits(lines, resolution), m, m))
    ensures Text.Trim(lines[i].orderSN) == lines[i].orderSN
  {
    var packages, table := PlanPackages(PlanUnits(lines, resolution), m, m), LineTable(lines);
    var s, t := lines[i].orderSN, Text.Trim(lines[i].orderSN);
    if s != t {
      AskedIncludes(lines, i, Is(s));
      PlanKeepsEveryPiece(lines, resolution, m, Is(s));
      SomePieceIsThere(packages, Is(s));
      var j, k :| 0 <= j < |packages| && 0 <= k < |packages[j].items| && Is(s)(packages[j].items[k].orderSN);
      assert PackageFits(table, packages[j]);
      ItemsFitUpTo(table, packages[j].items, k);
      assert t in table;
      Text.TrimIsIdempotent(s);
      AskedSplits(lines, TrimsTo(t), Is(t), Is(s));
      QuantityAtMostAsked(lines, t);
      AllocatedIsAsked(lines, resolution, m, t);
    }
  }

  lemma {:induction false} TrimmedAskedSame(lines: seq<OrderLine>, sn: string)
    requires forall l | l in lines && l.quantity > 0 :: Text.Trim(l.orderSN) == l.orderSN
    ensures Asked(lines, TrimsTo(sn)) == Asked(lines, Is(sn))
  {
    AskedSame(lines, TrimsTo(sn), Is(sn));
  }

  lemma {:induction false} AcceptedMeansConsistent(lines: seq<OrderLine>, resolution: seq<ResolutionItem>, m: nat)
    requires 0 < m && Accepts(lines, PlanPackages(PlanUnits(lines, resolution), m, m))
    ensures Consistent(lines)
  {
    forall l | l in lines && l.quantity > 0 ensures Text.Trim(l.orderSN) == l.orderSN {
      var i :| 0 <= i < |lines| && lines[i] == l;
      AcceptedMeansTrimmed(lines, resolution, m, i);
    }
    forall sn | sn in LineTable(lines) ensures LineTable(lines)[sn].quantity == Asked(lines, Is(sn)) {
      AllocatedIsAsked(lines, resolution, m, sn);
      TrimmedAskedSame(lines, sn);
    }
  }

  lemma {:induction false} PlanItemsFit(lines: seq<OrderLine>, resolution: seq<ResolutionItem>, m: nat, j: nat)
    requires j < m && forall l | l in lines && l.quantity > 0 :: Text.Trim(l.orderSN) == l.orderSN
    ensures ItemsFit(LineTable(lines), PlanPackages(PlanUnits(lines, resolution), m, m)[j].items)
  {
    var units := PlanUnits(lines, resolution);
    var a := ListScheduling.Destinations(Weights(units), m, |units|);
    var items := Items(units, a, |units|, j);
    PlanItems(units, m, m, j);
    ItemsAreWellPacked(units, a, |units|, j);
    PlanUnitsComeFromLines(lines, resolution);
    TableHolds(lines);
    forall k | 0 <= k < |items|
      ensures items[k].orderSN in LineTable(lines) && Text.Trim(items[k].orderSN) == items[k].orderSN
    {
      assert Placed(units, |units|, items[k].orderSN);
      var i :| 0 <= i < |units| && units[i].line.orderSN == items[k].orderSN;
      assert units[i] in units;
      var l :| 0 <= l < |lines| && lines[l] == units[i].line;
    }
    TrimmedItemsFit(LineTable(lines), items);
  }

  /** The packages of a plan are measured, and nothing in them is oversized. */
  ghost predicate PlanMeasures(units: seq<Unit>, m: nat)
    requires 0 < m
  {
    AllMeasured(units) && forall j | 0 <= j < m :: SizesWithinLimit(PlanBuild(units, m, j))
  }

  lemma {:induction false} PlanMetrics(units: seq<Unit>, m: nat, j: nat)
    requires j < m <= |units| && PositiveUnits(units)
    ensures MetricsFit(PlanPackages(units, m, m)[j]) <==>
            !PlanBuild(units, m, j).missing && SizesWithinLimit(PlanBuild(units, m, j))
    ensures PlanPackages(units, m, m)[j].items != []
  {
    var w := Weights(units);
    var a := ListScheduling.Destinations(w, m, |w|);
    forall i | 0 <= i < |w| ensures w[i] >= 0.0 { WeightAt(units, i); assert units[i] in units; }
    EveryPackageGetsAUnit(w, m, j);
    FilledWeight(units, a, |units|, j);
    FilledSizes(units, a, |units|, j);
    PlanPackageAt(units, m, m, j);
    FinishedMetrics(j, PlanBuild(units, m, j));
    PlanItems(units, m, m, j);
    ItemsAreWellPacked(units, a, |units|, j);
  }

  lemma {:induction false} AllMetricsFit(units: seq<Unit>, m: nat)
    requires 0 < m <= |units| && PositiveUnits(units)
    ensures (forall p | p in PlanPackages(units, m, m) :: MetricsFit(p)) <==> PlanMeasures(units, m)
  {
    var a := ListScheduling.Destinations(Weights(units), m, |units|);
    ListScheduling.DestinationsAreGreedy(Weights(units), m);
    var packages := PlanPackages(units, m, m);
    forall j | 0 <= j < m
      ensures MetricsFit(packages[j]) <==> !PlanBuild(units, m, j).missing && SizesWithinLimit(PlanBuild(units, m, j))
    {
      PlanMetrics(units, m, j);
    }
    if AllMeasured(units) {
      forall j | 0 <= j < m ensures !PlanBuild(units, m, j).missing {
        MissingMeansUnmeasured(units, a, |units|, j);
        assert forall i | 0 <= i < |units| :: units[i] in units;
      }
      if PlanMeasures(units, m) {
        forall p | p in packages ensures MetricsFit(p) { var j :| 0 <= j < m && packages[j] == p; }
      } else {
        var j :| 0 <= j < m && !SizesWithinLimit(PlanBuild(units, m, j));
        assert packages[j] in packages;
      }
    } else {
      var u :| u in units && u.spec.None?;
      var i :| 0 <= i < |units| && units[i] == u;
      MissingMeansUnmeasured(units, a, |units|, a[i]);
      assert packages[a[i]] in packages && !MetricsFit(packages[a[i]]);
    }
  }

  /** The validator accepts a plan if and only if the order is consistent, every unit is measured and
      no package outgrows the limit. */
  lemma {:induction false} PlanPassesExactlyWhen(lines: seq<OrderLine>, resolution: seq<ResolutionItem>, m: nat,
                                                 packages: seq<SplitPackage>)
    requires Plan(lines, resolution, m) == Ok(packages) && PositiveSpecs(resolution)
    ensures Accepts(lines, packages) <==> Consistent(lines) && PlanMeasures(PlanUnits(lines, resolution), m)
  {
    var units, table := PlanUnits(lines, resolution), LineTable(lines);
    PlanUnitsComeFromLines(lines, resolution);
    AllMetricsFit(units, m);
    if Accepts(lines, packages) {
      AcceptedMeansConsistent(lines, resolution, m);
    }
    if Consistent(lines) && PlanMeasures(units, m) {
      forall p | p in packages ensures PackageFits(table, p) {
        var j :| 0 <= j < m && packages[j] == p;
        PlanMetrics(units, m, j);
        PlanItemsFit(lines, resolution, m, j);
      }
      forall sn | sn in table ensures Allocated(packages, sn) == table[sn].quantity {
        AllocatedIsAsked(lines, resolution, m, sn);
        TrimmedAskedSame(lines, sn);
      }
    }
  }

  // ---- the usual order ----

  lemma {:induction false} AskedTwice(lines: seq<OrderLine>, i: nat, k: nat, f: string -> bool)
    requires i < k < |lines| && f(lines[i].orderSN) && f(lines[k].orderSN)
    requires lines[i].quantity > 0 && lines[k].quantity > 0
    ensures lines[i].quantity + lines[k].quantity <= Asked(lines, f)
  {
    var front := lines[..|lines| - 1];
    if k < |lines| - 1 {
      AskedTwice(front, i, k, f);
    } else {
      AskedIncludes(front, i, f);
    }
  }

  lemma {:induction false} AskedNothing(lines: seq<OrderLine>, sn: string)
    requires forall k | 0 <= k < |lines| :: lines[k].orderSN != sn
    ensures Asked(lines, Is(sn)) == 0 && sn !in LineTable(lines)
  {
    if lines != [] { AskedNothing(lines[..|lines| - 1], sn); }
  }

  lemma {:induction false} AskedOnce(lines: seq<OrderLine>, k: nat)
    requires k < |lines| && lines[k].quantity > 0
    requires forall i | 0 <= i < |lines| && i != k :: lines[i].orderSN != lines[k].orderSN
    ensures Asked(lines, Is(lines[k].orderSN)) == lines[k].quantity
    ensures lines[k].orderSN in LineTable(lines) && LineTable(lines)[lines[k].orderSN] == lines[k]
  {
    var front := lines[..|lines| - 1];
    if k < |lines| - 1 {
      AskedOnce(front, k);
    } else {
      AskedNothing(front, lines[k].orderSN);
    }
  }

  lemma {:induction false} RepeatedIsInconsistent(lines: seq<OrderLine>, i: nat, k: nat)
    requires forall l | l in lines :: l.quantity > 0
    requires i < k < |lines| && lines[i].orderSN == lines[k].orderSN
    ensures !Consistent(lines)
  {
    TableHolds(lines);
    assert forall x | 0 <= x < |lines| :: lines[x] in lines;
    var sn := lines[i].orderSN;
    var last :| 0 <= last < |lines| && lines[last] == LineTable(lines)[sn] && lines[last].orderSN == sn;
    var other := if last == i then k else i;
    AskedTwice(lines, if last < other then last else other, if last < other then other else last, Is(sn));
  }

  lemma {:induction false} DistinctIsConsistent(lines: seq<OrderLine>)
    requires forall l | l in lines :: l.quantity > 0 && Text.Trim(l.orderSN) == l.orderSN
    requires forall i, k | 0 <= i < k < |lines| :: lines[i].orderSN != lines[k].orderSN
    ensures Consistent(lines)
  {
    TableHolds(lines);
    forall sn | sn in LineTable(lines) ensures LineTable(lines)[sn].quantity == Asked(lines, Is(sn)) {
      var k :| 0 <= k < |lines| && lines[k] == LineTable(lines)[sn] && lines[k].orderSN == sn;
      assert lines[k] in lines;
      AskedOnce(lines, k);
    }
  }

  /** For an order whose lines all have pieces: consistent means trimmed, distinct order numbers. */
  lemma {:induction false} ConsistentExactlyWhen(lines: seq<OrderLine>)
    requires forall l | l in lines :: l.quantity > 0
    ensures Consistent(lines) <==>
            && (forall l | l in lines :: Text.Trim(l.orderSN) == l.orderSN)
            && (forall i, k | 0 <= i < k < |lines| :: lines[i].orderSN != lines[k].orderSN)
  {
    if i, k :| 0 <= i < k < |lines| && lines[i].orderSN == lines[k].orderSN {
      RepeatedIsInconsistent(lines, i, k);
    } else if forall l | l in lines :: Text.Trim(l.orderSN) == l.orderSN {
      DistinctIsConsistent(lines);
    }
  }

  /** On what the planner hands out: rounding adds less than a gram to a package that is within 4/3 of
      the best possible heaviest package. */
  lemma {:induction false} PlannedWeightIsNearlyOptimal(lines: seq<OrderLine>, resolution: seq<ResolutionItem>, m: nat,
                                     packages: seq<SplitPackage>, other: seq<nat>, cap: real, j: nat)
    requires Plan(lines, resolution, m) == Ok(packages) && j < m && !packages[j].needsMeasurement
    requires SplitBalance.NonNegativeWeights(UnitsOf(lines, SpecTable(resolution)))
    requires ListScheduling.FitsUnder(Weights(PlanUnits(lines, resolution)), other, m, cap)
    ensures exists exact: real :: ListScheduling.WithinFourThirds(m, exact, cap) && exact <= packages[j].weight < exact + 0.001
  {
    var b := PlanBuild(PlanUnits(lines, resolution), m, j);
    SplitBalance.PlanIsNearlyOptimal(lines, resolution, m, other, cap, j);
    PlanPackageAt(PlanUnits(lines, resolution), m, m, j);
    WeightRoundsUp(b.weight);
    assert ListScheduling.WithinFourThirds(m, b.weight, cap);
  }
}
