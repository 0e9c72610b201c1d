/** Planner and validator agree: nothing of the order is lost or invented on the way, and a plan
    passes `validateSplitPackages` exactly when the order itself is consistent. */
module SplitAgreement {
  import opened Common
  import opened StableSorting
  import opened SplitPlan
  import opened SplitValidation
  import opened ListScheduling

  // ---- counting pieces ----

  function Is(orderSN: string): string -> bool { s => s == orderSN }

  /** Pieces the lines ask for under `f`; a line without a positive quantity asks for none. */
  function Asked(lines: seq<OrderLine>, f: string -> bool): int {
    if lines == [] then 0
    else
      var last := lines[|lines| - 1];
      Asked(lines[..|lines| - 1], f) + (if f(last.orderSN) && last.quantity > 0 then last.quantity else 0)
  }

  function UnitCount(units: seq<Unit>, f: string -> bool): int {
    if units == [] then 0
    else (if f(units[0].line.orderSN) then 1 else 0) + UnitCount(units[1..], f)
  }

  function Marks(units: seq<Unit>, f: string -> bool): (w: seq<real>)
    ensures |w| == |units|
  {
    if units == [] then []
    else Marks(units[..|units| - 1], f) + [if f(units[|units| - 1].line.orderSN) then 1.0 else 0.0]
  }

  lemma {:induction false} MarkAt(units: seq<Unit>, f: string -> bool, i: nat)
    requires i < |units|
    ensures Marks(units, f)[i] == if f(units[i].line.orderSN) then 1.0 else 0.0
  {
    if i < |units| - 1 { MarkAt(units[..|units| - 1], f, i); }
  }

  lemma {:induction false} CountOfConcat(s: seq<Unit>, t: seq<Unit>, f: string -> bool)
    ensures UnitCount(s + t, f) == UnitCount(s, f) + UnitCount(t, f)
  {
    if s == [] {
      assert s + t == t;
    } else {
      CountOfConcat(s[1..], t, f);
      assert (s + t)[1..] == s[1..] + t;
    }
  }

  lemma {:induction false} SumOfMarks(units: seq<Unit>, f: string -> bool, n: nat)
    requires n <= |units|
    ensures Sum(Marks(units, f), n) == UnitCount(units[..n], f) as real
  {
    if n > 0 {
      SumOfMarks(units, f, n - 1);
      MarkAt(units, f, n - 1);
      assert units[..n] == units[..n - 1] + [units[n - 1]];
      CountOfConcat(units[..n - 1], [units[n - 1]], f);
    }
  }

  lemma {:induction false} InsertCounts(x: Unit, s: seq<Unit>, f: string -> bool)
    ensures UnitCount(Insert(HeavierFirst, x, s), f) == UnitCount([x] + s, f)
  {
    assert ([x] + s)[1..] == s;
    if s != [] && HeavierFirst(s[0], x) {
      InsertCounts(x, s[1..], f);
      var rest := Insert(HeavierFirst, x, s[1..]);
      assert ([s[0]] + rest)[1..] == rest;
      assert ([x] + s[1..])[1..] == s[1..];
    }
  }

  lemma {:induction false} SortCounts(s: seq<Unit>, f: string -> bool)
    ensures UnitCount(StableSort(HeavierFirst, s), f) == UnitCount(s, f)
  {
    if s != [] {
      SortCounts(s[1..], f);
      var rest := StableSort(HeavierFirst, s[1..]);
      InsertCounts(s[0], rest, f);
      assert ([s[0]] + rest)[1..] == rest;
    }
  }

  lemma {:induction false} CopiesCount(u: Unit, quantity: int, f: string -> bool)
    ensures UnitCount(Copies(u, quantity), f) == if f(u.line.orderSN) && quantity > 0 then quantity else 0
  {
    if quantity > 0 {
      CopiesCount(u, quantity - 1, f);
      CountOfConcat(Copies(u, quantity - 1), [u], f);
    }
  }

  lemma {:induction false} UnitsCount(lines: seq<OrderLine>, specs: map<string, ResolutionItem>, f: string -> bool)
    ensures UnitCount(UnitsOf(lines, specs), f) == Asked(lines, f)
  {
    if lines != [] {
      var front, last := lines[..|lines| - 1], lines[|lines| - 1];
      UnitsCount(front, specs, f);
      CopiesCount(UnitOf(last, specs), last.quantity, f);
      CountOfConcat(UnitsOf(front, specs), Copies(UnitOf(last, specs), last.quantity), f);
    }
  }

  lemma {:induction false} PiecesOfAppend(items: seq<SplitItem>, item: SplitItem, f: string -> bool)
    ensures Pieces(items + [item], f) == Pieces(items, f) + (if f(item.orderSN) then item.quantity else 0)
  {
    assert (items + [item])[..|items|] == items;
  }

  lemma {:induction false} PiecesOfUpdate(items: seq<SplitItem>, i: nat, item: SplitItem, f: string -> bool)
    requires i < |items| && item.orderSN == items[i].orderSN
    ensures Pieces(items[i := item], f) ==
            Pieces(items, f) + (if f(item.orderSN) then item.quantity - items[i].quantity else 0)
  {
    var n := |items| - 1;
    if i < n {
      PiecesOfUpdate(items[..n], i, item, f);
      assert items[i := item][..n] == items[..n][i := item];
    } else {
      assert items[i := item][..n] == items[..n];
    }
  }

  lemma {:induction false} OneMorePiece(items: seq<SplitItem>, line: OrderLine, f: string -> bool)
    ensures Pieces(WithOneMore(items, line), f) == Pieces(items, f) + (if f(line.orderSN) then 1 else 0)
  {
    var i := ItemIndex(items, line.orderSN, 0);
    if i < |items| {
      PiecesOfUpdate(items, i, items[i].(quantity := items[i].quantity + 1), f);
    } else {
      PiecesOfAppend(items, SplitItem(line.orderSN, line.extCode, line.goodsName, 1, line.goodsID, line.skuID), f);
    }
  }

  /** The item list of package `j` after the first `n` units. */
  function Items(units: seq<Unit>, a: seq<nat>, n: nat, j: nat): seq<SplitItem>
    requires n <= |units| && n <= |a|
  {
    if n == 0 then []
    else if a[n - 1] == j then WithOneMore(Items(units, a, n - 1, j), units[n - 1].line)
    else Items(units, a, n - 1, j)
  }

  lemma {:induction false} FilledItems(units: seq<Unit>, a: seq<nat>, n: nat, j: nat)
    requires n <= |units| && n <= |a|
    ensures Filled(units, a, n, j).items == Items(units, a, n, j)
  {
    if n > 0 { FilledItems(units, a, n - 1, j); }
  }

  lemma {:induction false} FilledPieces(units: seq<Unit>, a: seq<nat>, n: nat, j: nat, f: string -> bool)
    requires n <= |units| && n <= |a|
    ensures Pieces(Items(units, a, n, j), f) as real == Load(Marks(units, f), a, n, j)
  {
    if n > 0 {
      FilledPieces(units, a, n - 1, j, f);
      MarkAt(units, f, n - 1);
      OneMorePiece(Items(units, a, n - 1, j), units[n - 1].line, f);
    }
  }

  lemma {:induction false} PlanItems(units: seq<Unit>, m: nat, k: nat, j: nat)
    requires 0 < m && j < k
    ensures PlanPackages(units, m, k)[j].items == Items(units, Destinations(Weights(units), m, |units|), |units|, j)
  {
    PlanPackageAt(units, m, k, j);
    FilledItems(units, Destinations(Weights(units), m, |units|), |units|, j);
  }

  lemma {:induction false} OneMorePackage(units: seq<Unit>, m: nat, k: nat, f: string -> bool)
    requires 0 < m && 0 < k
    ensures AllPieces(PlanPackages(units, m, k), f) ==
            AllPieces(PlanPackages(units, m, k - 1), f) + Pieces(PlanPackages(units, m, k)[k - 1].items, f)
  {
    assert PlanPackages(units, m, k)[..k - 1] == PlanPackages(units, m, k - 1);
  }

  lemma {:induction false} PlanPieces(units: seq<Unit>, a: seq<nat>, m: nat, k: nat, f: string -> bool)
    requires 0 < m && a == Destinations(Weights(units), m, |units|)
    ensures AllPieces(PlanPackages(units, m, k), f) as real == SumLoads(Marks(units, f), a, |units|, k)
  {
    if k > 0 {
      PlanPieces(units, a, m, k - 1, f);
      OneMorePackage(units, m, k, f);
      PlanItems(units, m, k, k - 1);
      FilledPieces(units, a, |units|, k - 1, f);
    }
  }

  /** Whatever the order numbers look like, the packages together hold exactly the pieces the
      lines ask for. */
  lemma {:induction false} PlanKeepsEveryPiece(lines: seq<OrderLine>, resolution: seq<ResolutionItem>, m: nat,
                                               f: string -> bool)
    requires 0 < m
    ensures AllPieces(PlanPackages(PlanUnits(lines, resolution), m, m), f) == Asked(lines, f)
  {
    var units, specs := PlanUnits(lines, resolution), SpecTable(resolution);
    var a := Destinations(Weights(units), m, |units|);
    DestinationsAreGreedy(Weights(units), m);
    PlanPieces(units, a, m, m, f);
    LoadsConserveWeight(Marks(units, f), a, |units|, m);
    SumOfMarks(units, f, |units|);
    assert units[..|units|] == units;
    SortCounts(UnitsOf(lines, specs), f);
    UnitsCount(lines, specs, f);
  }

  // ---- what each package holds ----

  /** Positive quantities, no order number twice. */
  ghost predicate WellPacked(items: seq<SplitItem>) {
    && (forall k | 0 <= k < |items| :: items[k].quantity > 0)
    && (forall k, l | 0 <= k < l < |items| :: items[k].orderSN != items[l].orderSN)
  }

  /** Some unit among the first `n` has this order number. */
  ghost predicate Placed(units: seq<Unit>, n: nat, orderSN: string)
    requires n <= |units|
  {
    exists i | 0 <= i < n :: units[i].line.orderSN == orderSN
  }

  lemma {:induction false} OneMoreWellPacked(items: seq<SplitItem>, line: OrderLine)
    requires WellPacked(items)
    ensures WellPacked(WithOneMore(items, line)) && WithOneMore(items, line) != []
    ensures forall k | 0 <= k < |WithOneMore(items, line)| ::
              WithOneMore(items, line)[k].orderSN == line.orderSN
              || (k < |items| && WithOneMore(items, line)[k].orderSN == items[k].orderSN)
  {
  }

  lemma {:induction false} ItemsAreWellPacked(units: seq<Unit>, a: seq<nat>, n: nat, j: nat)
    requires n <= |units| && n <= |a|
    ensures var items := Items(units, a, n, j);
            && WellPacked(items)
            && (Count(a, n, j) > 0 ==> items != [])
            && forall k | 0 <= k < |items| :: Placed(units, n, items[k].orderSN)
  {
    if n > 0 {
      ItemsAreWellPacked(units, a, n - 1, j);
      var before, items := Items(units, a, n - 1, j), Items(units, a, n, j);
      OneMoreWellPacked(before, units[n - 1].line);
      forall k | 0 <= k < |items| ensures Placed(units, n, items[k].orderSN) {
        if k < |before| && items[k].orderSN == before[k].orderSN {
          assert Placed(units, n - 1, before[k].orderSN);
        } else {
          assert units[n - 1].line.orderSN == items[k].orderSN;
        }
      }
    }
  }

  // ---- no package stays empty ----

  lemma {:induction false} CountsOfIdentity(w: seq<real>, a: seq<nat>, n: nat, j: nat)
    requires NonNegative(w) && n <= |w| && n <= |a| && forall i | 0 <= i < n :: a[i] == i
    ensures 0.0 <= Load(w, a, n, j)
    ensures j < n ==> Count(a, n, j) == 1
    ensures n <= j ==> Count(a, n, j) == 0 && Load(w, a, n, j) == 0.0
  {
    if n > 0 { CountsOfIdentity(w, a, n - 1, j); }
  }

  /** The first `m` units open one package each. */
  lemma {:induction false} FirstUnitsSpread(w: seq<real>, m: nat, n: nat)
    requires NonNegative(w) && 0 < m && n <= m && n <= |w|
    ensures forall i | 0 <= i < n :: Destinations(w, m, n)[i] == i
  {
    if n > 0 {
      FirstUnitsSpread(w, m, n - 1);
      var a, k := Destinations(w, m, n - 1), n - 1;
      var t := Pick(w, a, k, m);
      PickIsFirstLightest(w, a, k, m);
      CountsOfIdentity(w, a, k, t);
      CountsOfIdentity(w, a, k, k);
      assert !Lighter(w, a, k, k, t);
      assert t > k ==> Lighter(w, a, k, t, k);
    }
  }

  lemma {:induction false} CountGrows(a: seq<nat>, i: nat, n: nat)
    requires i < n <= |a|
    ensures Count(a, n, a[i]) > 0
  {
    if i < n - 1 { CountGrows(a, i, n - 1); }
  }

  lemma {:induction false} DestinationPrefix(w: seq<real>, m: nat, n: nat, k: nat)
    requires 0 < m && k <= n <= |w|
    ensures Destinations(w, m, n)[..k] == Destinations(w, m, k)
  {
    if k < n { DestinationAt(w, m, n, k); }
  }

  lemma {:induction false} EveryPackageGetsAUnit(w: seq<real>, m: nat, j: nat)
    requires NonNegative(w) && j < m <= |w|
    ensures Count(Destinations(w, m, |w|), |w|, j) > 0
  {
    var a := Destinations(w, m, |w|);
    FirstUnitsSpread(w, m, m);
    DestinationPrefix(w, m, |w|, m);
    assert a[j] == a[..m][j] == j;
    CountGrows(a, j, |w|);
  }

  // ---- sizes ----

  predicate PositiveSpec(spec: Spec) {
    spec.weight > 0.0 && spec.length > 0.0 && spec.width > 0.0 && spec.height > 0.0
  }

  ghost predicate PositiveUnits(units: seq<Unit>) {
    forall u | u in units && u.spec.Some? :: PositiveSpec(u.spec.value)
  }

  ghost predicate AllMeasured(units: seq<Unit>) {
    forall u | u in units :: u.spec.Some?
  }

  predicate SizesPositive(b: Build) {
    b.weight > 0.0 && b.length > 0.0 && b.width > 0.0 && b.height > 0.0
  }

  predicate SizesWithinLimit(b: Build) {
    b.weight <= MAX_METRIC && b.length <= MAX_METRIC && b.width <= MAX_METRIC && b.height <= MAX_METRIC
  }

  lemma {:induction false} FilledSizes(units: seq<Unit>, a: seq<nat>, n: nat, j: nat)
    requires PositiveUnits(units) && n <= |units| && n <= |a|
    ensures var b := Filled(units, a, n, j);
            (!b.missing && b.units > 0 ==> SizesPositive(b)) && (b.units == 0 ==> b == EMPTY)
  {
    if n > 0 {
      FilledSizes(units, a, n - 1, j);
      assert units[n - 1] in units;
    }
  }

  lemma {:induction false} MissingMeansUnmeasured(units: seq<Unit>, a: seq<nat>, n: nat, j: nat)
    requires n <= |units| && n <= |a|
    ensures Filled(units, a, n, j).missing <==> exists i | 0 <= i < n :: a[i] == j && units[i].spec.None?
  {
    if n > 0 {
      MissingMeansUnmeasured(units, a, n - 1, j);
      if a[n - 1] == j && units[n - 1].spec.None? {
        assert Filled(units, a, n, j).missing;
      }
    }
  }

  lemma {:induction false} WeightRoundsUp(x: real)
    ensures x <= RoundTo(x, 1000.0) < x + 0.001
    ensures x <= MAX_METRIC <==> RoundTo(x, 1000.0) <= MAX_METRIC
  {
    var c := Ceil(x * 1000.0);
    assert x * 1000.0 <= c as real < x * 1000.0 + 1.0;
    assert c as real <= 10000000.0 <==> c <= 10000000;
  }

  lemma {:induction false} SizeRoundsUp(x: real)
    ensures x <= RoundTo(x, 100.0) < x + 0.01
    ensures x <= MAX_METRIC <==> RoundTo(x, 100.0) <= MAX_METRIC
  {
    var c := Ceil(x * 100.0);
    assert x * 100.0 <= c as real < x * 100.0 + 1.0;
    assert c as real <= 1000000.0 <==> c <= 1000000;
  }

  /** A finished package has acceptable metrics exactly when everything in it was measured and
      its sizes stay within the limit. */
  lemma {:induction false} FinishedMetrics(index: nat, b: Build)
    requires !b.missing ==> SizesPositive(b)
    ensures MetricsFit(Finished(index, b)) <==> !b.missing && SizesWithinLimit(b)
  {
    WeightRoundsUp(b.weight);
    SizeRoundsUp(b.length);
    SizeRoundsUp(b.width);
    SizeRoundsUp(b.height);
  }
}
