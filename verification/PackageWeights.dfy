/** Declaring a metric weight in pounds and ounces (internal/service/service.go `packageSpecFromResolution`,
    internal/service/split_quote.go `metricPackageSpec`), over exact numbers. */
module PackageWeights {

  /** Ounces per kilogram as the code writes it, and kilograms per pound. */
  const OUNCES_PER_KG: real := 35.27396195
  const KG_PER_POUND: real := 0.45359237

  function Ceil(x: real): int {
    -((-x).Floor)
  }

  /** Whole pounds and ounces, or hundredths of a pound below one pound. */
  datatype Declared = Pounds(pounds: int, ounces: int) | Hundredths(hundredths: int)

  function TotalOunces(weight: real): int {
    Ceil(weight * OUNCES_PER_KG)
  }

  /** The weight of a quote for a whole order. */
  function OrderWeight(weight: real): Declared {
    var total := TotalOunces(weight);
    if total / 16 == 0 then Hundredths(Ceil(weight / KG_PER_POUND * 100.0)) else Pounds(total / 16, total % 16)
  }

  /** The weight of a package of a split order. */
  function SplitWeight(weight: real): Declared {
    Pounds(TotalOunces(weight) / 16, TotalOunces(weight) % 16)
  }

  /** What a declaration claims, in ounces; a pound has exactly sixteen. */
  function Ounces(d: Declared): real {
    match d
    case Pounds(pounds, ounces) => (16 * pounds + ounces) as real
    case Hundredths(h) => h as real * 16.0 / 100.0
  }

  function Kilograms(d: Declared): real {
    Ounces(d) * KG_PER_POUND / 16.0
  }

  lemma {:induction false} CeilBounds(x: real)
    ensures x <= Ceil(x) as real < x + 1.0
  {
  }

  lemma {:induction false} CeilIsMonotone(x: real, y: real)
    requires x <= y
    ensures Ceil(x) <= Ceil(y)
  {
    CeilBounds(x);
    CeilBounds(y);
  }

  lemma {:induction false} OuncesOfTotal(weight: real)
    requires weight > 0.0
    ensures Ounces(SplitWeight(weight)) == TotalOunces(weight) as real && TotalOunces(weight) > 0
  {
    CeilBounds(weight * OUNCES_PER_KG);
  }

  /** The two conversions agree from one pound on. */
  lemma {:induction false} BothAgree(weight: real)
    requires weight > 0.0
    ensures OrderWeight(weight) == SplitWeight(weight) <==> TotalOunces(weight) >= 16
  {
    OuncesOfTotal(weight);
  }

  /** Whatever is declared, in either form, is at least the metric weight. */
  lemma {:induction false} NeverUnderstated(weight: real)
    requires weight > 0.0
    ensures Kilograms(OrderWeight(weight)) >= weight && Kilograms(SplitWeight(weight)) >= weight
  {
    OuncesOfTotal(weight);
    CeilBounds(weight * OUNCES_PER_KG);
    CeilBounds(weight / KG_PER_POUND * 100.0);
    assert weight / KG_PER_POUND * 100.0 == weight * (100.0 / KG_PER_POUND);
  }

  /** And it exceeds the converted weight by less than an ounce. */
  lemma {:induction false} OverstatedByLessThanAnOunce(weight: real)
    requires weight > 0.0
    ensures Ounces(OrderWeight(weight)) < weight * OUNCES_PER_KG + 1.0
    ensures Ounces(SplitWeight(weight)) < weight * OUNCES_PER_KG + 1.0
  {
    OuncesOfTotal(weight);
    CeilBounds(weight * OUNCES_PER_KG);
    CeilBounds(weight / KG_PER_POUND * 100.0);
  }

  /** A heavier package is never declared lighter, also across the change of form at one pound. */
  lemma {:induction false} DeclaredIsMonotone(light: real, heavy: real)
    requires 0.0 < light <= heavy
    ensures Ounces(OrderWeight(light)) <= Ounces(OrderWeight(heavy))
    ensures Ounces(SplitWeight(light)) <= Ounces(SplitWeight(heavy))
  {
    OuncesOfTotal(light);
    OuncesOfTotal(heavy);
    CeilIsMonotone(light * OUNCES_PER_KG, heavy * OUNCES_PER_KG);
    CeilIsMonotone(light / KG_PER_POUND * 100.0, heavy / KG_PER_POUND * 100.0);
    CeilBounds(light * OUNCES_PER_KG);
    CeilBounds(light / KG_PER_POUND * 100.0);
  }
}
