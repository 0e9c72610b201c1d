/** The check every submitted split has to pass: `validateSplitPackages`. */
module SplitValidation {
  import opened Common
  import opened SplitPlan
  import Text

  datatype Rejection =
    | WrongPackageCount
    | BadMetrics(index: nat)
    | NoItems(index: nat)
    | UnknownOrder(index: nat, orderSN: string)
    | BadQuantity(index: nat)
    | RepeatedOrder(index: nat, orderSN: string)
    | WrongAllocation(orderSN: string)

  /** The line an order number stands for: the last one that carries it. */
  function LineTable(lines: seq<OrderLine>): map<string, OrderLine> {
    if lines == [] then map[]
    else var last := lines[|lines| - 1]; LineTable(lines[..|lines| - 1])[last.orderSN := last]
  }

  predicate MetricsFit(p: SplitPackage) {
    && 0.0 < p.weight <= MAX_METRIC && 0.0 < p.length <= MAX_METRIC
    && 0.0 < p.width <= MAX_METRIC && 0.0 < p.height <= MAX_METRIC
  }

  predicate ItemFits(table: map<string, OrderLine>, item: SplitItem) {
    Text.Trim(item.orderSN) in table && item.quantity > 0
  }

  /** The order numbers of `items`, trimmed. */
  function Numbers(items: seq<SplitItem>): set<string> {
    if items == [] then {} else Numbers(items[..|items| - 1]) + {Text.Trim(items[|items| - 1].orderSN)}
  }

  /** Every item names a line of the order, has pieces, and repeats no earlier order number. */
  predicate ItemsFit(table: map<string, OrderLine>, items: seq<SplitItem>) {
    items == [] ||
    var front, last := items[..|items| - 1], items[|items| - 1];
    ItemsFit(table, front) && ItemFits(table, last) && Text.Trim(last.orderSN) !in Numbers(front)
  }

  predicate PackageFits(table: map<string, OrderLine>, p: SplitPackage) {
    MetricsFit(p) && p.items != [] && ItemsFit(table, p.items)
  }

  /** Pieces of `items` whose order number satisfies `f`. */
  function Pieces(items: seq<SplitItem>, f: string -> bool): int {
    if items == [] then 0
    else
      var last := items[|items| - 1];
      Pieces(items[..|items| - 1], f) + (if f(last.orderSN) then last.quantity else 0)
  }

  function AllPieces(packages: seq<SplitPackage>, f: string -> bool): int {
    if packages == [] then 0
    else AllPieces(packages[..|packages| - 1], f) + Pieces(packages[|packages| - 1].items, f)
  }

  function TrimsTo(orderSN: string): string -> bool { s => Text.Trim(s) == orderSN }

  /** Pieces the split gives to an order number. */
  function Allocated(packages: seq<SplitPackage>, orderSN: string): int {
    AllPieces(packages, TrimsTo(orderSN))
  }

  /** A split is accepted exactly when every package is well formed and every order number
      receives the quantity of its line. */
  ghost predicate Accepts(lines: seq<OrderLine>, packages: seq<SplitPackage>) {
    var table := LineTable(lines);
    && 2 <= |packages| <= MAX_PACKAGES
    && (forall p | p in packages :: PackageFits(table, p))
    && (forall sn | sn in table :: Allocated(packages, sn) == table[sn].quantity)
  }

  /** What a reason about one package says about it. */
  ghost predicate PackageReason(table: map<string, OrderLine>, p: SplitPackage, reason: Rejection) {
    match reason
    case BadMetrics(_) => !MetricsFit(p)
    case NoItems(_) => p.items == []
    case UnknownOrder(_, sn) => sn in Numbers(p.items) && sn !in table
    case BadQuantity(_) => exists item | item in p.items :: item.quantity <= 0
    case RepeatedOrder(_, sn) =>
      exists k | 0 <= k < |p.items| :: sn in Numbers(p.items[..k]) && Text.Trim(p.items[k].orderSN) == sn
    case _ => false
  }

  /** What the reported reason says about the split. */
  ghost predicate Explains(lines: seq<OrderLine>, packages: seq<SplitPackage>, reason: Rejection) {
    var table := LineTable(lines);
    match reason
    case WrongPackageCount => !(2 <= |packages| <= MAX_PACKAGES)
    case WrongAllocation(sn) => sn in table && Allocated(packages, sn) != table[sn].quantity
    case _ => reason.index < |packages| && PackageReason(table, packages[reason.index], reason)
  }

  /** An item as the validator hands it on: trimmed, with the texts of the order's own line.
      (Items that name no line never get that far.) */
  function CleanItem(table: map<string, OrderLine>, item: SplitItem): SplitItem {
    var sn := Text.Trim(item.orderSN);
    if sn !in table then item
    else var line := table[sn]; SplitItem(sn, line.extCode, line.goodsName, item.quantity, line.goodsID, line.skuID)
  }

  function CleanItems(table: map<string, OrderLine>, items: seq<SplitItem>): (r: seq<SplitItem>)
    ensures |r| == |items|
  {
    if items == [] then []
    else CleanItems(table, items[..|items| - 1]) + [CleanItem(table, items[|items| - 1])]
  }

  function CleanPackage(table: map<string, OrderLine>, index: nat, p: SplitPackage): SplitPackage {
    SplitPackage(index + 1, CleanItems(table, p.items), p.weight, p.length, p.width, p.height, false, false)
  }

  /** The packages as the validator hands them on. */
  function CleanPackages(table: map<string, OrderLine>, packages: seq<SplitPackage>): (r: seq<SplitPackage>)
    ensures |r| == |packages|
  {
    if packages == [] then []
    else var n := |packages| - 1; CleanPackages(table, packages[..n]) + [CleanPackage(table, n, packages[n])]
  }

  // ---- the validator's code ----

  /** A Go map of counters reads 0 where nothing was stored. */
  function Of(counts: map<string, int>, sn: string): int {
    if sn in counts then counts[sn] else 0
  }

  /** `after` has counted the pieces of `items` on top of `before`. */
  ghost predicate Counted(before: map<string, int>, items: seq<SplitItem>, after: map<string, int>) {
    forall sn :: Of(after, sn) == Of(before, sn) + Pieces(items, TrimsTo(sn))
  }

  /** The bookkeeping after the items `items` of a package. */
  ghost predicate Read(table: map<string, OrderLine>, items: seq<SplitItem>, itemSeen: set<string>,
                       cleaned: seq<SplitItem>, before: map<string, int>, actual: map<string, int>) {
    && ItemsFit(table, items) && itemSeen == Numbers(items)
    && cleaned == CleanItems(table, items)
    && Counted(before, items, actual)
  }

  lemma {:induction false} ReadOneMore(table: map<string, OrderLine>, items: seq<SplitItem>, item: SplitItem,
                                       itemSeen: set<string>,
                    cleaned: seq<SplitItem>, before: map<string, int>, actual: map<string, int>)
    requires Read(table, items, itemSeen, cleaned, before, actual)
    requires ItemFits(table, item) && Text.Trim(item.orderSN) !in itemSeen
    ensures var sn := Text.Trim(item.orderSN);
            Read(table, items + [item], itemSeen + {sn}, cleaned + [CleanItem(table, item)],
                 before, actual[sn := Of(actual, sn) + item.quantity])
  {
    assert (items + [item])[..|items|] == items;
  }

  lemma {:induction false} ItemsFitUpTo(table: map<string, OrderLine>, items: seq<SplitItem>, k: nat)
    requires k <= |items| && ItemsFit(table, items)
    ensures ItemsFit(table, items[..k])
    ensures k < |items| ==> ItemFits(table, items[k]) && Text.Trim(items[k].orderSN) !in Numbers(items[..k])
  {
    if k == |items| {
      assert items[..k] == items;
    } else if k < |items| - 1 {
      var front := items[..|items| - 1];
      ItemsFitUpTo(table, front, k);
      assert front[..k] == items[..k];
    }
  }

  lemma {:induction false} NumberOf(items: seq<SplitItem>, k: nat)
    requires k < |items|
    ensures Text.Trim(items[k].orderSN) in Numbers(items)
  {
    if k < |items| - 1 {
      NumberOf(items[..|items| - 1], k);
    }
  }

  /** A reason that names package `index`. */
  predicate Names(reason: Rejection, index: nat) {
    !reason.WrongPackageCount? && !reason.WrongAllocation? && reason.index == index
  }

  /** The checks on item `k`; `itemSeen` holds the order numbers before it. */
  method CheckItem(table: map<string, OrderLine>, ghost p: SplitPackage, index: nat, ghost k: nat,
                   input: SplitItem, itemSeen: set<string>) returns (problem: Option<Rejection>)
    requires k < |p.items| && input == p.items[k] && itemSeen == Numbers(p.items[..k])
    ensures problem.None? <==> ItemFits(table, input) && Text.Trim(input.orderSN) !in itemSeen
    ensures problem.Some? ==> Names(problem.value, index) && PackageReason(table, p, problem.value)
  {
    var sn := Text.Trim(input.orderSN);
    NumberOf(p.items, k);
    if sn !in table {
      return Some(UnknownOrder(index, sn));
    }
    if input.quantity <= 0 {
      return Some(BadQuantity(index));
    }
    if sn in itemSeen {
      return Some(RepeatedOrder(index, sn));
    }
    problem := None;
  }

  /** The items of one package, in order; their quantities are added to `before`. */
  method ReadItems(table: map<string, OrderLine>, p: SplitPackage, index: nat, before: map<string, int>)
    returns (r: Result<seq<SplitItem>, Rejection>, actual: map<string, int>)
    ensures r.Ok? <==> ItemsFit(table, p.items)
    ensures r.Ok? ==> r.value == CleanItems(table, p.items) && Counted(before, p.items, actual)
    ensures r.Err? ==> Names(r.error, index) && PackageReason(table, p, r.error)
  {
    actual := before;
    var itemSeen: set<string> := {};
    var cleaned: seq<SplitItem> := [];
    for k := 0 to |p.items|
      invariant Read(table, p.items[..k], itemSeen, cleaned, before, actual)
    {
      var input, sn := p.items[k], Text.Trim(p.items[k].orderSN);
      var problem := CheckItem(table, p, index, k, input, itemSeen);
      if problem.Some? {
        if ItemsFit(table, p.items) { ItemsFitUpTo(table, p.items, k); }
        return Err(problem.value), actual;
      }
      ReadOneMore(table, p.items[..k], input, itemSeen, cleaned, before, actual);
      assert p.items[..k + 1] == p.items[..k] + [input];
      itemSeen := itemSeen + {sn};
      actual := actual[sn := Of(actual, sn) + input.quantity];
      cleaned := cleaned + [CleanItem(table, input)];
    }
    assert p.items[..|p.items|] == p.items;
    r := Ok(cleaned);
  }

  method ValidatePackage(table: map<string, OrderLine>, p: SplitPackage, index: nat, before: map<string, int>)
    returns (r: Result<seq<SplitItem>, Rejection>, actual: map<string, int>)
    ensures r.Ok? <==> PackageFits(table, p)
    ensures r.Ok? ==> r.value == CleanItems(table, p.items) && Counted(before, p.items, actual)
    ensures r.Err? ==> Names(r.error, index) && PackageReason(table, p, r.error)
  {
    if !MetricsFit(p) {
      return Err(BadMetrics(index)), before;
    }
    if p.items == [] {
      return Err(NoItems(index)), before;
    }
    r, actual := ReadItems(table, p, index, before);
  }

  method TableOf(lines: seq<OrderLine>) returns (table: map<string, OrderLine>)
    ensures table == LineTable(lines)
  {
    table := map[];
    for i := 0 to |lines|
      invariant table == LineTable(lines[..i])
    {
      assert lines[..i + 1][..i] == lines[..i];
      table := table[lines[i].orderSN := lines[i]];
    }
    assert lines[..|lines|] == lines;
  }

  /** The final comparison, in whatever order the map hands out its keys. */
  method CompareTotals(table: map<string, OrderLine>, actual: map<string, int>) returns (wrong: Option<string>)
    ensures wrong.None? <==> forall sn | sn in table :: Of(actual, sn) == table[sn].quantity
    ensures wrong.Some? ==> wrong.value in table && Of(actual, wrong.value) != table[wrong.value].quantity
  {
    var left := table.Keys;
    while left != {}
      invariant left <= table.Keys
      invariant forall sn | sn in table && sn !in left :: Of(actual, sn) == table[sn].quantity
      decreases left
    {
      var sn :| sn in left;
      if Of(actual, sn) != table[sn].quantity {
        return Some(sn);
      }
      left := left - {sn};
    }
    wrong := None;
  }

  lemma {:induction false} AllocatedOneMore(packages: seq<SplitPackage>, j: nat, before: map<string, int>,
                                            after: map<string, int>)
    requires j < |packages| && Counted(before, packages[j].items, after)
    requires forall sn :: Of(before, sn) == Allocated(packages[..j], sn)
    ensures forall sn :: Of(after, sn) == Allocated(packages[..j + 1], sn)
  {
    assert packages[..j + 1][..j] == packages[..j];
  }

  /** The packages one after the other. */
  method ValidateEach(table: map<string, OrderLine>, requested: seq<SplitPackage>)
    returns (r: Result<seq<SplitPackage>, Rejection>, actual: map<string, int>)
    ensures r.Ok? <==> forall p | p in requested :: PackageFits(table, p)
    ensures r.Ok? ==> r.value == CleanPackages(table, requested)
    ensures r.Ok? ==> forall sn :: Of(actual, sn) == Allocated(requested, sn)
    ensures r.Err? ==> !r.error.WrongPackageCount? && !r.error.WrongAllocation? && r.error.index < |requested|
                       && PackageReason(table, requested[r.error.index], r.error)
  {
    actual := map[];
    var result: seq<SplitPackage> := [];
    for j := 0 to |requested|
      invariant forall p | p in requested[..j] :: PackageFits(table, p)
      invariant result == CleanPackages(table, requested[..j])
      invariant forall sn :: Of(actual, sn) == Allocated(requested[..j], sn)
    {
      var raw := requested[j];
      var checked, counted := ValidatePackage(table, raw, j, actual);
      if checked.Err? {
        assert raw in requested;
        return Err(checked.error), actual;
      }
      assert requested[..j + 1] == requested[..j] + [raw] && requested[..j + 1][..j] == requested[..j];
      AllocatedOneMore(requested, j, actual, counted);
      actual := counted;
      result := result + [SplitPackage(j + 1, checked.value, raw.weight, raw.length, raw.width, raw.height, false, false)];
      assert result[j] == CleanPackage(table, j, raw);
    }
    assert requested[..|requested|] == requested;
    r := Ok(result);
  }

  method ValidateSplitPackages(lines: seq<OrderLine>, requested: seq<SplitPackage>)
    returns (r: Result<seq<SplitPackage>, Rejection>)
    ensures r.Ok? <==> Accepts(lines, requested)
    ensures r.Ok? ==> r.value == CleanPackages(LineTable(lines), requested)
    ensures r.Err? ==> Explains(lines, requested, r.error)
  {
    if |requested| < 2 || |requested| > MAX_PACKAGES {
      return Err(WrongPackageCount);
    }
    var table := TableOf(lines);
    var actual: map<string, int>;
    r, actual := ValidateEach(table, requested);
    if r.Ok? {
      var wrong := CompareTotals(table, actual);
      if wrong.Some? {
        r := Err(WrongAllocation(wrong.value));
      }
    }
  }
}
