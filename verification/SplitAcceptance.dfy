/** What the validator accepts and what it hands on, in terms of the split itself. */
module SplitAcceptance {
  import opened Common
  import opened SplitPlan
  import opened SplitValidation
  import SplitContents
  import SplitTheorem
  import Text

  // ---- what it hands on ----

  lemma {:induction false} LastLine(lines: seq<OrderLine>, sn: string, last: nat)
    requires last < |lines| && lines[last].orderSN == sn && forall i | last < i < |lines| :: lines[i].orderSN != sn
    ensures sn in LineTable(lines) && LineTable(lines)[sn] == lines[last]
  {
    if last < |lines| - 1 { LastLine(lines[..|lines| - 1], sn, last); }
  }

  lemma {:induction false} CleanItemAt(table: map<string, OrderLine>, items: seq<SplitItem>, k: nat)
    requires k < |items|
    ensures CleanItems(table, items)[k] == CleanItem(table, items[k])
  {
    if k < |items| - 1 { CleanItemAt(table, items[..|items| - 1], k); }
  }

  lemma {:induction false} CleanPackageAt(table: map<string, OrderLine>, packages: seq<SplitPackage>, j: nat)
    requires j < |packages|
    ensures CleanPackages(table, packages)[j] == CleanPackage(table, j, packages[j])
  {
    if j < |packages| - 1 { CleanPackageAt(table, packages[..|packages| - 1], j); }
  }

  /** What an accepted split is handed on as: numbered from one, measures and quantities as they were sent, each item
      under its trimmed order number with the texts of the last line that has it. */
  lemma {:induction false} HandedOn(lines: seq<OrderLine>, requested: seq<SplitPackage>, j: nat, k: nat, last: nat)
    requires Accepts(lines, requested) && j < |requested| && k < |requested[j].items|
    requires last < |lines| && lines[last].orderSN == Text.Trim(requested[j].items[k].orderSN)
    requires forall i | last < i < |lines| :: lines[i].orderSN != lines[last].orderSN
    ensures var (p, q) := (requested[j], CleanPackages(LineTable(lines), requested)[j]);
            && (q.number, q.weight, q.length, q.width, q.height) == (j + 1, p.weight, p.length, p.width, p.height)
            && !q.estimated && !q.needsMeasurement && |q.items| == |p.items|
            && q.items[k] == SplitContents.ItemOf(lines[last], p.items[k].quantity)
  {
    LastLine(lines, lines[last].orderSN, last);
    CleanPackageAt(LineTable(lines), requested, j);
    CleanItemAt(LineTable(lines), requested[j].items, k);
  }

  // ---- what it accepts ----

  /** All the pieces a split gives to this order number. */
  function Given(packages: seq<SplitPackage>, sn: string): int {
    if packages == [] then 0 else GivenIn(packages[0].items, sn) + Given(packages[1..], sn)
  }

  function GivenIn(items: seq<SplitItem>, sn: string): int {
    if items == [] then 0 else (if Text.Trim(items[0].orderSN) == sn then items[0].quantity else 0) + GivenIn(items[1..], sn)
  }

  lemma {:induction false} GivenInIsPieces(items: seq<SplitItem>, sn: string)
    ensures Pieces(items, TrimsTo(sn)) == GivenIn(items, sn)
  {
    if items != [] {
      GivenInIsPieces(items[1..], sn);
      PiecesFromFront(items, TrimsTo(sn));
    }
  }

  lemma {:induction false} PiecesFromFront(items: seq<SplitItem>, f: string -> bool)
    requires items != []
    ensures Pieces(items, f) == (if f(items[0].orderSN) then items[0].quantity else 0) + Pieces(items[1..], f)
  {
    var n := |items| - 1;
    if n > 0 {
      PiecesFromFront(items[..n], f);
      assert items[..n][1..] == items[1..][..n - 1];
    } else {
      assert items[..0] == [];
    }
  }

  lemma {:induction false} GivenIsAllocated(packages: seq<SplitPackage>, sn: string)
    ensures Allocated(packages, sn) == Given(packages, sn)
  {
    if packages != [] {
      GivenIsAllocated(packages[1..], sn);
      AllocatedFromFront(packages, sn);
      GivenInIsPieces(packages[0].items, sn);
    }
  }

  lemma {:induction false} AllocatedFromFront(packages: seq<SplitPackage>, sn: string)
    requires packages != []
    ensures Allocated(packages, sn) == Pieces(packages[0].items, TrimsTo(sn)) + Allocated(packages[1..], sn)
  {
    var n := |packages| - 1;
    if n > 0 {
      AllocatedFromFront(packages[..n], sn);
      assert packages[..n][1..] == packages[1..][..n - 1];
    } else {
      assert packages[..0] == [];
    }
  }

  predicate InLimits(p: SplitPackage) {
    forall x | x in [p.weight, p.length, p.width, p.height] :: 0.0 < x <= 10000.0
  }

  ghost predicate NamesLine(lines: seq<OrderLine>, item: SplitItem) {
    item.quantity > 0 && exists l | l in lines :: l.orderSN == Text.Trim(item.orderSN)
  }

  /** None of the items has this order number. */
  ghost predicate Absent(items: seq<SplitItem>, sn: string) {
    forall k | 0 <= k < |items| :: Text.Trim(items[k].orderSN) != sn
  }

  /** The items name lines of the order, have pieces, and name none twice. */
  ghost predicate ItemsName(lines: seq<OrderLine>, items: seq<SplitItem>) {
    && (forall k | 0 <= k < |items| :: NamesLine(lines, items[k]))
    && (forall k | 0 <= k < |items| :: Absent(items[..k], Text.Trim(items[k].orderSN)))
  }

  lemma {:induction false} NumbersMean(items: seq<SplitItem>, sn: string)
    ensures sn in Numbers(items) <==> !Absent(items, sn)
  {
    if sn in Numbers(items) { SplitTheorem.NumbersAre(items, sn); }
    forall k | 0 <= k < |items| ensures Text.Trim(items[k].orderSN) in Numbers(items) { NumberOf(items, k); }
  }

  lemma {:induction false} OneMoreName(lines: seq<OrderLine>, front: seq<SplitItem>, item: SplitItem)
    ensures ItemsName(lines, front + [item]) <==>
            ItemsName(lines, front) && NamesLine(lines, item) && Absent(front, Text.Trim(item.orderSN))
  {
    var items := front + [item];
    assert items[..|front|] == front && items[|front|] == item;
    forall k | 0 <= k < |front| ensures items[k] == front[k] && items[..k] == front[..k] {}
  }

  lemma {:induction false} ItemsFitMeans(lines: seq<OrderLine>, items: seq<SplitItem>)
    ensures ItemsFit(LineTable(lines), items) <==> ItemsName(lines, items)
  {
    if items != [] {
      var front, last := items[..|items| - 1], items[|items| - 1];
      ItemsFitMeans(lines, front);
      InTable(lines, Text.Trim(last.orderSN));
      NumbersMean(front, Text.Trim(last.orderSN));
      assert items == front + [last];
      OneMoreName(lines, front, last);
    }
  }

  lemma {:induction false} InTable(lines: seq<OrderLine>, sn: string)
    ensures sn in LineTable(lines) <==> exists l | l in lines :: l.orderSN == sn
  {
    if lines != [] {
      var front, last := lines[..|lines| - 1], lines[|lines| - 1];
      InTable(front, sn);
      assert lines == front + [last];
      if l :| l in lines && l.orderSN == sn { assert l in front || l == last; }
    }
  }

  /** Line `i` is the last one with its order number. */
  ghost predicate IsLast(lines: seq<OrderLine>, i: nat)
    requires i < |lines|
  {
    forall k | i < k < |lines| :: lines[k].orderSN != lines[i].orderSN
  }

  lemma {:induction false} TotalsMean(lines: seq<OrderLine>, packages: seq<SplitPackage>)
    ensures (forall sn | sn in LineTable(lines) :: Allocated(packages, sn) == LineTable(lines)[sn].quantity) <==>
            (forall i | 0 <= i < |lines| && IsLast(lines, i) :: Given(packages, lines[i].orderSN) == lines[i].quantity)
  {
    forall i | 0 <= i < |lines| && IsLast(lines, i)
      ensures lines[i].orderSN in LineTable(lines) && LineTable(lines)[lines[i].orderSN] == lines[i]
      ensures Allocated(packages, lines[i].orderSN) == Given(packages, lines[i].orderSN)
    {
      LastLine(lines, lines[i].orderSN, i);
      GivenIsAllocated(packages, lines[i].orderSN);
    }
    forall sn | sn in LineTable(lines) ensures exists i :: 0 <= i < |lines| && IsLast(lines, i) && lines[i].orderSN == sn {
      var i := SomeLast(lines, sn);
      assert IsLast(lines, i);
    }
  }

  lemma {:induction false} SomeLast(lines: seq<OrderLine>, sn: string) returns (i: nat)
    requires sn in LineTable(lines)
    ensures i < |lines| && IsLast(lines, i) && lines[i].orderSN == sn
  {
    if lines[|lines| - 1].orderSN == sn {
      i := |lines| - 1;
    } else {
      i := SomeLast(lines[..|lines| - 1], sn);
    }
  }

  /** Exactly which splits are accepted: two to twenty packages, each with measures within the limits and with pieces of
      different orders, that give every order number what its last line asks for. */
  lemma {:induction false} AcceptsExactlyWhen(lines: seq<OrderLine>, packages: seq<SplitPackage>)
    ensures Accepts(lines, packages) <==>
            && 2 <= |packages| <= 20
            && (forall p | p in packages :: InLimits(p) && p.items != [] && ItemsName(lines, p.items))
            && (forall i | 0 <= i < |lines| && IsLast(lines, i) :: Given(packages, lines[i].orderSN) == lines[i].quantity)
  {
    TotalsMean(lines, packages);
    forall p | p in packages ensures PackageFits(LineTable(lines), p) <==> InLimits(p) && p.items != [] && ItemsName(lines, p.items) {
      ItemsFitMeans(lines, p.items);
      LimitsMean(p);
    }
  }

  lemma {:induction false} LimitsMean(p: SplitPackage)
    ensures MetricsFit(p) <==> InLimits(p)
  {
    var all := [p.weight, p.length, p.width, p.height];
    assert p.weight in all && p.length in all && p.width in all && p.height in all;
  }
}
