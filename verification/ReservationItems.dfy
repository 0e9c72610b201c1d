/** The list side of a reservation: a request is normalized to SKUs in ascending order, compared with the
    rows already stored, and booked row by row (internal/store/bulk_fulfillment.go). */
module ReservationItems {
  import opened Common
  import opened InventoryLedger
  import opened StableSorting
  import LedgerConservation
  import Text

  datatype RawItem = RawItem(sku: string, quantity: int, available: int)

  // ---- what normalization means ----

  /** Quantities of equal (trimmed) SKUs add up; a bad item or two different stocks for one SKU is an error. */
  function WithItem(m: map<string, Want>, item: RawItem): Option<map<string, Want>> {
    var sku := Text.Trim(item.sku);
    if sku == "" || item.quantity <= 0 || item.available < 0 then None
    else if sku in m && m[sku].available != item.available then None
    else Some(m[sku := Want((if sku in m then m[sku].quantity else 0) + item.quantity, item.available)])
  }

  function Totals(raw: seq<RawItem>): Option<map<string, Want>> {
    if raw == [] then Some(map[])
    else
      match Totals(raw[..|raw| - 1])
      case None => None
      case Some(m) => WithItem(m, raw[|raw| - 1])
  }

  /** An empty request is an error too. */
  function Normalized(raw: seq<RawItem>): Option<map<string, Want>> {
    match Totals(raw)
    case None => None
    case Some(m) => if m == map[] then None else Some(m)
  }

  /** SKUs strictly ascending, so no SKU occurs twice. */
  ghost predicate Ascending(skus: seq<string>) {
    forall i, j | 0 <= i < j < |skus| :: Text.Before(skus[i], skus[j])
  }

  /** `skus` lists exactly `keys`, in ascending order. */
  ghost predicate Lists(skus: seq<string>, keys: set<string>) {
    Ascending(skus) && forall sku :: sku in keys <==> sku in skus
  }

  /** The rows of a query in whatever order its collation gives them. */
  ghost predicate Enumerates(rows: seq<string>, keys: set<string>) {
    (forall i, j | 0 <= i < j < |rows| :: rows[i] != rows[j]) && forall sku :: sku in keys <==> sku in rows
  }

  // ---- booking row by row ----

  function OpenAll(budgets: map<BudgetKey, Budget>, b: string, w: string, skus: seq<string>, wants: map<string, Want>): map<BudgetKey, Budget>
    requires forall sku | sku in skus :: sku in wants
  {
    if skus == [] then budgets
    else
      var n := |skus| - 1;
      Opened(OpenAll(budgets, b, w, skus[..n], wants), (b, w, skus[n]), wants[skus[n]].available)
  }

  /** `UPDATE budgets SET reserved_quantity = reserved_quantity + quantity` */
  function AddedTo(budgets: map<BudgetKey, Budget>, k: BudgetKey, quantity: int): map<BudgetKey, Budget> {
    if k in budgets then budgets[k := budgets[k].(reserved := budgets[k].reserved + quantity)] else budgets
  }

  function BookAll(budgets: map<BudgetKey, Budget>, b: string, w: string, skus: seq<string>, wants: map<string, Want>): map<BudgetKey, Budget>
    requires forall sku | sku in skus :: sku in wants
  {
    if skus == [] then budgets
    else
      var n := |skus| - 1;
      AddedTo(BookAll(budgets, b, w, skus[..n], wants), (b, w, skus[n]), wants[skus[n]].quantity)
  }

  function InsertAll(holds: map<HoldKey, Hold>, b: string, o: string, w: string, skus: seq<string>, wants: map<string, Want>): map<HoldKey, Hold>
    requires forall sku | sku in skus :: sku in wants
  {
    if skus == [] then holds
    else
      var n := |skus| - 1;
      InsertAll(holds, b, o, w, skus[..n], wants)[(b, o, skus[n]) := Hold(w, wants[skus[n]].quantity)]
  }

  lemma {:induction false} LastIsNew(skus: seq<string>)
    requires skus != [] && Ascending(skus)
    ensures Ascending(skus[..|skus| - 1]) && skus[|skus| - 1] !in skus[..|skus| - 1]
  {
    Text.BeforeIsIrreflexive(skus[|skus| - 1]);
  }

  lemma {:induction false} OpenAllAt(budgets: map<BudgetKey, Budget>, b: string, w: string, skus: seq<string>,
                                     wants: map<string, Want>, k: BudgetKey)
    requires Ascending(skus) && forall sku | sku in skus :: sku in wants
    ensures var r := OpenAll(budgets, b, w, skus, wants);
            if k.0 == b && k.1 == w && k.2 in skus then k in r && r[k] == BudgetOf(budgets, k, wants[k.2].available)
            else (k in r <==> k in budgets) && (k in r ==> r[k] == budgets[k])
  {
    if skus != [] {
      LastIsNew(skus);
      OpenAllAt(budgets, b, w, skus[..|skus| - 1], wants, k);
    }
  }

  lemma {:induction false} BookAllAt(budgets: map<BudgetKey, Budget>, b: string, w: string, skus: seq<string>,
                                     wants: map<string, Want>, k: BudgetKey)
    requires Ascending(skus) && forall sku | sku in skus :: sku in wants
    ensures var r := BookAll(budgets, b, w, skus, wants);
            && (k in r <==> k in budgets)
            && (k in r ==> r[k] == if k.0 == b && k.1 == w && k.2 in skus
                                   then budgets[k].(reserved := budgets[k].reserved + wants[k.2].quantity)
                                   else budgets[k])
  {
    if skus != [] {
      LastIsNew(skus);
      BookAllAt(budgets, b, w, skus[..|skus| - 1], wants, k);
    }
  }

  lemma {:induction false} InsertAllAt(holds: map<HoldKey, Hold>, b: string, o: string, w: string, skus: seq<string>,
                                       wants: map<string, Want>, h: HoldKey)
    requires Ascending(skus) && forall sku | sku in skus :: sku in wants
    ensures var r := InsertAll(holds, b, o, w, skus, wants);
            if h.0 == b && h.1 == o && h.2 in skus then h in r && r[h] == Hold(w, wants[h.2].quantity)
            else (h in r <==> h in holds) && (h in r ==> r[h] == holds[h])
  {
    if skus != [] {
      LastIsNew(skus);
      InsertAllAt(holds, b, o, w, skus[..|skus| - 1], wants, h);
    }
  }

  lemma {:induction false} BookingListBudget(budgets: map<BudgetKey, Budget>, b: string, w: string, skus: seq<string>,
                                             wants: map<string, Want>, k: BudgetKey)
    requires Lists(skus, wants.Keys)
    ensures LedgerConservation.Agree(BookAll(OpenAll(budgets, b, w, skus, wants), b, w, skus, wants),
                                     BookedBudgets(budgets, b, w, wants), k)
  {
    OpenAllAt(budgets, b, w, skus, wants, k);
    BookAllAt(OpenAll(budgets, b, w, skus, wants), b, w, skus, wants, k);
    LedgerConservation.BookedBudgetAt(budgets, b, w, wants, k);
  }

  /** Opening and charging the budgets one distinct SKU after the other is what booking them all at once does. */
  lemma {:induction false} BookingListIsBooking(budgets: map<BudgetKey, Budget>, b: string, w: string,
                                                skus: seq<string>, wants: map<string, Want>)
    requires Lists(skus, wants.Keys)
    ensures BookAll(OpenAll(budgets, b, w, skus, wants), b, w, skus, wants) == BookedBudgets(budgets, b, w, wants)
  {
    var r, s := BookAll(OpenAll(budgets, b, w, skus, wants), b, w, skus, wants), BookedBudgets(budgets, b, w, wants);
    forall k: BudgetKey ensures LedgerConservation.Agree(r, s, k) {
      BookingListBudget(budgets, b, w, skus, wants, k);
    }
    LedgerConservation.AgreeingMaps(r, s);
  }

  ghost predicate SameHold(m: map<HoldKey, Hold>, n: map<HoldKey, Hold>, h: HoldKey) {
    if h in n then h in m && m[h] == n[h] else h !in m
  }

  lemma {:induction false} InsertingListHold(holds: map<HoldKey, Hold>, b: string, o: string, w: string,
                                             skus: seq<string>, wants: map<string, Want>, h: HoldKey)
    requires Lists(skus, wants.Keys)
    ensures SameHold(InsertAll(holds, b, o, w, skus, wants), BookedHolds(holds, b, o, w, wants), h)
  {
    InsertAllAt(holds, b, o, w, skus, wants, h);
    LedgerConservation.BookedHoldAt(holds, b, o, w, wants, h);
  }

  lemma {:induction false} InsertingListIsBooking(holds: map<HoldKey, Hold>, b: string, o: string, w: string,
                                                  skus: seq<string>, wants: map<string, Want>)
    requires Lists(skus, wants.Keys)
    ensures InsertAll(holds, b, o, w, skus, wants) == BookedHolds(holds, b, o, w, wants)
  {
    var r, s := InsertAll(holds, b, o, w, skus, wants), BookedHolds(holds, b, o, w, wants);
    forall h: HoldKey ensures SameHold(r, s, h) { InsertingListHold(holds, b, o, w, skus, wants, h); }
    assert r == s by {
      forall h: HoldKey ensures (h in r <==> h in s) && (h in s ==> r[h] == s[h]) { assert SameHold(r, s, h); }
    }
  }

  // ---- the helpers' code ----

  /** The keys of a map, collected in any order and sorted. */
  method SortedKeys(keys: set<string>) returns (r: seq<string>)
    ensures Lists(r, keys)
  {
    var list: seq<string> := [];
    var left := keys;
    while left != {}
      invariant left <= keys && forall k :: k in keys <==> k in left || k in list
      invariant forall i | 0 <= i < |list| :: list[i] !in left
      invariant forall i, j | 0 <= i < j < |list| :: list[i] != list[j]
      decreases left
    {
      var k :| k in left;
      left := left - {k};
      list := list + [k];
    }
    r := StableSort(Text.Before, list);
    SortedDistinct(list);
  }

  lemma {:induction false} SortedDistinct(list: seq<string>)
    requires forall i, j | 0 <= i < j < |list| :: list[i] != list[j]
    ensures Ascending(StableSort(Text.Before, list))
    ensures forall k :: k in list <==> k in StableSort(Text.Before, list)
  {
    var r := StableSort(Text.Before, list);
    Text.BeforeIsOrder();
    SameElements(list, r);
    SortSorts(Text.Before, list);
    DistinctStays(list, r);
    forall i, j | 0 <= i < j < |r| ensures Text.Before(r[i], r[j]) {
      assert !Text.Before(r[j], r[i]);
    }
  }

  lemma {:induction false} DistinctStays(list: seq<string>, r: seq<string>)
    requires multiset(list) == multiset(r) && forall i, j | 0 <= i < j < |list| :: list[i] != list[j]
    ensures forall i, j | 0 <= i < j < |r| :: r[i] != r[j]
  {
    if i, j :| 0 <= i < j < |r| && r[i] == r[j] {
      assert r == r[..i] + [r[i]] + r[i + 1..j] + [r[j]] + r[j + 1..];
      assert multiset(r)[r[i]] >= 2;
      OccursOnce(list, r[i]);
    }
  }

  lemma {:induction false} OccursOnce(list: seq<string>, x: string)
    requires forall i, j | 0 <= i < j < |list| :: list[i] != list[j]
    ensures multiset(list)[x] <= 1
  {
    if list != [] {
      var n := |list| - 1;
      OccursOnce(list[..n], x);
      assert list == list[..n] + [list[n]];
      if list[n] == x { assert x !in list[..n]; }
    }
  }

  /** Two ascending lists of the same SKUs are the same list. */
  lemma {:induction false} AscendingUnique(s: seq<string>, t: seq<string>)
    requires Ascending(s) && Ascending(t) && forall x :: x in s <==> x in t
    ensures s == t
  {
    Text.BeforeIsOrder();
    assert (t != [] ==> t[0] in t) && (s != [] ==> s[0] in s);
    if s != [] {
      assert s[0] in t && (t != [] ==> t[0] in s);
      assert s[0] == t[0];
      forall x ensures x in s[1..] <==> x in t[1..] {
        assert x in s[1..] ==> x in s && x != s[0];
        assert x in t[1..] ==> x in t && x != t[0];
      }
      AscendingUnique(s[1..], t[1..]);
    }
  }

  method AddItem(wants: map<string, Want>, item: RawItem) returns (ok: bool, r: map<string, Want>)
    ensures WithItem(wants, item) == if ok then Some(r) else None
  {
    var sku := Text.Trim(item.sku);
    if sku == "" || item.quantity <= 0 || item.available < 0 {
      return false, wants;
    }
    var quantity := (if sku in wants then wants[sku].quantity else 0) + item.quantity;
    if sku in wants && wants[sku].available != item.available {
      return false, wants;
    }
    return true, wants[sku := Want(quantity, item.available)];
  }

  method AddUp(raw: seq<RawItem>) returns (ok: bool, wants: map<string, Want>)
    ensures Totals(raw) == if ok then Some(wants) else None
  {
    ok, wants := true, map[];
    for i := 0 to |raw|
      invariant ok && Totals(raw[..i]) == Some(wants)
    {
      assert raw[..i + 1][..i] == raw[..i];
      ok, wants := AddItem(wants, raw[i]);
      if !ok {
        InvalidStays(raw, i + 1);
        return;
      }
    }
    assert raw[..|raw|] == raw;
  }

  /** `normalizeBulkInventoryReservationItems`: the totals, and their SKUs in ascending order. */
  method Normalize(raw: seq<RawItem>) returns (ok: bool, skus: seq<string>, wants: map<string, Want>)
    ensures Normalized(raw) == if ok then Some(wants) else None
    ensures ok ==> Lists(skus, wants.Keys)
  {
    skus := [];
    ok, wants := AddUp(raw);
    if ok {
      ok := wants != map[];
      skus := SortedKeys(wants.Keys);
    }
  }

  lemma {:induction false} InvalidStays(raw: seq<RawItem>, n: nat)
    requires n <= |raw| && Totals(raw[..n]).None?
    ensures Totals(raw).None?
  {
    if n < |raw| {
      var front := raw[..|raw| - 1];
      assert front[..n] == raw[..n];
      InvalidStays(front, n);
    } else {
      assert raw[..n] == raw;
    }
  }

  /** `sameBulkInventoryReservation`: comparing the stored rows, in the order `stored` of the query, one by one
      with the request. It never takes different reservations for the same, and misses equal ones exactly when
      the database does not list them in byte order. */
  method SameReservation(stored: seq<string>, holds: map<string, Hold>, w: string, skus: seq<string>, wants: map<string, Want>)
    returns (same: bool)
    requires Enumerates(stored, holds.Keys) && Lists(skus, wants.Keys)
    ensures same <==> holds == WantedHolds(w, wants) && stored == skus
    ensures Lists(stored, holds.Keys) ==> (same <==> holds == WantedHolds(w, wants))
  {
    MatchingIsSame(stored, holds, w, skus, wants);
    if Lists(stored, holds.Keys) { ListedIsSame(stored, holds, w, skus, wants); }
    same := AllRowsMatch(stored, holds, w, skus, wants);
  }

  method AllRowsMatch(stored: seq<string>, holds: map<string, Hold>, w: string, skus: seq<string>, wants: map<string, Want>)
    returns (same: bool)
    requires (forall row | row in stored :: row in holds) && forall sku | sku in skus :: sku in wants
    ensures same == AllMatch(stored, holds, w, skus, wants)
  {
    if |stored| != |skus| {
      return false;
    }
    for i := 0 to |skus|
      invariant forall j | 0 <= j < i :: Matches(stored[j], holds, w, skus[j], wants)
    {
      var hold, want := holds[stored[i]], wants[skus[i]];
      if hold.warehouse != w || stored[i] != skus[i] || hold.quantity != want.quantity {
        assert !Matches(stored[i], holds, w, skus[i], wants);
        return false;
      }
    }
    return true;
  }

  predicate Matches(row: string, holds: map<string, Hold>, w: string, sku: string, wants: map<string, Want>) {
    row in holds && sku in wants && row == sku && holds[row] == Hold(w, wants[sku].quantity)
  }

  ghost predicate AllMatch(stored: seq<string>, holds: map<string, Hold>, w: string, skus: seq<string>, wants: map<string, Want>) {
    |stored| == |skus| && forall i | 0 <= i < |skus| :: Matches(stored[i], holds, w, skus[i], wants)
  }

  lemma {:induction false} MatchingIsSame(stored: seq<string>, holds: map<string, Hold>, w: string, skus: seq<string>,
                                          wants: map<string, Want>)
    requires Enumerates(stored, holds.Keys) && Lists(skus, wants.Keys)
    ensures AllMatch(stored, holds, w, skus, wants) <==> holds == WantedHolds(w, wants) && stored == skus
  {
    if holds == WantedHolds(w, wants) && stored == skus {
      forall i | 0 <= i < |skus| ensures Matches(stored[i], holds, w, skus[i], wants) {
        assert skus[i] in wants.Keys;
      }
    }
    if AllMatch(stored, holds, w, skus, wants) {
      assert forall i | 0 <= i < |skus| :: Matches(stored[i], holds, w, skus[i], wants);
      assert stored == skus;
      forall sku | sku in wants ensures sku in holds && holds[sku] == Hold(w, wants[sku].quantity) {
        var i :| 0 <= i < |skus| && skus[i] == sku;
        assert Matches(stored[i], holds, w, skus[i], wants);
      }
      assert holds.Keys == wants.Keys;
    }
  }

  lemma {:induction false} ListedIsSame(stored: seq<string>, holds: map<string, Hold>, w: string, skus: seq<string>,
                                        wants: map<string, Want>)
    requires Lists(stored, holds.Keys) && Lists(skus, wants.Keys)
    ensures holds == WantedHolds(w, wants) ==> stored == skus
  {
    if holds == WantedHolds(w, wants) {
      assert forall sku :: sku in stored <==> sku in holds.Keys;
      AscendingUnique(stored, skus);
    }
  }

  lemma {:induction false} ListsEnumerate(rows: seq<string>, keys: set<string>)
    requires Lists(rows, keys)
    ensures Enumerates(rows, keys)
  {
    forall i, j | 0 <= i < j < |rows| ensures rows[i] != rows[j] { Text.BeforeIsIrreflexive(rows[i]); }
  }
}
