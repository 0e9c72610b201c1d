/** The stock ledger of a bulk batch (internal/store/bulk_fulfillment.go): a budget row per
    (batch, warehouse, SKU) and a reservation row per (batch, order, SKU). */
module InventoryLedger {

  /** (batch, warehouse, SKU) */
  type BudgetKey = (string, string, string)
  /** (batch, order, SKU): the primary key of the reservations */
  type HoldKey = (string, string, string)

  datatype Budget = Budget(capacity: int, reserved: int)
  datatype Hold = Hold(warehouse: string, quantity: int)
  datatype Ledger = Ledger(budgets: map<BudgetKey, Budget>, holds: map<HoldKey, Hold>)

  /** What one SKU of a request asks for, and the stock observed for it. */
  datatype Want = Want(quantity: int, available: int)

  // ---- the SQL statements ----

  /** Quantity order `o` holds against budget `k`. */
  function Held(holds: map<HoldKey, Hold>, k: BudgetKey, o: string): int {
    if (k.0, o, k.2) in holds && holds[(k.0, o, k.2)].warehouse == k.1 then holds[(k.0, o, k.2)].quantity else 0
  }

  function ReleasedBudgets(l: Ledger, b: string, o: string): map<BudgetKey, Budget> {
    map k | k in l.budgets ::
      if k.0 == b then l.budgets[k].(reserved := l.budgets[k].reserved - Held(l.holds, k, o)) else l.budgets[k]
  }

  function KeptHolds(holds: map<HoldKey, Hold>, b: string, o: string): map<HoldKey, Hold> {
    map h | h in holds && !(h.0 == b && h.1 == o) :: holds[h]
  }

  /** Give back what order `o` holds in batch `b`, then delete its rows. */
  function Released(l: Ledger, b: string, o: string): Ledger {
    Ledger(ReleasedBudgets(l, b, o), KeptHolds(l.holds, b, o))
  }

  /** The rows of order `o` in batch `b`. */
  function HoldsOf(l: Ledger, b: string, o: string): map<string, Hold> {
    map h | h in l.holds && h.0 == b && h.1 == o :: h.2 := l.holds[h]
  }

  /** `INSERT ... ON CONFLICT DO NOTHING`: the first observation fixes the capacity. */
  function Opened(budgets: map<BudgetKey, Budget>, k: BudgetKey, available: int): map<BudgetKey, Budget> {
    if k in budgets then budgets else budgets[k := Budget(available, 0)]
  }

  function BudgetOf(budgets: map<BudgetKey, Budget>, k: BudgetKey, available: int): Budget {
    if k in budgets then budgets[k] else Budget(available, 0)
  }

  predicate Allows(capacity: int, reserved: int, requested: int) {
    capacity >= 0 && reserved >= 0 && requested > 0 && reserved <= capacity - requested
  }

  predicate SkuFits(budgets: map<BudgetKey, Budget>, b: string, w: string, sku: string, want: Want) {
    var budget := BudgetOf(budgets, (b, w, sku), want.available);
    Allows(budget.capacity, budget.reserved, want.quantity)
  }

  predicate Fits(budgets: map<BudgetKey, Budget>, b: string, w: string, wants: map<string, Want>) {
    forall sku | sku in wants :: SkuFits(budgets, b, w, sku, wants[sku])
  }

  function Keys(b: string, w: string, skus: set<string>): set<BudgetKey> {
    set sku | sku in skus :: (b, w, sku)
  }

  function BookedBudgets(budgets: map<BudgetKey, Budget>, b: string, w: string, wants: map<string, Want>): map<BudgetKey, Budget> {
    map k | k in budgets.Keys + Keys(b, w, wants.Keys) ::
      if k.0 == b && k.1 == w && k.2 in wants
      then var budget := BudgetOf(budgets, k, wants[k.2].available);
           budget.(reserved := budget.reserved + wants[k.2].quantity)
      else budgets[k]
  }

  function BookedHolds(holds: map<HoldKey, Hold>, b: string, o: string, w: string, wants: map<string, Want>): map<HoldKey, Hold> {
    map h | h in holds.Keys + Keys(b, o, wants.Keys) ::
      if h.0 == b && h.1 == o && h.2 in wants then Hold(w, wants[h.2].quantity) else holds[h]
  }

  /** All SKUs of the request booked at once. */
  function Booked(l: Ledger, b: string, o: string, w: string, wants: map<string, Want>): Ledger {
    Ledger(BookedBudgets(l.budgets, b, w, wants), BookedHolds(l.holds, b, o, w, wants))
  }

  function WantedHolds(w: string, wants: map<string, Want>): map<string, Hold> {
    map sku | sku in wants :: Hold(w, wants[sku].quantity)
  }

  /** The reservation transaction of order `o` in batch `b`: nothing to do when the same rows are
      already there, otherwise release, check every SKU, and book; a shortage rolls everything back. */
  function Reserved(l: Ledger, b: string, o: string, w: string, wants: map<string, Want>): (r: (bool, Ledger)) {
    if HoldsOf(l, b, o) == WantedHolds(w, wants) then (true, l)
    else
      var released := Released(l, b, o);
      if Fits(released.budgets, b, w, wants) then (true, Booked(released, b, o, w, wants)) else (false, l)
  }
}
