/** Conservation of stock in the bulk ledger: budgets always equal the sum of the reservations. */
module LedgerConservation {
  import opened InventoryLedger

  ghost function SumOver(holds: map<HoldKey, Hold>, k: BudgetKey, orders: set<string>): int {
    if orders == {} then 0
    else var o :| o in orders; Held(holds, k, o) + SumOver(holds, k, orders - {o})
  }

  ghost function Orders(holds: map<HoldKey, Hold>): set<string> {
    set h | h in holds :: h.1
  }

  /** All that is reserved against a budget. */
  ghost function SumHeld(holds: map<HoldKey, Hold>, k: BudgetKey): int {
    SumOver(holds, k, Orders(holds))
  }

  ghost predicate Conserved(l: Ledger) {
    && (forall k | k in l.budgets ::
         l.budgets[k].reserved == SumHeld(l.holds, k) && 0 <= l.budgets[k].reserved <= l.budgets[k].capacity)
    && (forall h | h in l.holds :: l.holds[h].quantity > 0 && (h.0, l.holds[h].warehouse, h.2) in l.budgets)
  }

  lemma {:induction false} SumWithout(holds: map<HoldKey, Hold>, k: BudgetKey, orders: set<string>, o: string)
    requires o in orders
    ensures SumOver(holds, k, orders) == Held(holds, k, o) + SumOver(holds, k, orders - {o})
    decreases orders
  {
    var p :| p in orders && SumOver(holds, k, orders) == Held(holds, k, p) + SumOver(holds, k, orders - {p});
    if p != o {
      SumWithout(holds, k, orders - {p}, o);
      SumWithout(holds, k, orders - {o}, p);
      assert orders - {p} - {o} == orders - {o} - {p};
    }
  }

  lemma {:induction false} SumSame(h1: map<HoldKey, Hold>, h2: map<HoldKey, Hold>, k: BudgetKey, orders: set<string>)
    requires forall o | o in orders :: Held(h1, k, o) == Held(h2, k, o)
    ensures SumOver(h1, k, orders) == SumOver(h2, k, orders)
    decreases orders
  {
    if orders != {} {
      var o :| o in orders;
      SumWithout(h1, k, orders, o);
      SumWithout(h2, k, orders, o);
      SumSame(h1, h2, k, orders - {o});
    }
  }

  lemma {:induction false} SumIgnoresOthers(holds: map<HoldKey, Hold>, k: BudgetKey, more: set<string>)
    requires Orders(holds) <= more
    ensures SumOver(holds, k, more) == SumHeld(holds, k)
    decreases more
  {
    if more != Orders(holds) {
      var o :| o in more && o !in Orders(holds);
      assert forall h | h in holds :: h.1 in Orders(holds);
      SumWithout(holds, k, more, o);
      SumIgnoresOthers(holds, k, more - {o});
    }
  }

  /** When only order `o` changes what it holds, the sum changes by just that. */
  lemma {:induction false} SumShifts(h1: map<HoldKey, Hold>, h2: map<HoldKey, Hold>, k: BudgetKey, o: string)
    requires forall p | p != o :: Held(h1, k, p) == Held(h2, k, p)
    ensures SumHeld(h2, k) - SumHeld(h1, k) == Held(h2, k, o) - Held(h1, k, o)
  {
    var all := Orders(h1) + Orders(h2) + {o};
    SumIgnoresOthers(h1, k, all);
    SumIgnoresOthers(h2, k, all);
    SumWithout(h1, k, all, o);
    SumWithout(h2, k, all, o);
    SumSame(h1, h2, k, all - {o});
  }

  lemma {:induction false} SumAtLeast(holds: map<HoldKey, Hold>, k: BudgetKey, orders: set<string>)
    requires forall h | h in holds :: holds[h].quantity > 0
    ensures SumOver(holds, k, orders) >= 0
    decreases orders
  {
    if orders != {} {
      var o :| o in orders;
      SumWithout(holds, k, orders, o);
      SumAtLeast(holds, k, orders - {o});
    }
  }

  // ---- single rows ----

  lemma {:induction false} InKeys(b: string, x: string, skus: set<string>, k: (string, string, string))
    ensures k in Keys(b, x, skus) <==> k.0 == b && k.1 == x && k.2 in skus
  {
  }

  lemma {:induction false} BookedBudgetAt(budgets: map<BudgetKey, Budget>, b: string, w: string,
                                          wants: map<string, Want>, k: BudgetKey)
    ensures var r := BookedBudgets(budgets, b, w, wants);
            if k.0 == b && k.1 == w && k.2 in wants
            then k in r && r[k] == BudgetOf(budgets, k, wants[k.2].available).(
                   reserved := BudgetOf(budgets, k, wants[k.2].available).reserved + wants[k.2].quantity)
            else (k in r <==> k in budgets) && (k in r ==> r[k] == budgets[k])
  {
    InKeys(b, w, wants.Keys, k);
  }

  lemma {:induction false} BookedHoldAt(holds: map<HoldKey, Hold>, b: string, o: string, w: string,
                                        wants: map<string, Want>, h: HoldKey)
    ensures var r := BookedHolds(holds, b, o, w, wants);
            if h.0 == b && h.1 == o && h.2 in wants then h in r && r[h] == Hold(w, wants[h.2].quantity)
            else (h in r <==> h in holds) && (h in r ==> r[h] == holds[h])
  {
    InKeys(b, o, wants.Keys, h);
  }

  /** What changes for budget `k` when order `o` books. */
  lemma {:induction false} BookedHeld(holds: map<HoldKey, Hold>, b: string, o: string, w: string,
                                      wants: map<string, Want>, k: BudgetKey)
    requires forall h | h in holds :: !(h.0 == b && h.1 == o)
    ensures SumHeld(BookedHolds(holds, b, o, w, wants), k) ==
            SumHeld(holds, k) + (if k.0 == b && k.1 == w && k.2 in wants then wants[k.2].quantity else 0)
  {
    var r := BookedHolds(holds, b, o, w, wants);
    forall p | p != o ensures Held(holds, k, p) == Held(r, k, p) {
      BookedHoldAt(holds, b, o, w, wants, (k.0, p, k.2));
    }
    BookedHoldAt(holds, b, o, w, wants, (k.0, o, k.2));
    SumShifts(holds, r, k, o);
  }

  /** What changes for budget `k` when order `o` gives its rows back. */
  lemma {:induction false} KeptHeld(holds: map<HoldKey, Hold>, b: string, o: string, k: BudgetKey)
    ensures SumHeld(KeptHolds(holds, b, o), k) == SumHeld(holds, k) - (if k.0 == b then Held(holds, k, o) else 0)
  {
    SumShifts(holds, KeptHolds(holds, b, o), k, o);
  }

  lemma {:induction false} UnheldBudget(l: Ledger, k: BudgetKey)
    requires Conserved(l) && k !in l.budgets
    ensures SumHeld(l.holds, k) == 0
  {
    assert forall o :: Held(l.holds, k, o) == 0;
    SumSame(l.holds, map[], k, Orders(l.holds));
    SumIgnoresOthers(map[], k, Orders(l.holds));
  }

  // ---- transactions ----

  /** Releasing gives every budget back exactly what the order held. */
  lemma {:induction false} ReleaseConserves(l: Ledger, b: string, o: string)
    requires Conserved(l)
    ensures Conserved(Released(l, b, o))
  {
    var r := Released(l, b, o);
    forall k | k in r.budgets
      ensures r.budgets[k].reserved == SumHeld(r.holds, k) && 0 <= r.budgets[k].reserved <= r.budgets[k].capacity
    {
      KeptHeld(l.holds, b, o, k);
      SumAtLeast(r.holds, k, Orders(r.holds));
    }
  }

  ghost predicate HoldsNothing(l: Ledger, b: string, o: string) {
    forall h | h in l.holds :: !(h.0 == b && h.1 == o)
  }

  lemma {:induction false} BookedBudgetConserved(l: Ledger, b: string, o: string, w: string, wants: map<string, Want>,
                                                 k: BudgetKey)
    requires Conserved(l) && HoldsNothing(l, b, o) && Fits(l.budgets, b, w, wants)
    requires k in BookedBudgets(l.budgets, b, w, wants)
    ensures var r := BookedBudgets(l.budgets, b, w, wants)[k];
            r.reserved == SumHeld(BookedHolds(l.holds, b, o, w, wants), k) && 0 <= r.reserved <= r.capacity
  {
    BookedBudgetAt(l.budgets, b, w, wants, k);
    BookedHeld(l.holds, b, o, w, wants, k);
    if k.0 == b && k.1 == w && k.2 in wants {
      assert SkuFits(l.budgets, b, w, k.2, wants[k.2]);
      if k !in l.budgets { UnheldBudget(l, k); }
    }
  }

  /** Booking a request that fits keeps the ledger balanced and within capacity. */
  lemma {:induction false} BookingConserves(l: Ledger, b: string, o: string, w: string, wants: map<string, Want>)
    requires Conserved(l) && HoldsNothing(l, b, o) && Fits(l.budgets, b, w, wants)
    ensures Conserved(Booked(l, b, o, w, wants))
  {
    var r := Booked(l, b, o, w, wants);
    forall k | k in r.budgets
      ensures r.budgets[k].reserved == SumHeld(r.holds, k) && 0 <= r.budgets[k].reserved <= r.budgets[k].capacity
    {
      BookedBudgetConserved(l, b, o, w, wants, k);
    }
    forall h | h in r.holds ensures r.holds[h].quantity > 0 && (h.0, r.holds[h].warehouse, h.2) in r.budgets {
      BookedHoldAt(l.holds, b, o, w, wants, h);
      BookedBudgetAt(l.budgets, b, w, wants, (h.0, r.holds[h].warehouse, h.2));
      if h.0 == b && h.1 == o && h.2 in wants {
        assert SkuFits(l.budgets, b, w, h.2, wants[h.2]);
      }
    }
  }

  /** The reservation transaction keeps the ledger balanced; a shortage leaves it untouched; a success
      leaves exactly the requested rows. */
  lemma {:induction false} ReserveConserves(l: Ledger, b: string, o: string, w: string, wants: map<string, Want>)
    requires Conserved(l)
    ensures Conserved(Reserved(l, b, o, w, wants).1)
    ensures !Reserved(l, b, o, w, wants).0 ==> Reserved(l, b, o, w, wants).1 == l
    ensures Reserved(l, b, o, w, wants).0 ==> HoldsOf(Reserved(l, b, o, w, wants).1, b, o) == WantedHolds(w, wants)
  {
    var released := Released(l, b, o);
    ReleaseConserves(l, b, o);
    if HoldsOf(l, b, o) != WantedHolds(w, wants) && Fits(released.budgets, b, w, wants) {
      BookingConserves(released, b, o, w, wants);
      BookedRows(released, b, o, w, wants);
    }
  }

  lemma {:induction false} BookedRows(l: Ledger, b: string, o: string, w: string, wants: map<string, Want>)
    requires HoldsNothing(l, b, o)
    ensures HoldsOf(Booked(l, b, o, w, wants), b, o) == WantedHolds(w, wants)
  {
    var booked := Booked(l, b, o, w, wants);
    var r := HoldsOf(booked, b, o);
    forall sku ensures (sku in r <==> sku in wants) && (sku in wants ==> r[sku] == Hold(w, wants[sku].quantity)) {
      BookedHoldAt(l.holds, b, o, w, wants, (b, o, sku));
    }
  }

  /** From `l` to `r` other orders keep their rows, other batches keep rows and budgets, and a capacity
      once recorded never changes. */
  ghost predicate OnlyOrder(l: Ledger, r: Ledger, b: string, o: string) {
    && (forall h: HoldKey | !(h.0 == b && h.1 == o) :: (h in r.holds <==> h in l.holds) && (h in l.holds ==> r.holds[h] == l.holds[h]))
    && (forall k | k in l.budgets :: k in r.budgets && r.budgets[k].capacity == l.budgets[k].capacity)
    && (forall k: BudgetKey | k.0 != b :: (k in r.budgets <==> k in l.budgets) && (k in l.budgets ==> r.budgets[k] == l.budgets[k]))
  }

  lemma {:induction false} OnlyOrderChains(l: Ledger, m: Ledger, r: Ledger, b: string, o: string)
    requires OnlyOrder(l, m, b, o) && OnlyOrder(m, r, b, o)
    ensures OnlyOrder(l, r, b, o)
  {
  }

  lemma {:induction false} ReleaseTouchesOnlyItsOrder(l: Ledger, b: string, o: string)
    ensures OnlyOrder(l, Released(l, b, o), b, o)
  {
  }

  lemma {:induction false} BookingTouchesOnlyItsOrder(l: Ledger, b: string, o: string, w: string,
                                                      wants: map<string, Want>)
    ensures OnlyOrder(l, Booked(l, b, o, w, wants), b, o)
  {
  }

  lemma {:induction false} ReserveTouchesOnlyItsOrder(l: Ledger, b: string, o: string, w: string,
                                                      wants: map<string, Want>)
    ensures OnlyOrder(l, Reserved(l, b, o, w, wants).1, b, o)
  {
    var released := Released(l, b, o);
    ReleaseTouchesOnlyItsOrder(l, b, o);
    BookingTouchesOnlyItsOrder(released, b, o, w, wants);
    OnlyOrderChains(l, released, Booked(released, b, o, w, wants), b, o);
  }

  // ---- the shortcut ----

  lemma {:induction false} SameRows(l: Ledger, b: string, o: string, w: string, wants: map<string, Want>)
    requires HoldsOf(l, b, o) == WantedHolds(w, wants)
    ensures forall sku | sku in wants :: (b, o, sku) in l.holds && l.holds[(b, o, sku)] == Hold(w, wants[sku].quantity)
    ensures forall h | h in l.holds && h.0 == b && h.1 == o :: h.2 in wants
  {
    forall sku | sku in wants
      ensures (b, o, sku) in l.holds && l.holds[(b, o, sku)] == Hold(w, wants[sku].quantity)
    {
      assert sku in HoldsOf(l, b, o);
    }
    forall h | h in l.holds && h.0 == b && h.1 == o ensures h.2 in wants {
      assert h.2 in HoldsOf(l, b, o);
    }
  }

  /** The "same reservation" shortcut leaves the ledger where releasing and booking again would take
      it, and that booking cannot run out of stock. */
  lemma {:induction false} ShortcutIsRebooking(l: Ledger, b: string, o: string, w: string, wants: map<string, Want>)
    requires Conserved(l) && HoldsOf(l, b, o) == WantedHolds(w, wants)
    ensures Fits(Released(l, b, o).budgets, b, w, wants)
    ensures Booked(Released(l, b, o), b, o, w, wants) == l
  {
    RebookingFits(l, b, o, w, wants);
    RebookedRows(l, b, o, w, wants);
    RebookedBudgets(l, b, o, w, wants);
  }

  lemma {:induction false} RebookedBudgets(l: Ledger, b: string, o: string, w: string, wants: map<string, Want>)
    requires Conserved(l) && HoldsOf(l, b, o) == WantedHolds(w, wants)
    ensures BookedBudgets(ReleasedBudgets(l, b, o), b, w, wants) == l.budgets
  {
    var again := BookedBudgets(ReleasedBudgets(l, b, o), b, w, wants);
    forall k: BudgetKey ensures Agree(again, l.budgets, k) {
      RebookedBudget(l, b, o, w, wants, k);
    }
    AgreeingMaps(again, l.budgets);
  }

  ghost predicate Agree(m: map<BudgetKey, Budget>, n: map<BudgetKey, Budget>, k: BudgetKey) {
    if k in n then k in m && m[k] == n[k] else k !in m
  }

  lemma {:induction false} AgreeingMaps(m: map<BudgetKey, Budget>, n: map<BudgetKey, Budget>)
    requires forall k :: Agree(m, n, k)
    ensures m == n
  {
    forall k ensures (k in m <==> k in n) && (k in m ==> m[k] == n[k]) {
      assert Agree(m, n, k);
    }
  }

  lemma {:induction false} RebookingFits(l: Ledger, b: string, o: string, w: string, wants: map<string, Want>)
    requires Conserved(l) && HoldsOf(l, b, o) == WantedHolds(w, wants)
    ensures Fits(ReleasedBudgets(l, b, o), b, w, wants)
  {
    SameRows(l, b, o, w, wants);
    ReleaseConserves(l, b, o);
    forall sku | sku in wants ensures SkuFits(ReleasedBudgets(l, b, o), b, w, sku, wants[sku]) {
      assert (b, o, sku) in l.holds && (b, w, sku) in l.budgets;
      assert (b, w, sku) in Released(l, b, o).budgets;
    }
  }

  lemma {:induction false} RebookedRows(l: Ledger, b: string, o: string, w: string, wants: map<string, Want>)
    requires HoldsOf(l, b, o) == WantedHolds(w, wants)
    ensures BookedHolds(KeptHolds(l.holds, b, o), b, o, w, wants) == l.holds
  {
    SameRows(l, b, o, w, wants);
    var again := BookedHolds(KeptHolds(l.holds, b, o), b, o, w, wants);
    forall h: HoldKey ensures (h in again <==> h in l.holds) && (h in l.holds ==> again[h] == l.holds[h]) {
      BookedHoldAt(KeptHolds(l.holds, b, o), b, o, w, wants, h);
    }
  }

  lemma {:induction false} RebookedBudget(l: Ledger, b: string, o: string, w: string, wants: map<string, Want>,
                                          k: BudgetKey)
    requires Conserved(l) && HoldsOf(l, b, o) == WantedHolds(w, wants)
    ensures Agree(BookedBudgets(ReleasedBudgets(l, b, o), b, w, wants), l.budgets, k)
  {
    SameRows(l, b, o, w, wants);
    BookedBudgetAt(ReleasedBudgets(l, b, o), b, w, wants, k);
    if k.0 == b && k.1 == w && k.2 in wants {
      assert (b, o, k.2) in l.holds && k in l.budgets;
    } else if k.0 == b && (b, o, k.2) in l.holds {
      assert (b, o, k.2).2 in wants;
    }
  }
}
