/** When a reservation succeeds and what it stores, told from the request as it was sent. */
module ReservationAnswers {
  import opened Common
  import opened BulkBatches
  import opened BulkRuns
  import opened InventoryLedger
  import opened LedgerConservation
  import opened ReservationItems
  import Text

  // ---- the request ----

  /** All pieces the request asks of this SKU. */
  function Pieces(raw: seq<RawItem>, sku: string): int {
    if raw == [] then 0
    else
      var last := raw[|raw| - 1];
      Pieces(raw[..|raw| - 1], sku) + if Text.Trim(last.sku) == sku then last.quantity else 0
  }

  predicate GoodItem(item: RawItem) {
    Text.Trim(item.sku) != "" && item.quantity > 0 && item.available >= 0
  }

  /** Two items of one SKU were sent with the same stock. */
  predicate SameStock(x: RawItem, y: RawItem) {
    Text.Trim(x.sku) == Text.Trim(y.sku) ==> x.available == y.available
  }

  ghost predicate GoodItems(raw: seq<RawItem>) {
    (forall i | 0 <= i < |raw| :: GoodItem(raw[i])) && (forall i, j | 0 <= i < j < |raw| :: SameStock(raw[i], raw[j]))
  }

  ghost predicate Occurs(raw: seq<RawItem>, sku: string) {
    exists i | 0 <= i < |raw| :: Text.Trim(raw[i].sku) == sku
  }

  /** `m` holds for every SKU of the request its pieces and its stock. */
  ghost predicate SumsUp(raw: seq<RawItem>, m: map<string, Want>) {
    && (forall sku :: sku in m <==> Occurs(raw, sku))
    && (forall sku | sku in m :: m[sku].quantity == Pieces(raw, sku))
    && (forall i | 0 <= i < |raw| :: var sku := Text.Trim(raw[i].sku); sku in m && m[sku].available == raw[i].available)
  }

  lemma {:induction false} NothingOccurs(raw: seq<RawItem>, sku: string)
    requires !Occurs(raw, sku)
    ensures Pieces(raw, sku) == 0
  {
    if raw != [] {
      var front := raw[..|raw| - 1];
      assert forall i | 0 <= i < |front| :: front[i] == raw[i];
      NothingOccurs(front, sku);
    }
  }

  lemma {:induction false} OneMoreOccurs(front: seq<RawItem>, last: RawItem, sku: string)
    ensures Occurs(front + [last], sku) <==> Occurs(front, sku) || Text.Trim(last.sku) == sku
  {
    var raw := front + [last];
    if i :| 0 <= i < |front| && Text.Trim(front[i].sku) == sku { assert raw[i] == front[i]; }
    assert raw[|front|] == last;
  }

  lemma {:induction false} OneMoreSku(front: seq<RawItem>, last: RawItem, m: map<string, Want>, s: string)
    requires SumsUp(front, m) && WithItem(m, last).Some?
    ensures var r := WithItem(m, last).value;
            (s in r <==> Occurs(front + [last], s)) && (s in r ==> r[s].quantity == Pieces(front + [last], s))
  {
    assert (front + [last])[..|front|] == front;
    OneMoreOccurs(front, last, s);
    if s !in m { NothingOccurs(front, s); }
  }

  lemma {:induction false} OneMoreStock(front: seq<RawItem>, last: RawItem, m: map<string, Want>, i: nat)
    requires SumsUp(front, m) && WithItem(m, last).Some? && i <= |front|
    ensures var (r, item) := (WithItem(m, last).value, (front + [last])[i]);
            Text.Trim(item.sku) in r && r[Text.Trim(item.sku)].available == item.available
  {
    if i < |front| { assert (front + [last])[i] == front[i]; }
  }

  lemma {:induction false} OneMoreSums(front: seq<RawItem>, last: RawItem, m: map<string, Want>)
    requires SumsUp(front, m) && WithItem(m, last).Some?
    ensures SumsUp(front + [last], WithItem(m, last).value)
  {
    forall s
      ensures s in WithItem(m, last).value <==> Occurs(front + [last], s)
      ensures s in WithItem(m, last).value ==> WithItem(m, last).value[s].quantity == Pieces(front + [last], s)
    {
      OneMoreSku(front, last, m, s);
    }
    forall i | 0 <= i < |front + [last]|
      ensures var item := (front + [last])[i];
              Text.Trim(item.sku) in WithItem(m, last).value && WithItem(m, last).value[Text.Trim(item.sku)].available == item.available
    {
      OneMoreStock(front, last, m, i);
    }
  }

  lemma {:induction false} OneMoreGood(front: seq<RawItem>, last: RawItem, m: map<string, Want>)
    requires SumsUp(front, m) && GoodItems(front)
    ensures GoodItems(front + [last]) <==> WithItem(m, last).Some?
  {
    var raw, sku := front + [last], Text.Trim(last.sku);
    assert raw[|front|] == last && forall i | 0 <= i < |front| :: raw[i] == front[i];
    if GoodItems(raw) && sku in m {
      var i :| 0 <= i < |front| && Text.Trim(front[i].sku) == sku;
      assert SameStock(raw[i], raw[|front|]);
    }
    if WithItem(m, last).Some? {
      assert GoodItem(last);
      forall i, j | 0 <= i < j < |raw| ensures SameStock(raw[i], raw[j]) {
        assert j < |front| ==> SameStock(front[i], front[j]);
      }
    }
  }

  lemma {:induction false} TotalsMean(raw: seq<RawItem>)
    ensures Totals(raw).Some? <==> GoodItems(raw)
    ensures Totals(raw).Some? ==> SumsUp(raw, Totals(raw).value)
  {
    if raw != [] {
      var front, last := raw[..|raw| - 1], raw[|raw| - 1];
      assert raw == front + [last];
      TotalsMean(front);
      if Totals(front).Some? {
        OneMoreGood(front, last, Totals(front).value);
        if Totals(raw).Some? { OneMoreSums(front, last, Totals(front).value); }
      } else if GoodItems(raw) {
        assert GoodItems(front) by {
          forall i | 0 <= i < |front| ensures GoodItem(front[i]) { assert GoodItem(raw[i]); }
          forall i, j | 0 <= i < j < |front| ensures SameStock(front[i], front[j]) { assert SameStock(raw[i], raw[j]); }
        }
      }
    }
  }

  /** A request is accepted exactly when it has items, all good, and equal SKUs come with equal stock; their pieces
      add up. */
  lemma {:induction false} NormalizedExactlyWhen(raw: seq<RawItem>)
    ensures Normalized(raw).Some? <==> raw != [] && GoodItems(raw)
    ensures Normalized(raw).Some? ==> SumsUp(raw, Normalized(raw).value)
  {
    TotalsMean(raw);
    if raw != [] && Totals(raw).Some? { assert Text.Trim(raw[0].sku) in Totals(raw).value; }
  }

  // ---- the ledger ----

  /** What all other orders hold against a budget. */
  ghost function HeldByOthers(l: Ledger, k: BudgetKey, o: string): int {
    SumHeld(l.holds, k) - Held(l.holds, k, o)
  }

  /** The first stock seen of a SKU is its capacity for the whole batch. */
  function Capacity(l: Ledger, k: BudgetKey, available: int): int {
    if k in l.budgets then l.budgets[k].capacity else available
  }

  /** The pieces asked for fit beside what others hold. */
  ghost predicate HasRoom(l: Ledger, b: string, o: string, w: string, sku: string, want: Want) {
    want.quantity > 0 && HeldByOthers(l, (b, w, sku), o) + want.quantity <= Capacity(l, (b, w, sku), want.available)
  }

  lemma {:induction false} ReleasedRoom(l: Ledger, b: string, o: string, w: string, sku: string, want: Want)
    requires Conserved(l)
    ensures SkuFits(Released(l, b, o).budgets, b, w, sku, want) <==> HasRoom(l, b, o, w, sku, want)
  {
    var k := (b, w, sku);
    ReleaseConserves(l, b, o);
    if k in l.budgets {
      assert k in Released(l, b, o).budgets;
    } else {
      UnheldBudget(l, k);
    }
  }

  /** A reservation succeeds exactly when every SKU has room beside what the other orders hold, whatever the order
      held before. */
  lemma {:induction false} ReserveSucceedsExactlyWhen(l: Ledger, b: string, o: string, w: string,
                                                      wants: map<string, Want>)
    requires Conserved(l)
    ensures Reserved(l, b, o, w, wants).0 <==> forall sku | sku in wants :: HasRoom(l, b, o, w, sku, wants[sku])
  {
    forall sku | sku in wants
      ensures SkuFits(Released(l, b, o).budgets, b, w, sku, wants[sku]) <==> HasRoom(l, b, o, w, sku, wants[sku])
    {
      ReleasedRoom(l, b, o, w, sku, wants[sku]);
    }
    if HoldsOf(l, b, o) == WantedHolds(w, wants) { ShortcutIsRebooking(l, b, o, w, wants); }
  }

  /** A success records the capacity of every SKU it asks for. */
  lemma {:induction false} ReserveRecords(l: Ledger, b: string, o: string, w: string, wants: map<string, Want>,
                                          sku: string)
    requires Conserved(l) && sku in wants && Reserved(l, b, o, w, wants).0
    ensures var (r, k) := (Reserved(l, b, o, w, wants).1, (b, w, sku));
            k in r.budgets && r.budgets[k].capacity == Capacity(l, k, wants[sku].available)
  {
    var k := (b, w, sku);
    if HoldsOf(l, b, o) == WantedHolds(w, wants) {
      SameRows(l, b, o, w, wants);
      assert (b, o, sku) in l.holds && (b, w, sku) in l.budgets;
    } else {
      BookedBudgetAt(Released(l, b, o).budgets, b, w, wants, k);
      assert k in Released(l, b, o).budgets <==> k in l.budgets;
    }
  }

  /** A release leaves the order without rows. */
  lemma {:induction false} ReleaseForgets(l: Ledger, b: string, o: string)
    ensures HoldsOf(Released(l, b, o), b, o) == map[]
  {
  }

  // ---- a whole reservation ----

  /** The order has a running item in this running substitution batch. */
  ghost predicate IsServed(batches: Batches, id: string, order: string) {
    && id in batches && batches[id].status == BatchRunning && batches[id].mode == Substitution
    && exists i | 0 <= i < |batches[id].items| :: OrderAt(batches[id].items, i) == order && batches[id].items[i].status == Running
  }

  /** Every answer of a reservation has its reason, and only a booked one changes anything: then the order's rows are
      the pieces asked for, in the warehouse asked for. */
  lemma {:induction false} ReservationMeans(s: State, id: string, order: string, warehouse: string, raw: seq<RawItem>)
    requires Conserved(s.ledger)
    ensures var (outcome, r) := ReserveEvent(s, id, order, warehouse, raw);
            var (o, w) := (Text.Trim(order), Text.Upper(Text.Trim(warehouse)));
            var good := o != "" && w != "" && raw != [] && GoodItems(raw);
            var room := forall i | 0 <= i < |raw| ::
                          HasRoom(s.ledger, id, o, w, Text.Trim(raw[i].sku), Want(Pieces(raw, Text.Trim(raw[i].sku)), raw[i].available));
            && outcome == (if !good then Invalid else if !IsServed(s.batches, id, o) then NoBatch else if room then Outcome.Booked else Short)
            && r.batches == s.batches && (outcome != Outcome.Booked ==> r == s)
            && (outcome == Outcome.Booked ==> forall sku ::
                 if Occurs(raw, sku) then (id, o, sku) in r.ledger.holds && r.ledger.holds[(id, o, sku)] == Hold(w, Pieces(raw, sku))
                 else (id, o, sku) !in r.ledger.holds)
  {
    var (o, w) := (Text.Trim(order), Text.Upper(Text.Trim(warehouse)));
    NormalizedExactlyWhen(raw);
    if Request(order, warehouse, raw).Some? {
      var wants := Normalized(raw).value;
      assert Serves(s.batches, id, o) <==> IsServed(s.batches, id, o) by { ServesMeans(s.batches, id, o); }
      if Serves(s.batches, id, o) {
        WantsMean(s.ledger, id, o, w, raw, wants);
        ReserveSucceedsExactlyWhen(s.ledger, id, o, w, wants);
        ReserveConserves(s.ledger, id, o, w, wants);
        if Reserved(s.ledger, id, o, w, wants).0 { RowsMean(Reserved(s.ledger, id, o, w, wants).1, id, o, w, raw, wants); }
      }
    }
  }

  /** A release in a batch that does not run, or in which the order holds nothing, changes nothing; otherwise it leaves
      the order without rows there and gives the stock back. */
  lemma {:induction false} ReleaseMeans(s: State, id: string, order: string)
    ensures var (o, r) := (Text.Trim(order), ReleasedIn(s, id, Text.Trim(order)));
            if o == "" || id !in s.batches || s.batches[id].status != BatchRunning || HoldsOf(s.ledger, id, o) == map[] then r == s
            else r == s.(ledger := Released(s.ledger, id, o)) && HoldsOf(r.ledger, id, o) == map[]
  {
    var o := Text.Trim(order);
    ReleaseForgets(s.ledger, id, o);
    if h :| h in s.ledger.holds && h.0 == id && h.1 == o { assert h.2 in HoldsOf(s.ledger, id, o); }
    if sku :| sku in HoldsOf(s.ledger, id, o) { assert (id, o, sku) in s.ledger.holds; }
  }

  lemma {:induction false} ServesMeans(batches: Batches, id: string, o: string)
    ensures Serves(batches, id, o) <==> IsServed(batches, id, o)
  {
    if Serves(batches, id, o) {
      var i :| 0 <= i < |batches[id].items| && batches[id].items[i].order == o && batches[id].items[i].status == Running;
      assert OrderAt(batches[id].items, i) == o;
    }
  }

  lemma {:induction false} WantsMean(l: Ledger, b: string, o: string, w: string, raw: seq<RawItem>,
                                     wants: map<string, Want>)
    requires SumsUp(raw, wants)
    ensures (forall sku | sku in wants :: HasRoom(l, b, o, w, sku, wants[sku])) <==>
            (forall i | 0 <= i < |raw| :: HasRoom(l, b, o, w, Text.Trim(raw[i].sku), Want(Pieces(raw, Text.Trim(raw[i].sku)), raw[i].available)))
  {
    forall i | 0 <= i < |raw|
      ensures var sku := Text.Trim(raw[i].sku); sku in wants && wants[sku] == Want(Pieces(raw, sku), raw[i].available)
    {
    }
  }

  lemma {:induction false} RowsMean(l: Ledger, b: string, o: string, w: string, raw: seq<RawItem>,
                                    wants: map<string, Want>)
    requires SumsUp(raw, wants) && HoldsOf(l, b, o) == WantedHolds(w, wants)
    ensures forall sku ::
              if Occurs(raw, sku) then (b, o, sku) in l.holds && l.holds[(b, o, sku)] == Hold(w, Pieces(raw, sku))
              else (b, o, sku) !in l.holds
  {
    SameRows(l, b, o, w, wants);
    forall sku | (b, o, sku) in l.holds ensures sku in wants { assert (b, o, sku).2 in wants; }
  }
}
