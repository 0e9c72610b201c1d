/** The bulk tables and their transactions as code (internal/store/bulk_fulfillment.go), and the worker
    pass over them (internal/service/service.go `ProcessBulkFulfillment`). */
module BulkStore {
  import opened BulkBatches
  import opened BulkSteps
  import opened Jobs
  import opened BulkRuns
  import opened InventoryLedger
  import opened LedgerConservation
  import opened ReservationItems
  import Text

  /** The capacity checks of a reservation; `open` is the budget table inside the transaction. */
  method CheckCapacity(start: map<BudgetKey, Budget>, b: string, w: string, skus: seq<string>, wants: map<string, Want>)
    returns (ok: bool, open: map<BudgetKey, Budget>)
    requires Lists(skus, wants.Keys)
    ensures ok <==> Fits(start, b, w, wants)
    ensures ok ==> open == OpenAll(start, b, w, skus, wants)
  {
    open := start;
    for i := 0 to |skus|
      invariant forall sku | sku in skus[..i] :: sku in wants
      invariant open == OpenAll(start, b, w, skus[..i], wants)
      invariant forall j | 0 <= j < i :: SkuFits(start, b, w, skus[j], wants[skus[j]])
    {
      assert skus[i] in wants.Keys;
      OneMoreOpen(start, b, w, skus, wants, i);
      open := Opened(open, (b, w, skus[i]), wants[skus[i]].available);
      var budget := open[(b, w, skus[i])];
      if !Allows(budget.capacity, budget.reserved, wants[skus[i]].quantity) {
        assert !SkuFits(start, b, w, skus[i], wants[skus[i]]);
        return false, open;
      }
    }
    assert skus[..|skus|] == skus;
    AllFit(start, b, w, skus, wants);
    return true, open;
  }

  method Book(open: map<BudgetKey, Budget>, held: map<HoldKey, Hold>, b: string, o: string, w: string, skus: seq<string>, wants: map<string, Want>)
    returns (booked: map<BudgetKey, Budget>, rows: map<HoldKey, Hold>)
    requires Lists(skus, wants.Keys)
    ensures booked == BookAll(open, b, w, skus, wants) && rows == InsertAll(held, b, o, w, skus, wants)
  {
    booked, rows := open, held;
    for i := 0 to |skus|
      invariant forall sku | sku in skus[..i] :: sku in wants
      invariant booked == BookAll(open, b, w, skus[..i], wants) && rows == InsertAll(held, b, o, w, skus[..i], wants)
    {
      assert skus[i] in wants.Keys;
      assert skus[..i + 1][..i] == skus[..i];
      booked := AddedTo(booked, (b, w, skus[i]), wants[skus[i]].quantity);
      rows := rows[(b, o, skus[i]) := Hold(w, wants[skus[i]].quantity)];
    }
    assert skus[..|skus|] == skus;
  }

  method Rebook(released: Ledger, b: string, o: string, w: string, skus: seq<string>, wants: map<string, Want>)
    returns (ok: bool, r: Ledger)
    requires Lists(skus, wants.Keys)
    ensures ok == Fits(released.budgets, b, w, wants) && (ok ==> r == InventoryLedger.Booked(released, b, o, w, wants))
  {
    r := released;
    var open;
    ok, open := CheckCapacity(released.budgets, b, w, skus, wants);
    if ok {
      var booked, rows := Book(open, released.holds, b, o, w, skus, wants);
      BookingListIsBooking(released.budgets, b, w, skus, wants);
      InsertingListIsBooking(released.holds, b, o, w, skus, wants);
      r := Ledger(booked, rows);
    }
  }

  /** `rows` are the SKUs the order holds, as the query lists them; on a conserved ledger their order does not matter. */
  method Transact(l: Ledger, b: string, o: string, w: string, rows: seq<string>, skus: seq<string>, wants: map<string, Want>)
    returns (ok: bool, r: Ledger)
    requires Enumerates(rows, HoldsOf(l, b, o).Keys) && Lists(skus, wants.Keys)
    ensures Lists(rows, HoldsOf(l, b, o).Keys) || Conserved(l) ==> (ok, r) == Reserved(l, b, o, w, wants)
  {
    var existing := HoldsOf(l, b, o);
    var same := SameReservation(rows, existing, w, skus, wants);
    if same {
      return true, l;
    }
    if existing == WantedHolds(w, wants) && Conserved(l) { ShortcutIsRebooking(l, b, o, w, wants); }
    ok, r := Rebook(Released(l, b, o), b, o, w, skus, wants);
    if !ok {
      r := l;
    }
  }

  /** The invariant of all runs survives the step from `s` to `r`. */
  ghost predicate Survives(s: State, r: State) {
    Invariant(s) ==> Invariant(r)
  }

  lemma {:induction false} EventSurvives(s: State, r: State, e: Event)
    requires Possible(e) && r == Next(s, e)
    ensures Survives(s, r)
  {
    if Invariant(s) { EventKeepsInvariant(s, e); }
  }

  lemma {:induction false} EventIsKept(s: State, e: Event)
    requires Possible(e)
    ensures Survives(s, Next(s, e))
  {
    EventSurvives(s, Next(s, e), e);
  }

  lemma {:induction false} NextIs(s: State)
    ensures forall id, order, warehouse, raw :: Next(s, Reserve(id, order, warehouse, raw)) == ReserveEvent(s, id, order, warehouse, raw).1
    ensures forall id, order :: Next(s, Release(id, order)) == ReleasedIn(s, id, Text.Trim(order))
  {
  }

  lemma {:induction false} ReserveSurvives(s: State, r: State, id: string, order: string, warehouse: string,
                                           raw: seq<RawItem>)
    requires r == ReserveEvent(s, id, order, warehouse, raw).1
    ensures Survives(s, r)
  {
    NextIs(s);
    EventSurvives(s, r, Reserve(id, order, warehouse, raw));
  }

  lemma {:induction false} ReleaseSurvives(s: State, r: State, id: string, order: string)
    requires r == ReleasedIn(s, id, Text.Trim(order))
    ensures Survives(s, r)
  {
    NextIs(s);
    EventSurvives(s, r, Release(id, order));
  }

  lemma {:induction false} PassSurvives(s: State, r: State, concurrency: int, world: World, first: string,
                                        second: string)
    requires r == s.(batches := Processed(s.batches, concurrency, world, first, second).1)
    ensures Survives(s, r)
  {
    EventSurvives(s, r, Pass(if concurrency < 1 then 1 else concurrency, world, first, second));
  }

  class Store {
    var batches: Batches
    var budgets: map<BudgetKey, Budget>
    var holds: map<HoldKey, Hold>

    function State(): State
      reads this
    {
      BulkRuns.State(batches, Ledger(budgets, holds))
    }

    constructor ()
      ensures State() == EMPTY && Invariant(EMPTY)
    {
      batches, budgets, holds := map[], map[], map[];
    }

    method MarkBulkFulfillmentItemRunning(id: string, order: string) returns (ok: bool)
      modifies this`batches
      ensures ok == (id in old(batches) && HasStatus(old(batches)[id], order, Pending))
      ensures batches == MarkedIn(old(batches), id, order)
      ensures Survives(old(State()), State())
    {
      EventIsKept(State(), Mark(id, order));
      ok := id in batches && HasStatus(batches[id], order, Pending);
      if ok {
        batches := batches[id := Marked(batches[id], order)];
      }
    }

    method FinishBulkFulfillmentItem(id: string, order: string, status: ItemStatus, message: string) returns (ok: bool)
      modifies this`batches
      ensures ok == (id in old(batches) && (status == Succeeded || status == Failed))
      ensures batches == FinishedIn(old(batches), id, order, status, message)
      ensures Survives(old(State()), State())
    {
      EventIsKept(State(), Finish(id, order, status, message));
      if status != Succeeded && status != Failed {
        return false;
      }
      if id !in batches {
        return false;
      }
      var batch := batches[id];
      var failedOrder, lastError := batch.failedOrder, batch.lastError;
      var items := Stamped(batch.items, order, {Pending, Running}, status, message);
      var succeeded, failed, remaining := Count(items, Succeeded), Count(items, Failed), Remaining(items);
      if status == Failed {
        failedOrder, lastError := order, message;
      }
      batches := batches[id := batch.(items := items, status := if remaining > 0 then BatchRunning else BatchCompleted,
                                      succeeded := succeeded, failed := failed,
                                      failedOrder := failedOrder, lastError := lastError)];
      ok := true;
    }

    /** The orders the query returns, after its "not in a running batch" condition. */
    method FreeOrders(orders: seq<string>) returns (parents: seq<string>)
      ensures parents == Free(batches, orders)
    {
      parents := [];
      for i := 0 to |orders|
        invariant parents == Free(batches, orders[..i])
      {
        assert orders[..i + 1][..i] == orders[..i];
        if !Busy(batches, orders[i]) {
          parents := parents + [orders[i]];
        }
      }
      assert orders[..|orders|] == orders;
    }

    method CreateBulkFulfillmentBatch(mode: Mode, id: string, orders: seq<string>, enabled: bool, now: int) returns (r: CreateResult)
      modifies this`batches
      ensures (r, batches) == Created(old(batches), mode, id, orders, enabled, now)
      ensures Distinct(orders) ==> Survives(old(State()), State())
    {
      if Distinct(orders) { EventIsKept(State(), Create(mode, id, orders, enabled, now)); }
      if ModeBusy(batches, mode) {
        return Existing;
      }
      if mode == Substitution && !enabled {
        return Refused;
      }
      var parents := FreeOrders(orders);
      if |parents| == 0 || id in batches {
        return Refused;
      }
      var items: seq<Item> := [];
      for i := 0 to |parents|
        invariant items == NewItems(parents[..i])
      {
        assert parents[..i + 1][..i] == parents[..i];
        items := items + [Item(parents[i], Pending, "")];
      }
      assert parents[..|parents|] == parents;
      batches := batches[id := Batch(mode, BatchRunning, items, |parents|, 0, 0, "", "", now)];
      return New;
    }

    method RestartBulkFulfillmentBatch(mode: Mode) returns (ok: bool, ghost id: string)
      modifies this`batches
      ensures ok <==> exists b | b in old(batches) :: Restartable(old(batches), mode, b)
      ensures ok ==> Restartable(old(batches), mode, id)
      ensures batches == if ok then RestartedIn(old(batches), mode, id) else old(batches)
      ensures Survives(old(State()), State())
    {
      if exists b | b in batches :: Restartable(batches, mode, b) {
        var b :| b in batches && Restartable(batches, mode, b);
        batches := batches[b := Restarted(batches[b])];
        EventSurvives(old(State()), State(), Restart(mode, b));
        return true, b;
      }
      return false, "";
    }

    /** The transaction inside batch `b`; nothing is written before the final commit. */
    method ReserveInBatch(b: string, o: string, w: string, skus: seq<string>, wants: map<string, Want>) returns (ok: bool)
      requires Lists(skus, wants.Keys)
      modifies this`budgets, this`holds
      ensures (ok, Ledger(budgets, holds)) == Reserved(old(Ledger(budgets, holds)), b, o, w, wants)
    {
      var ledger := Ledger(budgets, holds);
      var rows := SortedKeys(HoldsOf(ledger, b, o).Keys);
      ListsEnumerate(rows, HoldsOf(ledger, b, o).Keys);
      ok, ledger := Transact(ledger, b, o, w, rows, skus, wants);
      budgets, holds := ledger.budgets, ledger.holds;
    }

    method FindServing(o: string) returns (found: bool, id: string)
      ensures found ==> Serves(batches, id, o)
      ensures !found ==> id == "" && forall b :: !Serves(batches, b, o)
    {
      if exists b | b in batches :: Serves(batches, b, o) {
        id :| id in batches && Serves(batches, id, o);
        return true, id;
      }
      return false, "";
    }

    method FindHolding(o: string) returns (found: bool, id: string)
      ensures found ==> HoldsIn(State(), id, o)
      ensures !found ==> id == "" && forall b :: !HoldsIn(State(), b, o)
    {
      if exists b | b in batches :: HoldsIn(State(), b, o) {
        id :| id in batches && HoldsIn(State(), id, o);
        return true, id;
      }
      return false, "";
    }

    /** The batch is unique, see `BulkRuns.PicksAreUnique`. */
    method ReserveBulkSubstitutionInventory(order: string, warehouse: string, raw: seq<RawItem>) returns (r: Outcome, id: string)
      modifies this`budgets, this`holds
      ensures (r, State()) == ReserveEvent(old(State()), id, order, warehouse, raw)
      ensures r == NoBatch ==> forall b :: !Serves(batches, b, Text.Trim(order))
      ensures Survives(old(State()), State())
    {
      var o, w := Text.Trim(order), Text.Upper(Text.Trim(warehouse));
      var ok, skus, wants := Normalize(raw);
      if !ok || o == "" || w == "" {
        return Invalid, "";
      }
      var found, b := FindServing(o);
      if !found {
        return NoBatch, b;
      }
      var booked := ReserveInBatch(b, o, w, skus, wants);
      ReserveSurvives(old(State()), State(), b, order, warehouse, raw);
      return if booked then Booked else Short, b;
    }

    method ReleaseBulkSubstitutionInventory(order: string) returns (ok: bool, id: string)
      modifies this`budgets, this`holds
      ensures State() == ReleasedIn(old(State()), id, Text.Trim(order))
      ensures ok ==> HoldsIn(old(State()), id, Text.Trim(order))
      ensures !ok ==> Text.Trim(order) == "" || forall b :: !HoldsIn(State(), b, Text.Trim(order))
      ensures Survives(old(State()), State())
    {
      var o := Text.Trim(order);
      if o == "" {
        return false, "";
      }
      ok, id := FindHolding(o);
      if ok {
        var released := Released(Ledger(budgets, holds), id, o);
        budgets, holds := released.budgets, released.holds;
        ReleaseSurvives(old(State()), State(), id, order);
      }
    }

    // ---- the worker pass ----

    /** `RunningBulkFulfillmentItems`: any batch the query may pick, with its next items. */
    method RunningBulkFulfillmentItems(limit: nat) returns (found: bool, id: string, items: seq<Item>)
      ensures found ==> MayServe(batches, id) && items == Selected(batches[id].items, limit)
      ensures found <==> AnyRunning(batches)
      ensures !found ==> id == "" && forall b :: !MayServe(batches, b)
    {
      if exists b | b in batches :: MayServe(batches, b) {
        id :| id in batches && MayServe(batches, id);
        return true, id, Selected(batches[id].items, limit);
      }
      return false, "", [];
    }

    /** The closure `stop`: the item fails with the error. */
    method StopAt(id: string, order: string, error: string)
      requires id in batches
      modifies this`batches
      ensures batches == old(batches)[id := Acted(old(batches)[id], order, Stop(error))]
    {
      assert FinishedIn(batches, id, order, Failed, error) == batches[id := Acted(batches[id], order, Stop(error))];
      var _ := FinishBulkFulfillmentItem(id, order, Failed, error);
    }

    /** One iteration of the loop over the running items. */
    method CheckRunning(id: string, item: Item, world: World) returns (stopped: bool, completed: bool)
      requires id in batches
      modifies this`batches
      ensures var verdict := VerdictOn(old(batches)[id].mode, world, item, Running);
              && stopped == Halts(old(batches)[id], item.order, verdict) && completed == (!stopped && verdict != Leave)
              && batches == old(batches)[id := Acted(old(batches)[id], item.order, verdict)]
    {
      if item.status != Running {
        return false, false;
      }
      match world.job(item.order) {
        case NoJob(error) =>
          StopAt(id, item.order, error);
          return true, false;
        case Job(status, lastError) =>
          if status == WaitingOms || status == JobCompleted || status == Skipped {
            var _ := FinishBulkFulfillmentItem(id, item.order, Succeeded, "");
            return false, true;
          }
          if status != JobFailed {
            return false, false;
          }
          var order := world.order(item.order);
          if batches[id].mode == Direct && order.Order? && order.manual {
            var _ := FinishBulkFulfillmentItem(id, item.order, Succeeded, MANUAL_SKIP);
            return false, true;
          }
          if order.NoOrder? {
            StopAt(id, item.order, order.error);
            return true, false;
          }
          var message := Text.Trim(lastError);
          if message == "" {
            message := JOB_FAILED;
          }
          StopAt(id, item.order, message);
          return true, false;
      }
    }

    /** One iteration of the loop over the pending items. */
    method StartPending(id: string, item: Item, world: World) returns (stopped: bool, processed: bool)
      requires id in batches
      modifies this`batches
      ensures var verdict := VerdictOn(old(batches)[id].mode, world, item, Pending);
              && stopped == Halts(old(batches)[id], item.order, verdict) && processed == (!stopped && verdict != Leave)
              && batches == old(batches)[id := Acted(old(batches)[id], item.order, verdict)]
    {
      if item.status != Pending {
        return false, false;
      }
      var order := world.order(item.order);
      if order.NoOrder? {
        StopAt(id, item.order, order.error);
        return true, false;
      }
      if batches[id].mode == Direct && order.manual {
        var _ := FinishBulkFulfillmentItem(id, item.order, Succeeded, MANUAL_SKIP);
        return false, true;
      }
      match world.enqueue(item.order) {
        case NoLongerAwaiting =>
          var _ := FinishBulkFulfillmentItem(id, item.order, Succeeded, GONE_SKIP);
          return false, true;
        case NotEnqueued(error) =>
          StopAt(id, item.order, error);
          return true, false;
        case Enqueued =>
      }
      var marked := MarkBulkFulfillmentItemRunning(id, item.order);
      if !marked {
        StopAt(id, item.order, NO_ROWS);
        return true, false;
      }
      return false, true;
    }

    /** The two loops of the pass; they differ in the step they take for each item. */
    method Sweep(id: string, items: seq<Item>, status: ItemStatus, world: World) returns (stopped: bool, acted: bool)
      requires id in batches && (status == Running || status == Pending)
      modifies this`batches
      ensures var sweep := Swept(old(batches)[id], items, status, world);
              stopped == sweep.stopped && sweep.acted == (stopped || acted) && batches == old(batches)[id := sweep.batch]
    {
      stopped, acted := false, false;
      for i := 0 to |items|
        invariant !stopped && id in batches && batches == old(batches)[id := batches[id]]
        invariant SameSweep(Swept(old(batches)[id], items, status, world), Swept(batches[id], items[i..], status, world), acted)
      {
        var did: bool;
        if status == Running {
          stopped, did := CheckRunning(id, items[i], world);
        } else {
          stopped, did := StartPending(id, items[i], world);
        }
        if stopped {
          return;
        }
        assert items[i..][1..] == items[i + 1..];
        acted := acted || did;
      }
    }

    method ProcessBulkFulfillment(concurrency: int, world: World) returns (worked: bool, first: string, second: string)
      modifies this`batches
      ensures (worked, batches) == Processed(old(batches), concurrency, world, first, second)
      ensures Survives(old(State()), State())
    {
      second := "";
      var limit: nat := if concurrency < 1 then 1 else concurrency;
      var found, id, items := RunningBulkFulfillmentItems(limit);
      first := id;
      if !found {
        return false, id, "";
      }
      var stopped, completed := Sweep(id, items, Running, world);
      if stopped {
        PassSurvives(old(State()), State(), concurrency, world, first, "");
        return true, first, "";
      }
      if completed {
        found, id, items := RunningBulkFulfillmentItems(limit);
        second := id;
        if !found {
          PassSurvives(old(State()), State(), concurrency, world, first, second);
          return true, first, second;
        }
      }
      var processed;
      stopped, processed := Sweep(id, items, Pending, world);
      worked := stopped || processed || completed;
      PassSurvives(old(State()), State(), concurrency, world, first, second);
    }
  }

  /** What is left of a sweep after some items, `acted` telling whether those did anything. */
  ghost predicate SameSweep(whole: BulkSteps.Sweep, rest: BulkSteps.Sweep, acted: bool) {
    whole.batch == rest.batch && whole.stopped == rest.stopped && whole.acted == (rest.acted || acted)
  }

  lemma {:induction false} OneMoreOpen(start: map<BudgetKey, Budget>, b: string, w: string, skus: seq<string>,
                                       wants: map<string, Want>, i: nat)
    requires i < |skus| && Lists(skus, wants.Keys)
    ensures forall sku | sku in skus[..i + 1] :: sku in wants
    ensures var before := OpenAll(start, b, w, skus[..i], wants);
            var k := (b, w, skus[i]);
            && OpenAll(start, b, w, skus[..i + 1], wants) == Opened(before, k, wants[skus[i]].available)
            && Opened(before, k, wants[skus[i]].available)[k] == BudgetOf(start, k, wants[skus[i]].available)
  {
    assert skus[..i + 1][..i] == skus[..i];
    LastIsNew(skus[..i + 1]);
    OpenAllAt(start, b, w, skus[..i], wants, (b, w, skus[i]));
  }

  lemma {:induction false} AllFit(start: map<BudgetKey, Budget>, b: string, w: string, skus: seq<string>,
                                  wants: map<string, Want>)
    requires Lists(skus, wants.Keys) && forall j | 0 <= j < |skus| :: SkuFits(start, b, w, skus[j], wants[skus[j]])
    ensures Fits(start, b, w, wants)
  {
    forall sku | sku in wants ensures SkuFits(start, b, w, sku, wants[sku]) {
      assert sku in wants.Keys && sku in skus;
      var j :| 0 <= j < |skus| && skus[j] == sku;
    }
  }
}
