/** Bulk fulfillment batches: the item state machine and the statements that drive it
    (internal/store/bulk_fulfillment.go, internal/service/service.go `ProcessBulkFulfillment`). */
module BulkBatches {

  datatype Mode = Direct | Substitution
  datatype ItemStatus = Pending | Running | Succeeded | Failed
  datatype BatchStatus = BatchRunning | BatchStopped | BatchCompleted

  datatype Item = Item(order: string, status: ItemStatus, lastError: string)

  /** `items` is in sequence order; `succeeded` and `failed` are the stored counters. */
  datatype Batch = Batch(mode: Mode, status: BatchStatus, items: seq<Item>, total: nat, succeeded: nat, failed: nat,
                         failedOrder: string, lastError: string, createdAt: int)

  type Batches = map<string, Batch>

  function Count(items: seq<Item>, status: ItemStatus): nat {
    if items == [] then 0
    else Count(items[..|items| - 1], status) + (if items[|items| - 1].status == status then 1 else 0)
  }

  function Remaining(items: seq<Item>): nat {
    Count(items, Pending) + Count(items, Running)
  }

  /** `UPDATE items SET status, last_error WHERE parent_order_sn = order AND status IN from` */
  function Stamped(items: seq<Item>, order: string, from: set<ItemStatus>, to: ItemStatus, message: string): (r: seq<Item>)
    ensures |r| == |items|
  {
    if items == [] then []
    else
      var n := |items| - 1;
      Stamped(items[..n], order, from, to, message) +
      [if items[n].order == order && items[n].status in from then Item(order, to, message) else items[n]]
  }

  /** `UPDATE items SET status = 'pending' WHERE status IN ('running', 'failed')` */
  function Reopened(items: seq<Item>): (r: seq<Item>)
    ensures |r| == |items|
  {
    if items == [] then []
    else
      var n := |items| - 1;
      Reopened(items[..n]) +
      [if items[n].status == Running || items[n].status == Failed then Item(items[n].order, Pending, "") else items[n]]
  }

  function Marked(batch: Batch, order: string): Batch {
    batch.(items := Stamped(batch.items, order, {Pending}, Running, ""))
  }

  /** `FinishBulkFulfillmentItem`; the counters and the status are recomputed from the rows. */
  function Finished(batch: Batch, order: string, status: ItemStatus, message: string): Batch {
    var items := Stamped(batch.items, order, {Pending, Running}, status, message);
    batch.(items := items,
           status := if Remaining(items) > 0 then BatchRunning else BatchCompleted,
           succeeded := Count(items, Succeeded), failed := Count(items, Failed),
           failedOrder := if status == Failed then order else batch.failedOrder,
           lastError := if status == Failed then message else batch.lastError)
  }

  function Restarted(batch: Batch): Batch {
    var items := Reopened(batch.items);
    batch.(items := items, status := BatchRunning, succeeded := Count(items, Succeeded), failed := 0,
           failedOrder := "", lastError := "")
  }

  function NewItems(orders: seq<string>): (r: seq<Item>)
    ensures |r| == |orders|
  {
    if orders == [] then []
    else NewItems(orders[..|orders| - 1]) + [Item(orders[|orders| - 1], Pending, "")]
  }

  function NewBatch(mode: Mode, orders: seq<string>, now: int): Batch {
    Batch(mode, BatchRunning, NewItems(orders), |orders|, 0, 0, "", "", now)
  }

  // ---- invariants ----

  function OrderAt(items: seq<Item>, i: nat): string
    requires i < |items|
  {
    items[i].order
  }

  ghost predicate InBatch(batch: Batch, order: string) {
    exists i | 0 <= i < |batch.items| :: OrderAt(batch.items, i) == order
  }

  /** What every stored batch satisfies. */
  ghost predicate WellFormed(batch: Batch) {
    && batch.status != BatchStopped
    && (batch.status == BatchRunning <==> Remaining(batch.items) > 0)
    && batch.succeeded == Count(batch.items, Succeeded)
    && batch.failed == Count(batch.items, Failed)
    && batch.total == |batch.items|
    && (forall i, j | 0 <= i < j < |batch.items| :: OrderAt(batch.items, i) != OrderAt(batch.items, j))
  }

  /** Two running batches serve different modes and share no order. */
  ghost predicate Apart(a: Batch, b: Batch) {
    a.status == BatchRunning && b.status == BatchRunning ==>
      a.mode != b.mode && forall order | InBatch(a, order) :: !InBatch(b, order)
  }

  ghost predicate Sound(batches: Batches) {
    && (forall id | id in batches :: WellFormed(batches[id]))
    && (forall a, b | a in batches && b in batches && a != b :: Apart(batches[a], batches[b]))
  }

  /** At most `limit` items of the batch run at once. */
  ghost predicate Throttled(batch: Batch, limit: nat) {
    Count(batch.items, Running) <= limit
  }

  /** The items already taken up form a prefix of the sequence. */
  ghost predicate TakenInOrder(items: seq<Item>) {
    forall i, j | 0 <= i < j < |items| && items[j].status != Pending :: items[i].status != Pending
  }

  /** What still has to happen: two steps for a pending item, one for a running one. */
  function Work(batch: Batch): nat {
    2 * Count(batch.items, Pending) + Count(batch.items, Running)
  }

  // ---- single statements keep the batch well formed ----

  lemma {:induction false} StampedAt(items: seq<Item>, order: string, from: set<ItemStatus>, to: ItemStatus,
                                     message: string, i: nat)
    requires i < |items|
    ensures Stamped(items, order, from, to, message)[i] ==
            if items[i].order == order && items[i].status in from then Item(order, to, message) else items[i]
  {
    if i < |items| - 1 { StampedAt(items[..|items| - 1], order, from, to, message, i); }
  }

  lemma {:induction false} ReopenedAt(items: seq<Item>, i: nat)
    requires i < |items|
    ensures Reopened(items)[i] ==
            if items[i].status == Running || items[i].status == Failed then Item(items[i].order, Pending, "") else items[i]
  {
    if i < |items| - 1 { ReopenedAt(items[..|items| - 1], i); }
  }

  lemma {:induction false} NewItemAt(orders: seq<string>, i: nat)
    requires i < |orders|
    ensures NewItems(orders)[i] == Item(orders[i], Pending, "")
  {
    if i < |orders| - 1 { NewItemAt(orders[..|orders| - 1], i); }
  }

  lemma {:induction false} CountsAddUp(items: seq<Item>)
    ensures Count(items, Pending) + Count(items, Running) + Count(items, Succeeded) + Count(items, Failed) == |items|
  {
    if items != [] { CountsAddUp(items[..|items| - 1]); }
  }

  lemma {:induction false} ReopenedCounts(items: seq<Item>)
    ensures Count(Reopened(items), Running) == 0 && Count(Reopened(items), Failed) == 0
    ensures Count(Reopened(items), Succeeded) == Count(items, Succeeded)
    ensures Remaining(Reopened(items)) == Remaining(items) + Count(items, Failed)
  {
    if items != [] {
      var n := |items| - 1;
      ReopenedCounts(items[..n]);
      assert Reopened(items)[..n] == Reopened(items[..n]);
    }
  }

  lemma {:induction false} NewCounts(orders: seq<string>)
    ensures Count(NewItems(orders), Pending) == |orders| && Count(NewItems(orders), Running) == 0
    ensures Count(NewItems(orders), Succeeded) == 0 && Count(NewItems(orders), Failed) == 0
  {
    if orders != [] {
      var n := |orders| - 1;
      NewCounts(orders[..n]);
      assert NewItems(orders)[..n] == NewItems(orders[..n]);
    }
  }

  /** The rows the update touches leave `from` and enter `to`. */
  lemma {:induction false} StampedCounts(items: seq<Item>, order: string, from: set<ItemStatus>, to: ItemStatus,
                                         message: string)
    requires to !in from
    ensures var r := Stamped(items, order, from, to, message);
            && (forall s | s !in from && s != to :: Count(r, s) == Count(items, s))
            && (forall s | s in from :: Count(r, s) <= Count(items, s))
            && Count(r, to) >= Count(items, to)
  {
    if items != [] {
      var n := |items| - 1;
      StampedCounts(items[..n], order, from, to, message);
      assert Stamped(items, order, from, to, message)[..n] == Stamped(items[..n], order, from, to, message);
    }
  }

  /** `b` is `a` with other item statuses: same orders in the same places. */
  ghost predicate SameOrders(a: seq<Item>, b: seq<Item>) {
    |a| == |b| && forall i | 0 <= i < |a| :: OrderAt(b, i) == OrderAt(a, i)
  }

  lemma {:induction false} StampedSameOrders(items: seq<Item>, order: string, from: set<ItemStatus>, to: ItemStatus,
                                             message: string)
    ensures SameOrders(items, Stamped(items, order, from, to, message))
  {
    forall i | 0 <= i < |items| ensures OrderAt(Stamped(items, order, from, to, message), i) == OrderAt(items, i) {
      StampedAt(items, order, from, to, message, i);
    }
  }

  lemma {:induction false} ReopenedSameOrders(items: seq<Item>)
    ensures SameOrders(items, Reopened(items))
  {
    forall i | 0 <= i < |items| ensures OrderAt(Reopened(items), i) == OrderAt(items, i) {
      ReopenedAt(items, i);
    }
  }

  /** `b` continues `a`: same mode and orders, and it runs only if `a` did. */
  ghost predicate Continues(a: Batch, b: Batch) {
    && b.mode == a.mode && SameOrders(a.items, b.items)
    && (b.status == BatchRunning ==> a.status == BatchRunning)
  }

  lemma {:induction false} ApartIsSymmetric(a: Batch, b: Batch)
    requires Apart(a, b)
    ensures Apart(b, a)
  {
  }

  /** Replacing one batch by a well-formed continuation keeps the whole table sound. */
  lemma {:induction false} ReplacingIsSound(batches: Batches, id: string, batch: Batch)
    requires Sound(batches) && id in batches && WellFormed(batch) && Continues(batches[id], batch)
    ensures Sound(batches[id := batch])
  {
    forall b | b in batches && b != id ensures Apart(batch, batches[b]) && Apart(batches[b], batch) {
      ApartIsSymmetric(batch, batches[b]);
    }
  }

  lemma {:induction false} MarkIsWellFormed(batch: Batch, order: string)
    requires WellFormed(batch)
    ensures WellFormed(Marked(batch, order)) && Continues(batch, Marked(batch, order))
    ensures Work(Marked(batch, order)) <= Work(batch)
  {
    var items := Stamped(batch.items, order, {Pending}, Running, "");
    StampedSameOrders(batch.items, order, {Pending}, Running, "");
    StampedCounts(batch.items, order, {Pending}, Running, "");
    CountsAddUp(batch.items);
    CountsAddUp(items);
  }

  lemma {:induction false} FinishIsWellFormed(batch: Batch, order: string, status: ItemStatus, message: string)
    requires WellFormed(batch) && (status == Succeeded || status == Failed)
    ensures WellFormed(Finished(batch, order, status, message))
    ensures Continues(batch, Finished(batch, order, status, message))
    ensures Work(Finished(batch, order, status, message)) <= Work(batch)
  {
    var items := Stamped(batch.items, order, {Pending, Running}, status, message);
    StampedSameOrders(batch.items, order, {Pending, Running}, status, message);
    StampedCounts(batch.items, order, {Pending, Running}, status, message);
    CountsAddUp(batch.items);
    CountsAddUp(items);
  }

  lemma {:induction false} RestartIsWellFormed(batch: Batch)
    requires WellFormed(batch) && batch.status == BatchRunning
    ensures WellFormed(Restarted(batch)) && Continues(batch, Restarted(batch))
  {
    ReopenedCounts(batch.items);
    ReopenedSameOrders(batch.items);
  }

  lemma {:induction false} NewBatchIsWellFormed(mode: Mode, orders: seq<string>, now: int)
    requires orders != [] && forall i, j | 0 <= i < j < |orders| :: orders[i] != orders[j]
    ensures WellFormed(NewBatch(mode, orders, now))
    ensures forall order :: InBatch(NewBatch(mode, orders, now), order) <==> order in orders
  {
    var batch := NewBatch(mode, orders, now);
    NewCounts(orders);
    forall i | 0 <= i < |orders| ensures OrderAt(batch.items, i) == orders[i] { NewItemAt(orders, i); }
  }

  /** An effective update strictly reduces the work left. */
  lemma {:induction false} EffectiveStampReducesWork(items: seq<Item>, order: string, from: set<ItemStatus>,
                                                     to: ItemStatus,
                                                     message: string, i: nat)
    requires i < |items| && items[i].order == order && items[i].status in from
    requires (from == {Pending} && to == Running) || (from == {Pending, Running} && (to == Succeeded || to == Failed))
    ensures var r := Stamped(items, order, from, to, message);
            2 * Count(r, Pending) + Count(r, Running) < 2 * Count(items, Pending) + Count(items, Running)
  {
    var n := |items| - 1;
    var front := items[..n];
    var r := Stamped(items, order, from, to, message);
    assert r[..n] == Stamped(front, order, from, to, message);
    StampedAt(items, order, from, to, message, n);
    if i < n {
      EffectiveStampReducesWork(front, order, from, to, message, i);
    } else {
      StampNeverAddsWork(front, order, from, to, message);
    }
  }

  lemma {:induction false} StampNeverAddsWork(items: seq<Item>, order: string, from: set<ItemStatus>, to: ItemStatus,
                                              message: string)
    requires (from == {Pending} && to == Running) || (from == {Pending, Running} && (to == Succeeded || to == Failed))
    ensures var r := Stamped(items, order, from, to, message);
            2 * Count(r, Pending) + Count(r, Running) <= 2 * Count(items, Pending) + Count(items, Running)
  {
    if items != [] {
      var n := |items| - 1;
      StampNeverAddsWork(items[..n], order, from, to, message);
      assert Stamped(items, order, from, to, message)[..n] == Stamped(items[..n], order, from, to, message);
    }
  }
}
