/** One pass of the bulk worker (internal/service/service.go `ProcessBulkFulfillment`) and the other
    transactions on the batch table, as functions of the stored batches and of the answers of the
    order, job and enqueue calls. */
module BulkSteps {
  import opened BulkBatches
  import opened Jobs
  import Text

  const MANUAL_SKIP := "订单已转入人工处理，自动批次已跳过"
  const GONE_SKIP := "平台订单已不再待发货，批次已跳过"
  const JOB_FAILED := "自动发货任务失败"
  const NO_ROWS := "no rows in result set"

  datatype JobAnswer = NoJob(error: string) | Job(status: JobStatus, lastError: string)
  datatype OrderAnswer = NoOrder(error: string) | Order(manual: bool)
  datatype EnqueueAnswer = Enqueued | NoLongerAwaiting | NotEnqueued(error: string)

  /** What the rest of the system answers about each order during one pass. */
  datatype World = World(job: string -> JobAnswer, order: string -> OrderAnswer, enqueue: string -> EnqueueAnswer)

  /** What the pass does with one item. */
  datatype Verdict = Leave | Done(message: string) | Start | Stop(error: string)

  function RunningVerdict(mode: Mode, world: World, order: string): Verdict {
    match world.job(order)
    case NoJob(error) => Stop(error)
    case Job(status, lastError) =>
      if status in {WaitingOms, JobCompleted, Skipped} then Done("")
      else if status != JobFailed then Leave
      else
        match world.order(order)
        case NoOrder(error) => Stop(error)
        case Order(manual) =>
          if mode == Direct && manual then Done(MANUAL_SKIP)
          else if Text.Trim(lastError) == "" then Stop(JOB_FAILED)
          else Stop(Text.Trim(lastError))
  }

  function PendingVerdict(mode: Mode, world: World, order: string): Verdict {
    match world.order(order)
    case NoOrder(error) => Stop(error)
    case Order(manual) =>
      if mode == Direct && manual then Done(MANUAL_SKIP)
      else
        match world.enqueue(order)
        case NoLongerAwaiting => Done(GONE_SKIP)
        case NotEnqueued(error) => Stop(error)
        case Enqueued => Start
  }

  predicate HasStatus(batch: Batch, order: string, status: ItemStatus) {
    exists i | 0 <= i < |batch.items| :: batch.items[i].order == order && batch.items[i].status == status
  }

  /** `MarkBulkFulfillmentItemRunning` fails when the row is no longer pending; the item then fails. */
  function Acted(batch: Batch, order: string, verdict: Verdict): Batch {
    match verdict
    case Leave => batch
    case Done(message) => Finished(batch, order, Succeeded, message)
    case Start => if HasStatus(batch, order, Pending) then Marked(batch, order) else Finished(batch, order, Failed, NO_ROWS)
    case Stop(error) => Finished(batch, order, Failed, error)
  }

  predicate Halts(batch: Batch, order: string, verdict: Verdict) {
    verdict.Stop? || (verdict.Start? && !HasStatus(batch, order, Pending))
  }

  /** The state after a sweep over some items: how far it got, and whether it did anything. */
  datatype Sweep = Sweep(batch: Batch, stopped: bool, acted: bool)

  /** The verdict on one listed item; a sweep looks only at items listed with `status`. */
  function VerdictOn(mode: Mode, world: World, item: Item, status: ItemStatus): Verdict {
    if item.status != status then Leave
    else if status == Running then RunningVerdict(mode, world, item.order)
    else PendingVerdict(mode, world, item.order)
  }

  function Swept(batch: Batch, items: seq<Item>, status: ItemStatus, world: World): Sweep
    decreases |items|
  {
    if items == [] then Sweep(batch, false, false)
    else
      var verdict := VerdictOn(batch.mode, world, items[0], status);
      var next := Acted(batch, items[0].order, verdict);
      if Halts(batch, items[0].order, verdict) then Sweep(next, true, true)
      else
        var rest := Swept(next, items[1..], status, world);
        Sweep(rest.batch, rest.stopped, rest.acted || verdict != Leave)
  }

  // ---- which batch and which items ----

  function FirstWith(items: seq<Item>, status: ItemStatus, limit: nat): (r: seq<Item>)
    ensures |r| <= limit
  {
    if items == [] || limit == 0 then []
    else if items[0].status == status then [items[0]] + FirstWith(items[1..], status, limit - 1)
    else FirstWith(items[1..], status, limit)
  }

  /** `RunningBulkFulfillmentItems`: the running items first, then pending ones, in sequence order. */
  function Selected(items: seq<Item>, limit: nat): seq<Item> {
    var running := FirstWith(items, Running, limit);
    running + FirstWith(items, Pending, limit - |running|)
  }

  predicate IsRunning(batches: Batches, id: string) {
    id in batches && batches[id].status == BatchRunning
  }

  /** Batch `id` may be served: it runs, and has a pending item if any running batch has one. */
  predicate MayServe(batches: Batches, id: string) {
    && IsRunning(batches, id)
    && ((exists b | b in batches :: IsRunning(batches, b) && Count(batches[b].items, Pending) > 0) ==>
         Count(batches[id].items, Pending) > 0)
  }

  predicate AnyRunning(batches: Batches) {
    exists b | b in batches :: IsRunning(batches, b)
  }

  /** Second half of a pass: start pending items of batch `id`. */
  function Started(batches: Batches, id: string, items: seq<Item>, world: World, acted: bool): (bool, Batches)
    requires id in batches
  {
    var sweep := Swept(batches[id], items, Pending, world);
    (acted || sweep.acted, batches[id := sweep.batch])
  }

  /** One pass with concurrency `limit`, serving batch `first` and, once items completed, batch `second`. */
  function Processed(batches: Batches, limit: int, world: World, first: string, second: string): (bool, Batches) {
    var n: nat := if limit < 1 then 1 else limit;
    if !MayServe(batches, first) then (false, batches)
    else
      var items := Selected(batches[first].items, n);
      var sweep := Swept(batches[first], items, Running, world);
      var next := batches[first := sweep.batch];
      if sweep.stopped then (true, next)
      else if !sweep.acted then Started(next, first, items, world, false)
      else if !MayServe(next, second) then (true, next)
      else Started(next, second, Selected(next[second].items, n), world, true)
  }

  // ---- creating and restarting ----

  predicate Busy(batches: Batches, order: string) {
    exists b | b in batches :: IsRunning(batches, b) && exists i | 0 <= i < |batches[b].items| :: OrderAt(batches[b].items, i) == order
  }

  function Free(batches: Batches, orders: seq<string>): seq<string> {
    if orders == [] then []
    else
      var n := |orders| - 1;
      Free(batches, orders[..n]) + if Busy(batches, orders[n]) then [] else [orders[n]]
  }

  datatype CreateResult = Existing | New | Refused

  predicate ModeBusy(batches: Batches, mode: Mode) {
    exists b | b in batches :: IsRunning(batches, b) && batches[b].mode == mode
  }

  /** `CreateBulkFulfillmentBatch`: `orders` are the orders the other conditions of the query admit. */
  function Created(batches: Batches, mode: Mode, id: string, orders: seq<string>, enabled: bool, now: int): (CreateResult, Batches) {
    if ModeBusy(batches, mode) then (Existing, batches)
    else if mode == Substitution && !enabled then (Refused, batches)
    else if Free(batches, orders) == [] || id in batches then (Refused, batches)
    else (New, batches[id := NewBatch(mode, Free(batches, orders), now)])
  }

  predicate Restartable(batches: Batches, mode: Mode, id: string) {
    && id in batches && batches[id].mode == mode
    && (batches[id].status == BatchRunning || (batches[id].status == BatchStopped && !ModeBusy(batches, mode)))
  }
}
