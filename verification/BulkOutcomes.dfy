/** What one pass of the bulk worker makes of every item, told from the answers the pass gets. */
module BulkOutcomes {
  import opened BulkBatches
  import opened BulkSteps
  import opened BulkPasses
  import opened Jobs
  import P = BulkProgress
  import Text

  // ---- one item ----

  /** A running item succeeds when its job has handed the order on or was skipped, waits while the job is at work, and
      fails with the job's error, which stops the pass; in a direct batch a manual order's failed job does not count. */
  ghost predicate RunningEnds(mode: Mode, world: World, before: Item, after: Item, stops: bool) {
    var order := before.order;
    match world.job(order)
    case NoJob(error) => stops && after == Item(order, Failed, error)
    case Job(status, why) =>
      if status == WaitingOms || status == JobCompleted || status == Skipped then !stops && after == Item(order, Succeeded, "")
      else if status != JobFailed then !stops && after == before
      else
        match world.order(order)
        case NoOrder(error) => stops && after == Item(order, Failed, error)
        case Order(manual) =>
          if mode == Direct && manual then !stops && after == Item(order, Succeeded, MANUAL_SKIP)
          else stops && after == Item(order, Failed, if Text.Trim(why) == "" then JOB_FAILED else Text.Trim(why))
  }

  /** A pending item is started once its order is queued; an order that needs a person or no longer awaits shipment is
      done with, and any error stops the pass. */
  ghost predicate PendingEnds(mode: Mode, world: World, before: Item, after: Item, stops: bool) {
    var order := before.order;
    match world.order(order)
    case NoOrder(error) => stops && after == Item(order, Failed, error)
    case Order(manual) =>
      if mode == Direct && manual then !stops && after == Item(order, Succeeded, MANUAL_SKIP)
      else
        match world.enqueue(order)
        case Enqueued => !stops && after == Item(order, Running, "")
        case NoLongerAwaiting => !stops && after == Item(order, Succeeded, GONE_SKIP)
        case NotEnqueued(error) => stops && after == Item(order, Failed, error)
  }

  ghost predicate Ends(mode: Mode, world: World, status: ItemStatus, before: Item, after: Item, stops: bool) {
    if status == Running then RunningEnds(mode, world, before, after, stops) else PendingEnds(mode, world, before, after, stops)
  }

  lemma {:induction false} StampedTo(items: seq<Item>, i: nat, from: set<ItemStatus>, to: ItemStatus, message: string)
    requires DistinctOrders(items) && i < |items| && items[i].status in from && to != Pending
    ensures var r := Stamped(items, items[i].order, from, to, message);
            P.OnlyRow(items, r, i) && r[i] == Item(items[i].order, to, message)
  {
    P.StampedRow(items, i, from, to, message);
    StampedAt(items, items[i].order, from, to, message, i);
  }

  /** The batch records the order and the error of a failed item, and nothing otherwise. */
  ghost predicate Noted(a: Batch, b: Batch, failed: bool, item: Item) {
    && b.mode == a.mode && b.total == a.total && b.createdAt == a.createdAt
    && (b.failedOrder, b.lastError) == if failed then (item.order, item.lastError) else (a.failedOrder, a.lastError)
  }

  /** One step of a sweep: row `i` ends as told, no other changes, and only a failure is written down in the batch. */
  ghost predicate Stepped(a: Batch, b: Batch, i: nat, status: ItemStatus, world: World, stops: bool) {
    && i < |a.items| == |b.items|
    && (if a.items[i].status == status then Ends(a.mode, world, status, a.items[i], b.items[i], stops) else b.items[i] == a.items[i] && !stops)
    && (forall j | 0 <= j < |a.items| && j != i :: b.items[j] == a.items[j])
    && b.items[i].order == a.items[i].order && Noted(a, b, stops, b.items[i])
  }

  lemma {:induction false} StepEnds(batch: Batch, i: nat, status: ItemStatus, world: World)
    requires DistinctOrders(batch.items) && i < |batch.items| && (status == Running || status == Pending)
    ensures var verdict := VerdictOn(batch.mode, world, batch.items[i], status);
            Stepped(batch, Acted(batch, batch.items[i].order, verdict), i, status, world, Halts(batch, batch.items[i].order, verdict))
  {
    var item := batch.items[i];
    if item.status == status {
      match VerdictOn(batch.mode, world, item, status)
      case Leave =>
      case Done(message) => StampedTo(batch.items, i, {Pending, Running}, Succeeded, message);
      case Start => StampedTo(batch.items, i, {Pending}, Running, "");
      case Stop(error) => StampedTo(batch.items, i, {Pending, Running}, Failed, error);
    }
  }

  // ---- a sweep ----

  /** The sweep looked at this item, listed with `status` among the first `reached`. */
  predicate LookedAt(list: seq<Item>, reached: nat, status: ItemStatus, item: Item)
    requires reached <= |list|
  {
    item.status == status && item in list[..reached]
  }

  /** `b` is `a` after the first `reached` of the listed items; `stopped` says that the last of these stopped it. */
  ghost predicate SweptTo(a: Batch, b: Batch, list: seq<Item>, status: ItemStatus, world: World, reached: nat, stopped: bool) {
    && reached <= |list| && (if stopped then reached > 0 && LookedAt(list, reached, status, list[reached - 1]) else reached == |list|)
    && |b.items| == |a.items|
    && (forall i | 0 <= i < |a.items| ::
         if LookedAt(list, reached, status, a.items[i])
         then Ends(a.mode, world, status, a.items[i], b.items[i], stopped && a.items[i] == list[reached - 1])
         else b.items[i] == a.items[i])
    && (stopped ==> exists i | 0 <= i < |a.items| :: a.items[i] == list[reached - 1] && Noted(a, b, true, b.items[i]))
    && (!stopped ==> forall item :: Noted(a, b, false, item))
  }

  lemma {:induction false} SweptOne(a: Batch, next: Batch, i: nat, list: seq<Item>, status: ItemStatus, world: World)
    requires list != [] && i < |a.items| && a.items[i] == list[0] && DistinctOrders(a.items)
    requires Stepped(a, next, i, status, world, true)
    ensures SweptTo(a, next, list, status, world, 1, true)
  {
    forall j | 0 <= j < |a.items| && j != i ensures a.items[j] != list[0] {
      assert OrderAt(a.items, j) != OrderAt(a.items, i);
    }
    assert list[..1] == [list[0]];
  }

  lemma {:induction false} SweptMore(a: Batch, next: Batch, b: Batch, i: nat, list: seq<Item>, status: ItemStatus,
                                     world: World, reached: nat, stopped: bool)
    requires list != [] && i < |a.items| && a.items[i] == list[0] && DistinctOrders(a.items) && P.Rows(list, a.items)
    requires Stepped(a, next, i, status, world, false)
    requires SweptTo(next, b, list[1..], status, world, reached, stopped)
    ensures SweptTo(a, b, list, status, world, reached + 1, stopped)
  {
    var rest := list[1..];
    forall x | 0 <= x < |rest| ensures rest[x] != next.items[i] && rest[x] != list[0] {
      assert OrderAt(list, 0) != OrderAt(list, x + 1);
    }
    forall j | 0 <= j < |a.items| && j != i ensures a.items[j] != list[0] {
      assert OrderAt(a.items, j) != OrderAt(a.items, i);
    }
    assert list[..reached + 1] == [list[0]] + rest[..reached];
    forall j | 0 <= j < |a.items|
      ensures if LookedAt(list, reached + 1, status, a.items[j])
              then Ends(a.mode, world, status, a.items[j], b.items[j], stopped && a.items[j] == list[reached])
              else b.items[j] == a.items[j]
    {
      if j == i { assert !LookedAt(rest, reached, status, next.items[i]); }
    }
    if stopped {
      var j :| 0 <= j < |next.items| && next.items[j] == rest[reached - 1] && Noted(next, b, true, b.items[j]);
      assert j != i && a.items[j] == list[reached] && Noted(a, b, true, b.items[j]);
    } else {
      assert Noted(next, b, false, list[0]);
      assert Noted(a, b, false, list[0]);
    }
  }

  lemma {:induction false} SweepEnds(batch: Batch, list: seq<Item>, status: ItemStatus,
                                     world: World) returns (reached: nat)
    requires DistinctOrders(batch.items) && P.Rows(list, batch.items) && (status == Running || status == Pending)
    ensures var sweep := Swept(batch, list, status, world); SweptTo(batch, sweep.batch, list, status, world, reached, sweep.stopped)
    decreases |list|
  {
    if list == [] {
      reached := 0;
    } else {
      var i := P.RowOf(list, batch.items);
      var verdict := VerdictOn(batch.mode, world, list[0], status);
      var next := Acted(batch, list[0].order, verdict);
      StepEnds(batch, i, status, world);
      if Halts(batch, list[0].order, verdict) {
        SweptOne(batch, next, i, list, status, world);
        reached := 1;
      } else {
        RowsAfter(batch, list, i, verdict);
        var rest := SweepEnds(next, list[1..], status, world);
        var sweep := Swept(next, list[1..], status, world);
        SweptMore(batch, next, sweep.batch, i, list, status, world, rest, sweep.stopped);
        reached := rest + 1;
      }
    }
  }

  lemma {:induction false} RowsAfter(batch: Batch, list: seq<Item>, i: nat, verdict: Verdict)
    requires list != [] && DistinctOrders(batch.items) && P.Rows(list, batch.items) && i < |batch.items| && batch.items[i] == list[0]
    requires verdict != Leave ==> P.Effective(list[0], verdict)
    ensures var next := Acted(batch, list[0].order, verdict); DistinctOrders(next.items) && P.Rows(list[1..], next.items)
  {
    if verdict == Leave {
      P.RestRows(list, batch.items);
    } else {
      P.ActedRow(batch, i, verdict);
      P.RowsLeft(list, batch.items, Acted(batch, list[0].order, verdict).items, i);
    }
  }

  // ---- the listed items ----

  function Least(a: nat, b: nat): nat {
    if a < b then a else b
  }

  /** Of the items with a status the first `limit` are listed, in their order. */
  lemma {:induction false} FirstWithMeans(items: seq<Item>, status: ItemStatus, limit: nat, i: nat)
    requires i < |items| && items[i].status == status
    ensures var (r, before) := (FirstWith(items, status, limit), Count(items[..i], status));
            |r| == Least(limit, Count(items, status)) && (before < limit ==> before < |r| && r[before] == items[i])
  {
    FirstWithSelects(items, status, limit, status);
    CountFromFront(items, status);
    if i == 0 {
      assert items[..0] == [];
    } else {
      CountFromFront(items[..i], status);
      assert items[..i][1..] == items[1..][..i - 1] && items[..i][0] == items[0];
      if limit > 0 { FirstWithMeans(items[1..], status, if items[0].status == status then limit - 1 else limit, i - 1); }
    }
  }

  lemma {:induction false} InEither<T>(x: T, a: seq<T>, b: seq<T>)
    ensures x in a + b <==> x in a || x in b
  {
  }

  /** Exactly which items a pass looks at: the first running ones up to the limit, then pending ones while there is room. */
  lemma {:induction false} SelectedMeans(items: seq<Item>, limit: nat, i: nat)
    requires DistinctOrders(items) && i < |items|
    ensures var running := Least(limit, Count(items, Running));
            items[i] in Selected(items, limit) <==>
            || (items[i].status == Running && Count(items[..i], Running) < limit)
            || (items[i].status == Pending && running + Count(items[..i], Pending) < limit)
  {
    var running := FirstWith(items, Running, limit);
    FirstWithSelects(items, Running, limit, Running);
    ListedExactly(items, Running, limit, i);
    ListedExactly(items, Pending, limit - |running|, i);
    InEither(items[i], running, FirstWith(items, Pending, limit - |running|));
  }

  lemma {:induction false} ListedExactly(items: seq<Item>, status: ItemStatus, limit: nat, i: nat)
    requires DistinctOrders(items) && i < |items|
    ensures items[i] in FirstWith(items, status, limit) <==> items[i].status == status && Count(items[..i], status) < limit
  {
    var r := FirstWith(items, status, limit);
    P.FirstWithRows(items, status, limit);
    if items[i].status == status {
      FirstWithMeans(items, status, limit, i);
      if items[i] in r && Count(items[..i], status) >= limit { BeyondIsUnlisted(items, status, limit, i); }
    }
  }

  lemma {:induction false} BeyondIsUnlisted(items: seq<Item>, status: ItemStatus, limit: nat, i: nat)
    requires DistinctOrders(items) && i < |items| && Count(items[..i], status) >= limit
    ensures items[i] !in FirstWith(items, status, limit)
  {
    assert items[..0] == [];
    if limit > 0 && i > 0 {
      CountFromFront(items[..i], status);
      assert items[..i][1..] == items[1..][..i - 1] && items[..i][0] == items[0];
      forall x, y | 0 <= x < y < |items[1..]| ensures OrderAt(items[1..], x) != OrderAt(items[1..], y) {
        assert OrderAt(items, x + 1) != OrderAt(items, y + 1);
      }
      BeyondIsUnlisted(items[1..], status, if items[0].status == status then limit - 1 else limit, i - 1);
      assert OrderAt(items, 0) != OrderAt(items, i);
    }
  }

  /** The batch runs and has a pending item. */
  ghost predicate HasPending(batch: Batch) {
    batch.status == BatchRunning && exists i | 0 <= i < |batch.items| :: batch.items[i].status == Pending
  }

  lemma {:induction false} PendingCounts(items: seq<Item>)
    ensures Count(items, Pending) > 0 <==> exists i | 0 <= i < |items| :: items[i].status == Pending
  {
    if items != [] {
      var n := |items| - 1;
      PendingCounts(items[..n]);
      if i :| 0 <= i < n && items[..n][i].status == Pending { assert items[i].status == Pending; }
      assert forall i | 0 <= i < n :: items[i] == items[..n][i];
    }
  }

  /** Exactly which batches a pass may serve: running ones with a pending item, and any running one when there is no
      such batch. */
  lemma {:induction false} ServesExactlyWhen(batches: Batches, id: string)
    ensures MayServe(batches, id) <==>
            id in batches && (HasPending(batches[id]) || (batches[id].status == BatchRunning && forall b | b in batches :: !HasPending(batches[b])))
  {
    forall b | b in batches ensures HasPending(batches[b]) <==> IsRunning(batches, b) && Count(batches[b].items, Pending) > 0 {
      PendingCounts(batches[b].items);
    }
  }

  // ---- a whole pass ----

  /** Batch `id` was swept over these items, and nothing else happened to the table. */
  ghost predicate SweptIn(a: Batches, b: Batches, id: string, list: seq<Item>, status: ItemStatus, world: World, reached: nat, stopped: bool) {
    id in a && id in b && b == a[id := b[id]] && SweptTo(a[id], b[id], list, status, world, reached, stopped)
  }

  ghost predicate StartedIn(a: Batches, b: Batches, id: string, list: seq<Item>, world: World) {
    exists reached: nat, stopped: bool :: SweptIn(a, b, id, list, Pending, world, reached, stopped)
  }

  /** A pass looks at the running items listed of a batch it may serve. When one of them stops it, that is all; when
      none of them was finished, it goes on to the pending ones listed; and when some were, to those of a batch chosen
      anew. */
  ghost predicate PassEnds(a: Batches, b: Batches, n: nat, world: World, first: string, second: string) {
    if !MayServe(a, first) then b == a
    else
      exists middle: Batches, reached: nat, stopped: bool ::
        SweptIn(a, middle, first, Selected(a[first].items, n), Running, world, reached, stopped) && EndsAfter(a, middle, b, n, world, first, second, stopped)
  }

  ghost predicate EndsAfter(a: Batches, middle: Batches, b: Batches, n: nat, world: World, first: string, second: string, stopped: bool)
    requires first in a
  {
    if stopped then b == middle
    else if middle == a then StartedIn(a, b, first, Selected(a[first].items, n), world)
    else if !MayServe(middle, second) then b == middle
    else StartedIn(middle, b, second, Selected(middle[second].items, n), world)
  }

  lemma {:induction false} SweepsIn(batches: Batches, id: string, list: seq<Item>, status: ItemStatus,
                                    world: World) returns (reached: nat)
    requires Sound(batches) && id in batches && P.Rows(list, batches[id].items) && (status == Running || status == Pending)
    ensures var sweep := Swept(batches[id], list, status, world);
            SweptIn(batches, batches[id := sweep.batch], id, list, status, world, reached, sweep.stopped)
            && (sweep.acted <==> batches[id := sweep.batch] != batches)
  {
    assert WellFormed(batches[id]);
    reached := SweepEnds(batches[id], list, status, world);
    P.SweptProgress(batches, id, list, status, world);
  }

  lemma {:induction false} StartsIn(batches: Batches, id: string, n: nat, world: World)
    requires Sound(batches) && id in batches
    ensures var list := Selected(batches[id].items, n);
            StartedIn(batches, batches[id := Swept(batches[id], list, Pending, world).batch], id, list, world)
  {
    assert WellFormed(batches[id]);
    P.SelectedRows(batches[id].items, n);
    var _ := SweepsIn(batches, id, Selected(batches[id].items, n), Pending, world);
  }

  /** A pass reports work exactly when something changed. */
  lemma {:induction false} PassReports(batches: Batches, limit: int, world: World, first: string, second: string)
    requires Sound(batches)
    ensures Processed(batches, limit, world, first, second).0 <==> Processed(batches, limit, world, first, second).1 != batches
  {
    P.PassMakesProgress(batches, if limit < 1 then 1 else limit, world, first, second);
  }

  /** What one pass does, for all answers. */
  lemma {:induction false} PassMeans(batches: Batches, limit: int, world: World, first: string, second: string)
    requires Sound(batches)
    ensures PassEnds(batches, Processed(batches, limit, world, first, second).1, if limit < 1 then 1 else limit, world, first, second)
  {
    var n: nat := if limit < 1 then 1 else limit;
    if MayServe(batches, first) {
      var after := Processed(batches, limit, world, first, second).1;
      var list := Selected(batches[first].items, n);
      assert WellFormed(batches[first]);
      P.SelectedRows(batches[first].items, n);
      var reached := SweepsIn(batches, first, list, Running, world);
      var sweep := Swept(batches[first], list, Running, world);
      var middle := batches[first := sweep.batch];
      if !sweep.acted {
        IdlePass(batches, first, list, world);
        StartsIn(batches, first, n, world);
      } else if !sweep.stopped && MayServe(middle, second) {
        SweepingIsSound(batches, first, list, Running, world);
        StartsIn(middle, second, n, world);
      }
      assert EndsAfter(batches, middle, after, n, world, first, second, sweep.stopped);
    }
  }

  // ---- what follows for single items ----

  /** The order's job handed it on or was skipped. */
  predicate JobIsDone(job: JobAnswer) {
    job.Job? && (job.status == WaitingOms || job.status == JobCompleted || job.status == Skipped)
  }

  /** Why an item may succeed. */
  predicate MaySucceed(mode: Mode, world: World, order: string) {
    || JobIsDone(world.job(order))
    || (mode == Direct && world.order(order) == Order(true))
    || world.enqueue(order) == NoLongerAwaiting
  }

  /** Every new success in a table has its reason. */
  ghost predicate SuccessesAreDue(a: Batches, b: Batches, world: World) {
    forall id | id in a :: id in b && b[id].mode == a[id].mode && RowSuccessesAreDue(a[id], b[id], world)
  }

  ghost predicate RowSuccessesAreDue(a: Batch, b: Batch, world: World) {
    && SameOrders(a.items, b.items)
    && forall i | 0 <= i < |a.items| ::
         b.items[i].status == Succeeded ==> a.items[i].status == Succeeded || MaySucceed(a.mode, world, OrderAt(a.items, i))
  }

  lemma {:induction false} SweepSuccesses(a: Batches, b: Batches, id: string, list: seq<Item>, status: ItemStatus,
                                          world: World, reached: nat, stopped: bool)
    requires SweptIn(a, b, id, list, status, world, reached, stopped)
    ensures SuccessesAreDue(a, b, world)
  {
    var (x, y) := (a[id].items, b[id].items);
    forall i | 0 <= i < |x|
      ensures OrderAt(y, i) == OrderAt(x, i)
      ensures y[i].status == Succeeded ==> x[i].status == Succeeded || MaySucceed(a[id].mode, world, OrderAt(x, i))
    {
      if LookedAt(list, reached, status, x[i]) {
        assert Ends(a[id].mode, world, status, x[i], y[i], stopped && x[i] == list[reached - 1]);
      }
    }
    assert b[id].mode == a[id].mode by {
      assert stopped || Noted(a[id], b[id], false, Item("", Pending, ""));
    }
  }

  lemma {:induction false} SuccessesChain(a: Batches, b: Batches, c: Batches, world: World)
    requires SuccessesAreDue(a, b, world) && SuccessesAreDue(b, c, world)
    ensures SuccessesAreDue(a, c, world)
  {
    forall id | id in a ensures RowSuccessesAreDue(a[id], c[id], world) {
      assert RowSuccessesAreDue(a[id], b[id], world) && RowSuccessesAreDue(b[id], c[id], world);
      forall i | 0 <= i < |a[id].items| ensures OrderAt(c[id].items, i) == OrderAt(a[id].items, i) {
        assert OrderAt(b[id].items, i) == OrderAt(a[id].items, i);
      }
    }
  }

  /** In no pass does an item succeed unless its job handed the order on or was skipped, its order needs a person in a
      direct batch, or its order no longer awaits shipment. */
  lemma {:induction false} SuccessesHaveReasons(batches: Batches, limit: int, world: World, first: string,
                                                second: string)
    requires Sound(batches)
    ensures SuccessesAreDue(batches, Processed(batches, limit, world, first, second).1, world)
  {
    var n: nat := if limit < 1 then 1 else limit;
    var after := Processed(batches, limit, world, first, second).1;
    PassMeans(batches, limit, world, first, second);
    if MayServe(batches, first) {
      var middle: Batches, reached: nat, stopped: bool :|
        SweptIn(batches, middle, first, Selected(batches[first].items, n), Running, world, reached, stopped)
        && EndsAfter(batches, middle, after, n, world, first, second, stopped);
      SuccessesAfter(batches, middle, after, n, world, first, second, reached, stopped);
    }
  }

  lemma {:induction false} SuccessesAfter(a: Batches, middle: Batches, b: Batches, n: nat, world: World, first: string,
                                          second: string, reached: nat, stopped: bool)
    requires first in a && SweptIn(a, middle, first, Selected(a[first].items, n), Running, world, reached, stopped)
    requires EndsAfter(a, middle, b, n, world, first, second, stopped)
    ensures SuccessesAreDue(a, b, world)
  {
    SweepSuccesses(a, middle, first, Selected(a[first].items, n), Running, world, reached, stopped);
    if b != middle {
      var id := if middle == a then first else second;
      var list := Selected(middle[id].items, n);
      var r: nat, s: bool :| SweptIn(middle, b, id, list, Pending, world, r, s);
      SweepSuccesses(middle, b, id, list, Pending, world, r, s);
      SuccessesChain(a, middle, b, world);
    }
  }

  /** A running item of this order does not stop the pass. */
  predicate GoesOn(mode: Mode, world: World, order: string) {
    world.job(order).Job? &&
    (world.job(order).status == JobFailed ==> mode == Direct && world.order(order) == Order(true))
  }

  /** Item `x` is the first listed running item that stops the pass. */
  ghost predicate FirstToStop(mode: Mode, world: World, list: seq<Item>, x: nat) {
    && x < |list| && list[x].status == Running && !GoesOn(mode, world, list[x].order)
    && forall y | 0 <= y < x && list[y].status == Running :: GoesOn(mode, world, list[y].order)
  }

  /** What a running item fails with. */
  function FailsWith(world: World, order: string): string {
    match world.job(order)
    case NoJob(error) => error
    case Job(_, why) =>
      match world.order(order)
      case NoOrder(error) => error
      case Order(_) => if Text.Trim(why) == "" then JOB_FAILED else Text.Trim(why)
  }

  /** The pass ends with this item: it fails, the batch notes the order and the error, and rows not listed before it
      stay as they were. */
  ghost predicate StopsThere(a: Batch, b: Batch, list: seq<Item>, x: nat, message: string)
    requires x < |list|
  {
    && (b.failedOrder, b.lastError) == (list[x].order, message) && |b.items| == |a.items|
    && (exists i | 0 <= i < |a.items| :: a.items[i] == list[x] && b.items[i] == Item(list[x].order, Failed, message))
    && (forall i | 0 <= i < |a.items| && a.items[i] !in list[..x + 1] :: b.items[i] == a.items[i])
  }

  lemma {:induction false} EndsStopping(mode: Mode, world: World, before: Item, after: Item, stops: bool)
    requires RunningEnds(mode, world, before, after, stops)
    ensures stops <==> !GoesOn(mode, world, before.order)
    ensures stops ==> after == Item(before.order, Failed, FailsWith(world, before.order))
  {
  }

  lemma {:induction false} SweepStopsThere(a: Batch, b: Batch, list: seq<Item>, world: World, reached: nat,
                                           stopped: bool, x: nat)
    requires SweptTo(a, b, list, Running, world, reached, stopped) && P.Rows(list, a.items) && FirstToStop(a.mode, world, list, x)
    ensures stopped && StopsThere(a, b, list, x, FailsWith(world, list[x].order))
  {
    if stopped {
      var j :| 0 <= j < |a.items| && a.items[j] == list[reached - 1] && Noted(a, b, true, b.items[j]);
      EndsStopping(a.mode, world, a.items[j], b.items[j], true);
    }
    assert reached - 1 != x ==> OrderAt(list, x) != OrderAt(list, reached - 1);
    assert list[x] == list[..reached][x] && list[x] in a.items;
    var i :| 0 <= i < |a.items| && a.items[i] == list[x];
    EndsStopping(a.mode, world, a.items[i], b.items[i], stopped && a.items[i] == list[reached - 1]);
    var j :| 0 <= j < |a.items| && a.items[j] == list[reached - 1] && Noted(a, b, true, b.items[j]);
    EndsStopping(a.mode, world, a.items[j], b.items[j], true);
  }

  lemma {:induction false} PassStopsThere(a: Batches, b: Batches, n: nat, world: World, first: string, second: string,
                                          x: nat)
    requires MayServe(a, first) && PassEnds(a, b, n, world, first, second)
    requires var list := Selected(a[first].items, n); P.Rows(list, a[first].items) && FirstToStop(a[first].mode, world, list, x)
    ensures var list := Selected(a[first].items, n);
            first in b && b == a[first := b[first]] && StopsThere(a[first], b[first], list, x, FailsWith(world, list[x].order))
  {
    var list := Selected(a[first].items, n);
    var middle: Batches, reached: nat, stopped: bool :|
      SweptIn(a, middle, first, list, Running, world, reached, stopped) && EndsAfter(a, middle, b, n, world, first, second, stopped);
    SweepStopsThere(a[first], middle[first], list, world, reached, stopped, x);
  }

  /** The first listed running item whose job failed, or could not be read, fails with that error and ends the pass;
      no pending item is started and no other batch is touched. */
  lemma {:induction false} FailedJobStopsPass(batches: Batches, limit: int, world: World, first: string,
                                              second: string, x: nat)
    requires Sound(batches) && MayServe(batches, first)
    requires FirstToStop(batches[first].mode, world, Selected(batches[first].items, if limit < 1 then 1 else limit), x)
    ensures var after := Processed(batches, limit, world, first, second).1;
            var list := Selected(batches[first].items, if limit < 1 then 1 else limit);
            && first in after && after == batches[first := after[first]]
            && StopsThere(batches[first], after[first], list, x, FailsWith(world, list[x].order))
  {
    var n: nat := if limit < 1 then 1 else limit;
    assert WellFormed(batches[first]);
    P.SelectedRows(batches[first].items, n);
    PassMeans(batches, limit, world, first, second);
    PassStopsThere(batches, Processed(batches, limit, world, first, second).1, n, world, first, second, x);
  }

  // ---- the statements on a batch ----

  /** Finishing ends the order's pending or running rows. */
  lemma {:induction false} FinishMeans(batch: Batch, order: string, status: ItemStatus, message: string, i: nat)
    requires i < |batch.items|
    ensures var (r, item) := (Finished(batch, order, status, message).items, batch.items[i]);
            && |r| == |batch.items|
            && r[i] == if item.order == order && (item.status == Pending || item.status == Running) then Item(order, status, message) else item
  {
    StampedAt(batch.items, order, {Pending, Running}, status, message, i);
  }

  /** A failure is noted in the batch. */
  lemma {:induction false} FinishNotes(batch: Batch, order: string, status: ItemStatus, message: string)
    ensures Noted(batch, Finished(batch, order, status, message), status == Failed, Item(order, Failed, message))
  {
  }

  lemma {:induction false} MarkMeans(batch: Batch, order: string, i: nat)
    requires i < |batch.items|
    ensures var (r, item) := (Marked(batch, order), batch.items[i]);
            && |r.items| == |batch.items| && r == batch.(items := r.items)
            && r.items[i] == if item.order == order && item.status == Pending then Item(order, Running, "") else item
  {
    StampedAt(batch.items, order, {Pending}, Running, "", i);
  }

  /** A restart makes running and failed items pending again and forgets the failure. */
  lemma {:induction false} RestartMeans(batch: Batch, i: nat)
    requires i < |batch.items|
    ensures var (r, item) := (Restarted(batch), batch.items[i]);
            && |r.items| == |batch.items| && r.items[i] == (if item.status == Succeeded || item.status == Pending then item else Item(item.order, Pending, ""))
            && r == batch.(items := r.items, status := BatchRunning, succeeded := Count(batch.items, Succeeded), failed := 0,
                           failedOrder := "", lastError := "")
  {
    ReopenedAt(batch.items, i);
    ReopenedCounts(batch.items);
  }

  /** In a sound table exactly the running batch of the mode can be restarted. */
  lemma {:induction false} RestartableExactlyWhen(batches: Batches, mode: Mode, id: string)
    requires Sound(batches)
    ensures Restartable(batches, mode, id) <==> id in batches && batches[id].mode == mode && batches[id].status == BatchRunning
  {
    if id in batches { assert WellFormed(batches[id]); }
  }

  lemma {:induction false} FreeLast(batches: Batches, orders: seq<string>, order: string)
    ensures Free(batches, orders + [order]) == Free(batches, orders) + Free(batches, [order])
  {
    assert (orders + [order])[..|orders|] == orders && [order][..0] == [];
  }

  lemma {:induction false} FreeAddsUp(batches: Batches, a: seq<string>, b: seq<string>)
    ensures Free(batches, a + b) == Free(batches, a) + Free(batches, b)
  {
    if b == [] {
      assert a + b == a;
    } else {
      var front, order := b[..|b| - 1], b[|b| - 1];
      assert b == front + [order] && a + b == (a + front) + [order];
      FreeAddsUp(batches, a, front);
      FreeLast(batches, a + front, order);
      FreeLast(batches, front, order);
    }
  }

  /** An order is free when no running batch lists it. */
  lemma {:induction false} FreeOne(batches: Batches, order: string)
    ensures Free(batches, [order]) ==
            if exists id | id in batches :: batches[id].status == BatchRunning && InBatch(batches[id], order) then [] else [order]
  {
    assert [order][..0] == [] && Free(batches, []) == [];
    if id :| id in batches && batches[id].status == BatchRunning && InBatch(batches[id], order) { assert IsRunning(batches, id); }
  }

  /** A batch is created exactly when none of its mode runs, substitutions have a catalog, and some order is free. */
  lemma {:induction false} CreateMeans(batches: Batches, mode: Mode, id: string, orders: seq<string>, enabled: bool,
                                       now: int)
    requires id !in batches
    ensures var (result, r) := Created(batches, mode, id, orders, enabled, now);
            var busy := exists b | b in batches :: batches[b].status == BatchRunning && batches[b].mode == mode;
            && (result == Existing <==> busy)
            && (result == New <==> !busy && (enabled || mode == Direct) && Free(batches, orders) != [])
            && (result != New ==> r == batches)
            && (result == New ==>
                 && id in r && r == batches[id := r[id]] && r[id].mode == mode && r[id].createdAt == now && r[id].status == BatchRunning
                 && (r[id].failedOrder, r[id].lastError) == ("", "") && |r[id].items| == |Free(batches, orders)| == r[id].total
                 && forall i | 0 <= i < |r[id].items| :: r[id].items[i] == Item(Free(batches, orders)[i], Pending, ""))
  {
    var free := Free(batches, orders);
    forall i | 0 <= i < |free| ensures NewItems(free)[i] == Item(free[i], Pending, "") { NewItemAt(free, i); }
    if b :| b in batches && batches[b].status == BatchRunning && batches[b].mode == mode { assert IsRunning(batches, b); }
  }
}
