/** Progress of the bulk worker: items are taken up in sequence order, and every pass that reports
    work leaves strictly less to do. */
module BulkProgress {
  import opened BulkBatches
  import opened BulkSteps
  import opened BulkPasses

  /** `list` holds rows of the batch, no order twice. */
  ghost predicate Rows(list: seq<Item>, items: seq<Item>) {
    DistinctOrders(list) && forall x | 0 <= x < |list| :: list[x] in items
  }

  /** From `a` to `b` only row `i` changed; it is no longer pending. */
  ghost predicate OnlyRow(a: seq<Item>, b: seq<Item>, i: int) {
    && 0 <= i < |a| == |b| && b[i].order == a[i].order && b[i].status != Pending
    && forall j | 0 <= j < |a| && j != i :: b[j] == a[j]
  }

  lemma {:induction false} StampedRow(items: seq<Item>, i: nat, from: set<ItemStatus>, to: ItemStatus, message: string)
    requires DistinctOrders(items) && i < |items| && items[i].status in from && to != Pending
    ensures OnlyRow(items, Stamped(items, items[i].order, from, to, message), i)
  {
    var r := Stamped(items, items[i].order, from, to, message);
    StampedAt(items, items[i].order, from, to, message, i);
    forall j | 0 <= j < |items| && j != i ensures r[j] == items[j] {
      StampedAt(items, items[i].order, from, to, message, j);
      assert OrderAt(items, j) != OrderAt(items, i);
    }
  }

  /** What a pass may decide about a listed item. */
  predicate Effective(item: Item, verdict: Verdict) {
    verdict != Leave && (item.status == Pending || (item.status == Running && !verdict.Start?))
  }

  lemma {:induction false} ActedRow(batch: Batch, i: nat, verdict: Verdict)
    requires DistinctOrders(batch.items) && i < |batch.items| && Effective(batch.items[i], verdict)
    ensures OnlyRow(batch.items, Acted(batch, batch.items[i].order, verdict).items, i)
    ensures Work(Acted(batch, batch.items[i].order, verdict)) < Work(batch)
  {
    var order := batch.items[i].order;
    var message := if verdict.Done? then verdict.message else if verdict.Stop? then verdict.error else "";
    StampedRow(batch.items, i, {Pending, Running}, Succeeded, message);
    StampedRow(batch.items, i, {Pending, Running}, Failed, message);
    EffectiveStampReducesWork(batch.items, order, {Pending, Running}, Succeeded, message, i);
    EffectiveStampReducesWork(batch.items, order, {Pending, Running}, Failed, message, i);
    if verdict.Start? {
      StampedRow(batch.items, i, {Pending}, Running, "");
      EffectiveStampReducesWork(batch.items, order, {Pending}, Running, "", i);
    }
  }

  lemma {:induction false} RowsLeft(list: seq<Item>, a: seq<Item>, b: seq<Item>, i: int)
    requires list != [] && Rows(list, a) && DistinctOrders(a) && OnlyRow(a, b, i) && a[i] == list[0]
    ensures Rows(list[1..], b) && DistinctOrders(b)
  {
    forall x | 0 <= x < |list[1..]| ensures list[1..][x] in b {
      assert list[x + 1] in a;
      var j :| 0 <= j < |a| && a[j] == list[x + 1];
      assert OrderAt(list, 0) != OrderAt(list, x + 1);
      assert b[j] == a[j];
    }
    forall x, y | 0 <= x < y < |list[1..]| ensures OrderAt(list[1..], x) != OrderAt(list[1..], y) {
      assert OrderAt(list, x + 1) != OrderAt(list, y + 1);
    }
    forall x, y | 0 <= x < y < |b| ensures OrderAt(b, x) != OrderAt(b, y) {
      assert OrderAt(a, x) != OrderAt(a, y);
    }
  }

  /** A sweep leaves strictly less work exactly when it acted. */
  lemma {:induction false} SweptWork(batch: Batch, list: seq<Item>, status: ItemStatus, world: World)
    requires DistinctOrders(batch.items) && Rows(list, batch.items) && (status == Running || status == Pending)
    ensures var r := Swept(batch, list, status, world);
            if r.acted then Work(r.batch) < Work(batch) else Work(r.batch) == Work(batch)
    decreases |list|
  {
    if list != [] {
      var verdict := VerdictOn(batch.mode, world, list[0], status);
      if verdict == Leave {
        RestRows(list, batch.items);
        SweptWork(batch, list[1..], status, world);
      } else {
        var i := RowOf(list, batch.items);
        var next := Acted(batch, list[0].order, verdict);
        ActedRow(batch, i, verdict);
        RowsLeft(list, batch.items, next.items, i);
        SweptWork(next, list[1..], status, world);
      }
    }
  }

  lemma {:induction false} RowOf(list: seq<Item>, items: seq<Item>) returns (i: nat)
    requires list != [] && Rows(list, items)
    ensures i < |items| && items[i] == list[0]
  {
    assert list[0] in items;
    i :| 0 <= i < |items| && items[i] == list[0];
  }

  lemma {:induction false} RestRows(list: seq<Item>, items: seq<Item>)
    requires list != [] && Rows(list, items)
    ensures Rows(list[1..], items)
  {
    forall x, y | 0 <= x < y < |list[1..]| ensures OrderAt(list[1..], x) != OrderAt(list[1..], y) {
      assert OrderAt(list, x + 1) != OrderAt(list, y + 1);
    }
  }

  // ---- the selected items are rows of the batch ----

  lemma {:induction false} FirstWithRows(items: seq<Item>, status: ItemStatus, limit: nat)
    requires DistinctOrders(items)
    ensures var r := FirstWith(items, status, limit); Rows(r, items) && forall x | 0 <= x < |r| :: r[x].status == status
  {
    if items != [] && limit > 0 {
      var rest := items[1..];
      forall x, y | 0 <= x < y < |rest| ensures OrderAt(rest, x) != OrderAt(rest, y) {
        assert OrderAt(items, x + 1) != OrderAt(items, y + 1);
      }
      if items[0].status == status {
        FirstWithRows(rest, status, limit - 1);
        OneMoreRow(items, FirstWith(rest, status, limit - 1));
      } else {
        FirstWithRows(rest, status, limit);
      }
    }
  }

  lemma {:induction false} OneMoreRow(items: seq<Item>, list: seq<Item>)
    requires items != [] && DistinctOrders(items) && Rows(list, items[1..])
    ensures Rows([items[0]] + list, items)
  {
    var more := [items[0]] + list;
    forall x, y | 0 <= x < y < |more| ensures OrderAt(more, x) != OrderAt(more, y) {
      assert list[y - 1] in items[1..];
      var j :| 1 <= j < |items| && items[j] == list[y - 1];
      assert OrderAt(items, 0) != OrderAt(items, j);
      if x > 0 { assert OrderAt(list, x - 1) != OrderAt(list, y - 1); }
    }
  }

  lemma {:induction false} JoinedRows(a: seq<Item>, b: seq<Item>, items: seq<Item>)
    requires DistinctOrders(items) && Rows(a, items) && Rows(b, items)
    requires forall x, y | 0 <= x < |a| && 0 <= y < |b| :: a[x].status != b[y].status
    ensures Rows(a + b, items)
  {
    var all := a + b;
    forall x, y | 0 <= x < y < |all| ensures OrderAt(all, x) != OrderAt(all, y) {
      if y < |a| {
        assert OrderAt(a, x) != OrderAt(a, y);
      } else if x >= |a| {
        assert OrderAt(b, x - |a|) != OrderAt(b, y - |a|);
      } else {
        DifferentRows(a[x], b[y - |a|], items);
      }
    }
  }

  lemma {:induction false} DifferentRows(x: Item, y: Item, items: seq<Item>)
    requires DistinctOrders(items) && x in items && y in items && x != y
    ensures x.order != y.order
  {
    var i :| 0 <= i < |items| && items[i] == x;
    var j :| 0 <= j < |items| && items[j] == y;
    assert OrderAt(items, i) == x.order && OrderAt(items, j) == y.order;
  }

  lemma {:induction false} SelectedRows(items: seq<Item>, limit: nat)
    requires DistinctOrders(items)
    ensures Rows(Selected(items, limit), items)
  {
    var running := FirstWith(items, Running, limit);
    FirstWithRows(items, Running, limit);
    FirstWithRows(items, Pending, limit - |running|);
    JoinedRows(running, FirstWith(items, Pending, limit - |running|), items);
  }

  // ---- sequence order ----

  /** The first `k` items have been taken up, the others have not. */
  ghost predicate TakenUpTo(items: seq<Item>, k: nat) {
    && k <= |items|
    && (forall i | 0 <= i < k :: items[i].status != Pending)
    && (forall i | k <= i < |items| :: items[i].status == Pending)
  }

  lemma {:induction false} OrderHasACut(items: seq<Item>) returns (k: nat)
    requires TakenInOrder(items)
    ensures TakenUpTo(items, k)
  {
    if items == [] || items[|items| - 1].status != Pending {
      k := |items|;
    } else {
      k := OrderHasACut(items[..|items| - 1]);
    }
  }

  /** Finishing running items moves no cut. */
  lemma {:induction false} FinishingKeepsCut(batch: Batch, list: seq<Item>, world: World, k: nat)
    requires DistinctOrders(batch.items) && Rows(list, batch.items) && TakenUpTo(batch.items, k)
    ensures TakenUpTo(Swept(batch, list, Running, world).batch.items, k)
    decreases |list|
  {
    if list != [] {
      var verdict := VerdictOn(batch.mode, world, list[0], Running);
      if verdict == Leave {
        RestRows(list, batch.items);
        FinishingKeepsCut(batch, list[1..], world, k);
      } else {
        var i := RowOf(list, batch.items);
        var next := Acted(batch, list[0].order, verdict);
        ActedRow(batch, i, verdict);
        RowsLeft(list, batch.items, next.items, i);
        FinishingKeepsCut(next, list[1..], world, k);
      }
    }
  }

  /** Taking up the next pending items moves the cut, item by item. */
  lemma {:induction false} StartingKeepsOrder(batch: Batch, k: nat, list: seq<Item>, world: World)
    requires DistinctOrders(batch.items) && TakenUpTo(batch.items, k) && list <= batch.items[k..]
    ensures TakenInOrder(Swept(batch, list, Pending, world).batch.items)
    decreases |list|
  {
    if list != [] {
      var next := StartedNext(batch, k, list, world);
      StartingKeepsOrder(next, k + 1, list[1..], world);
    }
  }

  lemma {:induction false} StartedNext(batch: Batch, k: nat, list: seq<Item>, world: World) returns (next: Batch)
    requires DistinctOrders(batch.items) && TakenUpTo(batch.items, k) && list != [] && list <= batch.items[k..]
    ensures k < |batch.items| && list[0] == batch.items[k]
    ensures next == Acted(batch, list[0].order, VerdictOn(batch.mode, world, list[0], Pending))
    ensures DistinctOrders(next.items) && TakenUpTo(next.items, k + 1) && list[1..] <= next.items[k + 1..]
  {
    assert list[0] == batch.items[k..][0] == batch.items[k];
    var verdict := VerdictOn(batch.mode, world, list[0], Pending);
    next := Acted(batch, list[0].order, verdict);
    ActedRow(batch, k, verdict);
    NextCut(batch.items, next.items, k);
    assert list[1..] <= batch.items[k..][1..] == batch.items[k + 1..];
  }

  lemma {:induction false} NextCut(a: seq<Item>, b: seq<Item>, k: nat)
    requires TakenUpTo(a, k) && OnlyRow(a, b, k) && DistinctOrders(a)
    ensures TakenUpTo(b, k + 1) && DistinctOrders(b) && a[k + 1..] == b[k + 1..]
  {
    forall x, y | 0 <= x < y < |b| ensures OrderAt(b, x) != OrderAt(b, y) {
      assert OrderAt(a, x) != OrderAt(a, y);
    }
  }

  /** The pending items selected are the next ones after the cut. */
  lemma {:induction false} PendingAfterCut(items: seq<Item>, k: nat, limit: nat)
    requires TakenUpTo(items, k)
    ensures FirstWith(items, Pending, limit) <= items[k..]
  {
    if items != [] && limit > 0 {
      if k == 0 {
        PendingAfterCut(items[1..], 0, limit - 1);
      } else {
        PendingAfterCut(items[1..], k - 1, limit);
      }
    }
  }

  lemma {:induction false} SkipsRunning(batch: Batch, running: seq<Item>, list: seq<Item>, world: World)
    requires forall x | 0 <= x < |running| :: running[x].status == Running
    ensures Swept(batch, running + list, Pending, world) == Swept(batch, list, Pending, world)
    decreases |running|
  {
    if running == [] {
      assert running + list == list;
    } else {
      assert (running + list)[1..] == running[1..] + list;
      SkipsRunning(batch, running[1..], list, world);
    }
  }

  lemma {:induction false} StartingSelectedKeepsOrder(batch: Batch, limit: nat, world: World)
    requires DistinctOrders(batch.items) && TakenInOrder(batch.items)
    ensures TakenInOrder(Swept(batch, Selected(batch.items, limit), Pending, world).batch.items)
  {
    var running := FirstWith(batch.items, Running, limit);
    var pending := FirstWith(batch.items, Pending, limit - |running|);
    var k := OrderHasACut(batch.items);
    RunningFirst(batch.items, limit);
    PendingAfterCut(batch.items, k, limit - |running|);
    SkipsRunning(batch, running, pending, world);
    StartingKeepsOrder(batch, k, pending, world);
  }

  lemma {:induction false} RunningFirst(items: seq<Item>, limit: nat)
    requires DistinctOrders(items)
    ensures forall x | 0 <= x < |FirstWith(items, Running, limit)| :: FirstWith(items, Running, limit)[x].status == Running
  {
    FirstWithRows(items, Running, limit);
  }

  lemma {:induction false} FinishingKeepsOrder(batch: Batch, limit: nat, world: World)
    requires DistinctOrders(batch.items) && TakenInOrder(batch.items)
    ensures TakenInOrder(Swept(batch, Selected(batch.items, limit), Running, world).batch.items)
  {
    var k := OrderHasACut(batch.items);
    SelectedRows(batch.items, limit);
    FinishingKeepsCut(batch, Selected(batch.items, limit), world, k);
  }

  // ---- whole passes ----

  ghost predicate AllInOrder(batches: Batches) {
    forall id | id in batches :: TakenInOrder(batches[id].items)
  }

  /** Every pass takes items up in sequence order; only `Restart` can break the order. */
  lemma {:induction false} PassKeepsOrder(batches: Batches, limit: nat, world: World, first: string, second: string)
    requires Sound(batches) && limit >= 1 && AllInOrder(batches)
    ensures AllInOrder(Processed(batches, limit, world, first, second).1)
  {
    if MayServe(batches, first) {
      assert WellFormed(batches[first]);
      var items := Selected(batches[first].items, limit);
      var sweep := Swept(batches[first], items, Running, world);
      var next := batches[first := sweep.batch];
      FinishingKeepsOrder(batches[first], limit, world);
      IdlePass(batches, first, items, world);
      if !sweep.acted {
        StartingSelectedKeepsOrder(batches[first], limit, world);
      } else if MayServe(next, second) {
        SweepingIsSound(batches, first, items, Running, world);
        assert WellFormed(next[second]);
        StartingSelectedKeepsOrder(next[second], limit, world);
      }
    }
  }

  ghost predicate NoMoreWork(a: Batches, b: Batches) {
    forall id | id in a :: id in b && Work(b[id]) <= Work(a[id])
  }

  ghost predicate LessWork(a: Batches, b: Batches) {
    NoMoreWork(a, b) && exists id | id in a && id in b :: Work(b[id]) < Work(a[id])
  }

  lemma {:induction false} LessWorkChains(a: Batches, b: Batches, c: Batches)
    requires LessWork(a, b) && NoMoreWork(b, c)
    ensures LessWork(a, c)
  {
    var id :| id in a && id in b && Work(b[id]) < Work(a[id]);
    assert id in c && Work(c[id]) < Work(a[id]);
  }

  lemma {:induction false} SweptProgress(batches: Batches, id: string, items: seq<Item>, status: ItemStatus,
                                         world: World)
    requires id in batches && DistinctOrders(batches[id].items) && Rows(items, batches[id].items) && (status == Running || status == Pending)
    ensures var sweep := Swept(batches[id], items, status, world);
            var after := batches[id := sweep.batch];
            NoMoreWork(batches, after) && (if sweep.acted then LessWork(batches, after) else after == batches)
  {
    SweptWork(batches[id], items, status, world);
    if !Swept(batches[id], items, status, world).acted {
      IdleSweep(batches[id], items, status, world);
    } else {
      assert id in batches;
    }
  }

  /** No pass adds work anywhere, and a pass that reports work done left strictly less of it. */
  lemma {:induction false} PassMakesProgress(batches: Batches, limit: nat, world: World, first: string, second: string)
    requires Sound(batches) && limit >= 1
    ensures var (worked, after) := Processed(batches, limit, world, first, second);
            if worked then LessWork(batches, after) else after == batches
  {
    if MayServe(batches, first) {
      assert WellFormed(batches[first]);
      var items := Selected(batches[first].items, limit);
      var sweep := Swept(batches[first], items, Running, world);
      var next := batches[first := sweep.batch];
      SelectedRows(batches[first].items, limit);
      SweptProgress(batches, first, items, Running, world);
      IdlePass(batches, first, items, world);
      if !sweep.acted {
        SweptProgress(batches, first, items, Pending, world);
      } else if MayServe(next, second) {
        SweepingIsSound(batches, first, items, Running, world);
        SecondHalfProgress(next, second, limit, world);
        LessWorkChains(batches, next, Started(next, second, Selected(next[second].items, limit), world, true).1);
      }
    }
  }

  lemma {:induction false} SecondHalfProgress(batches: Batches, id: string, limit: nat, world: World)
    requires Sound(batches) && id in batches
    ensures NoMoreWork(batches, Started(batches, id, Selected(batches[id].items, limit), world, true).1)
  {
    assert WellFormed(batches[id]);
    SelectedRows(batches[id].items, limit);
    SweptProgress(batches, id, Selected(batches[id].items, limit), Pending, world);
  }
}
