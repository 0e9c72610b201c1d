/** What a pass of the bulk worker keeps. */
module BulkPasses {
  import opened BulkBatches
  import opened BulkSteps

  lemma {:induction false} ActedIsWellFormed(batch: Batch, order: string, verdict: Verdict)
    requires WellFormed(batch)
    ensures WellFormed(Acted(batch, order, verdict)) && Continues(batch, Acted(batch, order, verdict))
    ensures Work(Acted(batch, order, verdict)) <= Work(batch)
  {
    match verdict
    case Leave =>
    case Done(message) => FinishIsWellFormed(batch, order, Succeeded, message);
    case Start =>
      MarkIsWellFormed(batch, order);
      FinishIsWellFormed(batch, order, Failed, NO_ROWS);
    case Stop(error) => FinishIsWellFormed(batch, order, Failed, error);
  }

  lemma {:induction false} SweptIsWellFormed(batch: Batch, items: seq<Item>, status: ItemStatus, world: World)
    requires WellFormed(batch)
    ensures var r := Swept(batch, items, status, world).batch;
            WellFormed(r) && Continues(batch, r) && Work(r) <= Work(batch)
    decreases |items|
  {
    if items != [] {
      var verdict := VerdictOn(batch.mode, world, items[0], status);
      var next := Acted(batch, items[0].order, verdict);
      ActedIsWellFormed(batch, items[0].order, verdict);
      if !Halts(batch, items[0].order, verdict) {
        SweptIsWellFormed(next, items[1..], status, world);
      }
    }
  }

  lemma {:induction false} SweepingIsSound(batches: Batches, id: string, items: seq<Item>, status: ItemStatus,
                                           world: World)
    requires Sound(batches) && id in batches
    ensures Sound(batches[id := Swept(batches[id], items, status, world).batch])
  {
    SweptIsWellFormed(batches[id], items, status, world);
    ReplacingIsSound(batches, id, Swept(batches[id], items, status, world).batch);
  }

  /** A pass keeps the whole table sound, whatever the answers and whichever batches it serves. */
  lemma {:induction false} PassIsSound(batches: Batches, limit: int, world: World, first: string, second: string)
    requires Sound(batches)
    ensures Sound(Processed(batches, limit, world, first, second).1)
  {
    var n: nat := if limit < 1 then 1 else limit;
    if MayServe(batches, first) {
      var items := Selected(batches[first].items, n);
      var next := batches[first := Swept(batches[first], items, Running, world).batch];
      SweepingIsSound(batches, first, items, Running, world);
      SweepingIsSound(next, first, items, Pending, world);
      if second in next {
        SweepingIsSound(next, second, Selected(next[second].items, n), Pending, world);
      }
    }
  }

  // ---- at most `limit` items run at once ----

  lemma {:induction false} CountFromFront(items: seq<Item>, status: ItemStatus)
    requires items != []
    ensures Count(items, status) == (if items[0].status == status then 1 else 0) + Count(items[1..], status)
  {
    if |items| > 1 {
      CountFromFront(items[..|items| - 1], status);
      assert items[..|items| - 1][1..] == items[1..][..|items| - 2];
    }
  }

  lemma {:induction false} CountOfParts(a: seq<Item>, b: seq<Item>, status: ItemStatus)
    ensures Count(a + b, status) == Count(a, status) + Count(b, status)
  {
    if b == [] {
      assert a + b == a;
    } else {
      CountOfParts(a, b[..|b| - 1], status);
      assert (a + b)[..|a + b| - 1] == a + b[..|b| - 1];
    }
  }

  lemma {:induction false} FirstWithSelects(items: seq<Item>, status: ItemStatus, limit: nat, other: ItemStatus)
    ensures var r := FirstWith(items, status, limit);
            |r| <= Count(items, status) && (|r| == limit || |r| == Count(items, status))
            && Count(r, other) == if other == status then |r| else 0
  {
    if items != [] && limit > 0 {
      CountFromFront(items, status);
      if items[0].status == status {
        FirstWithSelects(items[1..], status, limit - 1, other);
        CountFromFront(FirstWith(items, status, limit), other);
      } else {
        FirstWithSelects(items[1..], status, limit, other);
      }
    }
  }

  function Max(a: nat, b: nat): nat {
    if a < b then b else a
  }

  /** The pending items selected still fit beside the running ones. */
  lemma {:induction false} SelectedLeavesRoom(items: seq<Item>, limit: nat)
    ensures Count(Selected(items, limit), Pending) + Count(items, Running) <= Max(limit, Count(items, Running))
  {
    var running := FirstWith(items, Running, limit);
    FirstWithSelects(items, Running, limit, Pending);
    FirstWithSelects(items, Pending, limit - |running|, Pending);
    CountOfParts(running, FirstWith(items, Pending, limit - |running|), Pending);
  }

  ghost predicate DistinctOrders(items: seq<Item>) {
    forall i, j | 0 <= i < j < |items| :: OrderAt(items, i) != OrderAt(items, j)
  }

  function Rows(items: seq<Item>, order: string): nat {
    if items == [] then 0 else Rows(items[..|items| - 1], order) + if items[|items| - 1].order == order then 1 else 0
  }

  lemma {:induction false} AbsentRows(items: seq<Item>, order: string)
    requires forall i | 0 <= i < |items| :: OrderAt(items, i) != order
    ensures Rows(items, order) == 0
  {
    if items != [] {
      var front := items[..|items| - 1];
      forall i | 0 <= i < |front| ensures OrderAt(front, i) != order { assert OrderAt(items, i) != order; }
      AbsentRows(front, order);
      assert OrderAt(items, |items| - 1) != order;
    }
  }

  lemma {:induction false} AtMostOneRow(items: seq<Item>, order: string)
    requires DistinctOrders(items)
    ensures Rows(items, order) <= 1
  {
    if items != [] {
      var n := |items| - 1;
      var front := items[..n];
      forall i, j | 0 <= i < j < n ensures OrderAt(front, i) != OrderAt(front, j) {
        assert OrderAt(items, i) != OrderAt(items, j);
      }
      AtMostOneRow(front, order);
      if items[n].order == order {
        forall i | 0 <= i < n ensures OrderAt(front, i) != order { assert OrderAt(items, i) != OrderAt(items, n); }
        AbsentRows(front, order);
      }
    }
  }

  lemma {:induction false} StampAddsRows(items: seq<Item>, order: string, from: set<ItemStatus>, to: ItemStatus,
                                         message: string)
    ensures Count(Stamped(items, order, from, to, message), to) <= Count(items, to) + Rows(items, order)
  {
    if items != [] {
      var n := |items| - 1;
      StampAddsRows(items[..n], order, from, to, message);
      assert Stamped(items, order, from, to, message)[..n] == Stamped(items[..n], order, from, to, message);
    }
  }

  lemma {:induction false} FinishFreesRoom(batch: Batch, order: string, status: ItemStatus, message: string)
    requires status == Succeeded || status == Failed
    ensures Count(Finished(batch, order, status, message).items, Running) <= Count(batch.items, Running)
  {
    StampedCounts(batch.items, order, {Pending, Running}, status, message);
  }

  lemma {:induction false} ActedStartsOne(batch: Batch, order: string, verdict: Verdict)
    requires WellFormed(batch)
    ensures Count(Acted(batch, order, verdict).items, Running) <= Count(batch.items, Running) + if verdict.Start? then 1 else 0
  {
    match verdict
    case Leave =>
    case Done(message) => FinishFreesRoom(batch, order, Succeeded, message);
    case Start =>
      StampAddsRows(batch.items, order, {Pending}, Running, "");
      AtMostOneRow(batch.items, order);
      FinishFreesRoom(batch, order, Failed, NO_ROWS);
    case Stop(error) => FinishFreesRoom(batch, order, Failed, error);
  }

  /** How many of the listed items a sweep over `status` may start. */
  function Openings(items: seq<Item>, status: ItemStatus): nat {
    if items == [] then 0
    else (if status == Pending && items[0].status == Pending then 1 else 0) + Openings(items[1..], status)
  }

  lemma {:induction false} OpeningsArePending(items: seq<Item>)
    ensures Openings(items, Pending) == Count(items, Pending) && Openings(items, Running) == 0
  {
    if items != [] {
      CountFromFront(items, Pending);
      OpeningsArePending(items[1..]);
    }
  }

  lemma {:induction false} SweptStarts(batch: Batch, items: seq<Item>, status: ItemStatus, world: World)
    requires WellFormed(batch) && (status == Running || status == Pending)
    ensures Count(Swept(batch, items, status, world).batch.items, Running) <= Count(batch.items, Running) + Openings(items, status)
    decreases |items|
  {
    if items != [] {
      var verdict := VerdictOn(batch.mode, world, items[0], status);
      var next := Acted(batch, items[0].order, verdict);
      ActedStartsOne(batch, items[0].order, verdict);
      if !Halts(batch, items[0].order, verdict) {
        ActedIsWellFormed(batch, items[0].order, verdict);
        SweptStarts(next, items[1..], status, world);
      }
    }
  }

  /** Starting the selected pending items never runs more than `limit` at once, unless more were running. */
  lemma {:induction false} StartingIsThrottled(batch: Batch, limit: nat, world: World)
    requires WellFormed(batch)
    ensures Count(Swept(batch, Selected(batch.items, limit), Pending, world).batch.items, Running) <= Max(limit, Count(batch.items, Running))
  {
    var items := Selected(batch.items, limit);
    SelectedLeavesRoom(batch.items, limit);
    OpeningsArePending(items);
    SweptStarts(batch, items, Pending, world);
  }

  lemma {:induction false} FinishingIsThrottled(batch: Batch, items: seq<Item>, world: World)
    requires WellFormed(batch)
    ensures Count(Swept(batch, items, Running, world).batch.items, Running) <= Count(batch.items, Running)
  {
    OpeningsArePending(items);
    SweptStarts(batch, items, Running, world);
  }

  ghost predicate NoFuller(a: Batches, b: Batches, limit: nat) {
    forall id | id in a :: id in b && RunningCount(b, id) <= Max(limit, RunningCount(a, id))
  }

  function RunningCount(batches: Batches, id: string): nat {
    if id in batches then Count(batches[id].items, Running) else 0
  }

  lemma {:induction false} StartedIsThrottled(batches: Batches, id: string, limit: nat, world: World, acted: bool)
    requires id in batches && WellFormed(batches[id])
    ensures NoFuller(batches, Started(batches, id, Selected(batches[id].items, limit), world, acted).1, limit)
  {
    StartingIsThrottled(batches[id], limit, world);
  }

  /** No pass runs more than `limit` items of a batch at once, unless more were running before it. */
  lemma {:induction false} PassIsThrottled(batches: Batches, limit: nat, world: World, first: string, second: string)
    requires Sound(batches) && limit >= 1
    ensures NoFuller(batches, Processed(batches, limit, world, first, second).1, limit)
  {
    if MayServe(batches, first) {
      var items := Selected(batches[first].items, limit);
      var sweep := Swept(batches[first], items, Running, world);
      var next := batches[first := sweep.batch];
      FinishingIsThrottled(batches[first], items, world);
      IdlePass(batches, first, items, world);
      if !sweep.acted {
        StartedIsThrottled(batches, first, limit, world, false);
      } else if MayServe(next, second) {
        SweepingIsSound(batches, first, items, Running, world);
        StartedIsThrottled(next, second, limit, world, true);
      }
    }
  }

  lemma {:induction false} IdlePass(batches: Batches, first: string, items: seq<Item>, world: World)
    requires first in batches
    ensures var sweep := Swept(batches[first], items, Running, world);
            !sweep.acted ==> !sweep.stopped && batches[first := sweep.batch] == batches
  {
    if !Swept(batches[first], items, Running, world).acted { IdleSweep(batches[first], items, Running, world); }
  }

  /** A sweep that did nothing left the batch as it was. */
  lemma {:induction false} IdleSweep(batch: Batch, items: seq<Item>, status: ItemStatus, world: World)
    requires !Swept(batch, items, status, world).acted
    ensures Swept(batch, items, status, world).batch == batch && !Swept(batch, items, status, world).stopped
    decreases |items|
  {
    if items != [] {
      IdleSweep(batch, items[1..], status, world);
    }
  }
}
