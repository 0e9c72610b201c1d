/** Runs in which only the worker touches items: they never overload a batch, take items up in order,
    and come to an end. */
module BulkWorkerRuns {
  import opened BulkBatches
  import opened BulkSteps
  import opened BulkPasses
  import opened BulkProgress
  import opened BulkRuns

  /** Items change only through passes of concurrency at most `limit`, and through restarts. */
  predicate ByWorker(e: Event, limit: nat) {
    e.Create? || e.Restart? || e.Reserve? || e.Release? || (e.Pass? && 1 <= e.limit <= limit)
  }

  ghost predicate AllByWorker(events: seq<Event>, limit: nat) {
    AllPossible(events) && forall i | 0 <= i < |events| :: ByWorker(events[i], limit)
  }

  // ---- concurrency ----

  ghost predicate AllThrottled(batches: Batches, limit: nat) {
    forall id | id in batches :: Throttled(batches[id], limit)
  }

  lemma {:induction false} PassStaysThrottled(s: State, e: Event, limit: nat)
    requires Invariant(s) && AllThrottled(s.batches, limit) && e.Pass? && 1 <= e.limit <= limit
    ensures AllThrottled(Next(s, e).batches, limit)
  {
    var next := Next(s, e).batches;
    PassIsThrottled(s.batches, e.limit, e.world, e.first, e.second);
    PassKeepsKeys(s, e);
    forall id | id in next ensures Throttled(next[id], limit) {
      assert Throttled(s.batches[id], limit);
      assert RunningCount(next, id) <= Max(e.limit, RunningCount(s.batches, id));
    }
  }

  lemma {:induction false} PassKeepsKeys(s: State, e: Event)
    requires e.Pass?
    ensures Next(s, e).batches.Keys == s.batches.Keys
  {
  }

  lemma {:induction false} EventStaysThrottled(s: State, e: Event, limit: nat)
    requires Invariant(s) && AllThrottled(s.batches, limit) && ByWorker(e, limit) && Possible(e)
    ensures AllThrottled(Next(s, e).batches, limit)
  {
    if e.Pass? {
      PassStaysThrottled(s, e, limit);
    } else if e.Create? {
      NewCounts(Free(s.batches, e.orders));
    } else if e.Restart? && Restartable(s.batches, e.mode, e.id) {
      ReopenedCounts(s.batches[e.id].items);
    }
  }

  /** Over every run driven by the worker with concurrency at most `limit`, no batch ever has more than
      `limit` items running. */
  lemma {:induction false} RunsAreThrottled(s: State, events: seq<Event>, limit: nat)
    requires Invariant(s) && AllThrottled(s.batches, limit) && AllByWorker(events, limit)
    ensures AllThrottled(Run(s, events).batches, limit)
  {
    if events != [] {
      var n := |events| - 1;
      RunsAreThrottled(s, events[..n], limit);
      RunsKeepInvariant(s, events[..n]);
      EventStaysThrottled(Run(s, events[..n]), events[n], limit);
    }
  }

  // ---- sequence order ----

  lemma {:induction false} EventKeepsOrder(s: State, e: Event, limit: nat)
    requires Invariant(s) && AllInOrder(s.batches) && ByWorker(e, limit) && !e.Restart?
    ensures AllInOrder(Next(s, e).batches)
  {
    if e.Pass? {
      PassKeepsOrder(s.batches, e.limit, e.world, e.first, e.second);
    } else if e.Create? {
      var free := Free(s.batches, e.orders);
      forall i | 0 <= i < |free| ensures NewItems(free)[i].status == Pending { NewItemAt(free, i); }
    }
  }

  /** Without a restart, the items already taken up always form a prefix of their batch. */
  lemma {:induction false} RunsKeepOrder(s: State, events: seq<Event>, limit: nat)
    requires Invariant(s) && AllInOrder(s.batches) && AllByWorker(events, limit)
    requires forall i | 0 <= i < |events| :: !events[i].Restart?
    ensures AllInOrder(Run(s, events).batches)
  {
    if events != [] {
      var n := |events| - 1;
      RunsKeepOrder(s, events[..n], limit);
      RunsKeepInvariant(s, events[..n]);
      EventKeepsOrder(Run(s, events[..n]), events[n], limit);
    }
  }

  /** No succeeded item comes after one that did not succeed. */
  ghost predicate SucceededFirst(items: seq<Item>) {
    forall i, j | 0 <= i < j < |items| && items[j].status == Succeeded :: items[i].status == Succeeded
  }

  /** A restart leaves the items taken up a prefix exactly when the succeeded items were one. */
  lemma {:induction false} ReopenedInOrder(items: seq<Item>)
    ensures TakenInOrder(Reopened(items)) <==> SucceededFirst(items)
  {
    forall i | 0 <= i < |items| ensures Reopened(items)[i].status == Pending <==> items[i].status != Succeeded {
      ReopenedAt(items, i);
    }
  }

  /** So the restart of a batch keeps the order of all batches exactly when the succeeded items of that batch come first. */
  lemma {:induction false} RestartKeepsOrderExactlyWhen(s: State, mode: Mode, id: string)
    requires AllInOrder(s.batches) && Restartable(s.batches, mode, id)
    ensures AllInOrder(Next(s, Restart(mode, id)).batches) <==> SucceededFirst(s.batches[id].items)
  {
    ReopenedInOrder(s.batches[id].items);
    var next := Next(s, Restart(mode, id)).batches;
    if SucceededFirst(s.batches[id].items) {
      forall b | b in next ensures TakenInOrder(next[b].items) { assert b in s.batches; }
    } else {
      assert id in next && !TakenInOrder(next[id].items);
    }
  }

  // ---- a run after which a restart breaks the order ----

  const THREE_ORDERS := Create(Direct, "B", ["1", "2", "3"], true, 0)

  /** The worker takes up order "1" and fails, takes up order "2" and succeeds; then the batch is restarted. */
  const FAILED_THEN_SUCCEEDED := [THREE_ORDERS, Mark("B", "1"), Finish("B", "1", Failed, "x"),
                                  Mark("B", "2"), Finish("B", "2", Succeeded, ""), Restart(Direct, "B")]

  /** The only batch is a running one with the orders "1", "2" and "3" in these statuses. */
  predicate Stands(s: State, statuses: seq<ItemStatus>)
    requires |statuses| == 3
  {
    && s.batches.Keys == {"B"} && s.batches["B"].mode == Direct && s.batches["B"].status == BatchRunning
    && |s.batches["B"].items| == 3
    && s.batches["B"].items[0].order == "1" && s.batches["B"].items[0].status == statuses[0]
    && s.batches["B"].items[1].order == "2" && s.batches["B"].items[1].status == statuses[1]
    && s.batches["B"].items[2].order == "3" && s.batches["B"].items[2].status == statuses[2]
  }

  lemma {:induction false} NoneIsBusy(orders: seq<string>)
    ensures Free(map[], orders) == orders
  {
    if orders != [] {
      NoneIsBusy(orders[..|orders| - 1]);
      assert orders == orders[..|orders| - 1] + [orders[|orders| - 1]];
    }
  }

  lemma {:induction false} CreatedStands()
    ensures Stands(Next(EMPTY, THREE_ORDERS), [Pending, Pending, Pending])
  {
    var orders := ["1", "2", "3"];
    NoneIsBusy(orders);
    forall i | 0 <= i < 3 { NewItemAt(orders, i); }
  }

  lemma {:induction false} MarkedStands(s: State, statuses: seq<ItemStatus>, i: nat)
    requires |statuses| == 3 && Stands(s, statuses) && i < 3 && statuses[i] == Pending
    ensures Stands(Next(s, Mark("B", s.batches["B"].items[i].order)), statuses[i := Running])
  {
    var items := s.batches["B"].items;
    forall k | 0 <= k < 3 { StampedAt(items, items[i].order, {Pending}, Running, "", k); }
  }

  lemma {:induction false} PendingRemains(items: seq<Item>, i: nat)
    requires i < |items| && items[i].status == Pending
    ensures Remaining(items) > 0
  {
    if i < |items| - 1 { PendingRemains(items[..|items| - 1], i); }
  }

  /** The third order stays pending, so the batch keeps running. */
  lemma {:induction false} FinishedStands(s: State, statuses: seq<ItemStatus>, i: nat, status: ItemStatus,
                                          message: string)
    requires |statuses| == 3 && Stands(s, statuses) && i < 2 && statuses[i] == Running && statuses[2] == Pending
    requires status == Failed || status == Succeeded
    ensures Stands(Next(s, Finish("B", s.batches["B"].items[i].order, status, message)), statuses[i := status])
  {
    var items := s.batches["B"].items;
    forall k | 0 <= k < 3 { StampedAt(items, items[i].order, {Pending, Running}, status, message, k); }
    PendingRemains(Stamped(items, items[i].order, {Pending, Running}, status, message), 2);
  }

  lemma {:induction false} OneMoreEvent(s: State, events: seq<Event>, n: nat)
    requires n < |events|
    ensures Run(s, events[..n + 1]) == Next(Run(s, events[..n]), events[n])
  {
    assert events[..n + 1][..n] == events[..n];
  }

  lemma {:induction false} FirstOrderStarts()
    ensures Stands(Run(EMPTY, FAILED_THEN_SUCCEEDED[..2]), [Running, Pending, Pending])
  {
    var e := FAILED_THEN_SUCCEEDED;
    CreatedStands();
    OneMoreEvent(EMPTY, e, 0);
    MarkedStands(Run(EMPTY, e[..1]), [Pending, Pending, Pending], 0);
    OneMoreEvent(EMPTY, e, 1);
  }

  lemma {:induction false} FirstOrderFails()
    ensures Stands(Run(EMPTY, FAILED_THEN_SUCCEEDED[..3]), [Failed, Pending, Pending])
  {
    var e := FAILED_THEN_SUCCEEDED;
    FirstOrderStarts();
    FinishedStands(Run(EMPTY, e[..2]), [Running, Pending, Pending], 0, Failed, "x");
    OneMoreEvent(EMPTY, e, 2);
  }

  lemma {:induction false} SecondOrderSucceeds()
    ensures Stands(Run(EMPTY, FAILED_THEN_SUCCEEDED[..5]), [Failed, Succeeded, Pending])
  {
    var e := FAILED_THEN_SUCCEEDED;
    FirstOrderFails();
    MarkedStands(Run(EMPTY, e[..3]), [Failed, Pending, Pending], 1);
    OneMoreEvent(EMPTY, e, 3);
    FinishedStands(Run(EMPTY, e[..4]), [Failed, Running, Pending], 1, Succeeded, "");
    OneMoreEvent(EMPTY, e, 4);
  }

  lemma {:induction false} RestartFromThere(s: State)
    requires Stands(s, [Failed, Succeeded, Pending])
    ensures AllInOrder(s.batches) && !AllInOrder(Next(s, Restart(Direct, "B")).batches)
  {
    assert s.batches["B"].items[1].status == Succeeded && s.batches["B"].items[0].status == Failed;
    RestartKeepsOrderExactlyWhen(s, Direct, "B");
  }

  lemma {:induction false} WholeRun()
    ensures AllPossible(FAILED_THEN_SUCCEEDED)
    ensures Run(EMPTY, FAILED_THEN_SUCCEEDED) == Next(Run(EMPTY, FAILED_THEN_SUCCEEDED[..5]), Restart(Direct, "B"))
  {
  }

  /** The order can really be lost: this run keeps it up to its last event, the restart. */
  lemma {:induction false} RestartBreaksOrder()
    ensures AllPossible(FAILED_THEN_SUCCEEDED)
    ensures AllInOrder(Run(EMPTY, FAILED_THEN_SUCCEEDED[..5]).batches)
    ensures !AllInOrder(Run(EMPTY, FAILED_THEN_SUCCEEDED).batches)
  {
    SecondOrderSucceeds();
    RestartFromThere(Run(EMPTY, FAILED_THEN_SUCCEEDED[..5]));
    WholeRun();
  }

  // ---- termination ----

  ghost function WorkIn(batches: Batches, ids: set<string>): nat
    requires ids <= batches.Keys
  {
    if ids == {} then 0 else var id :| id in ids; Work(batches[id]) + WorkIn(batches, ids - {id})
  }

  ghost function TotalWork(batches: Batches): nat {
    WorkIn(batches, batches.Keys)
  }

  lemma {:induction false} WorkWithout(batches: Batches, ids: set<string>, id: string)
    requires id in ids && ids <= batches.Keys
    ensures WorkIn(batches, ids) == Work(batches[id]) + WorkIn(batches, ids - {id})
    decreases ids
  {
    var p :| p in ids && WorkIn(batches, ids) == Work(batches[p]) + WorkIn(batches, ids - {p});
    if p != id {
      WorkWithout(batches, ids - {p}, id);
      WorkWithout(batches, ids - {id}, p);
      assert ids - {p} - {id} == ids - {id} - {p};
    }
  }

  lemma {:induction false} NoMoreWorkIn(a: Batches, b: Batches, ids: set<string>)
    requires ids <= a.Keys && ids <= b.Keys && NoMoreWork(a, b)
    ensures WorkIn(b, ids) <= WorkIn(a, ids)
    decreases ids
  {
    if ids != {} {
      var id :| id in ids;
      WorkWithout(a, ids, id);
      WorkWithout(b, ids, id);
      NoMoreWorkIn(a, b, ids - {id});
    }
  }

  lemma {:induction false} LessWorkInTotal(a: Batches, b: Batches)
    requires a.Keys == b.Keys && LessWork(a, b)
    ensures TotalWork(b) < TotalWork(a)
  {
    var id :| id in a && id in b && Work(b[id]) < Work(a[id]);
    WorkWithout(a, a.Keys, id);
    WorkWithout(b, a.Keys, id);
    NoMoreWorkIn(a, b, a.Keys - {id});
  }

  predicate Worked(s: State, e: Event) {
    e.Pass? && Processed(s.batches, e.limit, e.world, e.first, e.second).0
  }

  /** How many passes of the run reported work. */
  function Productive(s: State, events: seq<Event>): nat {
    if events == [] then 0
    else
      var n := |events| - 1;
      Productive(s, events[..n]) + if Worked(Run(s, events[..n]), events[n]) then 1 else 0
  }

  lemma {:induction false} EventReducesTotal(s: State, e: Event, limit: nat)
    requires Invariant(s) && ByWorker(e, limit) && !e.Create? && !e.Restart?
    ensures if Worked(s, e) then TotalWork(Next(s, e).batches) < TotalWork(s.batches) else Next(s, e).batches == s.batches
  {
    if e.Pass? {
      PassMakesProgress(s.batches, e.limit, e.world, e.first, e.second);
      if Worked(s, e) {
        PassKeepsKeys(s, e);
        LessWorkInTotal(s.batches, Next(s, e).batches);
      }
    }
  }

  /** Between creations and restarts, the passes that report work are at most the work there was:
      two for every pending item and one for every running item. */
  lemma {:induction false} ProductivePassesAreBounded(s: State, events: seq<Event>, limit: nat)
    requires Invariant(s) && AllByWorker(events, limit)
    requires forall i | 0 <= i < |events| :: !events[i].Create? && !events[i].Restart?
    ensures Productive(s, events) + TotalWork(Run(s, events).batches) <= TotalWork(s.batches)
  {
    if events != [] {
      var n := |events| - 1;
      ProductivePassesAreBounded(s, events[..n], limit);
      RunsKeepInvariant(s, events[..n]);
      EventReducesTotal(Run(s, events[..n]), events[n], limit);
    }
  }
}
