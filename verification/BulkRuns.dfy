/** The bulk tables as one state, every transaction as an event, and what all runs keep. */
module BulkRuns {
  import opened Common
  import opened BulkBatches
  import opened BulkSteps
  import opened BulkPasses
  import opened InventoryLedger
  import opened LedgerConservation
  import opened ReservationItems
  import Text

  datatype State = State(batches: Batches, ledger: Ledger)

  /** A pass and a reservation name the batch their query picked. */
  datatype Event =
    | Create(mode: Mode, id: string, orders: seq<string>, enabled: bool, now: int)
    | Restart(mode: Mode, id: string)
    | Mark(id: string, order: string)
    | Finish(id: string, order: string, status: ItemStatus, message: string)
    | Pass(limit: nat, world: World, first: string, second: string)
    | Reserve(id: string, order: string, warehouse: string, raw: seq<RawItem>)
    | Release(id: string, order: string)

  const EMPTY := State(map[], Ledger(map[], map[]))

  /** The batch of order `o` a reservation belongs to. */
  predicate Serves(batches: Batches, id: string, o: string) {
    IsRunning(batches, id) && batches[id].mode == Substitution && HasStatus(batches[id], o, Running)
  }

  predicate HoldsIn(s: State, id: string, o: string) {
    IsRunning(s.batches, id) && exists h | h in s.ledger.holds :: h.0 == id && h.1 == o
  }

  datatype Outcome = Invalid | NoBatch | Short | Booked

  /** The request after trimming and normalizing; `None` is refused before the transaction starts. */
  function Request(order: string, warehouse: string, raw: seq<RawItem>): Option<(string, string, map<string, Want>)> {
    var (o, w) := (Text.Trim(order), Text.Upper(Text.Trim(warehouse)));
    match Normalized(raw)
    case None => None
    case Some(wants) => if o == "" || w == "" then None else Some((o, w, wants))
  }

  function ReservedIn(s: State, id: string, o: string, w: string, wants: map<string, Want>): (Outcome, State) {
    if !Serves(s.batches, id, o) then (NoBatch, s)
    else
      var (ok, ledger) := Reserved(s.ledger, id, o, w, wants);
      (if ok then Booked else Short, s.(ledger := ledger))
  }

  function ReserveEvent(s: State, id: string, order: string, warehouse: string, raw: seq<RawItem>): (Outcome, State) {
    match Request(order, warehouse, raw)
    case None => (Invalid, s)
    case Some((o, w, wants)) => ReservedIn(s, id, o, w, wants)
  }

  function ReleasedIn(s: State, id: string, o: string): State {
    if o != "" && HoldsIn(s, id, o) then s.(ledger := Released(s.ledger, id, o)) else s
  }

  function MarkedIn(batches: Batches, id: string, order: string): Batches {
    if id in batches && HasStatus(batches[id], order, Pending) then batches[id := Marked(batches[id], order)] else batches
  }

  function FinishedIn(batches: Batches, id: string, order: string, status: ItemStatus, message: string): Batches {
    if id in batches && (status == Succeeded || status == Failed)
    then batches[id := Finished(batches[id], order, status, message)] else batches
  }

  function RestartedIn(batches: Batches, mode: Mode, id: string): Batches {
    if Restartable(batches, mode, id) then batches[id := Restarted(batches[id])] else batches
  }

  function Next(s: State, e: Event): State {
    match e
    case Create(mode, id, orders, enabled, now) => s.(batches := Created(s.batches, mode, id, orders, enabled, now).1)
    case Restart(mode, id) => s.(batches := RestartedIn(s.batches, mode, id))
    case Mark(id, order) => s.(batches := MarkedIn(s.batches, id, order))
    case Finish(id, order, status, message) => s.(batches := FinishedIn(s.batches, id, order, status, message))
    case Pass(limit, world, first, second) => s.(batches := Processed(s.batches, limit, world, first, second).1)
    case Reserve(id, order, warehouse, raw) => ReserveEvent(s, id, order, warehouse, raw).1
    case Release(id, order) => ReleasedIn(s, id, Text.Trim(order))
  }

  function Run(s: State, events: seq<Event>): State {
    if events == [] then s else Next(Run(s, events[..|events| - 1]), events[|events| - 1])
  }

  ghost predicate Distinct(orders: seq<string>) {
    forall i, j | 0 <= i < j < |orders| :: orders[i] != orders[j]
  }

  /** The order table has one row per order. */
  ghost predicate Possible(e: Event) {
    e.Create? ==> Distinct(e.orders)
  }

  /** Reservations belong to substitution batches and to orders of those batches. */
  ghost predicate Attached(s: State) {
    && (forall h | h in s.ledger.holds :: h.0 in s.batches && InBatch(s.batches[h.0], h.1) && s.batches[h.0].mode == Substitution)
    && (forall k | k in s.ledger.budgets :: k.0 in s.batches)
  }

  ghost predicate Invariant(s: State) {
    Sound(s.batches) && Conserved(s.ledger) && Attached(s)
  }

  // ---- the batch table ----

  lemma {:induction false} FreeOrders(batches: Batches, orders: seq<string>)
    requires Distinct(orders)
    ensures Distinct(Free(batches, orders))
    ensures forall x :: x in Free(batches, orders) <==> x in orders && !Busy(batches, x)
  {
    if orders != [] {
      var n := |orders| - 1;
      FreeOrders(batches, orders[..n]);
      assert orders == orders[..n] + [orders[n]];
    }
  }

  lemma {:induction false} NewIsApart(batches: Batches, mode: Mode, orders: seq<string>, now: int, b: string)
    requires b in batches && !ModeBusy(batches, mode) && forall x | x in orders :: !Busy(batches, x)
    requires forall x :: InBatch(NewBatch(mode, orders, now), x) <==> x in orders
    ensures Apart(NewBatch(mode, orders, now), batches[b]) && Apart(batches[b], NewBatch(mode, orders, now))
  {
    var batch := NewBatch(mode, orders, now);
    if batches[b].status == BatchRunning {
      assert IsRunning(batches, b);
      forall x | InBatch(batch, x) ensures !InBatch(batches[b], x) {
        assert x in orders && !Busy(batches, x);
      }
      ApartIsSymmetric(batch, batches[b]);
    }
  }

  /** Creating a batch takes only orders no running batch has, and keeps the table sound. */
  lemma {:induction false} CreateIsSound(batches: Batches, mode: Mode, id: string, orders: seq<string>, enabled: bool,
                                         now: int)
    requires Sound(batches) && Distinct(orders)
    ensures Sound(Created(batches, mode, id, orders, enabled, now).1)
  {
    var free := Free(batches, orders);
    FreeOrders(batches, orders);
    if Created(batches, mode, id, orders, enabled, now).0 == New {
      NewBatchIsWellFormed(mode, free, now);
      forall b | b in batches ensures Apart(NewBatch(mode, free, now), batches[b]) && Apart(batches[b], NewBatch(mode, free, now)) {
        NewIsApart(batches, mode, free, now, b);
      }
    }
  }

  lemma {:induction false} BatchEventIsSound(s: State, e: Event)
    requires Sound(s.batches) && Possible(e)
    ensures Sound(Next(s, e).batches)
  {
    match e
    case Create(mode, id, orders, enabled, now) => CreateIsSound(s.batches, mode, id, orders, enabled, now);
    case Restart(mode, id) =>
      if Restartable(s.batches, mode, id) {
        RestartIsWellFormed(s.batches[id]);
        ReplacingIsSound(s.batches, id, Restarted(s.batches[id]));
      }
    case Mark(id, order) =>
      if id in s.batches {
        MarkIsWellFormed(s.batches[id], order);
        ReplacingIsSound(s.batches, id, Marked(s.batches[id], order));
      }
    case Finish(id, order, status, message) =>
      if id in s.batches && (status == Succeeded || status == Failed) {
        FinishIsWellFormed(s.batches[id], order, status, message);
        ReplacingIsSound(s.batches, id, Finished(s.batches[id], order, status, message));
      }
    case Pass(limit, world, first, second) => PassIsSound(s.batches, limit, world, first, second);
    case Reserve(_, _, _, _) =>
    case Release(_, _) =>
  }

  /** No batch disappears; each keeps its mode and its orders. */
  ghost predicate Kept(a: Batches, b: Batches) {
    forall id | id in a :: id in b && b[id].mode == a[id].mode && SameOrders(a[id].items, b[id].items)
  }

  lemma {:induction false} KeptReplacing(batches: Batches, id: string, batch: Batch)
    requires id in batches && Continues(batches[id], batch)
    ensures Kept(batches, batches[id := batch])
  {
    forall b | b in batches ensures SameOrders(batches[b].items, batches[b].items) {}
  }

  lemma {:induction false} KeptChains(a: Batches, b: Batches, c: Batches)
    requires Kept(a, b) && Kept(b, c)
    ensures Kept(a, c)
  {
    forall id | id in a ensures SameOrders(a[id].items, c[id].items) {
      assert id in b && id in c;
      forall i | 0 <= i < |a[id].items| ensures OrderAt(c[id].items, i) == OrderAt(a[id].items, i) {
        assert OrderAt(b[id].items, i) == OrderAt(a[id].items, i);
      }
    }
  }

  lemma {:induction false} SweepKeeps(batches: Batches, id: string, items: seq<Item>, status: ItemStatus, world: World)
    requires Sound(batches) && id in batches
    ensures Kept(batches, batches[id := Swept(batches[id], items, status, world).batch])
  {
    SweptIsWellFormed(batches[id], items, status, world);
    KeptReplacing(batches, id, Swept(batches[id], items, status, world).batch);
  }

  lemma {:induction false} PassKeeps(batches: Batches, limit: nat, world: World, first: string, second: string)
    requires Sound(batches)
    ensures Kept(batches, Processed(batches, limit, world, first, second).1)
  {
    var n: nat := if limit < 1 then 1 else limit;
    if MayServe(batches, first) {
      var items := Selected(batches[first].items, n);
      var next := batches[first := Swept(batches[first], items, Running, world).batch];
      SweepKeeps(batches, first, items, Running, world);
      SweepingIsSound(batches, first, items, Running, world);
      SecondHalfKeeps(batches, next, first, items, world);
      if second in next {
        SecondHalfKeeps(batches, next, second, Selected(next[second].items, n), world);
      }
    } else {
      NothingChanged(batches);
    }
  }

  lemma {:induction false} SecondHalfKeeps(a: Batches, b: Batches, id: string, items: seq<Item>, world: World)
    requires Sound(b) && id in b && Kept(a, b)
    ensures Kept(a, b[id := Swept(b[id], items, Pending, world).batch])
  {
    SweepKeeps(b, id, items, Pending, world);
    KeptChains(a, b, b[id := Swept(b[id], items, Pending, world).batch]);
  }

  lemma {:induction false} NothingChanged(batches: Batches)
    ensures Kept(batches, batches)
  {
    forall b | b in batches ensures SameOrders(batches[b].items, batches[b].items) {}
  }

  /** A transaction on one existing batch. */
  lemma {:induction false} UpdateKeeps(s: State, e: Event)
    requires Sound(s.batches) && (e.Restart? || e.Mark? || e.Finish?)
    ensures Kept(s.batches, Next(s, e).batches)
  {
    NothingChanged(s.batches);
    if e.id in s.batches {
      var batch := s.batches[e.id];
      match e
      case Restart(mode, id) =>
        if Restartable(s.batches, mode, id) {
          RestartIsWellFormed(batch);
          KeptReplacing(s.batches, id, Restarted(batch));
        }
      case Mark(id, order) =>
        MarkIsWellFormed(batch, order);
        KeptReplacing(s.batches, id, Marked(batch, order));
      case Finish(id, order, status, message) =>
        if status == Succeeded || status == Failed {
          FinishIsWellFormed(batch, order, status, message);
          KeptReplacing(s.batches, id, Finished(batch, order, status, message));
        }
    }
  }

  lemma {:induction false} EventKeeps(s: State, e: Event)
    requires Sound(s.batches)
    ensures Kept(s.batches, Next(s, e).batches)
  {
    if e.Restart? || e.Mark? || e.Finish? {
      UpdateKeeps(s, e);
    } else if e.Pass? {
      PassKeeps(s.batches, e.limit, e.world, e.first, e.second);
    } else {
      NothingChanged(s.batches);
    }
  }

  // ---- the ledger ----

  lemma {:induction false} AttachedStays(s: State, batches: Batches)
    requires Attached(s) && Kept(s.batches, batches)
    ensures Attached(s.(batches := batches))
  {
    forall h | h in s.ledger.holds ensures h.0 in batches && InBatch(batches[h.0], h.1) && batches[h.0].mode == Substitution {
      var i :| 0 <= i < |s.batches[h.0].items| && OrderAt(s.batches[h.0].items, i) == h.1;
      assert OrderAt(batches[h.0].items, i) == h.1;
    }
  }

  lemma {:induction false} ReserveIsAttached(s: State, id: string, o: string, w: string, wants: map<string, Want>)
    requires Attached(s) && Serves(s.batches, id, o)
    ensures Attached(s.(ledger := Reserved(s.ledger, id, o, w, wants).1))
  {
    var r := Reserved(s.ledger, id, o, w, wants).1;
    ReserveTouchesOnlyItsOrder(s.ledger, id, o, w, wants);
    var i :| 0 <= i < |s.batches[id].items| && s.batches[id].items[i].order == o;
    assert OrderAt(s.batches[id].items, i) == o;
    forall h | h in r.holds ensures h.0 in s.batches && InBatch(s.batches[h.0], h.1) && s.batches[h.0].mode == Substitution {
      if !(h.0 == id && h.1 == o) { assert h in s.ledger.holds; }
    }
    forall k | k in r.budgets ensures k.0 in s.batches {
      if k.0 != id { assert k in s.ledger.budgets; }
    }
  }

  ghost predicate CapacitiesKept(s: State, r: State) {
    forall k | k in s.ledger.budgets :: k in r.ledger.budgets && r.ledger.budgets[k].capacity == s.ledger.budgets[k].capacity
  }

  /** What one ledger event leaves behind: a balanced, attached ledger with every old capacity. */
  ghost predicate LedgerKept(s: State, r: State) {
    r.batches == s.batches && Conserved(r.ledger) && Attached(r) && CapacitiesKept(s, r)
  }

  lemma {:induction false} ReserveKeepsLedger(s: State, id: string, order: string, warehouse: string, raw: seq<RawItem>)
    requires Invariant(s)
    ensures LedgerKept(s, ReserveEvent(s, id, order, warehouse, raw).1)
  {
    match Request(order, warehouse, raw)
    case None =>
    case Some((o, w, wants)) =>
      if Serves(s.batches, id, o) {
        ReserveConserves(s.ledger, id, o, w, wants);
        ReserveIsAttached(s, id, o, w, wants);
        ReserveTouchesOnlyItsOrder(s.ledger, id, o, w, wants);
      }
  }

  lemma {:induction false} ReleaseKeepsLedger(s: State, id: string, o: string)
    requires Invariant(s)
    ensures LedgerKept(s, ReleasedIn(s, id, o))
  {
    ReleaseConserves(s.ledger, id, o);
    ReleaseTouchesOnlyItsOrder(s.ledger, id, o);
  }

  /** Every transaction keeps the invariant, and every capacity once recorded. */
  lemma {:induction false} EventKeepsInvariant(s: State, e: Event)
    requires Invariant(s) && Possible(e)
    ensures Invariant(Next(s, e)) && CapacitiesKept(s, Next(s, e))
  {
    BatchEventIsSound(s, e);
    if e.Reserve? {
      ReserveKeepsLedger(s, e.id, e.order, e.warehouse, e.raw);
    } else if e.Release? {
      ReleaseKeepsLedger(s, e.id, Text.Trim(e.order));
    } else {
      EventKeeps(s, e);
      assert Next(s, e) == s.(batches := Next(s, e).batches);
      AttachedStays(s, Next(s, e).batches);
    }
  }

  ghost predicate AllPossible(events: seq<Event>) {
    forall i | 0 <= i < |events| :: Possible(events[i])
  }

  /** Over every run from a sound state: batches stay sound, budgets equal the sum of the reservations
      and stay within capacity, reservations stay attached, capacities never change. */
  lemma {:induction false} RunsKeepInvariant(s: State, events: seq<Event>)
    requires Invariant(s) && AllPossible(events)
    ensures Invariant(Run(s, events)) && CapacitiesKept(s, Run(s, events))
  {
    if events != [] {
      var n := |events| - 1;
      assert AllPossible(events[..n]);
      RunsKeepInvariant(s, events[..n]);
      EventKeepsInvariant(Run(s, events[..n]), events[n]);
    }
  }

  // ---- the pick of a query is unique ----

  /** At most one batch of a mode runs, and no two running batches share an order. */
  lemma {:induction false} PicksAreUnique(s: State, a: string, b: string, o: string)
    requires Invariant(s)
    ensures IsRunning(s.batches, a) && IsRunning(s.batches, b) && s.batches[a].mode == s.batches[b].mode ==> a == b
    ensures Serves(s.batches, a, o) && Serves(s.batches, b, o) ==> a == b
    ensures HoldsIn(s, a, o) && HoldsIn(s, b, o) ==> a == b
  {
    if a in s.batches && b in s.batches && a != b {
      assert Apart(s.batches[a], s.batches[b]);
    }
  }

  // ---- the constraints of the schema ----

  ghost predicate OneRunningPerMode(batches: Batches) {
    forall a, b | IsRunning(batches, a) && IsRunning(batches, b) && batches[a].mode == batches[b].mode :: a == b
  }

  ghost predicate OrdersUnique(batch: Batch) {
    forall i, j | 0 <= i < j < |batch.items| :: OrderAt(batch.items, i) != OrderAt(batch.items, j)
  }

  predicate BudgetMeets(s: State, k: BudgetKey)
    requires k in s.ledger.budgets
  {
    k.0 in s.batches && 0 <= s.ledger.budgets[k].reserved <= s.ledger.budgets[k].capacity
  }

  predicate HoldMeets(s: State, h: HoldKey)
    requires h in s.ledger.holds
  {
    h.0 in s.batches && s.ledger.holds[h].quantity > 0 && (h.0, s.ledger.holds[h].warehouse, h.2) in s.ledger.budgets
  }

  /** The unique indexes, checks and foreign keys of the bulk tables. */
  ghost predicate MeetsSchema(s: State) {
    && OneRunningPerMode(s.batches) && (forall id | id in s.batches :: OrdersUnique(s.batches[id]))
    && (forall k | k in s.ledger.budgets :: BudgetMeets(s, k))
    && (forall h | h in s.ledger.holds :: HoldMeets(s, h))
  }

  lemma {:induction false} InvariantMeetsSchema(s: State)
    requires Invariant(s)
    ensures MeetsSchema(s)
  {
    forall a, b | IsRunning(s.batches, a) && IsRunning(s.batches, b) && s.batches[a].mode == s.batches[b].mode ensures a == b {
      PicksAreUnique(s, a, b, "");
    }
    assert forall id | id in s.batches :: WellFormed(s.batches[id]);
  }

  /** In every run from empty tables the rows after every transaction meet the schema: none of its constraints is
      what keeps the tables consistent. */
  lemma {:induction false} RunsMeetSchema(events: seq<Event>)
    requires AllPossible(events)
    ensures MeetsSchema(Run(EMPTY, events))
  {
    RunsKeepInvariant(EMPTY, events);
    InvariantMeetsSchema(Run(EMPTY, events));
  }
}
