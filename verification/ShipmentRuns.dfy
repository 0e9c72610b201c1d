/** Runs of operations on one order, in any order and with any upstream answers. */
module ShipmentRuns {
  import opened Common
  import opened Jobs
  import opened ShipmentRows
  import opened ShipmentOperations
  import opened ShipmentSafety

  datatype Event =
    | Purchase(id: string, open: bool, allowed: bool, detail: Detail, create: CreateAnswer, now: int)
    | Recover(allowed: bool, stocked: bool, detail: Detail, create: CreateAnswer, now: int)
    | Refresh(refresh: RefreshAnswer, now: int)
    | ConfirmShipped(known: bool, confirm: ConfirmAnswer, now: int)
    | Work(first: FirstPurchase, answers: seq<StepAnswer>, now: int)
    | EnsureJob
    | Enqueue
    | Restart
    | Repair(cutoff: int)

  function Next(s: Order, e: Event): Order {
    match e
    case Purchase(id, open, allowed, detail, create, now) => Purchased(s, id, open, allowed, detail, create, now).1
    case Recover(allowed, stocked, detail, create, now) => Recovered(s, allowed, stocked, detail, create, now).1
    case Refresh(refresh, now) => Refreshed(s, refresh, now).1
    case ConfirmShipped(known, confirm, now) => ShipConfirmed(s, known, confirm, now).1
    case Work(first, answers, now) => if Claimable(s) then RanAutoFulfillment(Claimed(s), first, answers, now) else s
    case EnsureJob => Ensured(s)
    case Enqueue => Enqueued(s)
    case Restart => RestartedJob(s)
    case Repair(cutoff) => Repaired(s, cutoff)
  }

  function Run(s: Order, events: seq<Event>): Order {
    if events == [] then s else Next(Run(s, events[..|events| - 1]), events[|events| - 1])
  }

  lemma {:induction false} NextIsFine(s: Order, e: Event)
    requires Safe(s)
    ensures Fine(s, Next(s, e))
  {
    FineReflexive(s);
    match e
    case Purchase(id, open, allowed, detail, create, now) => PurchasedIsFine(s, id, open, allowed, detail, create, now);
    case Recover(allowed, stocked, detail, create, now) => RecoveredIsFine(s, allowed, stocked, detail, create, now);
    case Refresh(refresh, now) => RefreshedIsFine(s, refresh, now);
    case ConfirmShipped(known, confirm, now) => ShipConfirmedIsFine(s, known, confirm, now);
    case Work(first, answers, now) =>
      if Claimable(s) {
        assert Fine(s, Claimed(s));
        RanIsFine(Claimed(s), first, answers, now);
        FineChains(s, Claimed(s), Next(s, e));
      }
    case EnsureJob =>
    case Enqueue =>
    case Restart =>
    case Repair(_) =>
  }

  lemma {:induction false} RunsAreFine(s: Order, events: seq<Event>)
    requires Safe(s)
    ensures Fine(s, Run(s, events))
  {
    if events == [] {
      FineReflexive(s);
    } else {
      var front := events[..|events| - 1];
      RunsAreFine(s, front);
      NextIsFine(Run(s, front), events[|events| - 1]);
      FineChains(s, Run(s, front), Run(s, events));
    }
  }

  lemma {:induction false} RunsCompose(s: Order, events: seq<Event>, n: nat)
    requires n <= |events|
    ensures Run(s, events) == Run(Run(s, events[..n]), events[n..])
  {
    if n == |events| {
      assert events[..n] == events;
    } else {
      var front := events[..|events| - 1];
      RunsCompose(s, front, n);
      assert front[..n] == events[..n];
      assert events[n..][..|events[n..]| - 1] == front[n..];
    }
  }

  /** No second label: in every run of an order from nothing, once a package is known it is never
      dropped or replaced, and `CreateShipment` is never called again. */
  lemma {:induction false} NoSecondLabel(events: seq<Event>, n: nat)
    requires n <= |events|
    ensures var (known, last) := (Run(UNTOUCHED, events[..n]), Run(UNTOUCHED, events));
            known.shipment.Some? && known.shipment.value.packages != [] ==>
              last.shipment.Some? && last.shipment.value.packages == known.shipment.value.packages && last.calls == known.calls
  {
    RunsCompose(UNTOUCHED, events, n);
    RunsAreFine(UNTOUCHED, events[..n]);
    RunsAreFine(Run(UNTOUCHED, events[..n]), events[n..]);
  }

  /** Every call of a run found a submitting shipment without packages, calls never outnumber the stored
      attempts, a status that needs packages has some, and the job is bound to the shipment. */
  lemma {:induction false} RunsAreSafe(events: seq<Event>)
    ensures Safe(Run(UNTOUCHED, events))
  {
    RunsAreFine(UNTOUCHED, events);
  }

  /** A repair candidate in a safe state already has its own job, in a status no worker is busy with. */
  predicate HasIdleJob(s: Order) {
    && s.shipment.Some? && s.job.Some? && s.job.value.shipment == Some(s.shipment.value.id)
    && s.job.value.status in {Queued, WaitingOms, JobCompleted, Skipped, JobFailed}
  }

  lemma {:induction false} StalledHasIdleJob(s: Order, cutoff: int)
    requires Safe(s) && Stalled(s, cutoff)
    ensures HasIdleJob(s)
  {
    match s.job.value.status
    case Queued | WaitingOms | JobCompleted | Skipped | JobFailed =>
    case JobRunning | WaitingLabel | Confirming =>
  }

  /** So in no run does the repair query meet a missing job or a job of another shipment. */
  lemma {:induction false} RepairFindsOnlyIdleJobs(events: seq<Event>, cutoff: int)
    ensures Stalled(Run(UNTOUCHED, events), cutoff) ==> HasIdleJob(Run(UNTOUCHED, events))
  {
    var s := Run(UNTOUCHED, events);
    RunsAreSafe(events);
    if Stalled(s, cutoff) { StalledHasIdleJob(s, cutoff); }
  }

  /** The statement for operator recovery would drop the packages of a failed label; only the service's
      check before it prevents that. */
  lemma {:induction false} RecoveryStatementAloneDropsPackages(s: Order, now: int)
    requires Safe(s) && s.shipment.Some? && s.shipment.value.packages != []
    ensures RecoveryPrepared(s, now).0 <==> s.shipment.value.status == LabelFailed && s.shipment.value.tracking == ""
    ensures RecoveryPrepared(s, now).0 ==> RecoveryPrepared(s, now).1.shipment.value.packages == []
    ensures forall allowed, stocked, detail, create :: Recovered(s, allowed, stocked, detail, create, now) == (Failure(false), s)
  {
  }

  // ---- a reachable row that statement would harm ----

  const BOUGHT := Purchase("S", true, true, NoDetail, Made(["P"]), 0)
  const FAILED_LABEL := Refresh(RefreshAnswer(NoDetail, Labels([Label(2, "", false)])), 0)

  lemma {:induction false} OneEvent(e: Event)
    ensures Run(UNTOUCHED, [e]) == Next(UNTOUCHED, e)
  {
    assert [e][..0] == [];
  }

  lemma {:induction false} TwoEvents(e: Event, f: Event)
    ensures Run(UNTOUCHED, [e, f]) == Next(Next(UNTOUCHED, e), f)
  {
    assert [e, f][..1] == [e];
    OneEvent(e);
  }

  /** A bought label that failed before it was tracked: the recovery statement alone would drop its package. */
  lemma {:induction false} RecoveryStatementReachesPackages()
    ensures var s := Run(UNTOUCHED, [BOUGHT, FAILED_LABEL]);
            var (ok, prepared) := RecoveryPrepared(s, 0);
            Safe(s) && s.shipment.Some? && s.shipment.value.packages == ["P"] && ok && prepared.shipment.value.packages == []
  {
    TwoEvents(BOUGHT, FAILED_LABEL);
    RunsAreFine(UNTOUCHED, [BOUGHT, FAILED_LABEL]);
    assert [Label(2, "", false)][..0] == [];
    assert Failing([Label(2, "", false)][0]);
  }
}
