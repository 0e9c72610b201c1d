/** Counting the upstream `CreateShipment` calls of an order. */
module ShipmentAttempts {
  import opened Common
  import opened Jobs
  import opened ShipmentRows
  import opened ShipmentOperations
  import opened ShipmentSafety
  import opened ShipmentRuns

  /** Every stored attempt made its call. */
  ghost predicate Settled(s: Order) {
    s.shipment.Some? ==> |s.calls| == s.shipment.value.attempts
  }

  /** The process did not stop between storing an attempt and making the call. */
  predicate Alive(answer: CreateAnswer) {
    answer != Died(false)
  }

  /** From `s` to `r` the attempts stay settled; with `capped`, they also do not grow beyond the limit. */
  ghost predicate Counted(s: Order, r: Order, alive: bool, capped: bool) {
    && (alive && Settled(s) ==> Settled(r))
    && (capped && r.shipment.Some? ==>
         r.shipment.value.attempts <= MAX_SUBMISSIONS
         || (s.shipment.Some? && r.shipment.value.attempts == s.shipment.value.attempts))
  }

  /** Nothing was attempted: same attempts, same calls. */
  ghost predicate Uncounted(s: Order, r: Order) {
    && r.calls == s.calls && r.shipment.Some? == s.shipment.Some?
    && (s.shipment.Some? ==> r.shipment.value.attempts == s.shipment.value.attempts)
  }

  lemma {:induction false} RefreshedIsUncounted(s: Order, answer: RefreshAnswer, now: int)
    ensures Uncounted(s, Refreshed(s, answer, now).1)
  {
  }

  lemma {:induction false} ShipConfirmedIsUncounted(s: Order, known: bool, answer: ConfirmAnswer, now: int)
    ensures Uncounted(s, ShipConfirmed(s, known, answer, now).1)
  {
  }

  lemma {:induction false} PurchasedIsCounted(s: Order, id: string, open: bool, allowed: bool, detail: Detail,
                                              answer: CreateAnswer, now: int)
    requires Safe(s)
    ensures Counted(s, Purchased(s, id, open, allowed, detail, answer, now).1, Alive(answer), s.shipment.None?)
  {
    var reserved := Reserved(s, id, now).1;
  }

  lemma {:induction false} UnknownRecoveredIsCounted(s: Order, refresh: RefreshAnswer, answer: CreateAnswer, now: int)
    ensures Counted(s, UnknownRecovered(s, refresh, answer, now).1, Alive(answer), true)
  {
    RefreshedIsUncounted(s, refresh, now);
    var r := Refreshed(s, refresh, now).1;
    var prepared := UnknownPrepared(r, MAX_SUBMISSIONS, now - RETRY_DELAY, now);
  }

  // ---- one iteration of the worker ----

  lemma {:induction false} JobIsCounted(s: Order, r: Order, id: string, alive: bool)
    requires Counted(s, r, alive, true)
    ensures forall status :: Counted(s, JobUpdated(r, id, status), alive, true)
  {
  }

  lemma {:induction false} FallbackIsCounted(s: Order, id: string, a: StepAnswer, now: int)
    ensures Counted(s, FallbackStep(s, id, a, now).s, Alive(a.create), true)
  {
    JobIsCounted(s, s, id, Alive(a.create));
    if s.shipment.Some? && MayFallBack(s.shipment.value) {
      JobIsCounted(s, Recovered(s, a.allowed, a.stocked, a.detail, a.create, now).1, id, Alive(a.create));
    }
  }

  lemma {:induction false} FailedStepIsCounted(s: Order, id: string, a: StepAnswer, now: int)
    requires s.shipment.Some?
    ensures Counted(s, FailedStep(s, id, a, now).s, Alive(a.create), true)
  {
    var r := Refreshed(s, a.refresh, now).1;
    RefreshedIsUncounted(s, a.refresh, now);
    JobIsCounted(s, r, id, Alive(a.create));
    FallbackIsCounted(s, id, a, now);
    FallbackIsCounted(r, id, a, now);
  }

  lemma {:induction false} SteppedIsCounted(s: Order, a: StepAnswer, now: int)
    ensures Counted(s, Stepped(s, a, now).s, Alive(a.create), true)
  {
    if s.shipment.Some? {
      var id := s.shipment.value.id;
      match s.shipment.value.status
      case SubmissionUnknown =>
        UnknownRecoveredIsCounted(s, a.refresh, a.create, now);
        JobIsCounted(s, UnknownRecovered(s, a.refresh, a.create, now).1, id, Alive(a.create));
      case Submitting | LabelPending =>
        RefreshedIsUncounted(s, a.refresh, now);
        JobIsCounted(s, Refreshed(s, a.refresh, now).1, id, Alive(a.create));
      case LabelReady | ConfirmFailed =>
        ShipConfirmedIsUncounted(JobUpdated(s, id, Confirming), a.known, a.confirm, now);
        JobIsCounted(s, ShipConfirmed(JobUpdated(s, id, Confirming), a.known, a.confirm, now).1, id, Alive(a.create));
      case Shipped =>
      case LabelFailed => FailedStepIsCounted(s, id, a, now);
    }
  }

  // ---- whole runs ----

  ghost predicate AllAlive(answers: seq<StepAnswer>) {
    forall i | 0 <= i < |answers| :: Alive(answers[i].create)
  }

  lemma {:induction false} LoopedIsCounted(s: Order, answers: seq<StepAnswer>, now: int, alive: bool)
    requires Safe(s) && (alive ==> AllAlive(answers))
    ensures Counted(s, Looped(s, answers, now), alive, true)
    decreases |answers|
  {
    if answers != [] {
      var r := Stepped(s, answers[0], now).s;
      SteppedIsCounted(s, answers[0], now);
      SteppedIsFine(s, answers[0], now);
      LoopedIsCounted(r, answers[1..], now, alive);
      LoopedIsFine(r, answers[1..], now);
    }
  }

  /** What a worker pass is given: the answers for the first purchase and for the iterations. */
  predicate WorkAlive(first: FirstPurchase, answers: seq<StepAnswer>) {
    (first.Bought? ==> Alive(first.create)) && forall i | 0 <= i < |answers| :: Alive(answers[i].create)
  }

  lemma {:induction false} RanIsCounted(s: Order, first: FirstPurchase, answers: seq<StepAnswer>, now: int)
    requires Safe(s)
    ensures Counted(s, RanAutoFulfillment(s, first, answers, now), WorkAlive(first, answers), true)
  {
    var alive := WorkAlive(first, answers);
    LoopedIsCounted(s, answers, now, alive);
    if s.shipment.None? && first.Bought? {
      var r := Purchased(s, first.id, true, true, NoDetail, first.create, now).1;
      PurchasedIsFine(s, first.id, true, true, NoDetail, first.create, now);
      PurchasedIsCounted(s, first.id, true, true, NoDetail, first.create, now);
      JobIsCounted(s, r, r.shipment.value.id, alive);
      BoughtLoopIsCounted(s, r, r, answers, now, alive);
      forall status ensures Counted(s, Looped(JobUpdated(r, r.shipment.value.id, status), answers, now), alive, true) {
        JobUpdatedIsFine(r, r.shipment.value.id, status);
        BoughtLoopIsCounted(s, r, JobUpdated(r, r.shipment.value.id, status), answers, now, alive);
      }
    }
  }

  lemma {:induction false} BoughtLoopIsCounted(s: Order, r: Order, t: Order, answers: seq<StepAnswer>, now: int,
                                               alive: bool)
    requires Counted(s, r, alive, true) && r.shipment.Some? && t.shipment == r.shipment && t.calls == r.calls
    requires Safe(t) && (alive ==> AllAlive(answers))
    ensures Counted(s, Looped(t, answers, now), alive, true)
  {
    LoopedIsCounted(t, answers, now, alive);
  }

  /** The events of a run without an operator: the worker, the queue and the repair. */
  predicate Automatic(e: Event) {
    e.Work? || e.EnsureJob? || e.Enqueue? || e.Restart? || e.Repair? || e.Refresh? || e.ConfirmShipped?
  }

  /** No process stopped between storing an attempt and calling. */
  predicate Uninterrupted(e: Event) {
    && (e.Work? ==> WorkAlive(e.first, e.answers))
    && (e.Purchase? ==> Alive(e.create)) && (e.Recover? ==> Alive(e.create))
  }

  lemma {:induction false} NextIsCounted(s: Order, e: Event)
    requires Safe(s)
    ensures Counted(s, Next(s, e), Uninterrupted(e), Automatic(e))
  {
    match e
    case Purchase(id, open, allowed, detail, create, now) => PurchasedIsCounted(s, id, open, allowed, detail, create, now);
    case Recover(allowed, stocked, detail, create, now) =>
    case Refresh(refresh, now) => RefreshedIsUncounted(s, refresh, now);
    case ConfirmShipped(known, confirm, now) => ShipConfirmedIsUncounted(s, known, confirm, now);
    case Work(first, answers, now) =>
      if Claimable(s) {
        RanIsCounted(Claimed(s), first, answers, now);
      }
    case EnsureJob =>
    case Enqueue =>
    case Restart =>
    case Repair(_) =>
  }

  /** Without an interruption between storing an attempt and calling, the stored attempts are the calls made. */
  lemma {:induction false} AttemptsAreCalls(events: seq<Event>)
    requires forall i | 0 <= i < |events| :: Uninterrupted(events[i])
    ensures Settled(Run(UNTOUCHED, events))
  {
    if events != [] {
      var front := events[..|events| - 1];
      AttemptsAreCalls(front);
      RunsAreSafe(front);
      NextIsCounted(Run(UNTOUCHED, front), events[|events| - 1]);
    }
  }

  /** Without an operator, `CreateShipment` is attempted at most three times for an order, interruptions or not. */
  lemma {:induction false} WorkerStopsAfterThree(events: seq<Event>)
    requires forall i | 0 <= i < |events| :: Automatic(events[i])
    ensures var s := Run(UNTOUCHED, events); s.shipment.Some? ==> s.shipment.value.attempts <= MAX_SUBMISSIONS
    ensures |Run(UNTOUCHED, events).calls| <= MAX_SUBMISSIONS
  {
    RunsAreSafe(events);
    if events != [] {
      var front := events[..|events| - 1];
      WorkerStopsAfterThree(front);
      RunsAreSafe(front);
      NextIsCounted(Run(UNTOUCHED, front), events[|events| - 1]);
    }
  }
}
