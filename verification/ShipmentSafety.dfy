/** Over every run of operations on an order: no second label once a package is known, every upstream
    call accounted for, and the job always bound to the shipment. */
module ShipmentSafety {
  import opened Common
  import opened Jobs
  import opened ShipmentRows
  import opened ShipmentOperations

  // ---- the invariant ----

  predicate NeedsPackages(status: ShipmentStatus) {
    status in {LabelPending, LabelReady, ConfirmFailed, Shipped}
  }

  ghost predicate CleanCalls(calls: seq<Call>) {
    forall i | 0 <= i < |calls| :: calls[i] == Call(Submitting, [])
  }

  /** Some confirmation was answered with a success, or with "already shipped". */
  ghost predicate Accepted(answers: seq<ConfirmAnswer>) {
    exists i | 0 <= i < |answers| :: !answers[i].NotConfirmed?
  }

  /** The row agrees with the confirmations answered: it counts them, it is shipped and confirmed exactly when one of
      them was accepted, and a failed confirmation carries the last problem. */
  ghost predicate Confirms(sh: Shipment, answers: seq<ConfirmAnswer>) {
    && sh.confirmations == |answers|
    && (sh.confirmed <==> sh.status == Shipped) && (sh.status == Shipped <==> Accepted(answers))
    && (sh.status == ConfirmFailed ==> answers != [] && answers[|answers| - 1] == NotConfirmed(sh.problem))
  }

  ghost predicate Safe(s: Order) {
    && Bound(s) && CleanCalls(s.calls)
    && match s.shipment
       case None => s.calls == [] && s.answers == []
       case Some(sh) =>
         && (NeedsPackages(sh.status) ==> sh.packages != [])
         && (sh.status in {Submitting, SubmissionUnknown} ==> sh.packages == [])
         && Confirms(sh, s.answers)
         && |s.calls| <= sh.attempts && 1 <= sh.attempts
  }

  /** What is never lost from `s` to `r`. */
  ghost predicate Advances(s: Order, r: Order) {
    && |s.calls| <= |r.calls| && s.answers <= r.answers
    && (s.shipment.Some? ==>
         && r.shipment.Some? && r.shipment.value.id == s.shipment.value.id
         && s.shipment.value.attempts <= r.shipment.value.attempts
         && (s.shipment.value.packages != [] ==>
              r.shipment.value.packages == s.shipment.value.packages && r.calls == s.calls
              && r.shipment.value.attempts == s.shipment.value.attempts)
         && (s.shipment.value.status == Shipped ==> r.shipment == s.shipment))
  }

  /** One operation is safe and loses nothing. */
  ghost predicate Fine(s: Order, r: Order) {
    Safe(r) && Advances(s, r)
  }

  lemma {:induction false} FineChains(s: Order, r: Order, t: Order)
    requires Fine(s, r) && Fine(r, t)
    ensures Fine(s, t)
  {
  }

  // ---- statements ----

  lemma {:induction false} JobUpdatedIsFine(s: Order, id: string, status: JobStatus)
    requires Safe(s) && (s.shipment.Some? ==> id == s.shipment.value.id || id == "")
    ensures Fine(s, JobUpdated(s, id, status)) && JobUpdated(s, id, status).shipment == s.shipment
    ensures JobUpdated(s, id, status).calls == s.calls
  {
  }

  /** A freshly submitting shipment without packages, as `Submitted` finds it. */
  ghost predicate ReadyToSubmit(s: Order) {
    Safe(s) && s.shipment.Some? && s.shipment.value.status == Submitting && |s.calls| < s.shipment.value.attempts
  }

  // ---- operations ----

  lemma {:induction false} LabelsReadIsFine(s: Order, answer: LabelAnswer, now: int)
    requires Safe(s) && s.shipment.Some? && s.shipment.value.packages != [] && s.shipment.value.status != Shipped
    ensures Fine(s, LabelsRead(s, answer, now).1)
  {
    if answer.Labels? {
      var labels := answer.labels;
      var updated := ResultUpdated(s, LabelStatus(labels), FirstTracking(labels), LastProblem(labels), now);
      assert Fine(s, updated);
      JobUpdatedIsFine(updated, s.shipment.value.id, WaitingOms);
      FineChains(s, updated, LabelsRead(s, answer, now).1);
    }
  }

  lemma {:induction false} RefreshedIsFine(s: Order, answer: RefreshAnswer, now: int)
    requires Safe(s)
    ensures Fine(s, Refreshed(s, answer, now).1)
  {
    if s.shipment.Some? {
      if s.shipment.value.status == Shipped {
        JobUpdatedIsFine(s, s.shipment.value.id, WaitingOms);
      } else if s.shipment.value.packages != [] {
        LabelsReadIsFine(s, answer.labels, now);
      } else if answer.detail.Detail? && answer.detail.packages != [] {
        var updated := SubmissionUpdated(s, LabelPending, answer.detail.packages, NO_PROBLEM, now);
        LabelsReadIsFine(updated, answer.labels, now);
        FineChains(s, updated, LabelsRead(updated, answer.labels, now).1);
      }
    }
  }

  lemma {:induction false} SubmittedIsFine(s: Order, answer: CreateAnswer, now: int)
    requires ReadyToSubmit(s)
    ensures Fine(s, Submitted(s, answer, now).1)
  {
    var called := Called(s);
    match answer
    case Died(_) =>
    case Made(packages) =>
      FineChains(s, called, Submitted(s, answer, now).1);
    case Rejected(existing, unclear, problem, refresh) =>
      if existing && refresh.detail.Detail? && refresh.detail.packages != [] {
        var updated := SubmissionUpdated(called, LabelPending, refresh.detail.packages, NO_PROBLEM, now);
        RefreshedIsFine(updated, refresh, now);
        FineChains(s, called, updated);
        FineChains(s, updated, Refreshed(updated, refresh, now).1);
      } else {
        FineChains(s, called, Submitted(s, answer, now).1);
      }
  }

  lemma {:induction false} PurchasedIsFine(s: Order, id: string, open: bool, allowed: bool, detail: Detail,
                                           answer: CreateAnswer, now: int)
    requires Safe(s)
    ensures Fine(s, Purchased(s, id, open, allowed, detail, answer, now).1)
  {
    var (duplicate, reserved) := Reserved(s, id, now);
    if s.shipment.None? {
      SubmittedIsFine(reserved, answer, now);
      FineChains(s, reserved, Submitted(reserved, answer, now).1);
    } else if Retryable(s.shipment.value) && detail.Detail? {
      if detail.packages != [] {
        FineChains(s, reserved, SubmissionUpdated(reserved, LabelPending, detail.packages, NO_PROBLEM, now));
      } else {
        var prepared := RetryPrepared(reserved, now).1;
        FineChains(s, reserved, prepared);
        SubmittedIsFine(prepared, answer, now);
        FineChains(s, prepared, Submitted(prepared, answer, now).1);
      }
    }
  }

  lemma {:induction false} RecoveredIsFine(s: Order, allowed: bool, stocked: bool, detail: Detail,
                                           answer: CreateAnswer, now: int)
    requires Safe(s)
    ensures Fine(s, Recovered(s, allowed, stocked, detail, answer, now).1)
  {
    if s.shipment.Some? && MayRecover(s.shipment.value) && detail.Detail? {
      if detail.packages == [] && RecoveryPrepared(s, now).0 {
        var prepared := RecoveryPrepared(s, now).1;
        SubmittedIsFine(prepared, answer, now);
        FineChains(s, prepared, Submitted(prepared, answer, now).1);
      }
    }
  }

  lemma {:induction false} OneMoreAnswer(answers: seq<ConfirmAnswer>, answer: ConfirmAnswer)
    ensures Accepted(answers + [answer]) <==> Accepted(answers) || !answer.NotConfirmed?
  {
    var all := answers + [answer];
    if i :| 0 <= i < |answers| && !answers[i].NotConfirmed? { assert all[i] == answers[i]; }
    assert all[|answers|] == answer;
  }

  lemma {:induction false} ShipConfirmedIsFine(s: Order, known: bool, answer: ConfirmAnswer, now: int)
    requires Safe(s)
    ensures Fine(s, ShipConfirmed(s, known, answer, now).1)
  {
    if s.shipment.Some? {
      var id := s.shipment.value.id;
      if s.shipment.value.status == Shipped {
        JobUpdatedIsFine(s, id, WaitingOms);
      } else if s.shipment.value.status in {LabelReady, ConfirmFailed} && s.shipment.value.tracking != "" && known {
        OneMoreAnswer(s.answers, answer);
        var marked := MarkedConfirmed(Heard(ConfirmationRecorded(s, now).1, answer), now);
        if !answer.NotConfirmed? {
          assert Fine(s, marked);
          JobUpdatedIsFine(marked, id, WaitingOms);
          FineChains(s, marked, JobUpdated(marked, id, WaitingOms));
        }
      }
    }
  }

  lemma {:induction false} UnknownRecoveredIsFine(s: Order, refresh: RefreshAnswer, answer: CreateAnswer, now: int)
    requires Safe(s)
    ensures Fine(s, UnknownRecovered(s, refresh, answer, now).1)
  {
    var r := Refreshed(s, refresh, now).1;
    RefreshedIsFine(s, refresh, now);
    var (ok, prepared) := UnknownPrepared(r, MAX_SUBMISSIONS, now - RETRY_DELAY, now);
    if ok {
      SubmittedIsFine(prepared, answer, now);
      FineChains(s, r, prepared);
      FineChains(s, prepared, Submitted(prepared, answer, now).1);
    }
  }

  // ---- the worker ----

  ghost predicate JobsFine(s: Order, r: Order, id: string) {
    forall status :: Fine(s, JobUpdated(r, id, status))
  }

  lemma {:induction false} ThenAnyJob(s: Order, r: Order, id: string)
    requires Fine(s, r) && r.shipment.Some? && r.shipment.value.id == id
    ensures JobsFine(s, r, id)
  {
    forall status ensures Fine(s, JobUpdated(r, id, status)) {}
  }

  lemma {:induction false} UnknownStepIsFine(s: Order, id: string, a: StepAnswer, now: int)
    requires Safe(s) && s.shipment.Some? && s.shipment.value.id == id
    ensures Fine(s, UnknownStep(s, id, a, now).s)
  {
    UnknownRecoveredIsFine(s, a.refresh, a.create, now);
    ThenAnyJob(s, UnknownRecovered(s, a.refresh, a.create, now).1, id);
  }

  lemma {:induction false} PendingStepIsFine(s: Order, id: string, a: StepAnswer, now: int)
    requires Safe(s) && s.shipment.Some? && s.shipment.value.id == id
    ensures Fine(s, PendingStep(s, id, a, now).s)
  {
    RefreshedIsFine(s, a.refresh, now);
    ThenAnyJob(s, Refreshed(s, a.refresh, now).1, id);
  }

  lemma {:induction false} ConfirmStepIsFine(s: Order, id: string, a: StepAnswer, now: int)
    requires Safe(s) && s.shipment.Some? && s.shipment.value.id == id
    ensures Fine(s, ConfirmStep(s, id, a, now).s)
  {
    var confirming := JobUpdated(s, id, Confirming);
    var r := ShipConfirmed(confirming, a.known, a.confirm, now).1;
    JobUpdatedIsFine(s, id, Confirming);
    ShipConfirmedIsFine(confirming, a.known, a.confirm, now);
    FineChains(s, confirming, r);
    ThenAnyJob(s, r, id);
  }

  lemma {:induction false} FallbackStepIsFine(s: Order, id: string, a: StepAnswer, now: int)
    requires Safe(s) && s.shipment.Some? && s.shipment.value.id == id
    ensures Fine(s, FallbackStep(s, id, a, now).s)
  {
    FineReflexive(s);
    ThenAnyJob(s, s, id);
    RecoveredIsFine(s, a.allowed, a.stocked, a.detail, a.create, now);
    ThenAnyJob(s, Recovered(s, a.allowed, a.stocked, a.detail, a.create, now).1, id);
  }

  lemma {:induction false} FineReflexive(s: Order)
    requires Safe(s)
    ensures Fine(s, s)
  {
  }

  lemma {:induction false} FailedStepIsFine(s: Order, id: string, a: StepAnswer, now: int)
    requires Safe(s) && s.shipment.Some? && s.shipment.value.id == id
    ensures Fine(s, FailedStep(s, id, a, now).s)
  {
    var r := Refreshed(s, a.refresh, now).1;
    RefreshedIsFine(s, a.refresh, now);
    ThenAnyJob(s, r, id);
    FallbackStepIsFine(s, id, a, now);
    FallbackStepIsFine(r, id, a, now);
    FineChains(s, r, FallbackStep(r, id, a, now).s);
  }

  lemma {:induction false} SteppedIsFine(s: Order, a: StepAnswer, now: int)
    requires Safe(s)
    ensures Fine(s, Stepped(s, a, now).s)
  {
    if s.shipment.Some? {
      var id := s.shipment.value.id;
      match s.shipment.value.status
      case SubmissionUnknown => UnknownStepIsFine(s, id, a, now);
      case Submitting | LabelPending => PendingStepIsFine(s, id, a, now);
      case LabelReady | ConfirmFailed => ConfirmStepIsFine(s, id, a, now);
      case Shipped => FineReflexive(s); ThenAnyJob(s, s, id);
      case LabelFailed => FailedStepIsFine(s, id, a, now);
    }
  }

  lemma {:induction false} LoopedIsFine(s: Order, answers: seq<StepAnswer>, now: int)
    requires Safe(s)
    ensures Fine(s, Looped(s, answers, now))
    decreases |answers|
  {
    FineReflexive(s);
    if answers != [] {
      SteppedIsFine(s, answers[0], now);
      var r := Stepped(s, answers[0], now).s;
      LoopedIsFine(r, answers[1..], now);
      FineChains(s, r, Looped(r, answers[1..], now));
    }
  }

  lemma {:induction false} RanIsFine(s: Order, first: FirstPurchase, answers: seq<StepAnswer>, now: int)
    requires Safe(s)
    ensures Fine(s, RanAutoFulfillment(s, first, answers, now))
  {
    LoopedIsFine(s, answers, now);
    if s.shipment.None? {
      match first
      case NothingBought(status) => JobUpdatedIsFine(s, "", status);
      case Bought(id, create) =>
        var r := Purchased(s, id, true, true, NoDetail, create, now).1;
        PurchasedIsFine(s, id, true, true, NoDetail, create, now);
        BoughtLoop(s, r, answers, now);
    }
  }

  lemma {:induction false} BoughtLoop(s: Order, r: Order, answers: seq<StepAnswer>, now: int)
    requires Fine(s, r)
    ensures Fine(s, Looped(r, answers, now))
    ensures r.shipment.Some? ==> JobsFine(s, r, r.shipment.value.id)
    ensures r.shipment.Some? ==> forall status :: Fine(s, Looped(JobUpdated(r, r.shipment.value.id, status), answers, now))
  {
    LoopedIsFine(r, answers, now);
    FineChains(s, r, Looped(r, answers, now));
    if r.shipment.Some? {
      var id := r.shipment.value.id;
      ThenAnyJob(s, r, id);
      forall status ensures Fine(s, Looped(JobUpdated(r, id, status), answers, now)) {
        LoopedIsFine(JobUpdated(r, id, status), answers, now);
        FineChains(s, JobUpdated(r, id, status), Looped(JobUpdated(r, id, status), answers, now));
      }
    }
  }
}
