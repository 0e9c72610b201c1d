/** The rows of one order as mutable state, with the store statements (internal/store/postgres.go) and the
    service operations (internal/service/service.go) as code over them. */
module ShipmentDesk {
  import opened Common
  import opened Jobs
  import opened ShipmentRows
  import opened ShipmentOperations
  import opened ShipmentSafety

  /** The loop over the packages of a shipment result. */
  method ReadLabels(labels: seq<Label>) returns (status: ShipmentStatus, tracking: string, problem: Problem)
    ensures status == LabelStatus(labels) && tracking == FirstTracking(labels) && problem == LastProblem(labels)
  {
    status, tracking, problem := LabelReady, "", NO_PROBLEM;
    for i := 0 to |labels|
      invariant status == if i == 0 then LabelReady else LabelStatus(labels[..i])
      invariant tracking == FirstTracking(labels[..i]) && problem == LastProblem(labels[..i])
    {
      assert labels[..i + 1][..i] == labels[..i];
      ghost var before := status;
      if tracking == "" {
        tracking := labels[i].tracking;
      }
      if labels[i].state == 0 {
        if status != LabelFailed {
          status := LabelPending;
        }
      } else if labels[i].state == 2 || labels[i].state == 3 {
        status := LabelFailed;
        problem := Problem(if labels[i].state == 2 then "2" else "3", labels[i].coverage);
      }
    }
    assert labels[..|labels|] == labels;
    if |labels| == 0 {
      status := LabelPending;
    }
  }

  class Desk {
    var shipment: Option<Shipment>
    var job: Option<Job>
    var calls: seq<Call>
    var answers: seq<ConfirmAnswer>

    function State(): Order
      reads this
    {
      Order(shipment, job, calls, answers)
    }

    constructor ()
      ensures State() == UNTOUCHED
    {
      shipment, job, calls, answers := None, None, [], [];
    }

    // ---- statements ----

    /** `ensureShipmentCompletionJob`, at the end of every transaction that writes a status. */
    method EnsureShipmentCompletionJob()
      modifies this`job
      ensures State() == Ensured(old(State()))
    {
      if shipment.Some? {
        var wanted := CompletionStatus(shipment.value.status);
        if job.None? {
          job := Some(Job(Some(shipment.value.id), wanted));
        } else if !Stands(job.value, shipment.value.id, wanted) {
          job := Some(Job(Some(shipment.value.id), wanted));
        }
      }
    }

    method Store(sh: Shipment)
      modifies this`shipment, this`job
      ensures State() == Written(old(State()), sh)
    {
      shipment := Some(sh);
      EnsureShipmentCompletionJob();
    }

    method ReserveShipment(id: string, now: int) returns (duplicate: bool)
      modifies this`shipment, this`job
      ensures (duplicate, State()) == Reserved(old(State()), id, now)
    {
      if shipment.Some? {
        EnsureShipmentCompletionJob();
        return true;
      }
      Store(Shipment(id, Submitting, [], "", NO_PROBLEM, 1, now, 0, false, now));
      return false;
    }

    method PrepareShipmentRetry(now: int) returns (ok: bool)
      modifies this`shipment, this`job
      ensures (ok, State()) == RetryPrepared(old(State()), now)
    {
      ok := shipment.Some? && (shipment.value.status == SubmissionUnknown || shipment.value.status == LabelFailed)
            && |shipment.value.packages| == 0;
      if ok {
        Store(Resubmitted(shipment.value, now));
      }
    }

    method PrepareFailedShipmentRecovery(now: int) returns (ok: bool)
      modifies this`shipment, this`job
      ensures (ok, State()) == RecoveryPrepared(old(State()), now)
    {
      ok := shipment.Some? && shipment.value.status == LabelFailed && shipment.value.tracking == "" && !shipment.value.confirmed;
      if ok {
        Store(Resubmitted(shipment.value, now));
      }
    }

    method PrepareUnknownShipmentRetry(maxAttempts: int, before: int, now: int) returns (ok: bool)
      modifies this`shipment
      ensures (ok, State()) == UnknownPrepared(old(State()), maxAttempts, before, now)
    {
      ok := shipment.Some? && shipment.value.status == SubmissionUnknown && |shipment.value.packages| == 0
            && shipment.value.attempts < maxAttempts && shipment.value.submittedAt <= before;
      if ok {
        shipment := Some(shipment.value.(status := Submitting, problem := NO_PROBLEM, attempts := shipment.value.attempts + 1,
                                         submittedAt := now, updatedAt := now));
      }
    }

    method UpdateShipmentSubmission(status: ShipmentStatus, packages: seq<string>, problem: Problem, now: int)
      modifies this`shipment, this`job
      ensures State() == SubmissionUpdated(old(State()), status, packages, problem, now)
    {
      if shipment.Some? {
        Store(shipment.value.(status := status, packages := packages, problem := problem, updatedAt := now));
      }
    }

    method UpdateShipmentResult(status: ShipmentStatus, tracking: string, problem: Problem, now: int)
      modifies this`shipment, this`job
      ensures State() == ResultUpdated(old(State()), status, tracking, problem, now)
    {
      if shipment.Some? {
        var kept := if tracking == "" then shipment.value.tracking else tracking;
        Store(shipment.value.(status := status, tracking := kept, problem := problem, updatedAt := now));
      }
    }

    method MarkShipmentConfirmed(now: int)
      modifies this`shipment, this`job
      ensures State() == MarkedConfirmed(old(State()), now)
    {
      if shipment.Some? {
        Store(shipment.value.(status := Shipped, problem := NO_PROBLEM, updatedAt := now, confirmed := true));
      }
    }

    method RecordShipmentConfirmationAttempt(now: int) returns (ok: bool)
      modifies this`shipment
      ensures (ok, State()) == ConfirmationRecorded(old(State()), now)
    {
      ok := shipment.Some? && (shipment.value.status == LabelReady || shipment.value.status == ConfirmFailed);
      if ok {
        shipment := Some(shipment.value.(confirmations := shipment.value.confirmations + 1, updatedAt := now));
      }
    }

    method UpdateAutoFulfillment(id: string, status: JobStatus)
      modifies this`job
      ensures State() == JobUpdated(old(State()), id, status)
    {
      if job.Some? && (job.value.status != JobCompleted || status == JobCompleted) {
        job := Some(Job(if id == "" then job.value.shipment else Some(id), status));
      }
    }

    // ---- operations ----

    method RefreshShipment(answer: RefreshAnswer, now: int) returns (outcome: Outcome)
      modifies this`shipment, this`job
      ensures (outcome, State()) == Refreshed(old(State()), answer, now)
      ensures Safe(old(State())) ==> Fine(old(State()), State())
    {
      if Safe(State()) { RefreshedIsFine(State(), answer, now); }
      if shipment.None? {
        return Failure(false);
      }
      if shipment.value.status == Shipped {
        UpdateAutoFulfillment(shipment.value.id, WaitingOms);
        return Success;
      }
      if |shipment.value.packages| == 0 {
        if answer.detail.NoDetail? {
          return Failure(true);
        }
        if |answer.detail.packages| == 0 {
          UpdateShipmentSubmission(SubmissionUnknown, [], Problem(MISSING, false), now);
          return Failure(true);
        }
        UpdateShipmentSubmission(LabelPending, answer.detail.packages, NO_PROBLEM, now);
      }
      if answer.labels.NoLabels? {
        return Failure(true);
      }
      var status, tracking, problem := ReadLabels(answer.labels.labels);
      UpdateShipmentResult(status, tracking, problem, now);
      UpdateAutoFulfillment(shipment.value.id, WaitingOms);
      return Success;
    }

    /** The upstream call; the model only records what it found. */
    method CreateShipment()
      modifies this`calls
      ensures State() == Called(old(State()))
    {
      if shipment.Some? {
        calls := calls + [Call(shipment.value.status, shipment.value.packages)];
      }
    }

    method SubmitReservedShipment(answer: CreateAnswer, now: int) returns (outcome: Outcome)
      modifies this
      ensures (outcome, State()) == Submitted(old(State()), answer, now)
      ensures ReadyToSubmit(old(State())) ==> Fine(old(State()), State())
    {
      if ReadyToSubmit(State()) { SubmittedIsFine(State(), answer, now); }
      if answer == Died(false) {
        return Dead;
      }
      CreateShipment();
      match answer {
        case Died(_) =>
          return Dead;
        case Made(packages) =>
          var status := if |packages| == 0 then SubmissionUnknown else LabelPending;
          UpdateShipmentSubmission(status, packages, NO_PROBLEM, now);
          return Success;
        case Rejected(existing, unclear, problem, refresh) =>
          if existing && refresh.detail.Detail? && |refresh.detail.packages| > 0 {
            UpdateShipmentSubmission(LabelPending, refresh.detail.packages, NO_PROBLEM, now);
            outcome := RefreshShipment(refresh, now);
            return if outcome == Success then Success else Failure(true);
          }
          var status := LabelFailed;
          if unclear || existing {
            status := SubmissionUnknown;
          }
          UpdateShipmentSubmission(status, [], problem, now);
          return Failure(true);
      }
    }

    method Purchase(id: string, open: bool, allowed: bool, detail: Detail, answer: CreateAnswer, now: int) returns (outcome: Outcome)
      modifies this
      ensures (outcome, State()) == Purchased(old(State()), id, open, allowed, detail, answer, now)
      ensures Safe(old(State())) ==> Fine(old(State()), State())
    {
      if Safe(State()) { PurchasedIsFine(State(), id, open, allowed, detail, answer, now); }
      if !open {
        return Failure(false);
      }
      if shipment.Some? && !Retryable(shipment.value) {
        return Success;
      }
      if !allowed {
        return Failure(false);
      }
      var duplicate := ReserveShipment(id, now);
      if duplicate {
        if detail.NoDetail? {
          return Failure(false);
        }
        if |detail.packages| > 0 {
          UpdateShipmentSubmission(LabelPending, detail.packages, NO_PROBLEM, now);
          return Success;
        }
        var prepared := PrepareShipmentRetry(now);
        if !prepared {
          return Failure(false);
        }
      }
      outcome := SubmitReservedShipment(answer, now);
    }

    method RecoverFailedShipment(allowed: bool, stocked: bool, detail: Detail, answer: CreateAnswer, now: int) returns (outcome: Outcome)
      modifies this
      ensures (outcome, State()) == Recovered(old(State()), allowed, stocked, detail, answer, now)
      ensures Safe(old(State())) ==> Fine(old(State()), State())
    {
      if Safe(State()) { RecoveredIsFine(State(), allowed, stocked, detail, answer, now); }
      if shipment.None? || !MayRecover(shipment.value) {
        return Failure(false);
      }
      if detail.NoDetail? {
        return Failure(false);
      }
      if |detail.packages| > 0 {
        UpdateShipmentSubmission(LabelPending, detail.packages, NO_PROBLEM, now);
        return Failure(false);
      }
      if !allowed {
        return Failure(false);
      }
      if !stocked {
        return Failure(true);
      }
      var prepared := PrepareFailedShipmentRecovery(now);
      if !prepared {
        return Failure(false);
      }
      outcome := SubmitReservedShipment(answer, now);
    }

    /** The confirmation at the platform; the model only records its answer. */
    method ConfirmUpstream(answer: ConfirmAnswer)
      modifies this`answers
      ensures State() == Heard(old(State()), answer)
    {
      answers := answers + [answer];
    }

    method ConfirmShipped(known: bool, answer: ConfirmAnswer, now: int) returns (outcome: Outcome)
      modifies this`shipment, this`job, this`answers
      ensures (outcome, State()) == ShipConfirmed(old(State()), known, answer, now)
      ensures Safe(old(State())) ==> Fine(old(State()), State())
    {
      if Safe(State()) { ShipConfirmedIsFine(State(), known, answer, now); }
      if shipment.None? {
        return Failure(false);
      }
      if shipment.value.status == Shipped {
        UpdateAutoFulfillment(shipment.value.id, WaitingOms);
        return Success;
      }
      if shipment.value.status != LabelReady && shipment.value.status != ConfirmFailed {
        return Failure(true);
      }
      if shipment.value.tracking == "" || !known {
        return Failure(true);
      }
      var tracking := shipment.value.tracking;
      var _ := RecordShipmentConfirmationAttempt(now);
      ConfirmUpstream(answer);
      match answer {
        case AlreadyShipped =>
          MarkShipmentConfirmed(now);
          return Success;
        case NotConfirmed(problem) =>
          UpdateShipmentResult(ConfirmFailed, tracking, problem, now);
          return Failure(true);
        case Confirmed =>
          MarkShipmentConfirmed(now);
          UpdateAutoFulfillment(shipment.value.id, WaitingOms);
          return Success;
      }
    }

    method RecoverUnknownShipment(refresh: RefreshAnswer, answer: CreateAnswer, now: int) returns (outcome: Outcome)
      modifies this
      ensures (outcome, State()) == UnknownRecovered(old(State()), refresh, answer, now)
      ensures Safe(old(State())) ==> Fine(old(State()), State())
    {
      if Safe(State()) { UnknownRecoveredIsFine(State(), refresh, answer, now); }
      if shipment.None? {
        return Failure(false);
      }
      if now < shipment.value.submittedAt + RETRY_DELAY {
        return Success;
      }
      outcome := RefreshShipment(refresh, now);
      if outcome == Success || shipment.None? || shipment.value.problem.code != MISSING {
        return;
      }
      if shipment.value.attempts >= MAX_SUBMISSIONS {
        return Exhausted;
      }
      var prepared := PrepareUnknownShipmentRetry(MAX_SUBMISSIONS, now - RETRY_DELAY, now);
      if !prepared {
        return Failure(true);
      }
      outcome := SubmitReservedShipment(answer, now);
    }

    // ---- the worker ----

    method UnknownCase(id: string, a: StepAnswer, now: int) returns (go: bool)
      modifies this
      ensures (if go then Continue(State()) else Halt(State())) == UnknownStep(old(State()), id, a, now)
    {
      var outcome := RecoverUnknownShipment(a.refresh, a.create, now);
      if outcome == Dead {
        return false;
      }
      if outcome != Success {
        var next := if a.temporary then WaitingLabel else JobFailed;
        if HasStatus(State(), LabelFailed) || outcome == Exhausted {
          next := JobFailed;
        }
        UpdateAutoFulfillment(id, next);
        return false;
      }
      if !HasStatus(State(), SubmissionUnknown) {
        return true;
      }
      UpdateAutoFulfillment(id, WaitingLabel);
      return false;
    }

    method PendingCase(id: string, a: StepAnswer, now: int) returns (go: bool)
      modifies this
      ensures (if go then Continue(State()) else Halt(State())) == PendingStep(old(State()), id, a, now)
    {
      var outcome := RefreshShipment(a.refresh, now);
      if outcome != Success {
        var next := if a.temporary then WaitingLabel else JobFailed;
        if HasStatus(State(), LabelFailed) {
          next := JobFailed;
        }
        if HasStatus(State(), SubmissionUnknown) && shipment.value.problem.code == MISSING {
          next := WaitingLabel;
        }
        UpdateAutoFulfillment(id, next);
        return false;
      }
      if HasStatus(State(), LabelReady) {
        return true;
      }
      UpdateAutoFulfillment(id, WaitingLabel);
      return false;
    }

    method ConfirmCase(id: string, a: StepAnswer, now: int) returns (go: bool)
      modifies this
      ensures (if go then Continue(State()) else Halt(State())) == ConfirmStep(old(State()), id, a, now)
    {
      UpdateAutoFulfillment(id, Confirming);
      var outcome := ConfirmShipped(a.known, a.confirm, now);
      if outcome == Success {
        return true;
      }
      var next := if a.temporary then Confirming else JobFailed;
      if next == Confirming && shipment.Some? && shipment.value.confirmations >= MAX_CONFIRMATIONS && !a.limited {
        next := JobFailed;
      }
      UpdateAutoFulfillment(id, next);
      return false;
    }

    method FallbackCase(id: string, a: StepAnswer, now: int) returns (go: bool)
      modifies this
      ensures (if go then Continue(State()) else Halt(State())) == FallbackStep(old(State()), id, a, now)
    {
      if shipment.None? {
        return false;
      }
      if NeedsManual(shipment.value) {
        if !a.recorded {
          return false;
        }
        UpdateAutoFulfillment(id, if a.reviewed then Skipped else JobFailed);
        return false;
      }
      if MayFallBack(shipment.value) && !a.recorded {
        return false;
      }
      if MayFallBack(shipment.value) && a.quoted {
        var outcome := RecoverFailedShipment(a.allowed, a.stocked, a.detail, a.create, now);
        if outcome == Dead {
          return false;
        }
        if !outcome.Failure? || (outcome.shown && shipment.Some? && MayFallBack(shipment.value)) {
          return true;
        }
      }
      UpdateAutoFulfillment(id, JobFailed);
      return false;
    }

    method FailedCase(id: string, a: StepAnswer, now: int) returns (go: bool)
      requires shipment.Some?
      modifies this
      ensures (if go then Continue(State()) else Halt(State())) == FailedStep(old(State()), id, a, now)
    {
      if NeedsManual(shipment.value) {
        var outcome := RefreshShipment(a.refresh, now);
        if outcome != Success {
          UpdateAutoFulfillment(id, if a.temporary then WaitingLabel else JobFailed);
          return false;
        }
        if !HasStatus(State(), LabelFailed) {
          return true;
        }
      }
      go := FallbackCase(id, a, now);
    }

    /** One iteration of the worker's loop. */
    method Iterate(a: StepAnswer, now: int) returns (go: bool)
      modifies this
      ensures (if go then Continue(State()) else Halt(State())) == Stepped(old(State()), a, now)
      ensures Safe(old(State())) ==> Fine(old(State()), State())
    {
      if Safe(State()) { SteppedIsFine(State(), a, now); }
      if shipment.None? {
        return false;
      }
      var id := shipment.value.id;
      match shipment.value.status {
        case SubmissionUnknown => go := UnknownCase(id, a, now);
        case Submitting | LabelPending => go := PendingCase(id, a, now);
        case LabelReady | ConfirmFailed => go := ConfirmCase(id, a, now);
        case LabelFailed => go := FailedCase(id, a, now);
        case Shipped =>
          match a.oms {
            case OmsManual => UpdateAutoFulfillment(id, JobFailed);
            case OmsError => UpdateAutoFulfillment(id, WaitingOms);
            case OmsDone => UpdateAutoFulfillment(id, JobCompleted);
            case OmsOpen => UpdateAutoFulfillment(id, WaitingOms);
          }
          return false;
      }
    }

    method Loop(answers: seq<StepAnswer>, now: int)
      modifies this
      ensures State() == Looped(old(State()), answers, now)
    {
      for step := 0 to |answers|
        invariant Looped(old(State()), answers, now) == Looped(State(), answers[step..], now)
      {
        assert answers[step..][1..] == answers[step + 1..];
        var go := Iterate(answers[step], now);
        if !go {
          return;
        }
      }
      if shipment.Some? {
        UpdateAutoFulfillment(shipment.value.id, WaitingOms);
      }
    }

    method RunAutoFulfillment(first: FirstPurchase, answers: seq<StepAnswer>, now: int)
      requires |answers| == MAX_STEPS
      modifies this
      ensures State() == RanAutoFulfillment(old(State()), first, answers, now)
      ensures Safe(old(State())) ==> Fine(old(State()), State())
    {
      if Safe(State()) { RanIsFine(State(), first, answers, now); }
      if shipment.None? {
        if first.NothingBought? {
          UpdateAutoFulfillment("", first.status);
          return;
        }
        var outcome := Purchase(first.id, true, true, NoDetail, first.create, now);
        if outcome == Dead || (outcome.Failure? && shipment.None?) {
          return;
        }
        if outcome.Failure? {
          var next := WaitingLabel;
          if shipment.value.status == LabelFailed {
            next := if MayFallBack(shipment.value) then JobRunning else JobFailed;
          }
          UpdateAutoFulfillment(shipment.value.id, next);
          if next == JobFailed {
            return;
          }
        }
      }
      Loop(answers, now);
    }
  }
}
