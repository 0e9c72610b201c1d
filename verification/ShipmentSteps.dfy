/** What each iteration of the worker makes of an order and where it leaves the job, written out on the stored
    fields. */
module ShipmentSteps {
  import opened Common
  import opened Jobs
  import opened ShipmentRows
  import opened ShipmentOperations
  import opened ShipmentSafety
  import opened ShipmentRuns
  import opened ShipmentJobs
  import opened ShipmentAnswers
  import Text

  /** The job is handed over; nothing else changes. */
  predicate HandedOver(s: Order, r: Order, id: string, status: JobStatus) {
    r == s.(job := Handed(s.job, id, status))
  }

  // ---- one iteration ----

  /** The pass stops, handing the job over with this status. */
  predicate StopsAt(step: Step, r: Order, id: string, status: JobStatus) {
    step.Halt? && HandedOver(r, step.s, id, status)
  }

  lemma {:induction false} UnknownStepMeans(s: Order, id: string, a: StepAnswer, now: int)
    ensures var (step, (outcome, r)) := (UnknownStep(s, id, a, now), UnknownRecovered(s, a.refresh, a.create, now));
            var unknown := r.shipment.Some? && r.shipment.value.status == SubmissionUnknown;
            var failed := r.shipment.Some? && r.shipment.value.status == LabelFailed;
            match outcome
            case Dead => step == Halt(r)
            case Success => if unknown then StopsAt(step, r, id, WaitingLabel) else step == Continue(r)
            case Exhausted => StopsAt(step, r, id, JobFailed)
            case Failure(_) => StopsAt(step, r, id, if failed || !a.temporary then JobFailed else WaitingLabel)
  {
  }

  lemma {:induction false} PendingStepMeans(s: Order, id: string, a: StepAnswer, now: int)
    ensures var (step, (outcome, r)) := (PendingStep(s, id, a, now), Refreshed(s, a.refresh, now));
            var status := if r.shipment.Some? then Some(r.shipment.value.status) else None;
            if outcome == Success then (if status == Some(LabelReady) then step == Continue(r) else StopsAt(step, r, id, WaitingLabel))
            else if status == Some(SubmissionUnknown) && r.shipment.value.problem.code == "PACKAGE_SN_MISSING"
            then StopsAt(step, r, id, WaitingLabel)
            else StopsAt(step, r, id, if status == Some(LabelFailed) || !a.temporary then JobFailed else WaitingLabel)
  {
  }

  /** A confirmation that failed for a temporary reason is tried again, unless it was the third counted one and no rate
      limit; any other failure ends the job. */
  lemma {:induction false} ConfirmStepMeans(s: Order, id: string, a: StepAnswer, now: int)
    requires s.job.Some? && s.job.value.status != JobCompleted
    ensures var (step, (outcome, r)) := (ConfirmStep(s, id, a, now), ShipConfirmed(JobUpdated(s, id, Confirming), a.known, a.confirm, now));
            var tries := if r.shipment.Some? then r.shipment.value.confirmations else 0;
            if outcome == Success then step == Continue(r)
            else StopsAt(step, r, id, if a.temporary && (a.limited || tries < 3) then Confirming else JobFailed)
  {
  }

  /** A shipped order is completed exactly when the warehouse system is done with it. */
  lemma {:induction false} ShippedStepMeans(s: Order, a: StepAnswer, now: int)
    requires HasStatus(s, Shipped)
    ensures StopsAt(Stepped(s, a, now), s, s.shipment.value.id,
                    if a.oms == OmsDone then JobCompleted else if a.oms == OmsManual then JobFailed else WaitingOms)
  {
  }

  /** A refused delivery address: packages already made need a person, otherwise another carrier may be tried. */
  predicate Unserved(sh: Shipment) {
    sh.status == LabelFailed && Text.Trim(sh.tracking) == "" && !sh.confirmed && sh.problem.coverage
  }

  lemma {:induction false} FallbackStepMeans(s: Order, id: string, a: StepAnswer, now: int)
    requires HasStatus(s, LabelFailed)
    ensures var (sh, step, (outcome, r)) := (s.shipment.value, FallbackStep(s, id, a, now), Recovered(s, a.allowed, a.stocked, a.detail, a.create, now));
            var again := Unserved(sh) && sh.packages == [] && sh.attempts < 3;
            if Unserved(sh) && sh.packages != [] then
              if a.recorded then StopsAt(step, s, id, if a.reviewed then Skipped else JobFailed) else step == Halt(s)
            else if again && !a.recorded then step == Halt(s)
            else if !again || !a.quoted then StopsAt(step, s, id, JobFailed)
            else
              match outcome
              case Dead => step == Halt(r)
              case Success | Exhausted => step == Continue(r)
              case Failure(shown) =>
                if shown && r.shipment.Some? && Unserved(r.shipment.value) && r.shipment.value.packages == [] && r.shipment.value.attempts < 3
                then step == Continue(r) else StopsAt(step, r, id, JobFailed)
  {
  }

  lemma {:induction false} FailedStepMeans(s: Order, id: string, a: StepAnswer, now: int)
    requires HasStatus(s, LabelFailed)
    ensures var (sh, step, (outcome, r)) := (s.shipment.value, FailedStep(s, id, a, now), Refreshed(s, a.refresh, now));
            if Unserved(sh) && sh.packages != [] then
              if outcome != Success then StopsAt(step, r, id, if a.temporary then WaitingLabel else JobFailed)
              else if r.shipment.Some? && r.shipment.value.status == LabelFailed then step == FallbackStep(r, id, a, now)
              else step == Continue(r)
            else step == FallbackStep(s, id, a, now)
  {
  }

  /** Which of these an iteration is. */
  lemma {:induction false} StepMeans(s: Order, a: StepAnswer, now: int)
    ensures s.shipment.None? ==> Stepped(s, a, now) == Halt(s)
    ensures s.shipment.Some? ==>
              var (id, status) := (s.shipment.value.id, s.shipment.value.status);
              && (status == SubmissionUnknown ==> Stepped(s, a, now) == UnknownStep(s, id, a, now))
              && (status == Submitting || status == LabelPending ==> Stepped(s, a, now) == PendingStep(s, id, a, now))
              && (status == LabelReady || status == ConfirmFailed ==> Stepped(s, a, now) == ConfirmStep(s, id, a, now))
              && (status == LabelFailed ==> Stepped(s, a, now) == FailedStep(s, id, a, now))
  {
  }

  // ---- whole passes ----

  /** The rows before each iteration as far as the pass goes on. */
  function Trail(s: Order, answers: seq<StepAnswer>, now: int): seq<Order>
    decreases |answers|
  {
    if answers == [] then [s]
    else
      match Stepped(s, answers[0], now)
      case Halt(r) => [s, r]
      case Continue(r) => [s] + Trail(r, answers[1..], now)
  }

  ghost predicate Follows(trail: seq<Order>, answers: seq<StepAnswer>, now: int) {
    && 1 <= |trail| <= |answers| + 1
    && (forall i | 0 <= i < |trail| - 1 :: trail[i + 1] == Stepped(trail[i], answers[i], now).s)
    && (forall i | 0 <= i < |trail| - 2 :: Stepped(trail[i], answers[i], now).Continue?)
  }

  /** A pass iterates until one iteration stops it; when none does, the job waits for the warehouse system. */
  lemma {:induction false} PassMeans(s: Order, answers: seq<StepAnswer>, now: int)
    ensures var (trail, r) := (Trail(s, answers, now), Looped(s, answers, now));
            var last := trail[|trail| - 1];
            && Follows(trail, answers, now) && trail[0] == s
            && (if |trail| >= 2 && Stepped(trail[|trail| - 2], answers[|trail| - 2], now).Halt? then r == last
                else |trail| == |answers| + 1 && if last.shipment.Some? then HandedOver(last, r, last.shipment.value.id, WaitingOms) else r == last)
    decreases |answers|
  {
    if answers != [] {
      var step := Stepped(s, answers[0], now);
      if step.Continue? {
        var rest := Trail(step.s, answers[1..], now);
        PassMeans(step.s, answers[1..], now);
        assert Trail(s, answers, now) == [s] + rest;
        assert forall i | 0 <= i < |rest| :: ([s] + rest)[i + 1] == rest[i];
        assert forall i | 0 <= i < |answers| - 1 :: answers[1..][i] == answers[i + 1];
      }
    }
  }

  /** What a first purchase that failed leaves to do: the pass goes on unless the label failed for good. */
  predicate AfterFailure(p: Order, r: Order, answers: seq<StepAnswer>, now: int) {
    p.shipment.Some? &&
    var (sh, failed) := (p.shipment.value, p.shipment.value.status == LabelFailed);
    if failed && !(Unserved(sh) && sh.packages == [] && sh.attempts < 3) then HandedOver(p, r, sh.id, JobFailed)
    else
      var next := JobUpdated(p, sh.id, if failed then JobRunning else WaitingLabel);
      HandedOver(p, next, sh.id, if failed then JobRunning else WaitingLabel) && r == Looped(next, answers, now)
  }

  /** How a pass begins: with the stored shipment, or with the first purchase of an order without one. */
  lemma {:induction false} PassBegins(s: Order, first: FirstPurchase, answers: seq<StepAnswer>, now: int)
    requires s.job.Some?
    ensures var r := RanAutoFulfillment(s, first, answers, now);
            if s.shipment.Some? then r == Looped(s, answers, now)
            else
              match first
              case NothingBought(status) => HandedOver(s, r, "", status)
              case Bought(id, create) =>
                var (outcome, p) := Purchased(s, id, true, true, NoDetail, create, now);
                match outcome
                case Dead => r == p
                case Success | Exhausted => r == Looped(p, answers, now)
                case Failure(_) => AfterFailure(p, r, answers, now)
  {
    if s.shipment.None? && first.Bought? {
      var p := Purchased(s, first.id, true, true, NoDetail, first.create, now).1;
      PurchaseMeans(s, first.id, true, true, NoDetail, first.create, now);
      UpdateMeans(p, p.shipment.value.id, JobRunning);
      UpdateMeans(p, p.shipment.value.id, WaitingLabel);
      UpdateMeans(p, p.shipment.value.id, JobFailed);
    }
  }
}
