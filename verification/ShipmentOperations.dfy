/** The service operations on one order's shipment (internal/service/service.go), each atomic per order,
    as functions of the stored rows and of the upstream answers. */
module ShipmentOperations {
  import opened Common
  import opened Jobs
  import opened ShipmentRows
  import Text

  const MAX_SUBMISSIONS := 3
  const MAX_CONFIRMATIONS := 3
  const MAX_STEPS := 4
  const RETRY_DELAY := 120

  // ---- upstream answers ----

  /** The packages an order-detail query lists. */
  datatype Detail = NoDetail | Detail(packages: seq<string>)

  /** One package of a shipment result: label state 0 = pending, 2 and 3 = failed, others = ready. */
  datatype Label = Label(state: int, tracking: string, coverage: bool)
  datatype LabelAnswer = NoLabels | Labels(labels: seq<Label>)

  datatype RefreshAnswer = RefreshAnswer(detail: Detail, labels: LabelAnswer)

  /** The answer to one `CreateShipment` call. `existing`: already shipped or already requested;
      `unclear`: no definite rejection. `Died`: the process stopped before or after the call. */
  datatype CreateAnswer =
    | Made(packages: seq<string>)
    | Rejected(existing: bool, unclear: bool, problem: Problem, refresh: RefreshAnswer)
    | Died(called: bool)

  /** How an operation ended; `Failure(true)` returns the shipment beside its error. */
  datatype Outcome = Success | Failure(shown: bool) | Exhausted | Dead

  // ---- RefreshShipment ----

  predicate Failing(l: Label) {
    l.state == 2 || l.state == 3
  }

  function LabelStatus(labels: seq<Label>): ShipmentStatus {
    if labels == [] then LabelPending
    else if exists i | 0 <= i < |labels| :: Failing(labels[i]) then LabelFailed
    else if exists i | 0 <= i < |labels| :: labels[i].state == 0 then LabelPending
    else LabelReady
  }

  function FirstTracking(labels: seq<Label>): string {
    if labels == [] then ""
    else
      var n := |labels| - 1;
      if FirstTracking(labels[..n]) != "" then FirstTracking(labels[..n]) else labels[n].tracking
  }

  /** The code and text of the last failing label. */
  function LastProblem(labels: seq<Label>): Problem {
    if labels == [] then NO_PROBLEM
    else
      var n := |labels| - 1;
      if Failing(labels[n]) then Problem(if labels[n].state == 2 then "2" else "3", labels[n].coverage) else LastProblem(labels[..n])
  }

  /** The second half of a refresh: the packages are known. */
  function LabelsRead(s: Order, answer: LabelAnswer, now: int): (Outcome, Order)
    requires s.shipment.Some?
  {
    match answer
    case NoLabels => (Failure(true), s)
    case Labels(labels) =>
      var updated := ResultUpdated(s, LabelStatus(labels), FirstTracking(labels), LastProblem(labels), now);
      (Success, JobUpdated(updated, s.shipment.value.id, WaitingOms))
  }

  function Refreshed(s: Order, answer: RefreshAnswer, now: int): (Outcome, Order) {
    if s.shipment.None? then (Failure(false), s)
    else if s.shipment.value.status == Shipped then (Success, JobUpdated(s, s.shipment.value.id, WaitingOms))
    else if s.shipment.value.packages != [] then LabelsRead(s, answer.labels, now)
    else
      match answer.detail
      case NoDetail => (Failure(true), s)
      case Detail(packages) =>
        if packages == [] then (Failure(true), SubmissionUpdated(s, SubmissionUnknown, [], Problem(MISSING, false), now))
        else LabelsRead(SubmissionUpdated(s, LabelPending, packages, NO_PROBLEM, now), answer.labels, now)
  }

  // ---- submitReservedShipment ----

  /** The call itself: it records what it found. */
  function Called(s: Order): Order {
    if s.shipment.Some? then s.(calls := s.calls + [Call(s.shipment.value.status, s.shipment.value.packages)]) else s
  }

  function Submitted(s: Order, answer: CreateAnswer, now: int): (Outcome, Order) {
    match answer
    case Died(called) => (Dead, if called then Called(s) else s)
    case Made(packages) =>
      (Success, SubmissionUpdated(Called(s), if packages == [] then SubmissionUnknown else LabelPending, packages, NO_PROBLEM, now))
    case Rejected(existing, unclear, problem, refresh) =>
      if existing && refresh.detail.Detail? && refresh.detail.packages != []
      then
        var (outcome, r) := Refreshed(SubmissionUpdated(Called(s), LabelPending, refresh.detail.packages, NO_PROBLEM, now), refresh, now);
        (if outcome == Success then Success else Failure(true), r)
      else (Failure(true), SubmissionUpdated(Called(s), if unclear || existing then SubmissionUnknown else LabelFailed, [], problem, now))
  }

  // ---- Purchase ----

  /** `open`: the quote is valid and the order awaits shipment; `allowed`: the warehouse, carrier and
      inventory checks pass. */
  function Purchased(s: Order, id: string, open: bool, allowed: bool, detail: Detail, answer: CreateAnswer, now: int): (Outcome, Order) {
    if !open then (Failure(false), s)
    else if s.shipment.Some? && !Retryable(s.shipment.value) then (Success, s)
    else if !allowed then (Failure(false), s)
    else
      var (duplicate, reserved) := Reserved(s, id, now);
      if !duplicate then Submitted(reserved, answer, now)
      else
        match detail
        case NoDetail => (Failure(false), reserved)
        case Detail(packages) =>
          if packages != [] then (Success, SubmissionUpdated(reserved, LabelPending, packages, NO_PROBLEM, now))
          else
            var (ok, prepared) := RetryPrepared(reserved, now);
            if ok then Submitted(prepared, answer, now) else (Failure(false), reserved)
  }

  // ---- RecoverFailedShipment ----

  /** `validateFailedShipmentRecovery` */
  predicate MayRecover(sh: Shipment) {
    sh.status == LabelFailed && Text.Trim(sh.tracking) == "" && !sh.confirmed && sh.packages == []
  }

  /** `allowed`: the quote, order and carrier checks pass; `stocked`: the inventory was reserved. */
  function Recovered(s: Order, allowed: bool, stocked: bool, detail: Detail, answer: CreateAnswer, now: int): (Outcome, Order) {
    if s.shipment.None? || !MayRecover(s.shipment.value) || detail.NoDetail? then (Failure(false), s)
    else if detail.packages != [] then (Failure(false), SubmissionUpdated(s, LabelPending, detail.packages, NO_PROBLEM, now))
    else if !allowed then (Failure(false), s)
    else if !stocked then (Failure(true), s)
    else
      var (ok, prepared) := RecoveryPrepared(s, now);
      if ok then Submitted(prepared, answer, now) else (Failure(false), s)
  }

  // ---- ConfirmShipped ----

  /** The confirmation itself: it records what was answered. */
  function Heard(s: Order, answer: ConfirmAnswer): Order {
    s.(answers := s.answers + [answer])
  }

  function ShipConfirmed(s: Order, known: bool, answer: ConfirmAnswer, now: int): (Outcome, Order) {
    if s.shipment.None? then (Failure(false), s)
    else if s.shipment.value.status == Shipped then (Success, JobUpdated(s, s.shipment.value.id, WaitingOms))
    else if s.shipment.value.status !in {LabelReady, ConfirmFailed} || s.shipment.value.tracking == "" || !known then (Failure(true), s)
    else
      var recorded := Heard(ConfirmationRecorded(s, now).1, answer);
      match answer
      case Confirmed => (Success, JobUpdated(MarkedConfirmed(recorded, now), s.shipment.value.id, WaitingOms))
      case AlreadyShipped => (Success, MarkedConfirmed(recorded, now))
      case NotConfirmed(problem) => (Failure(true), ResultUpdated(recorded, ConfirmFailed, s.shipment.value.tracking, problem, now))
  }

  // ---- the worker ----

  /** `recoverUnknownShipment` */
  function UnknownRecovered(s: Order, refresh: RefreshAnswer, answer: CreateAnswer, now: int): (Outcome, Order) {
    if s.shipment.None? then (Failure(false), s)
    else if now < s.shipment.value.submittedAt + RETRY_DELAY then (Success, s)
    else
      var (outcome, r) := Refreshed(s, refresh, now);
      if outcome == Success || r.shipment.None? then (outcome, r)
      else if r.shipment.value.problem.code != MISSING then (outcome, r)
      else if r.shipment.value.attempts >= MAX_SUBMISSIONS then (Exhausted, r)
      else
        var (ok, prepared) := UnknownPrepared(r, MAX_SUBMISSIONS, now - RETRY_DELAY, now);
        if ok then Submitted(prepared, answer, now) else (Failure(true), r)
  }

  /** `automaticCarrierFallbackAllowed` */
  predicate MayFallBack(sh: Shipment) {
    sh.packages == [] && sh.problem.coverage && sh.attempts < MAX_SUBMISSIONS && MayRecover(sh)
  }

  /** `carrierCoverageNeedsManual` */
  predicate NeedsManual(sh: Shipment) {
    sh.status == LabelFailed && sh.packages != [] && Text.Trim(sh.tracking) == "" && !sh.confirmed && sh.problem.coverage
  }

  /** The answers one iteration of the worker may use. `temporary`: the error met is a temporary one,
      `limited`: it is a rate limit; `quoted`: a new quote was found; `reviewed`: the manual-review reason was stored;
      `recorded`: the failed carrier was. */
  datatype StepAnswer = StepAnswer(refresh: RefreshAnswer, create: CreateAnswer, known: bool, confirm: ConfirmAnswer,
                                   oms: OmsAnswer, temporary: bool, limited: bool, reviewed: bool, quoted: bool,
                                   allowed: bool, stocked: bool, detail: Detail, recorded: bool)

  datatype OmsAnswer = OmsManual | OmsError | OmsDone | OmsOpen

  function RetryStatus(temporary: bool, retry: JobStatus): JobStatus {
    if temporary then retry else JobFailed
  }

  predicate HasStatus(s: Order, status: ShipmentStatus) {
    s.shipment.Some? && s.shipment.value.status == status
  }

  /** The result of one iteration: go on, or stop. */
  datatype Step = Continue(s: Order) | Halt(s: Order)

  function UnknownStep(s: Order, id: string, a: StepAnswer, now: int): Step {
    var (outcome, r) := UnknownRecovered(s, a.refresh, a.create, now);
    match outcome
    case Dead => Halt(r)
    case Success => if HasStatus(r, SubmissionUnknown) then Halt(JobUpdated(r, id, WaitingLabel)) else Continue(r)
    case Exhausted => Halt(JobUpdated(r, id, JobFailed))
    case Failure(_) => Halt(JobUpdated(r, id, if HasStatus(r, LabelFailed) then JobFailed else RetryStatus(a.temporary, WaitingLabel)))
  }

  function PendingStep(s: Order, id: string, a: StepAnswer, now: int): Step {
    var (outcome, r) := Refreshed(s, a.refresh, now);
    if outcome == Success then (if HasStatus(r, LabelReady) then Continue(r) else Halt(JobUpdated(r, id, WaitingLabel)))
    else if HasStatus(r, SubmissionUnknown) && r.shipment.value.problem.code == MISSING then Halt(JobUpdated(r, id, WaitingLabel))
    else Halt(JobUpdated(r, id, if HasStatus(r, LabelFailed) then JobFailed else RetryStatus(a.temporary, WaitingLabel)))
  }

  function ConfirmStep(s: Order, id: string, a: StepAnswer, now: int): Step {
    var (outcome, r) := ShipConfirmed(JobUpdated(s, id, Confirming), a.known, a.confirm, now);
    if outcome == Success then Continue(r)
    else if a.temporary && !a.limited && r.shipment.Some? && r.shipment.value.confirmations >= MAX_CONFIRMATIONS
    then Halt(JobUpdated(r, id, JobFailed))
    else Halt(JobUpdated(r, id, RetryStatus(a.temporary, Confirming)))
  }

  function ShippedStep(s: Order, id: string, a: StepAnswer): Step {
    match a.oms
    case OmsManual => Halt(JobUpdated(s, id, JobFailed))
    case OmsError => Halt(JobUpdated(s, id, WaitingOms))
    case OmsDone => Halt(JobUpdated(s, id, JobCompleted))
    case OmsOpen => Halt(JobUpdated(s, id, WaitingOms))
  }

  /** A failed label: hand over to a person, try another carrier, or give up. */
  function FailedStep(s: Order, id: string, a: StepAnswer, now: int): Step
    requires s.shipment.Some?
  {
    if NeedsManual(s.shipment.value) then
      var (outcome, r) := Refreshed(s, a.refresh, now);
      if outcome != Success then Halt(JobUpdated(r, id, RetryStatus(a.temporary, WaitingLabel)))
      else if !HasStatus(r, LabelFailed) then Continue(r)
      else FallbackStep(r, id, a, now)
    else FallbackStep(s, id, a, now)
  }

  function FallbackStep(s: Order, id: string, a: StepAnswer, now: int): Step {
    if s.shipment.None? then Halt(s)
    else if !a.recorded && (NeedsManual(s.shipment.value) || MayFallBack(s.shipment.value)) then Halt(s)
    else if NeedsManual(s.shipment.value) then Halt(JobUpdated(s, id, if a.reviewed then Skipped else JobFailed))
    else if !MayFallBack(s.shipment.value) then Halt(JobUpdated(s, id, JobFailed))
    else if !a.quoted then Halt(JobUpdated(s, id, JobFailed))
    else
      var (outcome, r) := Recovered(s, a.allowed, a.stocked, a.detail, a.create, now);
      match outcome
      case Dead => Halt(r)
      case Success | Exhausted => Continue(r)
      case Failure(shown) =>
        if shown && r.shipment.Some? && MayFallBack(r.shipment.value) then Continue(r) else Halt(JobUpdated(r, id, JobFailed))
  }

  /** One iteration of the loop in `runAutoFulfillment`. */
  function Stepped(s: Order, a: StepAnswer, now: int): Step {
    if s.shipment.None? then Halt(s)
    else
      var id := s.shipment.value.id;
      match s.shipment.value.status
      case SubmissionUnknown => UnknownStep(s, id, a, now)
      case Submitting | LabelPending => PendingStep(s, id, a, now)
      case LabelReady | ConfirmFailed => ConfirmStep(s, id, a, now)
      case Shipped => ShippedStep(s, id, a)
      case LabelFailed => FailedStep(s, id, a, now)
  }

  /** The loop, one iteration for each answer (`MAX_STEPS` of them). */
  function Looped(s: Order, answers: seq<StepAnswer>, now: int): Order
    decreases |answers|
  {
    if answers == [] then (if s.shipment.Some? then JobUpdated(s, s.shipment.value.id, WaitingOms) else s)
    else
      match Stepped(s, answers[0], now)
      case Halt(r) => r
      case Continue(r) => Looped(r, answers[1..], now)
  }

  /** What the worker makes of an order without a shipment: nothing was bought, or one label was. */
  datatype FirstPurchase = NothingBought(status: JobStatus) | Bought(id: string, create: CreateAnswer)

  function RanAutoFulfillment(s: Order, first: FirstPurchase, answers: seq<StepAnswer>, now: int): Order {
    if s.shipment.Some? then Looped(s, answers, now)
    else
      match first
      case NothingBought(status) => JobUpdated(s, "", status)
      case Bought(id, create) =>
        var (outcome, r) := Purchased(s, id, true, true, NoDetail, create, now);
        match outcome
        case Dead => r
        case Success | Exhausted => Looped(r, answers, now)
        case Failure(_) =>
          if r.shipment.None? then r
          else if r.shipment.value.status == LabelFailed && !MayFallBack(r.shipment.value)
          then JobUpdated(r, r.shipment.value.id, JobFailed)
          else Looped(JobUpdated(r, r.shipment.value.id, if r.shipment.value.status == LabelFailed then JobRunning else WaitingLabel), answers, now)
  }
}
