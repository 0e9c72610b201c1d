/** The shipment row and the completion job of one order, and the statements that write them
    (internal/store/postgres.go). */
module ShipmentRows {
  import opened Common
  import opened Jobs
  import Text

  datatype ShipmentStatus = Submitting | LabelPending | LabelReady | LabelFailed | SubmissionUnknown | ConfirmFailed | Shipped

  /** The stored error; `coverage` says that its text calls the delivery address unsupported. */
  datatype Problem = Problem(code: string, coverage: bool)

  const NO_PROBLEM := Problem("", false)
  const MISSING := "PACKAGE_SN_MISSING"

  datatype Shipment = Shipment(id: string, status: ShipmentStatus, packages: seq<string>, tracking: string, problem: Problem,
                               attempts: nat, submittedAt: int, confirmations: nat, confirmed: bool, updatedAt: int)

  datatype Job = Job(shipment: Option<string>, status: JobStatus)

  /** What one upstream `CreateShipment` call found in the shipment row. */
  datatype Call = Call(status: ShipmentStatus, packages: seq<string>)

  /** What the platform answers to a confirmation. */
  datatype ConfirmAnswer = Confirmed | AlreadyShipped | NotConfirmed(problem: Problem)

  /** `calls` and `answers` record the `CreateShipment` calls made and the confirmations answered so far. */
  datatype Order = Order(shipment: Option<Shipment>, job: Option<Job>, calls: seq<Call>, answers: seq<ConfirmAnswer>)

  const UNTOUCHED := Order(None, None, [], [])

  // ---- jobs ----

  function CompletionStatus(status: ShipmentStatus): JobStatus {
    match status
    case Submitting | LabelPending | SubmissionUnknown => WaitingLabel
    case LabelReady | ConfirmFailed => Confirming
    case LabelFailed => JobFailed
    case Shipped => WaitingOms
  }

  /** A job of this shipment whose status may stand when `wanted` is due. */
  predicate Stands(job: Job, id: string, wanted: JobStatus) {
    && job.shipment == Some(id)
    && ((wanted == WaitingLabel && job.status in {Queued, JobRunning, WaitingLabel})
        || (wanted == Confirming && job.status in {JobRunning, Confirming})
        || (wanted == WaitingOms && job.status in {WaitingOms, JobCompleted}))
  }

  /** `ensureShipmentCompletionJobSQL` */
  function EnsuredJob(job: Option<Job>, id: string, wanted: JobStatus): Job {
    match job
    case None => Job(Some(id), wanted)
    case Some(j) => Job(Some(id), if Stands(j, id, wanted) then j.status else wanted)
  }

  /** A transaction that stores `shipment` and then ensures its job. */
  function Written(s: Order, shipment: Shipment): Order {
    s.(shipment := Some(shipment), job := Some(EnsuredJob(s.job, shipment.id, CompletionStatus(shipment.status))))
  }

  /** `UpdateAutoFulfillment`: a completed job only accepts `completed`; an empty id keeps the binding. */
  function JobUpdated(s: Order, id: string, status: JobStatus): Order {
    if s.job.Some? && (s.job.value.status != JobCompleted || status == JobCompleted)
    then s.(job := Some(Job(if id == "" then s.job.value.shipment else Some(id), status))) else s
  }

  function Enqueued(s: Order): Order {
    match s.job
    case None => s.(job := Some(Job(None, Queued)))
    case Some(j) => if j.status == JobFailed then s.(job := Some(j.(status := Queued))) else s
  }

  /** `ClaimAutoFulfillments`: finished jobs are never claimed. */
  predicate Claimable(s: Order) {
    s.job.Some? && s.job.value.status !in {JobCompleted, Skipped}
  }

  function Claimed(s: Order): Order {
    if Claimable(s) then s.(job := Some(s.job.value.(status := JobRunning))) else s
  }

  /** The CASE of `RestartBulkFulfillmentBatch`, as written there. */
  function RestartStatus(shipment: Option<Shipment>): JobStatus {
    if shipment.Some? && shipment.value.status == Shipped then WaitingOms
    else if shipment.Some? && shipment.value.status in {LabelReady, ConfirmFailed} then Confirming
    else if shipment.Some? && shipment.value.status in {Submitting, LabelPending, SubmissionUnknown} then WaitingLabel
    else if shipment.Some? && shipment.value.status == LabelFailed then JobFailed
    else Queued
  }

  /** A restarted item: a missing job is inserted, then every job gets the CASE status. */
  function RestartedJob(s: Order): Order {
    var j := if s.job.Some? then s.job.value else Job(None, Queued);
    s.(job := Some(Job(if s.shipment.Some? then Some(s.shipment.value.id) else j.shipment, RestartStatus(s.shipment))))
  }

  /** The stalled confirmations `repairShipmentCompletionJobsSQL` looks for. */
  predicate Stalled(s: Order, cutoff: int) {
    && s.shipment.Some? && s.shipment.value.status == LabelReady && !s.shipment.value.confirmed
    && s.shipment.value.confirmations == 0 && s.shipment.value.packages != [] && Text.Trim(s.shipment.value.tracking) != ""
    && s.shipment.value.updatedAt < cutoff
    && (s.job.None? || s.job.value.shipment != Some(s.shipment.value.id)
        || s.job.value.status !in {JobRunning, WaitingLabel, Confirming})
  }

  function Repaired(s: Order, cutoff: int): Order {
    if Stalled(s, cutoff) then s.(job := Some(Job(Some(s.shipment.value.id), Confirming))) else s
  }

  // ---- shipments ----

  function Ensured(s: Order): Order {
    if s.shipment.Some? then Written(s, s.shipment.value) else s
  }

  /** `ReserveShipment`: the order's only shipment row; a second reservation is a duplicate. */
  function Reserved(s: Order, id: string, now: int): (bool, Order) {
    if s.shipment.Some? then (true, Ensured(s))
    else (false, Written(s, Shipment(id, Submitting, [], "", NO_PROBLEM, 1, now, 0, false, now)))
  }

  function Resubmitted(sh: Shipment, now: int): Shipment {
    sh.(status := Submitting, packages := [], tracking := "", problem := NO_PROBLEM, attempts := sh.attempts + 1,
        submittedAt := now, updatedAt := now, confirmed := false)
  }

  predicate Retryable(sh: Shipment) {
    sh.packages == [] && (sh.status == SubmissionUnknown || sh.status == LabelFailed)
  }

  /** `PrepareShipmentRetry` */
  function RetryPrepared(s: Order, now: int): (bool, Order) {
    if s.shipment.Some? && Retryable(s.shipment.value) then (true, Written(s, Resubmitted(s.shipment.value, now))) else (false, s)
  }

  /** `PrepareFailedShipmentRecovery`: the statement itself does not look at the packages, it clears them. */
  function RecoveryPrepared(s: Order, now: int): (bool, Order) {
    if s.shipment.Some? && s.shipment.value.status == LabelFailed && s.shipment.value.tracking == "" && !s.shipment.value.confirmed
    then (true, Written(s, Resubmitted(s.shipment.value, now))) else (false, s)
  }

  /** `PrepareUnknownShipmentRetry`: leaves the job alone. */
  function UnknownPrepared(s: Order, maxAttempts: int, before: int, now: int): (bool, Order) {
    if s.shipment.Some? && s.shipment.value.status == SubmissionUnknown && s.shipment.value.packages == []
       && s.shipment.value.attempts < maxAttempts && s.shipment.value.submittedAt <= before
    then (true, s.(shipment := Some(s.shipment.value.(status := Submitting, problem := NO_PROBLEM,
                                                       attempts := s.shipment.value.attempts + 1,
                                                       submittedAt := now, updatedAt := now))))
    else (false, s)
  }

  /** `UpdateShipmentSubmission` */
  function SubmissionUpdated(s: Order, status: ShipmentStatus, packages: seq<string>, problem: Problem, now: int): Order {
    if s.shipment.Some?
    then Written(s, s.shipment.value.(status := status, packages := packages, problem := problem, updatedAt := now)) else s
  }

  /** `UpdateShipmentResult`: an empty tracking number keeps the stored one. */
  function ResultUpdated(s: Order, status: ShipmentStatus, tracking: string, problem: Problem, now: int): Order {
    if s.shipment.Some?
    then Written(s, s.shipment.value.(status := status, tracking := if tracking == "" then s.shipment.value.tracking else tracking,
                                      problem := problem, updatedAt := now)) else s
  }

  /** `MarkShipmentConfirmed` */
  function MarkedConfirmed(s: Order, now: int): Order {
    if s.shipment.Some?
    then Written(s, s.shipment.value.(status := Shipped, problem := NO_PROBLEM, updatedAt := now, confirmed := true)) else s
  }

  /** `RecordShipmentConfirmationAttempt` */
  function ConfirmationRecorded(s: Order, now: int): (bool, Order) {
    if s.shipment.Some? && s.shipment.value.status in {LabelReady, ConfirmFailed}
    then (true, s.(shipment := Some(s.shipment.value.(confirmations := s.shipment.value.confirmations + 1, updatedAt := now))))
    else (false, s)
  }

  // ---- what every statement keeps ----

  /** The job row is bound to the order's shipment. */
  ghost predicate Bound(s: Order) {
    s.shipment.Some? ==> s.job.Some? && s.job.value.shipment == Some(s.shipment.value.id)
  }

  /** The job has a status its shipment allows. */
  ghost predicate Compatible(s: Order) {
    && s.shipment.Some? && s.job.Some?
    && (Stands(s.job.value, s.shipment.value.id, CompletionStatus(s.shipment.value.status))
        || s.job.value == Job(Some(s.shipment.value.id), CompletionStatus(s.shipment.value.status)))
  }
}
