/** Which statements and operations leave the completion job in a status its shipment allows. */
module ShipmentCompatibility {
  import opened Common
  import opened Jobs
  import opened ShipmentRows
  import opened ShipmentOperations
  import opened ShipmentSafety
  import opened ShipmentRuns

  // ---- the statements ----

  /** The store statements that write the shipment row. */
  datatype Statement =
    | Reserve(id: string, now: int)
    | PrepareRetry(now: int)
    | PrepareRecovery(now: int)
    | PrepareUnknown(maxAttempts: int, before: int, now: int)
    | UpdateSubmission(status: ShipmentStatus, packages: seq<string>, problem: Problem, now: int)
    | UpdateResult(status: ShipmentStatus, tracking: string, problem: Problem, now: int)
    | MarkConfirmed(now: int)
    | RecordConfirmation(now: int)

  /** Whether the statement found its row, and the rows after it. */
  function Executed(s: Order, statement: Statement): (bool, Order) {
    match statement
    case Reserve(id, now) => (true, Reserved(s, id, now).1)
    case PrepareRetry(now) => RetryPrepared(s, now)
    case PrepareRecovery(now) => RecoveryPrepared(s, now)
    case PrepareUnknown(maxAttempts, before, now) => UnknownPrepared(s, maxAttempts, before, now)
    case UpdateSubmission(status, packages, problem, now) => (s.shipment.Some?, SubmissionUpdated(s, status, packages, problem, now))
    case UpdateResult(status, tracking, problem, now) => (s.shipment.Some?, ResultUpdated(s, status, tracking, problem, now))
    case MarkConfirmed(now) => (s.shipment.Some?, MarkedConfirmed(s, now))
    case RecordConfirmation(now) => ConfirmationRecorded(s, now)
  }

  /** The two statements whose transaction does not ensure the job. */
  predicate LeavesJob(statement: Statement) {
    statement.PrepareUnknown? || statement.RecordConfirmation?
  }

  /** Whatever the job was, a successful statement leaves it compatible with the shipment, except for the two
      that leave the job alone: these leave it compatible exactly when it was. */
  lemma {:induction false} StatusWritesAreCompatible(s: Order, statement: Statement)
    requires Executed(s, statement).0
    ensures Compatible(Executed(s, statement).1) <==> !LeavesJob(statement) || Compatible(s)
  {
  }

  /** A restart repairs every job: it gets the row that ensuring a missing job would insert, although the
      two statements spell out their cases apart from each other. */
  lemma {:induction false} RestartAgrees(s: Order)
    ensures s.shipment.Some? ==> RestartedJob(s) == Ensured(s.(job := None)) && Compatible(RestartedJob(s))
    ensures s.shipment.None? ==> RestartedJob(s).job.value.status == Queued
  {
  }

  /** The CASE with which the migration creates missing jobs; `verified`: the order's sync check is. */
  function MigratedStatus(status: ShipmentStatus, verified: bool): JobStatus {
    if status == Shipped && verified then JobCompleted
    else if status == Shipped then WaitingOms
    else if status in {LabelReady, ConfirmFailed} then Confirming
    else if status in {Submitting, LabelPending, SubmissionUnknown} then WaitingLabel
    else JobFailed
  }

  /** A job the migration creates is one no later statement needs to correct. */
  lemma {:induction false} MigrationAgrees(s: Order, verified: bool)
    requires s.shipment.Some?
    ensures var migrated := s.(job := Some(Job(Some(s.shipment.value.id), MigratedStatus(s.shipment.value.status, verified))));
            Compatible(migrated) && Ensured(migrated) == migrated
  {
  }

  // ---- a refresh ----

  /** The refresh reads the labels of a shipment that is not shipped and whose packages are known by then. */
  predicate ReadsLabels(s: Order, answer: RefreshAnswer)
    requires s.shipment.Some?
  {
    && s.shipment.value.status != Shipped && answer.labels.Labels?
    && (s.shipment.value.packages != [] || (answer.detail.Detail? && answer.detail.packages != []))
  }

  /** A refresh moves the job to `waiting_oms` whenever it has read the labels, shipped or not: it leaves a
      compatible job compatible exactly when it reads none. */
  lemma {:induction false} RefreshKeepsCompatibleExactlyWhen(s: Order, answer: RefreshAnswer, now: int)
    requires Safe(s) && Compatible(s)
    ensures Compatible(Refreshed(s, answer, now).1) <==> !ReadsLabels(s, answer)
    ensures ReadsLabels(s, answer) ==> Refreshed(s, answer, now).1.job == Some(Job(Some(s.shipment.value.id), WaitingOms))
  {
  }

  const REFRESHED := Refresh(RefreshAnswer(NoDetail, Labels([Label(1, "T", false)])), 0)

  /** A bought label that is ready: the job should be confirming, and it waits for the warehouse system. */
  lemma {:induction false} RefreshParksTheJob()
    ensures Compatible(Run(UNTOUCHED, [BOUGHT]))
    ensures var s := Run(UNTOUCHED, [BOUGHT, REFRESHED]); HasStatus(s, LabelReady) && !Compatible(s)
  {
    OneEvent(BOUGHT);
    TwoEvents(BOUGHT, REFRESHED);
    var s := Next(UNTOUCHED, BOUGHT);
    RefreshKeepsCompatibleExactlyWhen(s, REFRESHED.refresh, 0);
  }

  // ---- the retry of an unknown submission ----

  const UNCLEAR := Purchase("S", true, true, NoDetail, Made([]), 0)

  /** The refresh fails with an error that is not a temporary one. */
  function Fruitless(create: CreateAnswer): StepAnswer {
    StepAnswer(RefreshAnswer(NoDetail, NoLabels), create, false, AlreadyShipped, OmsOpen, false, false, false, false,
               false, false, NoDetail, true)
  }

  function GivenUp(): Event {
    Work(NothingBought(Skipped), [Fruitless(Died(false))], RETRY_DELAY)
  }

  /** On the rows of a failed job the retry statement really succeeds and leaves a job its shipment does not allow. */
  lemma {:induction false} RetryStatementAloneMisfits()
    ensures var s := Run(UNTOUCHED, [UNCLEAR, GivenUp()]);
            var (ok, prepared) := UnknownPrepared(s, MAX_SUBMISSIONS, 0, RETRY_DELAY);
            Safe(s) && ok && !Compatible(prepared) && prepared.job.value.status == JobFailed
  {
    TwoEvents(UNCLEAR, GivenUp());
    RunsAreFine(UNTOUCHED, [UNCLEAR, GivenUp()]);
    var s := Next(UNTOUCHED, UNCLEAR);
    assert s.shipment.value.status == SubmissionUnknown && s.shipment.value.attempts == 1;
    var claimed := Claimed(s);
    assert Next(s, GivenUp()) == Looped(claimed, [Fruitless(Died(false))], RETRY_DELAY);
  }

  /** What keeps the worker off such rows: at the start of an iteration, an unknown submission has a compatible job. */
  ghost predicate Retriable(s: Order) {
    Safe(s) && (HasStatus(s, SubmissionUnknown) ==> Compatible(s))
  }

  /** Within this iteration, a successful retry statement leaves the job compatible. */
  ghost predicate RetriesCompatibly(s: Order, a: StepAnswer, now: int) {
    var (ok, prepared) := UnknownPrepared(Refreshed(s, a.refresh, now).1, MAX_SUBMISSIONS, now - RETRY_DELAY, now);
    HasStatus(s, SubmissionUnknown) && ok ==> Compatible(prepared)
  }

  ghost predicate LoopRetriesCompatibly(s: Order, answers: seq<StepAnswer>, now: int)
    decreases |answers|
  {
    answers != [] ==>
      && RetriesCompatibly(s, answers[0], now)
      && (Stepped(s, answers[0], now).Continue? ==> LoopRetriesCompatibly(Stepped(s, answers[0], now).s, answers[1..], now))
  }

  lemma {:induction false} ClaimedIsRetriable(s: Order)
    requires Safe(s) && Claimable(s)
    ensures Retriable(Claimed(s))
  {
  }

  lemma {:induction false} StepRetriesCompatibly(s: Order, a: StepAnswer, now: int)
    requires Retriable(s)
    ensures RetriesCompatibly(s, a, now)
  {
  }

  lemma {:induction false} SteppedIsRetriable(s: Order, a: StepAnswer, now: int)
    requires Retriable(s) && Stepped(s, a, now).Continue?
    ensures Retriable(Stepped(s, a, now).s)
  {
    SteppedIsFine(s, a, now);
  }

  lemma {:induction false} LoopIsCompatible(s: Order, answers: seq<StepAnswer>, now: int)
    requires Retriable(s)
    ensures LoopRetriesCompatibly(s, answers, now)
    decreases |answers|
  {
    if answers != [] {
      StepRetriesCompatibly(s, answers[0], now);
      if Stepped(s, answers[0], now).Continue? {
        SteppedIsRetriable(s, answers[0], now);
        LoopIsCompatible(Stepped(s, answers[0], now).s, answers[1..], now);
      }
    }
  }

  /** The rows with which a pass enters its loop, if it does. */
  function LoopStart(s: Order, first: FirstPurchase, now: int): Option<Order> {
    if s.shipment.Some? then Some(s)
    else
      match first
      case NothingBought(_) => None
      case Bought(id, create) =>
        var (outcome, r) := Purchased(s, id, true, true, NoDetail, create, now);
        match outcome
        case Dead => None
        case Success | Exhausted => Some(r)
        case Failure(_) =>
          if r.shipment.None? || (r.shipment.value.status == LabelFailed && !MayFallBack(r.shipment.value)) then None
          else Some(JobUpdated(r, r.shipment.value.id, if r.shipment.value.status == LabelFailed then JobRunning else WaitingLabel))
  }

  lemma {:induction false} LoopStartStarts(s: Order, first: FirstPurchase, answers: seq<StepAnswer>, now: int)
    ensures LoopStart(s, first, now).Some? ==> RanAutoFulfillment(s, first, answers, now) == Looped(LoopStart(s, first, now).value, answers, now)
    ensures LoopStart(s, first, now).None? ==> RanAutoFulfillment(s, first, answers, now) == RanAutoFulfillment(s, first, [], now)
  {
  }

  lemma {:induction false} LoopStartIsRetriable(s: Order, first: FirstPurchase, now: int)
    requires Retriable(s) && LoopStart(s, first, now).Some?
    ensures Retriable(LoopStart(s, first, now).value)
  {
    if s.shipment.None? {
      PurchasedIsFine(s, first.id, true, true, NoDetail, first.create, now);
    }
  }

  /** The retry statement is only used inside a pass over a claimed job, and there it always leaves the job
      compatible: in every iteration of every pass from safe rows, whatever the job was before. */
  lemma {:induction false} WorkerRetriesCompatibly(s: Order, first: FirstPurchase, answers: seq<StepAnswer>, now: int)
    requires Safe(s) && Claimable(s)
    ensures match LoopStart(Claimed(s), first, now)
            case Some(start) => Next(s, Work(first, answers, now)) == Looped(start, answers, now) && LoopRetriesCompatibly(start, answers, now)
            case None => Next(s, Work(first, answers, now)) == Next(s, Work(first, [], now))
  {
    ClaimedIsRetriable(s);
    LoopStartStarts(Claimed(s), first, answers, now);
    if LoopStart(Claimed(s), first, now).Some? {
      LoopStartIsRetriable(Claimed(s), first, now);
      LoopIsCompatible(LoopStart(Claimed(s), first, now).value, answers, now);
    }
  }
}
