/** The worker hands every claimed job on, and the repair of stalled confirmations comes to an end. */
module ShipmentHandover {
  import opened Common
  import opened Jobs
  import opened ShipmentRows
  import opened ShipmentOperations
  import opened ShipmentSafety
  import opened ShipmentRuns
  import opened ShipmentCompatibility

  predicate NotRunning(s: Order) {
    s.job.Some? && s.job.value.status != JobRunning
  }

  // ---- where a pass can stop with the job still running ----

  /** The fallback of a failed label cannot store the failed carrier, or the process dies in its purchase. */
  predicate FallbackSticks(sh: Shipment, a: StepAnswer) {
    && MayFallBack(sh)
    && (!a.recorded || (a.quoted && a.allowed && a.stocked && a.detail == Detail([]) && sh.tracking == "" && a.create.Died?))
  }

  /** The process dies in the automatic retry of an unknown submission. */
  predicate RetrySticks(sh: Shipment, a: StepAnswer, now: int) {
    && sh.status == SubmissionUnknown && now >= sh.submittedAt + RETRY_DELAY && sh.attempts < MAX_SUBMISSIONS && a.create.Died?
    && (a.refresh.detail == Detail([]) || (a.refresh.detail.NoDetail? && sh.problem.code == MISSING))
  }

  predicate Sticks(s: Order, a: StepAnswer, now: int) {
    s.shipment.Some? && (FallbackSticks(s.shipment.value, a) || RetrySticks(s.shipment.value, a, now))
  }

  /** The fallback finds no stock to reserve and is tried again, with nothing changed. */
  predicate TriesAgain(s: Order, a: StepAnswer) {
    && s.shipment.Some? && MayFallBack(s.shipment.value)
    && a.recorded && a.quoted && a.detail == Detail([]) && a.allowed && !a.stocked
  }

  /** What the loop started with, and the answers up to the one it stops at, tell whether the job stays `running`. */
  predicate StaysRunning(s: Order, answers: seq<StepAnswer>, now: int) {
    && !NotRunning(s)
    && exists i | 0 <= i < |answers| :: Sticks(s, answers[i], now) && forall j | 0 <= j < i :: TriesAgain(s, answers[j])
  }

  /** From here on the job cannot stay `running`: it is not, or the next iteration changes it. */
  predicate Calm(s: Order, now: int) {
    || NotRunning(s)
    || (s.shipment.Some? && match s.shipment.value.status
                            case LabelFailed => false
                            case SubmissionUnknown => now < s.shipment.value.submittedAt + RETRY_DELAY
                            case _ => true)
  }

  // ---- one iteration ----

  lemma {:induction false} FallbackTriesAgain(s: Order, id: string, a: StepAnswer, now: int)
    requires TriesAgain(s, a)
    ensures FallbackStep(s, id, a, now) == Continue(s)
  {
  }

  lemma {:induction false} FallbackStops(s: Order, id: string, a: StepAnswer, now: int)
    requires Safe(s) && s.shipment.Some? && (NotRunning(s) || !NeedsManual(s.shipment.value)) && FallbackStep(s, id, a, now).Halt?
    ensures !NotRunning(FallbackStep(s, id, a, now).s) <==> !NotRunning(s) && FallbackSticks(s.shipment.value, a)
  {
  }

  lemma {:induction false} FallbackGoesOn(s: Order, id: string, a: StepAnswer, now: int)
    requires Safe(s) && s.shipment.Some? && FallbackStep(s, id, a, now).Continue? && !TriesAgain(s, a)
    ensures Calm(FallbackStep(s, id, a, now).s, now) && !FallbackSticks(s.shipment.value, a)
  {
    var (outcome, r) := Recovered(s, a.allowed, a.stocked, a.detail, a.create, now);
    assert FallbackStep(s, id, a, now).s == r;
    var (ok, prepared) := RecoveryPrepared(s, now);
    assert ok && (outcome, r) == Submitted(prepared, a.create, now);
    assert outcome == Success || NotRunning(r);
    assert outcome == Success ==> a.create.Made? || NotRunning(r);
  }

  /** The refresh of a label known to need a person has moved the job on before anything else can go wrong. */
  lemma {:induction false} ManualCaseMovesOn(s: Order, a: StepAnswer, now: int)
    requires Safe(s) && s.shipment.Some? && NeedsManual(s.shipment.value) && Refreshed(s, a.refresh, now).0 == Success
    ensures NotRunning(Refreshed(s, a.refresh, now).1) && Safe(Refreshed(s, a.refresh, now).1)
    ensures Refreshed(s, a.refresh, now).1.shipment.Some?
  {
    RefreshedIsFine(s, a.refresh, now);
  }

  lemma {:induction false} FailedStops(s: Order, id: string, a: StepAnswer, now: int)
    requires Safe(s) && s.shipment.Some? && FailedStep(s, id, a, now).Halt?
    ensures !NotRunning(FailedStep(s, id, a, now).s) <==> !NotRunning(s) && FallbackSticks(s.shipment.value, a)
  {
    if !NeedsManual(s.shipment.value) {
      FallbackStops(s, id, a, now);
    } else if Refreshed(s, a.refresh, now).0 == Success {
      ManualCaseMovesOn(s, a, now);
      FallbackStops(Refreshed(s, a.refresh, now).1, id, a, now);
    } else {
      RefreshedIsFine(s, a.refresh, now);
    }
  }

  lemma {:induction false} FailedGoesOn(s: Order, id: string, a: StepAnswer, now: int)
    requires Safe(s) && s.shipment.Some? && FailedStep(s, id, a, now).Continue? && !TriesAgain(s, a)
    ensures Calm(FailedStep(s, id, a, now).s, now) && !FallbackSticks(s.shipment.value, a)
  {
    if !NeedsManual(s.shipment.value) {
      FallbackGoesOn(s, id, a, now);
    } else {
      ManualCaseMovesOn(s, a, now);
      var r := Refreshed(s, a.refresh, now).1;
      if HasStatus(r, LabelFailed) {
        if TriesAgain(r, a) { FallbackTriesAgain(r, id, a, now); } else { FallbackGoesOn(r, id, a, now); }
      }
    }
  }

  /** What a refresh leaves of an unknown submission: the retry goes on exactly when no package was found. */
  lemma {:induction false} RefreshOfUnknown(s: Order, refresh: RefreshAnswer, now: int)
    requires Safe(s) && HasStatus(s, SubmissionUnknown)
    ensures var (outcome, r) := Refreshed(s, refresh, now);
            && Safe(r) && r.shipment.Some? && (outcome == Success ==> NotRunning(r))
            && (outcome != Success && r.shipment.value.problem.code == MISSING <==>
                refresh.detail == Detail([]) || (refresh.detail.NoDetail? && s.shipment.value.problem.code == MISSING))
            && (outcome != Success && r.shipment.value.problem.code == MISSING ==>
                (NotRunning(r) <==> NotRunning(s)) && r.shipment.value.attempts == s.shipment.value.attempts
                && r.shipment.value.submittedAt == s.shipment.value.submittedAt && HasStatus(r, SubmissionUnknown))
  {
    RefreshedIsFine(s, refresh, now);
  }

  lemma {:induction false} SubmissionMovesOn(s: Order, answer: CreateAnswer, now: int)
    requires Safe(s) && HasStatus(s, Submitting) && s.shipment.value.submittedAt == now
    ensures var (outcome, r) := Submitted(s, answer, now);
            && (outcome == Dead <==> answer.Died?) && (outcome == Dead ==> (NotRunning(r) <==> NotRunning(s)))
            && (outcome == Success ==> Calm(r, now)) && (outcome.Failure? ==> r.job.Some?) && outcome != Exhausted
  {
  }

  lemma {:induction false} RetryMovesOn(s: Order, refresh: RefreshAnswer, answer: CreateAnswer, now: int)
    requires Safe(s) && HasStatus(s, SubmissionUnknown)
    requires now >= s.shipment.value.submittedAt + RETRY_DELAY && s.shipment.value.attempts < MAX_SUBMISSIONS
    requires refresh.detail == Detail([]) || (refresh.detail.NoDetail? && s.shipment.value.problem.code == MISSING)
    ensures var (outcome, r) := UnknownRecovered(s, refresh, answer, now);
            && (outcome == Dead <==> answer.Died?) && (outcome == Dead ==> (NotRunning(r) <==> NotRunning(s)))
            && (outcome == Success ==> Calm(r, now)) && (outcome.Failure? ==> r.job.Some?) && outcome != Exhausted
  {
    RefreshOfUnknown(s, refresh, now);
    var r := Refreshed(s, refresh, now).1;
    var (ok, prepared) := UnknownPrepared(r, MAX_SUBMISSIONS, now - RETRY_DELAY, now);
    SubmissionMovesOn(prepared, answer, now);
  }

  lemma {:induction false} RetryIsOver(s: Order, refresh: RefreshAnswer, answer: CreateAnswer, now: int)
    requires Safe(s) && HasStatus(s, SubmissionUnknown)
    requires || now < s.shipment.value.submittedAt + RETRY_DELAY || s.shipment.value.attempts >= MAX_SUBMISSIONS
             || !(refresh.detail == Detail([]) || (refresh.detail.NoDetail? && s.shipment.value.problem.code == MISSING))
    ensures var (outcome, r) := UnknownRecovered(s, refresh, answer, now);
            outcome != Dead && r.job.Some? && (outcome == Success ==> NotRunning(r) || HasStatus(r, SubmissionUnknown))
  {
    RefreshOfUnknown(s, refresh, now);
  }

  /** Only the automatic retry can be where an unknown submission stops. */
  lemma {:induction false} UnknownStops(s: Order, id: string, a: StepAnswer, now: int)
    requires Safe(s) && HasStatus(s, SubmissionUnknown)
    ensures UnknownStep(s, id, a, now).Halt? ==>
              (!NotRunning(UnknownStep(s, id, a, now).s) <==> !NotRunning(s) && RetrySticks(s.shipment.value, a, now))
    ensures UnknownStep(s, id, a, now).Continue? ==>
              Calm(UnknownStep(s, id, a, now).s, now) && !RetrySticks(s.shipment.value, a, now)
  {
    if now >= s.shipment.value.submittedAt + RETRY_DELAY && s.shipment.value.attempts < MAX_SUBMISSIONS
       && (a.refresh.detail == Detail([]) || (a.refresh.detail.NoDetail? && s.shipment.value.problem.code == MISSING))
    {
      RetryMovesOn(s, a.refresh, a.create, now);
    } else {
      RetryIsOver(s, a.refresh, a.create, now);
    }
  }

  /** A pass stops in an iteration with the job still running exactly when it sticks there; when it goes on,
      nothing has changed or the job can no longer stay so. */
  lemma {:induction false} SteppedStops(s: Order, a: StepAnswer, now: int)
    requires Safe(s) && s.shipment.Some?
    ensures Stepped(s, a, now).Halt? ==> (!NotRunning(Stepped(s, a, now).s) <==> !NotRunning(s) && Sticks(s, a, now))
    ensures Stepped(s, a, now).Continue? ==> (TriesAgain(s, a) && Stepped(s, a, now).s == s) || Calm(Stepped(s, a, now).s, now)
    ensures Stepped(s, a, now).Continue? ==> Stepped(s, a, now).s.shipment.Some?
    ensures TriesAgain(s, a) ==> Stepped(s, a, now) == Continue(s)
    ensures Sticks(s, a, now) ==> Stepped(s, a, now).Halt?
  {
    var id := s.shipment.value.id;
    SteppedIsFine(s, a, now);
    match s.shipment.value.status
    case SubmissionUnknown => UnknownStops(s, id, a, now);
    case Submitting | LabelPending => PendingMovesOn(s, id, a, now);
    case LabelReady | ConfirmFailed => ConfirmMovesOn(s, id, a, now);
    case Shipped =>
    case LabelFailed =>
      if TriesAgain(s, a) {
        FallbackTriesAgain(s, id, a, now);
      } else if FailedStep(s, id, a, now).Halt? {
        FailedStops(s, id, a, now);
      } else {
        FailedGoesOn(s, id, a, now);
      }
  }

  lemma {:induction false} PendingMovesOn(s: Order, id: string, a: StepAnswer, now: int)
    requires Safe(s) && s.shipment.Some? && s.shipment.value.status in {Submitting, LabelPending}
    ensures NotRunning(PendingStep(s, id, a, now).s)
  {
    RefreshedIsFine(s, a.refresh, now);
  }

  lemma {:induction false} ConfirmMovesOn(s: Order, id: string, a: StepAnswer, now: int)
    requires Safe(s) && s.shipment.Some? && s.shipment.value.status in {LabelReady, ConfirmFailed}
    ensures NotRunning(ConfirmStep(s, id, a, now).s)
  {
  }

  /** Once calm, always calm. */
  lemma {:induction false} CalmStep(s: Order, a: StepAnswer, now: int)
    requires Safe(s) && s.shipment.Some? && Calm(s, now)
    ensures if Stepped(s, a, now).Halt? then NotRunning(Stepped(s, a, now).s) else Calm(Stepped(s, a, now).s, now)
  {
    SteppedStops(s, a, now);
  }

  // ---- whole passes ----

  lemma {:induction false} CalmLoop(s: Order, answers: seq<StepAnswer>, now: int)
    requires Safe(s) && s.shipment.Some? && Calm(s, now)
    ensures NotRunning(Looped(s, answers, now))
    decreases |answers|
  {
    if answers != [] {
      CalmStep(s, answers[0], now);
      SteppedIsFine(s, answers[0], now);
      SteppedStops(s, answers[0], now);
      if Stepped(s, answers[0], now).Continue? {
        CalmLoop(Stepped(s, answers[0], now).s, answers[1..], now);
      }
    }
  }

  lemma {:induction false} StaysRunningLater(s: Order, answers: seq<StepAnswer>, now: int)
    requires answers != []
    ensures StaysRunning(s, answers, now) <==>
            !NotRunning(s) && (Sticks(s, answers[0], now) || (TriesAgain(s, answers[0]) && StaysRunning(s, answers[1..], now)))
  {
    var later := answers[1..];
    if StaysRunning(s, answers, now) && !Sticks(s, answers[0], now) {
      var i :| 0 <= i < |answers| && Sticks(s, answers[i], now) && forall j | 0 <= j < i :: TriesAgain(s, answers[j]);
      assert later[i - 1] == answers[i] && TriesAgain(s, answers[0]);
      forall j | 0 <= j < i - 1 ensures TriesAgain(s, later[j]) { assert later[j] == answers[j + 1]; }
    }
    if TriesAgain(s, answers[0]) && StaysRunning(s, later, now) {
      var i :| 0 <= i < |later| && Sticks(s, later[i], now) && forall j | 0 <= j < i :: TriesAgain(s, later[j]);
      assert answers[i + 1] == later[i];
      forall j | 0 <= j < i + 1 ensures TriesAgain(s, answers[j]) { if j > 0 { assert later[j - 1] == answers[j]; } }
    }
  }

  lemma {:induction false} LoopStops(s: Order, answers: seq<StepAnswer>, now: int)
    requires Safe(s) && s.shipment.Some?
    ensures !NotRunning(Looped(s, answers, now)) <==> StaysRunning(s, answers, now)
    decreases |answers|
  {
    if answers != [] {
      var step := Stepped(s, answers[0], now);
      SteppedStops(s, answers[0], now);
      SteppedIsFine(s, answers[0], now);
      StaysRunningLater(s, answers, now);
      if step.Continue? {
        if TriesAgain(s, answers[0]) {
          LoopStops(s, answers[1..], now);
        } else {
          CalmLoop(step.s, answers[1..], now);
        }
      }
    }
  }

  /** An order without a shipment whose job is bound to the very shipment about to be bought: the only way a
      process that dies in the first purchase leaves the job `running`. */
  predicate PurchaseSticks(s: Order, first: FirstPurchase) {
    s.shipment.None? && first.Bought? && first.create.Died? && s.job.Some? && s.job.value.shipment == Some(first.id)
  }

  /** What the worker makes of an order it cannot buy a label for. */
  predicate Possible(first: FirstPurchase) {
    first.NothingBought? ==> first.status in {Skipped, Queued, JobFailed}
  }

  lemma {:induction false} FirstPurchaseStops(s: Order, first: FirstPurchase, answers: seq<StepAnswer>, now: int)
    requires Safe(s) && s.shipment.None? && s.job.Some? && s.job.value.status == JobRunning && Possible(first)
    requires LoopStart(s, first, now).None?
    ensures !NotRunning(RanAutoFulfillment(s, first, answers, now)) <==> PurchaseSticks(s, first)
  {
  }

  /** For every pass over claimed rows: the job is still `running` afterwards exactly when the process died in the
      first purchase of a job bound beforehand, or the loop was entered and sticks after nothing but repeated tries
      to reserve stock. */
  lemma {:induction false} WorkerHandsOnExactlyWhen(s: Order, first: FirstPurchase, answers: seq<StepAnswer>, now: int)
    requires Safe(s) && Claimable(s) && Possible(first)
    ensures NotRunning(Next(s, Work(first, answers, now))) <==>
            && !PurchaseSticks(s, first)
            && (LoopStart(Claimed(s), first, now).Some? ==> !StaysRunning(LoopStart(Claimed(s), first, now).value, answers, now))
  {
    var claimed := Claimed(s);
    var start := LoopStart(claimed, first, now);
    assert Fine(s, claimed);
    LoopStartStarts(claimed, first, answers, now);
    if start.None? {
      FirstPurchaseStops(claimed, first, answers, now);
    } else {
      LoopStartIsSafe(claimed, first, now);
      LoopStops(start.value, answers, now);
    }
  }

  lemma {:induction false} LoopStartIsSafe(s: Order, first: FirstPurchase, now: int)
    requires Safe(s) && LoopStart(s, first, now).Some?
    ensures Safe(LoopStart(s, first, now).value) && LoopStart(s, first, now).value.shipment.Some?
    ensures s.shipment.None? ==> !first.create.Died?
  {
    if s.shipment.None? {
      PurchasedIsFine(s, first.id, true, true, NoDetail, first.create, now);
    }
  }

  // ---- what follows ----

  /** No job of an order without a shipment is bound. */
  predicate Unbound(s: Order) {
    s.shipment.None? && s.job.Some? ==> s.job.value.shipment == None
  }

  lemma {:induction false} BoughtHasShipment(s: Order, id: string, open: bool, allowed: bool, detail: Detail,
                                             answer: CreateAnswer, now: int)
    requires Safe(s) && s.shipment.None?
    ensures var r := Purchased(s, id, open, allowed, detail, answer, now).1; r.shipment.Some? || r == s
  {
    var reserved := Reserved(s, id, now).1;
    SubmittedIsFine(reserved, answer, now);
  }

  lemma {:induction false} WorkIsUnbound(s: Order, first: FirstPurchase, answers: seq<StepAnswer>, now: int)
    requires Safe(s) && s.shipment.None? && Unbound(s)
    ensures Unbound(RanAutoFulfillment(s, first, answers, now))
  {
    if first.Bought? {
      BoughtHasShipment(s, first.id, true, true, NoDetail, first.create, now);
      PurchasedIsFine(s, first.id, true, true, NoDetail, first.create, now);
      LoopStartStarts(s, first, answers, now);
      if LoopStart(s, first, now).Some? {
        LoopStartIsSafe(s, first, now);
        LoopedIsFine(LoopStart(s, first, now).value, answers, now);
      }
    }
  }

  lemma {:induction false} NextIsUnbound(s: Order, e: Event)
    requires Safe(s) && Unbound(s)
    ensures Unbound(Next(s, e))
  {
    if s.shipment.Some? {
      NextIsFine(s, e);
    } else {
      match e
      case Purchase(id, open, allowed, detail, create, now) => BoughtHasShipment(s, id, open, allowed, detail, create, now);
      case Recover(_, _, _, _, _) =>
      case Refresh(_, _) =>
      case ConfirmShipped(_, _, _) =>
      case Work(first, answers, now) => if Claimable(s) { WorkIsUnbound(Claimed(s), first, answers, now); }
      case EnsureJob =>
      case Enqueue =>
      case Restart =>
      case Repair(_) =>
    }
  }

  /** In every run from nothing a process that dies in a first purchase does hand the job on. */
  lemma {:induction false} RunsNeverStickInPurchase(events: seq<Event>, first: FirstPurchase)
    ensures Unbound(Run(UNTOUCHED, events)) && !PurchaseSticks(Run(UNTOUCHED, events), first)
  {
    if events != [] {
      var front := events[..|events| - 1];
      RunsNeverStickInPurchase(front, first);
      RunsAreSafe(front);
      NextIsUnbound(Run(UNTOUCHED, front), events[|events| - 1]);
    }
  }

  /** A shipment whose packages are known is always handed on, whatever dies or is not stored. */
  lemma {:induction false} KnownPackagesAreHandedOn(s: Order, first: FirstPurchase, answers: seq<StepAnswer>, now: int)
    requires Safe(s) && Claimable(s) && s.shipment.Some? && s.shipment.value.packages != [] && Possible(first)
    ensures NotRunning(Next(s, Work(first, answers, now)))
  {
    WorkerHandsOnExactlyWhen(s, first, answers, now);
  }

  /** The process does not stop during the pass, and a failed carrier is stored. */
  predicate Survives(a: StepAnswer) {
    !a.create.Died? && a.recorded
  }

  /** Unless the process dies or a failed carrier cannot be stored, a worker pass hands its job on: whatever the
      answers, the job ends in a status other than `running`. */
  lemma {:induction false} WorkerHandsOn(s: Order, first: FirstPurchase, answers: seq<StepAnswer>, now: int)
    requires Safe(s) && Claimable(s) && forall i | 0 <= i < |answers| :: Survives(answers[i])
    requires if first.NothingBought? then first.status in {Skipped, Queued, JobFailed} else !first.create.Died?
    ensures NotRunning(Next(s, Work(first, answers, now)))
  {
    WorkerHandsOnExactlyWhen(s, first, answers, now);
  }

  /** A carrier failure that cannot be stored really leaves the job `running`, to be claimed again. */
  lemma {:induction false} UnstoredFailureStaysRunning(s: Order, first: FirstPurchase, answers: seq<StepAnswer>,
                                                       now: int)
    requires Claimable(s) && HasStatus(s, LabelFailed) && MayFallBack(s.shipment.value)
    requires answers != [] && !answers[0].recorded
    ensures var r := Next(s, Work(first, answers, now)); r == Claimed(s) && r.job.value.status == JobRunning && Claimable(r)
  {
  }

  // ---- runs that leave a job running ----

  const REFUSED := Bought("S", Rejected(false, false, Problem("x", true), RefreshAnswer(NoDetail, NoLabels)))

  /** The iteration finds no package, a new quote and stock. */
  function Retrying(create: CreateAnswer, recorded: bool): StepAnswer {
    StepAnswer(RefreshAnswer(Detail([]), NoLabels), create, false, AlreadyShipped, OmsOpen, false, false, false, true,
               true, true, Detail([]), recorded)
  }

  function RefusedRun(create: CreateAnswer, recorded: bool): seq<Event> {
    [Enqueue, Work(REFUSED, [Retrying(create, recorded)], 0)]
  }

  function UnclearRun(create: CreateAnswer, recorded: bool): seq<Event> {
    [UNCLEAR, Work(NothingBought(Skipped), [Retrying(create, recorded)], RETRY_DELAY)]
  }

  lemma {:induction false} RefusedStart()
    ensures var start := LoopStart(Claimed(Next(UNTOUCHED, Enqueue)), REFUSED, 0);
            start.Some? && !NotRunning(start.value) && start.value.shipment.Some? && MayFallBack(start.value.shipment.value)
            && start.value.shipment.value.tracking == ""
  {
  }

  /** A carrier refuses the delivery address in the first purchase; the pass ends `running` exactly when the failure
      cannot be stored or the process dies in the purchase from the next carrier. */
  lemma {:induction false} RefusedRunStaysRunning(create: CreateAnswer, recorded: bool)
    ensures NotRunning(Run(UNTOUCHED, RefusedRun(create, recorded))) <==> recorded && !create.Died?
  {
    var s, a := Next(UNTOUCHED, Enqueue), Retrying(create, recorded);
    TwoEvents(Enqueue, Work(REFUSED, [a], 0));
    NextIsFine(UNTOUCHED, Enqueue);
    RefusedStart();
    WorkerHandsOnExactlyWhen(s, REFUSED, [a], 0);
    StaysRunningLater(LoopStart(Claimed(s), REFUSED, 0).value, [a], 0);
  }

  /** A purchase has an unclear end; the pass that retries it ends `running` exactly when the process dies. */
  lemma {:induction false} UnclearRunStaysRunning(create: CreateAnswer, recorded: bool)
    ensures NotRunning(Run(UNTOUCHED, UnclearRun(create, recorded))) <==> !create.Died?
  {
    var s, first, a := Next(UNTOUCHED, UNCLEAR), NothingBought(Skipped), Retrying(create, recorded);
    TwoEvents(UNCLEAR, Work(first, [a], RETRY_DELAY));
    NextIsFine(UNTOUCHED, UNCLEAR);
    assert HasStatus(s, SubmissionUnknown) && s.shipment.value.attempts == 1 && s.shipment.value.submittedAt == 0;
    WorkerHandsOnExactlyWhen(s, first, [a], RETRY_DELAY);
    StaysRunningLater(Claimed(s), [a], RETRY_DELAY);
  }

  // ---- repairing the whole table ----

  type Table = map<string, Order>

  function Candidates(table: Table, cutoff: int): set<string> {
    set o | o in table && Stalled(table[o], cutoff)
  }

  /** One run of the repair statement picks at most `limit` candidates, and all of them if they are fewer. */
  predicate MayPick(table: Table, cutoff: int, limit: nat, picked: set<string>) {
    picked <= Candidates(table, cutoff) && |picked| <= limit && (|picked| == limit || picked == Candidates(table, cutoff))
  }

  function RepairedTable(table: Table, cutoff: int, picked: set<string>): Table {
    map o | o in table :: if o in picked then Repaired(table[o], cutoff) else table[o]
  }

  lemma {:induction false} RepairRemoves(table: Table, cutoff: int, picked: set<string>)
    ensures Candidates(RepairedTable(table, cutoff, picked), cutoff) == Candidates(table, cutoff) - picked
  {
    var after := RepairedTable(table, cutoff, picked);
    forall o ensures o in Candidates(after, cutoff) <==> o in Candidates(table, cutoff) - picked {
    }
  }

  /** Repeated repair at a fixed cutoff: `picks` are the candidates repaired by each run. */
  function RepairedBy(table: Table, cutoff: int, picks: seq<set<string>>): Table {
    if picks == [] then table else RepairedTable(RepairedBy(table, cutoff, picks[..|picks| - 1]), cutoff, picks[|picks| - 1])
  }

  ghost predicate MayPickAll(table: Table, cutoff: int, limit: nat, picks: seq<set<string>>) {
    forall i | 0 <= i < |picks| :: MayPick(RepairedBy(table, cutoff, picks[..i]), cutoff, limit, picks[i])
  }

  function Total(picks: seq<set<string>>): nat {
    if picks == [] then 0 else Total(picks[..|picks| - 1]) + |picks[|picks| - 1]|
  }

  /** Repairs and remaining candidates always add up, and after as many runs as there were candidates
      none is left, so every later run repairs nothing. */
  lemma {:induction false} RepairDrains(table: Table, cutoff: int, limit: nat, picks: seq<set<string>>)
    requires limit >= 1 && MayPickAll(table, cutoff, limit, picks)
    ensures Total(picks) + |Candidates(RepairedBy(table, cutoff, picks), cutoff)| == |Candidates(table, cutoff)|
    ensures |Candidates(RepairedBy(table, cutoff, picks), cutoff)| == 0 || |picks| <= Total(picks)
    ensures |picks| >= |Candidates(table, cutoff)| ==> Candidates(RepairedBy(table, cutoff, picks), cutoff) == {}
  {
    if picks != [] {
      var n := |picks| - 1;
      var front := picks[..n];
      forall i | 0 <= i < n ensures MayPick(RepairedBy(table, cutoff, front[..i]), cutoff, limit, front[i]) {
        assert front[..i] == picks[..i];
      }
      RepairDrains(table, cutoff, limit, front);
      var before := RepairedBy(table, cutoff, front);
      RepairRemoves(before, cutoff, picks[n]);
      assert MayPick(before, cutoff, limit, picks[n]);
    }
  }
}
