/** What every answer of the platform does to the rows of an order, and exactly when each operation calls the
    platform: the operations written out on the stored fields. */
module ShipmentAnswers {
  import opened Common
  import opened Jobs
  import opened ShipmentRows
  import opened ShipmentOperations
  import opened ShipmentSafety
  import opened ShipmentRuns
  import opened ShipmentJobs
  import Text

  // ---- labels ----

  /** A failed label outweighs a pending one, and a pending one outweighs a ready one. */
  function Worse(a: ShipmentStatus, b: ShipmentStatus): ShipmentStatus {
    if a == LabelFailed || b == LabelFailed then LabelFailed
    else if a == LabelPending || b == LabelPending then LabelPending else LabelReady
  }

  lemma {:induction false} NoLabel()
    ensures LabelStatus([]) == LabelPending && FirstTracking([]) == "" && LastProblem([]) == Problem("", false)
  {
  }

  lemma {:induction false} OneLabel(l: Label)
    ensures LabelStatus([l]) == if l.state == 0 then LabelPending else if l.state == 2 || l.state == 3 then LabelFailed else LabelReady
    ensures FirstTracking([l]) == l.tracking
    ensures LastProblem([l]) == if l.state == 2 then Problem("2", l.coverage) else if l.state == 3 then Problem("3", l.coverage)
                                else Problem("", false)
  {
    assert [l][0] == l && [l][..0] == [];
  }

  lemma {:induction false} TrackingAddsUp(a: seq<Label>, b: seq<Label>)
    ensures FirstTracking(a + b) == if FirstTracking(a) != "" then FirstTracking(a) else FirstTracking(b)
  {
    if b == [] {
      assert a + b == a;
    } else {
      TrackingAddsUp(a, b[..|b| - 1]);
      assert (a + b)[..|a + b| - 1] == a + b[..|b| - 1];
    }
  }

  lemma {:induction false} ProblemAddsUp(a: seq<Label>, b: seq<Label>)
    ensures LastProblem(a + b) == if LabelStatus(b) == LabelFailed then LastProblem(b) else LastProblem(a)
  {
    if b == [] {
      assert a + b == a;
    } else {
      var n := |b| - 1;
      ProblemAddsUp(a, b[..n]);
      assert (a + b)[..|a + b| - 1] == a + b[..n];
      if i :| 0 <= i < |b| && Failing(b[i]) { assert i < n ==> Failing(b[..n][i]); }
      if i :| 0 <= i < n && Failing(b[..n][i]) { assert Failing(b[i]); }
    }
  }

  /** The status of several packages is that of the worst one. */
  lemma {:induction false} StatusAddsUp(a: seq<Label>, b: seq<Label>)
    requires a != [] && b != []
    ensures LabelStatus(a + b) == Worse(LabelStatus(a), LabelStatus(b))
  {
    var all := a + b;
    assert forall i | 0 <= i < |a| :: all[i] == a[i];
    assert forall i | 0 <= i < |b| :: all[|a| + i] == b[i];
    assert forall i | 0 <= i < |all| :: all[i] == if i < |a| then a[i] else b[i - |a|];
  }

  // ---- a refresh ----

  /** The shipment after its labels were read. */
  function Labelled(sh: Shipment, packages: seq<string>, labels: seq<Label>, now: int): Shipment {
    sh.(status := LabelStatus(labels), packages := packages, problem := LastProblem(labels), updatedAt := now,
        tracking := if FirstTracking(labels) != "" then FirstTracking(labels) else sh.tracking)
  }

  /** The shipment after its packages became known. */
  function Found(sh: Shipment, packages: seq<string>, now: int): Shipment {
    sh.(status := LabelPending, packages := packages, problem := Problem("", false), updatedAt := now)
  }

  lemma {:induction false} LabelsReadMean(s: Order, answer: LabelAnswer, now: int)
    requires s.shipment.Some?
    ensures var sh := s.shipment.value;
            LabelsRead(s, answer, now) ==
              if answer.NoLabels? then (Failure(true), s)
              else (Success, s.(shipment := Some(Labelled(sh, sh.packages, answer.labels, now)),
                                job := Handed(Kept(s.job, sh.id, LabelStatus(answer.labels)), sh.id, WaitingOms)))
  {
  }

  lemma {:induction false} LookupMeans(s: Order, packages: seq<string>, now: int)
    requires s.shipment.Some?
    ensures var sh := s.shipment.value;
            SubmissionUpdated(s, LabelPending, packages, Problem("", false), now)
              == s.(shipment := Some(Found(sh, packages, now)), job := Kept(s.job, sh.id, LabelPending))
    ensures var sh := s.shipment.value;
            sh.packages == [] ==>
              SubmissionUpdated(s, SubmissionUnknown, [], Problem("PACKAGE_SN_MISSING", false), now)
                == s.(shipment := Some(sh.(status := SubmissionUnknown, problem := Problem("PACKAGE_SN_MISSING", false), updatedAt := now)),
                      job := Kept(s.job, sh.id, SubmissionUnknown))
  {
  }

  /** Packages are looked up when none is known; then their labels are read. Whenever labels were read, or the order is
      shipped, the job is handed over to wait for the warehouse system. */
  lemma {:induction false} RefreshMeans(s: Order, answer: RefreshAnswer, now: int)
    ensures s.shipment.None? ==> Refreshed(s, answer, now) == (Failure(false), s)
    ensures s.shipment.Some? ==>
            var sh := s.shipment.value;
            var known := if sh.packages != [] then sh.packages else if answer.detail.Detail? then answer.detail.packages else [];
            var job := if sh.packages != [] then s.job else Kept(s.job, sh.id, LabelPending);
            Refreshed(s, answer, now) ==
              if sh.status == Shipped then (Success, s.(job := Handed(s.job, sh.id, WaitingOms)))
              else if sh.packages == [] && answer.detail.NoDetail? then (Failure(true), s)
              else if known == [] then
                (Failure(true), s.(shipment := Some(sh.(status := SubmissionUnknown, problem := Problem("PACKAGE_SN_MISSING", false), updatedAt := now)),
                                   job := Kept(s.job, sh.id, SubmissionUnknown)))
              else if answer.labels.NoLabels? then
                (Failure(true), if sh.packages != [] then s else s.(shipment := Some(Found(sh, known, now)), job := job))
              else
                var labels := answer.labels.labels;
                (Success, s.(shipment := Some(Labelled(sh, known, labels, now)),
                             job := Handed(Kept(job, sh.id, LabelStatus(labels)), sh.id, WaitingOms)))
  {
    if s.shipment.Some? {
      UpdateMeans(s, s.shipment.value.id, WaitingOms);
      if s.shipment.value.packages != [] {
        LabelsReadMean(s, answer.labels, now);
      } else if answer.detail.Detail? {
        LookupMeans(s, answer.detail.packages, now);
        LabelsReadMean(SubmissionUpdated(s, LabelPending, answer.detail.packages, Problem("", false), now), answer.labels, now);
      }
    }
  }

  // ---- a submission ----

  /** The call finds the row as it is; whatever is answered, id, attempts and confirmations stay. */
  lemma {:induction false} SubmitMeans(s: Order, answer: CreateAnswer, now: int)
    requires s.shipment.Some?
    ensures var sh := s.shipment.value;
            var called := s.(calls := s.calls + [Call(sh.status, sh.packages)]);
            Submitted(s, answer, now) ==
              match answer
              case Died(before) => (Dead, if before then called else s)
              case Made(packages) =>
                var status := if packages == [] then SubmissionUnknown else LabelPending;
                (Success, called.(shipment := Some(sh.(status := status, packages := packages, problem := Problem("", false), updatedAt := now)),
                                  job := Kept(s.job, sh.id, status)))
              case Rejected(existing, unclear, problem, refresh) =>
                if existing && refresh.detail.Detail? && refresh.detail.packages != [] then
                  var (packages, job) := (refresh.detail.packages, Kept(s.job, sh.id, LabelPending));
                  if refresh.labels.NoLabels? then (Failure(true), called.(shipment := Some(Found(sh, packages, now)), job := job))
                  else
                    var labels := refresh.labels.labels;
                    (Success, called.(shipment := Some(Labelled(sh, packages, labels, now)),
                                      job := Handed(Kept(job, sh.id, LabelStatus(labels)), sh.id, WaitingOms)))
                else
                  var status := if unclear || existing then SubmissionUnknown else LabelFailed;
                  (Failure(true), called.(shipment := Some(sh.(status := status, packages := [], problem := problem, updatedAt := now)),
                                          job := Kept(s.job, sh.id, status)))
  {
    if answer.Rejected? && answer.existing && answer.refresh.detail.Detail? {
      var next := s.(calls := s.calls + [Call(s.shipment.value.status, s.shipment.value.packages)]);
      LookupMeans(next, answer.refresh.detail.packages, now);
      RefreshMeans(SubmissionUpdated(next, LabelPending, answer.refresh.detail.packages, Problem("", false), now), answer.refresh, now);
    }
  }

  // ---- a purchase ----

  /** The rows a first submission starts from. */
  function First(s: Order, id: string, now: int): Order {
    s.(shipment := Some(Shipment(id, Submitting, [], "", Problem("", false), 1, now, 0, false, now)), job := Kept(s.job, id, Submitting))
  }

  /** The rows another submission starts from: nothing is left of the last one but the id and the counts. */
  function Again(s: Order, now: int): Order
    requires s.shipment.Some?
  {
    var sh := s.shipment.value;
    s.(shipment := Some(Shipment(sh.id, Submitting, [], "", Problem("", false), sh.attempts + 1, now, sh.confirmations, false, now)),
       job := Kept(s.job, sh.id, Submitting))
  }

  lemma {:induction false} FirstMeans(s: Order, id: string, now: int)
    requires s.shipment.None?
    ensures Reserved(s, id, now) == (false, First(s, id, now))
  {
  }

  lemma {:induction false} AgainMeans(s: Order, id: string, now: int)
    requires s.shipment.Some? && s.shipment.value.packages == [] && s.shipment.value.status in {SubmissionUnknown, LabelFailed}
    ensures var ensured := s.(job := Kept(s.job, s.shipment.value.id, s.shipment.value.status));
            Reserved(s, id, now) == (true, ensured) && RetryPrepared(ensured, now) == (true, Again(ensured, now))
  {
  }

  /** The platform is called exactly for an open, allowed order without a shipment, or whose submission failed or is
      unknown without any package, stored or found; an operator then sees the shipment, or nothing was done. */
  lemma {:induction false} PurchaseMeans(s: Order, id: string, open: bool, allowed: bool, detail: Detail,
                                         answer: CreateAnswer, now: int)
    ensures var again := s.shipment.Some? && s.shipment.value.packages == [] && s.shipment.value.status in {SubmissionUnknown, LabelFailed};
            Purchased(s, id, open, allowed, detail, answer, now) ==
              if !open then (Failure(false), s)
              else if s.shipment.Some? && !again then (Success, s)
              else if !allowed then (Failure(false), s)
              else if s.shipment.None? then Submitted(First(s, id, now), answer, now)
              else
                var sh := s.shipment.value;
                var ensured := s.(job := Kept(s.job, sh.id, sh.status));
                if detail.NoDetail? then (Failure(false), ensured)
                else if detail.packages != [] then
                  (Success, s.(shipment := Some(Found(sh, detail.packages, now)), job := Kept(ensured.job, sh.id, LabelPending)))
                else Submitted(Again(ensured, now), answer, now)
  {
    if s.shipment.None? {
      FirstMeans(s, id, now);
    } else if s.shipment.value.packages == [] && s.shipment.value.status in {SubmissionUnknown, LabelFailed} {
      AgainMeans(s, id, now);
      if detail.Detail? {
        LookupMeans(s.(job := Kept(s.job, s.shipment.value.id, s.shipment.value.status)), detail.packages, now);
      }
    }
  }

  /** So exactly those orders are submitted: the call finds a submitting shipment without packages. */
  lemma {:induction false} PurchaseCalls(s: Order, id: string, open: bool, allowed: bool, detail: Detail,
                                         answer: CreateAnswer, now: int)
    ensures var r := Purchased(s, id, open, allowed, detail, answer, now).1;
            var again := s.shipment.Some? && s.shipment.value.packages == [] && s.shipment.value.status in {SubmissionUnknown, LabelFailed};
            r.answers == s.answers &&
            r.calls == if open && allowed && (s.shipment.None? || (again && detail == Detail([]))) && answer != Died(false)
                       then s.calls + [Call(Submitting, [])] else s.calls
  {
    PurchaseMeans(s, id, open, allowed, detail, answer, now);
    SubmitMeans(First(s, id, now), answer, now);
    if s.shipment.Some? { SubmitMeans(Again(s.(job := Kept(s.job, s.shipment.value.id, s.shipment.value.status)), now), answer, now); }
  }

  // ---- an operator recovery ----

  /** An operator may recover a failed label that has no tracking number, no package and no confirmation. */
  predicate Recoverable(sh: Shipment) {
    sh.status == LabelFailed && Text.Trim(sh.tracking) == "" && !sh.confirmed && sh.packages == []
  }

  /** The platform is called exactly for a recoverable label without packages anywhere, allowed and stocked, whose
      tracking number is really empty. */
  lemma {:induction false} RecoverMeans(s: Order, allowed: bool, stocked: bool, detail: Detail, answer: CreateAnswer,
                                        now: int)
    ensures Recovered(s, allowed, stocked, detail, answer, now) ==
              if s.shipment.None? || !Recoverable(s.shipment.value) || detail.NoDetail? then (Failure(false), s)
              else
                var sh := s.shipment.value;
                if detail.packages != [] then
                  (Failure(false), s.(shipment := Some(Found(sh, detail.packages, now)), job := Kept(s.job, sh.id, LabelPending)))
                else if !allowed then (Failure(false), s)
                else if !stocked then (Failure(true), s)
                else if sh.tracking != "" then (Failure(false), s)
                else Submitted(Again(s, now), answer, now)
  {
  }

  // ---- a confirmation ----

  /** A label is confirmed at the platform exactly when it is ready or failed to confirm before, has a tracking number
      and is known. The row is shipped exactly when the answer was accepted; otherwise it carries the problem. */
  lemma {:induction false} ConfirmMeans(s: Order, known: bool, answer: ConfirmAnswer, now: int)
    ensures s.shipment.None? ==> ShipConfirmed(s, known, answer, now) == (Failure(false), s)
    ensures s.shipment.Some? ==>
            var sh := s.shipment.value;
            var asked := (sh.status == LabelReady || sh.status == ConfirmFailed) && sh.tracking != "" && known;
            var counted := sh.(confirmations := sh.confirmations + 1, updatedAt := now);
            ShipConfirmed(s, known, answer, now) ==
              if sh.status == Shipped then (Success, s.(job := Handed(s.job, sh.id, WaitingOms)))
              else if !asked then (Failure(true), s)
              else
                match answer
                case NotConfirmed(problem) =>
                  (Failure(true), Order(Some(counted.(status := ConfirmFailed, problem := problem)), Kept(s.job, sh.id, ConfirmFailed),
                                        s.calls, s.answers + [answer]))
                case _ =>
                  var job := Kept(s.job, sh.id, Shipped);
                  (Success, Order(Some(counted.(status := Shipped, confirmed := true, problem := Problem("", false))),
                                  if answer == Confirmed then Handed(job, sh.id, WaitingOms) else job, s.calls, s.answers + [answer]))
  {
  }

  /** In every run from nothing an order is shipped, and equally confirmed, exactly when some confirmation was accepted;
      a failed confirmation carries the last problem, and every confirmation is counted. */
  lemma {:induction false} ShippedMeansAccepted(events: seq<Event>)
    ensures var s := Run(UNTOUCHED, events);
            s.shipment.Some? ==>
              && (s.shipment.value.status == Shipped <==> Accepted(s.answers)) && (s.shipment.value.confirmed <==> Accepted(s.answers))
              && s.shipment.value.confirmations == |s.answers|
              && (s.shipment.value.status == ConfirmFailed ==>
                   s.answers != [] && s.answers[|s.answers| - 1] == NotConfirmed(s.shipment.value.problem))
  {
    RunsAreSafe(events);
  }

  // ---- the automatic retry ----

  /** The retry of an unknown submission: two minutes after the last attempt, when no package is found, and for fewer
      than three attempts. */
  predicate RetryDue(sh: Shipment, refresh: RefreshAnswer, now: int) {
    && now >= sh.submittedAt + 120
    && (refresh.detail == Detail([]) || (refresh.detail.NoDetail? && sh.problem.code == "PACKAGE_SN_MISSING"))
  }

  /** The refresh before a retry: it is due exactly when the refresh ends with the packages missing, and then it has
      changed nothing but problem and time. */
  lemma {:induction false} RetryPoint(s: Order, refresh: RefreshAnswer, now: int)
    requires Safe(s) && HasStatus(s, SubmissionUnknown) && now >= s.shipment.value.submittedAt + 120
    ensures var (sh, (outcome, r)) := (s.shipment.value, Refreshed(s, refresh, now));
            && r.shipment.Some?
            && (RetryDue(sh, refresh, now) <==> outcome != Success && r.shipment.value.problem.code == "PACKAGE_SN_MISSING")
            && (RetryDue(sh, refresh, now) ==>
                 sh.packages == []
                 && r.shipment.value == sh.(problem := r.shipment.value.problem, updatedAt := r.shipment.value.updatedAt))
  {
    RefreshMeans(s, refresh, now);
  }

  lemma {:induction false} RetryMeans(s: Order, refresh: RefreshAnswer, answer: CreateAnswer, now: int)
    requires Safe(s) && HasStatus(s, SubmissionUnknown)
    ensures var (sh, refreshed) := (s.shipment.value, Refreshed(s, refresh, now));
            UnknownRecovered(s, refresh, answer, now) ==
              if now < sh.submittedAt + 120 then (Success, s)
              else if !RetryDue(sh, refresh, now) then refreshed
              else if sh.attempts >= 3 then (Exhausted, refreshed.1)
              else
                Submitted(refreshed.1.(shipment := Some(sh.(status := Submitting, problem := Problem("", false), attempts := sh.attempts + 1,
                                                            submittedAt := now, updatedAt := now))), answer, now)
  {
    if now >= s.shipment.value.submittedAt + 120 {
      RetryPoint(s, refresh, now);
      UnknownRetryMeans(Refreshed(s, refresh, now).1, MAX_SUBMISSIONS, now - RETRY_DELAY, now);
    }
  }

  lemma {:induction false} NothingToRetry(s: Order, refresh: RefreshAnswer, answer: CreateAnswer, now: int)
    requires s.shipment.None?
    ensures UnknownRecovered(s, refresh, answer, now) == (Failure(false), s)
  {
  }
}
