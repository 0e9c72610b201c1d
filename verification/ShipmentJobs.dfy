/** The small statements on the job row, written out on the stored fields. */
module ShipmentJobs {
  import opened Common
  import opened Jobs
  import opened ShipmentRows
  import Text

  predicate Standing(status: ShipmentStatus, job: JobStatus) {
    match status
    case Submitting | LabelPending | SubmissionUnknown => job == Queued || job == JobRunning || job == WaitingLabel
    case LabelReady | ConfirmFailed => job == JobRunning || job == Confirming
    case LabelFailed => false
    case Shipped => job == WaitingOms || job == JobCompleted
  }

  function Due(status: ShipmentStatus): JobStatus {
    if status == LabelFailed then JobFailed
    else if status == Shipped then WaitingOms
    else if status == LabelReady || status == ConfirmFailed then Confirming else WaitingLabel
  }

  /** The job once it is ensured for a shipment: bound to it, and with exactly a standing status of that shipment's own
      job kept. */
  function Kept(job: Option<Job>, id: string, status: ShipmentStatus): Option<Job> {
    Some(Job(Some(id), if job.Some? && job.value.shipment == Some(id) && Standing(status, job.value.status) then job.value.status else Due(status)))
  }

  /** The job once it is handed over: it gets the status, and the binding unless the id is empty; a completed one only
      stays completed, and a missing one stays missing. */
  function Handed(job: Option<Job>, id: string, status: JobStatus): Option<Job> {
    if job.None? || (job.value.status == JobCompleted && status != JobCompleted) then job
    else Some(Job(if id == "" then job.value.shipment else Some(id), status))
  }

  lemma {:induction false} WriteMeans(s: Order, sh: Shipment)
    ensures Written(s, sh) == s.(shipment := Some(sh), job := Kept(s.job, sh.id, sh.status))
  {
  }

  /** The retry statement resubmits an unknown submission without packages when one more attempt stays within the limit
      and the last one is old enough; it leaves packages, tracking number and job as they are. */
  lemma {:induction false} UnknownRetryMeans(s: Order, maxAttempts: int, before: int, now: int)
    ensures var (ok, r) := UnknownPrepared(s, maxAttempts, before, now);
            && (ok <==> s.shipment.Some? && s.shipment.value.status == SubmissionUnknown && |s.shipment.value.packages| == 0
                        && s.shipment.value.attempts + 1 <= maxAttempts && before >= s.shipment.value.submittedAt)
            && (!ok ==> r == s)
            && (ok ==> r == s.(shipment := Some(s.shipment.value.(status := Submitting, problem := Problem("", false),
                                                                  attempts := s.shipment.value.attempts + 1,
                                                                  submittedAt := now, updatedAt := now))))
  {
  }

  lemma {:induction false} MarkMeans(s: Order, now: int)
    requires s.shipment.Some?
    ensures var sh := s.shipment.value;
            MarkedConfirmed(s, now) == s.(shipment := Some(sh.(status := Shipped, problem := Problem("", false), updatedAt := now, confirmed := true)),
                                          job := Kept(s.job, sh.id, Shipped))
  {
  }

  /** Ensuring the job binds it to the shipment and keeps exactly a standing status of that shipment's own job. */
  lemma {:induction false} EnsureMeans(s: Order)
    ensures Ensured(s) == if s.shipment.None? then s else s.(job := Kept(s.job, s.shipment.value.id, s.shipment.value.status))
  {
  }

  lemma {:induction false} UpdateMeans(s: Order, id: string, status: JobStatus)
    ensures JobUpdated(s, id, status) == s.(job := Handed(s.job, id, status))
  {
  }

  lemma {:induction false} QueueMeans(s: Order)
    ensures Enqueued(s) == s.(job := if s.job.None? then Some(Job(None, Queued))
                                     else if s.job.value.status == JobFailed then Some(Job(s.job.value.shipment, Queued)) else s.job)
    ensures Claimable(s) <==> s.job.Some? && s.job.value.status != JobCompleted && s.job.value.status != Skipped
    ensures Claimed(s) == if Claimable(s) then s.(job := Some(Job(s.job.value.shipment, JobRunning))) else s
  {
  }

  /** A restarted job, with the status of its shipment or queued without one. */
  lemma {:induction false} RestartMeans(s: Order)
    ensures RestartedJob(s) == s.(job := Some(if s.shipment.Some? then Job(Some(s.shipment.value.id), Due(s.shipment.value.status))
                                              else Job(if s.job.Some? then s.job.value.shipment else None, Queued)))
  {
  }

  /** The repair touches ready labels that were not confirmed or tried, have packages and a tracking number, lie
      unchanged since before the cutoff, and whose own job is not at work on them. */
  lemma {:induction false} RepairMeans(s: Order, cutoff: int)
    ensures var stalled := s.shipment.Some?
              && var sh := s.shipment.value;
                 && sh.status == LabelReady && !sh.confirmed && sh.confirmations == 0 && sh.packages != []
                 && Text.Trim(sh.tracking) != "" && sh.updatedAt < cutoff
                 && !(s.job.Some? && s.job.value.shipment == Some(sh.id)
                      && (s.job.value.status == JobRunning || s.job.value.status == WaitingLabel || s.job.value.status == Confirming));
            Repaired(s, cutoff) == if stalled then s.(job := Some(Job(Some(s.shipment.value.id), Confirming))) else s
  {
  }
}
