/** The requests that only edit the record, with nobody else at work: which statuses accept them, and what
    they leave. */
module Administration {
  import opened Core
  import opened Edits
  import Q = SequentialSaga
  import C = ConcurrentSaga
  import T = TwoPhase
  import M = Message

  predicate Finished(status: TransactionStatus) {
    match status
    case Succeeded | Aborted | Failed => true
    case Submitted | Trying | Prepared | Succeeding | Aborting => false
  }

  /** The record with another status, where `retry` says what becomes of each retry time. */
  predicate Becomes(before: Transaction, after: Transaction, status: TransactionStatus, time: nat,
                    retry: Branch -> Option<nat>) {
    && after.status == status && after.updatedAt == time
    && after == before.(status := after.status, branches := after.branches, revision := after.revision, updatedAt := time)
    && (before.revision < MAX_U64 ==> after.revision == before.revision + 1)
    && |after.branches| == |before.branches|
    && forall i :: 0 <= i < |before.branches| ==>
         after.branches[i] == before.branches[i].(nextRetry := retry(before.branches[i]))
  }

  function NoRetry(): Branch -> Option<nat> { (b: Branch) => None }
  function SameRetry(): Branch -> Option<nat> { (b: Branch) => b.nextRetry }

  /** Whatever failed, runs or is being compensated becomes due. */
  function RetryAt(now: nat): Branch -> Option<nat> {
    (b: Branch) => match b.status
                   case Failed | Running | Compensating => Some(now)
                   case Pending | Succeeded | Skipped => b.nextRetry
  }

  /** The record an operation leaves where it is accepted, and otherwise the same record. */
  predicate Leaves(accepted: bool, before: Transaction, after: Transaction, status: TransactionStatus, time: nat,
                   retry: Branch -> Option<nat>) {
    if accepted then Becomes(before, after, status, time, retry) else after == before
  }

  lemma SequentialSaga(s: Q.State, time: nat, now: nat)
    requires s.worker.Idle?
    ensures var stop, reset, abort := Q.Begin(Q.ForceStop), Q.Begin(Q.ResetRetry(now)), Q.Begin(Q.ScheduleAbort);
            var open, status := !Finished(s.stored.status), s.stored.status;
            && Leaves(open, s.stored, Q.Step(Q.Step(s, stop), Q.Persist(time)).stored, TransactionStatus.Failed, time, NoRetry())
            && Leaves(open, s.stored, Q.Step(Q.Step(s, reset), Q.Persist(time)).stored, status, time, RetryAt(now))
            && Leaves(status.Submitted? || status.Succeeding? || status.Aborting?, s.stored,
                      Q.Step(Q.Step(s, abort), Q.Persist(time)).stored, Aborting, time, NoRetry())
  {
  }

  lemma ConcurrentSaga(s: C.State, w: nat, time: nat, now: nat)
    requires C.WorkerAt(s, w).Idle?
    ensures var stop, reset, abort := C.Begin(w, C.ForceStop), C.Begin(w, C.ResetRetry(now)), C.Begin(w, C.ScheduleAbort);
            var open, status := !Finished(s.stored.status), s.stored.status;
            && Leaves(open, s.stored, C.Step(C.Step(s, stop), C.Persist(w, time)).stored,
                      TransactionStatus.Failed, time, NoRetry())
            && Leaves(open, s.stored, C.Step(C.Step(s, reset), C.Persist(w, time)).stored, status, time, RetryAt(now))
            && Leaves(status.Submitted? || status.Succeeding? || status.Aborting?, s.stored,
                      C.Step(C.Step(s, abort), C.Persist(w, time)).stored, Aborting, time, NoRetry())
  {
  }

  lemma TwoPhase(s: T.State, time: nat, now: nat)
    requires s.worker.Idle?
    ensures var stop, reset, abort := T.Begin(T.ForceStop), T.Begin(T.ResetRetry(now)), T.Begin(T.ScheduleAbort);
            var open, status := !Finished(s.stored.status), s.stored.status;
            && Leaves(open, s.stored, T.Step(T.Step(s, stop), T.Persist(time)).stored, TransactionStatus.Failed, time, NoRetry())
            && Leaves(open, s.stored, T.Step(T.Step(s, reset), T.Persist(time)).stored, status, time, RetryAt(now))
            && Leaves(status.Submitted? || (status.Trying? && s.stored.kind.Tcc?) || status.Prepared? || status.Aborting?,
                      s.stored, T.Step(T.Step(s, abort), T.Persist(time)).stored, Aborting, time, NoRetry())
            && Leaves(status.Prepared?, s.stored, T.Step(T.Step(s, T.Begin(T.ScheduleSubmit)), T.Persist(time)).stored,
                      Succeeding, time, SameRetry())
  {
  }

  lemma Message(s: M.State, w: nat, time: nat, now: nat)
    requires M.WorkerAt(s, w).Idle?
    ensures var stop, reset := M.Begin(w, M.ForceStop), M.Begin(w, M.ResetRetry(now));
            var open, status := !Finished(s.stored.status), s.stored.status;
            && Leaves(open, s.stored, M.Step(M.Step(s, stop), M.Persist(w, time)).stored,
                      TransactionStatus.Failed, time, NoRetry())
            && Leaves(open, s.stored, M.Step(M.Step(s, reset), M.Persist(w, time)).stored, status, time, RetryAt(now))
            && Leaves(status.Submitted?, s.stored, M.Step(M.Step(s, M.Begin(w, M.Prepare)), M.Persist(w, time)).stored,
                      Prepared, time, SameRetry())
            && Leaves(status.Submitted? || status.Prepared?, s.stored,
                      M.Step(M.Step(s, M.Begin(w, M.ScheduleSubmit)), M.Persist(w, time)).stored,
                      Succeeding, time, SameRetry())
  {
  }

  /** A Message that is aborted has all its branches skipped. */
  lemma AbortedMessage(s: M.State, w: nat, time: nat)
    requires M.WorkerAt(s, w).Idle?
    ensures var after := M.Step(M.Step(s, M.Begin(w, M.Abort)), M.Persist(w, time)).stored;
            if s.stored.status.Submitted? || s.stored.status.Prepared?
            then && after.status.Aborted? && |after.branches| == |s.stored.branches|
                 && forall i :: 0 <= i < |after.branches| ==>
                      after.branches[i] == s.stored.branches[i].(status := BranchStatus.Skipped, nextRetry := None)
            else after == s.stored
  {
  }
}
