/** Lease rows of one indexation job: claiming, fencing, attempt bookkeeping, retry. */
module Coordinator {
  import opened Base

  type Time = int

  datatype JobStatus = Pending | Processing | RetryWait | Completed | Failed | DeadLetter | Cancelled

  datatype Job = Job(status: JobStatus, stage: Option<string>, workerId: Option<string>, leaseGeneration: nat,
                     leaseUntil: Option<Time>, attemptCount: nat, maxAttempts: nat, nextRetryAt: Option<Time>,
                     cancelRequested: bool)

  datatype Attempt = Attempt(id: string, number: nat, generation: nat, workerId: string, finished: bool,
                             result: Option<string>)

  datatype LeaseToken = LeaseToken(workerId: string, generation: nat, attemptId: string)

  datatype Rows = Rows(job: Job, attempts: seq<Attempt>)

  datatype FailureClass = Transient | PermanentInput | PermanentPolicy | ResourceLimit | DownstreamAmbiguous
                        | OwnershipLost | CancelledByUser | InternalBug | DependencyUnavailable

  datatype FailureAction = DoRetryWait | DoReconcile | DoFailed | DoDeadLetter | DoAbandon

  predicate Terminal(s: JobStatus) {
    s == Completed || s == Failed || s == DeadLetter || s == Cancelled
  }

  // ---------------------------------------------------------------- row predicates

  predicate Runnable(job: Job, now: Time) {
    || job.status == Pending
    || (job.status == RetryWait && (job.nextRetryAt.None? || job.nextRetryAt.value <= now))
    || (job.status == Processing && job.leaseUntil.Some? && job.leaseUntil.value < now)
  }

  predicate Claimable(job: Job, now: Time) {
    Runnable(job, now) && !job.cancelRequested && job.attemptCount < job.maxAttempts
  }

  /** The fencing predicate: this token owns the PROCESSING row and its lease has not expired. */
  predicate Owns(job: Job, token: LeaseToken, now: Time) {
    && job.workerId == Some(token.workerId)
    && job.leaseGeneration == token.generation
    && job.status == Processing
    && job.leaseUntil.Some? && job.leaseUntil.value >= now
  }

  predicate OpenAttemptOf(a: Attempt, token: LeaseToken) {
    a.id == token.attemptId && a.generation == token.generation && !a.finished
  }

  // ---------------------------------------------------------------- transitions

  function Finish(a: Attempt, result: string): Attempt {
    a.(finished := true, result := Some(result))
  }

  /** Close the open attempt with the highest number, if any. */
  function CloseLastOpen(attempts: seq<Attempt>): (r: seq<Attempt>)
    ensures |r| == |attempts|
  {
    if attempts == [] then [] else
      var n := |attempts| - 1;
      if !attempts[n].finished then attempts[n := Finish(attempts[n], "LEASE_EXPIRED")]
      else CloseLastOpen(attempts[..n]) + [attempts[n]]
  }

  function FinishAttempt(attempts: seq<Attempt>, token: LeaseToken, result: string): Option<seq<Attempt>> {
    if exists i :: 0 <= i < |attempts| && OpenAttemptOf(attempts[i], token) then
      Some(seq(|attempts|, i requires 0 <= i < |attempts| =>
        if OpenAttemptOf(attempts[i], token) then Finish(attempts[i], result) else attempts[i]))
    else None
  }

  function ClaimToken(rows: Rows, worker: string, attemptId: string): LeaseToken {
    LeaseToken(worker, rows.job.leaseGeneration + 1, attemptId)
  }

  function Claim(rows: Rows, now: Time, worker: string, leaseSeconds: nat, attemptId: string): Rows {
    var job := rows.job;
    var attempts := if job.status == Processing then CloseLastOpen(rows.attempts) else rows.attempts;
    Rows(job.(status := Processing, workerId := Some(worker), leaseGeneration := job.leaseGeneration + 1,
              leaseUntil := Some(now + leaseSeconds), attemptCount := job.attemptCount + 1, nextRetryAt := None),
         attempts + [Attempt(attemptId, job.attemptCount + 1, job.leaseGeneration + 1, worker, false, None)])
  }

  function Released(job: Job, status: JobStatus): Job {
    job.(status := status, workerId := None, leaseUntil := None)
  }

  function Heartbeat(rows: Rows, token: LeaseToken, now: Time, leaseSeconds: nat): Option<Rows> {
    if Owns(rows.job, token, now) then Some(rows.(job := rows.job.(leaseUntil := Some(now + leaseSeconds)))) else None
  }

  function AdvanceStage(rows: Rows, token: LeaseToken, now: Time, stage: string): Option<Rows> {
    if Owns(rows.job, token, now) then Some(rows.(job := rows.job.(stage := Some(stage)))) else None
  }

  function Complete(rows: Rows, token: LeaseToken, now: Time): Option<Rows> {
    if !Owns(rows.job, token, now) then None else
      match FinishAttempt(rows.attempts, token, "COMPLETED")
      case None => None
      case Some(attempts) => Some(Rows(Released(rows.job, Completed), attempts))
  }

  function ScheduleRetry(rows: Rows, token: LeaseToken, now: Time, delay: nat): Option<Rows> {
    if !Owns(rows.job, token, now) then None else
      match FinishAttempt(rows.attempts, token, "RETRY_WAIT")
      case None => None
      case Some(attempts) => Some(Rows(Released(rows.job, RetryWait).(nextRetryAt := Some(now + delay)), attempts))
  }

  predicate Retryable(c: FailureClass) {
    c == Transient || c == DependencyUnavailable
  }

  function Bury(rows: Rows, token: LeaseToken, status: JobStatus, result: string): Option<Rows> {
    match FinishAttempt(rows.attempts, token, result)
    case None => None
    case Some(attempts) => Some(Rows(Released(rows.job, status).(nextRetryAt := None), attempts))
  }

  /** The failure handler: the new rows and the action, or None when the lease is stale. */
  function Handle(rows: Rows, token: LeaseToken, now: Time, c: FailureClass,
                  delay: nat): Option<(Rows, FailureAction)> {
    if c == OwnershipLost then Some((rows, DoAbandon))
    else if c == DownstreamAmbiguous then Some((rows, DoReconcile))
    else if !Owns(rows.job, token, now) then None
    else if Retryable(c) && rows.job.attemptCount < rows.job.maxAttempts then
      match ScheduleRetry(rows, token, now, delay)
      case None => None
      case Some(r) => Some((r, DoRetryWait))
    else if Retryable(c) then
      match Bury(rows, token, DeadLetter, "DEAD_LETTER")
      case None => None
      case Some(r) => Some((r, DoDeadLetter))
    else
      match Bury(rows, token, Failed, "FAILED")
      case None => None
      case Some(r) => Some((r, DoFailed))
  }

  // ---------------------------------------------------------------- lifecycle invariant

  /** Attempt i carries generation i; exactly the attempts before the last, plus the last
      one outside PROCESSING, are closed; a lease exists exactly in PROCESSING. */
  ghost predicate Lifecycle(rows: Rows) {
    var job, n := rows.job, |rows.attempts|;
    && job.leaseGeneration == job.attemptCount == n <= job.maxAttempts
    && (forall i :: 0 <= i < n ==> rows.attempts[i].generation == i + 1 && rows.attempts[i].number == i + 1)
    && (forall i :: 0 <= i < n - 1 ==> rows.attempts[i].finished)
    && (job.status == Processing <==> n > 0 && !rows.attempts[n - 1].finished)
    && (job.status == Processing <==> job.workerId.Some?)
    && (job.status == Processing <==> job.leaseUntil.Some?)
  }

  /** `token` was returned by a claim of this job. */
  ghost predicate Issued(rows: Rows, token: LeaseToken) {
    && 1 <= token.generation <= |rows.attempts|
    && rows.attempts[token.generation - 1].id == token.attemptId
    && rows.attempts[token.generation - 1].generation == token.generation
  }

  lemma {:induction false} CloseLastOpenSpec(attempts: seq<Attempt>)
    requires forall i :: 0 <= i < |attempts| - 1 ==> attempts[i].finished
    ensures var r := CloseLastOpen(attempts);
            forall i :: 0 <= i < |attempts| ==>
              && r[i].finished && r[i].id == attempts[i].id
              && r[i].generation == attempts[i].generation && r[i].number == attempts[i].number
  {
    if attempts != [] && attempts[|attempts| - 1].finished {
      CloseLastOpenSpec(attempts[..|attempts| - 1]);
    }
  }

  lemma ClaimLifecycle(rows: Rows, now: Time, worker: string, leaseSeconds: nat, attemptId: string)
    requires Lifecycle(rows) && Claimable(rows.job, now)
    ensures var r := Claim(rows, now, worker, leaseSeconds, attemptId);
            && Lifecycle(r)
            && Owns(r.job, ClaimToken(rows, worker, attemptId), now)
            && Issued(r, ClaimToken(rows, worker, attemptId))
            && |r.attempts| == |rows.attempts| + 1
  {
    if rows.job.status == Processing {
      CloseLastOpenSpec(rows.attempts);
    }
  }

  lemma ClaimKeepsIssued(rows: Rows, now: Time, worker: string, leaseSeconds: nat, attemptId: string, token: LeaseToken)
    requires Lifecycle(rows) && Issued(rows, token)
    ensures Issued(Claim(rows, now, worker, leaseSeconds, attemptId), token)
  {
    if rows.job.status == Processing {
      CloseLastOpenSpec(rows.attempts);
    }
  }

  /** A fenced release closes exactly the owner's attempt; with a token that a claim
      returned it never fails half way. */
  lemma FinishLifecycle(rows: Rows, token: LeaseToken, now: Time, status: JobStatus, result: string)
    requires Lifecycle(rows) && Owns(rows.job, token, now) && status != Processing
    ensures var f := FinishAttempt(rows.attempts, token, result);
            && (Issued(rows, token) ==> f.Some?)
            && (f.Some? ==> Lifecycle(Rows(Released(rows.job, status), f.value)))
            && (f.Some? ==> forall t :: Issued(rows, t) ==> Issued(Rows(rows.job, f.value), t))
  {
    var n := |rows.attempts|;
    if Issued(rows, token) {
      assert OpenAttemptOf(rows.attempts[n - 1], token);
    }
  }

  // ---------------------------------------------------------------- the store

  datatype StoreError = LeaseLost | InvalidArgument

  /** The job row and its attempts, updated in place. Every method is one transaction: an
      error leaves both untouched. */
  class JobStore {
    var job: Job
    var attempts: seq<Attempt>

    ghost function Now(): Rows reads this { Rows(job, attempts) }

    constructor (maxAttempts: nat)
      ensures Lifecycle(Now()) && job.status == Pending && attempts == [] && job.maxAttempts == maxAttempts
    {
      job := Job(Pending, None, None, 0, None, 0, maxAttempts, None, false);
      attempts := [];
    }

    method ClaimNext(worker: string, blank: string -> bool, leaseSeconds: int, now: Time, attemptId: string)
      returns (r: Result<Option<LeaseToken>, StoreError>)
      requires Lifecycle(Now())
      modifies this
      ensures Lifecycle(Now())
      ensures r.Err? <==> blank(worker) || leaseSeconds <= 0
      ensures r.Err? ==> r.error == InvalidArgument
      ensures r.Ok? ==> (r.value.Some? <==> Claimable(old(job), now))
      ensures r.Ok? && r.value.Some? ==>
                && Now() == Claim(old(Now()), now, worker, leaseSeconds, attemptId)
                && r.value.value == ClaimToken(old(Now()), worker, attemptId)
                && Owns(job, r.value.value, now)
      ensures r.Err? || r.value.None? ==> Now() == old(Now())
    {
      if blank(worker) || leaseSeconds <= 0 {
        return Err(InvalidArgument);
      }
      if !Claimable(job, now) {
        return Ok(None);
      }
      ClaimLifecycle(Now(), now, worker, leaseSeconds, attemptId);
      var generation, number := job.leaseGeneration + 1, job.attemptCount + 1;
      if job.status == Processing {
        attempts := CloseLastOpen(attempts);
      }
      job := job.(status := Processing, workerId := Some(worker), leaseGeneration := generation,
                  leaseUntil := Some(now + leaseSeconds), attemptCount := number, nextRetryAt := None);
      attempts := attempts + [Attempt(attemptId, number, generation, worker, false, None)];
      return Ok(Some(LeaseToken(worker, generation, attemptId)));
    }

    method Renew(token: LeaseToken, leaseSeconds: int, now: Time) returns (r: Result<(), StoreError>)
      requires Lifecycle(Now())
      modifies this
      ensures Lifecycle(Now())
      ensures r.Ok? <==> leaseSeconds > 0 && Owns(old(job), token, now)
      ensures r.Err? ==> r.error == if leaseSeconds <= 0 then InvalidArgument else LeaseLost
      ensures r.Ok? ==> Some(Now()) == Heartbeat(old(Now()), token, now, leaseSeconds)
      ensures r.Err? ==> Now() == old(Now())
    {
      if leaseSeconds <= 0 {
        return Err(InvalidArgument);
      }
      if !Owns(job, token, now) {
        return Err(LeaseLost);
      }
      job := job.(leaseUntil := Some(now + leaseSeconds));
      return Ok(());
    }

    method SetStage(token: LeaseToken, stage: string, blank: string -> bool, now: Time)
      returns (r: Result<(), StoreError>)
      requires Lifecycle(Now())
      modifies this
      ensures Lifecycle(Now())
      ensures r.Ok? <==> !blank(stage) && Owns(old(job), token, now)
      ensures r.Err? ==> r.error == if blank(stage) then InvalidArgument else LeaseLost
      ensures r.Ok? ==> Some(Now()) == AdvanceStage(old(Now()), token, now, stage)
      ensures r.Err? ==> Now() == old(Now())
    {
      if blank(stage) {
        return Err(InvalidArgument);
      }
      if !Owns(job, token, now) {
        return Err(LeaseLost);
      }
      job := job.(stage := Some(stage));
      return Ok(());
    }

    method MarkCompleted(token: LeaseToken, now: Time) returns (r: Result<(), StoreError>)
      requires Lifecycle(Now())
      modifies this
      ensures Lifecycle(Now())
      ensures r.Ok? <==> Complete(old(Now()), token, now).Some?
      ensures old(Issued(Now(), token)) ==> (r.Ok? <==> Owns(old(job), token, now))
      ensures r.Ok? ==> Some(Now()) == Complete(old(Now()), token, now)
      ensures r.Err? ==> r.error == LeaseLost && Now() == old(Now())
    {
      if !Owns(job, token, now) {
        return Err(LeaseLost);
      }
      FinishLifecycle(Now(), token, now, Completed, "COMPLETED");
      var closed := FinishAttempt(attempts, token, "COMPLETED");
      if closed.None? {
        return Err(LeaseLost);
      }
      job := Released(job, Completed);
      attempts := closed.value;
      return Ok(());
    }

    method RetryLater(token: LeaseToken, delay: int, now: Time) returns (r: Result<(), StoreError>)
      requires Lifecycle(Now())
      modifies this
      ensures Lifecycle(Now())
      ensures r.Ok? <==> delay >= 0 && ScheduleRetry(old(Now()), token, now, delay).Some?
      ensures r.Err? ==> r.error == if delay < 0 then InvalidArgument else LeaseLost
      ensures r.Ok? ==> Some(Now()) == ScheduleRetry(old(Now()), token, now, delay)
      ensures r.Err? ==> Now() == old(Now())
    {
      if delay < 0 {
        return Err(InvalidArgument);
      }
      if !Owns(job, token, now) {
        return Err(LeaseLost);
      }
      FinishLifecycle(Now(), token, now, RetryWait, "RETRY_WAIT");
      var closed := FinishAttempt(attempts, token, "RETRY_WAIT");
      if closed.None? {
        return Err(LeaseLost);
      }
      job := Released(job, RetryWait).(nextRetryAt := Some(now + delay));
      attempts := closed.value;
      return Ok(());
    }

    method MarkFailed(token: LeaseToken, now: Time, status: JobStatus, result: string)
      returns (r: Result<(), StoreError>)
      requires Lifecycle(Now()) && Owns(job, token, now) && status != Processing
      modifies this
      ensures Lifecycle(Now())
      ensures r.Ok? <==> Bury(old(Now()), token, status, result).Some?
      ensures r.Ok? ==> Some(Now()) == Bury(old(Now()), token, status, result)
      ensures r.Err? ==> r.error == LeaseLost && Now() == old(Now())
    {
      FinishLifecycle(Now(), token, now, status, result);
      var closed := FinishAttempt(attempts, token, result);
      if closed.None? {
        return Err(LeaseLost);
      }
      job := Released(job, status).(nextRetryAt := None);
      attempts := closed.value;
      return Ok(());
    }

    method HandleFailure(token: LeaseToken, c: FailureClass, delay: nat, now: Time)
      returns (r: Result<FailureAction, StoreError>)
      requires Lifecycle(Now())
      modifies this
      ensures Lifecycle(Now())
      ensures r.Ok? <==> Handle(old(Now()), token, now, c, delay).Some?
      ensures r.Ok? ==> Some((Now(), r.value)) == Handle(old(Now()), token, now, c, delay)
      // A scheduled retry always has an attempt left to spend.
      ensures r == Ok(DoRetryWait) ==> job.status == RetryWait && job.attemptCount < job.maxAttempts
      ensures r.Err? ==> r.error == LeaseLost && Now() == old(Now())
    {
      if c == OwnershipLost {
        return Ok(DoAbandon);
      }
      if c == DownstreamAmbiguous {
        return Ok(DoReconcile);
      }
      if !Owns(job, token, now) {
        return Err(LeaseLost);
      }
      if Retryable(c) && job.attemptCount < job.maxAttempts {
        var retried := RetryLater(token, delay, now);
        return if retried.Ok? then Ok(DoRetryWait) else Err(retried.error);
      }
      var buried := MarkFailed(token, now, if Retryable(c) then DeadLetter else Failed,
                               if Retryable(c) then "DEAD_LETTER" else "FAILED");
      return if buried.Err? then Err(LeaseLost) else Ok(if Retryable(c) then DoDeadLetter else DoFailed);
    }
  }
}
