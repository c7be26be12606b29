/** What the lease rows mean over time: who owns the job when, when it can be claimed, and
    what each class of failure makes of it. */
module Leases {
  import opened Base
  import opened Coordinator

  /** A job with attempts left can be claimed when it is new, when its retry is due, or when it
      is PROCESSING and nobody owns it any more; never once it is finished. */
  lemma ClaimableExactly(rows: Rows, now: Time)
    requires Lifecycle(rows)
    ensures Claimable(rows.job, now) <==>
              && !rows.job.cancelRequested && rows.job.attemptCount < rows.job.maxAttempts
              && !Terminal(rows.job.status)
              && (rows.job.status == RetryWait && rows.job.nextRetryAt.Some? ==> rows.job.nextRetryAt.value <= now)
              && (rows.job.status == Processing ==> forall token :: !Owns(rows.job, token, now))
  {
    if rows.job.status == Processing {
      var holder := LeaseToken(rows.job.workerId.value, rows.job.leaseGeneration, "");
      assert rows.job.leaseUntil.value >= now <==> Owns(rows.job, holder, now);
    }
  }

  /** A claim gives its token, and nobody else, the job for exactly the lease. */
  lemma ClaimGivesLease(rows: Rows, now: Time, worker: string, leaseSeconds: nat, attemptId: string, token: LeaseToken,
                        at: Time)
    requires Lifecycle(rows)
    ensures Owns(Claim(rows, now, worker, leaseSeconds, attemptId).job, token, at) <==>
              token.workerId == worker && token.generation == ClaimToken(rows, worker, attemptId).generation
              && at <= now + leaseSeconds
  {
  }

  /** A claim opens the next attempt and closes an abandoned one; the others stay as they were. */
  lemma ClaimAttempts(rows: Rows, now: Time, worker: string, leaseSeconds: nat, attemptId: string)
    requires Lifecycle(rows) && Claimable(rows.job, now)
    ensures var n, r := |rows.attempts|, Claim(rows, now, worker, leaseSeconds, attemptId);
            && |r.attempts| == n + 1
            && r.attempts[n] == Attempt(attemptId, n + 1, n + 1, worker, false, None)
            && (forall i :: 0 <= i < n ==>
                  r.attempts[i] == if rows.attempts[i].finished then rows.attempts[i]
                                   else rows.attempts[i].(finished := true, result := Some("LEASE_EXPIRED")))
  {
    if rows.job.status == Processing {
      var n := |rows.attempts|;
      assert CloseLastOpen(rows.attempts) == rows.attempts[n - 1 := Finish(rows.attempts[n - 1], "LEASE_EXPIRED")];
    }
  }

  /** No earlier token survives a claim: generations are never used twice. */
  lemma ClaimEndsOthers(rows: Rows, now: Time, worker: string, leaseSeconds: nat, attemptId: string, token: LeaseToken,
                        at: Time)
    requires Lifecycle(rows) && Issued(rows, token)
    ensures !Owns(Claim(rows, now, worker, leaseSeconds, attemptId).job, token, at)
  {
  }

  /** A renewal lets the owner keep the job until the new end and not longer, and nothing else
      of the rows changes. */
  lemma HeartbeatExtends(rows: Rows, token: LeaseToken, now: Time, leaseSeconds: nat, other: LeaseToken, at: Time)
    requires Heartbeat(rows, token, now, leaseSeconds).Some?
    ensures var r := Heartbeat(rows, token, now, leaseSeconds).value;
            && (Owns(r.job, other, at) <==>
                  other.workerId == token.workerId && other.generation == token.generation && at <= now + leaseSeconds)
            && r.attempts == rows.attempts && r.job.(leaseUntil := rows.job.leaseUntil) == rows.job
  {
  }

  /** A stage change says the stage and changes nothing else. */
  lemma StageOnly(rows: Rows, token: LeaseToken, now: Time, stage: string)
    requires AdvanceStage(rows, token, now, stage).Some?
    ensures var r := AdvanceStage(rows, token, now, stage).value;
            && r.job.stage == Some(stage) && r.job.(stage := rows.job.stage) == rows.job
            && r.attempts == rows.attempts
  {
  }

  /** The owner's attempt, closed with this result, and no other attempt touched. */
  ghost predicate ClosedAs(rows: Rows, r: Rows, result: string) {
    var n := |rows.attempts|;
    && n > 0 && |r.attempts| == n && r.attempts[..n - 1] == rows.attempts[..n - 1]
    && r.attempts[n - 1] == rows.attempts[n - 1].(finished := true, result := Some(result))
  }

  /** Released: nobody owns the job, now or later, and it can be claimed from `from` on while
      attempts are left, or never. */
  ghost predicate ReleasedUntil(r: Rows, from: Option<Time>) {
    && (forall token, at :: !Owns(r.job, token, at))
    && forall at :: Claimable(r.job, at) <==>
         from.Some? && at >= from.value && !r.job.cancelRequested && r.job.attemptCount < r.job.maxAttempts
  }

  lemma FinishCloses(rows: Rows, token: LeaseToken, now: Time, result: string)
    requires Lifecycle(rows) && Owns(rows.job, token, now) && Issued(rows, token)
    ensures var f := FinishAttempt(rows.attempts, token, result);
            f.Some? && ClosedAs(rows, Rows(rows.job, f.value), result)
  {
    var n := |rows.attempts|;
    assert OpenAttemptOf(rows.attempts[n - 1], token);
    var f := FinishAttempt(rows.attempts, token, result).value;
    assert f[..n - 1] == rows.attempts[..n - 1];
  }

  /** Completion closes the attempt and the job for good. */
  lemma CompleteMeans(rows: Rows, token: LeaseToken, now: Time)
    requires Lifecycle(rows) && Issued(rows, token)
    ensures var r := Complete(rows, token, now);
            && (r.Some? <==> Owns(rows.job, token, now))
            && (r.Some? ==> r.value.job.status == Completed && ClosedAs(rows, r.value, "COMPLETED")
                            && ReleasedUntil(r.value, None))
  {
    if Owns(rows.job, token, now) {
      FinishCloses(rows, token, now, "COMPLETED");
    }
  }

  /** Failures that another attempt may cure. */
  const PASSING := {Transient, DependencyUnavailable}

  /** Failures that leave the job with whoever has it. */
  const HANDS_OFF := {OwnershipLost, DownstreamAmbiguous}

  /** What each class of failure makes of the job: left alone, waiting for the retry time,
      dead after the last attempt, or failed at once. */
  lemma FailureMeans(rows: Rows, token: LeaseToken, now: Time, c: FailureClass, delay: nat)
    requires Lifecycle(rows) && Issued(rows, token)
    ensures var h := Handle(rows, token, now, c, delay);
            if c in HANDS_OFF then
              h == Some((rows, if c == OwnershipLost then DoAbandon else DoReconcile))
            else if !Owns(rows.job, token, now) then h.None?
            else if c in PASSING && rows.job.attemptCount < rows.job.maxAttempts then
              && h.Some? && h.value.1 == DoRetryWait && h.value.0.job.status == RetryWait
              && ClosedAs(rows, h.value.0, "RETRY_WAIT") && ReleasedUntil(h.value.0, Some(now + delay))
            else if c in PASSING then
              && h.Some? && h.value.1 == DoDeadLetter && h.value.0.job.status == DeadLetter
              && ClosedAs(rows, h.value.0, "DEAD_LETTER") && ReleasedUntil(h.value.0, None)
            else
              && h.Some? && h.value.1 == DoFailed && h.value.0.job.status == Failed
              && ClosedAs(rows, h.value.0, "FAILED") && ReleasedUntil(h.value.0, None)
  {
    if Owns(rows.job, token, now) && c !in HANDS_OFF {
      if c !in PASSING {
        FinishCloses(rows, token, now, "FAILED");
      } else if rows.job.attemptCount < rows.job.maxAttempts {
        FinishCloses(rows, token, now, "RETRY_WAIT");
      } else {
        FinishCloses(rows, token, now, "DEAD_LETTER");
      }
    }
  }
}
