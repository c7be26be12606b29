/** Classification of transport failures and of the post-finalize vector status. */
module Policy {
  import opened Base

  datatype RetryDecision = ReconcileStatus | BackoffAndRetry | PermanentFailure

  predicate Contains(text: string, part: string) {
    part <= text || (text != [] && Contains(text[1..], part))
  }

  /** `norm` is strip().upper(). */
  function ClassifyGrpcFailure(norm: string -> string, code: string, message: string): RetryDecision {
    var c, m := norm(code), norm(message);
    if c == "UNAVAILABLE" then BackoffAndRetry
    else if c == "DEADLINE_EXCEEDED" || c == "ABORTED" then ReconcileStatus
    else if c == "RESOURCE_EXHAUSTED" then
      if || Contains(m, "MAX_CONCURRENT_INGESTION_SESSIONS EXCEEDED")
         || Contains(m, "MAX_SESSIONS_PER_ACCESS_ZONE EXCEEDED")
         || Contains(m, "MAX_SESSIONS_PER_DOCUMENT EXCEEDED")
      then BackoffAndRetry else PermanentFailure
    else if c == "FAILED_PRECONDITION" then
      if Contains(m, "HASH_MISMATCH") then PermanentFailure
      else if || Contains(m, "INGESTION_SESSION_FINALIZING")
              || Contains(m, "INGESTION_SESSION_COMPLETED")
              || Contains(m, "INGESTION_SESSION_ABORTED")
      then ReconcileStatus else PermanentFailure
    else PermanentFailure
  }

  /** `part` stands in `text` from position `i` on. */
  predicate Stands(text: string, part: string, i: nat) {
    i + |part| <= |text| && text[i..i + |part|] == part
  }

  lemma {:induction false} ContainedAt(text: string, part: string) returns (i: nat)
    requires Contains(text, part)
    ensures Stands(text, part, i)
  {
    if part <= text {
      i := 0;
    } else {
      i := ContainedAt(text[1..], part);
      assert text[1..][i..i + |part|] == text[i + 1..i + 1 + |part|];
      i := i + 1;
    }
  }

  lemma {:induction false} StandsContained(text: string, part: string, i: nat)
    requires Stands(text, part, i)
    ensures Contains(text, part)
    decreases i
  {
    if i == 0 || text == [] {
      assert part <= text;
    } else {
      assert text[1..][i - 1..i - 1 + |part|] == text[i..i + |part|];
      StandsContained(text[1..], part, i - 1);
    }
  }

  /** A text contains a part that stands somewhere in it. */
  lemma ContainsMeans(text: string, part: string)
    ensures Contains(text, part) <==> exists i: nat :: Stands(text, part, i)
  {
    if Contains(text, part) {
      var i := ContainedAt(text, part);
    }
    if i: nat :| Stands(text, part, i) {
      StandsContained(text, part, i);
    }
  }

  /** The three messages that say a limit on sessions is reached. */
  predicate SaysLimit(m: string) {
    || Contains(m, "MAX_CONCURRENT_INGESTION_SESSIONS EXCEEDED")
    || Contains(m, "MAX_SESSIONS_PER_ACCESS_ZONE EXCEEDED") || Contains(m, "MAX_SESSIONS_PER_DOCUMENT EXCEEDED")
  }

  /** The three messages that say the session has moved on. */
  predicate SaysMovedOn(m: string) {
    || Contains(m, "INGESTION_SESSION_FINALIZING") || Contains(m, "INGESTION_SESSION_COMPLETED")
    || Contains(m, "INGESTION_SESSION_ABORTED")
  }

  /** Which failures are retried blindly, and which call for a look at the status first. */
  lemma FailuresMean(norm: string -> string, code: string, message: string)
    ensures var r, c, m := ClassifyGrpcFailure(norm, code, message), norm(code), norm(message);
            && (r == BackoffAndRetry <==> c == "UNAVAILABLE" || (c == "RESOURCE_EXHAUSTED" && SaysLimit(m)))
            && (r == ReconcileStatus <==>
                  || c == "DEADLINE_EXCEEDED" || c == "ABORTED"
                  || (c == "FAILED_PRECONDITION" && SaysMovedOn(m) && !Contains(m, "HASH_MISMATCH")))
  {
    assert "RESOURCE_EXHAUSTED"[0] == 'R' && "FAILED_PRECONDITION"[0] == 'F' && "UNAVAILABLE"[0] == 'U';
    assert "DEADLINE_EXCEEDED"[0] == 'D' && "ABORTED"[0] == 'A';
  }

  /** The operation state after prefix removal. */
  datatype OperationState = Accepted | Indexing | Vectoring | Publishing | Syncing
                          | ReadyState | ActiveState
                          | FailedState | ExpiredState | DeletedState | DeleteScheduled | Deleting
                          | Unsupported(raw: string)

  datatype VectorStatus = VectorStatus(
    state: OperationState, searchable: bool, readyToActivate: bool, documentActive: bool,
    expectedBindings: int, syncedBindings: int, pendingBindings: int, failedBindings: int,
    outboxPending: int, outboxRetryPending: int, outboxFailed: int,
    pointsExpected: int, pointsFound: int, pointsMissing: int, pointsExtra: int)

  datatype ReadinessPolicy = RequireSearchable | AllowReadyToActivate

  datatype Disposition = Wait | ReadyToActivate | Searchable | TerminalState

  predicate Transitional(s: OperationState) {
    s.Accepted? || s.Indexing? || s.Vectoring? || s.Publishing? || s.Syncing?
  }

  predicate TerminalOp(s: OperationState) {
    s.FailedState? || s.ExpiredState? || s.DeletedState? || s.DeleteScheduled? || s.Deleting?
  }

  predicate CountersNonNegative(v: VectorStatus) {
    && v.expectedBindings >= 0 && v.syncedBindings >= 0 && v.pendingBindings >= 0 && v.failedBindings >= 0
    && v.outboxPending >= 0 && v.outboxRetryPending >= 0 && v.outboxFailed >= 0
    && v.pointsExpected >= 0 && v.pointsFound >= 0 && v.pointsMissing >= 0 && v.pointsExtra >= 0
  }

  predicate SyncConsistent(v: VectorStatus) {
    && !(v.failedBindings != 0 || v.outboxFailed != 0 || v.pointsMissing != 0)
    && !(v.expectedBindings != 0 && v.syncedBindings != v.expectedBindings)
    && !(v.pendingBindings != 0 || v.outboxPending != 0 || v.outboxRetryPending != 0)
    && !(v.pointsExpected != 0 && v.pointsFound < v.pointsExpected)
  }

  /** None is the integrity error: the status contradicts itself or is unknown. */
  function Evaluate(v: VectorStatus, policy: ReadinessPolicy): Option<Disposition> {
    if !CountersNonNegative(v) then None
    else if Transitional(v.state) then
      if v.searchable || v.readyToActivate then None else Some(Wait)
    else if v.state.ReadyState? then
      if !v.readyToActivate || !SyncConsistent(v) then None
      else if v.searchable && v.documentActive then Some(Searchable)
      else if policy == AllowReadyToActivate then Some(ReadyToActivate)
      else Some(Wait)
    else if v.state.ActiveState? then
      if !v.searchable || !SyncConsistent(v) then None else Some(Searchable)
    else if TerminalOp(v.state) then
      if v.searchable || v.readyToActivate then None else Some(TerminalState)
    else None
  }

  /** No work is failed, pending or missing, and everything expected is present. */
  ghost predicate FullySynced(v: VectorStatus) {
    && v.searchable
    && v.failedBindings == 0 && v.outboxFailed == 0 && v.pointsMissing == 0
    && v.pendingBindings == 0 && v.outboxPending == 0 && v.outboxRetryPending == 0
    && (v.expectedBindings != 0 ==> v.syncedBindings == v.expectedBindings)
    && v.pointsFound >= v.pointsExpected
  }

  /** SEARCHABLE is a statement about the synchronisation evidence, under either policy. */
  lemma SearchableMeansSynced(v: VectorStatus, policy: ReadinessPolicy)
    requires Evaluate(v, policy) == Some(Searchable)
    ensures FullySynced(v) && Evaluate(v, RequireSearchable) == Some(Searchable)
  {
  }

  /** Every piece of synchronisation evidence is in, searchable or not. */
  ghost predicate WorkDone(v: VectorStatus) {
    && v.failedBindings == 0 && v.outboxFailed == 0 && v.pointsMissing == 0
    && v.pendingBindings == 0 && v.outboxPending == 0 && v.outboxRetryPending == 0
    && (v.expectedBindings == 0 || v.syncedBindings == v.expectedBindings)
    && (v.pointsExpected == 0 || v.pointsFound >= v.pointsExpected)
  }

  /** A status contradicts itself: a negative counter, flags the state does not allow, READY
      or ACTIVE without its flag or with work left, or a state nobody knows. */
  ghost predicate Contradictory(v: VectorStatus) {
    || !CountersNonNegative(v) || v.state.Unsupported?
    || ((Transitional(v.state) || TerminalOp(v.state)) && (v.searchable || v.readyToActivate))
    || (v.state.ReadyState? && (!v.readyToActivate || !WorkDone(v)))
    || (v.state.ActiveState? && (!v.searchable || !WorkDone(v)))
  }

  /** What each answer means, for all statuses and both policies. */
  lemma DispositionMeans(v: VectorStatus, policy: ReadinessPolicy)
    ensures var r := Evaluate(v, policy);
            var live := v.state.ActiveState? || (v.state.ReadyState? && v.searchable && v.documentActive);
            && (r == None <==> Contradictory(v))
            && (r == Some(Searchable) <==> !Contradictory(v) && live)
            && (r == Some(TerminalState) <==> !Contradictory(v) && TerminalOp(v.state))
            && (r == Some(ReadyToActivate)
                <==> !Contradictory(v) && v.state.ReadyState? && !live && policy == AllowReadyToActivate)
            && (r == Some(Wait)
                <==> !Contradictory(v) && !live && !TerminalOp(v.state)
                     && (v.state.ReadyState? ==> policy == RequireSearchable))
  {
    assert CountersNonNegative(v) ==> (SyncConsistent(v) <==> WorkDone(v));
  }
}
