/** Finalize and Abort against an arbitrary remote: an ambiguous failure is followed by a
    status read, and only an ACTIVE session is sent the same command again. */
module Reconcile {
  import opened Base
  import P = Policy

  datatype SessionState = Active | Finalizing | Completed | Failed | Aborted | Expired | Unknown

  datatype Failure = Failure(code: string, message: string)

  datatype ReadReply = ReadFailed(failure: Failure) | Status(sid: string, state: SessionState)

  datatype SendReply<+A> = Acked(ack: A) | Rejected(failure: Failure)

  /** The remote's answer to the n-th send and to the n-th status read. */
  datatype Remote<!A> = Remote(send: nat -> SendReply<A>, read: nat -> ReadReply)

  datatype Call<+C> = Sent(command: C) | Read(reply: ReadReply)

  datatype Budget = Budget(attempts: nat, polls: nat)

  // ---------------------------------------------------------------- traces

  function Sends<C>(trace: seq<Call<C>>): nat {
    if trace == [] then 0 else Sends(trace[..|trace| - 1]) + if trace[|trace| - 1].Sent? then 1 else 0
  }

  function Reads<C>(trace: seq<Call<C>>): nat {
    if trace == [] then 0 else Reads(trace[..|trace| - 1]) + if trace[|trace| - 1].Read? then 1 else 0
  }

  predicate Saw<C>(call: Call<C>, sid: string, state: SessionState) {
    call == Read(Status(sid, state))
  }

  /** The loop may make `call` after `before`: the first call is a send; a send repeats the
      same command, within its budget and right after ACTIVE was read; a read follows an
      ambiguous failure, or a FINALIZING status while polls are left, and reports what the
      remote answers. */
  predicate MayCall<A, C(==)>(remote: Remote<A>, ambiguous: Failure -> bool, budget: Budget, sid: string, command: C,
                              before: seq<Call<C>>, call: Call<C>) {
    match call
    case Sent(c) =>
      && c == command && Sends(before) < budget.attempts
      && (before != [] ==> Saw(before[|before| - 1], sid, Active))
    case Read(reply) =>
      reply == remote.read(Reads(before)) && LeadsToRead(remote, ambiguous, budget, sid, before)
  }

  ghost predicate Legal<A, C>(remote: Remote<A>, ambiguous: Failure -> bool, budget: Budget, sid: string, command: C,
                              trace: seq<Call<C>>) {
    forall k: nat :: k < |trace| ==> LegalAt(remote, ambiguous, budget, sid, command, trace, k)
  }

  ghost predicate LegalAt<A, C>(remote: Remote<A>, ambiguous: Failure -> bool, budget: Budget, sid: string, command: C,
                                trace: seq<Call<C>>, k: nat)
    requires k < |trace|
  {
    MayCall(remote, ambiguous, budget, sid, command, trace[..k], trace[k])
  }

  lemma LegalSnoc<A, C>(remote: Remote<A>, ambiguous: Failure -> bool, budget: Budget, sid: string, command: C,
                        trace: seq<Call<C>>, call: Call<C>)
    requires Legal(remote, ambiguous, budget, sid, command, trace)
             && MayCall(remote, ambiguous, budget, sid, command, trace, call)
    ensures Legal(remote, ambiguous, budget, sid, command, trace + [call])
    ensures Sends(trace + [call]) == Sends(trace) + (if call.Sent? then 1 else 0)
    ensures Reads(trace + [call]) == Reads(trace) + (if call.Read? then 1 else 0)
  {
    var all := trace + [call];
    assert all[..|trace|] == trace;
    forall k: nat | k < |all| ensures LegalAt(remote, ambiguous, budget, sid, command, all, k) {
      if k < |trace| {
        assert LegalAt(remote, ambiguous, budget, sid, command, trace, k);
        assert all[..k] == trace[..k] && all[k] == trace[k];
      }
    }
  }

  lemma AddSend<A, C>(remote: Remote<A>, ambiguous: Failure -> bool, budget: Budget, sid: string, command: C,
                      trace: seq<Call<C>>)
    requires Legal(remote, ambiguous, budget, sid, command, trace) && Sends(trace) < budget.attempts
    requires trace != [] ==> Saw(trace[|trace| - 1], sid, Active)
    ensures var more := trace + [Sent(command)];
            Legal(remote, ambiguous, budget, sid, command, more) && Sends(more) == Sends(trace) + 1
              && Reads(more) == Reads(trace)
  {
    LegalSnoc(remote, ambiguous, budget, sid, command, trace, Sent(command));
  }

  /** The last call leads to a status read. */
  predicate LeadsToRead<A, C>(remote: Remote<A>, ambiguous: Failure -> bool, budget: Budget, sid: string,
                              trace: seq<Call<C>>) {
    && trace != []
    && (var last := trace[|trace| - 1];
        if last.Sent? then Sends(trace) > 0 && remote.send(Sends(trace) - 1).Rejected?
          && ambiguous(remote.send(Sends(trace) - 1).failure)
        else Saw(last, sid, Finalizing) && Reads(trace) < budget.polls)
  }

  lemma AddRead<A, C>(remote: Remote<A>, ambiguous: Failure -> bool, budget: Budget, sid: string, command: C,
                      trace: seq<Call<C>>)
    requires Legal(remote, ambiguous, budget, sid, command, trace) && LeadsToRead(remote, ambiguous, budget, sid, trace)
    ensures var more := trace + [Read(remote.read(Reads(trace)))];
            Legal(remote, ambiguous, budget, sid, command, more) && Sends(more) == Sends(trace)
              && Reads(more) == Reads(trace) + 1
  {
    LegalSnoc(remote, ambiguous, budget, sid, command, trace, Read(remote.read(Reads(trace))));
  }

  lemma LegalInit<A, C>(remote: Remote<A>, ambiguous: Failure -> bool, budget: Budget, sid: string, command: C,
                        trace: seq<Call<C>>)
    requires Legal(remote, ambiguous, budget, sid, command, trace) && trace != []
    ensures var n := |trace| - 1;
            && Legal(remote, ambiguous, budget, sid, command, trace[..n])
            && MayCall(remote, ambiguous, budget, sid, command, trace[..n], trace[n])
  {
    var n := |trace| - 1;
    assert LegalAt(remote, ambiguous, budget, sid, command, trace, n);
    forall k: nat | k < n ensures LegalAt(remote, ambiguous, budget, sid, command, trace[..n], k) {
      assert LegalAt(remote, ambiguous, budget, sid, command, trace, k);
      assert trace[..n][..k] == trace[..k];
    }
  }

  /** Every legal trace, whatever the remote does: at most `attempts` sends and at most
      `polls + attempts - 1` reads. */
  lemma {:induction false} LegalBounded<A, C>(remote: Remote<A>, ambiguous: Failure -> bool, budget: Budget,
                                              sid: string, command: C, trace: seq<Call<C>>)
    requires Legal(remote, ambiguous, budget, sid, command, trace) && budget.attempts > 0 && budget.polls > 0
    ensures Sends(trace) <= budget.attempts
    ensures trace != [] ==> Sends(trace) >= 1
    // Reads never outrun the polls by more than the sends after the first.
    ensures Reads(trace) <= budget.polls + Sends(trace) - 1 || trace == []
    ensures trace != [] && trace[|trace| - 1].Sent? && |trace| > 1 ==> Reads(trace) <= budget.polls + Sends(trace) - 2
    ensures Reads(trace) <= budget.polls + budget.attempts - 1
  {
    if trace != [] {
      var n := |trace| - 1;
      LegalInit(remote, ambiguous, budget, sid, command, trace);
      LegalBounded(remote, ambiguous, budget, sid, command, trace[..n]);
    }
  }

  /** The loop has nothing more to do after `trace`: the send was answered or failed for
      good, the read failed or named another session, or the state leaves no further step. */
  ghost predicate Ended<A, C>(remote: Remote<A>, ambiguous: Failure -> bool, budget: Budget, sid: string,
                              trace: seq<Call<C>>)
    requires trace != []
  {
    match trace[|trace| - 1]
    case Sent(_) =>
      Sends(trace) > 0 && (remote.send(Sends(trace) - 1).Acked? || !ambiguous(remote.send(Sends(trace) - 1).failure))
    case Read(ReadFailed(_)) => true
    case Read(Status(x, state)) =>
      x == sid ==>
        (state == Active ==> Sends(trace) == budget.attempts)
        && (state == Finalizing ==> Reads(trace) >= budget.polls)
  }

  /** At most one call is allowed at any point, and none once the loop has ended. */
  lemma OneNextCall<A, C>(remote: Remote<A>, ambiguous: Failure -> bool, budget: Budget, sid: string, command: C,
                          before: seq<Call<C>>, a: Call<C>, b: Call<C>)
    requires MayCall(remote, ambiguous, budget, sid, command, before, a)
    ensures MayCall(remote, ambiguous, budget, sid, command, before, b) ==> a == b
    ensures before != [] ==> !Ended(remote, ambiguous, budget, sid, before)
  {
  }

  /** Two legal traces agree as far as the shorter one goes. */
  lemma {:induction false} LegalAgree<A, C>(remote: Remote<A>, ambiguous: Failure -> bool, budget: Budget,
                                            sid: string, command: C, a: seq<Call<C>>, b: seq<Call<C>>)
    requires Legal(remote, ambiguous, budget, sid, command, a) && Legal(remote, ambiguous, budget, sid, command, b)
    requires |a| <= |b|
    ensures a == b[..|a|]
    decreases |a|
  {
    if a != [] {
      var n := |a| - 1;
      LegalInit(remote, ambiguous, budget, sid, command, a);
      LegalAgree(remote, ambiguous, budget, sid, command, a[..n], b);
      assert LegalAt(remote, ambiguous, budget, sid, command, b, n);
      OneNextCall(remote, ambiguous, budget, sid, command, a[..n], a[n], b[n]);
    }
  }

  /** No legal trace goes on beyond one that has ended. */
  lemma EndedIsLongest<A, C>(remote: Remote<A>, ambiguous: Failure -> bool, budget: Budget, sid: string, command: C,
                             a: seq<Call<C>>, b: seq<Call<C>>)
    requires a != [] && Legal(remote, ambiguous, budget, sid, command, a) && Ended(remote, ambiguous, budget, sid, a)
    requires Legal(remote, ambiguous, budget, sid, command, b)
    ensures |b| <= |a|
  {
    if |a| < |b| {
      LegalAgree(remote, ambiguous, budget, sid, command, a, b);
      assert LegalAt(remote, ambiguous, budget, sid, command, b, |a|);
      OneNextCall(remote, ambiguous, budget, sid, command, a, b[|a|], b[|a|]);
    }
  }

  /** The remote's answers determine the whole exchange: there is only one trace that follows
      the rules to their end. */
  lemma TraceUnique<A, C>(remote: Remote<A>, ambiguous: Failure -> bool, budget: Budget, sid: string, command: C,
                          a: seq<Call<C>>, b: seq<Call<C>>)
    requires a != [] && Legal(remote, ambiguous, budget, sid, command, a) && Ended(remote, ambiguous, budget, sid, a)
    requires b != [] && Legal(remote, ambiguous, budget, sid, command, b) && Ended(remote, ambiguous, budget, sid, b)
    ensures a == b
  {
    EndedIsLongest(remote, ambiguous, budget, sid, command, a, b);
    EndedIsLongest(remote, ambiguous, budget, sid, command, b, a);
    LegalAgree(remote, ambiguous, budget, sid, command, a, b);
  }

  /** The n-th send; `settled` unless its failure is ambiguous. */
  method SendOnce<A, C>(remote: Remote<A>, ambiguous: Failure -> bool, budget: Budget, sid: string, command: C,
                        trace: seq<Call<C>>, n: nat) returns (more: seq<Call<C>>, settled: bool)
    requires Legal(remote, ambiguous, budget, sid, command, trace) && n == Sends(trace) < budget.attempts
    requires trace != [] ==> Saw(trace[|trace| - 1], sid, Active)
    ensures more != [] && Legal(remote, ambiguous, budget, sid, command, more)
    ensures Sends(more) == n + 1 && Reads(more) == Reads(trace)
    ensures if settled then Ended(remote, ambiguous, budget, sid, more)
            else LeadsToRead(remote, ambiguous, budget, sid, more)
  {
    AddSend(remote, ambiguous, budget, sid, command, trace);
    more := trace + [Sent(command)];
    var reply := remote.send(n);
    settled := reply.Acked? || !ambiguous(reply.failure);
  }

  /** The n-th status read; no state if it failed or named another session. */
  method ReadOnce<A, C>(remote: Remote<A>, ambiguous: Failure -> bool, budget: Budget, sid: string, ghost command: C,
                        trace: seq<Call<C>>, n: nat) returns (more: seq<Call<C>>, state: Option<SessionState>)
    requires Legal(remote, ambiguous, budget, sid, command, trace) && n == Reads(trace)
    requires LeadsToRead(remote, ambiguous, budget, sid, trace)
    ensures more != [] && Legal(remote, ambiguous, budget, sid, command, more)
    ensures Sends(more) == Sends(trace) && Reads(more) == n + 1
    ensures if state.Some? then Saw(more[|more| - 1], sid, state.value) else Ended(remote, ambiguous, budget, sid, more)
  {
    AddRead(remote, ambiguous, budget, sid, command, trace);
    var status := remote.read(n);
    more := trace + [Read(status)];
    state := if status.ReadFailed? || status.sid != sid then None else Some(status.state);
  }

  /** The loop that Finalize and Abort share: send, read after an ambiguous failure, send again
      only on ACTIVE, poll on FINALIZING. */
  method SendAndRead<A, C>(remote: Remote<A>, ambiguous: Failure -> bool, budget: Budget, sid: string, command: C)
    returns (trace: seq<Call<C>>)
    requires budget.attempts > 0 && budget.polls > 0
    ensures trace != [] && Legal(remote, ambiguous, budget, sid, command, trace)
            && Ended(remote, ambiguous, budget, sid, trace)
  {
    trace := [];
    var attempts: nat, polls: nat, last: Option<SessionState> := 0, 0, None;
    while true
      invariant Legal(remote, ambiguous, budget, sid, command, trace)
      invariant attempts == Sends(trace) <= budget.attempts && polls == Reads(trace)
      invariant last.None? <==> trace == []
      invariant last.Some? ==> Saw(trace[|trace| - 1], sid, last.value)
      decreases budget.attempts - attempts, if polls < budget.polls then budget.polls - polls else 0
    {
      if last.None? || last.value == Active {
        if attempts >= budget.attempts {
          return;
        }
        var settled;
        trace, settled := SendOnce(remote, ambiguous, budget, sid, command, trace, attempts);
        attempts := attempts + 1;
        if settled {
          return;
        }
      } else if last.value != Finalizing || polls >= budget.polls {
        return;
      }
      trace, last := ReadOnce(remote, ambiguous, budget, sid, command, trace, polls);
      polls := polls + 1;
      if last.None? {
        return;
      }
    }
  }

  // ---------------------------------------------------------------- finalize

  datatype FinalizeCommand = FinalizeCommand(sid: string, finalHash: string)

  datatype FinalizeAck = FinalizeAck(zone: string, document: string, version: int, operationState: string)

  datatype FinalizeError = Integrity | Transport(failure: Failure) | OperationFailed
    | Pending(state: SessionState, polls: nat)
                         | IdentityUnavailable | TerminalSession(state: SessionState)

  datatype FinalizeOutcome = DirectAck(ack: FinalizeAck, vector: P.VectorStatus)
    | ReconciledCompleted(vector: P.VectorStatus)

  /** `norm` is strip().upper(). */
  predicate ShouldReconcile(norm: string -> string, f: Failure) {
    var code := norm(f.code);
    || code in {"DEADLINE_EXCEEDED", "UNAVAILABLE", "ABORTED"}
    || P.ClassifyGrpcFailure(norm, code, f.message) == P.ReconcileStatus
  }

  /** Finalize looks at the status after a failure that may have taken effect, and after no
      other. */
  lemma ReconcilesExactly(norm: string -> string, f: Failure)
    requires forall t :: norm(norm(t)) == norm(t)
    ensures var c, m := norm(f.code), norm(f.message);
            ShouldReconcile(norm, f) <==>
              || c == "DEADLINE_EXCEEDED" || c == "UNAVAILABLE" || c == "ABORTED"
              || (c == "FAILED_PRECONDITION" && P.SaysMovedOn(m) && !P.Contains(m, "HASH_MISMATCH"))
  {
    P.FailuresMean(norm, norm(f.code), f.message);
  }

  predicate EndsWith(t: string, suffix: string) {
    |suffix| <= |t| && t[|t| - |suffix|..] == suffix
  }

  /** What the caller knows of the document, and the vector-status call. */
  datatype Target = Target(zone: Option<string>, document: string, version: int,
                           vector: string -> Result<P.VectorStatus, Failure>)

  predicate SameDocument(t: Target, ack: FinalizeAck) {
    (t.zone.Some? ==> ack.zone == t.zone.value) && ack.document == t.document && ack.version == t.version
  }

  /** A direct acknowledgement: identity, operation state, vector status. */
  function DirectResult(target: Target, ack: FinalizeAck): Result<FinalizeOutcome, FinalizeError> {
    if !SameDocument(target, ack) then Err(Integrity)
    else if EndsWith(ack.operationState, "FAILED") then Err(OperationFailed)
    else match target.vector(ack.zone)
      case Err(f) => Err(Transport(f))
      case Ok(v) => Ok(DirectAck(ack, v))
  }

  /** A session found COMPLETED: only a known zone leads on to the vector status. */
  function CompletedResult(target: Target): Result<FinalizeOutcome, FinalizeError> {
    if target.zone.None? then Err(IdentityUnavailable)
    else match target.vector(target.zone.value)
      case Err(f) => Err(Transport(f))
      case Ok(v) => Ok(ReconciledCompleted(v))
  }

  /** How the loop ends, from the trace alone. */
  ghost predicate FinalizeEnd(remote: Remote<FinalizeAck>, ambiguous: Failure -> bool, budget: Budget, sid: string,
                              target: Target,
                              trace: seq<Call<FinalizeCommand>>, r: Result<FinalizeOutcome, FinalizeError>)
    requires trace != []
  {
    match trace[|trace| - 1]
    case Sent(_) =>
      Sends(trace) > 0 &&
      (match remote.send(Sends(trace) - 1)
       case Rejected(f) => !ambiguous(f) && r == Err(Transport(f))
       case Acked(ack) => r == DirectResult(target, ack))
    case Read(ReadFailed(f)) => r == Err(Transport(f))
    case Read(Status(x, state)) =>
      if x != sid then r == Err(Integrity)
      else match state
        case Active => Sends(trace) == budget.attempts && r == Err(Pending(Active, Reads(trace)))
        case Finalizing => Reads(trace) >= budget.polls && r == Err(Pending(Finalizing, Reads(trace)))
        case Completed => r == CompletedResult(target)
        case Unknown => r == Err(Pending(Unknown, Reads(trace)))
        case _ => r == Err(TerminalSession(state))
  }

  /** `bound` is the session id of the durable checkpoint, if there is one. */
  method Finalize(remote: Remote<FinalizeAck>, norm: string -> string, budget: Budget, bound: Option<string>,
                  command: FinalizeCommand, target: Target)
    returns (r: Result<FinalizeOutcome, FinalizeError>, trace: seq<Call<FinalizeCommand>>)
    requires budget.attempts > 0 && budget.polls > 0
    ensures bound != Some(command.sid) <==> trace == []
    ensures trace == [] ==> r == Err(Integrity)
    ensures Legal(remote, f => ShouldReconcile(norm, f), budget, command.sid, command, trace)
    ensures trace != [] ==> FinalizeEnd(remote, f => ShouldReconcile(norm, f), budget, command.sid, target, trace, r)
  {
    if bound != Some(command.sid) {
      return Err(Integrity), [];
    }
    var sid := command.sid;
    trace := SendAndRead(remote, f => ShouldReconcile(norm, f), budget, sid, command);
    match trace[|trace| - 1]
    case Sent(_) =>
      match remote.send(Sends(trace) - 1) {
        case Rejected(f) => r := Err(Transport(f));
        case Acked(ack) => r := DirectResult(target, ack);
      }
    case Read(ReadFailed(f)) => r := Err(Transport(f));
    case Read(Status(x, state)) =>
      if x != sid {
        r := Err(Integrity);
      } else if state == Completed {
        r := CompletedResult(target);
      } else if state == Failed || state == Aborted || state == Expired {
        r := Err(TerminalSession(state));
      } else {
        r := Err(Pending(state, Reads(trace)));
      }
  }

  // ---------------------------------------------------------------- abort

  datatype AbortCommand = AbortCommand(sid: string, reason: string)

  datatype AbortError = BlankReason | AbortIntegrity | AbortTransport(failure: Failure)
    | AbortPending(state: SessionState, observations: nat)
                      | AbortConflict

  datatype AbortOutcome = AbortDirect | AbortReconciled | AlreadyTerminal(state: SessionState)

  predicate AmbiguousAbort(f: Failure) {
    f.code in {"DEADLINE_EXCEEDED", "UNAVAILABLE", "CANCELLED", "UNKNOWN"}
  }

  function ResolveObserved(state: SessionState, direct: bool): Result<AbortOutcome, AbortError> {
    match state
    case Aborted => Ok(if direct then AbortDirect else AbortReconciled)
    case Failed => Ok(AlreadyTerminal(state))
    case Expired => Ok(AlreadyTerminal(state))
    case Completed => Err(AbortConflict)
    case _ => Err(AbortPending(state, 0))
  }

  datatype AbortAck = AbortAck(sid: string, state: SessionState)

  ghost predicate AbortEnd(remote: Remote<AbortAck>, ambiguous: Failure -> bool, budget: Budget, sid: string,
                           trace: seq<Call<AbortCommand>>, r: Result<AbortOutcome, AbortError>)
    requires trace != []
  {
    match trace[|trace| - 1]
    case Sent(_) =>
      Sends(trace) > 0 &&
      (match remote.send(Sends(trace) - 1)
       case Rejected(f) => !ambiguous(f) && r == Err(AbortTransport(f))
       case Acked(ack) => r == if ack.sid != sid then Err(AbortIntegrity) else ResolveObserved(ack.state, true))
    case Read(ReadFailed(f)) => r == Err(AbortTransport(f))
    case Read(Status(x, state)) =>
      if x != sid then r == Err(AbortIntegrity)
      else match state
        case Active => Sends(trace) == budget.attempts && r == Err(AbortPending(Active, Reads(trace)))
        case Finalizing => Reads(trace) >= budget.polls && r == Err(AbortPending(Finalizing, Reads(trace)))
        case _ => r == ResolveObserved(state, false)
  }

  method Abort(remote: Remote<AbortAck>, strip: string -> string, budget: Budget, bound: Option<string>, sid: string,
               reason: string)
    returns (r: Result<AbortOutcome, AbortError>, trace: seq<Call<AbortCommand>>)
    requires budget.attempts > 0 && budget.polls > 0
    ensures strip(reason) == [] || bound != Some(sid) <==> trace == []
    ensures trace == [] ==> r == Err(if strip(reason) == [] then BlankReason else AbortIntegrity)
    ensures Legal(remote, AmbiguousAbort, budget, sid, AbortCommand(sid, strip(reason)), trace)
    ensures trace != [] ==> AbortEnd(remote, AmbiguousAbort, budget, sid, trace, r)
  {
    if strip(reason) == [] {
      return Err(BlankReason), [];
    }
    if bound != Some(sid) {
      return Err(AbortIntegrity), [];
    }
    trace := SendAndRead(remote, AmbiguousAbort, budget, sid, AbortCommand(sid, strip(reason)));
    match trace[|trace| - 1]
    case Sent(_) =>
      match remote.send(Sends(trace) - 1) {
        case Rejected(f) => r := Err(AbortTransport(f));
        case Acked(ack) => r := if ack.sid != sid then Err(AbortIntegrity) else ResolveObserved(ack.state, true);
      }
    case Read(ReadFailed(f)) => r := Err(AbortTransport(f));
    case Read(Status(x, state)) =>
      if x != sid {
        r := Err(AbortIntegrity);
      } else if state == Active || state == Finalizing {
        r := Err(AbortPending(state, Reads(trace)));
      } else {
        r := ResolveObserved(state, false);
      }
  }
}
