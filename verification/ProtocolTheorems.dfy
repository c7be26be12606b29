/** What holds in every state of every run of the delivery protocol. */
module ProtocolTheorems {
  import opened Base
  import opened Protocol
  import opened ProtocolSafety
  import B = Batching
  import C = Coordinator
  import D = Delivery
  import P = Policy

  // ---------------------------------------------------------------- the invariant over runs

  /** Steps outside the delivery rows, the network and the runners. */
  lemma FrameInv(p: Params, s: State, s': State)
    requires Inv(p, s) && RowsInv(s')
    requires s'.delivery == s.delivery && s'.network == s.network && s'.remote == s.remote && s'.runners == s.runners
    ensures Inv(p, s')
  {
    DeliveryStable(p, s, s');
    forall g | 0 <= g < |s'.runners| ensures PayloadInv(p, s'.runners[g]) && RunnerInv(p, s', s'.runners[g]) {
      RunnerStable(p, s, s', s.runners[g]);
    }
  }

  lemma ClaimRows(p: Params, s: State, worker: string, leaseSeconds: nat, attemptId: string,
                  blocks: seq<B.LogicalBlock>, compatibility: string)
    requires RowsInv(s) && C.Claimable(s.rows.job, s.now) && leaseSeconds > 0
    ensures RowsInv(ClaimStep(p, s, worker, leaseSeconds, attemptId, blocks, compatibility))
  {
    C.ClaimLifecycle(s.rows, s.now, worker, leaseSeconds, attemptId);
    var s' := ClaimStep(p, s, worker, leaseSeconds, attemptId, blocks, compatibility);
    forall g | 0 <= g < |s'.runners|
      ensures s'.runners[g].token.generation == g + 1 && C.Issued(s'.rows, s'.runners[g].token) {
      if g < |s.runners| {
        C.ClaimKeepsIssued(s.rows, s.now, worker, leaseSeconds, attemptId, s.runners[g].token);
      }
    }
  }

  lemma PayloadGood(p: Params, r: Runner)
    requires p.lim.maxCount > 0 && r.load == PayloadFor(p, r.blocks, r.load.compatibility) && r.pc == Starting(LoadJob)
    ensures PayloadInv(p, r)
  {
    if r.load.plannable {
      B.PlanCoversBlocks(r.blocks, p.wire, p.lim);
    }
  }

  lemma ClaimInv(p: Params, s: State, worker: string, leaseSeconds: nat, attemptId: string,
                 blocks: seq<B.LogicalBlock>, compatibility: string)
    requires p.lim.maxCount > 0 && Inv(p, s)
    ensures Inv(p, ClaimStep(p, s, worker, leaseSeconds, attemptId, blocks, compatibility))
  {
    var s' := ClaimStep(p, s, worker, leaseSeconds, attemptId, blocks, compatibility);
    if leaseSeconds > 0 && C.Claimable(s.rows.job, s.now) {
      ClaimRows(p, s, worker, leaseSeconds, attemptId, blocks, compatibility);
      DeliveryStable(p, s, s');
      var n := |s.runners|;
      PayloadGood(p, s'.runners[n]);
      RunnersStable(p, s, s', s'.runners[n]);
    }
  }

  lemma RunnersStable(p: Params, s: State, s': State, r: Runner)
    requires Inv(p, s) && s'.delivery == s.delivery && s'.remote == s.remote
    requires s'.runners == s.runners + [r] && PayloadInv(p, r) && RunnerInv(p, s', r)
    ensures forall g :: 0 <= g < |s'.runners| ==> PayloadInv(p, s'.runners[g]) && RunnerInv(p, s', s'.runners[g])
  {
    forall g | 0 <= g < |s.runners| ensures PayloadInv(p, s'.runners[g]) && RunnerInv(p, s', s'.runners[g]) {
      assert s'.runners[g] == s.runners[g];
      RunnerStable(p, s, s', s.runners[g]);
    }
  }

  /** A fenced release of the job row keeps the rows in order. */
  lemma ReleaseRows(s: State, g: nat, status: C.JobStatus, result: string, next: Option<C.Time>)
    requires RowsInv(s) && g < |s.runners| && Owned(s, s.runners[g])
    requires status == C.Failed || status == C.DeadLetter
             || (status == C.RetryWait && s.rows.job.attemptCount < s.rows.job.maxAttempts)
    ensures var f := C.FinishAttempt(s.rows.attempts, s.runners[g].token, result);
            f.Some? ==> RowsInv(s.(rows := C.Rows(C.Released(s.rows.job, status).(nextRetryAt := next), f.value)))
  {
    var r := s.runners[g];
    C.FinishLifecycle(s.rows, r.token, s.now, status, result);
    var f := C.FinishAttempt(s.rows.attempts, r.token, result);
    if f.Some? {
      forall k | 0 <= k < |s.runners| ensures C.Issued(C.Rows(s.rows.job, f.value), s.runners[k].token) {
        assert C.Issued(s.rows, s.runners[k].token);
      }
    }
  }

  lemma FailureRows(s: State, g: nat, failure: C.FailureClass, delay: nat)
    requires RowsInv(s) && g < |s.runners|
    ensures var h := C.Handle(s.rows, s.runners[g].token, s.now, failure, delay);
            h.Some? ==> RowsInv(s.(rows := h.value.0))
  {
    if failure == C.OwnershipLost || failure == C.DownstreamAmbiguous {
      assert s.(rows := s.rows) == s;
    } else if Owned(s, s.runners[g]) {
      if C.Retryable(failure) && s.rows.job.attemptCount < s.rows.job.maxAttempts {
        ReleaseRows(s, g, C.RetryWait, "RETRY_WAIT", Some(s.now + delay));
      } else if C.Retryable(failure) {
        ReleaseRows(s, g, C.DeadLetter, "DEAD_LETTER", None);
      } else {
        ReleaseRows(s, g, C.Failed, "FAILED", None);
      }
    }
  }

  lemma HeartbeatRows(s: State, g: nat, leaseSeconds: nat)
    requires RowsInv(s) && g < |s.runners|
    ensures var h := C.Heartbeat(s.rows, s.runners[g].token, s.now, leaseSeconds);
            h.Some? ==> RowsInv(s.(rows := h.value))
  {
    var h := C.Heartbeat(s.rows, s.runners[g].token, s.now, leaseSeconds);
    if h.Some? {
      forall k | 0 <= k < |s.runners| ensures C.Issued(h.value, s.runners[k].token) {
        assert C.Issued(s.rows, s.runners[k].token);
      }
    }
  }

  lemma DeliverInv(p: Params, s: State, m: Message)
    requires Inv(p, s) && m in s.network
    ensures Inv(p, RemoteAppend(s, m))
  {
    var s' := RemoteAppend(s, m);
    RemoteAppendGrows(s, m);
    assert GoodBatch(p, s.delivery, m.index, m.batch);
    forall x, i | x in s'.remote && i in s'.remote[x] ensures GoodBatch(p, s'.delivery, i, s'.remote[x][i]) {
      if x in s.remote && i in s.remote[x] {
        assert GoodBatch(p, s.delivery, i, s.remote[x][i]);
      }
    }
    forall i: nat | i < D.Ensured(s'.delivery).nextBatch ensures AtRemote(s', i) {
      assert AtRemote(s, i);
    }
    forall g | 0 <= g < |s'.runners| ensures PayloadInv(p, s'.runners[g]) && RunnerInv(p, s', s'.runners[g]) {
      RunnerStable(p, s, s', s.runners[g]);
    }
  }

  lemma RemoteAppendGrows(s: State, m: Message)
    ensures RemoteGrows(s, RemoteAppend(s, m))
  {
  }

  lemma CancelRows(s: State)
    requires RowsInv(s)
    ensures RowsInv(s.(rows := s.rows.(job := s.rows.job.(cancelRequested := true))))
  {
    var s' := s.(rows := s.rows.(job := s.rows.job.(cancelRequested := true)));
    forall k | 0 <= k < |s.runners| ensures C.Issued(s'.rows, s.runners[k].token) {
      assert C.Issued(s.rows, s.runners[k].token);
    }
  }

  /** Every step keeps the invariant. */
  lemma ApplyInv(p: Params, s: State, e: Event)
    requires p.lim.maxCount > 0 && Inv(p, s)
    ensures Inv(p, Apply(p, s, e))
  {
    match e
    case Tick(elapsed) => FrameInv(p, s, Apply(p, s, e));
    case RequestCancel =>
      CancelRows(s);
      FrameInv(p, s, Apply(p, s, e));
    case Claim(worker, leaseSeconds, attemptId, blocks, compatibility) =>
      ClaimInv(p, s, worker, leaseSeconds, attemptId, blocks, compatibility);
    case Heartbeat(g, leaseSeconds) =>
      if g < |s.runners| {
        HeartbeatRows(s, g, leaseSeconds);
        FrameInv(p, s, Apply(p, s, e));
      }
    case HandleFailure(g, failure, delay) =>
      if g < |s.runners| {
        FailureRows(s, g, failure, delay);
        FrameInv(p, s, Apply(p, s, e));
      }
    case Deliver(m) =>
      if m in s.network {
        DeliverInv(p, s, m);
      }
    case Advance(g, reply) =>
      if g < |s.runners| {
        RunnerGood(p, s, g, reply);
        GoodStepInv(p, s, g, StepRunner(p, s, g, reply));
      }
  }

  lemma InitInv(p: Params, maxAttempts: nat, now: C.Time)
    ensures Inv(p, Init(maxAttempts, now))
  {
  }

  lemma {:induction false} RunKeepsInv(p: Params, s: State, events: seq<Event>)
    requires p.lim.maxCount > 0 && Inv(p, s)
    ensures Inv(p, Run(p, s, events))
  {
    if events != [] {
      RunKeepsInv(p, s, events[..|events| - 1]);
      ApplyInv(p, Run(p, s, events[..|events| - 1]), events[|events| - 1]);
    }
  }

  // ---------------------------------------------------------------- job lifecycle

  /** The attempts mirror the lease generations, PROCESSING holds exactly while the last
      attempt is open, and a waiting retry has budget left. */
  ghost predicate LifecycleHolds(rows: C.Rows) {
    var n := |rows.attempts|;
    && rows.job.leaseGeneration == rows.job.attemptCount == n <= rows.job.maxAttempts
    && (forall i :: 0 <= i < n ==> rows.attempts[i].generation == i + 1)
    && (rows.job.status == C.Processing <==> n > 0 && !rows.attempts[n - 1].finished)
    && (forall i :: 0 <= i < n - 1 ==> rows.attempts[i].finished)
    && (rows.job.status == C.RetryWait ==> rows.job.attemptCount < rows.job.maxAttempts)
  }

  lemma JobLifecycle(p: Params, maxAttempts: nat, now: C.Time, events: seq<Event>)
    requires p.lim.maxCount > 0
    ensures LifecycleHolds(Run(p, Init(maxAttempts, now), events).rows)
  {
    InitInv(p, maxAttempts, now);
    RunKeepsInv(p, Init(maxAttempts, now), events);
    LifecycleFromInv(Run(p, Init(maxAttempts, now), events));
  }

  lemma LifecycleFromInv(s: State)
    requires RowsInv(s)
    ensures LifecycleHolds(s.rows)
  {
  }

  lemma TerminalStep(p: Params, s: State, e: Event)
    requires p.lim.maxCount > 0 && Inv(p, s) && C.Terminal(s.rows.job.status)
    ensures Apply(p, s, e).rows.job.status == s.rows.job.status
    ensures Apply(p, s, e).rows.attempts == s.rows.attempts
  {
    if e.Advance? && e.g < |s.runners| {
      TerminalTurn(p, s, e.g, e.reply);
    }
  }

  lemma TerminalTurn(p: Params, s: State, g: nat, reply: Reply)
    requires Inv(p, s) && C.Terminal(s.rows.job.status) && g < |s.runners|
    ensures StepRunner(p, s, g, reply).rows == s.rows
  {
    RunnerGood(p, s, g, reply);
  }

  /** Terminal statuses are absorbing. */
  lemma {:induction false} TerminalAbsorbing(p: Params, s: State, events: seq<Event>)
    requires p.lim.maxCount > 0 && Inv(p, s) && C.Terminal(s.rows.job.status)
    ensures Run(p, s, events).rows.job.status == s.rows.job.status
    ensures Run(p, s, events).rows.attempts == s.rows.attempts
  {
    if events != [] {
      var init := events[..|events| - 1];
      TerminalAbsorbing(p, s, init);
      RunKeepsInv(p, s, init);
      TerminalStep(p, Run(p, s, init), events[|events| - 1]);
    }
  }

  // ---------------------------------------------------------------- fencing

  predicate Valid(s: State, g: nat) {
    g < |s.runners| && Owned(s, s.runners[g])
  }

  /** The claim whose token an event acts under, if any. */
  function ActorOf(e: Event): Option<nat> {
    if e.Heartbeat? || e.HandleFailure? || e.Advance? then Some(e.g) else None
  }

  /** At most one issued token is valid at any time. */
  lemma OneValidToken(p: Params, s: State, g: nat, h: nat)
    requires Inv(p, s) && Valid(s, g) && Valid(s, h)
    ensures g == h
  {
  }

  lemma StartFenced(p: Params, s: State, g: nat, phase: StartPhase, reply: Reply)
    requires g < |s.runners| && !Owned(s, s.runners[g])
    ensures var s' := StepStart(p, s, g, phase, reply); s'.rows == s.rows && s'.delivery == s.delivery
  {
  }

  lemma FinalizeFenced(p: Params, s: State, g: nat, sid: string, phase: FinalizePhase, reply: Reply)
    requires g < |s.runners| && !Owned(s, s.runners[g])
    ensures var s' := StepFinalize(p, s, g, sid, phase, reply);
            s'.rows == s.rows && D.Fenced(s'.delivery) == D.Fenced(s.delivery)
  {
  }

  lemma ActivateFenced(s: State, g: nat, sid: string, zone: string, phase: ActivatePhase, reply: Reply)
    requires g < |s.runners| && !Owned(s, s.runners[g])
    ensures var s' := StepActivate(s, g, sid, zone, phase, reply);
            s'.rows == s.rows && D.Fenced(s'.delivery) == D.Fenced(s.delivery)
  {
  }

  lemma AppendFenced(p: Params, s: State, g: nat, sid: string, i: nat, phase: AppendPhase, reply: Reply)
    requires g < |s.runners| && i < |s.runners[g].load.plan| && !Owned(s, s.runners[g])
    ensures var s' := StepAppend(p, s, g, sid, i, phase, reply); s'.rows == s.rows && s'.delivery == s.delivery
  {
  }

  /** A step under an invalid token changes neither the job row, nor the attempts, nor any
      fenced delivery field: session, batch rows, next index, final hash, fingerprint, zone. */
  lemma InvalidTokenIsInert(p: Params, s: State, e: Event)
    requires ActorOf(e).Some? && !Valid(s, ActorOf(e).value)
    ensures Apply(p, s, e).rows == s.rows
    ensures D.Fenced(Apply(p, s, e).delivery) == D.Fenced(s.delivery)
  {
    var g := ActorOf(e).value;
    if e.Advance? && g < |s.runners| {
      match s.runners[g].pc
      case Starting(phase) => StartFenced(p, s, g, phase, e.reply);
      case Bound(sid, staged) =>
      case Appending(sid, i, phase) =>
        if i < |s.runners[g].load.plan| { AppendFenced(p, s, g, sid, i, phase, e.reply); }
      case Finalizing(sid, phase) => FinalizeFenced(p, s, g, sid, phase, e.reply);
      case Activating(sid, zone, phase) => ActivateFenced(s, g, sid, zone, phase, e.reply);
      case Stopped =>
    }
  }

  /** Tokens are never reissued or altered. */
  lemma TokensKept(p: Params, s: State, e: Event, g: nat)
    requires p.lim.maxCount > 0 && Inv(p, s) && g < |s.runners|
    ensures var s' := Apply(p, s, e); g < |s'.runners| && s'.runners[g].token == s.runners[g].token && s'.now >= s.now
  {
    if e.Advance? && e.g < |s.runners| {
      RunnerGood(p, s, e.g, e.reply);
    }
  }

  lemma InvalidStep(p: Params, s: State, e: Event, g: nat)
    requires p.lim.maxCount > 0 && Inv(p, s) && g < |s.runners| && !Valid(s, g)
    ensures !Valid(Apply(p, s, e), g)
  {
    TokensKept(p, s, e, g);
    if ActorOf(e).Some? && !Valid(s, ActorOf(e).value) {
      InvalidTokenIsInert(p, s, e);
    } else if e.Advance? {
      InvalidBesides(p, s, e.g, e.reply, g);
    }
  }

  /** A turn of the valid owner validates nobody else. */
  lemma InvalidBesides(p: Params, s: State, h: nat, reply: Reply, g: nat)
    requires Inv(p, s) && g < |s.runners| && h < |s.runners| && !Valid(s, g)
    ensures !Valid(StepRunner(p, s, h, reply), g)
  {
    RunnerGood(p, s, h, reply);
  }

  /** A token that expired, was superseded or was released stays invalid for ever. */
  lemma {:induction false} InvalidForEver(p: Params, s: State, events: seq<Event>, g: nat)
    requires p.lim.maxCount > 0 && Inv(p, s) && g < |s.runners| && !Valid(s, g)
    ensures g < |Run(p, s, events).runners| && !Valid(Run(p, s, events), g)
  {
    if events != [] {
      var init := events[..|events| - 1];
      InvalidForEver(p, s, init, g);
      RunKeepsInv(p, s, init);
      TokensKept(p, Run(p, s, init), events[|events| - 1], g);
      InvalidStep(p, Run(p, s, init), events[|events| - 1], g);
    }
  }

  // ---------------------------------------------------------------- the remote mirrors the rows

  /** The remote holds batches 0..next-1 and possibly batch `next`, whose row is then the one
      PREPARED row; each carries the hash of its row; no other session holds anything. */
  ghost predicate RemoteMirrorsRows(s: State) {
    var c := D.Ensured(s.delivery);
    && (forall x :: x in s.remote ==> c.sessionId == Some(x))
    && (c.sessionId.None? ==> c.nextBatch == 0)
    && (c.sessionId.Some? ==>
          var at := SessionAt(s, c.sessionId.value);
          && (forall i: nat :: i < c.nextBatch ==> i in at)
          && (forall i :: i in at ==>
                && i <= c.nextBatch && i in s.delivery.batches && at[i].hash == s.delivery.batches[i].hash
                && (i == c.nextBatch ==> s.delivery.batches[i].status == D.Prepared)))
  }

  /** In every interleaving, whatever the network loses, delays or repeats, and whatever
      payloads the workers reconstruct. */
  lemma RemoteAlwaysMirrorsRows(p: Params, maxAttempts: nat, now: C.Time, events: seq<Event>)
    requires p.lim.maxCount > 0
    ensures RemoteMirrorsRows(Run(p, Init(maxAttempts, now), events))
  {
    InitInv(p, maxAttempts, now);
    RunKeepsInv(p, Init(maxAttempts, now), events);
    MirrorFromInv(p, Run(p, Init(maxAttempts, now), events));
  }

  lemma MirrorFromInv(p: Params, s: State)
    requires Inv(p, s)
    ensures RemoteMirrorsRows(s)
  {
    var c := D.Ensured(s.delivery);
    assert c.nextBatch > 0 ==> AtRemote(s, 0);
    if c.sessionId.Some? {
      var at := SessionAt(s, c.sessionId.value);
      forall i: nat | i < c.nextBatch ensures i in at {
        assert AtRemote(s, i);
      }
      forall i | i in at
        ensures i <= c.nextBatch && i in s.delivery.batches && at[i].hash == s.delivery.batches[i].hash
      {
        assert GoodBatch(p, s.delivery, i, s.remote[c.sessionId.value][i]);
      }
    }
  }

  // ---------------------------------------------------------------- completion

  /** What stands behind a finished delivery. */
  ghost predicate DeliveredBy(p: Params, s: State, r: Runner) {
    var c, plan := D.Ensured(s.delivery), r.load.plan;
    && IsDone(r.pc) && r.load.plannable
    && c.sessionId == Some(r.pc.sid)
    && RowsAccepted(s.delivery, plan, |plan|)
    && c.finalHash == Some(r.load.finalHash)
    && c.zone == Some(r.pc.zone)
    && P.Evaluate(r.pc.activate.status, P.RequireSearchable) == Some(P.Searchable)
    && P.FullySynced(r.pc.activate.status)
  }

  /** A COMPLETED job was delivered: every batch of the completing runner's plan ACCEPTED,
      final hash and zone durable, the last status it saw searchable and fully synced. */
  lemma CompletedMeansDelivered(p: Params, maxAttempts: nat, now: C.Time, events: seq<Event>)
    requires p.lim.maxCount > 0
    ensures var s := Run(p, Init(maxAttempts, now), events);
            s.rows.job.status == C.Completed ==>
              exists g :: 0 <= g < |s.runners| && DeliveredBy(p, s, s.runners[g])
  {
    InitInv(p, maxAttempts, now);
    RunKeepsInv(p, Init(maxAttempts, now), events);
    CompletedFromInv(p, Run(p, Init(maxAttempts, now), events));
  }

  lemma CompletedFromInv(p: Params, s: State)
    requires Inv(p, s)
    ensures s.rows.job.status == C.Completed ==> exists g :: 0 <= g < |s.runners| && DeliveredBy(p, s, s.runners[g])
  {
    if s.rows.job.status == C.Completed {
      var g :| 0 <= g < |s.runners| && IsDone(s.runners[g].pc);
      DoneDelivered(p, s, s.runners[g]);
    }
  }

  lemma DoneDelivered(p: Params, s: State, r: Runner)
    requires RunnerInv(p, s, r) && PayloadInv(p, r) && IsDone(r.pc)
    ensures DeliveredBy(p, s, r)
  {
    P.SearchableMeansSynced(r.pc.activate.status, P.RequireSearchable);
  }

  /** The step into COMPLETED is taken by the holder of the valid token. */
  lemma CompletionIsFenced(p: Params, s: State, e: Event)
    requires p.lim.maxCount > 0 && Inv(p, s)
    requires s.rows.job.status != C.Completed && Apply(p, s, e).rows.job.status == C.Completed
    ensures e.Advance? && Valid(s, e.g) && IsCompleting(s.runners[e.g].pc)
  {
    if e.Advance? && e.g < |s.runners| {
      RunnerGood(p, s, e.g, e.reply);
    }
  }
}
