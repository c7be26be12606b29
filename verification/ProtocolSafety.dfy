/** Safety of the delivery protocol over every run: lifecycle, fencing, and what the durable
    rows and the remote hold at any moment. */
module ProtocolSafety {
  import opened Base
  import opened Protocol
  import B = Batching
  import C = Coordinator
  import D = Delivery
  import P = Policy

  // ---------------------------------------------------------------- what a program counter implies

  function BoundSession(pc: Pc): Option<string> {
    if pc.Starting? || pc.Stopped? then None else Some(pc.sid)
  }

  /** Batches the runner knows to be ACCEPTED. */
  function Accounted(pc: Pc, total: nat): nat {
    if pc.Appending? then pc.i else if pc.Finalizing? || pc.Activating? then total else 0
  }

  /** The runner has seen the durable row of its current batch. */
  predicate InFlight(pc: Pc) {
    pc.Appending? && !pc.append.Prepare?
  }

  predicate HashSaved(pc: Pc) {
    (pc.Finalizing? && !pc.finalize.SaveHash?) || pc.Activating?
  }

  predicate IsDone(pc: Pc) {
    pc.Activating? && pc.activate.Done?
  }

  predicate IsCompleting(pc: Pc) {
    pc.Activating? && pc.activate.Completing?
  }

  ghost predicate RowIs(d: D.Rows, plan: seq<B.PlannedBatch>, i: nat) {
    i < |plan| && i in d.batches && D.SameBatch(d.batches[i], plan[i])
  }

  ghost predicate RowsAccepted(d: D.Rows, plan: seq<B.PlannedBatch>, n: nat) {
    n <= |plan| && forall i: nat :: i < n ==> RowIs(d, plan, i) && d.batches[i].status == D.Accepted
  }

  ghost predicate RunnerInv(p: Params, s: State, r: Runner) {
    var plan, c, pc := r.load.plan, D.Ensured(s.delivery), r.pc;
    && (BoundSession(pc).Some? ==> c.sessionId == BoundSession(pc))
    && RowsAccepted(s.delivery, plan, Accounted(pc, |plan|))
    && (pc.Appending? ==> pc.i < |plan|)
    && (InFlight(pc) ==> RowIs(s.delivery, plan, pc.i))
    && (pc.Appending? && pc.append.Accept? ==> pc.i in SessionAt(s, pc.sid))
    && (HashSaved(pc) ==> c.finalHash == Some(r.load.finalHash))
    && (pc.Activating? ==> c.zone == Some(pc.zone))
    && (IsCompleting(pc) || IsDone(pc) ==> P.Evaluate(pc.activate.status, P.RequireSearchable) == Some(P.Searchable))
  }

  /** Past the planning step a runner's payload is planned; plans are well formed. */
  ghost predicate PayloadInv(p: Params, r: Runner) {
    && B.WellFormedPlan(r.load.plan, p.wire)
    && (r.load.plannable ==> r.load.plan != [])
    && ((r.pc.Bound? && r.pc.staged) || r.pc.Appending? || r.pc.Finalizing? || r.pc.Activating? ==> r.load.plannable)
  }

  // ---------------------------------------------------------------- the invariant

  ghost predicate GoodBatch(p: Params, d: D.Rows, i: nat, b: Batch) {
    i in d.batches && b.hash == d.batches[i].hash && p.wire.hash(b.blocks) == b.hash
  }

  /** Sent and stored Appends belong to the bound session and carry the hash of their row;
      every ACCEPTED row is at the remote. */
  ghost predicate DeliveryInv(p: Params, s: State) {
    var d, sid := s.delivery, D.Ensured(s.delivery).sessionId;
    && D.Ordered(d)
    && (forall m :: m in s.network ==> sid == Some(m.sid) && GoodBatch(p, d, m.index, m.batch))
    && (forall x :: x in s.remote ==> sid == Some(x))
    && (forall x, i :: x in s.remote && i in s.remote[x] ==> GoodBatch(p, d, i, s.remote[x][i]))
    && (forall i: nat :: i < D.Ensured(d).nextBatch ==> AtRemote(s, i))
  }

  ghost predicate AtRemote(s: State, i: nat) {
    var sid := D.Ensured(s.delivery).sessionId;
    sid.Some? && i in SessionAt(s, sid.value)
  }

  ghost predicate RowsInv(s: State) {
    && C.Lifecycle(s.rows)
    && |s.runners| == |s.rows.attempts|
    && (forall g :: 0 <= g < |s.runners| ==>
          s.runners[g].token.generation == g + 1 && C.Issued(s.rows, s.runners[g].token))
    && (s.rows.job.status == C.Completed ==> exists g :: 0 <= g < |s.runners| && IsDone(s.runners[g].pc))
    && (s.rows.job.status == C.RetryWait ==> s.rows.job.attemptCount < s.rows.job.maxAttempts)
    && s.rows.job.status != C.Cancelled
  }

  ghost predicate Inv(p: Params, s: State) {
    && RowsInv(s)
    && DeliveryInv(p, s)
    && forall g :: 0 <= g < |s.runners| ==> PayloadInv(p, s.runners[g]) && RunnerInv(p, s, s.runners[g])
  }

  ghost predicate RemoteGrows(s: State, s': State) {
    forall x, i :: x in s.remote && i in s.remote[x]
      ==> x in s'.remote && i in s'.remote[x] && s'.remote[x][i] == s.remote[x][i]
  }

  // ---------------------------------------------------------------- stability

  lemma RowIsStable(d: D.Rows, e: D.Rows, plan: seq<B.PlannedBatch>, i: nat)
    requires D.Grows(d, e) && RowIs(d, plan, i)
    ensures RowIs(e, plan, i) && (d.batches[i].status == D.Accepted ==> e.batches[i].status == D.Accepted)
  {
  }

  lemma RowsAcceptedStable(d: D.Rows, e: D.Rows, plan: seq<B.PlannedBatch>, n: nat)
    requires D.Grows(d, e) && RowsAccepted(d, plan, n)
    ensures RowsAccepted(e, plan, n)
  {
    forall i: nat | i < n ensures RowIs(e, plan, i) && e.batches[i].status == D.Accepted {
      RowIsStable(d, e, plan, i);
    }
  }

  /** A runner's knowledge survives whatever the others do. */
  lemma RunnerStable(p: Params, s: State, s': State, r: Runner)
    requires RunnerInv(p, s, r) && D.Grows(s.delivery, s'.delivery) && RemoteGrows(s, s')
    ensures RunnerInv(p, s', r)
  {
    var plan := r.load.plan;
    RowsAcceptedStable(s.delivery, s'.delivery, plan, Accounted(r.pc, |plan|));
    if InFlight(r.pc) {
      RowIsStable(s.delivery, s'.delivery, plan, r.pc.i);
    }
  }

  lemma GoodBatchStable(p: Params, d: D.Rows, e: D.Rows, i: nat, b: Batch)
    requires D.Grows(d, e) && GoodBatch(p, d, i, b)
    ensures GoodBatch(p, e, i, b)
  {
  }

  lemma DeliveryStable(p: Params, s: State, s': State)
    requires DeliveryInv(p, s) && D.Grows(s.delivery, s'.delivery) && D.Ordered(s'.delivery)
    requires s'.network == s.network && s'.remote == s.remote
    requires D.Ensured(s'.delivery).nextBatch == D.Ensured(s.delivery).nextBatch
    ensures DeliveryInv(p, s')
  {
    forall m | m in s'.network ensures GoodBatch(p, s'.delivery, m.index, m.batch) {
      GoodBatchStable(p, s.delivery, s'.delivery, m.index, m.batch);
    }
    forall x, i | x in s'.remote && i in s'.remote[x] ensures GoodBatch(p, s'.delivery, i, s'.remote[x][i]) {
      GoodBatchStable(p, s.delivery, s'.delivery, i, s.remote[x][i]);
    }
    forall i: nat | i < D.Ensured(s'.delivery).nextBatch
      ensures AtRemote(s', i)
    {
      assert AtRemote(s, i);
    }
  }

  /** A step by runner `g` that keeps everything it must keep. */
  ghost predicate GoodStep(p: Params, s: State, g: nat, s': State) {
    && g < |s.runners| == |s'.runners|
    && (forall h :: 0 <= h < |s.runners| && h != g ==> s'.runners[h] == s.runners[h])
    && s'.runners[g].(pc := s.runners[g].pc) == s.runners[g]
    && s'.now == s.now
    && D.Grows(s.delivery, s'.delivery) && RemoteGrows(s, s')
    && DeliveryInv(p, s')
    && RunnerInv(p, s', s'.runners[g]) && PayloadInv(p, s'.runners[g])
    && (IsDone(s.runners[g].pc) ==> IsDone(s'.runners[g].pc))
  }

  /** What a runner may do to the job row: nothing, a fenced stage change, or completion. */
  ghost predicate RowsStep(s: State, g: nat, s': State)
    requires g < |s.runners| == |s'.runners|
  {
    var r := s.runners[g];
    || s'.rows == s.rows
    || (Owned(s, r) && exists stage :: s'.rows == s.rows.(job := s.rows.job.(stage := stage)))
    || (IsCompleting(r.pc) && IsDone(s'.runners[g].pc) && C.Complete(s.rows, r.token, s.now) == Some(s'.rows))
  }

  ghost predicate Safe(p: Params, s: State, g: nat, s': State) {
    GoodStep(p, s, g, s') && RowsStep(s, g, s')
  }

  lemma RowsStepInv(s: State, g: nat, s': State)
    requires RowsInv(s) && g < |s.runners| == |s'.runners| && RowsStep(s, g, s')
    requires forall h :: 0 <= h < |s.runners| && h != g ==> s'.runners[h] == s.runners[h]
    requires s'.runners[g].(pc := s.runners[g].pc) == s.runners[g]
    requires IsDone(s.runners[g].pc) ==> IsDone(s'.runners[g].pc)
    ensures RowsInv(s')
  {
    forall h | 0 <= h < |s'.runners| ensures s'.runners[h].token == s.runners[h].token {
    }
    if s.rows.job.status == C.Completed {
      var d :| 0 <= d < |s.runners| && IsDone(s.runners[d].pc);
      assert IsDone(s'.runners[d].pc);
    }
    if s'.rows.attempts != s.rows.attempts {
      CompletesInv(s, g, s');
    }
  }

  lemma CompletesInv(s: State, g: nat, s': State)
    requires RowsInv(s) && g < |s.runners| == |s'.runners|
    requires IsDone(s'.runners[g].pc) && C.Complete(s.rows, s.runners[g].token, s.now) == Some(s'.rows)
    requires forall h :: 0 <= h < |s'.runners| ==> s'.runners[h].token == s.runners[h].token
    ensures RowsInv(s')
  {
    C.FinishLifecycle(s.rows, s.runners[g].token, s.now, C.Completed, "COMPLETED");
    forall h | 0 <= h < |s'.runners| ensures C.Issued(s'.rows, s'.runners[h].token) {
      assert C.Issued(s.rows, s.runners[h].token);
    }
  }

  lemma GoodStepInv(p: Params, s: State, g: nat, s': State)
    requires Inv(p, s) && Safe(p, s, g, s')
    ensures Inv(p, s')
  {
    RowsStepInv(s, g, s');
    forall h | 0 <= h < |s'.runners| ensures PayloadInv(p, s'.runners[h]) && RunnerInv(p, s', s'.runners[h]) {
      if h != g {
        RunnerStable(p, s, s', s.runners[h]);
      }
    }
  }

  // ---------------------------------------------------------------- building blocks of steps

  /** `pc` is a place runner `g` may move to in state `s`. */
  ghost predicate MayGo(p: Params, s: State, r: Runner, pc: Pc) {
    && RunnerInv(p, s, r.(pc := pc)) && PayloadInv(p, r.(pc := pc))
    && (IsDone(r.pc) ==> IsDone(pc))
  }

  lemma MayStop(p: Params, s: State, r: Runner)
    requires PayloadInv(p, r) && !IsDone(r.pc)
    ensures MayGo(p, s, r, Stopped)
  {
  }

  /** Only delivery rows grew, `next` stayed, and runner `g` moved. */
  lemma RowsGood(p: Params, s: State, g: nat, d: D.Rows, pc: Pc)
    requires Inv(p, s) && g < |s.runners|
    requires D.Ordered(d) && D.Grows(s.delivery, d) && D.Ensured(d).nextBatch == D.Ensured(s.delivery).nextBatch
    requires MayGo(p, s.(delivery := d), s.runners[g], pc)
    ensures var s' := Go(s.(delivery := d), g, pc); GoodStep(p, s, g, s') && s'.rows == s.rows
  {
    var s' := Go(s.(delivery := d), g, pc);
    DeliveryStable(p, s, s');
    RunnerStable(p, s.(delivery := d), s', s'.runners[g]);
  }

  lemma GoGood(p: Params, s: State, g: nat, pc: Pc)
    requires Inv(p, s) && g < |s.runners| && MayGo(p, s, s.runners[g], pc)
    ensures Safe(p, s, g, Go(s, g, pc))
  {
    assert s.(delivery := s.delivery) == s;
    RowsGood(p, s, g, s.delivery, pc);
  }

  lemma CheckGood(p: Params, s: State, g: nat, allowed: bool, pc: Pc)
    requires Inv(p, s) && g < |s.runners| && !IsDone(s.runners[g].pc) && (allowed ==> MayGo(p, s, s.runners[g], pc))
    ensures Safe(p, s, g, Check(s, g, allowed, pc))
  {
    MayStop(p, s, s.runners[g]);
    GoGood(p, s, g, if allowed then pc else Stopped);
  }

  lemma StageGood(p: Params, s: State, g: nat, stage: string, pc: Pc)
    requires Inv(p, s) && g < |s.runners| && !IsDone(s.runners[g].pc) && MayGo(p, s, s.runners[g], pc)
    ensures Safe(p, s, g, Stage(s, g, stage, pc))
  {
    if Owned(s, s.runners[g]) {
      GoGood(p, s, g, pc);
      var s' := Stage(s, g, stage, pc);
      assert s'.rows == s.rows.(job := s.rows.job.(stage := Some(stage)));
      RowsOnly(p, s, g, Go(s, g, pc), s');
    } else {
      MayStop(p, s, s.runners[g]);
      GoGood(p, s, g, Stopped);
    }
  }

  /** Changing the job row besides does not disturb a good step. */
  lemma RowsOnly(p: Params, s: State, g: nat, s1: State, s': State)
    requires GoodStep(p, s, g, s1) && s' == s1.(rows := s'.rows)
    ensures GoodStep(p, s, g, s')
  {
    DeliveryStable(p, s1, s');
    RunnerStable(p, s1, s', s'.runners[g]);
  }

  lemma FenceGood(p: Params, s: State, g: nat, result: Result<D.Rows, D.DeliveryError>, pc: Pc)
    requires Inv(p, s) && g < |s.runners| && !IsDone(s.runners[g].pc)
    requires result.Ok? ==>
               && D.Ordered(result.value) && D.Grows(s.delivery, result.value)
               && D.Ensured(result.value).nextBatch == D.Ensured(s.delivery).nextBatch
               && MayGo(p, s.(delivery := result.value), s.runners[g], pc)
    ensures var s' := Fence(s, g, result, pc); Safe(p, s, g, s')
  {
    if Owned(s, s.runners[g]) && result.Ok? {
      RowsGood(p, s, g, result.value, pc);
    } else {
      MayStop(p, s, s.runners[g]);
      GoGood(p, s, g, Stopped);
    }
  }

  // ---------------------------------------------------------------- runner steps

  lemma StartGood(p: Params, s: State, g: nat, phase: StartPhase, reply: Reply)
    requires Inv(p, s) && g < |s.runners| && s.runners[g].pc == Starting(phase)
    ensures var s' := StepStart(p, s, g, phase, reply); Safe(p, s, g, s')
  {
    var r := s.runners[g];
    assert PayloadInv(p, r);
    match phase
    case LoadJob => CheckGood(p, s, g, Owned(s, r), Starting(SaveCompat));
    case SaveCompat => FenceGood(p, s, g, D.SaveCompatibility(s.delivery, r.load.compatibility), Starting(FindSession));
    case FindSession =>
      var sid := D.Ensured(s.delivery).sessionId;
      CheckGood(p, s, g, Owned(s, r), if sid.Some? then Bound(sid.value, false) else Starting(StageStart));
    case StageStart => StageGood(p, s, g, "ASTRAVECTOR_START", Starting(CheckStart));
    case CheckStart => CheckGood(p, s, g, WindowOpen(p, s, r), Starting(CallStart));
    case CallStart => StartCallGood(p, s, g, reply);
    case BindStarted(sid) => BindGood(p, s, g, sid, Some(reply.text), Bound(sid, false));
  }

  lemma StartCallGood(p: Params, s: State, g: nat, reply: Reply)
    requires Inv(p, s) && g < |s.runners| && s.runners[g].pc == Starting(CallStart)
    ensures var s' := CallStartStep(s, g, reply); Safe(p, s, g, s')
  {
    var sid := if s.started.Some? then s.started.value else reply.text;
    var pc := if reply.ok then Starting(BindStarted(sid)) else Stopped;
    var s' := CallStartStep(s, g, reply);
    assert PayloadInv(p, s.runners[g]);
    GoGood(p, s, g, pc);
    var s1 := Go(s, g, pc);
    assert s' == s1.(started := Some(sid));
    DeliveryStable(p, s1, s');
    RunnerStable(p, s1, s', s'.runners[g]);
  }

  lemma BindGood(p: Params, s: State, g: nat, sid: string, raw: Option<string>, pc: Pc)
    requires Inv(p, s) && g < |s.runners| && !IsDone(s.runners[g].pc)
    requires pc == Bound(sid, false)
          || (s.runners[g].load.plannable && s.runners[g].load.plan != [] && pc == Appending(sid, 0, Prepare))
    ensures var s' := Fence(s, g, D.BindSession(s.delivery, sid, raw), pc); Safe(p, s, g, s')
  {
    var b := D.BindSession(s.delivery, sid, raw);
    assert PayloadInv(p, s.runners[g]);
    if b.Ok? {
      D.BindSafe(s.delivery, sid, raw);
    }
    FenceGood(p, s, g, b, pc);
  }

  lemma BoundGood(p: Params, s: State, g: nat, sid: string, staged: bool)
    requires Inv(p, s) && g < |s.runners| && s.runners[g].pc == Bound(sid, staged)
    ensures var s' := StepBound(s, g, sid, staged); Safe(p, s, g, s')
  {
    var r := s.runners[g];
    assert PayloadInv(p, r) && RunnerInv(p, s, r);
    if !staged {
      StageGood(p, s, g, "ASTRAVECTOR_APPEND", if r.load.plannable then Bound(sid, true) else Stopped);
    } else {
      BindGood(p, s, g, sid, None, Appending(sid, 0, Prepare));
    }
  }

  lemma MayTakeNext(p: Params, s: State, r: Runner, sid: string, i: nat)
    requires PayloadInv(p, r) && r.pc.Appending? && r.load.plannable && i < |r.load.plan|
    requires D.Ensured(s.delivery).sessionId == Some(sid) && RowsAccepted(s.delivery, r.load.plan, i + 1)
    ensures MayGo(p, s, r, NextBatch(r, sid, i + 1))
  {
  }

  lemma MayPrepare(p: Params, s: State, r: Runner, sid: string, i: nat)
    requires PayloadInv(p, r) && RunnerInv(p, s, r) && D.Ordered(s.delivery) && r.pc == Appending(sid, i, Prepare)
             && i < |r.load.plan|
    requires D.PrepareBatch(s.delivery, r.load.plan[i]).Ok?
    ensures var (d, replay) := D.PrepareBatch(s.delivery, r.load.plan[i]).value;
            MayGo(p, s.(delivery := d), r, if replay == D.AlreadyAccepted then NextBatch(r, sid, i + 1)
                                           else Appending(sid, i, CheckWindow))
  {
    var plan := r.load.plan;
    var (d, replay) := D.PrepareBatch(s.delivery, plan[i]).value;
    D.PrepareSafe(s.delivery, plan[i]);
    RowsAcceptedStable(s.delivery, d, plan, i);
    if replay == D.AlreadyAccepted {
      assert RowsAccepted(d, plan, i + 1);
      MayTakeNext(p, s.(delivery := d), r, sid, i);
    }
  }

  lemma PreparedGood(p: Params, s: State, g: nat, sid: string, i: nat)
    requires Inv(p, s) && g < |s.runners| && s.runners[g].pc == Appending(sid, i, Prepare)
    requires i < |s.runners[g].load.plan| && D.PrepareBatch(s.delivery, s.runners[g].load.plan[i]).Ok?
    ensures var r := s.runners[g];
            var (d, replay) := D.PrepareBatch(s.delivery, r.load.plan[i]).value;
            var pc := if replay == D.AlreadyAccepted then NextBatch(r, sid, i + 1) else Appending(sid, i, CheckWindow);
            Safe(p, s, g, Go(s.(delivery := d), g, pc))
  {
    var r := s.runners[g];
    assert PayloadInv(p, r) && RunnerInv(p, s, r);
    MayPrepare(p, s, r, sid, i);
    D.PrepareSafe(s.delivery, r.load.plan[i]);
    var (d, replay) := D.PrepareBatch(s.delivery, r.load.plan[i]).value;
    RowsGood(p, s, g, d, if replay == D.AlreadyAccepted then NextBatch(r, sid, i + 1)
                         else Appending(sid, i, CheckWindow));
  }

  lemma PrepareGood(p: Params, s: State, g: nat, sid: string, i: nat)
    requires Inv(p, s) && g < |s.runners| && s.runners[g].pc == Appending(sid, i, Prepare)
             && i < |s.runners[g].load.plan|
    ensures var s' := PrepareStep(s, g, sid, i); Safe(p, s, g, s')
  {
    var r := s.runners[g];
    assert PayloadInv(p, r) && RunnerInv(p, s, r);
    if Owned(s, r) && D.PrepareBatch(s.delivery, r.load.plan[i]).Ok? {
      PreparedGood(p, s, g, sid, i);
    } else {
      MayStop(p, s, r);
      GoGood(p, s, g, Stopped);
    }
  }

  lemma SendGood(p: Params, s: State, g: nat, sid: string, i: nat)
    requires Inv(p, s) && g < |s.runners| && s.runners[g].pc == Appending(sid, i, Send) && i < |s.runners[g].load.plan|
    ensures var m := AppendMessage(s.runners[g], sid, i);
            var s' := Go(s.(network := s.network + {m}), g, Appending(sid, i, AwaitAck));
            Safe(p, s, g, s')
  {
    var r := s.runners[g];
    assert PayloadInv(p, r) && RunnerInv(p, s, r);
    var m, pc := AppendMessage(r, sid, i), Appending(sid, i, AwaitAck);
    var s1, s' := Go(s, g, pc), Go(s.(network := s.network + {m}), g, pc);
    GoGood(p, s, g, pc);
    SentInv(p, s1, m);
    assert s' == s1.(network := s1.network + {m});
    RunnerStable(p, s1, s', s'.runners[g]);
  }

  lemma SentInv(p: Params, s: State, m: Message)
    requires DeliveryInv(p, s) && D.Ensured(s.delivery).sessionId == Some(m.sid)
             && GoodBatch(p, s.delivery, m.index, m.batch)
    ensures DeliveryInv(p, s.(network := s.network + {m}))
  {
    var s' := s.(network := s.network + {m});
    forall i: nat | i < D.Ensured(s'.delivery).nextBatch ensures AtRemote(s', i) {
      assert AtRemote(s, i);
    }
  }

  /** Accepting the in-flight batch keeps the rows and the remote in step. */
  lemma AcceptedDelivery(p: Params, s: State, d: D.Rows, sid: string, i: nat)
    requires DeliveryInv(p, s) && D.Ordered(d) && D.Grows(s.delivery, d)
    requires D.Ensured(s.delivery).sessionId == Some(sid) && i in SessionAt(s, sid)
    requires D.Ensured(d).nextBatch == D.Ensured(s.delivery).nextBatch
          || (D.Ensured(s.delivery).nextBatch == i && D.Ensured(d).nextBatch == i + 1)
    ensures DeliveryInv(p, s.(delivery := d))
  {
    var s' := s.(delivery := d);
    forall m | m in s'.network ensures GoodBatch(p, d, m.index, m.batch) {
      GoodBatchStable(p, s.delivery, d, m.index, m.batch);
    }
    forall x, j | x in s'.remote && j in s'.remote[x] ensures GoodBatch(p, d, j, s'.remote[x][j]) {
      GoodBatchStable(p, s.delivery, d, j, s.remote[x][j]);
    }
    forall j: nat | j < D.Ensured(d).nextBatch ensures AtRemote(s', j) {
      assert j == i || AtRemote(s, j);
    }
  }

  lemma MovedGood(p: Params, s: State, g: nat, d: D.Rows, pc: Pc)
    requires g < |s.runners| && D.Grows(s.delivery, d)
    requires DeliveryInv(p, s.(delivery := d)) && MayGo(p, s.(delivery := d), s.runners[g], pc)
    ensures var s' := Go(s.(delivery := d), g, pc); GoodStep(p, s, g, s') && s'.rows == s.rows
  {
    var s1 := s.(delivery := d);
    var s' := Go(s1, g, pc);
    DeliveryStable(p, s1, s');
    RunnerStable(p, s1, s', s'.runners[g]);
  }

  lemma AcceptedGood(p: Params, s: State, g: nat, sid: string, i: nat, raw: string)
    requires Inv(p, s) && g < |s.runners| && s.runners[g].pc == Appending(sid, i, Accept)
    requires i < |s.runners[g].load.plan| && D.MarkAccepted(s.delivery, s.runners[g].load.plan[i], raw).Ok?
    ensures var r := s.runners[g];
            var d := D.MarkAccepted(s.delivery, r.load.plan[i], raw).value;
            Safe(p, s, g, Go(s.(delivery := d), g, NextBatch(r, sid, i + 1)))
  {
    var r := s.runners[g];
    assert PayloadInv(p, r) && RunnerInv(p, s, r);
    var plan := r.load.plan;
    var d := D.MarkAccepted(s.delivery, plan[i], raw).value;
    D.AcceptSafe(s.delivery, plan[i], raw);
    RowsAcceptedStable(s.delivery, d, plan, i);
    assert RowsAccepted(d, plan, i + 1);
    AcceptedDelivery(p, s, d, sid, i);
    assert i in SessionAt(s.(delivery := d), sid);
    MayTakeNext(p, s.(delivery := d), r, sid, i);
    MovedGood(p, s, g, d, NextBatch(r, sid, i + 1));
  }

  lemma AcceptGood(p: Params, s: State, g: nat, sid: string, i: nat, raw: string)
    requires Inv(p, s) && g < |s.runners| && s.runners[g].pc == Appending(sid, i, Accept)
             && i < |s.runners[g].load.plan|
    ensures var r := s.runners[g];
            var s' := Fence(s, g, D.MarkAccepted(s.delivery, r.load.plan[i], raw), NextBatch(r, sid, i + 1));
            Safe(p, s, g, s')
  {
    var r := s.runners[g];
    assert PayloadInv(p, r) && RunnerInv(p, s, r);
    if Owned(s, r) && D.MarkAccepted(s.delivery, r.load.plan[i], raw).Ok? {
      AcceptedGood(p, s, g, sid, i, raw);
    } else {
      MayStop(p, s, r);
      GoGood(p, s, g, Stopped);
    }
  }

  lemma AppendCheckGood(p: Params, s: State, g: nat, sid: string, i: nat, from: AppendPhase, allowed: bool,
                        to: AppendPhase)
    requires Inv(p, s) && g < |s.runners| && s.runners[g].pc == Appending(sid, i, from)
    requires !from.Prepare? && !to.Prepare? && (allowed && to.Accept? ==> i in SessionAt(s, sid))
    ensures Safe(p, s, g, Check(s, g, allowed, Appending(sid, i, to)))
  {
    var r := s.runners[g];
    if allowed {
      assert PayloadInv(p, r) && RunnerInv(p, s, r);
      assert MayGo(p, s, r, Appending(sid, i, to));
    }
    CheckGood(p, s, g, allowed, Appending(sid, i, to));
  }

  lemma AppendGood(p: Params, s: State, g: nat, sid: string, i: nat, phase: AppendPhase, reply: Reply)
    requires Inv(p, s) && g < |s.runners| && s.runners[g].pc == Appending(sid, i, phase) && i < |s.runners[g].load.plan|
    ensures var s' := StepAppend(p, s, g, sid, i, phase, reply); Safe(p, s, g, s')
  {
    var r := s.runners[g];
    match phase
    case Prepare => PrepareGood(p, s, g, sid, i);
    case CheckWindow => AppendCheckGood(p, s, g, sid, i, phase, WindowOpen(p, s, r), Send);
    case Send => SendGood(p, s, g, sid, i);
    case AwaitAck =>
      AppendCheckGood(p, s, g, sid, i, phase,
                      reply.ok && Acknowledgeable(s, sid, i, r.load.plan[i].contentHash), Accept);
    case Accept => AcceptGood(p, s, g, sid, i, reply.text);
  }

  lemma FinalizeGood(p: Params, s: State, g: nat, sid: string, phase: FinalizePhase, reply: Reply)
    requires Inv(p, s) && g < |s.runners| && s.runners[g].pc == Finalizing(sid, phase)
    ensures var s' := StepFinalize(p, s, g, sid, phase, reply); Safe(p, s, g, s')
  {
    var r := s.runners[g];
    assert PayloadInv(p, r) && RunnerInv(p, s, r);
    match phase
    case SaveHash => SaveHashGood(p, s, g, sid);
    case StageFinalize => StageGood(p, s, g, "ASTRAVECTOR_FINALIZE", Finalizing(sid, CheckFinalize));
    case CheckFinalize => CheckGood(p, s, g, WindowOpen(p, s, r), Finalizing(sid, CallFinalize));
    case CallFinalize => CallFinalizeGood(p, s, g, sid, reply);
    case SaveZone(zone, status) => SaveZoneGood(p, s, g, sid, zone, status);
  }

  lemma SaveHashGood(p: Params, s: State, g: nat, sid: string)
    requires Inv(p, s) && g < |s.runners| && s.runners[g].pc == Finalizing(sid, SaveHash)
    ensures var s' := Fence(s, g, D.SaveFinalHash(s.delivery, sid, s.runners[g].load.finalHash),
                            Finalizing(sid, StageFinalize));
            Safe(p, s, g, s')
  {
    var r := s.runners[g];
    assert PayloadInv(p, r) && RunnerInv(p, s, r);
    var f := D.SaveFinalHash(s.delivery, sid, r.load.finalHash);
    if f.Ok? {
      RowsAcceptedStable(s.delivery, f.value, r.load.plan, |r.load.plan|);
    }
    FenceGood(p, s, g, f, Finalizing(sid, StageFinalize));
  }

  lemma SaveZoneGood(p: Params, s: State, g: nat, sid: string, zone: string, status: P.VectorStatus)
    requires Inv(p, s) && g < |s.runners| && s.runners[g].pc == Finalizing(sid, SaveZone(zone, status))
    ensures var s' := Fence(s, g, D.SaveZone(s.delivery, sid, zone), Activating(sid, zone, StageReadiness(status)));
            Safe(p, s, g, s')
  {
    var r := s.runners[g];
    assert PayloadInv(p, r) && RunnerInv(p, s, r);
    var f := D.SaveZone(s.delivery, sid, zone);
    if f.Ok? {
      RowsAcceptedStable(s.delivery, f.value, r.load.plan, |r.load.plan|);
    }
    FenceGood(p, s, g, f, Activating(sid, zone, StageReadiness(status)));
  }

  lemma CallFinalizeGood(p: Params, s: State, g: nat, sid: string, reply: Reply)
    requires Inv(p, s) && g < |s.runners| && s.runners[g].pc == Finalizing(sid, CallFinalize)
    ensures var s' := StepFinalize(p, s, g, sid, CallFinalize, reply); Safe(p, s, g, s')
  {
    var r := s.runners[g];
    assert PayloadInv(p, r) && RunnerInv(p, s, r);
    if !reply.ok {
      MayStop(p, s, r);
      GoGood(p, s, g, Stopped);
    } else if reply.zone.Some? {
      GoGood(p, s, g, Finalizing(sid, SaveZone(reply.zone.value, reply.status)));
    } else {
      var d := D.RecordSessionStatus(s.delivery, sid, reply.text);
      ObserveRows(p, s, g, d.value, Finalizing(sid, CallFinalize));
    }
  }

  /** Observational fields play no part in anything a runner relies on. */
  lemma ObserveRows(p: Params, s: State, g: nat, d: D.Rows, pc: Pc)
    requires Inv(p, s) && g < |s.runners| && MayGo(p, s, s.runners[g], pc)
    requires D.Fenced(d) == D.Fenced(s.delivery) && s.delivery.checkpoint.Some?
    ensures var s' := Go(s.(delivery := d), g, pc); GoodStep(p, s, g, s') && s'.rows == s.rows
  {
    FencedSame(s.delivery, d);
    RunnerStable(p, s, s.(delivery := d), s.runners[g].(pc := pc));
    RowsGood(p, s, g, d, pc);
  }

  lemma FencedSame(d: D.Rows, e: D.Rows)
    requires D.Ordered(d) && D.Fenced(d) == D.Fenced(e) && d.checkpoint.Some?
    ensures D.Ordered(e) && D.Grows(d, e) && D.Ensured(e).nextBatch == D.Ensured(d).nextBatch
    ensures e.batches == d.batches && e.checkpoint.Some?
  {
    assert D.Fenced(d).checkpoint.value == d.checkpoint.value.(sessionStatus := None, vector := None);
    assert D.Fenced(e).checkpoint.value == e.checkpoint.value.(sessionStatus := None, vector := None);
  }

  lemma ObserveGood(p: Params, s: State, g: nat, v: P.VectorStatus, policy: P.ReadinessPolicy, searchable: Pc,
                    ready: Pc, wait: Pc, terminal: Pc)
    requires Inv(p, s) && g < |s.runners| && !IsDone(s.runners[g].pc) && s.delivery.checkpoint.Some?
    requires P.Evaluate(v, policy) == Some(P.Searchable) ==> MayGo(p, s, s.runners[g], searchable)
    requires MayGo(p, s, s.runners[g], ready) && MayGo(p, s, s.runners[g], wait) && MayGo(p, s, s.runners[g], terminal)
    ensures var s' := Observe(s, g, v, policy, searchable, ready, wait, terminal); Safe(p, s, g, s')
  {
    var d := D.RecordVectorStatus(s.delivery, v).value;
    var judged := P.Evaluate(v, policy);
    MayChoose(p, s, s.runners[g], judged, searchable, ready, wait, terminal);
    ObserveRows(p, s, g, d, Choose(judged, searchable, ready, wait, terminal));
  }

  lemma MayChoose(p: Params, s: State, r: Runner, d: Option<P.Disposition>, searchable: Pc, ready: Pc, wait: Pc,
                  terminal: Pc)
    requires PayloadInv(p, r) && !IsDone(r.pc) && (d == Some(P.Searchable) ==> MayGo(p, s, r, searchable))
    requires MayGo(p, s, r, ready) && MayGo(p, s, r, wait) && MayGo(p, s, r, terminal)
    ensures MayGo(p, s, r, Choose(d, searchable, ready, wait, terminal))
  {
    MayStop(p, s, r);
  }

  /** Within activation a runner keeps its session, rows, hash and zone. */
  lemma MayMoveOn(p: Params, s: State, r: Runner, sid: string, zone: string, from: ActivatePhase, to: ActivatePhase)
    requires PayloadInv(p, r) && RunnerInv(p, s, r) && r.pc == Activating(sid, zone, from) && !from.Done?
    requires !to.Completing? && !to.Done?
    ensures MayGo(p, s, r, Activating(sid, zone, to))
  {
  }

  lemma ActivateGood(p: Params, s: State, g: nat, sid: string, zone: string, phase: ActivatePhase, reply: Reply)
    requires Inv(p, s) && g < |s.runners| && s.runners[g].pc == Activating(sid, zone, phase)
    ensures var s' := StepActivate(s, g, sid, zone, phase, reply); Safe(p, s, g, s')
  {
    match phase
    case StageReadiness(status) => StageThen(p, s, g, sid, zone, phase, "ASTRAVECTOR_READINESS", StageActivate(status));
    case StageActivate(status) => StageThen(p, s, g, sid, zone, phase, "ASTRAVECTOR_ACTIVATE", WaitReady(Some(status)));
    case WaitReady(initial) => WaitGood(p, s, g, sid, zone, initial, reply);
    case PollActive(initial) => PollGood(p, s, g, sid, zone, initial, reply);
    case Completing(status) => CompleteGood(p, s, g, sid, zone, status);
    case Done(status) => IdleGood(p, s, g);
    case FenceActivate => FenceThen(p, s, g, sid, zone, phase, CallActivate);
    case CallActivate =>
      GoThen(p, s, g, sid, zone, phase, if reply.ok then FenceActivated else FencePoll(Some(reply.status)));
    case FenceActivated => FenceThen(p, s, g, sid, zone, phase, FencePoll(None));
    case FencePoll(initial) => FenceThen(p, s, g, sid, zone, phase, PollActive(initial));
  }

  lemma IdleGood(p: Params, s: State, g: nat)
    requires Inv(p, s) && g < |s.runners|
    ensures Safe(p, s, g, s)
  {
    var pc := s.runners[g].pc;
    assert s.runners[g].(pc := pc) == s.runners[g];
    GoGood(p, s, g, pc);
    assert Go(s, g, pc) == s;
  }

  lemma FenceThen(p: Params, s: State, g: nat, sid: string, zone: string, from: ActivatePhase, to: ActivatePhase)
    requires Inv(p, s) && g < |s.runners| && s.runners[g].pc == Activating(sid, zone, from)
    requires !from.Done? && !to.Completing? && !to.Done?
    ensures Safe(p, s, g, Check(s, g, Owned(s, s.runners[g]), Activating(sid, zone, to)))
  {
    MayMoveOn(p, s, s.runners[g], sid, zone, from, to);
    CheckGood(p, s, g, Owned(s, s.runners[g]), Activating(sid, zone, to));
  }

  lemma StageThen(p: Params, s: State, g: nat, sid: string, zone: string, from: ActivatePhase, stage: string,
                  to: ActivatePhase)
    requires Inv(p, s) && g < |s.runners| && s.runners[g].pc == Activating(sid, zone, from)
    requires !from.Done? && !to.Completing? && !to.Done?
    ensures Safe(p, s, g, Stage(s, g, stage, Activating(sid, zone, to)))
  {
    MayMoveOn(p, s, s.runners[g], sid, zone, from, to);
    StageGood(p, s, g, stage, Activating(sid, zone, to));
  }

  lemma GoThen(p: Params, s: State, g: nat, sid: string, zone: string, from: ActivatePhase, to: ActivatePhase)
    requires Inv(p, s) && g < |s.runners| && s.runners[g].pc == Activating(sid, zone, from)
    requires !from.Done? && !to.Completing? && !to.Done?
    ensures Safe(p, s, g, Go(s, g, Activating(sid, zone, to)))
  {
    MayMoveOn(p, s, s.runners[g], sid, zone, from, to);
    GoGood(p, s, g, Activating(sid, zone, to));
  }

  lemma MayComplete(p: Params, s: State, r: Runner, sid: string, zone: string, from: ActivatePhase, v: P.VectorStatus,
                    policy: P.ReadinessPolicy)
    requires PayloadInv(p, r) && RunnerInv(p, s, r) && r.pc == Activating(sid, zone, from) && !from.Done?
    requires P.Evaluate(v, policy) == Some(P.Searchable)
    ensures MayGo(p, s, r, Activating(sid, zone, Completing(v)))
  {
    P.SearchableMeansSynced(v, policy);
  }

  lemma WaitGood(p: Params, s: State, g: nat, sid: string, zone: string, initial: Option<P.VectorStatus>, reply: Reply)
    requires Inv(p, s) && g < |s.runners| && s.runners[g].pc == Activating(sid, zone, WaitReady(initial))
    ensures var s' := StepActivate(s, g, sid, zone, WaitReady(initial), reply); Safe(p, s, g, s')
  {
    var r, from := s.runners[g], WaitReady(initial);
    MayStop(p, s, r);
    if reply.ok {
      var v := if initial.Some? then initial.value else reply.status;
      if P.Evaluate(v, P.AllowReadyToActivate) == Some(P.Searchable) {
        MayComplete(p, s, r, sid, zone, from, v, P.AllowReadyToActivate);
      }
      MayMoveOn(p, s, r, sid, zone, from, FenceActivate);
      MayMoveOn(p, s, r, sid, zone, from, WaitReady(None));
      assert s.delivery.checkpoint.Some? by { assert RunnerInv(p, s, r); }
      ObserveGood(p, s, g, v, P.AllowReadyToActivate, Activating(sid, zone, Completing(v)),
                  Activating(sid, zone, FenceActivate), Activating(sid, zone, WaitReady(None)), Stopped);
    } else {
      GoGood(p, s, g, Stopped);
    }
  }

  lemma PollGood(p: Params, s: State, g: nat, sid: string, zone: string, initial: Option<P.VectorStatus>, reply: Reply)
    requires Inv(p, s) && g < |s.runners| && s.runners[g].pc == Activating(sid, zone, PollActive(initial))
    ensures var s' := StepActivate(s, g, sid, zone, PollActive(initial), reply); Safe(p, s, g, s')
  {
    var r, from := s.runners[g], PollActive(initial);
    MayStop(p, s, r);
    if reply.ok {
      var v, again := if initial.Some? then initial.value else reply.status, Activating(sid, zone, FencePoll(None));
      if P.Evaluate(v, P.RequireSearchable) == Some(P.Searchable) {
        MayComplete(p, s, r, sid, zone, from, v, P.RequireSearchable);
      }
      MayMoveOn(p, s, r, sid, zone, from, FencePoll(None));
      assert s.delivery.checkpoint.Some? by { assert RunnerInv(p, s, r); }
      ObserveGood(p, s, g, v, P.RequireSearchable, Activating(sid, zone, Completing(v)), again, again, again);
    } else {
      GoGood(p, s, g, Stopped);
    }
  }

  lemma CompleteGood(p: Params, s: State, g: nat, sid: string, zone: string, status: P.VectorStatus)
    requires Inv(p, s) && g < |s.runners| && s.runners[g].pc == Activating(sid, zone, Completing(status))
    ensures var s' := CompleteStep(s, g, sid, zone, status); Safe(p, s, g, s')
  {
    var r := s.runners[g];
    assert PayloadInv(p, r) && RunnerInv(p, s, r);
    var rows := C.Complete(s.rows, r.token, s.now);
    if rows.Some? {
      var pc := Activating(sid, zone, Done(status));
      GoGood(p, s, g, pc);
      RowsOnly(p, s, g, Go(s, g, pc), CompleteStep(s, g, sid, zone, status));
    } else {
      MayStop(p, s, r);
      GoGood(p, s, g, Stopped);
    }
  }

  lemma RunnerGood(p: Params, s: State, g: nat, reply: Reply)
    requires Inv(p, s) && g < |s.runners|
    ensures var s' := StepRunner(p, s, g, reply); Safe(p, s, g, s')
  {
    var r := s.runners[g];
    assert RunnerInv(p, s, r);
    match r.pc
    case Starting(phase) => StartGood(p, s, g, phase, reply);
    case Bound(sid, staged) => BoundGood(p, s, g, sid, staged);
    case Appending(sid, i, phase) => AppendGood(p, s, g, sid, i, phase, reply);
    case Finalizing(sid, phase) => FinalizeGood(p, s, g, sid, phase, reply);
    case Activating(sid, zone, phase) => ActivateGood(p, s, g, sid, zone, phase, reply);
    case Stopped =>
      IdleGood(p, s, g);
  }
}
