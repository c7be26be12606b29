/** Exactly-once delivery, replay after a crash, and the real-time lease window. */
module ProtocolReplay {
  import opened Base
  import opened Protocol
  import opened ProtocolSafety
  import opened ProtocolTheorems
  import B = Batching
  import C = Coordinator
  import D = Delivery
  import P = Policy

  // ---------------------------------------------------------------- one document

  /** Every worker reconstructed the payload `load`, and every batch row comes from it. */
  ghost predicate OneDocument(load: Payload, s: State) {
    && (forall g :: 0 <= g < |s.runners| ==> s.runners[g].load.(compatibility := "") == load)
    && (forall i :: i in s.delivery.batches ==> RowIs(s.delivery, load.plan, i))
  }

  /** New batch rows are rows of the acting runner's plan. */
  ghost predicate RowsFrom(d: D.Rows, e: D.Rows, plan: seq<B.PlannedBatch>) {
    forall i :: i in e.batches && i !in d.batches ==> RowIs(e, plan, i)
  }

  lemma AppendRowsFrom(p: Params, s: State, g: nat, sid: string, i: nat, phase: AppendPhase, reply: Reply)
    requires Inv(p, s) && g < |s.runners| && i < |s.runners[g].load.plan|
    ensures RowsFrom(s.delivery, StepAppend(p, s, g, sid, i, phase, reply).delivery, s.runners[g].load.plan)
  {
    var r := s.runners[g];
    assert PayloadInv(p, r);
    assert r.load.plan[i].batchIndex == i;
  }

  lemma StepRowsFrom(p: Params, s: State, g: nat, reply: Reply)
    requires Inv(p, s) && g < |s.runners|
    ensures RowsFrom(s.delivery, StepRunner(p, s, g, reply).delivery, s.runners[g].load.plan)
  {
    var r := s.runners[g];
    match r.pc
    case Starting(phase) => StartBatches(p, s, g, phase, reply);
    case Bound(sid, staged) =>
    case Appending(sid, i, phase) =>
      if i < |r.load.plan| { AppendRowsFrom(p, s, g, sid, i, phase, reply); }
    case Finalizing(sid, phase) => FinalizeBatches(p, s, g, sid, phase, reply);
    case Activating(sid, zone, phase) => ActivateBatches(s, g, sid, zone, phase, reply);
    case Stopped =>
  }

  lemma StartBatches(p: Params, s: State, g: nat, phase: StartPhase, reply: Reply)
    requires g < |s.runners|
    ensures StepStart(p, s, g, phase, reply).delivery.batches == s.delivery.batches
  {
  }

  lemma FinalizeBatches(p: Params, s: State, g: nat, sid: string, phase: FinalizePhase, reply: Reply)
    requires g < |s.runners|
    ensures StepFinalize(p, s, g, sid, phase, reply).delivery.batches == s.delivery.batches
  {
  }

  lemma ActivateBatches(s: State, g: nat, sid: string, zone: string, phase: ActivatePhase, reply: Reply)
    requires g < |s.runners|
    ensures StepActivate(s, g, sid, zone, phase, reply).delivery.batches == s.delivery.batches
  {
  }

  lemma OneDocumentRows(load: Payload, s: State, s': State, plan: seq<B.PlannedBatch>)
    requires OneDocument(load, s) && D.Grows(s.delivery, s'.delivery) && RowsFrom(s.delivery, s'.delivery, plan)
             && plan == load.plan
    ensures forall i :: i in s'.delivery.batches ==> RowIs(s'.delivery, load.plan, i)
  {
    forall i | i in s'.delivery.batches ensures RowIs(s'.delivery, load.plan, i) {
      if i in s.delivery.batches {
        RowIsStable(s.delivery, s'.delivery, plan, i);
      }
    }
  }

  lemma SameLoad(p: Params, a: seq<B.LogicalBlock>, b: seq<B.LogicalBlock>, compatibility: string)
    requires multiset(a) == multiset(b)
    ensures PayloadFor(p, a, compatibility).(compatibility := "") == PayloadFor(p, b, "")
  {
    B.PlanIgnoresInputOrder(a, b, p.wire, p.lim);
    B.OrderedIgnoresInputOrder(a, b);
  }

  lemma ApplyOneDocument(p: Params, s: State, e: Event, doc: seq<B.LogicalBlock>)
    requires p.lim.maxCount > 0 && Inv(p, s) && OneDocument(PayloadFor(p, doc, ""), s)
    requires e.Claim? ==> multiset(e.blocks) == multiset(doc)
    ensures OneDocument(PayloadFor(p, doc, ""), Apply(p, s, e))
  {
    if e.Claim? {
      SameLoad(p, e.blocks, doc, e.compatibility);
    } else if e.Advance? && e.g < |s.runners| {
      TurnOneDocument(p, PayloadFor(p, doc, ""), s, e.g, e.reply);
    }
  }

  lemma TurnOneDocument(p: Params, load: Payload, s: State, g: nat, reply: Reply)
    requires Inv(p, s) && OneDocument(load, s) && g < |s.runners|
    ensures OneDocument(load, StepRunner(p, s, g, reply))
  {
    var s' := StepRunner(p, s, g, reply);
    RunnerGood(p, s, g, reply);
    StepRowsFrom(p, s, g, reply);
    assert s.runners[g].load.plan == load.plan;
    OneDocumentRows(load, s, s', load.plan);
  }

  ghost predicate ClaimsCarry(events: seq<Event>, doc: seq<B.LogicalBlock>) {
    forall k :: 0 <= k < |events| && events[k].Claim? ==> multiset(events[k].blocks) == multiset(doc)
  }

  lemma {:induction false} RunOneDocument(p: Params, maxAttempts: nat, now: C.Time, events: seq<Event>,
                                          doc: seq<B.LogicalBlock>)
    requires p.lim.maxCount > 0 && ClaimsCarry(events, doc)
    ensures var s := Run(p, Init(maxAttempts, now), events); Inv(p, s) && OneDocument(PayloadFor(p, doc, ""), s)
  {
    if events == [] {
      InitInv(p, maxAttempts, now);
    } else {
      var init := events[..|events| - 1];
      assert forall k :: 0 <= k < |init| ==> init[k] == events[k];
      RunOneDocument(p, maxAttempts, now, init, doc);
      var s := Run(p, Init(maxAttempts, now), init);
      ApplyInv(p, s, events[|events| - 1]);
      ApplyOneDocument(p, s, events[|events| - 1], doc);
    }
  }

  // ---------------------------------------------------------------- exactly once

  /** The runner is past its Append loop. */
  predicate AppendsDone(pc: Pc) {
    pc.Finalizing? || pc.Activating?
  }

  function PlanBatches(plan: seq<B.PlannedBatch>): map<nat, Batch> {
    map i: nat | i < |plan| :: Batch(plan[i].contentHash, plan[i].blocks)
  }

  lemma RemoteBatchIs(p: Params, load: Payload, s: State, i: nat)
    requires Inv(p, s) && OneDocument(load, s) && Injective(p.wire.hash) && B.WellFormedPlan(load.plan, p.wire)
    requires D.Ensured(s.delivery).sessionId.Some? && i in SessionAt(s, D.Ensured(s.delivery).sessionId.value)
    ensures i < |load.plan|
    ensures var at := SessionAt(s, D.Ensured(s.delivery).sessionId.value);
            at[i] == Batch(load.plan[i].contentHash, load.plan[i].blocks)
  {
    var sid := D.Ensured(s.delivery).sessionId.value;
    var b := s.remote[sid][i];
    assert GoodBatch(p, s.delivery, i, b);
    assert RowIs(s.delivery, load.plan, i);
    assert p.wire.hash(b.blocks) == p.wire.hash(load.plan[i].blocks);
  }

  /** The durable rows say that the whole plan `plan` was accepted. */
  predicate WhollyAccepted(s: State, plan: seq<B.PlannedBatch>) {
    D.Ensured(s.delivery).nextBatch == |plan|
  }

  /** The bound session holds exactly the batches of `plan`. */
  ghost predicate HoldsExactly(s: State, plan: seq<B.PlannedBatch>) {
    var sid := D.Ensured(s.delivery).sessionId;
    sid.Some? && SessionAt(s, sid.value) == PlanBatches(plan)
  }

  lemma SessionIsPlan(p: Params, load: Payload, s: State)
    requires Inv(p, s) && OneDocument(load, s) && Injective(p.wire.hash) && B.WellFormedPlan(load.plan, p.wire)
    requires load.plan != [] && WhollyAccepted(s, load.plan)
    ensures HoldsExactly(s, load.plan)
  {
    var plan := load.plan;
    assert AtRemote(s, 0);
    var at := SessionAt(s, D.Ensured(s.delivery).sessionId.value);
    forall i | i in at ensures i < |plan| && at[i] == Batch(plan[i].contentHash, plan[i].blocks) {
      RemoteBatchIs(p, load, s, i);
    }
    forall i: nat | i < |plan| ensures i in at {
      assert AtRemote(s, i);
    }
    assert at.Keys == PlanBatches(plan).Keys;
  }

  lemma DocumentPlanned(p: Params, doc: seq<B.LogicalBlock>)
    requires p.lim.maxCount > 0 && PayloadFor(p, doc, "").plannable
    ensures var plan := PayloadFor(p, doc, "").plan;
            && multiset(Flatten(B.BlocksOf(plan))) == multiset(doc) && B.Ascending(Flatten(B.BlocksOf(plan)))
            && plan != [] && B.WellFormedPlan(plan, p.wire)
  {
    B.PlanCoversBlocks(doc, p.wire, p.lim);
  }

  /** When every worker reconstructs the same document, in whatever block order, then as soon
      as the durable next index says so, and for ever after, whoever has stopped or crashed,
      the remote session holds exactly the plan: each block of the document once, in order. */
  lemma EveryBlockExactlyOnce(p: Params, maxAttempts: nat, now: C.Time, events: seq<Event>, doc: seq<B.LogicalBlock>)
    requires p.lim.maxCount > 0 && ClaimsCarry(events, doc) && Injective(p.wire.hash)
    requires PayloadFor(p, doc, "").plannable
    requires WhollyAccepted(Run(p, Init(maxAttempts, now), events), PayloadFor(p, doc, "").plan)
    ensures var plan := PayloadFor(p, doc, "").plan;
            && HoldsExactly(Run(p, Init(maxAttempts, now), events), plan)
            && multiset(Flatten(B.BlocksOf(plan))) == multiset(doc)
            && B.Ascending(Flatten(B.BlocksOf(plan)))
  {
    RunOneDocument(p, maxAttempts, now, events, doc);
    DocumentPlanned(p, doc);
    SessionIsPlan(p, PayloadFor(p, doc, ""), Run(p, Init(maxAttempts, now), events));
  }

  /** A COMPLETED job left its whole document at the remote. */
  lemma CompletedHoldsDocument(p: Params, maxAttempts: nat, now: C.Time, events: seq<Event>, doc: seq<B.LogicalBlock>)
    requires p.lim.maxCount > 0 && ClaimsCarry(events, doc) && Injective(p.wire.hash)
    requires Run(p, Init(maxAttempts, now), events).rows.job.status == C.Completed
    ensures PayloadFor(p, doc, "").plannable
    ensures HoldsExactly(Run(p, Init(maxAttempts, now), events), PayloadFor(p, doc, "").plan)
  {
    var s, load := Run(p, Init(maxAttempts, now), events), PayloadFor(p, doc, "");
    RunOneDocument(p, maxAttempts, now, events, doc);
    var g :| 0 <= g < |s.runners| && IsDone(s.runners[g].pc);
    NextIsTotal(p, load, s, g);
    DocumentPlanned(p, doc);
    SessionIsPlan(p, load, s);
  }

  /** A runner past its loop knows that everything was accepted. */
  lemma NextIsTotal(p: Params, load: Payload, s: State, g: nat)
    requires Inv(p, s) && OneDocument(load, s) && g < |s.runners| && AppendsDone(s.runners[g].pc)
    ensures s.runners[g].load.plan == load.plan && load.plannable && WhollyAccepted(s, load.plan)
  {
    var plan, next := s.runners[g].load.plan, D.Ensured(s.delivery).nextBatch;
    assert RunnerInv(p, s, s.runners[g]) && PayloadInv(p, s.runners[g]);
    assert plan == load.plan;
    NextBounded(p, load, s);
    assert |plan| > 0 ==> RowIs(s.delivery, plan, |plan| - 1) && s.delivery.batches[|plan| - 1].status == D.Accepted;
  }

  lemma NextBounded(p: Params, load: Payload, s: State)
    requires Inv(p, s) && OneDocument(load, s)
    ensures D.Ensured(s.delivery).nextBatch <= |load.plan|
  {
    var next := D.Ensured(s.delivery).nextBatch;
    assert next > 0 ==> RowIs(s.delivery, load.plan, next - 1);
  }

  // ---------------------------------------------------------------- no resend under a valid lease

  /** The batch a valid owner is about to send, has sent or is about to accept is the one
      that has not been accepted. */
  ghost predicate Fresh(s: State) {
    forall g :: 0 <= g < |s.runners| && Owned(s, s.runners[g]) && InFlight(s.runners[g].pc) ==>
      s.runners[g].pc.i == D.Ensured(s.delivery).nextBatch
  }

  lemma AppendFresh(p: Params, s: State, g: nat, sid: string, i: nat, phase: AppendPhase, reply: Reply)
    requires Inv(p, s) && Fresh(s) && g < |s.runners| && Owned(s, s.runners[g])
    requires s.runners[g].pc == Appending(sid, i, phase) && i < |s.runners[g].load.plan|
    ensures var s' := StepAppend(p, s, g, sid, i, phase, reply);
            g < |s'.runners| && (InFlight(s'.runners[g].pc) ==> s'.runners[g].pc.i == D.Ensured(s'.delivery).nextBatch)
  {
    var r := s.runners[g];
    assert PayloadInv(p, r);
    assert r.load.plan[i].batchIndex == i;
    if phase.Prepare? && D.PrepareBatch(s.delivery, r.load.plan[i]).Ok? {
      D.PrepareSafe(s.delivery, r.load.plan[i]);
    }
  }

  lemma OwnStepFresh(p: Params, s: State, g: nat, reply: Reply)
    requires p.lim.maxCount > 0 && Inv(p, s) && Fresh(s) && g < |s.runners| && Owned(s, s.runners[g])
    ensures var s' := StepRunner(p, s, g, reply);
            g < |s'.runners| && (InFlight(s'.runners[g].pc) ==> s'.runners[g].pc.i == D.Ensured(s'.delivery).nextBatch)
  {
    RunnerGood(p, s, g, reply);
    assert RunnerInv(p, s, s.runners[g]);
    match s.runners[g].pc
    case Starting(phase) => NotInFlightStart(p, s, g, phase, reply);
    case Bound(sid, staged) =>
    case Appending(sid, i, phase) => AppendFresh(p, s, g, sid, i, phase, reply);
    case Finalizing(sid, phase) => NotInFlightFinalize(p, s, g, sid, phase, reply);
    case Activating(sid, zone, phase) => NotInFlightActivate(s, g, sid, zone, phase, reply);
    case Stopped =>
  }

  lemma NotInFlightStart(p: Params, s: State, g: nat, phase: StartPhase, reply: Reply)
    requires g < |s.runners|
    ensures !InFlight(StepStart(p, s, g, phase, reply).runners[g].pc)
  {
  }

  lemma NotInFlightFinalize(p: Params, s: State, g: nat, sid: string, phase: FinalizePhase, reply: Reply)
    requires g < |s.runners|
    ensures !InFlight(StepFinalize(p, s, g, sid, phase, reply).runners[g].pc)
  {
  }

  lemma NotInFlightActivate(s: State, g: nat, sid: string, zone: string, phase: ActivatePhase, reply: Reply)
    requires g < |s.runners| && s.runners[g].pc == Activating(sid, zone, phase)
    ensures !InFlight(StepActivate(s, g, sid, zone, phase, reply).runners[g].pc)
  {
  }

  lemma ApplyFresh(p: Params, s: State, e: Event)
    requires p.lim.maxCount > 0 && Inv(p, s) && Fresh(s)
    ensures Fresh(Apply(p, s, e))
  {
    var s' := Apply(p, s, e);
    forall h | 0 <= h < |s'.runners| && Owned(s', s'.runners[h]) && InFlight(s'.runners[h].pc)
      ensures s'.runners[h].pc.i == D.Ensured(s'.delivery).nextBatch
    {
      if h >= |s.runners| {
        NewRunner(p, s, e, h);
      } else {
        if !Valid(s, h) {
          InvalidStep(p, s, e, h);
        }
        FreshAt(p, s, e, h);
      }
    }
  }

  lemma NewRunner(p: Params, s: State, e: Event, h: nat)
    requires Inv(p, s) && |s.runners| <= h < |Apply(p, s, e).runners|
    ensures Apply(p, s, e).runners[h].pc == Starting(LoadJob)
  {
    if e.Advance? && e.g < |s.runners| {
      RunnerGood(p, s, e.g, e.reply);
    }
  }

  lemma FreshAt(p: Params, s: State, e: Event, h: nat)
    requires p.lim.maxCount > 0 && Inv(p, s) && Fresh(s) && Valid(s, h)
    requires h < |Apply(p, s, e).runners| && InFlight(Apply(p, s, e).runners[h].pc)
    ensures Apply(p, s, e).runners[h].pc.i == D.Ensured(Apply(p, s, e).delivery).nextBatch
  {
    if e.Advance? && e.g < |s.runners| {
      if e.g == h {
        OwnStepFresh(p, s, h, e.reply);
      } else {
        RunnerGood(p, s, e.g, e.reply);
        if Valid(s, e.g) {
          OneValidToken(p, s, e.g, h);
        }
        InvalidTokenIsInert(p, s, e);
        SameNext(s.delivery, Apply(p, s, e).delivery);
      }
    }
  }

  lemma SameNext(d: D.Rows, e: D.Rows)
    requires D.Fenced(d) == D.Fenced(e)
    ensures D.Ensured(d).nextBatch == D.Ensured(e).nextBatch
  {
    if d.checkpoint.Some? {
      assert D.Fenced(d).checkpoint.value.nextBatch == d.checkpoint.value.nextBatch;
      assert D.Fenced(e).checkpoint.value.nextBatch == e.checkpoint.value.nextBatch;
    }
  }

  /** Over every run, a worker with a valid lease never sends a batch already ACCEPTED. */
  lemma {:induction false} NoResendUnderLease(p: Params, maxAttempts: nat, now: C.Time, events: seq<Event>)
    requires p.lim.maxCount > 0
    ensures Fresh(Run(p, Init(maxAttempts, now), events))
  {
    if events != [] {
      var init := events[..|events| - 1];
      NoResendUnderLease(p, maxAttempts, now, init);
      InitInv(p, maxAttempts, now);
      RunKeepsInv(p, Init(maxAttempts, now), init);
      ApplyFresh(p, Run(p, Init(maxAttempts, now), init), events[|events| - 1]);
    }
  }

  // ---------------------------------------------------------------- replay by a new owner

  /** Inside the Append loop, from the binding that opens it on. */
  predicate InLoop(pc: Pc) {
    (pc.Bound? && pc.staged) || pc.Appending?
  }

  /** Just past the Append loop. */
  predicate LoopDone(pc: Pc) {
    pc.Finalizing? && pc.finalize.SaveHash?
  }

  function Rank(phase: AppendPhase): nat {
    match phase
    case Prepare => 0
    case CheckWindow => 1
    case Send => 2
    case AwaitAck => 3
    case Accept => 4
  }

  /** Turns the runner still needs, at most, to leave its Append loop. */
  function Left(r: Runner): int {
    var n := |r.load.plan|;
    match r.pc
    case Bound(_, _) => 5 * n + 1
    case Appending(_, i, phase) => 5 * (n - i) - Rank(phase)
    case _ => 0
  }

  /** The lease is kept with room for the call, and a call that was made succeeds. */
  predicate Helped(p: Params, s: State, r: Runner, reply: Reply) {
    && WindowOpen(p, s, r)
    && (r.pc.Appending? && r.pc.append.AwaitAck? ==> reply.ok && r.pc.i in SessionAt(s, r.pc.sid))
  }

  ghost predicate Moved(r: Runner, r': Runner) {
    && r' == r.(pc := r'.pc)
    && (InLoop(r'.pc) || LoopDone(r'.pc)) && BoundSession(r'.pc) == BoundSession(r.pc)
    && Left(r') < Left(r)
  }

  lemma RowAgrees(load: Payload, s: State, batch: B.PlannedBatch, i: nat)
    requires OneDocument(load, s) && i < |load.plan| && load.plan[i] == batch
    ensures i in s.delivery.batches ==> D.SameBatch(s.delivery.batches[i], batch)
  {
    assert i in s.delivery.batches ==> RowIs(s.delivery, load.plan, i);
  }

  /** Everything before a runner's current batch has been accepted. */
  lemma NotAhead(p: Params, s: State, r: Runner)
    requires RunnerInv(p, s, r) && D.Ordered(s.delivery) && r.pc.Appending?
    ensures r.pc.i <= D.Ensured(s.delivery).nextBatch && D.Ensured(s.delivery).sessionId == Some(r.pc.sid)
  {
    if r.pc.i > 0 {
      assert RowIs(s.delivery, r.load.plan, r.pc.i - 1);
    }
  }

  lemma PrepareMoves(p: Params, load: Payload, s: State, g: nat, sid: string, i: nat)
    requires Inv(p, s) && OneDocument(load, s) && g < |s.runners| && Owned(s, s.runners[g])
    requires s.runners[g].pc == Appending(sid, i, Prepare) && i < |s.runners[g].load.plan|
    ensures Moved(s.runners[g], PrepareStep(s, g, sid, i).runners[g])
  {
    var r := s.runners[g];
    assert PayloadInv(p, r) && RunnerInv(p, s, r);
    var batch := r.load.plan[i];
    assert batch.batchIndex == i;
    NotAhead(p, s, r);
    assert r.load.plan == load.plan;
    RowAgrees(load, s, batch, i);
    D.PrepareSucceeds(s.delivery, batch);
  }

  lemma AcceptMoves(p: Params, s: State, g: nat, sid: string, i: nat, reply: Reply)
    requires Inv(p, s) && g < |s.runners| && Owned(s, s.runners[g])
    requires s.runners[g].pc == Appending(sid, i, Accept) && i < |s.runners[g].load.plan|
    ensures Moved(s.runners[g], StepAppend(p, s, g, sid, i, Accept, reply).runners[g])
  {
    var r := s.runners[g];
    assert PayloadInv(p, r) && RunnerInv(p, s, r);
    assert RowIs(s.delivery, r.load.plan, i);
    D.AcceptSucceeds(s.delivery, r.load.plan[i], reply.text);
  }

  lemma AckMoves(p: Params, s: State, g: nat, sid: string, i: nat, reply: Reply)
    requires Inv(p, s) && g < |s.runners| && s.runners[g].pc == Appending(sid, i, AwaitAck)
             && i < |s.runners[g].load.plan|
    requires reply.ok && i in SessionAt(s, sid)
    ensures Moved(s.runners[g], StepAppend(p, s, g, sid, i, AwaitAck, reply).runners[g])
  {
    var r := s.runners[g];
    assert RunnerInv(p, s, r);
    assert RowIs(s.delivery, r.load.plan, i);
    assert GoodBatch(p, s.delivery, i, s.remote[sid][i]);
  }

  lemma BindMoves(p: Params, s: State, g: nat, sid: string)
    requires Inv(p, s) && g < |s.runners| && Owned(s, s.runners[g]) && s.runners[g].pc == Bound(sid, true)
    ensures Moved(s.runners[g], StepBound(s, g, sid, true).runners[g])
  {
    var r := s.runners[g];
    assert PayloadInv(p, r) && RunnerInv(p, s, r);
  }

  /** A helped turn never fails: no integrity or sequence error, whatever other workers left
      behind, and the loop is one turn shorter. */
  lemma HelpedTurn(p: Params, load: Payload, s: State, g: nat, reply: Reply)
    requires Inv(p, s) && OneDocument(load, s) && g < |s.runners|
    requires InLoop(s.runners[g].pc) && Helped(p, s, s.runners[g], reply)
    ensures var s' := StepRunner(p, s, g, reply); g < |s'.runners| && Moved(s.runners[g], s'.runners[g])
  {
    var r := s.runners[g];
    assert RunnerInv(p, s, r);
    match r.pc
    case Bound(sid, staged) => BindMoves(p, s, g, sid);
    case Appending(sid, i, phase) =>
      match phase {
        case Prepare => PrepareMoves(p, load, s, g, sid, i);
        case CheckWindow =>
        case Send =>
        case AwaitAck => AckMoves(p, s, g, sid, i, reply);
        case Accept => AcceptMoves(p, s, g, sid, i, reply);
      }
  }

  /** How often runner `g` takes a turn. */
  function Turns(events: seq<Event>, g: nat): nat {
    if events == [] then 0
    else Turns(events[..|events| - 1], g) + (if events[|events| - 1].Advance? && events[|events| - 1].g == g then 1
                                             else 0)
  }

  ghost predicate HelpedAt(p: Params, s: State, e: Event, g: nat) {
    e.Advance? && e.g == g && g < |s.runners| && InLoop(s.runners[g].pc) ==> Helped(p, s, s.runners[g], e.reply)
  }

  /** Runner `g` is helped at each turn of its Append loop; everyone else, and `g` after the
      loop, does as they please. */
  ghost predicate Cooperative(p: Params, s: State, events: seq<Event>, g: nat) {
    forall k :: 0 <= k < |events| ==> HelpedAt(p, Run(p, s, events[..k]), events[k], g)
  }

  lemma BystanderKeepsRunner(p: Params, s: State, e: Event, g: nat)
    requires Inv(p, s) && g < |s.runners| && !(e.Advance? && e.g == g)
    ensures g < |Apply(p, s, e).runners| && Apply(p, s, e).runners[g] == s.runners[g]
  {
    if e.Advance? && e.g < |s.runners| {
      RunnerGood(p, s, e.g, e.reply);
    }
  }

  /** Still in the loop, with the turns taken so far paid for. */
  ghost predicate Replaying(r0: Runner, s: State, g: nat, turns: nat) {
    && g < |s.runners|
    && s.runners[g] == r0.(pc := s.runners[g].pc) && InLoop(s.runners[g].pc)
    && Left(s.runners[g]) + turns <= Left(r0)
  }

  ghost predicate OutOfLoop(s: State, g: nat) {
    g < |s.runners| && LoopDone(s.runners[g].pc)
  }

  lemma ReplayStep(p: Params, load: Payload, r0: Runner, s: State, e: Event, g: nat, turns: nat)
    requires Inv(p, s) && OneDocument(load, s) && Replaying(r0, s, g, turns) && HelpedAt(p, s, e, g)
    ensures var s' := Apply(p, s, e);
            Replaying(r0, s', g, turns + if e.Advance? && e.g == g then 1 else 0) || OutOfLoop(s', g)
  {
    if e.Advance? && e.g == g {
      HelpedTurn(p, load, s, g, e.reply);
    } else {
      BystanderKeepsRunner(p, s, e, g);
    }
  }

  lemma {:induction false} RunOneDocumentFrom(p: Params, s: State, events: seq<Event>, doc: seq<B.LogicalBlock>)
    requires p.lim.maxCount > 0 && Inv(p, s) && OneDocument(PayloadFor(p, doc, ""), s) && ClaimsCarry(events, doc)
    ensures Inv(p, Run(p, s, events)) && OneDocument(PayloadFor(p, doc, ""), Run(p, s, events))
  {
    if events != [] {
      var init := events[..|events| - 1];
      assert forall k :: 0 <= k < |init| ==> init[k] == events[k];
      RunOneDocumentFrom(p, s, init, doc);
      ApplyInv(p, Run(p, s, init), events[|events| - 1]);
      ApplyOneDocument(p, Run(p, s, init), events[|events| - 1], doc);
    }
  }

  lemma CooperativeInit(p: Params, s: State, events: seq<Event>, g: nat)
    requires Cooperative(p, s, events, g) && events != []
    ensures var n := |events| - 1;
            Cooperative(p, s, events[..n], g) && HelpedAt(p, Run(p, s, events[..n]), events[n], g)
  {
    var n := |events| - 1;
    var init := events[..n];
    forall k | 0 <= k < |init| ensures HelpedAt(p, Run(p, s, init[..k]), init[k], g) {
      assert HelpedAt(p, Run(p, s, events[..k]), events[k], g);
      assert init[..k] == events[..k];
    }
  }

  lemma CarryInit(events: seq<Event>, doc: seq<B.LogicalBlock>)
    requires ClaimsCarry(events, doc) && events != []
    ensures ClaimsCarry(events[..|events| - 1], doc)
  {
  }

  /** After the first `k` events runner `g` has left its loop and all of `plan` is accepted. */
  ghost predicate DeliveredAt(p: Params, s: State, events: seq<Event>, g: nat, plan: seq<B.PlannedBatch>, k: nat) {
    k <= |events| && OutOfLoop(Run(p, s, events[..k]), g) && WhollyAccepted(Run(p, s, events[..k]), plan)
  }

  ghost predicate Delivered(p: Params, s: State, events: seq<Event>, g: nat, plan: seq<B.PlannedBatch>) {
    exists k: nat :: DeliveredAt(p, s, events, g, plan, k)
  }

  lemma DeliveredLater(p: Params, s: State, events: seq<Event>, g: nat, plan: seq<B.PlannedBatch>)
    requires events != [] && Delivered(p, s, events[..|events| - 1], g, plan)
    ensures Delivered(p, s, events, g, plan)
  {
    var init := events[..|events| - 1];
    var k: nat :| DeliveredAt(p, s, init, g, plan, k);
    assert init[..k] == events[..k];
    assert DeliveredAt(p, s, events, g, plan, k);
  }

  lemma DeliveredNow(p: Params, load: Payload, s: State, events: seq<Event>, g: nat)
    requires Inv(p, Run(p, s, events)) && OneDocument(load, Run(p, s, events)) && OutOfLoop(Run(p, s, events), g)
    ensures Delivered(p, s, events, g, load.plan)
  {
    NextIsTotal(p, load, Run(p, s, events), g);
    assert events[..|events|] == events;
    assert DeliveredAt(p, s, events, g, load.plan, |events|);
  }

  lemma {:induction false} ReplayRun(p: Params, s: State, events: seq<Event>, doc: seq<B.LogicalBlock>, g: nat)
    requires p.lim.maxCount > 0 && Inv(p, s) && OneDocument(PayloadFor(p, doc, ""), s) && ClaimsCarry(events, doc)
    requires g < |s.runners| && InLoop(s.runners[g].pc) && Cooperative(p, s, events, g)
    ensures || Delivered(p, s, events, g, PayloadFor(p, doc, "").plan)
            || Replaying(s.runners[g], Run(p, s, events), g, Turns(events, g))
  {
    if events != [] {
      var n := |events| - 1;
      var init, load := events[..n], PayloadFor(p, doc, "");
      CooperativeInit(p, s, events, g);
      CarryInit(events, doc);
      ReplayRun(p, s, init, doc, g);
      if Delivered(p, s, init, g, load.plan) {
        DeliveredLater(p, s, events, g, load.plan);
      } else {
        ReplayMore(p, s, events, doc, g);
      }
    } else {
      assert s.runners[g] == s.runners[g].(pc := s.runners[g].pc);
    }
  }

  lemma ReplayMore(p: Params, s: State, events: seq<Event>, doc: seq<B.LogicalBlock>, g: nat)
    requires p.lim.maxCount > 0 && Inv(p, s) && OneDocument(PayloadFor(p, doc, ""), s) && ClaimsCarry(events, doc)
    requires g < |s.runners| && events != [] && HelpedAt(p, Run(p, s, events[..|events| - 1]), events[|events| - 1], g)
    requires Replaying(s.runners[g], Run(p, s, events[..|events| - 1]), g, Turns(events[..|events| - 1], g))
    ensures || Delivered(p, s, events, g, PayloadFor(p, doc, "").plan)
            || Replaying(s.runners[g], Run(p, s, events), g, Turns(events, g))
  {
    var n, load := |events| - 1, PayloadFor(p, doc, "");
    CarryInit(events, doc);
    RunOneDocumentFrom(p, s, events[..n], doc);
    ReplayStep(p, load, s.runners[g], Run(p, s, events[..n]), events[n], g, Turns(events[..n], g));
    RunOneDocumentFrom(p, s, events, doc);
    if OutOfLoop(Run(p, s, events), g) {
      DeliveredNow(p, load, s, events, g);
    }
  }

  // ---------------------------------------------------------------- accepted for good

  lemma ApplyGrows(p: Params, s: State, e: Event)
    requires Inv(p, s)
    ensures D.Ensured(s.delivery).nextBatch <= D.Ensured(Apply(p, s, e).delivery).nextBatch
  {
    if e.Advance? && e.g < |s.runners| {
      RunnerGood(p, s, e.g, e.reply);
    }
  }

  lemma {:induction false} NextNeverFalls(p: Params, s: State, events: seq<Event>, k: nat)
    requires p.lim.maxCount > 0 && Inv(p, s) && k <= |events|
    ensures D.Ensured(Run(p, s, events[..k]).delivery).nextBatch <= D.Ensured(Run(p, s, events).delivery).nextBatch
  {
    if k == |events| {
      assert events[..k] == events;
    } else {
      var init := events[..|events| - 1];
      NextNeverFalls(p, s, init, k);
      assert init[..k] == events[..k];
      RunKeepsInv(p, s, init);
      ApplyGrows(p, Run(p, s, init), events[|events| - 1]);
    }
  }

  lemma StaysAccepted(p: Params, s: State, events: seq<Event>, doc: seq<B.LogicalBlock>, g: nat)
    requires p.lim.maxCount > 0 && Inv(p, s) && OneDocument(PayloadFor(p, doc, ""), s) && ClaimsCarry(events, doc)
    requires Delivered(p, s, events, g, PayloadFor(p, doc, "").plan)
    ensures WhollyAccepted(Run(p, s, events), PayloadFor(p, doc, "").plan)
  {
    var load := PayloadFor(p, doc, "");
    var k: nat :| DeliveredAt(p, s, events, g, load.plan, k);
    NextNeverFalls(p, s, events, k);
    RunOneDocumentFrom(p, s, events, doc);
    NextBounded(p, load, Run(p, s, events));
  }

  /** Replay: from any reachable state, whatever crashed before, whatever batches were already
      accepted and whoever interferes, an owner of the same document whose lease is kept and
      whose calls succeed never stops inside its Append loop; once it has taken `Left` turns
      it has left the loop with every batch accepted, and that stays so. */
  lemma ReplayDelivers(p: Params, maxAttempts: nat, now: C.Time, before: seq<Event>, after: seq<Event>,
                       doc: seq<B.LogicalBlock>, g: nat)
    requires p.lim.maxCount > 0 && ClaimsCarry(before, doc) && ClaimsCarry(after, doc)
    requires var s := Run(p, Init(maxAttempts, now), before);
             g < |s.runners| && InLoop(s.runners[g].pc) && Cooperative(p, s, after, g)
    ensures var s, plan := Run(p, Init(maxAttempts, now), before), PayloadFor(p, doc, "").plan;
            var s' := Run(p, s, after);
            && (Delivered(p, s, after, g, plan) || (g < |s'.runners| && InLoop(s'.runners[g].pc)))
            && (Turns(after, g) >= Left(s.runners[g]) ==> Delivered(p, s, after, g, plan))
            && (Delivered(p, s, after, g, plan) ==> WhollyAccepted(s', plan))
  {
    RunOneDocument(p, maxAttempts, now, before, doc);
    var s, plan := Run(p, Init(maxAttempts, now), before), PayloadFor(p, doc, "").plan;
    ReplayRun(p, s, after, doc, g);
    if Delivered(p, s, after, g, plan) {
      StaysAccepted(p, s, after, doc, g);
    } else {
      RunKeepsInv(p, s, after);
      LeftPositive(p, Run(p, s, after), g);
    }
  }

  lemma LeftPositive(p: Params, s: State, g: nat)
    requires Inv(p, s) && g < |s.runners| && InLoop(s.runners[g].pc)
    ensures Left(s.runners[g]) > 0
  {
    assert RunnerInv(p, s, s.runners[g]);
  }

  // ---------------------------------------------------------------- such a replay exists

  predicate NoClaims(events: seq<Event>) {
    forall k :: 0 <= k < |events| ==> !events[k].Claim?
  }

  /** A batch whose reply is awaited was sent. */
  predicate Posted(s: State, r: Runner) {
    r.pc.Appending? && r.pc.append.AwaitAck? && r.pc.i < |r.load.plan| ==>
      AppendMessage(r, r.pc.sid, r.pc.i) in s.network
  }

  const YES := Reply(true, "", None, P.VectorStatus(P.Accepted, false, false, false, 0, 0, 0, 0, 0, 0, 0, 0, 0, 0, 0))

  /** The owner of the lease, in its loop and able to call. */
  ghost predicate Able(p: Params, load: Payload, s: State, g: nat) {
    && Inv(p, s) && OneDocument(load, s) && g < |s.runners| && InLoop(s.runners[g].pc)
    && WindowOpen(p, s, s.runners[g]) && Posted(s, s.runners[g])
  }

  lemma DeliverHelps(p: Params, load: Payload, s: State, g: nat)
    requires Able(p, load, s, g) && s.runners[g].pc.Appending? && s.runners[g].pc.append.AwaitAck?
    ensures var r := s.runners[g];
            && r.pc.i < |r.load.plan|
            && (var s1 := Apply(p, s, Deliver(AppendMessage(r, r.pc.sid, r.pc.i)));
                Able(p, load, s1, g) && s1.runners == s.runners && Helped(p, s1, r, YES))
  {
    var r := s.runners[g];
    assert RunnerInv(p, s, r);
    DeliverInv(p, s, AppendMessage(r, r.pc.sid, r.pc.i));
  }

  /** A helped turn keeps the window open and the books in order. */
  lemma TurnKeepsAble(p: Params, load: Payload, s: State, g: nat)
    requires Able(p, load, s, g) && Helped(p, s, s.runners[g], YES)
    ensures var s' := Apply(p, s, Advance(g, YES));
            && Inv(p, s') && OneDocument(load, s') && g < |s'.runners| && Left(s'.runners[g]) < Left(s.runners[g])
            && WindowOpen(p, s', s'.runners[g]) && (Able(p, load, s', g) || OutOfLoop(s', g))
  {
    HelpedTurn(p, load, s, g, YES);
    TurnInv(p, s, g);
    TurnOneDocument(p, load, s, g, YES);
    TurnOpen(p, s, g);
  }

  lemma TurnInv(p: Params, s: State, g: nat)
    requires Inv(p, s) && g < |s.runners|
    ensures Inv(p, StepRunner(p, s, g, YES))
  {
    RunnerGood(p, s, g, YES);
    GoodStepInv(p, s, g, StepRunner(p, s, g, YES));
  }

  lemma TurnOpen(p: Params, s: State, g: nat)
    requires Inv(p, s) && g < |s.runners| && InLoop(s.runners[g].pc) && WindowOpen(p, s, s.runners[g])
    ensures var s' := StepRunner(p, s, g, YES);
            g < |s'.runners| && WindowOpen(p, s', s'.runners[g]) && Posted(s', s'.runners[g])
  {
    TurnWindow(p, s, g);
    assert RunnerInv(p, s, s.runners[g]);
    match s.runners[g].pc
    case Bound(sid, staged) =>
    case Appending(sid, i, phase) => TurnPosted(p, s, g, sid, i, phase);
  }

  lemma TurnWindow(p: Params, s: State, g: nat)
    requires Inv(p, s) && g < |s.runners| && InLoop(s.runners[g].pc) && WindowOpen(p, s, s.runners[g])
    ensures var s' := StepRunner(p, s, g, YES); g < |s'.runners| && WindowOpen(p, s', s'.runners[g])
  {
    RunnerGood(p, s, g, YES);
  }

  lemma TurnPosted(p: Params, s: State, g: nat, sid: string, i: nat, phase: AppendPhase)
    requires g < |s.runners| && s.runners[g].pc == Appending(sid, i, phase) && i < |s.runners[g].load.plan|
    ensures var s' := StepAppend(p, s, g, sid, i, phase, YES); g < |s'.runners| && Posted(s', s'.runners[g])
  {
  }

  /** Schedules grow at their end. */
  lemma CooperativeMore(p: Params, s: State, events: seq<Event>, e: Event, g: nat)
    requires Cooperative(p, s, events, g) && HelpedAt(p, Run(p, s, events), e, g)
    ensures Cooperative(p, s, events + [e], g) && Run(p, s, events + [e]) == Apply(p, Run(p, s, events), e)
  {
    var all := events + [e];
    assert all[..|events|] == events;
    forall k | 0 <= k < |all| ensures HelpedAt(p, Run(p, s, all[..k]), all[k], g) {
      if k < |events| {
        assert all[..k] == events[..k];
        assert HelpedAt(p, Run(p, s, events[..k]), events[k], g);
      }
    }
  }

  /** A schedule so far, after which runner `g` is still able. */
  ghost predicate Scheduled(p: Params, load: Payload, s: State, events: seq<Event>, g: nat) {
    Cooperative(p, s, events, g) && NoClaims(events) && Able(p, load, Run(p, s, events), g)
  }

  /** Let the awaited Append arrive, if one is. */
  lemma Arrive(p: Params, load: Payload, s: State, events: seq<Event>, g: nat) returns (more: seq<Event>)
    requires Scheduled(p, load, s, events, g)
    ensures Scheduled(p, load, s, more, g) && Run(p, s, more).runners == Run(p, s, events).runners
    ensures Helped(p, Run(p, s, more), Run(p, s, more).runners[g], YES)
  {
    var t := Run(p, s, events);
    var r := t.runners[g];
    if r.pc.Appending? && r.pc.append.AwaitAck? {
      DeliverHelps(p, load, t, g);
      var e := Deliver(AppendMessage(r, r.pc.sid, r.pc.i));
      CooperativeMore(p, s, events, e, g);
      more := events + [e];
    } else {
      more := events;
    }
  }

  /** Take one helped turn. */
  lemma TakeTurn(p: Params, load: Payload, s: State, events: seq<Event>, g: nat) returns (more: seq<Event>)
    requires Scheduled(p, load, s, events, g) && Helped(p, Run(p, s, events), Run(p, s, events).runners[g], YES)
    ensures Cooperative(p, s, more, g) && NoClaims(more)
    ensures var t, t' := Run(p, s, events), Run(p, s, more);
            && Inv(p, t') && OneDocument(load, t') && g < |t'.runners| && Left(t'.runners[g]) < Left(t.runners[g])
            && WindowOpen(p, t', t'.runners[g]) && (Able(p, load, t', g) || OutOfLoop(t', g))
  {
    TurnKeepsAble(p, load, Run(p, s, events), g);
    CooperativeMore(p, s, events, Advance(g, YES), g);
    more := events + [Advance(g, YES)];
  }

  /** An owner with an open window, left alone, can always finish its loop: the conditions of
      the replay theorem can be met from every such state, whatever was accepted before. */
  lemma ReplayPossible(p: Params, load: Payload, s: State, g: nat) returns (events: seq<Event>)
    requires Able(p, load, s, g)
    ensures Cooperative(p, s, events, g) && NoClaims(events)
    ensures OutOfLoop(Run(p, s, events), g) && WhollyAccepted(Run(p, s, events), load.plan)
    ensures WindowOpen(p, Run(p, s, events), Run(p, s, events).runners[g])
  {
    events := Finish(p, load, s, [], g);
  }

  lemma {:induction false} Finish(p: Params, load: Payload, s: State, events: seq<Event>, g: nat)
    returns (all: seq<Event>)
    requires Scheduled(p, load, s, events, g)
    ensures Cooperative(p, s, all, g) && NoClaims(all)
    ensures OutOfLoop(Run(p, s, all), g) && WhollyAccepted(Run(p, s, all), load.plan)
    ensures WindowOpen(p, Run(p, s, all), Run(p, s, all).runners[g])
    decreases Left(Run(p, s, events).runners[g])
  {
    LeftPositive(p, Run(p, s, events), g);
    var arrived := Arrive(p, load, s, events, g);
    all := TakeTurn(p, load, s, arrived, g);
    if OutOfLoop(Run(p, s, all), g) {
      NextIsTotal(p, load, Run(p, s, all), g);
    } else {
      all := Finish(p, load, s, all, g);
    }
  }

  // ---------------------------------------------------------------- real-time exclusion

  /** The lease of runner `g` reaches at least until `until`. */
  predicate HeldUntil(s: State, g: nat, until: C.Time) {
    && g < |s.runners|
    && s.rows.job.status == C.Processing
    && s.rows.job.workerId == Some(s.runners[g].token.workerId)
    && s.rows.job.leaseGeneration == s.runners[g].token.generation
    && s.rows.job.leaseUntil.Some? && s.rows.job.leaseUntil.value >= until
  }

  /** Runner `g` neither gives the job up, nor completes it, nor shortens its own lease. */
  predicate KeepsLease(s: State, e: Event, g: nat) {
    && !(e.HandleFailure? && e.g == g)
    && (e.Heartbeat? && e.g == g && s.rows.job.leaseUntil.Some?
        ==> s.now + e.leaseSeconds >= s.rows.job.leaseUntil.value)
    && (e.Advance? && e.g == g && g < |s.runners| ==> !IsCompleting(s.runners[g].pc))
  }

  ghost predicate LeaseKept(p: Params, s: State, events: seq<Event>, g: nat) {
    forall k :: 0 <= k < |events| ==> KeepsLease(Run(p, s, events[..k]), events[k], g)
  }

  lemma HeldByOwner(p: Params, s: State, g: nat, reply: Reply, until: C.Time)
    requires Inv(p, s) && HeldUntil(s, g, until) && !IsCompleting(s.runners[g].pc)
    ensures var s' := StepRunner(p, s, g, reply); HeldUntil(s', g, until) && |s'.runners| == |s.runners|
  {
    RunnerGood(p, s, g, reply);
  }

  lemma HeldByOther(p: Params, s: State, e: Event, g: nat, until: C.Time)
    requires p.lim.maxCount > 0 && Inv(p, s) && HeldUntil(s, g, until) && s.now <= until
    requires ActorOf(e).Some? && ActorOf(e).value != g
    ensures HeldUntil(Apply(p, s, e), g, until) && |Apply(p, s, e).runners| == |s.runners|
  {
    var h := ActorOf(e).value;
    if Valid(s, h) {
      OneValidToken(p, s, g, h);
    }
    InvalidTokenIsInert(p, s, e);
    TokensKept(p, s, e, g);
    if e.Advance? && h < |s.runners| {
      RunnerGood(p, s, h, e.reply);
    }
  }

  lemma HeldStep(p: Params, s: State, e: Event, g: nat, until: C.Time)
    requires p.lim.maxCount > 0 && Inv(p, s) && HeldUntil(s, g, until) && s.now <= until && KeepsLease(s, e, g)
    ensures HeldUntil(Apply(p, s, e), g, until) && |Apply(p, s, e).runners| == |s.runners|
  {
    if ActorOf(e).Some? && ActorOf(e).value != g {
      HeldByOther(p, s, e, g, until);
    } else if e.Advance? {
      HeldByOwner(p, s, g, e.reply, until);
    }
  }

  lemma ClockForward(p: Params, s: State, e: Event)
    requires Inv(p, s)
    ensures Apply(p, s, e).now >= s.now
  {
    if e.Advance? && e.g < |s.runners| {
      RunnerGood(p, s, e.g, e.reply);
    }
  }

  lemma LeaseKeptSplit(p: Params, s: State, events: seq<Event>, g: nat)
    requires events != [] && LeaseKept(p, s, events, g)
    ensures var n := |events| - 1;
            LeaseKept(p, s, events[..n], g) && KeepsLease(Run(p, s, events[..n]), events[n], g)
  {
    var init := events[..|events| - 1];
    forall k | 0 <= k < |init| ensures KeepsLease(Run(p, s, init[..k]), init[k], g) {
      assert init[..k] == events[..k];
    }
  }

  lemma {:induction false} HeldRun(p: Params, s: State, events: seq<Event>, g: nat, until: C.Time)
    requires p.lim.maxCount > 0 && Inv(p, s) && HeldUntil(s, g, until)
    requires LeaseKept(p, s, events, g) && Run(p, s, events).now <= until
    ensures HeldUntil(Run(p, s, events), g, until) && |Run(p, s, events).runners| == |s.runners|
  {
    if events != [] {
      var n := |events| - 1;
      var init := events[..n];
      LeaseKeptSplit(p, s, events, g);
      RunKeepsInv(p, s, init);
      ClockForward(p, Run(p, s, init), events[n]);
      HeldRun(p, s, init, g, until);
      HeldStep(p, Run(p, s, init), events[n], g, until);
    }
  }

  /** Real-time exclusion: once the window check passes, a call that starts within the margin
      and lasts at most its deadline returns to a caller whose token is still valid, and
      nobody claimed the job meanwhile. */
  lemma WindowExcludesOthers(p: Params, s: State, events: seq<Event>, g: nat)
    requires p.lim.maxCount > 0 && Inv(p, s) && g < |s.runners| && WindowOpen(p, s, s.runners[g])
    requires LeaseKept(p, s, events, g) && Run(p, s, events).now <= s.now + p.margin + p.deadline
    ensures Valid(Run(p, s, events), g) && |Run(p, s, events).runners| == |s.runners|
  {
    HeldRun(p, s, events, g, s.now + p.margin + p.deadline);
  }
}
