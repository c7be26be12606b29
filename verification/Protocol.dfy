/** The lease-fenced delivery protocol of one job as a transition system. Every transaction
    and every remote call is one step; workers, the clock and the network interleave freely.
    Each claim starts a runner, identified by its lease generation. A runner that crashes is
    one that takes no further step. */
module Protocol {
  import opened Base
  import B = Batching
  import C = Coordinator
  import D = Delivery
  import G = Greedy
  import P = Policy

  datatype Params = Params(wire: B.Wire, finalHash: seq<B.LogicalBlock> -> string, lim: G.Limits, deadline: nat,
                           margin: nat)

  // Every constructor names the next thing the runner does.
  datatype StartPhase = LoadJob | SaveCompat | FindSession | StageStart | CheckStart | CallStart
    | BindStarted(started: string)
  datatype AppendPhase = Prepare | CheckWindow | Send | AwaitAck | Accept
  datatype FinalizePhase = SaveHash | StageFinalize | CheckFinalize | CallFinalize
    | SaveZone(zone: string, status: P.VectorStatus)
  datatype ActivatePhase = StageReadiness(status: P.VectorStatus) | StageActivate(status: P.VectorStatus)
                         | WaitReady(initial: Option<P.VectorStatus>)
                         | FenceActivate | CallActivate | FenceActivated
                         | FencePoll(initial: Option<P.VectorStatus>) | PollActive(initial: Option<P.VectorStatus>)
                         | Completing(status: P.VectorStatus) | Done(status: P.VectorStatus)

  /** Program counter of a runner: `sid` is its ingestion session, `i` the current batch.
      `Bound` is before the stage change that opens the Append loop, or (`staged`) before the
      loop's own session binding. */
  datatype Pc =
    | Starting(start: StartPhase)
    | Bound(sid: string, staged: bool)
    | Appending(sid: string, i: nat, append: AppendPhase)
    | Finalizing(sid: string, finalize: FinalizePhase)
    | Activating(sid: string, zone: string, activate: ActivatePhase)
    | Stopped

  /** What a worker makes of the blocks it reconstructed. */
  datatype Payload = Payload(plannable: bool, plan: seq<B.PlannedBatch>, finalHash: string, compatibility: string)

  datatype Runner = Runner(token: C.LeaseToken, blocks: seq<B.LogicalBlock>, load: Payload, pc: Pc)

  datatype Batch = Batch(hash: string, blocks: seq<B.LogicalBlock>)
  datatype Message = Message(sid: string, index: nat, batch: Batch)

  /** `started` is the session the remote assigned to this job's idempotency key; `network`
      holds every Append ever sent: delivery may be late, repeated or never. */
  datatype State = State(now: C.Time, rows: C.Rows, delivery: D.Rows, runners: seq<Runner>,
                         started: Option<string>, network: set<Message>, remote: map<string, map<nat, Batch>>)

  /** What the environment answers to the call a runner makes. */
  datatype Reply = Reply(ok: bool, text: string, zone: Option<string>, status: P.VectorStatus)

  datatype Event =
    | Tick(elapsed: nat)
    | RequestCancel
    | Claim(worker: string, leaseSeconds: nat, attemptId: string, blocks: seq<B.LogicalBlock>, compatibility: string)
    | Heartbeat(g: nat, leaseSeconds: nat)
    | HandleFailure(g: nat, failure: C.FailureClass, delay: nat)
    | Deliver(m: Message)
    | Advance(g: nat, reply: Reply)

  function PayloadFor(p: Params, blocks: seq<B.LogicalBlock>, compatibility: string): Payload {
    match B.PlanOf(blocks, p.wire, p.lim)
    case Ok(plan) => Payload(true, plan, p.finalHash(B.Ordered(blocks).value), compatibility)
    case Err(_) => Payload(false, [], "", compatibility)
  }

  function Init(maxAttempts: nat, now: C.Time): State {
    State(now, C.Rows(C.Job(C.Pending, None, None, 0, None, 0, maxAttempts, None, false), []),
          D.Rows(None, map[]), [], None, {}, map[])
  }

  predicate Owned(s: State, r: Runner) {
    C.Owns(s.rows.job, r.token, s.now)
  }

  /** The window check: this token holds the row and the call's deadline plus the margin
      fits in what is left of the lease. */
  predicate WindowOpen(p: Params, s: State, r: Runner) {
    Owned(s, r) && s.rows.job.leaseUntil.value - s.now >= p.deadline + p.margin
  }

  // ---------------------------------------------------------------- remote

  function SessionAt(s: State, sid: string): map<nat, Batch> {
    if sid in s.remote then s.remote[sid] else map[]
  }

  /** Append is idempotent by index and hash; a different hash at a taken index is refused. */
  function RemoteAppend(s: State, m: Message): State {
    var at := SessionAt(s, m.sid);
    if m.index in at then s else s.(remote := s.remote[m.sid := at[m.index := m.batch]])
  }

  // ---------------------------------------------------------------- steps

  function Go(s: State, g: nat, pc: Pc): State
    requires g < |s.runners|
  {
    s.(runners := s.runners[g := s.runners[g].(pc := pc)])
  }

  function NextBatch(r: Runner, sid: string, i: nat): Pc {
    if i < |r.load.plan| then Appending(sid, i, Prepare) else Finalizing(sid, SaveHash)
  }

  function Stage(s: State, g: nat, stage: string, pc: Pc): State
    requires g < |s.runners|
  {
    match C.AdvanceStage(s.rows, s.runners[g].token, s.now, stage)
    case None => Go(s, g, Stopped)
    case Some(rows) => Go(s.(rows := rows), g, pc)
  }

  /** A fenced transaction on the delivery rows. */
  function Fence(s: State, g: nat, result: Result<D.Rows, D.DeliveryError>, pc: Pc): State
    requires g < |s.runners|
  {
    if !Owned(s, s.runners[g]) || result.Err? then Go(s, g, Stopped)
    else Go(s.(delivery := result.value), g, pc)
  }

  function Check(s: State, g: nat, allowed: bool, pc: Pc): State
    requires g < |s.runners|
  {
    Go(s, g, if allowed then pc else Stopped)
  }

  function CallStartStep(s: State, g: nat, reply: Reply): State
    requires g < |s.runners|
  {
    var sid := if s.started.Some? then s.started.value else reply.text;
    Check(s.(started := Some(sid)), g, reply.ok, Starting(BindStarted(sid)))
  }

  /** Up to a bound session: load, fingerprint, find or start the session. */
  function StepStart(p: Params, s: State, g: nat, phase: StartPhase, reply: Reply): State
    requires g < |s.runners|
  {
    var r := s.runners[g];
    match phase
    case LoadJob => Check(s, g, Owned(s, r), Starting(SaveCompat))
    case SaveCompat => Fence(s, g, D.SaveCompatibility(s.delivery, r.load.compatibility), Starting(FindSession))
    case FindSession =>
      var sid := D.Ensured(s.delivery).sessionId;
      Check(s, g, Owned(s, r), if sid.Some? then Bound(sid.value, false) else Starting(StageStart))
    case StageStart => Stage(s, g, "ASTRAVECTOR_START", Starting(CheckStart))
    case CheckStart => Check(s, g, WindowOpen(p, s, r), Starting(CallStart))
    case CallStart => CallStartStep(s, g, reply)
    case BindStarted(sid) => Fence(s, g, D.BindSession(s.delivery, sid, Some(reply.text)), Bound(sid, false))
  }

  function StepBound(s: State, g: nat, sid: string, staged: bool): State
    requires g < |s.runners|
  {
    var r := s.runners[g];
    if !staged then Stage(s, g, "ASTRAVECTOR_APPEND", if r.load.plannable then Bound(sid, true) else Stopped)
    else Fence(s, g, D.BindSession(s.delivery, sid, None), NextBatch(r, sid, 0))
  }

  function PrepareStep(s: State, g: nat, sid: string, i: nat): State
    requires g < |s.runners| && i < |s.runners[g].load.plan|
  {
    var r := s.runners[g];
    match D.PrepareBatch(s.delivery, r.load.plan[i])
    case Err(_) => Go(s, g, Stopped)
    case Ok((d, replay)) =>
      if !Owned(s, r) then Go(s, g, Stopped)
      else Go(s.(delivery := d), g, if replay == D.AlreadyAccepted then NextBatch(r, sid, i + 1)
                                    else Appending(sid, i, CheckWindow))
  }

  function AppendMessage(r: Runner, sid: string, i: nat): Message
    requires i < |r.load.plan|
  {
    Message(sid, i, Batch(r.load.plan[i].contentHash, r.load.plan[i].blocks))
  }

  /** The remote can acknowledge batch `i` only if it holds it with this hash. */
  predicate Acknowledgeable(s: State, sid: string, i: nat, hash: string) {
    i in SessionAt(s, sid) && SessionAt(s, sid)[i].hash == hash
  }

  /** One step of the Append loop. */
  function StepAppend(p: Params, s: State, g: nat, sid: string, i: nat, phase: AppendPhase, reply: Reply): State
    requires g < |s.runners| && i < |s.runners[g].load.plan|
  {
    var r := s.runners[g];
    match phase
    case Prepare => PrepareStep(s, g, sid, i)
    case CheckWindow => Check(s, g, WindowOpen(p, s, r), Appending(sid, i, Send))
    case Send => Go(s.(network := s.network + {AppendMessage(r, sid, i)}), g, Appending(sid, i, AwaitAck))
    case AwaitAck =>
      Check(s, g, reply.ok && Acknowledgeable(s, sid, i, r.load.plan[i].contentHash), Appending(sid, i, Accept))
    case Accept => Fence(s, g, D.MarkAccepted(s.delivery, r.load.plan[i], reply.text), NextBatch(r, sid, i + 1))
  }

  /** Final hash, Finalize and the resolved zone. While Finalize is being reconciled, an ok
      reply without a zone is an observation of the session, recorded without a fence. */
  function StepFinalize(p: Params, s: State, g: nat, sid: string, phase: FinalizePhase, reply: Reply): State
    requires g < |s.runners|
  {
    var r := s.runners[g];
    match phase
    case SaveHash => Fence(s, g, D.SaveFinalHash(s.delivery, sid, r.load.finalHash), Finalizing(sid, StageFinalize))
    case StageFinalize => Stage(s, g, "ASTRAVECTOR_FINALIZE", Finalizing(sid, CheckFinalize))
    case CheckFinalize => Check(s, g, WindowOpen(p, s, r), Finalizing(sid, CallFinalize))
    case CallFinalize =>
      if !reply.ok then Go(s, g, Stopped)
      else if reply.zone.Some? then Go(s, g, Finalizing(sid, SaveZone(reply.zone.value, reply.status)))
      else
        (match D.RecordSessionStatus(s.delivery, sid, reply.text)
         case Err(_) => Go(s, g, Stopped)
         case Ok(d) => Go(s.(delivery := d), g, Finalizing(sid, CallFinalize)))
    case SaveZone(zone, status) =>
      Fence(s, g, D.SaveZone(s.delivery, sid, zone), Activating(sid, zone, StageReadiness(status)))
  }

  function Choose(d: Option<P.Disposition>, searchable: Pc, ready: Pc, wait: Pc, terminal: Pc): Pc {
    match d
    case Some(Searchable) => searchable
    case Some(ReadyToActivate) => ready
    case Some(Wait) => wait
    case Some(TerminalState) => terminal
    case None => Stopped
  }

  /** One vector-status observation: record it, unfenced, and move on what it evaluates to. */
  function Observe(s: State, g: nat, v: P.VectorStatus, policy: P.ReadinessPolicy, searchable: Pc, ready: Pc, wait: Pc,
                   terminal: Pc): State
    requires g < |s.runners|
  {
    match D.RecordVectorStatus(s.delivery, v)
    case Err(_) => Go(s, g, Stopped)
    case Ok(d) =>
      Go(s.(delivery := d), g, Choose(P.Evaluate(v, policy), searchable, ready, wait, terminal))
  }

  function CompleteStep(s: State, g: nat, sid: string, zone: string, status: P.VectorStatus): State
    requires g < |s.runners|
  {
    match C.Complete(s.rows, s.runners[g].token, s.now)
    case None => Go(s, g, Stopped)
    case Some(rows) => Go(s.(rows := rows), g, Activating(sid, zone, Done(status)))
  }

  /** Readiness, activation and completion. A reply that is not ok while waiting stands for
      a failed call or an exhausted budget. */
  function StepActivate(s: State, g: nat, sid: string, zone: string, phase: ActivatePhase, reply: Reply): State
    requires g < |s.runners|
  {
    var r := s.runners[g];
    match phase
    case StageReadiness(status) => Stage(s, g, "ASTRAVECTOR_READINESS", Activating(sid, zone, StageActivate(status)))
    case StageActivate(status) => Stage(s, g, "ASTRAVECTOR_ACTIVATE", Activating(sid, zone, WaitReady(Some(status))))
    case WaitReady(initial) =>
      var v := if initial.Some? then initial.value else reply.status;
      if !reply.ok then Go(s, g, Stopped)
      else Observe(s, g, v, P.AllowReadyToActivate, Activating(sid, zone, Completing(v)),
                   Activating(sid, zone, FenceActivate), Activating(sid, zone, WaitReady(None)), Stopped)
    case FenceActivate => Check(s, g, Owned(s, r), Activating(sid, zone, CallActivate))
    case CallActivate =>
      Go(s, g, Activating(sid, zone, if reply.ok then FenceActivated else FencePoll(Some(reply.status))))
    case FenceActivated => Check(s, g, Owned(s, r), Activating(sid, zone, FencePoll(None)))
    case FencePoll(initial) => Check(s, g, Owned(s, r), Activating(sid, zone, PollActive(initial)))
    case PollActive(initial) =>
      var v, again := if initial.Some? then initial.value else reply.status, Activating(sid, zone, FencePoll(None));
      if !reply.ok then Go(s, g, Stopped)
      else Observe(s, g, v, P.RequireSearchable, Activating(sid, zone, Completing(v)), again, again, again)
    case Completing(status) => CompleteStep(s, g, sid, zone, status)
    case Done(_) => s
  }

  function StepRunner(p: Params, s: State, g: nat, reply: Reply): State
    requires g < |s.runners|
  {
    match s.runners[g].pc
    case Starting(phase) => StepStart(p, s, g, phase, reply)
    case Bound(sid, staged) => StepBound(s, g, sid, staged)
    case Appending(sid, i, phase) =>
      if i < |s.runners[g].load.plan| then StepAppend(p, s, g, sid, i, phase, reply) else s
    case Finalizing(sid, phase) => StepFinalize(p, s, g, sid, phase, reply)
    case Activating(sid, zone, phase) => StepActivate(s, g, sid, zone, phase, reply)
    case Stopped => s
  }

  function ClaimStep(p: Params, s: State, worker: string, leaseSeconds: nat, attemptId: string,
                     blocks: seq<B.LogicalBlock>, compatibility: string): State {
    if leaseSeconds == 0 || !C.Claimable(s.rows.job, s.now) then s
    else s.(rows := C.Claim(s.rows, s.now, worker, leaseSeconds, attemptId),
            runners := s.runners + [Runner(C.ClaimToken(s.rows, worker, attemptId), blocks,
                                           PayloadFor(p, blocks, compatibility), Starting(LoadJob))])
  }

  function Apply(p: Params, s: State, e: Event): State {
    match e
    case Tick(elapsed) => s.(now := s.now + elapsed)
    case RequestCancel => s.(rows := s.rows.(job := s.rows.job.(cancelRequested := true)))
    case Claim(worker, leaseSeconds, attemptId, blocks, compatibility) =>
      ClaimStep(p, s, worker, leaseSeconds, attemptId, blocks, compatibility)
    case Heartbeat(g, leaseSeconds) =>
      if g >= |s.runners| || leaseSeconds == 0 then s
      else
        (match C.Heartbeat(s.rows, s.runners[g].token, s.now, leaseSeconds)
         case None => s
         case Some(rows) => s.(rows := rows))
    case HandleFailure(g, failure, delay) =>
      if g >= |s.runners| then s
      else
        (match C.Handle(s.rows, s.runners[g].token, s.now, failure, delay)
         case None => s
         case Some((rows, _)) => s.(rows := rows))
    case Deliver(m) => if m in s.network then RemoteAppend(s, m) else s
    case Advance(g, reply) => if g >= |s.runners| then s else StepRunner(p, s, g, reply)
  }

  function Run(p: Params, s: State, events: seq<Event>): State {
    if events == [] then s else Apply(p, Run(p, s, events[..|events| - 1]), events[|events| - 1])
  }
}
