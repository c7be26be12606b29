/** No worker goes past a call of the remote without the answer it needs. */
module Answers {
  import opened Base
  import opened Protocol
  import opened ProtocolSafety
  import opened ProtocolTheorems
  import opened ProtocolReplay
  import P = Policy

  /** The status a worker looks at: one it was handed, or the one just answered. */
  function Looked(initial: Option<P.VectorStatus>, reply: Reply): P.VectorStatus {
    if initial.Some? then initial.value else reply.status
  }

  /** What `reply` must be for a worker at `pc` to get to `next`. */
  predicate Heard(pc: Pc, next: Pc, reply: Reply) {
    match next
    case Starting(BindStarted(_)) => pc == Starting(CallStart) && reply.ok
    case Appending(sid, i, Accept) => pc == Appending(sid, i, AwaitAck) && reply.ok
    case Finalizing(sid, SaveZone(zone, status)) =>
      pc == Finalizing(sid, CallFinalize) && reply.ok && reply.zone == Some(zone) && reply.status == status
    case Activating(sid, zone, StageReadiness(status)) => pc == Finalizing(sid, SaveZone(zone, status))
    case Activating(sid, zone, FenceActivated) => pc == Activating(sid, zone, CallActivate) && reply.ok
    case Activating(sid, zone, Completing(status)) =>
      && reply.ok && pc.Activating? && pc.sid == sid && pc.zone == zone
      && (pc.activate.WaitReady? || pc.activate.PollActive?) && status == Looked(pc.activate.initial, reply)
      && P.Evaluate(status, if pc.activate.WaitReady? then P.AllowReadyToActivate else P.RequireSearchable)
         == Some(P.Searchable)
    case Activating(sid, zone, Done(status)) => pc == Activating(sid, zone, Completing(status))
    case _ => true
  }

  ghost predicate Listens(s: State, s': State, g: nat, reply: Reply)
    requires g < |s.runners|
  {
    && g < |s'.runners|
    && (s'.runners[g].pc != s.runners[g].pc ==> Heard(s.runners[g].pc, s'.runners[g].pc, reply))
  }

  lemma StartListens(p: Params, s: State, g: nat, phase: StartPhase, reply: Reply)
    requires g < |s.runners| && s.runners[g].pc == Starting(phase)
    ensures Listens(s, StepStart(p, s, g, phase, reply), g, reply)
  {
  }

  lemma BoundListens(s: State, g: nat, sid: string, staged: bool, reply: Reply)
    requires g < |s.runners| && s.runners[g].pc == Bound(sid, staged)
    ensures Listens(s, StepBound(s, g, sid, staged), g, reply)
  {
  }

  lemma AppendListens(p: Params, s: State, g: nat, sid: string, i: nat, phase: AppendPhase, reply: Reply)
    requires g < |s.runners| && i < |s.runners[g].load.plan| && s.runners[g].pc == Appending(sid, i, phase)
    ensures Listens(s, StepAppend(p, s, g, sid, i, phase, reply), g, reply)
  {
  }

  lemma FinalizeListens(p: Params, s: State, g: nat, sid: string, phase: FinalizePhase, reply: Reply)
    requires g < |s.runners| && s.runners[g].pc == Finalizing(sid, phase)
    ensures Listens(s, StepFinalize(p, s, g, sid, phase, reply), g, reply)
  {
  }

  lemma ActivateListens(s: State, g: nat, sid: string, zone: string, phase: ActivatePhase, reply: Reply)
    requires g < |s.runners| && s.runners[g].pc == Activating(sid, zone, phase)
    ensures Listens(s, StepActivate(s, g, sid, zone, phase, reply), g, reply)
  {
  }

  /** Whatever event moves a worker on, the answer it needed was given to its own call. */
  lemma AnswersAreHeard(p: Params, s: State, e: Event, g: nat)
    requires p.lim.maxCount > 0 && Inv(p, s) && g < |s.runners|
    ensures var s' := Apply(p, s, e);
            && g < |s'.runners|
            && (s'.runners[g].pc != s.runners[g].pc ==>
                  e.Advance? && e.g == g && Heard(s.runners[g].pc, s'.runners[g].pc, e.reply))
  {
    if e.Advance? && e.g == g {
      match s.runners[g].pc
      case Starting(phase) => StartListens(p, s, g, phase, e.reply);
      case Bound(sid, staged) => BoundListens(s, g, sid, staged, e.reply);
      case Appending(sid, i, phase) =>
        if i < |s.runners[g].load.plan| {
          AppendListens(p, s, g, sid, i, phase, e.reply);
        }
      case Finalizing(sid, phase) => FinalizeListens(p, s, g, sid, phase, e.reply);
      case Activating(sid, zone, phase) => ActivateListens(s, g, sid, zone, phase, e.reply);
      case Stopped =>
    } else {
      BystanderKeepsRunner(p, s, e, g);
    }
  }
}
