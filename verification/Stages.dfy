/** The stage column of the job row tells, while a worker owns the job, where that worker is. */
module Stages {
  import opened Base
  import opened Protocol
  import opened ProtocolSafety
  import opened ProtocolTheorems
  import opened ProtocolReplay
  import C = Coordinator

  /** The stage a worker at `pc` has announced, once it has announced one. */
  function StageOf(pc: Pc): Option<string> {
    match pc
    case Starting(CheckStart) => Some("ASTRAVECTOR_START")
    case Starting(CallStart) => Some("ASTRAVECTOR_START")
    case Starting(BindStarted(_)) => Some("ASTRAVECTOR_START")
    case Starting(_) => None
    case Bound(_, staged) => if staged then Some("ASTRAVECTOR_APPEND") else None
    case Appending(_, _, _) => Some("ASTRAVECTOR_APPEND")
    case Finalizing(_, SaveHash) => Some("ASTRAVECTOR_APPEND")
    case Finalizing(_, StageFinalize) => Some("ASTRAVECTOR_APPEND")
    case Finalizing(_, _) => Some("ASTRAVECTOR_FINALIZE")
    case Activating(_, _, StageReadiness(_)) => Some("ASTRAVECTOR_FINALIZE")
    case Activating(_, _, StageActivate(_)) => Some("ASTRAVECTOR_READINESS")
    case Activating(_, _, _) => Some("ASTRAVECTOR_ACTIVATE")
    case Stopped => None
  }

  ghost predicate Announced(s: State, g: nat)
    requires g < |s.runners|
  {
    StageOf(s.runners[g].pc).Some? ==> s.rows.job.stage == StageOf(s.runners[g].pc)
  }

  ghost predicate StageShown(s: State) {
    forall g: nat :: g < |s.runners| && Valid(s, g) ==> Announced(s, g)
  }

  // ---------------------------------------------------------------- the owner's own steps

  ghost predicate TurnOk(p: Params, s: State, g: nat, reply: Reply)
    requires g < |s.runners|
  {
    var s' := StepRunner(p, s, g, reply);
    g < |s'.runners| && Announced(s', g)
  }

  lemma StartAnnounced(p: Params, s: State, g: nat, phase: StartPhase, reply: Reply)
    requires g < |s.runners| && Announced(s, g) && s.runners[g].pc == Starting(phase)
    ensures TurnOk(p, s, g, reply)
  {
  }

  lemma BoundAnnounced(p: Params, s: State, g: nat, sid: string, staged: bool, reply: Reply)
    requires g < |s.runners| && Announced(s, g) && s.runners[g].pc == Bound(sid, staged)
    ensures TurnOk(p, s, g, reply)
  {
  }

  lemma AppendAnnounced(p: Params, s: State, g: nat, sid: string, i: nat, phase: AppendPhase, reply: Reply)
    requires g < |s.runners| && Announced(s, g) && s.runners[g].pc == Appending(sid, i, phase)
    ensures TurnOk(p, s, g, reply)
  {
  }

  lemma FinalizeAnnounced(p: Params, s: State, g: nat, sid: string, phase: FinalizePhase, reply: Reply)
    requires g < |s.runners| && Announced(s, g) && s.runners[g].pc == Finalizing(sid, phase)
    ensures TurnOk(p, s, g, reply)
  {
  }

  lemma ActivateAnnounced(p: Params, s: State, g: nat, sid: string, zone: string, phase: ActivatePhase, reply: Reply)
    requires g < |s.runners| && Announced(s, g) && s.runners[g].pc == Activating(sid, zone, phase)
    ensures TurnOk(p, s, g, reply)
  {
  }

  lemma TurnAnnounced(p: Params, s: State, g: nat, reply: Reply)
    requires g < |s.runners| && Announced(s, g)
    ensures TurnOk(p, s, g, reply)
  {
    match s.runners[g].pc
    case Starting(phase) => StartAnnounced(p, s, g, phase, reply);
    case Bound(sid, staged) => BoundAnnounced(p, s, g, sid, staged, reply);
    case Appending(sid, i, phase) => AppendAnnounced(p, s, g, sid, i, phase, reply);
    case Finalizing(sid, phase) => FinalizeAnnounced(p, s, g, sid, phase, reply);
    case Activating(sid, zone, phase) => ActivateAnnounced(p, s, g, sid, zone, phase, reply);
    case Stopped =>
  }

  // ---------------------------------------------------------------- every event

  /** Somebody else's step leaves the stage of a valid owner alone. */
  lemma StageUntouched(p: Params, s: State, e: Event, g: nat)
    requires p.lim.maxCount > 0 && Inv(p, s) && Valid(s, g) && Valid(Apply(p, s, e), g) && !(e.Advance? && e.g == g)
    ensures Apply(p, s, e).rows.job.stage == s.rows.job.stage
  {
    if ActorOf(e).Some? && ActorOf(e).value != g {
      var h := ActorOf(e).value;
      if Valid(s, h) {
        OneValidToken(p, s, g, h);
      }
      InvalidTokenIsInert(p, s, e);
    }
  }

  lemma ApplyStageShown(p: Params, s: State, e: Event)
    requires p.lim.maxCount > 0 && Inv(p, s) && StageShown(s)
    ensures StageShown(Apply(p, s, e))
  {
    var s' := Apply(p, s, e);
    forall g: nat | g < |s'.runners| && Valid(s', g) ensures Announced(s', g) {
      if g >= |s.runners| {
        NewRunner(p, s, e, g);
      } else {
        if !Valid(s, g) {
          InvalidStep(p, s, e, g);
        }
        ValidAnnounced(p, s, e, g);
      }
    }
  }

  lemma ValidAnnounced(p: Params, s: State, e: Event, g: nat)
    requires p.lim.maxCount > 0 && Inv(p, s) && Valid(s, g) && Announced(s, g) && Valid(Apply(p, s, e), g)
    ensures Announced(Apply(p, s, e), g)
  {
    if e.Advance? && e.g == g {
      TurnAnnounced(p, s, g, e.reply);
    } else {
      BystanderKeepsRunner(p, s, e, g);
      StageUntouched(p, s, e, g);
    }
  }

  /** In every run the stage of an owned job names the phase its owner is in. */
  lemma {:induction false} StageNamesPhase(p: Params, maxAttempts: nat, now: C.Time, events: seq<Event>)
    requires p.lim.maxCount > 0
    ensures StageShown(Run(p, Init(maxAttempts, now), events))
  {
    if events != [] {
      var init := events[..|events| - 1];
      StageNamesPhase(p, maxAttempts, now, init);
      InitInv(p, maxAttempts, now);
      RunKeepsInv(p, Init(maxAttempts, now), init);
      ApplyStageShown(p, Run(p, Init(maxAttempts, now), init), events[|events| - 1]);
    }
  }
}
