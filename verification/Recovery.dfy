/** Whatever happened to a job before, as long as it can be claimed a worker that reconstructs
    the same document can still complete it. */
module Recovery {
  import opened Base
  import opened Protocol
  import opened ProtocolSafety
  import opened ProtocolTheorems
  import opened ProtocolReplay
  import opened CallWindow
  import B = Batching
  import C = Coordinator
  import D = Delivery
  import P = Policy

  // ---------------------------------------------------------------- one document, one contract

  ghost predicate IsOr(x: Option<string>, v: string) {
    x.None? || x.value == v
  }

  /** All workers carry the fingerprint `mark`, and the durable fingerprint and final hash, once
      written, are those of this document. */
  ghost predicate OneContract(load: Payload, mark: string, s: State) {
    && (forall g :: 0 <= g < |s.runners| ==> s.runners[g].load.compatibility == mark)
    && IsOr(D.Ensured(s.delivery).compatibility, mark)
    && IsOr(D.Ensured(s.delivery).finalHash, load.finalHash)
  }

  /** What a step of runner `r` may write into the two columns. */
  ghost predicate WritesOwn(d: D.Rows, e: D.Rows, r: Runner) {
    var c, k := D.Ensured(d), D.Ensured(e);
    && (k.compatibility == c.compatibility || k.compatibility == Some(r.load.compatibility))
    && (k.finalHash == c.finalHash || k.finalHash == Some(r.load.finalHash))
  }

  lemma StartWrites(p: Params, s: State, g: nat, phase: StartPhase, reply: Reply)
    requires g < |s.runners|
    ensures WritesOwn(s.delivery, StepStart(p, s, g, phase, reply).delivery, s.runners[g])
  {
  }

  lemma AppendWrites(p: Params, s: State, g: nat, sid: string, i: nat, phase: AppendPhase, reply: Reply)
    requires g < |s.runners| && i < |s.runners[g].load.plan|
    ensures WritesOwn(s.delivery, StepAppend(p, s, g, sid, i, phase, reply).delivery, s.runners[g])
  {
  }

  lemma FinalizeWrites(p: Params, s: State, g: nat, sid: string, phase: FinalizePhase, reply: Reply)
    requires g < |s.runners|
    ensures WritesOwn(s.delivery, StepFinalize(p, s, g, sid, phase, reply).delivery, s.runners[g])
  {
  }

  lemma ActivateWrites(s: State, g: nat, sid: string, zone: string, phase: ActivatePhase, reply: Reply)
    requires g < |s.runners|
    ensures WritesOwn(s.delivery, StepActivate(s, g, sid, zone, phase, reply).delivery, s.runners[g])
  {
  }

  lemma TurnWrites(p: Params, s: State, g: nat, reply: Reply)
    requires g < |s.runners|
    ensures WritesOwn(s.delivery, StepRunner(p, s, g, reply).delivery, s.runners[g])
  {
    match s.runners[g].pc
    case Starting(phase) => StartWrites(p, s, g, phase, reply);
    case Bound(sid, staged) =>
    case Appending(sid, i, phase) =>
      if i < |s.runners[g].load.plan| { AppendWrites(p, s, g, sid, i, phase, reply); }
    case Finalizing(sid, phase) => FinalizeWrites(p, s, g, sid, phase, reply);
    case Activating(sid, zone, phase) => ActivateWrites(s, g, sid, zone, phase, reply);
    case Stopped =>
  }

  lemma TurnOneContract(p: Params, load: Payload, mark: string, s: State, g: nat, reply: Reply)
    requires Inv(p, s) && OneDocument(load, s) && OneContract(load, mark, s) && g < |s.runners|
    ensures OneContract(load, mark, StepRunner(p, s, g, reply))
  {
    TurnWrites(p, s, g, reply);
    RunnerGood(p, s, g, reply);
    assert s.runners[g].load.(compatibility := "") == load;
  }

  lemma ApplyOneContract(p: Params, load: Payload, mark: string, s: State, e: Event)
    requires Inv(p, s) && OneDocument(load, s) && OneContract(load, mark, s)
    requires e.Claim? ==> e.compatibility == mark
    ensures OneContract(load, mark, Apply(p, s, e))
  {
    if e.Advance? && e.g < |s.runners| {
      TurnOneContract(p, load, mark, s, e.g, e.reply);
    }
  }

  ghost predicate ClaimsMarked(events: seq<Event>, mark: string) {
    forall k :: 0 <= k < |events| && events[k].Claim? ==> events[k].compatibility == mark
  }

  lemma {:induction false} RunOneContract(p: Params, s: State, events: seq<Event>, doc: seq<B.LogicalBlock>,
                                          mark: string)
    requires p.lim.maxCount > 0 && Inv(p, s) && OneDocument(PayloadFor(p, doc, ""), s)
    requires OneContract(PayloadFor(p, doc, ""), mark, s) && ClaimsCarry(events, doc) && ClaimsMarked(events, mark)
    ensures OneContract(PayloadFor(p, doc, ""), mark, Run(p, s, events))
  {
    if events != [] {
      var n := |events| - 1;
      CarryInit(events, doc);
      RunOneDocumentFrom(p, s, events[..n], doc);
      RunOneContract(p, s, events[..n], doc, mark);
      ApplyOneContract(p, PayloadFor(p, doc, ""), mark, Run(p, s, events[..n]), events[n]);
    }
  }

  // ---------------------------------------------------------------- a worker with room to work

  /** Runner `g` holds the lease with an open window, in a job of one document. */
  ghost predicate Fit(p: Params, load: Payload, mark: string, s: State, g: nat) {
    && Inv(p, s) && OneDocument(load, s) && OneContract(load, mark, s) && load.plannable
    && g < |s.runners| && WindowOpen(p, s, s.runners[g])
  }

  lemma TurnFit(p: Params, load: Payload, mark: string, s: State, g: nat, reply: Reply)
    requires Fit(p, load, mark, s, g) && !IsCompleting(s.runners[g].pc)
    ensures Fit(p, load, mark, StepRunner(p, s, g, reply), g)
  {
    RunnerGood(p, s, g, reply);
    GoodStepInv(p, s, g, StepRunner(p, s, g, reply));
    TurnOneDocument(p, load, s, g, reply);
    TurnOneContract(p, load, mark, s, g, reply);
    TurnKeepsWindow(p, s, g, reply);
  }

  lemma TurnKeepsWindow(p: Params, s: State, g: nat, reply: Reply)
    requires Inv(p, s) && g < |s.runners| && WindowOpen(p, s, s.runners[g]) && !IsCompleting(s.runners[g].pc)
    ensures var s' := StepRunner(p, s, g, reply); g < |s'.runners| && WindowOpen(p, s', s'.runners[g])
  {
    RunnerGood(p, s, g, reply);
  }

  /** A schedule of runner `g` so far, with where it stands now. */
  ghost predicate Stands(p: Params, load: Payload, mark: string, s: State, events: seq<Event>, g: nat, pc: Pc) {
    && NoClaims(events) && Fit(p, load, mark, Run(p, s, events), g) && Run(p, s, events).runners[g].pc == pc
  }

  /** Where a turn of `g` from a fit state leads. */
  ghost predicate Leads(p: Params, s: State, g: nat, reply: Reply, pc: Pc)
    requires g < |s.runners|
  {
    var s' := StepRunner(p, s, g, reply); g < |s'.runners| && s'.runners[g].pc == pc
  }

  lemma TakeStep(p: Params, load: Payload, mark: string, s: State, events: seq<Event>, g: nat, from: Pc, reply: Reply,
                 to: Pc)
    returns (more: seq<Event>)
    requires Stands(p, load, mark, s, events, g, from) && !IsCompleting(from)
    requires Leads(p, Run(p, s, events), g, reply, to)
    ensures more == events + [Advance(g, reply)] && Stands(p, load, mark, s, more, g, to)
    ensures Run(p, s, more) == StepRunner(p, Run(p, s, events), g, reply)
  {
    more := events + [Advance(g, reply)];
    RunTurn(p, s, events, g, reply);
    TurnFit(p, load, mark, Run(p, s, events), g, reply);
  }

  lemma RunTurn(p: Params, s: State, events: seq<Event>, g: nat, reply: Reply)
    requires NoClaims(events) && g < |Run(p, s, events).runners|
    ensures NoClaims(events + [Advance(g, reply)])
    ensures Run(p, s, events + [Advance(g, reply)]) == StepRunner(p, Run(p, s, events), g, reply)
  {
    var more := events + [Advance(g, reply)];
    assert more[..|more| - 1] == events;
    ApplyTurn(p, Run(p, s, events), g, reply);
  }

  lemma ApplyTurn(p: Params, s: State, g: nat, reply: Reply)
    requires g < |s.runners|
    ensures Apply(p, s, Advance(g, reply)) == StepRunner(p, s, g, reply)
  {
  }

  // ---------------------------------------------------------------- up to the Append loop

  lemma LoadLeads(p: Params, load: Payload, mark: string, s: State, g: nat)
    requires Fit(p, load, mark, s, g) && s.runners[g].pc == Starting(LoadJob)
    ensures Leads(p, s, g, YES, Starting(SaveCompat))
  {
  }

  lemma CompatLeads(p: Params, load: Payload, mark: string, s: State, g: nat)
    requires Fit(p, load, mark, s, g) && s.runners[g].pc == Starting(SaveCompat)
    ensures Leads(p, s, g, YES, Starting(FindSession))
  {
    assert s.runners[g].load.compatibility == mark;
  }

  lemma FindLeads(p: Params, load: Payload, mark: string, s: State, g: nat)
    requires Fit(p, load, mark, s, g) && s.runners[g].pc == Starting(FindSession)
    ensures var sid := D.Ensured(s.delivery).sessionId;
            && Leads(p, s, g, YES, if sid.Some? then Bound(sid.value, false) else Starting(StageStart))
            && StepRunner(p, s, g, YES).delivery == s.delivery
  {
  }

  lemma StageStartLeads(p: Params, load: Payload, mark: string, s: State, g: nat)
    requires Fit(p, load, mark, s, g) && s.runners[g].pc == Starting(StageStart)
    ensures Leads(p, s, g, YES, Starting(CheckStart)) && StepRunner(p, s, g, YES).delivery == s.delivery
  {
  }

  lemma CheckStartLeads(p: Params, load: Payload, mark: string, s: State, g: nat)
    requires Fit(p, load, mark, s, g) && s.runners[g].pc == Starting(CheckStart)
    ensures Leads(p, s, g, YES, Starting(CallStart)) && StepRunner(p, s, g, YES).delivery == s.delivery
  {
  }

  /** The session the remote answers Start with. */
  function SessionFor(s: State): string {
    if s.started.Some? then s.started.value else ""
  }

  lemma CallStartLeads(p: Params, load: Payload, mark: string, s: State, g: nat)
    requires Fit(p, load, mark, s, g) && s.runners[g].pc == Starting(CallStart)
    ensures Leads(p, s, g, YES, Starting(BindStarted(SessionFor(s))))
    ensures StepRunner(p, s, g, YES).delivery == s.delivery
  {
  }

  lemma BindLeads(p: Params, load: Payload, mark: string, s: State, g: nat, sid: string)
    requires Fit(p, load, mark, s, g) && s.runners[g].pc == Starting(BindStarted(sid))
    requires D.Ensured(s.delivery).sessionId.None?
    ensures Leads(p, s, g, YES, Bound(sid, false))
  {
  }

  lemma StartSession(p: Params, load: Payload, mark: string, s: State, events: seq<Event>, g: nat)
    returns (more: seq<Event>, sid: string)
    requires Stands(p, load, mark, s, events, g, Starting(StageStart))
    requires D.Ensured(Run(p, s, events).delivery).sessionId.None?
    ensures Stands(p, load, mark, s, more, g, Bound(sid, false))
  {
    StageStartLeads(p, load, mark, Run(p, s, events), g);
    more := TakeStep(p, load, mark, s, events, g, Starting(StageStart), YES, Starting(CheckStart));
    CheckStartLeads(p, load, mark, Run(p, s, more), g);
    more := TakeStep(p, load, mark, s, more, g, Starting(CheckStart), YES, Starting(CallStart));
    CallStartLeads(p, load, mark, Run(p, s, more), g);
    sid := SessionFor(Run(p, s, more));
    more := TakeStep(p, load, mark, s, more, g, Starting(CallStart), YES, Starting(BindStarted(sid)));
    BindLeads(p, load, mark, Run(p, s, more), g, sid);
    more := TakeStep(p, load, mark, s, more, g, Starting(BindStarted(sid)), YES, Bound(sid, false));
  }

  lemma FindOrStart(p: Params, load: Payload, mark: string, s: State, events: seq<Event>, g: nat)
    returns (more: seq<Event>, sid: string)
    requires Stands(p, load, mark, s, events, g, Starting(LoadJob))
    ensures Stands(p, load, mark, s, more, g, Bound(sid, false))
  {
    LoadLeads(p, load, mark, Run(p, s, events), g);
    more := TakeStep(p, load, mark, s, events, g, Starting(LoadJob), YES, Starting(SaveCompat));
    CompatLeads(p, load, mark, Run(p, s, more), g);
    more := TakeStep(p, load, mark, s, more, g, Starting(SaveCompat), YES, Starting(FindSession));
    FindLeads(p, load, mark, Run(p, s, more), g);
    var bound := D.Ensured(Run(p, s, more).delivery).sessionId;
    if bound.Some? {
      sid := bound.value;
      more := TakeStep(p, load, mark, s, more, g, Starting(FindSession), YES, Bound(sid, false));
    } else {
      more := TakeStep(p, load, mark, s, more, g, Starting(FindSession), YES, Starting(StageStart));
      more, sid := StartSession(p, load, mark, s, more, g);
    }
  }

  lemma StageAppendLeads(p: Params, load: Payload, mark: string, s: State, g: nat, sid: string)
    requires Fit(p, load, mark, s, g) && s.runners[g].pc == Bound(sid, false)
    ensures Leads(p, s, g, YES, Bound(sid, true))
  {
    assert s.runners[g].load.(compatibility := "") == load;
  }

  // ---------------------------------------------------------------- through the Append loop

  lemma {:induction false} NoClaimsKeep(p: Params, load: Payload, mark: string, s: State, events: seq<Event>)
    requires p.lim.maxCount > 0 && Inv(p, s) && OneDocument(load, s) && OneContract(load, mark, s) && NoClaims(events)
    ensures var t := Run(p, s, events); Inv(p, t) && OneDocument(load, t) && OneContract(load, mark, t)
  {
    if events != [] {
      var n := |events| - 1;
      NoClaimsKeep(p, load, mark, s, events[..n]);
      NoClaimKeeps(p, load, mark, Run(p, s, events[..n]), events[n]);
    }
  }

  lemma NoClaimKeeps(p: Params, load: Payload, mark: string, s: State, e: Event)
    requires p.lim.maxCount > 0 && Inv(p, s) && OneDocument(load, s) && OneContract(load, mark, s) && !e.Claim?
    ensures var t := Apply(p, s, e); Inv(p, t) && OneDocument(load, t) && OneContract(load, mark, t)
  {
    ApplyInv(p, s, e);
    ApplyOneContract(p, load, mark, s, e);
    NoClaimKeepsDocument(p, load, s, e);
  }

  lemma NoClaimKeepsDocument(p: Params, load: Payload, s: State, e: Event)
    requires Inv(p, s) && OneDocument(load, s) && !e.Claim?
    ensures OneDocument(load, Apply(p, s, e))
  {
    if e.Advance? && e.g < |s.runners| {
      TurnOneDocument(p, load, s, e.g, e.reply);
    }
  }

  lemma ThroughLoop(p: Params, load: Payload, mark: string, s: State, events: seq<Event>, g: nat, sid: string)
    returns (more: seq<Event>, done: Pc)
    requires p.lim.maxCount > 0 && Stands(p, load, mark, s, events, g, Bound(sid, true))
    ensures LoopDone(done) && Stands(p, load, mark, s, more, g, done)
  {
    var t := Run(p, s, events);
    var loop := ReplayPossible(p, load, t, g);
    more := events + loop;
    RunConcat(p, s, events, loop);
    NoClaimsKeep(p, load, mark, t, loop);
    done := Run(p, s, more).runners[g].pc;
  }

  // ---------------------------------------------------------------- to completion

  /** A status that is searchable under either policy. */
  const FOUND := P.VectorStatus(P.ActiveState, true, true, true, 0, 0, 0, 0, 0, 0, 0, 0, 0, 0, 0)

  /** The zone that the remote answers Finalize with: the durable one, if there is one. */
  function ZoneFor(s: State): string {
    var zone := D.Ensured(s.delivery).zone;
    if zone.Some? then zone.value else ""
  }

  function Finalized(zone: string): Reply {
    Reply(true, "", Some(zone), FOUND)
  }

  lemma HashLeads(p: Params, load: Payload, mark: string, s: State, g: nat, sid: string)
    requires Fit(p, load, mark, s, g) && s.runners[g].pc == Finalizing(sid, SaveHash)
    ensures Leads(p, s, g, YES, Finalizing(sid, StageFinalize))
  {
    assert RunnerInv(p, s, s.runners[g]);
    assert s.runners[g].load.(compatibility := "") == load;
  }

  lemma StageFinalizeLeads(p: Params, load: Payload, mark: string, s: State, g: nat, sid: string)
    requires Fit(p, load, mark, s, g) && s.runners[g].pc == Finalizing(sid, StageFinalize)
    ensures Leads(p, s, g, YES, Finalizing(sid, CheckFinalize))
  {
  }

  lemma CheckFinalizeLeads(p: Params, load: Payload, mark: string, s: State, g: nat, sid: string)
    requires Fit(p, load, mark, s, g) && s.runners[g].pc == Finalizing(sid, CheckFinalize)
    ensures Leads(p, s, g, YES, Finalizing(sid, CallFinalize))
  {
  }

  lemma CallFinalizeLeads(p: Params, load: Payload, mark: string, s: State, g: nat, sid: string, zone: string)
    requires Fit(p, load, mark, s, g) && s.runners[g].pc == Finalizing(sid, CallFinalize)
    ensures Leads(p, s, g, Finalized(zone), Finalizing(sid, SaveZone(zone, FOUND)))
    ensures StepRunner(p, s, g, Finalized(zone)).delivery == s.delivery
  {
  }

  lemma ZoneLeads(p: Params, load: Payload, mark: string, s: State, g: nat, sid: string)
    requires Fit(p, load, mark, s, g) && s.runners[g].pc == Finalizing(sid, SaveZone(ZoneFor(s), FOUND))
    ensures Leads(p, s, g, YES, Activating(sid, ZoneFor(s), StageReadiness(FOUND)))
  {
    assert RunnerInv(p, s, s.runners[g]);
  }

  lemma StagesLead(p: Params, load: Payload, mark: string, s: State, g: nat, sid: string, zone: string)
    requires Fit(p, load, mark, s, g)
    ensures s.runners[g].pc == Activating(sid, zone, StageReadiness(FOUND)) ==>
              Leads(p, s, g, YES, Activating(sid, zone, StageActivate(FOUND)))
    ensures s.runners[g].pc == Activating(sid, zone, StageActivate(FOUND)) ==>
              Leads(p, s, g, YES, Activating(sid, zone, WaitReady(Some(FOUND))))
  {
  }

  lemma ReadyLeads(p: Params, load: Payload, mark: string, s: State, g: nat, sid: string, zone: string)
    requires Fit(p, load, mark, s, g) && s.runners[g].pc == Activating(sid, zone, WaitReady(Some(FOUND)))
    ensures Leads(p, s, g, YES, Activating(sid, zone, Completing(FOUND)))
  {
    assert RunnerInv(p, s, s.runners[g]);
  }

  lemma CompletingCompletes(p: Params, load: Payload, mark: string, s: State, g: nat, sid: string, zone: string)
    requires Fit(p, load, mark, s, g) && s.runners[g].pc == Activating(sid, zone, Completing(FOUND))
    ensures StepRunner(p, s, g, YES).rows.job.status == C.Completed
  {
    C.FinishLifecycle(s.rows, s.runners[g].token, s.now, C.Completed, "COMPLETED");
  }

  lemma SaveAndCheck(p: Params, load: Payload, mark: string, s: State, events: seq<Event>, g: nat, sid: string)
    returns (more: seq<Event>)
    requires Stands(p, load, mark, s, events, g, Finalizing(sid, SaveHash))
    ensures Stands(p, load, mark, s, more, g, Finalizing(sid, CheckFinalize))
  {
    HashLeads(p, load, mark, Run(p, s, events), g, sid);
    more := TakeStep(p, load, mark, s, events, g, Finalizing(sid, SaveHash), YES, Finalizing(sid, StageFinalize));
    StageFinalizeLeads(p, load, mark, Run(p, s, more), g, sid);
    more := TakeStep(p, load, mark, s, more, g, Finalizing(sid, StageFinalize), YES, Finalizing(sid, CheckFinalize));
  }

  lemma CallAndSave(p: Params, load: Payload, mark: string, s: State, events: seq<Event>, g: nat, sid: string)
    returns (more: seq<Event>, zone: string)
    requires Stands(p, load, mark, s, events, g, Finalizing(sid, CallFinalize))
    ensures Stands(p, load, mark, s, more, g, Activating(sid, zone, StageReadiness(FOUND)))
  {
    zone := ZoneFor(Run(p, s, events));
    CallFinalizeLeads(p, load, mark, Run(p, s, events), g, sid, zone);
    more := TakeStep(p, load, mark, s, events, g, Finalizing(sid, CallFinalize), Finalized(zone),
                     Finalizing(sid, SaveZone(zone, FOUND)));
    ZoneLeads(p, load, mark, Run(p, s, more), g, sid);
    more := TakeStep(p, load, mark, s, more, g, Finalizing(sid, SaveZone(zone, FOUND)), YES,
                     Activating(sid, zone, StageReadiness(FOUND)));
  }

  lemma Finalize(p: Params, load: Payload, mark: string, s: State, events: seq<Event>, g: nat, sid: string)
    returns (more: seq<Event>, zone: string)
    requires Stands(p, load, mark, s, events, g, Finalizing(sid, SaveHash))
    ensures Stands(p, load, mark, s, more, g, Activating(sid, zone, StageReadiness(FOUND)))
  {
    more := SaveAndCheck(p, load, mark, s, events, g, sid);
    CheckFinalizeLeads(p, load, mark, Run(p, s, more), g, sid);
    more := TakeStep(p, load, mark, s, more, g, Finalizing(sid, CheckFinalize), YES, Finalizing(sid, CallFinalize));
    more, zone := CallAndSave(p, load, mark, s, more, g, sid);
  }

  lemma Activate(p: Params, load: Payload, mark: string, s: State, events: seq<Event>, g: nat, sid: string,
                 zone: string)
    returns (more: seq<Event>)
    requires Stands(p, load, mark, s, events, g, Activating(sid, zone, StageReadiness(FOUND)))
    ensures Stands(p, load, mark, s, more, g, Activating(sid, zone, WaitReady(Some(FOUND))))
  {
    StagesLead(p, load, mark, Run(p, s, events), g, sid, zone);
    more := TakeStep(p, load, mark, s, events, g, Activating(sid, zone, StageReadiness(FOUND)), YES,
                     Activating(sid, zone, StageActivate(FOUND)));
    StagesLead(p, load, mark, Run(p, s, more), g, sid, zone);
    more := TakeStep(p, load, mark, s, more, g, Activating(sid, zone, StageActivate(FOUND)), YES,
                     Activating(sid, zone, WaitReady(Some(FOUND))));
  }

  lemma WaitAndComplete(p: Params, load: Payload, mark: string, s: State, events: seq<Event>, g: nat, sid: string,
                        zone: string)
    returns (more: seq<Event>)
    requires Stands(p, load, mark, s, events, g, Activating(sid, zone, WaitReady(Some(FOUND))))
    ensures NoClaims(more) && Run(p, s, more).rows.job.status == C.Completed
  {
    ReadyLeads(p, load, mark, Run(p, s, events), g, sid, zone);
    more := TakeStep(p, load, mark, s, events, g, Activating(sid, zone, WaitReady(Some(FOUND))), YES,
                     Activating(sid, zone, Completing(FOUND)));
    more := LastStep(p, load, mark, s, more, g, sid, zone);
  }

  lemma LastStep(p: Params, load: Payload, mark: string, s: State, events: seq<Event>, g: nat, sid: string,
                 zone: string)
    returns (more: seq<Event>)
    requires Stands(p, load, mark, s, events, g, Activating(sid, zone, Completing(FOUND)))
    ensures NoClaims(more) && Run(p, s, more).rows.job.status == C.Completed
  {
    CompletingCompletes(p, load, mark, Run(p, s, events), g, sid, zone);
    more := events + [Advance(g, YES)];
    assert more[..|more| - 1] == events;
  }

  /** A fit worker at its start can complete the job. */
  lemma FitCompletes(p: Params, load: Payload, mark: string, s: State, g: nat) returns (events: seq<Event>)
    requires p.lim.maxCount > 0 && Fit(p, load, mark, s, g) && s.runners[g].pc == Starting(LoadJob)
    ensures NoClaims(events) && Run(p, s, events).rows.job.status == C.Completed
  {
    var sid, done, zone;
    assert Stands(p, load, mark, s, [], g, Starting(LoadJob));
    events, sid := FindOrStart(p, load, mark, s, [], g);
    StageAppendLeads(p, load, mark, Run(p, s, events), g, sid);
    events := TakeStep(p, load, mark, s, events, g, Bound(sid, false), YES, Bound(sid, true));
    events, done := ThroughLoop(p, load, mark, s, events, g, sid);
    events, zone := Finalize(p, load, mark, s, events, g, done.sid);
    events := Activate(p, load, mark, s, events, g, done.sid, zone);
    events := WaitAndComplete(p, load, mark, s, events, g, done.sid, zone);
  }

  lemma ClaimIsFit(p: Params, load: Payload, mark: string, s: State, worker: string, leaseSeconds: nat,
                   attemptId: string, doc: seq<B.LogicalBlock>)
    requires p.lim.maxCount > 0 && Inv(p, s) && OneDocument(load, s) && OneContract(load, mark, s) && load.plannable
    requires load == PayloadFor(p, doc, "") && C.Claimable(s.rows.job, s.now)
    requires leaseSeconds > 0 && leaseSeconds >= p.deadline + p.margin
    ensures var s' := Apply(p, s, Claim(worker, leaseSeconds, attemptId, doc, mark));
            var g := |s.runners|;
            Fit(p, load, mark, s', g) && s'.runners[g].pc == Starting(LoadJob)
  {
    var e := Claim(worker, leaseSeconds, attemptId, doc, mark);
    ApplyInv(p, s, e);
    ApplyOneDocument(p, s, e, doc);
    ApplyOneContract(p, load, mark, s, e);
  }

  /** Recovery: after every run in which all workers reconstructed one document under one
      contract, whatever they left half done, if the job can be claimed then a claim with a
      lease long enough for one call can be carried through to COMPLETED without another
      claim, and the remote then holds the whole document. */
  lemma RecoveryPossible(p: Params, maxAttempts: nat, now: C.Time, before: seq<Event>, doc: seq<B.LogicalBlock>,
                         mark: string, worker: string, leaseSeconds: nat, attemptId: string)
    returns (after: seq<Event>)
    requires p.lim.maxCount > 0 && ClaimsCarry(before, doc) && ClaimsMarked(before, mark)
    requires PayloadFor(p, doc, "").plannable && leaseSeconds > 0 && leaseSeconds >= p.deadline + p.margin
    requires var s := Run(p, Init(maxAttempts, now), before); C.Claimable(s.rows.job, s.now)
    ensures NoClaims(after)
    ensures var e := Claim(worker, leaseSeconds, attemptId, doc, mark);
            var s' := Run(p, Init(maxAttempts, now), before + [e] + after);
            && s'.rows.job.status == C.Completed
            && (Injective(p.wire.hash) ==> HoldsExactly(s', PayloadFor(p, doc, "").plan))
  {
    var s0, load := Init(maxAttempts, now), PayloadFor(p, doc, "");
    var e := Claim(worker, leaseSeconds, attemptId, doc, mark);
    InitInv(p, maxAttempts, now);
    RunOneDocument(p, maxAttempts, now, before, doc);
    RunOneContract(p, s0, before, doc, mark);
    var s := Run(p, s0, before);
    ClaimIsFit(p, load, mark, s, worker, leaseSeconds, attemptId, doc);
    after := FitCompletes(p, load, mark, Apply(p, s, e), |s.runners|);
    assert (before + [e])[..|before|] == before;
    RunConcat(p, s0, before + [e], after);
    CarryMore(before, e, after, doc);
    if Injective(p.wire.hash) {
      CompletedHoldsDocument(p, maxAttempts, now, before + [e] + after, doc);
    }
  }

  lemma CarryMore(before: seq<Event>, e: Event, after: seq<Event>, doc: seq<B.LogicalBlock>)
    requires ClaimsCarry(before, doc) && e.Claim? && e.blocks == doc && NoClaims(after)
    ensures ClaimsCarry(before + [e] + after, doc)
  {
  }
}
