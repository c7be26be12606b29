/** No mutating call leaves a worker before its window check, and what the check buys. */
module CallWindow {
  import opened Base
  import opened Protocol
  import opened ProtocolSafety
  import opened ProtocolTheorems
  import opened ProtocolReplay
  import C = Coordinator

  // ---------------------------------------------------------------- one step

  /** The window is open exactly when the token, without any renewal, would still own the row
      at every moment until deadline and margin have passed. */
  lemma WindowMeans(p: Params, s: State, r: Runner)
    ensures WindowOpen(p, s, r) <==> forall d: nat :: d <= p.deadline + p.margin ==> OwnedLater(s, r, d)
  {
    assert OwnedLater(s, r, 0) <==> Owned(s, r);
    assert OwnedLater(s, r, p.deadline + p.margin) ==> WindowOpen(p, s, r);
  }

  predicate OwnedLater(s: State, r: Runner, d: nat) {
    Owned(s.(now := s.now + d), r)
  }

  /** The next thing a runner here does is a mutating call: Start, Append or Finalize. */
  predicate AtCall(pc: Pc) {
    || (pc.Starting? && pc.start.CallStart?)
    || (pc.Appending? && pc.append.Send?)
    || (pc.Finalizing? && pc.finalize.CallFinalize?)
  }

  predicate CallAhead(s: State, g: nat) {
    g < |s.runners| && AtCall(s.runners[g].pc)
  }

  /** The next thing a runner here does is the activation call or an activation poll. */
  predicate AtActivation(pc: Pc) {
    pc.Activating? && (pc.activate.CallActivate? || pc.activate.PollActive?)
  }

  lemma TurnToCall(p: Params, s: State, g: nat, reply: Reply)
    requires Inv(p, s) && g < |s.runners| && !AtCall(s.runners[g].pc)
    ensures CallAhead(StepRunner(p, s, g, reply), g) ==>
              WindowOpen(p, s, s.runners[g]) && WindowOpen(p, StepRunner(p, s, g, reply), s.runners[g])
  {
    assert RunnerInv(p, s, s.runners[g]);
    match s.runners[g].pc
    case Starting(phase) => StartToCall(p, s, g, phase, reply);
    case Bound(sid, staged) =>
    case Appending(sid, i, phase) => AppendToCall(p, s, g, sid, i, phase, reply);
    case Finalizing(sid, phase) => FinalizeToCall(p, s, g, sid, phase, reply);
    case Activating(sid, zone, phase) => ActivateToCall(s, g, sid, zone, phase, reply);
    case Stopped =>
  }

  lemma StartToCall(p: Params, s: State, g: nat, phase: StartPhase, reply: Reply)
    requires g < |s.runners| && phase != CallStart
    ensures var s' := StepStart(p, s, g, phase, reply);
            CallAhead(s', g) ==> WindowOpen(p, s, s.runners[g]) && WindowOpen(p, s', s.runners[g])
  {
  }

  lemma AppendToCall(p: Params, s: State, g: nat, sid: string, i: nat, phase: AppendPhase, reply: Reply)
    requires g < |s.runners| && i < |s.runners[g].load.plan| && phase != Send
    ensures var s' := StepAppend(p, s, g, sid, i, phase, reply);
            CallAhead(s', g) ==> WindowOpen(p, s, s.runners[g]) && WindowOpen(p, s', s.runners[g])
  {
  }

  lemma FinalizeToCall(p: Params, s: State, g: nat, sid: string, phase: FinalizePhase, reply: Reply)
    requires g < |s.runners| && phase != CallFinalize
    ensures var s' := StepFinalize(p, s, g, sid, phase, reply);
            CallAhead(s', g) ==> WindowOpen(p, s, s.runners[g]) && WindowOpen(p, s', s.runners[g])
  {
  }

  lemma ActivateToCall(s: State, g: nat, sid: string, zone: string, phase: ActivatePhase, reply: Reply)
    requires g < |s.runners| && s.runners[g].pc == Activating(sid, zone, phase)
    ensures !CallAhead(StepActivate(s, g, sid, zone, phase, reply), g)
  {
  }

  /** Whatever event brings a runner to a mutating call is its own step, taken in a state in
      which its window was open; and the window is open still. */
  lemma CallIsChecked(p: Params, s: State, e: Event, g: nat)
    requires p.lim.maxCount > 0 && Inv(p, s) && !CallAhead(s, g) && CallAhead(Apply(p, s, e), g)
    ensures e.Advance? && e.g == g && g < |s.runners|
    ensures WindowOpen(p, s, s.runners[g]) && WindowOpen(p, Apply(p, s, e), s.runners[g])
  {
    if g >= |s.runners| {
      NewRunner(p, s, e, g);
    } else if e.Advance? && e.g == g {
      TurnToCall(p, s, g, e.reply);
    } else {
      BystanderKeepsRunner(p, s, e, g);
    }
  }

  /** The activation call and every poll behind it start under a valid token. */
  lemma ActivationIsFenced(p: Params, s: State, e: Event, g: nat)
    requires p.lim.maxCount > 0 && Inv(p, s) && g < |s.runners| && !AtActivation(s.runners[g].pc)
    requires g < |Apply(p, s, e).runners| && AtActivation(Apply(p, s, e).runners[g].pc)
    ensures e.Advance? && e.g == g && Valid(s, g)
  {
    if e.Advance? && e.g == g {
      if !Valid(s, g) {
        TurnToActivation(p, s, g, e.reply);
      }
    } else {
      BystanderKeepsRunner(p, s, e, g);
    }
  }

  lemma TurnToActivation(p: Params, s: State, g: nat, reply: Reply)
    requires g < |s.runners| && !Owned(s, s.runners[g]) && !AtActivation(s.runners[g].pc)
    ensures var s' := StepRunner(p, s, g, reply); !AtActivation(s'.runners[g].pc)
  {
    match s.runners[g].pc
    case Starting(phase) => StartNoActivation(p, s, g, phase, reply);
    case Bound(sid, staged) =>
    case Appending(sid, i, phase) =>
    case Finalizing(sid, phase) => FinalizeNoActivation(p, s, g, sid, phase, reply);
    case Activating(sid, zone, phase) => UnfencedTurn(s, g, sid, zone, phase, reply);
    case Stopped =>
  }

  lemma StartNoActivation(p: Params, s: State, g: nat, phase: StartPhase, reply: Reply)
    requires g < |s.runners|
    ensures !AtActivation(StepStart(p, s, g, phase, reply).runners[g].pc)
  {
  }

  lemma FinalizeNoActivation(p: Params, s: State, g: nat, sid: string, phase: FinalizePhase, reply: Reply)
    requires g < |s.runners|
    ensures !AtActivation(StepFinalize(p, s, g, sid, phase, reply).runners[g].pc)
  {
  }

  lemma UnfencedTurn(s: State, g: nat, sid: string, zone: string, phase: ActivatePhase, reply: Reply)
    requires g < |s.runners| && !Owned(s, s.runners[g]) && !phase.CallActivate? && !phase.PollActive?
    requires s.runners[g].pc == Activating(sid, zone, phase)
    ensures !AtActivation(StepActivate(s, g, sid, zone, phase, reply).runners[g].pc)
  {
  }

  /** Steps that are no fenced transaction: the remote calls, waiting for an acknowledgement,
      the unfenced observations, and the two ends. */
  predicate Unfenced(pc: Pc) {
    || AtCall(pc) || AtActivation(pc) || pc.Stopped?
    || (pc.Appending? && pc.append.AwaitAck?)
    || (pc.Activating? && (pc.activate.WaitReady? || pc.activate.Done?))
  }

  /** At every other step a worker without a valid token stops. */
  lemma StaleTurnStops(p: Params, s: State, g: nat, reply: Reply)
    requires Inv(p, s) && g < |s.runners| && !Owned(s, s.runners[g]) && !Unfenced(s.runners[g].pc)
    ensures StepRunner(p, s, g, reply) == Go(s, g, Stopped)
  {
    assert RunnerInv(p, s, s.runners[g]);
    match s.runners[g].pc
    case Starting(phase) =>
    case Bound(sid, staged) =>
    case Appending(sid, i, phase) => StaleAppendStops(p, s, g, sid, i, phase, reply);
    case Finalizing(sid, phase) => StaleFinalizeStops(p, s, g, sid, phase, reply);
    case Activating(sid, zone, phase) =>
  }

  lemma StaleAppendStops(p: Params, s: State, g: nat, sid: string, i: nat, phase: AppendPhase, reply: Reply)
    requires g < |s.runners| && !Owned(s, s.runners[g]) && i < |s.runners[g].load.plan|
    requires !phase.Send? && !phase.AwaitAck?
    ensures StepAppend(p, s, g, sid, i, phase, reply) == Go(s, g, Stopped)
  {
  }

  lemma StaleFinalizeStops(p: Params, s: State, g: nat, sid: string, phase: FinalizePhase, reply: Reply)
    requires g < |s.runners| && !Owned(s, s.runners[g]) && !phase.CallFinalize?
    ensures StepFinalize(p, s, g, sid, phase, reply) == Go(s, g, Stopped)
  {
  }

  // ---------------------------------------------------------------- what reaches the remote

  /** `m` is the Append that runner `g` is about to send. */
  predicate Sends(s: State, g: nat, m: Message) {
    && CallAhead(s, g) && s.runners[g].pc.Appending? && s.runners[g].pc.i < |s.runners[g].load.plan|
    && m == AppendMessage(s.runners[g], s.runners[g].pc.sid, s.runners[g].pc.i)
  }

  /** Nothing is put on the network, and no session is started, but by a runner at its call. */
  lemma OnlyCallsReach(p: Params, s: State, e: Event)
    requires p.lim.maxCount > 0 && Inv(p, s)
    ensures forall m :: m in Apply(p, s, e).network && m !in s.network ==> e.Advance? && Sends(s, e.g, m)
    ensures Apply(p, s, e).started != s.started ==>
              e.Advance? && CallAhead(s, e.g) && s.runners[e.g].pc.Starting?
  {
    if e.Advance? && e.g < |s.runners| {
      TurnReach(p, s, e.g, e.reply);
    }
  }

  lemma TurnReach(p: Params, s: State, g: nat, reply: Reply)
    requires Inv(p, s) && g < |s.runners|
    ensures var s' := StepRunner(p, s, g, reply);
            && (forall m :: m in s'.network && m !in s.network ==> Sends(s, g, m))
            && (s'.started != s.started ==> CallAhead(s, g) && s.runners[g].pc.Starting?)
  {
    assert RunnerInv(p, s, s.runners[g]);
    match s.runners[g].pc
    case Starting(phase) => QuietStart(p, s, g, phase, reply);
    case Bound(sid, staged) =>
    case Appending(sid, i, phase) => AppendReach(p, s, g, sid, i, phase, reply);
    case Finalizing(sid, phase) => QuietFinalize(p, s, g, sid, phase, reply);
    case Activating(sid, zone, phase) => QuietActivate(s, g, sid, zone, phase, reply);
    case Stopped =>
  }

  lemma QuietStart(p: Params, s: State, g: nat, phase: StartPhase, reply: Reply)
    requires g < |s.runners|
    ensures var s' := StepStart(p, s, g, phase, reply);
            s'.network == s.network && (phase != CallStart ==> s'.started == s.started)
  {
  }

  lemma AppendReach(p: Params, s: State, g: nat, sid: string, i: nat, phase: AppendPhase, reply: Reply)
    requires g < |s.runners| && i < |s.runners[g].load.plan| && s.runners[g].pc == Appending(sid, i, phase)
    ensures var s' := StepAppend(p, s, g, sid, i, phase, reply);
            s'.started == s.started && forall m :: m in s'.network && m !in s.network ==> Sends(s, g, m)
  {
  }

  lemma QuietFinalize(p: Params, s: State, g: nat, sid: string, phase: FinalizePhase, reply: Reply)
    requires g < |s.runners|
    ensures var s' := StepFinalize(p, s, g, sid, phase, reply); s'.network == s.network && s'.started == s.started
  {
  }

  lemma QuietActivate(s: State, g: nat, sid: string, zone: string, phase: ActivatePhase, reply: Reply)
    requires g < |s.runners|
    ensures var s' := StepActivate(s, g, sid, zone, phase, reply); s'.network == s.network && s'.started == s.started
  {
  }

  // ---------------------------------------------------------------- whole runs

  ghost predicate StandsAt(p: Params, s: State, events: seq<Event>, g: nat, pc: Pc, n: nat)
    requires n <= |events|
  {
    var t := Run(p, s, events[..n]);
    g < |t.runners| && t.runners[g].pc == pc
  }

  /** Event `k` was the window check of runner `g`, passed in a state in which the window was
      open, and the runner has stood at the call `pc` since. */
  ghost predicate CheckedAt(p: Params, s: State, events: seq<Event>, g: nat, pc: Pc, k: nat) {
    && k < |events| && events[k].Advance? && events[k].g == g
    && (var t := Run(p, s, events[..k]); g < |t.runners| && WindowOpen(p, t, t.runners[g]))
    && forall n: nat :: k < n <= |events| ==> StandsAt(p, s, events, g, pc, n)
  }

  lemma CheckedNow(p: Params, s: State, events: seq<Event>, g: nat)
    requires p.lim.maxCount > 0 && events != []
    requires var t := Run(p, s, events[..|events| - 1]);
             Inv(p, t) && !CallAhead(t, g) && CallAhead(Run(p, s, events), g)
    ensures CheckedAt(p, s, events, g, Run(p, s, events).runners[g].pc, |events| - 1)
  {
    var n := |events| - 1;
    CallIsChecked(p, Run(p, s, events[..n]), events[n], g);
    assert events[..|events|] == events;
    assert StandsAt(p, s, events, g, Run(p, s, events).runners[g].pc, |events|);
  }

  lemma CheckedLater(p: Params, s: State, events: seq<Event>, g: nat, pc: Pc, k: nat)
    requires events != [] && CheckedAt(p, s, events[..|events| - 1], g, pc, k)
    requires g < |Run(p, s, events).runners| && Run(p, s, events).runners[g].pc == pc
    ensures CheckedAt(p, s, events, g, pc, k)
  {
    var init := events[..|events| - 1];
    assert init[..k] == events[..k];
    forall n: nat | k < n <= |events| ensures StandsAt(p, s, events, g, pc, n) {
      if n < |events| {
        assert StandsAt(p, s, init, g, pc, n);
        assert init[..n] == events[..n];
      } else {
        assert events[..n] == events;
      }
    }
  }

  /** A runner at a call stays there or leaves for good: no step leads from call to call. */
  lemma CallToCall(p: Params, s: State, e: Event, g: nat)
    requires p.lim.maxCount > 0 && Inv(p, s) && CallAhead(s, g) && CallAhead(Apply(p, s, e), g)
    ensures Apply(p, s, e).runners[g].pc == s.runners[g].pc
  {
    if e.Advance? && e.g == g {
      assert RunnerInv(p, s, s.runners[g]);
    } else {
      BystanderKeepsRunner(p, s, e, g);
    }
  }

  /** In every run, behind every runner that is at a mutating call there is a window check
      that it passed, with nothing in between. */
  lemma {:induction false} CallsFollowChecks(p: Params, maxAttempts: nat, now: C.Time, events: seq<Event>, g: nat)
    returns (k: nat)
    requires p.lim.maxCount > 0 && CallAhead(Run(p, Init(maxAttempts, now), events), g)
    ensures CheckedAt(p, Init(maxAttempts, now), events, g, Run(p, Init(maxAttempts, now), events).runners[g].pc, k)
  {
    var s0, n := Init(maxAttempts, now), |events| - 1;
    var init := events[..n];
    InitInv(p, maxAttempts, now);
    RunKeepsInv(p, s0, init);
    if CallAhead(Run(p, s0, init), g) {
      k := CallsFollowChecks(p, maxAttempts, now, init, g);
      CallToCall(p, Run(p, s0, init), events[n], g);
      CheckedLater(p, s0, events, g, Run(p, s0, events).runners[g].pc, k);
    } else {
      CheckedNow(p, s0, events, g);
      k := n;
    }
  }

  lemma {:induction false} RunConcat(p: Params, s: State, a: seq<Event>, b: seq<Event>)
    ensures Run(p, s, a + b) == Run(p, Run(p, s, a), b)
  {
    if b == [] {
      assert a + b == a;
    } else {
      var n := |b| - 1;
      RunConcat(p, s, a, b[..n]);
      assert (a + b)[..|a + b| - 1] == a + b[..n];
    }
  }

  /** From a passed check on, a kept lease covers margin and deadline. */
  lemma OwnerSince(p: Params, maxAttempts: nat, now: C.Time, all: seq<Event>, k: nat, g: nat)
    requires p.lim.maxCount > 0 && k <= |all|
    requires var checked := Run(p, Init(maxAttempts, now), all[..k]);
             && g < |checked.runners| && WindowOpen(p, checked, checked.runners[g])
             && LeaseKept(p, checked, all[k..], g)
             && Run(p, Init(maxAttempts, now), all).now <= checked.now + p.margin + p.deadline
    ensures var checked, after := Run(p, Init(maxAttempts, now), all[..k]), Run(p, Init(maxAttempts, now), all);
            Valid(after, g) && |after.runners| == |checked.runners|
  {
    var s0 := Init(maxAttempts, now);
    InitInv(p, maxAttempts, now);
    RunKeepsInv(p, s0, all[..k]);
    RunConcat(p, s0, all[..k], all[k..]);
    assert all[..k] + all[k..] == all;
    WindowExcludesOthers(p, Run(p, s0, all[..k]), all[k..], g);
  }

  /** A call can rely on its check: whatever happens after the check, the call included, if
      the worker keeps its lease and no more time than deadline and margin passes since the
      check, then the worker's token is still valid and nobody claimed the job meanwhile. */
  lemma CallKeepsOwner(p: Params, maxAttempts: nat, now: C.Time, events: seq<Event>, more: seq<Event>, g: nat)
    returns (k: nat)
    requires p.lim.maxCount > 0 && CallAhead(Run(p, Init(maxAttempts, now), events), g)
    ensures CheckedAt(p, Init(maxAttempts, now), events, g, Run(p, Init(maxAttempts, now), events).runners[g].pc, k)
    ensures var checked := Run(p, Init(maxAttempts, now), events[..k]);
            var after := Run(p, Init(maxAttempts, now), events + more);
            LeaseKept(p, checked, events[k..] + more, g) && after.now <= checked.now + p.margin + p.deadline ==>
              Valid(after, g) && |after.runners| == |checked.runners|
  {
    k := CallsFollowChecks(p, maxAttempts, now, events, g);
    var s0, all := Init(maxAttempts, now), events + more;
    assert all[..k] == events[..k] && all[k..] == events[k..] + more;
    var checked := Run(p, s0, all[..k]);
    if LeaseKept(p, checked, all[k..], g) && Run(p, s0, all).now <= checked.now + p.margin + p.deadline {
      OwnerSince(p, maxAttempts, now, all, k, g);
    }
  }
}
