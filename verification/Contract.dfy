/** One delivery is carried out under one contract: nobody gets past the fingerprint check with
    another fingerprint than the durable one. */
module Contract {
  import opened Base
  import opened Protocol
  import opened ProtocolSafety
  import opened ProtocolTheorems
  import opened ProtocolReplay
  import C = Coordinator
  import D = Delivery

  /** The runner has had its fingerprint checked and made durable. */
  predicate Signed(pc: Pc) {
    !pc.Stopped? && !(pc.Starting? && (pc.start.LoadJob? || pc.start.SaveCompat?))
  }

  ghost predicate Agrees(s: State, g: nat)
    requires g < |s.runners|
  {
    Signed(s.runners[g].pc) ==> D.Ensured(s.delivery).compatibility == Some(s.runners[g].load.compatibility)
  }

  ghost predicate AllAgree(s: State) {
    forall g: nat :: g < |s.runners| ==> Agrees(s, g)
  }

  /** Only a passed fingerprint check gets a runner past it. */
  lemma TurnSigns(p: Params, s: State, g: nat, reply: Reply)
    requires Inv(p, s) && g < |s.runners| && !Signed(s.runners[g].pc)
    ensures var s' := StepRunner(p, s, g, reply); g < |s'.runners| && Agrees(s', g)
  {
    match s.runners[g].pc
    case Starting(phase) => StartSigns(p, s, g, phase, reply);
    case Stopped =>
  }

  lemma StartSigns(p: Params, s: State, g: nat, phase: StartPhase, reply: Reply)
    requires g < |s.runners| && (phase.LoadJob? || phase.SaveCompat?) && s.runners[g].pc == Starting(phase)
    ensures var s' := StepStart(p, s, g, phase, reply); g < |s'.runners| && Agrees(s', g)
  {
  }

  /** A durable fingerprint stays. */
  lemma FingerprintStays(p: Params, s: State, e: Event)
    requires Inv(p, s) && D.Ensured(s.delivery).compatibility.Some?
    ensures D.Ensured(Apply(p, s, e).delivery).compatibility == D.Ensured(s.delivery).compatibility
  {
    if e.Advance? && e.g < |s.runners| {
      RunnerGood(p, s, e.g, e.reply);
    }
  }

  lemma AgreesLater(p: Params, s: State, e: Event, g: nat)
    requires p.lim.maxCount > 0 && Inv(p, s) && g < |s.runners| && Agrees(s, g)
    ensures g < |Apply(p, s, e).runners| && Agrees(Apply(p, s, e), g)
  {
    if e.Advance? && e.g == g {
      RunnerGood(p, s, g, e.reply);
      if Signed(s.runners[g].pc) {
        FingerprintStays(p, s, e);
      } else {
        TurnSigns(p, s, g, e.reply);
      }
    } else {
      BystanderKeepsRunner(p, s, e, g);
      if Signed(s.runners[g].pc) {
        FingerprintStays(p, s, e);
      }
    }
  }

  lemma ApplyAgrees(p: Params, s: State, e: Event)
    requires p.lim.maxCount > 0 && Inv(p, s) && AllAgree(s)
    ensures AllAgree(Apply(p, s, e))
  {
    var s' := Apply(p, s, e);
    forall g: nat | g < |s'.runners| ensures Agrees(s', g) {
      if g < |s.runners| {
        AgreesLater(p, s, e, g);
      } else {
        NewRunner(p, s, e, g);
      }
    }
  }

  /** In every run all workers past the check carry the durable fingerprint, and so one and the
      same. */
  lemma {:induction false} OneFingerprint(p: Params, maxAttempts: nat, now: C.Time, events: seq<Event>)
    requires p.lim.maxCount > 0
    ensures AllAgree(Run(p, Init(maxAttempts, now), events))
  {
    if events != [] {
      var init := events[..|events| - 1];
      OneFingerprint(p, maxAttempts, now, init);
      InitInv(p, maxAttempts, now);
      RunKeepsInv(p, Init(maxAttempts, now), init);
      ApplyAgrees(p, Run(p, Init(maxAttempts, now), init), events[|events| - 1]);
    }
  }
}
