/** Waiting for vectors to be ready, activating once, and waiting until searchable, against an
    arbitrary remote and a lease that may be lost at any check. */
module Readiness {
  import opened Base
  import P = Policy

  datatype Failure = Failure(code: string)

  type StatusReads = nat -> Result<P.VectorStatus, Failure>

  datatype WaitError = NotBound | CallFailed(failure: Failure) | Inconsistent | TerminalVector
    | StillPending(polls: nat) | LeaseLost

  datatype Ready = Ready(disposition: P.Disposition, status: P.VectorStatus, polls: nat)

  /** What the runner does and sees, in order. */
  datatype Event = Owned | Lost | Activated(ok: bool) | Saw(status: P.VectorStatus)

  // ---------------------------------------------------------------- waiting for readiness

  /** The k-th observation: the initial status counts as the first. */
  function Observation(initial: Option<P.VectorStatus>, source: StatusReads, k: nat): Result<P.VectorStatus, Failure> {
    if initial.None? then source(k) else if k == 0 then Ok(initial.value) else source(k - 1)
  }

  /** `seen` are the first observations, and all of them but the last said WAIT. */
  ghost predicate Waited(initial: Option<P.VectorStatus>, source: StatusReads, policy: P.ReadinessPolicy,
                         seen: seq<P.VectorStatus>) {
    && (forall k: nat :: k < |seen| ==> Observation(initial, source, k) == Ok(seen[k]))
    && (forall k: nat :: k < |seen| - 1 ==> P.Evaluate(seen[k], policy) == Some(P.Wait))
  }

  ghost predicate WaitEnd(initial: Option<P.VectorStatus>, source: StatusReads, policy: P.ReadinessPolicy,
                          maxPolls: nat, seen: seq<P.VectorStatus>, r: Result<Ready, WaitError>) {
    var n := |seen|;
    if n > 0 && P.Evaluate(seen[n - 1], policy) != Some(P.Wait) then
      match P.Evaluate(seen[n - 1], policy)
      case None => r == Err(Inconsistent)
      case Some(TerminalState) => r == Err(TerminalVector)
      case Some(d) => r == Ok(Ready(d, seen[n - 1], n))
    else if n == maxPolls then r == Err(StillPending(n))
    else Observation(initial, source, n).Err? && r == Err(CallFailed(Observation(initial, source, n).error))
  }

  method WaitUntilReady(bound: bool, initial: Option<P.VectorStatus>, source: StatusReads, policy: P.ReadinessPolicy,
                        maxPolls: nat)
    returns (r: Result<Ready, WaitError>, seen: seq<P.VectorStatus>)
    requires maxPolls > 0
    ensures !bound ==> r == Err(NotBound) && seen == []
    ensures bound ==> |seen| <= maxPolls && Waited(initial, source, policy, seen)
    ensures bound ==> WaitEnd(initial, source, policy, maxPolls, seen, r)
  {
    seen := [];
    if !bound {
      return Err(NotBound), seen;
    }
    var next := Observation(initial, source, 0);
    while true
      invariant |seen| < maxPolls && next == Observation(initial, source, |seen|)
      invariant Waited(initial, source, policy, seen)
      invariant |seen| > 0 ==> P.Evaluate(seen[|seen| - 1], policy) == Some(P.Wait)
      decreases maxPolls - |seen|
    {
      if next.Err? {
        return Err(CallFailed(next.error)), seen;
      }
      var status := next.value;
      seen := seen + [status];
      var decision := P.Evaluate(status, policy);
      if decision.None? {
        return Err(Inconsistent), seen;
      }
      if decision.value == P.Searchable || decision.value == P.ReadyToActivate {
        return Ok(Ready(decision.value, status, |seen|)), seen;
      }
      if decision.value == P.TerminalState {
        return Err(TerminalVector), seen;
      }
      if |seen| >= maxPolls {
        return Err(StillPending(|seen|)), seen;
      }
      next := Observation(initial, source, |seen|);
    }
  }

  // ---------------------------------------------------------------- waiting until active

  /** One polling round: the lease was checked, then the status seen. */
  function Rounds(seen: seq<P.VectorStatus>): (r: seq<Event>)
    ensures |r| == 2 * |seen|
  {
    if seen == [] then [] else Rounds(seen[..|seen| - 1]) + [Owned, Saw(seen[|seen| - 1])]
  }

  /** How a status is judged while waiting for it to be searchable. */
  type Judge = P.VectorStatus -> Option<P.Disposition>

  /** Earlier observations were consistent and not yet searchable. */
  ghost predicate NotYet(initial: Option<P.VectorStatus>, source: StatusReads, judge: Judge,
                         seen: seq<P.VectorStatus>) {
    && (forall k: nat :: k < |seen| ==> Observation(initial, source, k) == Ok(seen[k]))
    && (forall k: nat :: k < |seen| - 1 ==> judge(seen[k]).Some? && judge(seen[k]).value != P.Searchable)
  }

  /** How the polling ends. Terminal states do not end it, only the budget does. */
  ghost predicate ActiveEnd(initial: Option<P.VectorStatus>, source: StatusReads, owned: nat -> bool, judge: Judge,
                            maxPolls: nat, seen: seq<P.VectorStatus>, r: Result<Ready, WaitError>) {
    var n := |seen|;
    if n > 0 && judge(seen[n - 1]) == Some(P.Searchable) then r == Ok(Ready(P.Searchable, seen[n - 1], n))
    else if n > 0 && judge(seen[n - 1]).None? then r == Err(Inconsistent)
    else if n == maxPolls then r == Err(StillPending(n))
    else if !owned(n) then r == Err(LeaseLost)
    else Observation(initial, source, n).Err? && r == Err(CallFailed(Observation(initial, source, n).error))
  }

  /** The polling rounds as events, with the lease check of an unfinished round. */
  function PollEvents(seen: seq<P.VectorStatus>, r: Result<Ready, WaitError>): seq<Event> {
    Rounds(seen) + if r == Err(LeaseLost) then [Lost] else if r.Err? && r.error.CallFailed? then [Owned] else []
  }

  lemma NotYetSnoc(initial: Option<P.VectorStatus>, source: StatusReads, judge: Judge, seen: seq<P.VectorStatus>,
                   v: P.VectorStatus)
    requires NotYet(initial, source, judge, seen) && Observation(initial, source, |seen|) == Ok(v)
    requires |seen| > 0 ==> judge(seen[|seen| - 1]).Some? && judge(seen[|seen| - 1]).value != P.Searchable
    ensures NotYet(initial, source, judge, seen + [v])
  {
  }

  /** `owned` answers the lease checks by number; each status is seen right after a check that
      found the lease held. */
  method WaitForActive(initial: Option<P.VectorStatus>, source: StatusReads, owned: nat -> bool, judge: Judge,
                       maxPolls: nat)
    returns (r: Result<Ready, WaitError>, seen: seq<P.VectorStatus>)
    requires maxPolls > 0
    ensures |seen| <= maxPolls && NotYet(initial, source, judge, seen)
    ensures ActiveEnd(initial, source, owned, judge, maxPolls, seen, r)
    ensures forall k: nat :: k < |seen| ==> owned(k)
  {
    seen := [];
    while |seen| < maxPolls
      invariant |seen| <= maxPolls && NotYet(initial, source, judge, seen)
      invariant |seen| > 0 ==> judge(seen[|seen| - 1]).Some? && judge(seen[|seen| - 1]).value != P.Searchable
      invariant forall k: nat :: k < |seen| ==> owned(k)
      decreases maxPolls - |seen|
    {
      if !owned(|seen|) {
        return Err(LeaseLost), seen;
      }
      var next := Observation(initial, source, |seen|);
      if next.Err? {
        return Err(CallFailed(next.error)), seen;
      }
      var status := next.value;
      NotYetSnoc(initial, source, judge, seen, status);
      seen := seen + [status];
      var decision := judge(status);
      if decision.None? {
        return Err(Inconsistent), seen;
      }
      if decision.value == P.Searchable {
        return Ok(Ready(P.Searchable, status, |seen|)), seen;
      }
    }
    return Err(StillPending(maxPolls)), seen;
  }

  // ---------------------------------------------------------------- activation

  function Observed(seen: seq<P.VectorStatus>): (r: seq<Event>)
    ensures |r| == |seen| && forall k :: 0 <= k < |r| ==> r[k] == Saw(seen[k])
  {
    seq(|seen|, k requires 0 <= k < |seen| => Saw(seen[k]))
  }

  /** Activation is called only after READY_TO_ACTIVATE was the last thing seen and the lease
      was then found held. */
  predicate ActivationAt(trace: seq<Event>, k: nat) {
    2 <= k < |trace| && trace[k].Activated? && trace[k - 1] == Owned
    && trace[k - 2].Saw? && P.Evaluate(trace[k - 2].status, P.AllowReadyToActivate) == Some(P.ReadyToActivate)
  }

  ghost predicate AtMostOneActivation(trace: seq<Event>) {
    forall j, k :: 0 <= j < k < |trace| ==> !(trace[j].Activated? && trace[k].Activated?)
  }

  predicate NoActivation(trace: seq<Event>) {
    forall k :: 0 <= k < |trace| ==> !trace[k].Activated?
  }

  lemma {:induction false} RoundsNoActivation(seen: seq<P.VectorStatus>)
    ensures NoActivation(Rounds(seen))
  {
    if seen != [] {
      RoundsNoActivation(seen[..|seen| - 1]);
    }
  }

  lemma OneActivation(a: seq<Event>, e: Event, b: seq<Event>)
    requires NoActivation(a) && e.Activated? && NoActivation(b)
    ensures AtMostOneActivation(a + [e] + b)
    ensures forall k :: 0 <= k < |a + [e] + b| && (a + [e] + b)[k].Activated? ==> k == |a|
  {
  }

  /** Activations are few and earned. */
  ghost predicate Earned(trace: seq<Event>) {
    AtMostOneActivation(trace) && forall k: nat :: k < |trace| && trace[k].Activated? ==> ActivationAt(trace, k)
  }

  lemma EarnedOnce(before: seq<Event>, ok: bool, after: seq<Event>)
    requires NoActivation(before) && NoActivation(after)
    requires |before| >= 2 && before[|before| - 1] == Owned && before[|before| - 2].Saw?
          && P.Evaluate(before[|before| - 2].status, P.AllowReadyToActivate) == Some(P.ReadyToActivate)
    ensures Earned(before + [Activated(ok)] + after)
  {
    OneActivation(before, Activated(ok), after);
  }

  predicate SearchableNow(v: P.VectorStatus) {
    P.Evaluate(v, P.RequireSearchable) == Some(P.Searchable)
  }

  /** Answers of the environment: status source before and after activation, the reply to the
      activation call, and the lease checks by number. */
  datatype Environment = Environment(before: StatusReads, after: StatusReads, activate: Option<Failure>,
                                     owned: nat -> bool)

  // ---------------------------------------------------------------- the outcome of an activation

  predicate ReadyNow(v: P.VectorStatus) {
    P.Evaluate(v, P.AllowReadyToActivate) == Some(P.ReadyToActivate)
  }

  /** Consistent, but not searchable yet. */
  predicate NotSearchable(v: P.VectorStatus) {
    P.Evaluate(v, P.RequireSearchable).Some? && !SearchableNow(v)
  }

  /** Number of the first lease check that belongs to a poll. */
  function FirstCheck(env: Environment): nat {
    if env.activate.Some? then 1 else 2
  }

  /** Poll `k` saw `polled[k]`, under a lease then found held. */
  predicate PollAt(env: Environment, polled: seq<P.VectorStatus>, k: nat)
    requires k < |polled|
  {
    env.owned(FirstCheck(env) + k) && env.after(k) == Ok(polled[k])
  }

  /** The polls after activation: each under a held lease, all but the last not searchable, and
      why there are no more. */
  ghost predicate Polled(env: Environment, maxPolls: nat, polled: seq<P.VectorStatus>, r: Result<Ready, WaitError>) {
    var n, first := |polled|, FirstCheck(env);
    && n <= maxPolls
    && (forall k: nat :: k < n ==> PollAt(env, polled, k))
    && (forall k: nat :: k < n - 1 ==> NotSearchable(polled[k]))
    && if n > 0 && SearchableNow(polled[n - 1]) then r == Ok(Ready(P.Searchable, polled[n - 1], n))
       else if n > 0 && !NotSearchable(polled[n - 1]) then r == Err(Inconsistent)
       else if n == maxPolls then r == Err(StillPending(n))
       else if !env.owned(first + n) then r == Err(LeaseLost)
       else env.after(n).Err? && r == Err(CallFailed(env.after(n).error))
  }

  /** After the activation call: a failed call is followed by a status read at once, an
      answered one by a lease check; then the polls. */
  ghost predicate Activating(env: Environment, maxPolls: nat, polled: seq<P.VectorStatus>, r: Result<Ready, WaitError>,
                             after: seq<Event>) {
    if env.activate.Some? && env.after(0).Err? then
      polled == [] && r == Err(CallFailed(env.after(0).error)) && after == []
    else if env.activate.None? && !env.owned(1) then polled == [] && r == Err(LeaseLost) && after == [Lost]
    else
      Polled(env, maxPolls, polled, r)
      && after == (if env.activate.Some? then [] else [Owned]) + PollEvents(polled, r)
  }

  /** The whole outcome: statuses `seen` before and `polled` after the activation, the events,
      and the result. */
  ghost predicate Outcome(bound: bool, initial: P.VectorStatus, env: Environment, maxPolls: nat,
                          seen: seq<P.VectorStatus>, polled: seq<P.VectorStatus>, r: Result<Ready, WaitError>,
                          trace: seq<Event>) {
    if !bound then r == Err(NotBound) && seen == [] && polled == [] && trace == []
    else
      && |seen| <= maxPolls && Waited(Some(initial), env.before, P.AllowReadyToActivate, seen)
      && if seen == [] || !ReadyNow(seen[|seen| - 1]) then
           WaitEnd(Some(initial), env.before, P.AllowReadyToActivate, maxPolls, seen, r)
           && polled == [] && trace == Observed(seen)
         else if !env.owned(0) then polled == [] && r == Err(LeaseLost) && trace == Observed(seen) + [Lost]
         else
           exists after :: Activating(env, maxPolls, polled, r, after)
                           && trace == Observed(seen) + [Owned, Activated(env.activate.None?)] + after
  }

  /** `source` and `owned` answer as the environment does after the activation. */
  predicate Relays(env: Environment, initial: Option<P.VectorStatus>, source: StatusReads, owned: nat -> bool, k: nat) {
    Observation(initial, source, k) == env.after(k) && owned(k) == env.owned(FirstCheck(env) + k)
  }

  lemma FromActiveEnd(env: Environment, maxPolls: nat, initial: Option<P.VectorStatus>, source: StatusReads,
                      owned: nat -> bool, judge: Judge, polled: seq<P.VectorStatus>, r: Result<Ready, WaitError>)
    requires forall k: nat :: Relays(env, initial, source, owned, k)
    requires forall v :: judge(v) == P.Evaluate(v, P.RequireSearchable)
    requires |polled| <= maxPolls && NotYet(initial, source, judge, polled)
    requires ActiveEnd(initial, source, owned, judge, maxPolls, polled, r)
    requires forall k: nat :: k < |polled| ==> owned(k)
    ensures Polled(env, maxPolls, polled, r)
  {
    forall k: nat | k < |polled| ensures PollAt(env, polled, k) {
      assert Relays(env, initial, source, owned, k);
      assert owned(k) && Observation(initial, source, k) == Ok(polled[k]);
    }
    forall k: nat | k < |polled| - 1 ensures NotSearchable(polled[k]) {
      assert judge(polled[k]) == P.Evaluate(polled[k], P.RequireSearchable);
    }
    assert polled != [] ==> judge(polled[|polled| - 1]) == P.Evaluate(polled[|polled| - 1], P.RequireSearchable);
    assert Relays(env, initial, source, owned, |polled|);
  }

  /** Activates until searchable: what it does and answers in every environment. */
  method ActivateUntilSearchable(bound: bool, initial: P.VectorStatus, env: Environment, maxPolls: nat)
    returns (r: Result<Ready, WaitError>, trace: seq<Event>, ghost seen: seq<P.VectorStatus>,
             ghost polled: seq<P.VectorStatus>)
    requires maxPolls > 0
    ensures Outcome(bound, initial, env, maxPolls, seen, polled, r, trace)
  {
    var ready, observed := WaitUntilReady(bound, Some(initial), env.before, P.AllowReadyToActivate, maxPolls);
    seen, polled := observed, [];
    trace := Observed(observed);
    if ready.Err? {
      return ready, trace, seen, polled;
    }
    if ready.value.disposition == P.Searchable {
      return ready, trace, seen, polled;
    }
    if !env.owned(0) {
      return Err(LeaseLost), trace + [Lost], seen, polled;
    }
    var before := trace + [Owned];
    var after: seq<Event>;
    if env.activate.Some? {
      r, after, polled := PollAfterFailure(env, maxPolls);
      trace := before + [Activated(false)] + after;
    } else {
      r, after, polled := PollAfterAnswer(env, maxPolls);
      trace := before + [Activated(true)] + after;
    }
    assert trace == Observed(observed) + [Owned, Activated(env.activate.None?)] + after;
  }

  method PollAfterFailure(env: Environment, maxPolls: nat)
    returns (r: Result<Ready, WaitError>, after: seq<Event>, ghost polled: seq<P.VectorStatus>)
    requires maxPolls > 0 && env.activate.Some?
    ensures Activating(env, maxPolls, polled, r, after)
  {
    var status := env.after(0);
    if status.Err? {
      return Err(CallFailed(status.error)), [], [];
    }
    var judge: Judge := (v: P.VectorStatus) => P.Evaluate(v, P.RequireSearchable);
    var rest: StatusReads := (k: nat) => env.after(k + 1);
    var owned: nat -> bool := (k: nat) => env.owned(k + 1);
    var active, observed := WaitForActive(Some(status.value), rest, owned, judge, maxPolls);
    FromActiveEnd(env, maxPolls, Some(status.value), rest, owned, judge, observed, active);
    assert [] + PollEvents(observed, active) == PollEvents(observed, active);
    return active, PollEvents(observed, active), observed;
  }

  method PollAfterAnswer(env: Environment, maxPolls: nat)
    returns (r: Result<Ready, WaitError>, after: seq<Event>, ghost polled: seq<P.VectorStatus>)
    requires maxPolls > 0 && env.activate.None?
    ensures Activating(env, maxPolls, polled, r, after)
  {
    if !env.owned(1) {
      return Err(LeaseLost), [Lost], [];
    }
    var judge: Judge := (v: P.VectorStatus) => P.Evaluate(v, P.RequireSearchable);
    var owned: nat -> bool := (k: nat) => env.owned(k + 2);
    var active, observed := WaitForActive(None, env.after, owned, judge, maxPolls);
    FromActiveEnd(env, maxPolls, None, env.after, owned, judge, observed, active);
    return active, [Owned] + PollEvents(observed, active), observed;
  }

  // ---------------------------------------------------------------- what the outcome means

  lemma RoundsEvents(seen: seq<P.VectorStatus>)
    ensures forall e :: e in Rounds(seen) ==> e == Owned || e.Saw?
  {
    if seen != [] {
      RoundsEvents(seen[..|seen| - 1]);
    }
  }

  /** The trace of an outcome, cut at the activation. */
  lemma OutcomeTrace(bound: bool, initial: P.VectorStatus, env: Environment, maxPolls: nat, seen: seq<P.VectorStatus>,
                     polled: seq<P.VectorStatus>, r: Result<Ready, WaitError>, trace: seq<Event>)
    requires Outcome(bound, initial, env, maxPolls, seen, polled, r, trace)
    ensures Earned(trace) && |trace| <= 3 * maxPolls + 4
    ensures (exists e :: e in trace && e.Activated?) <==>
              bound && seen != [] && ReadyNow(seen[|seen| - 1]) && env.owned(0)
    ensures r == Err(LeaseLost) <==> Lost in trace
  {
    var before := Observed(seen);
    if bound && seen != [] && ReadyNow(seen[|seen| - 1]) && env.owned(0) {
      var after :| Activating(env, maxPolls, polled, r, after)
                   && trace == before + [Owned, Activated(env.activate.None?)] + after;
      PolledTrace(env, maxPolls, polled, r, after);
      ActivatedTrace(seen, env.activate.None?, after, trace);
      LostLast(before, env.activate.None?, after, trace);
    } else if bound && seen != [] && ReadyNow(seen[|seen| - 1]) {
      assert trace[|before|] == Lost;
    }
  }

  lemma PolledTrace(env: Environment, maxPolls: nat, polled: seq<P.VectorStatus>, r: Result<Ready, WaitError>,
                    after: seq<Event>)
    requires Activating(env, maxPolls, polled, r, after)
    ensures NoActivation(after) && |after| <= 2 * maxPolls + 2
    ensures r == Err(LeaseLost) <==> Lost in after
  {
    RoundsEvents(polled);
    RoundsNoActivation(polled);
    if r == Err(LeaseLost) {
      assert after[|after| - 1] == Lost;
    }
  }

  lemma ActivatedTrace(seen: seq<P.VectorStatus>, ok: bool, after: seq<Event>, trace: seq<Event>)
    requires seen != [] && ReadyNow(seen[|seen| - 1]) && NoActivation(after)
    requires trace == Observed(seen) + [Owned, Activated(ok)] + after
    ensures Earned(trace) && exists e :: e in trace && e.Activated?
  {
    var before := Observed(seen) + [Owned];
    assert trace == before + [Activated(ok)] + after;
    assert trace[|seen| + 1] == Activated(ok);
    EarnedOnce(before, ok, after);
  }

  lemma LostLast(before: seq<Event>, ok: bool, after: seq<Event>, trace: seq<Event>)
    requires Lost !in before && trace == before + [Owned, Activated(ok)] + after
    ensures Lost in trace <==> Lost in after
  {
    if Lost in after {
      var k :| 0 <= k < |after| && after[k] == Lost;
      assert trace[|before| + 2 + k] == Lost;
    }
  }

  /** The n-th observation before activation is the first that does not say WAIT, and says `d`. */
  ghost predicate Says(initial: P.VectorStatus, env: Environment, n: nat, d: P.Disposition) {
    && (forall k: nat :: k < n ==> SaysAt(initial, env, k, P.Wait))
    && SaysAt(initial, env, n, d)
  }

  ghost predicate SaysAt(initial: P.VectorStatus, env: Environment, k: nat, d: P.Disposition) {
    var o := Observation(Some(initial), env.before, k);
    o.Ok? && P.Evaluate(o.value, P.AllowReadyToActivate) == Some(d)
  }

  predicate ActiveBy(env: Environment, k: nat) {
    env.owned(FirstCheck(env) + k) && env.after(k).Ok?
  }

  /** The m-th poll after activation is the first that sees a searchable status, under a lease
      held at every poll up to it. */
  ghost predicate ActiveAt(env: Environment, m: nat) {
    && ActiveBy(env, m)
    && (forall k: nat :: k < m ==> ActiveBy(env, k) && NotSearchable(env.after(k).value))
    && SearchableNow(env.after(m).value)
  }

  /** When activation succeeds, in terms of the environment alone. */
  ghost predicate Succeeds(bound: bool, initial: P.VectorStatus, env: Environment, maxPolls: nat) {
    bound
    && exists n: nat :: n < maxPolls &&
         (|| Says(initial, env, n, P.Searchable)
          || (Says(initial, env, n, P.ReadyToActivate) && env.owned(0) && (env.activate.None? ==> env.owned(1))
              && exists m: nat :: m < maxPolls && ActiveAt(env, m)))
  }

  lemma SaysUpTo(initial: P.VectorStatus, env: Environment, n: nat, d: P.Disposition, k: nat)
    requires Says(initial, env, n, d)
    ensures k <= n ==> Observation(Some(initial), env.before, k).Ok?
    ensures 0 < k <= n ==> SaysAt(initial, env, k - 1, P.Wait)
  {
    assert k <= n ==> SaysAt(initial, env, k, if k < n then P.Wait else d);
  }

  lemma ActiveUpTo(env: Environment, m: nat, n: nat)
    requires ActiveAt(env, m)
    ensures n <= m ==> ActiveBy(env, n)
    ensures 0 < n <= m ==> ActiveBy(env, n - 1) && NotSearchable(env.after(n - 1).value)
  {
  }

  lemma PolledLast(env: Environment, maxPolls: nat, polled: seq<P.VectorStatus>, r: Result<Ready, WaitError>)
    requires Polled(env, maxPolls, polled, r)
    ensures polled != [] ==> PollAt(env, polled, |polled| - 1)
  {
  }

  /** What was seen determines where the first wait ended. */
  lemma SeenEnd(initial: P.VectorStatus, env: Environment, maxPolls: nat, seen: seq<P.VectorStatus>,
                r: Result<Ready, WaitError>, n: nat, d: P.Disposition)
    requires |seen| <= maxPolls && Waited(Some(initial), env.before, P.AllowReadyToActivate, seen)
    requires seen == [] || !ReadyNow(seen[|seen| - 1]) ==>
               WaitEnd(Some(initial), env.before, P.AllowReadyToActivate, maxPolls, seen, r)
    requires n < maxPolls && Says(initial, env, n, d) && d != P.Wait
    ensures |seen| == n + 1 && P.Evaluate(seen[n], P.AllowReadyToActivate) == Some(d)
  {
    var k := |seen|;
    SaysUpTo(initial, env, n, d, k);
    if k <= n {
      assert false;
    } else {
      assert Observation(Some(initial), env.before, n) == Ok(seen[n]);
    }
  }

  lemma SeenSays(initial: P.VectorStatus, env: Environment, seen: seq<P.VectorStatus>, d: P.Disposition)
    requires Waited(Some(initial), env.before, P.AllowReadyToActivate, seen) && seen != []
    requires P.Evaluate(seen[|seen| - 1], P.AllowReadyToActivate) == Some(d)
    ensures Says(initial, env, |seen| - 1, d)
  {
    forall k: nat | k < |seen| - 1 ensures SaysAt(initial, env, k, P.Wait) {
      assert Observation(Some(initial), env.before, k) == Ok(seen[k]);
    }
    assert Observation(Some(initial), env.before, |seen| - 1) == Ok(seen[|seen| - 1]);
  }

  lemma PolledEnd(env: Environment, maxPolls: nat, polled: seq<P.VectorStatus>, r: Result<Ready, WaitError>, m: nat)
    requires Polled(env, maxPolls, polled, r) && m < maxPolls && ActiveAt(env, m)
    ensures env.after(m).Ok? && r == Ok(Ready(P.Searchable, env.after(m).value, m + 1))
  {
    var n := |polled|;
    ActiveUpTo(env, m, n);
    PolledLast(env, maxPolls, polled, r);
    if n <= m {
      assert false;
    } else {
      assert PollAt(env, polled, m);
    }
  }

  lemma PolledActive(env: Environment, maxPolls: nat, polled: seq<P.VectorStatus>, r: Result<Ready, WaitError>)
    requires Polled(env, maxPolls, polled, r) && r.Ok?
    ensures polled != [] && ActiveAt(env, |polled| - 1)
  {
    forall k: nat | k < |polled| ensures ActiveBy(env, k) && env.after(k) == Ok(polled[k]) {
      assert PollAt(env, polled, k);
    }
  }

  /** It succeeds exactly when the environment lets it: searchable at the first status that is
      not WAIT, or ready to activate there, with the lease held at every check and a searchable
      status within the budget of polls. */
  lemma SucceedsExactly(bound: bool, initial: P.VectorStatus, env: Environment, maxPolls: nat,
                        seen: seq<P.VectorStatus>, polled: seq<P.VectorStatus>, r: Result<Ready, WaitError>,
                        trace: seq<Event>)
    requires Outcome(bound, initial, env, maxPolls, seen, polled, r, trace)
    ensures r.Ok? <==> Succeeds(bound, initial, env, maxPolls)
  {
    if r.Ok? {
      SucceedsOnlyThen(initial, env, maxPolls, seen, polled, r, trace);
    }
    if Succeeds(bound, initial, env, maxPolls) {
      SucceedsThen(initial, env, maxPolls, seen, polled, r, trace);
    }
  }

  lemma SucceedsOnlyThen(initial: P.VectorStatus, env: Environment, maxPolls: nat, seen: seq<P.VectorStatus>,
                         polled: seq<P.VectorStatus>, r: Result<Ready, WaitError>, trace: seq<Event>)
    requires Outcome(true, initial, env, maxPolls, seen, polled, r, trace) && r.Ok?
    ensures Succeeds(true, initial, env, maxPolls)
  {
    var n := |seen| - 1;
    if ReadyNow(seen[n]) {
      SeenSays(initial, env, seen, P.ReadyToActivate);
      PolledActive(env, maxPolls, polled, r);
      assert ActiveAt(env, |polled| - 1) && |polled| - 1 < maxPolls;
    } else {
      SeenSays(initial, env, seen, P.Searchable);
    }
  }

  lemma SucceedsThen(initial: P.VectorStatus, env: Environment, maxPolls: nat, seen: seq<P.VectorStatus>,
                     polled: seq<P.VectorStatus>, r: Result<Ready, WaitError>, trace: seq<Event>)
    requires Outcome(true, initial, env, maxPolls, seen, polled, r, trace) && Succeeds(true, initial, env, maxPolls)
    ensures r.Ok?
  {
    var n: nat :| n < maxPolls &&
      (|| Says(initial, env, n, P.Searchable)
       || (Says(initial, env, n, P.ReadyToActivate) && env.owned(0) && (env.activate.None? ==> env.owned(1))
           && exists m: nat :: m < maxPolls && ActiveAt(env, m)));
    if Says(initial, env, n, P.Searchable) {
      SeenEnd(initial, env, maxPolls, seen, r, n, P.Searchable);
    } else {
      SeenEnd(initial, env, maxPolls, seen, r, n, P.ReadyToActivate);
      var m: nat :| m < maxPolls && ActiveAt(env, m);
      assert ActiveBy(env, 0);
      PolledEnd(env, maxPolls, polled, r, m);
    }
  }

  /** A result is the last status seen, searchable, with no failed, pending or missing work. */
  lemma SearchableResult(bound: bool, initial: P.VectorStatus, env: Environment, maxPolls: nat,
                         seen: seq<P.VectorStatus>, polled: seq<P.VectorStatus>, r: Result<Ready, WaitError>,
                         trace: seq<Event>)
    requires Outcome(bound, initial, env, maxPolls, seen, polled, r, trace) && r.Ok?
    ensures SearchableNow(r.value.status) && P.FullySynced(r.value.status) && 1 <= r.value.polls <= maxPolls
    ensures trace != [] && trace[|trace| - 1] == Saw(r.value.status)
  {
    if seen != [] && ReadyNow(seen[|seen| - 1]) {
      assert Polled(env, maxPolls, polled, r);
      P.SearchableMeansSynced(r.value.status, P.RequireSearchable);
      assert Rounds(polled)[2 * |polled| - 1] == Saw(polled[|polled| - 1]);
    } else {
      P.SearchableMeansSynced(r.value.status, P.AllowReadyToActivate);
    }
  }
}
