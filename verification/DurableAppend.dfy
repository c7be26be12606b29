/** The durable Append loop of one lease owner over the delivery repository: prepare in one
    transaction, check the lease window, call the remote, accept in another transaction. What
    other workers do in between is the subject of the Protocol modules; here the repository
    changes only through this loop. */
module DurableAppend {
  import opened Base
  import B = Batching
  import D = Delivery

  datatype AppendError = NotContiguous | LeaseLost | WindowTooShort | CallFailed | Refused(error: D.DeliveryError)

  datatype Outcome = Outcome(batchIndex: nat, contentHash: string, replay: D.Replay, status: Option<string>)

  /** The window check before a call: enough of the lease is left, too little, or none. */
  datatype Window = Open | TooShort | Gone

  /** What the environment answers: whether the n-th fenced transaction still finds the lease,
      what the window check before batch i finds, and the reply to Append of batch i. */
  datatype Environment = Environment(owned: nat -> bool, window: nat -> Window, append: nat -> Option<string>)

  predicate Contiguous(plan: seq<B.PlannedBatch>) {
    forall i :: 0 <= i < |plan| ==> plan[i].batchIndex == i
  }

  /** Some durable row contradicts the plan, or another session is bound. */
  predicate Contradicts(d: D.Rows, sid: string, plan: seq<B.PlannedBatch>) {
    || (D.Ensured(d).sessionId.Some? && D.Ensured(d).sessionId.value != sid)
    || exists i :: 0 <= i < |plan| && i in d.batches && !D.SameBatch(d.batches[i], plan[i])
  }

  /** The first `n` batches of the plan are ACCEPTED rows. */
  ghost predicate AcceptedUpTo(d: D.Rows, plan: seq<B.PlannedBatch>, n: nat)
    requires n <= |plan|
  {
    forall i :: 0 <= i < n ==> i in d.batches && D.SameBatch(d.batches[i], plan[i]) && d.batches[i].status == D.Accepted
  }

  /** Consecutive numbers from `a` up to `b`. */
  function Range(a: nat, b: nat): (r: seq<nat>)
    ensures |r| == if a < b then b - a else 0
    ensures forall k :: 0 <= k < |r| ==> r[k] == a + k
  {
    if a < b then seq(b - a, k requires 0 <= k => a + k) else []
  }

  lemma GrowsReflexive(d: D.Rows)
    ensures D.Grows(d, d)
  {
  }

  lemma AcceptedStays(d: D.Rows, e: D.Rows, plan: seq<B.PlannedBatch>, n: nat)
    requires n <= |plan| && D.Grows(d, e) && AcceptedUpTo(d, plan, n)
    ensures AcceptedUpTo(e, plan, n)
  {
  }

  /** Growth keeps an agreement between rows and plan that held at the start. */
  lemma SurelyContradicts(d: D.Rows, e: D.Rows, sid: string, plan: seq<B.PlannedBatch>, i: nat)
    requires i < |plan| && i in d.batches && D.Grows(d, e) && !D.SameBatch(e.batches[i], plan[i])
    ensures Contradicts(d, sid, plan)
  {
    assert e.batches[i].(status := D.Prepared) == d.batches[i].(status := D.Prepared);
    assert !D.SameBatch(d.batches[i], plan[i]);
  }

  /** What a turn for batch `k` does, by the rows it starts from. */
  function Replayed(d: D.Rows, k: nat): D.Replay {
    if k < D.Ensured(d).nextBatch then D.AlreadyAccepted else if k in d.batches then D.ReplayPending else D.Send
  }

  /** An outcome for each batch in order: its hash, how it was found, and a status if it was
      sent. */
  ghost predicate Reports(d0: D.Rows, plan: seq<B.PlannedBatch>, outcomes: seq<Outcome>) {
    && |outcomes| <= |plan|
    && forall k :: 0 <= k < |outcomes| ==>
         outcomes[k].batchIndex == k && outcomes[k].contentHash == plan[k].contentHash
         && outcomes[k].replay == Replayed(d0, k) && (outcomes[k].status.Some? <==> k >= D.Ensured(d0).nextBatch)
  }

  ghost predicate Progress(d0: D.Rows, d: D.Rows, sid: string, plan: seq<B.PlannedBatch>, i: nat, sent: seq<nat>,
                           outcomes: seq<Outcome>) {
    var next0, next := D.Ensured(d0).nextBatch, D.Ensured(d).nextBatch;
    && i <= |plan| && |outcomes| == i && Reports(d0, plan, outcomes)
    && D.Ordered(d) && D.Grows(d0, d) && D.Ensured(d).sessionId == Some(sid)
    && AcceptedUpTo(d, plan, i)
    && next == (if next0 < i then i else next0)
    && (forall k :: k in d.batches && k !in d0.batches ==> k < i)
    && sent == Range(next0, i)
  }

  /** One transaction that prepares batch `i`; it can fail only on a contradicting row. */
  lemma PrepareFails(d0: D.Rows, d: D.Rows, sid: string, plan: seq<B.PlannedBatch>, i: nat, sent: seq<nat>,
                     outcomes: seq<Outcome>)
    requires Progress(d0, d, sid, plan, i, sent, outcomes) && i < |plan| && Contiguous(plan)
    requires D.PrepareBatch(d, plan[i]).Err?
    ensures D.PrepareBatch(d, plan[i]).error == D.IntegrityError && Contradicts(d0, sid, plan)
  {
    if i in d.batches && !D.SameBatch(d.batches[i], plan[i]) {
      SurelyContradicts(d0, d, sid, plan, i);
    } else {
      D.PrepareSucceeds(d, plan[i]);
      assert false;
    }
  }

  lemma SkipProgress(d0: D.Rows, d: D.Rows, sid: string, plan: seq<B.PlannedBatch>, i: nat, sent: seq<nat>,
                     outcomes: seq<Outcome>)
    requires Progress(d0, d, sid, plan, i, sent, outcomes) && i < |plan| && Contiguous(plan)
    requires D.PrepareBatch(d, plan[i]) == Ok((d, D.AlreadyAccepted))
    ensures Progress(d0, d, sid, plan, i + 1, sent,
                     outcomes + [Outcome(i, plan[i].contentHash, D.AlreadyAccepted, None)])
  {
    D.PrepareSafe(d, plan[i]);
  }

  /** Between the two transactions of batch `i`. */
  ghost predicate Sending(d0: D.Rows, d: D.Rows, sid: string, plan: seq<B.PlannedBatch>, i: nat) {
    && i < |plan| && D.Ordered(d) && D.Grows(d0, d) && D.Ensured(d).sessionId == Some(sid)
    && AcceptedUpTo(d, plan, i) && D.Ensured(d).nextBatch == i && D.Ensured(d0).nextBatch <= i
    && i in d.batches && D.SameBatch(d.batches[i], plan[i])
    && forall k :: k in d.batches && k !in d0.batches ==> k <= i
  }

  lemma PreparedProgress(d0: D.Rows, d: D.Rows, e: D.Rows, replay: D.Replay, sid: string, plan: seq<B.PlannedBatch>,
                         i: nat, sent: seq<nat>, outcomes: seq<Outcome>)
    requires Progress(d0, d, sid, plan, i, sent, outcomes) && i < |plan| && Contiguous(plan)
    requires D.PrepareBatch(d, plan[i]) == Ok((e, replay)) && replay != D.AlreadyAccepted
    ensures Sending(d0, e, sid, plan, i) && replay == Replayed(d0, i)
  {
    D.PrepareSafe(d, plan[i]);
    D.GrowsTransitive(d0, d, e);
    AcceptedStays(d, e, plan, i);
  }

  lemma AcceptProgress(d0: D.Rows, d: D.Rows, e: D.Rows, raw: string, sid: string, plan: seq<B.PlannedBatch>, i: nat)
    requires Sending(d0, d, sid, plan, i) && Contiguous(plan) && D.MarkAccepted(d, plan[i], raw) == Ok(e)
    ensures D.Ordered(e) && D.Grows(d0, e) && AcceptedUpTo(e, plan, i + 1) && D.Ensured(e).nextBatch == i + 1
    ensures D.Ensured(e).sessionId == Some(sid) && forall k :: k in e.batches && k !in d0.batches ==> k < i + 1
  {
    D.AcceptSafe(d, plan[i], raw);
    D.GrowsTransitive(d0, d, e);
    AcceptedStays(d, e, plan, i);
  }

  /** Everything answers well. */
  ghost predicate Smooth(env: Environment) {
    (forall n :: env.owned(n)) && (forall i :: env.window(i) == Open && env.append(i).Some?)
  }

  lemma ReportsSnoc(d0: D.Rows, plan: seq<B.PlannedBatch>, outcomes: seq<Outcome>, more: Outcome)
    requires Reports(d0, plan, outcomes) && |outcomes| < |plan| && more.batchIndex == |outcomes|
    requires more.contentHash == plan[|outcomes|].contentHash && more.replay == Replayed(d0, |outcomes|)
    requires more.status.Some? <==> |outcomes| >= D.Ensured(d0).nextBatch
    ensures Reports(d0, plan, outcomes + [more])
  {
  }

  lemma ExtendProgress(d0: D.Rows, e: D.Rows, sid: string, plan: seq<B.PlannedBatch>, i: nat, sent: seq<nat>,
                       outcomes: seq<Outcome>, replay: D.Replay, raw: string)
    requires Reports(d0, plan, outcomes) && |outcomes| == i < |plan| && D.Ensured(d0).nextBatch <= i
    requires sent == Range(D.Ensured(d0).nextBatch, i)
    requires D.Ordered(e) && D.Grows(d0, e) && AcceptedUpTo(e, plan, i + 1) && D.Ensured(e).nextBatch == i + 1
    requires D.Ensured(e).sessionId == Some(sid) && forall k :: k in e.batches && k !in d0.batches ==> k < i + 1
    requires replay == Replayed(d0, i)
    ensures Progress(d0, e, sid, plan, i + 1, sent + [i],
                     outcomes + [Outcome(i, plan[i].contentHash, replay, Some(raw))])
  {
    assert sent + [i] == Range(D.Ensured(d0).nextBatch, i + 1);
    ReportsSnoc(d0, plan, outcomes, Outcome(i, plan[i].contentHash, replay, Some(raw)));
  }

  /** The acceptance that ends a turn well. */
  lemma TurnAccepted(d0: D.Rows, d: D.Rows, middle: D.Rows, e: D.Rows, raw: string, sid: string,
                     plan: seq<B.PlannedBatch>, i: nat, sent: seq<nat>, outcomes: seq<Outcome>, replay: D.Replay)
    requires Progress(d0, d, sid, plan, i, sent, outcomes) && Sending(d0, middle, sid, plan, i) && Contiguous(plan)
    requires D.MarkAccepted(middle, plan[i], raw) == Ok(e) && replay == Replayed(d0, i)
    ensures D.Ordered(e) && D.Grows(d0, e) && i in e.batches && D.SameBatch(e.batches[i], plan[i])
    ensures D.Ensured(e).sessionStatus == Some(raw)
    ensures Progress(d0, e, sid, plan, i + 1, sent + [i],
                     outcomes + [Outcome(i, plan[i].contentHash, replay, Some(raw))])
  {
    AcceptProgress(d0, middle, e, raw, sid, plan, i);
    ExtendProgress(d0, e, sid, plan, i, sent, outcomes, replay, raw);
  }

  // ---------------------------------------------------------------- why a delivery ends

  /** Fenced transactions before turn `i`: the binding, one for each batch that was skipped,
      two for each that was sent. */
  function Committed(next: nat, i: nat): nat {
    1 + i + if next < i then i - next else 0
  }

  predicate Agrees(d: D.Rows, plan: seq<B.PlannedBatch>, i: nat)
    requires i < |plan|
  {
    i in d.batches ==> D.SameBatch(d.batches[i], plan[i])
  }

  /** Turn `i` reaches its remote call: lease found, row agreeing and open, window open. */
  predicate Calls(env: Environment, d: D.Rows, plan: seq<B.PlannedBatch>, i: nat)
    requires i < |plan|
  {
    var next := D.Ensured(d).nextBatch;
    env.owned(Committed(next, i)) && Agrees(d, plan, i) && next <= i && env.window(i) == Open
  }

  /** Every check of turn `i` passes. */
  predicate Passes(env: Environment, d: D.Rows, plan: seq<B.PlannedBatch>, i: nat)
    requires i < |plan|
  {
    var next := D.Ensured(d).nextBatch;
    && env.owned(Committed(next, i)) && Agrees(d, plan, i)
    && (next <= i ==> env.window(i) == Open && env.append(i).Some? && env.owned(Committed(next, i) + 1))
  }

  /** The first check of turn `i` that fails, fails with `e`. */
  predicate FailsWith(env: Environment, d: D.Rows, plan: seq<B.PlannedBatch>, i: nat, e: AppendError)
    requires i < |plan|
  {
    var next := D.Ensured(d).nextBatch;
    var held := env.owned(Committed(next, i));
    match e
    case NotContiguous => false
    case Refused(error) => held && !Agrees(d, plan, i) && error == D.IntegrityError
    case WindowTooShort => held && Agrees(d, plan, i) && next <= i && env.window(i) == TooShort
    case CallFailed => Calls(env, d, plan, i) && env.append(i).None?
    case LeaseLost =>
      || !held
      || (Agrees(d, plan, i) && next <= i && env.window(i) == Gone)
      || (Calls(env, d, plan, i) && env.append(i).Some? && !env.owned(Committed(next, i) + 1))
  }

  lemma PassesOrFails(env: Environment, d: D.Rows, plan: seq<B.PlannedBatch>, i: nat, e: AppendError, f: AppendError)
    requires i < |plan| && FailsWith(env, d, plan, i, e)
    ensures !Passes(env, d, plan, i) && (FailsWith(env, d, plan, i, f) ==> e == f)
  {
  }

  lemma AgreementKept(d0: D.Rows, d: D.Rows, sid: string, plan: seq<B.PlannedBatch>, i: nat, sent: seq<nat>,
                      outcomes: seq<Outcome>)
    requires Progress(d0, d, sid, plan, i, sent, outcomes) && i < |plan|
    ensures Agrees(d, plan, i) <==> Agrees(d0, plan, i)
  {
    if i in d0.batches {
      assert d.batches[i].(status := D.Prepared) == d0.batches[i].(status := D.Prepared);
    }
  }

  /** One transaction that prepares batch `i`: it fails exactly on a contradicting row and
      skips exactly what is accepted. */
  lemma PrepareOutcome(d0: D.Rows, d: D.Rows, sid: string, plan: seq<B.PlannedBatch>, i: nat, sent: seq<nat>,
                       outcomes: seq<Outcome>)
    requires Progress(d0, d, sid, plan, i, sent, outcomes) && i < |plan| && Contiguous(plan)
    ensures var r := D.PrepareBatch(d, plan[i]);
            && (r.Ok? <==> Agrees(d0, plan, i))
            && (r.Err? ==> r.error == D.IntegrityError && Contradicts(d0, sid, plan))
            && (r.Ok? ==> (r.value.1 == D.AlreadyAccepted <==> i < D.Ensured(d0).nextBatch))
  {
    AgreementKept(d0, d, sid, plan, i, sent, outcomes);
    if D.PrepareBatch(d, plan[i]).Err? {
      PrepareFails(d0, d, sid, plan, i, sent, outcomes);
    } else {
      D.PrepareSafe(d, plan[i]);
    }
  }

  /** From the prepared row on: the window check, the call, and the acceptance in the fenced
      transaction number `n`. Only an accepted answer changes the rows. */
  method SendOne(repo: D.DeliveryRepository, sid: string, plan: seq<B.PlannedBatch>, i: nat, env: Environment, n: nat,
                 replay: D.Replay, ghost d0: D.Rows, ghost before: D.Rows, ghost sent: seq<nat>,
                 ghost outcomes: seq<Outcome>)
    returns (r: Result<Outcome, AppendError>, calls: seq<nat>)
    requires Contiguous(plan) && Sending(d0, repo.Now(), sid, plan, i) && replay == Replayed(d0, i)
    requires Progress(d0, before, sid, plan, i, sent, outcomes)
    modifies repo
    ensures calls == if env.window(i) == Open then [i] else []
    ensures r == if env.window(i) == Gone then Err(LeaseLost)
                 else if env.window(i) == TooShort then Err(WindowTooShort)
                 else if env.append(i).None? then Err(CallFailed)
                 else if !env.owned(n) then Err(LeaseLost)
                 else Ok(Outcome(i, plan[i].contentHash, replay, env.append(i)))
    ensures r.Err? ==> repo.Now() == old(repo.Now())
    ensures r.Ok? ==> D.Ordered(repo.Now()) && D.Grows(d0, repo.Now())
    ensures r.Ok? ==> i in repo.batches && D.SameBatch(repo.batches[i], plan[i])
    ensures r.Ok? ==> D.Ensured(repo.Now()).sessionStatus == env.append(i)
    ensures r.Ok? ==> Progress(d0, repo.Now(), sid, plan, i + 1, sent + [i], outcomes + [r.value])
  {
    ghost var middle := repo.Now();
    var window := env.window(i);
    if window != Open {
      return Err(if window == Gone then LeaseLost else WindowTooShort), [];
    }
    calls := [i];
    var reply := env.append(i);
    if reply.None? {
      return Err(CallFailed), calls;
    }
    if !env.owned(n) {
      return Err(LeaseLost), calls;
    }
    D.AcceptSucceeds(middle, plan[i], reply.value);
    var accepted := repo.Accept(plan[i], reply.value);
    TurnAccepted(d0, before, middle, repo.Now(), reply.value, sid, plan, i, sent, outcomes, replay);
    return Ok(Outcome(i, plan[i].contentHash, replay, reply)), calls;
  }

  /** One turn of the loop: `calls` is what it sent, and `n` the transactions committed so
      far. It ends well exactly if every check passes, calls exactly behind an open window,
      and moves the next index only for an answered call under a kept lease. */
  method DeliverOne(repo: D.DeliveryRepository, sid: string, plan: seq<B.PlannedBatch>, i: nat, env: Environment,
                    n: nat, ghost d0: D.Rows, ghost sent: seq<nat>, ghost outcomes: seq<Outcome>)
    returns (r: Result<Outcome, AppendError>, calls: seq<nat>)
    requires Contiguous(plan) && i < |plan| && Progress(d0, repo.Now(), sid, plan, i, sent, outcomes)
    requires n == Committed(D.Ensured(d0).nextBatch, i)
    modifies repo
    ensures D.Ordered(repo.Now()) && D.Grows(d0, repo.Now())
    ensures calls == if Calls(env, d0, plan, i) then [i] else []
    ensures r.Ok? <==> Passes(env, d0, plan, i)
    ensures r.Ok? ==> Progress(d0, repo.Now(), sid, plan, i + 1, sent + calls, outcomes + [r.value])
    ensures r.Ok? && calls != [] ==> r.value.status == D.Ensured(repo.Now()).sessionStatus == env.append(i)
    ensures r.Err? ==> FailsWith(env, d0, plan, i, r.error)
    ensures r.Err? ==> D.Ensured(repo.Now()).nextBatch == D.Ensured(old(repo.Now())).nextBatch
    // The row is durable before the call, and ACCEPTED only by a turn that ends well.
    ensures calls != [] ==> i in repo.batches && D.SameBatch(repo.batches[i], plan[i])
    ensures !env.owned(n) ==> repo.Now() == old(repo.Now())
    ensures r.Err? && r.error.Refused? ==> Contradicts(d0, sid, plan) && repo.Now() == old(repo.Now())
  {
    ghost var before := repo.Now();
    calls := [];
    if !env.owned(n) {
      return Err(LeaseLost), calls;
    }
    PrepareOutcome(d0, before, sid, plan, i, sent, outcomes);
    var prepared := repo.Prepare(plan[i]);
    if prepared.Err? {
      return Err(Refused(prepared.error)), calls;
    }
    if prepared.value == D.AlreadyAccepted {
      SkipProgress(d0, before, sid, plan, i, sent, outcomes);
      return Ok(Outcome(i, plan[i].contentHash, D.AlreadyAccepted, None)), calls;
    }
    ghost var middle := repo.Now();
    PreparedProgress(d0, before, middle, prepared.value, sid, plan, i, sent, outcomes);
    r, calls := SendOne(repo, sid, plan, i, env, n + 1, prepared.value, d0, before, sent, outcomes);
  }

  lemma SentRange(next: nat, i: nat, sent: seq<nat>, calls: seq<nat>)
    requires sent == Range(next, i) && (calls == [] || (calls == [i] && next <= i))
    ensures sent + calls == Range(next, i) || sent + calls == Range(next, i + 1)
  {
    if calls == [i] {
      assert sent + calls == Range(next, i + 1);
    } else {
      assert sent + calls == sent;
    }
  }

  lemma BindStarts(d0: D.Rows, d: D.Rows, sid: string, plan: seq<B.PlannedBatch>)
    requires D.Ordered(d0) && D.BindSession(d0, sid, None) == Ok(d)
    ensures Progress(d0, d, sid, plan, 0, [], [])
  {
    D.BindSafe(d0, sid, None);
  }

  /** The session can be bound: none is yet, or this one. */
  predicate Bindable(d: D.Rows, sid: string) {
    D.Ensured(d).sessionId.None? || D.Ensured(d).sessionId.value == sid
  }

  /** The turns before `i` end well. */
  ghost predicate PassesUpTo(env: Environment, d: D.Rows, plan: seq<B.PlannedBatch>, i: nat) {
    i <= |plan| && forall k :: 0 <= k < i ==> Passes(env, d, plan, k)
  }

  /** The delivery ended in turn `i`, the first that did not pass, having sent up to there. */
  ghost predicate EndedIn(env: Environment, d: D.Rows, plan: seq<B.PlannedBatch>, i: nat, e: AppendError,
                          sent: seq<nat>) {
    && i < |plan| && PassesUpTo(env, d, plan, i) && FailsWith(env, d, plan, i, e)
    && sent == Range(D.Ensured(d).nextBatch, if Calls(env, d, plan, i) then i + 1 else i)
  }

  /** Each answered call is reported with its answer. */
  ghost predicate Reported(env: Environment, next: nat, outcomes: seq<Outcome>) {
    forall k :: 0 <= k < |outcomes| ==> outcomes[k].status == if k < next then None else env.append(k)
  }

  ghost predicate AllOpen(env: Environment, sent: seq<nat>) {
    forall i :: i in sent ==> env.window(i) == Open
  }

  /** The loop before turn `i`. */
  ghost predicate Turned(env: Environment, d0: D.Rows, d: D.Rows, sid: string, plan: seq<B.PlannedBatch>, i: nat,
                         n: nat, sent: seq<nat>, outcomes: seq<Outcome>) {
    && Progress(d0, d, sid, plan, i, sent, outcomes) && n == Committed(D.Ensured(d0).nextBatch, i)
    && PassesUpTo(env, d0, plan, i) && Reported(env, D.Ensured(d0).nextBatch, outcomes) && AllOpen(env, sent)
  }

  lemma TurnedNext(env: Environment, d0: D.Rows, d: D.Rows, e: D.Rows, sid: string, plan: seq<B.PlannedBatch>, i: nat,
                   n: nat, sent: seq<nat>, outcomes: seq<Outcome>, outcome: Outcome, calls: seq<nat>)
    requires Turned(env, d0, d, sid, plan, i, n, sent, outcomes) && i < |plan| && Passes(env, d0, plan, i)
    requires calls == if Calls(env, d0, plan, i) then [i] else []
    requires Progress(d0, e, sid, plan, i + 1, sent + calls, outcomes + [outcome])
    requires calls != [] ==> outcome.status == env.append(i)
    ensures Turned(env, d0, e, sid, plan, i + 1, n + 1 + |calls|, sent + calls, outcomes + [outcome])
  {
    var all := outcomes + [outcome];
    assert all[i].status.Some? <==> i >= D.Ensured(d0).nextBatch;
    forall k | 0 <= k < |all| ensures all[k].status == if k < D.Ensured(d0).nextBatch then None else env.append(k) {
      if k < i {
        assert all[k] == outcomes[k];
      }
    }
  }

  lemma TurnEnded(env: Environment, d0: D.Rows, d: D.Rows, sid: string, plan: seq<B.PlannedBatch>, i: nat, n: nat,
                  sent: seq<nat>, outcomes: seq<Outcome>, e: AppendError, calls: seq<nat>)
    requires Turned(env, d0, d, sid, plan, i, n, sent, outcomes) && i < |plan| && FailsWith(env, d0, plan, i, e)
    requires calls == if Calls(env, d0, plan, i) then [i] else []
    ensures EndedIn(env, d0, plan, i, e, sent + calls) && AllOpen(env, sent + calls)
  {
    SentRange(D.Ensured(d0).nextBatch, i, sent, calls);
  }

  lemma EndedNotPassed(env: Environment, d: D.Rows, plan: seq<B.PlannedBatch>, i: nat, e: AppendError, sent: seq<nat>)
    requires EndedIn(env, d, plan, i, e, sent)
    ensures !PassesUpTo(env, d, plan, |plan|)
  {
    PassesOrFails(env, d, plan, i, e, e);
  }

  /** A delivery ends in one way: the turn, the error and what was sent are determined. */
  lemma EndIsUnique(env: Environment, d: D.Rows, plan: seq<B.PlannedBatch>, i: nat, e: AppendError, sent: seq<nat>,
                    j: nat, f: AppendError, other: seq<nat>)
    requires EndedIn(env, d, plan, i, e, sent) && EndedIn(env, d, plan, j, f, other)
    ensures i == j && e == f && sent == other
  {
    PassesOrFails(env, d, plan, i, e, f);
    PassesOrFails(env, d, plan, j, f, e);
  }

  lemma SmoothPasses(env: Environment, d: D.Rows, sid: string, plan: seq<B.PlannedBatch>)
    requires Smooth(env) && !Contradicts(d, sid, plan)
    ensures Bindable(d, sid) && PassesUpTo(env, d, plan, |plan|)
  {
    forall k | 0 <= k < |plan| ensures Passes(env, d, plan, k) {
      assert Agrees(d, plan, k);
    }
  }

  /** The turns of a bound session. */
  method DeliverTurns(repo: D.DeliveryRepository, sid: string, plan: seq<B.PlannedBatch>, env: Environment,
                      ghost d0: D.Rows)
    returns (r: Result<seq<Outcome>, AppendError>, sent: seq<nat>)
    requires Contiguous(plan) && Progress(d0, repo.Now(), sid, plan, 0, [], [])
    modifies repo
    ensures D.Ordered(repo.Now()) && D.Grows(d0, repo.Now())
    ensures r.Ok? <==> PassesUpTo(env, d0, plan, |plan|)
    ensures r.Ok? ==> Turned(env, d0, repo.Now(), sid, plan, |plan|, Committed(D.Ensured(d0).nextBatch, |plan|), sent,
                             r.value)
    ensures r.Err? ==> AllOpen(env, sent) && exists i: nat :: EndedIn(env, d0, plan, i, r.error, sent)
    ensures r.Err? && r.error.Refused? ==> r.error.error == D.IntegrityError && Contradicts(d0, sid, plan)
  {
    var outcomes: seq<Outcome> := [];
    var n: nat := 1;
    sent := [];
    for i := 0 to |plan|
      invariant Turned(env, d0, repo.Now(), sid, plan, i, n, sent, outcomes)
    {
      ghost var before := repo.Now();
      var outcome, calls := DeliverOne(repo, sid, plan, i, env, n, d0, sent, outcomes);
      if outcome.Err? {
        TurnEnded(env, d0, before, sid, plan, i, n, sent, outcomes, outcome.error, calls);
        EndedNotPassed(env, d0, plan, i, outcome.error, sent + calls);
        return Err(outcome.error), sent + calls;
      }
      TurnedNext(env, d0, before, repo.Now(), sid, plan, i, n, sent, outcomes, outcome.value, calls);
      n := n + 1 + |calls|;
      sent := sent + calls;
      outcomes := outcomes + [outcome.value];
    }
    return Ok(outcomes), sent;
  }

  /** Delivers the plan from wherever the rows stand. Every batch from the old next index on
      is sent once, in order, behind an open window, and nothing before it is sent again; each
      is ACCEPTED before the next is prepared. It ends well exactly if every check passes, and
      otherwise with the error of the first that fails. */
  method Deliver(repo: D.DeliveryRepository, sid: string, plan: seq<B.PlannedBatch>, env: Environment)
    returns (r: Result<seq<Outcome>, AppendError>, sent: seq<nat>)
    requires D.Ordered(repo.Now())
    modifies repo
    ensures D.Ordered(repo.Now()) && D.Grows(old(repo.Now()), repo.Now())
    ensures r == Err(NotContiguous) <==> !Contiguous(plan)
    ensures r.Ok? <==>
              plan == [] || (Contiguous(plan) && env.owned(0) && Bindable(old(repo.Now()), sid)
                             && PassesUpTo(env, old(repo.Now()), plan, |plan|))
    ensures r.Err? && Contiguous(plan) ==>
              if !env.owned(0) then r.error == LeaseLost && sent == []
              else if !Bindable(old(repo.Now()), sid) then r.error == Refused(D.IntegrityError) && sent == []
              else exists i: nat :: EndedIn(env, old(repo.Now()), plan, i, r.error, sent)
    ensures AllOpen(env, sent)
    ensures exists n: nat :: n <= |plan| && sent == Range(D.Ensured(old(repo.Now())).nextBatch, n)
    ensures r.Ok? && plan != [] ==> Progress(old(repo.Now()), repo.Now(), sid, plan, |plan|, sent, r.value)
    ensures r.Ok? ==> Reported(env, D.Ensured(old(repo.Now())).nextBatch, r.value)
    ensures r.Err? && r.error.Refused? ==> r.error.error == D.IntegrityError && Contradicts(old(repo.Now()), sid, plan)
    // With a kept lease, answered calls and agreeing rows nothing can go wrong.
    ensures Contiguous(plan) && !Contradicts(old(repo.Now()), sid, plan) && Smooth(env) ==> r.Ok?
  {
    ghost var d0 := repo.Now();
    sent := [];
    assert sent == Range(D.Ensured(d0).nextBatch, 0);
    GrowsReflexive(d0);
    if Smooth(env) && !Contradicts(d0, sid, plan) {
      SmoothPasses(env, d0, sid, plan);
    }
    if plan == [] {
      return Ok([]), sent;
    }
    if !Contiguous(plan) {
      return Err(NotContiguous), sent;
    }
    if !env.owned(0) {
      return Err(LeaseLost), sent;
    }
    var bound := repo.Bind(sid, None);
    if bound.Err? {
      return Err(Refused(bound.error)), sent;
    }
    BindStarts(d0, repo.Now(), sid, plan);
    r, sent := DeliverTurns(repo, sid, plan, env, d0);
  }
}
