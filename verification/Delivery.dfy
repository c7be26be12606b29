/** Durable delivery rows: the checkpoint of one job and its batch rows. */
module Delivery {
  import opened Base
  import B = Batching
  import P = Policy

  datatype BatchStatus = Prepared | Accepted
  datatype BatchRow = BatchRow(hash: string, blockCount: nat, serializedBytes: Option<nat>, status: BatchStatus)

  /** Fields written only under the lease fence, then the observational ones. */
  datatype Checkpoint = Checkpoint(sessionId: Option<string>, nextBatch: nat, lastAccepted: Option<nat>,
                                   compatibility: Option<string>, finalHash: Option<string>, zone: Option<string>,
                                   sessionStatus: Option<string>, vector: Option<P.VectorStatus>)

  datatype Rows = Rows(checkpoint: Option<Checkpoint>, batches: map<nat, BatchRow>)

  datatype DeliveryError = IntegrityError | SequenceError

  datatype Replay = Send | ReplayPending | AlreadyAccepted

  const EMPTY := Checkpoint(None, 0, None, None, None, None, None, None)

  // ---------------------------------------------------------------- transactions

  function Ensured(d: Rows): Checkpoint {
    if d.checkpoint.Some? then d.checkpoint.value else EMPTY
  }

  function BindSession(d: Rows, sid: string, raw: Option<string>): Result<Rows, DeliveryError> {
    var c := Ensured(d);
    if c.sessionId.Some? && c.sessionId.value != sid then Err(IntegrityError)
    else Ok(d.(checkpoint := Some(c.(sessionId := Some(sid), sessionStatus := if raw.Some? then raw
                                                                              else c.sessionStatus))))
  }

  predicate SameBatch(row: BatchRow, batch: B.PlannedBatch) {
    && row.hash == batch.contentHash && row.blockCount == |batch.blocks|
    && (row.serializedBytes.Some? ==> row.serializedBytes.value == batch.serializedBytes)
  }

  function RowFor(batch: B.PlannedBatch, status: BatchStatus): BatchRow {
    BatchRow(batch.contentHash, |batch.blocks|, Some(batch.serializedBytes), status)
  }

  function PrepareBatch(d: Rows, batch: B.PlannedBatch): Result<(Rows, Replay), DeliveryError> {
    if d.checkpoint.None? || d.checkpoint.value.sessionId.None? then Err(SequenceError)
    else
      var next, i := d.checkpoint.value.nextBatch, batch.batchIndex;
      if i in d.batches then
        if !SameBatch(d.batches[i], batch) then Err(IntegrityError)
        else if d.batches[i].status == Accepted then
          if next < i + 1 then Err(IntegrityError) else Ok((d, AlreadyAccepted))
        else if next != i then Err(IntegrityError)
        else Ok((d, ReplayPending))
      else if i != next then Err(SequenceError)
      else Ok((d.(batches := d.batches[i := RowFor(batch, Prepared)]), Send))
  }

  function MarkAccepted(d: Rows, batch: B.PlannedBatch, raw: string): Result<Rows, DeliveryError> {
    if d.checkpoint.None? then Err(SequenceError)
    else
      var c, i := d.checkpoint.value, batch.batchIndex;
      if i !in d.batches then Err(SequenceError)
      else if !SameBatch(d.batches[i], batch) then Err(IntegrityError)
      else if d.batches[i].status == Accepted then
        if c.nextBatch < i + 1 then Err(IntegrityError) else Ok(d)
      else if c.nextBatch != i then Err(SequenceError)
      else Ok(Rows(Some(c.(lastAccepted := Some(i), nextBatch := i + 1, sessionStatus := Some(raw))),
                   d.batches[i := d.batches[i].(status := Accepted)]))
  }

  function SaveCompatibility(d: Rows, fingerprint: string): Result<Rows, DeliveryError> {
    var c := Ensured(d);
    if c.compatibility.Some? && c.compatibility.value != fingerprint then Err(IntegrityError)
    else Ok(d.(checkpoint := Some(c.(compatibility := Some(fingerprint)))))
  }

  function SaveFinalHash(d: Rows, sid: string, hash: string): Result<Rows, DeliveryError> {
    if d.checkpoint.None? || d.checkpoint.value.sessionId != Some(sid) then Err(IntegrityError)
    else
      var c := d.checkpoint.value;
      if c.finalHash.Some? && c.finalHash.value != hash then Err(IntegrityError)
      else Ok(d.(checkpoint := Some(c.(finalHash := Some(hash)))))
  }

  function SaveZone(d: Rows, sid: string, zone: string): Result<Rows, DeliveryError> {
    if d.checkpoint.None? || d.checkpoint.value.sessionId != Some(sid) then Err(IntegrityError)
    else
      var c := d.checkpoint.value;
      if c.zone.Some? && c.zone.value != zone then Err(IntegrityError)
      else Ok(d.(checkpoint := Some(c.(zone := Some(zone)))))
  }

  /** Unfenced observation of the ingestion session. */
  function RecordSessionStatus(d: Rows, sid: string, raw: string): Result<Rows, DeliveryError> {
    if d.checkpoint.None? then Err(SequenceError)
    else if d.checkpoint.value.sessionId != Some(sid) then Err(IntegrityError)
    else Ok(d.(checkpoint := Some(d.checkpoint.value.(sessionStatus := Some(raw)))))
  }

  /** Unfenced observation of the vector status. */
  function RecordVectorStatus(d: Rows, v: P.VectorStatus): Result<Rows, DeliveryError> {
    if d.checkpoint.None? then Err(SequenceError)
    else Ok(d.(checkpoint := Some(d.checkpoint.value.(vector := Some(v)))))
  }

  // ---------------------------------------------------------------- invariant and growth

  /** Rows 0..next-1 are ACCEPTED, at most row `next` is PREPARED, nothing else exists, and
      rows exist only once a session is bound. */
  ghost predicate Ordered(d: Rows) {
    var c := Ensured(d);
    && (d.checkpoint.None? ==> d.batches == map[])
    && (forall i: nat :: i < c.nextBatch ==> i in d.batches && d.batches[i].status == Accepted)
    && (forall i :: i in d.batches ==> i <= c.nextBatch)
    && (c.nextBatch in d.batches ==> d.batches[c.nextBatch].status == Prepared)
    && (d.batches != map[] ==> c.sessionId.Some?)
  }

  ghost predicate Kept<T>(a: Option<T>, b: Option<T>) {
    a.Some? ==> b == a
  }

  /** Every durable fact of `d` is still a fact of `e`: write-once fields keep their values,
      batch rows keep their content, ACCEPTED stays ACCEPTED, next never moves back. */
  ghost predicate Grows(d: Rows, e: Rows) {
    var c, k := Ensured(d), Ensured(e);
    && (d.checkpoint.Some? ==> e.checkpoint.Some?)
    && Kept(c.sessionId, k.sessionId) && Kept(c.compatibility, k.compatibility)
    && Kept(c.finalHash, k.finalHash) && Kept(c.zone, k.zone)
    && c.nextBatch <= k.nextBatch
    && (forall i :: i in d.batches ==>
          && i in e.batches
          && e.batches[i].(status := Prepared) == d.batches[i].(status := Prepared)
          && (d.batches[i].status == Accepted ==> e.batches[i].status == Accepted))
  }

  /** The fenced part of the rows. */
  function Fenced(d: Rows): Rows {
    d.(checkpoint := if d.checkpoint.None? then None
                     else Some(d.checkpoint.value.(sessionStatus := None, vector := None)))
  }

  lemma GrowsTransitive(a: Rows, b: Rows, c: Rows)
    requires Grows(a, b) && Grows(b, c)
    ensures Grows(a, c)
  {
  }

  lemma BindSafe(d: Rows, sid: string, raw: Option<string>)
    requires Ordered(d) && BindSession(d, sid, raw).Ok?
    ensures var e := BindSession(d, sid, raw).value;
            Ordered(e) && Grows(d, e) && Ensured(e).sessionId == Some(sid) && e.batches == d.batches
  {
  }

  lemma PrepareSafe(d: Rows, batch: B.PlannedBatch)
    requires Ordered(d) && PrepareBatch(d, batch).Ok?
    ensures var (e, replay) := PrepareBatch(d, batch).value;
            && Ordered(e) && Grows(d, e) && e.checkpoint == d.checkpoint
            && batch.batchIndex in e.batches && SameBatch(e.batches[batch.batchIndex], batch)
            && (replay == AlreadyAccepted <==> batch.batchIndex < Ensured(d).nextBatch)
            && (replay != AlreadyAccepted ==> batch.batchIndex == Ensured(d).nextBatch)
            && (replay == Send <==> batch.batchIndex !in d.batches)
            && e.batches.Keys == d.batches.Keys + {batch.batchIndex}
  {
  }

  lemma AcceptSafe(d: Rows, batch: B.PlannedBatch, raw: string)
    requires Ordered(d) && MarkAccepted(d, batch, raw).Ok?
    ensures var e := MarkAccepted(d, batch, raw).value;
            && Ordered(e) && Grows(d, e) && Ensured(e).nextBatch > batch.batchIndex
            && (Ensured(e).nextBatch == Ensured(d).nextBatch || Ensured(d).nextBatch == batch.batchIndex)
            && Ensured(e).nextBatch <= Ensured(d).nextBatch + 1
            && batch.batchIndex in e.batches && SameBatch(e.batches[batch.batchIndex], batch)
            && e.batches.Keys == d.batches.Keys && Ensured(e).sessionId == Ensured(d).sessionId
  {
  }

  /** In an ordered state neither operation can fail on a batch that agrees with its row. */
  lemma PrepareSucceeds(d: Rows, batch: B.PlannedBatch)
    requires Ordered(d) && Ensured(d).sessionId.Some? && batch.batchIndex <= Ensured(d).nextBatch
    requires batch.batchIndex in d.batches ==> SameBatch(d.batches[batch.batchIndex], batch)
    ensures d.checkpoint.Some? && PrepareBatch(d, batch).Ok?
  {
  }

  lemma AcceptSucceeds(d: Rows, batch: B.PlannedBatch, raw: string)
    requires Ordered(d) && batch.batchIndex in d.batches && SameBatch(d.batches[batch.batchIndex], batch)
    ensures MarkAccepted(d, batch, raw).Ok?
  {
  }

  /** The row agrees with the batch: hash, block count and, if recorded, length. */
  predicate AgreesWith(d: Rows, batch: B.PlannedBatch) {
    batch.batchIndex in d.batches ==>
      var row := d.batches[batch.batchIndex];
      && row.hash == batch.contentHash && row.blockCount == |batch.blocks|
      && row.serializedBytes in {None, Some(batch.serializedBytes)}
  }

  /** In an ordered state a bound session takes every batch up to the next one, unless its row
      says otherwise; an acceptance needs its row. */
  lemma OutcomesExactly(d: Rows, batch: B.PlannedBatch, raw: string)
    requires Ordered(d)
    ensures var r, bound := PrepareBatch(d, batch), Ensured(d).sessionId.Some?;
            && (r.Ok? <==> bound && batch.batchIndex <= Ensured(d).nextBatch && AgreesWith(d, batch))
            && (r == Err(SequenceError) <==> !bound || batch.batchIndex > Ensured(d).nextBatch)
    ensures var r := MarkAccepted(d, batch, raw);
            && (r.Ok? <==> batch.batchIndex in d.batches && AgreesWith(d, batch))
            && (r == Err(SequenceError) <==> batch.batchIndex !in d.batches)
  {
  }

  /** Preparing adds at most the row of the next batch, accepting changes at most that row
      and moves on behind it. */
  lemma EffectsExactly(d: Rows, batch: B.PlannedBatch, raw: string)
    requires Ordered(d)
    ensures var r, i := PrepareBatch(d, batch), batch.batchIndex;
            r.Ok? ==> r.value.0 == if i in d.batches then d
                                   else d.(batches := d.batches[i := BatchRow(batch.contentHash, |batch.blocks|,
                                                                              Some(batch.serializedBytes), Prepared)])
    ensures var r, i := MarkAccepted(d, batch, raw), batch.batchIndex;
            r.Ok? ==> if i < Ensured(d).nextBatch then r.value == d
                      else && r.value.batches == d.batches[i := d.batches[i].(status := Accepted)]
                           && r.value.checkpoint == Some(Ensured(d).(nextBatch := i + 1, lastAccepted := Some(i),
                                                                     sessionStatus := Some(raw)))
  {
  }

  // ---------------------------------------------------------------- the repository

  /** The rows updated in place by the repository's transactions. */
  class DeliveryRepository {
    var checkpoint: Option<Checkpoint>
    var batches: map<nat, BatchRow>

    ghost function Now(): Rows reads this { Rows(checkpoint, batches) }

    constructor ()
      ensures Ordered(Now()) && Now() == Rows(None, map[])
    {
      checkpoint, batches := None, map[];
    }

    method Bind(sid: string, raw: Option<string>) returns (r: Result<(), DeliveryError>)
      requires Ordered(Now())
      modifies this
      ensures Ordered(Now()) && Grows(old(Now()), Now())
      ensures r.Ok? <==> BindSession(old(Now()), sid, raw).Ok?
      ensures r.Ok? ==> Now() == BindSession(old(Now()), sid, raw).value
      ensures r.Err? ==> Now() == old(Now()) && r.error == BindSession(old(Now()), sid, raw).error
    {
      var c := if checkpoint.None? then EMPTY.(sessionId := Some(sid), sessionStatus := raw) else checkpoint.value;
      if c.sessionId.None? {
        c := c.(sessionId := Some(sid));
      } else if c.sessionId.value != sid {
        return Err(IntegrityError);
      }
      if raw.Some? {
        c := c.(sessionStatus := raw);
      }
      checkpoint := Some(c);
      return Ok(());
    }

    method Prepare(batch: B.PlannedBatch) returns (r: Result<Replay, DeliveryError>)
      requires Ordered(Now())
      modifies this
      ensures Ordered(Now()) && Grows(old(Now()), Now())
      ensures r.Ok? <==> PrepareBatch(old(Now()), batch).Ok?
      ensures r.Ok? ==> PrepareBatch(old(Now()), batch).value == (Now(), r.value)
      ensures r.Err? ==> Now() == old(Now()) && r.error == PrepareBatch(old(Now()), batch).error
    {
      if PrepareBatch(Now(), batch).Ok? {
        PrepareSafe(Now(), batch);
      }
      if checkpoint.None? || checkpoint.value.sessionId.None? {
        return Err(SequenceError);
      }
      var i := batch.batchIndex;
      if i in batches {
        var existing := batches[i];
        if !SameBatch(existing, batch) {
          return Err(IntegrityError);
        }
        if existing.status == Accepted {
          if checkpoint.value.nextBatch < i + 1 {
            return Err(IntegrityError);
          }
          return Ok(AlreadyAccepted);
        }
        if checkpoint.value.nextBatch != i {
          return Err(IntegrityError);
        }
        return Ok(ReplayPending);
      }
      if i != checkpoint.value.nextBatch {
        return Err(SequenceError);
      }
      batches := batches[i := RowFor(batch, Prepared)];
      return Ok(Send);
    }

    method Accept(batch: B.PlannedBatch, raw: string) returns (r: Result<(), DeliveryError>)
      requires Ordered(Now())
      modifies this
      ensures Ordered(Now()) && Grows(old(Now()), Now())
      ensures r.Ok? <==> MarkAccepted(old(Now()), batch, raw).Ok?
      ensures r.Ok? ==> Now() == MarkAccepted(old(Now()), batch, raw).value
      ensures r.Err? ==> Now() == old(Now()) && r.error == MarkAccepted(old(Now()), batch, raw).error
    {
      if MarkAccepted(Now(), batch, raw).Ok? {
        AcceptSafe(Now(), batch, raw);
      }
      if checkpoint.None? {
        return Err(SequenceError);
      }
      var i := batch.batchIndex;
      if i !in batches {
        return Err(SequenceError);
      }
      if !SameBatch(batches[i], batch) {
        return Err(IntegrityError);
      }
      if batches[i].status == Accepted {
        if checkpoint.value.nextBatch < i + 1 {
          return Err(IntegrityError);
        }
        return Ok(());
      }
      if checkpoint.value.nextBatch != i {
        return Err(SequenceError);
      }
      batches := batches[i := batches[i].(status := Accepted)];
      checkpoint := Some(checkpoint.value.(lastAccepted := Some(i), nextBatch := i + 1, sessionStatus := Some(raw)));
      return Ok(());
    }
  }
}
