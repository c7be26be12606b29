/** One publication against the object store: parts first, the manifest last, each put only if
    absent and under a lease check. */
module Publisher {
  import opened Base
  import A = Artifacts
  import opened ArtifactStore

  datatype PublishError = InvalidLimits | TooLarge | LeaseLost | Conflict

  class ObjectStore {
    var objects: map<Key, A.Bytes>

    constructor ()
      ensures objects == map[]
    {
      objects := map[];
    }

    method PutIfAbsent(key: Key, data: A.Bytes) returns (created: bool)
      modifies this
      ensures created <==> key !in old(objects)
      ensures objects == PutOne(old(objects), Write(key, data))
    {
      if key in objects {
        return false;
      }
      objects := objects[key := data];
      return true;
    }

    /** False is the publication conflict: other bytes are stored under this key. */
    method PutImmutable(key: Key, data: A.Bytes) returns (ok: bool)
      modifies this
      ensures ok <==> key !in old(objects) || old(objects)[key] == data
      ensures objects == PutOne(old(objects), Write(key, data))
    {
      var created := PutIfAbsent(key, data);
      ok := created || objects[key] == data;
    }
  }

  /** A stored object never changes. */
  function PutOne(objects: map<Key, A.Bytes>, w: Write): map<Key, A.Bytes> {
    if w.key in objects then objects else objects[w.key := w.data]
  }

  function PutAll(objects: map<Key, A.Bytes>, ws: seq<Write>): map<Key, A.Bytes> {
    if ws == [] then objects else PutOne(PutAll(objects, ws[..|ws| - 1]), ws[|ws| - 1])
  }

  lemma {:induction false} PutAllKeeps(objects: map<Key, A.Bytes>, ws: seq<Write>)
    ensures forall key :: key in objects ==> key in PutAll(objects, ws) && PutAll(objects, ws)[key] == objects[key]
    ensures forall i :: 0 <= i < |ws| ==> ws[i].key in PutAll(objects, ws)
  {
    if ws != [] {
      PutAllKeeps(objects, ws[..|ws| - 1]);
    }
  }

  /** Object `i` of this publication is stored with other bytes. */
  ghost predicate ClashAt(k: Canon, p: Publication, objects: map<Key, A.Bytes>, i: nat)
    requires i < |Writes(k, p)|
  {
    Writes(k, p)[i].key in objects && objects[Writes(k, p)[i].key] != Writes(k, p)[i].data
  }

  /** Some object of this publication is stored with other bytes. */
  ghost predicate Clashes(k: Canon, p: Publication, objects: map<Key, A.Bytes>) {
    exists i: nat :: i < |Writes(k, p)| && ClashAt(k, p, objects, i)
  }

  /** The first `n` puts find the lease held and the store free of other bytes. */
  ghost predicate GoesTo(k: Canon, p: Publication, objects: map<Key, A.Bytes>, leaseHeld: nat -> bool, n: nat) {
    n <= |Writes(k, p)| && forall i: nat :: i < n ==> leaseHeld(i) && !ClashAt(k, p, objects, i)
  }

  ghost predicate Encodable(k: Canon, p: Publication) {
    forall r :: (r in p.elements || r in p.fragments) ==> |A.Line(k.codec, r)| <= p.maxBytes
  }

  lemma EncodableFits(k: Canon, p: Publication)
    ensures Encodable(k, p) <==> A.AllFit(k.codec, p.elements, p.maxBytes) && A.AllFit(k.codec, p.fragments, p.maxBytes)
  {
    if A.AllFit(k.codec, p.elements, p.maxBytes) && A.AllFit(k.codec, p.fragments, p.maxBytes) {
      forall r | r in p.elements || r in p.fragments ensures |A.Line(k.codec, r)| <= p.maxBytes {
        if r in p.elements {
          var i :| 0 <= i < |p.elements| && p.elements[i] == r;
        } else {
          var i :| 0 <= i < |p.fragments| && p.fragments[i] == r;
        }
      }
    }
  }

  method EncodeParts(k: Canon, p: Publication) returns (r: Option<seq<A.Encoded>>)
    requires p.maxRecords > 0 && p.maxBytes > 0
    ensures r == if Encodable(k, p) then Some(Encoded(k, p)) else None
  {
    EncodableFits(k, p);
    var es := A.EncodePartitioned(k.codec, k.sha, A.Elements, p.elements, p.maxRecords, p.maxBytes);
    if es.Err? {
      return None;
    }
    var fs := A.EncodePartitioned(k.codec, k.sha, A.Fragments, p.fragments, p.maxRecords, p.maxBytes);
    if fs.Err? {
      return None;
    }
    return Some(es.value + fs.value);
  }

  /** The objects of different files of one publication have different keys. */
  lemma KeysDistinct(k: Canon, p: Publication, i: nat, j: nat)
    requires i < j < |Writes(k, p)|
    ensures Writes(k, p)[i].key != Writes(k, p)[j].key
  {
    var n := |Encoded(k, p)|;
    if j < n && Writes(k, p)[i].key == Writes(k, p)[j].key {
      PathsDistinct(k, p, i, j);
    }
  }

  lemma {:induction false} NotYetPut(k: Canon, p: Publication, objects: map<Key, A.Bytes>, n: nat, m: nat)
    requires n <= m < |Writes(k, p)|
    ensures Writes(k, p)[m].key in PutAll(objects, Writes(k, p)[..n]) ==> Writes(k, p)[m].key in objects
  {
    if n > 0 {
      assert Writes(k, p)[..n][..n - 1] == Writes(k, p)[..n - 1];
      NotYetPut(k, p, objects, n - 1, m);
      KeysDistinct(k, p, n - 1, m);
    }
  }

  ghost predicate AllStored(k: Canon, p: Publication, objects: map<Key, A.Bytes>) {
    forall i :: 0 <= i < |Writes(k, p)|
      ==> Writes(k, p)[i].key in objects && objects[Writes(k, p)[i].key] == Writes(k, p)[i].data
  }

  /** The first `n` objects are in place, and nothing else was touched. */
  ghost predicate PutSoFar(k: Canon, p: Publication, before: map<Key, A.Bytes>, now: map<Key, A.Bytes>, n: nat) {
    && n <= |Writes(k, p)| && now == PutAll(before, Writes(k, p)[..n])
    && forall i :: 0 <= i < n ==> Writes(k, p)[i].key in now && now[Writes(k, p)[i].key] == Writes(k, p)[i].data
  }

  /** What the next put finds: nothing, or what was there before. */
  lemma PutFinds(k: Canon, p: Publication, before: map<Key, A.Bytes>, now: map<Key, A.Bytes>, n: nat)
    requires PutSoFar(k, p, before, now, n) && n < |Writes(k, p)|
    ensures ClashAt(k, p, now, n) <==> ClashAt(k, p, before, n)
  {
    var ws := Writes(k, p);
    PutAllKeeps(before, ws[..n]);
    if ws[n].key in now {
      NotYetPut(k, p, before, n, n);
    }
  }

  lemma PutNext(k: Canon, p: Publication, before: map<Key, A.Bytes>, now: map<Key, A.Bytes>, n: nat)
    requires PutSoFar(k, p, before, now, n) && n < |Writes(k, p)|
    ensures var w := Writes(k, p)[n];
            && PutOne(now, w) == PutAll(before, Writes(k, p)[..n + 1])
            && (!ClashAt(k, p, now, n) ==> PutSoFar(k, p, before, PutOne(now, w), n + 1))
  {
    var ws := Writes(k, p);
    assert ws[..n + 1][..n] == ws[..n];
  }

  /** The put of object `n` under a held lease: it goes on, or it is the first conflict. */
  lemma PutStep(k: Canon, p: Publication, before: map<Key, A.Bytes>, now: map<Key, A.Bytes>, leaseHeld: nat -> bool,
                n: nat)
    requires PutSoFar(k, p, before, now, n) && GoesTo(k, p, before, leaseHeld, n)
    requires n < |Writes(k, p)| && leaseHeld(n)
    ensures var w := Writes(k, p)[n];
            && PutOne(now, w) == PutAll(before, Writes(k, p)[..n + 1])
            && if ClashAt(k, p, now, n) then ClashAt(k, p, before, n)
               else PutSoFar(k, p, before, PutOne(now, w), n + 1) && GoesTo(k, p, before, leaseHeld, n + 1)
  {
    PutFinds(k, p, before, now, n);
    PutNext(k, p, before, now, n);
  }

  /** Publishes, or stops having written a prefix of its objects in order, each under a held
      lease: the manifest is there only after all parts. It succeeds exactly when the lease is
      held at every put and the store holds no other bytes; otherwise it stops at the first put
      that fails, without the lease or because other bytes were there before. */
  method Publish(store: ObjectStore, k: Canon, p: Publication, leaseHeld: nat -> bool)
    returns (r: Result<Manifest, PublishError>, ghost done: nat)
    modifies store
    ensures done <= |Writes(k, p)| && store.objects == PutAll(old(store.objects), Writes(k, p)[..done])
    ensures r == Err(InvalidLimits) <==> p.maxRecords == 0 || p.maxBytes == 0
    ensures r == Err(TooLarge) <==> p.maxRecords > 0 && p.maxBytes > 0 && !Encodable(k, p)
    ensures r == Err(InvalidLimits) || r == Err(TooLarge) ==> done == 0
    ensures r.Ok? ==>
              done == |Writes(k, p)| && AllStored(k, p, store.objects) && r.value == ManifestOf(k, p, Encoded(k, p))
    ensures r.Ok? <==> p.maxRecords > 0 && p.maxBytes > 0 && Encodable(k, p)
                       && GoesTo(k, p, old(store.objects), leaseHeld, |Writes(k, p)|)
    ensures r == Err(LeaseLost) ==>
              done < |Writes(k, p)| && GoesTo(k, p, old(store.objects), leaseHeld, done) && !leaseHeld(done)
    ensures r == Err(Conflict) ==>
              done > 0 && GoesTo(k, p, old(store.objects), leaseHeld, done - 1) && leaseHeld(done - 1)
              && ClashAt(k, p, old(store.objects), done - 1)
  {
    done := 0;
    if p.maxRecords == 0 || p.maxBytes == 0 {
      return Err(InvalidLimits), done;
    }
    var encoded := EncodeParts(k, p);
    if encoded.None? {
      return Err(TooLarge), done;
    }
    var manifest := ManifestOf(k, p, encoded.value);
    var failure;
    failure, done := PutObjects(store, k, p, WritesOf(k, p, encoded.value), leaseHeld);
    if failure.Some? {
      return Err(failure.value), done;
    }
    return Ok(manifest), done;
  }

  method PutObjects(store: ObjectStore, ghost k: Canon, ghost p: Publication, writes: seq<Write>,
                    leaseHeld: nat -> bool)
    returns (failure: Option<PublishError>, ghost done: nat)
    requires writes == Writes(k, p)
    modifies store
    ensures done <= |writes| && store.objects == PutAll(old(store.objects), writes[..done])
    ensures failure.None? ==> done == |writes| && AllStored(k, p, store.objects)
    ensures failure.Some? ==> failure.value == Conflict || failure.value == LeaseLost
    ensures failure.None? <==> GoesTo(k, p, old(store.objects), leaseHeld, |writes|)
    ensures failure == Some(LeaseLost) ==>
              done < |writes| && GoesTo(k, p, old(store.objects), leaseHeld, done) && !leaseHeld(done)
    ensures failure == Some(Conflict) ==>
              done > 0 && GoesTo(k, p, old(store.objects), leaseHeld, done - 1) && leaseHeld(done - 1)
              && ClashAt(k, p, old(store.objects), done - 1)
  {
    ghost var before := store.objects;
    var i: nat := 0;
    done := 0;
    while i < |writes|
      invariant i == done <= |writes| && PutSoFar(k, p, before, store.objects, i)
      invariant GoesTo(k, p, before, leaseHeld, i)
      decreases |writes| - i
    {
      if !leaseHeld(i) {
        return Some(LeaseLost), done;
      }
      PutStep(k, p, before, store.objects, leaseHeld, i);
      var ok := store.PutImmutable(writes[i].key, writes[i].data);
      i, done := i + 1, done + 1;
      if !ok {
        return Some(Conflict), done;
      }
    }
    return None, done;
  }

  /** Publishing the same content again changes nothing. */
  lemma {:induction false} RepublishIdle(k: Canon, p: Publication, objects: map<Key, A.Bytes>, n: nat)
    requires AllStored(k, p, objects) && n <= |Writes(k, p)|
    ensures PutAll(objects, Writes(k, p)[..n]) == objects
  {
    if n > 0 {
      RepublishIdle(k, p, objects, n - 1);
      assert Writes(k, p)[..n][..n - 1] == Writes(k, p)[..n - 1];
    }
  }

  /** A publication creates no conflict for any other, so into a store filled by publications
      none ever conflicts. */
  lemma NoClash(k: Canon, p: Publication, q: Publication, objects: map<Key, A.Bytes>)
    requires Ideal(k) && !Clashes(k, p, objects)
    ensures !Clashes(k, p, PutAll(objects, Writes(k, q)))
  {
    NoClashPrefix(k, p, q, objects, |Writes(k, q)|);
    assert Writes(k, q)[..|Writes(k, q)|] == Writes(k, q);
  }

  lemma {:induction false} NoClashPrefix(k: Canon, p: Publication, q: Publication, objects: map<Key, A.Bytes>, n: nat)
    requires Ideal(k) && !Clashes(k, p, objects) && n <= |Writes(k, q)|
    ensures !Clashes(k, p, PutAll(objects, Writes(k, q)[..n]))
  {
    if n > 0 {
      NoClashPrefix(k, p, q, objects, n - 1);
      assert Writes(k, q)[..n][..n - 1] == Writes(k, q)[..n - 1];
      NoClashOne(k, p, q, PutAll(objects, Writes(k, q)[..n - 1]), n - 1);
    }
  }

  lemma NoClashOne(k: Canon, p: Publication, q: Publication, now: map<Key, A.Bytes>, j: nat)
    requires Ideal(k) && !Clashes(k, p, now) && j < |Writes(k, q)|
    ensures !Clashes(k, p, PutOne(now, Writes(k, q)[j]))
  {
    var w := Writes(k, q)[j];
    forall i: nat | i < |Writes(k, p)| && Writes(k, p)[i].key in PutOne(now, w)
      ensures !ClashAt(k, p, PutOne(now, w), i)
    {
      assert !ClashAt(k, p, now, i);
      if Writes(k, p)[i].key !in now {
        SameKeySameBytes(k, p, q, i, j);
      }
    }
  }
}
