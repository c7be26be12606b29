/** Progress of the interleaved publishers: stored objects stay as they are, a publisher that
    keeps being scheduled finishes, and what it published loads back from the shared store. */
module Publishing {
  import opened Base
  import opened ArtifactStore
  import A = Artifacts

  // ---------------------------------------------------------------- stored objects stay

  lemma StepKeepsObjects(k: Canon, pubs: seq<Publication>, s: State, p: nat, key: Key)
    requires Ideal(k) && Inv(k, pubs, s) && key in s.store
    ensures var s' := Step(k, pubs, s, p); key in s'.store && s'.store[key] == s.store[key]
  {
    StepShape(k, pubs, s, p);
    var s' := Step(k, pubs, s, p);
    if s'.store != s.store && key == Writes(k, pubs[p])[s.at[p].next].key {
      assert Stored(k, pubs, s, p, s.at[p].next);
    }
  }

  lemma {:induction false} RunFrom(k: Canon, pubs: seq<Publication>, s: State, a: seq<nat>, b: seq<nat>)
    ensures Run(k, pubs, s, a + b) == Run(k, pubs, Run(k, pubs, s, a), b)
  {
    if b == [] {
      assert a + b == a;
    } else {
      RunFrom(k, pubs, s, a, b[..|b| - 1]);
      assert (a + b)[..|a + b| - 1] == a + b[..|b| - 1];
    }
  }

  /** Once stored, an object never changes, whatever the publishers go on to do. */
  lemma {:induction false} ObjectsNeverChange(k: Canon, pubs: seq<Publication>, s: State, more: seq<nat>, key: Key)
    requires Ideal(k) && Inv(k, pubs, s) && key in s.store
    ensures var s' := Run(k, pubs, s, more); Inv(k, pubs, s') && key in s'.store && s'.store[key] == s.store[key]
  {
    if more != [] {
      var n := |more| - 1;
      ObjectsNeverChange(k, pubs, s, more[..n], key);
      StepInv(k, pubs, Run(k, pubs, s, more[..n]), more[n]);
      StepKeepsObjects(k, pubs, Run(k, pubs, s, more[..n]), more[n], key);
    }
  }

  // ---------------------------------------------------------------- progress

  /** How often publisher `p` gets to make a request. */
  function Turns(schedule: seq<nat>, p: nat): nat {
    if schedule == [] then 0
    else Turns(schedule[..|schedule| - 1], p) + if schedule[|schedule| - 1] == p then 1 else 0
  }

  /** An upper bound on the requests publisher `p` still has to make. */
  ghost function Left(k: Canon, pubs: seq<Publication>, s: State, p: nat): int
    requires p < |pubs| && p < |s.at|
  {
    2 * (|Writes(k, pubs[p])| - s.at[p].next) - if s.at[p].phase == Checking then 0 else 1
  }

  /** Each request of a publisher that is not done brings it one nearer. */
  lemma StepProgress(k: Canon, pubs: seq<Publication>, s: State, q: nat, p: nat)
    requires Inv(k, pubs, s) && p < |pubs|
    ensures |Step(k, pubs, s, q).at| == |s.at|
    ensures var left, left' := Left(k, pubs, s, p), Left(k, pubs, Step(k, pubs, s, q), p);
            if q == p && s.at[p].next < |Writes(k, pubs[p])| then left' < left else left' == left
  {
    StepShape(k, pubs, s, q);
    assert Placed(k, pubs, s, p);
    if q == p && s.at[p].next < |Writes(k, pubs[p])| && s.at[p].phase == Comparing {
      assert Stored(k, pubs, s, p, s.at[p].next);
    }
  }

  lemma {:induction false} RunProgress(k: Canon, pubs: seq<Publication>, schedule: seq<nat>, p: nat)
    requires Ideal(k) && p < |pubs|
    ensures var s := Run(k, pubs, Init(|pubs|), schedule);
            && Inv(k, pubs, s)
            && (s.at[p].next == |Writes(k, pubs[p])|
                || Left(k, pubs, s, p) <= 2 * |Writes(k, pubs[p])| - Turns(schedule, p))
  {
    RunInv(k, pubs, schedule);
    if schedule != [] {
      var n := |schedule| - 1;
      var before := Run(k, pubs, Init(|pubs|), schedule[..n]);
      RunProgress(k, pubs, schedule[..n], p);
      assert Placed(k, pubs, before, p);
      StepProgress(k, pubs, before, schedule[n], p);
    }
  }

  /** Every object of `p` is in the store, with its own bytes. */
  ghost predicate Published(k: Canon, p: Publication, store: map<Key, A.Bytes>) {
    forall i :: 0 <= i < |Writes(k, p)| ==>
      Writes(k, p)[i].key in store && store[Writes(k, p)[i].key] == Writes(k, p)[i].data
  }

  /** A publisher scheduled twice for each of its objects has finished, whatever the others do
      and wherever they stop. */
  lemma PublisherFinishes(k: Canon, pubs: seq<Publication>, schedule: seq<nat>, p: nat)
    requires Ideal(k) && p < |pubs| && Turns(schedule, p) >= 2 * |Writes(k, pubs[p])|
    ensures Published(k, pubs[p], Run(k, pubs, Init(|pubs|), schedule).store)
  {
    RunProgress(k, pubs, schedule, p);
    var s := Run(k, pubs, Init(|pubs|), schedule);
    assert Placed(k, pubs, s, p);
    forall i | 0 <= i < |Writes(k, pubs[p])|
      ensures Writes(k, pubs[p])[i].key in s.store && s.store[Writes(k, pubs[p])[i].key] == Writes(k, pubs[p])[i].data
    {
      assert Stored(k, pubs, s, p, i);
    }
  }

  // ---------------------------------------------------------------- loading from the store

  /** `chunked` is what the store serves for the parts of `m`, cut anywhere. */
  ghost predicate ServedFrom(store: map<Key, A.Bytes>, m: Manifest, chunked: seq<seq<A.Bytes>>) {
    && |chunked| == |m.parts|
    && forall i :: 0 <= i < |chunked| ==>
         var key := Key(m.identity, m.artifactId, PartFile(m.parts[i].path));
         key in store && Flatten(chunked[i]) == store[key]
  }

  /** What a publisher has published, any reader of the store gets back, now and after
      everything the publishers still do. */
  lemma PublishedCanBeLoaded(k: Canon, pubs: seq<Publication>, s: State, p: nat, more: seq<nat>,
                             chunked: seq<seq<A.Bytes>>)
    requires Ideal(k) && Inv(k, pubs, s) && p < |pubs| && Published(k, pubs[p], s.store)
    requires pubs[p].maxRecords > 0
    requires A.AllFit(k.codec, pubs[p].elements, pubs[p].maxBytes)
             && A.AllFit(k.codec, pubs[p].fragments, pubs[p].maxBytes)
    requires ServedFrom(Run(k, pubs, s, more).store, ManifestOf(k, pubs[p], Encoded(k, pubs[p])), chunked)
    ensures var m := ManifestOf(k, pubs[p], Encoded(k, pubs[p]));
            A.Loaded(k.codec, k.sha, A.Fetched(m.parts, chunked), m.totalElements, m.totalFragments)
            == Ok((pubs[p].elements, pubs[p].fragments))
  {
    var me := pubs[p];
    var es, ws := Encoded(k, me), Writes(k, me);
    forall i | 0 <= i < |chunked| ensures Flatten(chunked[i]) == es[i].payload {
      assert ws[i].key == Key(me.identity, ArtifactId(k, me), PartFile(es[i].part.path)) && ws[i].data == es[i].payload;
      ObjectsNeverChange(k, pubs, s, more, ws[i].key);
    }
    PublishedLoads(k, me, chunked);
  }
}
