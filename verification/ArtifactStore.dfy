/** Concurrent publication into a content-addressed object store whose put-if-absent is a
    plain existence check followed by an unconditional put. */
module ArtifactStore {
  import opened Base
  import A = Artifacts

  datatype Identity = Identity(documentId: string, documentVersion: nat, sourceSha256: string)
  type Compatibility = seq<string>
  datatype Digest = Digest(path: A.Path, sha256: string)
  datatype Seed = Seed(identity: Identity, compatibilitySha: string, parts: seq<Digest>)
  datatype Manifest = Manifest(identity: Identity, compatibility: Compatibility, artifactId: string,
                               compatibilitySha: string,
                               parts: seq<A.ArtifactPart>, totalElements: nat, totalFragments: nat)

  /** Canonical encoders and the digest. */
  datatype Canon = Canon(codec: A.Codec, sha: A.Bytes -> string, seed: Seed -> A.Bytes,
                         compatibility: Compatibility -> A.Bytes, manifest: Manifest -> A.Bytes)

  ghost predicate Ideal(k: Canon) {
    A.Lawful(k.codec) && Injective(k.sha) && Injective(k.seed) && Injective(k.compatibility)
  }

  datatype Publication = Publication(identity: Identity, compatibility: Compatibility,
                                     elements: seq<A.Record>, fragments: seq<A.Record>, maxRecords: nat, maxBytes: nat)

  datatype File = PartFile(path: A.Path) | ManifestFile
  datatype Key = Key(identity: Identity, artifactId: string, file: File)
  datatype Write = Write(key: Key, data: A.Bytes)

  function Encoded(k: Canon, p: Publication): seq<A.Encoded> {
    A.Published(k.codec, k.sha, p.elements, p.fragments, p.maxRecords, p.maxBytes)
  }

  function DigestsOf(es: seq<A.Encoded>): (r: seq<Digest>)
    ensures |r| == |es|
  {
    seq(|es|, i requires 0 <= i < |es| => Digest(es[i].part.path, es[i].part.sha256))
  }

  function PartsOf(es: seq<A.Encoded>): (r: seq<A.ArtifactPart>)
    ensures |r| == |es|
  {
    seq(|es|, i requires 0 <= i < |es| => es[i].part)
  }

  function Total(es: seq<A.Encoded>, kind: A.Kind): nat {
    if es == [] then 0 else Total(es[1..], kind) + if es[0].part.kind == kind then es[0].part.recordCount else 0
  }

  function CompatibilitySha(k: Canon, p: Publication): string {
    k.sha(k.compatibility(p.compatibility))
  }

  function ArtifactId(k: Canon, p: Publication): string {
    k.sha(k.seed(Seed(p.identity, CompatibilitySha(k, p), DigestsOf(Encoded(k, p)))))
  }

  function ManifestOf(k: Canon, p: Publication, es: seq<A.Encoded>): Manifest {
    Manifest(p.identity, p.compatibility, ArtifactId(k, p), CompatibilitySha(k, p), PartsOf(es),
             Total(es, A.Elements), Total(es, A.Fragments))
  }

  /** The immutable puts of one publication, the manifest last. */
  function WritesOf(k: Canon, p: Publication, es: seq<A.Encoded>): (r: seq<Write>)
    ensures |r| == |es| + 1
  {
    seq(|es|, i requires 0 <= i < |es| => Write(Key(p.identity, ArtifactId(k, p), PartFile(es[i].part.path)),
                                                es[i].payload))
    + [Write(Key(p.identity, ArtifactId(k, p), ManifestFile), k.manifest(ManifestOf(k, p, es)))]
  }

  function Writes(k: Canon, p: Publication): seq<Write> {
    WritesOf(k, p, Encoded(k, p))
  }

  // ---------------------------------------------------------------- content addressing

  /** How a part describes its own payload. */
  ghost predicate Described(k: Canon, e: A.Encoded) {
    && e.part.sha256 == k.sha(e.payload)
    && e.part.kind == e.part.path.stem
    && e.part.byteCount == |e.payload|
    && e.part.recordCount == |A.LinesOf(e.payload)|
  }

  lemma EncodeDescribed(k: Canon, kind: A.Kind, index: nat, rs: seq<A.Record>)
    requires Ideal(k)
    ensures Described(k, A.Encode(k.codec, k.sha, kind, index, rs))
  {
    A.PayloadLines(k.codec, rs);
  }

  lemma EncodedAt(k: Canon, ep: seq<seq<A.Record>>, fp: seq<seq<A.Record>>, i: nat)
    requires i < |ep| + |fp|
    ensures (A.EncodeAll(k.codec, k.sha, A.Elements, ep) + A.EncodeAll(k.codec, k.sha, A.Fragments, fp))[i]
         == if i < |ep| then A.Encode(k.codec, k.sha, A.Elements, i, ep[i])
            else A.Encode(k.codec, k.sha, A.Fragments, i - |ep|, fp[i - |ep|])
  {
  }

  lemma EncodedDescribed(k: Canon, p: Publication, i: nat)
    requires Ideal(k) && i < |Encoded(k, p)|
    ensures Described(k, Encoded(k, p)[i])
  {
    var ep := A.Pieces(k.codec, p.elements, p.maxRecords, p.maxBytes);
    var fp := A.Pieces(k.codec, p.fragments, p.maxRecords, p.maxBytes);
    EncodedAt(k, ep, fp, i);
    if i < |ep| {
      EncodeDescribed(k, A.Elements, i, ep[i]);
    } else {
      EncodeDescribed(k, A.Fragments, i - |ep|, fp[i - |ep|]);
    }
  }

  lemma PathsDistinct(k: Canon, p: Publication, i: nat, j: nat)
    requires i < |Encoded(k, p)| && j < |Encoded(k, p)|
    requires Encoded(k, p)[i].part.path == Encoded(k, p)[j].part.path
    ensures i == j
  {
  }

  /** Equal artifact ids mean equal parts, byte for byte. */
  lemma SameIdSameParts(k: Canon, p: Publication, q: Publication)
    requires Ideal(k) && ArtifactId(k, p) == ArtifactId(k, q)
    ensures p.identity == q.identity && p.compatibility == q.compatibility
    ensures Encoded(k, p) == Encoded(k, q)
  {
    var es, fs := Encoded(k, p), Encoded(k, q);
    var sp := Seed(p.identity, CompatibilitySha(k, p), DigestsOf(es));
    var sq := Seed(q.identity, CompatibilitySha(k, q), DigestsOf(fs));
    assert k.seed(sp) == k.seed(sq);
    assert sp == sq;
    assert k.compatibility(p.compatibility) == k.compatibility(q.compatibility);
    assert |es| == |fs|;
    forall i | 0 <= i < |es| ensures es[i] == fs[i] {
      assert DigestsOf(es)[i] == DigestsOf(fs)[i];
      EncodedDescribed(k, p, i);
      EncodedDescribed(k, q, i);
    }
  }

  /** Two publications that reach the same object key write identical bytes there. */
  lemma SameKeySameBytes(k: Canon, p: Publication, q: Publication, i: nat, j: nat)
    requires Ideal(k) && i < |Writes(k, p)| && j < |Writes(k, q)|
    requires Writes(k, p)[i].key == Writes(k, q)[j].key
    ensures Writes(k, p)[i].data == Writes(k, q)[j].data
    ensures Writes(k, p) == Writes(k, q)
  {
    SameIdSameParts(k, p, q);
    assert Writes(k, p) == Writes(k, q);
    var n := |Encoded(k, p)|;
    if i < n && j < n {
      PathsDistinct(k, p, i, j);
    }
  }

  // ---------------------------------------------------------------- loading what was published

  lemma {:induction false} TotalConcat(a: seq<A.Encoded>, b: seq<A.Encoded>, kind: A.Kind)
    ensures Total(a + b, kind) == Total(a, kind) + Total(b, kind)
  {
    if a == [] {
      assert a + b == b;
    } else {
      TotalConcat(a[1..], b, kind);
      assert (a + b)[1..] == a[1..] + b;
    }
  }

  lemma {:induction false} TotalCounts(k: Canon, of: A.Kind, pieces: seq<seq<A.Record>>, kind: A.Kind)
    ensures Total(A.EncodeAll(k.codec, k.sha, of, pieces), kind) == if of == kind then |Flatten(pieces)| else 0
  {
    if pieces != [] {
      var n := |pieces| - 1;
      var init, last := pieces[..n], pieces[n];
      var e := A.Encode(k.codec, k.sha, of, n, last);
      assert pieces == init + [last];
      TotalCounts(k, of, init, kind);
      A.EncodeAllSnoc(k.codec, k.sha, of, init, last);
      TotalConcat(A.EncodeAll(k.codec, k.sha, of, init), [e], kind);
      TotalOne(e, kind);
      FlattenSnoc(init, last);
    }
  }

  lemma TotalOne(e: A.Encoded, kind: A.Kind)
    ensures Total([e], kind) == if e.part.kind == kind then e.part.recordCount else 0
  {
    assert [e][1..] == [];
  }

  /** The manifest's totals are the numbers of records published. */
  lemma ManifestTotals(k: Canon, p: Publication)
    requires p.maxRecords > 0
    requires A.AllFit(k.codec, p.elements, p.maxBytes) && A.AllFit(k.codec, p.fragments, p.maxBytes)
    ensures Total(Encoded(k, p), A.Elements) == |p.elements| && Total(Encoded(k, p), A.Fragments) == |p.fragments|
  {
    var ep := A.Pieces(k.codec, p.elements, p.maxRecords, p.maxBytes);
    var fp := A.Pieces(k.codec, p.fragments, p.maxRecords, p.maxBytes);
    A.PiecesMinimal(k.codec, p.elements, p.maxRecords, p.maxBytes);
    A.PiecesMinimal(k.codec, p.fragments, p.maxRecords, p.maxBytes);
    KindTotal(k, ep, fp, A.Elements);
    KindTotal(k, ep, fp, A.Fragments);
  }

  lemma KindTotal(k: Canon, ep: seq<seq<A.Record>>, fp: seq<seq<A.Record>>, kind: A.Kind)
    ensures Total(A.EncodeAll(k.codec, k.sha, A.Elements, ep) + A.EncodeAll(k.codec, k.sha, A.Fragments, fp), kind)
         == if kind == A.Elements then |Flatten(ep)| else |Flatten(fp)|
  {
    TotalCounts(k, A.Elements, ep, kind);
    TotalCounts(k, A.Fragments, fp, kind);
    TotalConcat(A.EncodeAll(k.codec, k.sha, A.Elements, ep), A.EncodeAll(k.codec, k.sha, A.Fragments, fp), kind);
  }

  /** Loading the manifest of a publication, whatever chunks the store serves its parts in,
      returns exactly the published elements and fragments. */
  lemma PublishedLoads(k: Canon, p: Publication, chunked: seq<seq<A.Bytes>>)
    requires Ideal(k) && p.maxRecords > 0
    requires A.AllFit(k.codec, p.elements, p.maxBytes) && A.AllFit(k.codec, p.fragments, p.maxBytes)
    requires |chunked| == |Encoded(k, p)|
    requires forall i :: 0 <= i < |chunked| ==> Flatten(chunked[i]) == Encoded(k, p)[i].payload
    ensures var m := ManifestOf(k, p, Encoded(k, p));
            A.Loaded(k.codec, k.sha, A.Fetched(m.parts, chunked), m.totalElements, m.totalFragments)
            == Ok((p.elements, p.fragments))
  {
    var es := Encoded(k, p);
    FetchedParts(es, chunked);
    ManifestTotals(k, p);
    A.PublishLoadRoundTrip(k.codec, k.sha, p.elements, p.fragments, p.maxRecords, p.maxBytes);
  }

  lemma FetchedParts(es: seq<A.Encoded>, chunked: seq<seq<A.Bytes>>)
    requires |chunked| == |es| && forall i :: 0 <= i < |es| ==> Flatten(chunked[i]) == es[i].payload
    ensures A.Fetched(PartsOf(es), chunked) == es
  {
  }

  // ---------------------------------------------------------------- interleaved publishers

  datatype Phase = Checking | Putting | Comparing | Conflicted
  datatype Publisher = Publisher(next: nat, phase: Phase)
  datatype State = State(store: map<Key, A.Bytes>, at: seq<Publisher>)

  function Init(n: nat): State {
    State(map[], seq(n, i => Publisher(0, Checking)))
  }

  /** One store request by publisher `p`. A publisher that crashed or lost its lease is one
      that is never scheduled again. */
  function Step(k: Canon, pubs: seq<Publication>, s: State, p: nat): State {
    if p >= |pubs| || p >= |s.at| || s.at[p].next >= |Writes(k, pubs[p])| then s
    else
      var me, w := s.at[p], Writes(k, pubs[p])[s.at[p].next];
      match me.phase
      case Checking => s.(at := s.at[p := me.(phase := if w.key in s.store then Comparing else Putting)])
      case Putting => State(s.store[w.key := w.data], s.at[p := Publisher(me.next + 1, Checking)])
      case Comparing =>
        s.(at := s.at[p := if w.key in s.store && s.store[w.key] == w.data then Publisher(me.next + 1, Checking)
                           else me.(phase := Conflicted)])
      case Conflicted => s
  }

  function Run(k: Canon, pubs: seq<Publication>, s: State, schedule: seq<nat>): State {
    if schedule == [] then s else Step(k, pubs, Run(k, pubs, s, schedule[..|schedule| - 1]), schedule[|schedule| - 1])
  }

  ghost predicate Stored(k: Canon, pubs: seq<Publication>, s: State, p: nat, i: nat)
    requires p < |pubs| && i < |Writes(k, pubs[p])|
  {
    Writes(k, pubs[p])[i].key in s.store
  }

  ghost predicate Consistent(k: Canon, pubs: seq<Publication>, s: State) {
    forall p, i :: 0 <= p < |pubs| && 0 <= i < |Writes(k, pubs[p])| && Stored(k, pubs, s, p, i) ==>
      s.store[Writes(k, pubs[p])[i].key] == Writes(k, pubs[p])[i].data
  }

  ghost predicate Placed(k: Canon, pubs: seq<Publication>, s: State, p: nat)
    requires p < |pubs| && p < |s.at|
  {
    var me, n := s.at[p], |Writes(k, pubs[p])|;
    && me.next <= n
    && me.phase != Conflicted
    && (me.phase == Comparing ==> me.next < n && Stored(k, pubs, s, p, me.next))
    && forall i :: 0 <= i < me.next ==> Stored(k, pubs, s, p, i)
  }

  /** A stored manifest commits every part of its publication. */
  ghost predicate Committed(k: Canon, pubs: seq<Publication>, s: State) {
    forall p :: 0 <= p < |pubs| && Stored(k, pubs, s, p, |Writes(k, pubs[p])| - 1) ==>
      forall i :: 0 <= i < |Writes(k, pubs[p])| ==> Stored(k, pubs, s, p, i)
  }

  ghost predicate Sourced(k: Canon, pubs: seq<Publication>, s: State) {
    forall key :: key in s.store ==>
      exists p, i :: 0 <= p < |pubs| && 0 <= i < |Writes(k, pubs[p])| && Writes(k, pubs[p])[i].key == key
  }

  ghost predicate Inv(k: Canon, pubs: seq<Publication>, s: State) {
    && |s.at| == |pubs|
    && Consistent(k, pubs, s)
    && (forall p :: 0 <= p < |pubs| ==> Placed(k, pubs, s, p))
    && Committed(k, pubs, s)
    && Sourced(k, pubs, s)
  }

  lemma PutKeepsConsistent(k: Canon, pubs: seq<Publication>, s: State, p: nat, s': State)
    requires Ideal(k) && Inv(k, pubs, s) && p < |pubs| && s.at[p].next < |Writes(k, pubs[p])|
    requires s'.store == s.store[Writes(k, pubs[p])[s.at[p].next].key := Writes(k, pubs[p])[s.at[p].next].data]
    ensures Consistent(k, pubs, s')
  {
    var n := s.at[p].next;
    forall q, i | 0 <= q < |pubs| && 0 <= i < |Writes(k, pubs[q])| && Stored(k, pubs, s', q, i)
      ensures s'.store[Writes(k, pubs[q])[i].key] == Writes(k, pubs[q])[i].data
    {
      if Writes(k, pubs[q])[i].key == Writes(k, pubs[p])[n].key {
        SameKeySameBytes(k, pubs[q], pubs[p], i, n);
      } else {
        assert Stored(k, pubs, s, q, i);
      }
    }
  }

  lemma PutKeepsCommitted(k: Canon, pubs: seq<Publication>, s: State, p: nat, s': State)
    requires Ideal(k) && Inv(k, pubs, s) && p < |pubs| && s.at[p].next < |Writes(k, pubs[p])|
    requires s'.store == s.store[Writes(k, pubs[p])[s.at[p].next].key := Writes(k, pubs[p])[s.at[p].next].data]
    ensures Committed(k, pubs, s')
  {
    var n := s.at[p].next;
    assert Placed(k, pubs, s, p);
    forall q, i | 0 <= q < |pubs| && Stored(k, pubs, s', q, |Writes(k, pubs[q])| - 1) && 0 <= i < |Writes(k, pubs[q])|
      ensures Stored(k, pubs, s', q, i)
    {
      var last := |Writes(k, pubs[q])| - 1;
      if Stored(k, pubs, s, q, last) {
        assert Stored(k, pubs, s, q, i);
      } else {
        assert Writes(k, pubs[q])[last].key == Writes(k, pubs[p])[n].key;
        SameKeySameBytes(k, pubs[q], pubs[p], last, n);
        ManifestIsLast(k, pubs[p], n);
        assert i < n ==> Stored(k, pubs, s, p, i);
      }
    }
  }

  lemma ManifestIsLast(k: Canon, p: Publication, n: nat)
    requires n < |Writes(k, p)| && Writes(k, p)[n].key == Writes(k, p)[|Writes(k, p)| - 1].key
    ensures n == |Writes(k, p)| - 1
  {
  }

  lemma PutKeepsSourced(k: Canon, pubs: seq<Publication>, s: State, p: nat, s': State)
    requires Inv(k, pubs, s) && p < |pubs| && s.at[p].next < |Writes(k, pubs[p])|
    requires s'.store == s.store[Writes(k, pubs[p])[s.at[p].next].key := Writes(k, pubs[p])[s.at[p].next].data]
    ensures Sourced(k, pubs, s')
  {
    var n := s.at[p].next;
    forall key | key in s'.store
      ensures exists q, i :: 0 <= q < |pubs| && 0 <= i < |Writes(k, pubs[q])| && Writes(k, pubs[q])[i].key == key
    {
      if key == Writes(k, pubs[p])[n].key {
      } else {
        assert key in s.store;
      }
    }
  }

  /** A growing store leaves a resting publisher where it was. */
  lemma PlacedKept(k: Canon, pubs: seq<Publication>, s: State, s': State, q: nat)
    requires q < |pubs| && q < |s.at| && q < |s'.at| && Placed(k, pubs, s, q)
    requires s'.at[q] == s.at[q] && s.store.Keys <= s'.store.Keys
    ensures Placed(k, pubs, s', q)
  {
    forall i | 0 <= i < s.at[q].next ensures Stored(k, pubs, s', q, i) {
      assert Stored(k, pubs, s, q, i);
    }
  }

  /** A publisher whose current object is stored with its own bytes moves past it. */
  lemma PlacedAdvance(k: Canon, pubs: seq<Publication>, s: State, s': State, q: nat)
    requires q < |pubs| && q < |s.at| && q < |s'.at| && Placed(k, pubs, s, q)
    requires s.at[q].next < |Writes(k, pubs[q])| && s.store.Keys <= s'.store.Keys
    requires Stored(k, pubs, s', q, s.at[q].next)
    requires s'.at[q] == Publisher(s.at[q].next + 1, Checking)
    ensures Placed(k, pubs, s', q)
  {
    forall i | 0 <= i < s.at[q].next ensures Stored(k, pubs, s', q, i) {
      assert Stored(k, pubs, s, q, i);
    }
  }

  lemma OwnStepPlaced(k: Canon, pubs: seq<Publication>, s: State, p: nat)
    requires Inv(k, pubs, s) && p < |pubs|
    ensures p < |Step(k, pubs, s, p).at| && Placed(k, pubs, Step(k, pubs, s, p), p)
  {
    var s' := Step(k, pubs, s, p);
    assert Placed(k, pubs, s, p);
    var me := s.at[p];
    if me.next < |Writes(k, pubs[p])| {
      match me.phase
      case Checking =>
        forall i | 0 <= i < me.next ensures Stored(k, pubs, s', p, i) {
          assert Stored(k, pubs, s, p, i);
        }
      case Putting => PlacedAdvance(k, pubs, s, s', p);
      case Comparing => PlacedAdvance(k, pubs, s, s', p);
    }
  }

  lemma StepShape(k: Canon, pubs: seq<Publication>, s: State, p: nat)
    ensures var s' := Step(k, pubs, s, p);
            && |s'.at| == |s.at|
            && (forall q :: 0 <= q < |s.at| && q != p ==> s'.at[q] == s.at[q])
            && (s'.store == s.store
                || (&& p < |pubs| && p < |s.at| && s.at[p].next < |Writes(k, pubs[p])|
                    && s'.store == s.store[Writes(k, pubs[p])[s.at[p].next].key :=
                                           Writes(k, pubs[p])[s.at[p].next].data]))
  {
  }

  lemma StepInv(k: Canon, pubs: seq<Publication>, s: State, p: nat)
    requires Ideal(k) && Inv(k, pubs, s)
    ensures Inv(k, pubs, Step(k, pubs, s, p))
  {
    var s' := Step(k, pubs, s, p);
    StepShape(k, pubs, s, p);
    forall q | 0 <= q < |pubs| ensures Placed(k, pubs, s', q) {
      if q == p {
        OwnStepPlaced(k, pubs, s, p);
      } else {
        PlacedKept(k, pubs, s, s', q);
      }
    }
    if s'.store != s.store {
      PutKeepsConsistent(k, pubs, s, p, s');
      PutKeepsCommitted(k, pubs, s, p, s');
      PutKeepsSourced(k, pubs, s, p, s');
    } else {
      SameStoreKeeps(k, pubs, s, s');
    }
  }

  lemma SameStoreKeeps(k: Canon, pubs: seq<Publication>, s: State, s': State)
    requires s'.store == s.store && Consistent(k, pubs, s) && Committed(k, pubs, s) && Sourced(k, pubs, s)
    ensures Consistent(k, pubs, s') && Committed(k, pubs, s') && Sourced(k, pubs, s')
  {
    assert forall p, i :: 0 <= p < |pubs| && 0 <= i < |Writes(k, pubs[p])| ==>
             Stored(k, pubs, s', p, i) == Stored(k, pubs, s, p, i);
  }

  lemma {:induction false} RunInv(k: Canon, pubs: seq<Publication>, schedule: seq<nat>)
    requires Ideal(k)
    ensures Inv(k, pubs, Run(k, pubs, Init(|pubs|), schedule))
  {
    if schedule != [] {
      RunInv(k, pubs, schedule[..|schedule| - 1]);
      StepInv(k, pubs, Run(k, pubs, Init(|pubs|), schedule[..|schedule| - 1]), schedule[|schedule| - 1]);
    }
  }

  /** In every interleaving, with any publishers stopping anywhere: no publisher ever meets
      a conflict, and a stored manifest has all its parts stored with the recorded digests. */
  lemma PublicationSafety(k: Canon, pubs: seq<Publication>, schedule: seq<nat>)
    requires Ideal(k)
    ensures var s := Run(k, pubs, Init(|pubs|), schedule);
            && |s.at| == |pubs|
            && (forall p :: 0 <= p < |pubs| ==> s.at[p].phase != Conflicted)
            && (forall key :: key in s.store && key.file == ManifestFile ==>
                  exists p :: 0 <= p < |pubs| && CommittedBy(k, pubs[p], s, key))
  {
    RunInv(k, pubs, schedule);
    var s := Run(k, pubs, Init(|pubs|), schedule);
    forall p | 0 <= p < |pubs| ensures s.at[p].phase != Conflicted {
      assert Placed(k, pubs, s, p);
    }
    forall key | key in s.store && key.file == ManifestFile
      ensures exists p :: 0 <= p < |pubs| && CommittedBy(k, pubs[p], s, key)
    {
      var p, i :| 0 <= p < |pubs| && 0 <= i < |Writes(k, pubs[p])| && Writes(k, pubs[p])[i].key == key;
      StoredManifestCommits(k, pubs, s, key, p, i);
    }
  }

  /** `key` holds the manifest of `p`, and every part that manifest records is stored, with
      the recorded digest and length. */
  ghost predicate CommittedBy(k: Canon, p: Publication, s: State, key: Key) {
    var es := Encoded(k, p);
    && key in s.store && s.store[key] == k.manifest(ManifestOf(k, p, es))
    && forall i :: 0 <= i < |es| ==>
         var part := Key(key.identity, key.artifactId, PartFile(es[i].part.path));
         part in s.store && k.sha(s.store[part]) == es[i].part.sha256 && |s.store[part]| == es[i].part.byteCount
  }

  lemma StoredManifestCommits(k: Canon, pubs: seq<Publication>, s: State, key: Key, p: nat, i: nat)
    requires Ideal(k) && Inv(k, pubs, s) && p < |pubs| && i < |Writes(k, pubs[p])|
    requires key in s.store && key.file == ManifestFile && Writes(k, pubs[p])[i].key == key
    ensures CommittedBy(k, pubs[p], s, key)
  {
    var es, ws := Encoded(k, pubs[p]), Writes(k, pubs[p]);
    assert i == |es|;
    assert Stored(k, pubs, s, p, |ws| - 1);
    forall j | 0 <= j < |es|
      ensures var part := Key(key.identity, key.artifactId, PartFile(es[j].part.path));
              part in s.store && k.sha(s.store[part]) == es[j].part.sha256 && |s.store[part]| == es[j].part.byteCount
    {
      assert Stored(k, pubs, s, p, j);
      EncodedDescribed(k, pubs[p], j);
      assert ws[j].key == Key(key.identity, key.artifactId, PartFile(es[j].part.path));
    }
  }
}
