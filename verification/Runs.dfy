/** Which source ids two fragments of one document can have: increasing picks of the element
    ids, the first ending no later than the second begins. */
module Runs {
  import opened Base
  import opened Text
  import opened Chunks
  import opened Units
  import opened Document
  import opened Grouping
  import opened Fragments
  import opened Identity

  function IdsOf(es: seq<Element>): (r: seq<string>)
    ensures |r| == |es|
  {
    seq(|es|, k requires 0 <= k < |es| => es[k].id)
  }

  predicate DuplicateFree(ids: seq<string>) {
    forall i, j :: 0 <= i < j < |ids| ==> ids[i] != ids[j]
  }

  /** `xs` are the ids at the positions `at`, in increasing order. */
  ghost predicate Picks(ids: seq<string>, xs: seq<string>, at: seq<nat>) {
    && |at| == |xs|
    && (forall k :: 0 <= k < |at| ==> at[k] < |ids| && xs[k] == ids[at[k]])
    && (forall j, k :: 0 <= j < k < |at| ==> at[j] < at[k])
  }

  ghost predicate PrecedeAt(ids: seq<string>, xs: seq<string>, ys: seq<string>, a: seq<nat>, b: seq<nat>) {
    xs != [] && ys != [] && Picks(ids, xs, a) && Picks(ids, ys, b) && a[|a| - 1] <= b[0]
  }

  /** `xs` and `ys` can be the sources of an earlier and a later fragment: they share at most
      the element at which `xs` ends and `ys` begins. */
  ghost predicate Precede(ids: seq<string>, xs: seq<string>, ys: seq<string>) {
    exists a, b :: PrecedeAt(ids, xs, ys, a, b)
  }

  // ---------------------------------------------------------------- units follow the elements

  /** Unit `k` belongs to the element at position `at[k]`; positions never go back. */
  ghost predicate Indexed(units: seq<Unit>, ids: seq<string>, at: seq<nat>) {
    && |at| == |units|
    && (forall k :: 0 <= k < |at| ==> at[k] < |ids| && units[k].id == ids[at[k]])
    && (forall j, k :: 0 <= j < k < |at| ==> at[j] <= at[k])
  }

  lemma IndexedHead(a: seq<Unit>, b: seq<Unit>, ids: seq<string>, at: seq<nat>) returns (all: seq<nat>)
    requires ids != [] && OwnUnits(a, ids[0]) && Indexed(b, ids[1..], at)
    ensures Indexed(a + b, ids, all)
  {
    var zeros, later := seq(|a|, k => 0), seq(|at|, k requires 0 <= k < |at| => at[k] + 1);
    all := zeros + later;
    forall k | 0 <= k < |all| ensures all[k] < |ids| && (a + b)[k].id == ids[all[k]] {
      if k >= |a| {
        assert (a + b)[k] == b[k - |a|] && ids[1..][at[k - |a|]] == ids[all[k]];
      }
    }
  }

  lemma {:induction false} DocumentIndexed(l: Linguistics, p: Profile, at: Reading, es: seq<Element>)
    returns (all: seq<nat>)
    requires Lawful(l) && ValidProfile(p) && AllCut(l, p, es)
    ensures Indexed(DocumentUnits(l, p, at, es), IdsOf(es), all)
    decreases |es|
  {
    if es == [] {
      all := [];
    } else {
      var next := Advance(l, at, es[0]);
      AllCutTail(l, p, es);
      var later := DocumentIndexed(l, p, next, es[1..]);
      all := IndexedStep(l, p, next, es, DocumentUnits(l, p, next, es[1..]), later);
    }
  }

  lemma IndexedStep(l: Linguistics, p: Profile, next: Reading, es: seq<Element>, more: seq<Unit>, later: seq<nat>)
    returns (all: seq<nat>)
    requires Lawful(l) && ValidProfile(p) && es != [] && !ElementFails(l, p, es[0])
             && Indexed(more, IdsOf(es[1..]), later)
    ensures Indexed(ElementUnits(l, p, next, es[0]) + more, IdsOf(es), all)
  {
    ElementUnitsGood(l, p, next, es[0]);
    assert IdsOf(es)[1..] == IdsOf(es[1..]);
    all := IndexedHead(ElementUnits(l, p, next, es[0]), more, IdsOf(es), later);
  }

  lemma {:induction false} KeptIndexed(units: seq<Unit>, ids: seq<string>, at: seq<nat>) returns (kept: seq<nat>)
    requires Indexed(units, ids, at)
    ensures Indexed(Kept(units), ids, kept) && (kept != [] ==> kept[|kept| - 1] <= at[|at| - 1])
  {
    if units == [] {
      kept := [];
    } else {
      var n := |units| - 1;
      kept := KeptIndexed(units[..n], ids, at[..n]);
      LastIsGreatest(kept, at);
      if units[n].text != [] {
        kept := kept + [at[n]];
      }
    }
  }

  lemma LastIsGreatest(kept: seq<nat>, at: seq<nat>)
    requires at != [] && (forall j, k :: 0 <= j < k < |at| ==> at[j] <= at[k])
    requires forall j, k :: 0 <= j < k < |kept| ==> kept[j] <= kept[k]
    requires kept != [] ==> |at| > 1 && kept[|kept| - 1] <= at[..|at| - 1][|at| - 2]
    ensures forall k :: 0 <= k < |kept| ==> kept[k] <= at[|at| - 1]
  {
    forall k | 0 <= k < |kept| ensures kept[k] <= at[|at| - 1] {
      assert kept[k] <= kept[|kept| - 1] <= at[|at| - 2];
    }
  }

  lemma IndexedSlice(units: seq<Unit>, ids: seq<string>, at: seq<nat>, i: nat, j: nat)
    requires Indexed(units, ids, at) && i <= j <= |units|
    ensures Indexed(units[i..j], ids, at[i..j])
  {
  }

  // ---------------------------------------------------------------- sources are picks

  lemma {:induction false} SourcePicks(units: seq<Unit>, ids: seq<string>, at: seq<nat>) returns (picks: seq<nat>)
    requires Indexed(units, ids, at) && units != [] && DuplicateFree(ids)
    ensures Picks(ids, SourceIds(units), picks) && picks != []
    ensures picks[0] == at[0] && picks[|picks| - 1] == at[|at| - 1]
  {
    var n := |units| - 1;
    if n == 0 {
      picks := [at[0]];
      assert units[..0] == [];
    } else {
      var init := units[..n];
      picks := SourcePicks(init, ids, at[..n]);
      assert at[..n][n - 1] == at[n - 1] <= at[n];
      picks := PickMore(ids, SourceIds(init), picks, at[n]);
    }
  }

  /** One more id, no earlier than the last: already there, or picked next. */
  lemma PickMore(ids: seq<string>, xs: seq<string>, picks: seq<nat>, next: nat) returns (more: seq<nat>)
    requires DuplicateFree(ids) && Picks(ids, xs, picks) && picks != [] && picks[|picks| - 1] <= next < |ids|
    ensures Picks(ids, if ids[next] in xs then xs else xs + [ids[next]], more)
    ensures more != [] && more[0] == picks[0] && more[|more| - 1] == next
  {
    if ids[next] in xs {
      var k :| 0 <= k < |xs| && xs[k] == ids[next];
      assert ids[picks[k]] == ids[next];
      more := picks;
    } else {
      assert ids[picks[|picks| - 1]] == xs[|xs| - 1];
      more := picks + [next];
    }
  }

  lemma SlicePicks(all: seq<Unit>, ids: seq<string>, at: seq<nat>, i: nat, a: seq<Unit>) returns (picks: seq<nat>)
    requires Indexed(all, ids, at) && DuplicateFree(ids) && a != [] && i + |a| <= |all| && all[i..i + |a|] == a
    ensures Picks(ids, SourceIds(a), picks) && picks != [] && SourceIds(a) != []
    ensures picks[0] == at[i] && picks[|picks| - 1] == at[i + |a| - 1]
  {
    var j := i + |a|;
    IndexedSlice(all, ids, at, i, j);
    picks := SourcePicks(a, ids, at[i..j]);
    assert at[i..j][0] == at[i] && at[i..j][|a| - 1] == at[j - 1];
    FirstSource(a);
  }

  lemma SlicesPrecede(all: seq<Unit>, ids: seq<string>, at: seq<nat>, i: nat, a: seq<Unit>, m: nat, b: seq<Unit>)
    requires Indexed(all, ids, at) && DuplicateFree(ids) && a != [] && b != []
    requires i + |a| <= m && m + |b| <= |all| && all[i..i + |a|] == a && all[m..m + |b|] == b
    ensures Precede(ids, SourceIds(a), SourceIds(b))
  {
    var picks := SlicePicks(all, ids, at, i, a);
    var later := SlicePicks(all, ids, at, m, b);
    assert PrecedeAt(ids, SourceIds(a), SourceIds(b), picks, later);
  }

  lemma SlicesOf<T>(pre: seq<T>, a: seq<T>, between: seq<T>, b: seq<T>, post: seq<T>)
    ensures var all, m := pre + (a + between + b) + post, |pre| + |a| + |between|;
            all[|pre|..|pre| + |a|] == a && all[m..m + |b|] == b
  {
  }

  lemma PartsPrecede(pre: seq<Unit>, a: seq<Unit>, between: seq<Unit>, b: seq<Unit>, post: seq<Unit>,
                     ids: seq<string>, at: seq<nat>)
    requires Indexed(pre + (a + between + b) + post, ids, at) && DuplicateFree(ids) && a != [] && b != []
    ensures Precede(ids, SourceIds(a), SourceIds(b))
  {
    SlicesOf(pre, a, between, b, post);
    SlicesPrecede(pre + (a + between + b) + post, ids, at, |pre|, a, |pre| + |a| + |between|, b);
  }

  /** The sources of an earlier and a later fragment precede one another. */
  lemma GroupsPrecede(groups: seq<Group>, ids: seq<string>, at: seq<nat>, i: nat, j: nat)
    requires NonEmpty(groups) && Indexed(AllUnits(groups), ids, at) && DuplicateFree(ids) && i < j < |groups|
    ensures Precede(ids, SourceIds(groups[i].units), SourceIds(groups[j].units))
  {
    var pre, between, post := GroupsApart(groups, i, j);
    PartsPrecede(pre, groups[i].units, between, groups[j].units, post, ids, at);
  }

  /** What Split returns: the fragments of the groups that the break rules determine. */
  ghost predicate SplitsInto(l: Linguistics, p: Profile, elements: seq<Element>, fragments: seq<Fragment>) {
    && Splittable(l, p, SortElements(elements)) && SplitOk(l, p, elements, fragments)
    && FromGroups(l, p, DocumentUnits(l, p, START, SortElements(elements)), fragments)
  }

  lemma AllCutWhenSplittable(l: Linguistics, p: Profile, es: seq<Element>)
    requires Lawful(l) && Splittable(l, p, es)
    ensures AllCut(l, p, es)
  {
    forall e | e in es ensures !ElementFails(l, p, e) {
      FailsIffLongCluster(l, p, e);
    }
  }

  lemma KeptPositions(l: Linguistics, p: Profile, es: seq<Element>) returns (at: seq<nat>)
    requires Lawful(l) && ValidProfile(p) && Splittable(l, p, es)
    ensures Indexed(Kept(DocumentUnits(l, p, START, es)), IdsOf(es), at)
  {
    AllCutWhenSplittable(l, p, es);
    at := DocumentIndexed(l, p, START, es);
    at := KeptIndexed(DocumentUnits(l, p, START, es), IdsOf(es), at);
  }

  lemma FragmentsPrecede(l: Linguistics, p: Profile, elements: seq<Element>, fragments: seq<Fragment>, i: nat, j: nat)
    requires Lawful(l) && ValidProfile(p) && DistinctIds(elements) && SplitsInto(l, p, elements, fragments)
    requires i < j < |fragments|
    ensures Precede(IdsOf(SortElements(elements)), fragments[i].sourceIds, fragments[j].sourceIds)
  {
    var es := SortElements(elements);
    SortDistinct(elements);
    var at := KeptPositions(l, p, es);
    var out := SettledGroups(l, p, DocumentUnits(l, p, START, es), fragments);
    GroupFragmentsPrecede(l, p, out, IdsOf(es), at, i, j);
  }

  lemma SettledGroups(l: Linguistics, p: Profile, units: seq<Unit>, fragments: seq<Fragment>) returns (out: seq<Group>)
    requires FromGroups(l, p, units, fragments)
    ensures AllUnits(out) == Kept(units) && WithinHard(p, out) && fragments == FragmentsOf(l, out)
  {
    var groups :| FinallyGrouped(l, p, groups, Kept(units)) && fragments == FragmentsOf(l, Settled(l, p, groups));
    out := Settled(l, p, groups);
    ConsolidationKeeps(l, p, groups);
  }

  lemma GroupFragmentsPrecede(l: Linguistics, p: Profile, out: seq<Group>, ids: seq<string>, at: seq<nat>, i: nat,
                              j: nat)
    requires WithinHard(p, out) && Indexed(AllUnits(out), ids, at) && DuplicateFree(ids) && i < j < |out|
    ensures Precede(ids, FragmentsOf(l, out)[i].sourceIds, FragmentsOf(l, out)[j].sourceIds)
  {
    assert NonEmpty(out) by {
      assert forall k :: 0 <= k < |out| ==> out[k] in out;
    }
    GroupsPrecede(out, ids, at, i, j);
  }

  // ---------------------------------------------------------------- no ambiguity, no collision

  /** Different runs of ids that look the same once joined. */
  ghost predicate Confused(xs: seq<string>, ys: seq<string>) {
    xs != ys && Join(",", xs) == Join(",", ys)
  }

  ghost predicate Ambiguous(ids: seq<string>) {
    exists xs, ys :: Precede(ids, xs, ys) && Confused(xs, ys)
  }

  ghost predicate NoCollision(o: Origin, hash: string -> string, fragments: seq<Fragment>) {
    forall i, j :: 0 <= i < j < |fragments| ==> FragmentId(o, hash, fragments[i]) != FragmentId(o, hash, fragments[j])
  }

  lemma SourcesFree(f: Fragment, elements: seq<Element>, c: char)
    requires SourcedFrom(f, elements) && forall e :: e in elements ==> Free(e.id, c)
    ensures AllFree(f.sourceIds, c)
  {
  }

  /** Fragment ids of a document never collide when no two picks of its element ids that
      precede one another have the same comma-join. */
  lemma UnambiguousIdsDistinct(l: Linguistics, p: Profile, o: Origin, hash: string -> string, elements: seq<Element>,
                               fragments: seq<Fragment>)
    requires Lawful(l) && ValidProfile(p) && Injective(hash) && CleanOrigin(o, hash)
    requires DistinctIds(elements) && SplitsInto(l, p, elements, fragments)
    requires forall e :: e in elements ==> Free(e.id, SEPARATOR)
    requires !Ambiguous(IdsOf(SortElements(elements)))
    ensures NoCollision(o, hash, fragments)
  {
    forall i, j | 0 <= i < j < |fragments|
      ensures FragmentId(o, hash, fragments[i]) != FragmentId(o, hash, fragments[j]) {
      var f, g := fragments[i], fragments[j];
      assert f in fragments && g in fragments;
      SourcesFree(f, elements, SEPARATOR);
      SourcesFree(g, elements, SEPARATOR);
      SameIdIff(o, hash, f, g);
      FragmentsPrecede(l, p, elements, fragments, i, j);
      assert Confused(f.sourceIds, g.sourceIds) ==> Ambiguous(IdsOf(SortElements(elements)));
    }
  }

  /** Ids without commas are never ambiguous. */
  lemma CommaFreeUnambiguous(ids: seq<string>)
    requires AllFree(ids, ',')
    ensures !Ambiguous(ids)
  {
    forall xs, ys | Precede(ids, xs, ys) ensures !Confused(xs, ys) {
      var a, b :| PrecedeAt(ids, xs, ys, a, b);
      PicksFree(ids, xs, a, ',');
      PicksFree(ids, ys, b, ',');
      if Join(",", xs) == Join(",", ys) {
        JoinInjective(',', xs, ys);
      }
    }
  }

  lemma PicksFree(ids: seq<string>, xs: seq<string>, at: seq<nat>, c: char)
    requires AllFree(ids, c) && Picks(ids, xs, at)
    ensures AllFree(xs, c)
  {
    forall x | x in xs ensures Free(x, c) {
      var k :| 0 <= k < |xs| && xs[k] == x;
      assert ids[at[k]] in ids;
    }
  }

  lemma SortedFree(elements: seq<Element>, c: char)
    requires forall e :: e in elements ==> Free(e.id, c)
    ensures AllFree(IdsOf(SortElements(elements)), c)
  {
    var es := SortElements(elements);
    forall x | x in IdsOf(es) ensures Free(x, c) {
      var k := IdOwner(es, x);
      SortMembers(elements, es[k]);
    }
  }

  lemma IdOwner(es: seq<Element>, x: string) returns (k: nat)
    requires x in IdsOf(es)
    ensures k < |es| && es[k].id == x && es[k] in es
  {
    k :| 0 <= k < |es| && IdsOf(es)[k] == x;
  }

  /** In particular the ids of one split are pairwise distinct for unique comma-free ids. */
  lemma SplitIdsDistinct(l: Linguistics, p: Profile, o: Origin, hash: string -> string, elements: seq<Element>,
                         fragments: seq<Fragment>)
    requires Lawful(l) && ValidProfile(p) && Injective(hash) && CleanOrigin(o, hash)
    requires DistinctIds(elements) && SplitsInto(l, p, elements, fragments)
    requires forall e :: e in elements ==> Free(e.id, ',') && Free(e.id, SEPARATOR)
    ensures NoCollision(o, hash, fragments)
  {
    SortedFree(elements, ',');
    CommaFreeUnambiguous(IdsOf(SortElements(elements)));
    UnambiguousIdsDistinct(l, p, o, hash, elements, fragments);
  }
}
