/** What the planner's two loops achieve, told without them: which documents are rejected and
    why, and that the batches of an accepted one are the only ones as full as they can be. */
module Planning {
  import opened Base
  import opened Batching
  import opened FullPieces
  import G = Greedy

  // ---------------------------------------------------------------- the rejections

  ghost predicate IdsApart(xs: seq<LogicalBlock>) {
    forall i, j :: 0 <= i < j < |xs| ==> xs[i].blockId != xs[j].blockId
  }

  lemma {:induction false} SetOfDistinct<K>(ks: seq<K>)
    ensures |set k | k in ks| <= |ks|
    ensures |set k | k in ks| == |ks| <==> forall i, j :: 0 <= i < j < |ks| ==> ks[i] != ks[j]
  {
    if ks != [] {
      var x, tail := ks[0], ks[1..];
      SetOfDistinct(tail);
      assert (set k | k in ks) == (set k | k in tail) + {x};
      assert ks == [x] + tail;
      if forall i, j :: 0 <= i < j < |tail| ==> tail[i] != tail[j] {
        assert x in tail <==> exists j :: 0 < j < |ks| && ks[j] == ks[0];
      } else {
        var i, j :| 0 <= i < j < |tail| && tail[i] == tail[j];
        assert ks[i + 1] == ks[j + 1];
      }
    }
  }

  lemma IdsDistinct(xs: seq<LogicalBlock>)
    ensures DistinctIds(xs) <==> IdsApart(xs)
  {
    var ids := seq(|xs|, k requires 0 <= k < |xs| => xs[k].blockId);
    SetOfDistinct(ids);
    forall b | b in xs ensures b.blockId in ids {
      var i :| 0 <= i < |xs| && xs[i] == b;
      assert ids[i] == b.blockId;
    }
    assert (set b | b in xs :: b.blockId) == (set k | k in ids);
    assert forall i :: 0 <= i < |xs| ==> ids[i] == xs[i].blockId;
  }

  lemma OrdersDistinct(xs: seq<LogicalBlock>)
    ensures DistinctOrder(xs) <==> DistinctKeys(xs)
  {
    var orders := seq(|xs|, k requires 0 <= k < |xs| => xs[k].orderIndex);
    SetOfDistinct(orders);
    forall b | b in xs ensures b.orderIndex in orders {
      var i :| 0 <= i < |xs| && xs[i] == b;
      assert orders[i] == b.orderIndex;
    }
    assert (set b | b in xs :: b.orderIndex) == (set k | k in orders);
    assert forall i :: 0 <= i < |xs| ==> orders[i] == xs[i].orderIndex;
  }

  /** Sorting neither makes nor removes a duplicate. */
  lemma SortedDistinct(blocks: seq<LogicalBlock>)
    ensures DistinctIds(SortBlocks(blocks)) <==> DistinctIds(blocks)
    ensures DistinctOrder(SortBlocks(blocks)) <==> DistinctOrder(blocks)
  {
    var sorted := SortBlocks(blocks);
    SameLength(sorted, blocks);
    SameMembers(sorted, blocks);
    assert (set b | b in sorted :: b.blockId) == (set b | b in blocks :: b.blockId);
    assert (set b | b in sorted :: b.orderIndex) == (set b | b in blocks :: b.orderIndex);
  }

  /** No two blocks share an id, and no two a position. */
  ghost predicate Admissible(blocks: seq<LogicalBlock>) {
    blocks != [] && IdsApart(blocks) && DistinctKeys(blocks)
  }

  /** Which error rejects a document: an empty one, two blocks with one id, or else two with
      one position. */
  lemma OrderedExactly(blocks: seq<LogicalBlock>)
    ensures Ordered(blocks) == Err(EmptyDocument) <==> blocks == []
    ensures Ordered(blocks) == Err(DuplicateBlockId) <==> !IdsApart(blocks)
    ensures Ordered(blocks) == Err(DuplicateOrderIndex)
       <==> IdsApart(blocks) && !DistinctKeys(blocks)
    ensures Ordered(blocks).Ok? <==> Admissible(blocks)
  {
    SortedDistinct(blocks);
    IdsDistinct(blocks);
    OrdersDistinct(blocks);
  }

  ghost predicate NoneOversize(blocks: seq<LogicalBlock>, size: LogicalBlock -> nat, lim: G.Limits) {
    forall b :: b in blocks ==> !G.Oversize(b, size, lim)
  }

  /** `id` names the first block, in document order, that is too large. */
  ghost predicate FirstTooLarge(blocks: seq<LogicalBlock>, size: LogicalBlock -> nat, lim: G.Limits, id: string) {
    exists b :: b in blocks && b.blockId == id && G.Oversize(b, size, lim)
      && forall c :: c in blocks && c.orderIndex < b.orderIndex ==> !G.Oversize(c, size, lim)
  }

  lemma {:induction false} FirstOversizeMeans(xs: seq<LogicalBlock>, size: LogicalBlock -> nat, lim: G.Limits)
    requires Ascending(xs)
    ensures FirstOversize(xs, size, lim).None? <==> NoneOversize(xs, size, lim)
    ensures var r := FirstOversize(xs, size, lim); r.Some? ==> FirstTooLarge(xs, size, lim, r.value)
  {
    if xs != [] && !G.Oversize(xs[0], size, lim) {
      var tail := xs[1..];
      assert forall i :: 0 <= i < |tail| ==> tail[i] == xs[i + 1];
      FirstOversizeMeans(tail, size, lim);
      assert forall b :: b in xs <==> b == xs[0] || b in tail;
    } else if xs != [] {
      assert xs[0] in xs;
      forall c | c in xs ensures xs[0].orderIndex <= c.orderIndex {
        var k :| 0 <= k < |xs| && xs[k] == c;
      }
    }
  }

  /** The exact outcome of planning. */
  lemma PlanExactly(blocks: seq<LogicalBlock>, wire: Wire, lim: G.Limits)
    ensures PlanOf(blocks, wire, lim).Ok? <==> Admissible(blocks) && NoneOversize(blocks, wire.size, lim)
    ensures forall id :: PlanOf(blocks, wire, lim) == Err(BlockTooLarge(id)) ==>
              Admissible(blocks) && FirstTooLarge(blocks, wire.size, lim, id)
    ensures !Admissible(blocks) ==>
              Ordered(blocks).Err? && PlanOf(blocks, wire, lim) == Err(Ordered(blocks).error)
  {
    OrderedExactly(blocks);
    var sorted := SortBlocks(blocks);
    SortAscending(blocks);
    SameMembers(sorted, blocks);
    FirstOversizeMeans(sorted, wire.size, lim);
  }

  /** Every block once, in ascending order, in well-formed batches as full as they can be. */
  ghost predicate IsPlan(plan: seq<PlannedBatch>, blocks: seq<LogicalBlock>, wire: Wire, lim: G.Limits) {
    var all := Flatten(BlocksOf(plan));
    && multiset(all) == multiset(blocks) && Ascending(all) && WellFormedPlan(plan, wire)
    && FullPartition(BlocksOf(plan), all, wire.size, lim)
  }

  lemma PlanIsPlan(blocks: seq<LogicalBlock>, wire: Wire, lim: G.Limits)
    requires lim.maxCount > 0 && PlanOf(blocks, wire, lim).Ok?
    ensures IsPlan(PlanOf(blocks, wire, lim).value, blocks, wire, lim)
    ensures Flatten(BlocksOf(PlanOf(blocks, wire, lim).value)) == SortBlocks(blocks)
  {
    var sorted := SortBlocks(blocks);
    OrderedOk(blocks);
    FirstOversizeNone(sorted, wire.size, lim);
    PlanOfOrdered(sorted, wire, lim);
    GoIsFull(sorted, wire.size, lim);
    assert BlocksOf(PlanOf(blocks, wire, lim).value) == G.Go([], sorted, wire.size, lim);
  }

  lemma SameBatches(a: seq<PlannedBatch>, b: seq<PlannedBatch>, wire: Wire)
    requires WellFormedPlan(a, wire) && WellFormedPlan(b, wire) && BlocksOf(a) == BlocksOf(b)
    ensures a == b
  {
    assert |a| == |BlocksOf(a)| == |b|;
    forall i | 0 <= i < |a| ensures a[i] == b[i] {
      assert BlocksOf(a)[i] == BlocksOf(b)[i];
    }
  }

  /** The description determines the plan. */
  lemma PlanDetermined(blocks: seq<LogicalBlock>, wire: Wire, lim: G.Limits, plan: seq<PlannedBatch>)
    requires lim.maxCount > 0 && PlanOf(blocks, wire, lim).Ok?
    ensures plan == PlanOf(blocks, wire, lim).value <==> IsPlan(plan, blocks, wire, lim)
  {
    PlanIsPlan(blocks, wire, lim);
    if IsPlan(plan, blocks, wire, lim) {
      var sorted, made := SortBlocks(blocks), PlanOf(blocks, wire, lim).value;
      OrderedExactly(blocks);
      SortedDistinct(blocks);
      OrdersDistinct(sorted);
      SortAscending(blocks);
      AscendingUnique(sorted, Flatten(BlocksOf(plan)));
      FullPartitionUnique(BlocksOf(plan), BlocksOf(made), sorted, wire.size, lim);
      SameBatches(plan, made, wire);
    }
  }
}
