/** Deterministic delivery planning: canonical block order, greedy batches, stable hashes. */
module Batching {
  import opened Base
  import G = Greedy

  datatype LogicalBlock = LogicalBlock(blockId: string, parentBlockId: string, blockType: string,
                                       text: string, orderIndex: int)

  datatype PlanError = EmptyDocument | DuplicateBlockId | DuplicateOrderIndex | BlockTooLarge(blockId: string)

  /** What the mapper and the canonical hash supply: the admission size of a block, the
      content hash and the canonical byte length of a batch. */
  datatype Wire = Wire(size: LogicalBlock -> nat, hash: seq<LogicalBlock> -> string, bytes: seq<LogicalBlock> -> nat)

  datatype PlannedBatch = PlannedBatch(batchIndex: nat, blocks: seq<LogicalBlock>, isLast: bool,
                                       contentHash: string, serializedBytes: nat)

  // ---------------------------------------------------------------- canonical order

  predicate LexLe(a: string, b: string) {
    a == [] || (b != [] && (a[0] < b[0] || (a[0] == b[0] && LexLe(a[1..], b[1..]))))
  }

  /** `a` sorts no later than `b` under the key (order_index, block_id). */
  predicate KeyLe(a: LogicalBlock, b: LogicalBlock) {
    a.orderIndex < b.orderIndex || (a.orderIndex == b.orderIndex && LexLe(a.blockId, b.blockId))
  }

  function Insert(x: LogicalBlock, xs: seq<LogicalBlock>): (r: seq<LogicalBlock>)
    ensures multiset(r) == multiset(xs) + multiset{x}
  {
    if xs == [] || KeyLe(x, xs[0]) then [x] + xs
    else
      assert xs == [xs[0]] + xs[1..];
      [xs[0]] + Insert(x, xs[1..])
  }

  function SortBlocks(xs: seq<LogicalBlock>): (r: seq<LogicalBlock>)
    ensures multiset(r) == multiset(xs)
  {
    if xs == [] then []
    else
      assert xs == [xs[0]] + xs[1..];
      Insert(xs[0], SortBlocks(xs[1..]))
  }

  predicate Ascending(xs: seq<LogicalBlock>) {
    forall i, j :: 0 <= i < j < |xs| ==> xs[i].orderIndex <= xs[j].orderIndex
  }

  lemma {:induction false} InsertAscending(x: LogicalBlock, xs: seq<LogicalBlock>)
    requires Ascending(xs)
    ensures Ascending(Insert(x, xs))
    decreases |xs|
  {
    if xs != [] && !KeyLe(x, xs[0]) {
      InsertAscending(x, xs[1..]);
      var tail := Insert(x, xs[1..]);
      forall j | 0 <= j < |tail| ensures xs[0].orderIndex <= tail[j].orderIndex {
        assert tail[j] in multiset(tail);
        assert tail[j] == x || tail[j] in xs[1..];
      }
    }
  }

  lemma {:induction false} SortAscending(xs: seq<LogicalBlock>)
    ensures Ascending(SortBlocks(xs))
  {
    if xs != [] {
      SortAscending(xs[1..]);
      InsertAscending(xs[0], SortBlocks(xs[1..]));
    }
  }

  /** The uniqueness test of the planner: as many distinct values as positions. */
  predicate DistinctIds(xs: seq<LogicalBlock>) {
    |(set b | b in xs :: b.blockId)| == |xs|
  }

  predicate DistinctOrder(xs: seq<LogicalBlock>) {
    |(set b | b in xs :: b.orderIndex)| == |xs|
  }

  function Ordered(blocks: seq<LogicalBlock>): Result<seq<LogicalBlock>, PlanError> {
    if blocks == [] then Err(EmptyDocument)
    else
      var ordered := SortBlocks(blocks);
      if !DistinctIds(ordered) then Err(DuplicateBlockId)
      else if !DistinctOrder(ordered) then Err(DuplicateOrderIndex)
      else Ok(ordered)
  }

  lemma {:induction false} DistinctOrderPairwise(xs: seq<LogicalBlock>, i: nat, j: nat)
    requires DistinctOrder(xs) && i < j < |xs|
    ensures xs[i].orderIndex != xs[j].orderIndex
  {
    if xs[i].orderIndex == xs[j].orderIndex {
      var rest := xs[..i] + xs[i + 1..];
      var keys, fewer := (set b | b in xs :: b.orderIndex), (set b | b in rest :: b.orderIndex);
      forall k | k in keys ensures k in fewer {
        var b :| b in xs && b.orderIndex == k;
        var at :| 0 <= at < |xs| && xs[at] == b;
        if at < i { assert rest[at] == b; }
        else if at == i { assert rest[j - 1] == xs[j]; }
        else { assert rest[at - 1] == b; }
      }
      assert keys <= fewer;
      OrderKeysBounded(rest);
      CardinalityMonotone(keys, fewer);
    }
  }

  lemma {:induction false} OrderKeysBounded(xs: seq<LogicalBlock>)
    ensures |(set b | b in xs :: b.orderIndex)| <= |xs|
  {
    if xs != [] {
      OrderKeysBounded(xs[1..]);
      var all, fewer := (set b | b in xs :: b.orderIndex), (set b | b in xs[1..] :: b.orderIndex);
      assert all <= fewer + {xs[0].orderIndex};
      CardinalityMonotone(all, fewer + {xs[0].orderIndex});
    }
  }

  lemma {:induction false} CardinalityMonotone<T>(a: set<T>, b: set<T>)
    requires a <= b
    ensures |a| <= |b|
  {
    assert b == a + (b - a);
  }

  predicate DistinctKeys(xs: seq<LogicalBlock>) {
    forall i, j :: 0 <= i < j < |xs| ==> xs[i].orderIndex != xs[j].orderIndex
  }

  lemma SameLength<T>(a: seq<T>, b: seq<T>)
    requires multiset(a) == multiset(b)
    ensures |a| == |b|
  {
    assert |a| == |multiset(a)| == |multiset(b)| == |b|;
  }

  lemma HeadsAgree(a: seq<LogicalBlock>, b: seq<LogicalBlock>)
    requires a != [] && b != []
    requires a[0] in b && b[0] in a
    requires Ascending(a) && Ascending(b) && DistinctKeys(a)
    ensures a[0] == b[0]
  {
    var i :| 0 <= i < |a| && a[i] == b[0];
    var j :| 0 <= j < |b| && b[j] == a[0];
    assert a[0].orderIndex <= a[i].orderIndex && b[0].orderIndex <= b[j].orderIndex;
  }

  lemma DropHead<T>(a: seq<T>, b: seq<T>)
    requires a != [] && b != [] && a[0] == b[0] && multiset(a) == multiset(b)
    ensures multiset(a[1..]) == multiset(b[1..])
  {
    assert a == [a[0]] + a[1..] && b == [b[0]] + b[1..];
    assert multiset(a[1..]) == multiset(a) - multiset{a[0]};
    assert multiset(b[1..]) == multiset(b) - multiset{b[0]};
  }

  /** Strictly ascending sequences with the same elements are equal. */
  lemma {:induction false} AscendingUnique(a: seq<LogicalBlock>, b: seq<LogicalBlock>)
    requires multiset(a) == multiset(b)
    requires Ascending(a) && Ascending(b) && DistinctKeys(a)
    ensures a == b
    decreases |a|
  {
    SameLength(a, b);
    if a != [] {
      SameMembers(a, b);
      HeadsAgree(a, b);
      DropHead(a, b);
      AscendingUnique(a[1..], b[1..]);
      assert a == [a[0]] + a[1..] && b == [b[0]] + b[1..];
    }
  }

  /** The canonical order depends on the blocks, never on the order they arrive in;
      the same holds of the error that rejects them. */
  lemma OrderedIgnoresInputOrder(a: seq<LogicalBlock>, b: seq<LogicalBlock>)
    requires multiset(a) == multiset(b)
    ensures Ordered(a) == Ordered(b)
  {
    SameLength(a, b);
    var sa, sb := SortBlocks(a), SortBlocks(b);
    SameLength(sa, sb);
    SameMembers(sa, sb);
    assert (set x | x in sa :: x.blockId) == (set x | x in sb :: x.blockId);
    assert (set x | x in sa :: x.orderIndex) == (set x | x in sb :: x.orderIndex);
    if DistinctOrder(sa) {
      SortAscending(a);
      SortAscending(b);
      forall i, j | 0 <= i < j < |sa| ensures sa[i].orderIndex != sa[j].orderIndex {
        DistinctOrderPairwise(sa, i, j);
      }
      AscendingUnique(sa, sb);
    }
  }

  lemma SameMembers<T>(a: seq<T>, b: seq<T>)
    requires multiset(a) == multiset(b)
    ensures forall x :: x in a <==> x in b
  {
    forall x ensures x in a <==> x in b {
      assert x in a <==> x in multiset(a);
      assert x in b <==> x in multiset(b);
    }
  }

  // ---------------------------------------------------------------- batches

  function FirstOversize(xs: seq<LogicalBlock>, size: LogicalBlock -> nat, lim: G.Limits): Option<string> {
    if xs == [] then None
    else if G.Oversize(xs[0], size, lim) then Some(xs[0].blockId)
    else FirstOversize(xs[1..], size, lim)
  }

  function Batches(chunks: seq<seq<LogicalBlock>>, wire: Wire): (r: seq<PlannedBatch>)
    ensures |r| == |chunks|
  {
    seq(|chunks|, i requires 0 <= i < |chunks| =>
      PlannedBatch(i, chunks[i], i == |chunks| - 1, wire.hash(chunks[i]), wire.bytes(chunks[i])))
  }

  function PlanOf(blocks: seq<LogicalBlock>, wire: Wire, lim: G.Limits): Result<seq<PlannedBatch>, PlanError> {
    match Ordered(blocks)
    case Err(e) => Err(e)
    case Ok(ordered) =>
      match FirstOversize(ordered, wire.size, lim)
      case Some(id) => Err(BlockTooLarge(id))
      case None => Ok(Batches(G.Go([], ordered, wire.size, lim), wire))
  }

  lemma {:induction false} FirstOversizeNone(xs: seq<LogicalBlock>, size: LogicalBlock -> nat, lim: G.Limits)
    ensures FirstOversize(xs, size, lim).None? <==> forall k :: 0 <= k < |xs| ==> !G.Oversize(xs[k], size, lim)
  {
    if xs != [] {
      FirstOversizeNone(xs[1..], size, lim);
      assert forall k :: 0 < k < |xs| ==> xs[k] == xs[1..][k - 1];
      if forall k :: 0 <= k < |xs| ==> !G.Oversize(xs[k], size, lim) {
        assert !G.Oversize(xs[0], size, lim);
        forall k | 0 <= k < |xs[1..]| ensures !G.Oversize(xs[1..][k], size, lim) {
          assert xs[1..][k] == xs[k + 1];
        }
      }
    }
  }

  /** The partition loop before block `i`: closed chunks, the open one, nothing oversized. */
  ghost predicate Partitioning(ordered: seq<LogicalBlock>, size: LogicalBlock -> nat, lim: G.Limits,
                               chunks: seq<seq<LogicalBlock>>, current: seq<LogicalBlock>, i: nat) {
    && i <= |ordered|
    && FirstOversize(ordered, size, lim) == FirstOversize(ordered[i..], size, lim)
    && chunks + G.Go(current, ordered[i..], size, lim) == G.Go([], ordered, size, lim)
  }

  lemma PartitionStep(ordered: seq<LogicalBlock>, size: LogicalBlock -> nat, lim: G.Limits,
                      chunks: seq<seq<LogicalBlock>>, current: seq<LogicalBlock>, i: nat)
    requires Partitioning(ordered, size, lim, chunks, current, i) && i < |ordered| && !G.Oversize(ordered[i], size, lim)
    ensures if G.MustClose(current, ordered[i], size, lim)
            then Partitioning(ordered, size, lim, chunks + [current], [ordered[i]], i + 1)
            else Partitioning(ordered, size, lim, chunks, current + [ordered[i]], i + 1)
  {
    var rest, block, tail := ordered[i..], ordered[i], ordered[i + 1..];
    assert rest[0] == block && rest[1..] == tail;
    if G.MustClose(current, block, size, lim) {
      var more := G.Go([block], tail, size, lim);
      assert (chunks + [current]) + more == chunks + ([current] + more);
    }
  }

  /** Rejected inputs have no admissible partition; accepted ones get a smallest one. */
  ghost predicate Smallest(ordered: seq<LogicalBlock>, size: LogicalBlock -> nat, lim: G.Limits,
                           chunks: seq<seq<LogicalBlock>>) {
    && G.IsPartition(chunks, ordered, size, lim)
    && forall other :: G.IsPartition(other, ordered, size, lim) ==> |chunks| <= |other|
  }

  lemma PartitionIsSmallest(ordered: seq<LogicalBlock>, size: LogicalBlock -> nat, lim: G.Limits)
    requires lim.maxCount > 0 && FirstOversize(ordered, size, lim).None?
    ensures Smallest(ordered, size, lim, G.Go([], ordered, size, lim))
  {
    FirstOversizeNone(ordered, size, lim);
    G.GoIsPartition([], ordered, size, lim);
    assert [] + ordered == ordered;
    forall other | G.IsPartition(other, ordered, size, lim) ensures |G.Go([], ordered, size, lim)| <= |other| {
      G.GreedyIsMinimal(ordered, other, size, lim);
    }
  }

  lemma OversizeRejects(ordered: seq<LogicalBlock>, size: LogicalBlock -> nat, lim: G.Limits, i: nat)
    requires i < |ordered| && G.Oversize(ordered[i], size, lim)
    ensures forall other :: !G.IsPartition(other, ordered, size, lim)
  {
    forall other ensures !G.IsPartition(other, ordered, size, lim) {
      G.OversizeRulesOutPartition(ordered, i, other, size, lim);
    }
  }

  method Partition(ordered: seq<LogicalBlock>, wire: Wire, lim: G.Limits)
    returns (r: Result<seq<seq<LogicalBlock>>, PlanError>)
    requires lim.maxCount > 0
    ensures r.Err? <==> FirstOversize(ordered, wire.size, lim).Some?
    ensures r.Err? ==> r.error == BlockTooLarge(FirstOversize(ordered, wire.size, lim).value)
    ensures r.Ok? ==> r.value == G.Go([], ordered, wire.size, lim)
    ensures r.Err? ==> forall other :: !G.IsPartition(other, ordered, wire.size, lim)
    ensures r.Ok? ==> Smallest(ordered, wire.size, lim, r.value)
  {
    var chunks: seq<seq<LogicalBlock>> := [];
    var current: seq<LogicalBlock> := [];
    var currentBytes: nat := 0;
    var i: nat := 0;
    assert ordered[0..] == ordered;
    while i < |ordered|
      invariant Partitioning(ordered, wire.size, lim, chunks, current, i)
      invariant currentBytes == G.Weight(current, wire.size)
    {
      var block := ordered[i];
      var size := wire.size(block);
      assert ordered[i..][0] == block;
      if lim.maxBytes.Some? && size > lim.maxBytes.value {
        OversizeRejects(ordered, wire.size, lim, i);
        return Err(BlockTooLarge(block.blockId));
      }
      chunks, current, currentBytes := AddBlock(ordered, wire.size, lim, chunks, current, currentBytes, i);
      i := i + 1;
    }
    LastChunk(ordered, wire.size, lim, chunks, current);
    if current != [] {
      chunks := chunks + [current];
    }
    PartitionIsSmallest(ordered, wire.size, lim);
    return Ok(chunks);
  }

  lemma LastChunk(ordered: seq<LogicalBlock>, size: LogicalBlock -> nat, lim: G.Limits, chunks: seq<seq<LogicalBlock>>,
                  current: seq<LogicalBlock>)
    requires Partitioning(ordered, size, lim, chunks, current, |ordered|)
    ensures FirstOversize(ordered, size, lim).None?
    ensures (if current == [] then chunks else chunks + [current]) == G.Go([], ordered, size, lim)
  {
    assert ordered[|ordered|..] == [];
    assert chunks + [] == chunks;
  }

  /** One block that fits joins the open chunk, or closes it when a limit demands it. */
  method AddBlock(ordered: seq<LogicalBlock>, size: LogicalBlock -> nat, lim: G.Limits, chunks: seq<seq<LogicalBlock>>,
                  current: seq<LogicalBlock>, bytes: nat, i: nat)
    returns (chunks': seq<seq<LogicalBlock>>, current': seq<LogicalBlock>, bytes': nat)
    requires Partitioning(ordered, size, lim, chunks, current, i) && bytes == G.Weight(current, size)
    requires i < |ordered| && !G.Oversize(ordered[i], size, lim) && lim.maxCount > 0
    ensures Partitioning(ordered, size, lim, chunks', current', i + 1) && bytes' == G.Weight(current', size)
  {
    var block := ordered[i];
    PartitionStep(ordered, size, lim, chunks, current, i);
    var exceedsCount := |current| >= lim.maxCount;
    var exceedsBytes := lim.maxBytes.Some? && current != [] && bytes + size(block) > lim.maxBytes.value;
    chunks', current', bytes' := chunks, current, bytes;
    if exceedsCount || exceedsBytes {
      chunks', current', bytes' := chunks + [current], [], 0;
      assert [] + [block] == [block];
    }
    G.WeightSnoc(current', block, size);
    current', bytes' := current' + [block], bytes' + size(block);
  }

  method Enumerate(chunks: seq<seq<LogicalBlock>>, wire: Wire) returns (planned: seq<PlannedBatch>)
    ensures planned == Batches(chunks, wire)
  {
    planned := [];
    for i := 0 to |chunks|
      invariant |planned| == i
      invariant forall j :: 0 <= j < i ==> planned[j] == Batches(chunks, wire)[j]
    {
      planned := planned + [PlannedBatch(i, chunks[i], i == |chunks| - 1, wire.hash(chunks[i]), wire.bytes(chunks[i]))];
    }
  }

  method Plan(blocks: seq<LogicalBlock>, wire: Wire, lim: G.Limits)
    returns (r: Result<seq<PlannedBatch>, PlanError>)
    requires lim.maxCount > 0
    ensures r == PlanOf(blocks, wire, lim)
  {
    var ordered := Ordered(blocks);
    if ordered.Err? {
      return Err(ordered.error);
    }
    var parts := Partition(ordered.value, wire, lim);
    if parts.Err? {
      return Err(parts.error);
    }
    var planned := Enumerate(parts.value, wire);
    return Ok(planned);
  }

  function BlocksOf(plan: seq<PlannedBatch>): (r: seq<seq<LogicalBlock>>)
    ensures |r| == |plan|
  {
    seq(|plan|, i requires 0 <= i < |plan| => plan[i].blocks)
  }

  /** Replay determinism of planning: any permutation of the blocks gives the same batches,
      indexes and hashes, or the same rejection. */
  lemma PlanIgnoresInputOrder(a: seq<LogicalBlock>, b: seq<LogicalBlock>, wire: Wire, lim: G.Limits)
    requires multiset(a) == multiset(b)
    ensures PlanOf(a, wire, lim) == PlanOf(b, wire, lim)
  {
    OrderedIgnoresInputOrder(a, b);
  }

  /** The shape every plan has: non-empty batches numbered from zero, the hash and the length
      of each those of its own blocks, exactly the final one marked last. */
  ghost predicate WellFormedPlan(plan: seq<PlannedBatch>, wire: Wire) {
    forall i :: 0 <= i < |plan| ==>
      && plan[i].batchIndex == i && plan[i].blocks != []
      && (plan[i].isLast <==> i == |plan| - 1)
      && plan[i].contentHash == wire.hash(plan[i].blocks) && plan[i].serializedBytes == wire.bytes(plan[i].blocks)
  }

  lemma OrderedOk(blocks: seq<LogicalBlock>)
    requires Ordered(blocks).Ok?
    ensures var ordered := Ordered(blocks).value;
            multiset(ordered) == multiset(blocks) && Ascending(ordered) && ordered != []
  {
    SortAscending(blocks);
    SameLength(SortBlocks(blocks), blocks);
  }

  /** A plan carries every block once, in ascending order_index, in well-formed batches. */
  lemma PlanCoversBlocks(blocks: seq<LogicalBlock>, wire: Wire, lim: G.Limits)
    requires lim.maxCount > 0 && PlanOf(blocks, wire, lim).Ok?
    ensures var plan := PlanOf(blocks, wire, lim).value;
            && multiset(Flatten(BlocksOf(plan))) == multiset(blocks)
            && Ascending(Flatten(BlocksOf(plan)))
            && plan != []
            && WellFormedPlan(plan, wire)
  {
    OrderedOk(blocks);
    var ordered := Ordered(blocks).value;
    PlanOfOrdered(ordered, wire, lim);
  }

  lemma PlanOfOrdered(ordered: seq<LogicalBlock>, wire: Wire, lim: G.Limits)
    requires lim.maxCount > 0 && FirstOversize(ordered, wire.size, lim).None? && ordered != []
    ensures var plan := Batches(G.Go([], ordered, wire.size, lim), wire);
            Flatten(BlocksOf(plan)) == ordered && plan != [] && WellFormedPlan(plan, wire)
  {
    var chunks := G.Go([], ordered, wire.size, lim);
    FirstOversizeNone(ordered, wire.size, lim);
    G.GoIsPartition([], ordered, wire.size, lim);
    assert [] + ordered == ordered;
    assert BlocksOf(Batches(chunks, wire)) == chunks;
  }
}
