/** The order-preserving greedy partition used by the delivery planner and by the artifact
    writer: close the open piece exactly when the next item would break a limit. */
module Greedy {
  import opened Base

  datatype Limits = Limits(maxCount: nat, maxBytes: Option<nat>)

  function Weight<T>(xs: seq<T>, size: T -> nat): nat {
    if xs == [] then 0 else Weight(xs[..|xs| - 1], size) + size(xs[|xs| - 1])
  }

  predicate Fits<T>(xs: seq<T>, size: T -> nat, lim: Limits) {
    |xs| <= lim.maxCount && (lim.maxBytes.Some? ==> Weight(xs, size) <= lim.maxBytes.value)
  }

  /** A partition of `xs` that respects the limits. */
  ghost predicate IsPartition<T>(pieces: seq<seq<T>>, xs: seq<T>, size: T -> nat, lim: Limits) {
    && Flatten(pieces) == xs
    && forall k :: 0 <= k < |pieces| ==> pieces[k] != [] && Fits(pieces[k], size, lim)
  }

  predicate Oversize<T>(x: T, size: T -> nat, lim: Limits) {
    lim.maxBytes.Some? && size(x) > lim.maxBytes.value
  }

  /** The item `x` must start a new piece when `open` is the piece being filled. */
  predicate MustClose<T>(open: seq<T>, x: T, size: T -> nat, lim: Limits) {
    && open != []
    && (|open| >= lim.maxCount
        || (lim.maxBytes.Some? && Weight(open, size) + size(x) > lim.maxBytes.value))
  }

  /** Pieces still to be emitted when `open` is being filled and `rest` is unread. */
  function Go<T>(open: seq<T>, rest: seq<T>, size: T -> nat, lim: Limits): seq<seq<T>>
    decreases |rest|
  {
    if rest == [] then
      if open == [] then [] else [open]
    else if MustClose(open, rest[0], size, lim) then
      [open] + Go([rest[0]], rest[1..], size, lim)
    else
      Go(open + [rest[0]], rest[1..], size, lim)
  }

  lemma WeightSnoc<T>(xs: seq<T>, x: T, size: T -> nat)
    ensures Weight(xs + [x], size) == Weight(xs, size) + size(x)
  {
    assert (xs + [x])[..|xs|] == xs;
  }

  lemma {:induction false} WeightConcat<T>(a: seq<T>, b: seq<T>, size: T -> nat)
    ensures Weight(a + b, size) == Weight(a, size) + Weight(b, size)
  {
    if b == [] {
      assert a + b == a;
    } else {
      WeightConcat(a, b[..|b| - 1], size);
      assert (a + b)[..|a + b| - 1] == a + b[..|b| - 1];
    }
  }

  /** Every contiguous part of a fitting piece fits. */
  lemma FitsInfix<T>(a: seq<T>, b: seq<T>, c: seq<T>, size: T -> nat, lim: Limits)
    requires Fits(a + b + c, size, lim)
    ensures Fits(b, size, lim)
  {
    WeightConcat(a + b, c, size);
    WeightConcat(a, b, size);
  }

  lemma {:induction false} WeightOfMember<T>(xs: seq<T>, k: nat, size: T -> nat)
    requires k < |xs|
    ensures size(xs[k]) <= Weight(xs, size)
  {
    assert xs == xs[..k] + [xs[k]] + xs[k + 1..];
    WeightConcat(xs[..k] + [xs[k]], xs[k + 1..], size);
    WeightSnoc(xs[..k], xs[k], size);
  }

  lemma PartitionOne<T>(open: seq<T>, size: T -> nat, lim: Limits)
    requires Fits(open, size, lim)
    ensures IsPartition(if open == [] then [] else [open], open, size, lim)
  {
    FlattenSnoc<T>([], open);
    assert [] + [open] == [open];
  }

  /** An item that need not start a new piece joins the open one. */
  lemma FitsSnoc<T>(open: seq<T>, x: T, size: T -> nat, lim: Limits)
    requires lim.maxCount > 0 && Fits(open, size, lim) && !Oversize(x, size, lim) && !MustClose(open, x, size, lim)
    ensures Fits(open + [x], size, lim)
  {
    WeightSnoc(open, x, size);
  }

  lemma PartitionCons<T>(open: seq<T>, pieces: seq<seq<T>>, rest: seq<T>, size: T -> nat, lim: Limits)
    requires open != [] && Fits(open, size, lim) && IsPartition(pieces, rest, size, lim)
    ensures IsPartition([open] + pieces, open + rest, size, lim)
  {
    assert ([open] + pieces)[1..] == pieces;
  }

  /** Greedy output is a partition within the limits when no single item is oversize. */
  lemma {:induction false} GoIsPartition<T>(open: seq<T>, rest: seq<T>, size: T -> nat, lim: Limits)
    requires lim.maxCount > 0
    requires Fits(open, size, lim)
    requires forall k :: 0 <= k < |rest| ==> !Oversize(rest[k], size, lim)
    ensures IsPartition(Go(open, rest, size, lim), open + rest, size, lim)
    decreases |rest|
  {
    if rest == [] {
      assert open + rest == open;
      PartitionOne(open, size, lim);
    } else if MustClose(open, rest[0], size, lim) {
      var x, tail := rest[0], rest[1..];
      WeightSnoc([], x, size);
      assert [] + [x] == [x];
      GoIsPartition([x], tail, size, lim);
      assert [x] + tail == rest;
      PartitionCons(open, Go([x], tail, size, lim), rest, size, lim);
    } else {
      var x, tail := rest[0], rest[1..];
      FitsSnoc(open, x, size, lim);
      GoIsPartition(open + [x], tail, size, lim);
      assert open + [x] + tail == open + rest;
    }
  }

  /** Greedy stays ahead: whatever another partition has already placed before `open`
      (the part called `before`), it needs at least as many further pieces. */
  lemma {:induction false} GoOptimal<T>(before: seq<T>, open: seq<T>, rest: seq<T>, other: seq<seq<T>>,
                                        size: T -> nat, lim: Limits)
    requires open != []
    requires IsPartition(other, before + open + rest, size, lim)
    ensures |Go(open, rest, size, lim)| <= |other|
    decreases |rest|
  {
    if rest == [] {
    } else if MustClose(open, rest[0], size, lim) {
      var x, tail := rest[0], rest[1..];
      var all := before + open + rest;
      var first := other[0];
      assert all == first + Flatten(other[1..]);
      var pre := before + open;
      if |first| > |pre| {
        assert first == all[..|first|];
        assert first == before + (open + [x]) + first[|pre| + 1..];
        FitsInfix(before, open + [x], first[|pre| + 1..], size, lim);
        WeightSnoc(open, x, size);
        assert false;
      }
      var skipped := pre[|first|..];
      assert Flatten(other[1..]) == all[|first|..] == skipped + [x] + tail;
      GoOptimal(skipped, [x], tail, other[1..], size, lim);
    } else {
      assert before + (open + [rest[0]]) + rest[1..] == before + open + rest;
      GoOptimal(before, open + [rest[0]], rest[1..], other, size, lim);
    }
  }

  /** No partition within the limits has fewer pieces than the greedy one. */
  lemma GreedyIsMinimal<T>(xs: seq<T>, other: seq<seq<T>>, size: T -> nat, lim: Limits)
    requires IsPartition(other, xs, size, lim)
    ensures |Go([], xs, size, lim)| <= |other|
  {
    if xs != [] {
      assert [] + [xs[0]] + xs[1..] == xs;
      GoOptimal([], [xs[0]], xs[1..], other, size, lim);
      assert [] + [xs[0]] == [xs[0]];
    }
  }

  /** An oversize item rules out every partition, so rejecting the input loses nothing. */
  lemma {:induction false} OversizeRulesOutPartition<T>(xs: seq<T>, k: nat, pieces: seq<seq<T>>, size: T -> nat,
                                                        lim: Limits)
    requires k < |xs| && Oversize(xs[k], size, lim)
    ensures !IsPartition(pieces, xs, size, lim)
    decreases |pieces|
  {
    if IsPartition(pieces, xs, size, lim) {
      var first := pieces[0];
      assert xs == first + Flatten(pieces[1..]);
      if k < |first| {
        WeightOfMember(first, k, size);
      } else {
        OversizeRulesOutPartition(xs[|first|..], k - |first|, pieces[1..], size, lim);
      }
    }
  }
}
