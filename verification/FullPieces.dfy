/** The greedy partition told without its loop: within the limits, and as full as it can be.
    There is only one such partition. */
module FullPieces {
  import opened Base
  import F = Filling
  import G = Greedy

  function Unfit<T>(size: T -> nat, lim: G.Limits): seq<T> -> bool {
    xs => !G.Fits(xs, size, lim)
  }

  function Never<T>(): T -> bool {
    x => false
  }

  /** An item starts a new piece exactly when the open one would no longer fit with it. */
  lemma CloseIffUnfit<T>(open: seq<T>, x: T, size: T -> nat, lim: G.Limits)
    ensures G.MustClose(open, x, size, lim) <==> open != [] && !G.Fits(open + [x], size, lim)
  {
    G.WeightSnoc(open, x, size);
  }

  lemma ItemsCons<T>(open: seq<T>, more: seq<F.Piece<T>>)
    requires open != []
    ensures F.Items(F.Hold(open) + more) == [open] + F.Items(more)
  {
  }

  lemma {:induction false} GoFills<T>(open: seq<T>, rest: seq<T>, size: T -> nat, lim: G.Limits)
    ensures G.Go(open, rest, size, lim) == F.Items(F.Fill(open, rest, Never(), Unfit(size, lim)))
    decreases |rest|
  {
    if rest != [] {
      var x, tail := rest[0], rest[1..];
      CloseIffUnfit(open, x, size, lim);
      if G.MustClose(open, x, size, lim) {
        GoFills([x], tail, size, lim);
        ItemsCons(open, F.Fill([x], tail, Never(), Unfit(size, lim)));
      } else {
        GoFills(open + [x], tail, size, lim);
      }
    }
  }

  /** A piece closed before another is full: with the first item of the next it would break
      a limit. */
  ghost predicate FullBefore<T>(pieces: seq<seq<T>>, size: T -> nat, lim: G.Limits, k: nat)
    requires 0 < k < |pieces|
  {
    pieces[k] != [] ==> !G.Fits(pieces[k - 1] + [pieces[k][0]], size, lim)
  }

  /** A partition within the limits whose pieces are as full as they can be. */
  ghost predicate FullPartition<T>(pieces: seq<seq<T>>, xs: seq<T>, size: T -> nat, lim: G.Limits) {
    G.IsPartition(pieces, xs, size, lim) && forall k: nat :: 0 < k < |pieces| ==> FullBefore(pieces, size, lim, k)
  }

  lemma GoIsFull<T>(xs: seq<T>, size: T -> nat, lim: G.Limits)
    requires lim.maxCount > 0 && forall k :: 0 <= k < |xs| ==> !G.Oversize(xs[k], size, lim)
    ensures FullPartition(G.Go([], xs, size, lim), xs, size, lim)
  {
    var pieces := F.Fill([], xs, Never(), Unfit(size, lim));
    GoFills([], xs, size, lim);
    G.GoIsPartition([], xs, size, lim);
    F.FillIsFilled([], xs, Never(), Unfit(size, lim));
    assert [] + xs == xs;
    var items := G.Go([], xs, size, lim);
    forall k: nat | 0 < k < |items| ensures FullBefore(items, size, lim, k) {
      assert F.Full(pieces[k - 1], pieces[k], Unfit(size, lim));
      assert F.PieceOk(pieces[k - 1], Never(), Unfit(size, lim)) && F.PieceOk(pieces[k], Never(), Unfit(size, lim));
    }
  }

  function Short<T>(pieces: seq<seq<T>>): (r: seq<F.Piece<T>>)
    ensures |r| == |pieces|
  {
    seq(|pieces|, k requires 0 <= k < |pieces| => F.Piece(pieces[k], false))
  }

  lemma FitsPrefix<T>(xs: seq<T>, j: nat, size: T -> nat, lim: G.Limits)
    requires j <= |xs| && G.Fits(xs, size, lim)
    ensures G.Fits(xs[..j], size, lim)
  {
    assert [] + xs[..j] + xs[j..] == xs;
    G.FitsInfix([], xs[..j], xs[j..], size, lim);
  }

  lemma ShortFilled<T>(pieces: seq<seq<T>>, xs: seq<T>, size: T -> nat, lim: G.Limits)
    requires FullPartition(pieces, xs, size, lim)
    ensures F.Filled(Short(pieces), xs, Never(), Unfit(size, lim))
  {
    var all := Short(pieces);
    assert F.Items(all) == pieces;
    forall k | 0 <= k < |all| ensures F.PieceOk(all[k], Never(), Unfit(size, lim)) {
      forall j | 1 < j <= |pieces[k]| ensures G.Fits(pieces[k][..j], size, lim) {
        FitsPrefix(pieces[k], j, size, lim);
      }
    }
    forall k | 0 < k < |all| ensures F.Full(all[k - 1], all[k], Unfit(size, lim)) {
      assert FullBefore(pieces, size, lim, k);
    }
  }

  /** There is only one full partition: the greedy one. */
  lemma FullPartitionUnique<T>(a: seq<seq<T>>, b: seq<seq<T>>, xs: seq<T>, size: T -> nat, lim: G.Limits)
    requires FullPartition(a, xs, size, lim) && FullPartition(b, xs, size, lim)
    ensures a == b
  {
    ShortFilled(a, xs, size, lim);
    ShortFilled(b, xs, size, lim);
    F.FilledUnique(Short(a), Short(b), xs, Never(), Unfit(size, lim));
    assert F.Items(Short(a)) == a && F.Items(Short(b)) == b;
  }

  /** The greedy pieces, exactly. */
  lemma GoExactly<T>(xs: seq<T>, pieces: seq<seq<T>>, size: T -> nat, lim: G.Limits)
    requires lim.maxCount > 0 && forall k :: 0 <= k < |xs| ==> !G.Oversize(xs[k], size, lim)
    ensures pieces == G.Go([], xs, size, lim) <==> FullPartition(pieces, xs, size, lim)
  {
    GoIsFull(xs, size, lim);
    if FullPartition(pieces, xs, size, lim) {
      FullPartitionUnique(pieces, G.Go([], xs, size, lim), xs, size, lim);
    }
  }
}
