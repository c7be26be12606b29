/** Greedy filling: items are taken in order, a long one stands alone, the others are held
    until one more would be too much. The result is described without the loop, and that
    description leaves no choice. */
module Filling {
  import opened Base

  datatype Piece<T> = Piece(items: seq<T>, long: bool)

  function Hold<T>(current: seq<T>): seq<Piece<T>> {
    if current == [] then [] else [Piece(current, false)]
  }

  /** Pieces still to come when `current` is held and `rest` is unread. */
  function Fill<T>(current: seq<T>, rest: seq<T>, long: T -> bool, over: seq<T> -> bool): seq<Piece<T>>
    decreases |rest|
  {
    if rest == [] then Hold(current)
    else
      var x, tail := rest[0], rest[1..];
      if long(x) then Hold(current) + ([Piece([x], true)] + Fill([], tail, long, over))
      else if current != [] && over(current + [x]) then Hold(current) + Fill([x], tail, long, over)
      else Fill(current + [x], tail, long, over)
  }

  lemma FillLong<T>(current: seq<T>, x: T, tail: seq<T>, long: T -> bool, over: seq<T> -> bool)
    requires long(x)
    ensures Fill(current, [x] + tail, long, over)
         == Hold(current) + ([Piece([x], true)] + Fill([], tail, long, over))
  {
    assert ([x] + tail)[1..] == tail;
  }

  lemma FillBreak<T>(current: seq<T>, x: T, tail: seq<T>, long: T -> bool, over: seq<T> -> bool)
    requires !long(x) && current != [] && over(current + [x])
    ensures Fill(current, [x] + tail, long, over) == Hold(current) + Fill([x], tail, long, over)
  {
    assert ([x] + tail)[1..] == tail;
  }

  lemma FillJoin<T>(current: seq<T>, x: T, tail: seq<T>, long: T -> bool, over: seq<T> -> bool)
    requires !long(x) && (current != [] ==> !over(current + [x]))
    ensures Fill(current, [x] + tail, long, over) == Fill(current + [x], tail, long, over)
  {
    assert ([x] + tail)[1..] == tail;
  }

  function Items<T>(pieces: seq<Piece<T>>): (r: seq<seq<T>>)
    ensures |r| == |pieces|
  {
    seq(|pieces|, k requires 0 <= k < |pieces| => pieces[k].items)
  }

  // ---------------------------------------------------------------- the description

  ghost predicate NoneLong<T>(xs: seq<T>, long: T -> bool) {
    forall k :: 0 <= k < |xs| ==> !long(xs[k])
  }

  /** It was never too much, item by item. */
  ghost predicate Fits<T>(xs: seq<T>, over: seq<T> -> bool) {
    forall j :: 1 < j <= |xs| ==> !over(xs[..j])
  }

  ghost predicate PieceOk<T>(piece: Piece<T>, long: T -> bool, over: seq<T> -> bool) {
    && piece.items != []
    && if piece.long then |piece.items| == 1 && long(piece.items[0])
       else NoneLong(piece.items, long) && Fits(piece.items, over)
  }

  /** A piece closed before another short one is full: one more item would be too much. */
  ghost predicate Full<T>(prev: Piece<T>, next: Piece<T>, over: seq<T> -> bool) {
    !prev.long && !next.long && next.items != [] ==> over(prev.items + [next.items[0]])
  }

  /** `pieces` divide `xs` into consecutive runs, as full as they can be. */
  ghost predicate Filled<T>(pieces: seq<Piece<T>>, xs: seq<T>, long: T -> bool, over: seq<T> -> bool) {
    && Flatten(Items(pieces)) == xs
    && (forall k :: 0 <= k < |pieces| ==> PieceOk(pieces[k], long, over))
    && (forall k :: 0 < k < |pieces| ==> Full(pieces[k - 1], pieces[k], over))
  }

  lemma ItemsHead<T>(pieces: seq<Piece<T>>)
    requires pieces != []
    ensures Flatten(Items(pieces)) == pieces[0].items + Flatten(Items(pieces[1..]))
  {
    assert Items(pieces)[1..] == Items(pieces[1..]);
  }

  lemma ConsFilled<T>(piece: Piece<T>, pieces: seq<Piece<T>>, ys: seq<T>, long: T -> bool, over: seq<T> -> bool)
    requires Filled(pieces, ys, long, over) && PieceOk(piece, long, over)
    requires pieces != [] ==> Full(piece, pieces[0], over)
    ensures Filled([piece] + pieces, piece.items + ys, long, over)
  {
    var all := [piece] + pieces;
    ItemsHead(all);
    assert all[1..] == pieces;
    forall k | 0 < k < |all| ensures Full(all[k - 1], all[k], over) {
      if k > 1 {
        assert Full(pieces[k - 2], pieces[k - 1], over);
      }
    }
  }

  lemma FitsSnoc<T>(xs: seq<T>, x: T, over: seq<T> -> bool)
    requires Fits(xs, over) && (xs != [] ==> !over(xs + [x]))
    ensures Fits(xs + [x], over)
  {
    var all := xs + [x];
    forall j | 1 < j <= |all| ensures !over(all[..j]) {
      assert all[..j] == if j <= |xs| then xs[..j] else all;
    }
  }

  /** The first piece begins with what is held. */
  lemma {:induction false} FirstHeld<T>(current: seq<T>, rest: seq<T>, long: T -> bool, over: seq<T> -> bool)
    requires current != []
    ensures var r := Fill(current, rest, long, over);
            r != [] && !r[0].long && r[0].items != [] && r[0].items[0] == current[0]
    decreases |rest|
  {
    if rest != [] && !long(rest[0]) && !over(current + [rest[0]]) {
      FirstHeld(current + [rest[0]], rest[1..], long, over);
    }
  }

  lemma {:induction false} FillIsFilled<T>(current: seq<T>, rest: seq<T>, long: T -> bool, over: seq<T> -> bool)
    requires NoneLong(current, long) && Fits(current, over)
    ensures Filled(Fill(current, rest, long, over), current + rest, long, over)
    decreases |rest|
  {
    if rest == [] {
      HoldFilled(current, [], [], long, over);
      assert Hold(current) + [] == Hold(current);
    } else {
      var x, tail := rest[0], rest[1..];
      assert rest == [x] + tail;
      if long(x) {
        FillIsFilled([], tail, long, over);
        var more := Fill([], tail, long, over);
        assert [] + tail == tail;
        ConsFilled(Piece([x], true), more, tail, long, over);
        HoldFilled(current, [Piece([x], true)] + more, rest, long, over);
      } else if current != [] && over(current + [x]) {
        FillIsFilled([x], tail, long, over);
        FirstHeld([x], tail, long, over);
        HoldFilled(current, Fill([x], tail, long, over), rest, long, over);
      } else {
        FitsSnoc(current, x, over);
        FillIsFilled(current + [x], tail, long, over);
        assert current + [x] + tail == current + rest;
      }
    }
  }

  lemma HoldFilled<T>(current: seq<T>, pieces: seq<Piece<T>>, ys: seq<T>, long: T -> bool, over: seq<T> -> bool)
    requires NoneLong(current, long) && Fits(current, over) && Filled(pieces, ys, long, over)
    requires current != [] && pieces != [] ==> Full(Piece(current, false), pieces[0], over)
    ensures Filled(Hold(current) + pieces, current + ys, long, over)
  {
    if current == [] {
      assert Hold(current) + pieces == pieces && current + ys == ys;
    } else {
      ConsFilled(Piece(current, false), pieces, ys, long, over);
    }
  }

  // ---------------------------------------------------------------- no choice

  lemma FilledTail<T>(pieces: seq<Piece<T>>, xs: seq<T>, long: T -> bool, over: seq<T> -> bool)
    requires Filled(pieces, xs, long, over) && pieces != []
    ensures var n := |pieces[0].items|;
            && 0 < n <= |xs| && pieces[0].items == xs[..n] && Filled(pieces[1..], xs[n..], long, over)
            && (n < |xs| ==> |pieces| > 1 && pieces[1].items != [] && pieces[1].items[0] == xs[n])
  {
    var tail := pieces[1..];
    ItemsHead(pieces);
    assert PieceOk(pieces[0], long, over);
    forall k | 0 < k < |tail| ensures Full(tail[k - 1], tail[k], over) {
      assert Full(pieces[k], pieces[k + 1], over);
    }
    if tail != [] {
      ItemsHead(tail);
      assert PieceOk(tail[0], long, over);
    }
  }

  /** Where the first piece ends, the next item is long, or would have been too much. */
  lemma FirstStops<T>(pieces: seq<Piece<T>>, xs: seq<T>, long: T -> bool, over: seq<T> -> bool)
    requires Filled(pieces, xs, long, over) && pieces != []
    ensures var n := |pieces[0].items|;
            && 0 < n <= |xs| && (pieces[0].long <==> long(xs[0])) && (pieces[0].long ==> n == 1)
            && (n < |xs| && !pieces[0].long && !long(xs[n]) ==> over(xs[..n + 1]))
            && (!pieces[0].long ==> forall j :: 1 < j <= n ==> !over(xs[..j]) && !long(xs[j - 1]))
  {
    var first, n := pieces[0], |pieces[0].items|;
    FilledTail(pieces, xs, long, over);
    assert PieceOk(first, long, over);
    if n < |xs| && !first.long && !long(xs[n]) {
      assert PieceOk(pieces[1], long, over) && Full(first, pieces[1], over);
      assert first.items + [xs[n]] == xs[..n + 1];
    }
    if !first.long {
      forall j | 1 < j <= n ensures !over(xs[..j]) && !long(xs[j - 1]) {
        assert first.items[..j] == xs[..j] && first.items[j - 1] == xs[j - 1];
      }
    }
  }

  /** No piece that fits can be longer than one that is full. */
  lemma NotLonger<T>(a: seq<Piece<T>>, b: seq<Piece<T>>, xs: seq<T>, long: T -> bool, over: seq<T> -> bool)
    requires Filled(a, xs, long, over) && Filled(b, xs, long, over) && a != [] && b != []
    ensures |b[0].items| <= |a[0].items|
  {
    FirstStops(a, xs, long, over);
    FirstStops(b, xs, long, over);
    var n := |a[0].items|;
    assert n < |xs| ==> xs[n + 1 - 1] == xs[n];
  }

  /** The description determines the pieces. */
  lemma {:induction false} FilledUnique<T>(a: seq<Piece<T>>, b: seq<Piece<T>>, xs: seq<T>, long: T -> bool,
                                           over: seq<T> -> bool)
    requires Filled(a, xs, long, over) && Filled(b, xs, long, over)
    ensures a == b
    decreases |a|
  {
    if a == [] || b == [] {
      if a != [] {
        FilledTail(a, xs, long, over);
      }
      if b != [] {
        FilledTail(b, xs, long, over);
      }
    } else {
      NotLonger(a, b, xs, long, over);
      NotLonger(b, a, xs, long, over);
      FilledTail(a, xs, long, over);
      FilledTail(b, xs, long, over);
      assert PieceOk(a[0], long, over) && PieceOk(b[0], long, over);
      FilledUnique(a[1..], b[1..], xs[|a[0].items|..], long, over);
      assert a == [a[0]] + a[1..] && b == [b[0]] + b[1..];
    }
  }

  /** Items that fit together make one piece. */
  lemma OnePiece<T>(xs: seq<T>, long: T -> bool, over: seq<T> -> bool)
    requires xs != [] && NoneLong(xs, long) && Fits(xs, over)
    ensures Fill([], xs, long, over) == [Piece(xs, false)]
  {
    FillIsFilled([], xs, long, over);
    assert [] + xs == xs;
    ConsFilled(Piece(xs, false), [], [], long, over);
    assert [Piece(xs, false)] + [] == [Piece(xs, false)] && xs + [] == xs;
    FilledUnique(Fill([], xs, long, over), [Piece(xs, false)], xs, long, over);
  }
}
