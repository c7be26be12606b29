/** Runs of neighbours that are joined by two rules: an item may take in its successor, and an
    item may join the run before it. The rules leave no choice. */
module Joining {
  import opened Base

  datatype Rules<!T> = Rules(takes: (T, T) -> bool, joins: (seq<T>, T) -> bool)

  predicate Takes<T>(rules: Rules<T>, x: T, next: Option<T>) {
    next.Some? && rules.takes(x, next.value)
  }

  function Front<T>(xs: seq<T>): Option<T> {
    if xs == [] then None else Some(xs[0])
  }

  /** The original item behind member `j` of part `k`; behind the last part comes `rest`. */
  function NextAfter<T>(parts: seq<seq<T>>, rest: seq<T>, k: nat, j: nat): Option<T>
    requires k < |parts| && j < |parts[k]|
  {
    if j + 1 < |parts[k]| then Some(parts[k][j + 1])
    else if k + 1 < |parts| then Front(parts[k + 1])
    else Front(rest)
  }

  /** A part begins with an item that takes in its successor, or with one that could not join
      the part before. */
  ghost predicate StartsWell<T>(rules: Rules<T>, parts: seq<seq<T>>, rest: seq<T>, k: nat)
    requires k < |parts|
  {
    && parts[k] != []
    && if Takes(rules, parts[k][0], NextAfter(parts, rest, k, 0)) then |parts[k]| > 1
       else k > 0 ==> !rules.joins(parts[k - 1], parts[k][0])
  }

  /** A later member was taken in by the first, or could not take in its own successor and
      could join what the part held before it. */
  ghost predicate JoinsWell<T>(rules: Rules<T>, parts: seq<seq<T>>, rest: seq<T>, k: nat, j: nat)
    requires k < |parts| && 0 < j < |parts[k]|
  {
    || (j == 1 && rules.takes(parts[k][0], parts[k][1]))
    || (rules.joins(parts[k][..j], parts[k][j]) && !Takes(rules, parts[k][j], NextAfter(parts, rest, k, j)))
  }

  ghost predicate PartWell<T>(rules: Rules<T>, parts: seq<seq<T>>, rest: seq<T>, k: nat)
    requires k < |parts|
  {
    StartsWell(rules, parts, rest, k) && forall j: nat :: 0 < j < |parts[k]| ==> JoinsWell(rules, parts, rest, k, j)
  }

  /** The parts made so far, with `rest` still to come. */
  ghost predicate Ruled<T>(rules: Rules<T>, parts: seq<seq<T>>, rest: seq<T>) {
    forall k: nat :: k < |parts| ==> PartWell(rules, parts, rest, k)
  }

  // ---------------------------------------------------------------- one step

  /** Part `k` sees the same items around it in both divisions. */
  lemma PartWellKept<T>(rules: Rules<T>, a: seq<seq<T>>, r: seq<T>, b: seq<seq<T>>, s: seq<T>, k: nat)
    requires k < |a| && k < |b| && PartWell(rules, a, r, k) && b[k] == a[k] && (k > 0 ==> b[k - 1] == a[k - 1])
    requires (if k + 1 < |a| then Front(a[k + 1]) else Front(r)) == (if k + 1 < |b| then Front(b[k + 1]) else Front(s))
    ensures PartWell(rules, b, s, k)
  {
    forall j: nat | 0 < j < |b[k]| ensures JoinsWell(rules, b, s, k, j) {
      assert JoinsWell(rules, a, r, k, j);
    }
  }

  lemma AppendPart<T>(rules: Rules<T>, parts: seq<seq<T>>, rest: seq<T>, part: seq<T>, tail: seq<T>)
    requires Ruled(rules, parts, rest) && part != [] && rest == part + tail
    requires PartWell(rules, parts + [part], tail, |parts|)
    ensures Ruled(rules, parts + [part], tail)
  {
    var all := parts + [part];
    forall k: nat | k < |all| ensures PartWell(rules, all, tail, k) {
      if k < |parts| {
        PartWellKept(rules, parts, rest, all, tail, k);
      }
    }
  }

  /** The front item takes in the next. */
  lemma RuledPair<T>(rules: Rules<T>, parts: seq<seq<T>>, rest: seq<T>)
    requires Ruled(rules, parts, rest) && |rest| > 1 && rules.takes(rest[0], rest[1])
    ensures Ruled(rules, parts + [rest[..2]], rest[2..])
  {
    var all, n := parts + [rest[..2]], |parts|;
    assert JoinsWell(rules, all, rest[2..], n, 1);
    AppendPart(rules, parts, rest, rest[..2], rest[2..]);
  }

  /** The front item stays alone. */
  lemma RuledSingle<T>(rules: Rules<T>, parts: seq<seq<T>>, rest: seq<T>)
    requires Ruled(rules, parts, rest) && rest != [] && !Takes(rules, rest[0], Front(rest[1..]))
    requires parts != [] ==> !rules.joins(parts[|parts| - 1], rest[0])
    ensures Ruled(rules, parts + [[rest[0]]], rest[1..])
  {
    var all, n := parts + [[rest[0]]], |parts|;
    assert StartsWell(rules, all, rest[1..], n);
    assert rest == [rest[0]] + rest[1..];
    AppendPart(rules, parts, rest, [rest[0]], rest[1..]);
  }

  /** The front item joins the last part. */
  lemma RuledJoin<T>(rules: Rules<T>, parts: seq<seq<T>>, rest: seq<T>)
    requires Ruled(rules, parts, rest) && parts != [] && rest != []
    requires !Takes(rules, rest[0], Front(rest[1..])) && rules.joins(parts[|parts| - 1], rest[0])
    ensures var n := |parts| - 1; Ruled(rules, parts[..n] + [parts[n] + [rest[0]]], rest[1..])
  {
    var n, tail := |parts| - 1, rest[1..];
    var all := parts[..n] + [parts[n] + [rest[0]]];
    JoinedPart(rules, parts, rest);
    forall k: nat | k < |all| ensures PartWell(rules, all, tail, k) {
      if k < n {
        assert PartWell(rules, parts, rest, n);
        PartWellKept(rules, parts, rest, all, tail, k);
      }
    }
  }

  lemma JoinedPart<T>(rules: Rules<T>, parts: seq<seq<T>>, rest: seq<T>)
    requires parts != [] && rest != [] && PartWell(rules, parts, rest, |parts| - 1)
    requires !Takes(rules, rest[0], Front(rest[1..])) && rules.joins(parts[|parts| - 1], rest[0])
    ensures var n := |parts| - 1; PartWell(rules, parts[..n] + [parts[n] + [rest[0]]], rest[1..], n)
  {
    var n, tail := |parts| - 1, rest[1..];
    var part, all := parts[n], parts[..n] + [parts[n] + [rest[0]]];
    var longer := part + [rest[0]];
    forall j: nat | 0 < j < |longer| ensures JoinsWell(rules, all, tail, n, j) {
      if j < |part| {
        assert JoinsWell(rules, parts, rest, n, j);
        assert longer[..j] == part[..j];
      } else {
        assert longer[..j] == part;
      }
    }
    assert StartsWell(rules, parts, rest, n);
  }

  // ---------------------------------------------------------------- no choice

  /** The items of the first `k` parts. */
  function Before<T>(parts: seq<seq<T>>, k: nat): nat
    requires k <= |parts|
  {
    |Flatten(parts[..k])|
  }

  lemma Around<T>(parts: seq<seq<T>>, k: nat)
    requires k < |parts|
    ensures Flatten(parts) == Flatten(parts[..k]) + (parts[k] + Flatten(parts[k + 1..]))
    ensures Flatten(parts[..k + 1]) == Flatten(parts[..k]) + parts[k]
  {
    AroundBefore(parts, k);
    AroundAfter(parts, k);
  }

  lemma AroundBefore<T>(parts: seq<seq<T>>, k: nat)
    requires k < |parts|
    ensures Flatten(parts[..k + 1]) == Flatten(parts[..k]) + parts[k]
  {
    assert parts[..k + 1] == parts[..k] + [parts[k]];
    FlattenSnoc(parts[..k], parts[k]);
  }

  lemma AroundAfter<T>(parts: seq<seq<T>>, k: nat)
    requires k < |parts|
    ensures Flatten(parts) == Flatten(parts[..k]) + (parts[k] + Flatten(parts[k + 1..]))
  {
    assert parts == parts[..k] + parts[k..];
    FlattenConcat(parts[..k], parts[k..]);
    assert parts[k..][0] == parts[k] && parts[k..][1..] == parts[k + 1..];
  }

  lemma Slices<T>(a: seq<T>, b: seq<T>, c: seq<T>)
    ensures (a + (b + c))[|a|..|a| + |b|] == b && (a + (b + c))[|a| + |b|..] == c
  {
  }

  /** The items behind the first `k` parts, seen from the whole sequence. */
  lemma PartAt<T>(parts: seq<seq<T>>, xs: seq<T>, k: nat)
    requires Flatten(parts) == xs && k < |parts|
    ensures var n, m := Before(parts, k), Before(parts, k) + |parts[k]|;
            && m <= |xs| && xs[n..m] == parts[k] && Flatten(parts[k + 1..]) == xs[m..] && Before(parts, k + 1) == m
            && (k + 1 == |parts| ==> m == |xs|)
  {
    Around(parts, k);
    Slices(Flatten(parts[..k]), parts[k], Flatten(parts[k + 1..]));
    assert k + 1 == |parts| ==> parts[k + 1..] == [];
  }

  lemma FrontIs<T>(parts: seq<seq<T>>, k: nat)
    requires k < |parts| && parts[k] != []
    ensures Front(Flatten(parts[k..])) == Some(parts[k][0])
  {
    assert parts[k..][0] == parts[k];
  }

  lemma NextIs<T>(rules: Rules<T>, parts: seq<seq<T>>, xs: seq<T>, k: nat, j: nat)
    requires Flatten(parts) == xs && Ruled(rules, parts, []) && k < |parts| && j < |parts[k]|
    ensures var at := Before(parts, k) + j;
            at < |xs| && parts[k][j] == xs[at] && NextAfter(parts, [], k, j) == Front(xs[at + 1..])
  {
    PartAt(parts, xs, k);
    var n := Before(parts, k);
    assert xs[n..n + |parts[k]|][j] == xs[n + j];
    if j + 1 < |parts[k]| {
      assert xs[n..n + |parts[k]|][j + 1] == xs[n + j + 1];
    } else if k + 1 < |parts| {
      assert PartWell(rules, parts, [], k + 1);
      FrontIs(parts, k + 1);
    }
  }

  /** How a part starts, seen from the whole sequence. */
  lemma StartFact<T>(rules: Rules<T>, parts: seq<seq<T>>, xs: seq<T>, k: nat)
    requires Flatten(parts) == xs && Ruled(rules, parts, []) && k < |parts|
    ensures var n := Before(parts, k);
            && n < |xs| && parts[k] != []
            && if Takes(rules, xs[n], Front(xs[n + 1..])) then |parts[k]| > 1
               else k > 0 ==> !rules.joins(parts[k - 1], xs[n])
  {
    assert PartWell(rules, parts, [], k);
    NextIs(rules, parts, xs, k, 0);
  }

  /** The item at `m` was taken in by the one before it, which starts a run at `n`, or joined
      what the run held. */
  predicate JoinedAt<T>(rules: Rules<T>, xs: seq<T>, n: nat, m: nat)
    requires n < m < |xs|
  {
    || (m == n + 1 && Takes(rules, xs[n], Front(xs[n + 1..])))
    || (rules.joins(xs[n..m], xs[m]) && !Takes(rules, xs[m], Front(xs[m + 1..])))
  }

  /** How a later member joined, seen from the whole sequence. */
  lemma JoinFact<T>(rules: Rules<T>, parts: seq<seq<T>>, xs: seq<T>, k: nat, n: nat, m: nat)
    requires Flatten(parts) == xs && Ruled(rules, parts, []) && k < |parts|
    requires n == Before(parts, k) && n < m < n + |parts[k]|
    ensures m < |xs| && JoinedAt(rules, xs, n, m)
  {
    var j := m - n;
    assert PartWell(rules, parts, [], k);
    assert JoinsWell(rules, parts, [], k, j);
    NextIs(rules, parts, xs, k, 0);
    NextIs(rules, parts, xs, k, j);
    PartAt(parts, xs, k);
    assert parts[k][..j] == xs[n..m];
  }

  /** The item behind part `k`, if there is one, did not join it. */
  lemma StopFact<T>(rules: Rules<T>, parts: seq<seq<T>>, xs: seq<T>, k: nat)
    requires Flatten(parts) == xs && Ruled(rules, parts, []) && k < |parts|
    ensures var n, m := Before(parts, k), Before(parts, k) + |parts[k]|;
            && m <= |xs|
            && (m < |xs| && !Takes(rules, xs[m], Front(xs[m + 1..])) ==> !rules.joins(xs[n..m], xs[m]))
  {
    PartAt(parts, xs, k);
    if k + 1 < |parts| {
      StartFact(rules, parts, xs, k + 1);
    }
  }

  /** The item at `m` cannot have joined a run from `n` that also ends before it. */
  lemma NoBoth<T>(rules: Rules<T>, xs: seq<T>, n: nat, m: nat)
    requires n < m < |xs|
    requires Takes(rules, xs[n], Front(xs[n + 1..])) ==> m > n + 1
    requires !Takes(rules, xs[m], Front(xs[m + 1..])) ==> !rules.joins(xs[n..m], xs[m])
    ensures !JoinedAt(rules, xs, n, m)
  {
  }

  /** Parts that start at the same item: the second is no longer than the first. */
  lemma NotShorter<T>(rules: Rules<T>, xs: seq<T>, a: seq<seq<T>>, b: seq<seq<T>>, k: nat, n: nat)
    requires Flatten(a) == xs && Flatten(b) == xs && Ruled(rules, a, []) && Ruled(rules, b, [])
    requires k < |a| && k < |b| && Before(a, k) == n && Before(b, k) == n
    ensures |b[k]| <= |a[k]|
  {
    var m := n + |a[k]|;
    Stops(rules, xs, a, k, n, m);
    if |a[k]| < |b[k]| {
      JoinFact(rules, b, xs, k, n, m);
    }
  }

  lemma SameBefore<T>(a: seq<seq<T>>, b: seq<seq<T>>, k: nat)
    requires k <= |a| && k <= |b| && a[..k] == b[..k]
    ensures Before(a, k) == Before(b, k)
  {
  }

  /** Nothing behind a part was joined to it. */
  lemma Stops<T>(rules: Rules<T>, xs: seq<T>, parts: seq<seq<T>>, k: nat, n: nat, m: nat)
    requires Flatten(parts) == xs && Ruled(rules, parts, []) && k < |parts|
    requires n == Before(parts, k) && m == n + |parts[k]|
    ensures n < m && (m < |xs| ==> !JoinedAt(rules, xs, n, m))
  {
    StartFact(rules, parts, xs, k);
    StopFact(rules, parts, xs, k);
    if m < |xs| {
      NoBoth(rules, xs, n, m);
    }
  }

  lemma {:induction false} SamePrefix<T>(rules: Rules<T>, xs: seq<T>, a: seq<seq<T>>, b: seq<seq<T>>, k: nat)
    requires Flatten(a) == xs && Flatten(b) == xs && Ruled(rules, a, []) && Ruled(rules, b, [])
    requires k <= |a| && k <= |b|
    ensures a[..k] == b[..k]
  {
    if k > 0 {
      var n := k - 1;
      SamePrefix(rules, xs, a, b, n);
      SameBefore(a, b, n);
      NotShorter(rules, xs, a, b, n, Before(a, n));
      NotShorter(rules, xs, b, a, n, Before(a, n));
      PartAt(a, xs, n);
      PartAt(b, xs, n);
      assert a[..k] == a[..n] + [a[n]] && b[..k] == b[..n] + [b[n]];
    }
  }

  lemma NoPartsLeft<T>(rules: Rules<T>, xs: seq<T>, a: seq<seq<T>>, b: seq<seq<T>>)
    requires Flatten(a) == xs && Flatten(b) == xs && Ruled(rules, b, []) && |a| <= |b| && a == b[..|a|]
    ensures a == b
  {
    if |a| < |b| {
      StartFact(rules, b, xs, |a|);
    }
  }

  /** The rules determine the parts. */
  lemma RulesDetermine<T>(rules: Rules<T>, xs: seq<T>, a: seq<seq<T>>, b: seq<seq<T>>)
    requires Flatten(a) == xs && Flatten(b) == xs && Ruled(rules, a, []) && Ruled(rules, b, [])
    ensures a == b
  {
    if |a| <= |b| {
      SamePrefix(rules, xs, a, b, |a|);
      assert a[..|a|] == a;
      NoPartsLeft(rules, xs, a, b);
    } else {
      SamePrefix(rules, xs, a, b, |b|);
      assert b[..|b|] == b;
      NoPartsLeft(rules, xs, b, a);
    }
  }
}
