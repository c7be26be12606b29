/** Which small groups are merged: consolidation as joining by two rules. */
module Settling {
  import opened Base
  import opened Text
  import opened Chunks
  import opened Units
  import opened Grouping
  import opened Joining

  /** A small group takes in its successor, or joins what stands before it, when the two are
      mergeable. */
  function MergeRules(l: Linguistics, p: Profile): Rules<Group> {
    Rules((a: Group, b: Group) => Small(p, a.units) && Mergeable(l, p, a.units, b.units),
          (held: seq<Group>, b: Group) => Small(p, b.units) && Mergeable(l, p, AllUnits(held), b.units))
  }

  lemma PreviousIs(l: Linguistics, p: Profile, out: seq<Group>, parts: seq<seq<Group>>, rest: seq<Group>)
    requires StandFor(l, p, out, parts) && rest != []
    ensures JoinsPrevious(l, p, out, rest) <==>
              parts != [] && MergeRules(l, p).joins(parts[|parts| - 1], rest[0])
  {
    if parts != [] {
      assert StandsAt(l, p, out, parts, |parts| - 1);
    }
  }

  lemma NextIsTaken(l: Linguistics, p: Profile, rest: seq<Group>)
    requires rest != []
    ensures TakesNext(l, p, rest) <==> Takes(MergeRules(l, p), rest[0], Front(rest[1..]))
  {
  }

  lemma RuledStep(l: Linguistics, p: Profile, out: seq<Group>, rest: seq<Group>, sofar: seq<seq<Group>>)
    returns (parts: seq<seq<Group>>)
    requires StandFor(l, p, out, sofar) && AllNonEmpty(sofar) && NonEmpty(rest) && rest != []
    requires Ruled(MergeRules(l, p), sofar, rest)
    ensures var step := ConsolidateStep(l, p, out, rest);
            && StandFor(l, p, step.out, parts) && AllNonEmpty(parts)
            && Flatten(parts) == Flatten(sofar) + rest[..step.used]
            && Ruled(MergeRules(l, p), parts, rest[step.used..])
  {
    NextIsTaken(l, p, rest);
    PreviousIs(l, p, out, sofar, rest);
    if TakesNext(l, p, rest) {
      parts := PairParts(l, p, out, rest, sofar);
      RuledPair(MergeRules(l, p), sofar, rest);
    } else if JoinsPrevious(l, p, out, rest) {
      parts := JoinParts(l, p, out, rest, sofar);
      RuledJoin(MergeRules(l, p), sofar, rest);
    } else {
      parts := AloneParts(l, p, out, rest, sofar);
      RuledSingle(MergeRules(l, p), sofar, rest);
    }
  }

  lemma AloneParts(l: Linguistics, p: Profile, out: seq<Group>, rest: seq<Group>, sofar: seq<seq<Group>>)
    returns (parts: seq<seq<Group>>)
    requires StandFor(l, p, out, sofar) && AllNonEmpty(sofar) && NonEmpty(rest) && rest != []
    ensures StandFor(l, p, out + [rest[0]], parts) && AllNonEmpty(parts)
    ensures Flatten(parts) == Flatten(sofar) + rest[..1] && parts == sofar + [[rest[0]]]
  {
    SingleStands(l, p, rest[0]);
    StandForSnoc(l, p, out, sofar, rest[0], [rest[0]]);
    parts := sofar + [[rest[0]]];
    assert rest[..1] == [rest[0]];
  }

  lemma {:induction false} RuledParts(l: Linguistics, p: Profile, out: seq<Group>, rest: seq<Group>,
                                      sofar: seq<seq<Group>>)
    returns (parts: seq<seq<Group>>)
    requires StandFor(l, p, out, sofar) && AllNonEmpty(sofar) && NonEmpty(rest)
    requires Ruled(MergeRules(l, p), sofar, rest)
    ensures StandFor(l, p, Consolidated(l, p, out, rest), parts) && AllNonEmpty(parts)
    ensures Flatten(parts) == Flatten(sofar) + rest && Ruled(MergeRules(l, p), parts, [])
    decreases |rest|
  {
    if rest == [] {
      parts := sofar;
      assert Flatten(sofar) + [] == Flatten(sofar);
    } else {
      var step := ConsolidateStep(l, p, out, rest);
      var more := RuledStep(l, p, out, rest, sofar);
      var used, tail := rest[..step.used], rest[step.used..];
      assert NonEmpty(tail);
      parts := RuledParts(l, p, step.out, tail, more);
      assert rest == used + tail;
      Assoc(Flatten(sofar), used, tail);
    }
  }

  /** `parts` is how the groups settle into `out`: consecutive, each standing for one group of
      the result, joined and left apart by the rules. */
  ghost predicate SettlesInto(l: Linguistics, p: Profile, groups: seq<Group>, out: seq<Group>,
                              parts: seq<seq<Group>>) {
    Flatten(parts) == groups && StandFor(l, p, out, parts) && Ruled(MergeRules(l, p), parts, [])
  }

  lemma OneSettles(l: Linguistics, p: Profile, g: Group)
    ensures SettlesInto(l, p, [g], [g], [[g]])
  {
    SingleStands(l, p, g);
    assert StandsAt(l, p, [g], [[g]], 0);
    assert StartsWell(MergeRules(l, p), [[g]], [], 0);
    assert Flatten([[g]]) == [g] + Flatten<Group>([]);
  }

  /** The consolidated groups settle by the rules. */
  lemma SettledByRules(l: Linguistics, p: Profile, groups: seq<Group>) returns (parts: seq<seq<Group>>)
    requires NonEmpty(groups)
    ensures SettlesInto(l, p, groups, Settled(l, p, groups), parts)
  {
    if |groups| >= 2 {
      parts := RuledParts(l, p, [], groups, []);
      assert [] + groups == groups;
    } else if |groups| == 1 {
      OneSettles(l, p, groups[0]);
      parts := [[groups[0]]];
      assert groups == [groups[0]];
    } else {
      parts := [];
    }
  }

  /** The rules determine how groups settle. */
  lemma SettlingUnique(l: Linguistics, p: Profile, groups: seq<Group>, out: seq<Group>, a: seq<seq<Group>>,
                       other: seq<Group>, b: seq<seq<Group>>)
    requires SettlesInto(l, p, groups, out, a) && SettlesInto(l, p, groups, other, b)
    ensures a == b
  {
    RulesDetermine(MergeRules(l, p), groups, a, b);
  }

  /** Neither a table nor code nor a unit in an exception role. */
  ghost predicate Plain(l: Linguistics, units: seq<Unit>) {
    forall u :: u in units ==>
      u.kind != Table && u.kind != CodeBlock && (u.role.Some? ==> l.upper(u.role.value) !in EXCEPTION_ROLES)
  }

  /** Two plain groups under one parent heading that together respect the hard guards. */
  ghost predicate Compatible(l: Linguistics, p: Profile, left: seq<Unit>, right: seq<Unit>) {
    && left != [] && right != [] && Plain(l, left) && Plain(l, right)
    && (var a, b := left[|left| - 1].hierarchy, right[0].hierarchy;
        (if a == [] then [] else a[..|a| - 1]) == (if b == [] then [] else b[..|b| - 1]))
    && Chars(left + right) <= p.hardMaxChars && SentenceSum(left + right) <= p.hardMaxSentences
    && (Reliable(left + right) ==> WordSum(left + right) <= p.hardMaxWords)
  }

  lemma CompatibleIsMergeable(l: Linguistics, p: Profile, left: seq<Unit>, right: seq<Unit>)
    ensures Compatible(l, p, left, right) <==> Mergeable(l, p, left, right)
  {
    assert forall units :: Plain(l, units) <==> !SmallException(l, units);
  }

  /** A small group that stays alone is compatible neither with the group the result holds
      before it nor with the original group behind it. */
  lemma LonelySmall(l: Linguistics, p: Profile, groups: seq<Group>, out: seq<Group>, parts: seq<seq<Group>>, k: nat)
    requires SettlesInto(l, p, groups, out, parts) && k < |parts| && |parts[k]| == 1
    requires Chars(parts[k][0].units) < p.minChars
    ensures |out| == |parts| && out[k] == parts[k][0]
    ensures k > 0 ==> !Compatible(l, p, out[k - 1].units, out[k].units)
    ensures k + 1 < |parts| ==> parts[k + 1] != [] && !Compatible(l, p, out[k].units, parts[k + 1][0].units)
  {
    assert StandsAt(l, p, out, parts, k) && PartWell(MergeRules(l, p), parts, [], k);
    if k > 0 {
      assert StandsAt(l, p, out, parts, k - 1);
      CompatibleIsMergeable(l, p, out[k - 1].units, out[k].units);
    }
    if k + 1 < |parts| {
      assert PartWell(MergeRules(l, p), parts, [], k + 1);
      CompatibleIsMergeable(l, p, out[k].units, parts[k + 1][0].units);
    }
  }

  lemma FirstTakes(l: Linguistics, p: Profile, a: Group, b: Group)
    requires Mergeable(l, p, a.units, b.units) && Small(p, a.units)
    ensures Settled(l, p, [a, b]) == [Merged(a, b)]
  {
    var groups, m := [a, b], Merged(a, b);
    assert groups[2..] == [] && [] + [m] == [m];
    assert ConsolidateStep(l, p, [], groups) == Step([m], 2);
    assert Consolidated(l, p, [], groups) == Consolidated(l, p, [m], []);
  }

  lemma SecondJoins(l: Linguistics, p: Profile, a: Group, b: Group)
    requires Mergeable(l, p, a.units, b.units) && !Small(p, a.units) && Small(p, b.units)
    ensures Settled(l, p, [a, b]) == [Merged(a, b)]
  {
    var groups, m := [a, b], Merged(a, b);
    assert groups[1..] == [b] && [b][1..] == [] && [] + [a] == [a] && [a][..0] + [m] == [m];
    assert ConsolidateStep(l, p, [], groups) == Step([a], 1);
    assert ConsolidateStep(l, p, [a], [b]) == Step([m], 1);
    assert Consolidated(l, p, [a], [b]) == Consolidated(l, p, [m], []);
  }

  /** Two compatible neighbours, one of them small, become one group. */
  lemma PairSettles(l: Linguistics, p: Profile, a: Group, b: Group)
    requires Compatible(l, p, a.units, b.units) && (Chars(a.units) < p.minChars || Chars(b.units) < p.minChars)
    ensures Settled(l, p, [a, b]) == [Group(a.units + b.units, "SMALL_FRAGMENT_MERGE", a.forced || b.forced)]
  {
    CompatibleIsMergeable(l, p, a.units, b.units);
    if Small(p, a.units) {
      FirstTakes(l, p, a, b);
    } else {
      SecondJoins(l, p, a, b);
    }
  }
}
