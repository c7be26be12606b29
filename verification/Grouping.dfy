/** Grouping units into fragments: the three hard guards, the break rules, and the
    consolidation of small groups. */
module Grouping {
  import opened Base
  import opened Text
  import opened Chunks
  import opened Units
  import opened Document

  datatype Group = Group(units: seq<Unit>, reason: string, forced: bool)

  datatype SplitError = GraphemeExceedsGuard | UnitExceedsGuard | GuardViolation | FragmentExceedsGuard

  // ---------------------------------------------------------------- sizes

  function Chars(units: seq<Unit>): nat {
    |Join("\n", UnitTexts(units))|
  }

  function WordSum(units: seq<Unit>): nat {
    if units == [] then 0 else WordSum(units[..|units| - 1]) + units[|units| - 1].words.count
  }

  function SentenceSum(units: seq<Unit>): nat {
    if units == [] then 0 else SentenceSum(units[..|units| - 1]) + units[|units| - 1].sentences
  }

  predicate Reliable(units: seq<Unit>) {
    forall k :: 0 <= k < |units| ==> units[k].words.reliable
  }

  predicate ExceedsHard(p: Profile, units: seq<Unit>) {
    Chars(units) > p.hardMaxChars || (Reliable(units) && WordSum(units) > p.hardMaxWords)
      || SentenceSum(units) > p.hardMaxSentences
  }

  predicate ExceedsSoft(p: Profile, units: seq<Unit>) {
    Chars(units) > p.softMaxChars || (Reliable(units) && WordSum(units) > p.softMaxWords)
  }

  predicate ReachesTarget(p: Profile, units: seq<Unit>) {
    || Chars(units) >= p.targetChars || (Reliable(units) && WordSum(units) >= p.targetWords)
    || SentenceSum(units) >= p.targetSentences
  }

  // ---------------------------------------------------------------- boundaries

  const EXCEPTION_ROLES := {"FAQ", "WARNING", "LEGAL_DEFINITION", "DEFINITION", "NOTICE", "ALERT"}

  predicate Exceptional(l: Linguistics, u: Unit) {
    (u.role.Some? && l.upper(u.role.value) in EXCEPTION_ROLES) || u.kind == Table || u.kind == CodeBlock
  }

  predicate SmallException(l: Linguistics, units: seq<Unit>) {
    exists k :: 0 <= k < |units| && Exceptional(l, units[k])
  }

  predicate EndsWithColon(t: string) {
    t != [] && t[|t| - 1] == ':'
  }

  predicate SafeBoundary(prev: Unit, next: Unit) {
    && !(prev.kind == Paragraph && EndsWithColon(prev.text) && IsListType(next.kind))
    && (prev.id != next.id || prev.kind == Paragraph || prev.kind == ListItem || prev.kind == Table
        || prev.kind == CodeBlock)
  }

  predicate StrongBoundary(prev: Unit, next: Unit) {
    next.kind == Heading || prev.hierarchy != next.hierarchy
  }

  datatype Break = Break(reason: string, forced: bool)

  /** Why the group `buffer` must end before `u`, if it must. */
  function BreakBefore(l: Linguistics, p: Profile, buffer: seq<Unit>, u: Unit): Option<Break>
    requires buffer != []
  {
    var prev, trial := buffer[|buffer| - 1], buffer + [u];
    if u.kind == Heading && (Chars(buffer) >= p.minChars || SmallException(l, buffer))
      then Some(Break("SECTION_BOUNDARY", false))
    else if ExceedsHard(p, trial) then Some(Break("HARD_MAX", true))
    else if ExceedsSoft(p, trial) && SafeBoundary(prev, u) then Some(Break("SOFT_MAX_SAFE_BOUNDARY", false))
    else if ReachesTarget(p, buffer) && StrongBoundary(prev, u) then Some(Break("STRUCTURAL_BOUNDARY", false))
    else None
  }

  // ---------------------------------------------------------------- grouping

  function UnitsOf(groups: seq<Group>): (r: seq<seq<Unit>>)
    ensures |r| == |groups|
  {
    seq(|groups|, k requires 0 <= k < |groups| => groups[k].units)
  }

  /** Units that break `buffer` off do so for its reason; the others did not break it. */
  ghost predicate Unbroken(l: Linguistics, p: Profile, units: seq<Unit>) {
    forall j: nat :: 0 < j < |units| ==> NoBreakAt(l, p, units, j)
  }

  predicate NoBreakAt(l: Linguistics, p: Profile, units: seq<Unit>, j: nat)
    requires 0 < j < |units|
  {
    BreakBefore(l, p, units[..j], units[j]).None?
  }

  ghost predicate SoundGroup(l: Linguistics, p: Profile, g: Group) {
    g.units != [] && Unbroken(l, p, g.units)
  }

  ghost predicate BrokenAt(l: Linguistics, p: Profile, g: Group, next: seq<Unit>) {
    g.units != [] && next != [] && BreakBefore(l, p, g.units, next[0]) == Some(Break(g.reason, g.forced))
  }

  /** What follows group `k - 1` begins with the unit that broke that group off. */
  ghost predicate SeamAt(l: Linguistics, p: Profile, groups: seq<Group>, open: seq<Unit>, k: nat)
    requires 0 < k <= |groups|
  {
    BrokenAt(l, p, groups[k - 1], if k < |groups| then groups[k].units else open)
  }

  /** Groups end exactly where a break rule says so, for the reason it gives. */
  ghost predicate Grouped(l: Linguistics, p: Profile, groups: seq<Group>, open: seq<Unit>) {
    && (forall g :: g in groups ==> SoundGroup(l, p, g))
    && (forall k: nat :: 0 < k <= |groups| ==> SeamAt(l, p, groups, open, k))
    && Unbroken(l, p, open)
  }

  ghost predicate WithinHard(p: Profile, groups: seq<Group>) {
    forall g :: g in groups ==> g.units != [] && !ExceedsHard(p, g.units)
  }

  method Flush(p: Profile, groups: seq<Group>, buffer: seq<Unit>, reason: string, forced: bool)
    returns (r: Result<seq<Group>, SplitError>)
    ensures r == if buffer == [] then Ok(groups)
                 else if ExceedsHard(p, buffer) then Err(GuardViolation)
                 else Ok(groups + [Group(buffer, reason, forced)])
  {
    if buffer == [] {
      return Ok(groups);
    }
    if ExceedsHard(p, buffer) {
      return Err(GuardViolation);
    }
    return Ok(groups + [Group(buffer, reason, forced)]);
  }

  /** The grouping loop after some units: closed groups, the open one, nothing lost. */
  ghost predicate Grouping(l: Linguistics, p: Profile, done: seq<Unit>, groups: seq<Group>, buffer: seq<Unit>) {
    && Grouped(l, p, groups, buffer) && WithinHard(p, groups)
    && (buffer != [] ==> !ExceedsHard(p, buffer))
    && (buffer == [] ==> groups == [])
    && Flatten(UnitsOf(groups)) + buffer == Kept(done)
  }

  lemma UnbrokenSnoc(l: Linguistics, p: Profile, buffer: seq<Unit>, u: Unit)
    requires Unbroken(l, p, buffer) && (buffer != [] ==> BreakBefore(l, p, buffer, u).None?)
    ensures Unbroken(l, p, buffer + [u])
  {
    var all := buffer + [u];
    forall j: nat | 0 < j < |all| ensures NoBreakAt(l, p, all, j) {
      if j < |buffer| {
        assert NoBreakAt(l, p, buffer, j);
        assert all[..j] == buffer[..j] && all[j] == buffer[j];
      } else {
        assert all[..j] == buffer;
      }
    }
  }

  lemma UnitsOfSnoc(groups: seq<Group>, g: Group)
    ensures Flatten(UnitsOf(groups + [g])) == Flatten(UnitsOf(groups)) + g.units
  {
    assert UnitsOf(groups + [g]) == UnitsOf(groups) + [g.units];
    FlattenSnoc(UnitsOf(groups), g.units);
  }

  lemma GroupedOpen(l: Linguistics, p: Profile, groups: seq<Group>, open: seq<Unit>, u: Unit)
    requires Grouped(l, p, groups, open) && Unbroken(l, p, open + [u])
    ensures Grouped(l, p, groups, open + [u])
  {
    forall k: nat | 0 < k <= |groups| ensures SeamAt(l, p, groups, open + [u], k) {
      assert SeamAt(l, p, groups, open, k);
    }
  }

  /** A unit joins the open group. */
  lemma JoinStep(l: Linguistics, p: Profile, done: seq<Unit>, groups: seq<Group>, buffer: seq<Unit>, u: Unit)
    requires Grouping(l, p, done, groups, buffer) && u.text != [] && !ExceedsHard(p, buffer + [u])
    requires buffer != [] ==> BreakBefore(l, p, buffer, u).None?
    ensures Grouping(l, p, done + [u], groups, buffer + [u])
  {
    UnbrokenSnoc(l, p, buffer, u);
    GroupedOpen(l, p, groups, buffer, u);
    KeptSnoc(done, u);
    Assoc(Flatten(UnitsOf(groups)), buffer, [u]);
  }

  lemma GroupedSnoc(l: Linguistics, p: Profile, groups: seq<Group>, g: Group, u: Unit)
    requires Grouped(l, p, groups, g.units) && g.units != []
    requires BreakBefore(l, p, g.units, u) == Some(Break(g.reason, g.forced))
    ensures Grouped(l, p, groups + [g], [u])
  {
    var all := groups + [g];
    forall k: nat | 0 < k <= |all| ensures SeamAt(l, p, all, [u], k) {
      if k < |all| {
        assert SeamAt(l, p, groups, g.units, k);
      }
    }
  }

  /** A unit breaks the open group off and starts the next. */
  lemma BreakStep(l: Linguistics, p: Profile, done: seq<Unit>, groups: seq<Group>, buffer: seq<Unit>, u: Unit, b: Break)
    requires Grouping(l, p, done, groups, buffer) && u.text != [] && !ExceedsHard(p, [u]) && buffer != []
    requires BreakBefore(l, p, buffer, u) == Some(b)
    ensures Grouping(l, p, done + [u], groups + [Group(buffer, b.reason, b.forced)], [u])
  {
    GroupedSnoc(l, p, groups, Group(buffer, b.reason, b.forced), u);
    KeptSnoc(done, u);
    UnitsOfSnoc(groups, Group(buffer, b.reason, b.forced));
  }

  lemma SkipStep(l: Linguistics, p: Profile, done: seq<Unit>, groups: seq<Group>, buffer: seq<Unit>, u: Unit)
    requires Grouping(l, p, done, groups, buffer) && u.text == []
    ensures Grouping(l, p, done + [u], groups, buffer)
  {
    KeptSnoc(done, u);
    assert Kept(done) + [] == Kept(done);
  }

  lemma GroupingStart(l: Linguistics, p: Profile)
    ensures Grouping(l, p, [], [], [])
  {
  }

  predicate TooLarge(p: Profile, u: Unit) {
    u.text != [] && ExceedsHard(p, [u])
  }

  /** Places one unit: into the open group, or behind it when a break rule applies. The guard
      error of the flush cannot occur. */
  method PlaceUnit(l: Linguistics, p: Profile, groups: seq<Group>, buffer: seq<Unit>, u: Unit, ghost done: seq<Unit>)
    returns (groups': seq<Group>, buffer': seq<Unit>)
    requires Grouping(l, p, done, groups, buffer) && u.text != [] && !ExceedsHard(p, [u])
    ensures Grouping(l, p, done + [u], groups', buffer')
  {
    groups', buffer' := groups, buffer;
    if buffer' != [] {
      var b := BreakBefore(l, p, buffer', u);
      if b.Some? {
        BreakStep(l, p, done, groups, buffer, u, b.value);
        var flushed := Flush(p, groups, buffer', b.value.reason, b.value.forced);
        return flushed.value, [u];
      }
    } else {
      assert buffer' + [u] == [u];
    }
    JoinStep(l, p, done, groups, buffer, u);
    buffer' := buffer' + [u];
  }

  /** The groups of a finished document. */
  ghost predicate FinallyGrouped(l: Linguistics, p: Profile, groups: seq<Group>, units: seq<Unit>) {
    && Flatten(UnitsOf(groups)) == units && WithinHard(p, groups)
    && (groups != [] ==>
          var n := |groups| - 1;
          Grouped(l, p, groups[..n], groups[n].units) && groups[n].reason == "DOCUMENT_END" && !groups[n].forced)
  }

  lemma CloseStep(l: Linguistics, p: Profile, done: seq<Unit>, groups: seq<Group>, buffer: seq<Unit>)
    requires Grouping(l, p, done, groups, buffer)
    ensures FinallyGrouped(l, p, if buffer == [] then groups
                                 else groups + [Group(buffer, "DOCUMENT_END", false)], Kept(done))
  {
    if buffer != [] {
      var last := Group(buffer, "DOCUMENT_END", false);
      UnitsOfSnoc(groups, last);
      assert (groups + [last])[..|groups|] == groups;
    }
  }

  /** Units without text are skipped. */
  method AbsorbUnit(l: Linguistics, p: Profile, groups: seq<Group>, buffer: seq<Unit>, u: Unit, ghost done: seq<Unit>)
    returns (groups': seq<Group>, buffer': seq<Unit>)
    requires Grouping(l, p, done, groups, buffer) && !TooLarge(p, u)
    ensures Grouping(l, p, done + [u], groups', buffer')
  {
    if u.text == [] {
      SkipStep(l, p, done, groups, buffer, u);
      return groups, buffer;
    }
    groups', buffer' := PlaceUnit(l, p, groups, buffer, u, done);
  }

  /** Groups all units with some text. The only error is a unit that alone exceeds a guard:
      no group that is flushed can violate one. */
  method GroupUnits(l: Linguistics, p: Profile, units: seq<Unit>) returns (r: Result<seq<Group>, SplitError>)
    ensures r.Err? <==> exists k :: 0 <= k < |units| && TooLarge(p, units[k])
    ensures r.Err? ==> r.error == UnitExceedsGuard
    ensures r.Ok? ==> FinallyGrouped(l, p, r.value, Kept(units))
  {
    var groups, buffer, ok := PlaceUnits(l, p, units);
    if !ok {
      return Err(UnitExceedsGuard);
    }
    groups := CloseDocument(l, p, groups, buffer, units);
    return Ok(groups);
  }

  method PlaceUnits(l: Linguistics, p: Profile, units: seq<Unit>)
    returns (groups: seq<Group>, buffer: seq<Unit>, ok: bool)
    ensures ok <==> NoneTooLarge(p, units)
    ensures ok ==> Grouping(l, p, units, groups, buffer)
  {
    groups, buffer, ok := [], [], true;
    ghost var done: seq<Unit> := [];
    GroupingStart(l, p);
    for i := 0 to |units|
      invariant done == units[..i] && NoneTooLarge(p, done) && Grouping(l, p, done, groups, buffer)
    {
      TooLargeNext(p, units, i);
      if TooLarge(p, units[i]) {
        return [], [], false;
      }
      groups, buffer := AbsorbUnit(l, p, groups, buffer, units[i], done);
      done := done + [units[i]];
    }
    assert done == units;
  }

  predicate NoneTooLarge(p: Profile, units: seq<Unit>) {
    forall k :: 0 <= k < |units| ==> !TooLarge(p, units[k])
  }

  lemma TooLargeNext(p: Profile, units: seq<Unit>, i: nat)
    requires i < |units| && NoneTooLarge(p, units[..i])
    ensures if TooLarge(p, units[i]) then !NoneTooLarge(p, units) else NoneTooLarge(p, units[..i] + [units[i]])
  {
  }

  method CloseDocument(l: Linguistics, p: Profile, groups: seq<Group>, buffer: seq<Unit>, ghost done: seq<Unit>)
    returns (r: seq<Group>)
    requires Grouping(l, p, done, groups, buffer)
    ensures FinallyGrouped(l, p, r, Kept(done))
  {
    CloseStep(l, p, done, groups, buffer);
    var flushed := Flush(p, groups, buffer, "DOCUMENT_END", false);
    return flushed.value;
  }

  // ---------------------------------------------------------------- the rules leave no choice

  /** Of a finished grouping, the first group is a prefix of the units, and either everything
      or broken off by the unit after it. */
  ghost predicate FirstShape(l: Linguistics, p: Profile, groups: seq<Group>, units: seq<Unit>) {
    && groups != []
    && (var first, a := groups[0], |groups[0].units|;
        && 0 < a <= |units| && first.units == units[..a] && Unbroken(l, p, first.units)
        && (if a == |units| then |groups| == 1 && first.reason == "DOCUMENT_END" && !first.forced
            else |groups| > 1 && BreakBefore(l, p, first.units, units[a]) == Some(Break(first.reason, first.forced))))
  }

  lemma FlattenHead(groups: seq<Group>)
    requires groups != []
    ensures Flatten(UnitsOf(groups)) == groups[0].units + Flatten(UnitsOf(groups[1..]))
  {
    assert UnitsOf(groups)[1..] == UnitsOf(groups[1..]);
  }

  lemma FirstIsShaped(l: Linguistics, p: Profile, groups: seq<Group>, units: seq<Unit>)
    requires FinallyGrouped(l, p, groups, units) && groups != []
    ensures FirstShape(l, p, groups, units)
  {
    var n := |groups| - 1;
    FlattenHead(groups);
    assert groups[0] in groups;
    if n == 0 {
      assert groups[1..] == [];
    } else {
      assert groups[..n][0] == groups[0] && groups[..n][0] in groups[..n];
      assert SoundGroup(l, p, groups[..n][0]);
      assert SeamAt(l, p, groups[..n], groups[n].units, 1);
      FlattenHead(groups[1..]);
      assert groups[1] in groups;
    }
  }

  lemma RestIsGrouped(l: Linguistics, p: Profile, groups: seq<Group>, units: seq<Unit>)
    requires FinallyGrouped(l, p, groups, units) && groups != []
    ensures |groups[0].units| <= |units| && FinallyGrouped(l, p, groups[1..], units[|groups[0].units|..])
  {
    var n, rest := |groups| - 1, groups[1..];
    FlattenHead(groups);
    TailWithin(p, groups);
    if n > 0 {
      GroupedTail(l, p, groups[..n], groups[n].units);
      assert rest[n - 1] == groups[n] && rest[..n - 1] == groups[..n][1..];
    }
  }

  lemma TailWithin(p: Profile, groups: seq<Group>)
    requires WithinHard(p, groups) && groups != []
    ensures WithinHard(p, groups[1..])
  {
    assert forall g :: g in groups[1..] ==> g in groups;
  }

  lemma GroupedTail(l: Linguistics, p: Profile, groups: seq<Group>, open: seq<Unit>)
    requires Grouped(l, p, groups, open) && groups != []
    ensures Grouped(l, p, groups[1..], open)
  {
    var tail := groups[1..];
    assert forall g :: g in tail ==> g in groups;
    forall k: nat | 0 < k <= |tail| ensures SeamAt(l, p, tail, open, k) {
      assert SeamAt(l, p, groups, open, k + 1);
    }
  }

  lemma SameFirst(l: Linguistics, p: Profile, a: seq<Group>, b: seq<Group>, units: seq<Unit>)
    requires FirstShape(l, p, a, units) && FirstShape(l, p, b, units)
    ensures a[0] == b[0]
  {
    NoBreakBefore(l, p, a, units);
    NoBreakBefore(l, p, b, units);
  }

  /** No shorter prefix of the units is broken off than the first group. */
  lemma NoBreakBefore(l: Linguistics, p: Profile, groups: seq<Group>, units: seq<Unit>)
    requires FirstShape(l, p, groups, units)
    ensures forall j :: 0 < j < |groups[0].units| ==> BreakBefore(l, p, units[..j], units[j]).None?
  {
    var first := groups[0].units;
    forall j: nat | 0 < j < |first| ensures BreakBefore(l, p, units[..j], units[j]).None? {
      assert NoBreakAt(l, p, first, j);
      assert first[..j] == units[..j] && first[j] == units[j];
    }
  }

  /** The break rules determine the groups of a unit sequence. */
  lemma {:induction false} GroupingUnique(l: Linguistics, p: Profile, a: seq<Group>, b: seq<Group>, units: seq<Unit>)
    requires FinallyGrouped(l, p, a, units) && FinallyGrouped(l, p, b, units)
    ensures a == b
    decreases |a|
  {
    if a == [] || b == [] {
      NoUnitsNoGroups(l, p, a, units);
      NoUnitsNoGroups(l, p, b, units);
    } else {
      FirstIsShaped(l, p, a, units);
      FirstIsShaped(l, p, b, units);
      SameFirst(l, p, a, b, units);
      RestIsGrouped(l, p, a, units);
      RestIsGrouped(l, p, b, units);
      GroupingUnique(l, p, a[1..], b[1..], units[|a[0].units|..]);
      assert a == [a[0]] + a[1..] && b == [b[0]] + b[1..];
    }
  }

  lemma NoUnitsNoGroups(l: Linguistics, p: Profile, groups: seq<Group>, units: seq<Unit>)
    requires FinallyGrouped(l, p, groups, units)
    ensures groups == [] <==> units == []
  {
    if groups != [] {
      FlattenHead(groups);
      assert groups[0] in groups;
    }
  }

  // ---------------------------------------------------------------- consolidation

  predicate Small(p: Profile, units: seq<Unit>) {
    Chars(units) < p.minChars
  }

  function Parent(hierarchy: seq<string>): seq<string> {
    if hierarchy == [] then [] else hierarchy[..|hierarchy| - 1]
  }

  predicate SameParent(left: seq<Unit>, right: seq<Unit>) {
    left != [] && right != [] && Parent(left[|left| - 1].hierarchy) == Parent(right[0].hierarchy)
  }

  predicate Mergeable(l: Linguistics, p: Profile, left: seq<Unit>, right: seq<Unit>) {
    && !SmallException(l, left) && !SmallException(l, right)
    && SameParent(left, right) && !ExceedsHard(p, left + right)
  }

  function Merged(a: Group, b: Group): Group {
    Group(a.units + b.units, "SMALL_FRAGMENT_MERGE", a.forced || b.forced)
  }

  predicate TakesNext(l: Linguistics, p: Profile, rest: seq<Group>) {
    |rest| > 1 && Small(p, rest[0].units) && Mergeable(l, p, rest[0].units, rest[1].units)
  }

  predicate JoinsPrevious(l: Linguistics, p: Profile, out: seq<Group>, rest: seq<Group>) {
    out != [] && rest != [] && Small(p, rest[0].units) && Mergeable(l, p, out[|out| - 1].units, rest[0].units)
  }

  datatype Step = Step(out: seq<Group>, used: nat)

  /** What becomes of the group at the front of `rest`. */
  function ConsolidateStep(l: Linguistics, p: Profile, out: seq<Group>, rest: seq<Group>): (r: Step)
    requires rest != []
    ensures 0 < r.used <= |rest|
  {
    if TakesNext(l, p, rest) then Step(out + [Merged(rest[0], rest[1])], 2)
    else if JoinsPrevious(l, p, out, rest) then Step(out[..|out| - 1] + [Merged(out[|out| - 1], rest[0])], 1)
    else Step(out + [rest[0]], 1)
  }

  function Consolidated(l: Linguistics, p: Profile, out: seq<Group>, rest: seq<Group>): seq<Group>
    decreases |rest|
  {
    if rest == [] then out
    else
      var step := ConsolidateStep(l, p, out, rest);
      Consolidated(l, p, step.out, rest[step.used..])
  }

  /** The groups after consolidation; a single group is left alone. */
  function Settled(l: Linguistics, p: Profile, groups: seq<Group>): seq<Group> {
    if |groups| < 2 then groups else Consolidated(l, p, [], groups)
  }

  method ConsolidateSmallGroups(l: Linguistics, p: Profile, groups: seq<Group>) returns (out: seq<Group>)
    ensures out == Settled(l, p, groups)
  {
    if |groups| < 2 {
      return groups;
    }
    out := [];
    var index := 0;
    while index < |groups|
      invariant 0 <= index <= |groups|
      invariant Consolidated(l, p, out, groups[index..]) == Consolidated(l, p, [], groups)
    {
      var group := groups[index];
      ghost var rest := groups[index..];
      assert rest[0] == group && rest[1..] == groups[index + 1..];
      if Small(p, group.units) && !SmallException(l, group.units) && index + 1 < |groups| {
        var next := groups[index + 1];
        assert rest[1] == next && rest[2..] == groups[index + 2..];
        if !SmallException(l, next.units) && SameParent(group.units, next.units)
          && !ExceedsHard(p, group.units + next.units) {
          out := out + [Merged(group, next)];
          index := index + 2;
          continue;
        }
      }
      if out != [] && Small(p, group.units) && !SmallException(l, group.units) {
        var last := out[|out| - 1];
        if !SmallException(l, last.units) && SameParent(last.units, group.units)
          && !ExceedsHard(p, last.units + group.units) {
          out := out[..|out| - 1] + [Merged(last, group)];
          index := index + 1;
          continue;
        }
      }
      out := out + [group];
      index := index + 1;
    }
  }

  function AllUnits(part: seq<Group>): seq<Unit> {
    Flatten(UnitsOf(part))
  }

  predicate SomeForced(part: seq<Group>) {
    exists k :: 0 <= k < |part| && part[k].forced
  }

  ghost predicate SeamOk(part: seq<Group>, k: nat)
    requires 0 < k < |part|
  {
    SameParent(part[k - 1].units, part[k].units)
  }

  /** `g` stands for the adjacent groups `part`: one group unchanged, or several merged, none
      with an exceptional unit, all under one parent heading, at most one of them not small,
      together within the hard guards. */
  ghost predicate StandsFor(l: Linguistics, p: Profile, g: Group, part: seq<Group>) {
    && part != [] && g.units == AllUnits(part)
    && (|part| == 1 ==> g == part[0])
    && (|part| > 1 ==>
          && g.reason == "SMALL_FRAGMENT_MERGE" && (g.forced <==> SomeForced(part))
          && !SmallException(l, g.units) && !ExceedsHard(p, g.units)
          && SeamsOk(part) && AtMostOneLarge(p, part))
  }

  ghost predicate SeamsOk(part: seq<Group>) {
    forall k: nat :: 0 < k < |part| ==> SeamOk(part, k)
  }

  ghost predicate AtMostOneLarge(p: Profile, part: seq<Group>) {
    forall i, j :: 0 <= i < j < |part| ==> Small(p, part[i].units) || Small(p, part[j].units)
  }

  ghost predicate StandFor(l: Linguistics, p: Profile, out: seq<Group>, parts: seq<seq<Group>>) {
    |out| == |parts| && forall k: nat :: k < |out| ==> StandsAt(l, p, out, parts, k)
  }

  ghost predicate StandsAt(l: Linguistics, p: Profile, out: seq<Group>, parts: seq<seq<Group>>, k: nat)
    requires k < |out| == |parts|
  {
    StandsFor(l, p, out[k], parts[k])
  }

  lemma SingleUnits(g: Group)
    ensures AllUnits([g]) == g.units
  {
    assert UnitsOf([g]) == [] + [g.units];
    FlattenSnoc([], g.units);
  }

  lemma SingleStands(l: Linguistics, p: Profile, g: Group)
    ensures StandsFor(l, p, g, [g])
  {
    SingleUnits(g);
  }

  lemma NoExceptionConcat(l: Linguistics, a: seq<Unit>, b: seq<Unit>)
    requires !SmallException(l, a) && !SmallException(l, b)
    ensures !SmallException(l, a + b)
  {
  }

  /** Appending a small group to a part. */
  lemma PartSnoc(l: Linguistics, p: Profile, g: Group, part: seq<Group>, next: Group)
    requires StandsFor(l, p, g, part) && Small(p, next.units) && Mergeable(l, p, g.units, next.units)
    requires forall k :: 0 <= k < |part| ==> part[k].units != []
    ensures StandsFor(l, p, Merged(g, next), part + [next])
  {
    var all := part + [next];
    UnitsOfSnoc(part, next);
    NoExceptionConcat(l, g.units, next.units);
    SeamsSnoc(part, next);
    LargeSnoc(p, part, next);
    ForcedSnoc(g, part, next);
  }

  lemma LargeSnoc(p: Profile, part: seq<Group>, next: Group)
    requires (|part| > 1 ==> AtMostOneLarge(p, part)) && Small(p, next.units)
    ensures AtMostOneLarge(p, part + [next])
  {
  }

  lemma SeamsSnoc(part: seq<Group>, next: Group)
    requires part != [] && (|part| > 1 ==> SeamsOk(part)) && part[|part| - 1].units != []
             && SameParent(AllUnits(part), next.units)
    ensures SeamsOk(part + [next])
  {
    var all := part + [next];
    LastUnit(part);
    forall k: nat | 0 < k < |all| ensures SeamOk(all, k) {
      if k < |part| {
        assert SeamOk(part, k);
      }
    }
  }

  lemma ForcedSnoc(g: Group, part: seq<Group>, next: Group)
    requires part != [] && (|part| == 1 ==> g == part[0]) && (|part| > 1 ==> (g.forced <==> SomeForced(part)))
    ensures g.forced || next.forced <==> SomeForced(part + [next])
  {
    var all := part + [next];
    assert all[|part|] == next && forall k :: 0 <= k < |part| ==> all[k] == part[k];
    if g.forced && |part| > 1 {
      var k :| 0 <= k < |part| && part[k].forced;
      assert all[k].forced;
    }
    if g.forced && |part| == 1 {
      assert all[0].forced;
    }
    if SomeForced(all) {
      var k :| 0 <= k < |all| && all[k].forced;
      if k < |part| {
        assert part[k].forced;
      }
    }
  }

  lemma LastUnit(part: seq<Group>)
    requires part != [] && part[|part| - 1].units != []
    ensures var all, last := AllUnits(part), part[|part| - 1].units;
            all != [] && all[|all| - 1] == last[|last| - 1]
  {
    var n := |part| - 1;
    assert part == part[..n] + [part[n]];
    UnitsOfSnoc(part[..n], part[n]);
  }

  /** A small group taking the next one in. */
  lemma PairStands(l: Linguistics, p: Profile, a: Group, b: Group)
    requires Small(p, a.units) && Mergeable(l, p, a.units, b.units)
    ensures StandsFor(l, p, Merged(a, b), [a, b])
  {
    SingleUnits(a);
    assert [a, b] == [a] + [b];
    UnitsOfSnoc([a], b);
    NoExceptionConcat(l, a.units, b.units);
    assert SeamOk([a, b], 1);
    ForcedSnoc(a, [a], b);
  }

  ghost predicate NonEmpty(groups: seq<Group>) {
    forall k :: 0 <= k < |groups| ==> groups[k].units != []
  }

  ghost predicate AllNonEmpty(parts: seq<seq<Group>>) {
    forall k :: 0 <= k < |parts| ==> NonEmpty(parts[k])
  }

  lemma StandForSnoc(l: Linguistics, p: Profile, out: seq<Group>, sofar: seq<seq<Group>>, g: Group, part: seq<Group>)
    requires StandFor(l, p, out, sofar) && AllNonEmpty(sofar) && StandsFor(l, p, g, part) && NonEmpty(part)
    ensures StandFor(l, p, out + [g], sofar + [part]) && AllNonEmpty(sofar + [part])
    ensures Flatten(sofar + [part]) == Flatten(sofar) + part
  {
    FlattenSnoc(sofar, part);
    forall k: nat | k < |out| + 1 ensures StandsAt(l, p, out + [g], sofar + [part], k) {
      if k < |out| {
        assert StandsAt(l, p, out, sofar, k);
      }
    }
  }

  lemma StandForInit(l: Linguistics, p: Profile, out: seq<Group>, sofar: seq<seq<Group>>)
    requires StandFor(l, p, out, sofar) && AllNonEmpty(sofar) && out != []
    ensures var n := |out| - 1;
            && StandFor(l, p, out[..n], sofar[..n]) && AllNonEmpty(sofar[..n])
            && StandsFor(l, p, out[n], sofar[n]) && NonEmpty(sofar[n])
            && Flatten(sofar) == Flatten(sofar[..n]) + sofar[n]
  {
    var n := |out| - 1;
    assert sofar == sofar[..n] + [sofar[n]];
    FlattenSnoc(sofar[..n], sofar[n]);
    assert StandsAt(l, p, out, sofar, n);
    forall k: nat | k < n ensures StandsAt(l, p, out[..n], sofar[..n], k) {
      assert StandsAt(l, p, out, sofar, k);
    }
  }

  lemma PairParts(l: Linguistics, p: Profile, out: seq<Group>, rest: seq<Group>, sofar: seq<seq<Group>>)
    returns (parts: seq<seq<Group>>)
    requires StandFor(l, p, out, sofar) && AllNonEmpty(sofar) && NonEmpty(rest) && TakesNext(l, p, rest)
    ensures StandFor(l, p, out + [Merged(rest[0], rest[1])], parts) && AllNonEmpty(parts)
            && Flatten(parts) == Flatten(sofar) + rest[..2]
    ensures parts == sofar + [rest[..2]]
  {
    PairStands(l, p, rest[0], rest[1]);
    StandForSnoc(l, p, out, sofar, Merged(rest[0], rest[1]), [rest[0], rest[1]]);
    parts := sofar + [[rest[0], rest[1]]];
    assert rest[..2] == [rest[0], rest[1]];
  }

  lemma JoinParts(l: Linguistics, p: Profile, out: seq<Group>, rest: seq<Group>, sofar: seq<seq<Group>>)
    returns (parts: seq<seq<Group>>)
    requires StandFor(l, p, out, sofar) && AllNonEmpty(sofar) && NonEmpty(rest) && JoinsPrevious(l, p, out, rest)
    ensures StandFor(l, p, out[..|out| - 1] + [Merged(out[|out| - 1], rest[0])], parts) && AllNonEmpty(parts)
    ensures Flatten(parts) == Flatten(sofar) + rest[..1]
    ensures var n := |sofar| - 1; parts == sofar[..n] + [sofar[n] + [rest[0]]]
  {
    var n := |out| - 1;
    StandForInit(l, p, out, sofar);
    PartSnoc(l, p, out[n], sofar[n], rest[0]);
    StandForSnoc(l, p, out[..n], sofar[..n], Merged(out[n], rest[0]), sofar[n] + [rest[0]]);
    parts := sofar[..n] + [sofar[n] + [rest[0]]];
    Assoc(Flatten(sofar[..n]), sofar[n], [rest[0]]);
    assert rest[..1] == [rest[0]];
  }

  /** One step moves the groups it uses from `rest` into the parts. */
  lemma StepParts(l: Linguistics, p: Profile, out: seq<Group>, rest: seq<Group>, sofar: seq<seq<Group>>)
    returns (parts: seq<seq<Group>>)
    requires StandFor(l, p, out, sofar) && AllNonEmpty(sofar) && NonEmpty(rest) && rest != []
    ensures var step := ConsolidateStep(l, p, out, rest);
            StandFor(l, p, step.out, parts) && AllNonEmpty(parts)
              && Flatten(parts) == Flatten(sofar) + rest[..step.used]
  {
    if TakesNext(l, p, rest) {
      parts := PairParts(l, p, out, rest, sofar);
    } else if JoinsPrevious(l, p, out, rest) {
      parts := JoinParts(l, p, out, rest, sofar);
    } else {
      SingleStands(l, p, rest[0]);
      StandForSnoc(l, p, out, sofar, rest[0], [rest[0]]);
      parts := sofar + [[rest[0]]];
      assert rest[..1] == [rest[0]];
    }
  }

  /** Consolidation partitions the groups into runs of neighbours and merges each run. */
  lemma {:induction false} ConsolidatedParts(l: Linguistics, p: Profile, out: seq<Group>, rest: seq<Group>,
                                             sofar: seq<seq<Group>>)
    returns (parts: seq<seq<Group>>)
    requires StandFor(l, p, out, sofar) && AllNonEmpty(sofar) && NonEmpty(rest)
    ensures StandFor(l, p, Consolidated(l, p, out, rest), parts) && AllNonEmpty(parts)
    ensures Flatten(parts) == Flatten(sofar) + rest
    decreases |rest|
  {
    if rest == [] {
      parts := sofar;
      assert Flatten(sofar) + [] == Flatten(sofar);
    } else {
      var step := ConsolidateStep(l, p, out, rest);
      var more := StepParts(l, p, out, rest, sofar);
      var used, tail := rest[..step.used], rest[step.used..];
      assert NonEmpty(tail);
      parts := ConsolidatedParts(l, p, step.out, tail, more);
      assert rest == used + tail;
      Assoc(Flatten(sofar), used, tail);
    }
  }

  lemma UnitsOfConcat(a: seq<Group>, b: seq<Group>)
    ensures AllUnits(a + b) == AllUnits(a) + AllUnits(b)
  {
    assert UnitsOf(a + b) == UnitsOf(a) + UnitsOf(b);
    FlattenConcat(UnitsOf(a), UnitsOf(b));
  }

  lemma StandForPrefix(l: Linguistics, p: Profile, out: seq<Group>, parts: seq<seq<Group>>)
    requires StandFor(l, p, out, parts) && out != []
    ensures var n := |out| - 1;
            && StandFor(l, p, out[..n], parts[..n]) && out[n].units == AllUnits(parts[n])
            && Flatten(parts) == Flatten(parts[..n]) + parts[n]
  {
    var n := |out| - 1;
    assert StandsAt(l, p, out, parts, n);
    assert parts == parts[..n] + [parts[n]];
    FlattenSnoc(parts[..n], parts[n]);
    forall k: nat | k < n ensures StandsAt(l, p, out[..n], parts[..n], k) {
      assert StandsAt(l, p, out, parts, k);
    }
  }

  lemma {:induction false} PartsKeepUnits(l: Linguistics, p: Profile, out: seq<Group>, parts: seq<seq<Group>>)
    requires StandFor(l, p, out, parts)
    ensures AllUnits(out) == AllUnits(Flatten(parts))
  {
    if out != [] {
      var n := |out| - 1;
      var init, last := out[..n], out[n];
      StandForPrefix(l, p, out, parts);
      PartsKeepUnits(l, p, init, parts[..n]);
      assert out == init + [last];
      UnitsOfSnoc(init, last);
      UnitsOfConcat(Flatten(parts[..n]), parts[n]);
    }
  }

  lemma {:induction false} PartOf<T>(parts: seq<seq<T>>, x: T) returns (k: nat)
    requires x in Flatten(parts)
    ensures k < |parts| && x in parts[k]
  {
    if x in parts[0] {
      k := 0;
    } else {
      k := PartOf(parts[1..], x);
      k := k + 1;
    }
  }

  lemma {:induction false} MemberOfFlatten<T>(parts: seq<seq<T>>, k: nat, x: T)
    requires k < |parts| && x in parts[k]
    ensures x in Flatten(parts)
  {
    if k > 0 {
      MemberOfFlatten(parts[1..], k - 1, x);
    }
  }

  lemma ExceptionInAll(l: Linguistics, part: seq<Group>, g: Group)
    requires g in part && SmallException(l, g.units)
    ensures SmallException(l, AllUnits(part))
  {
    var j :| 0 <= j < |g.units| && Exceptional(l, g.units[j]);
    var k :| 0 <= k < |part| && part[k] == g;
    assert UnitsOf(part)[k] == g.units;
    MemberOfFlatten(UnitsOf(part), k, g.units[j]);
    var i :| 0 <= i < |AllUnits(part)| && AllUnits(part)[i] == g.units[j];
  }

  /** What consolidation must not touch. */
  ghost predicate ConsolidationOk(l: Linguistics, p: Profile, groups: seq<Group>, out: seq<Group>) {
    && AllUnits(out) == AllUnits(groups)
    && WithinHard(p, out)
    && forall g :: g in groups && SmallException(l, g.units) ==> g in out
  }

  /** Consolidation keeps the unit sequence and the guards, and leaves every group holding a
      table, code or exception-role unit as it is. */
  lemma ConsolidationKeeps(l: Linguistics, p: Profile, groups: seq<Group>)
    requires WithinHard(p, groups)
    ensures ConsolidationOk(l, p, groups, Settled(l, p, groups))
  {
    if |groups| >= 2 {
      var out := Consolidated(l, p, [], groups);
      var parts := ConsolidatedParts(l, p, [], groups, []);
      assert [] + groups == groups;
      PartsKeepUnits(l, p, out, parts);
      PartsWithinHard(l, p, groups, out, parts);
      forall g | g in groups && SmallException(l, g.units) ensures g in out {
        ExceptionKept(l, p, out, parts, g);
      }
    }
  }

  lemma ExceptionKept(l: Linguistics, p: Profile, out: seq<Group>, parts: seq<seq<Group>>, g: Group)
    requires StandFor(l, p, out, parts) && g in Flatten(parts) && SmallException(l, g.units)
    ensures g in out
  {
    var k := PartOf(parts, g);
    assert StandsAt(l, p, out, parts, k);
    ExceptionInAll(l, parts[k], g);
    assert out[k] in out;
  }

  lemma PartsWithinHard(l: Linguistics, p: Profile, groups: seq<Group>, out: seq<Group>, parts: seq<seq<Group>>)
    requires StandFor(l, p, out, parts) && AllNonEmpty(parts) && Flatten(parts) == groups && WithinHard(p, groups)
    ensures WithinHard(p, out)
  {
    forall g | g in out ensures g.units != [] && !ExceedsHard(p, g.units) {
      var k :| 0 <= k < |out| && out[k] == g;
      assert StandsAt(l, p, out, parts, k) && NonEmpty(parts[k]);
      if |parts[k]| == 1 {
        assert g in parts[k];
        MemberOfFlatten(parts, k, g);
      } else {
        LastUnit(parts[k]);
      }
    }
  }
}
