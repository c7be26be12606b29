/** Fragments, their identities, and the whole splitter. */
module Fragments {
  import opened Base
  import opened Text
  import opened Chunks
  import opened Units
  import opened Document
  import opened Grouping

  datatype FragmentType = SectionFragment | ParagraphFragment | ListFragment | TableFragment | CodeFragment
    | OtherFragment

  datatype Fragment = Fragment(sequence: nat, kind: FragmentType, text: string, sourceIds: seq<string>,
                               continuation: nat,
                               rowFrom: Option<nat>, rowTo: Option<nat>, chars: nat, words: nat, sentences: nat,
                               wordsReliable: bool, reason: string, forced: bool)

  // ---------------------------------------------------------------- fields

  /** Element ids in order of first appearance. */
  function SourceIds(units: seq<Unit>): seq<string> {
    if units == [] then [] else
      var n := |units| - 1;
      var before := SourceIds(units[..n]);
      if units[n].id in before then before else before + [units[n].id]
  }

  /** Each id of a unit, once. */
  lemma {:induction false} SourceIdsOnce(units: seq<Unit>)
    ensures forall u :: u in units ==> u.id in SourceIds(units)
    ensures forall id :: id in SourceIds(units) ==> exists k :: 0 <= k < |units| && units[k].id == id
    ensures forall i, j :: 0 <= i < j < |SourceIds(units)| ==> SourceIds(units)[i] != SourceIds(units)[j]
  {
    if units != [] {
      var n := |units| - 1;
      SourceIdsOnce(units[..n]);
      forall id | id in SourceIds(units) ensures exists k :: 0 <= k < |units| && units[k].id == id {
        if id in SourceIds(units[..n]) {
          var k :| 0 <= k < n && units[..n][k].id == id;
          assert units[k].id == id;
        } else {
          assert units[n].id == id;
        }
      }
    }
  }

  lemma {:induction false} FirstSource(units: seq<Unit>)
    requires units != []
    ensures SourceIds(units) != [] && SourceIds(units)[0] == units[0].id
  {
    if |units| > 1 {
      FirstSource(units[..|units| - 1]);
    } else {
      assert units[..0] == [];
    }
  }

  function MaxContinuation(units: seq<Unit>): nat {
    if units == [] then 0 else
      var n := |units| - 1;
      var before := MaxContinuation(units[..n]);
      if units[n].continuation > before then units[n].continuation else before
  }

  lemma {:induction false} MaxContinuationMax(units: seq<Unit>)
    requires units != []
    ensures forall k :: 0 <= k < |units| ==> units[k].continuation <= MaxContinuation(units)
    ensures exists k :: 0 <= k < |units| && units[k].continuation == MaxContinuation(units)
  {
    var n := |units| - 1;
    if n > 0 {
      MaxContinuationMax(units[..n]);
      var k :| 0 <= k < n && units[..n][k].continuation == MaxContinuation(units[..n]);
      assert units[k].continuation == MaxContinuation(units[..n]);
    } else {
      assert units[..0] == [];
      assert units[0].continuation == MaxContinuation(units);
    }
  }

  function RowFrom(units: seq<Unit>): Option<nat> {
    if units == [] then None else
      var n := |units| - 1;
      var before, rows := RowFrom(units[..n]), units[n].rows;
      if rows.None? then before
      else if before.Some? && before.value <= rows.value.from then before else Some(rows.value.from)
  }

  function RowTo(units: seq<Unit>): Option<nat> {
    if units == [] then None else
      var n := |units| - 1;
      var before, rows := RowTo(units[..n]), units[n].rows;
      if rows.None? then before
      else if before.Some? && before.value >= rows.value.to then before else Some(rows.value.to)
  }

  predicate OnlyKinds(units: seq<Unit>, kinds: set<ElementType>) {
    forall k :: 0 <= k < |units| ==> units[k].kind in kinds
  }

  function FragmentTypeOf(units: seq<Unit>): FragmentType {
    if OnlyKinds(units, {Table}) then TableFragment
    else if OnlyKinds(units, {List, ListItem}) then ListFragment
    else if OnlyKinds(units, {CodeBlock}) then CodeFragment
    else if HasHeading(units) then SectionFragment
    else if OnlyKinds(units, {Paragraph}) then ParagraphFragment
    else OtherFragment
  }

  predicate AnyForced(units: seq<Unit>) {
    exists k :: 0 <= k < |units| && units[k].forced
  }

  function FragmentText(l: Linguistics, units: seq<Unit>): string {
    Strip(Join("\n", UnitTexts(units)), l.space)
  }

  function FragmentOf(l: Linguistics, g: Group, sequence: nat): Fragment {
    var units, text := g.units, FragmentText(l, g.units);
    var forced := g.forced || AnyForced(units);
    Fragment(sequence, FragmentTypeOf(units), text, SourceIds(units), MaxContinuation(units), RowFrom(units),
             RowTo(units), |text|, WordSum(units), SentenceSum(units), Reliable(units),
             if forced then "FORCED_SPLIT" else g.reason, forced)
  }

  method CollectSourceIds(units: seq<Unit>) returns (ids: seq<string>)
    ensures ids == SourceIds(units)
  {
    ids := [];
    for i := 0 to |units|
      invariant ids == SourceIds(units[..i])
    {
      assert units[..i + 1][..i] == units[..i];
      if units[i].id !in ids {
        ids := ids + [units[i].id];
      }
    }
    assert units[..|units|] == units;
  }

  method MakeFragment(l: Linguistics, g: Group, sequence: nat) returns (f: Fragment)
    ensures f == FragmentOf(l, g, sequence)
  {
    var ids := CollectSourceIds(g.units);
    var text := FragmentText(l, g.units);
    var forced := g.forced || AnyForced(g.units);
    f := Fragment(sequence, FragmentTypeOf(g.units), text, ids, MaxContinuation(g.units), RowFrom(g.units),
                  RowTo(g.units), |text|, WordSum(g.units), SentenceSum(g.units), Reliable(g.units),
                  if forced then "FORCED_SPLIT" else g.reason, forced);
  }

  function FragmentsOf(l: Linguistics, groups: seq<Group>): (r: seq<Fragment>)
    ensures |r| == |groups|
  {
    seq(|groups|, k requires 0 <= k < |groups| => FragmentOf(l, groups[k], k))
  }

  lemma FragmentsOfSnoc(l: Linguistics, groups: seq<Group>, g: Group)
    ensures FragmentsOf(l, groups + [g]) == FragmentsOf(l, groups) + [FragmentOf(l, g, |groups|)]
  {
    var all := groups + [g];
    forall k | 0 <= k < |all|
      ensures FragmentsOf(l, all)[k] == (FragmentsOf(l, groups) + [FragmentOf(l, g, |groups|)])[k]
    {
      assert all[k] == if k < |groups| then groups[k] else g;
    }
  }

  method MakeFragments(l: Linguistics, groups: seq<Group>) returns (fragments: seq<Fragment>)
    ensures fragments == FragmentsOf(l, groups)
  {
    fragments := [];
    for index := 0 to |groups|
      invariant fragments == FragmentsOf(l, groups[..index])
    {
      assert groups[..index + 1] == groups[..index] + [groups[index]];
      FragmentsOfSnoc(l, groups[..index], groups[index]);
      var f := MakeFragment(l, groups[index], index);
      fragments := fragments + [f];
    }
    assert groups[..|groups|] == groups;
  }

  // ---------------------------------------------------------------- what the fields mean

  /** The first row is the least first row of the units that have rows. */
  lemma {:induction false} RowFromLeast(units: seq<Unit>)
    ensures RowFrom(units).None? <==> forall k :: 0 <= k < |units| ==> units[k].rows.None?
    ensures RowFrom(units).Some? ==>
              && (forall k :: 0 <= k < |units| && units[k].rows.Some? ==>
                    RowFrom(units).value <= units[k].rows.value.from)
              && exists k :: 0 <= k < |units| && units[k].rows.Some? && units[k].rows.value.from == RowFrom(units).value
  {
    if units != [] {
      var n := |units| - 1;
      var before := RowFrom(units[..n]);
      RowFromLeast(units[..n]);
      if before.Some? {
        var k :| 0 <= k < n && units[..n][k].rows.Some? && units[..n][k].rows.value.from == before.value;
        assert units[k].rows.Some? && units[k].rows.value.from == before.value;
      }
      if units[n].rows.Some? && RowFrom(units) != before {
        assert units[n].rows.value.from == RowFrom(units).value;
      }
    }
  }

  /** The last row is the greatest last row of the units that have rows. */
  lemma {:induction false} RowToGreatest(units: seq<Unit>)
    ensures RowTo(units).None? <==> forall k :: 0 <= k < |units| ==> units[k].rows.None?
    ensures RowTo(units).Some? ==>
              && (forall k :: 0 <= k < |units| && units[k].rows.Some? ==> units[k].rows.value.to <= RowTo(units).value)
              && exists k :: 0 <= k < |units| && units[k].rows.Some? && units[k].rows.value.to == RowTo(units).value
  {
    if units != [] {
      var n := |units| - 1;
      var before := RowTo(units[..n]);
      RowToGreatest(units[..n]);
      if before.Some? {
        var k :| 0 <= k < n && units[..n][k].rows.Some? && units[..n][k].rows.value.to == before.value;
        assert units[k].rows.Some? && units[k].rows.value.to == before.value;
      }
      if units[n].rows.Some? && RowTo(units) != before {
        assert units[n].rows.value.to == RowTo(units).value;
      }
    }
  }

  predicate HasHeading(units: seq<Unit>) {
    exists k :: 0 <= k < |units| && units[k].kind == Heading
  }

  /** The type of a group: what all its units are, or SECTION as soon as one is a heading. */
  lemma FragmentTypeMeans(units: seq<Unit>)
    requires units != []
    ensures FragmentTypeOf(units) == TableFragment <==> OnlyKinds(units, {Table})
    ensures FragmentTypeOf(units) == ListFragment <==> OnlyKinds(units, {List, ListItem})
    ensures FragmentTypeOf(units) == CodeFragment <==> OnlyKinds(units, {CodeBlock})
    ensures FragmentTypeOf(units) == ParagraphFragment <==> OnlyKinds(units, {Paragraph})
    ensures FragmentTypeOf(units) == SectionFragment <==> HasHeading(units)
  {
    assert units[0].kind == units[0].kind;
  }

  // ---------------------------------------------------------------- guards

  predicate WithinGuards(p: Profile, f: Fragment) {
    f.chars <= p.hardMaxChars && f.sentences <= p.hardMaxSentences && (f.wordsReliable ==> f.words <= p.hardMaxWords)
  }

  lemma FragmentsWithinGuards(l: Linguistics, p: Profile, groups: seq<Group>)
    requires WithinHard(p, groups)
    ensures forall f :: f in FragmentsOf(l, groups) ==> WithinGuards(p, f)
  {
    forall f | f in FragmentsOf(l, groups) ensures WithinGuards(p, f) {
      var k :| 0 <= k < |groups| && FragmentOf(l, groups[k], k) == f;
      assert groups[k] in groups;
    }
  }

  method CheckGuards(p: Profile, fragments: seq<Fragment>) returns (r: Result<seq<Fragment>, SplitError>)
    ensures r == if forall f :: f in fragments ==> WithinGuards(p, f) then Ok(fragments) else Err(FragmentExceedsGuard)
  {
    for i := 0 to |fragments|
      invariant forall k :: 0 <= k < i ==> WithinGuards(p, fragments[k])
    {
      if !WithinGuards(p, fragments[i]) {
        return Err(FragmentExceedsGuard);
      }
    }
    return Ok(fragments);
  }

  // ---------------------------------------------------------------- conservation

  function FragmentTexts(fragments: seq<Fragment>): (r: seq<string>)
    ensures |r| == |fragments|
  {
    seq(|fragments|, k requires 0 <= k < |fragments| => fragments[k].text)
  }

  function GroupTexts(l: Linguistics, groups: seq<Group>): (r: seq<string>)
    ensures |r| == |groups|
  {
    seq(|groups|, k requires 0 <= k < |groups| => FragmentText(l, groups[k].units))
  }

  lemma FragmentTextsAre(l: Linguistics, groups: seq<Group>)
    ensures FragmentTexts(FragmentsOf(l, groups)) == GroupTexts(l, groups)
  {
  }

  lemma GroupTextsSnoc(l: Linguistics, groups: seq<Group>, g: Group)
    ensures GroupTexts(l, groups + [g]) == GroupTexts(l, groups) + [FragmentText(l, g.units)]
  {
  }

  lemma FragmentContent(l: Linguistics, units: seq<Unit>)
    requires Lawful(l)
    ensures Content(FragmentText(l, units), l.space) == Contents(UnitTexts(units), l.space)
  {
    StripContent(Join("\n", UnitTexts(units)), l.space);
    JoinContent("\n", UnitTexts(units), l.space);
  }

  /** Fragments lose nothing but whitespace. */
  lemma {:induction false} GroupsContent(l: Linguistics, groups: seq<Group>)
    requires Lawful(l)
    ensures Contents(GroupTexts(l, groups), l.space) == Contents(UnitTexts(AllUnits(groups)), l.space)
  {
    if groups != [] {
      var n := |groups| - 1;
      var init, g := groups[..n], groups[n];
      assert groups == init + [g];
      GroupsContent(l, init);
      GroupTextsSnoc(l, init, g);
      ContentsSnoc(GroupTexts(l, init), FragmentText(l, g.units), l.space);
      FragmentContent(l, g.units);
      UnitsOfSnoc(init, g);
      UnitTextsConcat(AllUnits(init), g.units);
      ContentsConcat(UnitTexts(AllUnits(init)), UnitTexts(g.units), l.space);
    }
  }

  // ---------------------------------------------------------------- identity

  /** Two groups apart in a numbered unit sequence differ in their source ids or in their
      highest continuation. */
  lemma GroupsDiffer(a: seq<Unit>, between: seq<Unit>, b: seq<Unit>)
    requires a != [] && b != [] && Numbered(a + between + b) && SourceIds(a) == SourceIds(b)
    ensures MaxContinuation(a) < MaxContinuation(b)
  {
    var all, first := a + between + b, |a| + |between|;
    FirstSource(a);
    FirstSource(b);
    assert all[0] == a[0] && all[first] == b[0];
    assert InSequence(all, 0, first);
    MaxContinuationMax(a);
    MaxContinuationMax(b);
    var k :| 0 <= k < |a| && a[k].continuation == MaxContinuation(a);
    assert all[k] == a[k];
    assert InSequence(all, k, first);
    assert b[0].continuation <= MaxContinuation(b);
  }

  lemma NumberedInfix(pre: seq<Unit>, x: seq<Unit>, post: seq<Unit>)
    requires Numbered(pre + x + post)
    ensures Numbered(x)
  {
    var all := pre + x + post;
    assert forall k :: 0 <= k < |x| ==> all[|pre| + k] == x[k];
    forall i: nat, j: nat | i < j < |x| ensures InSequence(x, i, j) {
      assert InSequence(all, |pre| + i, |pre| + j);
      forall k | i <= k <= j && x[i].id == x[j].id ensures x[k].id == x[i].id {
        assert all[|pre| + k].id == all[|pre| + i].id;
      }
    }
  }

  ghost predicate DistinctIdentities(fragments: seq<Fragment>) {
    forall i, j :: 0 <= i < j < |fragments| ==>
      fragments[i].sourceIds != fragments[j].sourceIds || fragments[i].continuation != fragments[j].continuation
  }

  lemma UnitsAround(groups: seq<Group>, i: nat)
    requires i < |groups|
    ensures AllUnits(groups) == AllUnits(groups[..i]) + groups[i].units + AllUnits(groups[i + 1..])
  {
    var a, b := groups[..i], groups[i + 1..];
    assert groups == (a + [groups[i]]) + b;
    UnitsOfConcat(a + [groups[i]], b);
    UnitsOfSnoc(a, groups[i]);
  }

  lemma GroupsApart(groups: seq<Group>, i: nat, j: nat) returns (pre: seq<Unit>, between: seq<Unit>, post: seq<Unit>)
    requires i < j < |groups|
    ensures AllUnits(groups) == pre + (groups[i].units + between + groups[j].units) + post
  {
    var rest, k := groups[i + 1..], j - i - 1;
    pre, between, post := AllUnits(groups[..i]), AllUnits(rest[..k]), AllUnits(rest[k + 1..]);
    UnitsAround(groups, i);
    UnitsAround(rest, k);
    Regrouped(pre, groups[i].units, between, groups[j].units, post);
  }

  lemma Regrouped<T>(a: seq<T>, b: seq<T>, c: seq<T>, d: seq<T>, e: seq<T>)
    ensures a + b + (c + d + e) == a + (b + c + d) + e
  {
    Assoc(a + b, c + d, e);
    Assoc(a, b, c + d);
    Assoc(b, c, d);
  }

  lemma IdentitiesDistinct(l: Linguistics, groups: seq<Group>)
    requires NonEmpty(groups) && Numbered(AllUnits(groups))
    ensures DistinctIdentities(FragmentsOf(l, groups))
  {
    var fragments := FragmentsOf(l, groups);
    forall i, j | 0 <= i < j < |fragments|
      ensures fragments[i].sourceIds != fragments[j].sourceIds || fragments[i].continuation != fragments[j].continuation
    {
      var a, b := groups[i].units, groups[j].units;
      var pre, between, post := GroupsApart(groups, i, j);
      NumberedInfix(pre, a + between + b, post);
      if SourceIds(a) == SourceIds(b) {
        GroupsDiffer(a, between, b);
      }
    }
  }

  // ---------------------------------------------------------------- the splitter

  /** The texts of an element that may have to be cut: its rows, or its sentences. */
  function TextsToCut(l: Linguistics, e: Element): seq<string> {
    if e.suppressed then []
    else if e.kind == Table && e.rows != [] then RowTexts(e.rows)
    else if Strip(e.text, l.space) == [] then []
    else SentencesOf(l, e.language, Strip(e.text, l.space))
  }

  /** A token of `t`, or `t` itself when it is blank. */
  predicate WordOf(l: Linguistics, t: string, w: string) {
    var words := Tokens(t, l.space);
    if words == [] then w == t else w in words
  }

  /** Some word of the element holds a cluster longer than the character guard. */
  ghost predicate HasLongCluster(l: Linguistics, p: Profile, e: Element) {
    exists t, w :: t in TextsToCut(l, e) && WordOf(l, t, w) && Uncuttable(l, p, w)
  }

  lemma {:induction false} PartLength(parts: seq<string>, c: string)
    requires c in parts
    ensures |c| <= |Join([], parts)|
  {
    var n := |parts| - 1;
    var init, last := parts[..n], parts[n];
    assert parts == init + [last];
    JoinEmptyLength(init, last);
    if c != last {
      PartLength(init, c);
    }
  }

  lemma {:induction false} TokenLength(t: string, i: nat, space: Space, w: string)
    requires i <= |t| && w in TokensFrom(t, i, space)
    ensures |w| <= |t|
    decreases |t| - i
  {
    var a := SkipSpace(t, i, space);
    var b := SkipWord(t, a, space);
    if w != t[a..b] {
      TokenLength(t, b, space, w);
    }
  }

  lemma UncuttableIsLong(l: Linguistics, p: Profile, t: string, w: string)
    requires Lawful(l) && WordOf(l, t, w) && Uncuttable(l, p, w)
    ensures |w| > p.hardMaxChars && |t| >= |w|
  {
    var c :| c in l.clusters(w) && |c| > p.hardMaxChars;
    PartLength(l.clusters(w), c);
    assert Join([], l.clusters(w)) == w;
    if Tokens(t, l.space) != [] {
      TokenLength(t, 0, l.space, w);
    }
  }

  lemma ForceFailsWord(l: Linguistics, p: Profile, t: string)
    requires ForceFails(l, p, t)
    ensures exists w :: WordOf(l, t, w) && Uncuttable(l, p, w)
  {
    var words := Tokens(t, l.space);
    if words == [] {
      assert WordOf(l, t, t);
    } else {
      var k :| 0 <= k < |words| && |words[k]| > p.hardMaxChars && Uncuttable(l, p, words[k]);
      assert WordOf(l, t, words[k]);
    }
  }

  lemma WordFailsForce(l: Linguistics, p: Profile, lang: Language, t: string, w: string)
    requires Lawful(l) && WordOf(l, t, w) && Uncuttable(l, p, w)
    ensures Over(l, p, lang, t) && ForceFails(l, p, t)
  {
    UncuttableIsLong(l, p, t, w);
  }

  /** An element cannot be cut if and only if one of its words holds an over-long cluster. */
  lemma FailsIffLongCluster(l: Linguistics, p: Profile, e: Element)
    requires Lawful(l)
    ensures ElementFails(l, p, e) <==> HasLongCluster(l, p, e)
  {
    var texts := TextsToCut(l, e);
    if ElementFails(l, p, e) {
      var k :| 0 <= k < |texts| && Over(l, p, e.language, texts[k]) && ForceFails(l, p, texts[k]);
      ForceFailsWord(l, p, texts[k]);
      assert texts[k] in texts;
    }
    if HasLongCluster(l, p, e) {
      var t, w :| t in texts && WordOf(l, t, w) && Uncuttable(l, p, w);
      WordFailsForce(l, p, e.language, t, w);
      var k :| 0 <= k < |texts| && texts[k] == t;
    }
  }

  /** A forced unit that is a token, a piece of one, or blank, and counts too many words. */
  predicate OverCounting(l: Linguistics, p: Profile, u: Unit) {
    && u.text != [] && u.forced && (Solid(u.text, l.space) || Blank(u.text, l.space))
    && u.words.reliable && u.words.count > p.hardMaxWords
  }

  lemma OneUnit(u: Unit)
    ensures Chars([u]) == |u.text| && WordSum([u]) == u.words.count && SentenceSum([u]) == u.sentences
            && (Reliable([u]) <==> u.words.reliable)
  {
    assert UnitTexts([u]) == [u.text] && [u][..0] == [];
    assert [u][0] == u;
    JoinOne("\n", u.text);
  }

  /** Of the units the splitter makes, exactly the over-counting ones are too large. */
  lemma TooLargeIffOverCounting(l: Linguistics, p: Profile, u: Unit)
    requires UnitOk(l, p, u)
    ensures TooLarge(p, u) <==> OverCounting(l, p, u)
  {
    OneUnit(u);
    assert TooLarge(p, u) ==> Over(l, p, u.language, u.text);
  }

  /** Fragment `k` is numbered by its place, measures its own trimmed text, and gives the forced
      reason when it is forced. */
  predicate WellMade(l: Linguistics, fragments: seq<Fragment>, k: nat)
    requires k < |fragments|
  {
    var f := fragments[k];
    && f.sequence == k && f.chars == |f.text| && (f.text == [] || Trimmed(f.text, l.space))
    && (f.forced ==> f.reason == "FORCED_SPLIT")
  }

  /** What a successful split promises. */
  ghost predicate SplitOk(l: Linguistics, p: Profile, elements: seq<Element>, fragments: seq<Fragment>) {
    && Contents(FragmentTexts(fragments), l.space) == Contents(ElementTexts(SortElements(elements)), l.space)
    && (forall f :: f in fragments ==> WithinGuards(p, f))
    && (forall k: nat :: k < |fragments| ==> WellMade(l, fragments, k))
    && (DistinctIds(elements) ==> DistinctIdentities(fragments)
                                  && forall f :: f in fragments ==> SourcedFrom(f, elements))
  }

  /** A fragment names at least one source, and only elements of the document. */
  ghost predicate SourcedFrom(f: Fragment, elements: seq<Element>) {
    f.sourceIds != [] && forall id :: id in f.sourceIds ==> exists e :: e in elements && e.id == id
  }

  lemma FragmentSourced(l: Linguistics, g: Group, sequence: nat, elements: seq<Element>)
    requires g.units != [] && FromElements(g.units, elements)
    ensures SourcedFrom(FragmentOf(l, g, sequence), elements)
  {
    FirstSource(g.units);
    SourceIdsOnce(g.units);
    forall id | id in SourceIds(g.units) ensures exists e :: e in elements && e.id == id {
      var k :| 0 <= k < |g.units| && g.units[k].id == id;
      assert g.units[k] in g.units;
    }
  }

  lemma FragmentsSourced(l: Linguistics, out: seq<Group>, elements: seq<Element>)
    requires NonEmpty(out) && FromElements(AllUnits(out), elements)
    ensures forall f :: f in FragmentsOf(l, out) ==> SourcedFrom(f, elements)
  {
    forall f | f in FragmentsOf(l, out) ensures SourcedFrom(f, elements) {
      var k :| 0 <= k < |out| && FragmentOf(l, out[k], k) == f;
      forall u | u in out[k].units ensures exists e :: e in elements && e.id == u.id {
        assert UnitsOf(out)[k] == out[k].units;
        MemberOfFlatten(UnitsOf(out), k, u);
      }
      FragmentSourced(l, out[k], k, elements);
    }
  }

  lemma FragmentsWellMade(l: Linguistics, groups: seq<Group>)
    ensures forall k: nat :: k < |groups| ==> WellMade(l, FragmentsOf(l, groups), k)
  {
  }

  ghost predicate FromGroups(l: Linguistics, p: Profile, units: seq<Unit>, fragments: seq<Fragment>) {
    exists groups :: FinallyGrouped(l, p, groups, Kept(units))
      && fragments == FragmentsOf(l, Settled(l, p, groups))
  }

  lemma SplitSound(l: Linguistics, p: Profile, elements: seq<Element>, units: seq<Unit>, groups: seq<Group>)
    requires Lawful(l) && ValidProfile(p) && AllCut(l, p, SortElements(elements))
    requires units == DocumentUnits(l, p, START, SortElements(elements)) && FinallyGrouped(l, p, groups, Kept(units))
    ensures SplitOk(l, p, elements, FragmentsOf(l, Settled(l, p, groups)))
  {
    var out := Settled(l, p, groups);
    ConsolidationKeeps(l, p, groups);
    ContentSound(l, p, SortElements(elements), units, out);
    FragmentsWithinGuards(l, p, out);
    FragmentsWellMade(l, out);
    if DistinctIds(elements) {
      IdentitySound(l, p, elements, units, out);
    }
  }

  lemma ContentSound(l: Linguistics, p: Profile, sorted: seq<Element>, units: seq<Unit>, out: seq<Group>)
    requires Lawful(l) && ValidProfile(p) && AllCut(l, p, sorted)
    requires units == DocumentUnits(l, p, START, sorted) && AllUnits(out) == Kept(units)
    ensures Contents(FragmentTexts(FragmentsOf(l, out)), l.space) == Contents(ElementTexts(sorted), l.space)
  {
    DocumentContent(l, p, START, sorted);
    KeptContent(units, l.space);
    GroupsContent(l, out);
    FragmentTextsAre(l, out);
  }

  lemma IdentitySound(l: Linguistics, p: Profile, elements: seq<Element>, units: seq<Unit>, out: seq<Group>)
    requires Lawful(l) && ValidProfile(p) && AllCut(l, p, SortElements(elements)) && DistinctIds(elements)
    requires units == DocumentUnits(l, p, START, SortElements(elements)) && AllUnits(out) == Kept(units)
             && WithinHard(p, out)
    ensures DistinctIdentities(FragmentsOf(l, out)) && forall f :: f in FragmentsOf(l, out) ==> SourcedFrom(f, elements)
  {
    SortDistinct(elements);
    DocumentNumbered(l, p, START, SortElements(elements));
    FromSorted(AllUnits(out), elements);
    assert NonEmpty(out) by {
      assert forall k :: 0 <= k < |out| ==> out[k] in out;
    }
    IdentitiesDistinct(l, out);
    FragmentsSourced(l, out, elements);
  }

  lemma FromSorted(units: seq<Unit>, elements: seq<Element>)
    requires FromElements(units, SortElements(elements))
    ensures FromElements(units, elements)
  {
    forall u | u in units ensures exists e :: e in elements && e.id == u.id {
      var e :| e in SortElements(elements) && e.id == u.id;
      SortMembers(elements, e);
    }
  }

  lemma PrefixCut(l: Linguistics, p: Profile, es: seq<Element>, done: nat)
    requires done <= |es| && forall k :: 0 <= k < done ==> !ElementFails(l, p, es[k])
    ensures AllCut(l, p, es[..done])
  {
  }

  ghost predicate SomeOverCounting(l: Linguistics, p: Profile, units: seq<Unit>) {
    exists u :: u in units && OverCounting(l, p, u)
  }

  lemma UnitErrorMeans(l: Linguistics, p: Profile, es: seq<Element>, units: seq<Unit>)
    requires Lawful(l) && ValidProfile(p) && AllCut(l, p, es) && units == DocumentUnits(l, p, START, es)
    ensures (exists k :: 0 <= k < |units| && TooLarge(p, units[k])) <==> SomeOverCounting(l, p, units)
  {
    DocumentContent(l, p, START, es);
    if k :| 0 <= k < |units| && TooLarge(p, units[k]) {
      assert units[k] in units;
      TooLargeIffOverCounting(l, p, units[k]);
    }
    if SomeOverCounting(l, p, units) {
      var u :| u in units && OverCounting(l, p, u);
      TooLargeIffOverCounting(l, p, u);
      var k :| 0 <= k < |units| && units[k] == u;
    }
  }

  /** Element `n` is the first, if any, with an over-long cluster. */
  ghost predicate CutUpTo(l: Linguistics, p: Profile, es: seq<Element>, n: nat) {
    && n <= |es| && (forall k :: 0 <= k < n ==> !HasLongCluster(l, p, es[k]))
    && (n < |es| ==> HasLongCluster(l, p, es[n]))
  }

  /** The exact outcome: a unit error when one of the units read before the first uncuttable
      element over-counts, else a cluster error when there is such an element, else success. */
  ghost predicate Verdict(l: Linguistics, p: Profile, es: seq<Element>, n: nat, r: Result<seq<Fragment>, SplitError>)
    requires n <= |es|
  {
    var bad := SomeOverCounting(l, p, DocumentUnits(l, p, START, es[..n]));
    && CutUpTo(l, p, es, n)
    && (r == Err(UnitExceedsGuard) <==> bad)
    && (r == Err(GraphemeExceedsGuard) <==> n < |es| && !bad)
    && (r.Ok? <==> n == |es| && !bad)
  }

  /** A document the splitter can handle: no over-long cluster, no over-counting token. */
  ghost predicate Splittable(l: Linguistics, p: Profile, es: seq<Element>) {
    (forall e :: e in es ==> !HasLongCluster(l, p, e)) && !SomeOverCounting(l, p, DocumentUnits(l, p, START, es))
  }

  lemma VerdictIffSplittable(l: Linguistics, p: Profile, es: seq<Element>, n: nat, r: Result<seq<Fragment>, SplitError>)
    requires n <= |es| && Verdict(l, p, es, n, r)
    ensures r.Ok? <==> Splittable(l, p, es)
  {
    if n < |es| {
      assert es[n] in es;
    } else {
      assert es[..n] == es;
      forall e | e in es ensures !HasLongCluster(l, p, e) {
        var k :| 0 <= k < |es| && es[k] == e;
      }
    }
  }

  lemma ReadMeans(l: Linguistics, p: Profile, es: seq<Element>, n: nat, failed: bool)
    requires Lawful(l) && n <= |es| && (forall k :: 0 <= k < n ==> !ElementFails(l, p, es[k]))
    requires (failed ==> n < |es| && ElementFails(l, p, es[n])) && (!failed ==> n == |es|)
    ensures CutUpTo(l, p, es, n) && AllCut(l, p, es[..n]) && (failed <==> n < |es|)
  {
    forall k | 0 <= k < |es| ensures ElementFails(l, p, es[k]) <==> HasLongCluster(l, p, es[k]) {
      FailsIffLongCluster(l, p, es[k]);
    }
    PrefixCut(l, p, es, n);
  }

  /** The whole splitter. It keeps the text of the document, every fragment is within the hard
      guards, fragments of a document with unique element ids have distinct identities, and
      the guard checks on flushed groups and on fragments never fire. It succeeds if and only
      if no word of the document holds a cluster longer than the character guard and no unit
      is a single token, or a piece of one, over the word guard. */
  method Split(l: Linguistics, p: Profile, elements: seq<Element>) returns (r: Result<seq<Fragment>, SplitError>)
    requires Lawful(l) && ValidProfile(p)
    ensures r.Ok? <==> Splittable(l, p, SortElements(elements))
    ensures exists n: nat :: n <= |SortElements(elements)| && Verdict(l, p, SortElements(elements), n, r)
    ensures r.Ok? ==> SplitOk(l, p, elements, r.value)
    ensures r.Ok? ==> FromGroups(l, p, DocumentUnits(l, p, START, SortElements(elements)), r.value)
  {
    ghost var es := SortElements(elements);
    var units, done, failed := IterUnits(l, p, elements);
    ReadMeans(l, p, es, done, failed);
    var grouped := GroupUnits(l, p, units);
    if grouped.Err? {
      r := Err(UnitExceedsGuard);
    } else if failed {
      r := Err(GraphemeExceedsGuard);
    } else {
      assert es[..done] == es;
      var fragments := Assemble(l, p, elements, units, grouped.value);
      r := Ok(fragments);
    }
    OutcomeVerdict(l, p, es, done, units, grouped.Err?, r);
  }

  lemma OutcomeVerdict(l: Linguistics, p: Profile, es: seq<Element>, n: nat, units: seq<Unit>, tooLarge: bool,
                       r: Result<seq<Fragment>, SplitError>)
    requires Lawful(l) && ValidProfile(p) && n <= |es| && CutUpTo(l, p, es, n) && AllCut(l, p, es[..n])
    requires units == DocumentUnits(l, p, START, es[..n])
    requires tooLarge <==> exists k :: 0 <= k < |units| && TooLarge(p, units[k])
    requires if tooLarge then r == Err(UnitExceedsGuard) else if n < |es| then r == Err(GraphemeExceedsGuard) else r.Ok?
    ensures Verdict(l, p, es, n, r) && (r.Ok? <==> Splittable(l, p, es))
  {
    UnitErrorMeans(l, p, es[..n], units);
    VerdictIffSplittable(l, p, es, n, r);
  }

  /** From groups to fragments; the final guard check always passes. */
  method Assemble(l: Linguistics, p: Profile, ghost elements: seq<Element>, ghost units: seq<Unit>, grouped: seq<Group>)
    returns (fragments: seq<Fragment>)
    requires Lawful(l) && ValidProfile(p) && AllCut(l, p, SortElements(elements))
    requires units == DocumentUnits(l, p, START, SortElements(elements)) && FinallyGrouped(l, p, grouped, Kept(units))
    ensures SplitOk(l, p, elements, fragments) && FromGroups(l, p, units, fragments)
  {
    var groups := ConsolidateSmallGroups(l, p, grouped);
    fragments := MakeFragments(l, groups);
    SplitSound(l, p, elements, units, grouped);
    var checked := CheckGuards(p, fragments);
    fragments := checked.value;
  }
}
