/** Where the splitter ends a group, told by the sizes and headings and not by the loop. */
module Seams {
  import opened Base
  import opened Text
  import opened Chunks
  import opened Units
  import opened Document
  import opened Grouping

  // ---------------------------------------------------------------- sizes

  lemma {:induction false} SumsGrow(units: seq<Unit>, j: nat)
    requires j <= |units|
    ensures WordSum(units[..j]) <= WordSum(units) && SentenceSum(units[..j]) <= SentenceSum(units)
    ensures Chars(units[..j]) <= Chars(units)
    decreases |units|
  {
    if j == |units| {
      assert units[..j] == units;
    } else {
      var n := |units| - 1;
      var init, last := units[..n], units[n];
      SumsGrow(init, j);
      assert init[..j] == units[..j] && units == init + [last];
      UnitTextsConcat(init, [last]);
      assert UnitTexts([last]) == [last.text];
      JoinSnoc("\n", UnitTexts(init), last.text);
    }
  }

  // ---------------------------------------------------------------- the rules

  /** More than `chars` characters, or reliably more than `words` words. */
  ghost predicate Beyond(units: seq<Unit>, chars: nat, words: nat) {
    || |Join("\n", UnitTexts(units))| > chars
    || ((forall u :: u in units ==> u.words.reliable) && WordSum(units) > words)
  }

  ghost predicate BeyondHard(p: Profile, units: seq<Unit>) {
    Beyond(units, p.hardMaxChars, p.hardMaxWords) || SentenceSum(units) > p.hardMaxSentences
  }

  /** A heading ends a group that is large enough, or holds a table, code or a unit in an
      exception role. */
  ghost predicate NewSection(l: Linguistics, p: Profile, units: seq<Unit>, next: Unit) {
    && next.kind == Heading
    && (|Join("\n", UnitTexts(units))| >= p.minChars
        || exists u :: u in units && (u.kind == Table || u.kind == CodeBlock
                                      || (u.role.Some? && l.upper(u.role.value) in EXCEPTION_ROLES)))
  }

  /** A list is not parted from the line that introduces it, nor one element from itself
      unless its kind allows it. */
  ghost predicate Parts(prev: Unit, next: Unit) {
    && (prev.kind == Paragraph && prev.text != [] && prev.text[|prev.text| - 1] == ':' ==>
          next.kind != List && next.kind != ListItem)
    && (prev.id == next.id ==> prev.kind in {Paragraph, ListItem, Table, CodeBlock})
  }

  ghost predicate OnTarget(p: Profile, units: seq<Unit>) {
    || |Join("\n", UnitTexts(units))| >= p.targetChars || SentenceSum(units) >= p.targetSentences
    || ((forall u :: u in units ==> u.words.reliable) && WordSum(units) >= p.targetWords)
  }

  /** `next` starts another heading path. */
  ghost predicate NewHeading(prev: Unit, next: Unit) {
    next.kind == Heading || prev.hierarchy != next.hierarchy
  }

  ghost predicate Seam(l: Linguistics, p: Profile, units: seq<Unit>, next: Unit)
    requires units != []
  {
    var prev, more := units[|units| - 1], units + [next];
    || NewSection(l, p, units, next) || BeyondHard(p, more)
    || (Beyond(more, p.softMaxChars, p.softMaxWords) && Parts(prev, next))
    || (OnTarget(p, units) && NewHeading(prev, next))
  }

  /** Each reason is given for its own guard, and only a hard guard forces. */
  ghost predicate ReasonMeans(l: Linguistics, p: Profile, units: seq<Unit>, reason: string, forced: bool, next: Unit)
    requires units != []
  {
    var prev, more := units[|units| - 1], units + [next];
    var section, hard := NewSection(l, p, units, next), BeyondHard(p, more);
    var soft := Beyond(more, p.softMaxChars, p.softMaxWords) && Parts(prev, next);
    && (reason == "SECTION_BOUNDARY" <==> section)
    && (reason == "HARD_MAX" <==> !section && hard) && (forced <==> reason == "HARD_MAX")
    && (reason == "SOFT_MAX_SAFE_BOUNDARY" <==> !section && !hard && soft)
    && (reason == "STRUCTURAL_BOUNDARY" <==> !section && !hard && !soft)
  }

  lemma GuardsAre(l: Linguistics, p: Profile, units: seq<Unit>)
    ensures BeyondHard(p, units) <==> ExceedsHard(p, units)
    ensures Beyond(units, p.softMaxChars, p.softMaxWords) <==> ExceedsSoft(p, units)
    ensures OnTarget(p, units) <==> ReachesTarget(p, units)
  {
    assert (forall u :: u in units ==> u.words.reliable) <==> Reliable(units);
  }

  lemma SectionIs(l: Linguistics, p: Profile, units: seq<Unit>, next: Unit)
    ensures NewSection(l, p, units, next)
       <==> next.kind == Heading && (Chars(units) >= p.minChars || SmallException(l, units))
  {
    if u :| u in units && Exceptional(l, u) {
      var k :| 0 <= k < |units| && units[k] == u;
    }
  }

  lemma BreakIsSeam(l: Linguistics, p: Profile, units: seq<Unit>, next: Unit)
    requires units != []
    ensures var b := BreakBefore(l, p, units, next);
            && (b.Some? <==> Seam(l, p, units, next))
            && (b.Some? ==> ReasonMeans(l, p, units, b.value.reason, b.value.forced, next))
  {
    GuardsAre(l, p, units);
    GuardsAre(l, p, units + [next]);
    SectionIs(l, p, units, next);
    assert Parts(units[|units| - 1], next) <==> SafeBoundary(units[|units| - 1], next);
  }

  // ---------------------------------------------------------------- finished groupings

  ghost predicate SeamlessAt(l: Linguistics, p: Profile, units: seq<Unit>, j: nat)
    requires 0 < j < |units|
  {
    !Seam(l, p, units[..j], units[j])
  }

  /** Nothing inside the group would have ended it. */
  ghost predicate Seamless(l: Linguistics, p: Profile, units: seq<Unit>) {
    units != [] && forall j: nat :: 0 < j < |units| ==> SeamlessAt(l, p, units, j)
  }

  /** Group `k` ends at a seam, and says why. */
  ghost predicate EndsAtSeam(l: Linguistics, p: Profile, groups: seq<Group>, k: nat)
    requires k < |groups|
  {
    var g := groups[k];
    if k == |groups| - 1 then g.reason == "DOCUMENT_END" && !g.forced
    else g.units != [] && groups[k + 1].units != [] && Seam(l, p, g.units, groups[k + 1].units[0])
         && ReasonMeans(l, p, g.units, g.reason, g.forced, groups[k + 1].units[0])
  }

  /** The units in order, cut exactly at the seams. */
  ghost predicate CutAtSeams(l: Linguistics, p: Profile, groups: seq<Group>, units: seq<Unit>) {
    && Flatten(UnitsOf(groups)) == units
    && (forall k: nat :: k < |groups| ==> Seamless(l, p, groups[k].units))
    && (forall k: nat :: k < |groups| ==> EndsAtSeam(l, p, groups, k))
  }

  lemma UnbrokenIsSeamless(l: Linguistics, p: Profile, units: seq<Unit>)
    requires units != []
    ensures Unbroken(l, p, units) <==> Seamless(l, p, units)
  {
    forall j: nat | 0 < j < |units| ensures NoBreakAt(l, p, units, j) <==> SeamlessAt(l, p, units, j) {
      BreakIsSeam(l, p, units[..j], units[j]);
    }
    if Unbroken(l, p, units) {
      forall j: nat | 0 < j < |units| ensures SeamlessAt(l, p, units, j) {
        assert NoBreakAt(l, p, units, j);
      }
    }
    if Seamless(l, p, units) {
      forall j: nat | 0 < j < |units| ensures NoBreakAt(l, p, units, j) {
        assert SeamlessAt(l, p, units, j);
      }
    }
  }

  /** A finished grouping cuts the units at the seams and nowhere else. */
  lemma GroupsEndAtSeams(l: Linguistics, p: Profile, groups: seq<Group>, units: seq<Unit>)
    requires FinallyGrouped(l, p, groups, units)
    ensures CutAtSeams(l, p, groups, units)
  {
    if groups != [] {
      var n := |groups| - 1;
      var init := groups[..n];
      forall k: nat | k < |groups| ensures Seamless(l, p, groups[k].units) && EndsAtSeam(l, p, groups, k) {
        assert groups[k] in groups;
        if k < n {
          assert init[k] == groups[k] && init[k] in init && SoundGroup(l, p, init[k]);
          assert SeamAt(l, p, init, groups[n].units, k + 1);
          BreakIsSeam(l, p, groups[k].units, groups[k + 1].units[0]);
        }
        UnbrokenIsSeamless(l, p, groups[k].units);
      }
    }
  }

  /** No headings, one heading path, and everything within the soft limits. */
  ghost predicate OneSection(p: Profile, units: seq<Unit>) {
    && (forall u, v :: u in units && v in units ==> u.kind != Heading && u.hierarchy == v.hierarchy)
    && Chars(units) <= p.softMaxChars && WordSum(units) <= p.softMaxWords && SentenceSum(units) <= p.hardMaxSentences
  }

  lemma OneSectionSeamless(l: Linguistics, p: Profile, units: seq<Unit>, j: nat)
    requires ValidProfile(p) && OneSection(p, units) && 0 < j < |units|
    ensures !Seam(l, p, units[..j], units[j])
  {
    var more := units[..j + 1];
    SumsGrow(units, j + 1);
    assert more == units[..j] + [units[j]];
    assert units[..j][j - 1] == units[j - 1] && units[j - 1] in units && units[j] in units;
  }

  /** Units that fit together stay together. */
  lemma OneSectionOneGroup(l: Linguistics, p: Profile, groups: seq<Group>, units: seq<Unit>)
    requires ValidProfile(p) && FinallyGrouped(l, p, groups, units) && units != [] && OneSection(p, units)
    ensures groups == [Group(units, "DOCUMENT_END", false)]
  {
    NoUnitsNoGroups(l, p, groups, units);
    FirstIsShaped(l, p, groups, units);
    var a := |groups[0].units|;
    if a < |units| {
      BreakIsSeam(l, p, units[..a], units[a]);
      OneSectionSeamless(l, p, units, a);
    } else {
      assert units[..a] == units && groups == [groups[0]];
    }
  }

  /** Under one heading path a group is closed only when it is full. */
  lemma GroupsAreFull(l: Linguistics, p: Profile, groups: seq<Group>, units: seq<Unit>, k: nat)
    requires FinallyGrouped(l, p, groups, units) && k + 1 < |groups|
    ensures var a, b := groups[k].units, groups[k + 1].units;
            && a != [] && b != []
            && (b[0].kind != Heading && a[|a| - 1].hierarchy == b[0].hierarchy ==>
                  BeyondHard(p, a + [b[0]]) || Beyond(a + [b[0]], p.softMaxChars, p.softMaxWords))
  {
    GroupsEndAtSeams(l, p, groups, units);
    assert EndsAtSeam(l, p, groups, k);
  }
}
