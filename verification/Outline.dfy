/** The heading path and the list introduction at a point of a document, described by the
    elements before it. */
module Outline {
  import opened Base
  import opened Text
  import opened Chunks
  import opened Units
  import opened Document

  predicate IsHeading(l: Linguistics, e: Element) {
    !e.suppressed && e.kind == Heading && Strip(e.text, l.space) != []
  }

  /** No heading stands at positions a..b-1. */
  ghost predicate NoHeadings(l: Linguistics, es: seq<Element>, a: int, b: int) {
    forall j :: a <= j < b && 0 <= j < |es| ==> !IsHeading(l, es[j])
  }

  /** Position `d` of the path is held by heading number `path[d]`: every later heading lies
      deeper, and its own level is the depth, or greater when it stands right below its parent. */
  ghost predicate HoldsDepth(l: Linguistics, es: seq<Element>, path: seq<nat>, d: nat)
    requires d < |path|
  {
    && path[d] < |es| && IsHeading(l, es[path[d]])
    && (d > 0 ==> path[d - 1] < path[d])
    && (forall j :: path[d] < j < |es| && IsHeading(l, es[j]) ==> Level(es[j]) > d + 1)
    && (|| Level(es[path[d]]) == d + 1
        || (Level(es[path[d]]) > d + 1 && NoHeadings(l, es, if d == 0 then 0 else path[d - 1] + 1, path[d])))
  }

  /** `path` are the headings that are open at the end of `es`, outermost first. */
  ghost predicate OpenHeadings(l: Linguistics, es: seq<Element>, path: seq<nat>) {
    && (forall d: nat :: d < |path| ==> HoldsDepth(l, es, path, d))
    && NoHeadings(l, es, if path == [] then 0 else path[|path| - 1] + 1, |es|)
  }

  function HeadingTexts(l: Linguistics, es: seq<Element>, path: seq<nat>): seq<string>
    requires forall d :: 0 <= d < |path| ==> path[d] < |es|
  {
    seq(|path|, d requires 0 <= d < |path| => Strip(es[path[d]].text, l.space))
  }

  lemma PathSkips(l: Linguistics, es: seq<Element>, e: Element, path: seq<nat>)
    requires OpenHeadings(l, es, path) && !IsHeading(l, e)
    ensures OpenHeadings(l, es + [e], path)
  {
    forall d: nat | d < |path| ensures HoldsDepth(l, es + [e], path, d) {
      assert HoldsDepth(l, es, path, d);
    }
  }

  /** What is left of the path when a heading comes. */
  function Kept(path: seq<nat>, level: nat): seq<nat>
    requires level >= 1
  {
    if level - 1 <= |path| then path[..level - 1] else path
  }

  lemma NoHeadingsExtend(l: Linguistics, es: seq<Element>, e: Element, a: int, b: int)
    requires NoHeadings(l, es, a, b) && b <= |es|
    ensures NoHeadings(l, es + [e], a, b)
  {
    var all := es + [e];
    forall j | a <= j < b && 0 <= j < |all| ensures !IsHeading(l, all[j]) {
      assert all[j] == es[j];
    }
  }

  /** A kept heading is still open: the new one lies deeper. */
  lemma StillHolds(l: Linguistics, es: seq<Element>, e: Element, path: seq<nat>, d: nat)
    requires IsHeading(l, e) && d < |Kept(path, Level(e))| && HoldsDepth(l, es, path, d)
    ensures HoldsDepth(l, es + [e], Kept(path, Level(e)) + [|es|], d)
  {
    var all, next := es + [e], Kept(path, Level(e)) + [|es|];
    assert next[d] == path[d] && (d > 0 ==> next[d - 1] == path[d - 1]) && all[path[d]] == es[path[d]];
    if Level(es[path[d]]) != d + 1 {
      NoHeadingsExtend(l, es, e, if d == 0 then 0 else path[d - 1] + 1, path[d]);
    }
    forall j | path[d] < j < |all| && IsHeading(l, all[j]) ensures Level(all[j]) > d + 1 {
      assert j < |es| ==> all[j] == es[j];
    }
  }

  lemma LastKept(l: Linguistics, es: seq<Element>, path: seq<nat>, level: nat)
    requires OpenHeadings(l, es, path) && level >= 1 && Kept(path, level) != []
    ensures var kept := Kept(path, level); kept[|kept| - 1] < |es|
  {
    assert HoldsDepth(l, es, path, |Kept(path, level)| - 1);
  }

  lemma NewHolds(l: Linguistics, es: seq<Element>, e: Element, path: seq<nat>)
    requires OpenHeadings(l, es, path) && IsHeading(l, e)
    ensures var kept := Kept(path, Level(e)); HoldsDepth(l, es + [e], kept + [|es|], |kept|)
  {
    var kept := Kept(path, Level(e));
    if Level(e) != |kept| + 1 {
      NoHeadingsExtend(l, es, e, if kept == [] then 0 else kept[|kept| - 1] + 1, |es|);
    }
    if kept != [] {
      LastKept(l, es, path, Level(e));
    }
    HoldsLast(l, es, e, kept);
  }

  lemma HoldsLast(l: Linguistics, es: seq<Element>, e: Element, kept: seq<nat>)
    requires IsHeading(l, e) && Level(e) > |kept| && (kept != [] ==> kept[|kept| - 1] < |es|)
    requires Level(e) > |kept| + 1 ==>
               NoHeadings(l, es + [e], if kept == [] then 0 else kept[|kept| - 1] + 1, |es|)
    ensures HoldsDepth(l, es + [e], kept + [|es|], |kept|)
  {
    assert (kept + [|es|])[|kept|] == |es| && (es + [e])[|es|] == e;
  }

  /** A heading closes the headings at its level and below, and opens the next depth. */
  lemma PathTakes(l: Linguistics, es: seq<Element>, e: Element, path: seq<nat>)
    requires OpenHeadings(l, es, path) && IsHeading(l, e)
    ensures OpenHeadings(l, es + [e], Kept(path, Level(e)) + [|es|])
  {
    var kept := Kept(path, Level(e));
    var next := kept + [|es|];
    forall d: nat | d < |next| ensures HoldsDepth(l, es + [e], next, d) {
      if d < |kept| {
        StillHolds(l, es, e, path, d);
      } else {
        NewHolds(l, es, e, path);
      }
    }
  }

  lemma TextsExtend(l: Linguistics, es: seq<Element>, e: Element, path: seq<nat>)
    requires forall d :: 0 <= d < |path| ==> path[d] < |es|
    ensures HeadingTexts(l, es + [e], path) == HeadingTexts(l, es, path)
  {
  }

  lemma TextsTake(l: Linguistics, es: seq<Element>, path: seq<nat>, n: nat)
    requires n <= |path| && forall d :: 0 <= d < |path| ==> path[d] < |es|
    ensures HeadingTexts(l, es, path[..n]) == HeadingTexts(l, es, path)[..n]
  {
  }

  /** The hierarchy of a unit is the path of open headings. */
  lemma {:induction false} HierarchyIsPath(l: Linguistics, es: seq<Element>) returns (path: seq<nat>)
    ensures OpenHeadings(l, es, path) && forall d :: 0 <= d < |path| ==> path[d] < |es|
    ensures ReadingAfter(l, START, es).hierarchy == HeadingTexts(l, es, path)
  {
    if es == [] {
      path := [];
    } else {
      var n := |es| - 1;
      var init, e := es[..n], es[n];
      assert es == init + [e];
      var before := HierarchyIsPath(l, init);
      PathBounds(l, init, before);
      if IsHeading(l, e) {
        PathTakes(l, init, e, before);
        HeadingExtends(l, init, e, before);
        path := Kept(before, Level(e)) + [n];
      } else {
        PathSkips(l, init, e, before);
        TextsExtend(l, init, e, before);
        path := before;
      }
    }
  }

  lemma PathBounds(l: Linguistics, es: seq<Element>, path: seq<nat>)
    requires OpenHeadings(l, es, path)
    ensures forall d :: 0 <= d < |path| ==> path[d] < |es|
  {
    forall d | 0 <= d < |path| ensures path[d] < |es| {
      assert HoldsDepth(l, es, path, d);
    }
  }

  lemma HeadingExtends(l: Linguistics, es: seq<Element>, e: Element, path: seq<nat>)
    requires IsHeading(l, e) && forall d :: 0 <= d < |path| ==> path[d] < |es|
    ensures HierarchyAfter(l, HeadingTexts(l, es, path), e)
         == HeadingTexts(l, es + [e], Kept(path, Level(e)) + [|es|])
  {
    var kept := Kept(path, Level(e));
    if Level(e) - 1 <= |path| {
      TextsTake(l, es, path, Level(e) - 1);
    }
    TextsExtend(l, es, e, kept);
    assert HeadingTexts(l, es + [e], kept + [|es|]) == HeadingTexts(l, es + [e], kept) + [Strip(e.text, l.space)];
  }

  // ---------------------------------------------------------------- list introductions

  /** A paragraph that ends with a colon and says `t`. */
  predicate Introduces(l: Linguistics, e: Element, t: string) {
    !e.suppressed && e.kind == Paragraph && t != [] && t == Strip(e.text, l.space) && t[|t| - 1] == ':'
  }

  /** An element that leaves a list introduction standing: a list item, or nothing to read. */
  predicate Passes(l: Linguistics, e: Element) {
    e.suppressed || (e.kind != Table && (IsListType(e.kind) || Strip(e.text, l.space) == []))
  }

  ghost predicate IntroducedAt(l: Linguistics, es: seq<Element>, t: string, i: nat) {
    i < |es| && Introduces(l, es[i], t) && forall j :: i < j < |es| ==> Passes(l, es[j])
  }

  ghost predicate Introduced(l: Linguistics, es: seq<Element>, t: string) {
    exists i: nat :: IntroducedAt(l, es, t, i)
  }

  lemma IntroSnoc(l: Linguistics, es: seq<Element>, e: Element, t: string)
    ensures Introduced(l, es + [e], t) <==> Introduces(l, e, t) || (Passes(l, e) && Introduced(l, es, t))
  {
    var all, n := es + [e], |es|;
    if Introduced(l, all, t) {
      var i: nat :| IntroducedAt(l, all, t, i);
      if i < n {
        assert all[n] == e && forall j :: i < j < n ==> all[j] == es[j];
        assert IntroducedAt(l, es, t, i);
      }
    }
    if Introduces(l, e, t) {
      assert IntroducedAt(l, all, t, n);
    } else if Passes(l, e) && Introduced(l, es, t) {
      var i: nat :| IntroducedAt(l, es, t, i);
      assert IntroducedAt(l, all, t, i);
    }
  }

  lemma AdvanceIntro(l: Linguistics, at: Reading, e: Element, t: string)
    ensures Advance(l, at, e).listIntro == Some(t) <==>
              Introduces(l, e, t) || (Passes(l, e) && at.listIntro == Some(t))
  {
  }

  lemma ReadingSnoc(l: Linguistics, es: seq<Element>, e: Element)
    ensures ReadingAfter(l, START, es + [e]) == Advance(l, ReadingAfter(l, START, es), e)
  {
    assert (es + [e])[..|es|] == es;
  }

  /** A list introduction stands exactly while only list items follow the paragraph that ends
      with a colon. */
  lemma {:induction false} ListIntroMeans(l: Linguistics, es: seq<Element>, t: string)
    ensures ReadingAfter(l, START, es).listIntro == Some(t) <==> Introduced(l, es, t)
  {
    if es != [] {
      var n := |es| - 1;
      var init, e := es[..n], es[n];
      assert es == init + [e];
      ListIntroMeans(l, init, t);
      IntroSnoc(l, init, e, t);
      ReadingSnoc(l, init, e);
      AdvanceIntro(l, ReadingAfter(l, START, init), e, t);
    }
  }

  // ---------------------------------------------------------------- what units carry

  /** A unit names its unsuppressed element and stands under its heading path. When the profile wants it, a
      text unit repeats the list introduction and a continued table its header. */
  predicate Carries(p: Profile, at: Reading, e: Element, u: Unit) {
    && !e.suppressed && u.id == e.id && u.kind == e.kind && u.role == e.role && u.language == e.language
    && u.hierarchy == at.hierarchy
    && (u.rows.None? ==>
          u.context == if p.repeatListIntro && IsListType(e.kind) && at.listIntro.Some? then at.listIntro.value else "")
    && (u.rows.Some? ==>
          && e.rows != [] && u.sentences == 0
          && u.context == if p.repeatTableHeader && u.continuation > 0 then "TABLE HEADER\n" + RowText(e.rows[0])
                          else "")
  }

  lemma ElementCarries(l: Linguistics, p: Profile, at: Reading, e: Element, u: Unit)
    requires u in ElementUnits(l, p, at, e)
    ensures Carries(p, at, e, u)
  {
  }

  lemma EarlierOrigin(l: Linguistics, p: Profile, es: seq<Element>, n: nat, i: nat, u: Unit)
    requires i < n <= |es| && Carries(p, ReadingAfter(l, START, es[..n][..i + 1]), es[..n][i], u)
    ensures Carries(p, ReadingAfter(l, START, es[..i + 1]), es[i], u)
  {
    assert es[..n][..i + 1] == es[..i + 1];
  }

  /** Every unit of a document comes from one element, under the headings open there and the
      list introduction standing there. */
  lemma {:induction false} UnitOrigin(l: Linguistics, p: Profile, es: seq<Element>, u: Unit) returns (i: nat)
    requires u in DocumentUnits(l, p, START, es)
    ensures i < |es| && Carries(p, ReadingAfter(l, START, es[..i + 1]), es[i], u)
    decreases |es|
  {
    var n := |es| - 1;
    assert es == es[..n] + [es[n]];
    DocumentUnitsSnoc(l, p, START, es[..n], es[n]);
    if u in DocumentUnits(l, p, START, es[..n]) {
      i := UnitOrigin(l, p, es[..n], u);
      EarlierOrigin(l, p, es, n, i, u);
    } else {
      i := n;
      LastCarries(l, p, es, u);
    }
  }

  lemma LastCarries(l: Linguistics, p: Profile, es: seq<Element>, u: Unit)
    requires es != []
    requires var n := |es| - 1; u in ElementUnits(l, p, Advance(l, ReadingAfter(l, START, es[..n]), es[n]), es[n])
    ensures var n := |es| - 1; Carries(p, ReadingAfter(l, START, es[..n + 1]), es[n], u)
  {
    var n := |es| - 1;
    assert es[..n + 1] == es;
    ElementCarries(l, p, ReadingAfter(l, START, es), es[n], u);
  }
}
