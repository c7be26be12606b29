/** Reading a normalized document: element order, heading hierarchy, list introductions, and
    the sequence of units that comes out. */
module Document {
  import opened Base
  import opened Text
  import opened Chunks
  import opened Units

  // ---------------------------------------------------------------- order

  function InsertElement(e: Element, es: seq<Element>): (r: seq<Element>)
    ensures multiset(r) == multiset(es) + multiset{e}
  {
    if es == [] || e.orderIndex <= es[0].orderIndex then [e] + es
    else
      assert es == [es[0]] + es[1..];
      [es[0]] + InsertElement(e, es[1..])
  }

  function SortElements(es: seq<Element>): (r: seq<Element>)
    ensures multiset(r) == multiset(es)
  {
    if es == [] then []
    else
      assert es == [es[0]] + es[1..];
      InsertElement(es[0], SortElements(es[1..]))
  }

  /** Sorting neither loses nor invents elements. */
  lemma SortMembers(es: seq<Element>, e: Element)
    ensures e in SortElements(es) <==> e in es
  {
    assert e in SortElements(es) <==> e in multiset(SortElements(es));
    assert e in es <==> e in multiset(es);
  }

  predicate InOrder(es: seq<Element>) {
    forall i, j :: 0 <= i < j < |es| ==> es[i].orderIndex <= es[j].orderIndex
  }

  /** The elements with one order index, as they come. */
  function AtIndex(es: seq<Element>, key: int): seq<Element> {
    if es == [] then [] else (if es[0].orderIndex == key then [es[0]] else []) + AtIndex(es[1..], key)
  }

  lemma {:induction false} InsertInOrder(e: Element, es: seq<Element>)
    requires InOrder(es)
    ensures InOrder(InsertElement(e, es))
  {
    if es != [] && e.orderIndex > es[0].orderIndex {
      InsertInOrder(e, es[1..]);
      var tail := InsertElement(e, es[1..]);
      forall j | 0 <= j < |tail| ensures es[0].orderIndex <= tail[j].orderIndex {
        assert tail[j] in multiset(tail);
        assert tail[j] == e || tail[j] in es[1..];
      }
    }
  }

  lemma {:induction false} InsertAtIndex(e: Element, es: seq<Element>, key: int)
    ensures AtIndex(InsertElement(e, es), key) == (if e.orderIndex == key then [e] else []) + AtIndex(es, key)
  {
    if es == [] || e.orderIndex <= es[0].orderIndex {
      assert ([e] + es)[1..] == es;
    } else {
      InsertAtIndex(e, es[1..], key);
      assert ([es[0]] + InsertElement(e, es[1..]))[1..] == InsertElement(e, es[1..]);
    }
  }

  /** A stable sort by order_index. */
  lemma {:induction false} SortStable(es: seq<Element>, key: int)
    ensures InOrder(SortElements(es)) && AtIndex(SortElements(es), key) == AtIndex(es, key)
  {
    if es != [] {
      SortStable(es[1..], key);
      InsertInOrder(es[0], SortElements(es[1..]));
      InsertAtIndex(es[0], SortElements(es[1..]), key);
    }
  }

  ghost predicate DistinctIds(es: seq<Element>) {
    forall i, j :: 0 <= i < j < |es| ==> es[i].id != es[j].id
  }

  // ---------------------------------------------------------------- headings and list introductions

  datatype Reading = Reading(hierarchy: seq<string>, listIntro: Option<string>)

  predicate IsListType(kind: ElementType) {
    kind == List || kind == ListItem
  }

  function Level(e: Element): (r: nat)
    ensures r >= 1
  {
    if e.level.Some? && e.level.value > 1 then e.level.value else 1
  }

  function HierarchyAfter(l: Linguistics, hierarchy: seq<string>, e: Element): seq<string> {
    var text := Strip(e.text, l.space);
    if e.kind == Heading && text != [] then
      (if Level(e) - 1 <= |hierarchy| then hierarchy[..Level(e) - 1] else hierarchy) + [text]
    else hierarchy
  }

  /** Suppressed elements leave no trace. */
  function Advance(l: Linguistics, at: Reading, e: Element): Reading {
    if e.suppressed then at else AdvanceVisible(l, at, e)
  }

  function AdvanceVisible(l: Linguistics, at: Reading, e: Element): Reading {
    var text := Strip(e.text, l.space);
    var intro :=
      if e.kind == Table then None
      else if text == [] then at.listIntro
      else if e.kind == Paragraph && text[|text| - 1] == ':' then Some(text)
      else if !IsListType(e.kind) then None
      else at.listIntro;
    Reading(HierarchyAfter(l, at.hierarchy, e), intro)
  }

  function ListContext(p: Profile, at: Reading, e: Element): string {
    if p.repeatListIntro && IsListType(e.kind) && at.listIntro.Some? then at.listIntro.value else ""
  }

  // ---------------------------------------------------------------- units of an element

  function ContextFor(p: Profile, at: Reading, e: Element): string {
    if e.kind == Table then "" else ListContext(p, at, e)
  }

  function ElementUnits(l: Linguistics, p: Profile, at: Reading, e: Element): seq<Unit> {
    if e.suppressed then []
    else if e.kind == Table && e.rows != [] then
      TableUnitsOf(l, p, e, at.hierarchy, RowChunks(l, p, e.language, [], RowTexts(e.rows), 0))
    else
      var text := Strip(e.text, l.space);
      if text == [] then []
      else TextUnitsOf(l, e, at.hierarchy, ContextFor(p, at, e),
                       Gather(l, p, e.language, [], SentencesOf(l, e.language, text)))
  }

  /** Some piece of the element cannot be cut to the character guard. */
  predicate ElementFails(l: Linguistics, p: Profile, e: Element) {
    if e.suppressed then false
    else if e.kind == Table && e.rows != [] then RowsFail(l, p, e.language, RowTexts(e.rows))
    else
      var text := Strip(e.text, l.space);
      text != [] && TextFails(l, p, e.language, SentencesOf(l, e.language, text))
  }

  /** The text an element contributes. */
  function ElementText(e: Element): string {
    if e.suppressed then "" else if e.kind == Table && e.rows != [] then Join("\n", RowTexts(e.rows)) else e.text
  }

  function ElementTexts(es: seq<Element>): (r: seq<string>)
    ensures |r| == |es|
  {
    seq(|es|, k requires 0 <= k < |es| => ElementText(es[k]))
  }

  lemma ElementUnitsGood(l: Linguistics, p: Profile, at: Reading, e: Element)
    requires Lawful(l) && ValidProfile(p) && !ElementFails(l, p, e)
    ensures var units := ElementUnits(l, p, at, e);
            && Contents(UnitTexts(units), l.space) == Content(ElementText(e), l.space)
            && UnitsOk(l, p, units) && OwnUnits(units, e.id)
  {
    if e.suppressed {
    } else if e.kind == Table && e.rows != [] {
      TableUnitsGood(l, p, e, at.hierarchy);
      JoinContent("\n", RowTexts(e.rows), l.space);
    } else {
      var text := Strip(e.text, l.space);
      StripContent(e.text, l.space);
      if text != [] {
        TextUnitsGood(l, p, e, text, at.hierarchy, ContextFor(p, at, e));
      }
    }
  }

  method UnitsOfElement(l: Linguistics, p: Profile, at: Reading, e: Element) returns (r: Option<seq<Unit>>)
    requires l.space('\n')
    ensures r == if ElementFails(l, p, e) then None else Some(ElementUnits(l, p, at, e))
  {
    if e.suppressed {
      return Some([]);
    }
    if e.kind == Table && e.rows != [] {
      r := TableUnits(l, p, e, at.hierarchy);
      return;
    }
    var text := Strip(e.text, l.space);
    if text == [] {
      return Some([]);
    }
    r := TextUnits(l, p, e, text, at.hierarchy, ContextFor(p, at, e));
  }

  // ---------------------------------------------------------------- units of a document

  function DocumentUnits(l: Linguistics, p: Profile, at: Reading, es: seq<Element>): seq<Unit>
    decreases |es|
  {
    if es == [] then [] else
      var next := Advance(l, at, es[0]);
      ElementUnits(l, p, next, es[0]) + DocumentUnits(l, p, next, es[1..])
  }

  const START := Reading([], None)

  function ReadingAfter(l: Linguistics, at: Reading, es: seq<Element>): Reading {
    if es == [] then at else Advance(l, ReadingAfter(l, at, es[..|es| - 1]), es[|es| - 1])
  }

  lemma {:induction false} ReadingHead(l: Linguistics, at: Reading, es: seq<Element>)
    requires es != []
    ensures ReadingAfter(l, at, es) == ReadingAfter(l, Advance(l, at, es[0]), es[1..])
    decreases |es|
  {
    var n := |es| - 1;
    if n == 0 {
      assert es[..0] == [] && es[1..] == [];
    } else {
      ReadingHead(l, at, es[..n]);
      assert es[..n][1..] == es[1..][..n - 1] && es[1..][n - 1] == es[n];
    }
  }

  lemma {:induction false} DocumentUnitsSnoc(l: Linguistics, p: Profile, at: Reading, es: seq<Element>, e: Element)
    ensures DocumentUnits(l, p, at, es + [e])
         == DocumentUnits(l, p, at, es) + ElementUnits(l, p, Advance(l, ReadingAfter(l, at, es), e), e)
    decreases |es|
  {
    if es == [] {
      assert (es + [e])[1..] == [];
      var next := Advance(l, at, e);
      assert DocumentUnits(l, p, next, []) == [];
      assert ElementUnits(l, p, next, e) + [] == ElementUnits(l, p, next, e);
    } else {
      var next := Advance(l, at, es[0]);
      assert (es + [e])[1..] == es[1..] + [e];
      DocumentUnitsSnoc(l, p, next, es[1..], e);
      ReadingHead(l, at, es);
      Assoc(ElementUnits(l, p, next, es[0]), DocumentUnits(l, p, next, es[1..]),
            ElementUnits(l, p, Advance(l, ReadingAfter(l, next, es[1..]), e), e));
    }
  }

  /** The reader before element `done`. */
  ghost predicate Read(l: Linguistics, p: Profile, es: seq<Element>, done: nat, at: Reading, units: seq<Unit>) {
    && done <= |es|
    && at == ReadingAfter(l, START, es[..done])
    && units == DocumentUnits(l, p, START, es[..done])
    && forall k :: 0 <= k < done ==> !ElementFails(l, p, es[k])
  }

  lemma ReadNext(l: Linguistics, p: Profile, es: seq<Element>, done: nat, at: Reading, units: seq<Unit>)
    requires Read(l, p, es, done, at, units) && done < |es| && !ElementFails(l, p, es[done])
    ensures var next := Advance(l, at, es[done]);
            Read(l, p, es, done + 1, next, units + ElementUnits(l, p, next, es[done]))
  {
    PrefixUnits(l, p, es, done);
    forall k | 0 <= k < done + 1 ensures !ElementFails(l, p, es[k]) {
    }
  }

  lemma PrefixUnits(l: Linguistics, p: Profile, es: seq<Element>, n: nat)
    requires n < |es|
    ensures var before, after := ReadingAfter(l, START, es[..n]), ReadingAfter(l, START, es[..n + 1]);
            && after == Advance(l, before, es[n])
            && DocumentUnits(l, p, START, es[..n + 1])
               == DocumentUnits(l, p, START, es[..n]) + ElementUnits(l, p, after, es[n])
  {
    assert es[..n + 1] == es[..n] + [es[n]];
    ReadingSnoc(l, START, es[..n], es[n]);
    DocumentUnitsSnoc(l, p, START, es[..n], es[n]);
  }

  lemma ReadingSnoc(l: Linguistics, at: Reading, es: seq<Element>, e: Element)
    ensures ReadingAfter(l, at, es + [e]) == Advance(l, ReadingAfter(l, at, es), e)
  {
    assert (es + [e])[..|es|] == es;
  }

  /** The splitter reads units element by element, in reading order; `failed` says that
      element number `done` stopped it. */
  method IterUnits(l: Linguistics, p: Profile, elements: seq<Element>)
    returns (units: seq<Unit>, done: nat, failed: bool)
    requires l.space('\n')
    ensures var sorted := SortElements(elements);
            && done <= |sorted| && units == DocumentUnits(l, p, START, sorted[..done])
            && (forall k :: 0 <= k < done ==> !ElementFails(l, p, sorted[k]))
            && (failed ==> done < |sorted| && ElementFails(l, p, sorted[done]))
            && (!failed ==> done == |sorted|)
  {
    var sorted := SortElements(elements);
    var at := START;
    units, done, failed := [], 0, false;
    while done < |sorted|
      invariant Read(l, p, sorted, done, at, units)
    {
      var e := sorted[done];
      var next := Advance(l, at, e);
      var more := UnitsOfElement(l, p, next, e);
      if more.None? {
        failed := true;
        return;
      }
      ReadNext(l, p, sorted, done, at, units);
      at, units, done := next, units + more.value, done + 1;
    }
  }

  // ---------------------------------------------------------------- conservation, guards, numbering

  ghost predicate AllCut(l: Linguistics, p: Profile, es: seq<Element>) {
    forall e :: e in es ==> !ElementFails(l, p, e)
  }

  lemma AllCutTail(l: Linguistics, p: Profile, es: seq<Element>)
    requires AllCut(l, p, es) && es != []
    ensures !ElementFails(l, p, es[0]) && AllCut(l, p, es[1..])
  {
    assert es[0] in es && forall x :: x in es[1..] ==> x in es;
  }

  lemma ElementTextsHead(e: Element, tail: seq<Element>)
    ensures ElementTexts([e] + tail) == [ElementText(e)] + ElementTexts(tail)
  {
  }

  lemma ContentStep(e: Element, tail: seq<Element>, a: seq<Unit>, b: seq<Unit>, space: Space)
    requires Contents(UnitTexts(a), space) == Content(ElementText(e), space)
    requires Contents(UnitTexts(b), space) == Contents(ElementTexts(tail), space)
    ensures Contents(UnitTexts(a + b), space) == Contents(ElementTexts([e] + tail), space)
  {
    UnitTextsConcat(a, b);
    ContentsConcat(UnitTexts(a), UnitTexts(b), space);
    ElementTextsHead(e, tail);
    HeadContents(ElementText(e), ElementTexts(tail), space);
  }

  /** Units keep the text of the elements, and each unit is within the guards up to words. */
  lemma {:induction false} DocumentContent(l: Linguistics, p: Profile, at: Reading, es: seq<Element>)
    requires Lawful(l) && ValidProfile(p) && AllCut(l, p, es)
    ensures Contents(UnitTexts(DocumentUnits(l, p, at, es)), l.space) == Contents(ElementTexts(es), l.space)
    ensures UnitsOk(l, p, DocumentUnits(l, p, at, es))
    decreases |es|
  {
    if es != [] {
      var e, tail, next := es[0], es[1..], Advance(l, at, es[0]);
      AllCutTail(l, p, es);
      ElementUnitsGood(l, p, next, e);
      DocumentContent(l, p, next, tail);
      ContentStep(e, tail, ElementUnits(l, p, next, e), DocumentUnits(l, p, next, tail), l.space);
      assert es == [e] + tail;
    }
  }

  /** Units `i` and `j` of one element: everything between is of that element, and `j`
      continues later than `i`. */
  ghost predicate InSequence(units: seq<Unit>, i: nat, j: nat)
    requires i < j < |units|
  {
    units[i].id == units[j].id ==>
      units[i].continuation < units[j].continuation && forall k :: i <= k <= j ==> units[k].id == units[i].id
  }

  /** Each element's units are contiguous and numbered upwards. */
  ghost predicate Numbered(units: seq<Unit>) {
    forall i: nat, j: nat :: i < j < |units| ==> InSequence(units, i, j)
  }

  ghost predicate Apart(a: seq<Unit>, b: seq<Unit>) {
    forall u, v :: u in a && v in b ==> u.id != v.id
  }

  lemma NumberedConcat(a: seq<Unit>, b: seq<Unit>)
    requires Numbered(a) && Numbered(b) && Apart(a, b)
    ensures Numbered(a + b)
  {
    var c := a + b;
    forall i: nat, j: nat | i < j < |c| ensures InSequence(c, i, j) {
      if j < |a| {
        assert InSequence(a, i, j);
      } else if i >= |a| {
        assert InSequence(b, i - |a|, j - |a|);
        forall k | i <= k <= j && c[i].id == c[j].id ensures c[k].id == c[i].id {
          assert c[k] == b[k - |a|];
        }
      } else {
        assert c[i] in a && c[j] in b;
      }
    }
  }

  ghost predicate FromElements(units: seq<Unit>, es: seq<Element>) {
    forall u :: u in units ==> exists e :: e in es && e.id == u.id
  }

  /** The units with some text; the splitter skips the others. */
  function Kept(units: seq<Unit>): seq<Unit> {
    if units == [] then [] else
      var n := |units| - 1;
      Kept(units[..n]) + if units[n].text == [] then [] else [units[n]]
  }

  lemma KeptSnoc(units: seq<Unit>, u: Unit)
    ensures Kept(units + [u]) == Kept(units) + if u.text == [] then [] else [u]
  {
    assert (units + [u])[..|units|] == units;
  }

  lemma {:induction false} KeptConcat(a: seq<Unit>, b: seq<Unit>)
    ensures Kept(a + b) == Kept(a) + Kept(b)
  {
    if b == [] {
      assert a + b == a;
    } else {
      var n := |b| - 1;
      var init, u := b[..n], b[n];
      assert b == init + [u];
      KeptConcat(a, init);
      Assoc(a, init, [u]);
      KeptSnoc(a + init, u);
      KeptSnoc(init, u);
      Assoc(Kept(a), Kept(init), if u.text == [] then [] else [u]);
    }
  }

  lemma {:induction false} KeptMembers(units: seq<Unit>)
    ensures forall u :: u in Kept(units) <==> u in units && u.text != []
  {
    if units != [] {
      var n := |units| - 1;
      KeptMembers(units[..n]);
      assert units == units[..n] + [units[n]];
    }
  }

  lemma UnitTextsSnoc(units: seq<Unit>, u: Unit)
    ensures UnitTexts(units + [u]) == UnitTexts(units) + [u.text]
  {
  }

  /** Skipping empty units loses no text. */
  lemma {:induction false} KeptContent(units: seq<Unit>, space: Space)
    ensures Contents(UnitTexts(Kept(units)), space) == Contents(UnitTexts(units), space)
  {
    if units != [] {
      var n := |units| - 1;
      var init, u := units[..n], units[n];
      assert units == init + [u];
      KeptContent(init, space);
      KeptSnoc(init, u);
      UnitTextsSnoc(init, u);
      UnitTextsSnoc(Kept(init), u);
      ContentsSnoc(UnitTexts(init), u.text, space);
      ContentsSnoc(UnitTexts(Kept(init)), u.text, space);
      assert u.text == [] ==> Kept(units) == Kept(init);
    }
  }

  /** Units of one element, numbered upwards below `bound`. */
  ghost predicate Rising(units: seq<Unit>, id: string, bound: nat) {
    && (forall k :: 0 <= k < |units| ==> units[k].id == id && units[k].continuation < bound)
    && (forall i, j :: 0 <= i < j < |units| ==> units[i].continuation < units[j].continuation)
  }

  lemma {:induction false} KeptOwn(units: seq<Unit>, id: string)
    requires OwnUnits(units, id)
    ensures Rising(Kept(units), id, |units|)
  {
    if units != [] {
      var n := |units| - 1;
      KeptOwn(units[..n], id);
    }
  }

  lemma RisingNumbered(units: seq<Unit>, id: string, bound: nat)
    requires Rising(units, id, bound)
    ensures Numbered(units)
  {
  }

  lemma {:induction false} DocumentNumbered(l: Linguistics, p: Profile, at: Reading, es: seq<Element>)
    requires Lawful(l) && ValidProfile(p) && AllCut(l, p, es) && DistinctIds(es)
    ensures Numbered(Kept(DocumentUnits(l, p, at, es))) && FromElements(Kept(DocumentUnits(l, p, at, es)), es)
    decreases |es|
  {
    if es != [] {
      var e, tail, next := es[0], es[1..], Advance(l, at, es[0]);
      AllCutTail(l, p, es);
      ElementUnitsGood(l, p, next, e);
      DocumentNumbered(l, p, next, tail);
      NumberedStep(ElementUnits(l, p, next, e), DocumentUnits(l, p, next, tail), es);
    }
  }

  lemma NumberedStep(a: seq<Unit>, b: seq<Unit>, es: seq<Element>)
    requires es != [] && DistinctIds(es) && OwnUnits(a, es[0].id) && Numbered(Kept(b)) && FromElements(Kept(b), es[1..])
    ensures Numbered(Kept(a + b)) && FromElements(Kept(a + b), es)
  {
    KeptConcat(a, b);
    KeptOwn(a, es[0].id);
    RisingNumbered(Kept(a), es[0].id, |a|);
    FirstApart(Kept(a), Kept(b), es);
    NumberedConcat(Kept(a), Kept(b));
  }

  lemma FirstApart(a: seq<Unit>, b: seq<Unit>, es: seq<Element>)
    requires es != [] && (forall u :: u in a ==> u.id == es[0].id) && FromElements(b, es[1..]) && DistinctIds(es)
    ensures Apart(a, b) && FromElements(b, es) && FromElements(a, es)
  {
    assert es[0] in es;
    forall v | v in b ensures v.id != es[0].id && exists e :: e in es && e.id == v.id {
      var e :| e in es[1..] && e.id == v.id;
      var k :| 0 <= k < |es[1..]| && es[1..][k] == e;
      assert es[k + 1] == e;
    }
  }

  ghost predicate FreshId(id: string, es: seq<Element>) {
    forall e :: e in es ==> e.id != id
  }

  lemma {:induction false} InsertDistinct(e: Element, es: seq<Element>)
    requires DistinctIds(es) && FreshId(e.id, es)
    ensures DistinctIds(InsertElement(e, es))
  {
    if es != [] && e.orderIndex > es[0].orderIndex {
      assert es == [es[0]] + es[1..];
      InsertDistinct(e, es[1..]);
      var tail := InsertElement(e, es[1..]);
      forall j | 0 <= j < |tail| ensures es[0].id != tail[j].id {
        assert tail[j] in multiset(tail);
        assert tail[j] == e || tail[j] in es[1..];
      }
    }
  }

  /** Sorting keeps ids unique. */
  lemma {:induction false} SortDistinct(es: seq<Element>)
    requires DistinctIds(es)
    ensures DistinctIds(SortElements(es))
  {
    if es != [] {
      SortDistinct(es[1..]);
      var sorted := SortElements(es[1..]);
      forall x | x in sorted ensures x.id != es[0].id {
        assert x in multiset(sorted) && x in es[1..];
      }
      InsertDistinct(es[0], sorted);
    }
  }
}
