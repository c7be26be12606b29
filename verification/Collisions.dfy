/** When fragment ids collide: for element ids in a given reading order, some document has two
    fragments with one id exactly when two picks of the ids that precede one another have the
    same comma-join. The documents built here consist of lines of the letter a. */
module Collisions {
  import opened Base
  import opened Text
  import opened Chunks
  import opened Units
  import opened Document
  import opened Grouping
  import opened Fragments
  import opened Identity
  import opened Runs
  import S = Sentence

  /** A lawful runtime in which the letter a and the newline end no sentence, a is no
      whitespace, and no text counts more words than it has characters. */
  ghost predicate Modest(l: Linguistics) {
    && Lawful(l) && !l.space('a')
    && !l.rules(None).terminal('a') && !l.rules(None).terminal('\n')
    && forall lang, t :: l.words(lang, t).count <= |t|
  }

  // ---------------------------------------------------------------- lines

  /** `n` lines, each the letter a. */
  function Lines(n: nat): (r: string)
    ensures n > 0 ==> |r| == 2 * n - 1
  {
    if n == 0 then [] else if n == 1 then "a" else Lines(n - 1) + "\na"
  }

  lemma {:induction false} LinesJoin(a: nat, b: nat)
    requires a > 0 && b > 0
    ensures Lines(a) + "\n" + Lines(b) == Lines(a + b)
    decreases b
  {
    if b == 1 {
      assert "\n" + "a" == "\na";
      Assoc(Lines(a), "\n", "a");
    } else {
      LinesJoin(a, b - 1);
      Assoc(Lines(a) + "\n", Lines(b - 1), "\na");
    }
  }

  predicate DrawnAt(text: string, k: nat)
    requires k < |text|
  {
    && (text[k] == 'a' || text[k] == '\n')
    && (text[k] == '\n' && k + 1 < |text| ==> text[k + 1] == 'a')
  }

  /** Made of a and single newlines. */
  ghost predicate Drawn(text: string) {
    forall k: nat :: k < |text| ==> DrawnAt(text, k)
  }

  lemma {:induction false} LinesDrawn(n: nat)
    requires n > 0
    ensures var text := Lines(n); Drawn(text) && text[0] == 'a' && text[|text| - 1] == 'a'
  {
    if n > 1 {
      var init, text := Lines(n - 1), Lines(n);
      LinesDrawn(n - 1);
      forall k: nat | k < |text| ensures DrawnAt(text, k) {
        if k < |init| {
          assert DrawnAt(init, k);
        }
      }
    }
  }

  lemma LinesTrimmed(l: Linguistics, n: nat)
    requires Modest(l) && n > 0
    ensures Trimmed(Lines(n), l.space) && Strip(Lines(n), l.space) == Lines(n)
  {
    LinesDrawn(n);
    StripTrimmed(Lines(n), l.space);
  }

  /** No sentence can end at position `k`. */
  predicate Quiet(text: string, k: nat, rules: S.Rules)
    requires k < |text|
  {
    !S.ParagraphAt(text, k) && !S.Opens(text, k, rules)
  }

  lemma {:induction false} QuietScan(text: string, start: nat, i: nat, j: nat, rules: S.Rules, space: Space)
    requires start <= i <= j <= |text| && forall k: nat :: i <= k < j ==> Quiet(text, k, rules)
    ensures S.Scan(text, start, i, rules, space) == S.Scan(text, start, j, rules, space)
    decreases j - i
  {
    if i < j {
      assert Quiet(text, i, rules);
      QuietScan(text, start, i + 1, j, rules, space);
    }
  }

  predicate Plainly(c: char) {
    c == 'a' || c == '\n'
  }

  lemma OpensNothing(l: Linguistics, text: string, k: nat)
    requires Modest(l) && k < |text| && Plainly(text[k])
    ensures !S.Opens(text, k, l.rules(None))
  {
    assert k + 3 <= |text| ==> text[k..k + 3][0] == text[k];
  }

  lemma NoParagraph(text: string, k: nat)
    requires k < |text| && (text[k] == '\n' && k + 1 < |text| ==> text[k + 1] != '\n')
    ensures !S.ParagraphAt(text, k)
  {
    assert k + 2 <= |text| ==> text[k..k + 2][0] == text[k] && text[k..k + 2][1] == text[k + 1];
  }

  lemma LinesScan(l: Linguistics, n: nat)
    requires Modest(l) && n > 0
    ensures SentencesOf(l, None, Lines(n)) == [Lines(n)]
  {
    var text, rules := Lines(n), l.rules(None);
    LinesDrawn(n);
    forall k: nat | 0 <= k < |text| ensures Quiet(text, k, rules) {
      assert DrawnAt(text, k);
      OpensNothing(l, text, k);
      NoParagraph(text, k);
    }
    QuietScan(text, 0, 0, |text|, rules, l.space);
    LastSentence(l, text, 0, text);
  }

  /** Scanning to the end emits what is left. */
  lemma LastSentence(l: Linguistics, text: string, start: nat, rest: string)
    requires start <= |text| && text[start..] == rest && Trimmed(rest, l.space)
    ensures S.Scan(text, start, |text|, l.rules(None), l.space) == [rest]
  {
    StripTrimmed(rest, l.space);
    assert [] + [rest] == [rest];
  }

  /** Two drawings with a blank line between them. */
  function Pair(a: nat, b: nat): string {
    Lines(a) + "\n\n" + Lines(b)
  }

  /** The first drawing, with the newline after it, is quiet. */
  lemma PairFirst(l: Linguistics, x: string, y: string, k: nat)
    requires Modest(l) && Drawn(x) && k < |x| && x[|x| - 1] == 'a'
    ensures Quiet(x + "\n\n" + y, k, l.rules(None))
  {
    var text := x + "\n\n" + y;
    assert DrawnAt(x, k) && text[k] == x[k];
    assert k + 1 < |x| ==> text[k + 1] == x[k + 1];
    OpensNothing(l, text, k);
    NoParagraph(text, k);
  }

  lemma PairSecond(l: Linguistics, x: string, y: string, k: nat)
    requires Modest(l) && Drawn(y) && |x| + 2 <= k < |x| + 2 + |y|
    ensures Quiet(x + "\n\n" + y, k, l.rules(None))
  {
    var text, j := x + "\n\n" + y, k - |x| - 2;
    assert DrawnAt(y, j) && text[k] == y[j];
    assert j + 1 < |y| ==> text[k + 1] == y[j + 1];
    OpensNothing(l, text, k);
    NoParagraph(text, k);
  }

  lemma PairBreak(x: string, y: string)
    requires y != [] && y[0] == 'a'
    ensures var text := x + "\n\n" + y;
            S.ParagraphAt(text, |x|) && S.AfterParagraph(text, |x|) == |x| + 2
  {
    var text, i := x + "\n\n" + y, |x|;
    assert text[i] == '\n' && text[i + 1] == '\n' && text[i + 2] == 'a';
    assert text[i..i + 2] == "\n\n";
    AfterTwo(text, i);
  }

  lemma AfterTwo(text: string, i: nat)
    requires i + 2 < |text| && text[i] == '\n' && text[i + 1] == '\n' && text[i + 2] == 'a'
    ensures S.After(text, i, S.NEWLINE) == i + 2
  {
    assert S.After(text, i + 2, S.NEWLINE) == i + 2;
    assert S.After(text, i + 1, S.NEWLINE) == S.After(text, i + 2, S.NEWLINE);
  }

  lemma ScanBreak(l: Linguistics, x: string, y: string)
    requires Modest(l) && Trimmed(x, l.space) && y != [] && y[0] == 'a'
    ensures var text, rules := x + "\n\n" + y, l.rules(None);
            S.Scan(text, 0, |x|, rules, l.space) == [x] + S.Scan(text, |x| + 2, |x| + 2, rules, l.space)
  {
    var text := x + "\n\n" + y;
    PairBreak(x, y);
    assert text[0..|x|] == x;
    StripTrimmed(x, l.space);
    assert [] + [x] == [x];
  }

  lemma ScanPair(l: Linguistics, x: string, y: string)
    requires Modest(l) && Drawn(x) && Drawn(y) && Trimmed(x, l.space) && Trimmed(y, l.space)
    ensures S.Scan(x + "\n\n" + y, 0, 0, l.rules(None), l.space) == [x] + [y]
  {
    var text, rules := x + "\n\n" + y, l.rules(None);
    assert DrawnAt(x, |x| - 1) && DrawnAt(y, 0) && x[|x| - 1] == 'a' && y[0] == 'a';
    forall k: nat | 0 <= k < |x| ensures Quiet(text, k, rules) {
      PairFirst(l, x, y, k);
    }
    QuietScan(text, 0, 0, |x|, rules, l.space);
    ScanBreak(l, x, y);
    forall k: nat | |x| + 2 <= k < |text| ensures Quiet(text, k, rules) {
      PairSecond(l, x, y, k);
    }
    QuietScan(text, |x| + 2, |x| + 2, |text|, rules, l.space);
    LastSentence(l, text, |x| + 2, y);
  }

  lemma PairScan(l: Linguistics, a: nat, b: nat)
    requires Modest(l) && a > 0 && b > 0
    ensures SentencesOf(l, None, Pair(a, b)) == [Lines(a), Lines(b)]
  {
    LinesDrawn(a);
    LinesDrawn(b);
    LinesTrimmed(l, a);
    LinesTrimmed(l, b);
    ScanPair(l, Lines(a), Lines(b));
    assert [Lines(a)] + [Lines(b)] == [Lines(a), Lines(b)];
  }

  // ---------------------------------------------------------------- one profile for all

  /** All hard and soft limits are the size of `t` lines. */
  function Square(t: nat): Profile
    requires t > 0
  {
    var h := 2 * t - 1;
    Profile(1, 1, h, h, 1, h, h, 1, h, true, true)
  }

  lemma OverIsLong(l: Linguistics, t: nat, text: string)
    requires Modest(l) && t > 0
    ensures Over(l, Square(t), None, text) <==> |text| > 2 * t - 1
  {
  }

  lemma GatherOne(l: Linguistics, t: nat, n: nat)
    requires Modest(l) && 0 < n <= t
    ensures Gather(l, Square(t), None, [], [Lines(n)]) == [Chunk(Lines(n), 1, false)]
  {
    var p, s := Square(t), Lines(n);
    OverIsLong(l, t, s);
    assert [s][1..] == [] && [] + [s] == [s];
    assert Gather(l, p, None, [s], []) == Closed(l, [s]);
    JoinOne(" ", s);
    LinesTrimmed(l, n);
  }

  lemma GatherTwo(l: Linguistics, t: nat, a: nat, b: nat)
    requires Modest(l) && 0 < a <= t && 0 < b <= t && a + b > t
    ensures Gather(l, Square(t), None, [], [Lines(a), Lines(b)])
            == [Chunk(Lines(a), 1, false), Chunk(Lines(b), 1, false)]
  {
    var p, x, y := Square(t), Lines(a), Lines(b);
    OverIsLong(l, t, x);
    OverIsLong(l, t, y);
    LinesTrimmed(l, a);
    LinesTrimmed(l, b);
    TwoTooLong(l, t, a, b);
    assert [x, y][1..] == [y] && [y][1..] == [] && [] + [x] == [x];
    assert Gather(l, p, None, [], [x, y]) == Gather(l, p, None, [x], [y]);
    assert Gather(l, p, None, [x], [y]) == Closed(l, [x]) + Gather(l, p, None, [y], []);
    JoinOne(" ", x);
    JoinOne(" ", y);
  }

  lemma TwoTooLong(l: Linguistics, t: nat, a: nat, b: nat)
    requires Modest(l) && 0 < a <= t && 0 < b <= t && a + b > t
    ensures Breaks(l, Square(t), None, [Lines(a)], Lines(b))
  {
    var x, y := Lines(a), Lines(b);
    assert [x] + [y] == [x, y];
    JoinSnoc(" ", [x], y);
    var both := x + " " + y;
    LinesDrawn(a);
    LinesDrawn(b);
    assert both[0] == x[0] && both[|both| - 1] == y[|y| - 1];
    StripTrimmed(both, l.space);
    OverIsLong(l, t, both);
  }

  // ---------------------------------------------------------------- documents of lines

  /** What an element holds: nothing (it is suppressed), one drawing, or two. */
  datatype Cell = Skip | One(height: nat) | Two(first: nat, second: nat)

  predicate CellOk(t: nat, c: Cell) {
    && (c.One? ==> 0 < c.height <= t)
    && (c.Two? ==> 0 < c.first <= t && 0 < c.second <= t && c.first + c.second > t)
  }

  function CellText(c: Cell): string {
    match c
    case Skip => ""
    case One(n) => Lines(n)
    case Two(a, b) => Pair(a, b)
  }

  function ElementFor(id: string, k: nat, c: Cell): Element {
    Element(id, k, c.Skip?, Paragraph, None, CellText(c), [], None, None)
  }

  function PlainUnit(l: Linguistics, id: string, n: nat, continuation: nat, forced: bool): Unit {
    Unit(Lines(n), id, Paragraph, [], None, 1, l.words(None, Lines(n)), continuation, "", forced, None, None)
  }

  function CellUnits(l: Linguistics, id: string, c: Cell): seq<Unit> {
    match c
    case Skip => []
    case One(n) => [PlainUnit(l, id, n, 0, false)]
    case Two(a, b) => [PlainUnit(l, id, a, 0, true), PlainUnit(l, id, b, 1, true)]
  }

  lemma CellEnds(t: nat, c: Cell)
    requires CellOk(t, c) && !c.Skip?
    ensures var text := CellText(c); text != [] && text[0] == 'a' && text[|text| - 1] == 'a'
  {
    match c
    case One(n) => LinesDrawn(n);
    case Two(a, b) =>
      LinesDrawn(a);
      LinesDrawn(b);
      assert Pair(a, b)[0] == Lines(a)[0] && Pair(a, b)[|Pair(a, b)| - 1] == Lines(b)[|Lines(b)| - 1];
  }

  lemma CellTrimmed(l: Linguistics, t: nat, c: Cell)
    requires Modest(l) && CellOk(t, c) && !c.Skip?
    ensures Trimmed(CellText(c), l.space) && Strip(CellText(c), l.space) == CellText(c)
  {
    CellEnds(t, c);
    StripTrimmed(CellText(c), l.space);
  }

  /** The units of such an element, and that it can be cut. */
  lemma CellElement(l: Linguistics, t: nat, id: string, k: nat, c: Cell)
    requires Modest(l) && t > 0 && CellOk(t, c)
    ensures var e := ElementFor(id, k, c);
            && ElementUnits(l, Square(t), START, e) == CellUnits(l, id, c)
            && !ElementFails(l, Square(t), e) && Advance(l, START, e) == START
  {
    if !c.Skip? {
      CellTrimmed(l, t, c);
      CellChunks(l, t, c);
      CellReads(l, t, id, k, c);
      CellKeepsReading(l, t, id, k, c);
    }
  }

  function CellSentences(c: Cell): seq<string> {
    match c
    case Skip => []
    case One(n) => [Lines(n)]
    case Two(a, b) => [Lines(a), Lines(b)]
  }

  function CellChunkList(c: Cell): seq<Chunk> {
    match c
    case Skip => []
    case One(n) => [Chunk(Lines(n), 1, false)]
    case Two(a, b) => [Chunk(Lines(a), 1, false), Chunk(Lines(b), 1, false)]
  }

  lemma CellChunks(l: Linguistics, t: nat, c: Cell)
    requires Modest(l) && t > 0 && CellOk(t, c) && !c.Skip?
    ensures SentencesOf(l, None, CellText(c)) == CellSentences(c)
    ensures Gather(l, Square(t), None, [], CellSentences(c)) == CellChunkList(c)
    ensures !TextFails(l, Square(t), None, CellSentences(c))
  {
    match c
    case One(n) =>
      LinesScan(l, n);
      GatherOne(l, t, n);
      OverIsLong(l, t, Lines(n));
    case Two(a, b) =>
      PairScan(l, a, b);
      GatherTwo(l, t, a, b);
      OverIsLong(l, t, Lines(a));
      OverIsLong(l, t, Lines(b));
  }

  lemma CellReads(l: Linguistics, t: nat, id: string, k: nat, c: Cell)
    requires Modest(l) && t > 0 && CellOk(t, c) && !c.Skip?
    requires SentencesOf(l, None, CellText(c)) == CellSentences(c)
    requires Gather(l, Square(t), None, [], CellSentences(c)) == CellChunkList(c)
    requires Strip(CellText(c), l.space) == CellText(c)
    ensures ElementUnits(l, Square(t), START, ElementFor(id, k, c)) == CellUnits(l, id, c)
  {
    assert CellText(c) != [];
    CellUnitsAre(l, id, k, c);
  }

  lemma CellUnitsAre(l: Linguistics, id: string, k: nat, c: Cell)
    requires !c.Skip?
    ensures TextUnitsOf(l, ElementFor(id, k, c), [], "", CellChunkList(c)) == CellUnits(l, id, c)
  {
  }

  lemma CellKeepsReading(l: Linguistics, t: nat, id: string, k: nat, c: Cell)
    requires Modest(l) && t > 0 && CellOk(t, c) && !c.Skip? && Strip(CellText(c), l.space) == CellText(c)
    ensures Advance(l, START, ElementFor(id, k, c)) == START
  {
    CellEnds(t, c);
  }

  // ---------------------------------------------------------------- whole documents

  ghost predicate CellsOk(t: nat, cells: seq<Cell>) {
    forall k :: 0 <= k < |cells| ==> CellOk(t, cells[k])
  }

  function Drawing(ids: seq<string>, cells: seq<Cell>): (r: seq<Element>)
    requires |ids| == |cells|
    ensures |r| == |ids|
  {
    seq(|ids|, k requires 0 <= k < |ids| => ElementFor(ids[k], k, cells[k]))
  }

  function UnitsFor(l: Linguistics, ids: seq<string>, cells: seq<Cell>): seq<Unit>
    requires |ids| == |cells|
  {
    if ids == [] then [] else
      var n := |ids| - 1;
      UnitsFor(l, ids[..n], cells[..n]) + CellUnits(l, ids[n], cells[n])
  }

  lemma {:induction false} SortedStays(es: seq<Element>)
    requires forall i, j :: 0 <= i < j < |es| ==> es[i].orderIndex < es[j].orderIndex
    ensures SortElements(es) == es
  {
    if es != [] {
      SortedStays(es[1..]);
      assert es == [es[0]] + es[1..];
    }
  }

  lemma DrawingInit(t: nat, ids: seq<string>, cells: seq<Cell>)
    requires |ids| == |cells| && CellsOk(t, cells) && ids != []
    ensures var n := |ids| - 1;
            && CellsOk(t, cells[..n])
            && Drawing(ids, cells) == Drawing(ids[..n], cells[..n]) + [ElementFor(ids[n], n, cells[n])]
  {
  }

  lemma {:induction false} DrawingRead(l: Linguistics, t: nat, ids: seq<string>, cells: seq<Cell>)
    requires Modest(l) && t > 0 && |ids| == |cells| && CellsOk(t, cells)
    ensures DocumentUnits(l, Square(t), START, Drawing(ids, cells)) == UnitsFor(l, ids, cells)
    ensures ReadingAfter(l, START, Drawing(ids, cells)) == START
    ensures AllCut(l, Square(t), Drawing(ids, cells))
  {
    if ids != [] {
      var n := |ids| - 1;
      var init, e := Drawing(ids[..n], cells[..n]), ElementFor(ids[n], n, cells[n]);
      DrawingInit(t, ids, cells);
      DrawingRead(l, t, ids[..n], cells[..n]);
      CellElement(l, t, ids[n], n, cells[n]);
      DocumentUnitsSnoc(l, Square(t), START, init, e);
      ReadingSnoc(l, START, init, e);
    }
  }

  // ---------------------------------------------------------------- heights

  predicate IsPlain(l: Linguistics, u: Unit) {
    && Height(u) > 0 && u.text == Lines(Height(u))
    && u.kind == Paragraph && u.hierarchy == [] && u.sentences == 1
    && u.words == l.words(None, u.text) && u.rows == None
  }

  ghost predicate AllPlain(l: Linguistics, units: seq<Unit>) {
    forall k :: 0 <= k < |units| ==> IsPlain(l, units[k])
  }

  function Height(u: Unit): nat {
    (|u.text| + 1) / 2
  }

  function Heights(units: seq<Unit>): nat {
    if units == [] then 0 else Heights(units[..|units| - 1]) + Height(units[|units| - 1])
  }

  lemma PlainIsPlain(l: Linguistics, id: string, n: nat, continuation: nat, forced: bool)
    requires n > 0
    ensures IsPlain(l, PlainUnit(l, id, n, continuation, forced))
            && Height(PlainUnit(l, id, n, continuation, forced)) == n
  {
  }

  lemma HeightsSnoc(units: seq<Unit>, u: Unit)
    ensures Heights(units + [u]) == Heights(units) + Height(u)
  {
    assert (units + [u])[..|units|] == units;
  }

  lemma {:induction false} HeightsConcat(a: seq<Unit>, b: seq<Unit>)
    ensures Heights(a + b) == Heights(a) + Heights(b)
  {
    if b == [] {
      assert a + b == a;
    } else {
      var n := |b| - 1;
      var init, u := b[..n], b[n];
      assert b == init + [u];
      HeightsConcat(a, init);
      Assoc(a, init, [u]);
      HeightsSnoc(a + init, u);
      HeightsSnoc(init, u);
    }
  }

  lemma PlainJoinMore(l: Linguistics, init: seq<Unit>, u: Unit)
    requires IsPlain(l, u) && Heights(init) > 0 && Join("\n", UnitTexts(init)) == Lines(Heights(init)) && init != []
    ensures Heights(init + [u]) > 0 && Join("\n", UnitTexts(init + [u])) == Lines(Heights(init + [u]))
  {
    HeightsSnoc(init, u);
    UnitTextsSnoc(init, u);
    JoinSnoc("\n", UnitTexts(init), u.text);
    LinesJoin(Heights(init), Height(u));
  }

  lemma PlainJoinOne(l: Linguistics, u: Unit)
    requires IsPlain(l, u)
    ensures Heights([u]) > 0 && Join("\n", UnitTexts([u])) == Lines(Heights([u]))
  {
    HeightsSnoc([], u);
    assert [] + [u] == [u] && UnitTexts([u]) == [u.text];
    JoinOne("\n", u.text);
  }

  /** Plain units join to as many lines as their heights say. */
  lemma {:induction false} PlainJoin(l: Linguistics, units: seq<Unit>)
    requires AllPlain(l, units) && units != []
    ensures Heights(units) > 0 && Join("\n", UnitTexts(units)) == Lines(Heights(units))
  {
    var n := |units| - 1;
    var init, u := units[..n], units[n];
    assert units == init + [u];
    if n == 0 {
      assert units == [u];
      PlainJoinOne(l, u);
    } else {
      PlainJoin(l, init);
      PlainJoinMore(l, init, u);
    }
  }

  lemma {:induction false} PlainSums(l: Linguistics, units: seq<Unit>)
    requires Modest(l) && AllPlain(l, units)
    ensures WordSum(units) + |units| <= 2 * Heights(units) && SentenceSum(units) == |units| <= Heights(units)
  {
    if units != [] {
      var n := |units| - 1;
      PlainSums(l, units[..n]);
      assert l.words(None, units[n].text).count <= |units[n].text|;
    }
  }

  /** In the square profile plain units exceed a limit exactly when they are too high. */
  lemma PlainExceeds(l: Linguistics, t: nat, units: seq<Unit>)
    requires Modest(l) && t > 0 && AllPlain(l, units) && units != []
    ensures ExceedsHard(Square(t), units) <==> Heights(units) > t
    ensures ExceedsSoft(Square(t), units) <==> Heights(units) > t
    ensures !Small(Square(t), units)
  {
    PlainJoin(l, units);
    PlainSums(l, units);
  }

  lemma PlainBreak(l: Linguistics, t: nat, buffer: seq<Unit>, u: Unit)
    requires Modest(l) && t > 0 && AllPlain(l, buffer) && buffer != [] && IsPlain(l, u)
    ensures BreakBefore(l, Square(t), buffer, u)
         == if Heights(buffer) + Height(u) > t then Some(Break("HARD_MAX", true)) else None
  {
    HeightsSnoc(buffer, u);
    PlainExceeds(l, t, buffer + [u]);
  }

  // ---------------------------------------------------------------- full blocks

  /** A block exactly `t` lines high. */
  ghost predicate Full(l: Linguistics, t: nat, block: seq<Unit>) {
    block != [] && AllPlain(l, block) && Heights(block) == t
  }

  lemma {:induction false} HeightsPrefix(units: seq<Unit>, j: nat)
    requires j <= |units|
    ensures Heights(units[..j]) <= Heights(units)
  {
    assert units == units[..j] + units[j..];
    HeightsConcat(units[..j], units[j..]);
  }

  lemma FullUnbroken(l: Linguistics, t: nat, block: seq<Unit>)
    requires Modest(l) && t > 0 && Full(l, t, block)
    ensures Unbroken(l, Square(t), block) && !ExceedsHard(Square(t), block)
  {
    PlainExceeds(l, t, block);
    forall j: nat | 0 < j < |block| ensures NoBreakAt(l, Square(t), block, j) {
      assert block[..j + 1] == block[..j] + [block[j]];
      HeightsSnoc(block[..j], block[j]);
      HeightsPrefix(block, j + 1);
      PlainBreak(l, t, block[..j], block[j]);
    }
  }

  lemma FullBreaks(l: Linguistics, t: nat, block: seq<Unit>, next: seq<Unit>)
    requires Modest(l) && t > 0 && Full(l, t, block) && Full(l, t, next)
    ensures BrokenAt(l, Square(t), Group(block, "HARD_MAX", true), next)
  {
    PlainBreak(l, t, block, next[0]);
  }

  ghost predicate AllFull(l: Linguistics, t: nat, blocks: seq<seq<Unit>>) {
    forall k :: 0 <= k < |blocks| ==> Full(l, t, blocks[k])
  }

  function Stacked(blocks: seq<seq<Unit>>): (r: seq<Group>)
    ensures |r| == |blocks|
  {
    seq(|blocks|, k requires 0 <= k < |blocks| => Group(blocks[k], "HARD_MAX", true))
  }

  /** Full blocks are the groups; the last is closed by the end of the document. */
  function BlockGroups(blocks: seq<seq<Unit>>): seq<Group>
    requires blocks != []
  {
    var n := |blocks| - 1;
    Stacked(blocks[..n]) + [Group(blocks[n], "DOCUMENT_END", false)]
  }

  lemma BlocksGrouped(l: Linguistics, t: nat, blocks: seq<seq<Unit>>)
    requires Modest(l) && t > 0 && AllFull(l, t, blocks) && blocks != []
    ensures FinallyGrouped(l, Square(t), BlockGroups(blocks), Flatten(blocks))
  {
    var n, p := |blocks| - 1, Square(t);
    var closed, last, gs := Stacked(blocks[..n]), blocks[n], BlockGroups(blocks);
    BlocksSound(l, t, blocks);
    FullUnbroken(l, t, last);
    assert gs[..n] == closed && gs[n].units == last;
    assert UnitsOf(gs) == blocks;
    forall k: nat | 0 < k <= |closed| ensures SeamAt(l, p, closed, last, k) {
      FullBreaks(l, t, blocks[k - 1], blocks[k]);
    }
  }

  lemma BlocksSound(l: Linguistics, t: nat, blocks: seq<seq<Unit>>)
    requires Modest(l) && t > 0 && AllFull(l, t, blocks) && blocks != []
    ensures forall g :: g in Stacked(blocks[..|blocks| - 1]) ==> SoundGroup(l, Square(t), g)
    ensures WithinHard(Square(t), BlockGroups(blocks))
  {
    var n := |blocks| - 1;
    var closed, gs := Stacked(blocks[..n]), BlockGroups(blocks);
    forall g | g in closed ensures SoundGroup(l, Square(t), g) {
      var k :| 0 <= k < n && g == closed[k];
      FullSound(l, t, g, blocks[k]);
    }
    forall g | g in gs ensures g.units != [] && !ExceedsHard(Square(t), g.units) {
      var k :| 0 <= k < |gs| && gs[k] == g;
      FullSound(l, t, g, blocks[k]);
    }
  }

  lemma FullSound(l: Linguistics, t: nat, g: Group, block: seq<Unit>)
    requires Modest(l) && t > 0 && Full(l, t, block) && g.units == block
    ensures SoundGroup(l, Square(t), g) && !ExceedsHard(Square(t), g.units)
  {
    FullUnbroken(l, t, block);
  }

  lemma {:induction false} LargeStay(l: Linguistics, p: Profile, out: seq<Group>, rest: seq<Group>)
    requires forall k :: 0 <= k < |rest| ==> !Small(p, rest[k].units)
    ensures Consolidated(l, p, out, rest) == out + rest
    decreases |rest|
  {
    if rest != [] {
      LargeStay(l, p, out + [rest[0]], rest[1..]);
      assert out + [rest[0]] + rest[1..] == out + rest;
    }
  }

  lemma BlocksSettled(l: Linguistics, t: nat, blocks: seq<seq<Unit>>)
    requires Modest(l) && t > 0 && AllFull(l, t, blocks) && blocks != []
    ensures Settled(l, Square(t), BlockGroups(blocks)) == BlockGroups(blocks)
  {
    var gs := BlockGroups(blocks);
    forall k | 0 <= k < |gs| ensures !Small(Square(t), gs[k].units) {
      assert gs[k].units == blocks[k];
      PlainExceeds(l, t, blocks[k]);
    }
    LargeStay(l, Square(t), [], gs);
    assert [] + gs == gs;
  }

  // ---------------------------------------------------------------- fragments of full blocks

  /** The units have the ids `ids`, one each, and `continuation` as their highest. */
  ghost predicate Labelled(block: seq<Unit>, ids: seq<string>, continuation: nat) {
    && |block| == |ids| && DuplicateFree(ids)
    && (forall k :: 0 <= k < |block| ==> block[k].id == ids[k] && block[k].continuation <= continuation)
    && exists k :: 0 <= k < |block| && block[k].continuation == continuation
  }

  lemma {:induction false} LabelledSources(block: seq<Unit>, ids: seq<string>)
    requires |block| == |ids| && DuplicateFree(ids) && forall k :: 0 <= k < |block| ==> block[k].id == ids[k]
    ensures SourceIds(block) == ids
  {
    if block != [] {
      var n := |block| - 1;
      LabelledSources(block[..n], ids[..n]);
      assert ids[n] !in ids[..n];
      assert ids == ids[..n] + [ids[n]];
    }
  }

  lemma BlockFragment(l: Linguistics, t: nat, g: Group, i: nat, ids: seq<string>, continuation: nat)
    requires Modest(l) && t > 0 && Full(l, t, g.units) && Labelled(g.units, ids, continuation)
    ensures var f := FragmentOf(l, g, i);
            && f.sourceIds == ids && f.continuation == continuation && f.text == Lines(t)
            && f.kind == ParagraphFragment && f.rowFrom == None && f.rowTo == None
  {
    LabelledSources(g.units, ids);
    MaxContinuationMax(g.units);
    PlainJoin(l, g.units);
    LinesTrimmed(l, t);
    RowFromLeast(g.units);
    RowToGreatest(g.units);
    FragmentTypeMeans(g.units);
  }

  /** Two full blocks with confusable ids and the same continuation get one fragment id. */
  lemma BlocksCollide(l: Linguistics, t: nat, o: Origin, hash: string -> string, blocks: seq<seq<Unit>>, i: nat, j: nat,
                      xs: seq<string>, ys: seq<string>, continuation: nat)
    requires Modest(l) && t > 0 && AllFull(l, t, blocks) && i < j < |blocks|
    requires Labelled(blocks[i], xs, continuation) && Labelled(blocks[j], ys, continuation) && Confused(xs, ys)
    ensures !NoCollision(o, hash, FragmentsOf(l, BlockGroups(blocks)))
  {
    var gs := BlockGroups(blocks);
    assert gs[i].units == blocks[i] && gs[j].units == blocks[j];
    BlockFragment(l, t, gs[i], i, xs, continuation);
    BlockFragment(l, t, gs[j], j, ys, continuation);
    SamePayloadSameId(o, hash, FragmentOf(l, gs[i], i), FragmentOf(l, gs[j], j));
    var fragments := FragmentsOf(l, gs);
    assert fragments[i] == FragmentOf(l, gs[i], i) && fragments[j] == FragmentOf(l, gs[j], j);
  }

  lemma SamePayloadSameId(o: Origin, hash: string -> string, f: Fragment, g: Fragment)
    requires SamePayload(f, g)
    ensures FragmentId(o, hash, f) == FragmentId(o, hash, g)
  {
  }

  // ---------------------------------------------------------------- from ids to blocks

  lemma UnitsForSnoc(l: Linguistics, ids: seq<string>, cells: seq<Cell>, id: string, c: Cell)
    requires |ids| == |cells|
    ensures UnitsFor(l, ids + [id], cells + [c]) == UnitsFor(l, ids, cells) + CellUnits(l, id, c)
  {
    assert (ids + [id])[..|ids|] == ids && (cells + [c])[..|ids|] == cells;
  }

  lemma {:induction false} UnitsForConcat(l: Linguistics, a: seq<string>, ca: seq<Cell>, b: seq<string>, cb: seq<Cell>)
    requires |a| == |ca| && |b| == |cb|
    ensures UnitsFor(l, a + b, ca + cb) == UnitsFor(l, a, ca) + UnitsFor(l, b, cb)
    decreases |b|
  {
    if b == [] {
      assert a + b == a && ca + cb == ca;
    } else {
      var n := |b| - 1;
      var init, cells, id, c := b[..n], cb[..n], b[n], cb[n];
      assert b == init + [id] && cb == cells + [c];
      UnitsForConcat(l, a, ca, init, cells);
      UnitsForSnoc(l, init, cells, id, c);
      Assoc(a, init, [id]);
      Assoc(ca, cells, [c]);
      UnitsForSnoc(l, a + init, ca + cells, id, c);
      Assoc(UnitsFor(l, a, ca), UnitsFor(l, init, cells), CellUnits(l, id, c));
    }
  }

  lemma UnitsForOne(l: Linguistics, id: string, c: Cell)
    ensures UnitsFor(l, [id], [c]) == CellUnits(l, id, c)
  {
    UnitsForSnoc(l, [], [], id, c);
    assert [] + [id] == [id] && [] + [c] == [c] && [] + CellUnits(l, id, c) == CellUnits(l, id, c);
  }

  function Ones(n: nat): (r: seq<Cell>)
    ensures |r| == n
  {
    seq(n, k => One(1))
  }

  /** One line for each id. */
  function Row(l: Linguistics, ids: seq<string>): (r: seq<Unit>)
    ensures |r| == |ids|
  {
    seq(|ids|, k requires 0 <= k < |ids| => PlainUnit(l, ids[k], 1, 0, false))
  }

  lemma RowSnoc(l: Linguistics, ids: seq<string>, id: string)
    ensures Row(l, ids + [id]) == Row(l, ids) + [PlainUnit(l, id, 1, 0, false)]
  {
  }

  lemma {:induction false} RowUnits(l: Linguistics, ids: seq<string>)
    ensures UnitsFor(l, ids, Ones(|ids|)) == Row(l, ids)
  {
    if ids != [] {
      var n := |ids| - 1;
      var init, id := ids[..n], ids[n];
      assert ids == init + [id] && Ones(|ids|) == Ones(n) + [One(1)];
      RowUnits(l, init);
      UnitsForSnoc(l, init, Ones(n), id, One(1));
      RowSnoc(l, init, id);
    }
  }

  lemma {:induction false} RowPlain(l: Linguistics, ids: seq<string>)
    ensures AllPlain(l, Row(l, ids)) && Heights(Row(l, ids)) == |ids|
  {
    if ids != [] {
      var n := |ids| - 1;
      var init, id := ids[..n], ids[n];
      assert ids == init + [id];
      RowPlain(l, init);
      RowSnoc(l, init, id);
      PlainIsPlain(l, id, 1, 0, false);
      HeightsSnoc(Row(l, init), PlainUnit(l, id, 1, 0, false));
    }
  }

  /** A block: a unit, a row of single lines, and another unit. */
  lemma BlockOf(l: Linguistics, t: nat, u: Unit, middle: seq<string>, v: Unit)
    requires t > 0 && IsPlain(l, u) && IsPlain(l, v) && Height(u) + |middle| + Height(v) == t
    ensures Full(l, t, [u] + Row(l, middle) + [v])
  {
    RowPlain(l, middle);
    HeightsConcat([u] + Row(l, middle), [v]);
    HeightsConcat([u], Row(l, middle));
    HeightsSnoc([], u);
    HeightsSnoc([], v);
    assert [] + [u] == [u] && [] + [v] == [v];
  }

  lemma BlockOfTwo(l: Linguistics, t: nat, u: Unit, rest: seq<string>)
    requires t > 0 && IsPlain(l, u) && Height(u) + |rest| == t
    ensures Full(l, t, [u] + Row(l, rest))
  {
    RowPlain(l, rest);
    HeightsConcat([u], Row(l, rest));
    HeightsSnoc([], u);
    assert [] + [u] == [u];
  }

  /** The ids at the given positions. */
  function Pick(ids: seq<string>, at: seq<nat>): (r: seq<string>)
    requires forall k :: 0 <= k < |at| ==> at[k] < |ids|
    ensures |r| == |at|
  {
    seq(|at|, k requires 0 <= k < |at| => ids[at[k]])
  }

  ghost predicate Rising(at: seq<nat>, bound: nat) {
    (forall k :: 0 <= k < |at| ==> at[k] < bound) && forall j, k :: 0 <= j < k < |at| ==> at[j] < at[k]
  }

  lemma {:induction false} RisingLength(at: seq<nat>, n: nat)
    requires Rising(at, n)
    ensures |at| <= n
    decreases |at|
  {
    if at != [] {
      var m := |at| - 1;
      RisingLength(at[..m], at[m]);
    }
  }

  /** `cells` placed at the positions `at` of `n`, the rest skipped. */
  ghost function Spread(n: nat, at: seq<nat>, cells: seq<Cell>): (r: seq<Cell>)
    requires |at| == |cells| && Rising(at, n)
    ensures |r| == n
  {
    if n == 0 then []
    else if at != [] && at[|at| - 1] == n - 1 then
      Spread(n - 1, at[..|at| - 1], cells[..|at| - 1]) + [cells[|at| - 1]]
    else
      Spread(n - 1, at, cells) + [Skip]
  }

  lemma SpreadStep(n: nat, at: seq<nat>, cells: seq<Cell>)
    requires |at| == |cells| && Rising(at, n)
    ensures Rising(at, n + 1) && Spread(n + 1, at, cells) == Spread(n, at, cells) + [Skip]
  {
  }

  lemma SpreadPlace(n: nat, at: seq<nat>, cells: seq<Cell>, c: Cell)
    requires |at| == |cells| && Rising(at, n)
    ensures Rising(at + [n], n + 1) && Spread(n + 1, at + [n], cells + [c]) == Spread(n, at, cells) + [c]
  {
    assert (at + [n])[..|at|] == at && (cells + [c])[..|at|] == cells;
  }

  /** The spread cells make the units of the picked ids. */
  lemma {:induction false} SpreadUnits(l: Linguistics, ids: seq<string>, n: nat, at: seq<nat>, cells: seq<Cell>)
    requires n <= |ids| && |at| == |cells| && Rising(at, n)
    ensures UnitsFor(l, ids[..n], Spread(n, at, cells)) == UnitsFor(l, Pick(ids, at), cells)
    decreases n
  {
    if n == 0 {
      RisingLength(at, n);
    } else {
      var m := |at| - 1;
      assert ids[..n] == ids[..n - 1] + [ids[n - 1]];
      if at != [] && at[m] == n - 1 {
        var before, some, c := at[..m], cells[..m], cells[m];
        assert at == before + [n - 1] && cells == some + [c];
        SpreadUnits(l, ids, n - 1, before, some);
        PlacedUnits(l, ids, n - 1, before, some, c);
      } else {
        SpreadUnits(l, ids, n - 1, at, cells);
        SkippedUnits(l, ids, n - 1, at, cells);
      }
    }
  }

  lemma SkippedUnits(l: Linguistics, ids: seq<string>, n: nat, at: seq<nat>, cells: seq<Cell>)
    requires n < |ids| && |at| == |cells| && Rising(at, n)
    ensures Rising(at, n + 1)
    ensures UnitsFor(l, ids[..n] + [ids[n]], Spread(n + 1, at, cells)) == UnitsFor(l, ids[..n], Spread(n, at, cells))
  {
    SpreadStep(n, at, cells);
    UnitsForSnoc(l, ids[..n], Spread(n, at, cells), ids[n], Skip);
    assert UnitsFor(l, ids[..n], Spread(n, at, cells)) + [] == UnitsFor(l, ids[..n], Spread(n, at, cells));
  }

  lemma PlacedUnits(l: Linguistics, ids: seq<string>, n: nat, at: seq<nat>, cells: seq<Cell>, c: Cell)
    requires n < |ids| && |at| == |cells| && Rising(at, n)
    requires UnitsFor(l, ids[..n], Spread(n, at, cells)) == UnitsFor(l, Pick(ids, at), cells)
    ensures Rising(at + [n], n + 1)
    ensures UnitsFor(l, ids[..n] + [ids[n]], Spread(n + 1, at + [n], cells + [c]))
            == UnitsFor(l, Pick(ids, at + [n]), cells + [c])
  {
    SpreadPlace(n, at, cells, c);
    UnitsForSnoc(l, ids[..n], Spread(n, at, cells), ids[n], c);
    PickSnoc(ids, at, n);
    UnitsForSnoc(l, Pick(ids, at), cells, ids[n], c);
  }

  lemma PickSnoc(ids: seq<string>, at: seq<nat>, n: nat)
    requires n < |ids| && forall k :: 0 <= k < |at| ==> at[k] < |ids|
    ensures Pick(ids, at + [n]) == Pick(ids, at) + [ids[n]]
  {
  }

  lemma {:induction false} SpreadOk(t: nat, n: nat, at: seq<nat>, cells: seq<Cell>)
    requires |at| == |cells| && Rising(at, n) && CellsOk(t, cells)
    ensures CellsOk(t, Spread(n, at, cells))
  {
    if n > 0 {
      var m := |at| - 1;
      if at != [] && at[m] == n - 1 {
        SpreadOk(t, n - 1, at[..m], cells[..m]);
      } else {
        SpreadOk(t, n - 1, at, cells);
      }
    }
  }

  // ---------------------------------------------------------------- colliding documents

  lemma PlainHasText(l: Linguistics, u: Unit)
    requires IsPlain(l, u)
    ensures u.text != []
  {
  }

  lemma {:induction false} KeptAll(units: seq<Unit>)
    requires forall k :: 0 <= k < |units| ==> units[k].text != []
    ensures Kept(units) == units
  {
    if units != [] {
      var n := |units| - 1;
      var init, u := units[..n], units[n];
      KeptAll(init);
      KeptSnoc(init, u);
      assert units == init + [u];
    }
  }

  lemma KeptPlain(l: Linguistics, units: seq<Unit>)
    requires AllPlain(l, units)
    ensures Kept(units) == units
  {
    forall k | 0 <= k < |units| ensures units[k].text != [] {
      PlainHasText(l, units[k]);
    }
    KeptAll(units);
  }

  lemma {:induction false} FlattenPlain(l: Linguistics, t: nat, blocks: seq<seq<Unit>>)
    requires AllFull(l, t, blocks)
    ensures AllPlain(l, Flatten(blocks))
  {
    if blocks != [] {
      FlattenPlain(l, t, blocks[1..]);
    }
  }

  /** A document and what Split makes of it. */
  datatype Splitting = Splitting(profile: Profile, elements: seq<Element>, fragments: seq<Fragment>)

  /** The ids of the elements in reading order are `ids`, and Split gives these fragments. */
  ghost predicate Realises(l: Linguistics, ids: seq<string>, s: Splitting) {
    && ValidProfile(s.profile) && DistinctIds(s.elements) && IdsOf(SortElements(s.elements)) == ids
    && SplitsInto(l, s.profile, s.elements, s.fragments)
  }

  lemma DrawingSorted(t: nat, ids: seq<string>, cells: seq<Cell>)
    requires |ids| == |cells| && CellsOk(t, cells) && DuplicateFree(ids)
    ensures var es := Drawing(ids, cells); SortElements(es) == es && IdsOf(es) == ids && DistinctIds(es)
  {
    SortedStays(Drawing(ids, cells));
  }

  lemma NoneTooLarge(l: Linguistics, t: nat, blocks: seq<seq<Unit>>)
    requires Modest(l) && t > 0 && AllFull(l, t, blocks)
    ensures !SomeOverCounting(l, Square(t), Flatten(blocks))
  {
    FlattenPlain(l, t, blocks);
    forall u | u in Flatten(blocks) ensures !OverCounting(l, Square(t), u) {
      var i :| 0 <= i < |Flatten(blocks)| && Flatten(blocks)[i] == u;
      var k := PartOf(blocks, u);
      SmallInFull(l, t, blocks[k], u);
    }
  }

  lemma SmallInFull(l: Linguistics, t: nat, block: seq<Unit>, u: Unit)
    requires Modest(l) && t > 0 && Full(l, t, block) && u in block
    ensures !OverCounting(l, Square(t), u)
  {
    var k :| 0 <= k < |block| && block[k] == u;
    HeightsPrefix(block, k + 1);
    assert block[..k + 1][..k] == block[..k];
    assert Height(u) <= t && u.words.count <= |u.text|;
  }

  /** Cells whose units stack to full blocks make a document that splits into those blocks. */
  lemma DrawingSplits(l: Linguistics, t: nat, ids: seq<string>, cells: seq<Cell>, blocks: seq<seq<Unit>>)
    requires Modest(l) && t > 0 && |ids| == |cells| && CellsOk(t, cells) && DuplicateFree(ids)
    requires AllFull(l, t, blocks) && blocks != [] && UnitsFor(l, ids, cells) == Flatten(blocks)
    ensures Realises(l, ids, Splitting(Square(t), Drawing(ids, cells), FragmentsOf(l, BlockGroups(blocks))))
  {
    var es, p, units := Drawing(ids, cells), Square(t), Flatten(blocks);
    DrawingSorted(t, ids, cells);
    DrawingRead(l, t, ids, cells);
    FlattenPlain(l, t, blocks);
    KeptPlain(l, units);
    BlocksGrouped(l, t, blocks);
    BlocksSettled(l, t, blocks);
    SplitSound(l, p, es, units, BlockGroups(blocks));
    NoneTooLarge(l, t, blocks);
    SplittableWhenCut(l, p, es);
    assert FromGroups(l, p, units, FragmentsOf(l, BlockGroups(blocks)));
  }

  lemma SplittableWhenCut(l: Linguistics, p: Profile, es: seq<Element>)
    requires Lawful(l) && AllCut(l, p, es) && !SomeOverCounting(l, p, DocumentUnits(l, p, START, es))
    ensures Splittable(l, p, es)
  {
    forall e | e in es ensures !HasLongCluster(l, p, e) {
      FailsIffLongCluster(l, p, e);
    }
  }

  /** Split has no choice: one document, one result. */
  lemma SplitsIntoOne(l: Linguistics, p: Profile, elements: seq<Element>, f: seq<Fragment>, g: seq<Fragment>)
    requires SplitsInto(l, p, elements, f) && SplitsInto(l, p, elements, g)
    ensures f == g
  {
    var units := DocumentUnits(l, p, START, SortElements(elements));
    FromGroupsOne(l, p, units, f, g);
  }

  lemma FromGroupsOne(l: Linguistics, p: Profile, units: seq<Unit>, f: seq<Fragment>, g: seq<Fragment>)
    requires FromGroups(l, p, units, f) && FromGroups(l, p, units, g)
    ensures f == g
  {
    var a :| FinallyGrouped(l, p, a, Kept(units)) && f == FragmentsOf(l, Settled(l, p, a));
    var b :| FinallyGrouped(l, p, b, Kept(units)) && g == FragmentsOf(l, Settled(l, p, b));
    GroupingUnique(l, p, a, b, Kept(units));
  }

  // ---------------------------------------------------------------- ambiguity realised

  /** How to draw a colliding document: cells for the elements at some positions, and the full
      blocks their units stack to, of which numbers `i` and `j` will collide. */
  datatype Design = Design(height: nat, at: seq<nat>, cells: seq<Cell>, blocks: seq<seq<Unit>>, i: nat, j: nat,
                           continuation: nat)

  /** The cells make the units of the blocks. */
  ghost predicate Draws(l: Linguistics, picked: seq<string>, d: Design) {
    |picked| == |d.cells| && CellsOk(d.height, d.cells) && UnitsFor(l, picked, d.cells) == Flatten(d.blocks)
  }

  /** All blocks are full, and blocks `i` and `j` differ in their ids only. */
  ghost predicate Twins(l: Linguistics, d: Design, xs: seq<string>, ys: seq<string>) {
    && d.height > 0 && AllFull(l, d.height, d.blocks) && d.i < d.j < |d.blocks|
    && Labelled(d.blocks[d.i], xs, d.continuation) && Labelled(d.blocks[d.j], ys, d.continuation)
  }

  ghost predicate Sound(l: Linguistics, ids: seq<string>, d: Design, xs: seq<string>, ys: seq<string>) {
    Rising(d.at, |ids|) && Draws(l, Pick(ids, d.at), d) && Twins(l, d, xs, ys)
  }

  /** A sound design makes a colliding document. */
  lemma DesignRealised(l: Linguistics, o: Origin, hash: string -> string, ids: seq<string>, d: Design, xs: seq<string>,
                       ys: seq<string>) returns (s: Splitting)
    requires Modest(l) && DuplicateFree(ids) && Sound(l, ids, d, xs, ys) && Confused(xs, ys)
    ensures Realises(l, ids, s) && !NoCollision(o, hash, s.fragments)
  {
    var t, n := d.height, |ids|;
    SpreadUnits(l, ids, n, d.at, d.cells);
    SpreadOk(t, n, d.at, d.cells);
    assert ids[..n] == ids;
    var cells := Spread(n, d.at, d.cells);
    s := Splitting(Square(t), Drawing(ids, cells), FragmentsOf(l, BlockGroups(d.blocks)));
    DrawingSplits(l, t, ids, cells, d.blocks);
    BlocksCollide(l, t, o, hash, d.blocks, d.i, d.j, xs, ys, d.continuation);
  }

  // ---------------------------------------------------------------- runs apart from one another

  function Top(l: Linguistics, xs: seq<string>, p: nat, continuation: nat, forced: bool): seq<Unit>
    requires xs != []
  {
    [PlainUnit(l, xs[0], p, continuation, forced)] + Row(l, xs[1..])
  }

  /** A tall unit and a row of single lines: full, and labelled with its ids. */
  lemma TopBlock(l: Linguistics, t: nat, xs: seq<string>, p: nat, continuation: nat, forced: bool)
    requires xs != [] && DuplicateFree(xs) && p > 0 && p + |xs| - 1 == t
    ensures Full(l, t, Top(l, xs, p, continuation, forced))
            && Labelled(Top(l, xs, p, continuation, forced), xs, continuation)
  {
    var u := PlainUnit(l, xs[0], p, continuation, forced);
    PlainIsPlain(l, xs[0], p, continuation, forced);
    BlockOfTwo(l, t, u, xs[1..]);
    LabelledRow(l, xs, u, continuation);
  }

  lemma LabelledRow(l: Linguistics, xs: seq<string>, u: Unit, continuation: nat)
    requires xs != [] && DuplicateFree(xs) && u.id == xs[0] && u.continuation == continuation
    ensures Labelled([u] + Row(l, xs[1..]), xs, continuation)
  {
    var block := [u] + Row(l, xs[1..]);
    assert block[0] == u;
  }

  lemma TopRow(l: Linguistics, xs: seq<string>, p: nat)
    requires xs != []
    ensures UnitsFor(l, xs, [One(p)] + Ones(|xs| - 1)) == Top(l, xs, p, 0, false)
  {
    UnitsForOne(l, xs[0], One(p));
    RowUnits(l, xs[1..]);
    UnitsForConcat(l, [xs[0]], [One(p)], xs[1..], Ones(|xs| - 1));
    assert [xs[0]] + xs[1..] == xs;
  }

  lemma FlattenTwo<T>(a: seq<T>, b: seq<T>)
    ensures Flatten([a, b]) == a + b
  {
    FlattenSnoc([a], b);
    FlattenSnoc<T>([], a);
    assert [a] + [b] == [a, b] && [] + [a] == [a];
    assert Flatten<T>([]) + a == a;
  }

  function ApartDesign(l: Linguistics, at: seq<nat>, xs: seq<string>, ys: seq<string>): Design
    requires xs != [] && ys != []
  {
    Design(|xs| + |ys|, at, ApartCells(|xs|, |ys|), ApartBlocks(l, xs, ys), 0, 1, 0)
  }

  function ApartCells(m: nat, n: nat): (r: seq<Cell>)
    requires m > 0 && n > 0
    ensures |r| == m + n
  {
    ([One(n + 1)] + Ones(m - 1)) + ([One(m + 1)] + Ones(n - 1))
  }

  function ApartBlocks(l: Linguistics, xs: seq<string>, ys: seq<string>): (r: seq<seq<Unit>>)
    requires xs != [] && ys != []
    ensures |r| == 2
  {
    [Top(l, xs, |ys| + 1, 0, false), Top(l, ys, |xs| + 1, 0, false)]
  }

  lemma ApartTwins(l: Linguistics, at: seq<nat>, xs: seq<string>, ys: seq<string>)
    requires xs != [] && ys != [] && DuplicateFree(xs) && DuplicateFree(ys)
    ensures Twins(l, ApartDesign(l, at, xs, ys), xs, ys)
  {
    TopBlock(l, |xs| + |ys|, xs, |ys| + 1, 0, false);
    TopBlock(l, |xs| + |ys|, ys, |xs| + 1, 0, false);
  }

  lemma ApartDraws(l: Linguistics, at: seq<nat>, xs: seq<string>, ys: seq<string>)
    requires xs != [] && ys != []
    ensures Draws(l, xs + ys, ApartDesign(l, at, xs, ys))
  {
    ApartDrawn(l, xs, ys);
    ApartCellsOk(|xs|, |ys|);
  }

  lemma ApartCellsOk(m: nat, n: nat)
    requires m > 0 && n > 0
    ensures CellsOk(m + n, ApartCells(m, n))
  {
  }

  lemma ApartDrawn(l: Linguistics, xs: seq<string>, ys: seq<string>)
    requires xs != [] && ys != []
    ensures UnitsFor(l, xs + ys, ApartCells(|xs|, |ys|)) == Flatten(ApartBlocks(l, xs, ys))
  {
    var p, q := |ys| + 1, |xs| + 1;
    TopRow(l, xs, p);
    TopRow(l, ys, q);
    UnitsForConcat(l, xs, [One(p)] + Ones(|xs| - 1), ys, [One(q)] + Ones(|ys| - 1));
    FlattenTwo(Top(l, xs, p, 0, false), Top(l, ys, q, 0, false));
  }

  lemma PickApart(ids: seq<string>, xs: seq<string>, ys: seq<string>, a: seq<nat>, b: seq<nat>)
    requires PrecedeAt(ids, xs, ys, a, b) && a[|a| - 1] < b[0]
    ensures Rising(a + b, |ids|) && Pick(ids, a + b) == xs + ys
  {
    forall j, k | 0 <= j < k < |a + b| ensures (a + b)[j] < (a + b)[k] {
      if j < |a| <= k {
        assert a[j] <= a[|a| - 1] && b[0] <= b[k - |a|];
      }
    }
  }

  lemma PicksDuplicateFree(ids: seq<string>, xs: seq<string>, at: seq<nat>)
    requires DuplicateFree(ids) && Picks(ids, xs, at)
    ensures DuplicateFree(xs)
  {
  }

  lemma ApartSound(l: Linguistics, ids: seq<string>, xs: seq<string>, ys: seq<string>, a: seq<nat>, b: seq<nat>)
    requires DuplicateFree(ids) && PrecedeAt(ids, xs, ys, a, b) && a[|a| - 1] < b[0]
    ensures Sound(l, ids, ApartDesign(l, a + b, xs, ys), xs, ys)
  {
    PicksDuplicateFree(ids, xs, a);
    PicksDuplicateFree(ids, ys, b);
    PickApart(ids, xs, ys, a, b);
    ApartTwins(l, a + b, xs, ys);
    ApartDraws(l, a + b, xs, ys);
  }

  // ---------------------------------------------------------------- runs that share an element

  /** With equal joins neither of two different runs that share an end is that element alone. */
  lemma SharedLong(xs: seq<string>, ys: seq<string>)
    requires xs != [] && ys != [] && xs[|xs| - 1] == ys[0] && Confused(xs, ys)
    ensures |xs| > 1 && |ys| > 1
  {
    JoinLonger(xs, |xs| - 1);
    JoinLonger(ys, 0);
    Alone(xs);
    Alone(ys);
  }

  lemma Alone(xs: seq<string>)
    requires |xs| > 0
    ensures |xs| == 1 ==> xs == [xs[0]] && Join(",", xs) == xs[0]
  {
  }

  lemma {:induction false} JoinLonger(xs: seq<string>, k: nat)
    requires k < |xs|
    ensures |Join(",", xs)| >= |xs[k]| && (|xs| > 1 ==> |Join(",", xs)| > |xs[k]|)
  {
    if |xs| > 1 && k < |xs| - 1 {
      JoinLonger(xs[..|xs| - 1], k);
    }
  }

  /** The block that ends with the shared element's first half. */
  function Sandwich(l: Linguistics, xs: seq<string>, p: nat): seq<Unit>
    requires |xs| > 1
  {
    [PlainUnit(l, xs[0], 1, 1, true)] + Row(l, xs[1..|xs| - 1]) + [PlainUnit(l, xs[|xs| - 1], p, 0, true)]
  }

  lemma SandwichBlock(l: Linguistics, t: nat, xs: seq<string>, p: nat)
    requires |xs| > 1 && DuplicateFree(xs) && p > 0 && p + |xs| - 1 == t
    ensures Full(l, t, Sandwich(l, xs, p)) && Labelled(Sandwich(l, xs, p), xs, 1)
  {
    var n := |xs| - 1;
    PlainIsPlain(l, xs[0], 1, 1, true);
    PlainIsPlain(l, xs[n], p, 0, true);
    BlockOf(l, t, PlainUnit(l, xs[0], 1, 1, true), xs[1..n], PlainUnit(l, xs[n], p, 0, true));
    assert Sandwich(l, xs, p)[0].continuation == 1;
  }

  lemma TallBlock(l: Linguistics, t: nat, id: string)
    requires t > 0
    ensures Full(l, t, [PlainUnit(l, id, t, 0, true)])
  {
    PlainIsPlain(l, id, t, 0, true);
    HeightsSnoc([], PlainUnit(l, id, t, 0, true));
    assert [] + [PlainUnit(l, id, t, 0, true)] == [PlainUnit(l, id, t, 0, true)];
  }

  /** The first element yields a full block by itself and one line more; the shared element
      ends one block and begins the next. */
  function SharedDesign(l: Linguistics, at: seq<nat>, xs: seq<string>, ys: seq<string>): Design
    requires |xs| > 1 && |ys| > 1
  {
    Design(|xs| + |ys|, at, SharedCells(|xs|, |ys|), SharedBlocks(l, xs, ys), 1, 2, 1)
  }

  function SharedCells(m: nat, n: nat): (r: seq<Cell>)
    requires m > 1 && n > 1
    ensures |r| == m + n - 1
  {
    ([Two(m + n, 1)] + Ones(m - 2)) + ([Two(n + 1, m + 1)] + Ones(n - 1))
  }

  function SharedBlocks(l: Linguistics, xs: seq<string>, ys: seq<string>): (r: seq<seq<Unit>>)
    requires |xs| > 1 && |ys| > 1
    ensures |r| == 3
  {
    [[PlainUnit(l, xs[0], |xs| + |ys|, 0, true)], Sandwich(l, xs, |ys| + 1), Top(l, ys, |xs| + 1, 1, true)]
  }

  lemma SharedTwins(l: Linguistics, at: seq<nat>, xs: seq<string>, ys: seq<string>)
    requires |xs| > 1 && |ys| > 1 && DuplicateFree(xs) && DuplicateFree(ys)
    ensures Twins(l, SharedDesign(l, at, xs, ys), xs, ys)
  {
    var t, m, n := |xs| + |ys|, |xs|, |ys|;
    TallBlock(l, t, xs[0]);
    SandwichBlock(l, t, xs, n + 1);
    TopBlock(l, t, ys, m + 1, 1, true);
    ThreeFull(l, t, [PlainUnit(l, xs[0], t, 0, true)], Sandwich(l, xs, n + 1), Top(l, ys, m + 1, 1, true));
  }

  lemma ThreeFull(l: Linguistics, t: nat, a: seq<Unit>, b: seq<Unit>, c: seq<Unit>)
    requires Full(l, t, a) && Full(l, t, b) && Full(l, t, c)
    ensures AllFull(l, t, [a, b, c])
  {
  }

  lemma SharedDraws(l: Linguistics, at: seq<nat>, xs: seq<string>, ys: seq<string>)
    requires |xs| > 1 && |ys| > 1 && xs[|xs| - 1] == ys[0]
    ensures Draws(l, xs + ys[1..], SharedDesign(l, at, xs, ys))
  {
    SharedDrawn(l, xs, ys);
    SharedCellsOk(|xs|, |ys|);
  }

  lemma SharedCellsOk(m: nat, n: nat)
    requires m > 1 && n > 1
    ensures CellsOk(m + n, SharedCells(m, n))
  {
  }

  lemma SharedDrawn(l: Linguistics, xs: seq<string>, ys: seq<string>)
    requires |xs| > 1 && |ys| > 1 && xs[|xs| - 1] == ys[0]
    ensures UnitsFor(l, xs + ys[1..], SharedCells(|xs|, |ys|)) == Flatten(SharedBlocks(l, xs, ys))
  {
    var t, p, q := |xs| + |ys|, |ys| + 1, |xs| + 1;
    SharedUnits(l, xs, ys, t, p, q);
    SharedFlatten(l, t, xs, ys, p, q);
  }

  lemma SharedUnits(l: Linguistics, xs: seq<string>, ys: seq<string>, t: nat, p: nat, q: nat)
    requires |xs| > 1 && |ys| > 1 && xs[|xs| - 1] == ys[0]
    ensures var n := |xs| - 1;
            UnitsFor(l, xs + ys[1..], ([Two(t, 1)] + Ones(n - 1)) + ([Two(p, q)] + Ones(|ys| - 1)))
            == ([PlainUnit(l, xs[0], t, 0, true), PlainUnit(l, xs[0], 1, 1, true)] + Row(l, xs[1..n]))
               + ([PlainUnit(l, ys[0], p, 0, true), PlainUnit(l, ys[0], q, 1, true)] + Row(l, ys[1..]))
  {
    var n := |xs| - 1;
    TwoRow(l, xs[0], xs[1..n], t, 1);
    TwoRow(l, ys[0], ys[1..], p, q);
    SharedIds(xs, ys);
    UnitsForConcat(l, [xs[0]] + xs[1..n], [Two(t, 1)] + Ones(n - 1), [ys[0]] + ys[1..], [Two(p, q)] + Ones(|ys| - 1));
  }

  lemma SharedIds(xs: seq<string>, ys: seq<string>)
    requires |xs| > 1 && ys != [] && xs[|xs| - 1] == ys[0]
    ensures xs + ys[1..] == ([xs[0]] + xs[1..|xs| - 1]) + ([ys[0]] + ys[1..])
  {
  }

  lemma TwoRow(l: Linguistics, id: string, rest: seq<string>, p: nat, q: nat)
    ensures UnitsFor(l, [id] + rest, [Two(p, q)] + Ones(|rest|))
         == [PlainUnit(l, id, p, 0, true), PlainUnit(l, id, q, 1, true)] + Row(l, rest)
  {
    UnitsForOne(l, id, Two(p, q));
    RowUnits(l, rest);
    UnitsForConcat(l, [id], [Two(p, q)], rest, Ones(|rest|));
  }

  lemma SharedFlatten(l: Linguistics, t: nat, xs: seq<string>, ys: seq<string>, p: nat, q: nat)
    requires |xs| > 1 && |ys| > 1 && xs[|xs| - 1] == ys[0]
    ensures var n := |xs| - 1;
            Flatten([[PlainUnit(l, xs[0], t, 0, true)], Sandwich(l, xs, p), Top(l, ys, q, 1, true)])
            == ([PlainUnit(l, xs[0], t, 0, true), PlainUnit(l, xs[0], 1, 1, true)] + Row(l, xs[1..n]))
               + ([PlainUnit(l, ys[0], p, 0, true), PlainUnit(l, ys[0], q, 1, true)] + Row(l, ys[1..]))
  {
    var n := |xs| - 1;
    Rearrange(PlainUnit(l, xs[0], t, 0, true), PlainUnit(l, xs[0], 1, 1, true), Row(l, xs[1..n]),
              PlainUnit(l, ys[0], p, 0, true), PlainUnit(l, ys[0], q, 1, true), Row(l, ys[1..]));
  }

  lemma Rearrange<T>(a: T, b: T, r: seq<T>, c: T, d: T, s: seq<T>)
    ensures Flatten([[a], [b] + r + [c], [d] + s]) == ([a, b] + r) + ([c, d] + s)
  {
    FlattenTwo([a], [b] + r + [c]);
    FlattenSnoc([[a], [b] + r + [c]], [d] + s);
    assert [[a], [b] + r + [c]] + [[d] + s] == [[a], [b] + r + [c], [d] + s];
    assert [a] + ([b] + r + [c]) + ([d] + s) == ([a, b] + r) + ([c, d] + s);
  }

  lemma PickShared(ids: seq<string>, xs: seq<string>, ys: seq<string>, a: seq<nat>, b: seq<nat>)
    requires PrecedeAt(ids, xs, ys, a, b) && a[|a| - 1] == b[0]
    ensures Rising(a + b[1..], |ids|) && Pick(ids, a + b[1..]) == xs + ys[1..]
  {
    var at := a + b[1..];
    forall j, k | 0 <= j < k < |at| ensures at[j] < at[k] {
      if j < |a| <= k {
        assert a[j] <= a[|a| - 1] && b[0] < b[k - |a| + 1];
      }
    }
  }

  lemma SharedSound(l: Linguistics, ids: seq<string>, xs: seq<string>, ys: seq<string>, a: seq<nat>, b: seq<nat>)
    requires DuplicateFree(ids) && PrecedeAt(ids, xs, ys, a, b) && a[|a| - 1] == b[0] && |xs| > 1 && |ys| > 1
    ensures Sound(l, ids, SharedDesign(l, a + b[1..], xs, ys), xs, ys)
  {
    PicksDuplicateFree(ids, xs, a);
    PicksDuplicateFree(ids, ys, b);
    PickShared(ids, xs, ys, a, b);
    SharedTwins(l, a + b[1..], xs, ys);
    SharedDraws(l, a + b[1..], xs, ys);
  }

  // ---------------------------------------------------------------- the exact condition

  /** Every ambiguity of ids in reading order makes some document with these ids collide. */
  lemma AmbiguousCollides(l: Linguistics, o: Origin, hash: string -> string, ids: seq<string>) returns (s: Splitting)
    requires Modest(l) && DuplicateFree(ids) && Ambiguous(ids)
    ensures Realises(l, ids, s) && !NoCollision(o, hash, s.fragments)
  {
    var xs, ys :| Precede(ids, xs, ys) && Confused(xs, ys);
    var d := SomeDesign(l, ids, xs, ys);
    s := DesignRealised(l, o, hash, ids, d, xs, ys);
  }

  lemma SomeDesign(l: Linguistics, ids: seq<string>, xs: seq<string>, ys: seq<string>) returns (d: Design)
    requires DuplicateFree(ids) && Precede(ids, xs, ys) && Confused(xs, ys)
    ensures Sound(l, ids, d, xs, ys)
  {
    var a, b :| PrecedeAt(ids, xs, ys, a, b);
    if a[|a| - 1] < b[0] {
      ApartSound(l, ids, xs, ys, a, b);
      d := ApartDesign(l, a + b, xs, ys);
    } else {
      SharedLong(xs, ys);
      SharedSound(l, ids, xs, ys, a, b);
      d := SharedDesign(l, a + b[1..], xs, ys);
    }
  }

  /** No document whose elements carry these ids, in this reading order, has two fragments
      with one id. */
  ghost predicate SafeIds(l: Linguistics, o: Origin, hash: string -> string, ids: seq<string>) {
    forall s :: Realises(l, ids, s) ==> NoCollision(o, hash, s.fragments)
  }

  /** Fragment ids are collision-free for unique separator-free element ids if and only if no
      two picks of the ids that precede one another have the same comma-join. */
  lemma SafeIffUnambiguous(l: Linguistics, o: Origin, hash: string -> string, ids: seq<string>)
    requires Modest(l) && Injective(hash) && CleanOrigin(o, hash) && DuplicateFree(ids) && AllFree(ids, SEPARATOR)
    ensures SafeIds(l, o, hash, ids) <==> !Ambiguous(ids)
  {
    if Ambiguous(ids) {
      var s := AmbiguousCollides(l, o, hash, ids);
    } else {
      forall s | Realises(l, ids, s) ensures NoCollision(o, hash, s.fragments) {
        RealisedSafe(l, o, hash, ids, s);
      }
    }
  }

  lemma RealisedSafe(l: Linguistics, o: Origin, hash: string -> string, ids: seq<string>, s: Splitting)
    requires Modest(l) && Injective(hash) && CleanOrigin(o, hash) && AllFree(ids, SEPARATOR) && !Ambiguous(ids)
    requires Realises(l, ids, s)
    ensures NoCollision(o, hash, s.fragments)
  {
    ElementsFree(s.elements, SEPARATOR);
    UnambiguousIdsDistinct(l, s.profile, o, hash, s.elements, s.fragments);
  }

  lemma ElementsFree(elements: seq<Element>, c: char)
    requires AllFree(IdsOf(SortElements(elements)), c)
    ensures forall e :: e in elements ==> Free(e.id, c)
  {
    var es := SortElements(elements);
    forall e | e in elements ensures Free(e.id, c) {
      SortMembers(elements, e);
      var k :| 0 <= k < |es| && es[k] == e;
      assert IdsOf(es)[k] in IdsOf(es);
    }
  }

  /** The plainest ambiguity: two ids and their own comma-join. */
  lemma CommasCollide(l: Linguistics, o: Origin, hash: string -> string, x: string, y: string) returns (s: Splitting)
    requires Modest(l) && x != y
    ensures Realises(l, [x, y, x + "," + y], s) && !NoCollision(o, hash, s.fragments)
  {
    CommasAmbiguous(x, y);
    s := AmbiguousCollides(l, o, hash, [x, y, x + "," + y]);
  }

  lemma CommasAmbiguous(x: string, y: string)
    requires x != y
    ensures DuplicateFree([x, y, x + "," + y]) && Ambiguous([x, y, x + "," + y])
  {
    var z := x + "," + y;
    var xs, ys, ids := [x, y], [z], [x, y, z];
    assert [x] + [y] == [x, y];
    JoinSnoc(",", [x], y);
    JoinOne(",", x);
    JoinOne(",", z);
    assert |z| > |x| && |z| > |y|;
    assert PrecedeAt(ids, xs, ys, [0, 1], [2]);
    assert Precede(ids, xs, ys) && Confused(xs, ys);
  }
}
