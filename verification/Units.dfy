/** From normalized elements to splitter units: text chunks, table row ranges, reading order. */
module Units {
  import opened Base
  import opened Text
  import opened Chunks
  import S = Sentence

  datatype ElementType = Heading | Paragraph | List | ListItem | Table | CodeBlock | OtherElement(name: string)

  /** `rows` is empty when the element has no structured rows. */
  datatype Element = Element(id: string, orderIndex: int, suppressed: bool, kind: ElementType, level: Option<int>,
                             text: string, rows: seq<seq<string>>, role: Option<string>, language: Language)

  datatype RowRange = RowRange(from: nat, to: nat)

  datatype Unit = Unit(text: string, id: string, kind: ElementType, hierarchy: seq<string>, language: Language,
                       sentences: nat, words: Words, continuation: nat, context: string, forced: bool,
                       role: Option<string>, rows: Option<RowRange>)

  function UnitTexts(units: seq<Unit>): (r: seq<string>)
    ensures |r| == |units|
  {
    seq(|units|, k requires 0 <= k < |units| => units[k].text)
  }

  lemma UnitTextsConcat(a: seq<Unit>, b: seq<Unit>)
    ensures UnitTexts(a + b) == UnitTexts(a) + UnitTexts(b)
  {
  }

  /** Within the guards, except that a single token or a piece of one may exceed the words. */
  predicate UnitOk(l: Linguistics, p: Profile, u: Unit) {
    && |u.text| <= p.hardMaxChars && u.sentences <= p.hardMaxSentences
    && u.words == l.words(u.language, u.text)
    && (Over(l, p, u.language, u.text) ==> u.forced && (Solid(u.text, l.space) || Blank(u.text, l.space)))
  }

  ghost predicate UnitsOk(l: Linguistics, p: Profile, units: seq<Unit>) {
    forall u :: u in units ==> UnitOk(l, p, u)
  }

  // ---------------------------------------------------------------- text units

  function SentencesOf(l: Linguistics, lang: Language, text: string): seq<string> {
    var sentences := S.Scan(text, 0, 0, l.rules(lang), l.space);
    if sentences == [] then [text] else sentences
  }

  function TextUnit(l: Linguistics, e: Element, hierarchy: seq<string>, context: string, c: Chunk, index: nat,
                    many: bool): Unit {
    Unit(c.text, e.id, e.kind, hierarchy, e.language, c.sentences, l.words(e.language, c.text), index, context,
         c.forced || many, e.role, None)
  }

  function TextUnitsOf(l: Linguistics, e: Element, hierarchy: seq<string>, context: string,
                       chunks: seq<Chunk>): (r: seq<Unit>)
    ensures |r| == |chunks|
  {
    seq(|chunks|, k requires 0 <= k < |chunks| => TextUnit(l, e, hierarchy, context, chunks[k], k, |chunks| > 1))
  }

  method TextUnits(l: Linguistics, p: Profile, e: Element, text: string, hierarchy: seq<string>, context: string)
    returns (r: Option<seq<Unit>>)
    requires l.space('\n')
    ensures var sentences := SentencesOf(l, e.language, text);
            r == if TextFails(l, p, e.language, sentences) then None
                 else Some(TextUnitsOf(l, e, hierarchy, context, Gather(l, p, e.language, [], sentences)))
  {
    var sentences, _ := S.SplitUnicode(text, l.rules(e.language), l.space);
    if sentences == [] {
      sentences := [text];
    }
    var chunks := SentenceChunks(l, p, e.language, sentences);
    if chunks.None? {
      return None;
    }
    var units := NumberChunks(l, e, hierarchy, context, chunks.value);
    return Some(units);
  }

  method NumberChunks(l: Linguistics, e: Element, hierarchy: seq<string>, context: string, chunks: seq<Chunk>)
    returns (units: seq<Unit>)
    ensures units == TextUnitsOf(l, e, hierarchy, context, chunks)
  {
    units := [];
    for index := 0 to |chunks|
      invariant |units| == index
      invariant forall k :: 0 <= k < index ==> units[k] == TextUnitsOf(l, e, hierarchy, context, chunks)[k]
    {
      units := units + [TextUnit(l, e, hierarchy, context, chunks[index], index, |chunks| > 1)];
    }
  }

  /** The scanner's sentences of a trimmed text are trimmed and keep its content. */
  lemma SentencesOk(l: Linguistics, lang: Language, text: string, slices: seq<S.Slice>)
    requires Trimmed(text, l.space)
    requires S.Traced(text, S.Scan(text, 0, 0, l.rules(lang), l.space), slices, |text|, l.space)
    ensures Contents(SentencesOf(l, lang, text), l.space) == Content(text, l.space)
    ensures forall s :: s in SentencesOf(l, lang, text) ==> Trimmed(s, l.space)
  {
    var sentences := S.Scan(text, 0, 0, l.rules(lang), l.space);
    TracedKeepsText(text, sentences, slices, l.space);
    TracedTrimmed(text, sentences, slices, l.space);
    ContentsOne(text, l.space);
    BlankContent(text, l.space);
  }

  lemma TracedKeepsText(text: string, sentences: seq<string>, slices: seq<S.Slice>, space: Space)
    requires S.Traced(text, sentences, slices, |text|, space)
    ensures Contents(sentences, space) == Content(text, space)
  {
    assert text[..|text|] == text;
    S.TracedContent(text, sentences, slices, |text|, space);
  }

  lemma TracedTrimmed(text: string, sentences: seq<string>, slices: seq<S.Slice>, space: Space)
    requires S.Traced(text, sentences, slices, |text|, space)
    ensures forall s :: s in sentences ==> Trimmed(s, space)
  {
    forall s | s in sentences ensures Trimmed(s, space) {
      var k :| 0 <= k < |sentences| && sentences[k] == s;
      assert S.SliceAt(text, sentences, slices, k, space);
    }
  }

  /** The scanner's output is always traced, so the fact above holds of every trimmed text. */
  lemma ScanTraced(text: string, sentences: seq<string>, slices: seq<S.Slice>, start: nat, i: nat, rules: S.Rules,
                   space: Space)
    returns (all: seq<S.Slice>)
    requires space('\n') && start <= i <= |text| && S.Traced(text, sentences, slices, start, space)
    ensures S.Traced(text, sentences + S.Scan(text, start, i, rules, space), all, |text|, space)
    decreases |text| - i, 1
  {
    if i == |text| {
      var last := Strip(text[start..], space);
      assert text[start..] == text[start..|text|];
      all := S.EmitTraced(text, sentences, slices, start, |text|, |text|, space);
      assert sentences + S.Emit([], last) == S.Emit(sentences, last);
    } else if S.ParagraphAt(text, i) {
      var end := S.AfterParagraph(text, i);
      assert end == S.After(text, i, S.NEWLINE) && S.BlankIn(text, i, end, space);
      all := ScanCut(text, sentences, slices, start, i, i, end, rules, space);
    } else if S.IsCut(text, i, rules, space) {
      var cut := S.Reach(text, i, rules);
      all := ScanCut(text, sentences, slices, start, i, cut, S.After(text, cut, space), rules, space);
    } else {
      all := ScanTraced(text, sentences, slices, start, S.Skip(text, i, rules), rules, space);
    }
  }

  lemma ScanCut(text: string, sentences: seq<string>, slices: seq<S.Slice>, start: nat, i: nat, cut: nat, end: nat,
                rules: S.Rules, space: Space)
    returns (all: seq<S.Slice>)
    requires space('\n') && start <= i < end && start <= cut && S.BlankIn(text, cut, end, space)
    requires S.Traced(text, sentences, slices, start, space)
    ensures S.Traced(text, sentences + (S.Emit([], Strip(text[start..cut], space))
                                        + S.Scan(text, end, end, rules, space)), all, |text|, space)
    decreases |text| - i, 0
  {
    var more := S.EmitTraced(text, sentences, slices, start, cut, end, space);
    all := ScanTraced(text, S.Emit(sentences, Strip(text[start..cut], space)), more, end, end, rules, space);
    S.EmitFirst(sentences, Strip(text[start..cut], space), S.Scan(text, end, end, rules, space));
  }

  lemma TextSentences(l: Linguistics, lang: Language, text: string)
    requires Lawful(l) && Trimmed(text, l.space)
    ensures Contents(SentencesOf(l, lang, text), l.space) == Content(text, l.space)
    ensures forall s :: s in SentencesOf(l, lang, text) ==> Trimmed(s, l.space)
  {
    var slices := ScanTraced(text, [], [], 0, 0, l.rules(lang), l.space);
    assert [] + S.Scan(text, 0, 0, l.rules(lang), l.space) == S.Scan(text, 0, 0, l.rules(lang), l.space);
    SentencesOk(l, lang, text, slices);
  }

  ghost predicate OwnUnits(units: seq<Unit>, id: string) {
    forall k :: 0 <= k < |units| ==> units[k].id == id && units[k].continuation == k
  }

  /** Text units keep the text, meet the guards and are numbered. */
  lemma TextUnitsGood(l: Linguistics, p: Profile, e: Element, text: string, hierarchy: seq<string>, context: string)
    requires Lawful(l) && ValidProfile(p) && Trimmed(text, l.space)
             && !TextFails(l, p, e.language, SentencesOf(l, e.language, text))
    ensures var units := TextUnitsOf(l, e, hierarchy, context,
                                     Gather(l, p, e.language, [], SentencesOf(l, e.language, text)));
            && Contents(UnitTexts(units), l.space) == Content(text, l.space)
            && UnitsOk(l, p, units) && OwnUnits(units, e.id)
  {
    var sentences := SentencesOf(l, e.language, text);
    TextSentences(l, e.language, text);
    LongOnesCut(l, p, e.language, sentences);
    GatherContent(l, p, e.language, [], sentences);
    GatherOk(l, p, e.language, [], sentences);
    ChunkUnitsOk(l, p, e, hierarchy, context, Gather(l, p, e.language, [], sentences));
  }

  lemma LongOnesCut(l: Linguistics, p: Profile, lang: Language, sentences: seq<string>)
    requires !TextFails(l, p, lang, sentences) && forall s :: s in sentences ==> Trimmed(s, l.space)
    ensures Sentences(l, p, lang, sentences)
  {
  }

  lemma ChunkUnitsOk(l: Linguistics, p: Profile, e: Element, hierarchy: seq<string>, context: string,
                     chunks: seq<Chunk>)
    requires AllSentenceOk(l, p, e.language, chunks)
    ensures var units := TextUnitsOf(l, e, hierarchy, context, chunks);
            UnitTexts(units) == TextsOf(chunks) && UnitsOk(l, p, units)
  {
    var units := TextUnitsOf(l, e, hierarchy, context, chunks);
    forall u | u in units ensures UnitOk(l, p, u) {
      var k :| 0 <= k < |units| && units[k] == u;
      assert chunks[k] in chunks;
    }
  }

  // ---------------------------------------------------------------- table units

  datatype RowChunk = RowChunk(text: string, from: nat, to: nat, forced: bool)

  function RowText(row: seq<string>): string {
    Join("\t", row)
  }

  function RowTexts(rows: seq<seq<string>>): (r: seq<string>)
    ensures |r| == |rows|
  {
    seq(|rows|, k requires 0 <= k < |rows| => RowText(rows[k]))
  }

  /** The held rows, which end just before row `row`. */
  function ClosedRows(group: seq<string>, row: nat): seq<RowChunk>
    requires |group| <= row
  {
    if group == [] then [] else [RowChunk(Join("\n", group), row - |group|, row - 1, false)]
  }

  function ForcedRow(chunks: seq<string>, row: nat): (r: seq<RowChunk>)
    ensures |r| == |chunks|
  {
    seq(|chunks|, k requires 0 <= k < |chunks| => RowChunk(chunks[k], row, row, true))
  }

  /** Adding the row `x` to the held rows would break a guard. */
  predicate RowBreaks(l: Linguistics, p: Profile, lang: Language, group: seq<string>, x: string) {
    group != [] && Over(l, p, lang, Join("\n", group + [x]))
  }

  /** What the table loop emits at a row, and the rows it then holds. */
  datatype TableStep = TableStep(out: seq<RowChunk>, group: seq<string>)

  /** Row number `row` arrives while `group` holds the rows just before it. */
  function TakeRow(l: Linguistics, p: Profile, lang: Language, group: seq<string>, x: string, row: nat): (r: TableStep)
    requires |group| <= row
    ensures |r.group| <= row + 1
  {
    if Over(l, p, lang, x) then TableStep(ClosedRows(group, row) + ForcedRow(ForceText(l, p, lang, x), row), [])
    else if RowBreaks(l, p, lang, group, x) then TableStep(ClosedRows(group, row), [x])
    else TableStep([], group + [x])
  }

  /** Row ranges still to come when row number `row` is the first of the unread `rest`. */
  function RowChunks(l: Linguistics, p: Profile, lang: Language, group: seq<string>, rest: seq<string>,
                     row: nat): seq<RowChunk>
    requires |group| <= row
    decreases |rest|
  {
    if rest == [] then ClosedRows(group, row)
    else
      var step := TakeRow(l, p, lang, group, rest[0], row);
      step.out + RowChunks(l, p, lang, step.group, rest[1..], row + 1)
  }

  predicate RowsFail(l: Linguistics, p: Profile, lang: Language, rows: seq<string>) {
    exists k :: 0 <= k < |rows| && Over(l, p, lang, rows[k]) && ForceFails(l, p, rows[k])
  }

  method EmitGroup(group: seq<string>, start: nat, end: nat) returns (r: seq<RowChunk>)
    requires |group| <= end && (group != [] ==> start == end - |group|)
    ensures r == ClosedRows(group, end)
  {
    if group == [] {
      return [];
    }
    return [RowChunk(Join("\n", group), start, end - 1, false)];
  }

  /** The table loop before row `row`. */
  ghost predicate Tabling(l: Linguistics, p: Profile, lang: Language, texts: seq<string>, chunks: seq<RowChunk>,
                          group: seq<string>, row: nat) {
    && |group| <= row <= |texts|
    && (forall k :: 0 <= k < row && Over(l, p, lang, texts[k]) ==> !ForceFails(l, p, texts[k]))
    && chunks + RowChunks(l, p, lang, group, texts[row..], row) == RowChunks(l, p, lang, [], texts, 0)
  }

  lemma TablingStep(l: Linguistics, p: Profile, lang: Language, texts: seq<string>, chunks: seq<RowChunk>,
                    group: seq<string>, row: nat)
    requires Tabling(l, p, lang, texts, chunks, group, row) && row < |texts|
    requires Over(l, p, lang, texts[row]) ==> !ForceFails(l, p, texts[row])
    ensures var step := TakeRow(l, p, lang, group, texts[row], row);
            Tabling(l, p, lang, texts, chunks + step.out, step.group, row + 1)
  {
    assert texts[row..][0] == texts[row] && texts[row..][1..] == texts[row + 1..];
    var step := TakeRow(l, p, lang, group, texts[row], row);
    Assoc(chunks, step.out, RowChunks(l, p, lang, step.group, texts[row + 1..], row + 1));
  }

  method TableChunks(l: Linguistics, p: Profile, lang: Language, rows: seq<seq<string>>)
    returns (r: Option<seq<RowChunk>>)
    ensures r == if RowsFail(l, p, lang, RowTexts(rows)) then None
                 else Some(RowChunks(l, p, lang, [], RowTexts(rows), 0))
  {
    ghost var texts := RowTexts(rows);
    assert texts[0..] == texts;
    var chunks: seq<RowChunk>, group: seq<string>, start: nat := [], [], 0;
    for row := 0 to |rows|
      invariant Tabling(l, p, lang, texts, chunks, group, row)
      invariant group != [] ==> start == row - |group|
    {
      var rendered := RowText(rows[row]);
      if Over(l, p, lang, rendered) {
        var forced := ForceTextChunks(l, p, lang, rendered);
        if forced.None? {
          return None;
        }
        TablingStep(l, p, lang, texts, chunks, group, row);
        var closed := EmitGroup(group, start, row);
        chunks := chunks + (closed + ForcedRow(forced.value, row));
        group, start := [], row + 1;
        continue;
      }
      TablingStep(l, p, lang, texts, chunks, group, row);
      if group != [] && Over(l, p, lang, Join("\n", group + [rendered])) {
        var closed := EmitGroup(group, start, row);
        chunks := chunks + closed;
        group, start := [rendered], row;
      } else {
        if group == [] {
          start := row;
        }
        group := group + [rendered];
        assert chunks + [] == chunks;
      }
    }
    var closed := EmitGroup(group, start, |rows|);
    assert texts[|rows|..] == [];
    return Some(chunks + closed);
  }

  /** `next` takes up where `prev` ended: at the following row, or inside the same oversized one. */
  predicate Follows(prev: RowChunk, next: RowChunk) {
    next.from == prev.to + 1 || (prev.forced && next.forced && prev.from == prev.to == next.from == next.to)
  }

  predicate Linked(chunks: seq<RowChunk>, k: nat)
    requires k < |chunks|
  {
    chunks[k].from <= chunks[k].to && (k > 0 ==> Follows(chunks[k - 1], chunks[k]))
  }

  /** The ranges run from row `a` through row `b - 1` without a gap. */
  ghost predicate Covers(chunks: seq<RowChunk>, a: nat, b: nat) {
    if chunks == [] then a == b
    else
      && chunks[0].from == a && chunks[|chunks| - 1].to + 1 == b
      && (forall k: nat :: k < |chunks| ==> Linked(chunks, k))
  }

  lemma CoversConcat(x: seq<RowChunk>, y: seq<RowChunk>, a: nat, b: nat, c: nat)
    requires Covers(x, a, b) && Covers(y, b, c)
    ensures Covers(x + y, a, c)
  {
    if x == [] {
      assert x + y == y;
    } else if y == [] {
      assert x + y == x;
    } else {
      var z := x + y;
      forall k: nat | k < |z| ensures Linked(z, k) {
        if k < |x| {
          assert Linked(x, k);
        } else {
          assert Linked(y, k - |x|) && Linked(x, |x| - 1);
        }
      }
    }
  }

  lemma ForcedRowCovers(chunks: seq<string>, row: nat)
    requires chunks != []
    ensures Covers(ForcedRow(chunks, row), row, row + 1)
  {
  }

  lemma TakeRowCovers(l: Linguistics, p: Profile, lang: Language, group: seq<string>, x: string, row: nat)
    requires Lawful(l) && |group| <= row && RowCuttable(l, p, lang, x)
    ensures var step := TakeRow(l, p, lang, group, x, row); Covers(step.out, row - |group|, row + 1 - |step.group|)
  {
    if Over(l, p, lang, x) {
      ForceTextNonEmpty(l, p, lang, x);
      HeldForcedCovers(group, ForceText(l, p, lang, x), row);
    } else {
      HeldCovers(group, row);
    }
  }

  lemma ForceTextNonEmpty(l: Linguistics, p: Profile, lang: Language, x: string)
    requires Lawful(l) && x != [] && !ForceFails(l, p, x)
    ensures ForceText(l, p, lang, x) != []
  {
    ForceTextOk(l, p, lang, x);
  }

  lemma HeldCovers(group: seq<string>, row: nat)
    requires |group| <= row
    ensures Covers(ClosedRows(group, row), row - |group|, row)
  {
  }

  lemma HeldForcedCovers(group: seq<string>, chunks: seq<string>, row: nat)
    requires |group| <= row && chunks != []
    ensures Covers(ClosedRows(group, row) + ForcedRow(chunks, row), row - |group|, row + 1)
  {
    HeldCovers(group, row);
    ForcedRowCovers(chunks, row);
    CoversConcat(ClosedRows(group, row), ForcedRow(chunks, row), row - |group|, row, row + 1);
  }

  /** Row splitting covers every row, from the first held one to the last. */
  lemma RowChunksCover(l: Linguistics, p: Profile, lang: Language, group: seq<string>, rest: seq<string>, row: nat)
    requires Lawful(l) && |group| <= row && RowsCuttable(l, p, lang, rest)
    ensures Covers(RowChunks(l, p, lang, group, rest, row), row - |group|, row + |rest|)
  {
    RowChunksReach(l, p, lang, group, rest, row, row - |group|, row + |rest|);
  }

  lemma {:induction false} RowChunksReach(l: Linguistics, p: Profile, lang: Language, group: seq<string>,
                                          rest: seq<string>, row: nat, a: nat, b: nat)
    requires Lawful(l) && row == a + |group| && b == row + |rest| && RowsCuttable(l, p, lang, rest)
    ensures Covers(RowChunks(l, p, lang, group, rest, row), a, b)
    decreases |rest|
  {
    if rest == [] {
      CoverNoMore(l, p, lang, group, row);
    } else {
      var step := TakeRow(l, p, lang, group, rest[0], row);
      RowsCuttableTail(l, p, lang, rest);
      RowChunksReach(l, p, lang, step.group, rest[1..], row + 1, row + 1 - |step.group|, b);
      CoverStep(l, p, lang, group, rest[0], RowChunks(l, p, lang, step.group, rest[1..], row + 1), row, b);
      RowChunksUnfold(l, p, lang, group, rest, row);
    }
  }

  lemma CoverNoMore(l: Linguistics, p: Profile, lang: Language, group: seq<string>, row: nat)
    requires |group| <= row
    ensures Covers(RowChunks(l, p, lang, group, [], row), row - |group|, row)
  {
    HeldCovers(group, row);
  }

  lemma CoverStep(l: Linguistics, p: Profile, lang: Language, group: seq<string>, x: string, more: seq<RowChunk>,
                  row: nat, b: nat)
    requires Lawful(l) && |group| <= row && RowCuttable(l, p, lang, x)
    requires Covers(more, row + 1 - |TakeRow(l, p, lang, group, x, row).group|, b)
    ensures Covers(TakeRow(l, p, lang, group, x, row).out + more, row - |group|, b)
  {
    var step := TakeRow(l, p, lang, group, x, row);
    TakeRowCovers(l, p, lang, group, x, row);
    CoversConcat(step.out, more, row - |group|, row + 1 - |step.group|, b);
  }

  /** Oversized rows are non-empty texts that can be cut. */
  ghost predicate RowsCuttable(l: Linguistics, p: Profile, lang: Language, rows: seq<string>) {
    forall k :: 0 <= k < |rows| ==> RowCuttable(l, p, lang, rows[k])
  }

  predicate RowCuttable(l: Linguistics, p: Profile, lang: Language, x: string) {
    Over(l, p, lang, x) ==> x != [] && !ForceFails(l, p, x)
  }

  lemma RowsCuttableTail(l: Linguistics, p: Profile, lang: Language, rows: seq<string>)
    requires RowsCuttable(l, p, lang, rows) && rows != []
    ensures RowCuttable(l, p, lang, rows[0]) && RowsCuttable(l, p, lang, rows[1..])
  {
    forall k | 0 <= k < |rows| - 1 ensures RowCuttable(l, p, lang, rows[1..][k]) {
      assert rows[1..][k] == rows[k + 1];
    }
  }

  function RowChunkTexts(chunks: seq<RowChunk>): (r: seq<string>)
    ensures |r| == |chunks|
  {
    seq(|chunks|, k requires 0 <= k < |chunks| => chunks[k].text)
  }

  lemma RowChunkTextsConcat(a: seq<RowChunk>, b: seq<RowChunk>)
    ensures RowChunkTexts(a + b) == RowChunkTexts(a) + RowChunkTexts(b)
  {
  }

  lemma ClosedRowsContent(group: seq<string>, row: nat, space: Space)
    requires space('\n') && |group| <= row
    ensures Contents(RowChunkTexts(ClosedRows(group, row)), space) == Contents(group, space)
  {
    if group != [] {
      assert RowChunkTexts(ClosedRows(group, row)) == [Join("\n", group)];
      ContentsOne(Join("\n", group), space);
      JoinContent("\n", group, space);
    }
  }

  lemma TakeRowContent(l: Linguistics, p: Profile, lang: Language, group: seq<string>, x: string, row: nat)
    requires Lawful(l) && |group| <= row && RowCuttable(l, p, lang, x)
    ensures var step := TakeRow(l, p, lang, group, x, row);
            Contents(RowChunkTexts(step.out), l.space) + Contents(step.group, l.space)
              == Contents(group, l.space) + Content(x, l.space)
  {
    ClosedRowsContent(group, row, l.space);
    if Over(l, p, lang, x) {
      var chunks := ForceText(l, p, lang, x);
      ForceTextOk(l, p, lang, x);
      assert RowChunkTexts(ForcedRow(chunks, row)) == chunks;
      RowChunkTextsConcat(ClosedRows(group, row), ForcedRow(chunks, row));
      ContentsConcat(RowChunkTexts(ClosedRows(group, row)), chunks, l.space);
    } else {
      ContentsOne(x, l.space);
      ContentsSnoc(group, x, l.space);
    }
  }

  lemma {:induction false} RowChunksContent(l: Linguistics, p: Profile, lang: Language, group: seq<string>,
                                            rest: seq<string>, row: nat)
    requires Lawful(l) && |group| <= row && RowsCuttable(l, p, lang, rest)
    ensures Contents(RowChunkTexts(RowChunks(l, p, lang, group, rest, row)), l.space)
            == Contents(group, l.space) + Contents(rest, l.space)
    decreases |rest|
  {
    if rest == [] {
      ClosedRowsContent(group, row, l.space);
      assert Contents(group, l.space) + [] == Contents(group, l.space);
    } else {
      var step := TakeRow(l, p, lang, group, rest[0], row);
      var more := RowChunks(l, p, lang, step.group, rest[1..], row + 1);
      RowsCuttableTail(l, p, lang, rest);
      TakeRowContent(l, p, lang, group, rest[0], row);
      RowChunksContent(l, p, lang, step.group, rest[1..], row + 1);
      RowChunksUnfold(l, p, lang, group, rest, row);
      RowContentStep(step.out, more, step.group, group, rest, l.space);
    }
  }

  lemma RowChunksUnfold(l: Linguistics, p: Profile, lang: Language, group: seq<string>, rest: seq<string>, row: nat)
    requires rest != [] && |group| <= row
    ensures var step := TakeRow(l, p, lang, group, rest[0], row);
            RowChunks(l, p, lang, group, rest, row) == step.out + RowChunks(l, p, lang, step.group, rest[1..], row + 1)
  {
  }

  lemma RowContentStep(out: seq<RowChunk>, more: seq<RowChunk>, kept: seq<string>, group: seq<string>,
                       rest: seq<string>, space: Space)
    requires rest != []
    requires Contents(RowChunkTexts(out), space) + Contents(kept, space)
             == Contents(group, space) + Content(rest[0], space)
    requires Contents(RowChunkTexts(more), space) == Contents(kept, space) + Contents(rest[1..], space)
    ensures Contents(RowChunkTexts(out + more), space) == Contents(group, space) + Contents(rest, space)
  {
    RowContentsConcat(out, more, space);
    ContentsUncons(rest, space);
    Exchange(Contents(RowChunkTexts(out), space), Contents(kept, space), Contents(rest[1..], space),
             Contents(group, space), Content(rest[0], space));
  }

  lemma RowContentsConcat(a: seq<RowChunk>, b: seq<RowChunk>, space: Space)
    ensures Contents(RowChunkTexts(a + b), space)
            == Contents(RowChunkTexts(a), space) + Contents(RowChunkTexts(b), space)
  {
    RowChunkTextsConcat(a, b);
    ContentsConcat(RowChunkTexts(a), RowChunkTexts(b), space);
  }

  lemma ContentsUncons(rest: seq<string>, space: Space)
    requires rest != []
    ensures Contents(rest, space) == Content(rest[0], space) + Contents(rest[1..], space)
  {
    assert rest == [rest[0]] + rest[1..];
    HeadContents(rest[0], rest[1..], space);
  }

  lemma Exchange<T>(a: seq<T>, b: seq<T>, c: seq<T>, d: seq<T>, e: seq<T>)
    requires a + b == d + e
    ensures a + (b + c) == d + (e + c)
  {
    Assoc(a, b, c);
    Assoc(d, e, c);
  }

  predicate RowChunkOk(l: Linguistics, p: Profile, lang: Language, c: RowChunk) {
    if c.forced then ChunkOk(l, p, lang, c.text) else !Over(l, p, lang, c.text)
  }

  ghost predicate AllRowsOk(l: Linguistics, p: Profile, lang: Language, chunks: seq<RowChunk>) {
    forall c :: c in chunks ==> RowChunkOk(l, p, lang, c)
  }

  lemma ForcedRowOk(l: Linguistics, p: Profile, lang: Language, x: string, row: nat)
    requires Lawful(l) && x != [] && !ForceFails(l, p, x)
    ensures AllRowsOk(l, p, lang, ForcedRow(ForceText(l, p, lang, x), row))
  {
    ForceTextOk(l, p, lang, x);
    var chunks := ForceText(l, p, lang, x);
    forall c | c in ForcedRow(chunks, row) ensures RowChunkOk(l, p, lang, c) {
      var k :| 0 <= k < |chunks| && c == ForcedRow(chunks, row)[k];
      assert chunks[k] in chunks;
    }
  }

  lemma TakeRowOk(l: Linguistics, p: Profile, lang: Language, group: seq<string>, x: string, row: nat)
    requires Lawful(l) && |group| <= row && RowCuttable(l, p, lang, x) && AllRowsOk(l, p, lang, ClosedRows(group, row))
    ensures var step := TakeRow(l, p, lang, group, x, row);
            AllRowsOk(l, p, lang, step.out) && AllRowsOk(l, p, lang, ClosedRows(step.group, row + 1))
  {
    JoinOne("\n", x);
    if Over(l, p, lang, x) {
      ForcedRowOk(l, p, lang, x, row);
    } else if group == [] {
      assert group + [x] == [x];
    }
  }

  lemma {:induction false} RowChunksOk(l: Linguistics, p: Profile, lang: Language, group: seq<string>,
                                       rest: seq<string>, row: nat)
    requires Lawful(l) && |group| <= row && RowsCuttable(l, p, lang, rest)
             && AllRowsOk(l, p, lang, ClosedRows(group, row))
    ensures AllRowsOk(l, p, lang, RowChunks(l, p, lang, group, rest, row))
    decreases |rest|
  {
    if rest != [] {
      RowsCuttableTail(l, p, lang, rest);
      TakeRowOk(l, p, lang, group, rest[0], row);
      RowChunksOk(l, p, lang, TakeRow(l, p, lang, group, rest[0], row).group, rest[1..], row + 1);
    }
  }

  function TableContext(p: Profile, rows: seq<seq<string>>, index: nat): string
    requires rows != []
  {
    if index > 0 && p.repeatTableHeader then "TABLE HEADER\n" + RowText(rows[0]) else ""
  }

  function TableUnit(l: Linguistics, p: Profile, e: Element, hierarchy: seq<string>, c: RowChunk, index: nat): Unit
    requires e.rows != []
  {
    Unit(c.text, e.id, Table, hierarchy, e.language, 0, l.words(e.language, c.text), index,
         TableContext(p, e.rows, index), c.forced || index > 0, e.role, Some(RowRange(c.from, c.to)))
  }

  function TableUnitsOf(l: Linguistics, p: Profile, e: Element, hierarchy: seq<string>,
                        chunks: seq<RowChunk>): (r: seq<Unit>)
    requires e.rows != []
    ensures |r| == |chunks|
  {
    seq(|chunks|, k requires 0 <= k < |chunks| => TableUnit(l, p, e, hierarchy, chunks[k], k))
  }

  method TableUnits(l: Linguistics, p: Profile, e: Element, hierarchy: seq<string>) returns (r: Option<seq<Unit>>)
    requires e.rows != []
    ensures var texts := RowTexts(e.rows);
            r == if RowsFail(l, p, e.language, texts) then None
                 else Some(TableUnitsOf(l, p, e, hierarchy, RowChunks(l, p, e.language, [], texts, 0)))
  {
    var chunks := TableChunks(l, p, e.language, e.rows);
    if chunks.None? {
      return None;
    }
    var units := NumberRows(l, p, e, hierarchy, chunks.value);
    return Some(units);
  }

  method NumberRows(l: Linguistics, p: Profile, e: Element, hierarchy: seq<string>, chunks: seq<RowChunk>)
    returns (units: seq<Unit>)
    requires e.rows != []
    ensures units == TableUnitsOf(l, p, e, hierarchy, chunks)
  {
    units := [];
    for index := 0 to |chunks|
      invariant |units| == index
      invariant forall k :: 0 <= k < index ==> units[k] == TableUnitsOf(l, p, e, hierarchy, chunks)[k]
    {
      units := units + [TableUnit(l, p, e, hierarchy, chunks[index], index)];
    }
  }

  lemma OversizedNonEmpty(l: Linguistics, p: Profile, lang: Language, rows: seq<string>)
    requires Lawful(l) && !RowsFail(l, p, lang, rows)
    ensures RowsCuttable(l, p, lang, rows)
  {
    forall k | 0 <= k < |rows| ensures RowCuttable(l, p, lang, rows[k]) {
    }
  }

  /** Table units keep the rows, meet the guards, are numbered and cover every row. */
  lemma TableUnitsGood(l: Linguistics, p: Profile, e: Element, hierarchy: seq<string>)
    requires Lawful(l) && ValidProfile(p) && e.rows != [] && !RowsFail(l, p, e.language, RowTexts(e.rows))
    ensures var chunks := RowChunks(l, p, e.language, [], RowTexts(e.rows), 0);
            var units := TableUnitsOf(l, p, e, hierarchy, chunks);
            && Covers(chunks, 0, |e.rows|)
            && Contents(UnitTexts(units), l.space) == Contents(RowTexts(e.rows), l.space)
            && UnitsOk(l, p, units) && OwnUnits(units, e.id)
            && (forall k :: 0 <= k < |units| ==> units[k].rows == Some(RowRange(chunks[k].from, chunks[k].to)))
  {
    var texts := RowTexts(e.rows);
    var chunks := RowChunks(l, p, e.language, [], texts, 0);
    OversizedNonEmpty(l, p, e.language, texts);
    RowChunksCover(l, p, e.language, [], texts, 0);
    RowChunksContent(l, p, e.language, [], texts, 0);
    RowChunksOk(l, p, e.language, [], texts, 0);
    RowUnitsOk(l, p, e, hierarchy, chunks);
  }

  lemma RowUnitsOk(l: Linguistics, p: Profile, e: Element, hierarchy: seq<string>, chunks: seq<RowChunk>)
    requires e.rows != [] && AllRowsOk(l, p, e.language, chunks)
    ensures var units := TableUnitsOf(l, p, e, hierarchy, chunks);
            UnitTexts(units) == RowChunkTexts(chunks) && UnitsOk(l, p, units)
  {
    var units := TableUnitsOf(l, p, e, hierarchy, chunks);
    forall u | u in units ensures UnitOk(l, p, u) {
      var k :| 0 <= k < |units| && units[k] == u;
      assert chunks[k] in chunks;
    }
  }
}
