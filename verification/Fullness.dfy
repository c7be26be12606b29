/** The splitter's four cutting loops leave nothing out that would still have fitted: word
    pieces from clusters, forced chunks from words, text chunks from sentences, row ranges
    from rows. Each result is tied to the one full division of its input. */
module Fullness {
  import opened Base
  import opened Text
  import opened Chunks
  import opened Units
  import opened Filling

  // ---------------------------------------------------------------- clusters to pieces of a word

  function NeverLong<T>(): T -> bool {
    (_: T) => false
  }

  function ClustersOver(hard: nat): seq<string> -> bool {
    (xs: seq<string>) => |Join([], xs)| > hard
  }

  function Joined(sep: string, pieces: seq<Piece<string>>): (r: seq<string>)
    ensures |r| == |pieces|
  {
    seq(|pieces|, k requires 0 <= k < |pieces| => Join(sep, pieces[k].items))
  }

  lemma JoinedConcat(sep: string, a: seq<Piece<string>>, b: seq<Piece<string>>)
    ensures Joined(sep, a + b) == Joined(sep, a) + Joined(sep, b)
  {
  }

  lemma {:induction false} PackFills(current: seq<string>, rest: seq<string>, hard: nat)
    ensures Pack(current, rest, hard) == Joined([], Fill(current, rest, NeverLong(), ClustersOver(hard)))
    decreases |rest|
  {
    if rest != [] {
      var x, tail := rest[0], rest[1..];
      JoinEmptyLength(current, x);
      if current != [] && ClustersOver(hard)(current + [x]) {
        PackFills([x], tail, hard);
        JoinedConcat([], Hold(current), Fill([x], tail, NeverLong(), ClustersOver(hard)));
        assert Joined([], Hold(current)) == [Join([], current)];
      } else {
        PackFills(current + [x], tail, hard);
      }
    }
  }

  /** A word is cut into runs of clusters, each with no room for the next cluster. */
  lemma WordPiecesFull(l: Linguistics, p: Profile, word: string) returns (pieces: seq<Piece<string>>)
    requires l.clusters(word) != []
    ensures Filled(pieces, l.clusters(word), NeverLong(), ClustersOver(p.hardMaxChars))
    ensures PackText(l, p, word) == Joined([], pieces)
  {
    var clusters := l.clusters(word);
    pieces := Fill([], clusters, NeverLong(), ClustersOver(p.hardMaxChars));
    FillIsFilled([], clusters, NeverLong(), ClustersOver(p.hardMaxChars));
    assert [] + clusters == clusters;
    PackFills([], clusters, p.hardMaxChars);
  }

  // ---------------------------------------------------------------- words to forced chunks

  function LongWord(p: Profile): string -> bool {
    (w: string) => |w| > p.hardMaxChars
  }

  /** Items joined by `sep` break the character or the word guard. */
  function JoinedOver(l: Linguistics, p: Profile, lang: Language, sep: string): seq<string> -> bool {
    (xs: seq<string>) => Over(l, p, lang, Join(sep, xs))
  }

  /** The texts of pieces: a long word is cut by clusters, the others are joined. */
  function WordChunks(l: Linguistics, p: Profile, pieces: seq<Piece<string>>): seq<string> {
    Each(pieces, WordChunk(l, p))
  }

  function WordChunk(l: Linguistics, p: Profile): Piece<string> -> seq<string> {
    (piece: Piece<string>) =>
      if piece.long && piece.items != [] then PackText(l, p, piece.items[0]) else [Join(" ", piece.items)]
  }

  lemma WordChunksConcat(l: Linguistics, p: Profile, a: seq<Piece<string>>, b: seq<Piece<string>>)
    ensures WordChunks(l, p, a + b) == WordChunks(l, p, a) + WordChunks(l, p, b)
  {
    EachConcat(a, b, WordChunk(l, p));
  }

  lemma WordChunksOne(l: Linguistics, p: Profile, piece: Piece<string>)
    requires piece.items != []
    ensures WordChunks(l, p, [piece])
         == if piece.long then PackText(l, p, piece.items[0]) else [Join(" ", piece.items)]
  {
    EachOne(piece, WordChunk(l, p));
  }

  lemma WordChunksHold(l: Linguistics, p: Profile, current: seq<string>)
    ensures WordChunks(l, p, Hold(current)) == Held(current)
  {
    if current != [] {
      WordChunksOne(l, p, Piece(current, false));
    }
  }

  lemma ForceLongFills(l: Linguistics, p: Profile, current: seq<string>, x: string, more: seq<Piece<string>>)
    ensures WordChunks(l, p, Hold(current) + ([Piece([x], true)] + more))
         == Held(current) + PackText(l, p, x) + WordChunks(l, p, more)
  {
    WordChunksHold(l, p, current);
    WordChunksConcat(l, p, Hold(current), [Piece([x], true)] + more);
    WordChunksConcat(l, p, [Piece([x], true)], more);
    WordChunksOne(l, p, Piece([x], true));
    Assoc(Held(current), PackText(l, p, x), WordChunks(l, p, more));
  }

  lemma ForceBreakFills(l: Linguistics, p: Profile, current: seq<string>, more: seq<Piece<string>>)
    ensures WordChunks(l, p, Hold(current) + more) == Held(current) + WordChunks(l, p, more)
  {
    WordChunksHold(l, p, current);
    WordChunksConcat(l, p, Hold(current), more);
  }

  lemma {:induction false} ForceFills(l: Linguistics, p: Profile, lang: Language, current: seq<string>,
                                      rest: seq<string>)
    ensures Force(l, p, lang, current, rest)
         == WordChunks(l, p, Fill(current, rest, LongWord(p), JoinedOver(l, p, lang, " ")))
    decreases |rest|
  {
    var long, over := LongWord(p), JoinedOver(l, p, lang, " ");
    if rest == [] {
      WordChunksHold(l, p, current);
    } else {
      var x, tail := rest[0], rest[1..];
      assert rest == [x] + tail;
      if |x| > p.hardMaxChars {
        FillLong(current, x, tail, long, over);
        ForceFills(l, p, lang, [], tail);
        ForceLongFills(l, p, current, x, Fill([], tail, long, over));
      } else if current != [] && Over(l, p, lang, Join(" ", current + [x])) {
        FillBreak(current, x, tail, long, over);
        ForceFills(l, p, lang, [x], tail);
        ForceBreakFills(l, p, current, Fill([x], tail, long, over));
      } else {
        FillJoin(current, x, tail, long, over);
        ForceFills(l, p, lang, current + [x], tail);
      }
    }
  }

  /** A forced text is cut into runs of its words, each with no room for the next word. */
  lemma ForcedChunksFull(l: Linguistics, p: Profile, lang: Language, text: string) returns (pieces: seq<Piece<string>>)
    requires Tokens(text, l.space) != []
    ensures Filled(pieces, Tokens(text, l.space), LongWord(p), JoinedOver(l, p, lang, " "))
    ensures ForceText(l, p, lang, text) == WordChunks(l, p, pieces)
  {
    var words := Tokens(text, l.space);
    pieces := Fill([], words, LongWord(p), JoinedOver(l, p, lang, " "));
    FillIsFilled([], words, LongWord(p), JoinedOver(l, p, lang, " "));
    assert [] + words == words;
    ForceFills(l, p, lang, [], words);
  }

  // ---------------------------------------------------------------- sentences to chunks

  function LongText(l: Linguistics, p: Profile, lang: Language): string -> bool {
    (s: string) => Over(l, p, lang, s)
  }

  /** Sentences joined by blanks break the character, the word or the sentence guard. */
  function SentencesOver(l: Linguistics, p: Profile, lang: Language): seq<string> -> bool {
    (xs: seq<string>) => Over(l, p, lang, Join(" ", xs)) || |xs| > p.hardMaxSentences
  }

  ghost predicate AllTrimmed(xs: seq<string>, space: Space) {
    forall k :: 0 <= k < |xs| ==> Trimmed(xs[k], space)
  }

  lemma {:induction false} JoinTrimmed(sep: string, xs: seq<string>, space: Space)
    requires xs != [] && AllTrimmed(xs, space)
    ensures Trimmed(Join(sep, xs), space)
  {
    var n := |xs| - 1;
    if n > 0 {
      JoinTrimmed(sep, xs[..n], space);
      var init, last := Join(sep, xs[..n]), xs[n];
      assert Join(sep, xs) == init + sep + last;
      assert (init + sep + last)[0] == init[0];
      assert (init + sep + last)[|init + sep + last| - 1] == last[|last| - 1];
    }
  }

  lemma CandidateIsJoin(l: Linguistics, xs: seq<string>)
    requires xs != [] && AllTrimmed(xs, l.space)
    ensures Candidate(l, xs) == Join(" ", xs)
  {
    JoinTrimmed(" ", xs, l.space);
    StripTrimmed(Join(" ", xs), l.space);
  }

  /** The chunks of pieces: a long sentence is forced, the others are joined and counted. */
  function TextChunks(l: Linguistics, p: Profile, lang: Language, pieces: seq<Piece<string>>): seq<Chunk> {
    Each(pieces, TextChunk(l, p, lang))
  }

  function TextChunk(l: Linguistics, p: Profile, lang: Language): Piece<string> -> seq<Chunk> {
    (piece: Piece<string>) =>
      if piece.long && piece.items != [] then Forced(ForceText(l, p, lang, piece.items[0]))
      else [Chunk(Join(" ", piece.items), |piece.items|, false)]
  }

  lemma TextChunksConcat(l: Linguistics, p: Profile, lang: Language, a: seq<Piece<string>>, b: seq<Piece<string>>)
    ensures TextChunks(l, p, lang, a + b) == TextChunks(l, p, lang, a) + TextChunks(l, p, lang, b)
  {
    EachConcat(a, b, TextChunk(l, p, lang));
  }

  lemma TextChunksOne(l: Linguistics, p: Profile, lang: Language, piece: Piece<string>)
    requires piece.items != []
    ensures TextChunks(l, p, lang, [piece])
         == if piece.long then Forced(ForceText(l, p, lang, piece.items[0]))
            else [Chunk(Join(" ", piece.items), |piece.items|, false)]
  {
    EachOne(piece, TextChunk(l, p, lang));
  }

  lemma TextChunksHold(l: Linguistics, p: Profile, lang: Language, current: seq<string>)
    requires AllTrimmed(current, l.space)
    ensures TextChunks(l, p, lang, Hold(current)) == Closed(l, current)
  {
    if current != [] {
      TextChunksOne(l, p, lang, Piece(current, false));
      CandidateIsJoin(l, current);
    }
  }

  lemma BreaksIsOver(l: Linguistics, p: Profile, lang: Language, current: seq<string>, s: string)
    requires AllTrimmed(current, l.space) && Trimmed(s, l.space)
    ensures Breaks(l, p, lang, current, s) <==> current != [] && SentencesOver(l, p, lang)(current + [s])
  {
    var xs := current + [s];
    CandidateIsJoin(l, xs);
  }

  lemma GatherIs(l: Linguistics, p: Profile, lang: Language, current: seq<string>, x: string, tail: seq<string>)
    ensures Gather(l, p, lang, current, [x] + tail)
         == if Over(l, p, lang, x) then
              Closed(l, current) + Forced(ForceText(l, p, lang, x)) + Gather(l, p, lang, [], tail)
            else if Breaks(l, p, lang, current, x) then Closed(l, current) + Gather(l, p, lang, [x], tail)
            else Gather(l, p, lang, current + [x], tail)
  {
    assert ([x] + tail)[1..] == tail;
  }

  /** The chunks `Fill` makes of what is held and what is unread. */
  function FilledChunks(l: Linguistics, p: Profile, lang: Language, current: seq<string>,
                        rest: seq<string>): seq<Chunk> {
    TextChunks(l, p, lang, Fill(current, rest, LongText(l, p, lang), SentencesOver(l, p, lang)))
  }

  lemma FilledChunksIs(l: Linguistics, p: Profile, lang: Language, current: seq<string>, x: string, tail: seq<string>)
    requires AllTrimmed(current, l.space) && Trimmed(x, l.space)
    ensures FilledChunks(l, p, lang, current, [x] + tail)
         == if Over(l, p, lang, x) then
              Closed(l, current) + Forced(ForceText(l, p, lang, x)) + FilledChunks(l, p, lang, [], tail)
            else if Breaks(l, p, lang, current, x) then Closed(l, current) + FilledChunks(l, p, lang, [x], tail)
            else FilledChunks(l, p, lang, current + [x], tail)
  {
    var long, over := LongText(l, p, lang), SentencesOver(l, p, lang);
    BreaksIsOver(l, p, lang, current, x);
    if Over(l, p, lang, x) {
      FillLong(current, x, tail, long, over);
      GatherLong(l, p, lang, current, x, Fill([], tail, long, over));
    } else if Breaks(l, p, lang, current, x) {
      FillBreak(current, x, tail, long, over);
      GatherBreak(l, p, lang, current, Fill([x], tail, long, over));
    } else {
      FillJoin(current, x, tail, long, over);
    }
  }

  lemma GatherFillsStep(l: Linguistics, p: Profile, lang: Language, current: seq<string>, x: string,
                        tail: seq<string>)
    requires AllTrimmed(current, l.space) && Trimmed(x, l.space)
    requires var next := if Over(l, p, lang, x) then [] else if Breaks(l, p, lang, current, x) then [x]
                         else current + [x];
             Gather(l, p, lang, next, tail) == FilledChunks(l, p, lang, next, tail)
    ensures Gather(l, p, lang, current, [x] + tail) == FilledChunks(l, p, lang, current, [x] + tail)
  {
    GatherIs(l, p, lang, current, x, tail);
    FilledChunksIs(l, p, lang, current, x, tail);
  }

  lemma {:induction false} GatherFills(l: Linguistics, p: Profile, lang: Language, current: seq<string>,
                                       rest: seq<string>)
    requires AllTrimmed(current, l.space) && AllTrimmed(rest, l.space)
    ensures Gather(l, p, lang, current, rest) == FilledChunks(l, p, lang, current, rest)
    decreases |rest|
  {
    if rest == [] {
      TextChunksHold(l, p, lang, current);
    } else {
      var x, tail := rest[0], rest[1..];
      assert rest == [x] + tail;
      var next := if Over(l, p, lang, x) then [] else if Breaks(l, p, lang, current, x) then [x] else current + [x];
      assert AllTrimmed(next, l.space);
      GatherFills(l, p, lang, next, tail);
      GatherFillsStep(l, p, lang, current, x, tail);
    }
  }

  lemma GatherBreak(l: Linguistics, p: Profile, lang: Language, current: seq<string>, more: seq<Piece<string>>)
    requires AllTrimmed(current, l.space)
    ensures TextChunks(l, p, lang, Hold(current) + more) == Closed(l, current) + TextChunks(l, p, lang, more)
  {
    TextChunksHold(l, p, lang, current);
    TextChunksConcat(l, p, lang, Hold(current), more);
  }

  lemma GatherLong(l: Linguistics, p: Profile, lang: Language, current: seq<string>, x: string,
                   more: seq<Piece<string>>)
    requires AllTrimmed(current, l.space)
    ensures Closed(l, current) + Forced(ForceText(l, p, lang, x)) + TextChunks(l, p, lang, more)
         == TextChunks(l, p, lang, Hold(current) + ([Piece([x], true)] + more))
  {
    TextChunksHold(l, p, lang, current);
    TextChunksConcat(l, p, lang, Hold(current), [Piece([x], true)] + more);
    TextChunksConcat(l, p, lang, [Piece([x], true)], more);
    TextChunksOne(l, p, lang, Piece([x], true));
    Assoc(Closed(l, current), Forced(ForceText(l, p, lang, x)), TextChunks(l, p, lang, more));
  }

  /** Sentences are divided into consecutive runs, and each run that another short sentence
      follows has no room for it: with it the joined text would exceed the characters or the
      words, or the run the number of sentences. */
  lemma SentenceChunksFull(l: Linguistics, p: Profile, lang: Language, sentences: seq<string>)
    returns (pieces: seq<Piece<string>>)
    requires AllTrimmed(sentences, l.space)
    ensures Filled(pieces, sentences, LongText(l, p, lang), SentencesOver(l, p, lang))
    ensures Gather(l, p, lang, [], sentences) == TextChunks(l, p, lang, pieces)
  {
    pieces := Fill([], sentences, LongText(l, p, lang), SentencesOver(l, p, lang));
    FillIsFilled([], sentences, LongText(l, p, lang), SentencesOver(l, p, lang));
    assert [] + sentences == sentences;
    GatherFills(l, p, lang, [], sentences);
  }

  /** A text within the character and the word guard. */
  ghost predicate Fitting(l: Linguistics, p: Profile, lang: Language, t: string) {
    |t| <= p.hardMaxChars && (l.words(lang, t).reliable ==> l.words(lang, t).count <= p.hardMaxWords)
  }

  /** Sentences that fit one by one, and joined up to each of them, make one unit, which is not
      forced. */
  lemma FittingTextIsOneUnit(l: Linguistics, p: Profile, e: Element, hierarchy: seq<string>, context: string,
                             sentences: seq<string>)
    requires 0 < |sentences| <= p.hardMaxSentences && AllTrimmed(sentences, l.space)
    requires forall k :: 0 <= k < |sentences| ==> Fitting(l, p, e.language, sentences[k])
    requires forall j :: 1 < j <= |sentences| ==> Fitting(l, p, e.language, Join(" ", sentences[..j]))
    ensures var units := TextUnitsOf(l, e, hierarchy, context, Gather(l, p, e.language, [], sentences));
            && |units| == 1 && units[0].text == Join(" ", sentences) && units[0].sentences == |sentences|
            && !units[0].forced && units[0].continuation == 0
  {
    GatherFills(l, p, e.language, [], sentences);
    OnePiece(sentences, LongText(l, p, e.language), SentencesOver(l, p, e.language));
    TextChunksOne(l, p, e.language, Piece(sentences, false));
  }

  // ---------------------------------------------------------------- rows to ranges

  /** The ranges of pieces, the first of which starts at row `row`. */
  function RowRanges(l: Linguistics, p: Profile, lang: Language, pieces: seq<Piece<string>>, row: nat): seq<RowChunk> {
    if pieces == [] then []
    else RowRange(l, p, lang, pieces[0], row) + RowRanges(l, p, lang, pieces[1..], row + |pieces[0].items|)
  }

  function RowRange(l: Linguistics, p: Profile, lang: Language, piece: Piece<string>, row: nat): seq<RowChunk> {
    if piece.items == [] then []
    else if piece.long then ForcedRow(ForceText(l, p, lang, piece.items[0]), row)
    else [RowChunk(Join("\n", piece.items), row, row + |piece.items| - 1, false)]
  }

  lemma RowRangesCons(l: Linguistics, p: Profile, lang: Language, piece: Piece<string>, pieces: seq<Piece<string>>,
                      row: nat)
    ensures RowRanges(l, p, lang, [piece] + pieces, row)
         == RowRange(l, p, lang, piece, row) + RowRanges(l, p, lang, pieces, row + |piece.items|)
  {
    assert ([piece] + pieces)[1..] == pieces;
  }

  lemma RangeIsClosed(l: Linguistics, p: Profile, lang: Language, current: seq<string>, from: nat)
    requires current != []
    ensures RowRange(l, p, lang, Piece(current, false), from) == ClosedRows(current, from + |current|)
  {
  }

  lemma RowRangesFirst(l: Linguistics, p: Profile, lang: Language, current: seq<string>, pieces: seq<Piece<string>>,
                       from: nat)
    requires current != []
    ensures RowRanges(l, p, lang, [Piece(current, false)] + pieces, from)
         == ClosedRows(current, from + |current|) + RowRanges(l, p, lang, pieces, from + |current|)
  {
    RowRangesCons(l, p, lang, Piece(current, false), pieces, from);
    RangeIsClosed(l, p, lang, current, from);
  }

  lemma RowRangesHold(l: Linguistics, p: Profile, lang: Language, current: seq<string>, pieces: seq<Piece<string>>,
                      row: nat)
    requires |current| <= row
    ensures RowRanges(l, p, lang, Hold(current) + pieces, row - |current|)
         == ClosedRows(current, row) + RowRanges(l, p, lang, pieces, row)
  {
    if current == [] {
      assert Hold(current) + pieces == pieces;
    } else {
      RowRangesFirst(l, p, lang, current, pieces, row - |current|);
    }
  }

  lemma RowRangesLong(l: Linguistics, p: Profile, lang: Language, x: string, pieces: seq<Piece<string>>, row: nat)
    ensures RowRanges(l, p, lang, [Piece([x], true)] + pieces, row)
         == ForcedRow(ForceText(l, p, lang, x), row) + RowRanges(l, p, lang, pieces, row + 1)
  {
    RowRangesCons(l, p, lang, Piece([x], true), pieces, row);
  }

  lemma RowsLong(l: Linguistics, p: Profile, lang: Language, group: seq<string>, x: string,
                 more: seq<Piece<string>>, row: nat)
    requires |group| <= row
    ensures ClosedRows(group, row) + ForcedRow(ForceText(l, p, lang, x), row) + RowRanges(l, p, lang, more, row + 1)
         == RowRanges(l, p, lang, Hold(group) + ([Piece([x], true)] + more), row - |group|)
  {
    RowRangesHold(l, p, lang, group, [Piece([x], true)] + more, row);
    RowRangesLong(l, p, lang, x, more, row);
    Assoc(ClosedRows(group, row), ForcedRow(ForceText(l, p, lang, x), row), RowRanges(l, p, lang, more, row + 1));
  }

  /** The range numbers of `Fill` from the first held row on. */
  function FilledRanges(l: Linguistics, p: Profile, lang: Language, group: seq<string>, rest: seq<string>,
                        row: nat): seq<RowChunk>
    requires |group| <= row
  {
    RowRanges(l, p, lang, Fill(group, rest, LongText(l, p, lang), JoinedOver(l, p, lang, "\n")), row - |group|)
  }

  lemma RangesFresh(l: Linguistics, p: Profile, lang: Language, rest: seq<string>, row: nat)
    ensures FilledRanges(l, p, lang, [], rest, row)
         == RowRanges(l, p, lang, Fill([], rest, LongText(l, p, lang), JoinedOver(l, p, lang, "\n")), row)
  {
  }

  lemma RangesLong(l: Linguistics, p: Profile, lang: Language, group: seq<string>, x: string, tail: seq<string>,
                   row: nat)
    requires |group| <= row && Over(l, p, lang, x)
    ensures FilledRanges(l, p, lang, group, [x] + tail, row)
         == ClosedRows(group, row) + ForcedRow(ForceText(l, p, lang, x), row)
            + FilledRanges(l, p, lang, [], tail, row + 1)
  {
    var long, over := LongText(l, p, lang), JoinedOver(l, p, lang, "\n");
    FillLong(group, x, tail, long, over);
    RowsLong(l, p, lang, group, x, Fill([], tail, long, over), row);
    RangesFresh(l, p, lang, tail, row + 1);
  }

  lemma RangesBreak(l: Linguistics, p: Profile, lang: Language, group: seq<string>, x: string, tail: seq<string>,
                    row: nat)
    requires |group| <= row && !Over(l, p, lang, x) && RowBreaks(l, p, lang, group, x)
    ensures FilledRanges(l, p, lang, group, [x] + tail, row)
         == ClosedRows(group, row) + FilledRanges(l, p, lang, [x], tail, row + 1)
  {
    var long, over := LongText(l, p, lang), JoinedOver(l, p, lang, "\n");
    FillBreak(group, x, tail, long, over);
    RowRangesHold(l, p, lang, group, Fill([x], tail, long, over), row);
  }

  lemma RangesJoin(l: Linguistics, p: Profile, lang: Language, group: seq<string>, x: string, tail: seq<string>,
                   row: nat)
    requires |group| <= row && !Over(l, p, lang, x) && !RowBreaks(l, p, lang, group, x)
    ensures FilledRanges(l, p, lang, group, [x] + tail, row) == FilledRanges(l, p, lang, group + [x], tail, row + 1)
  {
    FillJoin(group, x, tail, LongText(l, p, lang), JoinedOver(l, p, lang, "\n"));
  }

  lemma FilledRangesStep(l: Linguistics, p: Profile, lang: Language, group: seq<string>, rest: seq<string>, row: nat)
    requires |group| <= row && rest != []
    ensures var step := TakeRow(l, p, lang, group, rest[0], row);
            FilledRanges(l, p, lang, group, rest, row)
            == step.out + FilledRanges(l, p, lang, step.group, rest[1..], row + 1)
  {
    var x, tail := rest[0], rest[1..];
    assert rest == [x] + tail;
    if Over(l, p, lang, x) {
      RangesLong(l, p, lang, group, x, tail, row);
    } else if RowBreaks(l, p, lang, group, x) {
      RangesBreak(l, p, lang, group, x, tail, row);
    } else {
      RangesJoin(l, p, lang, group, x, tail, row);
      assert [] + FilledRanges(l, p, lang, group + [x], tail, row + 1)
          == FilledRanges(l, p, lang, group + [x], tail, row + 1);
    }
  }

  lemma {:induction false} RowsFill(l: Linguistics, p: Profile, lang: Language, group: seq<string>,
                                    rest: seq<string>, row: nat)
    requires |group| <= row
    ensures RowChunks(l, p, lang, group, rest, row) == FilledRanges(l, p, lang, group, rest, row)
    decreases |rest|
  {
    if rest == [] {
      RowRangesHold(l, p, lang, group, [], row);
      assert Hold(group) + [] == Hold(group);
    } else {
      RowChunksUnfold(l, p, lang, group, rest, row);
      RowsFill(l, p, lang, TakeRow(l, p, lang, group, rest[0], row).group, rest[1..], row + 1);
      FilledRangesStep(l, p, lang, group, rest, row);
    }
  }

  /** Rows are divided into consecutive ranges, each with no room for the row that follows. */
  lemma RowRangesFull(l: Linguistics, p: Profile, lang: Language, rows: seq<string>)
    returns (pieces: seq<Piece<string>>)
    ensures Filled(pieces, rows, LongText(l, p, lang), JoinedOver(l, p, lang, "\n"))
    ensures RowChunks(l, p, lang, [], rows, 0) == RowRanges(l, p, lang, pieces, 0)
  {
    pieces := Fill([], rows, LongText(l, p, lang), JoinedOver(l, p, lang, "\n"));
    FillIsFilled([], rows, LongText(l, p, lang), JoinedOver(l, p, lang, "\n"));
    assert [] + rows == rows;
    RowsFill(l, p, lang, [], rows, 0);
  }
}
