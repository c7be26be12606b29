/** When a unit is marked as forced: the marks tell which elements did not fit in one piece. */
module Forcing {
  import opened Base
  import opened Text
  import opened Chunks
  import opened Units
  import opened Filling
  import opened Fullness

  // ---------------------------------------------------------------- text

  ghost predicate SomeLong<T>(pieces: seq<Piece<T>>) {
    exists k :: 0 <= k < |pieces| && pieces[k].long
  }

  ghost predicate SomeForcedChunk(chunks: seq<Chunk>) {
    exists k :: 0 <= k < |chunks| && chunks[k].forced
  }

  /** Long sentences can be cut into something. */
  ghost predicate PiecesCuttable(l: Linguistics, p: Profile, lang: Language, pieces: seq<Piece<string>>) {
    forall k :: 0 <= k < |pieces| ==>
      pieces[k].items != [] && (pieces[k].long ==> ForceText(l, p, lang, pieces[k].items[0]) != [])
  }

  lemma SomeForcedConcat(a: seq<Chunk>, b: seq<Chunk>)
    ensures SomeForcedChunk(a + b) <==> SomeForcedChunk(a) || SomeForcedChunk(b)
  {
    var all := a + b;
    assert forall k :: 0 <= k < |a| ==> all[k] == a[k];
    assert forall k :: 0 <= k < |b| ==> all[|a| + k] == b[k];
  }

  lemma {:induction false} ForcedIffLong(l: Linguistics, p: Profile, lang: Language, pieces: seq<Piece<string>>)
    requires PiecesCuttable(l, p, lang, pieces)
    ensures SomeForcedChunk(TextChunks(l, p, lang, pieces)) <==> SomeLong(pieces)
  {
    if pieces != [] {
      var first, tail := pieces[0], pieces[1..];
      assert forall k :: 0 <= k < |tail| ==> tail[k] == pieces[k + 1];
      ForcedIffLong(l, p, lang, tail);
      TextChunksOne(l, p, lang, first);
      assert pieces == [first] + tail;
      TextChunksConcat(l, p, lang, [first], tail);
      var made := TextChunks(l, p, lang, [first]);
      SomeForcedConcat(made, TextChunks(l, p, lang, tail));
      assert made != [] && made[0].forced == first.long;
      assert SomeLong(pieces) <==> first.long || SomeLong(tail);
    }
  }

  ghost predicate SomeOver(l: Linguistics, p: Profile, lang: Language, sentences: seq<string>) {
    exists k :: 0 <= k < |sentences| && Over(l, p, lang, sentences[k])
  }

  lemma {:induction false} LongIffOver<T>(pieces: seq<Piece<T>>, xs: seq<T>, long: T -> bool, over: seq<T> -> bool)
    requires Filled(pieces, xs, long, over)
    ensures SomeLong(pieces) <==> exists k :: 0 <= k < |xs| && long(xs[k])
    decreases |pieces|
  {
    if pieces != [] {
      var first, n := pieces[0], |pieces[0].items|;
      FilledTail(pieces, xs, long, over);
      var tail, rest := pieces[1..], xs[n..];
      LongIffOver(tail, rest, long, over);
      assert PieceOk(first, long, over);
      assert forall k :: 0 <= k < |tail| ==> tail[k] == pieces[k + 1];
      assert forall k :: 0 <= k < n ==> first.items[k] == xs[k];
      assert forall k :: 0 <= k < |rest| ==> rest[k] == xs[n + k];
      assert SomeLong(pieces) <==> first.long || SomeLong(tail);
    }
  }

  lemma PiecesCut(l: Linguistics, p: Profile, lang: Language, pieces: seq<Piece<string>>, sentences: seq<string>)
    requires Lawful(l) && !TextFails(l, p, lang, sentences)
    requires Filled(pieces, sentences, LongText(l, p, lang), SentencesOver(l, p, lang))
    requires AllTrimmed(sentences, l.space)
    ensures PiecesCuttable(l, p, lang, pieces)
  {
    forall k | 0 <= k < |pieces|
      ensures pieces[k].items != [] && (pieces[k].long ==> ForceText(l, p, lang, pieces[k].items[0]) != [])
    {
      assert PieceOk(pieces[k], LongText(l, p, lang), SentencesOver(l, p, lang));
      if pieces[k].long {
        var s := pieces[k].items[0];
        ItemIn(pieces, k, s);
        var i :| 0 <= i < |sentences| && sentences[i] == s;
        ForceTextOk(l, p, lang, s);
      }
    }
  }

  lemma {:induction false} ItemIn<T>(pieces: seq<Piece<T>>, k: nat, x: T)
    requires k < |pieces| && x in pieces[k].items
    ensures x in Flatten(Items(pieces))
  {
    ItemsHead(pieces);
    if k > 0 {
      ItemIn(pieces[1..], k - 1, x);
    }
  }

  lemma SomeForcedIffOver(l: Linguistics, p: Profile, lang: Language, sentences: seq<string>)
    requires Lawful(l) && AllTrimmed(sentences, l.space) && !TextFails(l, p, lang, sentences)
    ensures SomeForcedChunk(Gather(l, p, lang, [], sentences)) <==> SomeOver(l, p, lang, sentences)
  {
    var pieces := SentenceChunksFull(l, p, lang, sentences);
    PiecesCut(l, p, lang, pieces, sentences);
    ForcedIffLong(l, p, lang, pieces);
    LongIffOver(pieces, sentences, LongText(l, p, lang), SentencesOver(l, p, lang));
  }

  /** The units of a text are forced when there are several, or when a sentence was too long. */
  lemma TextForced(l: Linguistics, p: Profile, e: Element, hierarchy: seq<string>, context: string,
                   sentences: seq<string>, k: nat)
    requires Lawful(l) && AllTrimmed(sentences, l.space) && !TextFails(l, p, e.language, sentences)
    requires k < |Gather(l, p, e.language, [], sentences)|
    ensures var units := TextUnitsOf(l, e, hierarchy, context, Gather(l, p, e.language, [], sentences));
            units[k].forced <==> |units| > 1 || SomeOver(l, p, e.language, sentences)
  {
    SomeForcedIffOver(l, p, e.language, sentences);
    assert Gather(l, p, e.language, [], sentences)[k].forced ==>
             SomeForcedChunk(Gather(l, p, e.language, [], sentences));
  }

  // ---------------------------------------------------------------- tables

  lemma {:induction false} HeldRowsFirst(l: Linguistics, p: Profile, lang: Language, group: seq<string>,
                                         rest: seq<string>, row: nat)
    requires group != [] && |group| <= row
    ensures var chunks := RowChunks(l, p, lang, group, rest, row); chunks != [] && !chunks[0].forced
    decreases |rest|
  {
    if rest != [] {
      var step := TakeRow(l, p, lang, group, rest[0], row);
      RowChunksUnfold(l, p, lang, group, rest, row);
      if step.out == [] {
        HeldRowsFirst(l, p, lang, step.group, rest[1..], row + 1);
      }
    }
  }

  /** The units of a table are forced from the second on, and the first when its row was too
      long. */
  lemma TableForced(l: Linguistics, p: Profile, e: Element, hierarchy: seq<string>, k: nat)
    requires Lawful(l) && e.rows != [] && !RowsFail(l, p, e.language, RowTexts(e.rows))
    requires k < |RowChunks(l, p, e.language, [], RowTexts(e.rows), 0)|
    ensures var units := TableUnitsOf(l, p, e, hierarchy, RowChunks(l, p, e.language, [], RowTexts(e.rows), 0));
            units[k].forced <==> k > 0 || Over(l, p, e.language, RowText(e.rows[0]))
  {
    var texts := RowTexts(e.rows);
    var x := texts[0];
    RowChunksUnfold(l, p, e.language, [], texts, 0);
    OversizedNonEmpty(l, p, e.language, texts);
    assert RowCuttable(l, p, e.language, x);
    if Over(l, p, e.language, x) {
      ForceTextNonEmpty(l, p, e.language, x);
    } else {
      HeldRowsFirst(l, p, e.language, [x], texts[1..], 1);
      assert [] + [x] == [x];
    }
  }
}
