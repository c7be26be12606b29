/** Forced splitting: from clusters to pieces of a word, from words to chunks, from sentences
    to chunks, all within the hard character and word guards. */
module Chunks {
  import opened Base
  import opened Text
  import S = Sentence

  datatype Words = Words(count: nat, reliable: bool)

  type Language = Option<string>

  /** Word counting, grapheme segmentation, sentence rules and case folding of the runtime. */
  datatype Linguistics = Linguistics(space: Space, words: (Language, string) -> Words, clusters: string -> seq<string>,
                                     rules: Language -> S.Rules, upper: string -> string)

  datatype Profile = Profile(minChars: nat, targetChars: nat, softMaxChars: nat, hardMaxChars: nat,
                             targetWords: nat, softMaxWords: nat, hardMaxWords: nat,
                             targetSentences: nat, hardMaxSentences: nat,
                             repeatTableHeader: bool, repeatListIntro: bool)

  predicate ValidProfile(p: Profile) {
    && 0 < p.minChars <= p.targetChars <= p.softMaxChars <= p.hardMaxChars
    && 0 < p.targetWords <= p.softMaxWords <= p.hardMaxWords
    && 0 < p.targetSentences <= p.hardMaxSentences
  }

  /** Separators are whitespace, a segmentation into non-empty clusters concatenates back, and
      the empty text counts no words. */
  ghost predicate Lawful(l: Linguistics) {
    && l.space(' ') && l.space('\n') && l.space('\t')
    && (forall t :: Join([], l.clusters(t)) == t && forall c :: c in l.clusters(t) ==> c != [])
    && (forall lang :: l.words(lang, "") == Words(0, true))
  }

  predicate Over(l: Linguistics, p: Profile, lang: Language, t: string) {
    |t| > p.hardMaxChars || (l.words(lang, t).reliable && l.words(lang, t).count > p.hardMaxWords)
  }

  /** A cluster longer than the character guard: the one text that cannot be cut. */
  predicate Uncuttable(l: Linguistics, p: Profile, t: string) {
    exists c :: c in l.clusters(t) && |c| > p.hardMaxChars
  }

  // ---------------------------------------------------------------- pieces of a word

  /** Pieces still to come when the clusters `current` are held and `rest` is unread. */
  function Pack(current: seq<string>, rest: seq<string>, hard: nat): seq<string>
    decreases |rest|
  {
    if rest == [] then
      if current == [] then [] else [Join([], current)]
    else if current != [] && |Join([], current)| + |rest[0]| > hard then
      [Join([], current)] + Pack([rest[0]], rest[1..], hard)
    else
      Pack(current + [rest[0]], rest[1..], hard)
  }

  function PackText(l: Linguistics, p: Profile, t: string): seq<string> {
    if l.clusters(t) == [] then [""] else Pack([], l.clusters(t), p.hardMaxChars)
  }

  lemma JoinOne(sep: string, x: string)
    ensures Join(sep, [x]) == x
  {
  }

  lemma {:induction false} JoinEmptyHead(x: string, rest: seq<string>)
    ensures Join([], [x] + rest) == x + Join([], rest)
  {
    JoinEmptyConcat([x], rest);
    JoinOne([], x);
  }

  /** The pieces concatenate to the clusters, and each fits. */
  lemma {:induction false} PackJoin(current: seq<string>, rest: seq<string>, hard: nat)
    ensures Join([], Pack(current, rest, hard)) == Join([], current) + Join([], rest)
    decreases |rest|
  {
    if rest == [] {
      JoinOne([], Join([], current));
      assert Join([], current) + [] == Join([], current);
    } else {
      var x, tail := rest[0], rest[1..];
      assert rest == [x] + tail;
      JoinEmptyHead(x, tail);
      if current != [] && |Join([], current)| + |x| > hard {
        PackJoin([x], tail, hard);
        JoinOne([], x);
        JoinEmptyHead(Join([], current), Pack([x], tail, hard));
      } else {
        PackJoin(current + [x], tail, hard);
        JoinEmptyLength(current, x);
        Assoc(Join([], current), x, Join([], tail));
      }
    }
  }

  lemma {:induction false} PackFits(current: seq<string>, rest: seq<string>, hard: nat)
    requires |Join([], current)| <= hard && (current != [] ==> Join([], current) != [])
    requires forall c :: c in rest ==> c != [] && |c| <= hard
    ensures forall c :: c in Pack(current, rest, hard) ==> c != [] && |c| <= hard
    ensures current != [] || rest != [] ==> Pack(current, rest, hard) != []
    decreases |rest|
  {
    if rest != [] {
      var x, tail := rest[0], rest[1..];
      assert x in rest && forall c :: c in tail ==> c in rest;
      JoinOne([], x);
      JoinEmptyLength(current, x);
      if current != [] && |Join([], current)| + |x| > hard {
        PackFits([x], tail, hard);
      } else {
        assert current == [] ==> Join([], current) == [];
        PackFits(current + [x], tail, hard);
      }
    }
  }

  method GraphemeBoundedChunks(l: Linguistics, p: Profile, text: string) returns (r: Option<seq<string>>)
    ensures r == if Uncuttable(l, p, text) then None else Some(PackText(l, p, text))
  {
    var clusters := l.clusters(text);
    if clusters == [] {
      return Some([""]);
    }
    var chunks: seq<string>, current: seq<string>, currentLen: nat := [], [], 0;
    for i := 0 to |clusters|
      invariant forall k :: 0 <= k < i ==> |clusters[k]| <= p.hardMaxChars
      invariant currentLen == |Join([], current)|
      invariant chunks + Pack(current, clusters[i..], p.hardMaxChars) == PackText(l, p, text)
    {
      var cluster := clusters[i];
      assert clusters[i..][0] == cluster && clusters[i..][1..] == clusters[i + 1..];
      if current != [] && currentLen + |cluster| > p.hardMaxChars {
        chunks := chunks + [Join([], current)];
        current, currentLen := [], 0;
        assert [] + [cluster] == [cluster];
      }
      if |cluster| > p.hardMaxChars {
        return None;
      }
      JoinEmptyLength(current, cluster);
      current, currentLen := current + [cluster], currentLen + |cluster|;
    }
    assert clusters[|clusters|..] == [] && !Uncuttable(l, p, text);
    if current == [] {
      assert chunks + [] == chunks;
      return Some(chunks);
    }
    return Some(chunks + [Join([], current)]);
  }

  /** A chunk of the required size; over the word guard only if it is a single token, a part
      of one, or blank. */
  predicate ChunkOk(l: Linguistics, p: Profile, lang: Language, t: string) {
    t != [] && |t| <= p.hardMaxChars && (Over(l, p, lang, t) ==> Solid(t, l.space) || Blank(t, l.space))
  }

  lemma {:induction false} PartsUniform(parts: seq<string>, space: Space)
    ensures Solid(Join([], parts), space) ==> forall c :: c in parts ==> Solid(c, space)
    ensures Blank(Join([], parts), space) ==> forall c :: c in parts ==> Blank(c, space)
  {
    if parts != [] {
      var n := |parts| - 1;
      var init, last := parts[..n], parts[n];
      assert parts == init + [last];
      PartsUniform(init, space);
      JoinEmptyLength(init, last);
      ConcatUniform(Join([], init), last, space);
    }
  }

  lemma ConcatUniform(a: string, b: string, space: Space)
    ensures Solid(a + b, space) ==> Solid(a, space) && Solid(b, space)
    ensures Blank(a + b, space) ==> Blank(a, space) && Blank(b, space)
  {
    forall k | 0 <= k < |a| ensures (a + b)[k] == a[k] {
    }
    forall k | 0 <= k < |b| ensures (a + b)[|a| + k] == b[k] {
    }
    assert forall k :: 0 <= k < |b| ==> b[k] == (a + b)[|a| + k];
    assert forall k :: 0 <= k < |a| ==> a[k] == (a + b)[k];
  }

  /** Cutting a token, or a blank text, by clusters. */
  lemma PackTextOk(l: Linguistics, p: Profile, lang: Language, t: string)
    requires Lawful(l) && !Uncuttable(l, p, t) && t != [] && (Solid(t, l.space) || Blank(t, l.space))
    ensures Contents(PackText(l, p, t), l.space) == Content(t, l.space)
    ensures PackText(l, p, t) != [] && forall c :: c in PackText(l, p, t) ==> ChunkOk(l, p, lang, c)
  {
    var clusters := l.clusters(t);
    assert Join([], clusters) == t;
    var pieces := PackText(l, p, t);
    PackJoin([], clusters, p.hardMaxChars);
    PackFits([], clusters, p.hardMaxChars);
    assert Join([], pieces) == t;
    JoinContent([], pieces, l.space);
    PartsUniform(pieces, l.space);
  }

  // ---------------------------------------------------------------- chunks of words

  function Held(current: seq<string>): seq<string> {
    if current == [] then [] else [Join(" ", current)]
  }

  /** Chunks still to come when the words `current` are held and `rest` is unread. */
  function Force(l: Linguistics, p: Profile, lang: Language, current: seq<string>, rest: seq<string>): seq<string>
    decreases |rest|
  {
    if rest == [] then Held(current)
    else
      var word, tail := rest[0], rest[1..];
      if |word| > p.hardMaxChars then Held(current) + PackText(l, p, word) + Force(l, p, lang, [], tail)
      else if current != [] && Over(l, p, lang, Join(" ", current + [word]))
           then Held(current) + Force(l, p, lang, [word], tail)
      else Force(l, p, lang, current + [word], tail)
  }

  function ForceText(l: Linguistics, p: Profile, lang: Language, text: string): seq<string> {
    var words := Tokens(text, l.space);
    if words == [] then PackText(l, p, text) else Force(l, p, lang, [], words)
  }

  /** Some over-long word, or the blank text itself, holds an uncuttable cluster. */
  predicate ForceFails(l: Linguistics, p: Profile, text: string) {
    var words := Tokens(text, l.space);
    if words == [] then Uncuttable(l, p, text)
    else exists k :: 0 <= k < |words| && |words[k]| > p.hardMaxChars && Uncuttable(l, p, words[k])
  }

  lemma HeldContent(current: seq<string>, space: Space)
    requires space(' ')
    ensures Contents(Held(current), space) == Contents(current, space)
  {
    if current != [] {
      JoinContent(" ", current, space);
      ContentsOne(Join(" ", current), space);
    }
  }

  ghost predicate AllOk(l: Linguistics, p: Profile, lang: Language, chunks: seq<string>) {
    forall c :: c in chunks ==> ChunkOk(l, p, lang, c)
  }

  lemma HeadContents(word: string, tail: seq<string>, space: Space)
    ensures Contents([word] + tail, space) == Content(word, space) + Contents(tail, space)
  {
    ContentsConcat([word], tail, space);
    ContentsOne(word, space);
  }

  lemma ThreeContents(a: seq<string>, b: seq<string>, c: seq<string>, space: Space)
    ensures Contents(a + b + c, space) == Contents(a, space) + (Contents(b, space) + Contents(c, space))
  {
    ContentsConcat(a + b, c, space);
    ContentsConcat(a, b, space);
    Assoc(Contents(a, space), Contents(b, space), Contents(c, space));
  }

  ghost predicate Cuttable(l: Linguistics, p: Profile, words: seq<string>) {
    forall w :: w in words ==> IsToken(w, l.space) && (|w| > p.hardMaxChars ==> !Uncuttable(l, p, w))
  }

  lemma ForceLong(l: Linguistics, p: Profile, lang: Language, current: seq<string>, word: string, tail: seq<string>)
    requires Lawful(l) && IsToken(word, l.space) && !Uncuttable(l, p, word)
    requires Contents(Force(l, p, lang, [], tail), l.space) == Contents(tail, l.space)
    ensures Contents(Held(current) + PackText(l, p, word) + Force(l, p, lang, [], tail), l.space)
         == Contents(current, l.space) + (Content(word, l.space) + Contents(tail, l.space))
  {
    HeldContent(current, l.space);
    PackTextOk(l, p, lang, word);
    ThreeContents(Held(current), PackText(l, p, word), Force(l, p, lang, [], tail), l.space);
  }

  lemma ForceBreak(l: Linguistics, p: Profile, lang: Language, current: seq<string>, word: string, tail: seq<string>)
    requires l.space(' ')
    requires Contents(Force(l, p, lang, [word], tail), l.space) == Contents([word], l.space) + Contents(tail, l.space)
    ensures Contents(Held(current) + Force(l, p, lang, [word], tail), l.space)
         == Contents(current, l.space) + (Content(word, l.space) + Contents(tail, l.space))
  {
    HeldContent(current, l.space);
    ContentsOne(word, l.space);
    ContentsConcat(Held(current), Force(l, p, lang, [word], tail), l.space);
  }

  /** Forced chunks lose nothing but whitespace. */
  lemma {:induction false} ForceContent(l: Linguistics, p: Profile, lang: Language, current: seq<string>,
                                        rest: seq<string>)
    requires Lawful(l) && Cuttable(l, p, rest)
    ensures Contents(Force(l, p, lang, current, rest), l.space) == Contents(current, l.space) + Contents(rest, l.space)
    decreases |rest|
  {
    if rest == [] {
      HeldContent(current, l.space);
      assert Contents(current, l.space) + [] == Contents(current, l.space);
    } else {
      var word, tail := rest[0], rest[1..];
      assert rest == [word] + tail;
      CuttableTail(l, p, rest);
      HeadContents(word, tail, l.space);
      if |word| > p.hardMaxChars {
        ForceContent(l, p, lang, [], tail);
        ForceLong(l, p, lang, current, word, tail);
      } else if current != [] && Over(l, p, lang, Join(" ", current + [word])) {
        ForceContent(l, p, lang, [word], tail);
        ForceBreak(l, p, lang, current, word, tail);
      } else {
        ForceContent(l, p, lang, current + [word], tail);
        ContentsSnoc(current, word, l.space);
        Assoc(Contents(current, l.space), Content(word, l.space), Contents(tail, l.space));
      }
    }
  }

  lemma CuttableTail(l: Linguistics, p: Profile, rest: seq<string>)
    requires Cuttable(l, p, rest) && rest != []
    ensures IsToken(rest[0], l.space) && (|rest[0]| > p.hardMaxChars ==> !Uncuttable(l, p, rest[0]))
    ensures Cuttable(l, p, rest[1..])
  {
    assert rest[0] in rest && forall w :: w in rest[1..] ==> w in rest;
  }

  /** Every forced chunk is within the guards, up to single tokens. */
  lemma {:induction false} ForceOk(l: Linguistics, p: Profile, lang: Language, current: seq<string>, rest: seq<string>)
    requires Lawful(l) && Cuttable(l, p, rest) && AllOk(l, p, lang, Held(current))
    ensures AllOk(l, p, lang, Force(l, p, lang, current, rest))
    ensures current != [] || rest != [] ==> Force(l, p, lang, current, rest) != []
    decreases |rest|
  {
    if rest != [] {
      var word, tail := rest[0], rest[1..];
      assert word in rest && forall w :: w in tail ==> w in rest;
      if |word| > p.hardMaxChars {
        PackTextOk(l, p, lang, word);
        ForceOk(l, p, lang, [], tail);
      } else {
        SingleOk(l, p, lang, word);
        if current != [] && Over(l, p, lang, Join(" ", current + [word])) {
          ForceOk(l, p, lang, [word], tail);
        } else {
          SnocOk(l, p, lang, current, word);
          ForceOk(l, p, lang, current + [word], tail);
        }
      }
    }
  }

  lemma SingleOk(l: Linguistics, p: Profile, lang: Language, word: string)
    requires IsToken(word, l.space) && |word| <= p.hardMaxChars
    ensures AllOk(l, p, lang, Held([word]))
  {
    JoinOne(" ", word);
  }

  lemma SnocOk(l: Linguistics, p: Profile, lang: Language, current: seq<string>, word: string)
    requires IsToken(word, l.space) && |word| <= p.hardMaxChars
    requires current == [] || !Over(l, p, lang, Join(" ", current + [word]))
    ensures AllOk(l, p, lang, Held(current + [word]))
  {
    if current == [] {
      assert [] + [word] == [word];
      SingleOk(l, p, lang, word);
    } else {
      JoinSnoc(" ", current, word);
    }
  }

  /** The forced splitter on a whole text. */
  lemma ForceTextOk(l: Linguistics, p: Profile, lang: Language, text: string)
    requires Lawful(l) && text != [] && !ForceFails(l, p, text)
    ensures Contents(ForceText(l, p, lang, text), l.space) == Content(text, l.space)
    ensures AllOk(l, p, lang, ForceText(l, p, lang, text)) && ForceText(l, p, lang, text) != []
  {
    var words := Tokens(text, l.space);
    assert text[0..] == text;
    TokensContent(text, 0, l.space);
    if words == [] {
      PackTextOk(l, p, lang, text);
    } else {
      TokensSolid(text, 0, l.space);
      ForceContent(l, p, lang, [], words);
      ForceOk(l, p, lang, [], words);
    }
  }

  lemma Regroup<T>(a: seq<T>, b: seq<T>, c: seq<T>, d: seq<T>)
    ensures a + b + c + d == a + (b + c + d)
  {
    Assoc(a, b, c);
    Assoc(a, b + c, d);
  }

  method ForceTextChunks(l: Linguistics, p: Profile, lang: Language, text: string) returns (r: Option<seq<string>>)
    ensures r == if ForceFails(l, p, text) then None else Some(ForceText(l, p, lang, text))
  {
    var words := Tokens(text, l.space);
    if words == [] {
      r := GraphemeBoundedChunks(l, p, text);
      return;
    }
    var chunks: seq<string>, current: seq<string> := [], [];
    for i := 0 to |words|
      invariant forall k :: 0 <= k < i && |words[k]| > p.hardMaxChars ==> !Uncuttable(l, p, words[k])
      invariant chunks + Force(l, p, lang, current, words[i..]) == ForceText(l, p, lang, text)
    {
      var word := words[i];
      assert words[i..][0] == word && words[i..][1..] == words[i + 1..];
      ghost var before, rest := chunks, words[i + 1..];
      if |word| > p.hardMaxChars {
        var pieces := GraphemeBoundedChunks(l, p, word);
        if pieces.None? {
          return None;
        }
        chunks := chunks + Held(current);
        chunks := chunks + pieces.value;
        Regroup(before, Held(current), pieces.value, Force(l, p, lang, [], rest));
        current := [];
        continue;
      }
      if current != [] && Over(l, p, lang, Join(" ", current + [word])) {
        chunks := chunks + Held(current);
        Assoc(before, Held(current), Force(l, p, lang, [word], rest));
        current := [word];
      } else {
        current := current + [word];
      }
    }
    return Some(chunks + Held(current));
  }

  // ---------------------------------------------------------------- chunks of sentences

  datatype Chunk = Chunk(text: string, sentences: nat, forced: bool)

  function Candidate(l: Linguistics, current: seq<string>): string {
    Strip(Join(" ", current), l.space)
  }

  function Closed(l: Linguistics, current: seq<string>): seq<Chunk> {
    if current == [] then [] else [Chunk(Candidate(l, current), |current|, false)]
  }

  function Forced(chunks: seq<string>): (r: seq<Chunk>)
    ensures |r| == |chunks|
  {
    seq(|chunks|, k requires 0 <= k < |chunks| => Chunk(chunks[k], 1, true))
  }

  /** Adding `sentence` to the held ones would break a guard. */
  predicate Breaks(l: Linguistics, p: Profile, lang: Language, current: seq<string>, sentence: string) {
    current != [] && (Over(l, p, lang, Candidate(l, current + [sentence])) || |current| + 1 > p.hardMaxSentences)
  }

  /** Chunks still to come when the sentences `current` are held and `rest` is unread. */
  function Gather(l: Linguistics, p: Profile, lang: Language, current: seq<string>, rest: seq<string>): seq<Chunk>
    decreases |rest|
  {
    if rest == [] then Closed(l, current)
    else
      var s, tail := rest[0], rest[1..];
      if Over(l, p, lang, s) then Closed(l, current) + Forced(ForceText(l, p, lang, s)) + Gather(l, p, lang, [], tail)
      else if Breaks(l, p, lang, current, s) then Closed(l, current) + Gather(l, p, lang, [s], tail)
      else Gather(l, p, lang, current + [s], tail)
  }

  function TextsOf(chunks: seq<Chunk>): (r: seq<string>)
    ensures |r| == |chunks|
  {
    seq(|chunks|, k requires 0 <= k < |chunks| => chunks[k].text)
  }

  lemma TextsConcat(a: seq<Chunk>, b: seq<Chunk>)
    ensures TextsOf(a + b) == TextsOf(a) + TextsOf(b)
  {
  }

  lemma TextsForced(chunks: seq<string>)
    ensures TextsOf(Forced(chunks)) == chunks
  {
  }

  lemma TextsClosed(l: Linguistics, current: seq<string>)
    requires l.space(' ')
    ensures Contents(TextsOf(Closed(l, current)), l.space) == Contents(current, l.space)
  {
    if current != [] {
      assert TextsOf(Closed(l, current)) == [Candidate(l, current)];
      ContentsOne(Candidate(l, current), l.space);
      StripContent(Join(" ", current), l.space);
      JoinContent(" ", current, l.space);
    }
  }

  /** An unforced chunk meets every guard; a forced one counts one sentence. */
  predicate SentenceChunkOk(l: Linguistics, p: Profile, lang: Language, c: Chunk) {
    && 1 <= c.sentences <= p.hardMaxSentences
    && if c.forced then ChunkOk(l, p, lang, c.text) else c.text != [] && !Over(l, p, lang, c.text)
  }

  ghost predicate AllSentenceOk(l: Linguistics, p: Profile, lang: Language, chunks: seq<Chunk>) {
    forall c :: c in chunks ==> SentenceChunkOk(l, p, lang, c)
  }

  /** What the sentence loop is given: trimmed sentences, the long ones cuttable. */
  ghost predicate Sentences(l: Linguistics, p: Profile, lang: Language, rest: seq<string>) {
    forall s :: s in rest ==> Trimmed(s, l.space) && (Over(l, p, lang, s) ==> !ForceFails(l, p, s))
  }

  lemma {:induction false} GatherContent(l: Linguistics, p: Profile, lang: Language, current: seq<string>,
                                         rest: seq<string>)
    requires Lawful(l) && Sentences(l, p, lang, rest)
    ensures Contents(TextsOf(Gather(l, p, lang, current, rest)), l.space)
            == Contents(current, l.space) + Contents(rest, l.space)
    decreases |rest|
  {
    TextsClosed(l, current);
    if rest == [] {
      assert Contents(current, l.space) + [] == Contents(current, l.space);
    } else {
      var s, tail := rest[0], rest[1..];
      assert rest == [s] + tail && s in rest && forall x :: x in tail ==> x in rest;
      HeadContents(s, tail, l.space);
      if Over(l, p, lang, s) {
        GatherContent(l, p, lang, [], tail);
        GatherForced(l, p, lang, current, s, tail);
      } else if Breaks(l, p, lang, current, s) {
        GatherContent(l, p, lang, [s], tail);
        ContentsOne(s, l.space);
        TextsConcat(Closed(l, current), Gather(l, p, lang, [s], tail));
        ContentsConcat(TextsOf(Closed(l, current)), TextsOf(Gather(l, p, lang, [s], tail)), l.space);
      } else {
        GatherContent(l, p, lang, current + [s], tail);
        ContentsSnoc(current, s, l.space);
        Assoc(Contents(current, l.space), Content(s, l.space), Contents(tail, l.space));
      }
    }
  }

  lemma GatherForced(l: Linguistics, p: Profile, lang: Language, current: seq<string>, s: string, tail: seq<string>)
    requires Lawful(l) && s != [] && !ForceFails(l, p, s)
    requires Contents(TextsOf(Gather(l, p, lang, [], tail)), l.space) == Contents(tail, l.space)
    ensures Contents(TextsOf(Closed(l, current) + Forced(ForceText(l, p, lang, s)) + Gather(l, p, lang, [], tail)),
                     l.space)
         == Contents(current, l.space) + (Content(s, l.space) + Contents(tail, l.space))
  {
    var a, b, c := Closed(l, current), Forced(ForceText(l, p, lang, s)), Gather(l, p, lang, [], tail);
    TextsClosed(l, current);
    ForceTextOk(l, p, lang, s);
    TextsForced(ForceText(l, p, lang, s));
    TextsConcat(a + b, c);
    TextsConcat(a, b);
    ThreeContents(TextsOf(a), TextsOf(b), TextsOf(c), l.space);
  }

  lemma ForcedOk(l: Linguistics, p: Profile, lang: Language, s: string)
    requires Lawful(l) && ValidProfile(p) && s != [] && !ForceFails(l, p, s)
    ensures AllSentenceOk(l, p, lang, Forced(ForceText(l, p, lang, s)))
  {
    ForceTextOk(l, p, lang, s);
    var chunks := ForceText(l, p, lang, s);
    forall c | c in Forced(chunks) ensures SentenceChunkOk(l, p, lang, c) {
      var k :| 0 <= k < |chunks| && c == Forced(chunks)[k];
      assert chunks[k] in chunks;
    }
  }

  lemma FirstSentenceOk(l: Linguistics, p: Profile, lang: Language, s: string)
    requires ValidProfile(p) && Trimmed(s, l.space) && !Over(l, p, lang, s)
    ensures AllSentenceOk(l, p, lang, Closed(l, [s]))
  {
    JoinOne(" ", s);
    StripTrimmed(s, l.space);
  }

  lemma NextSentenceOk(l: Linguistics, p: Profile, lang: Language, current: seq<string>, s: string)
    requires ValidProfile(p) && Lawful(l) && Trimmed(s, l.space) && !Over(l, p, lang, s)
             && !Breaks(l, p, lang, current, s)
    ensures AllSentenceOk(l, p, lang, Closed(l, current + [s]))
  {
    if current == [] {
      assert [] + [s] == [s];
      FirstSentenceOk(l, p, lang, s);
    } else {
      JoinSnoc(" ", current, s);
      StripContent(Join(" ", current + [s]), l.space);
      ContentConcat(Join(" ", current) + " ", s, l.space);
      BlankContent(s, l.space);
      BlankContent(Candidate(l, current + [s]), l.space);
    }
  }

  lemma {:induction false} GatherOk(l: Linguistics, p: Profile, lang: Language, current: seq<string>, rest: seq<string>)
    requires Lawful(l) && ValidProfile(p) && Sentences(l, p, lang, rest)
             && AllSentenceOk(l, p, lang, Closed(l, current))
    ensures AllSentenceOk(l, p, lang, Gather(l, p, lang, current, rest))
    decreases |rest|
  {
    if rest != [] {
      var s, tail := rest[0], rest[1..];
      assert s in rest && forall x :: x in tail ==> x in rest;
      if Over(l, p, lang, s) {
        ForcedOk(l, p, lang, s);
        GatherOk(l, p, lang, [], tail);
      } else if Breaks(l, p, lang, current, s) {
        FirstSentenceOk(l, p, lang, s);
        GatherOk(l, p, lang, [s], tail);
      } else {
        NextSentenceOk(l, p, lang, current, s);
        GatherOk(l, p, lang, current + [s], tail);
      }
    }
  }

  /** A long sentence of the text cannot be cut. */
  predicate TextFails(l: Linguistics, p: Profile, lang: Language, sentences: seq<string>) {
    exists k :: 0 <= k < |sentences| && Over(l, p, lang, sentences[k]) && ForceFails(l, p, sentences[k])
  }

  /** The sentence loop before sentence `i`. */
  ghost predicate Gathering(l: Linguistics, p: Profile, lang: Language, sentences: seq<string>, chunks: seq<Chunk>,
                            current: seq<string>, i: nat) {
    && i <= |sentences|
    && (forall k :: 0 <= k < i && Over(l, p, lang, sentences[k]) ==> !ForceFails(l, p, sentences[k]))
    && chunks + Gather(l, p, lang, current, sentences[i..]) == Gather(l, p, lang, [], sentences)
  }

  lemma LongStep(l: Linguistics, p: Profile, lang: Language, sentences: seq<string>, chunks: seq<Chunk>,
                 current: seq<string>, i: nat)
    requires Gathering(l, p, lang, sentences, chunks, current, i) && i < |sentences|
    requires Over(l, p, lang, sentences[i]) && !ForceFails(l, p, sentences[i])
    ensures Gathering(l, p, lang, sentences, chunks + Closed(l, current) + Forced(ForceText(l, p, lang, sentences[i])),
                      [], i + 1)
  {
    assert sentences[i..][0] == sentences[i] && sentences[i..][1..] == sentences[i + 1..];
    Regroup(chunks, Closed(l, current), Forced(ForceText(l, p, lang, sentences[i])),
            Gather(l, p, lang, [], sentences[i + 1..]));
  }

  lemma ShortStep(l: Linguistics, p: Profile, lang: Language, sentences: seq<string>, chunks: seq<Chunk>,
                  current: seq<string>, i: nat)
    requires Gathering(l, p, lang, sentences, chunks, current, i) && i < |sentences| && !Over(l, p, lang, sentences[i])
    ensures if Breaks(l, p, lang, current, sentences[i])
            then Gathering(l, p, lang, sentences, chunks + Closed(l, current), [sentences[i]], i + 1)
            else Gathering(l, p, lang, sentences, chunks, current + [sentences[i]], i + 1)
  {
    assert sentences[i..][0] == sentences[i] && sentences[i..][1..] == sentences[i + 1..];
    Assoc(chunks, Closed(l, current), Gather(l, p, lang, [sentences[i]], sentences[i + 1..]));
  }

  method SentenceChunks(l: Linguistics, p: Profile, lang: Language, sentences: seq<string>)
    returns (r: Option<seq<Chunk>>)
    ensures r == if TextFails(l, p, lang, sentences) then None else Some(Gather(l, p, lang, [], sentences))
  {
    var chunks: seq<Chunk>, current: seq<string> := [], [];
    assert sentences[0..] == sentences;
    for i := 0 to |sentences|
      invariant Gathering(l, p, lang, sentences, chunks, current, i)
    {
      var sentence := sentences[i];
      if Over(l, p, lang, sentence) {
        var forced := ForceTextChunks(l, p, lang, sentence);
        if forced.None? {
          return None;
        }
        LongStep(l, p, lang, sentences, chunks, current, i);
        chunks := chunks + Closed(l, current);
        chunks := chunks + Forced(forced.value);
        current := [];
        continue;
      }
      ShortStep(l, p, lang, sentences, chunks, current, i);
      var candidate := Candidate(l, current + [sentence]);
      if current != [] && (Over(l, p, lang, candidate) || |current| + 1 > p.hardMaxSentences) {
        chunks := chunks + Closed(l, current);
        current := [sentence];
      } else {
        current := current + [sentence];
      }
    }
    assert sentences[|sentences|..] == [];
    return Some(chunks + Closed(l, current));
  }
}
