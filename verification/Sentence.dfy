/** The Unicode sentence scanner and the recovery of its boundaries. */
module Sentence {
  import opened Base
  import opened Text

  /** The linguistic judgements the scanner branches on. */
  datatype Rules = Rules(terminal: char -> bool, closer: char -> bool, guarded: (string, nat) -> bool,
                         reporting: (string, nat, bool) -> bool, ellipsisEnds: (string, nat) -> bool)

  datatype Slice = Slice(from: nat, to: nat)

  const ELLIPSIS: char := '\U{2026}'

  predicate BlankIn(text: string, a: nat, b: nat, space: Space) {
    a <= b <= |text| && forall k :: a <= k < b ==> space(text[k])
  }

  /** Where the slices before number `k` end. */
  function EndOf(slices: seq<Slice>, k: nat): nat
    requires k <= |slices|
  {
    if k == 0 then 0 else slices[k - 1].to
  }

  /** `sentence` is the trimmed, non-blank slice `s` of `text`. */
  predicate IsSlice(text: string, sentence: string, s: Slice, space: Space) {
    s.from < s.to <= |text| && sentence == text[s.from..s.to] && Trimmed(sentence, space)
  }

  /** Sentence `k` is slice `k`, with only whitespace between it and the slice before. */
  ghost predicate SliceAt(text: string, sentences: seq<string>, slices: seq<Slice>, k: nat, space: Space)
    requires k < |slices| == |sentences|
  {
    IsSlice(text, sentences[k], slices[k], space) && BlankIn(text, EndOf(slices, k), slices[k].from, space)
  }

  /** The sentences are disjoint slices of `text[..upto]`, in order, with only whitespace
      before, between and after them. */
  ghost predicate Traced(text: string, sentences: seq<string>, slices: seq<Slice>, upto: nat, space: Space) {
    && |sentences| == |slices| && upto <= |text|
    && (forall k: nat :: k < |slices| ==> SliceAt(text, sentences, slices, k, space))
    && BlankIn(text, EndOf(slices, |slices|), upto, space)
  }

  /** Where the trimmed part of text[a..b] lies. */
  function StripAt(text: string, a: nat, b: nat, space: Space): Slice
    requires a <= b <= |text|
  {
    Slice(a + Lead(text[a..b], space), a + Trail(text[a..b], space))
  }

  lemma LeadBlank(text: string, a: nat, b: nat, space: Space)
    requires a <= b <= |text|
    ensures BlankIn(text, a, a + Lead(text[a..b], space), space)
  {
    var t := text[a..b];
    forall k | a <= k < a + Lead(t, space) ensures space(text[k]) {
      assert text[k] == t[k - a];
    }
  }

  lemma TrailBlank(text: string, a: nat, b: nat, space: Space)
    requires a <= b <= |text|
    ensures BlankIn(text, a + Trail(text[a..b], space), b, space)
  {
    var t := text[a..b];
    forall k | a + Trail(t, space) <= k < b ensures space(text[k]) {
      assert text[k] == t[k - a];
    }
  }

  lemma SliceOfSlice(text: string, a: nat, b: nat, m: nat, n: nat)
    requires a <= b <= |text| && m <= n <= b - a
    ensures text[a..b][m..n] == text[a + m..a + n]
  {
    var t := text[a..b];
    assert forall k :: 0 <= k < n - m ==> t[m..n][k] == t[m + k] == text[a + m + k] == text[a + m..a + n][k];
  }

  lemma StripIsSlice(text: string, a: nat, b: nat, space: Space)
    requires a <= b <= |text| && Strip(text[a..b], space) != []
    ensures var s := StripAt(text, a, b, space);
            && IsSlice(text, Strip(text[a..b], space), s, space) && a <= s.from && s.to <= b
            && BlankIn(text, a, s.from, space) && BlankIn(text, s.to, b, space)
  {
    var m, n := Lead(text[a..b], space), Trail(text[a..b], space);
    SliceOfSlice(text, a, b, m, n);
    assert Strip(text[a..b], space) == text[a..b][m..n];
    LeadBlank(text, a, b, space);
    TrailBlank(text, a, b, space);
  }

  lemma StripIsBlank(text: string, a: nat, b: nat, space: Space)
    requires a <= b <= |text| && Strip(text[a..b], space) == []
    ensures BlankIn(text, a, b, space)
  {
    var t := text[a..b];
    forall k | a <= k < b ensures space(text[k]) {
      assert text[k] == t[k - a];
    }
  }

  function Emit(sentences: seq<string>, sentence: string): seq<string> {
    if sentence == [] then sentences else sentences + [sentence]
  }

  /** Emitting the stripped text between `start` and `end` and skipping blanks up to `next`. */
  lemma EmitTraced(text: string, sentences: seq<string>, slices: seq<Slice>, start: nat, end: nat, next: nat,
                   space: Space)
    returns (more: seq<Slice>)
    requires Traced(text, sentences, slices, start, space) && start <= end && BlankIn(text, end, next, space)
    ensures Traced(text, Emit(sentences, Strip(text[start..end], space)), more, next, space)
  {
    var sentence := Strip(text[start..end], space);
    if sentence == [] {
      StripIsBlank(text, start, end, space);
      more := slices;
    } else {
      var s := StripAt(text, start, end, space);
      StripIsSlice(text, start, end, space);
      more := slices + [s];
      forall k: nat | k < |more| ensures SliceAt(text, sentences + [sentence], more, k, space) {
        if k < |slices| {
          assert SliceAt(text, sentences, slices, k, space);
          assert EndOf(more, k) == EndOf(slices, k);
        }
      }
    }
  }

  /** First position from `from` on whose character fails `p`. */
  function After(text: string, from: nat, p: char -> bool): (end: nat)
    requires from <= |text|
    ensures from <= end <= |text|
    ensures forall k :: from <= k < end ==> p(text[k])
    ensures end < |text| ==> !p(text[end])
    decreases |text| - from
  {
    if from < |text| && p(text[from]) then After(text, from + 1, p) else from
  }

  method SkipWhile(text: string, from: nat, p: char -> bool) returns (end: nat)
    requires from <= |text|
    ensures end == After(text, from, p)
  {
    end := from;
    while end < |text| && p(text[end])
      invariant from <= end <= |text| && After(text, from, p) == After(text, end, p)
    {
      end := end + 1;
    }
  }

  /** What the scanner decides at position `i`. */
  datatype Decision = Move(to: nat) | Cut(end: nat)

  predicate DotsAt(text: string, i: nat) {
    i + 3 <= |text| && text[i..i + 3] == "..."
  }

  const DOT := (c: char) => c == '.'
  const NEWLINE := (c: char) => c == '\n'

  /** The end of the run of terminals, or of dots, that starts at `i`. */
  function RunEnd(text: string, i: nat, rules: Rules): (end: nat)
    requires i < |text|
    ensures i < end <= |text|
  {
    if DotsAt(text, i) then After(text, i + 3, DOT) else After(text, i + 1, rules.terminal)
  }

  /** The same with the closers that follow. */
  function Reach(text: string, i: nat, rules: Rules): (end: nat)
    requires i < |text|
    ensures RunEnd(text, i, rules) <= end <= |text|
  {
    After(text, RunEnd(text, i, rules), rules.closer)
  }

  predicate Continues(text: string, i: nat, rules: Rules)
    requires i < |text|
  {
    var end := Reach(text, i, rules);
    || rules.reporting(text, end, end > RunEnd(text, i, rules))
    || ((DotsAt(text, i) || text[i] == ELLIPSIS) && !rules.ellipsisEnds(text, end))
  }

  /** A sentence may end with the run that starts at `i`. */
  predicate Opens(text: string, i: nat, rules: Rules)
    requires i < |text|
  {
    || DotsAt(text, i) || text[i] == ELLIPSIS
    || (rules.terminal(text[i]) && !(text[i] == '.' && rules.guarded(text, i)))
  }

  /** The run that starts at `i` ends a sentence. */
  predicate IsCut(text: string, i: nat, rules: Rules, space: Space)
    requires i < |text|
  {
    var end := Reach(text, i, rules);
    && Opens(text, i, rules) && !Continues(text, i, rules)
    && (text[i] == '.' && !DotsAt(text, i) ==> end == |text| || space(text[end]))
  }

  predicate ParagraphAt(text: string, i: nat) {
    i + 2 <= |text| && text[i..i + 2] == "\n\n"
  }

  /** Sentences still to come when `start` opened the current one and `i` is unread. */
  function Scan(text: string, start: nat, i: nat, rules: Rules, space: Space): seq<string>
    requires start <= i <= |text|
    decreases |text| - i
  {
    if i == |text| then Emit([], Strip(text[start..], space))
    else if ParagraphAt(text, i) then
      var end := AfterParagraph(text, i);
      Emit([], Strip(text[start..i], space)) + Scan(text, end, end, rules, space)
    else if IsCut(text, i, rules, space) then
      var cut := Reach(text, i, rules);
      var end := After(text, cut, space);
      Emit([], Strip(text[start..cut], space)) + Scan(text, end, end, rules, space)
    else
      Scan(text, start, Skip(text, i, rules), rules, space)
  }

  function AfterParagraph(text: string, i: nat): (end: nat)
    requires ParagraphAt(text, i)
    ensures i < end <= |text|
  {
    assert text[i] == text[i..i + 2][0];
    After(text, i, NEWLINE)
  }

  /** Where scanning resumes after a position that is no cut: behind a run that reads on as
      reported speech or an open ellipsis, else at the next character. */
  function Skip(text: string, i: nat, rules: Rules): (to: nat)
    requires i < |text|
    ensures i < to <= |text|
  {
    if Opens(text, i, rules) && Continues(text, i, rules) then Reach(text, i, rules) else i + 1
  }

  /** At a terminal or an ellipsis: how far the sentence end reaches and whether it is one. */
  method Decide(text: string, i: nat, rules: Rules, space: Space) returns (d: Decision)
    requires i < |text|
    ensures d == if IsCut(text, i, rules, space) then Cut(Reach(text, i, rules)) else Move(Skip(text, i, rules))
  {
    var ch, dots := text[i], DotsAt(text, i);
    assert dots ==> ch == text[i..i + 3][0];
    if !rules.terminal(ch) && !dots && ch != ELLIPSIS {
      return Move(i + 1);
    }
    if ch == '.' && !dots && rules.guarded(text, i) {
      return Move(i + 1);
    }
    var end: nat;
    if dots {
      end := SkipWhile(text, i + 3, DOT);
    } else {
      end := SkipWhile(text, i + 1, rules.terminal);
    }
    var closers := end;
    end := SkipWhile(text, end, rules.closer);
    if rules.reporting(text, end, end > closers) {
      return Move(end);
    }
    if (dots || ch == ELLIPSIS) && !rules.ellipsisEnds(text, end) {
      return Move(end);
    }
    if end < |text| && !space(text[end]) && ch == '.' && !dots {
      return Move(i + 1);
    }
    return Cut(end);
  }

  lemma EmitFirst(sentences: seq<string>, sentence: string, rest: seq<string>)
    ensures Emit(sentences, sentence) + rest == sentences + (Emit([], sentence) + rest)
  {
    assert [] + [sentence] == [sentence];
    Assoc(sentences, [sentence], rest);
    assert [] + rest == rest;
  }

  /** The scanner before position `i`: what it emitted is traced, and what is left to scan
      completes it. */
  ghost predicate Scanning(text: string, sentences: seq<string>, slices: seq<Slice>, start: nat, i: nat, rules: Rules,
                           space: Space) {
    && start <= i <= |text|
    && Traced(text, sentences, slices, start, space)
    && sentences + Scan(text, start, i, rules, space) == Scan(text, 0, 0, rules, space)
  }

  /** Emit the text up to `cut`, resume at `end`. */
  lemma CutStep(text: string, sentences: seq<string>, slices: seq<Slice>, start: nat, i: nat, cut: nat, end: nat,
                rules: Rules, space: Space)
    returns (more: seq<Slice>)
    requires Scanning(text, sentences, slices, start, i, rules, space) && start <= cut && BlankIn(text, cut, end, space)
    requires Scan(text, start, i, rules, space)
             == Emit([], Strip(text[start..cut], space)) + Scan(text, end, end, rules, space)
    ensures Scanning(text, Emit(sentences, Strip(text[start..cut], space)), more, end, end, rules, space)
  {
    more := EmitTraced(text, sentences, slices, start, cut, end, space);
    EmitFirst(sentences, Strip(text[start..cut], space), Scan(text, end, end, rules, space));
  }

  method SplitUnicode(text: string, rules: Rules, space: Space)
    returns (sentences: seq<string>, ghost slices: seq<Slice>)
    requires space('\n')
    ensures Traced(text, sentences, slices, |text|, space)
    ensures sentences == Scan(text, 0, 0, rules, space)
  {
    sentences, slices := [], [];
    var start: nat, i: nat := 0, 0;
    while i < |text|
      invariant Scanning(text, sentences, slices, start, i, rules, space)
      decreases |text| - i
    {
      if ParagraphAt(text, i) {
        var end := SkipWhile(text, i, NEWLINE);
        assert end == AfterParagraph(text, i);
        slices := CutStep(text, sentences, slices, start, i, i, end, rules, space);
        sentences := Emit(sentences, Strip(text[start..i], space));
        start, i := end, end;
        continue;
      }
      var d := Decide(text, i, rules, space);
      match d
      case Move(to) => i := to;
      case Cut(cut) =>
        var end := SkipWhile(text, cut, space);
        slices := CutStep(text, sentences, slices, start, i, cut, end, rules, space);
        sentences := Emit(sentences, Strip(text[start..cut], space));
        start, i := end, end;
    }
    assert text[start..] == text[start..|text|];
    EmitFirst(sentences, Strip(text[start..], space), []);
    slices := EmitTraced(text, sentences, slices, start, |text|, |text|, space);
    sentences := Emit(sentences, Strip(text[start..], space));
  }

  // ---------------------------------------------------------------- conservation

  lemma TracedPrefix(text: string, sentences: seq<string>, slices: seq<Slice>, upto: nat, space: Space)
    requires Traced(text, sentences, slices, upto, space) && slices != []
    ensures var n := |slices| - 1; Traced(text, sentences[..n], slices[..n], slices[n].from, space)
  {
    var n := |slices| - 1;
    assert SliceAt(text, sentences, slices, n, space);
    forall k: nat | k < n ensures SliceAt(text, sentences[..n], slices[..n], k, space) {
      assert SliceAt(text, sentences, slices, k, space);
      assert EndOf(slices[..n], k) == EndOf(slices, k);
    }
  }

  lemma SliceEnd(text: string, sentences: seq<string>, slices: seq<Slice>, upto: nat, space: Space)
    requires Traced(text, sentences, slices, upto, space) && slices != []
    ensures slices[|slices| - 1].to <= upto
  {
  }

  /** Sentences lose nothing but whitespace. */
  lemma {:induction false} TracedContent(text: string, sentences: seq<string>, slices: seq<Slice>, upto: nat,
                                         space: Space)
    requires Traced(text, sentences, slices, upto, space)
    ensures Contents(sentences, space) == Content(text[..upto], space)
    decreases |slices|
  {
    var n := |slices|;
    if n == 0 {
      BlankContent(text[..upto], space);
    } else {
      var s := slices[n - 1];
      assert SliceAt(text, sentences, slices, n - 1, space);
      SliceEnd(text, sentences, slices, upto, space);
      TracedPrefix(text, sentences, slices, upto, space);
      TracedContent(text, sentences[..n - 1], slices[..n - 1], s.from, space);
      SplitLast(text, s, upto, space);
    }
  }

  lemma SplitLast(text: string, s: Slice, upto: nat, space: Space)
    requires s.from <= s.to && BlankIn(text, s.to, upto, space)
    ensures Content(text[..upto], space) == Content(text[..s.from], space) + Content(text[s.from..s.to], space)
  {
    var a, b, c := text[..s.from], text[s.from..s.to], text[s.to..upto];
    assert text[..upto] == a + b + c;
    ContentConcat(a + b, c, space);
    ContentConcat(a, b, space);
    BlankContent(c, space);
  }

  // ---------------------------------------------------------------- boundary recovery

  predicate Occurs(text: string, part: string, at: nat) {
    at + |part| <= |text| && text[at..at + |part|] == part
  }

  /** First occurrence of `part` at or after `from`. */
  method Find(text: string, part: string, from: nat) returns (r: Option<nat>)
    ensures r.Some? ==> from <= r.value && Occurs(text, part, r.value)
    ensures forall k: nat :: from <= k < (if r.Some? then r.value else |text| + 1) ==> !Occurs(text, part, k)
  {
    var at := from;
    while at + |part| <= |text|
      invariant at >= from
      invariant forall k: nat :: from <= k < at ==> !Occurs(text, part, k)
      decreases |text| - at
    {
      if text[at..at + |part|] == part {
        return Some(at);
      }
      at := at + 1;
    }
    return None;
  }

  /** A sentence starts with a non-blank character, so it cannot occur inside the gap. */
  lemma FirstOccurrence(text: string, sentence: string, s: Slice, cursor: nat, at: nat, space: Space)
    requires IsSlice(text, sentence, s, space) && BlankIn(text, cursor, s.from, space) && cursor <= at
    requires Occurs(text, sentence, at)
    ensures at >= s.from
  {
    assert text[at] == text[at..at + |sentence|][0] == sentence[0];
  }

  function Ends(slices: seq<Slice>): seq<nat> {
    seq(|slices|, k requires 0 <= k < |slices| => slices[k].to)
  }

  /** After `index` sentences the cursor is at the end of slice `index - 1`. */
  ghost predicate Matches(slices: seq<Slice>, index: nat, cursor: nat, offsets: seq<nat>) {
    index <= |slices| && cursor == EndOf(slices, index)
    && |offsets| == (if index < |slices| then index else index - 1) && offsets == Ends(slices)[..|offsets|]
  }

  lemma MatchesNext(slices: seq<Slice>, index: nat, cursor: nat, offsets: seq<nat>)
    requires Matches(slices, index, cursor, offsets) && index < |slices|
    ensures var end := slices[index].to;
            Matches(slices, index + 1, end, if index < |slices| - 1 then offsets + [end] else offsets)
  {
  }

  /** Offsets where one sentence ends and another follows. On the scanner's output it never
      fails and returns the ends of the true slices, all but the last. */
  method BoundaryOffsets(text: string, sentences: seq<string>, space: Space) returns (r: Option<seq<nat>>)
    ensures forall slices :: Traced(text, sentences, slices, |text|, space) ==>
              r == Some(Ends(slices)[..if slices == [] then 0 else |slices| - 1])
  {
    if |sentences| <= 1 {
      return Some([]);
    }
    var offsets: seq<nat> := [];
    var cursor: nat := 0;
    for index := 0 to |sentences|
      invariant forall slices :: Traced(text, sentences, slices, |text|, space) ==>
                  Matches(slices, index, cursor, offsets)
    {
      var position := Find(text, sentences[index], cursor);
      ghost var more := if position.Some? && index < |sentences| - 1
                        then offsets + [position.value + |sentences[index]|] else offsets;
      forall slices: seq<Slice> | Traced(text, sentences, slices, |text|, space)
        ensures position.Some? && Matches(slices, index + 1, position.value + |sentences[index]|, more)
      {
        Located(text, sentences, slices, index, cursor, position, space);
        MatchesNext(slices, index, cursor, offsets);
      }
      if position.None? {
        return None;
      }
      cursor := position.value + |sentences[index]|;
      if index < |sentences| - 1 {
        offsets := offsets + [cursor];
      }
    }
    return Some(offsets);
  }

  lemma Located(text: string, sentences: seq<string>, slices: seq<Slice>, index: nat, cursor: nat,
                position: Option<nat>, space: Space)
    requires Traced(text, sentences, slices, |text|, space) && index < |slices| && cursor == EndOf(slices, index)
    requires position.Some? ==> cursor <= position.value && Occurs(text, sentences[index], position.value)
    requires forall k: nat :: cursor <= k < (if position.Some? then position.value else |text| + 1) ==>
               !Occurs(text, sentences[index], k)
    ensures position == Some(slices[index].from) && slices[index].from + |sentences[index]| == slices[index].to
  {
    var s := slices[index];
    assert SliceAt(text, sentences, slices, index, space);
    assert Occurs(text, sentences[index], s.from);
    if position.Some? {
      FirstOccurrence(text, sentences[index], s, cursor, position.value, space);
    }
  }
}
