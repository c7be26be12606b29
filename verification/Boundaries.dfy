/** Where sentences end: every end has a reason in the text, no end lies in a run that reads
    on, and no run that ends a sentence is passed over. */
module Boundaries {
  import opened Base
  import opened Text
  import opened Sentence

  /** Why a sentence ends: a run of terminals that starts at `at`, a paragraph break there, or
      the end of the text. */
  datatype Boundary = AtCut(at: nat) | AtParagraph(at: nat) | AtEnd(at: nat)

  ghost predicate EndsBy(text: string, s: Slice, b: Boundary, rules: Rules, space: Space) {
    && b.at <= |text|
    && match b
       case AtCut(at) =>
         at < |text| && IsCut(text, at, rules, space) && BlankIn(text, s.to, Reach(text, at, rules), space)
       case AtParagraph(at) => ParagraphAt(text, at) && BlankIn(text, s.to, at, space)
       case AtEnd(at) => at == |text| && BlankIn(text, s.to, |text|, space)
  }

  /** A character that belongs to runs. */
  predicate RunChar(c: char, rules: Rules) {
    rules.terminal(c) || c == '.' || c == ELLIPSIS
  }

  /** A run that may end a sentence starts here: no run character stands before it. */
  predicate RunStart(text: string, i: nat, rules: Rules, space: Space) {
    && i < |text| && Opens(text, i, rules) && !rules.closer(text[i]) && !space(text[i])
    && (i > 0 ==> !RunChar(text[i - 1], rules))
  }

  /** No boundary was found inside the run at `r`, if that reads on. */
  ghost predicate ReadOver(text: string, ends: seq<Boundary>, r: nat, rules: Rules, space: Space) {
    RunStart(text, r, rules, space) && Continues(text, r, rules) ==>
      forall k :: 0 <= k < |ends| ==> !(r <= ends[k].at < Reach(text, r, rules))
  }

  /** The run at `r` is a boundary, if it ends a sentence. */
  ghost predicate Found(text: string, ends: seq<Boundary>, r: nat, rules: Rules, space: Space) {
    RunStart(text, r, rules, space) && IsCut(text, r, rules, space) ==> AtCut(r) in ends
  }

  /** Sentences as slices behind `from`, with only whitespace between. */
  ghost predicate Sliced(text: string, sentences: seq<string>, slices: seq<Slice>, from: nat, space: Space) {
    |slices| == |sentences| && forall k: nat :: k < |slices| ==> SlicedAt(text, sentences, slices, from, k, space)
  }

  ghost predicate SlicedAt(text: string, sentences: seq<string>, slices: seq<Slice>, from: nat, k: nat, space: Space)
    requires k < |slices| == |sentences|
  {
    && IsSlice(text, sentences[k], slices[k], space)
    && BlankIn(text, if k == 0 then from else slices[k - 1].to, slices[k].from, space)
  }

  /** Everything there is to say about the ends found from position `i` on. */
  ghost predicate Bounded(text: string, slices: seq<Slice>, ends: seq<Boundary>, i: nat, rules: Rules, space: Space) {
    && |ends| == |slices|
    && (forall k :: 0 <= k < |ends| ==> i <= ends[k].at)
    && (forall k: nat :: k < |ends| ==> EndsAt(text, slices, ends, k, rules, space))
    && (forall r: nat :: i <= r ==> RunMet(text, ends, r, rules, space))
  }

  ghost predicate EndsAt(text: string, slices: seq<Slice>, ends: seq<Boundary>, k: nat, rules: Rules, space: Space)
    requires k < |ends| == |slices|
  {
    EndsBy(text, slices[k], ends[k], rules, space)
  }

  ghost predicate RunMet(text: string, ends: seq<Boundary>, r: nat, rules: Rules, space: Space) {
    ReadOver(text, ends, r, rules, space) && Found(text, ends, r, rules, space)
  }

  // ---------------------------------------------------------------- no run start is jumped over

  lemma InsideRun(text: string, i: nat, r: nat, rules: Rules)
    requires i < |text| && i < r <= RunEnd(text, i, rules) && r <= |text| && Opens(text, i, rules)
    ensures RunChar(text[r - 1], rules)
  {
    if DotsAt(text, i) {
      assert text[i..i + 3][0] == '.' && text[i..i + 3][1] == '.' && text[i..i + 3][2] == '.';
    }
  }

  /** Between the start of a run and the end of its closers no other run starts. */
  lemma NoStartWithin(text: string, i: nat, r: nat, rules: Rules, space: Space)
    requires i < |text| && i < r < Reach(text, i, rules) && Opens(text, i, rules)
    ensures !RunStart(text, r, rules, space)
  {
    if r <= RunEnd(text, i, rules) {
      InsideRun(text, i, r, rules);
    }
  }

  /** Nothing starts between `i` and `to`. */
  ghost predicate NoStarts(text: string, i: nat, to: nat, rules: Rules, space: Space) {
    forall r: nat :: i <= r < to ==> !RunStart(text, r, rules, space)
  }

  lemma BlankNoStarts(text: string, a: nat, b: nat, rules: Rules, space: Space)
    requires BlankIn(text, a, b, space)
    ensures NoStarts(text, a, b, rules, space)
  {
  }

  lemma RunNoStarts(text: string, i: nat, rules: Rules, space: Space)
    requires i < |text| && Opens(text, i, rules)
    ensures NoStarts(text, i + 1, Reach(text, i, rules), rules, space)
  {
    forall r: nat | i + 1 <= r < Reach(text, i, rules) ensures !RunStart(text, r, rules, space) {
      NoStartWithin(text, i, r, rules, space);
    }
  }

  // ---------------------------------------------------------------- steps of the scan

  /** The scan moves from `i` to `to` without a boundary. */
  lemma MoveBounded(text: string, slices: seq<Slice>, ends: seq<Boundary>, i: nat, to: nat, rules: Rules, space: Space)
    requires i < to <= |text| && i < |text| && Bounded(text, slices, ends, to, rules, space)
    requires NoStarts(text, i + 1, to, rules, space) && !IsCut(text, i, rules, space)
    requires Opens(text, i, rules) && Continues(text, i, rules) ==> to == Reach(text, i, rules)
    ensures Bounded(text, slices, ends, i, rules, space)
  {
    forall r: nat | i <= r ensures RunMet(text, ends, r, rules, space) {
      if r >= to {
        assert RunMet(text, ends, r, rules, space);
      } else if r > i {
        assert !RunStart(text, r, rules, space);
      }
    }
  }

  lemma LaterReadOver(text: string, b: Boundary, ends: seq<Boundary>, r: nat, rules: Rules, space: Space)
    requires ReadOver(text, ends, r, rules, space) && b.at < r
    ensures ReadOver(text, [b] + ends, r, rules, space)
  {
    var all := [b] + ends;
    assert forall k :: 0 < k < |all| ==> all[k] == ends[k - 1];
  }

  /** One boundary more in front changes nothing for the run starts behind it. */
  lemma LaterRun(text: string, b: Boundary, ends: seq<Boundary>, r: nat, rules: Rules, space: Space)
    requires RunMet(text, ends, r, rules, space) && b.at < r
    ensures RunMet(text, [b] + ends, r, rules, space)
  {
    LaterReadOver(text, b, ends, r, rules, space);
    assert AtCut(r) in ends ==> AtCut(r) in [b] + ends;
  }

  lemma FirstRun(text: string, b: Boundary, ends: seq<Boundary>, rules: Rules, space: Space)
    requires if b.AtCut? then b.at < |text| && IsCut(text, b.at, rules, space) else !RunStart(text, b.at, rules, space)
    ensures RunMet(text, [b] + ends, b.at, rules, space)
  {
    assert ([b] + ends)[0] == b;
  }

  /** The scan finds a boundary `b` at `i` and resumes at `to`. */
  lemma BoundBounded(text: string, s: Slice, b: Boundary, slices: seq<Slice>, ends: seq<Boundary>, i: nat, to: nat,
                     rules: Rules, space: Space)
    requires i < to <= |text| && Bounded(text, slices, ends, to, rules, space)
    requires b.at == i && EndsBy(text, s, b, rules, space) && NoStarts(text, i + 1, to, rules, space)
    requires b.AtCut? || !RunStart(text, i, rules, space)
    ensures Bounded(text, [s] + slices, [b] + ends, i, rules, space)
  {
    var all, cuts := [b] + ends, [s] + slices;
    forall k: nat | k < |all| ensures EndsAt(text, cuts, all, k, rules, space) {
      if k > 0 {
        assert EndsAt(text, slices, ends, k - 1, rules, space);
      }
    }
    forall r: nat | i <= r ensures RunMet(text, all, r, rules, space) {
      if r >= to {
        LaterRun(text, b, ends, r, rules, space);
      } else if r > i {
        assert !RunStart(text, r, rules, space);
      } else {
        FirstRun(text, b, ends, rules, space);
      }
    }
  }

  /** The scan finds a boundary at `i` behind nothing but whitespace. */
  lemma SkipBounded(text: string, slices: seq<Slice>, ends: seq<Boundary>, i: nat, to: nat, rules: Rules, space: Space)
    requires i < to <= |text| && Bounded(text, slices, ends, to, rules, space)
    requires NoStarts(text, i, to, rules, space)
    ensures Bounded(text, slices, ends, i, rules, space)
  {
    forall r: nat | i <= r ensures RunMet(text, ends, r, rules, space) {
      if r >= to {
        assert RunMet(text, ends, r, rules, space);
      } else {
        assert !RunStart(text, r, rules, space);
      }
    }
  }

  /** A first slice in front, or none if there was only whitespace. */
  lemma SlicedCons(text: string, start: nat, cut: nat, end: nat, sentences: seq<string>, slices: seq<Slice>,
                   space: Space)
    returns (more: seq<Slice>)
    requires start <= cut && BlankIn(text, cut, end, space) && Sliced(text, sentences, slices, end, space)
    ensures Sliced(text, Emit([], Strip(text[start..cut], space)) + sentences, more, start, space)
    ensures if Strip(text[start..cut], space) == [] then more == slices
            else more == [StripAt(text, start, cut, space)] + slices
                 && BlankIn(text, StripAt(text, start, cut, space).to, cut, space)
  {
    var sentence := Strip(text[start..cut], space);
    if sentence == [] {
      StripIsBlank(text, start, cut, space);
      more := slices;
      assert [] + sentences == sentences;
      forall k: nat | k < |slices| ensures SlicedAt(text, sentences, slices, start, k, space) {
        assert SlicedAt(text, sentences, slices, end, k, space);
      }
    } else {
      var s := StripAt(text, start, cut, space);
      StripIsSlice(text, start, cut, space);
      more := [s] + slices;
      var all := Emit([], sentence) + sentences;
      assert all == [sentence] + sentences;
      forall k: nat | k < |more| ensures SlicedAt(text, all, more, start, k, space) {
        if k > 0 {
          assert SlicedAt(text, sentences, slices, end, k - 1, space);
        }
      }
    }
  }

  lemma EmptySliced(text: string, from: nat, rules: Rules, space: Space)
    ensures Sliced(text, [], [], from, space) && Bounded(text, [], [], |text|, rules, space)
  {
    forall r: nat | |text| <= r ensures ReadOver(text, [], r, rules, space) && Found(text, [], r, rules, space) {
    }
  }

  /** The end of the text ends the last sentence. */
  lemma LastBounded(text: string, start: nat, rules: Rules, space: Space)
    returns (slices: seq<Slice>, ends: seq<Boundary>)
    requires start <= |text|
    ensures Sliced(text, Scan(text, start, |text|, rules, space), slices, start, space)
    ensures Bounded(text, slices, ends, |text|, rules, space)
  {
    EmptySliced(text, |text|, rules, space);
    slices := SlicedCons(text, start, |text|, |text|, [], [], space);
    assert text[start..] == text[start..|text|];
    var last := Emit([], Strip(text[start..], space));
    assert last + [] == last;
    if slices == [] {
      ends := [];
    } else {
      ends := [AtEnd(|text|)];
      assert slices == [StripAt(text, start, |text|, space)];
      forall r: nat | |text| <= r ensures ReadOver(text, ends, r, rules, space) && Found(text, ends, r, rules, space) {
      }
    }
  }

  lemma CutBounded(text: string, start: nat, i: nat, rules: Rules, space: Space, later: seq<Slice>,
                   laterEnds: seq<Boundary>)
    returns (slices: seq<Slice>, ends: seq<Boundary>)
    requires start <= i < |text| && !ParagraphAt(text, i) && IsCut(text, i, rules, space)
    requires var end := After(text, Reach(text, i, rules), space);
             Sliced(text, Scan(text, end, end, rules, space), later, end, space)
             && Bounded(text, later, laterEnds, end, rules, space)
    ensures Sliced(text, Scan(text, start, i, rules, space), slices, start, space)
    ensures Bounded(text, slices, ends, i, rules, space)
  {
    var cut := Reach(text, i, rules);
    var end := After(text, cut, space);
    slices := SlicedCons(text, start, cut, end, Scan(text, end, end, rules, space), later, space);
    RunNoStarts(text, i, rules, space);
    BlankNoStarts(text, cut, end, rules, space);
    if Strip(text[start..cut], space) == [] {
      StripIsBlank(text, start, cut, space);
      ends := laterEnds;
      SkipBounded(text, later, laterEnds, i, end, rules, space);
    } else {
      ends := [AtCut(i)] + laterEnds;
      BoundBounded(text, slices[0], AtCut(i), later, laterEnds, i, end, rules, space);
    }
  }

  lemma ParagraphBounded(text: string, start: nat, i: nat, rules: Rules, space: Space, later: seq<Slice>,
                         laterEnds: seq<Boundary>)
    returns (slices: seq<Slice>, ends: seq<Boundary>)
    requires space('\n') && start <= i < |text| && ParagraphAt(text, i)
    requires var end := AfterParagraph(text, i);
             Sliced(text, Scan(text, end, end, rules, space), later, end, space)
             && Bounded(text, later, laterEnds, end, rules, space)
    ensures Sliced(text, Scan(text, start, i, rules, space), slices, start, space)
    ensures Bounded(text, slices, ends, i, rules, space)
  {
    var end := AfterParagraph(text, i);
    assert BlankIn(text, i, end, space);
    slices := SlicedCons(text, start, i, end, Scan(text, end, end, rules, space), later, space);
    BlankNoStarts(text, i, end, rules, space);
    if Strip(text[start..i], space) == [] {
      ends := laterEnds;
      SkipBounded(text, later, laterEnds, i, end, rules, space);
    } else {
      ends := [AtParagraph(i)] + laterEnds;
      BoundBounded(text, slices[0], AtParagraph(i), later, laterEnds, i, end, rules, space);
    }
  }

  /** What the scanner finds from position `i` on. */
  lemma {:induction false} ScanBounded(text: string, start: nat, i: nat, rules: Rules, space: Space)
    returns (slices: seq<Slice>, ends: seq<Boundary>)
    requires space('\n') && start <= i <= |text|
    ensures Sliced(text, Scan(text, start, i, rules, space), slices, start, space)
    ensures Bounded(text, slices, ends, i, rules, space)
    decreases |text| - i
  {
    if i == |text| {
      slices, ends := LastBounded(text, start, rules, space);
    } else if ParagraphAt(text, i) {
      var end := AfterParagraph(text, i);
      slices, ends := ScanBounded(text, end, end, rules, space);
      slices, ends := ParagraphBounded(text, start, i, rules, space, slices, ends);
    } else if IsCut(text, i, rules, space) {
      var end := After(text, Reach(text, i, rules), space);
      slices, ends := ScanBounded(text, end, end, rules, space);
      slices, ends := CutBounded(text, start, i, rules, space, slices, ends);
    } else {
      var to := Skip(text, i, rules);
      slices, ends := ScanBounded(text, start, to, rules, space);
      if Opens(text, i, rules) {
        RunNoStarts(text, i, rules, space);
      }
      MoveBounded(text, slices, ends, i, to, rules, space);
    }
  }

  // ---------------------------------------------------------------- the slices are determined

  lemma TracedSliced(text: string, sentences: seq<string>, slices: seq<Slice>, upto: nat, space: Space)
    requires Traced(text, sentences, slices, upto, space)
    ensures Sliced(text, sentences, slices, 0, space)
  {
    forall k: nat | k < |slices| ensures SlicedAt(text, sentences, slices, 0, k, space) {
      assert SliceAt(text, sentences, slices, k, space);
    }
  }

  lemma {:induction false} SamePlace(text: string, sentences: seq<string>, a: seq<Slice>, b: seq<Slice>, from: nat,
                                     k: nat, space: Space)
    requires Sliced(text, sentences, a, from, space) && Sliced(text, sentences, b, from, space) && k < |sentences|
    ensures a[k] == b[k]
  {
    if k > 0 {
      SamePlace(text, sentences, a, b, from, k - 1, space);
    }
    assert SlicedAt(text, sentences, a, from, k, space) && SlicedAt(text, sentences, b, from, k, space);
    assert text[a[k].from] == sentences[k][0] == text[b[k].from];
  }

  /** The slices of the scanner's sentences: each ends where the text says so, none ends in a
      run that reads on, and every run that ends a sentence ends one of them. */
  lemma SlicesEndWell(text: string, slices: seq<Slice>, rules: Rules, space: Space) returns (ends: seq<Boundary>)
    requires space('\n') && Traced(text, Scan(text, 0, 0, rules, space), slices, |text|, space)
    ensures Bounded(text, slices, ends, 0, rules, space)
  {
    var sentences := Scan(text, 0, 0, rules, space);
    var found: seq<Slice>;
    found, ends := ScanBounded(text, 0, 0, rules, space);
    TracedSliced(text, sentences, slices, |text|, space);
    forall k | 0 <= k < |slices| ensures slices[k] == found[k] {
      SamePlace(text, sentences, slices, found, 0, k, space);
    }
    assert slices == found;
  }

  /** In particular a run that reads on stays inside one sentence: none that ends by a cut ends
      within it, and none begins within it. */
  lemma RunStaysWhole(text: string, slices: seq<Slice>, ends: seq<Boundary>, r: nat, k: nat, rules: Rules,
                      space: Space)
    requires Bounded(text, slices, ends, 0, rules, space) && k < |slices|
    requires RunStart(text, r, rules, space) && Continues(text, r, rules)
    requires forall j: nat :: r <= j < Reach(text, r, rules) ==> !space(text[j])
    ensures slices[k].to <= r || slices[k].to >= Reach(text, r, rules)
  {
    assert RunMet(text, ends, r, rules, space) && EndsAt(text, slices, ends, k, rules, space);
    var b, to, end := ends[k], slices[k].to, Reach(text, r, rules);
    if r < to < end {
      assert !space(text[to]);
      CutInside(text, slices[k], b, r, rules, space);
    }
  }

  /** A slice that ends inside such a run ends by a boundary inside it, or by one that opened
      before it and reaches into it. */
  lemma CutInside(text: string, s: Slice, b: Boundary, r: nat, rules: Rules, space: Space)
    requires EndsBy(text, s, b, rules, space) && RunStart(text, r, rules, space) && r < s.to < Reach(text, r, rules)
    requires !space(text[s.to])
    ensures r <= b.at < Reach(text, r, rules)
  {
    match b
    case AtCut(at) =>
      assert Reach(text, at, rules) == s.to;
      if at < r {
        NoStartWithin(text, at, r, rules, space);
      }
    case AtParagraph(at) =>
      assert at == s.to;
    case AtEnd(at) =>
  }

  // ---------------------------------------------------------------- paragraphs

  predicate BreakAt(text: string, q: nat) {
    q + 1 < |text| && text[q] == '\n' && text[q + 1] == '\n'
  }

  /** No slice holds any of the paragraph break at `q`. */
  ghost predicate PartedAt(slices: seq<Slice>, q: nat) {
    forall k :: 0 <= k < |slices| ==> slices[k].to <= q || slices[k].from >= q + 2
  }

  ghost predicate Parted(text: string, slices: seq<Slice>, i: nat) {
    forall q: nat :: i <= q && BreakAt(text, q) ==> PartedAt(slices, q)
  }

  /** A newline belongs to no run. */
  predicate PlainNewline(rules: Rules) {
    !rules.terminal('\n') && !rules.closer('\n')
  }

  lemma BreakIsParagraph(text: string, q: nat)
    ensures ParagraphAt(text, q) <==> BreakAt(text, q)
  {
    if ParagraphAt(text, q) {
      assert text[q] == text[q..q + 2][0] && text[q + 1] == text[q..q + 2][1];
    }
  }

  lemma NoBreakInRun(text: string, i: nat, q: nat, rules: Rules)
    requires i < |text| && Opens(text, i, rules) && i < q < Reach(text, i, rules) && PlainNewline(rules)
    ensures !BreakAt(text, q)
  {
    if q < RunEnd(text, i, rules) {
      InsideRun(text, i, q + 1, rules);
    }
  }

  lemma {:induction false} SlicesBehind(text: string, sentences: seq<string>, slices: seq<Slice>, from: nat, k: nat,
                                        space: Space)
    requires Sliced(text, sentences, slices, from, space) && k < |slices|
    ensures slices[k].from >= from
  {
    if k > 0 {
      SlicesBehind(text, sentences, slices, from, k - 1, space);
      assert SlicedAt(text, sentences, slices, from, k - 1, space);
    }
    assert SlicedAt(text, sentences, slices, from, k, space);
  }

  /** One slice more in front, up to `cut`, and whitespace from there to `end`. */
  lemma PartedCons(text: string, start: nat, i: nat, cut: nat, end: nat, sentences: seq<string>, slices: seq<Slice>,
                   space: Space)
    returns (more: seq<Slice>)
    requires start <= cut && BlankIn(text, cut, end, space) && Sliced(text, sentences, slices, end, space)
    requires Parted(text, slices, end) && i <= end
    requires forall q: nat :: i <= q < end && BreakAt(text, q) ==> cut <= q && q + 1 < end
    ensures Sliced(text, Emit([], Strip(text[start..cut], space)) + sentences, more, start, space)
    ensures Parted(text, more, i)
  {
    more := SlicedCons(text, start, cut, end, sentences, slices, space);
    forall q: nat | i <= q && BreakAt(text, q) ensures PartedAt(more, q) {
      assert q >= end ==> PartedAt(slices, q);
      forall k: nat | k < |slices| ensures slices[k].to <= q || slices[k].from >= q + 2 {
        SlicesBehind(text, sentences, slices, end, k, space);
      }
    }
  }

  lemma {:induction false} ScanParted(text: string, start: nat, i: nat, rules: Rules, space: Space)
    returns (slices: seq<Slice>)
    requires space('\n') && start <= i <= |text| && PlainNewline(rules)
    ensures Sliced(text, Scan(text, start, i, rules, space), slices, start, space) && Parted(text, slices, i)
    decreases |text| - i
  {
    BreakIsParagraph(text, i);
    if i == |text| {
      var ends;
      slices, ends := LastBounded(text, start, rules, space);
    } else if ParagraphAt(text, i) {
      var end := AfterParagraph(text, i);
      slices := ScanParted(text, end, end, rules, space);
      slices := PartedCons(text, start, i, i, end, Scan(text, end, end, rules, space), slices, space);
    } else if IsCut(text, i, rules, space) {
      var cut := Reach(text, i, rules);
      var end := After(text, cut, space);
      slices := ScanParted(text, end, end, rules, space);
      forall q: nat | i < q < cut ensures !BreakAt(text, q) {
        NoBreakInRun(text, i, q, rules);
      }
      slices := PartedCons(text, start, i, cut, end, Scan(text, end, end, rules, space), slices, space);
    } else {
      var to := Skip(text, i, rules);
      slices := ScanParted(text, start, to, rules, space);
      forall q: nat | i < q < to ensures !BreakAt(text, q) {
        NoBreakInRun(text, i, q, rules);
      }
    }
  }

  /** A paragraph break always parts sentences. */
  lemma ParagraphsPart(text: string, slices: seq<Slice>, rules: Rules, space: Space)
    requires space('\n') && PlainNewline(rules)
    requires Traced(text, Scan(text, 0, 0, rules, space), slices, |text|, space)
    ensures Parted(text, slices, 0)
  {
    var sentences := Scan(text, 0, 0, rules, space);
    var found := ScanParted(text, 0, 0, rules, space);
    TracedSliced(text, sentences, slices, |text|, space);
    forall k | 0 <= k < |slices| ensures slices[k] == found[k] {
      SamePlace(text, sentences, slices, found, 0, k, space);
    }
    assert slices == found;
  }

  // ---------------------------------------------------------------- what a cut is

  predicate ThreeDots(text: string, i: nat) {
    i + 2 < |text| && text[i] == '.' && text[i + 1] == '.' && text[i + 2] == '.'
  }

  lemma DotsAreThree(text: string, i: nat)
    ensures DotsAt(text, i) <==> ThreeDots(text, i)
  {
    if DotsAt(text, i) {
      assert text[i] == text[i..i + 3][0] && text[i + 1] == text[i..i + 3][1] && text[i + 2] == text[i..i + 3][2];
    }
  }

  /** The run at `i`, of dots or of terminals, goes on to `mid` and no further. */
  predicate RunTo(text: string, i: nat, mid: nat, rules: Rules) {
    && i < mid <= |text|
    && if ThreeDots(text, i) then
         (forall k :: i <= k < mid ==> text[k] == '.') && (mid < |text| ==> text[mid] != '.')
       else
         (forall k :: i < k < mid ==> rules.terminal(text[k])) && (mid < |text| ==> !rules.terminal(text[mid]))
  }

  /** From `mid` to `end` there are closers, and no further. */
  predicate ClosersTo(text: string, mid: nat, end: nat, rules: Rules) {
    && mid <= end <= |text|
    && (forall k :: mid <= k < end ==> rules.closer(text[k])) && (end < |text| ==> !rules.closer(text[end]))
  }

  lemma RunAndClosers(text: string, i: nat, rules: Rules)
    requires i < |text|
    ensures RunTo(text, i, RunEnd(text, i, rules), rules)
    ensures ClosersTo(text, RunEnd(text, i, rules), Reach(text, i, rules), rules)
  {
    DotsAreThree(text, i);
  }

  /** The run at `i` with its closers up to `end` ends a sentence exactly when it is an ellipsis
      or a terminal, no reported speech goes on behind it, and the rules let an ellipsis end
      here, or a period that is not guarded has whitespace or nothing behind it. */
  lemma CutExactly(text: string, i: nat, mid: nat, end: nat, rules: Rules, space: Space)
    requires RunTo(text, i, mid, rules) && ClosersTo(text, mid, end, rules)
    ensures Reach(text, i, rules) == end
    ensures var ellipsis := ThreeDots(text, i) || text[i] == ELLIPSIS;
            IsCut(text, i, rules, space) <==>
              && (ellipsis || rules.terminal(text[i]))
              && !rules.reporting(text, end, end > mid)
              && (ellipsis ==> rules.ellipsisEnds(text, end))
              && (text[i] == '.' && !ThreeDots(text, i) ==>
                    !rules.guarded(text, i) && (end == |text| || space(text[end])))
  {
    RunAndClosers(text, i, rules);
    assert RunEnd(text, i, rules) == mid;
    DotsAreThree(text, i);
  }
}
