/** Texts as the splitter sees them. Which characters are whitespace is a parameter; the
    content of a text is what is left when whitespace is removed. */
module Text {

  type Space = char -> bool

  predicate Blank(t: string, space: Space) {
    forall k :: 0 <= k < |t| ==> space(t[k])
  }

  /** No whitespace inside. */
  predicate Solid(t: string, space: Space) {
    forall k :: 0 <= k < |t| ==> !space(t[k])
  }

  /** Non-empty, with no whitespace at either end. */
  predicate Trimmed(t: string, space: Space) {
    t != [] && !space(t[0]) && !space(t[|t| - 1])
  }

  function Content(t: string, space: Space): string {
    if t == [] then [] else
      var n := |t| - 1;
      Content(t[..n], space) + if space(t[n]) then [] else [t[n]]
  }

  lemma Assoc<T>(a: seq<T>, b: seq<T>, c: seq<T>)
    ensures (a + b) + c == a + (b + c)
  {
  }

  lemma ContentSnoc(t: string, c: char, space: Space)
    ensures Content(t + [c], space) == Content(t, space) + if space(c) then [] else [c]
  {
    assert (t + [c])[..|t|] == t;
  }

  lemma {:induction false} ContentConcat(a: string, b: string, space: Space)
    ensures Content(a + b, space) == Content(a, space) + Content(b, space)
  {
    if b == [] {
      assert a + b == a;
    } else {
      var n := |b| - 1;
      var init, c := b[..n], b[n];
      assert b == init + [c];
      ContentConcat(a, init, space);
      Assoc(a, init, [c]);
      ContentSnoc(a + init, c, space);
      ContentSnoc(init, c, space);
      Assoc(Content(a, space), Content(init, space), if space(c) then [] else [c]);
    }
  }

  lemma {:induction false} BlankContent(t: string, space: Space)
    ensures Content(t, space) == [] <==> Blank(t, space)
  {
    if t != [] {
      BlankContent(t[..|t| - 1], space);
    }
  }

  // ---------------------------------------------------------------- stripping

  /** First position from `i` on that is not whitespace. */
  function SkipSpace(t: string, i: nat, space: Space): (n: nat)
    requires i <= |t|
    ensures i <= n <= |t| && (forall k :: i <= k < n ==> space(t[k])) && (n < |t| ==> !space(t[n]))
    decreases |t| - i
  {
    if i < |t| && space(t[i]) then SkipSpace(t, i + 1, space) else i
  }

  /** Position after the last non-whitespace character before `j`. */
  function BackSpace(t: string, j: nat, space: Space): (n: nat)
    requires j <= |t|
    ensures n <= j && (forall k :: n <= k < j ==> space(t[k])) && (n > 0 ==> !space(t[n - 1]))
  {
    if j > 0 && space(t[j - 1]) then BackSpace(t, j - 1, space) else j
  }

  /** First whitespace position from `i` on. */
  function SkipWord(t: string, i: nat, space: Space): (n: nat)
    requires i <= |t|
    ensures i <= n <= |t| && (forall k :: i <= k < n ==> !space(t[k])) && (n < |t| ==> space(t[n]))
    decreases |t| - i
  {
    if i < |t| && !space(t[i]) then SkipWord(t, i + 1, space) else i
  }

  function Lead(t: string, space: Space): nat { SkipSpace(t, 0, space) }

  function Trail(t: string, space: Space): nat { BackSpace(t, |t|, space) }

  function Strip(t: string, space: Space): (r: string)
    ensures r == [] || Trimmed(r, space)
    ensures |r| <= |t|
  {
    var a, b := Lead(t, space), Trail(t, space);
    if a < b then t[a..b] else []
  }

  lemma ThreeParts(t: string, a: nat, b: nat, space: Space)
    requires a <= b <= |t| && Blank(t[..a], space) && Blank(t[b..], space)
    ensures Content(t, space) == Content(t[a..b], space)
  {
    var x, y, z := t[..a], t[a..b], t[b..];
    assert t == (x + y) + z;
    ContentConcat(x + y, z, space);
    ContentConcat(x, y, space);
    BlankContent(x, space);
    BlankContent(z, space);
  }

  lemma StripContent(t: string, space: Space)
    ensures Content(Strip(t, space), space) == Content(t, space)
  {
    var a, b := Lead(t, space), Trail(t, space);
    if a < b {
      ThreeParts(t, a, b, space);
    } else {
      BlankContent(t, space);
    }
  }

  lemma StripTrimmed(t: string, space: Space)
    requires Trimmed(t, space)
    ensures Strip(t, space) == t
  {
  }

  // ---------------------------------------------------------------- joining

  function Join(sep: string, parts: seq<string>): string {
    if |parts| == 0 then []
    else if |parts| == 1 then parts[0]
    else Join(sep, parts[..|parts| - 1]) + sep + parts[|parts| - 1]
  }

  /** The content of several texts, in order. */
  function Contents(parts: seq<string>, space: Space): string {
    if parts == [] then [] else Contents(parts[..|parts| - 1], space) + Content(parts[|parts| - 1], space)
  }

  lemma JoinSnoc(sep: string, parts: seq<string>, p: string)
    ensures Join(sep, parts + [p]) == if parts == [] then p else Join(sep, parts) + sep + p
  {
    assert (parts + [p])[..|parts|] == parts;
  }

  lemma ContentsSnoc(parts: seq<string>, p: string, space: Space)
    ensures Contents(parts + [p], space) == Contents(parts, space) + Content(p, space)
  {
    assert (parts + [p])[..|parts|] == parts;
  }

  lemma {:induction false} ContentsConcat(a: seq<string>, b: seq<string>, space: Space)
    ensures Contents(a + b, space) == Contents(a, space) + Contents(b, space)
  {
    if b == [] {
      assert a + b == a;
    } else {
      var n := |b| - 1;
      var init, p := b[..n], b[n];
      assert b == init + [p];
      ContentsConcat(a, init, space);
      Assoc(a, init, [p]);
      ContentsSnoc(a + init, p, space);
      ContentsSnoc(init, p, space);
      Assoc(Contents(a, space), Contents(init, space), Content(p, space));
    }
  }

  /** Joining with blank separators keeps exactly the content of the parts. */
  lemma {:induction false} JoinContent(sep: string, parts: seq<string>, space: Space)
    requires Blank(sep, space)
    ensures Content(Join(sep, parts), space) == Contents(parts, space)
  {
    if |parts| == 1 {
      assert parts[..0] == [];
    } else if |parts| > 1 {
      var n := |parts| - 1;
      JoinContent(sep, parts[..n], space);
      ContentConcat(Join(sep, parts[..n]) + sep, parts[n], space);
      ContentConcat(Join(sep, parts[..n]), sep, space);
      BlankContent(sep, space);
    }
  }

  /** Concatenation is joining with nothing between. */
  lemma {:induction false} JoinEmptyLength(parts: seq<string>, p: string)
    ensures |Join([], parts + [p])| == |Join([], parts)| + |p|
    ensures Join([], parts + [p]) == Join([], parts) + p
  {
    JoinSnoc([], parts, p);
    assert Join([], parts) + [] + p == Join([], parts) + p;
  }

  lemma {:induction false} JoinEmptyConcat(a: seq<string>, b: seq<string>)
    ensures Join([], a + b) == Join([], a) + Join([], b)
  {
    if b == [] {
      assert a + b == a;
    } else {
      var n := |b| - 1;
      var init, p := b[..n], b[n];
      assert b == init + [p];
      JoinEmptyConcat(a, init);
      Assoc(a, init, [p]);
      JoinEmptyLength(a + init, p);
      JoinEmptyLength(init, p);
      Assoc(Join([], a), Join([], init), p);
    }
  }

  // ---------------------------------------------------------------- tokens

  /** The whitespace-delimited tokens from position `i` on. */
  function TokensFrom(t: string, i: nat, space: Space): seq<string>
    requires i <= |t|
    decreases |t| - i
  {
    var a := SkipSpace(t, i, space);
    if a == |t| then [] else
      var b := SkipWord(t, a, space);
      [t[a..b]] + TokensFrom(t, b, space)
  }

  function Tokens(t: string, space: Space): seq<string> { TokensFrom(t, 0, space) }

  predicate IsToken(t: string, space: Space) {
    t != [] && Solid(t, space)
  }

  lemma {:induction false} TokensSolid(t: string, i: nat, space: Space)
    requires i <= |t|
    ensures forall k :: 0 <= k < |TokensFrom(t, i, space)| ==> IsToken(TokensFrom(t, i, space)[k], space)
    decreases |t| - i
  {
    var a := SkipSpace(t, i, space);
    if a < |t| {
      TokensSolid(t, SkipWord(t, a, space), space);
    }
  }

  lemma ContentsOne(word: string, space: Space)
    ensures Contents([word], space) == Content(word, space)
  {
    assert [word][..0] == [];
  }

  lemma FirstToken(blank: string, word: string, tail: string, rest: seq<string>, space: Space)
    requires Blank(blank, space) && Contents(rest, space) == Content(tail, space)
    ensures Contents([word] + rest, space) == Content(blank + word + tail, space)
  {
    ContentConcat(blank + word, tail, space);
    ContentConcat(blank, word, space);
    BlankContent(blank, space);
    ContentsConcat([word], rest, space);
    ContentsOne(word, space);
  }

  lemma NextToken(t: string, i: nat, a: nat, b: nat, rest: seq<string>, space: Space)
    requires i <= a <= b <= |t| && Blank(t[i..a], space) && Contents(rest, space) == Content(t[b..], space)
    ensures Contents([t[a..b]] + rest, space) == Content(t[i..], space)
  {
    FirstToken(t[i..a], t[a..b], t[b..], rest, space);
    assert t[i..] == t[i..a] + t[a..b] + t[b..];
  }

  /** Tokens lose nothing but whitespace. */
  lemma {:induction false} TokensContent(t: string, i: nat, space: Space)
    requires i <= |t|
    ensures Contents(TokensFrom(t, i, space), space) == Content(t[i..], space)
    ensures TokensFrom(t, i, space) == [] ==> Blank(t[i..], space)
    decreases |t| - i
  {
    var a := SkipSpace(t, i, space);
    if a == |t| {
      BlankContent(t[i..], space);
    } else {
      var b := SkipWord(t, a, space);
      TokensContent(t, b, space);
      NextToken(t, i, a, b, TokensFrom(t, b, space), space);
    }
  }
}
