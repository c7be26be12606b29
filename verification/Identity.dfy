/** Fragment ids: a digest of the joined identity fields, in which the source ids are joined
    with commas. */
module Identity {
  import opened Base
  import opened Text
  import opened Chunks
  import opened Units
  import opened Document
  import opened Grouping
  import opened Fragments

  const SEPARATOR: char := '\U{1f}'

  // ---------------------------------------------------------------- joining is invertible

  predicate Free(t: string, c: char) {
    c !in t
  }

  ghost predicate AllFree(parts: seq<string>, c: char) {
    forall x :: x in parts ==> Free(x, c)
  }

  /** The last separator is where the last part begins. */
  lemma LastSeparator(u: string, x: string, v: string, y: string, c: char)
    requires u + [c] + x == v + [c] + y && Free(x, c) && Free(y, c)
    ensures u == v && x == y
  {
    var s, t := u + [c] + x, v + [c] + y;
    assert s[|u|] == c && t[|v|] == c;
    assert forall k :: |v| < k < |t| ==> t[k] == y[k - |v| - 1] && t[k] != c;
    assert forall k :: |u| < k < |s| ==> s[k] == x[k - |u| - 1] && s[k] != c;
    assert s[..|u|] == u && t[..|v|] == v && s[|u| + 1..] == x && t[|v| + 1..] == y;
  }

  lemma JoinHasSeparator(c: char, parts: seq<string>)
    requires parts != [] && AllFree(parts, c)
    ensures c in Join([c], parts) <==> |parts| > 1
  {
    assert parts[0] in parts;
    if |parts| > 1 {
      var n := |parts| - 1;
      var head := Join([c], parts[..n]);
      assert (head + [c] + parts[n])[|head|] == c;
    }
  }

  lemma {:induction false} JoinInjective(c: char, a: seq<string>, b: seq<string>)
    requires a != [] && b != [] && AllFree(a, c) && AllFree(b, c) && Join([c], a) == Join([c], b)
    ensures a == b
    decreases |a|
  {
    JoinHasSeparator(c, a);
    JoinHasSeparator(c, b);
    if |a| > 1 {
      var m, n := |a| - 1, |b| - 1;
      assert a[m] in a && b[n] in b;
      LastSeparator(Join([c], a[..m]), a[m], Join([c], b[..n]), b[n], c);
      JoinInjective(c, a[..m], b[..n]);
      assert a == a[..m] + [a[m]] && b == b[..n] + [b[n]];
    }
  }

  // ---------------------------------------------------------------- decimal numerals

  function Digit(n: nat): char
    requires n < 10
  {
    ['0', '1', '2', '3', '4', '5', '6', '7', '8', '9'][n]
  }

  function Decimal(n: nat): (r: string)
    ensures r != []
  {
    if n < 10 then [Digit(n)] else Decimal(n / 10) + [Digit(n % 10)]
  }

  lemma {:induction false} DecimalFree(n: nat, c: char)
    requires c < '0' || c > '9'
    ensures Free(Decimal(n), c)
  {
    if n >= 10 {
      DecimalFree(n / 10, c);
    }
  }

  lemma {:induction false} DecimalInjective(m: nat, n: nat)
    requires Decimal(m) == Decimal(n)
    ensures m == n
  {
    var s, t := Decimal(m), Decimal(n);
    assert s[|s| - 1] == Digit(m % 10) && t[|t| - 1] == Digit(n % 10);
    assert m % 10 == n % 10;
    if m >= 10 && n >= 10 {
      assert s[..|s| - 1] == Decimal(m / 10) && t[..|t| - 1] == Decimal(n / 10);
      DecimalInjective(m / 10, n / 10);
    }
  }

  // ---------------------------------------------------------------- the payload

  /** Document and profile fields, the same for all fragments of one split: those before and
      those after the content hash. */
  datatype Origin = Origin(documentId: string, documentVersion: string, rest: seq<string>)

  function KindName(kind: FragmentType): string {
    match kind
    case SectionFragment => "SECTION"
    case ParagraphFragment => "PARAGRAPH"
    case ListFragment => "LIST"
    case TableFragment => "TABLE"
    case CodeFragment => "CODE"
    case OtherFragment => "OTHER"
  }

  function RowName(row: Option<nat>): string {
    if row.None? then "" else Decimal(row.value)
  }

  function Fields(o: Origin, hash: string -> string, f: Fragment): seq<string> {
    [o.documentId, o.documentVersion, Join(",", f.sourceIds), hash(f.text)] + o.rest
    + [KindName(f.kind), Decimal(f.continuation), RowName(f.rowFrom), RowName(f.rowTo)]
  }

  function FragmentId(o: Origin, hash: string -> string, f: Fragment): string {
    hash(Join([SEPARATOR], Fields(o, hash, f)))
  }

  /** Digests and document fields never hold the field separator. */
  ghost predicate CleanOrigin(o: Origin, hash: string -> string) {
    && Free(o.documentId, SEPARATOR) && Free(o.documentVersion, SEPARATOR) && AllFree(o.rest, SEPARATOR)
    && forall t :: Free(hash(t), SEPARATOR)
  }

  /** Element ids that survive being joined. */
  ghost predicate CleanIds(f: Fragment) {
    f.sourceIds != [] && AllFree(f.sourceIds, ',') && AllFree(f.sourceIds, SEPARATOR)
  }

  lemma {:induction false} JoinFree(sep: string, parts: seq<string>, c: char)
    requires AllFree(parts, c) && c !in sep
    ensures Free(Join(sep, parts), c)
  {
    if |parts| > 1 {
      var n := |parts| - 1;
      assert forall x :: x in parts[..n] ==> x in parts;
      JoinFree(sep, parts[..n], c);
      assert parts[n] in parts;
    } else if |parts| == 1 {
      assert parts[0] in parts;
    }
  }

  lemma FieldsFree(o: Origin, hash: string -> string, f: Fragment)
    requires CleanOrigin(o, hash) && AllFree(f.sourceIds, SEPARATOR)
    ensures AllFree(Fields(o, hash, f), SEPARATOR)
  {
    JoinFree(",", f.sourceIds, SEPARATOR);
    DecimalFree(f.continuation, SEPARATOR);
    if f.rowFrom.Some? {
      DecimalFree(f.rowFrom.value, SEPARATOR);
    }
    if f.rowTo.Some? {
      DecimalFree(f.rowTo.value, SEPARATOR);
    }
    var a := [o.documentId, o.documentVersion, Join(",", f.sourceIds), hash(f.text)];
    var b := [KindName(f.kind), Decimal(f.continuation), RowName(f.rowFrom), RowName(f.rowTo)];
    assert AllFree(a, SEPARATOR);
    KindFree(f.kind);
    assert AllFree(b, SEPARATOR);
  }

  lemma KindFree(kind: FragmentType)
    ensures Free(KindName(kind), SEPARATOR)
  {
  }

  /** The fields of two fragments agree, as far as the payload tells them apart. */
  predicate SamePayload(f: Fragment, g: Fragment) {
    && Join(",", f.sourceIds) == Join(",", g.sourceIds) && f.text == g.text && f.kind == g.kind
    && f.continuation == g.continuation && f.rowFrom == g.rowFrom && f.rowTo == g.rowTo
  }

  lemma KindNames(a: FragmentType, b: FragmentType)
    requires KindName(a) == KindName(b)
    ensures a == b
  {
    assert |KindName(SectionFragment)| == 7 && |KindName(ParagraphFragment)| == 9 && |KindName(ListFragment)| == 4;
    assert KindName(a)[0] == KindName(b)[0];
  }

  lemma RowNames(a: Option<nat>, b: Option<nat>)
    requires RowName(a) == RowName(b)
    ensures a == b
  {
    if a.Some? && b.Some? {
      DecimalInjective(a.value, b.value);
    }
  }

  lemma FieldsAt(o: Origin, hash: string -> string, f: Fragment)
    ensures var a, n := Fields(o, hash, f), 4 + |o.rest|;
            && |a| == n + 4 && a[2] == Join(",", f.sourceIds) && a[3] == hash(f.text) && a[n] == KindName(f.kind)
            && a[n + 1] == Decimal(f.continuation) && a[n + 2] == RowName(f.rowFrom) && a[n + 3] == RowName(f.rowTo)
  {
  }

  lemma FieldsDetermine(o: Origin, hash: string -> string, f: Fragment, g: Fragment)
    requires Injective(hash) && Fields(o, hash, f) == Fields(o, hash, g)
    ensures SamePayload(f, g)
  {
    FieldsAt(o, hash, f);
    FieldsAt(o, hash, g);
    KindNames(f.kind, g.kind);
    DecimalInjective(f.continuation, g.continuation);
    RowNames(f.rowFrom, g.rowFrom);
    RowNames(f.rowTo, g.rowTo);
  }

  /** Two fragments of one document get the same id if and only if the comma-joins of their
      source ids and all other payload fields agree. */
  lemma SameIdIff(o: Origin, hash: string -> string, f: Fragment, g: Fragment)
    requires Injective(hash) && CleanOrigin(o, hash)
    requires AllFree(f.sourceIds, SEPARATOR) && AllFree(g.sourceIds, SEPARATOR)
    ensures FragmentId(o, hash, f) == FragmentId(o, hash, g) <==> SamePayload(f, g)
  {
    if FragmentId(o, hash, f) == FragmentId(o, hash, g) {
      FieldsFree(o, hash, f);
      FieldsFree(o, hash, g);
      JoinInjective(SEPARATOR, Fields(o, hash, f), Fields(o, hash, g));
      FieldsDetermine(o, hash, f, g);
    }
  }

  /** Among ids without commas the join says it all. */
  lemma SameIdSameIdentity(o: Origin, hash: string -> string, f: Fragment, g: Fragment)
    requires Injective(hash) && CleanOrigin(o, hash) && CleanIds(f) && CleanIds(g)
    requires FragmentId(o, hash, f) == FragmentId(o, hash, g)
    ensures f.sourceIds == g.sourceIds && f.continuation == g.continuation && f.text == g.text
  {
    SameIdIff(o, hash, f, g);
    JoinInjective(',', f.sourceIds, g.sourceIds);
  }

  /** Ids tell documents, versions and profiles apart too. */
  lemma SameIdSameOrigin(o: Origin, u: Origin, hash: string -> string, f: Fragment, g: Fragment)
    requires Injective(hash) && CleanOrigin(o, hash) && CleanOrigin(u, hash) && |o.rest| == |u.rest|
    requires AllFree(f.sourceIds, SEPARATOR) && AllFree(g.sourceIds, SEPARATOR)
    requires FragmentId(o, hash, f) == FragmentId(u, hash, g)
    ensures o == u && SamePayload(f, g)
  {
    FieldsFree(o, hash, f);
    FieldsFree(u, hash, g);
    var a, b := Fields(o, hash, f), Fields(u, hash, g);
    JoinInjective(SEPARATOR, a, b);
    assert o.documentId == a[0] == u.documentId && o.documentVersion == a[1] == u.documentVersion;
    assert o.rest == a[4..4 + |o.rest|] && u.rest == b[4..4 + |u.rest|];
    FieldsDetermine(o, hash, f, g);
  }
}
