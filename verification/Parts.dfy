/** What the part writer and the streaming reader achieve, told without their loops. */
module Parts {
  import opened Base
  import opened Artifacts
  import opened FullPieces
  import G = Greedy

  // ---------------------------------------------------------------- writing

  /** The writer's groups, exactly: within both limits and as full as they can be. */
  lemma PiecesExactly(c: Codec, rs: seq<Record>, maxRecords: nat, maxBytes: nat, pieces: seq<seq<Record>>)
    requires maxRecords > 0 && AllFit(c, rs, maxBytes)
    ensures pieces == Pieces(c, rs, maxRecords, maxBytes)
       <==> FullPartition(pieces, rs, LineSize(c), PartLimits(maxRecords, maxBytes))
  {
    GoExactly(rs, pieces, LineSize(c), PartLimits(maxRecords, maxBytes));
  }

  // ---------------------------------------------------------------- lines

  /** Every line, each followed by a newline. */
  function Unlines(lines: seq<Bytes>): Bytes {
    if lines == [] then [] else lines[0] + [NEWLINE] + Unlines(lines[1..])
  }

  ghost predicate NoNewlines(lines: seq<Bytes>) {
    forall k :: 0 <= k < |lines| ==> NEWLINE !in lines[k]
  }

  lemma LinesHead(line: Bytes, data: Bytes)
    requires NEWLINE !in line
    ensures LinesOf(line + [NEWLINE] + data) == [line] + LinesOf(data)
    ensures Remainder(line + [NEWLINE] + data) == Remainder(data)
  {
    var all := line + [NEWLINE] + data;
    assert all[..|line|] == line;
    FirstNewline(all, |line|);
    assert all[|line| + 1..] == data;
  }

  lemma {:induction false} LinesUnique(lines: seq<Bytes>, rest: Bytes)
    requires NoNewlines(lines) && NEWLINE !in rest
    ensures LinesOf(Unlines(lines) + rest) == lines && Remainder(Unlines(lines) + rest) == rest
  {
    if lines == [] {
      assert Unlines(lines) + rest == rest;
    } else {
      var tail := lines[1..];
      LinesUnique(tail, rest);
      LinesHead(lines[0], Unlines(tail) + rest);
      assert Unlines(lines) + rest == lines[0] + [NEWLINE] + (Unlines(tail) + rest);
      assert lines == [lines[0]] + tail;
    }
  }

  lemma UnlinesHead(line: Bytes, lines: seq<Bytes>, rest: Bytes)
    ensures Unlines([line] + lines) + rest == line + [NEWLINE] + (Unlines(lines) + rest)
  {
    assert ([line] + lines)[1..] == lines;
  }

  lemma ConsNoNewlines(line: Bytes, lines: seq<Bytes>)
    requires NEWLINE !in line && NoNewlines(lines)
    ensures NoNewlines([line] + lines)
  {
  }

  lemma SplitLine(data: Bytes) returns (line: Bytes, tail: Bytes)
    requires NEWLINE in data
    ensures NEWLINE !in line && data == line + [NEWLINE] + tail && |tail| < |data|
  {
    var i := IndexOf(data, NEWLINE);
    line, tail := data[..i], data[i + 1..];
  }

  lemma {:induction false} LinesRebuild(data: Bytes)
    ensures NoNewlines(LinesOf(data)) && NEWLINE !in Remainder(data)
    ensures Unlines(LinesOf(data)) + Remainder(data) == data
    decreases |data|
  {
    if NEWLINE in data {
      var line, tail := SplitLine(data);
      LinesRebuild(tail);
      var lines, rest := LinesOf(tail), Remainder(tail);
      LinesHead(line, tail);
      ConsNoNewlines(line, lines);
      UnlinesHead(line, lines, rest);
    }
  }

  /** The lines and the remainder of some bytes, exactly. */
  lemma LinesExactly(data: Bytes, lines: seq<Bytes>, rest: Bytes)
    ensures lines == LinesOf(data) && rest == Remainder(data)
       <==> NoNewlines(lines) && NEWLINE !in rest && Unlines(lines) + rest == data
  {
    LinesRebuild(data);
    if NoNewlines(lines) && NEWLINE !in rest && Unlines(lines) + rest == data {
      LinesUnique(lines, rest);
    }
  }

  // ---------------------------------------------------------------- decoding

  function NonBlank(lines: seq<Bytes>): seq<Bytes> {
    if lines == [] then [] else
      var n := |lines| - 1;
      NonBlank(lines[..n]) + if lines[n] == [] then [] else [lines[n]]
  }

  /** `rs` are the records on the non-blank lines. */
  ghost predicate RecordsOf(c: Codec, lines: seq<Bytes>, rs: seq<Record>) {
    |rs| == |NonBlank(lines)| && forall k :: 0 <= k < |rs| ==> c.decode(NonBlank(lines)[k]) == Some(rs[k])
  }

  ghost predicate BadLine(c: Codec, lines: seq<Bytes>) {
    exists line :: line in lines && line != [] && c.decode(line).None?
  }

  /** Blank lines are skipped, and one line that does not decode to an object fails it all. */
  lemma {:induction false} DecodesExactly(c: Codec, lines: seq<Bytes>)
    ensures DecodeAll(c, lines).None? <==> BadLine(c, lines)
    ensures DecodeAll(c, lines).Some? ==> RecordsOf(c, lines, DecodeAll(c, lines).value)
  {
    if lines != [] {
      var n := |lines| - 1;
      var init, last := lines[..n], lines[n];
      DecodesExactly(c, init);
      assert lines == init + [last];
      if BadLine(c, init) {
        var line :| line in init && line != [] && c.decode(line).None?;
        assert line in lines;
      } else if last != [] && c.decode(last).None? {
        assert last in lines;
      }
    }
  }

  // ---------------------------------------------------------------- one part

  ghost predicate Intact(sha: Bytes -> string, data: Bytes, part: ArtifactPart) {
    |data| == part.byteCount && sha(data) == part.sha256
  }

  /** The outcome of reading a part: each failure exactly when it is the first thing wrong,
      and otherwise the records on its lines. */
  lemma StreamedExactly(c: Codec, sha: Bytes -> string, data: Bytes, part: ArtifactPart)
    ensures var r, lines := Streamed(c, sha, data, part), LinesOf(data);
            && (r == Err(CorruptLine) <==> BadLine(c, lines))
            && (r == Err(TruncatedRecord) <==> !BadLine(c, lines) && Remainder(data) != [])
            && (r == Err(IntegrityFailure)
                <==> !BadLine(c, lines) && Remainder(data) == [] && !Intact(sha, data, part))
            && (r == Err(CountFailure) <==> !BadLine(c, lines) && Remainder(data) == [] && Intact(sha, data, part)
                                            && |NonBlank(lines)| != part.recordCount)
            && (r.Ok? <==> !BadLine(c, lines) && Remainder(data) == [] && Intact(sha, data, part)
                           && |NonBlank(lines)| == part.recordCount)
            && (r.Ok? ==> RecordsOf(c, lines, r.value))
  {
    DecodesExactly(c, LinesOf(data));
  }

  // ---------------------------------------------------------------- the whole artifact

  ghost predicate Accepted(c: Codec, sha: Bytes -> string, e: Encoded) {
    Streamed(c, sha, e.payload, e.part).Ok?
  }

  /** The records of the accepted parts of one kind, part by part. */
  function RecordsIn(c: Codec, sha: Bytes -> string, es: seq<Encoded>, kind: Kind): seq<Record> {
    Each(es, RecordsFrom(c, sha, kind))
  }

  function RecordsFrom(c: Codec, sha: Bytes -> string, kind: Kind): Encoded -> seq<Record> {
    (e: Encoded) =>
      var r := Streamed(c, sha, e.payload, e.part);
      if r.Ok? && e.part.kind == kind then r.value else []
  }

  /** Part `k` is the first that is not accepted, for the reason `f`. */
  ghost predicate FailsAt(c: Codec, sha: Bytes -> string, es: seq<Encoded>, k: nat, f: Failure) {
    && k < |es| && (forall i :: 0 <= i < k ==> Accepted(c, sha, es[i]))
    && Streamed(c, sha, es[k].payload, es[k].part) == Err(f)
  }

  ghost predicate AllAccepted(c: Codec, sha: Bytes -> string, es: seq<Encoded>) {
    forall i :: 0 <= i < |es| ==> Accepted(c, sha, es[i])
  }

  lemma FailureSnoc(c: Codec, sha: Bytes -> string, init: seq<Encoded>, last: Encoded, f: Failure)
    requires if AllAccepted(c, sha, init) then Streamed(c, sha, last.payload, last.part) == Err(f)
             else exists k: nat :: FailsAt(c, sha, init, k, f)
    ensures !AllAccepted(c, sha, init + [last]) && exists k: nat :: FailsAt(c, sha, init + [last], k, f)
  {
    var es, n := init + [last], |init|;
    if AllAccepted(c, sha, init) {
      assert FailsAt(c, sha, es, n, f) && !Accepted(c, sha, es[n]);
    } else {
      var k: nat :| FailsAt(c, sha, init, k, f);
      assert FailsAt(c, sha, es, k, f) && !Accepted(c, sha, es[k]);
    }
  }

  lemma AcceptedSnoc(c: Codec, sha: Bytes -> string, init: seq<Encoded>, last: Encoded)
    ensures AllAccepted(c, sha, init + [last]) <==> AllAccepted(c, sha, init) && Accepted(c, sha, last)
  {
    var es, n := init + [last], |init|;
    assert es[n] == last;
    assert forall i :: 0 <= i < n ==> es[i] == init[i];
  }

  /** The outcome of collecting the parts `es`. */
  ghost predicate CollectsAs(c: Codec, sha: Bytes -> string, es: seq<Encoded>, kind: Kind,
                             r: Result<seq<Record>, Failure>) {
    if AllAccepted(c, sha, es) then r == Ok(RecordsIn(c, sha, es, kind))
    else r.Err? && exists k: nat :: FailsAt(c, sha, es, k, r.error)
  }

  lemma CollectsNext(c: Codec, sha: Bytes -> string, init: seq<Encoded>, last: Encoded, kind: Kind,
                     before: Result<seq<Record>, Failure>)
    requires CollectsAs(c, sha, init, kind, before)
    ensures CollectsAs(c, sha, init + [last], kind, CollectNext(c, sha, before, last, kind))
  {
    AcceptedSnoc(c, sha, init, last);
    EachConcat(init, [last], RecordsFrom(c, sha, kind));
    EachOne(last, RecordsFrom(c, sha, kind));
    var r := CollectNext(c, sha, before, last, kind);
    if !AllAccepted(c, sha, init + [last]) {
      FailureSnoc(c, sha, init, last, r.error);
    } else if last.part.kind != kind {
      assert RecordsIn(c, sha, init, kind) + [] == RecordsIn(c, sha, init, kind);
    }
  }

  lemma {:induction false} CollectsExactly(c: Codec, sha: Bytes -> string, es: seq<Encoded>, kind: Kind)
    ensures CollectsAs(c, sha, es, kind, Collect(c, sha, es, kind))
  {
    if es != [] {
      var n := |es| - 1;
      assert es == es[..n] + [es[n]];
      CollectsExactly(c, sha, es[..n], kind);
      CollectsNext(c, sha, es[..n], es[n], kind, Collect(c, sha, es[..n], kind));
    }
  }

  /** The outcome of loading: it succeeds exactly when every part is accepted and both totals
      are right, and then returns the records of each kind part by part; otherwise it fails
      for the reason of the first part not accepted, or for the totals. */
  lemma LoadedExactly(c: Codec, sha: Bytes -> string, es: seq<Encoded>, elements: nat, fragments: nat)
    ensures var r := Loaded(c, sha, es, elements, fragments);
            var all := AllAccepted(c, sha, es);
            var xs, ys := RecordsIn(c, sha, es, Elements), RecordsIn(c, sha, es, Fragments);
            && (r.Ok? <==> all && |xs| == elements && |ys| == fragments)
            && (r.Ok? ==> r.value == (xs, ys))
            && (all && r.Err? ==> r.error == TotalsMismatch)
            && (!all ==> exists k: nat :: FailsAt(c, sha, es, k, r.error))
  {
    CollectsExactly(c, sha, es, Elements);
    CollectsExactly(c, sha, es, Fragments);
  }
}
