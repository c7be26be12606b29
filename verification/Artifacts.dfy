/** Prepared artifacts: JSONL parts written by a greedy partitioner and read back from
    arbitrarily chopped byte streams. */
module Artifacts {
  import opened Base
  import G = Greedy

  newtype byte = x: int | 0 <= x < 256
  type Bytes = seq<byte>

  datatype Json = Null | Bool(b: bool) | Number(n: int) | Text(s: string) | Array(items: seq<Json>)
    | Object(fields: Record)
  type Record = map<string, Json>

  const NEWLINE: byte := 10

  /** Canonical JSON and its parser. `decode` answers None for invalid JSON and for values
      that are not objects. */
  datatype Codec = Codec(encode: Record -> Bytes, decode: Bytes -> Option<Record>)

  ghost predicate Lawful(c: Codec) {
    forall r: Record ::
      c.decode(c.encode(r)) == Some(r) && c.encode(r) != [] && NEWLINE !in c.encode(r)
  }

  datatype Kind = Elements | Fragments

  /** parts/<stem>-<index>.jsonl, the stem being fixed by the kind. */
  datatype Path = Path(stem: Kind, index: nat)

  datatype ArtifactPart = ArtifactPart(kind: Kind, path: Path, sha256: string, recordCount: nat, byteCount: nat)

  datatype Encoded = Encoded(part: ArtifactPart, payload: Bytes)

  datatype Failure = RecordTooLarge | CorruptLine | TruncatedRecord | IntegrityFailure | CountFailure | TotalsMismatch

  // ---------------------------------------------------------------- writing

  function Line(c: Codec, r: Record): Bytes {
    c.encode(r) + [NEWLINE]
  }

  function LineSize(c: Codec): Record -> nat {
    r => |Line(c, r)|
  }

  function Payload(c: Codec, rs: seq<Record>): Bytes {
    if rs == [] then [] else Payload(c, rs[..|rs| - 1]) + Line(c, rs[|rs| - 1])
  }

  lemma PayloadSize(c: Codec, rs: seq<Record>)
    ensures |Payload(c, rs)| == G.Weight(rs, LineSize(c))
  {
  }

  function Encode(c: Codec, sha: Bytes -> string, kind: Kind, index: nat, rs: seq<Record>): Encoded {
    var payload := Payload(c, rs);
    Encoded(ArtifactPart(kind, Path(kind, index), sha(payload), |rs|, |payload|), payload)
  }

  function EncodeAll(c: Codec, sha: Bytes -> string, kind: Kind, pieces: seq<seq<Record>>): (r: seq<Encoded>)
    ensures |r| == |pieces|
  {
    seq(|pieces|, i requires 0 <= i < |pieces| => Encode(c, sha, kind, i, pieces[i]))
  }

  function PartLimits(maxRecords: nat, maxBytes: nat): G.Limits {
    G.Limits(maxRecords, Some(maxBytes))
  }

  /** The record groups the writer forms. */
  function Pieces(c: Codec, rs: seq<Record>, maxRecords: nat, maxBytes: nat): seq<seq<Record>> {
    G.Go([], rs, LineSize(c), PartLimits(maxRecords, maxBytes))
  }

  ghost predicate AllFit(c: Codec, rs: seq<Record>, maxBytes: nat) {
    forall k :: 0 <= k < |rs| ==> |Line(c, rs[k])| <= maxBytes
  }

  lemma EncodeAllSnoc(c: Codec, sha: Bytes -> string, kind: Kind, pieces: seq<seq<Record>>, p: seq<Record>)
    ensures EncodeAll(c, sha, kind, pieces + [p])
            == EncodeAll(c, sha, kind, pieces) + [Encode(c, sha, kind, |pieces|, p)]
  {
  }

  lemma PayloadSnoc(c: Codec, rs: seq<Record>, r: Record)
    ensures Payload(c, rs + [r]) == Payload(c, rs) + Line(c, r)
  {
    assert (rs + [r])[..|rs|] == rs;
  }

  /** The buffers of the writer: `batch` holds the lines of the records in `open`. */
  datatype Buffer = Buffer(batch: Bytes, records: nat, result: seq<Encoded>)

  ghost predicate Buffered(c: Codec, sha: Bytes -> string, kind: Kind, b: Buffer, closed: seq<seq<Record>>,
                           open: seq<Record>) {
    b.batch == Payload(c, open) && b.records == |open| && b.result == EncodeAll(c, sha, kind, closed)
  }

  method Flush(c: Codec, sha: Bytes -> string, kind: Kind, b: Buffer, ghost closed: seq<seq<Record>>,
               ghost open: seq<Record>)
    returns (b': Buffer)
    requires Buffered(c, sha, kind, b, closed, open)
    ensures open != [] ==> Buffered(c, sha, kind, b', closed + [open], [])
    ensures open == [] ==> b' == b
  {
    if b.records == 0 {
      return b;
    }
    EncodeAllSnoc(c, sha, kind, closed, open);
    var index := |b.result|;
    var part := ArtifactPart(kind, Path(kind, index), sha(b.batch), b.records, |b.batch|);
    return Buffer([], 0, b.result + [Encoded(part, b.batch)]);
  }

  lemma MustCloseBytes(c: Codec, open: seq<Record>, r: Record, maxRecords: nat, maxBytes: nat)
    ensures G.MustClose(open, r, LineSize(c), PartLimits(maxRecords, maxBytes))
       <==> |open| > 0 && (|open| >= maxRecords || |Payload(c, open)| + |Line(c, r)| > maxBytes)
  {
    PayloadSize(c, open);
  }

  /** Append one record that fits, closing the open part first when a limit demands it. */
  method AddRecord(c: Codec, sha: Bytes -> string, kind: Kind, b: Buffer, ghost closed: seq<seq<Record>>,
                   ghost open: seq<Record>, r: Record, ghost rest: seq<Record>, maxRecords: nat, maxBytes: nat)
    returns (b': Buffer, ghost closed': seq<seq<Record>>, ghost open': seq<Record>)
    requires Buffered(c, sha, kind, b, closed, open)
    ensures Buffered(c, sha, kind, b', closed', open')
    ensures var size, lim := LineSize(c), PartLimits(maxRecords, maxBytes);
            closed' + G.Go(open', rest, size, lim) == closed + G.Go(open, [r] + rest, size, lim)
  {
    var line := Line(c, r);
    b', closed', open' := b, closed, open;
    MustCloseBytes(c, open, r, maxRecords, maxBytes);
    assert ([r] + rest)[1..] == rest;
    if b.records > 0 && (b.records >= maxRecords || |b.batch| + |line| > maxBytes) {
      b' := Flush(c, sha, kind, b, closed, open);
      closed', open' := closed + [open], [];
      assert [] + [r] == [r];
    }
    PayloadSnoc(c, open', r);
    open' := open' + [r];
    b' := b'.(batch := b'.batch + line, records := b'.records + 1);
  }

  method EncodePartitioned(c: Codec, sha: Bytes -> string, kind: Kind, rs: seq<Record>, maxRecords: nat, maxBytes: nat)
    returns (r: Result<seq<Encoded>, Failure>)
    requires maxRecords > 0 && maxBytes > 0
    ensures r.Ok? <==> AllFit(c, rs, maxBytes)
    ensures r.Ok? ==> r.value == EncodeAll(c, sha, kind, Pieces(c, rs, maxRecords, maxBytes))
    ensures r.Err? ==> r.error == RecordTooLarge
  {
    ghost var lim, size := PartLimits(maxRecords, maxBytes), LineSize(c);
    var b := Buffer([], 0, []);
    ghost var open: seq<Record>, closed: seq<seq<Record>> := [], [];
    var i := 0;
    assert rs[0..] == rs;
    while i < |rs|
      invariant 0 <= i <= |rs|
      invariant Buffered(c, sha, kind, b, closed, open)
      invariant forall k :: 0 <= k < i ==> |Line(c, rs[k])| <= maxBytes
      invariant closed + G.Go(open, rs[i..], size, lim) == Pieces(c, rs, maxRecords, maxBytes)
    {
      if |Line(c, rs[i])| > maxBytes {
        return Err(RecordTooLarge);
      }
      assert rs[i..] == [rs[i]] + rs[i + 1..];
      b, closed, open := AddRecord(c, sha, kind, b, closed, open, rs[i], rs[i + 1..], maxRecords, maxBytes);
      i := i + 1;
    }
    b := Flush(c, sha, kind, b, closed, open);
    return Ok(b.result);
  }

  // ---------------------------------------------------------------- reading

  /** First position from `i` on that holds `b`, or the length. */
  function IndexFrom(data: Bytes, b: byte, i: nat): (r: nat)
    requires i <= |data|
    ensures i <= r <= |data| && (r < |data| ==> data[r] == b) && forall k :: i <= k < r ==> data[k] != b
    decreases |data| - i
  {
    if i == |data| || data[i] == b then i else IndexFrom(data, b, i + 1)
  }

  function IndexOf(data: Bytes, b: byte): (i: nat)
    requires b in data
    ensures i < |data| && data[i] == b && b !in data[..i]
  {
    IndexFrom(data, b, 0)
  }

  /** The newline-terminated lines of `data`. */
  function LinesOf(data: Bytes): seq<Bytes>
    decreases |data|
  {
    if NEWLINE !in data then [] else
      var i := IndexOf(data, NEWLINE);
      [data[..i]] + LinesOf(data[i + 1..])
  }

  /** What follows the last newline of `data`. */
  function Remainder(data: Bytes): Bytes
    decreases |data|
  {
    if NEWLINE !in data then data else Remainder(data[IndexOf(data, NEWLINE) + 1..])
  }

  function DecodeAll(c: Codec, lines: seq<Bytes>): Option<seq<Record>> {
    if lines == [] then Some([]) else
      var last := lines[|lines| - 1];
      match DecodeAll(c, lines[..|lines| - 1])
      case None => None
      case Some(rs) =>
        if last == [] then Some(rs) else
          match c.decode(last)
          case None => None
          case Some(r) => Some(rs + [r])
  }

  /** Outcome of reading the bytes `data` as `part`, whatever chunks they arrive in. */
  function Streamed(c: Codec, sha: Bytes -> string, data: Bytes, part: ArtifactPart): Result<seq<Record>, Failure> {
    match DecodeAll(c, LinesOf(data))
    case None => Err(CorruptLine)
    case Some(rs) => Verdict(sha, data, Remainder(data), rs, part)
  }

  lemma FirstNewline(data: Bytes, i: nat)
    requires i < |data| && data[i] == NEWLINE && NEWLINE !in data[..i]
    ensures NEWLINE in data && IndexOf(data, NEWLINE) == i
  {
    var j := IndexOf(data, NEWLINE);
    assert forall k :: 0 <= k < i ==> data[k] == data[..i][k];
    assert data[j] == NEWLINE && forall k :: 0 <= k < j ==> data[k] == data[..j][k];
  }

  /** Taking the first line off a buffer takes it off the whole unread stream. */
  lemma PeelLine(buffer: Bytes, pending: Bytes)
    requires NEWLINE in buffer
    ensures var i := IndexOf(buffer, NEWLINE);
            && LinesOf(buffer + pending) == [buffer[..i]] + LinesOf(buffer[i + 1..] + pending)
            && Remainder(buffer + pending) == Remainder(buffer[i + 1..] + pending)
  {
    var i := IndexOf(buffer, NEWLINE);
    assert (buffer + pending)[..i] == buffer[..i];
    FirstNewline(buffer + pending, i);
    assert (buffer + pending)[i + 1..] == buffer[i + 1..] + pending;
  }

  lemma {:induction false} DecodeAllFails(c: Codec, a: seq<Bytes>, b: seq<Bytes>)
    requires DecodeAll(c, a).None?
    ensures DecodeAll(c, a + b).None?
  {
    if b == [] {
      assert a + b == a;
    } else {
      DecodeAllFails(c, a, b[..|b| - 1]);
      assert (a + b)[..|a + b| - 1] == a + b[..|b| - 1];
    }
  }

  /** Progress of the reader: `lines` are decoded into `records`, `unread` remains. */
  ghost predicate Reading(c: Codec, data: Bytes, lines: seq<Bytes>, records: seq<Record>, unread: Bytes) {
    && LinesOf(data) == lines + LinesOf(unread)
    && Remainder(data) == Remainder(unread)
    && DecodeAll(c, lines) == Some(records)
  }

  lemma DecodeSnoc(c: Codec, lines: seq<Bytes>, records: seq<Record>, line: Bytes)
    requires DecodeAll(c, lines) == Some(records)
    ensures line == [] ==> DecodeAll(c, lines + [line]) == Some(records)
    ensures line != [] && c.decode(line).Some?
            ==> DecodeAll(c, lines + [line]) == Some(records + [c.decode(line).value])
    ensures line != [] && c.decode(line).None? ==> DecodeAll(c, lines + [line]) == None
  {
    assert (lines + [line])[..|lines|] == lines;
  }

  /** Decode the complete lines of the buffer. */
  method Drain(c: Codec, ghost data: Bytes, ghost lines: seq<Bytes>, records: seq<Record>, buffer: Bytes,
               ghost pending: Bytes)
    returns (ok: bool, ghost lines': seq<Bytes>, records': seq<Record>, buffer': Bytes)
    requires Reading(c, data, lines, records, buffer + pending)
    ensures ok ==> Reading(c, data, lines', records', buffer' + pending) && NEWLINE !in buffer'
    ensures !ok ==> DecodeAll(c, LinesOf(data)).None?
  {
    lines', records', buffer' := lines, records, buffer;
    while NEWLINE in buffer'
      invariant Reading(c, data, lines', records', buffer' + pending)
      decreases |buffer'|
    {
      PeelLine(buffer', pending);
      var at := IndexOf(buffer', NEWLINE);
      var line := buffer'[..at];
      ghost var after := LinesOf(buffer'[at + 1..] + pending);
      assert lines' + [line] + after == lines' + ([line] + after);
      DecodeSnoc(c, lines', records', line);
      buffer' := buffer'[at + 1..];
      if line != [] {
        var record := c.decode(line);
        if record.None? {
          DecodeAllFails(c, lines' + [line], after);
          ok := false;
          return;
        }
        records' := records' + [record.value];
      }
      lines' := lines' + [line];
    }
    ok := true;
  }

  lemma ShiftChunk(a: Bytes, chunks: seq<Bytes>, i: nat)
    requires i < |chunks|
    ensures a + Flatten(chunks[i..]) == (a + chunks[i]) + Flatten(chunks[i + 1..])
  {
    assert chunks[i..][1..] == chunks[i + 1..];
  }

  /** The streaming reader: the result depends on the bytes alone, not on the chunking. */
  method StreamPart(c: Codec, sha: Bytes -> string, chunks: seq<Bytes>, part: ArtifactPart)
    returns (r: Result<seq<Record>, Failure>)
    ensures r == Streamed(c, sha, Flatten(chunks), part)
    ensures r.Ok? ==>
              |Flatten(chunks)| == part.byteCount && sha(Flatten(chunks)) == part.sha256
              && |r.value| == part.recordCount
  {
    var digested, buffer: Bytes := [], [];
    var records: seq<Record> := [];
    ghost var data := Flatten(chunks);
    ghost var lines: seq<Bytes> := [];
    var i := 0;
    assert chunks[0..] == chunks;
    assert [] + data == data;
    while i < |chunks|
      invariant 0 <= i <= |chunks|
      invariant digested + Flatten(chunks[i..]) == data
      invariant NEWLINE !in buffer
      invariant Reading(c, data, lines, records, buffer + Flatten(chunks[i..]))
    {
      ShiftChunk(buffer, chunks, i);
      ShiftChunk(digested, chunks, i);
      digested := digested + chunks[i];
      buffer := buffer + chunks[i];
      i := i + 1;
      var ok;
      ok, lines, records, buffer := Drain(c, data, lines, records, buffer, Flatten(chunks[i..]));
      if !ok {
        return Err(CorruptLine);
      }
    }
    assert buffer + Flatten(chunks[i..]) == buffer && digested == data;
    assert lines + LinesOf(buffer) == lines;
    r := Verdict(sha, digested, buffer, records, part);
  }

  /** The checks made once the stream has ended. */
  function Verdict(sha: Bytes -> string, data: Bytes, buffer: Bytes, records: seq<Record>,
                   part: ArtifactPart): Result<seq<Record>, Failure> {
    if buffer != [] then Err(TruncatedRecord)
    else if |data| != part.byteCount || sha(data) != part.sha256 then Err(IntegrityFailure)
    else if |records| != part.recordCount then Err(CountFailure)
    else Ok(records)
  }

  // ---------------------------------------------------------------- round trip

  function EncodedLines(c: Codec, rs: seq<Record>): (r: seq<Bytes>)
    ensures |r| == |rs|
  {
    seq(|rs|, i requires 0 <= i < |rs| => c.encode(rs[i]))
  }

  lemma LinesOfOne(line: Bytes)
    requires NEWLINE !in line
    ensures LinesOf(line + [NEWLINE]) == [line] && Remainder(line + [NEWLINE]) == []
  {
    var whole := line + [NEWLINE];
    assert whole[..|line|] == line;
    FirstNewline(whole, |line|);
    assert whole[|line| + 1..] == [];
    assert LinesOf([]) == [];
  }

  lemma {:induction false} LinesOfAppendLine(data: Bytes, line: Bytes)
    requires Remainder(data) == [] && NEWLINE !in line
    ensures LinesOf(data + (line + [NEWLINE])) == LinesOf(data) + [line]
    ensures Remainder(data + (line + [NEWLINE])) == []
    decreases |data|
  {
    if NEWLINE in data {
      LinesOfAppendLine(data[IndexOf(data, NEWLINE) + 1..], line);
      AppendBehind(data, line);
    } else {
      LinesOfOne(line);
      assert data + (line + [NEWLINE]) == line + [NEWLINE];
    }
  }

  /** What holds behind the first line holds of the whole. */
  lemma AppendBehind(data: Bytes, line: Bytes)
    requires NEWLINE in data
    requires var rest := data[IndexOf(data, NEWLINE) + 1..];
             && LinesOf(rest + (line + [NEWLINE])) == LinesOf(rest) + [line]
             && Remainder(rest + (line + [NEWLINE])) == []
    ensures LinesOf(data + (line + [NEWLINE])) == LinesOf(data) + [line]
    ensures Remainder(data + (line + [NEWLINE])) == []
  {
    var i := IndexOf(data, NEWLINE);
    var first, rest := data[..i], LinesOf(data[i + 1..]);
    PeelLine(data, line + [NEWLINE]);
    FirstLine(data);
    assert ([first] + rest) + [line] == [first] + (rest + [line]);
  }

  lemma FirstLine(data: Bytes)
    requires NEWLINE in data
    ensures var i := IndexOf(data, NEWLINE); LinesOf(data) == [data[..i]] + LinesOf(data[i + 1..])
  {
  }

  lemma EncodedLinesSnoc(c: Codec, rs: seq<Record>, r: Record)
    ensures EncodedLines(c, rs + [r]) == EncodedLines(c, rs) + [c.encode(r)]
  {
  }

  lemma {:induction false} PayloadLines(c: Codec, rs: seq<Record>)
    requires Lawful(c)
    ensures LinesOf(Payload(c, rs)) == EncodedLines(c, rs)
    ensures Remainder(Payload(c, rs)) == []
  {
    if rs != [] {
      var init, last := rs[..|rs| - 1], rs[|rs| - 1];
      assert init + [last] == rs;
      PayloadLines(c, init);
      var line := c.encode(last);
      assert NEWLINE !in line;
      var data := Payload(c, init);
      PayloadSnoc(c, init, last);
      LinesOfAppendLine(data, line);
      EncodedLinesSnoc(c, init, last);
    }
  }

  lemma {:induction false} DecodeEncoded(c: Codec, rs: seq<Record>)
    requires Lawful(c)
    ensures DecodeAll(c, EncodedLines(c, rs)) == Some(rs)
  {
    if rs != [] {
      var init := rs[..|rs| - 1];
      DecodeEncoded(c, init);
      var lines := EncodedLines(c, rs);
      assert lines[..|lines| - 1] == EncodedLines(c, init);
      assert init + [rs[|rs| - 1]] == rs;
    }
  }

  /** One part read back, from any chunking of its bytes, gives exactly its records. */
  lemma PartRoundTrip(c: Codec, sha: Bytes -> string, kind: Kind, index: nat, rs: seq<Record>)
    requires Lawful(c)
    ensures var e := Encode(c, sha, kind, index, rs);
            Streamed(c, sha, e.payload, e.part) == Ok(rs)
  {
    PayloadLines(c, rs);
    DecodeEncoded(c, rs);
  }

  /** With a collision-free digest the reader accepts no bytes but the ones written. */
  lemma OnlyWrittenBytesAccepted(c: Codec, sha: Bytes -> string, kind: Kind, index: nat, rs: seq<Record>, data: Bytes)
    requires Injective(sha)
    requires var e := Encode(c, sha, kind, index, rs); Streamed(c, sha, data, e.part).Ok?
    ensures data == Encode(c, sha, kind, index, rs).payload
  {
  }

  // ---------------------------------------------------------------- whole artifacts

  /** The records of all fetched parts of one kind, in part order, or the first failure. */
  function Collect(c: Codec, sha: Bytes -> string, es: seq<Encoded>, kind: Kind): Result<seq<Record>, Failure> {
    if es == [] then Ok([]) else
      CollectNext(c, sha, Collect(c, sha, es[..|es| - 1], kind), es[|es| - 1], kind)
  }

  function CollectNext(c: Codec, sha: Bytes -> string, before: Result<seq<Record>, Failure>, e: Encoded,
                       kind: Kind): Result<seq<Record>, Failure> {
    match before
    case Err(f) => Err(f)
    case Ok(rs) =>
      match Streamed(c, sha, e.payload, e.part)
      case Err(f) => Err(f)
      case Ok(more) => Ok(if e.part.kind == kind then rs + more else rs)
  }

  lemma CollectSnoc(c: Codec, sha: Bytes -> string, es: seq<Encoded>, e: Encoded, kind: Kind)
    ensures Collect(c, sha, es + [e], kind) == CollectNext(c, sha, Collect(c, sha, es, kind), e, kind)
  {
    assert (es + [e])[..|es|] == es;
  }

  /** The parts with the bytes their chunks concatenate to. */
  function Fetched(parts: seq<ArtifactPart>, chunked: seq<seq<Bytes>>): (r: seq<Encoded>)
    requires |chunked| == |parts|
    ensures |r| == |parts|
  {
    seq(|parts|, i requires 0 <= i < |parts| => Encoded(parts[i], Flatten(chunked[i])))
  }

  /** Outcome of loading the fetched parts: the first failure, a wrong total, or the records. */
  function Loaded(c: Codec, sha: Bytes -> string, got: seq<Encoded>, totalElements: nat, totalFragments: nat)
    : Result<(seq<Record>, seq<Record>), Failure>
  {
    match Collect(c, sha, got, Elements)
    case Err(f) => Err(f)
    case Ok(es) =>
      match Collect(c, sha, got, Fragments)
      case Err(f) => Err(f)
      case Ok(fs) => if |es| == totalElements && |fs| == totalFragments then Ok((es, fs)) else Err(TotalsMismatch)
  }

  /** Load every part, each arriving in chunks of the store's choosing, and check the totals. */
  method Load(c: Codec, sha: Bytes -> string, parts: seq<ArtifactPart>, chunked: seq<seq<Bytes>>,
              totalElements: nat, totalFragments: nat)
    returns (r: Result<(seq<Record>, seq<Record>), Failure>)
    requires |chunked| == |parts|
    ensures r == Loaded(c, sha, Fetched(parts, chunked), totalElements, totalFragments)
    ensures Collect(c, sha, Fetched(parts, chunked), Elements).Ok?
            <==> Collect(c, sha, Fetched(parts, chunked), Fragments).Ok?
  {
    ghost var got := Fetched(parts, chunked);
    var elements: seq<Record>, fragments: seq<Record> := [], [];
    var i := 0;
    while i < |parts|
      invariant 0 <= i <= |parts|
      invariant Collect(c, sha, got[..i], Elements) == Ok(elements)
      invariant Collect(c, sha, got[..i], Fragments) == Ok(fragments)
    {
      var records := StreamPart(c, sha, chunked[i], parts[i]);
      assert got[..i + 1] == got[..i] + [got[i]];
      CollectSnoc(c, sha, got[..i], got[i], Elements);
      CollectSnoc(c, sha, got[..i], got[i], Fragments);
      if records.Err? {
        CollectFails(c, sha, got, i + 1, Elements);
        CollectFails(c, sha, got, i + 1, Fragments);
        return Err(records.error);
      }
      if parts[i].kind == Elements {
        elements := elements + records.value;
      } else {
        fragments := fragments + records.value;
      }
      i := i + 1;
    }
    assert got[..i] == got;
    if |elements| != totalElements || |fragments| != totalFragments {
      return Err(TotalsMismatch);
    }
    return Ok((elements, fragments));
  }

  lemma {:induction false} CollectFails(c: Codec, sha: Bytes -> string, es: seq<Encoded>, k: nat, kind: Kind)
    requires k <= |es|
    requires Collect(c, sha, es[..k], kind).Err?
    ensures Collect(c, sha, es, kind) == Collect(c, sha, es[..k], kind)
    decreases |es|
  {
    if k == |es| {
      assert es[..k] == es;
    } else {
      var n := |es| - 1;
      assert es[..n][..k] == es[..k];
      CollectFails(c, sha, es[..n], k, kind);
    }
  }

  /** All parts a publication writes: element parts, then fragment parts. */
  function Published(c: Codec, sha: Bytes -> string, elements: seq<Record>, fragments: seq<Record>,
                     maxRecords: nat, maxBytes: nat): seq<Encoded>
  {
    EncodeAll(c, sha, Elements, Pieces(c, elements, maxRecords, maxBytes))
    + EncodeAll(c, sha, Fragments, Pieces(c, fragments, maxRecords, maxBytes))
  }

  lemma CollectPart(c: Codec, sha: Bytes -> string, es: seq<Encoded>, kind: Kind, of: Kind, n: nat, piece: seq<Record>,
                    rs: seq<Record>)
    requires Lawful(c)
    requires Collect(c, sha, es, kind) == Ok(rs)
    ensures Collect(c, sha, es + [Encode(c, sha, of, n, piece)], kind) == Ok(if of == kind then rs + piece else rs)
  {
    PartRoundTrip(c, sha, of, n, piece);
    CollectSnoc(c, sha, es, Encode(c, sha, of, n, piece), kind);
  }

  lemma AppendParts(c: Codec, sha: Bytes -> string, es: seq<Encoded>, of: Kind, init: seq<seq<Record>>,
                    last: seq<Record>)
    ensures es + EncodeAll(c, sha, of, init + [last])
         == (es + EncodeAll(c, sha, of, init)) + [Encode(c, sha, of, |init|, last)]
  {
    EncodeAllSnoc(c, sha, of, init, last);
  }

  function Gained(kind: Kind, of: Kind, rs: seq<Record>, pieces: seq<seq<Record>>): seq<Record> {
    if kind == of then rs + Flatten(pieces) else rs
  }

  lemma GainedSnoc(kind: Kind, of: Kind, rs: seq<Record>, init: seq<seq<Record>>, last: seq<Record>)
    ensures Gained(kind, of, rs, init + [last]) == if of == kind then Gained(kind, of, rs, init) + last
                                                   else Gained(kind, of, rs, init)
  {
    FlattenSnoc(init, last);
    assert rs + Flatten(init) + last == rs + (Flatten(init) + last);
  }

  lemma {:induction false} CollectAppend(c: Codec, sha: Bytes -> string, es: seq<Encoded>, kind: Kind, of: Kind,
                                         pieces: seq<seq<Record>>, rs: seq<Record>)
    requires Lawful(c)
    requires Collect(c, sha, es, kind) == Ok(rs)
    ensures Collect(c, sha, es + EncodeAll(c, sha, of, pieces), kind) == Ok(Gained(kind, of, rs, pieces))
    decreases |pieces|
  {
    if pieces == [] {
      NothingGained(c, sha, es, kind, of, rs);
    } else {
      var n := |pieces| - 1;
      var init, last := pieces[..n], pieces[n];
      assert pieces == init + [last];
      CollectAppend(c, sha, es, kind, of, init, rs);
      CollectOneMore(c, sha, es, kind, of, init, last, rs);
    }
  }

  lemma NothingGained(c: Codec, sha: Bytes -> string, es: seq<Encoded>, kind: Kind, of: Kind, rs: seq<Record>)
    ensures es + EncodeAll(c, sha, of, []) == es && Gained(kind, of, rs, []) == rs
  {
    assert EncodeAll(c, sha, of, []) == [] && rs + Flatten<Record>([]) == rs;
  }

  lemma CollectOneMore(c: Codec, sha: Bytes -> string, es: seq<Encoded>, kind: Kind, of: Kind, init: seq<seq<Record>>,
                       last: seq<Record>, rs: seq<Record>)
    requires Lawful(c) && Collect(c, sha, es + EncodeAll(c, sha, of, init), kind) == Ok(Gained(kind, of, rs, init))
    ensures Collect(c, sha, es + EncodeAll(c, sha, of, init + [last]), kind) == Ok(Gained(kind, of, rs, init + [last]))
  {
    CollectPart(c, sha, es + EncodeAll(c, sha, of, init), kind, of, |init|, last, Gained(kind, of, rs, init));
    AppendParts(c, sha, es, of, init, last);
    GainedSnoc(kind, of, rs, init, last);
  }

  lemma CollectPublished(c: Codec, sha: Bytes -> string, ep: seq<seq<Record>>, fp: seq<seq<Record>>, kind: Kind)
    requires Lawful(c)
    ensures Collect(c, sha, EncodeAll(c, sha, Elements, ep) + EncodeAll(c, sha, Fragments, fp), kind)
         == Ok(if kind == Elements then Flatten(ep) else Flatten(fp))
  {
    var e1 := EncodeAll(c, sha, Elements, ep);
    CollectAppend(c, sha, [], kind, Elements, ep, []);
    assert [] + e1 == e1;
    if kind == Elements {
      assert [] + Flatten(ep) == Flatten(ep);
      CollectAppend(c, sha, e1, kind, Fragments, fp, Flatten(ep));
    } else {
      assert [] + Flatten(fp) == Flatten(fp);
      CollectAppend(c, sha, e1, kind, Fragments, fp, []);
    }
  }

  /** Publish then load: every record comes back, in order, whatever the part limits that
      admit each record. */
  lemma PublishLoadRoundTrip(c: Codec, sha: Bytes -> string, elements: seq<Record>, fragments: seq<Record>,
                             maxRecords: nat, maxBytes: nat)
    requires Lawful(c) && maxRecords > 0
    requires AllFit(c, elements, maxBytes) && AllFit(c, fragments, maxBytes)
    ensures var es := Published(c, sha, elements, fragments, maxRecords, maxBytes);
            && Collect(c, sha, es, Elements) == Ok(elements)
            && Collect(c, sha, es, Fragments) == Ok(fragments)
  {
    var ep, fp := Pieces(c, elements, maxRecords, maxBytes), Pieces(c, fragments, maxRecords, maxBytes);
    PiecesMinimal(c, elements, maxRecords, maxBytes);
    PiecesMinimal(c, fragments, maxRecords, maxBytes);
    CollectPublished(c, sha, ep, fp, Elements);
    CollectPublished(c, sha, ep, fp, Fragments);
  }

  /** The writer's groups respect both limits and are as few as any such grouping. */
  lemma PiecesMinimal(c: Codec, rs: seq<Record>, maxRecords: nat, maxBytes: nat)
    requires maxRecords > 0 && AllFit(c, rs, maxBytes)
    ensures var pieces, lim := Pieces(c, rs, maxRecords, maxBytes), PartLimits(maxRecords, maxBytes);
            && G.IsPartition(pieces, rs, LineSize(c), lim)
            && forall other :: G.IsPartition(other, rs, LineSize(c), lim) ==> |pieces| <= |other|
  {
    var lim := PartLimits(maxRecords, maxBytes);
    G.GoIsPartition([], rs, LineSize(c), lim);
    assert [] + rs == rs;
    forall other | G.IsPartition(other, rs, LineSize(c), lim) ensures |Pieces(c, rs, maxRecords, maxBytes)| <= |other| {
      G.GreedyIsMinimal(rs, other, LineSize(c), lim);
    }
  }
}
