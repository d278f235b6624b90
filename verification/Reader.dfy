/** The bounded line reader of project snapshots, proved against the description in Stream. */
module Reader {
  import opened Common
  import opened Stream

  datatype Slice = Found | EndOfInput | BufferFull

  datatype LineResult = Line(bytes: Bytes) | AtEnd(fragment: Bytes) | Refused

  /** The unread input starts with a whole line that stays within the limits. */
  ghost predicate LineReady(c: Codec, o: Options, unread: Bytes, read: nat)
  {
    var n := LineEnd(unread);
    n < |unread| && LineOk(c, o, unread[..n + 1]) && read + n + 1 <= o.maxBytes
  }

  /** The receiver of batches; it takes as many more as `budget` says and then fails. */
  class Sink {
    var batches: seq<seq<ProjectRow>>
    var budget: nat

    constructor (budget: nat)
      ensures batches == [] && this.budget == budget
    {
      batches := [];
      this.budget := budget;
    }

    method Stage(rows: seq<ProjectRow>) returns (ok: bool)
      modifies this
      ensures ok <==> old(budget) > 0
      ensures batches == old(batches) + if ok then [rows] else []
      ensures budget == if ok then old(budget) - 1 else 0
    {
      ok := budget > 0;
      if ok {
        batches := batches + [rows];
        budget := budget - 1;
      }
    }
  }

  /** The buffered reader's search for a newline within a buffer of `size` bytes. */
  method ReadSlice(input: Bytes, size: nat) returns (b: Bytes, status: Slice)
    ensures var n := LineEnd(input);
      if n < |input| && n < size then status.Found? && b == input[..n + 1]
      else if |input| >= size then status.BufferFull? && b == input[..size]
      else status.EndOfInput? && b == input
  {
    var n := 0;
    while n < |input| && n < size && input[n] != NEWLINE
      invariant n <= |input| && n <= size
      invariant forall i :: 0 <= i < n ==> input[i] != NEWLINE
    {
      n := n + 1;
    }
    if n < |input| && n < size {
      return input[..n + 1], Found;
    }
    if n == size {
      return input[..size], BufferFull;
    }
    return input, EndOfInput;
  }

  /** Cutting the input keeps the line end that comes before the cut. */
  lemma CutLineEnd(rest: Bytes, cut: nat)
    requires cut <= |rest|
    ensures LineEnd(rest[..cut]) == if LineEnd(rest) < cut then LineEnd(rest) else cut
  {
    var n := LineEnd(rest);
    assert forall i :: 0 <= i < cut ==> rest[..cut][i] == rest[i];
    if n < cut {
      assert rest[..cut][n] == NEWLINE;
    }
  }

  /**
   * One line of the limited input. `read` counts the bytes so far; the input is
   * cut one byte above the limit, so that reading past the limit shows.
   */
  method NextLine(c: Codec, o: Options, unread: Bytes, read: nat) returns (r: LineResult)
    requires OptionsOk(o) && read <= o.maxBytes
    ensures r.Line? <==> LineReady(c, o, unread, read)
    ensures r.Line? ==> r.bytes == unread[..LineEnd(unread) + 1]
    ensures r.AtEnd? && r.fragment == [] <==> unread == []
  {
    var cut := if read + |unread| <= o.maxBytes + 1 then |unread| else o.maxBytes + 1 - read;
    var size := if o.maxLineBytes + 1 < 16 then 16 else o.maxLineBytes + 1;
    CutLineEnd(unread, cut);
    var b, status := ReadSlice(unread[..cut], size);
    if status.Found? {
      assert b == unread[..LineEnd(unread) + 1];
    }
    if read + |b| > o.maxBytes {
      return Refused;
    }
    if |b| > o.maxLineBytes || status.BufferFull? {
      return Refused;
    }
    if status.EndOfInput? {
      return AtEnd(b);
    }
    if !c.utf8(b) {
      return Refused;
    }
    return Line(b);
  }

  /** A place in a stream: the opening line, the row lines taken, the bytes behind and those ahead. */
  datatype Place = Place(first: Bytes, taken: seq<Bytes>, read: nat, unread: Bytes)

  /** The loop's running values. */
  datatype Tally = Tally(
    batch: seq<ProjectRow>, lastId: string, total: int, items: int, latest: Option<Stamp>, hashed: Bytes)

  /** The stream opened properly and its next lines, all taken, fit. */
  ghost predicate Standing(c: Codec, o: Options, tenant: string, s: Bytes, p: Place)
  {
    && OptionsOk(o) && Opens(c, o, tenant, s)
    && var lines, k := Lines(s).0, |p.taken|;
    && k < |lines| && lines[0] == p.first && lines[1..][..k] == p.taken
    && p.read <= o.maxBytes && p.read + |p.unread| == |s|
    && p.read == |p.first| + |Concat(p.taken)|
    && Lines(p.unread) == (lines[k + 1..], Lines(s).1)
    && RowsFit(c, o, p.first, p.taken)
    && Fitting(c, o, p.first, lines[1..], 0) == Fitting(c, o, p.first, lines[1..], k)
  }

  ghost predicate Tallied(c: Codec, p: Place, rows: seq<ProjectRow>, t: Tally)
  {
    && (forall i :: 0 <= i < |p.taken| ==> c.row(p.taken[i]).Some?)
    && rows == RowsOf(c, p.taken)
    && t.batch == rows[BATCH * (|rows| / BATCH)..]
    && t.lastId == (if rows == [] then "" else rows[|rows| - 1].id)
    && t.total == |rows| && t.items == Items(rows) && t.latest == Latest(rows) && t.hashed == Concat(p.taken)
  }

  function FirstLineOf(unread: Bytes): Bytes
    requires LineEnd(unread) < |unread|
  {
    unread[..LineEnd(unread) + 1]
  }

  /** The place behind the next line. */
  function Past(p: Place): Place
    requires LineEnd(p.unread) < |p.unread|
  {
    var line := FirstLineOf(p.unread);
    p.(taken := p.taken + [line], read := p.read + |line|, unread := p.unread[|line|..])
  }

  lemma StartStanding(c: Codec, o: Options, tenant: string, s: Bytes)
    requires OptionsOk(o)
    ensures LineReady(c, o, s, 0) && HeaderOk(c, tenant, FirstLineOf(s)) ==>
      var first := FirstLineOf(s);
      Standing(c, o, tenant, s, Place(first, [], |first|, s[|first|..]))
    ensures !(LineReady(c, o, s, 0) && HeaderOk(c, tenant, FirstLineOf(s))) ==>
      !Accepts(c, o, tenant, s) && Deliveries(c, o, tenant, s) == []
  {
    hide LineEnd, RowLineOk, EndOk, FullChunks, Chunks, LineOk;
    if Opens(c, o, tenant, s) {
      var lines := Lines(s).0;
      assert lines[1..][..0] == [];
    }
  }

  lemma StartTallied(c: Codec, p: Place)
    requires p.taken == []
    ensures Tallied(c, p, [], Tally([], "", 0, 0, None, [])) && FullChunks<ProjectRow>([]) == []
  {
  }

  /** The line ahead is the stream's next line. */
  lemma NextStanding(c: Codec, o: Options, tenant: string, s: Bytes, p: Place)
    requires Standing(c, o, tenant, s, p)
    ensures var lines, k := Lines(s).0, |p.taken|;
      && (p.unread == [] <==> k == |lines| - 1 && Lines(s).1 == [])
      && (LineEnd(p.unread) < |p.unread| <==> k < |lines| - 1)
      && (k < |lines| - 1 ==>
            && lines[k + 1] == FirstLineOf(p.unread)
            && lines[1..][..k + 1] == p.taken + [lines[k + 1]]
            && Lines(Past(p).unread) == (lines[k + 2..], Lines(s).1))
  {
    hide LineOk, HeaderOk, OptionsOk, RowsFit, LineEnd, Concat, Opens, Fitting;
    var lines, k, n := Lines(s).0, |p.taken|, LineEnd(p.unread);
    if n < |p.unread| {
      assert Lines(p.unread).0[0] == FirstLineOf(p.unread);
      assert Lines(p.unread).0[1..] == lines[k + 2..];
      assert lines[1..][..k + 1] == p.taken + [lines[k + 1]];
    }
  }

  /** Passing a line that fits keeps the place. */
  lemma PassStanding(c: Codec, o: Options, tenant: string, s: Bytes, p: Place)
    requires Standing(c, o, tenant, s, p)
    requires LineEnd(p.unread) < |p.unread| && RowsFit(c, o, p.first, p.taken + [FirstLineOf(p.unread)])
    ensures Standing(c, o, tenant, s, Past(p))
  {
    hide LineOk, HeaderOk, OptionsOk, LineEnd, Concat, Opens, AscendingIds, Items, RowLineOk, Lines;
    NextStanding(c, o, tenant, s, p);
    ConcatSnoc(p.taken, FirstLineOf(p.unread));
  }

  lemma TallyRow(c: Codec, p: Place, rows: seq<ProjectRow>, t: Tally)
    requires Tallied(c, p, rows, t)
    requires LineEnd(p.unread) < |p.unread| && c.row(FirstLineOf(p.unread)).Some?
    ensures var line := FirstLineOf(p.unread);
      var row := c.row(line).value;
      && Tallied(c, Past(p), rows + [row], Tally(
           if |t.batch| + 1 == BATCH then [] else t.batch + [row], row.id, t.total + 1, t.items + row.serviceItems,
           if t.latest.None? || t.latest.value.instant < row.sourceUpdatedAt.instant then Some(row.sourceUpdatedAt) else t.latest,
           t.hashed + line))
  {
    hide FullChunks, LineEnd, ValidProjectRow, Concat, RowsOf, Items, Latest;
    var line := FirstLineOf(p.unread);
    var row := c.row(line).value;
    StagedRow(rows, row, t.batch);
    TotalsGrow(rows, row);
    RowsOfSnoc(c, p.taken, line);
    ConcatSnoc(p.taken, line);
  }

  lemma TotalsGrow(rows: seq<ProjectRow>, row: ProjectRow)
    ensures Items(rows + [row]) == Items(rows) + row.serviceItems
    ensures Latest(rows + [row]) ==
      var latest := Latest(rows);
      if latest.None? || latest.value.instant < row.sourceUpdatedAt.instant then Some(row.sourceUpdatedAt) else latest
  {
    assert (rows + [row])[..|rows|] == rows;
  }

  /** A batch is handed over exactly when it has grown to its full size. */
  lemma StagedRow<T>(rows: seq<T>, row: T, batch: seq<T>)
    requires batch == rows[BATCH * (|rows| / BATCH)..]
    ensures FullChunks(rows + [row]) == FullChunks(rows) + if |batch| + 1 == BATCH then [batch + [row]] else []
    ensures (rows + [row])[BATCH * (|rows + [row]| / BATCH)..] == if |batch| + 1 == BATCH then [] else batch + [row]
  {
    hide FullChunks;
    FullChunksGrow(rows, row);
  }

  lemma StagedBatch(c: Codec, p: Place, rows: seq<ProjectRow>, t: Tally, row: ProjectRow)
    requires Tallied(c, p, rows, t)
    ensures FullChunks(rows + [row]) == FullChunks(rows) + if |t.batch| + 1 == BATCH then [t.batch + [row]] else []
  {
    hide FullChunks, Items, Latest, Concat;
    StagedRow(rows, row, t.batch);
  }

  lemma RowsOfPrefix(c: Codec, lines: seq<Bytes>, k: nat)
    requires k <= |lines| && forall i :: 0 <= i < |lines| ==> c.row(lines[i]).Some?
    ensures RowsOf(c, lines[..k]) == RowsOf(c, lines)[..k]
    ensures FullChunks(RowsOf(c, lines[..k])) <= FullChunks(RowsOf(c, lines))
  {
    assert RowsOf(c, lines[..k]) == RowsOf(c, lines)[..k];
    FullChunksOfPrefix(RowsOf(c, lines), k);
  }

  lemma FullChunksOfPrefix<T>(rows: seq<T>, k: nat)
    requires k <= |rows|
    ensures FullChunks(rows[..k]) <= FullChunks(rows)
  {
    var a, b := FullChunks(rows[..k]), FullChunks(rows);
    assert |a| <= |b|;
    assert forall i :: 0 <= i < |a| ==> a[i] == b[i];
  }

  lemma AcceptedDelivers(c: Codec, o: Options, tenant: string, s: Bytes, k: nat)
    requires Accepts(c, o, tenant, s) && k <= |RowLines(s)|
    ensures FullChunks(RowsOf(c, RowLines(s)[..k])) <= Chunks(StreamRows(c, o, tenant, s))
  {
    RowsOfPrefix(c, RowLines(s), k);
    ChunksAreFullAndLast(StreamRows(c, o, tenant, s));
  }

  lemma RejectedDelivers(c: Codec, o: Options, header: Bytes, lines: seq<Bytes>, k: nat)
    requires k <= |lines| && RowsFit(c, o, header, lines[..k])
    ensures FullChunks(RowsOf(c, lines[..k])) <= FullChunks(RowsOf(c, lines[..Fitting(c, o, header, lines, k)]))
  {
    var m := Fitting(c, o, header, lines, k);
    assert lines[..k] == lines[..m][..k];
    RowsOfPrefix(c, lines[..m], k);
  }

  /** Full batches of rows already read are among the deliveries, whatever follows. */
  lemma DeliveredSoFar(c: Codec, o: Options, tenant: string, s: Bytes, p: Place, rows: seq<ProjectRow>, t: Tally)
    requires Standing(c, o, tenant, s, p) && Tallied(c, p, rows, t)
    ensures FullChunks(rows) <= Deliveries(c, o, tenant, s)
  {
    hide RowsFit, FullChunks, RowLineOk, EndOk;
    var lines, k := Lines(s).0, |p.taken|;
    if Accepts(c, o, tenant, s) {
      AcceptedFits(c, o, tenant, s, k);
      assert k <= |RowLines(s)|;
      AcceptedDelivers(c, o, tenant, s, k);
      assert p.taken == RowLines(s)[..k];
    } else {
      RejectedDelivers(c, o, p.first, lines[1..], k);
    }
  }

  /** Where no line can be read within the limits, reading ends for good. */
  lemma RefusedLine(c: Codec, o: Options, tenant: string, s: Bytes, p: Place, rows: seq<ProjectRow>, t: Tally)
    requires Standing(c, o, tenant, s, p) && Tallied(c, p, rows, t)
    requires !LineReady(c, o, p.unread, p.read)
    ensures !Accepts(c, o, tenant, s) && Deliveries(c, o, tenant, s) == FullChunks(rows)
  {
    hide LineEnd, Lines, Concat, Items, ValidProjectRow, AscendingIds, Accepts, Deliveries;
    var lines, k := Lines(s).0, |p.taken|;
    NextStanding(c, o, tenant, s, p);
    if k < |lines| - 1 {
      FitOneMore(c, o, p.first, p.taken, lines[k + 1]);
    }
    StopsAfter(c, o, tenant, s, k);
  }

  /** The reader's checks of one row line, in its order. */
  predicate RowAccepted(c: Codec, o: Options, h: Header, t: Tally, raw: Bytes)
  {
    && c.kind(raw).Some? && c.row(raw).Some?
    && var row := c.row(raw).value;
    && ValidProjectRow(row)
    && row.tenant == h.tenant && row.snapshot == h.snapshot && Before(t.lastId, row.id)
    && t.total + 1 <= o.maxProjects && t.items + row.serviceItems <= MAX_SERVICE_ITEMS
  }

  /** A line that is no end line either makes the next fitting row or ends the reading for good. */
  lemma CheckedRow(c: Codec, o: Options, tenant: string, s: Bytes, p: Place, rows: seq<ProjectRow>, t: Tally)
    requires Standing(c, o, tenant, s, p) && Tallied(c, p, rows, t)
    requires LineReady(c, o, p.unread, p.read) && c.kind(FirstLineOf(p.unread)) != Some("end")
    ensures c.header(p.first).Some?
    ensures if RowAccepted(c, o, c.header(p.first).value, t, FirstLineOf(p.unread))
      then Standing(c, o, tenant, s, Past(p))
      else !Accepts(c, o, tenant, s) && Deliveries(c, o, tenant, s) == FullChunks(rows)
  {
    hide LineEnd, Accepts, Deliveries, FullChunks, Concat, RowsFit;
    NextStanding(c, o, tenant, s, p);
    FitOneMore(c, o, p.first, p.taken, FirstLineOf(p.unread));
    if RowAccepted(c, o, c.header(p.first).value, t, FirstLineOf(p.unread)) {
      PassStanding(c, o, tenant, s, p);
    } else {
      StopsAfter(c, o, tenant, s, |p.taken|);
    }
  }

  /** An end line settles everything: the stream is accepted when it matches and nothing follows. */
  lemma ClosingLine(c: Codec, o: Options, tenant: string, s: Bytes, p: Place, rows: seq<ProjectRow>, t: Tally)
    requires Standing(c, o, tenant, s, p) && Tallied(c, p, rows, t)
    requires LineReady(c, o, p.unread, p.read) && c.kind(FirstLineOf(p.unread)) == Some("end")
    ensures c.header(p.first).Some?
    ensures Settled(c, o, tenant, s, c.header(p.first).value, FirstLineOf(p.unread), Past(p).unread, rows, t)
  {
    hide LineEnd, RowsFit, FullChunks, Chunks, RowLineOk, LineOk, Fitting, Items, Latest, Concat;
    var lines, k := Lines(s).0, |p.taken|;
    NextStanding(c, o, tenant, s, p);
    NoRow(c, o, p.first, p.taken, lines[k + 1]);
    StopsAfter(c, o, tenant, s, k);
    assert Past(p).unread == [] <==> lines[k + 2..] == [] && Lines(s).1 == [];
    assert Closes(c, o, s, k) <==>
      && Past(p).unread == []
      && c.end(lines[k + 1]) == Some(End(1, tenant, c.header(p.first).value.snapshot, k, c.sha256(Concat(p.taken))));
    if Accepts(c, o, tenant, s) {
      assert lines[1..|lines| - 1] == lines[1..][..k];
    }
  }

  lemma NoRow(c: Codec, o: Options, header: Bytes, lines: seq<Bytes>, line: Bytes)
    requires RowsFit(c, o, header, lines) && c.kind(line) == Some("end")
    ensures c.header(header).Some? && !RowsFit(c, o, header, lines + [line])
  {
    assert (lines + [line])[|lines|] == line;
  }

  /** What an end line decides. */
  ghost predicate Settled(c: Codec, o: Options, tenant: string, s: Bytes, h: Header, raw: Bytes, unread: Bytes,
    rows: seq<ProjectRow>, t: Tally)
    requires OptionsOk(o)
  {
    && (Accepts(c, o, tenant, s) <==>
          unread == [] && c.end(raw) == Some(End(1, tenant, h.snapshot, t.total, c.sha256(t.hashed))))
    && Deliveries(c, o, tenant, s) == (if Accepts(c, o, tenant, s) then Chunks(rows) else FullChunks(rows))
    && (Accepts(c, o, tenant, s) ==>
          SummaryOf(c, o, tenant, s)
          == Summary(tenant, h.snapshot, h.sourceSnapshotAt, t.latest, t.total, c.sha256(t.hashed)))
    && t.batch == rows[BATCH * (|rows| / BATCH)..]
  }

  /** The first `n` of the deliveries, all of them when there are fewer. */
  ghost function Delivered(c: Codec, o: Options, tenant: string, s: Bytes, n: nat): seq<seq<ProjectRow>>
    requires OptionsOk(o)
  {
    var all := Deliveries(c, o, tenant, s);
    if n <= |all| then all[..n] else all
  }

  /** The result of reading, given what the receiver took before it first failed. */
  ghost predicate Outcome(c: Codec, o: Options, tenant: string, s: Bytes, r: Result<Summary>,
    taken: seq<seq<ProjectRow>>, budget: nat)
    requires OptionsOk(o)
  {
    && (r.Ok? <==> Accepts(c, o, tenant, s) && |Deliveries(c, o, tenant, s)| <= budget)
    && (r.Ok? ==> r.value == SummaryOf(c, o, tenant, s))
    && taken == Delivered(c, o, tenant, s, budget)
  }

  /**
   * Reads a stream to its exact end. It succeeds exactly on the accepted streams
   * whose batches were all taken; the receiver gets the deliveries of the stream
   * in order, up to its first failure, and nothing else.
   */
  method ReadProjectSnapshot(c: Codec, options: Options, tenant: string, s: Bytes, sink: Sink)
    returns (r: Result<Summary>)
    modifies sink
    ensures old(sink.batches) <= sink.batches
    ensures var o, taken := Normalized(options), sink.batches[|old(sink.batches)|..];
      if OptionsOk(o) && ProjectIdentifier(tenant, 26)
      then Outcome(c, o, tenant, s, r, taken, old(sink.budget))
      else r.Err? && taken == []
  {
    var o := Normalized(options);
    if !OptionsOk(o) || !ProjectIdentifier(tenant, 26) {
      return Err("invalid project snapshot input");
    }
    hide LineEnd, Standing, Tallied, LineOk, HeaderOk, Accepts, Deliveries, SummaryOf;
    StartStanding(c, o, tenant, s);
    var first := NextLine(c, o, s, 0);
    if !first.Line? || !HeaderOk(c, tenant, first.bytes) {
      return Err("invalid project header");
    }
    StartTallied(c, Place(first.bytes, [], |first.bytes|, s[|first.bytes|..]));
    r := ReadRows(c, o, tenant, s, sink, first.bytes, c.header(first.bytes).value);
  }

  method ReadRows(c: Codec, o: Options, tenant: string, s: Bytes, sink: Sink, first: Bytes, h: Header)
    returns (r: Result<Summary>)
    requires OptionsOk(o) && |first| <= o.maxBytes && |first| <= |s|
    requires c.header(first) == Some(h) && h.tenant == tenant
    requires var p := Place(first, [], |first|, s[|first|..]);
      Standing(c, o, tenant, s, p) && Tallied(c, p, [], Tally([], "", 0, 0, None, [])) && FullChunks<ProjectRow>([]) == []
    modifies sink
    ensures old(sink.batches) <= sink.batches
    ensures Outcome(c, o, tenant, s, r, sink.batches[|old(sink.batches)|..], old(sink.budget))
  {
    hide Lines, LineEnd, Standing, Tallied, Settled, Accepts, Deliveries, FullChunks, RowsOf, SummaryOf, LineOk,
      ValidProjectRow, Outcome, OptionsOk;
    var read: nat, unread := |first|, s[|first|..];
    var batch, lastId, total, items, latest, hashed := [], "", 0, 0, None, [];
    ghost var p, rows := Place(first, [], read, unread), [];
    while true
      invariant Standing(c, o, tenant, s, p) && p.first == first && p.read == read && p.unread == unread
      invariant Tallied(c, p, rows, Tally(batch, lastId, total, items, latest, hashed))
      invariant read <= o.maxBytes
      invariant sink.batches == old(sink.batches) + FullChunks(rows)
      invariant sink.budget == old(sink.budget) - |FullChunks(rows)|
      decreases |unread|
    {
      ghost var t := Tally(batch, lastId, total, items, latest, hashed);
      var next := NextLine(c, o, unread, read);
      if !next.Line? {
        RefusedLine(c, o, tenant, s, p, rows, t);
        r := Err("unreadable project snapshot line");
        NothingMore(c, o, tenant, s, r, rows, old(sink.budget));
        return;
      }
      var raw := next.bytes;
      if c.kind(raw) == Some("end") {
        ClosingLine(c, o, tenant, s, p, rows, t);
        label End:
        r := ReadEnd(c, o, tenant, s, sink, h, raw, read + |raw|, unread[|raw|..], batch, total, latest, hashed, rows, t);
        assert sink.batches[|old(sink.batches)|..] == FullChunks(rows) + sink.batches[|old@End(sink.batches)|..];
        return;
      }
      CheckedRow(c, o, tenant, s, p, rows, t);
      if !RowAccepted(c, o, h, Tally(batch, lastId, total, items, latest, hashed), raw) {
        r := Err("invalid or conflicting project snapshot row");
        NothingMore(c, o, tenant, s, r, rows, old(sink.budget));
        return;
      }
      TallyRow(c, p, rows, t);
      var row := c.row(raw).value;
      StagedBatch(c, p, rows, t, row);
      total, items := total + 1, items + row.serviceItems;
      if latest.None? || latest.value.instant < row.sourceUpdatedAt.instant {
        latest := Some(row.sourceUpdatedAt);
      }
      lastId := row.id;
      hashed := hashed + raw;
      batch := batch + [row];
      read, unread := read + |raw|, unread[|raw|..];
      ghost var full := FullChunks(rows);
      p, rows := Past(p), rows + [row];
      if |batch| == BATCH {
        DeliveredSoFar(c, o, tenant, s, p, rows, Tally([], lastId, total, items, latest, hashed));
        var ok := sink.Stage(batch);
        if !ok {
          r := Err("stage project batch");
          CutShort(c, o, tenant, s, r, full, batch, old(sink.budget));
          assert sink.batches[|old(sink.batches)|..] == full;
          return;
        }
        batch := [];
      }
    }
  }

  lemma NothingMore(c: Codec, o: Options, tenant: string, s: Bytes, r: Result<Summary>,
    rows: seq<ProjectRow>, budget: nat)
    requires OptionsOk(o) && r.Err? && |FullChunks(rows)| <= budget
    requires !Accepts(c, o, tenant, s) && Deliveries(c, o, tenant, s) == FullChunks(rows)
    ensures Outcome(c, o, tenant, s, r, FullChunks(rows), budget)
  {
    hide Accepts, Deliveries, FullChunks;
  }

  lemma CutShort(c: Codec, o: Options, tenant: string, s: Bytes, r: Result<Summary>,
    full: seq<seq<ProjectRow>>, batch: seq<ProjectRow>, budget: nat)
    requires OptionsOk(o) && r.Err? && |full| == budget
    requires full + [batch] <= Deliveries(c, o, tenant, s)
    ensures Outcome(c, o, tenant, s, r, full, budget)
  {
    hide Accepts, Deliveries;
  }

  /** The end line: it must match everything counted, and only a clean end of input may follow. */
  method ReadEnd(c: Codec, o: Options, tenant: string, s: Bytes, sink: Sink, h: Header, raw: Bytes,
    read: nat, unread: Bytes, batch: seq<ProjectRow>, total: int, latest: Option<Stamp>, hashed: Bytes,
    ghost rows: seq<ProjectRow>, ghost t: Tally)
    returns (r: Result<Summary>)
    requires OptionsOk(o) && read <= o.maxBytes
    requires t.batch == batch && t.total == total && t.latest == latest && t.hashed == hashed
    requires Settled(c, o, tenant, s, h, raw, unread, rows, t)
    modifies sink
    ensures old(sink.batches) <= sink.batches
    ensures Outcome(c, o, tenant, s, r, FullChunks(rows) + sink.batches[|old(sink.batches)|..],
      |FullChunks(rows)| + old(sink.budget))
  {
    hide Accepts, Deliveries, FullChunks, Chunks, Lines, LineEnd;
    ChunksAreFullAndLast(rows);
    var checksum := c.sha256(hashed);
    if c.end(raw) != Some(End(1, tenant, h.snapshot, total, checksum)) {
      return Err("invalid project end summary");
    }
    var extra := NextLine(c, o, unread, read);
    if !extra.AtEnd? || extra.fragment != [] {
      return Err("content after project end");
    }
    if batch != [] {
      var ok := sink.Stage(batch);
      if !ok {
        return Err("stage project batch");
      }
    }
    return Ok(Summary(tenant, h.snapshot, h.sourceSnapshotAt, latest, total, checksum));
  }
}
