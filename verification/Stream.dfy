/**
 * The project snapshot stream: which byte streams are accepted, what they
 * deliver in batches, and the bounded line reader that decides it.
 */
module Stream {
  import opened Common

  newtype Byte = b: int | 0 <= b < 256

  type Bytes = seq<Byte>

  const NEWLINE: Byte := 10
  const BATCH: nat := 200
  const MAX_SERVICE_ITEMS: int := 250000
  const MAX_PROJECTS: int := 50000

  /** A point in time as decoded: nanoseconds, zero for the zero time, and a zone offset. */
  datatype Stamp = Stamp(instant: int, offset: int)

  datatype ProjectRow = ProjectRow(
    kind: string, tenant: string, snapshot: string, id: string, name: string, customer: string,
    customerId: string, contract: string, contractId: string, category: string, team: string,
    manager: string, managerIdentityId: string, ownerOrgId: string, ownerIdentityId: string,
    status: string, reportStage: string, progress: int, risk: bool, inFlight: bool, serviceItems: int,
    createdAt: Stamp, updatedAt: Stamp, sourceUpdatedAt: Stamp)

  datatype Header = Header(kind: string, schemaVersion: int, tenant: string, snapshot: string, sourceSnapshotAt: Stamp)

  datatype End = End(schemaVersion: int, tenant: string, snapshot: string, total: int, checksum: string)

  datatype Options = Options(maxProjects: int, maxBytes: int, maxLineBytes: int)

  datatype Summary = Summary(
    tenant: string, snapshot: string, sourceSnapshotAt: Stamp, sourceUpdatedAt: Option<Stamp>,
    total: int, checksum: string)

  /** The strict JSON decoders, UTF-8 validity and SHA-256, about which nothing is assumed. */
  datatype Codec = Codec(
    utf8: Bytes -> bool, header: Bytes -> Option<Header>, kind: Bytes -> Option<string>,
    row: Bytes -> Option<ProjectRow>, end: Bytes -> Option<End>, sha256: Bytes -> string)

  // ----- pure checks -----

  predicate OptionsOk(o: Options)
  {
    && 1 <= o.maxProjects <= MAX_PROJECTS
    && 1 <= o.maxBytes <= 0x4000000
    && 1 <= o.maxLineBytes <= 0x10000
  }

  /** Zero limits take their defaults. */
  function Normalized(o: Options): Options
  {
    Options(
      if o.maxProjects == 0 then MAX_PROJECTS else o.maxProjects,
      if o.maxBytes == 0 then 0x4000000 else o.maxBytes,
      if o.maxLineBytes == 0 then 0x10000 else o.maxLineBytes)
  }

  predicate ProjectIdentifier(s: string, max: nat)
  {
    s != "" && !Space(s[0]) && !Space(s[|s| - 1]) && |s| <= max
  }

  predicate ValidReportStage(s: string)
  {
    s in {"", "NONE", "RECTIFYING", "COMPILING", "REVIEWED", "ISSUED", "ARCHIVED"}
  }

  predicate ValidProjectRow(p: ProjectRow)
  {
    && p.kind == "project"
    && ProjectIdentifier(p.tenant, 26) && ProjectIdentifier(p.snapshot, 128) && ProjectIdentifier(p.id, 32)
    && |p.name| <= 255 && |p.customer| <= 255 && |p.customerId| <= 64 && |p.contract| <= 64
    && |p.contractId| <= 64 && |p.category| <= 255 && |p.team| <= 128 && |p.manager| <= 128
    && |p.managerIdentityId| <= 128 && |p.ownerOrgId| <= 64 && |p.ownerIdentityId| <= 128 && |p.status| <= 32
    && p.status != "" && 0 <= p.progress <= 100 && 0 <= p.serviceItems <= MAX_SERVICE_ITEMS
    && ValidReportStage(p.reportStage)
    && p.createdAt.offset == p.updatedAt.offset == p.sourceUpdatedAt.offset == 0
    && p.createdAt.instant != 0 && p.updatedAt.instant != 0 && p.sourceUpdatedAt.instant != 0
    && p.createdAt.instant <= p.updatedAt.instant <= p.sourceUpdatedAt.instant
  }

  // ----- lines -----

  /** The index of the first newline, or the length when there is none. */
  function LineEnd(s: Bytes): (n: nat)
    ensures n <= |s|
    ensures forall i :: 0 <= i < n ==> s[i] != NEWLINE
    ensures n < |s| ==> s[n] == NEWLINE
  {
    if s == [] || s[0] == NEWLINE then 0 else 1 + LineEnd(s[1..])
  }

  /** The newline-terminated lines of a stream, and the unterminated rest. */
  function Lines(s: Bytes): (seq<Bytes>, Bytes)
    decreases |s|
  {
    var n := LineEnd(s);
    if n == |s| then ([], s)
    else
      var (more, rest) := Lines(s[n + 1..]);
      ([s[..n + 1]] + more, rest)
  }

  function Concat<T>(parts: seq<seq<T>>): seq<T>
  {
    if parts == [] then [] else parts[0] + Concat(parts[1..])
  }

  lemma {:induction false} ConcatAppend<T>(a: seq<seq<T>>, b: seq<seq<T>>)
    ensures Concat(a + b) == Concat(a) + Concat(b)
  {
    if a == [] {
      assert a + b == b;
    } else {
      assert (a + b)[1..] == a[1..] + b;
      ConcatAppend(a[1..], b);
    }
  }

  lemma ConcatSnoc<T>(a: seq<seq<T>>, x: seq<T>)
    ensures Concat(a + [x]) == Concat(a) + x
  {
    ConcatAppend(a, [x]);
    assert Concat([x]) == x + Concat<T>([]);
  }

  lemma LinesUnfold(s: Bytes, line: Bytes, more: Bytes)
    requires s == line + more && line != []
    requires LineEnd(line) == |line| - 1
    ensures Lines(s) == ([line] + Lines(more).0, Lines(more).1)
  {
    hide LineEnd;
    var n, m := |line| - 1, LineEnd(s);
    assert s[n] == NEWLINE;
    assert forall i :: 0 <= i < |line| ==> s[i] == line[i];
    assert m == n;
    assert s[..n + 1] == line && s[n + 1..] == more;
  }

  lemma {:induction false} LinesCoverStream(s: Bytes)
    ensures Concat(Lines(s).0) + Lines(s).1 == s
    decreases |s|
  {
    hide LineEnd, Concat;
    var n := LineEnd(s);
    if n < |s| {
      var line, more := s[..n + 1], s[n + 1..];
      FirstLine(s, line, more);
      LinesCoverStream(more);
      CoverMore(s, line, more);
    } else {
      NothingConcatenated<Byte>();
    }
  }

  lemma CoverMore(s: Bytes, line: Bytes, more: Bytes)
    requires s == line + more && line != [] && LineEnd(line) == |line| - 1
    requires Concat(Lines(more).0) + Lines(more).1 == more
    ensures Concat(Lines(s).0) + Lines(s).1 == s
  {
    hide LineEnd, Concat, Lines;
    LinesUnfold(s, line, more);
    ConcatCons(line, Lines(more).0);
    Regroup(line, Concat(Lines(more).0), Lines(more).1);
  }

  lemma Regroup(a: Bytes, b: Bytes, c: Bytes)
    ensures (a + b) + c == a + (b + c)
  {
  }

  lemma ConcatCons<T>(x: seq<T>, a: seq<seq<T>>)
    ensures Concat([x] + a) == x + Concat(a)
  {
    assert ([x] + a)[1..] == a;
  }

  lemma NothingConcatenated<T>()
    ensures Concat<T>([]) == []
  {
  }

  /** The lines of an extension begin with the lines of the stream. */
  lemma {:induction false} LinesOfExtension(s: Bytes, t: Bytes)
    requires Lines(s).1 == []
    ensures Lines(s + t) == (Lines(s).0 + Lines(t).0, Lines(t).1)
    decreases |s|
  {
    hide LineEnd;
    var n := LineEnd(s);
    if n == |s| {
      assert s == [] && s + t == t;
      assert Lines(s).0 + Lines(t).0 == Lines(t).0;
    } else {
      var line, more := s[..n + 1], s[n + 1..];
      FirstLine(s, line, more);
      LinesUnfold(s, line, more);
      LinesOfExtension(more, t);
      PrependLine(line, more, t);
    }
  }

  lemma PrependLine(line: Bytes, more: Bytes, t: Bytes)
    requires line != [] && LineEnd(line) == |line| - 1
    requires Lines(more + t) == (Lines(more).0 + Lines(t).0, Lines(t).1)
    ensures Lines((line + more) + t) == (([line] + Lines(more).0) + Lines(t).0, Lines(t).1)
  {
    hide LineEnd, Lines;
    assert (line + more) + t == line + (more + t);
    LinesUnfold((line + more) + t, line, more + t);
    assert [line] + (Lines(more).0 + Lines(t).0) == ([line] + Lines(more).0) + Lines(t).0;
  }

  lemma LineEndIs(line: Bytes)
    requires line != [] && line[|line| - 1] == NEWLINE
    requires forall i :: 0 <= i < |line| - 1 ==> line[i] != NEWLINE
    ensures LineEnd(line) == |line| - 1
  {
    hide LineEnd;
  }

  lemma FirstLine(s: Bytes, line: Bytes, more: Bytes)
    requires LineEnd(s) < |s|
    requires line == s[..LineEnd(s) + 1] && more == s[LineEnd(s) + 1..]
    ensures LineEnd(line) == |line| - 1
    ensures s == line + more
  {
    hide LineEnd;
    var n := LineEnd(s);
    assert line[n] == NEWLINE;
    assert forall i :: 0 <= i < n ==> line[i] == s[i];
    LineEndIs(line);
  }

  // ----- which streams are accepted -----

  predicate LineOk(c: Codec, o: Options, line: Bytes)
  {
    |line| <= o.maxLineBytes && c.utf8(line)
  }

  predicate HeaderOk(c: Codec, tenant: string, line: Bytes)
  {
    && c.header(line).Some?
    && var h := c.header(line).value;
    && h.sourceSnapshotAt.instant != 0
    && h.kind == "header" && h.schemaVersion == 1 && h.tenant == tenant && ProjectIdentifier(h.snapshot, 128)
  }

  /** A line that the reader takes for a row of the announced snapshot. */
  predicate RowLineOk(c: Codec, o: Options, h: Header, line: Bytes)
  {
    && LineOk(c, o, line)
    && c.kind(line).Some? && c.kind(line).value != "end"
    && c.row(line).Some?
    && var p := c.row(line).value;
    && ValidProjectRow(p) && p.tenant == h.tenant && p.snapshot == h.snapshot
  }

  function RowsOf(c: Codec, lines: seq<Bytes>): (rows: seq<ProjectRow>)
    requires forall i :: 0 <= i < |lines| ==> c.row(lines[i]).Some?
    ensures |rows| == |lines|
    ensures forall i :: 0 <= i < |rows| ==> rows[i] == c.row(lines[i]).value
  {
    seq(|lines|, i requires 0 <= i < |lines| => c.row(lines[i]).value)
  }

  predicate AscendingIds(rows: seq<ProjectRow>)
  {
    forall i, j :: 0 <= i < j < |rows| ==> Before(rows[i].id, rows[j].id)
  }

  function Items(rows: seq<ProjectRow>): int
  {
    if rows == [] then 0 else Items(rows[..|rows| - 1]) + rows[|rows| - 1].serviceItems
  }

  /** The latest source update among the rows, the first one among equals. */
  function Latest(rows: seq<ProjectRow>): Option<Stamp>
  {
    if rows == [] then None
    else
      var earlier, last := Latest(rows[..|rows| - 1]), rows[|rows| - 1].sourceUpdatedAt;
      if earlier.None? || earlier.value.instant < last.instant then Some(last) else earlier
  }

  /** The first row among those with the greatest update time. */
  predicate FirstLatest(rows: seq<ProjectRow>, i: nat)
  {
    && i < |rows|
    && (forall j :: 0 <= j < |rows| ==> rows[j].sourceUpdatedAt.instant <= rows[i].sourceUpdatedAt.instant)
    && (forall j :: 0 <= j < i ==> rows[j].sourceUpdatedAt.instant < rows[i].sourceUpdatedAt.instant)
  }

  lemma {:induction false} LatestIsGreatest(rows: seq<ProjectRow>) returns (i: nat)
    ensures Latest(rows).None? <==> rows == []
    ensures rows != [] ==> FirstLatest(rows, i) && Latest(rows) == Some(rows[i].sourceUpdatedAt)
  {
    i := 0;
    if |rows| > 1 {
      var n := |rows| - 1;
      i := LatestIsGreatest(rows[..n]);
      LatestGrows(rows, i);
      if rows[i].sourceUpdatedAt.instant < rows[n].sourceUpdatedAt.instant {
        i := n;
      }
    }
  }

  lemma LatestGrows(rows: seq<ProjectRow>, i: nat)
    requires |rows| > 1 && FirstLatest(rows[..|rows| - 1], i)
    ensures var n := |rows| - 1;
      FirstLatest(rows, if rows[i].sourceUpdatedAt.instant < rows[n].sourceUpdatedAt.instant then n else i)
  {
    var init := rows[..|rows| - 1];
    assert forall j :: 0 <= j < |init| ==> rows[j] == init[j];
  }

  /** Row lines that together stay within order and limits; closed under taking prefixes. */
  ghost predicate RowsFit(c: Codec, o: Options, header: Bytes, lines: seq<Bytes>)
  {
    && c.header(header).Some?
    && var h := c.header(header).value;
    && (forall i :: 0 <= i < |lines| ==> RowLineOk(c, o, h, lines[i]))
    && var rows := RowsOf(c, lines);
    && AscendingIds(rows)
    && |rows| <= o.maxProjects && Items(rows) <= MAX_SERVICE_ITEMS
    && |header| + |Concat(lines)| <= o.maxBytes
  }

  predicate EndOk(c: Codec, h: Header, total: int, hashed: Bytes, line: Bytes)
  {
    && c.kind(line) == Some("end")
    && c.end(line) == Some(End(1, h.tenant, h.snapshot, total, c.sha256(hashed)))
  }

  /**
   * The accepted streams: header, rows and end, each a line of its own within
   * the limits, the end vouching for everything before it, and nothing after.
   */
  ghost predicate Accepts(c: Codec, o: Options, tenant: string, s: Bytes)
  {
    var (lines, rest) := Lines(s);
    && |lines| >= 2 && rest == [] && |s| <= o.maxBytes
    && LineOk(c, o, lines[0]) && HeaderOk(c, tenant, lines[0])
    && RowsFit(c, o, lines[0], lines[1..|lines| - 1])
    && LineOk(c, o, lines[|lines| - 1])
    && EndOk(c, c.header(lines[0]).value, |lines| - 2, Concat(lines[1..|lines| - 1]), lines[|lines| - 1])
  }

  ghost function RowLines(s: Bytes): seq<Bytes>
    requires |Lines(s).0| >= 2
  {
    var lines := Lines(s).0;
    lines[1..|lines| - 1]
  }

  /** The rows of an accepted stream. */
  ghost function StreamRows(c: Codec, o: Options, tenant: string, s: Bytes): seq<ProjectRow>
    requires Accepts(c, o, tenant, s)
  {
    RowsOf(c, RowLines(s))
  }

  /** The summary that an accepted stream verifies. */
  ghost function SummaryOf(c: Codec, o: Options, tenant: string, s: Bytes): Summary
    requires Accepts(c, o, tenant, s)
  {
    var h := c.header(Lines(s).0[0]).value;
    var rows := StreamRows(c, o, tenant, s);
    Summary(tenant, h.snapshot, h.sourceSnapshotAt, Latest(rows), |rows|, c.sha256(Concat(RowLines(s))))
  }

  // ----- what an accepted stream looks like -----

  /** A line ends with the only newline in it. */
  predicate IsLine(l: Bytes)
  {
    l != [] && l[|l| - 1] == 10 && forall i :: 0 <= i < |l| - 1 ==> l[i] != 10
  }

  lemma {:induction false} LinesAreLines(s: Bytes)
    ensures forall i :: 0 <= i < |Lines(s).0| ==> IsLine(Lines(s).0[i])
    decreases |s|
  {
    hide LineEnd;
    var n := LineEnd(s);
    if n < |s| {
      var line, more := s[..n + 1], s[n + 1..];
      FirstLine(s, line, more);
      LinesUnfold(s, line, more);
      LinesAreLines(more);
      assert IsLine(line);
    }
  }

  lemma {:induction false} LinesOfParts(parts: seq<Bytes>)
    requires forall i :: 0 <= i < |parts| ==> IsLine(parts[i])
    ensures Lines(Concat(parts)) == (parts, [])
  {
    hide LineEnd;
    if parts == [] {
      NoLines();
    } else {
      LineEndIs(parts[0]);
      LinesOfParts(parts[1..]);
      LinesUnfold(Concat(parts), parts[0], Concat(parts[1..]));
      assert [parts[0]] + parts[1..] == parts;
    }
  }

  lemma NoLines()
    ensures Lines([]) == ([], [])
  {
  }

  predicate HeaderVouched(c: Codec, tenant: string, head: Bytes)
  {
    && c.header(head).Some?
    && var h := c.header(head).value;
    && h.kind == "header" && h.schemaVersion == 1 && h.tenant == tenant
    && ProjectIdentifier(h.snapshot, 128) && h.sourceSnapshotAt.instant != 0
  }

  /** The row lines: valid rows of this tenant and snapshot in strictly ascending order, within the limits. */
  predicate RowsVouched(c: Codec, o: Options, tenant: string, snapshot: string, rows: seq<Bytes>)
  {
    && |rows| <= o.maxProjects
    && (forall i :: 0 <= i < |rows| ==>
          && c.kind(rows[i]).Some? && c.kind(rows[i]).value != "end" && c.row(rows[i]).Some?
          && var p := c.row(rows[i]).value;
          && ValidProjectRow(p) && p.tenant == tenant && p.snapshot == snapshot)
    && (forall i, j :: 0 <= i < j < |rows| ==> Before(c.row(rows[i]).value.id, c.row(rows[j]).value.id))
    && Sum(rows, (l: Bytes) => if c.row(l).Some? then c.row(l).value.serviceItems else 0) <= 250000
  }

  predicate EndVouched(c: Codec, tenant: string, snapshot: string, rows: seq<Bytes>, last: Bytes)
  {
    && c.kind(last) == Some("end") && c.end(last).Some?
    && var e := c.end(last).value;
    && e.schemaVersion == 1 && e.tenant == tenant && e.snapshot == snapshot
    && e.total == |rows| && e.checksum == c.sha256(Concat(rows))
  }

  predicate Readable(c: Codec, o: Options, l: Bytes)
  {
    IsLine(l) && |l| <= o.maxLineBytes && c.utf8(l)
  }

  /** Header, row lines and end line of a snapshot that may be taken: the end vouches for count and bytes of the rows. */
  predicate Vouched(c: Codec, o: Options, tenant: string, head: Bytes, rows: seq<Bytes>, last: Bytes)
  {
    && Readable(c, o, head) && Readable(c, o, last) && (forall i :: 0 <= i < |rows| ==> Readable(c, o, rows[i]))
    && |head| + |Concat(rows)| + |last| <= o.maxBytes
    && HeaderVouched(c, tenant, head)
    && var snapshot := c.header(head).value.snapshot;
    && RowsVouched(c, o, tenant, snapshot, rows) && EndVouched(c, tenant, snapshot, rows, last)
  }

  ghost predicate Consists(c: Codec, o: Options, tenant: string, s: Bytes, head: Bytes, rows: seq<Bytes>, last: Bytes)
  {
    s == head + Concat(rows) + last && Vouched(c, o, tenant, head, rows, last)
  }

  lemma {:induction false} ItemsAreTheSum(c: Codec, lines: seq<Bytes>)
    requires forall i :: 0 <= i < |lines| ==> c.row(lines[i]).Some?
    ensures Items(RowsOf(c, lines))
         == Sum(lines, (l: Bytes) => if c.row(l).Some? then c.row(l).value.serviceItems else 0)
  {
    if lines != [] {
      var n := |lines| - 1;
      ItemsAreTheSum(c, lines[..n]);
      assert RowsOf(c, lines)[..n] == RowsOf(c, lines[..n]);
    }
  }

  lemma ConcatThree(head: Bytes, rows: seq<Bytes>, last: Bytes)
    ensures Concat([head] + rows + [last]) == head + Concat(rows) + last
  {
    ConcatSnoc([head] + rows, last);
    assert ([head] + rows)[1..] == rows;
  }

  lemma RowsAreVouched(c: Codec, o: Options, tenant: string, head: Bytes, rows: seq<Bytes>)
    requires HeaderVouched(c, tenant, head) && forall i :: 0 <= i < |rows| ==> LineOk(c, o, rows[i])
    requires |head| + |Concat(rows)| <= o.maxBytes
    ensures RowsFit(c, o, head, rows) <==> RowsVouched(c, o, tenant, c.header(head).value.snapshot, rows)
  {
    hide ValidProjectRow, Before, Concat, Sum, Items, LineOk;
    if forall i :: 0 <= i < |rows| ==> c.row(rows[i]).Some? {
      ItemsAreTheSum(c, rows);
    }
  }

  /** Accepting by lines is the same as accepting the parts. */
  lemma PartsAreAccepted(c: Codec, o: Options, tenant: string, head: Bytes, rows: seq<Bytes>, last: Bytes)
    requires IsLine(head) && IsLine(last) && forall i :: 0 <= i < |rows| ==> IsLine(rows[i])
    ensures Accepts(c, o, tenant, head + Concat(rows) + last) <==> Vouched(c, o, tenant, head, rows, last)
  {
    hide Lines, Concat, IsLine, RowsFit, RowsVouched;
    var parts, s := [head] + rows + [last], head + Concat(rows) + last;
    forall i | 0 <= i < |parts|
      ensures IsLine(parts[i])
    {
      assert parts[i] == if i == 0 then head else if i <= |rows| then rows[i - 1] else last;
    }
    LinesOfParts(parts);
    ConcatThree(head, rows, last);
    assert parts[1..|parts| - 1] == rows && |s| == |head| + |Concat(rows)| + |last|;
    if HeaderVouched(c, tenant, head) && |s| <= o.maxBytes {
      if forall i :: 0 <= i < |rows| ==> LineOk(c, o, rows[i]) {
        RowsAreVouched(c, o, tenant, head, rows);
      } else {
        FittingLinesAreOk(c, o, head, rows);
      }
    }
  }

  lemma FittingLinesAreOk(c: Codec, o: Options, head: Bytes, rows: seq<Bytes>)
    ensures RowsFit(c, o, head, rows) ==> forall i :: 0 <= i < |rows| ==> LineOk(c, o, rows[i])
  {
    hide ValidProjectRow, AscendingIds, Items, LineOk;
  }

  /**
   * A stream is accepted exactly if it is a header line, row lines and an end
   * line, each within its limits, the rows valid, ascending and of the header's
   * snapshot, and the end's total and checksum those of the row lines.
   */
  lemma AcceptedIff(c: Codec, o: Options, tenant: string, s: Bytes)
    ensures Accepts(c, o, tenant, s) <==> exists head, rows, last :: Consists(c, o, tenant, s, head, rows, last)
  {
    hide Accepts, Vouched, Lines, Concat, IsLine;
    if Accepts(c, o, tenant, s) {
      AcceptedHasLines(c, o, tenant, s);
      var lines := Lines(s).0;
      var head, rows, last := lines[0], lines[1..|lines| - 1], lines[|lines| - 1];
      LinesAreLines(s);
      LinesCoverStream(s);
      ConcatThree(head, rows, last);
      assert lines == [head] + rows + [last];
      assert s == Concat(lines) + [] == head + Concat(rows) + last;
      PartsAreAccepted(c, o, tenant, head, rows, last);
      assert Consists(c, o, tenant, s, head, rows, last);
    }
    if head, rows, last :| Consists(c, o, tenant, s, head, rows, last) {
      VouchedAreLines(c, o, tenant, head, rows, last);
      PartsAreAccepted(c, o, tenant, head, rows, last);
    }
  }

  lemma AcceptedHasLines(c: Codec, o: Options, tenant: string, s: Bytes)
    requires Accepts(c, o, tenant, s)
    ensures |Lines(s).0| >= 2 && Lines(s).1 == []
  {
  }

  lemma VouchedAreLines(c: Codec, o: Options, tenant: string, head: Bytes, rows: seq<Bytes>, last: Bytes)
    requires Vouched(c, o, tenant, head, rows, last)
    ensures IsLine(head) && IsLine(last) && forall i :: 0 <= i < |rows| ==> IsLine(rows[i])
  {
    hide HeaderVouched, RowsVouched, EndVouched, Concat, IsLine;
  }

  /** No proper extension and no proper prefix of an accepted stream is accepted. */
  lemma AcceptedIsPrefixFree(c: Codec, o: Options, tenant: string, s: Bytes, t: Bytes)
    requires Accepts(c, o, tenant, s) && Accepts(c, o, tenant, s + t)
    ensures t == []
  {
    hide LineEnd, Lines, Items, LineOk, HeaderOk, ValidProjectRow;
    LinesOfExtension(s, t);
    LinesCoverStream(t);
    var lines, longer := Lines(s).0, Lines(s + t).0;
    var n := |lines| - 1;
    assert forall i :: 1 <= i < |longer| - 1 ==> c.kind(longer[i]) != Some("end") by {
      forall i | 1 <= i < |longer| - 1
        ensures c.kind(longer[i]) != Some("end")
      {
        assert longer[i] == longer[1..|longer| - 1][i - 1];
      }
    }
    assert c.kind(longer[n]) == Some("end");
    assert Lines(t).0 == [];
  }

  // ----- batches -----

  /** Every batch is full except possibly the last, none is empty. */
  function Chunks<T>(rows: seq<T>): seq<seq<T>>
  {
    seq((|rows| + BATCH - 1) / BATCH, i requires 0 <= i < (|rows| + BATCH - 1) / BATCH =>
      rows[BATCH * i..if BATCH * (i + 1) <= |rows| then BATCH * (i + 1) else |rows|])
  }

  function FullChunks<T>(rows: seq<T>): seq<seq<T>>
  {
    seq(|rows| / BATCH, i requires 0 <= i < |rows| / BATCH => rows[BATCH * i..BATCH * (i + 1)])
  }

  lemma {:induction false} ChunksPrefix<T>(rows: seq<T>, k: nat)
    requires k <= |Chunks(rows)|
    ensures Concat(Chunks(rows)[..k]) == rows[..if BATCH * k <= |rows| then BATCH * k else |rows|]
  {
    if k > 0 {
      ChunksPrefix(rows, k - 1);
      assert Chunks(rows)[..k] == Chunks(rows)[..k - 1] + [Chunks(rows)[k - 1]];
      ConcatSnoc(Chunks(rows)[..k - 1], Chunks(rows)[k - 1]);
    }
  }

  /** The batches are the rows cut into pieces of at most 200, in order, with nothing lost. */
  lemma ChunksAreTheRows<T>(rows: seq<T>)
    ensures Concat(Chunks(rows)) == rows
    ensures |Chunks(rows)| == (|rows| + 199) / 200
    ensures forall k :: 0 <= k < |Chunks(rows)| ==> 0 < |Chunks(rows)[k]| <= 200
    ensures forall k :: 0 <= k < |Chunks(rows)| - 1 ==> |Chunks(rows)[k]| == 200
  {
    ChunksPrefix(rows, |Chunks(rows)|);
    assert Chunks(rows)[..|Chunks(rows)|] == Chunks(rows);
    assert rows[..|rows|] == rows;
  }

  // ----- growing the accepted part by one line -----

  lemma {:induction false} ItemsOfPrefix(rows: seq<ProjectRow>, k: nat)
    requires k <= |rows|
    requires forall i :: 0 <= i < |rows| ==> 0 <= rows[i].serviceItems
    ensures Items(rows[..k]) <= Items(rows)
  {
    if k == |rows| {
      assert rows[..k] == rows;
    } else {
      ItemsOfPrefix(rows[..|rows| - 1], k);
      assert rows[..|rows| - 1][..k] == rows[..k];
    }
  }

  lemma FitPrefix(c: Codec, o: Options, header: Bytes, lines: seq<Bytes>, k: nat)
    requires RowsFit(c, o, header, lines) && k <= |lines|
    ensures RowsFit(c, o, header, lines[..k])
  {
    hide Items, Concat, Before, LineOk, ProjectIdentifier;
    var rows := RowsOf(c, lines);
    assert RowsOf(c, lines[..k]) == rows[..k];
    ItemsOfPrefix(rows, k);
    ConcatAppend(lines[..k], lines[k..]);
    assert lines == lines[..k] + lines[k..];
  }

  lemma AscendOneMore(rows: seq<ProjectRow>, p: ProjectRow)
    requires AscendingIds(rows)
    ensures AscendingIds(rows + [p]) <==> rows == [] || Before(rows[|rows| - 1].id, p.id)
  {
    hide Before;
    var longer := rows + [p];
    if rows != [] {
      assert longer[|rows| - 1] == rows[|rows| - 1] && longer[|rows|] == p;
      if Before(rows[|rows| - 1].id, p.id) {
        forall i | 0 <= i < |rows|
          ensures Before(longer[i].id, p.id)
        {
          if i < |rows| - 1 {
            BeforeTransitive(rows[i].id, rows[|rows| - 1].id, p.id);
          }
        }
      }
    }
  }

  /** One more line fits exactly when it is a row line above the last id and within the limits. */
  lemma FitOneMore(c: Codec, o: Options, header: Bytes, lines: seq<Bytes>, line: Bytes)
    requires RowsFit(c, o, header, lines)
    ensures RowsFit(c, o, header, lines + [line]) <==>
      && RowLineOk(c, o, c.header(header).value, line)
      && var rows, p := RowsOf(c, lines), c.row(line).value;
      && (rows != [] ==> Before(rows[|rows| - 1].id, p.id))
      && |rows| + 1 <= o.maxProjects && Items(rows) + p.serviceItems <= MAX_SERVICE_ITEMS
      && |header| + |Concat(lines)| + |line| <= o.maxBytes
  {
    hide Before, Concat, LineOk, ValidProjectRow, AscendingIds;
    var h, longer := c.header(header).value, lines + [line];
    ConcatSnoc(lines, line);
    assert longer[|lines|] == line;
    assert forall i :: 0 <= i < |lines| ==> longer[i] == lines[i];
    if RowLineOk(c, o, h, line) {
      var rows, p := RowsOf(c, lines), c.row(line).value;
      RowsOfSnoc(c, lines, line);
      AscendOneMore(rows, p);
      assert (rows + [p])[..|rows|] == rows;
    }
  }

  lemma RowsOfSnoc(c: Codec, lines: seq<Bytes>, line: Bytes)
    requires forall i :: 0 <= i < |lines| ==> c.row(lines[i]).Some?
    requires c.row(line).Some?
    ensures forall i :: 0 <= i < |lines + [line]| ==> c.row((lines + [line])[i]).Some?
    ensures RowsOf(c, lines + [line]) == RowsOf(c, lines) + [c.row(line).value]
  {
  }

  /** How many leading lines fit, counting on from `n`. */
  ghost function Fitting(c: Codec, o: Options, header: Bytes, lines: seq<Bytes>, n: nat): (r: nat)
    requires n <= |lines| && RowsFit(c, o, header, lines[..n])
    ensures n <= r <= |lines| && RowsFit(c, o, header, lines[..r])
    decreases |lines| - n
  {
    if n < |lines| && RowsFit(c, o, header, lines[..n + 1]) then Fitting(c, o, header, lines, n + 1) else n
  }

  ghost predicate Opens(c: Codec, o: Options, tenant: string, s: Bytes)
  {
    && Lines(s).0 != []
    && var first := Lines(s).0[0];
    && LineOk(c, o, first) && HeaderOk(c, tenant, first) && |first| <= o.maxBytes
  }

  /**
   * The batches a stream delivers: all of them when it is accepted, and the full
   * ones among its fitting leading rows when it is not.
   */
  ghost function Deliveries(c: Codec, o: Options, tenant: string, s: Bytes): seq<seq<ProjectRow>>
    requires OptionsOk(o)
  {
    if Accepts(c, o, tenant, s) then Chunks(StreamRows(c, o, tenant, s))
    else if !Opens(c, o, tenant, s) then []
    else
      var lines := Lines(s).0;
      FullChunks(RowsOf(c, lines[1..][..Fitting(c, o, lines[0], lines[1..], 0)]))
  }

  /** An accepted stream fits up to its last line, which is no row. */
  lemma AcceptedFits(c: Codec, o: Options, tenant: string, s: Bytes, k: nat)
    requires Accepts(c, o, tenant, s)
    ensures var lines := Lines(s).0;
      && (k <= |lines| - 2 ==> RowsFit(c, o, lines[0], lines[1..][..k]))
      && !RowsFit(c, o, lines[0], lines[1..][..|lines| - 1])
      && lines[1..][..|lines| - 2] == lines[1..|lines| - 1]
  {
    hide LineEnd, Lines, Items, Concat, ValidProjectRow, HeaderOk;
    var lines := Lines(s).0;
    var mid := lines[1..|lines| - 1];
    assert lines[1..][..|lines| - 2] == mid;
    if k <= |lines| - 2 {
      FitPrefix(c, o, lines[0], mid, k);
      assert mid[..k] == lines[1..][..k];
    }
    assert lines[1..][..|lines| - 1][|lines| - 2] == lines[|lines| - 1];
    assert c.kind(lines[|lines| - 1]) == Some("end");
  }

  /** The line at index k + 1 ends the stream as announced. */
  ghost predicate Closes(c: Codec, o: Options, s: Bytes, k: nat)
    requires Lines(s).0 != [] && c.header(Lines(s).0[0]).Some?
  {
    var (lines, rest) := Lines(s);
    && |lines| == k + 2 && rest == [] && |s| <= o.maxBytes
    && LineOk(c, o, lines[k + 1])
    && EndOk(c, c.header(lines[0]).value, k, Concat(lines[1..][..k]), lines[k + 1])
  }

  /** When the reader stops after k rows, acceptance and the deliveries are settled. */
  lemma StopsAfter(c: Codec, o: Options, tenant: string, s: Bytes, k: nat)
    requires OptionsOk(o) && Opens(c, o, tenant, s)
    requires var lines := Lines(s).0;
      && k < |lines|
      && RowsFit(c, o, lines[0], lines[1..][..k])
      && Fitting(c, o, lines[0], lines[1..], 0) == Fitting(c, o, lines[0], lines[1..], k)
      && (k < |lines| - 1 ==> !RowsFit(c, o, lines[0], lines[1..][..k + 1]))
    ensures Accepts(c, o, tenant, s) <==> Closes(c, o, s, k)
    ensures var rows := RowsOf(c, Lines(s).0[1..][..k]);
      if Accepts(c, o, tenant, s)
      then Deliveries(c, o, tenant, s) == Chunks(rows) && StreamRows(c, o, tenant, s) == rows
      else Deliveries(c, o, tenant, s) == FullChunks(rows)
  {
    hide LineEnd, Lines, Items, Concat, RowLineOk, HeaderOk, FullChunks, Chunks;
    var lines := Lines(s).0;
    if Accepts(c, o, tenant, s) {
      AcceptedFits(c, o, tenant, s, k + 1);
      assert |lines| == k + 2;
    }
    if Closes(c, o, s, k) {
      assert lines[1..|lines| - 1] == lines[1..][..k];
    }
  }

  lemma FullChunksGrow<T>(rows: seq<T>, x: T)
    ensures FullChunks(rows + [x]) ==
      FullChunks(rows) + if (|rows| + 1) % BATCH == 0 then [rows[BATCH * (|rows| / BATCH)..] + [x]] else []
    ensures (rows + [x])[BATCH * ((|rows| + 1) / BATCH)..] ==
      if (|rows| + 1) % BATCH == 0 then [] else rows[BATCH * (|rows| / BATCH)..] + [x]
  {
    var a, b, n := FullChunks(rows), FullChunks(rows + [x]), |rows| / BATCH;
    assert forall i :: 0 <= i < n ==> a[i] == b[i];
    if (|rows| + 1) % BATCH == 0 {
      assert |rows| + 1 == BATCH * (n + 1);
      assert b[n] == rows[BATCH * n..] + [x];
      assert b == a + [b[n]];
    } else {
      assert |b| == n;
      assert b == a;
    }
  }

  lemma ChunksAreFullAndLast<T>(rows: seq<T>)
    ensures Chunks(rows) == FullChunks(rows) + if |rows| % BATCH == 0 then [] else [rows[BATCH * (|rows| / BATCH)..]]
  {
    var a, b, n := FullChunks(rows), Chunks(rows), |rows| / BATCH;
    assert forall i :: 0 <= i < n ==> a[i] == b[i];
    if |rows| % BATCH == 0 {
      assert |b| == n;
      assert b == a;
    } else {
      assert |b| == n + 1;
      assert b[n] == rows[BATCH * n..];
      assert b == a + [b[n]];
    }
  }
}
