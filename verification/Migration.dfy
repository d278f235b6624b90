/**
 * Schema migrations: loading a contiguous history of files, and applying what a
 * database has not recorded yet, through failures at any call.
 */
module Migration {
  import opened Common

  datatype File = File(name: string, content: Option<string>)

  datatype Item = Item(version: nat, name: string, checksum: string)

  datatype Record = Record(name: string, checksum: string)

  datatype Executed = Executed(version: nat, checksum: string)

  /** The metadata table, and every migration whose statements were sent, whether they finished or not. */
  datatype Db = Db(records: map<nat, Record>, trace: seq<Executed>)

  /** A write call returns, fails without effect, or takes effect although the caller sees a failure. */
  datatype Call = Done | Failed | Landed

  // ----- files -----

  predicate Digit(c: char)
  {
    '0' <= c <= '9'
  }

  predicate Slug(c: char)
  {
    'a' <= c <= 'z' || Digit(c) || c == '_'
  }

  function Decimal(s: string): nat
    requires forall i :: 0 <= i < |s| ==> Digit(s[i])
  {
    if s == [] then 0
    else assert Digit(s[|s| - 1]); 10 * Decimal(s[..|s| - 1]) + (s[|s| - 1] as int - '0' as int)
  }

  /** Six digits, an underscore, a slug and the extension. */
  predicate NameOk(s: string)
  {
    && |s| >= 12 && (forall i :: 0 <= i < 6 ==> Digit(s[i])) && s[6] == '_'
    && (forall i :: 7 <= i < |s| - 4 ==> Slug(s[i])) && s[|s| - 4..] == ".sql"
  }

  function VersionOf(f: File): nat
    requires NameOk(f.name)
  {
    Decimal(f.name[..6])
  }

  predicate FileOk(f: File)
  {
    NameOk(f.name) && VersionOf(f) != 0 && f.content.Some? && !Blank(f.content.value)
  }

  function ItemOf(checksum: string -> string, f: File): Item
    requires FileOk(f)
  {
    Item(VersionOf(f), f.name[7..|f.name| - 4], checksum(f.content.value))
  }

  /** A migration is named by its file: six digits, the name, and the extension. */
  lemma FileNamesItem(checksum: string -> string, f: File)
    requires FileOk(f)
    ensures f.name == f.name[..6] + "_" + ItemOf(checksum, f).name + ".sql"
    ensures ItemOf(checksum, f).checksum == checksum(f.content.value)
  {
    hide Decimal, Digit, Slug, Blank;
    var n := |f.name| - 4;
    assert f.name == f.name[..6] + f.name[6..7] + f.name[7..n] + f.name[n..];
    assert f.name[6..7] == [f.name[6]];
  }

  /** Every file is well formed, and the versions are 1 to the number of files. */
  predicate FilesOk(files: seq<File>)
  {
    && files != []
    && (forall i :: 0 <= i < |files| ==> FileOk(files[i]) && VersionOf(files[i]) <= |files|)
    && (forall i, j :: 0 <= i < j < |files| ==> VersionOf(files[i]) != VersionOf(files[j]))
  }

  predicate Contiguous(items: seq<Item>)
  {
    forall i :: 0 <= i < |items| ==> items[i].version == i + 1
  }

  predicate ByVersion(items: seq<Item>)
  {
    forall i, j :: 0 <= i < j < |items| ==> items[i].version < items[j].version
  }

  function Place(items: seq<Item>, version: nat): (at: nat)
    ensures at <= |items|
  {
    if items == [] || version < items[0].version then 0 else 1 + Place(items[1..], version)
  }

  lemma {:induction false} PlaceSeparates(items: seq<Item>, version: nat)
    requires ByVersion(items) && forall i :: 0 <= i < |items| ==> items[i].version != version
    ensures forall i :: 0 <= i < Place(items, version) ==> items[i].version < version
    ensures forall i :: Place(items, version) <= i < |items| ==> version < items[i].version
  {
    if items != [] && version >= items[0].version {
      PlaceSeparates(items[1..], version);
      forall i | Place(items, version) <= i < |items|
        ensures version < items[i].version
      {
        assert items[i] == items[1..][i - 1];
      }
    }
  }

  lemma Inserted(items: seq<Item>, item: Item)
    requires ByVersion(items) && forall i :: 0 <= i < |items| ==> items[i].version != item.version
    ensures var at := Place(items, item.version);
      var next := items[..at] + [item] + items[at..];
      && ByVersion(next) && |next| == |items| + 1
      && (forall x :: x in next <==> x in items || x == item)
  {
    hide Place, ByVersion;
    var at := Place(items, item.version);
    PlaceSeparates(items, item.version);
    InsertedInOrder(items, item, at);
    assert items == items[..at] + items[at..];
  }

  lemma InsertedInOrder(items: seq<Item>, item: Item, at: nat)
    requires ByVersion(items) && at <= |items|
    requires forall i :: 0 <= i < at ==> items[i].version < item.version
    requires forall i :: at <= i < |items| ==> item.version < items[i].version
    ensures ByVersion(items[..at] + [item] + items[at..])
  {
    var next := items[..at] + [item] + items[at..];
    forall i | 0 <= i < |next|
      ensures next[i] == if i < at then items[i] else if i == at then item else items[i - 1]
    {
    }
  }

  /** A strictly rising list of n versions between 1 and n is 1, 2, ..., n, and the other way round. */
  lemma RisingIsContiguous(items: seq<Item>)
    requires ByVersion(items) && forall i :: 0 <= i < |items| ==> items[i].version >= 1
    ensures Contiguous(items) <==> forall i :: 0 <= i < |items| ==> items[i].version <= |items|
  {
    if forall i :: 0 <= i < |items| ==> items[i].version <= |items| {
      forall i | 0 <= i < |items|
        ensures items[i].version == i + 1
      {
        AtLeast(items, i);
        AtMost(items, i);
      }
    }
  }

  lemma {:induction false} AtLeast(items: seq<Item>, i: nat)
    requires ByVersion(items) && i < |items| && forall k :: 0 <= k < |items| ==> items[k].version >= 1
    ensures items[i].version >= i + 1
  {
    if i > 0 {
      AtLeast(items, i - 1);
    }
  }

  lemma {:induction false} AtMost(items: seq<Item>, i: nat)
    requires ByVersion(items) && i < |items| && forall k :: 0 <= k < |items| ==> items[k].version <= |items|
    ensures items[i].version <= i + 1
    decreases |items| - i
  {
    if i < |items| - 1 {
      AtMost(items, i + 1);
    }
  }

  /** The files read so far are well formed, and no version came twice. */
  ghost predicate FilesRead(files: seq<File>, seen: set<nat>)
  {
    && (forall k :: 0 <= k < |files| ==> FileOk(files[k]) && VersionOf(files[k]) in seen)
    && (forall k, j :: 0 <= k < j < |files| ==> VersionOf(files[k]) != VersionOf(files[j]))
    && (forall v :: v in seen ==> exists k :: 0 <= k < |files| && VersionOf(files[k]) == v)
  }

  /** Their items are kept in the order of their versions. */
  ghost predicate ItemsKept(checksum: string -> string, files: seq<File>, items: seq<Item>, seen: set<nat>)
  {
    && (forall k :: 0 <= k < |files| ==> FileOk(files[k]) && ItemOf(checksum, files[k]) in items)
    && ByVersion(items) && |items| == |files|
    && (forall k :: 0 <= k < |items| ==> items[k].version in seen && items[k].version >= 1)
  }

  ghost predicate Collected(checksum: string -> string, files: seq<File>, items: seq<Item>, seen: set<nat>)
  {
    FilesRead(files, seen) && ItemsKept(checksum, files, items, seen)
  }

  lemma ReadOne(files: seq<File>, seen: set<nat>, f: File)
    requires FilesRead(files, seen) && FileOk(f) && VersionOf(f) !in seen
    ensures FilesRead(files + [f], seen + {VersionOf(f)})
  {
    hide NameOk, Decimal, Blank, VersionOf;
    var more := files + [f];
    assert more[|files|] == f && forall k :: 0 <= k < |files| ==> more[k] == files[k];
    forall v | v in seen + {VersionOf(f)}
      ensures exists k :: 0 <= k < |more| && VersionOf(more[k]) == v
    {
      if v in seen {
        var k :| 0 <= k < |files| && VersionOf(files[k]) == v;
        assert VersionOf(more[k]) == v;
      } else {
        assert VersionOf(more[|files|]) == v;
      }
    }
  }

  lemma KeepOne(checksum: string -> string, files: seq<File>, items: seq<Item>, seen: set<nat>, f: File)
    requires ItemsKept(checksum, files, items, seen) && FileOk(f) && VersionOf(f) !in seen
    ensures var item := ItemOf(checksum, f);
      var at := Place(items, item.version);
      ItemsKept(checksum, files + [f], items[..at] + [item] + items[at..], seen + {item.version})
  {
    hide NameOk, Decimal, Blank, Place, ByVersion;
    var item := ItemOf(checksum, f);
    var at := Place(items, item.version);
    Inserted(items, item);
    var next := items[..at] + [item] + items[at..];
    forall k | 0 <= k < |next|
      ensures next[k].version in seen + {item.version} && next[k].version >= 1
    {
      assert next[k] in next;
    }
  }

  lemma CollectOne(checksum: string -> string, files: seq<File>, items: seq<Item>, seen: set<nat>, f: File)
    requires Collected(checksum, files, items, seen) && FileOk(f) && VersionOf(f) !in seen
    ensures var item := ItemOf(checksum, f);
      var at := Place(items, item.version);
      Collected(checksum, files + [f], items[..at] + [item] + items[at..], seen + {item.version})
  {
    hide FilesRead, ItemsKept;
    ReadOne(files, seen, f);
    KeepOne(checksum, files, items, seen, f);
  }

  lemma SeenIsRead(checksum: string -> string, files: seq<File>, items: seq<Item>, seen: set<nat>, i: nat)
    requires i < |files| && Collected(checksum, files[..i], items, seen)
    requires NameOk(files[i].name) && VersionOf(files[i]) in seen
    ensures !FilesOk(files)
  {
    hide NameOk, Decimal;
    var k :| 0 <= k < i && VersionOf(files[..i][k]) == VersionOf(files[i]);
    assert VersionOf(files[k]) == VersionOf(files[i]);
  }

  /** Without a gap the versions are 1 to n; a gap means that some version is above n. */
  lemma CollectedIsOk(checksum: string -> string, files: seq<File>, items: seq<Item>, seen: set<nat>)
    requires files != [] && Collected(checksum, files, items, seen)
    ensures FilesOk(files) <==> Contiguous(items)
  {
    hide NameOk, Decimal, Blank;
    RisingIsContiguous(items);
    forall i | 0 <= i < |files|
      ensures exists k :: 0 <= k < |items| && items[k].version == VersionOf(files[i])
    {
      var item := ItemOf(checksum, files[i]);
      var k :| 0 <= k < |items| && items[k] == item;
    }
    forall k | 0 <= k < |items|
      ensures exists i :: 0 <= i < |files| && VersionOf(files[i]) == items[k].version
    {
      var i :| 0 <= i < |files| && VersionOf(files[i]) == items[k].version;
    }
  }

  method Load(checksum: string -> string, files: seq<File>) returns (r: Result<seq<Item>>)
    ensures r.Ok? <==> FilesOk(files)
    ensures r.Ok? ==>
      && Contiguous(r.value) && |r.value| == |files|
      && forall i :: 0 <= i < |files| ==> ItemOf(checksum, files[i]) in r.value
  {
    hide NameOk, Decimal, Blank, Place, Collected;
    if |files| == 0 {
      return Err("no files");
    }
    var items: seq<Item> := [];
    var seen: set<nat> := {};
    NothingCollected(checksum);
    for i := 0 to |files|
      invariant Collected(checksum, files[..i], items, seen)
    {
      var f := files[i];
      if !NameOk(f.name) || VersionOf(f) == 0 {
        return Err("name");
      }
      if VersionOf(f) in seen {
        SeenIsRead(checksum, files, items, seen, i);
        return Err("duplicate version");
      }
      if f.content.None? || Blank(f.content.value) {
        return Err("content");
      }
      var item := ItemOf(checksum, f);
      var at := Place(items, item.version);
      CollectOne(checksum, files[..i], items, seen, f);
      assert files[..i] + [f] == files[..i + 1];
      seen := seen + {item.version};
      items := items[..at] + [item] + items[at..];
    }
    assert files[..|files|] == files;
    CollectedIsOk(checksum, files, items, seen);
    Everything(checksum, files, items, seen);
    for i := 0 to |items|
      invariant forall k :: 0 <= k < i ==> items[k].version == k + 1
    {
      if items[i].version != i + 1 {
        return Err("gap");
      }
    }
    return Ok(items);
  }

  lemma NothingCollected(checksum: string -> string)
    ensures Collected(checksum, [], [], {})
  {
  }

  lemma Everything(checksum: string -> string, files: seq<File>, items: seq<Item>, seen: set<nat>)
    requires Collected(checksum, files, items, seen)
    ensures |items| == |files|
    ensures forall i :: 0 <= i < |files| ==> FileOk(files[i]) && ItemOf(checksum, files[i]) in items
  {
  }

  // ----- applying -----

  /** Everything recorded is known to this build, under the same name. */
  predicate NamesOk(records: map<nat, Record>, items: seq<Item>)
  {
    forall v :: v in records ==> 1 <= v <= |items| && records[v].name == items[v - 1].name
  }

  /** From the i-th item on: check what is recorded, execute and then record what is not. `n` counts the calls. */
  function Continued(db: Db, known: map<nat, Record>, items: seq<Item>, i: nat, fate: nat -> Call, n: nat): (Db, bool)
    requires i <= |items|
    decreases |items| - i
  {
    if i == |items| then (db, true)
    else
      var item := items[i];
      if item.version in known then
        (if known[item.version].checksum != item.checksum then (db, false) else Continued(db, known, items, i + 1, fate, n))
      else
        var executed := db.(trace := db.trace + [Executed(item.version, item.checksum)]);
        var recorded := executed.(records := db.records[item.version := Record(item.name, item.checksum)]);
        if !fate(n).Done? then (executed, false)
        else if !fate(n + 1).Done? then (if fate(n + 1).Landed? then recorded else executed, false)
        else Continued(recorded, known, items, i + 1, fate, n + 2)
  }

  function Migrated(db: Db, items: seq<Item>, fate: nat -> Call): (Db, bool)
  {
    if !NamesOk(db.records, items) then (db, false) else Continued(db, db.records, items, 0, fate, 0)
  }

  predicate RisingTo(s: seq<nat>, n: nat)
  {
    (forall a, b :: 0 <= a < b < |s| ==> s[a] < s[b]) && forall a :: 0 <= a < |s| ==> s[a] <= n
  }

  lemma NothingRises(n: nat)
    ensures RisingTo([], n)
  {
  }

  lemma RisesOn(s: seq<nat>, n: nat, end: nat)
    requires RisingTo(s, n) && n < end
    ensures RisingTo(s, n + 1) && RisingTo(s + [n + 1], n + 1) && RisingTo(s, end)
  {
  }

  class Database {
    var records: map<nat, Record>
    ghost var trace: seq<Executed>

    ghost function View(): Db
      reads this
    {
      Db(records, trace)
    }

    /** One run of the migration binary under the lock. */
    method Run(items: seq<Item>, fate: nat -> Call) returns (applied: seq<nat>, ok: bool)
      requires Contiguous(items)
      modifies this
      ensures (View(), ok) == Migrated(old(View()), items, fate)
      ensures ok ==> forall v :: v in applied <==> v in records && v !in old(records)
      ensures forall v :: v in applied ==> v in records && v !in old(records)
      ensures RisingTo(applied, |items|)
    {
      hide RisingTo;
      applied := [];
      NothingRises(|items|);
      NothingRises(0);
      var known := records;
      var names := known.Keys;
      while names != {}
        invariant names <= known.Keys
        invariant forall v :: v in known && v !in names ==> 1 <= v <= |items| && known[v].name == items[v - 1].name
        decreases names
      {
        var v :| v in names;
        if v < 1 || v > |items| || known[v].name != items[v - 1].name {
          assert !NamesOk(known, items);
          return applied, false;
        }
        names := names - {v};
      }
      var n := 0;
      for i := 0 to |items|
        invariant NamesOk(known, items) && forall v :: v in known ==> v in records
        invariant Continued(View(), known, items, i, fate, n) == Continued(old(View()), known, items, 0, fate, 0)
        invariant forall v :: v in applied <==> v in records && v !in known
        invariant forall v :: v in applied ==> v <= i
        invariant RisingTo(applied, i)
      {
        var item := items[i];
        RisesOn(applied, i, |items|);
        if item.version in known {
          if known[item.version].checksum != item.checksum {
            return applied, false;
          }
          continue;
        }
        trace := trace + [Executed(item.version, item.checksum)];
        var call := fate(n);
        if !call.Done? {
          return applied, false;
        }
        call := fate(n + 1);
        if call.Failed? {
          return applied, false;
        }
        records := records[item.version := Record(item.name, item.checksum)];
        if call.Landed? {
          return applied, false;
        }
        applied := applied + [item.version];
        n := n + 2;
      }
      return applied, true;
    }
  }

  // ----- over any sequence of runs -----

  ghost predicate Prefix(records: map<nat, Record>, k: nat)
  {
    forall v :: v in records <==> 1 <= v <= k
  }

  /** The last execution of a version, which nothing of that version follows. */
  ghost predicate LastOf(trace: seq<Executed>, i: int, v: nat)
  {
    && 0 <= i < |trace| && trace[i].version == v
    && forall j :: i < j < |trace| ==> trace[j].version > v
  }

  /** The record of a version carries the checksum of its last execution. */
  ghost predicate RanLast(db: Db, v: nat)
  {
    v in db.records && exists i :: LastOf(db.trace, i, v) && db.records[v].checksum == db.trace[i].checksum
  }

  /**
   * The recorded versions are 1 to k; statements ran in version order with only
   * the next version ever repeated; a record carries what ran last.
   */
  ghost predicate Sound(db: Db, k: nat)
  {
    && Prefix(db.records, k)
    && (forall i :: 0 <= i < |db.trace| ==> 1 <= db.trace[i].version <= k + 1)
    && (forall i, j :: 0 <= i < j < |db.trace| ==> db.trace[i].version <= db.trace[j].version)
    && forall v :: 1 <= v <= k ==> RanLast(db, v)
  }

  lemma ExecutedKeepsSound(db: Db, k: nat, e: Executed)
    requires Sound(db, k) && e.version == k + 1
    ensures Sound(db.(trace := db.trace + [e]), k)
    ensures LastOf(db.trace + [e], |db.trace|, k + 1)
  {
    var next := db.(trace := db.trace + [e]);
    forall v | 1 <= v <= k
      ensures RanLast(next, v)
    {
      assert RanLast(db, v);
      var i :| LastOf(db.trace, i, v) && db.records[v].checksum == db.trace[i].checksum;
      LastStays(db.trace, e, i, v);
    }
    NewIsLast(db.trace, e);
  }

  lemma LastStays(trace: seq<Executed>, e: Executed, i: int, v: nat)
    requires LastOf(trace, i, v) && v < e.version
    ensures LastOf(trace + [e], i, v) && (trace + [e])[i] == trace[i]
  {
  }

  lemma NewIsLast(trace: seq<Executed>, e: Executed)
    ensures LastOf(trace + [e], |trace|, e.version)
  {
  }

  lemma RecordedKeepsSound(db: Db, k: nat, i: nat, name: string)
    requires Sound(db, k) && LastOf(db.trace, i, k + 1)
    ensures i < |db.trace|
    ensures Sound(db.(records := db.records[k + 1 := Record(name, db.trace[i].checksum)]), k + 1)
  {
    var next := db.(records := db.records[k + 1 := Record(name, db.trace[i].checksum)]);
    forall v | 1 <= v <= k + 1
      ensures RanLast(next, v)
    {
      if v <= k {
        assert RanLast(db, v);
        var j :| LastOf(db.trace, j, v) && db.records[v].checksum == db.trace[j].checksum;
        assert LastOf(next.trace, j, v) && next.records[v].checksum == next.trace[j].checksum;
      } else {
        assert LastOf(next.trace, i, v) && next.records[v].checksum == next.trace[i].checksum;
      }
    }
  }

  /** The new statements of a run are of versions that were not recorded when it began. */
  ghost predicate Continues(before: Db, after: Db, k: nat)
  {
    && before.trace <= after.trace
    && (forall i :: |before.trace| <= i < |after.trace| ==> after.trace[i].version > k)
    && forall v :: v in before.records ==> v in after.records && after.records[v] == before.records[v]
  }

  lemma Continuing(db: Db, k: nat, v: nat, name: string, checksum: string)
    requires v > k && v !in db.records
    ensures Continues(db, db, k)
    ensures var executed := db.(trace := db.trace + [Executed(v, checksum)]);
      Continues(db, executed, k) && Continues(db, executed.(records := db.records[v := Record(name, checksum)]), k)
  {
  }

  lemma ContinuesOn(a: Db, b: Db, c: Db, k: nat, m: nat)
    requires Continues(a, b, k) && Continues(b, c, m) && k <= m
    ensures Continues(a, c, k)
  {
    forall i | |a.trace| <= i < |c.trace|
      ensures c.trace[i].version > k
    {
      assert i < |b.trace| ==> c.trace[i] == b.trace[i];
    }
  }

  lemma NothingContinued(db: Db, k: nat)
    ensures Continues(db, db, k)
  {
  }

  lemma NotRecorded(db: Db, k: nat)
    requires Sound(db, k)
    ensures k + 1 !in db.records
  {
  }

  lemma {:induction false} ContinuedKeepsSound(db: Db, known: map<nat, Record>, k: nat, items: seq<Item>, i: nat,
    fate: nat -> Call, n: nat)
    returns (m: nat)
    requires Contiguous(items) && i <= |items| && Prefix(known, k)
    requires Sound(db, if i < k then k else i)
    ensures var (next, ok) := Continued(db, known, items, i, fate, n);
      && Sound(next, m) && m >= (if i < k then k else i) && Continues(db, next, if i < k then k else i)
      && (ok ==> m == (if |items| < k then k else |items|))
    decreases |items| - i
  {
    hide Sound, Continues, LastOf;
    m := if i < k then k else i;
    NothingContinued(db, m);
    if i < |items| {
      var item := items[i];
      if item.version in known {
        if known[item.version].checksum == item.checksum {
          ghost var from := if i + 1 < k then k else i + 1;
          m := ContinuedKeepsSound(db, known, k, items, i + 1, fate, n);
          ContinuesOn(db, db, Continued(db, known, items, i + 1, fate, n).0, if i < k then k else i, from);
        }
      } else {
        var e := Executed(item.version, item.checksum);
        NotRecorded(db, i);
        Continuing(db, i, item.version, item.name, item.checksum);
        var executed := db.(trace := db.trace + [e]);
        ExecutedKeepsSound(db, i, e);
        var recorded := executed.(records := db.records[item.version := Record(item.name, item.checksum)]);
        RecordedKeepsSound(executed, i, |db.trace|, item.name);
        if fate(n).Done? && fate(n + 1).Done? {
          m := ContinuedKeepsSound(recorded, known, k, items, i + 1, fate, n + 2);
          ContinuesOn(db, recorded, Continued(recorded, known, items, i + 1, fate, n + 2).0, i, i + 1);
        } else if fate(n).Done? && fate(n + 1).Landed? {
          m := i + 1;
        }
      }
    }
  }

  /** Whatever the calls do, a run leaves a sound database, and never executes again what was recorded before. */
  lemma RunKeepsSound(db: Db, k: nat, items: seq<Item>, fate: nat -> Call) returns (m: nat)
    requires Contiguous(items) && Sound(db, k)
    ensures var (next, ok) := Migrated(db, items, fate);
      && Sound(next, m) && k <= m && Continues(db, next, k)
      && (ok ==> m == |items|)
  {
    hide LastOf, RanLast;
    m := k;
    NothingContinued(db, k);
    if NamesOk(db.records, items) {
      assert k > 0 ==> k in db.records;
      m := ContinuedKeepsSound(db, db.records, k, items, 0, fate, 0);
    }
  }

  predicate Differs(db: Db, items: seq<Item>, v: nat)
  {
    v in db.records && (v < 1 || v > |items| || db.records[v] != Record(items[v - 1].name, items[v - 1].checksum))
  }

  /** Any difference between the records and the build stops the run before a single statement is sent. */
  lemma MismatchExecutesNothing(db: Db, k: nat, items: seq<Item>, fate: nat -> Call, v: nat)
    requires Contiguous(items) && Sound(db, k) && Differs(db, items, v)
    ensures Migrated(db, items, fate) == (db, false)
  {
    hide LastOf, RanLast;
    if NamesOk(db.records, items) {
      MismatchIsMet(db, k, items, 0, fate, v);
    }
  }

  lemma {:induction false} MismatchIsMet(db: Db, k: nat, items: seq<Item>, i: nat, fate: nat -> Call, v: nat)
    requires Contiguous(items) && Prefix(db.records, k) && i < v <= |items| && v in db.records
    requires db.records[v].checksum != items[v - 1].checksum
    ensures Continued(db, db.records, items, i, fate, 0) == (db, false)
    decreases |items| - i
  {
    if i + 1 < v {
      MismatchIsMet(db, k, items, i + 1, fate, v);
    }
  }

  /** A run that reports success has recorded every item of the build, in its name and checksum. */
  lemma SuccessRecordsTheBuild(db: Db, k: nat, items: seq<Item>, fate: nat -> Call, v: nat)
    requires Contiguous(items) && Sound(db, k) && Migrated(db, items, fate).1
    ensures var next := Migrated(db, items, fate).0;
      && Prefix(next.records, |items|)
      && (1 <= v <= |items| ==> next.records[v] == Record(items[v - 1].name, items[v - 1].checksum))
  {
    hide LastOf, RanLast;
    var m := RunKeepsSound(db, k, items, fate);
    var next := Migrated(db, items, fate).0;
    if 1 <= v <= |items| {
      FinishedRecords(db, db.records, items, 0, fate, 0, v);
      if v in db.records {
        assert next.records[v] == db.records[v];
      }
    }
  }

  lemma {:induction false} FinishedRecords(db: Db, known: map<nat, Record>, items: seq<Item>, i: nat,
    fate: nat -> Call, n: nat, v: nat)
    requires Contiguous(items) && i <= |items| && 1 <= v <= |items| && NamesOk(known, items)
    requires v <= i ==> v in db.records && db.records[v] == Record(items[v - 1].name, items[v - 1].checksum)
    requires v in known ==> v in db.records && db.records[v] == known[v]
    requires Continued(db, known, items, i, fate, n).1
    ensures var next := Continued(db, known, items, i, fate, n).0;
      v in next.records && next.records[v] == Record(items[v - 1].name, items[v - 1].checksum)
    decreases |items| - i
  {
    if i < |items| {
      var item := items[i];
      if item.version in known {
        FinishedRecords(db, known, items, i + 1, fate, n, v);
      } else {
        var recorded := Db(
          db.records[item.version := Record(item.name, item.checksum)], db.trace + [Executed(item.version, item.checksum)]);
        FinishedRecords(recorded, known, items, i + 1, fate, n + 2, v);
      }
    }
  }

  // ----- how far a run gets -----

  /** The statements of `count` items from place `from` on. */
  function Executions(items: seq<Item>, from: nat, count: nat): seq<Executed>
    requires from + count <= |items|
  {
    seq(count, j requires 0 <= j < count => Executed(from + j + 1, items[from + j].checksum))
  }

  function RecordAt(items: seq<Item>, v: nat): Record
    requires 1 <= v <= |items|
  {
    Record(items[v - 1].name, items[v - 1].checksum)
  }

  function RecordsWith(records: map<nat, Record>, items: seq<Item>, from: nat, count: nat): map<nat, Record>
    requires from + count <= |items|
  {
    records + map v: nat | from < v <= from + count :: RecordAt(items, v)
  }

  /** The first `f` calls return; if that is not all of them, the next one does not. */
  predicate FirstFailure(fate: nat -> Call, f: nat, calls: nat)
  {
    f <= calls && (forall n :: 0 <= n < f ==> fate(n).Done?) && (f < calls ==> !fate(f).Done?)
  }

  /** How many statements were sent, and how many of them are recorded, when call `f` of `calls` is the first to fail. */
  function Sent(f: nat, calls: nat): nat
  {
    if f < calls then f / 2 + 1 else f / 2
  }

  function Kept(fate: nat -> Call, f: nat, calls: nat): nat
  {
    if f < calls && f % 2 == 1 && fate(f).Landed? then f / 2 + 1 else f / 2
  }

  lemma {:induction false} SkipsRecorded(db: Db, known: map<nat, Record>, k: nat, items: seq<Item>, i: nat,
    fate: nat -> Call)
    requires Contiguous(items) && Prefix(known, k) && i <= k <= |items|
    requires forall v :: 1 <= v <= k ==> known[v].checksum == items[v - 1].checksum
    ensures Continued(db, known, items, i, fate, 0) == Continued(db, known, items, k, fate, 0)
    decreases k - i
  {
    if i < k {
      SkipsRecorded(db, known, k, items, i + 1, fate);
    }
  }

  lemma {:induction false} RestIs(db: Db, known: map<nat, Record>, k: nat, items: seq<Item>, i: nat, fate: nat -> Call,
    f: nat)
    requires Contiguous(items) && Prefix(known, k) && k <= i <= |items|
    requires FirstFailure(fate, f, 2 * (|items| - k)) && 2 * (i - k) <= f
    ensures var calls := 2 * (|items| - k);
      var sent, kept := Sent(f, calls), Kept(fate, f, calls);
      && i - k <= kept <= sent && k + sent <= |items|
      && Continued(db, known, items, i, fate, 2 * (i - k)) ==
           (Db(RecordsWith(db.records, items, i, k + kept - i), db.trace + Executions(items, i, k + sent - i)), f == calls)
    decreases |items| - i
  {
    hide Continued, RecordsWith, Executions, FirstFailure;
    var calls, n := 2 * (|items| - k), 2 * (i - k);
    FailureMeans(fate, f, calls);
    OneRecord(db.records, items, i);
    if i < |items| {
      var recorded := Db(db.records[i + 1 := RecordAt(items, i + 1)], db.trace + Executions(items, i, 1));
      OneItem(db, known, items, i, fate, n);
      if f >= n + 2 {
        RestIs(recorded, known, k, items, i + 1, fate, f);
        RecordsJoin(db.records, items, i, k + Kept(fate, f, calls) - i);
        ExecutionsJoin(db.trace, items, i, k + Sent(f, calls) - i);
      }
    } else {
      Finished(db, known, items, fate, n);
    }
  }

  lemma FailureMeans(fate: nat -> Call, f: nat, calls: nat)
    requires FirstFailure(fate, f, calls)
    ensures f <= calls && (forall n :: 0 <= n < f ==> fate(n).Done?) && (f < calls ==> !fate(f).Done?)
  {
  }

  lemma Finished(db: Db, known: map<nat, Record>, items: seq<Item>, fate: nat -> Call, n: nat)
    ensures Continued(db, known, items, |items|, fate, n) == (db, true)
    ensures db.trace + Executions(items, |items|, 0) == db.trace
  {
  }

  lemma OneItem(db: Db, known: map<nat, Record>, items: seq<Item>, i: nat, fate: nat -> Call, n: nat)
    requires Contiguous(items) && i < |items| && i + 1 !in known
    ensures var sent := db.trace + Executions(items, i, 1);
      var records := db.records[i + 1 := RecordAt(items, i + 1)];
      Continued(db, known, items, i, fate, n) ==
        if !fate(n).Done? || fate(n + 1).Failed? then (Db(db.records, sent), false)
        else if fate(n + 1).Landed? then (Db(records, sent), false)
        else Continued(Db(records, sent), known, items, i + 1, fate, n + 2)
  {
    assert Executions(items, i, 1) == [Executed(items[i].version, items[i].checksum)];
  }

  lemma OneRecord(records: map<nat, Record>, items: seq<Item>, i: nat)
    requires i <= |items|
    ensures RecordsWith(records, items, i, 0) == records
    ensures i < |items| ==> RecordsWith(records, items, i, 1) == records[i + 1 := RecordAt(items, i + 1)]
  {
  }

  lemma RecordsJoin(records: map<nat, Record>, items: seq<Item>, i: nat, count: nat)
    requires count >= 1 && i + count <= |items|
    ensures RecordsWith(records[i + 1 := RecordAt(items, i + 1)], items, i + 1, count - 1)
         == RecordsWith(records, items, i, count)
  {
  }

  lemma ExecutionsJoin(trace: seq<Executed>, items: seq<Item>, i: nat, count: nat)
    requires count >= 1 && i + count <= |items|
    ensures trace + Executions(items, i, 1) + Executions(items, i + 1, count - 1) == trace + Executions(items, i, count)
  {
  }

  /**
   * A run over records that agree with the build sends the statements of the
   * items after them, in order, up to the first call that fails, keeps a record
   * of each that was recorded, lost replies included, and succeeds exactly if
   * no call fails.
   */
  lemma RunGetsThisFar(db: Db, k: nat, items: seq<Item>, fate: nat -> Call, f: nat)
    requires Contiguous(items) && Sound(db, k) && forall v :: !Differs(db, items, v)
    requires k <= |items| && FirstFailure(fate, f, 2 * (|items| - k))
    ensures var calls := 2 * (|items| - k);
      var sent, kept := Sent(f, calls), Kept(fate, f, calls);
      && k + sent <= |items| && kept <= sent
      && Migrated(db, items, fate) ==
           (Db(RecordsWith(db.records, items, k, kept), db.trace + Executions(items, k, sent)), f == calls)
  {
    hide RanLast;
    forall v | v in db.records
      ensures 1 <= v <= |items| && db.records[v] == Record(items[v - 1].name, items[v - 1].checksum)
    {
      assert !Differs(db, items, v);
    }
    SkipsRecorded(db, db.records, k, items, 0, fate);
    RestIs(db, db.records, k, items, k, fate, f);
  }

  lemma AgreementCovers(db: Db, k: nat, items: seq<Item>)
    requires Sound(db, k) && forall v :: !Differs(db, items, v)
    ensures k <= |items|
  {
    hide RanLast;
    if k > 0 {
      assert !Differs(db, items, k);
    }
  }

  lemma FailureExists(fate: nat -> Call, calls: nat) returns (f: nat)
    ensures FirstFailure(fate, f, calls)
  {
    f := 0;
    while f < calls && fate(f).Done?
      invariant f <= calls && forall n :: 0 <= n < f ==> fate(n).Done?
    {
      f := f + 1;
    }
  }

  /** A run succeeds exactly if all records agree with the build and both calls of every missing item return. */
  lemma RunSucceedsIff(db: Db, k: nat, items: seq<Item>, fate: nat -> Call)
    requires Contiguous(items) && Sound(db, k)
    ensures Migrated(db, items, fate).1 <==>
            (forall v :: !Differs(db, items, v)) && forall n :: 0 <= n < 2 * (|items| - k) ==> fate(n).Done?
  {
    hide Sound, Differs, Migrated;
    if v :| Differs(db, items, v) {
      MismatchExecutesNothing(db, k, items, fate, v);
    } else {
      AgreementCovers(db, k, items);
      var f := FailureExists(fate, 2 * (|items| - k));
      RunGetsThisFar(db, k, items, fate, f);
    }
  }

  /** One run: the build's items, and what happens to its calls. */
  datatype Attempt = Attempt(items: seq<Item>, fate: nat -> Call)

  function Runs(db: Db, attempts: seq<Attempt>): Db
  {
    if attempts == [] then db
    else
      var last := attempts[|attempts| - 1];
      Migrated(Runs(db, attempts[..|attempts| - 1]), last.items, last.fate).0
  }

  /** From an empty metadata table, after any runs of any builds with any failures, the database is sound. */
  lemma {:induction false} EveryRunIsSound(attempts: seq<Attempt>) returns (k: nat)
    requires forall i :: 0 <= i < |attempts| ==> Contiguous(attempts[i].items)
    ensures Sound(Runs(Db(map[], []), attempts), k)
  {
    hide Sound, Migrated;
    k := 0;
    if attempts == [] {
      EmptyIsSound();
    } else {
      var before, last := attempts[..|attempts| - 1], attempts[|attempts| - 1];
      k := EveryRunIsSound(before);
      k := RunKeepsSound(Runs(Db(map[], []), before), k, last.items, last.fate);
    }
  }

  lemma EmptyIsSound()
    ensures Sound(Db(map[], []), 0)
  {
  }

  /** Statements run in version order, one version after the other, and only the next one is ever repeated. */
  lemma NoVersionIsSkipped(db: Db, k: nat, i: nat)
    requires Sound(db, k) && i < |db.trace|
    ensures if i == 0 then db.trace[i].version == 1
            else db.trace[i - 1].version <= db.trace[i].version <= db.trace[i - 1].version + 1
  {
    var v := db.trace[i].version;
    if v > 1 {
      assert RanLast(db, v - 1);
      var j :| LastOf(db.trace, j, v - 1);
      assert j < i;
    }
  }
}
