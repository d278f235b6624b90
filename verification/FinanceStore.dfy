/**
 * Publication of finance facts for one tenant: immutable batches, their facts,
 * and the source row that says which one is in force.
 */
module FinanceStore {
  import opened Common
  import opened Finance

  datatype SourceRow = SourceRow(version: int, batch: string, publishedAt: Option<int>)

  datatype Batch = Batch(
    version: int, digest: string, asOf: string, rowCount: nat, actor: string, publishedAt: int, totals: seq<Totals>)

  datatype FactKey = FactKey(batch: string, kind: string, id: string)

  datatype Fact = FromReceivable(receivable: Receivable) | FromReceipt(receipt: Receipt)

  datatype Db = Db(source: Option<SourceRow>, batches: map<string, Batch>, facts: map<FactKey, Fact>)

  datatype Request = Request(document: Document, digest: string, expected: int)

  datatype Publication = Publication(digest: string, version: int, batch: string, publishedAt: Option<int>, replayed: bool)

  const EMPTY := Db(None, map[], map[])
  const UNPUBLISHED := SourceRow(0, "", None)

  // ----- the transaction -----

  /** The rows of one file in the order in which they are written. */
  function FactRows(d: Document): seq<(FactKey, Fact)>
    requires d.receivables.Some? && d.receipts.Some?
  {
    seq(|d.receivables.value|, i requires 0 <= i < |d.receivables.value| =>
      (FactKey(d.batch, "receivable", d.receivables.value[i].id), FromReceivable(d.receivables.value[i])))
    + seq(|d.receipts.value|, i requires 0 <= i < |d.receipts.value| =>
      (FactKey(d.batch, "receipt", d.receipts.value[i].id), FromReceipt(d.receipts.value[i])))
  }

  /** Inserting rows one by one, which fails at a key that is already there. */
  function Added(facts: map<FactKey, Fact>, rows: seq<(FactKey, Fact)>): Option<map<FactKey, Fact>>
  {
    if rows == [] then Some(facts)
    else
      var before, last := Added(facts, rows[..|rows| - 1]), rows[|rows| - 1];
      if before.None? || last.0 in before.value then None else Some(before.value[last.0 := last.1])
  }

  predicate Acceptable(c: Codec, q: Request, actor: string, today: string)
  {
    actor != "" && 0 <= q.expected && DocumentOk(c, q.document, today) && c.digest(q.document) == q.digest
  }

  function Current(db: Db): SourceRow
  {
    if db.source.Some? then db.source.value else UNPUBLISHED
  }

  function NewBatch(db: Db, q: Request, actor: string, at: int, totals: seq<Totals>): Batch
    requires q.document.receivables.Some? && q.document.receipts.Some?
  {
    Batch(Current(db).version + 1, q.digest, q.document.asOf, |q.document.receivables.value| + |q.document.receipts.value|,
          actor, at, totals)
  }

  /** What an acceptable request does; a failing transaction leaves the tables alone. */
  function Transacted(db: Db, q: Request, actor: string, at: int, totals: seq<Totals>): (r: (Db, Result<Publication>))
    requires q.document.receivables.Some? && q.document.receipts.Some?
  {
    var id, current := q.document.batch, Current(db);
    if id in db.batches then
      if db.batches[id].digest != q.digest then (db, Err("batch conflict"))
      else
        var b := db.batches[id];
        (db.(source := Some(current)), Ok(Publication(b.digest, b.version, id, Some(b.publishedAt), true)))
    else if current.version != q.expected then (db, Err("version conflict"))
    else
      var batch, facts := NewBatch(db, q, actor, at, totals), Added(db.facts, FactRows(q.document));
      if HasVersion(db.batches, batch.version) || facts.None? then (db, Err("duplicate key"))
      else
        (Db(Some(SourceRow(batch.version, id, Some(at))), db.batches[id := batch], facts.value),
         Ok(Publication(q.digest, batch.version, id, Some(at), false)))
  }

  /** The source row names a batch of its version with a full digest. */
  predicate NamesBatch(db: Db, p: SourceRow)
  {
    p.batch in db.batches && db.batches[p.batch].version == p.version && |db.batches[p.batch].digest| == 64
  }

  predicate Damaged(db: Db)
  {
    && db.source.Some?
    && var p := db.source.value;
    p.version < 0 || (p.version == 0 && p.batch != "") || (p.version > 0 && !NamesBatch(db, p))
  }

  /** What the status tells: nothing, an unpublished source, or the receipt of the batch in force. */
  predicate Tells(db: Db, status: Option<Publication>)
  {
    if db.source.None? then status.None?
    else
      && status.Some? && !status.value.replayed
      && status.value.version == db.source.value.version && status.value.batch == db.source.value.batch
      && status.value.publishedAt == db.source.value.publishedAt
      && if status.value.version == 0 then status.value.digest == "" && status.value.batch == ""
         else NamesBatch(db, db.source.value) && status.value.digest == db.batches[status.value.batch].digest
  }

  // ----- the tables as requests change them -----

  class Store {
    var source: Option<SourceRow>
    var batches: map<string, Batch>
    var facts: map<FactKey, Fact>

    ghost function View(): Db
      reads this
    {
      Db(source, batches, facts)
    }

    method PersistFacts(d: Document) returns (ok: bool)
      requires d.receivables.Some? && d.receipts.Some?
      modifies this`facts
      ensures ok <==> Added(old(facts), FactRows(d)).Some?
      ensures ok ==> Some(facts) == Added(old(facts), FactRows(d))
    {
      var rows: seq<(FactKey, Fact)> := [];
      for i := 0 to |d.receivables.value|
        invariant rows == FactRows(d)[..i]
      {
        rows := rows + [(FactKey(d.batch, "receivable", d.receivables.value[i].id), FromReceivable(d.receivables.value[i]))];
      }
      for i := 0 to |d.receipts.value|
        invariant rows == FactRows(d)[..|d.receivables.value| + i]
      {
        rows := rows + [(FactKey(d.batch, "receipt", d.receipts.value[i].id), FromReceipt(d.receipts.value[i]))];
      }
      assert rows == FactRows(d);
      for i := 0 to |rows|
        invariant Some(facts) == Added(old(facts), rows[..i])
      {
        assert rows[..i + 1][..i] == rows[..i];
        if rows[i].0 in facts {
          NoneFromThere(old(facts), rows, i + 1);
          return false;
        }
        facts := facts[rows[i].0 := rows[i].1];
      }
      assert rows[..|rows|] == rows;
      return true;
    }

    /** Checks the whole file again, then replays, refuses or publishes it in one transaction. */
    method Publish(c: Codec, q: Request, actor: string, at: int, today: string, licensed: bool, commits: bool)
      returns (r: Result<Publication>, ghost totals: seq<Totals>)
      modifies this
      ensures !Acceptable(c, q, actor, today) || !licensed || !commits ==> r.Err? && View() == old(View())
      ensures Acceptable(c, q, actor, today) && licensed && commits ==>
        && var d := q.document;
        && IsResult(c, d.receivables.value, d.receipts.value, d.asOf, c.day(d.asOf).value, totals)
        && (View(), r) == Transacted(old(View()), q, actor, at, totals)
    {
      hide DocumentOk, IsResult, Added, FactRows;
      totals := [];
      if actor == "" || q.expected < 0 {
        return Err("session or version"), totals;
      }
      var preview := Analyze(c, q.document, today);
      if preview.Err? {
        return Err(preview.error), totals;
      }
      ValidHasRows(c, q.document, today);
      totals := preview.value.totals;
      if preview.value.digest != q.digest {
        return Err("preview"), totals;
      }
      if !licensed {
        return Err("license"), totals;
      }
      r := Err("rolled back");
      var id := q.document.batch;
      var current := if source.Some? then source.value else UNPUBLISHED;
      if id in batches {
        if batches[id].digest != q.digest {
          return Err("batch conflict"), totals;
        }
        if commits {
          source := Some(current);
          r := Ok(Publication(batches[id].digest, batches[id].version, id, Some(batches[id].publishedAt), true));
        }
        return;
      }
      if current.version != q.expected {
        return Err("version conflict"), totals;
      }
      var version := current.version + 1;
      if HasVersion(batches, version) {
        return Err("duplicate key"), totals;
      }
      var saved := facts;
      var ok := PersistFacts(q.document);
      if !ok || !commits {
        facts := saved;
        return Err(if ok then "rolled back" else "duplicate key"), totals;
      }
      var p := preview.value;
      batches := batches[id := Batch(version, q.digest, q.document.asOf, p.rowCount, actor, at, p.totals)];
      source := Some(SourceRow(version, id, Some(at)));
      r := Ok(Publication(q.digest, version, id, Some(at), false));
    }

    method Status() returns (r: Result<Option<Publication>>)
      ensures r.Err? <==> Damaged(View())
      ensures r.Ok? ==> Tells(View(), r.value)
    {
      if source.None? {
        return Ok(None);
      }
      var p := source.value;
      if p.version < 0 || (p.version == 0 && p.batch != "") {
        return Err("source row");
      }
      var digest := "";
      if p.version > 0 {
        if p.batch !in batches || batches[p.batch].version != p.version {
          return Err("no batch");
        }
        digest := batches[p.batch].digest;
        if |digest| != 64 {
          return Err("digest");
        }
      }
      return Ok(Some(Publication(digest, p.version, p.batch, p.publishedAt, false)));
    }
  }

  lemma ValidHasRows(c: Codec, d: Document, today: string)
    requires DocumentOk(c, d, today)
    ensures d.receivables.Some? && d.receipts.Some? && c.day(d.asOf).Some?
  {
  }

  lemma {:induction false} NoneFromThere(facts: map<FactKey, Fact>, rows: seq<(FactKey, Fact)>, i: nat)
    requires i <= |rows| && Added(facts, rows[..i]).None?
    ensures Added(facts, rows).None?
    decreases |rows|
  {
    if i < |rows| {
      var n := |rows| - 1;
      assert rows[..n][..i] == rows[..i];
      NoneFromThere(facts, rows[..n], i);
    } else {
      assert rows[..i] == rows;
    }
  }

  // ----- runs -----

  /** `documents` remembers the file behind every batch. */
  datatype World = World(db: Db, documents: map<string, Document>)

  datatype Event = Publish(request: Request, actor: string, at: int, today: string, totals: seq<Totals>)

  ghost predicate Enabled(c: Codec, e: Event)
  {
    && Acceptable(c, e.request, e.actor, e.today)
    && var d := e.request.document;
    && IsResult(c, d.receivables.value, d.receipts.value, d.asOf, c.day(d.asOf).value, e.totals)
  }

  ghost function Step(c: Codec, w: World, e: Event): World
  {
    if !Enabled(c, e) then w
    else
      var (db, r) := Transacted(w.db, e.request, e.actor, e.at, e.totals);
      World(db, if r.Ok? && !r.value.replayed then w.documents[e.request.document.batch := e.request.document] else w.documents)
  }

  ghost function Run(c: Codec, w: World, events: seq<Event>): World
  {
    if events == [] then w else Step(c, Run(c, w, events[..|events| - 1]), events[|events| - 1])
  }

  predicate HasRows(d: Document)
  {
    d.receivables.Some? && d.receipts.Some?
  }

  predicate HasVersion(batches: map<string, Batch>, v: int)
  {
    exists b :: b in batches && batches[b].version == v
  }

  /** Versions count the batches, without gap or repetition, and the source row names the last one. */
  ghost predicate VersionsOk(p: SourceRow, batches: map<string, Batch>)
  {
    && p.version == |batches|
    && (forall b :: b in batches ==> 1 <= batches[b].version <= |batches|)
    && (forall v :: 1 <= v <= |batches| ==> HasVersion(batches, v))
    && (forall a, b :: a in batches && b in batches && batches[a].version == batches[b].version ==> a == b)
    && (if |batches| == 0 then p.batch == ""
        else
          p.batch in batches && batches[p.batch].version == |batches| && p.publishedAt == Some(batches[p.batch].publishedAt))
  }

  ghost predicate BatchesOk(c: Codec, w: World)
  {
    && w.db.batches.Keys == w.documents.Keys
    && forall b :: b in w.documents ==>
      && var d := w.documents[b];
      && HasRows(d) && d.batch == b && w.db.batches[b].digest == c.digest(d)
      && w.db.batches[b].rowCount == |d.receivables.value| + |d.receipts.value|
      && c.day(d.asOf).Some?
      && IsResult(c, d.receivables.value, d.receipts.value, d.asOf, c.day(d.asOf).value, w.db.batches[b].totals)
  }

  ghost predicate IsFactOf(k: FactKey, f: Fact, d: Document)
  {
    HasRows(d) && exists i :: 0 <= i < |FactRows(d)| && FactRows(d)[i] == (k, f)
  }

  /** The fact table holds exactly the rows of the published files. */
  ghost predicate FactsOk(facts: map<FactKey, Fact>, documents: map<string, Document>)
  {
    && (forall k :: k in facts ==> k.batch in documents && IsFactOf(k, facts[k], documents[k.batch]))
    && forall b, k, f :: b in documents && IsFactOf(k, f, documents[b]) ==> k in facts && facts[k] == f
  }

  ghost predicate Inv(c: Codec, w: World)
  {
    VersionsOk(Current(w.db), w.db.batches) && BatchesOk(c, w) && FactsOk(w.db.facts, w.documents)
  }

  ghost predicate FreshRows(facts: map<FactKey, Fact>, rows: seq<(FactKey, Fact)>)
  {
    && (forall i :: 0 <= i < |rows| ==> rows[i].0 !in facts)
    && forall i, j :: 0 <= i < j < |rows| ==> rows[i].0 != rows[j].0
  }

  lemma {:induction false} AddedFacts(facts: map<FactKey, Fact>, rows: seq<(FactKey, Fact)>)
    requires FreshRows(facts, rows)
    ensures Added(facts, rows).Some?
    ensures forall k :: k in Added(facts, rows).value <==> k in facts || exists i :: 0 <= i < |rows| && rows[i].0 == k
    ensures forall k :: k in facts ==> Added(facts, rows).value[k] == facts[k]
    ensures forall i :: 0 <= i < |rows| ==> Added(facts, rows).value[rows[i].0] == rows[i].1
  {
    if rows != [] {
      var n := |rows| - 1;
      AddedFacts(facts, rows[..n]);
      OneMoreFact(facts, Added(facts, rows[..n]).value, rows);
    }
  }

  lemma OneMoreFact(facts: map<FactKey, Fact>, before: map<FactKey, Fact>, rows: seq<(FactKey, Fact)>)
    requires rows != [] && FreshRows(facts, rows)
    requires var init := rows[..|rows| - 1];
      && (forall k :: k in before <==> k in facts || exists i :: 0 <= i < |init| && init[i].0 == k)
      && (forall k :: k in facts ==> before[k] == facts[k])
      && forall i :: 0 <= i < |init| ==> before[init[i].0] == init[i].1
    ensures var last := rows[|rows| - 1];
      && last.0 !in before
      && var next := before[last.0 := last.1];
      && (forall k :: k in next <==> k in facts || exists i :: 0 <= i < |rows| && rows[i].0 == k)
      && (forall k :: k in facts ==> next[k] == facts[k])
      && forall i :: 0 <= i < |rows| ==> next[rows[i].0] == rows[i].1
  {
    var n := |rows| - 1;
    var next := before[rows[n].0 := rows[n].1];
    forall i | 0 <= i < n
      ensures rows[i].0 in before && before[rows[i].0] == rows[i].1 && next[rows[i].0] == rows[i].1
    {
      assert rows[..n][i] == rows[i];
    }
    forall k
      ensures k in next <==> k in facts || exists i :: 0 <= i < |rows| && rows[i].0 == k
    {
      if k in before && k !in facts {
        var i :| 0 <= i < n && rows[..n][i].0 == k;
        assert rows[i].0 == k;
      }
    }
  }

  lemma RowsAreDistinct(c: Codec, d: Document, today: string)
    requires DocumentOk(c, d, today)
    ensures HasRows(d)
    ensures forall i, j :: 0 <= i < j < |FactRows(d)| ==> FactRows(d)[i].0 != FactRows(d)[j].0
    ensures forall i :: 0 <= i < |FactRows(d)| ==> FactRows(d)[i].0.batch == d.batch
  {
    hide SafeId, CurrencyCode, Before;
  }

  /** No row of a new file can collide with a stored one. */
  lemma NewRowsAreFresh(c: Codec, facts: map<FactKey, Fact>, documents: map<string, Document>, d: Document,
    today: string)
    requires DocumentOk(c, d, today) && FactsOk(facts, documents) && d.batch !in documents
    ensures HasRows(d) && FreshRows(facts, FactRows(d))
  {
    hide DocumentOk, FactRows, IsFactOf;
    RowsAreDistinct(c, d, today);
  }

  lemma NewFacts(facts: map<FactKey, Fact>, documents: map<string, Document>, d: Document)
    requires FactsOk(facts, documents) && d.batch !in documents && HasRows(d) && FreshRows(facts, FactRows(d))
    requires forall i :: 0 <= i < |FactRows(d)| ==> FactRows(d)[i].0.batch == d.batch
    ensures Added(facts, FactRows(d)).Some? && FactsOk(Added(facts, FactRows(d)).value, documents[d.batch := d])
  {
    hide FactRows, FreshRows, Added;
    var rows := FactRows(d);
    AddedFacts(facts, rows);
    var next, docs := Added(facts, rows).value, documents[d.batch := d];
    forall k | k in next
      ensures k.batch in docs && IsFactOf(k, next[k], docs[k.batch])
    {
      if k !in facts {
        var i :| 0 <= i < |rows| && rows[i].0 == k;
        assert rows[i] == (k, next[k]);
      }
    }
    forall b, k, f | b in docs && IsFactOf(k, f, docs[b])
      ensures k in next && next[k] == f
    {
      if b == d.batch {
        var i :| 0 <= i < |rows| && rows[i] == (k, f);
      } else {
        assert IsFactOf(k, f, documents[b]);
      }
    }
  }

  lemma NewVersion(p: SourceRow, batches: map<string, Batch>, id: string, batch: Batch)
    requires VersionsOk(p, batches) && id !in batches && batch.version == |batches| + 1
    ensures VersionsOk(SourceRow(batch.version, id, Some(batch.publishedAt)), batches[id := batch])
    ensures !HasVersion(batches, batch.version)
  {
    var next := batches[id := batch];
    assert |next| == |batches| + 1 by {
      assert next.Keys == batches.Keys + {id};
    }
    forall v | 1 <= v <= |next|
      ensures HasVersion(next, v)
    {
      if v == |next| {
        assert next[id].version == v;
      } else {
        assert HasVersion(batches, v);
        var b :| b in batches && batches[b].version == v;
        assert next[b].version == v;
      }
    }
  }

  lemma NewBatchOk(c: Codec, w: World, e: Event, next: World)
    requires BatchesOk(c, w) && Enabled(c, e) && e.request.document.batch !in w.db.batches
    requires HasRows(e.request.document)
    requires next.documents == w.documents[e.request.document.batch := e.request.document]
    requires next.db.batches == w.db.batches[e.request.document.batch := NewBatch(w.db, e.request, e.actor, e.at, e.totals)]
    ensures BatchesOk(c, next)
  {
    hide IsResult, RowsOk, SafeId, Before;
  }

  lemma CountsVersions(p: SourceRow, batches: map<string, Batch>)
    requires VersionsOk(p, batches)
    ensures p.version == |batches|
  {
  }

  /** In a reachable state a new file that is acceptable and expects the current version is published. */
  lemma NewFileIsPublished(c: Codec, w: World, e: Event)
    requires Inv(c, w) && Enabled(c, e)
    requires e.request.document.batch !in w.db.batches && Current(w.db).version == e.request.expected
    ensures HasRows(e.request.document) && Transacted(w.db, e.request, e.actor, e.at, e.totals).1.Ok?
    ensures Inv(c, Step(c, w, e))
  {
    hide DocumentOk, IsResult, FactRows, Added, FactsOk, FreshRows, VersionsOk, BatchesOk;
    var d := e.request.document;
    SameBatches(c, w);
    NewRowsAreFresh(c, w.db.facts, w.documents, d, e.today);
    RowsAreDistinct(c, d, e.today);
    NewFacts(w.db.facts, w.documents, d);
    CountsVersions(Current(w.db), w.db.batches);
    NewVersion(Current(w.db), w.db.batches, d.batch, NewBatch(w.db, e.request, e.actor, e.at, e.totals));
    NewBatchOk(c, w, e, Step(c, w, e));
  }

  lemma SameBatches(c: Codec, w: World)
    requires BatchesOk(c, w)
    ensures w.db.batches.Keys == w.documents.Keys
  {
  }

  lemma StepKeepsInv(c: Codec, w: World, e: Event)
    requires Inv(c, w)
    ensures Inv(c, Step(c, w, e))
  {
    hide DocumentOk, IsResult, VersionsOk, FactRows, Added, FactsOk;
    if Enabled(c, e) {
      var q := e.request;
      ValidHasRows(c, q.document, e.today);
      if q.document.batch !in w.db.batches && Current(w.db).version == q.expected {
        NewFileIsPublished(c, w, e);
      }
    }
  }

  lemma {:induction false} RunKeepsInv(c: Codec, w: World, events: seq<Event>)
    requires Inv(c, w)
    ensures Inv(c, Run(c, w, events))
  {
    hide Inv, Step;
    if events != [] {
      RunKeepsInv(c, w, events[..|events| - 1]);
      StepKeepsInv(c, Run(c, w, events[..|events| - 1]), events[|events| - 1]);
    }
  }

  lemma ReachableIsInv(c: Codec, events: seq<Event>)
    ensures Inv(c, Run(c, World(EMPTY, map[]), events))
  {
    RunKeepsInv(c, World(EMPTY, map[]), events);
  }

  // ----- what holds in every reachable state -----

  /** The versions are exactly 1 to N, one batch each, and the source row names batch N. */
  lemma VersionsAreContiguous(c: Codec, events: seq<Event>)
    ensures var db := Run(c, World(EMPTY, map[]), events).db; VersionsOk(Current(db), db.batches)
  {
    hide VersionsOk, BatchesOk, FactsOk;
    ReachableIsInv(c, events);
  }

  /**
   * In a reachable state, a request that passes the checks is refused exactly
   * when its batch id belongs to other content, or is new and the expected
   * version is not the current one.
   */
  lemma RefusedOnlyForConflicts(c: Codec, events: seq<Event>, e: Event)
    requires Enabled(c, e)
    ensures HasRows(e.request.document)
    ensures var db := Run(c, World(EMPTY, map[]), events).db;
      var q := e.request;
      Transacted(db, q, e.actor, e.at, e.totals).1.Ok? <==>
        if q.document.batch in db.batches then db.batches[q.document.batch].digest == q.digest
        else |db.batches| == q.expected
  {
    hide DocumentOk, IsResult, FactRows, Added, BatchesOk, FactsOk, VersionsOk, Run;
    ReachableIsInv(c, events);
    ValidHasRows(c, e.request.document, e.today);
    var w := Run(c, World(EMPTY, map[]), events);
    CountsVersions(Current(w.db), w.db.batches);
    if e.request.document.batch !in w.db.batches && Current(w.db).version == e.request.expected {
      NewFileIsPublished(c, w, e);
    }
  }

  lemma {:induction false} BatchesNeverChange(c: Codec, w: World, events: seq<Event>, b: string)
    requires b in w.db.batches
    ensures b in Run(c, w, events).db.batches && Run(c, w, events).db.batches[b] == w.db.batches[b]
  {
    hide Enabled, Added, FactRows;
    if events != [] {
      BatchesNeverChange(c, w, events[..|events| - 1], b);
    }
  }

  /**
   * A published file can be sent again at any later time, under any expected
   * version and by anyone: it gets the original receipt and changes nothing.
   */
  lemma {:induction false} ReplayReturnsTheReceipt(c: Codec, before: seq<Event>, e: Event, after: seq<Event>, again: Event)
    requires Enabled(c, e) && Enabled(c, again) && again.request.document == e.request.document
    requires var w := Run(c, World(EMPTY, map[]), before);
      HasRows(e.request.document) && Transacted(w.db, e.request, e.actor, e.at, e.totals).1.Ok?
    ensures HasRows(again.request.document)
    ensures var w := Run(c, World(EMPTY, map[]), before);
      var receipt := Transacted(w.db, e.request, e.actor, e.at, e.totals).1.value;
      var later := Run(c, Step(c, w, e), after);
      Transacted(later.db, again.request, again.actor, again.at, again.totals) == (later.db, Ok(receipt.(replayed := true)))
  {
    hide DocumentOk, IsResult, FactRows, Added, VersionsOk, BatchesOk, FactsOk, Run;
    var w := Run(c, World(EMPTY, map[]), before);
    var id := e.request.document.batch;
    ReachableIsInv(c, before);
    StepKeepsInv(c, w, e);
    RunKeepsInv(c, Step(c, w, e), after);
    BatchesNeverChange(c, Step(c, w, e), after, id);
    SourceExists(Run(c, Step(c, w, e), after).db, id);
  }

  lemma SourceExists(db: Db, id: string)
    requires VersionsOk(Current(db), db.batches) && id in db.batches
    ensures db.source.Some?
  {
    assert db.batches.Keys != {};
    assert |db.batches| > 0;
  }

  /** The join of source row and batches finds exactly one row once something is published, the newest. */
  lemma ReadFindsExactlyOne(c: Codec, events: seq<Event>)
    requires Sane(c)
    ensures var db := Run(c, World(EMPTY, map[]), events).db;
      && (db.batches == map[] <==> Current(db).version == 0)
      && (db.batches != map[] ==>
            && db.source.Some?
            && (forall b :: b in db.batches ==>
                  (db.batches[b].version == db.source.value.version && b == db.source.value.batch
                   <==> forall a :: a in db.batches ==> db.batches[a].version <= db.batches[b].version))
            && exists b :: b in db.batches && b == db.source.value.batch && db.batches[b].version == db.source.value.version)
      && !Damaged(db)
  {
    hide Run, IsResult, FactsOk;
    ReachableIsInv(c, events);
    var w := Run(c, World(EMPTY, map[]), events);
    SourceIsTheNewest(w.db);
  }

  lemma SourceIsTheNewest(db: Db)
    requires VersionsOk(Current(db), db.batches)
    ensures db.batches == map[] <==> |db.batches| == 0
    ensures forall b :: b in db.batches ==>
      (db.batches[b].version == |db.batches| <==> forall a :: a in db.batches ==> db.batches[a].version <= db.batches[b].version)
  {
    forall b | b in db.batches && forall a :: a in db.batches ==> db.batches[a].version <= db.batches[b].version
      ensures db.batches[b].version == |db.batches|
    {
      assert db.batches.Keys != {};
      var top :| top in db.batches && db.batches[top].version == |db.batches|;
    }
  }

  /** A stored fact and the row of the file it stands for. */
  ghost predicate IsRowOf(k: FactKey, f: Fact, d: Document)
  {
    && HasRows(d) && k.batch == d.batch
    && (|| (exists r :: r in d.receivables.value && k.kind == "receivable" && k.id == r.id && f == FromReceivable(r))
        || (exists r :: r in d.receipts.value && k.kind == "receipt" && k.id == r.id && f == FromReceipt(r)))
  }

  lemma FactsAreRows(k: FactKey, f: Fact, d: Document)
    ensures IsFactOf(k, f, d) <==> IsRowOf(k, f, d)
  {
    if IsRowOf(k, f, d) {
      var rows, n := FactRows(d), |d.receivables.value|;
      if r :| r in d.receivables.value && k.kind == "receivable" && k.id == r.id && f == FromReceivable(r) {
        var i :| 0 <= i < n && d.receivables.value[i] == r;
        assert rows[i] == (k, f);
      } else {
        var r :| r in d.receipts.value && k.kind == "receipt" && k.id == r.id && f == FromReceipt(r);
        var i :| 0 <= i < |d.receipts.value| && d.receipts.value[i] == r;
        assert rows[n + i] == (k, f);
      }
    }
  }

  /** The fact table is exactly the rows of the published files, each under its own batch and kind. */
  lemma FactsAreTheFiles(c: Codec, events: seq<Event>)
    ensures var w := Run(c, World(EMPTY, map[]), events);
      && FactsOk(w.db.facts, w.documents) && BatchesOk(c, w)
      && (forall k :: k in w.db.facts ==> k.batch in w.documents && IsRowOf(k, w.db.facts[k], w.documents[k.batch]))
      && forall b, k, f :: b in w.documents && IsRowOf(k, f, w.documents[b]) ==> k in w.db.facts && w.db.facts[k] == f
  {
    hide VersionsOk, BatchesOk, IsRowOf, IsFactOf, Run;
    ReachableIsInv(c, events);
    var w := Run(c, World(EMPTY, map[]), events);
    forall k, f, d
      ensures IsFactOf(k, f, d) <==> IsRowOf(k, f, d)
    {
      FactsAreRows(k, f, d);
    }
  }

  // ----- what a request is answered -----

  /** The batch that publishing this request adds to `n` others. */
  function BatchOf(e: Event, n: nat): Batch
    requires HasRows(e.request.document)
  {
    var d := e.request.document;
    Batch(n + 1, e.request.digest, d.asOf, |d.receivables.value| + |d.receipts.value|, e.actor, e.at, e.totals)
  }

  /** The tables and the answer after an acceptable request, by what is stored under its batch id. */
  ghost predicate Answered(db: Db, e: Event, next: Db, r: Result<Publication>)
    requires HasRows(e.request.document)
  {
    var id, n := e.request.document.batch, |db.batches|;
    if id in db.batches then
      && next == db
      && r == if db.batches[id].digest == e.request.digest
        then Ok(Publication(e.request.digest, db.batches[id].version, id, Some(db.batches[id].publishedAt), true))
        else Err("batch conflict")
    else if e.request.expected != n then next == db && r == Err("version conflict")
    else
      && r == Ok(Publication(e.request.digest, n + 1, id, Some(e.at), false))
      && next.source == Some(SourceRow(n + 1, id, Some(e.at))) && next.batches == db.batches[id := BatchOf(e, n)]
  }

  /** In every reachable state a request gets exactly this answer, and a refused or repeated one changes nothing. */
  lemma RequestsAreAnswered(c: Codec, events: seq<Event>, e: Event)
    requires Enabled(c, e)
    ensures HasRows(e.request.document)
    ensures var db := Run(c, World(EMPTY, map[]), events).db;
      var (next, r) := Transacted(db, e.request, e.actor, e.at, e.totals);
      Answered(db, e, next, r)
  {
    hide DocumentOk, IsResult, FactRows, Added, BatchesOk, FactsOk, VersionsOk, Run;
    ReachableIsInv(c, events);
    ValidHasRows(c, e.request.document, e.today);
    var w := Run(c, World(EMPTY, map[]), events);
    CountsVersions(Current(w.db), w.db.batches);
    if e.request.document.batch in w.db.batches {
      SourceExists(w.db, e.request.document.batch);
    } else if Current(w.db).version == e.request.expected {
      NewFileIsPublished(c, w, e);
    }
  }

  /** Event `i` is the request that published batch `b` of this file, when as many were published as it expected. */
  ghost predicate PublishedBy(c: Codec, events: seq<Event>, i: nat, b: string, batch: Batch, d: Document)
  {
    && i < |events| && Enabled(c, events[i]) && events[i].request.document == d && d.batch == b
    && var before := Run(c, World(EMPTY, map[]), events[..i]).db;
    && b !in before.batches && events[i].request.expected == |before.batches|
    && HasRows(d) && batch == BatchOf(events[i], |before.batches|)
  }

  /** Every stored batch is what exactly one request published, numbered by how many came before it. */
  lemma {:induction false} BatchesAreTheirRequests(c: Codec, events: seq<Event>, b: string)
    ensures var w := Run(c, World(EMPTY, map[]), events);
      && (b in w.db.batches <==> b in w.documents)
      && (b in w.db.batches ==> exists i :: PublishedBy(c, events, i, b, w.db.batches[b], w.documents[b]))
  {
    hide Run, Inv, PublishedBy;
    ReachableIsInv(c, events);
    KeysAgree(c, Run(c, World(EMPTY, map[]), events));
    if events != [] {
      var n := |events| - 1;
      BatchesAreTheirRequests(c, events[..n], b);
      OneMoreRequest(c, events[..n], events[n], b);
      assert events == events[..n] + [events[n]];
    } else {
      NoBatches(c, b);
    }
  }

  lemma KeysAgree(c: Codec, w: World)
    requires Inv(c, w)
    ensures w.db.batches.Keys == w.documents.Keys && BatchesOk(c, w)
  {
    hide VersionsOk, FactsOk, IsResult;
  }

  lemma NoBatches(c: Codec, b: string)
    ensures b !in Run(c, World(EMPTY, map[]), []).db.batches
  {
  }

  lemma OneMoreRequest(c: Codec, init: seq<Event>, e: Event, b: string)
    requires var w := Run(c, World(EMPTY, map[]), init);
      b in w.db.batches ==> b in w.documents && exists i :: PublishedBy(c, init, i, b, w.db.batches[b], w.documents[b])
    ensures var w := Run(c, World(EMPTY, map[]), init + [e]);
      b in w.db.batches ==>
        b in w.documents && exists i :: PublishedBy(c, init + [e], i, b, w.db.batches[b], w.documents[b])
  {
    hide Inv, PublishedBy, Step, BatchesOk, Run;
    var before, w := Run(c, World(EMPTY, map[]), init), Run(c, World(EMPTY, map[]), init + [e]);
    RunAppend(c, init, e);
    ReachableIsInv(c, init);
    KeysAgree(c, before);
    if b in before.db.batches {
      var i :| PublishedBy(c, init, i, b, before.db.batches[b], before.documents[b]);
      StillPublished(c, init, e, i, b, before.db.batches[b], before.documents[b]);
      OneEvent(c, before, e);
      BatchesNeverChange(c, before, [e], b);
      DocumentStays(c, before, e, b);
    } else if b in w.db.batches {
      NowPublished(c, init, e, b);
      IsPublished(c, init, e, b, w.db.batches[b], w.documents[b]);
    }
  }

  lemma RunAppend(c: Codec, init: seq<Event>, e: Event)
    ensures Run(c, World(EMPTY, map[]), init + [e]) == Step(c, Run(c, World(EMPTY, map[]), init), e)
  {
    assert (init + [e])[..|init|] == init;
  }

  lemma IsPublished(c: Codec, init: seq<Event>, e: Event, b: string, batch: Batch, d: Document)
    requires Enabled(c, e) && e.request.document == d && d.batch == b && HasRows(d)
    requires var before := Run(c, World(EMPTY, map[]), init).db;
      b !in before.batches && e.request.expected == |before.batches| && batch == BatchOf(e, |before.batches|)
    ensures PublishedBy(c, init + [e], |init|, b, batch, d)
  {
    assert (init + [e])[..|init|] == init;
  }

  lemma OneEvent(c: Codec, w: World, e: Event)
    ensures Run(c, w, [e]) == Step(c, w, e)
  {
    assert ([e])[..0] == [];
  }

  lemma StillPublished(c: Codec, init: seq<Event>, e: Event, i: nat, b: string, batch: Batch, d: Document)
    requires PublishedBy(c, init, i, b, batch, d)
    ensures PublishedBy(c, init + [e], i, b, batch, d)
  {
    assert (init + [e])[..i] == init[..i];
  }

  lemma DocumentStays(c: Codec, w: World, e: Event, b: string)
    requires BatchesOk(c, w) && b in w.db.batches
    ensures b in Step(c, w, e).documents && Step(c, w, e).documents[b] == w.documents[b]
  {
    hide Added, FactRows, IsResult, DocumentOk;
  }

  lemma NowPublished(c: Codec, init: seq<Event>, e: Event, b: string)
    requires b !in Run(c, World(EMPTY, map[]), init).db.batches
    requires b in Step(c, Run(c, World(EMPTY, map[]), init), e).db.batches
    ensures var w := Run(c, World(EMPTY, map[]), init);
      var next := Step(c, w, e);
      && b in next.documents && next.documents[b] == e.request.document && e.request.document.batch == b
      && Enabled(c, e) && e.request.expected == |w.db.batches|
      && HasRows(e.request.document) && next.db.batches[b] == BatchOf(e, |w.db.batches|)
  {
    hide Run, DocumentOk, IsResult, Transacted;
    RequestsAreAnswered(c, init, e);
  }

  /** Right after a publication the status is undamaged and tells exactly its receipt. */
  lemma StatusTellsTheReceipt(c: Codec, events: seq<Event>, e: Event, status: Option<Publication>)
    requires Sane(c) && Enabled(c, e)
    requires var db := Run(c, World(EMPTY, map[]), events).db;
      && HasRows(e.request.document)
      && var r := Transacted(db, e.request, e.actor, e.at, e.totals).1;
      && r.Ok? && !r.value.replayed
    ensures HasRows(e.request.document)
    ensures var w := Run(c, World(EMPTY, map[]), events);
      var receipt := Transacted(w.db, e.request, e.actor, e.at, e.totals).1.value;
      var next := Step(c, w, e).db;
      !Damaged(next) && (Tells(next, status) <==> status == Some(receipt))
  {
    hide DocumentOk, IsResult, BatchesOk, FactsOk, VersionsOk, Run, Transacted, Damaged, Tells;
    ReachableIsInv(c, events);
    var db := Run(c, World(EMPTY, map[]), events).db;
    CountsVersions(Current(db), db.batches);
    TransactionTells(db, e.request, e.actor, e.at, e.totals, status);
  }

  lemma TransactionTells(db: Db, q: Request, actor: string, at: int, totals: seq<Totals>, status: Option<Publication>)
    requires HasRows(q.document) && 0 <= Current(db).version && |q.digest| == 64
    requires var r := Transacted(db, q, actor, at, totals).1; r.Ok? && !r.value.replayed
    ensures var (next, r) := Transacted(db, q, actor, at, totals);
      !Damaged(next) && (Tells(next, status) <==> status == Some(r.value))
  {
    hide FactRows, Added, HasVersion;
  }
}
