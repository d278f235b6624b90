/** The metric dictionary over any sequence of changes, from empty tables. */
module DictionaryRuns {
  import opened Common
  import opened Dictionary

  datatype Event =
    | Add(given: Metric, id: string)
    | Edit(code: string, given: Metric, id: string)
    | Switch(code: string, enabled: bool, version: nat, id: string)
    | Remove(code: string, version: nat, id: string)
    | Batch(metrics: seq<Metric>, ids: seq<string>)
    | Refer(references: set<string>)

  const EMPTY := Db(map[], map[], {})

  function Outcome(cat: Catalogue, db: Db, actor: string, e: Event): Result<Db>
  {
    match e
    case Add(given, id) => Created(cat, db, actor, given, id)
    case Edit(code, given, id) => Updated(cat, db, actor, code, given, id)
    case Switch(code, enabled, version, id) => Switched(cat, db, actor, code, enabled, version, id)
    case Remove(code, version, id) => Removed(cat, db, actor, code, version, id)
    case Batch(metrics, ids) => if |ids| == |metrics| then Batched(cat, db, actor, metrics, ids) else Err("")
    case Refer(references) => Ok(db.(references := references))
  }

  function Step(cat: Catalogue, db: Db, actor: string, e: Event): Db
  {
    Committed(db, Outcome(cat, db, actor, e))
  }

  /** Each event comes with the operator who causes it. */
  function Run(cat: Catalogue, db: Db, events: seq<(string, Event)>): Db
  {
    if events == [] then db
    else
      var last := events[|events| - 1];
      Step(cat, Run(cat, db, events[..|events| - 1]), last.0, last.1)
  }

  // ----- invariants -----

  predicate RowOk(cat: Catalogue, code: string, row: Row)
  {
    && row.m.code == code
    && (row.m.origin.Builtin? <==> code in cat)
    && (if row.m.origin.Builtin? then 2 else 1) <= row.m.version
    && (row.m.enabled ==> CanEnable(cat, row.m))
    && (row.deleted ==> row.m.origin.Custom? && !row.m.enabled)
  }

  predicate FirstOp(origin: Origin, op: Operation)
  {
    if origin.Builtin? then op.Baseline? else op.Create?
  }

  /** One snapshot of each version up to the current one, the first a baseline or creation, the last the row itself. */
  ghost predicate HistoryOk(row: Row, versions: map<VersionKey, Version>)
  {
    && (forall v :: 1 <= v <= row.m.version ==>
          && VersionKey(row.m.id, v) in versions
          && versions[VersionKey(row.m.id, v)].snapshot.version == v
          && versions[VersionKey(row.m.id, v)].snapshot.code == row.m.code
          && (if v == 1 then FirstOp(row.m.origin, versions[VersionKey(row.m.id, v)].op)
              else !versions[VersionKey(row.m.id, v)].op.Baseline? && !versions[VersionKey(row.m.id, v)].op.Create?))
    && 1 <= row.m.version && versions[VersionKey(row.m.id, row.m.version)].snapshot == row.m
  }

  predicate Covered(rows: map<string, Row>, k: VersionKey)
  {
    exists code :: code in rows && rows[code].m.id == k.id && 1 <= k.version <= rows[code].m.version
  }

  ghost predicate Inv(cat: Catalogue, db: Db)
  {
    && (forall code :: code in db.rows ==> RowOk(cat, code, db.rows[code]) && HistoryOk(db.rows[code], db.versions))
    && (forall a, b :: a in db.rows && b in db.rows && db.rows[a].m.id == db.rows[b].m.id ==> a == b)
    && (forall k :: k in db.versions ==> Covered(db.rows, k))
  }

  // ----- saving -----

  lemma DerivedKeeps(cat: Catalogue, m: Metric)
    requires m.enabled ==> CanEnable(cat, m)
    ensures Derived(cat, m) == m
  {
  }

  /** Adding versions of one id leaves the history of rows with other ids alone. */
  lemma OtherHistory(row: Row, versions: map<VersionKey, Version>, more: map<VersionKey, Version>)
    requires HistoryOk(row, versions)
    requires forall k :: k in versions && k.id == row.m.id ==> k in more && more[k] == versions[k]
    ensures HistoryOk(row, more)
  {
  }

  lemma SavedOverKeepsInv(cat: Catalogue, db: Db, row: Row, version: nat, actor: string, op: Operation)
    requires Inv(cat, db) && SavedOver(cat, db, row, version, actor, op).Ok?
    requires row.m.code in db.rows && row.m.origin == db.rows[row.m.code].m.origin && !op.Baseline? && !op.Create?
    requires (row.m.enabled ==> CanEnable(cat, row.m)) && (row.deleted ==> row.m.origin.Custom? && !row.m.enabled)
    ensures Inv(cat, SavedOver(cat, db, row, version, actor, op).value)
  {
    hide CanEnable, HistoryOk, Covered;
    var code := row.m.code;
    var next := SavedOver(cat, db, row, version, actor, op).value;
    var m := row.m.(version := version + 1);
    SameBinding(cat, row.m, m);
    DerivedKeeps(cat, m);
    GrownHistory(cat, db, next, code);
    forall k | k in next.versions
      ensures Covered(next.rows, k)
    {
      StillCovered(db, next, code, k);
    }
    forall c | c in next.rows && c != code
      ensures HistoryOk(next.rows[c], next.versions)
    {
      OtherHistory(db.rows[c], db.versions, next.versions);
    }
  }

  lemma SameBinding(cat: Catalogue, a: Metric, b: Metric)
    requires b == a.(version := b.version)
    ensures CanEnable(cat, b) == CanEnable(cat, a)
  {
  }

  lemma StillCovered(db: Db, next: Db, code: string, k: VersionKey)
    requires code in db.rows && code in next.rows && next.rows == db.rows[code := next.rows[code]]
    requires next.rows[code].m.id == db.rows[code].m.id && next.rows[code].m.version == db.rows[code].m.version + 1
    requires k == VersionKey(db.rows[code].m.id, next.rows[code].m.version) || Covered(db.rows, k)
    ensures Covered(next.rows, k)
  {
    if Covered(db.rows, k) {
      var c :| c in db.rows && db.rows[c].m.id == k.id && 1 <= k.version <= db.rows[c].m.version;
      assert next.rows[c].m.id == k.id && k.version <= next.rows[c].m.version;
    } else {
      assert next.rows[code].m.id == k.id;
    }
  }

  lemma GrownHistory(cat: Catalogue, db: Db, next: Db, code: string)
    requires code in db.rows && HistoryOk(db.rows[code], db.versions) && code in next.rows
    requires var row, later := db.rows[code], next.rows[code];
      && later.m.id == row.m.id && later.m.version == row.m.version + 1
      && later.m.code == row.m.code && later.m.origin == row.m.origin
      && var key := VersionKey(row.m.id, later.m.version);
      && key in next.versions && next.versions == db.versions[key := next.versions[key]]
      && next.versions[key].snapshot == later.m && !next.versions[key].op.Baseline? && !next.versions[key].op.Create?
    ensures HistoryOk(next.rows[code], next.versions)
  {
  }

  lemma NewHistory(row: Row, versions: map<VersionKey, Version>, code: string)
    requires row.m.version == (if row.m.origin.Builtin? then 2 else 1) && row.m.code == code
    requires var key, first := VersionKey(row.m.id, row.m.version), VersionKey(row.m.id, 1);
      && first in versions && key in versions && versions[key].snapshot == row.m
      && versions[first].snapshot.version == 1 && versions[first].snapshot.code == code
      && FirstOp(row.m.origin, versions[first].op)
      && (row.m.version == 2 ==> !versions[key].op.Baseline? && !versions[key].op.Create?)
    ensures HistoryOk(row, versions)
  {
  }

  lemma NoVersionsOfNewId(cat: Catalogue, db: Db, id: string, v: nat)
    requires Inv(cat, db) && !IdTaken(db.rows, id)
    ensures VersionKey(id, v) !in db.versions
  {
    hide RowOk, HistoryOk;
  }

  /** The tables after a new row, spelled out: its current version, and the published one before it. */
  ghost predicate NewRow(cat: Catalogue, db: Db, next: Db, code: string)
  {
    && code in next.rows && next.rows == db.rows[code := next.rows[code]]
    && var row := next.rows[code];
    && var key, first := VersionKey(row.m.id, row.m.version), VersionKey(row.m.id, 1);
    && row.m.version == (if row.m.origin.Builtin? then 2 else 1)
    && first in next.versions && key in next.versions
    && next.versions == db.versions[first := next.versions[first]][key := next.versions[key]]
    && next.versions[key].snapshot == row.m
    && next.versions[first].snapshot.version == 1 && next.versions[first].snapshot.code == code
    && FirstOp(row.m.origin, next.versions[first].op)
    && (row.m.version == 2 ==> !next.versions[key].op.Baseline? && !next.versions[key].op.Create?)
  }

  lemma NewRowKeepsInv(cat: Catalogue, db: Db, next: Db, code: string)
    requires Inv(cat, db) && code !in db.rows && NewRow(cat, db, next, code)
    requires !IdTaken(db.rows, next.rows[code].m.id) && RowOk(cat, code, next.rows[code])
    ensures Inv(cat, next)
  {
    hide HistoryOk, IdTaken, FirstOp, CanEnable, Covered;
    var id := next.rows[code].m.id;
    IsIt(db, next, code, id);
    NewHistory(next.rows[code], next.versions, code);
    NoVersionsOfNewId(cat, db, id, 1);
    NoVersionsOfNewId(cat, db, id, 2);
    forall c | c in next.rows && c != code
      ensures HistoryOk(next.rows[c], next.versions)
    {
      assert db.rows[c].m.id != id by { Taken(db.rows, c); }
      OtherHistory(db.rows[c], db.versions, next.versions);
    }
    forall k | k in next.versions
      ensures Covered(next.rows, k)
    {
      NewCovered(db, next, code, k);
    }
  }

  lemma NewCovered(db: Db, next: Db, code: string, k: VersionKey)
    requires code !in db.rows && code in next.rows && next.rows == db.rows[code := next.rows[code]]
    requires Covered(db.rows, k) || (k.id == next.rows[code].m.id && 1 <= k.version <= next.rows[code].m.version)
    ensures Covered(next.rows, k)
  {
    if Covered(db.rows, k) {
      var c :| c in db.rows && db.rows[c].m.id == k.id && 1 <= k.version <= db.rows[c].m.version;
      assert next.rows[c] == db.rows[c];
    }
  }

  lemma Taken(rows: map<string, Row>, code: string)
    requires code in rows
    ensures IdTaken(rows, rows[code].m.id)
  {
  }

  lemma SavedNewKeepsInv(cat: Catalogue, db: Db, row: Row, actor: string, op: Operation, id: string)
    requires Inv(cat, db) && row.m.code !in db.rows && !IdTaken(db.rows, id) && !row.deleted
    requires if row.m.origin.Builtin? then row.m.code in cat && !op.Baseline? && !op.Create? else row.m.code !in cat && op.Create?
    requires row.m.enabled ==> CanEnable(cat, row.m)
    ensures var r := SavedNew(cat, db, row, if row.m.origin.Builtin? then 1 else 0, actor, op, id);
      r.Ok? && Inv(cat, r.value) && r.value.rows.Keys == db.rows.Keys + {row.m.code}
  {
    hide CanEnable, HistoryOk, IdTaken, Inv;
    NoVersionsOfNewId(cat, db, id, 1);
    NoVersionsOfNewId(cat, db, id, 2);
    var version := if row.m.origin.Builtin? then 1 else 0;
    var m := row.m.(id := id, version := version + 1);
    NewBinding(cat, row.m, m);
    DerivedKeeps(cat, m);
    var next := SavedNew(cat, db, row, version, actor, op, id).value;
    assert NewRow(cat, db, next, row.m.code);
    NewRowKeepsInv(cat, db, next, row.m.code);
  }

  lemma NewBinding(cat: Catalogue, a: Metric, b: Metric)
    requires b == a.(id := b.id, version := b.version)
    ensures CanEnable(cat, b) == CanEnable(cat, a)
  {
  }

  lemma IsIt(db: Db, next: Db, code: string, id: string)
    requires !IdTaken(db.rows, id) && code !in db.rows && code in next.rows && next.rows == db.rows[code := next.rows[code]]
    requires next.rows[code].m.id == id
    requires forall a, b :: a in db.rows && b in db.rows && db.rows[a].m.id == db.rows[b].m.id ==> a == b
    ensures forall a, b :: a in next.rows && b in next.rows && next.rows[a].m.id == next.rows[b].m.id ==> a == b
  {
  }

  // ----- loading and saving as one change -----

  /** In a state with complete histories, loading writes nothing. */
  lemma LoadChangesNothing(cat: Catalogue, db: Db, code: string)
    requires Inv(cat, db)
    ensures var r := Load(cat, db, code);
      && (r.Ok? <==> if code in db.rows then !db.rows[code].deleted else code in cat)
      && (r.Ok? ==>
            && r.value.db == db && r.value.row.m.code == code && !r.value.row.deleted
            && r.value.found == (code in db.rows)
            && (r.value.found ==> r.value.row == db.rows[code])
            && (!r.value.found ==> r.value.row.m.origin.Builtin? && r.value.row.m.version == 1)
            && (r.value.row.m.origin.Builtin? <==> code in cat)
            && (r.value.row.m.enabled ==> CanEnable(cat, r.value.row.m)))
  {
    hide Covered;
    if code in db.rows {
      assert HistoryOk(db.rows[code], db.versions);
    }
  }

  lemma SaveKeepsInv(cat: Catalogue, db: Db, loaded: Loaded, row: Row, actor: string, op: Operation, id: string)
    requires Inv(cat, db) && Load(cat, db, row.m.code) == Ok(loaded) && !op.Baseline? && !op.Create?
    requires row.m == loaded.row.m.(enabled := row.m.enabled, d := row.m.d)
    requires row.m.enabled ==> CanEnable(cat, row.m)
    requires row.deleted ==> row.m.origin.Custom? && !row.m.enabled
    ensures var r := Save(cat, loaded.db, loaded.found, row, row.m.version, actor, op, id);
      && (r.Ok? <==> loaded.found || !IdTaken(db.rows, id))
      && (r.Ok? ==> Inv(cat, r.value) && r.value.rows.Keys == db.rows.Keys + {row.m.code})
  {
    hide CanEnable, HistoryOk, Covered, IdTaken, Load;
    LoadChangesNothing(cat, db, row.m.code);
    if loaded.found {
      NextVersionIsNew(cat, db, row.m.code);
      SavedOverKeepsInv(cat, db, row, row.m.version, actor, op);
    } else if !IdTaken(db.rows, id) {
      SavedNewKeepsInv(cat, db, row, actor, op, id);
    }
  }

  lemma NextVersionIsNew(cat: Catalogue, db: Db, code: string)
    requires Inv(cat, db) && code in db.rows
    ensures VersionKey(db.rows[code].m.id, db.rows[code].m.version + 1) !in db.versions
  {
    hide RowOk, HistoryOk;
    var k := VersionKey(db.rows[code].m.id, db.rows[code].m.version + 1);
    assert forall c :: c in db.rows && db.rows[c].m.id == k.id ==> c == code;
    assert !Covered(db.rows, k);
  }

  // ----- one change at a time -----

  lemma CreatedKeepsInv(cat: Catalogue, db: Db, actor: string, given: Metric, id: string)
    requires Inv(cat, db)
    ensures Created(cat, db, actor, given, id).Ok? ==> Inv(cat, Created(cat, db, actor, given, id).value)
  {
    hide Inv, MetricOk, SavedNew, Blank, CanEnable, IdTaken;
    var m := if given.d.status == "" then given.(d := given.d.(status := UNCONFIRMED)) else given;
    if !IdTaken(db.rows, id) && m.code !in db.rows && m.code !in cat {
      SavedNewKeepsInv(cat, db, Row(Metric("", 0, Custom, false, m.code, m.d), false, ""), actor, Create, id);
    } else if m.code !in db.rows && m.code !in cat {
      TakenIdFails(cat, db, Row(Metric("", 0, Custom, false, m.code, m.d), false, ""), 0, actor, Create, id);
    }
  }

  lemma TakenIdFails(cat: Catalogue, db: Db, row: Row, version: nat, actor: string, op: Operation, id: string)
    requires IdTaken(db.rows, id)
    ensures SavedNew(cat, db, row, version, actor, op, id).Err?
  {
  }

  lemma UpdatedKeepsInv(cat: Catalogue, db: Db, actor: string, code: string, given: Metric, id: string)
    requires Inv(cat, db)
    ensures var r := Updated(cat, db, actor, code, given, id);
      && (r.Ok? ==> Inv(cat, r.value))
      && (r.Ok? <==>
            && !Blank(actor) && (given.code == "" || given.code == code) && MetricOk(given.(code := code))
            && (if code in db.rows then !db.rows[code].deleted && given.version == db.rows[code].m.version
                else code in cat && given.version == 1 && !IdTaken(db.rows, id)))
  {
    hide Inv, MetricOk, Save, Blank, CanEnable, IdTaken, Load;
    LoadChangesNothing(cat, db, code);
    var loaded := Load(cat, db, code);
    if loaded.Ok? && given.version == loaded.value.row.m.version {
      var row := loaded.value.row;
      var merged := Derived(cat, Metric(row.m.id, given.version, row.m.origin, row.m.enabled, code, given.d));
      DerivedCanEnable(cat, Metric(row.m.id, given.version, row.m.origin, row.m.enabled, code, given.d));
      SaveKeepsInv(cat, db, loaded.value, row.(m := merged), actor, Update, id);
      PositiveVersion(cat, db, code);
    }
  }

  lemma PositiveVersion(cat: Catalogue, db: Db, code: string)
    requires Inv(cat, db)
    ensures code in db.rows ==> 1 <= db.rows[code].m.version
  {
    hide HistoryOk;
  }

  lemma DerivedCanEnable(cat: Catalogue, m: Metric)
    ensures Derived(cat, m).enabled ==> CanEnable(cat, Derived(cat, m))
  {
  }

  lemma SwitchedKeepsInv(cat: Catalogue, db: Db, actor: string, code: string, enabled: bool, version: nat, id: string)
    requires Inv(cat, db)
    ensures Switched(cat, db, actor, code, enabled, version, id).Ok? ==>
      Inv(cat, Switched(cat, db, actor, code, enabled, version, id).value)
  {
    hide Inv, Save, Blank, CanEnable, IdTaken, Load;
    LoadChangesNothing(cat, db, code);
    var loaded := Load(cat, db, code);
    if loaded.Ok? && version == loaded.value.row.m.version && (enabled ==> CanEnable(cat, loaded.value.row.m)) {
      var row := loaded.value.row;
      EnabledIsNoCalculation(cat, row.m, enabled);
      var op := if enabled then Enable else Disable;
      SaveKeepsInv(cat, db, loaded.value, row.(m := row.m.(enabled := enabled)), actor, op, id);
    }
  }

  lemma EnabledIsNoCalculation(cat: Catalogue, m: Metric, enabled: bool)
    ensures CanEnable(cat, m.(enabled := enabled)) == CanEnable(cat, m)
  {
  }

  lemma RemovedKeepsInv(cat: Catalogue, db: Db, actor: string, code: string, version: nat, id: string)
    requires Inv(cat, db)
    ensures Removed(cat, db, actor, code, version, id).Ok? ==> Inv(cat, Removed(cat, db, actor, code, version, id).value)
  {
    hide Inv, Save, Blank, CanEnable, IdTaken, Load;
    LoadChangesNothing(cat, db, code);
    var loaded := Load(cat, db, code);
    if loaded.Ok? && version == loaded.value.row.m.version && loaded.value.row.m.origin.Custom? {
      var row := loaded.value.row;
      SaveKeepsInv(cat, db, loaded.value, row.(m := row.m.(enabled := false), deleted := true), actor, Delete, id);
    }
  }

  lemma {:induction false} BatchKeepsInv(cat: Catalogue, db: Db, actor: string, metrics: seq<Metric>, ids: seq<string>)
    requires Inv(cat, db) && |ids| == |metrics|
    ensures SavedAll(cat, db, actor, metrics, ids).Ok? ==> Inv(cat, SavedAll(cat, db, actor, metrics, ids).value)
  {
    hide Inv, Created, Updated;
    if metrics != [] {
      var n := |metrics| - 1;
      BatchKeepsInv(cat, db, actor, metrics[..n], ids[..n]);
      var before := SavedAll(cat, db, actor, metrics[..n], ids[..n]);
      if before.Ok? {
        CreatedKeepsInv(cat, before.value, actor, metrics[n], ids[n]);
        UpdatedKeepsInv(cat, before.value, actor, metrics[n].code, metrics[n], ids[n]);
      }
    }
  }

  lemma StepKeepsInv(cat: Catalogue, db: Db, actor: string, e: Event)
    requires Inv(cat, db)
    ensures Inv(cat, Step(cat, db, actor, e))
  {
    hide Inv, Created, Updated, Switched, Removed, SavedAll;
    match e
    case Add(given, id) => CreatedKeepsInv(cat, db, actor, given, id);
    case Edit(code, given, id) => UpdatedKeepsInv(cat, db, actor, code, given, id);
    case Switch(code, enabled, version, id) => SwitchedKeepsInv(cat, db, actor, code, enabled, version, id);
    case Remove(code, version, id) => RemovedKeepsInv(cat, db, actor, code, version, id);
    case Batch(metrics, ids) =>
      if |ids| == |metrics| {
        BatchKeepsInv(cat, db, actor, metrics, ids);
      }
    case Refer(references) => ReferencesKeepInv(cat, db, references);
  }

  lemma ReferencesKeepInv(cat: Catalogue, db: Db, references: set<string>)
    requires Inv(cat, db)
    ensures Inv(cat, db.(references := references))
  {
    hide RowOk, HistoryOk, Covered;
  }

  lemma {:induction false} RunKeepsInv(cat: Catalogue, db: Db, events: seq<(string, Event)>)
    requires Inv(cat, db)
    ensures Inv(cat, Run(cat, db, events))
  {
    hide Inv, Step;
    if events != [] {
      RunKeepsInv(cat, db, events[..|events| - 1]);
      StepKeepsInv(cat, Run(cat, db, events[..|events| - 1]), events[|events| - 1].0, events[|events| - 1].1);
    }
  }

  // ----- what no change takes away -----

  /** Histories only grow, rows keep their identity and never go back, deleted rows stay as they are. */
  ghost predicate Extends(a: Db, b: Db)
  {
    && (forall k :: k in a.versions ==> k in b.versions && b.versions[k] == a.versions[k])
    && forall code :: code in a.rows ==>
      && code in b.rows && b.rows[code].m.id == a.rows[code].m.id && b.rows[code].m.origin == a.rows[code].m.origin
      && a.rows[code].m.version <= b.rows[code].m.version
      && (a.rows[code].deleted ==> b.rows[code] == a.rows[code])
  }

  lemma ExtendsTransitive(a: Db, b: Db, c: Db)
    requires Extends(a, b) && Extends(b, c)
    ensures Extends(a, c)
  {
  }

  lemma LoadExtends(cat: Catalogue, db: Db, code: string)
    ensures Load(cat, db, code).Ok? ==> Extends(db, Load(cat, db, code).value.db)
    ensures Load(cat, db, code).Ok? ==>
      && Load(cat, db, code).value.db.rows == db.rows
      && (code in db.rows ==> Load(cat, db, code).value.row == db.rows[code])
  {
  }

  lemma SaveExtends(cat: Catalogue, db: Db, found: bool, row: Row, actor: string, op: Operation, id: string)
    requires row.m.code in db.rows && found ==>
      row.m.id == db.rows[row.m.code].m.id && row.m.origin == db.rows[row.m.code].m.origin
    ensures var r := Save(cat, db, found, row, row.m.version, actor, op, id); r.Ok? ==> Extends(db, r.value)
  {
    hide Derived, BuiltinMetric, IdTaken;
  }

  lemma CreatedExtends(cat: Catalogue, db: Db, actor: string, given: Metric, id: string)
    ensures var r := Created(cat, db, actor, given, id); r.Ok? ==> Extends(db, r.value)
  {
    hide MetricOk, Blank, Extends, SavedNew;
    var m := if given.d.status == "" then given.(d := given.d.(status := UNCONFIRMED)) else given;
    SaveExtends(cat, db, false, Row(Metric("", 0, Custom, false, m.code, m.d), false, ""), actor, Create, id);
  }

  lemma LoadedSaveExtends(cat: Catalogue, db: Db, code: string, row: Row, actor: string, op: Operation, id: string)
    requires var loaded := Load(cat, db, code);
      && loaded.Ok? && row.m.code == code && row.m.id == loaded.value.row.m.id && row.m.origin == loaded.value.row.m.origin
    ensures var loaded := Load(cat, db, code).value;
      var r := Save(cat, loaded.db, loaded.found, row, row.m.version, actor, op, id);
      r.Ok? ==> Extends(db, r.value)
  {
    hide Extends, Save, Load;
    LoadExtends(cat, db, code);
    var loaded := Load(cat, db, code).value;
    SaveExtends(cat, loaded.db, loaded.found, row, actor, op, id);
    var r := Save(cat, loaded.db, loaded.found, row, row.m.version, actor, op, id);
    if r.Ok? {
      ExtendsTransitive(db, loaded.db, r.value);
    }
  }

  lemma LoadedCode(cat: Catalogue, db: Db, code: string)
    requires forall c :: c in db.rows ==> db.rows[c].m.code == c
    ensures Load(cat, db, code).Ok? ==> Load(cat, db, code).value.row.m.code == code
  {
  }

  lemma UpdatedExtends(cat: Catalogue, db: Db, actor: string, code: string, given: Metric, id: string)
    ensures var r := Updated(cat, db, actor, code, given, id); r.Ok? ==> Extends(db, r.value)
  {
    hide MetricOk, Blank, Extends, Save, Load;
    var loaded := Load(cat, db, code);
    if loaded.Ok? {
      var row := loaded.value.row;
      var merged := Derived(cat, Metric(row.m.id, given.version, row.m.origin, row.m.enabled, code, given.d));
      LoadedSaveExtends(cat, db, code, row.(m := merged), actor, Update, id);
    }
  }

  lemma RowsKnowTheirCode(cat: Catalogue, db: Db)
    requires Inv(cat, db)
    ensures forall c :: c in db.rows ==> db.rows[c].m.code == c
  {
    hide HistoryOk, Covered;
  }

  lemma SwitchedAndRemovedExtend(cat: Catalogue, db: Db, actor: string, code: string, enabled: bool, version: nat,
    id: string)
    requires Inv(cat, db)
    ensures var r := Switched(cat, db, actor, code, enabled, version, id); r.Ok? ==> Extends(db, r.value)
    ensures var r := Removed(cat, db, actor, code, version, id); r.Ok? ==> Extends(db, r.value)
  {
    hide Inv, Blank, Extends, Save, Load, CanEnable;
    RowsKnowTheirCode(cat, db);
    LoadedCode(cat, db, code);
    var loaded := Load(cat, db, code);
    if loaded.Ok? {
      var row := loaded.value.row;
      LoadedSaveExtends(cat, db, code, row.(m := row.m.(enabled := enabled)), actor, if enabled then Enable else Disable, id);
      LoadedSaveExtends(cat, db, code, row.(m := row.m.(enabled := false), deleted := true), actor, Delete, id);
    }
  }

  lemma {:induction false} BatchExtends(cat: Catalogue, db: Db, actor: string, metrics: seq<Metric>, ids: seq<string>)
    requires |ids| == |metrics|
    ensures var r := SavedAll(cat, db, actor, metrics, ids); r.Ok? ==> Extends(db, r.value)
  {
    hide Extends, Created, Updated;
    if metrics == [] {
      Unchanged(db);
    } else {
      var n := |metrics| - 1;
      BatchExtends(cat, db, actor, metrics[..n], ids[..n]);
      var before := SavedAll(cat, db, actor, metrics[..n], ids[..n]);
      if before.Ok? {
        CreatedExtends(cat, before.value, actor, metrics[n], ids[n]);
        UpdatedExtends(cat, before.value, actor, metrics[n].code, metrics[n], ids[n]);
        var r := SavedOne(cat, before.value, actor, metrics[n], ids[n]);
        if r.Ok? {
          ExtendsTransitive(db, before.value, r.value);
        }
      }
    }
  }

  lemma Unchanged(db: Db)
    ensures Extends(db, db)
    ensures forall references: set<string> :: Extends(db, db.(references := references))
  {
  }

  lemma StepExtends(cat: Catalogue, db: Db, actor: string, e: Event)
    requires Inv(cat, db)
    ensures Extends(db, Step(cat, db, actor, e))
  {
    hide Inv, Extends, Created, Updated, Switched, Removed, SavedAll;
    Unchanged(db);
    match e
    case Add(given, id) => CreatedExtends(cat, db, actor, given, id);
    case Edit(code, given, id) => UpdatedExtends(cat, db, actor, code, given, id);
    case Switch(code, enabled, version, id) => SwitchedAndRemovedExtend(cat, db, actor, code, enabled, version, id);
    case Remove(code, version, id) => SwitchedAndRemovedExtend(cat, db, actor, code, false, version, id);
    case Batch(metrics, ids) =>
      if |ids| == |metrics| {
        BatchExtends(cat, db, actor, metrics, ids);
      }
    case Refer(references) =>
  }

  lemma {:induction false} RunExtends(cat: Catalogue, db: Db, events: seq<(string, Event)>)
    requires Inv(cat, db)
    ensures Extends(db, Run(cat, db, events))
  {
    hide Inv, Extends, Step;
    if events == [] {
      Unchanged(db);
    } else {
      var before, last := events[..|events| - 1], events[|events| - 1];
      RunExtends(cat, db, before);
      RunKeepsInv(cat, db, before);
      StepExtends(cat, Run(cat, db, before), last.0, last.1);
      ExtendsTransitive(db, Run(cat, db, before), Run(cat, db, events));
    }
  }

  // ----- in every reachable state -----

  lemma ReachableIsInv(cat: Catalogue, events: seq<(string, Event)>)
    ensures Inv(cat, Run(cat, EMPTY, events))
  {
    hide Run;
    RunKeepsInv(cat, EMPTY, events);
  }

  /** A metric's history holds exactly the versions 1 to its current one, the last of them the row itself. */
  lemma HistoryIsComplete(cat: Catalogue, events: seq<(string, Event)>, code: string)
    requires code in Run(cat, EMPTY, events).rows
    ensures var db := Run(cat, EMPTY, events);
      var m := db.rows[code].m;
      && 1 <= m.version
      && (forall v: nat :: VersionKey(m.id, v) in db.versions <==> 1 <= v <= m.version)
      && FirstOp(m.origin, db.versions[VersionKey(m.id, 1)].op)
      && db.versions[VersionKey(m.id, m.version)].snapshot == m
      && (m.origin.Builtin? <==> code in cat)
  {
    hide Run, FirstOp, CanEnable;
    ReachableIsInv(cat, events);
    var db := Run(cat, EMPTY, events);
    forall v: nat | VersionKey(db.rows[code].m.id, v) in db.versions
      ensures 1 <= v <= db.rows[code].m.version
    {
      assert Covered(db.rows, VersionKey(db.rows[code].m.id, v));
    }
  }

  /** Enabled metrics are confirmed and still calculated as published. */
  lemma EnabledMatchesThePublishedCalculation(cat: Catalogue, events: seq<(string, Event)>, code: string)
    requires code in Run(cat, EMPTY, events).rows && Run(cat, EMPTY, events).rows[code].m.enabled
    ensures var m := Run(cat, EMPTY, events).rows[code].m;
      && code == BOUND_CODE && m.d.status == CONFIRMED && BOUND_CODE in cat && SameCalculation(m.d, cat[BOUND_CODE])
      && !Run(cat, EMPTY, events).rows[code].deleted && BlockReason(cat, m) == ""
  {
    hide Run, HistoryOk, Covered;
    ReachableIsInv(cat, events);
  }

  /** A deleted code is never used again, and what was written to a history is never changed. */
  lemma NothingComesBack(cat: Catalogue, events: seq<(string, Event)>, more: seq<(string, Event)>)
    ensures Extends(Run(cat, EMPTY, events), Run(cat, Run(cat, EMPTY, events), more))
  {
    hide Run, Inv, Extends;
    ReachableIsInv(cat, events);
    RunExtends(cat, Run(cat, EMPTY, events), more);
  }

  /** An update is refused exactly for its form, a stale version, a code that is deleted or unknown, or a taken id. */
  lemma UpdatesAreRefusedOnlyFor(cat: Catalogue, events: seq<(string, Event)>, actor: string, code: string,
    given: Metric, id: string)
    ensures var db := Run(cat, EMPTY, events);
      Updated(cat, db, actor, code, given, id).Ok? <==>
        && !Blank(actor) && (given.code == "" || given.code == code) && MetricOk(given.(code := code))
        && if code in db.rows then !db.rows[code].deleted && given.version == db.rows[code].m.version
           else code in cat && given.version == 1 && !IdTaken(db.rows, id)
  {
    hide Run, Inv, MetricOk, Updated, Blank, IdTaken;
    ReachableIsInv(cat, events);
    UpdatedKeepsInv(cat, Run(cat, EMPTY, events), actor, code, given, id);
  }

  // ----- the limit on rows -----

  /** 625 different codes. */
  function Numbered(i: nat): string
    requires i < 625
  {
    ['m', (65 + i / 25) as char, (65 + i % 25) as char]
  }

  lemma NumbersDiffer(i: nat, j: nat)
    requires i < 625 && j < 625 && Numbered(i) == Numbered(j)
    ensures i == j
  {
    var s, t := Numbered(i), Numbered(j);
    assert s[1] as int == 65 + i / 25 && s[2] as int == 65 + i % 25;
    assert t[1] as int == 65 + j / 25 && t[2] as int == 65 + j % 25;
  }

  const PLAIN := Definition("n", "d", "x", "f", "s", "p", "t")

  function Numbers(n: nat): set<string>
    requires n <= 625
  {
    set i | 0 <= i < n :: Numbered(i)
  }

  function Filling(n: nat): seq<(string, Event)>
    requires n <= 625
  {
    if n == 0 then []
    else Filling(n - 1) + [("admin", Add(Metric("", 0, Custom, false, Numbered(n - 1), PLAIN), Numbered(n - 1)))]
  }

  /** Every row is filed under its own code as its id. */
  ghost predicate SelfNamed(db: Db)
  {
    forall code :: code in db.rows ==> db.rows[code].m.id == code
  }

  lemma {:induction false} Filled(cat: Catalogue, n: nat)
    requires n <= LIMIT && forall i :: 0 <= i < LIMIT ==> Numbered(i) !in cat
    ensures var db := Run(cat, EMPTY, Filling(n)); db.rows.Keys == Numbers(n) && |db.rows| == n && SelfNamed(db)
  {
    hide Step, Inv, SelfNamed, Numbered, Numbers, Run, Filling;
    FillingStep(cat, n);
    if n == 0 {
      NothingNamed();
    } else {
      Filled(cat, n - 1);
      var db, code := Run(cat, EMPTY, Filling(n - 1)), Numbered(n - 1);
      NewNumber(n - 1);
      ReachableIsInv(cat, Filling(n - 1));
      NumberIsPlain(n - 1);
      OneMore(cat, db, code);
    }
  }

  lemma FillingStep(cat: Catalogue, n: nat)
    requires n <= LIMIT
    ensures n == 0 ==> Run(cat, EMPTY, Filling(n)) == EMPTY
    ensures n > 0 ==>
      var code := Numbered(n - 1);
      Run(cat, EMPTY, Filling(n))
      == Step(cat, Run(cat, EMPTY, Filling(n - 1)), "admin", Add(Metric("", 0, Custom, false, code, PLAIN), code))
  {
    hide Step, Numbered;
    if n > 0 {
      assert Filling(n)[..|Filling(n)| - 1] == Filling(n - 1);
    }
  }

  lemma NothingNamed()
    ensures SelfNamed(EMPTY) && Numbers(0) == {}
  {
  }

  lemma NewNumber(n: nat)
    requires n < 625
    ensures Numbered(n) !in Numbers(n) && Numbers(n + 1) == Numbers(n) + {Numbered(n)}
  {
    hide Numbered;
    forall i | 0 <= i < n
      ensures Numbered(i) != Numbered(n)
    {
      if Numbered(i) == Numbered(n) {
        NumbersDiffer(i, n);
      }
    }
  }

  lemma NumberIsPlain(n: nat)
    requires n < 625
    ensures MetricOk(Metric("", 0, Custom, false, Numbered(n), PLAIN)) && !Blank("admin")
  {
    assert !Space("admin"[0]);
    assert !Space("n"[0]) && !Space("d"[0]) && !Space("x"[0]) && !Space("f"[0]);
    assert !Space("s"[0]) && !Space("p"[0]) && !Space("t"[0]);
  }

  lemma OneMore(cat: Catalogue, db: Db, code: string)
    requires Inv(cat, db) && SelfNamed(db) && code !in db.rows && code !in cat && |db.rows| < LIMIT
    requires MetricOk(Metric("", 0, Custom, false, code, PLAIN)) && !Blank("admin")
    ensures var next := Step(cat, db, "admin", Add(Metric("", 0, Custom, false, code, PLAIN), code));
      && next.rows.Keys == db.rows.Keys + {code} && |next.rows| == |db.rows| + 1 && SelfNamed(next)
  {
    hide Inv, MetricOk, Blank, Derived;
    var row := Row(Metric("", 0, Custom, false, code, PLAIN), false, "");
    SavedNewKeepsInv(cat, db, row, "admin", Create, code);
    var next := SavedNew(cat, db, row, 0, "admin", Create, code).value;
    assert next.rows.Keys == db.rows.Keys + {code};
    assert |next.rows.Keys| == |db.rows.Keys| + 1;
  }

  /**
   * Concretely: 500 custom metrics are accepted, and then editing one published
   * metric adds row 501, after which the catalogue of the tenant cannot be listed.
   */
  lemma PublishedMetricsEscapeTheLimit(cat: Catalogue, code: string)
    requires code in cat && forall i :: 0 <= i < LIMIT ==> Numbered(i) !in cat
    requires CodeOk(code)
    ensures var db := Run(cat, EMPTY, Filling(LIMIT));
      var edit := Edit(code, Metric("", 1, Builtin, false, code, PLAIN), "other");
      var next := Step(cat, db, "admin", edit);
      && |db.rows| == LIMIT && Listing(cat, db.rows).Ok?
      && |next.rows| == LIMIT + 1 && Listing(cat, next.rows).Err?
  {
    hide Inv, Run, MetricOk, Blank, Updated, Numbered, CodeOk;
    Filled(cat, LIMIT);
    ReachableIsInv(cat, Filling(LIMIT));
    var db := Run(cat, EMPTY, Filling(LIMIT));
    var given := Metric("", 1, Builtin, false, code, PLAIN);
    PlainEdit(given);
    NumberIsPlain(0);
    NumbersAreShort(LIMIT);
    assert !IdTaken(db.rows, "other");
    UpdatedKeepsInv(cat, db, "admin", code, given, "other");
    UpdatedKeys(cat, db, "admin", code, given, "other");
    assert |Updated(cat, db, "admin", code, given, "other").value.rows.Keys| == |db.rows.Keys| + 1;
  }

  lemma PlainEdit(given: Metric)
    requires given.d == PLAIN && CodeOk(given.code)
    ensures MetricOk(given)
  {
    hide CodeOk;
    assert !Space("n"[0]) && !Space("d"[0]) && !Space("x"[0]) && !Space("f"[0]);
    assert !Space("s"[0]) && !Space("p"[0]) && !Space("t"[0]);
  }

  lemma NumbersAreShort(n: nat)
    requires n <= 625
    ensures forall code :: code in Numbers(n) ==> |code| == 3
  {
  }

  // ----- which changes break the limit -----

  lemma CreatedKeys(cat: Catalogue, db: Db, actor: string, given: Metric, id: string)
    requires Inv(cat, db)
    ensures var r := Created(cat, db, actor, given, id);
      r.Ok? ==>
        && given.code !in db.rows && given.code !in cat && |db.rows| < LIMIT
        && r.value.rows.Keys == db.rows.Keys + {given.code}
  {
    hide Inv, MetricOk, SavedNew, Blank, CanEnable, IdTaken;
    var m := if given.d.status == "" then given.(d := given.d.(status := UNCONFIRMED)) else given;
    var row := Row(Metric("", 0, Custom, false, m.code, m.d), false, "");
    if IdTaken(db.rows, id) {
      TakenIdFails(cat, db, row, 0, actor, Create, id);
    } else if m.code !in db.rows && m.code !in cat {
      SavedNewKeepsInv(cat, db, row, actor, Create, id);
    }
  }

  lemma UpdatedKeys(cat: Catalogue, db: Db, actor: string, code: string, given: Metric, id: string)
    requires Inv(cat, db)
    ensures var r := Updated(cat, db, actor, code, given, id);
      r.Ok? ==> r.value.rows.Keys == db.rows.Keys + {code} && (code in db.rows || code in cat)
  {
    hide Inv, MetricOk, Save, Blank, CanEnable, IdTaken, Load;
    LoadChangesNothing(cat, db, code);
    var loaded := Load(cat, db, code);
    if loaded.Ok? && given.version == loaded.value.row.m.version {
      var row := loaded.value.row;
      var m := Metric(row.m.id, given.version, row.m.origin, row.m.enabled, code, given.d);
      DerivedCanEnable(cat, m);
      SaveKeepsInv(cat, db, loaded.value, row.(m := Derived(cat, m)), actor, Update, id);
    }
  }

  lemma SwitchedKeys(cat: Catalogue, db: Db, actor: string, code: string, enabled: bool, version: nat, id: string)
    requires Inv(cat, db)
    ensures var r := Switched(cat, db, actor, code, enabled, version, id);
      r.Ok? ==> r.value.rows.Keys == db.rows.Keys + {code} && (code in db.rows || code in cat)
  {
    hide Inv, Save, Blank, CanEnable, IdTaken, Load;
    LoadChangesNothing(cat, db, code);
    var loaded := Load(cat, db, code);
    if loaded.Ok? && version == loaded.value.row.m.version && (enabled ==> CanEnable(cat, loaded.value.row.m)) {
      var row := loaded.value.row;
      EnabledIsNoCalculation(cat, row.m, enabled);
      var op := if enabled then Enable else Disable;
      SaveKeepsInv(cat, db, loaded.value, row.(m := row.m.(enabled := enabled)), actor, op, id);
    }
  }

  lemma RemovedKeys(cat: Catalogue, db: Db, actor: string, code: string, version: nat, id: string)
    requires Inv(cat, db)
    ensures var r := Removed(cat, db, actor, code, version, id); r.Ok? ==> r.value.rows.Keys == db.rows.Keys
  {
    hide Inv, Save, Blank, CanEnable, IdTaken, Load;
    LoadChangesNothing(cat, db, code);
    var loaded := Load(cat, db, code);
    if loaded.Ok? && version == loaded.value.row.m.version && loaded.value.row.m.origin.Custom? {
      var row := loaded.value.row;
      SaveKeepsInv(cat, db, loaded.value, row.(m := row.m.(enabled := false), deleted := true), actor, Delete, id);
      assert db.rows.Keys + {code} == db.rows.Keys;
    }
  }

  function CodesOf(metrics: seq<Metric>): set<string>
  {
    set i | 0 <= i < |metrics| :: metrics[i].code
  }

  lemma CodesGrow(metrics: seq<Metric>)
    requires metrics != []
    ensures CodesOf(metrics) == CodesOf(metrics[..|metrics| - 1]) + {metrics[|metrics| - 1].code}
  {
    var n := |metrics| - 1;
    assert forall i :: 0 <= i < n ==> metrics[..n][i] == metrics[i];
  }

  lemma SavedOneKeys(cat: Catalogue, db: Db, actor: string, m: Metric, id: string)
    requires Inv(cat, db)
    ensures var r := SavedOne(cat, db, actor, m, id);
      r.Ok? ==>
        && r.value.rows.Keys == db.rows.Keys + {m.code}
        && (m.code in db.rows || m.code in cat || |db.rows| < LIMIT)
  {
    hide Inv, Created, Updated;
    CreatedKeys(cat, db, actor, m, id);
    UpdatedKeys(cat, db, actor, m.code, m, id);
  }

  /** An accepted batch is an accepted batch of all but its last entry, and then that entry. */
  lemma BatchSplits(cat: Catalogue, db: Db, actor: string, metrics: seq<Metric>, ids: seq<string>)
    requires |ids| == |metrics| && metrics != [] && SavedAll(cat, db, actor, metrics, ids).Ok?
    ensures var n := |metrics| - 1;
      var before := SavedAll(cat, db, actor, metrics[..n], ids[..n]);
      before.Ok? && SavedAll(cat, db, actor, metrics, ids) == SavedOne(cat, before.value, actor, metrics[n], ids[n])
  {
    hide SavedOne;
  }

  lemma EmptyBatch(cat: Catalogue, db: Db, actor: string)
    ensures SavedAll(cat, db, actor, [], []) == Ok(db) && CodesOf([]) == {}
  {
  }

  /** An accepted batch adds a row for each of its codes without one. */
  lemma {:induction false} BatchKeys(cat: Catalogue, db: Db, actor: string, metrics: seq<Metric>, ids: seq<string>)
    requires Inv(cat, db) && |ids| == |metrics|
    ensures var r := SavedAll(cat, db, actor, metrics, ids); r.Ok? ==> r.value.rows.Keys == db.rows.Keys + CodesOf(metrics)
  {
    hide Inv, SavedOne, SavedAll, CodesOf;
    if metrics == [] {
      EmptyBatch(cat, db, actor);
    } else if SavedAll(cat, db, actor, metrics, ids).Ok? {
      var n := |metrics| - 1;
      BatchSplits(cat, db, actor, metrics, ids);
      BatchKeys(cat, db, actor, metrics[..n], ids[..n]);
      BatchKeepsInv(cat, db, actor, metrics[..n], ids[..n]);
      CodesGrow(metrics);
      SavedOneKeys(cat, SavedAll(cat, db, actor, metrics[..n], ids[..n]).value, actor, metrics[n], ids[n]);
    }
  }

  /** None of the codes is a published one without a row. */
  predicate NoPublished(cat: Catalogue, db: Db, codes: set<string>)
  {
    forall code :: code in codes ==> code in db.rows || code !in cat
  }

  /** Without published metrics among its new codes a batch keeps the limit. */
  lemma {:induction false} BatchWithinLimit(cat: Catalogue, db: Db, actor: string, metrics: seq<Metric>, ids: seq<string>)
    requires Inv(cat, db) && |ids| == |metrics| && |db.rows| <= LIMIT && NoPublished(cat, db, CodesOf(metrics))
    ensures var r := SavedAll(cat, db, actor, metrics, ids); r.Ok? ==> |r.value.rows| <= LIMIT
  {
    hide Inv, SavedOne, SavedAll, CodesOf;
    if metrics == [] {
      EmptyBatch(cat, db, actor);
    } else if SavedAll(cat, db, actor, metrics, ids).Ok? {
      var n := |metrics| - 1;
      BatchSplits(cat, db, actor, metrics, ids);
      CodesGrow(metrics);
      BatchWithinLimit(cat, db, actor, metrics[..n], ids[..n]);
      BatchKeys(cat, db, actor, metrics[..n], ids[..n]);
      BatchKeepsInv(cat, db, actor, metrics[..n], ids[..n]);
      var before := SavedAll(cat, db, actor, metrics[..n], ids[..n]).value;
      SavedOneKeys(cat, before, actor, metrics[n], ids[n]);
      KeysPlusOne(before.rows, SavedAll(cat, db, actor, metrics, ids).value.rows, metrics[n].code);
    }
  }

  /** What takes a tenant with at most 500 rows above them, if it is accepted. */
  predicate ExceedsLimit(db: Db, e: Event)
  {
    match e
    case Edit(code, _, _) => code !in db.rows && |db.rows| == LIMIT
    case Switch(code, _, _, _) => code !in db.rows && |db.rows| == LIMIT
    case Batch(metrics, _) => |db.rows| + |CodesOf(metrics) - db.rows.Keys| > LIMIT
    case _ => false
  }

  /** The number of rows after an accepted change. */
  lemma RowsAfter(cat: Catalogue, db: Db, actor: string, e: Event)
    requires Inv(cat, db) && |db.rows| <= LIMIT && Outcome(cat, db, actor, e).Ok? && !e.Batch?
    ensures |Step(cat, db, actor, e).rows| > LIMIT <==> ExceedsLimit(db, e)
  {
    hide Inv, Created, Updated, Switched, Removed;
    var next := Step(cat, db, actor, e);
    match e
    case Add(given, id) =>
      CreatedKeys(cat, db, actor, given, id);
      KeysPlusOne(db.rows, next.rows, given.code);
    case Edit(code, given, id) =>
      UpdatedKeys(cat, db, actor, code, given, id);
      KeysPlusOne(db.rows, next.rows, code);
    case Switch(code, enabled, version, id) =>
      SwitchedKeys(cat, db, actor, code, enabled, version, id);
      KeysPlusOne(db.rows, next.rows, code);
    case Remove(code, version, id) =>
      RemovedKeys(cat, db, actor, code, version, id);
      assert |next.rows| == |next.rows.Keys| == |db.rows.Keys| == |db.rows|;
    case Refer(references) =>
  }

  lemma SizeOfUnion(a: set<string>, b: set<string>)
    ensures |a + b| == |a| + |b - a|
  {
    assert a + b == a + (b - a);
  }

  lemma RowsAfterBatch(cat: Catalogue, db: Db, actor: string, metrics: seq<Metric>, ids: seq<string>)
    requires Inv(cat, db) && |db.rows| <= LIMIT && |ids| == |metrics| && SavedAll(cat, db, actor, metrics, ids).Ok?
    ensures var next := SavedAll(cat, db, actor, metrics, ids).value;
      && |next.rows| == |db.rows| + |CodesOf(metrics) - db.rows.Keys|
      && (|next.rows| > LIMIT ==> exists code :: code in CodesOf(metrics) && code !in db.rows && code in cat)
  {
    hide Inv, SavedAll, CodesOf;
    BatchKeys(cat, db, actor, metrics, ids);
    var next := SavedAll(cat, db, actor, metrics, ids).value;
    SizeOfUnion(db.rows.Keys, CodesOf(metrics));
    assert |next.rows| == |next.rows.Keys|;
    if NoPublished(cat, db, CodesOf(metrics)) {
      BatchWithinLimit(cat, db, actor, metrics, ids);
    }
  }

  lemma KeysPlusOne(before: map<string, Row>, after: map<string, Row>, code: string)
    requires after.Keys == before.Keys + {code}
    ensures |after| == |before| + if code in before then 0 else 1
  {
    assert |after| == |after.Keys| && |before| == |before.Keys|;
    if code in before {
      assert after.Keys == before.Keys;
    }
  }

  /**
   * From a reachable state within the limit, a change makes the dictionary
   * unlistable exactly when it is accepted and is an edit or switch of a
   * published metric without a row at 500 rows, or a batch whose codes without
   * a row take the total above 500; some of these are published then. Creating,
   * removing and referring never do.
   */
  lemma LimitIsBrokenExactlyBy(cat: Catalogue, events: seq<(string, Event)>, actor: string, e: Event)
    requires |Run(cat, EMPTY, events).rows| <= LIMIT
    ensures var db := Run(cat, EMPTY, events);
      && (Listing(cat, Step(cat, db, actor, e).rows).Err? <==> Outcome(cat, db, actor, e).Ok? && ExceedsLimit(db, e))
      && (Outcome(cat, db, actor, e).Ok? && e.Batch? && ExceedsLimit(db, e) ==>
            exists code :: code in CodesOf(e.metrics) && code !in db.rows && code in cat)
  {
    hide Run, Inv, Outcome, ExceedsLimit, CodesOf;
    ReachableIsInv(cat, events);
    var db := Run(cat, EMPTY, events);
    if Outcome(cat, db, actor, e).Ok? {
      if e.Batch? {
        BatchAccepted(cat, db, actor, e.metrics, e.ids);
        RowsAfterBatch(cat, db, actor, e.metrics, e.ids);
      } else {
        RowsAfter(cat, db, actor, e);
      }
    }
  }

  lemma BatchAccepted(cat: Catalogue, db: Db, actor: string, metrics: seq<Metric>, ids: seq<string>)
    requires Outcome(cat, db, actor, Batch(metrics, ids)).Ok?
    ensures |ids| == |metrics| && Outcome(cat, db, actor, Batch(metrics, ids)) == SavedAll(cat, db, actor, metrics, ids)
    ensures ExceedsLimit(db, Batch(metrics, ids)) <==> |db.rows| + |CodesOf(metrics) - db.rows.Keys| > LIMIT
  {
    hide SavedAll;
  }

  /** Once it cannot be listed it never can again, since no change removes a row. */
  lemma ListingNeverRecovers(cat: Catalogue, events: seq<(string, Event)>, more: seq<(string, Event)>)
    requires Listing(cat, Run(cat, EMPTY, events).rows).Err?
    ensures Listing(cat, Run(cat, Run(cat, EMPTY, events), more).rows).Err?
  {
    hide Run, Inv;
    NothingComesBack(cat, events, more);
    var before, after := Run(cat, EMPTY, events), Run(cat, Run(cat, EMPTY, events), more);
    SubsetSize(before.rows.Keys, after.rows.Keys);
    assert |before.rows| == |before.rows.Keys| && |after.rows| == |after.rows.Keys|;
  }
}
