/**
 * The metric dictionary of one tenant: rows that override or extend the
 * published catalogue, and the history that every change leaves behind.
 */
module Dictionary {
  import opened Common

  datatype Origin = Builtin | Custom

  datatype Definition = Definition(
    name: string, dashboard: string, definition: string, formula: string, source: string, period: string, status: string)

  datatype Metric = Metric(id: string, version: nat, origin: Origin, enabled: bool, code: string, d: Definition)

  datatype Row = Row(m: Metric, deleted: bool, updatedBy: string)

  datatype Operation = Baseline | Create | Update | Enable | Disable | Delete

  datatype VersionKey = VersionKey(id: string, version: nat)

  datatype Version = Version(snapshot: Metric, op: Operation, actor: string)

  /** `references` are the codes that something else refers to. */
  datatype Db = Db(rows: map<string, Row>, versions: map<VersionKey, Version>, references: set<string>)

  /** The published catalogue: code to definition. */
  type Catalogue = map<string, Definition>

  const BOUND_CODE := "2.1"
  const CONFIRMED := "已确认"
  const UNCONFIRMED := "待确认"
  const LIMIT: nat := 500

  // ----- what is derived from a row -----

  predicate SameCalculation(a: Definition, b: Definition)
  {
    && a.dashboard == b.dashboard && a.definition == b.definition && a.formula == b.formula
    && a.source == b.source && a.period == b.period
  }

  predicate CanEnable(cat: Catalogue, m: Metric)
  {
    && m.origin.Builtin? && m.code == BOUND_CODE && m.d.status == CONFIRMED
    && BOUND_CODE in cat && SameCalculation(m.d, cat[BOUND_CODE])
  }

  function Derived(cat: Catalogue, m: Metric): Metric
  {
    m.(enabled := m.enabled && CanEnable(cat, m))
  }

  function BlockReason(cat: Catalogue, m: Metric): string
  {
    if CanEnable(cat, m) then ""
    else if m.origin.Builtin? && m.code == BOUND_CODE then
      (if m.d.status != CONFIRMED then "METRIC_STATUS_UNCONFIRMED" else "CALCULATION_DEFINITION_DRIFT")
    else "CALCULATION_BINDING_MISSING"
  }

  function BuiltinMetric(cat: Catalogue, code: string): Metric
    requires code in cat
  {
    var m := Metric("", 1, Builtin, false, code, cat[code]);
    m.(enabled := CanEnable(cat, m))
  }

  // ----- validation -----

  predicate CodeOk(code: string)
  {
    && 1 <= |code| <= 64 && AlphaNumeric(code[0])
    && forall i :: 1 <= i < |code| ==> AlphaNumeric(code[i]) || code[i] in "_.-"
  }

  predicate TextOk(s: string, limit: nat)
  {
    !Blank(s) && |s| <= limit
  }

  predicate MetricOk(m: Metric)
  {
    && CodeOk(m.code) && TextOk(m.d.name, 128) && TextOk(m.d.dashboard, 128) && TextOk(m.d.definition, 512)
    && TextOk(m.d.formula, 512) && TextOk(m.d.source, 255) && TextOk(m.d.period, 64) && TextOk(m.d.status, 32)
  }

  // ----- the transactions -----

  function WithSnapshot(cat: Catalogue, db: Db, m: Metric, op: Operation, actor: string): Result<Db>
  {
    var key := VersionKey(m.id, m.version);
    if key in db.versions then Err("METRIC_CODE_CONFLICT")
    else Ok(db.(versions := db.versions[key := Version(Derived(cat, m), op, actor)]))
  }

  datatype Loaded = Loaded(db: Db, row: Row, found: bool)

  /** The locked row of a code, or the published metric that no row overrides yet. */
  function Load(cat: Catalogue, db: Db, code: string): Result<Loaded>
  {
    if code in db.rows then
      var row := db.rows[code];
      if row.deleted then Err("METRIC_NOT_FOUND")
      else if VersionKey(row.m.id, row.m.version) in db.versions then Ok(Loaded(db, row, true))
      else Ok(Loaded(db.(versions := db.versions[
        VersionKey(row.m.id, row.m.version) := Version(Derived(cat, row.m), Baseline, row.updatedBy)]), row, true))
    else if code in cat then Ok(Loaded(db, Row(BuiltinMetric(cat, code), false, ""), false))
    else Err("METRIC_NOT_FOUND")
  }

  /** An update of the row in its expected version, with the new version in its history. */
  function SavedOver(cat: Catalogue, db: Db, row: Row, version: nat, actor: string, op: Operation): Result<Db>
  {
    var next := row.(m := row.m.(version := version + 1), updatedBy := actor);
    if row.m.code !in db.rows || db.rows[row.m.code].m.id != row.m.id || db.rows[row.m.code].m.version != version
       || db.rows[row.m.code].deleted then Err("METRIC_VERSION_CONFLICT")
    else WithSnapshot(cat, db.(rows := db.rows[row.m.code := next]), next.m, op, actor)
  }

  predicate IdTaken(rows: map<string, Row>, id: string)
  {
    exists code :: code in rows && rows[code].m.id == id
  }

  /** A new row under a new id; a row for a published metric starts its history with the published version. */
  function SavedNew(cat: Catalogue, db: Db, row: Row, version: nat, actor: string, op: Operation,
    id: string): Result<Db>
  {
    var based := if row.m.origin.Builtin? && row.m.code in cat
      then WithSnapshot(cat, db, BuiltinMetric(cat, row.m.code).(id := id), Baseline, actor) else Ok(db);
    if based.Err? then based
    else
      var next := row.(m := row.m.(id := id, version := version + 1), updatedBy := actor);
      if row.m.code in db.rows || IdTaken(db.rows, id) then Err("METRIC_CODE_CONFLICT")
      else WithSnapshot(cat, based.value.(rows := db.rows[row.m.code := next]), next.m, op, actor)
  }

  function Save(cat: Catalogue, db: Db, found: bool, row: Row, version: nat, actor: string, op: Operation,
    id: string): Result<Db>
  {
    if found then SavedOver(cat, db, row, version, actor, op) else SavedNew(cat, db, row, version, actor, op, id)
  }

  /** What a save is to a caller: one row is one version higher, and the history gains exactly what that takes. */
  predicate SavedAs(cat: Catalogue, before: Db, after: Db, row: Row, found: bool, version: nat, actor: string,
    op: Operation, id: string)
  {
    var code := row.m.code;
    && after.references == before.references && after.rows.Keys == before.rows.Keys + {code}
    && (if found then
          && code in before.rows && !before.rows[code].deleted
          && before.rows[code].m.version == version && before.rows[code].m.id == row.m.id
        else
          code !in before.rows && !IdTaken(before.rows, id))
    && after.rows[code] == Row(
      row.m.(id := if found then row.m.id else id, version := version + 1), row.deleted, actor)
    && (forall c :: c in before.rows && c != code ==> after.rows[c] == before.rows[c])
    && HistoryGains(cat, before, after, code, !found && row.m.origin.Builtin? && code in cat, actor, op)
  }

  /** The new version of a row, and the published one before it if the row is the first for a published metric. */
  predicate HistoryGains(cat: Catalogue, before: Db, after: Db, code: string, based: bool, actor: string, op: Operation)
    requires code in after.rows && (based ==> code in cat)
  {
    var m := after.rows[code].m;
    var key, first := VersionKey(m.id, m.version), VersionKey(m.id, 1);
    && after.versions.Keys == before.versions.Keys + {key} + (if based then {first} else {})
    && key !in before.versions && after.versions[key] == Version(Derived(cat, m), op, actor)
    && (based ==>
          && first !in before.versions && first != key && after.versions[first].op.Baseline?
          && after.versions[first].snapshot.version == 1 && after.versions[first].snapshot.d == cat[code])
    && forall k :: k in before.versions ==> after.versions[k] == before.versions[k]
  }

  lemma SaveMeans(cat: Catalogue, db: Db, row: Row, found: bool, version: nat, actor: string, op: Operation, id: string)
    ensures var r := Save(cat, db, found, row, version, actor, op, id);
      r.Ok? ==> SavedAs(cat, db, r.value, row, found, version, actor, op, id)
  {
    hide SavedOver, SavedNew, SavedAs;
    if found {
      SavedOverMeans(cat, db, row, version, actor, op, id);
    } else {
      SavedNewMeans(cat, db, row, version, actor, op, id);
    }
  }

  lemma SavedOverMeans(cat: Catalogue, db: Db, row: Row, version: nat, actor: string, op: Operation, id: string)
    ensures var r := SavedOver(cat, db, row, version, actor, op);
      r.Ok? ==> SavedAs(cat, db, r.value, row, true, version, actor, op, id)
  {
    hide IdTaken, Derived;
  }

  lemma SavedNewMeans(cat: Catalogue, db: Db, row: Row, version: nat, actor: string, op: Operation, id: string)
    ensures var r := SavedNew(cat, db, row, version, actor, op, id);
      r.Ok? ==> SavedAs(cat, db, r.value, row, false, version, actor, op, id)
  {
    hide IdTaken, Derived, BuiltinMetric;
    if row.m.code in cat {
      BaselineSnapshot(cat, row.m.code, id);
    }
  }

  lemma BaselineSnapshot(cat: Catalogue, code: string, id: string)
    requires code in cat
    ensures var m := BuiltinMetric(cat, code).(id := id);
      && m.version == 1 && m.id == id
      && Derived(cat, m).version == 1 && Derived(cat, m).d == cat[code]
  {
  }

  function Created(cat: Catalogue, db: Db, actor: string, given: Metric, id: string): Result<Db>
  {
    var m := if given.d.status == "" then given.(d := given.d.(status := UNCONFIRMED)) else given;
    if Blank(actor) || !MetricOk(m) then Err("METRIC_VALIDATION_FAILED")
    else if m.code in cat || m.code in db.rows then Err("METRIC_CODE_CONFLICT")
    else if |db.rows| >= LIMIT then Err("METRIC_LIMIT_EXCEEDED")
    else SavedNew(cat, db, Row(Metric("", 0, Custom, false, m.code, m.d), false, ""), 0, actor, Create, id)
  }

  function Updated(cat: Catalogue, db: Db, actor: string, code: string, given: Metric, id: string): Result<Db>
  {
    var m := given.(code := code);
    if Blank(actor) || (given.code != "" && given.code != code) || !MetricOk(m) then Err("METRIC_VALIDATION_FAILED")
    else
      var loaded := Load(cat, db, code);
      if loaded.Err? then Err(loaded.error)
      else
        var row := loaded.value.row;
        if m.version == 0 || m.version != row.m.version then Err("METRIC_VERSION_CONFLICT")
        else
          var merged := Derived(cat, Metric(row.m.id, m.version, row.m.origin, row.m.enabled, code, m.d));
          Save(cat, loaded.value.db, loaded.value.found, row.(m := merged), m.version, actor, Update, id)
  }

  function Switched(cat: Catalogue, db: Db, actor: string, code: string, enabled: bool, version: nat,
    id: string): Result<Db>
  {
    if Blank(actor) then Err("METRIC_VALIDATION_FAILED")
    else
      var loaded := Load(cat, db, code);
      if loaded.Err? then Err(loaded.error)
      else
        var row := loaded.value.row;
        if version == 0 || version != row.m.version then Err("METRIC_VERSION_CONFLICT")
        else if enabled && !CanEnable(cat, row.m) then Err("CALCULATION_BINDING_REQUIRED")
        else
          Save(cat, loaded.value.db, loaded.value.found, row.(m := row.m.(enabled := enabled)), version, actor,
               if enabled then Enable else Disable, id)
  }

  function Removed(cat: Catalogue, db: Db, actor: string, code: string, version: nat, id: string): Result<Db>
  {
    if Blank(actor) then Err("METRIC_VALIDATION_FAILED")
    else
      var loaded := Load(cat, db, code);
      if loaded.Err? then Err(loaded.error)
      else
        var row := loaded.value.row;
        if row.m.origin.Builtin? then Err("METRIC_BUILTIN_PROTECTED")
        else if version == 0 || version != row.m.version then Err("METRIC_VERSION_CONFLICT")
        else if code in db.references then Err("METRIC_REFERENCED")
        else
          Save(cat, loaded.value.db, loaded.value.found, row.(m := row.m.(enabled := false), deleted := true), version,
               actor, Delete, id)
  }

  /** One entry of a batch: created when it carries no version, updated otherwise. */
  function SavedOne(cat: Catalogue, db: Db, actor: string, m: Metric, id: string): Result<Db>
  {
    if m.version == 0 then Created(cat, db, actor, m, id) else Updated(cat, db, actor, m.code, m, id)
  }

  function SavedAll(cat: Catalogue, db: Db, actor: string, metrics: seq<Metric>, ids: seq<string>): Result<Db>
    requires |ids| == |metrics|
  {
    if metrics == [] then Ok(db)
    else
      var n := |metrics| - 1;
      var before := SavedAll(cat, db, actor, metrics[..n], ids[..n]);
      if before.Err? then before
      else if exists i :: 0 <= i < n && metrics[i].code == metrics[n].code then Err("METRIC_VALIDATION_FAILED")
      else SavedOne(cat, before.value, actor, metrics[n], ids[n])
  }

  function Batched(cat: Catalogue, db: Db, actor: string, metrics: seq<Metric>, ids: seq<string>): Result<Db>
    requires |ids| == |metrics|
  {
    if metrics == [] || |metrics| > LIMIT then Err("METRIC_VALIDATION_FAILED") else SavedAll(cat, db, actor, metrics, ids)
  }

  /** A failed transaction leaves the tables as they were. */
  function Committed(db: Db, r: Result<Db>): Db
  {
    if r.Ok? then r.value else db
  }

  // ----- the tables as requests change them -----

  class CatalogService {
    const cat: Catalogue
    var rows: map<string, Row>
    var versions: map<VersionKey, Version>
    var references: set<string>

    ghost function View(): Db
      reads this
    {
      Db(rows, versions, references)
    }

    method Snapshot(m: Metric, actor: string, op: Operation) returns (error: string)
      modifies this`versions
      ensures var r := WithSnapshot(cat, old(View()), m, op, actor); error == "" <==> r.Ok?
      ensures error == "" ==> Ok(View()) == WithSnapshot(cat, old(View()), m, op, actor)
    {
      var key := VersionKey(m.id, m.version);
      if key in versions {
        return "METRIC_CODE_CONFLICT";
      }
      versions := versions[key := Version(Derived(cat, m), op, actor)];
      return "";
    }

    method LoadRow(code: string) returns (error: string, row: Row, found: bool)
      modifies this`versions
      ensures error == "" <==> if code in rows then !rows[code].deleted else code in cat
      ensures error == "" ==> found == (code in rows)
      ensures error == "" ==> row == if found then rows[code] else Row(BuiltinMetric(cat, code), false, "")
      ensures forall k :: k in old(versions) ==> k in versions && versions[k] == old(versions)[k]
      ensures error == "" && found ==> VersionKey(row.m.id, row.m.version) in versions
      ensures forall k :: k in versions && k !in old(versions) ==>
        && error == "" && found && k == VersionKey(row.m.id, row.m.version)
        && versions[k] == Version(Derived(cat, row.m), Baseline, row.updatedBy)
      ensures error == "" <==> Load(cat, old(View()), code).Ok?
      ensures error == "" ==> Ok(Loaded(View(), row, found)) == Load(cat, old(View()), code)
    {
      found := false;
      row := Row(Metric("", 0, Custom, false, code, Definition("", "", "", "", "", "", "")), false, "");
      if code in rows {
        row := rows[code];
        if row.deleted {
          return "METRIC_NOT_FOUND", row, false;
        }
        if VersionKey(row.m.id, row.m.version) !in versions {
          error := Snapshot(row.m, row.updatedBy, Baseline);
        }
        return "", row, true;
      }
      if code in cat {
        return "", Row(BuiltinMetric(cat, code), false, ""), false;
      }
      return "METRIC_NOT_FOUND", row, false;
    }

    method SaveOver(row: Row, version: nat, actor: string, op: Operation) returns (error: string)
      modifies this`rows, this`versions
      ensures error == "" <==> SavedOver(cat, old(View()), row, version, actor, op).Ok?
      ensures error == "" ==> Ok(View()) == SavedOver(cat, old(View()), row, version, actor, op)
    {
      hide Derived;
      if row.m.code !in rows || rows[row.m.code].m.id != row.m.id || rows[row.m.code].m.version != version
         || rows[row.m.code].deleted {
        return "METRIC_VERSION_CONFLICT";
      }
      var next := row.(m := row.m.(version := version + 1), updatedBy := actor);
      rows := rows[row.m.code := next];
      error := Snapshot(next.m, actor, op);
    }

    method SaveNew(row: Row, version: nat, actor: string, op: Operation, id: string) returns (error: string)
      modifies this`rows, this`versions
      ensures error == "" <==> SavedNew(cat, old(View()), row, version, actor, op, id).Ok?
      ensures error == "" ==> Ok(View()) == SavedNew(cat, old(View()), row, version, actor, op, id)
    {
      hide Derived, BuiltinMetric, IdTaken;
      if row.m.origin.Builtin? && row.m.code in cat {
        error := Snapshot(BuiltinMetric(cat, row.m.code).(id := id), actor, Baseline);
        if error != "" {
          return;
        }
      }
      if row.m.code in rows || IdTaken(rows, id) {
        return "METRIC_CODE_CONFLICT";
      }
      var next := row.(m := row.m.(id := id, version := version + 1), updatedBy := actor);
      rows := rows[row.m.code := next];
      error := Snapshot(next.m, actor, op);
    }

    /** On success the row is one version higher, and the history gains exactly what that takes. */
    method SaveRow(row: Row, found: bool, version: nat, actor: string, op: Operation, id: string)
      returns (error: string)
      modifies this`rows, this`versions
      ensures error == "" ==> SavedAs(cat, old(View()), View(), row, found, version, actor, op, id)
      ensures error == "" <==> Save(cat, old(View()), found, row, version, actor, op, id).Ok?
      ensures error == "" ==> Ok(View()) == Save(cat, old(View()), found, row, version, actor, op, id)
    {
      hide SavedOver, SavedNew, SavedAs;
      SaveMeans(cat, View(), row, found, version, actor, op, id);
      if found {
        error := SaveOver(row, version, actor, op);
      } else {
        error := SaveNew(row, version, actor, op, id);
      }
    }

    /** Creates one custom metric inside a transaction of its caller. */
    method CreateIn(actor: string, given: Metric, id: string) returns (error: string)
      modifies this`rows, this`versions
      ensures error == "" <==> Created(cat, old(View()), actor, given, id).Ok?
      ensures error == "" ==> Ok(View()) == Created(cat, old(View()), actor, given, id)
    {
      hide MetricOk, SavedOver, SavedNew, Derived, Blank;
      if Blank(actor) {
        return "METRIC_VALIDATION_FAILED";
      }
      var m := given;
      if m.d.status == "" {
        m := m.(d := m.d.(status := UNCONFIRMED));
      }
      if !MetricOk(m) {
        return "METRIC_VALIDATION_FAILED";
      }
      if m.code in cat || m.code in rows {
        return "METRIC_CODE_CONFLICT";
      }
      if |rows| >= LIMIT {
        return "METRIC_LIMIT_EXCEEDED";
      }
      error := SaveRow(Row(Metric("", 0, Custom, false, m.code, m.d), false, ""), false, 0, actor, Create, id);
    }

    /** Updates one metric inside a transaction of its caller. */
    method UpdateIn(actor: string, code: string, given: Metric, id: string) returns (error: string)
      modifies this`rows, this`versions
      ensures error == "" <==> Updated(cat, old(View()), actor, code, given, id).Ok?
      ensures error == "" ==> Ok(View()) == Updated(cat, old(View()), actor, code, given, id)
    {
      hide MetricOk, Load, Save, Blank;
      if Blank(actor) {
        return "METRIC_VALIDATION_FAILED";
      }
      if given.code != "" && given.code != code {
        return "METRIC_VALIDATION_FAILED";
      }
      var m := given.(code := code);
      if !MetricOk(m) {
        return "METRIC_VALIDATION_FAILED";
      }
      var row, found;
      error, row, found := LoadRow(code);
      if error != "" {
        return;
      }
      if m.version == 0 || m.version != row.m.version {
        return "METRIC_VERSION_CONFLICT";
      }
      m := Derived(cat, m.(id := row.m.id, origin := row.m.origin, enabled := row.m.enabled));
      error := SaveRow(row.(m := m), found, m.version, actor, Update, id);
    }

    method CreateMetric(actor: string, given: Metric, id: string) returns (error: string)
      modifies this`rows, this`versions
      ensures error == "" <==> Created(cat, old(View()), actor, given, id).Ok?
      ensures View() == Committed(old(View()), Created(cat, old(View()), actor, given, id))
    {
      hide Created;
      var saved, kept := rows, versions;
      error := CreateIn(actor, given, id);
      if error != "" {
        rows, versions := saved, kept;
      }
    }

    method UpdateMetric(actor: string, code: string, given: Metric, id: string) returns (error: string)
      modifies this`rows, this`versions
      ensures error == "" <==> Updated(cat, old(View()), actor, code, given, id).Ok?
      ensures View() == Committed(old(View()), Updated(cat, old(View()), actor, code, given, id))
    {
      hide Updated;
      var saved, kept := rows, versions;
      error := UpdateIn(actor, code, given, id);
      if error != "" {
        rows, versions := saved, kept;
      }
    }

    method SetEnabled(actor: string, code: string, enabled: bool, version: nat, id: string) returns (error: string)
      modifies this`rows, this`versions
      ensures error == "" <==> Switched(cat, old(View()), actor, code, enabled, version, id).Ok?
      ensures View() == Committed(old(View()), Switched(cat, old(View()), actor, code, enabled, version, id))
    {
      hide Load, Save, Blank;
      if Blank(actor) {
        return "METRIC_VALIDATION_FAILED";
      }
      var saved, kept := rows, versions;
      var row, found;
      error, row, found := LoadRow(code);
      if error != "" {
        rows, versions := saved, kept;
        return;
      }
      if version == 0 || version != row.m.version {
        rows, versions := saved, kept;
        return "METRIC_VERSION_CONFLICT";
      }
      if enabled && !CanEnable(cat, row.m) {
        rows, versions := saved, kept;
        return "CALCULATION_BINDING_REQUIRED";
      }
      error := SaveRow(row.(m := row.m.(enabled := enabled)), found, version, actor, if enabled then Enable else Disable, id);
      if error != "" {
        rows, versions := saved, kept;
      }
    }

    method DeleteMetric(actor: string, code: string, version: nat, id: string) returns (error: string)
      modifies this`rows, this`versions
      ensures error == "" <==> Removed(cat, old(View()), actor, code, version, id).Ok?
      ensures View() == Committed(old(View()), Removed(cat, old(View()), actor, code, version, id))
    {
      hide Load, Save, Blank;
      if Blank(actor) {
        return "METRIC_VALIDATION_FAILED";
      }
      var saved, kept := rows, versions;
      var row, found;
      error, row, found := LoadRow(code);
      if error == "" && row.m.origin.Builtin? {
        error := "METRIC_BUILTIN_PROTECTED";
      } else if error == "" && (version == 0 || version != row.m.version) {
        error := "METRIC_VERSION_CONFLICT";
      } else if error == "" && code in references {
        error := "METRIC_REFERENCED";
      } else if error == "" {
        error := SaveRow(row.(m := row.m.(enabled := false), deleted := true), found, version, actor, Delete, id);
      }
      if error != "" {
        rows, versions := saved, kept;
      }
    }

    /** Overlays the rows, in any order, on the published catalogue. */
    method ListForTenant() returns (r: Result<map<string, Metric>>)
      ensures r == Listing(cat, rows)
    {
      hide Derived, BuiltinMetric;
      if |rows| > LIMIT {
        return Err("METRIC_LIMIT_EXCEEDED");
      }
      var values := map code | code in cat :: BuiltinMetric(cat, code);
      var rest := rows.Keys;
      while rest != {}
        invariant rest <= rows.Keys
        invariant forall code :: code in values <==>
          (code in rows && code !in rest && !rows[code].deleted) || (code in cat && (code !in rows || code in rest))
        invariant forall code :: code in values ==>
          values[code] == if code in rows && code !in rest then Derived(cat, rows[code].m) else BuiltinMetric(cat, code)
        decreases rest
      {
        var code :| code in rest;
        rest := rest - {code};
        if rows[code].deleted {
          values := values - {code};
        } else {
          values := values[code := Derived(cat, rows[code].m)];
        }
      }
      assert values == Listing(cat, rows).value;
      return Ok(values);
    }

    /** All entries of a batch or none of them. */
    method SaveTenantMetrics(actor: string, metrics: seq<Metric>, ids: seq<string>) returns (error: string)
      requires |ids| == |metrics|
      modifies this`rows, this`versions
      ensures error == "" <==> Batched(cat, old(View()), actor, metrics, ids).Ok?
      ensures View() == Committed(old(View()), Batched(cat, old(View()), actor, metrics, ids))
    {
      hide Created, Updated;
      if |metrics| == 0 || |metrics| > LIMIT {
        return "METRIC_VALIDATION_FAILED";
      }
      var saved, kept := rows, versions;
      var seen: set<string> := {};
      error := "";
      for i := 0 to |metrics|
        invariant error == "" && seen == set k | 0 <= k < i :: metrics[k].code
        invariant Ok(View()) == SavedAll(cat, old(View()), actor, metrics[..i], ids[..i])
      {
        var m := metrics[i];
        assert m.code in seen <==> exists k :: 0 <= k < i && metrics[k].code == m.code;
        assert metrics[..i + 1][..i] == metrics[..i] && ids[..i + 1][..i] == ids[..i];
        if m.code in seen {
          error := "METRIC_VALIDATION_FAILED";
        } else if m.version == 0 {
          error := CreateIn(actor, m, ids[i]);
        } else {
          error := UpdateIn(actor, m.code, m, ids[i]);
        }
        if error != "" {
          OneFailureFailsAll(cat, old(View()), actor, metrics, ids, i + 1);
          rows, versions := saved, kept;
          return;
        }
        seen := seen + {m.code};
      }
      assert metrics[..|metrics|] == metrics && ids[..|ids|] == ids;
    }
  }

  /** The live metrics by code; a tenant with more rows than the limit gets none. */
  function Listing(cat: Catalogue, rows: map<string, Row>): Result<map<string, Metric>>
  {
    if |rows| > LIMIT then Err("METRIC_LIMIT_EXCEEDED")
    else Ok(map code | code in cat.Keys + rows.Keys && (code in rows ==> !rows[code].deleted) ::
      if code in rows then Derived(cat, rows[code].m) else BuiltinMetric(cat, code))
  }

  lemma {:induction false} OneFailureFailsAll(cat: Catalogue, db: Db, actor: string, metrics: seq<Metric>,
    ids: seq<string>, i: nat)
    requires |ids| == |metrics| && i <= |metrics|
    requires SavedAll(cat, db, actor, metrics[..i], ids[..i]).Err?
    ensures SavedAll(cat, db, actor, metrics, ids).Err?
    decreases |metrics|
  {
    hide SavedOne;
    if i < |metrics| {
      var n := |metrics| - 1;
      assert metrics[..n][..i] == metrics[..i] && ids[..n][..i] == ids[..i];
      OneFailureFailsAll(cat, db, actor, metrics[..n], ids[..n], i);
    } else {
      assert metrics[..i] == metrics && ids[..i] == ids;
    }
  }
}
