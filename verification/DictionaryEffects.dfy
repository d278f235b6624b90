/** What each accepted change of the dictionary does to the row, its history and the list, in every reachable state. */
module DictionaryEffects {
  import opened Common
  import opened Dictionary
  import opened DictionaryRuns

  /** The one metric that may be enabled: confirmed, and calculated as published. */
  predicate MayBeEnabled(cat: Catalogue, code: string, d: Definition)
  {
    code == "2.1" && code in cat && d == cat[code].(name := d.name, status := "已确认")
  }

  /** The metric as it is before a change: its row, or the published one. */
  function Current(cat: Catalogue, db: Db, code: string): Metric
    requires code in db.rows || code in cat
  {
    if code in db.rows then db.rows[code].m
    else Metric("", 1, Builtin, MayBeEnabled(cat, code, cat[code]), code, cat[code])
  }

  predicate Known(cat: Catalogue, db: Db, code: string)
  {
    if code in db.rows then !db.rows[code].deleted else code in cat
  }

  /** One row becomes `after`, its history gains that version, and nothing that was there before moves. */
  predicate Takes(db: Db, next: Db, actor: string, op: Operation, after: Metric, deleted: bool)
  {
    var key := VersionKey(after.id, after.version);
    && next.references == db.references && next.rows == db.rows[after.code := Row(after, deleted, actor)]
    && key in next.versions && key !in db.versions && next.versions[key] == Version(after, op, actor)
    && forall k :: k in db.versions ==> k in next.versions && next.versions[k] == db.versions[k]
  }

  lemma CanEnableMeans(cat: Catalogue, m: Metric)
    requires m.origin.Builtin? <==> m.code in cat
    ensures CanEnable(cat, m) <==> MayBeEnabled(cat, m.code, m.d)
  {
  }

  lemma LoadIsCurrent(cat: Catalogue, db: Db, code: string)
    requires Inv(cat, db)
    ensures Load(cat, db, code).Ok? <==> Known(cat, db, code)
    ensures Known(cat, db, code) ==>
      && var who := if code in db.rows then db.rows[code].updatedBy else "";
      && var m := Current(cat, db, code);
      && Load(cat, db, code) == Ok(Loaded(db, Row(m, false, who), code in db.rows))
      && m.code == code && 1 <= m.version && (m.origin.Builtin? <==> code in cat)
      && (m.enabled ==> MayBeEnabled(cat, code, m.d))
      && (CanEnable(cat, m) <==> MayBeEnabled(cat, code, m.d))
  {
    hide Covered;
    if code in db.rows {
      assert RowOk(cat, code, db.rows[code]) && HistoryOk(db.rows[code], db.versions);
    }
  }

  lemma SaveTakes(cat: Catalogue, db: Db, row: Row, actor: string, op: Operation, id: string)
    requires Inv(cat, db) && Known(cat, db, row.m.code) && !op.Baseline? && !op.Create?
    requires row.m == Current(cat, db, row.m.code).(enabled := row.m.enabled, d := row.m.d)
    requires row.m.enabled ==> CanEnable(cat, row.m)
    requires row.deleted ==> row.m.origin.Custom? && !row.m.enabled
    ensures var found := row.m.code in db.rows;
      var r := Save(cat, db, found, row, row.m.version, actor, op, id);
      && (r.Ok? <==> found || !IdTaken(db.rows, id))
      && (r.Ok? ==>
            Takes(db, r.value, actor, op, row.m.(id := if found then row.m.id else id, version := row.m.version + 1), row.deleted))
  {
    hide Inv, CanEnable, IdTaken, Load, Save, MayBeEnabled, Derived, HistoryGains;
    var found := row.m.code in db.rows;
    LoadIsCurrent(cat, db, row.m.code);
    SaveKeepsInv(cat, db, Load(cat, db, row.m.code).value, row, actor, op, id);
    var r := Save(cat, db, found, row, row.m.version, actor, op, id);
    if r.Ok? {
      SaveMeans(cat, db, row, found, row.m.version, actor, op, id);
      var after := row.m.(id := if found then row.m.id else id, version := row.m.version + 1);
      NewBinding(cat, row.m, after);
      DerivedKeeps(cat, after);
      GainsMean(cat, db, r.value, row.m.code, !found && row.m.origin.Builtin? && row.m.code in cat, actor, op);
      assert r.value.rows == db.rows[row.m.code := r.value.rows[row.m.code]];
    }
  }

  lemma GainsMean(cat: Catalogue, before: Db, after: Db, code: string, based: bool, actor: string, op: Operation)
    requires code in after.rows && (based ==> code in cat) && HistoryGains(cat, before, after, code, based, actor, op)
    ensures var m := after.rows[code].m;
      var key := VersionKey(m.id, m.version);
      && key in after.versions && key !in before.versions && after.versions[key] == Version(Derived(cat, m), op, actor)
      && forall k :: k in before.versions ==> k in after.versions && after.versions[k] == before.versions[k]
  {
    hide Derived;
  }

  // ----- the list -----

  /** The list shows every live row as it is, every published metric without a row, and nothing else. */
  ghost predicate Lists(cat: Catalogue, db: Db, list: map<string, Metric>)
  {
    && (forall code :: code in list <==> Known(cat, db, code))
    && forall code :: code in list ==> (code in db.rows || code in cat) && list[code] == Current(cat, db, code)
  }

  lemma ListIs(cat: Catalogue, db: Db)
    requires Inv(cat, db)
    ensures Listing(cat, db.rows).Ok? <==> |db.rows| <= 500
    ensures Listing(cat, db.rows).Ok? ==> Lists(cat, db, Listing(cat, db.rows).value)
  {
    hide Inv, Listing, Known, Current;
    ListingEnds(cat, db.rows);
    if |db.rows| <= 500 {
      forall code
        ensures code in Listing(cat, db.rows).value <==> Known(cat, db, code)
        ensures Known(cat, db, code) ==> code in db.rows || code in cat
        ensures Known(cat, db, code) ==> Listing(cat, db.rows).value[code] == Current(cat, db, code)
      {
        ListedIs(cat, db, code);
      }
    }
  }

  lemma ListingEnds(cat: Catalogue, rows: map<string, Row>)
    ensures Listing(cat, rows).Ok? <==> |rows| <= 500
  {
    hide Derived, BuiltinMetric;
  }

  lemma ListedIs(cat: Catalogue, db: Db, code: string)
    requires Inv(cat, db) && |db.rows| <= 500
    ensures var list := Listing(cat, db.rows).value;
      && (code in list <==> Known(cat, db, code))
      && (code in list ==> (code in db.rows || code in cat) && list[code] == Current(cat, db, code))
  {
    hide Inv, Derived, BuiltinMetric, MayBeEnabled;
    ListedIsCurrent(cat, db, code);
  }

  lemma ListedIsCurrent(cat: Catalogue, db: Db, code: string)
    requires Inv(cat, db)
    ensures code in db.rows ==> Derived(cat, db.rows[code].m) == Current(cat, db, code)
    ensures code in cat && code !in db.rows ==> BuiltinMetric(cat, code) == Current(cat, db, code)
  {
    hide HistoryOk, Covered;
    if code in db.rows {
      assert RowOk(cat, code, db.rows[code]);
      DerivedKeeps(cat, db.rows[code].m);
    }
  }

  /** In every reachable state the list is exactly the live rows over the published catalogue. */
  lemma ListShowsTheRows(cat: Catalogue, events: seq<(string, Event)>)
    ensures var db := Run(cat, EMPTY, events);
      && (Listing(cat, db.rows).Ok? <==> |db.rows| <= 500)
      && (Listing(cat, db.rows).Ok? ==> Lists(cat, db, Listing(cat, db.rows).value))
  {
    hide Inv, Run, Lists, Listing;
    ReachableIsInv(cat, events);
    ListIs(cat, Run(cat, EMPTY, events));
  }

  /** If it can be listed at all, the changed metric is listed as it is now, or not at all once it is deleted. */
  predicate Shows(cat: Catalogue, db: Db, code: string)
    requires code in db.rows
  {
    Listing(cat, db.rows).Ok? ==>
      var list := Listing(cat, db.rows).value;
      if db.rows[code].deleted then code !in list else code in list && list[code] == db.rows[code].m
  }

  lemma ChangeShows(cat: Catalogue, db: Db, actor: string, e: Event, code: string)
    requires Inv(cat, db) && code in Step(cat, db, actor, e).rows
    ensures Shows(cat, Step(cat, db, actor, e), code)
  {
    hide Inv, Step, Listing;
    StepKeepsInv(cat, db, actor, e);
    ListIs(cat, Step(cat, db, actor, e));
  }

  // ----- updates -----

  /** The metric after an update: the given definition under the old identity, switched off if it may not be on. */
  function Edited(cat: Catalogue, db: Db, code: string, given: Metric, id: string): Metric
    requires code in db.rows || code in cat
  {
    var was := Current(cat, db, code);
    Metric(if code in db.rows then was.id else id, given.version + 1, was.origin,
           was.enabled && MayBeEnabled(cat, code, given.d), code, given.d)
  }

  lemma UpdateTakes(cat: Catalogue, db: Db, actor: string, code: string, given: Metric, id: string)
    requires Inv(cat, db)
    ensures var r := Updated(cat, db, actor, code, given, id);
      r.Ok? ==> Known(cat, db, code) && Takes(db, r.value, actor, Update, Edited(cat, db, code, given, id), false)
  {
    hide Inv, MetricOk, Save, Blank, CanEnable, IdTaken, Load, MayBeEnabled, Takes;
    LoadIsCurrent(cat, db, code);
    if Updated(cat, db, actor, code, given, id).Ok? {
      var m := Metric(Current(cat, db, code).id, given.version, Current(cat, db, code).origin,
                      Current(cat, db, code).enabled, code, given.d);
      var row := Load(cat, db, code).value.row;
      CanEnableMeans(cat, m);
      DerivedCanEnable(cat, m);
      SaveTakes(cat, db, row.(m := Derived(cat, m)), actor, Update, id);
    }
  }

  /**
   * After an accepted update the row, its newest snapshot and the list carry the
   * given definition, under the identity and origin the metric had, one version higher.
   */
  lemma UpdateTakesEffect(cat: Catalogue, events: seq<(string, Event)>, actor: string, code: string, given: Metric,
    id: string)
    requires Updated(cat, Run(cat, EMPTY, events), actor, code, given, id).Ok?
    ensures var db := Run(cat, EMPTY, events);
      var next := Step(cat, db, actor, Edit(code, given, id));
      && Known(cat, db, code) && Takes(db, next, actor, Update, Edited(cat, db, code, given, id), false)
      && code in next.rows && next.rows[code].m.d == given.d && Shows(cat, next, code)
  {
    hide Inv, Run, Updated, Shows;
    ReachableIsInv(cat, events);
    var db := Run(cat, EMPTY, events);
    UpdateTakes(cat, db, actor, code, given, id);
    ChangeShows(cat, db, actor, Edit(code, given, id), code);
  }

  // ----- creations -----

  /** The metric after a creation: the given definition, unconfirmed unless it says otherwise, never enabled. */
  function Born(given: Metric, id: string): Metric
  {
    Metric(id, 1, Custom, false, given.code, if given.d.status == "" then given.d.(status := "待确认") else given.d)
  }

  lemma CreateTakes(cat: Catalogue, db: Db, actor: string, given: Metric, id: string)
    requires Inv(cat, db)
    ensures var r := Created(cat, db, actor, given, id);
      && (r.Ok? <==>
            && !Blank(actor) && MetricOk(Born(given, id)) && given.code !in cat && given.code !in db.rows
            && |db.rows| < 500 && !IdTaken(db.rows, id))
      && (r.Ok? ==> Takes(db, r.value, actor, Create, Born(given, id), false))
  {
    hide Inv, MetricOk, SavedNew, Blank, IdTaken, Takes;
    var m := if given.d.status == "" then given.(d := given.d.(status := UNCONFIRMED)) else given;
    var row := Row(Metric("", 0, Custom, false, m.code, m.d), false, "");
    SameForm(m, Born(given, id));
    if IdTaken(db.rows, id) {
      TakenIdFails(cat, db, row, 0, actor, Create, id);
    } else if m.code !in db.rows && m.code !in cat {
      NewTakes(cat, db, row, actor, id);
    }
  }

  lemma NewTakes(cat: Catalogue, db: Db, row: Row, actor: string, id: string)
    requires Inv(cat, db) && row.m.code !in db.rows && row.m.code !in cat && !IdTaken(db.rows, id)
    requires !row.deleted && row.m.origin.Custom? && !row.m.enabled
    ensures var r := SavedNew(cat, db, row, 0, actor, Create, id);
      r.Ok? && Takes(db, r.value, actor, Create, row.m.(id := id, version := 1), false)
  {
    hide Inv, SavedNew, CanEnable, IdTaken, HistoryGains, Derived;
    SavedNewKeepsInv(cat, db, row, actor, Create, id);
    SavedNewMeans(cat, db, row, 0, actor, Create, id);
    var next := SavedNew(cat, db, row, 0, actor, Create, id).value;
    DerivedKeeps(cat, row.m.(id := id, version := 1));
    GainsMean(cat, db, next, row.m.code, false, actor, Create);
    assert next.rows == db.rows[row.m.code := next.rows[row.m.code]];
  }

  lemma SameForm(a: Metric, b: Metric)
    requires a.code == b.code && a.d == b.d
    ensures MetricOk(a) <==> MetricOk(b)
  {
  }

  /** A creation is accepted exactly for a well formed new code within the limit, and then has the given definition. */
  lemma CreationTakesEffect(cat: Catalogue, events: seq<(string, Event)>, actor: string, given: Metric, id: string)
    ensures var db := Run(cat, EMPTY, events);
      var next := Step(cat, db, actor, Add(given, id));
      if !Blank(actor) && MetricOk(Born(given, id)) && given.code !in cat && given.code !in db.rows
         && |db.rows| < 500 && !IdTaken(db.rows, id)
      then
        && Takes(db, next, actor, Create, Born(given, id), false)
        && given.code in next.rows && Shows(cat, next, given.code)
      else next == db
  {
    hide Inv, Run, Created, Shows, MetricOk, Blank, IdTaken;
    ReachableIsInv(cat, events);
    var db := Run(cat, EMPTY, events);
    CreateTakes(cat, db, actor, given, id);
    if Created(cat, db, actor, given, id).Ok? {
      ChangeShows(cat, db, actor, Add(given, id), given.code);
    }
  }

  // ----- switches -----

  /** A switch is accepted for the current version of a known metric, and to on only if it may be enabled. */
  predicate MaySwitch(cat: Catalogue, db: Db, actor: string, code: string, enabled: bool, version: nat, id: string)
  {
    && !Blank(actor) && Known(cat, db, code) && version == Current(cat, db, code).version
    && (enabled ==> MayBeEnabled(cat, code, Current(cat, db, code).d))
    && (code in db.rows || !IdTaken(db.rows, id))
  }

  function SwitchedTo(cat: Catalogue, db: Db, code: string, enabled: bool, id: string): Metric
    requires code in db.rows || code in cat
  {
    var was := Current(cat, db, code);
    was.(id := if code in db.rows then was.id else id, version := was.version + 1, enabled := enabled)
  }

  lemma SwitchTakes(cat: Catalogue, db: Db, actor: string, code: string, enabled: bool, version: nat, id: string)
    requires Inv(cat, db)
    ensures var r := Switched(cat, db, actor, code, enabled, version, id);
      && (r.Ok? <==> MaySwitch(cat, db, actor, code, enabled, version, id))
      && (r.Ok? ==>
            Takes(db, r.value, actor, if enabled then Enable else Disable, SwitchedTo(cat, db, code, enabled, id), false))
  {
    hide Inv, Save, Blank, CanEnable, IdTaken, Load, MayBeEnabled, Takes;
    LoadIsCurrent(cat, db, code);
    if Known(cat, db, code) && version == Current(cat, db, code).version
       && (enabled ==> MayBeEnabled(cat, code, Current(cat, db, code).d)) {
      var row := Load(cat, db, code).value.row;
      EnabledIsNoCalculation(cat, row.m, enabled);
      SaveTakes(cat, db, row.(m := row.m.(enabled := enabled)), actor, if enabled then Enable else Disable, id);
    }
  }

  /** A switch does what was asked, exactly when the metric is known in that version and may be enabled; else nothing changes. */
  lemma SwitchTakesEffect(cat: Catalogue, events: seq<(string, Event)>, actor: string, code: string, enabled: bool,
    version: nat, id: string)
    ensures var db := Run(cat, EMPTY, events);
      var next := Step(cat, db, actor, Switch(code, enabled, version, id));
      if MaySwitch(cat, db, actor, code, enabled, version, id)
      then
        && Takes(db, next, actor, if enabled then Enable else Disable, SwitchedTo(cat, db, code, enabled, id), false)
        && code in next.rows && next.rows[code].m.enabled == enabled && Shows(cat, next, code)
      else next == db
  {
    hide Inv, Run, Switched, Shows, MaySwitch;
    ReachableIsInv(cat, events);
    var db := Run(cat, EMPTY, events);
    SwitchTakes(cat, db, actor, code, enabled, version, id);
    if MaySwitch(cat, db, actor, code, enabled, version, id) {
      KnownSwitch(cat, db, actor, code, enabled, version, id);
      ChangeShows(cat, db, actor, Switch(code, enabled, version, id), code);
    }
  }

  lemma KnownSwitch(cat: Catalogue, db: Db, actor: string, code: string, enabled: bool, version: nat, id: string)
    requires Inv(cat, db) && MaySwitch(cat, db, actor, code, enabled, version, id)
    ensures Known(cat, db, code) && Current(cat, db, code).code == code
  {
    hide HistoryOk, Covered;
  }

  // ----- removals -----

  /** Only the current version of a custom metric that nothing refers to can be removed. */
  predicate MayRemove(cat: Catalogue, db: Db, actor: string, code: string, version: nat)
  {
    && !Blank(actor) && code !in cat && code in db.rows && !db.rows[code].deleted
    && version == db.rows[code].m.version && code !in db.references
  }

  lemma RemovalTakes(cat: Catalogue, db: Db, actor: string, code: string, version: nat, id: string)
    requires Inv(cat, db)
    ensures var r := Removed(cat, db, actor, code, version, id);
      && (r.Ok? <==> MayRemove(cat, db, actor, code, version))
      && (r.Ok? ==>
            Takes(db, r.value, actor, Delete, db.rows[code].m.(version := version + 1, enabled := false), true))
  {
    hide Inv, Save, Blank, CanEnable, IdTaken, Load, MayBeEnabled, Takes;
    LoadIsCurrent(cat, db, code);
    if Known(cat, db, code) && version == Current(cat, db, code).version && code !in cat {
      var row := Load(cat, db, code).value.row;
      SaveTakes(cat, db, row.(m := row.m.(enabled := false), deleted := true), actor, Delete, id);
    }
  }

  /** A removal leaves the deleted row behind and takes the code off the list; refused, it changes nothing. */
  lemma RemovalTakesEffect(cat: Catalogue, events: seq<(string, Event)>, actor: string, code: string, version: nat,
    id: string)
    ensures var db := Run(cat, EMPTY, events);
      var next := Step(cat, db, actor, Remove(code, version, id));
      if MayRemove(cat, db, actor, code, version)
      then
        && Takes(db, next, actor, Delete, db.rows[code].m.(version := version + 1, enabled := false), true)
        && code in next.rows && next.rows[code].deleted && Shows(cat, next, code)
      else next == db
  {
    hide Inv, Run, Removed, Shows, Blank;
    ReachableIsInv(cat, events);
    var db := Run(cat, EMPTY, events);
    RemovalTakes(cat, db, actor, code, version, id);
    if MayRemove(cat, db, actor, code, version) {
      RowsKnowTheirCode(cat, db);
      ChangeShows(cat, db, actor, Remove(code, version, id), code);
    }
  }

  // ----- batches -----

  /** What an accepted batch makes of one of its entries. */
  predicate Entered(after: Db, m: Metric)
  {
    && m.code in after.rows && !after.rows[m.code].deleted && after.rows[m.code].m.version == m.version + 1
    && after.rows[m.code].m.d == if m.version == 0 && m.d.status == "" then m.d.(status := "待确认") else m.d
  }

  lemma EntryTakes(cat: Catalogue, db: Db, actor: string, m: Metric, id: string)
    requires Inv(cat, db) && SavedOne(cat, db, actor, m, id).Ok?
    ensures var next := SavedOne(cat, db, actor, m, id).value;
      && Entered(next, m)
      && (forall code :: code != m.code ==>
            (code in next.rows <==> code in db.rows) && (code in db.rows ==> next.rows[code] == db.rows[code]))
  {
    hide Inv, Created, Updated, MayBeEnabled;
    CreateTakes(cat, db, actor, m, id);
    UpdateTakes(cat, db, actor, m.code, m, id);
  }

  lemma {:induction false} BatchTakes(cat: Catalogue, db: Db, actor: string, metrics: seq<Metric>, ids: seq<string>)
    requires Inv(cat, db) && |ids| == |metrics| && SavedAll(cat, db, actor, metrics, ids).Ok?
    ensures var next := SavedAll(cat, db, actor, metrics, ids).value;
      && (forall i :: 0 <= i < |metrics| ==> Entered(next, metrics[i]))
      && forall code :: code in db.rows && code !in CodesOf(metrics) ==> code in next.rows && next.rows[code] == db.rows[code]
  {
    hide Inv, SavedOne;
    if metrics != [] {
      var n := |metrics| - 1;
      BatchSplits(cat, db, actor, metrics, ids);
      BatchTakes(cat, db, actor, metrics[..n], ids[..n]);
      BatchKeepsInv(cat, db, actor, metrics[..n], ids[..n]);
      EntryTakes(cat, SavedAll(cat, db, actor, metrics[..n], ids[..n]).value, actor, metrics[n], ids[n]);
      CodesGrow(metrics);
      forall i | 0 <= i < n
        ensures metrics[i].code != metrics[n].code && metrics[i] == metrics[..n][i]
      {
      }
    }
  }

  /** After an accepted batch every entry stands as given, one version higher, and no other row moved. */
  lemma BatchTakesEffect(cat: Catalogue, events: seq<(string, Event)>, actor: string, metrics: seq<Metric>,
    ids: seq<string>)
    requires |ids| == |metrics| && Batched(cat, Run(cat, EMPTY, events), actor, metrics, ids).Ok?
    ensures var db := Run(cat, EMPTY, events);
      var next := Step(cat, db, actor, Batch(metrics, ids));
      && 1 <= |metrics| <= 500 && (forall i :: 0 <= i < |metrics| ==> Entered(next, metrics[i]))
      && forall code :: code in db.rows && code !in CodesOf(metrics) ==> code in next.rows && next.rows[code] == db.rows[code]
  {
    hide Inv, Run, SavedAll, CodesOf;
    ReachableIsInv(cat, events);
    BatchTakes(cat, Run(cat, EMPTY, events), actor, metrics, ids);
  }
}
