/**
 * The staged project projection of one tenant: the state row with its run fence,
 * the staging table, the visible table, and the transactions on them.
 */
module Projection {
  import opened Common
  import opened Stream

  const MAX_GENERATION: nat := 0xFFFF_FFFF_FFFF_FFFF
  const RECLAIM_BATCH: nat := 200
  const RECLAIM_ROUNDS: nat := 250

  datatype Status = Unknown | Running | Success | Failed

  datatype State = State(
    run: string, generation: nat, status: Status, lastError: string,
    startedAt: Option<int>, finishedAt: Option<int>, lastSuccessAt: Option<int>,
    publishedRun: string, publishedSnapshot: string, publishedSourceSnapshotAt: Option<Stamp>,
    publishedSourceUpdatedAt: Option<Stamp>, publishedTotal: int, publishedChecksum: string)

  const SEED := State("", 0, Unknown, "", None, None, None, "", "", None, None, 0, "")

  datatype Attempt = Attempt(tenant: string, run: string, generation: nat)

  /** The key of a staged row: the run that staged it and the project. */
  datatype Key = Key(run: string, id: string)

  datatype Tables = Tables(state: Option<State>, stage: map<Key, ProjectRow>, dim: map<string, ProjectRow>)

  // ----- what the queries compute -----

  function RunRows(stage: map<Key, ProjectRow>, run: string): map<string, ProjectRow>
  {
    map id | id in (set k | k in stage && k.run == run :: k.id) :: stage[Key(run, id)]
  }

  function OtherKeys(stage: map<Key, ProjectRow>, run: string): set<Key>
  {
    set k | k in stage && k.run != run
  }

  function Staged(run: string, rows: seq<ProjectRow>): map<Key, ProjectRow>
  {
    if rows == [] then map[]
    else
      var last := rows[|rows| - 1];
      Staged(run, rows[..|rows| - 1])[Key(run, last.id) := last]
  }

  function ById(rows: seq<ProjectRow>): map<string, ProjectRow>
  {
    if rows == [] then map[] else ById(rows[..|rows| - 1])[rows[|rows| - 1].id := rows[|rows| - 1]]
  }

  ghost function SumItems(rows: map<string, ProjectRow>): int
    decreases |rows|
  {
    if rows == map[] then 0
    else
      var id :| id in rows;
      rows[id].serviceItems + SumItems(rows - {id})
  }

  // ----- the transactions: the tables they leave, or None when they fail -----

  /** The second fence: only the current generation's running attempt may write. */
  predicate Holds(state: Option<State>, tenant: string, a: Attempt)
  {
    && a.tenant == tenant && a.run != "" && a.generation != 0
    && state.Some?
    && state.value.run == a.run && state.value.generation == a.generation && state.value.status.Running?
  }

  function Begun(db: Tables, tenant: string, run: string, now: int): Option<(Tables, Attempt)>
  {
    var state := if db.state.Some? then db.state.value else SEED;
    if !ProjectIdentifier(tenant, 26) || state.generation >= MAX_GENERATION then None
    else Some((
      db.(state := Some(state.(run := run, generation := state.generation + 1, status := Running, lastError := "",
                               startedAt := Some(now), finishedAt := None))),
      Attempt(tenant, run, state.generation + 1)))
  }

  /** A choice of at most 200 rows of other runs, all of them when there are no more. */
  predicate IsReclaimBatch(stage: map<Key, ProjectRow>, run: string, keys: set<Key>)
  {
    var others := OtherKeys(stage, run);
    keys <= others && |keys| == if |others| <= RECLAIM_BATCH then |others| else RECLAIM_BATCH
  }

  function Reclaimed(db: Tables, tenant: string, a: Attempt, keys: set<Key>): Option<Tables>
  {
    if !Holds(db.state, tenant, a) then None else Some(db.(stage := db.stage - keys))
  }

  predicate BatchOk(tenant: string, rows: seq<ProjectRow>)
  {
    && |rows| <= BATCH
    && (forall i :: 0 <= i < |rows| ==> ValidProjectRow(rows[i]) && rows[i].tenant == tenant)
    && AscendingIds(rows)
  }

  ghost predicate StageTotalsOk(rows: map<string, ProjectRow>)
  {
    && |rows| <= MAX_PROJECTS && SumItems(rows) <= MAX_SERVICE_ITEMS
    && |(set id | id in rows :: rows[id].snapshot)| == 1
  }

  ghost function StagedMore(db: Tables, tenant: string, a: Attempt, rows: seq<ProjectRow>): Option<Tables>
  {
    if !Holds(db.state, tenant, a) then None
    else if rows == [] then Some(db)
    else
      var next := db.(stage := db.stage + Staged(a.run, rows));
      if !BatchOk(tenant, rows)
         || (exists i :: 0 <= i < |rows| && Key(a.run, rows[i].id) in db.stage)
         || !StageTotalsOk(RunRows(next.stage, a.run)) then None
      else Some(next)
  }

  predicate SummaryOk(a: Attempt, s: Summary)
  {
    && s.tenant == a.tenant && ProjectIdentifier(s.snapshot, 128)
    && 0 <= s.total <= MAX_PROJECTS && s.sourceSnapshotAt.instant != 0
  }

  function Published(db: Tables, tenant: string, a: Attempt, s: Summary, now: int): Option<Tables>
  {
    if !Holds(db.state, tenant, a) || !SummaryOk(a, s) then None
    else
      var rows := RunRows(db.stage, a.run);
      if |rows| != s.total || (exists id :: id in rows && rows[id].snapshot != s.snapshot) then None
      else Some(PublishedTables(db, a, s, now))
  }

  function PublishedTables(db: Tables, a: Attempt, s: Summary, now: int): Tables
    requires db.state.Some?
  {
    Tables(
      Some(db.state.value.(
        status := Success, lastError := "", finishedAt := Some(now), lastSuccessAt := Some(now),
        publishedRun := a.run, publishedSnapshot := s.snapshot,
        publishedSourceSnapshotAt := Some(s.sourceSnapshotAt), publishedSourceUpdatedAt := s.sourceUpdatedAt,
        publishedTotal := s.total, publishedChecksum := s.checksum)),
      map k | k in db.stage && k.run != a.run :: db.stage[k],
      RunRows(db.stage, a.run))
  }

  function ErrorCode(code: string): string
  {
    if code in {"INVALID_STREAM", "SOURCE_UNAVAILABLE", "SOURCE_TIMEOUT", "STAGING_FAILED", "PUBLISH_FAILED", "CANCELED"}
    then code else "PROJECTION_FAILED"
  }

  function FailedWith(db: Tables, tenant: string, a: Attempt, code: string, now: int): Option<Tables>
  {
    if !Holds(db.state, tenant, a) then None
    else Some(db.(
      state := Some(db.state.value.(status := Failed, lastError := ErrorCode(code), finishedAt := Some(now))),
      stage := map k | k in db.stage && k.run != a.run :: db.stage[k]))
  }

  // ----- facts about the queries -----

  lemma SumItemsAny(rows: map<string, ProjectRow>, id: string)
    requires id in rows
    ensures SumItems(rows) == rows[id].serviceItems + SumItems(rows - {id})
    decreases |rows|
  {
    var pick :| pick in rows && SumItems(rows) == rows[pick].serviceItems + SumItems(rows - {pick});
    if pick != id {
      SumItemsAny(rows - {pick}, id);
      SumItemsAny(rows - {id}, pick);
      assert rows - {pick} - {id} == rows - {id} - {pick};
    }
  }

  lemma {:induction false} ByIdKeys(rows: seq<ProjectRow>)
    ensures forall id :: id in ById(rows) <==> exists i :: 0 <= i < |rows| && rows[i].id == id
  {
    if rows != [] {
      var init, last := rows[..|rows| - 1], rows[|rows| - 1];
      ByIdKeys(init);
      forall id
        ensures id in ById(rows) <==> exists i :: 0 <= i < |rows| && rows[i].id == id
      {
        if id in ById(init) {
          var i :| 0 <= i < |init| && init[i].id == id;
          assert rows[i].id == id;
        }
      }
    }
  }

  lemma LastIsNew(rows: seq<ProjectRow>)
    requires AscendingIds(rows) && rows != []
    ensures AscendingIds(rows[..|rows| - 1])
    ensures rows[|rows| - 1].id !in ById(rows[..|rows| - 1])
  {
    hide Before;
    var init, last := rows[..|rows| - 1], rows[|rows| - 1];
    ByIdKeys(init);
    forall i | 0 <= i < |init|
      ensures init[i].id != last.id
    {
      BeforeTotal(init[i].id, last.id);
    }
  }

  /** Rows in id order are as many as their ids, and the table's sum is the sum in order. */
  lemma {:induction false} ByIdKeepsRows(rows: seq<ProjectRow>)
    requires AscendingIds(rows)
    ensures |ById(rows)| == |rows|
    ensures SumItems(ById(rows)) == Items(rows)
  {
    hide AscendingIds, SumItems;
    if rows != [] {
      var init, last := rows[..|rows| - 1], rows[|rows| - 1];
      LastIsNew(rows);
      ByIdKeepsRows(init);
      SumItemsAny(ById(rows), last.id);
      assert ById(rows) - {last.id} == ById(init);
    } else {
      NoItems();
    }
  }

  lemma NoItems()
    ensures SumItems(map[]) == 0
  {
  }

  /** Each row in id order is found under its id. */
  lemma {:induction false} ByIdFinds(rows: seq<ProjectRow>, i: nat)
    requires AscendingIds(rows) && i < |rows|
    ensures rows[i].id in ById(rows) && ById(rows)[rows[i].id] == rows[i]
  {
    hide AscendingIds;
    LastIsNew(rows);
    if i < |rows| - 1 {
      ByIdFinds(rows[..|rows| - 1], i);
    }
  }

  lemma {:induction false} StagedIsById(run: string, rows: seq<ProjectRow>)
    ensures forall k :: k in Staged(run, rows) <==> k.run == run && k.id in ById(rows)
    ensures forall k :: k in Staged(run, rows) ==> Staged(run, rows)[k] == ById(rows)[k.id]
  {
    if rows != [] {
      StagedIsById(run, rows[..|rows| - 1]);
    }
  }

  lemma {:induction false} ByIdAppend(a: seq<ProjectRow>, b: seq<ProjectRow>)
    ensures ById(a + b) == ById(a) + ById(b)
  {
    if b == [] {
      assert a + b == a;
    } else {
      assert (a + b)[..|a + b| - 1] == a + b[..|b| - 1];
      ByIdAppend(a, b[..|b| - 1]);
    }
  }

  lemma StagedAppend(run: string, a: seq<ProjectRow>, b: seq<ProjectRow>)
    ensures Staged(run, a + b) == Staged(run, a) + Staged(run, b)
  {
    hide Staged, ById;
    StagedIsById(run, a);
    StagedIsById(run, b);
    StagedIsById(run, a + b);
    ByIdAppend(a, b);
  }

  lemma RunRowsGrow(stage: map<Key, ProjectRow>, run: string, rows: seq<ProjectRow>)
    ensures RunRows(stage + Staged(run, rows), run) == RunRows(stage, run) + ById(rows)
    ensures OtherKeys(stage + Staged(run, rows), run) == OtherKeys(stage, run)
  {
    hide Staged, ById;
    StagedIsById(run, rows);
    var a, b := RunRows(stage + Staged(run, rows), run), RunRows(stage, run) + ById(rows);
    forall id
      ensures (id in a <==> id in b) && (id in a ==> a[id] == b[id])
    {
      assert id in a <==> Key(run, id) in stage + Staged(run, rows);
    }
  }

  // ----- reclamation -----

  /** Rows were removed, but none of this run. */
  ghost predicate OnlyOthersRemoved(before: map<Key, ProjectRow>, after: map<Key, ProjectRow>, run: string)
  {
    && after.Keys <= before.Keys
    && (forall k :: k in after ==> after[k] == before[k])
    && (forall k :: k in before && k.run == run ==> k in after)
  }

  /** A batch that is not full took everything there was. */
  lemma ShortBatchIsAll(stage: map<Key, ProjectRow>, run: string, keys: set<Key>)
    requires IsReclaimBatch(stage, run, keys) && |keys| < RECLAIM_BATCH
    ensures keys == OtherKeys(stage, run)
  {
    hide OtherKeys;
    assert |OtherKeys(stage, run) - keys| == 0;
  }

  lemma NothingRemoved(stage: map<Key, ProjectRow>, run: string)
    ensures OnlyOthersRemoved(stage, stage, run)
  {
  }

  lemma RemoveOthers(before: map<Key, ProjectRow>, after: map<Key, ProjectRow>, run: string, keys: set<Key>)
    requires OnlyOthersRemoved(before, after, run) && IsReclaimBatch(after, run, keys)
    ensures OnlyOthersRemoved(before, after - keys, run)
    ensures |keys| == if |OtherKeys(after, run)| <= RECLAIM_BATCH then |OtherKeys(after, run)| else RECLAIM_BATCH
    ensures |OtherKeys(after - keys, run)| == |OtherKeys(after, run)| - |keys|
  {
    assert OtherKeys(after - keys, run) == OtherKeys(after, run) - keys;
  }

  lemma NoOthersLeft(before: map<Key, ProjectRow>, after: map<Key, ProjectRow>, run: string)
    requires OnlyOthersRemoved(before, after, run) && |OtherKeys(after, run)| == 0
    ensures after == map k | k in before && k.run == run :: before[k]
  {
    forall k | k in after
      ensures k.run == run
    {
      assert k !in OtherKeys(after, run);
    }
  }

  /** How many transactions a reclamation of n rows takes. */
  function ReclaimRounds(n: nat): nat
  {
    if n / RECLAIM_BATCH < RECLAIM_ROUNDS then n / RECLAIM_BATCH + 1 else RECLAIM_ROUNDS
  }

  predicate AllPass(checks: seq<bool>, n: nat)
  {
    n <= |checks| && forall i :: 0 <= i < n ==> checks[i]
  }

  /** What is left of the answers after a transaction or several that ask for up to `n`, and stop at the first refusal. */
  function After(checks: seq<bool>, n: nat): seq<bool>
  {
    if n == 0 || checks == [] then checks else if !checks[0] then checks[1..] else After(checks[1..], n - 1)
  }

  lemma {:induction false} AfterSplit(checks: seq<bool>, a: nat, b: nat)
    ensures AllPass(checks, a) ==> After(checks, a + b) == After(checks[a..], b)
    ensures !AllPass(checks, a) ==> After(checks, a + b) == After(checks, a)
    decreases a
  {
    if a == 0 {
      assert checks[0..] == checks;
    } else if checks != [] && checks[0] {
      AfterSplit(checks[1..], a - 1, b);
      assert AllPass(checks, a) <==> AllPass(checks[1..], a - 1) by {
        assert forall i :: 1 <= i < |checks| ==> checks[1..][i - 1] == checks[i];
      }
      if AllPass(checks, a) {
        assert checks[1..][a - 1..] == checks[a..];
      }
    }
  }

  lemma AfterTwo(checks: seq<bool>)
    ensures After(checks, 2) ==
            if checks == [] then [] else if !checks[0] || |checks| == 1 then checks[1..] else checks[2..]
  {
    if checks != [] {
      assert After(checks[1..], 1) == if |checks| == 1 then checks[1..] else checks[1..][1..];
      assert |checks| > 1 ==> checks[1..][1..] == checks[2..];
    }
  }

  // ----- the tables as the worker changes them -----

  class ProjectionTables {
    const tenant: string
    var state: Option<State>
    var stage: map<Key, ProjectRow>
    var dim: map<string, ProjectRow>
    /** The answers that the lease and license checks will give, one before and one after each write. */
    var checks: seq<bool>

    ghost function View(): Tables
      reads this
    {
      Tables(state, stage, dim)
    }

    method Check() returns (ok: bool)
      modifies this`checks
      ensures ok <==> AllPass(old(checks), 1)
      ensures checks == if old(checks) == [] then [] else old(checks)[1..]
    {
      ok := checks != [] && checks[0];
      if checks != [] {
        checks := checks[1..];
      }
    }

    method LockProjectAttempt(a: Attempt) returns (ok: bool)
      ensures ok <==> Holds(state, tenant, a)
      ensures ok <==>
        && a.tenant == tenant && a.run != "" && a.generation > 0 && state.Some?
        && state.value.run == a.run && state.value.generation == a.generation && state.value.status == Running
    {
      if a.tenant != tenant || a.run == "" || a.generation == 0 {
        return false;
      }
      if state.None? {
        return false;
      }
      return state.value.run == a.run && state.value.generation == a.generation && state.value.status.Running?;
    }

    method BeginTransaction(run: string, now: int) returns (r: Option<Attempt>)
      modifies this
      ensures var begun := Begun(old(View()), tenant, run, now);
        if AllPass(old(checks), 2) && begun.Some?
        then r == Some(begun.value.1) && View() == begun.value.0 && checks == old(checks)[2..]
        else r.None? && View() == old(View())
    {
      var saved := state;
      var before := Check();
      if !before || !ProjectIdentifier(tenant, 26) {
        return None;
      }
      if state.None? {
        state := Some(SEED);
      }
      if state.value.generation >= MAX_GENERATION {
        state := saved;
        return None;
      }
      var generation := state.value.generation + 1;
      state := Some(state.value.(run := run, generation := generation, status := Running, lastError := "",
                                 startedAt := Some(now), finishedAt := None));
      var after := Check();
      if !after {
        state := saved;
        return None;
      }
      return Some(Attempt(tenant, run, generation));
    }

    /** The first rows of other runs, at most 200, in whatever order the query returns them. */
    method SelectOthers(run: string) returns (keys: set<Key>)
      ensures IsReclaimBatch(stage, run, keys)
    {
      keys := {};
      var left := OtherKeys(stage, run);
      while left != {} && |keys| < RECLAIM_BATCH
        invariant keys + left == OtherKeys(stage, run) && keys !! left
        invariant |keys| <= RECLAIM_BATCH
      {
        var k :| k in left;
        keys, left := keys + {k}, left - {k};
      }
      assert |keys + left| == |keys| + |left|;
    }

    method ReclaimTransaction(a: Attempt) returns (ok: bool, count: nat, ghost keys: set<Key>)
      modifies this
      ensures ok <==> AllPass(old(checks), 2) && Holds(old(state), tenant, a)
      ensures ok ==> checks == old(checks)[2..]
      ensures state == old(state) && dim == old(dim)
      ensures if ok
        then IsReclaimBatch(old(stage), a.run, keys) && stage == old(stage) - keys && count == |keys|
        else stage == old(stage)
    {
      count, keys := 0, {};
      var before := Check();
      if !before {
        return false, 0, {};
      }
      ok := LockProjectAttempt(a);
      if !ok {
        return;
      }
      var saved := stage;
      var selected := SelectOthers(a.run);
      count, keys := |selected|, selected;
      stage := stage - selected;
      ok := Check();
      if !ok {
        stage := saved;
      }
    }

    /**
     * Deletes the rows of other runs in at most 250 transactions of 200 rows. It
     * succeeds exactly when fewer than 50,000 are there and every transaction
     * passes the fence, and then none is left; when only their number is too
     * large, exactly 50,000 are gone.
     */
    method ReclaimProjectStaging(a: Attempt) returns (ok: bool)
      modifies this
      ensures state == old(state) && dim == old(dim)
      ensures var n := |OtherKeys(old(stage), a.run)|;
        ok <==> n < 50000 && Holds(old(state), tenant, a) && AllPass(old(checks), 2 * ReclaimRounds(n))
      ensures OnlyOthersRemoved(old(stage), stage, a.run)
      ensures ok ==> stage == map k | k in old(stage) && k.run == a.run :: old(stage)[k]
      ensures ok ==> checks == old(checks)[2 * ReclaimRounds(|OtherKeys(old(stage), a.run)|)..]
      ensures var n := |OtherKeys(old(stage), a.run)|;
        n >= 50000 && Holds(old(state), tenant, a) && AllPass(old(checks), 500)
        ==> |OtherKeys(stage, a.run)| == n - 50000
    {
      hide Holds, OnlyOthersRemoved, OtherKeys, IsReclaimBatch;
      ghost var n := |OtherKeys(stage, a.run)|;
      assert OnlyOthersRemoved(stage, stage, a.run) by {
        NothingRemoved(stage, a.run);
      }
      for batch := 0 to RECLAIM_ROUNDS
        invariant state == old(state) && dim == old(dim)
        invariant OnlyOthersRemoved(old(stage), stage, a.run)
        invariant |OtherKeys(stage, a.run)| == n - RECLAIM_BATCH * batch
        invariant batch > 0 ==> Holds(old(state), tenant, a)
        invariant AllPass(old(checks), 2 * batch) && checks == old(checks)[2 * batch..]
      {
        ghost var before := stage;
        label Round:
        var done, count, keys := ReclaimTransaction(a);
        if !done {
          assert AllPass(old(checks), 2 * (batch + 1)) ==> AllPass(old@Round(checks), 2);
          return false;
        }
        RemoveOthers(old(stage), before, a.run, keys);
        assert AllPass(old(checks), 2 * (batch + 1));
        if count < RECLAIM_BATCH {
          NoOthersLeft(old(stage), stage, a.run);
          assert batch == n / RECLAIM_BATCH;
          return true;
        }
      }
      return false;
    }

    /** A new generation takes over the fence; what older runs staged is reclaimed before anything is read. */
    method BeginProjectProjection(run: string, now: int) returns (r: Option<Attempt>)
      requires run != ""
      modifies this
      ensures dim == old(dim)
      ensures r.Some? ==>
        && Begun(old(View()), tenant, run, now).Some?
        && var (begun, attempt) := Begun(old(View()), tenant, run, now).value;
        && r.value == attempt && state == begun.state && Holds(state, tenant, attempt)
        && stage == map k | k in old(stage) && k.run == run :: old(stage)[k]
      ensures OnlyOthersRemoved(old(stage), stage, run)
      ensures r.Some? <==>
        && Begun(old(View()), tenant, run, now).Some?
        && |OtherKeys(old(stage), run)| < 50000
        && AllPass(old(checks), 2 + 2 * ReclaimRounds(|OtherKeys(old(stage), run)|))
      ensures r.Some? ==> checks == old(checks)[2 + 2 * ReclaimRounds(|OtherKeys(old(stage), run)|)..]
      ensures r.Some? ==>
        && ProjectIdentifier(tenant, 26) && state.Some?
        && var before := if old(state).Some? then old(state).value.generation else 0;
        && before < MAX_GENERATION && r.value == Attempt(tenant, run, before + 1)
        && state.value.run == run && state.value.generation == before + 1 && state.value.status.Running?
        && state.value.lastError == "" && state.value.startedAt == Some(now)
      ensures Begun(old(View()), tenant, run, now).Some? <==>
        ProjectIdentifier(tenant, 26) && (old(state).Some? ==> old(state).value.generation < MAX_GENERATION)
    {
      NothingRemoved(stage, run);
      ghost var n := |OtherKeys(stage, run)|;
      r := BeginTransaction(run, now);
      if r.None? {
        return;
      }
      label Begun:
      var ok := ReclaimProjectStaging(r.value);
      assert AllPass(old(checks), 2 + 2 * ReclaimRounds(n)) <==> AllPass(old@Begun(checks), 2 * ReclaimRounds(n)) by {
        assert forall i :: 2 <= i < |old(checks)| ==> old@Begun(checks)[i - 2] == old(checks)[i];
      }
      if !ok {
        return None;
      }
    }

    /** The aggregate query over the rows of one run. */
    method StageTotals(run: string) returns (total: nat, items: int, snapshots: nat)
      ensures total == |RunRows(stage, run)| && items == SumItems(RunRows(stage, run))
      ensures snapshots == |(set id | id in RunRows(stage, run) :: RunRows(stage, run)[id].snapshot)|
    {
      var rows := RunRows(stage, run);
      var left := rows;
      items := 0;
      while left != map[]
        invariant items + SumItems(left) == SumItems(rows)
        decreases |left|
      {
        var id :| id in left;
        SumItemsAny(left, id);
        items := items + left[id].serviceItems;
        left := left - {id};
      }
      total := |rows|;
      snapshots := |(set id | id in rows :: rows[id].snapshot)|;
    }

    method CheckBatch(rows: seq<ProjectRow>) returns (ok: bool)
      requires |rows| <= BATCH
      ensures ok <==> BatchOk(tenant, rows)
    {
      var last := "";
      for i := 0 to |rows|
        invariant BatchOk(tenant, rows[..i])
        invariant last == if i == 0 then "" else rows[i - 1].id
      {
        var p := rows[i];
        AscendOneMore(rows[..i], p);
        assert rows[..i + 1] == rows[..i] + [p];
        if !ValidProjectRow(p) || p.tenant != tenant || !Before(last, p.id) {
          BatchPrefix(rows, i);
          return false;
        }
        last := p.id;
      }
      assert rows[..|rows|] == rows;
      return true;
    }

    lemma BatchPrefix(rows: seq<ProjectRow>, i: nat)
      requires i < |rows|
      ensures BatchOk(tenant, rows) ==> BatchOk(tenant, rows[..i + 1])
    {
      hide Before, ValidProjectRow;
    }

    /** One batch: the fence, each row, no key twice, and the totals of the run so far. */
    method StageProjectProjection(a: Attempt, rows: seq<ProjectRow>) returns (ok: bool)
      modifies this
      ensures var next := StagedMore(old(View()), tenant, a, rows);
        && (ok <==> AllPass(old(checks), 2) && next.Some?)
        && View() == if ok then next.value else old(View())
      ensures ok ==> checks == old(checks)[2..]
      ensures StagedMore(old(View()), tenant, a, rows).Some? ==> checks == After(old(checks), 2)
      ensures ok ==> StagedAs(old(View()), View(), tenant, a, rows)
    {
      hide SumItems, RunRows, Staged, ValidProjectRow, AscendingIds, Holds, After, StagedAs;
      AfterTwo(checks);
      StagedMeans(View(), tenant, a, rows);
      ok := Check();
      if !ok {
        return;
      }
      ok := LockProjectAttempt(a);
      if !ok {
        return;
      }
      var saved := stage;
      if |rows| > BATCH {
        return false;
      }
      if rows != [] {
        ok := CheckBatch(rows);
        if !ok || exists i :: 0 <= i < |rows| && Key(a.run, rows[i].id) in stage {
          return false;
        }
        stage := stage + Staged(a.run, rows);
        var total, items, snapshots := StageTotals(a.run);
        if total > MAX_PROJECTS || items > MAX_SERVICE_ITEMS || snapshots != 1 {
          stage := saved;
          return false;
        }
      }
      ok := Check();
      if !ok {
        stage := saved;
      }
    }

    /** Replaces the visible rows by the staged ones when the verified summary matches them. */
    method PublishProjectProjection(a: Attempt, s: Summary, now: int) returns (ok: bool)
      modifies this
      ensures var next := Published(old(View()), tenant, a, s, now);
        && (ok <==> AllPass(old(checks), 2) && next.Some?)
        && View() == if ok then next.value else old(View())
      ensures Published(old(View()), tenant, a, s, now).Some? ==> checks == After(old(checks), 2)
      ensures ok <==>
        && AllPass(old(checks), 2) && Holds(old(state), tenant, a) && SummaryOk(a, s)
        && |RunRows(old(stage), a.run)| == s.total
        && forall k :: k in old(stage) && k.run == a.run ==> old(stage)[k].snapshot == s.snapshot
      ensures ok ==> PublishedAs(old(View()), View(), a, s, now)
    {
      hide RunRows, SummaryOk, PublishedTables, After, PublishedAs;
      AfterTwo(checks);
      PublishedMeans(View(), tenant, a, s, now);
      ok := Check();
      if !ok {
        return;
      }
      ok := LockProjectAttempt(a);
      if !ok || !SummaryOk(a, s) {
        return false;
      }
      var rows := RunRows(stage, a.run);
      var total := |rows|;
      var matching := CountMatching(rows, s.snapshot);
      if total != s.total || matching != total {
        return false;
      }
      var savedState, savedStage, savedDim := state, stage, dim;
      ReplaceRows(a, s, now);
      ok := Check();
      if !ok {
        state, stage, dim := savedState, savedStage, savedDim;
      }
    }

    /** Delete, insert from the stage, record the summary, drop the staged rows. */
    method ReplaceRows(a: Attempt, s: Summary, now: int)
      requires state.Some?
      modifies this`state, this`stage, this`dim
      ensures View() == PublishedTables(old(View()), a, s, now)
    {
      dim := map[];
      dim := dim + RunRows(stage, a.run);
      state := Some(state.value.(
        status := Success, lastError := "", finishedAt := Some(now), lastSuccessAt := Some(now),
        publishedRun := a.run, publishedSnapshot := s.snapshot,
        publishedSourceSnapshotAt := Some(s.sourceSnapshotAt), publishedSourceUpdatedAt := s.sourceUpdatedAt,
        publishedTotal := s.total, publishedChecksum := s.checksum));
      stage := map k | k in stage && k.run != a.run :: stage[k];
    }

    method FailProjectProjection(a: Attempt, code: string, now: int) returns (ok: bool)
      modifies this
      ensures var next := FailedWith(old(View()), tenant, a, code, now);
        && (ok <==> AllPass(old(checks), 2) && next.Some?)
        && View() == if ok then next.value else old(View())
      ensures ok <==> AllPass(old(checks), 2) && Holds(old(state), tenant, a)
      ensures ok ==>
        && dim == old(dim) && (forall k :: k in stage <==> k in old(stage) && k.run != a.run)
        && (forall k :: k in stage ==> stage[k] == old(stage)[k])
        && state.Some? && state.value.run == a.run && state.value.generation == a.generation
        && state.value.status.Failed? && state.value.finishedAt == Some(now)
        && state.value.lastError == (
          if code == "INVALID_STREAM" || code == "SOURCE_UNAVAILABLE" || code == "SOURCE_TIMEOUT"
             || code == "STAGING_FAILED" || code == "PUBLISH_FAILED" || code == "CANCELED"
          then code else "PROJECTION_FAILED")
    {
      ok := Check();
      if !ok {
        return;
      }
      ok := LockProjectAttempt(a);
      if !ok {
        return;
      }
      var savedState, savedStage := state, stage;
      state := Some(state.value.(status := Failed, lastError := ErrorCode(code), finishedAt := Some(now)));
      stage := map k | k in stage && k.run != a.run :: stage[k];
      ok := Check();
      if !ok {
        state, stage := savedState, savedStage;
      }
    }
  }

  /** What staging a batch means: its rows, valid and new, are there, nothing else moved, and the run stays in bounds. */
  ghost predicate StagedAs(before: Tables, after: Tables, tenant: string, a: Attempt, rows: seq<ProjectRow>)
  {
    && Holds(before.state, tenant, a) && after.state == before.state && after.dim == before.dim && |rows| <= 200
    && (forall i :: 0 <= i < |rows| ==>
          && ValidProjectRow(rows[i]) && rows[i].tenant == tenant && Key(a.run, rows[i].id) !in before.stage
          && Key(a.run, rows[i].id) in after.stage && after.stage[Key(a.run, rows[i].id)] == rows[i])
    && (forall k :: k in before.stage ==> k in after.stage && after.stage[k] == before.stage[k])
    && |after.stage| == |before.stage| + |rows|
    && (rows != [] ==> |RunRows(after.stage, a.run)| <= 50000 && SumItems(RunRows(after.stage, a.run)) <= 250000)
  }

  lemma StagedMeans(db: Tables, tenant: string, a: Attempt, rows: seq<ProjectRow>)
    ensures var next := StagedMore(db, tenant, a, rows);
      next.Some? ==> StagedAs(db, next.value, tenant, a, rows)
  {
    hide Staged, ById, RunRows, SumItems, ValidProjectRow, Holds, AscendingIds;
    if StagedMore(db, tenant, a, rows).Some? && rows != [] {
      StagedAdds(db.stage, a.run, rows);
    }
  }

  lemma StagedAdds(stage: map<Key, ProjectRow>, run: string, rows: seq<ProjectRow>)
    requires AscendingIds(rows) && forall i :: 0 <= i < |rows| ==> Key(run, rows[i].id) !in stage
    ensures var next := stage + Staged(run, rows);
      && (forall i :: 0 <= i < |rows| ==> Key(run, rows[i].id) in next && next[Key(run, rows[i].id)] == rows[i])
      && (forall k :: k in stage ==> k in next && next[k] == stage[k])
      && |next| == |stage| + |rows|
  {
    hide Staged, ById, AscendingIds;
    var staged := Staged(run, rows);
    StagedIsById(run, rows);
    ByIdKeys(rows);
    forall i | 0 <= i < |rows|
      ensures Key(run, rows[i].id) in staged && staged[Key(run, rows[i].id)] == rows[i]
    {
      ByIdFinds(rows, i);
    }
    forall k | k in staged
      ensures k !in stage
    {
      assert k.id in ById(rows) && k.run == run;
    }
    StagedSize(run, rows);
    assert (stage + staged).Keys == stage.Keys + staged.Keys;
    assert |stage + staged| == |(stage + staged).Keys|;
  }

  lemma {:induction false} StagedSize(run: string, rows: seq<ProjectRow>)
    requires AscendingIds(rows)
    ensures |Staged(run, rows)| == |rows|
  {
    hide AscendingIds, ById;
    if rows != [] {
      var init := rows[..|rows| - 1];
      LastIsNew(rows);
      StagedSize(run, init);
      StagedIsById(run, init);
    }
  }

  /** What a publication leaves: the rows of the run, visible; its summary, recorded; rows of other runs, staged. */
  ghost predicate PublishedAs(before: Tables, after: Tables, a: Attempt, s: Summary, now: int)
  {
    && (forall k :: k in before.stage && k.run == a.run ==>
          k.id in after.dim && after.dim[k.id] == before.stage[k] && after.dim[k.id].snapshot == s.snapshot)
    && (forall id :: id in after.dim ==> Key(a.run, id) in before.stage) && |after.dim| == s.total
    && (forall k :: k in after.stage <==> k in before.stage && k.run != a.run)
    && (forall k :: k in after.stage ==> after.stage[k] == before.stage[k])
    && before.state.Some? && after.state.Some?
    && var was, state := before.state.value, after.state.value;
    && state.run == was.run && state.generation == was.generation && state.startedAt == was.startedAt
    && state.status.Success? && state.lastError == "" && state.finishedAt == Some(now) && state.lastSuccessAt == Some(now)
    && state.publishedRun == a.run && state.publishedSnapshot == s.snapshot && state.publishedTotal == s.total
    && state.publishedChecksum == s.checksum && state.publishedSourceSnapshotAt == Some(s.sourceSnapshotAt)
    && state.publishedSourceUpdatedAt == s.sourceUpdatedAt
  }

  lemma PublishedMeans(db: Tables, tenant: string, a: Attempt, s: Summary, now: int)
    ensures Published(db, tenant, a, s, now).Some? <==>
      && Holds(db.state, tenant, a) && SummaryOk(a, s) && |RunRows(db.stage, a.run)| == s.total
      && forall k :: k in db.stage && k.run == a.run ==> db.stage[k].snapshot == s.snapshot
    ensures var next := Published(db, tenant, a, s, now); next.Some? ==> PublishedAs(db, next.value, a, s, now)
  {
    hide SummaryOk;
    var rows := RunRows(db.stage, a.run);
    forall k | k in db.stage && k.run == a.run
      ensures k.id in rows && rows[k.id] == db.stage[k]
    {
      assert k == Key(a.run, k.id);
    }
    forall id | id in rows
      ensures Key(a.run, id) in db.stage && rows[id] == db.stage[Key(a.run, id)]
    {
    }
  }

  method CountMatching(rows: map<string, ProjectRow>, snapshot: string) returns (n: nat)
    ensures n == |rows| <==> !exists id :: id in rows && rows[id].snapshot != snapshot
  {
    var matching := set id | id in rows && rows[id].snapshot == snapshot;
    n := |matching|;
    assert matching <= rows.Keys;
    if n == |rows| {
      assert |rows.Keys - matching| == 0;
      assert matching == rows.Keys;
    } else {
      assert matching != rows.Keys;
    }
  }
}
