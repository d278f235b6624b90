/**
 * The alert table of one tenant: idempotent writing of evaluated alerts, the
 * reconciliation that follows a round of a rule, and manual status changes.
 * A row is identified by its target.
 */
module Alerts {
  import opened Common

  /** Width of the counters miss_streak and hit_streak, and of reopen_count. */
  const STREAK_MAX: nat := 255
  const REOPEN_MAX: nat := 0xFFFF_FFFF

  datatype Status = Open | Ack | Closed

  datatype Reason = NoReason | Manual | WindowExit | ConditionCleared

  datatype Row = Row(
    rule: string, severity: string, org: string, title: string, due: int,
    status: Status, closedAt: Option<int>, reason: Reason, miss: nat, hit: nat, lastHitAt: Option<int>,
    reopens: nat, ackAt: Option<int>, ackBy: string, createdAt: int, updatedAt: int)

  datatype Alert = Alert(
    tenant: string, rule: string, severity: string, org: string, target: string, title: string, due: int, at: int)

  datatype Db = Db(rules: map<string, bool>, table: map<string, Row>)

  datatype Policy = Policy(confirm: int, manualReopen: bool)

  // ----- what each transaction does to one row -----

  predicate Active(row: Row)
  {
    row.status.Open? || row.status.Ack?
  }

  predicate AutoClosed(row: Row)
  {
    row.status.Closed? && (row.reason.WindowExit? || row.reason.ConditionCleared?)
  }

  function Inserted(a: Alert): Row
  {
    Row(a.rule, a.severity, a.org, a.title, a.due, Open, None, NoReason, 0, 0, None, 0, None, "", a.at, a.at)
  }

  function Refreshed(row: Row, a: Alert): Row
  {
    row.(rule := a.rule, severity := a.severity, org := a.org, title := a.title, due := a.due, updatedAt := a.at)
  }

  predicate Enabled(rules: map<string, bool>, rule: string)
  {
    rule in rules && rules[rule]
  }

  function Upserted(db: Db, alerts: seq<Alert>): map<string, Row>
  {
    if alerts == [] then db.table
    else
      var table, a := Upserted(db, alerts[..|alerts| - 1]), alerts[|alerts| - 1];
      if !Enabled(db.rules, a.rule) then table
      else table[a.target := if a.target in table then Refreshed(table[a.target], a) else Inserted(a)]
  }

  function Targets(active: seq<Alert>): set<string>
  {
    set i | 0 <= i < |active| && active[i].target != "" :: active[i].target
  }

  function Confirm(p: Policy): int
  {
    if p.confirm < 1 then 1 else p.confirm
  }

  /** One row of the rule after a round that hit it or missed it. */
  function AfterRound(row: Row, hit: bool, p: Policy, at: int): Row
  {
    if Active(row) && hit then row.(miss := 0, hit := row.hit + 1, lastHitAt := Some(at), updatedAt := at)
    else if Active(row) && row.miss + 1 >= Confirm(p) then
      row.(miss := row.miss + 1, status := Closed, closedAt := Some(at), reason := ConditionCleared, updatedAt := at)
    else if Active(row) then row.(miss := row.miss + 1, updatedAt := at)
    else if AutoClosed(row) && hit && !p.manualReopen then
      row.(status := Open, closedAt := None, reason := NoReason, reopens := row.reopens + 1, miss := 0,
           hit := row.hit + 1, lastHitAt := Some(at), updatedAt := at)
    else row
  }

  /** A counter of the row would leave its column, which fails the statement. */
  predicate Overflows(row: Row, hit: bool, p: Policy)
  {
    || (Active(row) && hit && row.hit >= STREAK_MAX)
    || (Active(row) && !hit && row.miss >= STREAK_MAX)
    || (AutoClosed(row) && hit && !p.manualReopen && (row.hit >= STREAK_MAX || row.reopens >= REOPEN_MAX))
  }

  predicate Fits(table: map<string, Row>, rule: string, targets: set<string>, p: Policy)
  {
    forall t :: t in table && table[t].rule == rule ==> !Overflows(table[t], t in targets, p)
  }

  function RoundTable(table: map<string, Row>, rule: string, targets: set<string>, p: Policy, at: int): map<string, Row>
  {
    map t | t in table :: if table[t].rule == rule then AfterRound(table[t], t in targets, p, at) else table[t]
  }

  /** Nothing is reconciled without a hit; a failing statement rolls the round back. */
  function Reconciled(table: map<string, Row>, rule: string, targets: set<string>, p: Policy, at: int): map<string, Row>
  {
    if targets == {} || !Fits(table, rule, targets, p) then table else RoundTable(table, rule, targets, p, at)
  }

  function ManuallySet(row: Row, status: Status, actor: string, at: int): Row
  {
    var decided := row.(status := status, updatedAt := at, closedAt := if status.Closed? then Some(at) else None,
                     reason := if status.Closed? then Manual else NoReason);
    if status.Ack? then decided.(ackAt := Some(at), ackBy := actor) else decided
  }

  predicate Reconcilable(tenant: string, rule: string, active: seq<Alert>)
  {
    !Blank(tenant) && !Blank(rule) && forall i :: 0 <= i < |active| ==> active[i].tenant == tenant && active[i].rule == rule
  }

  // ----- the guard -----

  /** The relative error of a float64 product. */
  const ROUNDING: real := 1.0 / 9007199254740992.0

  /** What is known of `fl`, the rounding of a float64 product: from 1 up it loses at most one part in 2^53. */
  ghost predicate Float64(fl: real -> real)
  {
    forall x :: 1.0 <= x ==> x - x * ROUNDING <= fl(x)
  }

  /** Too few hits for the number of open alerts: the round must not close anything. */
  predicate CloseGuarded(hits: nat, openTotal: nat, ratio: real, fl: real -> real)
  {
    hits == 0 || hits as real < fl(ratio * openTotal as real)
  }

  datatype Lifecycle = Lifecycle(autoResolve: bool, policy: Policy, ratio: real)

  function Normalized(o: Lifecycle): Lifecycle
  {
    var confirm := if o.policy.confirm < 1 then 2 else if o.policy.confirm > 10 then 10 else o.policy.confirm;
    o.(policy := o.policy.(confirm := confirm), ratio := if o.ratio <= 0.0 || o.ratio > 1.0 then 0.5 else o.ratio)
  }

  /** Normalising settles in one pass, changes nothing that is in range, and always lands in range. */
  lemma NormalizedIsStable(o: Lifecycle)
    ensures Normalized(Normalized(o)) == Normalized(o)
    ensures Normalized(o) == o <==> 1 <= o.policy.confirm <= 10 && 0.0 < o.ratio <= 1.0
    ensures Confirm(Normalized(o).policy) == Normalized(o).policy.confirm
    ensures o.policy.confirm < 1 ==> Normalized(o).policy.confirm == 2
    ensures o.policy.confirm > 10 ==> Normalized(o).policy.confirm == 10
    ensures o.ratio <= 0.0 || 1.0 < o.ratio ==> Normalized(o).ratio == 0.5
  {
    assert Normalized(o) == o <==> Normalized(o).policy.confirm == o.policy.confirm && Normalized(o).ratio == o.ratio;
  }

  function ActiveTargets(table: map<string, Row>, rule: string): set<string>
  {
    set t | t in table && table[t].rule == rule && Active(table[t])
  }

  // ----- the table as its writers change it -----

  class AlertTable {
    const tenant: string
    var rules: map<string, bool>
    var table: map<string, Row>

    constructor (tenant: string)
      ensures this.tenant == tenant && View() == Db(map[], map[])
    {
      this.tenant := tenant;
      rules, table := map[], map[];
    }

    ghost function View(): Db
      reads this
    {
      Db(rules, table)
    }

    method SetRule(rule: string, enabled: bool)
      modifies this`rules
      ensures rules == old(rules)[rule := enabled]
    {
      rules := rules[rule := enabled];
    }

    /** Writes the alerts whose rule is still enabled; what a row went through stays with it. */
    method UpsertAlerts(alerts: seq<Alert>, commits: bool) returns (ok: bool)
      modifies this`table
      ensures ok <==>
        !Blank(tenant) && (forall i :: 0 <= i < |alerts| ==> alerts[i].tenant == tenant) && (commits || alerts == [])
      ensures table == if ok then Upserted(old(View()), alerts) else old(table)
    {
      if Blank(tenant) {
        return false;
      }
      if |alerts| == 0 {
        return true;
      }
      var codes: map<string, bool> := map[];
      for i := 0 to |alerts|
        invariant forall k :: 0 <= k < i ==> alerts[k].tenant == tenant && alerts[k].rule in codes
        invariant forall code :: code in codes ==> !codes[code]
      {
        if alerts[i].tenant != tenant {
          return false;
        }
        codes := codes[alerts[i].rule := false];
      }
      codes := map code | code in codes :: code in rules && rules[code];
      var saved := table;
      for i := 0 to |alerts|
        invariant table == Upserted(old(View()), alerts[..i])
      {
        var a := alerts[i];
        assert alerts[..i + 1][..i] == alerts[..i];
        if !codes[a.rule] {
          continue;
        }
        if a.target in table {
          table := table[a.target := table[a.target].(rule := a.rule, severity := a.severity, org := a.org,
                                                      title := a.title, due := a.due, updatedAt := a.at)];
        } else {
          table := table[a.target := Inserted(a)];
        }
      }
      assert alerts[..|alerts|] == alerts;
      if !commits {
        table := saved;
      }
      return commits;
    }

    method CountActiveAlerts(rule: string) returns (count: nat)
      ensures count == |ActiveTargets(table, rule)|
    {
      count := |set t | t in table && table[t].rule == rule && Active(table[t])|;
    }

    /** Distinct targets that are not empty. */
    static method HitTargets(active: seq<Alert>) returns (targets: seq<string>)
      ensures (set i | 0 <= i < |targets| :: targets[i]) == Targets(active)
      ensures forall i, j :: 0 <= i < j < |targets| ==> targets[i] != targets[j]
    {
      targets := [];
      var seen: set<string> := {};
      for i := 0 to |active|
        invariant seen == Targets(active[..i])
        invariant seen == set k | 0 <= k < |targets| :: targets[k]
        invariant forall k, j :: 0 <= k < j < |targets| ==> targets[k] != targets[j]
      {
        var target := active[i].target;
        TargetsGrow(active, i);
        if target == "" || target in seen {
          continue;
        }
        assert target !in targets by {
          assert forall k :: 0 <= k < |targets| ==> targets[k] in seen;
        }
        seen := seen + {target};
        ghost var was := targets;
        targets := targets + [target];
        AppendedIds(was, target);
      }
      assert active[..|active|] == active;
    }

    /** Phase 1: the hit counters of the active rows that were hit, each within its column. */
    method CountHits(rule: string, targets: set<string>, at: int) returns (ok: bool)
      modifies this`table
      ensures ok <==> HitsFit(old(table), rule, targets)
      ensures ok ==> table == map t | t in old(table) :: CountedHit(old(table)[t], rule, t in targets, at)
    {
      if exists t :: t in table && table[t].rule == rule && Active(table[t]) && t in targets && table[t].hit >= STREAK_MAX {
        return false;
      }
      table := map t | t in table ::
        if table[t].rule == rule && Active(table[t]) && t in targets
        then table[t].(miss := 0, hit := table[t].hit + 1, lastHitAt := Some(at), updatedAt := at) else table[t];
      return true;
    }

    /** The first half of phase 2: the miss counters of the other active rows. */
    method CountMisses(rule: string, targets: set<string>, at: int) returns (ok: bool)
      modifies this`table
      ensures ok <==> MissesFit(old(table), rule, targets)
      ensures ok ==> table == map t | t in old(table) :: CountedMiss(old(table)[t], rule, t in targets, at)
    {
      if exists t :: t in table && table[t].rule == rule && Active(table[t]) && t !in targets && table[t].miss >= STREAK_MAX {
        return false;
      }
      table := map t | t in table ::
        if table[t].rule == rule && Active(table[t]) && t !in targets
        then table[t].(miss := table[t].miss + 1, updatedAt := at) else table[t];
      return true;
    }

    /** The rest of phase 2: rows missed often enough are closed. */
    method CloseCleared(rule: string, targets: set<string>, confirm: int, at: int)
      modifies this`table
      ensures table == map t | t in old(table) :: Cleared(old(table)[t], rule, t in targets, confirm, at)
    {
      table := map t | t in table ::
        if table[t].rule == rule && Active(table[t]) && t !in targets && table[t].miss >= confirm
        then table[t].(status := Closed, closedAt := Some(at), reason := ConditionCleared, updatedAt := at) else table[t];
    }

    /** Phase 3: rows that the rule itself closed come back when they are hit. */
    method ReopenHits(rule: string, targets: set<string>, at: int) returns (ok: bool)
      modifies this`table
      ensures ok <==> ReopensFit(old(table), rule, targets)
      ensures ok ==> table == map t | t in old(table) :: Reopened(old(table)[t], rule, t in targets, at)
    {
      if exists t :: t in table && table[t].rule == rule && AutoClosed(table[t]) && t in targets
           && (table[t].hit >= STREAK_MAX || table[t].reopens >= REOPEN_MAX) {
        return false;
      }
      table := map t | t in table ::
        if table[t].rule == rule && AutoClosed(table[t]) && t in targets
        then table[t].(status := Open, closedAt := None, reason := NoReason, reopens := table[t].reopens + 1, miss := 0,
                       hit := table[t].hit + 1, lastHitAt := Some(at), updatedAt := at) else table[t];
      return true;
    }

    /** The three phases in one transaction. */
    method ReconcileAlerts(rule: string, active: seq<Alert>, at: int, p: Policy, commits: bool) returns (ok: bool)
      modifies this`table
      ensures ok <==>
        && Reconcilable(tenant, rule, active)
        && (Targets(active) == {} || (commits && Fits(old(table), rule, Targets(active), p)))
      ensures table == if ok then Reconciled(old(table), rule, Targets(active), p, at) else old(table)
    {
      hide Blank, AfterRound, Overflows, CountedHit, CountedMiss, Cleared, Reopened, Fits, HitsFit, MissesFit,
        ReopensFit;
      if Blank(tenant) || Blank(rule) {
        return false;
      }
      for i := 0 to |active|
        invariant forall k :: 0 <= k < i ==> active[k].tenant == tenant && active[k].rule == rule
      {
        if active[i].tenant != tenant || active[i].rule != rule {
          return false;
        }
      }
      var list := HitTargets(active);
      var targets := set i | 0 <= i < |list| :: list[i];
      if |list| == 0 {
        return true;
      }
      assert list[0] in targets;
      var saved := table;
      ok := CountHits(rule, targets, at);
      ghost var hits := table;
      if ok {
        ok := CountMisses(rule, targets, at);
      }
      ghost var counted := table;
      if ok {
        CloseCleared(rule, targets, if p.confirm < 1 then 1 else p.confirm, at);
        ghost var cleared := table;
        if !p.manualReopen {
          ok := ReopenHits(rule, targets, at);
        }
        PhasesAreOneRound(saved, hits, counted, cleared, rule, targets, p, at);
      } else if HitsFit(saved, rule, targets) {
        MissesAfterHits(saved, hits, rule, targets, at);
        CountersDoNotFit(saved, rule, targets, p);
      } else {
        CountersDoNotFit(saved, rule, targets, p);
      }
      if !ok || !commits {
        table := saved;
        ok := false;
      }
    }

    /** An operator's decision on one alert within the operator's scope. */
    method UpdateStatus(target: string, status: Status, actor: string, inScope: bool, at: int) returns (changed: bool)
      modifies this`table
      ensures changed <==> inScope && target in old(table)
      ensures table == if changed then old(table)[target := ManuallySet(old(table)[target], status, actor, at)] else old(table)
    {
      if !inScope || target !in table {
        return false;
      }
      var row := table[target].(status := status, updatedAt := at, closedAt := None, reason := NoReason);
      match status {
        case Closed => row := row.(reason := Manual, closedAt := Some(at));
        case Ack => row := row.(ackAt := Some(at), ackBy := actor);
        case Open =>
      }
      table := table[target := row];
      return true;
    }
  }

  predicate HitsFit(table: map<string, Row>, rule: string, targets: set<string>)
  {
    forall t :: t in table && table[t].rule == rule && Active(table[t]) && t in targets ==> table[t].hit < STREAK_MAX
  }

  predicate MissesFit(table: map<string, Row>, rule: string, targets: set<string>)
  {
    forall t :: t in table && table[t].rule == rule && Active(table[t]) && t !in targets ==> table[t].miss < STREAK_MAX
  }

  predicate ReopensFit(table: map<string, Row>, rule: string, targets: set<string>)
  {
    forall t :: t in table && table[t].rule == rule && AutoClosed(table[t]) && t in targets ==>
      table[t].hit < STREAK_MAX && table[t].reopens < REOPEN_MAX
  }

  function CountedHit(row: Row, rule: string, hit: bool, at: int): Row
  {
    if row.rule != rule || !Active(row) || !hit then row
    else row.(miss := 0, hit := row.hit + 1, lastHitAt := Some(at), updatedAt := at)
  }

  function CountedMiss(row: Row, rule: string, hit: bool, at: int): Row
  {
    if row.rule != rule || !Active(row) || hit then row else row.(miss := row.miss + 1, updatedAt := at)
  }

  function Cleared(row: Row, rule: string, hit: bool, confirm: int, at: int): Row
  {
    if row.rule != rule || !Active(row) || hit || row.miss < confirm then row
    else row.(status := Closed, closedAt := Some(at), reason := ConditionCleared, updatedAt := at)
  }

  function Reopened(row: Row, rule: string, hit: bool, at: int): Row
  {
    if row.rule != rule || !AutoClosed(row) || !hit then row
    else row.(status := Open, closedAt := None, reason := NoReason, reopens := row.reopens + 1, miss := 0,
              hit := row.hit + 1, lastHitAt := Some(at), updatedAt := at)
  }

  lemma TargetsGrow(active: seq<Alert>, i: nat)
    requires i < |active|
    ensures Targets(active[..i + 1]) == Targets(active[..i]) + if active[i].target != "" then {active[i].target} else {}
  {
    var a, b := active[..i], active[..i + 1];
    forall t
      ensures t in Targets(b) <==> t in Targets(a) || (t == active[i].target && t != "")
    {
      if t in Targets(a) {
        var k :| 0 <= k < i && a[k].target == t;
        assert b[k].target == t;
      }
      if t == active[i].target && t != "" {
        assert b[i].target == t;
      }
      if t in Targets(b) && t != active[i].target {
        var k :| 0 <= k < i + 1 && b[k].target == t;
        assert a[k].target == t;
      }
    }
  }

  lemma AppendedIds(ids: seq<string>, id: string)
    ensures (set k | 0 <= k < |ids + [id]| :: (ids + [id])[k]) == (set k | 0 <= k < |ids| :: ids[k]) + {id}
  {
    var next := ids + [id];
    assert next[|ids|] == id && forall k :: 0 <= k < |ids| ==> next[k] == ids[k];
  }

  /** The phases touch different rows, so together they are one decision per row. */
  lemma PhasesOnRow(row: Row, rule: string, hit: bool, p: Policy, at: int)
    requires row.rule == rule
    ensures var counted := CountedMiss(CountedHit(row, rule, hit, at), rule, hit, at);
      var cleared := Cleared(counted, rule, hit, Confirm(p), at);
      && AfterRound(row, hit, p, at) == (if p.manualReopen then cleared else Reopened(cleared, rule, hit, at))
      && cleared.rule == rule
      && (AutoClosed(cleared) && hit <==> AutoClosed(row) && hit)
      && (AutoClosed(cleared) && hit ==> cleared == row)
  {
  }

  lemma OtherRule(row: Row, rule: string, hit: bool, confirm: int, at: int)
    requires row.rule != rule
    ensures CountedHit(row, rule, hit, at) == row && CountedMiss(row, rule, hit, at) == row
    ensures Cleared(row, rule, hit, confirm, at) == row && Reopened(row, rule, hit, at) == row
  {
  }

  lemma MissesAfterHits(table: map<string, Row>, hits: map<string, Row>, rule: string, targets: set<string>, at: int)
    requires hits == map t | t in table :: CountedHit(table[t], rule, t in targets, at)
    ensures MissesFit(hits, rule, targets) <==> MissesFit(table, rule, targets)
  {
    assert forall t :: t in table ==> t !in targets ==> hits[t] == table[t];
    assert forall t :: t in table ==> hits[t].rule == table[t].rule;
  }

  lemma CountersDoNotFit(table: map<string, Row>, rule: string, targets: set<string>, p: Policy)
    requires !HitsFit(table, rule, targets) || !MissesFit(table, rule, targets)
    ensures !Fits(table, rule, targets, p)
  {
    if t :| t in table && table[t].rule == rule && Active(table[t]) && t in targets && table[t].hit >= STREAK_MAX {
      assert Overflows(table[t], t in targets, p);
    } else {
      var t :| t in table && table[t].rule == rule && Active(table[t]) && t !in targets && table[t].miss >= STREAK_MAX;
      assert Overflows(table[t], t in targets, p);
    }
  }

  lemma PhasesAreOneRound(table: map<string, Row>, hits: map<string, Row>, counted: map<string, Row>,
    cleared: map<string, Row>, rule: string, targets: set<string>, p: Policy, at: int)
    requires HitsFit(table, rule, targets) && MissesFit(hits, rule, targets)
    requires hits == map t | t in table :: CountedHit(table[t], rule, t in targets, at)
    requires counted == map t | t in hits :: CountedMiss(hits[t], rule, t in targets, at)
    requires cleared == map t | t in counted :: Cleared(counted[t], rule, t in targets, Confirm(p), at)
    ensures p.manualReopen ==> Fits(table, rule, targets, p) && cleared == RoundTable(table, rule, targets, p, at)
    ensures !p.manualReopen ==>
      && (Fits(table, rule, targets, p) <==> ReopensFit(cleared, rule, targets))
      && RoundTable(table, rule, targets, p, at) == map t | t in cleared :: Reopened(cleared[t], rule, t in targets, at)
  {
    hide AfterRound, CountedHit, CountedMiss, Cleared, Reopened;
    MissesAfterHits(table, hits, rule, targets, at);
    forall t | t in table && table[t].rule == rule
      ensures var hit := t in targets;
        && AfterRound(table[t], hit, p, at)
           == (if p.manualReopen then cleared[t] else Reopened(cleared[t], rule, hit, at))
        && cleared[t].rule == rule
        && (AutoClosed(cleared[t]) && hit <==> AutoClosed(table[t]) && hit)
        && (AutoClosed(cleared[t]) && hit ==> cleared[t] == table[t])
    {
      PhasesOnRow(table[t], rule, t in targets, p, at);
    }
    forall t | t in table && table[t].rule != rule
      ensures cleared[t] == table[t] && Reopened(cleared[t], rule, t in targets, at) == table[t]
    {
      OtherRule(table[t], rule, t in targets, Confirm(p), at);
    }
  }
}
