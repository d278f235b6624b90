/** Every column of an alert row, told from the events alone. */
module AlertStories {
  import opened Common
  import opened Alerts
  import opened AlertRuns

  /** A row without its counters, which the runs describe on their own. */
  datatype Story = Story(
    rule: string, severity: string, org: string, title: string, due: int,
    status: Status, reason: Reason, closedAt: Option<int>, lastHitAt: Option<int>,
    ackAt: Option<int>, ackBy: string, createdAt: int, updatedAt: int)

  function StoryOf(row: Row): Story
  {
    Story(row.rule, row.severity, row.org, row.title, row.due, row.status, row.reason, row.closedAt, row.lastHitAt,
          row.ackAt, row.ackBy, row.createdAt, row.updatedAt)
  }

  // ----- which alerts of a batch count -----

  /** The alerts of enabled rules for one target, in order. */
  function AlertsFor(rules: map<string, bool>, alerts: seq<Alert>, t: string): seq<Alert>
  {
    if alerts == [] then []
    else
      var a := alerts[|alerts| - 1];
      AlertsFor(rules, alerts[..|alerts| - 1], t) + if a.target == t && a.rule in rules && rules[a.rule] then [a] else []
  }

  /** The story after alerts are written: told anew by the last of them, begun by the first if there was none. */
  function Written(was: Option<Story>, alerts: seq<Alert>): Option<Story>
  {
    if alerts == [] then was
    else
      var first, last := alerts[0], alerts[|alerts| - 1];
      if was.Some? then
        Some(was.value.(rule := last.rule, severity := last.severity, org := last.org, title := last.title,
                        due := last.due, updatedAt := last.at))
      else
        Some(Story(last.rule, last.severity, last.org, last.title, last.due, Open, NoReason, None, None, None, "",
                   first.at, last.at))
  }

  function StoryIn(table: map<string, Row>, t: string): Option<Story>
  {
    if t in table then Some(StoryOf(table[t])) else None
  }

  /** Writing alerts leaves the last description of each target, and dates a new row by its first alert. */
  lemma {:induction false} UpsertTells(db: Db, alerts: seq<Alert>, t: string)
    ensures StoryIn(Upserted(db, alerts), t) == Written(StoryIn(db.table, t), AlertsFor(db.rules, alerts, t))
  {
    if alerts != [] {
      var init := alerts[..|alerts| - 1];
      UpsertTells(db, init, t);
      var before, all := AlertsFor(db.rules, init, t), AlertsFor(db.rules, alerts, t);
      assert before != [] && all != [] ==> all[0] == before[0];
    }
  }

  lemma {:induction false} OnlyAlertFor(rules: map<string, bool>, alerts: seq<Alert>, i: nat)
    requires i < |alerts| && alerts[i].rule in rules && rules[alerts[i].rule]
    requires forall a, b :: 0 <= a < b < |alerts| ==> alerts[a].target != alerts[b].target
    ensures AlertsFor(rules, alerts, alerts[i].target) == [alerts[i]]
  {
    var n := |alerts| - 1;
    if i < n {
      OnlyAlertFor(rules, alerts[..n], i);
    } else {
      NoAlertFor(rules, alerts[..n], alerts[n].target);
    }
  }

  lemma {:induction false} NoAlertFor(rules: map<string, bool>, alerts: seq<Alert>, t: string)
    requires forall i :: 0 <= i < |alerts| ==> alerts[i].target != t
    ensures AlertsFor(rules, alerts, t) == []
  {
    if alerts != [] {
      NoAlertFor(rules, alerts[..|alerts| - 1], t);
    }
  }

  /** Writing the alerts of a round describes the row of every candidate as the candidate is. */
  lemma CandidatesAreWritten(db: Db, rule: string, severity: string, candidates: seq<Candidate>, at: int, i: nat)
    requires i < |candidates| && rule in db.rules && db.rules[rule]
    requires forall a, b :: 0 <= a < b < |candidates| ==> candidates[a].target != candidates[b].target
    ensures var table := Upserted(db, AlertsOf(rule, severity, candidates, at));
      && candidates[i].target in table
      && var row := table[candidates[i].target];
      && row.rule == rule && row.severity == severity && row.org == candidates[i].org && row.title == candidates[i].title
      && row.due == candidates[i].due && row.updatedAt == at
      && (candidates[i].target !in db.table ==> row.status.Open? && row.createdAt == at && row.lastHitAt.None?)
  {
    hide Upserted;
    var alerts := AlertsOf(rule, severity, candidates, at);
    OnlyAlertFor(db.rules, alerts, i);
    UpsertTells(db, alerts, candidates[i].target);
  }

  // ----- the story of an alert -----

  /** What a decision of an operator makes of the story. */
  function Decided(was: Story, status: Status, actor: string, at: int): Story
  {
    match status
    case Closed => was.(status := Status.Closed, reason := Manual, closedAt := Some(at), updatedAt := at)
    case Open => was.(status := Open, reason := NoReason, closedAt := None, updatedAt := at)
    case Ack => was.(status := Ack, reason := NoReason, closedAt := None, ackAt := Some(at), ackBy := actor, updatedAt := at)
  }

  /**
   * What an effective round makes of it, `misses` being the rounds that missed
   * it in a row: a hit is dated, the miss that completes the run closes it, and
   * a hit opens again what a round has closed unless that is left to operators.
   */
  function RoundTold(was: Story, hit: bool, misses: nat, p: Policy, at: int): Story
  {
    if was.status != Status.Closed then
      (if hit then was.(lastHitAt := Some(at), updatedAt := at)
       else if misses + 1 >= p.confirm then
         was.(status := Status.Closed, reason := ConditionCleared, closedAt := Some(at), updatedAt := at)
       else was.(updatedAt := at))
    else if hit && was.reason != Manual && !p.manualReopen then
      was.(status := Open, reason := NoReason, closedAt := None, lastHitAt := Some(at), updatedAt := at)
    else was
  }

  function Told(events: seq<Event>, t: string): Option<Story>
  {
    if events == [] then None
    else
      var before, e := events[..|events| - 1], events[|events| - 1];
      var db, was := Run(START, before), Told(before, t);
      match e
      case SetRule(_, _) => was
      case Upsert(alerts) => Written(was, AlertsFor(db.rules, alerts, t))
      case Decide(target, status, actor, when) =>
        if target == t && was.Some? then Some(Decided(was.value, status, actor, when)) else was
      case Reconcile(_, targets, p, at) =>
        if was.Some? && RoundOn(db, e, t) then Some(RoundTold(was.value, t in targets, MissRun(before, t), p, at)) else was
  }

  lemma StepTells(before: seq<Event>, e: Event, t: string)
    requires Inv(Run(START, before)) && StoryIn(Run(START, before).table, t) == Told(before, t)
    requires Misses(Run(START, before), t) == MissRun(before, t)
    ensures StoryIn(Step(Run(START, before), e).table, t) == Told(before + [e], t)
  {
    hide Run, MissRun, Upserted, AlertsFor, Written, Fits;
    assert (before + [e])[..|before + [e]| - 1] == before;
    if e.Upsert? {
      UpsertTells(Run(START, before), e.alerts, t);
    }
  }

  /**
   * After any events a row is there exactly if an alert of an enabled rule was
   * written for its target, and each of its columns is what the events tell:
   * the last description, the decision or round that set its status and when,
   * the last hit that counted, and the last acknowledgement.
   */
  lemma {:induction false} RowsTellTheirStory(events: seq<Event>, t: string)
    ensures StoryIn(Run(START, events).table, t) == Told(events, t)
  {
    hide Step, StoryIn, Inv, Misses;
    if events == [] {
      NoStory(t);
    } else {
      var before, e := events[..|events| - 1], events[|events| - 1];
      RowsTellTheirStory(before, t);
      StartIsInv();
      RunKeepsInv(START, before);
      MissStreakIsMissRun(before, t);
      StepTells(before, e, t);
      assert events == before + [e];
    }
  }

  lemma NoStory(t: string)
    ensures StoryIn(START.table, t).None?
  {
  }

  // ----- when a round fits -----

  /** The counters stay within their columns: one byte, one byte, four bytes. */
  predicate WithinColumns(row: Row)
  {
    row.miss <= 255 && row.hit <= 255 && row.reopens <= 4294967295
  }

  /** A round fits exactly when every row it would leave stays within the columns. */
  lemma FitsIff(db: Db, rule: string, targets: set<string>, p: Policy, at: int)
    requires Inv(db)
    ensures Fits(db.table, rule, targets, p) <==>
            forall t :: t in db.table ==> WithinColumns(RoundTable(db.table, rule, targets, p, at)[t])
  {
    forall t | t in db.table && db.table[t].rule == rule
      ensures Overflows(db.table[t], t in targets, p) <==> !WithinColumns(AfterRound(db.table[t], t in targets, p, at))
    {
      assert RowOk(db.table[t]);
    }
    if forall t :: t in db.table ==> WithinColumns(RoundTable(db.table, rule, targets, p, at)[t]) {
      forall t | t in db.table && db.table[t].rule == rule
        ensures !Overflows(db.table[t], t in targets, p)
      {
        assert WithinColumns(RoundTable(db.table, rule, targets, p, at)[t]);
      }
    }
  }

  // ----- when an evaluation reconciles -----

  /** From above: a float64 product gains at most one part in 2^53, and none below one exceeds it. */
  ghost predicate RoundsUpLittle(fl: real -> real)
  {
    forall x :: 0.0 <= x ==> fl(x) <= if x < 1.0 then 1.0 else x + x * ROUNDING
  }

  /** With enough hits and no failing call, an evaluation does reconcile: the guard fires for too few hits only. */
  lemma EvaluationReconciles(tenant: string, db: Db, rule: string, alerts: seq<Alert>, o: Lifecycle, at: int,
    fl: real -> real, f: Faults)
    requires RoundsUpLittle(fl) && alerts != [] && o.autoResolve && f == Faults(true, true, true, true)
    requires !Blank(tenant) && !Blank(rule) && forall i :: 0 <= i < |alerts| ==> alerts[i].tenant == tenant
    requires var share := Normalized(o).ratio * |ActiveTargets(Upserted(db, alerts), rule)| as real;
      share + share * ROUNDING <= |alerts| as real
    ensures Evaluated(tenant, db, rule, alerts, o, at, fl, f)
         == Reconciled(Upserted(db, alerts), rule, Targets(alerts), Normalized(o).policy, at)
  {
    hide Upserted, ActiveTargets, Reconciled, Targets, Blank, CloseGuarded, Normalized;
    GuardLetsPass(|alerts|, |ActiveTargets(Upserted(db, alerts), rule)|, Normalized(o).ratio, fl) by {
      RatioIsPositive(o);
    }
  }

  /** A failing call stops the round where it is: it reports an error, writes nothing unlicensed, and closes nothing. */
  lemma FailuresStopTheRound(tenant: string, db: Db, rule: string, alerts: seq<Alert>, o: Lifecycle, at: int,
    fl: real -> real, f: Faults)
    ensures var next := Evaluated(tenant, db, rule, alerts, o, at, fl, f);
      && (!f.licensed || Blank(tenant) || (!f.upserts && alerts != []) ==>
            next == db.table && !Completes(tenant, db, rule, alerts, o, fl, f))
      && (!f.stillLicensed || !f.reconciles || !o.autoResolve || Blank(rule) ==>
            next == db.table || next == Upserted(db, alerts))
      && (!f.stillLicensed && o.autoResolve && !Guarded(Upserted(db, alerts), rule, alerts, o, fl) ==>
            !Completes(tenant, db, rule, alerts, o, fl, f))
  {
    hide Upserted, Reconciled, Targets, Blank, Normalized, Guarded, Fits;
  }

  lemma RatioIsPositive(o: Lifecycle)
    ensures 0.0 < Normalized(o).ratio <= 1.0
  {
  }

  lemma GuardLetsPass(hits: nat, open: nat, ratio: real, fl: real -> real)
    requires RoundsUpLittle(fl) && hits > 0 && 0.0 < ratio
    requires ratio * open as real + ratio * open as real * ROUNDING <= hits as real
    ensures !CloseGuarded(hits, open, ratio, fl)
  {
    var share := ratio * open as real;
    assert 0.0 <= share;
    assert fl(share) <= if share < 1.0 then 1.0 else share + share * ROUNDING;
  }
}
