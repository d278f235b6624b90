/** Alerts over any interleaving of evaluated rounds, rule changes and operators' decisions. */
module AlertRuns {
  import opened Common
  import opened Alerts

  datatype Event =
    | SetRule(rule: string, enabled: bool)
    | Upsert(alerts: seq<Alert>)
    | Reconcile(round: string, targets: set<string>, policy: Policy, at: int)
    | Decide(target: string, status: Status, actor: string, when: int)

  const START := Db(map[], map[])

  function Step(db: Db, e: Event): Db
  {
    match e
    case SetRule(rule, enabled) => db.(rules := db.rules[rule := enabled])
    case Upsert(alerts) => db.(table := Upserted(db, alerts))
    case Reconcile(rule, targets, p, at) => db.(table := Reconciled(db.table, rule, targets, p, at))
    case Decide(t, status, actor, at) =>
      if t in db.table then db.(table := db.table[t := ManuallySet(db.table[t], status, actor, at)]) else db
  }

  function Run(db: Db, events: seq<Event>): Db
  {
    if events == [] then db else Step(Run(db, events[..|events| - 1]), events[|events| - 1])
  }

  /** How many of the steps are of a given kind for the alert `t`. */
  function Count(db: Db, events: seq<Event>, t: string, kind: (Db, Event, string) -> bool): nat
  {
    if events == [] then 0
    else
      var before := events[..|events| - 1];
      Count(db, before, t, kind) + if kind(Run(db, before), events[|events| - 1], t) then 1 else 0
  }

  // ----- what can be seen of a step from outside -----

  predicate IsAutoClosed(db: Db, t: string)
  {
    t in db.table && AutoClosed(db.table[t])
  }

  predicate IsManuallyClosed(db: Db, t: string)
  {
    t in db.table && db.table[t].status.Closed? && db.table[t].reason.Manual?
  }

  /** A round that took effect on the rule of `t`. */
  predicate RoundOn(db: Db, e: Event, t: string)
  {
    && e.Reconcile? && t in db.table && db.table[t].rule == e.round
    && e.targets != {} && Fits(db.table, e.round, e.targets, e.policy)
  }

  predicate Closing(db: Db, e: Event, t: string)
  {
    !IsAutoClosed(db, t) && IsAutoClosed(Step(db, e), t)
  }

  predicate Reopening(db: Db, e: Event, t: string)
  {
    e.Reconcile? && IsAutoClosed(db, t) && !IsAutoClosed(Step(db, e), t)
  }

  predicate Overriding(db: Db, e: Event, t: string)
  {
    e.Decide? && e.target == t && IsAutoClosed(db, t)
  }

  predicate HitInAutoRound(db: Db, e: Event, t: string)
  {
    RoundOn(db, e, t) && t in e.targets && !e.policy.manualReopen && !IsManuallyClosed(db, t)
  }

  predicate ActiveHitInManualRound(db: Db, e: Event, t: string)
  {
    RoundOn(db, e, t) && t in e.targets && e.policy.manualReopen && Active(db.table[t])
  }

  predicate MissedWhileActive(db: Db, e: Event, t: string)
  {
    RoundOn(db, e, t) && t !in e.targets && Active(db.table[t])
  }

  // ----- invariants -----

  /** A row is closed for a reason, and its counters fit their columns. */
  predicate RowOk(row: Row)
  {
    && (row.status.Closed? <==> !row.reason.NoReason?)
    && row.miss <= STREAK_MAX && row.hit <= STREAK_MAX && row.reopens <= REOPEN_MAX
  }

  predicate Inv(db: Db)
  {
    forall t :: t in db.table ==> RowOk(db.table[t])
  }

  /** What writing alerts leaves of a row: everything but its description; new rows start open and uncounted. */
  predicate Described(a: Row, b: Row)
  {
    && b.status == a.status && b.closedAt == a.closedAt && b.reason == a.reason && b.miss == a.miss && b.hit == a.hit
    && b.lastHitAt == a.lastHitAt && b.reopens == a.reopens && b.ackAt == a.ackAt && b.ackBy == a.ackBy
    && b.createdAt == a.createdAt
  }

  predicate FreshRow(row: Row)
  {
    row.status.Open? && row.reason.NoReason? && row.miss == 0 && row.hit == 0 && row.reopens == 0
  }

  lemma {:induction false} UpsertDescribes(db: Db, alerts: seq<Alert>, t: string)
    ensures t in db.table ==> t in Upserted(db, alerts) && Described(db.table[t], Upserted(db, alerts)[t])
    ensures t !in db.table && t in Upserted(db, alerts) ==> FreshRow(Upserted(db, alerts)[t])
    ensures t in Upserted(db, alerts) <==>
            t in db.table || exists i :: 0 <= i < |alerts| && Enabled(db.rules, alerts[i].rule) && alerts[i].target == t
  {
    if alerts != [] {
      var n := |alerts| - 1;
      UpsertDescribes(db, alerts[..n], t);
      assert forall i :: 0 <= i < n ==> alerts[..n][i] == alerts[i];
    }
  }

  lemma StepKeepsInv(db: Db, e: Event)
    requires Inv(db)
    ensures Inv(Step(db, e))
    ensures forall t :: t in db.table ==> t in Step(db, e).table
  {
    hide Upserted;
    if e.Upsert? {
      forall t
        ensures t in db.table ==> t in Step(db, e).table
        ensures t in Step(db, e).table ==> RowOk(Step(db, e).table[t])
      {
        UpsertDescribes(db, e.alerts, t);
      }
    } else if e.Reconcile? {
      forall t | t in db.table && RoundOn(db, e, t)
        ensures RowOk(Step(db, e).table[t])
      {
        assert !Overflows(db.table[t], t in e.targets, e.policy);
      }
    }
  }

  lemma {:induction false} RunKeepsInv(db: Db, events: seq<Event>)
    requires Inv(db)
    ensures Inv(Run(db, events))
  {
    hide Inv, Step;
    if events != [] {
      RunKeepsInv(db, events[..|events| - 1]);
      StepKeepsInv(Run(db, events[..|events| - 1]), events[|events| - 1]);
    }
  }

  // ----- the accounts of one alert -----

  function One(b: bool): nat
  {
    if b then 1 else 0
  }

  /** Only a round closes automatically, and only a round or an operator undoes it. */
  lemma StepBalances(db: Db, e: Event, t: string)
    requires Inv(db)
    ensures One(IsAutoClosed(db, t)) + One(Closing(db, e, t))
         == One(IsAutoClosed(Step(db, e), t)) + One(Reopening(db, e, t)) + One(Overriding(db, e, t))
    ensures Closing(db, e, t) ==> MissedWhileActive(db, e, t)
    ensures Reopening(db, e, t) ==> RoundOn(db, e, t) && t in e.targets && !e.policy.manualReopen
  {
    hide Upserted;
    if e.Upsert? {
      UpsertDescribes(db, e.alerts, t);
    }
  }

  /**
   * Conservation: every automatic closure is undone by a reopening of the rule,
   * overwritten by an operator, or still in force.
   */
  lemma {:induction false} AutoClosuresBalance(db: Db, events: seq<Event>, t: string)
    requires Inv(db)
    ensures One(IsAutoClosed(db, t)) + Count(db, events, t, Closing)
         == One(IsAutoClosed(Run(db, events), t)) + Count(db, events, t, Reopening) + Count(db, events, t, Overriding)
  {
    hide Step, IsAutoClosed, Inv, Closing, Reopening, Overriding;
    if events != [] {
      var before, e := events[..|events| - 1], events[|events| - 1];
      AutoClosuresBalance(db, before, t);
      RunKeepsInv(db, before);
      StepBalances(Run(db, before), e, t);
      assert Count(db, events, t, Closing) == Count(db, before, t, Closing) + One(Closing(Run(db, before), e, t));
      assert Count(db, events, t, Reopening) == Count(db, before, t, Reopening) + One(Reopening(Run(db, before), e, t));
      assert Count(db, events, t, Overriding) == Count(db, before, t, Overriding) + One(Overriding(Run(db, before), e, t));
    }
  }

  function Hits(db: Db, t: string): nat
  {
    if t in db.table then db.table[t].hit else 0
  }

  function Reopens(db: Db, t: string): nat
  {
    if t in db.table then db.table[t].reopens else 0
  }

  lemma StepCounts(db: Db, e: Event, t: string)
    requires Inv(db)
    ensures Hits(Step(db, e), t) == Hits(db, t) + One(HitInAutoRound(db, e, t)) + One(ActiveHitInManualRound(db, e, t))
    ensures Reopens(Step(db, e), t) == Reopens(db, t) + One(Reopening(db, e, t))
  {
    hide Upserted;
    if e.Upsert? {
      UpsertDescribes(db, e.alerts, t);
    }
  }

  /**
   * From an empty table: hit_streak counts every effective round that hit the
   * alert while it was not manually closed, whether or not misses came between,
   * and reopen_count counts exactly the reopenings by the rule.
   */
  lemma {:induction false} CountersCountRounds(events: seq<Event>, t: string)
    ensures var db := Run(START, events);
      && Hits(db, t) == Count(START, events, t, HitInAutoRound) + Count(START, events, t, ActiveHitInManualRound)
      && Reopens(db, t) == Count(START, events, t, Reopening)
  {
    hide Step, Inv, HitInAutoRound, ActiveHitInManualRound, Reopening;
    if events != [] {
      var before, e := events[..|events| - 1], events[|events| - 1];
      CountersCountRounds(before, t);
      StartIsInv();
      RunKeepsInv(START, before);
      var db := Run(START, before);
      StepCounts(db, e, t);
      assert Count(START, events, t, HitInAutoRound) == Count(START, before, t, HitInAutoRound) + One(HitInAutoRound(db, e, t));
      assert Count(START, events, t, ActiveHitInManualRound)
          == Count(START, before, t, ActiveHitInManualRound) + One(ActiveHitInManualRound(db, e, t));
      assert Count(START, events, t, Reopening) == Count(START, before, t, Reopening) + One(Reopening(db, e, t));
    }
  }

  lemma StartIsInv()
    ensures Inv(START)
  {
  }

  // ----- consecutive hits -----

  predicate CountedHit(db: Db, e: Event, t: string)
  {
    HitInAutoRound(db, e, t) || ActiveHitInManualRound(db, e, t)
  }

  predicate MissingRound(db: Db, e: Event, t: string)
  {
    RoundOn(db, e, t) && t !in e.targets
  }

  /** The run of hits that no effective round of the rule has broken by missing `t`. */
  function HitRun(events: seq<Event>, t: string): nat
  {
    if events == [] then 0
    else
      var before, e := events[..|events| - 1], events[|events| - 1];
      var db := Run(START, before);
      if CountedHit(db, e, t) then HitRun(before, t) + 1
      else if MissingRound(db, e, t) then 0
      else HitRun(before, t)
  }

  /** At step `i` a round misses the alert although its hit_streak is above zero. */
  predicate BreaksRun(events: seq<Event>, i: nat, t: string)
    requires i < |events|
  {
    MissingRound(Run(START, events[..i]), events[i], t) && Hits(Run(START, events[..i]), t) > 0
  }

  /**
   * hit_streak is the number of consecutive hits exactly as long as no effective
   * round missed the alert while its hit_streak was above zero.
   */
  lemma {:induction false} HitStreakIsConsecutiveIff(events: seq<Event>, t: string)
    ensures Hits(Run(START, events), t) >= HitRun(events, t)
    ensures Hits(Run(START, events), t) == HitRun(events, t) <==> forall i :: 0 <= i < |events| ==> !BreaksRun(events, i, t)
  {
    hide Step, Inv, HitInAutoRound, ActiveHitInManualRound, RoundOn, Hits;
    if events == [] {
      NoHits(t);
    } else {
      var n := |events| - 1;
      var before, e := events[..n], events[n];
      HitStreakIsConsecutiveIff(before, t);
      StartIsInv();
      RunKeepsInv(START, before);
      StepCounts(Run(START, before), e, t);
      OneHitOnly(Run(START, before), e, t);
      forall i | 0 <= i < n
        ensures BreaksRun(events, i, t) <==> BreaksRun(before, i, t)
      {
        assert before[..i] == events[..i];
      }
      assert BreaksRun(events, n, t) <==> MissingRound(Run(START, before), e, t) && Hits(Run(START, before), t) > 0;
    }
  }

  lemma NoHits(t: string)
    ensures Hits(START, t) == 0
  {
  }

  lemma OneHitOnly(db: Db, e: Event, t: string)
    ensures !(HitInAutoRound(db, e, t) && ActiveHitInManualRound(db, e, t))
    ensures CountedHit(db, e, t) ==> !MissingRound(db, e, t)
  {
  }

  // ----- when rounds close -----

  /**
   * Rounds that missed `t` while it was active, since it was inserted, was last
   * hit while active, or was reopened. Operators' decisions do not end the count.
   */
  function MissRun(events: seq<Event>, t: string): nat
  {
    if events == [] then 0
    else
      var before, e := events[..|events| - 1], events[|events| - 1];
      var db := Run(START, before);
      if MissedWhileActive(db, e, t) then MissRun(before, t) + 1
      else if (RoundOn(db, e, t) && t in e.targets && Active(db.table[t])) || Reopening(db, e, t) then 0
      else MissRun(before, t)
  }

  function Misses(db: Db, t: string): nat
  {
    if t in db.table then db.table[t].miss else 0
  }

  lemma StepMisses(db: Db, e: Event, t: string)
    requires Inv(db)
    ensures Misses(Step(db, e), t) ==
      if MissedWhileActive(db, e, t) then Misses(db, t) + 1
      else if (RoundOn(db, e, t) && t in e.targets && Active(db.table[t])) || Reopening(db, e, t) then 0
      else Misses(db, t)
  {
    hide Upserted;
    if e.Upsert? {
      UpsertDescribes(db, e.alerts, t);
    }
  }

  lemma {:induction false} MissStreakIsMissRun(events: seq<Event>, t: string)
    ensures Misses(Run(START, events), t) == MissRun(events, t)
  {
    hide Step, Inv, MissedWhileActive, RoundOn, Reopening, Misses;
    if events != [] {
      var before, e := events[..|events| - 1], events[|events| - 1];
      MissStreakIsMissRun(before, t);
      StartIsInv();
      RunKeepsInv(START, before);
      StepMisses(Run(START, before), e, t);
    } else {
      NoMisses(t);
    }
  }

  lemma NoMisses(t: string)
    ensures Misses(START, t) == 0
  {
  }

  /** A step closes an alert automatically exactly when it is the round that completes the run of misses. */
  lemma ClosesAtConfirmRounds(events: seq<Event>, e: Event, t: string)
    ensures var db := Run(START, events);
      Closing(db, e, t) <==> MissedWhileActive(db, e, t) && MissRun(events, t) + 1 >= Confirm(e.policy)
  {
    hide Upserted, Run, MissRun;
    var db := Run(START, events);
    StartIsInv();
    RunKeepsInv(START, events);
    MissStreakIsMissRun(events, t);
    StepBalances(db, e, t);
  }

  // ----- manual decisions -----

  lemma {:induction false} ManualCloseStays(db: Db, events: seq<Event>, t: string)
    requires IsManuallyClosed(db, t)
    requires forall i :: 0 <= i < |events| ==> !(events[i].Decide? && events[i].target == t)
    ensures var last := Run(db, events);
      IsManuallyClosed(last, t) && Described(db.table[t], last.table[t])
  {
    hide Upserted, RoundTable, Fits;
    if events != [] {
      var before, e := events[..|events| - 1], events[|events| - 1];
      ManualCloseStays(db, before, t);
      ManualCloseStep(Run(db, before), e, t);
    }
  }

  /** No round and no upsert touches what an operator closed. */
  lemma ManualCloseStep(db: Db, e: Event, t: string)
    requires IsManuallyClosed(db, t) && !(e.Decide? && e.target == t)
    ensures t in Step(db, e).table && Described(db.table[t], Step(db, e).table[t])
  {
    hide Upserted;
    if e.Upsert? {
      UpsertDescribes(db, e.alerts, t);
    }
  }

  // ----- the guard of a serial round -----

  lemma {:induction false} DistinctTargets(alerts: seq<Alert>)
    requires forall i :: 0 <= i < |alerts| ==> alerts[i].target != ""
    requires forall i, j :: 0 <= i < j < |alerts| ==> alerts[i].target != alerts[j].target
    ensures |Targets(alerts)| == |alerts|
  {
    if alerts == [] {
      assert Targets(alerts) == {};
    } else {
      var n := |alerts| - 1;
      DistinctTargets(alerts[..n]);
      TargetsGrow(alerts, n);
      assert alerts[..n + 1] == alerts;
      assert alerts[n].target !in Targets(alerts[..n]);
    }
  }

  /** The alerts of the rule that a round closes. */
  function Closed(table: map<string, Row>, next: map<string, Row>, rule: string): set<string>
  {
    set t | t in ActiveTargets(table, rule) && t in next && !Active(next[t])
  }

  /**
   * The closures are at most the share of the open alerts that the guard
   * leaves, up to the rounding of that share, plus the targets without an active row.
   */
  ghost predicate WithinGuard(table: map<string, Row>, next: map<string, Row>, rule: string, targets: set<string>,
    ratio: real)
  {
    var open := |ActiveTargets(table, rule)| as real;
    var share := ratio * open;
    |Closed(table, next, rule)| as real
    <= open - share + share * ROUNDING + |targets - ActiveTargets(table, rule)| as real
  }

  /**
   * A round that passes the guard closes at most the share of the open alerts
   * that the guard leaves, plus the hit targets that have no active row.
   */
  lemma ClosuresAreBounded(table: map<string, Row>, rule: string, alerts: seq<Alert>, p: Policy, ratio: real,
    fl: real -> real, at: int)
    requires Float64(fl)
    requires forall i :: 0 <= i < |alerts| ==> alerts[i].target != ""
    requires forall i, j :: 0 <= i < j < |alerts| ==> alerts[i].target != alerts[j].target
    requires !CloseGuarded(|alerts|, |ActiveTargets(table, rule)|, ratio, fl)
    ensures WithinGuard(table, Reconciled(table, rule, Targets(alerts), p, at), rule, Targets(alerts), ratio)
  {
    hide Targets, ActiveTargets, Closed, Reconciled, Float64, CloseGuarded;
    var next, active, targets := Reconciled(table, rule, Targets(alerts), p, at), ActiveTargets(table, rule), Targets(alerts);
    DistinctTargets(alerts);
    ClosedWereMissed(table, rule, targets, p, at);
    MissedSize(Closed(table, next, rule), active, targets);
    GuardBound(|Closed(table, next, rule)|, |active|, |alerts|, |targets - active|, ratio, fl);
  }

  lemma MissedSize(closed: set<string>, active: set<string>, targets: set<string>)
    requires closed <= active - targets
    ensures |closed| <= |active| - |targets| + |targets - active|
  {
    SubsetSize(closed, active - targets);
    assert active == (active - targets) + (active * targets);
    assert targets == (targets - active) + (active * targets);
  }

  lemma GuardBound(closed: nat, open: nat, hits: nat, extra: nat, ratio: real, fl: real -> real)
    requires closed <= open - hits + extra && Float64(fl) && !CloseGuarded(hits, open, ratio, fl)
    ensures var share := ratio * open as real; closed as real <= open as real - share + share * ROUNDING + extra as real
  {
    var share := ratio * open as real;
    assert share - share * ROUNDING <= hits as real;
    assert closed as real <= open as real - hits as real + extra as real;
  }

  lemma ClosedWereMissed(table: map<string, Row>, rule: string, targets: set<string>, p: Policy, at: int)
    ensures Closed(table, Reconciled(table, rule, targets, p, at), rule) <= ActiveTargets(table, rule) - targets
  {
  }

  // ----- one evaluated round of a rule -----

  datatype Candidate = Candidate(tenant: string, org: string, target: string, title: string, due: int)

  function AlertOf(rule: string, severity: string, c: Candidate, at: int): Alert
  {
    Alert(c.tenant, rule, severity, c.org, c.target, c.title, c.due, at)
  }

  function AlertsOf(rule: string, severity: string, candidates: seq<Candidate>, at: int): seq<Alert>
  {
    seq(|candidates|, i requires 0 <= i < |candidates| => AlertOf(rule, severity, candidates[i], at))
  }

  /** Which of the calls of a round fail: the two licence checks, the upsert and the reconciliation. */
  datatype Faults = Faults(licensed: bool, upserts: bool, stillLicensed: bool, reconciles: bool)

  /** The table after the alerts of a round are written and, when nothing forbids it, reconciled. */
  function Evaluated(tenant: string, db: Db, rule: string, alerts: seq<Alert>, o: Lifecycle, at: int,
    fl: real -> real, f: Faults): map<string, Row>
  {
    var own := forall i :: 0 <= i < |alerts| ==> alerts[i].tenant == tenant;
    if !f.licensed || Blank(tenant) || !own || !(f.upserts || alerts == []) then db.table
    else
      var written := Upserted(db, alerts);
      if !o.autoResolve || Blank(rule) || Guarded(written, rule, alerts, o, fl)
         || !f.stillLicensed || !f.reconciles then written
      else Reconciled(written, rule, Targets(alerts), Normalized(o).policy, at)
  }

  predicate Guarded(written: map<string, Row>, rule: string, alerts: seq<Alert>, o: Lifecycle, fl: real -> real)
  {
    CloseGuarded(|alerts|, |ActiveTargets(written, rule)|, Normalized(o).ratio, fl)
  }

  /** A round reports no error: it stopped before reconciling for a good reason, or reconciled in full. */
  predicate Completes(tenant: string, db: Db, rule: string, alerts: seq<Alert>, o: Lifecycle, fl: real -> real, f: Faults)
  {
    && f.licensed && !Blank(tenant) && (f.upserts || alerts == [])
    && (forall i :: 0 <= i < |alerts| ==> alerts[i].tenant == tenant)
    && (o.autoResolve ==>
          && !Blank(rule)
          && var written := Upserted(db, alerts);
          && (!Guarded(written, rule, alerts, o, fl) ==>
                && f.stillLicensed
                && (Targets(alerts) == {} || (f.reconciles && Fits(written, rule, Targets(alerts), Normalized(o).policy)))))
  }

  class Worker {
    var lifecycle: Lifecycle

    constructor (o: Lifecycle)
      ensures lifecycle == Normalized(o)
    {
      lifecycle := Normalized(o);
    }

    /** Writes what the candidates call for, then reconciles unless the hits shrank too much. */
    method EvaluateContractExpiry(store: AlertTable, rule: string, severity: string, candidates: seq<Candidate>,
      at: int, fl: real -> real, f: Faults) returns (processed: nat, ok: bool)
      modifies store`table
      ensures store.table ==
        Evaluated(store.tenant, old(store.View()), rule, AlertsOf(rule, severity, candidates, at), lifecycle, at, fl, f)
      ensures ok <==>
        Completes(store.tenant, old(store.View()), rule, AlertsOf(rule, severity, candidates, at), lifecycle, fl, f)
      ensures ok ==> processed == |candidates|
      ensures !ok ==> processed == 0
    {
      hide Upserted, Reconciled, Blank, Targets, ActiveTargets, Normalized, CloseGuarded, Fits;
      processed, ok := 0, false;
      var alerts: seq<Alert> := [];
      for i := 0 to |candidates|
        invariant alerts == AlertsOf(rule, severity, candidates[..i], at)
      {
        alerts := alerts + [AlertOf(rule, severity, candidates[i], at)];
        assert candidates[..i + 1] == candidates[..i] + [candidates[i]];
      }
      assert candidates[..|candidates|] == candidates;
      if !f.licensed {
        return;
      }
      var written := store.UpsertAlerts(alerts, f.upserts);
      if !written {
        return;
      }
      var options := Normalized(lifecycle);
      NormalizedKeepsSwitch(lifecycle);
      if !options.autoResolve {
        return |alerts|, true;
      }
      if Blank(rule) {
        return;
      }
      var open := store.CountActiveAlerts(rule);
      if CloseGuarded(|alerts|, open, options.ratio, fl) {
        return |alerts|, true;
      }
      if !f.stillLicensed {
        return;
      }
      FailedRoundIsNoRound(store.table, rule, Targets(alerts), options.policy, at);
      var reconciled := store.ReconcileAlerts(rule, alerts, at, options.policy, f.reconciles);
      if !reconciled {
        return;
      }
      return |alerts|, true;
    }
  }

  lemma NormalizedKeepsSwitch(o: Lifecycle)
    ensures Normalized(o).autoResolve == o.autoResolve
  {
  }

  lemma FailedRoundIsNoRound(table: map<string, Row>, rule: string, targets: set<string>, p: Policy, at: int)
    ensures !Fits(table, rule, targets, p) || targets == {} ==> Reconciled(table, rule, targets, p, at) == table
  {
  }

  /** Whatever the configured ratio was, an evaluated round respects the bound of the effective one. */
  lemma EvaluationClosesFew(tenant: string, db: Db, rule: string, alerts: seq<Alert>, o: Lifecycle, at: int,
    fl: real -> real, f: Faults)
    requires Float64(fl)
    requires forall i :: 0 <= i < |alerts| ==> alerts[i].target != ""
    requires forall i, j :: 0 <= i < j < |alerts| ==> alerts[i].target != alerts[j].target
    ensures var written, ratio := Upserted(db, alerts), Normalized(o).ratio;
      var next := Evaluated(tenant, db, rule, alerts, o, at, fl, f);
      && 0.0 < ratio <= 1.0
      && (next == db.table || next == written || WithinGuard(written, next, rule, Targets(alerts), ratio))
  {
    hide Upserted, ActiveTargets, Reconciled, Targets, WithinGuard, CloseGuarded, Float64;
    var written := Upserted(db, alerts);
    if !CloseGuarded(|alerts|, |ActiveTargets(written, rule)|, Normalized(o).ratio, fl) {
      ClosuresAreBounded(written, rule, alerts, Normalized(o).policy, Normalized(o).ratio, fl, at);
    }
  }

  // ----- the width of the counters -----

  /** While one active alert has a full counter, no round that hits it does anything at all. */
  lemma FullCounterStopsRule(db: Db, e: Event, t: string)
    requires t in db.table && Active(db.table[t]) && db.table[t].hit == STREAK_MAX
    requires e.Reconcile? && e.round == db.table[t].rule && t in e.targets
    ensures Step(db, e) == db
  {
    assert Overflows(db.table[t], t in e.targets, e.policy);
  }

  lemma RunAppend(db: Db, events: seq<Event>, e: Event)
    ensures Run(db, events + [e]) == Step(Run(db, events), e)
  {
    assert (events + [e])[..|events|] == events;
  }

  function Repeated(e: Event, n: nat): seq<Event>
  {
    if n == 0 then [] else Repeated(e, n - 1) + [e]
  }

  predicate OnlyAlert(db: Db, rule: string, t: string, hits: nat)
  {
    && db.table.Keys == {t} && db.table[t].rule == rule && Active(db.table[t])
    && db.table[t].hit == (if hits <= STREAK_MAX then hits else STREAK_MAX)
  }

  /**
   * Concretely: one contract that stays within its window is hit round after
   * round; from the 256th hit on, reconciliation of the rule fails.
   */
  lemma {:induction false} HitStreakFillsUp(rule: string, a: Alert, p: Policy, at: int, n: nat)
    requires a.rule == rule
    ensures var e := Reconcile(rule, {a.target}, p, at);
      var db := Run(Run(START, [SetRule(rule, true), Upsert([a])]), Repeated(e, n));
      OnlyAlert(db, rule, a.target, n) && (n >= STREAK_MAX ==> Step(db, e) == db)
  {
    hide Run, Step;
    var e := Reconcile(rule, {a.target}, p, at);
    var first := Run(START, [SetRule(rule, true), Upsert([a])]);
    if n == 0 {
      FirstAlert(rule, a);
      EmptyRun(first);
    } else {
      HitStreakFillsUp(rule, a, p, at, n - 1);
      RunAppend(first, Repeated(e, n - 1), e);
      OneMoreHit(Run(first, Repeated(e, n - 1)), rule, a.target, p, at, n - 1);
    }
    if n >= STREAK_MAX {
      FullCounterStopsRule(Run(first, Repeated(e, n)), e, a.target);
    }
  }

  lemma EmptyRun(db: Db)
    ensures Run(db, []) == db
  {
  }

  lemma FirstAlert(rule: string, a: Alert)
    requires a.rule == rule
    ensures OnlyAlert(Run(START, [SetRule(rule, true), Upsert([a])]), rule, a.target, 0)
  {
    EmptyRun(START);
    RunAppend(START, [], SetRule(rule, true));
    assert [] + [SetRule(rule, true)] == [SetRule(rule, true)];
    RunAppend(START, [SetRule(rule, true)], Upsert([a]));
    assert [SetRule(rule, true)] + [Upsert([a])] == [SetRule(rule, true), Upsert([a])];
    var db := Db(map[rule := true], map[]);
    assert Run(START, [SetRule(rule, true)]) == db;
    assert [a][..0] == [];
    assert Upserted(db, []) == map[];
    assert Upserted(db, [a]) == map[a.target := Inserted(a)];
  }

  lemma OneMoreHit(db: Db, rule: string, t: string, p: Policy, at: int, hits: nat)
    requires OnlyAlert(db, rule, t, hits)
    ensures OnlyAlert(Step(db, Reconcile(rule, {t}, p, at)), rule, t, hits + 1)
  {
    if db.table[t].hit >= STREAK_MAX {
      assert Overflows(db.table[t], t in {t}, p);
    }
  }

  // ----- hits that are not consecutive -----

  /** Two open alerts of the rule and nothing else, with their counters. */
  predicate Pair(db: Db, rule: string, s: string, t: string, hits: (nat, nat), misses: (nat, nat))
  {
    && s != t && db.table.Keys == {s, t}
    && db.table[s].rule == rule && Active(db.table[s]) && db.table[s].hit == hits.0 && db.table[s].miss == misses.0
    && db.table[t].rule == rule && Active(db.table[t]) && db.table[t].hit == hits.1 && db.table[t].miss == misses.1
  }

  lemma PairRound(db: Db, rule: string, s: string, t: string, hits: (nat, nat), misses: (nat, nat), p: Policy, at: int)
    requires Pair(db, rule, s, t, hits, misses) && misses.1 + 1 < Confirm(p)
    requires hits.0 < STREAK_MAX && misses.1 < STREAK_MAX
    ensures var e := Reconcile(rule, {s}, p, at);
      && Pair(Step(db, e), rule, s, t, (hits.0 + 1, hits.1), (0, misses.1 + 1))
      && CountedHit(db, e, s) && !CountedHit(db, e, t) && MissingRound(db, e, t)
  {
  }

  lemma PairSwapped(db: Db, rule: string, s: string, t: string, hits: (nat, nat), misses: (nat, nat))
    requires Pair(db, rule, s, t, hits, misses)
    ensures Pair(db, rule, t, s, (hits.1, hits.0), (misses.1, misses.0))
  {
  }

  lemma FirstPair(rule: string, a: Alert, b: Alert)
    requires a.rule == rule && b.rule == rule && a.target != b.target
    ensures var events := [SetRule(rule, true), Upsert([a, b])];
      && Pair(Run(START, events), rule, a.target, b.target, (0, 0), (0, 0))
      && HitRun(events, a.target) == 0
  {
    var first, events := [SetRule(rule, true)], [SetRule(rule, true), Upsert([a, b])];
    var db := Db(map[rule := true], map[]);
    EmptyRun(START);
    RunAppend(START, [], SetRule(rule, true));
    assert [] + first == first;
    assert Run(START, first) == db;
    RunAppend(START, first, Upsert([a, b]));
    assert first + [Upsert([a, b])] == events;
    assert [a, b][..1] == [a] && [a][..0] == [];
    assert Upserted(db, []) == map[];
    assert Upserted(db, [a]) == map[a.target := Inserted(a)];
    assert Upserted(db, [a, b]) == map[a.target := Inserted(a), b.target := Inserted(b)];
    assert events[..1] == first && first[..0] == [];
    assert HitRun(first, a.target) == 0;
  }

  lemma HitRunAppend(events: seq<Event>, e: Event, t: string)
    ensures var db := Run(START, events);
      HitRun(events + [e], t) ==
      if CountedHit(db, e, t) then HitRun(events, t) + 1 else if MissingRound(db, e, t) then 0 else HitRun(events, t)
  {
    assert (events + [e])[..|events|] == events;
  }

  /**
   * Concretely: of two alerts of a rule one is hit, then the other, then the
   * first again. Its hit_streak is 2, and only one of these hits is consecutive.
   */
  lemma HitMissHit(rule: string, a: Alert, b: Alert, p: Policy, at: int)
    requires a.rule == rule && b.rule == rule && a.target != b.target && 2 <= p.confirm
    ensures var hitA, hitB := Reconcile(rule, {a.target}, p, at), Reconcile(rule, {b.target}, p, at);
      var events := [SetRule(rule, true), Upsert([a, b])] + [hitA] + [hitB] + [hitA];
      Hits(Run(START, events), a.target) == 2 && HitRun(events, a.target) == 1
  {
    hide Pair, Run, Step, HitRun, CountedHit, MissingRound, Hits;
    var s, t := a.target, b.target;
    var hitA, hitB := Reconcile(rule, {s}, p, at), Reconcile(rule, {t}, p, at);
    var zero := [SetRule(rule, true), Upsert([a, b])];
    var one, two := zero + [hitA], zero + [hitA] + [hitB];
    FirstPair(rule, a, b);
    PairRound(Run(START, zero), rule, s, t, (0, 0), (0, 0), p, at);
    RunAppend(START, zero, hitA);
    HitRunAppend(zero, hitA, s);
    PairSwapped(Run(START, one), rule, s, t, (1, 0), (0, 1));
    PairRound(Run(START, one), rule, t, s, (0, 1), (1, 0), p, at);
    RunAppend(START, one, hitB);
    HitRunAppend(one, hitB, s);
    PairSwapped(Run(START, two), rule, t, s, (1, 1), (0, 1));
    PairRound(Run(START, two), rule, s, t, (1, 1), (1, 0), p, at);
    RunAppend(START, two, hitA);
    HitRunAppend(two, hitA, s);
    PairHits(Run(START, two + [hitA]), rule, s, t, (2, 1), (0, 1));
  }

  lemma PairHits(db: Db, rule: string, s: string, t: string, hits: (nat, nat), misses: (nat, nat))
    requires Pair(db, rule, s, t, hits, misses)
    ensures Hits(db, s) == hits.0
  {
  }
}
