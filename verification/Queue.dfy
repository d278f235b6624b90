/**
 * The leased job queue of one tenant: the transactions on `sync_job`, the fence
 * that every aggregation write passes, and the source watermarks that finishing
 * a job advances.
 *
 * A transaction locks the job row first, so it is one step of the model. What
 * can still happen inside it is that time passes: `wait` is how far the database
 * clock moves between the moments the transaction reads it.
 */
module Queue {
  import opened Common

  const ERROR_LIMIT: nat := 512

  datatype Status = Queued | Running | Success | Failed

  datatype Job = Job(
    source: string, subsystem: string, status: Status,
    startedAt: Option<int>, finishedAt: Option<int>, error: Option<string>,
    active: bool, owner: Option<string>, generation: nat, expiresAt: Option<int>)

  datatype Lease = Lease(job: string, owner: string, generation: nat)

  /** A row of `sync_source`: the watermark of the last round that counts. */
  datatype Mark = Mark(lastRunAt: Option<int>, ok: bool, error: Option<string>)

  datatype Round = Round(subsystem: string, at: int, ok: bool, error: Option<string>)

  datatype Audit = Audit(job: string, operator: string, digest: string, at: int)

  /**
   * The tables and the clock. `log` and `rounds` are observations: the fenced
   * writes that committed and the rounds that tried to move a watermark.
   */
  datatype Db = Db(
    now: int, jobs: map<string, Job>, marks: map<string, Mark>, audits: seq<Audit>,
    log: seq<Lease>, rounds: seq<Round>)

  datatype Outcome = Pause | Succeed | Fail(error: string)

  datatype Recovery = Recovery(
    ids: seq<string>, operator: string, before: Option<string>, after: Option<string>)

  // ----- the transactions, as the tables they leave behind -----

  predicate Holds(row: Job, l: Lease, at: int)
  {
    && row.status.Running?
    && row.owner == Some(l.owner)
    && row.generation == l.generation
    && row.expiresAt.Some?
    && at < row.expiresAt.value
  }

  /** The token passes the fence at the given time. */
  predicate Passes(db: Db, l: Lease, at: int)
  {
    l.job in db.jobs && Holds(db.jobs[l.job], l, at)
  }

  /** The unique key over tenant, source and active slot. */
  predicate SlotTaken(jobs: map<string, Job>, id: string, source: string)
  {
    exists other :: other in jobs && other != id && jobs[other].active && jobs[other].source == source
  }

  predicate Expired(row: Job, at: int)
  {
    row.status.Running? && row.owner.Some? && row.expiresAt.Some? && row.expiresAt.value <= at
  }

  predicate Claimable(db: Db, id: string, seen: nat, at: int)
  {
    && id in db.jobs
    && db.jobs[id].generation == seen
    && (db.jobs[id].status.Queued? || Expired(db.jobs[id], at))
    && !SlotTaken(db.jobs, id, db.jobs[id].source)
  }

  predicate Legacy(row: Job)
  {
    row.status.Running? && row.owner.None? && row.generation == 0 && row.expiresAt.None?
  }

  predicate SelectsLegacy(jobs: map<string, Job>, ids: seq<string>)
  {
    && 1 <= |ids| <= 100
    && (forall i :: 0 <= i < |ids| ==> ids[i] != "" && ids[i] in jobs && Legacy(jobs[ids[i]]))
    && (forall i, j :: 0 <= i < j < |ids| ==> ids[i] != ids[j])
  }

  predicate Recoverable(db: Db, r: Recovery)
  {
    && r.operator != "" && |r.operator| <= 128
    && SelectsLegacy(db.jobs, r.ids)
    && r.before.Some? && r.after == r.before
  }

  function Claimed(row: Job, owner: string, at: int, duration: int): Job
  {
    row.(status := Running, startedAt := Some(at), finishedAt := None, error := None, active := true,
         owner := Some(owner), generation := row.generation + 1, expiresAt := Some(at + duration))
  }

  function Requeued(row: Job): Job
  {
    row.(status := Queued, startedAt := None, finishedAt := None, error := None, active := true)
  }

  function RequeuedAll(jobs: map<string, Job>, ids: seq<string>): map<string, Job>
  {
    map id | id in jobs :: if id in ids then Requeued(jobs[id]) else jobs[id]
  }

  function AuditsOf(ids: seq<string>, operator: string, digest: string, at: int): seq<Audit>
  {
    seq(|ids|, i requires 0 <= i < |ids| => Audit(ids[i], operator, digest, at))
  }

  function Finished(row: Job, outcome: Outcome, at: int): Job
  {
    var released := row.(owner := None, expiresAt := None);
    match outcome
    case Pause => released.(status := Queued, startedAt := None, finishedAt := None, error := None, active := true)
    case Succeed => released.(status := Success, finishedAt := Some(at), error := None, active := false)
    case Fail(e) => released.(status := Failed, finishedAt := Some(at), error := Some(e), active := false)
  }

  /** The guarded update of one watermark row. */
  function Marked(marks: map<string, Mark>, r: Round): map<string, Mark>
  {
    if r.subsystem != "" && r.subsystem in marks
       && (marks[r.subsystem].lastRunAt.None? || marks[r.subsystem].lastRunAt.value <= r.at)
    then marks[r.subsystem := Mark(Some(r.at), r.ok, r.error)]
    else marks
  }

  /** The part of a failure that a watermark row keeps. */
  function Clipped(error: string): (kept: string)
    ensures |error| <= ERROR_LIMIT ==> kept == error
    ensures |error| > ERROR_LIMIT ==> |kept| == ERROR_LIMIT && kept[..509] == error[..509] && kept[509..] == "..."
  {
    if |error| <= ERROR_LIMIT then error else error[..ERROR_LIMIT - 3] + "..."
  }

  function RoundOf(row: Job, outcome: Outcome, at: int): Round
    requires !outcome.Pause?
  {
    Round(row.subsystem, if row.startedAt.Some? then row.startedAt.value else at,
          outcome.Succeed?, if outcome.Fail? then Some(Clipped(outcome.error)) else None)
  }

  datatype Event =
    | Tick(wait: nat)
    | Create(id: string, source: string, subsystem: string)
    | Claim(id: string, seen: nat, owner: string, duration: int, wait: nat)
    | Write(lease: Lease, wait: nat, aborted: bool)
    | Renew(lease: Lease, duration: int, wait: nat)
    | Finish(lease: Lease, outcome: Outcome, wait: nat)
    | Recover(recovery: Recovery, wait: nat)
    | MarkRound(round: Round)

  function Elapse(e: Event): nat
  {
    match e
    case Create(_, _, _) => 0
    case MarkRound(_) => 0
    case _ => e.wait
  }

  /** What one transaction leaves behind; a transaction that fails leaves the tables alone. */
  function Step(db: Db, e: Event): Db
  {
    var late := db.(now := db.now + Elapse(e));
    match e
    case Tick(_) => late
    case Create(id, source, subsystem) =>
      if id in db.jobs || SlotTaken(db.jobs, id, source) then late
      else late.(jobs := db.jobs[id := Job(source, subsystem, Queued, None, None, None, true, None, 0, None)])
    case Claim(id, seen, owner, duration, _) =>
      if !Claimable(db, id, seen, late.now) then late
      else late.(jobs := db.jobs[id := Claimed(db.jobs[id], owner, late.now, duration)])
    case Write(l, _, aborted) =>
      if !Passes(db, l, db.now) || !Passes(db, l, late.now) || aborted then late
      else late.(log := db.log + [l])
    case Renew(l, duration, _) =>
      if !Passes(db, l, db.now) then late
      else late.(jobs := db.jobs[l.job := db.jobs[l.job].(expiresAt := Some(late.now + duration))])
    case Finish(l, outcome, _) =>
      if !Passes(db, l, db.now) then late
      else
        var done := late.(jobs := db.jobs[l.job := Finished(db.jobs[l.job], outcome, late.now)]);
        if outcome.Pause? then done
        else
          var round := RoundOf(db.jobs[l.job], outcome, late.now);
          done.(marks := Marked(db.marks, round), rounds := db.rounds + [round])
    case Recover(r, _) =>
      if !Recoverable(db, r) then late
      else late.(jobs := RequeuedAll(db.jobs, r.ids),
                 audits := db.audits + AuditsOf(r.ids, r.operator, r.before.value, late.now))
    case MarkRound(round) =>
      late.(marks := Marked(db.marks, round), rounds := db.rounds + [round])
  }

  function Run(db: Db, events: seq<Event>): Db
    decreases |events|
  {
    if events == [] then db else Run(Step(db, events[0]), events[1..])
  }

  // ----- invariants -----

  predicate RowOk(row: Job)
  {
    && (row.active <==> row.status.Queued? || row.status.Running?)
    && (row.owner.Some? ==> row.status.Running? && row.expiresAt.Some? && row.generation >= 1)
    && (row.owner.None? ==> row.expiresAt.None?)
    && (row.status.Running? && row.owner.None? ==> row.generation == 0)
  }

  predicate LogOk(db: Db)
  {
    && (forall i :: 0 <= i < |db.log| ==>
          && db.log[i].job in db.jobs
          && var row := db.jobs[db.log[i].job];
          && db.log[i].generation <= row.generation
          && (db.log[i].generation == row.generation && row.owner.Some? ==> row.owner == Some(db.log[i].owner)))
    && (forall i, j :: 0 <= i < j < |db.log| && db.log[i].job == db.log[j].job ==>
          && db.log[i].generation <= db.log[j].generation
          && (db.log[i].generation == db.log[j].generation ==> db.log[i] == db.log[j]))
  }

  ghost predicate Inv(db: Db)
  {
    && (forall id :: id in db.jobs ==> RowOk(db.jobs[id]))
    && (forall id :: id in db.jobs && db.jobs[id].active ==> !SlotTaken(db.jobs, id, db.jobs[id].source))
    && LogOk(db)
  }

  /** Before the first leased worker: rows may predate leases, nothing was observed yet. */
  ghost predicate Init(db: Db)
  {
    && (forall id :: id in db.jobs ==>
          RowOk(db.jobs[id]) && db.jobs[id].owner.None? && db.jobs[id].generation == 0)
    && (forall id :: id in db.jobs && db.jobs[id].active ==> !SlotTaken(db.jobs, id, db.jobs[id].source))
    && (forall s :: s in db.marks ==> db.marks[s].lastRunAt.None?)
    && db.log == [] && db.rounds == []
  }

  /** How a transaction may change a job row: no new slot, no second owner for a generation. */
  predicate Evolves(a: Job, b: Job)
  {
    && RowOk(b)
    && b.source == a.source
    && (b.active ==> a.active)
    && a.generation <= b.generation
    && (b.generation == a.generation && b.owner.Some? ==> b.owner == a.owner)
  }

  lemma EvolvedKeepsInv(db: Db, next: Db)
    requires Inv(db)
    requires next.log == db.log && next.jobs.Keys == db.jobs.Keys
    requires forall id :: id in db.jobs ==> Evolves(db.jobs[id], next.jobs[id])
    ensures Inv(next)
  {
    forall id | id in next.jobs && next.jobs[id].active
      ensures !SlotTaken(next.jobs, id, next.jobs[id].source)
    {
      assert !SlotTaken(db.jobs, id, db.jobs[id].source);
    }
  }

  lemma CreateKeepsInv(db: Db, id: string, source: string, subsystem: string)
    requires Inv(db)
    ensures Inv(Step(db, Create(id, source, subsystem)))
  {
    var next := Step(db, Create(id, source, subsystem));
    if id !in db.jobs && !SlotTaken(db.jobs, id, source) {
      forall k | k in next.jobs && next.jobs[k].active
        ensures !SlotTaken(next.jobs, k, next.jobs[k].source)
      {
        if k != id {
          assert !SlotTaken(db.jobs, k, db.jobs[k].source);
        }
      }
    }
  }

  lemma WriteKeepsInv(db: Db, l: Lease, wait: nat, aborted: bool)
    requires Inv(db)
    ensures Inv(Step(db, Write(l, wait, aborted)))
  {
    var next := Step(db, Write(l, wait, aborted));
    assert LogOk(next) by {
      if next.log != db.log {
        assert forall i :: 0 <= i < |db.log| && db.log[i].job == l.job ==>
          db.log[i].generation == l.generation ==> db.log[i] == l;
      }
    }
    forall k | k in next.jobs && next.jobs[k].active
      ensures !SlotTaken(next.jobs, k, next.jobs[k].source)
    {
      assert !SlotTaken(db.jobs, k, db.jobs[k].source);
    }
  }

  lemma RowChangeKeepsInv(db: Db, next: Db, id: string, row: Job)
    requires Inv(db) && id in db.jobs && Evolves(db.jobs[id], row)
    requires next.log == db.log && next.jobs == db.jobs[id := row]
    ensures Inv(next)
  {
    EvolvedKeepsInv(db, next);
  }

  lemma StepKeepsInv(db: Db, e: Event)
    requires Inv(db)
    ensures Inv(Step(db, e))
  {
    hide LogOk, SlotTaken, Marked, RoundOf, AuditsOf;
    var next := Step(db, e);
    match e
    case Create(id, source, subsystem) => CreateKeepsInv(db, id, source, subsystem);
    case Write(l, wait, aborted) => WriteKeepsInv(db, l, wait, aborted);
    case Claim(id, seen, owner, duration, wait) =>
      if Claimable(db, id, seen, next.now) {
        RowChangeKeepsInv(db, next, id, Claimed(db.jobs[id], owner, next.now, duration));
      } else {
        EvolvedKeepsInv(db, next);
      }
    case Renew(l, duration, wait) =>
      if Passes(db, l, db.now) {
        RowChangeKeepsInv(db, next, l.job, db.jobs[l.job].(expiresAt := Some(next.now + duration)));
      } else {
        EvolvedKeepsInv(db, next);
      }
    case Finish(l, outcome, wait) =>
      if Passes(db, l, db.now) {
        RowChangeKeepsInv(db, next, l.job, Finished(db.jobs[l.job], outcome, next.now));
      } else {
        EvolvedKeepsInv(db, next);
      }
    case _ => EvolvedKeepsInv(db, next);
  }

  lemma {:induction false} RunKeepsInv(db: Db, events: seq<Event>)
    requires Inv(db)
    ensures Inv(Run(db, events))
    decreases |events|
  {
    if events != [] {
      StepKeepsInv(db, events[0]);
      RunKeepsInv(Step(db, events[0]), events[1..]);
    }
  }

  lemma InitIsInv(db: Db)
    requires Init(db)
    ensures Inv(db) && WatermarksOk(db)
  {
  }

  // ----- the fence over whole runs -----

  /** At most one token passes the fence among all the jobs of one source. */
  lemma OneHolderPerSource(init: Db, events: seq<Event>, l1: Lease, l2: Lease)
    requires Init(init)
    requires var db := Run(init, events);
      && Passes(db, l1, db.now) && Passes(db, l2, db.now)
      && db.jobs[l1.job].source == db.jobs[l2.job].source
    ensures l1 == l2
  {
    InitIsInv(init);
    RunKeepsInv(init, events);
    var db := Run(init, events);
    assert !SlotTaken(db.jobs, l1.job, db.jobs[l1.job].source);
  }

  /** A modern running job can be taken over exactly when nobody passes its fence any more. */
  lemma TakenOverIffNoHolder(init: Db, events: seq<Event>, id: string)
    requires Init(init)
    requires id in Run(init, events).jobs && Run(init, events).jobs[id].owner.Some?
    ensures var db := Run(init, events);
      Claimable(db, id, db.jobs[id].generation, db.now)
      <==> forall l: Lease :: l.job == id ==> !Passes(db, l, db.now)
  {
    InitIsInv(init);
    RunKeepsInv(init, events);
    var db := Run(init, events);
    var row := db.jobs[id];
    assert !SlotTaken(db.jobs, id, row.source);
    var holder := Lease(id, row.owner.value, row.generation);
    assert Passes(db, holder, db.now) <==> !Expired(row, db.now);
  }

  /** A token that was issued at some time and does not pass now. */
  ghost predicate Lost(db: Db, l: Lease)
  {
    && l.job in db.jobs
    && l.generation <= db.jobs[l.job].generation
    && !Passes(db, l, db.now)
  }

  lemma LostOneStep(db: Db, e: Event, l: Lease)
    requires Lost(db, l)
    ensures Lost(Step(db, e), l)
    ensures var log := Step(db, e).log; db.log <= log && l !in log[|db.log|..]
  {
  }

  /**
   * A token that once fails the fence, whether it expired, was finished, paused
   * or taken over, fails it for ever, and nothing is written under it again.
   */
  lemma {:induction false} LostForever(db: Db, events: seq<Event>, l: Lease)
    requires Lost(db, l)
    ensures Lost(Run(db, events), l)
    ensures var log := Run(db, events).log; db.log <= log && l !in log[|db.log|..]
    decreases |events|
  {
    if events != [] {
      var next := Step(db, events[0]);
      LostOneStep(db, events[0], l);
      LostForever(next, events[1..], l);
      var log := Run(db, events).log;
      assert log[|db.log|..] == log[|db.log|..|next.log|] + log[|next.log|..];
      assert log[..|next.log|] == next.log;
      assert log[|db.log|..|next.log|] == next.log[|db.log|..];
    }
  }

  /**
   * Whatever the interleaving, the writes of one job commit in the order of
   * their generations, and one generation is one owner.
   */
  lemma WritesFollowGenerations(init: Db, events: seq<Event>, i: nat, j: nat)
    requires Init(init)
    requires i < j < |Run(init, events).log|
    requires Run(init, events).log[i].job == Run(init, events).log[j].job
    ensures var log := Run(init, events).log;
      && log[i].generation <= log[j].generation
      && (log[i].generation == log[j].generation ==> log[i].owner == log[j].owner)
  {
    InitIsInv(init);
    RunKeepsInv(init, events);
  }

  // ----- the watermarks over whole runs -----

  /** The rounds of one source in commit order, each with its start as the stamp. */
  function Stamps(rounds: seq<Round>, subsystem: string): seq<(int, (bool, Option<string>))>
  {
    if rounds == [] then []
    else
      var r := rounds[|rounds| - 1];
      Stamps(rounds[..|rounds| - 1], subsystem)
      + if r.subsystem == subsystem then [(r.at, (r.ok, r.error))] else []
  }

  /** A watermark shows the round with the latest start, the last one to finish among equals. */
  ghost predicate WatermarksOk(db: Db)
  {
    forall s :: s in db.marks && s != "" ==>
      var stamps := Stamps(db.rounds, s);
      if stamps == [] then db.marks[s].lastRunAt.None?
      else db.marks[s] == Mark(Some(Newest(stamps).0), Newest(stamps).1.0, Newest(stamps).1.1)
  }

  lemma MarkedKeepsWatermarks(db: Db, next: Db, r: Round)
    requires WatermarksOk(db)
    requires next.marks == Marked(db.marks, r) && next.rounds == db.rounds + [r]
    ensures WatermarksOk(next)
  {
    forall s | s in next.marks && s != ""
      ensures var stamps := Stamps(next.rounds, s);
        if stamps == [] then next.marks[s].lastRunAt.None?
        else next.marks[s] == Mark(Some(Newest(stamps).0), Newest(stamps).1.0, Newest(stamps).1.1)
    {
      var before, after := Stamps(db.rounds, s), Stamps(next.rounds, s);
      assert next.rounds[..|next.rounds| - 1] == db.rounds;
      if r.subsystem == s {
        assert after[..|after| - 1] == before;
      } else {
        assert after == before;
      }
    }
  }

  lemma StepKeepsWatermarks(db: Db, e: Event)
    requires WatermarksOk(db)
    ensures WatermarksOk(Step(db, e))
  {
    match e
    case MarkRound(r) => MarkedKeepsWatermarks(db, Step(db, e), r);
    case Finish(l, outcome, wait) =>
      if Passes(db, l, db.now) && !outcome.Pause? {
        MarkedKeepsWatermarks(db, Step(db, e), RoundOf(db.jobs[l.job], outcome, db.now + wait));
      }
    case _ =>
  }

  /** No late worker moves a watermark back: it always shows the newest round ever recorded. */
  lemma {:induction false} WatermarksShowNewestRound(db: Db, events: seq<Event>)
    requires WatermarksOk(db)
    ensures WatermarksOk(Run(db, events))
    decreases |events|
  {
    if events != [] {
      StepKeepsWatermarks(db, events[0]);
      WatermarksShowNewestRound(Step(db, events[0]), events[1..]);
    }
  }

  // ----- what a job says about its runs -----

  /** Event `j` is a claim that succeeded and handed out this token. */
  predicate ClaimedAt(init: Db, events: seq<Event>, j: nat, l: Lease)
  {
    && j < |events| && events[j].Claim?
    && var db, e := Run(init, events[..j]), events[j];
    && Claimable(db, e.id, e.seen, db.now + e.wait)
    && l == Lease(e.id, e.owner, e.seen + 1)
  }

  /** Event `i` ends the job under a token that passes. */
  predicate ClosedAt(init: Db, events: seq<Event>, i: nat, id: string)
  {
    && i < |events| && events[i].Finish? && events[i].lease.job == id && !events[i].outcome.Pause?
    && Passes(Run(init, events[..i]), events[i].lease, Run(init, events[..i]).now)
  }

  /** The row and the recorded round of its source tell how event `i` ended the job, and when it had been claimed. */
  ghost predicate Tells(init: Db, events: seq<Event>, i: nat, row: Job, rounds: seq<Round>)
    requires i < |events| && events[i].Finish? && !events[i].outcome.Pause?
  {
    var outcome, n := events[i].outcome, |Run(init, events[..i]).rounds|;
    && (row.status.Success? <==> outcome.Succeed?) && (row.status.Failed? <==> outcome.Fail?)
    && (outcome.Succeed? ==> row.error.None?) && (outcome.Fail? ==> row.error == Some(outcome.error))
    && row.finishedAt == Some(Run(init, events[..i + 1]).now)
    && row.startedAt.Some?
    && (exists j :: ClaimedAt(init, events, j, events[i].lease) && row.startedAt == Some(Run(init, events[..j + 1]).now))
    && n < |rounds| && rounds[n].subsystem == row.subsystem && rounds[n].at == row.startedAt.value
    && rounds[n].ok == row.status.Success?
    && (rounds[n].error.None? <==> row.status.Success?)
    && (outcome.Fail? && |outcome.error| <= 512 ==> rounds[n].error == row.error)
    && (outcome.Fail? && |outcome.error| > 512 ==> rounds[n].error == Some(outcome.error[..509] + "..."))
  }

  /** What is known of one job after a run: who claimed it while it is held, and how it ended. */
  ghost predicate Documented(init: Db, events: seq<Event>, id: string)
  {
    var db := Run(init, events);
    && (id in db.jobs && db.jobs[id].owner.Some? ==>
          exists j :: ClaimedAt(init, events, j, Lease(id, db.jobs[id].owner.value, db.jobs[id].generation))
                      && db.jobs[id].startedAt == Some(Run(init, events[..j + 1]).now))
    && (id in db.jobs && !db.jobs[id].active && (id in init.jobs ==> init.jobs[id].active) ==>
          exists i :: ClosedAt(init, events, i, id) && Tells(init, events, i, db.jobs[id], db.rounds))
    && (id !in db.jobs || db.jobs[id].active ==> forall i :: !ClosedAt(init, events, i, id))
    && (forall i, k :: ClosedAt(init, events, i, id) && ClosedAt(init, events, k, id) ==> i == k)
  }

  lemma Earlier(init: Db, events: seq<Event>, e: Event, id: string)
    ensures forall j, l :: ClaimedAt(init, events, j, l) ==> ClaimedAt(init, events + [e], j, l)
    ensures forall i: nat :: i < |events| ==> (ClosedAt(init, events + [e], i, id) <==> ClosedAt(init, events, i, id))
    ensures forall i, row, rounds, more: seq<Round> ::
      ClosedAt(init, events, i, id) && Tells(init, events, i, row, rounds) ==> Tells(init, events + [e], i, row, rounds + more)
  {
    hide Run, Passes, Claimable;
    assert forall i :: 0 <= i <= |events| ==> (events + [e])[..i] == events[..i];
  }

  predicate Closes(db: Db, e: Event, id: string)
  {
    e.Finish? && e.lease.job == id && !e.outcome.Pause? && Passes(db, e.lease, db.now)
  }

  /** All the ways in which a step can make a job held, or end it. */
  lemma JobMoves(db: Db, e: Event, id: string)
    requires Inv(db)
    ensures var next := Step(db, e);
      && db.rounds <= next.rounds
      && (id in db.jobs ==> id in next.jobs)
      && (id in next.jobs && next.jobs[id].owner.Some? ==>
            || (id in db.jobs && next.jobs[id] == db.jobs[id].(expiresAt := next.jobs[id].expiresAt))
            || (e.Claim? && e.id == id && Claimable(db, id, e.seen, db.now + e.wait)
                && next.jobs[id].owner == Some(e.owner) && next.jobs[id].generation == e.seen + 1
                && next.jobs[id].startedAt == Some(next.now)))
      && (id in next.jobs && !next.jobs[id].active ==> Closes(db, e, id) || (id in db.jobs && next.jobs[id] == db.jobs[id]))
      && (id in next.jobs && next.jobs[id].active && id in db.jobs ==> db.jobs[id].active)
      && (Closes(db, e, id) ==>
            && id in db.jobs && db.jobs[id].active && !next.jobs[id].active && next.jobs[id].owner.None?
            && db.jobs[id].owner == Some(e.lease.owner) && db.jobs[id].generation == e.lease.generation
            && next.jobs[id].startedAt == db.jobs[id].startedAt && next.jobs[id].finishedAt == Some(next.now))
  {
    hide SlotTaken, LogOk, Marked;
  }

  /** How a closing shows in the row and in the recorded rounds. */
  lemma ClosingShows(db: Db, e: Event, id: string)
    requires Closes(db, e, id)
    ensures var next := Step(db, e);
      && id in db.jobs && id in next.jobs
      && (next.jobs[id].status.Success? <==> e.outcome.Succeed?) && (next.jobs[id].status.Failed? <==> e.outcome.Fail?)
      && next.jobs[id].error == (if e.outcome.Fail? then Some(e.outcome.error) else None)
      && next.jobs[id].subsystem == db.jobs[id].subsystem
      && (db.jobs[id].startedAt.Some? ==>
            next.rounds == db.rounds + [Round(db.jobs[id].subsystem, db.jobs[id].startedAt.value, e.outcome.Succeed?,
              if e.outcome.Fail? then Some(Clipped(e.outcome.error)) else None)])
  {
    hide Marked;
  }

  lemma ClosedOnceMore(init: Db, events: seq<Event>, e: Event, id: string)
    requires Documented(init, events, id) && Inv(Run(init, events)) && Closes(Run(init, events), e, id)
    ensures ClosedAt(init, events + [e], |events|, id)
    ensures var next := Run(init, events + [e]);
      id in next.jobs && Tells(init, events + [e], |events|, next.jobs[id], next.rounds)
  {
    hide Run, Step, Closes, Inv, Claimable, Passes;
    var n, more := |events|, events + [e];
    var db := Run(init, events);
    RunOneMore(init, events, e);
    Earlier(init, events, e, id);
    assert more[..n] == events && more[..n + 1] == more;
    JobMoves(db, e, id);
    ClosingShows(db, e, id);
    ItCloses(db, e, id);
    var j :| ClaimedAt(init, events, j, e.lease) && db.jobs[id].startedAt == Some(Run(init, events[..j + 1]).now);
    assert ClaimedAt(init, more, j, e.lease) && more[..j + 1] == events[..j + 1];
  }

  lemma ItCloses(db: Db, e: Event, id: string)
    ensures Closes(db, e, id) <==> e.Finish? && e.lease.job == id && !e.outcome.Pause? && Passes(db, e.lease, db.now)
  {
  }

  lemma DocumentedOnceMore(init: Db, events: seq<Event>, e: Event, id: string)
    requires Documented(init, events, id) && Inv(Run(init, events))
    ensures Documented(init, events + [e], id)
  {
    hide Run, Step, Tells, Closes, Inv, Claimable, Passes;
    var n, more := |events|, events + [e];
    var db, next := Run(init, events), Run(init, more);
    RunOneMore(init, events, e);
    Earlier(init, events, e, id);
    JobMoves(db, e, id);
    ItCloses(db, e, id);
    assert more[..n] == events && more[..n + 1] == more;
    assert next.rounds == db.rounds + next.rounds[|db.rounds|..];
    if Closes(db, e, id) {
      ClosedOnceMore(init, events, e, id);
    }
    if id in next.jobs && next.jobs[id].owner.Some? {
      HeldOnceMore(init, events, e, id);
    }
  }

  lemma HeldOnceMore(init: Db, events: seq<Event>, e: Event, id: string)
    requires Documented(init, events, id) && Inv(Run(init, events))
    requires id in Run(init, events + [e]).jobs && Run(init, events + [e]).jobs[id].owner.Some?
    ensures var row := Run(init, events + [e]).jobs[id];
      exists j :: ClaimedAt(init, events + [e], j, Lease(id, row.owner.value, row.generation))
                  && row.startedAt == Some(Run(init, (events + [e])[..j + 1]).now)
  {
    hide Run, Step, Tells, Inv, Claimable, ClosedAt;
    var n, more := |events|, events + [e];
    var db, next := Run(init, events), Run(init, more);
    RunOneMore(init, events, e);
    Earlier(init, events, e, id);
    JobMoves(db, e, id);
    assert more[..n] == events && more[..n + 1] == more;
    var l := Lease(id, next.jobs[id].owner.value, next.jobs[id].generation);
    if id in db.jobs && next.jobs[id] == db.jobs[id].(expiresAt := next.jobs[id].expiresAt) {
      var j :| ClaimedAt(init, events, j, l) && db.jobs[id].startedAt == Some(Run(init, events[..j + 1]).now);
      assert more[..j + 1] == events[..j + 1];
    } else {
      assert ClaimedAt(init, more, n, l);
    }
  }

  lemma {:induction false} RunIsDocumented(init: Db, events: seq<Event>, id: string)
    requires Init(init)
    ensures Documented(init, events, id)
  {
    hide Documented, Inv, Run;
    if events == [] {
      NothingDocumented(init, id);
    } else {
      var before, e := events[..|events| - 1], events[|events| - 1];
      RunIsDocumented(init, before, id);
      InitIsInv(init);
      RunKeepsInv(init, before);
      DocumentedOnceMore(init, before, e, id);
      assert events == before + [e];
    }
  }

  lemma NothingDocumented(init: Db, id: string)
    requires Init(init)
    ensures Documented(init, [], id)
  {
  }

  /**
   * A job that ended during a run was closed exactly once, and says so: its
   * status, its error and the round of its source carry the outcome of that
   * closing and the time at which the closing token was claimed.
   */
  lemma EndedJobsTellTheirClosing(init: Db, events: seq<Event>, id: string)
    requires Init(init) && id in Run(init, events).jobs && !Run(init, events).jobs[id].active
    requires id in init.jobs ==> init.jobs[id].active
    ensures exists i ::
      && ClosedAt(init, events, i, id) && Tells(init, events, i, Run(init, events).jobs[id], Run(init, events).rounds)
      && forall k :: ClosedAt(init, events, k, id) ==> k == i
  {
    hide Run, ClosedAt, Tells;
    RunIsDocumented(init, events, id);
  }

  // ----- one execution of a claimed job -----

  /** A heartbeat; a broken one fails for a reason of its own. */
  datatype Beat = Beat(wait: nat, broken: bool)

  datatype RunResult = Completed | Broke(error: string) | LeaseGone

  datatype Ended = HeartbeatFailed | LeaseLost | Refused | Closed(outcome: Outcome)

  /** Renewals until one fails; whether all went through. */
  function Beaten(db: Db, l: Lease, duration: int, beats: seq<Beat>): (Db, bool)
    decreases |beats|
  {
    if beats == [] then (db, true)
    else if beats[0].broken then (db.(now := db.now + beats[0].wait), false)
    else
      var next := Step(db, Renew(l, duration, beats[0].wait));
      if Passes(db, l, db.now) then Beaten(next, l, duration, beats[1..]) else (next, false)
  }

  function OutcomeOf(result: RunResult, paused: bool): Outcome
    requires !result.LeaseGone?
  {
    if paused then Pause else if result.Broke? then Fail(result.error) else Succeed
  }

  /** What a worker does with its job: it finishes it only if no heartbeat failed and nobody told it that the lease is gone. */
  function Executed(db: Db, l: Lease, duration: int, beats: seq<Beat>, result: RunResult, paused: bool,
    wait: nat): (Db, Ended)
  {
    var (after, alive) := Beaten(db, l, duration, beats);
    if !alive then (after, HeartbeatFailed)
    else if result.LeaseGone? then (after, LeaseLost)
    else
      var outcome := OutcomeOf(result, paused);
      (Step(after, Finish(l, outcome, wait)), if Passes(after, l, after.now) then Closed(outcome) else Refused)
  }

  lemma {:induction false} BeatsAreARun(db: Db, l: Lease, duration: int, beats: seq<Beat>) returns (events: seq<Event>)
    ensures Run(db, events) == Beaten(db, l, duration, beats).0
    ensures Beaten(db, l, duration, beats).0.marks == db.marks
    ensures l.job in db.jobs ==>
      && l.job in Beaten(db, l, duration, beats).0.jobs
      && Beaten(db, l, duration, beats).0.jobs[l.job] == db.jobs[l.job].(
           expiresAt := Beaten(db, l, duration, beats).0.jobs[l.job].expiresAt)
    decreases |beats|
  {
    events := [];
    if beats != [] {
      var e := if beats[0].broken then Tick(beats[0].wait) else Renew(l, duration, beats[0].wait);
      var next := Step(db, e);
      if !beats[0].broken && Passes(db, l, db.now) {
        var rest := BeatsAreARun(next, l, duration, beats[1..]);
        events := [e] + rest;
        assert events[1..] == rest;
      } else {
        events := [e];
        assert events[1..] == [];
      }
    }
  }

  lemma RunOneMore(db: Db, events: seq<Event>, e: Event)
    ensures Run(db, events + [e]) == Step(Run(db, events), e)
    decreases |events|
  {
    if events == [] {
      assert ([e])[1..] == [];
    } else {
      assert (events + [e])[1..] == events[1..] + [e];
      RunOneMore(Step(db, events[0]), events[1..], e);
    }
  }

  /**
   * An execution is a run of the queue. If it finishes the job the token is
   * gone for good; a pause keeps the slot and every watermark, an end releases
   * the slot; and if it does not finish, no watermark moved.
   */
  lemma ExecutionEndsOwnership(db: Db, l: Lease, duration: int, beats: seq<Beat>, result: RunResult, paused: bool,
    wait: nat)
    returns (events: seq<Event>)
    requires l.job in db.jobs && l.generation <= db.jobs[l.job].generation
    ensures var (next, ended) := Executed(db, l, duration, beats, result, paused, wait);
      && Run(db, events) == next && l.job in next.jobs
      && (ended.Closed? ==> Lost(next, l) && next.jobs[l.job].active == ended.outcome.Pause?)
      && (ended.Closed? && ended.outcome.Pause? ==> next.jobs[l.job].status.Queued?)
      && (!ended.Closed? || ended.outcome.Pause? ==> next.marks == db.marks)
  {
    events := BeatsAreARun(db, l, duration, beats);
    var (after, alive) := Beaten(db, l, duration, beats);
    if alive && !result.LeaseGone? {
      var e := Finish(l, OutcomeOf(result, paused), wait);
      RunOneMore(db, events, e);
      events := events + [e];
    }
  }

  // ----- the tables as the workers change them -----

  class SyncQueue {
    var now: int
    var jobs: map<string, Job>
    var marks: map<string, Mark>
    var audits: seq<Audit>
    ghost var log: seq<Lease>
    ghost var rounds: seq<Round>

    ghost function View(): Db
      reads this
    {
      Db(now, jobs, marks, audits, log, rounds)
    }

    /** Locks the row, reads the clock, and takes a queued or expired job. */
    method ClaimQueueJob(id: string, seen: Job, owner: string, duration: int, wait: nat)
      returns (lease: Lease, claimed: bool)
      requires Inv(View())
      modifies this
      ensures View() == Step(old(View()), Claim(id, seen.generation, owner, duration, wait))
      ensures lease == Lease(id, owner, seen.generation + 1)
      ensures claimed <==>
        && id in old(jobs) && old(jobs)[id].generation == seen.generation
        && (old(jobs)[id].status.Queued? || Expired(old(jobs)[id], now))
      ensures claimed ==> jobs[id].startedAt == Some(now) && forall at :: Passes(View(), lease, at) <==> at < now + duration
    {
      lease := Lease(id, owner, seen.generation + 1);
      claimed := false;
      now := now + wait;
      if id !in jobs {
        return;
      }
      var current := jobs[id];
      if current.generation != seen.generation {
        return;
      }
      if !current.status.Queued? && !Expired(current, now) {
        return;
      }
      assert !SlotTaken(jobs, id, current.source);
      jobs := jobs[id := current.(status := Running, startedAt := Some(now), finishedAt := None, error := None,
                                  active := true, owner := Some(owner), generation := current.generation + 1,
                                  expiresAt := Some(now + duration))];
      claimed := true;
    }

    /** The guard of every write: the row is read under the token, then the clock. */
    method LockedQueueJob(l: Lease) returns (job: Option<Job>)
      ensures job.Some? <==> Passes(View(), l, now)
      ensures job.Some? <==>
        && l.job in jobs && jobs[l.job].status == Running && jobs[l.job].owner == Some(l.owner)
        && jobs[l.job].generation == l.generation && jobs[l.job].expiresAt.Some? && now < jobs[l.job].expiresAt.value
      ensures job.Some? ==> job.value == jobs[l.job]
    {
      if l.job !in jobs {
        return None;
      }
      var row := jobs[l.job];
      if !row.status.Running? || row.owner != Some(l.owner) || row.generation != l.generation {
        return None;
      }
      if row.expiresAt.None? || row.expiresAt.value <= now {
        return None;
      }
      return Some(row);
    }

    /**
     * The fence around a write. Outside the queue there is no token and the
     * fence is open; inside, the token is checked under the row lock before the
     * write and again before the commit.
     */
    method AggregationWrite(l: Option<Lease>, wait: nat, aborted: bool) returns (committed: bool)
      modifies this
      ensures l.None? ==> committed == !aborted && View() == old(View()).(now := old(now) + wait)
      ensures l.Some? ==> View() == Step(old(View()), Write(l.value, wait, aborted))
      ensures l.Some? ==>
        (committed <==> !aborted && Passes(old(View()), l.value, old(now)) && Passes(old(View()), l.value, now))
    {
      committed := true;
      if l.Some? {
        var before := LockedQueueJob(l.value);
        committed := before.Some?;
      }
      now := now + wait;
      if aborted {
        committed := false;
      }
      if committed && l.Some? {
        var again := LockedQueueJob(l.value);
        committed := again.Some?;
        if committed {
          log := log + [l.value];
        }
      }
    }

    method RenewQueueLease(l: Lease, duration: int, wait: nat) returns (renewed: bool)
      modifies this
      ensures View() == Step(old(View()), Renew(l, duration, wait))
      ensures renewed <==> Passes(old(View()), l, old(now))
      ensures renewed ==> forall at :: Passes(View(), l, at) <==> at < now + duration
    {
      var current := LockedQueueJob(l);
      renewed := current.Some?;
      now := now + wait;
      if renewed {
        jobs := jobs[l.job := jobs[l.job].(expiresAt := Some(now + duration))];
      }
    }

    method MarkQueueSource(code: string, at: int, error: Option<string>)
      modifies this
      ensures View() == old(View()).(
        marks := Marked(old(marks), Round(code, at, error.None?, error)),
        rounds := old(rounds) + [Round(code, at, error.None?, error)])
    {
      rounds := rounds + [Round(code, at, error.None?, error)];
      if code == "" || code !in marks {
        return;
      }
      var stored := marks[code].lastRunAt;
      if stored.None? || stored.value <= at {
        marks := marks[code := Mark(Some(at), error.None?, error)];
      }
    }

    /** The end of a round: pause keeps the slot and the watermark, success and failure release both. */
    method FinishQueueJob(l: Lease, runErr: Option<string>, pause: bool, wait: nat) returns (finished: bool)
      modifies this
      ensures View() == Step(old(View()),
        Finish(l, if pause then Pause else if runErr.Some? then Fail(runErr.value) else Succeed, wait))
      ensures finished <==> Passes(old(View()), l, old(now))
      ensures finished ==> Lost(View(), l)
      ensures finished && pause ==>
        && jobs[l.job].status.Queued? && jobs[l.job].active && jobs[l.job].error.None? && jobs[l.job].startedAt.None?
        && marks == old(marks)
      ensures finished && !pause ==>
        && (if runErr.None? then jobs[l.job].status.Success? else jobs[l.job].status.Failed?)
        && jobs[l.job].error == runErr && jobs[l.job].finishedAt == Some(now) && !jobs[l.job].active
        && |rounds| == |old(rounds)| + 1
        && var round, was := rounds[|old(rounds)|], old(jobs)[l.job];
        && round.subsystem == was.subsystem && round.ok == runErr.None? && round.error.Some? == runErr.Some?
        && round.at == (if was.startedAt.Some? then was.startedAt.value else now)
    {
      ghost var outcome := if pause then Pause else if runErr.Some? then Fail(runErr.value) else Succeed;
      var current := LockedQueueJob(l);
      finished := current.Some?;
      now := now + wait;
      if !finished {
        return;
      }
      var row := current.value.(status := Success, finishedAt := Some(now), error := None, active := false,
                                owner := None, expiresAt := None);
      if pause {
        row := row.(status := Queued, startedAt := None, finishedAt := None, active := true);
      } else if runErr.Some? {
        row := row.(status := Failed, error := runErr);
      }
      assert row == Finished(current.value, outcome, now);
      jobs := jobs[l.job := row];
      if pause {
        return;
      }
      var roundStart := now;
      if current.value.startedAt.Some? {
        roundStart := current.value.startedAt.value;
      }
      var kept := if runErr.Some? then Some(Clipped(runErr.value)) else None;
      assert RoundOf(current.value, outcome, now)
          == Round(current.value.subsystem, roundStart, runErr.None?, kept);
      MarkQueueSource(current.value.subsystem, roundStart, kept);
    }

    /**
     * Runs a claimed job under its heartbeats. Cancellation and a denied licence
     * pause it; a failed heartbeat or a lost lease leaves it to whoever claims next.
     */
    method ExecuteQueueJob(l: Lease, duration: int, beats: seq<Beat>, result: RunResult, cancelled: bool,
      denied: bool, wait: nat)
      returns (ended: Ended)
      modifies this
      ensures (View(), ended) == Executed(old(View()), l, duration, beats, result, cancelled || denied, wait)
      ensures ended.Closed? ==> (ended.outcome.Pause? <==> cancelled || denied)
      ensures ended.Closed? && !ended.outcome.Pause? ==>
        ended.outcome == if result.Broke? then Fail(result.error) else Succeed
      ensures ended.LeaseLost? || ended.HeartbeatFailed? || !result.LeaseGone?
      ensures !ended.HeartbeatFailed? ==> forall i :: 0 <= i < |beats| ==> !beats[i].broken
      ensures beats == [] ==> (ended.Closed? <==> !result.LeaseGone? && Passes(old(View()), l, old(now)))
    {
      hide Step, Passes;
      for i := 0 to |beats|
        invariant Beaten(View(), l, duration, beats[i..]) == Beaten(old(View()), l, duration, beats)
        invariant forall k :: 0 <= k < i ==> !beats[k].broken
        invariant beats == [] ==> View() == old(View())
      {
        assert beats[i..][1..] == beats[i + 1..];
        if beats[i].broken {
          now := now + beats[i].wait;
          return HeartbeatFailed;
        }
        var renewed := RenewQueueLease(l, duration, beats[i].wait);
        if !renewed {
          return HeartbeatFailed;
        }
      }
      if result.LeaseGone? {
        return LeaseLost;
      }
      var pause := cancelled;
      if denied {
        pause := true;
      }
      var finished := FinishQueueJob(l, if result.Broke? then Some(result.error) else None, pause, wait);
      ended := if finished then Closed(OutcomeOf(result, pause)) else Refused;
    }

    method CreateSyncJob(id: string, source: string, subsystem: string) returns (created: bool)
      modifies this
      ensures View() == Step(old(View()), Create(id, source, subsystem))
      ensures created <==>
        id !in old(jobs) && !exists k :: k in old(jobs) && old(jobs)[k].active && old(jobs)[k].source == source
      ensures created ==>
        && id in jobs && jobs[id].status.Queued? && jobs[id].active && jobs[id].source == source
        && jobs[id].subsystem == subsystem && jobs[id].generation == 0 && jobs[id].owner.None?
    {
      created := id !in jobs && !SlotTaken(jobs, id, source);
      if created {
        jobs := jobs[id := Job(source, subsystem, Queued, None, None, None, true, None, 0, None)];
      }
    }

    /** Accepts 1 to 100 distinct job ids, all of them running without a lease. */
    method LegacyJobs(ids: seq<string>) returns (ok: bool)
      ensures ok <==> SelectsLegacy(jobs, ids)
    {
      if |ids| == 0 || |ids| > 100 {
        return false;
      }
      var seen: set<string> := {};
      for i := 0 to |ids|
        invariant seen == set k | 0 <= k < i :: ids[k]
        invariant forall k :: 0 <= k < i ==> ids[k] != "" && ids[k] in jobs && Legacy(jobs[ids[k]])
        invariant forall k, m :: 0 <= k < m < i ==> ids[k] != ids[m]
      {
        var id := ids[i];
        if id == "" || id in seen || id !in jobs || !Legacy(jobs[id]) {
          assert id in seen ==> exists k :: 0 <= k < i && ids[k] == id;
          return false;
        }
        seen := seen + {id};
      }
      return true;
    }

    method RequeueAll(ids: seq<string>, operator: string, digest: string)
      requires SelectsLegacy(jobs, ids)
      modifies this`jobs, this`audits
      ensures jobs == RequeuedAll(old(jobs), ids)
      ensures audits == old(audits) + AuditsOf(ids, operator, digest, now)
    {
      for i := 0 to |ids|
        invariant jobs == RequeuedAll(old(jobs), ids[..i])
        invariant audits == old(audits) + AuditsOf(ids[..i], operator, digest, now)
      {
        var id := ids[i];
        assert id !in ids[..i];
        assert ids[..i + 1] == ids[..i] + [id];
        jobs := jobs[id := jobs[id].(status := Queued, startedAt := None, finishedAt := None, error := None, active := true)];
        audits := audits + [Audit(id, operator, digest, now)];
      }
      assert ids[..|ids|] == ids;
    }

    /**
     * Requeues selected jobs that predate leases, all of them or none. `before`
     * and `after` are the digests of the two verifications, absent when the
     * verifier refused.
     */
    method RecoverLegacySyncJobs(r: Recovery, wait: nat) returns (recovered: bool)
      modifies this
      ensures View() == Step(old(View()), Recover(r, wait))
      ensures recovered <==> Recoverable(old(View()), r)
      ensures recovered ==> jobs.Keys == old(jobs).Keys && forall id :: id in jobs ==>
        if id in r.ids then
          && old(jobs)[id].status.Running? && old(jobs)[id].owner.None? && old(jobs)[id].expiresAt.None?
          && jobs[id].status.Queued? && jobs[id].active && jobs[id].startedAt.None? && jobs[id].error.None?
          && jobs[id].generation == 0 && jobs[id].source == old(jobs)[id].source
        else jobs[id] == old(jobs)[id]
      ensures recovered ==> 1 <= |r.ids| <= 100 && |audits| == |old(audits)| + |r.ids| && forall i :: 0 <= i < |r.ids| ==>
        audits[|old(audits)| + i] == Audit(r.ids[i], r.operator, r.before.value, now)
    {
      now := now + wait;
      if r.operator == "" || |r.operator| > 128 {
        return false;
      }
      var selected := LegacyJobs(r.ids);
      if !selected || r.before.None? {
        return false;
      }
      var savedJobs, savedAudits := jobs, audits;
      RequeueAll(r.ids, r.operator, r.before.value);
      if r.after != r.before {
        jobs, audits := savedJobs, savedAudits;
        return false;
      }
      return true;
    }
  }
}
