/**
 * Workers, the job queue and the projection tables together: every transaction
 * of every attempt may interleave with those of the others, fail, or commit
 * without its worker hearing of it.
 */
module EndToEnd {
  import opened Common
  import opened Stream
  import opened Projection
  import Queue

  datatype Config = Config(codec: Codec, options: Options, tenant: string)

  datatype Phase = Reclaiming(rounds: nat) | Reading(sent: nat) | Failing | Done

  /** One attempt; `stream` is what its source will send. */
  datatype Worker = Worker(attempt: Attempt, stream: Bytes, phase: Phase)

  datatype System = System(
    queue: Queue.Db, tables: Tables, workers: map<string, Worker>, published: seq<string>)

  /** Acknowledged and Lost transactions commit when they can, but Lost ones report an error all the same. */
  datatype Reply = Acknowledged | Lost | Refused

  datatype Tx = Tx(lease: Option<Queue.Lease>, wait: nat, reply: Reply)

  datatype Event =
    | Other(event: Queue.Event)
    | Begin(run: string, stream: Bytes, tx: Tx)
    | Reclaim(run: string, keys: set<Key>, tx: Tx)
    | StageNext(run: string, tx: Tx)
    | Publish(run: string, tx: Tx)
    | GiveUp(run: string)
    | Fail(run: string, code: string, tx: Tx)

  predicate Open(q: Queue.Db, tx: Tx)
  {
    && !tx.reply.Refused?
    && (tx.lease.Some? ==> Queue.Passes(q, tx.lease.value, q.now) && Queue.Passes(q, tx.lease.value, q.now + tx.wait))
  }

  function AfterWrite(q: Queue.Db, tx: Tx, committed: bool): Queue.Db
  {
    if tx.lease.Some? then Queue.Step(q, Queue.Write(tx.lease.value, tx.wait, !committed))
    else q.(now := q.now + tx.wait)
  }

  /** A fenced transaction with the given effect, and the phase its worker goes on in. */
  ghost function Fenced(sys: System, run: string, tx: Tx, effect: Option<Tables>, next: Phase, onError: Phase): System
    requires run in sys.workers
  {
    var committed := Open(sys.queue, tx) && effect.Some?;
    sys.(
      queue := AfterWrite(sys.queue, tx, committed),
      tables := if committed then effect.value else sys.tables,
      workers := sys.workers[run := sys.workers[run].(
        phase := if committed && tx.reply.Acknowledged? then next else onError)])
  }

  ghost function Batches(cfg: Config, w: Worker): seq<seq<ProjectRow>>
    requires OptionsOk(cfg.options)
  {
    Deliveries(cfg.codec, cfg.options, cfg.tenant, w.stream)
  }

  ghost predicate Verified(cfg: Config, w: Worker)
  {
    Accepts(cfg.codec, cfg.options, cfg.tenant, w.stream)
  }

  ghost function Summarized(cfg: Config, w: Worker): Summary
    requires Verified(cfg, w)
  {
    SummaryOf(cfg.codec, cfg.options, cfg.tenant, w.stream)
  }

  ghost predicate Enabled(cfg: Config, sys: System, e: Event)
    requires OptionsOk(cfg.options)
  {
    match e
    case Other(_) => true
    case Begin(run, _, _) => run != "" && run !in sys.workers
    case Reclaim(run, keys, _) =>
      && run in sys.workers && sys.workers[run].phase.Reclaiming?
      && IsReclaimBatch(sys.tables.stage, run, keys)
    case StageNext(run, _) =>
      && run in sys.workers && sys.workers[run].phase.Reading?
      && sys.workers[run].phase.sent < |Batches(cfg, sys.workers[run])|
    case Publish(run, _) =>
      && run in sys.workers && Verified(cfg, sys.workers[run])
      && sys.workers[run].phase == Reading(|Batches(cfg, sys.workers[run])|)
    case GiveUp(run) => run in sys.workers && sys.workers[run].phase.Reading?
    case Fail(run, _, _) => run in sys.workers && sys.workers[run].phase.Failing?
  }

  ghost function AfterBegin(cfg: Config, sys: System, run: string, stream: Bytes, tx: Tx): System
  {
    var begun := Begun(sys.tables, cfg.tenant, run, sys.queue.now + tx.wait);
    var committed := Open(sys.queue, tx) && begun.Some?;
    var later := sys.(queue := AfterWrite(sys.queue, tx, committed));
    if !committed then later
    else later.(
      tables := begun.value.0,
      workers := sys.workers[run := Worker(begun.value.1, stream, if tx.reply.Acknowledged? then Reclaiming(0) else Done)])
  }

  ghost function AfterReclaim(cfg: Config, sys: System, run: string, keys: set<Key>, tx: Tx): System
    requires run in sys.workers && sys.workers[run].phase.Reclaiming?
  {
    var w := sys.workers[run];
    var next := if |keys| < RECLAIM_BATCH then Reading(0)
      else if w.phase.rounds + 1 < RECLAIM_ROUNDS then Reclaiming(w.phase.rounds + 1) else Done;
    Fenced(sys, run, tx, Reclaimed(sys.tables, cfg.tenant, w.attempt, keys), next, Done)
  }

  ghost function AfterStage(cfg: Config, sys: System, run: string, tx: Tx): System
    requires OptionsOk(cfg.options) && Enabled(cfg, sys, StageNext(run, tx))
  {
    var w := sys.workers[run];
    var batch := Batches(cfg, w)[w.phase.sent];
    Fenced(sys, run, tx, StagedMore(sys.tables, cfg.tenant, w.attempt, batch), Reading(w.phase.sent + 1), Failing)
  }

  ghost function AfterPublish(cfg: Config, sys: System, run: string, tx: Tx): System
    requires run in sys.workers && Verified(cfg, sys.workers[run])
  {
    var w := sys.workers[run];
    var effect := Published(sys.tables, cfg.tenant, w.attempt, Summarized(cfg, w), sys.queue.now + tx.wait);
    var after := Fenced(sys, run, tx, effect, Done, Failing);
    if Open(sys.queue, tx) && effect.Some? then after.(published := sys.published + [run]) else after
  }

  ghost function AfterFail(cfg: Config, sys: System, run: string, code: string, tx: Tx): System
    requires run in sys.workers
  {
    var w := sys.workers[run];
    Fenced(sys, run, tx, FailedWith(sys.tables, cfg.tenant, w.attempt, code, sys.queue.now + tx.wait), Done, Done)
  }

  ghost function Step(cfg: Config, sys: System, e: Event): System
    requires OptionsOk(cfg.options)
  {
    if !Enabled(cfg, sys, e) then sys
    else match e
    case Other(event) => sys.(queue := Queue.Step(sys.queue, event))
    case Begin(run, stream, tx) => AfterBegin(cfg, sys, run, stream, tx)
    case Reclaim(run, keys, tx) => AfterReclaim(cfg, sys, run, keys, tx)
    case StageNext(run, tx) => AfterStage(cfg, sys, run, tx)
    case Publish(run, tx) => AfterPublish(cfg, sys, run, tx)
    case GiveUp(run) => sys.(workers := sys.workers[run := sys.workers[run].(phase := Failing)])
    case Fail(run, code, tx) => AfterFail(cfg, sys, run, code, tx)
  }

  ghost function Run(cfg: Config, sys: System, events: seq<Event>): System
    requires OptionsOk(cfg.options)
    decreases |events|
  {
    if events == [] then sys else Run(cfg, Step(cfg, sys, events[0]), events[1..])
  }

  // ----- the rows behind the batches -----

  /** The rows of the stream that fit, in order. */
  ghost function FittingRows(cfg: Config, w: Worker): seq<ProjectRow>
    requires OptionsOk(cfg.options)
  {
    var lines := Lines(w.stream).0;
    if Verified(cfg, w) then StreamRows(cfg.codec, cfg.options, cfg.tenant, w.stream)
    else if !Opens(cfg.codec, cfg.options, cfg.tenant, w.stream) then []
    else RowsOf(cfg.codec, lines[1..][..Fitting(cfg.codec, cfg.options, lines[0], lines[1..], 0)])
  }

  /** What staging and publication will look at. */
  ghost predicate Sound(tenant: string, snapshot: string, rows: seq<ProjectRow>)
  {
    && (forall i :: 0 <= i < |rows| ==>
          ValidProjectRow(rows[i]) && rows[i].tenant == tenant && rows[i].snapshot == snapshot)
    && AscendingIds(rows) && |rows| <= MAX_PROJECTS && Items(rows) <= MAX_SERVICE_ITEMS
  }

  lemma FittingIsSound(cfg: Config, w: Worker) returns (snapshot: string)
    requires OptionsOk(cfg.options)
    ensures Sound(cfg.tenant, snapshot, FittingRows(cfg, w))
    ensures Verified(cfg, w) ==>
      && snapshot == Summarized(cfg, w).snapshot && ProjectIdentifier(snapshot, 128)
      && Summarized(cfg, w).sourceSnapshotAt.instant != 0
      && Summarized(cfg, w).total == |FittingRows(cfg, w)|
      && Summarized(cfg, w).tenant == cfg.tenant
  {
    hide LineEnd, Lines, Concat, Items, AscendingIds, ProjectIdentifier, ValidProjectRow;
    snapshot := "";
    if Opens(cfg.codec, cfg.options, cfg.tenant, w.stream) {
      snapshot := cfg.codec.header(Lines(w.stream).0[0]).value.snapshot;
    }
    if FittingRows(cfg, w) == [] {
      NoRowsSound(cfg.tenant, snapshot);
    }
  }

  lemma NoRowsSound(tenant: string, snapshot: string)
    ensures Sound(tenant, snapshot, [])
  {
  }

  /** The batches are consecutive pieces of the fitting rows. */
  lemma BatchesArePieces(cfg: Config, w: Worker, k: nat)
    requires OptionsOk(cfg.options) && k <= |Batches(cfg, w)|
    ensures var rows := FittingRows(cfg, w);
      && Concat(Batches(cfg, w)[..k]) == rows[..if BATCH * k <= |rows| then BATCH * k else |rows|]
      && (k < |Batches(cfg, w)| ==>
            BATCH * k < |rows| && Batches(cfg, w)[k] == rows[BATCH * k..if BATCH * (k + 1) <= |rows| then BATCH * (k + 1) else |rows|])
      && (Verified(cfg, w) && k == |Batches(cfg, w)| ==> Concat(Batches(cfg, w)) == rows)
  {
    hide Accepts, LineEnd, Lines, Fitting, RowsFit, RowsOf, Concat;
    var rows, batches := FittingRows(cfg, w), Batches(cfg, w);
    assert batches == Chunks(rows) || batches == FullChunks(rows) by {
      assert FullChunks<ProjectRow>([]) == [];
    }
    ChunksAreFullAndLast(rows);
    assert batches <= Chunks(rows);
    assert batches[..k] == Chunks(rows)[..k];
    ChunksPrefix(rows, k);
    if Verified(cfg, w) && k == |batches| {
      ChunksAreTheRows(rows);
    }
  }

  lemma SoundPieces(tenant: string, snapshot: string, rows: seq<ProjectRow>, i: nat, j: nat)
    requires Sound(tenant, snapshot, rows) && i <= j <= |rows|
    ensures Sound(tenant, snapshot, rows[..j])
    ensures AscendingIds(rows[i..j])
    ensures forall k :: 0 <= k < j - i ==>
      ValidProjectRow(rows[i..j][k]) && rows[i..j][k].tenant == tenant && rows[i..j][k].snapshot == snapshot
  {
    hide Before, ValidProjectRow;
    assert 0 <= Items(rows) - Items(rows[..j]) by {
      NonNegativeItems(rows);
      ItemsOfPrefix(rows, j);
    }
  }

  lemma NonNegativeItems(rows: seq<ProjectRow>)
    requires forall i :: 0 <= i < |rows| ==> ValidProjectRow(rows[i])
    ensures forall i :: 0 <= i < |rows| ==> 0 <= rows[i].serviceItems
  {
  }

  /** A sound run whose staged rows are its first ones can stage the next batch. */
  lemma SoundBatchIsStaged(db: Tables, tenant: string, a: Attempt, snapshot: string,
    sent: seq<ProjectRow>, batch: seq<ProjectRow>)
    requires Holds(db.state, tenant, a) && db.stage == Staged(a.run, sent)
    requires Sound(tenant, snapshot, sent + batch) && 0 < |batch| <= BATCH
    requires BatchOk(tenant, batch)
    ensures StagedMore(db, tenant, a, batch) == Some(db.(stage := Staged(a.run, sent + batch)))
  {
    hide Before, ValidProjectRow, Staged, ById, Items, SumItems, BatchOk;
    var rows := sent + batch;
    StagedAppend(a.run, sent, batch);
    assert forall i :: 0 <= i < |batch| ==> Key(a.run, batch[i].id) !in db.stage by {
      forall i | 0 <= i < |batch|
        ensures Key(a.run, batch[i].id) !in Staged(a.run, sent)
      {
        NewId(a.run, sent, batch, i);
      }
    }
    StagedTotals(a.run, tenant, snapshot, rows);
  }

  lemma NewId(run: string, sent: seq<ProjectRow>, batch: seq<ProjectRow>, i: nat)
    requires AscendingIds(sent + batch) && i < |batch|
    ensures Key(run, batch[i].id) !in Staged(run, sent)
  {
    hide Before, Staged, ById;
    StagedIsById(run, sent);
    ByIdKeys(sent);
    forall j | 0 <= j < |sent|
      ensures sent[j].id != batch[i].id
    {
      var rows := sent + batch;
      assert rows[j] == sent[j] && rows[|sent| + i] == batch[i];
      BeforeTotal(sent[j].id, batch[i].id);
    }
  }

  lemma StagedTotals(run: string, tenant: string, snapshot: string, rows: seq<ProjectRow>)
    requires Sound(tenant, snapshot, rows) && rows != []
    ensures RunRows(Staged(run, rows), run) == ById(rows)
    ensures StageTotalsOk(ById(rows))
    ensures forall id :: id in ById(rows) ==> ById(rows)[id].snapshot == snapshot
  {
    hide Before, ValidProjectRow, Items, SumItems, AscendingIds;
    RunRowsAreById(run, rows);
    ByIdKeepsRows(rows);
    OneSnapshot(snapshot, rows);
    var snapshots := set id | id in ById(rows) :: ById(rows)[id].snapshot;
    ByIdFinds(rows, 0);
    assert snapshot in snapshots;
    assert snapshots == {snapshot};
  }

  lemma RunRowsAreById(run: string, rows: seq<ProjectRow>)
    ensures RunRows(Staged(run, rows), run) == ById(rows)
    ensures OtherKeys(Staged(run, rows), run) == {}
  {
    hide Staged, ById;
    StagedIsById(run, rows);
    var a, b := RunRows(Staged(run, rows), run), ById(rows);
    forall id
      ensures (id in a <==> id in b) && (id in a ==> a[id] == b[id])
    {
      assert id in a <==> Key(run, id) in Staged(run, rows);
    }
  }

  lemma {:induction false} OneSnapshot(snapshot: string, rows: seq<ProjectRow>)
    requires forall i :: 0 <= i < |rows| ==> rows[i].snapshot == snapshot
    ensures forall id :: id in ById(rows) ==> ById(rows)[id].snapshot == snapshot
  {
    if rows != [] {
      OneSnapshot(snapshot, rows[..|rows| - 1]);
    }
  }

  /** A complete sound run can be published, and then exactly its rows are visible. */
  lemma SoundRunIsPublished(db: Tables, tenant: string, a: Attempt, s: Summary, rows: seq<ProjectRow>, now: int)
    requires Holds(db.state, tenant, a) && db.stage == Staged(a.run, rows)
    requires Sound(tenant, s.snapshot, rows) && SummaryOk(a, s) && s.total == |rows|
    ensures Published(db, tenant, a, s, now).Some?
    ensures var next := Published(db, tenant, a, s, now).value;
      && next.dim == ById(rows) && next.stage == map[] && |next.dim| == s.total
      && forall id :: id in next.dim ==> next.dim[id].snapshot == s.snapshot
  {
    hide Before, ValidProjectRow, Items, SumItems, Staged, ById, AscendingIds;
    RunRowsAreById(a.run, rows);
    ByIdKeepsRows(rows);
    OneSnapshot(s.snapshot, rows);
    var next := PublishedTables(db, a, s, now);
    assert forall k :: k in db.stage ==> k !in OtherKeys(db.stage, a.run);
    assert next.stage == map[];
  }

  // ----- the invariant -----

  /** Runs are known, their generations are behind the state's, and the current one belongs to its run. */
  ghost predicate FenceOk(cfg: Config, sys: System)
  {
    && (forall r :: r in sys.workers ==>
          var a := sys.workers[r].attempt;
          && a.run == r && r != "" && a.tenant == cfg.tenant && sys.tables.state.Some?
          && 1 <= a.generation <= sys.tables.state.value.generation)
    && (forall k :: k in sys.tables.stage ==> k.run in sys.workers)
  }

  /** The staged rows are exactly what the current attempt has sent so far. */
  ghost predicate StageOk(cfg: Config, sys: System, r: string)
    requires r in sys.workers && OptionsOk(cfg.options)
  {
    var w := sys.workers[r];
    match w.phase
    case Reclaiming(_) => forall k :: k in sys.tables.stage ==> k.run != r
    case Reading(sent) =>
      && sent <= |Batches(cfg, w)|
      && sys.tables.stage == Staged(r, Concat(Batches(cfg, w)[..sent]))
    case _ => true
  }

  ghost predicate Current(cfg: Config, sys: System, r: string)
  {
    r in sys.workers && Holds(sys.tables.state, cfg.tenant, sys.workers[r].attempt)
  }

  /** What is visible is one verified stream, the one published last. */
  ghost predicate VisibleOk(cfg: Config, sys: System)
    requires OptionsOk(cfg.options)
  {
    if sys.published == [] then sys.tables.dim == map[]
    else
      var r := sys.published[|sys.published| - 1];
      && r in sys.workers && Verified(cfg, sys.workers[r]) && sys.tables.state.Some?
      && var s, state, rows := Summarized(cfg, sys.workers[r]), sys.tables.state.value, FittingRows(cfg, sys.workers[r]);
      && sys.tables.dim == ById(rows) && |sys.tables.dim| == |rows| == state.publishedTotal
      && (forall id :: id in sys.tables.dim ==> sys.tables.dim[id].snapshot == state.publishedSnapshot)
      && state.publishedRun == r && state.publishedSnapshot == s.snapshot
      && state.publishedSourceSnapshotAt == Some(s.sourceSnapshotAt)
      && state.publishedSourceUpdatedAt == s.sourceUpdatedAt
      && state.publishedChecksum == s.checksum
  }

  /** Publications come in the order of their generations, and a running attempt has not published. */
  ghost predicate OrderOk(sys: System)
  {
    && (forall i :: 0 <= i < |sys.published| ==> sys.published[i] in sys.workers && sys.tables.state.Some?)
    && (forall i, j :: 0 <= i < j < |sys.published| ==>
          sys.workers[sys.published[i]].attempt.generation < sys.workers[sys.published[j]].attempt.generation)
    && (sys.tables.state.Some? && sys.tables.state.value.status.Running? ==>
          forall i :: 0 <= i < |sys.published| ==>
            sys.workers[sys.published[i]].attempt.generation < sys.tables.state.value.generation)
  }

  ghost predicate Inv(cfg: Config, sys: System)
    requires OptionsOk(cfg.options)
  {
    && FenceOk(cfg, sys)
    && (forall r :: Current(cfg, sys, r) ==> StageOk(cfg, sys, r))
    && VisibleOk(cfg, sys) && OrderOk(sys)
  }

  ghost predicate Init(sys: System)
  {
    sys.tables == Tables(None, map[], map[]) && sys.workers == map[] && sys.published == []
  }

  lemma InitIsInv(cfg: Config, sys: System)
    requires OptionsOk(cfg.options) && Init(sys)
    ensures Inv(cfg, sys)
  {
  }

  /** Only one run can pass the second fence. */
  lemma OneCurrent(cfg: Config, sys: System, r: string, q: string)
    requires FenceOk(cfg, sys) && Current(cfg, sys, r) && Current(cfg, sys, q)
    ensures r == q
  {
  }

  // ----- one step at a time -----

  /** Workers keep their attempt and stream; nobody disappears. */
  ghost predicate SameWorkers(sys: System, next: System)
  {
    forall r :: r in sys.workers ==>
      && r in next.workers
      && next.workers[r].attempt == sys.workers[r].attempt && next.workers[r].stream == sys.workers[r].stream
  }

  /** A step that publishes nothing leaves what was published alone. */
  ghost predicate NothingPublished(sys: System, next: System)
  {
    && next.published == sys.published && next.tables.dim == sys.tables.dim
    && (sys.tables.state.Some? ==>
          && next.tables.state.Some?
          && var a, b := sys.tables.state.value, next.tables.state.value;
          && b.publishedRun == a.publishedRun && b.publishedSnapshot == a.publishedSnapshot
          && b.publishedSourceSnapshotAt == a.publishedSourceSnapshotAt
          && b.publishedSourceUpdatedAt == a.publishedSourceUpdatedAt
          && b.publishedTotal == a.publishedTotal && b.publishedChecksum == a.publishedChecksum
          && a.generation <= b.generation
          && (b.generation == a.generation && b.status.Running? ==> a.status.Running?))
  }

  lemma PublishedFrame(cfg: Config, sys: System, next: System)
    requires OptionsOk(cfg.options) && FenceOk(cfg, sys) && VisibleOk(cfg, sys) && OrderOk(sys)
    requires SameWorkers(sys, next) && NothingPublished(sys, next)
    ensures VisibleOk(cfg, next) && OrderOk(next)
  {
    hide Accepts, ById, SummaryOf, StreamRows, Lines, Fitting, RowsOf;
    if sys.published != [] {
      var r := sys.published[|sys.published| - 1];
      SameStream(cfg, sys.workers[r], next.workers[r]);
    }
  }

  lemma SameStream(cfg: Config, a: Worker, b: Worker)
    requires OptionsOk(cfg.options) && a.stream == b.stream
    ensures Verified(cfg, a) <==> Verified(cfg, b)
    ensures FittingRows(cfg, a) == FittingRows(cfg, b) && Batches(cfg, a) == Batches(cfg, b)
    ensures Verified(cfg, a) ==> Summarized(cfg, a) == Summarized(cfg, b)
  {
  }

  lemma BeginKeepsInv(cfg: Config, sys: System, run: string, stream: Bytes, tx: Tx)
    requires OptionsOk(cfg.options) && Inv(cfg, sys) && Enabled(cfg, sys, Begin(run, stream, tx))
    ensures Inv(cfg, AfterBegin(cfg, sys, run, stream, tx))
  {
    hide VisibleOk, OrderOk, Batches, Staged, ById;
    var next := AfterBegin(cfg, sys, run, stream, tx);
    PublishedFrame(cfg, sys, next);
    if next.tables == sys.tables {
      assert next.workers == sys.workers;
      assert forall r :: Current(cfg, next, r) ==> Current(cfg, sys, r);
    } else {
      assert FenceOk(cfg, next);
      assert forall r :: Current(cfg, next, r) ==> r == run;
    }
  }

  /** A step of one worker that changes neither the fence nor another run's right to it. */
  lemma WorkerStepKeepsInv(cfg: Config, sys: System, next: System, run: string)
    requires OptionsOk(cfg.options) && Inv(cfg, sys)
    requires run in sys.workers && next.workers.Keys == sys.workers.Keys
    requires SameWorkers(sys, next) && NothingPublished(sys, next)
    requires forall r :: r in sys.workers && r != run ==> next.workers[r] == sys.workers[r]
    requires forall k :: k in next.tables.stage ==> k.run in sys.workers
    requires next.tables.state.Some? ==>
      && sys.tables.state.Some?
      && next.tables.state.value.generation == sys.tables.state.value.generation
      && next.tables.state.value.run == sys.tables.state.value.run
    requires next.tables.stage == sys.tables.stage || Current(cfg, sys, run)
    requires Current(cfg, next, run) ==> Current(cfg, sys, run) && StageOk(cfg, next, run)
    ensures Inv(cfg, next)
  {
    hide VisibleOk, OrderOk, Batches, Staged;
    PublishedFrame(cfg, sys, next);
    forall r | Current(cfg, next, r)
      ensures StageOk(cfg, next, r)
    {
      assert Current(cfg, sys, r);
      if r != run && next.tables.stage != sys.tables.stage {
        OneCurrent(cfg, sys, r, run);
      }
    }
  }

  lemma ReclaimKeepsInv(cfg: Config, sys: System, run: string, keys: set<Key>, tx: Tx)
    requires OptionsOk(cfg.options) && Inv(cfg, sys) && Enabled(cfg, sys, Reclaim(run, keys, tx))
    ensures Inv(cfg, AfterReclaim(cfg, sys, run, keys, tx))
  {
    hide VisibleOk, OrderOk, Batches, Deliveries, Accepts, ById, IsReclaimBatch;
    var next := AfterReclaim(cfg, sys, run, keys, tx);
    if |keys| < RECLAIM_BATCH && Current(cfg, sys, run) {
      ShortBatchIsAll(sys.tables.stage, run, keys);
      assert sys.tables.stage - keys == map[];
    }
    WorkerStepKeepsInv(cfg, sys, next, run);
  }

  lemma GiveUpKeepsInv(cfg: Config, sys: System, run: string)
    requires OptionsOk(cfg.options) && Inv(cfg, sys) && run in sys.workers
    ensures Inv(cfg, sys.(workers := sys.workers[run := sys.workers[run].(phase := Failing)]))
  {
    hide VisibleOk, OrderOk, Batches, Deliveries, Accepts, ById;
    WorkerStepKeepsInv(cfg, sys, sys.(workers := sys.workers[run := sys.workers[run].(phase := Failing)]), run);
  }

  lemma FailKeepsInv(cfg: Config, sys: System, run: string, code: string, tx: Tx)
    requires OptionsOk(cfg.options) && Inv(cfg, sys) && run in sys.workers
    ensures Inv(cfg, AfterFail(cfg, sys, run, code, tx))
  {
    hide VisibleOk, OrderOk, Batches, Deliveries, Accepts, ById;
    WorkerStepKeepsInv(cfg, sys, AfterFail(cfg, sys, run, code, tx), run);
  }

  /** An undisturbed attempt, one that still is the current one, is never rejected while staging. */
  lemma StagingIsNeverRejected(cfg: Config, sys: System, run: string)
    requires OptionsOk(cfg.options) && Inv(cfg, sys)
    requires Current(cfg, sys, run) && sys.workers[run].phase.Reading?
    requires sys.workers[run].phase.sent < |Batches(cfg, sys.workers[run])|
    ensures var w := sys.workers[run];
      var batches, sent := Batches(cfg, w), w.phase.sent;
      StagedMore(sys.tables, cfg.tenant, w.attempt, batches[sent])
      == Some(sys.tables.(stage := Staged(run, Concat(batches[..sent + 1]))))
  {
    hide VisibleOk, OrderOk, Batches, Deliveries, FittingRows, Accepts, ById, Staged, Sound, StagedMore, Holds,
      Concat, FenceOk;
    var w := sys.workers[run];
    var rows, batches, sent := FittingRows(cfg, w), Batches(cfg, w), w.phase.sent;
    var snapshot := FittingIsSound(cfg, w);
    BatchesArePieces(cfg, w, sent);
    BatchesArePieces(cfg, w, sent + 1);
    assert w.attempt.run == run by { RunOf(cfg, sys, run); }
    NextBatchIsStaged(sys.tables, cfg.tenant, w.attempt, snapshot, rows, sent);
  }

  lemma RunOf(cfg: Config, sys: System, run: string)
    requires FenceOk(cfg, sys) && run in sys.workers
    ensures sys.workers[run].attempt.run == run && sys.workers[run].attempt.tenant == cfg.tenant
  {
  }

  lemma NextBatchIsStaged(db: Tables, tenant: string, a: Attempt, snapshot: string, rows: seq<ProjectRow>, k: nat)
    requires Holds(db.state, tenant, a) && Sound(tenant, snapshot, rows) && BATCH * k < |rows|
    requires db.stage == Staged(a.run, rows[..BATCH * k])
    ensures var end := if BATCH * (k + 1) <= |rows| then BATCH * (k + 1) else |rows|;
      StagedMore(db, tenant, a, rows[BATCH * k..end]) == Some(db.(stage := Staged(a.run, rows[..end])))
  {
    hide Sound, StagedMore, Holds, Staged, ValidProjectRow, AscendingIds;
    var end := if BATCH * (k + 1) <= |rows| then BATCH * (k + 1) else |rows|;
    SoundPieces(tenant, snapshot, rows, BATCH * k, end);
    assert rows[..BATCH * k] + rows[BATCH * k..end] == rows[..end];
    SoundBatchIsStaged(db, tenant, a, snapshot, rows[..BATCH * k], rows[BATCH * k..end]);
  }

  lemma StageKeepsInv(cfg: Config, sys: System, run: string, tx: Tx)
    requires OptionsOk(cfg.options) && Inv(cfg, sys) && Enabled(cfg, sys, StageNext(run, tx))
    ensures Inv(cfg, AfterStage(cfg, sys, run, tx))
  {
    hide Inv, Batches, Accepts, Holds, StagedMore, Open, AfterWrite, Current;
    var w := sys.workers[run];
    var batch := Batches(cfg, w)[w.phase.sent];
    if Open(sys.queue, tx) && StagedMore(sys.tables, cfg.tenant, w.attempt, batch).Some? {
      StagedOnlyIfCurrent(cfg, sys, run, batch);
      var phase := if tx.reply.Acknowledged? then Reading(w.phase.sent + 1) else Failing;
      StagedKeepsInv(cfg, sys, AfterStage(cfg, sys, run, tx), run, phase);
    } else {
      FailureKeepsInv(cfg, sys, AfterStage(cfg, sys, run, tx), run);
    }
  }

  lemma StagedKeepsInv(cfg: Config, sys: System, next: System, run: string, phase: Phase)
    requires OptionsOk(cfg.options) && Inv(cfg, sys) && Current(cfg, sys, run) && sys.workers[run].phase.Reading?
    requires sys.workers[run].phase.sent < |Batches(cfg, sys.workers[run])|
    requires phase == Failing || phase == Reading(sys.workers[run].phase.sent + 1)
    requires var w := sys.workers[run];
      var staged := StagedMore(sys.tables, cfg.tenant, w.attempt, Batches(cfg, w)[w.phase.sent]);
      && staged.Some?
      && next == sys.(queue := next.queue, tables := staged.value, workers := sys.workers[run := w.(phase := phase)])
    ensures Inv(cfg, next)
  {
    hide VisibleOk, OrderOk, Batches, Deliveries, Accepts, ById, Staged, Concat, StagedMore;
    var w := sys.workers[run];
    SameStream(cfg, w, next.workers[run]);
    StagingIsNeverRejected(cfg, sys, run);
    StagedIsById(run, Concat(Batches(cfg, w)[..w.phase.sent + 1]));
    WorkerStepKeepsInv(cfg, sys, next, run);
  }

  lemma StagedOnlyIfCurrent(cfg: Config, sys: System, run: string, batch: seq<ProjectRow>)
    requires run in sys.workers && StagedMore(sys.tables, cfg.tenant, sys.workers[run].attempt, batch).Some?
    ensures Current(cfg, sys, run)
  {
    hide StagedMore;
    if !Holds(sys.tables.state, cfg.tenant, sys.workers[run].attempt) {
      NotStaged(sys.tables, cfg.tenant, sys.workers[run].attempt, batch);
    }
  }

  lemma NotStaged(db: Tables, tenant: string, a: Attempt, batch: seq<ProjectRow>)
    ensures !Holds(db.state, tenant, a) ==> StagedMore(db, tenant, a, batch).None?
  {
  }

  /** An undisturbed attempt whose stream was verified is never rejected when it publishes. */
  lemma PublicationIsNeverRejected(cfg: Config, sys: System, run: string, now: int)
    requires OptionsOk(cfg.options) && Inv(cfg, sys)
    requires Current(cfg, sys, run) && Verified(cfg, sys.workers[run])
    requires sys.workers[run].phase == Reading(|Batches(cfg, sys.workers[run])|)
    ensures var w := sys.workers[run];
      var s, rows := Summarized(cfg, w), FittingRows(cfg, w);
      && Published(sys.tables, cfg.tenant, w.attempt, s, now).Some?
      && var next := Published(sys.tables, cfg.tenant, w.attempt, s, now).value;
      && next.dim == ById(rows) && next.stage == map[] && |next.dim| == s.total == |rows|
      && forall id :: id in next.dim ==> next.dim[id].snapshot == s.snapshot
  {
    hide VisibleOk, OrderOk, Batches, Deliveries, FittingRows, Accepts, SummaryOf, ById, Staged, Published, Holds,
      Concat, FenceOk, AscendingIds, Items, ValidProjectRow;
    var w := sys.workers[run];
    var batches := Batches(cfg, w);
    var snapshot := FittingIsSound(cfg, w);
    BatchesArePieces(cfg, w, |batches|);
    assert batches[..|batches|] == batches;
    RunOf(cfg, sys, run);
    SoundRunIsPublished(sys.tables, cfg.tenant, w.attempt, Summarized(cfg, w), FittingRows(cfg, w), now);
  }

  lemma PublishKeepsInv(cfg: Config, sys: System, run: string, tx: Tx)
    requires OptionsOk(cfg.options) && Inv(cfg, sys) && Enabled(cfg, sys, Publish(run, tx))
    ensures Inv(cfg, AfterPublish(cfg, sys, run, tx))
  {
    hide Batches, Accepts, ById, FittingRows, SummaryOf, RunRows, SummaryOk, StageOk, VisibleOk, OrderOk, AfterWrite,
      NothingPublished, FenceOk;
    var w, next := sys.workers[run], AfterPublish(cfg, sys, run, tx);
    var effect := Published(sys.tables, cfg.tenant, w.attempt, Summarized(cfg, w), sys.queue.now + tx.wait);
    if Open(sys.queue, tx) && effect.Some? {
      assert Current(cfg, sys, run);
      NowVisible(cfg, sys, run, tx);
      NowLast(cfg, sys, next, run);
      NowNobody(cfg, sys, run, tx);
    } else {
      FailureKeepsInv(cfg, sys, next, run);
    }
  }

  /** After a publication the fence is closed until the next attempt begins. */
  lemma NowNobody(cfg: Config, sys: System, run: string, tx: Tx)
    requires OptionsOk(cfg.options) && FenceOk(cfg, sys) && Enabled(cfg, sys, Publish(run, tx))
    requires Open(sys.queue, tx) && Current(cfg, sys, run)
    ensures var next := AfterPublish(cfg, sys, run, tx);
      next.tables != sys.tables ==> FenceOk(cfg, next) && forall r :: !Current(cfg, next, r)
  {
    hide Batches, Accepts, ById, SummaryOf, RunRows, SummaryOk, AfterWrite, Open;
  }

  lemma NowVisible(cfg: Config, sys: System, run: string, tx: Tx)
    requires OptionsOk(cfg.options) && Inv(cfg, sys) && Enabled(cfg, sys, Publish(run, tx))
    requires Open(sys.queue, tx) && Current(cfg, sys, run)
    ensures VisibleOk(cfg, AfterPublish(cfg, sys, run, tx))
  {
    hide Batches, Accepts, ById, FittingRows, SummaryOf, RunRows, SummaryOk, StageOk, OrderOk;
    var w, next := sys.workers[run], AfterPublish(cfg, sys, run, tx);
    PublicationIsNeverRejected(cfg, sys, run, sys.queue.now + tx.wait);
    SameStream(cfg, w, next.workers[run]);
  }

  lemma NowLast(cfg: Config, sys: System, next: System, run: string)
    requires FenceOk(cfg, sys) && OrderOk(sys) && Current(cfg, sys, run)
    requires SameWorkers(sys, next) && next.published == sys.published + [run]
    requires next.tables.state.Some? && !next.tables.state.value.status.Running?
    ensures OrderOk(next)
  {
    forall i, j | 0 <= i < j < |next.published|
      ensures next.workers[next.published[i]].attempt.generation < next.workers[next.published[j]].attempt.generation
    {
      assert next.published[i] == sys.published[i];
    }
  }

  lemma FailureKeepsInv(cfg: Config, sys: System, next: System, run: string)
    requires OptionsOk(cfg.options) && Inv(cfg, sys) && run in sys.workers
    requires next == sys.(queue := next.queue, workers := sys.workers[run := sys.workers[run].(phase := Failing)])
    ensures Inv(cfg, next)
  {
    hide VisibleOk, OrderOk, Batches, Deliveries, Accepts, ById, Staged;
    WorkerStepKeepsInv(cfg, sys, next, run);
  }

  lemma OtherKeepsInv(cfg: Config, sys: System, queue: Queue.Db)
    requires OptionsOk(cfg.options) && Inv(cfg, sys)
    ensures Inv(cfg, sys.(queue := queue))
  {
    hide VisibleOk, OrderOk, Batches, Staged;
    var next := sys.(queue := queue);
    PublishedFrame(cfg, sys, next);
    assert forall r :: Current(cfg, next, r) ==> Current(cfg, sys, r);
  }

  lemma StepKeepsInv(cfg: Config, sys: System, e: Event)
    requires OptionsOk(cfg.options) && Inv(cfg, sys)
    ensures Inv(cfg, Step(cfg, sys, e))
  {
    hide Inv, AfterBegin, AfterReclaim, AfterStage, AfterPublish, AfterFail;
    if Enabled(cfg, sys, e) {
      match e
      case Other(event) => OtherKeepsInv(cfg, sys, Queue.Step(sys.queue, event));
      case Begin(run, stream, tx) => BeginKeepsInv(cfg, sys, run, stream, tx);
      case Reclaim(run, keys, tx) => ReclaimKeepsInv(cfg, sys, run, keys, tx);
      case StageNext(run, tx) => StageKeepsInv(cfg, sys, run, tx);
      case Publish(run, tx) => PublishKeepsInv(cfg, sys, run, tx);
      case GiveUp(run) => GiveUpKeepsInv(cfg, sys, run);
      case Fail(run, code, tx) => FailKeepsInv(cfg, sys, run, code, tx);
    }
  }

  lemma {:induction false} RunKeepsInv(cfg: Config, sys: System, events: seq<Event>)
    requires OptionsOk(cfg.options) && Inv(cfg, sys)
    ensures Inv(cfg, Run(cfg, sys, events))
    decreases |events|
  {
    hide Inv, Step;
    if events != [] {
      StepKeepsInv(cfg, sys, events[0]);
      RunKeepsInv(cfg, Step(cfg, sys, events[0]), events[1..]);
    }
  }

  // ----- over whole runs -----

  /** The visible table and the published metadata show this stream and nothing else. */
  ghost predicate Shows(cfg: Config, tables: Tables, stream: Bytes)
    requires OptionsOk(cfg.options)
  {
    && Accepts(cfg.codec, cfg.options, cfg.tenant, stream) && tables.state.Some?
    && var rows := StreamRows(cfg.codec, cfg.options, cfg.tenant, stream);
    && var s, state := SummaryOf(cfg.codec, cfg.options, cfg.tenant, stream), tables.state.value;
    && var batches := Deliveries(cfg.codec, cfg.options, cfg.tenant, stream);
    && tables.dim == ById(rows) && |tables.dim| == |rows| == state.publishedTotal == s.total
    && (forall id :: id in tables.dim ==> tables.dim[id].snapshot == state.publishedSnapshot)
    && state.publishedSnapshot == s.snapshot && state.publishedChecksum == s.checksum
    && state.publishedSourceSnapshotAt == Some(s.sourceSnapshotAt)
    && state.publishedSourceUpdatedAt == s.sourceUpdatedAt
    && Concat(batches) == rows && |batches| == (|rows| + 199) / 200
  }

  lemma VisibleShows(cfg: Config, sys: System)
    requires OptionsOk(cfg.options) && Inv(cfg, sys) && sys.published != []
    ensures sys.published[|sys.published| - 1] in sys.workers
    ensures Shows(cfg, sys.tables, sys.workers[sys.published[|sys.published| - 1]].stream)
  {
    hide Accepts, ById, SummaryOf, OrderOk, StageOk, StreamRows, Chunks, FullChunks;
    var w := sys.workers[sys.published[|sys.published| - 1]];
    ChunksAreTheRows(FittingRows(cfg, w));
    TotalIsRows(cfg, w);
  }

  lemma TotalIsRows(cfg: Config, w: Worker)
    requires OptionsOk(cfg.options) && Verified(cfg, w)
    ensures Summarized(cfg, w).total == |FittingRows(cfg, w)|
  {
  }

  lemma NothingVisible(cfg: Config, sys: System)
    requires OptionsOk(cfg.options) && Inv(cfg, sys) && sys.published == []
    ensures sys.tables.dim == map[]
  {
  }

  /**
   * Under every interleaving of attempts, failures and lost leases: as soon as
   * anything was published, the visible rows are exactly the rows of one stream
   * that the reader accepts, the one published last, and the published snapshot,
   * total and checksum are those that its end line vouched for.
   */
  lemma VisibleIsOneVerifiedStream(cfg: Config, init: System, events: seq<Event>)
    requires OptionsOk(cfg.options) && Init(init)
    ensures var sys := Run(cfg, init, events);
      if sys.published == [] then sys.tables.dim == map[]
      else
        && sys.published[|sys.published| - 1] in sys.workers
        && Shows(cfg, sys.tables, sys.workers[sys.published[|sys.published| - 1]].stream)
  {
    hide Shows, Inv, Run;
    InitIsInv(cfg, init);
    RunKeepsInv(cfg, init, events);
    var sys := Run(cfg, init, events);
    if sys.published == [] {
      NothingVisible(cfg, sys);
    } else {
      VisibleShows(cfg, sys);
    }
  }

  /** A row as the tenant's readers may rely on it. */
  predicate WellFormed(p: ProjectRow, tenant: string)
  {
    && p.kind == "project" && p.tenant == tenant && 1 <= |p.id| <= 32 && |p.name| <= 255 && 1 <= |p.status| <= 32
    && 0 <= p.progress <= 100 && 0 <= p.serviceItems <= 250000
    && p.createdAt.instant <= p.updatedAt.instant <= p.sourceUpdatedAt.instant
    && p.createdAt.offset == 0 && p.updatedAt.offset == 0 && p.sourceUpdatedAt.offset == 0
  }

  /**
   * Whatever interleaves, every visible row is the tenant's own, well formed and
   * of the published snapshot; there are at most 50,000 of them with at most
   * 250,000 service items, and the published update time is the greatest among them.
   */
  lemma VisibleRowsAreValid(cfg: Config, init: System, events: seq<Event>)
    requires OptionsOk(cfg.options) && Init(init)
    ensures var db := Run(cfg, init, events).tables;
      && |db.dim| <= 50000 && SumItems(db.dim) <= 250000
      && (db.dim != map[] ==> db.state.Some? && db.state.value.publishedSourceUpdatedAt.Some?)
      && forall id :: id in db.dim ==>
        && db.dim[id].id == id && WellFormed(db.dim[id], cfg.tenant)
        && db.dim[id].snapshot == db.state.value.publishedSnapshot
        && db.dim[id].sourceUpdatedAt.instant <= db.state.value.publishedSourceUpdatedAt.value.instant
  {
    hide Inv, Run, ById, SumItems, AscendingIds, Items, WellFormed, ValidProjectRow, Latest, Accepts, Lines;
    InitIsInv(cfg, init);
    RunKeepsInv(cfg, init, events);
    var sys := Run(cfg, init, events);
    var dim := sys.tables.dim;
    NoItems();
    if sys.published == [] {
      NothingVisible(cfg, sys);
    } else {
      VisibleShows(cfg, sys);
      var w := sys.workers[sys.published[|sys.published| - 1]];
      var rows := FittingRows(cfg, w);
      var snapshot := FittingIsSound(cfg, w);
      ByIdKeepsRows(rows);
      ByIdKeys(rows);
      var latest := LatestIsGreatest(rows);
      forall id | id in dim
        ensures dim[id].id == id && WellFormed(dim[id], cfg.tenant) && dim[id].snapshot == snapshot
        ensures Latest(rows).Some? && dim[id].sourceUpdatedAt.instant <= Latest(rows).value.instant
      {
        var i :| 0 <= i < |rows| && rows[i].id == id;
        ByIdFinds(rows, i);
        ValidIsWellFormed(rows[i]);
      }
      if dim != map[] {
        var id :| id in dim;
      }
    }
  }

  lemma ValidIsWellFormed(p: ProjectRow)
    requires ValidProjectRow(p)
    ensures WellFormed(p, p.tenant)
  {
  }

  /** A later publication never comes from an earlier generation. */
  lemma PublicationsFollowGenerations(cfg: Config, init: System, events: seq<Event>, i: nat, j: nat)
    requires OptionsOk(cfg.options) && Init(init)
    requires i < j < |Run(cfg, init, events).published|
    ensures var sys := Run(cfg, init, events);
      && sys.published[i] in sys.workers && sys.published[j] in sys.workers
      && sys.workers[sys.published[i]].attempt.generation < sys.workers[sys.published[j]].attempt.generation
  {
    hide Run;
    InitIsInv(cfg, init);
    RunKeepsInv(cfg, init, events);
  }

  /** The transactions that can change the tables for this run. */
  predicate WritesFor(e: Event, run: string)
  {
    (e.Reclaim? || e.StageNext? || e.Publish? || e.Fail?) && e.run == run
  }

  /**
   * From any reachable state on, over any further events: a run that is the
   * current one at both ends was so all the time; meanwhile nobody added rows of
   * another run, what is visible did not move, and without its own transactions
   * no table changed at all.
   */
  lemma OnlyTheCurrentRunWrites(cfg: Config, init: System, events: seq<Event>, more: seq<Event>, run: string)
    requires OptionsOk(cfg.options) && Init(init)
    requires var start := Run(cfg, init, events); Current(cfg, start, run) && Current(cfg, Run(cfg, start, more), run)
    ensures var start := Run(cfg, init, events);
      var end := Run(cfg, start, more);
      && (forall n :: 0 <= n <= |more| ==> Current(cfg, Run(cfg, start, more[..n]), run))
      && OtherKeys(end.tables.stage, run) <= OtherKeys(start.tables.stage, run)
      && end.tables.dim == start.tables.dim
      && ((forall e :: e in more ==> !WritesFor(e, run)) ==> end.tables == start.tables)
  {
    hide Inv, Run;
    InitIsInv(cfg, init);
    RunKeepsInv(cfg, init, events);
    CurrentRun(cfg, Run(cfg, init, events), more, run);
  }

  lemma {:induction false} CurrentRun(cfg: Config, sys: System, more: seq<Event>, run: string)
    requires OptionsOk(cfg.options) && Inv(cfg, sys)
    requires run in sys.workers && Current(cfg, Run(cfg, sys, more), run)
    ensures Current(cfg, sys, run)
    ensures forall n :: 0 <= n <= |more| ==> Current(cfg, Run(cfg, sys, more[..n]), run)
    ensures var end := Run(cfg, sys, more);
      && OtherKeys(end.tables.stage, run) <= OtherKeys(sys.tables.stage, run)
      && end.tables.dim == sys.tables.dim
      && ((forall e :: e in more ==> !WritesFor(e, run)) ==> end.tables == sys.tables)
    decreases |more|
  {
    hide Inv, Step, Current, OtherKeys;
    if more != [] {
      var next := Step(cfg, sys, more[0]);
      StepKeepsInv(cfg, sys, more[0]);
      FenceMoves(cfg, sys, more[0]);
      CurrentRun(cfg, next, more[1..], run);
      CurrentBefore(cfg, sys, more[0], run);
      CurrentFrame(cfg, sys, more[0], run);
      forall n | 0 <= n <= |more|
        ensures Current(cfg, Run(cfg, sys, more[..n]), run)
      {
        if n > 0 {
          assert more[..n][0] == more[0] && more[..n][1..] == more[1..][..n - 1];
        }
      }
    } else {
      assert forall n :: 0 <= n <= |more| ==> more[..n] == [];
    }
  }

  /** Generations never fall, and within one generation a run can only end. */
  lemma FenceMoves(cfg: Config, sys: System, e: Event)
    requires OptionsOk(cfg.options)
    ensures SameWorkers(sys, Step(cfg, sys, e))
    ensures sys.tables.state.Some? ==>
      && Step(cfg, sys, e).tables.state.Some?
      && var a, b := sys.tables.state.value, Step(cfg, sys, e).tables.state.value;
      && a.generation <= b.generation
      && (a.generation == b.generation ==> b.run == a.run && (b.status.Running? ==> a.status.Running?))
  {
    hide Batches, Accepts, SummaryOf, RunRows, BatchOk, StageTotalsOk, IsReclaimBatch, Open, AfterWrite;
  }

  /** A known run that is not the current one never is again. */
  lemma CurrentBefore(cfg: Config, sys: System, e: Event, run: string)
    requires OptionsOk(cfg.options) && Inv(cfg, sys) && run in sys.workers
    requires Current(cfg, Step(cfg, sys, e), run)
    ensures Current(cfg, sys, run)
  {
    hide Step, VisibleOk, OrderOk, StageOk;
    FenceMoves(cfg, sys, e);
  }

  /** A worker whose run is not the current one changes nothing. */
  lemma StaleRunHasNoEffect(cfg: Config, sys: System, e: Event)
    requires OptionsOk(cfg.options) && FenceOk(cfg, sys)
    requires (e.Reclaim? || e.StageNext? || e.Publish? || e.Fail?) && !Current(cfg, sys, e.run)
    ensures Step(cfg, sys, e).tables == sys.tables
  {
    hide Batches, Accepts, SummaryOf, RunRows, BatchOk, StageTotalsOk, Staged, FenceOk;
    if e.StageNext? && Enabled(cfg, sys, e) {
      var w := sys.workers[e.run];
      NotStaged(sys.tables, cfg.tenant, w.attempt, Batches(cfg, w)[w.phase.sent]);
    }
  }

  lemma CurrentFrame(cfg: Config, sys: System, e: Event, run: string)
    requires OptionsOk(cfg.options) && Inv(cfg, sys)
    requires Current(cfg, sys, run) && Current(cfg, Step(cfg, sys, e), run)
    ensures var next := Step(cfg, sys, e);
      && OtherKeys(next.tables.stage, run) <= OtherKeys(sys.tables.stage, run)
      && next.tables.dim == sys.tables.dim
      && (!WritesFor(e, run) ==> next.tables == sys.tables)
  {
    hide Step, Enabled, VisibleOk, OrderOk, StageOk, FenceOk;
    if e.Reclaim? || e.StageNext? || e.Publish? || e.Fail? {
      if e.run != run {
        if Current(cfg, sys, e.run) {
          OneCurrent(cfg, sys, run, e.run);
        }
        StaleRunHasNoEffect(cfg, sys, e);
      } else if Enabled(cfg, sys, e) {
        OwnStep(cfg, sys, e);
      } else {
        DisabledIsNoStep(cfg, sys, e);
      }
    } else {
      OthersLeaveTheTables(cfg, sys, e, run);
    }
  }

  lemma DisabledIsNoStep(cfg: Config, sys: System, e: Event)
    requires OptionsOk(cfg.options) && !Enabled(cfg, sys, e)
    ensures Step(cfg, sys, e) == sys
  {
  }

  lemma OthersLeaveTheTables(cfg: Config, sys: System, e: Event, run: string)
    requires OptionsOk(cfg.options) && FenceOk(cfg, sys) && (e.Other? || e.Begin? || e.GiveUp?)
    requires Current(cfg, sys, run) && Current(cfg, Step(cfg, sys, e), run)
    ensures Step(cfg, sys, e).tables == sys.tables
  {
  }

  lemma OwnStep(cfg: Config, sys: System, e: Event)
    requires OptionsOk(cfg.options) && FenceOk(cfg, sys) && Enabled(cfg, sys, e)
    requires e.Reclaim? || e.StageNext? || e.Publish? || e.Fail?
    requires Current(cfg, Step(cfg, sys, e), e.run)
    ensures var next := Step(cfg, sys, e);
      && OtherKeys(next.tables.stage, e.run) <= OtherKeys(sys.tables.stage, e.run)
      && next.tables.dim == sys.tables.dim
  {
    hide Batches, Accepts, SummaryOf, RunRows, BatchOk, StageTotalsOk, Staged;
    if e.StageNext? {
      var w := sys.workers[e.run];
      RunRowsGrow(sys.tables.stage, e.run, Batches(cfg, w)[w.phase.sent]);
    }
  }

  /**
   * Staging and publication never turn away an attempt that is still the current
   * one: what the reader checked is all that the tables ask for.
   */
  lemma UndisturbedIsNeverRejected(cfg: Config, init: System, events: seq<Event>, run: string, now: int)
    requires OptionsOk(cfg.options) && Init(init)
    requires var sys := Run(cfg, init, events); Current(cfg, sys, run) && sys.workers[run].phase.Reading?
    ensures var sys := Run(cfg, init, events);
      var w := sys.workers[run];
      var batches, sent := Batches(cfg, w), w.phase.sent;
      && sent <= |batches|
      && (sent < |batches| ==> StagedMore(sys.tables, cfg.tenant, w.attempt, batches[sent]).Some?)
      && (sent == |batches| && Verified(cfg, w) ==>
            Published(sys.tables, cfg.tenant, w.attempt, Summarized(cfg, w), now).Some?)
  {
    hide Run, Batches, Accepts, Holds, SummaryOf, StagedMore, Published, VisibleOk, OrderOk, FenceOk, Staged, Concat;
    InitIsInv(cfg, init);
    RunKeepsInv(cfg, init, events);
    var sys := Run(cfg, init, events);
    var w := sys.workers[run];
    if w.phase.sent < |Batches(cfg, w)| {
      StagingIsNeverRejected(cfg, sys, run);
    } else if Verified(cfg, w) {
      PublicationIsNeverRejected(cfg, sys, run, now);
    }
  }

  // ----- the queue inside the whole -----

  /** What a step is to the queue: its own event, a fenced write, or time that passes. */
  ghost function QueueEvent(cfg: Config, sys: System, e: Event): Queue.Event
    requires OptionsOk(cfg.options)
  {
    if !Enabled(cfg, sys, e) || e.GiveUp? then Queue.Tick(0)
    else if e.Other? then e.event
    else WriteEvent(sys.queue, e.tx, Step(cfg, sys, e).queue.log == sys.queue.log)
  }

  function WriteEvent(q: Queue.Db, tx: Tx, aborted: bool): Queue.Event
  {
    if tx.lease.None? then Queue.Tick(tx.wait) else Queue.Write(tx.lease.value, tx.wait, aborted)
  }

  lemma WriteFollows(q: Queue.Db, tx: Tx, committed: bool)
    ensures var next := AfterWrite(q, tx, committed); next == Queue.Step(q, WriteEvent(q, tx, next.log == q.log))
  {
  }

  lemma QueueFollows(cfg: Config, sys: System, e: Event)
    requires OptionsOk(cfg.options)
    ensures Step(cfg, sys, e).queue == Queue.Step(sys.queue, QueueEvent(cfg, sys, e))
  {
    hide Batches, Accepts, SummaryOf, Begun, Reclaimed, StagedMore, Published, FailedWith, Verified,
      Open, AfterWrite, Queue.Step, IsReclaimBatch;
    if Enabled(cfg, sys, e) && !e.Other? && !e.GiveUp? {
      assert exists committed :: Step(cfg, sys, e).queue == AfterWrite(sys.queue, e.tx, committed);
      var committed :| Step(cfg, sys, e).queue == AfterWrite(sys.queue, e.tx, committed);
      WriteFollows(sys.queue, e.tx, committed);
    } else if !e.Other? || !Enabled(cfg, sys, e) {
      TickZero(sys.queue);
    }
  }

  lemma TickZero(q: Queue.Db)
    ensures Queue.Step(q, Queue.Tick(0)) == q
  {
  }

  ghost function QueueEvents(cfg: Config, sys: System, events: seq<Event>): seq<Queue.Event>
    requires OptionsOk(cfg.options)
    decreases |events|
  {
    if events == [] then []
    else [QueueEvent(cfg, sys, events[0])] + QueueEvents(cfg, Step(cfg, sys, events[0]), events[1..])
  }

  /** Seen from the queue, the whole system is a run of the queue, so all that holds of queue runs holds here. */
  lemma {:induction false} QueueRuns(cfg: Config, sys: System, events: seq<Event>)
    requires OptionsOk(cfg.options)
    ensures Run(cfg, sys, events).queue == Queue.Run(sys.queue, QueueEvents(cfg, sys, events))
    decreases |events|
  {
    hide Step, QueueEvent;
    if events != [] {
      var qs := QueueEvents(cfg, sys, events);
      QueueFollows(cfg, sys, events[0]);
      QueueRuns(cfg, Step(cfg, sys, events[0]), events[1..]);
      assert qs[0] == QueueEvent(cfg, sys, events[0]);
      assert qs[1..] == QueueEvents(cfg, Step(cfg, sys, events[0]), events[1..]);
    }
  }

  /** No transaction of any attempt commits under a token that was lost before, whatever else happens. */
  lemma LostTokensCommitNothing(cfg: Config, sys: System, events: seq<Event>, l: Queue.Lease)
    requires OptionsOk(cfg.options) && Queue.Lost(sys.queue, l)
    ensures var log := Run(cfg, sys, events).queue.log; sys.queue.log <= log && l !in log[|sys.queue.log|..]
  {
    hide Run, QueueEvents;
    QueueRuns(cfg, sys, events);
    Queue.LostForever(sys.queue, QueueEvents(cfg, sys, events), l);
  }
}
