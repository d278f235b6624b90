/**
 * One attempt from its first transaction to its last, with nobody in between:
 * begin, read and stage, publish, and record a failure if there was one.
 */
module SyncProjection {
  import opened Common
  import opened Stream
  import opened Projection
  import opened EndToEnd
  import Reader

  /** What ends the attempt early, apart from the data: the caller's cancellation or the deadline. */
  datatype Interruption = NotInterrupted | Canceled | TimedOut

  /** The checks that a complete attempt goes through. */
  ghost function Checks(cfg: Config, stage: map<Key, ProjectRow>, w: Worker): nat
    requires OptionsOk(cfg.options)
  {
    2 + 2 * ReclaimRounds(|OtherKeys(stage, w.attempt.run)|) + 2 * |Batches(cfg, w)| + 2
  }

  /** The checks that an attempt which has begun still goes through, if all of them pass. */
  ghost function ChecksAfterBegin(cfg: Config, w: Worker, interruption: Interruption): nat
    requires OptionsOk(cfg.options)
  {
    2 * |Batches(cfg, w)| + if Verified(cfg, w) && interruption.NotInterrupted? then 2 else 0
  }

  function CodeOf(code: string, interruption: Interruption): string
  {
    match interruption
    case NotInterrupted => code
    case Canceled => "CANCELED"
    case TimedOut => "SOURCE_TIMEOUT"
  }

  /** Stages the batches in order; an undisturbed attempt is stopped only by a failing check. */
  method StageAll(t: ProjectionTables, a: Attempt, batches: seq<seq<ProjectRow>>, ghost cfg: Config, ghost w: Worker)
    returns (ok: bool)
    requires OptionsOk(cfg.options) && cfg.tenant == t.tenant && w.attempt == a
    requires Holds(t.state, t.tenant, w.attempt) && t.stage == map[] && batches == Batches(cfg, w)
    modifies t
    ensures t.state == old(t.state) && t.dim == old(t.dim)
    ensures ok <==> AllPass(old(t.checks), 2 * |batches|)
    ensures ok ==> t.checks == old(t.checks)[2 * |batches|..]
    ensures ok ==> t.stage == Staged(w.attempt.run, Concat(batches))
    ensures t.checks == After(old(t.checks), 2 * |batches|)
  {
    hide Batches, FittingRows, Holds, Staged, Concat, StagedMore, Sound, After, StagedAs;
    EmptyStage(w.attempt.run);
    AllAfter(t.checks, 2 * |batches|);
    for i := 0 to |batches|
      invariant t.state == old(t.state) && t.dim == old(t.dim)
      invariant AllPass(old(t.checks), 2 * i) && t.checks == old(t.checks)[2 * i..]
      invariant t.stage == Staged(w.attempt.run, Concat(batches[..i]))
    {
      NextIsAccepted(t.View(), cfg, w, i);
      label Before:
      ok := t.StageProjectProjection(a, batches[i]);
      assert AllPass(old(t.checks), 2 * (i + 1)) <==> AllPass(old@Before(t.checks), 2);
      if !ok {
        AfterSplit(old(t.checks), 2 * i, 2);
        AfterSplit(old(t.checks), 2 * (i + 1), 2 * (|batches| - i - 1));
        return;
      }
    }
    assert batches[..|batches|] == batches;
    return true;
  }

  lemma AllAfter(checks: seq<bool>, n: nat)
    ensures AllPass(checks, n) ==> After(checks, n) == checks[n..]
  {
    if AllPass(checks, n) {
      AfterSplit(checks, n, 0);
    }
  }

  lemma EmptyStage(run: string)
    ensures Staged(run, Concat([])) == map[]
  {
  }

  /** What the reader delivers next is always accepted by the stage. */
  lemma NextIsAccepted(db: Tables, cfg: Config, w: Worker, i: nat)
    requires OptionsOk(cfg.options) && i < |Batches(cfg, w)| && Holds(db.state, cfg.tenant, w.attempt)
    requires db.stage == Staged(w.attempt.run, Concat(Batches(cfg, w)[..i]))
    ensures StagedMore(db, cfg.tenant, w.attempt, Batches(cfg, w)[i])
         == Some(db.(stage := Staged(w.attempt.run, Concat(Batches(cfg, w)[..i + 1]))))
  {
    hide Batches, FittingRows, Sound, StagedMore, Holds, Concat, Staged;
    var rows := FittingRows(cfg, w);
    var snapshot := FittingIsSound(cfg, w);
    BatchesArePieces(cfg, w, i);
    BatchesArePieces(cfg, w, i + 1);
    NextBatchIsStaged(db, cfg.tenant, w.attempt, snapshot, rows, i);
  }

  /** What a complete, verified attempt publishes. */
  lemma CompleteIsPublished(db: Tables, cfg: Config, w: Worker, now: int)
    requires OptionsOk(cfg.options) && Verified(cfg, w) && Holds(db.state, cfg.tenant, w.attempt)
    requires db.stage == Staged(w.attempt.run, Concat(Batches(cfg, w)))
    ensures Published(db, cfg.tenant, w.attempt, Summarized(cfg, w), now).Some?
    ensures var next := Published(db, cfg.tenant, w.attempt, Summarized(cfg, w), now).value;
      Shows(cfg, next, w.stream) && next.state.Some? && next.state.value.publishedRun == w.attempt.run
  {
    hide Staged, SummaryOf, Accepts, ById, Lines, RunRows, StreamRows, Chunks, Concat, ValidProjectRow, AscendingIds,
      Items;
    var rows := FittingRows(cfg, w);
    var snapshot := FittingIsSound(cfg, w);
    BatchesArePieces(cfg, w, |Batches(cfg, w)|);
    SoundRunIsPublished(db, cfg.tenant, w.attempt, Summarized(cfg, w), rows, now);
    ChunksAreTheRows(rows);
  }

  lemma AttemptOf(db: Tables, tenant: string, run: string, now: int)
    ensures var begun := Begun(db, tenant, run, now);
      begun.Some? ==>
        && begun.value.1.run == run && begun.value.1.tenant == tenant && ProjectIdentifier(tenant, 26)
        && begun.value.0.dim == db.dim
  {
  }

  lemma ChecksSplit(checks: seq<bool>, a: nat, b: nat, c: nat)
    ensures AllPass(checks, a + b + c) <==> AllPass(checks, a) && AllPass(checks[a..], b) && AllPass(checks[a..][b..], c)
  {
    if AllPass(checks, a) && AllPass(checks[a..], b) {
      assert checks[a..][b..] == checks[a + b..];
      forall i | 0 <= i < a + b
        ensures checks[i]
      {
        assert i >= a ==> checks[a..][i - a] == checks[i];
      }
    }
    if AllPass(checks, a + b + c) {
      assert checks[a..][b..] == checks[a + b..];
    }
  }

  /** The receiver's limit is never reached, so reading gives the deliveries of the stream and its verdict. */
  lemma ReadResult(cfg: Config, w: Worker, summary: Result<Summary>, taken: seq<seq<ProjectRow>>)
    requires OptionsOk(cfg.options)
    requires Reader.Outcome(cfg.codec, cfg.options, cfg.tenant, w.stream, summary, taken, MAX_PROJECTS)
    ensures taken == Batches(cfg, w) && (summary.Ok? <==> Verified(cfg, w))
    ensures summary.Ok? ==> summary.value == Summarized(cfg, w)
  {
    hide Deliveries, Accepts, SummaryOf, FittingRows, Sound;
    var snapshot := FittingIsSound(cfg, w);
    if Batches(cfg, w) != [] {
      BatchesArePieces(cfg, w, |Batches(cfg, w)| - 1);
      SoundIsSmall(cfg.tenant, snapshot, FittingRows(cfg, w));
    }
  }

  lemma SoundIsSmall(tenant: string, snapshot: string, rows: seq<ProjectRow>)
    requires Sound(tenant, snapshot, rows)
    ensures |rows| <= MAX_PROJECTS
  {
  }

  lemma FailureShows(db: Tables, tenant: string, a: Attempt, code: string, now: int)
    ensures var next := FailedWith(db, tenant, a, code, now);
      next.Some? ==>
        && next.value.dim == db.dim && next.value.state.Some?
        && next.value.state.value.status.Failed? && next.value.state.value.lastError == ErrorCode(code)
  {
  }

  /** Reads the stream, stages what it delivers, and publishes it if it was accepted. */
  method ReadAndPublish(t: ProjectionTables, codec: Codec, given: Options, stream: Bytes, a: Attempt,
    interruption: Interruption, now: int) returns (ok: bool, code: string)
    requires OptionsOk(Normalized(given)) && ProjectIdentifier(t.tenant, 26)
    requires Holds(t.state, t.tenant, a) && t.stage == map[]
    modifies t
    ensures var cfg, w := Config(codec, Normalized(given), t.tenant), Worker(a, stream, Reading(0));
      && (ok <==> Verified(cfg, w) && interruption.NotInterrupted? && AllPass(old(t.checks), 2 * |Batches(cfg, w)| + 2))
      && (ok ==> Shows(cfg, t.View(), stream) && t.state.value.publishedRun == a.run)
      && (!ok ==> t.dim == old(t.dim) && t.state == old(t.state))
      && (!ok && interruption.NotInterrupted? ==>
            code == if !AllPass(old(t.checks), 2 * |Batches(cfg, w)|) then "STAGING_FAILED"
                    else if !Verified(cfg, w) then "INVALID_STREAM" else "PUBLISH_FAILED")
      && t.checks == After(old(t.checks), ChecksAfterBegin(cfg, w, interruption))
    ensures ok ==> t.state.Some? && t.state.value.status.Success? && t.state.value.lastError == ""
  {
    hide Holds, Verified, Shows, Batches, Published, AllPass, Summarized, Reader.Outcome, OptionsOk,
      ProjectIdentifier, Normalized, Staged, Concat, After, SummaryOk, RunRows;
    ghost var cfg, w := Config(codec, Normalized(given), t.tenant), Worker(a, stream, Reading(0));
    ChecksSplit(t.checks, 0, 2 * |Batches(cfg, w)|, 2);
    NoChecks(t.checks);
    ok, code := false, "INVALID_STREAM";
    var sink := new Reader.Sink(MAX_PROJECTS);
    var summary := Reader.ReadProjectSnapshot(codec, given, t.tenant, stream, sink);
    ReadResult(cfg, w, summary, sink.batches);
    AfterSplit(t.checks, 2 * |Batches(cfg, w)|, 2);
    var staged := StageAll(t, a, sink.batches, cfg, w);
    if !staged {
      code := "STAGING_FAILED";
    } else if summary.Ok? && interruption.NotInterrupted? {
      code := "PUBLISH_FAILED";
      CompleteIsPublished(t.View(), cfg, w, now);
      ok := t.PublishProjectProjection(a, summary.value, now);
    }
  }

  lemma NoChecks(checks: seq<bool>)
    ensures AllPass(checks, 0) && checks[0..] == checks
  {
  }

  /** The attempt has begun: its generation holds the fence, and nothing of other runs is staged any more. */
  ghost predicate Began(db: Tables, tenant: string, given: Options, run: string, checks: seq<bool>)
  {
    && OptionsOk(Normalized(given)) && ProjectIdentifier(tenant, 26)
    && (db.state.Some? ==> db.state.value.generation < MAX_GENERATION)
    && |OtherKeys(db.stage, run)| < 50000 && AllPass(checks, ChecksToBegin(db.stage, run))
  }

  function ChecksToBegin(stage: map<Key, ProjectRow>, run: string): nat
  {
    2 + 2 * ReclaimRounds(|OtherKeys(stage, run)|)
  }

  /** The answers that are left when a begun attempt has failed. */
  ghost function AnswersLeft(cfg: Config, checks: seq<bool>, begin: nat, source: Option<Bytes>, w: Worker,
    interruption: Interruption): seq<bool>
    requires OptionsOk(cfg.options) && begin <= |checks|
  {
    if source.None? then checks[begin..] else After(checks[begin..], ChecksAfterBegin(cfg, w, interruption))
  }

  /**
   * The whole attempt. `source` is what the project API answers, if it answers,
   * and `run` is new. It succeeds exactly when nothing interferes and the
   * stream is accepted; then exactly that stream is visible. Otherwise what was
   * visible stays. Once the attempt has begun, its failure is recorded exactly if
   * the two checks that come next pass, under the code of its cause: the
   * interruption if there was one, else the first thing that went wrong.
   */
  method SyncProjectProjection(t: ProjectionTables, codec: Codec, given: Options, run: string, source: Option<Bytes>,
    interruption: Interruption, now: int) returns (ok: bool, code: string, recorded: bool, ghost w: Worker)
    requires run != "" && forall k :: k in t.stage ==> k.run != run
    modifies t
    ensures w.stream == (if source.Some? then source.value else [])
    ensures var cfg := Config(codec, Normalized(given), t.tenant);
      ok <==>
        && OptionsOk(cfg.options) && Begun(old(t.View()), t.tenant, run, now).Some?
        && w.attempt == Begun(old(t.View()), t.tenant, run, now).value.1
        && |OtherKeys(old(t.stage), run)| < 50000
        && source.Some? && Verified(cfg, w) && interruption.NotInterrupted?
        && AllPass(old(t.checks), Checks(cfg, old(t.stage), w))
    ensures ok ==> Shows(Config(codec, Normalized(given), t.tenant), t.View(), w.stream) && t.state.value.publishedRun == run
    ensures !ok ==> t.dim == old(t.dim)
    ensures ok ==> t.state.value.status.Success? && t.state.value.lastError == ""
    ensures var cfg := Config(codec, Normalized(given), t.tenant);
      var begin := ChecksToBegin(old(t.stage), run);
      if !Began(old(t.View()), t.tenant, given, run, old(t.checks)) then !ok && !recorded
      else
        && (recorded <==> !ok && AllPass(AnswersLeft(cfg, old(t.checks), begin, source, w, interruption), 2))
        && (!ok ==>
              code == if interruption.Canceled? then "CANCELED"
                      else if interruption.TimedOut? then "SOURCE_TIMEOUT"
                      else if source.None? then "SOURCE_UNAVAILABLE"
                      else if !AllPass(old(t.checks)[begin..], 2 * |Batches(cfg, w)|) then "STAGING_FAILED"
                      else if !Verified(cfg, w) then "INVALID_STREAM" else "PUBLISH_FAILED")
        && (!ok && !recorded ==> t.state.Some? && t.state.value.run == run && t.state.value.status.Running?)
    ensures recorded ==>
      && t.state.Some? && t.state.value.run == run && t.state.value.status.Failed?
      && t.state.value.lastError == code && t.state.value.finishedAt == Some(now)
      && forall k :: k in t.stage ==> k.run != run
  {
    hide Holds, Begun, Verified, Shows, Batches, FailedWith, OtherKeys, AllPass, ReclaimRounds;
    var cfg := Config(codec, Normalized(given), t.tenant);
    code, ok, recorded := "", false, false;
    w := Worker(Attempt("", "", 0), if source.Some? then source.value else [], Reading(0));
    if !OptionsOk(cfg.options) {
      return;
    }
    ghost var before, checks := t.View(), t.checks;
    ghost var first := 2 + 2 * ReclaimRounds(|OtherKeys(t.stage, run)|);
    AttemptOf(before, t.tenant, run, now);
    var attempt := t.BeginProjectProjection(run, now);
    w := w.(attempt := if attempt.Some? then attempt.value else w.attempt);
    ChecksSplit(checks, 0, first, 2 * |Batches(cfg, w)| + 2);
    NoChecks(checks);
    if attempt.None? {
      return;
    }
    assert t.stage == map[];
    code := "SOURCE_UNAVAILABLE";
    if source.Some? {
      ok, code := ReadAndPublish(t, codec, given, source.value, attempt.value, interruption, now);
    }
    if !ok {
      code := CodeOf(code, interruption);
      FailureShows(t.View(), t.tenant, attempt.value, code, now);
      recorded := t.FailProjectProjection(attempt.value, code, now);
    }
  }
}
