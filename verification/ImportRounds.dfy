/**
 * The import report over any sequence of attempts: each begins a generation,
 * publishes at most once, and may fail, late or not at all.
 */
module ImportRounds {
  import opened Common
  import opened ImportReport

  /** `open` holds the generations that have begun and not tried to publish; `rounds` the committed publications. */
  datatype World = World(db: Db, open: set<nat>, rounds: seq<Round>)

  datatype Event =
    | Begin(now: int, commits: bool)
    | Publish(round: Round, commits: bool)
    | Fail(generation: nat, commits: bool)

  const START := World(Db(None, map[], map[]), {}, [])

  function AfterPublish(c: Codec, tenant: string, w: World, r: Round, commits: bool): World
  {
    if r.generation !in w.open then w
    else if commits && Publishable(c, tenant, w.db, r)
    then World(Published(c, tenant, w.db, r), w.open - {r.generation}, w.rounds + [r])
    else w.(open := w.open - {r.generation})
  }

  function Step(c: Codec, tenant: string, w: World, e: Event): World
  {
    match e
    case Begin(now, commits) =>
      if commits then w.(db := Begun(w.db, now), open := w.open + {Begun(w.db, now).run.value.generation}) else w
    case Publish(r, commits) => AfterPublish(c, tenant, w, r, commits)
    case Fail(generation, commits) => if commits then w.(db := FailedRun(w.db, generation)) else w
  }

  function Run(c: Codec, tenant: string, w: World, events: seq<Event>): World
    decreases |events|
  {
    if events == [] then w else Run(c, tenant, Step(c, tenant, w, events[0]), events[1..])
  }

  // ----- what the committed rounds say -----

  function Items(r: Round): seq<Item>
  {
    if r.snapshot.items.Some? then r.snapshot.items.value else []
  }

  predicate Publishes(r: Round, k: Key)
  {
    Find(Items(r), k.item).Some? && KeyOf(Find(Items(r), k.item).value) == k
  }

  /** The payload digests published for a version, one per committed round that named it. */
  function Trail(c: Codec, rounds: seq<Round>, k: Key): seq<string>
  {
    if rounds == [] then []
    else
      var r := rounds[|rounds| - 1];
      Trail(c, rounds[..|rounds| - 1], k)
      + if Publishes(r, k) then [c.digest(Find(Items(r), k.item).value)] else []
  }

  function Changes(trail: seq<string>): nat
  {
    if |trail| < 2 then 0
    else Changes(trail[..|trail| - 1]) + if trail[|trail| - 2] != trail[|trail| - 1] then 1 else 0
  }

  /** The digest just before the last change. */
  function BeforeLastChange(trail: seq<string>): string
  {
    if |trail| < 2 then ""
    else if trail[|trail| - 2] != trail[|trail| - 1] then trail[|trail| - 2]
    else BeforeLastChange(trail[..|trail| - 1])
  }

  /** Every channel that the snapshot asks for was verified in this round. */
  predicate Verified(c: Codec, r: Round)
  {
    && Readable(r.error)
    && forall i :: 0 <= i < |Items(r)| ==> NeedsFacts(Items(r)[i]) ==> Matched(c, r, Items(r)[i])
  }

  function EvidenceOf(c: Codec, rounds: seq<Round>): Option<Evidence>
  {
    if rounds == [] then None
    else
      var r := rounds[|rounds| - 1];
      if Verified(c, r) then Some(Evidence(r.now, r.snapshot.id, r.generation)) else EvidenceOf(c, rounds[..|rounds| - 1])
  }

  function Verdict(c: Codec, r: Round): RunStatus
  {
    if !Readable(r.error) then BlockedSource else if Verified(c, r) then Success else WaitingSource
  }

  /** The status table that the rounds alone produce. */
  function Replay(c: Codec, rounds: seq<Round>): map<Key, Row>
  {
    if rounds == [] then map[]
    else
      var r := rounds[|rounds| - 1];
      StatusOf(c, Replay(c, rounds[..|rounds| - 1]), r, Items(r))
  }

  /** The row's facts were equal to this round's item of the same version and content. */
  predicate MatchedIn(c: Codec, r: Round, k: Key, row: Row)
  {
    && r.generation == row.run && r.snapshot.id == row.snapshot && Publishes(r, k)
    && Matched(c, r, Find(Items(r), k.item).value) && c.digest(Find(Items(r), k.item).value) == row.digest
  }

  // ----- invariants -----

  ghost predicate FenceOk(c: Codec, tenant: string, w: World)
  {
    && (w.open != {} || w.rounds != [] ==> w.db.run.Some?)
    && (forall g :: g in w.open ==> 1 <= g <= w.db.run.value.generation)
    && (forall i :: 0 <= i < |w.rounds| ==>
          && w.rounds[i].generation <= w.db.run.value.generation && w.rounds[i].generation !in w.open
          && Valid(c, w.rounds[i].snapshot, tenant))
    && (forall i, j :: 0 <= i < j < |w.rounds| ==> w.rounds[i].generation < w.rounds[j].generation)
    && w.db.status == Replay(c, w.rounds)
  }

  predicate RowOk(c: Codec, rounds: seq<Round>, row: Option<Row>, k: Key)
  {
    var trail := Trail(c, rounds, k);
    if trail == [] then row.None?
    else
      && row.Some? && row.value.digest == trail[|trail| - 1]
      && row.value.superseded == Changes(trail) && row.value.prior == BeforeLastChange(trail)
  }

  predicate Dated(c: Codec, rounds: seq<Round>, row: Option<Row>, k: Key)
  {
    row.Some? ==>
      exists i :: 0 <= i < |rounds| && rounds[i].generation == row.value.run
               && (row.value.facts ==> MatchedIn(c, rounds[i], k, row.value))
  }

  predicate Below(k: Key, v: Item)
  {
    k.item == v.id && k.revision <= v.revision && k.release <= v.release
  }

  predicate Comparable(k: Key, m: Key)
  {
    || (k.revision <= m.revision && k.release <= m.release)
    || (m.revision <= k.revision && m.release <= k.release)
  }

  /** The live versions of every item are a chain, and its top is what the last snapshot names. */
  ghost predicate Chained(status: map<Key, Row>, items: seq<Item>)
  {
    && (forall k: Key :: Live(Get(status, k)) ==>
          Find(items, k.item).Some? && Below(k, Find(items, k.item).value))
    && (forall i :: 0 <= i < |items| ==> Live(Get(status, KeyOf(items[i]))))
    && (forall k: Key, m: Key :: Live(Get(status, k)) && Live(Get(status, m)) && k.item == m.item ==> Comparable(k, m))
  }

  /** One history row per item of the snapshot, in agreement with the item's status row. */
  ghost predicate Mirrors(db: Db, r: Round)
  {
    && (forall id :: id in db.history <==> exists i :: 0 <= i < |Items(r)| && Items(r)[i].id == id)
    && forall i :: 0 <= i < |Items(r)| ==>
      && KeyOf(Items(r)[i]) in db.status
      && db.history[Items(r)[i].id] == RecordOf(r, Items(r)[i], db.status[KeyOf(Items(r)[i])])
  }

  ghost predicate LastOk(w: World)
  {
    if w.rounds == [] then w.db.history == map[]
    else
      var last := w.rounds[|w.rounds| - 1];
      Chained(w.db.status, Items(last)) && Mirrors(w.db, last)
  }

  ghost predicate RunOk(c: Codec, w: World)
  {
    if w.db.run.None? then w.rounds == []
    else
      var row := w.db.run.value;
      && row.success == EvidenceOf(c, w.rounds)
      && if w.rounds != [] && w.rounds[|w.rounds| - 1].generation == row.generation
         then row.status == Verdict(c, w.rounds[|w.rounds| - 1]) && row.error == w.rounds[|w.rounds| - 1].error
         else
           || (row.status.Running? && row.error == "")
           || (row.status.Failed? && row.error == "SUMMARY_OR_SOURCE_UNAVAILABLE")
  }

  ghost predicate Inv(c: Codec, tenant: string, w: World)
  {
    && FenceOk(c, tenant, w)
    && (forall k: Key :: RowOk(c, w.rounds, Get(w.db.status, k), k) && Dated(c, w.rounds, Get(w.db.status, k), k))
    && LastOk(w) && RunOk(c, w)
  }

  // ----- one round -----

  lemma Appended(c: Codec, rounds: seq<Round>, r: Round, k: Key)
    ensures Trail(c, rounds + [r], k) ==
            Trail(c, rounds, k) + if Publishes(r, k) then [c.digest(Find(Items(r), k.item).value)] else []
    ensures Replay(c, rounds + [r]) == StatusOf(c, Replay(c, rounds), r, Items(r))
    ensures EvidenceOf(c, rounds + [r]) ==
            if Verified(c, r) then Some(Evidence(r.now, r.snapshot.id, r.generation)) else EvidenceOf(c, rounds)
  {
    hide StatusOf, Publishes, Verified;
    assert (rounds + [r])[..|rounds + [r]| - 1] == rounds;
  }

  lemma RoundKeepsTrail(c: Codec, rounds: seq<Round>, r: Round, before: Option<Row>, k: Key)
    requires RowOk(c, rounds, before, k)
    ensures RowOk(c, rounds + [r], RowFinal(c, before, r, Items(r), k), k)
  {
    hide Matched, Find, Trail, Replay, EvidenceOf;
    Appended(c, rounds, r, k);
    var trail, next := Trail(c, rounds, k), Trail(c, rounds + [r], k);
    if Publishes(r, k) {
      assert next[..|next| - 1] == trail;
    } else {
      assert next == trail;
    }
  }

  lemma RoundKeepsDates(c: Codec, rounds: seq<Round>, r: Round, before: Option<Row>, k: Key)
    requires Dated(c, rounds, before, k)
    ensures Dated(c, rounds + [r], RowFinal(c, before, r, Items(r), k), k)
  {
    hide Matched, Find, Preserves;
    var next, row := rounds + [r], RowFinal(c, before, r, Items(r), k);
    if row.Some? {
      if Publishes(r, k) && !Preserves(c, r, Find(Items(r), k.item).value, before) {
        assert next[|rounds|] == r;
      } else {
        assert before.Some? && row.value.run == before.value.run && row.value.facts == before.value.facts;
        var i :| 0 <= i < |rounds| && rounds[i].generation == before.value.run
                 && (before.value.facts ==> MatchedIn(c, rounds[i], k, before.value));
        assert next[i] == rounds[i];
      }
    }
  }

  lemma LiveAfterRound(c: Codec, r: Round, before: Option<Row>, k: Key)
    ensures Live(RowFinal(c, before, r, Items(r), k)) <==>
            (Find(Items(r), k.item).Some? && var v := Find(Items(r), k.item).value; k == KeyOf(v) || (Live(before) && Below(k, v)))
  {
    hide Matched, Find;
  }

  lemma RoundKeepsChain(c: Codec, r: Round, was: map<Key, Row>)
    requires DistinctItems(Items(r))
    requires forall k: Key, m: Key :: Live(Get(was, k)) && Live(Get(was, m)) && k.item == m.item ==> Comparable(k, m)
    ensures Chained(StatusOf(c, was, r, Items(r)), Items(r))
  {
    hide Live, RowFinal, Find, Get, Comparable, DistinctItems, Items;
    var items := Items(r);
    var status := StatusOf(c, was, r, items);
    forall k: Key
      ensures Live(Get(status, k)) <==>
              (Find(items, k.item).Some? && var v := Find(items, k.item).value; k == KeyOf(v) || (Live(Get(was, k)) && Below(k, v)))
    {
      LiveAfterRound(c, r, Get(was, k), k);
    }
    forall i | 0 <= i < |items|
      ensures Live(Get(status, KeyOf(items[i])))
    {
      Finds(items, i);
    }
    forall k: Key, m: Key | Live(Get(status, k)) && Live(Get(status, m)) && k.item == m.item
      ensures Comparable(k, m)
    {
      Comparability(k, m, Find(items, k.item).value, Live(Get(was, k)) && Live(Get(was, m)));
    }
  }

  lemma Comparability(k: Key, m: Key, v: Item, both: bool)
    requires k.item == m.item && (k == KeyOf(v) || Below(k, v)) && (m == KeyOf(v) || Below(m, v))
    requires k == KeyOf(v) || m == KeyOf(v) || (both && Comparable(k, m))
    ensures Comparable(k, m)
  {
  }

  lemma RoundMirrors(c: Codec, tenant: string, db: Db, r: Round)
    requires Publishable(c, tenant, db, r) && DistinctItems(Items(r)) && r.snapshot.items.Some?
    ensures Mirrors(Published(c, tenant, db, r), r)
  {
    hide Valid, RunAfter, NotApplied, RecordOf, DistinctItems, StatusOf, RowAfter, Find, Preserves;
    var next, items := Published(c, tenant, db, r), Items(r);
    forall i | 0 <= i < |items|
      ensures KeyOf(items[i]) in next.status
      ensures next.history[items[i].id] == RecordOf(r, items[i], next.status[KeyOf(items[i])])
    {
      RoundRow(c, db.status, r, i);
    }
  }

  lemma RoundRow(c: Codec, was: map<Key, Row>, r: Round, i: nat)
    requires DistinctItems(Items(r)) && i < |Items(r)|
    ensures var v, status := Items(r)[i], StatusOf(c, was, r, Items(r));
      && Find(Items(r), v.id) == Some(v)
      && KeyOf(v) in status && Some(status[KeyOf(v)]) == RowAfter(c, Get(was, KeyOf(v)), r, Items(r), KeyOf(v))
  {
    hide Preserves, Fresh, Find, Items, DistinctItems;
    var v := Items(r)[i];
    Finds(Items(r), i);
    assert Get(StatusOf(c, was, r, Items(r)), KeyOf(v)) == RowFinal(c, Get(was, KeyOf(v)), r, Items(r), KeyOf(v));
    if Preserves(c, r, v, Get(was, KeyOf(v))) {
      PreservedRow(c, r, v, Get(was, KeyOf(v)));
    }
  }

  lemma UncoveredIsNotApplied(c: Codec, was: map<Key, Row>, r: Round, i: nat)
    requires DistinctItems(Items(r)) && i < |Items(r)|
    requires NeedsFacts(Items(r)[i]) && !Matched(c, r, Items(r)[i])
    requires !Preserves(c, r, Items(r)[i], Get(was, KeyOf(Items(r)[i])))
    ensures KeyOf(Items(r)[i]) in NotApplied(StatusOf(c, was, r, Items(r)), r.generation)
  {
    hide Preserves, Matched, DistinctItems, Find;
    var k := KeyOf(Items(r)[i]);
    Finds(Items(r), i);
    assert Get(StatusOf(c, was, r, Items(r)), k) == RowFinal(c, Get(was, k), r, Items(r), k);
  }

  lemma CoveredIsApplied(c: Codec, was: map<Key, Row>, r: Round, k: Key)
    requires forall i :: 0 <= i < |Items(r)| ==> NeedsFacts(Items(r)[i]) ==> Matched(c, r, Items(r)[i])
    requires k in was ==> was[k].run != r.generation
    ensures k !in NotApplied(StatusOf(c, was, r, Items(r)), r.generation)
  {
    hide Matched, Find;
    assert Get(StatusOf(c, was, r, Items(r)), k) == RowFinal(c, Get(was, k), r, Items(r), k);
  }

  /** The count of unapplied rows and the kept evidence together say whether the round is verified. */
  lemma RoundVerdict(c: Codec, tenant: string, db: Db, r: Round)
    requires Publishable(c, tenant, db, r) && DistinctItems(Items(r)) && r.snapshot.items.Some?
    requires forall k :: k in db.status ==> db.status[k].run != r.generation
    ensures Published(c, tenant, db, r).run.value.status == Verdict(c, r)
    ensures Published(c, tenant, db, r).run.value.generation == r.generation
    ensures Published(c, tenant, db, r).run.value.error == r.error
    ensures Published(c, tenant, db, r).run.value.success ==
            if Verified(c, r) then Some(Evidence(r.now, r.snapshot.id, r.generation)) else db.run.value.success
  {
    hide Valid, StatusOf, HistoryOf, DistinctItems, NotApplied, Matched;
    var items := Items(r);
    var missing := NotApplied(StatusOf(c, db.status, r, items), r.generation);
    if forall i :: 0 <= i < |items| ==> NeedsFacts(items[i]) ==> Matched(c, r, items[i]) {
      forall k: Key
        ensures k !in missing
      {
        CoveredIsApplied(c, db.status, r, k);
      }
      assert missing == {};
    } else {
      var i :| 0 <= i < |items| && NeedsFacts(items[i]) && !Matched(c, r, items[i]);
      if !Preserves(c, r, items[i], Get(db.status, KeyOf(items[i]))) {
        UncoveredIsNotApplied(c, db.status, r, i);
      }
    }
  }

  // ----- one step -----

  lemma RowsAreOld(c: Codec, tenant: string, w: World, g: nat)
    requires Inv(c, tenant, w) && g in w.open && w.db.run.value.generation == g
    ensures forall k :: k in w.db.status ==> w.db.status[k].run != g
  {
    hide RowOk, LastOk, RunOk, Replay, MatchedIn, Valid;
    forall k | k in w.db.status
      ensures w.db.status[k].run != g
    {
      assert Dated(c, w.rounds, Get(w.db.status, k), k);
    }
  }

  lemma PublishKeepsInv(c: Codec, tenant: string, w: World, r: Round)
    requires Inv(c, tenant, w) && r.generation in w.open && Publishable(c, tenant, w.db, r)
    ensures Inv(c, tenant, World(Published(c, tenant, w.db, r), w.open - {r.generation}, w.rounds + [r]))
  {
    hide Valid, StatusOf, HistoryOf, RowOk, Dated, Chained, Mirrors, NotApplied, Verdict, Trail, Replay, EvidenceOf,
      RowFinal, RunAfter;
    var next := World(Published(c, tenant, w.db, r), w.open - {r.generation}, w.rounds + [r]);
    RowsAreOld(c, tenant, w, r.generation);
    ValidItems(c, r.snapshot, tenant);
    forall k: Key
      ensures RowOk(c, next.rounds, Get(next.db.status, k), k) && Dated(c, next.rounds, Get(next.db.status, k), k)
    {
      RoundKeepsTrail(c, w.rounds, r, Get(w.db.status, k), k);
      RoundKeepsDates(c, w.rounds, r, Get(w.db.status, k), k);
    }
    LastWasChained(c, w);
    RoundKeepsChain(c, r, w.db.status);
    RoundMirrors(c, tenant, w.db, r);
    RoundVerdict(c, tenant, w.db, r);
    Appended(c, w.rounds, r, Key("", 0, 0));
  }

  lemma LastWasChained(c: Codec, w: World)
    requires LastOk(w) && w.db.status == Replay(c, w.rounds)
    ensures forall k: Key, m: Key ::
              Live(Get(w.db.status, k)) && Live(Get(w.db.status, m)) && k.item == m.item ==> Comparable(k, m)
  {
  }

  /** A step that publishes nothing: tables and evidence stay, the fence only closes. */
  lemma QuietStepKeepsInv(c: Codec, tenant: string, w: World, e: Event)
    requires Inv(c, tenant, w)
    requires e.Publish? ==> e.round.generation !in w.open || !e.commits || !Publishable(c, tenant, w.db, e.round)
    ensures Inv(c, tenant, Step(c, tenant, w, e))
  {
    hide Valid, RowOk, Dated, Chained, Replay, Publishable, Verified, Items, RecordOf;
  }

  lemma StepKeepsInv(c: Codec, tenant: string, w: World, e: Event)
    requires Inv(c, tenant, w)
    ensures Inv(c, tenant, Step(c, tenant, w, e))
  {
    hide Inv, Published, Publishable;
    if e.Publish? && e.round.generation in w.open && e.commits && Publishable(c, tenant, w.db, e.round) {
      PublishKeepsInv(c, tenant, w, e.round);
    } else {
      QuietStepKeepsInv(c, tenant, w, e);
    }
  }

  lemma {:induction false} RunKeepsInv(c: Codec, tenant: string, w: World, events: seq<Event>)
    requires Inv(c, tenant, w)
    ensures Inv(c, tenant, Run(c, tenant, w, events))
    decreases |events|
  {
    hide Inv, Step;
    if events != [] {
      StepKeepsInv(c, tenant, w, events[0]);
      RunKeepsInv(c, tenant, Step(c, tenant, w, events[0]), events[1..]);
    }
  }

  lemma ReachableIsInv(c: Codec, tenant: string, events: seq<Event>)
    ensures Inv(c, tenant, Run(c, tenant, START, events))
  {
    hide Run, Find;
    assert forall k: Key :: Trail(c, [], k) == [];
    RunKeepsInv(c, tenant, START, events);
  }

  // ----- over any run from empty tables -----

  /** Live versions of one item are totally ordered, the last snapshot's version is on top, and absent items have none. */
  lemma LiveVersionsFormAChain(c: Codec, tenant: string, events: seq<Event>, k: Key)
    ensures var w := Run(c, tenant, START, events);
      && (w.rounds == [] ==> !Live(Get(w.db.status, k)))
      && (w.rounds != [] ==>
            var items := Items(w.rounds[|w.rounds| - 1]);
            && (Live(Get(w.db.status, k)) ==>
                  && Find(items, k.item).Some? && Below(k, Find(items, k.item).value)
                  && Live(Get(w.db.status, KeyOf(Find(items, k.item).value))))
            && (forall m: Key :: Live(Get(w.db.status, k)) && Live(Get(w.db.status, m)) && k.item == m.item ==> Comparable(k, m)))
  {
    hide Run, Find, Valid, RowOk, Dated, RunOk;
    ReachableIsInv(c, tenant, events);
  }

  /** The history holds one row for each item of the last published snapshot and nothing else. */
  lemma HistoryIsTheLastSnapshot(c: Codec, tenant: string, events: seq<Event>)
    ensures var w := Run(c, tenant, START, events);
      if w.rounds == [] then w.db.history == map[]
      else
        var last := w.rounds[|w.rounds| - 1];
        && Mirrors(w.db, last) && |w.db.history| == |Items(last)|
  {
    hide Run, Find, Valid, RowOk, Dated, RunOk, Chained, Mirrors;
    ReachableIsInv(c, tenant, events);
    var w := Run(c, tenant, START, events);
    if w.rounds != [] {
      var last := w.rounds[|w.rounds| - 1];
      ValidItems(c, last.snapshot, tenant);
      MirrorCount(w.db, last);
    }
  }

  lemma MirrorCount(db: Db, r: Round)
    requires Mirrors(db, r) && DistinctItems(Items(r))
    ensures |db.history| == |Items(r)|
  {
    assert db.history.Keys == set i | 0 <= i < |Items(r)| :: Items(r)[i].id;
    CountIds(Items(r));
  }

  lemma {:induction false} CountIds(items: seq<Item>)
    requires DistinctItems(items)
    ensures |set i | 0 <= i < |items| :: items[i].id| == |items|
  {
    if items != [] {
      var init, n := items[..|items| - 1], |items| - 1;
      CountIds(init);
      var before := set i | 0 <= i < n :: init[i].id;
      assert (set i | 0 <= i < |items| :: items[i].id) == before + {items[n].id};
      assert items[n].id !in before;
    }
  }

  /** A row says that source facts were applied only if the round it names found them equal. */
  lemma FactsWereMatched(c: Codec, tenant: string, events: seq<Event>, k: Key)
    requires var w := Run(c, tenant, START, events); k in w.db.status && w.db.status[k].facts
    ensures var w := Run(c, tenant, START, events);
      exists i :: 0 <= i < |w.rounds| && MatchedIn(c, w.rounds[i], k, w.db.status[k])
  {
    hide Run, Find, Valid, RowOk, RunOk, LastOk, MatchedIn, Replay;
    ReachableIsInv(c, tenant, events);
    var w := Run(c, tenant, START, events);
    assert Dated(c, w.rounds, Get(w.db.status, k), k);
  }

  /** Withdrawals, replays, kept rows and rolled back rounds leave the count of content changes and the prior digest alone. */
  lemma SupersededCountsChanges(c: Codec, tenant: string, events: seq<Event>, k: Key)
    ensures var w := Run(c, tenant, START, events);
      var trail := Trail(c, w.rounds, k);
      && (k in w.db.status <==> trail != [])
      && (trail != [] ==>
            && w.db.status[k].superseded == Changes(trail)
            && w.db.status[k].prior == BeforeLastChange(trail)
            && w.db.status[k].digest == trail[|trail| - 1])
  {
    hide Run, Find, Valid, Dated, RunOk, LastOk, Trail, Replay, Changes, BeforeLastChange;
    ReachableIsInv(c, tenant, events);
    var w := Run(c, tenant, START, events);
    assert RowOk(c, w.rounds, Get(w.db.status, k), k);
  }

  /** The success evidence is that of the last committed round that was fully verified. */
  lemma EvidenceIsTheLastVerifiedRound(c: Codec, tenant: string, events: seq<Event>)
    ensures var w := Run(c, tenant, START, events);
      && (if w.db.run.None? then w.rounds == [] else w.db.run.value.success == EvidenceOf(c, w.rounds))
      && (w.rounds != [] && w.rounds[|w.rounds| - 1].generation == w.db.run.value.generation ==>
            && w.db.run.value.status == Verdict(c, w.rounds[|w.rounds| - 1])
            && w.db.run.value.error == w.rounds[|w.rounds| - 1].error)
      && (w.db.run.Some? && (w.rounds == [] || w.rounds[|w.rounds| - 1].generation != w.db.run.value.generation) ==>
            || (w.db.run.value.status.Running? && w.db.run.value.error == "")
            || (w.db.run.value.status.Failed? && w.db.run.value.error == "SUMMARY_OR_SOURCE_UNAVAILABLE"))
  {
    hide Run, Find, Valid, RowOk, Dated, LastOk, EvidenceOf, Verdict, Replay;
    ReachableIsInv(c, tenant, events);
  }

  /**
   * Rounds commit in the order of their generations, and the status table is
   * what those rounds alone produce: nothing that begins, fails, rolls back or
   * comes late between them leaves a trace.
   */
  lemma OnlyCommittedRoundsCount(c: Codec, tenant: string, events: seq<Event>)
    ensures var w := Run(c, tenant, START, events);
      && w.db.status == Replay(c, w.rounds)
      && (forall i, j :: 0 <= i < j < |w.rounds| ==> w.rounds[i].generation < w.rounds[j].generation)
  {
    hide Run, Find, Valid, RowOk, Dated, LastOk, RunOk, Replay;
    ReachableIsInv(c, tenant, events);
  }

  /** An item that may be published: identified, of a known policy, with a currency and a readable creation time. */
  predicate WellFormed(c: Codec, v: Item)
  {
    && 1 <= |v.id| <= 64 && 1 <= |v.contract| <= 64 && v.revision > 0 && v.release > 0 && v.contractVersion > 0
    && (v.channels == "API_ONLY" || v.channels == "API_AND_SOURCE_FACTS")
    && (|| (v.importMode == "ARCHIVE_ONLY" && v.reportMode == "ARCHIVE_SEPARATE")
        || (v.importMode == "CONTINUE_LIVE" && v.reportMode == "HISTORICAL_SEPARATE")
        || (v.importMode == "CONTINUE_LIVE" && v.reportMode == "ARCHIVE_SEPARATE")
        || (v.importMode == "HISTORICAL_CLOSED" && v.reportMode == "HISTORICAL_SEPARATE")
        || (v.importMode == "HISTORICAL_CLOSED" && v.reportMode == "ARCHIVE_SEPARATE"))
    && |v.currency| == 3 && (forall i :: 0 <= i < 3 ==> 'A' <= v.currency[i] <= 'Z') && 1 <= |v.status| <= 32
    && c.instant(v.createdAt).Some?
  }

  /** Whatever was sent, the history holds at most 1000 items, each well formed, no two of them on one contract. */
  lemma HistoryIsWellFormed(c: Codec, tenant: string, events: seq<Event>)
    ensures var history := Run(c, tenant, START, events).db.history;
      && |history| <= 1000
      && (forall id :: id in history ==> history[id].item.id == id && WellFormed(c, history[id].item))
      && forall a, b :: a in history && b in history && a != b ==> history[a].item.contract != history[b].item.contract
  {
    hide Run, Inv, FenceOk, Valid, WellFormed, Mirrors, Items;
    ReachableIsInv(c, tenant, events);
    HistoryIsTheLastSnapshot(c, tenant, events);
    var w := Run(c, tenant, START, events);
    if w.rounds != [] {
      LastIsValid(c, tenant, w);
      MirroredIsWellFormed(c, tenant, w.db, w.rounds[|w.rounds| - 1]);
    }
  }

  lemma LastIsValid(c: Codec, tenant: string, w: World)
    requires Inv(c, tenant, w) && w.rounds != []
    ensures Valid(c, w.rounds[|w.rounds| - 1].snapshot, tenant)
  {
    hide RowOk, Dated, LastOk, RunOk, Valid, Replay;
  }

  lemma MirroredIsWellFormed(c: Codec, tenant: string, db: Db, r: Round)
    requires Valid(c, r.snapshot, tenant) && Mirrors(db, r)
    ensures |Items(r)| <= 1000
    ensures forall id :: id in db.history ==> db.history[id].item.id == id && WellFormed(c, db.history[id].item)
    ensures forall a, b :: a in db.history && b in db.history && a != b ==>
      db.history[a].item.contract != db.history[b].item.contract
  {
    hide Valid, WellFormed;
    ValidMeans(c, r.snapshot, tenant);
    forall id | id in db.history
      ensures exists i :: 0 <= i < |Items(r)| && Items(r)[i].id == id && db.history[id].item == Items(r)[i]
    {
      var i :| 0 <= i < |Items(r)| && Items(r)[i].id == id;
      assert db.history[Items(r)[i].id] == RecordOf(r, Items(r)[i], db.status[KeyOf(Items(r)[i])]);
    }
  }

  lemma ValidMeans(c: Codec, s: Snapshot, tenant: string)
    requires Valid(c, s, tenant)
    ensures s.items.Some? && |s.items.value| <= 1000
    ensures forall i :: 0 <= i < |s.items.value| ==> WellFormed(c, s.items.value[i])
    ensures forall i, j :: 0 <= i < j < |s.items.value| ==> s.items.value[i].contract != s.items.value[j].contract
  {
  }

  /** The channels reported for one exact version; a withdrawn row reports none. */
  function AppliedChannels(row: Option<Row>): seq<string>
  {
    if !Live(row) then []
    else (if row.value.api then ["API_APPLIED"] else []) + if row.value.facts then ["SOURCE_FACTS_APPLIED"] else []
  }

  /** What is reported as applied belongs to the last snapshot, and facts only if some round found them equal. */
  lemma ReportsAreCurrent(c: Codec, tenant: string, events: seq<Event>, k: Key)
    ensures var w := Run(c, tenant, START, events);
      var channels := AppliedChannels(Get(w.db.status, k));
      && (channels != [] ==>
            w.rounds != [] && Find(Items(w.rounds[|w.rounds| - 1]), k.item).Some?
            && Below(k, Find(Items(w.rounds[|w.rounds| - 1]), k.item).value))
      && ("SOURCE_FACTS_APPLIED" in channels ==>
            exists i :: 0 <= i < |w.rounds| && MatchedIn(c, w.rounds[i], k, w.db.status[k]))
  {
    hide Run, Find, MatchedIn, Comparable, Below;
    LiveVersionsFormAChain(c, tenant, events, k);
    var w := Run(c, tenant, START, events);
    if k in w.db.status && w.db.status[k].facts {
      FactsWereMatched(c, tenant, events, k);
    }
  }

  // ----- what the rows report, said of the committed rounds alone -----

  /** The version is published by the last round that names its item, or was left standing by it. */
  predicate Alive(rounds: seq<Round>, k: Key)
  {
    && rounds != []
    && var found := Find(Items(rounds[|rounds| - 1]), k.item);
    && found.Some?
    && (|| (k.revision == found.value.revision && k.release == found.value.release)
        || (k.revision <= found.value.revision && k.release <= found.value.release
            && Alive(rounds[..|rounds| - 1], k)))
  }

  /**
   * The content of a live version whose source facts count as verified: some
   * round matched it, and every later round that published the version sent the
   * same content and matched it again or could not read the facts.
   */
  function Standing(c: Codec, rounds: seq<Round>, k: Key): Option<string>
  {
    if rounds == [] then None
    else
      var r, before := rounds[|rounds| - 1], Standing(c, rounds[..|rounds| - 1], k);
      match Find(Items(r), k.item)
      case None => None
      case Some(v) =>
        if k.revision == v.revision && k.release == v.release then
          (if v.channels == "API_AND_SOURCE_FACTS" && (Matched(c, r, v) || (r.error != "" && before == Some(c.digest(v))))
           then Some(c.digest(v)) else None)
        else if k.revision <= v.revision && k.release <= v.release then before else None
  }

  /** Why and when a version was withdrawn last. */
  function Ending(rounds: seq<Round>, k: Key): Option<(string, int)>
  {
    if rounds == [] then None
    else
      var r, init := rounds[|rounds| - 1], rounds[..|rounds| - 1];
      if Alive(rounds, k) then None
      else if !Alive(init, k) then Ending(init, k)
      else Some((if Find(Items(r), k.item).None? then "ITEM_WITHDRAWN" else "SUPERSEDED_BY_REPUBLISH", r.now))
  }

  /** A row agrees with the rounds on whether it is live, what it reports, and why it is not. */
  predicate RowTells(c: Codec, rounds: seq<Round>, row: Option<Row>, k: Key)
  {
    && (Live(row) <==> Alive(rounds, k))
    && (Live(row) ==>
          && row.value.api && row.value.withdrawnAt.None? && (row.value.facts <==> Standing(c, rounds, k).Some?)
          && (row.value.facts ==> Standing(c, rounds, k) == Some(row.value.digest) && row.value.state == Applied))
    && (!Live(row) ==> Standing(c, rounds, k).None?)
    && (row.Some? && !Live(row) ==>
          row.value.withdrawnAt.Some? && Ending(rounds, k) == Some((row.value.error, row.value.withdrawnAt.value)))
  }

  lemma RoundKeepsTelling(c: Codec, rounds: seq<Round>, r: Round, before: Option<Row>, k: Key)
    requires RowTells(c, rounds, before, k)
    ensures RowTells(c, rounds + [r], RowFinal(c, before, r, Items(r), k), k)
  {
    hide Matched, Find, Items;
    assert (rounds + [r])[..|rounds + [r]| - 1] == rounds;
  }

  lemma {:induction false} RowsTell(c: Codec, rounds: seq<Round>, k: Key)
    ensures RowTells(c, rounds, Get(Replay(c, rounds), k), k)
  {
    hide RowTells, RowFinal, Items;
    if rounds == [] {
      NothingToTell(c, k);
    } else {
      var init, r := rounds[..|rounds| - 1], rounds[|rounds| - 1];
      RowsTell(c, init, k);
      RoundKeepsTelling(c, init, r, Get(Replay(c, init), k), k);
      assert rounds == init + [r];
    }
  }

  lemma NothingToTell(c: Codec, k: Key)
    ensures RowTells(c, [], None, k)
  {
  }

  /** What is reported as applied is exactly what the committed rounds say, and a withdrawn version says why and since when. */
  lemma ReportsAreExact(c: Codec, tenant: string, events: seq<Event>, k: Key)
    ensures var w := Run(c, tenant, START, events);
      && AppliedChannels(Get(w.db.status, k)) ==
           (if Alive(w.rounds, k) then ["API_APPLIED"] else [])
           + (if Standing(c, w.rounds, k).Some? then ["SOURCE_FACTS_APPLIED"] else [])
      && (k in w.db.status && !Alive(w.rounds, k) ==>
            && w.db.status[k].state == Withdrawn && w.db.status[k].withdrawnAt.Some?
            && Ending(w.rounds, k) == Some((w.db.status[k].error, w.db.status[k].withdrawnAt.value)))
  {
    hide Run, Replay, Alive, Standing, Ending;
    OnlyCommittedRoundsCount(c, tenant, events);
    RowsTell(c, Run(c, tenant, START, events).rounds, k);
  }

  /** The last round found the facts of `v` equal, or could not read them while an earlier verification stands. */
  predicate Covered(c: Codec, rounds: seq<Round>, v: Item)
    requires rounds != []
  {
    var r := rounds[|rounds| - 1];
    v.channels == "API_AND_SOURCE_FACTS" && (Matched(c, r, v) || Keeps(c, rounds, v))
  }

  predicate Keeps(c: Codec, rounds: seq<Round>, v: Item)
    requires rounds != []
  {
    var r := rounds[|rounds| - 1];
    && v.channels == "API_AND_SOURCE_FACTS" && r.error != "" && !Matched(c, r, v)
    && Standing(c, rounds[..|rounds| - 1], KeyOf(v)) == Some(c.digest(v))
  }

  /** The row of an item that the last committed round published. */
  predicate ReportedAs(c: Codec, rounds: seq<Round>, v: Item, row: Row)
    requires rounds != []
  {
    var r := rounds[|rounds| - 1];
    && AppliedChannels(Some(row)) ==
         ["API_APPLIED"] + (if Covered(c, rounds, v) then ["SOURCE_FACTS_APPLIED"] else [])
    && row.withdrawnAt.None? && row.digest == c.digest(v)
    && (if v.channels != "API_AND_SOURCE_FACTS" || Covered(c, rounds, v) then row.state == Applied
        else if r.error == "" then row.state == Waiting && row.error == "SOURCE_FACTS_NOT_COVERED"
        else if r.error == "SOURCE_NOT_CONFIGURED" then row.state == Waiting && row.error == "SOURCE_NOT_CONFIGURED"
        else row.state == Blocked && row.error == r.error)
    && (!Keeps(c, rounds, v) ==>
          && row.channels == v.channels && row.snapshot == r.snapshot.id && row.run == r.generation && row.appliedAt == r.now
          && (row.state == Applied ==> row.error == ""))
  }

  /**
   * Every item of the last committed round is reported as applied through the
   * API, and through source facts exactly when that round matched them or could
   * not read them while they stand verified; its row and its history say so.
   */
  lemma LastRoundIsReported(c: Codec, tenant: string, events: seq<Event>, i: nat)
    requires var rounds := Run(c, tenant, START, events).rounds; rounds != [] && i < |Items(rounds[|rounds| - 1])|
    ensures var w := Run(c, tenant, START, events);
      var last := w.rounds[|w.rounds| - 1];
      var v := Items(last)[i];
      && KeyOf(v) in w.db.status && ReportedAs(c, w.rounds, v, w.db.status[KeyOf(v)])
      && v.id in w.db.history
      && w.db.history[v.id] == Record(v, last.snapshot.id, last.generation, Covered(c, w.rounds, v))
  {
    hide Run, RowOk, Dated, RunOk, Chained, Valid, Items, Publishes, Standing, Matched, Preserves, Fresh, ReportedAs,
      Covered, Keeps, RowTells, Find, StatusOf;
    ReachableIsInv(c, tenant, events);
    var w := Run(c, tenant, START, events);
    var init, last := w.rounds[..|w.rounds| - 1], w.rounds[|w.rounds| - 1];
    var v, was := Items(last)[i], Replay(c, w.rounds[..|w.rounds| - 1]);
    assert w.rounds == init + [last] && w.db.status == StatusOf(c, was, last, Items(last));
    LastItems(c, tenant, w);
    RoundRow(c, was, last, i);
    RowsTell(c, init, KeyOf(v));
    ReportOfItem(c, init, last, v, Get(was, KeyOf(v)));
  }

  lemma LastItems(c: Codec, tenant: string, w: World)
    requires FenceOk(c, tenant, w) && w.rounds != []
    ensures DistinctItems(Items(w.rounds[|w.rounds| - 1]))
  {
    ValidItems(c, w.rounds[|w.rounds| - 1].snapshot, tenant);
  }

  lemma ReportOfItem(c: Codec, init: seq<Round>, r: Round, v: Item, before: Option<Row>)
    requires RowTells(c, init, before, KeyOf(v))
    ensures var row := if Preserves(c, r, v, before) then before.value else Fresh(c, r, v, before);
      && ReportedAs(c, init + [r], v, row)
      && (row.facts <==> Covered(c, init + [r], v))
  {
    hide Matched, Alive, Standing, Ending;
    assert (init + [r])[..|init + [r]| - 1] == init;
  }
}
