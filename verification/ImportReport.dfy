/**
 * Publication of the import report of one tenant: the run row with its
 * generation and its evidence of the last success, one status row per published
 * version of an item, and the history that mirrors the last snapshot.
 */
module ImportReport {
  import opened Common

  datatype Item = Item(
    id: string, revision: nat, release: nat, channels: string, importMode: string, reportMode: string,
    contract: string, contractVersion: nat, status: string, startDate: Option<string>, endDate: Option<string>,
    ownerUser: string, ownerOrg: string, customer: Option<nat>, opportunity: Option<string>,
    amountMinor: int, currency: string, createdAt: string)

  datatype Snapshot = Snapshot(
    schema: int, tenant: string, id: string, complete: bool, items: Option<seq<Item>>)

  /** The parts of the standard library that stay abstract. */
  datatype Codec = Codec(digest: Item -> string, validDate: string -> bool, instant: string -> Option<int>)

  datatype Key = Key(item: string, revision: nat, release: nat)

  datatype State = Applied | Waiting | Blocked | Withdrawn

  datatype Row = Row(
    channels: string, state: State, snapshot: string, run: nat, appliedAt: int, error: string,
    withdrawnAt: Option<int>, superseded: nat, digest: string, prior: string, api: bool, facts: bool)

  datatype Record = Record(item: Item, snapshot: string, run: nat, facts: bool)

  /** The columns last_success_at, published_snapshot_id and published_run_id, always written together. */
  datatype Evidence = Evidence(at: int, snapshot: string, run: nat)

  datatype RunStatus = Running | Success | WaitingSource | BlockedSource | Failed

  datatype RunRow = RunRow(
    generation: nat, status: RunStatus, error: string, startedAt: int, success: Option<Evidence>)

  datatype Db = Db(run: Option<RunRow>, status: map<Key, Row>, history: map<string, Record>)

  /** What one attempt brings to its publication. */
  datatype Round = Round(
    generation: nat, snapshot: Snapshot, facts: map<string, Item>, error: string, now: int)

  // ----- validation -----

  predicate IsHash(s: string)
  {
    |s| == 64 && forall i :: 0 <= i < |s| ==> '0' <= s[i] <= '9' || 'a' <= s[i] <= 'f' || 'A' <= s[i] <= 'F'
  }

  predicate EnvelopeOk(s: Snapshot, tenant: string)
  {
    && IsHash(s.id) && s.schema == 1 && s.complete && s.tenant == tenant && tenant != ""
    && s.items.Some? && |s.items.value| <= 1000
  }

  predicate ModeOk(v: Item)
  {
    || (v.importMode == "ARCHIVE_ONLY" && v.reportMode == "ARCHIVE_SEPARATE")
    || (v.importMode in {"CONTINUE_LIVE", "HISTORICAL_CLOSED"} && v.reportMode in {"HISTORICAL_SEPARATE", "ARCHIVE_SEPARATE"})
  }

  predicate IdentityOk(v: Item)
  {
    && 1 <= |v.id| <= 64 && 1 <= |v.contract| <= 64
    && v.revision != 0 && v.release != 0 && v.contractVersion != 0
  }

  predicate FieldsOk(c: Codec, v: Item)
  {
    && ModeOk(v) && v.channels in {"API_ONLY", "API_AND_SOURCE_FACTS"}
    && |v.currency| == 3 && (forall i :: 0 <= i < 3 ==> 'A' <= v.currency[i] <= 'Z')
    && |v.ownerUser| <= 64 && |v.ownerOrg| <= 64 && 1 <= |v.status| <= 32
    && (v.startDate.Some? ==> c.validDate(v.startDate.value)) && (v.endDate.Some? ==> c.validDate(v.endDate.value))
    && c.instant(v.createdAt).Some?
  }

  predicate ItemsOk(c: Codec, items: seq<Item>)
  {
    && (forall i :: 0 <= i < |items| ==> IdentityOk(items[i]) && FieldsOk(c, items[i]))
    && (forall i, j :: 0 <= i < j < |items| ==> items[i].id != items[j].id && items[i].contract != items[j].contract)
  }

  predicate Valid(c: Codec, s: Snapshot, tenant: string)
  {
    EnvelopeOk(s, tenant) && ItemsOk(c, s.items.value)
  }

  method UpperCase(s: string) returns (upper: bool)
    ensures upper <==> forall i :: 0 <= i < |s| ==> 'A' <= s[i] <= 'Z'
  {
    for i := 0 to |s|
      invariant forall k :: 0 <= k < i ==> 'A' <= s[k] <= 'Z'
    {
      if !('A' <= s[i] <= 'Z') {
        return false;
      }
    }
    return true;
  }

  method CheckFields(c: Codec, v: Item) returns (error: string)
    ensures error == "" <==> FieldsOk(c, v)
    ensures error != "incomplete import summary"
  {
    if !ModeOk(v) || (v.channels != "API_ONLY" && v.channels != "API_AND_SOURCE_FACTS") {
      return "unsupported import statistics policy";
    }
    var upper := UpperCase(v.currency);
    if |v.currency| != 3 || !upper || |v.ownerUser| > 64 || |v.ownerOrg| > 64 || |v.status| == 0 || |v.status| > 32 {
      return "invalid import statistics fields";
    }
    if (v.startDate.Some? && !c.validDate(v.startDate.value)) || (v.endDate.Some? && !c.validDate(v.endDate.value)) {
      return "invalid original business date";
    }
    if c.instant(v.createdAt).None? {
      return "invalid original creation timestamp";
    }
    return "";
  }

  method ValidateImportReport(c: Codec, s: Snapshot, tenant: string) returns (error: string)
    ensures error == "" <==> Valid(c, s, tenant)
    ensures error == "incomplete import summary" <==> !EnvelopeOk(s, tenant)
  {
    hide FieldsOk, IsHash;
    if !IsHash(s.id) || s.schema != 1 || !s.complete || s.tenant != tenant || tenant == ""
       || s.items.None? || |s.items.value| > 1000 {
      return "incomplete import summary";
    }
    var items := s.items.value;
    var seen: set<string> := {};
    var contracts: set<string> := {};
    for i := 0 to |items|
      invariant seen == set k | 0 <= k < i :: items[k].id
      invariant contracts == set k | 0 <= k < i :: items[k].contract
      invariant ItemsOk(c, items[..i])
    {
      var v := items[i];
      assert v.id in seen <==> exists k :: 0 <= k < i && items[k].id == v.id;
      assert v.contract in contracts <==> exists k :: 0 <= k < i && items[k].contract == v.contract;
      if |v.id| == 0 || |v.id| > 64 || v.id in seen || |v.contract| == 0 || |v.contract| > 64 || v.contract in contracts
         || v.revision == 0 || v.release == 0 || v.contractVersion == 0 {
        return "invalid import item identity";
      }
      seen := seen + {v.id};
      contracts := contracts + {v.contract};
      var problem := CheckFields(c, v);
      if problem != "" {
        return problem;
      }
    }
    assert items[..|items|] == items;
    return "";
  }

  // ----- what one round means for each row -----

  /** The same facts, with the creation time compared as an instant. */
  predicate Equal(c: Codec, a: Item, b: Item)
  {
    && c.instant(a.createdAt).Some? && c.instant(a.createdAt) == c.instant(b.createdAt)
    && a.(createdAt := "") == b.(createdAt := "")
  }

  function KeyOf(v: Item): Key
  {
    Key(v.id, v.revision, v.release)
  }

  function Find(items: seq<Item>, id: string): (found: Option<Item>)
    ensures found.Some? ==> found.value.id == id && found.value in items
    ensures found.None? ==> forall i :: 0 <= i < |items| ==> items[i].id != id
  {
    if items == [] then None
    else if items[|items| - 1].id == id then Some(items[|items| - 1])
    else Find(items[..|items| - 1], id)
  }

  function Get(status: map<Key, Row>, k: Key): Option<Row>
  {
    if k in status then Some(status[k]) else None
  }

  predicate NeedsFacts(v: Item)
  {
    v.channels == "API_AND_SOURCE_FACTS"
  }

  predicate Matched(c: Codec, r: Round, v: Item)
  {
    v.id in r.facts && Equal(c, r.facts[v.id], v)
  }

  predicate Readable(error: string)
  {
    error == "" || error == "SOURCE_NOT_CONFIGURED"
  }

  /** Unchanged content, verified before on both channels, whose facts could not be read this time. */
  predicate Preserves(c: Codec, r: Round, v: Item, was: Option<Row>)
  {
    && was.Some? && was.value.digest == c.digest(v)
    && was.value.state == Applied && was.value.api && was.value.facts
    && NeedsFacts(v) && r.error != "" && !Matched(c, r, v)
  }

  function Fresh(c: Codec, r: Round, v: Item, was: Option<Row>): Row
  {
    var covered := !NeedsFacts(v) || Matched(c, r, v);
    var changed := was.Some? && was.value.digest != c.digest(v);
    Row(v.channels,
        if covered then Applied else if Readable(r.error) then Waiting else Blocked,
        r.snapshot.id, r.generation, r.now,
        if covered then "" else if r.error == "" then "SOURCE_FACTS_NOT_COVERED" else r.error,
        None,
        if was.None? then 0 else if changed then was.value.superseded + 1 else was.value.superseded,
        c.digest(v),
        if was.None? then "" else if changed then was.value.digest else was.value.prior,
        true, NeedsFacts(v) && Matched(c, r, v))
  }

  function Withdrawal(row: Row, reason: string, now: int): Row
  {
    row.(state := Withdrawn, error := reason, withdrawnAt := Some(now))
  }

  predicate Live(o: Option<Row>)
  {
    o.Some? && o.value.state != Withdrawn
  }

  /** What publishing `v` does to another version of its item: higher in either component, it is retired. */
  function AfterRetirement(before: Option<Row>, v: Item, now: int, k: Key): Option<Row>
  {
    if k.item == v.id && Live(before) && (k.revision > v.revision || k.release > v.release)
    then Some(Withdrawal(before.value, "SUPERSEDED_BY_REPUBLISH", now)) else before
  }

  /** The row of `k`, which was `before`, once the given items of the round are published. */
  function RowAfter(c: Codec, before: Option<Row>, r: Round, items: seq<Item>, k: Key): Option<Row>
  {
    match Find(items, k.item)
    case None => before
    case Some(v) =>
      if k == KeyOf(v) then
        (if Preserves(c, r, v, before) then before else Some(Fresh(c, r, v, before)))
      else AfterRetirement(before, v, r.now, k)
  }

  /** The row of `k` when items that the snapshot does not name are withdrawn. */
  function AfterWithdrawal(before: Option<Row>, items: seq<Item>, now: int, k: Key): Option<Row>
  {
    if Find(items, k.item).None? && Live(before) then Some(Withdrawal(before.value, "ITEM_WITHDRAWN", now)) else before
  }

  /** The row of `k` after the whole round. */
  function RowFinal(c: Codec, before: Option<Row>, r: Round, items: seq<Item>, k: Key): Option<Row>
  {
    if Find(items, k.item).Some? then RowAfter(c, before, r, items, k) else AfterWithdrawal(before, items, r.now, k)
  }

  function Keys(items: seq<Item>): set<Key>
  {
    set i | 0 <= i < |items| :: KeyOf(items[i])
  }

  function StatusOf(c: Codec, was: map<Key, Row>, r: Round, items: seq<Item>): (status: map<Key, Row>)
    ensures forall k: Key :: Get(status, k) == RowFinal(c, Get(was, k), r, items, k)
  {
    map k | k in was.Keys + Keys(items) && RowFinal(c, Get(was, k), r, items, k).Some? :: RowFinal(c, Get(was, k), r, items, k).value
  }

  /** History mirrors the snapshot; an item is covered by facts when its row says so. */
  function RecordOf(r: Round, v: Item, row: Row): Record
  {
    Record(v, r.snapshot.id, r.generation, row.facts)
  }

  function HistoryOf(c: Codec, was: map<Key, Row>, r: Round, items: seq<Item>): map<string, Record>
  {
    map id | id in (set i | 0 <= i < |items| :: items[i].id) ::
      var v := Find(items, id).value; RecordOf(r, v, RowAfter(c, Get(was, KeyOf(v)), r, items, KeyOf(v)).value)
  }

  function NotApplied(status: map<Key, Row>, generation: nat): set<Key>
  {
    set k | k in status && status[k].run == generation && status[k].state != Applied
  }

  // ----- the transactions -----

  predicate Publishable(c: Codec, tenant: string, db: Db, r: Round)
  {
    Valid(c, r.snapshot, tenant) && db.run.Some? && db.run.value.generation == r.generation
  }

  function Begun(db: Db, now: int): Db
  {
    var generation := if db.run.Some? then db.run.value.generation + 1 else 1;
    db.(run := Some(RunRow(generation, Running, "", now, if db.run.Some? then db.run.value.success else None)))
  }

  function RunAfter(row: RunRow, r: Round, waiting: bool): RunRow
  {
    var next := row.(
      status := if !Readable(r.error) then BlockedSource else if waiting then WaitingSource else Success,
      error := r.error);
    if next.status.Success? then next.(success := Some(Evidence(r.now, r.snapshot.id, r.generation))) else next
  }

  function Published(c: Codec, tenant: string, db: Db, r: Round): Db
  {
    if !Publishable(c, tenant, db, r) then db
    else
      var items := r.snapshot.items.value;
      var status := StatusOf(c, db.status, r, items);
      var unverified := exists i :: 0 <= i < |items| && Preserves(c, r, items[i], Get(db.status, KeyOf(items[i])));
      Db(Some(RunAfter(db.run.value, r, NotApplied(status, r.generation) != {} || unverified)),
         status, HistoryOf(c, db.status, r, items))
  }

  function FailedRun(db: Db, generation: nat): Db
  {
    if db.run.None? || db.run.value.generation != generation || !db.run.value.status.Running? then db
    else db.(run := Some(db.run.value.(status := Failed, error := "SUMMARY_OR_SOURCE_UNAVAILABLE")))
  }

  // ----- the tables as the attempts change them -----

  class ReportTables {
    var run: Option<RunRow>
    var status: map<Key, Row>
    var history: map<string, Record>

    ghost function View(): Db
      reads this
    {
      Db(run, status, history)
    }

    method BeginImportReport(now: int, commits: bool) returns (generation: nat)
      modifies this
      ensures View() == if commits then Begun(old(View()), now) else old(View())
      ensures generation == (if old(run).Some? then old(run).value.generation else 0) + 1
      ensures commits ==>
        && run.Some? && run.value.generation == generation && run.value.status.Running? && run.value.error == ""
        && run.value.startedAt == now && run.value.success == (if old(run).Some? then old(run).value.success else None)
    {
      var row := RunRow(0, Failed, "", now, None);
      if run.Some? {
        row := run.value;
      }
      generation := row.generation + 1;
      if commits {
        run := Some(row.(generation := generation, status := Running, error := "", startedAt := now));
      }
    }

    /** Versions of an item that are higher in either component than the one now published. */
    method RetireSupersededImportVersions(v: Item, now: int)
      requires v.id != ""
      modifies this`status
      ensures status.Keys == old(status).Keys
      ensures forall k: Key :: Get(status, k) == AfterRetirement(Get(old(status), k), v, now, k)
    {
      status := map k | k in status ::
        if k.item == v.id && status[k].state != Withdrawn && (k.revision > v.revision || k.release > v.release)
        then status[k].(state := Withdrawn, error := "SUPERSEDED_BY_REPUBLISH", withdrawnAt := Some(now)) else status[k];
    }

    /** The row one item gets in this round, and whether that is the verified row it had. */
    static method ItemRow(c: Codec, r: Round, v: Item, previous: Option<Row>) returns (row: Row, preserved: bool)
      ensures preserved <==> Preserves(c, r, v, previous)
      ensures row == if preserved then previous.value else Fresh(c, r, v, previous)
    {
      var digest := c.digest(v);
      row := Row(v.channels, Applied, r.snapshot.id, r.generation, r.now, "", None, 0, digest, "", true, false);
      if previous.Some? {
        row := row.(superseded := previous.value.superseded, prior := previous.value.prior);
        if previous.value.digest != digest {
          row := row.(superseded := previous.value.superseded + 1, prior := previous.value.digest);
        }
      }
      var matched := v.id in r.facts && Equal(c, r.facts[v.id], v);
      var unreadable := r.error != "" && !matched;
      preserved := previous.Some? && previous.value.digest == digest && previous.value.state == Applied
        && previous.value.api && previous.value.facts && v.channels == "API_AND_SOURCE_FACTS" && unreadable;
      if preserved {
        row := previous.value;
      } else if v.channels == "API_AND_SOURCE_FACTS" {
        row := row.(facts := matched);
        if !matched {
          row := row.(state := Waiting, error := "SOURCE_FACTS_NOT_COVERED");
          if r.error != "" {
            row := row.(error := r.error);
            if r.error != "SOURCE_NOT_CONFIGURED" {
              row := row.(state := Blocked);
            }
          }
        }
      }
    }

    /** One item: retire what it supersedes, write its row unless the verified one is kept, add its record. */
    method PublishImportItem(c: Codec, r: Round, v: Item) returns (error: string, preserved: bool)
      requires v.id != ""
      modifies this`status, this`history
      ensures error == "" <==> v.id !in old(history)
      ensures preserved <==> Preserves(c, r, v, Get(old(status), KeyOf(v))) && error == ""
      ensures error == "" ==>
        forall k: Key :: Get(status, k) == RowAfter(c, Get(old(status), k), r, [v], k)
      ensures error == "" ==>
        KeyOf(v) in status && history == old(history)[v.id := RecordOf(r, v, status[KeyOf(v)])]
    {
      hide Preserves, Fresh;
      var key := KeyOf(v);
      var previous := Get(status, key);
      RetireSupersededImportVersions(v, r.now);
      assert Get(status, key) == previous;
      var row;
      row, preserved := ItemRow(c, r, v, previous);
      if v.id in history {
        return "duplicate history row", false;
      }
      history := history[v.id := Record(v, r.snapshot.id, r.generation, row.facts)];
      error := "";
      if preserved {
        PreservedRow(c, r, v, previous);
      } else {
        status := status[key := row];
      }
    }

    /** All items in turn, starting from an empty history. */
    method PublishImportItems(c: Codec, r: Round, items: seq<Item>) returns (error: string, unverified: bool)
      requires DistinctItems(items) && forall i :: 0 <= i < |items| ==> items[i].id != ""
      modifies this`status, this`history
      ensures error == ""
      ensures history == HistoryOf(c, old(status), r, items)
      ensures forall k: Key :: Get(status, k) == RowAfter(c, Get(old(status), k), r, items, k)
      ensures unverified <==> exists i :: 0 <= i < |items| && Preserves(c, r, items[i], Get(old(status), KeyOf(items[i])))
    {
      hide Preserves, RecordOf, Fresh, RowAfter, HistoryOf, DistinctItems;
      error, unverified := "", false;
      history := map[];
      NoItems(c, status, r);
      for i := 0 to |items|
        invariant error == ""
        invariant history == HistoryOf(c, old(status), r, items[..i])
        invariant forall k: Key :: Get(status, k) == RowAfter(c, Get(old(status), k), r, items[..i], k)
        invariant unverified <==>
          exists j :: 0 <= j < i && Preserves(c, r, items[j], Get(old(status), KeyOf(items[j])))
      {
        NextItem(c, old(status), r, items, i, status);
        HistoryGrows(c, old(status), r, items, i);
        var preserved;
        error, preserved := PublishImportItem(c, r, items[i]);
        if error != "" {
          return;
        }
        if preserved {
          unverified := true;
        }
      }
      assert items[..|items|] == items;
    }

    method WithdrawMissingImportItems(items: seq<Item>, now: int)
      modifies this`status
      ensures forall k: Key :: Get(status, k) == AfterWithdrawal(Get(old(status), k), items, now, k)
    {
      var active: set<string> := {};
      for i := 0 to |items|
        invariant active == set k | 0 <= k < i :: items[k].id
      {
        active := active + {items[i].id};
      }
      status := map k | k in status ::
        if status[k].state != Withdrawn && k.item !in active
        then status[k].(state := Withdrawn, error := "ITEM_WITHDRAWN", withdrawnAt := Some(now)) else status[k];
    }

    /** The transaction of one round; it leaves nothing behind when it fails. */
    method PublishImportReport(c: Codec, tenant: string, r: Round, commits: bool) returns (error: string)
      modifies this
      ensures View() == if commits then Published(c, tenant, old(View()), r) else old(View())
      ensures error == "" <==> commits && Publishable(c, tenant, old(View()), r)
    {
      hide Preserves, Valid, RowAfter, HistoryOf, AfterWithdrawal;
      error := ValidateImportReport(c, r.snapshot, tenant);
      if error != "" {
        return;
      }
      if run.None? {
        return "record not found";
      }
      if run.value.generation != r.generation {
        return "import report superseded";
      }
      var savedStatus, savedHistory := status, history;
      var items := r.snapshot.items.value;
      ValidItems(c, r.snapshot, tenant);
      var unverified;
      error, unverified := PublishImportItems(c, r, items);
      ghost var published := status;
      WithdrawMissingImportItems(items, r.now);
      RoundStatus(c, savedStatus, r, items, published, status);
      var waiting := |NotApplied(status, r.generation)|;
      if !commits {
        status, history := savedStatus, savedHistory;
        return "transaction failed";
      }
      var outcome := Success;
      if waiting > 0 || unverified {
        outcome := WaitingSource;
      }
      if r.error != "" && r.error != "SOURCE_NOT_CONFIGURED" {
        outcome := BlockedSource;
      }
      var row := run.value.(status := outcome, error := r.error);
      if outcome.Success? {
        row := row.(success := Some(Evidence(r.now, r.snapshot.id, r.generation)));
      }
      run := Some(row);
      return "";
    }

    method FailImportReport(generation: nat, commits: bool)
      modifies this`run
      ensures View() == if commits then FailedRun(old(View()), generation) else old(View())
      ensures if commits && old(run).Some? && old(run).value.generation == generation && old(run).value.status.Running?
        then run.Some? && run.value.status.Failed? && run.value.error == "SUMMARY_OR_SOURCE_UNAVAILABLE"
             && run.value.generation == generation && run.value.success == old(run).value.success
        else run == old(run)
    {
      if commits && run.Some? && run.value.generation == generation && run.value.status.Running? {
        run := Some(run.value.(status := Failed, error := "SUMMARY_OR_SOURCE_UNAVAILABLE"));
      }
    }
  }

  lemma ValidItems(c: Codec, s: Snapshot, tenant: string)
    requires Valid(c, s, tenant)
    ensures s.items.Some?
    ensures var items := s.items.value;
      DistinctItems(items) && forall i :: 0 <= i < |items| ==> items[i].id != ""
  {
  }

  lemma NoItems(c: Codec, was: map<Key, Row>, r: Round)
    ensures HistoryOf(c, was, r, []) == map[]
    ensures forall k: Key :: RowAfter(c, Get(was, k), r, [], k) == Get(was, k)
  {
  }

  lemma PreservedRow(c: Codec, r: Round, v: Item, previous: Option<Row>)
    requires Preserves(c, r, v, previous)
    ensures previous.Some?
  {
  }

  /** Publishing the items and then withdrawing the missing ones is what the round means. */
  lemma RoundStatus(c: Codec, was: map<Key, Row>, r: Round, items: seq<Item>, between: map<Key, Row>,
    status: map<Key, Row>)
    requires forall k: Key :: Get(between, k) == RowAfter(c, Get(was, k), r, items, k)
    requires forall k: Key :: Get(status, k) == AfterWithdrawal(Get(between, k), items, r.now, k)
    ensures status == StatusOf(c, was, r, items)
  {
    hide Preserves, Fresh;
    var expected := StatusOf(c, was, r, items);
    forall k: Key
      ensures (k in status <==> k in expected) && (k in status ==> status[k] == expected[k])
    {
      assert Get(status, k) == Get(expected, k);
    }
  }

  ghost predicate DistinctItems(items: seq<Item>)
  {
    forall i, j :: 0 <= i < j < |items| ==> items[i].id != items[j].id
  }

  lemma {:induction false} Finds(items: seq<Item>, i: nat)
    requires DistinctItems(items) && i < |items|
    ensures Find(items, items[i].id) == Some(items[i])
  {
    if i < |items| - 1 {
      Finds(items[..|items| - 1], i);
    }
  }

  /** The next item is new to the tables of this round, and it alone changes what its item's rows become. */
  lemma NextItem(c: Codec, was: map<Key, Row>, r: Round, items: seq<Item>, i: nat, status: map<Key, Row>)
    requires DistinctItems(items) && i < |items|
    requires forall k: Key :: Get(status, k) == RowAfter(c, Get(was, k), r, items[..i], k)
    ensures items[i].id !in HistoryOf(c, was, r, items[..i])
    ensures forall k: Key :: k.item == items[i].id ==> Get(status, k) == Get(was, k)
    ensures forall k: Key :: RowAfter(c, Get(was, k), r, items[..i + 1], k) == RowAfter(c, Get(status, k), r, [items[i]], k)
  {
    hide Preserves, Fresh;
    var v := items[i];
    assert items[..i + 1][..i] == items[..i];
    forall k: Key | k.item == v.id
      ensures Find(items[..i], k.item).None?
    {
    }
    forall k: Key
      ensures RowAfter(c, Get(was, k), r, items[..i + 1], k) == RowAfter(c, Get(status, k), r, [v], k)
    {
      assert Get(status, k) == RowAfter(c, Get(was, k), r, items[..i], k);
      assert [v][..0] == [];
    }
  }

  lemma HistoryGrows(c: Codec, was: map<Key, Row>, r: Round, items: seq<Item>, i: nat)
    requires DistinctItems(items) && i < |items|
    ensures HistoryOf(c, was, r, items[..i + 1]) ==
      HistoryOf(c, was, r, items[..i])[items[i].id := RecordOf(r, items[i], RowAfter(c, Get(was, KeyOf(items[i])), r, items[..i + 1], KeyOf(items[i])).value)]
  {
    hide Preserves, Fresh;
    assert items[..i + 1][..i] == items[..i];
  }
}
