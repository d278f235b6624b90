/**
 * The generated upsert of a mirrored table: its assignments, run one after the
 * other on the stored row, and what they make of a sequence of deliveries.
 */
module GuardedUpsert {
  import opened Common

  datatype Value = Null | Number(n: int) | Text(s: string)

  type Record = map<string, Value>

  const STAMP := "updated_at"

  /** `column = IF(VALUES(updated_at) >= updated_at, VALUES(column), column)` */
  datatype Assignment = Keep(column: string)

  datatype Statement = Statement(inserts: seq<string>, assignments: seq<Assignment>)

  function Get(row: Record, column: string): Value
  {
    if column in row then row[column] else Null
  }

  /** The comparison of the guard: unknown, hence not true, when a side is NULL. */
  predicate NotOlder(incoming: Value, stored: Value)
  {
    incoming.Number? && stored.Number? && incoming.n >= stored.n
  }

  function Assign(row: Record, incoming: Record, a: Assignment): Record
  {
    row[a.column := if NotOlder(Get(incoming, STAMP), Get(row, STAMP)) then Get(incoming, a.column) else Get(row, a.column)]
  }

  /** Assignments run from left to right, each on the row the one before it left. */
  function Execute(row: Record, incoming: Record, assignments: seq<Assignment>): Record
  {
    if assignments == [] then row
    else Assign(Execute(row, incoming, assignments[..|assignments| - 1]), incoming, assignments[|assignments| - 1])
  }

  function Columns(assignments: seq<Assignment>): set<string>
  {
    set i | 0 <= i < |assignments| :: assignments[i].column
  }

  /** The intention: all the columns at once, or none. */
  function Replaced(row: Record, incoming: Record, columns: set<string>): Record
  {
    row + map c | c in columns ::
      if NotOlder(Get(incoming, STAMP), Get(row, STAMP)) then Get(incoming, c) else Get(row, c)
  }

  method GuardedDimUpsert(insertColumns: seq<string>, updateColumns: seq<string>) returns (statement: Statement)
    ensures statement.inserts == insertColumns
    ensures |statement.assignments| == |updateColumns| + 1
    ensures forall i :: 0 <= i < |updateColumns| ==> statement.assignments[i] == Keep(updateColumns[i])
    ensures statement.assignments[|updateColumns|] == Keep(STAMP)
    ensures WellFormed(statement) <==> STAMP in insertColumns && forall i :: 0 <= i < |updateColumns| ==> updateColumns[i] in insertColumns
  {
    var assignments: seq<Assignment> := [];
    for i := 0 to |updateColumns|
      invariant |assignments| == i && forall k :: 0 <= k < i ==> assignments[k] == Keep(updateColumns[k])
    {
      assignments := assignments + [Keep(updateColumns[i])];
    }
    assignments := assignments + [Keep(STAMP)];
    statement := Statement(insertColumns, assignments);
    GuardedColumns(statement, updateColumns);
  }

  lemma GuardedColumns(s: Statement, updateColumns: seq<string>)
    requires |s.assignments| == |updateColumns| + 1 && s.assignments[|updateColumns|] == Keep(STAMP)
    requires forall i :: 0 <= i < |updateColumns| ==> s.assignments[i] == Keep(updateColumns[i])
    ensures forall c :: c in Guarded(s) <==> c == STAMP || c in updateColumns
  {
    assert s.assignments[|updateColumns|].column == STAMP;
    forall i | 0 <= i < |updateColumns|
      ensures updateColumns[i] in Guarded(s)
    {
      assert s.assignments[i].column == updateColumns[i];
    }
  }

  /**
   * Running the list is the atomic replacement, wherever updated_at stands in
   * it: once it is overwritten with the incoming time, that time is still not
   * older than itself.
   */
  lemma {:induction false} ExecutionIsAtomic(row: Record, incoming: Record, assignments: seq<Assignment>)
    ensures Execute(row, incoming, assignments) == Replaced(row, incoming, Columns(assignments))
    ensures NotOlder(Get(incoming, STAMP), Get(Execute(row, incoming, assignments), STAMP))
            <==> NotOlder(Get(incoming, STAMP), Get(row, STAMP))
  {
    if assignments != [] {
      hide Replaced, Columns;
      var init, a := assignments[..|assignments| - 1], assignments[|assignments| - 1];
      ExecutionIsAtomic(row, incoming, init);
      GuardStays(row, incoming, Columns(init));
      OneMoreColumn(row, incoming, Columns(init), a);
      ColumnsGrow(init, a);
      assert init + [a] == assignments;
    }
    GuardStays(row, incoming, Columns(assignments));
  }

  lemma GuardStays(row: Record, incoming: Record, columns: set<string>)
    ensures NotOlder(Get(incoming, STAMP), Get(Replaced(row, incoming, columns), STAMP))
            <==> NotOlder(Get(incoming, STAMP), Get(row, STAMP))
  {
  }

  lemma OneMoreColumn(row: Record, incoming: Record, columns: set<string>, a: Assignment)
    requires NotOlder(Get(incoming, STAMP), Get(Replaced(row, incoming, columns), STAMP))
             <==> NotOlder(Get(incoming, STAMP), Get(row, STAMP))
    ensures Assign(Replaced(row, incoming, columns), incoming, a) == Replaced(row, incoming, columns + {a.column})
  {
  }

  lemma ColumnsGrow(init: seq<Assignment>, a: Assignment)
    ensures Columns(init + [a]) == Columns(init) + {a.column}
  {
    var all := init + [a];
    assert all[|init|] == a && forall i :: 0 <= i < |init| ==> all[i] == init[i];
  }

  // ----- a row over its deliveries -----

  /** The row inserted for a new key: the insert columns only. */
  function Inserted(s: Statement, incoming: Record): Record
  {
    map c | c in s.inserts :: Get(incoming, c)
  }

  function Upserted(s: Statement, stored: Option<Record>, incoming: Record): Record
  {
    if stored.None? then Inserted(s, incoming) else Execute(stored.value, incoming, s.assignments)
  }

  function Delivered(s: Statement, rows: seq<Record>): Record
    requires rows != []
  {
    var n := |rows| - 1;
    Upserted(s, if n == 0 then None else Some(Delivered(s, rows[..n])), rows[n])
  }

  /** The columns that the guard protects, updated_at among them. */
  function Guarded(s: Statement): set<string>
  {
    Columns(s.assignments)
  }

  function Pick(row: Record, columns: set<string>): Record
  {
    map c | c in columns :: Get(row, c)
  }

  /** Each delivery as a stamped value of the guarded columns. */
  function Stamped(s: Statement, rows: seq<Record>): seq<(int, Record)>
    requires forall i :: 0 <= i < |rows| ==> Get(rows[i], STAMP).Number?
  {
    seq(|rows|, i requires 0 <= i < |rows| => (Get(rows[i], STAMP).n, Pick(rows[i], Guarded(s))))
  }

  predicate WellFormed(s: Statement)
  {
    && STAMP in Guarded(s)
    && forall c :: c in Guarded(s) ==> c in s.inserts
  }

  lemma InsertedPicks(s: Statement, incoming: Record)
    requires WellFormed(s)
    ensures Pick(Inserted(s, incoming), Guarded(s)) == Pick(incoming, Guarded(s))
    ensures Get(Inserted(s, incoming), STAMP) == Get(incoming, STAMP)
    ensures forall c :: c in s.inserts ==> Get(Inserted(s, incoming), c) == Get(incoming, c)
  {
  }

  lemma UpsertedPicks(s: Statement, stored: Record, incoming: Record)
    requires WellFormed(s)
    ensures var next := Upserted(s, Some(stored), incoming);
      && Pick(next, Guarded(s)) == Pick(if NotOlder(Get(incoming, STAMP), Get(stored, STAMP)) then incoming else stored, Guarded(s))
      && Get(next, STAMP) == Get(if NotOlder(Get(incoming, STAMP), Get(stored, STAMP)) then incoming else stored, STAMP)
      && forall c :: c !in Guarded(s) ==> Get(next, c) == Get(stored, c)
  {
    hide Execute, Columns;
    ExecutionIsAtomic(stored, incoming, s.assignments);
  }

  /**
   * After any deliveries of one key, the guarded columns are those of the last
   * delivered row among the newest, and the other columns those of the first.
   */
  lemma {:induction false} DeliveriesKeepTheNewest(s: Statement, rows: seq<Record>)
    requires WellFormed(s) && rows != []
    requires forall i :: 0 <= i < |rows| ==> Get(rows[i], STAMP).Number?
    ensures Get(Delivered(s, rows), STAMP) == Number(Newest(Stamped(s, rows)).0)
    ensures Pick(Delivered(s, rows), Guarded(s)) == Newest(Stamped(s, rows)).1
    ensures forall c :: c in s.inserts && c !in Guarded(s) ==> Get(Delivered(s, rows), c) == Get(rows[0], c)
  {
    hide Execute, Columns, Inserted, Pick, Upserted, WellFormed;
    var n := |rows| - 1;
    InsertedPicks(s, rows[0]);
    if n > 0 {
      DeliveriesKeepTheNewest(s, rows[..n]);
      assert Stamped(s, rows)[..n] == Stamped(s, rows[..n]);
      UpsertedPicks(s, Delivered(s, rows[..n]), rows[n]);
      LaterDelivery(s, Delivered(s, rows[..n]), rows[n]);
    } else {
      FirstDelivery(s, rows[0]);
    }
  }

  lemma FirstDelivery(s: Statement, row: Record)
    ensures Upserted(s, None, row) == Inserted(s, row)
  {
  }

  lemma LaterDelivery(s: Statement, stored: Record, row: Record)
    requires WellFormed(s)
    ensures STAMP in Guarded(s)
    ensures forall c :: c in Guarded(s) ==> c in s.inserts
  {
  }

  ghost predicate DistinctStamps(s: Statement, rows: seq<Record>)
  {
    forall i, j :: 0 <= i < j < |rows| ==> Get(rows[i], STAMP) != Get(rows[j], STAMP)
  }

  /** With distinct times the order of the deliveries does not matter to the guarded columns. */
  lemma OrderDoesNotMatter(s: Statement, rows: seq<Record>, other: seq<Record>)
    requires WellFormed(s) && rows != [] && multiset(rows) == multiset(other)
    requires DistinctStamps(s, rows)
    requires forall i :: 0 <= i < |rows| ==> Get(rows[i], STAMP).Number?
    ensures other != [] && Pick(Delivered(s, rows), Guarded(s)) == Pick(Delivered(s, other), Guarded(s))
  {
    hide Delivered, Pick, WellFormed, Newest;
    assert |rows| == |multiset(rows)| == |multiset(other)| == |other|;
    forall i | 0 <= i < |other|
      ensures other[i] in rows
    {
      assert other[i] in multiset(other);
    }
    forall i | 0 <= i < |rows|
      ensures rows[i] in other
    {
      assert rows[i] in multiset(rows);
    }
    DeliveriesKeepTheNewest(s, rows);
    DeliveriesKeepTheNewest(s, other);
    var i := NewestIsLastMaximal(Stamped(s, rows));
    var j := NewestIsLastMaximal(Stamped(s, other));
    SameNewest(s, rows, other, i, j);
  }

  lemma SameNewest(s: Statement, rows: seq<Record>, other: seq<Record>, i: int, j: int)
    requires forall k :: 0 <= k < |rows| ==> Get(rows[k], STAMP).Number? && rows[k] in other
    requires forall k :: 0 <= k < |other| ==> Get(other[k], STAMP).Number? && other[k] in rows
    requires DistinctStamps(s, rows)
    requires IsNewest(Stamped(s, rows), i) && IsNewest(Stamped(s, other), j)
    ensures rows[i] == other[j]
  {
    var k :| 0 <= k < |rows| && rows[k] == other[j];
    var m :| 0 <= m < |other| && other[m] == rows[i];
    assert Stamped(s, rows)[k].0 <= Stamped(s, rows)[i].0;
    assert Stamped(s, other)[m].0 <= Stamped(s, other)[j].0;
    assert k == i;
  }

  // ----- the table -----

  class DimTable {
    var rows: map<string, Record>

    /** Runs the statement for one incoming row, in place and column by column. */
    method Upsert(s: Statement, key: string, incoming: Record)
      modifies this
      ensures rows == old(rows)[key := Upserted(s, if key in old(rows) then Some(old(rows)[key]) else None, incoming)]
      ensures key in old(rows) ==> rows[key] == Replaced(old(rows)[key], incoming, Guarded(s))
    {
      hide Replaced, Inserted, NotOlder, Get;
      if key !in rows {
        rows := rows[key := Inserted(s, incoming)];
        return;
      }
      ExecutionIsAtomic(rows[key], incoming, s.assignments);
      for i := 0 to |s.assignments|
        invariant key in rows && rows == old(rows)[key := Execute(old(rows)[key], incoming, s.assignments[..i])]
      {
        var row := rows[key];
        var column := s.assignments[i].column;
        assert s.assignments[..i + 1][..i] == s.assignments[..i];
        var value := Get(row, column);
        if NotOlder(Get(incoming, STAMP), Get(row, STAMP)) {
          value := Get(incoming, column);
        }
        rows := rows[key := row[column := value]];
      }
      assert s.assignments[..|s.assignments|] == s.assignments;
    }

    /** One statement per row of the chunk, in order. */
    method Load(s: Statement, chunk: seq<(string, Record)>)
      modifies this
      ensures rows == Loaded(s, old(rows), chunk)
    {
      hide Upserted;
      for i := 0 to |chunk|
        invariant rows == Loaded(s, old(rows), chunk[..i])
      {
        assert chunk[..i + 1][..i] == chunk[..i];
        Upsert(s, chunk[i].0, chunk[i].1);
      }
      assert chunk[..|chunk|] == chunk;
    }
  }

  function Loaded(s: Statement, rows: map<string, Record>, chunk: seq<(string, Record)>): map<string, Record>
  {
    if chunk == [] then rows
    else
      var before, last := Loaded(s, rows, chunk[..|chunk| - 1]), chunk[|chunk| - 1];
      before[last.0 := Upserted(s, if last.0 in before then Some(before[last.0]) else None, last.1)]
  }

  /** The deliveries of one key, in order. */
  function For(chunk: seq<(string, Record)>, key: string): seq<Record>
  {
    if chunk == [] then []
    else For(chunk[..|chunk| - 1], key) + if chunk[|chunk| - 1].0 == key then [chunk[|chunk| - 1].1] else []
  }

  /** Loading into an empty table, however keys are mixed, treats each key by its own deliveries. */
  lemma {:induction false} KeysAreIndependent(s: Statement, chunk: seq<(string, Record)>, key: string)
    ensures key in Loaded(s, map[], chunk) <==> For(chunk, key) != []
    ensures key in Loaded(s, map[], chunk) ==> Loaded(s, map[], chunk)[key] == Delivered(s, For(chunk, key))
  {
    hide Upserted;
    if chunk != [] {
      var n := |chunk| - 1;
      KeysAreIndependent(s, chunk[..n], key);
      if chunk[n].0 == key {
        assert For(chunk, key)[..|For(chunk, key)| - 1] == For(chunk[..n], key);
      } else {
        assert For(chunk, key) == For(chunk[..n], key);
      }
    }
  }
}
