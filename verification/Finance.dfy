/**
 * Standard finance facts: what a complete file must look like, and the totals
 * per currency that are computed from it in whole minor units.
 */
module Finance {
  import opened Common

  const MAX_ROWS: nat := 1000
  const MAX_MINOR: int := 1_000_000_000_000

  datatype Receivable = Receivable(id: string, currency: string, original: int, settled: int, due: string)

  datatype Receipt = Receipt(id: string, currency: string, amount: int, date: string)

  datatype Document = Document(
    schema: int, batch: string, asOf: string, complete: bool,
    receivables: Option<seq<Receivable>>, receipts: Option<seq<Receipt>>)

  datatype Totals = Totals(
    currency: string, original: int, settled: int, open: int, over90: int, month: int, rate: Option<real>)

  /** Dates as day numbers, encoding and hashing stay abstract. */
  datatype Codec = Codec(day: string -> Option<int>, digest: Document -> string, fits: Document -> bool)

  /** A date is written as YYYY-MM-DD, and a digest as 64 hexadecimal digits. */
  ghost predicate Sane(c: Codec)
  {
    && (forall s :: c.day(s).Some? ==> |s| == 10)
    && forall d :: |c.digest(d)| == 64
  }

  predicate SafeId(s: string)
  {
    && 1 <= |s| <= 64 && AlphaNumeric(s[0])
    && forall i :: 1 <= i < |s| ==> AlphaNumeric(s[i]) || s[i] in "_.:-"
  }

  predicate CurrencyCode(s: string)
  {
    |s| == 3 && forall i :: 0 <= i < 3 ==> 'A' <= s[i] <= 'Z'
  }

  function Month(date: string): string
  {
    if |date| < 7 then date else date[..7]
  }

  // ----- what a valid file is -----

  predicate ReceivableOk(c: Codec, r: Receivable)
  {
    SafeId(r.id) && CurrencyCode(r.currency) && 0 <= r.settled <= r.original <= MAX_MINOR && c.day(r.due).Some?
  }

  predicate ReceiptOk(c: Codec, r: Receipt, asOf: int)
  {
    SafeId(r.id) && CurrencyCode(r.currency) && 0 < r.amount <= MAX_MINOR && c.day(r.date).Some? && c.day(r.date).value <= asOf
  }

  predicate RowsOk(c: Codec, receivables: seq<Receivable>, receipts: seq<Receipt>, asOf: int)
  {
    && (forall i :: 0 <= i < |receivables| ==> ReceivableOk(c, receivables[i]))
    && (forall i, j :: 0 <= i < j < |receivables| ==> receivables[i].id != receivables[j].id)
    && (forall i :: 0 <= i < |receipts| ==> ReceiptOk(c, receipts[i], asOf))
    && (forall i, j :: 0 <= i < j < |receipts| ==> receipts[i].id != receipts[j].id)
  }

  predicate DocumentOk(c: Codec, d: Document, today: string)
  {
    && d.schema == 1 && SafeId(d.batch) && d.complete
    && c.day(d.asOf).Some? && !Before(today, d.asOf)
    && d.receivables.Some? && d.receipts.Some? && |d.receivables.value| + |d.receipts.value| <= MAX_ROWS
    && RowsOk(c, d.receivables.value, d.receipts.value, c.day(d.asOf).value)
    && c.fits(d)
  }

  // ----- what the totals mean -----

  predicate Overdue(c: Codec, r: Receivable, asOf: int)
  {
    c.day(r.due).Some? && c.day(r.due).value < asOf - 90
  }

  function Original(currency: string): Receivable -> int
  {
    (r: Receivable) => if r.currency == currency then r.original else 0
  }

  function Settled(currency: string): Receivable -> int
  {
    (r: Receivable) => if r.currency == currency then r.settled else 0
  }

  function Over90(c: Codec, currency: string, asOf: int): Receivable -> int
  {
    (r: Receivable) => if r.currency == currency && Overdue(c, r, asOf) then r.original - r.settled else 0
  }

  function InMonth(currency: string, date: string): Receipt -> int
  {
    (r: Receipt) => if r.currency == currency && Month(r.date) == Month(date) then r.amount else 0
  }

  /** The totals of one currency, each a sum over the rows it belongs to. */
  function TotalsOf(c: Codec, receivables: seq<Receivable>, receipts: seq<Receipt>, date: string, asOf: int,
    currency: string): Totals
  {
    var original, settled := Sum(receivables, Original(currency)), Sum(receivables, Settled(currency));
    Totals(currency, original, settled, original - settled, Sum(receivables, Over90(c, currency, asOf)),
           Sum(receipts, InMonth(currency, date)),
           if original > 0 then Some(100.0 * settled as real / original as real) else None)
  }

  function Currencies(receivables: seq<Receivable>, receipts: seq<Receipt>): set<string>
  {
    (set i | 0 <= i < |receivables| :: receivables[i].currency) + (set i | 0 <= i < |receipts| :: receipts[i].currency)
  }

  /** One entry for each currency of the file, in strictly ascending order, with that currency's totals. */
  ghost predicate IsResult(c: Codec, receivables: seq<Receivable>, receipts: seq<Receipt>, date: string, asOf: int,
    result: seq<Totals>)
  {
    && Ascending(Names(result))
    && (forall name :: name in Names(result) <==> name in Currencies(receivables, receipts))
    && forall i :: 0 <= i < |result| ==> result[i] == TotalsOf(c, receivables, receipts, date, asOf, result[i].currency)
  }

  function Names(result: seq<Totals>): seq<string>
  {
    seq(|result|, i requires 0 <= i < |result| => result[i].currency)
  }

  // ----- the computation -----

  const NOTHING := Totals("", 0, 0, 0, 0, 0, None)

  /** The running totals: one entry per currency seen, without the rate that is added at the end. */
  ghost predicate Running(c: Codec, totals: map<string, Totals>, receivables: seq<Receivable>,
    receipts: seq<Receipt>, date: string, asOf: int)
  {
    && totals.Keys == Currencies(receivables, receipts)
    && forall name :: name in totals ==>
      totals[name] == TotalsOf(c, receivables, receipts, date, asOf, name).(rate := None)
  }

  method CheckReceivable(c: Codec, r: Receivable) returns (ok: bool)
    ensures ok <==> ReceivableOk(c, r)
  {
    if !SafeId(r.id) || !CurrencyCode(r.currency) || r.original < 0 || r.original > MAX_MINOR
       || r.settled < 0 || r.settled > r.original {
      return false;
    }
    return c.day(r.due).Some?;
  }

  method AddReceivables(c: Codec, receivables: seq<Receivable>, date: string, asOf: int) returns (ok: bool,
    totals: map<string, Totals>)
    ensures ok <==> RowsOk(c, receivables, [], asOf)
    ensures ok ==> Running(c, totals, receivables, [], date, asOf)
  {
    hide ReceivableOk, TotalsOf, Running;
    totals := map[];
    var seen: set<string> := {};
    NothingRunning(c, date, asOf);
    for i := 0 to |receivables|
      invariant seen == set k | 0 <= k < i :: receivables[k].id
      invariant RowsOk(c, receivables[..i], [], asOf)
      invariant Running(c, totals, receivables[..i], [], date, asOf)
    {
      var row := receivables[i];
      assert row.id in seen <==> exists k :: 0 <= k < i && receivables[k].id == row.id;
      var rowOk := CheckReceivable(c, row);
      if row.id in seen || !rowOk {
        return false, totals;
      }
      seen := seen + {row.id};
      AddedReceivable(c, totals, receivables[..i], row, date, asOf);
      assert receivables[..i] + [row] == receivables[..i + 1];
      totals := WithReceivable(c, totals, row, asOf);
    }
    assert receivables[..|receivables|] == receivables;
    return true, totals;
  }

  function TotalFor(totals: map<string, Totals>, currency: string): Totals
  {
    if currency in totals then totals[currency] else NOTHING.(currency := currency)
  }

  function WithReceivable(c: Codec, totals: map<string, Totals>, r: Receivable, asOf: int): map<string, Totals>
  {
    var total, open := TotalFor(totals, r.currency), r.original - r.settled;
    totals[r.currency := total.(
      original := total.original + r.original, settled := total.settled + r.settled, open := total.open + open,
      over90 := if Overdue(c, r, asOf) then total.over90 + open else total.over90)]
  }

  function WithReceipt(totals: map<string, Totals>, r: Receipt, date: string): map<string, Totals>
  {
    var total := TotalFor(totals, r.currency);
    totals[r.currency := if Month(r.date) == Month(date) then total.(month := total.month + r.amount) else total]
  }

  method CheckReceipt(c: Codec, r: Receipt, asOf: int) returns (ok: bool)
    ensures ok <==> ReceiptOk(c, r, asOf)
  {
    var date := c.day(r.date);
    return SafeId(r.id) && CurrencyCode(r.currency) && r.amount > 0 && r.amount <= MAX_MINOR
      && date.Some? && date.value <= asOf;
  }

  method AddReceipts(c: Codec, start: map<string, Totals>, receivables: seq<Receivable>, receipts: seq<Receipt>,
    date: string, asOf: int)
    returns (ok: bool, totals: map<string, Totals>)
    requires Running(c, start, receivables, [], date, asOf)
    ensures ok <==> RowsOk(c, [], receipts, asOf)
    ensures ok ==> Running(c, totals, receivables, receipts, date, asOf)
  {
    hide ReceiptOk, TotalsOf, Running, SafeId, CurrencyCode;
    totals := start;
    var seen: set<string> := {};
    for i := 0 to |receipts|
      invariant seen == set k | 0 <= k < i :: receipts[k].id
      invariant RowsOk(c, [], receipts[..i], asOf)
      invariant Running(c, totals, receivables, receipts[..i], date, asOf)
    {
      var row := receipts[i];
      assert row.id in seen <==> exists k :: 0 <= k < i && receipts[k].id == row.id;
      var rowOk := CheckReceipt(c, row, asOf);
      if row.id in seen || !rowOk {
        return false, totals;
      }
      seen := seen + {row.id};
      AddedReceipt(c, totals, receivables, receipts[..i], row, date, asOf);
      assert receipts[..i] + [row] == receipts[..i + 1];
      totals := WithReceipt(totals, row, date);
    }
    assert receipts[..|receipts|] == receipts;
    return true, totals;
  }

  /** Validates every row and adds it to its currency; the map is read out in any order and sorted. */
  method CalculateTotals(c: Codec, d: Document, asOf: int) returns (r: Result<seq<Totals>>)
    requires d.receivables.Some? && d.receipts.Some?
    ensures r.Ok? <==> RowsOk(c, d.receivables.value, d.receipts.value, asOf)
    ensures r.Ok? ==> IsResult(c, d.receivables.value, d.receipts.value, d.asOf, asOf, r.value)
  {
    hide ReceivableOk, ReceiptOk, TotalsOf, Currencies, Ascending;
    var receivables, receipts := d.receivables.value, d.receipts.value;
    var ok, totals := AddReceivables(c, receivables, d.asOf, asOf);
    if !ok {
      return Err("receivable");
    }
    ok, totals := AddReceipts(c, totals, receivables, receipts, d.asOf, asOf);
    if !ok {
      return Err("receipt");
    }
    var result: seq<Totals> := [];
    var rest := totals.Keys;
    EmptyAscending();
    while rest != {}
      invariant rest <= totals.Keys
      invariant Ascending(Names(result))
      invariant forall name :: name in Names(result) <==> name in totals && name !in rest
      invariant forall i :: 0 <= i < |result| ==>
        result[i] == TotalsOf(c, receivables, receipts, d.asOf, asOf, result[i].currency)
      decreases rest
    {
      var name :| name in rest;
      var total := totals[name];
      if total.original > 0 {
        total := total.(rate := Some(100.0 * total.settled as real / total.original as real));
      }
      WithRate(c, receivables, receipts, d.asOf, asOf, name);
      var at := InsertAt(Names(result), total.currency);
      InsertedNames(result, total);
      result := result[..at] + [total] + result[at..];
      rest := rest - {name};
    }
    return Ok(result);
  }

  datatype Preview = Preview(batch: string, digest: string, rowCount: nat, totals: seq<Totals>)

  /** The whole check of a file on the day `today`; nothing is computed from a file that fails it. */
  method Analyze(c: Codec, d: Document, today: string) returns (r: Result<Preview>)
    ensures r.Ok? <==> DocumentOk(c, d, today)
    ensures r.Ok? ==>
      && r.value.batch == d.batch && r.value.digest == c.digest(d)
      && r.value.rowCount == |d.receivables.value| + |d.receipts.value|
      && IsResult(c, d.receivables.value, d.receipts.value, d.asOf, c.day(d.asOf).value, r.value.totals)
  {
    hide SafeId, Before, RowsOk, IsResult;
    if d.schema != 1 || !SafeId(d.batch) || !d.complete {
      return Err("schema, batch or completeness");
    }
    var asOf := c.day(d.asOf);
    if asOf.None? || Before(today, d.asOf) {
      return Err("as-of date");
    }
    if d.receivables.None? || d.receipts.None? || |d.receivables.value| + |d.receipts.value| > MAX_ROWS {
      return Err("rows");
    }
    var totals := CalculateTotals(c, d, asOf.value);
    if totals.Err? {
      return Err(totals.error);
    }
    if !c.fits(d) {
      return Err("size");
    }
    return Ok(Preview(d.batch, c.digest(d), |d.receivables.value| + |d.receipts.value|, totals.value));
  }

  // ----- facts about the sums -----

  /** A sum does not depend on the order of its rows. */
  lemma {:induction false} SumOfPermutation<T>(rows: seq<T>, other: seq<T>, f: T -> int)
    requires multiset(rows) == multiset(other)
    ensures Sum(rows, f) == Sum(other, f)
  {
    if rows == [] {
      assert |other| == |multiset(other)| == 0;
    } else {
      var n := |rows| - 1;
      var last := rows[n];
      assert last in multiset(rows);
      var i :| 0 <= i < |other| && other[i] == last;
      var without := other[..i] + other[i + 1..];
      assert rows == rows[..n] + [last];
      assert other == other[..i] + [last] + other[i + 1..];
      assert multiset(rows[..n]) == multiset(rows) - multiset{last} == multiset(without);
      SumOfPermutation(rows[..n], without, f);
      SumSplits(other[..i], other[i + 1..], f);
      SumSplits(other[..i] + [last], other[i + 1..], f);
      SumOne(other[..i], last, f);
    }
  }

  lemma {:induction false} SumBounds<T>(rows: seq<T>, f: T -> int, bound: nat)
    requires forall i :: 0 <= i < |rows| ==> 0 <= f(rows[i]) <= bound
    ensures 0 <= Sum(rows, f) <= |rows| * bound
  {
    if rows != [] {
      var n := |rows| - 1;
      SumBounds(rows[..n], f, bound);
      assert |rows| * bound == n * bound + bound;
    }
  }

  lemma {:induction false} SumCompares<T>(rows: seq<T>, f: T -> int, g: T -> int)
    requires forall i :: 0 <= i < |rows| ==> f(rows[i]) <= g(rows[i])
    ensures Sum(rows, f) <= Sum(rows, g)
  {
    if rows != [] {
      SumCompares(rows[..|rows| - 1], f, g);
    }
  }

  lemma {:induction false} SumDifference<T>(rows: seq<T>, f: T -> int, g: T -> int, h: T -> int)
    requires forall i :: 0 <= i < |rows| ==> h(rows[i]) == f(rows[i]) - g(rows[i])
    ensures Sum(rows, h) == Sum(rows, f) - Sum(rows, g)
  {
    if rows != [] {
      SumDifference(rows[..|rows| - 1], f, g, h);
    }
  }

  // ----- facts about the running totals -----

  lemma NothingRunning(c: Codec, date: string, asOf: int)
    ensures Running(c, map[], [], [], date, asOf)
  {
  }

  lemma NewCurrency(c: Codec, receivables: seq<Receivable>, receipts: seq<Receipt>, date: string, asOf: int,
    name: string)
    requires name !in Currencies(receivables, receipts)
    ensures TotalsOf(c, receivables, receipts, date, asOf, name) == NOTHING.(currency := name)
  {
    forall i | 0 <= i < |receivables|
      ensures receivables[i].currency != name
    {
      assert receivables[i].currency in Currencies(receivables, receipts);
    }
    forall i | 0 <= i < |receipts|
      ensures receipts[i].currency != name
    {
      assert receipts[i].currency in Currencies(receivables, receipts);
    }
    SumBounds(receivables, Original(name), 0);
    SumBounds(receivables, Settled(name), 0);
    SumBounds(receivables, Over90(c, name, asOf), 0);
    SumBounds(receipts, InMonth(name, date), 0);
  }

  lemma CurrenciesGrow(receivables: seq<Receivable>, receipts: seq<Receipt>, a: Receivable, b: Receipt)
    ensures Currencies(receivables + [a], receipts) == Currencies(receivables, receipts) + {a.currency}
    ensures Currencies(receivables, receipts + [b]) == Currencies(receivables, receipts) + {b.currency}
  {
    var more, others := receivables + [a], receipts + [b];
    assert more[|receivables|] == a && forall i :: 0 <= i < |receivables| ==> more[i] == receivables[i];
    assert others[|receipts|] == b && forall i :: 0 <= i < |receipts| ==> others[i] == receipts[i];
  }

  lemma AddedReceivable(c: Codec, totals: map<string, Totals>, rows: seq<Receivable>, r: Receivable, date: string,
    asOf: int)
    requires Running(c, totals, rows, [], date, asOf)
    ensures Running(c, WithReceivable(c, totals, r, asOf), rows + [r], [], date, asOf)
  {
    hide Sum, Currencies, Overdue, CurrencyCode;
    var next := WithReceivable(c, totals, r, asOf);
    CurrenciesGrow(rows, [], r, Receipt("", "", 0, ""));
    forall name | name in next
      ensures next[name] == TotalsOf(c, rows + [r], [], date, asOf, name).(rate := None)
    {
      SumOne(rows, r, Original(name));
      SumOne(rows, r, Settled(name));
      SumOne(rows, r, Over90(c, name, asOf));
      if name !in totals {
        NewCurrency(c, rows, [], date, asOf, name);
      }
    }
  }

  lemma AddedReceipt(c: Codec, totals: map<string, Totals>, receivables: seq<Receivable>, rows: seq<Receipt>,
    r: Receipt,
    date: string, asOf: int)
    requires Running(c, totals, receivables, rows, date, asOf)
    ensures Running(c, WithReceipt(totals, r, date), receivables, rows + [r], date, asOf)
  {
    hide Sum, Currencies, Overdue, Month;
    var next := WithReceipt(totals, r, date);
    CurrenciesGrow(receivables, rows, Receivable("", "", 0, 0, ""), r);
    forall name | name in next
      ensures next[name] == TotalsOf(c, receivables, rows + [r], date, asOf, name).(rate := None)
    {
      SumOne(rows, r, InMonth(name, date));
      if name !in totals {
        NewCurrency(c, receivables, rows, date, asOf, name);
      }
    }
  }

  lemma WithRate(c: Codec, receivables: seq<Receivable>, receipts: seq<Receipt>, date: string, asOf: int, name: string)
    ensures var total := TotalsOf(c, receivables, receipts, date, asOf, name);
      total.currency == name
      && total.rate == if total.original > 0 then Some(100.0 * total.settled as real / total.original as real) else None
  {
  }

  // ----- facts about the order -----

  lemma EmptyAscending()
    ensures Ascending(Names([]))
  {
  }

  lemma InsertedNames(result: seq<Totals>, t: Totals)
    requires Ascending(Names(result)) && t.currency !in Names(result)
    ensures var at := InsertAt(Names(result), t.currency);
      var next := result[..at] + [t] + result[at..];
      && Ascending(Names(next))
      && forall name :: name in Names(next) <==> name in Names(result) || name == t.currency
  {
    hide Ascending, InsertAt;
    var names := Names(result);
    var at := InsertAt(names, t.currency);
    InsertedAscending(names, t.currency);
    assert Names(result[..at] + [t] + result[at..]) == names[..at] + [t.currency] + names[at..];
  }

  // ----- what the result promises -----

  /** The result is determined by what it means: map order plays no part. */
  lemma ResultIsUnique(c: Codec, receivables: seq<Receivable>, receipts: seq<Receipt>, date: string, asOf: int,
    a: seq<Totals>, b: seq<Totals>)
    requires IsResult(c, receivables, receipts, date, asOf, a) && IsResult(c, receivables, receipts, date, asOf, b)
    ensures a == b
  {
    hide Currencies, TotalsOf, Ascending;
    AscendingIsUnique(Names(a), Names(b));
    forall i | 0 <= i < |a|
      ensures a[i] == b[i]
    {
      assert Names(a)[i] == Names(b)[i];
    }
  }

  /** Reordering the rows of a file changes nothing in its totals. */
  lemma OrderOfRowsDoesNotMatter(c: Codec, receivables: seq<Receivable>, receipts: seq<Receipt>,
    receivables': seq<Receivable>, receipts': seq<Receipt>, date: string, asOf: int, result: seq<Totals>)
    requires multiset(receivables) == multiset(receivables') && multiset(receipts) == multiset(receipts')
    requires IsResult(c, receivables, receipts, date, asOf, result)
    ensures IsResult(c, receivables', receipts', date, asOf, result)
  {
    hide Ascending, Sum;
    forall name
      ensures name in Currencies(receivables, receipts) <==> name in Currencies(receivables', receipts')
    {
      SameCurrencies(receivables, receivables', receipts, receipts', name);
      SameCurrencies(receivables', receivables, receipts', receipts, name);
    }
    forall name
      ensures TotalsOf(c, receivables, receipts, date, asOf, name) == TotalsOf(c, receivables', receipts', date, asOf, name)
    {
      SumOfPermutation(receivables, receivables', Original(name));
      SumOfPermutation(receivables, receivables', Settled(name));
      SumOfPermutation(receivables, receivables', Over90(c, name, asOf));
      SumOfPermutation(receipts, receipts', InMonth(name, date));
    }
  }

  lemma SameCurrencies(receivables: seq<Receivable>, receivables': seq<Receivable>, receipts: seq<Receipt>,
    receipts': seq<Receipt>, name: string)
    requires multiset(receivables) == multiset(receivables') && multiset(receipts) == multiset(receipts')
    ensures name in Currencies(receivables, receipts) ==> name in Currencies(receivables', receipts')
  {
    if i :| 0 <= i < |receivables| && receivables[i].currency == name {
      assert receivables[i] in multiset(receivables);
      var j :| 0 <= j < |receivables'| && receivables'[j] == receivables[i];
    } else if i :| 0 <= i < |receipts| && receipts[i].currency == name {
      assert receipts[i] in multiset(receipts);
      var j :| 0 <= j < |receipts'| && receipts'[j] == receipts[i];
    }
  }

  /**
   * Original splits into settled and open, overdue is part of open, and no
   * total leaves 10^15, so neither 64 bit integers nor a browser lose a digit.
   * It holds for every prefix of the rows, hence for every running total.
   */
  lemma TotalsAreBounded(c: Codec, receivables: seq<Receivable>, receipts: seq<Receipt>, date: string, asOf: int,
    name: string)
    requires RowsOk(c, receivables, receipts, asOf) && |receivables| <= MAX_ROWS && |receipts| <= MAX_ROWS
    ensures var t := TotalsOf(c, receivables, receipts, date, asOf, name);
      && t.original == t.settled + t.open
      && 0 <= t.settled <= t.original && 0 <= t.over90 <= t.open <= t.original <= 1_000_000_000_000_000 < 0x1F_FFFF_FFFF_FFFF
      && 0 <= t.month <= 1_000_000_000_000_000
      && (t.rate.Some? ==> 0.0 <= t.rate.value <= 100.0)
  {
    hide Sum, Overdue, SafeId, CurrencyCode, Month;
    var open := (r: Receivable) => if r.currency == name then r.original - r.settled else 0;
    SumBounds(receivables, Original(name), MAX_MINOR);
    SumBounds(receivables, Settled(name), MAX_MINOR);
    SumBounds(receivables, Over90(c, name, asOf), MAX_MINOR);
    SumBounds(receipts, InMonth(name, date), MAX_MINOR);
    SumDifference(receivables, Original(name), Settled(name), open);
    SumCompares(receivables, Over90(c, name, asOf), open);
    SumCompares(receivables, Settled(name), Original(name));
    Thousand(|receivables|);
    Thousand(|receipts|);
    var original, settled := Sum(receivables, Original(name)), Sum(receivables, Settled(name));
    if original > 0 {
      RateInRange(settled, original);
    }
  }

  lemma Thousand(n: nat)
    requires n <= MAX_ROWS
    ensures n * MAX_MINOR <= 1_000_000_000_000_000
  {
  }

  lemma RateInRange(settled: int, original: int)
    requires 0 <= settled <= original && 0 < original
    ensures 0.0 <= 100.0 * settled as real / original as real <= 100.0
  {
    var rate := 100.0 * settled as real / original as real;
    assert rate * original as real == 100.0 * settled as real;
    assert (rate - 100.0) * original as real <= 0.0;
  }

  /** Without rows everything is zero, and a rate is there exactly above zero: what was settled, in percent of the original. */
  lemma TotalsStartAtZero(c: Codec, receivables: seq<Receivable>, receipts: seq<Receipt>, date: string, asOf: int,
    name: string)
    ensures TotalsOf(c, [], [], date, asOf, name) == Totals(name, 0, 0, 0, 0, 0, None)
    ensures var t := TotalsOf(c, receivables, receipts, date, asOf, name);
      && (t.rate.Some? <==> 0 < t.original)
      && (t.rate.Some? ==> t.rate.value * t.original as real == 100.0 * t.settled as real)
  {
    hide Sum;
    NoRows(c, date, asOf, name);
  }

  lemma NoRows(c: Codec, date: string, asOf: int, name: string)
    ensures Sum([], Original(name)) == 0 && Sum([], Settled(name)) == 0
    ensures Sum([], Over90(c, name, asOf)) == 0 && Sum([], InMonth(name, date)) == 0
  {
  }

  /** One more receivable adds its amounts to its own currency, and its open part to overdue if it is due more than 90 days back. */
  lemma OneReceivableCounts(c: Codec, receivables: seq<Receivable>, r: Receivable, receipts: seq<Receipt>, date: string,
    asOf: int, name: string)
    requires c.day(r.due).Some?
    ensures var a := TotalsOf(c, receivables, receipts, date, asOf, name);
      var b := TotalsOf(c, receivables + [r], receipts, date, asOf, name);
      if r.currency != name then b == a
      else
        && b.original == a.original + r.original && b.settled == a.settled + r.settled
        && b.open == a.open + (r.original - r.settled) && b.month == a.month
        && b.over90 == a.over90 + if asOf - c.day(r.due).value > 90 then r.original - r.settled else 0
  {
    hide Sum;
    SumOne(receivables, r, Original(name));
    SumOne(receivables, r, Settled(name));
    SumOne(receivables, r, Over90(c, name, asOf));
  }

  /** One more receipt adds its amount to its own currency if it is of the month of the as-of date. */
  lemma OneReceiptCounts(c: Codec, receivables: seq<Receivable>, receipts: seq<Receipt>, r: Receipt, date: string,
    asOf: int, name: string)
    requires |r.date| == 10 && |date| == 10
    ensures var a := TotalsOf(c, receivables, receipts, date, asOf, name);
      var b := TotalsOf(c, receivables, receipts + [r], date, asOf, name);
      b == if r.currency == name && r.date[..7] == date[..7] then a.(month := a.month + r.amount) else a
  {
    hide Sum;
    SumOne(receipts, r, InMonth(name, date));
  }

  /** Whether a file is accepted does not depend on the order of its rows either. */
  lemma OrderDoesNotDecideValidity(c: Codec, receivables: seq<Receivable>, receipts: seq<Receipt>,
    receivables': seq<Receivable>, receipts': seq<Receipt>, asOf: int)
    requires multiset(receivables) == multiset(receivables') && multiset(receipts) == multiset(receipts')
    requires RowsOk(c, receivables, receipts, asOf)
    ensures RowsOk(c, receivables', receipts', asOf)
  {
    hide ReceivableOk, ReceiptOk;
    Permuted(receivables, receivables');
    Permuted(receipts, receipts');
    var ids, ids' := ReceivableIds(receivables), ReceivableIds(receivables');
    assert forall i :: 0 <= i < |ids| ==> ids[i] == receivables[i].id;
    assert forall i :: 0 <= i < |ids'| ==> ids'[i] == receivables'[i].id;
    StillDistinct(ids, ids');
    var more, more' := ReceiptIds(receipts), ReceiptIds(receipts');
    assert forall i :: 0 <= i < |more| ==> more[i] == receipts[i].id;
    assert forall i :: 0 <= i < |more'| ==> more'[i] == receipts'[i].id;
    StillDistinct(more, more');
  }

  function ReceivableIds(rows: seq<Receivable>): seq<string>
  {
    seq(|rows|, i requires 0 <= i < |rows| => rows[i].id)
  }

  function ReceiptIds(rows: seq<Receipt>): seq<string>
  {
    seq(|rows|, i requires 0 <= i < |rows| => rows[i].id)
  }

  lemma StillDistinct(a: seq<string>, b: seq<string>)
    requires |a| == |b| && Distinct(a)
    requires forall i :: 0 <= i < |a| ==> a[i] in b
    requires forall i :: 0 <= i < |b| ==> b[i] in a
    ensures Distinct(b)
  {
    hide Distinct;
    DistinctBySize(a);
    DistinctBySize(b);
    assert (set x | x in a) == (set x | x in b);
  }

  lemma Permuted<T>(a: seq<T>, b: seq<T>)
    requires multiset(a) == multiset(b)
    ensures |a| == |b|
    ensures forall i :: 0 <= i < |a| ==> a[i] in b
    ensures forall i :: 0 <= i < |b| ==> b[i] in a
  {
    assert |a| == |multiset(a)| == |multiset(b)| == |b|;
    forall i | 0 <= i < |a|
      ensures a[i] in b
    {
      assert a[i] in multiset(a);
    }
    forall i | 0 <= i < |b|
      ensures b[i] in a
    {
      assert b[i] in multiset(b);
    }
  }
}
