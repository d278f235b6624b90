/**
 * The monthly trend of the dashboard: contract facts grouped by period, cut to
 * the requested months, and merged with project counts.
 */
module Trend {
  import opened Common

  datatype Fact = Fact(period: string, currency: string, amount: int, contracts: int)

  datatype CurrencyTotal = CurrencyTotal(currency: string, amount: int, contracts: int)

  datatype Point = Point(period: string, amount: int, contracts: int, currencies: seq<CurrencyTotal>, projects: int)

  // ----- what the points mean -----

  function Amounts(period: string): Fact -> int
  {
    (f: Fact) => if f.period == period then f.amount else 0
  }

  function Contracts(period: string): Fact -> int
  {
    (f: Fact) => if f.period == period then f.contracts else 0
  }

  function CurrenciesOf(facts: seq<Fact>, period: string): seq<CurrencyTotal>
  {
    if facts == [] then []
    else
      var f := facts[|facts| - 1];
      CurrenciesOf(facts[..|facts| - 1], period)
      + if f.period == period then [CurrencyTotal(f.currency, f.amount, f.contracts)] else []
  }

  /** The sums of one period over all its facts, and these facts in order. */
  function PointOf(facts: seq<Fact>, period: string): Point
  {
    Point(period, Sum(facts, Amounts(period)), Sum(facts, Contracts(period)), CurrenciesOf(facts, period), 0)
  }

  /** The periods in the order in which they first occur. */
  function PeriodsOf(facts: seq<Fact>): seq<string>
  {
    if facts == [] then []
    else
      var before, f := PeriodsOf(facts[..|facts| - 1]), facts[|facts| - 1];
      if f.period in before then before else before + [f.period]
  }

  /** One point per period. */
  function Grouped(facts: seq<Fact>): seq<Point>
  {
    var periods := PeriodsOf(facts);
    seq(|periods|, i requires 0 <= i < |periods| => PointOf(facts, periods[i]))
  }

  function Least(a: nat, b: nat): nat
  {
    if a <= b then a else b
  }

  lemma {:induction false} PeriodsAreTheFacts(facts: seq<Fact>)
    ensures Distinct(PeriodsOf(facts))
    ensures forall p :: p in PeriodsOf(facts) <==> exists i :: 0 <= i < |facts| && facts[i].period == p
  {
    if facts != [] {
      var n := |facts| - 1;
      PeriodsAreTheFacts(facts[..n]);
      forall p
        ensures p in PeriodsOf(facts) <==> exists i :: 0 <= i < |facts| && facts[i].period == p
      {
        if p in PeriodsOf(facts[..n]) {
          var i :| 0 <= i < n && facts[..n][i].period == p;
          assert facts[i].period == p;
        }
        if exists i :: 0 <= i < |facts| && facts[i].period == p {
          var i :| 0 <= i < |facts| && facts[i].period == p;
          assert i < n ==> facts[..n][i].period == p;
        }
      }
    }
  }

  function WithFact(p: Point, f: Fact): Point
  {
    p.(amount := p.amount + f.amount, contracts := p.contracts + f.contracts,
       currencies := p.currencies + [CurrencyTotal(f.currency, f.amount, f.contracts)])
  }

  /** What one more fact does to the point of its period, and to no other. */
  lemma OneMoreFact(facts: seq<Fact>, f: Fact, period: string)
    ensures PointOf(facts + [f], period)
         == if f.period != period then PointOf(facts, period) else WithFact(PointOf(facts, period), f)
  {
    SumOne(facts, f, Amounts(period));
    SumOne(facts, f, Contracts(period));
    assert (facts + [f])[..|facts|] == facts;
  }

  lemma NoFacts(facts: seq<Fact>, period: string)
    requires period !in PeriodsOf(facts)
    ensures PointOf(facts, period) == Point(period, 0, 0, [], 0)
    decreases |facts|
  {
    if facts != [] {
      var n := |facts| - 1;
      assert facts == facts[..n] + [facts[n]];
      NoFacts(facts[..n], period);
      OneMoreFact(facts[..n], facts[n], period);
    }
  }

  // ----- the loops -----

  /** Groups the facts by period and keeps the first `months` periods met. */
  method TrendRowsByCurrency(facts: seq<Fact>, months: nat) returns (rows: seq<Point>)
    ensures rows == Grouped(facts)[..Least(months, |PeriodsOf(facts)|)]
  {
    hide PeriodsOf, PointOf;
    var byPeriod: map<string, Point> := map[];
    var order: seq<string> := [];
    EmptyOrder();
    for i := 0 to |facts|
      invariant order == PeriodsOf(facts[..i])
      invariant forall p :: p in byPeriod <==> p in order
      invariant forall p :: p in byPeriod ==> byPeriod[p] == PointOf(facts[..i], p)
    {
      var f := facts[i];
      assert facts[..i] + [f] == facts[..i + 1];
      OrderGrows(facts[..i], f);
      forall p
        ensures PointOf(facts[..i + 1], p) == if f.period != p then PointOf(facts[..i], p) else WithFact(PointOf(facts[..i], p), f)
      {
        OneMoreFact(facts[..i], f, p);
      }
      var point := Point(f.period, 0, 0, [], 0);
      if f.period in byPeriod {
        point := byPeriod[f.period];
      } else {
        NoFacts(facts[..i], f.period);
        order := order + [f.period];
      }
      point := point.(
        amount := point.amount + f.amount, contracts := point.contracts + f.contracts,
        currencies := point.currencies + [CurrencyTotal(f.currency, f.amount, f.contracts)]);
      byPeriod := byPeriod[f.period := point];
    }
    assert facts[..|facts|] == facts;
    rows := [];
    for i := 0 to |order|
      invariant rows == Grouped(facts)[..i] && i <= months
    {
      if |rows| >= months {
        return;
      }
      rows := rows + [byPeriod[order[i]]];
    }
  }

  lemma EmptyOrder()
    ensures PeriodsOf([]) == []
  {
  }

  lemma OrderGrows(facts: seq<Fact>, f: Fact)
    ensures PeriodsOf(facts + [f]) == PeriodsOf(facts) + if f.period in PeriodsOf(facts) then [] else [f.period]
  {
    assert (facts + [f])[..|facts|] == facts;
  }

  // ----- merging -----

  function ProjectsIn(projects: map<string, int>, period: string): int
  {
    if period in projects then projects[period] else 0
  }

  function Find(points: seq<Point>, period: string): (found: Option<Point>)
    ensures found.Some? ==> found.value in points && found.value.period == period
    ensures found.None? ==> forall i :: 0 <= i < |points| ==> points[i].period != period
  {
    if points == [] then None
    else if points[|points| - 1].period == period then Some(points[|points| - 1])
    else Find(points[..|points| - 1], period)
  }

  function PeriodSet(points: seq<Point>): set<string>
  {
    set i | 0 <= i < |points| :: points[i].period
  }

  /** The contract point of a period with its project count, or the project count on its own. */
  function CombinedPoint(points: seq<Point>, projects: map<string, int>, period: string): Point
  {
    var found := Find(points, period);
    if found.Some? then found.value.(projects := ProjectsIn(projects, period))
    else Point(period, 0, 0, [], ProjectsIn(projects, period))
  }

  function Combined(points: seq<Point>, projects: map<string, int>): map<string, Point>
  {
    map period | period in PeriodSet(points) + projects.Keys :: CombinedPoint(points, projects, period)
  }

  /** The latest months of a table, the newest first: nothing that was left out is later than anything kept. */
  ghost predicate IsLatest(rows: seq<Point>, all: map<string, Point>, months: nat)
  {
    && |rows| == Least(months, |all|)
    && (forall i, j :: 0 <= i < j < |rows| ==> Before(rows[j].period, rows[i].period))
    && (forall i :: 0 <= i < |rows| ==> rows[i].period in all && rows[i] == all[rows[i].period])
    && forall k :: k in all ==>
      (exists i :: 0 <= i < |rows| && rows[i].period == k) || forall i :: 0 <= i < |rows| ==> Before(k, rows[i].period)
  }

  method SortedPeriods(periods: set<string>) returns (s: seq<string>)
    ensures Ascending(s) && |s| == |periods| && forall p :: p in s <==> p in periods
  {
    hide Ascending, InsertAt;
    s := [];
    var rest := periods;
    NothingAscending();
    while rest != {}
      invariant rest <= periods && Ascending(s) && |s| + |rest| == |periods|
      invariant forall p :: p in s <==> p in periods && p !in rest
      decreases rest
    {
      var p :| p in rest;
      InsertedAscending(s, p);
      var at := InsertAt(s, p);
      s := s[..at] + [p] + s[at..];
      rest := rest - {p};
    }
  }

  lemma NothingAscending()
    ensures Ascending([])
  {
  }

  method CombinePoints(points: seq<Point>, projects: map<string, int>) returns (byPeriod: map<string, Point>)
    ensures byPeriod == Combined(points, projects)
  {
    byPeriod := map[];
    for i := 0 to |points|
      invariant byPeriod.Keys == PeriodSet(points[..i])
      invariant forall p :: p in byPeriod ==> byPeriod[p] == CombinedPoint(points[..i], projects, p)
    {
      assert points[..i + 1][..i] == points[..i];
      PeriodSetGrows(points, i);
      var row := points[i].(projects := ProjectsIn(projects, points[i].period));
      byPeriod := byPeriod[row.period := row];
    }
    assert points[..|points|] == points;
    var rest := projects.Keys;
    while rest != {}
      invariant rest <= projects.Keys
      invariant byPeriod.Keys == PeriodSet(points) + (projects.Keys - rest)
      invariant forall p :: p in byPeriod ==> byPeriod[p] == CombinedPoint(points, projects, p)
      decreases rest
    {
      var p :| p in rest;
      rest := rest - {p};
      if p !in byPeriod {
        byPeriod := byPeriod[p := Point(p, 0, 0, [], projects[p])];
      }
    }
  }

  lemma PeriodSetGrows(points: seq<Point>, i: nat)
    requires i < |points|
    ensures PeriodSet(points[..i + 1]) == PeriodSet(points[..i]) + {points[i].period}
  {
    var a, b := points[..i], points[..i + 1];
    assert b[i] == points[i] && forall k :: 0 <= k < i ==> b[k] == a[k];
  }

  method MergeTrendPoints(points: seq<Point>, projects: map<string, int>, months: nat) returns (rows: seq<Point>)
    ensures IsLatest(rows, Combined(points, projects), months)
  {
    hide Combined, IsLatest, Ascending;
    var byPeriod := CombinePoints(points, projects);
    var periods := SortedPeriods(byPeriod.Keys);
    rows := [];
    var n := |periods|;
    for i := 0 to Least(months, n)
      invariant |rows| == i
      invariant forall k :: 0 <= k < i ==> periods[n - 1 - k] in byPeriod && rows[k] == byPeriod[periods[n - 1 - k]]
    {
      assert periods[n - 1 - i] in periods;
      rows := rows + [byPeriod[periods[n - 1 - i]]];
    }
    CombinedKnowsItsPeriods(points, projects);
    LatestRows(rows, byPeriod, periods, months);
  }

  lemma CombinedKnowsItsPeriods(points: seq<Point>, projects: map<string, int>)
    ensures forall p :: p in Combined(points, projects) ==> Combined(points, projects)[p].period == p
  {
  }

  lemma LatestRows(rows: seq<Point>, all: map<string, Point>, periods: seq<string>, months: nat)
    requires Ascending(periods) && |periods| == |all| && forall p :: p in periods <==> p in all
    requires |rows| == Least(months, |periods|)
    requires forall p :: p in all ==> all[p].period == p
    requires forall k :: 0 <= k < |rows| ==> periods[|periods| - 1 - k] in all && rows[k] == all[periods[|periods| - 1 - k]]
    ensures IsLatest(rows, all, months)
  {
    hide Before, Ascending;
    var n := |periods|;
    forall k | 0 <= k < |rows|
      ensures rows[k].period == periods[n - 1 - k] && rows[k].period in all && rows[k] == all[rows[k].period]
    {
    }
    AscendingBackwards(rows, periods);
    forall k | k in all
      ensures (exists i :: 0 <= i < |rows| && rows[i].period == k) || forall i :: 0 <= i < |rows| ==> Before(k, rows[i].period)
    {
      var j :| 0 <= j < n && periods[j] == k;
      LeftOutIsEarlier(rows, periods, j);
    }
  }

  lemma AscendingBackwards(rows: seq<Point>, periods: seq<string>)
    requires Ascending(periods) && |rows| <= |periods|
    requires forall k :: 0 <= k < |rows| ==> rows[k].period == periods[|periods| - 1 - k]
    ensures forall i, j :: 0 <= i < j < |rows| ==> Before(rows[j].period, rows[i].period)
  {
    hide Before;
  }

  lemma LeftOutIsEarlier(rows: seq<Point>, periods: seq<string>, j: nat)
    requires Ascending(periods) && |rows| <= |periods| && j < |periods|
    requires forall k :: 0 <= k < |rows| ==> rows[k].period == periods[|periods| - 1 - k]
    ensures (exists i :: 0 <= i < |rows| && rows[i].period == periods[j])
      || forall i :: 0 <= i < |rows| ==> Before(periods[j], rows[i].period)
  {
    hide Before;
    var i := |periods| - 1 - j;
    if i < |rows| {
      assert rows[i].period == periods[j];
    }
  }

  // ----- what the result promises -----

  function RowPeriods(rows: seq<Point>): seq<string>
  {
    seq(|rows|, i requires 0 <= i < |rows| => rows[i].period)
  }

  /** The newest first, none twice. */
  predicate Falling(rows: seq<Point>)
  {
    forall i, j :: 0 <= i < j < |rows| ==> Before(rows[j].period, rows[i].period)
  }

  lemma FallingIsDistinct(rows: seq<Point>)
    requires Falling(rows)
    ensures |PeriodSet(rows)| == |rows|
    ensures forall i, j :: 0 <= i < j < |rows| ==> rows[i].period != rows[j].period
  {
    hide Before;
    forall i, j | 0 <= i < j < |rows|
      ensures rows[i].period != rows[j].period
    {
      BeforeTotal(rows[j].period, rows[i].period);
    }
    var periods := RowPeriods(rows);
    DistinctBySize(periods);
    assert forall i :: 0 <= i < |rows| ==> periods[i] == rows[i].period;
    assert (set x | x in periods) == PeriodSet(rows);
  }

  /** The kept rows of a full table are later than anything that every one of `months` other keys is later than. */
  lemma LowIsLeftOut(rows: seq<Point>, all: map<string, Point>, months: nat, tops: set<string>, q: string)
    requires IsLatest(rows, all, months) && tops <= all.Keys && |tops| == months
    requires forall t :: t in tops ==> Before(q, t)
    ensures |rows| == months
    ensures forall i :: 0 <= i < |rows| ==> Before(q, rows[i].period)
  {
    hide Before;
    var kept := PeriodSet(rows);
    FallingIsDistinct(rows);
    SubsetSize(tops, all.Keys);
    var bad := set p | p in kept && !Before(q, p);
    if bad != {} {
      forall t | t in tops
        ensures t in kept && t !in bad
      {
        var r :| r in bad;
        var i :| 0 <= i < |rows| && rows[i].period == r;
        LaterIsKept(rows, all, months, q, i, t);
      }
    }
    if tops <= kept {
      SubsetSize(tops + bad, kept);
      assert |tops + bad| == |tops| + |bad| by {
        assert tops * bad == {};
      }
    }
    forall i | 0 <= i < |rows|
      ensures Before(q, rows[i].period)
    {
      assert rows[i].period in kept;
    }
  }

  lemma LaterIsKept(rows: seq<Point>, all: map<string, Point>, months: nat, q: string, i: nat, t: string)
    requires IsLatest(rows, all, months) && i < |rows| && t in all && Before(q, t) && !Before(q, rows[i].period)
    ensures exists k :: 0 <= k < |rows| && rows[k].period == t
  {
    hide Before;
    BeforeTotal(q, rows[i].period);
    if rows[i].period != q {
      BeforeTransitive(rows[i].period, q, t);
    }
    BeforeTotal(rows[i].period, t);
  }

  lemma {:induction false} FindFalling(points: seq<Point>, i: nat)
    requires Falling(points) && i < |points|
    ensures Find(points, points[i].period) == Some(points[i])
  {
    hide Before;
    if i < |points| - 1 {
      BeforeTotal(points[|points| - 1].period, points[i].period);
      FindFalling(points[..|points| - 1], i);
    }
  }

  lemma CombinedAgree(points: seq<Point>, months: nat, projects: map<string, int>, period: string)
    requires Falling(points) && months <= |points|
    requires forall i :: months <= i < |points| ==> points[i].period != period
    ensures CombinedPoint(points[..months], projects, period) == CombinedPoint(points, projects, period)
  {
    hide Before;
    if i :| 0 <= i < months && points[i].period == period {
      FindFalling(points, i);
      FindFalling(points[..months], i);
    }
  }

  /** Cutting falling contract points to the requested months before merging gives what cutting afterwards gives. */
  lemma EarlyCutIsHarmless(points: seq<Point>, projects: map<string, int>, months: nat, rows: seq<Point>)
    requires Falling(points)
    requires IsLatest(rows, Combined(points[..Least(months, |points|)], projects), months)
    ensures IsLatest(rows, Combined(points, projects), months)
  {
    hide Before, Combined, Falling, IsLatest, PeriodSet;
    if |points| <= months {
      assert points[..|points|] == points;
    } else {
      TopsAreLater(points, months);
      LowRows(points, projects, months, rows);
      SameRows(points, projects, months, rows);
      StillLatest(rows, points, projects, months);
    }
  }

  lemma LowRows(points: seq<Point>, projects: map<string, int>, months: nat, rows: seq<Point>)
    requires Falling(points) && months < |points|
    requires IsLatest(rows, Combined(points[..months], projects), months)
    ensures |rows| == months
    ensures forall i, k :: months <= i < |points| && 0 <= k < |rows| ==> Before(points[i].period, rows[k].period)
  {
    hide Before, Falling, IsLatest, PeriodSet, CombinedPoint;
    TopsAreLater(points, months);
    var top := points[..months];
    forall i | months <= i < |points|
      ensures |rows| == months && forall k :: 0 <= k < |rows| ==> Before(points[i].period, rows[k].period)
    {
      LowIsLeftOut(rows, Combined(top, projects), months, PeriodSet(top), points[i].period);
    }
    LowIsLeftOut(rows, Combined(top, projects), months, PeriodSet(top), points[months].period);
  }

  lemma SameRows(points: seq<Point>, projects: map<string, int>, months: nat, rows: seq<Point>)
    requires Falling(points) && months < |points|
    requires forall i, k :: months <= i < |points| && 0 <= k < |rows| ==> Before(points[i].period, rows[k].period)
    ensures forall k :: 0 <= k < |rows| ==>
      CombinedPoint(points[..months], projects, rows[k].period) == CombinedPoint(points, projects, rows[k].period)
  {
    hide Before, Falling, CombinedPoint;
    forall k | 0 <= k < |rows|
      ensures CombinedPoint(points[..months], projects, rows[k].period) == CombinedPoint(points, projects, rows[k].period)
    {
      forall i | months <= i < |points|
        ensures points[i].period != rows[k].period
      {
        BeforeTotal(points[i].period, rows[k].period);
      }
      CombinedAgree(points, months, projects, rows[k].period);
    }
  }

  lemma StillLatest(rows: seq<Point>, points: seq<Point>, projects: map<string, int>, months: nat)
    requires months < |points| && |rows| == months
    requires PeriodSet(points[..months]) <= PeriodSet(points)
    requires IsLatest(rows, Combined(points[..months], projects), months)
    requires forall i, k :: months <= i < |points| && 0 <= k < |rows| ==> Before(points[i].period, rows[k].period)
    requires forall k :: 0 <= k < |rows| ==>
      CombinedPoint(points[..months], projects, rows[k].period) == CombinedPoint(points, projects, rows[k].period)
    ensures IsLatest(rows, Combined(points, projects), months)
  {
    hide Before, CombinedPoint, PeriodSet;
    var early, late := Combined(points[..months], projects), Combined(points, projects);
    SubsetSize(early.Keys, late.Keys);
    assert |early| == |early.Keys| && |late| == |late.Keys|;
    forall p | p in late && p !in early
      ensures forall i :: 0 <= i < |rows| ==> Before(p, rows[i].period)
    {
      OnlyBelow(points, months, p);
    }
  }

  lemma OnlyBelow(points: seq<Point>, months: nat, p: string)
    requires months < |points| && p in PeriodSet(points) && p !in PeriodSet(points[..months])
    ensures exists i :: months <= i < |points| && points[i].period == p
  {
    var i :| 0 <= i < |points| && points[i].period == p;
    assert forall j :: 0 <= j < months ==> points[..months][j].period in PeriodSet(points[..months]);
    assert months <= i;
  }

  lemma TopsAreLater(points: seq<Point>, months: nat)
    requires Falling(points) && months <= |points|
    ensures |PeriodSet(points[..months])| == months
    ensures PeriodSet(points[..months]) <= PeriodSet(points)
    ensures forall i, t :: months <= i < |points| && t in PeriodSet(points[..months]) ==> Before(points[i].period, t)
  {
    hide Before;
    FallingIsDistinct(points[..months]);
  }

  /** The latest months are determined by the table they come from. */
  lemma {:induction false} LatestIsUnique(a: seq<Point>, b: seq<Point>, all: map<string, Point>, months: nat)
    requires IsLatest(a, all, months) && IsLatest(b, all, months)
    ensures a == b
  {
    hide Before;
    forall i | 0 <= i < |a|
      ensures a[i] == b[i]
    {
      SameAt(a, b, all, months, i);
    }
  }

  lemma {:induction false} SameAt(a: seq<Point>, b: seq<Point>, all: map<string, Point>, months: nat, i: nat)
    requires IsLatest(a, all, months) && IsLatest(b, all, months) && i < |a|
    ensures a[i] == b[i]
  {
    hide Before;
    forall k | 0 <= k < i
      ensures a[k] == b[k]
    {
      SameAt(a, b, all, months, k);
    }
    NotLater(a, b, all, months, i);
    NotLater(b, a, all, months, i);
    BeforeTotal(a[i].period, b[i].period);
  }

  /** With the same rows before it, a row of one list is not later than the row of the other. */
  lemma NotLater(a: seq<Point>, b: seq<Point>, all: map<string, Point>, months: nat, i: nat)
    requires IsLatest(a, all, months) && IsLatest(b, all, months) && i < |a|
    requires forall k :: 0 <= k < i ==> a[k] == b[k]
    ensures !Before(b[i].period, a[i].period)
  {
    hide Before;
    var p := a[i].period;
    if k :| 0 <= k < |b| && b[k].period == p {
      if k < i {
        BeforeTotal(a[i].period, a[k].period);
      } else if k == i {
        BeforeTotal(p, p);
      } else {
        BeforeTotal(b[k].period, b[i].period);
      }
    } else {
      BeforeTotal(p, b[i].period);
    }
  }

  // ----- the whole trend -----

  /** The order in which the query delivers the facts. */
  predicate Sorted(facts: seq<Fact>)
  {
    forall i, j :: 0 <= i < j < |facts| ==> facts[i].period == facts[j].period || Before(facts[j].period, facts[i].period)
  }

  lemma {:induction false} GroupsFall(facts: seq<Fact>)
    requires Sorted(facts)
    ensures Falling(Grouped(facts))
  {
    hide Before, Sum, CurrenciesOf;
    if facts != [] {
      var n := |facts| - 1;
      GroupsFall(facts[..n]);
      var before, periods := PeriodsOf(facts[..n]), PeriodsOf(facts);
      PeriodsAreTheFacts(facts[..n]);
      assert facts == facts[..n] + [facts[n]];
      OrderGrows(facts[..n], facts[n]);
      forall i, j | 0 <= i < j < |periods|
        ensures Before(periods[j], periods[i])
      {
        if j < |before| {
          assert Before(Grouped(facts[..n])[j].period, Grouped(facts[..n])[i].period);
        } else {
          assert before[i] in before;
          var k :| 0 <= k < n && facts[..n][k].period == before[i];
          assert facts[k].period == periods[i] && facts[n].period == periods[j] && facts[n].period !in before;
        }
      }
    }
  }

  lemma GroupCount(facts: seq<Fact>)
    ensures |Grouped(facts)| == |PeriodsOf(facts)|
  {
  }

  lemma LatestFalls(rows: seq<Point>, all: map<string, Point>, months: nat)
    requires IsLatest(rows, all, months)
    ensures Falling(rows) && |rows| <= months
  {
  }

  /** Nothing of a kept period is lost: its point has the sums over all facts and the project count of that period. */
  lemma KeptPeriodsConserve(facts: seq<Fact>, projects: map<string, int>, months: nat, rows: seq<Point>, i: nat)
    requires IsLatest(rows, Combined(Grouped(facts), projects), months) && i < |rows|
    ensures var p := rows[i].period;
      rows[i] == Point(p, Sum(facts, Amounts(p)), Sum(facts, Contracts(p)), CurrenciesOf(facts, p), if p in projects then projects[p] else 0)
  {
    hide Before, Sum;
    var p, points := rows[i].period, Grouped(facts);
    var found := Find(points, p);
    if found.Some? {
      var k :| 0 <= k < |points| && points[k] == found.value;
    } else {
      forall k | 0 <= k < |PeriodsOf(facts)|
        ensures PeriodsOf(facts)[k] != p
      {
        assert points[k].period == PeriodsOf(facts)[k];
      }
      NoFacts(facts, p);
    }
  }

  /** One fact is the point of its period: its amount, its number of contracts, and one currency row with both. */
  lemma OneFactIsItsPoint(f: Fact)
    ensures Grouped([f]) == [Point(f.period, f.amount, f.contracts, [CurrencyTotal(f.currency, f.amount, f.contracts)], 0)]
  {
    hide PointOf, PeriodsOf;
    EmptyOrder();
    OrderGrows([], f);
    NoFacts([], f.period);
    OneMoreFact([], f, f.period);
    assert [] + [f] == [f] && PeriodsOf([f]) == [f.period];
    assert Grouped([f])[0] == PointOf([f], f.period);
    assert PointOf([f], f.period).currencies == [CurrencyTotal(f.currency, f.amount, f.contracts)];
  }

  /** A kept month adds up from its currency rows, each of which is a fact of that month. */
  lemma CurrencyRowsAddUp(facts: seq<Fact>, p: string)
    ensures var point := PointOf(facts, p);
      && point.amount == Sum(point.currencies, (t: CurrencyTotal) => t.amount)
      && point.contracts == Sum(point.currencies, (t: CurrencyTotal) => t.contracts)
      && (forall f :: f in facts && f.period == p ==> CurrencyTotal(f.currency, f.amount, f.contracts) in point.currencies)
      && (forall t :: t in point.currencies ==>
            exists f :: f in facts && f.period == p && t == CurrencyTotal(f.currency, f.amount, f.contracts))
    decreases |facts|
  {
    hide PointOf;
    if facts == [] {
      EmptyOrder();
      NoFacts(facts, p);
    } else {
      var n := |facts| - 1;
      var f := facts[n];
      CurrencyRowsAddUp(facts[..n], p);
      assert facts == facts[..n] + [f];
      OneMoreFact(facts[..n], f, p);
      var before, row := PointOf(facts[..n], p), CurrencyTotal(f.currency, f.amount, f.contracts);
      if f.period == p {
        SumOne(before.currencies, row, (t: CurrencyTotal) => t.amount);
        SumOne(before.currencies, row, (t: CurrencyTotal) => t.contracts);
      }
    }
  }

  // ----- the limit of the query -----

  /** What the query's row limit lets through. */
  function Fetched(facts: seq<Fact>, limit: nat): seq<Fact>
  {
    facts[..Least(limit, |facts|)]
  }

  /** The months that have facts or projects. */
  function AllPeriods(facts: seq<Fact>, projects: map<string, int>): set<string>
  {
    (set i | 0 <= i < |facts| :: facts[i].period) + projects.Keys
  }

  function Later(periods: set<string>, p: string): set<string>
  {
    set q | q in periods && Before(p, q)
  }

  /** One of the latest `months` of the periods: fewer than that many are later. */
  predicate Shown(periods: set<string>, months: nat, p: string)
  {
    p in periods && |Later(periods, p)| < months
  }

  lemma {:induction false} PeriodsOfPrefix(facts: seq<Fact>, n: nat)
    requires n <= |facts|
    ensures PeriodsOf(facts[..n]) <= PeriodsOf(facts)
    decreases |facts|
  {
    if n < |facts| {
      var k := |facts| - 1;
      assert facts[..k][..n] == facts[..n];
      PeriodsOfPrefix(facts[..k], n);
    } else {
      assert facts[..n] == facts;
    }
  }

  /** A prefix of the facts has the full point of a period exactly when the rest has no fact of it. */
  lemma {:induction false} PrefixHasAll(facts: seq<Fact>, n: nat, period: string)
    requires n <= |facts|
    ensures |CurrenciesOf(facts[..n], period)| <= |CurrenciesOf(facts, period)|
    ensures (forall x :: n <= x < |facts| ==> facts[x].period != period) ==>
      PointOf(facts[..n], period) == PointOf(facts, period)
    ensures (exists x :: n <= x < |facts| && facts[x].period == period) ==>
      PointOf(facts[..n], period) != PointOf(facts, period)
    ensures (exists x :: n <= x < |facts| && facts[x].period == period) ==>
      |CurrenciesOf(facts[..n], period)| < |CurrenciesOf(facts, period)|
    decreases |facts|
  {
    hide Sum;
    if n < |facts| {
      var k := |facts| - 1;
      assert facts[..k][..n] == facts[..n];
      assert facts == facts[..k] + [facts[k]];
      PrefixHasAll(facts[..k], n, period);
      OneMoreFact(facts[..k], facts[k], period);
    } else {
      assert facts[..n] == facts;
    }
  }

  /** The rows of the latest months are those of the shown periods. */
  lemma ListedIffShown(rows: seq<Point>, all: map<string, Point>, months: nat, p: string)
    requires IsLatest(rows, all, months)
    ensures (exists i :: 0 <= i < |rows| && rows[i].period == p) <==> Shown(all.Keys, months, p)
  {
    if i :| 0 <= i < |rows| && rows[i].period == p {
      ListedIsShown(rows, all, months, i);
    } else if p in all {
      LeftOutIsNotShown(rows, all, months, p);
    }
  }

  lemma ListedIsShown(rows: seq<Point>, all: map<string, Point>, months: nat, i: nat)
    requires IsLatest(rows, all, months) && i < |rows|
    ensures Shown(all.Keys, months, rows[i].period)
  {
    hide Before;
    var p, before := rows[i].period, PeriodSet(rows[..i]);
    FallingIsDistinct(rows[..i]);
    forall q | q in Later(all.Keys, p)
      ensures q in before
    {
      BeforeTotal(p, q);
      var j :| 0 <= j < |rows| && rows[j].period == q;
      assert j < i;
      assert rows[..i][j].period == q;
    }
    SubsetSize(Later(all.Keys, p), before);
  }

  lemma LeftOutIsNotShown(rows: seq<Point>, all: map<string, Point>, months: nat, p: string)
    requires IsLatest(rows, all, months) && p in all && forall i :: 0 <= i < |rows| ==> rows[i].period != p
    ensures !Shown(all.Keys, months, p)
  {
    hide Before;
    var kept := PeriodSet(rows);
    FallingIsDistinct(rows);
    SubsetSize(kept, Later(all.Keys, p));
    SubsetSize(kept + {p}, all.Keys);
    assert |kept + {p}| == |kept| + 1;
    assert |all| == |all.Keys|;
  }

  lemma CombinedKeys(facts: seq<Fact>, projects: map<string, int>)
    ensures Combined(Grouped(facts), projects).Keys == AllPeriods(facts, projects)
  {
    hide PointOf, CombinedPoint;
    PeriodsAreTheFacts(facts);
    var periods, points := PeriodsOf(facts), Grouped(facts);
    forall p
      ensures p in PeriodSet(points) <==> p in AllPeriods(facts, map[])
    {
      if p in PeriodSet(points) {
        var i :| 0 <= i < |points| && points[i].period == p;
        GroupedPeriod(facts, i);
        assert periods[i] in periods;
      }
      if p in AllPeriods(facts, map[]) {
        assert p in periods;
        var i :| 0 <= i < |periods| && periods[i] == p;
        GroupedPeriod(facts, i);
        assert points[i].period == p;
      }
    }
  }

  lemma GroupedPeriod(facts: seq<Fact>, i: nat)
    requires i < |PeriodsOf(facts)|
    ensures Grouped(facts)[i].period == PeriodsOf(facts)[i]
  {
  }

  /** The merged point of a period is the sums of its facts and its project count. */
  lemma CombinedIs(facts: seq<Fact>, projects: map<string, int>, p: string)
    ensures CombinedPoint(Grouped(facts), projects, p) == PointOf(facts, p).(projects := ProjectsIn(projects, p))
  {
    hide Sum, CurrenciesOf;
    var points := Grouped(facts);
    var found := Find(points, p);
    if found.Some? {
      var k :| 0 <= k < |points| && points[k] == found.value;
    } else {
      forall k | 0 <= k < |PeriodsOf(facts)|
        ensures PeriodsOf(facts)[k] != p
      {
        assert points[k].period == PeriodsOf(facts)[k];
      }
      NoFacts(facts, p);
    }
  }

  /** A period without unfetched facts has the same merged point, and one with such facts another. */
  lemma MergedAgreesIff(facts: seq<Fact>, projects: map<string, int>, n: nat, p: string)
    requires n <= |facts|
    ensures CombinedPoint(Grouped(facts[..n]), projects, p) == CombinedPoint(Grouped(facts), projects, p) <==>
            forall x :: n <= x < |facts| ==> facts[x].period != p
  {
    hide Grouped, CombinedPoint, PointOf;
    CombinedIs(facts, projects, p);
    CombinedIs(facts[..n], projects, p);
    PrefixHasAll(facts, n, p);
    NoProjectsYet(facts, p);
    NoProjectsYet(facts[..n], p);
  }

  lemma NoProjectsYet(facts: seq<Fact>, p: string)
    ensures PointOf(facts, p).projects == 0
  {
  }

  /** The rows of what was fetched are the latest of everything exactly when nothing shown was cut off. */
  lemma FetchedIsEnoughIff(facts: seq<Fact>, projects: map<string, int>, months: nat, limit: nat, rows: seq<Point>)
    requires IsLatest(rows, Combined(Grouped(Fetched(facts, limit)), projects), months)
    ensures IsLatest(rows, Combined(Grouped(facts), projects), months) <==>
            forall x :: limit <= x < |facts| ==> !Shown(AllPeriods(facts, projects), months, facts[x].period)
  {
    hide Combined, IsLatest, Shown, AllPeriods, Grouped;
    var all := Combined(Grouped(facts), projects);
    CombinedKeys(facts, projects);
    if x :| limit <= x < |facts| && Shown(AllPeriods(facts, projects), months, facts[x].period) {
      if IsLatest(rows, all, months) {
        CutPeriodDiffers(facts, projects, months, limit, rows, x);
      }
    } else {
      NothingShownIsCut(facts, projects, months, limit, rows);
    }
  }

  lemma CutPeriodDiffers(facts: seq<Fact>, projects: map<string, int>, months: nat, limit: nat, rows: seq<Point>, x: nat)
    requires IsLatest(rows, Combined(Grouped(Fetched(facts, limit)), projects), months)
    requires limit <= x < |facts| && Shown(AllPeriods(facts, projects), months, facts[x].period)
    ensures !IsLatest(rows, Combined(Grouped(facts), projects), months)
  {
    hide CombinedPoint, Shown, AllPeriods, Grouped, Before;
    var p, all := facts[x].period, Combined(Grouped(facts), projects);
    CombinedKeys(facts, projects);
    MergedAgreesIff(facts, projects, limit, p);
    if i :| 0 <= i < |rows| && rows[i].period == p {
      assert rows[i] == CombinedPoint(Grouped(Fetched(facts, limit)), projects, p);
    } else {
      NotListed(rows, all, months, p);
    }
  }

  lemma NotListed(rows: seq<Point>, all: map<string, Point>, months: nat, p: string)
    requires Shown(all.Keys, months, p) && forall i :: 0 <= i < |rows| ==> rows[i].period != p
    ensures !IsLatest(rows, all, months)
  {
    hide IsLatest, Shown;
    if IsLatest(rows, all, months) {
      ListedIffShown(rows, all, months, p);
    }
  }

  lemma NothingShownIsCut(facts: seq<Fact>, projects: map<string, int>, months: nat, limit: nat, rows: seq<Point>)
    requires IsLatest(rows, Combined(Grouped(Fetched(facts, limit)), projects), months)
    requires forall x :: limit <= x < |facts| ==> !Shown(AllPeriods(facts, projects), months, facts[x].period)
    ensures IsLatest(rows, Combined(Grouped(facts), projects), months)
  {
    hide Combined, Grouped, IsLatest, Shown, AllPeriods;
    var fetched := Fetched(facts, limit);
    var part, all := Combined(Grouped(fetched), projects), Combined(Grouped(facts), projects);
    CombinedKeys(facts, projects);
    CombinedKeys(fetched, projects);
    FetchedPeriods(facts, projects, |fetched|);
    CombinedKnowsItsPeriods(Grouped(facts), projects);
    var full := LatestExists(all, months);
    forall i | 0 <= i < |full|
      ensures full[i].period in part && full[i] == part[full[i].period]
    {
      ListedIsStored(full, all, months, i);
      ListedIffShown(full, all, months, full[i].period);
      ShownIsFetched(facts, projects, limit, full[i].period);
    }
    PartIsEnough(full, part, all, months);
    LatestIsUnique(rows, full, part, months);
  }

  lemma ListedIsStored(rows: seq<Point>, all: map<string, Point>, months: nat, i: nat)
    requires IsLatest(rows, all, months) && i < |rows|
    ensures rows[i].period in all && rows[i] == all[rows[i].period]
  {
  }

  lemma ShownIsFetched(facts: seq<Fact>, projects: map<string, int>, limit: nat, p: string)
    requires p in AllPeriods(facts, projects) && forall x :: limit <= x < |facts| ==> facts[x].period != p
    ensures var part := Combined(Grouped(Fetched(facts, limit)), projects);
      p in part && p in Combined(Grouped(facts), projects) && part[p] == Combined(Grouped(facts), projects)[p]
  {
    hide Grouped, CombinedPoint, AllPeriods;
    var n := Least(limit, |facts|);
    CombinedKeys(facts, projects);
    CombinedKeys(facts[..n], projects);
    MergedAgreesIff(facts, projects, n, p);
    FetchedPeriod(facts, projects, n, p);
  }

  lemma FetchedPeriods(facts: seq<Fact>, projects: map<string, int>, n: nat)
    requires n <= |facts|
    ensures AllPeriods(facts[..n], projects) <= AllPeriods(facts, projects)
  {
    assert forall i :: 0 <= i < n ==> facts[..n][i] == facts[i];
  }

  lemma FetchedPeriod(facts: seq<Fact>, projects: map<string, int>, n: nat, p: string)
    requires n <= |facts| && p in AllPeriods(facts, projects) && forall x :: n <= x < |facts| ==> facts[x].period != p
    ensures p in AllPeriods(facts[..n], projects)
  {
    if p !in projects {
      var i :| 0 <= i < |facts| && facts[i].period == p;
      assert facts[..n][i].period == p;
    }
  }

  /** Rows that are the latest of a table are the latest of any part of it that has them all. */
  lemma PartIsEnough(rows: seq<Point>, part: map<string, Point>, all: map<string, Point>, months: nat)
    requires IsLatest(rows, all, months) && part.Keys <= all.Keys
    requires forall i :: 0 <= i < |rows| ==> rows[i].period in part && rows[i] == part[rows[i].period]
    ensures IsLatest(rows, part, months)
  {
    hide Before;
    FallingIsDistinct(rows);
    SubsetSize(PeriodSet(rows), part.Keys);
    SubsetSize(part.Keys, all.Keys);
    assert |part| == |part.Keys| && |all| == |all.Keys|;
  }

  /** Every table has latest months. */
  lemma LatestExists(all: map<string, Point>, months: nat) returns (rows: seq<Point>)
    requires forall p :: p in all ==> all[p].period == p
    ensures IsLatest(rows, all, months)
  {
    hide IsLatest, Ascending;
    var periods := AscendingListing(all.Keys);
    rows := LastRows(all, periods, Least(months, |periods|));
    LatestRows(rows, all, periods, months);
  }

  function LastRows(all: map<string, Point>, periods: seq<string>, k: nat): seq<Point>
    requires k <= |periods| && forall p :: p in periods ==> p in all
  {
    seq(k, i requires 0 <= i < k => all[periods[|periods| - 1 - i]])
  }

  lemma AscendingListing(periods: set<string>) returns (s: seq<string>)
    ensures Ascending(s) && |s| == |periods| && forall p :: p in s <==> p in periods
    decreases |periods|
  {
    hide Ascending, InsertAt;
    if periods == {} {
      s := [];
      NothingAscending();
    } else {
      var p :| p in periods;
      var rest := AscendingListing(periods - {p});
      InsertedAscending(rest, p);
      var at := InsertAt(rest, p);
      s := rest[..at] + [p] + rest[at..];
    }
  }

  /**
   * The limit of the query changes nothing in the trend that is returned exactly
   * when it cuts off no fact of a month among the latest ones of facts and
   * projects together.
   */
  lemma LimitIsHarmlessIff(facts: seq<Fact>, projects: map<string, int>, months: nat, limit: nat,
    rows: seq<Point>, full: seq<Point>)
    requires IsLatest(rows, Combined(Grouped(Fetched(facts, limit)), projects), months)
    requires IsLatest(full, Combined(Grouped(facts), projects), months)
    ensures rows == full <==>
            forall x :: limit <= x < |facts| ==> !Shown(AllPeriods(facts, projects), months, facts[x].period)
  {
    hide Combined, IsLatest, Shown, AllPeriods, Grouped, Fetched;
    FetchedIsEnoughIff(facts, projects, months, limit, rows);
    if IsLatest(rows, Combined(Grouped(facts), projects), months) {
      LatestIsUnique(rows, full, Combined(Grouped(facts), projects), months);
    }
  }

  // ----- how many currencies the limit allows for -----

  lemma {:induction false} RowsCountFacts(facts: seq<Fact>, limit: nat)
    requires forall p :: p in PeriodsOf(facts) ==> |CurrenciesOf(facts, p)| <= limit
    ensures |facts| <= limit * |PeriodsOf(facts)|
  {
    hide PeriodsOf, CurrenciesOf;
    PeriodsAreTheFacts(facts);
    CountedBy(facts, PeriodsOf(facts), limit);
  }

  function Without(facts: seq<Fact>, period: string): seq<Fact>
  {
    if facts == [] then []
    else Without(facts[..|facts| - 1], period) + if facts[|facts| - 1].period == period then [] else [facts[|facts| - 1]]
  }

  lemma {:induction false} WithoutCounts(facts: seq<Fact>, period: string, other: string)
    ensures |facts| == |Without(facts, period)| + |CurrenciesOf(facts, period)|
    ensures |CurrenciesOf(Without(facts, period), other)| <= |CurrenciesOf(facts, other)|
  {
    if facts != [] {
      var n := |facts| - 1;
      WithoutCounts(facts[..n], period, other);
      var rest := Without(facts[..n], period);
      if facts[n].period != period {
        assert (rest + [facts[n]])[..|rest|] == rest;
      } else {
        assert Without(facts, period) == rest;
      }
    }
  }

  lemma {:induction false} WithoutLeaves(facts: seq<Fact>, period: string)
    ensures forall f :: f in Without(facts, period) ==> f in facts && f.period != period
  {
    if facts != [] {
      WithoutLeaves(facts[..|facts| - 1], period);
    }
  }

  lemma {:induction false} CountedBy(facts: seq<Fact>, periods: seq<string>, limit: nat)
    requires forall i :: 0 <= i < |facts| ==> facts[i].period in periods
    requires forall p :: p in periods ==> |CurrenciesOf(facts, p)| <= limit
    ensures |facts| <= limit * |periods|
    decreases |periods|
  {
    hide CurrenciesOf, Without;
    if facts != [] {
      assert facts[0].period in periods;
      var n := |periods| - 1;
      assert periods[n] in periods;
      var rest := Without(facts, periods[n]);
      WithoutCounts(facts, periods[n], "");
      WithoutLeaves(facts, periods[n]);
      forall i | 0 <= i < |rest|
        ensures rest[i].period in periods[..n]
      {
        assert rest[i] in facts;
      }
      forall p | p in periods[..n]
        ensures |CurrenciesOf(rest, p)| <= limit
      {
        WithoutCounts(facts, periods[n], p);
      }
      CountedBy(rest, periods[..n], limit);
      assert limit * |periods| == limit * n + limit;
    }
  }

  /** Of sorted facts with at most eight in a month, each fact beyond eight a month has that many months after its own. */
  lemma BeyondTheLatest(facts: seq<Fact>, projects: map<string, int>, months: nat, x: nat)
    requires Sorted(facts) && forall p :: p in PeriodsOf(facts) ==> |CurrenciesOf(facts, p)| <= 8
    requires months * 8 <= x < |facts|
    ensures !Shown(AllPeriods(facts, projects), months, facts[x].period)
  {
    hide PeriodsOf, CurrenciesOf, Before;
    var seen := facts[..x + 1];
    PeriodsAreTheFacts(facts);
    PeriodsAreTheFacts(seen);
    PeriodsOfPrefix(facts, x + 1);
    forall p | p in PeriodsOf(seen)
      ensures |CurrenciesOf(seen, p)| <= 8
    {
      PrefixHasAll(facts, x + 1, p);
    }
    RowsCountFacts(seen, 8);
    var periods := PeriodsOf(seen);
    assert |periods| > months;
    LastSeenIsLast(facts, x);
    EarlierSeenAreLater(facts, projects, x);
    var init := periods[..|periods| - 1];
    DistinctBySize(init);
    var others := set q | q in init;
    SubsetSize(others, Later(AllPeriods(facts, projects), facts[x].period));
  }

  lemma EarlierSeenAreLater(facts: seq<Fact>, projects: map<string, int>, x: nat)
    requires Sorted(facts) && x < |facts| && PeriodsOf(facts[..x + 1]) != []
    requires facts[x].period == PeriodsOf(facts[..x + 1])[|PeriodsOf(facts[..x + 1])| - 1]
    ensures var periods := PeriodsOf(facts[..x + 1]);
      forall q :: q in periods[..|periods| - 1] ==> q in Later(AllPeriods(facts, projects), facts[x].period)
  {
    hide PeriodsOf, Before, PointOf;
    var seen := facts[..x + 1];
    var periods := PeriodsOf(seen);
    GroupsFall(seen);
    PeriodsAreTheFacts(seen);
    forall q | q in periods[..|periods| - 1]
      ensures q in Later(AllPeriods(facts, projects), facts[x].period)
    {
      var i :| 0 <= i < |periods| - 1 && periods[i] == q;
      GroupedPeriod(seen, i);
      GroupedPeriod(seen, |periods| - 1);
      assert Before(Grouped(seen)[|periods| - 1].period, Grouped(seen)[i].period);
      assert q in periods;
      var k :| 0 <= k < |seen| && seen[k].period == q;
      assert facts[k].period == q;
    }
  }

  /** With at most eight currencies in a month, the limit of eight rows a month never changes the trend. */
  lemma EightCurrenciesFit(facts: seq<Fact>, projects: map<string, int>, months: nat, rows: seq<Point>, full: seq<Point>)
    requires Sorted(facts) && forall p :: p in PeriodsOf(facts) ==> |CurrenciesOf(facts, p)| <= 8
    requires IsLatest(rows, Combined(Grouped(Fetched(facts, months * 8)), projects), months)
    requires IsLatest(full, Combined(Grouped(facts), projects), months)
    ensures rows == full
  {
    hide PeriodsOf, CurrenciesOf, Fetched, Sorted, IsLatest, Combined, Grouped, Shown, AllPeriods;
    LimitIsHarmlessIff(facts, projects, months, months * 8, rows, full);
    forall x | months * 8 <= x < |facts|
      ensures !Shown(AllPeriods(facts, projects), months, facts[x].period)
    {
      BeyondTheLatest(facts, projects, months, x);
    }
  }

  lemma LastSeenIsLast(facts: seq<Fact>, x: nat)
    requires Sorted(facts) && x < |facts|
    ensures PeriodsOf(facts[..x + 1]) != [] && facts[x].period == PeriodsOf(facts[..x + 1])[|PeriodsOf(facts[..x + 1])| - 1]
  {
    hide Before, PeriodsOf;
    var seen := facts[..x + 1];
    GroupsFall(seen);
    PeriodsAreTheFacts(seen);
    assert seen[x].period in PeriodsOf(seen);
    var periods := PeriodsOf(seen);
    var last := periods[|periods| - 1];
    assert last in periods;
    var k :| 0 <= k <= x && seen[k].period == last;
    var i :| 0 <= i < |periods| && periods[i] == seen[x].period;
    if i < |periods| - 1 {
      assert Before(Grouped(seen)[|periods| - 1].period, Grouped(seen)[i].period);
      BeforeTotal(last, seen[x].period);
    }
  }

  /** When no more than the requested months have anything, every fact beyond the limit is missed. */
  lemma TooManyRows(facts: seq<Fact>, projects: map<string, int>, months: nat, rows: seq<Point>, full: seq<Point>)
    requires |AllPeriods(facts, projects)| <= months && |facts| > months * 8
    requires IsLatest(rows, Combined(Grouped(Fetched(facts, months * 8)), projects), months)
    requires IsLatest(full, Combined(Grouped(facts), projects), months)
    ensures rows != full
  {
    hide Fetched, IsLatest, Combined, Grouped, Before;
    LimitIsHarmlessIff(facts, projects, months, months * 8, rows, full);
    var p, periods := facts[|facts| - 1].period, AllPeriods(facts, projects);
    BeforeTotal(p, p);
    SubsetSize(Later(periods, p) + {p}, periods);
    assert |Later(periods, p) + {p}| == |Later(periods, p)| + 1;
    assert Shown(periods, months, p);
  }

  /** A later month for a greater number. */
  function MonthName(k: nat): string
  {
    if k == 0 then "" else "m" + MonthName(k - 1)
  }

  lemma {:induction false} MonthsAreOrdered(j: nat, k: nat)
    requires j < k
    ensures Before(MonthName(j), MonthName(k))
  {
    if j > 0 {
      MonthsAreOrdered(j - 1, k - 1);
      assert MonthName(j)[1..] == MonthName(j - 1) && MonthName(k)[1..] == MonthName(k - 1);
    }
  }

  const NINE := ["AED", "AUD", "CAD", "CHF", "CNY", "EUR", "GBP", "JPY", "USD"]

  /** Nine currencies in each of `months` months, newest first. */
  function NineEach(months: nat): seq<Fact>
  {
    seq(9 * months, i requires 0 <= i < 9 * months => Fact(MonthName(months - i / 9), NINE[i % 9], 1, 1))
  }

  lemma NineEachIsSorted(months: nat)
    ensures Sorted(NineEach(months))
  {
    hide Before, MonthName;
    var facts := NineEach(months);
    forall i, j | 0 <= i < j < |facts|
      ensures facts[i].period == facts[j].period || Before(facts[j].period, facts[i].period)
    {
      if months - j / 9 < months - i / 9 {
        MonthsAreOrdered(months - j / 9, months - i / 9);
      }
    }
  }

  lemma NineEachIsShort(months: nat)
    ensures |AllPeriods(NineEach(months), map[])| <= months
  {
    hide MonthName;
    var facts, names := NineEach(months), seq(months, k requires 0 <= k < months => MonthName(k + 1));
    DistinctBySize(names);
    forall p | p in AllPeriods(facts, map[])
      ensures p in names
    {
      var i :| 0 <= i < |facts| && facts[i].period == p;
      assert names[months - i / 9 - 1] == p;
    }
    SubsetSize(AllPeriods(facts, map[]), set x | x in names);
  }

  /**
   * Concretely, for every number of months, the twelve of the service included:
   * with nine currencies in each of them the trend that is returned lacks rows.
   */
  lemma NineCurrenciesDoNotFit(months: nat, rows: seq<Point>, full: seq<Point>)
    requires months >= 1
    requires IsLatest(rows, Combined(Grouped(Fetched(NineEach(months), months * 8)), map[]), months)
    requires IsLatest(full, Combined(Grouped(NineEach(months)), map[]), months)
    ensures Sorted(NineEach(months)) && rows != full
  {
    hide Fetched, IsLatest, Combined, Grouped, Sorted, AllPeriods;
    NineEachIsSorted(months);
    NineEachIsShort(months);
    TooManyRows(NineEach(months), map[], months, rows, full);
  }

  // ----- the query and both loops -----

  /**
   * The trend: the first eight rows a month of all facts in query order, cut to
   * the months, merged with the project counts. It is the latest months of what
   * was fetched, and of everything exactly when no fact that was not fetched is
   * of a month that belongs to the latest ones.
   */
  method ScopedTrend(facts: seq<Fact>, projects: map<string, int>, months: nat) returns (rows: seq<Point>)
    requires Sorted(facts)
    ensures IsLatest(rows, Combined(Grouped(Fetched(facts, months * 8)), projects), months)
    ensures Falling(rows) && |rows| <= months
    ensures IsLatest(rows, Combined(Grouped(facts), projects), months) <==>
            forall x :: months * 8 <= x < |facts| ==> !Shown(AllPeriods(facts, projects), months, facts[x].period)
  {
    hide Combined, Falling, Grouped, IsLatest, Shown, AllPeriods;
    var fetched := Fetched(facts, months * 8);
    var contractRows := TrendRowsByCurrency(fetched, months);
    rows := MergeTrendPoints(contractRows, projects, months);
    GroupsFall(fetched);
    GroupCount(fetched);
    EarlyCutIsHarmless(Grouped(fetched), projects, months, rows);
    LatestFalls(rows, Combined(Grouped(fetched), projects), months);
    FetchedIsEnoughIff(facts, projects, months, months * 8, rows);
  }
}
