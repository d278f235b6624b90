/**
 * Reading a source table in keyset pages while the table may change between the
 * queries. A key is its place in the order of the key column, which has `width`
 * places in all.
 */
module Scan {
  import opened Common

  lemma LeastExists(s: set<nat>)
    requires s != {}
    ensures exists m :: m in s && forall x :: x in s ==> m <= x
    decreases |s|
  {
    var x :| x in s;
    var below := set y | y in s && y < x;
    if below == {} {
      assert forall y :: y in s ==> y in below || x <= y;
    } else {
      assert below < s by {
        assert x in s && x !in below;
      }
      SmallerSet(below, s);
      LeastExists(below);
      var m :| m in below && forall y :: y in below ==> m <= y;
      assert forall y :: y in s ==> y in below || x <= y;
    }
  }

  lemma SmallerSet(a: set<nat>, b: set<nat>)
    requires a < b
    ensures |a| < |b|
  {
    assert b == a + (b - a) && b - a != {};
  }

  function Least(s: set<nat>): (m: nat)
    requires s != {}
    ensures m in s && forall x :: x in s ==> m <= x
  {
    LeastExists(s);
    var m :| m in s && forall x :: x in s ==> m <= x;
    m
  }

  function From(keys: set<nat>, start: nat): set<nat>
  {
    set k | k in keys && start <= k
  }

  /** What the query answers: the first `limit` keys from `start` on, in order. */
  function Page(keys: set<nat>, start: nat, limit: nat): seq<nat>
    decreases limit
  {
    if limit == 0 || From(keys, start) == {} then []
    else
      var k := Least(From(keys, start));
      [k] + Page(keys, k + 1, limit - 1)
  }

  predicate Rising(s: seq<nat>)
  {
    forall i, j :: 0 <= i < j < |s| ==> s[i] < s[j]
  }

  /** Nothing that belongs on the page is left out before its end. */
  ghost predicate Complete(keys: set<nat>, start: nat, limit: nat, page: seq<nat>)
  {
    forall k :: k in keys && start <= k ==> k in page || (|page| == limit && forall i :: 0 <= i < |page| ==> page[i] < k)
  }

  ghost predicate Within(keys: set<nat>, start: nat, page: seq<nat>)
  {
    forall i :: 0 <= i < |page| ==> page[i] in keys && start <= page[i]
  }

  /** Independent description of a page: in order, from the table, and complete as far as it goes. */
  ghost predicate IsPage(keys: set<nat>, start: nat, limit: nat, page: seq<nat>)
  {
    Rising(page) && |page| <= limit && Within(keys, start, page) && Complete(keys, start, limit, page)
  }

  lemma {:induction false} PageIsComplete(keys: set<nat>, start: nat, limit: nat)
    decreases limit
    ensures IsPage(keys, start, limit, Page(keys, start, limit))
  {
    hide IsPage, Least;
    if limit != 0 && From(keys, start) != {} {
      var least := Least(From(keys, start));
      PageIsComplete(keys, least + 1, limit - 1);
      StillPage(keys, start, limit, least, Page(keys, least + 1, limit - 1));
    } else {
      EmptyPage(keys, start, limit);
    }
  }

  lemma StillPage(keys: set<nat>, start: nat, limit: nat, least: nat, rest: seq<nat>)
    requires limit != 0 && From(keys, start) != {} && least == Least(From(keys, start))
    requires IsPage(keys, least + 1, limit - 1, rest)
    ensures IsPage(keys, start, limit, [least] + rest)
  {
    hide Complete, Rising, Least;
    StillComplete(keys, start, limit, least, rest);
    StillRising(least, rest);
    assert least in From(keys, start);
  }

  lemma StillRising(least: nat, rest: seq<nat>)
    requires Rising(rest) && forall i :: 0 <= i < |rest| ==> least < rest[i]
    ensures Rising([least] + rest)
  {
  }

  lemma EmptyPage(keys: set<nat>, start: nat, limit: nat)
    requires limit == 0 || From(keys, start) == {}
    ensures IsPage(keys, start, limit, [])
  {
    assert forall k :: k in keys && start <= k ==> k in From(keys, start);
  }

  lemma StillComplete(keys: set<nat>, start: nat, limit: nat, least: nat, rest: seq<nat>)
    requires limit != 0 && From(keys, start) != {} && least == Least(From(keys, start))
    requires Complete(keys, least + 1, limit - 1, rest)
    ensures Complete(keys, start, limit, [least] + rest)
  {
    var page := [least] + rest;
    forall k | k in keys && start <= k
      ensures k in page || (|page| == limit && forall i :: 0 <= i < |page| ==> page[i] < k)
    {
      assert k in From(keys, start);
      assert k == least ==> page[0] == k;
      assert k in rest ==> k in page;
    }
  }

  function Flat(batches: seq<seq<nat>>): seq<nat>
  {
    if batches == [] then [] else Flat(batches[..|batches| - 1]) + batches[|batches| - 1]
  }

  lemma FlatAppend(batches: seq<seq<nat>>, batch: seq<nat>)
    ensures Flat(batches + [batch]) == Flat(batches) + batch
  {
    assert (batches + [batch])[..|batches|] == batches;
  }

  lemma {:induction false} RisingSize(s: seq<nat>, keys: set<nat>)
    requires Rising(s) && forall k :: k in keys <==> k in s
    ensures |keys| == |s|
  {
    if s == [] {
      assert keys == {};
    } else {
      var n := |s| - 1;
      RisingSize(s[..n], keys - {s[n]});
    }
  }

  /** The table that query `q` sees, and the calls that fail. */
  datatype Source = Source(tables: nat -> set<nat>, width: nat, queryFails: nat -> bool, batchFails: nat -> bool)

  ghost predicate Bounded(s: Source)
  {
    forall q: nat, k: nat :: k in s.tables(q) ==> k < s.width
  }

  /** Present in every one of the first `queries` tables. */
  predicate AlwaysThere(s: Source, queries: nat, k: nat)
  {
    forall q: nat :: 0 <= q < queries ==> k in s.tables(q)
  }

  predicate Static(s: Source, queries: nat)
  {
    forall q: nat :: 0 <= q < queries ==> s.tables(q) == s.tables(0)
  }

  /** The next page is in order behind what was delivered, and leaves out nothing that was always there. */
  lemma NextPage(s: Source, seen: seq<nat>, q: nat, start: nat, limit: nat)
    requires Rising(seen) && forall i :: 0 <= i < |seen| ==> seen[i] < start
    requires forall k: nat :: k < start && AlwaysThere(s, q, k) ==> k in seen
    ensures var page := Page(s.tables(q), start, limit);
      && Rising(seen + page) && |page| <= limit
      && (forall i :: 0 <= i < |page| ==> page[i] in s.tables(q) && start <= page[i])
      && (|page| < limit ==> forall k: nat :: AlwaysThere(s, q + 1, k) ==> k in seen + page)
      && (page != [] ==>
            && (forall i :: 0 <= i < |seen + page| ==> (seen + page)[i] < page[|page| - 1] + 1)
            && forall k: nat :: k < page[|page| - 1] + 1 && AlwaysThere(s, q + 1, k) ==> k in seen + page)
  {
    hide Page;
    var page := Page(s.tables(q), start, limit);
    PageIsComplete(s.tables(q), start, limit);
    forall k: nat | AlwaysThere(s, q + 1, k) && (|page| < limit || (page != [] && k <= page[|page| - 1]))
      ensures k in seen + page
    {
      assert AlwaysThere(s, q, k) && k in s.tables(q);
      if start <= k {
        assert k in page;
      }
    }
  }

  method ScanSourceBatches(s: Source, batchSize: nat)
    returns (batches: seq<seq<nat>>, queries: nat, ok: bool)
    requires Bounded(s)
    ensures Rising(Flat(batches)) && |batches| <= queries
    ensures forall q: nat :: 0 <= q < |batches| ==>
      batches[q] != [] && |batches[q]| <= batchSize && forall i :: 0 <= i < |batches[q]| ==> batches[q][i] in s.tables(q)
    ensures ok <==> (forall q: nat :: 0 <= q < queries ==> !s.queryFails(q)) && forall q: nat :: 0 <= q < |batches| ==> !s.batchFails(q)
    ensures ok && batchSize > 0 ==> forall k: nat :: AlwaysThere(s, queries, k) ==> k in Flat(batches)
    ensures ok && batchSize > 0 && Static(s, queries) ==>
      queries == |s.tables(0)| / batchSize + 1 && forall k :: k in Flat(batches) <==> k in s.tables(0)
  {
    hide Page, Flat, Rising;
    batches, queries := [], 0;
    var start := 0;
    EmptyFlat();
    while true
      invariant |batches| == queries && start <= s.width
      invariant Rising(Flat(batches)) && forall i :: 0 <= i < |Flat(batches)| ==> Flat(batches)[i] < start
      invariant forall k: nat :: k < start && AlwaysThere(s, queries, k) ==> k in Flat(batches)
      invariant |Flat(batches)| == queries * batchSize
      invariant forall q: nat :: 0 <= q < |batches| ==>
        batches[q] != [] && |batches[q]| <= batchSize && forall i :: 0 <= i < |batches[q]| ==> batches[q][i] in s.tables(q)
      invariant forall q: nat :: 0 <= q < queries ==> !s.queryFails(q) && !s.batchFails(q)
      decreases s.width - start
    {
      var q := queries;
      queries := q + 1;
      if s.queryFails(q) {
        return batches, queries, false;
      }
      OneMore(q, batchSize);
      var rows := Page(s.tables(q), start, batchSize);
      NextPage(s, Flat(batches), q, start, batchSize);
      FlatAppend(batches, rows);
      if |rows| < batchSize {
        StaticCount(s, batches, rows, q, batchSize);
      }
      if |rows| == 0 {
        assert Flat(batches) + rows == Flat(batches);
        return batches, queries, true;
      }
      batches := batches + [rows];
      if s.batchFails(q) {
        return batches, queries, false;
      }
      if |rows| < batchSize {
        return batches, queries, true;
      }
      start := rows[|rows| - 1] + 1;
    }
  }

  lemma OneMore(q: nat, b: nat)
    ensures (q + 1) * b == q * b + b
  {
  }

  lemma EmptyFlat()
    ensures Flat([]) == [] && Rising([])
  {
  }

  lemma StaticCount(s: Source, batches: seq<seq<nat>>, rows: seq<nat>, q: nat, batchSize: nat)
    requires |batches| == q && |Flat(batches)| == q * batchSize && |rows| < batchSize
    requires Rising(Flat(batches) + rows)
    requires forall k: nat :: AlwaysThere(s, q + 1, k) ==> k in Flat(batches) + rows
    requires forall p :: 0 <= p < q ==> forall i :: 0 <= i < |batches[p]| ==> batches[p][i] in s.tables(p)
    requires forall i :: 0 <= i < |rows| ==> rows[i] in s.tables(q)
    ensures Static(s, q + 1) ==>
      && (forall k :: k in Flat(batches) + rows <==> k in s.tables(0))
      && q + 1 == |s.tables(0)| / batchSize + 1
  {
    hide Rising;
    if Static(s, q + 1) {
      FlatMembers(s, batches);
      var all := Flat(batches) + rows;
      forall k
        ensures k in all <==> k in s.tables(0)
      {
        if k in s.tables(0) {
          assert AlwaysThere(s, q + 1, k);
        }
        assert s.tables(q) == s.tables(0);
      }
      RisingSize(all, s.tables(0));
      Quotient(q, batchSize, |rows|);
    }
  }

  lemma {:induction false} FlatMembers(s: Source, batches: seq<seq<nat>>)
    requires forall p :: 0 <= p < |batches| ==> forall i :: 0 <= i < |batches[p]| ==> batches[p][i] in s.tables(p)
    requires Static(s, |batches|)
    ensures forall k :: k in Flat(batches) ==> k in s.tables(0)
  {
    if batches != [] {
      var n := |batches| - 1;
      FlatMembers(s, batches[..n]);
      assert s.tables(n) == s.tables(0);
    }
  }

  lemma Quotient(q: nat, b: nat, r: nat)
    requires r < b
    ensures (q * b + r) / b == q
  {
    var n := q * b + r;
    var d := n / b;
    assert (d - q) * b == r - n % b;
    NoGap(d - q, b);
  }

  lemma NoGap(x: int, b: int)
    requires 0 < b && -b < x * b < b
    ensures x == 0
  {
    AtLeast(x, b);
  }

  lemma AtLeast(x: int, b: int)
    requires 0 < b
    ensures 1 <= x ==> b <= x * b
    ensures x <= -1 ==> x * b <= -b
  {
    if 1 <= x {
      assert 0 <= (x - 1) * b;
    } else if x <= -1 {
      assert 0 <= (-x - 1) * b;
    }
  }
}
