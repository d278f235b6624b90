/** Vocabulary shared by the protocol models. */
module Common {

  datatype Option<+T> = None | Some(value: T)

  datatype Result<+T> = Ok(value: T) | Err(error: string)

  /** White space as Unicode defines it. */
  predicate Space(c: char)
  {
    var n := c as int;
    || 9 <= n <= 13 || n == 32 || n == 0x85 || n == 0xA0 || n == 0x1680 || 0x2000 <= n <= 0x200A
    || n == 0x2028 || n == 0x2029 || n == 0x202F || n == 0x205F || n == 0x3000
  }

  /** Nothing is left of the string once white space is trimmed. */
  predicate Blank(s: string)
  {
    forall i :: 0 <= i < |s| ==> Space(s[i])
  }

  predicate AlphaNumeric(c: char)
  {
    'A' <= c <= 'Z' || 'a' <= c <= 'z' || '0' <= c <= '9'
  }

  /** The order Go gives to strings: by code point, a proper prefix first. */
  predicate Before(a: string, b: string)
  {
    b != [] && (a == [] || a[0] < b[0] || (a[0] == b[0] && Before(a[1..], b[1..])))
  }

  /** Independent description of the order: a proper prefix, or smaller where the strings first differ. */
  lemma {:induction false} BeforeIff(a: string, b: string)
    ensures Before(a, b) <==>
            || (|a| < |b| && a == b[..|a|])
            || exists i :: 0 <= i < |a| && i < |b| && a[..i] == b[..i] && a[i] < b[i]
  {
    if a != [] && b != [] && a[0] == b[0] {
      var s, t := a[1..], b[1..];
      BeforeIff(s, t);
      if i :| 0 <= i < |s| && i < |t| && s[..i] == t[..i] && s[i] < t[i] {
        assert a[..i + 1] == [a[0]] + s[..i] && b[..i + 1] == [b[0]] + t[..i];
        assert a[i + 1] < b[i + 1];
      }
      if i :| 0 <= i < |a| && i < |b| && a[..i] == b[..i] && a[i] < b[i] {
        assert i > 0;
        assert s[..i - 1] == a[..i][1..] && t[..i - 1] == b[..i][1..];
        assert s[i - 1] < t[i - 1];
      }
      if |a| < |b| && a == b[..|a|] {
        assert t[..|s|] == b[..|a|][1..];
      }
      if |s| < |t| && s == t[..|s|] {
        assert a == [a[0]] + s && b[..|a|] == [b[0]] + t[..|s|];
      }
    } else if a != [] && b != [] {
      if a[0] < b[0] {
        assert a[..0] == b[..0];
      }
      forall i | 0 < i < |a| && i < |b|
        ensures a[..i] != b[..i]
      {
        assert a[..i][0] != b[..i][0];
      }
    }
  }

  lemma {:induction false} BeforeTransitive(a: string, b: string, c: string)
    requires Before(a, b) && Before(b, c)
    ensures Before(a, c)
  {
    if a != [] && a[0] == b[0] && b[0] == c[0] {
      BeforeTransitive(a[1..], b[1..], c[1..]);
    }
  }

  lemma {:induction false} BeforeTotal(a: string, b: string)
    ensures Before(a, b) || Before(b, a) || a == b
    ensures !(Before(a, b) && Before(b, a))
    ensures a == b ==> !Before(a, b)
  {
    if a != [] && b != [] && a[0] == b[0] {
      BeforeTotal(a[1..], b[1..]);
      assert a == [a[0]] + a[1..] && b == [b[0]] + b[1..];
    }
  }

  /** Strictly ascending in the string order. */
  predicate Ascending(s: seq<string>)
  {
    forall i, j :: 0 <= i < j < |s| ==> Before(s[i], s[j])
  }

  /**
   * What a stamped cell holds after the updates in `s`, applied in turn and
   * each guarded by "not older than what is stored".
   */
  function Newest<T>(s: seq<(int, T)>): (int, T)
    requires s != []
  {
    var last := s[|s| - 1];
    if |s| == 1 then last
    else
      var kept := Newest(s[..|s| - 1]);
      if kept.0 <= last.0 then last else kept
  }

  /** Independent description of Newest: the last entry among those with the greatest stamp. */
  ghost predicate IsNewest<T>(s: seq<(int, T)>, i: int)
  {
    && 0 <= i < |s|
    && (forall j :: 0 <= j < |s| ==> s[j].0 <= s[i].0)
    && (forall j :: i < j < |s| ==> s[j].0 < s[i].0)
  }

  lemma {:induction false} NewestIsLastMaximal<T>(s: seq<(int, T)>) returns (i: int)
    requires s != []
    ensures IsNewest(s, i) && Newest(s) == s[i]
  {
    var n := |s| - 1;
    i := n;
    if n > 0 {
      var k := NewestIsLastMaximal(s[..n]);
      if Newest(s[..n]).0 > s[n].0 {
        i := k;
      }
      assert forall j :: 0 <= j < n ==> s[..n][j] == s[j];
    }
  }

  // ----- ascending lists of strings -----

  /** Where a string belongs in an ascending list. */
  function InsertAt(names: seq<string>, name: string): (at: nat)
    ensures at <= |names|
  {
    if names == [] || Before(name, names[0]) then 0 else 1 + InsertAt(names[1..], name)
  }

  lemma {:induction false} InsertPlace(names: seq<string>, name: string)
    requires Ascending(names) && name !in names
    ensures var at := InsertAt(names, name);
      && (forall i :: 0 <= i < at ==> Before(names[i], name))
      && forall i :: at <= i < |names| ==> Before(name, names[i])
  {
    hide Before;
    if names != [] {
      if Before(name, names[0]) {
        forall i | 0 < i < |names|
          ensures Before(name, names[i])
        {
          BeforeTransitive(name, names[0], names[i]);
        }
      } else {
        BeforeTotal(name, names[0]);
        InsertPlace(names[1..], name);
        forall i | InsertAt(names, name) <= i < |names|
          ensures Before(name, names[i])
        {
          assert names[i] == names[1..][i - 1];
        }
      }
    }
  }

  lemma InsertedAscending(names: seq<string>, name: string)
    requires Ascending(names) && name !in names
    ensures var at := InsertAt(names, name);
      var next := names[..at] + [name] + names[at..];
      && Ascending(next)
      && forall x :: x in next <==> x in names || x == name
  {
    hide Before, InsertAt;
    var at := InsertAt(names, name);
    InsertPlace(names, name);
    var next := names[..at] + [name] + names[at..];
    forall i, j | 0 <= i < j < |next|
      ensures Before(next[i], next[j])
    {
      assert i < at ==> next[i] == names[i];
      assert i > at ==> next[i] == names[i - 1];
      assert j < at ==> next[j] == names[j];
      assert j > at ==> next[j] == names[j - 1];
    }
  }

  /** Strictly ascending lists with the same members are the same list. */
  lemma {:induction false} AscendingIsUnique(a: seq<string>, b: seq<string>)
    requires Ascending(a) && Ascending(b) && forall name :: name in a <==> name in b
    ensures a == b
  {
    hide Before;
    if a != [] {
      assert a[0] in b;
    }
    if b != [] {
      assert b[0] in a;
      var m, n := |a| - 1, |b| - 1;
      LastIsGreatest(a, b);
      AscendingIsUnique(a[..m], b[..n]) by {
        forall name
          ensures name in a[..m] <==> name in b[..n]
        {
          InitMembers(a, name);
          InitMembers(b, name);
        }
      }
      assert a == a[..m] + [a[m]] && b == b[..n] + [b[n]];
    }
  }

  lemma InitMembers(a: seq<string>, name: string)
    requires Ascending(a) && a != []
    ensures name in a[..|a| - 1] <==> name in a && name != a[|a| - 1]
  {
    hide Before;
    var m := |a| - 1;
    if name in a[..m] {
      var i :| 0 <= i < m && a[i] == name;
      BeforeTotal(a[i], a[m]);
    }
  }

  lemma LastIsGreatest(a: seq<string>, b: seq<string>)
    requires Ascending(a) && Ascending(b) && a != [] && b != []
    requires forall name :: name in a <==> name in b
    ensures a[|a| - 1] == b[|b| - 1]
  {
    hide Before;
    var m, n := |a| - 1, |b| - 1;
    assert a[m] in b && b[n] in a;
    var i :| 0 <= i < |b| && b[i] == a[m];
    var j :| 0 <= j < |a| && a[j] == b[n];
    if i < n && j < m {
      BeforeTotal(a[m], b[n]);
    }
  }

  predicate Distinct(s: seq<string>)
  {
    forall i, j :: 0 <= i < j < |s| ==> s[i] != s[j]
  }

  lemma {:induction false} DistinctBySize(s: seq<string>)
    ensures |(set x | x in s)| <= |s|
    ensures Distinct(s) <==> |(set x | x in s)| == |s|
  {
    if s != [] {
      var n := |s| - 1;
      var init, last := s[..n], s[n];
      DistinctBySize(init);
      var before := set x | x in init;
      assert s == init + [last];
      assert (set x | x in s) == before + {last};
      if last in init {
        var i :| 0 <= i < n && init[i] == last;
        assert s[i] == s[n];
        assert before + {last} == before;
      } else {
        assert Distinct(s) <==> Distinct(init);
      }
    }
  }

  lemma SubsetSize<T>(a: set<T>, b: set<T>)
    requires a <= b
    ensures |a| <= |b|
  {
    assert b == a + (b - a);
  }

  // ----- sums -----

  function Sum<T>(rows: seq<T>, f: T -> int): int
  {
    if rows == [] then 0 else Sum(rows[..|rows| - 1], f) + f(rows[|rows| - 1])
  }

  lemma {:induction false} SumSplits<T>(rows: seq<T>, more: seq<T>, f: T -> int)
    ensures Sum(rows + more, f) == Sum(rows, f) + Sum(more, f)
  {
    if more == [] {
      assert rows + more == rows;
    } else {
      var n := |more| - 1;
      assert (rows + more)[..|rows + more| - 1] == rows + more[..n];
      SumSplits(rows, more[..n], f);
    }
  }

  lemma SumOne<T>(rows: seq<T>, row: T, f: T -> int)
    ensures Sum(rows + [row], f) == Sum(rows, f) + f(row)
  {
    assert (rows + [row])[..|rows|] == rows;
  }
}
