/** `SELECT ... ORDER BY <integer column>`: listing the rows a query
    selects, ordered by an integer key. Ties may come out in any order. */
module SortedQuery {
  import opened Common

  predicate SortedBy<T>(s: seq<T>, key: T -> int) {
    forall i, j :: 0 <= i < j < |s| ==> key(s[i]) <= key(s[j])
  }

  predicate StrictlySortedBy<T>(s: seq<T>, key: T -> int) {
    forall i, j :: 0 <= i < j < |s| ==> key(s[i]) < key(s[j])
  }

  /** Places x before the first element with a larger key. */
  function InsertBy<T(!new)>(x: T, s: seq<T>, key: T -> int): (r: seq<T>)
    requires SortedBy(s, key)
    ensures SortedBy(r, key)
    ensures |r| == |s| + 1
    ensures forall y :: y in r <==> y == x || y in s
    decreases |s|
  {
    if s == [] then [x]
    else if key(x) <= key(s[0]) then [x] + s
    else
      var rest := InsertBy(x, s[1..], key);
      assert forall y :: y in rest ==> key(s[0]) <= key(y) by {
        forall y | y in rest ensures key(s[0]) <= key(y) {
          if y != x {
            var k :| 1 <= k < |s| && s[k] == y;
          }
        }
      }
      [s[0]] + rest
  }

  /** Inserting a new element into a listing without repeats keeps it
      without repeats. */
  lemma {:induction false} InsertByDistinct<T(!new)>(x: T, s: seq<T>, key: T -> int)
    requires SortedBy(s, key) && Distinct(s) && x !in s
    ensures Distinct(InsertBy(x, s, key))
    decreases |s|
  {
    if s != [] && key(x) > key(s[0]) {
      InsertByDistinct(x, s[1..], key);
      var rest := InsertBy(x, s[1..], key);
      assert s[0] !in s[1..];
      assert InsertBy(x, s, key) == [s[0]] + rest;
    }
  }

  /** The ordered listing of the selected rows: every selected row once,
      nothing else, keys ascending. */
  method OrderBy<T(==,!new)>(rows: set<T>, key: T -> int) returns (r: seq<T>)
    ensures SortedBy(r, key)
    ensures |r| == |rows| && Distinct(r)
    ensures forall y :: y in r <==> y in rows
  {
    r := [];
    var rest := rows;
    while rest != {}
      invariant SortedBy(r, key) && Distinct(r)
      invariant rest <= rows
      invariant forall y :: y in r <==> y in rows - rest
      invariant |r| == |rows - rest|
      decreases |rest|
    {
      var x :| x in rest;
      assert x !in r;
      InsertByDistinct(x, r, key);
      r := InsertBy(x, r, key);
      rest := rest - {x};
    }
  }

  /** A sorted listing whose keys are pairwise distinct is strictly sorted. */
  lemma SortedDistinctKeys<T>(s: seq<T>, key: T -> int)
    requires SortedBy(s, key)
    requires forall i, j :: 0 <= i < j < |s| ==> key(s[i]) != key(s[j])
    ensures StrictlySortedBy(s, key)
  {
  }

  /** Two strictly ordered listings of the same rows are the same listing:
      with distinct keys the order a query returns is fully determined. */
  lemma {:induction false} StrictlySortedUnique<T>(s: seq<T>, t: seq<T>, key: T -> int)
    requires StrictlySortedBy(s, key) && StrictlySortedBy(t, key)
    requires forall y :: y in s <==> y in t
    ensures s == t
    decreases |s|
  {
    if s != [] && t != [] {
      // Both heads are the element of least key.
      assert s[0] in s && t[0] in t;
      var j :| 0 <= j < |t| && t[j] == s[0];
      var i :| 0 <= i < |s| && s[i] == t[0];
      assert j == 0;
      forall y ensures y in s[1..] <==> y in t[1..] {
        if y in s[1..] {
          var k :| 1 <= k < |s| && s[k] == y;
          assert key(s[0]) < key(y);
          assert y in t && y != t[0];
        }
        if y in t[1..] {
          var k :| 1 <= k < |t| && t[k] == y;
          assert key(t[0]) < key(y);
          assert y in s && y != s[0];
        }
      }
      StrictlySortedUnique(s[1..], t[1..], key);
      assert s == [s[0]] + s[1..];
      assert t == [t[0]] + t[1..];
    } else {
      SameMembersSameEmptiness(s, t);
    }
  }

  lemma SameMembersSameEmptiness<T>(s: seq<T>, t: seq<T>)
    requires forall y :: y in s <==> y in t
    ensures s == [] <==> t == []
  {
    if s != [] { assert s[0] in s; }
    if t != [] { assert t[0] in t; }
  }
}
