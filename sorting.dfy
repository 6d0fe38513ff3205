/** Ascending order on strings and sorting of records by a string key: the
    `ORDER BY <column> ASC` of the list queries. The store compares text
    byte-wise in UTF-8, which orders strings exactly as comparing their
    code points does. */
module Sorting {
  import opened Base
  import opened Text

  /** Lexicographic order on code points; a proper prefix comes first. */
  predicate LessEq(a: String, b: String) {
    |a| == 0 || (|b| > 0 && (a[0] < b[0] || (a[0] == b[0] && LessEq(a[1..], b[1..]))))
  }

  lemma {:induction false} LessEqTotal(a: String, b: String)
    ensures LessEq(a, b) || LessEq(b, a)
  {
    if |a| > 0 && |b| > 0 && a[0] == b[0] {
      LessEqTotal(a[1..], b[1..]);
    }
  }

  lemma {:induction false} LessEqTransitive(a: String, b: String, c: String)
    requires LessEq(a, b) && LessEq(b, c)
    ensures LessEq(a, c)
  {
    if |a| > 0 && a[0] == b[0] && b[0] == c[0] {
      LessEqTransitive(a[1..], b[1..], c[1..]);
    }
  }

  lemma {:induction false} LessEqAntisymmetric(a: String, b: String)
    requires LessEq(a, b) && LessEq(b, a)
    ensures a == b
  {
    if |a| > 0 {
      LessEqAntisymmetric(a[1..], b[1..]);
      assert a == [a[0]] + a[1..];
      assert b == [b[0]] + b[1..];
    }
  }

  ghost predicate SortedBy<T>(s: seq<T>, key: T -> String) {
    forall i, j :: 0 <= i < j < |s| ==> LessEq(key(s[i]), key(s[j]))
  }

  /** Puts `x` before the first element of `s` whose key is not below its own. */
  function Insert<T>(x: T, s: seq<T>, key: T -> String): seq<T> {
    if s == [] then [x]
    else if LessEq(key(x), key(s[0])) then [x] + s
    else [s[0]] + Insert(x, s[1..], key)
  }

  lemma {:induction false} InsertPermutes<T>(x: T, s: seq<T>, key: T -> String)
    ensures multiset(Insert(x, s, key)) == multiset(s) + multiset{x}
  {
    if s != [] && !LessEq(key(x), key(s[0])) {
      assert s == [s[0]] + s[1..];
      InsertPermutes(x, s[1..], key);
    }
  }

  /** A record no greater than every record of a sorted sequence may go in front. */
  lemma ConsSorted<T>(h: T, s: seq<T>, key: T -> String)
    requires SortedBy(s, key)
    requires forall k :: 0 <= k < |s| ==> LessEq(key(h), key(s[k]))
    ensures SortedBy([h] + s, key)
  {
    var r := [h] + s;
    forall i, j | 0 <= i < j < |r| ensures LessEq(key(r[i]), key(r[j])) {
      assert r[j] == s[j - 1];
      if i > 0 { assert r[i] == s[i - 1]; }
    }
  }

  /** A lower bound of `s` and of `x` bounds every permutation of `s` plus `x`. */
  lemma KeysAbove<T>(lo: String, s: seq<T>, x: T, r: seq<T>, key: T -> String)
    requires forall k :: 0 <= k < |s| ==> LessEq(lo, key(s[k]))
    requires LessEq(lo, key(x))
    requires multiset(r) == multiset(s) + multiset{x}
    ensures forall j :: 0 <= j < |r| ==> LessEq(lo, key(r[j]))
  {
    forall j | 0 <= j < |r| ensures LessEq(lo, key(r[j])) {
      assert r[j] in multiset(r);
      if r[j] != x {
        assert r[j] in multiset(s);
        var k :| 0 <= k < |s| && s[k] == r[j];
      }
    }
  }

  /** Inserting into a sorted sequence keeps it sorted and adds exactly `x`. */
  lemma {:induction false} InsertSorted<T>(x: T, s: seq<T>, key: T -> String)
    requires SortedBy(s, key)
    ensures SortedBy(Insert(x, s, key), key)
    ensures multiset(Insert(x, s, key)) == multiset(s) + multiset{x}
  {
    InsertPermutes(x, s, key);
    if s == [] {
    } else if LessEq(key(x), key(s[0])) {
      forall k | 0 <= k < |s| ensures LessEq(key(x), key(s[k])) {
        if k > 0 { LessEqTransitive(key(x), key(s[0]), key(s[k])); }
      }
      ConsSorted(x, s, key);
    } else {
      var t := s[1..];
      InsertSorted(x, t, key);
      LessEqTotal(key(x), key(s[0]));
      forall k | 0 <= k < |t| ensures LessEq(key(s[0]), key(t[k])) {
        assert t[k] == s[k + 1];
      }
      KeysAbove(key(s[0]), t, x, Insert(x, t, key), key);
      ConsSorted(s[0], Insert(x, t, key), key);
    }
  }

  /** Insertion sort by key: the result is ordered by key and holds the same records. */
  function SortBy<T>(s: seq<T>, key: T -> String): (r: seq<T>)
    ensures SortedBy(r, key)
    ensures multiset(r) == multiset(s)
    ensures |r| == |s|
  {
    if s == [] then []
    else
      assert s == [s[0]] + s[1..];
      InsertSorted(s[0], SortBy(s[1..], key), key);
      Insert(s[0], SortBy(s[1..], key), key)
  }

  /** A page of records in key order: ordered by key, each one of the
      input, the whole sorted input when it fits, and otherwise the records
      with the lowest keys: none left off the page sorts below one on it. */
  lemma SortedPage<T>(s: seq<T>, key: T -> String, n: nat)
    ensures SortedBy(Take(SortBy(s, key), n), key)
    ensures forall x :: x in Take(SortBy(s, key), n) ==> x in s
    ensures |s| <= n ==> Take(SortBy(s, key), n) == SortBy(s, key)
    ensures forall x, y :: x in s && x !in Take(SortBy(s, key), n) && y in Take(SortBy(s, key), n) ==> LessEq(key(y), key(x))
  {
    var sorted := SortBy(s, key);
    forall x | x in Take(sorted, n) ensures x in s {
      assert x in multiset(sorted);
    }
    forall x, y | x in s && x !in Take(sorted, n) && y in Take(sorted, n)
      ensures LessEq(key(y), key(x))
    {
      PageLeast(s, key, n, x, y);
    }
  }

  /** One record left off a page of the key order and one kept: the kept
      one's key is not above the other's. */
  lemma PageLeast<T>(s: seq<T>, key: T -> String, n: nat, x: T, y: T)
    requires x in s && x !in Take(SortBy(s, key), n) && y in Take(SortBy(s, key), n)
    ensures LessEq(key(y), key(x))
  {
    var sorted := SortBy(s, key);
    assert x in multiset(sorted);
    var j :| 0 <= j < |sorted| && sorted[j] == x;
    var i :| 0 <= i < |Take(sorted, n)| && Take(sorted, n)[i] == y;
  }

  /** A sorted sequence without duplicate keys is strictly increasing by key. */
  lemma SortedDistinctKeys<T>(s: seq<T>, key: T -> String, i: nat, j: nat)
    requires SortedBy(s, key)
    requires i < j < |s|
    requires key(s[i]) != key(s[j])
    ensures !LessEq(key(s[j]), key(s[i]))
  {
    if LessEq(key(s[j]), key(s[i])) {
      LessEqAntisymmetric(key(s[i]), key(s[j]));
    }
  }

  /** Go's `sort.Ints`: ascending order on integers. */
  ghost predicate Ascending(s: seq<int>) {
    forall i, j :: 0 <= i < j < |s| ==> s[i] <= s[j]
  }

  function InsertInt(x: int, s: seq<int>): seq<int> {
    if s == [] then [x]
    else if x <= s[0] then [x] + s
    else [s[0]] + InsertInt(x, s[1..])
  }

  lemma {:induction false} InsertIntPermutes(x: int, s: seq<int>)
    ensures multiset(InsertInt(x, s)) == multiset(s) + multiset{x}
  {
    if s != [] && x > s[0] {
      assert s == [s[0]] + s[1..];
      InsertIntPermutes(x, s[1..]);
    }
  }

  lemma ConsAscending(h: int, s: seq<int>)
    requires Ascending(s)
    requires forall k :: 0 <= k < |s| ==> h <= s[k]
    ensures Ascending([h] + s)
  {
    var r := [h] + s;
    forall i, j | 0 <= i < j < |r| ensures r[i] <= r[j] {
      assert r[j] == s[j - 1];
      if i > 0 { assert r[i] == s[i - 1]; }
    }
  }

  lemma IntsAbove(lo: int, s: seq<int>, x: int, r: seq<int>)
    requires forall k :: 0 <= k < |s| ==> lo <= s[k]
    requires lo <= x
    requires multiset(r) == multiset(s) + multiset{x}
    ensures forall j :: 0 <= j < |r| ==> lo <= r[j]
  {
    forall j | 0 <= j < |r| ensures lo <= r[j] {
      assert r[j] in multiset(r);
      if r[j] != x {
        assert r[j] in multiset(s);
        var k :| 0 <= k < |s| && s[k] == r[j];
      }
    }
  }

  lemma {:induction false} InsertIntSorted(x: int, s: seq<int>)
    requires Ascending(s)
    ensures Ascending(InsertInt(x, s))
  {
    if s == [] {
    } else if x <= s[0] {
      ConsAscending(x, s);
    } else {
      var t := s[1..];
      InsertIntSorted(x, t);
      InsertIntPermutes(x, t);
      forall k | 0 <= k < |t| ensures s[0] <= t[k] {
        assert t[k] == s[k + 1];
      }
      IntsAbove(s[0], t, x, InsertInt(x, t));
      ConsAscending(s[0], InsertInt(x, t));
    }
  }

  /** Insertion sort on integers: ascending, and the same elements. */
  function SortInts(s: seq<int>): (r: seq<int>)
    ensures Ascending(r)
    ensures multiset(r) == multiset(s)
    ensures |r| == |s|
  {
    if s == [] then []
    else
      assert s == [s[0]] + s[1..];
      InsertIntSorted(s[0], SortInts(s[1..]));
      InsertIntPermutes(s[0], SortInts(s[1..]));
      InsertInt(s[0], SortInts(s[1..]))
  }

  /** `ORDER BY <time> DESC`: no element is newer than one before it. */
  ghost predicate NewestFirst<T>(s: seq<T>, time: T -> int) {
    forall i, j :: 0 <= i < j < |s| ==> time(s[i]) >= time(s[j])
  }

  /** The first `n` of the newest-first order are the newest: each one of the
      input, and none left off is newer than one kept. */
  lemma NewestPage<T>(s: seq<T>, time: T -> int, n: nat)
    ensures forall x :: x in Take(SortNewestFirst(s, time), n) ==> x in s
    ensures forall x, y :: x in s && x !in Take(SortNewestFirst(s, time), n) && y in Take(SortNewestFirst(s, time), n) ==> time(y) >= time(x)
  {
    var sorted := SortNewestFirst(s, time);
    forall x | x in Take(sorted, n) ensures x in s {
      assert x in multiset(sorted);
    }
    forall x, y | x in s && x !in Take(sorted, n) && y in Take(sorted, n)
      ensures time(y) >= time(x)
    {
      NewestLeast(s, time, n, x, y);
    }
  }

  /** One element left off the first `n` of the newest-first order and one
      kept: the kept one is not older. */
  lemma NewestLeast<T>(s: seq<T>, time: T -> int, n: nat, x: T, y: T)
    requires x in s && x !in Take(SortNewestFirst(s, time), n) && y in Take(SortNewestFirst(s, time), n)
    ensures time(y) >= time(x)
  {
    var sorted := SortNewestFirst(s, time);
    assert x in multiset(sorted);
    var j :| 0 <= j < |sorted| && sorted[j] == x;
    var i :| 0 <= i < |Take(sorted, n)| && Take(sorted, n)[i] == y;
  }

  /** Puts `x` before the first element of `s` that is not newer than it. */
  function InsertByTime<T>(x: T, s: seq<T>, time: T -> int): seq<T> {
    if s == [] then [x]
    else if time(x) >= time(s[0]) then [x] + s
    else [s[0]] + InsertByTime(x, s[1..], time)
  }

  lemma {:induction false} InsertByTimePermutes<T>(x: T, s: seq<T>, time: T -> int)
    ensures multiset(InsertByTime(x, s, time)) == multiset(s) + multiset{x}
  {
    if s != [] && time(x) < time(s[0]) {
      assert s == [s[0]] + s[1..];
      InsertByTimePermutes(x, s[1..], time);
    }
  }

  lemma ConsNewest<T>(h: T, s: seq<T>, time: T -> int)
    requires NewestFirst(s, time)
    requires forall k :: 0 <= k < |s| ==> time(h) >= time(s[k])
    ensures NewestFirst([h] + s, time)
  {
    var r := [h] + s;
    forall i, j | 0 <= i < j < |r| ensures time(r[i]) >= time(r[j]) {
      assert r[j] == s[j - 1];
      if i > 0 { assert r[i] == s[i - 1]; }
    }
  }

  lemma TimesBelow<T>(hi: int, s: seq<T>, x: T, r: seq<T>, time: T -> int)
    requires forall k :: 0 <= k < |s| ==> hi >= time(s[k])
    requires hi >= time(x)
    requires multiset(r) == multiset(s) + multiset{x}
    ensures forall j :: 0 <= j < |r| ==> hi >= time(r[j])
  {
    forall j | 0 <= j < |r| ensures hi >= time(r[j]) {
      assert r[j] in multiset(r);
      if r[j] != x {
        assert r[j] in multiset(s);
        var k :| 0 <= k < |s| && s[k] == r[j];
      }
    }
  }

  lemma {:induction false} InsertByTimeSorted<T>(x: T, s: seq<T>, time: T -> int)
    requires NewestFirst(s, time)
    ensures NewestFirst(InsertByTime(x, s, time), time)
  {
    if s == [] {
    } else if time(x) >= time(s[0]) {
      ConsNewest(x, s, time);
    } else {
      var t := s[1..];
      InsertByTimeSorted(x, t, time);
      InsertByTimePermutes(x, t, time);
      forall k | 0 <= k < |t| ensures time(s[0]) >= time(t[k]) {
        assert t[k] == s[k + 1];
      }
      TimesBelow(time(s[0]), t, x, InsertByTime(x, t, time), time);
      ConsNewest(s[0], InsertByTime(x, t, time), time);
    }
  }

  /** Insertion sort, newest first: ordered by time and the same records. */
  function SortNewestFirst<T>(s: seq<T>, time: T -> int): (r: seq<T>)
    ensures NewestFirst(r, time)
    ensures multiset(r) == multiset(s)
    ensures |r| == |s|
  {
    if s == [] then []
    else
      assert s == [s[0]] + s[1..];
      InsertByTimeSorted(s[0], SortNewestFirst(s[1..], time), time);
      InsertByTimePermutes(s[0], SortNewestFirst(s[1..], time), time);
      InsertByTime(s[0], SortNewestFirst(s[1..], time), time)
  }
}
