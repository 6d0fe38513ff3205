/** Small shared vocabulary: optional values, results, and the "limit" rule
    that the list operations of the services apply to their page size. */
module Base {

  datatype Option<+T> = None | Some(value: T)

  datatype Result<+T, +E> = Ok(value: T) | Err(error: E)

  /** The page-size rule of the list operations: a limit that is not positive
      or exceeds `max` is replaced by `fallback`. */
  function ClampLimit(limit: int, max: int, fallback: int): (r: int)
    requires 0 < fallback <= max
    ensures 0 < r <= max
    ensures 0 < limit <= max ==> r == limit
    ensures !(0 < limit <= max) ==> r == fallback
  {
    if limit <= 0 || limit > max then fallback else limit
  }

  /** The first `n` elements of `s` (all of them when there are fewer): SQL's LIMIT. */
  function Take<T>(s: seq<T>, n: nat): (r: seq<T>)
    ensures |r| == if n < |s| then n else |s|
    ensures forall i :: 0 <= i < |r| ==> r[i] == s[i]
  {
    if n < |s| then s[..n] else s
  }

  /** The elements of `s` that satisfy `p`, in order. */
  function Filter<T>(s: seq<T>, p: T -> bool): (r: seq<T>)
    ensures |r| <= |s|
    ensures forall x :: x in r ==> x in s && p(x)
    ensures forall x :: x in s && p(x) ==> x in r
  {
    if s == [] then [] else (if p(s[0]) then [s[0]] else []) + Filter(s[1..], p)
  }

  lemma {:induction false} FilterAppend<T>(s: seq<T>, t: seq<T>, p: T -> bool)
    ensures Filter(s + t, p) == Filter(s, p) + Filter(t, p)
  {
    if s != [] {
      var u := s[1..] + t;
      assert s + t == [s[0]] + u;
      FilterAppend(s[1..], t, p);
      FilterCons(s[0], u, p);
      FilterCons(s[0], s[1..], p);
      assert [s[0]] + s[1..] == s;
    } else {
      assert s + t == t;
    }
  }

  /** Filtering a sequence that starts with `x` decides on `x` first. */
  lemma FilterCons<T>(x: T, s: seq<T>, p: T -> bool)
    ensures Filter([x] + s, p) == (if p(x) then [x] else []) + Filter(s, p)
  {
    assert ([x] + s)[0] == x && ([x] + s)[1..] == s;
  }

  /** Position of the first element of `s` that satisfies `p`: a lookup by key. */
  function Find<T>(s: seq<T>, p: T -> bool): (r: Option<nat>)
    ensures r.Some? ==> r.value < |s| && p(s[r.value])
    ensures r.Some? ==> forall k :: 0 <= k < r.value ==> !p(s[k])
    ensures r.None? ==> forall k :: 0 <= k < |s| ==> !p(s[k])
  {
    if s == [] then None
    else if p(s[0]) then Some(0)
    else match Find(s[1..], p)
      case None => None
      case Some(i) => Some(i + 1)
  }

  /** How many elements of `s` satisfy `p`: SQL's COUNT over a filter. */
  function Count<T>(s: seq<T>, p: T -> bool): (n: nat)
    ensures n <= |s|
    ensures n == 0 <==> forall k :: 0 <= k < |s| ==> !p(s[k])
  {
    if s == [] then 0
    else (if p(s[0]) then 1 else 0) + Count(s[1..], p)
  }

  /** `s` without its element at position `k`: a row deleted from a table. */
  function RemoveAt<T>(s: seq<T>, k: nat): (r: seq<T>)
    requires k < |s|
    ensures |r| == |s| - 1
    ensures forall i :: 0 <= i < k ==> r[i] == s[i]
    ensures forall i :: k <= i < |r| ==> r[i] == s[i + 1]
  {
    s[..k] + s[k + 1..]
  }

  /** A sequence holds its element at `k` plus what RemoveAt leaves. */
  lemma RemoveOne<T>(s: seq<T>, k: nat)
    requires k < |s|
    ensures multiset(s) == multiset(RemoveAt(s, k)) + multiset{s[k]}
  {
    assert s == s[..k] + [s[k]] + s[k + 1..];
  }

  /** Two permutations of one multiset, less one common element, are still
      permutations of each other. */
  lemma TailPermutes<T>(a: seq<T>, b: seq<T>, j: nat)
    requires 0 < |a| && j < |b| && b[j] == a[0]
    requires multiset(a) == multiset(b)
    ensures multiset(a[1..]) == multiset(RemoveAt(b, j))
  {
    RemoveOne(a, 0);
    RemoveOne(b, j);
    assert RemoveAt(a, 0) == a[1..];
    var m, n := multiset(a[1..]), multiset(RemoveAt(b, j));
    forall y ensures m[y] == n[y] {
      assert multiset(a)[y] == m[y] + multiset{a[0]}[y];
      assert multiset(b)[y] == n[y] + multiset{a[0]}[y];
    }
  }
}
