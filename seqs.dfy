/** Sequence operations that stand for the SQL the store issues: a WHERE
    filter, a lookup by key, an UPDATE of the matching rows and an ORDER BY. */
module Seqs {
  import opened Wrappers

  /** The elements of `s` that satisfy `p`, in their original order. */
  function Filter<T(!new)>(s: seq<T>, p: T -> bool): (r: seq<T>)
    ensures |r| <= |s|
    ensures forall x :: x in r <==> x in s && p(x)
  {
    if s == [] then []
    else
      var init, last := s[..|s| - 1], s[|s| - 1];
      assert s == init + [last];
      Filter(init, p) + (if p(last) then [last] else [])
  }

  /** Filtering distributes over concatenation: the relative order of the
      kept elements is the order they had in the input. */
  lemma {:induction false} FilterAppend<T(!new)>(a: seq<T>, b: seq<T>, p: T -> bool)
    ensures Filter(a + b, p) == Filter(a, p) + Filter(b, p)
  {
    if b == [] {
      assert a + b == a;
    } else {
      var init := b[..|b| - 1];
      assert (a + b)[..|a + b| - 1] == a + init;
      FilterAppend(a, init, p);
    }
  }

  /** The position of the first element satisfying `p`, if there is one. */
  function FindIndex<T>(s: seq<T>, p: T -> bool): (r: Option<nat>)
    ensures r.None? <==> forall i :: 0 <= i < |s| ==> !p(s[i])
    ensures r.Some? ==> r.value < |s| && p(s[r.value])
    ensures r.Some? ==> forall j :: 0 <= j < r.value ==> !p(s[j])
  {
    if s == [] then None
    else if p(s[0]) then Some(0)
    else match FindIndex(s[1..], p)
      case None => None
      case Some(i) => Some(i + 1)
  }

  /** The table after `UPDATE … SET f(row) WHERE p(row)`: matching rows are
      rewritten in place, every other row is left as it was. */
  function MapWhere<T>(s: seq<T>, p: T -> bool, f: T -> T): (r: seq<T>)
    ensures |r| == |s|
    ensures forall i :: 0 <= i < |s| ==> r[i] == (if p(s[i]) then f(s[i]) else s[i])
  {
    seq(|s|, i requires 0 <= i < |s| => if p(s[i]) then f(s[i]) else s[i])
  }

  /** `s` is ordered by `key`, largest first. */
  ghost predicate SortedDesc<T>(s: seq<T>, key: T -> int)
  {
    forall i, j :: 0 <= i < j < |s| ==> key(s[i]) >= key(s[j])
  }

  /** Inserts `x` into a sequence already ordered largest-first. */
  function InsertDesc<T(!new)>(x: T, s: seq<T>, key: T -> int): (r: seq<T>)
    requires SortedDesc(s, key)
    ensures SortedDesc(r, key)
    ensures multiset(r) == multiset(s) + multiset{x}
    ensures forall y :: y in r <==> y == x || y in s
  {
    if s == [] || key(s[0]) <= key(x) then [x] + s
    else
      var rest := InsertDesc(x, s[1..], key);
      HeadBoundsRest(s, x, rest, key);
      assert s == [s[0]] + s[1..];
      [s[0]] + rest
  }

  /** The head of a largest-first sequence bounds anything drawn from its
      tail or smaller than it. */
  lemma HeadBoundsRest<T>(s: seq<T>, x: T, rest: seq<T>, key: T -> int)
    requires s != [] && SortedDesc(s, key) && key(x) < key(s[0])
    requires forall y :: y in rest ==> y == x || y in s[1..]
    ensures forall k :: 0 <= k < |rest| ==> key(s[0]) >= key(rest[k])
  {
    forall k | 0 <= k < |rest|
      ensures key(s[0]) >= key(rest[k])
    {
      assert rest[k] in rest;
      if rest[k] != x {
        var m :| 0 <= m < |s[1..]| && s[1..][m] == rest[k];
        assert s[m + 1] == rest[k];
      }
    }
  }

  /** `s` ordered by `key`, largest first (ORDER BY key DESC). */
  function SortDesc<T(!new)>(s: seq<T>, key: T -> int): (r: seq<T>)
    ensures SortedDesc(r, key)
    ensures multiset(r) == multiset(s)
  {
    if s == [] then []
    else
      assert s == [s[0]] + s[1..];
      InsertDesc(s[0], SortDesc(s[1..], key), key)
  }
}
