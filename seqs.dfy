/**
 * Sequence helpers shared by the routes: `Array.find`/Prisma `findFirst`
 * (the first row satisfying a predicate), `Array.filter`, and the stable
 * ordering used by `Array.sort` and Prisma `orderBy`.
 */
module Seqs {
  import opened Wrappers

  /** Index of the first element satisfying `p`. */
  function FirstIndex<T>(s: seq<T>, p: T -> bool): (r: Option<nat>)
    ensures r.Some? ==> r.value < |s| && p(s[r.value])
    ensures r.Some? ==> forall j :: 0 <= j < r.value ==> !p(s[j])
    ensures r.None? <==> forall j :: 0 <= j < |s| ==> !p(s[j])
  {
    if |s| == 0 then None
    else if p(s[0]) then Some(0)
    else match FirstIndex(s[1..], p)
      case None => None
      case Some(i) => Some(i + 1)
  }

  /** The first element satisfying `p` (`Array.find`, Prisma `findFirst`). */
  function Find<T>(s: seq<T>, p: T -> bool): (r: Option<T>)
    ensures r.Some? ==> r.value in s && p(r.value)
    ensures r.None? <==> forall j :: 0 <= j < |s| ==> !p(s[j])
  {
    match FirstIndex(s, p)
    case None => None
    case Some(i) => Some(s[i])
  }

  /** At most one element of `s` satisfies `p`. */
  ghost predicate AtMostOne<T>(s: seq<T>, p: T -> bool) {
    forall i, j :: 0 <= i < |s| && 0 <= j < |s| && p(s[i]) && p(s[j]) ==> i == j
  }

  /** When at most one element qualifies, `Find` returns that element. */
  lemma FindTheOne<T>(s: seq<T>, p: T -> bool, x: T)
    requires AtMostOne(s, p)
    requires x in s && p(x)
    ensures Find(s, p) == Some(x)
  {
    var k :| 0 <= k < |s| && s[k] == x;
    var i := FirstIndex(s, p).value;
    assert p(s[i]) && p(s[k]);
  }

  /** The elements satisfying `p`, in their original order (`Array.filter`). */
  function Filter<T(!new)>(s: seq<T>, p: T -> bool): (r: seq<T>)
    ensures |r| <= |s|
    ensures forall x :: x in r <==> x in s && p(x)
  {
    if |s| == 0 then []
    else if p(s[0]) then [s[0]] + Filter(s[1..], p)
    else Filter(s[1..], p)
  }

  /** `key` is non-decreasing along `s`. */
  ghost predicate SortedBy<T>(s: seq<T>, key: T -> int) {
    forall i, j :: 0 <= i < j < |s| ==> key(s[i]) <= key(s[j])
  }

  /** Every key along `s` is at least `b`. */
  ghost predicate KeysAtLeast<T>(s: seq<T>, key: T -> int, b: int) {
    forall k :: 0 <= k < |s| ==> b <= key(s[k])
  }

  /** A lower bound on the keys carries over to a sequence with the same elements. */
  lemma KeysAtLeastByMultiset<T>(s: seq<T>, t: seq<T>, key: T -> int, b: int)
    requires multiset(s) == multiset(t)
    requires KeysAtLeast(t, key, b)
    ensures KeysAtLeast(s, key, b)
  {
    forall k | 0 <= k < |s| ensures b <= key(s[k]) {
      assert s[k] in multiset(t);
      var m :| 0 <= m < |t| && t[m] == s[k];
    }
  }

  /** Inserts `x` before the first element whose key is not below `x`'s. */
  function Insert<T(==)>(x: T, s: seq<T>, key: T -> int): (r: seq<T>)
    requires SortedBy(s, key)
    ensures multiset(r) == multiset(s) + multiset{x}
    ensures SortedBy(r, key)
  {
    if |s| == 0 then [x]
    else if key(x) <= key(s[0]) then [x] + s
    else
      var rest := Insert(x, s[1..], key);
      InsertStep(x, s, rest, key);
      [s[0]] + rest
  }

  /** The step of `Insert` past a smaller head: putting the head back keeps the elements and the order. */
  lemma InsertStep<T>(x: T, s: seq<T>, rest: seq<T>, key: T -> int)
    requires |s| > 0 && SortedBy(s, key) && key(s[0]) < key(x)
    requires multiset(rest) == multiset(s[1..]) + multiset{x}
    requires SortedBy(rest, key)
    ensures multiset([s[0]] + rest) == multiset(s) + multiset{x}
    ensures SortedBy([s[0]] + rest, key)
  {
    assert s == [s[0]] + s[1..];
    HeadBelowInserted(x, s, key);
    assert multiset(rest) == multiset([x] + s[1..]);
    KeysAtLeastByMultiset(rest, [x] + s[1..], key, key(s[0]));
    SortedCons(s[0], rest, key);
  }

  lemma HeadBelowInserted<T>(x: T, s: seq<T>, key: T -> int)
    requires |s| > 0 && SortedBy(s, key) && key(s[0]) < key(x)
    ensures KeysAtLeast([x] + s[1..], key, key(s[0]))
  {
    var u := [x] + s[1..];
    forall k | 0 <= k < |u| ensures key(s[0]) <= key(u[k]) {
      if k > 0 {
        assert u[k] == s[k];
      }
    }
  }

  lemma SortedCons<T>(h: T, rest: seq<T>, key: T -> int)
    requires SortedBy(rest, key) && KeysAtLeast(rest, key, key(h))
    ensures SortedBy([h] + rest, key)
  {
    var r := [h] + rest;
    forall i, j | 0 <= i < j < |r| ensures key(r[i]) <= key(r[j]) {
      assert r[j] == rest[j - 1];
      if i > 0 {
        assert r[i] == rest[i - 1];
      }
    }
  }

  /**
   * Stable insertion sort by `key`, ascending: the order of JavaScript's
   * `Array.prototype.sort` with comparator `(a, b) => key(a) - key(b)`, and
   * one of the orders Prisma's `orderBy: { key: 'asc' }` may return.
   */
  function SortByKey<T(==)>(s: seq<T>, key: T -> int): (r: seq<T>)
    ensures multiset(r) == multiset(s)
    ensures SortedBy(r, key)
  {
    if |s| == 0 then []
    else
      assert s == [s[0]] + s[1..];
      Insert(s[0], SortByKey(s[1..], key), key)
  }
}
