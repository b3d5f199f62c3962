/**
 The comparator sorts of the client pages, `xs.sort((a, b) => key(a) - key(b))`,
 as a stable insertion sort on an integer key. A descending sort
 (`key(b) - key(a)`) is the same sort on the negated key.
 */
module Sorting {
  import opened Basics

  /** Keys never decrease along `s`. */
  ghost predicate SortedBy<T>(s: seq<T>, key: T -> int)
  {
    forall i, j :: 0 <= i < j < |s| ==> key(s[i]) <= key(s[j])
  }

  /** Puts `x` in front of the first element whose key is not smaller,
      so it precedes the equal-keyed elements that came after it in the input. */
  function Insert<T>(x: T, s: seq<T>, key: T -> int): (r: seq<T>)
    requires SortedBy(s, key)
    ensures SortedBy(r, key)
    ensures multiset(r) == multiset(s) + multiset{x}
    ensures |r| == |s| + 1
    ensures r[0] == x || (|s| > 0 && r[0] == s[0])
  {
    if |s| == 0 then [x]
    else if key(x) <= key(s[0]) then [x] + s
    else
      var rest := Insert(x, s[1..], key);
      assert s == [s[0]] + s[1..];
      assert key(s[0]) <= key(rest[0]);
      [s[0]] + rest
  }

  /** The input reordered so that the keys are non-decreasing. */
  function SortBy<T>(s: seq<T>, key: T -> int): (r: seq<T>)
    ensures SortedBy(r, key)
    ensures multiset(r) == multiset(s)
    ensures |r| == |s|
  {
    if |s| == 0 then []
    else
      assert s == [s[0]] + s[1..];
      Insert(s[0], SortBy(s[1..], key), key)
  }

  /** Holds of the elements whose key is `k`. */
  function WithKey<T>(key: T -> int, k: int): T -> bool
  {
    (y: T) => key(y) == k
  }

  /** Inserting `x` puts it ahead of every element of `s` that shares its key. */
  lemma {:induction false} InsertKeepsTies<T(!new)>(x: T, s: seq<T>, key: T -> int, k: int)
    requires SortedBy(s, key)
    ensures Filter(Insert(x, s, key), WithKey(key, k))
         == (if key(x) == k then [x] else []) + Filter(s, WithKey(key, k))
  {
    if |s| == 0 || key(x) <= key(s[0]) {
      assert Insert(x, s, key) == [x] + s;
      FilterPrepend(x, s, WithKey(key, k));
    } else {
      assert s == [s[0]] + s[1..];
      InsertKeepsTies(x, s[1..], key, k);
      PassTies(x, s[0], s[1..], Insert(x, s[1..], key), WithKey(key, k));
    }
  }

  /** The step of `InsertKeepsTies` where `x` passes `head`, which `p` cannot hold of
      together with `x`. */
  lemma PassTies<T(!new)>(x: T, head: T, tail: seq<T>, rest: seq<T>, p: T -> bool)
    requires !(p(x) && p(head))
    requires Filter(rest, p) == (if p(x) then [x] else []) + Filter(tail, p)
    ensures Filter([head] + rest, p) == (if p(x) then [x] else []) + Filter([head] + tail, p)
  {
    FilterPrepend(head, rest, p);
    FilterPrepend(head, tail, p);
    if p(x) {
      assert Filter([head] + rest, p) == Filter(rest, p);
      assert Filter([head] + tail, p) == Filter(tail, p);
    } else {
      assert Filter(rest, p) == Filter(tail, p);
    }
  }

  /** The sort is stable: the elements that share a key keep their input order. */
  lemma {:induction false} SortByIsStable<T(!new)>(s: seq<T>, key: T -> int, k: int)
    ensures Filter(SortBy(s, key), WithKey(key, k)) == Filter(s, WithKey(key, k))
  {
    if |s| > 0 {
      assert s == [s[0]] + s[1..];
      SortByIsStable(s[1..], key, k);
      InsertKeepsTies(s[0], SortBy(s[1..], key), key, k);
      FilterPrepend(s[0], s[1..], WithKey(key, k));
    }
  }
}
