/**
 Shared building blocks: an optional value, left folds over sequences,
 the order-preserving filter that `Array.prototype.filter` performs, and
 the subsequence relation that filter results stand in.
 */
module Basics {

  datatype Option<T> = None | Some(value: T)

  /** A numeric text input together with the number `parseFloat` reads
      from it, in cents; `None` stands for NaN. */
  datatype NumberField = NumberField(text: string, parsed: Option<int>)

  /** Sum of `f` over `s`, folded from the left as `reduce((sum, x) => sum + f(x), 0)` does. */
  function SumOf<T>(s: seq<T>, f: T -> int): int
  {
    if |s| == 0 then 0 else SumOf(s[..|s| - 1], f) + f(s[|s| - 1])
  }

  /** The elements of `s` satisfying `p`, in their original order. */
  function Filter<T(!new)>(s: seq<T>, p: T -> bool): (r: seq<T>)
    ensures |r| <= |s|
    ensures forall i :: 0 <= i < |r| ==> p(r[i])
    ensures forall x :: x in r <==> x in s && p(x)

  {
    if |s| == 0 then []
    else
      var last := s[|s| - 1];
      assert s == s[..|s| - 1] + [last];
      Filter(s[..|s| - 1], p) + (if p(last) then [last] else [])
  }

  /** `a` is `b` with some elements dropped and the rest kept in order. */
  predicate IsSubseq<T(==)>(a: seq<T>, b: seq<T>)
    decreases |b|
  {
    if |a| == 0 then true
    else if |b| == 0 then false
    else if a[|a| - 1] == b[|b| - 1] then IsSubseq(a[..|a| - 1], b[..|b| - 1])
    else IsSubseq(a, b[..|b| - 1])
  }

  /** Appending to the longer sequence keeps `a` a subsequence of it. */
  lemma {:induction false} SubseqWeaken<T>(a: seq<T>, b: seq<T>, x: T)
    requires IsSubseq(a, b)
    ensures IsSubseq(a, b + [x])
    decreases |b|, 2
  {
    assert (b + [x])[..|b|] == b;
    if |a| > 0 && a[|a| - 1] == x {
      SubseqDropLast(a, b);
    }
  }

  /** Dropping the last element of `a` keeps it a subsequence of `b`. */
  lemma {:induction false} SubseqDropLast<T>(a: seq<T>, b: seq<T>)
    requires |a| > 0
    requires IsSubseq(a, b)
    ensures IsSubseq(a[..|a| - 1], b)
    decreases |b|, 1
  {
    var b', y := b[..|b| - 1], b[|b| - 1];
    assert b == b' + [y];
    if a[|a| - 1] == y {
      SubseqWeaken(a[..|a| - 1], b', y);
    } else {
      SubseqDropLast(a, b');
      SubseqWeaken(a[..|a| - 1], b', y);
    }
  }

  lemma SubseqAppendBoth<T>(a: seq<T>, b: seq<T>, x: T)
    requires IsSubseq(a, b)
    ensures IsSubseq(a + [x], b + [x])
  {
    assert (b + [x])[..|b|] == b;
    assert (a + [x])[..|a|] == a;
  }

  /** The filter keeps the survivors in their original relative order. */
  lemma {:induction false} FilterIsSubseq<T(!new)>(s: seq<T>, p: T -> bool)
    ensures IsSubseq(Filter(s, p), s)
  {
    if |s| > 0 {
      var init, last := s[..|s| - 1], s[|s| - 1];
      assert s == init + [last];
      var f := Filter(init, p);
      FilterIsSubseq(init, p);
      FilterAppend(init, last, p);
      if p(last) {
        SubseqAppendBoth(f, init, last);
        assert Filter(s, p) == f + [last];
      } else {
        SubseqWeaken(f, init, last);
        assert Filter(s, p) == f;
      }
    }
  }

  /** A prefix is a subsequence. */
  lemma {:induction false} PrefixIsSubseq<T>(a: seq<T>, b: seq<T>)
    requires a <= b
    ensures IsSubseq(a, b)
    decreases |b|
  {
    if |b| > 0 {
      var init, last := b[..|b| - 1], b[|b| - 1];
      if |a| == |b| {
        assert a[..|a| - 1] <= init;
        PrefixIsSubseq(a[..|a| - 1], init);
      } else {
        assert a <= init;
        PrefixIsSubseq(a, init);
        assert init + [last] == b;
        SubseqWeaken(a, init, last);
      }
    }
  }

  /** The subsequence relation is transitive. */
  lemma {:induction false} SubseqTrans<T>(a: seq<T>, b: seq<T>, c: seq<T>)
    requires IsSubseq(a, b) && IsSubseq(b, c)
    ensures IsSubseq(a, c)
    decreases |c|
  {
    if |a| > 0 {
      var init, last := c[..|c| - 1], c[|c| - 1];
      assert init + [last] == c;
      if b[|b| - 1] == last && a[|a| - 1] == last {
        SubseqTrans(a[..|a| - 1], b[..|b| - 1], init);
      } else {
        if b[|b| - 1] == last {
          SubseqTrans(a, b[..|b| - 1], init);
        } else {
          SubseqTrans(a, b, init);
        }
        SubseqWeaken(a, init, last);
      }
    }
  }

  /** Splitting a sequence by `p` loses and duplicates nothing. */
  lemma {:induction false} FilterPartition<T(!new)>(s: seq<T>, p: T -> bool, q: T -> bool)
    requires forall x :: q(x) == !p(x)
    ensures multiset(Filter(s, p)) + multiset(Filter(s, q)) == multiset(s)
    ensures |Filter(s, p)| + |Filter(s, q)| == |s|
  {
    if |s| > 0 {
      var init, last := s[..|s| - 1], s[|s| - 1];
      assert s == init + [last];
      FilterPartition(init, p, q);
    }
  }

  /** A sum over `s` splits into the sums over the two sides of a partition. */
  lemma {:induction false} SumOfPartition<T(!new)>(s: seq<T>, p: T -> bool, q: T -> bool, f: T -> int)
    requires forall x :: q(x) == !p(x)
    ensures SumOf(Filter(s, p), f) + SumOf(Filter(s, q), f) == SumOf(s, f)
  {
    if |s| > 0 {
      var init, last := s[..|s| - 1], s[|s| - 1];
      assert s == init + [last];
      SumOfPartition(init, p, q, f);
      FilterAppend(init, last, p);
      FilterAppend(init, last, q);
      SumOfAppend(Filter(init, p), last, f);
      SumOfAppend(Filter(init, q), last, f);
      if p(last) {
        assert Filter(s, q) == Filter(init, q);
      } else {
        assert Filter(s, p) == Filter(init, p);
      }
    }
  }

  lemma SumOfAppend<T>(s: seq<T>, x: T, f: T -> int)
    ensures SumOf(s + [x], f) == SumOf(s, f) + f(x)
  {
    assert (s + [x])[..|s|] == s;
  }

  /** Filtering twice is filtering once by the conjunction. */
  lemma {:induction false} FilterFilter<T(!new)>(s: seq<T>, p: T -> bool, q: T -> bool, pq: T -> bool)
    requires forall x :: pq(x) == (p(x) && q(x))
    ensures Filter(Filter(s, p), q) == Filter(s, pq)
  {
    if |s| > 0 {
      var init, last := s[..|s| - 1], s[|s| - 1];
      assert s == init + [last];
      var fp := Filter(init, p);
      FilterFilter(init, p, q, pq);
      FilterAppend(init, last, p);
      FilterAppend(init, last, pq);
      if p(last) {
        assert Filter(s, p) == fp + [last];
        FilterAppend(fp, last, q);
      } else {
        assert Filter(s, p) == fp;
      }
    }
  }

  lemma FilterAppend<T(!new)>(s: seq<T>, x: T, p: T -> bool)
    ensures Filter(s + [x], p) == Filter(s, p) + (if p(x) then [x] else [])
  {
    assert (s + [x])[..|s|] == s;
  }

  /** Filtering distributes over concatenation. */
  lemma {:induction false} FilterConcat<T(!new)>(a: seq<T>, b: seq<T>, p: T -> bool)
    ensures Filter(a + b, p) == Filter(a, p) + Filter(b, p)
  {
    if |b| == 0 {
      assert a + b == a;
    } else {
      var init, last := b[..|b| - 1], b[|b| - 1];
      assert b == init + [last];
      assert a + b == (a + init) + [last];
      FilterConcat(a, init, p);
      FilterAppend(a + init, last, p);
      FilterAppend(init, last, p);
    }
  }

  /** Filtering a sequence with one more element in front. */
  lemma FilterPrepend<T(!new)>(x: T, s: seq<T>, p: T -> bool)
    ensures Filter([x] + s, p) == (if p(x) then [x] else []) + Filter(s, p)
  {
    FilterConcat([x], s, p);
    FilterSingleton(x, p);
  }

  lemma FilterSingleton<T(!new)>(x: T, p: T -> bool)
    ensures Filter([x], p) == if p(x) then [x] else []
  {
    assert [x][..0] == [];
  }

  /** A filter keeps every copy of a value it accepts and no copy of one it rejects. */
  lemma {:induction false} FilterCount<T(!new)>(s: seq<T>, p: T -> bool, x: T)
    ensures multiset(Filter(s, p))[x] == if p(x) then multiset(s)[x] else 0
  {
    if |s| > 0 {
      var init, last := s[..|s| - 1], s[|s| - 1];
      assert s == init + [last];
      FilterCount(init, p, x);
      FilterAppend(init, last, p);
    }
  }

  /** Filtering by two predicates that agree everywhere gives the same result. */
  lemma {:induction false} FilterExt<T(!new)>(s: seq<T>, p: T -> bool, q: T -> bool)
    requires forall x :: p(x) == q(x)
    ensures Filter(s, p) == Filter(s, q)
  {
    if |s| > 0 {
      FilterExt(s[..|s| - 1], p, q);
    }
  }

  /** A predicate every element satisfies filters nothing out. */
  lemma {:induction false} FilterAll<T(!new)>(s: seq<T>, p: T -> bool)
    requires forall x :: x in s ==> p(x)
    ensures Filter(s, p) == s
  {
    if |s| > 0 {
      var init, last := s[..|s| - 1], s[|s| - 1];
      assert s == init + [last];
      assert p(last);
      assert forall i :: 0 <= i < |init| ==> init[i] == s[i];
      FilterAll(init, p);
      assert Filter(s, p) == Filter(init, p) + [last];
    }
  }

  /** The first `n` elements, or all of them when there are fewer (`slice(0, n)`). */
  function Take<T>(s: seq<T>, n: nat): (r: seq<T>)
    ensures |r| == if |s| < n then |s| else n
    ensures r <= s
  {
    if |s| < n then s else s[..n]
  }

  /** What `Take` keeps and what it drops make up the whole sequence. */
  lemma TakeSplit<T>(s: seq<T>, n: nat)
    ensures s == Take(s, n) + s[|Take(s, n)|..]
    ensures multiset(s) == multiset(Take(s, n)) + multiset(s[|Take(s, n)|..])
  {
    assert s == Take(s, n) + s[|Take(s, n)|..];
  }
}
