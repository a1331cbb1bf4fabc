/** Order-preserving filters and sums over sequences: the `filter` and `reduce`
    calls that the cashier screens apply to item and order lists. */
module Seqs {

  /** `s.filter(p)`: the elements that satisfy `p`, in their original order. */
  function Filter<T(!new)>(s: seq<T>, p: T -> bool): (r: seq<T>)
    ensures |r| <= |s|
    ensures forall x :: x in r <==> x in s && p(x)
    ensures forall i :: 0 <= i < |r| ==> p(r[i])
  {
    if s == [] then []
    else if p(s[0]) then [s[0]] + Filter(s[1..], p)
    else Filter(s[1..], p)
  }

  /** `s.reduce((sum, x) => sum + f(x), 0)`. */
  function Sum<T>(s: seq<T>, f: T -> int): int
  {
    if s == [] then 0 else f(s[0]) + Sum(s[1..], f)
  }

  /** Filtering commutes with concatenation: the kept elements of `a` come
      before the kept elements of `b`, so the relative order is preserved. */
  lemma {:induction false} FilterAppend<T(!new)>(a: seq<T>, b: seq<T>, p: T -> bool)
    ensures Filter(a + b, p) == Filter(a, p) + Filter(b, p)
  {
    if a == [] {
      assert a + b == b;
    } else {
      assert (a + b)[1..] == a[1..] + b;
      FilterAppend(a[1..], b, p);
    }
  }

  /** A filter that keeps every element is the identity. */
  lemma {:induction false} FilterAll<T(!new)>(s: seq<T>, p: T -> bool)
    requires forall x :: x in s ==> p(x)
    ensures Filter(s, p) == s
  {
    if s != [] {
      FilterAll(s[1..], p);
    }
  }

  /** Two complementary filters split a sequence: their lengths add up and
      together they hold every element exactly as often as `s` does. */
  lemma {:induction false} FilterPartition<T(!new)>(s: seq<T>, p: T -> bool, q: T -> bool)
    requires forall x :: x in s ==> q(x) == !p(x)
    ensures |Filter(s, p)| + |Filter(s, q)| == |s|
    ensures multiset(Filter(s, p)) + multiset(Filter(s, q)) == multiset(s)
  {
    if s != [] {
      FilterPartition(s[1..], p, q);
      assert s == [s[0]] + s[1..];
    }
  }

  /** Sums are additive over concatenation. */
  lemma {:induction false} SumAppend<T>(a: seq<T>, b: seq<T>, f: T -> int)
    ensures Sum(a + b, f) == Sum(a, f) + Sum(b, f)
  {
    if a == [] {
      assert a + b == b;
    } else {
      assert (a + b)[1..] == a[1..] + b;
      SumAppend(a[1..], b, f);
    }
  }

  /** Replacing one element changes the sum by the difference of the two
      contributions. */
  lemma SumUpdate<T>(s: seq<T>, k: int, x: T, f: T -> int)
    requires 0 <= k < |s|
    ensures Sum(s[k := x], f) == Sum(s, f) - f(s[k]) + f(x)
  {
    assert s == s[..k] + ([s[k]] + s[k + 1..]);
    assert s[k := x] == s[..k] + ([x] + s[k + 1..]);
    SumAppend(s[..k], [s[k]] + s[k + 1..], f);
    SumAppend([s[k]], s[k + 1..], f);
    SumAppend(s[..k], [x] + s[k + 1..], f);
    SumAppend([x], s[k + 1..], f);
  }

  /** Taking one element out lowers the sum by its contribution. */
  lemma SumRemove<T>(s: seq<T>, k: int, f: T -> int)
    requires 0 <= k < |s|
    ensures Sum(s[..k] + s[k + 1..], f) == Sum(s, f) - f(s[k])
  {
    assert s == s[..k] + ([s[k]] + s[k + 1..]);
    SumAppend(s[..k], [s[k]] + s[k + 1..], f);
    SumAppend([s[k]], s[k + 1..], f);
    SumAppend(s[..k], s[k + 1..], f);
  }

  /** Sum over a filter: only the kept elements contribute, so elements that
      fail `p` can change arbitrarily without changing the sum. */
  lemma {:induction false} SumFilterCongruence<T(!new)>(a: seq<T>, b: seq<T>, p: T -> bool, f: T -> int)
    requires |a| == |b|
    requires forall i :: 0 <= i < |a| ==> p(a[i]) == p(b[i])
    requires forall i :: 0 <= i < |a| && p(a[i]) ==> a[i] == b[i]
    ensures Sum(Filter(a, p), f) == Sum(Filter(b, p), f)
  {
    if a != [] {
      SumFilterCongruence(a[1..], b[1..], p, f);
    }
  }
}
