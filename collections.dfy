/** Sequence folds shared by every view: the `reduce((sum, x) => sum + f(x), 0)`
    and `filter(p)` idioms of the application, with the facts the views need. */
module Collections {

  /** A value that may be absent (`undefined` in the application). */
  datatype Option<T> = None | Some(value: T)

  /** Left fold of `f` over `s` from 0, in the order `Array.prototype.reduce` visits it. */
  function Sum<T>(s: seq<T>, f: T -> int): int
  {
    if s == [] then 0 else Sum(s[..|s| - 1], f) + f(s[|s| - 1])
  }

  /** The elements of `s` that satisfy `p`, in their original order. */
  function Filter<T>(s: seq<T>, p: T -> bool): (r: seq<T>)
    ensures |r| <= |s|
    ensures forall i :: 0 <= i < |r| ==> r[i] in s && p(r[i])
    ensures forall i :: 0 <= i < |s| && p(s[i]) ==> s[i] in r
  {
    if s == [] then []
    else Filter(s[..|s| - 1], p) + (if p(s[|s| - 1]) then [s[|s| - 1]] else [])
  }

  /** Number of elements of `s` that satisfy `p`. */
  function Count<T>(s: seq<T>, p: T -> bool): nat
  {
    |Filter(s, p)|
  }

  lemma {:induction false} SumAppend<T>(a: seq<T>, b: seq<T>, f: T -> int)
    ensures Sum(a + b, f) == Sum(a, f) + Sum(b, f)
  {
    if b == [] {
      assert a + b == a;
    } else {
      assert (a + b)[..|a + b| - 1] == a + b[..|b| - 1];
      SumAppend(a, b[..|b| - 1], f);
    }
  }

  lemma SumSingleton<T>(x: T, f: T -> int)
    ensures Sum([x], f) == f(x)
  {
    assert [x][..0] == [];
  }

  /** Folding from the front gives the same value as folding from the back. */
  lemma SumFront<T>(s: seq<T>, f: T -> int)
    requires s != []
    ensures Sum(s, f) == f(s[0]) + Sum(s[1..], f)
  {
    assert s == [s[0]] + s[1..];
    SumAppend([s[0]], s[1..], f);
    SumSingleton(s[0], f);
  }

  /** Removing the element at index k takes exactly f(s[k]) off the sum. */
  lemma SumRemove<T>(s: seq<T>, k: nat, f: T -> int)
    requires k < |s|
    ensures Sum(s, f) == f(s[k]) + Sum(s[..k] + s[k + 1..], f)
  {
    var front, back := s[..k], s[k + 1..];
    SplitAt(s, k);
    SumAppend(front, [s[k]] + back, f);
    SumAppend([s[k]], back, f);
    SumSingleton(s[k], f);
    SumAppend(front, back, f);
  }

  lemma SplitAt<T>(s: seq<T>, k: nat)
    requires k < |s|
    ensures s == s[..k] + ([s[k]] + s[k + 1..])
  {
  }

  /** Replacing the element at index k changes the sum by the difference of the two summands. */
  lemma SumUpdate<T>(s: seq<T>, k: nat, x: T, f: T -> int)
    requires k < |s|
    ensures Sum(s[k := x], f) == Sum(s, f) - f(s[k]) + f(x)
  {
    SumRemove(s, k, f);
    SumRemove(s[k := x], k, f);
    assert s[k := x][..k] + s[k := x][k + 1..] == s[..k] + s[k + 1..];
  }

  /** A sum does not depend on the order of the summands. */
  lemma {:induction false} SumPermutation<T>(a: seq<T>, b: seq<T>, f: T -> int)
    requires multiset(a) == multiset(b)
    ensures Sum(a, f) == Sum(b, f)
    decreases |a|
  {
    if a == [] {
      assert |b| == |multiset(b)| == 0;
    } else {
      assert a[0] in multiset(b);
      var k :| 0 <= k < |b| && b[k] == a[0];
      var b' := b[..k] + b[k + 1..];
      RemoveMatched(a, b, k);
      SumPermutation(a[1..], b', f);
      SumFront(a, f);
      SumRemove(b, k, f);
    }
  }

  /** Taking the first element off one of two permutations and a copy of it off
      the other leaves two permutations. */
  lemma RemoveMatched<T>(a: seq<T>, b: seq<T>, k: nat)
    requires multiset(a) == multiset(b) && a != [] && k < |b| && b[k] == a[0]
    ensures multiset(a[1..]) == multiset(b[..k] + b[k + 1..])
  {
    var x := a[0];
    var b' := b[..k] + b[k + 1..];
    assert b == b[..k] + [b[k]] + b[k + 1..];
    assert a == [a[0]] + a[1..];
    assert multiset(b) == multiset(b[..k]) + multiset([x]) + multiset(b[k + 1..]);
    assert multiset(b') == multiset(b[..k]) + multiset(b[k + 1..]);
    assert multiset(a) == multiset([x]) + multiset(a[1..]);
    forall y ensures multiset(a[1..])[y] == multiset(b')[y] {
      assert multiset(a)[y] == multiset([x])[y] + multiset(a[1..])[y];
      assert multiset(b)[y] == multiset(b[..k])[y] + multiset([x])[y] + multiset(b[k + 1..])[y];
    }
  }

  /** Summing the chosen elements equals summing everything with the rest counted as 0. */
  lemma {:induction false} SumFilter<T>(s: seq<T>, p: T -> bool, f: T -> int, g: T -> int)
    requires forall i :: 0 <= i < |s| ==> g(s[i]) == if p(s[i]) then f(s[i]) else 0
    ensures Sum(Filter(s, p), f) == Sum(s, g)
  {
    if s != [] {
      var init, last := s[..|s| - 1], s[|s| - 1];
      assert forall i :: 0 <= i < |init| ==> init[i] == s[i];
      SumFilter(init, p, f, g);
      if p(last) {
        SumAppend(Filter(init, p), [last], f);
        SumSingleton(last, f);
      } else {
        assert Filter(s, p) == Filter(init, p);
      }
    }
  }

  /** Filtering keeps each element exactly as often as it occurs, or drops it entirely. */
  lemma {:induction false} FilterMultiset<T>(s: seq<T>, p: T -> bool, x: T)
    ensures multiset(Filter(s, p))[x] == if p(x) then multiset(s)[x] else 0
  {
    if s != [] {
      var init, last := s[..|s| - 1], s[|s| - 1];
      assert s == init + [last];
      FilterMultiset(init, p, x);
    }
  }

  /** A filter that every element passes leaves the sequence as it is. */
  lemma {:induction false} FilterKeepsAll<T>(s: seq<T>, p: T -> bool)
    requires forall i :: 0 <= i < |s| ==> p(s[i])
    ensures Filter(s, p) == s
  {
    if s != [] {
      FilterKeepsAll(s[..|s| - 1], p);
      assert s[..|s| - 1] + [s[|s| - 1]] == s;
    }
  }

  /** Filtering out exactly the element at index k removes it and keeps the rest in order. */
  lemma {:induction false} FilterRemovesOne<T>(s: seq<T>, p: T -> bool, k: nat)
    requires k < |s| && !p(s[k])
    requires forall i :: 0 <= i < |s| && i != k ==> p(s[i])
    ensures Filter(s, p) == s[..k] + s[k + 1..]
  {
    var init := s[..|s| - 1];
    if k == |s| - 1 {
      FilterKeepsAll(init, p);
    } else {
      FilterRemovesOne(init, p, k);
      assert init[..k] + init[k + 1..] + [s[|s| - 1]] == s[..k] + s[k + 1..];
    }
  }

  /** Filtering keeps keys that were pairwise distinct pairwise distinct. */
  lemma {:induction false} FilterKeepsDistinct<T, K>(s: seq<T>, p: T -> bool, key: T -> K)
    requires forall i, j :: 0 <= i < j < |s| ==> key(s[i]) != key(s[j])
    ensures forall i, j :: 0 <= i < j < |Filter(s, p)| ==> key(Filter(s, p)[i]) != key(Filter(s, p)[j])
  {
    if s != [] {
      var init, last := s[..|s| - 1], s[|s| - 1];
      FilterKeepsDistinct(init, p, key);
      var f := Filter(init, p);
      forall i | 0 <= i < |f| ensures key(f[i]) != key(last) {
        var m :| 0 <= m < |init| && init[m] == f[i];
      }
    }
  }

  /** Filtering twice is filtering once by both conditions. */
  lemma {:induction false} FilterFilter<T>(s: seq<T>, p: T -> bool, q: T -> bool, both: T -> bool)
    requires forall i :: 0 <= i < |s| ==> both(s[i]) == (p(s[i]) && q(s[i]))
    ensures Filter(Filter(s, p), q) == Filter(s, both)
  {
    if s != [] {
      var init, last := s[..|s| - 1], s[|s| - 1];
      assert forall i :: 0 <= i < |init| ==> init[i] == s[i];
      FilterFilter(init, p, q, both);
      if p(last) {
        assert Filter(s, p) == Filter(init, p) + [last];
        assert Filter(s, p)[..|Filter(s, p)| - 1] == Filter(init, p);
      } else {
        assert Filter(s, p) == Filter(init, p);
      }
    }
  }

  /** Nothing passes a filter no element satisfies. */
  lemma {:induction false} FilterNone<T>(s: seq<T>, p: T -> bool)
    requires forall a :: 0 <= a < |s| ==> !p(s[a])
    ensures Filter(s, p) == []
  {
    if s != [] {
      assert forall a :: 0 <= a < |s| - 1 ==> s[..|s| - 1][a] == s[a];
      FilterNone(s[..|s| - 1], p);
    }
  }

  /** An element of a sequence with pairwise distinct keys occurs at most once. */
  lemma {:induction false} OccursAtMostOnce<T, K>(s: seq<T>, key: T -> K, x: T)
    requires forall i, j :: 0 <= i < j < |s| ==> key(s[i]) != key(s[j])
    ensures multiset(s)[x] <= 1
  {
    if s != [] {
      var init, last := s[..|s| - 1], s[|s| - 1];
      assert s == init + [last];
      assert forall i :: 0 <= i < |init| ==> init[i] == s[i];
      OccursAtMostOnce(init, key, x);
      if x == last {
        assert x !in init;
      }
    }
  }

  /** Reordering keeps keys that were pairwise distinct pairwise distinct. */
  lemma PermutationKeepsDistinct<T, K>(s: seq<T>, t: seq<T>, key: T -> K)
    requires multiset(s) == multiset(t)
    requires forall i, j :: 0 <= i < j < |s| ==> key(s[i]) != key(s[j])
    ensures forall i, j :: 0 <= i < j < |t| ==> key(t[i]) != key(t[j])
  {
    forall i, j | 0 <= i < j < |t|
      ensures key(t[i]) != key(t[j])
    {
      assert t[i] in multiset(s) && t[j] in multiset(s);
      var p :| 0 <= p < |s| && s[p] == t[i];
      var q :| 0 <= q < |s| && s[q] == t[j];
      if key(t[i]) == key(t[j]) {
        assert p == q;
        assert t == t[..j] + [t[j]] + t[j + 1..];
        assert t[i] in t[..j];
        assert multiset(t)[t[i]] >= 2;
        OccursAtMostOnce(s, key, t[i]);
      }
    }
  }

  /** Sums of two sequences agree when their summands agree position by position. */
  lemma {:induction false} SumPointwise<T, U>(s: seq<T>, t: seq<U>, f: T -> int, g: U -> int)
    requires |s| == |t|
    requires forall i :: 0 <= i < |s| ==> f(s[i]) == g(t[i])
    ensures Sum(s, f) == Sum(t, g)
  {
    if s != [] {
      SumPointwise(s[..|s| - 1], t[..|t| - 1], f, g);
    }
  }

  /** Summing negated values gives the negated sum. */
  lemma {:induction false} SumNegate<T>(s: seq<T>, f: T -> int, g: T -> int)
    requires forall i :: 0 <= i < |s| ==> g(s[i]) == -f(s[i])
    ensures Sum(s, g) == -Sum(s, f)
  {
    if s != [] {
      SumNegate(s[..|s| - 1], f, g);
    }
  }

  /** The sum of pointwise sums is the sum of the two sums. */
  lemma {:induction false} SumAdd<T>(s: seq<T>, f: T -> int, g: T -> int, h: T -> int)
    requires forall i :: 0 <= i < |s| ==> h(s[i]) == f(s[i]) + g(s[i])
    ensures Sum(s, h) == Sum(s, f) + Sum(s, g)
  {
    if s != [] {
      SumAdd(s[..|s| - 1], f, g, h);
    }
  }

  /** Sum and filter commute with appending one element. */
  lemma FilterAppendOne<T>(s: seq<T>, x: T, p: T -> bool)
    ensures Filter(s + [x], p) == Filter(s, p) + (if p(x) then [x] else [])
  {
    assert (s + [x])[..|s + [x]| - 1] == s;
  }

  lemma FilterSingleton<T>(x: T, p: T -> bool)
    ensures Filter([x], p) == if p(x) then [x] else []
  {
    assert [x][..0] == [];
  }

  /** Filtering a concatenation filters each part. */
  lemma {:induction false} FilterAppend<T>(a: seq<T>, b: seq<T>, p: T -> bool)
    ensures Filter(a + b, p) == Filter(a, p) + Filter(b, p)
  {
    if b == [] {
      assert a + b == a;
    } else {
      var init, last := b[..|b| - 1], b[|b| - 1];
      FilterAppend(a, init, p);
      assert a + b == (a + init) + [last];
      assert b == init + [last];
      FilterAppendOne(a + init, last, p);
      FilterAppendOne(init, last, p);
    }
  }

  lemma SumAppendOne<T>(s: seq<T>, x: T, f: T -> int)
    ensures Sum(s + [x], f) == Sum(s, f) + f(x)
  {
    assert (s + [x])[..|s + [x]| - 1] == s;
  }

  /** Pointwise-equal summands give equal sums. */
  lemma {:induction false} SumCongruent<T>(s: seq<T>, f: T -> int, g: T -> int)
    requires forall i :: 0 <= i < |s| ==> f(s[i]) == g(s[i])
    ensures Sum(s, f) == Sum(s, g)
  {
    if s != [] {
      SumCongruent(s[..|s| - 1], f, g);
    }
  }

  /** `Array.from(new Set(s))`: the distinct elements, each at its first occurrence. */
  function Distinct<T(==)>(s: seq<T>): (r: seq<T>)
    ensures forall i :: 0 <= i < |s| ==> s[i] in r
    ensures forall i :: 0 <= i < |r| ==> r[i] in s
    ensures forall i, j :: 0 <= i < j < |r| ==> r[i] != r[j]
  {
    if s == [] then []
    else
      var r := Distinct(s[..|s| - 1]);
      assert forall i :: 0 <= i < |s| - 1 ==> s[i] == s[..|s| - 1][i];
      if s[|s| - 1] in r then r else r + [s[|s| - 1]]
  }
}
