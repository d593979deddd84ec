/** Sequence helpers shared by the model: JavaScript's `Array.prototype.filter`,
    order-preserving subsequences, duplicate-freedom and maxima. */
module Seqs {

  /** `s.filter(p)`: keeps, in order, the elements satisfying `p`.
      Defined from the right so that a loop over a prefix `s[..i]` can use it
      as its invariant. */
  function Filter<T>(s: seq<T>, p: T -> bool): (r: seq<T>)
    ensures |r| <= |s|
  {
    if |s| == 0 then []
    else Filter(s[..|s| - 1], p) + (if p(s[|s| - 1]) then [s[|s| - 1]] else [])
  }

  /** `a` is `b` with some elements dropped and the rest kept in order. */
  predicate Subsequence<T(==)>(a: seq<T>, b: seq<T>)
  {
    if |a| == 0 then true
    else if |b| == 0 then false
    else if a[|a| - 1] == b[|b| - 1] then Subsequence(a[..|a| - 1], b[..|b| - 1])
    else Subsequence(a, b[..|b| - 1])
  }

  predicate Distinct<T(==)>(s: seq<T>)
  {
    forall i, j :: 0 <= i < j < |s| ==> s[i] != s[j]
  }

  lemma {:induction false} FilterMembership<T>(s: seq<T>, p: T -> bool, x: T)
    ensures x in Filter(s, p) <==> x in s && p(x)
  {
    if |s| > 0 {
      FilterMembership(s[..|s| - 1], p, x);
      assert s == s[..|s| - 1] + [s[|s| - 1]];
    }
  }

  lemma {:induction false} FilterAll<T>(s: seq<T>, p: T -> bool)
    ensures forall i :: 0 <= i < |Filter(s, p)| ==> p(Filter(s, p)[i])
  {
    if |s| > 0 {
      FilterAll(s[..|s| - 1], p);
    }
  }

  /** Every sequence is a subsequence of itself. */
  lemma {:induction false} SubsequenceReflexive<T>(s: seq<T>)
    ensures Subsequence(s, s)
  {
    if |s| > 0 {
      SubsequenceReflexive(s[..|s| - 1]);
    }
  }

  lemma {:induction false} FilterIsSubsequence<T>(s: seq<T>, p: T -> bool)
    ensures Subsequence(Filter(s, p), s)
  {
    if |s| > 0 {
      var init := s[..|s| - 1];
      FilterIsSubsequence(init, p);
      var r := Filter(s, p);
      if p(s[|s| - 1]) {
        assert r[..|r| - 1] == Filter(init, p);
      } else {
        assert r == Filter(init, p);
        SubsequenceDropLast(r, s);
      }
    }
  }

  /** An extra last element of the longer sequence keeps the relation. */
  lemma {:induction false} SubsequenceDropLast<T>(a: seq<T>, b: seq<T>)
    requires |b| > 0 && Subsequence(a, b[..|b| - 1])
    ensures Subsequence(a, b)
    decreases |b|, 0
  {
    if |a| > 0 && a[|a| - 1] == b[|b| - 1] {
      SubsequenceShrink(a, b[..|b| - 1]);
    }
  }

  /** A subsequence without its last element is still a subsequence. */
  lemma {:induction false} SubsequenceShrink<T>(a: seq<T>, b: seq<T>)
    requires |a| > 0 && Subsequence(a, b)
    ensures Subsequence(a[..|a| - 1], b)
    decreases |b|, 1
  {
    var a', b' := a[..|a| - 1], b[..|b| - 1];
    if a[|a| - 1] == b[|b| - 1] {
      SubsequenceDropLast(a', b);
    } else {
      SubsequenceShrink(a, b');
      SubsequenceDropLast(a', b);
    }
  }

  lemma {:induction false} FilterIdempotent<T>(s: seq<T>, p: T -> bool)
    ensures Filter(Filter(s, p), p) == Filter(s, p)
  {
    if |s| > 0 {
      var init := s[..|s| - 1];
      FilterIdempotent(init, p);
      var r := Filter(s, p);
      if p(s[|s| - 1]) {
        assert r[..|r| - 1] == Filter(init, p) && r[|r| - 1] == s[|s| - 1];
      } else {
        assert r == Filter(init, p);
      }
    }
  }

  lemma {:induction false} FilterExtensional<T>(s: seq<T>, p: T -> bool, q: T -> bool)
    requires forall x :: x in s ==> p(x) == q(x)
    ensures Filter(s, p) == Filter(s, q)
  {
    if |s| > 0 {
      FilterExtensional(s[..|s| - 1], p, q);
    }
  }

  /** Filtering twice keeps exactly what the conjunction keeps. */
  lemma {:induction false} FilterCompose<T>(s: seq<T>, p: T -> bool, q: T -> bool, pq: T -> bool)
    requires forall x :: pq(x) == (p(x) && q(x))
    ensures Filter(Filter(s, p), q) == Filter(s, pq)
  {
    if |s| > 0 {
      var init := s[..|s| - 1];
      FilterCompose(init, p, q, pq);
      var r := Filter(s, p);
      if p(s[|s| - 1]) {
        assert r[..|r| - 1] == Filter(init, p) && r[|r| - 1] == s[|s| - 1];
      } else {
        assert r == Filter(init, p);
      }
    }
  }

  lemma {:induction false} FilterConcat<T>(a: seq<T>, b: seq<T>, p: T -> bool)
    ensures Filter(a + b, p) == Filter(a, p) + Filter(b, p)
  {
    if |b| > 0 {
      FilterConcat(a, b[..|b| - 1], p);
      assert (a + b)[..|a + b| - 1] == a + b[..|b| - 1];
    } else {
      assert a + b == a;
    }
  }

  /** Filtering one more element of a prefix appends it when it passes. */
  lemma FilterPrefixStep<T>(s: seq<T>, p: T -> bool, k: nat)
    requires k < |s|
    ensures Filter(s[..k + 1], p) == Filter(s[..k], p) + (if p(s[k]) then [s[k]] else [])
  {
    assert s[..k + 1][..k] == s[..k];
  }

  /** Keeping everything keeps the sequence as it is. */
  lemma {:induction false} FilterTrue<T>(s: seq<T>, p: T -> bool)
    requires forall x :: x in s ==> p(x)
    ensures Filter(s, p) == s
  {
    if |s| > 0 {
      var init := s[..|s| - 1];
      FilterTrue(init, p);
      assert s == init + [s[|s| - 1]];
    }
  }

  /** A duplicate-free sequence has as many elements as its set. */
  lemma {:induction false} DistinctCardinality<T>(s: seq<T>)
    requires Distinct(s)
    ensures |set x | x in s| == |s|
  {
    if |s| > 0 {
      var init := s[..|s| - 1];
      DistinctCardinality(init);
      assert (set x | x in s) == (set x | x in init) + {s[|s| - 1]};
      assert s[|s| - 1] !in init;
    }
  }

  /** `Math.max(...xs)` over a non-empty list. */
  function Max(xs: seq<int>): (m: int)
    requires |xs| > 0
    ensures m in xs && forall i :: 0 <= i < |xs| ==> xs[i] <= m
  {
    if |xs| == 1 then xs[0]
    else
      var m := Max(xs[..|xs| - 1]);
      assert forall i :: 0 <= i < |xs| - 1 ==> xs[..|xs| - 1][i] == xs[i];
      if xs[|xs| - 1] > m then xs[|xs| - 1] else m
  }

  /** The first `n` elements (`slice(0, n)`). */
  function Take<T>(s: seq<T>, n: nat): (r: seq<T>)
    ensures |r| <= n && |r| <= |s|
    ensures r == s[..if n < |s| then n else |s|]
  {
    if n < |s| then s[..n] else s
  }

  // ---------------------------------------------------------------- counting

  /** Filtering by a stronger test keeps no more elements. */
  lemma {:induction false} FilterLengthMonotone<T>(s: seq<T>, p: T -> bool, q: T -> bool)
    requires forall x :: x in s && p(x) ==> q(x)
    ensures |Filter(s, p)| <= |Filter(s, q)|
  {
    if |s| > 0 {
      FilterLengthMonotone(s[..|s| - 1], p, q);
    }
  }

  /** Two tests that never both hold split the elements either keeps. */
  lemma {:induction false} FilterDisjointLength<T>(s: seq<T>, p: T -> bool, q: T -> bool, pq: T -> bool)
    requires forall x :: x in s ==> !(p(x) && q(x))
    requires forall x :: x in s ==> pq(x) == (p(x) || q(x))
    ensures |Filter(s, p)| + |Filter(s, q)| == |Filter(s, pq)|
  {
    if |s| > 0 {
      FilterDisjointLength(s[..|s| - 1], p, q, pq);
    }
  }

  // ---------------------------------------------------------------- sums

  /** The running total `acc += f(x)` over `s`, from the left. */
  function Sum<T>(s: seq<T>, f: T -> real): real
  {
    if |s| == 0 then 0.0 else Sum(s[..|s| - 1], f) + f(s[|s| - 1])
  }

  /** Adding one more element of a prefix adds its term. */
  lemma SumPrefixStep<T>(s: seq<T>, f: T -> real, k: nat)
    requires k < |s|
    ensures Sum(s[..k + 1], f) == Sum(s[..k], f) + f(s[k])
  {
    assert s[..k + 1][..k] == s[..k];
  }

  lemma {:induction false} SumConcat<T>(a: seq<T>, b: seq<T>, f: T -> real)
    ensures Sum(a + b, f) == Sum(a, f) + Sum(b, f)
  {
    if |b| > 0 {
      SumConcat(a, b[..|b| - 1], f);
      assert (a + b)[..|a + b| - 1] == a + b[..|b| - 1];
    } else {
      assert a + b == a;
    }
  }

  /** A sum of terms that are each at most the matching term of another sum. */
  lemma {:induction false} SumMonotone<T>(s: seq<T>, f: T -> real, g: T -> real)
    requires forall x :: x in s ==> f(x) <= g(x)
    ensures Sum(s, f) <= Sum(s, g)
  {
    if |s| > 0 {
      SumMonotone(s[..|s| - 1], f, g);
    }
  }

  /** Sums that agree term by term are equal. */
  lemma {:induction false} SumExtensional<T>(s: seq<T>, f: T -> real, g: T -> real)
    requires forall x :: x in s ==> f(x) == g(x)
    ensures Sum(s, f) == Sum(s, g)
  {
    if |s| > 0 {
      SumExtensional(s[..|s| - 1], f, g);
    }
  }

  /** Every term multiplied by `c`. */
  function Scale<T>(f: T -> real, c: real): T -> real
  {
    x => c * f(x)
  }

  /** Multiplying every term by `c` multiplies the sum by `c`. */
  lemma {:induction false} SumScale<T>(s: seq<T>, f: T -> real, c: real)
    ensures Sum(s, Scale(f, c)) == c * Sum(s, f)
  {
    if |s| > 0 {
      var init := s[..|s| - 1];
      SumScale(init, f, c);
      Distribute(c, Sum(init, f), f(s[|s| - 1]));
    }
  }

  /** Every value lies in [lo, hi] and every weight is non-negative: the
      weighted sum lies between lo and hi times the total weight. */
  lemma WeightedSumBounds<T>(s: seq<T>, v: T -> real, w: T -> real, vw: T -> real, lo: real, hi: real)
    requires forall x :: x in s ==> vw(x) == v(x) * w(x) && w(x) >= 0.0 && lo <= v(x) <= hi
    ensures lo * Sum(s, w) <= Sum(s, vw) <= hi * Sum(s, w)
  {
    SumScale(s, w, lo);
    SumScale(s, w, hi);
    forall x | x in s
      ensures Scale(w, lo)(x) <= vw(x) <= Scale(w, hi)(x)
    {
      ScaleBetween(v(x), w(x), lo, hi);
    }
    SumMonotone(s, Scale(w, lo), vw);
    SumMonotone(s, vw, Scale(w, hi));
  }

  lemma Distribute(c: real, a: real, b: real)
    ensures c * (a + b) == c * a + c * b
  {
  }

  lemma ScaleBetween(v: real, w: real, lo: real, hi: real)
    requires w >= 0.0 && lo <= v <= hi
    ensures lo * w <= v * w <= hi * w
  {
    assert v * w - lo * w == (v - lo) * w;
    assert hi * w - v * w == (hi - v) * w;
  }

  /** Sums of two equally long lists that agree position by position. */
  lemma {:induction false} SumPointwise<T, U>(s: seq<T>, f: T -> real, r: seq<U>, g: U -> real)
    requires |s| == |r| && forall i :: 0 <= i < |s| ==> f(s[i]) == g(r[i])
    ensures Sum(s, f) == Sum(r, g)
  {
    if |s| > 0 {
      SumPointwise(s[..|s| - 1], f, r[..|r| - 1], g);
    }
  }

  /** Dividing every term by the same non-zero constant divides the sum. */
  lemma {:induction false} SumDivide<T>(s: seq<T>, f: T -> real, g: T -> real, c: real)
    requires c != 0.0 && forall x :: x in s ==> g(x) == f(x) / c
    ensures Sum(s, g) == Sum(s, f) / c
  {
    if |s| > 0 {
      var init := s[..|s| - 1];
      SumDivide(init, f, g, c);
      DivideSum(Sum(init, f), f(s[|s| - 1]), c);
    }
  }

  lemma DivideSum(a: real, b: real, c: real)
    requires c != 0.0
    ensures a / c + b / c == (a + b) / c
  {
  }

  /** A prefix one longer is the prefix with the next element appended. */
  lemma PrefixSnoc<T>(s: seq<T>, j: nat)
    requires j < |s|
    ensures s[..j + 1] == s[..j] + [s[j]]
  {
  }

  /** Keeping nothing leaves the empty sequence. */
  lemma {:induction false} FilterNone<T>(s: seq<T>, p: T -> bool)
    requires forall x :: x in s ==> !p(x)
    ensures Filter(s, p) == []
  {
    if |s| > 0 {
      FilterNone(s[..|s| - 1], p);
    }
  }

  /** A non-empty sum of positive terms is positive. */
  lemma {:induction false} SumPositive<T>(s: seq<T>, f: T -> real)
    requires |s| > 0 && forall x :: x in s ==> f(x) > 0.0
    ensures Sum(s, f) > 0.0
  {
    if |s| > 1 {
      SumPositive(s[..|s| - 1], f);
    }
  }

  /** A sum of zero terms is zero. */
  lemma {:induction false} SumZero<T>(s: seq<T>, f: T -> real)
    requires forall x :: x in s ==> f(x) == 0.0
    ensures Sum(s, f) == 0.0
  {
    if |s| > 0 {
      SumZero(s[..|s| - 1], f);
    }
  }

  /** Filters of two equally long lists whose tests agree position by
      position keep equally many elements. */
  lemma {:induction false} FilterLengthPointwise<T, U>(s: seq<T>, p: T -> bool, r: seq<U>, q: U -> bool)
    requires |s| == |r| && forall i :: 0 <= i < |s| ==> p(s[i]) == q(r[i])
    ensures |Filter(s, p)| == |Filter(r, q)|
  {
    if |s| > 0 {
      FilterLengthPointwise(s[..|s| - 1], p, r[..|r| - 1], q);
    }
  }

  /** The sum of a two-element list. */
  lemma SumPair<T>(x: T, y: T, f: T -> real)
    ensures Sum([x, y], f) == f(x) + f(y)
  {
    assert [x][..0] == [];
    assert Sum([x], f) == f(x);
    assert [x, y][..1] == [x];
  }

  /** The sum of a one-element list. */
  lemma SumSingle<T>(x: T, f: T -> real)
    ensures Sum([x], f) == f(x)
  {
    assert [x][..0] == [];
  }

  /** A sum of equal terms is the count times the term. */
  lemma {:induction false} SumConstant<T>(s: seq<T>, f: T -> real, c: real)
    requires forall x :: x in s ==> f(x) == c
    ensures Sum(s, f) == |s| as real * c
  {
    if |s| > 0 {
      SumConstant(s[..|s| - 1], f, c);
      assert (|s| - 1) as real * c + c == |s| as real * c;
    }
  }
}
