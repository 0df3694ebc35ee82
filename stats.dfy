/** Sums, means, deviations and extrema over sequences of reals: the arithmetic
    the regression engine borrows from Python's built-ins (`sum`, `min`, `max`)
    and from numpy (`np.dot`), with exact `real` in place of floating point. */
module Stats {

  /** Python's built-in `sum`, adding the elements from left to right. */
  function Sum(s: seq<real>): real
  {
    if |s| == 0 then 0.0 else Sum(s[..|s| - 1]) + s[|s| - 1]
  }

  /** The arithmetic mean `sum(s) / len(s)`. */
  function Mean(s: seq<real>): real
    requires |s| > 0
  {
    Sum(s) / (|s| as real)
  }

  /** The mean lies between the smallest and the largest element. */
  lemma MeanBetween(s: seq<real>)
    requires |s| > 0
    ensures Min(s) <= Mean(s) <= Max(s)
  {
    MeanOfBounded(s, Min(s), Max(s));
  }

  /** Elements between `lo` and `hi` have their mean between them too. */
  lemma MeanOfBounded(s: seq<real>, lo: real, hi: real)
    requires |s| > 0
    requires forall i :: 0 <= i < |s| ==> lo <= s[i] <= hi
    ensures lo <= Mean(s) <= hi
  {
    SumBetween(s, lo, hi);
    DivideBetween(Sum(s), |s| as real, lo, hi);
  }

  /** A sum of |s| terms, each between `lo` and `hi`, lies between |s|·lo and |s|·hi. */
  lemma {:induction false} SumBetween(s: seq<real>, lo: real, hi: real)
    requires forall i :: 0 <= i < |s| ==> lo <= s[i] <= hi
    ensures (|s| as real) * lo <= Sum(s) <= (|s| as real) * hi
    decreases |s|
  {
    if |s| > 0 {
      var n := |s| - 1;
      SumBetween(s[..n], lo, hi);
      assert (|s| as real) * lo == (n as real) * lo + lo;
      assert (|s| as real) * hi == (n as real) * hi + hi;
    }
  }

  /** Dividing n·lo ≤ t ≤ n·hi by a positive n. */
  lemma DivideBetween(t: real, n: real, lo: real, hi: real)
    requires n > 0.0 && n * lo <= t <= n * hi
    ensures lo <= t / n <= hi
  {
    assert t / n * n == t;
  }

  /** Each element's signed distance from `m`. */
  function Centered(s: seq<real>, m: real): seq<real>
  {
    seq(|s|, i requires 0 <= i < |s| => s[i] - m)
  }

  /** The deviations from the mean (`xErr` and `yErr` of the regression). */
  function Deviations(s: seq<real>): seq<real>
    requires |s| > 0
  {
    Centered(s, Mean(s))
  }

  /** Elementwise products of two equal-length vectors. */
  function Products(a: seq<real>, b: seq<real>): seq<real>
    requires |a| == |b|
  {
    seq(|a|, i requires 0 <= i < |a| => a[i] * b[i])
  }

  /** Extending a prefix of the squares by one more element. */
  lemma SquaresPrefixStep(s: seq<real>, i: nat, e: real)
    requires i < |s| && s[i] == e
    ensures Products(s, s)[..i + 1] == Products(s, s)[..i] + [e * e]
  {
    assert Products(s, s)[i] == e * e;
  }

  /** numpy's `np.dot` on two one-dimensional vectors of the same length. */
  function Dot(a: seq<real>, b: seq<real>): real
    requires |a| == |b|
  {
    Sum(Products(a, b))
  }

  /** `sum(v**2 for v in s)`: never negative, and zero exactly when every element is. */
  function SumOfSquares(s: seq<real>): (r: real)
    ensures r >= 0.0
    ensures r == 0.0 <==> forall i :: 0 <= i < |s| ==> s[i] == 0.0
  {
    SquaresSum(s);
    Dot(s, s)
  }

  /** Python's built-in `min` on a non-empty list. */
  function Min(s: seq<real>): (m: real)
    requires |s| > 0
    ensures m in s
    ensures forall i :: 0 <= i < |s| ==> m <= s[i]
  {
    if |s| == 1 then s[0]
    else
      var rest := Min(s[..|s| - 1]);
      assert rest in s;
      if s[|s| - 1] < rest then s[|s| - 1] else rest
  }

  /** Python's built-in `max` on a non-empty list. */
  function Max(s: seq<real>): (m: real)
    requires |s| > 0
    ensures m in s
    ensures forall i :: 0 <= i < |s| ==> s[i] <= m
  {
    if |s| == 1 then s[0]
    else
      var rest := Max(s[..|s| - 1]);
      assert rest in s;
      if rest < s[|s| - 1] then s[|s| - 1] else rest
  }

  /** Every element has the same value (zero spread). */
  predicate AllEqual(s: seq<real>)
  {
    forall i, j :: 0 <= i < |s| && 0 <= j < |s| ==> s[i] == s[j]
  }

  // ---------------------------------------------------------------------------
  // Linearity of Sum

  lemma {:induction false} SumConcat(s: seq<real>, t: seq<real>)
    ensures Sum(s + t) == Sum(s) + Sum(t)
    decreases |t|
  {
    if |t| == 0 {
      assert s + t == s;
    } else {
      assert (s + t)[..|s + t| - 1] == s + t[..|t| - 1];
      SumConcat(s, t[..|t| - 1]);
    }
  }

  /** Summing `k * a[i] + d` gives `k * Sum(a) + |a| * d`. */
  lemma {:induction false} SumAffine(a: seq<real>, c: seq<real>, k: real, d: real)
    requires |a| == |c|
    requires forall i :: 0 <= i < |c| ==> c[i] == k * a[i] + d
    ensures Sum(c) == k * Sum(a) + (|a| as real) * d
    decreases |a|
  {
    if |a| > 0 {
      var n := |a| - 1;
      SumAffine(a[..n], c[..n], k, d);
      assert Sum(c) == Sum(c[..n]) + c[n];
      assert Sum(a) == Sum(a[..n]) + a[n];
      assert k * Sum(a) == k * Sum(a[..n]) + k * a[n];
      assert (|a| as real) * d == (n as real) * d + d;
    }
  }

  /** Summing a linear combination of three sequences. */
  lemma {:induction false} SumCombination(c: seq<real>, a: seq<real>, u: seq<real>, v: seq<real>, j: real, k: real)
    requires |c| == |a| == |u| == |v|
    requires forall i :: 0 <= i < |c| ==> c[i] == a[i] + j * u[i] + k * v[i]
    ensures Sum(c) == Sum(a) + j * Sum(u) + k * Sum(v)
    decreases |c|
  {
    if |c| > 0 {
      var n := |c| - 1;
      SumCombination(c[..n], a[..n], u[..n], v[..n], j, k);
      assert Sum(c) == Sum(c[..n]) + c[n];
      assert Sum(a) == Sum(a[..n]) + a[n];
      assert j * Sum(u) == j * Sum(u[..n]) + j * u[n];
      assert k * Sum(v) == k * Sum(v[..n]) + k * v[n];
    }
  }

  /** A sum of non-negative terms is non-negative, and zero only when every term is. */
  lemma {:induction false} SumOfNonNegatives(s: seq<real>)
    requires forall i :: 0 <= i < |s| ==> s[i] >= 0.0
    ensures Sum(s) >= 0.0
    ensures Sum(s) == 0.0 <==> forall i :: 0 <= i < |s| ==> s[i] == 0.0
    decreases |s|
  {
    if |s| > 0 {
      var n := |s| - 1;
      SumOfNonNegatives(s[..n]);
      if Sum(s) == 0.0 {
        forall i | 0 <= i < |s| ensures s[i] == 0.0 {
          if i < n { assert s[i] == s[..n][i]; }
        }
      }
      if forall i :: 0 <= i < |s| ==> s[i] == 0.0 {
        assert forall i :: 0 <= i < n ==> s[..n][i] == 0.0;
      }
    }
  }

  /** The squares summed by `SumOfSquares` are never negative, and zero only for zero. */
  lemma SquaresSum(s: seq<real>)
    ensures Dot(s, s) >= 0.0
    ensures Dot(s, s) == 0.0 <==> forall i :: 0 <= i < |s| ==> s[i] == 0.0
  {
    var sq := Products(s, s);
    forall i | 0 <= i < |s| ensures sq[i] >= 0.0 && (sq[i] == 0.0 <==> s[i] == 0.0) {
      if s[i] == 0.0 {
        calc { sq[i]; == s[i] * s[i]; == 0.0; }
      } else {
        calc { sq[i]; == s[i] * s[i]; > 0.0; }
      }
    }
    SumOfNonNegatives(sq);
  }

  /** The deviations from the mean sum to zero. */
  lemma DeviationsSumToZero(s: seq<real>)
    requires |s| > 0
    ensures Sum(Deviations(s)) == 0.0
  {
    SumAffine(s, Deviations(s), 1.0, -Mean(s));
    var n := |s| as real;
    calc { n * (-Mean(s)); == -(n * (Sum(s) / n)); == -Sum(s); }
  }

  /** A sequence has zero spread around its mean exactly when all its elements are equal. */
  lemma ZeroSpreadIffAllEqual(s: seq<real>)
    requires |s| > 0
    ensures SumOfSquares(Deviations(s)) == 0.0 <==> AllEqual(s)
  {
    var d := Deviations(s);
    if AllEqual(s) {
      SumAffine(s, s, 0.0, s[0]);
      assert Mean(s) == s[0];
      assert forall i :: 0 <= i < |d| ==> d[i] == 0.0;
    }
    if SumOfSquares(d) == 0.0 {
      assert forall i :: 0 <= i < |s| ==> s[i] == Mean(s) by {
        forall i | 0 <= i < |s| ensures s[i] == Mean(s) { assert d[i] == 0.0; }
      }
    }
  }

  /** A dot product with a vector of zeros is zero. */
  lemma DotWithZeros(a: seq<real>, b: seq<real>)
    requires |a| == |b|
    requires forall i :: 0 <= i < |a| ==> a[i] == 0.0
    ensures Dot(a, b) == 0.0 && Dot(b, a) == 0.0
  {
    SumAffine(a, Products(a, b), 0.0, 0.0);
    SumAffine(a, Products(b, a), 0.0, 0.0);
  }

  /** Scaling one factor of a dot product scales the product. */
  lemma DotScaled(a: seq<real>, b: seq<real>, e: seq<real>, k: real)
    requires |a| == |b| == |e|
    requires forall i :: 0 <= i < |b| ==> b[i] == k * e[i]
    ensures Dot(a, b) == k * Dot(a, e)
  {
    forall i | 0 <= i < |a| ensures Products(a, b)[i] == k * Products(a, e)[i] {
      assert a[i] * (k * e[i]) == k * (a[i] * e[i]);
    }
    SumAffine(Products(a, e), Products(a, b), k, 0.0);
  }

  /** The dot product is linear in its second factor. */
  lemma DotLinear(a: seq<real>, r: seq<real>, u: seq<real>, v: seq<real>, k: real)
    requires |a| == |r| == |u| == |v|
    requires forall i :: 0 <= i < |r| ==> r[i] == u[i] + k * v[i]
    ensures Dot(a, r) == Dot(a, u) + k * Dot(a, v)
  {
    var pr, pu, pv := Products(a, r), Products(a, u), Products(a, v);
    forall i | 0 <= i < |a|
      ensures pr[i] == pu[i] + k * pv[i] + 0.0 * pv[i]
    {
      calc {
        pr[i];
        == a[i] * r[i];
        == a[i] * (u[i] + k * v[i]);
        == a[i] * u[i] + k * (a[i] * v[i]);
      }
    }
    SumCombination(pr, pu, pv, pv, k, 0.0);
  }

  /** The dot product is symmetric. */
  lemma DotSymmetric(a: seq<real>, b: seq<real>)
    requires |a| == |b|
    ensures Dot(a, b) == Dot(b, a)
  {
    assert Products(a, b) == Products(b, a);
  }

  // ---------------------------------------------------------------------------
  // Reordering

  /** `p` lists every index below `n` exactly once. */
  ghost predicate IsPermutation(p: seq<nat>, n: nat)
  {
    && |p| == n
    && (forall i :: 0 <= i < n ==> p[i] < n)
    && (forall i, j :: 0 <= i < j < n ==> p[i] != p[j])
    && (forall v: nat :: v < n ==> v in p)
  }

  /** The sequence whose `i`-th element is `s[p[i]]`. */
  function Permute(s: seq<real>, p: seq<nat>): seq<real>
    requires forall i :: 0 <= i < |p| ==> p[i] < |s|
  {
    seq(|p|, i requires 0 <= i < |p| => s[p[i]])
  }

  /** Dropping position `k`, which holds the largest index, leaves a permutation of the rest. */
  lemma DropLargest(p: seq<nat>, n: nat, k: nat)
    requires n > 0 && IsPermutation(p, n) && k < n && p[k] == n - 1
    ensures IsPermutation(p[..k] + p[k + 1..], n - 1)
  {
    var q := p[..k] + p[k + 1..];
    assert forall i :: 0 <= i < k ==> q[i] == p[i];
    assert forall i :: k <= i < n - 1 ==> q[i] == p[i + 1];
    forall i | 0 <= i < n - 1 ensures q[i] < n - 1 {
      if i < k { assert p[i] != p[k]; } else { assert p[k] != p[i + 1]; }
    }
    forall i, j | 0 <= i < j < n - 1 ensures q[i] != q[j] {
      var i' := if i < k then i else i + 1;
      var j' := if j < k then j else j + 1;
      assert i' < j' && q[i] == p[i'] && q[j] == p[j'];
    }
    forall v: nat | v < n - 1 ensures v in q {
      assert v in p;
      var j :| 0 <= j < n && p[j] == v;
      if j < k { assert q[j] == v; } else { assert j != k && q[j - 1] == v; }
    }
  }

  /** Reordering by `p` is reordering the shorter prefix by `p` without position `k`,
      then putting the last element back at position `k`. */
  lemma PermuteSplit(s: seq<real>, p: seq<nat>, k: nat)
    requires |s| > 0 && IsPermutation(p, |s|) && k < |s| && p[k] == |s| - 1
    requires IsPermutation(p[..k] + p[k + 1..], |s| - 1)
    ensures Permute(s, p) == Permute(s[..|s| - 1], p[..k] + p[k + 1..])[..k] + [s[|s| - 1]]
                             + Permute(s[..|s| - 1], p[..k] + p[k + 1..])[k..]
  {
    var n := |s|;
    var q := p[..k] + p[k + 1..];
    var t := Permute(s[..n - 1], q);
    var r := t[..k] + [s[n - 1]] + t[k..];
    assert |r| == n;
    forall i | 0 <= i < n ensures Permute(s, p)[i] == r[i] {
      if i < k {
        assert q[i] == p[i];
      } else if i > k {
        assert q[i - 1] == p[i];
        assert r[i] == t[i - 1];
      }
    }
  }

  /** Inserting `v` anywhere adds `v` to the sum. */
  lemma SumInsert(t: seq<real>, k: nat, v: real)
    requires k <= |t|
    ensures Sum(t[..k] + [v] + t[k..]) == Sum(t) + v
  {
    SumConcat(t[..k], [v]);
    assert Sum([v]) == v by { assert [v][..0] == []; }
    SumConcat(t[..k] + [v], t[k..]);
    SumConcat(t[..k], t[k..]);
    assert t[..k] + t[k..] == t;
  }

  /** The order of the terms does not change a sum. */
  lemma {:induction false} SumPermute(s: seq<real>, p: seq<nat>)
    requires IsPermutation(p, |s|)
    ensures Sum(Permute(s, p)) == Sum(s)
    decreases |s|
  {
    var n := |s|;
    if n > 0 {
      assert (n - 1) in p;
      var k :| 0 <= k < n && p[k] == n - 1;
      DropLargest(p, n, k);
      var q := p[..k] + p[k + 1..];
      SumPermute(s[..n - 1], q);
      PermuteSplit(s, p, k);
      SumInsert(Permute(s[..n - 1], q), k, s[n - 1]);
    }
  }

  /** Reordering the terms does not change the mean. */
  lemma MeanPermute(s: seq<real>, p: seq<nat>)
    requires |s| > 0 && IsPermutation(p, |s|)
    ensures Mean(Permute(s, p)) == Mean(s)
  {
    SumPermute(s, p);
  }

  /** Reordering both factors in the same way does not change a dot product. */
  lemma DotPermute(a: seq<real>, b: seq<real>, p: seq<nat>)
    requires |a| == |b| && IsPermutation(p, |a|)
    ensures Dot(Permute(a, p), Permute(b, p)) == Dot(a, b)
  {
    var l := Products(Permute(a, p), Permute(b, p));
    var r := Permute(Products(a, b), p);
    assert |l| == |r|;
    forall i | 0 <= i < |l| ensures l[i] == r[i] { }
    assert l == r;
    SumPermute(Products(a, b), p);
  }

  /** Deviations commute with reordering. */
  lemma DeviationsPermute(s: seq<real>, p: seq<nat>)
    requires |s| > 0 && IsPermutation(p, |s|)
    ensures Deviations(Permute(s, p)) == Permute(Deviations(s), p)
  {
    MeanPermute(s, p);
  }

  /** Two non-empty sequences holding the same values have the same least and greatest element. */
  lemma SameValuesMinMax(s: seq<real>, t: seq<real>)
    requires |s| > 0 && |t| > 0
    requires forall v :: v in s ==> v in t
    requires forall v :: v in t ==> v in s
    ensures Min(t) == Min(s) && Max(t) == Max(s)
  {
    var i :| 0 <= i < |t| && t[i] == Min(s);
    var j :| 0 <= j < |s| && s[j] == Min(t);
    var k :| 0 <= k < |t| && t[k] == Max(s);
    var l :| 0 <= l < |s| && s[l] == Max(t);
  }

  /** Reordering keeps the least and the greatest element. */
  lemma MinMaxPermute(s: seq<real>, p: seq<nat>)
    requires |s| > 0 && IsPermutation(p, |s|)
    ensures Min(Permute(s, p)) == Min(s) && Max(Permute(s, p)) == Max(s)
  {
    var t := Permute(s, p);
    forall v | v in s ensures v in t {
      var j :| 0 <= j < |s| && s[j] == v;
      assert j in p;
      var i :| 0 <= i < |p| && p[i] == j;
      assert t[i] == v;
    }
    forall v | v in t ensures v in s {
      var i :| 0 <= i < |t| && t[i] == v;
      assert s[p[i]] == v;
    }
    SameValuesMinMax(s, t);
  }
}
