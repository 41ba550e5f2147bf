/** The arithmetic the crossover strategy relies on: Python's negative-index
    slice `xs[-k:]` and `np.mean`, both over exact reals. */
module Numeric {

  function Min(a: int, b: int): int
  {
    if a <= b then a else b
  }

  /** Python's `xs[-k:]` for any integer `k`. For `k > 0` this keeps the last
      `min(k, |xs|)` values; for `k == 0` it is `xs[0:]`, the whole list; for
      `k < 0` it is `xs[-k:]`, which drops the first `-k` values. */
  function PySuffix<T>(xs: seq<T>, k: int): (r: seq<T>)
    ensures |r| <= |xs| && r == xs[|xs| - |r|..]
    ensures k > 0 ==> |r| == Min(k, |xs|)
    ensures k == 0 ==> r == xs
    ensures k < 0 ==> |r| == |xs| - Min(-k, |xs|)
  {
    if k > 0 then xs[|xs| - Min(k, |xs|)..]
    else if k == 0 then xs
    else xs[Min(-k, |xs|)..]
  }

  function Sum(xs: seq<real>): real
  {
    if xs == [] then 0.0 else xs[0] + Sum(xs[1..])
  }

  /** The sum of `n` copies of `c` is `n * c`. */
  lemma {:induction false} SumOfConstant(xs: seq<real>, c: real)
    requires forall i :: 0 <= i < |xs| ==> xs[i] == c
    ensures Sum(xs) == (|xs| as real) * c
    decreases |xs|
  {
    if xs != [] {
      assert forall i :: 0 <= i < |xs[1..]| ==> xs[1..][i] == xs[i + 1];
      SumOfConstant(xs[1..], c);
    }
  }

  /** The mean of a slice whose values are all `c` is `c`. */
  lemma MeanOfConstant(xs: seq<real>, c: real)
    requires xs != []
    requires forall i :: 0 <= i < |xs| ==> xs[i] == c
    ensures MeanOf(xs).Num? && Value(MeanOf(xs)) == c
  {
    SumOfConstant(xs, c);
    var n := |xs| as real;
    assert n * c / n == c;
  }

  /** `x * n`, written as repeated addition so that comparing two means
      stays linear for the solver; `ScaleIsProduct` shows it is the product. */
  function Scale(x: real, n: nat): real
  {
    if n == 0 then 0.0 else Scale(x, n - 1) + x
  }

  lemma {:induction false} ScaleIsProduct(x: real, n: nat)
    ensures Scale(x, n) == x * (n as real)
  {
    if n > 0 {
      ScaleIsProduct(x, n - 1);
    }
  }

  /** The length of a non-empty slice. */
  type Count = n: nat | n > 0 witness 1

  /** A float that `np.mean` can return: NaN for an empty slice, otherwise the
      exact mean, kept as the quotient `sum / count` of the slice's sum and
      length. */
  datatype Mean = NaN | Num(sum: real, count: Count)

  /** The real number a `Num` mean denotes. */
  function Value(m: Mean): real
    requires m.Num?
  {
    m.sum / (m.count as real)
  }

  /** `np.mean(xs)`. */
  function MeanOf(xs: seq<real>): (m: Mean)
    ensures m.NaN? <==> xs == []
    ensures m.Num? ==> m.count == |xs| && m.sum == Sum(xs)
  {
    if xs == [] then NaN else Num(Sum(xs), |xs|)
  }

  /** `a > b` on floats: false whenever either side is NaN, otherwise the
      comparison of the two mean values. It is decided by cross-multiplying,
      which keeps the arithmetic linear. */
  predicate Greater(a: Mean, b: Mean)
    ensures Greater(a, b) <==> a.Num? && b.Num? && Value(a) > Value(b)
  {
    && a.Num? && b.Num?
    && (ScaleIsProduct(a.sum, b.count);
        ScaleIsProduct(b.sum, a.count);
        CrossMultiply(a.sum, b.sum, a.count as real, b.count as real);
        Scale(a.sum, b.count) > Scale(b.sum, a.count))
  }

  /** `a < b` on floats: false whenever either side is NaN, otherwise the
      comparison of the two mean values. */
  predicate Less(a: Mean, b: Mean)
    ensures Less(a, b) <==> a.Num? && b.Num? && Value(a) < Value(b)
  {
    Greater(b, a)
  }

  lemma CrossMultiply(sa: real, sb: real, na: real, nb: real)
    requires na > 0.0 && nb > 0.0
    ensures sa / na > sb / nb <==> sa * nb > sb * na
  {
    var ma, mb := sa / na, sb / nb;
    var p := na * nb;
    assert p > 0.0;
    assert sa * nb == ma * p;
    assert sb * na == mb * p;
    if ma > mb {
      assert (ma - mb) * p > 0.0;
    } else {
      assert (mb - ma) * p >= 0.0;
    }
  }

  /** Two means of non-empty slices with equal values compare neither way. */
  lemma EqualMeansDoNotCompare(a: Mean, b: Mean)
    requires a.Num? && b.Num?
    requires Value(a) == Value(b)
    ensures !Greater(a, b) && !Less(a, b)
  {
  }
}
