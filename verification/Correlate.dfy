/** Full linear cross-correlation, `np.correlate(a, v, mode='full')`:
    c[k] = Σₙ a[n+k]·conj(v[n]) over every n for which both samples exist,
    for each lag k from -(|v|-1) to |a|-1; output index j holds lag
    j - (|v|-1). */
module Correlate {
  import opened Complex
  import opened Samples
  import opened Outcome

  /** The n-th product of the sum for lag k, zero where a[n+k] does not exist. */
  function CorrTerm(a: seq<Complex>, v: seq<Complex>, k: int, n: int): Complex
    requires 0 <= n < |v|
  {
    if 0 <= n + k < |a| then Mul(a[n + k], Conj(v[n])) else Zero
  }

  /** The first m products of the sum for lag k. */
  function CorrSum(a: seq<Complex>, v: seq<Complex>, k: int, m: int): Complex
    requires 0 <= m <= |v|
  {
    if m == 0 then Zero else Add(CorrSum(a, v, k, m - 1), CorrTerm(a, v, k, m - 1))
  }

  /** The correlation of a against v at lag k. */
  function CorrAt(a: seq<Complex>, v: seq<Complex>, k: int): Complex {
    CorrSum(a, v, k, |v|)
  }

  /** `np.correlate(a, v, mode='full')`: fails on an empty operand, otherwise
      has |a| + |v| - 1 entries, entry j being the correlation at lag
      j - (|v| - 1). */
  function CorrelateFull(a: seq<Complex>, v: seq<Complex>): (r: Result<seq<Complex>>)
    ensures r.Failure? <==> a == [] || v == []
    ensures r.Success? ==> |r.value| == |a| + |v| - 1
    ensures r.Success? ==>
      forall j :: 0 <= j < |r.value| ==> r.value[j] == CorrAt(a, v, j - (|v| - 1))
  {
    if a == [] || v == [] then Failure(EmptyArray)
    else Success(seq(|a| + |v| - 1, j requires 0 <= j < |a| + |v| - 1 => CorrAt(a, v, j - (|v| - 1))))
  }

  lemma {:induction false} CorrSumOutside(a: seq<Complex>, v: seq<Complex>, k: int, m: int)
    requires 0 <= m <= |v|
    requires k < -(|v| - 1) || k > |a| - 1
    ensures CorrSum(a, v, k, m) == Zero
  {
    if m > 0 {
      CorrSumOutside(a, v, k, m - 1);
    }
  }

  /** Lags outside [-(|v|-1), |a|-1] have no overlapping samples, so the full
      output holds every lag at which the correlation can be non-zero. */
  lemma CorrAtOutside(a: seq<Complex>, v: seq<Complex>, k: int)
    requires k < -(|v| - 1) || k > |a| - 1
    ensures CorrAt(a, v, k) == Zero
  {
    CorrSumOutside(a, v, k, |v|);
  }

  lemma {:induction false} CorrSumScaleLeft(a: seq<Complex>, v: seq<Complex>, c: Complex, k: int, m: int)
    requires 0 <= m <= |v|
    ensures CorrSum(Scale(a, c), v, k, m) == Mul(CorrSum(a, v, k, m), c)
  {
    if m > 0 {
      CorrSumScaleLeft(a, v, c, k, m - 1);
      var n := m - 1;
      if 0 <= n + k < |a| {
        MulAssocComm(a[n + k], Conj(v[n]), c);
      }
      MulAddDistrib(CorrSum(a, v, k, n), CorrTerm(a, v, k, n), c);
    }
  }

  /** Rotating the first operand by c rotates every correlation value by c. */
  lemma CorrAtScaleLeft(a: seq<Complex>, v: seq<Complex>, c: Complex, k: int)
    ensures CorrAt(Scale(a, c), v, k) == Mul(CorrAt(a, v, k), c)
  {
    CorrSumScaleLeft(a, v, c, k, |v|);
  }

  lemma {:induction false} CorrSumScaleRight(a: seq<Complex>, v: seq<Complex>, c: Complex, k: int, m: int)
    requires 0 <= m <= |v|
    ensures CorrSum(a, Scale(v, c), k, m) == Mul(CorrSum(a, v, k, m), Conj(c))
  {
    if m > 0 {
      CorrSumScaleRight(a, v, c, k, m - 1);
      var n := m - 1;
      if 0 <= n + k < |a| {
        assert Conj(Mul(v[n], c)) == Mul(Conj(v[n]), Conj(c));
        MulAssoc(a[n + k], Conj(v[n]), Conj(c));
      }
      MulAddDistrib(CorrSum(a, v, k, n), CorrTerm(a, v, k, n), Conj(c));
    }
  }

  /** Rotating the second operand by c rotates every correlation value by the
      conjugate of c: the second operand is conjugated. */
  lemma CorrAtScaleRight(a: seq<Complex>, v: seq<Complex>, c: Complex, k: int)
    ensures CorrAt(a, Scale(v, c), k) == Mul(CorrAt(a, v, k), Conj(c))
  {
    CorrSumScaleRight(a, v, c, k, |v|);
  }

  /** Every sample is zero. */
  predicate AllZero(x: seq<Complex>) {
    forall i :: 0 <= i < |x| ==> x[i] == Zero
  }

  lemma {:induction false} CorrSumZero(a: seq<Complex>, v: seq<Complex>, k: int, m: int)
    requires 0 <= m <= |v|
    requires forall n :: 0 <= n < |v| ==> CorrTerm(a, v, k, n) == Zero
    ensures CorrSum(a, v, k, m) == Zero
  {
    if m > 0 {
      CorrSumZero(a, v, k, m - 1);
    }
  }

  lemma CorrTermZero(a: seq<Complex>, v: seq<Complex>, k: int, n: int)
    requires 0 <= n < |v|
    requires AllZero(a) || AllZero(v)
    ensures CorrTerm(a, v, k, n) == Zero
  {
    if 0 <= n + k < |a| {
      MulZero(Conj(v[n]));
      MulZero(a[n + k]);
    }
  }

  /** Correlating with an all-zero sequence gives an all-zero profile. */
  lemma CorrelateZero(a: seq<Complex>, v: seq<Complex>)
    requires a != [] && v != []
    requires AllZero(a) || AllZero(v)
    ensures AllZero(CorrelateFull(a, v).value)
  {
    var c := CorrelateFull(a, v).value;
    forall j | 0 <= j < |c|
      ensures c[j] == Zero
    {
      var k := j - (|v| - 1);
      forall n | 0 <= n < |v|
        ensures CorrTerm(a, v, k, n) == Zero
      {
        CorrTermZero(a, v, k, n);
      }
      CorrSumZero(a, v, k, |v|);
    }
  }
}
