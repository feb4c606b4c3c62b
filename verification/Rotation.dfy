/** Circular rotation of a sample sequence, with the semantics of `np.roll`:
    the sample at position i moves to position (i + k) mod N, and samples that
    leave one end re-enter at the other. The simulation injects the delay with
    it and the estimator corrects the delay with it. */
module Rotation {
  import opened Complex
  import opened Samples

  /** a mod n is the unique r in [0, n) with a = q·n + r. */
  lemma ModUnique(a: int, n: int, q: int, r: int)
    requires n > 0 && 0 <= r < n && a == q * n + r
    ensures a % n == r
  {
    var d := q - a / n;
    assert d * n == a % n - r;
  }

  /** Adding a multiple of n does not change a value mod n. */
  lemma ModShift(a: int, n: int, q: int)
    requires n > 0
    ensures (a + q * n) % n == a % n
  {
    assert a + q * n == (a / n + q) * n + a % n;
    ModUnique(a + q * n, n, a / n + q, a % n);
  }

  /** The last m samples followed by the first N - m: a right rotation by a
      shift already reduced to [0, N]. */
  function RotateRight(x: seq<Complex>, m: int): (r: seq<Complex>)
    requires 0 <= m <= |x|
    ensures |r| == |x|
  {
    x[|x| - m..] + x[..|x| - m]
  }

  lemma RotateRightAt(x: seq<Complex>, m: int, j: int)
    requires 0 <= m <= |x| && 0 <= j < |x|
    ensures RotateRight(x, m)[j] == if j < m then x[j - m + |x|] else x[j - m]
  {
  }

  lemma RotateRightComposeAt(x: seq<Complex>, m1: int, m2: int, j: int)
    requires 0 <= m1 < |x| && 0 <= m2 < |x| && 0 <= j < |x|
    ensures var s := if m1 + m2 < |x| then m1 + m2 else m1 + m2 - |x|;
            RotateRight(RotateRight(x, m1), m2)[j] == RotateRight(x, s)[j]
  {
    var n := |x|;
    var y := RotateRight(x, m1);
    var s := if m1 + m2 < n then m1 + m2 else m1 + m2 - n;
    var i := if j < m2 then j - m2 + n else j - m2;
    RotateRightAt(y, m2, j);
    RotateRightAt(x, m1, i);
    RotateRightAt(x, s, j);
  }

  /** k reduced into [0, n) by adding or subtracting n: Python's `k % n`
      for a positive n. */
  function Wrap(k: int, n: int): (m: int)
    requires n > 0
    ensures 0 <= m < n
    decreases if k < 0 then n - k else k
  {
    if k < 0 then Wrap(k + n, n)
    else if k >= n then Wrap(k - n, n)
    else k
  }

  lemma {:induction false} WrapIsMod(k: int, n: int)
    requires n > 0
    ensures Wrap(k, n) == k % n
    decreases if k < 0 then n - k else k
  {
    if k < 0 {
      WrapIsMod(k + n, n);
      ModShift(k, n, 1);
    } else if k >= n {
      WrapIsMod(k - n, n);
      ModShift(k - n, n, 1);
    } else {
      ModUnique(k, n, 0, k);
    }
  }

  /** Shifts that differ by a multiple of n wrap alike. */
  lemma WrapCongruent(a: int, b: int, n: int)
    requires n > 0 && (a - b) % n == 0
    ensures Wrap(a, n) == Wrap(b, n)
  {
    var q := (a - b) / n;
    assert a == b + q * n;
    ModShift(b, n, q);
    WrapIsMod(a, n);
    WrapIsMod(b, n);
  }

  /** The wrapped sum is the wrapped sum of the wrapped shifts. */
  lemma WrapAdd(a: int, b: int, n: int)
    requires n > 0
    ensures Wrap(a + b, n) ==
      if Wrap(a, n) + Wrap(b, n) < n then Wrap(a, n) + Wrap(b, n) else Wrap(a, n) + Wrap(b, n) - n
  {
    ModAdd(a, b, n);
    WrapIsMod(a, n);
    WrapIsMod(b, n);
    WrapIsMod(a + b, n);
  }

  /** np.roll(x, k): the shift is reduced mod N to m, and the result is the
      last m samples followed by the first N - m (numpy's two slice copies).
      An empty array rolls to an empty array. */
  function Roll(x: seq<Complex>, k: int): (r: seq<Complex>)
    ensures |r| == |x|
  {
    if x == [] then [] else RotateRight(x, Wrap(k, |x|))
  }

  /** Position j of the rolled sequence holds x[(j - k) mod N]. */
  lemma RollAt(x: seq<Complex>, k: int, j: int)
    requires 0 <= j < |x|
    ensures Roll(x, k)[j] == x[(j - k) % |x|]
  {
    var n := |x|;
    var m := k % n;
    var q := k / n;
    WrapIsMod(k, n);
    RotateRightAt(x, m, j);
    assert k == q * n + m;
    if j < m {
      assert j - k == (-q - 1) * n + (j - m + n);
      ModUnique(j - k, n, -q - 1, j - m + n);
    } else {
      assert j - k == (-q) * n + (j - m);
      ModUnique(j - k, n, -q, j - m);
    }
  }

  /** Sample i of x lands at position (i + k) mod N of the rolled sequence. */
  lemma RollMoves(x: seq<Complex>, k: int, i: int)
    requires 0 <= i < |x|
    ensures Roll(x, k)[(i + k) % |x|] == x[i]
  {
    var n := |x|;
    var j := (i + k) % n;
    var q := (i + k) / n;
    assert i + k == q * n + j;
    RollAt(x, k, j);
    assert j - k == (-q) * n + i;
    ModUnique(j - k, n, -q, i);
  }

  /** Rolling is a permutation: no sample is lost or duplicated. */
  lemma RollPermutation(x: seq<Complex>, k: int)
    ensures multiset(Roll(x, k)) == multiset(x)
  {
    if x != [] {
      var n := |x|;
      var m := Wrap(k, n);
      assert x == x[..n - m] + x[n - m..];
      calc {
        multiset(Roll(x, k));
        multiset(x[n - m..]) + multiset(x[..n - m]);
        multiset(x[..n - m] + x[n - m..]);
      }
    }
  }

  /** Rolling by zero changes nothing. */
  lemma RollZero(x: seq<Complex>)
    ensures Roll(x, 0) == x
  {
    if x != [] {
      assert x[|x|..] + x[..|x|] == x;
    }
  }

  /** Rolling by a whole period changes nothing. */
  lemma RollPeriodic(x: seq<Complex>, k: int)
    ensures Roll(x, k + |x|) == Roll(x, k)
  {
    if x != [] {
      assert (k + |x| - k) % |x| == 0 by {
        ModUnique(|x|, |x|, 1, 0);
      }
      WrapCongruent(k + |x|, k, |x|);
    }
  }

  /** The residue of a sum is the wrapped sum of the residues. */
  lemma ModAdd(a: int, b: int, n: int)
    requires n > 0
    ensures (a + b) % n == if a % n + b % n < n then a % n + b % n else a % n + b % n - n
  {
    var qa, qb := a / n, b / n;
    assert a == qa * n + a % n && b == qb * n + b % n;
    if a % n + b % n < n {
      assert a + b == (qa + qb) * n + (a % n + b % n);
      ModUnique(a + b, n, qa + qb, a % n + b % n);
    } else {
      assert a + b == (qa + qb + 1) * n + (a % n + b % n - n);
      ModUnique(a + b, n, qa + qb + 1, a % n + b % n - n);
    }
  }

  /** Rolling twice is rolling once by the sum of the shifts. */
  lemma RollCompose(x: seq<Complex>, a: int, b: int)
    ensures Roll(Roll(x, a), b) == Roll(x, a + b)
  {
    if x != [] {
      var n := |x|;
      WrapAdd(a, b, n);
      forall j | 0 <= j < n
        ensures Roll(Roll(x, a), b)[j] == Roll(x, a + b)[j]
      {
        RotateRightComposeAt(x, Wrap(a, n), Wrap(b, n), j);
      }
    }
  }

  /** Shifts that agree mod N roll alike. */
  lemma RollCongruent(x: seq<Complex>, a: int, b: int)
    requires x != [] && (a - b) % |x| == 0
    ensures Roll(x, a) == Roll(x, b)
  {
    WrapCongruent(a, b, |x|);
  }

  /** Rolling back by the same shift restores the input: the delay correction
      undoes a delay injected with the same shift. */
  lemma RollInverse(x: seq<Complex>, k: int)
    ensures Roll(Roll(x, k), -k) == x
  {
    RollCompose(x, k, -k);
    RollZero(x);
  }

  /** Rolling does not change the sum of the samples. */
  lemma SumRoll(x: seq<Complex>, k: int)
    ensures Sum(Roll(x, k)) == Sum(x)
  {
    if x != [] {
      var n := |x|;
      var m := Wrap(k, n);
      assert x == x[..n - m] + x[n - m..];
      SumAppend(x[n - m..], x[..n - m]);
      SumAppend(x[..n - m], x[n - m..]);
    }
  }

  /** Rolling does not change the mean, so the delay correction cannot move
      the mean the phase estimate is read from. */
  lemma MeanRoll(x: seq<Complex>, k: int)
    requires |x| > 0
    ensures Mean(Roll(x, k)) == Mean(x)
  {
    SumRoll(x, k);
  }

  /** Scaling commutes with rolling: rotating the phase before or after the
      delay gives the same received sequence. */
  lemma RollScaleCommute(x: seq<Complex>, c: Complex, d: int)
    ensures Roll(Scale(x, c), d) == Scale(Roll(x, d), c)
  {
  }
}
