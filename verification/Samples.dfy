/** Whole-array operations on a received sequence of complex samples:
    the mean (np.mean), the broadcast subtraction of that mean that centres a
    sequence, and the sample-by-sample product with one complex constant that
    both injects and corrects the phase. */
module Samples {
  import opened Complex

  /** The sum of all samples, from the first to the last. */
  function Sum(x: seq<Complex>): Complex {
    if x == [] then Zero else Add(x[0], Sum(x[1..]))
  }

  lemma {:induction false} SumAppend(a: seq<Complex>, b: seq<Complex>)
    ensures Sum(a + b) == Add(Sum(a), Sum(b))
  {
    if a != [] {
      assert (a + b)[1..] == a[1..] + b;
      SumAppend(a[1..], b);
    } else {
      assert a + b == b;
    }
  }

  /** The arithmetic mean. The mean of an empty array is NaN in numpy; the
      model asks for at least one sample. */
  function Mean(x: seq<Complex>): (m: Complex)
    requires |x| > 0
    ensures Times(|x| as real, m) == Sum(x)
  {
    DivReal(Sum(x), |x| as real)
  }

  /** Every sample plus the same constant c (a DC offset). */
  function Offset(x: seq<Complex>, c: Complex): (r: seq<Complex>)
    ensures |r| == |x|
    ensures forall i :: 0 <= i < |x| ==> r[i] == Add(x[i], c)
  {
    seq(|x|, i requires 0 <= i < |x| => Add(x[i], c))
  }

  lemma {:induction false} SumOffset(x: seq<Complex>, c: Complex)
    ensures Sum(Offset(x, c)) == Add(Sum(x), Times(|x| as real, c))
  {
    if x != [] {
      var y := Offset(x, c);
      assert y[1..] == Offset(x[1..], c);
      SumOffset(x[1..], c);
      var n := |x[1..]| as real;
      var s := Sum(x[1..]);
      assert Sum(y) == Add(Add(x[0], c), Add(s, Times(n, c)));
      assert |x| as real == n + 1.0;
      TimesSucc(n, c);
      assert Sum(x) == Add(x[0], s);
      var t := Times(n, c);
      assert Times(|x| as real, c) == Add(t, c);
      assert Add(Add(x[0], c), Add(s, t)) == Add(Add(x[0], s), Add(t, c));
    }
  }

  lemma TimesSucc(n: real, c: Complex)
    ensures Times(n + 1.0, c) == Add(Times(n, c), c)
  {
  }

  /** Adding a constant to every sample adds it to the mean. */
  lemma MeanOffset(x: seq<Complex>, c: Complex)
    requires |x| > 0
    ensures Mean(Offset(x, c)) == Add(Mean(x), c)
  {
    SumOffset(x, c);
    var n := |x| as real;
    var m := Mean(x);
    var m' := Mean(Offset(x, c));
    assert Times(n, m') == Add(Times(n, m), Times(n, c));
    assert Add(Times(n, m), Times(n, c)) == Times(n, Add(m, c));
    TimesCancel(n, m', Add(m, c));
  }

  /** x minus its own mean, sample by sample (`r_1 - np.mean(r_1)`). An empty
      array stays empty, as numpy's broadcasting leaves it. */
  function Center(x: seq<Complex>): (r: seq<Complex>)
    ensures |r| == |x|
    ensures Sum(r) == Zero
  {
    if x == [] then []
    else
      var m := Mean(x);
      SumOffset(x, Neg(m));
      Offset(x, Neg(m))
  }

  /** The centred samples are the input samples minus the input's mean. */
  lemma CenterAt(x: seq<Complex>, i: int)
    requires 0 <= i < |x|
    ensures Center(x)[i] == Sub(x[i], Mean(x))
  {
  }

  /** Adding the same constant to every sample leaves the centred sequence
      unchanged: centring removes any DC bias. */
  lemma CenterOffsetInvariant(x: seq<Complex>, c: Complex)
    ensures Center(Offset(x, c)) == Center(x)
  {
    if x != [] {
      MeanOffset(x, c);
    }
  }

  /** A centred sequence has mean zero, so centring twice changes nothing. */
  lemma CenterIdempotent(x: seq<Complex>)
    ensures Center(Center(x)) == Center(x)
  {
    if x != [] {
      var y := Center(x);
      var m := Mean(y);
      assert Times(|y| as real, m) == Zero;
      assert m == Zero;
      assert Center(y) == Offset(y, Zero);
    }
  }

  /** Every sample equals the first: a flat (zero-variance) sequence. */
  predicate IsConstant(x: seq<Complex>) {
    forall i :: 0 <= i < |x| ==> x[i] == x[0]
  }

  lemma {:induction false} SumConstant(x: seq<Complex>, c: Complex)
    requires forall i :: 0 <= i < |x| ==> x[i] == c
    ensures Sum(x) == Times(|x| as real, c)
  {
    if x != [] {
      SumConstant(x[1..], c);
      TimesSucc(|x[1..]| as real, c);
      assert |x| as real == |x[1..]| as real + 1.0;
    }
  }

  /** Centring a flat sequence leaves only zeros. */
  lemma CenterConstant(x: seq<Complex>)
    requires IsConstant(x)
    ensures forall i :: 0 <= i < |x| ==> Center(x)[i] == Zero
  {
    if x != [] {
      var c := x[0];
      SumConstant(x, c);
      var n := |x| as real;
      var m := Mean(x);
      assert n * m.re == n * c.re && n * m.im == n * c.im;
      assert m == c;
    }
  }

  /** Every sample multiplied by the complex constant c
      (`[val * complex_exp for val in r_1]`). */
  function Scale(x: seq<Complex>, c: Complex): (r: seq<Complex>)
    ensures |r| == |x|
    ensures forall i :: 0 <= i < |x| ==> r[i] == Mul(x[i], c)
  {
    seq(|x|, i requires 0 <= i < |x| => Mul(x[i], c))
  }

  /** Multiplying by one is the identity: a zero phase correction changes nothing. */
  lemma ScaleOne(x: seq<Complex>)
    ensures Scale(x, One) == x
  {
    assert forall i :: 0 <= i < |x| ==> Scale(x, One)[i] == x[i];
  }

  /** Two successive phase rotations compose into one by the product. */
  lemma ScaleCompose(x: seq<Complex>, c: Complex, d: Complex)
    ensures Scale(Scale(x, c), d) == Scale(x, Mul(c, d))
  {
    forall i | 0 <= i < |x|
      ensures Scale(Scale(x, c), d)[i] == Scale(x, Mul(c, d))[i]
    {
      var a := x[i];
      MulAssoc(a, c, d);
    }
  }

  lemma {:induction false} SumScale(x: seq<Complex>, c: Complex)
    ensures Sum(Scale(x, c)) == Mul(Sum(x), c)
  {
    if x != [] {
      assert Scale(x, c)[1..] == Scale(x[1..], c);
      SumScale(x[1..], c);
    }
  }

  /** The mean of the scaled sequence is the mean times the constant: the
      fact the mean-based phase comparison rests on. */
  lemma MeanScale(x: seq<Complex>, c: Complex)
    requires |x| > 0
    ensures Mean(Scale(x, c)) == Mul(Mean(x), c)
  {
    SumScale(x, c);
    var n := |x| as real;
    var m := Mean(x);
    var m' := Mean(Scale(x, c));
    assert Times(n, m') == Mul(Times(n, m), c);
    assert Mul(Times(n, m), c) == Times(n, Mul(m, c)) by {
      var p := Mul(m, c);
      assert n * m.re * c.re - n * m.im * c.im == n * p.re;
      assert n * m.re * c.im + n * m.im * c.re == n * p.im;
    }
    TimesCancel(n, m', Mul(m, c));
  }
}
