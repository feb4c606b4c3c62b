/** A concrete input on which the script's delay correction turns the wrong
    way: a zero-mean pulse of three samples, delayed circularly by one
    sample, with no phase rotation and no noise. */
module DelaySign {
  import opened Complex
  import opened Outcome
  import opened Samples
  import opened Rotation
  import opened Correlate
  import opened Peak
  import opened Pipeline

  /** The phase correction factor on this input. Both means are exactly
      zero, `np.arctan2(0, 0)` is 0, so the angle difference is 0 and
      `complex(cos 0, sin 0)` is 1. */
  function NoRotation(m1: Complex, m2: Complex): Complex {
    One
  }

  /** A zero-mean pulse, so that centring leaves it as it is. */
  const Pulse: seq<Complex> := [Complex(1.0, 0.0), Complex(-1.0, 0.0), Zero]

  /** The pulse delayed circularly by one sample. */
  const Delayed: seq<Complex> := [Zero, Complex(1.0, 0.0), Complex(-1.0, 0.0)]

  /** The correlation profile of the two receivers, lags -2 to 2. */
  const Profile: seq<Complex> := [Complex(-1.0, 0.0), Complex(2.0, 0.0), Complex(-1.0, 0.0), Zero, Zero]

  lemma SameThree(r: seq<Complex>, t: seq<Complex>)
    requires |r| == |t| == 3
    requires r[0] == t[0] && r[1] == t[1] && r[2] == t[2]
    ensures r == t
  {
    assert forall i :: 0 <= i < 3 ==> r[i] == t[i];
  }

  lemma SameFive(r: seq<Complex>, t: seq<Complex>)
    requires |r| == |t| == 5
    requires r[0] == t[0] && r[1] == t[1] && r[2] == t[2] && r[3] == t[3] && r[4] == t[4]
    ensures r == t
  {
    assert forall i :: 0 <= i < 5 ==> r[i] == t[i];
  }

  lemma PulseDelayed()
    ensures Roll(Pulse, 1) == Delayed
    ensures Roll(Pulse, -1) == [Complex(-1.0, 0.0), Zero, Complex(1.0, 0.0)]
  {
    RollAt(Pulse, 1, 0);
    RollAt(Pulse, 1, 1);
    RollAt(Pulse, 1, 2);
    SameThree(Roll(Pulse, 1), Delayed);
    RollAt(Pulse, -1, 0);
    RollAt(Pulse, -1, 1);
    RollAt(Pulse, -1, 2);
    SameThree(Roll(Pulse, -1), [Complex(-1.0, 0.0), Zero, Complex(1.0, 0.0)]);
  }

  lemma SumOfThree(p: Complex, q: Complex, r: Complex)
    ensures Sum([p, q, r]) == Add(p, Add(q, Add(r, Zero)))
  {
    assert [p, q, r][1..] == [q, r];
    assert [q, r][1..] == [r];
    assert [r][1..] == [];
    assert Sum([r]) == Add(r, Zero);
    assert Sum([q, r]) == Add(q, Sum([r]));
  }

  /** Three samples summing to zero are left unchanged by centring. */
  lemma CenterZeroSum(x: seq<Complex>)
    requires |x| == 3 && Sum(x) == Zero
    ensures Center(x) == x
  {
    var m := Mean(x);
    assert 3.0 * m.re == 0.0 && 3.0 * m.im == 0.0;
    CenterAt(x, 0);
    CenterAt(x, 1);
    CenterAt(x, 2);
    SameThree(Center(x), x);
  }

  lemma PulseCentred()
    ensures Center(Pulse) == Pulse
  {
    assert Sum(Pulse) == Zero by {
      SumOfThree(Complex(1.0, 0.0), Complex(-1.0, 0.0), Zero);
    }
    CenterZeroSum(Pulse);
  }

  lemma DelayedCentred()
    ensures Center(Delayed) == Delayed
  {
    assert Sum(Delayed) == Zero by {
      SumOfThree(Zero, Complex(1.0, 0.0), Complex(-1.0, 0.0));
    }
    CenterZeroSum(Delayed);
  }

  /** A correlation against three samples is the sum of three products. */
  lemma CorrAtOfThree(a: seq<Complex>, v: seq<Complex>, k: int)
    requires |v| == 3
    ensures CorrAt(a, v, k)
         == Add(Add(Add(Zero, CorrTerm(a, v, k, 0)), CorrTerm(a, v, k, 1)), CorrTerm(a, v, k, 2))
  {
    assert CorrSum(a, v, k, 1) == Add(Zero, CorrTerm(a, v, k, 0));
    assert CorrSum(a, v, k, 2) == Add(CorrSum(a, v, k, 1), CorrTerm(a, v, k, 1));
  }

  /** The five entries of a correlation of two three-sample sequences. */
  lemma CorrAtLagsOfThree(a: seq<Complex>, v: seq<Complex>)
    requires |a| == 3 && |v| == 3
    ensures CorrAt(a, v, -2) == Add(Add(Add(Zero, Zero), Zero), Mul(a[0], Conj(v[2])))
    ensures CorrAt(a, v, -1) == Add(Add(Add(Zero, Zero), Mul(a[0], Conj(v[1]))), Mul(a[1], Conj(v[2])))
    ensures CorrAt(a, v, 0) == Add(Add(Add(Zero, Mul(a[0], Conj(v[0]))), Mul(a[1], Conj(v[1]))), Mul(a[2], Conj(v[2])))
    ensures CorrAt(a, v, 1) == Add(Add(Add(Zero, Mul(a[1], Conj(v[0]))), Mul(a[2], Conj(v[1]))), Zero)
    ensures CorrAt(a, v, 2) == Add(Add(Add(Zero, Mul(a[2], Conj(v[0]))), Zero), Zero)
  {
    CorrAtOfThree(a, v, -2);
    CorrAtOfThree(a, v, -1);
    CorrAtOfThree(a, v, 0);
    CorrAtOfThree(a, v, 1);
    CorrAtOfThree(a, v, 2);
  }

  /** The profile is [-1, 2, -1, 0, 0] for lags -2 to 2: its peak is at
      index 1, which the script turns into lag -1. */
  lemma PulseLag()
    ensures EstimateDelay(Pulse, Roll(Pulse, 1)) == Success(-1)
  {
    PulseDelayed();
    PulseCentred();
    DelayedCentred();
    PulseCorrelation(Pulse, Delayed);
    ProfilePeak();
  }

  /** The full correlation of two three-sample sequences lists the lags
      -2 to 2. */
  lemma CorrelateThree(a: seq<Complex>, v: seq<Complex>)
    requires |a| == 3 && |v| == 3
    ensures CorrelateFull(a, v)
         == Success([CorrAt(a, v, -2), CorrAt(a, v, -1), CorrAt(a, v, 0), CorrAt(a, v, 1), CorrAt(a, v, 2)])
  {
    var corr := CorrelateFull(a, v).value;
    SameFive(corr, [CorrAt(a, v, -2), CorrAt(a, v, -1), CorrAt(a, v, 0), CorrAt(a, v, 1), CorrAt(a, v, 2)]);
  }

  /** The full correlation of the two receivers is the profile above. */
  lemma PulseCorrelation(a: seq<Complex>, v: seq<Complex>)
    requires a == [Complex(1.0, 0.0), Complex(-1.0, 0.0), Zero]
    requires v == [Zero, Complex(1.0, 0.0), Complex(-1.0, 0.0)]
    ensures CorrelateFull(a, v) == Success(Profile)
  {
    CorrelateThree(a, v);
    CorrAtLagsOfThree(a, v);
  }

  /** The first maximum of the profile is at index 1. */
  lemma ProfilePeak()
    ensures ArgMax(Profile) == Success(1)
  {
    var s := Profile;
    assert forall j :: 0 <= j < 5 ==> LessEq(s[j], s[1]);
    assert Less(s[0], s[1]);
    FirstMaxUnique(s, 1);
  }

  /** As written, the corrected first receiver is [-1, 0, 1] while the second
      receiver is [0, 1, -1]. */
  lemma AsWrittenMisaligns()
    ensures AlignAsWritten(Pulse, Roll(Pulse, 1), NoRotation).value.corrected == [Complex(-1.0, 0.0), Zero, Complex(1.0, 0.0)]
    ensures AlignAsWritten(Pulse, Roll(Pulse, 1), NoRotation).value.corrected != Roll(Pulse, 1)
  {
    PulseLag();
    PulseDelayed();
    ScaleOne(Roll(Pulse, -1));
  }

  /** Rolled the other way, the corrected first receiver equals the second. */
  lemma CorrectedAligns()
    ensures Align(Pulse, Roll(Pulse, 1), NoRotation).value.corrected == Roll(Pulse, 1)
  {
    PulseLag();
    PulseDelayed();
    ScaleOne(Roll(Pulse, 1));
  }
}
