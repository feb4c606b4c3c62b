/** The estimation pipeline of the script's main block: estimate the delay
    from the centred full correlation, roll the first receiver by it, read the
    two means the phase estimate is taken from, and rotate the first receiver
    by the phase correction factor. The factor itself (cos and sin of the
    difference of the two arctan2 angles) is transcendental and enters as a
    function of the two means. */
module Pipeline {
  import opened Complex
  import opened Outcome
  import opened Samples
  import opened Rotation
  import opened Correlate
  import opened Peak

  /** The noise-free second receiver: every sample of the source rotated by
      the phase factor c, then delayed circularly by d samples. */
  function Received(s: seq<Complex>, d: int, c: Complex): (r: seq<Complex>)
    ensures |r| == |s|
  {
    Roll(Scale(s, c), d)
  }

  /** Source sample i, rotated by c, arrives at position (i + d) mod N. */
  lemma ReceivedMoves(s: seq<Complex>, d: int, c: Complex)
    ensures forall i :: 0 <= i < |s| ==> Received(s, d, c)[(i + d) % |s|] == Mul(s[i], c)
  {
    forall i | 0 <= i < |s|
      ensures Roll(Scale(s, c), d)[(i + d) % |s|] == Mul(s[i], c)
    {
      RollMoves(Scale(s, c), d, i);
    }
  }

  /** Lag k is the first lag in [-(|v|-1), |a|-1] whose correlation is
      greatest in the lexicographic order. */
  predicate IsBestLag(a: seq<Complex>, v: seq<Complex>, k: int) {
    && -(|v| - 1) <= k <= |a| - 1
    && (forall k' :: -(|v| - 1) <= k' <= |a| - 1 ==> LessEq(CorrAt(a, v, k'), CorrAt(a, v, k)))
    && (forall k' :: -(|v| - 1) <= k' < k ==> Less(CorrAt(a, v, k'), CorrAt(a, v, k)))
  }

  /** `corr.argmax() - (len(r_1) - 1)` on the centred full correlation: an
      error when either receiver is empty, otherwise a lag in
      [-(|r1|-1), |r2|-1]. */
  function EstimateDelay(r1: seq<Complex>, r2: seq<Complex>): (r: Result<int>)
    ensures r.Failure? <==> r1 == [] || r2 == []
    ensures r.Success? ==> -(|r1| - 1) <= r.value <= |r2| - 1
  {
    var a, v := Center(r1), Center(r2);
    match CorrelateFull(a, v)
    case Failure(e) => Failure(e)
    case Success(corr) =>
      match ArgMax(corr)
      case Failure(e) => Failure(e)
      case Success(i) => Success(i - (|r1| - 1))
  }

  /** For equal lengths the estimated delay is the first best lag of the
      centred correlation; in general it is that lag shifted by |r1| - |r2|. */
  lemma EstimateDelayIsBestLag(r1: seq<Complex>, r2: seq<Complex>)
    requires r1 != [] && r2 != []
    ensures IsBestLag(Center(r1), Center(r2), EstimateDelay(r1, r2).value + |r1| - |r2|)
  {
    var a, v := Center(r1), Center(r2);
    var corr := CorrelateFull(a, v).value;
    BestLagFromPeak(a, v, corr, ArgMax(corr).value);
  }

  lemma BestLagFromPeak(a: seq<Complex>, v: seq<Complex>, corr: seq<Complex>, i: int)
    requires a != [] && v != [] && CorrelateFull(a, v) == Success(corr)
    requires IsFirstMax(corr, i)
    ensures IsBestLag(a, v, i - (|v| - 1))
  {
    var k := i - (|v| - 1);
    forall k' | -(|v| - 1) <= k' <= |a| - 1
      ensures LessEq(CorrAt(a, v, k'), CorrAt(a, v, k))
    {
      assert corr[k' + |v| - 1] == CorrAt(a, v, k');
    }
    forall k' | -(|v| - 1) <= k' < k
      ensures Less(CorrAt(a, v, k'), CorrAt(a, v, k))
    {
      assert corr[k' + |v| - 1] == CorrAt(a, v, k');
    }
  }

  /** Adding a constant to every sample of either receiver changes neither
      the centred correlation profile nor the estimated delay. */
  lemma DelayOffsetInvariant(r1: seq<Complex>, r2: seq<Complex>, c1: Complex, c2: Complex)
    ensures EstimateDelay(Offset(r1, c1), Offset(r2, c2)) == EstimateDelay(r1, r2)
  {
    CenterOffsetInvariant(r1, c1);
    CenterOffsetInvariant(r2, c2);
  }

  /** If either receiver is flat, its centred samples are all zero and so is
      the whole correlation profile. */
  lemma FlatProfile(r1: seq<Complex>, r2: seq<Complex>)
    requires r1 != [] && r2 != []
    requires IsConstant(r1) || IsConstant(r2)
    ensures AllZero(CorrelateFull(Center(r1), Center(r2)).value)
  {
    if IsConstant(r1) {
      CenterConstant(r1);
    } else {
      CenterConstant(r2);
    }
    CorrelateZero(Center(r1), Center(r2));
  }

  /** On a flat profile the first index wins: lag -(|r1| - 1). */
  lemma FlatProfileLag(r1: seq<Complex>, r2: seq<Complex>)
    requires r1 != [] && r2 != []
    requires IsConstant(r1) || IsConstant(r2)
    ensures EstimateDelay(r1, r2) == Success(-(|r1| - 1))
  {
    var corr := CorrelateFull(Center(r1), Center(r2)).value;
    FlatProfile(r1, r2);
    ArgMaxFlat(corr);
  }

  /** What one run of the pipeline computes. */
  datatype Alignment = Alignment(
    lag: int,               // the estimated delay
    shift: int,             // the shift handed to np.roll
    delayed: seq<Complex>,  // the first receiver after the delay correction
    meanDelayed: Complex,   // its mean, whose angle is phase_1
    meanOther: Complex,     // the second receiver's mean, whose angle is phase_2
    corrected: seq<Complex> // the first receiver after both corrections
  )

  /** The delay correction by `shift`, then the phase correction by the
      factor `phase` gives for the two means. */
  function Correct(r1: seq<Complex>, r2: seq<Complex>, lag: int, shift: int,
                   phase: (Complex, Complex) -> Complex): (al: Alignment)
    requires r1 != [] && r2 != []
    ensures al.lag == lag && al.shift == shift && al.delayed == Roll(r1, shift)
    ensures al.meanDelayed == Mean(r1) && al.meanOther == Mean(r2)
    ensures al.corrected == Scale(al.delayed, phase(Mean(r1), Mean(r2)))
  {
    var delayed := Roll(r1, shift);
    var m1, m2 := Mean(delayed), Mean(r2);
    MeanRoll(r1, shift);
    Alignment(lag, shift, delayed, m1, m2, Scale(delayed, phase(m1, m2)))
  }

  /** The corrections only move and rotate samples: the delayed receiver is a
      permutation of the first, the two corrections commute, and the mean of
      the result is the first mean times the phase factor. */
  lemma CorrectKeepsSamples(r1: seq<Complex>, r2: seq<Complex>, lag: int, shift: int,
                            phase: (Complex, Complex) -> Complex)
    requires r1 != [] && r2 != []
    ensures multiset(Correct(r1, r2, lag, shift, phase).delayed) == multiset(r1)
    ensures Correct(r1, r2, lag, shift, phase).corrected
         == Roll(Scale(r1, phase(Mean(r1), Mean(r2))), shift)
    ensures Mean(Correct(r1, r2, lag, shift, phase).corrected)
         == Mul(Mean(r1), phase(Mean(r1), Mean(r2)))
  {
    var al := Correct(r1, r2, lag, shift, phase);
    var c := phase(Mean(r1), Mean(r2));
    RollPermutation(r1, shift);
    MeanRoll(r1, shift);
    RollScaleCommute(r1, c, shift);
    MeanScale(al.delayed, c);
  }

  /** The pipeline as the script writes it: `r_1 = np.roll(r_1, lag)`. */
  function AlignAsWritten(r1: seq<Complex>, r2: seq<Complex>,
                          phase: (Complex, Complex) -> Complex): (res: Result<Alignment>)
    ensures res.Failure? <==> r1 == [] || r2 == []
    ensures res.Success? ==> EstimateDelay(r1, r2) == Success(res.value.lag)
    ensures res.Success? ==> res.value.shift == res.value.lag
    ensures res.Success? ==> res.value.delayed == Roll(r1, res.value.shift)
    ensures res.Success? ==> res.value.corrected == Scale(res.value.delayed, phase(Mean(r1), Mean(r2)))
  {
    var est := EstimateDelay(r1, r2);
    if est.Failure? then Failure(est.error)
    else Success(Correct(r1, r2, est.value, est.value, phase))
  }

  /** The pipeline with the delay correction rolled the other way,
      `r_1 = np.roll(r_1, -lag)`, which moves r_1 onto r_2. */
  function Align(r1: seq<Complex>, r2: seq<Complex>,
                 phase: (Complex, Complex) -> Complex): (res: Result<Alignment>)
    ensures res.Failure? <==> r1 == [] || r2 == []
    ensures res.Success? ==> EstimateDelay(r1, r2) == Success(res.value.lag)
    ensures res.Success? ==> res.value.shift == -res.value.lag
    ensures res.Success? ==> res.value.delayed == Roll(r1, res.value.shift)
    ensures res.Success? ==> res.value.corrected == Scale(res.value.delayed, phase(Mean(r1), Mean(r2)))
  {
    var est := EstimateDelay(r1, r2);
    if est.Failure? then Failure(est.error)
    else Success(Correct(r1, r2, est.value, -est.value, phase))
  }

  /** Without noise the two means differ by exactly the injected factor, which
      is what the comparison of their angles recovers. */
  lemma NoiseFreeMeans(s: seq<Complex>, d: int, c: Complex)
    requires s != []
    ensures Mean(Received(s, d, c)) == Mul(Mean(s), c)
  {
    MeanRoll(Scale(s, c), d);
    MeanScale(s, c);
  }

  lemma ModNegate(a: int, n: int)
    requires n > 0 && a % n == 0
    ensures (-a) % n == 0
  {
    ModUnique(-a, n, -(a / n), 0);
  }

  /** Once the delay is estimated, Align is the correction by -lag. */
  lemma AlignIs(r1: seq<Complex>, r2: seq<Complex>, phase: (Complex, Complex) -> Complex, lag: int)
    requires r1 != [] && r2 != [] && EstimateDelay(r1, r2) == Success(lag)
    ensures Align(r1, r2, phase) == Success(Correct(r1, r2, lag, -lag, phase))
  {
  }

  /** A shift of -lag is congruent to d when lag is congruent to -d. */
  lemma ShiftUndoesLag(lag: int, d: int, n: int, shift: int)
    requires n > 0 && (lag + d) % n == 0 && shift == -lag
    ensures (shift - d) % n == 0
  {
    ModNegate(lag + d, n);
    assert shift - d == -(lag + d);
  }

  /** Rolling by any shift congruent to d modulo N, then scaling by the
      injected factor, reproduces the second receiver. */
  lemma CorrectedRolls(s: seq<Complex>, shift: int, d: int, c: Complex)
    requires s != [] && (shift - d) % |s| == 0
    ensures Scale(Roll(s, shift), c) == Received(s, d, c)
  {
    RollCongruent(s, shift, d);
    RollScaleCommute(s, c, d);
  }

  /** When lag = -d modulo N, rolling by lag and scaling lands 2d short of
      the second receiver. */
  lemma OvershotRolls(s: seq<Complex>, lag: int, d: int, c: Complex)
    requires s != [] && (lag + d) % |s| == 0
    ensures Scale(Roll(s, lag), c) == Roll(Received(s, d, c), -2 * d)
  {
    assert lag - (d + -2 * d) == lag + d;
    RollCongruent(s, lag, d + -2 * d);
    RollCompose(s, d, -2 * d);
    RollScaleCommute(s, c, d);
    RollScaleCommute(Roll(s, d), c, -2 * d);
  }

  /** If the correlation peak sits at the injected lag (-d mod N) and the
      phase factor equals the injected one, the corrected pipeline returns
      the second receiver exactly. */
  lemma AlignUndoesInjection(s: seq<Complex>, d: int, c: Complex, lag: int,
                             phase: (Complex, Complex) -> Complex)
    requires s != []
    requires phase(Mean(s), Mean(Received(s, d, c))) == c
    requires EstimateDelay(s, Received(s, d, c)) == Success(lag)
    requires (lag + d) % |s| == 0
    ensures Align(s, Received(s, d, c), phase).value.corrected == Received(s, d, c)
  {
    var r2 := Received(s, d, c);
    ShiftUndoesLag(lag, d, |s|, -lag);
    CorrectedRolls(s, -lag, d, c);
    AlignIs(s, r2, phase, lag);
  }

  /** As written, under the same conditions the first receiver ends up rolled
      by -2d against the second: the delay correction turns the wrong way. */
  lemma AsWrittenOvershoots(s: seq<Complex>, d: int, c: Complex, lag: int,
                            phase: (Complex, Complex) -> Complex)
    requires s != []
    requires phase(Mean(s), Mean(Received(s, d, c))) == c
    requires EstimateDelay(s, Received(s, d, c)) == Success(lag)
    requires (lag + d) % |s| == 0
    ensures AlignAsWritten(s, Received(s, d, c), phase).value.corrected == Roll(Received(s, d, c), -2 * d)
  {
    var r2 := Received(s, d, c);
    var al := AlignAsWritten(s, r2, phase).value;
    assert al.shift == lag;
    OvershotRolls(s, lag, d, c);
  }
}
