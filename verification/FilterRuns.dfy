/** What holds of `TimestampSync` over every sequence of samples. */
module FilterRuns {
  import opened Kalman
  import opened TimestampSync

  const FIRST_BUDGET := -100
  const MAX_BUDGET := 40

  /** The filter after a sequence of samples. */
  function Run(f: Filter, samples: seq<Sample>): Filter
    requires Healthy(f)
    ensures Healthy(Run(f, samples))
    decreases |samples|
  {
    if samples == [] then f else
    ConvertKeepsHealth(f, samples[0]);
    Run(Convert(f, samples[0]), samples[1..])
  }

  /** Which samples were accepted. */
  function Verdicts(f: Filter, samples: seq<Sample>): (v: seq<bool>)
    requires Healthy(f)
    ensures |v| == |samples|
    decreases |samples|
  {
    if samples == [] then [] else
    ConvertKeepsHealth(f, samples[0]);
    [Accepts(f, samples[0])] + Verdicts(Convert(f, samples[0]), samples[1..])
  }

  /** The timestamps returned. */
  function Outputs(f: Filter, samples: seq<Sample>): (v: seq<int>)
    requires Healthy(f)
    ensures |v| == |samples|
    decreases |samples|
  {
    if samples == [] then [] else
    ConvertKeepsHealth(f, samples[0]);
    [Convert(f, samples[0]).estLocal] + Outputs(Convert(f, samples[0]), samples[1..])
  }

  // ---------------------------------------------------------------- covariance

  /** For every sequence of samples from a freshly tuned filter the covariance stays
      positive definite and the outlier threshold positive. */
  lemma CovarianceStaysPositive(f: Filter, nativeFreq: real, localFreq: real, samples: seq<Sample>)
    requires nativeFreq != 0.0 && localFreq != 0.0 && Tuned(f, nativeFreq, localFreq)
    ensures Healthy(f)
    ensures PositiveDefinite(Run(f, samples).cov)
    ensures Run(f, samples).avgDeviationSquare > 0.0
  {
    hide PositiveDefinite, Tuned;
    TunedIsHealthy(f, nativeFreq, localFreq);
  }

  /** An accepted sample multiplies the determinant by exactly R / (R + p1) and leaves
      p1 below R; a time update alone raises the determinant. */
  lemma DeterminantOfAStep(f: Filter, s: Sample)
    requires Healthy(f)
    ensures Det(Predicted(f, s).cov) > Det(f.cov)
    ensures var p, r := Predicted(f, s).cov, f.measurementNoise;
      Accepts(f, s) ==>
        r + p.p1 > 0.0 && Det(Convert(f, s).cov) == Det(p) * (r / (r + p.p1)) && Convert(f, s).cov.p1 < r
    ensures !Accepts(f, s) ==> Det(Convert(f, s).cov) == Det(Predicted(f, s).cov)
  {
    hide PositiveDefinite, ScalarTimeUpdate, Corrected, Det;
    TimeUpdateKeepsPositive(f.cov, s.native - Started(f, s).lastNative, f.localNoise, f.gainNoise);
    ConvertKeepsHealth(f, s);
    InnovationIsPositive(f, s);
    var p := Predicted(f, s);
    MeasurementUpdateKeepsPositive(p.cov, p.measurementNoise);
    CorrectedCovariance(p, DeltaL(f, s) as real);
  }

  // ---------------------------------------------------------------- outlier budget

  predicate BudgetInRange(f: Filter) {
    FIRST_BUDGET <= f.budget <= MAX_BUDGET
  }

  lemma BudgetOfAStep(f: Filter, s: Sample)
    requires Healthy(f)
    ensures var b, c := f.budget, Convert(f, s).budget;
      if Accepts(f, s) then c == (if b < MAX_BUDGET then b + 1 else MAX_BUDGET) else b >= 0 && c == b - 2
  {
    hide PositiveDefinite, ScalarTimeUpdate, ScalarUpdateBy, WholeUnits, BelowThreshold;
    InnovationIsPositive(f, s);
  }

  lemma {:induction false} BudgetStaysInRange(f: Filter, samples: seq<Sample>)
    requires Healthy(f) && BudgetInRange(f)
    ensures BudgetInRange(Run(f, samples))
    decreases |samples|
  {
    hide Healthy, Convert, Accepts;
    if samples != [] {
      ConvertKeepsHealth(f, samples[0]);
      BudgetOfAStep(f, samples[0]);
      BudgetStaysInRange(Convert(f, samples[0]), samples[1..]);
    }
  }

  /** The first 100 samples are accepted, whatever they are. */
  lemma {:induction false} WarmUpAccepts(f: Filter, samples: seq<Sample>)
    requires Healthy(f) && FIRST_BUDGET <= f.budget && f.budget + |samples| <= 0
    ensures forall i | 0 <= i < |samples| :: Verdicts(f, samples)[i]
    ensures Run(f, samples).budget == f.budget + |samples|
    decreases |samples|
  {
    if samples != [] {
      ConvertKeepsHealth(f, samples[0]);
      BudgetOfAStep(f, samples[0]);
      WarmUpAccepts(Convert(f, samples[0]), samples[1..]);
    }
  }

  function Count(v: seq<bool>, b: bool): nat {
    if v == [] then 0 else (if v[0] == b then 1 else 0) + Count(v[1..], b)
  }

  /** The budget as a potential: an acceptance adds at most one, a rejection takes two,
      and it cannot fall below -2 once it is above. */
  lemma {:induction false} BudgetIsPotential(f: Filter, samples: seq<Sample>)
    requires Healthy(f) && BudgetInRange(f)
    ensures var v := Verdicts(f, samples);
      && Run(f, samples).budget <= f.budget + Count(v, true) - 2 * Count(v, false)
      && (Run(f, samples).budget >= -2 || Run(f, samples).budget >= f.budget)
    decreases |samples|
  {
    if samples != [] {
      ConvertKeepsHealth(f, samples[0]);
      BudgetOfAStep(f, samples[0]);
      var g := Convert(f, samples[0]);
      BudgetIsPotential(g, samples[1..]);
      assert Verdicts(f, samples)[1..] == Verdicts(g, samples[1..]);
    }
  }

  lemma {:induction false} CountOfConstant(v: seq<bool>, b: bool)
    requires forall i | 0 <= i < |v| :: v[i] == b
    ensures Count(v, b) == |v| && Count(v, !b) == 0
  {
    if v != [] {
      CountOfConstant(v[1..], b);
    }
  }

  /** Over any window of any run, twice the rejections are at most the acceptances
      and 42; so at most 21 samples in a row are rejected. */
  lemma OutlierBudgetBound(f: Filter, before: seq<Sample>, window: seq<Sample>)
    requires Healthy(f) && f.budget == FIRST_BUDGET
    ensures BudgetInRange(Run(f, before))
    ensures var v := Verdicts(Run(f, before), window);
      && 2 * Count(v, false) <= Count(v, true) + 42
      && ((forall i | 0 <= i < |v| :: !v[i]) ==> |window| <= 21)
  {
    BudgetStaysInRange(f, before);
    var g := Run(f, before);
    var v := Verdicts(g, window);
    BudgetIsPotential(g, window);
    if forall i | 0 <= i < |v| :: !v[i] {
      CountOfConstant(v, false);
    }
  }

  /** The threshold grows by a factor below 1.08 on a sample that passed the test. */
  lemma ThresholdGrowth(f: Filter, s: Sample)
    requires Healthy(f) && BelowThreshold(f, s)
    ensures 0.0 < Convert(f, s).avgDeviationSquare < 1.08 * f.avgDeviationSquare
  {
    hide PositiveDefinite, ScalarTimeUpdate, ScalarUpdateBy, WholeUnits, Square;
    ConvertKeepsHealth(f, s);
    InnovationIsPositive(f, s);
  }

  // ---------------------------------------------------------------- monotone native clocks

  /** The sample is not earlier, on the native clock, than the one before it. */
  predicate NotEarlier(f: Filter, s: Sample) {
    f.events == 0 || f.lastNative <= s.native
  }

  predicate NativeOrdered(samples: seq<Sample>) {
    forall i | 0 < i < |samples| :: samples[i - 1].native <= samples[i].native
  }

  lemma CrossCovarianceOfAStep(f: Filter, s: Sample)
    requires Healthy(f) && f.cov.p2 >= 0.0 && NotEarlier(f, s)
    ensures Predicted(f, s).cov.p2 >= 0.0 && Convert(f, s).cov.p2 >= 0.0
    ensures Convert(f, s).lastNative == s.native
  {
    hide PositiveDefinite, WholeUnits, Corrected, Accepts;
    ConvertKeepsHealth(f, s);
    InnovationIsPositive(f, s);
    PositiveGainVariance(f.cov);
    var p, dt := Predicted(f, s), s.native - Started(f, s).lastNative;
    NonnegativeProduct(dt, f.cov.p3, dt * f.cov.p3);
    PositiveVariance(p.cov);
    GainIsProper(p.cov, p.measurementNoise);
    CorrectedCovariance(p, DeltaL(f, s) as real);
    MeasuredCross(p.cov, p.measurementNoise);
  }

  lemma PositiveGainVariance(p: Cov)
    requires PositiveDefinite(p)
    ensures p.p3 > 0.0
  {
  }

  lemma MeasuredCross(p: Cov, r: real)
    requires p.p1 > 0.0 && r > 0.0 && p.p2 >= 0.0
    ensures ScalarMeasurementUpdate(p, r).p2 >= 0.0
  {
    GainIsProper(p, r);
    MeasuredByGain(p, r);
    var k := Gain(p, r);
    NonnegativeProduct(r, k.y, r * k.y);
  }

  lemma {:induction false} CrossCovarianceStaysNonnegative(f: Filter, samples: seq<Sample>)
    requires Healthy(f) && f.cov.p2 >= 0.0 && NativeOrdered(samples)
    requires samples != [] ==> NotEarlier(f, samples[0])
    ensures Run(f, samples).cov.p2 >= 0.0
    ensures samples != [] ==> Run(f, samples).lastNative == samples[|samples| - 1].native
    decreases |samples|
  {
    hide Convert, Healthy;
    if samples != [] {
      ConvertKeepsHealth(f, samples[0]);
      CrossCovarianceOfAStep(f, samples[0]);
      CrossCovarianceStaysNonnegative(Convert(f, samples[0]), samples[1..]);
    }
  }

  /** With native times that never decrease, the gain never moves against the
      deviation of the sample, in any run. */
  lemma GainFollowsDeviation(f: Filter, samples: seq<Sample>, s: Sample)
    requires Healthy(f) && f.events == 0 && f.cov.p2 >= 0.0 && NativeOrdered(samples + [s])
    ensures var g := Run(f, samples);
      && g.cov.p2 >= 0.0
      && (DeltaL(g, s) >= 0 ==> Convert(g, s).estGain >= g.estGain)
      && (DeltaL(g, s) <= 0 ==> Convert(g, s).estGain <= g.estGain)
  {
    var all := samples + [s];
    forall i | 0 < i < |samples|
      ensures samples[i - 1].native <= samples[i].native
    {
      assert all[i - 1].native <= all[i].native;
    }
    CrossCovarianceStaysNonnegative(f, samples);
    if samples != [] {
      assert all[|samples| - 1].native <= all[|samples|].native;
    }
    GainStepFollows(Run(f, samples), s);
  }

  lemma GainStepFollows(f: Filter, s: Sample)
    requires Healthy(f) && f.cov.p2 >= 0.0 && NotEarlier(f, s)
    ensures DeltaL(f, s) >= 0 ==> Convert(f, s).estGain >= f.estGain
    ensures DeltaL(f, s) <= 0 ==> Convert(f, s).estGain <= f.estGain
  {
    hide PositiveDefinite, ScalarTimeUpdate, Corrected, MeasurementUpdate, Gain, Accepts;
    ConvertKeepsHealth(f, s);
    CrossCovarianceOfAStep(f, s);
    CorrectionIsMatrixForm(f, s);
    var p, d := Predicted(f, s), DeltaL(f, s) as real;
    PositiveVariance(p.cov);
    GainIsProper(p.cov, f.measurementNoise);
    var k := Gain(p.cov, f.measurementNoise);
    if d >= 0.0 {
      NonnegativeProduct(k.y, d, k.y * d);
    } else {
      NonnegativeProduct(k.y, -d, -(k.y * d));
    }
    if d == 0.0 {
      assert k.y * d == 0.0;
    }
  }

  // ---------------------------------------------------------------- exact clocks

  /** local = offset + gain * native, with whole increments of the local time. */
  predicate AffineClock(gain: real, samples: seq<Sample>) {
    forall i | 0 < i < |samples| :: OnStep(gain, samples[i - 1], samples[i])
  }

  /** If the local clock is an affine image of the native clock with whole increments
      and the initial gain is exact, every timestamp returned equals the local one. */
  lemma {:induction false} ExactClockIsReproduced(f: Filter, samples: seq<Sample>)
    requires Healthy(f) && AffineClock(f.estGain, samples)
    requires samples != [] ==> OnClock(f, samples[0])
    ensures forall i | 0 <= i < |samples| :: Outputs(f, samples)[i] == samples[i].local
    ensures Run(f, samples).estGain == f.estGain
    decreases |samples|
  {
    hide Convert, Healthy, OnClock, AffineClock;
    if samples != [] {
      ConvertKeepsHealth(f, samples[0]);
      StepOnClock(f, samples[0]);
      var g := Convert(f, samples[0]);
      RestOnClock(g, samples);
      ExactClockIsReproduced(g, samples[1..]);
      assert Outputs(f, samples) == [g.estLocal] + Outputs(g, samples[1..]);
    }
  }

  lemma RestOnClock(g: Filter, samples: seq<Sample>)
    requires samples != [] && AffineClock(g.estGain, samples)
    requires g.estLocal == samples[0].local && g.lastNative == samples[0].native
    ensures AffineClock(g.estGain, samples[1..])
    ensures |samples| > 1 ==> OnClock(g, samples[1])
  {
    hide OnStep;
    var rest := samples[1..];
    forall i | 0 < i < |rest|
      ensures OnStep(g.estGain, rest[i - 1], rest[i])
    {
      assert rest[i] == samples[i + 1] && rest[i - 1] == samples[i];
    }
    if |samples| > 1 {
      assert OnStep(g.estGain, samples[0], samples[1]);
      assert samples[0] == Sample(g.lastNative, g.estLocal);
    }
  }
}
