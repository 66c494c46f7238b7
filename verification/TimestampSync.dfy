/** `TimestampSync`: maps a sensor's clock to the local clock with a Kalman filter
    and an outlier gate. Doubles are real numbers and timestamps are integers. */
module TimestampSync {
  import opened Kalman

  const EVENTS_MODULUS: nat := 0x1_0000_0000   // m_events is a 32-bit unsigned

  const LOCAL_NOISE := 0.001
  const GAIN_NOISE := 0.0001
  const MEASUREMENT_NOISE := 0.03
  const DEVIATION_WEIGHT := 0.01

  /** Conversion of a double to an integer drops the fraction. */
  function Truncate(x: real): int {
    if x >= 0.0 then x.Floor else -((-x).Floor)
  }

  /** The whole units in a product of doubles. */
  function WholeUnits(rate: real, span: real): int {
    Truncate(rate * span)
  }

  function Square(x: real): real {
    x * x
  }

  // ---------------------------------------------------------------- specification

  datatype Filter = Filter(
    events: nat, lastNative: real,
    localNoise: real, gainNoise: real, measurementNoise: real,
    estLocal: int, estGain: real, cov: Cov,
    budget: int, avgDeviationSquare: real)

  datatype Sample = Sample(native: real, local: int)

  /** What `setFrequency` establishes. */
  predicate Tuned(f: Filter, nativeFreq: real, localFreq: real)
    requires nativeFreq != 0.0
  {
    && f.estGain == localFreq / nativeFreq
    && f.localNoise == Square(LOCAL_NOISE * localFreq)
    && f.gainNoise == Square(GAIN_NOISE * f.estGain)
    && f.measurementNoise == Square(MEASUREMENT_NOISE * localFreq)
    && f.cov == Cov(Square(localFreq), 0.0, Square(10.0 * f.estGain))
    && f.avgDeviationSquare == Square(0.001 * localFreq)
  }

  /** The filter is in working order: noises positive, covariance positive definite,
      outlier threshold positive. */
  predicate Healthy(f: Filter) {
    && f.localNoise > 0.0 && f.gainNoise > 0.0 && f.measurementNoise > 0.0
    && PositiveDefinite(f.cov)
    && f.avgDeviationSquare > 0.0
  }

  /** On the first event the filter starts at the sample itself. */
  function Started(f: Filter, s: Sample): Filter {
    if f.events == 0 then f.(lastNative := s.native, estLocal := s.local) else f
  }

  /** The state carried forward by a native time step. */
  function Advanced(g: Filter, dt: real): Filter {
    g.(estLocal := g.estLocal + WholeUnits(dt, g.estGain),
       cov := ScalarTimeUpdate(g.cov, dt, g.localNoise, g.gainNoise))
  }

  function Predicted(f: Filter, s: Sample): Filter {
    Advanced(Started(f, s), s.native - Started(f, s).lastNative)
  }

  function DeltaL(f: Filter, s: Sample): int {
    s.local - Predicted(f, s).estLocal
  }

  predicate BelowThreshold(f: Filter, s: Sample) {
    Square(DeltaL(f, s) as real) < f.avgDeviationSquare * 9.0
  }

  predicate Accepts(f: Filter, s: Sample) {
    BelowThreshold(f, s) || f.budget < 0
  }

  function Smoothed(average: real, x: real): real {
    average + (x - average) * DEVIATION_WEIGHT
  }

  /** The measurement taken in with gains k1 and k2; d is the deviation of the sample
      from the prediction. */
  function CorrectedBy(p: Filter, d: real, k1: real, k2: real): Filter {
    p.(estLocal := p.estLocal + WholeUnits(k1, d),
       estGain := p.estGain + k2 * d,
       cov := ScalarUpdateBy(p.cov, p.measurementNoise, k1, k2),
       avgDeviationSquare := if p.events > 50 then Smoothed(p.avgDeviationSquare, Square(d))
                             else p.avgDeviationSquare,
       budget := if p.budget + 1 < 40 then p.budget + 1 else 40)
  }

  function Corrected(p: Filter, d: real): Filter
    requires p.measurementNoise + p.cov.p1 != 0.0
  {
    CorrectedBy(p, d, p.cov.p1 / (p.measurementNoise + p.cov.p1), p.cov.p2 / (p.measurementNoise + p.cov.p1))
  }

  lemma CorrectedWith(p: Filter, d: real, k1: real, k2: real)
    requires p.measurementNoise + p.cov.p1 != 0.0
    requires k1 == p.cov.p1 / (p.measurementNoise + p.cov.p1)
    requires k2 == p.cov.p2 / (p.measurementNoise + p.cov.p1)
    ensures Corrected(p, d) == CorrectedBy(p, d, k1, k2)
  {
  }

  function Measured(f: Filter, s: Sample): Filter
    requires Innovation(Predicted(f, s).cov, f.measurementNoise) != 0.0
  {
    Corrected(Predicted(f, s), DeltaL(f, s) as real)
  }

  function Rejected(f: Filter, s: Sample): Filter {
    Predicted(f, s).(budget := f.budget - 2)
  }

  function Counted(f: Filter, s: Sample): Filter {
    f.(lastNative := s.native, events := (f.events + 1) % EVENTS_MODULUS)
  }

  function Convert(f: Filter, s: Sample): Filter
    requires Healthy(f)
  {
    InnovationIsPositive(f, s);
    Counted(if Accepts(f, s) then Measured(f, s) else Rejected(f, s), s)
  }

  lemma InnovationIsPositive(f: Filter, s: Sample)
    requires Healthy(f)
    ensures Innovation(Predicted(f, s).cov, f.measurementNoise) > 0.0
  {
    TimeUpdateKeepsPositive(f.cov, s.native - Started(f, s).lastNative, f.localNoise, f.gainNoise);
  }

  lemma CorrectedKeepsHealth(p: Filter, d: real)
    requires Healthy(p)
    ensures p.measurementNoise + p.cov.p1 > 0.0 && Healthy(Corrected(p, d))
  {
    hide PositiveDefinite;
    PositiveVariance(p.cov);
    var r := p.measurementNoise;
    CorrectedCovariance(p, d);
    MeasurementUpdateKeepsPositive(p.cov, r);
    SquareIsNotNegative(d, Square(d));
  }

  lemma PositiveVariance(p: Cov)
    requires PositiveDefinite(p)
    ensures p.p1 > 0.0
  {
  }

  lemma CorrectedCovariance(p: Filter, d: real)
    requires p.measurementNoise + p.cov.p1 != 0.0
    ensures Corrected(p, d).cov == ScalarMeasurementUpdate(p.cov, p.measurementNoise)
  {
    hide ScalarUpdateBy;
  }

  lemma PredictedIsHealthy(f: Filter, s: Sample)
    requires Healthy(f)
    ensures Healthy(Predicted(f, s))
  {
    hide PositiveDefinite, ScalarTimeUpdate;
    TimeUpdateKeepsPositive(f.cov, s.native - Started(f, s).lastNative, f.localNoise, f.gainNoise);
  }

  /** Every step leaves the filter in working order. */
  lemma ConvertKeepsHealth(f: Filter, s: Sample)
    requires Healthy(f)
    ensures Healthy(Predicted(f, s))
    ensures Healthy(Convert(f, s))
  {
    hide PositiveDefinite, ScalarTimeUpdate, Corrected;
    InnovationIsPositive(f, s);
    PredictedIsHealthy(f, s);
    CorrectedKeepsHealth(Predicted(f, s), DeltaL(f, s) as real);
  }

  /** The time update is the Kalman filter's: x = F x, up to the truncation of the
      local time, and P = F P F^T + Q. */
  lemma PredictionIsMatrixForm(f: Filter, s: Sample)
    requires Healthy(f)
    ensures var g, p := Started(f, s), Predicted(f, s);
      && Full(p.cov) == TimeUpdate(f.cov, s.native - g.lastNative, f.localNoise, f.gainNoise)
      && p.estLocal == g.estLocal + WholeUnits(s.native - g.lastNative, f.estGain)
      && p.estGain == f.estGain
  {
    TimeUpdateIsMatrixForm(f.cov, s.native - Started(f, s).lastNative, f.localNoise, f.gainNoise);
  }

  lemma GainQuotients(p: Cov, r: real)
    requires r + p.p1 != 0.0
    ensures Gain(p, r).x == p.p1 / (r + p.p1) && Gain(p, r).y == p.p2 / (r + p.p1)
  {
  }

  lemma CorrectedIsMatrixForm(p: Filter, d: real, k: Vec)
    requires Innovation(p.cov, p.measurementNoise) != 0.0 && k == Gain(p.cov, p.measurementNoise)
    ensures Full(Corrected(p, d).cov) == MeasurementUpdate(p.cov, k)
    ensures Corrected(p, d).estLocal == p.estLocal + WholeUnits(k.x, d)
    ensures Corrected(p, d).estGain == p.estGain + k.y * d
  {
    hide MeasurementUpdate, Corrected, ScalarUpdateBy, ScalarMeasurementUpdate, Smoothed, Square, WholeUnits;
    CorrectedCovariance(p, d);
    MeasurementUpdateIsMatrixForm(p.cov, p.measurementNoise);
    GainQuotients(p.cov, p.measurementNoise);
    CorrectedWith(p, d, k.x, k.y);
  }

  /** An accepted sample is taken in as the Kalman filter does: x = x + K d, up to the
      truncation of the local time, and P = (I - K H) P; a rejected one changes neither. */
  lemma CorrectionIsMatrixForm(f: Filter, s: Sample)
    requires Healthy(f)
    ensures Innovation(Predicted(f, s).cov, f.measurementNoise) > 0.0
    ensures var p, c := Predicted(f, s), Convert(f, s);
      var k, d := Gain(p.cov, f.measurementNoise), DeltaL(f, s) as real;
      if Accepts(f, s) then
        && Full(c.cov) == MeasurementUpdate(p.cov, k)
        && c.estLocal == p.estLocal + WholeUnits(k.x, d)
        && c.estGain == p.estGain + k.y * d
      else
        c.cov == p.cov && c.estLocal == p.estLocal && c.estGain == p.estGain
  {
    hide Corrected, Accepts, DeltaL, MeasurementUpdate, Gain, ScalarTimeUpdate;
    InnovationIsPositive(f, s);
    CorrectedIsMatrixForm(Predicted(f, s), DeltaL(f, s) as real, Gain(Predicted(f, s).cov, f.measurementNoise));
  }

  // ---------------------------------------------------------------- a step in its own terms

  /** n is the product of rate and span without its fraction. */
  predicate IsWhole(n: int, rate: real, span: real) {
    var x := rate * span;
    if x >= 0.0 then n as real <= x < n as real + 1.0 else n as real - 1.0 < x <= n as real
  }

  lemma WholeUnitsAre(rate: real, span: real, n: int)
    ensures IsWhole(n, rate, span) <==> WholeUnits(rate, span) == n
  {
  }

  /** Each sample is counted, and the next step is measured from it. */
  lemma StepCounts(f: Filter, s: Sample)
    requires Healthy(f)
    ensures var c := Convert(f, s);
      && c.events == (f.events + 1) % 0x1_0000_0000 && c.lastNative == s.native
      && c.localNoise == f.localNoise && c.gainNoise == f.gainNoise && c.measurementNoise == f.measurementNoise
  {
    hide PositiveDefinite, ScalarTimeUpdate, ScalarUpdateBy, WholeUnits, Smoothed, Accepts;
    InnovationIsPositive(f, s);
  }

  /** The prediction carries the last estimate forward by the whole units of the native
      time passed; the first sample is its own prediction. */
  lemma StepPredicts(f: Filter, s: Sample, n: int)
    requires IsWhole(n, s.native - (if f.events == 0 then s.native else f.lastNative), f.estGain)
    ensures Predicted(f, s).estLocal == (if f.events == 0 then s.local else f.estLocal) + n
  {
    hide WholeUnits, IsWhole, ScalarTimeUpdate;
    WholeUnitsAre(s.native - (if f.events == 0 then s.native else f.lastNative), f.estGain, n);
  }

  /** Which samples are taken: all while the budget is negative, and those less than three
      root-mean-square deviations off the prediction. */
  lemma StepGates(f: Filter, s: Sample, n: int)
    requires Healthy(f)
    requires IsWhole(n, s.native - (if f.events == 0 then s.native else f.lastNative), f.estGain)
    ensures var d := (s.local - (if f.events == 0 then s.local else f.estLocal) - n) as real;
      && Accepts(f, s) == (f.budget < 0 || d * d < 9.0 * f.avgDeviationSquare)
      && DeltaL(f, s) as real == d
  {
    StepPredicts(f, s, n);
    hide Predicted, IsWhole, PositiveDefinite;
    var d := DeltaL(f, s) as real;
    assert Square(d) == d * d;
  }

  lemma StepSpends(f: Filter, s: Sample)
    requires Healthy(f)
    ensures var c := Convert(f, s);
      && c.budget == (if !Accepts(f, s) then f.budget - 2 else if f.budget >= 40 then 40 else f.budget + 1)
      && (!Accepts(f, s) ==>
            c.estLocal == Predicted(f, s).estLocal && c.estGain == f.estGain
            && c.avgDeviationSquare == f.avgDeviationSquare)
  {
    hide PositiveDefinite, ScalarTimeUpdate, ScalarUpdateBy, WholeUnits, Smoothed, Accepts;
    InnovationIsPositive(f, s);
  }

  /** From the 52nd sample on, an accepted one moves the average square deviation a
      hundredth of the way to its own. */
  lemma StepAverages(f: Filter, s: Sample)
    requires Healthy(f) && Accepts(f, s)
    ensures var d, change := DeltaL(f, s) as real, Convert(f, s).avgDeviationSquare - f.avgDeviationSquare;
      if f.events > 50 then 100.0 * change == d * d - f.avgDeviationSquare else change == 0.0
  {
    hide PositiveDefinite, ScalarTimeUpdate, ScalarUpdateBy, WholeUnits, Smoothed, Square, Accepts;
    InnovationIsPositive(f, s);
    var d := DeltaL(f, s) as real;
    SmoothedByHundredth(f.avgDeviationSquare, d);
  }

  lemma SmoothedByHundredth(average: real, d: real)
    ensures 100.0 * (Smoothed(average, Square(d)) - average) == d * d - average
  {
  }

  /** The spread of the prediction after a native time step dt. */
  lemma StepSpreads(f: Filter, s: Sample, dt: real)
    requires dt == s.native - (if f.events == 0 then s.native else f.lastNative)
    ensures var p, q := f.cov, Predicted(f, s).cov;
      && q.p1 == p.p1 + 2.0 * dt * p.p2 + dt * dt * p.p3 + f.localNoise
      && q.p2 == p.p2 + dt * p.p3 && q.p3 == p.p3 + f.gainNoise
  {
  }

  /** What an accepted sample does, without the quotients: the estimates move by their
      shares of the deviation, and the spread shrinks by the same shares. */
  lemma StepCorrects(f: Filter, s: Sample)
    requires Healthy(f) && Accepts(f, s)
    ensures var p, c, d := Predicted(f, s).cov, Convert(f, s), DeltaL(f, s) as real;
      var r := f.measurementNoise;
      && p.p1 > 0.0 && r > 0.0
      && (r + p.p1) * c.cov.p1 == r * p.p1 && (r + p.p1) * c.cov.p2 == r * p.p2
      && (r + p.p1) * (p.p3 - c.cov.p3) == p.p2 * p.p2
      && (r + p.p1) * (c.estGain - f.estGain) == p.p2 * d
      && IsWhole(c.estLocal - Predicted(f, s).estLocal, p.p1 / (r + p.p1), d)
  {
    hide PositiveDefinite, ScalarTimeUpdate, WholeUnits, Smoothed, Square, Accepts, DeltaL, IsWhole;
    PredictedIsHealthy(f, s);
    InnovationIsPositive(f, s);
    var p, r, d := Predicted(f, s), f.measurementNoise, DeltaL(f, s) as real;
    PositiveVariance(p.cov);
    var k1, k2 := p.cov.p1 / (r + p.cov.p1), p.cov.p2 / (r + p.cov.p1);
    CorrectedWith(p, d, k1, k2);
    SharesOf(p.cov, r, k1, k2, d, ScalarUpdateBy(p.cov, r, k1, k2));
    WholeUnitsAre(k1, d, WholeUnits(k1, d));
  }

  lemma SharesOf(p: Cov, r: real, k1: real, k2: real, d: real, n: Cov)
    requires r + p.p1 != 0.0 && k1 == p.p1 / (r + p.p1) && k2 == p.p2 / (r + p.p1)
    requires n == ScalarUpdateBy(p, r, k1, k2)
    ensures (r + p.p1) * n.p1 == r * p.p1 && (r + p.p1) * n.p2 == r * p.p2
    ensures (r + p.p1) * (p.p3 - n.p3) == p.p2 * p.p2
    ensures (r + p.p1) * (k2 * d) == p.p2 * d
  {
    var s := r + p.p1;
    Quotient(p.p1, s);
    Quotient(p.p2, s);
    Shares(s, k1, p.p1, r);
    Shares(s, k2, p.p2, r);
    Shares(s, k2, p.p2, p.p2);
    Shares(s, k2, p.p2, d);
  }

  lemma Shares(s: real, k: real, p: real, x: real)
    requires s * k == p
    ensures s * (x * k) == x * p && s * (k * x) == p * x
  {
    assert s * (x * k) == x * (s * k);
  }

  lemma TruncateBetween(x: real, d: int)
    requires 0.0 <= x <= d as real || d as real <= x <= 0.0
    ensures 0 <= Truncate(x) <= d || d <= Truncate(x) <= 0
  {
  }

  lemma FractionBetween(k: real, d: real, z: real)
    requires 0.0 < k < 1.0 && z == k * d
    ensures 0.0 <= z <= d || d <= z <= 0.0
  {
    Remainder(d, k, z);
    if d > 0.0 {
      PositiveProduct(d, k, z);
      PositiveProduct(d, 1.0 - k, d - z);
    } else if d < 0.0 {
      PositiveProduct(-d, k, -z);
      PositiveProduct(-d, 1.0 - k, z - d);
    }
  }

  /** The timestamp returned lies between the prediction and the sample, end points
      included, for an accepted sample, and is the prediction for a rejected one. */
  lemma EstimateLiesBetween(f: Filter, s: Sample)
    requires Healthy(f)
    ensures var e, p := Convert(f, s).estLocal, Predicted(f, s).estLocal;
      && (p <= e <= s.local || s.local <= e <= p || !Accepts(f, s))
      && (!Accepts(f, s) ==> e == p)
  {
    hide PositiveDefinite, ScalarTimeUpdate, Corrected, MeasurementUpdate, Gain, Accepts;
    ConvertKeepsHealth(f, s);
    CorrectionIsMatrixForm(f, s);
    var p := Predicted(f, s);
    var k, d := Gain(p.cov, f.measurementNoise), DeltaL(f, s);
    PositiveVariance(p.cov);
    GainIsProper(p.cov, f.measurementNoise);
    FractionBetween(k.x, d as real, k.x * d as real);
    TruncateBetween(k.x * d as real, d);
  }

  /** From sample a to sample b the local clock advances by gain times the native clock. */
  predicate OnStep(gain: real, a: Sample, b: Sample) {
    (b.native - a.native) * gain == (b.local - a.local) as real
  }

  /** The sample is where a clock of the estimated gain would put it. */
  predicate OnClock(f: Filter, s: Sample) {
    f.events == 0 || OnStep(f.estGain, Sample(f.lastNative, f.estLocal), s)
  }

  lemma WholeStep(x: real, y: real, n: int)
    requires x * y == n as real
    ensures WholeUnits(x, y) == n
  {
  }

  lemma NoStep(x: real, y: real)
    requires x == 0.0 || y == 0.0
    ensures WholeUnits(x, y) == 0 && x * y == 0.0
  {
    assert x * y == 0.0;
  }

  lemma PredictionOnClock(f: Filter, s: Sample)
    requires OnClock(f, s)
    ensures Predicted(f, s).estLocal == s.local
  {
    hide ScalarTimeUpdate, WholeUnits;
    if f.events == 0 {
      NoStep(s.native - Started(f, s).lastNative, f.estGain);
    } else {
      WholeStep(s.native - f.lastNative, f.estGain, s.local - f.estLocal);
    }
  }

  lemma StepOnClock(f: Filter, s: Sample)
    requires Healthy(f) && OnClock(f, s)
    ensures Convert(f, s).estLocal == s.local && Convert(f, s).estGain == f.estGain
    ensures Convert(f, s).lastNative == s.native
  {
    hide PositiveDefinite, ScalarTimeUpdate, Corrected, MeasurementUpdate, Gain, Accepts, WholeUnits, OnClock;
    PredictionOnClock(f, s);
    CorrectionIsMatrixForm(f, s);
    var k := Gain(Predicted(f, s).cov, f.measurementNoise);
    NoStep(k.x, DeltaL(f, s) as real);
    NoStep(k.y, DeltaL(f, s) as real);
  }

  /** The first sample is returned as it is. */
  lemma FirstStep(f: Filter, s: Sample)
    requires Healthy(f) && f.events == 0
    ensures var c := Convert(f, s);
      && c.estLocal == s.local && c.estGain == f.estGain && c.avgDeviationSquare == f.avgDeviationSquare
      && c.budget == (if f.budget >= 40 then 40 else f.budget + 1)
  {
    StepOnClock(f, s);
    NoStep(s.native - s.native, f.estGain);
    WholeUnitsAre(s.native - s.native, f.estGain, 0);
    hide WholeUnits, IsWhole, Convert, Healthy;
    StepGates(f, s, 0);
    StepSpends(f, s);
    StepAverages(f, s);
  }

  lemma RejectedStep(f: Filter, s: Sample, e: int)
    requires Healthy(f) && Predicted(f, s).estLocal == e && !Accepts(f, s)
    ensures var c := Convert(f, s);
      && c.estLocal == e && c.estGain == f.estGain
      && c.budget == f.budget - 2 && c.avgDeviationSquare == f.avgDeviationSquare
  {
    StepSpends(f, s);
  }

  lemma AcceptedStep(f: Filter, s: Sample, e: int, d: real)
    requires Healthy(f) && Predicted(f, s).estLocal == e && DeltaL(f, s) as real == d && Accepts(f, s)
    ensures var c := Convert(f, s);
      && (e <= c.estLocal <= s.local || s.local <= c.estLocal <= e)
      && c.budget == (if f.budget >= 40 then 40 else f.budget + 1)
      && (if f.events > 50
          then 100.0 * (c.avgDeviationSquare - f.avgDeviationSquare) == Square(d) - f.avgDeviationSquare
          else c.avgDeviationSquare == f.avgDeviationSquare)
  {
    StepSpends(f, s);
    StepAverages(f, s);
    EstimateLiesBetween(f, s);
    assert Square(d) == d * d;
    hide Convert, Accepts, DeltaL, Predicted, Healthy;
  }

  /** What a later sample does to the observable state; n is the whole units of the native
      time passed. */
  lemma LaterStep(f: Filter, s: Sample, n: int)
    requires Healthy(f) && f.events != 0 && IsWhole(n, s.native - f.lastNative, f.estGain)
    ensures var c, prediction := Convert(f, s), f.estLocal + n;
      var d := (s.local - prediction) as real;
      if f.budget >= 0 && Square(d) >= 9.0 * f.avgDeviationSquare then
        && c.estLocal == prediction && c.estGain == f.estGain
        && c.budget == f.budget - 2 && c.avgDeviationSquare == f.avgDeviationSquare
      else
        && (prediction <= c.estLocal <= s.local || s.local <= c.estLocal <= prediction)
        && c.budget == (if f.budget >= 40 then 40 else f.budget + 1)
        && (if f.events > 50
            then 100.0 * (c.avgDeviationSquare - f.avgDeviationSquare) == Square(d) - f.avgDeviationSquare
            else c.avgDeviationSquare == f.avgDeviationSquare)
  {
    hide Convert, Accepts, DeltaL, Predicted, IsWhole, Healthy;
    StepPredicts(f, s, n);
    StepGates(f, s, n);
    var d := (s.local - f.estLocal - n) as real;
    assert Square(d) == d * d;
    if Accepts(f, s) {
      AcceptedStep(f, s, f.estLocal + n, d);
    } else {
      RejectedStep(f, s, f.estLocal + n);
    }
  }

  // ---------------------------------------------------------------- the class

  class TimestampSync {
    var events: nat
    var lastNative: real
    var localNoise: real
    var gainNoise: real
    var measurementNoise: real
    var estLocal: int
    var estGain: real
    var p1: real
    var p2: real
    var p3: real
    var outlierBudget: int
    var avgDeviationSquare: real

    function Value(): Filter
      reads this
    {
      Filter(events, lastNative, localNoise, gainNoise, measurementNoise,
             estLocal, estGain, Cov(p1, p2, p3), outlierBudget, avgDeviationSquare)
    }

    constructor (nativeFreq: real, localFreq: real)
      requires nativeFreq != 0.0 && localFreq != 0.0
      ensures Tuned(Value(), nativeFreq, localFreq) && Healthy(Value())
      ensures estGain * nativeFreq == localFreq
      ensures events == 0 && outlierBudget == -100
    {
      events := 0;
      outlierBudget := -100;
      new;
      SetFrequency(nativeFreq, localFreq);
    }

    method SetFrequency(nativeFreq: real, localFreq: real)
      requires nativeFreq != 0.0 && localFreq != 0.0
      modifies this
      ensures Tuned(Value(), nativeFreq, localFreq) && Healthy(Value())
      ensures estGain * nativeFreq == localFreq
      ensures 1000000.0 * localNoise == localFreq * localFreq
      ensures 100000000.0 * gainNoise == estGain * estGain
      ensures 10000.0 * measurementNoise == 9.0 * (localFreq * localFreq)
      ensures p1 == localFreq * localFreq && p2 == 0.0 && p3 == 100.0 * (estGain * estGain)
      ensures 1000000.0 * avgDeviationSquare == localFreq * localFreq
      ensures events == old(events) && outlierBudget == old(outlierBudget)
      ensures lastNative == old(lastNative) && estLocal == old(estLocal)
    {
      estGain := localFreq / nativeFreq;

      localNoise := Square(LOCAL_NOISE * localFreq);
      gainNoise := Square(GAIN_NOISE * estGain);
      measurementNoise := Square(MEASUREMENT_NOISE * localFreq);

      p1 := Square(localFreq);
      p2 := 0.0;
      p3 := Square(10.0 * estGain);

      avgDeviationSquare := Square(0.001 * localFreq);
      TunedIsHealthy(Value(), nativeFreq, localFreq);
      TunedInUnits(Value(), nativeFreq, localFreq);
      hide Tuned, Healthy, Square;
    }

    /** The time update, assigned in place. */
    method UpdateTime(deltaN: real)
      modifies this
      ensures Value() == Advanced(old(Value()), deltaN)
    {
      hide WholeUnits;
      estLocal := estLocal + WholeUnits(deltaN, estGain);
      p1, p2, p3 :=
        p1 + (2.0 * deltaN * p2 + deltaN * deltaN * p3 + localNoise),
        p2 + deltaN * p3,
        p3 + gainNoise;
    }

    /** The measurement update with its two gains, assigned in place. */
    method ApplyGains(k1: real, k2: real, deltaL: real, deviationSquare: real)
      requires deviationSquare == Square(deltaL)
      modifies this
      ensures Value() == CorrectedBy(old(Value()), deltaL, k1, k2)
    {
      hide Square, WholeUnits;
      estGain, estLocal := estGain + k2 * deltaL, estLocal + WholeUnits(k1, deltaL);
      p1, p2, p3 := measurementNoise * k1, measurementNoise * k2, p3 - p2 * k2;
      if events > 50 {
        avgDeviationSquare := avgDeviationSquare + (deviationSquare - avgDeviationSquare) * DEVIATION_WEIGHT;
      }
      outlierBudget := if outlierBudget + 1 < 40 then outlierBudget + 1 else 40;
    }

    method UpdateMeasurement(deltaL: real, deviationSquare: real)
      requires deviationSquare == Square(deltaL) && measurementNoise + p1 != 0.0
      modifies this
      ensures Value() == Corrected(old(Value()), deltaL)
    {
      hide CorrectedBy, Square;
      var k1 := p1 / (measurementNoise + p1);
      var k2 := p2 / (measurementNoise + p1);
      CorrectedWith(Value(), deltaL, k1, k2);
      ApplyGains(k1, k2, deltaL, deviationSquare);
    }

    /** The sample taken in, in place. */
    method TakeSample(native: real, local: int)
      requires Healthy(Value())
      modifies this
      ensures Value() == Convert(old(Value()), Sample(native, local)) && Healthy(Value())
    {
      ghost var f, s := Value(), Sample(native, local);
      InnovationIsPositive(f, s);
      ConvertKeepsHealth(f, s);
      if events == 0 {
        lastNative := native;
        estLocal := local;
      }

      var deltaN := native - lastNative;
      UpdateTime(deltaN);
      assert Value() == Predicted(f, s);

      // outlier detection
      var deltaL := (local - estLocal) as real;
      var deviationSquare := Square(deltaL);
      var thresholdSquare := avgDeviationSquare * 9.0;
      if deviationSquare < thresholdSquare || outlierBudget < 0 {
        UpdateMeasurement(deltaL, deviationSquare);
      } else {
        outlierBudget := outlierBudget - 2;
      }

      lastNative := native;
      events := (events + 1) % EVENTS_MODULUS;
    }

    /** `whole` is the whole local units of the native time passed since the last sample. */
    method ConvertNativeToLocal(native: real, local: int) returns (estimate: int, ghost whole: int)
      requires Healthy(Value())
      modifies this
      ensures Value() == Convert(old(Value()), Sample(native, local)) && Healthy(Value())
      ensures estimate == estLocal && lastNative == native
      ensures events == (old(events) + 1) % 0x1_0000_0000
      ensures localNoise == old(localNoise) && gainNoise == old(gainNoise)
      ensures measurementNoise == old(measurementNoise)
      ensures IsWhole(whole, native - old(lastNative), old(estGain))
      ensures old(events) == 0 ==>
        && estimate == local && estGain == old(estGain) && avgDeviationSquare == old(avgDeviationSquare)
        && outlierBudget == (if old(outlierBudget) >= 40 then 40 else old(outlierBudget) + 1)
      ensures old(events) != 0 ==>
        var prediction := old(estLocal) + whole;
        var d := (local - prediction) as real;
        if old(outlierBudget) >= 0 && Square(d) >= 9.0 * old(avgDeviationSquare) then
          && estimate == prediction && estGain == old(estGain)
          && outlierBudget == old(outlierBudget) - 2 && avgDeviationSquare == old(avgDeviationSquare)
        else
          && (prediction <= estimate <= local || local <= estimate <= prediction)
          && outlierBudget == (if old(outlierBudget) >= 40 then 40 else old(outlierBudget) + 1)
          && (if old(events) > 50 then
                100.0 * (avgDeviationSquare - old(avgDeviationSquare)) == Square(d) - old(avgDeviationSquare)
              else avgDeviationSquare == old(avgDeviationSquare))
    {
      ghost var f, s := Value(), Sample(native, local);
      whole := WholeUnits(native - lastNative, estGain);
      WholeUnitsAre(native - lastNative, estGain, whole);
      hide Convert, Healthy, IsWhole, WholeUnits, Square;
      StepCounts(f, s);
      if f.events == 0 {
        FirstStep(f, s);
      } else {
        LaterStep(f, s, whole);
      }
      TakeSample(native, local);
      estimate := estLocal;
    }
  }

  lemma NotZero(x: real)
    requires x != 0.0
    ensures Square(x) > 0.0
  {
    SquareIsNotNegative(x, Square(x));
  }

  lemma Scaled(c: real, x: real)
    ensures Square(c * x) == c * c * (x * x)
  {
    assert (c * x) * (c * x) == c * c * (x * x);
  }

  /** A tuned filter in units of the two clocks: a native second is a local second; the local
      time is good to a thousandth of a second a step, a sample to three hundredths, and the
      outlier threshold starts at a thousandth. */
  lemma TunedInUnits(f: Filter, nativeFreq: real, localFreq: real)
    requires nativeFreq != 0.0 && Tuned(f, nativeFreq, localFreq)
    ensures f.estGain * nativeFreq == localFreq
    ensures 1000000.0 * f.localNoise == localFreq * localFreq
    ensures 100000000.0 * f.gainNoise == f.estGain * f.estGain
    ensures 10000.0 * f.measurementNoise == 9.0 * (localFreq * localFreq)
    ensures f.cov.p1 == localFreq * localFreq && f.cov.p2 == 0.0 && f.cov.p3 == 100.0 * (f.estGain * f.estGain)
    ensures 1000000.0 * f.avgDeviationSquare == localFreq * localFreq
  {
    Quotient(localFreq, nativeFreq);
    Scaled(LOCAL_NOISE, localFreq);
    Scaled(GAIN_NOISE, f.estGain);
    Scaled(MEASUREMENT_NOISE, localFreq);
    Scaled(1.0, localFreq);
    Scaled(10.0, f.estGain);
    Scaled(0.001, localFreq);
  }

  lemma TunedIsHealthy(f: Filter, nativeFreq: real, localFreq: real)
    requires nativeFreq != 0.0 && localFreq != 0.0 && Tuned(f, nativeFreq, localFreq)
    ensures Healthy(f)
  {
    assert f.estGain != 0.0 by {
      assert nativeFreq * f.estGain == localFreq;
    }
    NotZero(LOCAL_NOISE * localFreq);
    NotZero(GAIN_NOISE * f.estGain);
    NotZero(MEASUREMENT_NOISE * localFreq);
    NotZero(localFreq);
    NotZero(10.0 * f.estGain);
    NotZero(0.001 * localFreq);
    PositiveProduct(f.cov.p1, f.cov.p3, f.cov.p1 * f.cov.p3);
  }
}
