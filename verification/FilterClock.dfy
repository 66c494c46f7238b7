/** `TimestampSync` as its users see it, over every sequence of samples: what the next
    timestamp is in terms of the last one, which samples count, and what the two
    frequencies a filter is tuned to make of its units. */
module FilterClock {
  import opened Kalman
  import opened TimestampSync
  import opened FilterRuns

  // ---------------------------------------------------------------- one sample more

  lemma {:induction false} RunOn(f: Filter, samples: seq<Sample>, s: Sample)
    requires Healthy(f)
    ensures Run(f, samples + [s]) == Convert(Run(f, samples), s)
    ensures Outputs(f, samples + [s]) == Outputs(f, samples) + [Convert(Run(f, samples), s).estLocal]
    decreases |samples|
  {
    hide Convert, Healthy;
    if samples == [] {
      assert ([] + [s])[1..] == [];
      ConvertKeepsHealth(f, s);
    } else {
      var first := samples[0];
      ConvertKeepsHealth(f, first);
      RunOn(Convert(f, first), samples[1..], s);
      assert (samples + [s])[1..] == samples[1..] + [s];
    }
  }

  lemma WrapsOnce(e: nat, k: nat)
    requires e < 0x1_0000_0000
    ensures ((e + 1) % 0x1_0000_0000 + k) % 0x1_0000_0000 == (e + (k + 1)) % 0x1_0000_0000
  {
    if e + 1 == 0x1_0000_0000 {
      assert e + (k + 1) == 0x1_0000_0000 + k;
    }
  }

  /** Every sample is counted, in 32 bits. */
  lemma {:induction false} EventsAreCounted(f: Filter, samples: seq<Sample>)
    requires Healthy(f) && f.events < 0x1_0000_0000
    ensures Run(f, samples).events == (f.events + |samples|) % 0x1_0000_0000
    decreases |samples|
  {
    hide Convert, Healthy;
    if samples != [] {
      var first := samples[0];
      ConvertKeepsHealth(f, first);
      StepCounts(f, first);
      EventsAreCounted(Convert(f, first), samples[1..]);
      WrapsOnce(f.events, |samples| - 1);
    }
  }

  /** The filter stands where its last sample and its last output put it. */
  lemma LastSample(f: Filter, samples: seq<Sample>)
    requires Healthy(f) && samples != []
    ensures var g, last := Run(f, samples), |samples| - 1;
      g.lastNative == samples[last].native && g.estLocal == Outputs(f, samples)[last]
  {
    hide Convert, Healthy;
    var front, s := samples[..|samples| - 1], samples[|samples| - 1];
    assert samples == front + [s];
    RunOn(f, front, s);
    StepCounts(Run(f, front), s);
  }

  /** After any samples, fewer than 2^32: the next timestamp is the last one carried forward
      by the whole units of the native time passed, for a sample three or more
      root-mean-square deviations off once the budget is not negative, which costs two; for
      any other it lies between that and the sample, and the budget rises to at most 40. */
  lemma NextOutput(f: Filter, samples: seq<Sample>, s: Sample, n: int)
    requires Healthy(f) && f.events == 0 && 0 < |samples| < 0x1_0000_0000
    requires IsWhole(n, s.native - samples[|samples| - 1].native, Run(f, samples).estGain)
    ensures var g, h := Run(f, samples), Run(f, samples + [s]);
      var prediction, next := Outputs(f, samples)[|samples| - 1] + n, Outputs(f, samples + [s])[|samples|];
      var d := (s.local - prediction) as real;
      && g.events == |samples|
      && if g.budget >= 0 && Square(d) >= 9.0 * g.avgDeviationSquare then
           next == prediction && h.budget == g.budget - 2 && h.estGain == g.estGain
         else
           && (prediction <= next <= s.local || s.local <= next <= prediction)
           && h.budget == (if g.budget >= 40 then 40 else g.budget + 1)
  {
    hide Convert, Healthy, IsWhole, Square, Run, Outputs;
    EventsAreCounted(f, samples);
    LastSample(f, samples);
    RunOn(f, samples, s);
    LaterStep(Run(f, samples), s, n);
  }

  /** The first timestamp is the first sample's. */
  lemma FirstOutput(f: Filter, s: Sample)
    requires Healthy(f) && f.events == 0
    ensures Outputs(f, [s]) == [s.local]
  {
    hide Convert, Healthy;
    FirstStep(f, s);
    RunOn(f, [], s);
    assert [] + [s] == [s];
  }

  /** The threshold stays as tuned for the first 51 samples. */
  lemma {:induction false} ThresholdSettles(f: Filter, samples: seq<Sample>)
    requires Healthy(f) && f.events + |samples| <= 51
    ensures Run(f, samples).avgDeviationSquare == f.avgDeviationSquare
    decreases |samples|
  {
    hide Convert, Healthy, Accepts;
    if samples != [] {
      var s := samples[0];
      ConvertKeepsHealth(f, s);
      StepCounts(f, s);
      StepSpends(f, s);
      if Accepts(f, s) {
        StepAverages(f, s);
      }
      ThresholdSettles(Convert(f, s), samples[1..]);
    }
  }

  // ---------------------------------------------------------------- the two frequencies

  /** From sample a to sample b both clocks show the same time, each in its own unit. */
  predicate InStep(nativeFreq: real, localFreq: real, a: Sample, b: Sample) {
    (b.native - a.native) * localFreq == (b.local - a.local) as real * nativeFreq
  }

  lemma Cancelled(x: real, y: real, g: real, nf: real, lf: real)
    requires nf != 0.0 && g * nf == lf && x * lf == y * nf
    ensures x * g == y
  {
    assert (x * g) * nf == x * (g * nf);
    assert (x * g - y) * nf == 0.0;
  }

  lemma InStepIsOnStep(f: Filter, nativeFreq: real, localFreq: real, a: Sample, b: Sample)
    requires nativeFreq != 0.0 && Tuned(f, nativeFreq, localFreq) && InStep(nativeFreq, localFreq, a, b)
    ensures OnStep(f.estGain, a, b)
  {
    TunedInUnits(f, nativeFreq, localFreq);
    hide Tuned;
    Cancelled(b.native - a.native, (b.local - a.local) as real, f.estGain, nativeFreq, localFreq);
  }

  /** A filter tuned to the frequencies of two clocks returns every local time of samples on
      which the clocks are in step: from its first sample, or, tuned anew during a run, from
      where it stands. */
  lemma TunedClockIsReproduced(f: Filter, nativeFreq: real, localFreq: real, samples: seq<Sample>)
    requires nativeFreq != 0.0 && localFreq != 0.0 && Tuned(f, nativeFreq, localFreq)
    requires forall i | 0 < i < |samples| :: InStep(nativeFreq, localFreq, samples[i - 1], samples[i])
    requires samples != [] && f.events != 0 ==>
               InStep(nativeFreq, localFreq, Sample(f.lastNative, f.estLocal), samples[0])
    ensures Healthy(f) && forall i | 0 <= i < |samples| :: Outputs(f, samples)[i] == samples[i].local
  {
    TunedIsHealthy(f, nativeFreq, localFreq);
    hide Tuned, Healthy, InStep, OnStep;
    forall i | 0 < i < |samples|
      ensures OnStep(f.estGain, samples[i - 1], samples[i])
    {
      InStepIsOnStep(f, nativeFreq, localFreq, samples[i - 1], samples[i]);
    }
    if samples != [] && f.events != 0 {
      InStepIsOnStep(f, nativeFreq, localFreq, Sample(f.lastNative, f.estLocal), samples[0]);
    }
    ExactClockIsReproduced(f, samples);
  }

  lemma {:induction false} NoisesStay(f: Filter, samples: seq<Sample>)
    requires Healthy(f)
    ensures var g := Run(f, samples);
      g.localNoise == f.localNoise && g.gainNoise == f.gainNoise && g.measurementNoise == f.measurementNoise
    decreases |samples|
  {
    hide Convert, Healthy;
    if samples != [] {
      ConvertKeepsHealth(f, samples[0]);
      StepCounts(f, samples[0]);
      NoisesStay(Convert(f, samples[0]), samples[1..]);
    }
  }

  /** In every run of a tuned filter: an accepted sample leaves the local time known to three
      hundredths of a local second; a rejected one at the native time of the last costs a
      thousandth of a second in the local time and a ten-thousandth of the tuned gain. */
  lemma TunedSpreads(f: Filter, nativeFreq: real, localFreq: real, samples: seq<Sample>, s: Sample)
    requires nativeFreq != 0.0 && localFreq != 0.0 && Tuned(f, nativeFreq, localFreq)
    ensures Healthy(f)
    ensures var g, c := Run(f, samples), Convert(Run(f, samples), s);
      if Accepts(g, s) then
        10000.0 * c.cov.p1 < 9.0 * (localFreq * localFreq)
      else g.events != 0 && s.native == g.lastNative ==>
        && 1000000.0 * (c.cov.p1 - g.cov.p1) == localFreq * localFreq
        && c.cov.p2 == g.cov.p2
        && 100000000.0 * (c.cov.p3 - g.cov.p3) == f.estGain * f.estGain
  {
    TunedIsHealthy(f, nativeFreq, localFreq);
    TunedInUnits(f, nativeFreq, localFreq);
    NoisesStay(f, samples);
    var g := Run(f, samples);
    hide Tuned, Healthy, Convert, Accepts, Run;
    DeterminantOfAStep(g, s);
    CorrectionIsMatrixForm(g, s);
    if g.events != 0 && s.native == g.lastNative {
      StepSpreads(g, s, 0.0);
    }
    hide MeasurementUpdate, Gain, Det, Predicted, Full;
    RejectedCovariance(g, s);
  }

  lemma RejectedCovariance(f: Filter, s: Sample)
    requires Healthy(f)
    ensures !Accepts(f, s) ==> Convert(f, s).cov == Predicted(f, s).cov
  {
    CorrectionIsMatrixForm(f, s);
  }
}
