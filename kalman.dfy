/**
 * `KalmanLatLong`: a scalar Kalman filter shared by latitude and longitude. The
 * variance -1 marks a filter that has seen no measurement yet; the first
 * measurement seeds it, every later one inflates the variance by the elapsed time,
 * pulls both coordinates towards the measurement by one gain and shrinks the
 * variance.
 *
 * The source computes `variance` in `Float` and the coordinates in `Double`; here
 * all of them are exact reals.
 */
module Kalman {

  const MinAccuracy: real := 1.0
  /** Process noise in metres per second: `minAccuracy * 5`. */
  const Q: real := MinAccuracy * 5.0
  /** The fixed measurement accuracy in metres. */
  const SensorAccuracy: real := 15.0
  /** The variance a seeded filter starts from, `15 * 15`. */
  const SeedVariance: real := SensorAccuracy * SensorAccuracy
  /** The sentinel of a filter that has not been seeded. */
  const Uninitialised: real := -1.0

  datatype FilterState = FilterState(lat: real, lng: real, variance: real, timeStamp: int)

  /** A newly built filter. */
  const Fresh: FilterState := FilterState(0.0, 0.0, Uninitialised, 0)

  datatype Point = Point(lat: real, lng: real)
  datatype Measurement = Measurement(lat: real, lng: real, timeStamp: int)
  datatype StepResult = StepResult(next: FilterState, out: Point)

  /** `setState`: the variance becomes the square of the given accuracy. */
  function SetStateResult(latitude: real, longitude: real, accuracy: real, timeStamp: int): (s: FilterState)
    ensures s.variance >= 0.0
  {
    FilterState(latitude, longitude, accuracy * accuracy, timeStamp)
  }

  /** The variance after the time update: inflated by `duration * q * q / 1000` only when time advanced. */
  function Inflate(variance: real, duration: int): real {
    if duration > 0 then variance + (duration as real) * Q * Q / 1000.0 else variance
  }

  /** The Kalman gain for a (non-negative) variance. */
  function Gain(variance: real): real
    requires variance >= 0.0
  {
    variance / (variance + SensorAccuracy * SensorAccuracy)
  }

  /** `k * d`, the part of a distance `d` that a gain `k` covers. */
  function Scaled(k: real, d: real): real {
    k * d
  }

  /** One move of an estimate towards a measurement by the gain: `estimate + k * (measurement - estimate)`. */
  function Correct(estimate: real, measurement: real, k: real): real {
    estimate + Scaled(k, measurement - estimate)
  }

  /** `process(latMeasurement, lngMeasurement, timeStamp)` on a filter state: the new state and the returned pair. */
  function Step(s: FilterState, latM: real, lngM: real, t: int): StepResult {
    if s.variance < 0.0 then
      StepResult(SetStateResult(latM, lngM, SensorAccuracy, t), Point(latM, lngM))
    else
      var duration := t - s.timeStamp;
      var v := Inflate(s.variance, duration);
      var ts := if duration > 0 then t else s.timeStamp;
      var k := Gain(v);
      var lat := Correct(s.lat, latM, k);
      var lng := Correct(s.lng, lngM, k);
      StepResult(FilterState(lat, lng, v * (1.0 - k), ts), Point(lat, lng))
  }

  /** The variance the correction step of a non-seeding `process` starts from. */
  function PriorVariance(s: FilterState, t: int): real {
    Inflate(s.variance, t - s.timeStamp)
  }

  predicate Between(x: real, lo: real, hi: real) {
    (lo <= x <= hi) || (hi <= x <= lo)
  }

  predicate StrictlyBetween(x: real, lo: real, hi: real) {
    (lo < x < hi) || (hi < x < lo)
  }

  /** The fraction of the way from `start` to `goal` that `now` has come. */
  function Progress(start: real, goal: real, now: real): real
    requires start != goal
  {
    (now - start) / (goal - start)
  }

  // ---------------------------------------------------------------------------
  // Gain and variance. Each nonlinear fact is its own small lemma.

  lemma ScaledNonNeg(k: real, d: real)
    requires k >= 0.0 && d >= 0.0
    ensures Scaled(k, d) >= 0.0
  {
  }

  lemma ScaledPos(k: real, d: real)
    requires k > 0.0 && d > 0.0
    ensures Scaled(k, d) > 0.0
  {
  }

  lemma ScaledNonPos(k: real, d: real)
    requires k >= 0.0 && d <= 0.0
    ensures Scaled(k, d) <= 0.0
  {
  }

  lemma ScaledNeg(k: real, d: real)
    requires k > 0.0 && d < 0.0
    ensures Scaled(k, d) < 0.0
  {
  }

  lemma ScaledAtMost(k: real, d: real)
    requires k <= 1.0 && d >= 0.0
    ensures Scaled(k, d) <= d
  {
  }

  lemma ScaledBelow(k: real, d: real)
    requires k < 1.0 && d > 0.0
    ensures Scaled(k, d) < d
  {
  }

  lemma ScaledAtLeast(k: real, d: real)
    requires k <= 1.0 && d <= 0.0
    ensures Scaled(k, d) >= d
  {
  }

  lemma ScaledAbove(k: real, d: real)
    requires k < 1.0 && d < 0.0
    ensures Scaled(k, d) > d
  {
  }

  lemma ScaledFraction(k: real, d: real)
    requires d != 0.0
    ensures Scaled(k, d) / d == k
  {
  }

  /** The gain solves `k * (v + 225) == v`. */
  lemma GainEquation(v: real)
    requires v >= 0.0
    ensures Gain(v) * (v + SeedVariance) == v
  {
  }

  /** The gain lies in [0, 1), and is positive exactly when the variance is. */
  lemma GainBounds(v: real)
    requires v >= 0.0
    ensures 0.0 <= Gain(v)
    ensures Gain(v) < 1.0
    ensures Gain(v) > 0.0 <==> v > 0.0
  {
    GainEquation(v);
  }

  /** The corrected variance `v * (1 - k)` equals `225 * k`. */
  lemma CorrectedVariance(v: real)
    requires v >= 0.0
    ensures v * (1.0 - Gain(v)) == SeedVariance * Gain(v)
  {
    GainEquation(v);
  }

  /** `v * k` is positive for a positive variance. */
  lemma GainTimesVariance(v: real)
    requires v > 0.0
    ensures v * Gain(v) > 0.0
  {
    GainBounds(v);
    ScaledPos(v, Gain(v));
  }

  /** The corrected variance lies in [0, 225), is positive when v is, and below v when v is positive. */
  lemma CorrectedVarianceBounds(v: real)
    requires v >= 0.0
    ensures 0.0 <= v * (1.0 - Gain(v))
    ensures v * (1.0 - Gain(v)) < SeedVariance
    ensures v > 0.0 ==> 0.0 < v * (1.0 - Gain(v))
    ensures v > 0.0 ==> v * (1.0 - Gain(v)) < v
  {
    GainBounds(v);
    CorrectedVariance(v);
    if v > 0.0 { GainTimesVariance(v); }
  }

  /** A corrected estimate lies between the old estimate and the measurement, strictly when they differ and k > 0. */
  lemma CorrectBetween(x: real, m: real, k: real)
    requires 0.0 <= k < 1.0
    ensures Between(Correct(x, m, k), x, m)
    ensures k > 0.0 && x != m ==> StrictlyBetween(Correct(x, m, k), x, m)
  {
    var d := m - x;
    if d >= 0.0 {
      ScaledNonNeg(k, d);
      ScaledAtMost(k, d);
      if k > 0.0 && d > 0.0 { ScaledPos(k, d); ScaledBelow(k, d); }
    } else {
      ScaledNonPos(k, d);
      ScaledAtLeast(k, d);
      if k > 0.0 { ScaledNeg(k, d); ScaledAbove(k, d); }
    }
  }

  /** A corrected estimate has come the fraction k of the way to the measurement. */
  lemma CorrectProgress(x: real, m: real, k: real)
    requires x != m
    ensures Progress(x, m, Correct(x, m, k)) == k
  {
    ScaledFraction(k, m - x);
  }

  // ---------------------------------------------------------------------------
  // One `process` call

  /** On a filter that has not been seeded, `process` returns the measurement and seeds the state with it. */
  lemma SeedStep(s: FilterState, latM: real, lngM: real, t: int)
    requires s.variance < 0.0
    ensures Step(s, latM, lngM, t).out == Point(latM, lngM)
    ensures Step(s, latM, lngM, t).next == FilterState(latM, lngM, 225.0, t)
  {
  }

  /**
   * A seeded filter stays seeded: after `process` the variance lies in [0, 225),
   * is below the variance the correction started from when that was positive, and
   * is positive when it was.
   */
  lemma StepVariance(s: FilterState, latM: real, lngM: real, t: int)
    requires s.variance >= 0.0
    ensures var prior := PriorVariance(s, t);
            && prior >= s.variance
            && 0.0 <= Step(s, latM, lngM, t).next.variance < SeedVariance
            && (prior > 0.0 ==> 0.0 < Step(s, latM, lngM, t).next.variance < prior)
  {
    CorrectedVarianceBounds(PriorVariance(s, t));
  }

  /**
   * The time update: the variance is inflated by `duration * 25 / 1000` and the
   * timestamp overwritten exactly when the new timestamp is later; otherwise both
   * stay. The stored timestamp never decreases.
   */
  lemma StepTime(s: FilterState, latM: real, lngM: real, t: int)
    requires s.variance >= 0.0
    ensures t > s.timeStamp ==> PriorVariance(s, t) == s.variance + ((t - s.timeStamp) as real) * 25.0 / 1000.0
    ensures t > s.timeStamp ==> Step(s, latM, lngM, t).next.timeStamp == t
    ensures t <= s.timeStamp ==> PriorVariance(s, t) == s.variance
    ensures t <= s.timeStamp ==> Step(s, latM, lngM, t).next.timeStamp == s.timeStamp
    ensures Step(s, latM, lngM, t).next.timeStamp >= s.timeStamp
  {
  }

  /**
   * The correction of a seeded filter: each new coordinate lies between the old
   * estimate and its measurement (strictly when they differ and the prior
   * variance is positive), both axes come the same fraction of the way to their
   * measurement, and the returned pair is the stored one.
   */
  lemma StepCorrects(s: FilterState, latM: real, lngM: real, t: int)
    requires s.variance >= 0.0
    ensures var r := Step(s, latM, lngM, t);
            && r.out == Point(r.next.lat, r.next.lng)
            && Between(r.next.lat, s.lat, latM)
            && Between(r.next.lng, s.lng, lngM)
            && (PriorVariance(s, t) > 0.0 && s.lat != latM ==> StrictlyBetween(r.next.lat, s.lat, latM))
            && (PriorVariance(s, t) > 0.0 && s.lng != lngM ==> StrictlyBetween(r.next.lng, s.lng, lngM))
            && (s.lat != latM ==> Progress(s.lat, latM, r.next.lat) == Gain(PriorVariance(s, t)))
            && (s.lng != lngM ==> Progress(s.lng, lngM, r.next.lng) == Gain(PriorVariance(s, t)))
  {
    var v := PriorVariance(s, t);
    var k := Gain(v);
    GainBounds(v);
    CorrectBetween(s.lat, latM, k);
    CorrectBetween(s.lng, lngM, k);
    if s.lat != latM { CorrectProgress(s.lat, latM, k); }
    if s.lng != lngM { CorrectProgress(s.lng, lngM, k); }
  }

  /** `setState` always leaves a seeded filter, so `process` never seeds after it. */
  lemma SetStateSeeds(latitude: real, longitude: real, accuracy: real, timeStamp: int, latM: real, lngM: real, t: int)
    ensures var s := SetStateResult(latitude, longitude, accuracy, timeStamp);
            s.variance >= 0.0 && Step(s, latM, lngM, t).next.variance >= 0.0
  {
    var s := SetStateResult(latitude, longitude, accuracy, timeStamp);
    StepVariance(s, latM, lngM, t);
  }

  // ---------------------------------------------------------------------------
  // The filter over a whole session

  /** The filter state after a sequence of `process` calls, with what each call returned. */
  datatype Trace = Trace(state: FilterState, outputs: seq<Point>)

  function Run(s: FilterState, ms: seq<Measurement>): (tr: Trace)
    ensures |tr.outputs| == |ms|
  {
    if ms == [] then Trace(s, [])
    else
      var prev := Run(s, ms[..|ms| - 1]);
      var m := ms[|ms| - 1];
      var r := Step(prev.state, m.lat, m.lng, m.timeStamp);
      Trace(r.next, prev.outputs + [r.out])
  }

  /** The latest of the measurement timestamps. */
  function MaxTime(ms: seq<Measurement>): int
    requires ms != []
  {
    if |ms| == 1 then ms[0].timeStamp
    else
      var m := MaxTime(ms[..|ms| - 1]);
      if ms[|ms| - 1].timeStamp > m then ms[|ms| - 1].timeStamp else m
  }

  /** What a call returned is never changed by later calls. */
  lemma {:induction false} RunPrefix(s: FilterState, ms: seq<Measurement>, n: nat)
    requires n <= |ms|
    ensures Run(s, ms[..n]).outputs == Run(s, ms).outputs[..n]
    decreases |ms|
  {
    if n < |ms| {
      assert ms[..|ms| - 1][..n] == ms[..n];
      RunPrefix(s, ms[..|ms| - 1], n);
    } else {
      assert ms[..n] == ms;
    }
  }

  /**
   * From a fresh filter, after at least one measurement: the variance lies in
   * (0, 225], the stored coordinates are the last returned pair, and the stored
   * timestamp is the latest measurement timestamp.
   */
  lemma {:induction false} RunInvariant(ms: seq<Measurement>)
    requires ms != []
    ensures var tr := Run(Fresh, ms);
            && 0.0 < tr.state.variance <= SeedVariance
            && tr.outputs[|ms| - 1] == Point(tr.state.lat, tr.state.lng)
            && tr.state.timeStamp == MaxTime(ms)
  {
    var m := ms[|ms| - 1];
    if |ms| == 1 {
      assert ms[..0] == [];
    } else {
      var init := ms[..|ms| - 1];
      RunInvariant(init);
      var prev := Run(Fresh, init);
      StepVariance(prev.state, m.lat, m.lng, m.timeStamp);
      StepCorrects(prev.state, m.lat, m.lng, m.timeStamp);
      StepTime(prev.state, m.lat, m.lng, m.timeStamp);
    }
  }

  /** The first call of a session returns its measurement unchanged. */
  lemma RunFirstIsRaw(ms: seq<Measurement>)
    requires ms != []
    ensures Run(Fresh, ms).outputs[0] == Point(ms[0].lat, ms[0].lng)
  {
    RunPrefix(Fresh, ms, 1);
    assert ms[..1][..0] == [];
  }

  /**
   * Every later call of a session returns, on each axis, a value between the
   * previous result and the new measurement, and strictly between when the two
   * differ.
   */
  lemma RunInterpolates(ms: seq<Measurement>, j: nat)
    requires j + 1 < |ms|
    ensures var outs := Run(Fresh, ms).outputs;
            && Between(outs[j + 1].lat, outs[j].lat, ms[j + 1].lat)
            && Between(outs[j + 1].lng, outs[j].lng, ms[j + 1].lng)
            && (outs[j].lat != ms[j + 1].lat ==> StrictlyBetween(outs[j + 1].lat, outs[j].lat, ms[j + 1].lat))
            && (outs[j].lng != ms[j + 1].lng ==> StrictlyBetween(outs[j + 1].lng, outs[j].lng, ms[j + 1].lng))
  {
    var pre := ms[..j + 1];
    var pre2 := ms[..j + 2];
    assert pre2[..j + 1] == pre;
    RunInvariant(pre);
    RunPrefix(Fresh, ms, j + 1);
    RunPrefix(Fresh, ms, j + 2);
    var prev := Run(Fresh, pre);
    var m := ms[j + 1];
    assert pre2[j + 1] == m;
    StepTime(prev.state, m.lat, m.lng, m.timeStamp);
    StepCorrects(prev.state, m.lat, m.lng, m.timeStamp);
  }

  // ---------------------------------------------------------------------------
  // The filter object

  class KalmanLatLong {
    var timeStampMilliseconds: int
    var lat: real
    var lng: real
    var variance: real

    /** The fields as a filter state. */
    function State(): FilterState
      reads this
    {
      FilterState(lat, lng, variance, timeStampMilliseconds)
    }

    constructor ()
      ensures State() == Fresh
    {
      timeStampMilliseconds := 0;
      lat := 0.0;
      lng := 0.0;
      variance := Uninitialised;
    }

    method SetState(latitude: real, longitude: real, accuracy: real, timeStamp: int)
      modifies this
      ensures State() == SetStateResult(latitude, longitude, accuracy, timeStamp)
      ensures variance >= 0.0
    {
      lat := latitude;
      lng := longitude;
      variance := accuracy * accuracy;
      timeStampMilliseconds := timeStamp;
    }

    method Process(latMeasurement: real, lngMeasurement: real, timeStamp: int) returns (smoothLat: real, smoothLng: real)
      modifies this
      ensures State() == Step(old(State()), latMeasurement, lngMeasurement, timeStamp).next
      ensures Point(smoothLat, smoothLng) == Step(old(State()), latMeasurement, lngMeasurement, timeStamp).out
      ensures variance >= 0.0
    {
      if variance < 0.0 {
        SetState(latMeasurement, lngMeasurement, SensorAccuracy, timeStamp);
        return latMeasurement, lngMeasurement;
      }

      var duration := timeStamp - timeStampMilliseconds;
      if duration > 0 {
        variance := variance + (duration as real) * Q * Q / 1000.0;
        timeStampMilliseconds := timeStamp;
      }

      var k := Gain(variance);

      lat := Correct(lat, latMeasurement, k);
      lng := Correct(lng, lngMeasurement, k);

      CorrectedVarianceBounds(variance);
      variance := variance * (1.0 - k);

      return lat, lng;
    }
  }
}
