/** The simple fill-level predictor: an ordinary least-squares line through
    the readings (hours since the first reading against fill percentage),
    extrapolated `hoursAhead` hours past the latest reading and clamped to
    the 0..100 range. Timestamps are seconds on a real time line. */
module Predictor {
  import opened Common

  datatype Reading = Reading(binId: string, timestamp: real, fillLevelPercent: real)

  datatype Prediction = Prediction(
    binId: string,
    currentFillLevel: real,
    predictedFillLevel: real,
    predictedFullTime: Option<real>,
    hoursUntilFull: Option<real>)

  const SecondsPerHour := 3600.0

  // ---------------------------------------------------------------------
  // Sums and least squares

  function Mean(s: seq<real>): real
    requires |s| > 0
  {
    Sum(s) / |s| as real
  }

  /** Σ (x_i − xMean)(y_i − yMean). */
  function CrossDeviation(xs: seq<real>, ys: seq<real>, xMean: real, yMean: real): real
    requires |xs| == |ys|
  {
    if xs == [] then 0.0
    else (xs[0] - xMean) * (ys[0] - yMean) + CrossDeviation(xs[1..], ys[1..], xMean, yMean)
  }

  /** Σ (x_i − xMean)². */
  function SquaredDeviation(xs: seq<real>, xMean: real): real {
    if xs == [] then 0.0 else (xs[0] - xMean) * (xs[0] - xMean) + SquaredDeviation(xs[1..], xMean)
  }

  /** The least-squares slope, 0 when every x is the same. */
  function Slope(xs: seq<real>, ys: seq<real>): (slope: real)
    requires |xs| == |ys| > 0
    ensures SquaredDeviation(xs, Mean(xs)) == 0.0 ==> slope == 0.0
  {
    var denominator := SquaredDeviation(xs, Mean(xs));
    if denominator == 0.0 then 0.0 else CrossDeviation(xs, ys, Mean(xs), Mean(ys)) / denominator
  }

  /** The intercept puts the fitted line through the point of means. */
  function Intercept(xs: seq<real>, ys: seq<real>): (b: real)
    requires |xs| == |ys| > 0
    ensures Slope(xs, ys) * Mean(xs) + b == Mean(ys)
  {
    Mean(ys) - Slope(xs, ys) * Mean(xs)
  }

  // ---------------------------------------------------------------------
  // The predictor

  function ByTime(r: Reading): real {
    r.timestamp
  }

  /** The readings in timestamp order (a stable sort). */
  function SortedReadings(readings: seq<Reading>): (sorted: seq<Reading>)
    ensures |sorted| == |readings|
    ensures multiset(sorted) == multiset(readings)
  {
    SortBy(readings, ByTime)
  }

  /** Hours since the first of the sorted readings. */
  function Hours(sorted: seq<Reading>): (hours: seq<real>)
    requires |sorted| > 0
    ensures |hours| == |sorted|
  {
    seq(|sorted|, i requires 0 <= i < |sorted| => (sorted[i].timestamp - sorted[0].timestamp) / SecondsPerHour)
  }

  function FillLevels(sorted: seq<Reading>): (levels: seq<real>)
    ensures |levels| == |sorted|
  {
    seq(|sorted|, i requires 0 <= i < |sorted| => sorted[i].fillLevelPercent)
  }

  /** The hours-until-full rule: only a rising line through a bin that is not
      yet full gives a time. */
  function HoursUntilFull(slope: real, lastLevel: real): (h: Option<real>)
    ensures h.Some? <==> slope > 0.0 && lastLevel < 100.0
    ensures h.Some? ==> h.value > 0.0 && slope * h.value + lastLevel == 100.0
  {
    if slope > 0.0 && lastLevel < 100.0 then Some((100.0 - lastLevel) / slope) else None
  }

  /** The fitted line `slope·x + intercept` at `x`, clamped to 0..100. */
  function ClampedLine(slope: real, intercept: real, x: real): real {
    Clamp(slope * x + intercept)
  }

  /** `predict_fill_level`. The route demands at least five readings; the
      function itself needs one. */
  function PredictFillLevel(readings: seq<Reading>, hoursAhead: int): (p: Prediction)
    requires |readings| > 0
    ensures p.binId == readings[0].binId
    ensures p.currentFillLevel == SortedReadings(readings)[|readings| - 1].fillLevelPercent
    ensures |readings| == 1 ==>
              p.predictedFillLevel == p.currentFillLevel && p.predictedFullTime == None && p.hoursUntilFull == None
    ensures |readings| >= 2 ==> 0.0 <= p.predictedFillLevel <= 100.0
    ensures |readings| >= 2 ==>
              var sorted := SortedReadings(readings);
              var hours, levels := Hours(sorted), FillLevels(sorted);
              var last := |sorted| - 1;
              p.predictedFillLevel == ClampedLine(Slope(hours, levels), Intercept(hours, levels), hours[last] + hoursAhead as real)
    ensures |readings| >= 2 ==>
              p.hoursUntilFull == HoursUntilFull(Slope(Hours(SortedReadings(readings)), FillLevels(SortedReadings(readings))), p.currentFillLevel)
    ensures p.predictedFullTime.Some? <==> p.hoursUntilFull.Some?
  {
    var sorted := SortedReadings(readings);
    var hours := Hours(sorted);
    var levels := FillLevels(sorted);
    var last := |sorted| - 1;
    if |sorted| < 2 then
      Prediction(readings[0].binId, levels[last], levels[last], None, None)
    else
      var slope := Slope(hours, levels);
      var predicted := ClampedLine(slope, Intercept(hours, levels), hours[last] + hoursAhead as real);
      var untilFull := HoursUntilFull(slope, levels[last]);
      var fullTime := if untilFull.Some? then Some(sorted[last].timestamp + untilFull.value * SecondsPerHour) else None;
      Prediction(readings[0].binId, levels[last], predicted, fullTime, untilFull)
  }

  // ---------------------------------------------------------------------
  // Properties

  /** The x values start at 0 and are non-decreasing, because the readings are
      sorted by time first. */
  lemma HoursStartAtZeroAndIncrease(readings: seq<Reading>)
    requires |readings| > 0
    ensures var hours := Hours(SortedReadings(readings));
            && hours[0] == 0.0
            && forall i, j :: 0 <= i < j < |hours| ==> hours[i] <= hours[j]
  {
    SortBySorted(readings, ByTime);
  }

  /** The current level is that of a latest reading. */
  lemma CurrentIsLatest(readings: seq<Reading>, hoursAhead: int)
    requires |readings| > 0
    ensures var p := PredictFillLevel(readings, hoursAhead);
            exists r :: r in readings && p.currentFillLevel == r.fillLevelPercent
                        && forall q :: q in readings ==> q.timestamp <= r.timestamp
  {
    var sorted := SortedReadings(readings);
    var r := sorted[|sorted| - 1];
    assert r in multiset(sorted);
    SortBySorted(readings, ByTime);
    forall q | q in readings ensures q.timestamp <= r.timestamp {
      assert q in multiset(sorted);
      SortedLastIsMax(sorted, ByTime, q);
    }
  }

  /** A single reading predicts no change and no full time. */
  lemma SingleReading(r: Reading, hoursAhead: int)
    ensures PredictFillLevel([r], hoursAhead) == Prediction(r.binId, r.fillLevelPercent, r.fillLevelPercent, None, None)
  {
  }

  /** The prediction is always in range; the bin id comes from the first
      reading as given. */
  lemma PredictionInRange(readings: seq<Reading>, hoursAhead: int)
    requires |readings| > 0
    requires forall r :: r in readings ==> 0.0 <= r.fillLevelPercent <= 100.0
    ensures 0.0 <= PredictFillLevel(readings, hoursAhead).predictedFillLevel <= 100.0
    ensures PredictFillLevel(readings, hoursAhead).binId == readings[0].binId
  {
    var sorted := SortedReadings(readings);
    assert sorted[|sorted| - 1] in multiset(readings);
  }

  /** Hours until full exist exactly for a rising trend and a bin not yet
      full; the full time is that many hours after the latest reading. */
  lemma FullTimeRule(readings: seq<Reading>, hoursAhead: int)
    requires |readings| >= 2
    ensures var sorted := SortedReadings(readings);
            var p := PredictFillLevel(readings, hoursAhead);
            var slope := Slope(Hours(sorted), FillLevels(sorted));
            && (p.hoursUntilFull.Some? <==> slope > 0.0 && p.currentFillLevel < 100.0)
            && (p.hoursUntilFull.Some? ==> p.hoursUntilFull.value == (100.0 - p.currentFillLevel) / slope)
            && (p.predictedFullTime.Some? <==> p.hoursUntilFull.Some?)
            && (p.predictedFullTime.Some? ==>
                  p.predictedFullTime.value == sorted[|sorted| - 1].timestamp + p.hoursUntilFull.value * SecondsPerHour)
  {
  }

  lemma {:induction false} SquaredDeviationNonNegative(xs: seq<real>, xMean: real)
    ensures SquaredDeviation(xs, xMean) >= 0.0
  {
    if xs != [] {
      SquaredDeviationNonNegative(xs[1..], xMean);
      SquareNonNegative(xs[0] - xMean);
    }
  }

  lemma SquareNonNegative(d: real)
    ensures d * d >= 0.0
  {
    if d < 0.0 {
      assert d * d == (-d) * (-d);
    }
  }

  /** Σ (a·x_i + b) = a·Σ x_i + n·b. */
  lemma {:induction false} SumOfLine(xs: seq<real>, ys: seq<real>, a: real, b: real)
    requires |xs| == |ys|
    requires forall i :: 0 <= i < |xs| ==> ys[i] == a * xs[i] + b
    ensures Sum(ys) == a * Sum(xs) + |xs| as real * b
  {
    if xs != [] {
      SumOfLine(xs[1..], ys[1..], a, b);
    }
  }

  /** For points on a line the cross deviation is the slope times the
      squared deviation, once the y mean lies on the line too. */
  lemma {:induction false} CrossDeviationOfLine(xs: seq<real>, ys: seq<real>, a: real, b: real, xMean: real, yMean: real)
    requires |xs| == |ys|
    requires forall i :: 0 <= i < |xs| ==> ys[i] == a * xs[i] + b
    requires yMean == a * xMean + b
    ensures CrossDeviation(xs, ys, xMean, yMean) == a * SquaredDeviation(xs, xMean)
  {
    if xs != [] {
      var d := xs[0] - xMean;
      assert d * (ys[0] - yMean) == a * (d * d) by {
        assert ys[0] - yMean == a * d;
        ProductRearranged(d, a);
      }
      var rest := SquaredDeviation(xs[1..], xMean);
      assert CrossDeviation(xs[1..], ys[1..], xMean, yMean) == a * rest by {
        CrossDeviationOfLine(xs[1..], ys[1..], a, b, xMean, yMean);
      }
      assert CrossDeviation(xs, ys, xMean, yMean) == d * (ys[0] - yMean) + CrossDeviation(xs[1..], ys[1..], xMean, yMean);
      assert SquaredDeviation(xs, xMean) == d * d + rest;
      ScaledSum(CrossDeviation(xs, ys, xMean, yMean), SquaredDeviation(xs, xMean), d * (ys[0] - yMean),
                CrossDeviation(xs[1..], ys[1..], xMean, yMean), a, d * d, rest);
    }
  }

  /** c = p + q and s = u + v with p = a·u and q = a·v give c = a·s. */
  lemma ScaledSum(c: real, s: real, p: real, q: real, a: real, u: real, v: real)
    requires c == p + q && s == u + v
    requires p == a * u && q == a * v
    ensures c == a * s
  {
  }

  lemma ProductRearranged(d: real, a: real)
    ensures d * (a * d) == a * (d * d)
  {
  }

  lemma MeanOfLine(sumX: real, sumY: real, n: real, a: real, b: real)
    requires n > 0.0
    requires sumY == a * sumX + n * b
    ensures sumY / n == a * (sumX / n) + b
  {
    assert sumY / n == (a * sumX) / n + (n * b) / n;
  }

  lemma CancelDivision(a: real, d: real)
    requires d != 0.0
    ensures (a * d) / d == a
  {
  }

  /** The mean of points on a line lies on the line. */
  lemma MeanOfLineIsOnLine(xs: seq<real>, ys: seq<real>, a: real, b: real)
    requires |xs| == |ys| > 0
    requires forall i :: 0 <= i < |xs| ==> ys[i] == a * xs[i] + b
    ensures Mean(ys) == a * Mean(xs) + b
  {
    SumOfLine(xs, ys, a, b);
    MeanOfLine(Sum(xs), Sum(ys), |xs| as real, a, b);
  }

  /** Least squares recovers an exact linear trend: when every level lies on
      `a·x + b` and the x values are not all equal, the slope is `a`. */
  lemma LinearTrendIsRecovered(xs: seq<real>, ys: seq<real>, a: real, b: real)
    requires |xs| == |ys| > 0
    requires forall i :: 0 <= i < |xs| ==> ys[i] == a * xs[i] + b
    requires SquaredDeviation(xs, Mean(xs)) != 0.0
    ensures Slope(xs, ys) == a
  {
    var xm, ym := Mean(xs), Mean(ys);
    var d := SquaredDeviation(xs, xm);
    assert Slope(xs, ys) == CrossDeviation(xs, ys, xm, ym) / d;
    assert CrossDeviation(xs, ys, xm, ym) == a * d by {
      MeanOfLineIsOnLine(xs, ys, a, b);
      CrossDeviationOfLine(xs, ys, a, b, xm, ym);
    }
    CancelDivision(a, d);
  }

  /** ... and the intercept is `b`. */
  lemma LinearInterceptIsRecovered(xs: seq<real>, ys: seq<real>, a: real, b: real)
    requires |xs| == |ys| > 0
    requires forall i :: 0 <= i < |xs| ==> ys[i] == a * xs[i] + b
    requires SquaredDeviation(xs, Mean(xs)) != 0.0
    ensures Intercept(xs, ys) == b
  {
    assert Slope(xs, ys) == a by {
      LinearTrendIsRecovered(xs, ys, a, b);
    }
    assert Mean(ys) == a * Mean(xs) + b by {
      MeanOfLineIsOnLine(xs, ys, a, b);
    }
  }

  /** Constant levels give a flat line: slope 0 and an intercept equal to the
      level. */
  lemma ConstantLevelsPredictNoChange(xs: seq<real>, ys: seq<real>, c: real)
    requires |xs| == |ys| > 0
    requires forall i :: 0 <= i < |ys| ==> ys[i] == c
    ensures Slope(xs, ys) == 0.0
    ensures Intercept(xs, ys) == c
  {
    assert forall i :: 0 <= i < |xs| ==> ys[i] == 0.0 * xs[i] + c;
    MeanOfLineIsOnLine(xs, ys, 0.0, c);
    if SquaredDeviation(xs, Mean(xs)) != 0.0 {
      LinearTrendIsRecovered(xs, ys, 0.0, c);
    }
  }

  /** Readings whose levels lie exactly on `a·x + b` (x in hours since the
      first reading) and whose times are not all equal predict that line,
      `hoursAhead` hours past the latest reading, clamped. */
  lemma LinearReadingsPredictLine(readings: seq<Reading>, hoursAhead: int, a: real, b: real)
    requires |readings| >= 2
    requires var sorted := SortedReadings(readings);
             forall i :: 0 <= i < |sorted| ==>
               FillLevels(sorted)[i] == a * Hours(sorted)[i] + b
    requires SquaredDeviation(Hours(SortedReadings(readings)), Mean(Hours(SortedReadings(readings)))) != 0.0
    ensures var sorted := SortedReadings(readings);
            PredictFillLevel(readings, hoursAhead).predictedFillLevel
              == ClampedLine(a, b, Hours(sorted)[|sorted| - 1] + hoursAhead as real)
  {
    assert Slope(Hours(SortedReadings(readings)), FillLevels(SortedReadings(readings))) == a by {
      LinearTrendIsRecovered(Hours(SortedReadings(readings)), FillLevels(SortedReadings(readings)), a, b);
    }
    assert Intercept(Hours(SortedReadings(readings)), FillLevels(SortedReadings(readings))) == b by {
      LinearInterceptIsRecovered(Hours(SortedReadings(readings)), FillLevels(SortedReadings(readings)), a, b);
    }
  }

  /** Readings that all hold the same level predict that level (clamped),
      whatever the horizon. */
  lemma ConstantReadingsPredictLevel(readings: seq<Reading>, hoursAhead: int, c: real)
    requires |readings| >= 2
    requires forall r :: r in readings ==> r.fillLevelPercent == c
    ensures PredictFillLevel(readings, hoursAhead).predictedFillLevel == Clamp(c)
  {
    var sorted := SortedReadings(readings);
    var hours, levels := Hours(sorted), FillLevels(sorted);
    assert forall i :: 0 <= i < |levels| ==> levels[i] == c by {
      forall i | 0 <= i < |levels| ensures levels[i] == c {
        assert sorted[i] in multiset(readings);
      }
    }
    assert Slope(hours, levels) == 0.0 && Intercept(hours, levels) == c by {
      ConstantLevelsPredictNoChange(hours, levels, c);
    }
  }
}
