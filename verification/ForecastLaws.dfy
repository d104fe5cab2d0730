/** What the forecaster of backend/services/analytics/Forecast.go guarantees about its output. */
module ForecastLaws {
  import opened Forecast
  import ForecastPipeline

  // ---------------------------------------------------------------------------
  // Bounds
  // ---------------------------------------------------------------------------

  lemma RoundMonotone(x: real, y: real)
    requires x <= y
    ensures Round(x) <= Round(y)
    ensures x >= 0.0 ==> Round(x) >= 0
  {
  }

  lemma Round2Monotone(x: real, y: real)
    requires x <= y
    ensures Round2(x) <= Round2(y)
    ensures x >= 0.0 ==> Round2(x) >= 0.0
  {
    RoundMonotone(x * 100.0, y * 100.0);
  }

  lemma WidthNonNegative(z: real, stdDev: real, root: real)
    requires z > 0.0 && stdDev >= 0.0 && root >= 0.0
    ensures Width(z, stdDev, root) >= 0.0
  {
    assert z * stdDev >= 0.0;
  }

  ghost predicate Ordered(p: Prediction) { p.Prediction? && 0.0 <= p.lower <= p.predicted <= p.upper }

  /** For any components, horizon and confidence the interval encloses the forecast and is never negative. */
  lemma PredictionsAreOrdered(
      sqrt: real -> real, s: Components, stdDev: real, start: int, h: nat, confidence: real)
    requires IsSqrt(sqrt) && Weekly(s) && stdDev >= 0.0
    ensures Ordered(Predicted(sqrt, s, stdDev, start, h, confidence))
  {
    var point := PointForecast(s, start, h);
    var root := sqrt((h + 1) as real);
    assert root >= 0.0;
    var width := Width(ZScore(confidence), stdDev, root);
    WidthNonNegative(ZScore(confidence), stdDev, root);
    Round2Monotone(point - width, point);
    Round2Monotone(point, point + width);
    Round2Monotone(0.0, point);
  }

  /** Rounding is to a nearest whole number, and half way between two away from zero. */
  lemma RoundIsNearest(x: real)
    ensures x >= 0.0 ==> Round(x) as real - 0.5 <= x < Round(x) as real + 0.5
    ensures x < 0.0 ==> Round(x) as real - 0.5 < x <= Round(x) as real + 0.5
  {
  }

  /** Rounding to cents is off by at most half a cent, and gives whole cents. */
  lemma Round2IsNearest(x: real)
    ensures Round2(x) - 0.005 <= x <= Round2(x) + 0.005
    ensures (Round2(x) * 100.0).Floor as real == Round2(x) * 100.0
  {
    RoundIsNearest(x * 100.0);
  }

  lemma SquareOfOpposite(x: real)
    ensures Sq(-x) == Sq(x)
  {
  }

  lemma PositiveSquare(x: real)
    requires x > 0.0
    ensures Sq(x) > 0.0
  {
    calc {
      Sq(x);
      x * x;
    >
      0.0 * x;
      0.0;
    }
  }

  /** A square is positive unless its root is zero. */
  lemma SquareSign(x: real)
    ensures x != 0.0 ==> Sq(x) > 0.0
    ensures x == 0.0 ==> Sq(x) == 0.0
  {
    if x > 0.0 {
      PositiveSquare(x);
    } else if x < 0.0 {
      PositiveSquare(-x);
      SquareOfOpposite(x);
    }
  }

  // ---------------------------------------------------------------------------
  // How the interval widens
  // ---------------------------------------------------------------------------

  /** Half the interval before rounding. */
  function HalfWidth(sqrt: real -> real, stdDev: real, h: nat, confidence: real): real {
    Width(ZScore(confidence), stdDev, sqrt((h + 1) as real))
  }

  lemma SquareOfProduct(a: real, root: real)
    ensures Sq(a * root) == Sq(a) * Sq(root)
  {
    calc {
      Sq(a * root);
      a * root * (a * root);
      a * (root * a) * root;
      a * (a * root) * root;
      Sq(a) * Sq(root);
    }
  }

  lemma ScaledUp(x: real, a: real, b: real)
    requires x > 0.0 && a < b
    ensures x * a < x * b
  {
    assert x * (b - a) > 0.0;
  }

  lemma SquaresAroundOne(root: real)
    ensures 0.0 <= root < 1.0 ==> Sq(root) < 1.0
    ensures root > 1.0 ==> Sq(root) > 1.0
  {
    if 0.0 < root < 1.0 {
      ScaledUp(root, root, 1.0);
    } else if root > 1.0 {
      ScaledUp(root, 1.0, root);
    }
  }

  lemma RootOfOne(root: real)
    requires root >= 0.0 && Sq(root) == 1.0
    ensures root == 1.0
  {
    SquaresAroundOne(root);
  }

  /** The square of the half width grows in proportion to the days ahead. */
  lemma WidthSquared(sqrt: real -> real, stdDev: real, h: nat, confidence: real)
    requires IsSqrt(sqrt) && stdDev >= 0.0
    ensures HalfWidth(sqrt, stdDev, h, confidence) >= 0.0
    ensures Sq(HalfWidth(sqrt, stdDev, h, confidence)) == Sq(ZScore(confidence) * stdDev) * (h + 1) as real
    ensures HalfWidth(sqrt, stdDev, 0, confidence) == ZScore(confidence) * stdDev
  {
    SquareOfProduct(ZScore(confidence) * stdDev, sqrt((h + 1) as real));
    WidthNonNegative(ZScore(confidence), stdDev, sqrt((h + 1) as real));
    RootOfOne(sqrt(1.0));
  }

  lemma SmallerSquare(a: real, b: real)
    requires a >= 0.0 && b >= 0.0 && Sq(a) < Sq(b)
    ensures a < b
  {
    assert (b - a) * (b + a) == Sq(b) - Sq(a);
  }

  /** Unless the model is exact, every later day has a strictly wider interval. */
  lemma WidthGrows(sqrt: real -> real, stdDev: real, h: nat, later: nat, confidence: real)
    requires IsSqrt(sqrt) && stdDev > 0.0 && h < later
    ensures HalfWidth(sqrt, stdDev, h, confidence) < HalfWidth(sqrt, stdDev, later, confidence)
  {
    var z := ZScore(confidence);
    WidthSquared(sqrt, stdDev, h, confidence);
    WidthSquared(sqrt, stdDev, later, confidence);
    ScaledUp(z, 0.0, stdDev);
    PositiveSquare(z * stdDev);
    ScaledUp(Sq(z * stdDev), (h + 1) as real, (later + 1) as real);
    SmallerSquare(HalfWidth(sqrt, stdDev, h, confidence), HalfWidth(sqrt, stdDev, later, confidence));
  }

  /**
  More confidence takes a wider interval, from 0.8 on; what is below that gets the factor of
  0.95, which is wider than that of 0.8. The services use 0.95.
  */
  lemma ConfidenceWidens(confidence: real, more: real)
    requires confidence <= more
    ensures 0.8 <= confidence ==> ZScore(confidence) <= ZScore(more)
    ensures confidence < 0.8 ==> ZScore(confidence) == ZScore(0.95) > ZScore(0.8)
    ensures ZScore(0.8) < ZScore(0.9) < ZScore(0.95) < ZScore(0.99) && ZScore(0.95) == 1.96
  {
  }

  /** The three values of a prediction are the point and its two bounds, up to half a cent. */
  lemma PredictedWithinHalfACent(
      sqrt: real -> real, s: Components, stdDev: real, start: int, h: nat, confidence: real)
    requires IsSqrt(sqrt) && Weekly(s) && stdDev >= 0.0
    ensures var p, point := Predicted(sqrt, s, stdDev, start, h, confidence), PointForecast(s, start, h);
            var w := HalfWidth(sqrt, stdDev, h, confidence);
            && p.Prediction? && p.day == start + h + 1 && p.confidence == confidence
            && p.predicted - 0.005 <= point <= p.predicted + 0.005
            && p.upper - 0.005 <= point + w <= p.upper + 0.005
            && p.lower - 0.005 <= Max(0.0, point - w) <= p.lower + 0.005
  {
    var point, w := PointForecast(s, start, h), HalfWidth(sqrt, stdDev, h, confidence);
    Round2IsNearest(point);
    Round2IsNearest(point + w);
    Round2IsNearest(point - w);
    if point - w >= 0.0 {
      Round2Monotone(0.0, point - w);
    } else {
      Round2Monotone(point - w, 0.0);
    }
  }

  lemma BoundsSpread(point: real, w: real, wider: real)
    requires w <= wider
    ensures Round2(point + w) <= Round2(point + wider)
    ensures Max(0.0, Round2(point - wider)) <= Max(0.0, Round2(point - w))
    ensures w + 0.01 < wider ==> Round2(point + w) < Round2(point + wider)
  {
    Round2Monotone(point + w, point + wider);
    Round2Monotone(point - wider, point - w);
    Round2IsNearest(point + w);
    Round2IsNearest(point + wider);
  }

  /** Around equal forecasts a later day has bounds no closer, and the upper one is farther if there is a cent in it. */
  lemma LaterBoundsSpread(
      sqrt: real -> real, s: Components, stdDev: real, start: int, h: nat, later: nat, confidence: real)
    requires IsSqrt(sqrt) && Weekly(s) && stdDev > 0.0 && h < later
    requires PointForecast(s, start, h) == PointForecast(s, start, later)
    ensures var near := Predicted(sqrt, s, stdDev, start, h, confidence);
            var far := Predicted(sqrt, s, stdDev, start, later, confidence);
            && far.lower <= near.lower && near.upper <= far.upper
            && (HalfWidth(sqrt, stdDev, h, confidence) + 0.01 < HalfWidth(sqrt, stdDev, later, confidence) ==>
                  near.upper < far.upper)
  {
    WidthGrows(sqrt, stdDev, h, later, confidence);
    BoundsSpread(PointForecast(s, start, h), HalfWidth(sqrt, stdDev, h, confidence),
                 HalfWidth(sqrt, stdDev, later, confidence));
  }

  lemma WiderFactor(z: real, factor: real, stdDev: real, root: real)
    requires z <= factor && stdDev >= 0.0 && root >= 0.0
    ensures Width(z, stdDev, root) <= Width(factor, stdDev, root)
  {
    assert (factor - z) * stdDev >= 0.0;
    assert (factor - z) * stdDev * root >= 0.0;
    assert (factor - z) * stdDev * root == factor * stdDev * root - z * stdDev * root;
  }

  /** The bounds for more confidence enclose those for less. */
  lemma ConfidentBoundsSpread(
      sqrt: real -> real, s: Components, stdDev: real, start: int, h: nat, confidence: real, more: real)
    requires IsSqrt(sqrt) && Weekly(s) && stdDev >= 0.0 && 0.8 <= confidence <= more
    ensures var narrow := Predicted(sqrt, s, stdDev, start, h, confidence);
            var wide := Predicted(sqrt, s, stdDev, start, h, more);
            wide.lower <= narrow.lower && narrow.upper <= wide.upper
  {
    ConfidenceWidens(confidence, more);
    WiderFactor(ZScore(confidence), ZScore(more), stdDev, sqrt((h + 1) as real));
    BoundsSpread(PointForecast(s, start, h), HalfWidth(sqrt, stdDev, h, confidence),
                 HalfWidth(sqrt, stdDev, h, more));
  }

  /** Four days ahead, a level of 100 with a deviation of 5 gives 80.40 to 119.60 at a confidence of 0.95. */
  lemma FourDaysAhead(sqrt: real -> real, start: int)
    requires IsSqrt(sqrt)
    ensures Predicted(sqrt, ZEROS.(level := 100.0), 5.0, start, 3, 0.95) ==
            Prediction(start + 4, 100.0, 80.4, 119.6, 0.95)
  {
    RootOfOne(sqrt(4.0) / 2.0);
    assert sqrt(4.0) == 2.0;
    assert Width(1.96, 5.0, 2.0) == 19.6;
    assert PointForecast(ZEROS.(level := 100.0), start, 3) == 100.0;
    assert Round2(100.0) == 100.0 && Round2(119.6) == 119.6 && Round2(80.4) == 80.4;
  }

  ghost predicate AllZero(rs: seq<real>) { forall i :: 0 <= i < |rs| ==> rs[i] == 0.0 }

  lemma {:induction false} SumSquaresSign(rs: seq<real>)
    ensures !AllZero(rs) ==> SumSquares(rs) > 0.0
    ensures AllZero(rs) ==> SumSquares(rs) == 0.0
  {
    if rs == [] {
    } else {
      var n := |rs| - 1;
      SumSquaresSign(rs[..n]);
      SquareSign(rs[n]);
      assert forall i :: 0 <= i < n ==> rs[..n][i] == rs[i];
    }
  }

  lemma QuotientSign(x: real, y: real)
    requires x >= 0.0 && y > 0.0
    ensures x / y >= 0.0
    ensures x > 0.0 ==> x / y > 0.0
    ensures x == 0.0 ==> x / y == 0.0
  {
  }

  /** The residual deviation is a deviation: never negative, and zero exactly when no residual is off. */
  lemma StdDevIsDeviation(sqrt: real -> real, rs: seq<real>)
    requires IsSqrt(sqrt) && |rs| > 1
    ensures StdDev(sqrt, rs) >= 0.0
    ensures StdDev(sqrt, rs) == 0.0 <==> AllZero(rs)
  {
    SumSquaresSign(rs);
    QuotientSign(SumSquares(rs), (|rs| - 1) as real);
    SquareSign(StdDev(sqrt, rs));
  }

  lemma {:induction false} EvenSquares(rs: seq<real>, size: real)
    requires forall i :: 0 <= i < |rs| ==> rs[i] == size || rs[i] == -size
    ensures SumSquares(rs) == |rs| as real * Sq(size)
  {
    if rs == [] {
    } else {
      var n := |rs| - 1;
      EvenSquares(rs[..n], size);
      SquareOfOpposite(size);
      assert |rs| as real * Sq(size) == n as real * Sq(size) + Sq(size);
    }
  }

  /** Errors that are all of one size, up or down, have that size as their deviation, but for the divisor. */
  lemma EvenErrors(sqrt: real -> real, rs: seq<real>, size: real)
    requires IsSqrt(sqrt) && |rs| > 1
    requires forall i :: 0 <= i < |rs| ==> rs[i] == size || rs[i] == -size
    ensures Sq(StdDev(sqrt, rs)) == |rs| as real / (|rs| - 1) as real * Sq(size)
  {
    EvenSquares(rs, size);
    SumSquaresSign(rs);
    QuotientSign(SumSquares(rs), (|rs| - 1) as real);
  }

  /** Rounding a demand forecast to whole units keeps the order of the three values. */
  function WholeUnits(p: Prediction): Prediction
    requires p.Prediction?
  {
    p.(predicted := Round(p.predicted) as real, lower := p.lower.Floor as real, upper := Ceil(p.upper) as real)
  }

  function Ceil(x: real): int { -((-x).Floor) }

  lemma CeilBounds(x: real)
    ensures x <= Ceil(x) as real < x + 1.0
  {
  }

  lemma RoundBetween(x: real)
    requires x >= 0.0
    ensures x.Floor <= Round(x) <= Ceil(x)
  {
    CeilBounds(x);
    assert x + 0.5 < (Ceil(x) + 1) as real;
  }

  lemma FloorMonotone(x: real, y: real)
    requires x <= y
    ensures x.Floor <= y.Floor && Ceil(x) <= Ceil(y)
  {
    CeilBounds(x);
    CeilBounds(y);
  }

  lemma WholeUnitsOrdered(p: Prediction)
    requires Ordered(p)
    ensures Ordered(WholeUnits(p))
  {
    RoundBetween(p.predicted);
    FloorMonotone(p.lower, p.predicted);
    FloorMonotone(p.predicted, p.upper);
  }

  lemma {:induction false} ErrorSumNonNegative(s: Components, data: seq<DataPoint>)
    requires Weekly(s)
    ensures SumSquaredErrors(s, data) >= 0.0
  {
    if data == [] {
    } else {
      var i := |data| - 1;
      ErrorSumNonNegative(s, data[..i]);
      SquareSign(ErrorAt(s, data[i], i));
    }
  }

  lemma {:induction false} DeviationSumNonNegative(mean: real, data: seq<DataPoint>)
    ensures SumSquaredDeviations(mean, data) >= 0.0
  {
    if data == [] {
    } else {
      DeviationSumNonNegative(mean, data[..|data| - 1]);
      SquareSign(data[|data| - 1].value - mean);
    }
  }

  /** Accuracy is a proportion, for any model and any data. */
  lemma AccuracyInUnit(s: Components, data: seq<DataPoint>)
    requires Weekly(s)
    ensures 0.0 <= Accuracy(s, data) <= 1.0
  {
    if |data| >= 2 {
      var mean := Mean(data);
      ErrorSumNonNegative(s, data);
      DeviationSumNonNegative(mean, data);
      var total := SumSquaredDeviations(mean, data);
      if total != 0.0 {
        var ratio := SumSquaredErrors(s, data) / total;
        QuotientSign(SumSquaredErrors(s, data), total);
        var r2 := Max(0.0, 1.0 - ratio);
        assert 0.0 <= r2 <= 1.0;
        RoundMonotone(0.0, r2 * 10000.0);
        RoundMonotone(r2 * 10000.0, 10000.0);
      }
    }
  }

  /**
  Of two or more observations that are not all alike the accuracy is the share of their
  squared deviation from the mean that the model explains, none if it does worse than the mean, to
  within half a ten-thousandth.
  */
  lemma AccuracyIsShare(s: Components, data: seq<DataPoint>)
    requires Weekly(s) && |data| >= 2 && SumSquaredDeviations(Mean(data), data) != 0.0
    ensures var unexplained := SumSquaredErrors(s, data) / SumSquaredDeviations(Mean(data), data);
            Accuracy(s, data) - 0.00005 <= Max(0.0, 1.0 - unexplained) <= Accuracy(s, data) + 0.00005
  {
    RoundIsNearest(Max(0.0, 1.0 - SumSquaredErrors(s, data) / SumSquaredDeviations(Mean(data), data)) * 10000.0);
  }

  function Total(xs: seq<real>): real {
    if xs == [] then 0.0 else Total(xs[..|xs| - 1]) + xs[|xs| - 1]
  }

  lemma {:induction false} TotalOfUnits(xs: seq<real>)
    requires forall i :: 0 <= i < |xs| ==> 0.0 <= xs[i] <= 1.0
    ensures 0.0 <= Total(xs) <= |xs| as real
  {
    if xs == [] {
    } else {
      TotalOfUnits(xs[..|xs| - 1]);
      assert 0.0 <= xs[|xs| - 1] <= 1.0;
    }
  }

  /** A fitted model: its components and the observations it is scored on. */
  datatype Fitted = Fitted(components: Components, data: seq<DataPoint>)

  function Accuracies(models: seq<Fitted>): seq<real>
    requires forall m :: m in models ==> Weekly(m.components)
  {
    seq(|models|, i requires 0 <= i < |models| => Accuracy(models[i].components, models[i].data))
  }

  /** The model accuracy recorded by the training stage: the mean, or what was there when there is no model. */
  function MeanAccuracy(previous: real, models: seq<Fitted>): real
    requires forall m :: m in models ==> Weekly(m.components)
  {
    if |models| > 0 then Total(Accuracies(models)) / |models| as real else previous
  }

  lemma MeanBetween(total: real, n: real)
    requires n > 0.0 && 0.0 <= total <= n
    ensures 0.0 <= total / n <= 1.0
  {
  }

  /**
  The mean accuracy over any fitted models is a proportion, so the guard behind the training
  stage never refuses a run that started with accuracy zero.
  */
  lemma TrainingIsNeverRefused(run: ForecastPipeline.ForecastRun, models: seq<Fitted>)
    requires run.modelAccuracy == 0.0
    requires forall m :: m in models ==> Weekly(m.components)
    ensures var mean := MeanAccuracy(run.modelAccuracy, models);
            0.0 <= mean <= 1.0 && ForecastPipeline.GuardAfter(2, run.(modelAccuracy := mean))
  {
    var accuracies := Accuracies(models);
    forall i | 0 <= i < |accuracies| ensures 0.0 <= accuracies[i] <= 1.0 {
      AccuracyInUnit(models[i].components, models[i].data);
    }
    TotalOfUnits(accuracies);
    if |models| > 0 {
      MeanBetween(Total(accuracies), |accuracies| as real);
    }
  }

  // ---------------------------------------------------------------------------
  // Smoothing as error correction
  // ---------------------------------------------------------------------------

  /**
  What one observation does, in terms of how far it is off: level, trend and the weekday's
  index are corrected by fixed shares of the error, and no other index is touched.
  */
  lemma ErrorCorrection(s: Components, p: DataPoint)
    requires Weekly(s)
    ensures var r, next := p.value - Expected(s, p.day), Smoothed(s, p);
            && next.level == s.level + s.trend + 0.3 * r
            && next.trend == s.trend + 0.03 * r
            && next.seasonal[Weekday(p.day)] == s.seasonal[Weekday(p.day)] + 0.14 * r
            && forall k :: 0 <= k < 7 && k != Weekday(p.day) ==> next.seasonal[k] == s.seasonal[k]
  {
  }

  /** An observation that was expected moves the level along the trend and nothing else. */
  lemma NothingToCorrect(s: Components, p: DataPoint)
    requires Weekly(s) && p.value == Expected(s, p.day)
    ensures Smoothed(s, p) == s.(level := s.level + s.trend)
  {
    ErrorCorrection(s, p);
    assert Smoothed(s, p).seasonal == s.seasonal;
  }

  // ---------------------------------------------------------------------------
  // Exactness on weekly patterns
  // ---------------------------------------------------------------------------

  /** Consecutive days from `first` whose values repeat a weekly pattern, indexed by weekday. */
  ghost predicate RepeatsPattern(pattern: seq<real>, first: int, data: seq<DataPoint>) {
    && |pattern| == 7
    && forall i :: 0 <= i < |data| ==> data[i] == DataPoint(first + i, pattern[Weekday(first + i)])
  }

  function Mean7(p: seq<real>): real
    requires |p| == 7
  {
    (p[0] + p[1] + p[2] + p[3] + p[4] + p[5] + p[6]) / 7.0
  }

  /** The components that reproduce the pattern from a given level. */
  ghost predicate Reproduces(s: Components, pattern: seq<real>, level: real) {
    && |pattern| == 7 && Weekly(s)
    && s.level == level
    && s.trend == 0.0
    && forall k :: 0 <= k < 7 ==> s.seasonal[k] == pattern[k] - level
  }

  lemma SumOfSeven(week: seq<DataPoint>)
    requires |week| == 7
    ensures Sum(week) == week[0].value + week[1].value + week[2].value + week[3].value
                         + week[4].value + week[5].value + week[6].value
  {
    assert week[..6][..5] == week[..5] && week[..5][..4] == week[..4] && week[..4][..3] == week[..3];
    assert week[..3][..2] == week[..2] && week[..2][..1] == week[..1] && week[..1][..0] == [];
    assert Sum(week[..1]) == week[0].value;
    assert Sum(week[..2]) == Sum(week[..1]) + week[1].value;
    assert Sum(week[..3]) == Sum(week[..2]) + week[2].value;
    assert Sum(week[..4]) == Sum(week[..3]) + week[3].value;
    assert Sum(week[..5]) == Sum(week[..4]) + week[4].value;
    assert Sum(week[..6]) == Sum(week[..5]) + week[5].value;
  }

  /** The seven values of a week that starts on weekday `w`, added up. */
  function Rotated(p: seq<real>, w: nat): real
    requires |p| == 7 && w < 7
  {
    p[w] + p[(w + 1) % 7] + p[(w + 2) % 7] + p[(w + 3) % 7] + p[(w + 4) % 7] + p[(w + 5) % 7] + p[(w + 6) % 7]
  }

  lemma RotationKeepsSum(p: seq<real>, w: nat)
    requires |p| == 7 && w < 7
    ensures Rotated(p, w) / 7.0 == Mean7(p)
  {
    assert w == 0 || w == 1 || w == 2 || w == 3 || w == 4 || w == 5 || w == 6;
  }

  lemma WeekValue(pattern: seq<real>, first: int, week: seq<DataPoint>, i: nat)
    requires |week| == 7 && i < 7 && RepeatsPattern(pattern, first, week)
    ensures week[i].value == pattern[(Weekday(first) + i) % 7]
  {
    assert week[i] == DataPoint(first + i, pattern[Weekday(first + i)]);
  }

  lemma WeekIsRotation(pattern: seq<real>, first: int, week: seq<DataPoint>)
    requires |week| == 7 && RepeatsPattern(pattern, first, week)
    ensures Sum(week) == Rotated(pattern, Weekday(first))
  {
    SumOfSeven(week);
    WeekValue(pattern, first, week, 0);
    WeekValue(pattern, first, week, 1);
    WeekValue(pattern, first, week, 2);
    WeekValue(pattern, first, week, 3);
    WeekValue(pattern, first, week, 4);
    WeekValue(pattern, first, week, 5);
    WeekValue(pattern, first, week, 6);
  }

  /** Seven consecutive days see each weekday once, wherever they start. */
  lemma WeekSum(pattern: seq<real>, first: int, week: seq<DataPoint>)
    requires |week| == 7 && RepeatsPattern(pattern, first, week)
    ensures Sum(week) / 7.0 == Mean7(pattern)
  {
    WeekIsRotation(pattern, first, week);
    RotationKeepsSum(pattern, Weekday(first));
  }

  lemma DaysApart(a: int, d: int)
    requires 0 < d < 7
    ensures Weekday(a + d) != Weekday(a)
  {
  }

  lemma {:induction false} SeededDays(
      seasonal: seq<real>, pattern: seq<real>, first: int, week: seq<DataPoint>, average: real)
    requires |seasonal| == 7 && |week| <= 7 && RepeatsPattern(pattern, first, week)
    ensures forall i :: 0 <= i < |week| ==>
              Seeded(seasonal, week, average)[Weekday(week[i].day)] == week[i].value - average
  {
    if week == [] {
    } else {
      var n := |week| - 1;
      SeededDays(seasonal, pattern, first, week[..n], average);
      var seeded := Seeded(seasonal, week, average);
      forall i | 0 <= i < |week| ensures seeded[Weekday(week[i].day)] == week[i].value - average {
        if i < n {
          assert week[..n][i] == week[i];
          DaysApart(first + i, n - i);
        }
      }
    }
  }

  lemma SeededWeek(seasonal: seq<real>, pattern: seq<real>, first: int, week: seq<DataPoint>, average: real)
    requires |seasonal| == 7 && |week| == 7 && RepeatsPattern(pattern, first, week)
    ensures forall k :: 0 <= k < 7 ==> Seeded(seasonal, week, average)[k] == pattern[k] - average
  {
    SeededDays(seasonal, pattern, first, week, average);
    forall k | 0 <= k < 7 ensures Seeded(seasonal, week, average)[k] == pattern[k] - average {
      var i := (k - first) % 7;
      assert Weekday(first + i) == k;
      assert week[i] == DataPoint(first + i, pattern[k]);
    }
  }

  /** A model that reproduces the pattern predicts every day exactly and does not move. */
  lemma FixedPoint(s: Components, pattern: seq<real>, level: real, day: int)
    requires Reproduces(s, pattern, level)
    ensures Expected(s, day) == pattern[Weekday(day)]
    ensures Smoothed(s, DataPoint(day, pattern[Weekday(day)])) == s
  {
    var dow := Weekday(day);
    var next := Smoothed(s, DataPoint(day, pattern[dow]));
    assert next.level == level;
    assert next.trend == 0.0;
    assert next.seasonal == s.seasonal;
  }

  lemma {:induction false} SmoothingStaysPut(
      s: Components, pattern: seq<real>, level: real, first: int, data: seq<DataPoint>)
    requires Reproduces(s, pattern, level) && RepeatsPattern(pattern, first, data)
    ensures SmoothedAll(s, data) == s
    ensures AllZero(Residuals(s, data))
  {
    if data == [] {
    } else {
      var n := |data| - 1;
      SmoothingStaysPut(s, pattern, level, first, data[..n]);
      FixedPoint(s, pattern, level, first + n);
    }
  }

  lemma {:induction false} FirstResidual(s: Components, data: seq<DataPoint>)
    requires Weekly(s) && data != []
    ensures Residuals(s, data)[0] == data[0].value - Expected(s, data[0].day)
  {
    var n := |data| - 1;
    if n == 0 {
      assert data[..n] == [];
    } else {
      FirstResidual(s, data[..n]);
      assert data[..n][0] == data[0];
    }
  }

  /** The level the fit settles on. */
  function SettledLevel(pattern: seq<real>): real
    requires |pattern| == 7
  {
    if Mean7(pattern) == 0.0 then 1.0 else Mean7(pattern)
  }

  /** Where the fit of a fresh model starts on a weekly pattern. */
  lemma InitialOnPattern(pattern: seq<real>, first: int, data: seq<DataPoint>)
    requires RepeatsPattern(pattern, first, data) && |data| >= 7
    ensures var s := Initial(ZEROS, data);
            && s.level == SettledLevel(pattern)
            && (forall k :: 0 <= k < 7 ==> s.seasonal[k] == pattern[k] - s.level)
            && s.trend == if |data| >= 14 && Mean7(pattern) == 0.0 then -1.0 / 7.0 else 0.0
  {
    WeekSum(pattern, first, data[..7]);
    SeededWeek(ZEROS.seasonal, pattern, first, data[..7], WeekAverage(data));
    if |data| >= 14 {
      var second := data[7..14];
      assert RepeatsPattern(pattern, first + 7, second);
      WeekSum(pattern, first + 7, second);
    }
  }

  /**
  Holt-Winters is exact on weekly patterns. Fitting a fresh model to at least a week of
  consecutive days that repeat a pattern leaves no residual deviation exactly when the
  pattern's mean is not zero or there are fewer than two weeks of it; then the trend is
  zero, the level is the mean (1 for a zero mean) and the seasonal indices are the
  pattern's deviations from the level.
  */
  lemma ExactOnWeeklyPatterns(sqrt: real -> real, pattern: seq<real>, first: int, data: seq<DataPoint>)
    requires IsSqrt(sqrt) && RepeatsPattern(pattern, first, data) && |data| >= 7
    ensures var s := SmoothedAll(Initial(ZEROS, data), data);
            var stdDev := StdDev(sqrt, Residuals(Initial(ZEROS, data), data));
            && (stdDev == 0.0 <==> Mean7(pattern) != 0.0 || |data| < 14)
            && (stdDev == 0.0 ==> Reproduces(s, pattern, SettledLevel(pattern)))
  {
    var start := Initial(ZEROS, data);
    InitialOnPattern(pattern, first, data);
    StdDevIsDeviation(sqrt, Residuals(start, data));
    if Mean7(pattern) != 0.0 || |data| < 14 {
      SmoothingStaysPut(start, pattern, SettledLevel(pattern), first, data);
    } else {
      FirstResidual(start, data);
      assert data[0].value - Expected(start, data[0].day) == 1.0 / 7.0;
    }
  }

  ghost predicate Consecutive(first: int, data: seq<DataPoint>) {
    forall i :: 0 <= i < |data| ==> data[i].day == first + i
  }

  /** The weekly pattern of the first week. */
  function FirstWeek(first: int, data: seq<DataPoint>): (pattern: seq<real>)
    requires |data| >= 7
    ensures |pattern| == 7
  {
    seq(7, k => data[(k - first) % 7].value)
  }

  lemma DayOfWeekday(first: int, i: int)
    requires 0 <= i < 7
    ensures (Weekday(first + i) - first) % 7 == i
  {
  }

  lemma FirstWeekRepeats(first: int, data: seq<DataPoint>)
    requires Consecutive(first, data) && |data| >= 7
    ensures RepeatsPattern(FirstWeek(first, data), first, data[..7])
  {
    forall i | 0 <= i < 7
      ensures data[..7][i] == DataPoint(first + i, FirstWeek(first, data)[Weekday(first + i)])
    {
      DayOfWeekday(first, i);
    }
  }

  /** Without errors and without a trend the components stay, and the observations are what they expect. */
  lemma {:induction false} NoErrorsNoMoves(s: Components, data: seq<DataPoint>)
    requires Weekly(s) && s.trend == 0.0 && AllZero(Residuals(s, data))
    ensures SmoothedAll(s, data) == s
    ensures forall i :: 0 <= i < |data| ==> data[i].value == s.level + s.seasonal[Weekday(data[i].day)]
  {
    if data == [] {
    } else {
      var n := |data| - 1;
      assert forall i :: 0 <= i < n ==> Residuals(s, data[..n])[i] == Residuals(s, data)[i];
      NoErrorsNoMoves(s, data[..n]);
      assert Residuals(s, data)[n] == 0.0;
      NothingToCorrect(s, data[n]);
    }
  }

  /** The first error of a fit is the trend it starts with. */
  lemma FirstErrorIsTrend(first: int, data: seq<DataPoint>)
    requires Consecutive(first, data) && |data| >= 7
    ensures Residuals(Initial(ZEROS, data), data)[0] == -Initial(ZEROS, data).trend
    ensures forall k :: 0 <= k < 7 ==>
              Initial(ZEROS, data).seasonal[k] == FirstWeek(first, data)[k] - WeekAverage(data)
  {
    var pattern := FirstWeek(first, data);
    FirstWeekRepeats(first, data);
    SeededWeek(ZEROS.seasonal, pattern, first, data[..7], WeekAverage(data));
    FirstResidual(Initial(ZEROS, data), data);
    assert data[..7][0] == DataPoint(first, pattern[Weekday(first)]);
  }

  lemma ErrorFreeRepeats(s: Components, pattern: seq<real>, first: int, data: seq<DataPoint>)
    requires Reproduces(s, pattern, s.level) && Consecutive(first, data) && AllZero(Residuals(s, data))
    ensures RepeatsPattern(pattern, first, data)
  {
    NoErrorsNoMoves(s, data);
    forall i | 0 <= i < |data| ensures data[i] == DataPoint(first + i, pattern[Weekday(first + i)]) {
      assert data[i].value == s.level + s.seasonal[Weekday(data[i].day)];
    }
  }

  lemma ErrorFreeFitRepeats(first: int, data: seq<DataPoint>)
    requires Consecutive(first, data) && |data| >= 7
    requires AllZero(Residuals(Initial(ZEROS, data), data))
    ensures RepeatsPattern(FirstWeek(first, data), first, data)
  {
    FirstErrorIsTrend(first, data);
    assert Residuals(Initial(ZEROS, data), data)[0] == 0.0;
    ErrorFreeRepeats(Initial(ZEROS, data), FirstWeek(first, data), first, data);
  }

  /**
  Exactly which series of at least a week of consecutive days a fresh model is fitted to
  without any deviation: those that repeat their first week, and of these only the ones of
  less than two weeks when its mean is zero. A series with any trend is not among them.
  */
  lemma FitIsExactExactly(sqrt: real -> real, first: int, data: seq<DataPoint>)
    requires IsSqrt(sqrt) && Consecutive(first, data) && |data| >= 7
    ensures var pattern := FirstWeek(first, data);
            FittedDeviation(sqrt, ZEROS, data) == 0.0 <==>
              RepeatsPattern(pattern, first, data) && (Mean7(pattern) != 0.0 || |data| < 14)
  {
    StdDevIsDeviation(sqrt, Residuals(Initial(ZEROS, data), data));
    if FittedDeviation(sqrt, ZEROS, data) == 0.0 {
      ErrorFreeFitRepeats(first, data);
    }
    if RepeatsPattern(FirstWeek(first, data), first, data) {
      ExactOnWeeklyPatterns(sqrt, FirstWeek(first, data), first, data);
    }
  }

  /** Then every forecast, at any horizon from any day, is the rounded pattern value with no interval around it. */
  lemma ExactForecasts(
      sqrt: real -> real, s: Components, pattern: seq<real>, level: real, start: int, h: nat, confidence: real)
    requires Reproduces(s, pattern, level)
    ensures var value := Round2(Max(0.0, pattern[Weekday(start + h + 1)]));
            Predicted(sqrt, s, 0.0, start, h, confidence) ==
            Prediction(start + h + 1, value, value, value, confidence)
  {
    var point := PointForecast(s, start, h);
    assert s.trend * (h + 1) as real == 0.0;
    assert point == Max(0.0, pattern[Weekday(start + h + 1)]);
    assert Width(ZScore(confidence), 0.0, sqrt((h + 1) as real)) == 0.0;
    Round2Monotone(0.0, point);
  }

  lemma {:induction false} NoErrors(s: Components, pattern: seq<real>, level: real, first: int, data: seq<DataPoint>)
    requires Reproduces(s, pattern, level) && RepeatsPattern(pattern, first, data)
    ensures SumSquaredErrors(s, data) == 0.0
  {
    if data == [] {
    } else {
      var i := |data| - 1;
      NoErrors(s, pattern, level, first, data[..i]);
      assert s.trend * i as real == 0.0;
    }
  }

  /** And the model's accuracy is 1. */
  lemma ExactAccuracy(s: Components, pattern: seq<real>, level: real, first: int, data: seq<DataPoint>)
    requires Reproduces(s, pattern, level) && RepeatsPattern(pattern, first, data) && |data| >= 2
    ensures Accuracy(s, data) == 1.0
  {
    NoErrors(s, pattern, level, first, data);
    var total := SumSquaredDeviations(Mean(data), data);
    if total != 0.0 {
      assert SumSquaredErrors(s, data) / total == 0.0;
      assert Max(0.0, 1.0 - 0.0) * 10000.0 == 10000.0;
    }
  }

  /** The weekday's rounded pattern value, with nothing around it. */
  function ExactPrediction(pattern: seq<real>, day: int, confidence: real): Prediction
    requires |pattern| == 7
  {
    var value := Round2(pattern[Weekday(day)]); Prediction(day, value, value, value, confidence)
  }

  /**
  The whole chain for a non-negative pattern: a fresh model fitted to it forecasts, for
  every day ahead and every confidence, the rounded pattern value of that weekday with both
  bounds equal to it, and scores an accuracy of 1.
  */
  lemma WeeklyForecastsAreExact(
      sqrt: real -> real, pattern: seq<real>, first: int, data: seq<DataPoint>, h: nat, confidence: real)
    requires IsSqrt(sqrt) && RepeatsPattern(pattern, first, data) && |data| >= 7
    requires forall k :: 0 <= k < 7 ==> pattern[k] >= 0.0
    requires Mean7(pattern) != 0.0 || |data| < 14
    ensures var s := SmoothedAll(Initial(ZEROS, data), data);
            var stdDev := StdDev(sqrt, Residuals(Initial(ZEROS, data), data));
            var last := data[|data| - 1].day;
            && Predicted(sqrt, s, stdDev, last, h, confidence) == ExactPrediction(pattern, last + h + 1, confidence)
            && Accuracy(s, data) == 1.0
  {
    ExactOnWeeklyPatterns(sqrt, pattern, first, data);
    var s := SmoothedAll(Initial(ZEROS, data), data);
    FromReproduction(sqrt, s, pattern, SettledLevel(pattern), first, data, h, confidence);
  }

  lemma FromReproduction(
      sqrt: real -> real, s: Components, pattern: seq<real>, level: real, first: int, data: seq<DataPoint>,
      h: nat, confidence: real)
    requires Reproduces(s, pattern, level) && RepeatsPattern(pattern, first, data) && |data| >= 2
    requires forall k :: 0 <= k < 7 ==> pattern[k] >= 0.0
    ensures var last := data[|data| - 1].day;
            && Predicted(sqrt, s, 0.0, last, h, confidence) == ExactPrediction(pattern, last + h + 1, confidence)
            && Accuracy(s, data) == 1.0
  {
    ExactForecasts(sqrt, s, pattern, level, data[|data| - 1].day, h, confidence);
    ExactAccuracy(s, pattern, level, first, data);
  }

  // ---------------------------------------------------------------------------
  // Lines
  // ---------------------------------------------------------------------------

  /** How far a slope leads in some days. */
  function Climb(slope: real, days: nat): real {
    if days == 0 then 0.0 else Climb(slope, days - 1) + slope
  }

  lemma {:induction false} ClimbIsProduct(slope: real, days: nat)
    ensures Climb(slope, days) == slope * days as real
  {
    if days == 0 {
    } else {
      ClimbIsProduct(slope, days - 1);
      assert slope * days as real == slope * (days - 1) as real + slope;
    }
  }

  lemma {:induction false} ClimbOn(slope: real, a: nat, b: nat)
    ensures Climb(slope, a + b) == Climb(slope, a) + Climb(slope, b)
  {
    if b == 0 {
    } else {
      ClimbOn(slope, a, b - 1);
    }
  }

  /** The components moved along their trend for some days. */
  function AlongLine(s: Components, days: nat): Components { s.(level := s.level + Climb(s.trend, days)) }

  /** Consecutive days from `first` on the line of the components, each with its weekday's deviation. */
  ghost predicate FollowsLine(s: Components, first: int, data: seq<DataPoint>) {
    && Weekly(s)
    && forall i :: 0 <= i < |data| ==>
         data[i] == DataPoint(first + i, AlongLine(s, i + 1).level + s.seasonal[Weekday(first + i)])
  }

  /**
  Components with a trend of any slope predict every day on their line, move along it and keep
  their trend and indices.
  */
  lemma {:induction false} LineIsFollowed(s: Components, first: int, data: seq<DataPoint>)
    requires FollowsLine(s, first, data)
    ensures SmoothedAll(s, data) == AlongLine(s, |data|)
    ensures AllZero(Residuals(s, data))
  {
    if data == [] {
    } else {
      var n := |data| - 1;
      LineIsFollowed(s, first, data[..n]);
      NothingToCorrect(SmoothedAll(s, data[..n]), data[n]);
    }
  }

  lemma PointIsClimb(s: Components, start: int, h: nat)
    requires Weekly(s)
    ensures PointForecast(s, start, h) ==
            Max(0.0, AlongLine(s, h + 1).level + s.seasonal[Weekday(start + h + 1)])
  {
    ClimbIsProduct(s.trend, h + 1);
  }

  /** Wherever they have got to on it, they forecast the rest of the line, cut off at zero. */
  lemma LineIsForecast(s: Components, days: nat, start: int, h: nat)
    requires Weekly(s)
    ensures PointForecast(AlongLine(s, days), start, h) ==
            Max(0.0, AlongLine(s, days + h + 1).level + s.seasonal[Weekday(start + h + 1)])
  {
    PointIsClimb(AlongLine(s, days), start, h);
    ClimbOn(s.trend, days, h + 1);
  }

  lemma ErrorIsClimb(s: Components, p: DataPoint, i: nat)
    requires Weekly(s)
    ensures ErrorAt(s, p, i) == p.value - AlongLine(s, i).level - s.seasonal[Weekday(p.day)]
  {
    ClimbIsProduct(s.trend, i);
  }

  /**
  The score does not see this. It measures the components against the line that starts where
  they have got to, so that every day is off by the climb of the days between.
  */
  lemma LineIsScoredOff(s: Components, first: int, data: seq<DataPoint>, i: nat)
    requires FollowsLine(s, first, data) && i < |data|
    ensures ErrorAt(AlongLine(s, |data|), data[i], i) == -Climb(s.trend, |data| - 1)
  {
    ErrorIsClimb(AlongLine(s, |data|), data[i], i);
  }

  lemma {:induction false} SumWithin(data: seq<DataPoint>, low: real, high: real)
    requires forall i :: 0 <= i < |data| ==> low <= data[i].value <= high
    ensures low * |data| as real <= Sum(data) <= high * |data| as real
  {
    if data == [] {
    } else {
      var n := |data| - 1;
      SumWithin(data[..n], low, high);
      assert low * |data| as real == low * n as real + low && high * |data| as real == high * n as real + high;
      assert low <= data[n].value <= high;
    }
  }

  lemma QuotientWithin(total: real, low: real, high: real, n: real)
    requires n > 0.0 && low * n <= total <= high * n
    ensures low <= total / n <= high
  {
  }

  lemma {:induction false} ClimbGrows(slope: real, a: nat, b: nat)
    requires a <= b
    ensures slope >= 0.0 ==> Climb(slope, a) <= Climb(slope, b)
    ensures slope <= 0.0 ==> Climb(slope, a) >= Climb(slope, b)
  {
    if a < b {
      ClimbGrows(slope, a, b - 1);
    }
  }

  lemma SquareWithin(x: real, bound: real)
    requires -bound <= x <= bound
    ensures Sq(x) <= Sq(bound)
  {
    assert (bound - x) * (bound + x) >= 0.0;
    assert (bound - x) * (bound + x) == Sq(bound) - Sq(x);
  }

  /** When every error is at least as large as the values are apart, the errors outweigh the deviations. */
  lemma {:induction false} ErrorsOutweigh(s: Components, mean: real, apart: real, data: seq<DataPoint>)
    requires Weekly(s)
    requires forall i :: 0 <= i < |data| ==> Sq(ErrorAt(s, data[i], i)) == Sq(apart)
    requires forall i :: 0 <= i < |data| ==> Sq(data[i].value - mean) <= Sq(apart)
    ensures SumSquaredDeviations(mean, data) <= SumSquaredErrors(s, data)
  {
    if data == [] {
    } else {
      var n := |data| - 1;
      ErrorsOutweigh(s, mean, apart, data[..n]);
      assert Sq(data[n].value - mean) <= Sq(apart) == Sq(ErrorAt(s, data[n], n));
    }
  }

  lemma MeanWithin(data: seq<DataPoint>, low: real, high: real)
    requires data != [] && forall i :: 0 <= i < |data| ==> low <= data[i].value <= high
    ensures low <= Mean(data) <= high
  {
    SumWithin(data, low, high);
    QuotientWithin(Sum(data), low, high, |data| as real);
  }

  /** The lower and the upper end of a stretch of line. */
  function Ends(s: Components, days: nat): (real, real) {
    var start, end := AlongLine(s, 1).level, AlongLine(s, days).level;
    if s.trend >= 0.0 then (start, end) else (end, start)
  }

  lemma LineWithinEnds(s: Components, first: int, data: seq<DataPoint>, i: nat)
    requires FollowsLine(s, first, data) && (forall k :: 0 <= k < 7 ==> s.seasonal[k] == 0.0) && i < |data|
    ensures Ends(s, |data|).0 <= data[i].value <= Ends(s, |data|).1
  {
    ClimbGrows(s.trend, 1, i + 1);
    ClimbGrows(s.trend, i + 1, |data|);
  }

  lemma LineStaysNearMean(s: Components, first: int, data: seq<DataPoint>, i: nat)
    requires FollowsLine(s, first, data) && (forall k :: 0 <= k < 7 ==> s.seasonal[k] == 0.0) && i < |data|
    ensures Sq(data[i].value - Mean(data)) <= Sq(Climb(s.trend, |data| - 1))
  {
    var (low, high) := Ends(s, |data|);
    forall j | 0 <= j < |data| ensures low <= data[j].value <= high {
      LineWithinEnds(s, first, data, j);
    }
    MeanWithin(data, low, high);
    ApartAsClimb(s, |data|);
    NearerThanEnds(data[i].value, Mean(data), low, high);
  }

  lemma ApartAsClimb(s: Components, days: nat)
    requires days > 0
    ensures Sq(Ends(s, days).1 - Ends(s, days).0) == Sq(Climb(s.trend, days - 1))
  {
    ClimbOn(s.trend, 1, days - 1);
    SquareOfOpposite(Climb(s.trend, days - 1));
  }

  lemma NearerThanEnds(x: real, y: real, low: real, high: real)
    requires low <= x <= high && low <= y <= high
    ensures Sq(x - y) <= Sq(high - low)
  {
    SquareWithin(x - y, high - low);
  }

  /**
  Components that follow a rising or falling line without weekly deviations, and so forecast
  it exactly, get the accuracy zero for it.
  */
  lemma LineScoresZero(s: Components, first: int, data: seq<DataPoint>)
    requires FollowsLine(s, first, data) && (forall k :: 0 <= k < 7 ==> s.seasonal[k] == 0.0)
    requires s.trend != 0.0 && |data| >= 2
    ensures Accuracy(AlongLine(s, |data|), data) == 0.0
  {
    var apart := Climb(s.trend, |data| - 1);
    var mean := Mean(data);
    forall i | 0 <= i < |data|
      ensures Sq(ErrorAt(AlongLine(s, |data|), data[i], i)) == Sq(apart)
      ensures Sq(data[i].value - mean) <= Sq(apart)
    {
      LineIsScoredOff(s, first, data, i);
      SquareOfOpposite(apart);
      LineStaysNearMean(s, first, data, i);
    }
    ErrorsOutweigh(AlongLine(s, |data|), mean, apart, data);
    DeviationsVanish(mean, data);
    DeviationSumNonNegative(mean, data);
    assert data[0].value != data[1].value;
    assert !AllAt(mean, data);
    OutweighedScore(AlongLine(s, |data|), data);
  }

  lemma AtLeastOne(x: real, y: real)
    requires 0.0 < y <= x
    ensures x / y >= 1.0
  {
  }

  lemma OutweighedScore(s: Components, data: seq<DataPoint>)
    requires Weekly(s) && |data| >= 2
    requires 0.0 < SumSquaredDeviations(Mean(data), data) <= SumSquaredErrors(s, data)
    ensures Accuracy(s, data) == 0.0
  {
    AtLeastOne(SumSquaredErrors(s, data), SumSquaredDeviations(Mean(data), data));
  }

  // ---------------------------------------------------------------------------
  // Series shorter than a week
  // ---------------------------------------------------------------------------

  lemma {:induction false} ErrorsAreDeviations(mean: real, data: seq<DataPoint>)
    ensures SumSquaredErrors(ZEROS.(level := mean), data) == SumSquaredDeviations(mean, data)
  {
    if data == [] {
    } else {
      var i := |data| - 1;
      ErrorsAreDeviations(mean, data[..i]);
      assert ErrorAt(ZEROS.(level := mean), data[i], i) == data[i].value - mean;
    }
  }

  ghost predicate AllAt(value: real, data: seq<DataPoint>) {
    forall i :: 0 <= i < |data| ==> data[i].value == value
  }

  lemma {:induction false} DeviationsVanish(mean: real, data: seq<DataPoint>)
    ensures SumSquaredDeviations(mean, data) == 0.0 <==> AllAt(mean, data)
  {
    if data == [] {
    } else {
      var n := |data| - 1;
      DeviationsVanish(mean, data[..n]);
      DeviationSumNonNegative(mean, data[..n]);
      SquareSign(data[n].value - mean);
      assert forall i :: 0 <= i < n ==> data[..n][i] == data[i];
    }
  }

  lemma FlatForecast(sqrt: real -> real, level: real, start: int, h: nat, confidence: real)
    ensures var value := Round2(Max(0.0, level));
            Predicted(sqrt, ZEROS.(level := level), 0.0, start, h, confidence) ==
            Prediction(start + h + 1, value, value, value, confidence)
  {
    var point := PointForecast(ZEROS.(level := level), start, h);
    assert 0.0 * (h + 1) as real == 0.0;
    assert Width(ZScore(confidence), 0.0, sqrt((h + 1) as real)) == 0.0;
    Round2Monotone(0.0, point);
  }

  lemma AverageScores(data: seq<DataPoint>)
    requires |data| >= 2
    ensures Accuracy(ZEROS.(level := Mean(data)), data) == if AllAt(Mean(data), data) then 1.0 else 0.0
  {
    ErrorsAreDeviations(Mean(data), data);
    DeviationsVanish(Mean(data), data);
    var total := SumSquaredDeviations(Mean(data), data);
    if total != 0.0 {
      assert total / total == 1.0;
    }
  }

  /**
  Less than a week of data is forecast by its rounded average, the same every day and with
  no interval around it. Of two or more such observations the model explains everything when they are
  all alike and otherwise nothing.
  */
  lemma ShortSeries(
      sqrt: real -> real, prior: Components, data: seq<DataPoint>, start: int, h: nat, confidence: real)
    requires Weekly(prior) && 0 < |data| < 7
    ensures var s := FittedParts(prior, data);
            var value := Round2(Max(0.0, Mean(data)));
            && Predicted(sqrt, s, FittedDeviation(sqrt, prior, data), start, h, confidence) ==
               Prediction(start + h + 1, value, value, value, confidence)
            && (|data| >= 2 ==> Accuracy(s, data) == if AllAt(Mean(data), data) then 1.0 else 0.0)
  {
    FlatForecast(sqrt, Mean(data), start, h, confidence);
    if |data| >= 2 {
      AverageScores(data);
    }
  }

  // ---------------------------------------------------------------------------
  // The model object
  // ---------------------------------------------------------------------------

  /**
  Forecasting one series the way the service does: a fresh model that already holds the series
  is fitted to it, scored, and predicts from the last day of it or, if it is empty, from now.
  */
  method ForecastSeries(sqrt: real -> real, data: seq<DataPoint>, now: int, horizon: nat, confidence: real)
    returns (forecast: seq<Prediction>, accuracy: real)
    ensures |forecast| == horizon
    ensures data == [] ==>
              accuracy == 0.0 && forall h :: 0 <= h < horizon ==> forecast[h] == NotANumber(now + h + 1, confidence)
    ensures data != [] ==>
              && accuracy == Accuracy(FittedParts(ZEROS, data), data)
              && forall h :: 0 <= h < horizon ==>
                   forecast[h] == Predicted(sqrt, FittedParts(ZEROS, data), FittedDeviation(sqrt, ZEROS, data),
                                            data[|data| - 1].day, h, confidence)
  {
    var model := new ForecastModel();
    model.dataPoints := data;
    model.Fit(sqrt, data);
    var score := model.Score();
    accuracy := score.value;
    var last := if |model.dataPoints| > 0 then model.dataPoints[|model.dataPoints| - 1].day else now;
    forecast := model.Predict(sqrt, last, horizon, confidence);
  }

  lemma ForecastIsExact(
      sqrt: real -> real, pattern: seq<real>, first: int, data: seq<DataPoint>, confidence: real,
      forecast: seq<Prediction>)
    requires IsSqrt(sqrt) && RepeatsPattern(pattern, first, data) && |data| >= 7
    requires forall k :: 0 <= k < 7 ==> pattern[k] >= 0.0
    requires Mean7(pattern) != 0.0 || |data| < 14
    requires forall h :: 0 <= h < |forecast| ==>
               forecast[h] == Predicted(sqrt, FittedParts(ZEROS, data), FittedDeviation(sqrt, ZEROS, data),
                                        data[|data| - 1].day, h, confidence)
    ensures forall h :: 0 <= h < |forecast| ==>
              forecast[h] == ExactPrediction(pattern, data[|data| - 1].day + h + 1, confidence)
    ensures Accuracy(FittedParts(ZEROS, data), data) == 1.0
  {
    WeeklyForecastsAreExact(sqrt, pattern, first, data, 0, confidence);
    forall h | 0 <= h < |forecast|
      ensures forecast[h] == ExactPrediction(pattern, data[|data| - 1].day + h + 1, confidence)
    {
      WeeklyForecastsAreExact(sqrt, pattern, first, data, h, confidence);
    }
  }

  /** On a weekly pattern that gives the pattern back. */
  method ForecastWeeklyPattern(
      sqrt: real -> real, pattern: seq<real>, first: int, data: seq<DataPoint>, now: int, horizon: nat,
      confidence: real)
    returns (forecast: seq<Prediction>, accuracy: real)
    requires IsSqrt(sqrt) && RepeatsPattern(pattern, first, data) && |data| >= 7
    requires forall k :: 0 <= k < 7 ==> pattern[k] >= 0.0
    requires Mean7(pattern) != 0.0 || |data| < 14
    ensures |forecast| == horizon && accuracy == 1.0
    ensures forall h :: 0 <= h < horizon ==>
              forecast[h] == ExactPrediction(pattern, data[|data| - 1].day + h + 1, confidence)
  {
    forecast, accuracy := ForecastSeries(sqrt, data, now, horizon, confidence);
    ForecastIsExact(sqrt, pattern, first, data, confidence, forecast);
  }
}
