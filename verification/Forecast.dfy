/**
The Holt-Winters forecaster of backend/services/analytics/Forecast.go over exact reals.
Dates are day numbers counted from a Sunday, so the weekday is the day modulo 7. The
square root is any function with the two properties of one. The only value that may fail to
be a number is the level of a model fitted to no data, and what is computed from it.
*/
module Forecast {
  import opened Wrappers

  const ALPHA: real := 0.3
  const BETA: real := 0.1
  const GAMMA: real := 0.2

  datatype DataPoint = DataPoint(day: int, value: real)

  datatype Prediction =
    | Prediction(day: int, predicted: real, lower: real, upper: real, confidence: real)
    | NotANumber(day: int, confidence: real)

  function Weekday(day: int): nat { day % 7 }

  function Sq(x: real): real { x * x }

  ghost predicate IsSqrt(sqrt: real -> real) {
    forall x :: x >= 0.0 ==> sqrt(x) >= 0.0 && Sq(sqrt(x)) == x
  }

  /** Rounds half away from zero. */
  function Round(x: real): int {
    if x >= 0.0 then (x + 0.5).Floor else -((0.5 - x).Floor)
  }

  function Round2(x: real): real { Round(x * 100.0) as real / 100.0 }

  function Max(x: real, y: real): real { if x >= y then x else y }

  function Sum(xs: seq<DataPoint>): real {
    if xs == [] then 0.0 else Sum(xs[..|xs| - 1]) + xs[|xs| - 1].value
  }

  function Mean(data: seq<DataPoint>): real
    requires data != []
  {
    Sum(data) / |data| as real
  }

  // ---------------------------------------------------------------------------
  // What fitting computes
  // ---------------------------------------------------------------------------

  /** The smoothed components; `seasonal` has one index per weekday. */
  datatype Components = Components(level: real, trend: real, seasonal: seq<real>)

  predicate Weekly(s: Components) { |s.seasonal| == 7 }

  function Expected(s: Components, day: int): real
    requires Weekly(s)
  {
    s.level + s.trend + s.seasonal[Weekday(day)]
  }

  /** One smoothing step on an observation. */
  function Smoothed(s: Components, p: DataPoint): (s': Components)
    requires Weekly(s)
    ensures Weekly(s')
  {
    var season := s.seasonal[Weekday(p.day)];
    var level := ALPHA * (p.value - season) + (1.0 - ALPHA) * (s.level + s.trend);
    var trend := BETA * (level - s.level) + (1.0 - BETA) * s.trend;
    Components(level, trend, s.seasonal[Weekday(p.day) := GAMMA * (p.value - level) + (1.0 - GAMMA) * season])
  }

  function SmoothedAll(s: Components, data: seq<DataPoint>): (s': Components)
    requires Weekly(s)
    ensures Weekly(s')
  {
    if data == [] then s else Smoothed(SmoothedAll(s, data[..|data| - 1]), data[|data| - 1])
  }

  /** The one-step-ahead errors made while smoothing. */
  function Residuals(s: Components, data: seq<DataPoint>): (rs: seq<real>)
    requires Weekly(s)
    ensures |rs| == |data|
  {
    if data == [] then []
    else
      var last := data[|data| - 1];
      Residuals(s, data[..|data| - 1]) + [last.value - Expected(SmoothedAll(s, data[..|data| - 1]), last.day)]
  }

  function SumSquares(rs: seq<real>): real {
    if rs == [] then 0.0 else SumSquares(rs[..|rs| - 1]) + Sq(rs[|rs| - 1])
  }

  /** The seasonal indices after the points of the first week have been written over the old ones. */
  function Seeded(seasonal: seq<real>, week: seq<DataPoint>, average: real): (s: seq<real>)
    requires |seasonal| == 7
    ensures |s| == 7
  {
    if week == [] then seasonal
    else
      var last := week[|week| - 1];
      Seeded(seasonal, week[..|week| - 1], average)[Weekday(last.day) := last.value - average]
  }

  /** The first week's average, with 1 standing in for 0. */
  function WeekAverage(data: seq<DataPoint>): real
    requires |data| >= 7
  {
    if Sum(data[..7]) / 7.0 == 0.0 then 1.0 else Sum(data[..7]) / 7.0
  }

  function InitialTrend(prior: real, data: seq<DataPoint>): real
    requires |data| >= 7
  {
    if |data| >= 14 then (Sum(data[7..14]) / 7.0 - WeekAverage(data)) / 7.0 else prior
  }

  /** Where smoothing starts; with fewer than two weeks the model keeps the trend it had. */
  function Initial(prior: Components, data: seq<DataPoint>): (s: Components)
    requires Weekly(prior) && |data| >= 7
    ensures Weekly(s)
  {
    Components(WeekAverage(data), InitialTrend(prior.trend, data), Seeded(prior.seasonal, data[..7], WeekAverage(data)))
  }

  function StdDev(sqrt: real -> real, rs: seq<real>): real
    requires |rs| > 1
  {
    sqrt(SumSquares(rs) / (|rs| - 1) as real)
  }

  const ZEROS: Components := Components(0.0, 0.0, [0.0, 0.0, 0.0, 0.0, 0.0, 0.0, 0.0])

  /** The fit of a model with these components; with less than a week of data only the average is modelled. */
  function FittedParts(prior: Components, data: seq<DataPoint>): (s: Components)
    requires Weekly(prior) && data != []
    ensures Weekly(s)
  {
    if |data| < 7 then ZEROS.(level := Mean(data)) else SmoothedAll(Initial(prior, data), data)
  }

  /** The deviation of the errors made during that fit. */
  function FittedDeviation(sqrt: real -> real, prior: Components, data: seq<DataPoint>): real
    requires Weekly(prior)
  {
    if |data| < 7 then 0.0 else StdDev(sqrt, Residuals(Initial(prior, data), data))
  }

  // ---------------------------------------------------------------------------
  // What predicting and scoring compute
  // ---------------------------------------------------------------------------

  function ZScore(confidence: real): (z: real)
    ensures z > 0.0
  {
    if confidence >= 0.99 then 2.576
    else if confidence >= 0.95 then 1.96
    else if confidence >= 0.90 then 1.645
    else if confidence >= 0.80 then 1.282
    else 1.96
  }

  function PointForecast(s: Components, start: int, h: nat): real
    requires Weekly(s)
  {
    Max(0.0, s.level + s.trend * (h + 1) as real + s.seasonal[Weekday(start + h + 1)])
  }

  /** Half the confidence interval, which widens with the horizon. */
  function Width(z: real, stdDev: real, root: real): real { z * stdDev * root }

  function Predicted(sqrt: real -> real, s: Components, stdDev: real, start: int, h: nat, confidence: real): Prediction
    requires Weekly(s)
  {
    var point := PointForecast(s, start, h);
    var width := Width(ZScore(confidence), stdDev, sqrt((h + 1) as real));
    Prediction(start + h + 1, Round2(point), Max(0.0, Round2(point - width)), Round2(point + width), confidence)
  }

  /** How far off the fitted line the observation number `i` is. */
  function ErrorAt(s: Components, p: DataPoint, i: nat): real
    requires Weekly(s)
  {
    p.value - (s.level + s.trend * i as real + s.seasonal[Weekday(p.day)])
  }

  function SumSquaredErrors(s: Components, data: seq<DataPoint>): real
    requires Weekly(s)
  {
    if data == [] then 0.0
    else SumSquaredErrors(s, data[..|data| - 1]) + Sq(ErrorAt(s, data[|data| - 1], |data| - 1))
  }

  function SumSquaredDeviations(mean: real, data: seq<DataPoint>): real {
    if data == [] then 0.0
    else
      var deviation := data[|data| - 1].value - mean;
      SumSquaredDeviations(mean, data[..|data| - 1]) + Sq(deviation)
  }

  function Accuracy(s: Components, data: seq<DataPoint>): real
    requires Weekly(s)
  {
    if |data| < 2 then 0.0
    else
      var total := SumSquaredDeviations(Mean(data), data);
      if total == 0.0 then 1.0
      else Round(Max(0.0, 1.0 - SumSquaredErrors(s, data) / total) * 10000.0) as real / 10000.0
  }

  /** The accuracy when the level may not be a number: only constant or too little data can then be scored. */
  function Scored(levelIsNumber: bool, s: Components, data: seq<DataPoint>): Option<real>
    requires Weekly(s)
  {
    if levelIsNumber || |data| < 2 || SumSquaredDeviations(Mean(data), data) == 0.0 then Some(Accuracy(s, data))
    else None
  }

  // ---------------------------------------------------------------------------
  // The model
  // ---------------------------------------------------------------------------

  class ForecastModel {
    var level: real // 0 while it is not a number
    var levelIsNumber: bool
    var trend: real
    const seasonal: array<real>
    var alpha: real
    var beta: real
    var gamma: real
    var residualStdDev: real
    var dataPoints: seq<DataPoint>

    ghost predicate Valid()
      reads this
    {
      seasonal.Length == 7
    }

    ghost function Parts(): Components
      reads this, seasonal
    {
      Components(level, trend, seasonal[..])
    }

    constructor ()
      ensures Valid() && fresh(seasonal)
      ensures Parts() == ZEROS && levelIsNumber
      ensures residualStdDev == 0.0 && dataPoints == []
    {
      levelIsNumber := true;
      level, trend, alpha, beta, gamma, residualStdDev := 0.0, 0.0, 0.0, 0.0, 0.0, 0.0;
      dataPoints := [];
      seasonal := new real[7](_ => 0.0);
    }

    /** Too little data for a week: the level is the plain average and nothing else is modelled. */
    method FitAverage(data: seq<DataPoint>)
      requires Valid() && |data| < 7
      modifies this, seasonal
      ensures Valid() && dataPoints == old(dataPoints) && residualStdDev == 0.0
      ensures levelIsNumber <==> data != []
      ensures Parts() == if data == [] then ZEROS else ZEROS.(level := Mean(data))
    {
      var sum := 0.0;
      for i := 0 to |data|
        invariant sum == Sum(data[..i])
      {
        assert data[..i + 1][..i] == data[..i];
        sum := sum + data[i].value;
      }
      assert data[..|data|] == data;
      if |data| == 0 {
        level, levelIsNumber := 0.0, false;
      } else {
        level, levelIsNumber := sum / |data| as real, true;
      }
      trend := 0.0;
      for i := 0 to 7
        invariant forall j :: 0 <= j < i ==> seasonal[j] == 0.0
        invariant levelIsNumber <==> data != []
        invariant level == if data == [] then 0.0 else Mean(data)
        invariant trend == 0.0 && dataPoints == old(dataPoints)
      {
        seasonal[i] := 0.0;
      }
      residualStdDev := 0.0;
    }

    /** Level, trend and seasonal indices before smoothing, from the first one or two weeks. */
    method Initialise(data: seq<DataPoint>)
      requires Valid() && |data| >= 7
      modifies this`level, this`levelIsNumber, this`trend, seasonal
      ensures Parts() == Initial(old(Parts()), data) && levelIsNumber
    {
      var weekAvg := 0.0;
      for i := 0 to 7
        invariant weekAvg == Sum(data[..i])
      {
        assert data[..i + 1][..i] == data[..i];
        weekAvg := weekAvg + data[i].value;
      }
      weekAvg := weekAvg / 7.0;
      if weekAvg == 0.0 {
        weekAvg := 1.0;
      }
      ghost var before := seasonal[..];
      for i := 0 to 7
        invariant seasonal[..] == Seeded(before, data[..i], weekAvg) && trend == old(trend)
      {
        assert data[..i + 1][..i] == data[..i];
        seasonal[Weekday(data[i].day)] := data[i].value - weekAvg;
      }
      level, levelIsNumber := weekAvg, true;
      if |data| >= 14 {
        var secondWeekAvg := 0.0;
        for i := 7 to 14
          invariant secondWeekAvg == Sum(data[7..i])
        {
          assert data[7..i + 1][..i - 7] == data[7..i];
          secondWeekAvg := secondWeekAvg + data[i].value;
        }
        secondWeekAvg := secondWeekAvg / 7.0;
        trend := (secondWeekAvg - weekAvg) / 7.0;
      }
    }

    method Smooth(p: DataPoint) returns (residual: real)
      requires Valid() && alpha == ALPHA && beta == BETA && gamma == GAMMA
      modifies this`level, this`trend, seasonal
      ensures Parts() == Smoothed(old(Parts()), p)
      ensures residual == p.value - Expected(old(Parts()), p.day)
    {
      var dow := Weekday(p.day);
      var predicted := level + trend + seasonal[dow];
      residual := p.value - predicted;
      var prevLevel := level;
      level := alpha * (p.value - seasonal[dow]) + (1.0 - alpha) * (level + trend);
      trend := beta * (level - prevLevel) + (1.0 - beta) * trend;
      seasonal[dow] := gamma * (p.value - level) + (1.0 - gamma) * seasonal[dow];
    }

    method Fit(sqrt: real -> real, data: seq<DataPoint>)
      requires Valid()
      modifies this, seasonal
      ensures Valid()
      ensures levelIsNumber <==> data != []
      ensures Parts() == if data == [] then ZEROS else FittedParts(old(Parts()), data)
      ensures residualStdDev == FittedDeviation(sqrt, old(Parts()), data)
      ensures dataPoints == if |data| < 7 then old(dataPoints) else data
    {
      if |data| < 7 {
        FitAverage(data);
        return;
      }
      alpha, beta, gamma := ALPHA, BETA, GAMMA;
      Initialise(data);
      var residuals := SmoothThrough(data);
      residualStdDev := Deviation(sqrt, residuals);
      dataPoints := data;
    }

    /** Smooths over all observations and collects the errors made on the way. */
    method SmoothThrough(data: seq<DataPoint>) returns (residuals: seq<real>)
      requires Valid() && alpha == ALPHA && beta == BETA && gamma == GAMMA
      modifies this`level, this`trend, seasonal
      ensures Parts() == SmoothedAll(old(Parts()), data)
      ensures residuals == Residuals(old(Parts()), data)
    {
      ghost var start := Parts();
      residuals := [];
      for i := 0 to |data|
        invariant Parts() == SmoothedAll(start, data[..i])
        invariant residuals == Residuals(start, data[..i])
      {
        ghost var seen := data[..i + 1];
        assert seen[..i] == data[..i] && seen[i] == data[i];
        var residual := Smooth(data[i]);
        residuals := residuals + [residual];
      }
      assert data[..|data|] == data;
    }

    static method Deviation(sqrt: real -> real, residuals: seq<real>) returns (stdDev: real)
      requires |residuals| > 1
      ensures stdDev == StdDev(sqrt, residuals)
    {
      var sumSq := 0.0;
      for i := 0 to |residuals|
        invariant sumSq == SumSquares(residuals[..i])
      {
        assert residuals[..i + 1][..i] == residuals[..i];
        sumSq := sumSq + Sq(residuals[i]);
      }
      assert residuals[..|residuals|] == residuals;
      stdDev := sqrt(sumSq / (|residuals| - 1) as real);
    }

    /** The prediction `h` + 1 days ahead. */
    ghost function Ahead(sqrt: real -> real, start: int, h: nat, confidence: real): Prediction
      requires Valid()
      reads this, seasonal
    {
      if levelIsNumber then Predicted(sqrt, Parts(), residualStdDev, start, h, confidence)
      else NotANumber(start + h + 1, confidence)
    }

    method Predict(sqrt: real -> real, start: int, horizon: nat, confidence: real) returns (r: seq<Prediction>)
      requires Valid()
      ensures |r| == horizon
      ensures forall h :: 0 <= h < horizon ==> r[h] == Ahead(sqrt, start, h, confidence)
    {
      var z := ZScore(confidence);
      r := [];
      for h := 0 to horizon
        invariant |r| == h
        invariant forall k :: 0 <= k < h ==> r[k] == Ahead(sqrt, start, k, confidence)
      {
        var day := start + h + 1;
        var stepsAhead := (h + 1) as real;
        if !levelIsNumber {
          r := r + [NotANumber(day, confidence)];
          continue;
        }
        var point := level + trend * stepsAhead + seasonal[Weekday(day)];
        if point < 0.0 {
          point := 0.0;
        }
        assert point == PointForecast(Parts(), start, h);
        var width := Width(z, residualStdDev, sqrt(stepsAhead));
        r := r + [Prediction(day, Round2(point), Max(0.0, Round2(point - width)), Round2(point + width), confidence)];
      }
    }

    method MeanValue() returns (mean: real)
      requires Valid() && |dataPoints| > 0
      ensures mean == Mean(dataPoints)
    {
      mean := 0.0;
      for i := 0 to |dataPoints|
        invariant mean == Sum(dataPoints[..i])
      {
        assert dataPoints[..i + 1][..i] == dataPoints[..i];
        mean := mean + dataPoints[i].value;
      }
      assert dataPoints[..|dataPoints|] == dataPoints;
      mean := mean / |dataPoints| as real;
    }

    method SquaredErrors(mean: real) returns (ssRes: real, ssTot: real)
      requires Valid()
      ensures ssRes == SumSquaredErrors(Parts(), dataPoints)
      ensures ssTot == SumSquaredDeviations(mean, dataPoints)
    {
      ssRes, ssTot := 0.0, 0.0;
      for i := 0 to |dataPoints|
        invariant ssTot == SumSquaredDeviations(mean, dataPoints[..i])
        invariant ssRes == SumSquaredErrors(Parts(), dataPoints[..i])
      {
        var d := dataPoints[i];
        ghost var seen := dataPoints[..i + 1];
        assert seen[..i] == dataPoints[..i] && seen[i] == d;
        var predicted := level + trend * i as real + seasonal[Weekday(d.day)];
        assert d.value - predicted == ErrorAt(Parts(), d, i);
        ssRes := ssRes + Sq(d.value - predicted);
        ssTot := ssTot + Sq(d.value - mean);
      }
      assert dataPoints[..|dataPoints|] == dataPoints;
    }

    method Score() returns (r: Option<real>)
      requires Valid()
      ensures r == Scored(levelIsNumber, Parts(), dataPoints)
    {
      if |dataPoints| < 2 {
        return Some(0.0);
      }
      var mean := MeanValue();
      var ssRes, ssTot := SquaredErrors(mean);
      if ssTot == 0.0 {
        return Some(1.0);
      }
      if !levelIsNumber {
        return None;
      }
      var r2 := 1.0 - ssRes / ssTot;
      if r2 < 0.0 {
        r2 := 0.0;
      }
      return Some(Round(r2 * 10000.0) as real / 10000.0);
    }
  }
}
