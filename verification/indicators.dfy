/** The market data the assistant derives from a daily close series: the
    latest close, the 250-day moving average, the 250-day high, the bias
    (percentage deviation of the latest close from the moving average) and
    the drawdown (percentage distance of the latest close below the 250-day
    high). */
module Indicators {
  import opened Series
  import opened Rounding

  /** Why no market data could be produced. */
  datatype Failure =
    | EmptySeries   // the download returned no rows; the script stops
    | ShortSeries   // fewer closes than the 250-day window needs
    | ZeroDivision  // a zero moving average or 250-day high as divisor

  datatype Result<T> = Ok(value: T) | Err(failure: Failure)

  /** Unrounded indicators. */
  datatype Snapshot = Snapshot(price: real, ma250: real, high250: real, bias: real, drawdown: real)

  /** The reported record: every value rounded to two decimals and held in
      hundredths (bias 12.34 % is 1234). */
  datatype MarketData = MarketData(price: int, ma250: int, bias: int, drawdown: int)

  /** Percentage by which x lies above (positive) or below (negative) base. */
  function PercentFrom(x: real, base: real): (p: real)
    requires base != 0.0
    ensures base > 0.0 ==> (p < 0.0 <==> x < base) && (p == 0.0 <==> x == base)
  {
    var q := (x - base) / base;
    assert q * base == x - base;
    q * 100.0
  }

  /** The indicators of a close series, or why there are none. */
  function Compute(closes: seq<real>): (r: Result<Snapshot>)
    ensures closes == [] ==> r == Err(EmptySeries)
    ensures 0 < |closes| < WindowSize ==> r == Err(ShortSeries)
    ensures |closes| >= WindowSize ==>
      (r.Err? <==> Mean(Window(closes)) == 0.0 || Max(Window(closes)) == 0.0) &&
      (r.Err? ==> r.failure == ZeroDivision)
    ensures r.Ok? ==>
      && r.value.price == Latest(closes)
      && r.value.ma250 == Mean(Window(closes))
      && r.value.high250 == Max(Window(closes))
      && r.value.price <= r.value.high250
      && r.value.ma250 <= r.value.high250
      && r.value.bias == PercentFrom(r.value.price, r.value.ma250)
      && r.value.drawdown == PercentFrom(r.value.price, r.value.high250)
  {
    if closes == [] then Err(EmptySeries)
    else if |closes| < WindowSize then Err(ShortSeries)
    else
      var window := Window(closes);
      var price := Latest(closes);
      var ma250 := Mean(window);
      if ma250 == 0.0 then Err(ZeroDivision)
      else
        var high250 := Max(window);
        if high250 == 0.0 then Err(ZeroDivision)
        else Ok(Snapshot(price, ma250, high250, PercentFrom(price, ma250), PercentFrom(price, high250)))
  }

  /** Each reported value lies within half a hundredth of its unrounded
      counterpart. */
  predicate RoundedFrom(m: MarketData, s: Snapshot)
  {
    && NearestHundredth(s.price, m.price)
    && NearestHundredth(s.ma250, m.ma250)
    && NearestHundredth(s.bias, m.bias)
    && NearestHundredth(s.drawdown, m.drawdown)
  }

  /** Every value rounded to two decimals. */
  function Round(s: Snapshot): (m: MarketData)
    ensures RoundedFrom(m, s)
  {
    MarketData(Hundredths(s.price), Hundredths(s.ma250), Hundredths(s.bias), Hundredths(s.drawdown))
  }

  /** The market data reported for a close series. */
  function GetMarketData(closes: seq<real>): (r: Result<MarketData>)
    ensures r.Ok? <==> Compute(closes).Ok?
    ensures r.Err? ==> r.failure == Compute(closes).failure
    ensures closes == [] ==> r == Err(EmptySeries)
    ensures 0 < |closes| < WindowSize ==> r == Err(ShortSeries)
    ensures r.Ok? ==> RoundedFrom(r.value, Compute(closes).value)
  {
    match Compute(closes)
    case Err(f) => Err(f)
    case Ok(s) => Ok(Round(s))
  }

  /** On a series at least a window long whose last 250 closes are
      positive: indicators exist, the latest close never exceeds the 250-day high so the drawdown
      is never positive, and the bias is negative (zero) exactly when the
      latest close is below (at) the moving average. */
  lemma {:induction false} PositiveSeriesIndicators(closes: seq<real>)
    requires |closes| >= WindowSize && AllPositive(Window(closes))
    ensures Compute(closes).Ok?
    ensures var s := Compute(closes).value;
      && s.drawdown <= 0.0
      && (s.drawdown == 0.0 <==> s.price == s.high250)
      && (s.bias < 0.0 <==> s.price < s.ma250)
      && (s.bias == 0.0 <==> s.price == s.ma250)
      && 0.0 < s.ma250 <= s.high250
  {
    MeanPositive(Window(closes));
  }

  /** When the last 250 closes are positive, the rounded drawdown is never
      positive either,
      and a negative rounded bias still means the latest close is below the
      moving average. */
  lemma {:induction false} PositiveSeriesMarketData(closes: seq<real>)
    requires |closes| >= WindowSize && AllPositive(Window(closes))
    ensures GetMarketData(closes).Ok?
    ensures GetMarketData(closes).value.drawdown <= 0
    ensures GetMarketData(closes).value.bias < 0 ==> Compute(closes).value.price < Compute(closes).value.ma250
  {
    PositiveSeriesIndicators(closes);
    var s := Compute(closes).value;
    HundredthsMonotone(s.drawdown, 0.0);
    assert Hundredths(0.0) == 0;
    HundredthsBelow(s.bias, 0);
  }

  /** Closes older than the last 250 do not change the market data. */
  lemma {:induction false} OnlyWindowMatters(earlier: seq<real>, closes: seq<real>)
    requires |closes| >= WindowSize
    ensures Compute(earlier + closes) == Compute(closes)
    ensures GetMarketData(earlier + closes) == GetMarketData(closes)
  {
    WindowIgnoresEarlier(earlier, closes);
  }
}
