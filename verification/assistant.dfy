/** One run of the assistant, minus the download and the notification: from
    the daily closes to the market data, the advice text and its colour. */
module Assistant {
  import opened Series
  import opened Rounding
  import opened Indicators
  import opened Strategy

  /** What a run hands to the notification. */
  datatype Report = Report(data: MarketData, advice: string, color: string)

  /** Market data first, then the strategy on its rounded bias and drawdown;
      a series that yields no market data stops the run. */
  function Run(closes: seq<real>): (r: Result<Report>)
    ensures r.Ok? <==> GetMarketData(closes).Ok?
    ensures r.Err? ==> r.failure == GetMarketData(closes).failure
    ensures r.Ok? ==>
      && GetMarketData(closes) == Ok(r.value.data)
      && r.value.advice != ""
      && (forall t :: InBand(t, r.value.data.bias, r.value.data.drawdown) <==> r.value.advice == AdviceText(t))
      && (r.value.color == "info" <==> r.value.data.bias < ZeroBias || r.value.data.drawdown < SharpDrawdown)
      && (r.value.color == "warning" <==> r.value.data.bias >= ZeroBias && r.value.data.drawdown >= SharpDrawdown)
  {
    match GetMarketData(closes)
    case Err(f) => Err(f)
    case Ok(data) =>
      var (advice, color) := GetStrategy(data.bias, data.drawdown);
      Ok(Report(data, advice, color))
  }

  /** On a series whose last 250 closes are positive a report always
      exists, and
      an "info" (buy-more) colour is justified by the unrounded indicators:
      the latest close is below the moving average, or more than 15 % below
      the 250-day high. */
  lemma {:induction false} InfoMeansCheapOrDropped(closes: seq<real>)
    requires |closes| >= WindowSize && AllPositive(Window(closes))
    ensures Run(closes).Ok?
    ensures var s := Compute(closes).value;
      Run(closes).value.color == "info" ==> s.price < s.ma250 || s.drawdown < -15.0
  {
    PositiveSeriesMarketData(closes);
    var s := Compute(closes).value;
    HundredthsBelow(s.drawdown, SharpDrawdown);
  }

  /** The diamond advice needs a latest close more than 10 % below the
      moving average, unrounded; the overheated advice needs one at least
      24.995 % above it (last 250 closes positive). */
  lemma {:induction false} ExtremeAdviceBounds(closes: seq<real>)
    requires |closes| >= WindowSize && AllPositive(Window(closes))
    ensures Run(closes).Ok?
    ensures var s := Compute(closes).value;
      && (Run(closes).value.advice == AdviceText(Diamond) ==> s.bias < -10.0)
      && (Run(closes).value.advice == AdviceText(Overheated) ==> s.bias >= 24.995)
  {
    PositiveSeriesMarketData(closes);
    var s := Compute(closes).value;
    HundredthsBelow(s.bias, DeepBias);
    HundredthsBelow(s.bias, ExtremeBias);
  }
}
