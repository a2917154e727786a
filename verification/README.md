# Nasdaq-100 regular-investment assistant: verified model

The assistant looks at about two years of daily closes for one ticker
(QQQ). It computes the 250-day moving average (MA250), the 250-day high, the
bias and the drawdown:

- bias: the percentage by which the latest close lies above or below MA250;
- drawdown: the percentage by which the latest close lies below the 250-day high.

It rounds these values to two decimals. It then feeds bias and drawdown
through a fixed, first-match-wins cascade. The cascade picks one of six
pieces of advice, each with a colour tag ("info" or "warning") for the chat
notification.

The model has five modules:

- `Series` (series.dfy): the trailing 250-close window and its sum, mean and
  maximum. A pandas `rolling(250)` mean or max, read at its last row,
  reduces to these.
- `Rounding` (rounding.dfy): rounding to two decimals, half to even. The
  result is a whole number of hundredths.
- `Indicators` (indicators.dfy): `Compute`, which gives the unrounded
  indicators or the reason there are none. `GetMarketData` is the rounded
  record the script returns.
- `Strategy` (strategy.dfy): the cascade (`Classify`), its order-free
  description (`InBand`), the six advice texts (verbatim), the colour tags
  and `GetStrategy`.
- `Assistant` (assistant.dfy): one run from closes to (market data, advice,
  colour), without the download and the notification.

The classifier receives the ROUNDED bias and drawdown, as the script does.
So the model gives them to it as integer hundredths: -10 % is -1000. The
thresholds are therefore -1000, 0, -1500, 1500 and 2500.

The script stops on an empty download. A zero MA250 or 250-day high makes
Python's float division raise, and the script's catch-all handler then
stops it. The model returns `Err(EmptySeries)` and `Err(ZeroDivision)` for
these cases.

## Model

| member | source | states |
|---|---|---|
| `Series.Window` | main.py:34 | the window holds exactly the last 250 closes in order, and the latest close is its last element |
| `Series.Max` | main.py:38 | the 250-day high is one of the window's closes and no close in the window exceeds it |
| `Series.Mean` | main.py:34 | MA250 times 250 is the sum of the window, and MA250 never exceeds the window's maximum |
| `Series.WindowIgnoresEarlier` | main.py:34-38 | closes before the last 250 change neither the window nor the latest close |
| `Rounding.RoundHalfEven` | main.py:43-46 | the result is an integer within one half of the input, and an exact tie goes to the even integer |
| `Rounding.Hundredths` | main.py:43-46 | a value rounded to two decimals, in hundredths, is within half a hundredth of the value |
| `Rounding.HundredthsMonotone` | main.py:43-46 | rounding keeps the order of two values |
| `Rounding.HundredthsBelow` | main.py:45-46 | a rounded value below threshold t means the real value is below t; a real value more than half a hundredth below t rounds below t |
| `Indicators.PercentFrom` | main.py:35-39 | against a positive base, the percentage is negative exactly when the value is below the base, and zero exactly when equal |
| `Indicators.Compute` | main.py:24-39 | empty series fails as EmptySeries; fewer than 250 closes fails as ShortSeries; with 250 or more, it fails (ZeroDivision) exactly when MA250 or the high is zero; otherwise price is the latest close, MA250 the window mean, high250 the window maximum, price and MA250 do not exceed high250, and bias and drawdown are the percentage deviations of price from MA250 and from high250 |
| `Indicators.Round` | main.py:43-46 | each reported value (price, MA250, bias, drawdown) lies within half a hundredth of its unrounded value |
| `Indicators.GetMarketData` | main.py:13-47 | market data exists exactly when the indicators do, and otherwise fails for the same reason (EmptySeries on no rows, ShortSeries under 250 closes); each reported value lies within half a hundredth of the unrounded indicator |
| `Indicators.PositiveSeriesIndicators` | main.py:29-39 | when the last 250 closes are positive: indicators exist; drawdown is never positive, and zero exactly at the 250-day high; bias is negative iff price is below MA250, and zero iff equal; 0 < MA250 <= high250 |
| `Indicators.PositiveSeriesMarketData` | main.py:35-46 | when the last 250 closes are positive, the rounded drawdown is never positive, and a negative rounded bias means the latest close is below MA250 |
| `Indicators.OnlyWindowMatters` | main.py:34-38 | prepending older closes changes neither the indicators nor the reported record |
| `Strategy.Classify` | main.py:58-75 | the chosen signal is the unique one whose order-free band contains (bias, drawdown): the cascade is total and exactly one branch fires |
| `Strategy.AdviceText` | main.py:58-75 | every advice text is non-empty |
| `Strategy.ColorTag` | main.py:54-75 | the tag is "info" for the diamond, golden-pit and sharp-drop signals, otherwise "warning" |
| `Strategy.GetStrategy` | main.py:49-77 | advice is never the initial empty string; colour is "info" or "warning", and "info" iff bias < 0 or drawdown < -15; the advice is the text of exactly the band (bias, drawdown) lies in |
| `Strategy.AdviceTextInjective` | main.py:58-75 | the six advice texts are pairwise distinct |
| `Strategy.DeepBiasIsDiamond` | main.py:58-60 | bias below -10 gives the diamond advice with "info", whatever the drawdown |
| `Strategy.NegativeBiasIsGoldenPit` | main.py:61-63 | bias in [-10, 0) gives the golden-pit advice with "info", whatever the drawdown |
| `Strategy.SharpDrawdownPreemptsOverheat` | main.py:64-66 | bias >= 0 with drawdown below -15 gives the sharp-drop advice with "info", even when bias >= 25 |
| `Strategy.BiasBandsDecide` | main.py:67-75 | with bias >= 0 and drawdown >= -15 only the bias band decides: [0,15) normal, [15,25) slightly hot, >= 25 overheated, always "warning" |
| `Assistant.Run` | main.py:131-136 | a run succeeds exactly when market data exists and otherwise fails for the same reason; a report carries that data, the advice text of exactly the band its rounded (bias, drawdown) lies in, and colour "info" iff rounded bias < 0 or rounded drawdown < -15, "warning" otherwise |
| `Assistant.InfoMeansCheapOrDropped` | main.py:35-66 | when the last 250 closes are positive a report exists, and "info" implies the latest close is below MA250 or the unrounded drawdown is below -15 % |
| `Assistant.ExtremeAdviceBounds` | main.py:45-75 | when the last 250 closes are positive, the diamond advice implies an unrounded bias below -10 %, and the overheated advice an unrounded bias of at least 24.995 % |

## Left out

- The download (`yf.download` of two years of QQQ data) and its failure exit: network I/O. The closes are a given sequence of reals.
- Dates: the last row's date and its formatting are display only.
- Floating point: closes, mean, division and `round` are exact reals here. Python rounds the binary float, and the model rounds the exact real half to even. The two can differ on values that are not exactly representable.
- NaN: with 1 to 249 closes, pandas gives a NaN moving average and high. NaN fails every comparison in the cascade, so the script falls through to its last branch ("extremely overheated"). The model reports `ShortSeries` instead. NaN closes inside the data are not modelled either.
- The notification (`send_wechat_notification`): markdown templating, the HTTP post, the WeCom `errcode` check and the exit on failure.
- The webhook URL read from the environment, the console messages, and the catch-all exception handler of the entry point. The handler appears only as the `Err` results above.
