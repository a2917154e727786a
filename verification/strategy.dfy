/** The investment advice: an ordered, first-match-wins cascade over the
    rounded bias and drawdown (both in hundredths of a percent) that picks
    one of six signals, each with a fixed advice text and a colour tag. */
module Strategy {

  /** Band limits, in hundredths of a percent. */
  const DeepBias := -1000     // bias below -10 %
  const ZeroBias := 0         // bias below 0 %
  const SharpDrawdown := -1500 // drawdown below -15 %
  const HotBias := 1500       // bias of 15 % or more
  const ExtremeBias := 2500   // bias of 25 % or more

  datatype Signal =
    | Diamond       // far below the moving average
    | GoldenPit     // below the moving average
    | SharpDrop     // deep pullback from the 250-day high
    | NormalRange   // uptrend, not overheated
    | SlightlyHot   // 15 % to 25 % above the moving average
    | Overheated    // 25 % or more above the moving average

  /** The cascade, rule by rule in source order; the first rule whose
      condition holds decides. */
  function Classify(bias: int, drawdown: int): (s: Signal)
    ensures forall t :: InBand(t, bias, drawdown) <==> t == s
  {
    if bias < DeepBias then Diamond
    else if bias < ZeroBias then GoldenPit
    else if drawdown < SharpDrawdown then SharpDrop
    else if ZeroBias <= bias < HotBias then NormalRange
    else if bias >= HotBias && bias < ExtremeBias then SlightlyHot
    else Overheated
  }

  /** Order-free description of where each signal applies: the region of
      (bias, drawdown) that the cascade hands to it. */
  predicate InBand(s: Signal, bias: int, drawdown: int)
  {
    match s
    case Diamond => bias < DeepBias
    case GoldenPit => DeepBias <= bias < ZeroBias
    case SharpDrop => bias >= ZeroBias && drawdown < SharpDrawdown
    case NormalRange => ZeroBias <= bias < HotBias && drawdown >= SharpDrawdown
    case SlightlyHot => HotBias <= bias < ExtremeBias && drawdown >= SharpDrawdown
    case Overheated => bias >= ExtremeBias && drawdown >= SharpDrawdown
  }

  function AdviceText(s: Signal): (text: string)
    ensures text != ""
  {
    match s
    case Diamond => "💎 **钻石坑位**：低于年线10%以上\n👉 建议：**2.0倍 - 3.0倍 梭哈级定投**"
    case GoldenPit => "📀 **黄金坑位**：价格在年线下方\n👉 建议：**1.5倍 - 2.0倍 加倍定投**"
    case SharpDrop => "📉 **急跌机会**：较高点回撤超15%\n👉 建议：**1.5倍 捡筹码**"
    case NormalRange => "😐 **正常区间**：趋势向上但未过热\n👉 建议：**1.0倍 正常定投**"
    case SlightlyHot => "🔥 **略微过热**：偏离年线超15%\n👉 建议：**0.5倍 减少定投**"
    case Overheated => "🚫 **极度过热**：偏离年线超25%\n👉 建议：**暂停买入 或 止盈**"
  }

  /** "info" renders green in the notification, "warning" orange. */
  function ColorTag(s: Signal): (tag: string)
    ensures tag == "info" <==> s in {Diamond, GoldenPit, SharpDrop}
    ensures tag == "info" || tag == "warning"
  {
    match s
    case Diamond | GoldenPit | SharpDrop => "info"
    case NormalRange | SlightlyHot | Overheated => "warning"
  }

  /** The advice text and colour tag for a rounded bias and drawdown. The
      cascade always reaches a branch, so the advice is never left empty. */
  function GetStrategy(bias: int, drawdown: int): (r: (string, string))
    ensures r.0 != ""
    ensures r.1 == "info" || r.1 == "warning"
    ensures r.1 == "info" <==> bias < ZeroBias || drawdown < SharpDrawdown
    ensures forall t :: InBand(t, bias, drawdown) <==> r.0 == AdviceText(t)
  {
    var s := Classify(bias, drawdown);
    (AdviceText(s), ColorTag(s))
  }

  /** Distinct signals give distinct advice, so the advice names the signal. */
  lemma AdviceTextInjective(s: Signal)
    ensures forall t :: AdviceText(t) == AdviceText(s) ==> t == s
  {
  }

  /** Far below the moving average, the drawdown is irrelevant. */
  lemma DeepBiasIsDiamond(bias: int, drawdown: int)
    requires bias < DeepBias
    ensures GetStrategy(bias, drawdown) == (AdviceText(Diamond), "info")
  {
  }

  /** Below the moving average (but not far below), the drawdown is
      irrelevant too. */
  lemma NegativeBiasIsGoldenPit(bias: int, drawdown: int)
    requires DeepBias <= bias < ZeroBias
    ensures GetStrategy(bias, drawdown) == (AdviceText(GoldenPit), "info")
  {
  }

  /** A sharp drawdown outranks every overheated band: rule order, not the
      size of the bias, decides. */
  lemma SharpDrawdownPreemptsOverheat(bias: int, drawdown: int)
    requires bias >= ZeroBias && drawdown < SharpDrawdown
    ensures GetStrategy(bias, drawdown) == (AdviceText(SharpDrop), "info")
    ensures bias >= ExtremeBias ==> Classify(bias, drawdown) != Overheated
  {
  }

  /** Without a sharp drawdown and with a non-negative bias, only the bias
      band matters. */
  lemma BiasBandsDecide(bias: int, drawdown: int, otherDrawdown: int)
    requires bias >= ZeroBias && drawdown >= SharpDrawdown && otherDrawdown >= SharpDrawdown
    ensures Classify(bias, drawdown) == Classify(bias, otherDrawdown)
    ensures Classify(bias, drawdown) ==
      if bias < HotBias then NormalRange
      else if bias < ExtremeBias then SlightlyHot
      else Overheated
    ensures ColorTag(Classify(bias, drawdown)) == "warning"
  {
  }
}
