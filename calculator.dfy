/** The budget calculator (src/components/dashboard/CalculatorCard.tsx): how
    much BTC an AUD budget buys after the transfer fee, at the current price
    and rate, and what a submitted form hands to the store. */
module Calculator {
  import opened Types
  import Store

  /** The rate used before any market data has arrived. */
  const FALLBACK_AUD_RATE: real := 0.65

  /** The form's values as typed: a field may be empty. */
  datatype FormValues = FormValues(audBudget: Option<real>, transferFeePercent: Option<real>)

  /** The four derived amounts shown by the card. */
  datatype Quote = Quote(usdAmount: real, feeAmount: real, finalUsdAmount: real, purchasableBtc: real)

  /** The schema's numeric bounds: a budget of at least 0 and a fee between 0
      and 100 percent. */
  predicate ValidForm(budget: real, fee: real)
  {
    budget >= 0.0 && 0.0 <= fee <= 100.0
  }

  /** `x || 0`: an empty or zero field counts as 0. */
  function OrZero(x: Option<real>): (r: real)
    ensures x.Some? ==> r == x.value
    ensures x.None? ==> r == 0.0
  {
    x.GetOr(0.0)
  }

  /** `marketData?.btcPrice.price ?? 0`. */
  function BtcPriceOf(marketData: Option<MarketData>): (p: real)
    ensures marketData.None? ==> p == 0.0
    ensures marketData.Some? ==> p == marketData.value.btcPrice.price
  {
    if marketData.Some? then marketData.value.btcPrice.price else 0.0
  }

  /** `marketData?.audRate ?? 0.65`. */
  function AudRateOf(marketData: Option<MarketData>): (r: real)
    ensures marketData.None? ==> r == FALLBACK_AUD_RATE
    ensures marketData.Some? ==> r == marketData.value.audRate
  {
    if marketData.Some? then marketData.value.audRate else FALLBACK_AUD_RATE
  }

  /** The card's arithmetic: the budget in USD, the fee taken from it, what
      is left, and the BTC that buys (0 while there is no positive price). */
  function ComputeQuote(form: FormValues, marketData: Option<MarketData>): (q: Quote)
    ensures q.usdAmount == OrZero(form.audBudget) * AudRateOf(marketData)
    ensures q.feeAmount * 100.0 == q.usdAmount * OrZero(form.transferFeePercent)
    ensures q.finalUsdAmount + q.feeAmount == q.usdAmount
    ensures BtcPriceOf(marketData) <= 0.0 ==> q.purchasableBtc == 0.0
    ensures BtcPriceOf(marketData) > 0.0 ==> q.purchasableBtc * BtcPriceOf(marketData) == q.finalUsdAmount
  {
    var btcPrice := BtcPriceOf(marketData);
    var usdAmount := OrZero(form.audBudget) * AudRateOf(marketData);
    var feeAmount := usdAmount * (OrZero(form.transferFeePercent) / 100.0);
    var finalUsdAmount := usdAmount - feeAmount;
    Quote(usdAmount, feeAmount, finalUsdAmount, if btcPrice > 0.0 then finalUsdAmount / btcPrice else 0.0)
  }

  /** With valid inputs and a non-negative rate, what is left after the fee
      lies between 0 and the USD amount, and the BTC it buys is not negative. */
  lemma FinalWithinUsd(form: FormValues, marketData: Option<MarketData>)
    requires ValidForm(OrZero(form.audBudget), OrZero(form.transferFeePercent))
    requires AudRateOf(marketData) >= 0.0
    ensures var q := ComputeQuote(form, marketData);
      0.0 <= q.finalUsdAmount <= q.usdAmount && q.purchasableBtc >= 0.0
  {
    var q := ComputeQuote(form, marketData);
    var budget, fee, rate := OrZero(form.audBudget), OrZero(form.transferFeePercent), AudRateOf(marketData);
    assert q.usdAmount >= 0.0 by { assert budget * rate >= 0.0; }
    var kept := 1.0 - fee / 100.0;
    assert q.finalUsdAmount == q.usdAmount * kept;
    assert 0.0 <= kept <= 1.0;
    assert q.usdAmount * kept >= 0.0 * kept;
    assert q.usdAmount * kept <= q.usdAmount * 1.0;
    var p := BtcPriceOf(marketData);
    if p > 0.0 {
      assert q.purchasableBtc * p == q.finalUsdAmount;
    }
  }

  /** Submitting hands only the settings to the store: the alerts are left
      as they were. */
  function OnSubmit(data: UserSettings): (patch: SettingsPatch)
    requires ValidForm(data.audBudget, data.transferFeePercent)
    ensures patch.settings == Some(data) && patch.alerts.None?
  {
    SettingsPatch(Some(data), None)
  }

  /** Through the store's merge a submit replaces the budget and fee and
      keeps the alerts. */
  lemma SubmitKeepsAlerts(current: UserSettings, alerts: seq<PriceAlert>, data: UserSettings)
    requires ValidForm(data.audBudget, data.transferFeePercent)
    ensures var patch := OnSubmit(data);
      && Store.MergeAlerts(alerts, patch.alerts) == alerts
      && Store.MergeSettings(current, patch.settings).audBudget == data.audBudget
      && Store.MergeSettings(current, patch.settings).transferFeePercent == data.transferFeePercent
  {
  }
}
