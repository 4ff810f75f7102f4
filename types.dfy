/** The shared data model of the dashboard (shared/types.ts): market data as
    served by the worker, the user's settings and price alerts, and the demo
    items kept by the durable object. Numbers are `real`; nothing here rounds. */
module Types {

  /** A value that may be absent (`null`/`undefined` in the source). */
  datatype Option<+T> = None | Some(value: T) {
    function GetOr(default: T): T {
      match this
      case Some(v) => v
      case None => default
    }
  }

  /** The four chart windows the user can pick. */
  datatype Timeframe = OneDay | SevenDays | OneMonth | OneYear

  /** Spot price in USD and its 24-hour change in percent. */
  datatype PriceData = PriceData(price: real, change24h: real)

  /** One candle: [timestamp, open, high, low, close]. */
  datatype ChartDataPoint = ChartDataPoint(timestamp: real, open: real, high: real, low: real, close: real)

  /** The unit of caching: price, USD-per-AUD rate and chart series. */
  datatype MarketData = MarketData(btcPrice: PriceData, audRate: real, chartData: seq<ChartDataPoint>)

  /** `email` is an optional key: `None` is a missing key. */
  datatype UserSettings = UserSettings(audBudget: real, transferFeePercent: real, email: Option<string>)

  datatype PriceAlert = PriceAlert(id: string, btcThreshold: real, isEnabled: bool)

  datatype UserSettingsAndAlerts = UserSettingsAndAlerts(settings: UserSettings, alerts: seq<PriceAlert>)

  datatype DemoItem = DemoItem(id: string, name: string, value: real)

  /** `Partial<UserSettingsAndAlerts>`: each part may be left out. */
  datatype SettingsPatch = SettingsPatch(settings: Option<UserSettings>, alerts: Option<seq<PriceAlert>>)
}
