/** The client's market-data loader (src/hooks/useMarketData.ts): the table
    from chart window to day count, and `fetchData`, which drives the store's
    loading, data and error fields for one request. The request to the worker
    is given as its reply. */
module MarketDataHook {
  import opened Types
  import Store

  /** `TIMEFRAME_DAYS_MAP`. */
  function TimeframeDays(t: Timeframe): (days: int)
  {
    match t
    case OneDay => 1
    case SevenDays => 7
    case OneMonth => 30
    case OneYear => 365
  }

  /** Every window maps to a positive day count, and distinct windows to
      distinct counts. */
  lemma TimeframeDaysInjective(t: Timeframe, u: Timeframe)
    ensures TimeframeDays(t) > 0
    ensures TimeframeDays(t) == TimeframeDays(u) ==> t == u
  {
  }

  /** The table as written. */
  lemma TimeframeDaysTable()
    ensures TimeframeDays(OneDay) == 1 && TimeframeDays(SevenDays) == 7
    ensures TimeframeDays(OneMonth) == 30 && TimeframeDays(OneYear) == 365
  {
  }

  /** What the request to `/api/market-data` produced: a decoded
      `ApiResponse`, or an exception (`message` is `None` when the thrown
      value is not an `Error`). */
  datatype FetchReply =
    | Decoded(success: bool, data: Option<MarketData>, error: Option<string>)
    | Thrown(message: Option<string>)

  const FETCH_FAILED: string := "Failed to fetch market data"
  const UNKNOWN_ERROR: string := "An unknown error occurred"

  /** The error message a failed reply leaves in the store, or `None` when
      the reply carries data. */
  function ErrorOf(reply: FetchReply): (e: Option<string>)
    ensures reply.Decoded? && reply.success && reply.data.Some? ==> e.None?
    ensures reply.Decoded? && !(reply.success && reply.data.Some?) ==>
      e == Some(if reply.error.Some? && reply.error.value != "" then reply.error.value else FETCH_FAILED)
    ensures reply.Thrown? ==> e == Some(reply.message.GetOr(UNKNOWN_ERROR))
  {
    match reply
    case Decoded(success, data, error) =>
      if success && data.Some? then None
      else if error.Some? && error.value != "" then Some(error.value)
      else Some(FETCH_FAILED)
    case Thrown(message) => Some(message.GetOr(UNKNOWN_ERROR))
  }

  /** `fetchData(timeframe)`. Returns the day count requested and whether the
      store showed loading while the request was out. */
  method FetchData(store: Store.AppStore, timeframe: Timeframe, reply: FetchReply) returns (days: int, loadingDuringRequest: bool)
    modifies store
    ensures days == TimeframeDays(timeframe) && loadingDuringRequest
    ensures !store.isLoading
    ensures reply.Decoded? && reply.success && reply.data.Some? ==>
      store.marketData == reply.data && store.error.None?
    ensures !(reply.Decoded? && reply.success && reply.data.Some?) ==>
      store.marketData == old(store.marketData) && store.error == ErrorOf(reply)
    ensures store.activeTimeframe == old(store.activeTimeframe) && store.isSettingsLoading == old(store.isSettingsLoading)
    ensures store.userSettings == old(store.userSettings) && store.priceAlerts == old(store.priceAlerts)
  {
    store.SetIsLoading(true);
    days := TimeframeDays(timeframe);
    loadingDuringRequest := store.isLoading;
    match reply {
      case Decoded(success, data, error) =>
        if success && data.Some? {
          store.SetMarketData(data.value);
          store.SetError(None);
        } else {
          var message := if error.Some? && error.value != "" then error.value else FETCH_FAILED;
          store.SetError(Some(message));
        }
      case Thrown(message) =>
        store.SetError(Some(if message.Some? then message.value else UNKNOWN_ERROR));
    }
    store.SetIsLoading(false);
  }

  /** One polling tick: fetches for the window active in the store at the
      time of the tick. */
  method PollTick(store: Store.AppStore, reply: FetchReply) returns (days: int)
    modifies store
    ensures days == TimeframeDays(old(store.activeTimeframe))
    ensures !store.isLoading && store.activeTimeframe == old(store.activeTimeframe)
    ensures reply.Decoded? && reply.success && reply.data.Some? ==>
      store.marketData == reply.data && store.error.None?
    ensures !(reply.Decoded? && reply.success && reply.data.Some?) ==>
      store.marketData == old(store.marketData) && store.error == ErrorOf(reply)
    ensures store.isSettingsLoading == old(store.isSettingsLoading)
    ensures store.userSettings == old(store.userSettings) && store.priceAlerts == old(store.priceAlerts)
  {
    var loading;
    days, loading := FetchData(store, store.activeTimeframe, reply);
  }
}
