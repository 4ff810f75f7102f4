/** The client's application store (src/store/useAppStore.ts): market data
    with its loading and error flags, the chosen chart window, and the user's
    settings and price alerts, which are updated optimistically and then
    persisted. The persistence request is given as its reply. */
module Store {
  import opened Types

  const DEFAULT_SETTINGS := UserSettings(500000.0, 1.5, Some(""))

  /** `{ ...current, ...supplied }`: the supplied settings object overrides
      every key it carries; an email key it does not carry keeps its value. */
  function MergeSettings(current: UserSettings, supplied: Option<UserSettings>): (r: UserSettings)
    ensures supplied.None? ==> r == current
    ensures supplied.Some? ==>
      && r.audBudget == supplied.value.audBudget
      && r.transferFeePercent == supplied.value.transferFeePercent
      && r.email == (if supplied.value.email.Some? then supplied.value.email else current.email)
  {
    match supplied
    case None => current
    case Some(s) => UserSettings(s.audBudget, s.transferFeePercent, if s.email.Some? then s.email else current.email)
  }

  /** `supplied || current`: a supplied list, even an empty one, replaces the
      current list wholesale. */
  function MergeAlerts(current: seq<PriceAlert>, supplied: Option<seq<PriceAlert>>): (r: seq<PriceAlert>)
    ensures supplied.Some? ==> r == supplied.value
    ensures supplied.None? ==> r == current
  {
    if supplied.Some? then supplied.value else current
  }

  /** Merging is idempotent: applying the same patch twice is applying it once. */
  lemma MergeIdempotent(settings: UserSettings, alerts: seq<PriceAlert>, patch: SettingsPatch)
    ensures MergeSettings(MergeSettings(settings, patch.settings), patch.settings) == MergeSettings(settings, patch.settings)
    ensures MergeAlerts(MergeAlerts(alerts, patch.alerts), patch.alerts) == MergeAlerts(alerts, patch.alerts)
  {
  }

  /** Supplying the current settings back changes nothing. */
  lemma MergeCurrentIsIdentity(settings: UserSettings)
    ensures MergeSettings(settings, Some(settings)) == settings
  {
  }

  /** The reply to the `POST /api/settings` request. */
  datatype PersistReply = Responded(success: bool, data: Option<UserSettingsAndAlerts>, error: Option<string>) | NetworkError

  /** `persistSettings`: the saved aggregate on success, `null` on any failure. */
  function PersistSettings(reply: PersistReply): (r: Option<UserSettingsAndAlerts>)
    ensures reply.Responded? && reply.success ==> r == reply.data
    ensures r.Some? ==> reply.Responded? && reply.success
    ensures reply.NetworkError? || !reply.success ==> r.None?
  {
    match reply
    case Responded(success, data, _) => if success then data else None
    case NetworkError => None
  }

  /** The zustand store, as one object whose setters update it in place. */
  class AppStore {
    var marketData: Option<MarketData>
    var isLoading: bool
    var isSettingsLoading: bool
    var error: Option<string>
    var activeTimeframe: Timeframe
    var userSettings: UserSettings
    var priceAlerts: seq<PriceAlert>

    constructor ()
      ensures marketData.None? && isLoading && isSettingsLoading && error.None?
      ensures activeTimeframe == SevenDays && priceAlerts == []
      ensures userSettings == DEFAULT_SETTINGS
    {
      marketData := None;
      isLoading := true;
      isSettingsLoading := true;
      error := None;
      activeTimeframe := SevenDays;
      userSettings := DEFAULT_SETTINGS;
      priceAlerts := [];
    }

    /** Stores the data, clears the error and ends loading. */
    method SetMarketData(data: MarketData)
      modifies this
      ensures marketData == Some(data) && !isLoading && error.None?
      ensures isSettingsLoading == old(isSettingsLoading) && activeTimeframe == old(activeTimeframe)
      ensures userSettings == old(userSettings) && priceAlerts == old(priceAlerts)
    {
      marketData, isLoading, error := Some(data), false, None;
    }

    method SetIsLoading(loading: bool)
      modifies this
      ensures isLoading == loading
      ensures marketData == old(marketData) && error == old(error) && isSettingsLoading == old(isSettingsLoading)
      ensures activeTimeframe == old(activeTimeframe) && userSettings == old(userSettings) && priceAlerts == old(priceAlerts)
    {
      isLoading := loading;
    }

    method SetIsSettingsLoading(loading: bool)
      modifies this
      ensures isSettingsLoading == loading
      ensures marketData == old(marketData) && error == old(error) && isLoading == old(isLoading)
      ensures activeTimeframe == old(activeTimeframe) && userSettings == old(userSettings) && priceAlerts == old(priceAlerts)
    {
      isSettingsLoading := loading;
    }

    /** Records the error and ends loading; the market data is kept. */
    method SetError(e: Option<string>)
      modifies this
      ensures error == e && !isLoading
      ensures marketData == old(marketData) && isSettingsLoading == old(isSettingsLoading)
      ensures activeTimeframe == old(activeTimeframe) && userSettings == old(userSettings) && priceAlerts == old(priceAlerts)
    {
      error, isLoading := e, false;
    }

    method SetActiveTimeframe(timeframe: Timeframe)
      modifies this
      ensures activeTimeframe == timeframe
      ensures marketData == old(marketData) && error == old(error) && isLoading == old(isLoading)
      ensures isSettingsLoading == old(isSettingsLoading) && userSettings == old(userSettings) && priceAlerts == old(priceAlerts)
    {
      activeTimeframe := timeframe;
    }

    /** Loads settings and alerts fetched from the worker and ends settings loading. */
    method InitializeSettings(data: UserSettingsAndAlerts)
      modifies this
      ensures userSettings == data.settings && priceAlerts == data.alerts && !isSettingsLoading
      ensures marketData == old(marketData) && error == old(error) && isLoading == old(isLoading)
      ensures activeTimeframe == old(activeTimeframe)
    {
      userSettings, priceAlerts, isSettingsLoading := data.settings, data.alerts, false;
    }

    /** Merges the patch into memory first, then sends the merged aggregate
        to be saved; a failed save does not roll the state back. Returns the
        payload sent and what `persistSettings` resolved to. */
    method UpdateSettingsAndAlerts(data: SettingsPatch, reply: PersistReply) returns (payload: UserSettingsAndAlerts, saved: Option<UserSettingsAndAlerts>)
      modifies this
      ensures userSettings == MergeSettings(old(userSettings), data.settings)
      ensures priceAlerts == MergeAlerts(old(priceAlerts), data.alerts)
      ensures payload == UserSettingsAndAlerts(userSettings, priceAlerts)
      ensures saved == PersistSettings(reply)
      ensures marketData == old(marketData) && error == old(error) && isLoading == old(isLoading)
      ensures isSettingsLoading == old(isSettingsLoading) && activeTimeframe == old(activeTimeframe)
    {
      var newSettings := MergeSettings(userSettings, data.settings);
      var newAlerts := MergeAlerts(priceAlerts, data.alerts);
      userSettings, priceAlerts := newSettings, newAlerts;
      payload := UserSettingsAndAlerts(newSettings, newAlerts);
      saved := PersistSettings(reply);
    }
  }
}
