/** The alert toggle of the alerts card (src/components/dashboard/AlertsCard.tsx):
    switching one alert on or off rewrites the list and hands only the list
    to the store's merge. */
module AlertsCard {
  import opened Types
  import Store

  /** `alerts.map(a => a.id === alertId ? { ...a, isEnabled } : a)`. */
  function ToggleAlerts(alerts: seq<PriceAlert>, alertId: string, isEnabled: bool): (r: seq<PriceAlert>)
    ensures |r| == |alerts|
  {
    if alerts == [] then []
    else
      var a := alerts[0];
      [if a.id == alertId then PriceAlert(a.id, a.btcThreshold, isEnabled) else a]
        + ToggleAlerts(alerts[1..], alertId, isEnabled)
  }

  /** Position by position: a matching alert gets the new flag and keeps its
      id and threshold; every other alert is unchanged. */
  lemma {:induction false} ToggleAt(alerts: seq<PriceAlert>, alertId: string, isEnabled: bool, i: int)
    requires 0 <= i < |alerts|
    ensures var r := ToggleAlerts(alerts, alertId, isEnabled);
      && r[i].id == alerts[i].id
      && r[i].btcThreshold == alerts[i].btcThreshold
      && (alerts[i].id == alertId ==> r[i].isEnabled == isEnabled)
      && (alerts[i].id != alertId ==> r[i] == alerts[i])
    decreases |alerts|
  {
    if i > 0 {
      ToggleAt(alerts[1..], alertId, isEnabled, i - 1);
    }
  }

  /** When no alert has the id, the list is unchanged. */
  lemma {:induction false} ToggleMissingIsIdentity(alerts: seq<PriceAlert>, alertId: string, isEnabled: bool)
    requires forall i :: 0 <= i < |alerts| ==> alerts[i].id != alertId
    ensures ToggleAlerts(alerts, alertId, isEnabled) == alerts
    decreases |alerts|
  {
    if alerts != [] {
      ToggleMissingIsIdentity(alerts[1..], alertId, isEnabled);
    }
  }

  /** Toggling twice to the same value is toggling once. */
  lemma {:induction false} ToggleIdempotent(alerts: seq<PriceAlert>, alertId: string, isEnabled: bool)
    ensures ToggleAlerts(ToggleAlerts(alerts, alertId, isEnabled), alertId, isEnabled) == ToggleAlerts(alerts, alertId, isEnabled)
    decreases |alerts|
  {
    if alerts != [] {
      ToggleIdempotent(alerts[1..], alertId, isEnabled);
    }
  }

  /** `handleAlertToggle`: a missing list counts as empty, and the patch
      carries only the alerts. */
  function HandleAlertToggle(priceAlerts: Option<seq<PriceAlert>>, alertId: string, isEnabled: bool): (patch: SettingsPatch)
    ensures patch.settings.None?
    ensures patch.alerts == Some(ToggleAlerts(priceAlerts.GetOr([]), alertId, isEnabled))
    ensures priceAlerts.None? ==> patch.alerts == Some([])
  {
    SettingsPatch(None, Some(ToggleAlerts(priceAlerts.GetOr([]), alertId, isEnabled)))
  }

  /** Through the store's merge, a toggle replaces the alerts and leaves the
      settings as they were. */
  lemma ToggleKeepsSettings(settings: UserSettings, alerts: seq<PriceAlert>, alertId: string, isEnabled: bool)
    ensures var patch := HandleAlertToggle(Some(alerts), alertId, isEnabled);
      && Store.MergeSettings(settings, patch.settings) == settings
      && Store.MergeAlerts(alerts, patch.alerts) == ToggleAlerts(alerts, alertId, isEnabled)
  {
  }
}
