# Bitcoin dashboard: price alerts, market-data cache and settings, in Dafny

This project models the logic at the core of a small personal-finance dashboard. The dashboard shows the Bitcoin price and chart, converts an AUD budget into purchasable BTC, and raises price alerts. The parts modelled:

- **The price-alert evaluator** (`PriceAlerts`). It is edge-triggered and keeps two pieces of state: the previous price and the set of alert ids that have fired. Each new price goes through three steps. First, fired alerts whose threshold the price is now above are re-armed. Then each enabled, armed alert whose threshold was crossed downwards is fired, at most once per id. Last, the price is stored as the previous price. `Step` specifies one observation over values. The class `AlertEvaluator` carries it out in place with two loops and is proved to agree with `Step`.
- **The worker's single-slot market-data cache** (`MarketCache`). A snapshot is served for one minute. Otherwise the three upstream results are combined, and a snapshot is committed only when all of them and the rate lookup succeed. `Serve` is the specification and `MarketDataCache.GetMarketData` the handler. The module also models the credential check of the alert-email endpoint.
- **The client store** (`Store`). It covers the initial state, the setters, the optimistic merge of a settings/alerts patch and the outcome of persisting it.
- **The market-data loader** (`MarketDataHook`). It covers the timeframe-to-days table and the loading, data and error transitions of one fetch.
- **The alert toggle** (`AlertsCard`).
- **The durable object's storage operations** (`DurableObject`): the settings aggregate and its default, the counter, and the demo-item list.
- **The budget calculator** (`Calculator`).

Clocks, network requests and their replies are parameters: `now`, an `Upstream` value holding the three fetch outcomes, a `PersistReply`, a `FetchReply` and a `SendOutcome`. The handler reports which chart window it requested upstream, or `None` when it answered from the cache. Prices, rates and amounts are `real`. The counter, millisecond timestamps, HTTP statuses and day counts are `int`.

Two details of the re-arm step, as the hook is written:
- Re-arming does not look at `isEnabled` (`src/hooks/usePriceAlerts.ts:15`): a disabled alert whose threshold the price rises above is re-armed as well.
- Re-arming uses the first alert in the list with the fired id (`Array.find`, `src/hooks/usePriceAlerts.ts:14`).

Four definitions carry no contract of their own. Their properties are stated by the lemmas and methods that use them:
- `PriceAlerts.Step` (`src/hooks/usePriceAlerts.ts:8-51`), one observation. Its properties are stated by NoObservationIsNoOp, FirstObservationNeverFires, PreviousPriceAdvances, FiresOnlyOnCrossing, FiresOncePerCrossing, FiredStaysSilent, ReArmedDoesNotFire, RecoveryThenDropFiresAgain and ThresholdExample. `AlertEvaluator.Observe` is proved equal to it.
- `PriceAlerts.FireScan` (`src/hooks/usePriceAlerts.ts:20-29`), the firing pass. Its properties are stated by FireScanSound, FireScanDistinct, FireScanComplete and FireScanNoPrevious.
- `MarketDataHook.TimeframeDays` (`src/hooks/useMarketData.ts:4-9`), the window-to-days table. Its properties are stated by TimeframeDaysTable and TimeframeDaysInjective.
- `MarketCache.IsFresh` (`worker/userRoutes.ts:32`), the 60-second freshness test. Its properties are stated by Serve, FirstRequestMisses, ServedWithinWindow and FailureLeavesSlot.

## Model

| member | source | states |
|---|---|---|
| PriceAlerts.FindAlert | src/hooks/usePriceAlerts.ts:14 | returns an alert exactly when one with the id is in the list, and then it is the first such alert |
| PriceAlerts.ReArmed | src/hooks/usePriceAlerts.ts:13-18 | the re-arm step only removes ids from the fired set |
| PriceAlerts.ReArmExactly | src/hooks/usePriceAlerts.ts:13-18 | a fired id is dropped exactly when the first alert with that id exists and the price is strictly above its threshold; ids without an alert stay; enabledness is not consulted |
| PriceAlerts.EmailFor | src/hooks/usePriceAlerts.ts:36-44 | an email request exists exactly when the configured email is non-empty, and carries that email, the current price and the alert's threshold |
| PriceAlerts.FireScanSound | src/hooks/usePriceAlerts.ts:20-29 | every event of the firing pass is for a listed alert that is enabled, not fired, had previous price above and current price at or below its threshold; the final set is the starting set plus the fired ids |
| PriceAlerts.FireScanDistinct | src/hooks/usePriceAlerts.ts:21-29 | no two events of one pass share an id, even with duplicate ids in the list |
| PriceAlerts.FireScanComplete | src/hooks/usePriceAlerts.ts:20-29 | every alert meeting the firing condition gets an event for its id |
| PriceAlerts.FireScanNoPrevious | src/hooks/usePriceAlerts.ts:24 | with no previous price the pass fires nothing and leaves the set unchanged |
| PriceAlerts.NoObservationIsNoOp | src/hooks/usePriceAlerts.ts:9-10 | a missing or zero price changes neither the previous price nor the fired set and fires nothing |
| PriceAlerts.FirstObservationNeverFires | src/hooks/usePriceAlerts.ts:11-26 | with no previous price no alert fires, whatever the thresholds |
| PriceAlerts.PreviousPriceAdvances | src/hooks/usePriceAlerts.ts:50 | after a real observation the previous price is the current price |
| PriceAlerts.FiresOnlyOnCrossing | src/hooks/usePriceAlerts.ts:20-44 | an observation emits an event only for an enabled alert, whose id is not fired after re-arming, with previous price above and current price at or below its threshold; the payload carries the threshold and the current price |
| PriceAlerts.FiresOncePerCrossing | src/hooks/usePriceAlerts.ts:20-29 | every alert meeting the firing condition is notified and its id joins the set; ids of one observation's events are distinct |
| PriceAlerts.FiredStaysSilent | src/hooks/usePriceAlerts.ts:13-27 | a fired alert whose price has not gone above its threshold stays fired and is not notified again |
| PriceAlerts.ReArmedDoesNotFire | src/hooks/usePriceAlerts.ts:13-27 | with unique ids, an alert re-armed in an observation does not fire in that same observation |
| PriceAlerts.RecoveryThenDropFiresAgain | src/hooks/usePriceAlerts.ts:13-29 | for an enabled, fired alert anywhere in the list whose id no other alert shares, a rise above its threshold re-arms it and the next drop to or below the threshold notifies it again, at that price and with its email request |
| PriceAlerts.ThresholdExample | src/hooks/usePriceAlerts.ts:8-51 | threshold 100000 with prices 105000, 101000, 99000, 95000, 102000, 98000 fires exactly once at 99000 and once at 98000 |
| PriceAlerts.AlertEvaluator.constructor | src/hooks/usePriceAlerts.ts:6-7 | starts with no previous price and an empty fired set |
| PriceAlerts.AlertEvaluator.Observe | src/hooks/usePriceAlerts.ts:8-51 | the re-arm loop over the set and the firing loop over the list leave the state and return the events that `Step` gives for the old state |
| MarketCache.TimeframeParam | worker/userRoutes.ts:30 | a missing or empty timeframe query becomes "7", any other is kept |
| MarketCache.AudRate | worker/userRoutes.ts:48 | the rate exists exactly when the usd and aud entries exist and the aud value is non-zero, and it times the aud value gives the usd value |
| MarketCache.Assemble | worker/userRoutes.ts:40-49 | a snapshot is built exactly when all three fetches succeeded and the rate lookup worked, and it holds the fetched price, chart and derived rate |
| MarketCache.Serve | worker/userRoutes.ts:29-56 | a fresh slot is returned with success and no request and stays unchanged; otherwise upstream is asked for the query's window; success replaces the slot with the new data stamped `now` and returns it; any failure leaves the slot and gives 500 with the fixed error |
| MarketCache.FirstRequestMisses | worker/userRoutes.ts:22-32 | the empty start-up slot always makes the first request go upstream |
| MarketCache.ServedWithinWindow | worker/userRoutes.ts:31-52 | after a successful refresh at t, any request before t + 60000, for any timeframe, returns the same snapshot without asking upstream |
| MarketCache.FailureLeavesSlot | worker/userRoutes.ts:41-55 | a failed refresh commits nothing, and the stale slot is not served afterwards |
| MarketCache.MarketDataCache.constructor | worker/userRoutes.ts:22-25 | the slot starts empty with `lastFetch` 0 |
| MarketCache.MarketDataCache.GetMarketData | worker/userRoutes.ts:29-56 | the handler updates the slot in place and replies exactly as `Serve` says |
| MarketCache.SendAlertEmail | worker/userRoutes.ts:71-105 | without a key nothing is sent and the reply is 500 with an error; with a key success holds exactly when the provider accepted the request; every failure is a 500 |
| Store.MergeSettings | src/store/useAppStore.ts:58 | with no settings supplied the settings are kept; otherwise budget and fee are overridden and the email only when supplied |
| Store.MergeAlerts | src/store/useAppStore.ts:59 | a supplied list, including an empty one, replaces the alerts; otherwise they are kept |
| Store.MergeIdempotent | src/store/useAppStore.ts:56-60 | applying the same patch twice equals applying it once |
| Store.MergeCurrentIsIdentity | src/store/useAppStore.ts:58 | supplying the current settings back changes nothing |
| Store.PersistSettings | src/store/useAppStore.ts:20-36 | a successful reply returns its data; a saved aggregate comes only from a successful reply; a network error or a failed reply yields null |
| Store.AppStore.constructor | src/store/useAppStore.ts:38-49 | no market data, both loading flags true, no error, 7D window, no alerts, settings 500000 / 1.5 / "" |
| Store.AppStore.SetMarketData | src/store/useAppStore.ts:50 | stores the data, clears the error, ends loading; nothing else changes |
| Store.AppStore.SetIsLoading | src/store/useAppStore.ts:51 | sets only the loading flag |
| Store.AppStore.SetIsSettingsLoading | src/store/useAppStore.ts:52 | sets only the settings-loading flag |
| Store.AppStore.SetError | src/store/useAppStore.ts:53 | sets the error and ends loading, keeping the market data |
| Store.AppStore.SetActiveTimeframe | src/store/useAppStore.ts:54 | sets only the active window |
| Store.AppStore.InitializeSettings | src/store/useAppStore.ts:55 | takes settings and alerts from the argument and ends settings loading |
| Store.AppStore.UpdateSettingsAndAlerts | src/store/useAppStore.ts:56-63 | the merged settings and alerts are in memory before persisting, the payload sent equals them, and a failed save does not roll them back |
| AlertsCard.ToggleAlerts | src/components/dashboard/AlertsCard.tsx:11-13 | the toggled list has the same length as the original |
| AlertsCard.ToggleAt | src/components/dashboard/AlertsCard.tsx:12 | at each position the id and threshold are kept, a matching alert gets the new flag, and any other alert is unchanged |
| AlertsCard.ToggleMissingIsIdentity | src/components/dashboard/AlertsCard.tsx:12 | if no alert has the id the list is unchanged |
| AlertsCard.ToggleIdempotent | src/components/dashboard/AlertsCard.tsx:11-13 | the same toggle applied twice equals it applied once |
| AlertsCard.HandleAlertToggle | src/components/dashboard/AlertsCard.tsx:10-15 | the patch carries only the toggled alerts, and a missing list counts as empty |
| AlertsCard.ToggleKeepsSettings | src/components/dashboard/AlertsCard.tsx:14 | through the store's merge a toggle leaves the settings unchanged and replaces the alerts with the toggled list |
| MarketDataHook.TimeframeDaysInjective | src/hooks/useMarketData.ts:4-9 | every window maps to a positive count, and distinct windows map to distinct counts |
| MarketDataHook.TimeframeDaysTable | src/hooks/useMarketData.ts:4-9 | 1D→1, 7D→7, 1M→30, 1Y→365 |
| MarketDataHook.ErrorOf | src/hooks/useMarketData.ts:18-25 | a reply with data leaves no error; a failed reply leaves its non-empty error or the fixed message; a thrown non-Error leaves the unknown-error message |
| MarketDataHook.FetchData | src/hooks/useMarketData.ts:12-29 | requests the table's day count while loading is shown and always ends with loading off; on success the store holds the data with no error; on failure the error is set and the old data kept |
| MarketDataHook.PollTick | src/hooks/useMarketData.ts:34-37 | a tick fetches for the window active in the store at that moment and leaves the store as `fetchData` does: loading off, the data stored with no error on success, otherwise the old data with `ErrorOf` the reply, settings, alerts and settings-loading unchanged |
| DurableObject.DefaultAlerts | worker/durableObject.ts:4-15 | the default aggregate has alert-106k (106000, on), alert-100k (100000, off) and alert-90k (90000, off) |
| DurableObject.SettingsReadAfterWrite | worker/durableObject.ts:19-26 | a settings read after a write returns the written value; with nothing stored it returns the default |
| DurableObject.IncrementThenDecrement | worker/durableObject.ts:32-43 | increment by a and then decrement by a restores the counter |
| DurableObject.Patched | worker/durableObject.ts:61 | merging updates into an item keeps its id |
| DurableObject.UpdateItems | worker/durableObject.ts:60-62 | an update keeps the list's length |
| DurableObject.UpdateItemsAt | worker/durableObject.ts:58-65 | an update keeps every id at its position, merges into matching items only, and leaves the others unchanged |
| DurableObject.DeleteItems | worker/durableObject.ts:68 | a delete never lengthens the list |
| DurableObject.DeleteItemsContents | worker/durableObject.ts:66-71 | after a delete no item has the id, and every item with another id is still there |
| DurableObject.DeleteItemsKeepsOrder | worker/durableObject.ts:68 | a delete keeps order: on a concatenation it is the concatenation of the deletes |
| DurableObject.DeleteMissingIsIdentity | worker/durableObject.ts:68 | a delete of an absent id changes nothing |
| DurableObject.GlobalDurableObject.constructor | worker/durableObject.ts:17 | the object wraps the storage it finds and the mock items it seeds with |
| DurableObject.GlobalDurableObject.GetUserSettingsAndAlerts | worker/durableObject.ts:19-22 | returns the stored aggregate if present, else the default |
| DurableObject.GlobalDurableObject.UpdateUserSettingsAndAlerts | worker/durableObject.ts:23-26 | stores the argument under the settings key and returns it unchanged |
| DurableObject.GlobalDurableObject.GetCounterValue | worker/durableObject.ts:28-31 | returns the stored counter, or 0 when there is none |
| DurableObject.GlobalDurableObject.Increment | worker/durableObject.ts:32-37 | stores and returns the old counter (missing read as 0) plus the amount, which defaults to 1 |
| DurableObject.GlobalDurableObject.Decrement | worker/durableObject.ts:38-43 | stores and returns the old counter (missing read as 0) minus the amount, which defaults to 1 |
| DurableObject.GlobalDurableObject.GetDemoItems | worker/durableObject.ts:44-51 | a stored list is returned with storage unchanged; otherwise the mock items are stored and returned |
| DurableObject.GlobalDurableObject.AddDemoItem | worker/durableObject.ts:52-57 | the stored list becomes the current list with the item appended at the end |
| DurableObject.GlobalDurableObject.UpdateDemoItem | worker/durableObject.ts:58-65 | the stored list becomes the current list with the updates merged into the items with the id |
| DurableObject.GlobalDurableObject.DeleteDemoItem | worker/durableObject.ts:66-71 | the stored list becomes the current list without the items with the id |
| Calculator.OrZero | src/components/dashboard/CalculatorCard.tsx:30-31 | an empty field counts as 0, and a filled one as its value |
| Calculator.BtcPriceOf | src/components/dashboard/CalculatorCard.tsx:20 | without market data the BTC price is 0 |
| Calculator.AudRateOf | src/components/dashboard/CalculatorCard.tsx:21 | without market data the AUD rate is 0.65 |
| Calculator.ComputeQuote | src/components/dashboard/CalculatorCard.tsx:29-33 | the USD amount is budget times rate; the fee is that percentage of it; final plus fee is the USD amount; the BTC is 0 at a non-positive price and otherwise buys exactly the final amount |
| Calculator.FinalWithinUsd | src/components/dashboard/CalculatorCard.tsx:13-32 | with budget at least 0, fee between 0 and 100 and a non-negative rate, the final amount lies between 0 and the USD amount and the BTC is not negative |
| Calculator.OnSubmit | src/components/dashboard/CalculatorCard.tsx:34-36 | a validated submit passes on only the settings |
| Calculator.SubmitKeepsAlerts | src/components/dashboard/CalculatorCard.tsx:34-35 | through the store's merge a submit sets budget and fee and leaves the alerts unchanged |

## Left out

- Network requests are not modelled as HTTP. This covers the CoinGecko and SendGrid requests, the concurrent fan-out of the three fetches, JSON decoding and request bodies. Each appears as an abstract outcome. A body that does not decode counts as a failed fetch.
- AudRate: a zero `aud` value counts as a failed lookup. In the source, IEEE division gives a non-finite rate instead. Floating point is not modelled.
- Floating point in general is not modelled. Prices, rates and amounts are exact reals. NaN is absent, so the falsy checks `!currentPrice` and `x || 0` act only on a missing value and on 0.
- Concurrent cache misses are not modelled. Requests are served one at a time.
- Overlapping client requests are modelled as sequential calls. A poll and a timeframe change can run `fetchData` at the same time, so an older reply can overwrite a newer one and the first request to finish turns loading off while the other is still out. `updateSettingsAndAlerts` does not wait for earlier saves, so saves can reach the worker out of order. Neither interleaving is modelled.
- Routing, the durable-object stub lookups and the `GET`/`POST /api/settings`, `/api/demo` and `/api/counter` routes are not modelled. These routes only forward to the object's methods, which are modelled.
- Framework plumbing is not modelled: the React effects and refs, and zustand's `create`/`set`. The 60-second `setInterval` timer is out of scope; one tick is `PollTick`.
- Toasts, the email request's `.catch` logging, `toLocaleString`/`toFixed` and all rendering are presentation. An event's `email` field stands for the request being issued.
- The calculator form's email syntax check and `z.coerce.number` coercion belong to the validation library. Only the numeric bounds are modelled.
- The contents of the mock demo items are not part of this model. They are a constructor parameter.
- Storage is typed by key: the settings key holds an aggregate, the counter key a number and the items key a list. This is the object's invariant. The source's untyped casts are not modelled.
- PriceAlerts.RecoveryThenDropFiresAgain: assumes the alert's id is unique in the list, for the same reason as the next line.
- PriceAlerts.ReArmedDoesNotFire: assumes unique ids. With two alerts sharing an id, the id can be re-armed by the first alert and fired by a later one with a higher threshold in the same observation.
