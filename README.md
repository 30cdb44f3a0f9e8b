# Currency and cost core of the energy monitoring dashboard

This project models the currency and cost logic of the dashboard's page script `app.js` in Dafny:

- `AppState`: the selected currency, default `"USD"`. It holds an append-only list of currency-change listeners. `updateCurrency` selects a code and then calls every listener in registration order. `getCurrencySymbol` looks the selected code up in a fixed 27-entry table and falls back to `"$"`.
- `formatCurrency`: a second, identical copy of the table with the same `"$"` fallback. It renders amounts with 0 decimal places for JPY and KRW and 2 for every other code.
- `calculateCost`: energy in kWh times the price per kWh, with no validation.
- `loadUserSettings`: a stored currency or price that is missing or empty falls back to `"USD"` or `"0.15"`. The loaded currency is assigned to `AppState` directly, so no listener is called.

Files:

- `optional.dfy`: module `Optional`, a missing-or-present value.
- `currency.dfy`: module `Currency`, the two tables, the lookup, the decimal-places rule, `formatCurrency`, and the lookup as JavaScript evaluates it on an object literal.
- `cost.dfy`: module `Cost`.
- `settings.dfy`: module `Settings`, the defaulting rule.
- `app_state.dfy`: module `State`, the `AppState` class, the notification loop and `loadUserSettings`' state update.

A listener is an opaque callback, named by a `ListenerId`. Each call is recorded in the ghost log `delivered` as a `Notification(listener, currency)`. `NotifyCurrencyChange` is a loop proved against the function `Broadcast`. Lemmas about `Broadcast` state the order and exactly-once properties. Money amounts and prices are `real`.

The code, and therefore the model, has no RUB entry in either table, no way to unsubscribe a listener, and no validation or rejection of prices; loading settings does not notify listeners.

## Model

| member | source | states |
|---|---|---|
| `Currency.SymbolOf` | app.js:22-55 | for a listed code the symbol is the table's entry; for every other string it is `"$"`; the result is never empty |
| `Currency.TableSymbolsNonEmpty` | app.js:23-53 | every symbol in both tables is non-empty, so `\|\| '$'` falls back only for codes the table lacks |
| `Currency.TableListsTwentySevenCodes` | app.js:23-53 | the table's keys are exactly the 27 listed codes (USD … EGP), each listed once |
| `Currency.TableHasTwentySevenEntries` | app.js:23-53 | the table holds exactly 27 entries |
| `Currency.TablesIdentical` | app.js:346-352 | formatCurrency's copy of the table equals getCurrencySymbol's, entry for entry |
| `Currency.DecimalPlaces` | app.js:357-358 | 0 digits exactly when the code is JPY or KRW; otherwise 2, unknown codes included |
| `Currency.FormatCurrency` | app.js:344-361 | the symbol agrees with getCurrencySymbol's for every code, including the `"$"` fallback; the digits follow the JPY/KRW rule; the amount passes through unchanged |
| `Currency.SymbolAsWritten` | app.js:55 | the lookup as JavaScript evaluates it returns a string exactly for codes that are not names inherited from Object.prototype, and that string is `SymbolOf(code)` |
| `Currency.InheritedNameSkipsFallback` | app.js:55 | for the code `"toString"` the lookup returns the inherited function, while the corrected lookup gives `"$"` |
| `Currency.FormatSymbolAsWritten` | app.js:355 | formatCurrency's lookup as JavaScript evaluates it returns a string exactly for codes that are not inherited names, and that string is the symbol `FormatCurrency` uses |
| `Currency.FormatInheritedNameSkipsFallback` | app.js:355 | for the code `"toString"` formatCurrency's lookup returns the inherited function, while `FormatCurrency` uses `"$"` |
| `Cost.CalculateCost` | app.js:340-342 | zero energy or zero price costs zero; the cost is negative exactly when energy and price have opposite signs (nothing is clamped); dividing by the price gives back the energy |
| `Cost.CostAdditive` | app.js:340-342 | over exact reals, the cost of a sum of readings is the sum of their costs |
| `Cost.CostOfCredit` | app.js:340-342 | a negative reading costs the negation of the matching positive one |
| `Settings.OrDefault` | app.js:232-233 | a present, non-empty stored value is used; a missing or empty one gives the default |
| `Settings.LoadSettings` | app.js:230-233 | the loaded currency is the stored one or `"USD"`, the loaded price the stored one or `"0.15"`; neither is ever empty |
| `Settings.SaveSettings` | app.js:216-218 | after saving, the currency key holds the currency and the price key the price; every other key is unchanged |
| `Settings.SaveThenLoad` | app.js:212-233 | non-empty settings saved under the two keys are loaded back unchanged, whatever the storage held before |
| `Settings.LoadIsStable` | app.js:212-233 | storing what was loaded and loading again yields the same settings |
| `Settings.EmptySavedPriceReloadsDefault` | app.js:233 | a price saved as the empty string reloads as `"0.15"` |
| `State.Broadcast` | app.js:18-20 | a broadcast makes one call per registered listener, the i-th call going to the i-th listener with the given currency |
| `State.BroadcastInOrder` | app.js:18-20 | the listeners called, in order, are exactly the registered list, and every call carries the same currency |
| `State.BroadcastOncePerRegistration` | app.js:14-20 | a listener registered k times is called exactly k times per notification |
| `State.BroadcastAppend` | app.js:19 | calling a list of listeners is calling its prefix and then the rest |
| `State.AppState.constructor` | app.js:5-7 | a fresh state selects `"USD"` and has no listeners and no calls |
| `State.AppState.UpdateCurrency` | app.js:9-12 | the selected currency becomes the argument (any string); the listener list is unchanged; every listener is called once, in order, with the new code |
| `State.AppState.OnCurrencyChange` | app.js:14-16 | the callback is appended at the end; earlier entries keep their order; nothing else changes |
| `State.AppState.NotifyCurrencyChange` | app.js:18-20 | the calls made are one per registered listener, in registration order, with the selected currency; the currency and the listener list are unchanged |
| `State.AppState.GetCurrencySymbol` | app.js:22-56 | the table's symbol for a listed selected code, `"$"` otherwise; the same symbol formatCurrency uses for that code |
| `State.LoadUserSettings` | app.js:230-249 | the selected currency becomes the loaded currency; no listener is called; the listener list is unchanged |

## Findings

| source | as written | input that shows it | evidently intended | confidence | as-written member | corrected member |
|---|---|---|---|---|---|---|
| app.js:55, app.js:355 | `symbols[code] \|\| '$'` on an object literal also finds properties inherited from Object.prototype; these are truthy non-strings, so the `'$'` fallback is skipped, in getCurrencySymbol and in formatCurrency alike | selected currency `"toString"`, e.g. from a stored `energy_currency` value | `"$"` for every code the table does not list | high (not executed) | `Currency.SymbolAsWritten`, `Currency.InheritedNameSkipsFallback`, `Currency.FormatSymbolAsWritten`, `Currency.FormatInheritedNameSkipsFallback` | `Currency.SymbolOf`, `Currency.FormatCurrency` |

## Left out

- Currency.SymbolOf: looks up only the table's own keys. The inherited Object.prototype names are modelled only in `Currency.SymbolAsWritten`, as recorded under Findings.
- Cost.CalculateCost: uses exact `real` multiplication. IEEE-754 double rounding, NaN and infinities are not modelled.
- Currency.FormatCurrency: looks up only the table's own keys. The inherited Object.prototype names are modelled only in `Currency.FormatSymbolAsWritten`, as recorded under Findings.
- Currency.FormatCurrency: returns the symbol, the digit count and the amount. The text `Number.prototype.toFixed` produces (app.js:360) is not modelled, because it is floating-point rendering.
- State.AppState.NotifyCurrencyChange: listeners are identifiers, and their bodies are not run. So a listener that throws, which in JavaScript stops the remaining calls, is not modelled. Neither is a listener that re-enters `updateCurrency` or registers another listener.
- DOM updates are not modelled, because they only read and write page elements. This covers `updateCurrencySymbol`, `updateAllCurrencyDisplays`, `updateSummaryCards`, `updatePriceDisplay`, `showNotification`, `initEventListeners` and `initCurrencySettings` (app.js:133-209, 251-337). It includes the input widget's reset of a negative price to 0 (app.js:159).
- Chart tooltip rewiring in `initChartCurrencyListeners` (app.js:76-104) is not modelled: it changes objects of the charting library.
- The clock in `initDateTime` and `updateDateTime` (app.js:107-130) is not modelled, because it is timer and locale I/O.
- Reading and writing local storage in `saveSettings` and `loadUserSettings` is not modelled, because it is browser I/O. Storage is a map from key to text (`Settings.Storage`), and the stored values are parameters of `Settings.LoadSettings`.
- The `prompt` and number check in `editPrice` (app.js:259-268) are not modelled, because they are browser I/O and JavaScript number parsing.
- The `parseFloat(...) || 0.15` and `parseFloat(...) || 0` coercions (app.js:84, 96, 175, 186, 204) are not modelled, because they are JavaScript number parsing. Note that a parsed price of 0 is falsy, so it is replaced by 0.15 at app.js:175.
- supabase.js is not part of this model. It is a network client for a hosted backend, with no logic of its own.
