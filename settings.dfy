/**
 * The defaulting rule of loadUserSettings: each stored setting is used when
 * it is present and non-empty, otherwise its default applies.
 */
module Settings {
  import opened Optional

  /** Storage key of the currency code. */
  const CurrencyKey: string := "energy_currency"
  /** Storage key of the price per kilowatt-hour, kept as text. */
  const PriceKey: string := "energy_price"

  const DefaultCurrency: string := "USD"
  const DefaultPrice: string := "0.15"

  /** The currency code and the price text that loading hands to the page and to AppState. */
  datatype UserSettings = UserSettings(currency: string, price: string)

  /**
   * `stored || fallback` where `stored` is what the storage returns for a
   * key: None for a missing key, else the stored text ("" is falsy).
   */
  function OrDefault(stored: Option<string>, fallback: string): (r: string)
    ensures stored.Some? && stored.value != "" ==> r == stored.value
    ensures stored.None? || stored.value == "" ==> r == fallback
  {
    match stored
    case Some(text) => if text != "" then text else fallback
    case None => fallback
  }

  /** The settings loadUserSettings derives from the two stored values. */
  function LoadSettings(storedCurrency: Option<string>, storedPrice: Option<string>): (s: UserSettings)
    ensures s.currency != "" && s.price != ""
    ensures s.currency == (if storedCurrency.Some? && storedCurrency.value != "" then storedCurrency.value else DefaultCurrency)
    ensures s.price == (if storedPrice.Some? && storedPrice.value != "" then storedPrice.value else DefaultPrice)
  {
    UserSettings(OrDefault(storedCurrency, DefaultCurrency), OrDefault(storedPrice, DefaultPrice))
  }

  /** Key-value storage as the page sees it: a key is present with a text, or absent. */
  type Storage = map<string, string>

  /** `getItem(key)`: the stored text, or None (null) for a key never written. */
  function GetItem(storage: Storage, key: string): Option<string>
  {
    if key in storage then Some(storage[key]) else None
  }

  /** The two `setItem` calls of saveSettings; every other key is left as it was. */
  function SaveSettings(storage: Storage, currency: string, price: string): (after: Storage)
    ensures GetItem(after, CurrencyKey) == Some(currency)
    ensures GetItem(after, PriceKey) == Some(price)
    ensures forall key :: key != CurrencyKey && key != PriceKey ==> GetItem(after, key) == GetItem(storage, key)
  {
    storage[CurrencyKey := currency][PriceKey := price]
  }

  /** Saving non-empty settings and loading them back gives the same settings, whatever was stored before. */
  lemma SaveThenLoad(storage: Storage, currency: string, price: string)
    requires currency != "" && price != ""
    ensures var after := SaveSettings(storage, currency, price);
            LoadSettings(GetItem(after, CurrencyKey), GetItem(after, PriceKey)) == UserSettings(currency, price)
  {
  }

  /** Storing what was loaded and loading again changes nothing. */
  lemma LoadIsStable(storedCurrency: Option<string>, storedPrice: Option<string>)
    ensures var s := LoadSettings(storedCurrency, storedPrice);
            LoadSettings(Some(s.currency), Some(s.price)) == s
  {
  }

  /** A price field that was saved empty reloads as the default price, not as "". */
  lemma EmptySavedPriceReloadsDefault(storedCurrency: Option<string>)
    ensures LoadSettings(storedCurrency, Some("")).price == DefaultPrice
  {
  }
}
