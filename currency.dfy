/**
 * The currency tables of the dashboard: the code-to-symbol table that
 * AppState.getCurrencySymbol builds, the second copy of it inside
 * formatCurrency, the JavaScript `|| '$'` fallback, and the rule choosing
 * how many decimal places an amount is shown with.
 */
module Currency {
  import opened Optional

  /** The symbol shown for a code the table does not list. */
  const FallbackSymbol: string := "$"

  /** The table of AppState.getCurrencySymbol (27 codes, app.js:23-53). */
  const AppStateSymbols: map<string, string> := map[
    "USD" := "$",
    "ZAR" := "R",
    "BWP" := "P",
    "EUR" := "\U{20AC}",           // euro sign
    "GBP" := "\U{00A3}",           // pound sign
    "CAD" := "C$",
    "AUD" := "A$",
    "JPY" := "\U{00A5}",           // yen sign
    "CNY" := "\U{00A5}",           // yen sign
    "INR" := "\U{20B9}",           // rupee sign
    "CHF" := "CHF",
    "NZD" := "NZ$",
    "SEK" := "kr",
    "NOK" := "kr",
    "DKK" := "kr",
    "SGD" := "S$",
    "HKD" := "HK$",
    "KRW" := "\U{20A9}",           // won sign
    "BRL" := "R$",
    "TRY" := "\U{20BA}",           // lira sign
    "MXN" := "Mex$",
    "AED" := "\U{062F}.\U{0625}",  // Arabic dal, dot, alef with hamza below
    "SAR" := "\U{0631}.\U{0633}",  // Arabic reh, dot, seen
    "ZMW" := "ZK",
    "KES" := "KSh",
    "NGN" := "\U{20A6}",           // naira sign
    "EGP" := "E\U{00A3}"           // E and pound sign
  ]

  /** The second copy of the table, written out again inside formatCurrency (app.js:346-353). */
  const FormatSymbols: map<string, string> := map[
    "USD" := "$", "ZAR" := "R", "BWP" := "P", "EUR" := "\U{20AC}", "GBP" := "\U{00A3}",
    "CAD" := "C$", "AUD" := "A$", "JPY" := "\U{00A5}", "CNY" := "\U{00A5}", "INR" := "\U{20B9}",
    "CHF" := "CHF", "NZD" := "NZ$", "SEK" := "kr", "NOK" := "kr", "DKK" := "kr",
    "SGD" := "S$", "HKD" := "HK$", "KRW" := "\U{20A9}", "BRL" := "R$", "TRY" := "\U{20BA}",
    "MXN" := "Mex$", "AED" := "\U{062F}.\U{0625}", "SAR" := "\U{0631}.\U{0633}", "ZMW" := "ZK",
    "KES" := "KSh", "NGN" := "\U{20A6}", "EGP" := "E\U{00A3}"
  ]

  /** The codes listed in the table, in the order the source writes them. */
  const ListedCodes: seq<string> := [
    "USD", "ZAR", "BWP", "EUR", "GBP", "CAD", "AUD", "JPY", "CNY", "INR",
    "CHF", "NZD", "SEK", "NOK", "DKK", "SGD", "HKD", "KRW", "BRL", "TRY",
    "MXN", "AED", "SAR", "ZMW", "KES", "NGN", "EGP"
  ]

  /** Every symbol in a table is non-empty, so JavaScript treats it as truthy. */
  ghost predicate AllSymbolsNonEmpty(table: map<string, string>)
  {
    forall code :: code in table ==> table[code] != ""
  }

  /**
   * `table[code] || '$'` on a table holding only its own keys: an absent key
   * (undefined) and an empty symbol are both falsy and give the fallback.
   */
  function Lookup(table: map<string, string>, code: string): string
  {
    if code in table && table[code] != "" then table[code] else FallbackSymbol
  }

  /** The symbol AppState.getCurrencySymbol returns while `code` is the selected currency. */
  function SymbolOf(code: string): (sym: string)
    ensures code in AppStateSymbols ==> sym == AppStateSymbols[code]
    ensures code !in AppStateSymbols ==> sym == FallbackSymbol
    ensures sym != ""
  {
    TableSymbolsNonEmpty();
    Lookup(AppStateSymbols, code)
  }

  lemma TableSymbolsNonEmpty()
    ensures AllSymbolsNonEmpty(AppStateSymbols)
    ensures AllSymbolsNonEmpty(FormatSymbols)
  {
  }

  /** The table lists exactly the 27 codes of ListedCodes, with no code listed twice. */
  lemma {:induction false} TableListsTwentySevenCodes()
    ensures forall code :: code in AppStateSymbols <==> code in ListedCodes
    ensures |ListedCodes| == 27
    ensures forall i, j :: 0 <= i < j < |ListedCodes| ==> ListedCodes[i] != ListedCodes[j]
  {
  }

  /** A sequence with no repeated element has as many distinct elements as it has positions. */
  lemma {:induction false} DistinctElementsCount(s: seq<string>)
    requires forall i, j :: 0 <= i < j < |s| ==> s[i] != s[j]
    ensures |set x | x in s| == |s|
  {
    if s != [] {
      DistinctElementsCount(s[1..]);
      var rest := set x | x in s[1..];
      assert (set x | x in s) == {s[0]} + rest;
      assert s[0] !in rest;
    }
  }

  /** The table holds 27 entries: no listed code overwrote another. */
  lemma TableHasTwentySevenEntries()
    ensures |AppStateSymbols| == 27
  {
    TableListsTwentySevenCodes();
    DistinctElementsCount(ListedCodes);
    assert AppStateSymbols.Keys == set x | x in ListedCodes;
  }

  /** The two copies of the table are the same map. */
  lemma TablesIdentical()
    ensures FormatSymbols == AppStateSymbols
  {
  }

  /** Number of digits after the decimal point: none for yen and won, two for every other code. */
  function DecimalPlaces(code: string): (digits: nat)
    ensures digits == 0 <==> code == "JPY" || code == "KRW"
    ensures digits == 0 || digits == 2
  {
    if code in ["JPY", "KRW"] then 0 else 2
  }

  /**
   * What formatCurrency puts together: the symbol, the number of fraction
   * digits passed to `toFixed`, and the amount being rendered.
   */
  datatype Formatted = Formatted(symbol: string, fractionDigits: nat, amount: real)

  /** formatCurrency(amount, code), with the rendering of the amount left abstract. */
  function FormatCurrency(amount: real, code: string): (f: Formatted)
    ensures f.symbol == SymbolOf(code)
    ensures f.fractionDigits == 0 <==> code == "JPY" || code == "KRW"
    ensures f.fractionDigits == 0 || f.fractionDigits == 2
    ensures f.amount == amount
  {
    TablesIdentical();
    Formatted(Lookup(FormatSymbols, code), DecimalPlaces(code), amount)
  }

  // ---------------------------------------------------------------------
  // The lookup as JavaScript evaluates it on an object literal.
  //
  // `symbols` is a plain object, so `symbols[code]` also finds the
  // properties every object inherits from Object.prototype. Those are
  // functions (or, for "__proto__", the prototype object itself): truthy
  // values that are not strings, which `|| '$'` passes through.
  // ---------------------------------------------------------------------

  /** The property names an object literal inherits from Object.prototype. */
  const InheritedNames: set<string> := {
    "constructor", "hasOwnProperty", "isPrototypeOf", "propertyIsEnumerable",
    "toLocaleString", "toString", "valueOf", "__proto__",
    "__defineGetter__", "__defineSetter__", "__lookupGetter__", "__lookupSetter__"
  }

  /** A value read from the symbol object: a string, or the inherited built-in called `name`. */
  datatype JsValue = JsString(text: string) | JsBuiltin(name: string)

  /** `table[key]` on an object literal: an own key, else an inherited property, else undefined (None). */
  function PropertyRead(table: map<string, string>, key: string): Option<JsValue>
  {
    if key in table then Some(JsString(table[key]))
    else if key in InheritedNames then Some(JsBuiltin(key))
    else None
  }

  /** `v || '$'`: undefined and the empty string are falsy; every other value is kept. */
  function OrFallback(v: Option<JsValue>): JsValue
  {
    match v
    case None => JsString(FallbackSymbol)
    case Some(JsString(text)) => if text == "" then JsString(FallbackSymbol) else JsString(text)
    case Some(JsBuiltin(name)) => JsBuiltin(name)
  }

  /**
   * getCurrencySymbol as written (app.js:55). It agrees with SymbolOf
   * exactly on the codes that are not inherited property names; on those
   * it returns a built-in object instead of the '$' fallback.
   */
  function SymbolAsWritten(code: string): (v: JsValue)
    ensures v.JsString? <==> code !in InheritedNames
    ensures v.JsString? ==> v.text == SymbolOf(code)
    ensures v.JsBuiltin? ==> v.name == code
  {
    TableSymbolsNonEmpty();
    OrFallback(PropertyRead(AppStateSymbols, code))
  }

  /**
   * The symbol formatCurrency picks as written (app.js:355): the same
   * inherited-name lookup over its own copy of the table. It agrees with the
   * symbol FormatCurrency uses exactly on the codes that are not inherited names.
   */
  function FormatSymbolAsWritten(code: string): (v: JsValue)
    ensures v.JsString? <==> code !in InheritedNames
    ensures v.JsString? ==> v.text == FormatCurrency(0.0, code).symbol
    ensures v.JsBuiltin? ==> v.name == code
  {
    TableSymbolsNonEmpty();
    OrFallback(PropertyRead(FormatSymbols, code))
  }

  /** formatCurrency(amount, "toString") puts a function, not "$", in front of the amount. */
  lemma FormatInheritedNameSkipsFallback()
    ensures FormatSymbolAsWritten("toString") == JsBuiltin("toString")
    ensures FormatCurrency(1.0, "toString").symbol == FallbackSymbol
  {
  }

  /** A stored currency of "toString" makes getCurrencySymbol return a function, not "$". */
  lemma InheritedNameSkipsFallback()
    ensures SymbolAsWritten("toString") == JsBuiltin("toString")
    ensures SymbolOf("toString") == FallbackSymbol
  {
  }
}
