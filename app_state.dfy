/**
 * AppState: the selected currency, the list of currency-change listeners,
 * and the notification of those listeners; plus the part of
 * loadUserSettings that writes the loaded currency into it.
 *
 * A listener is an opaque callback, named here by an identifier. Calling
 * it is recorded in the ghost log `delivered` as a Notification.
 */
module State {
  import opened Optional
  import Currency
  import Settings

  /** The identity of a registered callback. */
  type ListenerId = nat

  /** One call of `listener` with the currency code `currency`. */
  datatype Notification = Notification(listener: ListenerId, currency: string)

  /** The calls made when every listener in `listeners` is called, in order, with `currency`. */
  function Broadcast(listeners: seq<ListenerId>, currency: string): (calls: seq<Notification>)
    ensures |calls| == |listeners|
    ensures forall i :: 0 <= i < |listeners| ==> calls[i] == Notification(listeners[i], currency)
  {
    if listeners == [] then [] else [Notification(listeners[0], currency)] + Broadcast(listeners[1..], currency)
  }

  /** The listeners called, in the order they were called. */
  function Recipients(calls: seq<Notification>): (ids: seq<ListenerId>)
    ensures |ids| == |calls|
    ensures forall i :: 0 <= i < |calls| ==> ids[i] == calls[i].listener
  {
    if calls == [] then [] else [calls[0].listener] + Recipients(calls[1..])
  }

  /** How many of `calls` went to `listener`. */
  function CallsTo(calls: seq<Notification>, listener: ListenerId): nat
  {
    if calls == [] then 0
    else (if calls[0].listener == listener then 1 else 0) + CallsTo(calls[1..], listener)
  }

  /** Broadcasting calls the listeners in registration order and passes each the same currency. */
  lemma BroadcastInOrder(listeners: seq<ListenerId>, currency: string)
    ensures Recipients(Broadcast(listeners, currency)) == listeners
    ensures forall n :: n in Broadcast(listeners, currency) ==> n.currency == currency
  {
  }

  /** Each registration of a listener receives exactly one call: a listener registered k times is called k times. */
  lemma {:induction false} BroadcastOncePerRegistration(listeners: seq<ListenerId>, currency: string, listener: ListenerId)
    ensures CallsTo(Broadcast(listeners, currency), listener) == multiset(listeners)[listener]
  {
    if listeners != [] {
      BroadcastOncePerRegistration(listeners[1..], currency, listener);
      assert listeners == [listeners[0]] + listeners[1..];
      assert Broadcast(listeners, currency)[1..] == Broadcast(listeners[1..], currency);
    }
  }

  /** Broadcasting to a longer list is broadcasting to its prefix and then to the rest. */
  lemma BroadcastAppend(listeners: seq<ListenerId>, more: seq<ListenerId>, currency: string)
    ensures Broadcast(listeners + more, currency) == Broadcast(listeners, currency) + Broadcast(more, currency)
  {
  }

  class AppState {
    var selectedCurrency: string
    var listeners: seq<ListenerId>
    /** Every listener call made so far, oldest first. */
    ghost var delivered: seq<Notification>

    /** The object as the page script creates it: "USD", no listeners, no calls yet. */
    constructor ()
      ensures selectedCurrency == Settings.DefaultCurrency
      ensures listeners == [] && delivered == []
    {
      selectedCurrency := Settings.DefaultCurrency;
      listeners := [];
      delivered := [];
    }

    /**
     * Selects `newCurrency` (any string; nothing is checked) and then calls
     * every registered listener once, in registration order, with it.
     */
    method UpdateCurrency(newCurrency: string)
      modifies this`selectedCurrency, this`delivered
      ensures selectedCurrency == newCurrency
      ensures listeners == old(listeners)
      ensures delivered == old(delivered) + Broadcast(listeners, newCurrency)
    {
      selectedCurrency := newCurrency;
      NotifyCurrencyChange();
    }

    /** Registers `callback` at the end of the list; nothing is removed and duplicates are kept. */
    method OnCurrencyChange(callback: ListenerId)
      modifies this`listeners
      ensures listeners == old(listeners) + [callback]
    {
      listeners := listeners + [callback];
    }

    /** Calls each registered listener once, in registration order, with the selected currency. */
    method NotifyCurrencyChange()
      modifies this`delivered
      ensures delivered == old(delivered) + Broadcast(listeners, selectedCurrency)
    {
      var i := 0;
      while i < |listeners|
        invariant 0 <= i <= |listeners|
        invariant delivered == old(delivered) + Broadcast(listeners[..i], selectedCurrency)
      {
        BroadcastAppend(listeners[..i], [listeners[i]], selectedCurrency);
        assert listeners[..i + 1] == listeners[..i] + [listeners[i]];
        delivered := delivered + [Notification(listeners[i], selectedCurrency)];
        i := i + 1;
      }
      assert listeners[..i] == listeners;
    }

    /** The symbol of the selected currency: the table's entry for a listed code, "$" for any other. */
    function GetCurrencySymbol(): (sym: string)
      reads this
      ensures selectedCurrency in Currency.AppStateSymbols ==> sym == Currency.AppStateSymbols[selectedCurrency]
      ensures selectedCurrency !in Currency.AppStateSymbols ==> sym == Currency.FallbackSymbol
      ensures sym == Currency.FormatCurrency(0.0, selectedCurrency).symbol
    {
      Currency.SymbolOf(selectedCurrency)
    }
  }

  /**
   * The state part of loadUserSettings: derive the settings from the stored
   * values and assign the currency to the field directly, so no listener is called.
   */
  method LoadUserSettings(app: AppState, storedCurrency: Option<string>, storedPrice: Option<string>)
      returns (loaded: Settings.UserSettings)
    modifies app`selectedCurrency
    ensures loaded == Settings.LoadSettings(storedCurrency, storedPrice)
    ensures app.selectedCurrency == loaded.currency
    ensures app.listeners == old(app.listeners) && app.delivered == old(app.delivered)
  {
    loaded := Settings.LoadSettings(storedCurrency, storedPrice);
    app.selectedCurrency := loaded.currency;
  }

  /** Two listeners, then a switch to EUR: each is called once, first-registered first, with "EUR". */
  method TwoListenersSeeEuro()
  {
    var app := new AppState();
    app.OnCurrencyChange(1);
    app.OnCurrencyChange(2);
    app.UpdateCurrency("EUR");
    assert app.delivered == [Notification(1, "EUR"), Notification(2, "EUR")];
    assert app.GetCurrencySymbol() == "\U{20AC}";
  }
}
