/**
 * The converter component's state and its handlers: the rate effect, the amount field,
 * swapping, and the favourites list with its persisted copy. The browser store is held
 * in fields; the clock, the rate service and `parseFloat` are parameters.
 */
module ConverterApp {
  import opened Common
  import opened RateCache
  import opened Favorites

  class App {
    var fromCurrency: Currency
    var toCurrency: Currency
    var amount: string
    var exchangeRate: Option<real>
    var error: Option<string>
    var loading: bool
    var favorites: seq<Pair>

    // the browser store
    var rates: map<Currency, Table>
    var timestamp: Option<int>
    var ratesCorrupt: bool
    var storedFavorites: Option<seq<Pair>>

    /** The part of the state the rate effect reads and writes. */
    function RateView(): RateState
      reads this
    {
      RateState(rates, timestamp, ratesCorrupt, exchangeRate, error, loading)
    }

    /** The component's initial state over whatever the store already holds. */
    constructor (rates: map<Currency, Table>, timestamp: Option<int>, ratesCorrupt: bool,
                 storedFavorites: Option<seq<Pair>>)
      ensures fromCurrency == "USD" && toCurrency == "EUR" && amount == "1"
      ensures exchangeRate == Some(1.0) && error == None && loading && favorites == []
      ensures this.rates == rates && this.timestamp == timestamp
      ensures this.ratesCorrupt == ratesCorrupt && this.storedFavorites == storedFavorites
    {
      fromCurrency, toCurrency, amount := "USD", "EUR", "1";
      exchangeRate, error, loading := Some(1.0), None, true;
      favorites := [];
      this.rates, this.timestamp := rates, timestamp;
      this.ratesCorrupt, this.storedFavorites := ratesCorrupt, storedFavorites;
    }

    /**
     * One run of the rate effect for the current pair, completing at time `now`;
     * `fetched` is what the rate service answers for the base currency.
     */
    method FetchExchangeRate(now: int, fetched: Option<Table>)
      modifies this
      ensures RateView() == ResolveRate(old(RateView()), fromCurrency, toCurrency, now, fetched)
      ensures fromCurrency == old(fromCurrency) && toCurrency == old(toCurrency)
      ensures amount == old(amount) && favorites == old(favorites)
      ensures storedFavorites == old(storedFavorites)
    {
      if fromCurrency == toCurrency {
        exchangeRate := Some(1.0);
        loading := false;
        return;
      }
      loading := true;
      if ratesCorrupt {
        // parsing the stored tables throws inside the try
        error := Some(RATE_ERROR);
        loading := false;
        return;
      }
      var cached := CachedRate(rates, timestamp, fromCurrency, toCurrency, now);
      if cached.Some? {
        exchangeRate := cached;
        error := None;
      } else if fetched.Some? {
        exchangeRate := Get(fetched.value, toCurrency);
        rates := rates[fromCurrency := fetched.value];
        timestamp := Some(now);
        error := None;
      } else {
        error := Some(RATE_ERROR);
      }
      loading := false;
    }

    /**
     * The amount field accepts an edit when it is empty or `parseFloat` reads a
     * non-negative number from it; otherwise the edit is ignored.
     */
    method HandleAmountChange(value: string, parseFloat: string -> Option<real>)
      modifies this`amount
      ensures amount == if value == "" || (parseFloat(value).Some? && parseFloat(value).value >= 0.0)
                        then value else old(amount)
    {
      var parsed := parseFloat(value);
      if (parsed.Some? && parsed.value >= 0.0) || value == "" {
        amount := value;
      }
    }

    /** Exchanges the two currencies. */
    method SwapCurrencies()
      modifies this`fromCurrency, this`toCurrency
      ensures fromCurrency == old(toCurrency) && toCurrency == old(fromCurrency)
    {
      fromCurrency, toCurrency := toCurrency, fromCurrency;
    }

    /** Makes a favourite the current pair. */
    method SelectFavorite(pair: Pair)
      modifies this`fromCurrency, this`toCurrency
      ensures fromCurrency == pair.from && toCurrency == pair.to
    {
      fromCurrency := pair.from;
      toCurrency := pair.to;
    }

    /** Appends the current pair, duplicate or not, and persists the new list. */
    method AddToFavorites()
      modifies this`favorites, this`storedFavorites
      ensures favorites == old(favorites) + [Pair(fromCurrency, toCurrency)]
      ensures storedFavorites == Some(favorites)
    {
      var updated := favorites + [Pair(fromCurrency, toCurrency)];
      favorites := updated;
      storedFavorites := Some(updated);
    }

    /** Drops the favourite at `index` (nothing when out of range) and persists the new list. */
    method RemoveFavorite(index: int)
      modifies this`favorites, this`storedFavorites
      ensures favorites == RemoveAt(old(favorites), index)
      ensures storedFavorites == Some(favorites)
    {
      var updated := RemoveAt(favorites, index);
      favorites := updated;
      storedFavorites := Some(updated);
    }

    /** The mount effect that reloads the persisted favourites, when the store holds any. */
    method LoadFavorites()
      modifies this`favorites
      ensures favorites == if storedFavorites.Some? then storedFavorites.value else old(favorites)
    {
      if storedFavorites.Some? {
        favorites := storedFavorites.value;
      }
    }
  }

  /** Swapping twice restores the pair, and nothing but the pair moves. */
  method SwapTwice(app: App)
    modifies app
    ensures app.fromCurrency == old(app.fromCurrency) && app.toCurrency == old(app.toCurrency)
    ensures app.favorites == old(app.favorites) && app.RateView() == old(app.RateView())
  {
    app.SwapCurrencies();
    app.SwapCurrencies();
  }

  /**
   * Adding the current pair and then removing the last position restores the list, and
   * a reload from the store afterwards sees the same list.
   */
  method AddRemoveReload(app: App)
    modifies app
    ensures app.favorites == old(app.favorites)
    ensures app.storedFavorites == Some(old(app.favorites))
  {
    var n := |app.favorites|;
    app.AddToFavorites();
    AddThenRemoveLast(old(app.favorites), Pair(app.fromCurrency, app.toCurrency));
    app.RemoveFavorite(n);
    app.LoadFavorites();
  }
}
