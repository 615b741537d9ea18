/**
 * The exchange-rate cache kept in the browser store: one rate table per base currency
 * and a single timestamp shared by all of them, and the rule by which the converter
 * resolves the current rate from it or from a fresh fetch.
 */
module RateCache {
  import opened Common

  /** A currency code such as "USD"; opaque. */
  type Currency = string

  /** The rates of one base currency: units of the quote currency per unit of the base. */
  type Table = map<Currency, real>

  /** How long, in milliseconds, the cached tables answer without a refetch: one hour. */
  const FRESHNESS_MS: int := 3600000

  /** The message shown when resolving the rate fails. */
  const RATE_ERROR: string := "Failed to fetch exchange rate. Please try again later."

  /** JavaScript truthiness of a stored rate: 0 is falsy. */
  predicate Truthy(x: real) {
    x != 0.0
  }

  /**
   * The rate the cache may answer for `from` to `to` at time `now`, following optional
   * chaining into the stored tables, then the timestamp's presence, then its age.
   */
  function CachedRate(rates: map<Currency, Table>, timestamp: Option<int>,
                      from: Currency, to: Currency, now: int): (r: Option<real>)
    ensures r.Some? <==>
      from in rates && to in rates[from] && Truthy(rates[from][to]) &&
      timestamp.Some? && now - timestamp.value < FRESHNESS_MS
    ensures r.Some? ==> r.value == rates[from][to]
  {
    match Get(rates, from)
    case None => None
    case Some(table) =>
      match Get(table, to)
      case None => None
      case Some(x) =>
        if Truthy(x) && timestamp.Some? && now - timestamp.value < FRESHNESS_MS then Some(x) else None
  }

  /**
   * What the rate effect reads and writes: the persisted tables and timestamp, whether the
   * persisted tables fail to parse, and the component's exchangeRate, error and loading
   * state. `exchangeRate` is None when the code assigned `undefined` to it.
   */
  datatype RateState = RateState(
    rates: map<Currency, Table>,
    timestamp: Option<int>,
    corrupt: bool,
    exchangeRate: Option<real>,
    error: Option<string>,
    loading: bool)

  /**
   * One completed run of the rate effect for the pair (from, to) at time `now`; `fetched`
   * is the outcome the rate service would give for `from` if asked (None: the request
   * failed or its body had no rate mapping).
   */
  function ResolveRate(s: RateState, from: Currency, to: Currency, now: int,
                       fetched: Option<Table>): (t: RateState)
    // loading is always cleared, and the parse state of the store never changes
    ensures !t.loading && t.corrupt == s.corrupt
    // equal currencies: rate 1, nothing of the cache read or written, error left as it was
    ensures from == to ==>
      t.exchangeRate == Some(1.0) && t.rates == s.rates && t.timestamp == s.timestamp &&
      t.error == s.error
    // a hit answers from the cache and writes nothing to it
    ensures from != to && !s.corrupt && CachedRate(s.rates, s.timestamp, from, to, now).Some? ==>
      t.exchangeRate == Some(s.rates[from][to]) && t.error.None? &&
      t.rates == s.rates && t.timestamp == s.timestamp
    // failure (unparsable store, or a miss whose fetch fails) sets the error and nothing else
    ensures from != to && t.error.Some? ==>
      t.error == Some(RATE_ERROR) &&
      t.rates == s.rates && t.timestamp == s.timestamp && t.exchangeRate == s.exchangeRate
    ensures from != to ==>
      (t.error.Some? <==>
        s.corrupt || (CachedRate(s.rates, s.timestamp, from, to, now).None? && fetched.None?))
    // a successful miss replaces the base's table, resets the shared timestamp, and
    // takes the rate from the fetched table (absent when the table lacks `to`)
    ensures from != to && !s.corrupt && CachedRate(s.rates, s.timestamp, from, to, now).None? &&
            fetched.Some? ==>
      t.rates.Keys == s.rates.Keys + {from} && t.rates[from] == fetched.value &&
      t.timestamp == Some(now) && t.exchangeRate == Get(fetched.value, to) && t.error.None?
    // tables of every other base are never touched
    ensures forall b :: b in s.rates && b != from ==> b in t.rates && t.rates[b] == s.rates[b]
  {
    if from == to then
      s.(exchangeRate := Some(1.0), loading := false)
    else if s.corrupt then
      s.(error := Some(RATE_ERROR), loading := false)
    else
      match CachedRate(s.rates, s.timestamp, from, to, now)
      case Some(x) =>
        s.(exchangeRate := Some(x), error := None, loading := false)
      case None =>
        match fetched
        case None =>
          s.(error := Some(RATE_ERROR), loading := false)
        case Some(table) =>
          s.(rates := s.rates[from := table], timestamp := Some(now),
             exchangeRate := Get(table, to), error := None, loading := false)
  }

  /** The hour boundary: 3 599 999 ms after the write still hits, 3 600 000 ms or more misses. */
  lemma FreshnessBoundary(rates: map<Currency, Table>, t0: int, from: Currency, to: Currency,
                          late: nat)
    requires from in rates && to in rates[from] && Truthy(rates[from][to])
    ensures CachedRate(rates, Some(t0), from, to, t0 + 3599999) == Some(rates[from][to])
    ensures CachedRate(rates, Some(t0), from, to, t0 + 3600000 + late) == None
  {
  }

  /** A stored rate of 0 is falsy and never answers from the cache, however fresh. */
  lemma ZeroRateMisses(rates: map<Currency, Table>, timestamp: Option<int>,
                       from: Currency, to: Currency, now: int)
    requires from in rates && to in rates[from] && rates[from][to] == 0.0
    ensures CachedRate(rates, timestamp, from, to, now) == None
  {
  }

  /**
   * The timestamp is shared: after a refresh of `from` at `now`, every other base with a
   * truthy cached entry also answers from the cache at `now`, however old its table is.
   */
  lemma RefreshRenewsEveryBase(s: RateState, from: Currency, to: Currency, now: int,
                               table: Table, base: Currency, quote: Currency)
    requires from != to && !s.corrupt && CachedRate(s.rates, s.timestamp, from, to, now).None?
    requires base != from && base in s.rates && quote in s.rates[base]
    requires Truthy(s.rates[base][quote])
    ensures var t := ResolveRate(s, from, to, now, Some(table));
      CachedRate(t.rates, t.timestamp, base, quote, now) == Some(s.rates[base][quote])
  {
  }

  /** A second run right after a successful refresh is a hit when the fetched rate is truthy. */
  lemma RefreshThenHit(s: RateState, from: Currency, to: Currency, now: int, table: Table,
                       again: Option<Table>)
    requires from != to && !s.corrupt && to in table && Truthy(table[to])
    requires CachedRate(s.rates, s.timestamp, from, to, now).None?
    ensures var t := ResolveRate(s, from, to, now, Some(table));
      ResolveRate(t, from, to, now, again) == t
  {
  }
}
