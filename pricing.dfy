/**
 * The quote service: a time-to-live cache of the latest price per symbol in front of a
 * quote provider, falling back to the cached price, marked stale, when the provider fails.
 * The provider's answer and the current time are inputs; the cache table is a map from
 * canonical symbol to its entry.
 */
module Pricing {
  import opened Wrappers
  import opened Text

  datatype QuoteResult = QuoteResult(symbol: string, price: real, fetchedAt: int, stale: bool, warning: Option<string>)

  datatype HistoricalPoint = HistoricalPoint(day: int, close: real)

  /** A row of the quote cache table, keyed by symbol. */
  datatype CacheEntry = CacheEntry(price: real, fetchedAt: int)

  /** What the provider's latest-quote call did: a price and its time, or an exception. */
  datatype FetchOutcome = Fetched(price: real, fetchedAt: int) | FetchFailed(message: string)

  /** What the provider's daily-history call did. */
  datatype HistoryOutcome = Points(points: seq<HistoricalPoint>) | HistoryFailed

  const StaleWarningPrefix: string := "Using cached quote due to provider issue: "

  /** An entry is served from the cache while its age is at most the time to live. */
  predicate IsFresh(entry: CacheEntry, now: int, ttlSeconds: int) {
    now - entry.fetchedAt <= ttlSeconds
  }

  /** One `get_quote`: its answer, the cache afterwards, and whether the provider was asked. */
  datatype QuoteStep = QuoteStep(result: Option<QuoteResult>, cache: map<string, CacheEntry>, askedProvider: bool)

  function QuoteLookup(cache: map<string, CacheEntry>, ttlSeconds: int, symbol: string, now: int, fetch: FetchOutcome): QuoteStep {
    var clean := CanonicalSymbol(symbol);
    if clean in cache && IsFresh(cache[clean], now, ttlSeconds) then
      QuoteStep(Some(QuoteResult(clean, cache[clean].price, cache[clean].fetchedAt, false, None)), cache, false)
    else
      match fetch
      case Fetched(price, fetchedAt) =>
        QuoteStep(Some(QuoteResult(clean, price, fetchedAt, false, None)), cache[clean := CacheEntry(price, fetchedAt)], true)
      case FetchFailed(message) =>
        if clean in cache then
          var entry := cache[clean];
          QuoteStep(Some(QuoteResult(clean, entry.price, entry.fetchedAt, true, Some(StaleWarningPrefix + message))), cache, true)
        else
          QuoteStep(None, cache, true)
  }

  class PricingService {
    const ttlSeconds: int
    /** The quote cache table. */
    var cache: map<string, CacheEntry>
    /** The symbols the provider was asked for a latest quote, oldest first. */
    var providerRequests: seq<string>

    constructor (ttlSeconds: int, cache: map<string, CacheEntry>)
      ensures this.ttlSeconds == ttlSeconds && this.cache == cache && providerRequests == []
    {
      this.ttlSeconds := ttlSeconds;
      this.cache := cache;
      providerRequests := [];
    }

    /** `get_quote`; `fetch` is what the provider does if it is asked. */
    method GetQuote(symbol: string, now: int, fetch: FetchOutcome) returns (r: Option<QuoteResult>)
      modifies this
      ensures r == QuoteLookup(old(cache), ttlSeconds, symbol, now, fetch).result
      ensures cache == QuoteLookup(old(cache), ttlSeconds, symbol, now, fetch).cache
      ensures providerRequests == old(providerRequests) +
        (if QuoteLookup(old(cache), ttlSeconds, symbol, now, fetch).askedProvider then [CanonicalSymbol(symbol)] else [])
    {
      var cleanSymbol := CanonicalSymbol(symbol);
      ghost var step := QuoteLookup(cache, ttlSeconds, symbol, now, fetch);
      var cached: Option<CacheEntry> := if cleanSymbol in cache then Some(cache[cleanSymbol]) else None;
      if cached.Some? {
        var ageSeconds := now - cached.value.fetchedAt;
        if ageSeconds <= ttlSeconds {
          return Some(QuoteResult(cleanSymbol, cached.value.price, cached.value.fetchedAt, false, None));
        }
      }
      assert step.askedProvider;
      providerRequests := providerRequests + [cleanSymbol];
      match fetch {
        case Fetched(price, fetchedAt) =>
          cache := cache[cleanSymbol := CacheEntry(price, fetchedAt)];
          r := Some(QuoteResult(cleanSymbol, price, fetchedAt, false, None));
        case FetchFailed(message) =>
          if cached.Some? {
            r := Some(QuoteResult(cleanSymbol, cached.value.price, cached.value.fetchedAt, true, Some(StaleWarningPrefix + message)));
          } else {
            r := None;
          }
      }
    }
  }

  /** `get_historical_daily`: the provider's points for the canonical symbol, or nothing if it fails. */
  function HistoricalDaily(symbol: string, start: int, end: int, provider: (string, int, int) -> HistoryOutcome): (r: seq<HistoricalPoint>)
    ensures provider(CanonicalSymbol(symbol), start, end).HistoryFailed? ==> r == []
    ensures provider(CanonicalSymbol(symbol), start, end).Points? ==> r == provider(CanonicalSymbol(symbol), start, end).points
  {
    match provider(CanonicalSymbol(symbol), start, end)
    case Points(points) => points
    case HistoryFailed => []
  }

  // ---------------------------------------------------------------------------------------------
  // Properties of one lookup.

  /** Every answer is for the canonical symbol, and asking with the canonical symbol changes nothing. */
  lemma AnswersCanonicalSymbol(cache: map<string, CacheEntry>, ttlSeconds: int, symbol: string, now: int, fetch: FetchOutcome)
    ensures var step := QuoteLookup(cache, ttlSeconds, symbol, now, fetch);
      step.result.Some? ==> step.result.value.symbol == CanonicalSymbol(symbol)
    ensures QuoteLookup(cache, ttlSeconds, CanonicalSymbol(symbol), now, fetch) == QuoteLookup(cache, ttlSeconds, symbol, now, fetch)
  {
    CanonicalSymbolIdempotent(symbol);
  }

  /** A fresh entry (age at most the time to live) is served as it is: not stale, provider not asked, cache unchanged. */
  lemma FreshEntryServed(cache: map<string, CacheEntry>, ttlSeconds: int, symbol: string, now: int, fetch: FetchOutcome)
    requires CanonicalSymbol(symbol) in cache && now - cache[CanonicalSymbol(symbol)].fetchedAt <= ttlSeconds
    ensures var step := QuoteLookup(cache, ttlSeconds, symbol, now, fetch);
      var entry := cache[CanonicalSymbol(symbol)];
      step.result == Some(QuoteResult(CanonicalSymbol(symbol), entry.price, entry.fetchedAt, false, None)) &&
      step.cache == cache && !step.askedProvider
  {
  }

  /**
   * Without a fresh entry the provider is asked; on success its price is returned, not stale,
   * and stored for that symbol (inserted or overwritten), every other entry unchanged.
   */
  lemma MissRefreshes(cache: map<string, CacheEntry>, ttlSeconds: int, symbol: string, now: int, price: real, fetchedAt: int)
    requires !(CanonicalSymbol(symbol) in cache && now - cache[CanonicalSymbol(symbol)].fetchedAt <= ttlSeconds)
    ensures var step := QuoteLookup(cache, ttlSeconds, symbol, now, Fetched(price, fetchedAt));
      step.askedProvider &&
      step.result == Some(QuoteResult(CanonicalSymbol(symbol), price, fetchedAt, false, None)) &&
      step.cache == cache[CanonicalSymbol(symbol) := CacheEntry(price, fetchedAt)]
  {
  }

  /** A failing provider with an (expired) entry: the cached price, marked stale, with a warning. */
  lemma FailureFallsBackToStale(cache: map<string, CacheEntry>, ttlSeconds: int, symbol: string, now: int, message: string)
    requires CanonicalSymbol(symbol) in cache && now - cache[CanonicalSymbol(symbol)].fetchedAt > ttlSeconds
    ensures var step := QuoteLookup(cache, ttlSeconds, symbol, now, FetchFailed(message));
      var entry := cache[CanonicalSymbol(symbol)];
      step.askedProvider && step.cache == cache &&
      step.result.Some? && step.result.value.stale &&
      step.result.value.price == entry.price && step.result.value.fetchedAt == entry.fetchedAt &&
      step.result.value.warning.Some? && |step.result.value.warning.value| > 0
  {
  }

  /** A failing provider and no entry: no quote, and no entry is created. */
  lemma FailureWithoutEntry(cache: map<string, CacheEntry>, ttlSeconds: int, symbol: string, now: int, message: string)
    requires CanonicalSymbol(symbol) !in cache
    ensures var step := QuoteLookup(cache, ttlSeconds, symbol, now, FetchFailed(message));
      step.result.None? && step.cache == cache && step.askedProvider
  {
  }

  /** The cache never loses an entry, and only the looked-up symbol can gain or change one. */
  lemma CacheOnlyTouchesSymbol(cache: map<string, CacheEntry>, ttlSeconds: int, symbol: string, now: int, fetch: FetchOutcome)
    ensures var step := QuoteLookup(cache, ttlSeconds, symbol, now, fetch);
      cache.Keys <= step.cache.Keys && step.cache.Keys <= cache.Keys + {CanonicalSymbol(symbol)} &&
      (forall k :: k in cache && k != CanonicalSymbol(symbol) ==> step.cache[k] == cache[k])
  {
  }

  /**
   * After a successful refresh, a lookup of the same symbol within the time to live of the
   * fetched price is served from the cache, whatever the provider would do.
   */
  lemma RefreshThenServed(cache: map<string, CacheEntry>, ttlSeconds: int, symbol: string, now: int, price: real,
                          fetchedAt: int, later: int, next: FetchOutcome)
    requires later - fetchedAt <= ttlSeconds
    requires QuoteLookup(cache, ttlSeconds, symbol, now, Fetched(price, fetchedAt)).askedProvider
    ensures var after := QuoteLookup(cache, ttlSeconds, symbol, now, Fetched(price, fetchedAt)).cache;
      var step := QuoteLookup(after, ttlSeconds, symbol, later, next);
      step.result == Some(QuoteResult(CanonicalSymbol(symbol), price, fetchedAt, false, None)) && !step.askedProvider
  {
  }
}
