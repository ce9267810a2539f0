/** The memoising lookup `get_stock_data`: a map from (symbol, date, interval)
    to the table the upstream data source returned, threaded through an
    explicit session value instead of the analyzer object's fields. */
module QuoteCache {
  import opened Bars

  /** The interval every lookup of the analyzer asks for. */
  const DailyInterval: string := "1d"

  /** `f"{symbol}_{date_str}_{interval}"`. Dates and intervals contain no
      underscore, so the string key and this tuple determine each other. */
  datatype Key = Key(symbol: string, date: int, interval: string)

  /** What one call of the upstream `fetch_intraday` does: return a table or
      None, or raise with a message. */
  datatype Fetched = Returned(data: Option<Table>) | Raised(message: string)

  /** The upstream source, a deterministic function of the key. */
  type Fetcher = Key -> Fetched

  /** The message appended to `self.errors` when the upstream raises. */
  datatype FetchError = FetchError(symbol: string, date: int, message: string)

  /** The analyzer's mutable state that lookups touch: `data_cache`,
      `errors`, and a log of the upstream calls made (one per call, in order). */
  datatype Session = Session(cache: map<Key, Table>, errors: seq<FetchError>, calls: seq<Key>)

  const EmptySession: Session := Session(map[], [], [])

  /** What the source returns for a key when nothing is cached:
      the upstream's table or None, and None when it raises. */
  function Lookup(fetch: Fetcher, key: Key): Option<Table> {
    match fetch(key)
    case Returned(data) => data
    case Raised(_) => None
  }

  /** The errors a lookup of `key` logs when it reaches the upstream: one
      when the upstream raises, none otherwise. */
  function LookupErrors(fetch: Fetcher, key: Key): seq<FetchError> {
    match fetch(key)
    case Returned(_) => []
    case Raised(msg) => [FetchError(key.symbol, key.date, msg)]
  }

  /** Every cached table is the one the upstream returns for its key. */
  ghost predicate CacheSound(cache: map<Key, Table>, fetch: Fetcher) {
    forall k :: k in cache ==> fetch(k) == Returned(Some(cache[k]))
  }

  /** `get_stock_data`. A cached key is answered from the cache with no upstream
      call; otherwise the upstream is called once, a non-None table is stored,
      and a raise is logged as one error and answered with None. */
  function GetStockData(s: Session, fetch: Fetcher, key: Key): (res: (Session, Option<Table>))
    ensures key in s.cache ==> res == (s, Some(s.cache[key]))
    ensures key !in s.cache ==> res.0.calls == s.calls + [key]
    ensures key !in s.cache ==> res.1 == Lookup(fetch, key)
    ensures res.0.cache == if res.1.Some? then s.cache[key := res.1.value] else s.cache
    ensures key !in s.cache && fetch(key).Raised? ==>
              res.0.errors == s.errors + [FetchError(key.symbol, key.date, fetch(key).message)]
    ensures !(key !in s.cache && fetch(key).Raised?) ==> res.0.errors == s.errors
  {
    if key in s.cache then (s, Some(s.cache[key]))
    else
      var s1 := s.(calls := s.calls + [key]);
      match fetch(key)
      case Returned(data) =>
        if data.Some? then (s1.(cache := s1.cache[key := data.value]), data)
        else (s1, None)
      case Raised(msg) =>
        (s1.(errors := s1.errors + [FetchError(key.symbol, key.date, msg)]), None)
  }

  /** Caching is invisible in the answers: with a sound cache a lookup returns
      exactly what the upstream would, logs exactly the errors an uncached
      call would (a cached key never raised), and the cache stays sound. */
  lemma CacheTransparent(s: Session, fetch: Fetcher, key: Key)
    requires CacheSound(s.cache, fetch)
    ensures GetStockData(s, fetch, key).1 == Lookup(fetch, key)
    ensures GetStockData(s, fetch, key).0.errors == s.errors + LookupErrors(fetch, key)
    ensures CacheSound(GetStockData(s, fetch, key).0.cache, fetch)
  {
  }

  /** After a lookup that produced a table, asking again for the same key
      returns the same table and calls the upstream no further. */
  lemma RepeatLookupHitsCache(s: Session, fetch: Fetcher, key: Key)
    requires GetStockData(s, fetch, key).1.Some?
    ensures var (s1, t1) := GetStockData(s, fetch, key);
            GetStockData(s1, fetch, key) == (s1, t1)
    ensures var (s1, _) := GetStockData(s, fetch, key);
            |s1.calls| <= |s.calls| + 1
  {
  }

  /** A None answer is not stored: the next lookup of the key calls the
      upstream again. */
  lemma NoneIsNotCached(s: Session, fetch: Fetcher, key: Key)
    requires key !in s.cache
    requires GetStockData(s, fetch, key).1.None?
    ensures var (s1, _) := GetStockData(s, fetch, key);
            key !in s1.cache && s1.cache == s.cache &&
            GetStockData(s1, fetch, key).0.calls == s.calls + [key, key]
  {
  }

  /** A raising upstream call yields None, appends exactly one error and
      leaves the cache as it was. */
  lemma RaiseLogsOneError(s: Session, fetch: Fetcher, key: Key)
    requires key !in s.cache && fetch(key).Raised?
    ensures var (s1, t) := GetStockData(s, fetch, key);
            t == None && s1.cache == s.cache && |s1.errors| == |s.errors| + 1 &&
            s1.errors[..|s.errors|] == s.errors
  {
  }
}
