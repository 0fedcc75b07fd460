/**
 * The search-result cache of the scraper and the tiered search in front of it
 * (`get_cached_results`, `cache_results`, `buscar_no_google` in
 * backend/scraper.py). The JSON file behind the cache is an in-memory map,
 * the clock is the parameter `now` (microseconds), and the two search
 * engines are oracles.
 */
module SearchCache {
  import opened Base
  import opened Dates

  /** One cache entry: when it was written and the results stored. */
  datatype Entry = Entry(timestamp: int, results: seq<string>)

  /** What one search engine attempt produced: an exception, or a list of URLs. */
  datatype Attempt = Failed | Results(urls: seq<string>)

  /**
   * The two engines behind the cache, as functions of the query and the
   * number of results asked for: the HTML endpoint of DuckDuckGo and the
   * browser-driven Bing search.
   */
  datatype Engines = Engines(duckDuckGo: (string, nat) -> Attempt, browser: (string, nat) -> Attempt)

  /** Entries younger than this are served from the cache (seven days). */
  const MaxAge: int := 7 * MicrosPerDay

  /** An entry written at `timestamp` is still fresh at `now`: strictly younger than seven days. */
  predicate Fresh(timestamp: int, now: int) {
    now - timestamp < MaxAge
  }

  /** `get_cached_results(query)` against the cache contents `entries`. */
  function LookupIn(entries: map<string, Entry>, query: string, now: int): (r: Option<seq<string>>)
    ensures r.Some? <==> query in entries && Fresh(entries[query].timestamp, now)
    ensures r.Some? ==> r.value == entries[query].results
  {
    if query in entries && Fresh(entries[query].timestamp, now) then Some(entries[query].results) else None
  }

  /** The outcome of `buscar_no_google`: the results returned and the cache contents afterwards. */
  datatype Outcome = Outcome(results: seq<string>, entries: map<string, Entry>)

  /**
   * `buscar_no_google(query, n)`: a fresh, non-empty cache entry is served
   * (truncated to `n`); otherwise DuckDuckGo and then the browser search are
   * tried, and the first that returns a non-empty list is cached and served;
   * when both fail or find nothing the result is empty.
   */
  function SearchOutcome(entries: map<string, Entry>, query: string, n: nat, now: int, engines: Engines): Outcome {
    var cached := LookupIn(entries, query, now);
    if cached.Some? && cached.value != [] then
      Outcome(Take(cached.value, n), entries)
    else
      var first := engines.duckDuckGo(query, n);
      if first.Results? && first.urls != [] then
        Outcome(Take(first.urls, n), entries[query := Entry(now, first.urls)])
      else
        var second := engines.browser(query, n);
        if second.Results? && second.urls != [] then
          Outcome(Take(second.urls, n), entries[query := Entry(now, second.urls)])
        else
          Outcome([], entries)
  }

  /** The persistent search cache. */
  class Cache {
    var entries: map<string, Entry>

    constructor(initial: map<string, Entry>)
      ensures entries == initial
    {
      entries := initial;
    }

    /** `get_cached_results(query)` */
    function Lookup(query: string, now: int): Option<seq<string>>
      reads this
    {
      LookupIn(entries, query, now)
    }

    /** `cache_results(query, results)`: stamp the entry with the current time, overwriting any old one. */
    method Put(query: string, results: seq<string>, now: int)
      modifies this
      ensures entries == old(entries)[query := Entry(now, results)]
    {
      entries := entries[query := Entry(now, results)];
    }

    /** `buscar_no_google(query, n)`, tier by tier with early returns. */
    method Search(query: string, n: nat, now: int, engines: Engines) returns (results: seq<string>)
      modifies this
      ensures Outcome(results, entries) == SearchOutcome(old(entries), query, n, now, engines)
    {
      var cached := Lookup(query, now);
      if cached.Some? && cached.value != [] {
        return Take(cached.value, n);
      }
      var first := engines.duckDuckGo(query, n);
      if first.Results? && first.urls != [] {
        Put(query, first.urls, now);
        return Take(first.urls, n);
      }
      var second := engines.browser(query, n);
      if second.Results? && second.urls != [] {
        Put(query, second.urls, now);
        return Take(second.urls, n);
      }
      return [];
    }
  }

  /** Reading back a freshly written entry gives the stored results exactly while it is younger than seven days. */
  lemma LookupAfterPut(entries: map<string, Entry>, query: string, results: seq<string>, written: int, now: int)
    ensures LookupIn(entries[query := Entry(written, results)], query, now) == (if now - written < 7 * MicrosPerDay then Some(results) else None)
  {
  }

  /** Writing one query leaves the lookups of every other query unchanged. */
  lemma PutKeepsOtherQueries(entries: map<string, Entry>, query: string, other: string, e: Entry, now: int)
    requires other != query
    ensures LookupIn(entries[query := e], other, now) == LookupIn(entries, other, now)
  {
  }

  /** The search never returns more than `n` results. */
  lemma SearchBounded(entries: map<string, Entry>, query: string, n: nat, now: int, engines: Engines)
    ensures |SearchOutcome(entries, query, n, now, engines).results| <= n
  {
  }

  /** A fresh non-empty cache entry is served truncated, no engine is consulted and the cache is unchanged. */
  lemma SearchCacheHit(entries: map<string, Entry>, query: string, n: nat, now: int, engines: Engines, other: Engines)
    requires LookupIn(entries, query, now).Some? && LookupIn(entries, query, now).value != []
    ensures SearchOutcome(entries, query, n, now, engines) == SearchOutcome(entries, query, n, now, other)
    ensures SearchOutcome(entries, query, n, now, engines) == Outcome(Take(entries[query].results, n), entries)
  {
  }

  /**
   * The cache only changes at `query`, only to a non-empty list stamped `now`,
   * and a later lookup within seven days serves what was written.
   */
  lemma SearchWritesNonEmpty(entries: map<string, Entry>, query: string, n: nat, now: int, engines: Engines)
    ensures var o := SearchOutcome(entries, query, n, now, engines);
      o.entries == entries ||
      (exists rs :: rs != [] && o.entries == entries[query := Entry(now, rs)] && o.results == Take(rs, n))
  {
    var first := engines.duckDuckGo(query, n);
    var second := engines.browser(query, n);
    var o := SearchOutcome(entries, query, n, now, engines);
    if o.entries != entries {
      if first.Results? && first.urls != [] {
        assert o.entries == entries[query := Entry(now, first.urls)];
      } else {
        assert o.entries == entries[query := Entry(now, second.urls)];
      }
    }
  }

  /** When neither engine finds anything and the cache has nothing usable, the search returns the empty list. */
  lemma SearchTotalFailure(entries: map<string, Entry>, query: string, n: nat, now: int, engines: Engines)
    requires LookupIn(entries, query, now) == None || LookupIn(entries, query, now).value == []
    requires engines.duckDuckGo(query, n) in {Failed, Results([])}
    requires engines.browser(query, n) in {Failed, Results([])}
    ensures SearchOutcome(entries, query, n, now, engines) == Outcome([], entries)
  {
  }
}
