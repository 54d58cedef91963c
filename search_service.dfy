/**
 * `SearchService` (lib/services/searchService.ts): a per-instance cache of
 * search results keyed by `"<query>:<includeOutOfStock>"`, each entry valid
 * for five minutes, in front of the two database queries of the Ranking
 * module.
 *
 * The clock (`Date.now()`) is read twice, once to test an entry's age and
 * once to stamp a new entry; both readings are parameters. The database is
 * a parameter too: either the rows the two queries see, or the error a
 * query raised.
 */
module SearchCache {
  import opened Common
  import opened Text
  import opened Ranking

  /** `CACHE_TTL = 5 * 60 * 1000` milliseconds. */
  const CacheTtl: int := 5 * 60 * 1000

  /** `query.length < 2` returns [] at once. */
  const MinQueryLength: nat := 2

  /** A cached result list and the clock reading when it was stored. */
  datatype CacheEntry = CacheEntry(results: seq<SearchResult>, timestamp: int)

  /** What a thrown value carries: an `Error` with its message, or anything else. */
  datatype Fault = ErrorObject(message: string) | NonError

  /** The database as the two queries find it: the tables' rows, or a failing connection. */
  datatype Backend = Up(stallRows: seq<StallRow>, itemRows: seq<ItemRow>) | Down(fault: Fault)

  /** The text of a boolean in a template literal. */
  function BoolText(b: bool): string {
    if b then "true" else "false"
  }

  /** The cache key `${query}:${includeOutOfStock}`: the raw query, not its lower-case form. */
  function CacheKey(query: string, includeOutOfStock: bool): (k: string)
    ensures |k| == |query| + 1 + |BoolText(includeOutOfStock)|
    ensures StartsWith(k, query)
  {
    query + ":" + BoolText(includeOutOfStock)
  }

  /** Distinct (query, flag) pairs never share an entry. */
  lemma CacheKeyInjective(q1: string, b1: bool, q2: string, b2: bool)
    requires CacheKey(q1, b1) == CacheKey(q2, b2)
    ensures q1 == q2 && b1 == b2
  {
    var k := CacheKey(q1, b1);
    if b1 == b2 {
      assert q1 == k[..|q1|] == q2;
    } else {
      FlagLetter(q1, b1);
      FlagLetter(q2, b2);
    }
  }

  /** ":true" and ":false" differ in their second-to-last letter. */
  lemma FlagLetter(query: string, b: bool)
    ensures var k := CacheKey(query, b); k[|k| - 2] == if b then 'u' else 's'
  {
  }

  /** "Toma" and "toma" are two cache entries although they match the same rows. */
  lemma CaseSensitiveKeys()
    ensures CacheKey("Toma", false) != CacheKey("toma", false)
    ensures Lower("Toma") == Lower("toma")
  {
    assert CacheKey("Toma", false)[0] == 'T';
    assert Lower("Toma") == [LowerChar('T')] + Lower("oma");
  }

  /** `Date.now() - cached.timestamp < CACHE_TTL`. */
  predicate Fresh(e: CacheEntry, now: int) {
    now - e.timestamp < CacheTtl
  }

  /** The cached results searchAll returns without a query, if any. */
  function Lookup(cache: map<string, CacheEntry>, key: string, now: int): (r: Option<seq<SearchResult>>)
    ensures r.Some? <==> key in cache && now - cache[key].timestamp < CacheTtl
    ensures r.Some? ==> r.value == cache[key].results
  {
    if key in cache && Fresh(cache[key], now) then Some(cache[key].results) else None
  }

  /** An entry is served for just under five minutes after it is stored, and not at five minutes. */
  lemma TtlBoundary(cache: map<string, CacheEntry>, key: string, e: CacheEntry)
    requires key in cache && cache[key] == e
    ensures Lookup(cache, key, e.timestamp + 299999) == Some(e.results)
    ensures Lookup(cache, key, e.timestamp + 300000) == None
  {
  }

  /**
   * What one call of searchAll does, as a function of the cache before it:
   * the outcome, whether the database was queried, and the cache after it.
   */
  datatype Step = Step(outcome: Result<seq<SearchResult>, Fault>, queried: bool, cache: map<string, CacheEntry>)

  function SearchStep(cache: map<string, CacheEntry>, query: string, includeOutOfStock: bool,
                      now: int, backend: Backend, storedAt: int): Step
  {
    if |query| < MinQueryLength then Step(Success([]), false, cache)
    else
      var key := CacheKey(query, includeOutOfStock);
      var hit := Lookup(cache, key, now);
      if hit.Some? then Step(Success(hit.value), false, cache)
      else match backend
        case Down(fault) => Step(Failure(fault), true, cache)
        case Up(stallRows, itemRows) =>
          var results := RankedResults(stallRows, itemRows, query, includeOutOfStock);
          Step(Success(results), true, cache[key := CacheEntry(results, storedAt)])
  }

  /** A query shorter than two characters returns [] before reading or writing the cache or the database. */
  lemma ShortQueryDoesNothing(cache: map<string, CacheEntry>, query: string, includeOutOfStock: bool,
                              now: int, backend: Backend, storedAt: int)
    requires |query| < 2
    ensures SearchStep(cache, query, includeOutOfStock, now, backend, storedAt) == Step(Success([]), false, cache)
  {
  }

  /**
   * For a query of two or more characters the database is left alone exactly
   * when its key has an entry younger than five minutes, and then the
   * entry's results are returned as they are and the cache is not touched.
   */
  lemma CacheHitIff(cache: map<string, CacheEntry>, query: string, includeOutOfStock: bool,
                    now: int, backend: Backend, storedAt: int)
    requires |query| >= 2
    ensures var key := CacheKey(query, includeOutOfStock);
      var st := SearchStep(cache, query, includeOutOfStock, now, backend, storedAt);
      && (!st.queried <==> key in cache && now - cache[key].timestamp < CacheTtl)
      && (!st.queried ==> st.outcome == Success(cache[key].results) && st.cache == cache)
  {
  }

  /** A failing query is rethrown and leaves the cache as it was. */
  lemma FailureLeavesCache(cache: map<string, CacheEntry>, query: string, includeOutOfStock: bool,
                           now: int, fault: Fault, storedAt: int)
    ensures var st := SearchStep(cache, query, includeOutOfStock, now, Down(fault), storedAt);
      st.cache == cache && (st.outcome.Failure? ==> st.outcome.error == fault && st.queried)
  {
  }

  /**
   * The cache changes only after a successful query, and then only at the
   * call's own key, which then holds the results returned and the second
   * clock reading.
   */
  lemma CacheWrittenOnlyOnSuccess(cache: map<string, CacheEntry>, query: string, includeOutOfStock: bool,
                                  now: int, backend: Backend, storedAt: int)
    ensures var key := CacheKey(query, includeOutOfStock);
      var st := SearchStep(cache, query, includeOutOfStock, now, backend, storedAt);
      && (st.cache != cache ==> st.queried && st.outcome.Success?)
      && (st.queried && st.outcome.Success? ==>
            st.cache == cache[key := CacheEntry(st.outcome.value, storedAt)])
  {
  }

  /**
   * A second identical search within five minutes of the first one's store
   * returns the same list without querying, whatever the database holds by then.
   */
  lemma RepeatWithinTtlHits(cache: map<string, CacheEntry>, query: string, includeOutOfStock: bool,
                            now: int, backend: Backend, storedAt: int,
                            later: int, backend2: Backend, storedAt2: int)
    requires |query| >= 2
    requires later - storedAt < CacheTtl
    ensures var first := SearchStep(cache, query, includeOutOfStock, now, backend, storedAt);
      first.outcome.Success? && first.queried ==>
        var second := SearchStep(first.cache, query, includeOutOfStock, later, backend2, storedAt2);
        second == Step(first.outcome, false, first.cache)
  {
  }

  /** At exactly five minutes the entry is recomputed and overwritten. */
  lemma ExpiredEntryRecomputed(cache: map<string, CacheEntry>, query: string, includeOutOfStock: bool,
                               stallRows: seq<StallRow>, itemRows: seq<ItemRow>, storedAt: int)
    requires |query| >= 2
    requires CacheKey(query, includeOutOfStock) in cache
    ensures var key := CacheKey(query, includeOutOfStock);
      var now := cache[key].timestamp + CacheTtl;
      var st := SearchStep(cache, query, includeOutOfStock, now, Up(stallRows, itemRows), storedAt);
      && st.queried
      && st.outcome == Success(RankedResults(stallRows, itemRows, query, includeOutOfStock))
      && st.cache[key] == CacheEntry(RankedResults(stallRows, itemRows, query, includeOutOfStock), storedAt)
  {
  }

  /** A search's results, fresh or cached, are at most ten and sorted, when every entry came from a query. */
  ghost predicate CacheConsistent(cache: map<string, CacheEntry>) {
    forall k :: k in cache ==> |cache[k].results| <= ResultLimit && Sorted(cache[k].results)
  }

  lemma StepKeepsConsistent(cache: map<string, CacheEntry>, query: string, includeOutOfStock: bool,
                            now: int, backend: Backend, storedAt: int)
    requires CacheConsistent(cache)
    ensures var st := SearchStep(cache, query, includeOutOfStock, now, backend, storedAt);
      && CacheConsistent(st.cache)
      && (st.outcome.Success? ==> |st.outcome.value| <= ResultLimit && Sorted(st.outcome.value))
  {
    if backend.Up? {
      RankedResultsBounds(backend.stallRows, backend.itemRows, query, includeOutOfStock);
    }
  }

  /** No `%`, `_` or `\` in the query: SQL LIKE then compares it literally. */
  predicate LiteralPattern(query: string) {
    forall i :: 0 <= i < |query| ==> query[i] != '%' && query[i] != '_' && query[i] != '\\'
  }

  /** `class SearchService`: its one field is the cache map. */
  class SearchService {
    var cache: map<string, CacheEntry>

    ghost predicate Valid()
      reads this
    {
      CacheConsistent(cache)
    }

    constructor()
      ensures cache == map[]
      ensures Valid()
    {
      cache := map[];
    }

    /**
     * `searchAll(query, includeOutOfStock)`. `now` is the clock when the
     * cache is consulted and `storedAt` the clock when a fresh result is
     * stored; `queried` tells whether the database was asked.
     */
    method SearchAll(query: string, includeOutOfStock: bool, now: int, backend: Backend, storedAt: int)
      returns (outcome: Result<seq<SearchResult>, Fault>, queried: bool)
      requires LiteralPattern(query)
      requires Valid()
      modifies this
      ensures Valid()
      ensures Step(outcome, queried, cache) == SearchStep(old(cache), query, includeOutOfStock, now, backend, storedAt)
      ensures outcome.Success? ==> |outcome.value| <= ResultLimit && Sorted(outcome.value)
    {
      StepKeepsConsistent(cache, query, includeOutOfStock, now, backend, storedAt);
      if |query| < MinQueryLength {
        return Success([]), false;
      }
      var key := CacheKey(query, includeOutOfStock);
      if key in cache {
        var cached := cache[key];
        if now - cached.timestamp < CacheTtl {
          return Success(cached.results), false;
        }
      }
      queried := true;
      match backend {
        case Down(fault) =>
          outcome := Failure(fault);
        case Up(stallRows, itemRows) =>
          var q := Lower(query);
          var stallResults := SearchStalls(stallRows, q);
          var itemResults := SearchItems(itemRows, q, includeOutOfStock);
          var results := Merge(stallResults, itemResults);
          cache := cache[key := CacheEntry(results, storedAt)];
          outcome := Success(results);
      }
    }
  }
}
