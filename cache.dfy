/**
 * The response cache (backend/app/utils/cache.py): a disk store of pipeline
 * responses keyed by the normalised query and the request options, with an
 * `enabled` switch and a time to live. The store's own failures are
 * parameters: `get`, `set` and `delete` swallow them, `clear` re-raises.
 */
module Cache {
  import opened Wrappers
  import opened PyText
  import opened JsonValue
  import opened Errors
  import opened Schemas

  /**
   * What the cache key is computed from: the stripped, lower-cased query and
   * the options, absent options read as `{}`. The key is a SHA-256 digest of
   * the `json.dumps(sort_keys=True)` text of these; the digest is taken to be
   * injective and the text is modelled by the values it prints, which merges
   * options that differ only as `1` and `1.0` (see `JsonValue.Json`).
   */
  datatype CacheKey = CacheKey(query: string, options: JsonObject)

  /** `_generate_key` */
  function GenerateKey(query: string, options: Option<JsonObject>): (k: CacheKey)
    ensures k.query == Lower(Strip(query)) && |k.query| <= |query|
    ensures options.None? ==> k.options == map[]
    ensures options.Some? ==> k.options == options.value
  {
    CacheKey(Lower(Strip(query)), options.GetOr(map[]))
  }

  /** Lower-casing changes no character's whitespace class. */
  lemma LowerKeepsSpace(s: string)
    ensures forall i :: 0 <= i < |s| ==> (IsSpace(Lower(s)[i]) <==> IsSpace(s[i]))
  {
  }

  /**
   * The key depends on the query only through its normal form: queries that
   * differ in letter case or surrounding whitespace share an entry, and a
   * query already in normal form is its own key. Absent options are `{}`.
   */
  lemma KeyNormalisesQuery(q1: string, q2: string, options: Option<JsonObject>)
    ensures GenerateKey(q1, options) == GenerateKey(q2, options) <==> Lower(Strip(q1)) == Lower(Strip(q2))
    ensures GenerateKey(Lower(Strip(q1)), options) == GenerateKey(q1, options)
    ensures GenerateKey(q1, None) == GenerateKey(q1, Some(map[]))
  {
    var s := Strip(q1);
    var t := Lower(s);
    StripEnds(q1);
    LowerKeepsSpace(s);
    StripOfStripped(t);
    assert Lower(t) == t;
  }

  /** A stored response and the time at which its entry expires. */
  datatype Entry = Entry(response: QueryResponse, expiresAt: real)

  /** The response stored under `key`, unless its entry has expired at `now`. */
  function Live(store: map<CacheKey, Entry>, key: CacheKey, now: real): (r: Option<QueryResponse>)
    ensures r.Some? <==> key in store && now < store[key].expiresAt
    ensures r.Some? ==> r.value == store[key].response
  {
    if key in store && now < store[key].expiresAt then Some(store[key].response) else None
  }

  /**
   * The caller's response after `set` has written into its metadata:
   * `cache_hit` is False and `cached_at` holds the time stamp.
   */
  function Stamped(response: QueryResponse, stamp: string): (r: QueryResponse)
    ensures !r.metadata.cacheHit && r.metadata.cachedAt == Some(stamp)
    ensures r.(metadata := response.metadata) == response
    ensures r.metadata.(cacheHit := response.metadata.cacheHit, cachedAt := response.metadata.cachedAt) == response.metadata
  {
    response.(metadata := response.metadata.(cacheHit := false, cachedAt := Some(stamp)))
  }

  /** What `get_stats` reports. */
  datatype CacheStats = CacheStats(size: nat, enabled: bool, ttl: int, directory: string)

  /** `ResponseCache` */
  class ResponseCache {
    var enabled: bool
    var ttl: int
    var directory: string
    /** The disk store: every entry written and not deleted, expired or not. */
    var store: map<CacheKey, Entry>

    /** Opens the cache directory, which may already hold entries. */
    constructor (enabled: bool, ttl: int, directory: string, existing: map<CacheKey, Entry>)
      ensures this.enabled == enabled && this.ttl == ttl && this.directory == directory
      ensures store == existing
    {
      this.enabled := enabled;
      this.ttl := ttl;
      this.directory := directory;
      store := existing;
    }

    /** What `get` returns at time `now`; `readFails` is a failure of the store. */
    function Lookup(query: string, options: Option<JsonObject>, now: real, readFails: bool): (r: Option<QueryResponse>)
      reads this
      ensures r.Some? <==> enabled && !readFails && Live(store, GenerateKey(query, options), now).Some?
      ensures r.Some? ==> r.value == store[GenerateKey(query, options)].response
    {
      if !enabled || readFails then None else Live(store, GenerateKey(query, options), now)
    }

    /**
     * `get`: the live entry of the query's key; nothing when the cache is
     * disabled or the store fails. A stored response is a non-empty dict, so
     * every live entry is a hit.
     */
    method Get(query: string, options: Option<JsonObject>, now: real, readFails: bool) returns (r: Option<QueryResponse>)
      ensures r == Lookup(query, options, now, readFails)
    {
      if !enabled {
        return None;
      }
      if readFails {
        return None;
      }
      var key := GenerateKey(query, options);
      if key in store && now < store[key].expiresAt {
        return Some(store[key].response);
      }
      return None;
    }

    /**
     * `set`: when enabled, stamps the caller's response (`seen` is that
     * response afterwards) and stores it under the query's key for `ttl`
     * seconds; a failing store write leaves the store as it was.
     */
    method Set(query: string, response: QueryResponse, options: Option<JsonObject>, now: real, stamp: string, writeFails: bool)
      returns (seen: QueryResponse)
      modifies this
      ensures enabled == old(enabled) && ttl == old(ttl) && directory == old(directory)
      ensures seen == if enabled then Stamped(response, stamp) else response
      ensures store == if enabled && !writeFails
        then old(store)[GenerateKey(query, options) := Entry(seen, now + ttl as real)]
        else old(store)
    {
      seen := response;
      if !enabled {
        return;
      }
      var key := GenerateKey(query, options);
      seen := Stamped(response, stamp);
      if !writeFails {
        store := store[key := Entry(seen, now + ttl as real)];
      }
    }

    /** `clear`: empties the store, or re-raises the store's failure. */
    method Clear(failure: Option<Exc>) returns (r: Outcome<()>)
      modifies this
      ensures enabled == old(enabled) && ttl == old(ttl) && directory == old(directory)
      ensures failure.None? ==> r == Success(()) && store == map[]
      ensures failure.Some? ==> r == Failure(failure.value) && store == old(store)
    {
      if failure.Some? {
        return Failure(failure.value);
      }
      store := map[];
      r := Success(());
    }

    /** `delete`: removes the query's entry, whether or not the cache is enabled; a store failure is swallowed. */
    method Delete(query: string, options: Option<JsonObject>, writeFails: bool)
      modifies this
      ensures enabled == old(enabled) && ttl == old(ttl) && directory == old(directory)
      ensures writeFails ==> store == old(store)
      ensures !writeFails ==> store == old(store) - {GenerateKey(query, options)}
    {
      if !writeFails {
        store := store - {GenerateKey(query, options)};
      }
    }

    /** `get_stats`: the number of stored entries and the settings, or `{}` (here `None`) when the store fails. */
    method GetStats(readFails: bool) returns (r: Option<CacheStats>)
      ensures readFails <==> r.None?
      ensures r.Some? ==> r.value == CacheStats(|store|, enabled, ttl, directory)
    {
      if readFails {
        return None;
      }
      r := Some(CacheStats(|store|, enabled, ttl, directory));
    }
  }

  /**
   * A response stored by `set` is what `get` returns for any query with the
   * same normal form and the same options until the entry expires; the
   * returned copy says `cache_hit` False.
   */
  method SetThenGet(c: ResponseCache, query: string, sameQuery: string, response: QueryResponse,
                    options: Option<JsonObject>, now: real, later: real, stamp: string)
    returns (r: Option<QueryResponse>)
    requires c.enabled && now <= later < now + c.ttl as real
    requires Lower(Strip(query)) == Lower(Strip(sameQuery))
    modifies c
    ensures r == Some(Stamped(response, stamp))
    ensures !r.value.metadata.cacheHit && r.value.metadata.cachedAt == Some(stamp)
  {
    var seen := c.Set(query, response, options, now, stamp, false);
    KeyNormalisesQuery(query, sameQuery, options);
    r := c.Get(sameQuery, options, later, false);
  }

  /** A disabled cache neither returns nor stores anything. */
  method DisabledCacheIsInert(c: ResponseCache, query: string, response: QueryResponse,
                              options: Option<JsonObject>, now: real, stamp: string)
    returns (r: Option<QueryResponse>)
    requires !c.enabled
    modifies c
    ensures r.None? && c.store == old(c.store)
  {
    var seen := c.Set(query, response, options, now, stamp, false);
    r := c.Get(query, options, now, false);
  }

  /** Deleting a query's entry makes `get` miss for it, at any time. */
  method DeleteThenGet(c: ResponseCache, query: string, options: Option<JsonObject>, now: real)
    returns (r: Option<QueryResponse>)
    modifies c
    ensures r.None?
  {
    c.Delete(query, options, false);
    r := c.Get(query, options, now, false);
  }
}
