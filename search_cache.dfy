/**
 * The `useSearchCache` hook: a keyed record of search results stamped with
 * the time they were stored. A lookup returns the result while it is at most
 * five minutes old and deletes it once it is strictly older. The clock
 * (`Date.now()`) is an explicit `now` parameter.
 */
module SearchCache {
  import opened Wrappers

  /** `CACHE_DURATION`: five minutes in milliseconds. */
  const CacheDuration: int := 5 * 60 * 1000

  datatype Entry<D> = Entry(data: D, timestamp: int)

  /** An entry is still served at `now`: `now - timestamp > CACHE_DURATION` is false. */
  predicate Live<D>(e: Entry<D>, now: int) {
    now - e.timestamp <= CacheDuration
  }

  /** What `getCachedResult(key)` returns at `now`; None stands for `null`. */
  function Lookup<D>(entries: map<string, Entry<D>>, key: string, now: int): (r: Option<D>)
    ensures r.Some? <==> key in entries && Live(entries[key], now)
    ensures r.Some? ==> r.value == entries[key].data
  {
    if key !in entries then None
    else if !Live(entries[key], now) then None
    else Some(entries[key].data)
  }

  /** The record after `getCachedResult(key)` at `now`: an expired entry is deleted. */
  function AfterLookup<D>(entries: map<string, Entry<D>>, key: string, now: int): (r: map<string, Entry<D>>)
    ensures key in entries && !Live(entries[key], now) ==> key !in r
    ensures forall k :: k != key ==> (k in r <==> k in entries) && (k in r ==> r[k] == entries[k])
    ensures key in entries && Live(entries[key], now) ==> key in r && r[key] == entries[key]
    ensures key !in entries ==> r == entries
  {
    if key in entries && !Live(entries[key], now) then entries - {key} else entries
  }

  class SearchResultCache<D> {
    var entries: map<string, Entry<D>>

    /** `useState({})`. */
    constructor ()
      ensures entries == map[]
    {
      entries := map[];
    }

    /** `getCachedResult(key)` at time `now`. */
    method GetCachedResult(key: string, now: int) returns (r: Option<D>)
      modifies this
      ensures r == Lookup(old(entries), key, now)
      ensures entries == AfterLookup(old(entries), key, now)
    {
      if key !in entries {
        return None;
      }
      var entry := entries[key];
      if now - entry.timestamp > CacheDuration {
        entries := entries - {key};
        return None;
      }
      r := Some(entry.data);
    }

    /** `setCacheResult(key, data)` at time `now`: overwrites `key`, keeps every other key. */
    method SetCacheResult(key: string, data: D, now: int)
      modifies this
      ensures entries == old(entries)[key := Entry(data, now)]
    {
      entries := entries[key := Entry(data, now)];
    }
  }

  // ---------------------------------------------------------------- what the cache promises

  /** A lookup at the instant of storing returns what was stored. */
  lemma StoredThenFound<D>(entries: map<string, Entry<D>>, key: string, data: D, now: int)
    ensures Lookup(entries[key := Entry(data, now)], key, now) == Some(data)
  {
  }

  /** An entry is still served exactly five minutes after it was stored, and not a millisecond later. */
  lemma ExpiryBoundary<D>(entries: map<string, Entry<D>>, key: string, data: D, t: int)
    ensures Lookup(entries[key := Entry(data, t)], key, t + CacheDuration) == Some(data)
    ensures Lookup(entries[key := Entry(data, t)], key, t + CacheDuration + 1) == None
    ensures key !in AfterLookup(entries[key := Entry(data, t)], key, t + CacheDuration + 1)
  {
  }

  /** Storing one key changes no lookup of another key. */
  lemma StoreIsolated<D>(entries: map<string, Entry<D>>, key: string, other: string, data: D, t: int, now: int)
    requires other != key
    ensures Lookup(entries[key := Entry(data, t)], other, now) == Lookup(entries, other, now)
  {
  }

  /** Once expired, an entry stays expired at every later time, and a lookup never revives it. */
  lemma {:induction false} ExpiredStaysExpired<D>(entries: map<string, Entry<D>>, key: string, now: int, later: int)
    requires key in entries && !Live(entries[key], now) && now <= later
    ensures Lookup(entries, key, later) == None
    ensures Lookup(AfterLookup(entries, key, now), key, later) == None
  {
  }

  /** Looking a key up twice at the same time gives the same answer as looking it up once. */
  lemma LookupTwice<D>(entries: map<string, Entry<D>>, key: string, now: int)
    ensures Lookup(AfterLookup(entries, key, now), key, now) == Lookup(entries, key, now)
    ensures AfterLookup(AfterLookup(entries, key, now), key, now) == AfterLookup(entries, key, now)
  {
  }
}
