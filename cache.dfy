/** The process-wide response cache of utils/cache.js: a map from keys to
    `{data, timestamp}` whose entries are served only while younger than
    five minutes. Expired entries are never purged on read; only `set`
    (overwrite), `remove` and `clear` change the map. The clock is an
    explicit argument: `now` stands for `Date.now()` at the call. */
module CacheStore {
  import opened Domain
  import opened CacheKeys

  /** CACHE_DURATION: five minutes in milliseconds. */
  const CACHE_DURATION: nat := 5 * 60 * 1000

  datatype Entry = Entry(data: Payload, timestamp: nat)

  /** An entry is served while `now - timestamp < CACHE_DURATION`. */
  predicate Fresh(e: Entry, now: nat)
  {
    now - e.timestamp < CACHE_DURATION
  }

  class Cache {
    var entries: map<string, Entry>

    /** Every stored payload has the shape the hook owning its key family
        writes; the hooks rely on it when they read a hit. */
    ghost predicate WellTyped()
      reads this
    {
      forall k :: k in entries ==> Fits(KindOf(k), entries[k].data)
    }

    constructor ()
      ensures entries == map[] && WellTyped()
    {
      entries := map[];
    }

    /** getCachedData: the stored data when an entry exists and is younger
        than CACHE_DURATION at `now`, otherwise nothing. */
    function Get(key: string, now: nat): (r: Option<Payload>)
      reads this
      ensures r.Some? <==> key in entries && now < entries[key].timestamp + CACHE_DURATION
      ensures r.Some? ==> r.value == entries[key].data
    {
      if key in entries && Fresh(entries[key], now) then Some(entries[key].data) else None
    }

    /** setCachedData: overwrites the entry for `key`, stamped with `now`.
        Afterwards `key` is served `data` until CACHE_DURATION has passed
        since this call and nothing from then on; every other key is
        served exactly as before. */
    method Set(key: string, data: Payload, now: nat)
      modifies this
      ensures entries == old(entries)[key := Entry(data, now)]
      ensures forall t: nat :: t < now + CACHE_DURATION ==> Get(key, t) == Some(data)
      ensures forall t: nat :: t >= now + CACHE_DURATION ==> Get(key, t) == None
      ensures forall k, t: nat :: k != key ==> Get(k, t) == old(Get(k, t))
      ensures old(WellTyped()) && Fits(KindOf(key), data) ==> WellTyped()
    {
      entries := entries[key := Entry(data, now)];
    }

    /** clearCache: drops every entry; nothing is served until the next Set. */
    method Clear()
      modifies this
      ensures entries == map[]
      ensures forall k, t: nat :: Get(k, t) == None
      ensures WellTyped()
    {
      entries := map[];
    }

    /** removeCachedData: drops the entry for `key` (if any); `key` is no
        longer served and every other key is served exactly as before. */
    method Remove(key: string)
      modifies this
      ensures entries == old(entries) - {key}
      ensures forall t: nat :: Get(key, t) == None
      ensures forall k, t: nat :: k != key ==> Get(k, t) == old(Get(k, t))
      ensures old(WellTyped()) ==> WellTyped()
    {
      entries := entries - {key};
    }
  }

  /** Reading never changes the map: an expired entry stays stored and is
      only reported absent. */
  method GetLeavesExpiredEntry(c: Cache, key: string, data: Payload, storedAt: nat, later: nat)
    returns (served: Option<Payload>, stillStored: bool)
    requires later >= storedAt + CACHE_DURATION
    modifies c
    ensures served == None && stillStored
  {
    c.Set(key, data, storedAt);
    served := c.Get(key, later);
    stillStored := key in c.entries;
  }

  /** Two successive sets on one key: only the second value is served, and
      its age counts from the second set. */
  method OverwriteKeepsLast(c: Cache, key: string, first: Payload, second: Payload, t1: nat, t2: nat)
    returns (beforeExpiry: Option<Payload>, atExpiry: Option<Payload>)
    modifies c
    ensures beforeExpiry == Some(second) && atExpiry == None
    ensures key in c.entries && c.entries[key] == Entry(second, t2)
  {
    c.Set(key, first, t1);
    c.Set(key, second, t2);
    beforeExpiry := c.Get(key, t2 + CACHE_DURATION - 1);
    atExpiry := c.Get(key, t2 + CACHE_DURATION);
  }
}
