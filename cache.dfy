/**
 * The in-memory horoscope cache of bot/utils/cache.py: a dictionary from
 * `"sign:date"` keys to entries that carry their own expiry instant. Time
 * is an integer number of seconds passed in by the caller.
 */
module Cache {
  import opened Wrappers

  /** One cached value and the instant after which it is stale. */
  datatype Entry = Entry(data: string, expiresAt: int)

  /** An entry is stale only strictly after its expiry instant. */
  predicate Expired(e: Entry, now: int)
  {
    now > e.expiresAt
  }

  /** `_get_cache_key`: the sign and the date joined by a colon. */
  function CacheKey(sign: string, date: string): (key: string)
    ensures |key| == |sign| + 1 + |date|
    ensures key[..|sign|] == sign && key[|sign|] == ':' && key[|sign| + 1..] == date
  {
    sign + ":" + date
  }

  /** Two keys built from colon-free signs are equal only when sign and date both are. */
  lemma CacheKeyInjective(s1: string, d1: string, s2: string, d2: string)
    requires ':' !in s1 && ':' !in s2
    requires CacheKey(s1, d1) == CacheKey(s2, d2)
    ensures s1 == s2 && d1 == d2
  {
  }

  /** Without the colon-free condition, two different pairs can share a key. */
  lemma CacheKeyCollision()
    ensures CacheKey("a:b", "c") == CacheKey("a", "b:c")
  {
  }

  /** What `cleanup_expired` leaves: every live entry, unchanged, and nothing else. */
  function Sweep(m: map<string, Entry>, now: int): (r: map<string, Entry>)
    ensures forall k :: k in r <==> k in m && !Expired(m[k], now)
    ensures forall k :: k in r ==> r[k] == m[k]
  {
    map k | k in m && !Expired(m[k], now) :: m[k]
  }

  /** Sweeping twice at the same instant is sweeping once. */
  lemma SweepIdempotent(m: map<string, Entry>, now: int)
    ensures Sweep(Sweep(m, now), now) == Sweep(m, now)
  {
  }

  /** After a sweep no entry is stale at that instant. */
  lemma SweepLeavesNoStale(m: map<string, Entry>, now: int, k: string)
    requires k in Sweep(m, now)
    ensures !Expired(Sweep(m, now)[k], now)
  {
  }

  /** `HoroscopeCache`: the dictionary `_cache` and the time to live `_ttl`. */
  class HoroscopeCache {
    var entries: map<string, Entry>
    const ttl: int

    /** `__init__`: an empty cache with the given time to live. */
    constructor (ttlSeconds: int)
      ensures entries == map[] && ttl == ttlSeconds
    {
      entries := map[];
      ttl := ttlSeconds;
    }

    /**
     * `get`: a missing key returns `None` and changes nothing; a stale entry
     * is deleted and returns `None`; a live one returns its data and changes
     * nothing.
     */
    method Get(sign: string, date: string, now: int) returns (r: Option<string>)
      modifies this
      ensures var key := CacheKey(sign, date);
        if key !in old(entries) then
          r == None && entries == old(entries)
        else if Expired(old(entries)[key], now) then
          r == None && entries == old(entries) - {key}
        else
          r == Some(old(entries)[key].data) && entries == old(entries)
    {
      var key := CacheKey(sign, date);
      if key !in entries {
        return None;
      }
      var entry := entries[key];
      if now > entry.expiresAt {
        entries := entries - {key};
        return None;
      }
      return Some(entry.data);
    }

    /** `set`: stores `data` under the key with expiry `now + ttl`, replacing any earlier entry. */
    method Set(sign: string, data: string, date: string, now: int)
      modifies this
      ensures entries == old(entries)[CacheKey(sign, date) := Entry(data, now + ttl)]
    {
      var key := CacheKey(sign, date);
      entries := entries[key := Entry(data, now + ttl)];
    }

    /** `clear`: removes every entry. */
    method Clear()
      modifies this
      ensures entries == map[]
    {
      entries := map[];
    }

    /** `cleanup_expired`: collects the stale keys, then deletes them one by one. */
    method CleanupExpired(now: int)
      modifies this
      ensures entries == Sweep(old(entries), now)
    {
      var expiredKeys := set k | k in entries && Expired(entries[k], now);
      ghost var stale := expiredKeys;
      while expiredKeys != {}
        invariant expiredKeys <= stale
        invariant forall k :: k in entries <==> k in old(entries) && (k in stale ==> k in expiredKeys)
        invariant forall k :: k in entries ==> entries[k] == old(entries)[k]
        invariant forall k :: k in stale <==> k in old(entries) && Expired(old(entries)[k], now)
        decreases expiredKeys
      {
        var k :| k in expiredKeys;
        entries := entries - {k};
        expiredKeys := expiredKeys - {k};
      }
      assert entries.Keys == Sweep(old(entries), now).Keys;
    }
  }

  /** `set` then `get` with the same key at the same instant returns the stored value. */
  method SetThenGet(c: HoroscopeCache, sign: string, v: string, date: string, now: int)
    returns (r: Option<string>)
    requires c.ttl >= 0
    modifies c
    ensures r == Some(v)
    ensures c.entries == old(c.entries)[CacheKey(sign, date) := Entry(v, now + c.ttl)]
  {
    c.Set(sign, v, date, now);
    r := c.Get(sign, date, now);
  }

  /** Two `set`s on one key, then `get`: the second value wins. */
  method OverwriteThenGet(c: HoroscopeCache, sign: string, v1: string, v2: string, date: string, now: int)
    returns (r: Option<string>)
    requires c.ttl >= 0
    modifies c
    ensures r == Some(v2)
  {
    c.Set(sign, v1, date, now);
    c.Set(sign, v2, date, now);
    r := c.Get(sign, date, now);
  }

  /** A `get` exactly at the expiry instant still returns the value: the comparison is strict. */
  method GetAtExpiry(c: HoroscopeCache, sign: string, v: string, date: string, now: int)
    returns (r: Option<string>)
    modifies c
    ensures r == Some(v)
  {
    c.Set(sign, v, date, now);
    r := c.Get(sign, date, now + c.ttl);
  }

  /** A `get` after the time to live has elapsed returns `None` and evicts the entry. */
  method GetAfterExpiry(c: HoroscopeCache, sign: string, v: string, date: string, now: int, later: int)
    returns (r: Option<string>)
    requires later > now + c.ttl
    modifies c
    ensures r == None
    ensures c.entries == old(c.entries) - {CacheKey(sign, date)}
  {
    c.Set(sign, v, date, now);
    r := c.Get(sign, date, later);
  }
}
