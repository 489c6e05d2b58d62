/** The in-memory cache of github.com/patrickmn/go-cache as the connection layer
    uses it: `New(defaultExpiration, cleanupInterval)`, `Get(key)` and
    `Add(key, value, DefaultExpiration)`. Clock readings are nanoseconds. */
module TtlCache {
  import opened Base

  /** A stored value and the instant it expires at; `None` never expires. */
  datatype Item<V> = Item(value: V, expiry: Option<int>)

  /** `ttl` is the default expiration; zero or less means entries never expire.
      `cleanup` is the janitor's interval, kept only as configuration. */
  datatype Cache<V> = Cache(items: map<string, Item<V>>, ttl: int, cleanup: int)

  /** cache.New: no entries. */
  function New<V>(ttl: int, cleanup: int): (c: Cache<V>)
    ensures forall key, now :: Get(c, key, now) == None
    ensures c.ttl == ttl && c.cleanup == cleanup
  {
    Cache(map[], ttl, cleanup)
  }

  /** An item is gone once the clock is strictly past its expiry. */
  predicate Expired<V>(item: Item<V>, now: int)
  {
    item.expiry.Some? && now > item.expiry.value
  }

  /** Cache.Get: the value under `key` unless it is missing or expired. */
  function Get<V>(c: Cache<V>, key: string, now: int): Option<V>
  {
    if key in c.items && !Expired(c.items[key], now) then Some(c.items[key].value) else None
  }

  /** The expiry an entry added at `now` with the default expiration receives. */
  function ExpiryFrom(ttl: int, now: int): Option<int>
  {
    if ttl > 0 then Some(now + ttl) else None
  }

  /** Cache.Add: stores the value unless a live entry is already there, in which
      case it reports an error that every caller here ignores, and the cache
      stays as it was. */
  function Add<V>(c: Cache<V>, key: string, value: V, now: int): (r: Cache<V>)
    ensures r.ttl == c.ttl && r.cleanup == c.cleanup
  {
    if Get(c, key, now).Some? then c
    else c.(items := c.items[key := Item(value, ExpiryFrom(c.ttl, now))])
  }

  /** An entry added on a miss is what a later Get returns, until its expiry. */
  lemma AddThenGet<V>(c: Cache<V>, key: string, value: V, now: int, later: int)
    requires Get(c, key, now) == None
    requires now <= later && (c.ttl > 0 ==> later <= now + c.ttl)
    ensures Get(Add(c, key, value, now), key, later) == Some(value)
  {
  }

  /** With a positive default expiration the entry is gone once that time has passed. */
  lemma AddThenExpire<V>(c: Cache<V>, key: string, value: V, now: int, later: int)
    requires Get(c, key, now) == None
    requires c.ttl > 0 && later > now + c.ttl
    ensures Get(Add(c, key, value, now), key, later) == None
  {
  }

  /** Adding under one key leaves every other key as it was, at every instant. */
  lemma AddOtherKey<V>(c: Cache<V>, key: string, value: V, now: int, other: string, t: int)
    requires other != key
    ensures Get(Add(c, key, value, now), other, t) == Get(c, other, t)
  {
  }

  /** Adding over a live entry changes nothing. */
  lemma AddKeepsLive<V>(c: Cache<V>, key: string, value: V, now: int)
    requires Get(c, key, now).Some?
    ensures Add(c, key, value, now) == c
  {
  }

  /** A hit stays a hit at any earlier instant, and a miss stays a miss later on:
      time only ever removes entries. */
  lemma GetMonotone<V>(c: Cache<V>, key: string, t1: int, t2: int)
    requires t1 <= t2 && Get(c, key, t2).Some?
    ensures Get(c, key, t1) == Get(c, key, t2)
  {
  }
}
