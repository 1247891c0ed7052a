/** The shared cache of serialised polygon details, keyed by polygon id.

    Entries expire 24 hours after they are added; expiry and eviction are
    modelled only as the removal of an entry at an arbitrary moment. */
module Memcache {
  import opened Optional
  import Json

  type Cache = map<string, Json.Value>

  /** Seconds an entry lives after it is added: one day. */
  const MemcacheExpiration: nat := 60 * 60 * 24

  /** `memcache.get`: the stored value, or None when the key is absent. */
  function Get(cache: Cache, key: string): (r: Option<Json.Value>)
    ensures r.Some? <==> key in cache
    ensures r.Some? ==> r.value == cache[key]
  {
    if key in cache then Some(cache[key]) else None
  }

  /** `memcache.add`: stores the value only when the key is absent. An
      existing entry is never replaced, no other key changes, and
      afterwards the key is present. */
  function Add(cache: Cache, key: string, value: Json.Value): (cache': Cache)
    ensures cache'.Keys == cache.Keys + {key}
    ensures forall k :: k in cache ==> cache'[k] == cache[k]
    ensures key !in cache ==> cache'[key] == value
  {
    if key in cache then cache else cache[key := value]
  }

  /** An entry reaching its expiration time (or being evicted) disappears;
      nothing else changes. */
  function Expire(cache: Cache, key: string): (cache': Cache)
    ensures cache'.Keys == cache.Keys - {key}
    ensures forall k :: k in cache' ==> cache'[k] == cache[k]
  {
    cache - {key}
  }

  /** A second add of the same key is a no-op, whatever its value. */
  lemma AddFirstWins(cache: Cache, key: string, v: Json.Value, w: Json.Value)
    ensures Add(Add(cache, key, v), key, w) == Add(cache, key, v)
    ensures Get(Add(Add(cache, key, v), key, w), key) == Get(Add(cache, key, v), key)
  {
  }
}
