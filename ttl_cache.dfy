/**
 * The three caches of the places router share one rule: an entry is a
 * value with the time it was stored, and it is served only while it is
 * younger than `CACHE_TTL` (24 hours in milliseconds). Expiry is lazy;
 * `set` overwrites; nothing is ever deleted.
 */
module TtlCache {
  import opened Wrappers

  /** 24 hours, in milliseconds. */
  const CACHE_TTL: nat := 24 * 60 * 60 * 1000

  datatype Entry<V> = Entry(value: V, timestamp: nat)

  /** `cached && now - cached.timestamp < CACHE_TTL` (strict). */
  predicate Live<V>(e: Entry<V>, now: nat) {
    now - e.timestamp < CACHE_TTL
  }

  /** A cache read at time `now`: the stored value when it is still live, otherwise nothing. */
  function Lookup<V>(cache: map<string, Entry<V>>, key: string, now: nat): Option<V> {
    if key in cache && Live(cache[key], now) then Some(cache[key].value) else None
  }

  /** `cache.set(key, {value, timestamp})`. */
  function Store<V>(cache: map<string, Entry<V>>, key: string, value: V, timestamp: nat): (c: map<string, Entry<V>>)
    ensures key in c && c[key] == Entry(value, timestamp)
    ensures forall k :: k != key ==> (k in c <==> k in cache)
    ensures forall k :: k != key && k in cache ==> c[k] == cache[k]
  {
    cache[key := Entry(value, timestamp)]
  }

  /** A stored value is served at every time from its timestamp until just before the TTL has elapsed. */
  lemma ServedWhileYoung<V>(cache: map<string, Entry<V>>, key: string, value: V, t: nat, now: nat)
    requires t <= now < t + CACHE_TTL
    ensures Lookup(Store(cache, key, value, t), key, now) == Some(value)
  {
  }

  /** An entry aged exactly `CACHE_TTL`, or older, is a miss. */
  lemma MissFromTtlOn<V>(cache: map<string, Entry<V>>, key: string, value: V, t: nat, now: nat)
    requires now >= t + CACHE_TTL
    ensures Lookup(Store(cache, key, value, t), key, now) == None
  {
  }

  /** Once an entry has expired it stays expired until it is overwritten. */
  lemma ExpiryIsPermanent<V>(cache: map<string, Entry<V>>, key: string, now: nat, later: nat)
    requires key in cache && now <= later
    requires Lookup(cache, key, now) == None
    ensures Lookup(cache, key, later) == None
  {
  }

  /** Storing under one key does not change what any other key reads. */
  lemma StoreIsolated<V>(cache: map<string, Entry<V>>, key: string, value: V, t: nat, other: string, now: nat)
    requires other != key
    ensures Lookup(Store(cache, key, value, t), other, now) == Lookup(cache, other, now)
  {
  }
}
