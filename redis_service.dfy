/** The key-value service backed by Redis (src/core/redis/redis.service.ts):
    values are stored as JSON text with an expiry time, read back parsed,
    deleted one key at a time, or flushed by key prefix.

    Time is an explicit parameter `now` in seconds. A key set with a
    lifetime of ttl seconds at time t is readable while now < t + ttl, as
    with Redis `SET key value EX ttl`. */
module Redis {
  import opened Wrappers
  import opened Text
  import opened Json

  /** A stored value: its JSON text and the time it expires. */
  datatype Entry = Entry(data: string, expiresAt: int)

  type Store = map<string, Entry>

  /** The key is present and has not expired. */
  predicate Live(store: Store, key: string, now: int) {
    key in store && now < store[key].expiresAt
  }

  /** What `get` returns: the parsed value of a live key, null for an
      absent or expired key (and for empty text, which is falsy). */
  function Lookup(store: Store, key: string, now: int): Option<Json>
  {
    if Live(store, key, now) && store[key].data != "" then Parse(store[key].data) else None
  }

  /** The store after `set`. */
  function Stored(store: Store, key: string, value: Json, ttl: nat, now: int): Store
  {
    store[key := Entry(Stringify(value), now + ttl)]
  }

  /** The store after `flushByPrefix`: every key that starts with the
      prefix removed. */
  function WithoutPrefix(store: Store, prefix: string): (r: Store)
    ensures forall k :: k in r <==> k in store && !StartsWith(k, prefix)
    ensures forall k :: k in r ==> r[k] == store[k]
  {
    map k | k in store && !StartsWith(k, prefix) :: store[k]
  }

  /** Every stored text is the JSON of some value, so `get` never meets
      text it cannot parse. */
  ghost predicate WellFormed(store: Store) {
    forall k :: k in store ==> Parse(store[k].data).Some?
  }

  // ---------------------------------------------------------------------------
  // Properties of the operations
  // ---------------------------------------------------------------------------

  /** After `set(k, v, ttl)`, `get(k)` returns v until the key expires. */
  lemma GetAfterSet(store: Store, key: string, value: Json, ttl: nat, setAt: int, now: int)
    requires setAt <= now < setAt + ttl
    ensures Lookup(Stored(store, key, value, ttl, setAt), key, now) == Some(value)
  {
    ParseStringify(value);
  }

  /** After the lifetime has passed, `get(k)` returns null. */
  lemma GetAfterExpiry(store: Store, key: string, value: Json, ttl: nat, setAt: int, now: int)
    requires now >= setAt + ttl
    ensures Lookup(Stored(store, key, value, ttl, setAt), key, now) == None
  {
  }

  /** `set` overwrites unconditionally and touches no other key. */
  lemma SetOverwrites(store: Store, key: string, v1: Json, v2: Json, t1: nat, t2: nat, n1: int, n2: int)
    ensures Stored(Stored(store, key, v1, t1, n1), key, v2, t2, n2) == Stored(store, key, v2, t2, n2)
  {
  }

  lemma SetKeepsOtherKeys(store: Store, key: string, value: Json, ttl: nat, setAt: int, other: string, now: int)
    requires other != key
    ensures Lookup(Stored(store, key, value, ttl, setAt), other, now) == Lookup(store, other, now)
  {
  }

  /** `delete` removes only its key, and is a no-op on an absent key. */
  lemma DeleteRemovesOnlyKey(store: Store, key: string)
    ensures key !in store - {key}
    ensures forall k :: k in store && k != key ==> k in store - {key} && (store - {key})[k] == store[k]
    ensures key !in store ==> store - {key} == store
  {
  }

  /** A flush with no matching key changes nothing. */
  lemma FlushWithoutMatchIsNoOp(store: Store, prefix: string)
    requires forall k :: k in store ==> !StartsWith(k, prefix)
    ensures WithoutPrefix(store, prefix) == store
  {
  }

  /** Flushing twice is flushing once. */
  lemma FlushIdempotent(store: Store, prefix: string)
    ensures WithoutPrefix(WithoutPrefix(store, prefix), prefix) == WithoutPrefix(store, prefix)
  {
  }

  /** After a flush, no key under the prefix is readable. */
  lemma FlushedKeyMisses(store: Store, prefix: string, key: string, now: int)
    requires StartsWith(key, prefix)
    ensures Lookup(WithoutPrefix(store, prefix), key, now) == None
  {
  }

  lemma StoredWellFormed(store: Store, key: string, value: Json, ttl: nat, now: int)
    requires WellFormed(store)
    ensures WellFormed(Stored(store, key, value, ttl, now))
  {
    ParseStringify(value);
  }

  // ---------------------------------------------------------------------------
  // The service
  // ---------------------------------------------------------------------------

  class RedisService {
    var store: Store

    ghost predicate Valid()
      reads this
    {
      WellFormed(store)
    }

    constructor ()
      ensures Valid() && store == map[]
    {
      store := map[];
    }

    /** `get(key)`: JSON.parse of the stored text, or null. */
    method Get(key: string, now: int) returns (r: Option<Json>)
      requires Valid()
      ensures r == Lookup(store, key, now)
      ensures r.Some? <==> Live(store, key, now) && store[key].data != ""
    {
      if key in store && now < store[key].expiresAt {
        var data := store[key].data;
        if data != "" {
          r := Parse(data);
        } else {
          r := None;
        }
      } else {
        r := None;
      }
    }

    /** `set(key, value, ttl)`: stores JSON.stringify(value) for ttl seconds,
        replacing whatever the key held. Redis refuses a lifetime of 0. */
    method Set(key: string, value: Json, ttl: nat, now: int)
      requires Valid() && ttl > 0
      modifies this
      ensures Valid()
      ensures store == Stored(old(store), key, value, ttl, now)
    {
      StoredWellFormed(store, key, value, ttl, now);
      store := store[key := Entry(Stringify(value), now + ttl)];
    }

    /** `delete(key)`. */
    method Delete(key: string)
      requires Valid()
      modifies this
      ensures Valid()
      ensures store == old(store) - {key}
    {
      store := store - {key};
    }

    /** `flushByPrefix(prefix)`: collects the keys matching `prefix*` and,
        when there are any, deletes them all. */
    method FlushByPrefix(prefix: string)
      requires Valid()
      modifies this
      ensures Valid()
      ensures store == WithoutPrefix(old(store), prefix)
    {
      var keys := set k | k in store && StartsWith(k, prefix);
      if |keys| > 0 {
        store := store - keys;
      } else {
        assert keys == {};
        forall k | k in store ensures !StartsWith(k, prefix) {
          assert k !in keys;
        }
        FlushWithoutMatchIsNoOp(store, prefix);
      }
    }
  }
}
