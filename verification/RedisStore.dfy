/**
 The Redis server: a store apart from the database whose keys expire, and may be lost at any moment.
 The prefixes of the key templates keep the kinds of keys apart.
 */
module RedisStore {
  import opened Schema

  datatype RedisKey =
    | SentinelKey(tenant: TenantId, key: Key)
    | LockKey(tenant: TenantId, cart: CartId)
    | CartReadKey(tenant: TenantId, user: UserId)
    | ThrottleKey(scope: string, caller: string)

  /** What the services store: the sentinel's mark, a lock token, a serialised cart, a counter. */
  datatype RedisValue = Mark | Token(token: string) | Payload(cart: Cart) | Corrupt | Count(count: nat)

  datatype Entry = Entry(value: RedisValue, expires: int)

  type Store = map<RedisKey, Entry>

  /** What GET returns at a moment: an expired key is absent. */
  function Live(store: Store, key: RedisKey, now: int): Option<RedisValue>
  {
    if key in store && now < store[key].expires then Some(store[key].value) else None
  }

  /** The value of a counter: an absent or expired key counts from zero. */
  function CountAt(store: Store, key: RedisKey, now: int): nat
  {
    if Live(store, key, now).Some? && store[key].value.Count? then store[key].value.count else 0
  }

  function ExpiryAt(store: Store, key: RedisKey, now: int, ttl: int): int
  {
    if Live(store, key, now).Some? then store[key].expires else now + ttl
  }

  class Redis {
    var store: Store

    constructor ()
      ensures store == map[]
    {
      store := map[];
    }

    method Get(key: RedisKey, now: int) returns (r: Option<RedisValue>)
      ensures r == Live(store, key, now)
    {
      r := Live(store, key, now);
    }

    method Set(key: RedisKey, value: RedisValue, now: int, ttl: int)
      modifies this
      ensures store == old(store)[key := Entry(value, now + ttl)]
    {
      store := store[key := Entry(value, now + ttl)];
    }

    /** SET NX with a time to live. */
    method SetNx(key: RedisKey, value: RedisValue, now: int, ttl: int) returns (stored: bool)
      modifies this
      ensures stored <==> old(Live(store, key, now)).None?
      ensures store == if stored then old(store)[key := Entry(value, now + ttl)] else old(store)
    {
      stored := Live(store, key, now).None?;
      if stored {
        store := store[key := Entry(value, now + ttl)];
      }
    }

    /** INCR then EXPIRE NX in one pipeline: the counter's expiry is set by the increment that creates it. */
    method IncrementExpiring(key: RedisKey, now: int, ttl: int) returns (count: nat)
      modifies this
      ensures count == CountAt(old(store), key, now) + 1
      ensures store == old(store)[key := Entry(Count(count), ExpiryAt(old(store), key, now, ttl))]
    {
      count := CountAt(store, key, now) + 1;
      store := store[key := Entry(Count(count), ExpiryAt(store, key, now, ttl))];
    }

    method Delete(key: RedisKey)
      modifies this
      ensures store == old(store) - {key}
    {
      store := store - {key};
    }

    /** The release script: delete the key if it holds this token. */
    method CompareAndDelete(key: RedisKey, value: RedisValue, now: int) returns (deleted: bool)
      modifies this
      ensures deleted <==> old(Live(store, key, now)) == Some(value)
      ensures store == if deleted then old(store) - {key} else old(store)
    {
      deleted := Live(store, key, now) == Some(value);
      if deleted {
        store := store - {key};
      }
    }
  }

  /** What is set can be read until its time to live is over and not after; other keys are not affected. */
  lemma SetIsReadBack(store: Store, key: RedisKey, value: RedisValue, now: int, ttl: int, other: RedisKey, later: int)
    ensures var after := store[key := Entry(value, now + ttl)];
            && (Live(after, key, later) == if later < now + ttl then Some(value) else None)
            && (other != key ==> Live(after, other, later) == Live(store, other, later))
            && Live(after - {key}, key, later) == None
            && (other != key ==> Live(after - {key}, other, later) == Live(store, other, later))
  {
  }

  /** The store after one more increment of a counter. */
  function Incremented(store: Store, key: RedisKey, now: int, ttl: int): Store
  {
    store[key := Entry(Count(CountAt(store, key, now) + 1), ExpiryAt(store, key, now, ttl))]
  }

  /** Increments add up until the end that the first one fixed, and start again at one after it. */
  lemma IncrementsAddUp(store: Store, key: RedisKey, now: int, ttl: int, later: int, count: nat)
    requires Live(store, key, now) == None || Live(store, key, now) == Some(Count(count))
    ensures var first := Incremented(store, key, now, ttl);
            var second := Incremented(first, key, later, ttl);
            && (Live(store, key, now) == None ==> first[key] == Entry(Count(1), now + ttl))
            && (Live(store, key, now) != None ==> first[key] == Entry(Count(count + 1), store[key].expires))
            && first[key].value.Count?
            && second[key] == (if later < first[key].expires then Entry(Count(first[key].value.count + 1), first[key].expires)
                               else Entry(Count(1), later + ttl))
  {
  }
}
