// The expiring keys of the execution service.  A key is live until its expiry time.
module RedisKeys {

  datatype Key =
    | JobLock(clientOrderId: string)
    | KillSwitch(accountId: string)
    | UserPause(accountId: string)
    | SymbolPause(accountId: string, symbol: string)
    | CircuitBreaker(accountId: string)
    | SymbolCooldown(accountId: string, symbol: string)

  type Keys = map<Key, int>

  predicate Live(keys: Keys, key: Key, now: int) {
    key in keys && now < keys[key]
  }

  class Redis {
    var keys: Keys

    constructor ()
      ensures keys == map[]
    {
      keys := map[];
    }

    // SET key NX EX ttl: takes the key only if it is not live.
    method SetIfAbsent(key: Key, ttl: int, now: int) returns (acquired: bool)
      modifies this
      ensures acquired <==> !Live(old(keys), key, now)
      ensures keys == if acquired then old(keys)[key := now + ttl] else old(keys)
    {
      acquired := !Live(keys, key, now);
      if acquired {
        keys := keys[key := now + ttl];
      }
    }

    method Set(key: Key, ttl: int, now: int)
      modifies this
      ensures keys == old(keys)[key := now + ttl]
    {
      keys := keys[key := now + ttl];
    }

    method Delete(key: Key)
      modifies this
      ensures keys == old(keys) - {key}
    {
      keys := keys - {key};
    }

    method Exists(key: Key, now: int) returns (live: bool)
      ensures live <==> Live(keys, key, now)
    {
      live := Live(keys, key, now);
    }
  }

  class CooldownControl {
    const redis: Redis

    constructor (redis: Redis)
      ensures this.redis == redis
    {
      this.redis := redis;
    }

    method IsOnCooldown(accountId: string, symbol: string, now: int) returns (cooling: bool)
      ensures cooling <==> Live(redis.keys, SymbolCooldown(accountId, symbol), now)
    {
      cooling := redis.Exists(SymbolCooldown(accountId, symbol), now);
    }

    // Starts or restarts the window: whatever expiry was there is replaced.
    method SetCooldown(accountId: string, symbol: string, seconds: int, now: int)
      modifies redis
      ensures redis.keys == old(redis.keys)[SymbolCooldown(accountId, symbol) := now + seconds]
    {
      redis.Set(SymbolCooldown(accountId, symbol), seconds, now);
    }

    // Ends the window at once; no other key is touched.
    method ClearCooldown(accountId: string, symbol: string)
      modifies redis
      ensures redis.keys == old(redis.keys) - {SymbolCooldown(accountId, symbol)}
    {
      redis.Delete(SymbolCooldown(accountId, symbol));
    }
  }
}
