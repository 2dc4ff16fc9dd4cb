// backend/internal/cache/redis.go: a key/value cache that is either backed by a
// live store or, when disabled or unreachable at start-up, has no client and
// behaves as an always-empty cache. The live store is an abstract map; a refusal
// by the store is a `fail` parameter, and expiry is not modelled (each entry
// keeps the TTL it was written with).
module RedisCache {
  import opened Wrappers
  import StockModels

  /** The values the services cache, one variant per destination type. */
  datatype Cached =
    | AllStocks(stocks: seq<StockModels.EnhancedStock>)
    | Quote(stock: StockModels.EnhancedStock)
    | Details(details: StockModels.DetailedStock)

  datatype Entry = Entry(value: Cached, ttl: int)

  const NotAvailable: string := "cache miss: Redis not available"
  const KeyNotFound: string := "cache miss: key not found"
  const StoreFailed: string := "failed to get from cache: "
  /** What the TTL command reports for a key that does not exist. */
  const NoSuchKeyTTL: int := -2

  /**
   * A Redis glob pattern restricted to `*` (any run of characters) and `?` (one
   * character); every other character stands for itself.
   */
  predicate Glob(pattern: string, key: string)
    decreases |pattern| + |key|
  {
    if pattern == [] then key == []
    else if pattern[0] == '*' then Glob(pattern[1..], key) || (key != [] && Glob(pattern, key[1..]))
    else key != [] && (pattern[0] == '?' || pattern[0] == key[0]) && Glob(pattern[1..], key[1..])
  }

  predicate Literal(s: string) { '*' !in s && '?' !in s }

  /** A trailing `*` after a literal prefix matches exactly the keys starting with that prefix. */
  lemma {:induction false} PrefixGlob(prefix: string, key: string)
    requires Literal(prefix)
    ensures Glob(prefix + "*", key) <==> prefix <= key
    decreases |prefix|
  {
    if prefix == [] {
      assert prefix + "*" == "*";
      StarMatchesAll(key);
    } else {
      assert (prefix + "*")[1..] == prefix[1..] + "*";
      if key != [] && prefix[0] == key[0] {
        PrefixGlob(prefix[1..], key[1..]);
      }
    }
  }

  lemma {:induction false} StarMatchesAll(key: string)
    ensures Glob("*", key)
    decreases |key|
  {
    if key != [] {
      StarMatchesAll(key[1..]);
    }
  }

  /** The store without the keys matching pattern. */
  function Without(store: map<string, Entry>, pattern: string): (r: map<string, Entry>)
    ensures forall k :: k in r <==> k in store && !Glob(pattern, k)
    ensures forall k :: k in r ==> r[k] == store[k]
  {
    map k | k in store && !Glob(pattern, k) :: store[k]
  }

  class Cache {
    /** Whether a client is attached; never changes after construction. */
    const connected: bool
    var store: map<string, Entry>

    /** NewRedisCache: no client when caching is disabled or the first ping fails; never an error. */
    constructor(enabled: bool, pingOk: bool)
      ensures connected <==> enabled && pingOk
      ensures store == map[]
    {
      connected := enabled && pingOk;
      store := map[];
    }

    method Set(key: string, value: Cached, ttl: int, fail: bool) returns (err: Outcome<string>)
      modifies this
      ensures err.Fail? <==> connected && fail
      ensures store == if connected && !fail then old(store)[key := Entry(value, ttl)] else old(store)
    {
      if !connected {
        return Pass;
      }
      if fail {
        return Fail("redis: set refused");
      }
      store := store[key := Entry(value, ttl)];
      err := Pass;
    }

    /** A hit returns the stored value; a disabled cache always misses, a missing key is "key not found". */
    method Get(key: string, fail: bool) returns (r: Result<Cached, string>)
      ensures r.Success? <==> connected && !fail && key in store
      ensures r.Success? ==> r.value == store[key].value
      ensures !connected ==> r == Failure(NotAvailable)
      ensures connected && !fail && key !in store ==> r == Failure(KeyNotFound)
      ensures connected && fail ==> r.Failure? && r.error != KeyNotFound
    {
      if !connected {
        return Failure(NotAvailable);
      }
      if fail {
        return Failure(StoreFailed + "redis: get refused");
      }
      if key !in store {
        return Failure(KeyNotFound);
      }
      r := Success(store[key].value);
    }

    method Delete(key: string, fail: bool) returns (err: Outcome<string>)
      modifies this
      ensures err.Fail? <==> connected && fail
      ensures store == if connected && !fail then old(store) - {key} else old(store)
    {
      if !connected {
        return Pass;
      }
      if fail {
        return Fail("redis: del refused");
      }
      store := store - {key};
      err := Pass;
    }

    /** Removes every key matching pattern, and nothing else; no match leaves the store as it was. */
    method DeletePattern(pattern: string, fail: bool) returns (err: Outcome<string>)
      modifies this
      ensures err.Fail? <==> connected && fail
      ensures store == if connected && !fail then Without(old(store), pattern) else old(store)
    {
      if !connected {
        return Pass;
      }
      if fail {
        return Fail("redis: keys refused");
      }
      store := Without(store, pattern);
      err := Pass;
    }

    /** A failed query counts as absent. */
    method Exists(key: string, fail: bool) returns (b: bool)
      ensures b <==> connected && !fail && key in store
    {
      b := connected && !fail && key in store;
    }

    method SetTTL(key: string, ttl: int, fail: bool) returns (err: Outcome<string>)
      modifies this
      ensures err.Fail? <==> connected && fail
      ensures store.Keys == old(store).Keys
      ensures store == if connected && !fail && key in old(store)
                       then old(store)[key := old(store)[key].(ttl := ttl)] else old(store)
    {
      if !connected {
        return Pass;
      }
      if fail {
        return Fail("redis: expire refused");
      }
      if key in store {
        store := store[key := store[key].(ttl := ttl)];
      }
      err := Pass;
    }

    method GetTTL(key: string, fail: bool) returns (r: Result<int, string>)
      ensures r.Success? <==> connected && !fail
      ensures !connected ==> r == Failure("Redis not available")
      ensures r.Success? ==> r.value == if key in store then store[key].ttl else NoSuchKeyTTL
    {
      if !connected {
        return Failure("Redis not available");
      }
      if fail {
        return Failure("redis: ttl refused");
      }
      r := Success(if key in store then store[key].ttl else NoSuchKeyTTL);
    }
  }

  /** A cache built without a client stays empty whatever is written to it. */
  method DisabledStaysEmpty(key: string, value: Cached, ttl: int, fail: bool) returns (r: Result<Cached, string>)
    ensures r == Failure(NotAvailable)
  {
    var c := new Cache(false, true);
    var _ := c.Set(key, value, ttl, fail);
    r := c.Get(key, fail);
  }
}
