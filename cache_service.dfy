// backend/internal/services/cache_service.go: invalidation, a small report on
// which well-known keys are cached, and warming the cache up.
module CacheService {
  import opened Wrappers
  import opened RedisCache
  import opened StockService
  import opened Config
  import Text

  const StockPatterns: seq<string> := ["stocks:*", "stock:*"]

  /**
   * InvalidateStockCache: deletes by "stocks:*" then "stock:*", and stops at the
   * first refusal (failing names the patterns the store refuses).
   */
  method InvalidateStockCache(cache: Cache, failing: set<string>) returns (err: Outcome<string>)
    modifies cache
    ensures err.Fail? <==> cache.connected && ("stocks:*" in failing || "stock:*" in failing)
    ensures !cache.connected || "stocks:*" in failing ==> cache.store == old(cache.store)
    ensures cache.connected && "stocks:*" !in failing && "stock:*" in failing ==>
      cache.store == Without(old(cache.store), "stocks:*")
    ensures err.Pass? && cache.connected ==> cache.store == Without(Without(old(cache.store), "stocks:*"), "stock:*")
  {
    var i := 0;
    while i < |StockPatterns|
      invariant 0 <= i <= |StockPatterns|
      invariant !cache.connected ==> cache.store == old(cache.store)
      invariant cache.connected ==> (i == 0 ==> cache.store == old(cache.store))
      invariant cache.connected && i >= 1 ==> "stocks:*" !in failing
      invariant cache.connected && i == 1 ==> cache.store == Without(old(cache.store), "stocks:*")
      invariant cache.connected && i == 2 ==> "stock:*" !in failing
      invariant cache.connected && i == 2 ==> cache.store == Without(Without(old(cache.store), "stocks:*"), "stock:*")
    {
      var e := cache.DeletePattern(StockPatterns[i], StockPatterns[i] in failing);
      if e.Fail? {
        return e;
      }
      i := i + 1;
    }
    err := Pass;
  }

  /** After a full invalidation no key starting with "stock" and then ":" or "s:" remains. */
  lemma InvalidationClearsStockKeys(store: map<string, Entry>, key: string)
    requires key in Without(Without(store, "stocks:*"), "stock:*")
    ensures !("stocks:" <= key) && !("stock:" <= key)
  {
    assert "stocks:" + "*" == "stocks:*" && "stock:" + "*" == "stock:*";
    PrefixGlob("stocks:", key);
    PrefixGlob("stock:", key);
  }

  /** "stock:*" alone would leave the list entry: its sixth character is 's', not ':'. */
  lemma ListNeedsItsOwnPattern()
    ensures !Glob("stock:*", AllStocksKey)
  {
    assert "stock:" + "*" == "stock:*";
    PrefixGlob("stock:", AllStocksKey);
  }

  /**
   * InvalidateStockSymbol: deletes the live and details keys of symbol, as
   * given, and the list key; a refusal is only logged and the result is always nil.
   */
  method InvalidateStockSymbol(cache: Cache, symbol: string, failing: set<string>) returns (err: Outcome<string>)
    modifies cache
    ensures err == Pass
    ensures cache.store == if cache.connected
                           then old(cache.store) - ({LiveKey(symbol), DetailsKey(symbol), AllStocksKey} - failing)
                           else old(cache.store)
  {
    var keys := [LiveKey(symbol), DetailsKey(symbol)];
    ghost var removed: set<string> := {};
    var i := 0;
    while i < |keys|
      invariant 0 <= i <= |keys|
      invariant removed == set k | k in keys[..i] && k !in failing
      invariant cache.store == if cache.connected then old(cache.store) - removed else old(cache.store)
    {
      var _ := cache.Delete(keys[i], keys[i] in failing);
      removed := removed + if keys[i] in failing then {} else {keys[i]};
      i := i + 1;
    }
    assert keys[..i] == keys;
    assert removed == {LiveKey(symbol), DetailsKey(symbol)} - failing;
    var _ := cache.Delete(AllStocksKey, AllStocksKey in failing);
    err := Pass;
  }

  /**
   * The symbol is not upper-cased, while GetStock caches under the upper-cased
   * symbol: invalidating a symbol written with a lower-case letter leaves GetStock's
   * entry in place.
   */
  lemma LowercaseInvalidationMisses(store: map<string, Entry>, symbol: string, failing: set<string>)
    requires Text.HasLowercaseLetter(symbol)
    requires LiveKey(Text.ToUpper(symbol)) in store
    ensures LiveKey(Text.ToUpper(symbol)) in store - ({LiveKey(symbol), DetailsKey(symbol), AllStocksKey} - failing)
  {
    Text.UpperHasNoLowercase(symbol);
    var upper := LiveKey(Text.ToUpper(symbol));
    assert upper != LiveKey(symbol) by {
      assert upper[11..] == Text.ToUpper(symbol);
      assert LiveKey(symbol)[11..] == symbol;
      assert Text.ToUpper(symbol) != symbol;
    }
    assert upper != DetailsKey(symbol) by {
      assert upper[6] == 'l' && DetailsKey(symbol)[6] == 'd';
    }
    assert upper != AllStocksKey by {
      assert upper[5] == ':' && AllStocksKey[5] == 's';
    }
  }

  const CheckedKeys: seq<string> := ["stocks:all", "stock:live:MTN", "stock:live:ACCESS", "stock:live:GCB"]

  /** The report: a TTL per cached key checked, the number cached, and the number checked. */
  datatype CacheStats = CacheStats(ttls: map<string, int>, cachedKeys: int, totalChecked: int, timestamp: int)

  /** How many of the first n checked keys the store holds. */
  function CountCached(store: map<string, Entry>, n: nat): (c: nat)
    requires n <= |CheckedKeys|
    ensures c <= n
  {
    if n == 0 then 0 else CountCached(store, n - 1) + (if CheckedKeys[n - 1] in store then 1 else 0)
  }

  /**
   * GetCacheStats: checks the four well-known keys. A key counts when Exists says
   * so, and its TTL is reported when the TTL query succeeds. It changes nothing.
   */
  method GetCacheStats(cache: Cache, existsFails: bool, ttlFails: bool, now: int) returns (stats: CacheStats)
    ensures stats.totalChecked == 4
    ensures 0 <= stats.cachedKeys <= 4
    ensures stats.cachedKeys == if cache.connected && !existsFails then CountCached(cache.store, 4) else 0
    ensures forall k :: k in stats.ttls <==>
      exists i :: 0 <= i < 4 && k == CheckedKeys[i] + "_ttl" && cache.connected && !existsFails && !ttlFails
                  && CheckedKeys[i] in cache.store
    ensures stats.timestamp == now
  {
    var ttls: map<string, int> := map[];
    var existing := 0;
    var i := 0;
    while i < |CheckedKeys|
      invariant 0 <= i <= |CheckedKeys|
      invariant existing == if cache.connected && !existsFails then CountCached(cache.store, i) else 0
      invariant forall k :: k in ttls <==>
        exists j :: 0 <= j < i && k == CheckedKeys[j] + "_ttl" && cache.connected && !existsFails && !ttlFails
                    && CheckedKeys[j] in cache.store
    {
      var key := CheckedKeys[i];
      var present := cache.Exists(key, existsFails);
      if present {
        existing := existing + 1;
        var ttl := cache.GetTTL(key, ttlFails);
        if ttl.Success? {
          ttls := ttls[key + "_ttl" := ttl.value];
        }
      }
      i := i + 1;
    }
    stats := CacheStats(ttls, existing, |CheckedKeys|, now);
  }

  const PopularStocks: seq<string> := ["MTN", "ACCESS", "GCB", "TOTAL", "GOIL"]

  /** Every key a connected cache held before is still held: GetAll/GetStock/GetStockDetails only write. */
  predicate Grows(before: map<string, Entry>, after: map<string, Entry>) { before.Keys <= after.Keys }

  /**
   * WarmupCache: the list, then quote and details of five popular symbols; every
   * failure is only logged and the result is always nil. With a working store the
   * list, the three mock-backed quotes and MTN's details end up cached, whatever
   * the network does.
   */
  method WarmupCache(cache: Cache, cfg: ExternalConfig, ttl: int, net: Net, now: int, getFails: bool, setFails: bool)
    returns (err: Outcome<string>)
    modifies cache
    ensures err == Pass
    ensures Grows(old(cache.store), cache.store)
    ensures cache.connected && !setFails ==>
      && "stocks:all" in cache.store && "stock:details:MTN" in cache.store
      && "stock:live:MTN" in cache.store && "stock:live:ACCESS" in cache.store && "stock:live:GCB" in cache.store
  {
    var _, _ := GetAllStocks(cache, cfg, ttl, net, now, getFails, setFails);
    var i := 0;
    while i < |PopularStocks|
      invariant 0 <= i <= |PopularStocks|
      invariant Grows(old(cache.store), cache.store)
      invariant cache.connected && !setFails ==> AllStocksKey in cache.store
      invariant cache.connected && !setFails ==>
        forall j :: 0 <= j < i && j < 3 ==> LiveKey(PopularStocks[j]) in cache.store
      invariant cache.connected && !setFails && i >= 1 ==> DetailsKey("MTN") in cache.store
    {
      WarmSymbol(cache, cfg, ttl, net, now, i, getFails, setFails);
      i := i + 1;
    }
    assert LiveKey(PopularStocks[0]) == "stock:live:MTN";
    assert LiveKey(PopularStocks[1]) == "stock:live:ACCESS";
    assert LiveKey(PopularStocks[2]) == "stock:live:GCB";
    assert AllStocksKey == "stocks:all" && DetailsKey("MTN") == "stock:details:MTN";
    err := Pass;
  }

  /** One popular symbol: its quote, then its details; the first three always end up cached, MTN's details too. */
  method WarmSymbol(cache: Cache, cfg: ExternalConfig, ttl: int, net: Net, now: int, i: int, getFails: bool, setFails: bool)
    requires 0 <= i < |PopularStocks|
    modifies cache
    ensures Grows(old(cache.store), cache.store)
    ensures cache.connected && !setFails && i < 3 ==> LiveKey(PopularStocks[i]) in cache.store
    ensures cache.connected && !setFails && i == 0 ==> DetailsKey("MTN") in cache.store
  {
    var symbol := PopularStocks[i];
    UpperOfPopular(i);
    if i < 3 {
      MockCoversGetStock(now, symbol);
    }
    var _, _ := GetStock(cache, cfg, ttl, net, now, symbol, getFails, setFails);
    var _, _ := GetStockDetails(cache, cfg, ttl, net, now, symbol, getFails, setFails);
  }

  /** The popular symbols are upper case already. */
  lemma UpperOfPopular(i: int)
    requires 0 <= i < |PopularStocks|
    ensures Text.ToUpper(PopularStocks[i]) == PopularStocks[i]
  {
    var s := PopularStocks[i];
    assert forall k :: 0 <= k < |s| ==> 'A' <= s[k] <= 'Z';
  }

  /** After a warm-up through a working store, the report finds all four keys it checks. */
  method StatsAfterWarmup(cache: Cache, cfg: ExternalConfig, ttl: int, net: Net, now: int)
    returns (stats: CacheStats)
    requires cache.connected
    modifies cache
    ensures stats.cachedKeys == stats.totalChecked == 4
  {
    var _ := WarmupCache(cache, cfg, ttl, net, now, false, false);
    stats := GetCacheStats(cache, false, false, now);
    AllCheckedCached(cache.store);
  }

  /** A store holding the four checked keys counts all four. */
  lemma AllCheckedCached(store: map<string, Entry>)
    requires forall k :: k in ["stocks:all", "stock:live:MTN", "stock:live:ACCESS", "stock:live:GCB", "stock:details:MTN"] ==>
      k in store
    ensures CountCached(store, 4) == 4
  {
    assert "stocks:all" in store && "stock:live:MTN" in store && "stock:live:ACCESS" in store && "stock:live:GCB" in store;
    assert CountCached(store, 1) == 1;
    assert CountCached(store, 2) == 2;
    assert CountCached(store, 3) == 3;
  }
}
