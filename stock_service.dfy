// backend/internal/services/stock_service.go: quotes served through the cache,
// with a fallback chain on a miss: the exchange feed directly, then through a
// CORS proxy, then built-in mock data. The network is a function from URL to
// the outcome of one GET; `now` stands for time.Now().
module StockService {
  import opened Wrappers
  import opened StockModels
  import opened RedisCache
  import opened Config
  import Text

  /** The payload of a response, as far as JSON decoding is concerned. */
  datatype Body =
    | LiveList(stocks: seq<StockLive>)
    | LiveOne(stock: StockLive)
    | Equity(equity: StockEquity)
    | Unparsable

  datatype Response = Response(status: int, body: Body)

  /** One GET: either a transport error or a completed exchange with some status. */
  datatype HttpOutcome = TransportError(msg: string) | Completed(resp: Response)

  type Net = string -> HttpOutcome

  const Minute: int := 60

  predicate Ok(o: HttpOutcome) { o.Completed? && o.resp.status == 200 }

  function DirectUrl(cfg: ExternalConfig, endpoint: string): string { cfg.gseBaseUrl + endpoint }

  function ProxyUrl(cfg: ExternalConfig, endpoint: string): string { cfg.proxyUrl + cfg.gseBaseUrl + endpoint }

  /** What fetchWithProxy hands back: a response, an error, or neither. */
  datatype Fetched = Got(resp: Response) | Err(msg: string) | NilNil

  /**
   * fetchWithProxy as written: the direct answer if it is a 200, else the proxy's
   * if that is a 200; otherwise nil with the proxy's error, which is nil when
   * the proxy did answer, with some other status.
   */
  function FetchWithProxy(cfg: ExternalConfig, net: Net, endpoint: string): (r: Fetched)
    ensures r.Got? <==> Ok(net(DirectUrl(cfg, endpoint))) || Ok(net(ProxyUrl(cfg, endpoint)))
    ensures r.Got? ==> r.resp.status == 200
    ensures Ok(net(DirectUrl(cfg, endpoint))) ==> r == Got(net(DirectUrl(cfg, endpoint)).resp)
    ensures r.NilNil? <==>
      !Ok(net(DirectUrl(cfg, endpoint))) && net(ProxyUrl(cfg, endpoint)).Completed? && !Ok(net(ProxyUrl(cfg, endpoint)))
  {
    var direct := net(DirectUrl(cfg, endpoint));
    if Ok(direct) then Got(direct.resp)
    else
      var proxied := net(ProxyUrl(cfg, endpoint));
      if Ok(proxied) then Got(proxied.resp)
      else if proxied.TransportError? then Err(proxied.msg)
      else NilNil
  }

  /** The URLs fetchWithProxy requests: the proxy is tried only after a direct failure. */
  function Requests(cfg: ExternalConfig, net: Net, endpoint: string): (r: seq<string>)
    ensures 1 <= |r| <= 2 && r[0] == DirectUrl(cfg, endpoint)
    ensures |r| == 1 <==> Ok(net(DirectUrl(cfg, endpoint)))
  {
    if Ok(net(DirectUrl(cfg, endpoint))) then [DirectUrl(cfg, endpoint)]
    else [DirectUrl(cfg, endpoint), ProxyUrl(cfg, endpoint)]
  }

  /** What GetAllStocks, GetStock and GetStockDetails do with the pair as written. */
  datatype CallerStep = FallBack | Dereference | Decode(resp: Response)

  /** They test only the error; a nil response with no error is dereferenced. */
  function CallerStepAsWritten(f: Fetched): (s: CallerStep)
    ensures s.Dereference? <==> f.NilNil?
  {
    match f
    case Err(_) => FallBack
    case NilNil => Dereference
    case Got(resp) => Decode(resp)
  }

  /** Both attempts answering 503 makes fetchWithProxy return nil, nil, and the caller dereference nil. */
  lemma BothUnavailableDereferencesNil(cfg: ExternalConfig)
    ensures var net: Net := (u: string) => Completed(Response(503, Unparsable));
      && FetchWithProxy(cfg, net, "/live") == NilNil
      && CallerStepAsWritten(FetchWithProxy(cfg, net, "/live")).Dereference?
  {
  }

  const BothFailed: string := "GSE API unavailable directly and through the proxy"

  /** fetchWithProxy corrected: a response that is not a 200 from both sides is an error. */
  function FetchWithProxyFixed(cfg: ExternalConfig, net: Net, endpoint: string): (r: Result<Response, string>)
    ensures r.Success? <==> FetchWithProxy(cfg, net, endpoint).Got?
    ensures r.Success? ==> r.value == FetchWithProxy(cfg, net, endpoint).resp && r.value.status == 200
  {
    match FetchWithProxy(cfg, net, endpoint)
    case Got(resp) => Success(resp)
    case Err(msg) => Failure(msg)
    case NilNil => Failure(BothFailed)
  }

  /** With the correction, neither attempt answering 200 always leads to the fallback. */
  lemma FixedFallsBack(cfg: ExternalConfig, net: Net, endpoint: string)
    requires !Ok(net(DirectUrl(cfg, endpoint))) && !Ok(net(ProxyUrl(cfg, endpoint)))
    ensures FetchWithProxyFixed(cfg, net, endpoint).Failure?
  {
  }

  // ---- conversion ----

  /** Day-on-day change in percent, 0 unless both the price and the previous close are positive. */
  function ChangePercent(price: real, change: real): real
  {
    if price > 0.0 && price - change > 0.0 then change / (price - change) * 100.0 else 0.0
  }

  /** The percentage has the sign of the change, and is 0 when it is not computed. */
  lemma ChangePercentSign(price: real, change: real)
    ensures price > 0.0 && price - change > 0.0 ==>
      (ChangePercent(price, change) > 0.0 <==> change > 0.0) && (ChangePercent(price, change) < 0.0 <==> change < 0.0)
    ensures !(price > 0.0 && price - change > 0.0) ==> ChangePercent(price, change) == 0.0
  {
    if price > 0.0 && price - change > 0.0 {
      var p := price - change;
      assert change / p * 100.0 == change * (100.0 / p);
    }
  }

  /** convertToEnhancedStock: the feed's name is both symbol and name; previous close is price minus change. */
  function ConvertToEnhancedStock(stock: StockLive, now: int): (r: EnhancedStock)
    ensures r.symbol == stock.name && r.name == stock.name
    ensures r.currentPrice == stock.price && r.change == stock.change && r.volume == stock.volume
    ensures r.previousClose + r.change == r.currentPrice
    ensures r.changePercent == ChangePercent(stock.price, stock.change)
    ensures r.lastUpdated == now && r.marketCap.None? && r.sector.None? && r.industry.None?
  {
    EnhancedStock(stock.name, stock.name, stock.price, stock.price - stock.change, stock.change,
                  ChangePercent(stock.price, stock.change), stock.volume, now, None, None, None)
  }

  function ConvertAll(stocks: seq<StockLive>, now: int): (r: seq<EnhancedStock>)
    ensures |r| == |stocks|
    ensures forall i :: 0 <= i < |r| ==> r[i] == ConvertToEnhancedStock(stocks[i], now)
  {
    seq(|stocks|, i requires 0 <= i < |stocks| => ConvertToEnhancedStock(stocks[i], now))
  }

  /** convertToEnhancedStocks: fills a slice of the same length, entry by entry. */
  method ConvertToEnhancedStocks(stocks: seq<StockLive>, now: int) returns (r: seq<EnhancedStock>)
    ensures r == ConvertAll(stocks, now)
  {
    var enhanced := new EnhancedStock[|stocks|];
    var i := 0;
    while i < |stocks|
      invariant 0 <= i <= |stocks|
      invariant forall j :: 0 <= j < i ==> enhanced[j] == ConvertToEnhancedStock(stocks[j], now)
    {
      enhanced[i] := ConvertToEnhancedStock(stocks[i], now);
      i := i + 1;
    }
    r := enhanced[..];
  }

  // ---- mock data ----

  function MockStocks(now: int): (r: seq<EnhancedStock>)
    ensures |r| == 3
  {
    [ EnhancedStock("ACCESS", "Access Bank Ghana Plc", 16.37, 16.37, 0.0, 0.0, 0, now,
                    Some(2100000000.0), Some("Financial Services"), Some("Banking")),
      EnhancedStock("GCB", "GCB Bank Limited", 4.20, 4.15, 0.05, 1.20, 67000, now,
                    Some(1800000000.0), Some("Financial Services"), Some("Banking")),
      EnhancedStock("MTN", "MTN Ghana", 0.82, 0.80, 0.02, 2.5, 125000, now,
                    Some(1500000000.0), Some("Telecommunications"), Some("Mobile Networks")) ]
  }

  /** The mock details exist for MTN only. */
  function MockDetailedStock(symbol: string, now: int): (r: Option<DetailedStock>)
    ensures r.Some? <==> symbol == "MTN"
    ensures r.Some? ==> r.value.symbol == symbol
  {
    if symbol == "MTN" then
      Some(DetailedStock("MTN", "MTN Ghana", 0.82, 0.80, 0.02, 2.5, 125000, now,
                         1500000000.0, 1829268293, "Telecommunications", "Mobile Networks",
                         Some(0.05), Some(0.12),
                         Company("Accra, Ghana", ["Selorm Adadevoh", "Ebenezer Asante"], "info@mtn.com.gh",
                                 None, "Mobile Networks", "MTN Ghana", "Telecommunications",
                                 "+233-244-300-000", "https://www.mtn.com.gh")))
    else None
  }

  /** The first mock quote whose upper-cased symbol is sym. */
  method FindMockStock(sym: string, now: int) returns (r: Option<EnhancedStock>)
    ensures r.Some? <==> exists i :: 0 <= i < 3 && Text.ToUpper(MockStocks(now)[i].symbol) == sym
    ensures r.Some? ==> exists i :: 0 <= i < 3 && r.value == MockStocks(now)[i] && Text.ToUpper(r.value.symbol) == sym
  {
    var mocks := MockStocks(now);
    var i := 0;
    while i < |mocks|
      invariant 0 <= i <= |mocks|
      invariant forall j :: 0 <= j < i ==> Text.ToUpper(mocks[j].symbol) != sym
    {
      if Text.ToUpper(mocks[i].symbol) == sym {
        return Some(mocks[i]);
      }
      i := i + 1;
    }
    r := None;
  }

  /** The mock set is ACCESS, GCB and MTN, already upper case. */
  lemma MockSymbols(now: int)
    ensures forall i :: 0 <= i < 3 ==> Text.ToUpper(MockStocks(now)[i].symbol) == MockStocks(now)[i].symbol
    ensures MockStocks(now)[0].symbol == "ACCESS" && MockStocks(now)[1].symbol == "GCB" && MockStocks(now)[2].symbol == "MTN"
  {
    forall i | 0 <= i < 3 ensures Text.ToUpper(MockStocks(now)[i].symbol) == MockStocks(now)[i].symbol {
      var s := MockStocks(now)[i].symbol;
      assert forall k :: 0 <= k < |s| ==> 'A' <= s[k] <= 'Z';
    }
  }

  // ---- the cache-backed operations ----

  const AllStocksKey: string := "stocks:all"

  function LiveKey(sym: string): string { "stock:live:" + sym }

  function DetailsKey(sym: string): string { "stock:details:" + sym }

  /** The store after a Set of e under key. */
  function Written(connected: bool, fail: bool, store: map<string, Entry>, key: string, e: Entry): (r: map<string, Entry>)
    ensures connected && !fail ==> key in r && r[key] == e
    ensures forall k :: k != key ==> (k in r <==> k in store) && (k in r ==> r[k] == store[k])
  {
    if connected && !fail then store[key := e] else store
  }

  /** A cache hit: an entry under key that decodes as the wanted kind of value. */
  predicate HitAs(connected: bool, getFails: bool, store: map<string, Entry>, key: string, isKind: Cached -> bool)
  {
    connected && !getFails && key in store && isKind(store[key].value)
  }

  function IsAllStocks(): Cached -> bool { (c: Cached) => c.AllStocks? }
  function IsQuote(): Cached -> bool { (c: Cached) => c.Quote? }
  function IsDetails(): Cached -> bool { (c: Cached) => c.Details? }

  /** The real list behind a miss, if the fetch and the decoding both succeed. */
  function LiveList(cfg: ExternalConfig, net: Net): Option<seq<StockLive>>
  {
    var f := FetchWithProxyFixed(cfg, net, "/live");
    if f.Success? && f.value.body.LiveList? then Some(f.value.body.stocks) else None
  }

  /**
   * GetAllStocks: the cached list on a hit, with no request. Otherwise the feed's
   * list converted and cached for the configured TTL, or, when the feed fails, the
   * mock list cached for one minute. It never fails.
   */
  method GetAllStocks(cache: Cache, cfg: ExternalConfig, ttl: int, net: Net, now: int, getFails: bool, setFails: bool)
    returns (r: seq<EnhancedStock>, fetched: seq<string>)
    modifies cache
    ensures HitAs(cache.connected, getFails, old(cache.store), AllStocksKey, IsAllStocks()) ==>
      r == old(cache.store)[AllStocksKey].value.stocks && fetched == [] && cache.store == old(cache.store)
    ensures !HitAs(cache.connected, getFails, old(cache.store), AllStocksKey, IsAllStocks()) ==>
      && fetched == Requests(cfg, net, "/live")
      && r == (if LiveList(cfg, net).Some? then ConvertAll(LiveList(cfg, net).value, now) else MockStocks(now))
      && cache.store == Written(cache.connected, setFails, old(cache.store), AllStocksKey,
                                Entry(AllStocks(r), if LiveList(cfg, net).Some? then ttl else Minute))
  {
    var cached := cache.Get(AllStocksKey, getFails);
    if cached.Success? && cached.value.AllStocks? {
      return cached.value.stocks, [];
    }
    fetched := Requests(cfg, net, "/live");
    var resp := FetchWithProxyFixed(cfg, net, "/live");
    if resp.Failure? || !resp.value.body.LiveList? {
      r := MockStocks(now);
      var _ := cache.Set(AllStocksKey, AllStocks(r), Minute, setFails);
      return;
    }
    r := ConvertToEnhancedStocks(resp.value.body.stocks, now);
    var _ := cache.Set(AllStocksKey, AllStocks(r), ttl, setFails);
  }

  /** The real quote behind a miss for sym, if the fetch and the decoding both succeed. */
  function LiveOne(cfg: ExternalConfig, net: Net, sym: string): Option<StockLive>
  {
    var f := FetchWithProxyFixed(cfg, net, "/live/" + sym);
    if f.Success? && f.value.body.LiveOne? then Some(f.value.body.stock) else None
  }

  /**
   * GetStock: the symbol is upper-cased first. A hit returns the cached quote with
   * no request; a feed failure falls back to the mock quote (cached one minute) or
   * "stock not found"; a real quote is cached for the configured TTL.
   */
  method GetStock(cache: Cache, cfg: ExternalConfig, ttl: int, net: Net, now: int, symbol: string,
                  getFails: bool, setFails: bool)
    returns (r: Result<EnhancedStock, string>, fetched: seq<string>)
    modifies cache
    ensures old(cache.store).Keys <= cache.store.Keys
    ensures cache.connected && !setFails && r.Success? ==> LiveKey(Text.ToUpper(symbol)) in cache.store
    ensures (exists i :: 0 <= i < 3 && Text.ToUpper(MockStocks(now)[i].symbol) == Text.ToUpper(symbol)) ==> r.Success?
    ensures var key := LiveKey(Text.ToUpper(symbol));
      HitAs(cache.connected, getFails, old(cache.store), key, IsQuote()) ==>
        r == Success(old(cache.store)[key].value.stock) && fetched == [] && cache.store == old(cache.store)
    ensures var sym := Text.ToUpper(symbol);
      !HitAs(cache.connected, getFails, old(cache.store), LiveKey(sym), IsQuote()) ==>
        && fetched == Requests(cfg, net, "/live/" + sym)
        && (LiveOne(cfg, net, sym).Some? ==>
              r == Success(ConvertToEnhancedStock(LiveOne(cfg, net, sym).value, now))
              && cache.store == Written(cache.connected, setFails, old(cache.store), LiveKey(sym), Entry(Quote(r.value), ttl)))
        && (LiveOne(cfg, net, sym).None? ==>
              (r.Success? <==> exists i :: 0 <= i < 3 && Text.ToUpper(MockStocks(now)[i].symbol) == sym)
              && (r.Success? ==> r.value in MockStocks(now) && Text.ToUpper(r.value.symbol) == sym
                                 && cache.store == Written(cache.connected, setFails, old(cache.store), LiveKey(sym), Entry(Quote(r.value), Minute)))
              && (r.Failure? ==> r.error == "stock not found" && cache.store == old(cache.store)))
  {
    var sym := Text.ToUpper(symbol);
    var key := LiveKey(sym);
    var cached := cache.Get(key, getFails);
    if cached.Success? && cached.value.Quote? {
      return Success(cached.value.stock), [];
    }
    fetched := Requests(cfg, net, "/live/" + sym);
    var resp := FetchWithProxyFixed(cfg, net, "/live/" + sym);
    if resp.Failure? || !resp.value.body.LiveOne? {
      var mock := FindMockStock(sym, now);
      if mock.None? {
        return Failure("stock not found"), fetched;
      }
      var _ := cache.Set(key, Quote(mock.value), Minute, setFails);
      return Success(mock.value), fetched;
    }
    var enhanced := ConvertToEnhancedStock(resp.value.body.stock, now);
    var _ := cache.Set(key, Quote(enhanced), ttl, setFails);
    r := Success(enhanced);
  }

  /** The mock quotes make GetStock succeed for ACCESS, GCB and MTN in any letter case, whatever the network does. */
  lemma MockCoversGetStock(now: int, symbol: string)
    requires Text.ToUpper(symbol) in ["ACCESS", "GCB", "MTN"]
    ensures exists i :: 0 <= i < 3 && Text.ToUpper(MockStocks(now)[i].symbol) == Text.ToUpper(symbol)
  {
    MockSymbols(now);
    var sym := Text.ToUpper(symbol);
    if sym == "ACCESS" {
      assert Text.ToUpper(MockStocks(now)[0].symbol) == sym;
    } else if sym == "GCB" {
      assert Text.ToUpper(MockStocks(now)[1].symbol) == sym;
    } else {
      assert Text.ToUpper(MockStocks(now)[2].symbol) == sym;
    }
  }

  /**
   * The details record: names from the equity feed; price, change and volume from
   * the live quote when there is one, else the equity price with no change.
   */
  function DetailsFrom(equity: StockEquity, live: Option<StockLive>, now: int): (r: DetailedStock)
    ensures r.symbol == equity.name && r.name == equity.company.name && r.company == equity.company
    ensures live.None? ==> r.currentPrice == equity.price && r.change == 0.0 && r.volume == 0 && r.changePercent == 0.0
    ensures live.Some? ==> r.currentPrice == live.value.price && r.change == live.value.change && r.volume == live.value.volume
    ensures r.previousClose + r.change == r.currentPrice
    ensures r.changePercent == ChangePercent(r.currentPrice, r.change)
  {
    var price := if live.Some? then live.value.price else equity.price;
    var change := if live.Some? then live.value.change else 0.0;
    var volume := if live.Some? then live.value.volume else 0;
    DetailedStock(equity.name, equity.company.name, price, price - change, change,
                  ChangePercent(price, change), volume, now, equity.capital, equity.shares,
                  equity.company.sector, equity.company.industry, equity.dps, equity.eps, equity.company)
  }

  function EquityOf(cfg: ExternalConfig, net: Net, sym: string): Option<StockEquity>
  {
    var f := FetchWithProxyFixed(cfg, net, "/equities/" + sym);
    if f.Success? && f.value.body.Equity? then Some(f.value.body.equity) else None
  }

  /**
   * GetStockDetails: as GetStock, from the equity feed with a second request for
   * the live quote; the fallback exists for MTN only.
   */
  method GetStockDetails(cache: Cache, cfg: ExternalConfig, ttl: int, net: Net, now: int, symbol: string,
                         getFails: bool, setFails: bool)
    returns (r: Result<DetailedStock, string>, fetched: seq<string>)
    modifies cache
    ensures old(cache.store).Keys <= cache.store.Keys
    ensures cache.connected && !setFails && r.Success? ==> DetailsKey(Text.ToUpper(symbol)) in cache.store
    ensures Text.ToUpper(symbol) == "MTN" ==> r.Success?
    ensures var key := DetailsKey(Text.ToUpper(symbol));
      HitAs(cache.connected, getFails, old(cache.store), key, IsDetails()) ==>
        r == Success(old(cache.store)[key].value.details) && fetched == [] && cache.store == old(cache.store)
    ensures var sym := Text.ToUpper(symbol);
      !HitAs(cache.connected, getFails, old(cache.store), DetailsKey(sym), IsDetails()) ==>
        && (EquityOf(cfg, net, sym).Some? ==>
              && fetched == Requests(cfg, net, "/equities/" + sym) + Requests(cfg, net, "/live/" + sym)
              && r == Success(DetailsFrom(EquityOf(cfg, net, sym).value, LiveOne(cfg, net, sym), now))
              && cache.store == Written(cache.connected, setFails, old(cache.store), DetailsKey(sym), Entry(Details(r.value), ttl)))
        && (EquityOf(cfg, net, sym).None? ==>
              && fetched == Requests(cfg, net, "/equities/" + sym)
              && (r.Success? <==> sym == "MTN")
              && (r.Success? ==> r == Success(MockDetailedStock(sym, now).value)
                                 && cache.store == Written(cache.connected, setFails, old(cache.store), DetailsKey(sym), Entry(Details(r.value), Minute)))
              && (r.Failure? ==> r.error == "stock not found" && cache.store == old(cache.store)))
  {
    var sym := Text.ToUpper(symbol);
    var key := DetailsKey(sym);
    var cached := cache.Get(key, getFails);
    if cached.Success? && cached.value.Details? {
      return Success(cached.value.details), [];
    }
    fetched := Requests(cfg, net, "/equities/" + sym);
    var resp := FetchWithProxyFixed(cfg, net, "/equities/" + sym);
    if resp.Failure? || !resp.value.body.Equity? {
      var mock := MockDetailedStock(sym, now);
      if mock.None? {
        return Failure("stock not found"), fetched;
      }
      var _ := cache.Set(key, Details(mock.value), Minute, setFails);
      return Success(mock.value), fetched;
    }
    var equity := resp.value.body.equity;
    fetched := fetched + Requests(cfg, net, "/live/" + sym);
    var liveResp := FetchWithProxyFixed(cfg, net, "/live/" + sym);
    var live := if liveResp.Success? && liveResp.value.body.LiveOne? then Some(liveResp.value.body.stock) else None;
    var details := DetailsFrom(equity, live, now);
    var _ := cache.Set(key, Details(details), ttl, setFails);
    r := Success(details);
  }

  /** Read-through: right after a call that cached its answer, the same call is a hit and requests nothing. */
  method ReadThrough(cache: Cache, cfg: ExternalConfig, ttl: int, net: Net, now: int)
    returns (first: seq<EnhancedStock>, second: seq<EnhancedStock>, fetched: seq<string>)
    requires cache.connected
    modifies cache
    ensures second == first && fetched == []
  {
    var ignored;
    first, ignored := GetAllStocks(cache, cfg, ttl, net, now, false, false);
    second, fetched := GetAllStocks(cache, cfg, ttl, net, now, false, false);
  }

  /** A disabled cache is a permanent miss: every call goes to the network. */
  method DisabledAlwaysFetches(cache: Cache, cfg: ExternalConfig, ttl: int, net: Net, now: int, getFails: bool, setFails: bool)
    returns (r: seq<EnhancedStock>, fetched: seq<string>)
    requires !cache.connected
    modifies cache
    ensures fetched == Requests(cfg, net, "/live") && fetched != []
  {
    r, fetched := GetAllStocks(cache, cfg, ttl, net, now, getFails, setFails);
  }
}
