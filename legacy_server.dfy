// backend/main.go: the original single-file server. Alerts live in a global
// slice with a global counter for ids; the monitor re-reads prices and flips
// alerts to "triggered". The HTTP layer is reduced to results with a status
// code; a quote lookup is an Option (None for a transport error or an
// undecodable body). The status code of the quote answer is never looked at, so
// an error answer whose body decodes yields the price it holds, 0 when absent.
module LegacyServer {
  import opened Wrappers
  import Seqs
  import Text

  datatype LegacyAlert = LegacyAlert(
    id: string, userId: string, stockSymbol: string, stockName: string, alertType: string,
    thresholdPrice: Option<real>, currentPrice: Option<real>, status: string,
    createdAt: int, updatedAt: int)

  datatype CreateRequest = CreateRequest(stockSymbol: string, stockName: string, alertType: string,
                                         thresholdPrice: Option<real>)

  datatype UpdateRequest = UpdateRequest(alertType: Option<string>, thresholdPrice: Option<real>,
                                         status: Option<string>)

  /** An HTTP error answer: status code and message. */
  datatype HttpError = HttpError(code: int, message: string)

  const Hour: int := 3600
  const SampleUser: string := "user-123"
  const NotFound: HttpError := HttpError(404, "Alert not found")

  /** The id of the n-th created alert. */
  function AlertId(n: nat): string { "alert-" + Text.NatToString(n) }

  /** Different counters give different ids. */
  lemma AlertIdInjective(a: nat, b: nat)
    requires AlertId(a) == AlertId(b)
    ensures a == b
  {
    assert Text.NatToString(a) == AlertId(a)[6..];
    assert Text.NatToString(b) == AlertId(b)[6..];
    Text.NatToStringValue(a);
    Text.NatToStringValue(b);
  }

  /** The three kinds the legacy server accepts. */
  predicate LegacyKind(t: string) { t in ["price_threshold", "ipo_alert", "dividend_announcement"] }

  /** createAlert's checks, in order. */
  function ValidateCreate(req: CreateRequest): (r: Option<HttpError>)
    ensures r.None? <==>
      req.stockSymbol != "" && req.alertType != "" && LegacyKind(req.alertType)
      && (req.alertType == "price_threshold" ==> req.thresholdPrice.Some?)
    ensures r.Some? ==> r.value.code == 400
  {
    if req.stockSymbol == "" || req.alertType == "" then Some(HttpError(400, "stockSymbol and alertType are required"))
    else if !LegacyKind(req.alertType) then Some(HttpError(400, "Invalid alert type"))
    else if req.alertType == "price_threshold" && req.thresholdPrice.None? then
      Some(HttpError(400, "thresholdPrice is required for price_threshold alerts"))
    else None
  }

  /** updateAlert's field rule: provided fields replace, the rest stay; UpdatedAt is refreshed. */
  function Updated(a: LegacyAlert, req: UpdateRequest, now: int): (r: LegacyAlert)
    ensures r.alertType == (if req.alertType.Some? then req.alertType.value else a.alertType)
    ensures r.thresholdPrice == (if req.thresholdPrice.Some? then req.thresholdPrice else a.thresholdPrice)
    ensures r.status == (if req.status.Some? then req.status.value else a.status)
    ensures r.(alertType := a.alertType, thresholdPrice := a.thresholdPrice, status := a.status, updatedAt := a.updatedAt) == a
    ensures r.updatedAt == now
  {
    a.(alertType := if req.alertType.Some? then req.alertType.value else a.alertType,
       thresholdPrice := if req.thresholdPrice.Some? then req.thresholdPrice else a.thresholdPrice,
       status := if req.status.Some? then req.status.value else a.status,
       updatedAt := now)
  }

  /** An update with no fields only refreshes UpdatedAt. */
  lemma EmptyUpdateOnlyTouches(a: LegacyAlert, now: int)
    ensures Updated(a, UpdateRequest(None, None, None), now) == a.(updatedAt := now)
  {
  }

  /** The monitor acts on an alert only while it is an active price alert. */
  predicate Monitored(a: LegacyAlert) { a.status == "active" && a.alertType == "price_threshold" }

  /** One monitor pass over one alert, given the price the feed returns for its symbol, if any. */
  function Tick(a: LegacyAlert, price: Option<real>, now: int): (r: LegacyAlert)
    ensures !Monitored(a) || price.None? ==> r == a
    ensures Monitored(a) && price.Some? ==> r.currentPrice == price && r.updatedAt == now
    ensures r.(currentPrice := a.currentPrice, updatedAt := a.updatedAt, status := a.status) == a
    ensures r.status == a.status || r.status == "triggered"
  {
    if !Monitored(a) || price.None? then a
    else
      var priced := a.(currentPrice := price, updatedAt := now);
      if a.thresholdPrice.Some? && price.value >= a.thresholdPrice.value then priced.(status := "triggered") else priced
  }

  /**
   * An evaluated alert records the price, and becomes triggered iff it has a
   * threshold and the price reaches it (equality fires); everything else about it stays.
   */
  lemma TickTriggersIffReached(a: LegacyAlert, price: Option<real>, now: int)
    requires Monitored(a) && price.Some?
    ensures Tick(a, price, now).currentPrice == price && Tick(a, price, now).updatedAt == now
    ensures Tick(a, price, now).status == "triggered" <==>
      a.thresholdPrice.Some? && price.value >= a.thresholdPrice.value
    ensures Tick(a, price, now).status != "triggered" ==> Tick(a, price, now).status == "active"
    ensures Tick(a, price, now).(currentPrice := a.currentPrice, updatedAt := a.updatedAt, status := a.status) == a
  {
  }

  /** A triggered alert is never evaluated again: a second pass leaves it as it is. */
  lemma TriggeredIsFinal(a: LegacyAlert, p1: Option<real>, p2: Option<real>, t1: int, t2: int)
    requires Tick(a, p1, t1).status == "triggered"
    ensures Tick(Tick(a, p1, t1), p2, t2) == Tick(a, p1, t1)
  {
  }

  /** getAlerts' filter: an empty userId or status matches everything. */
  function Wanted(userId: string, status: string): LegacyAlert -> bool
  {
    (a: LegacyAlert) => (userId == "" || a.userId == userId) && (status == "" || a.status == status)
  }

  /** Every id in s is alert-k for some k from 1 to counter. */
  ghost predicate Issued(s: seq<LegacyAlert>, counter: nat)
  {
    forall i :: 0 <= i < |s| ==> IssuedId(s[i].id, counter)
  }

  /** id is alert-k for some k from 1 to counter. */
  ghost predicate IssuedId(id: string, counter: nat)
  {
    exists k :: 1 <= k <= counter && id == AlertId(k)
  }

  ghost predicate DistinctIds(s: seq<LegacyAlert>)
  {
    forall i, j :: 0 <= i < j < |s| ==> s[i].id != s[j].id
  }

  /** Position by position, t carries the ids of s. */
  ghost predicate SameIds(s: seq<LegacyAlert>, t: seq<LegacyAlert>)
  {
    |s| == |t| && forall i :: 0 <= i < |s| ==> s[i].id == t[i].id
  }

  lemma SameIdsKeepValid(s: seq<LegacyAlert>, t: seq<LegacyAlert>, counter: nat)
    requires SameIds(s, t) && Issued(s, counter) && DistinctIds(s)
    ensures Issued(t, counter) && DistinctIds(t)
  {
    forall j | 0 <= j < |t| ensures IssuedId(t[j].id, counter) {
      assert IssuedId(s[j].id, counter);
    }
  }

  class Server {
    var alerts: seq<LegacyAlert>
    var counter: nat

    /** Every id is alert-k for some k up to the counter, and no two alerts share an id. */
    ghost predicate Valid()
      reads this
    {
      Issued(alerts, counter) && DistinctIds(alerts)
    }

    /** initSampleAlerts: two alerts of user-123, and the counter at 2. */
    constructor(now: int)
      ensures Valid()
      ensures counter == 2 && |alerts| == 2
      ensures alerts[0].id == AlertId(1) && alerts[1].id == AlertId(2)
      ensures alerts[0].stockSymbol == "MTN" && alerts[0].alertType == "price_threshold"
      ensures alerts[0].thresholdPrice == Some(0.85) && alerts[0].status == "active"
      ensures alerts[1].stockSymbol == "ACCESS" && alerts[1].alertType == "dividend_announcement"
    {
      alerts := [
        LegacyAlert(AlertId(1), SampleUser, "MTN", "MTN Ghana", "price_threshold", Some(0.85), Some(0.82),
                    "active", now - 24 * Hour, now - Hour),
        LegacyAlert(AlertId(2), SampleUser, "ACCESS", "Access Bank Ghana Plc", "dividend_announcement", None, None,
                    "active", now - 48 * Hour, now - 48 * Hour)];
      counter := 2;
      new;
      assert AlertId(1) != AlertId(2) by {
        if AlertId(1) == AlertId(2) { AlertIdInjective(1, 2); }
      }
    }

    /** getAlerts: the stored alerts that pass both filters, in stored order. */
    method GetAlerts(userId: string, status: string) returns (r: seq<LegacyAlert>)
      ensures r == Seqs.Filter(alerts, Wanted(userId, status))
    {
      r := [];
      var i := 0;
      while i < |alerts|
        invariant 0 <= i <= |alerts|
        invariant r == Seqs.Filter(alerts[..i], Wanted(userId, status))
      {
        Seqs.FilterAppend(alerts[..i], [alerts[i]], Wanted(userId, status));
        assert alerts[..i + 1] == alerts[..i] + [alerts[i]];
        if (userId == "" || alerts[i].userId == userId) && (status == "" || alerts[i].status == status) {
          r := r + [alerts[i]];
        }
        i := i + 1;
      }
      assert alerts[..i] == alerts;
    }

    /**
     * createAlert: after the checks, the counter advances and the alert is
     * appended under the id alert-<counter>, active, owned by user-123, with the
     * price the quote lookup gave, if any.
     */
    method CreateAlert(req: CreateRequest, quote: Option<real>, now: int) returns (r: Result<LegacyAlert, HttpError>)
      requires Valid()
      modifies this
      ensures Valid()
      ensures r.Failure? <==> ValidateCreate(req).Some?
      ensures r.Failure? ==> r.error == ValidateCreate(req).value && alerts == old(alerts) && counter == old(counter)
      ensures r.Success? ==>
        && counter == old(counter) + 1 && alerts == old(alerts) + [r.value]
        && r.value == LegacyAlert(AlertId(counter), SampleUser, req.stockSymbol, req.stockName, req.alertType,
                                  req.thresholdPrice, quote, "active", now, now)
      ensures r.Success? ==> forall i :: 0 <= i < |old(alerts)| ==> old(alerts)[i].id != r.value.id
    {
      var invalid := ValidateCreate(req);
      if invalid.Some? {
        return Failure(invalid.value);
      }
      counter := counter + 1;
      var alert := LegacyAlert(AlertId(counter), SampleUser, req.stockSymbol, req.stockName, req.alertType,
                               req.thresholdPrice, quote, "active", now, now);
      forall i | 0 <= i < |alerts| ensures alerts[i].id != alert.id && IssuedId(alerts[i].id, counter) {
        assert IssuedId(alerts[i].id, counter - 1);
        var k :| 1 <= k <= counter - 1 && alerts[i].id == AlertId(k);
        if alerts[i].id == alert.id {
          AlertIdInjective(k, counter);
        }
      }
      assert IssuedId(alert.id, counter);
      alerts := alerts + [alert];
      r := Success(alert);
    }

    /** The position of the first alert with this id, if any. */
    method Find(id: string) returns (r: Option<nat>)
      ensures r.None? <==> forall i :: 0 <= i < |alerts| ==> alerts[i].id != id
      ensures r.Some? ==> r.value < |alerts| && alerts[r.value].id == id
      ensures r.Some? ==> forall i :: 0 <= i < r.value ==> alerts[i].id != id
    {
      var i := 0;
      while i < |alerts|
        invariant 0 <= i <= |alerts|
        invariant forall j :: 0 <= j < i ==> alerts[j].id != id
      {
        if alerts[i].id == id {
          return Some(i);
        }
        i := i + 1;
      }
      r := None;
    }

    /** getAlert: the first alert with this id, or 404. */
    method GetAlert(id: string) returns (r: Result<LegacyAlert, HttpError>)
      ensures r.Failure? <==> forall i :: 0 <= i < |alerts| ==> alerts[i].id != id
      ensures r.Failure? ==> r.error == NotFound
      ensures r.Success? ==> r.value.id == id && r.value in alerts
    {
      var at := Find(id);
      if at.None? {
        return Failure(NotFound);
      }
      r := Success(alerts[at.value]);
    }

    /** updateAlert: the first alert with this id gets the provided fields; an unknown id is 404 and changes nothing. */
    method UpdateAlert(id: string, req: UpdateRequest, now: int) returns (r: Result<LegacyAlert, HttpError>)
      requires Valid()
      modifies this
      ensures Valid() && counter == old(counter)
      ensures r.Failure? <==> forall i :: 0 <= i < |old(alerts)| ==> old(alerts)[i].id != id
      ensures r.Failure? ==> r.error == NotFound && alerts == old(alerts)
      ensures r.Success? ==>
        exists i :: 0 <= i < |old(alerts)| && old(alerts)[i].id == id && r.value == Updated(old(alerts)[i], req, now) && alerts == old(alerts)[i := r.value]
    {
      var at := Find(id);
      if at.None? {
        return Failure(NotFound);
      }
      var updated := Updated(alerts[at.value], req, now);
      alerts := alerts[at.value := updated];
      r := Success(updated);
    }

    /** deleteAlert: removes the first alert with this id, keeping the others in order; afterwards none has the id. */
    method DeleteAlert(id: string) returns (r: Outcome<HttpError>)
      requires Valid()
      modifies this
      ensures Valid() && counter == old(counter)
      ensures r.Fail? <==> forall i :: 0 <= i < |old(alerts)| ==> old(alerts)[i].id != id
      ensures r.Fail? ==> r.error == NotFound && alerts == old(alerts)
      ensures r.Pass? ==>
        exists i :: 0 <= i < |old(alerts)| && old(alerts)[i].id == id && alerts == old(alerts)[..i] + old(alerts)[i + 1..]
      ensures forall i :: 0 <= i < |alerts| ==> alerts[i].id != id
    {
      var at := Find(id);
      if at.None? {
        return Fail(NotFound);
      }
      var i := at.value;
      ghost var before := alerts;
      alerts := alerts[..i] + alerts[i + 1..];
      forall j | 0 <= j < |alerts| ensures alerts[j].id != id {
        if j < i { assert alerts[j] == before[j]; } else { assert alerts[j] == before[j + 1]; }
      }
      r := Pass;
    }

    /** checkAlerts: one monitor pass over every alert, each with the price looked up for its symbol. */
    method CheckAlerts(prices: string -> Option<real>, now: int)
      requires Valid()
      modifies this
      ensures Valid() && counter == old(counter)
      ensures |alerts| == |old(alerts)|
      ensures forall i :: 0 <= i < |alerts| ==> alerts[i] == Tick(old(alerts)[i], prices(old(alerts)[i].stockSymbol), now)
    {
      ghost var before := alerts;
      var i := 0;
      while i < |alerts|
        invariant 0 <= i <= |alerts| && |alerts| == |old(alerts)|
        invariant forall j :: 0 <= j < i ==> alerts[j] == Tick(old(alerts)[j], prices(old(alerts)[j].stockSymbol), now)
        invariant forall j :: i <= j < |alerts| ==> alerts[j] == old(alerts)[j]
        invariant SameIds(before, alerts)
        invariant counter == old(counter)
      {
        var alert := alerts[i];
        if alert.status == "active" && alert.alertType == "price_threshold" {
          var price := prices(alert.stockSymbol);
          if price.Some? {
            alert := alert.(currentPrice := price, updatedAt := now);
            if alert.thresholdPrice.Some? && price.value >= alert.thresholdPrice.value {
              alert := alert.(status := "triggered");
            }
          }
        }
        assert alert == Tick(alerts[i], prices(alerts[i].stockSymbol), now);
        alerts := alerts[i := alert];
        i := i + 1;
      }
      SameIdsKeepValid(before, alerts, counter);
    }
  }

  /** After seeding, the first alert created gets the id alert-3. */
  method FirstCreatedId(req: CreateRequest, quote: Option<real>, now: int) returns (id: string)
    requires ValidateCreate(req).None?
    ensures id == "alert-3"
  {
    var s := new Server(now);
    var r := s.CreateAlert(req, quote, now);
    id := r.value.id;
    assert Text.NatToString(3) == "3";
  }

  // ---- getStock ----

  datatype LegacyStock = LegacyStock(symbol: string, name: string, currentPrice: real, previousClose: real,
                                     change: real, changePercent: real, volume: int, lastUpdated: int)

  /** The legacy mock list: MTN, ACCESS, GCB, TOTAL and GOIL. */
  function MockStocks(now: int): (r: seq<LegacyStock>)
    ensures |r| == 5
  {
    [ LegacyStock("MTN", "MTN Ghana", 0.82, 0.80, 0.02, 2.5, 125000, now),
      LegacyStock("ACCESS", "Access Bank Ghana Plc", 3.45, 3.40, 0.05, 1.47, 89000, now),
      LegacyStock("GCB", "GCB Bank Limited", 4.20, 4.15, 0.05, 1.20, 67000, now),
      LegacyStock("TOTAL", "TotalEnergies Marketing Ghana Plc", 2.85, 2.90, -0.05, -1.72, 45000, now),
      LegacyStock("GOIL", "Ghana Oil Company Limited", 1.95, 1.92, 0.03, 1.56, 78000, now) ]
  }

  /** The feed's live entry as served: its name is the symbol; the percentage needs positive price and previous close. */
  function Enhance(name: string, price: real, change: real, volume: int, now: int): (r: LegacyStock)
    ensures r.symbol == name && r.previousClose + r.change == r.currentPrice
  {
    LegacyStock(name, name, price, price - change,
                change, if price > 0.0 && price - change > 0.0 then change / (price - change) * 100.0 else 0.0,
                volume, now)
  }

  datatype LiveQuote = LiveQuote(name: string, price: real, change: real, volume: int)

  /**
   * getStock: the symbol is upper-cased; the feed's quote when the lookup
   * succeeds, else the first mock entry with that symbol, else 404.
   */
  method GetStock(symbol: string, live: Option<LiveQuote>, now: int) returns (r: Result<LegacyStock, HttpError>)
    ensures live.Some? ==> r == Success(Enhance(live.value.name, live.value.price, live.value.change, live.value.volume, now))
    ensures live.None? ==>
      (r.Success? <==> exists i :: 0 <= i < 5 && Text.ToUpper(MockStocks(now)[i].symbol) == Text.ToUpper(symbol))
    ensures live.None? && r.Success? ==> r.value in MockStocks(now) && Text.ToUpper(r.value.symbol) == Text.ToUpper(symbol)
    ensures r.Failure? ==> r.error == HttpError(404, "Stock not found")
  {
    var sym := Text.ToUpper(symbol);
    if live.Some? {
      return Success(Enhance(live.value.name, live.value.price, live.value.change, live.value.volume, now));
    }
    var mocks := MockStocks(now);
    var i := 0;
    while i < |mocks|
      invariant 0 <= i <= |mocks|
      invariant forall j :: 0 <= j < i ==> Text.ToUpper(mocks[j].symbol) != sym
    {
      if Text.ToUpper(mocks[i].symbol) == sym {
        return Success(mocks[i]);
      }
      i := i + 1;
    }
    r := Failure(HttpError(404, "Stock not found"));
  }
}
