// backend/internal/services/alert_service.go: create-time validation,
// owner-checked reads and partial updates, and the monitoring tick that records
// the fetched price of every active price alert and triggers the ones whose
// threshold is reached. The quote service, the user store, the mailer and the
// outcome of each store write are carried by an Env.
module AlertService {
  import opened Wrappers
  import opened Models
  import opened AlertRepository
  import opened Users
  import opened Email
  import Seqs

  /**
   * The world one call sees: the clock, the quotes the stock service can produce,
   * the user directory, the mailer, and the alert ids whose price write or
   * trigger write the database refuses.
   */
  datatype Env = Env(now: int, quotes: map<string, real>, dir: Directory, mailer: Mailer,
                     priceWriteFails: set<string>, triggerWriteFails: set<string>)

  const NotFound: string := "alert not found"

  // ---- creation ----

  /** The parameter kind k cannot do without. */
  predicate HasParameter(k: AlertKind, req: CreateAlertRequest)
  {
    match k
    case PriceThreshold => req.thresholdPrice.Some?
    case HighDividendYield => req.thresholdYield.Some?
    case TargetDividendYield => req.targetYield.Some?
    case DividendYieldChange => req.yieldChangeThreshold.Some?
    case IPOAlert => true
    case DividendAnnouncementAlert => true
  }

  /** The error for a kind whose parameter is missing. */
  function MissingParameter(k: AlertKind): string
  {
    match k
    case PriceThreshold => "thresholdPrice is required for price_threshold alerts"
    case HighDividendYield => "thresholdYield is required for high_dividend_yield alerts"
    case TargetDividendYield => "targetYield is required for target_dividend_yield alerts"
    case DividendYieldChange => "yieldChangeThreshold is required for dividend_yield_change alerts"
    case _ => ""
  }

  /**
   * CreateAlert's checks, in order. A request passes iff it names a symbol and one
   * of the six kinds and carries that kind's parameter; the symbol is required for
   * every kind.
   */
  function ValidateCreate(req: CreateAlertRequest): (r: Outcome<string>)
    ensures r.Pass? <==> req.stockSymbol != "" && ParseKind(req.alertType).Some? && HasParameter(ParseKind(req.alertType).value, req)
    ensures req.stockSymbol == "" || req.alertType == "" ==> r == Fail("stockSymbol and alertType are required")
    ensures req.stockSymbol != "" && req.alertType != "" && ParseKind(req.alertType).None? ==>
      r == Fail("invalid alert type")
  {
    if req.stockSymbol == "" || req.alertType == "" then Fail("stockSymbol and alertType are required")
    else
      match ParseKind(req.alertType)
      case None => Fail("invalid alert type")
      case Some(k) => if HasParameter(k, req) then Pass else Fail(MissingParameter(k))
  }

  /** Accepted requests, stated without the parser: a symbol, one of the six kinds, and that kind's parameter. */
  lemma ValidateCreateAccepts(req: CreateAlertRequest)
    ensures ValidateCreate(req).Pass? <==> req.stockSymbol != "" && exists k :: KindName(k) == req.alertType && HasParameter(k, req)
  {
    if ValidateCreate(req).Pass? {
      var k := ParseKind(req.alertType).value;
      assert KindName(k) == req.alertType && HasParameter(k, req);
    } else if req.stockSymbol != "" {
      forall k | KindName(k) == req.alertType ensures !HasParameter(k, req) {
        ParseKindOfName(k);
      }
    }
  }

  /** The quote for a symbol, when the stock service has one. */
  function Quote(quotes: map<string, real>, symbol: string): (r: Option<real>)
    ensures r.Some? <==> symbol in quotes
    ensures r.Some? ==> r.value == quotes[symbol]
  {
    if symbol in quotes then Some(quotes[symbol]) else None
  }

  /**
   * The alert CreateAlert builds: active, with the request's parameters, the
   * quoted price if there was one, and no current yield.
   */
  function NewAlert(userId: string, req: CreateAlertRequest, id: string, quote: Option<real>, now: int): (r: Alert)
    ensures r.id == id && r.userId == userId && r.status == ActiveName
    ensures r.stockSymbol == req.stockSymbol && r.stockName == req.stockName && r.alertType == req.alertType
    ensures r.thresholdPrice == req.thresholdPrice && r.thresholdYield == req.thresholdYield
    ensures r.targetYield == req.targetYield && r.yieldChangeThreshold == req.yieldChangeThreshold
    ensures r.currentPrice == quote && r.currentYield.None? && r.lastYield.None? && r.triggeredAt.None?
    ensures r.createdAt == now && r.updatedAt == now
  {
    Alert(id, userId, req.stockSymbol, req.stockName, req.alertType,
          req.thresholdPrice, quote, req.thresholdYield, None, req.targetYield,
          req.yieldChangeThreshold, None, ActiveName, now, now, None)
  }

  /**
   * Validates, builds the alert with a fresh id and stores it. The caller gets the
   * alert as built, yields included; the table keeps only its persisted columns.
   */
  method CreateAlert(table: AlertTable, userId: string, req: CreateAlertRequest, id: string,
                     quotes: map<string, real>, now: int, fail: bool) returns (r: Result<Alert, string>)
    requires table.Valid()
    modifies table
    ensures table.Valid()
    ensures ValidateCreate(req).Fail? ==> r == Failure(ValidateCreate(req).error)
    ensures r.Success? <==> ValidateCreate(req).Pass? && !fail && id !in old(table.rows)
    ensures r.Success? ==> r.value == NewAlert(userId, req, id, Quote(quotes, req.stockSymbol), now)
    ensures table.rows == if r.Success? then old(table.rows)[id := Persisted(r.value)] else old(table.rows)
  {
    var v := ValidateCreate(req);
    if v.Fail? {
      return Failure(v.error);
    }
    var currentPrice: Option<real> := None;
    if req.stockSymbol in quotes {
      currentPrice := Some(quotes[req.stockSymbol]);
    }
    var alert := NewAlert(userId, req, id, currentPrice, now);
    var err := table.Create(alert, fail);
    if err.Fail? {
      return Failure("failed to create alert: " + err.error);
    }
    r := Success(alert);
  }

  /** A yield given at creation is returned to the caller but never read back from the table. */
  lemma CreatedYieldIsNotStored(userId: string, req: CreateAlertRequest, id: string, quote: Option<real>, now: int)
    requires req.thresholdYield.Some? || req.targetYield.Some? || req.yieldChangeThreshold.Some?
    ensures Persisted(NewAlert(userId, req, id, quote, now)) != NewAlert(userId, req, id, quote, now)
    ensures NoYields(Persisted(NewAlert(userId, req, id, quote, now)))
  {
  }

  // ---- owner-checked access ----

  /** The alert, if it exists and belongs to the caller. */
  function GetAlert(table: AlertTable, alertId: string, userId: string): (r: Result<Alert, string>)
    reads table
    ensures r.Success? <==> alertId in table.rows && table.rows[alertId].userId == userId
    ensures r.Success? ==> r.value == table.rows[alertId]
    ensures alertId in table.rows && table.rows[alertId].userId != userId ==> r == Failure(NotFound)
  {
    var found := table.GetByID(alertId);
    if found.Failure? then found
    else if found.value.userId != userId then Failure(NotFound)
    else found
  }

  /** The alert after UpdateAlert's field-by-field copy of the non-nil request fields. */
  function Requested(a: Alert, req: UpdateAlertRequest): (r: Alert)
    ensures r.id == a.id && r.userId == a.userId && r.stockSymbol == a.stockSymbol
    ensures r.currentPrice == a.currentPrice && r.triggeredAt == a.triggeredAt
    ensures r.alertType == (if req.alertType.Some? then req.alertType.value else a.alertType)
    ensures r.status == (if req.status.Some? then req.status.value else a.status)
    ensures r.thresholdPrice == (if req.thresholdPrice.Some? then req.thresholdPrice else a.thresholdPrice)
  {
    a.(alertType := if req.alertType.Some? then req.alertType.value else a.alertType,
       thresholdPrice := if req.thresholdPrice.Some? then req.thresholdPrice else a.thresholdPrice,
       thresholdYield := if req.thresholdYield.Some? then req.thresholdYield else a.thresholdYield,
       targetYield := if req.targetYield.Some? then req.targetYield else a.targetYield,
       yieldChangeThreshold := if req.yieldChangeThreshold.Some? then req.yieldChangeThreshold else a.yieldChangeThreshold,
       status := if req.status.Some? then req.status.value else a.status)
  }

  /** The row an update request leaves in the table. */
  function StoredUpdate(row: Alert, req: UpdateAlertRequest, now: int): Alert
  {
    UpdatedRow(row, Requested(row, req), now)
  }

  /** UpdateAlert's copy of each non-nil request field onto the alert, one field at a time. */
  method CopyRequested(a: Alert, req: UpdateAlertRequest) returns (alert: Alert)
    ensures alert == Requested(a, req)
  {
    alert := a;
    if req.alertType.Some? {
      alert := alert.(alertType := req.alertType.value);
    }
    if req.thresholdPrice.Some? {
      alert := alert.(thresholdPrice := req.thresholdPrice);
    }
    if req.thresholdYield.Some? {
      alert := alert.(thresholdYield := req.thresholdYield);
    }
    if req.targetYield.Some? {
      alert := alert.(targetYield := req.targetYield);
    }
    if req.yieldChangeThreshold.Some? {
      alert := alert.(yieldChangeThreshold := req.yieldChangeThreshold);
    }
    if req.status.Some? {
      alert := alert.(status := req.status.value);
    }
  }

  /**
   * Updates the caller's alert with the non-nil request fields and reads it back.
   * Someone else's alert or an unknown id fails and changes nothing.
   */
  method UpdateAlert(table: AlertTable, alertId: string, userId: string, req: UpdateAlertRequest,
                     now: int, fail: bool) returns (r: Result<Alert, string>)
    requires table.Valid()
    modifies table
    ensures table.Valid()
    ensures old(GetAlert(table, alertId, userId)).Failure? ==>
      r == old(GetAlert(table, alertId, userId)) && table.rows == old(table.rows)
    ensures r.Success? <==> old(GetAlert(table, alertId, userId)).Success? && !fail
    ensures old(GetAlert(table, alertId, userId)).Success? && fail ==>
      r == Failure("failed to update alert: " + DbError) && table.rows == old(table.rows)
    ensures r.Success? ==>
      table.rows == old(table.rows)[alertId := StoredUpdate(old(table.rows)[alertId], req, now)]
      && r.value == table.rows[alertId]
  {
    var found := GetAlert(table, alertId, userId);
    if found.Failure? {
      return found;
    }
    var alert := CopyRequested(found.value, req);
    var err := table.Update(alert, now, fail);
    if err.Fail? {
      return Failure("failed to update alert: " + err.error);
    }
    r := table.GetByID(alertId);
  }

  /** Applying the same request twice at the same instant changes nothing more. */
  lemma UpdateIdempotent(row: Alert, req: UpdateAlertRequest, now: int)
    ensures StoredUpdate(StoredUpdate(row, req, now), req, now) == StoredUpdate(row, req, now)
  {
  }

  /** A request with no field set only refreshes updated_at. */
  lemma EmptyUpdateOnlyTouches(row: Alert, now: int)
    ensures StoredUpdate(row, UpdateAlertRequest(None, None, None, None, None, None), now)
         == row.(updatedAt := now)
  {
  }

  /**
   * The status is copied without being checked: a status the backend does not
   * know, such as the client's "inactive", is stored as given.
   */
  lemma UnknownStatusIsStored(row: Alert, req: UpdateAlertRequest, now: int)
    requires req.status == Some("inactive")
    ensures StoredUpdate(row, req, now).status == "inactive"
    ensures ParseStatus(StoredUpdate(row, req, now).status).None?
  {
  }

  /** An empty type or status in the request reaches the table as "keep the old value". */
  lemma EmptyStringsAreIgnored(row: Alert, req: UpdateAlertRequest, now: int)
    requires req.alertType == Some("") && req.status == Some("")
    ensures StoredUpdate(row, req, now).alertType == row.alertType
    ensures StoredUpdate(row, req, now).status == row.status
  {
  }

  /** A yield in an update request is accepted and silently dropped. */
  lemma UpdatedYieldIsNotStored(row: Alert, req: UpdateAlertRequest, now: int)
    requires NoYields(row)
    ensures NoYields(StoredUpdate(row, req, now))
  {
  }

  /** Deletes the caller's alert; someone else's alert or an unknown id fails and changes nothing. */
  method DeleteAlert(table: AlertTable, alertId: string, userId: string, fail: bool) returns (err: Outcome<string>)
    requires table.Valid()
    modifies table
    ensures table.Valid()
    ensures old(GetAlert(table, alertId, userId)).Failure? ==>
      err == Fail(old(GetAlert(table, alertId, userId)).error) && table.rows == old(table.rows)
    ensures err.Pass? <==> old(GetAlert(table, alertId, userId)).Success? && !fail
    ensures table.rows == if err.Pass? then old(table.rows) - {alertId} else old(table.rows)
  {
    var found := GetAlert(table, alertId, userId);
    if found.Failure? {
      return Fail(found.error);
    }
    err := table.Delete(found.value.id, fail);
  }

  // ---- the monitoring tick ----

  /** The threshold is reached: a non-nil threshold at or below the price. */
  predicate Fires(a: Alert, price: real)
  {
    a.thresholdPrice.Some? && price >= a.thresholdPrice.value
  }

  predicate IsPriceAlert(a: Alert) { a.alertType == KindName(PriceThreshold) }

  /** processAlert acts on a: a price alert whose symbol has a quote. */
  predicate Evaluable(a: Alert, env: Env)
  {
    IsPriceAlert(a) && a.stockSymbol in env.quotes
  }

  /** The mail triggerAlert gets accepted for a, if any. */
  function TriggerMail(a: Alert, env: Env): (r: seq<Mail>)
    ensures |r| <= 1
    ensures r != [] ==>
      a.id !in env.triggerWriteFails && a.userId in env.dir.users
      && EmailEnabled(env.dir, env.dir.users[a.userId].id)
  {
    if a.id in env.triggerWriteFails then []
    else
      var user := LookupUser(env.dir, a.userId);
      if user.Failure? || !EmailEnabled(env.dir, user.value.id) then []
      else
        var sent := SendAlertEmail(env.mailer, user.value, a);
        if sent.Success? then [sent.value] else []
  }

  /**
   * The row the table holds for a after processAlert(a), given the row it held
   * before: the price written unless that write is refused, then the triggered
   * status if the threshold is reached and that write is accepted.
   */
  function ProcessedRow(row: Alert, a: Alert, env: Env): Alert
  {
    if !Evaluable(a, env) then row
    else
      var price := env.quotes[a.stockSymbol];
      var priced := if a.id in env.priceWriteFails then row
                    else UpdatedRow(row, a.(currentPrice := Some(price)), env.now);
      if Fires(a, price) && a.id !in env.triggerWriteFails then TriggeredRow(priced, env.now) else priced
  }

  /** The mail processAlert(a) gets accepted, if any. */
  function ProcessedMail(a: Alert, env: Env): (r: seq<Mail>)
    ensures |r| <= 1
  {
    if Evaluable(a, env) && Fires(a, env.quotes[a.stockSymbol])
    then TriggerMail(a.(currentPrice := Some(env.quotes[a.stockSymbol])), env)
    else []
  }

  /**
   * Marks a triggered first; a refused write sends nothing. After a successful
   * write, a missing user or a failed send is only logged.
   */
  method TriggerAlert(table: AlertTable, a: Alert, env: Env) returns (err: Outcome<string>, sent: seq<Mail>)
    requires table.Valid()
    modifies table
    ensures table.Valid()
    ensures err.Fail? <==> a.id in env.triggerWriteFails
    ensures table.rows == if err.Fail? || a.id !in old(table.rows) then old(table.rows)
                          else old(table.rows)[a.id := TriggeredRow(old(table.rows)[a.id], env.now)]
    ensures sent == TriggerMail(a, env)
  {
    sent := [];
    var w := table.TriggerAlert(a.id, env.now, a.id in env.triggerWriteFails);
    if w.Fail? {
      return Fail("failed to trigger alert: " + w.error), [];
    }
    err := Pass;
    var user := LookupUser(env.dir, a.userId);
    if user.Failure? {
      return;
    }
    if EmailEnabled(env.dir, user.value.id) {
      var mail := SendAlertEmail(env.mailer, user.value, a);
      if mail.Success? {
        sent := [mail.value];
      }
    }
  }

  /**
   * Evaluates one alert: anything but a price alert is ignored; a missing quote
   * fails with nothing written; otherwise the price is recorded (a refused write
   * is only logged) and the alert triggered iff the threshold is reached.
   */
  method ProcessAlert(table: AlertTable, a: Alert, env: Env) returns (err: Outcome<string>, sent: seq<Mail>)
    requires table.Valid()
    modifies table
    ensures table.Valid()
    ensures err.Fail? <==>
      IsPriceAlert(a)
      && (a.stockSymbol !in env.quotes || (Fires(a, env.quotes[a.stockSymbol]) && a.id in env.triggerWriteFails))
    ensures table.rows == if a.id in old(table.rows)
                          then old(table.rows)[a.id := ProcessedRow(old(table.rows)[a.id], a, env)]
                          else old(table.rows)
    ensures sent == ProcessedMail(a, env)
  {
    sent := [];
    if a.alertType != KindName(PriceThreshold) {
      return Pass, [];
    }
    if a.stockSymbol !in env.quotes {
      return Fail("failed to get stock price for " + a.stockSymbol + ": stock not found"), [];
    }
    var price := env.quotes[a.stockSymbol];
    var alert := a.(currentPrice := Some(price));
    var _ := table.Update(alert, env.now, a.id in env.priceWriteFails);
    err := Pass;
    if alert.thresholdPrice.Some? && price >= alert.thresholdPrice.value {
      err, sent := TriggerAlert(table, alert, env);
    }
  }

  /** The table after one tick: every active row processed as read, every other row untouched. */
  function Ticked(rows: map<string, Alert>, env: Env): (r: map<string, Alert>)
    ensures r.Keys == rows.Keys
  {
    map id | id in rows :: if IsActive(rows[id]) then ProcessedRow(rows[id], rows[id], env) else rows[id]
  }

  /** The mails a run over alerts gets accepted, in order. */
  function MailsOf(alerts: seq<Alert>, env: Env): seq<Mail>
  {
    if alerts == [] then [] else MailsOf(alerts[..|alerts| - 1], env) + ProcessedMail(alerts[|alerts| - 1], env)
  }

  /** The rows after the alerts whose ids are in done have been processed. */
  ghost function PartlyTicked(rows: map<string, Alert>, done: set<string>, env: Env): map<string, Alert>
  {
    map id | id in rows :: if id in done then ProcessedRow(rows[id], rows[id], env) else rows[id]
  }

  ghost function ActiveIds(rows: map<string, Alert>): set<string>
  {
    set id | id in rows && IsActive(rows[id])
  }

  ghost function IdsOf(s: seq<Alert>): set<string>
  {
    set k | 0 <= k < |s| :: s[k].id
  }

  /**
   * The active rows read in one scan: each is the row stored under its id, no id
   * comes twice, and together they are exactly the active ids.
   */
  lemma ActiveScan(rows: map<string, Alert>, scan: seq<Alert>)
    requires forall id :: id in rows ==> rows[id].id == id
    requires multiset(scan) == multiset(Seqs.Matching(rows, IsActive))
    ensures forall k :: 0 <= k < |scan| ==> scan[k].id in rows && rows[scan[k].id] == scan[k]
    ensures forall j, k :: 0 <= j < k < |scan| ==> scan[j].id != scan[k].id
    ensures IdsOf(scan) == ActiveIds(rows)
  {
    var matching := Seqs.Matching(rows, IsActive);
    forall k | 0 <= k < |scan|
      ensures scan[k].id in rows && rows[scan[k].id] == scan[k] && IsActive(scan[k])
    {
      assert scan[k] in multiset(scan);
    }
    forall j, k | 0 <= j < k < |scan| ensures scan[j].id != scan[k].id {
      Seqs.NoDuplicates(scan, matching, j, k);
    }
    forall id | id in ActiveIds(rows) ensures id in IdsOf(scan) {
      assert rows[id] in matching;
      assert rows[id] in multiset(scan);
      var k :| 0 <= k < |scan| && scan[k] == rows[id];
    }
  }

  /** Processing one more unprocessed alert, as stored, extends the processed set by its id. */
  lemma TickStep(rows: map<string, Alert>, done: set<string>, env: Env, a: Alert)
    requires a.id in rows && rows[a.id] == a && a.id !in done
    ensures PartlyTicked(rows, done, env)[a.id := ProcessedRow(a, a, env)]
         == PartlyTicked(rows, done + {a.id}, env)
  {
  }

  lemma IdsOfSnoc(alerts: seq<Alert>, i: int)
    requires 0 <= i < |alerts|
    ensures IdsOf(alerts[..i + 1]) == IdsOf(alerts[..i]) + {alerts[i].id}
  {
    var p, q := alerts[..i + 1], alerts[..i];
    forall id | id in IdsOf(p) ensures id in IdsOf(q) + {alerts[i].id} {
      var k :| 0 <= k < |p| && p[k].id == id;
      if k < i { assert q[k] == p[k]; }
    }
    forall id | id in IdsOf(q) ensures id in IdsOf(p) {
      var k :| 0 <= k < |q| && q[k].id == id;
      assert p[k] == q[k];
    }
    assert p[i] == alerts[i];
  }

  /** In a scan without repeated ids, the i-th id is not among the first i. */
  lemma NotYetProcessed(alerts: seq<Alert>, i: int)
    requires 0 <= i < |alerts|
    requires forall j, k :: 0 <= j < k < |alerts| ==> alerts[j].id != alerts[k].id
    ensures alerts[i].id !in IdsOf(alerts[..i])
  {
    forall k | 0 <= k < i ensures alerts[..i][k].id != alerts[i].id {
      assert alerts[..i][k] == alerts[k];
    }
  }

  lemma MailsOfSnoc(alerts: seq<Alert>, i: int, env: Env)
    requires 0 <= i < |alerts|
    ensures MailsOf(alerts[..i + 1], env) == MailsOf(alerts[..i], env) + ProcessedMail(alerts[i], env)
  {
    assert alerts[..i + 1][..i] == alerts[..i];
  }

  /** Processing every active row is the whole tick. */
  lemma AllActiveTicked(rows: map<string, Alert>, env: Env)
    ensures PartlyTicked(rows, ActiveIds(rows), env) == Ticked(rows, env)
  {
  }

  /** Processes each alert of a scan of stored rows without repeated ids, in turn. */
  method TickAll(table: AlertTable, processed: seq<Alert>, env: Env) returns (sent: seq<Mail>)
    requires table.Valid()
    requires forall k :: 0 <= k < |processed| ==> processed[k].id in table.rows && table.rows[processed[k].id] == processed[k]
    requires forall j, k :: 0 <= j < k < |processed| ==> processed[j].id != processed[k].id
    modifies table
    ensures table.Valid()
    ensures table.rows == PartlyTicked(old(table.rows), IdsOf(processed), env)
    ensures sent == MailsOf(processed, env)
  {
    ghost var rows0 := table.rows;
    ghost var done: set<string> := {};
    sent := [];
    var i := 0;
    while i < |processed|
      invariant 0 <= i <= |processed|
      invariant table.Valid()
      invariant done == IdsOf(processed[..i])
      invariant table.rows == PartlyTicked(rows0, done, env)
      invariant sent == MailsOf(processed[..i], env)
    {
      var a := processed[i];
      NotYetProcessed(processed, i);
      TickStep(rows0, done, env, a);
      var _, m := ProcessAlert(table, a, env);
      MailsOfSnoc(processed, i, env);
      sent := sent + m;
      done := done + {a.id};
      IdsOfSnoc(processed, i);
      i := i + 1;
    }
    assert processed[..i] == processed;
  }

  /**
   * One tick: reads the active alerts (newest first) and processes each; the
   * error of one alert never stops the others. Only a failed read fails the tick.
   */
  method CheckAlerts(table: AlertTable, env: Env, readFails: bool)
    returns (err: Outcome<string>, processed: seq<Alert>, sent: seq<Mail>)
    requires table.Valid()
    modifies table
    ensures table.Valid()
    ensures err.Fail? <==> readFails
    ensures err.Fail? ==> table.rows == old(table.rows) && sent == []
    ensures err.Pass? ==>
      && multiset(processed) == multiset(Seqs.Matching(old(table.rows), IsActive))
      && NewestFirst(processed)
      && table.rows == Ticked(old(table.rows), env)
      && sent == MailsOf(processed, env)
  {
    var active := table.GetActiveAlerts(readFails);
    if active.Failure? {
      return Fail("failed to get active alerts: " + active.error), [], [];
    }
    processed := active.value;
    ghost var rows0 := table.rows;
    ActiveScan(rows0, processed);
    sent := TickAll(table, processed, env);
    AllActiveTicked(rows0, env);
    err := Pass;
  }

  // ---- what a tick promises ----

  /** A non-price alert, or one without a quote, is left exactly as it was and sends nothing. */
  lemma IgnoredAlertsUnchanged(row: Alert, env: Env)
    requires !Evaluable(row, env)
    ensures ProcessedRow(row, row, env) == row && ProcessedMail(row, env) == []
  {
  }

  /**
   * With the writes accepted, an active price alert with a quote ends the tick
   * triggered iff its threshold is reached (equality fires), and carries the
   * fetched price either way.
   */
  lemma {:induction false} TriggersIffThresholdReached(row: Alert, env: Env)
    requires IsActive(row) && Evaluable(row, env)
    requires row.id !in env.priceWriteFails && row.id !in env.triggerWriteFails
    ensures ProcessedRow(row, row, env).currentPrice == Some(env.quotes[row.stockSymbol])
    ensures ProcessedRow(row, row, env).status == TriggeredName <==> Fires(row, env.quotes[row.stockSymbol])
  {
    RewriteWithPrice(row, env.quotes[row.stockSymbol], env.now);
  }

  /** A refused trigger write sends no mail. */
  lemma RefusedTriggerSendsNothing(a: Alert, env: Env)
    requires a.id in env.triggerWriteFails
    ensures ProcessedMail(a, env) == []
  {
  }

  /** A mail is sent only for an alert the tick has marked triggered. */
  lemma MailOnlyForTriggered(row: Alert, env: Env)
    requires ProcessedMail(row, env) != []
    ensures ProcessedRow(row, row, env).status == TriggeredName
  {
  }

  /** A row that is not active (a triggered one, say) is never evaluated again. */
  lemma InactiveRowsUntouched(rows: map<string, Alert>, env: Env, id: string)
    requires id in rows && !IsActive(rows[id])
    ensures Ticked(rows, env)[id] == rows[id]
  {
  }

  /** A second tick at the same instant and prices triggers nothing new and sends nothing. */
  lemma {:induction false} SecondTickIsQuiet(rows: map<string, Alert>, env: Env, id: string)
    requires id in rows && IsActive(rows[id]) && Evaluable(rows[id], env)
    requires rows[id].id !in env.priceWriteFails && rows[id].id !in env.triggerWriteFails
    requires Fires(rows[id], env.quotes[rows[id].stockSymbol])
    ensures !IsActive(Ticked(rows, env)[id])
  {
    TriggersIffThresholdReached(rows[id], env);
  }
}
