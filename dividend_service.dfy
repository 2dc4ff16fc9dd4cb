// backend/internal/services/dividend_service.go: creating an announcement and
// notifying the dividend alerts about it, the payment sweep, and the two
// queries over the exchange's dividend feed. The feed itself (an HTTP call) is a
// parameter: either the decoded list of stocks or the error that replaced it.
module DividendService {
  import opened Wrappers
  import opened Models
  import opened StockModels
  import opened AlertRepository
  import opened DividendRepository
  import opened Email
  import opened Notifications
  import Seqs

  const DividendKind: string := KindName(DividendAnnouncementAlert)

  /** The announcement CreateDividendAnnouncement stores: the request's fields, announced. */
  function NewDividend(req: CreateDividendRequest, id: string, now: int): (r: DividendAnnouncement)
    ensures r.id == id && r.status == Announced && r.createdAt == now && r.updatedAt == now
    ensures r.stockSymbol == req.stockSymbol && r.stockName == req.stockName
    ensures r.amount == req.amount && r.exDate == req.exDate && r.paymentDate == req.paymentDate
  {
    DividendAnnouncement(id, req.stockSymbol, req.stockName, req.dividendType, req.amount,
                         req.currency, req.exDate, req.paymentDate, Announced, now, now)
  }

  /** An alert hears about d iff it names no stock or names d's stock. */
  predicate Concerns(d: DividendAnnouncement, a: Alert)
  {
    a.stockSymbol == "" || a.stockSymbol == d.stockSymbol
  }

  function ConcernsStock(d: DividendAnnouncement): Alert -> bool
  {
    (a: Alert) => Concerns(d, a)
  }

  function DividendMail(m: Mailer, d: DividendAnnouncement, eventType: string): Sender
  {
    (u: User) => SendDividendAlertEmail(m, u, d, eventType)
  }

  /** The alert ids a notification about d for eventType marks triggered. */
  ghost function NotifiedIds(rows: map<string, Alert>, d: DividendAnnouncement, eventType: string,
                             w: World, m: Mailer): set<string>
  {
    set id | id in rows && ActiveOfType(DividendKind)(rows[id])
             && Picked(rows[id], w, DividendMail(m, d, eventType), eventType == Announced, ConcernsStock(d))
  }

  /**
   * triggerDividendAlerts ("announced") and triggerDividendPaymentAlerts ("paid"):
   * every active dividend alert concerning d's stock is notified; a failed read
   * notifies no one.
   */
  method NotifyDividendAlerts(alerts: AlertTable, d: DividendAnnouncement, eventType: string,
                              w: World, m: Mailer, readFails: bool)
    returns (notified: seq<Alert>, sent: seq<Mail>)
    requires alerts.Valid()
    modifies alerts
    ensures alerts.Valid()
    ensures readFails ==> alerts.rows == old(alerts.rows) && sent == []
    ensures !readFails ==>
      && multiset(notified) == multiset(Seqs.Matching(old(alerts.rows), ActiveOfType(DividendKind)))
      && alerts.rows == MarkAll(old(alerts.rows), NotifiedIds(old(alerts.rows), d, eventType, w, m), w.now)
      && sent == FanOutMails(notified, w, DividendMail(m, d, eventType), ConcernsStock(d))
  {
    notified := [];
    var found := alerts.GetActiveAlertsByType(DividendKind, readFails);
    if found.Failure? {
      return [], [];
    }
    notified := found.value;
    ghost var rows0 := alerts.rows;
    var send := DividendMail(m, d, eventType);
    sent := FanOut(alerts, notified, w, send, eventType == Announced, ConcernsStock(d), "dividend");
    FanOutOverScan(rows0, ActiveOfType(DividendKind), notified, w, send, eventType == Announced, ConcernsStock(d));
  }

  /**
   * Stores a new announcement and, only once it is stored, notifies the dividend
   * alerts of its stock.
   */
  method CreateDividendAnnouncement(dividends: DividendTable, alerts: AlertTable, req: CreateDividendRequest,
                                    id: string, w: World, m: Mailer, createFails: bool, readFails: bool)
    returns (r: Result<DividendAnnouncement, string>, sent: seq<Mail>)
    requires dividends.Valid() && alerts.Valid()
    modifies dividends, alerts
    ensures dividends.Valid() && alerts.Valid()
    ensures r.Success? <==> !createFails && id !in old(dividends.rows)
    ensures r.Success? ==> r.value == NewDividend(req, id, w.now)
    ensures dividends.rows == if r.Success? then old(dividends.rows)[id := r.value] else old(dividends.rows)
    ensures r.Failure? ==> alerts.rows == old(alerts.rows) && sent == []
    ensures r.Success? && readFails ==> alerts.rows == old(alerts.rows)
    ensures r.Success? && !readFails ==>
      alerts.rows == MarkAll(old(alerts.rows), NotifiedIds(old(alerts.rows), r.value, Announced, w, m), w.now)
  {
    var d := NewDividend(req, id, w.now);
    var err := dividends.Create(d, createFails);
    if err.Fail? {
      return Failure("failed to create dividend announcement: " + err.error), [];
    }
    var _, s := NotifyDividendAlerts(alerts, d, Announced, w, m, readFails);
    r, sent := Success(d), s;
  }

  // ---- the payment sweep ----

  /** checkDividendPayments acts on d: its payment date is before now and it is still announced. */
  predicate Due(d: DividendAnnouncement, now: int)
  {
    d.paymentDate < now && d.status == Announced
  }

  predicate PaysOut(d: DividendAnnouncement, now: int, statusFails: set<string>)
  {
    Due(d, now) && d.id !in statusFails
  }

  function PaysOutAt(now: int, statusFails: set<string>): DividendAnnouncement -> bool
  {
    (d: DividendAnnouncement) => PaysOut(d, now, statusFails)
  }

  function DividendId(d: DividendAnnouncement): string { d.id }

  /** The table with the given announcements marked paid at now. */
  function PaidRows(rows: map<string, DividendAnnouncement>, ids: set<string>, now: int): (r: map<string, DividendAnnouncement>)
    ensures r.Keys == rows.Keys
  {
    map id | id in rows :: if id in ids then rows[id].(status := Paid, updatedAt := now) else rows[id]
  }

  /** The announcements a sweep at now marks paid: upcoming, due, and with the write accepted. */
  ghost function PayableIds(rows: map<string, DividendAnnouncement>, now: int, statusFails: set<string>): set<string>
  {
    set id | id in rows && Upcoming(now)(rows[id]) && PaysOutAt(now, statusFails)(rows[id])
  }

  /**
   * The payment notices for d: none unless it pays out or when the alert read
   * fails; otherwise one "paid" mail per still-active dividend alert that
   * concerns d's stock (no stock or d's stock) and whose owner wants mail, in
   * the order the alerts are read.
   */
  ghost predicate PaymentNotices(alertRows: map<string, Alert>, d: DividendAnnouncement, w: World, m: Mailer,
                                 statusFails: set<string>, alertReadFails: bool, sent: seq<Mail>)
  {
    if !PaysOut(d, w.now, statusFails) || alertReadFails then sent == []
    else exists scan: seq<Alert> ::
      && multiset(scan) == multiset(Seqs.Matching(alertRows, ActiveOfType(DividendKind)))
      && sent == FanOutMails(scan, w, DividendMail(m, d, Paid), ConcernsStock(d))
  }

  /** The notices of a whole sweep over scan: each announcement's payment notices, joined in scan order. */
  ghost predicate SweepNotices(alertRows: map<string, Alert>, scan: seq<DividendAnnouncement>, w: World, m: Mailer,
                               statusFails: set<string>, alertReadFails: bool, sent: seq<Mail>)
  {
    exists parts: seq<seq<Mail>> ::
      && sent == Seqs.Concat(parts)
      && NoticesUpTo(alertRows, scan, |scan|, w, m, statusFails, alertReadFails, parts)
  }

  /** parts holds the payment notices of the first i announcements of scan, one part each. */
  ghost predicate NoticesUpTo(alertRows: map<string, Alert>, scan: seq<DividendAnnouncement>, i: int, w: World, m: Mailer,
                              statusFails: set<string>, alertReadFails: bool, parts: seq<seq<Mail>>)
  {
    && 0 <= i <= |scan| && |parts| == i
    && forall k :: 0 <= k < i ==> PaymentNotices(alertRows, scan[k], w, m, statusFails, alertReadFails, parts[k])
  }

  lemma NoticesUpToSnoc(alertRows: map<string, Alert>, scan: seq<DividendAnnouncement>, i: int, w: World, m: Mailer,
                        statusFails: set<string>, alertReadFails: bool, parts: seq<seq<Mail>>, s: seq<Mail>)
    requires NoticesUpTo(alertRows, scan, i, w, m, statusFails, alertReadFails, parts) && i < |scan|
    requires PaymentNotices(alertRows, scan[i], w, m, statusFails, alertReadFails, s)
    ensures NoticesUpTo(alertRows, scan, i + 1, w, m, statusFails, alertReadFails, parts + [s])
  {
    var ps := parts + [s];
    forall k | 0 <= k < i + 1
      ensures PaymentNotices(alertRows, scan[k], w, m, statusFails, alertReadFails, ps[k])
    {
      if k < i { assert ps[k] == parts[k]; }
    }
  }

  /**
   * One upcoming announcement: if due, mark it paid and send the payment notices;
   * a refused status write skips the notices. Payment notices never mark an alert.
   */
  method PayIfDue(dividends: DividendTable, alerts: AlertTable, d: DividendAnnouncement, w: World, m: Mailer,
                  statusFails: set<string>, alertReadFails: bool) returns (sent: seq<Mail>)
    requires dividends.Valid() && alerts.Valid()
    modifies dividends, alerts
    ensures dividends.Valid() && alerts.Valid()
    ensures alerts.rows == old(alerts.rows)
    ensures dividends.rows == if PaysOut(d, w.now, statusFails) && d.id in old(dividends.rows)
                              then old(dividends.rows)[d.id := old(dividends.rows)[d.id].(status := Paid, updatedAt := w.now)]
                              else old(dividends.rows)
    ensures !PaysOut(d, w.now, statusFails) ==> sent == []
    ensures PaymentNotices(old(alerts.rows), d, w, m, statusFails, alertReadFails, sent)
  {
    sent := [];
    if d.paymentDate < w.now && d.status == Announced {
      var err := dividends.UpdateStatus(d.id, Paid, w.now, d.id in statusFails);
      if err.Fail? {
        return;
      }
      ghost var rows0 := alerts.rows;
      var notified, s := NotifyDividendAlerts(alerts, d, Paid, w, m, alertReadFails);
      assert NotifiedIds(rows0, d, Paid, w, m) == {};
      sent := s;
      if !alertReadFails {
        assert multiset(notified) == multiset(Seqs.Matching(rows0, ActiveOfType(DividendKind)));
      }
    }
  }

  /** Paying out one more announcement extends the set of paid ids by its id. */
  lemma PaidRowsAdd(rows0: map<string, DividendAnnouncement>, done: set<string>, id: string, now: int)
    ensures var rows := PaidRows(rows0, done, now);
      PaidRows(rows0, done + {id}, now) == if id in rows then rows[id := rows[id].(status := Paid, updatedAt := now)] else rows
  {
  }

  /** Over a scan of the upcoming rows, the ids paid out are those PayableIds names. */
  lemma SweepOverScan(rows: map<string, DividendAnnouncement>, scan: seq<DividendAnnouncement>, now: int,
                      statusFails: set<string>)
    requires forall id :: id in rows ==> rows[id].id == id
    requires multiset(scan) == multiset(Seqs.Matching(rows, Upcoming(now)))
    ensures (set k | 0 <= k < |scan| && PaysOutAt(now, statusFails)(scan[k]) :: DividendId(scan[k]))
         == PayableIds(rows, now, statusFails)
  {
    var read := set k | 0 <= k < |scan| && PaysOutAt(now, statusFails)(scan[k]) :: DividendId(scan[k]);
    var stored := PayableIds(rows, now, statusFails);
    forall x | x in read ensures x in stored {
      var k :| 0 <= k < |scan| && PaysOutAt(now, statusFails)(scan[k]) && DividendId(scan[k]) == x;
      Seqs.ScanMembers(rows, Upcoming(now), scan, k);
      var id :| id in rows && rows[id] == scan[k];
    }
    forall x | x in stored ensures x in read {
      assert rows[x] in multiset(scan);
      var k :| 0 <= k < |scan| && scan[k] == rows[x];
    }
  }

  /** One turn of the sweep: PayIfDue, with the set of paid ids it extends. */
  method PayNext(dividends: DividendTable, alerts: AlertTable, d: DividendAnnouncement, w: World, m: Mailer,
                 statusFails: set<string>, alertReadFails: bool,
                 ghost rows0: map<string, DividendAnnouncement>, ghost done: set<string>)
    returns (sent: seq<Mail>, ghost done': set<string>)
    requires dividends.Valid() && alerts.Valid() && dividends.rows == PaidRows(rows0, done, w.now)
    modifies dividends, alerts
    ensures dividends.Valid() && alerts.Valid()
    ensures alerts.rows == old(alerts.rows)
    ensures done' == if PaysOut(d, w.now, statusFails) then done + {d.id} else done
    ensures dividends.rows == PaidRows(rows0, done', w.now)
    ensures sent != [] ==> Due(d, w.now)
    ensures PaymentNotices(old(alerts.rows), d, w, m, statusFails, alertReadFails, sent)
  {
    sent := PayIfDue(dividends, alerts, d, w, m, statusFails, alertReadFails);
    done' := done;
    if PaysOut(d, w.now, statusFails) {
      PaidRowsAdd(rows0, done, d.id, w.now);
      done' := done + {d.id};
    }
  }

  /** Pays out each due announcement of the scan in turn. */
  method PayAll(dividends: DividendTable, alerts: AlertTable, scan: seq<DividendAnnouncement>, w: World, m: Mailer,
                statusFails: set<string>, alertReadFails: bool) returns (sent: seq<Mail>)
    requires dividends.Valid() && alerts.Valid()
    modifies dividends, alerts
    ensures dividends.Valid() && alerts.Valid()
    ensures alerts.rows == old(alerts.rows)
    ensures dividends.rows == PaidRows(old(dividends.rows),
      (set k | 0 <= k < |scan| && PaysOutAt(w.now, statusFails)(scan[k]) :: DividendId(scan[k])), w.now)
    ensures sent != [] ==> exists k :: 0 <= k < |scan| && Due(scan[k], w.now)
    ensures SweepNotices(old(alerts.rows), scan, w, m, statusFails, alertReadFails, sent)
  {
    ghost var rows0 := dividends.rows;
    ghost var done: set<string> := {};
    ghost var parts: seq<seq<Mail>> := [];
    sent := [];
    var i := 0;
    while i < |scan|
      invariant 0 <= i <= |scan|
      invariant dividends.Valid() && alerts.Valid()
      invariant alerts.rows == old(alerts.rows)
      invariant done == set k | 0 <= k < i && PaysOutAt(w.now, statusFails)(scan[k]) :: DividendId(scan[k])
      invariant dividends.rows == PaidRows(rows0, done, w.now)
      invariant sent != [] ==> exists k :: 0 <= k < i && Due(scan[k], w.now)
      invariant sent == Seqs.Concat(parts)
      invariant NoticesUpTo(old(alerts.rows), scan, i, w, m, statusFails, alertReadFails, parts)
    {
      var s;
      s, done := PayNext(dividends, alerts, scan[i], w, m, statusFails, alertReadFails, rows0, done);
      Seqs.KeysSnoc(scan, i, PaysOutAt(w.now, statusFails), DividendId);
      NoticesUpToSnoc(old(alerts.rows), scan, i, w, m, statusFails, alertReadFails, parts, s);
      Seqs.ConcatSnoc(parts, s);
      parts := parts + [s];
      sent := sent + s;
      i := i + 1;
    }
    assert done == set k | 0 <= k < |scan| && PaysOutAt(w.now, statusFails)(scan[k]) :: DividendId(scan[k]);
  }

  /**
   * One sweep: reads the upcoming announcements and pays out each one that is
   * due. Exactly the upcoming, due announcements whose write is accepted become
   * paid; no alert changes.
   */
  method CheckDividendPayments(dividends: DividendTable, alerts: AlertTable, w: World, m: Mailer,
                               readFails: bool, statusFails: set<string>, alertReadFails: bool)
    returns (err: Outcome<string>, sent: seq<Mail>)
    requires dividends.Valid() && alerts.Valid()
    modifies dividends, alerts
    ensures dividends.Valid() && alerts.Valid()
    ensures err.Fail? <==> readFails
    ensures alerts.rows == old(alerts.rows)
    ensures dividends.rows == if readFails then old(dividends.rows)
      else PaidRows(old(dividends.rows), PayableIds(old(dividends.rows), w.now, statusFails), w.now)
    ensures sent != [] ==>
      exists id :: id in old(dividends.rows) && IsUpcoming(old(dividends.rows)[id], w.now)
                   && Due(old(dividends.rows)[id], w.now)
    ensures readFails ==> sent == []
    ensures !readFails ==> exists scan: seq<DividendAnnouncement> ::
      && multiset(scan) == multiset(Seqs.Matching(old(dividends.rows), Upcoming(w.now)))
      && SweepNotices(old(alerts.rows), scan, w, m, statusFails, alertReadFails, sent)
  {
    var upcoming := dividends.GetUpcoming(w.now, readFails);
    if upcoming.Failure? {
      return Fail("failed to get upcoming dividends: " + upcoming.error), [];
    }
    var scan := upcoming.value;
    ghost var rows0 := dividends.rows;
    sent := PayAll(dividends, alerts, scan, w, m, statusFails, alertReadFails);
    SweepOverScan(rows0, scan, w.now, statusFails);
    if sent != [] {
      ghost var k :| 0 <= k < |scan| && Due(scan[k], w.now);
      Seqs.ScanMembers(rows0, Upcoming(w.now), scan, k);
      ghost var id :| id in rows0 && rows0[id] == scan[k];
    }
    err := Pass;
  }

  /**
   * With one clock value, an upcoming announcement (ex-dividend date after now)
   * whose payment date is not before its ex-dividend date is never due.
   */
  lemma UpcomingOnTimeIsNeverDue(d: DividendAnnouncement, now: int)
    requires IsUpcoming(d, now) && d.paymentDate >= d.exDate
    ensures !Due(d, now)
  {
  }

  /** So a sweep over announcements that all pay on or after their ex-dividend date marks nothing. */
  lemma {:induction false} SweepIsInertForOnTimeDividends(rows: map<string, DividendAnnouncement>, now: int,
                                                         statusFails: set<string>)
    requires forall id :: id in rows ==> rows[id].paymentDate >= rows[id].exDate
    ensures PaidRows(rows, PayableIds(rows, now, statusFails), now) == rows
  {
    forall id | id in rows && IsUpcoming(rows[id], now) ensures !Due(rows[id], now) {
      UpcomingOnTimeIsNeverDue(rows[id], now);
    }
  }

  // ---- the payment sweep as intended ----

  /** The rows the sweep evidently means to look at: every announced dividend. */
  function AnnouncedDividend(): DividendAnnouncement -> bool
  {
    (d: DividendAnnouncement) => d.status == Announced
  }

  /** The dividends a corrected sweep at now pays: announced, payment date passed, write accepted. */
  ghost function DueIds(rows: map<string, DividendAnnouncement>, now: int, statusFails: set<string>): set<string>
  {
    set id | id in rows && PaysOutAt(now, statusFails)(rows[id])
  }

  /** Over any scan of the announced rows, the ids paid are those DueIds names. */
  lemma AnnouncedScanIds(rows: map<string, DividendAnnouncement>, scan: seq<DividendAnnouncement>, now: int,
                         statusFails: set<string>)
    requires forall id :: id in rows ==> rows[id].id == id
    requires multiset(scan) == multiset(Seqs.Matching(rows, AnnouncedDividend()))
    ensures (set k | 0 <= k < |scan| && PaysOutAt(now, statusFails)(scan[k]) :: DividendId(scan[k]))
         == DueIds(rows, now, statusFails)
  {
    var read := set k | 0 <= k < |scan| && PaysOutAt(now, statusFails)(scan[k]) :: DividendId(scan[k]);
    var stored := DueIds(rows, now, statusFails);
    forall x | x in read ensures x in stored {
      var k :| 0 <= k < |scan| && PaysOutAt(now, statusFails)(scan[k]) && DividendId(scan[k]) == x;
      Seqs.ScanMembers(rows, AnnouncedDividend(), scan, k);
      var id :| id in rows && rows[id] == scan[k];
    }
    forall x | x in stored ensures x in read {
      assert rows[x] in multiset(scan);
      var k :| 0 <= k < |scan| && scan[k] == rows[x];
    }
  }

  /**
   * checkDividendPayments as its comment intends ("check if payment date has
   * passed"): the announced dividends are read, not only those before their
   * ex-dividend date, and each whose payment date has passed is paid and its
   * notices sent.
   */
  method CheckDividendPaymentsFixed(dividends: DividendTable, alerts: AlertTable, w: World, m: Mailer,
                                    readFails: bool, statusFails: set<string>, alertReadFails: bool)
    returns (err: Outcome<string>, sent: seq<Mail>)
    requires dividends.Valid() && alerts.Valid()
    modifies dividends, alerts
    ensures dividends.Valid() && alerts.Valid()
    ensures err.Fail? <==> readFails
    ensures alerts.rows == old(alerts.rows)
    ensures dividends.rows == if readFails then old(dividends.rows)
      else PaidRows(old(dividends.rows), DueIds(old(dividends.rows), w.now, statusFails), w.now)
    ensures readFails ==> sent == []
    ensures !readFails ==> exists scan: seq<DividendAnnouncement> ::
      && multiset(scan) == multiset(Seqs.Matching(old(dividends.rows), AnnouncedDividend()))
      && SweepNotices(old(alerts.rows), scan, w, m, statusFails, alertReadFails, sent)
  {
    if readFails {
      return Fail("failed to get announced dividends: " + AlertRepository.DbError), [];
    }
    var scan := Seqs.SelectOrdered(dividends.rows, AnnouncedDividend(), ExDateKey);
    ghost var rows0 := dividends.rows;
    sent := PayAll(dividends, alerts, scan, w, m, statusFails, alertReadFails);
    AnnouncedScanIds(rows0, scan, w.now, statusFails);
    err := Pass;
  }

  /**
   * What the corrected sweep achieves: every announced dividend whose payment
   * date has passed and whose write is accepted ends paid, and every other row
   * is as it was.
   */
  lemma FixedSweepPaysEveryPastDividend(rows: map<string, DividendAnnouncement>, now: int, statusFails: set<string>,
                                        id: string)
    requires id in rows
    ensures var after := PaidRows(rows, DueIds(rows, now, statusFails), now);
      && (PaysOut(rows[id], now, statusFails) ==> after[id].status == Paid && after[id].updatedAt == now)
      && (!PaysOut(rows[id], now, statusFails) ==> after[id] == rows[id])
  {
    assert PaysOut(rows[id], now, statusFails) <==> id in DueIds(rows, now, statusFails);
  }

  // ---- the dividend feed ----

  /** The first stock of the feed with exactly that symbol (case-sensitive). */
  method GetDividendStockBySymbol(feed: Result<seq<GSEDividendStock>, string>, symbol: string)
    returns (r: Result<GSEDividendStock, string>)
    ensures feed.Failure? ==> r == Failure(feed.error)
    ensures feed.Success? ==> (r.Success? <==> exists i :: 0 <= i < |feed.value| && feed.value[i].symbol == symbol)
    ensures r.Success? ==>
      && feed.Success? && r.value.symbol == symbol
      && exists i :: 0 <= i < |feed.value| && feed.value[i] == r.value
                     && forall j :: 0 <= j < i ==> feed.value[j].symbol != symbol
    ensures feed.Success? && r.Failure? ==> r.error == "stock with symbol " + symbol + " not found in dividend data"
  {
    if feed.Failure? {
      return Failure(feed.error);
    }
    var stocks := feed.value;
    var i := 0;
    while i < |stocks|
      invariant 0 <= i <= |stocks|
      invariant forall j :: 0 <= j < i ==> stocks[j].symbol != symbol
    {
      if stocks[i].symbol == symbol {
        return Success(stocks[i]);
      }
      i := i + 1;
    }
    r := Failure("stock with symbol " + symbol + " not found in dividend data");
  }

  function YieldAtLeast(minYield: real): GSEDividendStock -> bool
  {
    (s: GSEDividendStock) => s.dividendYield >= minYield
  }

  /** The feed's stocks with a yield of at least minYield, in feed order. */
  method GetHighDividendYieldStocks(feed: Result<seq<GSEDividendStock>, string>, minYield: real)
    returns (r: Result<seq<GSEDividendStock>, string>)
    ensures feed.Failure? ==> r == Failure(feed.error)
    ensures feed.Success? ==> r == Success(Seqs.Filter(feed.value, YieldAtLeast(minYield)))
  {
    if feed.Failure? {
      return Failure(feed.error);
    }
    var stocks := feed.value;
    var high: seq<GSEDividendStock> := [];
    var i := 0;
    while i < |stocks|
      invariant 0 <= i <= |stocks|
      invariant high == Seqs.Filter(stocks[..i], YieldAtLeast(minYield))
    {
      Seqs.FilterAppend(stocks[..i], [stocks[i]], YieldAtLeast(minYield));
      assert stocks[..i + 1] == stocks[..i] + [stocks[i]];
      if stocks[i].dividendYield >= minYield {
        high := high + [stocks[i]];
      }
      i := i + 1;
    }
    assert stocks[..i] == stocks;
    r := Success(high);
  }

  /** The high-yield list holds exactly the feed's stocks at or above the bound, in feed order. */
  lemma HighYieldIsExact(stocks: seq<GSEDividendStock>, minYield: real, s: GSEDividendStock)
    ensures s in Seqs.Filter(stocks, YieldAtLeast(minYield)) <==> s in stocks && s.dividendYield >= minYield
    ensures Seqs.IsSubsequence(Seqs.Filter(stocks, YieldAtLeast(minYield)), stocks)
  {
    Seqs.FilterMembers(stocks, YieldAtLeast(minYield), s);
    Seqs.FilterIsSubsequence(stocks, YieldAtLeast(minYield));
  }
}
