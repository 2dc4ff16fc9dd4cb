// backend/internal/services/dividend_scraper_service.go: turning scraped
// dividend-yield rows into dividend announcements. The headless-browser scrape
// itself is a parameter (its rows, or a failure).
module DividendScraper {
  import opened Wrappers
  import opened Models
  import opened AlertRepository
  import opened DividendRepository
  import opened DividendService
  import opened Email
  import opened Notifications
  import Text

  /** One scraped row, every field as the page shows it. */
  datatype ScrapedDividend = ScrapedDividend(ticker: string, name: string, divYield: string,
                                             lastPrice: string, industry: string)

  /** The five rows used whenever the real scrape fails. */
  function MockDividendData(): (r: seq<ScrapedDividend>)
    ensures |r| == 5
  {
    [ ScrapedDividend("GCB", "GCB Bank Limited", "10.4%", "GH₵4.20", "Banks"),
      ScrapedDividend("ACCESS", "Access Bank Ghana", "8.5%", "GH₵16.37", "Banks"),
      ScrapedDividend("CAL", "CAL Bank Limited", "7.2%", "GH₵0.95", "Banks"),
      ScrapedDividend("TOTAL", "Total Petroleum Ghana", "10.1%", "GH₵3.45", "Energy"),
      ScrapedDividend("MTN", "MTN Ghana", "6.8%", "GH₵0.82", "Telecom") ]
  }

  const CediPrefix: string := "GH₵"

  /** The yield in percent: the text without a trailing '%', read as a number. */
  function ParseYield(s: string): Option<real>
  {
    Text.ParseDecimal(Text.TrimSuffix(s, "%"))
  }

  /** The price: the text without a leading cedi sign and without commas, read as a number. */
  function ParsePrice(s: string): Option<real>
  {
    Text.ParseDecimal(Text.RemoveChar(Text.TrimPrefix(s, CediPrefix), ','))
  }

  /**
   * What the page shows reads back: a two-decimal yield with its '%' sign, and
   * a two-decimal price behind the cedi sign, each give the number rendered.
   */
  lemma ScrapedNumbersReadBack(x: real)
    ensures ParseYield(Text.Fixed2(x) + "%") == Some(Text.SignedCents(x))
    ensures ParsePrice(CediPrefix + Text.Fixed2(x)) == Some(Text.SignedCents(x))
  {
    var t := Text.Fixed2(x);
    Text.Fixed2Parses(x);
    assert (t + "%")[|t + "%"| - 1..] == "%";
    assert Text.TrimSuffix(t + "%", "%") == t;
    assert CediPrefix <= CediPrefix + t;
    assert Text.TrimPrefix(CediPrefix + t, CediPrefix) == t;
    Text.Fixed2HasNoComma(x);
    Text.RemoveAbsentChar(t, ',');
  }

  /** The estimated dividend per share: the price times the yield in percent. */
  function Amount(price: real, yieldPercent: real): real
  {
    price * yieldPercent / 100.0
  }

  /** Rows with no yield, or with exactly "0%", are skipped before parsing. */
  predicate NoYield(item: ScrapedDividend) { item.divYield == "" || item.divYield == "0%" }

  /**
   * The announcement request one scraped row yields, if any: a cash dividend in
   * GHS of price × yield / 100, going ex in 30 days and paying in 45.
   */
  function Normalise(item: ScrapedDividend, now: int): (r: Option<CreateDividendRequest>)
    ensures r.Some? <==> !NoYield(item) && ParseYield(item.divYield).Some? && ParsePrice(item.lastPrice).Some?
    ensures r.Some? ==>
      && r.value.stockSymbol == item.ticker && r.value.stockName == item.name
      && r.value.dividendType == "cash" && r.value.currency == "GHS"
      && r.value.amount == Amount(ParsePrice(item.lastPrice).value, ParseYield(item.divYield).value)
      && r.value.exDate == now + 30 * Day && r.value.paymentDate == now + 45 * Day
  {
    var yieldPercent := ParseYield(item.divYield);
    var price := ParsePrice(item.lastPrice);
    if NoYield(item) || yieldPercent.None? || price.None? then None
    else Some(CreateDividendRequest(item.ticker, item.name, "cash", Amount(price.value, yieldPercent.value), "GHS",
                                    now + 30 * Day, now + 45 * Day))
  }

  /** "0%" is skipped, but "0.0%" is not: it gives an announcement of amount 0. */
  lemma ZeroPercentSpellings(item: ScrapedDividend, now: int)
    requires ParsePrice(item.lastPrice).Some?
    ensures item.divYield == "0%" ==> Normalise(item, now).None?
    ensures item.divYield == "0.0%" ==> Normalise(item, now).Some? && Normalise(item, now).value.amount == 0.0
  {
    if item.divYield == "0.0%" {
      ZeroPointZeroYield();
    }
  }

  lemma ZeroPointZeroYield()
    ensures ParseYield("0.0%") == Some(0.0)
  {
    var t := Text.TrimSuffix("0.0%", "%");
    assert "0.0%"[3..] == "%";
    assert t + "%" == "0.0%";
    assert t == (t + "%")[..3] == "0" + "." + "0";
    Text.ParseUnsignedPoint("0", "0");
    assert "0" + "." + "0" == "0.0";
    assert Text.DigitsValue("0") == 0;
    assert Text.DecimalValue("0", "0") == 0.0;
    assert Text.ParseUnsignedDecimal("0.0") == Some(0.0);
    Text.ParseSigned(false, "0.0");
    assert ("" + "0.0") == "0.0";
    assert Text.ParseDecimal("0.0") == Some(0.0);
  }

  /** Scraped announcements pay 15 days after going ex, so the payment sweep never pays them out. */
  lemma ScrapedAreNeverPaid(item: ScrapedDividend, id: string, created: int, now: int)
    requires Normalise(item, created).Some?
    requires IsUpcoming(NewDividend(Normalise(item, created).value, id, created), now)
    ensures !Due(NewDividend(Normalise(item, created).value, id, created), now)
  {
    var d := NewDividend(Normalise(item, created).value, id, created);
    UpcomingOnTimeIsNeverDue(d, now);
  }

  // ---- the batch ----

  /** An announcement for symbol created in the 7 days before now. */
  predicate IsRecent(d: DividendAnnouncement, symbol: string, now: int)
  {
    d.stockSymbol == symbol && d.createdAt > now - 7 * Day
  }

  predicate Recent(rows: map<string, DividendAnnouncement>, symbol: string, now: int)
  {
    exists k :: k in rows && IsRecent(rows[k], symbol, now)
  }

  /** after keeps every row of before as it was. */
  predicate Extends(before: map<string, DividendAnnouncement>, after: map<string, DividendAnnouncement>)
  {
    forall k :: k in before ==> k in after && after[k] == before[k]
  }

  /** Alerts only ever become triggered at now; no row appears or disappears. */
  predicate OnlyMarked(before: map<string, Alert>, after: map<string, Alert>, now: int)
  {
    after.Keys == before.Keys && forall id :: id in after ==> after[id] == before[id] || after[id] == TriggeredRow(before[id], now)
  }

  lemma MarkAllOnlyMarks(rows: map<string, Alert>, ids: set<string>, now: int)
    ensures OnlyMarked(rows, MarkAll(rows, ids, now), now)
  {
  }

  lemma OnlyMarkedTrans(a: map<string, Alert>, b: map<string, Alert>, c: map<string, Alert>, now: int)
    requires OnlyMarked(a, b, now) && OnlyMarked(b, c, now)
    ensures OnlyMarked(a, c, now)
  {
    forall id | id in c ensures c[id] == a[id] || c[id] == TriggeredRow(a[id], now) {
      assert id in b;
      if b[id] != a[id] {
        var t := TriggeredRow(a[id], now);
        assert b[id] == t;
        assert TriggeredRow(t, now) == t;
      }
    }
  }

  /** The "hasRecent" loop: scans the rows for the symbol and stops at the first recent one. */
  method HasRecent(existing: seq<DividendAnnouncement>, now: int) returns (b: bool)
    ensures b <==> exists i :: 0 <= i < |existing| && existing[i].createdAt > now - 7 * Day
  {
    b := false;
    var i := 0;
    while i < |existing|
      invariant 0 <= i <= |existing|
      invariant forall j :: 0 <= j < i ==> existing[j].createdAt <= now - 7 * Day
    {
      if existing[i].createdAt > now - 7 * Day {
        return true;
      }
      i := i + 1;
    }
  }

  /** A scan of the symbol's rows has a recent one iff the table has one. */
  lemma ScanRecent(rows: map<string, DividendAnnouncement>, symbol: string, scan: seq<DividendAnnouncement>, now: int)
    requires forall k :: k in rows ==> rows[k].id == k
    requires multiset(scan) == multiset(Seqs.Matching(rows, ForSymbol(symbol)))
    ensures (exists i :: 0 <= i < |scan| && scan[i].createdAt > now - 7 * Day) <==> Recent(rows, symbol, now)
  {
    if exists i :: 0 <= i < |scan| && scan[i].createdAt > now - 7 * Day {
      var i :| 0 <= i < |scan| && scan[i].createdAt > now - 7 * Day;
      Seqs.ScanMembers(rows, ForSymbol(symbol), scan, i);
      var k :| k in rows && rows[k] == scan[i];
      assert IsRecent(rows[k], symbol, now);
    }
    if Recent(rows, symbol, now) {
      var k :| k in rows && IsRecent(rows[k], symbol, now);
      assert rows[k] in Seqs.Matching(rows, ForSymbol(symbol));
      assert rows[k] in multiset(scan);
      var i :| 0 <= i < |scan| && scan[i] == rows[k];
    }
  }

  /**
   * One scraped row: normalise it; unless the table (as the lookup saw it) holds
   * a recent announcement for its ticker, create one under id. A failed lookup
   * counts as "none recent"; a failed creation is only logged.
   */
  method ProcessItem(dividends: DividendTable, alerts: AlertTable, item: ScrapedDividend, id: string,
                     w: World, m: Mailer, lookupFails: bool, createFails: bool, alertReadFails: bool)
    requires dividends.Valid() && alerts.Valid()
    modifies dividends, alerts
    ensures dividends.Valid() && alerts.Valid()
    ensures ItemStep(old(dividends.rows), dividends.rows, item, id, !lookupFails, w.now)
    ensures forall k :: k in dividends.rows ==> k in old(dividends.rows) || k == id
    ensures Normalise(item, w.now).Some? && !createFails && id !in old(dividends.rows) ==>
      Recent(dividends.rows, item.ticker, w.now)
    ensures OnlyMarked(old(alerts.rows), alerts.rows, w.now)
  {
    var req := Normalise(item, w.now);
    if req.None? {
      return;
    }
    var found := dividends.GetBySymbol(item.ticker, lookupFails);
    var existing := if found.Success? then found.value else [];
    var hasRecent := HasRecent(existing, w.now);
    if found.Success? {
      ScanRecent(dividends.rows, item.ticker, existing, w.now);
    }
    if !hasRecent {
      ghost var alerts0 := alerts.rows;
      var r, _ := CreateDividendAnnouncement(dividends, alerts, req.value, id, w, m, createFails, alertReadFails);
      if r.Success? && !alertReadFails {
        MarkAllOnlyMarks(alerts0, DividendService.NotifiedIds(alerts0, r.value, Announced, w, m), w.now);
      }
      if r.Success? {
        assert IsRecent(dividends.rows[id], item.ticker, w.now);
      }
    }
  }

  /** A table that extends another keeps its recent announcements. */
  lemma RecentPersists(a: map<string, DividendAnnouncement>, b: map<string, DividendAnnouncement>, symbol: string, now: int)
    requires Extends(a, b) && Recent(a, symbol, now)
    ensures Recent(b, symbol, now)
  {
    var k :| k in a && IsRecent(a[k], symbol, now);
    assert k in b && IsRecent(b[k], symbol, now);
  }

  /** The row a scraped item i creates under its id. */
  ghost predicate CreatedFrom(data: seq<ScrapedDividend>, ids: seq<string>, k: string, d: DividendAnnouncement, now: int)
    requires |ids| == |data|
  {
    exists i :: 0 <= i < |data| && ids[i] == k && Normalise(data[i], now).Some?
                && d == NewDividend(Normalise(data[i], now).value, k, now)
  }

  /** k names a row of rows that rows0 did not have. */
  predicate Added(rows0: map<string, DividendAnnouncement>, rows: map<string, DividendAnnouncement>, k: string)
  {
    k in rows && k !in rows0
  }

  ghost predicate AllCreatedFrom(data: seq<ScrapedDividend>, ids: seq<string>, rows0: map<string, DividendAnnouncement>,
                           rows: map<string, DividendAnnouncement>, now: int)
    requires |ids| == |data|
  {
    forall k :: Added(rows0, rows, k) ==> CreatedFrom(data, ids, k, rows[k], now)
  }

  /** No added row repeats a ticker that was recent before the batch. */
  ghost predicate NoneWasRecent(rows0: map<string, DividendAnnouncement>, rows: map<string, DividendAnnouncement>, now: int)
  {
    forall k :: Added(rows0, rows, k) ==> !Recent(rows0, rows[k].stockSymbol, now)
  }

  /** No two added rows share a ticker. */
  ghost predicate DistinctTickers(rows0: map<string, DividendAnnouncement>, rows: map<string, DividendAnnouncement>)
  {
    forall k1, k2 :: Added(rows0, rows, k1) && Added(rows0, rows, k2) && rows[k1].stockSymbol == rows[k2].stockSymbol ==>
      k1 == k2
  }

  /** Item j parses, its creation is not refused, and its id is new to the table and to the batch. */
  predicate Creatable(data: seq<ScrapedDividend>, ids: seq<string>, createFails: set<int>,
                      rows0: map<string, DividendAnnouncement>, j: int, now: int)
    requires |ids| == |data| && 0 <= j < |data|
  {
    Normalise(data[j], now).Some? && j !in createFails && ids[j] !in rows0 && ids[j] !in ids[..j]
  }

  /** Every creatable item among the first n has a recent announcement for its ticker in rows. */
  ghost predicate Covered(data: seq<ScrapedDividend>, ids: seq<string>, createFails: set<int>,
                    rows0: map<string, DividendAnnouncement>, rows: map<string, DividendAnnouncement>, n: int, now: int)
    requires |ids| == |data| && 0 <= n <= |data|
  {
    forall j :: 0 <= j < n && Creatable(data, ids, createFails, rows0, j, now) ==> Recent(rows, data[j].ticker, now)
  }

  /**
   * processDividendData: each scraped row in turn, under the id ids[i]; it
   * always succeeds. Rows are only added, each built from a scraped row; with
   * working lookups none duplicates a recent announcement, old or new; and each
   * row that parses ends with a recent announcement for its ticker unless its
   * creation was refused.
   */
  method ProcessDividendData(dividends: DividendTable, alerts: AlertTable, data: seq<ScrapedDividend>,
                             ids: seq<string>, w: World, m: Mailer,
                             lookupFails: set<int>, createFails: set<int>, alertReadFails: bool)
    returns (err: Outcome<string>)
    requires |ids| == |data|
    requires dividends.Valid() && alerts.Valid()
    modifies dividends, alerts
    ensures err == Pass
    ensures dividends.Valid() && alerts.Valid()
    ensures Extends(old(dividends.rows), dividends.rows)
    ensures AllCreatedFrom(data, ids, old(dividends.rows), dividends.rows, w.now)
    ensures lookupFails == {} ==> NoneWasRecent(old(dividends.rows), dividends.rows, w.now)
    ensures lookupFails == {} ==> DistinctTickers(old(dividends.rows), dividends.rows)
    ensures Covered(data, ids, createFails, old(dividends.rows), dividends.rows, |data|, w.now)
    ensures OnlyMarked(old(alerts.rows), alerts.rows, w.now)
  {
    ghost var rows0 := dividends.rows;
    var i := 0;
    while i < |data|
      invariant 0 <= i <= |data|
      invariant dividends.Valid() && alerts.Valid()
      invariant Extends(rows0, dividends.rows)
      invariant forall k :: Added(rows0, dividends.rows, k) ==> k in ids[..i] && dividends.rows[k].createdAt == w.now
      invariant AllCreatedFrom(data, ids, rows0, dividends.rows, w.now)
      invariant lookupFails == {} ==> NoneWasRecent(rows0, dividends.rows, w.now)
      invariant lookupFails == {} ==> DistinctTickers(rows0, dividends.rows)
      invariant Covered(data, ids, createFails, rows0, dividends.rows, i, w.now)
      invariant OnlyMarked(old(alerts.rows), alerts.rows, w.now)
    {
      ghost var before := dividends.rows;
      ghost var alertsBefore := alerts.rows;
      ProcessItem(dividends, alerts, data[i], ids[i], w, m, i in lookupFails, i in createFails, alertReadFails);
      OnlyMarkedTrans(old(alerts.rows), alertsBefore, alerts.rows, w.now);
      StepAdded(rows0, before, dividends.rows, data, ids, i, i !in lookupFails, w.now);
      if lookupFails == {} {
        StepNoneWasRecent(rows0, before, dividends.rows, data[i], ids[i], w.now);
        StepDistinct(rows0, before, dividends.rows, data, ids, i, w.now);
      }
      StepCovered(rows0, before, dividends.rows, data, ids, createFails, i, w.now);
      i := i + 1;
    }
    err := Pass;
  }

  /** The rows one item adds: at most its own id, built from it; under a working lookup, only if its ticker had no recent row. */
  ghost predicate ItemStep(before: map<string, DividendAnnouncement>, after: map<string, DividendAnnouncement>,
                     item: ScrapedDividend, id: string, lookupOk: bool, now: int)
  {
    && Extends(before, after)
    && (forall k :: Added(before, after, k) ==>
          && k == id && Normalise(item, now).Some?
          && after[k] == NewDividend(Normalise(item, now).value, k, now)
          && (lookupOk ==> !Recent(before, item.ticker, now)))
  }

  lemma StepAdded(rows0: map<string, DividendAnnouncement>, before: map<string, DividendAnnouncement>,
                  after: map<string, DividendAnnouncement>, data: seq<ScrapedDividend>, ids: seq<string>,
                  i: int, lookupOk: bool, now: int)
    requires |ids| == |data| && 0 <= i < |data|
    requires ItemStep(before, after, data[i], ids[i], lookupOk, now)
    requires Extends(rows0, before)
    requires forall k :: Added(rows0, before, k) ==> k in ids[..i] && before[k].createdAt == now
    requires AllCreatedFrom(data, ids, rows0, before, now)
    ensures Extends(rows0, after)
    ensures forall k :: Added(rows0, after, k) ==> k in ids[..i + 1] && after[k].createdAt == now
    ensures AllCreatedFrom(data, ids, rows0, after, now)
  {
    assert ids[..i + 1] == ids[..i] + [ids[i]];
    forall k | Added(rows0, after, k) ensures CreatedFrom(data, ids, k, after[k], now) {
      if k !in before {
        assert ids[i] == k;
      }
    }
  }

  lemma StepNoneWasRecent(rows0: map<string, DividendAnnouncement>, before: map<string, DividendAnnouncement>,
                          after: map<string, DividendAnnouncement>, item: ScrapedDividend, id: string, now: int)
    requires Extends(rows0, before)
    requires ItemStep(before, after, item, id, true, now)
    requires NoneWasRecent(rows0, before, now)
    ensures NoneWasRecent(rows0, after, now)
  {
    forall k | Added(rows0, after, k) ensures !Recent(rows0, after[k].stockSymbol, now) {
      if k !in before && Recent(rows0, after[k].stockSymbol, now) {
        RecentPersists(rows0, before, after[k].stockSymbol, now);
      }
    }
  }

  lemma StepDistinct(rows0: map<string, DividendAnnouncement>, before: map<string, DividendAnnouncement>,
                     after: map<string, DividendAnnouncement>, data: seq<ScrapedDividend>, ids: seq<string>,
                     i: int, now: int)
    requires |ids| == |data| && 0 <= i < |data|
    requires ItemStep(before, after, data[i], ids[i], true, now)
    requires forall k :: Added(rows0, before, k) ==> before[k].createdAt == now
    requires DistinctTickers(rows0, before)
    ensures DistinctTickers(rows0, after)
  {
    forall k1, k2 | Added(rows0, after, k1) && Added(rows0, after, k2) && after[k1].stockSymbol == after[k2].stockSymbol
      ensures k1 == k2
    {
      if k1 !in before && k2 in before {
        assert IsRecent(before[k2], data[i].ticker, now);
      } else if k2 !in before && k1 in before {
        assert IsRecent(before[k1], data[i].ticker, now);
      }
    }
  }

  lemma StepCovered(rows0: map<string, DividendAnnouncement>, before: map<string, DividendAnnouncement>,
                    after: map<string, DividendAnnouncement>, data: seq<ScrapedDividend>, ids: seq<string>,
                    createFails: set<int>, i: int, now: int)
    requires |ids| == |data| && 0 <= i < |data|
    requires Extends(before, after)
    requires forall k :: Added(rows0, before, k) ==> k in ids[..i]
    requires Covered(data, ids, createFails, rows0, before, i, now)
    requires Normalise(data[i], now).Some? && i !in createFails && ids[i] !in before ==> Recent(after, data[i].ticker, now)
    ensures Covered(data, ids, createFails, rows0, after, i + 1, now)
  {
    forall j | 0 <= j < i + 1 && Creatable(data, ids, createFails, rows0, j, now)
      ensures Recent(after, data[j].ticker, now)
    {
      if j < i {
        RecentPersists(before, after, data[j].ticker, now);
      } else {
        assert ids[i] !in before;
      }
    }
  }

  /**
   * ScrapeDividends: the scraped rows, or the five mock rows when scraping
   * fails, are processed; the result is always nil.
   */
  method ScrapeDividends(dividends: DividendTable, alerts: AlertTable, scraped: Result<seq<ScrapedDividend>, string>,
                         ids: seq<string>, w: World, m: Mailer,
                         lookupFails: set<int>, createFails: set<int>, alertReadFails: bool)
    returns (err: Outcome<string>, processed: seq<ScrapedDividend>)
    requires |ids| == |if scraped.Success? then scraped.value else MockDividendData()|
    requires dividends.Valid() && alerts.Valid()
    modifies dividends, alerts
    ensures err == Pass
    ensures processed == if scraped.Success? then scraped.value else MockDividendData()
    ensures dividends.Valid() && alerts.Valid()
    ensures Extends(old(dividends.rows), dividends.rows)
    ensures AllCreatedFrom(processed, ids, old(dividends.rows), dividends.rows, w.now)
    ensures OnlyMarked(old(alerts.rows), alerts.rows, w.now)
  {
    processed := if scraped.Success? then scraped.value else MockDividendData();
    err := ProcessDividendData(dividends, alerts, processed, ids, w, m, lookupFails, createFails, alertReadFails);
  }
}
