// backend/internal/services/ipo_service.go: creating an IPO announcement and
// notifying every IPO alert about it, and the listing sweep.
module IPOService {
  import opened Wrappers
  import opened Models
  import opened AlertRepository
  import opened IPORepository
  import opened Email
  import opened Notifications
  import Seqs

  const IPOKind: string := KindName(IPOAlert)

  /** The announcement CreateIPOAnnouncement stores: the request's fields, announced. */
  function NewIPO(req: CreateIPORequest, id: string, now: int): (r: IPOAnnouncement)
    ensures r.id == id && r.status == Announced && r.createdAt == now && r.updatedAt == now
    ensures r.companyName == req.companyName && r.symbol == req.symbol && r.sector == req.sector
    ensures r.offerPrice == req.offerPrice && r.listingDate == req.listingDate
  {
    IPOAnnouncement(id, req.companyName, req.symbol, req.sector, req.offerPrice, req.listingDate, Announced, now, now)
  }

  /** IPO alerts are not tied to a stock: every one of them hears about every IPO. */
  function Everyone(): Alert -> bool
  {
    (a: Alert) => true
  }

  function IPOMail(m: Mailer, ipo: IPOAnnouncement, eventType: string): Sender
  {
    (u: User) => SendIPOAlertEmail(m, u, ipo, eventType)
  }

  /** The alert ids a notification about ipo for eventType marks triggered. */
  ghost function NotifiedIds(rows: map<string, Alert>, ipo: IPOAnnouncement, eventType: string,
                             w: World, m: Mailer): set<string>
  {
    set id | id in rows && ActiveOfType(IPOKind)(rows[id])
             && Picked(rows[id], w, IPOMail(m, ipo, eventType), eventType == Announced, Everyone())
  }

  /**
   * triggerIPOAlerts ("announced") and triggerIPOListingAlerts ("listed"): every
   * active IPO alert is notified; a failed read notifies no one.
   */
  method NotifyIPOAlerts(alerts: AlertTable, ipo: IPOAnnouncement, eventType: string,
                         w: World, m: Mailer, readFails: bool)
    returns (notified: seq<Alert>, sent: seq<Mail>)
    requires alerts.Valid()
    modifies alerts
    ensures alerts.Valid()
    ensures readFails ==> alerts.rows == old(alerts.rows) && sent == []
    ensures !readFails ==>
      && multiset(notified) == multiset(Seqs.Matching(old(alerts.rows), ActiveOfType(IPOKind)))
      && alerts.rows == MarkAll(old(alerts.rows), NotifiedIds(old(alerts.rows), ipo, eventType, w, m), w.now)
      && sent == FanOutMails(notified, w, IPOMail(m, ipo, eventType), Everyone())
  {
    notified := [];
    var found := alerts.GetActiveAlertsByType(IPOKind, readFails);
    if found.Failure? {
      return [], [];
    }
    notified := found.value;
    ghost var rows0 := alerts.rows;
    var send := IPOMail(m, ipo, eventType);
    sent := FanOut(alerts, notified, w, send, eventType == Announced, Everyone(), "IPO");
    FanOutOverScan(rows0, ActiveOfType(IPOKind), notified, w, send, eventType == Announced, Everyone());
  }

  /** With a delivered mail and an accepted write, every active IPO alert is marked, whatever its stock. */
  lemma NoSymbolFilter(rows: map<string, Alert>, ipo: IPOAnnouncement, w: World, m: Mailer, id: string)
    requires id in rows && ActiveOfType(IPOKind)(rows[id])
    requires Delivered(rows[id], w, IPOMail(m, ipo, Announced)) && rows[id].id !in w.triggerWriteFails
    ensures id in NotifiedIds(rows, ipo, Announced, w, m)
  {
  }

  /** Stores a new IPO and, only once it is stored, notifies every IPO alert. */
  method CreateIPOAnnouncement(ipos: IPOTable, alerts: AlertTable, req: CreateIPORequest, id: string,
                               w: World, m: Mailer, createFails: bool, readFails: bool)
    returns (r: Result<IPOAnnouncement, string>, sent: seq<Mail>)
    requires ipos.Valid() && alerts.Valid()
    modifies ipos, alerts
    ensures ipos.Valid() && alerts.Valid()
    ensures r.Success? <==> !createFails && id !in old(ipos.rows)
    ensures r.Success? ==> r.value == NewIPO(req, id, w.now)
    ensures ipos.rows == if r.Success? then old(ipos.rows)[id := r.value] else old(ipos.rows)
    ensures r.Failure? ==> alerts.rows == old(alerts.rows) && sent == []
    ensures r.Success? && readFails ==> alerts.rows == old(alerts.rows)
    ensures r.Success? && !readFails ==>
      alerts.rows == MarkAll(old(alerts.rows), NotifiedIds(old(alerts.rows), r.value, Announced, w, m), w.now)
  {
    var ipo := NewIPO(req, id, w.now);
    var err := ipos.Create(ipo, createFails);
    if err.Fail? {
      return Failure("failed to create IPO announcement: " + err.error), [];
    }
    var _, s := NotifyIPOAlerts(alerts, ipo, Announced, w, m, readFails);
    r, sent := Success(ipo), s;
  }

  // ---- the listing sweep ----

  /** checkIPOListings acts on ipo: its listing date is before now and it is still announced. */
  predicate Due(ipo: IPOAnnouncement, now: int)
  {
    ipo.listingDate < now && ipo.status == Announced
  }

  /** ipo is due and its status write is accepted. */
  predicate Lists(ipo: IPOAnnouncement, now: int, statusFails: set<string>)
  {
    Due(ipo, now) && ipo.id !in statusFails
  }

  function ListsAt(now: int, statusFails: set<string>): IPOAnnouncement -> bool
  {
    (ipo: IPOAnnouncement) => Lists(ipo, now, statusFails)
  }

  function IPOId(ipo: IPOAnnouncement): string { ipo.id }

  /** The table with the given IPOs marked listed at now. */
  function ListedRows(rows: map<string, IPOAnnouncement>, ids: set<string>, now: int): (r: map<string, IPOAnnouncement>)
    ensures r.Keys == rows.Keys
  {
    map id | id in rows :: if id in ids then rows[id].(status := Listed, updatedAt := now) else rows[id]
  }

  /** Listing one more IPO extends the set of listed ids by its id. */
  lemma ListedRowsAdd(rows0: map<string, IPOAnnouncement>, done: set<string>, id: string, now: int)
    ensures var rows := ListedRows(rows0, done, now);
      ListedRows(rows0, done + {id}, now) == if id in rows then rows[id := rows[id].(status := Listed, updatedAt := now)] else rows
  {
  }

  /**
   * The listing notices for ipo: none unless it lists (due, write accepted) or
   * when the alert read fails; otherwise one "listed" mail per active IPO alert
   * whose owner wants mail, in the order the alerts are read.
   */
  ghost predicate ListingNotices(alertRows: map<string, Alert>, ipo: IPOAnnouncement, w: World, m: Mailer,
                                 statusFails: set<string>, alertReadFails: bool, sent: seq<Mail>)
  {
    if !Lists(ipo, w.now, statusFails) || alertReadFails then sent == []
    else exists scan: seq<Alert> ::
      && multiset(scan) == multiset(Seqs.Matching(alertRows, ActiveOfType(IPOKind)))
      && sent == FanOutMails(scan, w, IPOMail(m, ipo, Listed), Everyone())
  }

  /** The notices of a sweep over scan: each IPO's listing notices, joined in scan order. */
  ghost predicate SweepNotices(alertRows: map<string, Alert>, scan: seq<IPOAnnouncement>, w: World, m: Mailer,
                               statusFails: set<string>, alertReadFails: bool, sent: seq<Mail>)
  {
    exists parts: seq<seq<Mail>> ::
      && sent == Seqs.Concat(parts)
      && NoticesUpTo(alertRows, scan, |scan|, w, m, statusFails, alertReadFails, parts)
  }

  /** parts holds the listing notices of the first i IPOs of scan, one part each. */
  ghost predicate NoticesUpTo(alertRows: map<string, Alert>, scan: seq<IPOAnnouncement>, i: int, w: World, m: Mailer,
                              statusFails: set<string>, alertReadFails: bool, parts: seq<seq<Mail>>)
  {
    && 0 <= i <= |scan| && |parts| == i
    && forall k :: 0 <= k < i ==> ListingNotices(alertRows, scan[k], w, m, statusFails, alertReadFails, parts[k])
  }

  lemma NoticesUpToSnoc(alertRows: map<string, Alert>, scan: seq<IPOAnnouncement>, i: int, w: World, m: Mailer,
                        statusFails: set<string>, alertReadFails: bool, parts: seq<seq<Mail>>, s: seq<Mail>)
    requires NoticesUpTo(alertRows, scan, i, w, m, statusFails, alertReadFails, parts) && i < |scan|
    requires ListingNotices(alertRows, scan[i], w, m, statusFails, alertReadFails, s)
    ensures NoticesUpTo(alertRows, scan, i + 1, w, m, statusFails, alertReadFails, parts + [s])
  {
    var ps := parts + [s];
    forall k | 0 <= k < i + 1
      ensures ListingNotices(alertRows, scan[k], w, m, statusFails, alertReadFails, ps[k])
    {
      if k < i { assert ps[k] == parts[k]; }
    }
  }

  /**
   * One upcoming IPO: if due, mark it listed and send the listing notices; a
   * refused status write skips the notices. Listing notices never mark an alert.
   */
  method ListIfDue(ipos: IPOTable, alerts: AlertTable, ipo: IPOAnnouncement, w: World, m: Mailer,
                   statusFails: set<string>, alertReadFails: bool) returns (sent: seq<Mail>)
    requires ipos.Valid() && alerts.Valid()
    modifies ipos, alerts
    ensures ipos.Valid() && alerts.Valid()
    ensures alerts.rows == old(alerts.rows)
    ensures ipos.rows == if Lists(ipo, w.now, statusFails) && ipo.id in old(ipos.rows)
                         then old(ipos.rows)[ipo.id := old(ipos.rows)[ipo.id].(status := Listed, updatedAt := w.now)]
                         else old(ipos.rows)
    ensures !Lists(ipo, w.now, statusFails) ==> sent == []
    ensures ListingNotices(old(alerts.rows), ipo, w, m, statusFails, alertReadFails, sent)
  {
    sent := [];
    if ipo.listingDate < w.now && ipo.status == Announced {
      var err := ipos.UpdateStatus(ipo.id, Listed, w.now, ipo.id in statusFails);
      if err.Fail? {
        return;
      }
      ghost var rows0 := alerts.rows;
      var notified, s := NotifyIPOAlerts(alerts, ipo, Listed, w, m, alertReadFails);
      assert NotifiedIds(rows0, ipo, Listed, w, m) == {};
      sent := s;
      if !alertReadFails {
        assert multiset(notified) == multiset(Seqs.Matching(rows0, ActiveOfType(IPOKind)));
      }
    }
  }

  /** One turn of the sweep: ListIfDue, with the set of listed ids it extends. */
  method ListNext(ipos: IPOTable, alerts: AlertTable, ipo: IPOAnnouncement, w: World, m: Mailer,
                  statusFails: set<string>, alertReadFails: bool,
                  ghost rows0: map<string, IPOAnnouncement>, ghost done: set<string>)
    returns (sent: seq<Mail>, ghost done': set<string>)
    requires ipos.Valid() && alerts.Valid() && ipos.rows == ListedRows(rows0, done, w.now)
    modifies ipos, alerts
    ensures ipos.Valid() && alerts.Valid()
    ensures alerts.rows == old(alerts.rows)
    ensures done' == if Lists(ipo, w.now, statusFails) then done + {ipo.id} else done
    ensures ipos.rows == ListedRows(rows0, done', w.now)
    ensures sent != [] ==> Due(ipo, w.now)
    ensures ListingNotices(old(alerts.rows), ipo, w, m, statusFails, alertReadFails, sent)
  {
    sent := ListIfDue(ipos, alerts, ipo, w, m, statusFails, alertReadFails);
    done' := done;
    if Lists(ipo, w.now, statusFails) {
      ListedRowsAdd(rows0, done, ipo.id, w.now);
      done' := done + {ipo.id};
    }
  }

  /** Lists each due IPO of the scan in turn. */
  method ListAll(ipos: IPOTable, alerts: AlertTable, scan: seq<IPOAnnouncement>, w: World, m: Mailer,
                 statusFails: set<string>, alertReadFails: bool) returns (sent: seq<Mail>)
    requires ipos.Valid() && alerts.Valid()
    modifies ipos, alerts
    ensures ipos.Valid() && alerts.Valid()
    ensures alerts.rows == old(alerts.rows)
    ensures ipos.rows == ListedRows(old(ipos.rows),
      (set k | 0 <= k < |scan| && ListsAt(w.now, statusFails)(scan[k]) :: IPOId(scan[k])), w.now)
    ensures sent != [] ==> exists k :: 0 <= k < |scan| && Due(scan[k], w.now)
    ensures SweepNotices(old(alerts.rows), scan, w, m, statusFails, alertReadFails, sent)
  {
    ghost var rows0 := ipos.rows;
    ghost var done: set<string> := {};
    ghost var parts: seq<seq<Mail>> := [];
    sent := [];
    var i := 0;
    while i < |scan|
      invariant 0 <= i <= |scan|
      invariant ipos.Valid() && alerts.Valid()
      invariant alerts.rows == old(alerts.rows)
      invariant done == set k | 0 <= k < i && ListsAt(w.now, statusFails)(scan[k]) :: IPOId(scan[k])
      invariant ipos.rows == ListedRows(rows0, done, w.now)
      invariant sent != [] ==> exists k :: 0 <= k < i && Due(scan[k], w.now)
      invariant sent == Seqs.Concat(parts)
      invariant NoticesUpTo(old(alerts.rows), scan, i, w, m, statusFails, alertReadFails, parts)
    {
      var s;
      s, done := ListNext(ipos, alerts, scan[i], w, m, statusFails, alertReadFails, rows0, done);
      Seqs.KeysSnoc(scan, i, ListsAt(w.now, statusFails), IPOId);
      NoticesUpToSnoc(old(alerts.rows), scan, i, w, m, statusFails, alertReadFails, parts, s);
      Seqs.ConcatSnoc(parts, s);
      parts := parts + [s];
      sent := sent + s;
      i := i + 1;
    }
    assert done == set k | 0 <= k < |scan| && ListsAt(w.now, statusFails)(scan[k]) :: IPOId(scan[k]);
  }

  /** With one clock value no IPO is both upcoming (listing after now) and due (listing before now). */
  lemma UpcomingIsNeverDue(ipo: IPOAnnouncement, now: int)
    requires IsUpcoming(ipo, now)
    ensures !Due(ipo, now)
  {
  }

  /**
   * One sweep: reads the upcoming IPOs and lists each one that is due. Since the
   * read and the check use the same clock, nothing is ever due: the sweep changes
   * no row and sends nothing.
   */
  method CheckIPOListings(ipos: IPOTable, alerts: AlertTable, w: World, m: Mailer,
                          readFails: bool, statusFails: set<string>, alertReadFails: bool)
    returns (err: Outcome<string>, sent: seq<Mail>)
    requires ipos.Valid() && alerts.Valid()
    modifies ipos, alerts
    ensures ipos.Valid() && alerts.Valid()
    ensures err.Fail? <==> readFails
    ensures ipos.rows == old(ipos.rows) && alerts.rows == old(alerts.rows)
    ensures sent == []
  {
    var upcoming := ipos.GetUpcoming(w.now, readFails);
    if upcoming.Failure? {
      return Fail("failed to get upcoming IPOs: " + upcoming.error), [];
    }
    var scan := upcoming.value;
    ghost var rows0 := ipos.rows;
    sent := ListAll(ipos, alerts, scan, w, m, statusFails, alertReadFails);
    forall k | 0 <= k < |scan| ensures !Due(scan[k], w.now) {
      Seqs.ScanMembers(rows0, Upcoming(w.now), scan, k);
      UpcomingIsNeverDue(scan[k], w.now);
    }
    assert (set k | 0 <= k < |scan| && ListsAt(w.now, statusFails)(scan[k]) :: IPOId(scan[k])) == {};
    err := Pass;
  }

  // ---- the sweep as intended ----

  /** The rows the sweep evidently means to look at: every announced IPO. */
  function AnnouncedIPO(): IPOAnnouncement -> bool
  {
    (ipo: IPOAnnouncement) => ipo.status == Announced
  }

  /** The IPOs a corrected sweep at now lists: announced, listing date passed, write accepted. */
  ghost function ListableIds(rows: map<string, IPOAnnouncement>, now: int, statusFails: set<string>): set<string>
  {
    set id | id in rows && ListsAt(now, statusFails)(rows[id])
  }

  /** Over any scan of the announced rows, the ids listed are those ListableIds names. */
  lemma AnnouncedScanIds(rows: map<string, IPOAnnouncement>, scan: seq<IPOAnnouncement>, now: int,
                         statusFails: set<string>)
    requires forall id :: id in rows ==> rows[id].id == id
    requires multiset(scan) == multiset(Seqs.Matching(rows, AnnouncedIPO()))
    ensures (set k | 0 <= k < |scan| && ListsAt(now, statusFails)(scan[k]) :: IPOId(scan[k]))
         == ListableIds(rows, now, statusFails)
  {
    var read := set k | 0 <= k < |scan| && ListsAt(now, statusFails)(scan[k]) :: IPOId(scan[k]);
    var stored := ListableIds(rows, now, statusFails);
    forall x | x in read ensures x in stored {
      var k :| 0 <= k < |scan| && ListsAt(now, statusFails)(scan[k]) && IPOId(scan[k]) == x;
      Seqs.ScanMembers(rows, AnnouncedIPO(), scan, k);
      var id :| id in rows && rows[id] == scan[k];
    }
    forall x | x in stored ensures x in read {
      assert rows[x] in multiset(scan);
      var k :| 0 <= k < |scan| && scan[k] == rows[x];
    }
  }

  /**
   * checkIPOListings as its comment intends ("check if listing date has
   * passed"): the announced IPOs are read, not only those still to list, and
   * each whose listing date has passed is listed and its notices sent.
   */
  method CheckIPOListingsFixed(ipos: IPOTable, alerts: AlertTable, w: World, m: Mailer,
                               readFails: bool, statusFails: set<string>, alertReadFails: bool)
    returns (err: Outcome<string>, sent: seq<Mail>)
    requires ipos.Valid() && alerts.Valid()
    modifies ipos, alerts
    ensures ipos.Valid() && alerts.Valid()
    ensures err.Fail? <==> readFails
    ensures alerts.rows == old(alerts.rows)
    ensures ipos.rows == if readFails then old(ipos.rows)
      else ListedRows(old(ipos.rows), ListableIds(old(ipos.rows), w.now, statusFails), w.now)
    ensures readFails ==> sent == []
    ensures !readFails ==> exists scan: seq<IPOAnnouncement> ::
      && multiset(scan) == multiset(Seqs.Matching(old(ipos.rows), AnnouncedIPO()))
      && SweepNotices(old(alerts.rows), scan, w, m, statusFails, alertReadFails, sent)
  {
    if readFails {
      return Fail("failed to get announced IPOs: " + AlertRepository.DbError), [];
    }
    var scan := Seqs.SelectOrdered(ipos.rows, AnnouncedIPO(), ListingKey);
    ghost var rows0 := ipos.rows;
    sent := ListAll(ipos, alerts, scan, w, m, statusFails, alertReadFails);
    AnnouncedScanIds(rows0, scan, w.now, statusFails);
    err := Pass;
  }

  /**
   * What the corrected sweep achieves: every announced IPO whose listing date
   * has passed and whose write is accepted ends listed, and every other row is
   * as it was.
   */
  lemma FixedSweepListsEveryPastIPO(rows: map<string, IPOAnnouncement>, now: int, statusFails: set<string>, id: string)
    requires id in rows
    ensures var after := ListedRows(rows, ListableIds(rows, now, statusFails), now);
      && (Lists(rows[id], now, statusFails) ==> after[id].status == Listed && after[id].updatedAt == now)
      && (!Lists(rows[id], now, statusFails) ==> after[id] == rows[id])
  {
    assert Lists(rows[id], now, statusFails) <==> id in ListableIds(rows, now, statusFails);
  }

  /**
   * The sweep as written misses such an IPO: announced, listing date one
   * second before now, so due, yet not among the rows GetUpcoming returns;
   * CheckIPOListings therefore leaves it announced.
   */
  lemma SweepAsWrittenMissesPastIPO(ipo: IPOAnnouncement, now: int)
    requires ipo.status == Announced && ipo.listingDate == now - 1
    ensures Due(ipo, now) && !IsUpcoming(ipo, now)
  {
  }
}
