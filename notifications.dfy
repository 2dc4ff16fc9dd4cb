// The notification step dividend_service.go and ipo_service.go share
// (notifyDividendAlert, notifyIPOAlert) and the loop over active alerts that calls
// it. The mail itself is a Sender: the Send* function of Email bound to the
// announcement and the event.
module Notifications {
  import opened Wrappers
  import opened Models
  import opened AlertRepository
  import opened Users
  import opened Email

  /** The clock, the user directory and the alert ids whose trigger write is refused. */
  datatype World = World(now: int, dir: Directory, triggerWriteFails: set<string>)

  type Sender = User -> Result<Mail, string>

  /** The notify call returns without error: the owner loads and, if email is on, the mail is accepted. */
  predicate Delivered(a: Alert, w: World, send: Sender)
  {
    a.userId in w.dir.users
    && (!EmailEnabled(w.dir, w.dir.users[a.userId].id) || send(w.dir.users[a.userId]).Success?)
  }

  /** The notify call marks a triggered: an announcement, delivered, with the write accepted. */
  predicate Marks(a: Alert, w: World, send: Sender, announced: bool)
  {
    announced && Delivered(a, w, send) && a.id !in w.triggerWriteFails
  }

  /** The mail accepted for a, if any. */
  function NotifyMail(a: Alert, w: World, send: Sender): (r: seq<Mail>)
    ensures |r| <= 1
    ensures r != [] ==> Delivered(a, w, send) && EmailEnabled(w.dir, w.dir.users[a.userId].id)
  {
    if a.userId !in w.dir.users then []
    else
      var u := w.dir.users[a.userId];
      if EmailEnabled(w.dir, u.id) && send(u).Success? then [send(u).value] else []
  }

  /**
   * Notifies a's owner: a user that does not load fails; a mail that is not
   * accepted fails before the trigger write; only an announcement marks the
   * alert triggered, and a refused trigger write is only logged.
   */
  method Notify(table: AlertTable, a: Alert, w: World, send: Sender, announced: bool, what: string)
    returns (err: Outcome<string>, sent: seq<Mail>)
    requires table.Valid()
    modifies table
    ensures table.Valid()
    ensures err.Pass? <==> Delivered(a, w, send)
    ensures a.userId !in w.dir.users ==> err == Fail("failed to get user: " + NoRows)
    ensures sent == NotifyMail(a, w, send)
    ensures table.rows == if Marks(a, w, send, announced) && a.id in old(table.rows)
                          then old(table.rows)[a.id := TriggeredRow(old(table.rows)[a.id], w.now)]
                          else old(table.rows)
  {
    var user := LookupUser(w.dir, a.userId);
    if user.Failure? {
      return Fail("failed to get user: " + user.error), [];
    }
    sent := [];
    if EmailEnabled(w.dir, user.value.id) {
      var mail := send(user.value);
      if mail.Failure? {
        return Fail("failed to send " + what + " alert email: " + mail.error), [];
      }
      sent := [mail.value];
    }
    if announced {
      var _ := table.TriggerAlert(a.id, w.now, a.id in w.triggerWriteFails);
    }
    err := Pass;
  }

  /** A mail the server refuses leaves the alert active. */
  lemma RefusedMailBlocksTrigger(a: Alert, w: World, send: Sender, announced: bool)
    requires a.userId in w.dir.users && EmailEnabled(w.dir, w.dir.users[a.userId].id)
    requires send(w.dir.users[a.userId]).Failure?
    ensures !Marks(a, w, send, announced) && NotifyMail(a, w, send) == []
  {
  }

  /** Without a preferences row the owner is mailed. */
  lemma MissingPreferencesMeanEmail(a: Alert, w: World, send: Sender)
    requires a.userId in w.dir.users && w.dir.users[a.userId].id !in w.dir.emailPrefs
    requires send(w.dir.users[a.userId]).Success?
    ensures NotifyMail(a, w, send) == [send(w.dir.users[a.userId]).value]
  {
  }

  // ---- the loop over the active alerts ----

  /** The ids among alerts that the run marks triggered. */
  ghost function MarkedIds(alerts: seq<Alert>, w: World, send: Sender, announced: bool, wanted: Alert -> bool): set<string>
  {
    set k | 0 <= k < |alerts| && Picked(alerts[k], w, send, announced, wanted) :: alerts[k].id
  }

  predicate Picked(a: Alert, w: World, send: Sender, announced: bool, wanted: Alert -> bool)
  {
    wanted(a) && Marks(a, w, send, announced)
  }

  /** The rows with the given ids marked triggered at now. */
  function MarkAll(rows: map<string, Alert>, ids: set<string>, now: int): (r: map<string, Alert>)
    ensures r.Keys == rows.Keys
  {
    map id | id in rows :: if id in ids then TriggeredRow(rows[id], now) else rows[id]
  }

  /** The mails the run gets accepted, in order. */
  function FanOutMails(alerts: seq<Alert>, w: World, send: Sender, wanted: Alert -> bool): seq<Mail>
  {
    if alerts == [] then []
    else FanOutMails(alerts[..|alerts| - 1], w, send, wanted)
         + (if wanted(alerts[|alerts| - 1]) then NotifyMail(alerts[|alerts| - 1], w, send) else [])
  }

  lemma MarkedIdsSnoc(alerts: seq<Alert>, i: int, w: World, send: Sender, announced: bool, wanted: Alert -> bool)
    requires 0 <= i < |alerts|
    ensures MarkedIds(alerts[..i + 1], w, send, announced, wanted)
         == MarkedIds(alerts[..i], w, send, announced, wanted)
            + (if Picked(alerts[i], w, send, announced, wanted) then {alerts[i].id} else {})
  {
    var p, q := alerts[..i + 1], alerts[..i];
    var P, Q := MarkedIds(p, w, send, announced, wanted), MarkedIds(q, w, send, announced, wanted);
    var extra := if Picked(alerts[i], w, send, announced, wanted) then {alerts[i].id} else {};
    forall x | x in P ensures x in Q + extra {
      var k :| 0 <= k < |p| && Picked(p[k], w, send, announced, wanted) && p[k].id == x;
      if k < i { assert q[k] == p[k]; }
    }
    forall x | x in Q + extra ensures x in P {
      if x in Q {
        var k :| 0 <= k < |q| && Picked(q[k], w, send, announced, wanted) && q[k].id == x;
        assert p[k] == q[k];
      } else {
        assert p[i] == alerts[i];
      }
    }
  }

  /** Marking an id once more, on rows where it may already be marked, is marking it in the set. */
  lemma MarkStep(rows: map<string, Alert>, ids: set<string>, now: int, id: string)
    ensures (if id in rows then MarkAll(rows, ids, now)[id := TriggeredRow(MarkAll(rows, ids, now)[id], now)]
             else MarkAll(rows, ids, now))
         == MarkAll(rows, ids + {id}, now)
  {
  }

  lemma FanOutMailsSnoc(alerts: seq<Alert>, i: int, w: World, send: Sender, wanted: Alert -> bool)
    requires 0 <= i < |alerts|
    ensures FanOutMails(alerts[..i + 1], w, send, wanted)
         == FanOutMails(alerts[..i], w, send, wanted)
            + (if wanted(alerts[i]) then NotifyMail(alerts[i], w, send) else [])
  {
    assert alerts[..i + 1][..i] == alerts[..i];
  }

  /** One turn of the fan-out: a wanted alert is notified, any other skipped. */
  method NotifyIfWanted(table: AlertTable, a: Alert, w: World, send: Sender, announced: bool,
                        wanted: Alert -> bool, what: string, ghost rows0: map<string, Alert>, ghost ids: set<string>)
    returns (sent: seq<Mail>)
    requires table.Valid() && table.rows == MarkAll(rows0, ids, w.now)
    modifies table
    ensures table.Valid()
    ensures table.rows == MarkAll(rows0, ids + (if Picked(a, w, send, announced, wanted) then {a.id} else {}), w.now)
    ensures sent == if wanted(a) then NotifyMail(a, w, send) else []
  {
    sent := [];
    if wanted(a) {
      var _, m := Notify(table, a, w, send, announced, what);
      MarkStep(rows0, ids, w.now, a.id);
      sent := m;
    } else {
      assert ids + {} == ids;
    }
  }

  /**
   * Notifies the owner of every wanted alert in turn; one failure never stops
   * the rest. The table ends with exactly the marked ids triggered.
   */
  method FanOut(table: AlertTable, alerts: seq<Alert>, w: World, send: Sender, announced: bool,
                wanted: Alert -> bool, what: string) returns (sent: seq<Mail>)
    requires table.Valid()
    modifies table
    ensures table.Valid()
    ensures table.rows == MarkAll(old(table.rows), MarkedIds(alerts, w, send, announced, wanted), w.now)
    ensures sent == FanOutMails(alerts, w, send, wanted)
  {
    ghost var rows0 := table.rows;
    sent := [];
    var i := 0;
    while i < |alerts|
      invariant 0 <= i <= |alerts|
      invariant table.Valid()
      invariant table.rows == MarkAll(rows0, MarkedIds(alerts[..i], w, send, announced, wanted), w.now)
      invariant sent == FanOutMails(alerts[..i], w, send, wanted)
    {
      MarkedIdsSnoc(alerts, i, w, send, announced, wanted);
      FanOutMailsSnoc(alerts, i, w, send, wanted);
      var m := NotifyIfWanted(table, alerts[i], w, send, announced, wanted, what, rows0,
                              MarkedIds(alerts[..i], w, send, announced, wanted));
      sent := sent + m;
      i := i + 1;
    }
    assert alerts[..i] == alerts;
  }

  /**
   * Run over a scan of the rows satisfying p, the fan-out marks exactly the stored
   * rows satisfying p that are picked.
   */
  lemma FanOutOverScan(rows: map<string, Alert>, p: Alert -> bool, scan: seq<Alert>, w: World, send: Sender,
                       announced: bool, wanted: Alert -> bool)
    requires forall id :: id in rows ==> rows[id].id == id
    requires multiset(scan) == multiset(Seqs.Matching(rows, p))
    ensures MarkedIds(scan, w, send, announced, wanted)
         == set id | id in rows && p(rows[id]) && Picked(rows[id], w, send, announced, wanted)
  {
    var read := MarkedIds(scan, w, send, announced, wanted);
    var stored := set id | id in rows && p(rows[id]) && Picked(rows[id], w, send, announced, wanted);
    forall x | x in read ensures x in stored {
      var k :| 0 <= k < |scan| && Picked(scan[k], w, send, announced, wanted) && scan[k].id == x;
      Seqs.ScanMembers(rows, p, scan, k);
      var id :| id in rows && rows[id] == scan[k];
    }
    forall x | x in stored ensures x in read {
      assert rows[x] in multiset(scan);
      var k :| 0 <= k < |scan| && scan[k] == rows[x];
    }
  }

  /** Only an announcement marks anything: any other event leaves every row as it was. */
  lemma {:induction false} OnlyAnnouncementsMark(rows: map<string, Alert>, alerts: seq<Alert>, w: World,
                                                 send: Sender, wanted: Alert -> bool)
    ensures MarkAll(rows, MarkedIds(alerts, w, send, false, wanted), w.now) == rows
  {
    assert MarkedIds(alerts, w, send, false, wanted) == {};
  }

  /**
   * Once marked, an alert is no longer active, so a later fan-out over the active
   * alerts never reaches it.
   */
  lemma MarkedLeaveTheActiveSet(rows: map<string, Alert>, ids: set<string>, now: int, t: string, id: string)
    requires forall x :: x in rows ==> rows[x].id == x
    requires id in ids && id in rows
    ensures forall a :: a in Seqs.Matching(MarkAll(rows, ids, now), ActiveOfType(t)) ==> a.id != id
  {
    var after := MarkAll(rows, ids, now);
    forall a | a in Seqs.Matching(after, ActiveOfType(t)) ensures a.id != id {
      var x :| x in after && after[x] == a;
      assert a.id == x;
    }
  }
}
