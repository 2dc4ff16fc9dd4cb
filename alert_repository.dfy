// The `alerts` table of backend/internal/repository/alert_repository.go, held as a
// map from id to row. A database refusal is the `fail` argument of each call: a
// refused statement changes nothing. The table has no yield columns, so yields
// are never stored.
module AlertRepository {
  import opened Wrappers
  import opened Models
  import Seqs

  const DbError: string := "database error"
  const NoRows: string := "sql: no rows in result set"

  /** A row as the table can hold it: no yield column is ever stored. */
  predicate NoYields(a: Alert)
  {
    a.thresholdYield.None? && a.currentYield.None? && a.targetYield.None?
    && a.yieldChangeThreshold.None? && a.lastYield.None?
  }

  /** The columns Create inserts; everything else reads back as NULL. */
  function Persisted(a: Alert): (r: Alert)
    ensures NoYields(r) && r.triggeredAt.None?
    ensures r.id == a.id && r.userId == a.userId && r.stockSymbol == a.stockSymbol
    ensures r.stockName == a.stockName && r.alertType == a.alertType && r.status == a.status
    ensures r.thresholdPrice == a.thresholdPrice && r.currentPrice == a.currentPrice
    ensures r.createdAt == a.createdAt && r.updatedAt == a.updatedAt
  {
    a.(thresholdYield := None, currentYield := None, targetYield := None,
       yieldChangeThreshold := None, lastYield := None, triggeredAt := None)
  }

  /** One `column = ?` part of Update's SET clause. No yield column has one. */
  datatype Assignment =
    | SetUpdatedAt(at: int)
    | SetAlertType(alertType: string)
    | SetThresholdPrice(price: real)
    | SetCurrentPrice(price: real)
    | SetStatus(status: string)
    | SetTriggeredAt(at: int)

  function Assign(row: Alert, p: Assignment): Alert
  {
    match p
    case SetUpdatedAt(t) => row.(updatedAt := t)
    case SetAlertType(s) => row.(alertType := s)
    case SetThresholdPrice(x) => row.(thresholdPrice := Some(x))
    case SetCurrentPrice(x) => row.(currentPrice := Some(x))
    case SetStatus(s) => row.(status := s)
    case SetTriggeredAt(t) => row.(triggeredAt := Some(t))
  }

  /** The row after `UPDATE alerts SET parts`. */
  function ApplyAll(row: Alert, parts: seq<Assignment>): Alert
  {
    if parts == [] then row else Assign(ApplyAll(row, parts[..|parts| - 1]), parts[|parts| - 1])
  }

  /**
   * The row Update leaves behind: updated_at becomes now, and each of type,
   * threshold price, current price, status and triggered_at is written only when
   * the caller's value is non-empty or non-nil.
   */
  function UpdatedRow(row: Alert, a: Alert, now: int): (r: Alert)
    ensures r.updatedAt == now
    ensures r.id == row.id && r.userId == row.userId && r.stockSymbol == row.stockSymbol
    ensures r.stockName == row.stockName && r.createdAt == row.createdAt
    // a column can be overwritten but never cleared
    ensures row.thresholdPrice.Some? ==> r.thresholdPrice.Some?
    ensures row.currentPrice.Some? ==> r.currentPrice.Some?
    ensures row.triggeredAt.Some? ==> r.triggeredAt.Some?
    ensures row.alertType != "" ==> r.alertType != ""
    ensures row.status != "" ==> r.status != ""
    // no yield column is written
    ensures r.thresholdYield == row.thresholdYield && r.currentYield == row.currentYield
    ensures r.targetYield == row.targetYield && r.lastYield == row.lastYield
    ensures r.yieldChangeThreshold == row.yieldChangeThreshold
  {
    row.(updatedAt := now,
         alertType := if a.alertType != "" then a.alertType else row.alertType,
         thresholdPrice := if a.thresholdPrice.Some? then a.thresholdPrice else row.thresholdPrice,
         currentPrice := if a.currentPrice.Some? then a.currentPrice else row.currentPrice,
         status := if a.status != "" then a.status else row.status,
         triggeredAt := if a.triggeredAt.Some? then a.triggeredAt else row.triggeredAt)
  }

  /** Writing a row's own values back, with a new current price, changes only that price and updated_at. */
  lemma RewriteWithPrice(row: Alert, price: real, now: int)
    ensures UpdatedRow(row, row.(currentPrice := Some(price)), now)
         == row.(currentPrice := Some(price), updatedAt := now)
  {
  }

  /** Rows newest first, as `ORDER BY created_at DESC` returns them. */
  ghost predicate NewestFirst(s: seq<Alert>)
  {
    forall i, j :: 0 <= i < j < |s| ==> s[i].createdAt >= s[j].createdAt
  }

  function NewestKey(a: Alert): real { -(a.createdAt as real) }

  predicate IsActive(a: Alert) { a.status == ActiveName }

  /** The rows GetActiveAlertsByType selects. */
  function ActiveOfType(t: string): Alert -> bool
  {
    (a: Alert) => IsActive(a) && a.alertType == t
  }

  /** The filters GetByUserID accepts; an empty string means the filter is absent. */
  datatype Filters = Filters(status: string, stockSymbol: string, alertType: string)

  predicate MatchesFilters(a: Alert, userId: string, f: Filters)
  {
    a.userId == userId
    && (f.status == "" || a.status == f.status)
    && (f.stockSymbol == "" || a.stockSymbol == f.stockSymbol)
    && (f.alertType == "" || a.alertType == f.alertType)
  }

  /**
   * Builds Update's SET clause one part at a time: updated_at always first, then
   * each optional column in the order the statement lists them. Applied to any
   * row (here `row`), the clause yields UpdatedRow.
   */
  method BuildSetClause(a: Alert, now: int, ghost row: Alert) returns (parts: seq<Assignment>)
    ensures |parts| >= 1 && parts[0] == SetUpdatedAt(now)
    ensures ApplyAll(row, parts) == UpdatedRow(row, a, now)
  {
    parts := [SetUpdatedAt(now)];
    ghost var cur := FirstPart(row, now);
    parts, cur := AddPart(parts, row, cur, if a.alertType != "" then Some(SetAlertType(a.alertType)) else None);
    parts, cur := AddPart(parts, row, cur,
      if a.thresholdPrice.Some? then Some(SetThresholdPrice(a.thresholdPrice.value)) else None);
    parts, cur := AddPart(parts, row, cur,
      if a.currentPrice.Some? then Some(SetCurrentPrice(a.currentPrice.value)) else None);
    parts, cur := AddPart(parts, row, cur, if a.status != "" then Some(SetStatus(a.status)) else None);
    parts, cur := AddPart(parts, row, cur,
      if a.triggeredAt.Some? then Some(SetTriggeredAt(a.triggeredAt.value)) else None);
  }

  /** One optional part of the clause: appended only when its value is present. */
  method AddPart(parts: seq<Assignment>, ghost row: Alert, ghost cur: Alert, p: Option<Assignment>)
    returns (r: seq<Assignment>, ghost next: Alert)
    requires ApplyAll(row, parts) == cur
    ensures r == if p.Some? then parts + [p.value] else parts
    ensures |parts| >= 1 ==> |r| >= 1 && r[0] == parts[0]
    ensures ApplyAll(row, r) == next
    ensures next == if p.Some? then Assign(cur, p.value) else cur
  {
    r := parts;
    next := cur;
    if p.Some? {
      r := parts + [p.value];
      next := Step(row, r, cur);
    }
  }

  /** updated_at alone. */
  lemma FirstPart(row: Alert, now: int) returns (cur: Alert)
    ensures cur == ApplyAll(row, [SetUpdatedAt(now)]) == row.(updatedAt := now)
  {
    assert [SetUpdatedAt(now)][..0] == [];
    cur := row.(updatedAt := now);
  }

  /** The row after one more part: the previous row with that part assigned. */
  lemma Step(row: Alert, parts: seq<Assignment>, prev: Alert) returns (next: Alert)
    requires |parts| >= 1 && ApplyAll(row, parts[..|parts| - 1]) == prev
    ensures next == ApplyAll(row, parts) == Assign(prev, parts[|parts| - 1])
  {
    next := Assign(prev, parts[|parts| - 1]);
  }

  /** The rows GetByUserID selects. */
  function OwnedAndFiltered(userId: string, f: Filters): Alert -> bool
  {
    (a: Alert) => MatchesFilters(a, userId, f)
  }

  class AlertTable {
    var rows: map<string, Alert>

    /** Rows are keyed by their id and carry no yields. */
    ghost predicate Valid()
      reads this
    {
      forall id :: id in rows ==> rows[id].id == id && NoYields(rows[id])
    }

    constructor ()
      ensures Valid() && rows == map[]
    {
      rows := map[];
    }

    /** `SELECT ... WHERE id = ?`. */
    function GetByID(id: string): (r: Result<Alert, string>)
      reads this
      ensures r.Success? <==> id in rows
      ensures r.Success? ==> r.value == rows[id]
    {
      if id in rows then Success(rows[id]) else Failure(NoRows)
    }

    /** Inserts the persisted columns of a; a duplicate id violates the primary key. */
    method Create(a: Alert, fail: bool) returns (err: Outcome<string>)
      requires Valid()
      modifies this
      ensures Valid()
      ensures err.Pass? <==> !fail && a.id !in old(rows)
      ensures rows == if err.Pass? then old(rows)[a.id := Persisted(a)] else old(rows)
    {
      if fail || a.id in rows {
        return Fail(DbError);
      }
      rows := rows[a.id := Persisted(a)];
      err := Pass;
    }

    /**
     * The owner's rows narrowed by each non-empty filter, newest first: every
     * such row exactly once and no other.
     */
    method GetByUserID(userId: string, filters: Filters, fail: bool) returns (r: Result<seq<Alert>, string>)
      ensures r.Failure? <==> fail
      ensures r.Success? ==>
        multiset(r.value) == multiset(Seqs.Matching(rows, OwnedAndFiltered(userId, filters)))
        && NewestFirst(r.value)
    {
      if fail {
        return Failure(DbError);
      }
      var found := Seqs.SelectOrdered(rows, OwnedAndFiltered(userId, filters), NewestKey);
      r := Success(found);
    }

    /** Exactly the active rows, newest first. */
    method GetActiveAlerts(fail: bool) returns (r: Result<seq<Alert>, string>)
      ensures r.Failure? <==> fail
      ensures r.Success? ==>
        multiset(r.value) == multiset(Seqs.Matching(rows, IsActive))
        && NewestFirst(r.value)
    {
      if fail {
        return Failure(DbError);
      }
      var found := Seqs.SelectOrdered(rows, IsActive, NewestKey);
      r := Success(found);
    }

    /** Exactly the active rows of kind t, newest first. */
    method GetActiveAlertsByType(t: string, fail: bool) returns (r: Result<seq<Alert>, string>)
      ensures r.Failure? <==> fail
      ensures r.Success? ==>
        multiset(r.value) == multiset(Seqs.Matching(rows, ActiveOfType(t)))
        && NewestFirst(r.value)
    {
      if fail {
        return Failure(DbError);
      }
      var found := Seqs.SelectOrdered(rows, ActiveOfType(t), NewestKey);
      r := Success(found);
    }

    /**
     * `UPDATE alerts SET ... WHERE id = ?`: the row with a's id becomes
     * UpdatedRow; an unknown id matches nothing and is not an error.
     */
    method Update(a: Alert, now: int, fail: bool) returns (err: Outcome<string>)
      requires Valid()
      modifies this
      ensures Valid()
      ensures err == if fail then Fail(DbError) else Pass
      ensures rows == if fail || a.id !in old(rows) then old(rows)
                      else old(rows)[a.id := UpdatedRow(old(rows)[a.id], a, now)]
    {
      var parts := BuildSetClause(a, now, if a.id in rows then rows[a.id] else a);
      if fail {
        return Fail(DbError);
      }
      if a.id in rows {
        rows := rows[a.id := ApplyAll(rows[a.id], parts)];
      }
      err := Pass;
    }

    /** Removes exactly the row with that id. */
    method Delete(id: string, fail: bool) returns (err: Outcome<string>)
      requires Valid()
      modifies this
      ensures Valid()
      ensures err == if fail then Fail(DbError) else Pass
      ensures rows == if fail then old(rows) else old(rows) - {id}
    {
      if fail {
        return Fail(DbError);
      }
      rows := rows - {id};
      err := Pass;
    }

    /** Records a price on every active row for the symbol; all other rows stay as they were. */
    method UpdateCurrentPrice(symbol: string, price: real, now: int, fail: bool) returns (err: Outcome<string>)
      requires Valid()
      modifies this
      ensures Valid()
      ensures err == if fail then Fail(DbError) else Pass
      ensures rows.Keys == old(rows).Keys
      ensures forall id :: id in rows ==>
        rows[id] == if !fail && old(rows)[id].stockSymbol == symbol && old(rows)[id].status == ActiveName
                    then old(rows)[id].(currentPrice := Some(price), updatedAt := now)
                    else old(rows)[id]
    {
      if fail {
        return Fail(DbError);
      }
      rows := map id | id in rows ::
        if rows[id].stockSymbol == symbol && rows[id].status == ActiveName
        then rows[id].(currentPrice := Some(price), updatedAt := now)
        else rows[id];
      err := Pass;
    }

    /** Marks the row triggered at now, whatever its prior status. */
    method TriggerAlert(id: string, now: int, fail: bool) returns (err: Outcome<string>)
      requires Valid()
      modifies this
      ensures Valid()
      ensures err == if fail then Fail(DbError) else Pass
      ensures rows == if fail || id !in old(rows) then old(rows)
                      else old(rows)[id := TriggeredRow(old(rows)[id], now)]
    {
      if fail {
        return Fail(DbError);
      }
      if id in rows {
        rows := rows[id := TriggeredRow(rows[id], now)];
      }
      err := Pass;
    }
  }

  /** The row after TriggerAlert: status triggered, triggered_at = updated_at = now. */
  function TriggeredRow(row: Alert, now: int): (r: Alert)
    ensures r.status == TriggeredName && r.triggeredAt == Some(now) && r.updatedAt == now
    ensures r.id == row.id && r.userId == row.userId && r.alertType == row.alertType
    ensures NoYields(row) ==> NoYields(r)
  {
    row.(status := TriggeredName, triggeredAt := Some(now), updatedAt := now)
  }
}
