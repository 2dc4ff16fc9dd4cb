// The dividend announcement table of backend/internal/repository/dividend_repository.go,
// held as a map from id to row. A refused statement is the `fail` argument and
// changes nothing.
module DividendRepository {
  import opened Wrappers
  import opened Models
  import AlertRepository
  import Seqs

  /** The rows GetUpcoming selects: still announced, ex-dividend date after now. */
  predicate IsUpcoming(d: DividendAnnouncement, now: int)
  {
    d.status == Announced && d.exDate > now
  }

  function Upcoming(now: int): DividendAnnouncement -> bool
  {
    (d: DividendAnnouncement) => IsUpcoming(d, now)
  }

  function ForSymbol(symbol: string): DividendAnnouncement -> bool
  {
    (d: DividendAnnouncement) => d.stockSymbol == symbol
  }

  function ExDateKey(d: DividendAnnouncement): real { d.exDate as real }

  function LatestExDateKey(d: DividendAnnouncement): real { -(d.exDate as real) }

  ghost predicate ExDateAscending(s: seq<DividendAnnouncement>)
  {
    forall i, j :: 0 <= i < j < |s| ==> s[i].exDate <= s[j].exDate
  }

  ghost predicate ExDateDescending(s: seq<DividendAnnouncement>)
  {
    forall i, j :: 0 <= i < j < |s| ==> s[i].exDate >= s[j].exDate
  }

  class DividendTable {
    var rows: map<string, DividendAnnouncement>

    ghost predicate Valid()
      reads this
    {
      forall id :: id in rows ==> rows[id].id == id
    }

    constructor ()
      ensures Valid() && rows == map[]
    {
      rows := map[];
    }

    /** Inserts every column of d; a duplicate id violates the primary key. */
    method Create(d: DividendAnnouncement, fail: bool) returns (err: Outcome<string>)
      requires Valid()
      modifies this
      ensures Valid()
      ensures err.Pass? <==> !fail && d.id !in old(rows)
      ensures rows == if err.Pass? then old(rows)[d.id := d] else old(rows)
    {
      if fail || d.id in rows {
        return Fail(AlertRepository.DbError);
      }
      rows := rows[d.id := d];
      err := Pass;
    }

    /** Exactly the announced rows whose ex-dividend date is after now, earliest first. */
    method GetUpcoming(now: int, fail: bool) returns (r: Result<seq<DividendAnnouncement>, string>)
      ensures r.Failure? <==> fail
      ensures r.Success? ==>
        multiset(r.value) == multiset(Seqs.Matching(rows, Upcoming(now))) && ExDateAscending(r.value)
    {
      if fail {
        return Failure(AlertRepository.DbError);
      }
      var found := Seqs.SelectOrdered(rows, Upcoming(now), ExDateKey);
      r := Success(found);
    }

    /** Sets the status and updated_at of the row with that id; every other column and row stays. */
    method UpdateStatus(id: string, status: string, now: int, fail: bool) returns (err: Outcome<string>)
      requires Valid()
      modifies this
      ensures Valid()
      ensures err == if fail then Fail(AlertRepository.DbError) else Pass
      ensures rows == if fail || id !in old(rows) then old(rows)
                      else old(rows)[id := old(rows)[id].(status := status, updatedAt := now)]
    {
      if fail {
        return Fail(AlertRepository.DbError);
      }
      if id in rows {
        rows := rows[id := rows[id].(status := status, updatedAt := now)];
      }
      err := Pass;
    }

    /** Every announcement for the symbol, latest ex-dividend date first. */
    method GetBySymbol(symbol: string, fail: bool) returns (r: Result<seq<DividendAnnouncement>, string>)
      ensures r.Failure? <==> fail
      ensures r.Success? ==>
        multiset(r.value) == multiset(Seqs.Matching(rows, ForSymbol(symbol))) && ExDateDescending(r.value)
    {
      if fail {
        return Failure(AlertRepository.DbError);
      }
      var found := Seqs.SelectOrdered(rows, ForSymbol(symbol), LatestExDateKey);
      r := Success(found);
    }
  }
}
