// The IPO announcement table of backend/internal/repository/ipo_repository.go,
// held as a map from id to row. A refused statement is the `fail` argument and
// changes nothing.
module IPORepository {
  import opened Wrappers
  import opened Models
  import AlertRepository
  import Seqs

  /** The rows GetUpcoming selects: still announced, listing date after now. */
  predicate IsUpcoming(ipo: IPOAnnouncement, now: int)
  {
    ipo.status == Announced && ipo.listingDate > now
  }

  function Upcoming(now: int): IPOAnnouncement -> bool
  {
    (ipo: IPOAnnouncement) => IsUpcoming(ipo, now)
  }

  function ListingKey(ipo: IPOAnnouncement): real { ipo.listingDate as real }

  ghost predicate ListingAscending(s: seq<IPOAnnouncement>)
  {
    forall i, j :: 0 <= i < j < |s| ==> s[i].listingDate <= s[j].listingDate
  }

  class IPOTable {
    var rows: map<string, IPOAnnouncement>

    ghost predicate Valid()
      reads this
    {
      forall id :: id in rows ==> rows[id].id == id
    }

    constructor ()
      ensures Valid() && rows == map[]
    {
      rows := map[];
    }

    /** Inserts every column of ipo; a duplicate id violates the primary key. */
    method Create(ipo: IPOAnnouncement, fail: bool) returns (err: Outcome<string>)
      requires Valid()
      modifies this
      ensures Valid()
      ensures err.Pass? <==> !fail && ipo.id !in old(rows)
      ensures rows == if err.Pass? then old(rows)[ipo.id := ipo] else old(rows)
    {
      if fail || ipo.id in rows {
        return Fail(AlertRepository.DbError);
      }
      rows := rows[ipo.id := ipo];
      err := Pass;
    }

    /** Exactly the announced rows whose listing date is after now, earliest first. */
    method GetUpcoming(now: int, fail: bool) returns (r: Result<seq<IPOAnnouncement>, string>)
      ensures r.Failure? <==> fail
      ensures r.Success? ==>
        multiset(r.value) == multiset(Seqs.Matching(rows, Upcoming(now))) && ListingAscending(r.value)
    {
      if fail {
        return Failure(AlertRepository.DbError);
      }
      var found := Seqs.SelectOrdered(rows, Upcoming(now), ListingKey);
      r := Success(found);
    }

    /** Sets the status and updated_at of the row with that id; every other column and row stays. */
    method UpdateStatus(id: string, status: string, now: int, fail: bool) returns (err: Outcome<string>)
      requires Valid()
      modifies this
      ensures Valid()
      ensures err == if fail then Fail(AlertRepository.DbError) else Pass
      ensures rows == if fail || id !in old(rows) then old(rows)
                      else old(rows)[id := old(rows)[id].(status := status, updatedAt := now)]
    {
      if fail {
        return Fail(AlertRepository.DbError);
      }
      if id in rows {
        rows := rows[id := rows[id].(status := status, updatedAt := now)];
      }
      err := Pass;
    }

    /**
     * `QueryRow ... WHERE symbol = ?`: some row with that symbol (which one is up
     * to the database when several match), or no rows.
     */
    method GetBySymbol(symbol: string) returns (r: Result<IPOAnnouncement, string>)
      ensures r.Success? <==> exists id :: id in rows && rows[id].symbol == symbol
      ensures r.Success? ==> r.value in rows.Values && r.value.symbol == symbol
      ensures r.Failure? ==> r.error == AlertRepository.NoRows
    {
      if id :| id in rows && rows[id].symbol == symbol {
        r := Success(rows[id]);
      } else {
        r := Failure(AlertRepository.NoRows);
      }
    }
  }
}
