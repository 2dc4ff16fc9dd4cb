// components/tables/AlertsTable.tsx: the paginated alert table with its row
// menu. The edit and delete callbacks are modelled by returning what they
// would be called with.
module AlertsTable {
  import opened Wrappers
  import ApiTypes
  import Formatters

  type Alert = ApiTypes.Alert

  const DefaultRowsPerPage: nat := 10

  /** `alerts.slice(page * rpp, page * rpp + rpp)`. */
  function PageRows(alerts: seq<Alert>, page: nat, rpp: nat): (r: seq<Alert>)
    ensures |r| <= rpp
    ensures |r| == if page * rpp >= |alerts| then 0 else if page * rpp + rpp <= |alerts| then rpp else |alerts| - page * rpp
    ensures forall i :: 0 <= i < |r| ==> r[i] == alerts[page * rpp + i]
  {
    var start := page * rpp;
    if start >= |alerts| then []
    else if start + rpp <= |alerts| then alerts[start..start + rpp]
    else alerts[start..]
  }

  /** Every alert is shown exactly once: row j lies on page j / rpp, at position j % rpp. */
  lemma EveryRowOnItsPage(alerts: seq<Alert>, rpp: nat, j: int)
    requires rpp > 0 && 0 <= j < |alerts|
    ensures var rows := PageRows(alerts, j / rpp, rpp); j % rpp < |rows| && rows[j % rpp] == alerts[j]
  {
    var page := j / rpp;
    assert page * rpp + j % rpp == j;
    assert page * rpp <= j;
  }

  /** The message of an empty page. */
  function EmptyMessage(alerts: seq<Alert>): (r: string)
    ensures r == "No alerts created yet" <==> alerts == []
    ensures alerts != [] ==> r == "No alerts match the current filter"
  {
    if |alerts| == 0 then "No alerts created yet" else "No alerts match the current filter"
  }

  /** A price cell: '-' for an absent or zero price (JavaScript truthiness), else the formatted price. */
  function PriceCell(price: Option<real>): (r: string)
    ensures r == "-" <==> price.None? || price.value == 0.0
    ensures r != "-" ==> r == Formatters.FormatPrice(price.value)
  {
    if price.Some? && price.value != 0.0 then Formatters.FormatPrice(price.value) else "-"
  }

  class Table {
    var page: nat
    var rowsPerPage: nat
    var selected: Option<Alert>
    var menuOpen: bool

    constructor()
      ensures page == 0 && rowsPerPage == DefaultRowsPerPage && selected.None? && !menuOpen
    {
      page := 0;
      rowsPerPage := DefaultRowsPerPage;
      selected := None;
      menuOpen := false;
    }

    /** The rows on screen. */
    function Visible(alerts: seq<Alert>): seq<Alert>
      reads this
    {
      PageRows(alerts, page, rowsPerPage)
    }

    /** handleMenuClick: opens the menu on this alert. */
    method MenuClick(alert: Alert)
      modifies this
      ensures selected == Some(alert) && menuOpen
      ensures page == old(page) && rowsPerPage == old(rowsPerPage)
    {
      menuOpen := true;
      selected := Some(alert);
    }

    /** handleMenuClose. */
    method MenuClose()
      modifies this
      ensures selected.None? && !menuOpen
      ensures page == old(page) && rowsPerPage == old(rowsPerPage)
    {
      menuOpen := false;
      selected := None;
    }

    /** handleEdit: onEdit gets the selected alert, if any; the selection is then cleared. */
    method Edit() returns (edited: Option<Alert>)
      modifies this
      ensures edited == old(selected)
      ensures selected.None? && !menuOpen
      ensures page == old(page) && rowsPerPage == old(rowsPerPage)
    {
      edited := selected;
      MenuClose();
    }

    /** handleDelete: onDelete gets the selected alert's id, if any; the selection is then cleared. */
    method Delete() returns (deletedId: Option<string>)
      modifies this
      ensures old(selected).None? ==> deletedId.None?
      ensures old(selected).Some? ==> deletedId == Some(old(selected).value.id)
      ensures selected.None? && !menuOpen
      ensures page == old(page) && rowsPerPage == old(rowsPerPage)
    {
      deletedId := if selected.Some? then Some(selected.value.id) else None;
      MenuClose();
    }

    /** handleChangePage. */
    method ChangePage(newPage: nat)
      modifies this
      ensures page == newPage && rowsPerPage == old(rowsPerPage) && selected == old(selected)
    {
      page := newPage;
    }

    /** handleChangeRowsPerPage: the new size, and back to the first page. */
    method ChangeRowsPerPage(n: nat)
      modifies this
      ensures rowsPerPage == n && page == 0 && selected == old(selected)
    {
      rowsPerPage := n;
      page := 0;
    }
  }

  /** After a change of page size the table shows the first rows of the list. */
  method ResizeShowsTop(t: Table, alerts: seq<Alert>, n: nat) returns (rows: seq<Alert>)
    modifies t
    ensures rows == t.Visible(alerts)
    ensures rows == alerts[..if n < |alerts| then n else |alerts|]
  {
    t.ChangeRowsPerPage(n);
    rows := PageRows(alerts, t.page, t.rowsPerPage);
  }
}
