// components/dividend/DividendYieldAlerts.tsx: the dividend alert panel. The
// API calls are parameters: each either succeeds or rejects with a value that
// may or may not be an Error carrying a message.
module DividendYieldAlerts {
  import opened Wrappers
  import Seqs
  import Formatters
  import opened Models

  datatype YieldAlert = YieldAlert(
    id: string,
    stockSymbol: string,
    stockName: string,
    alertType: string,
    thresholdYield: Option<real>,
    targetYield: Option<real>,
    yieldChangeThreshold: Option<real>,
    status: string)

  /** How an API call ended: fulfilled, or rejected with an Error's message (None for a non-Error value). */
  datatype Call<T> = Fulfilled(value: T) | Rejected(message: Option<string>)

  function MessageOr(m: Option<string>, fallback: string): string
  {
    if m.Some? then m.value else fallback
  }

  const DividendKinds: set<string> := {"high_dividend_yield", "target_dividend_yield", "dividend_yield_change", "dividend_announcement"}

  function IsDividendAlert(): YieldAlert -> bool
  {
    (a: YieldAlert) => a.alertType in DividendKinds
  }

  /** The panel's type filter: the three yield kinds and announcements, nothing else. */
  lemma PriceAndIPOAlertsDropped(data: seq<YieldAlert>, a: YieldAlert)
    ensures a in Seqs.Filter(data, IsDividendAlert()) <==> a in data && a.alertType in DividendKinds
    ensures a.alertType in {"price_threshold", "ipo_alert"} ==> a !in Seqs.Filter(data, IsDividendAlert())
  {
    Seqs.FilterMembers(data, IsDividendAlert(), a);
  }

  /** The toggle: active becomes inactive, every other status (triggered included) becomes active. */
  function ToggledStatus(status: string): (r: string)
    ensures status == "active" <==> r == "inactive"
    ensures r == "active" || r == "inactive"
  {
    if status == "active" then "inactive" else "active"
  }

  /** `alerts.map(a => a.id === id ? { ...a, status } : a)`. */
  function WithStatus(alerts: seq<YieldAlert>, id: string, status: string): (r: seq<YieldAlert>)
    ensures |r| == |alerts|
    ensures forall i :: 0 <= i < |r| ==> r[i] == if alerts[i].id == id then alerts[i].(status := status) else alerts[i]
  {
    seq(|alerts|, i requires 0 <= i < |alerts| => if alerts[i].id == id then alerts[i].(status := status) else alerts[i])
  }

  /** `alerts.filter(a => a.id !== id)`. */
  function Without(alerts: seq<YieldAlert>, id: string): seq<YieldAlert>
  {
    Seqs.Filter(alerts, (a: YieldAlert) => a.id != id)
  }

  /** Deleting keeps every other alert and drops every alert with that id. */
  lemma WithoutMembers(alerts: seq<YieldAlert>, id: string, a: YieldAlert)
    ensures a in Without(alerts, id) <==> a in alerts && a.id != id
  {
    Seqs.FilterMembers(alerts, (b: YieldAlert) => b.id != id, a);
  }

  function SymbolOrAny(symbol: string): string { if symbol == "" then "any stock" else symbol }

  /** `x || 0` on an optional number. */
  function OrZero(x: Option<real>): real { if x.Some? then x.value else 0.0 }

  /** getAlertDescription. */
  function Description(a: YieldAlert): (r: string)
    ensures Models.ParseKind(a.alertType) in {Some(HighDividendYield), Some(TargetDividendYield), Some(DividendYieldChange)} ==>
      "Alert when " <= r && r[|r| - 1] == '%'
    ensures Models.ParseKind(a.alertType) == Some(DividendAnnouncementAlert) ==>
      |SymbolOrAny(a.stockSymbol)| <= |r| && r[|r| - |SymbolOrAny(a.stockSymbol)|..] == SymbolOrAny(a.stockSymbol)
    ensures Models.ParseKind(a.alertType) !in {Some(HighDividendYield), Some(TargetDividendYield),
                                              Some(DividendYieldChange), Some(DividendAnnouncementAlert)} ==>
      r == "Dividend alert"
  {
    match Models.ParseKind(a.alertType)
    case Some(HighDividendYield) =>
      "Alert when " + SymbolOrAny(a.stockSymbol) + " yield ≥ " + Formatters.FormatPercentage(OrZero(a.thresholdYield))
    case Some(TargetDividendYield) =>
      "Alert when " + a.stockSymbol + " yield reaches " + Formatters.FormatPercentage(OrZero(a.targetYield))
    case Some(DividendYieldChange) =>
      "Alert when " + a.stockSymbol + " yield changes by ±" + Formatters.FormatPercentage(OrZero(a.yieldChangeThreshold))
    case Some(DividendAnnouncementAlert) =>
      "Alert for dividend announcements from " + SymbolOrAny(a.stockSymbol)
    case _ => "Dividend alert"
  }

  /**
   * An empty symbol reads "any stock" for the high-yield and announcement
   * kinds, but is left blank for the target and change kinds.
   */
  lemma EmptySymbolWording(a: YieldAlert)
    requires a.stockSymbol == ""
    ensures a.alertType == "high_dividend_yield" ==>
      Description(a) == "Alert when " + "any stock" + " yield ≥ " + Formatters.FormatPercentage(OrZero(a.thresholdYield))
    ensures a.alertType == "dividend_announcement" ==> Description(a) == "Alert for dividend announcements from " + "any stock"
    ensures a.alertType == "target_dividend_yield" ==>
      Description(a) == "Alert when " + "" + " yield reaches " + Formatters.FormatPercentage(OrZero(a.targetYield))
  {
    ParseKindOfName(HighDividendYield);
    ParseKindOfName(DividendAnnouncementAlert);
    ParseKindOfName(TargetDividendYield);
  }

  function HasStatus(status: string): YieldAlert -> bool
  {
    (a: YieldAlert) => a.status == status
  }

  /** The active, triggered and inactive lists never share an alert, so together they hold at most all alerts. */
  lemma {:induction false} StatusCountsBounded(alerts: seq<YieldAlert>)
    ensures |Seqs.Filter(alerts, HasStatus("active"))| + |Seqs.Filter(alerts, HasStatus("triggered"))|
          + |Seqs.Filter(alerts, HasStatus("inactive"))| <= |alerts|
  {
    if alerts != [] {
      StatusCountsBounded(alerts[1..]);
    }
  }

  class Panel {
    var alerts: seq<YieldAlert>
    var loading: bool
    var error: Option<string>
    var deleteDialogOpen: bool
    var alertToDelete: Option<YieldAlert>

    constructor()
      ensures alerts == [] && loading && error.None? && !deleteDialogOpen && alertToDelete.None?
    {
      alerts := [];
      loading := true;
      error := None;
      deleteDialogOpen := false;
      alertToDelete := None;
    }

    /** fetchAlerts: on success the dividend alerts, in order, replace the list; a failure records its message; loading ends. */
    method FetchAlerts(call: Call<seq<YieldAlert>>)
      modifies this
      ensures !loading
      ensures call.Fulfilled? ==> alerts == Seqs.Filter(call.value, IsDividendAlert()) && error.None?
      ensures call.Rejected? ==> alerts == old(alerts) && error == Some(MessageOr(call.message, "Failed to fetch alerts"))
      ensures deleteDialogOpen == old(deleteDialogOpen) && alertToDelete == old(alertToDelete)
    {
      loading := true;
      error := None;
      match call {
        case Fulfilled(data) =>
          alerts := Seqs.Filter(data, IsDividendAlert());
        case Rejected(m) =>
          error := Some(MessageOr(m, "Failed to fetch alerts"));
      }
      loading := false;
    }

    /** The delete button of a row: remembers the alert and opens the confirmation. */
    method AskDelete(a: YieldAlert)
      modifies this
      ensures alertToDelete == Some(a) && deleteDialogOpen
      ensures alerts == old(alerts) && error == old(error) && loading == old(loading)
    {
      alertToDelete := Some(a);
      deleteDialogOpen := true;
    }

    /**
     * handleDeleteAlert: nothing without a selection; otherwise, once the API
     * call succeeds, exactly the selected id leaves the list and the dialog
     * closes; a failed call records its message and keeps the list.
     */
    method DeleteAlert(call: Call<()>)
      modifies this
      ensures old(alertToDelete).None? ==>
        alerts == old(alerts) && error == old(error) && deleteDialogOpen == old(deleteDialogOpen) && alertToDelete.None?
      ensures old(alertToDelete).Some? && call.Fulfilled? ==>
        alerts == Without(old(alerts), old(alertToDelete).value.id) && !deleteDialogOpen && alertToDelete.None?
        && error == old(error)
      ensures old(alertToDelete).Some? && call.Rejected? ==>
        alerts == old(alerts) && error == Some(MessageOr(call.message, "Failed to delete alert"))
        && alertToDelete == old(alertToDelete) && deleteDialogOpen == old(deleteDialogOpen)
      ensures loading == old(loading)
    {
      if alertToDelete.None? {
        return;
      }
      match call {
        case Fulfilled(_) =>
          alerts := Without(alerts, alertToDelete.value.id);
          deleteDialogOpen := false;
          alertToDelete := None;
        case Rejected(m) =>
          error := Some(MessageOr(m, "Failed to delete alert"));
      }
    }

    /** handleToggleAlert: after a successful update, the alerts with that id get the toggled status; others are untouched. */
    method ToggleAlert(a: YieldAlert, call: Call<()>)
      modifies this
      ensures call.Fulfilled? ==> alerts == WithStatus(old(alerts), a.id, ToggledStatus(a.status)) && error == old(error)
      ensures call.Rejected? ==> alerts == old(alerts) && error == Some(MessageOr(call.message, "Failed to update alert"))
      ensures loading == old(loading) && alertToDelete == old(alertToDelete) && deleteDialogOpen == old(deleteDialogOpen)
    {
      var newStatus := if a.status == "active" then "inactive" else "active";
      match call {
        case Fulfilled(_) =>
          alerts := WithStatus(alerts, a.id, newStatus);
        case Rejected(m) =>
          error := Some(MessageOr(m, "Failed to update alert"));
      }
    }
  }

  /** Toggling a triggered alert re-arms it: its status becomes active. */
  lemma ToggleRearmsTriggered(alerts: seq<YieldAlert>, a: YieldAlert, i: int)
    requires a.status == "triggered" && 0 <= i < |alerts| && alerts[i].id == a.id
    ensures WithStatus(alerts, a.id, ToggledStatus(a.status))[i].status == "active"
  {
  }
}
