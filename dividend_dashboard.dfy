// components/dividend/DividendYieldDashboard.tsx: the dividend yield table with
// its search box, its minimum-yield filter, its summary cards and the buttons
// that prefill a yield alert. Fetching is a parameter.
module DividendDashboard {
  import opened Wrappers
  import Seqs
  import Text

  /** The fields of a GSE dividend stock the dashboard reads. */
  datatype DividendStock = DividendStock(symbol: string, name: string, sector: string, dividendYield: real)

  /**
   * The min-yield box: empty, a number, or a value `Number` turns into NaN,
   * against which every comparison is false.
   */
  datatype MinYield = NoMinimum | AtLeast(min: real) | NotANumber

  /** The box's onChange: '' clears the filter, anything else goes through `Number`. */
  function ReadMinYield(input: string): (r: MinYield)
    ensures input == "" <==> r.NoMinimum?
    ensures r.AtLeast? ==> Text.ParseDecimal(input) == Some(r.min)
    ensures input != "" ==> (r.AtLeast? <==> Text.ParseDecimal(input).Some?)
  {
    if input == "" then NoMinimum
    else match Text.ParseDecimal(input)
      case Some(v) => AtLeast(v)
      case None => NotANumber
  }

  predicate MatchesSearch(s: DividendStock, term: string)
  {
    var t := Text.ToLower(term);
    Text.Includes(Text.ToLower(s.name), t) || Text.Includes(Text.ToLower(s.symbol), t)
      || Text.Includes(Text.ToLower(s.sector), t)
  }

  predicate MatchesYield(s: DividendStock, min: MinYield)
  {
    match min
    case NoMinimum => true
    case AtLeast(m) => s.dividendYield >= m
    case NotANumber => false
  }

  function Shown(term: string, min: MinYield): DividendStock -> bool
  {
    (s: DividendStock) => MatchesSearch(s, term) && MatchesYield(s, min)
  }

  /** filteredStocks: nothing before data has loaded, else the stocks passing both filters, in order. */
  function FilteredStocks(data: Option<seq<DividendStock>>, term: string, min: MinYield): (r: seq<DividendStock>)
    ensures data.None? ==> r == []
    ensures data.Some? ==> |r| <= |data.value|
    ensures forall i :: 0 <= i < |r| ==> MatchesSearch(r[i], term) && MatchesYield(r[i], min)
  {
    if data.None? then [] else Seqs.Filter(data.value, Shown(term, min))
  }

  /** A stock is listed iff it is loaded, matches the search in name, symbol or sector, and meets the minimum. */
  lemma FilteredMembers(data: Option<seq<DividendStock>>, term: string, min: MinYield, s: DividendStock)
    ensures s in FilteredStocks(data, term, min) <==>
      data.Some? && s in data.value && MatchesSearch(s, term) && MatchesYield(s, min)
  {
    if data.Some? {
      Seqs.FilterMembers(data.value, Shown(term, min), s);
    }
  }

  /** An unreadable minimum hides everything; an empty search with no minimum hides nothing. */
  lemma FilterExtremes(stocks: seq<DividendStock>)
    ensures FilteredStocks(Some(stocks), "", NoMinimum) == stocks
    ensures forall term :: FilteredStocks(Some(stocks), term, NotANumber) == []
  {
    forall i | 0 <= i < |stocks| ensures Shown("", NoMinimum)(stocks[i]) {
      assert Text.OccursAt(Text.ToLower(stocks[i].name), "", 0);
    }
    Seqs.FilterAll(stocks, Shown("", NoMinimum));
    forall term ensures FilteredStocks(Some(stocks), term, NotANumber) == [] {
      Seqs.FilterNone(stocks, Shown(term, NotANumber));
    }
  }

  const HighYield: real := 3.0

  function IsHighYield(): DividendStock -> bool { (s: DividendStock) => s.dividendYield >= HighYield }

  /** highYieldStocks.length. */
  function HighYieldCount(filtered: seq<DividendStock>): (r: nat)
    ensures r <= |filtered|
  {
    |Seqs.Filter(filtered, IsHighYield())|
  }

  /** The high-yield card counts exactly the shown stocks yielding at least 3%. */
  lemma HighYieldCountExact(filtered: seq<DividendStock>)
    ensures HighYieldCount(filtered) + |Seqs.Filter(filtered, (s: DividendStock) => s.dividendYield < HighYield)| == |filtered|
    ensures (forall i :: 0 <= i < |filtered| ==> filtered[i].dividendYield >= HighYield) ==> HighYieldCount(filtered) == |filtered|
  {
    Seqs.FilterSplit(filtered, IsHighYield(), (s: DividendStock) => s.dividendYield < HighYield);
    if forall i :: 0 <= i < |filtered| ==> filtered[i].dividendYield >= HighYield {
      Seqs.FilterAll(filtered, IsHighYield());
    }
  }

  /** `reduce((sum, s) => sum + s.dividend_yield, 0)`. */
  function YieldSum(s: seq<DividendStock>): real
  {
    if s == [] then 0.0 else YieldSum(s[..|s| - 1]) + s[|s| - 1].dividendYield
  }

  /** averageYield: the mean of the shown yields, 0 when nothing is shown. */
  function AverageYield(filtered: seq<DividendStock>): (r: real)
    ensures filtered == [] ==> r == 0.0
    ensures filtered != [] ==> r * |filtered| as real == YieldSum(filtered)
  {
    if |filtered| > 0 then YieldSum(filtered) / |filtered| as real else 0.0
  }

  lemma {:induction false} SumAtLeast(s: seq<DividendStock>, m: real)
    requires forall i :: 0 <= i < |s| ==> s[i].dividendYield >= m
    ensures YieldSum(s) >= |s| as real * m
  {
    if s != [] {
      SumAtLeast(s[..|s| - 1], m);
    }
  }

  /** A mean of values that are all at least m is at least m. */
  lemma AverageAtLeast(f: seq<DividendStock>, m: real)
    requires f != []
    requires forall i :: 0 <= i < |f| ==> f[i].dividendYield >= m
    ensures AverageYield(f) >= m
  {
    SumAtLeast(f, m);
    QuotientAtLeast(YieldSum(f), |f| as real, m);
  }

  lemma QuotientAtLeast(sum: real, n: real, m: real)
    requires n > 0.0 && sum >= n * m
    ensures sum / n >= m
  {
    assert sum / n - m == (sum - n * m) / n;
  }

  /** With a minimum in force the average card never shows less than that minimum (unless nothing is shown). */
  lemma AverageMeetsMinimum(data: seq<DividendStock>, term: string, m: real)
    requires FilteredStocks(Some(data), term, AtLeast(m)) != []
    ensures AverageYield(FilteredStocks(Some(data), term, AtLeast(m))) >= m
  {
    var f := FilteredStocks(Some(data), term, AtLeast(m));
    forall i | 0 <= i < |f| ensures f[i].dividendYield >= m {
      assert Shown(term, AtLeast(m))(f[i]);
    }
    AverageAtLeast(f, m);
  }

  /** The object handed to onCreateAlert: the three yield fields are present only for their own kind. */
  datatype AlertDraft = AlertDraft(
    stockSymbol: string,
    stockName: string,
    alertType: string,
    thresholdYield: Option<real>,
    targetYield: Option<real>,
    yieldChangeThreshold: Option<real>)

  const TargetStep: real := 0.5
  const DefaultChange: real := 0.5

  /** handleCreateYieldAlert: no draft without a callback. */
  function CreateYieldAlert(hasCallback: bool, s: DividendStock, alertType: string): (r: Option<AlertDraft>)
    ensures r.Some? <==> hasCallback
    ensures r.Some? ==> r.value.stockSymbol == s.symbol && r.value.stockName == s.name && r.value.alertType == alertType
    ensures r.Some? ==> (r.value.thresholdYield.Some? <==> alertType == "high_dividend_yield")
    ensures r.Some? ==> (r.value.targetYield.Some? <==> alertType == "target_dividend_yield")
    ensures r.Some? ==> (r.value.yieldChangeThreshold.Some? <==> alertType == "dividend_yield_change")
  {
    if !hasCallback then None
    else Some(AlertDraft(s.symbol, s.name, alertType,
      if alertType == "high_dividend_yield" then Some(s.dividendYield) else None,
      if alertType == "target_dividend_yield" then Some(s.dividendYield + TargetStep) else None,
      if alertType == "dividend_yield_change" then Some(DefaultChange) else None))
  }

  /** The prefilled values: the current yield as the threshold, half a point above it as the target, 0.5 as the change. */
  lemma DraftValues(s: DividendStock)
    ensures CreateYieldAlert(true, s, "high_dividend_yield").value.thresholdYield == Some(s.dividendYield)
    ensures CreateYieldAlert(true, s, "target_dividend_yield").value.targetYield.value > s.dividendYield
    ensures CreateYieldAlert(true, s, "target_dividend_yield").value.targetYield == Some(s.dividendYield + 0.5)
    ensures CreateYieldAlert(true, s, "dividend_yield_change").value.yieldChangeThreshold == Some(0.5)
  {
  }

  /** How the fetch ended: the stocks, or a rejection with an Error's message (None for a non-Error value). */
  datatype Fetch = Loaded(stocks: seq<DividendStock>) | Rejected(message: Option<string>)

  class Dashboard {
    var data: Option<seq<DividendStock>>
    var loading: bool
    var error: Option<string>
    var searchTerm: string
    var minYield: MinYield

    constructor()
      ensures data.None? && loading && error.None? && searchTerm == "" && minYield == NoMinimum
    {
      data := None;
      loading := true;
      error := None;
      searchTerm := "";
      minYield := NoMinimum;
    }

    function Filtered(): seq<DividendStock>
      reads this
    {
      FilteredStocks(data, searchTerm, minYield)
    }

    /** fetchDividendData: a failure keeps the old data and records the message; loading ends either way. */
    method FetchDividendData(f: Fetch)
      modifies this
      ensures !loading
      ensures f.Loaded? ==> data == Some(f.stocks) && error.None?
      ensures f.Rejected? ==> data == old(data)
      ensures f.Rejected? ==> error == Some(if f.message.Some? then f.message.value else "Failed to fetch dividend data")
      ensures searchTerm == old(searchTerm) && minYield == old(minYield)
    {
      loading := true;
      error := None;
      match f {
        case Loaded(stocks) =>
          data := Some(stocks);
        case Rejected(m) =>
          error := Some(if m.Some? then m.value else "Failed to fetch dividend data");
      }
      loading := false;
    }

    method SetSearchTerm(term: string)
      modifies this
      ensures searchTerm == term
      ensures data == old(data) && loading == old(loading) && error == old(error) && minYield == old(minYield)
    {
      searchTerm := term;
    }

    method SetMinYield(input: string)
      modifies this
      ensures minYield == ReadMinYield(input)
      ensures data == old(data) && loading == old(loading) && error == old(error) && searchTerm == old(searchTerm)
    {
      if input == "" {
        minYield := NoMinimum;
      } else {
        var v := Text.ParseDecimal(input);
        minYield := if v.Some? then AtLeast(v.value) else NotANumber;
      }
    }
  }
}
