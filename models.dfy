// Records of backend/internal/models/alert.go. Times are whole seconds; a Go
// field that may be nil is an Option. Kinds and statuses travel as the
// strings the database stores, and the enumerations below name the known ones.
module Models {
  import opened Wrappers

  const Day: int := 86400

  /** The six alert kinds. */
  datatype AlertKind =
    | PriceThreshold | IPOAlert | DividendAnnouncementAlert
    | HighDividendYield | DividendYieldChange | TargetDividendYield

  function KindName(k: AlertKind): string
  {
    match k
    case PriceThreshold => "price_threshold"
    case IPOAlert => "ipo_alert"
    case DividendAnnouncementAlert => "dividend_announcement"
    case HighDividendYield => "high_dividend_yield"
    case DividendYieldChange => "dividend_yield_change"
    case TargetDividendYield => "target_dividend_yield"
  }

  /** The kind whose constant is s, if any. */
  function ParseKind(s: string): (r: Option<AlertKind>)
    ensures r.Some? ==> KindName(r.value) == s
    ensures r.None? ==> forall k :: KindName(k) != s
  {
    if s == "price_threshold" then Some(PriceThreshold)
    else if s == "ipo_alert" then Some(IPOAlert)
    else if s == "dividend_announcement" then Some(DividendAnnouncementAlert)
    else if s == "high_dividend_yield" then Some(HighDividendYield)
    else if s == "dividend_yield_change" then Some(DividendYieldChange)
    else if s == "target_dividend_yield" then Some(TargetDividendYield)
    else None
  }

  /** The six kind constants are pairwise distinct. */
  lemma KindNamesDistinct(a: AlertKind, b: AlertKind)
    ensures KindName(a) == KindName(b) ==> a == b
  {
    var r := ParseKind(KindName(a));
    assert r.Some? && KindName(r.value) == KindName(a);
  }

  /** Parsing a kind's constant gives that kind back. */
  lemma ParseKindOfName(k: AlertKind)
    ensures ParseKind(KindName(k)) == Some(k)
  {
    KindNamesDistinct(k, ParseKind(KindName(k)).value);
  }

  /** Alert statuses known to the backend. */
  datatype AlertStatus = Active | Triggered | Paused | Deleted

  function StatusName(s: AlertStatus): string
  {
    match s
    case Active => "active"
    case Triggered => "triggered"
    case Paused => "paused"
    case Deleted => "deleted"
  }

  function ParseStatus(s: string): (r: Option<AlertStatus>)
    ensures r.Some? ==> StatusName(r.value) == s
    ensures r.None? ==> forall st :: StatusName(st) != s
  {
    if s == "active" then Some(Active)
    else if s == "triggered" then Some(Triggered)
    else if s == "paused" then Some(Paused)
    else if s == "deleted" then Some(Deleted)
    else None
  }

  /** "inactive", the status the web client writes when it pauses an alert, is not a backend status. */
  lemma InactiveIsNotABackendStatus()
    ensures ParseStatus("inactive") == None
  {
  }

  const ActiveName: string := "active"
  const TriggeredName: string := "triggered"

  /** Statuses of IPO and dividend announcements. */
  const Announced: string := "announced"
  const Listed: string := "listed"
  const Paid: string := "paid"
  const Cancelled: string := "cancelled"

  datatype Alert = Alert(
    id: string,
    userId: string,
    stockSymbol: string,
    stockName: string,
    alertType: string,
    thresholdPrice: Option<real>,
    currentPrice: Option<real>,
    thresholdYield: Option<real>,
    currentYield: Option<real>,
    targetYield: Option<real>,
    yieldChangeThreshold: Option<real>,
    lastYield: Option<real>,
    status: string,
    createdAt: int,
    updatedAt: int,
    triggeredAt: Option<int>)

  datatype CreateAlertRequest = CreateAlertRequest(
    stockSymbol: string,
    stockName: string,
    alertType: string,
    thresholdPrice: Option<real>,
    thresholdYield: Option<real>,
    targetYield: Option<real>,
    yieldChangeThreshold: Option<real>)

  /** Every field optional: an update may touch any subset of them. */
  datatype UpdateAlertRequest = UpdateAlertRequest(
    alertType: Option<string>,
    thresholdPrice: Option<real>,
    thresholdYield: Option<real>,
    targetYield: Option<real>,
    yieldChangeThreshold: Option<real>,
    status: Option<string>)

  datatype IPOAnnouncement = IPOAnnouncement(
    id: string,
    companyName: string,
    symbol: string,
    sector: string,
    offerPrice: real,
    listingDate: int,
    status: string,
    createdAt: int,
    updatedAt: int)

  datatype CreateIPORequest = CreateIPORequest(
    companyName: string, symbol: string, sector: string, offerPrice: real, listingDate: int)

  datatype DividendAnnouncement = DividendAnnouncement(
    id: string,
    stockSymbol: string,
    stockName: string,
    dividendType: string,
    amount: real,
    currency: string,
    exDate: int,
    paymentDate: int,
    status: string,
    createdAt: int,
    updatedAt: int)

  datatype CreateDividendRequest = CreateDividendRequest(
    stockSymbol: string,
    stockName: string,
    dividendType: string,
    amount: real,
    currency: string,
    exDate: int,
    paymentDate: int)

  /** A user as the notification paths need it (backend/internal/models/user.go). */
  datatype User = User(id: string, email: string, name: string)
}
