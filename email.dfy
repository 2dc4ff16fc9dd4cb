// The dispatch decisions of backend/internal/services/email_service.go: the
// configuration guard, the subject chosen for each event, and the data each
// template is filled with. HTML rendering is replaced by the template's data, and
// the SMTP exchange by the set of addresses the server refuses.
module Email {
  import opened Wrappers
  import opened Models

  datatype SmtpConfig = SmtpConfig(user: string, password: string)

  datatype Mailer = Mailer(config: SmtpConfig, refused: set<string>)

  /** The values a template is filled with. */
  datatype MailBody =
    | PriceAlertBody(userName: string, symbol: string, name: string,
                     currentPrice: real, thresholdPrice: real, alertType: string)
    | WelcomeBody(userName: string)
    | IPOBody(userName: string, ipo: IPOAnnouncement, announced: bool)
    | DividendBody(userName: string, dividend: DividendAnnouncement, announced: bool)
    | HighYieldBody(userName: string, currentYield: real, thresholdYield: real)
    | TargetYieldBody(userName: string, currentYield: real, targetYield: real)
    | YieldChangeBody(userName: string, currentYield: real, lastYield: real,
                      change: real, direction: string, changeThreshold: real)

  datatype Mail = Mail(to: string, subject: string, body: MailBody)

  const NotConfigured: string := "email service not configured"

  predicate Configured(m: Mailer) { m.config.user != "" && m.config.password != "" }

  /** `sendEmail`: the SMTP server accepts the message unless it refuses the address. */
  function Deliver(m: Mailer, mail: Mail): (r: Result<Mail, string>)
    ensures r.Success? <==> mail.to !in m.refused
    ensures r.Success? ==> r.value == mail
  {
    if mail.to in m.refused then Failure("smtp: recipient refused") else Success(mail)
  }

  /** A nil price is reported as 0. */
  function PriceOrZero(p: Option<real>): (r: real)
    ensures p.Some? ==> r == p.value
    ensures p.None? ==> r == 0.0
  {
    if p.Some? then p.value else 0.0
  }

  function Subject(prefix: string, name: string, symbol: string): string
  {
    prefix + name + " (" + symbol + ")"
  }

  function SendAlertEmail(m: Mailer, user: User, alert: Alert): (r: Result<Mail, string>)
    ensures !Configured(m) ==> r == Failure(NotConfigured)
    ensures r.Success? <==> Configured(m) && user.email !in m.refused
    ensures r.Success? ==>
      && r.value.to == user.email
      && r.value.subject == Subject("Stock Alert: ", alert.stockName, alert.stockSymbol)
      && r.value.body.PriceAlertBody?
      && r.value.body.currentPrice == PriceOrZero(alert.currentPrice)
      && r.value.body.thresholdPrice == PriceOrZero(alert.thresholdPrice)
  {
    if !Configured(m) then Failure(NotConfigured)
    else
      var body := PriceAlertBody(user.name, alert.stockSymbol, alert.stockName,
                                 PriceOrZero(alert.currentPrice), PriceOrZero(alert.thresholdPrice),
                                 alert.alertType);
      Deliver(m, Mail(user.email, Subject("Stock Alert: ", alert.stockName, alert.stockSymbol), body))
  }

  function SendWelcomeEmail(m: Mailer, user: User): (r: Result<Mail, string>)
    ensures !Configured(m) ==> r == Failure(NotConfigured)
    ensures r.Success? ==> r.value == Mail(user.email, "Welcome to Shares Alert Ghana!", WelcomeBody(user.name))
  {
    if !Configured(m) then Failure(NotConfigured)
    else Deliver(m, Mail(user.email, "Welcome to Shares Alert Ghana!", WelcomeBody(user.name)))
  }

  /** "announced" selects the announcement mail; every other event, the listing mail. */
  function SendIPOAlertEmail(m: Mailer, user: User, ipo: IPOAnnouncement, eventType: string): (r: Result<Mail, string>)
    ensures !Configured(m) ==> r == Failure(NotConfigured)
    ensures r.Success? ==> r.value.to == user.email
    ensures r.Success? && eventType == "announced" ==>
      r.value.subject == Subject("New IPO Announced: ", ipo.companyName, ipo.symbol)
    ensures r.Success? && eventType != "announced" ==>
      r.value.subject == Subject("IPO Now Listed: ", ipo.companyName, ipo.symbol)
  {
    if !Configured(m) then Failure(NotConfigured)
    else
      var announced := eventType == "announced";
      var subject := if announced then Subject("New IPO Announced: ", ipo.companyName, ipo.symbol)
                     else Subject("IPO Now Listed: ", ipo.companyName, ipo.symbol);
      Deliver(m, Mail(user.email, subject, IPOBody(user.name, ipo, announced)))
  }

  /** "announced" selects the announcement mail; every other event, the payment mail. */
  function SendDividendAlertEmail(m: Mailer, user: User, d: DividendAnnouncement, eventType: string): (r: Result<Mail, string>)
    ensures !Configured(m) ==> r == Failure(NotConfigured)
    ensures r.Success? ==> r.value.to == user.email
    ensures r.Success? && eventType == "announced" ==>
      r.value.subject == Subject("Dividend Announced: ", d.stockName, d.stockSymbol)
    ensures r.Success? && eventType != "announced" ==>
      r.value.subject == Subject("Dividend Paid: ", d.stockName, d.stockSymbol)
  {
    if !Configured(m) then Failure(NotConfigured)
    else
      var announced := eventType == "announced";
      var subject := if announced then Subject("Dividend Announced: ", d.stockName, d.stockSymbol)
                     else Subject("Dividend Paid: ", d.stockName, d.stockSymbol);
      Deliver(m, Mail(user.email, subject, DividendBody(user.name, d, announced)))
  }

  /**
   * generateDividendYieldChangeEmail: the change is current minus last; a negative
   * change is reported as its magnitude with the word "decreased".
   */
  method YieldChange(currentYield: real, lastYield: real) returns (change: real, direction: string)
    ensures direction == (if currentYield < lastYield then "decreased" else "increased")
    ensures change >= 0.0
    ensures change == currentYield - lastYield || change == lastYield - currentYield
  {
    change := currentYield - lastYield;
    direction := "increased";
    if change < 0.0 {
      direction := "decreased";
      change := -change;
    }
  }

  /** The template fields each yield kind dereferences. */
  predicate YieldFieldsPresent(alert: Alert)
  {
    (alert.alertType == "high_dividend_yield" ==> alert.thresholdYield.Some?)
    && (alert.alertType == "target_dividend_yield" ==> alert.targetYield.Some?)
    && (alert.alertType == "dividend_yield_change" ==> alert.lastYield.Some? && alert.yieldChangeThreshold.Some?)
  }

  /**
   * Accepts exactly the three yield kinds. Once the guard passes, the chosen
   * template dereferences that kind's fields, so they must be present.
   */
  method SendDividendYieldAlertEmail(m: Mailer, user: User, alert: Alert, currentYield: real)
    returns (r: Result<Mail, string>)
    requires Configured(m) ==> YieldFieldsPresent(alert)
    ensures !Configured(m) ==> r == Failure(NotConfigured)
    ensures Configured(m) && alert.alertType !in {"high_dividend_yield", "target_dividend_yield", "dividend_yield_change"}
      ==> r == Failure("unsupported dividend yield alert type: " + alert.alertType)
    ensures r.Success? ==> r.value.to == user.email
    ensures r.Success? && alert.alertType == "high_dividend_yield" ==>
      r.value.subject == Subject("High Dividend Yield Alert: ", alert.stockName, alert.stockSymbol)
    ensures r.Success? && alert.alertType == "target_dividend_yield" ==>
      r.value.subject == Subject("Target Dividend Yield Reached: ", alert.stockName, alert.stockSymbol)
    ensures r.Success? && alert.alertType == "dividend_yield_change" ==>
      r.value.subject == Subject("Dividend Yield Change Alert: ", alert.stockName, alert.stockSymbol)
      && r.value.body.YieldChangeBody?
      && (r.value.body.direction == "decreased" <==> currentYield < alert.lastYield.value)
  {
    if !Configured(m) {
      return Failure(NotConfigured);
    }
    var subject: string;
    var body: MailBody;
    if alert.alertType == "high_dividend_yield" {
      subject := Subject("High Dividend Yield Alert: ", alert.stockName, alert.stockSymbol);
      body := HighYieldBody(user.name, currentYield, alert.thresholdYield.value);
    } else if alert.alertType == "target_dividend_yield" {
      subject := Subject("Target Dividend Yield Reached: ", alert.stockName, alert.stockSymbol);
      body := TargetYieldBody(user.name, currentYield, alert.targetYield.value);
    } else if alert.alertType == "dividend_yield_change" {
      subject := Subject("Dividend Yield Change Alert: ", alert.stockName, alert.stockSymbol);
      var change, direction := YieldChange(currentYield, alert.lastYield.value);
      body := YieldChangeBody(user.name, currentYield, alert.lastYield.value, change, direction,
                              alert.yieldChangeThreshold.value);
    } else {
      return Failure("unsupported dividend yield alert type: " + alert.alertType);
    }
    r := Deliver(m, Mail(user.email, subject, body));
  }
}
