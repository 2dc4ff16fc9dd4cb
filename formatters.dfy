// utils/formatters.ts: display labels for alert kinds and notification
// channels, and the money and percentage prefixes. Number rendering is
// `toFixed(2)` on an exact decimal (Text.Fixed2).
module Formatters {
  import opened Wrappers
  import Text
  import Models

  /** The five notification channels of types/enums.ts. */
  datatype Channel = Sms | WhatsApp | Telegram | Email | MobilePush

  function ChannelName(c: Channel): string
  {
    match c
    case Sms => "sms"
    case WhatsApp => "whatsapp"
    case Telegram => "telegram"
    case Email => "email"
    case MobilePush => "mobile_push"
  }

  function ParseChannel(s: string): (r: Option<Channel>)
    ensures r.Some? ==> ChannelName(r.value) == s
    ensures r.None? ==> forall c :: ChannelName(c) != s
  {
    if s == "sms" then Some(Sms)
    else if s == "whatsapp" then Some(WhatsApp)
    else if s == "telegram" then Some(Telegram)
    else if s == "email" then Some(Email)
    else if s == "mobile_push" then Some(MobilePush)
    else None
  }

  function KindLabel(k: Models.AlertKind): string
  {
    match k
    case PriceThreshold => "Price Threshold"
    case IPOAlert => "IPO Alert"
    case DividendAnnouncementAlert => "Dividend Announcement"
    case HighDividendYield => "High Dividend Yield"
    case DividendYieldChange => "Dividend Yield Change"
    case TargetDividendYield => "Target Dividend Yield"
  }

  /** formatAlertType: a known kind gets its label, which differs from the raw constant; anything else is shown as given. */
  function FormatAlertType(t: string): (r: string)
    ensures Models.ParseKind(t).None? ==> r == t
    ensures Models.ParseKind(t).Some? ==> r == KindLabel(Models.ParseKind(t).value) && r != t
  {
    match Models.ParseKind(t)
    case Some(k) => KindLabel(k)
    case None => t
  }

  /** The six kinds get six different labels. */
  lemma AlertTypeLabelsDistinct(a: Models.AlertKind, b: Models.AlertKind)
    ensures FormatAlertType(Models.KindName(a)) == FormatAlertType(Models.KindName(b)) ==> a == b
  {
    Models.KindNamesDistinct(a, a);
    assert Models.ParseKind(Models.KindName(a)) == Some(a);
    assert Models.ParseKind(Models.KindName(b)) == Some(b);
  }

  function ChannelLabel(c: Channel): string
  {
    match c
    case Sms => "SMS"
    case WhatsApp => "WhatsApp"
    case Telegram => "Telegram"
    case Email => "Email"
    case MobilePush => "Mobile Push"
  }

  /** formatNotificationChannel: a known channel gets its label; anything else is shown as given. */
  function FormatNotificationChannel(s: string): (r: string)
    ensures ParseChannel(s).None? ==> r == s
    ensures ParseChannel(s).Some? ==> r == ChannelLabel(ParseChannel(s).value)
  {
    match ParseChannel(s)
    case Some(c) => ChannelLabel(c)
    case None => s
  }

  /** The five channels get five different labels. */
  lemma ChannelLabelsDistinct(a: Channel, b: Channel)
    ensures FormatNotificationChannel(ChannelName(a)) == FormatNotificationChannel(ChannelName(b)) ==> a == b
  {
    assert ParseChannel(ChannelName(a)) == Some(a);
    assert ParseChannel(ChannelName(b)) == Some(b);
  }

  const PricePrefix: string := "GHS "
  const CurrencyPrefix: string := "GH₵ "

  function FormatPrice(price: real): (r: string)
    ensures PricePrefix <= r
  {
    PricePrefix + Text.Fixed2(price)
  }

  function FormatCurrency(amount: real): (r: string)
    ensures CurrencyPrefix <= r
  {
    CurrencyPrefix + Text.Fixed2(amount)
  }

  function FormatPercentage(value: real): (r: string)
    ensures |r| >= 1 && r[|r| - 1] == '%'
  {
    Text.Fixed2(value) + "%"
  }

  /** The number after the prefix (or before the '%') reads back within half a hundredth of the input. */
  lemma FormattedAmountsReadBack(x: real)
    ensures ParseDecimalAfter(FormatPrice(x), PricePrefix).Some?
    ensures x - 0.005 <= ParseDecimalAfter(FormatPrice(x), PricePrefix).value <= x + 0.005
    ensures ParseDecimalAfter(FormatCurrency(x), CurrencyPrefix) == ParseDecimalAfter(FormatPrice(x), PricePrefix)
    ensures Text.ParseDecimal(Text.TrimSuffix(FormatPercentage(x), "%")) == ParseDecimalAfter(FormatPrice(x), PricePrefix)
  {
    Text.Fixed2ReadsBack(x);
    var f := Text.Fixed2(x);
    assert Text.TrimPrefix(FormatPrice(x), PricePrefix) == f;
    assert Text.TrimPrefix(FormatCurrency(x), CurrencyPrefix) == f;
    var p := FormatPercentage(x);
    assert p[|p| - 1..] == "%";
    assert Text.TrimSuffix(p, "%") == f;
  }

  function ParseDecimalAfter(s: string, prefix: string): Option<real>
  {
    Text.ParseDecimal(Text.TrimPrefix(s, prefix))
  }
}
