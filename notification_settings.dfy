// components/forms/NotificationSettings.tsx: the channel switches, the Ghana
// phone-number check and the save guard. onSave is modelled by returning the
// settings it would be called with.
module NotificationSettings {
  import opened Wrappers
  import Text
  import opened Formatters

  /** `Record<NotificationChannel, boolean>`: one switch per channel. */
  datatype Switches = Switches(sms: bool, whatsApp: bool, telegram: bool, email: bool, mobilePush: bool)
  {
    function On(c: Channel): bool
    {
      match c
      case Sms => sms
      case WhatsApp => whatsApp
      case Telegram => telegram
      case Email => email
      case MobilePush => mobilePush
    }

    function Set(c: Channel, v: bool): (r: Switches)
      ensures r.On(c) == v
      ensures forall d: Channel :: d != c ==> r.On(d) == On(d)
    {
      match c
      case Sms => this.(sms := v)
      case WhatsApp => this.(whatsApp := v)
      case Telegram => this.(telegram := v)
      case Email => this.(email := v)
      case MobilePush => this.(mobilePush := v)
    }
  }

  datatype Settings = Settings(
    channels: Switches,
    phoneNumber: Option<string>,
    telegramUsername: Option<string>,
    whatsappNumber: Option<string>)

  const PhoneFormatError: string := "Phone number must be in format +233XXXXXXXXX"
  const CountryCode: string := "+233"

  /** The form's defaults: email and mobile push on, SMS, WhatsApp and Telegram off. */
  function DefaultSettings(): (r: Settings)
    ensures forall c: Channel :: r.channels.On(c) <==> c == Email || c == MobilePush
    ensures r.phoneNumber.None? && r.telegramUsername.None? && r.whatsappNumber.None?
  {
    Settings(Switches(sms := false, whatsApp := false, telegram := false, email := true, mobilePush := true), None, None, None)
  }

  /** `/^\+233\d{9}$/`: "+233" and exactly nine ASCII digits. */
  predicate GhanaNumber(phone: string)
  {
    |phone| == 13 && phone[..4] == CountryCode && Text.AllDigits(phone[4..])
  }

  /** validatePhone's verdict: the empty string passes, anything else must be a Ghana number. */
  predicate PhoneAccepted(phone: string) { phone == "" || GhanaNumber(phone) }

  lemma PhoneExamples()
    ensures PhoneAccepted("") && PhoneAccepted("+233244123456")
    ensures !PhoneAccepted("0244123456") && !PhoneAccepted("+23324412345") && !PhoneAccepted("+2332441234567")
    ensures !PhoneAccepted("+234244123456")
  {
    assert "+233244123456"[..4] == CountryCode;
    assert "+234244123456"[..4] != CountryCode by { assert "+234244123456"[3] != CountryCode[3]; }
  }

  /** The phone field is shown exactly when SMS or WhatsApp is on. */
  function PhoneFieldShown(s: Settings): bool
  {
    s.channels.On(Sms) || s.channels.On(WhatsApp)
  }

  /** Hidden by default; switching SMS on shows it; the other three channels never change it. */
  lemma PhoneFieldFollowsPhoneChannels(s: Settings, c: Channel)
    ensures !PhoneFieldShown(DefaultSettings())
    ensures PhoneFieldShown(Toggled(DefaultSettings(), Sms))
    ensures c != Sms && c != WhatsApp ==> PhoneFieldShown(Toggled(s, c)) == PhoneFieldShown(s)
  {
  }

  /** A toggle flips exactly the one channel and nothing else. */
  function Toggled(s: Settings, c: Channel): (r: Settings)
    ensures r.channels.On(c) == !s.channels.On(c)
    ensures forall d: Channel :: d != c ==> r.channels.On(d) == s.channels.On(d)
    ensures r.(channels := s.channels) == s
  {
    s.(channels := s.channels.Set(c, !s.channels.On(c)))
  }

  /** Toggling the same channel twice restores the settings. */
  lemma ToggleTwice(s: Settings, c: Channel)
    ensures Toggled(Toggled(s, c), c) == s
  {
    match c
    case Sms =>
    case WhatsApp =>
    case Telegram =>
    case Email =>
    case MobilePush =>
  }

  class Form {
    var settings: Settings
    var phoneError: string

    /** The given settings, or the defaults when none are given; no phone error. */
    constructor(initial: Option<Settings>)
      ensures settings == if initial.Some? then initial.value else DefaultSettings()
      ensures phoneError == ""
    {
      settings := if initial.Some? then initial.value else DefaultSettings();
      phoneError := "";
    }

    /** validatePhone: answers PhoneAccepted and sets or clears the error message to match. */
    method ValidatePhone(phone: string) returns (ok: bool)
      modifies this
      ensures ok <==> PhoneAccepted(phone)
      ensures phoneError == if ok then "" else PhoneFormatError
      ensures settings == old(settings)
    {
      if phone != "" && !GhanaNumber(phone) {
        phoneError := PhoneFormatError;
        return false;
      }
      phoneError := "";
      ok := true;
    }

    /** handleChannelToggle. */
    method ToggleChannel(c: Channel)
      modifies this
      ensures settings == Toggled(old(settings), c) && phoneError == old(phoneError)
    {
      settings := settings.(channels := settings.channels.Set(c, !settings.channels.On(c)));
    }

    /** The phone field's onChange: stores the text, and checks it unless it is empty. */
    method EditPhone(value: string)
      modifies this
      ensures settings == old(settings).(phoneNumber := Some(value))
      ensures value == "" ==> phoneError == old(phoneError)
      ensures value != "" ==> phoneError == if PhoneAccepted(value) then "" else PhoneFormatError
    {
      settings := settings.(phoneNumber := Some(value));
      if value != "" {
        var ignored := ValidatePhone(value);
      }
    }

    /** handleSave: onSave runs with the settings unless a non-empty phone number fails the check. */
    method Save() returns (saved: Option<Settings>)
      modifies this
      ensures settings == old(settings)
      ensures saved.None? <==> settings.phoneNumber.Some? && !PhoneAccepted(settings.phoneNumber.value)
      ensures saved.Some? ==> saved.value == settings
      ensures saved.None? ==> phoneError == PhoneFormatError
      ensures saved.Some? ==> phoneError == if settings.phoneNumber.Some? && settings.phoneNumber.value != "" then "" else old(phoneError)
    {
      if settings.phoneNumber.Some? && settings.phoneNumber.value != "" {
        var ok := ValidatePhone(settings.phoneNumber.value);
        if !ok {
          return None;
        }
      }
      saved := Some(settings);
    }
  }
}
