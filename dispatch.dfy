/** What one press of the "Open Chat" button does, as a value.

    The press re-validates the current number. Only a valid number leads to
    a link, and the link leads to exactly one request to the operating
    system: an explicit VIEW intent for the `com.whatsapp` package on
    Android, a plain URL open elsewhere. The operating system is an oracle
    `os` that accepts or refuses a request; a refusal (the awaited intent
    throwing, or the `openURL` promise rejecting) produces exactly one
    "not installed" alert and no retry.
 */
module Dispatch {
  import opened PhoneValidation
  import opened DeepLink

  /** `Platform.OS === 'android'` or any other platform. */
  datatype Platform = Android | OtherPlatform

  const ViewAction: string := "android.intent.action.VIEW"
  const WhatsAppPackage: string := "com.whatsapp"
  const NotInstalledMessage: string := "WhatsApp not installed or cannot be opened"

  /** A request handed to the operating system. */
  datatype OsRequest =
    | StartActivity(action: string, packageName: string, data: string)
    | OpenUrl(url: string)

  /** A call the launcher makes outside itself, in the order it makes them. */
  datatype Call = Os(request: OsRequest) | Alert(message: string)

  /** How a press ends: rejected by validation, or one request that the
      operating system accepted or refused. */
  datatype PressResult =
    | Rejected(reason: Reason)
    | Opened(request: OsRequest)
    | Failed(request: OsRequest)

  /** The request each platform issues for a link. */
  function Request(platform: Platform, url: string): OsRequest {
    match platform
    case Android => StartActivity(ViewAction, WhatsAppPackage, url)
    case OtherPlatform => OpenUrl(url)
  }

  /** The link a request carries. */
  function RequestUrl(q: OsRequest): string {
    match q
    case StartActivity(_, _, data) => data
    case OpenUrl(url) => url
  }

  /** The outcome of pressing the button with `phone` typed and `country`
      selected, when the operating system answers requests as `os` does. */
  function Press(phone: string, country: Country, platform: Platform, os: OsRequest -> bool): PressResult {
    if !Validate(phone).Valid? then Rejected(Validate(phone).reason)
    else
      var q := Request(platform, BuildLink(CallingCode(country), Digits(phone)));
      if os(q) then Opened(q) else Failed(q)
  }

  /** The external calls a press makes. */
  function PressCalls(r: PressResult): seq<Call> {
    match r
    case Rejected(_) => []
    case Opened(q) => [Os(q)]
    case Failed(q) => [Os(q), Alert(NotInstalledMessage)]
  }

  /** How many requests to the operating system a trace holds. */
  function OsAttempts(calls: seq<Call>): nat {
    if calls == [] then 0 else (if calls[0].Os? then 1 else 0) + OsAttempts(calls[1..])
  }

  /** How many alerts a trace holds. */
  function Alerts(calls: seq<Call>): nat {
    if calls == [] then 0 else (if calls[0].Alert? then 1 else 0) + Alerts(calls[1..])
  }

  // ---------------------------------------------------------------------
  // Properties of a press

  /** A request, hence a link, exists only for a number that validates; a
      rejection carries the validation's reason. */
  lemma PressRejectsExactlyInvalid(phone: string, country: Country, platform: Platform, os: OsRequest -> bool)
    ensures Press(phone, country, platform, os).Rejected? <==> !Validate(phone).Valid?
    ensures Press(phone, country, platform, os).Rejected? ==>
              Press(phone, country, platform, os).reason == Validate(phone).reason
    ensures Press(phone, country, platform, os) == Rejected(Empty) <==> DigitCount(phone) == 0
    ensures Press(phone, country, platform, os) == Rejected(TooShort) <==> 0 < DigitCount(phone) < MinDigits
  {
    ValidateByDigitCount(phone);
  }

  /** A press makes exactly one request to the operating system when the
      number validates and none otherwise; there is never a retry. */
  lemma PressAttemptsOnce(phone: string, country: Country, platform: Platform, os: OsRequest -> bool)
    ensures OsAttempts(PressCalls(Press(phone, country, platform, os))) ==
            if Validate(phone).Valid? then 1 else 0
  {
    var calls := PressCalls(Press(phone, country, platform, os));
    if |calls| == 2 {
      var tail := calls[1..];
      assert tail == [Alert(NotInstalledMessage)] && tail[1..] == [];
      assert OsAttempts(tail) == 0;
    }
  }

  /** The one request is the platform's request for the link built from the
      selected calling code and the typed digits, and it comes first. */
  lemma PressRequestCarriesLink(phone: string, country: Country, platform: Platform, os: OsRequest -> bool)
    requires Validate(phone).Valid?
    ensures !Press(phone, country, platform, os).Rejected?
    ensures PressCalls(Press(phone, country, platform, os))[0] ==
            Os(Request(platform, BuildLink(CallingCode(country), Validate(phone).digits)))
    ensures RequestUrl(Press(phone, country, platform, os).request) ==
            BuildLink(CallingCode(country), Digits(phone))
  {
  }

  /** The selected country reaches the request through its first calling
      code; a country whose calling-code list is empty puts the text
      "undefined" in its place, as the template literal renders a missing
      array element. */
  lemma PressLinkCarriesCountryCode(phone: string, country: Country, platform: Platform, os: OsRequest -> bool)
    requires Validate(phone).Valid?
    ensures !Press(phone, country, platform, os).Rejected?
    ensures |country.callingCode| > 0 ==>
              PhoneParam(RequestUrl(Press(phone, country, platform, os).request)) ==
              Some(country.callingCode[0] + Digits(phone))
    ensures |country.callingCode| == 0 ==>
              PhoneParam(RequestUrl(Press(phone, country, platform, os).request)) ==
              Some("undefined" + Digits(phone))
  {
    LinkRoundTrip(CallingCode(country), Digits(phone));
  }

  /** Exactly one alert follows a refused request; an accepted request or a
      rejected number alerts nothing. */
  lemma PressAlertsOnlyOnRefusal(phone: string, country: Country, platform: Platform, os: OsRequest -> bool)
    ensures var r := Press(phone, country, platform, os);
            Alerts(PressCalls(r)) == if r.Failed? then 1 else 0
    ensures var r := Press(phone, country, platform, os);
            r.Failed? <==> Validate(phone).Valid? && !os(r.request)
    ensures var r := Press(phone, country, platform, os);
            r.Failed? ==> PressCalls(r) == [Os(r.request), Alert(NotInstalledMessage)]
  {
    var calls := PressCalls(Press(phone, country, platform, os));
    if |calls| == 2 {
      var tail := calls[1..];
      assert tail == [Alert(NotInstalledMessage)] && tail[1..] == [];
    }
  }

  /** Both platform branches behave alike: when the operating system answers
      the two requests for a link the same way, the presses end the same way
      for the same link. */
  lemma PlatformsAgree(phone: string, country: Country, os: OsRequest -> bool)
    requires var url := BuildLink(CallingCode(country), Digits(phone));
             os(Request(Android, url)) == os(Request(OtherPlatform, url))
    ensures Press(phone, country, Android, os).Rejected? == Press(phone, country, OtherPlatform, os).Rejected?
    ensures Press(phone, country, Android, os).Opened? == Press(phone, country, OtherPlatform, os).Opened?
    ensures Press(phone, country, Android, os).Failed? == Press(phone, country, OtherPlatform, os).Failed?
    ensures !Press(phone, country, Android, os).Rejected? ==>
              RequestUrl(Press(phone, country, Android, os).request) ==
              RequestUrl(Press(phone, country, OtherPlatform, os).request)
  {
  }

  /** On Android with the package missing, the press issues the VIEW intent
      once and shows one alert. */
  lemma AndroidNotInstalledExample(typed: string, os: OsRequest -> bool)
    requires typed == "712345678"
    requires !os(StartActivity(ViewAction, WhatsAppPackage, "whatsapp://send?phone=254712345678"))
    ensures PressCalls(Press(typed, Kenya, Android, os)) ==
            [Os(StartActivity(ViewAction, WhatsAppPackage, "whatsapp://send?phone=254712345678")),
             Alert(NotInstalledMessage)]
  {
    var url := "whatsapp://send?phone=254712345678";
    assert Validate(typed) == Valid(typed) by {
      DigitsFixedPoints(typed);
    }
    assert BuildLink(CallingCode(Kenya), typed) == url;
    assert Press(typed, Kenya, Android, os) == Failed(StartActivity(ViewAction, WhatsAppPackage, url));
  }

  /** Elsewhere, a URL nobody handles is opened once and alerts once. */
  lemma UrlNotHandledExample(typed: string, os: OsRequest -> bool)
    requires typed == "712345678"
    requires !os(OpenUrl("whatsapp://send?phone=254712345678"))
    ensures PressCalls(Press(typed, Kenya, OtherPlatform, os)) ==
            [Os(OpenUrl("whatsapp://send?phone=254712345678")), Alert(NotInstalledMessage)]
  {
    var url := "whatsapp://send?phone=254712345678";
    assert Validate(typed) == Valid(typed) by {
      DigitsFixedPoints(typed);
    }
    assert BuildLink(CallingCode(Kenya), typed) == url;
    assert Press(typed, Kenya, OtherPlatform, os) == Failed(OpenUrl(url));
  }

  /** End to end: the Kenyan default, "0712 345 678" typed, the operating
      system accepting: the chat opens on the link with the trunk zero. */
  lemma KenyaEndToEndExample(typed: string, os: OsRequest -> bool)
    requires typed == "0712 345 678"
    requires os(OpenUrl("whatsapp://send?phone=2540712345678"))
    ensures Press(typed, Kenya, OtherPlatform, os) == Opened(OpenUrl("whatsapp://send?phone=2540712345678"))
  {
    assert Digits(typed) == "0712345678" by {
      LeadingZeroExample();
    }
    assert LinkPrefix + "254" + "0712345678" == "whatsapp://send?phone=2540712345678";
  }
}
