/** The launcher component's state and its event handlers.

    Each React state variable of the component is a field; each setter call
    is an assignment. The calls the component makes outside itself (the
    intent or URL request and the alert) are appended to `calls`, so that a
    handler's contract can say exactly which calls it made.
 */
module Launcher {
  import opened PhoneValidation
  import opened DeepLink
  import opened Dispatch

  /** The inline status agrees with the typed text: a set error flag carries
      the message for the text's rejection, a clear flag an empty message and
      either an empty input (right after Clear or at start) or a valid one. */
  predicate StatusConsistent(phone: string, isValid: bool, message: string) {
    if isValid then message == "" && (phone == [] || Validate(phone).Valid?)
    else !Validate(phone).Valid? && message == ErrorMessage(Validate(phone))
  }

  /** The "Open Chat" button is disabled when the status shows an error or
      nothing has been typed. */
  predicate LaunchDisabled(isValid: bool, phone: string) {
    !isValid || |phone| == 0
  }

  /** In every consistent state the button is disabled exactly when the typed
      text would be rejected. */
  lemma DisabledIffRejected(phone: string, isValid: bool, message: string)
    requires StatusConsistent(phone, isValid, message)
    ensures LaunchDisabled(isValid, phone) <==> !Validate(phone).Valid?
  {
    if phone == [] {
      assert Digits(phone) == [];
    }
  }

  /** So pressing an enabled button always reaches the operating system,
      exactly once. */
  lemma EnabledButtonLaunches(phone: string, isValid: bool, message: string,
                              country: Country, platform: Platform, os: OsRequest -> bool)
    requires StatusConsistent(phone, isValid, message)
    requires !LaunchDisabled(isValid, phone)
    ensures !Press(phone, country, platform, os).Rejected?
    ensures OsAttempts(PressCalls(Press(phone, country, platform, os))) == 1
  {
    DisabledIffRejected(phone, isValid, message);
    PressAttemptsOnce(phone, country, platform, os);
  }

  class WhatsAppLauncher {
    var countryCode: string
    var country: Country
    var phoneNumber: string
    var isPickerVisible: bool
    var isValid: bool
    var errorMessage: string
    /** The external calls made so far, oldest first. */
    var calls: seq<Call>

    ghost predicate Valid()
      reads this
    {
      countryCode == country.cca2 && StatusConsistent(phoneNumber, isValid, errorMessage)
    }

    /** Kenya selected, nothing typed, no error shown, picker closed. */
    constructor ()
      ensures Valid()
      ensures countryCode == "KE" && country == Kenya
      ensures phoneNumber == "" && !isPickerVisible
      ensures isValid && errorMessage == ""
      ensures calls == []
    {
      countryCode := "KE";
      country := Kenya;
      phoneNumber := "";
      isPickerVisible := false;
      isValid := true;
      errorMessage := "";
      calls := [];
    }

    predicate ButtonDisabled()
      reads this
    {
      LaunchDisabled(isValid, phoneNumber)
    }

    /** `validatePhoneNumber`: sets the error flag and message for `number`
        and returns the new flag. */
    method ValidatePhoneNumber(number: string) returns (ok: bool)
      modifies this`isValid, this`errorMessage
      ensures ok == isValid
      ensures isValid <==> DigitCount(number) >= MinDigits
      ensures errorMessage == ErrorMessage(Validate(number))
      ensures isValid == Validate(number).Valid?
    {
      var cleanNumber := Digits(number);
      if |cleanNumber| == 0 {
        isValid := false;
        errorMessage := RequiredMessage;
        ok := false;
      } else if |cleanNumber| < MinDigits {
        isValid := false;
        errorMessage := TooShortMessage;
        ok := false;
      } else {
        isValid := true;
        errorMessage := "";
        ok := true;
      }
      DigitsLength(number);
    }

    /** `handlePhoneNumberChange`: stores the text and validates it. */
    method HandlePhoneNumberChange(text: string)
      requires Valid()
      modifies this`phoneNumber, this`isValid, this`errorMessage
      ensures Valid()
      ensures phoneNumber == text
      ensures isValid == Validate(text).Valid? && errorMessage == ErrorMessage(Validate(text))
      ensures ButtonDisabled() <==> DigitCount(text) < MinDigits
      ensures country == old(country) && countryCode == old(countryCode)
      ensures isPickerVisible == old(isPickerVisible) && calls == old(calls)
    {
      phoneNumber := text;
      var _ := ValidatePhoneNumber(text);
      DisabledIffRejected(phoneNumber, isValid, errorMessage);
      ValidateByDigitCount(text);
    }

    /** `onSelectCountry`: the picked country replaces the old one wholesale
        and the picker closes; the typed number is untouched. */
    method OnSelectCountry(selected: Country)
      requires Valid()
      modifies this`countryCode, this`country, this`isPickerVisible
      ensures Valid()
      ensures country == selected && countryCode == selected.cca2
      ensures !isPickerVisible
      ensures phoneNumber == old(phoneNumber) && isValid == old(isValid)
      ensures errorMessage == old(errorMessage) && calls == old(calls)
    {
      countryCode := selected.cca2;
      country := selected;
      isPickerVisible := false;
    }

    /** Pressing the country button opens the picker. */
    method OpenPicker()
      requires Valid()
      modifies this`isPickerVisible
      ensures Valid() && isPickerVisible
    {
      isPickerVisible := true;
    }

    /** Closing the picker without a choice keeps the country. */
    method ClosePicker()
      requires Valid()
      modifies this`isPickerVisible
      ensures Valid() && !isPickerVisible
    {
      isPickerVisible := false;
    }

    /** The clear button: empties the input and the error; the launch button
        is then disabled. */
    method ClearPhoneNumber()
      requires Valid()
      modifies this`phoneNumber, this`isValid, this`errorMessage
      ensures Valid()
      ensures phoneNumber == "" && isValid && errorMessage == ""
      ensures ButtonDisabled()
      ensures country == old(country) && countryCode == old(countryCode)
      ensures isPickerVisible == old(isPickerVisible) && calls == old(calls)
    {
      phoneNumber := "";
      isValid := true;
      errorMessage := "";
    }

    /** `handleButtonPress`: re-validates the typed number and, only when it
        is valid, builds the link and issues one platform request; a refused
        request is followed by one alert. `os` stands for the operating
        system's answer. */
    method HandleButtonPress(platform: Platform, os: OsRequest -> bool) returns (r: PressResult)
      requires Valid()
      modifies this`isValid, this`errorMessage, this`calls
      ensures Valid()
      ensures r == Press(phoneNumber, country, platform, os)
      ensures calls == old(calls) + PressCalls(r)
      ensures isValid == Validate(phoneNumber).Valid? && errorMessage == ErrorMessage(Validate(phoneNumber))
    {
      var ok := ValidatePhoneNumber(phoneNumber);
      if !ok {
        r := Rejected(Validate(phoneNumber).reason);
        return;
      }
      var formattedNumber := Digits(phoneNumber);
      var whatsappUrl := BuildLink(CallingCode(country), formattedNumber);
      var request: OsRequest;
      if platform == Android {
        request := StartActivity(ViewAction, WhatsAppPackage, whatsappUrl);
      } else {
        request := OpenUrl(whatsappUrl);
      }
      calls := calls + [Os(request)];
      if os(request) {
        r := Opened(request);
      } else {
        calls := calls + [Alert(NotInstalledMessage)];
        r := Failed(request);
      }
    }
  }

  /** A whole session from start: type `typed`, then press the button. The
      press reaches the handler only while the button is enabled, as the
      `disabled` property of the button decides. The external calls are
      those the pure model of a press prescribes for the default country, so
      the operating system is asked exactly once when the text holds five
      digits or more and never otherwise. */
  method FreshSession(typed: string, platform: Platform, os: OsRequest -> bool) returns (trace: seq<Call>)
    ensures trace == PressCalls(Press(typed, Kenya, platform, os))
    ensures OsAttempts(trace) == if DigitCount(typed) >= MinDigits then 1 else 0
  {
    var launcher := new WhatsAppLauncher();
    launcher.HandlePhoneNumberChange(typed);
    if !launcher.ButtonDisabled() {
      var _ := launcher.HandleButtonPress(platform, os);
    }
    trace := launcher.calls;
    PressAttemptsOnce(typed, Kenya, platform, os);
    ValidateByDigitCount(typed);
  }
}
