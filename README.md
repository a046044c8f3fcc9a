# WhatsApp direct-chat launcher — verified model

The app lets a user type a phone number, pick a country calling code and open a
WhatsApp chat with that number without saving a contact. All of its logic sits
in the `WhatsAppLauncher` component (`components/WhatsAppLink.tsx`). This
project models that logic in Dafny:

- `PhoneValidation` (`phone_validation.dfy`) holds the digit filter
  `number.replace(/\D/g, '')` (`Digits`). It also holds the length gate of
  `validatePhoneNumber` (`Validate`) and the message shown for each verdict
  (`ErrorMessage`).
  - No digits gives "Phone number is required".
  - One to four digits gives "Phone number is too short".
  - Five or more digits is valid. There is no upper bound.
- `DeepLink` (`deep_link.dfy`) holds the picker's `Country` record, the Kenyan
  default and the link `whatsapp://send?phone=<callingCode[0]><digits>`
  (`BuildLink`). `PhoneParam` reads the `phone` value back out of a link: the
  calling code followed by the digits. Where the calling code ends is not
  recoverable, since "25" with "4712" and "254" with "712" give the same link.
- `Dispatch` (`dispatch.dfy`) describes one press of the "Open Chat" button as
  a value. `Press` gives its outcome: rejected, opened or failed. `PressCalls`
  lists the external calls the press makes, in order.
  - Android gets an explicit `android.intent.action.VIEW` intent for package
    `com.whatsapp`.
  - Every other platform gets `Linking.openURL`.
  - The operating system is an oracle `os: OsRequest -> bool` that accepts or
    refuses the request. A refusal leads to one alert.
- `Launcher` (`launcher.dfy`) holds the class `WhatsAppLauncher`.
  - Its fields are the component's state variables: `countryCode`,
    `country`, `phoneNumber`, `isPickerVisible`, `isValid` and
    `errorMessage`.
  - A `calls` field records the external calls made so far.
  - Each event handler is a method that assigns those fields. Each method's
    contract ties the new state to the pure functions above.
  - `Valid()` is the class invariant: `countryCode == country.cca2`, and the
    status flag and message agree with the typed text.
  - `DisabledIffRejected` shows that, in every state satisfying `Valid()`,
    the button is disabled exactly when the typed text would be rejected.

JavaScript strings are sequences of UTF-16 code units. Here they are
`seq<char>`. This does not change any result:

- every length test is either an emptiness test (`phoneNumber.length === 0`
  at line 274, which holds exactly when the string is empty) or a test on the
  filtered text (`cleanNumber.length` at lines 99 and 103), which holds only
  ASCII digits, each a single UTF-16 unit, so its length is `|s|`;
- the `\D` filter removes every unit outside `0`–`9`, and every surrogate half
  is outside that range.

`country.callingCode[0]` on an empty list is `undefined`, and the template
literal renders that as the text `undefined`. `DeepLink.CallingCode` follows
this behaviour as written, and `Dispatch.PressLinkCarriesCountryCode` states
what reaches the request in both cases.

`\D` in `number.replace(/\D/g, '')` (components/WhatsAppLink.tsx:96) keeps
only ASCII `0`–`9`. Other Unicode decimal digits, such as Arabic-Indic ones,
are removed, and the model does the same.

`Launcher.WhatsAppLauncher.HandleButtonPress` models the handler whenever it
is called. The button's `disabled` property (line 274) keeps presses from
reaching it while the button is disabled; `Launcher.EnabledButtonLaunches`
covers that guard, and `Launcher.FreshSession` applies it.

## Model

| member | source | states |
|---|---|---|
| `PhoneValidation.Digits` | components/WhatsAppLink.tsx:96 | the filtered text holds only ASCII digits and is no longer than the input |
| `PhoneValidation.DigitsAppend` | components/WhatsAppLink.tsx:96 | filtering a concatenation is the concatenation of the filtered parts, so kept characters stay in order |
| `PhoneValidation.DigitsFixedPoints` | components/WhatsAppLink.tsx:96 | the filter leaves a string unchanged if and only if the string is all digits |
| `PhoneValidation.DigitsIdempotent` | components/WhatsAppLink.tsx:96 | filtering twice gives the same result as filtering once |
| `PhoneValidation.DigitsMultiset` | components/WhatsAppLink.tsx:96 | every occurrence of every digit is kept and every non-digit is dropped |
| `PhoneValidation.DigitsLength` | components/WhatsAppLink.tsx:96 | the filtered length equals the number of ASCII digits counted in the input |
| `PhoneValidation.DigitsWithoutDigitsIsEmpty` | components/WhatsAppLink.tsx:96 | a text without digits filters to the empty string |
| `PhoneValidation.DigitsKeepsFirstDigit` | components/WhatsAppLink.tsx:138 | the first digit, such as a trunk zero, survives any separators before it |
| `PhoneValidation.DigitsSplitAt` | components/WhatsAppLink.tsx:96 | a separator splits the input into two parts that are filtered independently |
| `PhoneValidation.DigitsIgnoresSeparator` | components/WhatsAppLink.tsx:96 | inserting a non-digit anywhere does not change the filtered number |
| `PhoneValidation.ValidateByDigitCount` | components/WhatsAppLink.tsx:94-112 | Empty if and only if the input has 0 digits, TooShort if and only if it has 1–4, Valid if and only if it has 5 or more (no upper bound); a Valid result carries the filtered digits |
| `PhoneValidation.ValidateNoDigits` | components/WhatsAppLink.tsx:99-102 | input without digits is Empty, with the message "Phone number is required" |
| `PhoneValidation.ValidateOnlyDigitsMatter` | components/WhatsAppLink.tsx:96-111 | two inputs with the same digit subsequence get the same verdict |
| `PhoneValidation.ValidateIdempotent` | components/WhatsAppLink.tsx:96-111 | validating the filtered digits gives the same verdict as the raw input; re-validating an accepted number accepts it again with the same digits |
| `PhoneValidation.ValidateIgnoresSeparator` | components/WhatsAppLink.tsx:96-111 | inserting a separator anywhere does not change the verdict |
| `PhoneValidation.ErrorMessageEmptyIffValid` | components/WhatsAppLink.tsx:100-110 | the message is empty if and only if the verdict is Valid |
| `PhoneValidation.ValidateBoundaryExamples` | components/WhatsAppLink.tsx:99-110 | "" is Empty, "1234" is TooShort, "12345" is Valid: the boundary is exactly 5 digits |
| `PhoneValidation.ValidateSeparatorExample` | components/WhatsAppLink.tsx:96-111 | "12-34 56" and "123456" both give Valid("123456") |
| `PhoneValidation.LeadingZeroExample` | components/WhatsAppLink.tsx:138 | "0712 345 678" filters to "0712345678" |
| `DeepLink.LinkRoundTrip` | components/WhatsAppLink.tsx:141 | everything after `phone=` in a built link is exactly the calling code followed by the digits |
| `DeepLink.LinkInjective` | components/WhatsAppLink.tsx:141 | for one calling code, different numbers give different links |
| `DeepLink.LinkLosesCodeBoundary` | components/WhatsAppLink.tsx:141 | a link does not determine its calling code: ("25", "4712") and ("254", "712") give the same link |
| `DeepLink.LinkPhoneIsNumeric` | components/WhatsAppLink.tsx:138-141 | with a numeric calling code, the `phone` value is all digits: no `+` and no separators |
| `DeepLink.KenyaLinkExample` | components/WhatsAppLink.tsx:141 | the default country with "712345678" links to `whatsapp://send?phone=254712345678` |
| `Dispatch.PressRejectsExactlyInvalid` | components/WhatsAppLink.tsx:136 | a press is rejected if and only if the current number fails validation, with the same reason; Empty and TooShort follow the digit count |
| `Dispatch.PressAttemptsOnce` | components/WhatsAppLink.tsx:136-155 | a press makes exactly one operating-system request when the number is valid, none otherwise, and never retries |
| `Dispatch.PressRequestCarriesLink` | components/WhatsAppLink.tsx:138-155 | the first call is the platform's request for the link built from the selected calling code and the typed digits |
| `Dispatch.PressLinkCarriesCountryCode` | components/WhatsAppLink.tsx:141 | for a valid number, the `phone` value of the request is the country's first calling code followed by the typed digits, or "undefined" followed by the digits when the country has no calling code |
| `Dispatch.PressAlertsOnlyOnRefusal` | components/WhatsAppLink.tsx:142-155 | a refused request is followed by exactly one "not installed" alert; an accepted request or a rejected number causes no alert |
| `Dispatch.PlatformsAgree` | components/WhatsAppLink.tsx:142-155 | if the operating system answers both platforms' requests the same way, the Android and other branches end the same way for the same link |
| `Dispatch.AndroidNotInstalledExample` | components/WhatsAppLink.tsx:142-150 | on Android with WhatsApp missing, the calls are one VIEW intent for `com.whatsapp` followed by one alert |
| `Dispatch.UrlNotHandledExample` | components/WhatsAppLink.tsx:151-155 | on another platform with no handler, the calls are one `openURL` followed by one alert |
| `Dispatch.KenyaEndToEndExample` | components/WhatsAppLink.tsx:119-157 | with Kenya selected, "0712 345 678" typed and the system accepting, the chat opens on `whatsapp://send?phone=2540712345678` |
| `Launcher.DisabledIffRejected` | components/WhatsAppLink.tsx:274 | in a consistent state, the button is disabled (`!isValid` or empty text) if and only if the typed text would be rejected |
| `Launcher.EnabledButtonLaunches` | components/WhatsAppLink.tsx:274 | pressing an enabled button always reaches the operating system, exactly once |
| `Launcher.WhatsAppLauncher.constructor` | components/WhatsAppLink.tsx:25-38 | the initial state is Kenya (KE, 254), empty text, no error shown, picker closed, no calls; the invariant holds |
| `Launcher.WhatsAppLauncher.ValidatePhoneNumber` | components/WhatsAppLink.tsx:94-112 | the returned flag equals the new `isValid`, which is set exactly when the input has at least 5 digits; `errorMessage` is the verdict's message |
| `Launcher.WhatsAppLauncher.HandlePhoneNumberChange` | components/WhatsAppLink.tsx:114-117 | stores the text and its verdict, keeps the invariant, and disables the button exactly when the text has fewer than 5 digits |
| `Launcher.WhatsAppLauncher.OnSelectCountry` | components/WhatsAppLink.tsx:88-92 | replaces `country` and `countryCode` with the whole selection, hides the picker, and leaves the number, status and calls unchanged |
| `Launcher.WhatsAppLauncher.OpenPicker` | components/WhatsAppLink.tsx:204-207 | shows the picker and keeps the invariant |
| `Launcher.WhatsAppLauncher.ClosePicker` | components/WhatsAppLink.tsx:219 | hides the picker and keeps the country |
| `Launcher.WhatsAppLauncher.ClearPhoneNumber` | components/WhatsAppLink.tsx:257-261 | sets the text to "", `isValid` to true and the message to "", which leaves the button disabled |
| `Launcher.WhatsAppLauncher.HandleButtonPress` | components/WhatsAppLink.tsx:119-157 | re-validates the current text; the calls appended are exactly those of `Press` (one request when valid, plus one alert when refused); the invariant holds afterwards |
| `Launcher.FreshSession` | components/WhatsAppLink.tsx:114-157 | from the initial state, typing and then pressing (delivered only while the button is enabled) makes the calls the pure model prescribes: one request if the text has at least 5 digits, none otherwise |

## Left out

- Keyboard listeners, `Keyboard.dismiss`, the `Animated` button and content
  animations, and the scroll reset (components/WhatsAppLink.tsx:46-86, 120-133,
  205): these are timers and floating-point animation values, with no effect
  on the number, the link or the calls.
- JSX layout and styling (components/WhatsAppLink.tsx:159-305), apart from the
  button's `disabled` expression and the handlers it wires up: these are
  presentation only.
- The country-picker widget's internals: the model treats it only as the
  source of a `Country` record.
- App.tsx status-bar set-up: this is platform UI configuration.
- `IntentLauncher.startActivityAsync`, `Linking.openURL` and `alert`: they
  become the `os` oracle and the `Alert` call entries. The asynchronous
  `await` / `.catch` is collapsed into one sequential outcome. The model does
  not cover presses that overlap while a request is pending, and neither does
  the source, which does not disable the button while a request is pending.
- React's batched, asynchronous `setState`: each setter is an immediate field
  assignment. Handlers run one at a time, so this gives the same state after
  every event.
- `Dispatch.PlatformsAgree`: this lemma is weaker than "both branches behave
  the same in all cases". The two branches send different requests, so the
  oracle may answer them differently. The lemma therefore assumes the
  operating system gives both requests the same answer.
