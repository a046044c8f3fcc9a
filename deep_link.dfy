/** The country selected in the launcher and the deep link built from it.

    The link handed to the operating system is the fixed prefix
    `whatsapp://send?phone=` followed by the first calling code of the
    selected country and the normalised digits, with no `+` and no
    separators.
 */
module DeepLink {
  import opened PhoneValidation

  datatype Option<T> = None | Some(value: T)

  /** A country as the picker widget reports it; replaced wholesale on every
      selection. */
  datatype Country = Country(
    callingCode: seq<string>,
    cca2: string,
    currency: seq<string>,
    flag: string,
    name: string,
    region: string,
    subregion: string)

  /** The country selected before the user picks one. */
  const Kenya: Country := Country(["254"], "KE", ["KES"], "flag-ke", "Kenya", "Africa", "Eastern Africa")

  /** Everything before the number in a link. */
  const LinkPrefix: string := "whatsapp://send?phone="

  /** `country.callingCode[0]` as a template literal renders it: the first
      calling code, or the text "undefined" when the list is empty. */
  function CallingCode(c: Country): string {
    if |c.callingCode| > 0 then c.callingCode[0] else "undefined"
  }

  /** The deep link for a calling code and a normalised number. */
  function BuildLink(callingCode: string, digits: string): string {
    LinkPrefix + callingCode + digits
  }

  /** The value of the `phone` parameter of a link, if the link has the
      launcher's shape. It reads back the calling code followed by the
      digits; where one ends and the other begins is not recoverable (see
      `LinkLosesCodeBoundary`). */
  function PhoneParam(url: string): Option<string> {
    if |LinkPrefix| <= |url| && url[..|LinkPrefix|] == LinkPrefix then Some(url[|LinkPrefix|..])
    else None
  }

  /** Everything after `phone=` is the calling code followed by the digits. */
  lemma LinkRoundTrip(callingCode: string, digits: string)
    ensures PhoneParam(BuildLink(callingCode, digits)) == Some(callingCode + digits)
  {
    var url := BuildLink(callingCode, digits);
    assert url == LinkPrefix + (callingCode + digits);
    assert url[..|LinkPrefix|] == LinkPrefix;
    assert url[|LinkPrefix|..] == callingCode + digits;
  }

  /** For one calling code, different numbers give different links. */
  lemma LinkInjective(callingCode: string, d1: string, d2: string)
    requires BuildLink(callingCode, d1) == BuildLink(callingCode, d2)
    ensures d1 == d2
  {
    LinkRoundTrip(callingCode, d1);
    LinkRoundTrip(callingCode, d2);
    assert callingCode + d1 == callingCode + d2;
    assert d1 == (callingCode + d1)[|callingCode|..];
  }

  /** A link does not determine its calling code: "25" with "4712" and
      "254" with "712" give the same link. */
  lemma LinkLosesCodeBoundary()
    ensures BuildLink("25", "4712") == BuildLink("254", "712")
    ensures ("25", "4712") != ("254", "712")
  {
  }

  /** With a numeric calling code, the `phone` parameter of the link for any
      typed text is made of digits only: no `+` and no separator. */
  lemma LinkPhoneIsNumeric(callingCode: string, typed: string)
    requires AllDigits(callingCode)
    ensures PhoneParam(BuildLink(callingCode, Digits(typed))).Some?
    ensures AllDigits(PhoneParam(BuildLink(callingCode, Digits(typed))).value)
    ensures '+' !in PhoneParam(BuildLink(callingCode, Digits(typed))).value
  {
    var d := Digits(typed);
    LinkRoundTrip(callingCode, d);
    var p := callingCode + d;
    forall i | 0 <= i < |p| ensures IsAsciiDigit(p[i]) {
      if i < |callingCode| {
        assert p[i] == callingCode[i];
      } else {
        assert p[i] == d[i - |callingCode|];
      }
    }
  }

  /** The default country links with calling code 254. */
  lemma KenyaLinkExample()
    ensures BuildLink(CallingCode(Kenya), "712345678") == "whatsapp://send?phone=254712345678"
  {
  }

}
