/** Phone-number normalisation and validation of the WhatsApp launcher.

    The launcher accepts free-form text, keeps only its ASCII digits (the
    regular expression `\D` without the `u` flag matches every character
    outside `[0-9]`) and then applies a coarse length gate: no digits at all
    is "required", one to four digits is "too short", five or more is valid.
    There is no upper bound and no per-country table.
 */
module PhoneValidation {

  /** The fewest digits a number may have to be accepted. */
  const MinDigits: nat := 5

  const RequiredMessage: string := "Phone number is required"
  const TooShortMessage: string := "Phone number is too short"

  predicate IsAsciiDigit(c: char) {
    '0' <= c <= '9'
  }

  /** True when every character of `s` is an ASCII digit. */
  predicate AllDigits(s: string) {
    forall i :: 0 <= i < |s| ==> IsAsciiDigit(s[i])
  }

  /** The input with every non-digit character dropped, in the original order
      (`number.replace(/\D/g, '')`). */
  function Digits(s: string): (r: string)
    ensures AllDigits(r)
    ensures |r| <= |s|
  {
    if s == [] then []
    else if IsAsciiDigit(s[0]) then [s[0]] + Digits(s[1..])
    else Digits(s[1..])
  }

  /** How many ASCII digits occur in `s`, counted digit by digit; an
      independent reference for the length of `Digits(s)`. */
  function DigitCount(s: string): nat {
    var m := multiset(s);
    m['0'] + m['1'] + m['2'] + m['3'] + m['4'] + m['5'] + m['6'] + m['7'] + m['8'] + m['9']
  }

  /** Why a number was rejected. */
  datatype Reason = Empty | TooShort

  datatype Validation = Valid(digits: string) | Invalid(reason: Reason)

  /** The validation policy of `validatePhoneNumber`, as a value. */
  function Validate(raw: string): Validation {
    var clean := Digits(raw);
    if |clean| == 0 then Invalid(Empty)
    else if |clean| < MinDigits then Invalid(TooShort)
    else Valid(clean)
  }

  /** The text shown under the input for a validation result. */
  function ErrorMessage(v: Validation): string {
    match v
    case Valid(_) => ""
    case Invalid(Empty) => RequiredMessage
    case Invalid(TooShort) => TooShortMessage
  }

  // ---------------------------------------------------------------------
  // Properties of the digit filter

  /** Filtering distributes over concatenation: the filter keeps the
      relative order of the characters it keeps. */
  lemma {:induction false} DigitsAppend(a: string, b: string)
    ensures Digits(a + b) == Digits(a) + Digits(b)
  {
    if a == [] {
      assert a + b == b;
    } else {
      assert (a + b)[0] == a[0];
      assert (a + b)[1..] == a[1..] + b;
      DigitsAppend(a[1..], b);
    }
  }

  /** A string is left unchanged by the filter exactly when it is made of
      digits only. */
  lemma {:induction false} DigitsFixedPoints(s: string)
    ensures Digits(s) == s <==> AllDigits(s)
  {
    if s != [] {
      DigitsFixedPoints(s[1..]);
      if IsAsciiDigit(s[0]) {
        assert AllDigits(s) <==> AllDigits(s[1..]) by {
          if AllDigits(s[1..]) {
            forall i | 0 <= i < |s| ensures IsAsciiDigit(s[i]) {
              if i > 0 { assert s[i] == s[1..][i - 1]; }
            }
          }
        }
        assert Digits(s) == s <==> Digits(s[1..]) == s[1..] by {
          assert s == [s[0]] + s[1..];
        }
      } else {
        assert !AllDigits(s);
        assert |Digits(s[1..])| <= |s[1..]| < |s|;
      }
    }
  }

  /** Filtering twice is filtering once. */
  lemma DigitsIdempotent(s: string)
    ensures Digits(Digits(s)) == Digits(s)
  {
    DigitsFixedPoints(Digits(s));
  }

  /** The filter keeps every occurrence of every digit and nothing else. */
  lemma {:induction false} DigitsMultiset(s: string)
    ensures forall c :: multiset(Digits(s))[c] == if IsAsciiDigit(c) then multiset(s)[c] else 0
  {
    if s != [] {
      DigitsMultiset(s[1..]);
      assert s == [s[0]] + s[1..];
      assert multiset(s) == multiset{s[0]} + multiset(s[1..]);
    }
  }

  /** The filtered string is exactly as long as the number of digits in the
      input. */
  lemma {:induction false} DigitsLength(s: string)
    ensures |Digits(s)| == DigitCount(s)
  {
    if s != [] {
      DigitsLength(s[1..]);
      assert s == [s[0]] + s[1..];
      assert multiset(s) == multiset{s[0]} + multiset(s[1..]);
    }
  }

  /** Leading zeros survive the filter: a number that starts with `0` (after
      any separators) still starts with `0`. */
  lemma {:induction false} DigitsKeepsFirstDigit(pre: string, d: char, rest: string)
    requires forall i :: 0 <= i < |pre| ==> !IsAsciiDigit(pre[i])
    requires IsAsciiDigit(d)
    ensures Digits(pre + [d] + rest) == [d] + Digits(rest)
  {
    DigitsWithoutDigitsIsEmpty(pre);
    DigitsAppend(pre, [d] + rest);
    assert pre + [d] + rest == pre + ([d] + rest);
    assert ([d] + rest)[1..] == rest;
  }

  /** A string without digits filters to the empty string. */
  lemma {:induction false} DigitsWithoutDigitsIsEmpty(s: string)
    requires forall i :: 0 <= i < |s| ==> !IsAsciiDigit(s[i])
    ensures Digits(s) == []
  {
    if s != [] {
      DigitsWithoutDigitsIsEmpty(s[1..]);
    }
  }

  /** A non-digit separator splits the input into two independently
      filtered parts. */
  lemma DigitsSplitAt(a: string, c: char, b: string)
    requires !IsAsciiDigit(c)
    ensures Digits(a + [c] + b) == Digits(a) + Digits(b)
  {
    assert a + [c] + b == a + ([c] + b);
    DigitsAppend(a, [c] + b);
    assert ([c] + b)[1..] == b;
  }

  /** The filter is blind to non-digit characters wherever they occur. */
  lemma DigitsIgnoresSeparator(a: string, c: char, b: string)
    requires !IsAsciiDigit(c)
    ensures Digits(a + [c] + b) == Digits(a + b)
  {
    DigitsSplitAt(a, c, b);
    DigitsAppend(a, b);
  }

  // ---------------------------------------------------------------------
  // Properties of the validation policy

  /** The three outcomes, each stated against the number of digits in the
      raw input: none is Empty, one to four is TooShort, five or more (with no
      upper bound) is Valid and carries the filtered digits. */
  lemma ValidateByDigitCount(raw: string)
    ensures Validate(raw) == Invalid(Empty) <==> DigitCount(raw) == 0
    ensures Validate(raw) == Invalid(TooShort) <==> 0 < DigitCount(raw) < MinDigits
    ensures Validate(raw).Valid? <==> DigitCount(raw) >= MinDigits
    ensures Validate(raw).Valid? ==> Validate(raw).digits == Digits(raw)
  {
    DigitsLength(raw);
  }

  /** Input without any digit is reported as Empty. */
  lemma ValidateNoDigits(raw: string)
    requires forall i :: 0 <= i < |raw| ==> !IsAsciiDigit(raw[i])
    ensures Validate(raw) == Invalid(Empty)
    ensures ErrorMessage(Validate(raw)) == RequiredMessage
  {
    DigitsWithoutDigitsIsEmpty(raw);
  }

  /** Validation depends only on the digit subsequence of its input. */
  lemma ValidateOnlyDigitsMatter(a: string, b: string)
    requires Digits(a) == Digits(b)
    ensures Validate(a) == Validate(b)
  {
  }

  /** Validating the normalised digits gives the same verdict as validating
      the raw input; in particular re-validating an accepted number accepts
      it again with the same digits. */
  lemma ValidateIdempotent(raw: string)
    ensures Validate(Digits(raw)) == Validate(raw)
    ensures Validate(raw).Valid? ==> Validate(Validate(raw).digits) == Validate(raw)
  {
    DigitsIdempotent(raw);
  }

  /** Separators inserted anywhere do not change the verdict. */
  lemma ValidateIgnoresSeparator(a: string, c: char, b: string)
    requires !IsAsciiDigit(c)
    ensures Validate(a + [c] + b) == Validate(a + b)
  {
    DigitsIgnoresSeparator(a, c, b);
  }

  /** The error message is empty exactly for a valid number. */
  lemma ErrorMessageEmptyIffValid(v: Validation)
    ensures ErrorMessage(v) == "" <==> v.Valid?
  {
  }

  /** Concrete cases: the boundary at exactly five digits. */
  lemma ValidateBoundaryExamples()
    ensures Validate("") == Invalid(Empty)
    ensures Validate("1234") == Invalid(TooShort)
    ensures Validate("12345") == Valid("12345")
  {
    DigitsFixedPoints("1234");
    DigitsFixedPoints("12345");
  }

  /** Concrete case: separators are stripped before the length check. */
  lemma ValidateSeparatorExample()
    ensures Validate("12-34 56") == Validate("123456") == Valid("123456")
  {
  }

  /** Concrete case: a Kenyan number typed with a trunk zero and spaces keeps
      its leading zero. */
  lemma LeadingZeroExample()
    ensures Digits("0712 345 678") == "0712345678"
  {
    var head, mid, tail := "0712", "345", "678";
    assert Digits(head + [' '] + mid) == "0712345" by {
      assert Digits(head) == head && Digits(mid) == mid;
      DigitsSplitAt(head, ' ', mid);
    }
    assert Digits(head + [' '] + mid + [' '] + tail) == "0712345678" by {
      assert Digits(tail) == tail;
      DigitsSplitAt(head + [' '] + mid, ' ', tail);
    }
    assert head + [' '] + mid + [' '] + tail == "0712 345 678";
  }
}
