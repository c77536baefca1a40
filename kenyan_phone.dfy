/** The two Kenyan phone-number patterns the forms and the payment handler test against. */
module KenyanPhone {
  import opened JsString

  /** `[17]\d{8}`: a nine-digit Safaricom or Airtel subscriber number. */
  predicate IsSubscriber(s: string) {
    |s| == 9 && (s[0] == '1' || s[0] == '7') && AllDigits(s)
  }

  /** `/^0[17]\d{8}$/`: ten digits starting `07` or `01`. */
  predicate IsLocalNumber(s: string) {
    |s| == 10 && s[0] == '0' && IsSubscriber(s[1..])
  }

  /** `/^(\+254|254|0)?[17]\d{8}$/`: a subscriber number after an optional `+254`, `254` or `0`. */
  predicate IsKenyanNumber(s: string) {
    IsSubscriber(s)
    || IsLocalNumber(s)
    || (|s| == 12 && s[..3] == "254" && IsSubscriber(s[3..]))
    || (|s| == 13 && s[..4] == "+254" && IsSubscriber(s[4..]))
  }

  /** Each accepted form is one of four lengths, and only the `+254` form holds a non-digit. */
  lemma KenyanNumberShape(s: string)
    requires IsKenyanNumber(s)
    ensures |s| in {9, 10, 12, 13}
    ensures |s| != 13 ==> AllDigits(s)
    ensures |s| == 13 ==> s[0] == '+' && AllDigits(s[1..])
  {
    if |s| == 12 {
      assert s == s[..3] + s[3..];
    } else if |s| == 13 {
      assert s[1..] == s[1..4] + s[4..];
    }
  }
}
