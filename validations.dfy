/** The form validators and the password-strength meter (src/lib/validations.ts). */
module Validations {
  import opened JsString
  import opened KenyanPhone
  import opened Common

  // ---------------------------------------------------------------- password strength

  /** `[^a-zA-Z0-9]`. */
  predicate IsSymbol(c: char) { !IsLetter(c) && !IsDigit(c) }

  /** `/[x]/.test(s)` for a character class `x`. */
  predicate Contains(s: string, p: char -> bool) {
    exists i :: 0 <= i < |s| && p(s[i])
  }

  function Point(b: bool): (n: int)
    ensures n == 1 <==> b
    ensures 0 <= n <= 1
  {
    if b then 1 else 0
  }

  /** The number of the seven strength criteria that the password meets. */
  function RawScore(password: string): (n: int)
    ensures 0 <= n <= 7
  {
    Point(|password| >= 6) + Point(|password| >= 8) + Point(|password| >= 12)
    + Point(Contains(password, IsLower)) + Point(Contains(password, IsUpper))
    + Point(Contains(password, IsDigit)) + Point(Contains(password, IsSymbol))
  }

  datatype Strength = Strength(score: int, caption: string, color: string)

  /** The band that a raw score falls into. */
  function Band(raw: int): (r: Strength)
    ensures raw <= 2 ==> r == Strength(25, "Weak", "bg-destructive")
    ensures 3 <= raw <= 4 ==> r == Strength(50, "Fair", "bg-warning")
    ensures raw == 5 ==> r == Strength(75, "Good", "bg-primary")
    ensures raw >= 6 ==> r == Strength(100, "Strong", "bg-success")
  {
    if raw <= 2 then Strength(25, "Weak", "bg-destructive")
    else if raw <= 4 then Strength(50, "Fair", "bg-warning")
    else if raw <= 5 then Strength(75, "Good", "bg-primary")
    else Strength(100, "Strong", "bg-success")
  }

  /** `getPasswordStrength`: one point per criterion met, then the band of the total. */
  method GetPasswordStrength(password: string) returns (r: Strength)
    ensures r == Band(RawScore(password))
    ensures r.score in {25, 50, 75, 100}
  {
    var score := 0;
    if |password| >= 6 { score := score + 1; }
    if |password| >= 8 { score := score + 1; }
    if |password| >= 12 { score := score + 1; }
    if Contains(password, IsLower) { score := score + 1; }
    if Contains(password, IsUpper) { score := score + 1; }
    if Contains(password, IsDigit) { score := score + 1; }
    if Contains(password, IsSymbol) { score := score + 1; }
    if score <= 2 {
      r := Strength(25, "Weak", "bg-destructive");
    } else if score <= 4 {
      r := Strength(50, "Fair", "bg-warning");
    } else if score <= 5 {
      r := Strength(75, "Good", "bg-primary");
    } else {
      r := Strength(100, "Strong", "bg-success");
    }
  }

  /** The empty password meets no criterion and is weak. */
  lemma EmptyPasswordIsWeak()
    ensures RawScore("") == 0
    ensures Band(RawScore("")).caption == "Weak"
  {
    assert !Contains("", IsSymbol);
  }

  /** A character class found in `a` is still found in `a + b`. */
  lemma ContainsAppend(a: string, b: string, p: char -> bool)
    requires Contains(a, p)
    ensures Contains(a + b, p)
  {
    var i :| 0 <= i < |a| && p(a[i]);
    assert (a + b)[i] == a[i];
  }

  /** Typing more characters never lowers the raw score. */
  lemma RawScoreGrows(a: string, b: string)
    ensures RawScore(a) <= RawScore(a + b)
  {
    if Contains(a, IsLower) { ContainsAppend(a, b, IsLower); }
    if Contains(a, IsUpper) { ContainsAppend(a, b, IsUpper); }
    if Contains(a, IsDigit) { ContainsAppend(a, b, IsDigit); }
    if Contains(a, IsSymbol) { ContainsAppend(a, b, IsSymbol); }
  }

  /** Typing more characters never lowers the displayed strength. */
  lemma StrengthNeverDrops(a: string, b: string)
    ensures Band(RawScore(a)).score <= Band(RawScore(a + b)).score
  {
    RawScoreGrows(a, b);
  }

  // ---------------------------------------------------------------- zod schemas

  /** One zod issue: the field it is about and its message. */
  datatype Issue = Issue(path: string, message: string)

  /** The messages of one field, as issues on that field. */
  function Tagged(path: string, messages: seq<string>): (r: seq<Issue>)
    ensures |r| == |messages|
    ensures forall i :: 0 <= i < |r| ==> r[i] == Issue(path, messages[i])
  {
    if messages == [] then [] else [Issue(path, messages[0])] + Tagged(path, messages[1..])
  }

  /** `z.string().min(lo).max(hi)`: both bounds inclusive. */
  function LengthIssues(s: string, lo: int, tooShort: string, hi: int, tooLong: string): (r: seq<string>)
    ensures r == [] <==> lo <= |s| <= hi
    ensures |s| < lo ==> tooShort in r
    ensures |s| > hi ==> tooLong in r
  {
    (if |s| < lo then [tooShort] else []) + (if |s| > hi then [tooLong] else [])
  }

  /** `passwordSchema`: the messages zod reports, in check order. */
  function PasswordIssues(password: string): (r: seq<string>)
    ensures r == [] <==> 6 <= |password| <= 72
  {
    LengthIssues(password, 6, "Password must be at least 6 characters",
                 72, "Password must be less than 72 characters")
  }

  predicate IsStrongPassword(password: string) {
    8 <= |password| <= 72
    && Contains(password, IsLower) && Contains(password, IsUpper) && Contains(password, IsDigit)
  }

  /** `strongPasswordSchema`: every failed check is reported, none stops the others. */
  function StrongPasswordIssues(password: string): (r: seq<string>)
    ensures r == [] <==> IsStrongPassword(password)
    ensures !Contains(password, IsLower) ==> "Password must contain at least one lowercase letter" in r
    ensures !Contains(password, IsUpper) ==> "Password must contain at least one uppercase letter" in r
    ensures !Contains(password, IsDigit) ==> "Password must contain at least one number" in r
  {
    LengthIssues(password, 8, "Password must be at least 8 characters",
                 72, "Password must be less than 72 characters")
    + (if Contains(password, IsLower) then [] else ["Password must contain at least one lowercase letter"])
    + (if Contains(password, IsUpper) then [] else ["Password must contain at least one uppercase letter"])
    + (if Contains(password, IsDigit) then [] else ["Password must contain at least one number"])
  }

  /** A password the strong schema accepts shows at least "Good" on the meter. */
  lemma StrongPasswordIsAtLeastGood(password: string)
    requires StrongPasswordIssues(password) == []
    ensures RawScore(password) >= 5
    ensures Band(RawScore(password)).score >= 75
  {
  }

  /** `[a-zA-Z\s'-]`. */
  predicate IsNameChar(c: char) { IsLetter(c) || IsSpace(c) || c == '\'' || c == '-' }

  predicate OnlyNameChars(s: string) {
    forall i :: 0 <= i < |s| ==> IsNameChar(s[i])
  }

  /** `nameSchema`: trims first, then checks length and the `+`-regex on the trimmed value. */
  function NameIssues(name: string): (r: seq<string>)
    ensures r == [] <==> 2 <= |Trim(name)| <= 100 && OnlyNameChars(Trim(name))
  {
    var t := Trim(name);
    LengthIssues(t, 2, "Name must be at least 2 characters", 100, "Name must be less than 100 characters")
    + (if |t| >= 1 && OnlyNameChars(t) then []
       else ["Name can only contain letters, spaces, hyphens, and apostrophes"])
  }

  const PHONE_MESSAGE: string := "Phone number must be 10 digits starting with 07 or 01 (e.g., 0712345678)"

  /** `phoneSchema`: the trimmed value is ten digits starting `07` or `01`. */
  function PhoneIssues(phone: string): (r: seq<string>)
    ensures r == [] <==> IsLocalNumber(Trim(phone))
    ensures r != [] ==> r == [PHONE_MESSAGE]
  {
    if IsLocalNumber(Trim(phone)) then [] else [PHONE_MESSAGE]
  }

  /** `phoneSchema.optional().or(z.literal(''))`. */
  predicate OptionalPhoneAccepts(phone: Option<string>) {
    phone.None? || phone.value == "" || PhoneIssues(phone.value) == []
  }

  /** The optional phone accepts exactly: nothing, `''`, or what the phone schema accepts. */
  lemma OptionalPhoneCases(phone: Option<string>)
    ensures OptionalPhoneAccepts(phone) <==>
              phone == None || phone == Some("") || (phone.Some? && IsLocalNumber(Trim(phone.value)))
  {
  }

  /** Blank input that is not exactly `''` is refused by both branches of the optional phone. */
  lemma OptionalPhoneRefusesBlank()
    ensures !OptionalPhoneAccepts(Some(" "))
  {
    assert Trim(" ") == [];
  }

  /** `newPasswordSchema`: the strong-password issues, plus a mismatch issue on `confirmPassword`. */
  function NewPasswordIssues(password: string, confirmPassword: string): (r: seq<Issue>)
    ensures r == [] <==> IsStrongPassword(password) && password == confirmPassword
    ensures (exists i :: 0 <= i < |r| && r[i].path == "confirmPassword") <==> password != confirmPassword
    ensures password != confirmPassword ==> r[|r| - 1] == Issue("confirmPassword", "Passwords don't match")
  {
    var own := StrongPasswordIssues(password);
    var fieldIssues := seq(|own|, i requires 0 <= i < |own| => Issue("password", own[i]));
    var r := fieldIssues + (if password == confirmPassword then [] else [Issue("confirmPassword", "Passwords don't match")]);
    assert "password" != "confirmPassword";
    assert forall i :: 0 <= i < |fieldIssues| ==> r[i].path == "password";
    assert password != confirmPassword ==> r[|r| - 1].path == "confirmPassword";
    r
  }
}
