/**
 * The first-login dialog (src/components/profile/ProfileCompletionModal.tsx): its schema, the
 * phone field's input filter and the update that completes onboarding.
 */
module ProfileCompletion {
  import opened Common
  import opened Seqs
  import opened JsString
  import opened KenyanPhone
  import opened Validations
  import Store

  /** `profileSchema`: the name's length untrimmed, and a ten-digit `07…`/`01…` phone. */
  function CompletionIssues(name: string, phone: string): (r: seq<Issue>)
    ensures r == [] <==> 2 <= |name| <= 100 && IsLocalNumber(phone)
  {
    Tagged("name", LengthIssues(name, 2, "Name must be at least 2 characters", 100, "Name must be less than 100 characters"))
    + (if IsLocalNumber(phone) then [] else [Issue("phone", PHONE_MESSAGE)])
  }

  /**
   * `value.replace(/\D/g, '').slice(0, 10)`: the first ten digits of the input, or all of them
   * when there are fewer, in the order typed.
   */
  function PhoneInputFilter(value: string): (r: string)
    ensures AllDigits(r) && |r| == Min(10, |DigitsOnly(value)|)
    ensures r == DigitsOnly(value)[..|r|] && IsSubsequence(r, value)
  {
    var digits := DigitsOnly(value);
    var r := if |digits| <= 10 then digits else digits[..10];
    assert r == digits[..|r|];
    PrefixIsSubsequence(digits, |r|, value);
    r
  }

  /** Filtering what the filter produced changes nothing, and a local number passes through whole. */
  lemma PhoneInputFilterIdempotent(value: string)
    ensures PhoneInputFilter(PhoneInputFilter(value)) == PhoneInputFilter(value)
    ensures IsLocalNumber(value) ==> PhoneInputFilter(value) == value
  {
    DigitsOnlyOfDigits(PhoneInputFilter(value));
    if IsLocalNumber(value) {
      assert value == [value[0]] + value[1..];
      DigitsOnlyOfDigits(value);
    }
  }

  /** The update `onSubmit` sends: the trimmed name, the phone and the onboarding flag. */
  function Completed(name: string, phone: string): Store.Profile -> Store.Profile {
    (p: Store.Profile) => p.(name := Trim(name), phone := Some(phone), onboardingCompleted := true)
  }

  /** The name is measured before trimming but stored trimmed, so a stored name can be shorter than 2. */
  lemma StoredNameCanBeShorterThanChecked(name: string, p: Store.Profile)
    requires name == "a  "
    ensures CompletionIssues(name, "0712345678") == []
    ensures |Completed(name, "0712345678")(p).name| == 1
  {
    assert IsLocalNumber("0712345678") by {
      assert "0712345678"[1..] == "712345678";
    }
    assert !IsSpace(name[0]) && IsSpace(name[1]) && IsSpace(name[2]);
    assert |Trim(name)| == 1;
  }

  datatype SubmitResult = NoUser | Failed(message: string) | Done

  /** `err.message || 'Failed to update profile'`. */
  function Caught(message: string): string {
    if message == "" then "Failed to update profile" else message
  }

  /** `onSubmit`: nothing without a user; otherwise the caller's profile is completed unless the update fails. */
  method Submit(table: Store.ProfilesTable, user: Option<string>, name: string, phone: string, updateError: Option<string>)
    returns (r: SubmitResult)
    modifies table
    ensures r == Done <==> user.Some? && updateError.None?
    ensures r == NoUser <==> user.None?
    ensures r != Done ==> table.rows == old(table.rows)
    ensures r == Done ==> |table.rows| == |old(table.rows)|
                          && forall i :: 0 <= i < |table.rows| ==>
                               table.rows[i] == if old(table.rows)[i].userId == user.value
                                                then old(table.rows)[i].(name := Trim(name), phone := Some(phone), onboardingCompleted := true)
                                                else old(table.rows)[i]
  {
    if user.None? {
      return NoUser;
    }
    if updateError.Some? {
      return Failed(Caught(updateError.value));
    }
    table.UpdateOfUser(user.value, Completed(name, phone));
    r := Done;
  }
}
