/**
 * The profile page (src/pages/ProfileSettings.tsx): its form schema, the username check and the
 * profile update on submit, and how it reads the answer of the account-deletion call.
 */
module ProfileSettings {
  import opened Common
  import opened Seqs
  import opened JsString
  import opened KenyanPhone
  import opened Validations
  import Store

  // ---------------------------------------------------------------- schema

  const USERNAME_CHARS_MESSAGE: string := "Username can only contain letters, numbers, and underscores"
  const KENYAN_PHONE_MESSAGE: string := "Please enter a valid Kenyan phone number (e.g., 0712345678)"

  /** `/^[a-zA-Z0-9_]+$/`. */
  predicate IsUsernameText(s: string) {
    |s| >= 1 && forall i :: 0 <= i < |s| ==> IsWordChar(s[i])
  }

  /** `profileSchema`: the issues zod reports, field by field in check order. */
  function ProfileIssues(name: string, username: string, phone: string): (r: seq<Issue>)
    ensures r == [] <==> 2 <= |name| <= 100 && 3 <= |username| <= 30 && IsUsernameText(username) && IsKenyanNumber(phone)
    ensures !IsKenyanNumber(phone) ==> Issue("phone", KENYAN_PHONE_MESSAGE) in r
    ensures !IsUsernameText(username) ==> Issue("username", USERNAME_CHARS_MESSAGE) in r
  {
    var nameIssues := Tagged("name", LengthIssues(name, 2, "Name must be at least 2 characters",
                                                  100, "Name must be less than 100 characters"));
    var usernameIssues := Tagged("username", LengthIssues(username, 3, "Username must be at least 3 characters",
                                                          30, "Username must be less than 30 characters")
                                             + (if IsUsernameText(username) then [] else [USERNAME_CHARS_MESSAGE]));
    var phoneIssues := if IsKenyanNumber(phone) then [] else [Issue("phone", KENYAN_PHONE_MESSAGE)];
    var r := nameIssues + usernameIssues + phoneIssues;
    assert !IsUsernameText(username) ==> usernameIssues[|usernameIssues| - 1] == Issue("username", USERNAME_CHARS_MESSAGE);
    assert !IsKenyanNumber(phone) ==> r[|r| - 1] == Issue("phone", KENYAN_PHONE_MESSAGE);
    r
  }

  /**
   * A phone the shared `phoneSchema` accepts, once trimmed, passes this page's pattern too; the
   * untrimmed text need not, since this pattern does not trim.
   */
  lemma LocalPhoneIsKenyan(phone: string)
    requires PhoneIssues(phone) == []
    ensures IsKenyanNumber(Trim(phone))
  {
  }

  lemma UntrimmedLocalPhoneIsRefused(phone: string)
    requires phone == " 0712345678"
    ensures PhoneIssues(phone) == [] && !IsKenyanNumber(phone)
  {
    var local: string := "0712345678";
    assert phone[1..] == local;
    assert TrimStart(local) == local by {
      assert !IsSpace(local[0]);
    }
    assert TrimStart(phone) == local by {
      assert IsSpace(phone[0]);
    }
    assert TrimEnd(local) == local by {
      assert !IsSpace(local[|local| - 1]);
    }
    assert IsSubscriber(local[1..]) by {
      assert local[1..] == "712345678";
      assert forall i :: 0 <= i < 9 ==> IsDigit(local[1..][i]);
    }
  }

  // ---------------------------------------------------------------- submit

  /** The form's values, after the username field has lower-cased what was typed. */
  datatype ProfileForm = ProfileForm(name: string, username: string, phone: string)

  datatype SubmitResult = NoUser | UsernameTaken | Failed(message: string) | Saved

  const TAKEN_MESSAGE: string := "This username is already taken. Please choose another."

  /** `err.message || 'Failed to update profile'`. */
  function Caught(message: string): string {
    if message == "" then "Failed to update profile" else message
  }

  /** The rows of the uniqueness check: another user's profile holding the lower-cased username. */
  function Conflicts(rows: seq<Store.Profile>, userId: string, username: string): (r: seq<Store.Profile>)
    ensures forall p :: p in r <==> p in rows && p.username == Some(ToLower(username)) && p.userId != userId
  {
    Filter(rows, (p: Store.Profile) => p.username == Some(ToLower(username)) && p.userId != userId)
  }

  /**
   * The check looks up the lower-cased username, so the same name typed in any case finds the
   * same rows, the rows that its lower-cased form finds.
   */
  lemma ConflictsIgnoreCase(rows: seq<Store.Profile>, userId: string, a: string, b: string)
    requires ToLower(a) == ToLower(b)
    ensures Conflicts(rows, userId, a) == Conflicts(rows, userId, b)
    ensures Conflicts(rows, userId, a) == Conflicts(rows, userId, ToLower(a))
  {
    ToLowerIdempotent(a);
  }

  /** The update: name, lower-cased username and phone; every other column is kept. */
  function Edited(form: ProfileForm): Store.Profile -> Store.Profile {
    (p: Store.Profile) => p.(name := form.name, username := Some(ToLower(form.username)), phone := Some(form.phone))
  }

  /** The edit changes only the three form columns, and stores the username lower-cased. */
  lemma EditTouchesOnlyTheFormFields(p: Store.Profile, form: ProfileForm)
    ensures var q := Edited(form)(p);
            q.id == p.id && q.userId == p.userId && q.email == p.email && q.onboardingCompleted == p.onboardingCompleted
            && q.name == form.name && q.phone == Some(form.phone)
            && q.username == Some(ToLower(form.username)) && ToLower(q.username.value) == q.username.value
  {
    ToLowerIdempotent(form.username);
  }

  /**
   * `onSubmit`: no user does nothing; a failed check, or more than one conflicting row
   * (`.maybeSingle()`), is an error; one conflicting row refuses the username; otherwise the
   * caller's rows are updated, unless the update fails.
   */
  method Submit(table: Store.ProfilesTable, user: Option<string>, form: ProfileForm,
                checkError: Option<string>, multipleRowsMessage: string, updateError: Option<string>)
    returns (r: SubmitResult)
    modifies table
    ensures r == NoUser <==> user.None?
    ensures user.Some? ==> (r == UsernameTaken <==> checkError.None? && |Conflicts(old(table.rows), user.value, form.username)| == 1)
    ensures r == Saved <==> user.Some? && checkError.None? && Conflicts(old(table.rows), user.value, form.username) == [] && updateError.None?
    ensures r != Saved ==> table.rows == old(table.rows)
    ensures r == Saved ==> |table.rows| == |old(table.rows)|
                           && forall i :: 0 <= i < |table.rows| ==>
                                table.rows[i] == if old(table.rows)[i].userId == user.value then Edited(form)(old(table.rows)[i]) else old(table.rows)[i]
  {
    if user.None? {
      return NoUser;
    }
    if checkError.Some? {
      return Failed(Caught(checkError.value));
    }
    var existing := Conflicts(table.rows, user.value, form.username);
    if |existing| > 1 {
      return Failed(Caught(multipleRowsMessage));
    }
    if |existing| == 1 {
      return UsernameTaken;
    }
    if updateError.Some? {
      return Failed(Caught(updateError.value));
    }
    table.UpdateOfUser(user.value, Edited(form));
    r := Saved;
  }

  // ---------------------------------------------------------------- account deletion

  /** The `success` member of the function's answer. */
  datatype SuccessField = Absent | True | NotTrue

  /** The answer body, when it is an object. */
  datatype DeleteAnswer = DeleteAnswer(success: SuccessField, error: Option<string>)

  datatype DeleteOutcome = SignedOut | DeleteFailed(message: string)

  /** `handleDeleteAccount`'s reading of `functions.invoke('delete-account')`. */
  function ReadDeleteAnswer(fnError: Option<string>, data: Option<DeleteAnswer>): (r: DeleteOutcome)
    ensures r == SignedOut <==> fnError.None? && (data.None? || data.value.success != NotTrue)
    ensures fnError.None? && data.Some? && data.value.success == NotTrue ==>
              r == DeleteFailed(OrElse(data.value.error, "Failed to delete account"))
  {
    if fnError.Some? then DeleteFailed(fnError.value)
    else if data.Some? && data.value.success == NotTrue then DeleteFailed(OrElse(data.value.error, "Failed to delete account"))
    else SignedOut
  }
}
