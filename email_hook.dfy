/**
 * The auth e-mail hook (supabase/functions/email-hook/index.ts): picks the subject and the
 * template for the action, puts the one-time code in it as received, and hands the message to
 * the mail provider. The spaced-out code of line 50 is computed but no template uses it.
 */
module EmailHook {
  import opened Common

  const VERIFY_SUBJECT: string := "Verify your email - FinalCommit"
  const RESET_SUBJECT: string := "Reset your password - FinalCommit"
  const LOGIN_SUBJECT: string := "Your login code - FinalCommit"
  const OTHER_SUBJECT: string := "FinalCommit Notification"

  /** The `switch (email_action_type)`; an absent action type takes the default branch. */
  function Subject(actionType: Option<string>): (subject: string)
    ensures subject in {VERIFY_SUBJECT, RESET_SUBJECT, LOGIN_SUBJECT, OTHER_SUBJECT}
    ensures subject == VERIFY_SUBJECT <==> actionType in {Some("signup"), Some("email_change"), Some("confirmation")}
    ensures subject == RESET_SUBJECT <==> actionType in {Some("recovery"), Some("reset_password")}
    ensures subject == LOGIN_SUBJECT <==> actionType == Some("magic_link")
  {
    match actionType
    case Some("signup") => VERIFY_SUBJECT
    case Some("email_change") => VERIFY_SUBJECT
    case Some("confirmation") => VERIFY_SUBJECT
    case Some("recovery") => RESET_SUBJECT
    case Some("reset_password") => RESET_SUBJECT
    case Some("magic_link") => LOGIN_SUBJECT
    case _ => OTHER_SUBJECT
  }

  /** `user.user_metadata?.name || "there"`. */
  function UserName(name: Option<string>): (r: string)
    ensures Truthy(name) ==> r == name.value
    ensures !Truthy(name) ==> r == "there"
  {
    OrElse(name, "there")
  }

  /** `s.split('').join(' ')`. */
  function Spaced(s: string): (r: string)
    ensures |s| >= 1 ==> |r| == 2 * |s| - 1
    ensures s == [] ==> r == []
  {
    if |s| <= 1 then s else [s[0], ' '] + Spaced(s[1..])
  }

  /** `token ? token.split('').join(' ') : ''` (line 50); the value is never used afterwards. */
  function FormattedToken(token: Option<string>): (r: string)
    ensures !Truthy(token) ==> r == ""
    ensures Truthy(token) ==> |r| == 2 * |token.value| - 1
  {
    if Truthy(token) then Spaced(token.value) else ""
  }

  /** The characters at even positions. */
  function EvenPositions(r: string): string {
    if |r| <= 1 then r else [r[0]] + EvenPositions(r[2..])
  }

  /** The characters at odd positions. */
  function OddPositions(r: string): string {
    if |r| <= 1 then [] else [r[1]] + OddPositions(r[2..])
  }

  predicate AllSpaces(x: string) {
    forall i :: 0 <= i < |x| ==> x[i] == ' '
  }

  /**
   * The spaced token reads back as the token: its characters sit at the even positions and the
   * `|s| - 1` odd positions between them are all spaces.
   */
  lemma {:induction false} SpacedRoundTrip(s: string)
    ensures EvenPositions(Spaced(s)) == s
    ensures AllSpaces(OddPositions(Spaced(s)))
    ensures |s| >= 1 ==> |OddPositions(Spaced(s))| == |s| - 1
  {
    if |s| > 1 {
      SpacedRoundTrip(s[1..]);
      var r := Spaced(s);
      assert r == [s[0], ' '] + Spaced(s[1..]);
      assert r[2..] == Spaced(s[1..]);
      assert [s[0]] + s[1..] == s;
    }
  }

  /** The provider's answer: accepted, refused (with its `message`), or the call threw. */
  datatype ProviderResult = Accepted | Refused(message: Option<string>) | Threw(errorMessage: string)

  /** The request body: unusable (parse error or missing `user`/`email_data`), or its fields. */
  datatype Payload =
    | Unusable(errorMessage: string)
    | Payload(email: string, name: Option<string>, token: Option<string>, actionType: Option<string>)

  /**
   * What the message carries besides its HTML: the address, the subject, the name in the
   * greeting (only the verify and reset templates greet the user) and the code as shown.
   */
  datatype Mail = Mail(to: string, subject: string, greeting: Option<string>, code: string)

  /** `${token}` in a template literal: the token as received, or `undefined` when it is absent. */
  function TokenText(token: Option<string>): (r: string)
    ensures token.Some? ==> r == token.value
    ensures token.None? ==> r == "undefined"
  {
    match token
    case Some(t) => t
    case None => "undefined"
  }

  /** `Hi ${userName}` appears in the verify (line 80) and reset (line 134) templates only. */
  function Greeting(subject: string, name: Option<string>): (r: Option<string>)
    ensures r.Some? <==> subject in {VERIFY_SUBJECT, RESET_SUBJECT}
    ensures r.Some? ==> r.value == UserName(name)
  {
    if subject == VERIFY_SUBJECT || subject == RESET_SUBJECT then Some(UserName(name)) else None
  }

  datatype Reply = Preflight | Sent | Failed(httpCode: int, message: string)

  /** `error.message || "Failed to send email"`. */
  function Caught(message: string): string {
    if message == "" then "Failed to send email" else message
  }

  /** The handler: the reply and the message handed to the provider, if one was. */
  function HandleHook(preflight: bool, payload: Payload, result: ProviderResult): (r: (Reply, Option<Mail>))
  {
    if preflight then (Preflight, None)
    else if payload.Unusable? then (Failed(500, Caught(payload.errorMessage)), None)
    else
      var subject := Subject(payload.actionType);
      var mail := Mail(payload.email, subject, Greeting(subject, payload.name), TokenText(payload.token));
      match result
      case Accepted => (Sent, Some(mail))
      case Refused(m) => (Failed(500, OrElse(m, "Failed to send email")), Some(mail))
      case Threw(m) => (Failed(500, Caught(m)), Some(mail))
  }

  /**
   * A usable payload always produces a mail to the user's address with the action's subject,
   * the code exactly as received and a greeting only in the verify and reset templates; the
   * reply is success exactly when the provider accepts, and otherwise a 500, carrying the
   * provider's message when it refused with one.
   */
  lemma ProviderFailureIs500(payload: Payload, result: ProviderResult)
    requires payload.Payload?
    ensures var (reply, mail) := HandleHook(false, payload, result);
            mail.Some? && mail.value.to == payload.email && mail.value.subject == Subject(payload.actionType)
            && (Truthy(payload.token) ==> mail.value.code == payload.token.value)
            && (mail.value.greeting.Some? <==>
                  payload.actionType in {Some("signup"), Some("email_change"), Some("confirmation"),
                                         Some("recovery"), Some("reset_password")})
            && (mail.value.greeting.Some? ==> mail.value.greeting.value == UserName(payload.name))
            && (reply == Sent <==> result == Accepted)
            && (result.Refused? && Truthy(result.message) ==> reply == Failed(500, result.message.value))
            && (!reply.Sent? ==> reply.httpCode == 500)
  {
  }

  /**
   * The spaced code of line 50 never reaches the user: for a code of two or more characters the
   * mail shows the code as received, which differs from its spaced form.
   */
  lemma MailCarriesTheRawCode(payload: Payload, result: ProviderResult)
    requires payload.Payload? && payload.token.Some? && |payload.token.value| >= 2
    ensures var mail := HandleHook(false, payload, result).1;
            mail.Some? && mail.value.code == payload.token.value
            && mail.value.code != FormattedToken(payload.token)
  {
    assert |FormattedToken(payload.token)| == 2 * |payload.token.value| - 1;
  }
}
