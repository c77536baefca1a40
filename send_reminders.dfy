/**
 * The reminder generator (supabase/functions/send-reminders/index.ts): for every member it
 * works out what is paid and what remains, picks a reminder text and a WhatsApp link, and
 * reports them with a summary, filtered to the requested group.
 */
module SendReminders {
  import opened Common
  import opened Seqs
  import opened JsString
  import opened Store
  import opened Jwt
  import opened JsMath
  import Constants
  import opened Totals

  const TARGET_AMOUNT: int := 700
  const TOTAL_TARGET: int := 7000
  /** `new Date('2026-05-01')`. */
  const DEADLINE: int := 1777593600000
  const DEFAULT_APP_URL: string := "https://final-commit-fund.lovable.app"

  // ---------------------------------------------------------------- WhatsApp

  /** `formatPhoneForWhatsApp`: the digits, with a leading `0` or a missing `254` replaced by `254`. */
  function FormatPhoneForWhatsApp(phone: string): (r: string)
    ensures AllDigits(r) && StartsWith(r, "254")
    ensures StartsWith(DigitsOnly(phone), "0") ==> r == "254" + DigitsOnly(phone)[1..]
  {
    var cleaned := DigitsOnly(phone);
    if StartsWith(cleaned, "0") then "254" + cleaned[1..]
    else if !StartsWith(cleaned, "254") then "254" + cleaned
    else cleaned
  }

  /** Formatting an already formatted number changes nothing. */
  lemma FormatPhoneForWhatsAppIdempotent(phone: string)
    ensures FormatPhoneForWhatsApp(FormatPhoneForWhatsApp(phone)) == FormatPhoneForWhatsApp(phone)
  {
    var r := FormatPhoneForWhatsApp(phone);
    DigitsOnlyOfDigits(r);
    assert r[..1] == "2";
  }

  /** A local `0…` number becomes `254` and the subscriber digits. */
  lemma FormatPhoneForWhatsAppOfLocal(subscriber: string)
    requires AllDigits(subscriber)
    ensures FormatPhoneForWhatsApp("0" + subscriber) == "254" + subscriber
  {
    var local := "0" + subscriber;
    DigitsOnlyOfDigits(local);
    assert local[..1] == "0" && local[1..] == subscriber;
  }

  /** The digits of `+254`. */
  lemma DigitsOfCountryCode()
    ensures Filter("+254", IsDigit) == "254"
  {
  }

  lemma DigitsOfInternational(subscriber: string)
    requires AllDigits(subscriber)
    ensures DigitsOnly("+254" + subscriber) == "254" + subscriber
  {
    FilterAppend("+254", subscriber, IsDigit);
    DigitsOnlyOfDigits(subscriber);
    DigitsOfCountryCode();
  }

  lemma StartsWithCountryCode(intl: string)
    requires |intl| >= 3 && intl[..3] == "254"
    ensures !StartsWith(intl, "0") && StartsWith(intl, "254")
  {
    assert intl[0] == intl[..3][0];
  }

  /** The `+254` form of a number becomes the same digits without the `+`. */
  lemma FormatPhoneForWhatsAppOfInternational(subscriber: string)
    requires AllDigits(subscriber)
    ensures FormatPhoneForWhatsApp("+254" + subscriber) == "254" + subscriber
  {
    var intl := "254" + subscriber;
    DigitsOfInternational(subscriber);
    assert intl[..3] == "254";
    StartsWithCountryCode(intl);
  }

  /** `https://wa.me/<number>?text=<encoded message>`; `encode` stands for `encodeURIComponent`. */
  function WhatsAppLink(phone: string, message: string, encode: string -> string): (link: string)
    ensures StartsWith(link, "https://wa.me/254")
  {
    var link := "https://wa.me/" + FormatPhoneForWhatsApp(phone) + "?text=" + encode(message);
    assert link[..17] == "https://wa.me/" + FormatPhoneForWhatsApp(phone)[..3];
    link
  }

  // ---------------------------------------------------------------- members

  datatype MemberReminder = MemberReminder(name: string, phone: Option<string>, email: string, totalPaid: int, remaining: int)

  /** One entry of the member list: the profile with what it paid (`memberTotals.get(...) || 0`). */
  function MemberOf(p: Profile, totalPaid: int): (m: MemberReminder)
    ensures m.remaining >= 0 && m.remaining == Max(0, TARGET_AMOUNT - totalPaid)
    ensures m.remaining == 0 <==> totalPaid >= TARGET_AMOUNT
  {
    MemberReminder(p.name, p.phone, p.email, totalPaid, Max(0, TARGET_AMOUNT - totalPaid))
  }

  /** The member list, one entry per profile, each with the sum of its user's completed amounts. */
  function Members(profiles: seq<Profile>, completed: seq<Contribution>): (ms: seq<MemberReminder>)
    ensures |ms| == |profiles|
    ensures forall i :: 0 <= i < |ms| ==> ms[i] == MemberOf(profiles[i], PaidBy(completed, profiles[i].userId))
  {
    seq(|profiles|, i requires 0 <= i < |profiles| => MemberOf(profiles[i], PaidBy(completed, profiles[i].userId)))
  }

  /** The `switch (targetGroup)` filter; an unknown group keeps everyone. */
  function InGroup(targetGroup: string): MemberReminder -> bool {
    (m: MemberReminder) =>
      match targetGroup
      case "not_started" => m.totalPaid == 0
      case "in_progress" => m.totalPaid > 0 && m.totalPaid < TARGET_AMOUNT
      case "incomplete" => m.totalPaid < TARGET_AMOUNT
      case "completed" => m.totalPaid >= TARGET_AMOUNT
      case _ => true
  }

  function Targeted(members: seq<MemberReminder>, targetGroup: string): seq<MemberReminder> {
    Filter(members, InGroup(targetGroup))
  }

  /** The targeted members keep their order, and a member is targeted exactly when its group test holds. */
  lemma TargetedIsOrderedSelection(members: seq<MemberReminder>, targetGroup: string)
    ensures IsSubsequence(Targeted(members, targetGroup), members)
    ensures forall m :: m in Targeted(members, targetGroup) <==> m in members && InGroup(targetGroup)(m)
    ensures targetGroup !in {"not_started", "in_progress", "incomplete", "completed"} ==>
              Targeted(members, targetGroup) == members
  {
    FilterIsSubsequence(members, InGroup(targetGroup));
    if targetGroup !in {"not_started", "in_progress", "incomplete", "completed"} {
      FilterAll(members, InGroup(targetGroup));
    }
  }

  /** The groups mean what their names say. */
  lemma GroupsByPayment(m: MemberReminder)
    ensures InGroup("not_started")(m) <==> m.totalPaid == 0
    ensures InGroup("in_progress")(m) <==> 0 < m.totalPaid < TARGET_AMOUNT
    ensures InGroup("incomplete")(m) <==> m.totalPaid < TARGET_AMOUNT
    ensures InGroup("completed")(m) <==> m.totalPaid >= TARGET_AMOUNT
    ensures InGroup("incomplete")(m) <==> !InGroup("completed")(m)
  {
  }

  // ---------------------------------------------------------------- reminders

  datatype ReminderStatus = Completed | InProgress | NotStarted

  /** The `status` field of a reminder. */
  function StatusOf(totalPaid: int): (s: ReminderStatus)
    ensures s == ReminderStatus.Completed <==> totalPaid >= TARGET_AMOUNT
    ensures s == InProgress <==> 0 < totalPaid < TARGET_AMOUNT
    ensures s == NotStarted <==> totalPaid <= 0
  {
    if totalPaid >= TARGET_AMOUNT then ReminderStatus.Completed else if totalPaid > 0 then InProgress else NotStarted
  }

  /**
   * The three reminder texts of `generateReminderMessage`, by the values they are filled with;
   * `link` is the `/contribute` address.
   */
  datatype Message =
    | NotStartedText(name: string, target: int, daysLeft: int, link: string)
    | ProgressText(name: string, percent: int, paid: int, remaining: int, daysLeft: int, link: string)
    | ThankYouText(name: string, paid: int)

  /** `(APP_URL || default) + '/contribute'`. */
  function ContributeLink(appUrl: Option<string>): string {
    OrElse(appUrl, DEFAULT_APP_URL) + "/contribute"
  }

  function ReminderMessage(m: MemberReminder, daysLeft: int, appUrl: Option<string>): Message {
    if m.totalPaid == 0 then NotStartedText(m.name, TARGET_AMOUNT, daysLeft, ContributeLink(appUrl))
    else if m.remaining > 0 then
      ProgressText(m.name, RoundDiv(100 * m.totalPaid, TARGET_AMOUNT), m.totalPaid, m.remaining, daysLeft, ContributeLink(appUrl))
    else ThankYouText(m.name, m.totalPaid)
  }

  /**
   * Nothing paid gets the "not started" text, a member still short of the target the progress
   * text, and a member at or past the target the thank-you text, for members from `MemberOf`.
   */
  lemma MessageChoice(p: Profile, totalPaid: int, daysLeft: int, appUrl: Option<string>)
    ensures var msg := ReminderMessage(MemberOf(p, totalPaid), daysLeft, appUrl);
            (msg.NotStartedText? <==> totalPaid == 0)
            && (msg.ProgressText? <==> totalPaid != 0 && totalPaid < TARGET_AMOUNT)
            && (msg.ThankYouText? <==> totalPaid >= TARGET_AMOUNT)
            && (msg.ThankYouText? <==> StatusOf(totalPaid) == ReminderStatus.Completed)
  {
  }

  datatype Reminder = Reminder(
    name: string, phone: Option<string>, email: string, totalPaid: int, remaining: int,
    status: ReminderStatus, message: Message, whatsappLink: Option<string>, hasPhone: bool)

  /** One reminder; `render` stands for filling in the message text. */
  function ReminderOf(m: MemberReminder, daysLeft: int, appUrl: Option<string>,
                      render: Message -> string, encode: string -> string): (r: Reminder)
    ensures r.whatsappLink.None? <==> !Truthy(m.phone)
    ensures r.hasPhone == Truthy(m.phone)
    ensures r.status == StatusOf(m.totalPaid) && r.message == ReminderMessage(m, daysLeft, appUrl)
  {
    var message := ReminderMessage(m, daysLeft, appUrl);
    Reminder(m.name, m.phone, m.email, m.totalPaid, m.remaining, StatusOf(m.totalPaid), message,
             if Truthy(m.phone) then Some(WhatsAppLink(m.phone.value, render(message), encode)) else None,
             Truthy(m.phone))
  }

  function HasPhone(m: MemberReminder): bool {
    Truthy(m.phone)
  }

  function HasNoPhone(m: MemberReminder): bool {
    !Truthy(m.phone)
  }

  function TotalPaidOf(m: MemberReminder): int {
    m.totalPaid
  }

  datatype Summary = Summary(
    totalMembers: int, targetedMembers: int, withPhone: int, withoutPhone: int,
    daysLeft: int, totalCollected: int, totalRemaining: int)

  function SummaryOf(members: seq<MemberReminder>, targeted: seq<MemberReminder>, daysLeft: int): (s: Summary)
    requires IsSubsequence(targeted, members)
    ensures s.withPhone + s.withoutPhone == s.targetedMembers <= s.totalMembers
    ensures s.totalCollected + s.totalRemaining == TOTAL_TARGET
  {
    CountComplement(targeted, HasPhone, HasNoPhone);
    SubsequenceLength(targeted, members);
    Summary(|members|, |targeted|, Count(targeted, HasPhone), Count(targeted, HasNoPhone), daysLeft,
            SumOf(members, TotalPaidOf), TOTAL_TARGET - SumOf(members, TotalPaidOf))
  }

  lemma {:induction false} SubsequenceLength<T>(a: seq<T>, b: seq<T>)
    requires IsSubsequence(a, b)
    ensures |a| <= |b|
    decreases |b|
  {
    if a != [] {
      if a[0] == b[0] && IsSubsequence(a[1..], b[1..]) {
        SubsequenceLength(a[1..], b[1..]);
      } else {
        SubsequenceLength(a, b[1..]);
      }
    }
  }

  // ---------------------------------------------------------------- the handler

  /** The request body's fields; `None` for no body or for one that does not parse. */
  datatype RequestOptions = RequestOptions(sendType: Option<string>, targetGroup: Option<string>)

  /** `{ sendType: 'preview', targetGroup: 'all', ...body }`. */
  function MergedOptions(body: Option<RequestOptions>): (r: (string, string))
    ensures body.Some? && body.value.sendType.Some? ==> r.0 == body.value.sendType.value
    ensures (body.None? || body.value.sendType.None?) ==> r.0 == "preview"
    ensures body.Some? && body.value.targetGroup.Some? ==> r.1 == body.value.targetGroup.value
    ensures (body.None? || body.value.targetGroup.None?) ==> r.1 == "all"
  {
    match body
    case None => ("preview", "all")
    case Some(o) =>
      (if o.sendType.Some? then o.sendType.value else "preview",
       if o.targetGroup.Some? then o.targetGroup.value else "all")
  }

  /** Which of the two reads fails. */
  datatype Database = Database(profilesFail: bool, contributionsFail: bool)

  datatype Reply =
    | Preflight
    | Unauthorized
    | Failure(error: string)
    | Report(sendType: string, targetGroup: string, summary: Summary, reminders: seq<Reminder>)

  function StatusCode(r: Reply): int {
    match r
    case Preflight => 200
    case Unauthorized => 401
    case Failure(_) => 500
    case Report(_, _, _, _) => 200
  }

  /** The guard: a `Bearer ` header whose token yields claims; no role and no `sub` are required. */
  predicate Authenticated(authorization: Option<string>, claims: Option<Claims>) {
    BearerHeader(authorization) && claims.Some?
  }

  function ReportOf(members: seq<MemberReminder>, body: Option<RequestOptions>, daysLeft: int,
                    appUrl: Option<string>, render: Message -> string, encode: string -> string): Reply
  {
    var (sendType, targetGroup) := MergedOptions(body);
    var targeted := Targeted(members, targetGroup);
    FilterIsSubsequence(members, InGroup(targetGroup));
    Report(sendType, targetGroup, SummaryOf(members, targeted, daysLeft),
           seq(|targeted|, i requires 0 <= i < |targeted| => ReminderOf(targeted[i], daysLeft, appUrl, render, encode)))
  }

  /** What the handler answers, stated over the tables as they are read. */
  function Generate(preflight: bool, authorization: Option<string>, claims: Option<Claims>,
                    body: Option<RequestOptions>, now: int, db: Database, profiles: seq<Profile>,
                    rows: seq<Contribution>, appUrl: Option<string>,
                    render: Message -> string, encode: string -> string): Reply
  {
    if preflight then Preflight
    else if !Authenticated(authorization, claims) then Unauthorized
    else if db.profilesFail then Failure("Failed to fetch member profiles")
    else if db.contributionsFail then Failure("Failed to fetch contributions")
    else ReportOf(Members(profiles, CompletedRows(rows)), body, Constants.DaysUntil(DEADLINE, now), appUrl, render, encode)
  }

  /** The handler: tallies the completed contributions once, then builds the member list from the tally. */
  method GenerateReminders(preflight: bool, authorization: Option<string>, claims: Option<Claims>,
                           body: Option<RequestOptions>, now: int, db: Database, profiles: seq<Profile>,
                           rows: seq<Contribution>, appUrl: Option<string>,
                           render: Message -> string, encode: string -> string)
    returns (reply: Reply)
    ensures reply == Generate(preflight, authorization, claims, body, now, db, profiles, rows, appUrl, render, encode)
  {
    if preflight {
      return Preflight;
    }
    if !Authenticated(authorization, claims) {
      return Unauthorized;
    }
    var daysLeft := Constants.DaysUntil(DEADLINE, now);
    if db.profilesFail {
      return Failure("Failed to fetch member profiles");
    }
    if db.contributionsFail {
      return Failure("Failed to fetch contributions");
    }
    var completed := CompletedRows(rows);
    var _, totals := TallyByUser(completed);
    var members := seq(|profiles|, i requires 0 <= i < |profiles| => MemberOf(profiles[i], TotalOr0(totals, profiles[i].userId)));
    assert members == Members(profiles, completed);
    reply := ReportOf(members, body, daysLeft, appUrl, render, encode);
  }

  /** Every failure of a read is a 500 naming that read, and only an authenticated caller gets past the guard. */
  lemma ReplyCases(preflight: bool, authorization: Option<string>, claims: Option<Claims>,
                   body: Option<RequestOptions>, now: int, db: Database, profiles: seq<Profile>,
                   rows: seq<Contribution>, appUrl: Option<string>,
                   render: Message -> string, encode: string -> string)
    requires !preflight
    ensures var r := Generate(preflight, authorization, claims, body, now, db, profiles, rows, appUrl, render, encode);
            (r == Unauthorized <==> !Authenticated(authorization, claims))
            && (r.Report? <==> Authenticated(authorization, claims) && !db.profilesFail && !db.contributionsFail)
            && (r.Report? ==> r.summary.totalMembers == |profiles| && r.summary.daysLeft >= 0
                              && |r.reminders| == r.summary.targetedMembers)
  {
  }

  /**
   * In a report every reminder belongs to a member of the requested group, carries that member's
   * completed total, and says `remaining = max(0, 700 - totalPaid)`.
   */
  lemma ReportedReminders(authorization: Option<string>, claims: Option<Claims>,
                          body: Option<RequestOptions>, now: int, profiles: seq<Profile>,
                          rows: seq<Contribution>, appUrl: Option<string>,
                          render: Message -> string, encode: string -> string, k: int)
    requires Authenticated(authorization, claims)
    ensures var r := Generate(false, authorization, claims, body, now, Database(false, false), profiles, rows, appUrl, render, encode);
            r.Report? && (0 <= k < |r.reminders| ==>
              exists i :: 0 <= i < |profiles| && InGroup(r.targetGroup)(MemberOf(profiles[i], PaidBy(CompletedRows(rows), profiles[i].userId)))
                          && r.reminders[k].email == profiles[i].email
                          && r.reminders[k].totalPaid == PaidBy(CompletedRows(rows), profiles[i].userId)
                          && r.reminders[k].remaining == Max(0, TARGET_AMOUNT - r.reminders[k].totalPaid))
  {
    var members := Members(profiles, CompletedRows(rows));
    var (sendType, targetGroup) := MergedOptions(body);
    var targeted := Targeted(members, targetGroup);
    var r := Generate(false, authorization, claims, body, now, Database(false, false), profiles, rows, appUrl, render, encode);
    if 0 <= k < |r.reminders| {
      assert r.reminders[k] == ReminderOf(targeted[k], Constants.DaysUntil(DEADLINE, now), appUrl, render, encode);
      assert targeted[k] in members;
      var i :| 0 <= i < |members| && members[i] == targeted[k];
      assert InGroup(targetGroup)(targeted[k]);
    }
  }
}
