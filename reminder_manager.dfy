/**
 * The treasurer's reminder panel (src/components/treasurer/ReminderManager.tsx): its own copy of
 * the WhatsApp number formatter, the three link builders, the edited-message fallback and the
 * list of members who can be messaged.
 */
module ReminderManager {
  import opened Common
  import opened Seqs
  import opened JsString
  import SendReminders

  /** The panel's `formatPhoneForWhatsApp`. */
  function FormatPhoneForWhatsApp(phone: string): string {
    var cleaned := DigitsOnly(phone);
    if StartsWith(cleaned, "0") then "254" + cleaned[1..]
    else if !StartsWith(cleaned, "254") then "254" + cleaned
    else cleaned
  }

  /** The panel's copy agrees with the server's on every input, so it too gives digits starting `254`. */
  lemma SameAsServerFormatter(phone: string)
    ensures FormatPhoneForWhatsApp(phone) == SendReminders.FormatPhoneForWhatsApp(phone)
    ensures AllDigits(FormatPhoneForWhatsApp(phone)) && StartsWith(FormatPhoneForWhatsApp(phone), "254")
    ensures FormatPhoneForWhatsApp(FormatPhoneForWhatsApp(phone)) == FormatPhoneForWhatsApp(phone)
  {
    SendReminders.FormatPhoneForWhatsAppIdempotent(phone);
  }

  const WEB_PREFIX: string := "https://web.whatsapp.com/send?"
  const APP_PREFIX: string := "whatsapp://send?"

  /** `phone=<number>&text=<encoded message>`; `encode` stands for `encodeURIComponent`. */
  function Query(phone: string, message: string, encode: string -> string): string {
    "phone=" + FormatPhoneForWhatsApp(phone) + "&text=" + encode(message)
  }

  function BuildWhatsAppLink(phone: string, message: string, encode: string -> string): (link: string)
    ensures StartsWith(link, WEB_PREFIX)
  {
    var link := "https://web.whatsapp.com/send?phone=" + FormatPhoneForWhatsApp(phone) + "&text=" + encode(message);
    assert link[..|WEB_PREFIX|] == WEB_PREFIX;
    link
  }

  function BuildWhatsAppAppLink(phone: string, message: string, encode: string -> string): (link: string)
    ensures StartsWith(link, APP_PREFIX)
  {
    var link := "whatsapp://send?phone=" + FormatPhoneForWhatsApp(phone) + "&text=" + encode(message);
    assert link[..|APP_PREFIX|] == APP_PREFIX;
    link
  }

  /** `buildWhatsAppWebLink` repeats the default builder's template word for word. */
  function BuildWhatsAppWebLink(phone: string, message: string, encode: string -> string): (link: string)
    ensures StartsWith(link, WEB_PREFIX)
  {
    BuildWhatsAppLink(phone, message, encode)
  }

  /**
   * The default link and the web link are the same string, and the app link differs from it
   * only in the prefix before the shared query.
   */
  lemma LinksShareTheirQuery(phone: string, message: string, encode: string -> string)
    ensures BuildWhatsAppLink(phone, message, encode) == BuildWhatsAppWebLink(phone, message, encode)
    ensures BuildWhatsAppWebLink(phone, message, encode) == WEB_PREFIX + Query(phone, message, encode)
    ensures BuildWhatsAppAppLink(phone, message, encode) == APP_PREFIX + Query(phone, message, encode)
  {
    var f, e := FormatPhoneForWhatsApp(phone), encode(message);
    assert "https://web.whatsapp.com/send?phone=" + f + "&text=" + e == WEB_PREFIX + ("phone=" + f + "&text=" + e);
    assert "whatsapp://send?phone=" + f + "&text=" + e == APP_PREFIX + ("phone=" + f + "&text=" + e);
  }

  /** `editedMessages[email] ?? message`: an edit, even an empty one, replaces the generated text. */
  function MessageFor(editedMessages: map<string, string>, email: string, generated: string): (m: string)
    ensures email in editedMessages ==> m == editedMessages[email]
    ensures email !in editedMessages ==> m == generated
  {
    if email in editedMessages then editedMessages[email] else generated
  }

  /** The fields the panel reads from a reminder. */
  datatype ReminderRow = ReminderRow(email: string, phone: Option<string>, message: string, hasPhone: bool)

  function HasPhone(r: ReminderRow): bool {
    r.hasPhone
  }

  /** `reminders.filter(m => m.hasPhone)`. */
  function Listed(reminders: seq<ReminderRow>): (r: seq<ReminderRow>)
    ensures forall x :: x in r <==> x in reminders && x.hasPhone
  {
    Filter(reminders, HasPhone)
  }

  /** What the panel shows once a report is loaded. */
  datatype Panel = MemberList(rows: seq<ReminderRow>) | AllCaughtUp

  function PanelOf(reminders: seq<ReminderRow>): Panel {
    if |Listed(reminders)| > 0 then MemberList(Listed(reminders)) else AllCaughtUp
  }

  /** The empty state shows exactly when no reminder has a phone; otherwise the list holds those that do, in order. */
  lemma PanelShowsThoseWithPhones(reminders: seq<ReminderRow>)
    ensures PanelOf(reminders) == AllCaughtUp <==> forall i :: 0 <= i < |reminders| ==> !reminders[i].hasPhone
    ensures PanelOf(reminders).MemberList? ==> IsSubsequence(PanelOf(reminders).rows, reminders)
  {
    FilterIsSubsequence(reminders, HasPhone);
    if forall i :: 0 <= i < |reminders| ==> !reminders[i].hasPhone {
      FilterNone(reminders, HasPhone);
    } else {
      var i :| 0 <= i < |reminders| && reminders[i].hasPhone;
      assert reminders[i] in Listed(reminders);
    }
  }
}
