# FinalCommit Fund — a Dafny model of its core

FinalCommit Fund is a savings pot for a group of ten members. Each member pledges KES 700 before a
deadline, which makes KES 7,000 in total. The system has two parts:

- **The Deno edge functions.** They start an M-Pesa STK push through the payment gateway, reconcile
  the gateway's webhook, issue and check e-mail verification codes, send the auth e-mails, build
  WhatsApp payment reminders and delete accounts.
- **The React web app.** It validates the forms, guards the protected routes, computes each member's
  status and the group's progress, and shows the treasurer's page.

This project models those parts in Dafny, one module per source file:

- **The database.** The `contributions`, `profiles` and `verification_codes` tables are classes
  (`Store.ContributionsTable`, `Store.ProfilesTable`, `Store.CodesTable`). Each holds its rows as a
  `seq` and keeps an id counter.
- **The handlers.** Each handler that writes is a method on those tables. Its `ensures` states the
  new table and the reply as a pure function of the old table and the request. The handler's
  promises are then lemmas about that function:
  - the stk-push rejections change nothing;
  - a `completed` contribution is never overwritten;
  - replaying a webhook is idempotent;
  - a verification code is single-use;
  - a deletion removes exactly the caller's rows.
- **The pages and hooks.** These compute values from values, so they are functions. Their promises
  are lemmas:
  - counts that partition the members;
  - sorted lists that are stable permutations;
  - a list of recent payments that is the newest ten;
  - progress percentages that are the nearest whole percent.

JavaScript semantics that matter are written out:

- `parseInt`, including leading white space, a sign and a `0x` prefix;
- `Math.round` and `Math.ceil` on exact quotients;
- the stable `Array.prototype.sort`;
- `String.prototype.trim`;
- zod's report of every failed check;
- `||` and `??` on optional strings.

The outside world becomes parameters of the handlers:

- the current time;
- `Math.random()`;
- the outcomes of the database, auth-service, mail-provider and gateway calls;
- the JWT claims;
- `encodeURIComponent`.

## Model

| member | source | states |
|---|---|---|
| Common.OrElse | supabase/functions/email-hook/index.ts:44 | JavaScript's `or` with a fallback string: the value when it is a non-empty string, the fallback otherwise |
| Constants.DaysUntil | src/lib/constants.ts:9-13 | never negative; positive exactly before the deadline; then the day count `d` satisfies `MS_PER_DAY*(d-1) < deadline-now <= MS_PER_DAY*d` |
| Constants.GetDaysUntilDeadline | src/lib/constants.ts:9-13 | never negative, and positive exactly while `now` is before 2026-05-01 |
| Constants.TotalTargetIsProduct | src/lib/constants.ts:2-5 | the total target is 700 × 10 = 7000 |
| Constants.DeadlinePassedMeansNoDaysLeft | src/lib/constants.ts:9-15 | once `isDeadlinePassed` holds, the day count is 0 |
| Constants.DaysUntilNonIncreasing | src/lib/constants.ts:9-13 | the day count never rises as time goes on |
| JsMath.RoundDiv | src/pages/GroupProgress.tsx:18 | `Math.round(p/q)` is the integer nearest to p/q, with halves rounded up (both signs of q) |
| JsMath.RoundDivMonotone | src/pages/GroupProgress.tsx:18 | a larger numerator never rounds lower |
| JsMath.CeilDiv | src/lib/constants.ts:12 | `Math.ceil(p/q)` is the least integer at or above p/q |
| JsMath.CeilDivMonotone | src/lib/constants.ts:12 | a larger numerator never gives a smaller ceiling |
| JsString.StripSpaces | supabase/functions/mpesa-stk-push/index.ts:175 | `replace(/\s/g,'')`: a subsequence of the input, in order, in which a character appears exactly when it is in the input and is not white space |
| JsString.DigitsOnly | supabase/functions/send-reminders/index.ts:23 | `replace(/\D/g,'')`: a subsequence of the input, in order, in which a character appears exactly when it is a digit of the input |
| JsString.DigitsOnlyOfDigits | supabase/functions/send-reminders/index.ts:23 | a string of digits is left as it is |
| JsString.TrimStart | src/pages/Contribute.tsx:22 | a suffix of the input that does not start with white space; every character dropped before it is white space |
| JsString.TrimEnd | src/lib/validations.ts:28 | a prefix of the input that does not end with white space; every character dropped after it is white space |
| JsString.Trim | src/lib/validations.ts:28 | a slice of the input that neither starts nor ends with white space; everything cut off on either side is white space |
| JsString.TrimOfTrimmed | src/lib/validations.ts:28 | a string with no white space at either end is left as it is, so trimming twice is trimming once |
| JsString.ToLower | supabase/functions/verify-code/index.ts:32 | `toLowerCase`: the same length, with each character lower-cased |
| JsString.ToLowerIdempotent | supabase/functions/verify-code/index.ts:32 | lower-casing twice is lower-casing once |
| JsString.NatToString | supabase/functions/send-verification-code/index.ts:14 | `toString()` of a natural number is a non-empty string of digits, one digit below 10 |
| JsString.NatToStringRoundTrip | supabase/functions/send-verification-code/index.ts:14 | the decimal text reads back as the number |
| JsString.NatToStringLength | supabase/functions/send-verification-code/index.ts:14 | a number from 10^(k-1) up to 10^k - 1 has k digits |
| JsString.NatToStringNoLeadingZero | supabase/functions/send-verification-code/index.ts:14 | the text of a positive number does not start with `0` |
| KenyanPhone.KenyanNumberShape | supabase/functions/mpesa-stk-push/index.ts:130 | a number the phone pattern (an optional `+254`, `254` or `0`, then `1` or `7` and eight digits) accepts has 9, 10, 12 or 13 characters; only the 13-character form holds a non-digit, its leading `+` |
| KenyanPhone.IsKenyanNumber | supabase/functions/mpesa-stk-push/index.ts:130 | the stk-push phone pattern as a predicate; its shape is stated by KenyanNumberShape |
| KenyanPhone.IsLocalNumber | src/lib/validations.ts:37 | the form pattern `^0[17]\d{8}$` as a predicate |
| Jwt.Caller | supabase/functions/mpesa-stk-push/index.ts:39-86 | a caller exists exactly when the header starts `Bearer `, claims were returned and `sub` is non-empty; it is that `sub` |
| StableSort.SortByPermutation | src/pages/Treasurer.tsx:344-345 | sorting a copy keeps exactly the same elements (equal multisets) |
| StableSort.SortBySorted | src/pages/Treasurer.tsx:344-345 | the sorted copy is ordered by its key |
| StableSort.SortByStable | src/pages/GroupProgress.tsx:24-27 | the sort is stable: elements with the same key keep their original order |
| StableSort.SortBySum | src/pages/Treasurer.tsx:344-345 | sorting leaves every sum over the elements unchanged |
| Seqs.FlatMapMembers | src/pages/Treasurer.tsx:67-68 | `flatMap` holds exactly the elements that some source element maps to |
| Seqs.FlatMapLength | src/lib/data.ts:155-158 | the length of a `flatMap` is the sum of the parts' lengths |
| Seqs.FilterIsSubsequence | supabase/functions/send-reminders/index.ts:186-204 | `filter` keeps a sub-sequence |
| Seqs.PrefixIsSubsequence | src/components/profile/ProfileCompletionModal.tsx:174 | a prefix of a subsequence is a subsequence, as `slice(0, 10)` after a filter is |
| Seqs.CountComplement | src/hooks/useContributions.tsx:215-217 | the elements that pass a test and those that fail it add up to all of them |
| Store.WithStatus | supabase/functions/mpesa-webhook/index.ts:94-102 | `update({status}).eq('id',id)` changes the status of the rows with that id and nothing else |
| Store.WithStatusOfFresh | supabase/functions/mpesa-stk-push/index.ts:233-247 | updating the row just inserted under a fresh id changes that row alone |
| Store.ContributionsTable.Insert | supabase/functions/mpesa-stk-push/index.ts:184-198 | appends one row under a fresh id and keeps the ids distinct |
| Store.ContributionsTable.SetStatus | supabase/functions/mpesa-webhook/index.ts:94-102 | the new rows are `WithStatus` of the old |
| Store.ContributionsTable.DeleteOfUser | supabase/functions/delete-account/index.ts:50 | `delete().eq('user_id',u)` keeps, in order, exactly the rows of other users |
| Store.SubsequenceKeepsValid | supabase/functions/delete-account/index.ts:50 | deleting rows keeps the ids distinct and below the counter |
| Store.ProfilesTable.UpdateOfUser | src/pages/ProfileSettings.tsx:98-105 | `update(change).eq('user_id',u)` changes that user's rows by `change` and leaves all others as they were |
| Store.ProfilesTable.DeleteOfUser | supabase/functions/delete-account/index.ts:51 | keeps exactly the profiles of other users, in order |
| Store.CodesTable.DeleteForEmail | supabase/functions/send-verification-code/index.ts:38-41 | `delete().eq('email',e)` keeps exactly the rows for other e-mails, and keeps one row per e-mail |
| Store.CodesTable.Insert | supabase/functions/send-verification-code/index.ts:44-55 | appends one row under a fresh id |
| Store.CodesTable.MarkVerified | supabase/functions/verify-code/index.ts:56-60 | sets `verified` on the row with that id and nothing else, and keeps one row per e-mail |
| Store.WithVerified | supabase/functions/verify-code/index.ts:56-60 | only the `verified` flag of the row with that id changes |
| Store.SubsequenceKeepsOneRow | supabase/functions/verify-code/index.ts:96-100 | deleting rows keeps at most one row per e-mail |
| Totals.CompletedRows | supabase/functions/send-reminders/index.ts:157-160 | `.eq('status','completed')` selects exactly the completed rows |
| Totals.Payers | supabase/functions/send-reminders/index.ts:168-172 | the map's keys: each user with a row, each once |
| Totals.PaidByAppend | supabase/functions/send-reminders/index.ts:169-171 | one more row adds its amount to its own user's total and to no one else's |
| Totals.PaidByNonPayer | supabase/functions/send-reminders/index.ts:176 | a user without rows has paid 0, the map lookup's default |
| Totals.TallyStep | supabase/functions/send-reminders/index.ts:169-171 | one `forEach` step turns the tally of a prefix into the tally of the longer prefix |
| Totals.TallyByUser | supabase/functions/send-reminders/index.ts:168-172 | the loop's map has each payer as a key, and the lookup with default 0 is exactly what `u` paid |
| StkPush.Prefix | supabase/functions/mpesa-stk-push/index.ts:24 | `slice(0,n)` is the first `min(n,len)` characters |
| StkPush.MaskPhone | supabase/functions/mpesa-stk-push/index.ts:22-25 | numbers shorter than 4 become `***`; the others become their first 3 characters, `***`, and their last 2 |
| StkPush.MaskUserId | supabase/functions/mpesa-stk-push/index.ts:27-29 | at most the first 8 characters, then `...` |
| StkPush.MaskPhoneShowsAtMostFive | supabase/functions/mpesa-stk-push/index.ts:22-25 | a mask reveals at most 5 characters of the number |
| StkPush.ReplaceLeading | supabase/functions/mpesa-stk-push/index.ts:176-177 | `replace(/^from/,to)` changes the prefix only when it is there |
| StkPush.FormatPhoneAsWritten | supabase/functions/mpesa-stk-push/index.ts:175-178 | the formatter as written: strips white space, rewrites a leading `0` or `254` as `+254`, then forces a leading `+` |
| StkPush.FormatAsWrittenOfPrefixed | supabase/functions/mpesa-stk-push/index.ts:175-178 | the `0…`, `254…` and `+254…` forms become `+254` and their nine subscriber digits |
| StkPush.FormatAsWrittenDropsCountryCode | supabase/functions/mpesa-stk-push/index.ts:130-178 | `712345678` is a bare subscriber number that passes the pattern, and the formatter as written gives it as `+712345678`, with no country code |
| StkPush.FormatAsWrittenOfSubscriber | supabase/functions/mpesa-stk-push/index.ts:130-178 | every bare subscriber number passes the pattern and is formatted as `+` and its nine digits, with no country code |
| StkPush.StripSpacesOfDigits | supabase/functions/mpesa-stk-push/index.ts:175 | (proof helper) a string of digits has no white space to strip |
| StkPush.FormatPhone | supabase/functions/mpesa-stk-push/index.ts:175-178 | the corrected formatter, which also puts `+254` before a bare subscriber number |
| StkPush.FormatPhoneOfAccepted | supabase/functions/mpesa-stk-push/index.ts:130-178 | every number the pattern accepts becomes `+254` followed by its nine subscriber digits |
| StkPush.CorrectionChangesOnlyBareNumbers | supabase/functions/mpesa-stk-push/index.ts:130-178 | for every accepted number, the corrected formatter gives the same text as the one as written exactly when the number has a `+254`, `254` or `0` prefix |
| StkPush.CheckAmount | supabase/functions/mpesa-stk-push/index.ts:105-121 | the amount passes exactly when it is a whole number from 1 to 50000; otherwise the error is the one for missing, non-numeric, too small, too large or fractional |
| StkPush.Precheck | supabase/functions/mpesa-stk-push/index.ts:33-178 | the checks before the insert, each with its reply, in source order; stated by PrecheckProceedsExactly, UnauthorizedExactly and AcceptedRequest |
| StkPush.PrecheckProceedsExactly | supabase/functions/mpesa-stk-push/index.ts:33-172 | the handler goes on to the insert exactly when every check passes |
| StkPush.UnauthorizedExactly | supabase/functions/mpesa-stk-push/index.ts:39-86 | the reply is 401 exactly when the header, the claims or `sub` are missing |
| StkPush.AcceptedRequest | supabase/functions/mpesa-stk-push/index.ts:105-178 | an accepted request has a whole amount in bounds and a valid Kenyan phone, and stays within the remaining balance; the phone charged is `+254` and nine digits, and it equals what the formatter as written gives exactly when the number was not typed as the bare nine digits |
| StkPush.AcceptedIs | supabase/functions/mpesa-stk-push/index.ts:39-178 | (proof helper) an accepted request carries the caller's id, the checked amount, the corrected formatter's phone and the charge e-mail |
| StkPush.RateLimitFailsOpen | supabase/functions/mpesa-stk-push/index.ts:163-172 | a failed rate-limit query does not block the request |
| StkPush.Reference | supabase/functions/mpesa-stk-push/index.ts:181 | the reference starts `fcf_` |
| StkPush.ReferencesDiffer | supabase/functions/mpesa-stk-push/index.ts:181 | two attempts by one user at different instants get different references |
| StkPush.RejectionChangesNothing | supabase/functions/mpesa-stk-push/index.ts:33-198 | every rejection, and a failed insert, leaves the table unchanged and charges nothing |
| StkPush.Initiate | supabase/functions/mpesa-stk-push/index.ts:33-268 | the handler's effect on the table, its reply and its charge request; stated by RejectionChangesNothing and AcceptedAddsOneRow |
| StkPush.AcceptedAddsOneRow | supabase/functions/mpesa-stk-push/index.ts:184-256 | an accepted request adds one row for the caller, with the reference sent to the gateway; the charge is `amount*100` cents; the row ends `processing`, `failed` or still `pending` |
| StkPush.InitiatePayment | supabase/functions/mpesa-stk-push/index.ts:33-268 | the handler's new table and reply are those of `Initiate`, with the corrected phone formatter |
| StkPush.RecordAnswer | supabase/functions/mpesa-stk-push/index.ts:233-256 | a refusal marks the new row `failed` and acceptance `processing`; a thrown call leaves it `pending`; no other row changes and the reply is the gateway's |
| Webhook.MapState | supabase/functions/mpesa-webhook/index.ts:52-67 | `COMPLETE` maps to completed, `FAILED` to failed and `PROCESSING` to processing, each exactly; everything else, `PENDING` included, to pending |
| Webhook.Reconcile | supabase/functions/mpesa-webhook/index.ts:26-129 | the webhook's effect and reply; stated by the lemmas below it |
| Webhook.HandleWebhook | supabase/functions/mpesa-webhook/index.ts:26-129 | the handler's new table and reply are those of `Reconcile` |
| Webhook.MissingApiRefChangesNothing | supabase/functions/mpesa-webhook/index.ts:43-49 | a missing or empty `api_ref` is a 400 and the table is unchanged |
| Webhook.NotFoundChangesNothing | supabase/functions/mpesa-webhook/index.ts:72-84 | unless exactly one row has the reference (`.single()`), the reply is 404 and the table is unchanged |
| Webhook.MatchesOfUnique | supabase/functions/mpesa-webhook/index.ts:72-76 | a single row carrying the reference is the one match |
| Webhook.UniqueOfMatches | supabase/functions/mpesa-webhook/index.ts:72-76 | one match means one index holds it and no other does |
| Webhook.CompletedIsAbsorbing | supabase/functions/mpesa-webhook/index.ts:87-92 | a `completed` row is not overwritten, and the reply is "Already completed" |
| Webhook.CompletedStaysCompleted | supabase/functions/mpesa-webhook/index.ts:87-102 | whatever the payload, a completed row is still completed afterwards |
| Webhook.UpdateChangesOnlyTheMatchedRow | supabase/functions/mpesa-webhook/index.ts:94-117 | a successful update sets only the matched row's status, to the mapped status |
| Webhook.ReplayIsIdempotent | supabase/functions/mpesa-webhook/index.ts:26-129 | applying the same payload a second time leaves the table as it is |
| SendVerificationCode.GenerateCode | supabase/functions/send-verification-code/index.ts:13-15 | the code has six digits, with no leading zero |
| SendVerificationCode.LeadingDigitOfSixDigits | supabase/functions/send-verification-code/index.ts:14 | a number from 100000 to 999999 is written with six digits, the first not zero |
| SendVerificationCode.Issue | supabase/functions/send-verification-code/index.ts:17-150 | the handler's effect, reply and mail for every database and mail outcome; stated by the lemmas below |
| SendVerificationCode.SendCode | supabase/functions/send-verification-code/index.ts:17-150 | the handler's new table and reply are those of `Issue`; it keeps one row per e-mail unless the unread delete fails and the insert succeeds |
| SendVerificationCode.AppendKeepsOneRow | supabase/functions/send-verification-code/index.ts:44-55 | inserting for an e-mail without rows keeps one row per e-mail |
| SendVerificationCode.MissingEmailChangesNothing | supabase/functions/send-verification-code/index.ts:23-27 | a missing or empty e-mail is an error, and it comes before any change, whatever the database calls would do |
| SendVerificationCode.IssueReplacesTheEmailsCodes | supabase/functions/send-verification-code/index.ts:35-122 | after a stored code, other e-mails' rows are as before; the e-mail's only row is the new, unverified one, expiring an hour later, or, when the delete failed, the new row follows its old ones; the mail goes to the e-mail as given |
| SendVerificationCode.FailedInsertLeavesNoCode | supabase/functions/send-verification-code/index.ts:38-55 | a failed insert leaves the e-mail with no code at all, or the table as it was when the delete failed too |
| SendVerificationCode.FailedDeleteLeavesTwoRows | supabase/functions/send-verification-code/index.ts:37-55 | when the unread delete fails, an e-mail that already has a code ends with two rows |
| SendVerificationCode.ReplacedRows | supabase/functions/send-verification-code/index.ts:37-50 | (proof helper) dropping an e-mail's rows and appending one for it leaves that row as its only one, and the other e-mails' rows as they were |
| SendVerificationCode.AppendedRows | supabase/functions/send-verification-code/index.ts:41-50 | (proof helper) appending a row puts it after its e-mail's rows and leaves the other e-mails' rows alone |
| VerifyCode.FindUser | supabase/functions/verify-code/index.ts:70 | finds a user whose e-mail matches when lower-cased, and reports none only when no user matches; FindUserIsFirst says it is the first such user |
| VerifyCode.FindUserIsFirst | supabase/functions/verify-code/index.ts:70 | `find` returns the first account whose e-mail matches ignoring case |
| VerifyCode.Verify | supabase/functions/verify-code/index.ts:12-121 | the handler's effect and reply for every lookup, auth and write outcome; stated by the lemmas below |
| VerifyCode.VerifyEmailCode | supabase/functions/verify-code/index.ts:12-121 | the handler's new table and reply are those of `Verify` for every outcome of the two unread writes, and it keeps one row per e-mail |
| VerifyCode.MissingFieldsChangeNothing | supabase/functions/verify-code/index.ts:18-22 | a missing e-mail or code is an error, and the table is unchanged |
| VerifyCode.NoMatchChangesNothing | supabase/functions/verify-code/index.ts:29-54 | without an unexpired, unverified matching code, the reply is 400 and the table is unchanged |
| VerifyCode.AtMostOneRow | supabase/functions/send-verification-code/index.ts:38-55 | with one row per e-mail, an e-mail has at most one row |
| VerifyCode.AtMostOneCandidate | supabase/functions/verify-code/index.ts:29-36 | under that invariant the `maybeSingle` lookup finds at most one row |
| VerifyCode.CodeIsSpentBeforeTheUserLookup | supabase/functions/verify-code/index.ts:56-100 | once a code has matched, whatever follows, it no longer matches if the unread mark went through; if the mark failed and nothing was deleted, the table is as before |
| VerifyCode.MarkedTableHasNoMatch | supabase/functions/verify-code/index.ts:56-60 | (proof helper) with one row per e-mail, once the e-mail's row is marked verified no row matches that e-mail |
| VerifyCode.CleanedTableHasNoMatch | supabase/functions/verify-code/index.ts:96-100 | (proof helper) once the e-mail's rows are deleted no row matches it |
| VerifyCode.ConfirmationIsSingleUse | supabase/functions/verify-code/index.ts:29-105 | a confirmation needs a matching row and names a user whose e-mail matches; when the clean-up goes through no code for that e-mail is left; when both unread writes fail, the same request confirms again |
| EmailHook.Subject | supabase/functions/email-hook/index.ts:52-221 | signup, email_change and confirmation get the verify subject; recovery and reset_password the reset subject; magic_link the login subject; anything else the notification subject |
| EmailHook.UserName | supabase/functions/email-hook/index.ts:44 | the metadata name when non-empty, else "there" |
| EmailHook.Spaced | supabase/functions/email-hook/index.ts:50 | `split('').join(' ')` has length 2n-1 |
| EmailHook.FormattedToken | supabase/functions/email-hook/index.ts:50 | empty without a token; otherwise the spaced token, of length 2n-1; the value is computed but no template uses it |
| EmailHook.TokenText | supabase/functions/email-hook/index.ts:88 | `${token}` in a template: the token as received, `undefined` when absent |
| EmailHook.Greeting | supabase/functions/email-hook/index.ts:52-221 | the greeting names the user exactly in the verify (line 80) and reset (line 134) templates, with the name defaulting to "there" |
| EmailHook.HandleHook | supabase/functions/email-hook/index.ts:26-268 | the hook's reply and mail; stated by ProviderFailureIs500 and MailCarriesTheRawCode |
| EmailHook.SpacedRoundTrip | supabase/functions/email-hook/index.ts:50 | the token's characters sit at the even positions of the spaced text and the odd positions between them, one fewer than the characters, are all spaces |
| EmailHook.ProviderFailureIs500 | supabase/functions/email-hook/index.ts:44-267 | a usable payload always produces a mail to the user with the action's subject and the code exactly as received; it greets the user by name only for signup, email_change, confirmation, recovery and reset_password; the reply is success exactly when the provider accepts; otherwise a 500, carrying the provider's message when it refused with one |
| EmailHook.MailCarriesTheRawCode | supabase/functions/email-hook/index.ts:50-219 | a code of two or more characters reaches the user as received, not in its spaced form |
| DeleteAccount.DeleteAccount | supabase/functions/delete-account/index.ts:14-71 | preflight and a failed auth change nothing; otherwise each of the caller's contributions and profiles is deleted unless that unread delete fails, and the reply reports `deleteUser`'s error or success |
| DeleteAccount.ContributionDeletionScope | supabase/functions/delete-account/index.ts:50 | none of the caller's contributions is left, and every other user's are kept in order |
| DeleteAccount.ProfileDeletionScope | supabase/functions/delete-account/index.ts:51 | the same for profiles |
| SendReminders.FormatPhoneForWhatsApp | supabase/functions/send-reminders/index.ts:21-33 | all digits, starting `254`; a leading `0` is replaced by `254` |
| SendReminders.FormatPhoneForWhatsAppIdempotent | supabase/functions/send-reminders/index.ts:21-33 | formatting a formatted number changes nothing |
| SendReminders.FormatPhoneForWhatsAppOfLocal | supabase/functions/send-reminders/index.ts:26-27 | `0` followed by digits becomes `254` followed by the same digits |
| SendReminders.FormatPhoneForWhatsAppOfInternational | supabase/functions/send-reminders/index.ts:23-30 | `+254` followed by digits becomes the same digits without the `+` |
| SendReminders.WhatsAppLink | supabase/functions/send-reminders/index.ts:36-40 | the link starts `https://wa.me/254` |
| SendReminders.MemberOf | supabase/functions/send-reminders/index.ts:175-184 | remaining is `max(0, 700-paid)`, and 0 exactly when the member has paid 700 |
| SendReminders.Members | supabase/functions/send-reminders/index.ts:168-184 | one entry per profile, carrying what that user paid in completed rows |
| SendReminders.TargetedIsOrderedSelection | supabase/functions/send-reminders/index.ts:186-204 | the targeted members keep their order and are exactly those in the group; an unknown group keeps everyone |
| SendReminders.GroupsByPayment | supabase/functions/send-reminders/index.ts:188-200 | each group means what its name says, and `incomplete` is the complement of `completed` |
| SendReminders.StatusOf | supabase/functions/send-reminders/index.ts:219 | exactly one status, chosen by the target |
| SendReminders.MessageChoice | supabase/functions/send-reminders/index.ts:43-83 | nothing paid gets the not-started text; something owed the progress text; otherwise the thank-you text |
| SendReminders.ReminderOf | supabase/functions/send-reminders/index.ts:209-224 | a link exactly when the phone is non-empty; the status and message are those of the member |
| SendReminders.SummaryOf | supabase/functions/send-reminders/index.ts:227-235 | with and without a phone add up to the targeted count, which is at most the member count; collected plus remaining is 7000 |
| SendReminders.MergedOptions | supabase/functions/send-reminders/index.ts:129-139 | the body's fields override the defaults `preview` and `all` |
| SendReminders.GenerateReminders | supabase/functions/send-reminders/index.ts:85-260 | the handler's reply, built from the tally loop, is `Generate` of the tables as read |
| SendReminders.Generate | supabase/functions/send-reminders/index.ts:85-260 | the report for every auth and database outcome; stated by ReplyCases and ReportedReminders |
| SendReminders.ReplyCases | supabase/functions/send-reminders/index.ts:99-165 | only an authenticated caller gets past the guard; each failed read is a 500 naming that read |
| SendReminders.ReportedReminders | supabase/functions/send-reminders/index.ts:143-247 | with both reads working, the report holds a reminder per targeted member, in order |
| ReminderManager.SameAsServerFormatter | src/components/treasurer/ReminderManager.tsx:54-64 | the panel's formatter agrees with the server's on every input, so it is all digits, starts `254` and is idempotent |
| ReminderManager.FormatPhoneForWhatsApp | src/components/treasurer/ReminderManager.tsx:54-64 | the panel's copy of the formatter; stated by SameAsServerFormatter |
| ReminderManager.BuildWhatsAppLink | src/components/treasurer/ReminderManager.tsx:66-70 | the default link is a WhatsApp Web link |
| ReminderManager.BuildWhatsAppAppLink | src/components/treasurer/ReminderManager.tsx:72-76 | a `whatsapp://send` link |
| ReminderManager.BuildWhatsAppWebLink | src/components/treasurer/ReminderManager.tsx:78-81 | a WhatsApp Web link; the source repeats the default builder, so it is defined as that builder |
| ReminderManager.LinksShareTheirQuery | src/components/treasurer/ReminderManager.tsx:66-81 | the default link is the web link, and both links carry the same phone and text query |
| ReminderManager.MessageFor | src/components/treasurer/ReminderManager.tsx:267 | an edit, even an empty one, replaces the generated message |
| ReminderManager.Listed | src/components/treasurer/ReminderManager.tsx:218 | the list holds exactly the reminders that have a phone |
| ReminderManager.PanelOf | src/components/treasurer/ReminderManager.tsx:213-363 | the empty state or the list; stated by PanelShowsThoseWithPhones |
| ReminderManager.PanelShowsThoseWithPhones | src/components/treasurer/ReminderManager.tsx:213-363 | the empty state shows exactly when no reminder has a phone; otherwise the list keeps their order |
| UseContributions.GetMemberStatus | src/hooks/useContributions.tsx:258-262 | completed at and above 700; in progress below 700 and above 0; pending otherwise |
| UseContributions.MyContributions | src/hooks/useContributions.tsx:30-50 | the caller's list; stated by MyContributionsAreTheCallersCompleted |
| UseContributions.MyTotal | src/hooks/useContributions.tsx:52-55 | the caller's total; stated by MyTotalIsWhatTheCallerPaid |
| UseContributions.AllMembersQuery | src/hooks/useContributions.tsx:57-100 | no data for a non-treasurer or a failed read; otherwise the members with their completed rows |
| UseContributions.MyContributionsAreTheCallersCompleted | src/hooks/useContributions.tsx:30-50 | without a user the list is empty; otherwise it holds exactly the caller's completed rows, each once, newest first |
| UseContributions.MyTotalIsWhatTheCallerPaid | src/hooks/useContributions.tsx:52-55 | the total is what the caller paid in completed rows, and 0 without a user |
| UseContributions.MembersWithContributions | src/hooks/useContributions.tsx:82-93 | one member per profile |
| UseContributions.MemberCarriesItsOwnRows | src/hooks/useContributions.tsx:82-93 | each member carries exactly its own completed rows, in order, with their sum as its total |
| UseContributions.ProgressPercentage | src/hooks/useContributions.tsx:184 | 0 without a target; otherwise the nearest whole percent |
| UseContributions.PublicStatsBounds | src/hooks/useContributions.tsx:157-185 | the counts are those of the payers; the not-started count is never negative; the target is members × 700 |
| UseContributions.CountByThreshold | src/hooks/useContributions.tsx:166-171 | the loop counts the tallied users whose total reaches the target and those with a positive total below it |
| UseContributions.PayerCounts | src/hooks/useContributions.tsx:158-171 | tally then loop: the counts of distinct payers of the completed rows at the target and started below it |
| UseContributions.PublicStatsOf | src/hooks/useContributions.tsx:157-185 | the public aggregate of the completed rows; stated by PublicStatsBounds |
| UseContributions.PublicStats | src/hooks/useContributions.tsx:138-189 | a failed read gives no data; otherwise the aggregate of the completed rows |
| UseContributions.NonTreasurerWithoutData | src/hooks/useContributions.tsx:200-210 | with no public data, a non-treasurer sees zeros against the fixed target 7000 |
| UseContributions.GroupStats | src/hooks/useContributions.tsx:192-227 | the public figures for a non-treasurer, the members' figures for a treasurer; stated by NonTreasurerWithoutData and TreasurerStatsPartition |
| UseContributions.TreasurerStatsPartition | src/hooks/useContributions.tsx:212-227 | for a treasurer, completed, in-progress and not-started add up to the member count, and the target is members × 700 |
| UseContributions.AddContribution | src/hooks/useContributions.tsx:230-256 | fails without a user; otherwise one `completed` row for the user, unless the insert fails |
| Validations.Point | src/lib/validations.ts:83-89 | one point exactly when the criterion holds |
| Validations.RawScore | src/lib/validations.ts:81-89 | a score from 0 to 7 |
| Validations.Band | src/lib/validations.ts:91-99 | at most 2 is Weak/25, 3-4 Fair/50, 5 Good/75, 6 and up Strong/100 |
| Validations.GetPasswordStrength | src/lib/validations.ts:76-100 | the band of the raw score, one of 25, 50, 75 or 100 |
| Validations.EmptyPasswordIsWeak | src/lib/validations.ts:81-92 | the empty password scores 0 and is Weak |
| Validations.RawScoreGrows | src/lib/validations.ts:83-89 | typing more never lowers the raw score |
| Validations.StrengthNeverDrops | src/lib/validations.ts:76-100 | typing more never lowers the meter |
| Validations.Tagged | src/lib/validations.ts:65-68 | one issue per message, on the given field |
| Validations.LengthIssues | src/lib/validations.ts:14-15 | no issue exactly within both inclusive bounds; the too-short or too-long message otherwise |
| Validations.PasswordIssues | src/lib/validations.ts:12-15 | no issue exactly for 6 to 72 characters |
| Validations.StrongPasswordIssues | src/lib/validations.ts:17-23 | no issue exactly for a strong password; each missing class reports its own message |
| Validations.StrongPasswordIsAtLeastGood | src/lib/validations.ts:17-96 | a password the strong schema accepts shows at least Good |
| Validations.NameIssues | src/lib/validations.ts:26-31 | no issue exactly when the trimmed name has 2 to 100 characters, all letters, spaces, `'` or `-` |
| Validations.PhoneIssues | src/lib/validations.ts:34-37 | no issue exactly when the trimmed phone is `0[17]` and eight digits; otherwise just the phone message |
| Validations.OptionalPhoneCases | src/lib/validations.ts:40 | accepts nothing, `''`, or what the phone schema accepts, and no other input |
| Validations.OptionalPhoneRefusesBlank | src/lib/validations.ts:40 | a single space is refused |
| Validations.NewPasswordIssues | src/lib/validations.ts:62-68 | no issue exactly for a strong password that matches; a mismatch is reported last, on `confirmPassword` |
| ProfileSettings.ProfileIssues | src/pages/ProfileSettings.tsx:35-45 | no issue exactly when the name, the username and the Kenyan phone are valid; a bad phone or a username with other characters reports its own message |
| ProfileSettings.LocalPhoneIsKenyan | src/pages/ProfileSettings.tsx:42-44 | a phone the signup schema accepts, once trimmed, is also accepted here |
| ProfileSettings.UntrimmedLocalPhoneIsRefused | src/pages/ProfileSettings.tsx:42-44 | `" 0712345678"` passes the signup schema but not this one, which does not trim |
| ProfileSettings.Conflicts | src/pages/ProfileSettings.tsx:83-88 | exactly the rows of other users that hold the lower-cased username; the caller's own row is never among them |
| ProfileSettings.ConflictsIgnoreCase | src/pages/ProfileSettings.tsx:83-88 | the same username typed in any case finds the same rows as its lower-cased form |
| ProfileSettings.EditTouchesOnlyTheFormFields | src/pages/ProfileSettings.tsx:98-104 | the update sets the name, the lower-cased username and the phone, and keeps every other field |
| ProfileSettings.Submit | src/pages/ProfileSettings.tsx:75-116 | nothing without a user; "taken" exactly when one other user has the username; saved exactly when every call succeeds; otherwise nothing changes |
| ProfileSettings.ReadDeleteAnswer | src/pages/ProfileSettings.tsx:118-137 | signed out exactly when the call succeeded and `success` is not present with a value other than `true`; otherwise the answer's error or "Failed to delete account" |
| ProfileCompletion.CompletionIssues | src/components/profile/ProfileCompletionModal.tsx:28-36 | no issue exactly when the untrimmed name has 2 to 100 characters and the phone is a local number |
| ProfileCompletion.PhoneInputFilter | src/components/profile/ProfileCompletionModal.tsx:173-176 | the first ten digits of the input, or all of them when there are fewer, in the order typed: a prefix of the digit filter and a subsequence of the input |
| ProfileCompletion.PhoneInputFilterIdempotent | src/components/profile/ProfileCompletionModal.tsx:173-176 | filtering twice is filtering once, and a local number passes whole |
| ProfileCompletion.StoredNameCanBeShorterThanChecked | src/components/profile/ProfileCompletionModal.tsx:31-79 | `"a  "` passes the length check, but the stored name has one character |
| ProfileCompletion.Submit | src/components/profile/ProfileCompletionModal.tsx:69-97 | nothing without a user; otherwise the caller's profile gets the trimmed name, the phone and the onboarding flag, unless the update fails |
| ProtectedRoute.VerifyEmailPath | src/components/auth/ProtectedRoute.tsx:31-32 | the address comes as an `?email=` query when present |
| ProtectedRoute.Guard | src/components/auth/ProtectedRoute.tsx:15-53 | the guard's view; stated by the four lemmas below |
| ProtectedRoute.LoadingShowsSpinner | src/components/auth/ProtectedRoute.tsx:17-23 | while loading, the guard shows the spinner |
| ProtectedRoute.RedirectsOfUnverified | src/components/auth/ProtectedRoute.tsx:25-33 | no user goes to `/login`; an unverified one goes to `/verify-email` |
| ProtectedRoute.TreasurerOnly | src/components/auth/ProtectedRoute.tsx:35-37 | a verified non-treasurer on a treasurer page goes to `/dashboard` |
| ProtectedRoute.PageShownExactlyWhenAllowed | src/components/auth/ProtectedRoute.tsx:15-53 | the page shows exactly for a verified user who meets the treasurer requirement; it comes with the completion modal exactly when there is a profile and onboarding is incomplete |
| Countdown.CalculateTimeLeft | src/components/CountdownTimer.tsx:15-29 | zero after the deadline; fields in range; the fields' milliseconds are within a second below the time left; expired exactly under one second left |
| Countdown.IsExpired | src/components/CountdownTimer.tsx:39-40 | every field is zero; CalculateTimeLeft states when that holds |
| Countdown.TimeUnitText | src/components/CountdownTimer.tsx:73 | at least two digits, with a `0` put before a single digit |
| Countdown.TimeUnitTextReadsBack | src/components/CountdownTimer.tsx:73 | the padded text reads back as the value |
| ProgressBar.Percentage | src/components/ui/progress-bar.tsx:18 | never above 100 when `max` is not zero; a zero `max` gives 100, NaN or -Infinity by the sign of `value` |
| ProgressBar.PercentageIsRoundedShare | src/components/ui/progress-bar.tsx:18 | below 100 the width is the nearest whole percent |
| ProgressBar.PercentageFull | src/components/ui/progress-bar.tsx:18 | reaching `max` fills the bar |
| ProgressBar.PercentageNonNegative | src/components/ui/progress-bar.tsx:18 | progress that is not negative never gives a negative width, and no progress gives 0 |
| ProgressBar.PercentageMonotone | src/components/ui/progress-bar.tsx:18 | more progress never shortens the bar |
| FixtureData.CountsPartition | src/lib/data.ts:135-137 | with amounts not negative and targets positive, the three counts add up to the member count |
| FixtureData.TotalCollected | src/lib/data.ts:133 | the sum of the members' payments; its value is stated by FixtureTotals |
| FixtureData.TotalRemaining | src/lib/data.ts:134 | the target less the collected amount, not clamped |
| FixtureData.CompletedCount | src/lib/data.ts:135 | the members who paid at least their target; values stated by CountsPartition and FixtureCounts |
| FixtureData.InProgressCount | src/lib/data.ts:136 | the members who paid something below their target |
| FixtureData.NotStartedCount | src/lib/data.ts:137 | the members who paid nothing |
| FixtureData.GetMemberStatus | src/lib/data.ts:139-143 | completed, in progress or pending by the member's own target |
| FixtureData.StatusAgreesWithLivePages | src/lib/data.ts:139-143 | at a target of 700 it agrees with the live pages' `getMemberStatus` |
| FixtureData.FixtureIsConsistent | src/lib/data.ts:26-131 | ten members, each with target 700, whose `amountPaid` is the sum of their payments, all completed and their own |
| FixtureData.FixtureTotals | src/lib/data.ts:133-134 | 3950 collected and 3050 remaining |
| FixtureData.FixtureCounts | src/lib/data.ts:135-137 | 2 complete, 7 in progress, 1 not started |
| FixtureData.RowsOf | src/lib/data.ts:157 | one row per payment, each carrying the member's name |
| FixtureData.FlatPaymentsContents | src/lib/data.ts:157 | the flattened list holds exactly the members' payments, with their names |
| FixtureData.AllPayments | src/lib/data.ts:155-158 | the flattened payments sorted newest first; stated by the three lemmas below |
| FixtureData.AllPaymentsComplete | src/lib/data.ts:155-158 | the sorted list is a permutation of the flattened one, as long as all payments together |
| FixtureData.AllPaymentsNewestFirst | src/lib/data.ts:158 | newest first |
| FixtureData.AllPaymentsStable | src/lib/data.ts:158 | payments of the same day keep their original order |
| FixtureData.FixtureLatestDate | src/lib/data.ts:26-131 | 2025-01-20 is the latest payment date, held by p14 alone |
| FixtureData.NewestPaymentFirst | src/lib/data.ts:155-158 | a payment strictly newer than all others comes first |
| FixtureData.FixtureNewestPaymentFirst | src/lib/data.ts:155-158 | the first row is James Kiprop's p14 |
| FixtureData.GetDaysUntilDeadline | src/lib/data.ts:145-149 | never negative, and positive exactly before 2025-05-01 |
| FixtureData.FixtureDeadlineIsAYearEarlier | src/lib/data.ts:22 | the fixture deadline is 365 days before the fund's, so within the fund's last year it has already passed |
| GroupProgress.ProgressPercentage | src/pages/GroupProgress.tsx:18 | the nearest whole percent of the fixture's total against 7000 |
| GroupProgress.FixtureProgress | src/pages/GroupProgress.tsx:17-18 | 56 for the fixture |
| GroupProgress.Rank | src/pages/GroupProgress.tsx:25-26 | 0 exactly for completed, 2 exactly for pending |
| GroupProgress.SortedMembersOrder | src/pages/GroupProgress.tsx:24-27 | a permutation of the members, ordered by status, stable within each status |
| GroupProgress.CompletedListedFirst | src/pages/GroupProgress.tsx:24-27 | every completed member comes before every other |
| Treasurer.FiguresOf | src/pages/Treasurer.tsx:49-64 | the dashboard figures; stated by FiguresProperties |
| Treasurer.FiguresProperties | src/pages/Treasurer.tsx:49-64 | not-started count is the list's length; the two attention lists are disjoint ordered selections; remaining is not negative and 0 exactly at 7000 collected; the average is the nearest integer; "not joined" is positive exactly under ten members |
| Treasurer.NoticesWhenAllJoined | src/pages/Treasurer.tsx:259-261 | with ten members who have all paid something, the not-joined notice is hidden, and the notices show exactly when someone is in progress with at most 14 days left |
| Treasurer.RowsOf | src/pages/Treasurer.tsx:68 | one row per contribution, with the member's name |
| Treasurer.RecentPayments | src/pages/Treasurer.tsx:67-70 | at most ten rows |
| Treasurer.RecentPaymentsAreTheNewest | src/pages/Treasurer.tsx:67-70 | a prefix of the sorted list; newest first; no row left out is newer than one kept; every row belongs to a member |
| Treasurer.TableOrderProperties | src/pages/Treasurer.tsx:344-345 | the table is a permutation of the members, most paid first, stable for equal totals |
| Treasurer.Balance | src/pages/Treasurer.tsx:348 | not negative, and 0 exactly at 700 paid |
| Treasurer.ProgressPercent | src/pages/Treasurer.tsx:349 | the share of 700 paid as a whole percent, halves rounded up, capped at 100; never negative for a non-negative total |
| Treasurer.ProgressPercentFull | src/pages/Treasurer.tsx:347-349 | the bar reads 100 exactly from 697 paid; at 697 the balance is 3 and the status is in progress |
| Treasurer.BalanceCellOf | src/pages/Treasurer.tsx:386 | a dash exactly when the balance is 0, which is exactly a completed member |
| Contribute.LeadingRun | src/pages/Contribute.tsx:22 | the longest prefix whose characters pass the test |
| Contribute.AfterSign | src/pages/Contribute.tsx:22 | drops at most one leading sign |
| Contribute.Unsigned | src/pages/Contribute.tsx:22 | what `parseInt` reads its digits from: a suffix of the input, after the leading white space and one sign |
| Contribute.ParseInt | src/pages/Contribute.tsx:22 | `parseInt` with no radix; its meaning is stated by the four lemmas below |
| Contribute.LeadingRunOfDigits | src/pages/Contribute.tsx:22 | a run of digits followed by a non-digit, or by nothing, is read up to that point |
| Contribute.ParseIntOfDigits | src/pages/Contribute.tsx:22 | digits followed by anything that does not start with a digit read as their decimal value, unless the text starts `0x` or `0X` |
| Contribute.ParseIntOfNatToString | src/pages/Contribute.tsx:22-27 | `parseInt(value.toString())` is the value |
| Contribute.ParseIntWithoutDigits | src/pages/Contribute.tsx:22 | when the first character after the white space and the sign is not a digit, or there is none, `parseInt` is NaN |
| Contribute.NumericAmount | src/pages/Contribute.tsx:22 | `parseInt(amount)` with 0 as the fallback: the parsed number, or 0 for NaN |
| Contribute.NonNumericIsInvalid | src/pages/Contribute.tsx:22-23 | an amount whose first character after white space and sign is not a digit counts as 0 and is never valid |
| Contribute.Find | src/pages/Contribute.tsx:15 | the first member with that id, or none exactly when no member has it |
| Contribute.FindFirst | src/pages/Contribute.tsx:15 | `find` returns the earliest matching member |
| Contribute.CurrentMemberRemaining | src/pages/Contribute.tsx:11-16 | member 3 is found, with 350 remaining |
| Contribute.QuickAmountOutcome | src/pages/Contribute.tsx:25-30 | a positive value within the remaining amount fills the field with a valid amount and clears the error; a value above it changes nothing |
| Contribute.Submit | src/pages/Contribute.tsx:32-48 | proceeds exactly for a valid amount; otherwise it sets the error message |
| Contribute.IndexOf | src/pages/Contribute.tsx:51 | -1 exactly when the value is absent; otherwise an index holding it |
| Contribute.IndexOfIsFirst | src/pages/Contribute.tsx:51 | that index is the first one |
| Contribute.FirstWithinMembers | src/pages/Contribute.tsx:50-52 | the filter keeps a value exactly when it is within the remaining amount and at its first index |
| Contribute.FirstWithinOrdered | src/pages/Contribute.tsx:50-52 | the kept values are in their original order |
| Contribute.FirstWithinWhole | src/pages/Contribute.tsx:50-52 | the filter over the whole array |
| Contribute.QuickAmounts | src/pages/Contribute.tsx:50-52 | the quick amounts shown for a balance; stated by QuickAmountsProperties |
| Contribute.QuickAmountsProperties | src/pages/Contribute.tsx:50-52 | exactly the candidates within the remaining amount, each once, in order, always including the remaining amount itself |
| Contribute.CurrentMemberQuickAmounts | src/pages/Contribute.tsx:50-52 | for member 3 the buttons are 100, 200, 350 |

## Left out

- **The network and its side effects.** The mail provider, the payment gateway, the auth service's
  `listUsers`/`updateUserById`/`deleteUser`, and CORS headers. Every outcome these calls can have is
  a parameter of the handler, except the two stk-push updates listed under "Updates that cannot fail". The
  writes whose results the code never reads, and after which it carries on, are parameters too:
  - the delete of old codes in send-verification-code (`deleteFails`);
  - the mark and the clean-up in verify-code (`Writes`);
  - the two best-effort deletes in delete-account (`Cleanup`).
- **The carried content that nothing reasons about.** Response bodies are reduced to reply values.
  The e-mails' HTML templates, the reminder texts and `encodeURIComponent` are parameters (`render`,
  `encode`).
- **React.** Rendering, loading flags, toasts, `setTimeout` navigation, the realtime channel, query
  caching and invalidation. The pages' values are modelled as functions of the data they show.
- **Numbers and text.** Amounts are integers. Floating-point error in `Math.round` at exact halves is
  not modelled. Nor are `toLocaleString`, `formatCurrency`, or `Date` parsing and printing (dates are
  numbers).
- **Strings.** `toLowerCase` is modelled on ASCII letters only. JavaScript string lengths count
  UTF-16 units, while the model counts characters.
- **Queries.** `listUsers` is modelled as returning every user; its pagination is left out. Database
  orders that the code does not ask for are taken as table order. `.order('name')` in
  `useAllMembersWithContributions` is not modelled.
- **Sign-up form and e-mail.** `emailSchema`'s address pattern is left out. `signupSchema`, `loginSchema`
  and `resetPasswordSchema` only combine the modelled field schemas.
- **Other files.** `Verify.tsx`, `Index.tsx`, `Dashboard.tsx` and the other pages and components,
  which are context around the core, are not part of this model.
- **The JWT.** Verifying its signature belongs to the auth service. The claims it yields are a
  parameter.
- **Updates that cannot fail in the model.** In stk-push, the `failed` update and the `processing`
  update, whose results the code does not read, are assumed to succeed. The webhook's status update
  is read, and its failure (`updateFails`) is a 500.
- StkPush.InitiatePayment: the handler charges the phone given by the corrected `FormatPhone`,
  so a bare nine-digit number is sent as `+254` and its digits. The code as written sends it as
  `+` and the nine digits (see Findings).
- StkPush.AcceptedRequest: the 13-character `+254` phone it promises is that of the corrected
  formatter. For a bare nine-digit number, the code as written hands `+7…` or `+1…` to the
  gateway; the lemma's last clause says the two agree exactly when the number was not typed bare.
- **One clock.** The reference in stk-push and the rate-limit window use the same `now`.
- SendReminders.Authenticated: like the source, this guard does not need a `sub` claim, so the
  model does not check for one either.
- **Behaviour of the code that the model keeps as it is.**
  - The webhook does not check a signature on the gateway's callback; any caller who knows a
    reference can set its status.
  - A gateway call that throws leaves the new row `pending`; nothing marks it `failed`.
  - The e-mail hook computes a spaced-out copy of the code (`formattedToken`) that no template
    uses; the mail shows the code as received, or `undefined` when the payload has none.
  - Gateway states other than `COMPLETE`, `FAILED` and `PROCESSING` map to `pending`.
  - The stk-push handler uses a per-member target of 1400 (`StkPush.TARGET_AMOUNT`), while the web
    app uses 700. The handler takes the target as an argument.
  - `src/lib/data.ts` sets its own deadline, 2025-05-01, a year before the fund's 2026-05-01.
  - The Treasurer page computes `notJoinedCount` without clamping it at zero, so more than ten
    members give a negative number.
- **`maybeSingle` with more than one row.** It is treated as an error, as the client library
  reports it. In the username check of the profile settings page, this error's message is the
  parameter `multipleRowsMessage`.

## Findings

| source | as written | input that shows it | evidently intended | confidence | as-written member | corrected member |
|---|---|---|---|---|---|---|
| supabase/functions/mpesa-stk-push/index.ts:130-178 | the phone pattern makes the `+254`/`254`/`0` prefix optional, but the formatter only rewrites `0` and `254`, then adds a bare `+` | `712345678`, which passes the pattern and is charged as `+712345678`, with no country code | every accepted number is sent as `+254` and its nine subscriber digits | not executed | StkPush.FormatAsWrittenDropsCountryCode | StkPush.FormatPhoneOfAccepted |
