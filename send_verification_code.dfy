/**
 * Issuing an e-mail verification code (supabase/functions/send-verification-code/index.ts):
 * the e-mail's old codes are deleted, one new code is stored for an hour, and it is mailed.
 */
module SendVerificationCode {
  import opened Common
  import opened Seqs
  import opened JsString
  import opened Store

  const CODE_LIFETIME_MS: int := 60 * 60 * 1000

  /** `Math.floor(100000 + random * 900000).toString()`, for `random` the value `Math.random()` gave. */
  function GenerateCode(random: real): (code: string)
    requires 0.0 <= random < 1.0
    ensures |code| == 6 && AllDigits(code)
    ensures 100000 <= DecimalValue(code) <= 999999
    ensures code[0] != '0'
  {
    var n := (100000.0 + random * 900000.0).Floor;
    assert 100000 <= n <= 999999;
    assert Pow10(5) == 100000 && Pow10(6) == 1000000;
    NatToStringLength(n, 6);
    NatToStringRoundTrip(n);
    LeadingDigitOfSixDigits(n);
    NatToString(n)
  }

  /** A number of six digits is not written with a leading zero. */
  lemma LeadingDigitOfSixDigits(n: nat)
    requires 100000 <= n <= 999999
    ensures NatToString(n)[0] != '0'
  {
    NatToStringNoLeadingZero(n);
  }

  /** The JSON body: unparseable, or its `email` and `name` fields. */
  datatype Body = Malformed(parserMessage: string) | Parsed(email: Option<string>, name: Option<string>)

  /** What the mail provider did with the message. */
  datatype MailResult = Delivered | Refused(message: Option<string>) | Threw(errorMessage: string)

  /** The message handed to the provider. */
  datatype Mail = Mail(to: string, subject: string, code: string, userName: string)

  datatype Reply = Preflight | Sent | ServerError(error: string)

  function StatusCode(r: Reply): int {
    if r.ServerError? then 500 else 200
  }

  /** `error.message || "Failed to send verification code"`. */
  function Caught(message: string): string {
    if message == "" then "Failed to send verification code" else message
  }

  datatype Outcome = Outcome(rows: seq<CodeRow>, reply: Reply, mail: Option<Mail>)

  /**
   * The handler's effect: `random` is the value of `Math.random()`, new rows get id `nextId`.
   * `deleteFails` says whether the delete of the e-mail's old codes, whose result is never
   * read, fails; the handler then inserts the new code beside them.
   */
  function Issue(rows: seq<CodeRow>, nextId: int, preflight: bool, body: Body, now: int, random: real,
                 deleteFails: bool, insertFails: bool, result: MailResult): Outcome
    requires 0.0 <= random < 1.0
  {
    if preflight then Outcome(rows, Preflight, None)
    else if body.Malformed? then Outcome(rows, ServerError(Caught(body.parserMessage)), None)
    else if !Truthy(body.email) then Outcome(rows, ServerError("Email is required"), None)
    else
      var email := body.email.value;
      var code := GenerateCode(random);
      var kept := if deleteFails then rows else Filter(rows, NotForEmail(ToLower(email)));
      if insertFails then Outcome(kept, ServerError("Failed to generate verification code"), None)
      else
        var rows' := kept + [CodeRow(nextId, ToLower(email), code, now + CODE_LIFETIME_MS, false)];
        var mail := Mail(email, "Verify your email - FinalCommit", code, OrElse(body.name, "there"));
        match result
        case Delivered => Outcome(rows', Sent, Some(mail))
        case Refused(m) => Outcome(rows', ServerError(OrElse(m, "Failed to send email")), Some(mail))
        case Threw(m) => Outcome(rows', ServerError(Caught(m)), Some(mail))
  }

  method SendCode(table: CodesTable, preflight: bool, body: Body, now: int, random: real,
                  deleteFails: bool, insertFails: bool, result: MailResult) returns (reply: Reply, mail: Option<Mail>)
    requires 0.0 <= random < 1.0
    modifies table
    ensures Outcome(table.rows, reply, mail)
            == Issue(old(table.rows), old(table.nextId), preflight, body, now, random, deleteFails, insertFails, result)
    ensures OneRowPerEmail(old(table.rows)) && (!deleteFails || insertFails) ==> OneRowPerEmail(table.rows)
  {
    if preflight {
      return Preflight, None;
    }
    if body.Malformed? {
      return ServerError(Caught(body.parserMessage)), None;
    }
    if !Truthy(body.email) {
      return ServerError("Email is required"), None;
    }
    var email := body.email.value;
    var code := GenerateCode(random);
    var expiresAt := now + CODE_LIFETIME_MS;
    if !deleteFails {
      table.DeleteForEmail(ToLower(email));
    }
    if insertFails {
      return ServerError("Failed to generate verification code"), None;
    }
    ghost var kept := table.rows;
    var _ := table.Insert(ToLower(email), code, expiresAt, false);
    if OneRowPerEmail(old(table.rows)) && !deleteFails {
      AppendKeepsOneRow(kept, CodeRow(old(table.nextId), ToLower(email), code, expiresAt, false));
    }
    mail := Some(Mail(email, "Verify your email - FinalCommit", code, OrElse(body.name, "there")));
    match result {
      case Delivered => reply := Sent;
      case Refused(m) => reply := ServerError(OrElse(m, "Failed to send email"));
      case Threw(m) => reply := ServerError(Caught(m));
    }
  }

  // ---------------------------------------------------------------- properties

  lemma AppendKeepsOneRow(rows: seq<CodeRow>, r: CodeRow)
    requires OneRowPerEmail(rows)
    requires forall i :: 0 <= i < |rows| ==> rows[i].email != r.email
    ensures OneRowPerEmail(rows + [r])
  {
  }

  /** A missing or empty e-mail is an error before any change to the table. */
  lemma MissingEmailChangesNothing(rows: seq<CodeRow>, nextId: int, name: Option<string>, now: int, random: real,
                                   deleteFails: bool, insertFails: bool, result: MailResult)
    requires 0.0 <= random < 1.0
    ensures Issue(rows, nextId, false, Parsed(None, name), now, random, deleteFails, insertFails, result)
            == Outcome(rows, ServerError("Email is required"), None)
    ensures Issue(rows, nextId, false, Parsed(Some(""), name), now, random, deleteFails, insertFails, result)
            == Outcome(rows, ServerError("Email is required"), None)
  {
  }

  /**
   * After a stored code, other e-mails' rows are exactly as before. When the delete goes
   * through, the only row for the lower-cased e-mail is the new one, unverified, expiring an
   * hour from now; when it fails, the new row follows the e-mail's old ones. This holds whether
   * or not the mail goes out, and the mail is addressed to the e-mail as given.
   */
  lemma IssueReplacesTheEmailsCodes(rows: seq<CodeRow>, nextId: int, email: string, name: Option<string>, now: int,
                                    random: real, deleteFails: bool, result: MailResult)
    requires 0.0 <= random < 1.0 && email != ""
    ensures var o := Issue(rows, nextId, false, Parsed(Some(email), name), now, random, deleteFails, false, result);
            var e := ToLower(email);
            var r := CodeRow(nextId, e, GenerateCode(random), now + CODE_LIFETIME_MS, false);
            (!deleteFails ==> Filter(o.rows, (x: CodeRow) => x.email == e) == [r])
            && (deleteFails ==> Filter(o.rows, (x: CodeRow) => x.email == e) == Filter(rows, (x: CodeRow) => x.email == e) + [r])
            && Filter(o.rows, NotForEmail(e)) == Filter(rows, NotForEmail(e))
            && o.mail.Some? && o.mail.value.to == email && o.mail.value.code == GenerateCode(random)
            && (o.reply == Sent <==> result == Delivered)
  {
    var e := ToLower(email);
    var r := CodeRow(nextId, e, GenerateCode(random), now + CODE_LIFETIME_MS, false);
    if deleteFails {
      AppendedRows(rows, e, r);
    } else {
      ReplacedRows(rows, e, r);
    }
  }

  /** Dropping an e-mail's rows and appending one row for it leaves that row as its only one. */
  lemma ReplacedRows(rows: seq<CodeRow>, e: string, r: CodeRow)
    requires r.email == e
    ensures var rows' := Filter(rows, NotForEmail(e)) + [r];
            Filter(rows', (x: CodeRow) => x.email == e) == [r]
            && Filter(rows', NotForEmail(e)) == Filter(rows, NotForEmail(e))
  {
    var kept := Filter(rows, NotForEmail(e));
    FilterAppend(kept, [r], (x: CodeRow) => x.email == e);
    FilterNone(kept, (x: CodeRow) => x.email == e);
    FilterAppend(kept, [r], NotForEmail(e));
    FilterIdempotent(rows, NotForEmail(e));
    assert Filter([r], NotForEmail(e)) == [] by {
      assert [r][1..] == [];
    }
    assert Filter([r], (x: CodeRow) => x.email == e) == [r] by {
      assert [r][1..] == [];
    }
  }

  /** Appending a row for an e-mail adds it after that e-mail's rows and leaves the others alone. */
  lemma AppendedRows(rows: seq<CodeRow>, e: string, r: CodeRow)
    requires r.email == e
    ensures Filter(rows + [r], (x: CodeRow) => x.email == e) == Filter(rows, (x: CodeRow) => x.email == e) + [r]
    ensures Filter(rows + [r], NotForEmail(e)) == Filter(rows, NotForEmail(e))
  {
    FilterAppend(rows, [r], (x: CodeRow) => x.email == e);
    FilterAppend(rows, [r], NotForEmail(e));
    assert Filter([r], NotForEmail(e)) == [] by {
      assert [r][1..] == [];
    }
    assert Filter([r], (x: CodeRow) => x.email == e) == [r] by {
      assert [r][1..] == [];
    }
  }

  /**
   * The old codes go before the insert, so a failed insert leaves the e-mail with no code at
   * all; when the unread delete fails as well, the table is as before.
   */
  lemma FailedInsertLeavesNoCode(rows: seq<CodeRow>, nextId: int, email: string, name: Option<string>, now: int,
                                 random: real, deleteFails: bool, result: MailResult)
    requires 0.0 <= random < 1.0 && email != ""
    ensures var o := Issue(rows, nextId, false, Parsed(Some(email), name), now, random, deleteFails, true, result);
            (!deleteFails ==> Count(o.rows, (r: CodeRow) => r.email == ToLower(email)) == 0)
            && (deleteFails ==> o.rows == rows)
            && o.reply == ServerError("Failed to generate verification code") && o.mail == None
  {
    var e := ToLower(email);
    FilterNone(Filter(rows, NotForEmail(e)), (x: CodeRow) => x.email == e);
  }

  /**
   * A failed delete breaks one row per e-mail: an e-mail that already has a code gets a second
   * one, and the lookup when verifying then sees two rows.
   */
  lemma FailedDeleteLeavesTwoRows(random: real, result: MailResult)
    requires 0.0 <= random < 1.0
    ensures var rows := [CodeRow(1, "a", "123456", 0, false)];
            OneRowPerEmail(rows)
            && !OneRowPerEmail(Issue(rows, 2, false, Parsed(Some("a"), None), 0, random, true, false, result).rows)
  {
    var rows := [CodeRow(1, "a", "123456", 0, false)];
    assert ToLower("a") == "a" by {
      assert LowerChar('a') == 'a';
    }
    var o := Issue(rows, 2, false, Parsed(Some("a"), None), 0, random, true, false, result);
    assert o.rows[0].email == o.rows[1].email;
  }
}
