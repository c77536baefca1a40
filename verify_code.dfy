/**
 * Checking an e-mail verification code (supabase/functions/verify-code/index.ts): the matching
 * row is marked verified, the account with that e-mail is confirmed, and the e-mail's codes are
 * deleted.
 */
module VerifyCode {
  import opened Common
  import opened Seqs
  import opened JsString
  import opened Store

  /** The JSON body: unparseable, or its `email` and `code` fields. */
  datatype Body = Malformed(parserMessage: string) | Parsed(email: Option<string>, code: Option<string>)

  /** An account as `listUsers` returns it. */
  datatype AuthUser = AuthUser(id: string, email: Option<string>)

  /** The auth service: its accounts and whether listing or confirming fails. */
  datatype Auth = Auth(users: seq<AuthUser>, listFails: bool, confirmFails: bool)

  /**
   * Whether the two writes whose results the handler never reads fail: marking the row
   * verified (lines 57-60) and deleting the e-mail's codes (lines 97-100). A failed write
   * changes nothing and the handler carries on.
   */
  datatype Writes = Writes(markFails: bool, cleanupFails: bool)

  datatype Reply = Preflight | Confirmed | InvalidCode | UserNotFound | ServerError(error: string)

  function StatusCode(r: Reply): int {
    match r
    case InvalidCode => 400
    case UserNotFound => 400
    case ServerError(_) => 500
    case _ => 200
  }

  /** `error.message || "Failed to verify code"`. */
  function Caught(message: string): string {
    if message == "" then "Failed to verify code" else message
  }

  /** The lookup's filters: lower-cased e-mail, the exact code, not yet used, expiring strictly after now. */
  predicate IsMatch(r: CodeRow, email: string, code: string, now: int) {
    r.email == ToLower(email) && r.code == code && !r.verified && r.expiresAt > now
  }

  function Candidates(rows: seq<CodeRow>, email: string, code: string, now: int): seq<CodeRow> {
    Filter(rows, (r: CodeRow) => IsMatch(r, email, code, now))
  }

  /** `users.find(u => u.email?.toLowerCase() === email.toLowerCase())`. */
  function FindUser(users: seq<AuthUser>, email: string): (r: Option<AuthUser>)
    ensures r.Some? ==> r.value in users && r.value.email.Some? && ToLower(r.value.email.value) == ToLower(email)
    ensures r.None? ==> forall u :: u in users && u.email.Some? ==> ToLower(u.email.value) != ToLower(email)
  {
    if users == [] then None
    else if users[0].email.Some? && ToLower(users[0].email.value) == ToLower(email) then Some(users[0])
    else FindUser(users[1..], email)
  }

  /** `find` returns the first account whose e-mail matches ignoring case. */
  lemma {:induction false} FindUserIsFirst(users: seq<AuthUser>, email: string, k: int)
    requires 0 <= k < |users| && users[k].email.Some? && ToLower(users[k].email.value) == ToLower(email)
    requires forall j :: 0 <= j < k ==> users[j].email.None? || ToLower(users[j].email.value) != ToLower(email)
    ensures FindUser(users, email) == Some(users[k])
  {
    if k > 0 {
      FindUserIsFirst(users[1..], email, k - 1);
    }
  }

  /** The table afterwards, the reply, and the account confirmed, if any. */
  datatype Outcome = Outcome(rows: seq<CodeRow>, reply: Reply, confirmed: Option<string>)

  function Verify(rows: seq<CodeRow>, preflight: bool, body: Body, now: int, lookupFails: bool, auth: Auth,
                  writes: Writes): Outcome {
    if preflight then Outcome(rows, Preflight, None)
    else if body.Malformed? then Outcome(rows, ServerError(Caught(body.parserMessage)), None)
    else if !Truthy(body.email) || !Truthy(body.code) then Outcome(rows, ServerError("Email and code are required"), None)
    else
      var email, code := body.email.value, body.code.value;
      var found := Candidates(rows, email, code, now);
      if lookupFails || |found| > 1 then Outcome(rows, ServerError("Failed to verify code"), None)
      else if found == [] then Outcome(rows, InvalidCode, None)
      else
        var marked := if writes.markFails then rows else WithVerified(rows, found[0].id);
        if auth.listFails then Outcome(marked, ServerError("Failed to find user"), None)
        else
          match FindUser(auth.users, email)
          case None => Outcome(marked, UserNotFound, None)
          case Some(user) =>
            if auth.confirmFails then Outcome(marked, ServerError("Failed to confirm email"), None)
            else
              var cleaned := if writes.cleanupFails then marked else Filter(marked, NotForEmail(ToLower(email)));
              Outcome(cleaned, Confirmed, Some(user.id))
  }

  method VerifyEmailCode(table: CodesTable, preflight: bool, body: Body, now: int, lookupFails: bool, auth: Auth,
                         writes: Writes)
    returns (reply: Reply, confirmed: Option<string>)
    modifies table
    ensures Outcome(table.rows, reply, confirmed)
            == Verify(old(table.rows), preflight, body, now, lookupFails, auth, writes)
    ensures OneRowPerEmail(old(table.rows)) ==> OneRowPerEmail(table.rows)
  {
    if preflight {
      return Preflight, None;
    }
    if body.Malformed? {
      return ServerError(Caught(body.parserMessage)), None;
    }
    if !Truthy(body.email) || !Truthy(body.code) {
      return ServerError("Email and code are required"), None;
    }
    var email, code := body.email.value, body.code.value;
    var found := Candidates(table.rows, email, code, now);
    if lookupFails || |found| > 1 {
      return ServerError("Failed to verify code"), None;
    }
    if found == [] {
      return InvalidCode, None;
    }
    if !writes.markFails {
      table.MarkVerified(found[0].id);
    }
    if auth.listFails {
      return ServerError("Failed to find user"), None;
    }
    var user := FindUser(auth.users, email);
    if user.None? {
      return UserNotFound, None;
    }
    if auth.confirmFails {
      return ServerError("Failed to confirm email"), None;
    }
    if !writes.cleanupFails {
      table.DeleteForEmail(ToLower(email));
    }
    reply, confirmed := Confirmed, Some(user.value.id);
  }

  // ---------------------------------------------------------------- properties

  /** A missing or empty e-mail or code is an error, answered 500, with no change. */
  lemma MissingFieldsChangeNothing(rows: seq<CodeRow>, email: Option<string>, code: Option<string>, now: int,
                                   lookupFails: bool, auth: Auth, writes: Writes)
    requires !Truthy(email) || !Truthy(code)
    ensures Verify(rows, false, Parsed(email, code), now, lookupFails, auth, writes)
            == Outcome(rows, ServerError("Email and code are required"), None)
  {
  }

  /** Without a matching row the reply is 400 and nothing changes. */
  lemma NoMatchChangesNothing(rows: seq<CodeRow>, email: string, code: string, now: int, auth: Auth, writes: Writes)
    requires email != "" && code != "" && Candidates(rows, email, code, now) == []
    ensures Verify(rows, false, Parsed(Some(email), Some(code)), now, false, auth, writes)
            == Outcome(rows, InvalidCode, None)
  {
  }

  /** One row per e-mail: a rows' e-mail, if it is `row`'s, belongs to `row` itself. */
  lemma {:induction false} AtMostOneRow(rows: seq<CodeRow>, email: string)
    requires OneRowPerEmail(rows)
    ensures Count(rows, (r: CodeRow) => r.email == email) <= 1
  {
    if rows != [] {
      assert OneRowPerEmail(rows[1..]) by {
        forall i, j | 0 <= i < j < |rows[1..]| ensures rows[1..][i].email != rows[1..][j].email {
          assert rows[1..][i] == rows[i + 1] && rows[1..][j] == rows[j + 1];
        }
      }
      AtMostOneRow(rows[1..], email);
      if rows[0].email == email {
        forall i | 0 <= i < |rows[1..]| ensures rows[1..][i].email != email {
          assert rows[1..][i] == rows[i + 1];
        }
        FilterNone(rows[1..], (r: CodeRow) => r.email == email);
      }
    }
  }

  /** With one row per e-mail, the lookup never finds two rows. */
  lemma AtMostOneCandidate(rows: seq<CodeRow>, email: string, code: string, now: int)
    requires OneRowPerEmail(rows)
    ensures |Candidates(rows, email, code, now)| <= 1
  {
    AtMostOneRow(rows, ToLower(email));
    CountImplies(rows, (r: CodeRow) => IsMatch(r, email, code, now), (r: CodeRow) => r.email == ToLower(email));
  }

  /**
   * The row is marked verified before the account lookup: once a code has matched, whether the
   * account is then missing, a later call fails or the confirmation goes through, that code can
   * never match again, unless the unread mark has failed. When the mark fails and nothing else
   * removes the row, the table is as before.
   */
  lemma CodeIsSpentBeforeTheUserLookup(rows: seq<CodeRow>, email: string, code: string, now: int, auth: Auth,
                                       writes: Writes, later: int)
    requires OneRowPerEmail(rows)
    requires Verify(rows, false, Parsed(Some(email), Some(code)), now, false, auth, writes).reply in
               {UserNotFound, ServerError("Failed to find user"), ServerError("Failed to confirm email"), Confirmed}
    ensures var o := Verify(rows, false, Parsed(Some(email), Some(code)), now, false, auth, writes);
            (!writes.markFails ==> Candidates(o.rows, email, code, later) == [])
            && (writes.markFails && (o.reply != Confirmed || writes.cleanupFails) ==> o.rows == rows)
  {
    var o := Verify(rows, false, Parsed(Some(email), Some(code)), now, false, auth, writes);
    if !writes.markFails {
      var rec := Candidates(rows, email, code, now)[0];
      assert rec in rows;
      MarkedTableHasNoMatch(rows, rec, email, code, later);
      if o.reply == Confirmed && !writes.cleanupFails {
        CleanedTableHasNoMatch(WithVerified(rows, rec.id), email, code, later);
      }
    }
  }

  /** With one row per e-mail, marking the e-mail's row verified leaves no row that can match it. */
  lemma MarkedTableHasNoMatch(rows: seq<CodeRow>, rec: CodeRow, email: string, code: string, later: int)
    requires OneRowPerEmail(rows) && rec in rows && rec.email == ToLower(email)
    ensures Candidates(WithVerified(rows, rec.id), email, code, later) == []
  {
    var marked := WithVerified(rows, rec.id);
    var k :| 0 <= k < |rows| && rows[k] == rec;
    forall i | 0 <= i < |marked|
      ensures !IsMatch(marked[i], email, code, later)
    {
      if i != k && rows[i].id != rec.id {
        assert rows[i].email != rows[k].email;
      }
    }
    FilterNone(marked, (r: CodeRow) => IsMatch(r, email, code, later));
  }

  /** Once the e-mail's rows are deleted, no row can match it. */
  lemma CleanedTableHasNoMatch(rows: seq<CodeRow>, email: string, code: string, later: int)
    ensures Candidates(Filter(rows, NotForEmail(ToLower(email))), email, code, later) == []
  {
    var cleaned := Filter(rows, NotForEmail(ToLower(email)));
    assert forall i :: 0 <= i < |cleaned| ==> cleaned[i].email != ToLower(email);
    FilterNone(cleaned, (r: CodeRow) => IsMatch(r, email, code, later));
  }

  /**
   * A confirmation needs a row with the lower-cased e-mail, the exact code, unused and unexpired;
   * it confirms an account whose e-mail matches ignoring case. When the unread clean-up goes
   * through, it deletes every row for the e-mail, so no code for it can succeed again; when both
   * unread writes fail, the table is unchanged and the same request confirms again.
   */
  lemma ConfirmationIsSingleUse(rows: seq<CodeRow>, email: string, code: string, now: int, auth: Auth,
                                writes: Writes, code': string, later: int)
    requires Verify(rows, false, Parsed(Some(email), Some(code)), now, false, auth, writes).reply == Confirmed
    ensures exists r :: r in rows && IsMatch(r, email, code, now)
    ensures var o := Verify(rows, false, Parsed(Some(email), Some(code)), now, false, auth, writes);
            o.confirmed.Some?
            && (exists u :: u in auth.users && u.id == o.confirmed.value && u.email.Some?
                            && ToLower(u.email.value) == ToLower(email))
            && (!writes.cleanupFails ==>
                  Count(o.rows, (r: CodeRow) => r.email == ToLower(email)) == 0
                  && Candidates(o.rows, email, code', later) == [])
            && (writes.markFails && writes.cleanupFails ==>
                  o.rows == rows && Verify(o.rows, false, Parsed(Some(email), Some(code)), now, false, auth, writes) == o)
  {
    var found := Candidates(rows, email, code, now);
    assert found[0] in rows;
    var o := Verify(rows, false, Parsed(Some(email), Some(code)), now, false, auth, writes);
    var user := FindUser(auth.users, email).value;
    assert user in auth.users;
    if !writes.cleanupFails {
      FilterNone(o.rows, (r: CodeRow) => r.email == ToLower(email));
      FilterNone(o.rows, (r: CodeRow) => IsMatch(r, email, code', later));
    }
  }
}
