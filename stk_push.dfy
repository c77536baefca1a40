/**
 * The payment-initiation handler (supabase/functions/mpesa-stk-push/index.ts): a chain of
 * checks, then one `pending` row, then one charge request to the gateway, whose answer moves
 * the row to `processing` or `failed`.
 */
module StkPush {
  import opened Common
  import opened Seqs
  import opened JsString
  import opened KenyanPhone
  import opened Store
  import opened Jwt

  const MIN_AMOUNT: int := 1
  const MAX_AMOUNT: int := 50000
  /** This handler's per-member target; the web app uses 700. The handler takes the target as an argument. */
  const TARGET_AMOUNT: int := 1400
  const MAX_RECENT_ATTEMPTS: int := 3
  const RATE_LIMIT_WINDOW_MS: int := 5 * 60 * 1000

  // ---------------------------------------------------------------- string helpers

  /** `s.slice(0, n)`. */
  function Prefix(s: string, n: nat): (r: string)
    ensures |r| == if |s| < n then |s| else n
    ensures r == s[..|r|]
  {
    if |s| < n then s else s[..n]
  }

  /** `maskPhone`: short or empty numbers are hidden entirely, others keep 3 leading and 2 trailing characters. */
  function MaskPhone(phone: string): (r: string)
    ensures |phone| < 4 ==> r == "***"
    ensures |phone| >= 4 ==> |r| == 8 && r[..3] == phone[..3] && r[3..6] == "***" && r[6..] == phone[|phone| - 2..]
  {
    if |phone| < 4 then "***" else phone[..3] + "***" + phone[|phone| - 2..]
  }

  /** `maskUserId`: at most the first 8 characters, then `...`. */
  function MaskUserId(userId: string): (r: string)
    ensures 3 <= |r| <= 11 && r[|r| - 3..] == "..."
    ensures r[..|r| - 3] == Prefix(userId, 8)
  {
    Prefix(userId, 8) + "..."
  }

  /** However long the number, its mask shows at most five of its characters. */
  lemma MaskPhoneShowsAtMostFive(phone: string)
    ensures |MaskPhone(phone)| <= 8
    ensures |phone| >= 4 ==> MaskPhone(phone)[3..6] == "***"
  {
  }

  // ---------------------------------------------------------------- phone formatting

  /** `s.replace(/^from/, to)`. */
  function ReplaceLeading(s: string, from: string, to: string): (r: string)
    ensures StartsWith(s, from) ==> r == to + s[|from|..]
    ensures !StartsWith(s, from) ==> r == s
  {
    if StartsWith(s, from) then to + s[|from|..] else s
  }

  /** Lines 175-178 as written: strip white space, `^0` and `^254` become `+254`, then force a leading `+`. */
  function FormatPhoneAsWritten(phone: string): (r: string)
    ensures |r| >= 1 && r[0] == '+'
  {
    var a := ReplaceLeading(ReplaceLeading(StripSpaces(phone), "0", "+254"), "254", "+254");
    if StartsWith(a, "+") then a else "+" + a
  }

  /** The three prefixed forms all become `+254` and the nine subscriber digits. */
  lemma FormatAsWrittenOfPrefixed(phone: string)
    requires var c := StripSpaces(phone); IsKenyanNumber(c) && !IsSubscriber(c)
    ensures var c := StripSpaces(phone); FormatPhoneAsWritten(phone) == "+254" + c[|c| - 9..]
  {
    var c := StripSpaces(phone);
    if IsLocalNumber(c) {
      assert StartsWith(c, "0");
      var a := "+254" + c[1..];
      assert !StartsWith(a, "254") by { assert a[0] == '+'; }
      assert StartsWith(a, "+");
    } else if |c| == 12 {
      assert !StartsWith(c, "0") by { assert c[..3] == "254"; assert c[0] == '2'; }
      assert StartsWith(c, "254");
      var a := "+254" + c[3..];
      assert StartsWith(a, "+");
    } else {
      assert |c| == 13;
      assert c[0] == '+' by { assert c[..4] == "+254"; }
      assert !StartsWith(c, "0") && !StartsWith(c, "254");
      assert StartsWith(c, "+");
    }
  }

  /** A bare subscriber number only gets a `+` in front, with no country code. */
  lemma FormatAsWrittenOfSubscriber(c: string)
    requires IsSubscriber(c)
    ensures IsKenyanNumber(StripSpaces(c))
    ensures FormatPhoneAsWritten(c) == "+" + c
  {
    StripSpacesOfDigits(c);
    assert !StartsWith(c, "0") by { assert c[..1][0] == c[0]; }
    assert !StartsWith(c, "254") by { assert c[..3][0] == c[0]; }
    assert !StartsWith(c, "+") by { assert c[..1][0] == c[0]; }
  }

  /** The pattern accepts a bare subscriber number, but the formatter gives it no country code. */
  lemma FormatAsWrittenDropsCountryCode(c: string)
    requires c == "712345678"
    ensures IsSubscriber(c) && IsKenyanNumber(StripSpaces(c))
    ensures FormatPhoneAsWritten(c) == "+" + c
  {
    assert c[0] == '7';
    FormatAsWrittenOfSubscriber(c);
  }

  lemma StripSpacesOfDigits(s: string)
    requires AllDigits(s)
    ensures StripSpaces(s) == s
  {
    FilterAll(s, NotSpace);
  }

  /** The formatter corrected: a bare subscriber number gets `+254` in front too. */
  function FormatPhone(phone: string): (r: string)
    ensures |r| >= 1 && r[0] == '+'
  {
    var c := StripSpaces(phone);
    if IsSubscriber(c) then "+254" + c else FormatPhoneAsWritten(phone)
  }

  /** Every number the pattern accepts becomes `+254` and its nine subscriber digits. */
  lemma FormatPhoneOfAccepted(phone: string)
    requires IsKenyanNumber(StripSpaces(phone))
    ensures var c := StripSpaces(phone); var r := FormatPhone(phone);
            r == "+254" + c[|c| - 9..] && |r| == 13 && IsSubscriber(r[4..]) && IsKenyanNumber(r)
  {
    var c := StripSpaces(phone);
    if !IsSubscriber(c) {
      FormatAsWrittenOfPrefixed(phone);
    }
    var r := FormatPhone(phone);
    assert r[4..] == c[|c| - 9..];
    assert r[..4] == "+254";
  }

  /** The corrected formatter differs from the one as written exactly on the bare subscriber numbers. */
  lemma CorrectionChangesOnlyBareNumbers(phone: string)
    requires IsKenyanNumber(StripSpaces(phone))
    ensures FormatPhone(phone) == FormatPhoneAsWritten(phone) <==> !IsSubscriber(StripSpaces(phone))
  {
    var c := StripSpaces(phone);
    if IsSubscriber(c) {
      var a := ReplaceLeading(ReplaceLeading(c, "0", "+254"), "254", "+254");
      assert !StartsWith(c, "0") && !StartsWith(c, "254") && !StartsWith(c, "+") by {
        assert c[..1][0] == c[0] && c[..3][0] == c[0];
      }
      assert a == c;
      assert |FormatPhoneAsWritten(phone)| == 10;
    }
  }

  // ---------------------------------------------------------------- the request

  /** The `amount` JSON field: absent or `null`, not a number, or a number. */
  datatype AmountField = AmountMissing | AmountNotNumber | AmountNumber(value: real)

  /** The JSON body; `phone` is `None` when absent or not a string. */
  datatype PaymentRequest = PaymentRequest(amount: AmountField, phone: Option<string>, email: Option<string>)

  /** `req.json()` either fails, with the parser's message, or yields a body. */
  datatype Body = Malformed(parserMessage: string) | Parsed(request: PaymentRequest)

  /**
   * What the handler receives. `claims` is `None` when `getClaims` fails; `keyConfigured`
   * says whether `PAYSTACK_SECRET_KEY` is set.
   */
  datatype Request = Request(
    preflight: bool, authorization: Option<string>, claims: Option<Claims>, keyConfigured: bool, body: Body)

  /** The outcomes of the database calls, which the handler cannot see in advance. */
  datatype Database = Database(balanceQueryFails: bool, rateQueryFails: bool, insertFails: bool)

  /** The gateway call throws (network or JSON error, with its message), or answers. */
  datatype Gateway =
    | Unreachable(errorMessage: string)
    | Answered(status: bool, message: Option<string>, displayText: Option<string>, reference: Option<string>)

  /** The charge request sent to the gateway. Amounts are in cents. */
  datatype ChargeRequest = ChargeRequest(
    amountInCents: int, email: string, phone: string, reference: string, userId: string, contributionId: int)

  /** Every error the handler throws; each is answered with 400 and its message. */
  datatype Error =
    | NotConfigured
    | BadBody(parserMessage: string)
    | AmountRequired
    | AmountNotANumber
    | AmountNotPositiveInteger
    | AmountOutOfBounds
    | PhoneRequired
    | PhoneInvalid
    | BalanceUnavailable
    | TargetReached
    | ExceedsRemaining(remaining: int)
    | TooManyAttempts
    | InsertFailed
    | GatewayThrew(errorMessage: string)
    | GatewayDeclined(message: Option<string>)

  function ErrorMessage(e: Error): string {
    match e
    case NotConfigured => "Payment service not configured"
    case BadBody(m) => m
    case AmountRequired => "Amount is required"
    case AmountNotANumber => "Amount must be a valid number"
    case AmountNotPositiveInteger => "Amount must be a positive integer"
    case AmountOutOfBounds => "Amount must be between 1 and 50000 KES"
    case PhoneRequired => "Phone number is required"
    case PhoneInvalid => "Invalid phone number format. Use Kenyan format (e.g., 0712345678 or +254712345678)"
    case BalanceUnavailable => "Failed to validate contribution status"
    case TargetReached => "You have already completed your contribution target"
    case ExceedsRemaining(r) => "Amount exceeds remaining balance of " + IntToString(r) + " KES"
    case TooManyAttempts => "Too many payment attempts. Please wait a few minutes before trying again."
    case InsertFailed => "Failed to initiate payment"
    case GatewayThrew(m) => m
    case GatewayDeclined(m) => OrElse(m, "Payment initiation failed")
  }

  datatype Reply =
    | Preflight
    | Unauthorized
    | Failure(error: Error)
    | Success(message: string, contributionId: int, reference: Option<string>)

  function StatusCode(r: Reply): int {
    match r
    case Preflight => 200
    case Unauthorized => 401
    case Failure(_) => 400
    case Success(_, _, _) => 200
  }

  /** What the checks hand on when they all pass. */
  datatype Accepted = Accepted(userId: string, amount: int, phone: string, email: string)

  datatype Check = Reject(reply: Reply) | Proceed(accepted: Accepted)

  datatype AmountCheck = AmountOk(n: int) | AmountError(error: Error)

  predicate IsWhole(v: real) {
    v.Floor as real == v
  }

  /** Lines 105-121. */
  function CheckAmount(a: AmountField): (r: AmountCheck)
    ensures r.AmountOk? <==> a.AmountNumber? && IsWhole(a.value) && MIN_AMOUNT as real <= a.value <= MAX_AMOUNT as real
    ensures r.AmountOk? ==> a.value == r.n as real && MIN_AMOUNT <= r.n <= MAX_AMOUNT
  {
    match a
    case AmountMissing => AmountError(AmountRequired)
    case AmountNotNumber => AmountError(AmountNotANumber)
    case AmountNumber(v) =>
      if !IsWhole(v) || v <= 0.0 then AmountError(AmountNotPositiveInteger)
      else if v.Floor < MIN_AMOUNT || v.Floor > MAX_AMOUNT then AmountError(AmountOutOfBounds)
      else AmountOk(v.Floor)
  }

  /** The sum of the user's completed amounts. */
  function TotalPaid(rows: seq<Contribution>, userId: string): int {
    SumOf(Filter(Filter(rows, OfUser(userId)), IsCompleted), AmountOf)
  }

  /** The user's rows created within the rate-limit window ending at `now`. */
  function RecentAttempts(rows: seq<Contribution>, userId: string, now: int): nat {
    Count(rows, (c: Contribution) => c.userId == userId && c.createdAt >= now - RATE_LIMIT_WINDOW_MS)
  }

  /** `email || userEmail || <first 8 of user id>@finalcommit.fund`. */
  function ChargeEmail(bodyEmail: Option<string>, claimsEmail: Option<string>, userId: string): string {
    OrElse(bodyEmail, OrElse(claimsEmail, Prefix(userId, 8) + "@finalcommit.fund"))
  }

  /**
   * Lines 33-178: every check before the insert, each with its own reply, in source order. The
   * accepted phone is formatted by the corrected `FormatPhone`; the code as written sends a bare
   * nine-digit number without its country code (`FormatAsWrittenDropsCountryCode`).
   */
  function Precheck(req: Request, rows: seq<Contribution>, target: int, now: int, db: Database): Check {
    if req.preflight then Reject(Preflight)
    else if !BearerHeader(req.authorization) || req.claims.None? || !Truthy(req.claims.value.sub) then
      Reject(Unauthorized)
    else if !req.keyConfigured then Reject(Failure(NotConfigured))
    else if req.body.Malformed? then Reject(Failure(BadBody(req.body.parserMessage)))
    else
      var userId := req.claims.value.sub.value;
      var body := req.body.request;
      match CheckAmount(body.amount)
      case AmountError(e) => Reject(Failure(e))
      case AmountOk(n) =>
        if !Truthy(body.phone) then Reject(Failure(PhoneRequired))
        else if !IsKenyanNumber(StripSpaces(body.phone.value)) then
          Reject(Failure(PhoneInvalid))
        else if db.balanceQueryFails then Reject(Failure(BalanceUnavailable))
        else
          var remaining := target - TotalPaid(rows, userId);
          if remaining <= 0 then Reject(Failure(TargetReached))
          else if n > remaining then
            Reject(Failure(ExceedsRemaining(remaining)))
          else if !db.rateQueryFails && RecentAttempts(rows, userId, now) >= MAX_RECENT_ATTEMPTS then
            Reject(Failure(TooManyAttempts))
          else
            Proceed(Accepted(userId, n, FormatPhone(body.phone.value),
                             ChargeEmail(body.email, req.claims.value.email, userId)))
  }

  /** The conditions for going ahead, stated all at once. */
  predicate AllChecksPass(req: Request, rows: seq<Contribution>, target: int, now: int, db: Database) {
    !req.preflight && BearerHeader(req.authorization) && req.claims.Some? && Truthy(req.claims.value.sub)
    && req.keyConfigured && req.body.Parsed?
    && var userId := req.claims.value.sub.value;
       var body := req.body.request;
       body.amount.AmountNumber? && IsWhole(body.amount.value)
       && 1.0 <= body.amount.value <= 50000.0
       && Truthy(body.phone) && IsKenyanNumber(StripSpaces(body.phone.value))
       && !db.balanceQueryFails
       && TotalPaid(rows, userId) + body.amount.value.Floor <= target
       && (db.rateQueryFails || RecentAttempts(rows, userId, now) < MAX_RECENT_ATTEMPTS)
  }

  /** The handler goes ahead exactly when every check passes. */
  lemma PrecheckProceedsExactly(req: Request, rows: seq<Contribution>, target: int, now: int, db: Database)
    ensures Precheck(req, rows, target, now, db).Proceed? <==> AllChecksPass(req, rows, target, now, db)
  {
    if AllChecksPass(req, rows, target, now, db) {
      var body := req.body.request;
      assert CheckAmount(body.amount).AmountOk?;
    }
  }

  /** A missing or non-`Bearer ` header, failed claims or an empty `sub` give 401, and only they do. */
  lemma UnauthorizedExactly(req: Request, rows: seq<Contribution>, target: int, now: int, db: Database)
    requires !req.preflight
    ensures Precheck(req, rows, target, now, db) == Reject(Unauthorized) <==>
              !BearerHeader(req.authorization) || req.claims.None? || !Truthy(req.claims.value.sub)
  {
  }

  /**
   * What an accepted request satisfies: a whole amount in bounds, a valid phone, room under the
   * target, and a phone charged as `+254` and nine digits. That phone is the one the formatter as
   * written gives exactly when the caller did not type the bare nine subscriber digits.
   */
  lemma AcceptedRequest(req: Request, rows: seq<Contribution>, target: int, now: int, db: Database)
    requires Precheck(req, rows, target, now, db).Proceed?
    ensures var a := Precheck(req, rows, target, now, db).accepted;
            var body := req.body.request;
            a.userId == req.claims.value.sub.value
            && body.amount == AmountNumber(a.amount as real) && MIN_AMOUNT <= a.amount <= MAX_AMOUNT
            && IsKenyanNumber(StripSpaces(body.phone.value))
            && TotalPaid(rows, a.userId) < target
            && TotalPaid(rows, a.userId) + a.amount <= target
            && (db.rateQueryFails || RecentAttempts(rows, a.userId, now) < MAX_RECENT_ATTEMPTS)
            && |a.phone| == 13 && a.phone[..4] == "+254" && IsSubscriber(a.phone[4..])
            && (a.phone == FormatPhoneAsWritten(body.phone.value) <==> !IsSubscriber(StripSpaces(body.phone.value)))
  {
    var a := Precheck(req, rows, target, now, db).accepted;
    var body := req.body.request;
    AcceptedIs(req, rows, target, now, db);
    assert body.amount == AmountNumber(a.amount as real) && MIN_AMOUNT <= a.amount <= MAX_AMOUNT;
    assert |a.phone| == 13 && a.phone[..4] == "+254" && IsSubscriber(a.phone[4..]) by {
      FormatPhoneOfAccepted(body.phone.value);
    }
    CorrectionChangesOnlyBareNumbers(body.phone.value);
  }

  /** An accepted request carries the caller, the checked amount, the formatted phone and the e-mail. */
  lemma AcceptedIs(req: Request, rows: seq<Contribution>, target: int, now: int, db: Database)
    requires Precheck(req, rows, target, now, db).Proceed?
    ensures AllChecksPass(req, rows, target, now, db)
    ensures var body := req.body.request;
            CheckAmount(body.amount).AmountOk?
            && Precheck(req, rows, target, now, db).accepted
               == Accepted(req.claims.value.sub.value, CheckAmount(body.amount).n, FormatPhone(body.phone.value),
                           ChargeEmail(body.email, req.claims.value.email, req.claims.value.sub.value))
  {
    PrecheckProceedsExactly(req, rows, target, now, db);
  }

  /** A failed rate-limit query does not block: with every other check passing, the request goes ahead. */
  lemma RateLimitFailsOpen(req: Request, rows: seq<Contribution>, target: int, now: int, db: Database)
    requires AllChecksPass(req, rows, target, now, db.(rateQueryFails := false)) || (db.rateQueryFails && AllChecksPass(req, rows, target, now, db))
    ensures Precheck(req, rows, target, now, db.(rateQueryFails := true)).Proceed?
  {
    PrecheckProceedsExactly(req, rows, target, now, db.(rateQueryFails := true));
  }

  /** Lines 181: `fcf_<first 8 of user id>_<now>`. */
  function Reference(userId: string, now: int): (r: string)
    ensures |r| >= 4 && r[..4] == "fcf_"
  {
    "fcf_" + Prefix(userId, 8) + "_" + IntToString(now)
  }

  /** Two attempts by the same user at different instants carry different references. */
  lemma ReferencesDiffer(userId: string, now1: nat, now2: nat)
    requires now1 != now2
    ensures Reference(userId, now1) != Reference(userId, now2)
  {
    var head := "fcf_" + Prefix(userId, 8) + "_";
    var s1, s2 := NatToString(now1), NatToString(now2);
    assert Reference(userId, now1) == head + s1;
    assert Reference(userId, now2) == head + s2;
    if head + s1 == head + s2 {
      assert s1 == (head + s1)[|head|..];
      assert s2 == (head + s2)[|head|..];
      NatToStringRoundTrip(now1);
      NatToStringRoundTrip(now2);
      assert false;
    }
  }

  /** The status the new row ends in: the gateway's answer, or still `pending` when the call threw. */
  function FinalStatus(g: Gateway): Status {
    match g
    case Unreachable(_) => Pending
    case Answered(status, _, _, _) => if status then Processing else Failed
  }

  const DEFAULT_PROMPT: string := "Payment prompt sent. Check your phone to complete payment."

  function GatewayReply(g: Gateway, id: int): Reply {
    match g
    case Unreachable(m) => Failure(GatewayThrew(m))
    case Answered(status, message, displayText, reference) =>
      if status then Success(OrElse(displayText, DEFAULT_PROMPT), id, reference)
      else Failure(GatewayDeclined(message))
  }

  /** The table after the request, the reply, and the charge request sent, if any. */
  datatype Outcome = Outcome(rows: seq<Contribution>, reply: Reply, charge: Option<ChargeRequest>)

  /** The handler's effect: nothing before the insert, then one row whose final status the gateway decides. */
  function Initiate(req: Request, rows: seq<Contribution>, nextId: int, target: int, now: int, db: Database,
                    gateway: Gateway): Outcome
  {
    match Precheck(req, rows, target, now, db)
    case Reject(reply) => Outcome(rows, reply, None)
    case Proceed(a) =>
      if db.insertFails then Outcome(rows, Failure(InsertFailed), None)
      else
        var reference := Reference(a.userId, now);
        Outcome(rows + [Contribution(nextId, a.userId, a.amount, FinalStatus(gateway), Some(reference), now)],
                GatewayReply(gateway, nextId),
                Some(ChargeRequest(a.amount * 100, a.email, a.phone, reference, a.userId, nextId)))
  }

  /** Every rejection, and a failed insert, leaves the table as it was and sends nothing. */
  lemma RejectionChangesNothing(req: Request, rows: seq<Contribution>, nextId: int, target: int, now: int,
                                db: Database, gateway: Gateway)
    requires !AllChecksPass(req, rows, target, now, db) || db.insertFails
    ensures var o := Initiate(req, rows, nextId, target, now, db, gateway);
            o.rows == rows && o.charge == None && !o.reply.Success?
  {
    PrecheckProceedsExactly(req, rows, target, now, db);
  }

  /**
   * An accepted request adds exactly one row, for the caller, with the reference the
   * gateway is sent; the gateway is charged `amount * 100` and the caller stays within the target.
   */
  lemma AcceptedAddsOneRow(req: Request, rows: seq<Contribution>, nextId: int, target: int, now: int,
                           db: Database, gateway: Gateway)
    requires AllChecksPass(req, rows, target, now, db) && !db.insertFails
    ensures var o := Initiate(req, rows, nextId, target, now, db, gateway);
            var userId := req.claims.value.sub.value;
            var amount := req.body.request.amount.value.Floor;
            |o.rows| == |rows| + 1 && o.rows[..|rows|] == rows
            && var row := o.rows[|rows|];
            row.id == nextId && row.userId == userId && row.amount == amount
            && row.apiRef == Some(Reference(userId, now)) && row.createdAt == now
            && (row.status == Processing <==> gateway.Answered? && gateway.status)
            && (row.status == Failed <==> gateway.Answered? && !gateway.status)
            && (row.status == Pending <==> gateway.Unreachable?)
            && o.charge.Some? && o.charge.value.amountInCents == amount * 100
            && o.charge.value.reference == Reference(userId, now)
            && (o.reply.Success? ==> row.status == Processing)
            && TotalPaid(rows, userId) + amount <= target
  {
    PrecheckProceedsExactly(req, rows, target, now, db);
    AcceptedRequest(req, rows, target, now, db);
    var o := Initiate(req, rows, nextId, target, now, db, gateway);
    assert o.rows[..|rows|] == rows;
  }

  /**
   * Records the gateway's answer on the freshly inserted pending row: `failed` on a refusal,
   * `processing` on acceptance, and no update when the call itself throws.
   */
  method RecordAnswer(table: ContributionsTable, gateway: Gateway, row: Contribution, ghost rows0: seq<Contribution>)
    returns (reply: Reply)
    requires table.Valid() && table.rows == rows0 + [row] && row.status == Pending
    requires forall i :: 0 <= i < |rows0| ==> rows0[i].id != row.id
    modifies table
    ensures table.Valid()
    ensures table.rows == rows0 + [row.(status := FinalStatus(gateway))]
    ensures reply == GatewayReply(gateway, row.id)
  {
    match gateway {
      case Unreachable(m) =>
        reply := Failure(GatewayThrew(m));
      case Answered(status, message, displayText, ref) =>
        if !status {
          table.SetStatus(row.id, Failed);
          WithStatusOfFresh(rows0, row, Failed);
          reply := Failure(GatewayDeclined(message));
        } else {
          table.SetStatus(row.id, Processing);
          WithStatusOfFresh(rows0, row, Processing);
          reply := Success(OrElse(displayText, DEFAULT_PROMPT), row.id, ref);
        }
    }
  }

  /** The whole handler. The new row is inserted `pending`, then moved to its final status in place. */
  method InitiatePayment(table: ContributionsTable, req: Request, target: int, now: int, db: Database, gateway: Gateway)
    returns (reply: Reply, charge: Option<ChargeRequest>)
    requires table.Valid()
    modifies table
    ensures table.Valid()
    ensures Outcome(table.rows, reply, charge)
            == Initiate(req, old(table.rows), old(table.nextId), target, now, db, gateway)
  {
    ghost var rows0, next0 := table.rows, table.nextId;
    var check := Precheck(req, table.rows, target, now, db);
    if check.Reject? {
      assert Initiate(req, rows0, next0, target, now, db, gateway) == Outcome(rows0, check.reply, None);
      return check.reply, None;
    }
    var a := check.accepted;
    assert Precheck(req, rows0, target, now, db) == Proceed(a);
    if db.insertFails {
      return Failure(InsertFailed), None;
    }
    var reference := Reference(a.userId, now);
    var id := table.Insert(a.userId, a.amount, Pending, Some(reference), now);
    charge := Some(ChargeRequest(a.amount * 100, a.email, a.phone, reference, a.userId, id));
    reply := RecordAnswer(table, gateway, Contribution(id, a.userId, a.amount, Pending, Some(reference), now), rows0);
  }
}
