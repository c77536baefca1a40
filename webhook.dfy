/**
 * The payment-status webhook (supabase/functions/mpesa-webhook/index.ts): maps the gateway's
 * state to a contribution status and writes it to the one row carrying the payload's `api_ref`.
 * The body is trusted as it comes: there is no signature check.
 */
module Webhook {
  import opened Common
  import opened Seqs
  import opened Store

  /** The JSON body: unparseable, or the three fields the handler reads. */
  datatype Payload =
    | Malformed(parserMessage: string)
    | Parsed(apiRef: Option<string>, state: Option<string>, invoiceId: Option<string>)

  /** The outcomes of the database calls. */
  datatype Database = Database(lookupFails: bool, updateFails: bool)

  datatype Reply =
    | Preflight
    | MissingApiRef
    | NotFound
    | AlreadyCompleted
    | Updated(status: Status, contributionId: int, invoiceId: Option<string>)
    | ServerError(error: string)

  function StatusCode(r: Reply): int {
    match r
    case MissingApiRef => 400
    case NotFound => 404
    case ServerError(_) => 500
    case _ => 200
  }

  /** `message: 'Contribution status updated to <status>'` of a successful reply. */
  function UpdatedMessage(status: Status): string {
    "Contribution status updated to " + StatusName(status)
  }

  /** Lines 52-67: the gateway state to a contribution status. */
  function MapState(state: Option<string>): (r: Status)
    ensures r == Completed <==> state == Some("COMPLETE")
    ensures r == Failed <==> state == Some("FAILED")
    ensures r == Processing <==> state == Some("PROCESSING")
    ensures r == Pending <==> state !in {Some("COMPLETE"), Some("FAILED"), Some("PROCESSING")}
  {
    match state
    case Some("COMPLETE") => Completed
    case Some("FAILED") => Failed
    case Some("PROCESSING") => Processing
    case _ => Pending
  }

  function HasApiRef(apiRef: string): Contribution -> bool {
    (c: Contribution) => c.apiRef == Some(apiRef)
  }

  /** The rows `.eq('api_ref', apiRef)` selects. */
  function Matches(rows: seq<Contribution>, apiRef: string): seq<Contribution> {
    Filter(rows, HasApiRef(apiRef))
  }

  datatype Outcome = Outcome(rows: seq<Contribution>, reply: Reply)

  /** The handler's effect on the table and its reply. */
  function Reconcile(rows: seq<Contribution>, preflight: bool, payload: Payload, db: Database): Outcome {
    if preflight then Outcome(rows, Preflight)
    else if payload.Malformed? then Outcome(rows, ServerError(payload.parserMessage))
    else if !Truthy(payload.apiRef) then Outcome(rows, MissingApiRef)
    else
      var newStatus := MapState(payload.state);
      var found := Matches(rows, payload.apiRef.value);
      if db.lookupFails || |found| != 1 then Outcome(rows, NotFound)
      else if found[0].status == Completed && newStatus != Completed then Outcome(rows, AlreadyCompleted)
      else if db.updateFails then Outcome(rows, ServerError("Failed to update contribution status"))
      else Outcome(WithStatus(rows, found[0].id, newStatus), Updated(newStatus, found[0].id, payload.invoiceId))
  }

  /** The handler, on the contributions table. */
  method HandleWebhook(table: ContributionsTable, preflight: bool, payload: Payload, db: Database) returns (reply: Reply)
    requires table.Valid()
    modifies table
    ensures table.Valid()
    ensures Outcome(table.rows, reply) == Reconcile(old(table.rows), preflight, payload, db)
  {
    if preflight {
      return Preflight;
    }
    if payload.Malformed? {
      return ServerError(payload.parserMessage);
    }
    if !Truthy(payload.apiRef) {
      return MissingApiRef;
    }
    var newStatus := MapState(payload.state);
    var found := Matches(table.rows, payload.apiRef.value);
    if db.lookupFails || |found| != 1 {
      return NotFound;
    }
    var contribution := found[0];
    if contribution.status == Completed && newStatus != Completed {
      return AlreadyCompleted;
    }
    if db.updateFails {
      return ServerError("Failed to update contribution status");
    }
    table.SetStatus(contribution.id, newStatus);
    reply := Updated(newStatus, contribution.id, payload.invoiceId);
  }

  // ---------------------------------------------------------------- properties

  /** A missing or empty `api_ref` is answered 400 without a lookup or an update. */
  lemma MissingApiRefChangesNothing(rows: seq<Contribution>, apiRef: Option<string>, state: Option<string>,
                                    invoiceId: Option<string>, db: Database)
    requires !Truthy(apiRef)
    ensures Reconcile(rows, false, Parsed(apiRef, state, invoiceId), db) == Outcome(rows, MissingApiRef)
  {
  }

  /** Unless exactly one row carries the reference, the reply is 404 and the table is unchanged. */
  lemma NotFoundChangesNothing(rows: seq<Contribution>, apiRef: string, state: Option<string>,
                               invoiceId: Option<string>, db: Database)
    requires apiRef != "" && |Matches(rows, apiRef)| != 1
    ensures Reconcile(rows, false, Parsed(Some(apiRef), state, invoiceId), db) == Outcome(rows, NotFound)
  {
  }

  /** The only row with the reference is at index `k`. */
  predicate UniqueAt(rows: seq<Contribution>, apiRef: string, k: int) {
    0 <= k < |rows| && rows[k].apiRef == Some(apiRef)
    && forall i :: 0 <= i < |rows| && i != k ==> rows[i].apiRef != Some(apiRef)
  }

  lemma {:induction false} MatchesOfUnique(rows: seq<Contribution>, apiRef: string, k: int)
    requires UniqueAt(rows, apiRef, k)
    ensures Matches(rows, apiRef) == [rows[k]]
  {
    var p := HasApiRef(apiRef);
    if k == 0 {
      forall i | 0 <= i < |rows[1..]| ensures !p(rows[1..][i]) {
        assert rows[1..][i] == rows[i + 1];
      }
      FilterNone(rows[1..], p);
    } else {
      assert UniqueAt(rows[1..], apiRef, k - 1) by {
        forall i | 0 <= i < |rows[1..]| && i != k - 1 ensures rows[1..][i].apiRef != Some(apiRef) {
          assert rows[1..][i] == rows[i + 1];
        }
      }
      MatchesOfUnique(rows[1..], apiRef, k - 1);
    }
  }

  /** Exactly one matching row means there is an index holding it and no other. */
  lemma {:induction false} UniqueOfMatches(rows: seq<Contribution>, apiRef: string) returns (k: int)
    requires |Matches(rows, apiRef)| == 1
    ensures UniqueAt(rows, apiRef, k) && Matches(rows, apiRef) == [rows[k]]
  {
    var p := HasApiRef(apiRef);
    if p(rows[0]) {
      forall i | 0 <= i < |rows[1..]| ensures !p(rows[1..][i]) {
        assert rows[1..][i] == rows[i + 1];
      }
      FilterNone(rows[1..], p);
      k := 0;
      forall i | 0 < i < |rows| ensures rows[i].apiRef != Some(apiRef) {
        assert rows[i] == rows[1..][i - 1];
        assert rows[1..][i - 1] !in Filter(rows[1..], p);
      }
    } else {
      assert Matches(rows[1..], apiRef) == Matches(rows, apiRef);
      var j := UniqueOfMatches(rows[1..], apiRef);
      k := j + 1;
      forall i | 0 <= i < |rows| && i != k ensures rows[i].apiRef != Some(apiRef) {
        if i > 0 {
          assert rows[i] == rows[1..][i - 1];
        }
      }
    }
    MatchesOfUnique(rows, apiRef, k);
  }

  /**
   * A stored `completed` status is never overwritten by another one: the row stays `completed`
   * and the reply is "Already completed".
   */
  lemma CompletedIsAbsorbing(rows: seq<Contribution>, apiRef: string, state: Option<string>,
                             invoiceId: Option<string>, db: Database, k: int)
    requires apiRef != "" && UniqueAt(rows, apiRef, k) && rows[k].status == Completed
    requires !db.lookupFails && MapState(state) != Completed
    ensures Reconcile(rows, false, Parsed(Some(apiRef), state, invoiceId), db) == Outcome(rows, AlreadyCompleted)
  {
    MatchesOfUnique(rows, apiRef, k);
  }

  /** Whatever the payload, a `completed` row is still `completed` afterwards. */
  lemma CompletedStaysCompleted(rows: seq<Contribution>, preflight: bool, payload: Payload, db: Database, i: int)
    requires DistinctIds(rows) && 0 <= i < |rows| && rows[i].status == Completed
    ensures |Reconcile(rows, preflight, payload, db).rows| == |rows|
    ensures Reconcile(rows, preflight, payload, db).rows[i].status == Completed
  {
  }

  /**
   * A successful update changes the matched row alone, and only its status, to exactly the
   * mapped status; any transition other than out of `completed` is allowed.
   */
  lemma UpdateChangesOnlyTheMatchedRow(rows: seq<Contribution>, apiRef: string, state: Option<string>,
                                       invoiceId: Option<string>, db: Database, k: int)
    requires DistinctIds(rows) && apiRef != "" && UniqueAt(rows, apiRef, k)
    requires !db.lookupFails && !db.updateFails
    requires rows[k].status != Completed || MapState(state) == Completed
    ensures var o := Reconcile(rows, false, Parsed(Some(apiRef), state, invoiceId), db);
            |o.rows| == |rows|
            && o.rows[k] == rows[k].(status := MapState(state))
            && (forall i :: 0 <= i < |rows| && i != k ==> o.rows[i] == rows[i])
            && o.reply == Updated(MapState(state), rows[k].id, invoiceId)
  {
    MatchesOfUnique(rows, apiRef, k);
  }

  /**
   * Once a payload has been applied, applying it again leaves the table as it is, whatever
   * the second round's database outcomes.
   */
  lemma ReplayIsIdempotent(rows: seq<Contribution>, payload: Payload, db1: Database, db2: Database)
    requires DistinctIds(rows) && !db1.lookupFails && !db1.updateFails
    ensures var once := Reconcile(rows, false, payload, db1).rows;
            Reconcile(once, false, payload, db2).rows == once
  {
    if payload.Parsed? && Truthy(payload.apiRef) {
      var apiRef := payload.apiRef.value;
      var newStatus := MapState(payload.state);
      if |Matches(rows, apiRef)| == 1 {
        var k := UniqueOfMatches(rows, apiRef);
        if rows[k].status != Completed || newStatus == Completed {
          var once := WithStatus(rows, rows[k].id, newStatus);
          assert Reconcile(rows, false, payload, db1).rows == once;
          assert UniqueAt(once, apiRef, k);
          MatchesOfUnique(once, apiRef, k);
          assert once[k].status == newStatus && once[k].id == rows[k].id;
          assert WithStatus(once, once[k].id, newStatus) == once;
        }
      }
    }
  }
}
