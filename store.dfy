/**
 * The three database tables the handlers read and write: `contributions`, `profiles` and
 * `verification_codes`. Each is an in-memory table of rows; row ids are handed out from a
 * counter, standing for the database's generated keys.
 */
module Store {
  import opened Common
  import opened Seqs

  // ---------------------------------------------------------------- contributions

  /** The `status` column of a contribution. */
  datatype Status = Pending | Processing | Completed | Failed

  /** The column's text value. */
  function StatusName(s: Status): string {
    match s
    case Pending => "pending"
    case Processing => "processing"
    case Completed => "completed"
    case Failed => "failed"
  }

  datatype Contribution = Contribution(
    id: int, userId: string, amount: int, status: Status, apiRef: Option<string>, createdAt: int)

  predicate DistinctIds(rows: seq<Contribution>) {
    forall i, j :: 0 <= i < j < |rows| ==> rows[i].id != rows[j].id
  }

  /** `update({status}).eq('id', id)` on a list of rows. */
  function WithStatus(rows: seq<Contribution>, id: int, status: Status): (r: seq<Contribution>)
    ensures |r| == |rows|
    ensures forall i :: 0 <= i < |rows| && rows[i].id != id ==> r[i] == rows[i]
    ensures forall i :: 0 <= i < |rows| && rows[i].id == id ==> r[i] == rows[i].(status := status)
  {
    seq(|rows|, i requires 0 <= i < |rows| => if rows[i].id == id then rows[i].(status := status) else rows[i])
  }

  /** Updating the status of a row just appended under a fresh id changes that row alone. */
  lemma WithStatusOfFresh(rows: seq<Contribution>, c: Contribution, status: Status)
    requires forall i :: 0 <= i < |rows| ==> rows[i].id != c.id
    ensures WithStatus(rows + [c], c.id, status) == rows + [c.(status := status)]
  {
  }

  /** `.eq('user_id', userId)`. */
  function OfUser(userId: string): Contribution -> bool {
    (c: Contribution) => c.userId == userId
  }

  function NotOfUser(userId: string): Contribution -> bool {
    (c: Contribution) => c.userId != userId
  }

  function IsCompleted(c: Contribution): bool {
    c.status == Completed
  }

  function AmountOf(c: Contribution): int {
    c.amount
  }

  class ContributionsTable {
    var rows: seq<Contribution>
    var nextId: int

    /** Ids are distinct and below the next id to be handed out. */
    predicate Valid()
      reads this
    {
      DistinctIds(rows) && forall i :: 0 <= i < |rows| ==> rows[i].id < nextId
    }

    constructor ()
      ensures Valid() && rows == []
    {
      rows := [];
      nextId := 0;
    }

    /** `insert({...}).select().single()`: appends one row under a fresh id. */
    method Insert(userId: string, amount: int, status: Status, apiRef: Option<string>, createdAt: int)
      returns (id: int)
      requires Valid()
      modifies this
      ensures Valid()
      ensures id == old(nextId) && nextId == old(nextId) + 1
      ensures rows == old(rows) + [Contribution(id, userId, amount, status, apiRef, createdAt)]
      ensures forall i :: 0 <= i < |old(rows)| ==> old(rows)[i].id != id
    {
      id := nextId;
      rows := rows + [Contribution(id, userId, amount, status, apiRef, createdAt)];
      nextId := nextId + 1;
    }

    /** `update({status}).eq('id', id)`. */
    method SetStatus(id: int, status: Status)
      requires Valid()
      modifies this
      ensures Valid() && nextId == old(nextId)
      ensures rows == WithStatus(old(rows), id, status)
    {
      rows := WithStatus(rows, id, status);
    }

    /** `delete().eq('user_id', userId)`. */
    method DeleteOfUser(userId: string)
      requires Valid()
      modifies this
      ensures Valid() && nextId == old(nextId)
      ensures rows == Filter(old(rows), NotOfUser(userId))
    {
      FilterIsSubsequence(rows, NotOfUser(userId));
      SubsequenceKeepsValid(Filter(rows, NotOfUser(userId)), rows, nextId);
      rows := Filter(rows, NotOfUser(userId));
    }
  }

  /** Dropping rows keeps the ids distinct and below the counter. */
  lemma {:induction false} SubsequenceKeepsValid(a: seq<Contribution>, b: seq<Contribution>, nextId: int)
    requires IsSubsequence(a, b) && DistinctIds(b) && forall i :: 0 <= i < |b| ==> b[i].id < nextId
    ensures DistinctIds(a) && forall i :: 0 <= i < |a| ==> a[i].id < nextId
    decreases |b|
  {
    if a != [] {
      assert b != [];
      assert DistinctIds(b[1..]) by {
        forall i, j | 0 <= i < j < |b[1..]| ensures b[1..][i].id != b[1..][j].id {
          assert b[1..][i] == b[i + 1] && b[1..][j] == b[j + 1];
        }
      }
      if a[0] == b[0] && IsSubsequence(a[1..], b[1..]) {
        SubsequenceKeepsValid(a[1..], b[1..], nextId);
        forall j | 0 < j < |a| ensures a[0].id != a[j].id {
          assert a[j] == a[1..][j - 1];
          assert a[j] in b[1..] by { SubsequenceMembers(a[1..], b[1..]); }
          var k :| 0 <= k < |b[1..]| && b[1..][k] == a[j];
          assert b[k + 1] == a[j];
        }
        forall i, j | 0 <= i < j < |a| ensures a[i].id != a[j].id {
          if i > 0 {
            assert a[i] == a[1..][i - 1] && a[j] == a[1..][j - 1];
          }
        }
      } else {
        SubsequenceKeepsValid(a, b[1..], nextId);
      }
    }
  }

  /** Every element of a sub-sequence is an element of the whole. */
  lemma {:induction false} SubsequenceMembers<T>(a: seq<T>, b: seq<T>)
    requires IsSubsequence(a, b)
    ensures forall x :: x in a ==> x in b
    decreases |b|
  {
    if a != [] {
      if a[0] == b[0] && IsSubsequence(a[1..], b[1..]) {
        SubsequenceMembers(a[1..], b[1..]);
        assert a == [a[0]] + a[1..];
      } else {
        SubsequenceMembers(a, b[1..]);
      }
    }
  }

  // ---------------------------------------------------------------- profiles

  datatype Profile = Profile(
    id: int, userId: string, name: string, email: string,
    username: Option<string>, phone: Option<string>, onboardingCompleted: bool)

  class ProfilesTable {
    var rows: seq<Profile>

    constructor ()
      ensures rows == []
    {
      rows := [];
    }

    /** `update(change).eq('user_id', userId)`. */
    method UpdateOfUser(userId: string, change: Profile -> Profile)
      modifies this
      ensures |rows| == |old(rows)|
      ensures forall i :: 0 <= i < |rows| ==>
                rows[i] == if old(rows)[i].userId == userId then change(old(rows)[i]) else old(rows)[i]
    {
      rows := seq(|rows|, i requires 0 <= i < |rows| reads this =>
                    if rows[i].userId == userId then change(rows[i]) else rows[i]);
    }

    /** `delete().eq('user_id', userId)`. */
    method DeleteOfUser(userId: string)
      modifies this
      ensures rows == Filter(old(rows), (p: Profile) => p.userId != userId)
    {
      rows := Filter(rows, (p: Profile) => p.userId != userId);
    }
  }

  // ---------------------------------------------------------------- verification codes

  datatype CodeRow = CodeRow(id: int, email: string, code: string, expiresAt: int, verified: bool)

  /**
   * At most one row per e-mail. The verify handler keeps it; the issue handler keeps it as
   * long as its delete of the e-mail's old codes goes through.
   */
  predicate OneRowPerEmail(rows: seq<CodeRow>) {
    forall i, j :: 0 <= i < j < |rows| ==> rows[i].email != rows[j].email
  }

  function NotForEmail(email: string): CodeRow -> bool {
    (r: CodeRow) => r.email != email
  }

  function CountForEmail(rows: seq<CodeRow>, email: string): nat {
    Count(rows, (r: CodeRow) => r.email == email)
  }

  class CodesTable {
    var rows: seq<CodeRow>
    var nextId: int

    constructor ()
      ensures rows == [] && OneRowPerEmail(rows)
    {
      rows := [];
      nextId := 0;
    }

    /** `delete().eq('email', email)`. */
    method DeleteForEmail(email: string)
      modifies this
      ensures nextId == old(nextId)
      ensures rows == Filter(old(rows), NotForEmail(email))
      ensures OneRowPerEmail(old(rows)) ==> OneRowPerEmail(rows)
    {
      FilterIsSubsequence(rows, NotForEmail(email));
      if OneRowPerEmail(rows) {
        SubsequenceKeepsOneRow(Filter(rows, NotForEmail(email)), rows);
      }
      rows := Filter(rows, NotForEmail(email));
    }

    /** `insert({...})`: appends one row under a fresh id. */
    method Insert(email: string, code: string, expiresAt: int, verified: bool) returns (id: int)
      modifies this
      ensures id == old(nextId) && nextId == old(nextId) + 1
      ensures rows == old(rows) + [CodeRow(id, email, code, expiresAt, verified)]
    {
      id := nextId;
      rows := rows + [CodeRow(id, email, code, expiresAt, verified)];
      nextId := nextId + 1;
    }

    /** `update({verified: true}).eq('id', id)`. */
    method MarkVerified(id: int)
      modifies this
      ensures nextId == old(nextId)
      ensures rows == WithVerified(old(rows), id)
      ensures OneRowPerEmail(old(rows)) ==> OneRowPerEmail(rows)
    {
      rows := WithVerified(rows, id);
    }
  }

  /** `update({verified: true}).eq('id', id)` on a list of rows: e-mails, codes and expiry stay. */
  function WithVerified(rows: seq<CodeRow>, id: int): (r: seq<CodeRow>)
    ensures |r| == |rows|
    ensures forall i :: 0 <= i < |rows| ==> r[i] == if rows[i].id == id then rows[i].(verified := true) else rows[i]
  {
    seq(|rows|, i requires 0 <= i < |rows| => if rows[i].id == id then rows[i].(verified := true) else rows[i])
  }

  /** Dropping rows keeps at most one row per e-mail. */
  lemma {:induction false} SubsequenceKeepsOneRow(a: seq<CodeRow>, b: seq<CodeRow>)
    requires IsSubsequence(a, b) && OneRowPerEmail(b)
    ensures OneRowPerEmail(a)
    decreases |b|
  {
    if a != [] {
      assert OneRowPerEmail(b[1..]) by {
        forall i, j | 0 <= i < j < |b[1..]| ensures b[1..][i].email != b[1..][j].email {
          assert b[1..][i] == b[i + 1] && b[1..][j] == b[j + 1];
        }
      }
      if a[0] == b[0] && IsSubsequence(a[1..], b[1..]) {
        SubsequenceKeepsOneRow(a[1..], b[1..]);
        SubsequenceMembers(a[1..], b[1..]);
        forall i, j | 0 <= i < j < |a| ensures a[i].email != a[j].email {
          assert a[j] == a[1..][j - 1];
          if i > 0 {
            assert a[i] == a[1..][i - 1];
          } else {
            assert a[j] in b[1..];
            var k :| 0 <= k < |b[1..]| && b[1..][k] == a[j];
            assert b[k + 1] == a[j];
          }
        }
      } else {
        SubsequenceKeepsOneRow(a, b[1..]);
      }
    }
  }
}
