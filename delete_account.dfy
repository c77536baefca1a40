/**
 * Account deletion (supabase/functions/delete-account/index.ts): the caller's contributions
 * and profile rows are deleted, then the auth account.
 */
module DeleteAccount {
  import opened Common
  import opened Seqs
  import opened Store
  import opened Jwt

  datatype Reply = Preflight | Unauthorized | Deleted | ServerError(error: string)

  function StatusCode(r: Reply): int {
    match r
    case Unauthorized => 401
    case ServerError(_) => 500
    case _ => 200
  }

  /** `{success: true}` only for a completed deletion. */
  function Success(r: Reply): bool {
    r == Deleted
  }

  /**
   * Whether each best-effort row deletion fails. The handler never looks at their results, so a
   * failed one leaves its table as it was and the account is deleted all the same.
   */
  datatype Cleanup = Cleanup(contributionsFail: bool, profilesFail: bool)

  /**
   * The handler. `deleteUserError` is the auth service's error message, if `deleteUser` fails;
   * `cleanup` says which of the row deletions before it fail.
   */
  method DeleteAccount(contributions: ContributionsTable, profiles: ProfilesTable, preflight: bool,
                       authorization: Option<string>, claims: Option<Claims>, cleanup: Cleanup,
                       deleteUserError: Option<string>)
    returns (reply: Reply)
    requires contributions.Valid()
    modifies contributions, profiles
    ensures contributions.Valid()
    ensures preflight || Caller(authorization, claims).None? ==>
              reply == (if preflight then Preflight else Unauthorized)
              && contributions.rows == old(contributions.rows) && profiles.rows == old(profiles.rows)
    ensures !preflight && Caller(authorization, claims).Some? ==>
              var userId := Caller(authorization, claims).value;
              contributions.rows == (if cleanup.contributionsFail then old(contributions.rows)
                                     else Filter(old(contributions.rows), NotOfUser(userId)))
              && profiles.rows == (if cleanup.profilesFail then old(profiles.rows)
                                   else Filter(old(profiles.rows), (p: Profile) => p.userId != userId))
              && reply == (if deleteUserError.Some? then ServerError(deleteUserError.value) else Deleted)
  {
    if preflight {
      return Preflight;
    }
    var caller := Caller(authorization, claims);
    if caller.None? {
      return Unauthorized;
    }
    var userId := caller.value;
    if !cleanup.contributionsFail {
      contributions.DeleteOfUser(userId);
    }
    if !cleanup.profilesFail {
      profiles.DeleteOfUser(userId);
    }
    if deleteUserError.Some? {
      return ServerError(deleteUserError.value);
    }
    reply := Deleted;
  }

  /** The deletion's scope: none of the caller's contributions is left, everyone else's are all kept, in order. */
  lemma ContributionDeletionScope(rows: seq<Contribution>, userId: string, other: string)
    requires other != userId
    ensures Count(Filter(rows, NotOfUser(userId)), OfUser(userId)) == 0
    ensures Filter(Filter(rows, NotOfUser(userId)), OfUser(other)) == Filter(rows, OfUser(other))
  {
    FilterNone(Filter(rows, NotOfUser(userId)), OfUser(userId));
    FilterNarrower(rows, NotOfUser(userId), OfUser(other));
  }

  /** The same for profiles. */
  lemma ProfileDeletionScope(rows: seq<Profile>, userId: string, other: string)
    requires other != userId
    ensures var kept := Filter(rows, (p: Profile) => p.userId != userId);
            Count(kept, (p: Profile) => p.userId == userId) == 0
            && Filter(kept, (p: Profile) => p.userId == other) == Filter(rows, (p: Profile) => p.userId == other)
  {
    var kept := Filter(rows, (p: Profile) => p.userId != userId);
    FilterNone(kept, (p: Profile) => p.userId == userId);
    FilterNarrower(rows, (p: Profile) => p.userId != userId, (p: Profile) => p.userId == other);
  }
}
