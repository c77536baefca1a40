/**
 * The contribution queries of the client (src/hooks/useContributions.tsx): the caller's own
 * completed payments and their sum, the treasurer's member list, the public aggregate stats,
 * the stats hook that chooses between them, the status thresholds and the manual insert.
 */
module UseContributions {
  import opened Common
  import opened Seqs
  import opened JsMath
  import opened StableSort
  import Store
  import Constants
  import opened Totals

  type Contribution = Store.Contribution

  const TARGET_AMOUNT: int := Constants.TARGET_AMOUNT

  // ---------------------------------------------------------------- status

  datatype MemberStatus = Completed | InProgress | Pending

  /** `getMemberStatus`: exactly one status, chosen by the target. */
  function GetMemberStatus(totalPaid: int): (s: MemberStatus)
    ensures s == Completed <==> totalPaid >= TARGET_AMOUNT
    ensures s == InProgress <==> 0 < totalPaid < TARGET_AMOUNT
    ensures s == Pending <==> totalPaid <= 0
  {
    if totalPaid >= TARGET_AMOUNT then Completed else if totalPaid > 0 then InProgress else Pending
  }

  // ---------------------------------------------------------------- the caller's contributions

  function MineAndCompleted(userId: string): Contribution -> bool {
    (c: Contribution) => c.userId == userId && c.status == Store.Completed
  }

  /** The sort key of `.order('created_at', { ascending: false })`. */
  function NewestFirst(c: Contribution): int {
    -c.createdAt
  }

  /** `useMyContributions`: nothing without a user, else the user's completed rows, newest first. */
  function MyContributions(user: Option<string>, rows: seq<Contribution>): seq<Contribution> {
    if user.None? then [] else SortBy(Filter(rows, MineAndCompleted(user.value)), NewestFirst)
  }

  /** The list holds exactly the caller's completed rows, each once, newest first. */
  lemma MyContributionsAreTheCallersCompleted(user: Option<string>, rows: seq<Contribution>)
    ensures user.None? ==> MyContributions(user, rows) == []
    ensures user.Some? ==> multiset(MyContributions(user, rows)) == multiset(Filter(rows, MineAndCompleted(user.value)))
    ensures user.Some? ==> forall c :: c in MyContributions(user, rows) <==>
                             c in rows && c.userId == user.value && c.status == Store.Completed
    ensures var r := MyContributions(user, rows);
            forall i, j :: 0 <= i < j < |r| ==> r[i].createdAt >= r[j].createdAt
  {
    if user.Some? {
      var mine := Filter(rows, MineAndCompleted(user.value));
      SortByPermutation(mine, NewestFirst);
      SortBySorted(mine, NewestFirst);
      forall c ensures c in MyContributions(user, rows) <==> c in mine {
        assert c in MyContributions(user, rows) <==> c in multiset(MyContributions(user, rows));
        assert c in mine <==> c in multiset(mine);
      }
    }
  }

  /** `useMyTotal`: the sum of the fetched amounts, 0 when there are none. */
  function MyTotal(user: Option<string>, rows: seq<Contribution>): int {
    SumOf(MyContributions(user, rows), Store.AmountOf)
  }

  /** The caller's total is what the caller has paid in completed contributions; 0 without a user. */
  lemma MyTotalIsWhatTheCallerPaid(user: Option<string>, rows: seq<Contribution>)
    ensures user.None? ==> MyTotal(user, rows) == 0
    ensures user.Some? ==> MyTotal(user, rows) == PaidBy(CompletedRows(rows), user.value)
  {
    if user.Some? {
      var u := user.value;
      SortBySum(Filter(rows, MineAndCompleted(u)), NewestFirst, Store.AmountOf);
      FilterNarrower(rows, Store.IsCompleted, MineAndCompleted(u));
      FilterCongruent(CompletedRows(rows), MineAndCompleted(u), Store.OfUser(u));
    }
  }

  // ---------------------------------------------------------------- the member list

  /** A row of the `public_profiles` view. */
  datatype PublicProfile = PublicProfile(id: int, userId: string, name: string, isTreasurer: bool)

  datatype MemberWithContributions = MemberWithContributions(
    profile: PublicProfile, totalPaid: int, contributions: seq<Contribution>)

  /** The `profiles.map(...)` of `useAllMembersWithContributions` over the completed rows. */
  function MembersWithContributions(profiles: seq<PublicProfile>, completed: seq<Contribution>): (ms: seq<MemberWithContributions>)
    ensures |ms| == |profiles|
  {
    seq(|profiles|, i requires 0 <= i < |profiles| =>
      var mine := Filter(completed, Store.OfUser(profiles[i].userId));
      MemberWithContributions(profiles[i], SumOf(mine, Store.AmountOf), mine))
  }

  /** Each member carries exactly its own completed rows, in order, and their sum as its total. */
  lemma MemberCarriesItsOwnRows(profiles: seq<PublicProfile>, rows: seq<Contribution>, i: int)
    requires 0 <= i < |profiles|
    ensures var m := MembersWithContributions(profiles, CompletedRows(rows))[i];
            m.profile == profiles[i]
            && (forall c :: c in m.contributions <==>
                  c in rows && c.status == Store.Completed && c.userId == profiles[i].userId)
            && IsSubsequence(m.contributions, CompletedRows(rows))
            && m.totalPaid == SumOf(m.contributions, Store.AmountOf) == PaidBy(CompletedRows(rows), profiles[i].userId)
  {
    FilterIsSubsequence(CompletedRows(rows), Store.OfUser(profiles[i].userId));
  }

  /** The query is only enabled for a treasurer; either read failing leaves it without data. */
  function AllMembersQuery(isTreasurer: bool, profilesFail: bool, contributionsFail: bool,
                           profiles: seq<PublicProfile>, rows: seq<Contribution>): Option<seq<MemberWithContributions>>
  {
    if !isTreasurer || profilesFail || contributionsFail then None
    else Some(MembersWithContributions(profiles, CompletedRows(rows)))
  }

  // ---------------------------------------------------------------- stats

  datatype Stats = Stats(
    totalCollected: int, totalTarget: int, memberCount: int, completedCount: int,
    inProgressCount: int, notStartedCount: int, progressPercentage: int)

  /** `totalTarget > 0 ? Math.round((totalCollected / totalTarget) * 100) : 0`. */
  function ProgressPercentage(collected: int, target: int): (p: int)
    ensures target <= 0 ==> p == 0
    ensures target > 0 ==> 2 * target * p <= 200 * collected + target < 2 * target * p + 2 * target
  {
    if target > 0 then RoundDiv(100 * collected, target) else 0
  }

  function ReachedTarget(cs: seq<Contribution>): string -> bool {
    u => PaidBy(cs, u) >= TARGET_AMOUNT
  }

  /** The `else if (total > 0)` branch: started but short of the target. */
  function Started(cs: seq<Contribution>): string -> bool {
    u => PaidBy(cs, u) < TARGET_AMOUNT && PaidBy(cs, u) > 0
  }

  function PaidSomething(cs: seq<Contribution>): string -> bool {
    u => PaidBy(cs, u) >= TARGET_AMOUNT || PaidBy(cs, u) > 0
  }

  /** The aggregate `usePublicStats` computes; `memberCount` is the exact count, `None` when null. */
  function PublicStatsOf(memberCount: Option<nat>, completed: seq<Contribution>): Stats {
    var payers := Payers(completed);
    var done := Count(payers, ReachedTarget(completed));
    var started := Count(payers, Started(completed));
    var members := if memberCount.Some? then memberCount.value else 0;
    var collected := SumOf(completed, Store.AmountOf);
    Stats(collected, members * TARGET_AMOUNT, members, done, started, Max(0, members - done - started),
          ProgressPercentage(collected, members * TARGET_AMOUNT))
  }

  /**
   * The completed and in-progress counts are of distinct payers, so together they never exceed
   * the number of users who paid; the not-started count is what is left of the member count,
   * never negative; no members means no target and 0%.
   */
  lemma PublicStatsBounds(memberCount: Option<nat>, completed: seq<Contribution>)
    ensures var s := PublicStatsOf(memberCount, completed);
            s.completedCount + s.inProgressCount <= |Payers(completed)|
            && s.notStartedCount >= 0
            && (s.memberCount >= s.completedCount + s.inProgressCount ==>
                  s.completedCount + s.inProgressCount + s.notStartedCount == s.memberCount)
            && s.totalTarget == s.memberCount * TARGET_AMOUNT
            && (s.totalTarget == 0 ==> s.progressPercentage == 0)
  {
    CountDisjoint(Payers(completed), ReachedTarget(completed), Started(completed), PaidSomething(completed));
  }

  /**
   * `userTotals.forEach(total => ...)`: counts the payers at or past the target and, among
   * the others, those who paid something.
   */
  method CountByThreshold(keys: seq<string>, totals: map<string, int>)
    returns (completedCount: int, inProgressCount: int)
    requires forall u :: u in keys ==> u in totals
    ensures completedCount == Count(keys, TotalReached(totals))
    ensures inProgressCount == Count(keys, TotalStarted(totals))
  {
    completedCount, inProgressCount := 0, 0;
    var j := 0;
    while j < |keys|
      invariant 0 <= j <= |keys|
      invariant completedCount == Count(keys[..j], TotalReached(totals))
      invariant inProgressCount == Count(keys[..j], TotalStarted(totals))
    {
      var total := totals[keys[j]];
      CountAppend(keys[..j], keys[j], TotalReached(totals));
      CountAppend(keys[..j], keys[j], TotalStarted(totals));
      assert keys[..j + 1] == keys[..j] + [keys[j]];
      if total >= TARGET_AMOUNT {
        completedCount := completedCount + 1;
      } else if total > 0 {
        inProgressCount := inProgressCount + 1;
      }
      j := j + 1;
    }
    assert keys[..|keys|] == keys;
  }

  /** The same two branches, read from the tallied totals. */
  function TotalReached(totals: map<string, int>): string -> bool {
    u => TotalOr0(totals, u) >= TARGET_AMOUNT
  }

  function TotalStarted(totals: map<string, int>): string -> bool {
    u => TotalOr0(totals, u) < TARGET_AMOUNT && TotalOr0(totals, u) > 0
  }

  /** Tallies the completed rows by user, then classifies each payer's total. */
  method PayerCounts(completed: seq<Contribution>) returns (completedCount: int, inProgressCount: int)
    ensures completedCount == Count(Payers(completed), ReachedTarget(completed))
    ensures inProgressCount == Count(Payers(completed), Started(completed))
  {
    var keys, totals := TallyByUser(completed);
    completedCount, inProgressCount := CountByThreshold(keys, totals);
    FilterCongruent(keys, TotalReached(totals), ReachedTarget(completed));
    FilterCongruent(keys, TotalStarted(totals), Started(completed));
  }

  /** `usePublicStats`: either read failing makes the query fail; otherwise the aggregate of the completed rows. */
  method PublicStats(memberError: bool, memberCount: Option<nat>, contribError: bool, rows: seq<Contribution>)
    returns (stats: Option<Stats>)
    ensures memberError || contribError ==> stats.None?
    ensures !memberError && !contribError ==> stats == Some(PublicStatsOf(memberCount, CompletedRows(rows)))
  {
    if memberError || contribError {
      return None;
    }
    var completed := CompletedRows(rows);
    var totalCollected := SumOf(completed, Store.AmountOf);
    var completedCount, inProgressCount := PayerCounts(completed);
    var actualMemberCount := if memberCount.Some? then memberCount.value else 0;
    var totalTarget := actualMemberCount * TARGET_AMOUNT;
    stats := Some(Stats(totalCollected, totalTarget, actualMemberCount, completedCount, inProgressCount,
                        Max(0, actualMemberCount - completedCount - inProgressCount),
                        ProgressPercentage(totalCollected, totalTarget)));
  }

  function TotalPaidOf(m: MemberWithContributions): int {
    m.totalPaid
  }

  function IsDone(m: MemberWithContributions): bool {
    m.totalPaid >= TARGET_AMOUNT
  }

  function IsPartlyPaid(m: MemberWithContributions): bool {
    m.totalPaid > 0 && m.totalPaid < TARGET_AMOUNT
  }

  function IsUnpaid(m: MemberWithContributions): bool {
    m.totalPaid == 0
  }

  function HasPaid(m: MemberWithContributions): bool {
    m.totalPaid > 0
  }

  /** The stats shown before the public query has answered. */
  const EMPTY_STATS: Stats := Stats(0, Constants.TOTAL_TARGET, 0, 0, 0, 0, 0)

  /** `useGroupStats`: the public stats (or the empty ones) for a non-treasurer, else computed from the member list. */
  function GroupStats(isTreasurer: bool, members: seq<MemberWithContributions>, publicStats: Option<Stats>): Stats {
    if !isTreasurer then (if publicStats.Some? then publicStats.value else EMPTY_STATS)
    else
      var collected := SumOf(members, TotalPaidOf);
      var target := |members| * TARGET_AMOUNT;
      Stats(collected, target, |members|, Count(members, IsDone), Count(members, IsPartlyPaid),
            Count(members, IsUnpaid), ProgressPercentage(collected, target))
  }

  /** With no public data a non-treasurer sees zeros against the fund's fixed target. */
  lemma NonTreasurerWithoutData(members: seq<MemberWithContributions>)
    ensures GroupStats(false, members, None) == Stats(0, 7000, 0, 0, 0, 0, 0)
  {
    Constants.TotalTargetIsProduct();
  }

  /**
   * For a treasurer, when no total is negative every member is counted exactly once across
   * completed, in progress and not started, and the target is the member count times 700.
   */
  lemma TreasurerStatsPartition(members: seq<MemberWithContributions>, publicStats: Option<Stats>)
    requires forall m :: m in members ==> m.totalPaid >= 0
    ensures var s := GroupStats(true, members, publicStats);
            s.completedCount + s.inProgressCount + s.notStartedCount == s.memberCount == |members|
            && s.totalTarget == s.memberCount * TARGET_AMOUNT
            && (s.memberCount == 0 ==> s.progressPercentage == 0)
  {
    CountDisjoint(members, IsDone, IsPartlyPaid, HasPaid);
    CountComplement(members, HasPaid, IsUnpaid);
  }

  // ---------------------------------------------------------------- adding a contribution

  datatype AddResult = NotAuthenticated | InsertFailed | Added(row: Contribution)

  /** `useAddContribution`: without a user it fails; otherwise one `completed` row for the user. */
  method AddContribution(table: Store.ContributionsTable, user: Option<string>, amount: int, now: int, insertFails: bool)
    returns (r: AddResult)
    requires table.Valid()
    modifies table
    ensures table.Valid()
    ensures r == NotAuthenticated <==> user.None?
    ensures r.Added? <==> user.Some? && !insertFails
    ensures !r.Added? ==> table.rows == old(table.rows) && table.nextId == old(table.nextId)
    ensures r.Added? ==> table.rows == old(table.rows) + [r.row]
                         && r.row == Store.Contribution(r.row.id, user.value, amount, Store.Completed, None, now)
                         && forall i :: 0 <= i < |old(table.rows)| ==> old(table.rows)[i].id != r.row.id
  {
    if user.None? {
      return NotAuthenticated;
    }
    if insertFails {
      return InsertFailed;
    }
    var id := table.Insert(user.value, amount, Store.Completed, None, now);
    r := Added(Store.Contribution(id, user.value, amount, Store.Completed, None, now));
  }
}
