/** The group page (src/pages/GroupProgress.tsx): overall percentage and members ordered by status. */
module GroupProgress {
  import opened Seqs
  import opened JsMath
  import opened StableSort
  import opened FixtureData
  import UseContributions

  /** `Math.round((totalCollected / TOTAL_TARGET) * 100)`, on the exact quotient. */
  function ProgressPercentage(ms: seq<Member>): (r: int)
    ensures 2 * TOTAL_TARGET * r <= 200 * TotalCollected(ms) + TOTAL_TARGET < 2 * TOTAL_TARGET * r + 2 * TOTAL_TARGET
  {
    RoundDiv(100 * TotalCollected(ms), TOTAL_TARGET)
  }

  /** The fixture's 3950 of 7000 shows as 56%. */
  lemma FixtureProgress()
    ensures ProgressPercentage(MEMBERS) == 56
  {
    FixtureTotals();
  }

  /** `statusOrder`: completed 0, in progress 1, pending 2. */
  function Rank(m: Member): (r: int)
    ensures 0 <= r <= 2
    ensures r == 0 <==> IsDone(m)
    ensures r == 2 <==> m.amountPaid <= 0 && !IsDone(m)
  {
    match GetMemberStatus(m)
    case Completed => 0
    case InProgress => 1
    case Pending => 2
  }

  /** `[...members].sort((a, b) => statusOrder[a] - statusOrder[b])`, a sorted copy. */
  function SortedMembers(ms: seq<Member>): seq<Member> {
    SortBy(ms, Rank)
  }

  /**
   * The sorted list holds the same members, completed ones first, then those in progress, then
   * pending ones, and members of one status keep their original order.
   */
  lemma SortedMembersOrder(ms: seq<Member>, rank: int)
    ensures multiset(SortedMembers(ms)) == multiset(ms)
    ensures forall i, j :: 0 <= i < j < |SortedMembers(ms)| ==> Rank(SortedMembers(ms)[i]) <= Rank(SortedMembers(ms)[j])
    ensures Filter(SortedMembers(ms), KeyIs(Rank, rank)) == Filter(ms, KeyIs(Rank, rank))
  {
    SortByPermutation(ms, Rank);
    SortBySorted(ms, Rank);
    SortByStable(ms, Rank, rank);
  }

  /** No completed member is listed after one still in progress or pending. */
  lemma CompletedListedFirst(ms: seq<Member>, i: int, j: int)
    requires 0 <= i < j < |SortedMembers(ms)| && IsDone(SortedMembers(ms)[j])
    ensures IsDone(SortedMembers(ms)[i])
  {
    SortedMembersOrder(ms, 0);
    assert Rank(SortedMembers(ms)[i]) <= Rank(SortedMembers(ms)[j]);
  }
}
