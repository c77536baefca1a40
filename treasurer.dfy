/**
 * The treasurer's dashboard (src/pages/Treasurer.tsx): its figures derived from the member list
 * and the group stats, the recent-payments list, and the member table's order and cells.
 */
module Treasurer {
  import opened Common
  import opened Seqs
  import opened JsMath
  import opened StableSort
  import Constants
  import Store
  import UseContributions

  type Member = UseContributions.MemberWithContributions

  const TARGET_AMOUNT: int := Constants.TARGET_AMOUNT

  function TotalPaidOf(m: Member): int { m.totalPaid }

  predicate IsNotStarted(m: Member) { m.totalPaid == 0 }

  predicate IsInProgress(m: Member) { m.totalPaid > 0 && m.totalPaid < TARGET_AMOUNT }

  // ---------------------------------------------------------------- the figures

  datatype Figures = Figures(
    totalCollected: int, totalTarget: int, memberCount: int, completedCount: int, inProgressCount: int,
    notStartedCount: int, notJoinedCount: int, progressPercentage: int, avgContribution: int,
    remainingAmount: int, membersNotStarted: seq<Member>, membersInProgress: seq<Member>)

  /**
   * Lines 49-64: collected, completed and in-progress come from the group stats (`?? 0`); the
   * not-started count and the two lists from the member list; the not-joined count is not clamped.
   */
  function FiguresOf(members: seq<Member>, stats: Option<UseContributions.Stats>): Figures {
    var totalCollected := if stats.Some? then stats.value.totalCollected else 0;
    var totalTarget := Constants.TOTAL_TARGET;
    var memberCount := |members|;
    Figures(
      totalCollected, totalTarget, memberCount,
      if stats.Some? then stats.value.completedCount else 0,
      if stats.Some? then stats.value.inProgressCount else 0,
      Count(members, IsNotStarted),
      Constants.TOTAL_MEMBERS - memberCount,
      if totalTarget > 0 then RoundDiv(100 * totalCollected, totalTarget) else 0,
      if memberCount > 0 then RoundDiv(totalCollected, memberCount) else 0,
      Max(0, totalTarget - totalCollected),
      Filter(members, IsNotStarted),
      Filter(members, IsInProgress))
  }

  /**
   * The not-started count is the length of the not-started list; the two lists are disjoint
   * ordered sub-lists of the members; the remaining amount is never negative and is zero exactly
   * once 7000 is collected; the average is 0 without members and otherwise the rounded mean.
   */
  lemma FiguresProperties(members: seq<Member>, stats: Option<UseContributions.Stats>)
    ensures var f := FiguresOf(members, stats);
            f.notStartedCount == |f.membersNotStarted|
            && IsSubsequence(f.membersNotStarted, members) && IsSubsequence(f.membersInProgress, members)
            && (forall m :: m in f.membersNotStarted ==> m !in f.membersInProgress)
            && f.totalTarget == 7000
            && f.remainingAmount >= 0 && (f.remainingAmount == 0 <==> f.totalCollected >= 7000)
            && (f.memberCount == 0 ==> f.avgContribution == 0)
            && (f.memberCount > 0 ==> 2 * f.memberCount * f.avgContribution <= 2 * f.totalCollected + f.memberCount
                                      < 2 * f.memberCount * f.avgContribution + 2 * f.memberCount)
            && (f.notJoinedCount > 0 <==> |members| < 10)
  {
    FilterIsSubsequence(members, IsNotStarted);
    FilterIsSubsequence(members, IsInProgress);
    Constants.TotalTargetIsProduct();
  }

  // ---------------------------------------------------------------- notices

  /** Line 259: the notice section shows when someone has not joined or not started, or the end is near. */
  predicate ShowsNotices(f: Figures, daysLeft: int) {
    f.notJoinedCount > 0 || |f.membersNotStarted| > 0 || (daysLeft <= 14 && |f.membersInProgress| > 0)
  }

  /** Line 261: the sign-up notice shows exactly while fewer than ten members have profiles. */
  predicate ShowsNotJoined(f: Figures) {
    f.notJoinedCount > 0
  }

  /** With ten members or more and none unpaid, the notices appear only close to the deadline. */
  lemma NoticesWhenAllJoined(members: seq<Member>, stats: Option<UseContributions.Stats>, daysLeft: int)
    requires |members| >= 10 && forall m :: m in members ==> m.totalPaid != 0
    ensures !ShowsNotJoined(FiguresOf(members, stats))
    ensures ShowsNotices(FiguresOf(members, stats), daysLeft) <==> daysLeft <= 14 && Count(members, IsInProgress) > 0
  {
    FilterNone(members, IsNotStarted);
  }

  // ---------------------------------------------------------------- recent payments

  datatype PaymentRow = PaymentRow(contribution: Store.Contribution, memberName: string)

  function RowsOf(m: Member): (r: seq<PaymentRow>)
    ensures |r| == |m.contributions|
    ensures forall i :: 0 <= i < |r| ==> r[i] == PaymentRow(m.contributions[i], m.profile.name)
  {
    seq(|m.contributions|, i requires 0 <= i < |m.contributions| => PaymentRow(m.contributions[i], m.profile.name))
  }

  function NewestFirst(r: PaymentRow): int { -r.contribution.createdAt }

  function SortedPayments(members: seq<Member>): seq<PaymentRow> {
    SortBy(FlatMap(members, RowsOf), NewestFirst)
  }

  /** Lines 67-70: every member's rows, newest `created_at` first, the first ten. */
  function RecentPayments(members: seq<Member>): (r: seq<PaymentRow>)
    ensures |r| <= 10
  {
    var sorted := SortedPayments(members);
    if |sorted| <= 10 then sorted else sorted[..10]
  }

  /**
   * The list holds at most ten rows, newest first, each a row of some member; it is the head of
   * the full list, so no row left out is newer than one shown.
   */
  lemma RecentPaymentsAreTheNewest(members: seq<Member>)
    ensures var r := RecentPayments(members);
            var all := SortedPayments(members);
            |r| == Min(10, |all|) && r == all[..|r|]
            && (forall i, j :: 0 <= i < j < |r| ==> r[i].contribution.createdAt >= r[j].contribution.createdAt)
            && (forall i, j :: 0 <= i < |r| <= j < |all| ==> r[i].contribution.createdAt >= all[j].contribution.createdAt)
            && (forall x :: x in r ==> exists k :: 0 <= k < |members| && x in RowsOf(members[k]))
  {
    var flat := FlatMap(members, RowsOf);
    var all := SortedPayments(members);
    var r := RecentPayments(members);
    assert |r| == Min(10, |all|) && r == all[..|r|];
    assert forall i, j :: 0 <= i < j < |all| ==> all[i].contribution.createdAt >= all[j].contribution.createdAt by {
      SortBySorted(flat, NewestFirst);
      forall i, j | 0 <= i < j < |all|
        ensures all[i].contribution.createdAt >= all[j].contribution.createdAt
      {
        assert NewestFirst(all[i]) <= NewestFirst(all[j]);
      }
    }
    assert forall x :: x in all ==> exists k :: 0 <= k < |members| && x in RowsOf(members[k]) by {
      SortByPermutation(flat, NewestFirst);
      FlatMapMembers(members, RowsOf);
      forall x | x in all
        ensures exists k :: 0 <= k < |members| && x in RowsOf(members[k])
      {
        assert x in multiset(all);
        assert x in flat;
      }
    }
    forall x | x in r
      ensures x in all
    {
      var i :| 0 <= i < |r| && r[i] == x;
      assert all[i] == x;
    }
  }

  // ---------------------------------------------------------------- the member table

  function MostPaidFirst(m: Member): int { -m.totalPaid }

  /** Line 344-345: a copy of the members, highest total first. */
  function TableOrder(members: seq<Member>): seq<Member> {
    SortBy(members, MostPaidFirst)
  }

  /** The table lists every member once, by total paid descending, equal totals in member order. */
  lemma TableOrderProperties(members: seq<Member>, paid: int)
    ensures multiset(TableOrder(members)) == multiset(members)
    ensures forall i, j :: 0 <= i < j < |TableOrder(members)| ==> TableOrder(members)[i].totalPaid >= TableOrder(members)[j].totalPaid
    ensures Filter(TableOrder(members), KeyIs(MostPaidFirst, -paid)) == Filter(members, KeyIs(MostPaidFirst, -paid))
  {
    var t := TableOrder(members);
    assert multiset(t) == multiset(members) by {
      SortByPermutation(members, MostPaidFirst);
    }
    assert Filter(t, KeyIs(MostPaidFirst, -paid)) == Filter(members, KeyIs(MostPaidFirst, -paid)) by {
      SortByStable(members, MostPaidFirst, -paid);
    }
    SortBySorted(members, MostPaidFirst);
    forall i, j | 0 <= i < j < |t|
      ensures t[i].totalPaid >= t[j].totalPaid
    {
      assert MostPaidFirst(t[i]) <= MostPaidFirst(t[j]);
    }
  }

  /** Line 348: `Math.max(0, TARGET_AMOUNT - totalPaid)`. */
  function Balance(totalPaid: int): (b: int)
    ensures b >= 0 && (b == 0 <==> totalPaid >= TARGET_AMOUNT)
    ensures b > 0 ==> totalPaid + b == TARGET_AMOUNT
  {
    Max(0, TARGET_AMOUNT - totalPaid)
  }

  /**
   * Line 349: `Math.min(100, Math.round((totalPaid / TARGET_AMOUNT) * 100))`, the share of 700
   * paid as a whole percent, halves rounded up, capped at 100.
   */
  function ProgressPercent(totalPaid: int): (p: int)
    ensures p <= 100
    ensures p < 100 ==> 2 * TARGET_AMOUNT * p <= 200 * totalPaid + TARGET_AMOUNT < 2 * TARGET_AMOUNT * (p + 1)
    ensures p == 100 ==> 200 * totalPaid + TARGET_AMOUNT >= 2 * TARGET_AMOUNT * 100
    ensures totalPaid >= 0 ==> p >= 0
  {
    Min(100, RoundDiv(100 * totalPaid, TARGET_AMOUNT))
  }

  /**
   * The bar is full from 697 paid, since 697 / 700 rounds to 100%: a member still owing 3 shows a
   * full bar next to an "in progress" badge.
   */
  lemma ProgressPercentFull(totalPaid: int)
    ensures ProgressPercent(totalPaid) == 100 <==> totalPaid >= 697
    ensures ProgressPercent(697) == 100 && Balance(697) == 3
            && UseContributions.GetMemberStatus(697) == UseContributions.InProgress
  {
    var r := RoundDiv(100 * totalPaid, TARGET_AMOUNT);
    if totalPaid >= 697 && r < 100 {
      MulMonotone(1400, r + 1, 100);
      assert false;
    }
    if totalPaid < 697 && r >= 100 {
      MulMonotone(1400, 100, r);
      assert false;
    }
  }

  /** Line 386: the balance cell. */
  datatype BalanceCell = Dash | Owed(amount: int)

  function BalanceCellOf(totalPaid: int): (c: BalanceCell)
    ensures c == Dash <==> Balance(totalPaid) == 0
    ensures c == Dash <==> UseContributions.GetMemberStatus(totalPaid) == UseContributions.Completed
  {
    var balance := Balance(totalPaid);
    if balance > 0 then Owed(balance) else Dash
  }
}
