/**
 * The demonstration data of the early pages (src/lib/data.ts): ten members with their payments,
 * and the totals, counts, status and payment list derived from them. A payment's ISO date is
 * modelled as its day number since 1970-01-01.
 */
module FixtureData {
  import opened Seqs
  import opened StableSort
  import Constants
  import JsMath
  import UseContributions

  datatype PaymentStatus = PaymentCompleted | PaymentPending | PaymentFailed

  datatype Payment = Payment(id: string, memberId: string, amount: int, date: int, status: PaymentStatus)

  datatype Member = Member(id: string, name: string, email: string, amountPaid: int, targetAmount: int,
                           payments: seq<Payment>, isAdmin: bool)

  const TARGET_AMOUNT: int := 700
  /** `new Date('2025-05-01')`, midnight UTC: a year before the fund's real deadline. */
  const DEADLINE: int := 1746057600000
  const TOTAL_MEMBERS: int := 10
  const TOTAL_TARGET: int := TARGET_AMOUNT * TOTAL_MEMBERS

  function Paid(id: string, memberId: string, amount: int, date: int): Payment {
    Payment(id, memberId, amount, date, PaymentCompleted)
  }

  /** `members`. Days: 20096 is 2025-01-08, 20108 is 2025-01-20. */
  const MEMBERS: seq<Member> := [
    Member("1", "Alex Mwangi", "alex@example.com", 700, TARGET_AMOUNT,
           [Paid("p1", "1", 300, 20098), Paid("p2", "1", 400, 20103)], false),
    Member("2", "Brian Ochieng", "brian@example.com", 500, TARGET_AMOUNT,
           [Paid("p3", "2", 200, 20100), Paid("p4", "2", 300, 20106)], false),
    Member("3", "Caroline Wanjiku", "caroline@example.com", 350, TARGET_AMOUNT,
           [Paid("p5", "3", 350, 20102)], false),
    Member("4", "David Kamau", "david@example.com", 700, TARGET_AMOUNT,
           [Paid("p6", "4", 700, 20096)], false),
    Member("5", "Eva Njeri", "eva@example.com", 200, TARGET_AMOUNT,
           [Paid("p7", "5", 200, 20104)], false),
    Member("6", "Felix Otieno", "felix@example.com", 0, TARGET_AMOUNT, [], false),
    Member("7", "Grace Akinyi", "grace@example.com", 450, TARGET_AMOUNT,
           [Paid("p8", "7", 250, 20099), Paid("p9", "7", 200, 20105)], false),
    Member("8", "Hassan Ali", "hassan@example.com", 100, TARGET_AMOUNT,
           [Paid("p10", "8", 100, 20107)], true),
    Member("9", "Irene Chebet", "irene@example.com", 600, TARGET_AMOUNT,
           [Paid("p11", "9", 400, 20097), Paid("p12", "9", 200, 20101)], false),
    Member("10", "James Kiprop", "james@example.com", 350, TARGET_AMOUNT,
           [Paid("p13", "10", 150, 20103), Paid("p14", "10", 200, 20108)], false)
  ]

  function AmountPaid(m: Member): int { m.amountPaid }

  function Amount(p: Payment): int { p.amount }

  // ---------------------------------------------------------------- totals and counts

  /** `getTotalCollected`. */
  function TotalCollected(ms: seq<Member>): int {
    SumOf(ms, AmountPaid)
  }

  /** `getTotalRemaining`: not clamped, so it goes negative once the target is passed. */
  function TotalRemaining(ms: seq<Member>): int {
    TOTAL_TARGET - TotalCollected(ms)
  }

  predicate IsDone(m: Member) { m.amountPaid >= m.targetAmount }

  predicate IsUnderway(m: Member) { m.amountPaid > 0 && m.amountPaid < m.targetAmount }

  predicate IsNotStarted(m: Member) { m.amountPaid == 0 }

  predicate HasPaid(m: Member) { m.amountPaid > 0 }

  function CompletedCount(ms: seq<Member>): nat { Count(ms, IsDone) }

  function InProgressCount(ms: seq<Member>): nat { Count(ms, IsUnderway) }

  function NotStartedCount(ms: seq<Member>): nat { Count(ms, IsNotStarted) }

  /** With no negative amounts and positive targets, every member is in exactly one of the three counts. */
  lemma CountsPartition(ms: seq<Member>)
    requires forall m :: m in ms ==> m.amountPaid >= 0 && m.targetAmount > 0
    ensures CompletedCount(ms) + InProgressCount(ms) + NotStartedCount(ms) == |ms|
  {
    CountDisjoint(ms, IsDone, IsUnderway, HasPaid);
    CountComplement(ms, HasPaid, IsNotStarted);
  }

  /** `getMemberStatus`: the same thresholds, against the member's own target. */
  function GetMemberStatus(m: Member): (s: UseContributions.MemberStatus)
    ensures s == UseContributions.Completed <==> IsDone(m)
    ensures s == UseContributions.InProgress <==> m.amountPaid > 0 && !IsDone(m)
    ensures s == UseContributions.Pending <==> m.amountPaid <= 0 && !IsDone(m)
  {
    if m.amountPaid >= m.targetAmount then UseContributions.Completed
    else if m.amountPaid > 0 then UseContributions.InProgress
    else UseContributions.Pending
  }

  /** With the fund's target of 700 this status is the one the live pages compute from the paid total. */
  lemma StatusAgreesWithLivePages(m: Member)
    requires m.targetAmount == UseContributions.TARGET_AMOUNT
    ensures GetMemberStatus(m) == UseContributions.GetMemberStatus(m.amountPaid)
  {
  }

  // ---------------------------------------------------------------- the fixture's figures

  /** Every member's `amountPaid` is the sum of its payments, each completed, its own and 700 the target. */
  lemma FixtureIsConsistent()
    ensures |MEMBERS| == TOTAL_MEMBERS
    ensures forall m :: m in MEMBERS ==>
              m.targetAmount == TARGET_AMOUNT && m.amountPaid == SumOf(m.payments, Amount)
              && forall p :: p in m.payments ==> p.memberId == m.id && p.status == PaymentCompleted
  {
  }

  /** The members' `amountPaid`, in order. */
  const PAID: seq<int> := [700, 500, 350, 700, 200, 0, 450, 100, 600, 350]

  function Id(x: int): int { x }

  /** Each member's paid amount and target, read off the fixture. */
  lemma FixturePaid()
    ensures |MEMBERS| == |PAID|
    ensures forall i :: 0 <= i < |MEMBERS| ==> MEMBERS[i].amountPaid == PAID[i] && MEMBERS[i].targetAmount == TARGET_AMOUNT
    ensures forall i :: 0 <= i < |PAID| ==> PAID[i] >= 0
  {
  }

  function DoneMark(m: Member): int { if IsDone(m) then 1 else 0 }

  function NotStartedMark(m: Member): int { if IsNotStarted(m) then 1 else 0 }

  function DonePaid(x: int): int { if x >= TARGET_AMOUNT then 1 else 0 }

  function NotStartedPaid(x: int): int { if x == 0 then 1 else 0 }

  /** For members at the standard target, the total and the counts depend only on the paid amounts. */
  lemma FiguresFromPaid(ms: seq<Member>, paid: seq<int>)
    requires |ms| == |paid|
    requires forall i :: 0 <= i < |ms| ==> ms[i].amountPaid == paid[i] && ms[i].targetAmount == TARGET_AMOUNT
    ensures TotalCollected(ms) == SumOf(paid, Id)
    ensures CompletedCount(ms) == SumOf(paid, DonePaid)
    ensures NotStartedCount(ms) == SumOf(paid, NotStartedPaid)
  {
    SumOfAgrees(ms, AmountPaid, paid, Id);
    SumOfAgrees(ms, DoneMark, paid, DonePaid);
    SumOfAgrees(ms, NotStartedMark, paid, NotStartedPaid);
    CountAsSum(ms, IsDone, DoneMark);
    CountAsSum(ms, IsNotStarted, NotStartedMark);
  }

  /** Members at the standard target who paid nothing negative fall into exactly one count. */
  lemma PartitionFromPaid(ms: seq<Member>, paid: seq<int>)
    requires |ms| == |paid|
    requires forall i :: 0 <= i < |ms| ==> ms[i].amountPaid == paid[i] && ms[i].targetAmount == TARGET_AMOUNT
    requires forall i :: 0 <= i < |paid| ==> paid[i] >= 0
    ensures CompletedCount(ms) + InProgressCount(ms) + NotStartedCount(ms) == |ms|
  {
    forall m | m in ms
      ensures m.amountPaid >= 0 && m.targetAmount > 0
    {
      var i :| 0 <= i < |ms| && ms[i] == m;
    }
    CountsPartition(ms);
  }

  /** The sums over the paid amounts, evaluated on the literal. */
  lemma PaidSums()
    ensures SumOf(PAID, Id) == 3950
    ensures SumOf(PAID, DonePaid) == 2
    ensures SumOf(PAID, NotStartedPaid) == 1
  {
  }

  lemma FixtureTotals()
    ensures TotalCollected(MEMBERS) == 3950
    ensures TotalRemaining(MEMBERS) == 3050
  {
    FixturePaid();
    FiguresFromPaid(MEMBERS, PAID);
    PaidSums();
  }

  /** Two completed, seven in progress and one not started. */
  lemma FixtureCounts()
    ensures CompletedCount(MEMBERS) == 2
    ensures InProgressCount(MEMBERS) == 7
    ensures NotStartedCount(MEMBERS) == 1
  {
    FixturePaid();
    FiguresFromPaid(MEMBERS, PAID);
    PartitionFromPaid(MEMBERS, PAID);
    PaidSums();
  }

  // ---------------------------------------------------------------- payments

  /** A payment with the name of the member who made it. */
  datatype PaymentRow = PaymentRow(payment: Payment, memberName: string)

  function RowsOf(m: Member): (r: seq<PaymentRow>)
    ensures |r| == |m.payments|
    ensures forall i :: 0 <= i < |r| ==> r[i] == PaymentRow(m.payments[i], m.name)
  {
    seq(|m.payments|, i requires 0 <= i < |m.payments| => PaymentRow(m.payments[i], m.name))
  }

  function PaymentCount(m: Member): int { |m.payments| }

  /** `members.flatMap(m => m.payments.map(p => ({ ...p, memberName: m.name })))`. */
  function FlatPayments(ms: seq<Member>): seq<PaymentRow> {
    FlatMap(ms, RowsOf)
  }

  /** One row per payment, each tagged with the name of the member who made it. */
  lemma FlatPaymentsContents(ms: seq<Member>)
    ensures |FlatPayments(ms)| == SumOf(ms, PaymentCount)
    ensures forall m, p :: m in ms && p in m.payments ==> PaymentRow(p, m.name) in FlatPayments(ms)
    ensures forall x :: x in FlatPayments(ms) ==> exists i :: 0 <= i < |ms| && x.memberName == ms[i].name && x.payment in ms[i].payments
  {
    var r := FlatPayments(ms);
    FlatMapLength(ms, RowsOf, PaymentCount);
    FlatMapMembers(ms, RowsOf);
    forall m, p | m in ms && p in m.payments
      ensures PaymentRow(p, m.name) in r
    {
      var i :| 0 <= i < |ms| && ms[i] == m;
      var k :| 0 <= k < |m.payments| && m.payments[k] == p;
      assert RowsOf(ms[i])[k] == PaymentRow(p, m.name);
    }
    forall x | x in r
      ensures exists i :: 0 <= i < |ms| && x.memberName == ms[i].name && x.payment in ms[i].payments
    {
      var i :| 0 <= i < |ms| && x in RowsOf(ms[i]);
      var k :| 0 <= k < |RowsOf(ms[i])| && RowsOf(ms[i])[k] == x;
    }
  }

  function NewestFirst(r: PaymentRow): int { -r.payment.date }

  /** `getAllPayments`: every payment, newest date first; payments of one day keep member order. */
  function AllPayments(ms: seq<Member>): seq<PaymentRow> {
    SortBy(FlatPayments(ms), NewestFirst)
  }

  /** Every payment appears as often as in the flattened list, whose length is the number of payments. */
  lemma AllPaymentsComplete(ms: seq<Member>)
    ensures multiset(AllPayments(ms)) == multiset(FlatPayments(ms))
    ensures |AllPayments(ms)| == SumOf(ms, PaymentCount)
  {
    FlatPaymentsContents(ms);
    SortByPermutation(FlatPayments(ms), NewestFirst);
  }

  /** Newest date first. */
  lemma AllPaymentsNewestFirst(ms: seq<Member>)
    ensures forall i, j :: 0 <= i < j < |AllPayments(ms)| ==>
              AllPayments(ms)[i].payment.date >= AllPayments(ms)[j].payment.date
  {
    var sorted := AllPayments(ms);
    SortBySorted(FlatPayments(ms), NewestFirst);
    forall i, j | 0 <= i < j < |sorted|
      ensures sorted[i].payment.date >= sorted[j].payment.date
    {
      assert NewestFirst(sorted[i]) <= NewestFirst(sorted[j]);
    }
  }

  /** Payments of one day keep the order of the flattened list: member order, then payment order. */
  lemma AllPaymentsStable(ms: seq<Member>, day: int)
    ensures Filter(AllPayments(ms), KeyIs(NewestFirst, -day)) == Filter(FlatPayments(ms), KeyIs(NewestFirst, -day))
  {
    SortByStable(FlatPayments(ms), NewestFirst, -day);
  }

  /** Only James Kiprop's `p14` is dated 2025-01-20; every other payment is older. */
  lemma FixtureLatestDate(i: int, p: Payment)
    requires 0 <= i < |MEMBERS| && p in MEMBERS[i].payments
    ensures p.date <= 20108
    ensures p.date == 20108 ==> i == 9 && p == Paid("p14", "10", 200, 20108)
  {
    var ps := MEMBERS[i].payments;
    var k :| 0 <= k < |ps| && ps[k] == p;
    assert |ps| <= 2;
  }

  /**
   * A payment dated later than every other heads the list, carrying its member's name.
   */
  lemma NewestPaymentFirst(ms: seq<Member>, i0: int, k0: int)
    requires 0 <= i0 < |ms| && 0 <= k0 < |ms[i0].payments|
    requires forall i, p :: 0 <= i < |ms| && p in ms[i].payments ==>
               p.date <= ms[i0].payments[k0].date
               && (p.date == ms[i0].payments[k0].date ==> p == ms[i0].payments[k0] && ms[i].name == ms[i0].name)
    ensures AllPayments(ms) != [] && AllPayments(ms)[0] == PaymentRow(ms[i0].payments[k0], ms[i0].name)
  {
    var flat := FlatPayments(ms);
    var sorted := AllPayments(ms);
    var newest := PaymentRow(ms[i0].payments[k0], ms[i0].name);
    FlatPaymentsContents(ms);
    AllPaymentsComplete(ms);
    AllPaymentsNewestFirst(ms);
    assert ms[i0] in ms && ms[i0].payments[k0] in ms[i0].payments;
    assert newest in flat;
    assert newest in multiset(sorted);
    var k :| 0 <= k < |sorted| && sorted[k] == newest;
    assert sorted[0].payment.date >= newest.payment.date;
    assert sorted[0] in multiset(flat);
    var i :| 0 <= i < |ms| && sorted[0].memberName == ms[i].name && sorted[0].payment in ms[i].payments;
  }

  /** The fixture's newest payment, listed first, is James Kiprop's `p14` of 2025-01-20. */
  lemma FixtureNewestPaymentFirst()
    ensures AllPayments(MEMBERS) != [] && AllPayments(MEMBERS)[0] == PaymentRow(Paid("p14", "10", 200, 20108), "James Kiprop")
  {
    forall i, p | 0 <= i < |MEMBERS| && p in MEMBERS[i].payments
      ensures p.date <= MEMBERS[9].payments[1].date
              && (p.date == MEMBERS[9].payments[1].date ==> p == MEMBERS[9].payments[1] && MEMBERS[i].name == MEMBERS[9].name)
    {
      FixtureLatestDate(i, p);
    }
    NewestPaymentFirst(MEMBERS, 9, 1);
  }

  // ---------------------------------------------------------------- deadline

  /** `getDaysUntilDeadline`. */
  function GetDaysUntilDeadline(now: int): (d: int)
    ensures d >= 0 && (d > 0 <==> now < DEADLINE)
  {
    Constants.DaysUntil(DEADLINE, now)
  }

  /** `isDeadlinePassed`. */
  predicate IsDeadlinePassed(now: int) {
    now > DEADLINE
  }

  /** The fixture's deadline is exactly 365 days before the configured one, so it has passed once fewer than 365 days are left to that one. */
  lemma FixtureDeadlineIsAYearEarlier(now: int)
    ensures DEADLINE + 365 * Constants.MS_PER_DAY == Constants.DEADLINE
    ensures Constants.GetDaysUntilDeadline(now) < 365 ==> IsDeadlinePassed(now)
  {
    var d := Constants.GetDaysUntilDeadline(now);
    if d < 365 && d > 0 {
      JsMath.MulMonotone(Constants.MS_PER_DAY, d, 364);
    }
  }
}
