/** The fund's configuration (src/lib/constants.ts). Times are milliseconds since the epoch. */
module Constants {
  import opened Common
  import opened JsMath

  const TARGET_AMOUNT: int := 700
  const TOTAL_MEMBERS: int := 10
  const TOTAL_TARGET: int := TARGET_AMOUNT * TOTAL_MEMBERS
  /** `new Date('2026-05-01')`, midnight UTC. */
  const DEADLINE: int := 1777593600000
  const MS_PER_DAY: int := 1000 * 60 * 60 * 24

  /** `Math.max(0, Math.ceil((deadline - now) / MS_PER_DAY))`. */
  function DaysUntil(deadline: int, now: int): (d: int)
    ensures d >= 0
    ensures d > 0 <==> now < deadline
    ensures now < deadline ==> MS_PER_DAY * (d - 1) < deadline - now <= MS_PER_DAY * d
  {
    Max(0, CeilDiv(deadline - now, MS_PER_DAY))
  }

  function GetDaysUntilDeadline(now: int): (d: int)
    ensures d >= 0
    ensures d > 0 <==> now < DEADLINE
  {
    DaysUntil(DEADLINE, now)
  }

  /** `new Date() > DEADLINE`. */
  predicate IsDeadlinePassed(now: int) {
    now > DEADLINE
  }

  lemma TotalTargetIsProduct()
    ensures TOTAL_TARGET == TARGET_AMOUNT * TOTAL_MEMBERS == 7000
  {
  }

  /** Once the deadline has passed no days are left. */
  lemma DeadlinePassedMeansNoDaysLeft(now: int)
    requires IsDeadlinePassed(now)
    ensures GetDaysUntilDeadline(now) == 0
  {
  }

  /** The day count never goes up as time goes on. */
  lemma DaysUntilNonIncreasing(deadline: int, now1: int, now2: int)
    requires now1 <= now2
    ensures DaysUntil(deadline, now2) <= DaysUntil(deadline, now1)
  {
    CeilDivMonotone(deadline - now2, deadline - now1, MS_PER_DAY);
  }
}
