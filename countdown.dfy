/** The countdown to the deadline (src/components/CountdownTimer.tsx). */
module Countdown {
  import opened JsString

  datatype TimeLeft = TimeLeft(days: int, hours: int, minutes: int, seconds: int)

  const MS_PER_SECOND: int := 1000
  const MS_PER_MINUTE: int := 1000 * 60
  const MS_PER_HOUR: int := 1000 * 60 * 60
  const MS_PER_DAY: int := 1000 * 60 * 60 * 24

  /** The whole milliseconds that the fields of `t` stand for. */
  function Millis(t: TimeLeft): int {
    t.days * MS_PER_DAY + t.hours * MS_PER_HOUR + t.minutes * MS_PER_MINUTE + t.seconds * MS_PER_SECOND
  }

  lemma MulMonotone(k: int, a: int, b: int)
    requires k > 0 && a <= b
    ensures k * a <= k * b
  {
  }

  /** Quotient and remainder by a positive divisor are the only ones of their kind. */
  lemma DivModUnique(x: int, b: int, q: int, r: int)
    requires b > 0 && x == b * q + r && 0 <= r < b
    ensures x / b == q && x % b == r
  {
    var q', r' := x / b, x % b;
    assert x == b * q' + r' && 0 <= r' < b;
    if q < q' {
      MulMonotone(b, q + 1, q');
      assert false;
    } else if q' < q {
      MulMonotone(b, q' + 1, q);
      assert false;
    }
  }

  /** Taking a remainder by a multiple of `b` first does not change the remainder by `b`. */
  lemma ModOfMod(x: int, a: int, b: int)
    requires a > 0 && b > 0
    ensures (x % (a * b)) % b == x % b
  {
    var big := x % (a * b);
    var bigQ := x / (a * b);
    assert x == (a * b) * bigQ + big;
    assert big == b * (big / b) + big % b && 0 <= big % b < b;
    assert (a * b) * bigQ == b * (a * bigQ);
    assert x == b * (a * bigQ + big / b) + big % b;
    DivModUnique(x, b, a * bigQ + big / b, big % b);
  }

  lemma DivMod(x: int, d: int)
    requires d > 0
    ensures x == d * (x / d) + x % d && 0 <= x % d < d
  {
  }

  /** `isExpired`: every field is zero. */
  predicate IsExpired(t: TimeLeft) {
    t.days == 0 && t.hours == 0 && t.minutes == 0 && t.seconds == 0
  }

  /** `calculateTimeLeft()`: days, hours, minutes and seconds until `deadline`. */
  function CalculateTimeLeft(deadline: int, now: int): (t: TimeLeft)
    ensures deadline - now <= 0 ==> t == TimeLeft(0, 0, 0, 0)
    ensures t.days >= 0 && 0 <= t.hours < 24 && 0 <= t.minutes < 60 && 0 <= t.seconds < 60
    ensures deadline - now > 0 ==> Millis(t) <= deadline - now < Millis(t) + MS_PER_SECOND
    ensures IsExpired(t) <==> deadline - now < MS_PER_SECOND
  {
    var diff := deadline - now;
    if diff <= 0 then TimeLeft(0, 0, 0, 0)
    else
      var t := TimeLeft(diff / MS_PER_DAY, (diff % MS_PER_DAY) / MS_PER_HOUR,
                        (diff % MS_PER_HOUR) / MS_PER_MINUTE, (diff % MS_PER_MINUTE) / MS_PER_SECOND);
      DecomposeRoundTrip(diff);
      t
  }

  lemma DecomposeRoundTrip(diff: int)
    requires diff > 0
    ensures var t := TimeLeft(diff / MS_PER_DAY, (diff % MS_PER_DAY) / MS_PER_HOUR,
                              (diff % MS_PER_HOUR) / MS_PER_MINUTE, (diff % MS_PER_MINUTE) / MS_PER_SECOND);
            t.days >= 0 && 0 <= t.hours < 24 && 0 <= t.minutes < 60 && 0 <= t.seconds < 60
            && Millis(t) <= diff < Millis(t) + MS_PER_SECOND
  {
    var rd := diff % MS_PER_DAY;
    var rh := diff % MS_PER_HOUR;
    var rm := diff % MS_PER_MINUTE;
    DivMod(diff, MS_PER_DAY);
    ModOfMod(diff, 24, MS_PER_HOUR);
    ModOfMod(diff, 60, MS_PER_MINUTE);
    ModOfMod(diff, 60, MS_PER_SECOND);
    DivMod(rd, MS_PER_HOUR);
    DivMod(rh, MS_PER_MINUTE);
    DivMod(rm, MS_PER_SECOND);
    assert rd % MS_PER_HOUR == rh;
    assert rh % MS_PER_MINUTE == rm;
  }

  /** `value.toString().padStart(2, '0')` for the `TimeUnit` text. */
  function TimeUnitText(value: nat): (s: string)
    ensures |s| >= 2 && AllDigits(s)
    ensures value < 10 ==> s == ['0', DigitChar(value)]
    ensures value >= 10 ==> s == NatToString(value)
  {
    var digits := NatToString(value);
    if |digits| < 2 then ['0'] + digits
    else digits
  }

  /** The padded text still reads as the value. */
  lemma {:induction false} TimeUnitTextReadsBack(value: nat)
    ensures DecimalValue(TimeUnitText(value)) == value
  {
    NatToStringRoundTrip(value);
    if value < 10 {
      var s := TimeUnitText(value);
      assert s[..|s| - 1] == ['0'];
      assert ['0'][..0] == [];
    }
  }
}
