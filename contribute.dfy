/**
 * The demonstration contribution page (src/pages/Contribute.tsx): the amount field read with
 * `parseInt`, its validity against the balance of fixture member `'3'`, the quick-amount buttons
 * and the submit guard. The page's state updates are modelled as functions from form to form.
 */
module Contribute {
  import opened Common
  import opened JsString
  import opened Seqs
  import FixtureData

  // ---------------------------------------------------------------- parseInt

  /** The longest prefix of `s` whose characters all satisfy `p`. */
  function LeadingRun(s: string, p: char -> bool): (r: string)
    ensures |r| <= |s| && r == s[..|r|]
    ensures forall i :: 0 <= i < |r| ==> p(r[i])
    ensures |r| < |s| ==> !p(s[|r|])
  {
    if s != [] && p(s[0]) then [s[0]] + LeadingRun(s[1..], p) else []
  }

  predicate IsHexDigit(c: char) { IsDigit(c) || ('a' <= c <= 'f') || ('A' <= c <= 'F') }

  function HexDigitValue(c: char): (d: nat)
    requires IsHexDigit(c)
    ensures d < 16
  {
    if IsDigit(c) then DigitValue(c) else if 'a' <= c <= 'f' then c as int - 'a' as int + 10 else c as int - 'A' as int + 10
  }

  function HexValue(s: string): nat
    requires forall i :: 0 <= i < |s| ==> IsHexDigit(s[i])
  {
    if s == [] then 0 else 16 * HexValue(s[..|s| - 1]) + HexDigitValue(s[|s| - 1])
  }

  /** `0x` or `0X` at the front. */
  predicate HasHexPrefix(u: string) {
    |u| >= 2 && u[0] == '0' && (u[1] == 'x' || u[1] == 'X')
  }

  /** What follows one leading sign, if any. */
  function AfterSign(t: string): (u: string)
    ensures |u| <= |t| && u == t[|t| - |u|..]
  {
    if t != [] && (t[0] == '-' || t[0] == '+') then t[1..] else t
  }

  /** The digits at the front of unsigned text: hexadecimal after `0x`, decimal otherwise. */
  function ReadDigits(u: string): Option<nat> {
    if HasHexPrefix(u) then
      var hex := LeadingRun(u[2..], IsHexDigit);
      if hex == [] then None else Some(HexValue(hex))
    else
      var digits := LeadingRun(u, IsDigit);
      if digits == [] then None else Some(DecimalValue(digits))
  }

  /** The text left once the leading white space and one sign are skipped, as `parseInt` reads it. */
  function Unsigned(s: string): (u: string)
    ensures |u| <= |s| && u == s[|s| - |u|..]
  {
    var t := TrimStart(s);
    var u := AfterSign(t);
    assert u == s[|s| - |u|..] by {
      assert u == t[|t| - |u|..] && t == s[|s| - |t|..];
    }
    u
  }

  /**
   * `parseInt(s)` with no radix: leading white space and one sign are skipped; a `0x`/`0X` prefix
   * reads hexadecimal; the longest run of digits is read and the rest ignored; no digit is `NaN`.
   */
  function ParseInt(s: string): Option<int> {
    var t := TrimStart(s);
    match ReadDigits(Unsigned(s))
    case None => None
    case Some(v) =>
      var n: int := v;
      Some(if t != [] && t[0] == '-' then -n else n)
  }

  /** A run of digits followed by a non-digit, or by nothing, is read up to that point. */
  lemma {:induction false} LeadingRunOfDigits(d: string, rest: string)
    requires AllDigits(d) && (rest == [] || !IsDigit(rest[0]))
    ensures LeadingRun(d + rest, IsDigit) == d
  {
    if d != [] {
      assert (d + rest)[1..] == d[1..] + rest;
      LeadingRunOfDigits(d[1..], rest);
    } else {
      assert d + rest == rest;
    }
  }

  /**
   * Digits read as their decimal value, whatever follows the first non-digit; only `0x`/`0X`
   * at the front switches to hexadecimal.
   */
  lemma ParseIntOfDigits(d: string, rest: string)
    requires d != [] && AllDigits(d) && (rest == [] || !IsDigit(rest[0])) && !HasHexPrefix(d + rest)
    ensures ParseInt(d + rest) == Some(DecimalValue(d))
  {
    var s := d + rest;
    assert s[0] == d[0];
    assert !IsSpace(s[0]) by {
      assert IsDigit(d[0]);
    }
    assert TrimStart(s) == s;
    assert AfterSign(s) == s;
    LeadingRunOfDigits(d, rest);
  }

  /** `parseInt` reads back what `toString` writes for a non-negative number. */
  lemma ParseIntOfNatToString(v: nat)
    ensures ParseInt(NatToString(v)) == Some(v)
  {
    var s := NatToString(v);
    assert s + [] == s;
    assert !HasHexPrefix(s) by {
      if |s| >= 2 {
        assert IsDigit(s[1]);
      }
    }
    ParseIntOfDigits(s, []);
    NatToStringRoundTrip(v);
  }

  /** When the first character after the white space and the sign is not a digit, `parseInt` is NaN. */
  lemma ParseIntWithoutDigits(s: string)
    requires Unsigned(s) == [] || !IsDigit(Unsigned(s)[0])
    ensures ParseInt(s) == None
  {
    var u := Unsigned(s);
    if u != [] {
      assert !HasHexPrefix(u);
      assert LeadingRun(u, IsDigit) == [];
    }
    assert ReadDigits(u) == None;
  }

  // ---------------------------------------------------------------- the amount

  /** `parseInt(amount) || 0`: `NaN` and zero both give zero. */
  function NumericAmount(amount: string): (n: int)
    ensures ParseInt(amount).None? ==> n == 0
    ensures ParseInt(amount).Some? ==> n == ParseInt(amount).value
  {
    match ParseInt(amount)
    case None => 0
    case Some(n) => n
  }

  /** `isValidAmount`. */
  predicate IsValidAmount(amount: string, remaining: int) {
    var n := NumericAmount(amount);
    n > 0 && n <= remaining
  }

  /** An amount that does not start with a digit, after white space and a sign, is never valid. */
  lemma NonNumericIsInvalid(amount: string, remaining: int)
    requires Unsigned(amount) == [] || !IsDigit(Unsigned(amount)[0])
    ensures NumericAmount(amount) == 0 && !IsValidAmount(amount, remaining)
  {
    ParseIntWithoutDigits(amount);
  }

  /** `members.find(m => m.id === id)`. */
  function Find(ms: seq<FixtureData.Member>, id: string): (r: Option<FixtureData.Member>)
    ensures r.Some? ==> r.value in ms && r.value.id == id
    ensures r.None? ==> forall m :: m in ms ==> m.id != id
  {
    if ms == [] then None else if ms[0].id == id then Some(ms[0]) else Find(ms[1..], id)
  }

  /** `find` returns the first element with the id. */
  lemma {:induction false} FindFirst(ms: seq<FixtureData.Member>, id: string, k: int)
    requires 0 <= k < |ms| && ms[k].id == id && forall j :: 0 <= j < k ==> ms[j].id != id
    ensures Find(ms, id) == Some(ms[k])
  {
    if k > 0 {
      FindFirst(ms[1..], id, k - 1);
    }
  }

  const CURRENT_MEMBER_ID: string := "3"

  /** `member.targetAmount - member.amountPaid`, for the member the page is written for. */
  function Remaining(m: FixtureData.Member): int {
    m.targetAmount - m.amountPaid
  }

  /** Member `'3'`, Caroline Wanjiku, has paid 350 of 700, so 350 remain. */
  lemma CurrentMemberRemaining()
    ensures Find(FixtureData.MEMBERS, CURRENT_MEMBER_ID) == Some(FixtureData.MEMBERS[2])
    ensures Remaining(FixtureData.MEMBERS[2]) == 350
  {
    var ms := FixtureData.MEMBERS;
    assert ms[0].id == "1" && ms[1].id == "2" && ms[2].id == "3";
    FindFirst(ms, CURRENT_MEMBER_ID, 2);
  }

  // ---------------------------------------------------------------- the form

  datatype Form = Form(amount: string, error: Option<string>)

  const INVALID_AMOUNT_MESSAGE: string := "Please enter a valid amount"

  /** `handleQuickAmount`: a value within the balance becomes the amount and clears the error. */
  function QuickAmount(f: Form, value: int, remaining: int): Form {
    if value <= remaining then Form(IntToString(value), None) else f
  }

  /** A positive quick amount within the balance makes the form valid; one above it changes nothing. */
  lemma QuickAmountOutcome(f: Form, value: int, remaining: int)
    ensures 0 < value <= remaining ==> IsValidAmount(QuickAmount(f, value, remaining).amount, remaining)
                                       && QuickAmount(f, value, remaining).error == None
    ensures value > remaining ==> QuickAmount(f, value, remaining) == f
  {
    if 0 < value <= remaining {
      ParseIntOfNatToString(value);
    }
  }

  /** `handleSubmit`: an invalid amount sets the error and stays; a valid one goes to `/dashboard`. */
  function Submit(f: Form, remaining: int): (r: (Form, bool))
    ensures r.1 <==> IsValidAmount(f.amount, remaining)
    ensures !r.1 ==> r.0 == f.(error := Some(INVALID_AMOUNT_MESSAGE))
    ensures r.1 ==> r.0 == f.(error := None)
  {
    if !IsValidAmount(f.amount, remaining) then (f.(error := Some(INVALID_AMOUNT_MESSAGE)), false)
    else (f.(error := None), true)
  }

  // ---------------------------------------------------------------- quick amounts

  /** `arr.indexOf(v)`: the first index holding `v`, or -1. */
  function IndexOf(arr: seq<int>, v: int): (i: int)
    ensures -1 <= i < |arr|
    ensures i == -1 <==> v !in arr
    ensures i >= 0 ==> arr[i] == v
  {
    if arr == [] then -1
    else if arr[0] == v then 0
    else
      var j := IndexOf(arr[1..], v);
      if j == -1 then -1 else j + 1
  }

  /** No earlier index holds the value. */
  lemma {:induction false} IndexOfIsFirst(arr: seq<int>, v: int, k: int)
    requires 0 <= k < |arr| && arr[k] == v
    ensures 0 <= IndexOf(arr, v) <= k
  {
    if arr[0] != v {
      IndexOfIsFirst(arr[1..], v, k - 1);
    }
  }

  /** `arr.filter((v, i) => v <= remaining && arr.indexOf(v) === i)`, from index `from` on. */
  function FirstWithin(arr: seq<int>, remaining: int, from: nat): seq<int>
    requires from <= |arr|
    decreases |arr| - from
  {
    if from == |arr| then []
    else
      var rest := FirstWithin(arr, remaining, from + 1);
      if arr[from] <= remaining && IndexOf(arr, arr[from]) == from then [arr[from]] + rest else rest
  }

  /** The filter keeps the values within `remaining` whose first occurrence is at or after `from`. */
  lemma {:induction false} FirstWithinMembers(arr: seq<int>, remaining: int, from: nat)
    requires from <= |arr|
    ensures forall v :: v in FirstWithin(arr, remaining, from) <==> v in arr[from..] && v <= remaining && IndexOf(arr, v) >= from
    decreases |arr| - from
  {
    if from < |arr| {
      FirstWithinMembers(arr, remaining, from + 1);
      assert arr[from..] == [arr[from]] + arr[from + 1..];
    }
  }

  /** The keys of the values of `q` increase along `q`. */
  predicate IncreasingKeys(q: seq<int>, key: int -> int) {
    forall i, j :: 0 <= i < j < |q| ==> key(q[i]) < key(q[j])
  }

  /** The values of `q` appear in `arr` in the same order as in `q`. */
  predicate InFirstOccurrenceOrder(arr: seq<int>, q: seq<int>) {
    IncreasingKeys(q, w => IndexOf(arr, w))
  }

  /** The kept values are ordered by first occurrence, so none is kept twice. */
  lemma {:induction false} FirstWithinOrdered(arr: seq<int>, remaining: int, from: nat)
    requires from <= |arr|
    ensures InFirstOccurrenceOrder(arr, FirstWithin(arr, remaining, from))
    decreases |arr| - from
  {
    if from < |arr| {
      var rest := FirstWithin(arr, remaining, from + 1);
      FirstWithinOrdered(arr, remaining, from + 1);
      if arr[from] <= remaining && IndexOf(arr, arr[from]) == from {
        FirstWithinMembers(arr, remaining, from + 1);
        PrependIncreasing(arr[from], rest, w => IndexOf(arr, w));
      }
    }
  }

  /** A value whose key is below that of every value of an increasing `q` can go in front. */
  lemma PrependIncreasing(v: int, q: seq<int>, key: int -> int)
    requires IncreasingKeys(q, key)
    requires forall w :: w in q ==> key(v) < key(w)
    ensures IncreasingKeys([v] + q, key)
  {
    var r := [v] + q;
    forall i, j | 0 <= i < j < |r|
      ensures key(r[i]) < key(r[j])
    {
      assert r[j] == q[j - 1];
      if i > 0 {
        assert r[i] == q[i - 1];
      }
    }
  }

  /** The buttons' candidates: three fixed amounts and the balance. */
  function Candidates(remaining: int): seq<int> {
    [100, 200, 350, remaining]
  }

  /** Line 50: the candidates filtered. */
  function QuickAmounts(remaining: int): seq<int> {
    FirstWithin(Candidates(remaining), remaining, 0)
  }

  /** Filtering a whole list keeps each value within the balance once, in order of first appearance. */
  lemma FirstWithinWhole(arr: seq<int>, remaining: int)
    ensures var q := FirstWithin(arr, remaining, 0);
            (forall v :: v in q <==> v in arr && v <= remaining)
            && (forall i, j :: 0 <= i < j < |q| ==> IndexOf(arr, q[i]) < IndexOf(arr, q[j]))
            && (forall i, j :: 0 <= i < j < |q| ==> q[i] != q[j])
  {
    FirstWithinMembers(arr, remaining, 0);
    FirstWithinOrdered(arr, remaining, 0);
    assert arr[0..] == arr;
  }

  /**
   * Every button is within the balance and appears once, in the order of first appearance, and
   * the balance itself always has a button.
   */
  lemma QuickAmountsProperties(remaining: int)
    ensures var q := QuickAmounts(remaining);
            (forall v :: v in q <==> v in Candidates(remaining) && v <= remaining)
            && (forall i, j :: 0 <= i < j < |q| ==> IndexOf(Candidates(remaining), q[i]) < IndexOf(Candidates(remaining), q[j]))
            && (forall i, j :: 0 <= i < j < |q| ==> q[i] != q[j])
            && remaining in q
  {
    FirstWithinWhole(Candidates(remaining), remaining);
    assert Candidates(remaining)[3] == remaining;
  }

  /** With 350 remaining the buttons are 100, 200 and 350. */
  lemma CurrentMemberQuickAmounts()
    ensures QuickAmounts(350) == [100, 200, 350]
  {
    var arr := [100, 200, 350, 350];
    assert IndexOf(arr, 100) == 0;
    assert IndexOf(arr, 200) == 1;
    assert IndexOf(arr, 350) == 2;
    assert FirstWithin(arr, 350, 4) == [];
    assert FirstWithin(arr, 350, 3) == [];
    assert FirstWithin(arr, 350, 2) == [350];
    assert FirstWithin(arr, 350, 1) == [200, 350];
    assert FirstWithin(arr, 350, 0) == [100, 200, 350];
  }
}
