/**
 * The per-member tally that `send-reminders` (supabase/functions/send-reminders/index.ts) and
 * `usePublicStats` (src/hooks/useContributions.tsx) build from the completed contributions:
 * a `Map` from user id to the sum of that user's amounts, its keys in insertion order.
 */
module Totals {
  import opened Seqs
  import opened Store

  /** The rows `.eq('status', 'completed')` selects. */
  function CompletedRows(rows: seq<Contribution>): (r: seq<Contribution>)
    ensures forall c :: c in r <==> c in rows && c.status == Completed
  {
    Filter(rows, IsCompleted)
  }

  /** What `userId` has paid: the sum of that user's amounts among `cs`. */
  function PaidBy(cs: seq<Contribution>, userId: string): int {
    SumOf(Filter(cs, OfUser(userId)), AmountOf)
  }

  /** The distinct user ids of `cs` in the order they first appear. */
  function Payers(cs: seq<Contribution>): (r: seq<string>)
    ensures forall u :: u in r <==> exists i :: 0 <= i < |cs| && cs[i].userId == u
    ensures forall i, j :: 0 <= i < j < |r| ==> r[i] != r[j]
  {
    if cs == [] then []
    else
      var init := cs[..|cs| - 1];
      var p := Payers(init);
      var u := cs[|cs| - 1].userId;
      assert forall i :: 0 <= i < |init| ==> init[i] == cs[i];
      if u in p then p else p + [u]
  }

  /** `totals.get(u) || 0`. */
  function TotalOr0(totals: map<string, int>, u: string): int {
    if u in totals then totals[u] else 0
  }

  /** Appending one row adds its amount to its own user's total and to no other. */
  lemma PaidByAppend(cs: seq<Contribution>, c: Contribution, u: string)
    ensures PaidBy(cs + [c], u) == PaidBy(cs, u) + (if c.userId == u then c.amount else 0)
  {
    FilterAppend(cs, [c], OfUser(u));
    SumOfAppend(Filter(cs, OfUser(u)), Filter([c], OfUser(u)), AmountOf);
    assert [c][1..] == [];
  }

  /** A user with no rows has paid nothing. */
  lemma PaidByNonPayer(cs: seq<Contribution>, u: string)
    requires forall i :: 0 <= i < |cs| ==> cs[i].userId != u
    ensures PaidBy(cs, u) == 0
  {
    FilterNone(cs, OfUser(u));
  }

  /** The tally of `prefix`: its payers as keys, each with what it paid. */
  ghost predicate IsTally(prefix: seq<Contribution>, keys: seq<string>, totals: map<string, int>) {
    keys == Payers(prefix)
    && (forall u :: u in totals <==> u in keys)
    && (forall u :: TotalOr0(totals, u) == PaidBy(prefix, u))
  }

  /** Adding one row's amount to the tally of a prefix gives the tally of the longer prefix. */
  lemma TallyStep(prefix: seq<Contribution>, c: Contribution, keys: seq<string>, totals: map<string, int>)
    requires IsTally(prefix, keys, totals)
    ensures c.userId in totals ==> IsTally(prefix + [c], keys, totals[c.userId := totals[c.userId] + c.amount])
    ensures c.userId !in totals ==> IsTally(prefix + [c], keys + [c.userId], totals[c.userId := c.amount])
  {
    assert (prefix + [c])[..|prefix|] == prefix;
    forall u ensures PaidBy(prefix + [c], u) == PaidBy(prefix, u) + (if c.userId == u then c.amount else 0) {
      PaidByAppend(prefix, c, u);
    }
  }

  /**
   * `cs.forEach(c => totals.set(c.user_id, (totals.get(c.user_id) || 0) + c.amount))`:
   * the keys are the payers in first-appearance order, and each user's entry (0 when absent)
   * is what that user paid.
   */
  method TallyByUser(cs: seq<Contribution>) returns (keys: seq<string>, totals: map<string, int>)
    ensures keys == Payers(cs)
    ensures forall u :: u in totals <==> u in keys
    ensures forall u :: TotalOr0(totals, u) == PaidBy(cs, u)
  {
    keys, totals := [], map[];
    var i := 0;
    while i < |cs|
      invariant 0 <= i <= |cs|
      invariant IsTally(cs[..i], keys, totals)
    {
      var c := cs[i];
      TallyStep(cs[..i], c, keys, totals);
      assert cs[..i + 1] == cs[..i] + [c];
      if c.userId in totals {
        totals := totals[c.userId := totals[c.userId] + c.amount];
      } else {
        keys := keys + [c.userId];
        totals := totals[c.userId := c.amount];
      }
      i := i + 1;
    }
    assert cs[..|cs|] == cs;
  }
}
