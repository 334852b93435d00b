/** Adding up a quantity over every escrow id issued so far. */
module Sums {
  import opened Types
  import opened Records
  import opened Machine

  ghost function Sum(recs: map<u64, Rec>, f: Rec -> int, n: nat): int {
    if n == 0 then 0 else Sum(recs, f, n - 1) + (if n in recs then f(recs[n]) else 0)
  }

  lemma {:induction false} SumUpdate(recs: map<u64, Rec>, f: Rec -> int, n: nat, id: u64, b: Rec)
    requires id in recs && 1 <= id <= n
    ensures Sum(recs[id := b], f, n) == Sum(recs, f, n) + f(b) - f(recs[id])
  {
    if id == n {
      SumFrame(recs, recs[id := b], f, n - 1);
    } else {
      SumUpdate(recs, f, n - 1, id, b);
    }
  }

  lemma {:induction false} SumFrame(recs: map<u64, Rec>, recs': map<u64, Rec>, f: Rec -> int, n: nat)
    requires forall i: u64 :: i <= n ==> (i in recs <==> i in recs') && (i in recs ==> recs[i] == recs'[i])
    ensures Sum(recs, f, n) == Sum(recs', f, n)
  {
    if n > 0 {
      SumFrame(recs, recs', f, n - 1);
    }
  }

  lemma SumIssue(recs: map<u64, Rec>, f: Rec -> int, id: u64, b: Rec)
    requires 1 <= id
    ensures Sum(recs[id := b], f, id) == Sum(recs, f, id - 1) + f(b)
  {
    SumFrame(recs, recs[id := b], f, id - 1);
  }

  /** A quantity between zero and one per record adds up to at most the number of ids; strictly less when some
      issued record has none of it. */
  lemma {:induction false} SumIndicator(recs: map<u64, Rec>, f: Rec -> int, n: nat)
    requires forall i: u64 :: i in recs ==> 0 <= f(recs[i]) <= 1
    ensures 0 <= Sum(recs, f, n) <= n
  {
    if n > 0 {
      SumIndicator(recs, f, n - 1);
    }
  }

  lemma {:induction false} SumAtLeast(recs: map<u64, Rec>, f: Rec -> int, n: nat, id: u64)
    requires forall i: u64 :: i in recs ==> 0 <= f(recs[i])
    requires id in recs && 1 <= id <= n
    ensures f(recs[id]) <= Sum(recs, f, n)
    ensures 0 <= Sum(recs, f, n)
  {
    if id == n {
      SumNonNegative(recs, f, n - 1);
    } else {
      SumAtLeast(recs, f, n - 1, id);
    }
  }

  lemma {:induction false} SumNonNegative(recs: map<u64, Rec>, f: Rec -> int, n: nat)
    requires forall i: u64 :: i in recs ==> 0 <= f(recs[i])
    ensures 0 <= Sum(recs, f, n)
  {
    if n > 0 {
      SumNonNegative(recs, f, n - 1);
    }
  }

  // ── Sharded counters ──

  ghost function Total(c: seq<nat>): nat {
    if c == [] then 0 else c[0] + Total(c[1..])
  }

  lemma {:induction false} TotalUpdate(c: seq<nat>, i: nat)
    requires i < |c|
    ensures Total(c[i := c[i] + 1]) == Total(c) + 1
  {
    if i > 0 {
      assert c[i := c[i] + 1][1..] == c[1..][i - 1 := c[1..][i - 1] + 1];
      TotalUpdate(c[1..], i - 1);
    } else {
      assert c[i := c[i] + 1][1..] == c[1..];
    }
  }

  lemma {:induction false} ShardBelowTotal(c: seq<nat>, i: nat)
    requires i < |c|
    ensures c[i] <= Total(c)
  {
    if i > 0 {
      ShardBelowTotal(c[1..], i - 1);
    }
  }

  lemma {:induction false} TotalZero(c: seq<nat>)
    requires forall i :: 0 <= i < |c| ==> c[i] == 0
    ensures Total(c) == 0
  {
    if c != [] {
      TotalZero(c[1..]);
    }
  }

  lemma BumpCounts(c: Shards, id: u64)
    ensures Total(Bump(c, id)) == Total(c) + 1
  {
    TotalUpdate(c, id % COUNTER_SHARDS);
  }
}
