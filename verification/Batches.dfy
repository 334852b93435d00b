/** Processing a list of events one transaction at a time and resuming from a persisted cursor, whatever the events
    are (`ingest.ts`, `replay-fixture.ts`). */
module Batches {
  import opened Tables
  import opened Polling

  /** One transaction per event, up to the first that fails. */
  function Ingest<S, E>(step: (S, E) -> Option<S>, s: S, events: seq<E>): S
    decreases |events|
  {
    if events == [] || step(s, events[0]).None? then s
    else Ingest(step, step(s, events[0]).value, events[1..])
  }

  /** How many of the events that commits. */
  function Committed<S, E>(step: (S, E) -> Option<S>, s: S, events: seq<E>): (n: nat)
    ensures n <= |events|
    decreases |events|
  {
    if events == [] || step(s, events[0]).None? then 0
    else 1 + Committed(step, step(s, events[0]).value, events[1..])
  }

  /** A pass may be cut anywhere within what it commits. */
  lemma {:induction false} CommittedPrefix<S, E>(step: (S, E) -> Option<S>, s: S, events: seq<E>, n: nat)
    requires n <= Committed(step, s, events)
    ensures Committed(step, s, events[..n]) == n
    ensures Ingest(step, Ingest(step, s, events[..n]), events[n..]) == Ingest(step, s, events)
    ensures Committed(step, Ingest(step, s, events[..n]), events[n..]) == Committed(step, s, events) - n
    decreases |events|
  {
    if n > 0 {
      var next := step(s, events[0]).value;
      CommittedPrefix(step, next, events[1..], n - 1);
      assert events[..n][1..] == events[1..][..n - 1];
      assert events[n..] == events[1..][n - 1..];
    } else {
      assert events[..0] == [] && events[0..] == events;
    }
  }

  /** Events beyond what commits make no difference. */
  lemma {:induction false} CommittedSlice<S, E>(step: (S, E) -> Option<S>, s: S, events: seq<E>, m: nat)
    requires m <= |events|
    ensures Ingest(step, s, events[..m]) == Ingest(step, s, events[..Min(m, Committed(step, s, events))])
    decreases |events|
  {
    var n := Min(m, Committed(step, s, events));
    if m == 0 {
      assert events[..m] == events[..n];
    } else if step(s, events[0]).Some? {
      CommittedSlice(step, step(s, events[0]).value, events[1..], m - 1);
      assert events[..m][1..] == events[1..][..m - 1];
      assert events[..n][1..] == events[1..][..n - 1];
    } else {
      assert events[..n] == [];
    }
  }

  /** Reached after the first `n` events of a pass that commits at least that many. */
  ghost predicate Reached<S(!new), E(!new)>(step: (S, E) -> Option<S>, s0: S, events: seq<E>, n: nat, s: S) {
    n <= Committed(step, s0, events) && s == Ingest(step, s0, events[..n])
  }

  /** Going on with at most `budget` of the remaining events. */
  lemma BudgetReaches<S(!new), E(!new)>(step: (S, E) -> Option<S>, s0: S, events: seq<E>, n: nat, s: S, budget: nat)
    requires Reached(step, s0, events, n, s)
    ensures n + Min(budget, Committed(step, s0, events) - n) <= |events|
    ensures Reached(step, s0, events, n + Min(budget, Committed(step, s0, events) - n),
                    Ingest(step, s, events[n..][..Min(budget, |events[n..]|)]))
  {
    CommittedPrefix(step, s0, events, n);
    var pending := events[n..];
    CommittedSlice(step, s, pending, Min(budget, |pending|));
    var k := Min(budget, Committed(step, s0, events) - n);
    assert k == Min(Min(budget, |pending|), Committed(step, s, pending));
    CutTwice(step, s0, events, n, k);
  }

  lemma CutTwice<S(!new), E(!new)>(step: (S, E) -> Option<S>, s0: S, events: seq<E>, n: nat, k: nat)
    requires n + k <= Committed(step, s0, events)
    ensures Ingest(step, Ingest(step, s0, events[..n]), events[n..][..k]) == Ingest(step, s0, events[..n + k])
  {
    CommittedPrefix(step, s0, events, n + k);
    CommittedPrefix(step, s0, events[..n + k], n);
    assert events[..n + k][..n] == events[..n] && events[..n + k][n..] == events[n..][..k];
  }

  // ── Resuming ──

  ghost predicate Ascending<E>(pos: E -> Cursor, events: seq<E>) {
    forall i, j :: 0 <= i < j < |events| ==> After(pos(events[j]), pos(events[i]))
  }

  /** Number of leading events at or before the cursor: where a resumed run picks up. */
  function ResumeIndex<E>(pos: E -> Cursor, events: seq<E>, c: Cursor): (n: nat)
    ensures n <= |events|
    ensures n < |events| ==> After(pos(events[n]), c)
    ensures forall i :: 0 <= i < n ==> !After(pos(events[i]), c)
  {
    if events == [] || After(pos(events[0]), c) then 0 else 1 + ResumeIndex(pos, events[1..], c)
  }

  /** `planReplay`: what a restarted run still has to do. */
  function Pending<E>(pos: E -> Cursor, events: seq<E>, c: Cursor): seq<E> {
    events[ResumeIndex(pos, events, c)..]
  }

  /** A run that reads the persisted cursor and dies after at most `budget` transactions. */
  function RunOnce<S, E>(step: (S, E) -> Option<S>, at: S -> Cursor, pos: E -> Cursor,
                         s: S, events: seq<E>, budget: nat): S {
    var pending := Pending(pos, events, at(s));
    Ingest(step, s, pending[..Min(budget, |pending|)])
  }

  function RunMany<S, E>(step: (S, E) -> Option<S>, at: S -> Cursor, pos: E -> Cursor,
                         s: S, events: seq<E>, budgets: seq<nat>): S {
    if budgets == [] then s
    else
      var before := RunMany(step, at, pos, s, events, budgets[..|budgets| - 1]);
      RunOnce(step, at, pos, before, events, budgets[|budgets| - 1])
  }

  /** A committed transaction leaves the cursor at its event. */
  ghost predicate Advances<S(!new), E(!new)>(step: (S, E) -> Option<S>, at: S -> Cursor, pos: E -> Cursor) {
    forall s, e :: step(s, e).Some? ==> at(step(s, e).value) == pos(e)
  }

  /** The persisted cursor is the position of the last committed event. */
  lemma {:induction false} CursorAfter<S(!new), E(!new)>(step: (S, E) -> Option<S>, at: S -> Cursor, pos: E -> Cursor,
                                                          s: S, events: seq<E>, n: nat)
    requires Advances(step, at, pos) && n <= Committed(step, s, events)
    ensures at(Ingest(step, s, events[..n])) == if n == 0 then at(s) else pos(events[n - 1])
    decreases |events|
  {
    if n > 0 {
      var next := step(s, events[0]).value;
      CursorAfter(step, at, pos, next, events[1..], n - 1);
      assert events[..n][1..] == events[1..][..n - 1];
    }
  }

  /** From the cursor after `n` events, exactly the events from number `n` on are pending. */
  lemma ResumesAt<E>(pos: E -> Cursor, events: seq<E>, start: Cursor, n: nat)
    requires Ascending(pos, events) && n <= |events| && (events != [] ==> After(pos(events[0]), start))
    ensures ResumeIndex(pos, events, if n == 0 then start else pos(events[n - 1])) == n
  {
    if n > 0 {
      var c := pos(events[n - 1]);
      forall i | 0 <= i < n ensures !After(pos(events[i]), c) {
        AfterIsStrictTotalOrder(pos(events[i]), c, c);
        if i < n - 1 {
          assert After(pos(events[n - 1]), pos(events[i]));
        }
      }
      if n < |events| {
        assert After(pos(events[n]), pos(events[n - 1]));
      }
    }
  }

  lemma RunOnceContinues<S(!new), E(!new)>(step: (S, E) -> Option<S>, at: S -> Cursor, pos: E -> Cursor,
                                           s0: S, events: seq<E>, n: nat, s: S, budget: nat)
    requires Advances(step, at, pos) && Ascending(pos, events) && (events != [] ==> After(pos(events[0]), at(s0)))
    requires Reached(step, s0, events, n, s)
    ensures Reached(step, s0, events, n + Min(budget, Committed(step, s0, events) - n),
                    RunOnce(step, at, pos, s, events, budget))
  {
    CursorAfter(step, at, pos, s0, events, n);
    ResumesAt(pos, events, at(s0), n);
    BudgetReaches(step, s0, events, n, s, budget);
  }

  /** After any number of runs that die anywhere between transactions, the store is the one a single pass has after some
      number of events. */
  lemma {:induction false} RunsReachPrefix<S(!new), E(!new)>(
    step: (S, E) -> Option<S>, at: S -> Cursor, pos: E -> Cursor, s0: S, events: seq<E>, budgets: seq<nat>)
    returns (n: nat)
    requires Advances(step, at, pos) && Ascending(pos, events) && (events != [] ==> After(pos(events[0]), at(s0)))
    ensures Reached(step, s0, events, n, RunMany(step, at, pos, s0, events, budgets))
    decreases |budgets|
  {
    if budgets == [] {
      n := 0;
      assert events[..0] == [];
    } else {
      var rest := budgets[..|budgets| - 1];
      var m := RunsReachPrefix(step, at, pos, s0, events, rest);
      RunOnceContinues(step, at, pos, s0, events, m, RunMany(step, at, pos, s0, events, rest), budgets[|budgets| - 1]);
      n := m + Min(budgets[|budgets| - 1], Committed(step, s0, events) - m);
    }
  }

  /** One uninterrupted run more ends exactly where a single pass ends. */
  lemma LastRunCatchesUp<S(!new), E(!new)>(step: (S, E) -> Option<S>, at: S -> Cursor, pos: E -> Cursor,
                                           s0: S, events: seq<E>, budgets: seq<nat>)
    requires Advances(step, at, pos) && Ascending(pos, events) && (events != [] ==> After(pos(events[0]), at(s0)))
    ensures RunOnce(step, at, pos, RunMany(step, at, pos, s0, events, budgets), events, |events|)
            == Ingest(step, s0, events)
  {
    var n := RunsReachPrefix(step, at, pos, s0, events, budgets);
    RunOnceContinues(step, at, pos, s0, events, n, RunMany(step, at, pos, s0, events, budgets), |events|);
    CommittedSlice(step, s0, events, |events|);
    assert events[..|events|] == events;
  }
}
