/** Positions in the event stream and the page-limited polling that consumes it (`types.ts`,
    `soroban-event-source.ts`). */
module Polling {

  datatype Cursor = Cursor(ledger: nat, tx: nat, event: nat)

  const ORIGIN := Cursor(0, 0, 0)

  /** `cursorAfter`. */
  predicate After(a: Cursor, b: Cursor) {
    if a.ledger != b.ledger then a.ledger > b.ledger
    else if a.tx != b.tx then a.tx > b.tx
    else a.event > b.event
  }

  /** A strict total order. */
  lemma AfterIsStrictTotalOrder(a: Cursor, b: Cursor, c: Cursor)
    ensures !After(a, a)
    ensures After(a, b) && After(b, c) ==> After(a, c)
    ensures a == b || After(a, b) || After(b, a)
    ensures !(After(a, b) && After(b, a))
  {
  }

  // ── The chain and its true positions ──

  /** An event as the chain emits it: no index within its transaction. */
  datatype Emitted = Emitted(ledger: nat, tx: nat, payload: nat)

  predicate NotBefore(a: Emitted, b: Emitted) {
    a.ledger > b.ledger || (a.ledger == b.ledger && a.tx >= b.tx)
  }

  /** Ledgers start at one and events come in ledger and transaction order. */
  ghost predicate Ordered(chain: seq<Emitted>) {
    && (forall i :: 0 <= i < |chain| ==> chain[i].ledger >= 1)
    && (forall i, j :: 0 <= i < j < |chain| ==> NotBefore(chain[j], chain[i]))
  }

  /** How many events of transaction `(ledger, tx)` occur in `s`. */
  function Count(s: seq<Emitted>, ledger: nat, tx: nat): nat {
    if s == [] then 0
    else Count(s[..|s| - 1], ledger, tx) + (if s[|s| - 1].ledger == ledger && s[|s| - 1].tx == tx then 1 else 0)
  }

  /** The true position of an event: its index counts the earlier events of its transaction. */
  function Position(chain: seq<Emitted>, k: nat): Cursor
    requires k < |chain|
  {
    Cursor(chain[k].ledger, chain[k].tx, Count(chain[..k], chain[k].ledger, chain[k].tx))
  }

  lemma {:induction false} CountGrows(chain: seq<Emitted>, i: nat, j: nat, ledger: nat, tx: nat)
    requires i <= j <= |chain|
    ensures Count(chain[..i], ledger, tx) <= Count(chain[..j], ledger, tx)
    ensures i < j && chain[i].ledger == ledger && chain[i].tx == tx ==>
              Count(chain[..i], ledger, tx) < Count(chain[..j], ledger, tx)
  {
    if i < j {
      CountGrows(chain, i, j - 1, ledger, tx);
      assert chain[..j][..j - 1] == chain[..j - 1];
    }
  }

  /** Positions are strictly ascending along the chain. */
  lemma PositionsAscend(chain: seq<Emitted>, i: nat, j: nat)
    requires Ordered(chain) && i < j < |chain|
    ensures After(Position(chain, j), Position(chain, i))
  {
    assert NotBefore(chain[j], chain[i]);
    CountGrows(chain, i, j, chain[i].ledger, chain[i].tx);
  }

  // ── The server ──

  function Min(a: nat, b: nat): nat {
    if a < b then a else b
  }

  function Max(a: nat, b: nat): nat {
    if a < b then b else a
  }

  /** Number of events before ledger `start`. */
  function First(view: seq<Emitted>, start: nat): (f: nat)
    ensures f <= |view|
    ensures forall i :: 0 <= i < f ==> view[i].ledger < start
    ensures f < |view| ==> view[f].ledger >= start
  {
    if view == [] || view[0].ledger >= start then 0 else 1 + First(view[1..], start)
  }

  /** `getEvents`: at most `limit` events from the start of ledger `start`. */
  function Page(view: seq<Emitted>, start: nat, limit: nat): seq<Emitted> {
    view[First(view, start)..Min(First(view, start) + limit, |view|)]
  }

  // ── The client ──

  /** A fetched event with the position the client derived for it. */
  datatype Fetched = Fetched(cursor: Cursor, payload: nat)

  /** The first `k` events of a response, positions derived by counting, those at or before `after` dropped. */
  function Select(response: seq<Emitted>, after: Cursor, k: nat): seq<Fetched>
    requires k <= |response|
  {
    if k == 0 then []
    else
      Select(response, after, k - 1)
      + (if After(Position(response, k - 1), after)
         then [Fetched(Position(response, k - 1), response[k - 1].payload)] else [])
  }

  function StartLedger(after: Cursor): nat {
    Max(after.ledger, 1)
  }

  /** What one poll returns. */
  function Fetch(view: seq<Emitted>, after: Cursor, limit: nat): seq<Fetched> {
    var response := Page(view, StartLedger(after), limit);
    Select(response, after, |response|)
  }

  /** `fetchEvents`: the loop with its running count per transaction. */
  method FetchEvents(view: seq<Emitted>, after: Cursor, limit: nat) returns (events: seq<Fetched>)
    ensures events == Fetch(view, after, limit)
  {
    var response := Page(view, StartLedger(after), limit);
    var perTx: map<(nat, nat), nat> := map[];
    events := [];
    for k := 0 to |response|
      invariant events == Select(response, after, k)
      invariant forall ledger: nat, tx: nat ::
        (if (ledger, tx) in perTx then perTx[(ledger, tx)] else 0) == Count(response[..k], ledger, tx)
    {
      var e := response[k];
      var key := (e.ledger, e.tx);
      var index := if key in perTx then perTx[key] else 0;
      assert index == Count(response[..k], e.ledger, e.tx);
      perTx := perTx[key := index + 1];
      assert response[..k + 1][..k] == response[..k];
      var candidate := Cursor(e.ledger, e.tx, index);
      if After(candidate, after) {
        events := events + [Fetched(candidate, e.payload)];
      }
    }
  }

  // ── Gap-free, duplicate-free ──

  /** Events `i` to `j` of the chain at their true positions. */
  function Entries(chain: seq<Emitted>, i: nat, j: nat): (es: seq<Fetched>)
    requires i <= j <= |chain|
    ensures |es| == j - i
    decreases j
  {
    if i == j then [] else Entries(chain, i, j - 1) + [Fetched(Position(chain, j - 1), chain[j - 1].payload)]
  }

  /** The persisted cursor after `n` events. */
  function CursorAt(chain: seq<Emitted>, n: nat): Cursor
    requires n <= |chain|
  {
    if n == 0 then ORIGIN else Position(chain, n - 1)
  }

  lemma {:induction false} CountSuffix(chain: seq<Emitted>, f: nat, k: nat, ledger: nat, tx: nat)
    requires f <= k <= |chain| && forall i :: 0 <= i < f ==> chain[i].ledger != ledger
    ensures Count(chain[f..k], ledger, tx) == Count(chain[..k], ledger, tx)
  {
    if k == f {
      CountNone(chain[..f], ledger, tx);
    } else {
      CountSuffix(chain, f, k - 1, ledger, tx);
      assert chain[f..k][..k - f - 1] == chain[f..k - 1];
      assert chain[..k][..k - 1] == chain[..k - 1];
    }
  }

  lemma {:induction false} CountNone(s: seq<Emitted>, ledger: nat, tx: nat)
    requires forall i :: 0 <= i < |s| ==> s[i].ledger != ledger
    ensures Count(s, ledger, tx) == 0
  {
    if s != [] {
      CountNone(s[..|s| - 1], ledger, tx);
    }
  }

  /** From the first event of a ledger on, no event belongs to an earlier one. */
  lemma NoEarlierLedger(chain: seq<Emitted>, len: nat, start: nat, k: nat)
    requires Ordered(chain) && len <= |chain| && First(chain[..len], start) <= k < len
    ensures chain[k].ledger >= start
    ensures forall i :: 0 <= i < First(chain[..len], start) ==> chain[i].ledger != chain[k].ledger
  {
    var (view, f) := (chain[..len], First(chain[..len], start));
    assert view[f].ledger >= start;
    assert f < k ==> NotBefore(chain[k], chain[f]);
    forall i | 0 <= i < f ensures chain[i].ledger != chain[k].ledger {
      assert view[i].ledger < start;
    }
  }

  /** Counting from the start of a ledger gives true indexes, wherever the page ends. */
  lemma DerivedIsTrue(chain: seq<Emitted>, len: nat, start: nat, limit: nat, k: nat)
    requires Ordered(chain) && len <= |chain| && k < |Page(chain[..len], start, limit)|
    ensures var f := First(chain[..len], start);
            && f + k < len
            && Page(chain[..len], start, limit)[k] == chain[f + k]
            && Position(Page(chain[..len], start, limit), k) == Position(chain, f + k)
  {
    var f := First(chain[..len], start);
    var page := Page(chain[..len], start, limit);
    NoEarlierLedger(chain, len, start, f + k);
    assert page == chain[f..Min(f + limit, len)];
    assert page[..k] == chain[f..f + k];
    CountSuffix(chain, f, f + k, chain[f + k].ledger, chain[f + k].tx);
  }

  /** Where one poll ends. */
  function PageEnd(chain: seq<Emitted>, len: nat, after: Cursor, limit: nat): nat
    requires len <= |chain|
  {
    Min(First(chain[..len], StartLedger(after)) + limit, len)
  }

  /** Among the events of a page, exactly those from number `n` on are after the cursor. */
  lemma AfterCursorIff(chain: seq<Emitted>, n: nat, k: nat)
    requires Ordered(chain) && n <= |chain| && k < |chain|
    ensures After(Position(chain, k), CursorAt(chain, n)) <==> k >= n
  {
    if n == 0 {
      assert chain[k].ledger >= 1;
    } else if k > n - 1 {
      PositionsAscend(chain, n - 1, k);
    } else if k < n - 1 {
      PositionsAscend(chain, k, n - 1);
    }
  }

  /** One more event: kept at its true position exactly when it is number `n` or later. */
  lemma SelectOneMore(chain: seq<Emitted>, response: seq<Emitted>, f: nat, after: Cursor, n: nat, k: nat)
    requires TrueAt(chain, response, f, after, n, k)
    requires Select(response, after, k) == if f + k <= n then [] else Entries(chain, Max(f, n), f + k)
    ensures Select(response, after, k + 1) == if f + k + 1 <= n then [] else Entries(chain, Max(f, n), f + k + 1)
  {
    var p := Position(chain, f + k);
    if f + k >= n {
      assert Select(response, after, k + 1) == Select(response, after, k) + [Fetched(p, chain[f + k].payload)];
    } else {
      assert Select(response, after, k + 1) == Select(response, after, k) + [];
    }
  }

  /** Event `k` of the response is event `f + k` of the chain, at its true position, and is after the cursor exactly
      when it is number `n` or later. */
  ghost predicate TrueAt(chain: seq<Emitted>, response: seq<Emitted>, f: nat, after: Cursor, n: nat, k: nat) {
    && k < |response| && f + k < |chain| && n <= |chain|
    && response[k] == chain[f + k] && Position(response, k) == Position(chain, f + k)
    && (After(Position(chain, f + k), after) <==> f + k >= n)
  }

  lemma PageIsTrue(chain: seq<Emitted>, len: nat, n: nat, limit: nat, start: nat, k: nat)
    requires Ordered(chain) && len <= |chain| && n <= |chain| && k < |Page(chain[..len], start, limit)|
    ensures TrueAt(chain, Page(chain[..len], start, limit), First(chain[..len], start), CursorAt(chain, n), n, k)
  {
    DerivedIsTrue(chain, len, start, limit, k);
    AfterCursorIff(chain, n, First(chain[..len], start) + k);
  }

  lemma {:induction false} SelectContinues(chain: seq<Emitted>, response: seq<Emitted>, f: nat,
                                           after: Cursor, n: nat, k: nat)
    requires k <= |response| && f + |response| <= |chain| && n <= |chain|
    requires forall i: nat :: i < |response| ==> TrueAt(chain, response, f, after, n, i)
    ensures Select(response, after, k) == if f + k <= n then [] else Entries(chain, Max(f, n), f + k)
  {
    if k > 0 {
      SelectContinues(chain, response, f, after, n, k - 1);
      assert TrueAt(chain, response, f, after, n, k - 1);
      SelectOneMore(chain, response, f, after, n, k - 1);
    }
  }

  lemma FirstBelow(chain: seq<Emitted>, len: nat, n: nat)
    requires Ordered(chain) && len <= |chain| && n <= |chain|
    ensures First(chain[..len], StartLedger(CursorAt(chain, n))) <= n
  {
    var view := chain[..len];
    if n == 0 {
      assert len > 0 ==> view[0].ledger >= 1;
    } else {
      assert n - 1 < len ==> view[n - 1].ledger == chain[n - 1].ledger >= 1;
    }
  }

  lemma PageSelects(chain: seq<Emitted>, len: nat, n: nat, limit: nat, start: nat)
    requires Ordered(chain) && len <= |chain| && n <= |chain| && First(chain[..len], start) <= n
    ensures var response := Page(chain[..len], start, limit);
            var end := Min(First(chain[..len], start) + limit, len);
            Select(response, CursorAt(chain, n), |response|) == if end <= n then [] else Entries(chain, n, end)
  {
    var (response, f) := (Page(chain[..len], start, limit), First(chain[..len], start));
    assert |response| == Min(f + limit, len) - f;
    forall k: nat | k < |response| ensures TrueAt(chain, response, f, CursorAt(chain, n), n, k) {
      PageIsTrue(chain, len, n, limit, start, k);
    }
    SelectContinues(chain, response, f, CursorAt(chain, n), n, |response|);
  }

  /** One poll of a possibly stale node, from the cursor after `n` events: the next events of the chain, in order and at
      their true positions, none skipped and none repeated. */
  lemma PollContinues(chain: seq<Emitted>, len: nat, n: nat, limit: nat)
    requires Ordered(chain) && len <= |chain| && n <= |chain|
    ensures var end := PageEnd(chain, len, CursorAt(chain, n), limit);
            Fetch(chain[..len], CursorAt(chain, n), limit) == if end <= n then [] else Entries(chain, n, end)
  {
    FirstBelow(chain, len, n);
    PageSelects(chain, len, n, limit, StartLedger(CursorAt(chain, n)));
  }

  /** A poll makes progress exactly when the node has unseen events and fewer than `limit` events of the cursor's ledger
      have been consumed. A ledger with `limit` or more events therefore stops the stream inside it. */
  lemma ProgressIff(chain: seq<Emitted>, len: nat, n: nat, limit: nat)
    requires Ordered(chain) && len <= |chain| && n <= |chain|
    ensures Fetch(chain[..len], CursorAt(chain, n), limit) != [] <==>
            n < len && n - First(chain[..len], StartLedger(CursorAt(chain, n))) < limit
  {
    PollContinues(chain, len, n, limit);
    FirstBelow(chain, len, n);
  }

  /** When every ledger holds fewer events than a page, every poll of a node with unseen events makes progress. */
  lemma SmallLedgersProgress(chain: seq<Emitted>, len: nat, n: nat, limit: nat)
    requires Ordered(chain) && len <= |chain| && n < len
    requires forall i, j :: 0 <= i <= j < |chain| && chain[i].ledger == chain[j].ledger ==> j - i + 1 < limit
    requires limit > 0
    ensures Fetch(chain[..len], CursorAt(chain, n), limit) != []
  {
    var f := First(chain[..len], StartLedger(CursorAt(chain, n)));
    FirstBelow(chain, len, n);
    if n > 0 && f < n {
      assert chain[..len][f].ledger >= StartLedger(CursorAt(chain, n));
      if f < n - 1 {
        assert NotBefore(chain[n - 1], chain[f]);
      }
      assert chain[f].ledger == chain[n - 1].ledger;
    }
    ProgressIff(chain, len, n, limit);
  }

  // ── Any number of polls ──

  /** One poll cycle: how much of the chain the node shows, and how many of the fetched events get applied before the
      cycle ends or fails. */
  datatype Cycle = Cycle(visible: nat, applied: nat)

  /** The events consumed after a cycle. */
  function AfterCycle(chain: seq<Emitted>, limit: nat, consumed: seq<Fetched>, c: Cycle): seq<Fetched> {
    var after := if consumed == [] then ORIGIN else consumed[|consumed| - 1].cursor;
    var batch := Fetch(chain[..Min(c.visible, |chain|)], after, limit);
    consumed + batch[..Min(c.applied, |batch|)]
  }

  function AfterCycles(chain: seq<Emitted>, limit: nat, cycles: seq<Cycle>): seq<Fetched> {
    if cycles == [] then []
    else AfterCycle(chain, limit, AfterCycles(chain, limit, cycles[..|cycles| - 1]), cycles[|cycles| - 1])
  }

  lemma CycleExtends(chain: seq<Emitted>, limit: nat, n: nat, c: Cycle, consumed: seq<Fetched>)
    requires Ordered(chain) && n <= |chain| && consumed == Entries(chain, 0, n)
    ensures exists m :: n <= m <= |chain| && AfterCycle(chain, limit, consumed, c) == Entries(chain, 0, m)
  {
    var len := Min(c.visible, |chain|);
    var after := if consumed == [] then ORIGIN else consumed[|consumed| - 1].cursor;
    assert after == CursorAt(chain, n);
    var batch := Fetch(chain[..len], after, limit);
    var m := Min(c.applied, |batch|);
    BatchJoins(chain, len, n, limit, m);
    assert AfterCycle(chain, limit, consumed, c) == Entries(chain, 0, n + m);
  }

  lemma BatchJoins(chain: seq<Emitted>, len: nat, n: nat, limit: nat, m: nat)
    requires Ordered(chain) && n <= |chain| && len <= |chain| && m <= |Fetch(chain[..len], CursorAt(chain, n), limit)|
    ensures n + m <= |chain|
    ensures Entries(chain, 0, n) + Fetch(chain[..len], CursorAt(chain, n), limit)[..m] == Entries(chain, 0, n + m)
  {
    PollContinues(chain, len, n, limit);
    var end := PageEnd(chain, len, CursorAt(chain, n), limit);
    if end > n {
      EntriesJoin(chain, n, end, m);
    } else {
      assert Fetch(chain[..len], CursorAt(chain, n), limit)[..m] == [];
    }
  }

  lemma EntriesJoin(chain: seq<Emitted>, n: nat, end: nat, m: nat)
    requires n + m <= end <= |chain|
    ensures Entries(chain, 0, n) + Entries(chain, n, end)[..m] == Entries(chain, 0, n + m)
  {
    EntriesPrefix(chain, n, n + m, end);
    EntriesConcat(chain, n, n + m);
  }

  lemma {:induction false} EntriesPrefix(chain: seq<Emitted>, i: nat, k: nat, j: nat)
    requires i <= k <= j <= |chain|
    ensures Entries(chain, i, j)[..k - i] == Entries(chain, i, k)
    decreases j
  {
    if k < j {
      EntriesPrefix(chain, i, k, j - 1);
    }
  }

  lemma {:induction false} EntriesConcat(chain: seq<Emitted>, n: nat, k: nat)
    requires n <= k <= |chain|
    ensures Entries(chain, 0, n) + Entries(chain, n, k) == Entries(chain, 0, k)
    decreases k
  {
    if n < k {
      EntriesConcat(chain, n, k - 1);
    }
  }

  /** Over any sequence of polls, crashes and chain growth, what has been consumed is exactly a prefix of the chain's
      event order, at the true positions. */
  lemma {:induction false} ConsumedIsPrefix(chain: seq<Emitted>, limit: nat, cycles: seq<Cycle>)
    requires Ordered(chain)
    ensures |AfterCycles(chain, limit, cycles)| <= |chain|
    ensures AfterCycles(chain, limit, cycles) == Entries(chain, 0, |AfterCycles(chain, limit, cycles)|)
    decreases |cycles|
  {
    if cycles != [] {
      var rest := cycles[..|cycles| - 1];
      ConsumedIsPrefix(chain, limit, rest);
      CycleExtends(chain, limit, |AfterCycles(chain, limit, rest)|, cycles[|cycles| - 1],
                   AfterCycles(chain, limit, rest));
    }
  }
}
