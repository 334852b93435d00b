/** Event handlers, the per-event transaction, and resuming after a crash (`apply.ts`, `ingest.ts`,
    `replay-fixture.ts`, `cursor.ts`). */
module Replay {
  import opened Polling
  import opened Tables
  import Batches

  const SUPPORTED_SCHEMA_VERSION := 1

  /** Decoded payloads, one per handled topic. The configuration topics share one shape: the `setConfig` calls of their
      handler, in order. */
  datatype Body =
    | EscrowCreated(id: string, seller: Value, resolver: Value, token: Value, amount: Value, feeBps: Value,
                    resolverFeeBps: Value, shippingWindow: Value, state: Value, time: Value)
    | EscrowFunded(id: string, buyer: Value, state: Value, time: Value)
    | EscrowShipped(id: string, tracking: Value, state: Value, time: Value)
    | EscrowDelivered(id: string, time: Value)
    | EscrowClosed(id: string, state: Value, time: Value, canceled: bool)
    | DisputeRaised(id: string, buyer: Value, reason: Value, description: Value, evidence: Value, state: Value,
                    time: Value)
    | DisputeResolved(id: string, resolution: Value, resolver: Value, state: Value, time: Value)
    | DisputePending(id: string, deadline: Value, resolver: Value)
    | DisputeAppealed(id: string)
    | ResolverRotated(id: string, resolver: Value)
    | RefundRequested(id: string, state: Value)
    | RefundApproved(id: string, state: Value, time: Value)
    | BasketCreated(id: string, seller: Value, tokenCount: Value, time: Value)
    | VoteRecorded(id: string, voter: string, resolution: Value, voteCount: Value, threshold: Value, time: Value)
    | MessagePosted(id: string, sender: Value, time: Value)
    | ConfigChanged(entries: seq<(string, Value)>, time: Value)
    | TokenListed(name: string, allowed: Value, time: Value)
    | ResolverListed(name: string, approved: Value, time: Value)
    | Unhandled

  datatype Event = Event(cursor: Cursor, version: nat, body: Body)

  // ── Handlers ──

  function EscrowKey(id: string): Key {
    Key(Escrows, id, "")
  }

  function DisputeKey(id: string): Key {
    Key(Disputes, id, "")
  }

  /** `setConfig` for each entry. */
  function ConfigWrites(entries: seq<(string, Value)>, time: Value, ledger: nat): seq<Write> {
    if entries == [] then []
    else
      [GuardedUpsert(Key(ConfigRows, entries[0].0, ""),
                     map[SettingValue := entries[0].1, UpdatedAt := time, UpdatedLedger := Num(ledger)], ledger)]
      + ConfigWrites(entries[1..], time, ledger)
  }

  /** The columns an event's handler sets on an escrow row that is there. */
  function EscrowEdits(b: Body, at: Value): Row {
    match b
    case EscrowFunded(_, buyer, state, time) =>
      map[Buyer := buyer, FundedAt := time, State := state, UpdatedLedger := at]
    case EscrowShipped(_, tracking, state, time) =>
      map[ShippedAt := time, TrackingId := tracking, State := state, UpdatedLedger := at]
    case EscrowDelivered(_, time) => map[DeliveredAt := time, UpdatedLedger := at]
    case EscrowClosed(_, state, time, canceled) =>
      if canceled then map[State := state, CancelledAt := time, UpdatedLedger := at]
      else map[State := state, CompletedAt := time, UpdatedLedger := at]
    case DisputeRaised(_, _, _, _, _, state, _) => map[State := state, UpdatedLedger := at]
    case DisputeResolved(_, _, _, state, time) => map[State := state, CompletedAt := time, UpdatedLedger := at]
    case DisputePending(_, _, _) => map[State := Text("PendingFinalization"), UpdatedLedger := at]
    case DisputeAppealed(_) => map[State := Text("Disputed"), UpdatedLedger := at]
    case ResolverRotated(_, resolver) => map[Resolver := resolver, UpdatedLedger := at]
    case RefundRequested(_, state) => map[State := state, UpdatedLedger := at]
    case RefundApproved(_, state, time) => map[State := state, CompletedAt := time, UpdatedLedger := at]
    case _ => map[]
  }

  /** The columns it sets on a dispute row. */
  function DisputeEdits(b: Body): Row {
    match b
    case DisputeRaised(_, buyer, reason, description, evidence, _, time) =>
      map[Buyer := buyer, Reason := reason, Description := description, EvidenceHash := evidence,
          Status := Text("Active"), DisputedAt := time, Resolution := Null, Resolver := Null, ResolvedAt := Null]
    case DisputeResolved(_, resolution, resolver, _, time) =>
      map[Status := Text("Resolved"), Resolution := resolution, Resolver := resolver, ResolvedAt := time]
    case DisputePending(_, deadline, resolver) => map[AppealDeadline := deadline, Resolver := resolver]
    case _ => map[]
  }

  /** The row operations of an event's handler, in order. */
  function Writes(e: Event): seq<Write> {
    var at := Num(e.cursor.ledger);
    match e.body
    case EscrowCreated(id, seller, resolver, token, amount, fee, resolverFee, window, state, time) =>
      [InsertIfAbsent(EscrowKey(id), map[
        Seller := seller, Buyer := Null, Resolver := resolver, Token := token, Amount := amount,
        FeeBps := fee, ResolverFeeBps := resolverFee, ShippingWindow := window, State := state,
        FundedAt := Null, ShippedAt := Null, TrackingId := Null, DeliveredAt := Null, CompletedAt := Null,
        CancelledAt := Null, CreatedAt := time, UpdatedLedger := at])]
    case DisputeRaised(id, _, _, _, _, _, _) =>
      var sets := DisputeEdits(e.body);
      [UpdateIfPresent(EscrowKey(id), EscrowEdits(e.body, at)),
       Upsert(DisputeKey(id), sets[AppealDeadline := Null], sets)]
    case DisputeResolved(id, _, _, _, _) =>
      [UpdateIfPresent(EscrowKey(id), EscrowEdits(e.body, at)),
       UpdateIfPresent(DisputeKey(id), DisputeEdits(e.body))]
    case DisputePending(id, _, _) =>
      [UpdateIfPresent(EscrowKey(id), EscrowEdits(e.body, at)),
       UpdateIfPresent(DisputeKey(id), DisputeEdits(e.body))]
    case EscrowFunded(id, _, _, _) => [UpdateIfPresent(EscrowKey(id), EscrowEdits(e.body, at))]
    case EscrowShipped(id, _, _, _) => [UpdateIfPresent(EscrowKey(id), EscrowEdits(e.body, at))]
    case EscrowDelivered(id, _) => [UpdateIfPresent(EscrowKey(id), EscrowEdits(e.body, at))]
    case EscrowClosed(id, _, _, _) => [UpdateIfPresent(EscrowKey(id), EscrowEdits(e.body, at))]
    case DisputeAppealed(id) => [UpdateIfPresent(EscrowKey(id), EscrowEdits(e.body, at))]
    case ResolverRotated(id, _) => [UpdateIfPresent(EscrowKey(id), EscrowEdits(e.body, at))]
    case RefundRequested(id, _) => [UpdateIfPresent(EscrowKey(id), EscrowEdits(e.body, at))]
    case RefundApproved(id, _, _) => [UpdateIfPresent(EscrowKey(id), EscrowEdits(e.body, at))]
    case BasketCreated(id, seller, count, time) =>
      var row: Row := map[Seller := seller, TokenCount := count, CreatedAt := time, UpdatedLedger := at];
      [Upsert(Key(Baskets, id, ""), row, row)]
    case VoteRecorded(id, voter, resolution, count, threshold, time) =>
      var row: Row := map[Resolution := resolution, VoteCount := count, Threshold := threshold,
                          VotedAt := time,
                          UpdatedLedger := at];
      [Upsert(Key(Ballots, id, voter), row, row)]
    case MessagePosted(id, sender, time) =>
      [InsertIfAbsent(MessageKey(e.cursor), map[EscrowId := Text(id), Sender := sender, PostedAt := time])]
    case ConfigChanged(entries, time) => ConfigWrites(entries, time, e.cursor.ledger)
    case TokenListed(name, allowed, time) =>
      [GuardedUpsert(Key(TokenRows, name, ""),
                     map[Allowed := allowed, UpdatedAt := time, UpdatedLedger := at], e.cursor.ledger)]
    case ResolverListed(name, approved, time) =>
      [GuardedUpsert(Key(ResolverRows, name, ""),
                     map[Approved := approved, UpdatedAt := time, UpdatedLedger := at], e.cursor.ledger)]
    case Unhandled => []
  }

  /** Message rows are keyed by position; unary digits keep distinct positions apart. */
  function MessageKey(c: Cursor): Key {
    Key(Messages, Digits(c.ledger), Digits(c.tx) + "." + Digits(c.event))
  }

  function Digits(n: nat): string {
    seq(n, _ => '1')
  }

  // ── The transaction ──

  datatype Store = Store(log: map<Cursor, Event>, db: Db, cursor: Cursor)

  /** Whether an event can be processed: its schema version is supported, and a dispute row finds the escrow row its
      foreign key names. */
  predicate Processable(db: Db, e: Event) {
    e.version <= SUPPORTED_SCHEMA_VERSION && (e.body.DisputeRaised? ==> EscrowKey(e.body.id) in db)
  }

  /** Log, apply, advance the cursor: committed together or not at all. */
  function Transact(s: Store, e: Event): Option<Store> {
    if !Processable(s.db, e) then None
    else Some(Store(if e.cursor in s.log then s.log else s.log[e.cursor := e], ApplyAll(s.db, Writes(e)), e.cursor))
  }

  /** `ingestBatch`: one transaction per event, up to the first that fails. */
  function Ingest(s: Store, events: seq<Event>): Store {
    Batches.Ingest(Transact, s, events)
  }

  /** How many of the events that run commits. */
  function Committed(s: Store, events: seq<Event>): nat {
    Batches.Committed(Transact, s, events)
  }

  class Indexer {
    var log: map<Cursor, Event>
    var db: Db
    var cursor: Cursor

    function Contents(): Store
      reads this
    {
      Store(log, db, cursor)
    }

    constructor ()
      ensures Contents() == Store(map[], map[], ORIGIN)
    {
      log, db, cursor := map[], map[], ORIGIN;
    }

    /** `processEvent`, with the effect of a throw: the transaction rolls back. */
    method Transaction(e: Event) returns (ok: bool)
      modifies this
      ensures ok <==> Transact(old(Contents()), e).Some?
      ensures Contents() == if ok then Transact(old(Contents()), e).value else old(Contents())
    {
      var savedLog, savedDb := log, db;
      if e.cursor !in log {
        log := log[e.cursor := e];
      }
      if e.version > SUPPORTED_SCHEMA_VERSION {
        log := savedLog;
        return false;
      }
      var ws := Writes(e);
      for i := 0 to |ws|
        invariant ApplyAll(db, ws[i..]) == ApplyAll(savedDb, ws)
        invariant cursor == old(cursor)
        invariant log == if e.cursor in savedLog then savedLog else savedLog[e.cursor := e]
      {
        assert ws[i..][1..] == ws[i + 1..];
        db := Apply(db, ws[i]);
      }
      if e.body.DisputeRaised? && EscrowKey(e.body.id) !in savedDb {
        log, db := savedLog, savedDb;
        return false;
      }
      cursor := e.cursor;
      ok := true;
    }

    /** `ingestBatch`. */
    method IngestBatch(events: seq<Event>) returns (applied: nat)
      modifies this
      ensures Contents() == Ingest(old(Contents()), events)
      ensures applied == Committed(old(Contents()), events)
    {
      applied := 0;
      for i := 0 to |events|
        invariant applied == i
        invariant Ingest(old(Contents()), events) == Ingest(Contents(), events[i..])
        invariant Committed(old(Contents()), events) == i + Committed(Contents(), events[i..])
      {
        assert events[i..][1..] == events[i + 1..];
        var ok := Transaction(events[i]);
        if !ok {
          return;
        }
        applied := applied + 1;
      }
    }
  }

  // ── Resuming ──

  function PositionOf(e: Event): Cursor {
    e.cursor
  }

  function CursorOf(s: Store): Cursor {
    s.cursor
  }

  ghost predicate Ascending(events: seq<Event>) {
    Batches.Ascending(PositionOf, events)
  }

  /** `assertSortedByCursor`: comparing neighbours is enough. */
  method AssertSorted(events: seq<Event>) returns (sorted: bool)
    ensures sorted <==> Ascending(events)
  {
    var i := 1;
    while i < |events|
      invariant 1 <= i && (events != [] ==> i <= |events|)
      invariant forall a, b :: 0 <= a < b < i && b < |events| ==> After(events[b].cursor, events[a].cursor)
    {
      if !After(events[i].cursor, events[i - 1].cursor) {
        assert !After(PositionOf(events[i]), PositionOf(events[i - 1]));
        return false;
      }
      forall a | 0 <= a < i ensures After(events[i].cursor, events[a].cursor) {
        AfterIsStrictTotalOrder(events[i].cursor, events[i - 1].cursor, events[a].cursor);
      }
      i := i + 1;
    }
    sorted := true;
  }

  /** `findResumeIndex`. */
  method FindResumeIndex(events: seq<Event>, c: Cursor) returns (n: nat)
    ensures n == Batches.ResumeIndex(PositionOf, events, c)
  {
    for i := 0 to |events|
      invariant Batches.ResumeIndex(PositionOf, events, c) == i + Batches.ResumeIndex(PositionOf, events[i..], c)
    {
      assert events[i..][1..] == events[i + 1..];
      if After(events[i].cursor, c) {
        return i;
      }
    }
    n := |events|;
  }

  lemma TransactAdvances()
    ensures Batches.Advances(Transact, CursorOf, PositionOf)
  {
  }

  /** Crash and restart: however often a run dies between transactions and starts again from the persisted cursor, one
      uninterrupted run more ends exactly where a single pass ends, tables, log and cursor alike, even when an event
      cannot be processed and stops both. */
  lemma CrashesDoNotMatter(s0: Store, events: seq<Event>, budgets: seq<nat>)
    requires Ascending(events) && (events != [] ==> After(events[0].cursor, s0.cursor))
    ensures var crashed := Batches.RunMany(Transact, CursorOf, PositionOf, s0, events, budgets);
            Batches.RunOnce(Transact, CursorOf, PositionOf, crashed, events, |events|) == Ingest(s0, events)
  {
    TransactAdvances();
    Batches.LastRunCatchesUp(Transact, CursorOf, PositionOf, s0, events, budgets);
  }

  // ── How far a log is processed ──

  /** Whether event `i` of a log will be processed when its turn comes, seen before any of them is: its schema version
      is supported, and the escrow row a dispute names is stored already or created earlier in the log. */
  ghost predicate Ready(db: Db, events: seq<Event>, i: nat)
    requires i < |events|
  {
    && events[i].version <= SUPPORTED_SCHEMA_VERSION
    && (events[i].body.DisputeRaised? ==>
          EscrowKey(events[i].body.id) in db || CreatedWithin(events[..i], events[i].body.id))
  }

  ghost predicate CreatedWithin(events: seq<Event>, id: string) {
    exists j :: 0 <= j < |events| && events[j].body.EscrowCreated? && events[j].body.id == id
  }

  lemma {:induction false} ConfigLeavesEscrows(entries: seq<(string, Value)>, time: Value, ledger: nat)
    ensures forall w :: w in ConfigWrites(entries, time, ledger) ==> w.key.table == ConfigRows
  {
    if entries != [] {
      ConfigLeavesEscrows(entries[1..], time, ledger);
    }
  }

  lemma {:induction false} OnlyNamedKeysAppear(db: Db, ws: seq<Write>, k: Key)
    requires forall w :: w in ws && w.key == k ==> w.UpdateIfPresent?
    ensures k in ApplyAll(db, ws) <==> k in db
    decreases |ws|
  {
    if ws != [] {
      assert ws[0] in ws;
      OnlyNamedKeysAppear(Apply(db, ws[0]), ws[1..], k);
    }
  }

  /** Escrow rows come from `EscrowCreated` and from nothing else. */
  lemma OnlyCreationAddsEscrows(db: Db, e: Event, id: string)
    ensures EscrowKey(id) in ApplyAll(db, Writes(e))
            <==> EscrowKey(id) in db || (e.body.EscrowCreated? && e.body.id == id)
  {
    if e.body.ConfigChanged? {
      ConfigLeavesEscrows(e.body.entries, e.body.time, e.cursor.ledger);
    }
    if e.body.EscrowCreated? {
      assert Writes(e)[1..] == [];
    } else {
      OnlyNamedKeysAppear(db, Writes(e), EscrowKey(id));
    }
  }

  lemma CreatedInTail(events: seq<Event>, i: nat, id: string)
    requires i < |events|
    ensures CreatedWithin(events[..i + 1], id) <==>
            (events[0].body.EscrowCreated? && events[0].body.id == id) || CreatedWithin(events[1..][..i], id)
  {
    var (all, tail) := (events[..i + 1], events[1..][..i]);
    assert all == [events[0]] + tail;
    if CreatedWithin(tail, id) {
      var j :| 0 <= j < |tail| && tail[j].body.EscrowCreated? && tail[j].body.id == id;
      assert all[j + 1] == tail[j];
    }
    if CreatedWithin(all, id) {
      var j :| 0 <= j < |all| && all[j].body.EscrowCreated? && all[j].body.id == id;
      assert j > 0 ==> tail[j - 1] == all[j];
    }
  }

  /** Processing the first event leaves the others as ready as they were. */
  lemma ReadyInTail(s: Store, events: seq<Event>, i: nat)
    requires i + 1 < |events| && Transact(s, events[0]).Some?
    ensures Ready(Transact(s, events[0]).value.db, events[1..], i) <==> Ready(s.db, events, i + 1)
  {
    var e := events[i + 1];
    assert events[1..][i] == e;
    if e.body.DisputeRaised? {
      OnlyCreationAddsEscrows(s.db, events[0], e.body.id);
      CreatedInTail(events, i, e.body.id);
    }
  }

  /** A pass from any store commits the events before the first one that is not ready, and stops there. */
  lemma {:induction false} StopsAtFirstUnready(s: Store, events: seq<Event>)
    ensures forall i :: 0 <= i < Committed(s, events) ==> Ready(s.db, events, i)
    ensures Committed(s, events) < |events| ==> !Ready(s.db, events, Committed(s, events))
    decreases |events|
  {
    if events != [] && Transact(s, events[0]).Some? {
      var next := Transact(s, events[0]).value;
      StopsAtFirstUnready(next, events[1..]);
      var n := Committed(next, events[1..]);
      forall i | 0 <= i < n + 1 ensures Ready(s.db, events, i) {
        if i > 0 {
          ReadyInTail(s, events, i - 1);
        }
      }
      if n < |events[1..]| {
        ReadyInTail(s, events, n);
      }
    }
  }

  /** A log is processed to its end exactly when all its events are of a supported version and every dispute finds the
      escrow row it names, stored before or created earlier in the log. */
  lemma ProcessedToTheEndIff(s: Store, events: seq<Event>)
    ensures Committed(s, events) == |events| <==> forall i :: 0 <= i < |events| ==> Ready(s.db, events, i)
  {
    StopsAtFirstUnready(s, events);
  }

  // ── Applying part of a log again ──

  /** The row operations of a log, in order. */
  function AllWrites(events: seq<Event>): seq<Write> {
    Flatten(Writes, events)
  }

  /** Every update finds its row: creation precedes updates. */
  ghost predicate UpdatesFound(db: Db, ws: seq<Write>)
    decreases |ws|
  {
    ws == [] || ((ws[0].UpdateIfPresent? ==> ws[0].key in db) && UpdatesFound(Apply(db, ws[0]), ws[1..]))
  }

  /** Guarded writes come in ledger order, starting no earlier than `bound`. */
  ghost predicate LedgersFrom(ws: seq<Write>, bound: nat)
    decreases |ws|
  {
    ws == [] || (
      && (ws[0].GuardedUpsert? ==> bound <= ws[0].ledger)
      && LedgersFrom(ws[1..], if ws[0].GuardedUpsert? then ws[0].ledger else bound))
  }

  ghost predicate RowsBelow(db: Db, bound: nat) {
    forall k :: k in db && Guarded(k) ==> Stored(db[k]) <= bound
  }

  ghost predicate AllWellFormed(ws: seq<Write>) {
    forall i :: 0 <= i < |ws| ==> WellFormed(ws[i])
  }

  lemma {:induction false} FoundIsGrounded(db: Db, ws: seq<Write>, k: Key, bound: nat)
    requires AllWellFormed(ws) && UpdatesFound(db, ws) && LedgersFrom(ws, bound) && RowsBelow(db, bound)
    ensures Grounded(ws, k, Lookup(db, k))
    decreases |ws|
  {
    if ws != [] {
      assert WellFormed(ws[0]);
      var next := Apply(db, ws[0]);
      assert Lookup(next, k) == if ws[0].key == k then Step(ws[0], Lookup(db, k)) else Lookup(db, k);
      assert RowsBelow(next, if ws[0].GuardedUpsert? then ws[0].ledger else bound);
      FoundIsGrounded(next, ws[1..], k, if ws[0].GuardedUpsert? then ws[0].ledger else bound);
    }
  }

  lemma {:induction false} ConfigWellFormed(entries: seq<(string, Value)>, time: Value, ledger: nat)
    ensures AllWellFormed(ConfigWrites(entries, time, ledger))
  {
    if entries != [] {
      ConfigWellFormed(entries[1..], time, ledger);
      assert forall i :: 0 < i < |ConfigWrites(entries, time, ledger)| ==>
        ConfigWrites(entries, time, ledger)[i] == ConfigWrites(entries[1..], time, ledger)[i - 1];
    }
  }

  lemma {:induction false} ConfigInOrder(entries: seq<(string, Value)>, time: Value, ledger: nat, rest: seq<Write>)
    requires LedgersFrom(rest, ledger)
    ensures LedgersFrom(ConfigWrites(entries, time, ledger) + rest, ledger)
  {
    if entries == [] {
      assert ConfigWrites(entries, time, ledger) + rest == rest;
    } else {
      ConfigInOrder(entries[1..], time, ledger, rest);
      var ws := ConfigWrites(entries, time, ledger);
      assert (ws + rest)[1..] == ConfigWrites(entries[1..], time, ledger) + rest;
    }
  }

  lemma WritesWellFormed(e: Event)
    ensures AllWellFormed(Writes(e))
  {
    if e.body.ConfigChanged? {
      ConfigWellFormed(e.body.entries, e.body.time, e.cursor.ledger);
    }
  }

  lemma {:induction false} LedgersLater(ws: seq<Write>, bound: nat, later: nat)
    requires LedgersFrom(ws, later) && bound <= later
    ensures LedgersFrom(ws, bound)
    decreases |ws|
  {
    if ws != [] && !ws[0].GuardedUpsert? {
      LedgersLater(ws[1..], bound, later);
    }
  }

  lemma WritesInOrder(e: Event, rest: seq<Write>)
    requires LedgersFrom(rest, e.cursor.ledger)
    ensures LedgersFrom(Writes(e) + rest, e.cursor.ledger)
  {
    var ws := Writes(e);
    if e.body.ConfigChanged? {
      ConfigInOrder(e.body.entries, e.body.time, e.cursor.ledger, rest);
    } else if |ws| == 0 {
      assert ws + rest == rest;
    } else if |ws| == 1 {
      assert (ws + rest)[1..] == rest;
    } else {
      assert (ws + rest)[1..] == [ws[1]] + rest && ([ws[1]] + rest)[1..] == rest;
    }
  }

  lemma {:induction false} LogInOrder(events: seq<Event>, bound: nat)
    requires Ascending(events) && (events != [] ==> bound <= events[0].cursor.ledger)
    ensures AllWellFormed(AllWrites(events)) && LedgersFrom(AllWrites(events), bound)
    decreases |events|
  {
    if events != [] {
      var first := events[0].cursor.ledger;
      assert |events| > 1 ==> After(PositionOf(events[1]), PositionOf(events[0]));
      LogInOrder(events[1..], first);
      WritesWellFormed(events[0]);
      WritesInOrder(events[0], AllWrites(events[1..]));
      LedgersLater(AllWrites(events), bound, first);
    }
  }

  lemma {:induction false} KeysStay(db: Db, ws: seq<Write>, k: Key)
    requires k in db
    ensures k in ApplyAll(db, ws)
    decreases |ws|
  {
    if ws != [] {
      KeysStay(Apply(db, ws[0]), ws[1..], k);
    }
  }

  /** A pass that commits everything: its tables are the log's row operations, its log gains every event, and its cursor
      is the last position. */
  lemma {:induction false} FullPass(s: Store, events: seq<Event>)
    requires Committed(s, events) == |events|
    ensures var f := Ingest(s, events);
            && f.db == ApplyAll(s.db, AllWrites(events))
            && (forall c :: c in s.log ==> c in f.log && f.log[c] == s.log[c])
            && (forall i :: 0 <= i < |events| ==> events[i].cursor in f.log)
            && (forall i :: 0 <= i < |events| && events[i].body.DisputeRaised? ==> EscrowKey(events[i].body.id) in f.db)
            && (forall i :: 0 <= i < |events| ==> events[i].version <= SUPPORTED_SCHEMA_VERSION)
            && f.cursor == (if events == [] then s.cursor else events[|events| - 1].cursor)
    decreases |events|
  {
    if events != [] {
      var next := Transact(s, events[0]).value;
      FullPass(next, events[1..]);
      ApplyAppend(s.db, Writes(events[0]), AllWrites(events[1..]));
      if events[0].body.DisputeRaised? {
        KeysStay(s.db, AllWrites(events), EscrowKey(events[0].body.id));
      }
      forall i | 0 < i < |events| ensures events[i] == events[1..][i - 1] {
      }
    }
  }

  /** A list of events that are logged already and find their foreign keys commits in full. */
  lemma {:induction false} AgainCommits(s: Store, events: seq<Event>)
    requires forall i :: 0 <= i < |events| ==>
               && events[i].cursor in s.log && events[i].version <= SUPPORTED_SCHEMA_VERSION
               && (events[i].body.DisputeRaised? ==> EscrowKey(events[i].body.id) in s.db)
    ensures Committed(s, events) == |events| && Ingest(s, events).log == s.log
    decreases |events|
  {
    if events != [] {
      var next := Transact(s, events[0]).value;
      forall i | 0 <= i < |events[1..]| && events[1..][i].body.DisputeRaised?
        ensures EscrowKey(events[1..][i].body.id) in next.db
      {
        assert events[1..][i] == events[i + 1];
        KeysStay(s.db, Writes(events[0]), EscrowKey(events[i + 1].body.id));
      }
      AgainCommits(next, events[1..]);
    }
  }

  lemma {:induction false} GroundedLater(ws: seq<Write>, db: Db, n: nat)
    requires UpdatesFound(db, ws) && n <= |ws|
    ensures UpdatesFound(ApplyAll(db, ws[..n]), ws[n..])
    decreases |ws|
  {
    if n > 0 {
      GroundedLater(ws[1..], Apply(db, ws[0]), n - 1);
      assert ws[..n][1..] == ws[1..][..n - 1] && ws[n..] == ws[1..][n - 1..];
    } else {
      assert ws[..0] == [] && ws[0..] == ws;
    }
  }

  lemma {:induction false} RowsStayBelow(db: Db, ws: seq<Write>, bound: nat, top: nat)
    requires AllWellFormed(ws) && RowsBelow(db, bound) && bound <= top
    requires forall i :: 0 <= i < |ws| && ws[i].GuardedUpsert? ==> ws[i].ledger <= top
    ensures RowsBelow(ApplyAll(db, ws), top)
    decreases |ws|
  {
    if ws != [] {
      assert WellFormed(ws[0]);
      assert RowsBelow(Apply(db, ws[0]), top);
      RowsStayBelow(Apply(db, ws[0]), ws[1..], top, top);
    }
  }

  lemma {:induction false} ConfigLedgers(entries: seq<(string, Value)>, time: Value, ledger: nat)
    ensures forall w :: w in ConfigWrites(entries, time, ledger) ==> w.GuardedUpsert? && w.ledger == ledger
  {
    if entries != [] {
      ConfigLedgers(entries[1..], time, ledger);
    }
  }

  lemma WriteLedgers(e: Event)
    ensures forall w :: w in Writes(e) && w.GuardedUpsert? ==> w.ledger == e.cursor.ledger
  {
    if e.body.ConfigChanged? {
      ConfigLedgers(e.body.entries, e.body.time, e.cursor.ledger);
    }
  }

  lemma {:induction false} LogLedgers(events: seq<Event>, top: nat)
    requires forall i :: 0 <= i < |events| ==> events[i].cursor.ledger <= top
    ensures forall w :: w in AllWrites(events) && w.GuardedUpsert? ==> w.ledger <= top
    decreases |events|
  {
    if events != [] {
      WriteLedgers(events[0]);
      LogLedgers(events[1..], top);
    }
  }

  lemma SuffixFindsUpdates(events: seq<Event>, i: nat)
    requires i <= |events| && UpdatesFound(map[], AllWrites(events))
    ensures UpdatesFound(ApplyAll(map[], AllWrites(events[..i])), AllWrites(events[i..]))
  {
    var (p, s) := (events[..i], events[i..]);
    assert p + s == events;
    FlattenAppend(Writes, p, s);
    var ws := AllWrites(p);
    GroundedLater(AllWrites(events), map[], |ws|);
    assert AllWrites(events)[..|ws|] == ws && AllWrites(events)[|ws|..] == AllWrites(s);
  }

  lemma PrefixRowsBelow(events: seq<Event>, i: nat)
    requires Ascending(events) && i < |events|
    ensures RowsBelow(ApplyAll(map[], AllWrites(events[..i])), events[i].cursor.ledger)
  {
    var (p, top) := (events[..i], events[i].cursor.ledger);
    AscendingPart(events, 0, i);
    LogInOrder(p, 0);
    forall j | 0 <= j < |p| ensures p[j].cursor.ledger <= top {
      assert After(PositionOf(events[i]), PositionOf(events[j]));
    }
    LogLedgers(p, top);
    RowsStayBelow(map[], AllWrites(p), 0, top);
  }

  lemma AscendingPart(events: seq<Event>, i: nat, j: nat)
    requires Ascending(events) && i <= j <= |events|
    ensures Ascending(events[i..j])
  {
  }

  /** The tables before a suffix of the log are ready for it. */
  lemma SuffixIsGrounded(events: seq<Event>, i: nat, k: Key)
    requires Ascending(events) && i < |events| && UpdatesFound(map[], AllWrites(events))
    ensures Grounded(AllWrites(events[i..]), k, Lookup(ApplyAll(map[], AllWrites(events[..i])), k))
  {
    SuffixFindsUpdates(events, i);
    PrefixRowsBelow(events, i);
    AscendingPart(events, i, |events|);
    LogInOrder(events[i..], events[i].cursor.ledger);
    FoundIsGrounded(ApplyAll(map[], AllWrites(events[..i])), AllWrites(events[i..]), k, events[i].cursor.ledger);
  }

  /** The first row operation of a dispute updates the escrow row its foreign key names. */
  lemma DisputeFindsEscrow(db: Db, e: Event, rest: seq<Write>)
    requires e.body.DisputeRaised? && UpdatesFound(db, Writes(e) + rest)
    ensures EscrowKey(e.body.id) in db
  {
    assert (Writes(e) + rest)[0] == Writes(e)[0];
  }

  /** A log of supported versions that creates rows before updating them is processed to its end. */
  lemma {:induction false} FoundUpdatesCommit(s: Store, events: seq<Event>)
    requires UpdatesFound(s.db, AllWrites(events))
    requires forall i :: 0 <= i < |events| ==> events[i].version <= SUPPORTED_SCHEMA_VERSION
    ensures Committed(s, events) == |events|
    decreases |events|
  {
    if events != [] {
      var (ws, rest) := (Writes(events[0]), AllWrites(events[1..]));
      if events[0].body.DisputeRaised? {
        DisputeFindsEscrow(s.db, events[0], rest);
      }
      GroundedLater(ws + rest, s.db, |ws|);
      assert (ws + rest)[..|ws|] == ws && (ws + rest)[|ws|..] == rest;
      FoundUpdatesCommit(Transact(s, events[0]).value, events[1..]);
    }
  }

  /** Applying any suffix of a log again, to the store that the whole log produced, changes nothing: no table, no log
      entry, not the cursor. The log is ascending, of supported versions, and creates rows before updating them. */
  lemma ReapplyingSuffixIsIdentity(events: seq<Event>, i: nat)
    requires Ascending(events) && UpdatesFound(map[], AllWrites(events)) && i <= |events|
    requires forall j :: 0 <= j < |events| ==> events[j].version <= SUPPORTED_SCHEMA_VERSION
    ensures var final := Ingest(Store(map[], map[], ORIGIN), events);
            Ingest(final, events[i..]) == final
  {
    var s0 := Store(map[], map[], ORIGIN);
    var final, before, s := Ingest(s0, events), Ingest(s0, events[..i]), events[i..];
    FoundUpdatesCommit(s0, events);
    Batches.CommittedPrefix(Transact, s0, events, i);
    FullPass(s0, events);
    FullPass(s0, events[..i]);
    FullPass(before, s);
    if i < |events| {
      forall k ensures Grounded(AllWrites(s), k, Lookup(before.db, k)) {
        SuffixIsGrounded(events, i, k);
      }
      WritingTwice(before.db, AllWrites(s));
    }
    AgainCommits(final, s);
    FullPass(final, s);
  }
}
