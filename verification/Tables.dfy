/** The indexer's materialized tables and the row operations its handlers issue (`apply.ts`, `schema.sql`). */
module Tables {

  datatype Option<+T> = None | Some(value: T)

  datatype Table = Escrows | Disputes | Baskets | Ballots | Messages | ConfigRows | TokenRows | ResolverRows

  /** A primary key; `sub` is empty for single-column keys. */
  datatype Key = Key(table: Table, id: string, sub: string)

  /** The columns of `schema.sql`; `SettingValue` is the one named `value`. */
  datatype Column =
    | Seller | Buyer | Resolver | Token | Amount | FeeBps | ResolverFeeBps | ShippingWindow | State
    | FundedAt | ShippedAt | TrackingId | DeliveredAt | CompletedAt | CancelledAt | CreatedAt | UpdatedLedger
    | Reason | Description | EvidenceHash | Status | DisputedAt | Resolution | ResolvedAt | AppealDeadline
    | TokenCount | VoteCount | Threshold | VotedAt | EscrowId | Sender | PostedAt
    | SettingValue | UpdatedAt | Allowed | Approved

  datatype Value = Null | Text(s: string) | Num(n: int) | Flag(on: bool)

  type Row = map<Column, Value>

  type Db = map<Key, Row>

  datatype Write =
    /** `INSERT ... ON CONFLICT DO NOTHING`. */
    | InsertIfAbsent(key: Key, row: Row)
    /** `UPDATE ... WHERE key`. */
    | UpdateIfPresent(key: Key, sets: Row)
    /** `INSERT ... ON CONFLICT DO UPDATE SET`: the columns of `sets` only. */
    | Upsert(key: Key, row: Row, sets: Row)
    /** The ledger-guarded upsert of the configuration tables. */
    | GuardedUpsert(key: Key, row: Row, ledger: nat)

  function Stored(row: Row): int {
    if UpdatedLedger in row && row[UpdatedLedger].Num? then row[UpdatedLedger].n else 0
  }

  /** What a write does to the row under its key. */
  function Step(w: Write, r: Option<Row>): Option<Row> {
    match w
    case InsertIfAbsent(_, row) => if r.Some? then r else Some(row)
    case UpdateIfPresent(_, sets) => if r.Some? then Some(r.value + sets) else None
    case Upsert(_, row, sets) => if r.Some? then Some(r.value + sets) else Some(row)
    case GuardedUpsert(_, row, ledger) => if r.Some? && Stored(r.value) > ledger then r else Some(row)
  }

  function Lookup(db: Db, k: Key): Option<Row> {
    if k in db then Some(db[k]) else None
  }

  function Apply(db: Db, w: Write): Db {
    var r := Step(w, Lookup(db, w.key));
    if r.Some? then db[w.key := r.value] else db
  }

  function ApplyAll(db: Db, ws: seq<Write>): Db
    decreases |ws|
  {
    if ws == [] then db else ApplyAll(Apply(db, ws[0]), ws[1..])
  }

  lemma {:induction false} ApplyAppend(db: Db, a: seq<Write>, b: seq<Write>)
    ensures ApplyAll(db, a + b) == ApplyAll(ApplyAll(db, a), b)
    decreases |a|
  {
    if a == [] {
      assert a + b == b;
    } else {
      assert (a + b)[1..] == a[1..] + b;
      ApplyAppend(Apply(db, a[0]), a[1..], b);
    }
  }

  /** The writes of a list of events, in order. */
  function Flatten<E>(writes: E -> seq<Write>, events: seq<E>): seq<Write> {
    if events == [] then [] else writes(events[0]) + Flatten(writes, events[1..])
  }

  lemma {:induction false} FlattenAppend<E>(writes: E -> seq<Write>, a: seq<E>, b: seq<E>)
    ensures Flatten(writes, a + b) == Flatten(writes, a) + Flatten(writes, b)
  {
    if a == [] {
      assert a + b == b;
    } else {
      assert (a + b)[1..] == a[1..] + b;
      FlattenAppend(writes, a[1..], b);
    }
  }

  // ── One row at a time ──

  /** The row under `k` after the writes that name it. */
  function RowAfter(ws: seq<Write>, k: Key, r: Option<Row>): Option<Row>
    decreases |ws|
  {
    if ws == [] then r
    else RowAfter(ws[1..], k, if ws[0].key == k then Step(ws[0], r) else r)
  }

  /** Rows evolve independently. */
  lemma {:induction false} RowsAreIndependent(db: Db, ws: seq<Write>, k: Key)
    ensures Lookup(ApplyAll(db, ws), k) == RowAfter(ws, k, Lookup(db, k))
    decreases |ws|
  {
    if ws != [] {
      assert Lookup(Apply(db, ws[0]), k) == if ws[0].key == k then Step(ws[0], Lookup(db, k)) else Lookup(db, k);
      RowsAreIndependent(Apply(db, ws[0]), ws[1..], k);
    }
  }

  // ── Writing twice ──

  predicate Guarded(k: Key) {
    k.table == ConfigRows || k.table == TokenRows || k.table == ResolverRows
  }

  /** The shape handlers give their writes: guarded writes on the configuration tables and nowhere else, carrying their
      ledger; an upsert's inserted row agrees with the columns it would set. */
  ghost predicate WellFormed(w: Write) {
    && (w.GuardedUpsert? <==> Guarded(w.key))
    && (w.GuardedUpsert? ==> UpdatedLedger in w.row && w.row[UpdatedLedger] == Num(w.ledger))
    && (w.Upsert? ==> forall c :: c in w.sets ==> c in w.row && w.row[c] == w.sets[c])
  }

  /** The writes find what they update, and guarded writes come in ledger order. */
  ghost predicate Grounded(ws: seq<Write>, k: Key, r: Option<Row>)
    decreases |ws|
  {
    ws == [] || (
      && (ws[0].key == k ==>
            && WellFormed(ws[0])
            && (ws[0].UpdateIfPresent? ==> r.Some?)
            && (ws[0].GuardedUpsert? && r.Some? ==> Stored(r.value) <= ws[0].ledger))
      && Grounded(ws[1..], k, if ws[0].key == k then Step(ws[0], r) else r))
  }

  function Cell(r: Row, c: Column): Option<Value> {
    if c in r then Some(r[c]) else None
  }

  /** How a row being written again (`again`) relates to the first time around (`first`) and to its outcome (`final`):
      column by column it is already final or in step; a guarded row is final or in step as a whole. */
  ghost predicate InStep(k: Key, again: Row, first: Option<Row>, final: Row) {
    if Guarded(k) then again == final || first == Some(again)
    else forall c :: Cell(again, c) == Cell(final, c) || (first.Some? && Cell(again, c) == Cell(first.value, c))
  }

  lemma StepStaysInStep(w: Write, k: Key, again: Row, first: Option<Row>, final: Row)
    requires w.key == k && WellFormed(w) && InStep(k, again, first, final)
    requires w.UpdateIfPresent? ==> first.Some?
    requires w.GuardedUpsert? && first.Some? ==> Stored(first.value) <= w.ledger
    ensures Step(w, Some(again)).Some? && InStep(k, Step(w, Some(again)).value, Step(w, first), final)
  {
  }

  lemma {:induction false} SecondPassFollows(ws: seq<Write>, k: Key, again: Row, first: Option<Row>, final: Row)
    requires Grounded(ws, k, first) && RowAfter(ws, k, first) == Some(final) && InStep(k, again, first, final)
    ensures RowAfter(ws, k, Some(again)) == Some(final)
    decreases |ws|
  {
    if ws == [] {
      if !Guarded(k) {
        assert forall c :: Cell(again, c) == Cell(final, c);
        assert again == final by {
          forall c ensures c in again <==> c in final {
            assert Cell(again, c) == Cell(final, c);
          }
          forall c | c in again ensures again[c] == final[c] {
            assert Cell(again, c) == Cell(final, c);
          }
        }
      }
    } else if ws[0].key == k {
      StepStaysInStep(ws[0], k, again, first, final);
      SecondPassFollows(ws[1..], k, Step(ws[0], Some(again)).value, Step(ws[0], first), final);
    } else {
      SecondPassFollows(ws[1..], k, again, first, final);
    }
  }

  lemma {:induction false} NeverWritten(ws: seq<Write>, k: Key, first: Option<Row>)
    requires Grounded(ws, k, first) && RowAfter(ws, k, first).None?
    ensures RowAfter(ws, k, None).None?
    decreases |ws|
  {
    if ws != [] {
      if ws[0].key == k {
        StaysPresent(ws[1..], k, Step(ws[0], first));
        assert false;
      } else {
        NeverWritten(ws[1..], k, first);
      }
    }
  }

  lemma {:induction false} StaysPresent(ws: seq<Write>, k: Key, r: Option<Row>)
    requires r.Some?
    ensures RowAfter(ws, k, r).Some?
    decreases |ws|
  {
    if ws != [] {
      StaysPresent(ws[1..], k, if ws[0].key == k then Step(ws[0], r) else r);
    }
  }

  /** Writing a grounded list again to its own outcome changes no row. */
  lemma WritingTwice(db: Db, ws: seq<Write>)
    requires forall k :: Grounded(ws, k, Lookup(db, k))
    ensures ApplyAll(ApplyAll(db, ws), ws) == ApplyAll(db, ws)
  {
    var once := ApplyAll(db, ws);
    var twice := ApplyAll(once, ws);
    forall k ensures Lookup(twice, k) == Lookup(once, k) {
      RowsAreIndependent(db, ws, k);
      RowsAreIndependent(once, ws, k);
      assert Grounded(ws, k, Lookup(db, k));
      if k in once {
        SecondPassFollows(ws, k, once[k], Lookup(db, k), once[k]);
      } else {
        NeverWritten(ws, k, Lookup(db, k));
      }
    }
    assert forall k :: k in twice <==> k in once by {
      forall k ensures k in twice <==> k in once {
        assert Lookup(twice, k) == Lookup(once, k);
      }
    }
    forall k | k in once ensures twice[k] == once[k] {
      assert Lookup(twice, k) == Lookup(once, k);
    }
  }
}
