/** What the indexer's tables hold after a log, told by the payloads of its events: for every row, the event that
    created it and, column by column, the last event that spoke about it. */
module Contents {
  import opened Polling
  import opened Tables
  import opened Replay

  // ── What events say ──

  predicate About(e: Event, id: string) {
    !e.body.ConfigChanged? && !e.body.TokenListed? && !e.body.ResolverListed? && !e.body.Unhandled? && e.body.id == id
  }

  function When(c: bool, v: Value): Option<Value> {
    if c then Some(v) else None
  }

  /** What an event says about a column of escrow `id`. The terms of the sale are settled by its creation. */
  function SaysOfEscrow(e: Event, column: Column): Option<Value> {
    match column
    case Buyer => When(e.body.EscrowFunded?, if e.body.EscrowFunded? then e.body.buyer else Null)
    case FundedAt => When(e.body.EscrowFunded?, if e.body.EscrowFunded? then e.body.time else Null)
    case ShippedAt => When(e.body.EscrowShipped?, if e.body.EscrowShipped? then e.body.time else Null)
    case TrackingId => When(e.body.EscrowShipped?, if e.body.EscrowShipped? then e.body.tracking else Null)
    case DeliveredAt => When(e.body.EscrowDelivered?, if e.body.EscrowDelivered? then e.body.time else Null)
    case Resolver => When(e.body.ResolverRotated?, if e.body.ResolverRotated? then e.body.resolver else Null)
    case State => NewState(e.body)
    case CompletedAt => CompletionTime(e.body)
    case CancelledAt =>
      if e.body.EscrowClosed? && e.body.canceled then Some(e.body.time) else None
    case UpdatedLedger => When(Touches(e.body), Num(e.cursor.ledger))
    case _ => None
  }

  /** The state an event carries or implies. */
  function NewState(b: Body): Option<Value> {
    match b
    case EscrowFunded(_, _, state, _) => Some(state)
    case EscrowShipped(_, _, state, _) => Some(state)
    case EscrowClosed(_, state, _, _) => Some(state)
    case RefundRequested(_, state) => Some(state)
    case RefundApproved(_, state, _) => Some(state)
    case DisputeRaised(_, _, _, _, _, state, _) => Some(state)
    case DisputeResolved(_, _, _, state, _) => Some(state)
    case DisputePending(_, _, _) => Some(Text("PendingFinalization"))
    case DisputeAppealed(_) => Some(Text("Disputed"))
    case _ => None
  }

  /** When an escrow was completed, refunded on request, or closed by a dispute. */
  function CompletionTime(b: Body): Option<Value> {
    match b
    case EscrowClosed(_, _, time, canceled) => if canceled then None else Some(time)
    case RefundApproved(_, _, time) => Some(time)
    case DisputeResolved(_, _, _, _, time) => Some(time)
    case _ => None
  }

  /** Events that concern an escrow row at all. */
  predicate Touches(b: Body) {
    NewState(b).Some? || b.EscrowDelivered? || b.ResolverRotated?
  }

  /** What an event says about a column of the dispute on escrow `id`. */
  function SaysOfDispute(b: Body, column: Column): Option<Value> {
    match b
    case DisputeRaised(_, buyer, reason, description, evidence, _, time) =>
      (match column
       case Buyer => Some(buyer)
       case Reason => Some(reason)
       case Description => Some(description)
       case EvidenceHash => Some(evidence)
       case DisputedAt => Some(time)
       case Status => Some(Text("Active"))
       case AppealDeadline => None
       case _ => Some(Null))
    case DisputeResolved(_, resolution, resolver, _, time) =>
      (match column
       case Status => Some(Text("Resolved"))
       case Resolution => Some(resolution)
       case Resolver => Some(resolver)
       case ResolvedAt => Some(time)
       case _ => None)
    case DisputePending(_, deadline, resolver) =>
      (match column
       case AppealDeadline => Some(deadline)
       case Resolver => Some(resolver)
       case _ => None)
    case _ => None
  }

  /** The last value an entry list gives a setting. */
  function LastEntry(entries: seq<(string, Value)>, name: string): Option<Value> {
    if entries == [] then None
    else if entries[|entries| - 1].0 == name then Some(entries[|entries| - 1].1)
    else LastEntry(entries[..|entries| - 1], name)
  }

  /** The row of a configuration table an event writes, if it is about row `k`: its value, and when. */
  function SettingOf(e: Event, k: Key): Option<(Value, Value)> {
    match e.body
    case ConfigChanged(entries, time) =>
      if k == Key(ConfigRows, k.id, "") && LastEntry(entries, k.id).Some?
      then Some((LastEntry(entries, k.id).value, time)) else None
    case TokenListed(name, allowed, time) => if k == Key(TokenRows, name, "") then Some((allowed, time)) else None
    case ResolverListed(name, approved, time) =>
      if k == Key(ResolverRows, name, "") then Some((approved, time)) else None
    case _ => None
  }

  function ValueColumn(t: Table): Column {
    match t
    case TokenRows => Allowed
    case ResolverRows => Approved
    case _ => SettingValue
  }

  /** What an event says about a column of an existing row. */
  function Says(e: Event, k: Key, column: Column): Option<Value> {
    match k.table
    case Escrows => if About(e, k.id) && k.sub == "" then SaysOfEscrow(e, column) else None
    case Disputes => if About(e, k.id) && k.sub == "" then SaysOfDispute(e.body, column) else None
    case Messages => None
    case _ => if Creates(e, k) then Some(AtFirst(e, k, column)) else None
  }

  /** Events that bring a row into being. */
  predicate Creates(e: Event, k: Key) {
    match k.table
    case Escrows => e.body.EscrowCreated? && k == Key(Escrows, e.body.id, "")
    case Disputes => e.body.DisputeRaised? && k == Key(Disputes, e.body.id, "")
    case Baskets => e.body.BasketCreated? && k == Key(Baskets, e.body.id, "")
    case Ballots => e.body.VoteRecorded? && k == Key(Ballots, e.body.id, e.body.voter)
    case Messages => e.body.MessagePosted? && k == MessageKey(e.cursor)
    case _ => SettingOf(e, k).Some?
  }

  function Columns(t: Table): set<Column> {
    match t
    case Escrows =>
      {Seller, Buyer, Resolver, Token, Amount, FeeBps, ResolverFeeBps, ShippingWindow, State,
       FundedAt, ShippedAt, TrackingId, DeliveredAt, CompletedAt, CancelledAt, CreatedAt,
       UpdatedLedger}
    case Disputes =>
      {Buyer, Reason, Description, EvidenceHash, Status, DisputedAt, Resolution, Resolver,
       ResolvedAt, AppealDeadline}
    case Baskets => {Seller, TokenCount, CreatedAt, UpdatedLedger}
    case Ballots => {Resolution, VoteCount, Threshold, VotedAt, UpdatedLedger}
    case Messages => {EscrowId, Sender, PostedAt}
    case _ => {ValueColumn(t), UpdatedAt, UpdatedLedger}
  }

  /** The columns of a new row. */
  function AtFirst(e: Event, k: Key, column: Column): Value
    requires Creates(e, k)
  {
    match e.body
    case EscrowCreated(_, seller, resolver, token, amount, feeBps, resolverFeeBps, window, state, time) =>
      (match column
       case Seller => seller
       case Resolver => resolver
       case Token => token
       case Amount => amount
       case FeeBps => feeBps
       case ResolverFeeBps => resolverFeeBps
       case ShippingWindow => window
       case State => state
       case CreatedAt => time
       case UpdatedLedger => Num(e.cursor.ledger)
       case _ => Null)
    case DisputeRaised(_, _, _, _, _, _, _) =>
      if SaysOfDispute(e.body, column).Some? then SaysOfDispute(e.body, column).value else Null
    case BasketCreated(_, seller, count, time) =>
      (match column
       case Seller => seller
       case TokenCount => count
       case CreatedAt => time
       case _ => Num(e.cursor.ledger))
    case VoteRecorded(_, _, resolution, count, threshold, time) =>
      (match column
       case Resolution => resolution
       case VoteCount => count
       case Threshold => threshold
       case VotedAt => time
       case _ => Num(e.cursor.ledger))
    case MessagePosted(id, sender, time) =>
      (match column
       case EscrowId => Text(id)
       case Sender => sender
       case _ => time)
    case _ =>
      if column == UpdatedAt then SettingOf(e, k).value.1
      else if column == UpdatedLedger then Num(e.cursor.ledger)
      else SettingOf(e, k).value.0
  }

  // ── One event ──

  /** What one event makes of row `k`. */
  ghost predicate RowTold(e: Event, k: Key, before: Option<Row>, after: Option<Row>) {
    match before
    case None =>
      && (after.Some? <==> Creates(e, k))
      && (after.Some? ==>
            && after.value.Keys == Columns(k.table)
            && forall c :: c in after.value ==> after.value[c] == AtFirst(e, k, c))
    case Some(row) =>
      && after.Some? && after.value.Keys == Columns(k.table)
      && forall c :: c in row && c in after.value ==>
           after.value[c] == if Says(e, k, c).Some? then Says(e, k, c).value else row[c]
  }

  ghost predicate Shaped(k: Key, row: Option<Row>, ledger: nat) {
    row.Some? ==> row.value.Keys == Columns(k.table) && (Guarded(k) ==> Stored(row.value) <= ledger)
  }

  // ── How row operations tell it ──

  lemma SilenceTells(e: Event, k: Key, row: Option<Row>)
    requires row.Some? ==> row.value.Keys == Columns(k.table)
    requires !Creates(e, k) && forall c :: Says(e, k, c).None?
    ensures RowTold(e, k, row, row)
  {
  }

  lemma UpdateTells(e: Event, k: Key, row: Option<Row>, sets: Row)
    requires row.Some? ==> row.value.Keys == Columns(k.table)
    requires !Creates(e, k) && sets.Keys <= Columns(k.table) && forall c :: Says(e, k, c) == Cell(sets, c)
    ensures RowTold(e, k, row, if row.Some? then Some(row.value + sets) else None)
  {
    if row.Some? {
      var after := row.value + sets;
      forall c | c in after
        ensures after[c] == if Says(e, k, c).Some? then Says(e, k, c).value else row.value[c]
      {
        assert Says(e, k, c) == Cell(sets, c);
      }
    }
  }

  lemma CreationTells(e: Event, k: Key, row: Row)
    requires Creates(e, k) && row.Keys == Columns(k.table) && forall c :: c in row ==> row[c] == AtFirst(e, k, c)
    ensures RowTold(e, k, None, Some(row))
  {
  }

  lemma RewritingTells(e: Event, k: Key, before: Row, sets: Row)
    requires before.Keys == Columns(k.table) && sets.Keys <= Columns(k.table)
    requires forall c :: c in Columns(k.table) ==> Says(e, k, c) == Cell(sets, c)
    ensures RowTold(e, k, Some(before), Some(before + sets))
  {
    var after := before + sets;
    forall c | c in before && c in after
      ensures after[c] == if Says(e, k, c).Some? then Says(e, k, c).value else before[c]
    {
      assert c in Columns(k.table) && Says(e, k, c) == Cell(sets, c);
    }
  }

  /** An event with one row operation. */
  lemma OneWrite(e: Event, k: Key, before: Option<Row>)
    requires |Writes(e)| == 1
    ensures RowAfter(Writes(e), k, before) == if Writes(e)[0].key == k then Step(Writes(e)[0], before) else before
  {
    assert Writes(e)[1..] == [];
  }

  lemma TwoWrites(e: Event, k: Key, before: Option<Row>)
    requires |Writes(e)| == 2 && Writes(e)[0].key != Writes(e)[1].key
    ensures RowAfter(Writes(e), k, before)
         == if Writes(e)[0].key == k then Step(Writes(e)[0], before)
            else if Writes(e)[1].key == k then Step(Writes(e)[1], before)
            else before
  {
    var ws := Writes(e);
    var rest := ws[1..];
    assert rest == [ws[1]] && rest[1..] == [];
    var middle := if ws[0].key == k then Step(ws[0], before) else before;
    assert RowAfter(ws, k, before) == RowAfter(rest, k, middle);
    assert RowAfter(rest, k, middle) == if ws[1].key == k then Step(ws[1], middle) else middle;
  }

  // ── Escrow rows ──

  /** An event that touches an escrow row sets exactly the columns it speaks about. */
  ghost predicate Edits(e: Event, c: Column) {
    SaysOfEscrow(e, c) == Cell(EscrowEdits(e.body, Num(e.cursor.ledger)), c)
  }

  lemma SaleEdits(e: Event, c: Column)
    requires e.body.EscrowFunded? || e.body.EscrowShipped? || e.body.EscrowDelivered?
    ensures Edits(e, c)
  {
  }

  lemma ClosingEdits(e: Event, c: Column)
    requires e.body.EscrowClosed?
    ensures Edits(e, c)
  {
  }

  lemma RefundEdits(e: Event, c: Column)
    requires e.body.ResolverRotated? || e.body.RefundRequested? || e.body.RefundApproved?
    ensures Edits(e, c)
  {
  }

  lemma RulingEdits(e: Event, c: Column)
    requires e.body.DisputeRaised? || e.body.DisputeResolved? || e.body.DisputePending? || e.body.DisputeAppealed?
    ensures Edits(e, c)
  {
  }

  lemma EveryEdit(e: Event, c: Column)
    requires Touches(e.body)
    ensures Edits(e, c)
  {
    match e.body
    case EscrowFunded(_, _, _, _) => SaleEdits(e, c);
    case EscrowShipped(_, _, _, _) => SaleEdits(e, c);
    case EscrowDelivered(_, _) => SaleEdits(e, c);
    case EscrowClosed(_, _, _, _) => ClosingEdits(e, c);
    case ResolverRotated(_, _) => RefundEdits(e, c);
    case RefundRequested(_, _) => RefundEdits(e, c);
    case RefundApproved(_, _, _) => RefundEdits(e, c);
    case _ => RulingEdits(e, c);
  }

  lemma EscrowUpdateWritten(e: Event)
    requires Touches(e.body)
    ensures Writes(e)[0] == UpdateIfPresent(Key(Escrows, e.body.id, ""), EscrowEdits(e.body, Num(e.cursor.ledger)))
  {
  }

  lemma EscrowEditsColumns(b: Body, at: Value)
    ensures EscrowEdits(b, at).Keys <= Columns(Escrows)
  {
  }

  // ── Rows an event does not name ──

  /** Events that concern row `k`. */
  predicate Named(e: Event, k: Key) {
    || Creates(e, k)
    || (k.table == Escrows && k.sub == "" && About(e, k.id) && Touches(e.body))
    || (k.table == Disputes && k.sub == "" && About(e, k.id) && (e.body.DisputeResolved? || e.body.DisputePending?))
  }

  lemma UnnamedIsSilent(e: Event, k: Key, c: Column)
    requires !Named(e, k)
    ensures Says(e, k, c).None?
  {
  }

  lemma {:induction false} UntouchedRow(ws: seq<Write>, k: Key, row: Option<Row>)
    requires forall w :: w in ws ==> w.key != k
    ensures RowAfter(ws, k, row) == row
    decreases |ws|
  {
    if ws != [] {
      assert ws[0] in ws;
      UntouchedRow(ws[1..], k, row);
    }
  }

  /** The row operations of a list of settings name its settings. */
  lemma {:induction false} EntriesNamed(entries: seq<(string, Value)>, time: Value, ledger: nat, w: Write)
    requires w in ConfigWrites(entries, time, ledger)
    ensures w.key == Key(ConfigRows, w.key.id, "") && exists j :: 0 <= j < |entries| && entries[j].0 == w.key.id
  {
    if entries != [] {
      if w == ConfigWrites(entries, time, ledger)[0] {
        assert entries[0].0 == w.key.id;
      } else {
        assert w in ConfigWrites(entries[1..], time, ledger);
        EntriesNamed(entries[1..], time, ledger, w);
        var j :| 0 <= j < |entries[1..]| && entries[1..][j].0 == w.key.id;
        assert entries[j + 1] == entries[1..][j];
      }
    }
  }

  lemma {:induction false} LastEntryFinds(entries: seq<(string, Value)>, name: string)
    ensures LastEntry(entries, name).Some? <==> exists j :: 0 <= j < |entries| && entries[j].0 == name
  {
    if entries != [] {
      var front := entries[..|entries| - 1];
      LastEntryFinds(front, name);
      if exists j :: 0 <= j < |entries| && entries[j].0 == name {
        var j :| 0 <= j < |entries| && entries[j].0 == name;
        if j < |front| {
          assert front[j].0 == name;
        }
      }
    }
  }

  lemma UnnamedIsUntouched(e: Event, k: Key)
    requires !Named(e, k)
    ensures forall w :: w in Writes(e) ==> w.key != k
  {
    if e.body.ConfigChanged? {
      forall w | w in Writes(e) ensures w.key != k {
        EntriesNamed(e.body.entries, e.body.time, e.cursor.ledger, w);
        LastEntryFinds(e.body.entries, w.key.id);
      }
    }
  }

  lemma UnnamedTold(e: Event, k: Key, row: Option<Row>)
    requires !Named(e, k) && (row.Some? ==> row.value.Keys == Columns(k.table))
    ensures RowTold(e, k, row, RowAfter(Writes(e), k, row))
  {
    UnnamedIsUntouched(e, k);
    UntouchedRow(Writes(e), k, row);
    forall c ensures Says(e, k, c).None? {
      UnnamedIsSilent(e, k, c);
    }
    SilenceTells(e, k, row);
  }

  // ── Rows it names ──

  lemma EscrowUpdateTold(e: Event, k: Key, row: Option<Row>)
    requires Touches(e.body) && k == Key(Escrows, e.body.id, "")
    requires row.Some? ==> row.value.Keys == Columns(Escrows)
    ensures RowTold(e, k, row, Step(Writes(e)[0], row))
  {
    EscrowUpdateWritten(e);
    EscrowEditsColumns(e.body, Num(e.cursor.ledger));
    forall c ensures Says(e, k, c) == Cell(Writes(e)[0].sets, c) {
      EveryEdit(e, c);
    }
    UpdateTells(e, k, row, Writes(e)[0].sets);
  }

  lemma EscrowCreationTold(e: Event, k: Key, row: Option<Row>)
    requires e.body.EscrowCreated? && k == Key(Escrows, e.body.id, "")
    requires row.Some? ==> row.value.Keys == Columns(Escrows)
    ensures RowTold(e, k, row, RowAfter(Writes(e), k, row))
  {
    OneWrite(e, k, row);
    NewEscrowRow(e, k);
    if row.None? {
      CreationTells(e, k, Writes(e)[0].row);
    } else {
      CreationIsSilent(e, k, row.value);
    }
  }

  lemma NewEscrowRow(e: Event, k: Key)
    requires e.body.EscrowCreated? && k == Key(Escrows, e.body.id, "")
    ensures var w := Writes(e)[0];
            && w == InsertIfAbsent(k, w.row) && w.row.Keys == Columns(Escrows)
            && forall c :: c in w.row ==> w.row[c] == AtFirst(e, k, c)
  {
    NewEscrowColumns(e);
    forall c | c in Writes(e)[0].row ensures Writes(e)[0].row[c] == AtFirst(e, k, c) {
      NewEscrowCell(e, k, c);
    }
  }

  lemma NewEscrowColumns(e: Event)
    requires e.body.EscrowCreated?
    ensures var w := Writes(e)[0];
            w == InsertIfAbsent(Key(Escrows, e.body.id, ""), w.row) && w.row.Keys == Columns(Escrows)
  {
  }

  lemma NewEscrowCell(e: Event, k: Key, c: Column)
    requires e.body.EscrowCreated? && k == Key(Escrows, e.body.id, "")
    requires Writes(e)[0].InsertIfAbsent? && c in Writes(e)[0].row
    ensures Writes(e)[0].row[c] == AtFirst(e, k, c)
  {
  }

  lemma CreationIsSilent(e: Event, k: Key, row: Row)
    requires e.body.EscrowCreated? && k == Key(Escrows, e.body.id, "") && row.Keys == Columns(Escrows)
    ensures RowTold(e, k, Some(row), Some(row))
  {
    forall c ensures Says(e, k, c).None? {
      CreationSaysNothing(e, c);
    }
  }

  lemma CreationSaysNothing(e: Event, c: Column)
    requires e.body.EscrowCreated?
    ensures SaysOfEscrow(e, c).None?
  {
  }

  // Disputes.

  lemma DisputeWritten(e: Event)
    requires e.body.DisputeRaised? || e.body.DisputeResolved? || e.body.DisputePending?
    ensures |Writes(e)| == 2 && Writes(e)[0].key != Writes(e)[1].key
    ensures var (k, sets) := (Key(Disputes, e.body.id, ""), DisputeEdits(e.body));
            Writes(e)[1] == if e.body.DisputeRaised? then Upsert(k, sets[AppealDeadline := Null], sets)
                            else UpdateIfPresent(k, sets)
  {
  }

  lemma DisputeEditsColumns(b: Body)
    ensures DisputeEdits(b).Keys <= Columns(Disputes)
    ensures b.DisputeRaised? ==> DisputeEdits(b)[AppealDeadline := Null].Keys == Columns(Disputes)
  {
  }

  lemma EveryDisputeEdit(b: Body, c: Column)
    requires b.DisputeRaised? ==> c in Columns(Disputes)
    ensures SaysOfDispute(b, c) == Cell(DisputeEdits(b), c)
  {
    if b.DisputeRaised? {
      RaisedEdits(b, c);
    }
  }

  lemma RaisedEdits(b: Body, c: Column)
    requires b.DisputeRaised? && c in Columns(Disputes)
    ensures SaysOfDispute(b, c) == Cell(DisputeEdits(b), c)
  {
    match c
    case Buyer =>
    case Reason =>
    case Description =>
    case EvidenceHash =>
    case DisputedAt =>
    case Status =>
    case AppealDeadline =>
    case _ =>
  }

  lemma NewDisputeCell(e: Event, k: Key, c: Column)
    requires e.body.DisputeRaised? && k == Key(Disputes, e.body.id, "") && c in Columns(Disputes)
    ensures Cell(DisputeEdits(e.body)[AppealDeadline := Null], c) == Some(AtFirst(e, k, c))
  {
    EveryDisputeEdit(e.body, c);
  }

  lemma RaisedTold(e: Event, k: Key, row: Option<Row>)
    requires e.body.DisputeRaised? && k == Key(Disputes, e.body.id, "")
    requires row.Some? ==> row.value.Keys == Columns(Disputes)
    ensures RowTold(e, k, row, RowAfter(Writes(e), k, row))
  {
    DisputeWritten(e);
    DisputeEditsColumns(e.body);
    TwoWrites(e, k, row);
    var w := Writes(e)[1];
    if row.None? {
      forall c | c in w.row ensures w.row[c] == AtFirst(e, k, c) {
        NewDisputeCell(e, k, c);
      }
      CreationTells(e, k, w.row);
    } else {
      forall c | c in Columns(Disputes) ensures Says(e, k, c) == Cell(w.sets, c) {
        EveryDisputeEdit(e.body, c);
      }
      RewritingTells(e, k, row.value, w.sets);
    }
  }

  lemma DisputeUpdateTold(e: Event, k: Key, row: Option<Row>)
    requires (e.body.DisputeResolved? || e.body.DisputePending?) && k == Key(Disputes, e.body.id, "")
    requires row.Some? ==> row.value.Keys == Columns(Disputes)
    ensures RowTold(e, k, row, RowAfter(Writes(e), k, row))
  {
    DisputeWritten(e);
    DisputeEditsColumns(e.body);
    TwoWrites(e, k, row);
    forall c ensures Says(e, k, c) == Cell(Writes(e)[1].sets, c) {
      EveryDisputeEdit(e.body, c);
    }
    UpdateTells(e, k, row, Writes(e)[1].sets);
  }

  // Baskets and ballots.

  /** The row operation of an event that writes whole rows. */
  ghost predicate WritesWhole(e: Event, k: Key) {
    && |Writes(e)| == 1
    && var w := Writes(e)[0];
       w.Upsert? && w == Upsert(k, w.row, w.row) && w.row.Keys == Columns(k.table)
  }

  lemma BasketRow(e: Event, k: Key)
    requires e.body.BasketCreated? && k == Key(Baskets, e.body.id, "")
    ensures WritesWhole(e, k)
  {
  }

  lemma BasketCell(e: Event, k: Key, c: Column)
    requires e.body.BasketCreated? && k == Key(Baskets, e.body.id, "") && c in Columns(Baskets) && WritesWhole(e, k)
    ensures Writes(e)[0].row[c] == AtFirst(e, k, c)
  {
  }

  lemma BallotRow(e: Event, k: Key)
    requires e.body.VoteRecorded? && k == Key(Ballots, e.body.id, e.body.voter)
    ensures WritesWhole(e, k)
  {
  }

  lemma BallotCell(e: Event, k: Key, c: Column)
    requires e.body.VoteRecorded? && k == Key(Ballots, e.body.id, e.body.voter)
    requires c in Columns(Ballots) && WritesWhole(e, k)
    ensures Writes(e)[0].row[c] == AtFirst(e, k, c)
  {
  }

  lemma BasketTold(e: Event, k: Key, row: Option<Row>)
    requires e.body.BasketCreated? && k == Key(Baskets, e.body.id, "")
    requires row.Some? ==> row.value.Keys == Columns(Baskets)
    ensures RowTold(e, k, row, RowAfter(Writes(e), k, row))
  {
    BasketRow(e, k);
    forall c | c in Columns(Baskets) ensures Writes(e)[0].row[c] == AtFirst(e, k, c) {
      BasketCell(e, k, c);
    }
    WholeTold(e, k, row);
  }

  lemma BallotTold(e: Event, k: Key, row: Option<Row>)
    requires e.body.VoteRecorded? && k == Key(Ballots, e.body.id, e.body.voter)
    requires row.Some? ==> row.value.Keys == Columns(Ballots)
    ensures RowTold(e, k, row, RowAfter(Writes(e), k, row))
  {
    BallotRow(e, k);
    forall c | c in Columns(Ballots) ensures Writes(e)[0].row[c] == AtFirst(e, k, c) {
      BallotCell(e, k, c);
    }
    WholeTold(e, k, row);
  }

  lemma WholeTold(e: Event, k: Key, row: Option<Row>)
    requires k.table == Baskets || k.table == Ballots
    requires Creates(e, k) && WritesWhole(e, k) && (row.Some? ==> row.value.Keys == Columns(k.table))
    requires forall c :: c in Columns(k.table) ==> Writes(e)[0].row[c] == AtFirst(e, k, c)
    ensures RowTold(e, k, row, RowAfter(Writes(e), k, row))
  {
    OneWrite(e, k, row);
    var w := Writes(e)[0];
    if row.None? {
      CreationTells(e, k, w.row);
    } else {
      forall c | c in Columns(k.table) ensures Says(e, k, c) == Cell(w.row, c) {
        assert w.row[c] == AtFirst(e, k, c);
      }
      RewritingTells(e, k, row.value, w.row);
    }
  }

  // Messages.

  lemma MessageRow(e: Event)
    requires e.body.MessagePosted?
    ensures |Writes(e)| == 1
    ensures var w := Writes(e)[0]; w == InsertIfAbsent(MessageKey(e.cursor), w.row) && w.row.Keys == Columns(Messages)
  {
  }

  lemma MessageCell(e: Event, k: Key, c: Column)
    requires e.body.MessagePosted? && k == MessageKey(e.cursor) && |Writes(e)| == 1
    requires Writes(e)[0].InsertIfAbsent? && c in Writes(e)[0].row
    ensures Writes(e)[0].row[c] == AtFirst(e, k, c)
  {
  }

  lemma MessageTold(e: Event, k: Key, row: Option<Row>)
    requires e.body.MessagePosted? && k == MessageKey(e.cursor)
    requires row.Some? ==> row.value.Keys == Columns(Messages)
    ensures RowTold(e, k, row, RowAfter(Writes(e), k, row))
  {
    MessageRow(e);
    OneWrite(e, k, row);
    if row.None? {
      forall c | c in Writes(e)[0].row ensures Writes(e)[0].row[c] == AtFirst(e, k, c) {
        MessageCell(e, k, c);
      }
      CreationTells(e, k, Writes(e)[0].row);
    } else {
      MessageStays(e, k, row.value);
    }
  }

  lemma MessageStays(e: Event, k: Key, row: Row)
    requires k.table == Messages && row.Keys == Columns(Messages)
    ensures RowTold(e, k, Some(row), Some(row))
  {
  }

  // Settings.

  /** A guarded row replaces the one before it when it is no older. */
  lemma ReplacementTells(e: Event, k: Key, before: Option<Row>, row: Row)
    requires Guarded(k) && Creates(e, k) && row.Keys == Columns(k.table)
    requires forall c :: c in row ==> row[c] == AtFirst(e, k, c)
    requires before.Some? ==> before.value.Keys == Columns(k.table)
    ensures RowTold(e, k, before, Some(row))
  {
  }

  lemma ListingRow(e: Event, k: Key)
    requires (e.body.TokenListed? || e.body.ResolverListed?) && Creates(e, k)
    ensures |Writes(e)| == 1
    ensures var w := Writes(e)[0];
            w == GuardedUpsert(k, w.row, e.cursor.ledger) && w.row.Keys == Columns(k.table)
  {
  }

  lemma ListingCell(e: Event, k: Key, c: Column)
    requires (e.body.TokenListed? || e.body.ResolverListed?) && Creates(e, k) && |Writes(e)| == 1
    requires Writes(e)[0].GuardedUpsert? && c in Writes(e)[0].row
    ensures Writes(e)[0].row[c] == AtFirst(e, k, c)
  {
  }

  lemma ListingTold(e: Event, k: Key, before: Option<Row>)
    requires (e.body.TokenListed? || e.body.ResolverListed?) && Creates(e, k) && Shaped(k, before, e.cursor.ledger)
    ensures RowTold(e, k, before, RowAfter(Writes(e), k, before))
  {
    ListingRow(e, k);
    OneWrite(e, k, before);
    forall c | c in Writes(e)[0].row ensures Writes(e)[0].row[c] == AtFirst(e, k, c) {
      ListingCell(e, k, c);
    }
    ReplacementTells(e, k, before, Writes(e)[0].row);
  }

  function EntryRow(value: Value, time: Value, ledger: nat): Row {
    map[SettingValue := value, UpdatedAt := time, UpdatedLedger := Num(ledger)]
  }

  /** The last entry that names a setting is the one that stays. */
  lemma {:induction false} EntriesEnd(entries: seq<(string, Value)>, time: Value, ledger: nat, k: Key,
                                      before: Option<Row>)
    requires k == Key(ConfigRows, k.id, "") && (before.Some? ==> Stored(before.value) <= ledger)
    ensures RowAfter(ConfigWrites(entries, time, ledger), k, before)
         == if LastEntry(entries, k.id).None? then before
            else Some(EntryRow(LastEntry(entries, k.id).value, time, ledger))
    decreases |entries|
  {
    if entries != [] {
      var w := ConfigWrites(entries, time, ledger)[0];
      var middle := if w.key == k then Step(w, before) else before;
      assert ConfigWrites(entries, time, ledger)[1..] == ConfigWrites(entries[1..], time, ledger);
      EntriesEnd(entries[1..], time, ledger, k, middle);
      FirstEntry(entries, k.id);
    }
  }

  lemma {:induction false} FirstEntry(entries: seq<(string, Value)>, name: string)
    requires entries != []
    ensures LastEntry(entries, name)
         == if LastEntry(entries[1..], name).Some? then LastEntry(entries[1..], name)
            else if entries[0].0 == name then Some(entries[0].1) else None
  {
    if |entries| > 1 {
      var front := entries[..|entries| - 1];
      assert front[1..] == entries[1..][..|entries[1..]| - 1];
      FirstEntry(front, name);
    } else {
      assert entries[1..] == [] && entries[..0] == [];
    }
  }

  lemma EntryCell(e: Event, k: Key, c: Column)
    requires e.body.ConfigChanged? && Creates(e, k) && c in Columns(ConfigRows)
    ensures k.table == ConfigRows && LastEntry(e.body.entries, k.id).Some?
    ensures Cell(EntryRow(LastEntry(e.body.entries, k.id).value, e.body.time, e.cursor.ledger), c)
         == Some(AtFirst(e, k, c))
  {
  }

  lemma SettingTold(e: Event, k: Key, before: Option<Row>)
    requires e.body.ConfigChanged? && Creates(e, k) && Shaped(k, before, e.cursor.ledger)
    ensures RowTold(e, k, before, RowAfter(Writes(e), k, before))
  {
    EntryCell(e, k, UpdatedAt);
    EntriesEnd(e.body.entries, e.body.time, e.cursor.ledger, k, before);
    var row := EntryRow(LastEntry(e.body.entries, k.id).value, e.body.time, e.cursor.ledger);
    forall c | c in row ensures row[c] == AtFirst(e, k, c) {
      EntryCell(e, k, c);
    }
    ReplacementTells(e, k, before, row);
  }

  // ── Every event ──

  lemma EscrowTold(e: Event, k: Key, row: Option<Row>)
    requires k.table == Escrows && Named(e, k) && (row.Some? ==> row.value.Keys == Columns(Escrows))
    ensures RowTold(e, k, row, RowAfter(Writes(e), k, row))
  {
    if e.body.EscrowCreated? {
      EscrowCreationTold(e, k, row);
    } else {
      EscrowUpdateTold(e, k, row);
      FirstOnly(e, k, row);
    }
  }

  /** An escrow row is written by the first row operation alone. */
  lemma FirstOnly(e: Event, k: Key, row: Option<Row>)
    requires Touches(e.body) && k == Key(Escrows, e.body.id, "")
    ensures RowAfter(Writes(e), k, row) == Step(Writes(e)[0], row)
  {
    if e.body.DisputeRaised? || e.body.DisputeResolved? || e.body.DisputePending? {
      TwoWrites(e, k, row);
    } else {
      OneWrite(e, k, row);
    }
  }

  lemma DisputeTold(e: Event, k: Key, row: Option<Row>)
    requires k.table == Disputes && Named(e, k) && (row.Some? ==> row.value.Keys == Columns(Disputes))
    ensures RowTold(e, k, row, RowAfter(Writes(e), k, row))
  {
    if e.body.DisputeRaised? {
      RaisedTold(e, k, row);
    } else {
      DisputeUpdateTold(e, k, row);
    }
  }

  lemma SettingsTold(e: Event, k: Key, row: Option<Row>)
    requires Guarded(k) && Named(e, k) && Shaped(k, row, e.cursor.ledger)
    ensures RowTold(e, k, row, RowAfter(Writes(e), k, row))
  {
    if e.body.ConfigChanged? {
      SettingTold(e, k, row);
    } else {
      ListingTold(e, k, row);
    }
  }

  /** One event changes every row exactly as it says. */
  lemma EventTold(e: Event, k: Key, row: Option<Row>)
    requires Shaped(k, row, e.cursor.ledger)
    ensures RowTold(e, k, row, RowAfter(Writes(e), k, row))
  {
    if !Named(e, k) {
      UnnamedTold(e, k, row);
    } else {
      match k.table
      case Escrows => EscrowTold(e, k, row);
      case Disputes => DisputeTold(e, k, row);
      case Baskets => BasketTold(e, k, row);
      case Ballots => BallotTold(e, k, row);
      case Messages => MessageTold(e, k, row);
      case _ => SettingsTold(e, k, row);
    }
  }

  lemma GuardStays(e: Event, k: Key, before: Option<Row>, after: Option<Row>)
    requires Shaped(k, before, e.cursor.ledger) && RowTold(e, k, before, after)
    ensures Shaped(k, after, e.cursor.ledger)
  {
    if after.Some? && Guarded(k) {
      assert UpdatedLedger in Columns(k.table);
    }
  }

  // ── A whole log ──

  /** The last thing the events say about a column, or what it was before. */
  function Latest(events: seq<Event>, k: Key, c: Column, before: Value): Value {
    if events == [] then before
    else
      var said := Says(events[|events| - 1], k, c);
      if said.Some? then said.value else Latest(events[..|events| - 1], k, c, before)
  }

  function FirstCreation(events: seq<Event>, k: Key): (j: nat)
    ensures j <= |events|
    ensures j < |events| ==> Creates(events[j], k)
    ensures forall i :: 0 <= i < j ==> !Creates(events[i], k)
  {
    if events == [] || Creates(events[0], k) then 0 else 1 + FirstCreation(events[1..], k)
  }

  /** Column by column, what the event that created the row put there or the last later event said. */
  ghost predicate RowIs(row: Row, k: Key, first: Event, later: seq<Event>)
    requires Creates(first, k)
  {
    && row.Keys == Columns(k.table)
    && forall c :: c in row ==> row[c] == Latest(later, k, c, AtFirst(first, k, c))
  }

  /** Row `k` after a log: absent if no event creates it, and otherwise as its events say. */
  ghost predicate LogTold(events: seq<Event>, k: Key, row: Option<Row>) {
    var j := FirstCreation(events, k);
    if j == |events| then row.None?
    else row.Some? && RowIs(row.value, k, events[j], events[j + 1..])
  }

  lemma {:induction false} FirstCreationGrows(events: seq<Event>, k: Key)
    requires events != []
    ensures var front := events[..|events| - 1];
            FirstCreation(events, k)
            == if FirstCreation(front, k) < |front| then FirstCreation(front, k)
               else if Creates(events[|front|], k) then |front|
               else |events|
  {
    var front := events[..|events| - 1];
    var (i, j) := (FirstCreation(front, k), FirstCreation(events, k));
    if i < |front| {
      assert Creates(events[i], k);
      assert forall x :: 0 <= x < i ==> !Creates(events[x], k) by {
        assert forall x :: 0 <= x < i ==> events[x] == front[x];
      }
    } else {
      assert forall x :: 0 <= x < |front| ==> !Creates(events[x], k) by {
        assert forall x :: 0 <= x < |front| ==> events[x] == front[x];
      }
    }
  }

  lemma LatestStep(past: seq<Event>, e: Event, k: Key, c: Column, v: Value)
    ensures Latest(past + [e], k, c, v) == if Says(e, k, c).Some? then Says(e, k, c).value else Latest(past, k, c, v)
  {
    assert (past + [e])[..|past|] == past;
  }

  /** A row that exists already. */
  lemma RowGoesOn(past: seq<Event>, e: Event, k: Key, first: Event, before: Row, after: Option<Row>)
    requires Creates(first, k) && RowIs(before, k, first, past) && RowTold(e, k, Some(before), after)
    ensures after.Some? && RowIs(after.value, k, first, past + [e])
  {
    forall c | c in after.value ensures after.value[c] == Latest(past + [e], k, c, AtFirst(first, k, c)) {
      LatestStep(past, e, k, c, AtFirst(first, k, c));
      assert c in before;
    }
  }

  /** A row that does not exist yet. */
  lemma RowBegins(e: Event, k: Key, after: Option<Row>)
    requires RowTold(e, k, None, after)
    ensures after.Some? <==> Creates(e, k)
    ensures after.Some? ==> RowIs(after.value, k, e, [])
  {
  }

  lemma LogStep(front: seq<Event>, e: Event, k: Key, before: Option<Row>, after: Option<Row>)
    requires LogTold(front, k, before) && RowTold(e, k, before, after)
    ensures LogTold(front + [e], k, after)
  {
    var events := front + [e];
    assert events[..|events| - 1] == front;
    FirstCreationGrows(events, k);
    if FirstCreation(front, k) < |front| {
      LogGoesOn(front, e, k, before.value, after);
    } else {
      assert events[|front| + 1..] == [] && events[|front|] == e;
      RowBegins(e, k, after);
    }
  }

  lemma LogGoesOn(front: seq<Event>, e: Event, k: Key, before: Row, after: Option<Row>)
    requires FirstCreation(front, k) < |front| && FirstCreation(front + [e], k) == FirstCreation(front, k)
    requires LogTold(front, k, Some(before)) && RowTold(e, k, Some(before), after)
    ensures LogTold(front + [e], k, after)
  {
    var j := FirstCreation(front, k);
    assert (front + [e])[j + 1..] == front[j + 1..] + [e] && (front + [e])[j] == front[j];
    RowGoesOn(front[j + 1..], e, k, front[j], before, after);
  }

  lemma {:induction false} RowAfterAppend(a: seq<Write>, b: seq<Write>, k: Key, row: Option<Row>)
    ensures RowAfter(a + b, k, row) == RowAfter(b, k, RowAfter(a, k, row))
    decreases |a|
  {
    if a == [] {
      assert a + b == b;
    } else {
      assert (a + b)[1..] == a[1..] + b;
      RowAfterAppend(a[1..], b, k, if a[0].key == k then Step(a[0], row) else row);
    }
  }

  lemma {:induction false} LogIsTold(events: seq<Event>, k: Key)
    requires Ascending(events)
    ensures LogTold(events, k, RowAfter(AllWrites(events), k, None))
    ensures events != [] ==> Shaped(k, RowAfter(AllWrites(events), k, None), events[|events| - 1].cursor.ledger)
  {
    if events != [] {
      var (front, e) := (events[..|events| - 1], events[|events| - 1]);
      AscendingPart(events, 0, |front|);
      LogIsTold(front, k);
      assert front + [e] == events;
      FlattenAppend(Writes, front, [e]);
      assert AllWrites([e]) == Writes(e) by {
        assert [e][1..] == [] && Writes(e) + [] == Writes(e);
      }
      RowAfterAppend(AllWrites(front), Writes(e), k, None);
      var before := RowAfter(AllWrites(front), k, None);
      if front != [] {
        assert After(PositionOf(events[|front|]), PositionOf(events[|front| - 1]));
      }
      assert Shaped(k, before, e.cursor.ledger);
      EventTold(e, k, before);
      LogStep(front, e, k, before, RowAfter(Writes(e), k, before));
      GuardStays(e, k, before, RowAfter(Writes(e), k, before));
    }
  }

  /** Whatever an ascending log that is processed to its end says, the tables hold, row by row and column by column. */
  lemma TablesHoldTheLog(s: Store, events: seq<Event>, k: Key)
    requires Ascending(events) && Committed(s, events) == |events| && k !in s.db
    ensures LogTold(events, k, Lookup(Ingest(s, events).db, k))
  {
    FullPass(s, events);
    RowsAreIndependent(s.db, AllWrites(events), k);
    LogIsTold(events, k);
  }

  // ── Two readings ──

  lemma {:induction false} NothingSaid(events: seq<Event>, k: Key, c: Column, before: Value)
    requires forall e :: e in events ==> Says(e, k, c).None?
    ensures Latest(events, k, c, before) == before
  {
    if events != [] {
      assert events[|events| - 1] in events;
      NothingSaid(events[..|events| - 1], k, c, before);
    }
  }

  lemma {:induction false} SaidLast(events: seq<Event>, k: Key, c: Column, before: Value, i: nat)
    requires i < |events| && Says(events[i], k, c).Some?
    requires forall x :: i < x < |events| ==> Says(events[x], k, c).None?
    ensures Latest(events, k, c, before) == Says(events[i], k, c).value
  {
    if i < |events| - 1 {
      SaidLast(events[..|events| - 1], k, c, before, i);
    }
  }

  /** The terms of a sale: columns no later event speaks about. */
  predicate IsTerm(c: Column) {
    || c == Seller || c == Token || c == Amount || c == FeeBps || c == ResolverFeeBps
    || c == ShippingWindow || c == CreatedAt
  }

  /** One column after any log processed to its end. */
  lemma ColumnHolds(s: Store, events: seq<Event>, k: Key, j: nat, c: Column)
    requires Ascending(events) && Committed(s, events) == |events| && k !in s.db
    requires j < |events| && j == FirstCreation(events, k) && c in Columns(k.table)
    ensures var db := Ingest(s, events).db;
            k in db && c in db[k] && db[k][c] == Latest(events[j + 1..], k, c, AtFirst(events[j], k, c))
  {
    TablesHoldTheLog(s, events, k);
    assert RowIs(Ingest(s, events).db[k], k, events[j], events[j + 1..]);
  }

  /** After any log processed to its end, seller, token, amount and the other terms of an escrow are those of its first
      creation. */
  lemma TermsAreTheCreations(s: Store, events: seq<Event>, id: string, j: nat, c: Column)
    requires Ascending(events) && Committed(s, events) == |events| && Key(Escrows, id, "") !in s.db
    requires j < |events| && j == FirstCreation(events, Key(Escrows, id, "")) && IsTerm(c)
    ensures var (k, db) := (Key(Escrows, id, ""), Ingest(s, events).db);
            k in db && c in db[k] && db[k][c] == AtFirst(events[j], k, c)
  {
    var k := Key(Escrows, id, "");
    TermIsColumn(c);
    ColumnHolds(s, events, k, j, c);
    forall e | e in events[j + 1..] ensures Says(e, k, c).None? {
      TermsAreSilent(e, k, c);
    }
    NothingSaid(events[j + 1..], k, c, AtFirst(events[j], k, c));
  }

  lemma TermsAreSilent(e: Event, k: Key, c: Column)
    requires k.table == Escrows && IsTerm(c)
    ensures Says(e, k, c).None?
  {
  }

  lemma TermIsColumn(c: Column)
    requires IsTerm(c)
    ensures c in Columns(Escrows)
  {
  }

  predicate FundsEscrow(e: Event, id: string) {
    e.body.EscrowFunded? && e.body.id == id
  }

  lemma FundingSays(e: Event, id: string)
    ensures Says(e, Key(Escrows, id, ""), Buyer) == if FundsEscrow(e, id) then Some(e.body.buyer) else None
    ensures Says(e, Key(Escrows, id, ""), FundedAt) == if FundsEscrow(e, id) then Some(e.body.time) else None
  {
  }

  lemma LastFunder(later: seq<Event>, id: string, i: nat)
    requires i < |later| && FundsEscrow(later[i], id)
    requires forall x :: i < x < |later| ==> !FundsEscrow(later[x], id)
    ensures Latest(later, Key(Escrows, id, ""), Buyer, Null) == later[i].body.buyer
    ensures Latest(later, Key(Escrows, id, ""), FundedAt, Null) == later[i].body.time
  {
    var k := Key(Escrows, id, "");
    forall x: nat | x < |later| ensures Says(later[x], k, Buyer).Some? <==> FundsEscrow(later[x], id) {
      FundingSays(later[x], id);
    }
    forall x: nat | x < |later| ensures Says(later[x], k, FundedAt).Some? <==> FundsEscrow(later[x], id) {
      FundingSays(later[x], id);
    }
    FundingSays(later[i], id);
    SaidLast(later, k, Buyer, Null, i);
    SaidLast(later, k, FundedAt, Null, i);
  }

  lemma NoFunder(later: seq<Event>, id: string)
    requires forall e :: e in later ==> !FundsEscrow(e, id)
    ensures Latest(later, Key(Escrows, id, ""), Buyer, Null) == Null
    ensures Latest(later, Key(Escrows, id, ""), FundedAt, Null) == Null
  {
    var k := Key(Escrows, id, "");
    forall e | e in later ensures Says(e, k, Buyer).None? && Says(e, k, FundedAt).None? {
      FundingSays(e, id);
    }
    NothingSaid(later, k, Buyer, Null);
    NothingSaid(later, k, FundedAt, Null);
  }

  lemma FundingColumns(s: Store, events: seq<Event>, id: string, j: nat)
    requires Ascending(events) && Committed(s, events) == |events| && Key(Escrows, id, "") !in s.db
    requires j < |events| && j == FirstCreation(events, Key(Escrows, id, ""))
    ensures var (k, db) := (Key(Escrows, id, ""), Ingest(s, events).db);
            && k in db && Buyer in db[k] && FundedAt in db[k]
            && db[k][Buyer] == Latest(events[j + 1..], k, Buyer, Null)
            && db[k][FundedAt] == Latest(events[j + 1..], k, FundedAt, Null)
  {
    var k := Key(Escrows, id, "");
    ColumnHolds(s, events, k, j, Buyer);
    ColumnHolds(s, events, k, j, FundedAt);
    StartsUnfunded(events[j], k);
  }

  lemma StartsUnfunded(e: Event, k: Key)
    requires k.table == Escrows && Creates(e, k)
    ensures AtFirst(e, k, Buyer) == Null && AtFirst(e, k, FundedAt) == Null
  {
  }

  /** After any log processed to its end, the buyer and the funding time of an escrow are those of the last funding
      event after its creation. */
  lemma BuyerIsTheLastFunder(s: Store, events: seq<Event>, id: string, j: nat, i: nat)
    requires Ascending(events) && Committed(s, events) == |events| && Key(Escrows, id, "") !in s.db
    requires j < i < |events| && j == FirstCreation(events, Key(Escrows, id, ""))
    requires FundsEscrow(events[i], id) && forall x :: i < x < |events| ==> !FundsEscrow(events[x], id)
    ensures var (k, db) := (Key(Escrows, id, ""), Ingest(s, events).db);
            && k in db && Buyer in db[k] && FundedAt in db[k]
            && db[k][Buyer] == events[i].body.buyer && db[k][FundedAt] == events[i].body.time
  {
    FundingColumns(s, events, id, j);
    var later := events[j + 1..];
    forall x | i - j - 1 < x < |later| ensures !FundsEscrow(later[x], id) {
      assert later[x] == events[j + 1 + x];
    }
    LastFunder(later, id, i - j - 1);
  }

  /** Without one they are absent. */
  lemma UnfundedHasNoBuyer(s: Store, events: seq<Event>, id: string, j: nat)
    requires Ascending(events) && Committed(s, events) == |events| && Key(Escrows, id, "") !in s.db
    requires j < |events| && j == FirstCreation(events, Key(Escrows, id, ""))
    requires forall i :: j < i < |events| ==> !FundsEscrow(events[i], id)
    ensures var (k, db) := (Key(Escrows, id, ""), Ingest(s, events).db);
            && k in db && Buyer in db[k] && FundedAt in db[k]
            && db[k][Buyer] == Null && db[k][FundedAt] == Null
  {
    FundingColumns(s, events, id, j);
    NoFunder(events[j + 1..], id);
  }

  // ── Messages and the log itself ──

  lemma {:induction false} DigitsDiffer(m: nat, n: nat)
    ensures Digits(m) == Digits(n) ==> m == n
  {
    assert |Digits(m)| == m && |Digits(n)| == n;
  }

  function DotAt(s: string): nat {
    if s == [] || s[0] == '.' then 0 else 1 + DotAt(s[1..])
  }

  lemma {:induction false} DotAfter(a: string, b: string)
    requires '.' !in a
    ensures DotAt(a + "." + b) == |a|
  {
    var s := a + "." + b;
    if a != [] {
      assert s[0] == a[0] && a[0] in a && s[1..] == a[1..] + "." + b;
      DotAfter(a[1..], b);
    } else {
      assert s[0] == '.';
    }
  }

  lemma FirstDot(a: string, b: string, c: string, d: string)
    requires a + "." + b == c + "." + d && '.' !in a && '.' !in c
    ensures a == c && b == d
  {
    DotAfter(a, b);
    DotAfter(c, d);
    var s := a + "." + b;
    assert a == s[..|a|] && c == s[..|c|] && b == s[|a| + 1..] && d == s[|c| + 1..];
  }

  /** Messages at different positions have different rows. */
  lemma MessageKeysDiffer(a: Cursor, b: Cursor)
    ensures MessageKey(a) == MessageKey(b) ==> a == b
  {
    if MessageKey(a) == MessageKey(b) {
      FirstDot(Digits(a.tx), Digits(a.event), Digits(b.tx), Digits(b.event));
      DigitsDiffer(a.ledger, b.ledger);
      DigitsDiffer(a.tx, b.tx);
      DigitsDiffer(a.event, b.event);
    }
  }

  /** The log keeps every processed event at its position. */
  lemma {:induction false} LogKeepsEvents(s: Store, events: seq<Event>)
    requires Ascending(events) && Committed(s, events) == |events|
    requires forall e :: e in events ==> e.cursor !in s.log
    ensures forall c :: c in s.log ==> c in Ingest(s, events).log && Ingest(s, events).log[c] == s.log[c]
    ensures forall i :: 0 <= i < |events| ==>
              events[i].cursor in Ingest(s, events).log && Ingest(s, events).log[events[i].cursor] == events[i]
    decreases |events|
  {
    if events != [] {
      var next := Transact(s, events[0]).value;
      AscendingPart(events, 1, |events|);
      forall e | e in events[1..] ensures e.cursor !in next.log {
        var x :| 0 <= x < |events[1..]| && events[1..][x] == e;
        assert After(PositionOf(events[x + 1]), PositionOf(events[0]));
      }
      LogKeepsEvents(next, events[1..]);
      var done := Ingest(s, events);
      assert done == Ingest(next, events[1..]) && next.log[events[0].cursor] == events[0];
      forall i | 0 <= i < |events| ensures events[i].cursor in done.log && done.log[events[i].cursor] == events[i] {
        if i > 0 {
          assert events[i] == events[1..][i - 1];
        }
      }
    }
  }
}
