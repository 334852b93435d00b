/** The packed state history of an escrow and the lifecycle it records. */
module History {
  import opened Types

  /** History entries keep the timestamp in the low 56 bits and the state code above them. */
  const STAMP_RANGE := 0x100_0000_0000_0000

  function StateCode(st: EscrowState): nat {
    match st
    case Pending => 0 case Funded => 1 case Shipped => 2 case Completed => 3 case Disputed => 4
    case RefundRequested => 5 case Refunded => 6 case Canceled => 7 case PendingFinalization => 8 case Expired => 9
  }

  function StateOfCode(code: nat): EscrowState {
    match code
    case 0 => Pending case 1 => Funded case 2 => Shipped case 3 => Completed case 4 => Disputed
    case 5 => RefundRequested case 6 => Refunded case 7 => Canceled case 8 => PendingFinalization case _ => Expired
  }

  /** A decoded history entry; its time is the ledger time reduced to 56 bits. */
  datatype Entry = Entry(state: EscrowState, time: u64)

  function Stamp(st: EscrowState, now: u64): Entry {
    Entry(st, now % STAMP_RANGE)
  }

  /** `pack_history_entry`. */
  function Pack(st: EscrowState, now: u64): u64 {
    StateCode(st) * STAMP_RANGE + now % STAMP_RANGE
  }

  /** `unpack_history_entry`. */
  function Unpack(packed: u64): Entry {
    Entry(StateOfCode(packed / STAMP_RANGE), packed % STAMP_RANGE)
  }

  /** Unpacking undoes packing: the state always, the time exactly when it fits 56 bits. */
  lemma PackRoundTrip(st: EscrowState, now: u64)
    ensures Unpack(Pack(st, now)) == Stamp(st, now)
    ensures Unpack(Pack(st, now)) == Entry(st, now) <==> now < STAMP_RANGE
  {
    assert Pack(st, now) / STAMP_RANGE == StateCode(st) && Pack(st, now) % STAMP_RANGE == now % STAMP_RANGE;
  }

  /** `decode_history`. */
  function Decode(packed: seq<u64>): seq<Entry> {
    seq(|packed|, i requires 0 <= i < |packed| => Unpack(packed[i]))
  }

  // ── Lifecycle ──

  predicate Live(st: EscrowState) {
    st == Funded || st == Shipped || st == RefundRequested || st == Disputed || st == PendingFinalization
  }

  predicate Terminal(st: EscrowState) {
    st == Completed || st == Refunded || st == Canceled || st == Expired
  }

  /** The transitions the entry points make. */
  predicate Edge(a: EscrowState, b: EscrowState) {
    match a
    case Pending => b == Funded || b == Canceled
    case Funded => b == Shipped || b == RefundRequested || b == Disputed || Terminal(b)
    case Shipped => b == Disputed || Terminal(b)
    case RefundRequested => b == Shipped || b == Refunded
    case Disputed => b == PendingFinalization || b == Refunded
    case PendingFinalization => b == Disputed || b == Completed || b == Refunded
    case _ => false
  }

  predicate StepsAlong(h: seq<Entry>, i: nat)
    requires 0 < i < |h|
  {
    Edge(h[i - 1].state, h[i].state)
  }

  predicate LegalPath(h: seq<Entry>) {
    && 0 < |h|
    && h[0].state == Pending
    && forall i {:trigger StepsAlong(h, i)} :: 0 < i < |h| ==> StepsAlong(h, i)
  }

  predicate Visited(h: seq<Entry>, st: EscrowState) {
    exists i :: 0 <= i < |h| && h[i].state == st
  }

  /** Number of state changes an escrow can still make: the ranking function. An appeal spends one of the
      at most ten appeals and buys back a return to `Disputed`. */
  function Rank(st: EscrowState, appeals: nat): int {
    var left := 2 * (MAX_MAX_APPEALS - appeals);
    match st
    case Pending => 26
    case Funded => 25
    case RefundRequested => 24
    case Shipped => 23
    case Disputed => left + 2
    case PendingFinalization => left + 1
    case _ => 0
  }

  /** `append_state_history`: entries beyond the fiftieth push the oldest ones out. */
  function AppendEntry(h: seq<Entry>, entry: Entry): seq<Entry> {
    var grown := h + [entry];
    if |grown| > MAX_STATE_HISTORY_ENTRIES then grown[|grown| - MAX_STATE_HISTORY_ENTRIES..] else grown
  }

  /** The push and the pruning loop on the packed entries. */
  method AppendStateHistory(h: seq<u64>, st: EscrowState, now: u64) returns (history: seq<u64>)
    ensures Decode(history) == AppendEntry(Decode(h), Stamp(st, now))
  {
    history := h + [Pack(st, now)];
    PackRoundTrip(st, now);
    ghost var grown := history;
    assert Decode(grown) == Decode(h) + [Stamp(st, now)];
    while |history| > MAX_STATE_HISTORY_ENTRIES
      invariant |history| <= |grown| && history == grown[|grown| - |history|..]
      invariant |history| < |grown| ==> MAX_STATE_HISTORY_ENTRIES <= |history|
    {
      history := history[1..];
    }
    assert Decode(history) == Decode(grown)[|grown| - |history|..];
  }

  /** `escrow_created_at`. */
  function CreatedAt(h: seq<Entry>): u64 {
    if h == [] then 0 else h[0].time
  }

  /** Extending a legal path by an edge, below the pruning bound, keeps everything that was there. */
  lemma ExtendPath(h: seq<Entry>, st: EscrowState, now: u64)
    requires LegalPath(h) && |h| < MAX_STATE_HISTORY_ENTRIES
    requires Edge(h[|h| - 1].state, st)
    ensures var h' := AppendEntry(h, Stamp(st, now));
            && h' == h + [Stamp(st, now)]
            && LegalPath(h')
            && (forall x :: Visited(h', x) <==> Visited(h, x) || x == st)
  {
    var h' := h + [Stamp(st, now)];
    forall i | 0 < i < |h'| ensures StepsAlong(h', i) {
      if i < |h| {
        assert StepsAlong(h, i);
      }
    }
    forall x ensures Visited(h', x) <==> Visited(h, x) || x == st {
      if Visited(h, x) {
        var i :| 0 <= i < |h| && h[i].state == x;
        assert h'[i].state == x;
      }
      if x == st {
        assert h'[|h|].state == x;
      }
    }
  }
}
