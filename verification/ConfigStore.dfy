/** The global configuration: one record, or the thirteen per-setting keys of deployments that predate it, and the
    migration between the two (`storage.rs`, `admin.rs`). */
module ConfigStore {
  import opened Types

  const FLAG_PAUSED: bv32 := 1
  const FLAG_ALLOWLIST: bv32 := 2
  const FLAG_STRICT: bv32 := 4
  const FLAG_RECOVERY: bv32 := 8

  const DEFAULT_TTL: u32 := 120_960

  /** The stored record, its four switches packed into one word. */
  datatype Record = Record(
    feeCollector: Option<Address>,
    treasury: Option<Address>,
    protocolFeeBps: u32,
    arbitrationFeeBps: u32,
    platformFeeBps: u32,
    appealFeeBps: u32,
    minAmount: i128,
    maxAmount: i128,
    disputeTimeout: u64,
    ttl: u32,
    flags: bv32)

  datatype FeePair = FeePair(protocolFeeBps: u32, arbitrationFeeBps: u32)

  /** The keys the record replaces. */
  datatype LegacyKeys = LegacyKeys(
    feeCollector: Option<Address>,
    treasury: Option<Address>,
    fees: Option<FeePair>,
    platformFeeBps: Option<u32>,
    appealFeeBps: Option<u32>,
    minAmount: Option<i128>,
    maxAmount: Option<i128>,
    disputeTimeout: Option<u64>,
    ttl: Option<u32>,
    paused: Option<bool>,
    allowlist: Option<bool>,
    strict: Option<bool>,
    recovery: Option<bool>)

  const NO_KEYS := LegacyKeys(None, None, None, None, None, None, None, None, None, None, None, None, None)

  datatype Store = Store(record: Option<Record>, keys: LegacyKeys)

  /** What the configuration means to the rest of the contract. */
  datatype Settings = Settings(
    feeCollector: Option<Address>,
    treasury: Option<Address>,
    protocolFeeBps: u32,
    arbitrationFeeBps: u32,
    platformFeeBps: u32,
    appealFeeBps: u32,
    minAmount: i128,
    maxAmount: i128,
    disputeTimeout: u64,
    ttl: u32,
    paused: bool,
    allowlist: bool,
    strict: bool,
    recovery: bool)

  function Or<T>(key: Option<T>, default: T): T {
    if key.Some? then key.value else default
  }

  // ── Reading ──

  function Set(flags: bv32, mask: bv32, on: bool): bv32 {
    if on then flags | mask else flags & !mask
  }

  predicate On(flags: bv32, mask: bv32) {
    flags & mask != 0
  }

  /** The four switches folded into one word. */
  function Fold(paused: bool, allowlist: bool, strict: bool, recovery: bool): bv32 {
    var f0: bv32 := 0;
    var f1 := if paused then f0 | FLAG_PAUSED else f0;
    var f2 := if allowlist then f1 | FLAG_ALLOWLIST else f1;
    var f3 := if strict then f2 | FLAG_STRICT else f2;
    if recovery then f3 | FLAG_RECOVERY else f3
  }

  /** `read_legacy_global_config`. */
  function FromKeys(k: LegacyKeys): Record {
    Record(k.feeCollector, k.treasury,
           Or(k.fees, FeePair(0, 0)).protocolFeeBps, Or(k.fees, FeePair(0, 0)).arbitrationFeeBps,
           Or(k.platformFeeBps, 0), Or(k.appealFeeBps, 0), Or(k.minAmount, MIN_ESCROW_AMOUNT),
           Or(k.maxAmount, MAX_ESCROW_AMOUNT),
           Or(k.disputeTimeout, DEFAULT_DISPUTE_TIMEOUT), Or(k.ttl, DEFAULT_TTL),
           Fold(Or(k.paused, false), Or(k.allowlist, false), Or(k.strict, false), Or(k.recovery, false)))
  }

  /** `read_global_config`. */
  function Read(s: Store): Record {
    if s.record.Some? then s.record.value else FromKeys(s.keys)
  }

  function View(r: Record): Settings {
    Settings(r.feeCollector, r.treasury, r.protocolFeeBps, r.arbitrationFeeBps, r.platformFeeBps, r.appealFeeBps,
             r.minAmount, r.maxAmount, r.disputeTimeout, r.ttl,
             On(r.flags, FLAG_PAUSED), On(r.flags, FLAG_ALLOWLIST),
             On(r.flags, FLAG_STRICT), On(r.flags, FLAG_RECOVERY))
  }

  /** The configuration in force. */
  function Effective(s: Store): Settings {
    View(Read(s))
  }

  /** Folding the keys into a record loses nothing: each setting is its own key, or its default if the key is absent. */
  lemma FoldingIsLossless(k: LegacyKeys)
    ensures View(FromKeys(k)) == Settings(
      k.feeCollector, k.treasury, Or(k.fees, FeePair(0, 0)).protocolFeeBps, Or(k.fees, FeePair(0, 0)).arbitrationFeeBps,
      Or(k.platformFeeBps, 0), Or(k.appealFeeBps, 0), Or(k.minAmount, MIN_ESCROW_AMOUNT),
      Or(k.maxAmount, MAX_ESCROW_AMOUNT),
      Or(k.disputeTimeout, DEFAULT_DISPUTE_TIMEOUT), Or(k.ttl, DEFAULT_TTL),
      Or(k.paused, false), Or(k.allowlist, false), Or(k.strict, false), Or(k.recovery, false))
  {
  }

  // ── Updating ──

  datatype Op =
    | CollectorAccepted(next: Address) | TreasuryAccepted(next: Address)
    | Fees(protocol: u32, arbitration: u32) | PlatformFee(bps: u32) | AppealFee(bps: u32)
    | Limits(min: i128, max: i128) | DisputeTimeout(seconds: u64) | Ttl(ledgers: u32)
    | Paused(on: bool) | Allowlist(on: bool) | Strict(on: bool) | Recovery(on: bool)
    | Migrate

  /** The closure each writer applies to the record. */
  function Edit(r: Record, op: Op): Record {
    match op
    case CollectorAccepted(a) => r.(feeCollector := Some(a))
    case TreasuryAccepted(a) => r.(treasury := Some(a))
    case Fees(p, a) => r.(protocolFeeBps := p, arbitrationFeeBps := a)
    case PlatformFee(b) => r.(platformFeeBps := b)
    case AppealFee(b) => r.(appealFeeBps := b)
    case Limits(lo, hi) => r.(minAmount := lo, maxAmount := hi)
    case DisputeTimeout(t) => r.(disputeTimeout := t)
    case Ttl(t) => r.(ttl := t)
    case Paused(on) => r.(flags := Set(r.flags, FLAG_PAUSED, on))
    case Allowlist(on) => r.(flags := Set(r.flags, FLAG_ALLOWLIST, on))
    case Strict(on) => r.(flags := Set(r.flags, FLAG_STRICT, on))
    case Recovery(on) => r.(flags := Set(r.flags, FLAG_RECOVERY, on))
    case Migrate => r
  }

  /** What the writer means: its own setting changes, and no other. */
  function Meaning(s: Settings, op: Op): Settings {
    match op
    case CollectorAccepted(a) => s.(feeCollector := Some(a))
    case TreasuryAccepted(a) => s.(treasury := Some(a))
    case Fees(p, a) => s.(protocolFeeBps := p, arbitrationFeeBps := a)
    case PlatformFee(b) => s.(platformFeeBps := b)
    case AppealFee(b) => s.(appealFeeBps := b)
    case Limits(lo, hi) => s.(minAmount := lo, maxAmount := hi)
    case DisputeTimeout(t) => s.(disputeTimeout := t)
    case Ttl(t) => s.(ttl := t)
    case Paused(on) => s.(paused := on)
    case Allowlist(on) => s.(allowlist := on)
    case Strict(on) => s.(strict := on)
    case Recovery(on) => s.(recovery := on)
    case Migrate => s
  }

  /** A writer on the stored keys. Accepting the fee collector also writes its legacy key. */
  function Apply(s: Store, op: Op): Store {
    var record := Some(Edit(Read(s), op));
    match op
    case Migrate => Store(record, NO_KEYS)
    case CollectorAccepted(a) => Store(record, s.keys.(feeCollector := Some(a)))
    case _ => Store(record, s.keys)
  }

  /** Setting or clearing one bit changes that bit only. */
  lemma BitsIndependent(flags: bv32, mask: bv32, other: bv32, on: bool)
    requires mask in {FLAG_PAUSED, FLAG_ALLOWLIST, FLAG_STRICT, FLAG_RECOVERY}
    requires other in {FLAG_PAUSED, FLAG_ALLOWLIST, FLAG_STRICT, FLAG_RECOVERY}
    ensures On(Set(flags, mask, on), other) == if mask == other then on else On(flags, other)
  {
  }

  /** Every bit after one of them was set or cleared. */
  lemma BitsAfter(flags: bv32, mask: bv32, on: bool)
    requires mask in {FLAG_PAUSED, FLAG_ALLOWLIST, FLAG_STRICT, FLAG_RECOVERY}
    ensures On(Set(flags, mask, on), FLAG_PAUSED) == if mask == FLAG_PAUSED then on else On(flags, FLAG_PAUSED)
    ensures On(Set(flags, mask, on), FLAG_ALLOWLIST) == if mask == FLAG_ALLOWLIST then on else On(flags, FLAG_ALLOWLIST)
    ensures On(Set(flags, mask, on), FLAG_STRICT) == if mask == FLAG_STRICT then on else On(flags, FLAG_STRICT)
    ensures On(Set(flags, mask, on), FLAG_RECOVERY) == if mask == FLAG_RECOVERY then on else On(flags, FLAG_RECOVERY)
  {
    BitsIndependent(flags, mask, FLAG_PAUSED, on);
    BitsIndependent(flags, mask, FLAG_ALLOWLIST, on);
    BitsIndependent(flags, mask, FLAG_STRICT, on);
    BitsIndependent(flags, mask, FLAG_RECOVERY, on);
  }

  /** Editing the record is its meaning on the settings. */
  lemma EditMeans(r: Record, op: Op)
    ensures View(Edit(r, op)) == Meaning(View(r), op)
  {
    match op
    case Paused(on) => BitsAfter(r.flags, FLAG_PAUSED, on);
    case Allowlist(on) => BitsAfter(r.flags, FLAG_ALLOWLIST, on);
    case Strict(on) => BitsAfter(r.flags, FLAG_STRICT, on);
    case Recovery(on) => BitsAfter(r.flags, FLAG_RECOVERY, on);
    case _ =>
  }

  /** One writer: its meaning on the settings in force, whether the record exists yet or not. */
  lemma WriterMeans(s: Store, op: Op)
    ensures Effective(Apply(s, op)) == Meaning(Effective(s), op)
  {
    EditMeans(Read(s), op);
  }

  function ApplyAll(s: Store, ops: seq<Op>): Store
    decreases |ops|
  {
    if ops == [] then s else ApplyAll(Apply(s, ops[0]), ops[1..])
  }

  function MeaningAll(s: Settings, ops: seq<Op>): Settings
    decreases |ops|
  {
    if ops == [] then s else MeaningAll(Meaning(s, ops[0]), ops[1..])
  }

  /** Migration is invisible: under any interleaving of writers and migrations, a contract that started from legacy
      keys reads exactly like one that had a single record from the start, and migrations may be dropped or added
      anywhere. */
  lemma {:induction false} MigrationIsInvisible(s: Store, ops: seq<Op>)
    ensures Effective(ApplyAll(s, ops)) == MeaningAll(Effective(s), ops)
    decreases |ops|
  {
    if ops != [] {
      WriterMeans(s, ops[0]);
      MigrationIsInvisible(Apply(s, ops[0]), ops[1..]);
    }
  }

  /** Once written, the record speaks for itself: leftover keys never show through again. */
  lemma {:induction false} LeftoverKeysAreDead(s: Store, keys: LegacyKeys, ops: seq<Op>)
    requires s.record.Some?
    ensures Effective(ApplyAll(s, ops)) == Effective(ApplyAll(s.(keys := keys), ops))
  {
    MigrationIsInvisible(s, ops);
    MigrationIsInvisible(s.(keys := keys), ops);
  }

  lemma CollectorKey(k: LegacyKeys, a: Address)
    ensures FromKeys(k.(feeCollector := Some(a))) == FromKeys(k).(feeCollector := Some(a))
  {
  }

  // ── The stored object ──

  class GlobalConfig {
    var record: Option<Record>
    var keys: LegacyKeys

    function Contents(): Store
      reads this
    {
      Store(record, keys)
    }

    constructor (stored: Store)
      ensures Contents() == stored
    {
      record, keys := stored.record, stored.keys;
    }

    /** `read_legacy_global_config`: the flag word is accumulated bit by bit. */
    method ReadLegacy() returns (r: Record)
      ensures r == FromKeys(keys)
    {
      var flags: bv32 := 0;
      if Or(keys.paused, false) {
        flags := flags | FLAG_PAUSED;
      }
      if Or(keys.allowlist, false) {
        flags := flags | FLAG_ALLOWLIST;
      }
      if Or(keys.strict, false) {
        flags := flags | FLAG_STRICT;
      }
      if Or(keys.recovery, false) {
        flags := flags | FLAG_RECOVERY;
      }
      var fees := Or(keys.fees, FeePair(0, 0));
      r := Record(keys.feeCollector, keys.treasury, fees.protocolFeeBps, fees.arbitrationFeeBps,
                  Or(keys.platformFeeBps, 0), Or(keys.appealFeeBps, 0),
                  Or(keys.minAmount, MIN_ESCROW_AMOUNT), Or(keys.maxAmount, MAX_ESCROW_AMOUNT),
                  Or(keys.disputeTimeout, DEFAULT_DISPUTE_TIMEOUT), Or(keys.ttl, DEFAULT_TTL), flags);
    }

    /** `read_global_config`. */
    method ReadRecord() returns (r: Record)
      ensures r == Read(Contents())
    {
      if record.Some? {
        return record.value;
      }
      r := ReadLegacy();
    }

    /** `update_global_config`: read, edit, write. */
    method Update(op: Op)
      requires !op.Migrate? && !op.CollectorAccepted?
      modifies this
      ensures Contents() == Apply(old(Contents()), op)
      ensures Effective(Contents()) == Meaning(old(Effective(Contents())), op)
    {
      WriterMeans(Contents(), op);
      var config := ReadRecord();
      record := Some(Edit(config, op));
    }

    /** The writes of `accept_fee_collector`, in its order. */
    method AcceptCollector(next: Address)
      modifies this
      ensures Contents() == Apply(old(Contents()), CollectorAccepted(next))
      ensures Effective(Contents()) == old(Effective(Contents())).(feeCollector := Some(next))
    {
      WriterMeans(Contents(), CollectorAccepted(next));
      CollectorKey(keys, next);
      keys := keys.(feeCollector := Some(next));
      var config := ReadRecord();
      record := Some(config.(feeCollector := Some(next)));
    }

    /** `migrate_legacy_global_config`. */
    method MigrateKeys()
      modifies this
      ensures Contents() == Apply(old(Contents()), Migrate)
      ensures Effective(Contents()) == old(Effective(Contents())) && keys == NO_KEYS && record.Some?
    {
      WriterMeans(Contents(), Migrate);
      var config := ReadRecord();
      record := Some(config);
      keys := NO_KEYS;
    }
  }
}
