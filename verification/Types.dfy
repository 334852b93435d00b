/** The values the escrow contract stores and passes around: host integers, addresses, escrow and
    dispute records, configuration, error codes, and the constants every bound depends on. */
module Types {

  // ── Host integers ──

  const MAX_I128 := 0x7FFF_FFFF_FFFF_FFFF_FFFF_FFFF_FFFF_FFFF
  const MAX_U64 := 0xFFFF_FFFF_FFFF_FFFF
  const MAX_U32 := 0xFFFF_FFFF

  type i128 = x: int | -MAX_I128 - 1 <= x <= MAX_I128
  type u64 = x: int | 0 <= x <= MAX_U64
  type u32 = x: int | 0 <= x <= MAX_U32

  // ── Constants ──

  const BASIS_POINTS := 10_000
  const MAX_ESCROW_FEE_BPS := 300
  const MAX_ARBITRATION_FEE_BPS := 500
  const MAX_COMBINED_FEE_BPS := 1_000
  const MAX_PLATFORM_FEE_BPS := 200
  const MAX_APPEAL_FEE_BPS := 500
  const MIN_APPEAL_FEE_BPS := 10
  const APPEAL_WINDOW := 86_400
  const DISPUTE_WINDOW := 172_800
  const DELIVERY_RELEASE_WINDOW := 172_800
  const DELIVERY_TIMELOCK := 86_400
  const PENDING_EXPIRY_WINDOW := 604_800
  const DISPUTE_DEADLOCK_WINDOW := 604_800
  const MAX_FALLBACK_DEADLINE_OFFSET := 604_800 + 172_800 + 2_592_000
  const DEFAULT_DISPUTE_TIMEOUT := 2_592_000
  const MIN_DISPUTE_TIMEOUT := 3_600
  const MAX_DISPUTE_TIMEOUT := 31_536_000
  const MAX_GRACE_PERIOD := 604_800
  const MIN_SHIPPING_WINDOW := 1
  const MAX_SHIPPING_WINDOW := 63_072_000
  const MAX_STATE_HISTORY_ENTRIES := 50
  const MAX_TRACKING_ID_LEN := 64
  const MAX_DESCRIPTION_LEN := 256
  const MAX_NOTES_LEN := 500
  const MAX_BASKET_SIZE := 20
  const MAX_PAYEES := 10
  const MIN_ESCROW_AMOUNT := 1
  const MAX_ESCROW_AMOUNT := MAX_I128 / 10_000
  const DEFAULT_MAX_APPEALS := 3
  const MIN_MAX_APPEALS := 1
  const MAX_MAX_APPEALS := 10
  const COUNTER_SHARDS := 16

  // ── Addresses and tokens ──

  /** `Contract` is the escrow contract's own address; `ZeroAddress` the all-zero account. */
  datatype Address = ZeroAddress | Contract | Account(id: nat)

  type Token = nat

  // ── Errors ──

  datatype Error =
    | IndexOutOfBounds | InvalidAmount | EscrowNotFound | InvalidState | NotAuthorized | AlreadyInitialized
    | FeeExceedsMax
    | EscrowHasNoBuyer | ShippingWindowNotElapsed | DisputeNotFound | ArithmeticError
    | DeliveryBeforeDisputeWindow | ContractPaused | ArithmeticOverflow | InvalidStateTransition
    | InputTooLong | InvalidAddress | SameAddress | AmountExceedsMaximum | InvalidTrackingId
    | DeliveryNotRecorded | ConflictingRoles | DisputeWindowStillOpen | NotAuthorizedBuyer
    | NotAuthorizedSeller | EscrowExpired | NotInitialized | EscrowAlreadyCompleted | EscrowAlreadyRefunded
    | PayeeBpsMismatch | InvalidResolverThreshold | DuplicateResolver | InvalidFallbackDeadline
    | GracePeriodTooLong | InvalidShippingWindow | AmountBelowMinimum | UnauthorizedResolver
    | TokenNotAllowed | InvalidExpiration | EscrowCounterOverflow | BasketTokenMismatch
    | DeliveryAlreadyRecorded | DeliveryNotProposed | TimelockNotElapsed | InvalidDisputeReason
    | NotPendingFinalization | AppealWindowActive | MaxAppealsReached | DisputeTimeoutNotElapsed
    | DisputeNotDeadlocked | NoResolverVotes | TimestampInvariantViolated
    | NotInRecoveryMode | ContractNotPaused | ArbitrationFeeExceedsMax
    | PlatformFeeExceedsMax | AppealFeeBelowMinimum | AppealFeeExceedsMax | InvalidDisputeTimeout
    | InvalidMaxAppeals | NoPendingFeeCollector | NoPendingTreasury | DuplicateNotes
    | InvalidProposalHash | InvalidTimelockDelay | TooManyMessages
    // Failures raised by the host rather than by the contract: a missing signature and a token
    // transfer the payer cannot cover. Both revert the whole call.
    | AuthFailed | TransferFailed

  datatype Option<+T> = None | Some(value: T)

  datatype Result<+T> = Ok(value: T) | Err(error: Error) {
    predicate IsFailure() {
      Err?
    }

    function PropagateFailure<U>(): Result<U>
      requires Err?
    {
      Err(error)
    }

    function Extract(): T
      requires Ok?
    {
      value
    }
  }

  /** Outcome of a guard that yields no value. */
  datatype Check = Pass | Fail(error: Error) {
    predicate IsFailure() {
      Fail?
    }

    function PropagateFailure<U>(): Result<U>
      requires Fail?
    {
      Err(error)
    }
  }

  function Need(condition: bool, error: Error): Check {
    if condition then Pass else Fail(error)
  }

  // ── Escrow records ──

  datatype EscrowState =
    | Pending | Funded | Shipped | Completed | Disputed | RefundRequested
    | Refunded | Canceled | PendingFinalization | Expired

  datatype Payee = Payee(address: Address, bps: u32)

  function TotalBps(payees: seq<Payee>): nat {
    if payees == [] then 0 else payees[0].bps + TotalBps(payees[1..])
  }

  /** Payee lists that passed validation: one to ten entries whose shares add up to 100%. Every stored
      escrow holds one, so each place that stores a list proves that it was validated. */
  type Payees = p: seq<Payee> | 0 < |p| <= MAX_PAYEES && TotalBps(p) == BASIS_POINTS
    witness [Payee(ZeroAddress, BASIS_POINTS)]

  datatype ResolverSet =
    | Single(resolver: Address)
    | Multi(members: seq<Address>, quorum: u32)
    | Fallback(primary: Address, backup: Address, deadline: u64)

  datatype Ballot = Release | Refund

  datatype Vote = Vote(resolver: Address, ballot: Ballot, votedAt: u64)

  datatype TokenEntry = TokenEntry(token: Token, amount: i128)

  datatype ExpirySchedule = ExpirySchedule(expiresAt: u64, gracePeriod: u64)

  datatype Escrow = Escrow(
    payees: Payees,
    buyer: Option<Address>,
    resolvers: ResolverSet,
    token: Token,
    amount: i128,
    feeBps: u32,
    resolverFeeBps: u32,
    shippingWindow: u64,
    packedTimestamps: u64,
    state: EscrowState,
    shippedAt: u64,
    deliveredAt: Option<u64>,
    expiresAt: Option<u64>,
    gracePeriod: u64)

  /** `resolution` is the stored code: 0 = unresolved, 1 = Release, 2 = Refund. */
  datatype Dispute = Dispute(
    active: bool,
    disputedAt: u64,
    resolution: u32,
    resolvedBy: Option<Address>,
    appealCount: u32,
    resolvedAt: u64,
    arbitrationFee: i128,
    resolverFee: i128,
    feesCharged: bool)

  function ResolutionCode(b: Ballot): u32 {
    match b case Release => 1 case Refund => 2
  }

  function RecordedResolution(d: Dispute): Option<Ballot> {
    if d.resolution == 1 then Some(Release) else if d.resolution == 2 then Some(Refund) else None
  }

  datatype Config = Config(
    feeCollector: Option<Address>,
    treasury: Option<Address>,
    protocolFeeBps: u32,
    arbitrationFeeBps: u32,
    platformFeeBps: u32,
    appealFeeBps: u32,
    minAmount: i128,
    maxAmount: i128,
    disputeTimeout: u64,
    paused: bool,
    allowlistEnabled: bool,
    resolverStrict: bool,
    recoveryMode: bool)
}
