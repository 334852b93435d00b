/** The per-escrow record, the contract-wide settings, and the checks and small updates entry points share.
    Every storage key of an escrow id is grouped into one `Rec`. */
module Records {
  import opened Types
  import opened History
  import opened Ledger

  datatype Rec = Rec(
    escrow: Escrow,
    dispute: Option<Dispute>,
    votes: seq<Vote>,
    basket: seq<TokenEntry>,
    proposal: Option<u64>,
    expiry: Option<ExpirySchedule>,
    history: seq<Entry>)

  /** Contract-wide settings and the clock. */
  datatype Globals = Globals(
    cfg: Config,
    admin: Address,
    maxAppeals: u32,
    pausedActions: set<string>,
    allowedTokens: set<Token>,
    approvedResolvers: set<Address>,
    pendingCollector: Option<Address>,
    pendingTreasury: Option<Address>,
    arbitrationTotals: map<Token, i128>,
    now: u64)

  /** What a successful call does to one escrow: its new record, the transfers to issue, and
      the token's new arbitration-fee total when a fee is charged. */
  datatype Move = Move(rec: Rec, pays: seq<Transfer>, arbitrationTotal: Option<i128>)

  type Signers = set<Address>

  // ── Guards ──

  /** `require_auth`. The contract never signs for itself. */
  function Signed(signers: Signers, a: Address): Check {
    Need(a in signers && a != Contract, AuthFailed)
  }

  /** `ensure_action_not_paused`. */
  function Active(g: Globals, action: string): Check {
    Need(!g.cfg.paused && action !in g.pausedActions, ContractPaused)
  }

  function Load(found: Option<Rec>): Result<Rec> {
    if found.Some? then Ok(found.value) else Err(EscrowNotFound)
  }

  function TerminalStateError(st: EscrowState, fallback: Error): Error {
    match st
    case Completed => EscrowAlreadyCompleted
    case Refunded => EscrowAlreadyRefunded
    case _ => fallback
  }

  /** A state guard that reports finished escrows specifically. */
  function InState(st: EscrowState, expected: set<EscrowState>, fallback: Error): Check {
    Need(st in expected, TerminalStateError(st, fallback))
  }

  predicate PastExpiry(r: Rec, now: u64) {
    || (r.escrow.expiresAt.Some? && now >= r.escrow.expiresAt.value)
    || (r.expiry.Some? && now >= r.expiry.value.expiresAt)
  }

  /** `ensure_not_expired`. */
  function NotExpired(g: Globals, found: Option<Rec>): Check {
    if found.None? then Fail(EscrowNotFound) else Need(!PastExpiry(found.value, g.now), EscrowExpired)
  }

  /** `ensure_funding_not_expired`: also the blanket window after creation. */
  function FundingNotExpired(g: Globals, r: Rec): Check {
    if PastExpiry(r, g.now) then Fail(EscrowExpired)
    else if CreatedAt(r.history) + PENDING_EXPIRY_WINDOW > MAX_U64 then Fail(ArithmeticOverflow)
    else Need(g.now <= CreatedAt(r.history) + PENDING_EXPIRY_WINDOW, EscrowExpired)
  }

  function Buyer(r: Rec): Result<Address> {
    if r.escrow.buyer.Some? then Ok(r.escrow.buyer.value) else Err(EscrowHasNoBuyer)
  }

  function Primary(r: Rec): Address {
    r.escrow.payees[0].address
  }

  predicate IsPayee(payees: seq<Payee>, a: Address) {
    exists i :: 0 <= i < |payees| && payees[i].address == a
  }

  function FeeCollector(g: Globals): Result<Address> {
    if g.cfg.feeCollector.Some? then Ok(g.cfg.feeCollector.value) else Err(NotInitialized)
  }

  // ── Packed funding timestamps ──

  const HALF_WORD := 0x1_0000_0000

  /** `(now << 32) | ((now + DISPUTE_WINDOW) & 0xFFFF_FFFF)` on 64 bits. */
  function PackFunding(now: u64): u64 {
    now % HALF_WORD * HALF_WORD + (now + DISPUTE_WINDOW) % HALF_WORD
  }

  function FundedAt(e: Escrow): u64 {
    e.packedTimestamps / HALF_WORD
  }

  function DisputeDeadline(e: Escrow): u64 {
    e.packedTimestamps % HALF_WORD
  }

  /** The packed pair reads back exactly when the deadline fits 32 bits. */
  lemma FundingRoundTrip(now: u64)
    ensures PackFunding(now) / HALF_WORD == now % HALF_WORD
    ensures PackFunding(now) % HALF_WORD == (now + DISPUTE_WINDOW) % HALF_WORD
    ensures PackFunding(now) / HALF_WORD == now && PackFunding(now) % HALF_WORD == now + DISPUTE_WINDOW
       <==> now + DISPUTE_WINDOW < HALF_WORD
  {
  }

  // ── Record updates ──

  /** `save_escrow` with a new state: the history grows when the state changes. */
  function Enter(r: Rec, st: EscrowState, now: u64): Rec {
    if st == r.escrow.state then r
    else r.(escrow := r.escrow.(state := st), history := AppendEntry(r.history, Stamp(st, now)))
  }

  function Stay(r: Rec): Move {
    Move(r, [], None)
  }

  /** The whole holding back to one address: principal, then every other basket token. */
  function FullPayout(r: Rec, to: Address): seq<Transfer> {
    Payout(r.escrow.token, to, r.escrow.amount) + BasketPayouts(r.basket, r.escrow.token, to)
  }

  /** Tokens the contract owes to the escrow. */
  function Hold(r: Rec, t: Token): int {
    if !Live(r.escrow.state) then 0
    else (if r.escrow.token == t then r.escrow.amount else 0) + BasketHold(r.basket, r.escrow.token, t)
  }

  /** What was originally funded: the current amount plus the dispute fees already paid out of it. */
  function Principal(r: Rec): int {
    r.escrow.amount + (if r.dispute.Some? then r.dispute.value.arbitrationFee + r.dispute.value.resolverFee else 0)
  }

  function Appeals(r: Rec): nat {
    if r.dispute.Some? then r.dispute.value.appealCount else 0
  }
}
