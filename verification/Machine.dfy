/** The contract as a transition system: its whole storage, the calls it accepts, and runs of calls. */
module Machine {
  import opened Types
  import opened Ledger
  import opened Records
  import opened Creation
  import Lifecycle
  import Disputes
  import Traces

  /** One lifecycle counter, spread over sixteen buckets by escrow id. */
  type Shards = s: seq<nat> | |s| == COUNTER_SHARDS witness seq(COUNTER_SHARDS, _ => 0)

  datatype State = State(
    g: Globals,
    recs: map<u64, Rec>,
    nextId: u64,
    created: Shards,
    completed: Shards,
    disputed: Shards,
    refunded: Shards,
    vendorIndex: map<Address, seq<u64>>,
    buyerIndex: map<Address, seq<u64>>,
    ledger: Balances)

  /** `increment_sharded_counter`. */
  function Bump(c: Shards, id: u64): Shards {
    c[id % COUNTER_SHARDS := c[id % COUNTER_SHARDS] + 1]
  }

  function Listed(index: map<Address, seq<u64>>, a: Address): seq<u64> {
    if a in index then index[a] else []
  }

  function Find(s: State, id: u64): Option<Rec> {
    if id in s.recs then Some(s.recs[id]) else None
  }

  // ── Effects ──

  predicate JustEntered(before: Rec, after: Rec, st: EscrowState) {
    before.escrow.state != st && after.escrow.state == st
  }

  /** The whole effect of a successful call on escrow `id`. */
  function Commit(s: State, id: u64, m: Move): State
    requires id in s.recs
  {
    var r := s.recs[id];
    s.(
      recs := s.recs[id := m.rec],
      ledger := Pay(s.ledger, m.pays),
      completed := if JustEntered(r, m.rec, Completed) then Bump(s.completed, id) else s.completed,
      refunded := if JustEntered(r, m.rec, Refunded) then Bump(s.refunded, id) else s.refunded,
      disputed := if r.dispute.None? && m.rec.dispute.Some? then Bump(s.disputed, id) else s.disputed,
      buyerIndex :=
        if JustEntered(r, m.rec, Funded) && m.rec.escrow.buyer.Some?
        then s.buyerIndex[m.rec.escrow.buyer.value := Listed(s.buyerIndex, m.rec.escrow.buyer.value) + [id]]
        else s.buyerIndex,
      g := if m.arbitrationTotal.None? then s.g
           else s.g.(arbitrationTotals := s.g.arbitrationTotals[r.escrow.token := m.arbitrationTotal.value]))
  }

  /** A call on one escrow: refused as planned, reverted by a failed transfer, or committed. */
  function OnEscrow(s: State, id: u64, plan: Result<Move>): Result<State> {
    var m :- plan;
    :- Need(id in s.recs, EscrowNotFound);
    :- Need(Affordable(s.ledger, m.pays), TransferFailed);
    Ok(Commit(s, id, m))
  }

  /** `next_escrow_id` and the bookkeeping every creation path does. A basket escrow is listed twice. */
  function Issue(s: State, plan: Result<Rec>): Result<State> {
    var r :- plan;
    :- Need(s.nextId + 1 <= MAX_U64, EscrowCounterOverflow);
    var entries := if r.basket == [] then [s.nextId] else [s.nextId, s.nextId];
    Ok(s.(
      recs := s.recs[s.nextId := r],
      nextId := s.nextId + 1,
      created := Bump(s.created, s.nextId),
      vendorIndex := s.vendorIndex[Primary(r) := Listed(s.vendorIndex, Primary(r)) + entries]))
  }

  /** `batch_create_escrow`: all or nothing. */
  function IssueAll(s: State, seller: Address, inputs: seq<Terms>): Result<State>
    decreases |inputs|
  {
    if inputs == [] then Ok(s)
    else
      var terms := inputs[0].(payees := SoleSeller(seller), expiresAt := None, gracePeriod := 0);
      var s' :- Issue(s, CreateInternal(s.g, terms));
      IssueAll(s', seller, inputs[1..])
  }

  function BatchCreate(s: State, signers: Signers, seller: Address, inputs: seq<Terms>): Result<State> {
    var auth := Signed(signers, seller);
    :- auth;
    :- Active(s.g, "batch_create_escrow");
    :- Need(NotesDistinct(inputs), DuplicateNotes);
    IssueAll(s, seller, inputs)
  }

  // ── Settings (`admin.rs`) ──

  datatype Setting =
    | ArbitrationFee(bps: u32) | PlatformFee(bps: u32) | AppealFee(bps: u32) | DisputeTimeout(seconds: u64)
    | RecoveryMode(on: bool) | Paused(on: bool) | ActionPaused(action: string, on: bool)
    | AllowlistEnabled(on: bool) | AllowToken(token: Token) | DisallowToken(token: Token)
    | ApproveResolver(resolver: Address) | RemoveResolver(resolver: Address) | ResolverStrict(on: bool)
    | AmountLimits(min: i128, max: i128) | MaxAppeals(n: u32) | Admin(next: Address)
    | ProposeCollector(next: Address) | ProposeTreasury(next: Address)

  /** The change each setter makes, with the validation its entry point applies. */
  function ApplySetting(g: Globals, setting: Setting): Result<Globals> {
    match setting
    case ArbitrationFee(bps) =>
      :- Need(bps <= MAX_ARBITRATION_FEE_BPS, ArbitrationFeeExceedsMax);
      :- Need(g.cfg.protocolFeeBps + bps <= MAX_U32, ArithmeticError);
      :- Need(g.cfg.protocolFeeBps + bps <= MAX_COMBINED_FEE_BPS, FeeExceedsMax);
      Ok(g.(cfg := g.cfg.(arbitrationFeeBps := bps)))
    case PlatformFee(bps) =>
      :- Need(bps <= MAX_PLATFORM_FEE_BPS, PlatformFeeExceedsMax);
      Ok(g.(cfg := g.cfg.(platformFeeBps := bps)))
    case AppealFee(bps) =>
      :- Need(bps == 0 || bps >= MIN_APPEAL_FEE_BPS, AppealFeeBelowMinimum);
      :- Need(bps <= MAX_APPEAL_FEE_BPS, AppealFeeExceedsMax);
      Ok(g.(cfg := g.cfg.(appealFeeBps := bps)))
    case DisputeTimeout(seconds) =>
      :- Need(MIN_DISPUTE_TIMEOUT <= seconds <= MAX_DISPUTE_TIMEOUT, InvalidDisputeTimeout);
      Ok(g.(cfg := g.cfg.(disputeTimeout := seconds)))
    case RecoveryMode(on) => Ok(g.(cfg := g.cfg.(recoveryMode := on)))
    case Paused(on) => Ok(g.(cfg := g.cfg.(paused := on)))
    case ActionPaused(action, on) =>
      Ok(g.(pausedActions := if on then g.pausedActions + {action} else g.pausedActions - {action}))
    case AllowlistEnabled(on) => Ok(g.(cfg := g.cfg.(allowlistEnabled := on)))
    case AllowToken(t) => Ok(g.(allowedTokens := g.allowedTokens + {t}))
    case DisallowToken(t) =>
      :- Need(t in g.allowedTokens, TokenNotAllowed);
      Ok(g.(allowedTokens := g.allowedTokens - {t}))
    case ApproveResolver(a) => Ok(g.(approvedResolvers := g.approvedResolvers + {a}))
    case RemoveResolver(a) =>
      :- Need(a in g.approvedResolvers, InvalidAddress);
      Ok(g.(approvedResolvers := g.approvedResolvers - {a}))
    case ResolverStrict(on) => Ok(g.(cfg := g.cfg.(resolverStrict := on)))
    case AmountLimits(min, max) =>
      :- Need(0 < min < max, InvalidAmount);
      Ok(g.(cfg := g.cfg.(minAmount := min, maxAmount := max)))
    case MaxAppeals(n) =>
      :- Need(MIN_MAX_APPEALS <= n <= MAX_MAX_APPEALS, InvalidMaxAppeals);
      Ok(g.(maxAppeals := n))
    case Admin(next) =>
      :- Need(next != g.admin, SameAddress);
      Ok(g.(admin := next))
    case ProposeCollector(next) =>
      :- Need(next != ZeroAddress && next != g.admin, InvalidAddress);
      :- Need(g.cfg.feeCollector.Some?, NotInitialized);
      :- Need(g.cfg.feeCollector != Some(next), SameAddress);
      Ok(g.(pendingCollector := Some(next)))
    case ProposeTreasury(next) =>
      :- Need(next != ZeroAddress && next != g.admin, InvalidAddress);
      :- Need(g.cfg.treasury.Some?, NotInitialized);
      :- Need(g.cfg.treasury != Some(next), SameAddress);
      Ok(g.(pendingTreasury := Some(next)))
  }

  /** Settings with an immediate entry point that the admin signs. */
  predicate Immediate(setting: Setting) {
    setting.ArbitrationFee? || setting.PlatformFee? || setting.DisputeTimeout? || setting.RecoveryMode?
    || setting.ActionPaused? || setting.AllowlistEnabled? || setting.AllowToken? || setting.DisallowToken?
    || setting.ProposeCollector? || setting.ProposeTreasury?
  }

  /** Settings with a timelocked entry point. Its execution needs no signature, only a queued proposal that
      is old enough; here it may happen at any time, so every theorem also covers what the delay forbids. */
  predicate Timelocked(setting: Setting) {
    !setting.DisputeTimeout? && !setting.RecoveryMode? && !setting.ActionPaused?
  }

  function UpdateSetting(g: Globals, signers: Signers, setting: Setting, timelocked: bool): Result<Globals> {
    var permitted :=
      if timelocked then Timelocked(setting) else Immediate(setting) && Signed(signers, g.admin).Pass?;
    var valid := Need(permitted, AuthFailed);
    :- valid;
    ApplySetting(g, setting)
  }

  function CollectorAccepts(g: Globals, signers: Signers, caller: Address): Result<Globals> {
    var auth := Signed(signers, caller);
    :- auth;
    :- Need(g.pendingCollector.Some?, NoPendingFeeCollector);
    :- Need(g.pendingCollector == Some(caller), NotAuthorized);
    :- Need(g.cfg.feeCollector.Some?, NotAuthorized);
    Ok(g.(cfg := g.cfg.(feeCollector := Some(caller)), pendingCollector := None))
  }

  function TreasuryAccepts(g: Globals, signers: Signers, caller: Address): Result<Globals> {
    var auth := Signed(signers, caller);
    :- auth;
    :- Need(g.pendingTreasury.Some?, NoPendingTreasury);
    :- Need(g.pendingTreasury == Some(caller), NotAuthorized);
    Ok(g.(cfg := g.cfg.(treasury := Some(caller)), pendingTreasury := None))
  }

  // ── Calls and runs ──

  datatype Call =
    | CreateEscrow(terms: Terms)
    | CreateWithExpiration(seller: Address, terms: Terms)
    | BatchCreateEscrow(seller: Address, inputs: seq<Terms>)
    | CreateMulti(seller: Address, designated: Option<Address>, members: seq<Address>, quorum: u32, token: Token,
                  amount: i128, feeBps: u32, shippingWindow: u64)
    | CreateWithFallback(seller: Address, designated: Option<Address>, primary: Address, backup: Address, deadline: u64,
                         token: Token, amount: i128, feeBps: u32, shippingWindow: u64)
    | CreateBasket(seller: Address, designated: Option<Address>, resolver: Address, tokens: seq<Token>,
                   amounts: seq<i128>, feeBps: u32, shippingWindow: u64, notes: string,
                   expiresAt: Option<u64>, gracePeriod: u64)
    | FundEscrow(id: u64, buyer: Address)
    | FundBasketEscrow(id: u64, buyer: Address)
    | MarkShipped(id: u64, caller: Address, trackingLen: nat)
    | ProposeRecordDelivery(id: u64, caller: Address)
    | CancelDeliveryProposal(id: u64, caller: Address)
    | RejectDeliveryProposal(id: u64, caller: Address)
    | RecordDelivery(id: u64, caller: Address)
    | ConfirmDelivery(id: u64, caller: Address, waive: bool)
    | AutoRelease(id: u64)
    | CoSignedRelease(id: u64, caller: Address)
    | ReclaimExpired(id: u64)
    | AutoCancelPending(id: u64)
    | CancelEscrow(id: u64, caller: Address)
    | MutualCancel(id: u64)
    | RequestRefund(id: u64, caller: Address)
    | ApproveRefund(id: u64, caller: Address)
    | RotateResolver(id: u64, caller: Address, next: Address)
    | RecoveryWithdraw(id: u64, caller: Address)
    | EmergencyDrain(id: u64)
    | RaiseDispute(id: u64, caller: Address, knownReason: bool, descriptionLen: nat)
    | CastVote(id: u64, caller: Address, ballot: Ballot)
    | ClaimDisputeTimeout(id: u64, caller: Address)
    | ResolveDeadlockedDispute(id: u64)
    | AppealDispute(id: u64, caller: Address)
    | FinalizeDispute(id: u64, caller: Address)
    | CancelPendingFinalization(id: u64, caller: Address)
    | ChangeSetting(setting: Setting, timelocked: bool)
    | AcceptFeeCollector(caller: Address)
    | AcceptTreasury(caller: Address)
    // The world outside: time passes, and tokens are minted or moved by their holders.
    | Elapse(to: u64)
    | Mint(token: Token, holder: Address, minted: nat)
    | TokenTransfer(transfer: Transfer)

  /** Calls that act on the record of one escrow. */
  predicate ActsOnEscrow(c: Call) {
    !CreatesOne(c) && !c.BatchCreateEscrow? && !c.ChangeSetting? && !c.AcceptFeeCollector? && !c.AcceptTreasury?
    && !c.Elapse? && !c.Mint? && !c.TokenTransfer?
  }

  /** What a call plans to do to the record it names. */
  function Plan(g: Globals, signers: Signers, c: Call, found: Option<Rec>): Result<Move>
    requires ActsOnEscrow(c)
  {
    match c
    case FundEscrow(_, buyer) => Lifecycle.FundEscrow(g, signers, found, buyer)
    case FundBasketEscrow(_, buyer) => Lifecycle.FundBasketEscrow(g, signers, found, buyer)
    case MarkShipped(_, caller, len) => Lifecycle.MarkShipped(g, signers, found, caller, len)
    case ProposeRecordDelivery(_, caller) => Lifecycle.ProposeRecordDelivery(g, signers, found, caller)
    case CancelDeliveryProposal(_, caller) => Lifecycle.CancelDeliveryProposal(g, signers, found, caller)
    case RejectDeliveryProposal(_, caller) => Lifecycle.RejectDeliveryProposal(signers, found, caller)
    case RecordDelivery(_, caller) => Lifecycle.RecordDelivery(g, signers, found, caller)
    case ConfirmDelivery(_, caller, waive) => Lifecycle.ConfirmDelivery(g, signers, found, caller, waive)
    case AutoRelease(_) => Lifecycle.AutoRelease(g, found)
    case CoSignedRelease(_, caller) => Lifecycle.CoSignedRelease(g, signers, found, caller)
    case ReclaimExpired(_) => Lifecycle.ReclaimExpired(g, signers, found)
    case AutoCancelPending(_) => Lifecycle.AutoCancelPending(g, found)
    case CancelEscrow(_, caller) => Lifecycle.CancelEscrow(g, signers, found, caller)
    case MutualCancel(_) => Lifecycle.MutualCancel(g, signers, found)
    case RequestRefund(_, caller) => Lifecycle.RequestRefund(g, signers, found, caller)
    case ApproveRefund(_, caller) => Lifecycle.ApproveRefund(g, signers, found, caller)
    case RotateResolver(_, caller, next) => Lifecycle.RotateResolver(g, signers, found, caller, next)
    case RecoveryWithdraw(_, caller) => Lifecycle.RecoveryWithdraw(g, signers, found, caller)
    case EmergencyDrain(_) => Lifecycle.EmergencyDrain(g, signers, found)
    case RaiseDispute(_, caller, known, len) => Disputes.RaiseDispute(g, signers, found, caller, known, len)
    case CastVote(_, caller, ballot) => Disputes.CastVote(g, signers, found, caller, ballot)
    case ClaimDisputeTimeout(_, caller) => Disputes.ClaimDisputeTimeout(g, signers, found, caller)
    case ResolveDeadlockedDispute(_) => Disputes.ResolveDeadlockedDispute(g, found)
    case AppealDispute(_, caller) => Disputes.AppealDispute(g, signers, found, caller)
    case FinalizeDispute(_, caller) => Disputes.FinalizeDispute(g, signers, found, caller)
    case CancelPendingFinalization(_, caller) => Disputes.CancelPendingFinalization(g, signers, found, caller)
  }

  /** Calls that create a single escrow. */
  predicate CreatesOne(c: Call) {
    c.CreateEscrow? || c.CreateWithExpiration? || c.CreateMulti? || c.CreateWithFallback? || c.CreateBasket?
  }

  /** The record a creation call would store. */
  function NewRecord(g: Globals, signers: Signers, c: Call): Result<Rec>
    requires CreatesOne(c)
  {
    match c
    case CreateEscrow(terms) => Creation.CreateEscrow(g, signers, terms)
    case CreateWithExpiration(seller, terms) => Creation.CreateWithExpiration(g, signers, seller, terms)
    case CreateMulti(seller, buyer, members, quorum, token, amount, fee, window) =>
      Creation.CreateMulti(g, signers, seller, buyer, members, quorum, token, amount, fee, window)
    case CreateWithFallback(seller, buyer, primary, backup, deadline, token, amount, fee, window) =>
      Creation.CreateWithFallback(g, signers, seller, buyer, primary, backup, deadline, token, amount, fee, window)
    case CreateBasket(seller, buyer, resolver, tokens, amounts, fee, window, notes, expires, grace) =>
      Creation.CreateBasket(g, signers, seller, buyer, resolver, tokens, amounts, fee, window, notes, expires, grace)
  }

  function WithGlobals(s: State, g: Result<Globals>): Result<State> {
    var g' :- g;
    Ok(s.(g := g'))
  }

  function Exec(s: State, signers: Signers, c: Call): Result<State> {
    if CreatesOne(c) then Issue(s, NewRecord(s.g, signers, c))
    else if ActsOnEscrow(c) then OnEscrow(s, c.id, Plan(s.g, signers, c, Find(s, c.id)))
    else ExecOther(s, signers, c)
  }

  /** Batch creation, settings, and what happens outside the contract. */
  function ExecOther(s: State, signers: Signers, c: Call): Result<State>
    requires !CreatesOne(c) && !ActsOnEscrow(c)
  {
    match c
    case BatchCreateEscrow(seller, inputs) => BatchCreate(s, signers, seller, inputs)
    case ChangeSetting(setting, timelocked) => WithGlobals(s, UpdateSetting(s.g, signers, setting, timelocked))
    case AcceptFeeCollector(caller) => WithGlobals(s, CollectorAccepts(s.g, signers, caller))
    case AcceptTreasury(caller) => WithGlobals(s, TreasuryAccepts(s.g, signers, caller))
    case Elapse(to) => if to < s.g.now then Err(InvalidState) else Ok(s.(g := s.g.(now := to)))
    case Mint(t, holder, minted) => Ok(s.(ledger := s.ledger[(t, holder) := Balance(s.ledger, t, holder) + minted]))
    case TokenTransfer(tr) =>
      if tr.from == Contract || !Affordable(s.ledger, [tr]) then Err(TransferFailed)
      else Ok(s.(ledger := Post(s.ledger, tr)))
  }

  datatype Input = Input(signers: Signers, call: Call)

  /** A failed call leaves the state as it was: the host reverts it. */
  function Next(s: State, i: Input): State {
    var r := Exec(s, i.signers, i.call);
    if r.Ok? then r.value else s
  }

  /** Some sequence of calls, successful or not, leads from `s` to `s'`. */
  ghost predicate Leads(s: State, s': State) {
    Traces.Leads(Next, s, s')
  }

  /** `initialize` on a contract that has no admin yet. */
  function Initialize(admin: Address, collector: Address, arbitrationBps: u32, now: u64,
                      ledger: Balances): Result<State> {
    var valid := Need(admin != collector, InvalidAddress);
    :- valid;
    :- Need(arbitrationBps <= MAX_ARBITRATION_FEE_BPS, ArbitrationFeeExceedsMax);
    :- Need(admin != ZeroAddress && collector != ZeroAddress, InvalidAddress);
    var cfg := Config(Some(collector), None, 0, arbitrationBps, 0, 0, MIN_ESCROW_AMOUNT, MAX_ESCROW_AMOUNT,
                      DEFAULT_DISPUTE_TIMEOUT, false, false, false, false);
    var zero: Shards := seq(COUNTER_SHARDS, _ => 0);
    Ok(State(Globals(cfg, admin, DEFAULT_MAX_APPEALS, {}, {}, {}, None, None, map[], now),
             map[], 1, zero, zero, zero, zero, map[], map[], ledger))
  }
}
