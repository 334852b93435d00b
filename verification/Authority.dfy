/** By whose leave and when: exactly when each call on an escrow is accepted, and what every change of an escrow proves
    about who signed and what time it was. */
module Authority {
  import opened Types
  import opened Fees
  import opened Ledger
  import opened PayeeSplit
  import opened History
  import opened Records
  import opened RecordInvariant
  import opened Machine
  import opened EntryPoints
  import opened Runs
  import opened Rulings
  import Lifecycle
  import Disputes
  import Outcomes
  import Receipts
  import Safety
  import Voting

  // ── Words ──

  predicate Signs(signers: Signers, a: Address) {
    a in signers && a != Contract
  }

  predicate Open(g: Globals, action: string) {
    !g.cfg.paused && action !in g.pausedActions
  }

  predicate Overdue(r: Rec, now: u64) {
    || (r.escrow.expiresAt.Some? && r.escrow.expiresAt.value <= now)
    || (r.expiry.Some? && r.expiry.value.expiresAt <= now)
  }

  ghost predicate Sells(r: Rec, a: Address) {
    exists i :: 0 <= i < |r.escrow.payees| && r.escrow.payees[i].address == a
  }

  predicate Buys(r: Rec, a: Address) {
    r.escrow.buyer == Some(a)
  }

  /** Named as a resolver, whether or not it may rule yet. */
  predicate Judges(rs: ResolverSet, a: Address) {
    match rs
    case Single(resolver) => a == resolver
    case Multi(members, _) => a in members
    case Fallback(primary, backup, _) => a == primary || a == backup
  }

  function First(r: Rec): Address {
    r.escrow.payees[0].address
  }

  predicate BuyerSigns(signers: Signers, r: Rec) {
    r.escrow.buyer.Some? && Signs(signers, r.escrow.buyer.value)
  }

  predicate BothSign(signers: Signers, r: Rec) {
    BuyerSigns(signers, r) && Signs(signers, First(r))
  }

  /** When the escrow was created, and the end of the week it has to be funded. */
  function Born(r: Rec): int
    requires r.history != []
  {
    r.history[0].time
  }

  /** The end of the dispute window, as packed beside the funding time. */
  function Deadline(r: Rec): int {
    r.escrow.packedTimestamps % HALF_WORD
  }

  function Bought(r: Rec): int {
    r.escrow.packedTimestamps / HALF_WORD
  }

  predicate OnSale(r: Rec) {
    r.escrow.state == Funded || r.escrow.state == Shipped
  }

  // ── When each call is accepted ──

  ghost predicate MayFund(g: Globals, signers: Signers, r: Rec, buyer: Address)
    requires r.history != []
  {
    && Open(g, "FUND") && r.escrow.state == Pending && Signs(signers, buyer)
    && !Overdue(r, g.now) && g.now <= Born(r) + PENDING_EXPIRY_WINDOW <= MAX_U64
    && !Sells(r, buyer) && !Judges(r.escrow.resolvers, buyer) && (r.escrow.buyer.Some? ==> Buys(r, buyer))
    && g.now + DISPUTE_WINDOW <= MAX_U64
  }

  ghost predicate MayShip(g: Globals, signers: Signers, r: Rec, caller: Address, trackingLen: nat) {
    && Open(g, "mark_shipped") && Signs(signers, caller) && Sells(r, caller) && !Overdue(r, g.now)
    && (r.escrow.state == Funded || r.escrow.state == RefundRequested) && 0 < trackingLen <= MAX_TRACKING_ID_LEN
  }

  ghost predicate MayProposeDelivery(g: Globals, signers: Signers, r: Rec, caller: Address) {
    && Signs(signers, caller) && caller == g.admin && r.escrow.state == Shipped && r.escrow.deliveredAt.None?
    && g.now + DELIVERY_TIMELOCK <= MAX_U64
  }

  ghost predicate MayWithdrawProposal(g: Globals, signers: Signers, r: Rec, caller: Address) {
    Signs(signers, caller) && (caller == g.admin || Buys(r, caller)) && r.proposal.Some?
  }

  ghost predicate MayRejectProposal(signers: Signers, r: Rec, caller: Address) {
    Signs(signers, caller) && Buys(r, caller) && r.proposal.Some?
  }

  ghost predicate MayRecordDelivery(g: Globals, signers: Signers, r: Rec, caller: Address) {
    Signs(signers, caller) && caller == g.admin && r.proposal.Some? && r.proposal.value <= g.now
  }

  /** No share of what is left after a fee of `bps` overflows. */
  ghost predicate Splits(r: Rec, bps: nat)
    requires 0 <= r.escrow.amount
  {
    var net := r.escrow.amount - FloorFee(r.escrow.amount, bps);
    forall i :: 0 < i < |r.escrow.payees| ==> net * r.escrow.payees[i].bps <= MAX_I128
  }

  ghost predicate MayConfirm(g: Globals, signers: Signers, r: Rec, caller: Address, waive: bool)
    requires 0 <= r.escrow.amount
  {
    && Open(g, "confirm_delivery") && Signs(signers, caller) && Buys(r, caller) && !Overdue(r, g.now)
    && r.escrow.state == Shipped && (waive || Deadline(r) <= g.now) && Splits(r, r.escrow.feeBps)
  }

  /** Once delivery has been recorded for two days, or, if never shipped, once both the dispute window and the shipping
      window have passed. */
  ghost predicate MayAutoRelease(g: Globals, r: Rec)
    requires 0 <= r.escrow.amount
  {
    && Open(g, "auto_release") && !Overdue(r, g.now) && Splits(r, g.cfg.protocolFeeBps)
    && match r.escrow.state
       case Shipped => r.escrow.deliveredAt.Some? && r.escrow.deliveredAt.value + DELIVERY_RELEASE_WINDOW <= g.now
       case Funded => Deadline(r) <= g.now && Bought(r) + r.escrow.shippingWindow <= g.now
       case _ => false
  }

  ghost predicate MayCoSign(g: Globals, signers: Signers, r: Rec, caller: Address) {
    Open(g, "co_signed_release") && Signs(signers, caller) && BothSign(signers, r) && OnSale(r)
  }

  ghost predicate MayReclaim(g: Globals, signers: Signers, r: Rec) {
    && Open(g, "RECLAIM") && BuyerSigns(signers, r) && OnSale(r)
    && r.escrow.expiresAt.Some? && r.escrow.expiresAt.value <= g.now
  }

  ghost predicate MayAutoCancel(g: Globals, r: Rec)
    requires r.history != []
  {
    && Open(g, "auto_cancel_pending") && r.escrow.state == Pending && !Overdue(r, g.now)
    && Born(r) + PENDING_EXPIRY_WINDOW < g.now
  }

  ghost predicate MayCancel(g: Globals, signers: Signers, r: Rec, caller: Address) {
    && Open(g, "cancel_escrow") && Signs(signers, caller) && !Overdue(r, g.now)
    && ((r.escrow.state == Pending && (Sells(r, caller) || Buys(r, caller)))
        || (r.escrow.state == Funded && Buys(r, caller)))
  }

  ghost predicate MayUnwind(g: Globals, signers: Signers, r: Rec) {
    Open(g, "mutual_cancel") && BothSign(signers, r) && OnSale(r) && !Overdue(r, g.now)
  }

  ghost predicate MayRequestRefund(g: Globals, signers: Signers, r: Rec, caller: Address) {
    && Open(g, "request_refund") && Signs(signers, caller) && Buys(r, caller)
    && r.escrow.state == Funded && !Overdue(r, g.now)
  }

  ghost predicate MayApproveRefund(g: Globals, signers: Signers, r: Rec, caller: Address) {
    && Open(g, "approve_refund") && Signs(signers, caller) && caller == First(r)
    && r.escrow.state == RefundRequested && !Overdue(r, g.now)
  }

  ghost predicate MayRotate(g: Globals, signers: Signers, r: Rec, caller: Address, next: Address) {
    && Open(g, "rotate_resolver") && Signs(signers, caller) && (Sells(r, caller) || caller == g.admin)
    && !Terminal(r.escrow.state) && r.escrow.resolvers.Single?
    && !Judges(r.escrow.resolvers, next) && !Sells(r, next) && !Buys(r, next)
  }

  ghost predicate MayRecover(g: Globals, signers: Signers, r: Rec, caller: Address) {
    g.cfg.recoveryMode && Signs(signers, caller) && Buys(r, caller) && Live(r.escrow.state)
  }

  ghost predicate MayDrain(g: Globals, signers: Signers, r: Rec) {
    && g.cfg.paused && BothSign(signers, r)
    && (OnSale(r) || r.escrow.state == Disputed || r.escrow.state == PendingFinalization)
  }

  ghost predicate MayDispute(g: Globals, signers: Signers, r: Rec, caller: Address, known: bool, len: nat) {
    && Open(g, "raise_dispute") && Signs(signers, caller) && Buys(r, caller) && OnSale(r)
    && g.now < Deadline(r) && known && len <= MAX_DESCRIPTION_LEN
  }

  /** A ruling that charges has room for its fee on the token's running total, and the appeal window ends in time. */
  ghost predicate MayRuleNow(g: Globals, r: Rec)
    requires 0 <= r.escrow.amount && r.dispute.Some?
  {
    && g.now + APPEAL_WINDOW <= MAX_U64
    && (r.dispute.value.feesCharged
        || Disputes.ArbitrationTotal(g, r.escrow.token) + FloorFee(r.escrow.amount, g.cfg.arbitrationFeeBps)
           <= MAX_I128)
  }

  ghost predicate MayVote(g: Globals, signers: Signers, r: Rec, caller: Address, ballot: Ballot)
    requires 0 <= r.escrow.amount
  {
    && Open(g, "RESOLVE") && Signs(signers, caller) && r.escrow.state == Disputed && r.dispute.Some?
    && MayRule(r.escrow.resolvers, caller, g.now)
    && (Enough(r.escrow.resolvers, |Backers(r.votes, ballot) + {caller}|) ==> MayRuleNow(g, r))
  }

  ghost predicate MayClaimTimeout(g: Globals, signers: Signers, r: Rec, caller: Address) {
    && Open(g, "claim_dispute_timeout") && Signs(signers, caller) && (Buys(r, caller) || caller == First(r))
    && r.escrow.state == Disputed && r.dispute.Some?
    && r.dispute.value.disputedAt + g.cfg.disputeTimeout <= g.now && g.now + APPEAL_WINDOW <= MAX_U64
  }

  ghost predicate MayBreakDeadlock(g: Globals, r: Rec)
    requires 0 <= r.escrow.amount
  {
    && Open(g, "resolve_deadlocked_dispute") && r.escrow.state == Disputed && r.dispute.Some? && r.votes != []
    && r.dispute.value.disputedAt + DISPUTE_DEADLOCK_WINDOW <= g.now && MayRuleNow(g, r)
  }

  ghost predicate MayAppeal(g: Globals, signers: Signers, r: Rec, caller: Address) {
    && Open(g, "appeal_dispute") && Signs(signers, caller) && (Buys(r, caller) || caller == First(r))
    && r.escrow.state == PendingFinalization && r.dispute.Some? && r.dispute.value.appealCount < g.maxAppeals
    && g.now < r.dispute.value.resolvedAt + APPEAL_WINDOW <= MAX_U64
  }

  ghost predicate MayFinalize(g: Globals, signers: Signers, r: Rec, caller: Address)
    requires 0 <= Principal(r)
  {
    && Open(g, "finalize_dispute") && Signs(signers, caller)
    && r.escrow.state == PendingFinalization && r.dispute.Some?
    && r.dispute.value.resolvedAt + APPEAL_WINDOW <= g.now
    && (FloorFee(Principal(r), g.cfg.platformFeeBps) == 0 || g.cfg.treasury.Some?)
  }

  ghost predicate MayOverride(g: Globals, signers: Signers, r: Rec, caller: Address) {
    && Open(g, "cancel_pending_finalization") && Signs(signers, caller) && caller == g.admin
    && r.escrow.state == PendingFinalization
  }

  // ── That is what the entry points check ──

  lemma FundingGuards(g: Globals, signers: Signers, r: Rec, buyer: Address)
    requires RecOk(r, g.now)
    ensures Lifecycle.FundEscrow(g, signers, Some(r), buyer).Ok? <==> MayFund(g, signers, r, buyer)
    ensures Lifecycle.FundBasketEscrow(g, signers, Some(r), buyer).Ok? <==>
            MayFund(g, signers, r, buyer) && r.basket != []
  {
  }

  lemma ShippingGuards(g: Globals, signers: Signers, r: Rec, caller: Address, len: nat)
    ensures Lifecycle.MarkShipped(g, signers, Some(r), caller, len).Ok? <==> MayShip(g, signers, r, caller, len)
  {
  }

  lemma DeliveryGuards(g: Globals, signers: Signers, r: Rec, caller: Address)
    requires SideRecordsOk(r)
    ensures Lifecycle.ProposeRecordDelivery(g, signers, Some(r), caller).Ok? <==>
            MayProposeDelivery(g, signers, r, caller)
    ensures Lifecycle.CancelDeliveryProposal(g, signers, Some(r), caller).Ok? <==>
            MayWithdrawProposal(g, signers, r, caller)
    ensures Lifecycle.RejectDeliveryProposal(signers, Some(r), caller).Ok? <==> MayRejectProposal(signers, r, caller)
    ensures Lifecycle.RecordDelivery(g, signers, Some(r), caller).Ok? <==> MayRecordDelivery(g, signers, r, caller)
  {
  }

  lemma SettleGuards(g: Globals, r: Rec, bps: u32)
    requires 0 <= r.escrow.amount && bps <= BASIS_POINTS && g.cfg.feeCollector.Some?
    ensures Lifecycle.Settle(g, r, bps).Ok? <==> Splits(r, bps)
  {
    var (_, net) := ProtocolFee(r.escrow.amount, bps).value;
    var others := r.escrow.payees[1..];
    assert SharesFit(others, net) <==> Splits(r, bps) by {
      assert forall i :: 0 <= i < |others| ==> others[i] == r.escrow.payees[i + 1];
      if SharesFit(others, net) {
        forall i | 0 < i < |r.escrow.payees| ensures net * r.escrow.payees[i].bps <= MAX_I128 {
          assert others[i - 1] == r.escrow.payees[i];
        }
      }
    }
  }

  lemma ConfirmGuards(g: Globals, signers: Signers, r: Rec, caller: Address, waive: bool)
    requires RecOk(r, g.now) && GlobalsOk(g)
    ensures Lifecycle.ConfirmDelivery(g, signers, Some(r), caller, waive).Ok? <==>
            MayConfirm(g, signers, r, caller, waive)
  {
    SettleGuards(g, r, r.escrow.feeBps);
  }

  lemma AutoReleaseGuards(g: Globals, r: Rec)
    requires RecOk(r, g.now) && GlobalsOk(g)
    ensures Lifecycle.AutoRelease(g, Some(r)).Ok? <==> MayAutoRelease(g, r)
  {
    SettleGuards(g, r, g.cfg.protocolFeeBps);
  }

  lemma CoSignGuards(g: Globals, signers: Signers, r: Rec, caller: Address)
    requires RecOk(r, g.now) && GlobalsOk(g)
    ensures Lifecycle.CoSignedRelease(g, signers, Some(r), caller).Ok? <==> MayCoSign(g, signers, r, caller)
  {
  }

  lemma CancelGuards(g: Globals, signers: Signers, r: Rec, caller: Address)
    requires RecOk(r, g.now)
    ensures Lifecycle.ReclaimExpired(g, signers, Some(r)).Ok? <==> MayReclaim(g, signers, r)
    ensures Lifecycle.AutoCancelPending(g, Some(r)).Ok? <==> MayAutoCancel(g, r)
    ensures Lifecycle.CancelEscrow(g, signers, Some(r), caller).Ok? <==> MayCancel(g, signers, r, caller)
    ensures Lifecycle.MutualCancel(g, signers, Some(r)).Ok? <==> MayUnwind(g, signers, r)
  {
  }

  lemma RefundGuards(g: Globals, signers: Signers, r: Rec, caller: Address)
    requires RecOk(r, g.now)
    ensures Lifecycle.RequestRefund(g, signers, Some(r), caller).Ok? <==> MayRequestRefund(g, signers, r, caller)
    ensures Lifecycle.ApproveRefund(g, signers, Some(r), caller).Ok? <==> MayApproveRefund(g, signers, r, caller)
    ensures Lifecycle.RecoveryWithdraw(g, signers, Some(r), caller).Ok? <==> MayRecover(g, signers, r, caller)
    ensures Lifecycle.EmergencyDrain(g, signers, Some(r)).Ok? <==> MayDrain(g, signers, r)
  {
  }

  lemma RotationGuards(g: Globals, signers: Signers, r: Rec, caller: Address, next: Address)
    ensures Lifecycle.RotateResolver(g, signers, Some(r), caller, next).Ok? <==> MayRotate(g, signers, r, caller, next)
  {
  }

  lemma DisputeGuards(g: Globals, signers: Signers, r: Rec, caller: Address, known: bool, len: nat)
    requires RecOk(r, g.now)
    ensures Disputes.RaiseDispute(g, signers, Some(r), caller, known, len).Ok? <==>
            MayDispute(g, signers, r, caller, known, len)
    ensures Disputes.CancelPendingFinalization(g, signers, Some(r), caller).Ok? <==>
            MayOverride(g, signers, r, caller)
  {
  }

  lemma TimeoutGuards(g: Globals, signers: Signers, r: Rec, caller: Address)
    requires RecOk(r, g.now) && GlobalsOk(g)
    ensures Disputes.ClaimDisputeTimeout(g, signers, Some(r), caller).Ok? <==> MayClaimTimeout(g, signers, r, caller)
  {
  }

  lemma AppealGuards(g: Globals, signers: Signers, r: Rec, caller: Address)
    requires RecOk(r, g.now) && GlobalsOk(g)
    ensures Disputes.AppealDispute(g, signers, Some(r), caller).Ok? <==> MayAppeal(g, signers, r, caller)
  {
  }

  lemma FinalizationGuards(g: Globals, signers: Signers, r: Rec, caller: Address)
    requires RecOk(r, g.now) && GlobalsOk(g)
    ensures Disputes.FinalizeDispute(g, signers, Some(r), caller).Ok? <==> MayFinalize(g, signers, r, caller)
  {
    if r.escrow.state == PendingFinalization {
      Outcomes.SettlementDefined(g, r);
    }
  }

  lemma ResolveGuards(g: Globals, r: Rec, actor: Address, outcome: Ballot, votes: seq<Vote>)
    requires AmountsOk(r) && DisputeOk(r, g.now) && GlobalsOk(g) && r.dispute.Some?
    ensures Disputes.Resolve(g, r, actor, outcome, votes, true).Ok? <==> MayRuleNow(g, r)
  {
    var amount: nat := r.escrow.amount;
    CappedFee(amount, g.cfg.arbitrationFeeBps, MAX_ARBITRATION_FEE_BPS);
    CappedFee(amount, r.escrow.resolverFeeBps, MAX_ESCROW_FEE_BPS);
  }

  lemma VoteGuards(g: Globals, signers: Signers, r: Rec, caller: Address, ballot: Ballot)
    requires AmountsOk(r) && DisputeOk(r, g.now) && VotesOk(r, g.now) && GlobalsOk(g)
    ensures Disputes.CastVote(g, signers, Some(r), caller, ballot).Ok? <==> MayVote(g, signers, r, caller, ballot)
  {
    if r.escrow.state == Disputed {
      var votes := Voting.Cast(r.votes, caller, ballot, g.now);
      CastMoves(r.votes, caller, ballot, g.now);
      EnoughIsThreshold(r.escrow.resolvers, votes, ballot);
      Voting.DecidingBallotWins(r.votes, caller, ballot, g.now, Voting.Threshold(r.escrow.resolvers));
      ResolveGuards(g, r, caller, ballot, votes);
    }
  }

  lemma DeadlockGuards(g: Globals, r: Rec)
    requires AmountsOk(r) && DisputeOk(r, g.now) && VotesOk(r, g.now) && GlobalsOk(g)
    ensures Disputes.ResolveDeadlockedDispute(g, Some(r)).Ok? <==> MayBreakDeadlock(g, r)
  {
    if r.escrow.state == Disputed && r.votes != [] {
      var outcome := Voting.Majority(r.votes);
      Voting.MajorityHasBacker(r.votes);
      ResolveGuards(g, r, Voting.VoterFor(r.votes, outcome).value, outcome, r.votes);
    }
  }

  // ── Every call ──

  ghost predicate Allowed(g: Globals, signers: Signers, c: Call, r: Rec)
    requires ActsOnEscrow(c) && r.history != [] && 0 <= r.escrow.amount && 0 <= Principal(r)
  {
    match c
    case FundEscrow(_, buyer) => MayFund(g, signers, r, buyer)
    case FundBasketEscrow(_, buyer) => MayFund(g, signers, r, buyer) && r.basket != []
    case MarkShipped(_, caller, len) => MayShip(g, signers, r, caller, len)
    case ProposeRecordDelivery(_, caller) => MayProposeDelivery(g, signers, r, caller)
    case CancelDeliveryProposal(_, caller) => MayWithdrawProposal(g, signers, r, caller)
    case RejectDeliveryProposal(_, caller) => MayRejectProposal(signers, r, caller)
    case RecordDelivery(_, caller) => MayRecordDelivery(g, signers, r, caller)
    case ConfirmDelivery(_, caller, waive) => MayConfirm(g, signers, r, caller, waive)
    case AutoRelease(_) => MayAutoRelease(g, r)
    case CoSignedRelease(_, caller) => MayCoSign(g, signers, r, caller)
    case ReclaimExpired(_) => MayReclaim(g, signers, r)
    case AutoCancelPending(_) => MayAutoCancel(g, r)
    case CancelEscrow(_, caller) => MayCancel(g, signers, r, caller)
    case MutualCancel(_) => MayUnwind(g, signers, r)
    case RequestRefund(_, caller) => MayRequestRefund(g, signers, r, caller)
    case ApproveRefund(_, caller) => MayApproveRefund(g, signers, r, caller)
    case RotateResolver(_, caller, next) => MayRotate(g, signers, r, caller, next)
    case RecoveryWithdraw(_, caller) => MayRecover(g, signers, r, caller)
    case EmergencyDrain(_) => MayDrain(g, signers, r)
    case RaiseDispute(_, caller, known, len) => MayDispute(g, signers, r, caller, known, len)
    case CastVote(_, caller, ballot) => MayVote(g, signers, r, caller, ballot)
    case ClaimDisputeTimeout(_, caller) => MayClaimTimeout(g, signers, r, caller)
    case ResolveDeadlockedDispute(_) => MayBreakDeadlock(g, r)
    case AppealDispute(_, caller) => MayAppeal(g, signers, r, caller)
    case FinalizeDispute(_, caller) => MayFinalize(g, signers, r, caller)
    case CancelPendingFinalization(_, caller) => MayOverride(g, signers, r, caller)
  }

  /** The plan of a call succeeds exactly when the call is allowed. */
  ghost predicate Guarded(g: Globals, signers: Signers, c: Call, r: Rec)
    requires ActsOnEscrow(c)
  {
    && r.history != [] && 0 <= r.escrow.amount && 0 <= Principal(r)
    && (Plan(g, signers, c, Some(r)).Ok? <==> Allowed(g, signers, c, r))
  }

  lemma FundingCalls(g: Globals, signers: Signers, c: Call, r: Rec)
    requires RecOk(r, g.now) && (c.FundEscrow? || c.FundBasketEscrow?)
    ensures Guarded(g, signers, c, r)
  {
    FundingGuards(g, signers, r, c.buyer);
  }

  lemma DeliveryCalls(g: Globals, signers: Signers, c: Call, r: Rec)
    requires RecOk(r, g.now)
    requires c.MarkShipped? || c.ProposeRecordDelivery? || c.CancelDeliveryProposal? || c.RejectDeliveryProposal?
          || c.RecordDelivery?
    ensures Guarded(g, signers, c, r)
  {
    DeliveryGuards(g, signers, r, c.caller);
    if c.MarkShipped? {
      ShippingGuards(g, signers, r, c.caller, c.trackingLen);
    }
  }

  lemma ConfirmationCall(g: Globals, signers: Signers, c: Call, r: Rec)
    requires RecOk(r, g.now) && GlobalsOk(g) && c.ConfirmDelivery?
    ensures Guarded(g, signers, c, r)
  {
    ConfirmGuards(g, signers, r, c.caller, c.waive);
  }

  lemma ReleaseCalls(g: Globals, signers: Signers, c: Call, r: Rec)
    requires RecOk(r, g.now) && GlobalsOk(g) && (c.AutoRelease? || c.CoSignedRelease?)
    ensures Guarded(g, signers, c, r)
  {
    AutoReleaseGuards(g, r);
    if c.CoSignedRelease? {
      CoSignGuards(g, signers, r, c.caller);
    }
  }

  lemma CancelCalls(g: Globals, signers: Signers, c: Call, r: Rec)
    requires RecOk(r, g.now)
    requires c.ReclaimExpired? || c.AutoCancelPending? || c.CancelEscrow? || c.MutualCancel?
    ensures Guarded(g, signers, c, r)
  {
    CancelGuards(g, signers, r, if c.CancelEscrow? then c.caller else Contract);
  }

  lemma RefundCalls(g: Globals, signers: Signers, c: Call, r: Rec)
    requires RecOk(r, g.now)
    requires c.RequestRefund? || c.ApproveRefund? || c.RecoveryWithdraw? || c.EmergencyDrain?
    ensures Guarded(g, signers, c, r)
  {
    RefundGuards(g, signers, r, if c.EmergencyDrain? then Contract else c.caller);
  }

  lemma RotationCall(g: Globals, signers: Signers, c: Call, r: Rec)
    requires RecOk(r, g.now) && c.RotateResolver?
    ensures Guarded(g, signers, c, r)
  {
    RotationGuards(g, signers, r, c.caller, c.next);
  }

  lemma OpeningCalls(g: Globals, signers: Signers, c: Call, r: Rec)
    requires RecOk(r, g.now) && (c.RaiseDispute? || c.CancelPendingFinalization?)
    ensures Guarded(g, signers, c, r)
  {
    if c.RaiseDispute? {
      DisputeGuards(g, signers, r, c.caller, c.knownReason, c.descriptionLen);
    } else {
      DisputeGuards(g, signers, r, c.caller, true, 0);
    }
  }

  lemma RulingCalls(g: Globals, signers: Signers, c: Call, r: Rec)
    requires RecOk(r, g.now) && GlobalsOk(g)
    requires c.CastVote? || c.ClaimDisputeTimeout? || c.ResolveDeadlockedDispute?
    ensures Guarded(g, signers, c, r)
  {
    if c.CastVote? {
      VoteGuards(g, signers, r, c.caller, c.ballot);
    } else if c.ClaimDisputeTimeout? {
      TimeoutGuards(g, signers, r, c.caller);
    } else {
      DeadlockGuards(g, r);
    }
  }

  lemma FinalCalls(g: Globals, signers: Signers, c: Call, r: Rec)
    requires RecOk(r, g.now) && GlobalsOk(g) && (c.AppealDispute? || c.FinalizeDispute?)
    ensures Guarded(g, signers, c, r)
  {
    if c.AppealDispute? {
      AppealGuards(g, signers, r, c.caller);
    } else {
      FinalizationGuards(g, signers, r, c.caller);
    }
  }

  lemma EveryCallIsGuarded(g: Globals, signers: Signers, c: Call, r: Rec)
    requires RecOk(r, g.now) && GlobalsOk(g) && ActsOnEscrow(c)
    ensures Guarded(g, signers, c, r)
  {
    if IsDisputeCall(c) {
      if c.RaiseDispute? || c.CancelPendingFinalization? {
        OpeningCalls(g, signers, c, r);
      } else if c.AppealDispute? || c.FinalizeDispute? {
        FinalCalls(g, signers, c, r);
      } else {
        RulingCalls(g, signers, c, r);
      }
    } else {
      LifecycleCallIsGuarded(g, signers, c, r);
    }
  }

  lemma LifecycleCallIsGuarded(g: Globals, signers: Signers, c: Call, r: Rec)
    requires RecOk(r, g.now) && GlobalsOk(g) && ActsOnEscrow(c) && !IsDisputeCall(c)
    ensures Guarded(g, signers, c, r)
  {
    if c.FundEscrow? || c.FundBasketEscrow? {
      FundingCalls(g, signers, c, r);
    } else if c.ConfirmDelivery? {
      ConfirmationCall(g, signers, c, r);
    } else if c.AutoRelease? || c.CoSignedRelease? {
      ReleaseCalls(g, signers, c, r);
    } else if c.ReclaimExpired? || c.AutoCancelPending? || c.CancelEscrow? || c.MutualCancel? {
      CancelCalls(g, signers, c, r);
    } else if c.RequestRefund? || c.ApproveRefund? || c.RecoveryWithdraw? || c.EmergencyDrain? {
      RefundCalls(g, signers, c, r);
    } else if c.RotateResolver? {
      RotationCall(g, signers, c, r);
    } else {
      DeliveryCalls(g, signers, c, r);
    }
  }

  // ── Affording it ──

  /** Making positive transfers one by one to other accounts takes exactly their sums. */
  lemma {:induction false} AffordableIffCovered(l: Balances, trs: seq<Transfer>, a: Address)
    requires AllFrom(trs, a) && forall i :: 0 <= i < |trs| ==> trs[i].to != a && trs[i].amount > 0
    ensures Affordable(l, trs) <==> forall t :: Sent(trs, t, a) > 0 ==> Sent(trs, t, a) <= Balance(l, t, a)
    decreases |trs|
  {
    if trs != [] {
      assert trs[0].from == a && trs[0].to != a && trs[0].amount > 0;
      var (l', rest) := (Post(l, trs[0]), trs[1..]);
      AffordableIffCovered(l', rest, a);
      assert Sent(trs, trs[0].token, a) == trs[0].amount + Sent(rest, trs[0].token, a);
      forall t ensures t != trs[0].token ==>
                         Sent(trs, t, a) == Sent(rest, t, a) && Balance(l', t, a) == Balance(l, t, a) {
      }
      assert Balance(l', trs[0].token, a) == Balance(l, trs[0].token, a) - trs[0].amount;
      if trs[0].amount <= Balance(l, trs[0].token, a) && Affordable(l', rest) {
        forall t | Sent(trs, t, a) > 0 ensures Sent(trs, t, a) <= Balance(l, t, a) {
        }
      }
      if forall t :: Sent(trs, t, a) > 0 ==> Sent(trs, t, a) <= Balance(l, t, a) {
        assert Sent(trs, trs[0].token, a) <= Balance(l, trs[0].token, a);
        forall t | Sent(rest, t, a) > 0 ensures Sent(rest, t, a) <= Balance(l', t, a) {
          assert Sent(trs, t, a) > 0;
        }
      }
    }
  }

  lemma FundingFrom(g: Globals, signers: Signers, c: Call, r: Rec)
    requires (c.FundEscrow? || c.FundBasketEscrow?) && Plan(g, signers, c, Some(r)).Ok? && r.escrow.amount > 0
    ensures c.buyer != Contract
    ensures AllFrom(Plan(g, signers, c, Some(r)).value.pays, c.buyer)
    ensures var pays := Plan(g, signers, c, Some(r)).value.pays;
            forall i :: 0 <= i < |pays| ==> pays[i].to == Contract && pays[i].amount > 0
  {
    DepositsGo(r.basket, r.escrow.token, c.buyer);
  }

  predicate PositiveTo(trs: seq<Transfer>, a: Address) {
    forall i :: 0 <= i < |trs| ==> trs[i].to == a && trs[i].amount > 0
  }

  lemma {:induction false} DepositsGo(basket: seq<TokenEntry>, primary: Token, from: Address)
    ensures AllFrom(BasketDeposits(basket, primary, from), from)
    ensures PositiveTo(BasketDeposits(basket, primary, from), Contract)
    ensures AllFrom(AllDeposits(basket, from), from) && PositiveTo(AllDeposits(basket, from), Contract)
  {
    if basket != [] {
      DepositsGo(basket[1..], primary, from);
    }
  }

  /** Whoever pays in holds it. */
  ghost predicate Covered(s: State, c: Call, r: Rec)
    requires ActsOnEscrow(c) && Receipts.Payable(s.g, r)
  {
    forall t, a :: a != Contract && Receipts.PaysIn(s.g, c, r, t, a) > 0 ==>
      Receipts.PaysIn(s.g, c, r, t, a) <= Balance(s.ledger, t, a)
  }

  lemma FundingAffordable(s: State, signers: Signers, c: Call, r: Rec)
    requires BasketOk(r) && 0 < r.escrow.amount == Principal(r) && Receipts.Payable(s.g, r)
    requires (c.FundEscrow? || c.FundBasketEscrow?) && Plan(s.g, signers, c, Some(r)).Ok?
    ensures Affordable(s.ledger, Plan(s.g, signers, c, Some(r)).value.pays) <==> Covered(s, c, r)
  {
    var pays := Plan(s.g, signers, c, Some(r)).value.pays;
    FundingFrom(s.g, signers, c, r);
    AffordableIffCovered(s.ledger, pays, c.buyer);
    forall t, a ensures Receipts.PaysIn(s.g, c, r, t, a) == if a == c.buyer then Sent(pays, t, a) else 0 {
      Receipts.FundingTakes(s.g, signers, c, r, t, a);
    }
    if Covered(s, c, r) {
      forall t | Sent(pays, t, c.buyer) > 0 ensures Sent(pays, t, c.buyer) <= Balance(s.ledger, t, c.buyer) {
        assert Receipts.PaysIn(s.g, c, r, t, c.buyer) > 0;
      }
    }
  }

  lemma AppealAffordable(s: State, signers: Signers, c: Call, r: Rec)
    requires Receipts.Payable(s.g, r) && GlobalsOk(s.g)
    requires c.AppealDispute? && Plan(s.g, signers, c, Some(r)).Ok?
    ensures Affordable(s.ledger, Plan(s.g, signers, c, Some(r)).value.pays) <==> Covered(s, c, r)
  {
    var fee := FloorFee(r.escrow.amount, s.g.cfg.appealFeeBps);
    var pays := Plan(s.g, signers, c, Some(r)).value.pays;
    assert pays == if fee == 0 then [] else [Transfer(r.escrow.token, c.caller, s.g.cfg.feeCollector.value, fee)];
    assert Receipts.PaysIn(s.g, c, r, r.escrow.token, c.caller) == fee;
  }

  /** In every reachable state a call on an escrow is accepted exactly when it is allowed and whoever pays in can. */
  lemma AcceptedIff(s: State, signers: Signers, c: Call)
    requires Reachable(s) && ActsOnEscrow(c)
    ensures c.id in s.recs ==> s.recs[c.id].history != [] && Receipts.Payable(s.g, s.recs[c.id])
    ensures Exec(s, signers, c).Ok? <==>
            c.id in s.recs && Allowed(s.g, signers, c, s.recs[c.id]) && Covered(s, c, s.recs[c.id])
  {
    if c.id in s.recs {
      var r := s.recs[c.id];
      GuardedRecord(s, signers, c);
      if Plan(s.g, signers, c, Some(r)).Ok? {
        PaymentGoesThrough(s, signers, c);
      }
    }
  }

  lemma GuardedRecord(s: State, signers: Signers, c: Call)
    requires Reachable(s) && ActsOnEscrow(c) && c.id in s.recs
    ensures Guarded(s.g, signers, c, s.recs[c.id]) && Receipts.Payable(s.g, s.recs[c.id])
  {
    RecordInOrder(s, c.id);
    Outcomes.GoodSettings(s);
    EveryCallIsGuarded(s.g, signers, c, s.recs[c.id]);
    Receipts.InOrderIsPayable(s.g, s.recs[c.id], s.g.now);
  }

  lemma PaymentGoesThrough(s: State, signers: Signers, c: Call)
    requires Reachable(s) && ActsOnEscrow(c) && c.id in s.recs && Plan(s.g, signers, c, Some(s.recs[c.id])).Ok?
    ensures Receipts.Payable(s.g, s.recs[c.id])
    ensures Affordable(s.ledger, Plan(s.g, signers, c, Some(s.recs[c.id])).value.pays) <==>
            Covered(s, c, s.recs[c.id])
  {
    GuardedRecord(s, signers, c);
    if !Safety.PaidFromOutside(c) {
      Safety.ReachablePlanIsCovered(s, signers, c, Plan(s.g, signers, c, Some(s.recs[c.id])).value);
    } else if c.AppealDispute? {
      Outcomes.GoodSettings(s);
      AppealAffordable(s, signers, c, s.recs[c.id]);
    } else {
      PendingShape(s, signers, c);
      FundingAffordable(s, signers, c, s.recs[c.id]);
    }
  }

  lemma PendingShape(s: State, signers: Signers, c: Call)
    requires Reachable(s) && (c.FundEscrow? || c.FundBasketEscrow?) && c.id in s.recs
    requires Plan(s.g, signers, c, Some(s.recs[c.id])).Ok?
    ensures BasketOk(s.recs[c.id]) && 0 < s.recs[c.id].escrow.amount == Principal(s.recs[c.id])
  {
    RecordInOrder(s, c.id);
  }
}
