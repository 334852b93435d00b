/** Funding, shipping, delivery, release, cancellation and refund of one escrow (`instructions.rs`, and the
    two emergency exits of `admin.rs`). Each function lists the guards of an entry point in order and says
    what the call does to the record. */
module Lifecycle {
  import opened Types
  import opened Fees
  import opened Ledger
  import opened PayeeSplit
  import opened Voting
  import opened History
  import opened Records

  // ── Funding ──

  function FundedRec(r: Rec, buyer: Address, now: u64): Rec {
    var escrow := r.escrow.(buyer := Some(buyer), packedTimestamps := PackFunding(now));
    Enter(r.(escrow := escrow, expiry := None), Funded, now)
  }

  function DepositPays(r: Rec, buyer: Address): seq<Transfer>
    requires r.escrow.amount >= 0
  {
    [Transfer(r.escrow.token, buyer, Contract, r.escrow.amount)] + BasketDeposits(r.basket, r.escrow.token, buyer)
  }

  /** The role checks both funding entry points make. */
  function RolesSeparate(r: Rec, buyer: Address): Check {
    Need(!IsPayee(r.escrow.payees, buyer) && !IsResolver(r.escrow.resolvers, buyer), ConflictingRoles)
  }

  function DesignatedBuyer(r: Rec, buyer: Address): Check {
    Need(r.escrow.buyer.None? || r.escrow.buyer.value == buyer, NotAuthorizedBuyer)
  }

  function FundEscrow(g: Globals, signers: Signers, found: Option<Rec>, buyer: Address): Result<Move> {
    var active := Active(g, "FUND");
    :- active;
    var r :- Load(found);
    :- InState(r.escrow.state, {Pending}, InvalidState);
    :- Signed(signers, buyer);
    :- Need(g.now + DISPUTE_WINDOW <= MAX_U64, ArithmeticOverflow);
    :- FundingNotExpired(g, r);
    :- RolesSeparate(r, buyer);
    :- DesignatedBuyer(r, buyer);
    :- Need(r.escrow.amount >= 0, TransferFailed);
    Ok(Move(FundedRec(r, buyer, g.now), DepositPays(r, buyer), None))
  }

  function FundBasketEscrow(g: Globals, signers: Signers, found: Option<Rec>, buyer: Address): Result<Move> {
    var auth := Signed(signers, buyer);
    :- auth;
    :- Active(g, "FUND");
    var r :- Load(found);
    :- InState(r.escrow.state, {Pending}, InvalidState);
    :- FundingNotExpired(g, r);
    :- RolesSeparate(r, buyer);
    :- DesignatedBuyer(r, buyer);
    :- Need(r.basket != [], BasketTokenMismatch);
    :- Need(g.now + DISPUTE_WINDOW <= MAX_U64, ArithmeticError);
    Ok(Move(FundedRec(r, buyer, g.now), AllDeposits(r.basket, buyer), None))
  }

  // ── Shipping and delivery ──

  function MarkShipped(g: Globals, signers: Signers, found: Option<Rec>, caller: Address,
                       trackingLen: nat): Result<Move> {
    var auth := Signed(signers, caller);
    :- auth;
    :- Active(g, "mark_shipped");
    :- NotExpired(g, found);
    var r :- Load(found);
    :- Need(IsPayee(r.escrow.payees, caller), NotAuthorizedSeller);
    :- InState(r.escrow.state, {Funded, RefundRequested}, InvalidState);
    :- Need(trackingLen > 0, InvalidTrackingId);
    :- Need(trackingLen <= MAX_TRACKING_ID_LEN, InputTooLong);
    Ok(Stay(Enter(r.(escrow := r.escrow.(shippedAt := g.now)), Shipped, g.now)))
  }

  function ProposeRecordDelivery(g: Globals, signers: Signers, found: Option<Rec>, caller: Address): Result<Move> {
    var auth := Signed(signers, caller);
    :- auth;
    :- Need(caller == g.admin, NotAuthorized);
    var r :- Load(found);
    :- InState(r.escrow.state, {Shipped}, InvalidState);
    :- Need(r.escrow.deliveredAt.None?, DeliveryAlreadyRecorded);
    :- Need(g.now + DELIVERY_TIMELOCK <= MAX_U64, ArithmeticOverflow);
    Ok(Stay(r.(proposal := Some(g.now + DELIVERY_TIMELOCK))))
  }

  function CancelDeliveryProposal(g: Globals, signers: Signers, found: Option<Rec>, caller: Address): Result<Move> {
    var auth := Signed(signers, caller);
    :- auth;
    var r :- Load(found);
    :- Need(caller == g.admin || r.escrow.buyer == Some(caller), NotAuthorized);
    :- Need(r.proposal.Some?, DeliveryNotProposed);
    Ok(Stay(r.(proposal := None)))
  }

  function RejectDeliveryProposal(signers: Signers, found: Option<Rec>, caller: Address): Result<Move> {
    var auth := Signed(signers, caller);
    :- auth;
    var r :- Load(found);
    var buyer :- Buyer(r);
    :- Need(caller == buyer, NotAuthorizedBuyer);
    :- Need(r.proposal.Some?, DeliveryNotProposed);
    Ok(Stay(r.(proposal := None)))
  }

  function RecordDelivery(g: Globals, signers: Signers, found: Option<Rec>, caller: Address): Result<Move> {
    var auth := Signed(signers, caller);
    :- auth;
    :- Need(caller == g.admin, NotAuthorized);
    var r :- Load(found);
    :- InState(r.escrow.state, {Shipped}, InvalidState);
    :- Need(r.escrow.deliveredAt.None?, DeliveryAlreadyRecorded);
    :- Need(r.proposal.Some?, DeliveryNotProposed);
    :- Need(g.now >= r.proposal.value, TimelockNotElapsed);
    Ok(Stay(r.(proposal := None, escrow := r.escrow.(deliveredAt := Some(g.now)))))
  }

  // ── Release ──

  /** `settle_escrow_to_payees`. */
  function Settle(g: Globals, r: Rec, feeBps: u32): Result<Move> {
    var collector :- FeeCollector(g);
    var (fee, net) :- ProtocolFee(r.escrow.amount, feeBps);
    :- Need(SharesFit(r.escrow.payees[1..], net), ArithmeticError);
    Ok(Move(
      Enter(r, Completed, g.now).(proposal := None),
      Payout(r.escrow.token, collector, fee) + Shares(r.escrow.token, r.escrow.payees, net)
        + BasketPayouts(r.basket, r.escrow.token, Primary(r)),
      None))
  }

  function ConfirmDelivery(g: Globals, signers: Signers, found: Option<Rec>, caller: Address,
                           waive: bool): Result<Move> {
    var auth := Signed(signers, caller);
    :- auth;
    :- Active(g, "confirm_delivery");
    :- NotExpired(g, found);
    var r :- Load(found);
    var buyer :- Buyer(r);
    :- Need(caller == buyer, NotAuthorizedBuyer);
    :- InState(r.escrow.state, {Shipped}, InvalidStateTransition);
    :- Need(waive || g.now >= DisputeDeadline(r.escrow), DisputeWindowStillOpen);
    Settle(g, r, r.escrow.feeBps)
  }

  /** `ensure_auto_release_eligible`. */
  function AutoReleaseEligible(g: Globals, r: Rec): Check {
    var e := r.escrow;
    if e.state != Funded && e.state != Shipped then Fail(TerminalStateError(e.state, InvalidState))
    else if r.dispute.Some? then Fail(InvalidState)
    else if e.deliveredAt.Some? then
      if e.deliveredAt.value + DELIVERY_RELEASE_WINDOW > MAX_U64 then Fail(ArithmeticOverflow)
      else Need(g.now >= e.deliveredAt.value + DELIVERY_RELEASE_WINDOW, ShippingWindowNotElapsed)
    else if e.state == Shipped then Fail(DeliveryNotRecorded)
    else if g.now < DisputeDeadline(e) then Fail(DeliveryBeforeDisputeWindow)
    else
      var base := if e.shippedAt > 0 then e.shippedAt else FundedAt(e);
      if base + e.shippingWindow > MAX_U64 then Fail(ArithmeticError)
      else Need(g.now >= base + e.shippingWindow, ShippingWindowNotElapsed)
  }

  function AutoRelease(g: Globals, found: Option<Rec>): Result<Move> {
    var active := Active(g, "auto_release");
    :- active;
    :- NotExpired(g, found);
    var r :- Load(found);
    :- AutoReleaseEligible(g, r);
    Settle(g, r, g.cfg.protocolFeeBps)
  }

  function CoSignedRelease(g: Globals, signers: Signers, found: Option<Rec>, caller: Address): Result<Move> {
    var auth := Signed(signers, caller);
    :- auth;
    :- Active(g, "co_signed_release");
    var r :- Load(found);
    :- Signed(signers, Primary(r));
    var buyer :- Buyer(r);
    :- Signed(signers, buyer);
    :- InState(r.escrow.state, {Funded, Shipped}, InvalidState);
    :- Need(r.dispute.None?, InvalidState);
    var collector :- FeeCollector(g);
    var (fee, net) :- ProtocolFee(r.escrow.amount, g.cfg.protocolFeeBps);
    Ok(Move(
      Enter(r, Completed, g.now).(proposal := None),
      Payout(r.escrow.token, Primary(r), net) + Payout(r.escrow.token, collector, fee)
        + BasketPayouts(r.basket, r.escrow.token, Primary(r)),
      None))
  }

  // ── Expiry, cancellation and refund ──

  function ReclaimExpired(g: Globals, signers: Signers, found: Option<Rec>): Result<Move> {
    var active := Active(g, "RECLAIM");
    :- active;
    var r :- Load(found);
    :- InState(r.escrow.state, {Funded, Shipped}, InvalidState);
    :- Need(r.escrow.expiresAt.Some? && g.now >= r.escrow.expiresAt.value, InvalidState);
    var buyer :- Buyer(r);
    :- Signed(signers, buyer);
    Ok(Move(Enter(r, Expired, g.now).(expiry := None, proposal := None), FullPayout(r, buyer), None))
  }

  function AutoCancelPending(g: Globals, found: Option<Rec>): Result<Move> {
    var active := Active(g, "auto_cancel_pending");
    :- active;
    :- NotExpired(g, found);
    var r :- Load(found);
    :- InState(r.escrow.state, {Pending}, InvalidState);
    :- Need(CreatedAt(r.history) + PENDING_EXPIRY_WINDOW <= MAX_U64, ArithmeticOverflow);
    :- Need(g.now > CreatedAt(r.history) + PENDING_EXPIRY_WINDOW, ShippingWindowNotElapsed);
    Ok(Stay(Enter(r, Canceled, g.now).(expiry := None)))
  }

  function CancelEscrow(g: Globals, signers: Signers, found: Option<Rec>, caller: Address): Result<Move> {
    var auth := Signed(signers, caller);
    :- auth;
    :- Active(g, "cancel_escrow");
    :- NotExpired(g, found);
    var r :- Load(found);
    :- Need(IsPayee(r.escrow.payees, caller) || r.escrow.buyer == Some(caller), NotAuthorized);
    if r.escrow.state == Pending then
      Ok(Stay(Enter(r, Canceled, g.now).(expiry := None)))
    else if r.escrow.state == Funded && r.escrow.buyer == Some(caller) then
      Ok(Move(Enter(r, Refunded, g.now).(expiry := None), FullPayout(r, caller), None))
    else
      Err(TerminalStateError(r.escrow.state, InvalidState))
  }

  function MutualCancel(g: Globals, signers: Signers, found: Option<Rec>): Result<Move> {
    var active := Active(g, "mutual_cancel");
    :- active;
    :- NotExpired(g, found);
    var r :- Load(found);
    var buyer :- Buyer(r);
    :- Signed(signers, Primary(r));
    :- Signed(signers, buyer);
    :- InState(r.escrow.state, {Funded, Shipped}, InvalidState);
    Ok(Move(Enter(r, Canceled, g.now).(proposal := None), FullPayout(r, buyer), None))
  }

  function RequestRefund(g: Globals, signers: Signers, found: Option<Rec>, caller: Address): Result<Move> {
    var auth := Signed(signers, caller);
    :- auth;
    :- Active(g, "request_refund");
    :- NotExpired(g, found);
    var r :- Load(found);
    var buyer :- Buyer(r);
    :- Need(caller == buyer, NotAuthorizedBuyer);
    :- InState(r.escrow.state, {Funded}, InvalidStateTransition);
    Ok(Stay(Enter(r, RefundRequested, g.now)))
  }

  function ApproveRefund(g: Globals, signers: Signers, found: Option<Rec>, caller: Address): Result<Move> {
    var auth := Signed(signers, caller);
    :- auth;
    :- Active(g, "approve_refund");
    :- NotExpired(g, found);
    var r :- Load(found);
    :- Need(caller == Primary(r), NotAuthorizedSeller);
    :- InState(r.escrow.state, {RefundRequested}, InvalidStateTransition);
    var buyer :- Buyer(r);
    Ok(Move(Enter(r, Refunded, g.now), FullPayout(r, buyer), None))
  }

  function RotateResolver(g: Globals, signers: Signers, found: Option<Rec>, caller: Address,
                          next: Address): Result<Move> {
    var auth := Signed(signers, caller);
    :- auth;
    :- Active(g, "rotate_resolver");
    var r :- Load(found);
    :- Need(IsPayee(r.escrow.payees, caller) || caller == g.admin, NotAuthorized);
    :- Need(!Terminal(r.escrow.state), TerminalStateError(r.escrow.state, InvalidState));
    :- Need(r.escrow.resolvers.Single?, InvalidState);
    :- Need(next != r.escrow.resolvers.resolver, SameAddress);
    :- Need(!IsPayee(r.escrow.payees, next) && r.escrow.buyer != Some(next), InvalidAddress);
    Ok(Stay(r.(escrow := r.escrow.(resolvers := Single(next)))))
  }

  // ── Emergency exits (`admin.rs`) ──

  function RecoveryWithdraw(g: Globals, signers: Signers, found: Option<Rec>, caller: Address): Result<Move> {
    var auth := Signed(signers, caller);
    :- auth;
    :- Need(g.cfg.recoveryMode, NotInRecoveryMode);
    var r :- Load(found);
    :- Need(Live(r.escrow.state), TerminalStateError(r.escrow.state, InvalidState));
    var buyer :- Buyer(r);
    :- Need(caller == buyer, NotAuthorizedBuyer);
    Ok(Move(Enter(r, Refunded, g.now).(proposal := None), FullPayout(r, buyer), None))
  }

  predicate Drainable(st: EscrowState) {
    st == Funded || st == Shipped || st == Disputed || st == PendingFinalization
  }

  function EmergencyDrain(g: Globals, signers: Signers, found: Option<Rec>): Result<Move> {
    var valid := Need(g.cfg.paused, ContractNotPaused);
    :- valid;
    var r :- Load(found);
    :- Need(Drainable(r.escrow.state), TerminalStateError(r.escrow.state, InvalidState));
    var buyer :- Buyer(r);
    :- Signed(signers, buyer);
    :- Signed(signers, Primary(r));
    Ok(Move(Enter(r, Refunded, g.now).(proposal := None), FullPayout(r, buyer), None))
  }
}
