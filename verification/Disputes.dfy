/** Raising, voting on, appealing and finalizing a dispute (`disputes.rs`, `lib.rs`, and
    `execute_resolution_transition` of `internal.rs`). */
module Disputes {
  import opened Types
  import opened Fees
  import opened Ledger
  import opened Voting
  import opened Records

  function LoadDispute(r: Rec): Result<Dispute> {
    if r.dispute.Some? then Ok(r.dispute.value) else Err(DisputeNotFound)
  }

  function RaiseDispute(g: Globals, signers: Signers, found: Option<Rec>, caller: Address,
                        knownReason: bool, descriptionLen: nat): Result<Move> {
    var auth := Signed(signers, caller);
    :- auth;
    :- Active(g, "raise_dispute");
    var r :- Load(found);
    var buyer :- Buyer(r);
    :- Need(caller == buyer, NotAuthorizedBuyer);
    :- InState(r.escrow.state, {Funded, Shipped}, InvalidState);
    :- Need(g.now < DisputeDeadline(r.escrow), DisputeWindowStillOpen);
    :- Need(knownReason, InvalidDisputeReason);
    :- Need(descriptionLen <= MAX_DESCRIPTION_LEN, InputTooLong);
    Ok(Stay(Enter(r, Disputed, g.now).(
      dispute := Some(Dispute(true, g.now, 0, None, 0, 0, 0, 0, false)), proposal := None)))
  }

  // ── Resolution ──

  /** Arbitration and resolver fees of a resolution: computed once per dispute, zero on a timeout. */
  function ResolutionFees(g: Globals, r: Rec, d: Dispute, charge: bool): (fees: Result<(i128, i128)>)
    ensures fees.Ok? && !d.feesCharged ==> 0 <= fees.value.0 && 0 <= fees.value.1
    ensures fees.Ok? && !d.feesCharged && charge ==> fees.value.0 + fees.value.1 <= r.escrow.amount
  {
    if d.feesCharged then Ok((d.arbitrationFee, d.resolverFee))
    else if !charge then Ok((0, 0))
    else FirstFees(g, r.escrow)
  }

  /** The fees the first charged resolution takes out of the amount. */
  function FirstFees(g: Globals, e: Escrow): (fees: Result<(i128, i128)>)
    ensures fees.Ok? ==> 0 <= fees.value.0 && 0 <= fees.value.1 && fees.value.0 + fees.value.1 <= e.amount
  {
    var arbitration :- CalculateFee(e.amount, g.cfg.arbitrationFeeBps);
    var resolver :- CalculateFee(e.amount, e.resolverFeeBps);
    :- Need(arbitration + resolver <= MAX_I128, ArithmeticError);
    :- Need(arbitration + resolver <= e.amount, FeeExceedsMax);
    Ok((arbitration, resolver))
  }

  function ArbitrationTotal(g: Globals, t: Token): i128 {
    if t in g.arbitrationTotals then g.arbitrationTotals[t] else 0
  }

  function ResolvedRec(r: Rec, d: Dispute, actor: Address, outcome: Ballot, votes: seq<Vote>, amount: i128,
                       arbitration: i128, resolver: i128, now: u64): Rec {
    Enter(r, PendingFinalization, now).(
      escrow := r.escrow.(state := PendingFinalization, amount := amount),
      dispute := Some(d.(resolution := ResolutionCode(outcome), resolvedBy := Some(actor), resolvedAt := now,
                         arbitrationFee := arbitration, resolverFee := resolver, feesCharged := true)),
      votes := votes)
  }

  /** `execute_resolution_transition`. */
  function Resolve(g: Globals, r: Rec, actor: Address, outcome: Ballot, votes: seq<Vote>, charge: bool): Result<Move> {
    var d :- LoadDispute(r);
    var fees :- ResolutionFees(g, r, d, charge);
    ResolveWith(g, r, d, actor, outcome, votes, !d.feesCharged && charge, fees.0, fees.1)
  }

  /** A resolution whose fees are known; `charging` when they come out of the amount now. */
  function ResolveWith(g: Globals, r: Rec, d: Dispute, actor: Address, outcome: Ballot, votes: seq<Vote>,
                       charging: bool, arbitration: i128, resolver: i128): Result<Move>
    requires charging ==> 0 <= arbitration && 0 <= resolver && arbitration + resolver <= r.escrow.amount
  {
    var valid := Need(d.feesCharged || g.cfg.feeCollector.Some?, NotInitialized);
    :- valid;
    var amount: i128 := if charging then r.escrow.amount - arbitration - resolver else r.escrow.amount;
    :- Need(!charging || ArbitrationTotal(g, r.escrow.token) + arbitration <= MAX_I128, ArithmeticError);
    :- Need(d.disputedAt <= g.now, TimestampInvariantViolated);
    :- Need(g.now + APPEAL_WINDOW <= MAX_U64, ArithmeticError);
    Ok(Move(
      ResolvedRec(r, d, actor, outcome, votes, amount, arbitration, resolver, g.now),
      if d.feesCharged then []
      else Payout(r.escrow.token, g.cfg.feeCollector.value, arbitration) + Payout(r.escrow.token, actor, resolver),
      if charging then Some(ArbitrationTotal(g, r.escrow.token) + arbitration) else None))
  }

  /** `resolve_or_vote_internal`, behind both `vote` and `resolve_dispute`. */
  function CastVote(g: Globals, signers: Signers, found: Option<Rec>, caller: Address, ballot: Ballot): Result<Move> {
    var auth := Signed(signers, caller);
    :- auth;
    :- Active(g, "RESOLVE");
    var r :- Load(found);
    :- InState(r.escrow.state, {Disputed}, InvalidState);
    :- Need(CanResolve(r.escrow.resolvers, caller, g.now), NotAuthorized);
    var votes := Cast(r.votes, caller, ballot, g.now);
    match Decided(votes, Threshold(r.escrow.resolvers))
    case None => Ok(Stay(r.(votes := votes)))
    case Some(outcome) => Resolve(g, r, caller, outcome, votes, true)
  }

  function ClaimDisputeTimeout(g: Globals, signers: Signers, found: Option<Rec>, caller: Address): Result<Move> {
    var auth := Signed(signers, caller);
    :- auth;
    :- Active(g, "claim_dispute_timeout");
    var r :- Load(found);
    :- Need(r.escrow.state == Disputed, InvalidState);
    var buyer :- Buyer(r);
    :- Need(caller == buyer || caller == Primary(r), NotAuthorized);
    var d :- LoadDispute(r);
    :- Need(d.disputedAt + g.cfg.disputeTimeout <= MAX_U64, ArithmeticOverflow);
    :- Need(g.now >= d.disputedAt + g.cfg.disputeTimeout, DisputeTimeoutNotElapsed);
    Resolve(g, r, caller, Refund, r.votes, false)
  }

  function ResolveDeadlockedDispute(g: Globals, found: Option<Rec>): Result<Move> {
    var active := Active(g, "resolve_deadlocked_dispute");
    :- active;
    var r :- Load(found);
    :- Need(r.escrow.state == Disputed, InvalidState);
    var d :- LoadDispute(r);
    :- Need(d.disputedAt + DISPUTE_DEADLOCK_WINDOW <= MAX_U64, ArithmeticOverflow);
    :- Need(g.now >= d.disputedAt + DISPUTE_DEADLOCK_WINDOW, DisputeNotDeadlocked);
    :- Need(r.votes != [], NoResolverVotes);
    :- Need(Decided(r.votes, Threshold(r.escrow.resolvers)).None?, DisputeNotDeadlocked);
    var outcome := Majority(r.votes);
    :- Need(VoterFor(r.votes, outcome).Some?, NoResolverVotes);
    Resolve(g, r, VoterFor(r.votes, outcome).value, outcome, r.votes, true)
  }

  // ── Appeal ──

  function AppealDispute(g: Globals, signers: Signers, found: Option<Rec>, caller: Address): Result<Move> {
    var auth := Signed(signers, caller);
    :- auth;
    :- Active(g, "appeal_dispute");
    var r :- Load(found);
    :- Need(r.escrow.state == PendingFinalization, NotPendingFinalization);
    var d :- LoadDispute(r);
    :- Need(d.appealCount < g.maxAppeals, MaxAppealsReached);
    :- Need(d.resolvedAt + APPEAL_WINDOW <= MAX_U64, ArithmeticError);
    :- Need(g.now < d.resolvedAt + APPEAL_WINDOW, DisputeWindowStillOpen);
    var buyer :- Buyer(r);
    :- Need(caller == buyer || caller == Primary(r), NotAuthorized);
    var fee :- CalculateFee(r.escrow.amount, g.cfg.appealFeeBps);
    :- Need(fee <= 0 || g.cfg.feeCollector.Some?, NotInitialized);
    Ok(Reopening(g, r, d, caller, fee))
  }

  /** What a successful appeal does: the dispute is open again, the votes are cleared, the appellant pays the fee. */
  function Reopening(g: Globals, r: Rec, d: Dispute, caller: Address, fee: i128): Move
    requires d.appealCount < MAX_U32 && (fee > 0 ==> g.cfg.feeCollector.Some?)
  {
    Move(
      Enter(r, Disputed, g.now).(
        dispute := Some(d.(active := true, resolution := 0, resolvedBy := None, resolvedAt := 0,
                           appealCount := d.appealCount + 1)),
        votes := []),
      if fee <= 0 then [] else [Transfer(r.escrow.token, caller, g.cfg.feeCollector.value, fee)],
      None)
  }

  // ── Finalization ──

  predicate FitsI128(x: int) {
    -MAX_I128 - 1 <= x <= MAX_I128
  }

  /** The amounts a finalization settles. */
  datatype Waterfall = Waterfall(platform: i128, protocol: i128, payout: i128)

  function Settlement(g: Globals, r: Rec, d: Dispute): Result<Waterfall> {
    var valid := Need(FitsI128(r.escrow.amount + d.arbitrationFee), ArithmeticError);
    :- valid;
    :- Need(FitsI128(r.escrow.amount + d.arbitrationFee + d.resolverFee), ArithmeticError);
    var basis := r.escrow.amount + d.arbitrationFee + d.resolverFee;
    var platform :- if g.cfg.platformFeeBps > 0 then CalculateFee(basis, g.cfg.platformFeeBps) else Ok(0);
    :- Need(platform <= 0 || g.cfg.treasury.Some?, NotInitialized);
    var protocol :- CalculateFee(basis, r.escrow.feeBps);
    :- Need(FitsI128(r.escrow.amount - platform - protocol), ArithmeticError);
    Ok(Waterfall(platform, protocol, r.escrow.amount - platform - protocol))
  }

  /** Platform fee to the treasury, payout to the winner, protocol fee to the collector, basket to the winner. */
  function FinalPays(g: Globals, r: Rec, w: Waterfall, recipient: Address, collector: Address): seq<Transfer>
    requires w.platform > 0 ==> g.cfg.treasury.Some?
  {
    (if w.platform <= 0 then [] else Payout(r.escrow.token, g.cfg.treasury.value, w.platform))
    + Payout(r.escrow.token, recipient, w.payout) + Payout(r.escrow.token, collector, w.protocol)
    + BasketPayouts(r.basket, r.escrow.token, recipient)
  }

  function FinalizeDispute(g: Globals, signers: Signers, found: Option<Rec>, caller: Address): Result<Move> {
    var auth := Signed(signers, caller);
    :- auth;
    :- Active(g, "finalize_dispute");
    var r :- Load(found);
    :- Need(r.escrow.state == PendingFinalization, NotPendingFinalization);
    var d :- LoadDispute(r);
    :- Need(RecordedResolution(d).Some? && d.resolvedBy.Some?, InvalidState);
    :- Need(d.resolvedAt + APPEAL_WINDOW <= MAX_U64, ArithmeticError);
    :- Need(g.now >= d.resolvedAt + APPEAL_WINDOW, AppealWindowActive);
    var outcome := RecordedResolution(d).value;
    var recipient :- if outcome == Release then Ok(Primary(r)) else Buyer(r);
    var collector :- FeeCollector(g);
    var w :- Settlement(g, r, d);
    Ok(Move(
      Enter(r, if outcome == Release then Completed else Refunded, g.now).(dispute := Some(d.(active := false))),
      FinalPays(g, r, w, recipient, collector),
      None))
  }

  /** The admin override refunds the buyer. The stored code is the enum position of `Refund`, which is 1. */
  function CancelPendingFinalization(g: Globals, signers: Signers, found: Option<Rec>, caller: Address): Result<Move> {
    var auth := Signed(signers, caller);
    :- auth;
    :- Active(g, "cancel_pending_finalization");
    :- Need(caller == g.admin, NotAuthorized);
    var r :- Load(found);
    :- Need(r.escrow.state == PendingFinalization, NotPendingFinalization);
    var buyer :- Buyer(r);
    var dispute := if r.dispute.None? then None
                   else Some(r.dispute.value.(active := false, resolvedBy := Some(caller), resolution := 1,
                                              resolvedAt := g.now));
    Ok(Move(Enter(r, Refunded, g.now).(dispute := dispute), FullPayout(r, buyer), None))
  }
}
