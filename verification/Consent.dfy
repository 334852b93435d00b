/** What every change of an escrow proves, whichever call made it: who signed, what time it was, and what was
    written. */
module Consent {
  import opened Types
  import opened History
  import opened Records
  import opened RecordInvariant
  import opened Machine
  import opened EntryPoints
  import opened Runs
  import opened Rulings
  import opened Authority
  import Disputes
  import Lifecycle
  import Voting

  ghost predicate SellerSigns(signers: Signers, r: Rec) {
    exists a :: a in signers && a != Contract && Sells(r, a)
  }

  // ── State changes ──

  /** Somebody outside the sale pays in, under their own signature and in time. */
  ghost predicate FundedBy(g: Globals, signers: Signers, r: Rec, b: Rec) {
    && r.escrow.state == Pending && BuyerSigns(signers, b) && !Overdue(r, g.now)
    && !Sells(r, b.escrow.buyer.value) && !Judges(r.escrow.resolvers, b.escrow.buyer.value)
    && (r.escrow.buyer.Some? ==> b.escrow.buyer == r.escrow.buyer)
    && b.escrow.packedTimestamps == g.now % HALF_WORD * HALF_WORD + (g.now + DISPUTE_WINDOW) % HALF_WORD
  }

  /** A seller ships, in time. */
  ghost predicate ShippedBy(g: Globals, signers: Signers, r: Rec, b: Rec) {
    && (r.escrow.state == Funded || r.escrow.state == RefundRequested) && SellerSigns(signers, r) && !Overdue(r, g.now)
    && b.escrow.shippedAt == g.now
  }

  /** The buyer disputes within the dispute window, or one of the two parties appeals within the appeal window. */
  ghost predicate DisputedBy(g: Globals, signers: Signers, r: Rec) {
    || (OnSale(r) && BuyerSigns(signers, r) && g.now < Deadline(r))
    || (r.escrow.state == PendingFinalization && r.dispute.Some? && r.dispute.value.appealCount < g.maxAppeals
        && (BuyerSigns(signers, r) || Signs(signers, First(r))) && g.now < r.dispute.value.resolvedAt + APPEAL_WINDOW)
  }

  /** Enough resolvers agree, the last of them signing; or a party claims the elapsed timeout, which refunds; or a week
      has passed with ballots cast, and the majority rules. */
  ghost predicate RuledBy(g: Globals, signers: Signers, r: Rec, b: Rec) {
    && r.escrow.state == Disputed && r.dispute.Some?
    && ((exists a, x :: && Signs(signers, a) && MayRule(r.escrow.resolvers, a, g.now)
                        && Enough(r.escrow.resolvers, |Backers(r.votes, x) + {a}|) && RuledAs(b, x, a, g.now))
        || ((BuyerSigns(signers, r) || Signs(signers, First(r)))
            && r.dispute.value.disputedAt + g.cfg.disputeTimeout <= g.now
            && exists a :: a in signers && RuledAs(b, Refund, a, g.now))
        || (r.dispute.value.disputedAt + DISPUTE_DEADLOCK_WINDOW <= g.now && r.votes != []
            && MajorityRules(r, b, g.now)))
  }

  /** The buyer confirms, both parties agree, the release has matured, or a ruling for the seller has. */
  ghost predicate CompletedBy(g: Globals, signers: Signers, r: Rec) {
    || (r.escrow.state == Shipped && BuyerSigns(signers, r) && !Overdue(r, g.now))
    || (OnSale(r) && BothSign(signers, r))
    || (r.escrow.state == Shipped && !Overdue(r, g.now) && r.escrow.deliveredAt.Some?
        && r.escrow.deliveredAt.value + DELIVERY_RELEASE_WINDOW <= g.now)
    || (r.escrow.state == Funded && !Overdue(r, g.now) && Deadline(r) <= g.now
        && Bought(r) + r.escrow.shippingWindow <= g.now)
    || Matured(g, r, 1)
  }

  /** A recorded ruling of this code is past its appeal window. */
  ghost predicate Matured(g: Globals, r: Rec, code: u32) {
    && r.escrow.state == PendingFinalization && r.dispute.Some? && r.dispute.value.resolution == code
    && r.dispute.value.resolvedAt + APPEAL_WINDOW <= g.now
  }

  /** Unfunded: a party withdraws before the expiry, or nobody funded it in a week. Funded: both parties unwind it. */
  ghost predicate CanceledBy(g: Globals, signers: Signers, r: Rec) {
    && !Overdue(r, g.now)
    && ((r.escrow.state == Pending
         && (SellerSigns(signers, r) || BuyerSigns(signers, r)
             || (r.history != [] && Born(r) + PENDING_EXPIRY_WINDOW < g.now)))
        || (OnSale(r) && BothSign(signers, r)))
  }

  ghost predicate ExpiredBy(g: Globals, signers: Signers, r: Rec) {
    OnSale(r) && BuyerSigns(signers, r) && r.escrow.expiresAt.Some? && r.escrow.expiresAt.value <= g.now
  }

  /** The buyer cancels before anything is shipped; the first seller approves a requested refund; a ruling for the buyer
      has matured; the admin overrides a ruling; the buyer withdraws in recovery mode; both parties drain a paused
      contract. */
  ghost predicate RefundedBy(g: Globals, signers: Signers, r: Rec) {
    || (r.escrow.state == Funded && BuyerSigns(signers, r) && !Overdue(r, g.now))
    || (r.escrow.state == RefundRequested && Signs(signers, First(r)) && !Overdue(r, g.now))
    || Matured(g, r, 2)
    || (r.escrow.state == PendingFinalization && Signs(signers, g.admin))
    || (g.cfg.recoveryMode && Live(r.escrow.state) && BuyerSigns(signers, r))
    || (g.cfg.paused && Live(r.escrow.state) && BothSign(signers, r))
  }

  /** Every way into every state. */
  ghost predicate Justified(g: Globals, signers: Signers, r: Rec, b: Rec) {
    match b.escrow.state
    case Pending => false
    case Funded => FundedBy(g, signers, r, b)
    case Shipped => ShippedBy(g, signers, r, b)
    case RefundRequested => r.escrow.state == Funded && BuyerSigns(signers, r) && !Overdue(r, g.now)
    case Disputed => DisputedBy(g, signers, r)
    case PendingFinalization => RuledBy(g, signers, r, b)
    case Completed => CompletedBy(g, signers, r)
    case Canceled => CanceledBy(g, signers, r)
    case Expired => ExpiredBy(g, signers, r)
    case Refunded => RefundedBy(g, signers, r)
  }

  // ── Everything else that is written ──

  /** What may differ between an escrow before and after a call, and how: the resolver, by a seller or the admin; the
      delivery proposal, by the admin, and its withdrawal, by the admin, the buyer or the end of shipping; the recorded
      delivery, by the admin once the proposal is ripe; times, schedule, buyer and amount only along with the state. */
  ghost predicate WrittenBy(g: Globals, signers: Signers, r: Rec, b: Rec) {
    var moved := b.escrow.state != r.escrow.state;
    && (b.escrow.resolvers != r.escrow.resolvers ==>
          && !moved && r.escrow.resolvers.Single? && b.escrow.resolvers.Single?
          && (SellerSigns(signers, r) || Signs(signers, g.admin))
          && !Sells(r, b.escrow.resolvers.resolver) && !Buys(r, b.escrow.resolvers.resolver))
    && (b.proposal != r.proposal ==>
          || (!moved && b.proposal == Some(g.now + DELIVERY_TIMELOCK) && Signs(signers, g.admin)
              && r.escrow.state == Shipped && r.escrow.deliveredAt.None?)
          || (b.proposal.None? && (moved || Signs(signers, g.admin) || BuyerSigns(signers, r))))
    && (b.escrow.deliveredAt != r.escrow.deliveredAt ==>
          && !moved && b.escrow.deliveredAt == Some(g.now) && Signs(signers, g.admin) && r.escrow.state == Shipped
          && r.proposal.Some? && r.proposal.value <= g.now && b.proposal.None?)
    && (b.escrow.shippedAt != r.escrow.shippedAt ==> moved && b.escrow.state == Shipped)
    && (b.expiry != r.expiry ==> moved && r.escrow.state == Pending && b.expiry.None?)
    && (b.escrow.buyer != r.escrow.buyer || b.escrow.packedTimestamps != r.escrow.packedTimestamps ==>
          moved && b.escrow.state == Funded)
    && (b.escrow.amount != r.escrow.amount ==> moved && b.escrow.state == PendingFinalization)
    && b.escrow.gracePeriod == r.escrow.gracePeriod
  }

  /** Ballots and rulings: a ballot joins its side under its caster's signature; an appeal clears the slate; a ruling is
      written when it is made; closing writes only that the dispute is over, except for the admin's override. */
  ghost predicate DisputeWrittenBy(g: Globals, signers: Signers, r: Rec, b: Rec) {
    var moved := b.escrow.state != r.escrow.state;
    && (b.votes != r.votes ==>
          || (r.escrow.state == PendingFinalization && Reopened(r, b))
          || exists a, x :: Signs(signers, a) && BallotCounts(r, b, a, x, g.now))
    && (b.dispute != r.dispute ==> moved && DisputeStep(g, signers, r, b))
  }

  function Fresh(now: u64): Dispute {
    Dispute(true, now, 0, None, 0, 0, 0, 0, false)
  }

  function Over(d: Dispute): Dispute {
    d.(active := false)
  }

  function Overridden(d: Dispute, admin: Address, now: u64): Dispute {
    d.(active := false, resolution := 1, resolvedBy := Some(admin), resolvedAt := now)
  }

  predicate SameDispute(d: Dispute, e: Dispute) {
    d.disputedAt == e.disputedAt && d.appealCount == e.appealCount
  }

  ghost predicate DisputeStep(g: Globals, signers: Signers, r: Rec, b: Rec) {
    match (r.dispute, b.dispute)
    case (_, None) => false
    case (None, Some(e)) => b.escrow.state == Disputed && e == Fresh(g.now)
    case (Some(d), Some(e)) =>
      match b.escrow.state
      case Disputed => Reopened(r, b)
      case PendingFinalization => SameDispute(d, e)
      case Completed => e == Over(d)
      case Refunded => e == Over(d) || (Signs(signers, g.admin) && e == Overridden(d, g.admin, g.now))
      case _ => false
  }

  // ── That is what the entry points do ──

  /** What a plan makes of an escrow, if it is accepted, is justified and rightly written. */
  ghost predicate Rightful(g: Globals, signers: Signers, r: Rec, plan: Result<Move>) {
    plan.Ok? ==>
      && (plan.value.rec.escrow.state != r.escrow.state ==> Justified(g, signers, r, plan.value.rec))
      && WrittenBy(g, signers, r, plan.value.rec) && DisputeWrittenBy(g, signers, r, plan.value.rec)
  }

  lemma FundedRightly(g: Globals, signers: Signers, r: Rec, buyer: Address)
    requires r.escrow.state == Pending && !Voting.IsResolver(r.escrow.resolvers, buyer)
    requires !PastExpiry(r, g.now) && !IsPayee(r.escrow.payees, buyer) && Signed(signers, buyer).Pass?
    requires Lifecycle.DesignatedBuyer(r, buyer).Pass?
    ensures Rightful(g, signers, r, Ok(Stay(Lifecycle.FundedRec(r, buyer, g.now))))
  {
  }

  lemma FundingIsRightful(g: Globals, signers: Signers, r: Rec, buyer: Address)
    ensures Rightful(g, signers, r, Lifecycle.FundEscrow(g, signers, Some(r), buyer))
    ensures Rightful(g, signers, r, Lifecycle.FundBasketEscrow(g, signers, Some(r), buyer))
  {
    var (plan, basket) := (Lifecycle.FundEscrow(g, signers, Some(r), buyer),
                           Lifecycle.FundBasketEscrow(g, signers, Some(r), buyer));
    if plan.Ok? || basket.Ok? {
      FundedRightly(g, signers, r, buyer);
    }
  }

  lemma ShippingIsRightful(g: Globals, signers: Signers, r: Rec, caller: Address, len: nat)
    requires SideRecordsOk(r)
    ensures Rightful(g, signers, r, Lifecycle.MarkShipped(g, signers, Some(r), caller, len))
  {
  }

  lemma ProposalIsRightful(g: Globals, signers: Signers, r: Rec, caller: Address)
    requires SideRecordsOk(r)
    ensures Rightful(g, signers, r, Lifecycle.ProposeRecordDelivery(g, signers, Some(r), caller))
    ensures Rightful(g, signers, r, Lifecycle.CancelDeliveryProposal(g, signers, Some(r), caller))
    ensures Rightful(g, signers, r, Lifecycle.RejectDeliveryProposal(signers, Some(r), caller))
  {
  }

  lemma RecordingIsRightful(g: Globals, signers: Signers, r: Rec, caller: Address)
    requires SideRecordsOk(r)
    ensures Rightful(g, signers, r, Lifecycle.RecordDelivery(g, signers, Some(r), caller))
  {
  }

  lemma ConfirmationIsRightful(g: Globals, signers: Signers, r: Rec, caller: Address, waive: bool)
    requires SideRecordsOk(r)
    ensures Rightful(g, signers, r, Lifecycle.ConfirmDelivery(g, signers, Some(r), caller, waive))
  {
  }

  lemma AutoReleaseIsRightful(g: Globals, signers: Signers, r: Rec)
    requires SideRecordsOk(r)
    ensures Rightful(g, signers, r, Lifecycle.AutoRelease(g, Some(r)))
  {
  }

  lemma CoSigningIsRightful(g: Globals, signers: Signers, r: Rec, caller: Address)
    requires SideRecordsOk(r)
    ensures Rightful(g, signers, r, Lifecycle.CoSignedRelease(g, signers, Some(r), caller))
  {
  }

  lemma ReclaimIsRightful(g: Globals, signers: Signers, r: Rec)
    requires SideRecordsOk(r)
    ensures Rightful(g, signers, r, Lifecycle.ReclaimExpired(g, signers, Some(r)))
  {
  }

  lemma AutoCancelIsRightful(g: Globals, signers: Signers, r: Rec)
    requires SideRecordsOk(r) && r.history != []
    ensures Rightful(g, signers, r, Lifecycle.AutoCancelPending(g, Some(r)))
  {
  }

  lemma CancellationIsRightful(g: Globals, signers: Signers, r: Rec, caller: Address)
    requires SideRecordsOk(r)
    ensures Rightful(g, signers, r, Lifecycle.CancelEscrow(g, signers, Some(r), caller))
  {
  }

  lemma UnwindingIsRightful(g: Globals, signers: Signers, r: Rec)
    requires SideRecordsOk(r)
    ensures Rightful(g, signers, r, Lifecycle.MutualCancel(g, signers, Some(r)))
  {
  }

  lemma RequestIsRightful(g: Globals, signers: Signers, r: Rec, caller: Address)
    requires SideRecordsOk(r)
    ensures Rightful(g, signers, r, Lifecycle.RequestRefund(g, signers, Some(r), caller))
  {
  }

  lemma ApprovalIsRightful(g: Globals, signers: Signers, r: Rec, caller: Address)
    requires SideRecordsOk(r)
    ensures Rightful(g, signers, r, Lifecycle.ApproveRefund(g, signers, Some(r), caller))
  {
  }

  lemma RotationIsRightful(g: Globals, signers: Signers, r: Rec, caller: Address, next: Address)
    requires SideRecordsOk(r)
    ensures Rightful(g, signers, r, Lifecycle.RotateResolver(g, signers, Some(r), caller, next))
  {
  }

  lemma RecoveryIsRightful(g: Globals, signers: Signers, r: Rec, caller: Address)
    requires SideRecordsOk(r)
    ensures Rightful(g, signers, r, Lifecycle.RecoveryWithdraw(g, signers, Some(r), caller))
  {
  }

  lemma DrainIsRightful(g: Globals, signers: Signers, r: Rec)
    requires SideRecordsOk(r)
    ensures Rightful(g, signers, r, Lifecycle.EmergencyDrain(g, signers, Some(r)))
  {
  }

  lemma RaisingIsRightful(g: Globals, signers: Signers, r: Rec, caller: Address, known: bool, len: nat)
    requires DisputeOk(r, g.now)
    ensures Rightful(g, signers, r, Disputes.RaiseDispute(g, signers, Some(r), caller, known, len))
  {
  }

  lemma TimeoutIsRightful(g: Globals, signers: Signers, r: Rec, caller: Address)
    requires DisputeOk(r, g.now)
    ensures Rightful(g, signers, r, Disputes.ClaimDisputeTimeout(g, signers, Some(r), caller))
  {
  }

  lemma DeadlockIsRightful(g: Globals, signers: Signers, r: Rec)
    requires VotesOk(r, g.now) && DisputeOk(r, g.now)
    ensures Rightful(g, signers, r, Disputes.ResolveDeadlockedDispute(g, Some(r)))
  {
    if Disputes.ResolveDeadlockedDispute(g, Some(r)).Ok? {
      PlannedDeadlock(g, r);
    }
  }

  lemma AppealIsRightful(g: Globals, signers: Signers, r: Rec, caller: Address)
    requires g.maxAppeals <= MAX_MAX_APPEALS
    ensures Rightful(g, signers, r, Disputes.AppealDispute(g, signers, Some(r), caller))
  {
    if Disputes.AppealDispute(g, signers, Some(r), caller).Ok? {
      PlannedAppeal(g, signers, r, caller);
    }
  }

  lemma FinalizationIsRightful(g: Globals, signers: Signers, r: Rec, caller: Address)
    requires DisputeOk(r, g.now)
    ensures Rightful(g, signers, r, Disputes.FinalizeDispute(g, signers, Some(r), caller))
  {
  }

  lemma OverrideIsRightful(g: Globals, signers: Signers, r: Rec, caller: Address)
    requires DisputeOk(r, g.now)
    ensures Rightful(g, signers, r, Disputes.CancelPendingFinalization(g, signers, Some(r), caller))
  {
  }

  lemma BallotFrame(g: Globals, signers: Signers, r: Rec, caller: Address, ballot: Ballot)
    requires DisputeOk(r, g.now) && Disputes.CastVote(g, signers, Some(r), caller, ballot).Ok?
    ensures var b := Disputes.CastVote(g, signers, Some(r), caller, ballot).value.rec;
            && WrittenBy(g, signers, r, b) && Signs(signers, caller)
            && (b.dispute != r.dispute ==> b.escrow.state != r.escrow.state && DisputeStep(g, signers, r, b))
  {
  }

  lemma BallotIsWritten(g: Globals, signers: Signers, r: Rec, b: Rec, caller: Address, ballot: Ballot)
    requires BallotCounts(r, b, caller, ballot, g.now) && Signs(signers, caller)
    requires b.dispute != r.dispute ==> b.escrow.state != r.escrow.state && DisputeStep(g, signers, r, b)
    ensures DisputeWrittenBy(g, signers, r, b)
  {
  }

  lemma BallotIsRightful(g: Globals, signers: Signers, r: Rec, caller: Address, ballot: Ballot)
    requires VotesOk(r, g.now) && DisputeOk(r, g.now)
    ensures Rightful(g, signers, r, Disputes.CastVote(g, signers, Some(r), caller, ballot))
  {
    var plan := Disputes.CastVote(g, signers, Some(r), caller, ballot);
    if plan.Ok? {
      BallotFrame(g, signers, r, caller, ballot);
      PlannedBallot(g, signers, r, caller, ballot);
      BallotIsWritten(g, signers, r, plan.value.rec, caller, ballot);
    }
  }

  ghost predicate IsSaleCall(c: Call) {
    c.FundEscrow? || c.FundBasketEscrow? || c.MarkShipped? || c.ConfirmDelivery? || c.AutoRelease? || c.CoSignedRelease?
  }

  ghost predicate IsDeliveryCall(c: Call) {
    || c.ProposeRecordDelivery? || c.CancelDeliveryProposal? || c.RejectDeliveryProposal? || c.RecordDelivery?
    || c.RotateResolver?
  }

  lemma SaleIsRightful(g: Globals, signers: Signers, c: Call, r: Rec)
    requires SideRecordsOk(r) && IsSaleCall(c)
    ensures Rightful(g, signers, r, Plan(g, signers, c, Some(r)))
  {
    match c
    case FundEscrow(_, buyer) => FundingIsRightful(g, signers, r, buyer);
    case FundBasketEscrow(_, buyer) => FundingIsRightful(g, signers, r, buyer);
    case MarkShipped(_, caller, len) => ShippingIsRightful(g, signers, r, caller, len);
    case ConfirmDelivery(_, caller, waive) => ConfirmationIsRightful(g, signers, r, caller, waive);
    case AutoRelease(_) => AutoReleaseIsRightful(g, signers, r);
    case CoSignedRelease(_, caller) => CoSigningIsRightful(g, signers, r, caller);
  }

  lemma DeliveryIsRightful(g: Globals, signers: Signers, c: Call, r: Rec)
    requires SideRecordsOk(r) && IsDeliveryCall(c)
    ensures Rightful(g, signers, r, Plan(g, signers, c, Some(r)))
  {
    match c
    case ProposeRecordDelivery(_, caller) => ProposalIsRightful(g, signers, r, caller);
    case CancelDeliveryProposal(_, caller) => ProposalIsRightful(g, signers, r, caller);
    case RejectDeliveryProposal(_, caller) => ProposalIsRightful(g, signers, r, caller);
    case RecordDelivery(_, caller) => RecordingIsRightful(g, signers, r, caller);
    case RotateResolver(_, caller, next) => RotationIsRightful(g, signers, r, caller, next);
  }

  lemma ReturnIsRightful(g: Globals, signers: Signers, c: Call, r: Rec)
    requires SideRecordsOk(r) && r.history != [] && ActsOnEscrow(c)
    requires !IsDisputeCall(c) && !IsSaleCall(c) && !IsDeliveryCall(c)
    ensures Rightful(g, signers, r, Plan(g, signers, c, Some(r)))
  {
    match c
    case ReclaimExpired(_) => ReclaimIsRightful(g, signers, r);
    case AutoCancelPending(_) => AutoCancelIsRightful(g, signers, r);
    case CancelEscrow(_, caller) => CancellationIsRightful(g, signers, r, caller);
    case MutualCancel(_) => UnwindingIsRightful(g, signers, r);
    case RequestRefund(_, caller) => RequestIsRightful(g, signers, r, caller);
    case ApproveRefund(_, caller) => ApprovalIsRightful(g, signers, r, caller);
    case RecoveryWithdraw(_, caller) => RecoveryIsRightful(g, signers, r, caller);
    case EmergencyDrain(_) => DrainIsRightful(g, signers, r);
  }

  lemma LifecycleIsRightful(g: Globals, signers: Signers, c: Call, r: Rec)
    requires SideRecordsOk(r) && r.history != [] && ActsOnEscrow(c) && !IsDisputeCall(c)
    ensures Rightful(g, signers, r, Plan(g, signers, c, Some(r)))
  {
    if IsSaleCall(c) {
      SaleIsRightful(g, signers, c, r);
    } else if IsDeliveryCall(c) {
      DeliveryIsRightful(g, signers, c, r);
    } else {
      ReturnIsRightful(g, signers, c, r);
    }
  }

  lemma RulingIsRightful(g: Globals, signers: Signers, c: Call, r: Rec)
    requires VotesOk(r, g.now) && DisputeOk(r, g.now)
    requires c.CastVote? || c.ClaimDisputeTimeout? || c.ResolveDeadlockedDispute?
    ensures Rightful(g, signers, r, Plan(g, signers, c, Some(r)))
  {
    match c
    case CastVote(_, caller, ballot) => BallotIsRightful(g, signers, r, caller, ballot);
    case ClaimDisputeTimeout(_, caller) => TimeoutIsRightful(g, signers, r, caller);
    case ResolveDeadlockedDispute(_) => DeadlockIsRightful(g, signers, r);
  }

  lemma OpeningIsRightful(g: Globals, signers: Signers, c: Call, r: Rec)
    requires DisputeOk(r, g.now) && g.maxAppeals <= MAX_MAX_APPEALS && (c.RaiseDispute? || c.AppealDispute?)
    ensures Rightful(g, signers, r, Plan(g, signers, c, Some(r)))
  {
    match c
    case RaiseDispute(_, caller, known, len) => RaisingIsRightful(g, signers, r, caller, known, len);
    case AppealDispute(_, caller) => AppealIsRightful(g, signers, r, caller);
  }

  lemma ClosingIsRightful(g: Globals, signers: Signers, c: Call, r: Rec)
    requires DisputeOk(r, g.now) && (c.FinalizeDispute? || c.CancelPendingFinalization?)
    ensures Rightful(g, signers, r, Plan(g, signers, c, Some(r)))
  {
    match c
    case FinalizeDispute(_, caller) => FinalizationIsRightful(g, signers, r, caller);
    case CancelPendingFinalization(_, caller) => OverrideIsRightful(g, signers, r, caller);
  }

  lemma DisputeIsRightful(g: Globals, signers: Signers, c: Call, r: Rec)
    requires VotesOk(r, g.now) && DisputeOk(r, g.now) && g.maxAppeals <= MAX_MAX_APPEALS && IsDisputeCall(c)
    ensures Rightful(g, signers, r, Plan(g, signers, c, Some(r)))
  {
    if c.RaiseDispute? || c.AppealDispute? {
      OpeningIsRightful(g, signers, c, r);
    } else if c.FinalizeDispute? || c.CancelPendingFinalization? {
      ClosingIsRightful(g, signers, c, r);
    } else {
      RulingIsRightful(g, signers, c, r);
    }
  }

  lemma CallIsRightful(s: State, signers: Signers, c: Call)
    requires Reachable(s) && ActsOnEscrow(c) && Exec(s, signers, c).Ok?
    ensures c.id in s.recs && c.id in Exec(s, signers, c).value.recs
    ensures Rightful(s.g, signers, s.recs[c.id], Ok(Stay(Exec(s, signers, c).value.recs[c.id])))
  {
    CallLeaves(s, signers, c);
    RecordInOrder(s, c.id);
    if IsDisputeCall(c) {
      DisputeIsRightful(s.g, signers, c, s.recs[c.id]);
    } else {
      LifecycleIsRightful(s.g, signers, c, s.recs[c.id]);
    }
  }

  // ── In every run ──

  /** No state of an escrow ever changes without the leave and the time its new state calls for, whichever call changes
      it; and only a call on that escrow does. */
  lemma EveryChangeIsJustified(s: State, i: Input, id: u64)
    requires Reachable(s) && id in s.recs
    ensures id in Next(s, i).recs
    ensures Next(s, i).recs[id].escrow.state != s.recs[id].escrow.state ==>
              && ActsOnEscrow(i.call) && i.call.id == id
              && Justified(s.g, i.signers, s.recs[id], Next(s, i).recs[id])
  {
    if Exec(s, i.signers, i.call).Ok? {
      if ActsOnEscrow(i.call) && i.call.id == id {
        CallIsRightful(s, i.signers, i.call);
      } else {
        OtherCallOnRuling(s, i.signers, i.call, id);
      }
    }
  }

  /** Nothing in an escrow is ever written otherwise. */
  lemma EveryWriteIsJustified(s: State, i: Input, id: u64)
    requires Reachable(s) && id in s.recs
    ensures id in Next(s, i).recs
    ensures WrittenBy(s.g, i.signers, s.recs[id], Next(s, i).recs[id])
    ensures DisputeWrittenBy(s.g, i.signers, s.recs[id], Next(s, i).recs[id])
    ensures Next(s, i).recs[id] != s.recs[id] ==> ActsOnEscrow(i.call) && i.call.id == id
  {
    if Exec(s, i.signers, i.call).Ok? {
      if ActsOnEscrow(i.call) && i.call.id == id {
        CallIsRightful(s, i.signers, i.call);
      } else {
        OtherCallOnRuling(s, i.signers, i.call, id);
      }
    }
  }

  /** Who may have the money go back, and when. */
  ghost predicate MayGoBack(g: Globals, signers: Signers, r: Rec) {
    // Both parties: while the sale is on and in time, or while the contract is paused.
    || (BothSign(signers, r) && ((OnSale(r) && !Overdue(r, g.now)) || g.cfg.paused))
    // The buyer alone: before anything is shipped and in time, after the expiry, or in recovery mode.
    || (BuyerSigns(signers, r) && ((r.escrow.state == Funded && !Overdue(r, g.now))
                                   || (OnSale(r) && r.escrow.expiresAt.Some? && r.escrow.expiresAt.value <= g.now)
                                   || g.cfg.recoveryMode))
    // The first seller alone: a refund the buyer has asked for.
    || (r.escrow.state == RefundRequested && Signs(signers, First(r)) && !Overdue(r, g.now))
    // Anybody: a ruling for the buyer whose appeal window is over.
    || Matured(g, r, 2)
    // The admin: overriding a ruling.
    || (r.escrow.state == PendingFinalization && Signs(signers, g.admin))
  }

  /** The counterpart of `ReleaseTiming.NoEarlyRelease`: the money of a funded escrow never goes back without the leave
      of those it takes, at the time it takes. */
  lemma NoRefundWithoutLeave(s: State, i: Input, id: u64)
    requires Reachable(s) && id in s.recs && Live(s.recs[id].escrow.state) && id in Next(s, i).recs
    requires var st := Next(s, i).recs[id].escrow.state; st == Canceled || st == Refunded || st == Expired
    ensures ActsOnEscrow(i.call) && i.call.id == id && MayGoBack(s.g, i.signers, s.recs[id])
  {
    EveryChangeIsJustified(s, i, id);
  }

  /** A refund is only ever requested by the buyer, before anything is shipped and in time. */
  lemma OnlyBuyerRequests(s: State, i: Input, id: u64)
    requires Reachable(s) && id in s.recs && id in Next(s, i).recs
    requires s.recs[id].escrow.state != RefundRequested && Next(s, i).recs[id].escrow.state == RefundRequested
    ensures s.recs[id].escrow.state == Funded && BuyerSigns(i.signers, s.recs[id]) && !Overdue(s.recs[id], s.g.now)
  {
    EveryChangeIsJustified(s, i, id);
  }

  // ── Where each call leads ──

  /** The state a successful call leads to. */
  ghost predicate LeadsTo(c: Call, r: Rec, st: EscrowState)
    requires ActsOnEscrow(c)
  {
    match c
    case FundEscrow(_, _) => st == Funded
    case FundBasketEscrow(_, _) => st == Funded
    case MarkShipped(_, _, _) => st == Shipped
    case ConfirmDelivery(_, _, _) => st == Completed
    case AutoRelease(_) => st == Completed
    case CoSignedRelease(_, _) => st == Completed
    case ReclaimExpired(_) => st == Expired
    case AutoCancelPending(_) => st == Canceled
    case CancelEscrow(_, _) => st == if r.escrow.state == Pending then Canceled else Refunded
    case MutualCancel(_) => st == Canceled
    case RequestRefund(_, _) => st == RefundRequested
    case ApproveRefund(_, _) => st == Refunded
    case RecoveryWithdraw(_, _) => st == Refunded
    case EmergencyDrain(_) => st == Refunded
    case CancelPendingFinalization(_, _) => st == Refunded
    case RaiseDispute(_, _, _, _) => st == Disputed
    case AppealDispute(_, _) => st == Disputed
    case CastVote(_, _, _) => st == Disputed || st == PendingFinalization
    case ClaimDisputeTimeout(_, _) => st == PendingFinalization
    case ResolveDeadlockedDispute(_) => st == PendingFinalization
    case FinalizeDispute(_, _) => r.dispute.Some? && st == Outcome(r.dispute.value)
    case _ => st == r.escrow.state
  }

  lemma LifecycleLeads(g: Globals, signers: Signers, c: Call, r: Rec)
    requires ActsOnEscrow(c) && !IsDisputeCall(c) && Plan(g, signers, c, Some(r)).Ok?
    ensures LeadsTo(c, r, Plan(g, signers, c, Some(r)).value.rec.escrow.state)
  {
    if IsSaleCall(c) {
      SaleLeads(g, signers, c, r);
    } else {
      UnwindLeads(g, signers, c, r);
    }
  }

  lemma SaleLeads(g: Globals, signers: Signers, c: Call, r: Rec)
    requires IsSaleCall(c) && Plan(g, signers, c, Some(r)).Ok?
    ensures LeadsTo(c, r, Plan(g, signers, c, Some(r)).value.rec.escrow.state)
  {
  }

  lemma UnwindLeads(g: Globals, signers: Signers, c: Call, r: Rec)
    requires ActsOnEscrow(c) && !IsDisputeCall(c) && !IsSaleCall(c) && Plan(g, signers, c, Some(r)).Ok?
    ensures LeadsTo(c, r, Plan(g, signers, c, Some(r)).value.rec.escrow.state)
  {
  }

  lemma RulingLeads(g: Globals, signers: Signers, c: Call, r: Rec)
    requires c.CastVote? || c.ClaimDisputeTimeout? || c.ResolveDeadlockedDispute?
    requires Plan(g, signers, c, Some(r)).Ok?
    ensures LeadsTo(c, r, Plan(g, signers, c, Some(r)).value.rec.escrow.state)
  {
  }

  lemma DisputeCallLeads(g: Globals, signers: Signers, c: Call, r: Rec)
    requires c.RaiseDispute? || c.AppealDispute? || c.FinalizeDispute? || c.CancelPendingFinalization?
    requires Plan(g, signers, c, Some(r)).Ok?
    ensures LeadsTo(c, r, Plan(g, signers, c, Some(r)).value.rec.escrow.state)
  {
  }

  lemma EveryCallLeads(s: State, signers: Signers, c: Call)
    requires Reachable(s) && ActsOnEscrow(c) && Exec(s, signers, c).Ok?
    ensures c.id in s.recs && c.id in Exec(s, signers, c).value.recs
    ensures LeadsTo(c, s.recs[c.id], Exec(s, signers, c).value.recs[c.id].escrow.state)
  {
    CallLeaves(s, signers, c);
    if c.CastVote? || c.ClaimDisputeTimeout? || c.ResolveDeadlockedDispute? {
      RulingLeads(s.g, signers, c, s.recs[c.id]);
    } else if IsDisputeCall(c) {
      DisputeCallLeads(s.g, signers, c, s.recs[c.id]);
    } else {
      LifecycleLeads(s.g, signers, c, s.recs[c.id]);
    }
  }
}
