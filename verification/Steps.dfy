/** Every entry point, applied to a good record under good settings, makes a legal move. */
module EntryPoints {
  import opened Types
  import Fees
  import opened Ledger
  import opened Voting
  import opened History
  import opened Records
  import opened RecordInvariant
  import opened Machine
  import Disputes

  /** Who pays in a move: the buyer when funding, the appellant when appealing, otherwise the contract. */
  ghost predicate PaidBy(c: Call, r: Rec, m: Move) {
    Funding(r, m.rec) || c.AppealDispute? || AllFrom(m.pays, Contract)
  }

  ghost predicate Lawful(g: Globals, signers: Signers, c: Call, r: Rec)
    requires ActsOnEscrow(c)
  {
    var plan := Plan(g, signers, c, Some(r));
    plan.Ok? ==> LegalMove(r, plan.value, g.now) && PaidBy(c, r, plan.value) && ArbitrationAccounted(g, r, plan.value)
  }

  lemma FundingCalls(g: Globals, signers: Signers, c: Call, r: Rec)
    requires RecOk(r, g.now) && (c.FundEscrow? || c.FundBasketEscrow?)
    ensures Lawful(g, signers, c, r)
  {
    var plan := Plan(g, signers, c, Some(r));
    if plan.Ok? {
      FundMove(r, c.buyer, plan.value.pays, g.now);
    }
  }

  lemma ShippingCall(g: Globals, signers: Signers, c: Call, r: Rec)
    requires RecOk(r, g.now) && c.MarkShipped?
    ensures Lawful(g, signers, c, r)
  {
    if Plan(g, signers, c, Some(r)).Ok? {
      ShipMove(r, g.now);
    }
  }

  lemma ProposalPlan(g: Globals, signers: Signers, c: Call, r: Rec)
    requires c.ProposeRecordDelivery? && Plan(g, signers, c, Some(r)).Ok?
    ensures r.escrow.state == Shipped && r.escrow.deliveredAt.None? && g.now + DELIVERY_TIMELOCK <= MAX_U64
    ensures Plan(g, signers, c, Some(r)) == Ok(Stay(r.(proposal := Some(g.now + DELIVERY_TIMELOCK))))
  {
  }

  lemma ProposalCall(g: Globals, signers: Signers, c: Call, r: Rec)
    requires RecOk(r, g.now) && c.ProposeRecordDelivery?
    ensures Lawful(g, signers, c, r)
  {
    if Plan(g, signers, c, Some(r)).Ok? {
      ProposalPlan(g, signers, c, r);
      ProposeMove(r, g.now);
    }
  }

  lemma WithdrawalCalls(g: Globals, signers: Signers, c: Call, r: Rec)
    requires RecOk(r, g.now) && (c.CancelDeliveryProposal? || c.RejectDeliveryProposal?)
    ensures Lawful(g, signers, c, r)
  {
    if Plan(g, signers, c, Some(r)).Ok? {
      WithdrawProposalMove(r, g.now);
    }
  }

  lemma RecordingCall(g: Globals, signers: Signers, c: Call, r: Rec)
    requires RecOk(r, g.now) && c.RecordDelivery?
    ensures Lawful(g, signers, c, r)
  {
    if Plan(g, signers, c, Some(r)).Ok? {
      RecordDeliveryMove(r, g.now);
    }
  }

  lemma ReleaseCalls(g: Globals, signers: Signers, c: Call, r: Rec)
    requires RecOk(r, g.now) && (c.ConfirmDelivery? || c.AutoRelease?)
    ensures Lawful(g, signers, c, r)
  {
    if Plan(g, signers, c, Some(r)).Ok? {
      SettleMove(g, r, if c.ConfirmDelivery? then r.escrow.feeBps else g.cfg.protocolFeeBps);
    }
  }

  lemma CoSignedFlow(r: Rec, collector: Address, fee: i128, net: i128, t: Token)
    requires Live(r.escrow.state) && 0 <= fee && 0 <= net && fee + net == r.escrow.amount
    ensures var pays := Payout(r.escrow.token, Primary(r), net) + Payout(r.escrow.token, collector, fee)
                        + BasketPayouts(r.basket, r.escrow.token, Primary(r));
            AllFrom(pays, Contract) && Sent(pays, t, Contract) == Hold(r, t)
  {
    TwoPayouts(r.escrow.token, Primary(r), net, collector, fee, t);
    BasketFlows(r.basket, r.escrow.token, Primary(r), t);
    FlowAppend(Payout(r.escrow.token, Primary(r), net) + Payout(r.escrow.token, collector, fee),
               BasketPayouts(r.basket, r.escrow.token, Primary(r)), t, Contract);
  }

  lemma CoSignedCall(g: Globals, signers: Signers, c: Call, r: Rec)
    requires RecOk(r, g.now) && c.CoSignedRelease?
    ensures Lawful(g, signers, c, r)
  {
    var plan := Plan(g, signers, c, Some(r));
    if plan.Ok? {
      var m := plan.value;
      var (fee, net) := Fees.ProtocolFee(r.escrow.amount, g.cfg.protocolFeeBps).value;
      forall t ensures Sent(m.pays, t, Contract) == Hold(r, t) && AllFrom(m.pays, Contract) {
        CoSignedFlow(r, g.cfg.feeCollector.value, fee, net, t);
      }
      assert Sent(m.pays, 0, Contract) == Hold(r, 0);
      CloseMove(r, m, g.now);
    }
  }

  lemma ReclaimCall(g: Globals, signers: Signers, c: Call, r: Rec)
    requires RecOk(r, g.now) && c.ReclaimExpired?
    ensures Lawful(g, signers, c, r)
  {
    if Plan(g, signers, c, Some(r)).Ok? {
      RefundMove(r, Plan(g, signers, c, Some(r)).value.rec, r.escrow.buyer.value, g.now);
    }
  }

  lemma MutualCancelCall(g: Globals, signers: Signers, c: Call, r: Rec)
    requires RecOk(r, g.now) && c.MutualCancel?
    ensures Lawful(g, signers, c, r)
  {
    if Plan(g, signers, c, Some(r)).Ok? {
      RefundMove(r, Plan(g, signers, c, Some(r)).value.rec, r.escrow.buyer.value, g.now);
    }
  }

  lemma ApproveRefundCall(g: Globals, signers: Signers, c: Call, r: Rec)
    requires RecOk(r, g.now) && c.ApproveRefund?
    ensures Lawful(g, signers, c, r)
  {
    if Plan(g, signers, c, Some(r)).Ok? {
      RefundMove(r, Plan(g, signers, c, Some(r)).value.rec, r.escrow.buyer.value, g.now);
    }
  }

  lemma RecoveryCall(g: Globals, signers: Signers, c: Call, r: Rec)
    requires RecOk(r, g.now) && c.RecoveryWithdraw?
    ensures Lawful(g, signers, c, r)
  {
    if Plan(g, signers, c, Some(r)).Ok? {
      RefundMove(r, Plan(g, signers, c, Some(r)).value.rec, r.escrow.buyer.value, g.now);
    }
  }

  lemma DrainCall(g: Globals, signers: Signers, c: Call, r: Rec)
    requires RecOk(r, g.now) && c.EmergencyDrain?
    ensures Lawful(g, signers, c, r)
  {
    if Plan(g, signers, c, Some(r)).Ok? {
      RefundMove(r, Plan(g, signers, c, Some(r)).value.rec, r.escrow.buyer.value, g.now);
    }
  }

  lemma AdminCancelCall(g: Globals, signers: Signers, c: Call, r: Rec)
    requires RecOk(r, g.now) && c.CancelPendingFinalization?
    ensures Lawful(g, signers, c, r)
  {
    if Plan(g, signers, c, Some(r)).Ok? {
      RefundMove(r, Plan(g, signers, c, Some(r)).value.rec, r.escrow.buyer.value, g.now);
    }
  }

  lemma AutoCancelCall(g: Globals, signers: Signers, c: Call, r: Rec)
    requires RecOk(r, g.now) && c.AutoCancelPending?
    ensures Lawful(g, signers, c, r)
  {
    if Plan(g, signers, c, Some(r)).Ok? {
      CancelPendingMove(r, g.now);
    }
  }

  lemma CancelCall(g: Globals, signers: Signers, c: Call, r: Rec)
    requires RecOk(r, g.now) && c.CancelEscrow?
    ensures Lawful(g, signers, c, r)
  {
    if Plan(g, signers, c, Some(r)).Ok? {
      if r.escrow.state == Pending {
        CancelPendingMove(r, g.now);
      } else {
        RefundMove(r, Plan(g, signers, c, Some(r)).value.rec, c.caller, g.now);
      }
    }
  }

  lemma RefundRequestCall(g: Globals, signers: Signers, c: Call, r: Rec)
    requires RecOk(r, g.now) && c.RequestRefund?
    ensures Lawful(g, signers, c, r)
  {
    if Plan(g, signers, c, Some(r)).Ok? {
      RequestRefundMove(r, g.now);
    }
  }

  lemma RotationCall(g: Globals, signers: Signers, c: Call, r: Rec)
    requires RecOk(r, g.now) && c.RotateResolver?
    ensures Lawful(g, signers, c, r)
  {
    if Plan(g, signers, c, Some(r)).Ok? {
      RotateMove(r, c.next, g.now);
    }
  }

  lemma VotingCall(g: Globals, signers: Signers, c: Call, r: Rec)
    requires RecOk(r, g.now) && GlobalsOk(g) && c.CastVote?
    ensures Lawful(g, signers, c, r)
  {
    if Plan(g, signers, c, Some(r)).Ok? {
      var votes := Cast(r.votes, c.caller, c.ballot, g.now);
      CastRecords(r.votes, c.caller, c.ballot, g.now);
      if Decided(votes, Threshold(r.escrow.resolvers)).None? {
        BallotMove(r, c.caller, c.ballot, g.now);
      } else {
        ResolveMove(g, r, c.caller, Decided(votes, Threshold(r.escrow.resolvers)).value, votes, true);
      }
    }
  }

  lemma RaiseCall(g: Globals, signers: Signers, c: Call, r: Rec)
    requires RecOk(r, g.now) && c.RaiseDispute?
    ensures Lawful(g, signers, c, r)
  {
    if Plan(g, signers, c, Some(r)).Ok? {
      RaiseMove(r, g.now);
    }
  }

  lemma TimeoutCall(g: Globals, signers: Signers, c: Call, r: Rec)
    requires RecOk(r, g.now) && GlobalsOk(g) && c.ClaimDisputeTimeout?
    ensures Lawful(g, signers, c, r)
  {
    if Plan(g, signers, c, Some(r)).Ok? {
      assert Plan(g, signers, c, Some(r)) == Disputes.Resolve(g, r, c.caller, Refund, r.votes, false);
      ResolveMove(g, r, c.caller, Refund, r.votes, false);
    }
  }

  lemma DeadlockCall(g: Globals, signers: Signers, c: Call, r: Rec)
    requires RecOk(r, g.now) && GlobalsOk(g) && c.ResolveDeadlockedDispute?
    ensures Lawful(g, signers, c, r)
  {
    if Plan(g, signers, c, Some(r)).Ok? {
      ResolveMove(g, r, VoterFor(r.votes, Majority(r.votes)).value, Majority(r.votes), r.votes, true);
    }
  }

  lemma AppealCall(g: Globals, signers: Signers, c: Call, r: Rec)
    requires RecOk(r, g.now) && GlobalsOk(g) && c.AppealDispute?
    ensures Lawful(g, signers, c, r)
  {
    if Plan(g, signers, c, Some(r)).Ok? {
      AppealMove(g, signers, r, c.caller);
    }
  }

  lemma FinalizeCall(g: Globals, signers: Signers, c: Call, r: Rec)
    requires RecOk(r, g.now) && GlobalsOk(g) && c.FinalizeDispute?
    ensures Lawful(g, signers, c, r)
  {
    if Plan(g, signers, c, Some(r)).Ok? {
      FinalizeMove(g, signers, r, c.caller);
    }
  }

  ghost predicate IsDisputeCall(c: Call) {
    c.RaiseDispute? || c.CastVote? || c.ClaimDisputeTimeout? || c.ResolveDeadlockedDispute? || c.AppealDispute?
    || c.FinalizeDispute? || c.CancelPendingFinalization?
  }

  lemma EveryDisputeCallIsLawful(g: Globals, signers: Signers, c: Call, r: Rec)
    requires RecOk(r, g.now) && GlobalsOk(g) && IsDisputeCall(c)
    ensures Lawful(g, signers, c, r)
  {
    match c
    case RaiseDispute(_, _, _, _) => RaiseCall(g, signers, c, r);
    case CastVote(_, _, _) => VotingCall(g, signers, c, r);
    case ClaimDisputeTimeout(_, _) => TimeoutCall(g, signers, c, r);
    case ResolveDeadlockedDispute(_) => DeadlockCall(g, signers, c, r);
    case AppealDispute(_, _) => AppealCall(g, signers, c, r);
    case FinalizeDispute(_, _) => FinalizeCall(g, signers, c, r);
    case CancelPendingFinalization(_, _) => AdminCancelCall(g, signers, c, r);
  }

  lemma EveryLifecycleCallIsLawful(g: Globals, signers: Signers, c: Call, r: Rec)
    requires RecOk(r, g.now) && ActsOnEscrow(c) && !IsDisputeCall(c)
    ensures Lawful(g, signers, c, r)
  {
    match c
    case FundEscrow(_, _) => FundingCalls(g, signers, c, r);
    case FundBasketEscrow(_, _) => FundingCalls(g, signers, c, r);
    case MarkShipped(_, _, _) => ShippingCall(g, signers, c, r);
    case ProposeRecordDelivery(_, _) => ProposalCall(g, signers, c, r);
    case CancelDeliveryProposal(_, _) => WithdrawalCalls(g, signers, c, r);
    case RejectDeliveryProposal(_, _) => WithdrawalCalls(g, signers, c, r);
    case RecordDelivery(_, _) => RecordingCall(g, signers, c, r);
    case ConfirmDelivery(_, _, _) => ReleaseCalls(g, signers, c, r);
    case AutoRelease(_) => ReleaseCalls(g, signers, c, r);
    case CoSignedRelease(_, _) => CoSignedCall(g, signers, c, r);
    case ReclaimExpired(_) => ReclaimCall(g, signers, c, r);
    case AutoCancelPending(_) => AutoCancelCall(g, signers, c, r);
    case CancelEscrow(_, _) => CancelCall(g, signers, c, r);
    case MutualCancel(_) => MutualCancelCall(g, signers, c, r);
    case RequestRefund(_, _) => RefundRequestCall(g, signers, c, r);
    case ApproveRefund(_, _) => ApproveRefundCall(g, signers, c, r);
    case RotateResolver(_, _, _) => RotationCall(g, signers, c, r);
    case RecoveryWithdraw(_, _) => RecoveryCall(g, signers, c, r);
    case EmergencyDrain(_) => DrainCall(g, signers, c, r);
  }

  /** The whole interface. */
  lemma EveryCallIsLawful(g: Globals, signers: Signers, c: Call, r: Rec)
    requires RecOk(r, g.now) && GlobalsOk(g) && ActsOnEscrow(c)
    ensures Lawful(g, signers, c, r)
  {
    if IsDisputeCall(c) {
      EveryDisputeCallIsLawful(g, signers, c, r);
    } else {
      EveryLifecycleCallIsLawful(g, signers, c, r);
    }
  }
}
