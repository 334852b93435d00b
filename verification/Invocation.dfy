/** Calling the contract: dispatch to the entry point, and revert the storage when it fails. */
module Invocation {
  import opened Types
  import opened Records
  import opened RecordInvariant
  import opened Machine
  import opened Custody
  import opened Runs
  import opened Sums
  import opened Service

  /** Calls that enter the contract, as opposed to what happens around it. */
  predicate Entering(c: Call) {
    !c.Elapse? && !c.Mint? && !c.TokenTransfer?
  }

  /** The contract's own state when every entry point may be called. */
  ghost predicate Callable(s: State) {
    && 1 <= s.nextId && Total(s.created) == s.nextId - 1
    && CountersFit(s.completed) && CountersFit(s.disputed) && CountersFit(s.refunded)
    && forall id: u64 :: id in s.recs && (s.recs[id].escrow.state == Funded || s.recs[id].escrow.state == Shipped) ==>
         s.recs[id].dispute.None?
  }

  lemma CounterFits(c: Shards, n: nat)
    requires Total(c) <= n < MAX_U64
    ensures CountersFit(c)
  {
    forall k | 0 <= k < COUNTER_SHARDS ensures c[k] < MAX_U64 {
      ShardBelowTotal(c, k);
    }
  }

  lemma TableCallable(s: State)
    requires TableOk(s)
    ensures forall id: u64 ::
            id in s.recs && (s.recs[id].escrow.state == Funded || s.recs[id].escrow.state == Shipped) ==>
              s.recs[id].dispute.None?
  {
    forall id: u64 | id in s.recs && (s.recs[id].escrow.state == Funded || s.recs[id].escrow.state == Shipped)
      ensures s.recs[id].dispute.None?
    {
      assert RecOk(s.recs[id], s.g.now);
    }
  }

  lemma CensusCallable(s: State)
    requires CensusOk(s) && 1 <= s.nextId
    ensures CountersFit(s.completed) && CountersFit(s.disputed) && CountersFit(s.refunded)
  {
    SumIndicator(s.recs, InStateCount(Completed), Issued(s));
    SumIndicator(s.recs, InStateCount(Refunded), Issued(s));
    SumIndicator(s.recs, DisputeCount(), Issued(s));
    CounterFits(s.completed, Issued(s));
    CounterFits(s.disputed, Issued(s));
    CounterFits(s.refunded, Issued(s));
  }

  /** The whole-run invariant is enough for every entry point. */
  lemma GoodIsCallable(s: State)
    requires Inv(s)
    ensures Callable(s)
  {
    TableCallable(s);
    CensusCallable(s);
  }

  // ── Dispatch ──

  predicate IsDispute(c: Call) {
    c.RaiseDispute? || c.CastVote? || c.ClaimDisputeTimeout? || c.ResolveDeadlockedDispute? || c.AppealDispute?
    || c.FinalizeDispute? || c.CancelPendingFinalization?
  }

  method CallVoting(contract: EscrowContract, signers: Signers, c: Call) returns (r: Result<()>)
    requires Callable(contract.Contents())
    requires c.RaiseDispute? || c.CastVote? || c.ClaimDisputeTimeout? || c.ResolveDeadlockedDispute?
    modifies contract
    ensures contract.Follows(OnEscrow(old(contract.Contents()), c.id,
                                      Plan(old(contract.g), signers, c, old(contract.Stored(c.id)))), r)
  {
    match c
    case RaiseDispute(id, caller, known, len) => r := contract.RaiseDispute(signers, id, caller, known, len);
    case CastVote(id, caller, ballot) => r := contract.CastVote(signers, id, caller, ballot);
    case ClaimDisputeTimeout(id, caller) => r := contract.ClaimDisputeTimeout(signers, id, caller);
    case ResolveDeadlockedDispute(id) => r := contract.ResolveDeadlockedDispute(id);
  }

  method CallFinalization(contract: EscrowContract, signers: Signers, c: Call) returns (r: Result<()>)
    requires Callable(contract.Contents())
    requires c.AppealDispute? || c.FinalizeDispute? || c.CancelPendingFinalization?
    modifies contract
    ensures contract.Follows(OnEscrow(old(contract.Contents()), c.id,
                                      Plan(old(contract.g), signers, c, old(contract.Stored(c.id)))), r)
  {
    match c
    case AppealDispute(id, caller) => r := contract.AppealDispute(signers, id, caller);
    case FinalizeDispute(id, caller) => r := contract.FinalizeDispute(signers, id, caller);
    case CancelPendingFinalization(id, caller) => r := contract.CancelPendingFinalization(signers, id, caller);
  }

  predicate IsDelivery(c: Call) {
    c.FundEscrow? || c.FundBasketEscrow? || c.MarkShipped? || c.ProposeRecordDelivery? || c.CancelDeliveryProposal?
    || c.RejectDeliveryProposal? || c.RecordDelivery?
  }

  predicate IsRelease(c: Call) {
    c.ConfirmDelivery? || c.AutoRelease? || c.CoSignedRelease? || c.RotateResolver? || c.RecoveryWithdraw?
    || c.EmergencyDrain?
  }

  method CallDelivery(contract: EscrowContract, signers: Signers, c: Call) returns (r: Result<()>)
    requires Callable(contract.Contents()) && IsDelivery(c)
    modifies contract
    ensures contract.Follows(OnEscrow(old(contract.Contents()), c.id,
                                      Plan(old(contract.g), signers, c, old(contract.Stored(c.id)))), r)
  {
    match c
    case FundEscrow(id, buyer) => r := contract.FundEscrow(signers, id, buyer);
    case FundBasketEscrow(id, buyer) => r := contract.FundBasketEscrow(signers, id, buyer);
    case MarkShipped(id, caller, len) => r := contract.MarkShipped(signers, id, caller, len);
    case ProposeRecordDelivery(id, caller) => r := contract.ProposeRecordDelivery(signers, id, caller);
    case CancelDeliveryProposal(id, caller) => r := contract.CancelDeliveryProposal(signers, id, caller);
    case RejectDeliveryProposal(id, caller) => r := contract.RejectDeliveryProposal(signers, id, caller);
    case RecordDelivery(id, caller) => r := contract.RecordDelivery(signers, id, caller);
  }

  method CallRelease(contract: EscrowContract, signers: Signers, c: Call) returns (r: Result<()>)
    requires Callable(contract.Contents()) && IsRelease(c)
    modifies contract
    ensures contract.Follows(OnEscrow(old(contract.Contents()), c.id,
                                      Plan(old(contract.g), signers, c, old(contract.Stored(c.id)))), r)
  {
    match c
    case ConfirmDelivery(id, caller, waive) => r := contract.ConfirmDelivery(signers, id, caller, waive);
    case AutoRelease(id) => r := contract.AutoRelease(id);
    case CoSignedRelease(id, caller) => r := contract.CoSignedRelease(signers, id, caller);
    case RotateResolver(id, caller, next) => r := contract.RotateResolver(signers, id, caller, next);
    case RecoveryWithdraw(id, caller) => r := contract.RecoveryWithdraw(signers, id, caller);
    case EmergencyDrain(id) => r := contract.EmergencyDrain(signers, id);
  }

  method CallCancellation(contract: EscrowContract, signers: Signers, c: Call) returns (r: Result<()>)
    requires Callable(contract.Contents()) && ActsOnEscrow(c) && !IsDispute(c) && !IsDelivery(c) && !IsRelease(c)
    modifies contract
    ensures contract.Follows(OnEscrow(old(contract.Contents()), c.id,
                                      Plan(old(contract.g), signers, c, old(contract.Stored(c.id)))), r)
  {
    match c
    case ReclaimExpired(id) => r := contract.ReclaimExpired(signers, id);
    case AutoCancelPending(id) => r := contract.AutoCancelPending(id);
    case CancelEscrow(id, caller) => r := contract.CancelEscrow(signers, id, caller);
    case MutualCancel(id) => r := contract.MutualCancel(signers, id);
    case RequestRefund(id, caller) => r := contract.RequestRefund(signers, id, caller);
    case ApproveRefund(id, caller) => r := contract.ApproveRefund(signers, id, caller);
  }

  method CallOnEscrow(contract: EscrowContract, signers: Signers, c: Call) returns (r: Result<()>)
    requires Callable(contract.Contents()) && ActsOnEscrow(c)
    modifies contract
    ensures contract.Follows(OnEscrow(old(contract.Contents()), c.id,
                                      Plan(old(contract.g), signers, c, old(contract.Stored(c.id)))), r)
  {
    if IsDelivery(c) {
      r := CallDelivery(contract, signers, c);
    } else if IsRelease(c) {
      r := CallRelease(contract, signers, c);
    } else if !IsDispute(c) {
      r := CallCancellation(contract, signers, c);
    } else if c.AppealDispute? || c.FinalizeDispute? || c.CancelPendingFinalization? {
      r := CallFinalization(contract, signers, c);
    } else {
      r := CallVoting(contract, signers, c);
    }
  }

  method CallCreation(contract: EscrowContract, signers: Signers, c: Call) returns (r: Result<()>)
    requires Callable(contract.Contents()) && CreatesOne(c)
    modifies contract
    ensures contract.Follows(Issue(old(contract.Contents()), NewRecord(old(contract.g), signers, c)), r)
  {
    var id: Result<u64>;
    match c {
      case CreateEscrow(terms) => id := contract.CreateEscrow(signers, terms);
      case CreateWithExpiration(seller, terms) => id := contract.CreateEscrowWithExpiration(signers, seller, terms);
      case CreateMulti(seller, buyer, members, quorum, token, amount, fee, window) =>
        id := contract.CreateEscrowMulti(signers, seller, buyer, members, quorum, token, amount, fee, window);
      case CreateWithFallback(seller, buyer, primary, backup, deadline, token, amount, fee, window) =>
        id := contract.CreateEscrowWithFallback(signers, seller, buyer, primary, backup, deadline, token, amount, fee,
                                                window);
      case CreateBasket(seller, buyer, resolver, tokens, amounts, fee, window, notes, expires, grace) =>
        id := contract.CreateBasketEscrow(signers, seller, buyer, resolver, tokens, amounts, fee, window, notes,
                                          expires, grace);
    }
    if id.Err? {
      return Err(id.error);
    }
    r := Ok(());
  }

  method CallOther(contract: EscrowContract, signers: Signers, c: Call) returns (r: Result<()>)
    requires Callable(contract.Contents()) && Entering(c) && !CreatesOne(c) && !ActsOnEscrow(c)
    modifies contract
    ensures contract.Follows(ExecOther(old(contract.Contents()), signers, c), r)
  {
    match c
    case BatchCreateEscrow(seller, inputs) =>
      var ids := contract.BatchCreateEscrow(signers, seller, inputs);
      if ids.Err? {
        return Err(ids.error);
      }
      r := Ok(());
    case ChangeSetting(setting, timelocked) => r := contract.Configure(signers, setting, timelocked);
    case AcceptFeeCollector(caller) => r := contract.AcceptFeeCollector(signers, caller);
    case AcceptTreasury(caller) => r := contract.AcceptTreasury(signers, caller);
  }

  lemma ExecOnEscrow(s: State, signers: Signers, c: Call, found: Option<Rec>)
    requires ActsOnEscrow(c) && found == Find(s, c.id)
    ensures Exec(s, signers, c) == OnEscrow(s, c.id, Plan(s.g, signers, c, found))
  {
  }

  method Dispatch(contract: EscrowContract, signers: Signers, c: Call) returns (r: Result<()>)
    requires Callable(contract.Contents()) && Entering(c)
    modifies contract
    ensures contract.Follows(Exec(old(contract.Contents()), signers, c), r)
  {
    if CreatesOne(c) {
      r := CallCreation(contract, signers, c);
    } else if !ActsOnEscrow(c) {
      r := CallOther(contract, signers, c);
    } else {
      ExecOnEscrow(contract.Contents(), signers, c, contract.Stored(c.id));
      r := CallOnEscrow(contract, signers, c);
    }
  }

  /** A transaction: the entry point runs, and a failure puts every storage key back. The object makes exactly the step
      of the transition system, and keeps the whole-run invariant. */
  method Invoke(contract: EscrowContract, signers: Signers, c: Call) returns (r: Result<()>)
    requires Inv(contract.Contents()) && Entering(c)
    modifies contract
    ensures contract.Contents() == Next(old(contract.Contents()), Input(signers, c))
    ensures Inv(contract.Contents())
  {
    GoodIsCallable(contract.Contents());
    var saved := contract.Contents();
    r := Dispatch(contract, signers, c);
    if r.Err? {
      contract.Restore(saved);
    }
    NextKeeps(saved, Input(signers, c));
  }
}
