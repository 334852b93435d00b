/** The escrow contract as the object it is: one map per storage key, and one method per entry point that loads,
    checks, updates and saves step by step. Each method is proved to do exactly what its plan says. */
module Service {
  import opened Types
  import opened Fees
  import opened Ledger
  import opened PayeeSplit
  import opened Voting
  import opened History
  import opened Records
  import opened Machine
  import opened Creation
  import opened Sums
  import Lifecycle
  import Disputes

  /** A lifecycle counter that can still be incremented in any bucket. */
  predicate CountersFit(c: Shards) {
    forall k :: 0 <= k < COUNTER_SHARDS ==> c[k] < MAX_U64
  }

  /** `ContractStats`. */
  datatype Stats = Stats(created: u64, completed: u64, disputed: u64, refunded: u64)

  /** Saturating u64 arithmetic. */
  function Saturated(n: nat): u64 {
    if n <= MAX_U64 then n else MAX_U64
  }

  // ── What committing a move amounts to, by kind ──

  lemma CommitFunded(s: State, id: u64, b: Rec, pays: seq<Transfer>, buyer: Address)
    requires id in s.recs && s.recs[id].escrow.state == Pending && s.recs[id].dispute == b.dispute
    requires b.escrow.state == Funded && b.escrow.buyer == Some(buyer)
    ensures Commit(s, id, Move(b, pays, None))
         == s.(recs := s.recs[id := b], ledger := Pay(s.ledger, pays),
               buyerIndex := s.buyerIndex[buyer := Listed(s.buyerIndex, buyer) + [id]])
  {
  }

  /** A move that neither funds, completes, refunds nor opens a dispute touches the record and the ledger only. */
  lemma CommitQuiet(s: State, id: u64, b: Rec, pays: seq<Transfer>)
    requires id in s.recs && (b.dispute.Some? ==> s.recs[id].dispute.Some?)
    requires b.escrow.state == s.recs[id].escrow.state
          || (b.escrow.state != Funded && b.escrow.state != Completed && b.escrow.state != Refunded)
    ensures Commit(s, id, Move(b, pays, None)) == s.(recs := s.recs[id := b], ledger := Pay(s.ledger, pays))
  {
  }

  lemma CommitRefunded(s: State, id: u64, b: Rec, pays: seq<Transfer>)
    requires id in s.recs && (b.dispute.Some? ==> s.recs[id].dispute.Some?)
    requires b.escrow.state == Refunded && s.recs[id].escrow.state != Refunded
    ensures Commit(s, id, Move(b, pays, None))
         == s.(recs := s.recs[id := b], ledger := Pay(s.ledger, pays), refunded := Bump(s.refunded, id))
  {
  }

  lemma CommitDisputed(s: State, id: u64, b: Rec)
    requires id in s.recs && s.recs[id].dispute.None? && b.dispute.Some? && b.escrow.state == Disputed
    ensures Commit(s, id, Move(b, [], None)) == s.(recs := s.recs[id := b], disputed := Bump(s.disputed, id))
  {
  }

  /** A resolution touches the record, the ledger and, when it charges, the token's fee total. */
  lemma CommitResolved(s: State, id: u64, b: Rec, pays: seq<Transfer>, total: Option<i128>)
    requires id in s.recs && (b.dispute.Some? ==> s.recs[id].dispute.Some?) && b.escrow.state == PendingFinalization
    ensures Commit(s, id, Move(b, pays, total))
         == s.(recs := s.recs[id := b], ledger := Pay(s.ledger, pays),
               g := if total.None? then s.g
                    else s.g.(arbitrationTotals := s.g.arbitrationTotals[s.recs[id].escrow.token := total.value]))
  {
  }

  lemma CommitCompleted(s: State, id: u64, b: Rec, pays: seq<Transfer>)
    requires id in s.recs && (b.dispute.Some? ==> s.recs[id].dispute.Some?)
    requires b.escrow.state == Completed && s.recs[id].escrow.state != Completed
    ensures Commit(s, id, Move(b, pays, None))
         == s.(recs := s.recs[id := b], ledger := Pay(s.ledger, pays), completed := Bump(s.completed, id))
  {
  }

  lemma TwiceListed(index: map<Address, seq<u64>>, a: Address, id: u64)
    ensures var once := index[a := Listed(index, a) + [id]];
            once[a := Listed(once, a) + [id]] == index[a := Listed(index, a) + [id, id]]
  {
    var once := index[a := Listed(index, a) + [id]];
    assert Listed(once, a) + [id] == Listed(index, a) + [id, id];
  }

  class EscrowContract {
    var g: Globals
    var nextId: u64
    // All persistent keys of one escrow id, grouped.
    var recs: map<u64, Rec>
    // Sharded counters and indexes.
    var created: Shards
    var completed: Shards
    var disputed: Shards
    var refunded: Shards
    var vendorIndex: map<Address, seq<u64>>
    var buyerIndex: map<Address, seq<u64>>
    // The token contracts' balances.
    var ledger: Balances

    // ── Abstraction ──

    function Contents(): State
      reads this
    {
      State(g, recs, nextId, created, completed, disputed, refunded, vendorIndex, buyerIndex, ledger)
    }

    function Stored(id: u64): Option<Rec>
      reads this
    {
      if id in recs then Some(recs[id]) else None
    }

    ghost predicate Ready()
      reads this
    {
      && 1 <= nextId && Total(created) == nextId - 1
      && CountersFit(completed) && CountersFit(disputed) && CountersFit(refunded)
    }

    /** The outcome of a call: its error, or the state its specification yields. */
    ghost predicate Follows<T>(spec: Result<State>, r: Result<T>)
      reads this
    {
      if r.Ok? then spec == Ok(Contents()) else spec == Err(r.error)
    }

    /** `initialize`. */
    constructor (admin: Address, collector: Address, arbitrationBps: u32, now: u64, balances: Balances)
      requires Initialize(admin, collector, arbitrationBps, now, balances).Ok?
      ensures Initialize(admin, collector, arbitrationBps, now, balances) == Ok(Contents())
    {
      g := Globals(Config(Some(collector), None, 0, arbitrationBps, 0, 0, MIN_ESCROW_AMOUNT, MAX_ESCROW_AMOUNT,
                          DEFAULT_DISPUTE_TIMEOUT, false, false, false, false),
                   admin, DEFAULT_MAX_APPEALS, {}, {}, {}, None, None, map[], now);
      nextId := 1;
      recs, vendorIndex, buyerIndex := map[], map[], map[];
      var zero: Shards := seq(COUNTER_SHARDS, _ => 0);
      created, completed, disputed, refunded := zero, zero, zero, zero;
      ledger := balances;
    }

    /** What the host does when a call fails. */
    method Restore(s: State)
      modifies this
      ensures Contents() == s
    {
      g, nextId, recs, ledger := s.g, s.nextId, s.recs, s.ledger;
      created, completed, disputed, refunded := s.created, s.completed, s.disputed, s.refunded;
      vendorIndex, buyerIndex := s.vendorIndex, s.buyerIndex;
    }

    // ── Storage helpers ──

    function LoadEscrow(id: u64): Result<Escrow>
      reads this
    {
      if id in recs then Ok(recs[id].escrow) else Err(EscrowNotFound)
    }

    function LoadDispute(id: u64): Result<Dispute>
      requires id in recs
      reads this
    {
      if recs[id].dispute.Some? then Ok(recs[id].dispute.value) else Err(DisputeNotFound)
    }

    /** `save_escrow`: stores the record and appends to its history when the state changed. */
    method SaveEscrow(id: u64, e: Escrow, before: EscrowState)
      requires id in recs && before == recs[id].escrow.state
      modifies `recs
      ensures Contents()
              == old(Contents()).(recs := old(recs)[id := Enter(old(recs[id]), e.state, g.now).(escrow := e)])
    {
      recs := recs[id := recs[id].(escrow := e)];
      if before != e.state {
        recs := recs[id := recs[id].(history := AppendEntry(recs[id].history, Stamp(e.state, g.now)))];
      }
    }

    /** The transfers of a call, executed by the token contracts in order. */
    method Execute(pays: seq<Transfer>) returns (r: Check)
      modifies `ledger
      ensures r == if Affordable(old(ledger), pays) then Pass else Fail(TransferFailed)
      ensures Contents() == if r.Pass? then old(Contents()).(ledger := Pay(old(ledger), pays)) else old(Contents())
    {
      var l := ExecuteTransfers(ledger, pays);
      if l.Err? {
        return Fail(TransferFailed);
      }
      ledger := l.value;
      r := Pass;
    }

    /** `increment_sharded_counter`: its overflow check never fires on counters that fit. */
    static method Increment(c: Shards, id: u64) returns (r: Shards)
      requires c[id % COUNTER_SHARDS] < MAX_U64
      ensures r == Bump(c, id)
    {
      var bucket := id % COUNTER_SHARDS;
      var next: u64 := c[bucket] + 1;
      r := c[bucket := next];
    }

    // ── Checks ──

    function EnsureActive(action: string): Check
      reads this
    {
      if g.cfg.paused then Fail(ContractPaused)
      else if action in g.pausedActions then Fail(ContractPaused)
      else Pass
    }

    /** `ensure_not_expired`. */
    method EnsureNotExpired(id: u64) returns (r: Check)
      ensures r == NotExpired(g, Stored(id))
    {
      if id !in recs {
        return Fail(EscrowNotFound);
      }
      if recs[id].escrow.expiresAt.Some? {
        if g.now >= recs[id].escrow.expiresAt.value {
          return Fail(EscrowExpired);
        }
      }
      if recs[id].expiry.Some? {
        if g.now >= recs[id].expiry.value.expiresAt {
          return Fail(EscrowExpired);
        }
      }
      r := Pass;
    }

    /** `ensure_funding_not_expired`. */
    method EnsureFundingNotExpired(id: u64) returns (r: Check)
      requires id in recs
      ensures r == FundingNotExpired(g, recs[id])
    {
      r := EnsureNotExpired(id);
      if r.Fail? {
        return;
      }
      var createdAt := CreatedAt(recs[id].history);
      if createdAt + PENDING_EXPIRY_WINDOW > MAX_U64 {
        return Fail(ArithmeticOverflow);
      }
      if g.now > createdAt + PENDING_EXPIRY_WINDOW {
        return Fail(EscrowExpired);
      }
    }

    /** The loop that looks an address up among the payees. */
    static method FindPayee(payees: seq<Payee>, a: Address) returns (found: bool)
      ensures found == IsPayee(payees, a)
    {
      found := false;
      for i := 0 to |payees|
        invariant !found && forall j :: 0 <= j < i ==> payees[j].address != a
      {
        if payees[i].address == a {
          return true;
        }
      }
    }

    /** Role checks of both funding entry points. */
    static method EnsureBuyerRole(e: Escrow, buyer: Address) returns (r: Check)
      ensures r == Need(!IsPayee(e.payees, buyer) && !IsResolver(e.resolvers, buyer), ConflictingRoles)
    {
      var isPayee := FindPayee(e.payees, buyer);
      if isPayee {
        return Fail(ConflictingRoles);
      }
      if IsResolver(e.resolvers, buyer) {
        return Fail(ConflictingRoles);
      }
      r := Pass;
    }

    // ── Funding ──

    /** The state updates of both funding entry points. */
    method RecordFunding(id: u64, loaded: Escrow, buyer: Address)
      requires id in recs && loaded == recs[id].escrow && loaded.state == Pending
      modifies `recs, `buyerIndex
      ensures Contents() == old(Contents()).(
                recs := old(recs)[id := Lifecycle.FundedRec(old(recs[id]), buyer, g.now)],
                buyerIndex := old(buyerIndex)[buyer := Listed(old(buyerIndex), buyer) + [id]])
    {
      var escrow := loaded.(buyer := Some(buyer), state := Funded);
      escrow := escrow.(packedTimestamps := PackFunding(g.now));
      buyerIndex := buyerIndex[buyer := Listed(buyerIndex, buyer) + [id]];
      SaveEscrow(id, escrow, loaded.state);
      recs := recs[id := recs[id].(expiry := None)];
    }

    method FundEscrow(signers: Signers, id: u64, buyer: Address) returns (r: Result<()>)
      requires Ready()
      modifies this
      ensures Follows(OnEscrow(old(Contents()), id,
                               Lifecycle.FundEscrow(old(g), signers, old(Stored(id)), buyer)), r)
    {
      var active := EnsureActive("FUND");
      :- active;
      var escrow :- LoadEscrow(id);
      if escrow.state != Pending {
        return Err(TerminalStateError(escrow.state, InvalidState));
      }
      :- Signed(signers, buyer);
      if g.now + DISPUTE_WINDOW > MAX_U64 {
        return Err(ArithmeticOverflow);
      }
      :- EnsureFundingNotExpired(id);
      :- EnsureBuyerRole(escrow, buyer);
      if escrow.buyer.Some? && escrow.buyer.value != buyer {
        return Err(NotAuthorizedBuyer);
      }
      if escrow.amount < 0 {
        return Err(TransferFailed);
      }
      var others := DepositBasketTokens(recs[id].basket, escrow.token, buyer);
      :- Execute([Transfer(escrow.token, buyer, Contract, escrow.amount)] + others);
      RecordFunding(id, escrow, buyer);
      CommitFunded(old(Contents()), id, recs[id], [Transfer(escrow.token, buyer, Contract, escrow.amount)] + others,
                   buyer);
      r := Ok(());
    }

    method FundBasketEscrow(signers: Signers, id: u64, buyer: Address) returns (r: Result<()>)
      requires Ready()
      modifies this
      ensures Follows(OnEscrow(old(Contents()), id,
                               Lifecycle.FundBasketEscrow(old(g), signers, old(Stored(id)), buyer)), r)
    {
      var auth := Signed(signers, buyer);
      :- auth;
      :- EnsureActive("FUND");
      var escrow :- LoadEscrow(id);
      if escrow.state != Pending {
        return Err(TerminalStateError(escrow.state, InvalidState));
      }
      :- EnsureFundingNotExpired(id);
      :- EnsureBuyerRole(escrow, buyer);
      if escrow.buyer.Some? && escrow.buyer.value != buyer {
        return Err(NotAuthorizedBuyer);
      }
      if recs[id].basket == [] {
        return Err(BasketTokenMismatch);
      }
      if g.now + DISPUTE_WINDOW > MAX_U64 {
        return Err(ArithmeticError);
      }
      var legs := DepositAllTokens(recs[id].basket, buyer);
      :- Execute(legs);
      RecordFunding(id, escrow, buyer);
      CommitFunded(old(Contents()), id, recs[id], legs, buyer);
      r := Ok(());
    }

    // ── Shipping and delivery ──

    method MarkShipped(signers: Signers, id: u64, caller: Address, trackingLen: nat) returns (r: Result<()>)
      modifies this
      ensures Follows(OnEscrow(old(Contents()), id,
                               Lifecycle.MarkShipped(old(g), signers, old(Stored(id)), caller, trackingLen)), r)
    {
      var auth := Signed(signers, caller);
      :- auth;
      :- EnsureActive("mark_shipped");
      :- EnsureNotExpired(id);
      var escrow := recs[id].escrow;
      var authorized := FindPayee(escrow.payees, caller);
      if !authorized {
        return Err(NotAuthorizedSeller);
      }
      if escrow.state != Funded && escrow.state != RefundRequested {
        return Err(TerminalStateError(escrow.state, InvalidState));
      }
      if trackingLen == 0 {
        return Err(InvalidTrackingId);
      }
      if trackingLen > MAX_TRACKING_ID_LEN {
        return Err(InputTooLong);
      }
      var before := escrow.state;
      escrow := escrow.(state := Shipped);
      escrow := escrow.(shippedAt := g.now);
      SaveEscrow(id, escrow, before);
      r := Ok(());
    }

    method ProposeRecordDelivery(signers: Signers, id: u64, caller: Address) returns (r: Result<()>)
      modifies this
      ensures Follows(OnEscrow(old(Contents()), id,
                               Lifecycle.ProposeRecordDelivery(old(g), signers, old(Stored(id)), caller)), r)
    {
      var auth := Signed(signers, caller);
      :- auth;
      if caller != g.admin {
        return Err(NotAuthorized);
      }
      var escrow :- LoadEscrow(id);
      if escrow.state != Shipped {
        return Err(TerminalStateError(escrow.state, InvalidState));
      }
      if escrow.deliveredAt.Some? {
        return Err(DeliveryAlreadyRecorded);
      }
      if g.now + DELIVERY_TIMELOCK > MAX_U64 {
        return Err(ArithmeticOverflow);
      }
      recs := recs[id := recs[id].(proposal := Some(g.now + DELIVERY_TIMELOCK))];
      r := Ok(());
    }

    method CancelDeliveryProposal(signers: Signers, id: u64, caller: Address) returns (r: Result<()>)
      modifies this
      ensures Follows(OnEscrow(old(Contents()), id,
                               Lifecycle.CancelDeliveryProposal(old(g), signers, old(Stored(id)), caller)), r)
    {
      var auth := Signed(signers, caller);
      :- auth;
      var escrow :- LoadEscrow(id);
      var isBuyer := escrow.buyer == Some(caller);
      if caller != g.admin && !isBuyer {
        return Err(NotAuthorized);
      }
      if recs[id].proposal.None? {
        return Err(DeliveryNotProposed);
      }
      recs := recs[id := recs[id].(proposal := None)];
      r := Ok(());
    }

    method RejectDeliveryProposal(signers: Signers, id: u64, caller: Address) returns (r: Result<()>)
      modifies this
      ensures Follows(OnEscrow(old(Contents()), id,
                               Lifecycle.RejectDeliveryProposal(signers, old(Stored(id)), caller)), r)
    {
      var auth := Signed(signers, caller);
      :- auth;
      var escrow :- LoadEscrow(id);
      if escrow.buyer.None? {
        return Err(EscrowHasNoBuyer);
      }
      if caller != escrow.buyer.value {
        return Err(NotAuthorizedBuyer);
      }
      if recs[id].proposal.None? {
        return Err(DeliveryNotProposed);
      }
      recs := recs[id := recs[id].(proposal := None)];
      r := Ok(());
    }

    method RecordDelivery(signers: Signers, id: u64, caller: Address) returns (r: Result<()>)
      modifies this
      ensures Follows(OnEscrow(old(Contents()), id,
                               Lifecycle.RecordDelivery(old(g), signers, old(Stored(id)), caller)), r)
    {
      var auth := Signed(signers, caller);
      :- auth;
      if caller != g.admin {
        return Err(NotAuthorized);
      }
      var escrow :- LoadEscrow(id);
      if escrow.state != Shipped {
        return Err(TerminalStateError(escrow.state, InvalidState));
      }
      if escrow.deliveredAt.Some? {
        return Err(DeliveryAlreadyRecorded);
      }
      if recs[id].proposal.None? {
        return Err(DeliveryNotProposed);
      }
      if g.now < recs[id].proposal.value {
        return Err(TimelockNotElapsed);
      }
      recs := recs[id := recs[id].(proposal := None)];
      escrow := escrow.(deliveredAt := Some(g.now));
      SaveEscrow(id, escrow, escrow.state);
      assert recs == old(recs)[id := old(recs[id]).(proposal := None, escrow := escrow)];
      r := Ok(());
    }

    // ── Release ──

    /** The state updates of a release: completed, counted, no delivery proposal left. */
    method RecordCompletion(id: u64, loaded: Escrow)
      requires id in recs && loaded == recs[id].escrow && CountersFit(completed)
      modifies `recs, `completed
      ensures Contents() == old(Contents()).(
                recs := old(recs)[id := Enter(old(recs[id]), Completed, g.now).(proposal := None)],
                completed := Bump(old(completed), id))
    {
      SaveEscrow(id, loaded.(state := Completed), loaded.state);
      completed := Increment(completed, id);
      recs := recs[id := recs[id].(proposal := None)];
    }

    /** `settle_escrow_to_payees`. */
    method SettleToPayees(id: u64, loaded: Escrow, feeBps: u32) returns (r: Result<()>)
      requires Ready() && id in recs && loaded == recs[id].escrow && loaded.state != Completed
      modifies this
      ensures Follows(OnEscrow(old(Contents()), id,
                               Lifecycle.Settle(old(g), old(recs[id]), feeBps)), r)
    {
      if g.cfg.feeCollector.None? {
        return Err(NotInitialized);
      }
      RecordCompletion(id, loaded);
      var split :- ProtocolFee(loaded.amount, feeBps);
      var shares :- DistributeToPayees(loaded.token, loaded.payees, split.1);
      var others := PayoutBasketTokens(recs[id].basket, loaded.token, loaded.payees[0].address);
      :- Execute(Payout(loaded.token, g.cfg.feeCollector.value, split.0) + shares + others);
      r := Ok(());
    }

    method ConfirmDelivery(signers: Signers, id: u64, caller: Address, waive: bool) returns (r: Result<()>)
      requires Ready()
      modifies this
      ensures Follows(OnEscrow(old(Contents()), id,
                               Lifecycle.ConfirmDelivery(old(g), signers, old(Stored(id)), caller, waive)), r)
    {
      var auth := Signed(signers, caller);
      :- auth;
      :- EnsureActive("confirm_delivery");
      :- EnsureNotExpired(id);
      var escrow := recs[id].escrow;
      if escrow.buyer.None? {
        return Err(EscrowHasNoBuyer);
      }
      if caller != escrow.buyer.value {
        return Err(NotAuthorizedBuyer);
      }
      if escrow.state != Shipped {
        return Err(TerminalStateError(escrow.state, InvalidStateTransition));
      }
      if !waive && g.now < DisputeDeadline(escrow) {
        return Err(DisputeWindowStillOpen);
      }
      r := SettleToPayees(id, escrow, escrow.feeBps);
    }

    /** `ensure_auto_release_eligible`. */
    method EnsureAutoReleaseEligible(id: u64) returns (r: Check)
      requires id in recs
      ensures r == Lifecycle.AutoReleaseEligible(g, recs[id])
    {
      var escrow := recs[id].escrow;
      if escrow.state != Funded && escrow.state != Shipped {
        return Fail(TerminalStateError(escrow.state, InvalidState));
      }
      if recs[id].dispute.Some? {
        return Fail(InvalidState);
      }
      if escrow.deliveredAt.Some? {
        if escrow.deliveredAt.value + DELIVERY_RELEASE_WINDOW > MAX_U64 {
          return Fail(ArithmeticOverflow);
        }
        if g.now < escrow.deliveredAt.value + DELIVERY_RELEASE_WINDOW {
          return Fail(ShippingWindowNotElapsed);
        }
      } else if escrow.state == Shipped {
        return Fail(DeliveryNotRecorded);
      } else {
        if g.now < DisputeDeadline(escrow) {
          return Fail(DeliveryBeforeDisputeWindow);
        }
        var base := FundedAt(escrow);
        if escrow.shippedAt > 0 {
          base := escrow.shippedAt;
        }
        if base + escrow.shippingWindow > MAX_U64 {
          return Fail(ArithmeticError);
        }
        if g.now < base + escrow.shippingWindow {
          return Fail(ShippingWindowNotElapsed);
        }
      }
      r := Pass;
    }

    method AutoRelease(id: u64) returns (r: Result<()>)
      requires Ready()
      modifies this
      ensures Follows(OnEscrow(old(Contents()), id,
                               Lifecycle.AutoRelease(old(g), old(Stored(id)))), r)
    {
      var active := EnsureActive("auto_release");
      :- active;
      :- EnsureNotExpired(id);
      var escrow := recs[id].escrow;
      :- EnsureAutoReleaseEligible(id);
      r := SettleToPayees(id, escrow, g.cfg.protocolFeeBps);
    }

    method CoSignedRelease(signers: Signers, id: u64, caller: Address) returns (r: Result<()>)
      requires Ready()
      modifies this
      ensures Follows(OnEscrow(old(Contents()), id,
                               Lifecycle.CoSignedRelease(old(g), signers, old(Stored(id)), caller)), r)
    {
      var auth := Signed(signers, caller);
      :- auth;
      :- EnsureActive("co_signed_release");
      var escrow :- LoadEscrow(id);
      var firstPayee := escrow.payees[0].address;
      :- Signed(signers, firstPayee);
      if escrow.buyer.None? {
        return Err(EscrowHasNoBuyer);
      }
      :- Signed(signers, escrow.buyer.value);
      if escrow.state != Funded && escrow.state != Shipped {
        return Err(TerminalStateError(escrow.state, InvalidState));
      }
      if recs[id].dispute.Some? {
        return Err(InvalidState);
      }
      if g.cfg.feeCollector.None? {
        return Err(NotInitialized);
      }
      RecordCompletion(id, escrow);
      var split :- ProtocolFee(escrow.amount, g.cfg.protocolFeeBps);
      var others := PayoutBasketTokens(recs[id].basket, escrow.token, firstPayee);
      :- Execute(Payout(escrow.token, firstPayee, split.1) + Payout(escrow.token, g.cfg.feeCollector.value, split.0)
                 + others);
      r := Ok(());
    }

    // ── Expiry, cancellation and refund ──

    /** The whole holding back to one address: `payout`, then `payout_basket_tokens`. */
    method PayBack(id: u64, e: Escrow, to: Address) returns (r: Check)
      requires id in recs && e.token == recs[id].escrow.token
      modifies `ledger
      ensures var pays := Payout(e.token, to, e.amount) + BasketPayouts(old(recs[id].basket), e.token, to);
              && r == (if Affordable(old(ledger), pays) then Pass else Fail(TransferFailed))
              && Contents() == (if r.Pass? then old(Contents()).(ledger := Pay(old(ledger), pays)) else old(Contents()))
    {
      var others := PayoutBasketTokens(recs[id].basket, e.token, to);
      r := Execute(Payout(e.token, to, e.amount) + others);
    }

    /** The record updates of a closing: the new state, and the side records it removes. */
    method SaveClosed(id: u64, loaded: Escrow, st: EscrowState, dropExpiry: bool, dropProposal: bool)
      requires id in recs && loaded == recs[id].escrow
      modifies `recs
      ensures var b := Enter(old(recs[id]), st, g.now);
              Contents() == old(Contents()).(recs := old(recs)[id :=
                b.(expiry := if dropExpiry then None else b.expiry,
                   proposal := if dropProposal then None else b.proposal)])
    {
      SaveEscrow(id, loaded.(state := st), loaded.state);
      if dropExpiry {
        recs := recs[id := recs[id].(expiry := None)];
      }
      if dropProposal {
        recs := recs[id := recs[id].(proposal := None)];
      }
    }

    /** The effects of a refund: state and side records, counter, payout of the whole holding. */
    method CloseWithRefund(id: u64, loaded: Escrow, dropExpiry: bool, dropProposal: bool, to: Address)
      returns (r: Result<()>)
      requires Ready() && id in recs && loaded == recs[id].escrow && loaded.state != Refunded
      modifies this
      ensures var b := Enter(old(recs[id]), Refunded, old(g.now));
              Follows(OnEscrow(old(Contents()), id, Ok(Move(
                b.(expiry := if dropExpiry then None else b.expiry,
                   proposal := if dropProposal then None else b.proposal),
                FullPayout(old(recs[id]), to), None))), r)
    {
      SaveClosed(id, loaded, Refunded, dropExpiry, dropProposal);
      refunded := Increment(refunded, id);
      :- PayBack(id, loaded, to);
      CommitRefunded(old(Contents()), id, recs[id], FullPayout(old(recs[id]), to));
      r := Ok(());
    }

    method ReclaimExpired(signers: Signers, id: u64) returns (r: Result<()>)
      modifies this
      ensures Follows(OnEscrow(old(Contents()), id,
                               Lifecycle.ReclaimExpired(old(g), signers, old(Stored(id)))), r)
    {
      var active := EnsureActive("RECLAIM");
      :- active;
      var escrow :- LoadEscrow(id);
      if escrow.state != Funded && escrow.state != Shipped {
        return Err(TerminalStateError(escrow.state, InvalidState));
      }
      if escrow.expiresAt.None? {
        return Err(InvalidState);
      }
      if g.now < escrow.expiresAt.value {
        return Err(InvalidState);
      }
      if escrow.buyer.None? {
        return Err(EscrowHasNoBuyer);
      }
      :- Signed(signers, escrow.buyer.value);
      SaveClosed(id, escrow, Expired, true, true);
      :- PayBack(id, escrow, escrow.buyer.value);
      CommitQuiet(old(Contents()), id, recs[id], FullPayout(old(recs[id]), escrow.buyer.value));
      r := Ok(());
    }

    method AutoCancelPending(id: u64) returns (r: Result<()>)
      modifies this
      ensures Follows(OnEscrow(old(Contents()), id,
                               Lifecycle.AutoCancelPending(old(g), old(Stored(id)))), r)
    {
      var active := EnsureActive("auto_cancel_pending");
      :- active;
      :- EnsureNotExpired(id);
      var escrow := recs[id].escrow;
      if escrow.state != Pending {
        return Err(TerminalStateError(escrow.state, InvalidState));
      }
      var createdAt := CreatedAt(recs[id].history);
      if createdAt + PENDING_EXPIRY_WINDOW > MAX_U64 {
        return Err(ArithmeticOverflow);
      }
      if g.now <= createdAt + PENDING_EXPIRY_WINDOW {
        return Err(ShippingWindowNotElapsed);
      }
      SaveClosed(id, escrow, Canceled, true, false);
      CommitQuiet(old(Contents()), id, recs[id], []);
      r := Ok(());
    }

    method CancelEscrow(signers: Signers, id: u64, caller: Address) returns (r: Result<()>)
      requires Ready()
      modifies this
      ensures Follows(OnEscrow(old(Contents()), id,
                               Lifecycle.CancelEscrow(old(g), signers, old(Stored(id)), caller)), r)
    {
      var auth := Signed(signers, caller);
      :- auth;
      :- EnsureActive("cancel_escrow");
      :- EnsureNotExpired(id);
      var escrow := recs[id].escrow;
      var isPayee := FindPayee(escrow.payees, caller);
      if !isPayee && escrow.buyer != Some(caller) {
        return Err(NotAuthorized);
      }
      if escrow.state == Pending {
        SaveClosed(id, escrow, Canceled, true, false);
        CommitQuiet(old(Contents()), id, recs[id], []);
      } else if escrow.state == Funded && escrow.buyer == Some(caller) {
        r := CloseWithRefund(id, escrow, true, false, caller);
        return;
      } else {
        return Err(TerminalStateError(escrow.state, InvalidState));
      }
      r := Ok(());
    }

    method MutualCancel(signers: Signers, id: u64) returns (r: Result<()>)
      modifies this
      ensures Follows(OnEscrow(old(Contents()), id,
                               Lifecycle.MutualCancel(old(g), signers, old(Stored(id)))), r)
    {
      var active := EnsureActive("mutual_cancel");
      :- active;
      :- EnsureNotExpired(id);
      var escrow := recs[id].escrow;
      if escrow.buyer.None? {
        return Err(EscrowHasNoBuyer);
      }
      :- Signed(signers, escrow.payees[0].address);
      :- Signed(signers, escrow.buyer.value);
      if escrow.state != Funded && escrow.state != Shipped {
        return Err(TerminalStateError(escrow.state, InvalidState));
      }
      SaveClosed(id, escrow, Canceled, false, true);
      :- PayBack(id, escrow, escrow.buyer.value);
      CommitQuiet(old(Contents()), id, recs[id], FullPayout(old(recs[id]), escrow.buyer.value));
      r := Ok(());
    }

    method RequestRefund(signers: Signers, id: u64, caller: Address) returns (r: Result<()>)
      modifies this
      ensures Follows(OnEscrow(old(Contents()), id,
                               Lifecycle.RequestRefund(old(g), signers, old(Stored(id)), caller)), r)
    {
      var auth := Signed(signers, caller);
      :- auth;
      :- EnsureActive("request_refund");
      :- EnsureNotExpired(id);
      var escrow := recs[id].escrow;
      if escrow.buyer.None? {
        return Err(EscrowHasNoBuyer);
      }
      if caller != escrow.buyer.value {
        return Err(NotAuthorizedBuyer);
      }
      if escrow.state != Funded {
        return Err(TerminalStateError(escrow.state, InvalidStateTransition));
      }
      SaveEscrow(id, escrow.(state := RefundRequested), escrow.state);
      r := Ok(());
    }

    method ApproveRefund(signers: Signers, id: u64, caller: Address) returns (r: Result<()>)
      requires Ready()
      modifies this
      ensures Follows(OnEscrow(old(Contents()), id,
                               Lifecycle.ApproveRefund(old(g), signers, old(Stored(id)), caller)), r)
    {
      var auth := Signed(signers, caller);
      :- auth;
      :- EnsureActive("approve_refund");
      :- EnsureNotExpired(id);
      var escrow := recs[id].escrow;
      if caller != escrow.payees[0].address {
        return Err(NotAuthorizedSeller);
      }
      if escrow.state != RefundRequested {
        return Err(TerminalStateError(escrow.state, InvalidStateTransition));
      }
      if escrow.buyer.None? {
        return Err(EscrowHasNoBuyer);
      }
      r := CloseWithRefund(id, escrow, false, false, escrow.buyer.value);
    }

    method RotateResolver(signers: Signers, id: u64, caller: Address, next: Address) returns (r: Result<()>)
      modifies this
      ensures Follows(OnEscrow(old(Contents()), id,
                               Lifecycle.RotateResolver(old(g), signers, old(Stored(id)), caller, next)), r)
    {
      var auth := Signed(signers, caller);
      :- auth;
      :- EnsureActive("rotate_resolver");
      var escrow :- LoadEscrow(id);
      var isPayee := FindPayee(escrow.payees, caller);
      if !isPayee && caller != g.admin {
        return Err(NotAuthorized);
      }
      if Terminal(escrow.state) {
        return Err(TerminalStateError(escrow.state, InvalidState));
      }
      if !escrow.resolvers.Single? {
        return Err(InvalidState);
      }
      if next == escrow.resolvers.resolver {
        return Err(SameAddress);
      }
      var clash := FindPayee(escrow.payees, next);
      if clash {
        return Err(InvalidAddress);
      }
      if escrow.buyer == Some(next) {
        return Err(InvalidAddress);
      }
      escrow := escrow.(resolvers := Single(next));
      SaveEscrow(id, escrow, escrow.state);
      r := Ok(());
    }

    // ── Emergency exits ──

    method RecoveryWithdraw(signers: Signers, id: u64, caller: Address) returns (r: Result<()>)
      requires Ready()
      modifies this
      ensures Follows(OnEscrow(old(Contents()), id,
                               Lifecycle.RecoveryWithdraw(old(g), signers, old(Stored(id)), caller)), r)
    {
      var auth := Signed(signers, caller);
      :- auth;
      if !g.cfg.recoveryMode {
        return Err(NotInRecoveryMode);
      }
      var escrow :- LoadEscrow(id);
      if !Live(escrow.state) {
        return Err(TerminalStateError(escrow.state, InvalidState));
      }
      if escrow.buyer.None? {
        return Err(EscrowHasNoBuyer);
      }
      if caller != escrow.buyer.value {
        return Err(NotAuthorizedBuyer);
      }
      r := CloseWithRefund(id, escrow, false, true, escrow.buyer.value);
    }

    method EmergencyDrain(signers: Signers, id: u64) returns (r: Result<()>)
      requires Ready()
      modifies this
      ensures Follows(OnEscrow(old(Contents()), id,
                               Lifecycle.EmergencyDrain(old(g), signers, old(Stored(id)))), r)
    {
      if !g.cfg.paused {
        return Err(ContractNotPaused);
      }
      var escrow :- LoadEscrow(id);
      if !Lifecycle.Drainable(escrow.state) {
        return Err(TerminalStateError(escrow.state, InvalidState));
      }
      if escrow.buyer.None? {
        return Err(EscrowHasNoBuyer);
      }
      :- Signed(signers, escrow.buyer.value);
      :- Signed(signers, escrow.payees[0].address);
      r := CloseWithRefund(id, escrow, false, true, escrow.buyer.value);
    }

    // ── Disputes ──

    method SaveDispute(id: u64, d: Dispute)
      requires id in recs
      modifies `recs
      ensures Contents() == old(Contents()).(recs := old(recs)[id := old(recs[id]).(dispute := Some(d))])
    {
      recs := recs[id := recs[id].(dispute := Some(d))];
    }

    /** The records a new dispute saves; it also clears a delivery proposal. */
    method SaveRaised(id: u64, loaded: Escrow)
      requires id in recs && loaded == recs[id].escrow
      modifies `recs
      ensures Contents() == old(Contents()).(recs := old(recs)[id := Enter(old(recs[id]), Disputed, g.now).(
                dispute := Some(Dispute(true, g.now, 0, None, 0, 0, 0, 0, false)), proposal := None)])
    {
      SaveEscrow(id, loaded.(state := Disputed), loaded.state);
      SaveDispute(id, Dispute(true, g.now, 0, None, 0, 0, 0, 0, false));
      recs := recs[id := recs[id].(proposal := None)];
    }

    method RaiseDispute(signers: Signers, id: u64, caller: Address, knownReason: bool, descriptionLen: nat)
        returns (r: Result<()>)
      requires Ready()
      requires id in recs && (recs[id].escrow.state == Funded || recs[id].escrow.state == Shipped) ==>
               recs[id].dispute.None?
      modifies this
      ensures Follows(OnEscrow(old(Contents()), id,
                               Disputes.RaiseDispute(old(g), signers, old(Stored(id)), caller,
                                                     knownReason, descriptionLen)), r)
    {
      var auth := Signed(signers, caller);
      :- auth;
      :- EnsureActive("raise_dispute");
      var escrow :- LoadEscrow(id);
      if escrow.buyer.None? {
        return Err(EscrowHasNoBuyer);
      }
      if caller != escrow.buyer.value {
        return Err(NotAuthorizedBuyer);
      }
      if escrow.state != Funded && escrow.state != Shipped {
        return Err(TerminalStateError(escrow.state, InvalidState));
      }
      if g.now >= DisputeDeadline(escrow) {
        return Err(DisputeWindowStillOpen);
      }
      if !knownReason {
        return Err(InvalidDisputeReason);
      }
      if descriptionLen > MAX_DESCRIPTION_LEN {
        return Err(InputTooLong);
      }
      SaveRaised(id, escrow);
      disputed := Increment(disputed, id);
      CommitDisputed(old(Contents()), id, recs[id]);
      r := Ok(());
    }

    /** The fees of a resolution. */
    method ComputeFees(loaded: Escrow, d: Dispute, charge: bool) returns (r: Result<(i128, i128)>)
      ensures r == if d.feesCharged then Ok((d.arbitrationFee, d.resolverFee))
                   else if !charge then Ok((0, 0))
                   else Disputes.FirstFees(g, loaded)
    {
      if d.feesCharged {
        return Ok((d.arbitrationFee, d.resolverFee));
      }
      if !charge {
        return Ok((0, 0));
      }
      var arbitration :- CalculateFee(loaded.amount, g.cfg.arbitrationFeeBps);
      var resolver :- CalculateFee(loaded.amount, loaded.resolverFeeBps);
      if arbitration + resolver > MAX_I128 {
        return Err(ArithmeticError);
      }
      if arbitration + resolver > loaded.amount {
        return Err(FeeExceedsMax);
      }
      r := Ok((arbitration, resolver));
    }

    /** `execute_resolution_transition`. */
    method ExecuteResolution(id: u64, loaded: Escrow, actor: Address, outcome: Ballot, votes: seq<Vote>, charge: bool)
        returns (r: Result<()>)
      requires id in recs && loaded == recs[id].escrow && loaded.state == Disputed
      modifies this
      ensures Follows(OnEscrow(old(Contents()), id,
                               Disputes.Resolve(old(g), old(recs[id]), actor, outcome, votes, charge)), r)
    {
      var dispute :- LoadDispute(id);
      var fees :- ComputeFees(loaded, dispute, charge);
      r := ResolveWithFees(id, loaded, dispute, actor, outcome, votes, !dispute.feesCharged && charge, fees.0, fees.1);
    }

    method ResolveWithFees(id: u64, loaded: Escrow, d: Dispute, actor: Address, outcome: Ballot, votes: seq<Vote>,
                           charging: bool, arbitration: i128, resolver: i128) returns (r: Result<()>)
      requires id in recs && loaded == recs[id].escrow && loaded.state == Disputed && recs[id].dispute == Some(d)
      requires charging ==>
               !d.feesCharged && 0 <= arbitration && 0 <= resolver && arbitration + resolver <= loaded.amount
      modifies this
      ensures Follows(OnEscrow(old(Contents()), id,
                               Disputes.ResolveWith(old(g), old(recs[id]), d, actor, outcome, votes, charging,
                                                    arbitration, resolver)), r)
    {
      if !d.feesCharged && g.cfg.feeCollector.None? {
        return Err(NotInitialized);
      }
      var pays := [];
      if !d.feesCharged {
        pays := Payout(loaded.token, g.cfg.feeCollector.value, arbitration) + Payout(loaded.token, actor, resolver);
      }
      var amount: i128, total: Option<i128> := loaded.amount, None;
      if charging {
        amount := amount - arbitration;
        amount := amount - resolver;
        if Disputes.ArbitrationTotal(g, loaded.token) + arbitration > MAX_I128 {
          return Err(ArithmeticError);
        }
        total := Some(Disputes.ArbitrationTotal(g, loaded.token) + arbitration);
      }
      if g.now < d.disputedAt {
        return Err(TimestampInvariantViolated);
      }
      if g.now + APPEAL_WINDOW > MAX_U64 {
        return Err(ArithmeticError);
      }
      r := ApplyResolution(id, loaded, d, actor, outcome, votes, amount, arbitration, resolver, pays, total);
    }

    /** The effects of a resolution: fee total, records, then the fee payments. */
    method ApplyResolution(id: u64, loaded: Escrow, d: Dispute, actor: Address, outcome: Ballot, votes: seq<Vote>,
                           amount: i128, arbitration: i128, resolver: i128, pays: seq<Transfer>, total: Option<i128>)
      returns (r: Result<()>)
      requires id in recs && loaded == recs[id].escrow && loaded.state == Disputed && recs[id].dispute == Some(d)
      modifies this
      ensures Follows(OnEscrow(old(Contents()), id, Ok(Move(
                Disputes.ResolvedRec(old(recs[id]), d, actor, outcome, votes, amount, arbitration, resolver,
                                     old(g.now)),
                pays, total))), r)
    {
      if total.Some? {
        g := g.(arbitrationTotals := g.arbitrationTotals[loaded.token := total.value]);
      }
      SaveResolution(id, loaded, d, actor, outcome, votes, amount, arbitration, resolver);
      :- Execute(pays);
      CommitResolved(old(Contents()), id, recs[id], pays, total);
      r := Ok(());
    }

    /** The three records a resolution saves. */
    method SaveResolution(id: u64, loaded: Escrow, d: Dispute, actor: Address, outcome: Ballot, votes: seq<Vote>,
                          amount: i128, arbitration: i128, resolver: i128)
      requires id in recs && loaded == recs[id].escrow && loaded.state == Disputed && recs[id].dispute == Some(d)
      modifies `recs
      ensures Contents() == old(Contents()).(recs := old(recs)[id :=
                Disputes.ResolvedRec(old(recs[id]), d, actor, outcome, votes, amount, arbitration, resolver, g.now)])
    {
      var dispute := d.(resolution := ResolutionCode(outcome), resolvedBy := Some(actor), resolvedAt := g.now);
      dispute := dispute.(arbitrationFee := arbitration, resolverFee := resolver, feesCharged := true);
      SaveEscrow(id, loaded.(amount := amount, state := PendingFinalization), loaded.state);
      SaveDispute(id, dispute);
      recs := recs[id := recs[id].(votes := votes)];
    }

    /** `resolve_or_vote_internal`. */
    method CastVote(signers: Signers, id: u64, caller: Address, ballot: Ballot) returns (r: Result<()>)
      modifies this
      ensures Follows(OnEscrow(old(Contents()), id,
                               Disputes.CastVote(old(g), signers, old(Stored(id)), caller, ballot)), r)
    {
      var auth := Signed(signers, caller);
      :- auth;
      :- EnsureActive("RESOLVE");
      var escrow :- LoadEscrow(id);
      if escrow.state != Disputed {
        return Err(TerminalStateError(escrow.state, InvalidState));
      }
      if !CanResolve(escrow.resolvers, caller, g.now) {
        return Err(NotAuthorized);
      }
      var votes := AddOrUpdateVote(recs[id].votes, caller, ballot, g.now);
      var decided := TallyVotes(votes, Threshold(escrow.resolvers));
      if decided.Some? {
        r := ExecuteResolution(id, escrow, caller, decided.value, votes, true);
      } else {
        recs := recs[id := recs[id].(votes := votes)];
        CommitQuiet(old(Contents()), id, recs[id], []);
        r := Ok(());
      }
    }

    method ClaimDisputeTimeout(signers: Signers, id: u64, caller: Address) returns (r: Result<()>)
      modifies this
      ensures Follows(OnEscrow(old(Contents()), id,
                               Disputes.ClaimDisputeTimeout(old(g), signers, old(Stored(id)), caller)), r)
    {
      var auth := Signed(signers, caller);
      :- auth;
      :- EnsureActive("claim_dispute_timeout");
      var escrow :- LoadEscrow(id);
      if escrow.state != Disputed {
        return Err(InvalidState);
      }
      if escrow.buyer.None? {
        return Err(EscrowHasNoBuyer);
      }
      if caller != escrow.buyer.value && caller != escrow.payees[0].address {
        return Err(NotAuthorized);
      }
      var dispute :- LoadDispute(id);
      if dispute.disputedAt + g.cfg.disputeTimeout > MAX_U64 {
        return Err(ArithmeticOverflow);
      }
      if g.now < dispute.disputedAt + g.cfg.disputeTimeout {
        return Err(DisputeTimeoutNotElapsed);
      }
      r := ExecuteResolution(id, escrow, caller, Refund, recs[id].votes, false);
    }

    method ResolveDeadlockedDispute(id: u64) returns (r: Result<()>)
      modifies this
      ensures Follows(OnEscrow(old(Contents()), id,
                               Disputes.ResolveDeadlockedDispute(old(g), old(Stored(id)))), r)
    {
      var active := EnsureActive("resolve_deadlocked_dispute");
      :- active;
      var escrow :- LoadEscrow(id);
      if escrow.state != Disputed {
        return Err(InvalidState);
      }
      var dispute :- LoadDispute(id);
      if dispute.disputedAt + DISPUTE_DEADLOCK_WINDOW > MAX_U64 {
        return Err(ArithmeticOverflow);
      }
      if g.now < dispute.disputedAt + DISPUTE_DEADLOCK_WINDOW {
        return Err(DisputeNotDeadlocked);
      }
      var votes := recs[id].votes;
      if votes == [] {
        return Err(NoResolverVotes);
      }
      var decided := TallyVotes(votes, Threshold(escrow.resolvers));
      if decided.Some? {
        return Err(DisputeNotDeadlocked);
      }
      var outcome := TallyVotesMajority(votes);
      var actor := FindVoter(votes, outcome);
      MajorityHasBacker(votes);
      r := ExecuteResolution(id, escrow, actor.value, outcome, votes, true);
    }

    method AppealDispute(signers: Signers, id: u64, caller: Address) returns (r: Result<()>)
      modifies this
      ensures Follows(OnEscrow(old(Contents()), id,
                               Disputes.AppealDispute(old(g), signers, old(Stored(id)), caller)), r)
    {
      var auth := Signed(signers, caller);
      :- auth;
      :- EnsureActive("appeal_dispute");
      var escrow :- LoadEscrow(id);
      if escrow.state != PendingFinalization {
        return Err(NotPendingFinalization);
      }
      var dispute :- LoadDispute(id);
      if dispute.appealCount >= g.maxAppeals {
        return Err(MaxAppealsReached);
      }
      if dispute.resolvedAt + APPEAL_WINDOW > MAX_U64 {
        return Err(ArithmeticError);
      }
      if g.now >= dispute.resolvedAt + APPEAL_WINDOW {
        return Err(DisputeWindowStillOpen);
      }
      if escrow.buyer.None? {
        return Err(EscrowHasNoBuyer);
      }
      if caller != escrow.buyer.value && caller != escrow.payees[0].address {
        return Err(NotAuthorized);
      }
      var fee :- CalculateFee(escrow.amount, g.cfg.appealFeeBps);
      if fee > 0 && g.cfg.feeCollector.None? {
        return Err(NotInitialized);
      }
      r := Reopen(id, escrow, dispute, caller, fee);
    }

    /** The effects of an appeal, then the appellant's fee. */
    method Reopen(id: u64, loaded: Escrow, d: Dispute, caller: Address, fee: i128) returns (r: Result<()>)
      requires id in recs && loaded == recs[id].escrow && loaded.state == PendingFinalization
      requires recs[id].dispute == Some(d) && d.appealCount < MAX_U32 && (fee > 0 ==> g.cfg.feeCollector.Some?)
      modifies this
      ensures Follows(OnEscrow(old(Contents()), id, Ok(Disputes.Reopening(old(g), old(recs[id]), d, caller, fee))), r)
    {
      SaveAppeal(id, loaded, d);
      var pays := [];
      if fee > 0 {
        pays := [Transfer(loaded.token, caller, g.cfg.feeCollector.value, fee)];
      }
      :- Execute(pays);
      CommitQuiet(old(Contents()), id, recs[id], pays);
      r := Ok(());
    }

    /** The three records an appeal saves: back to `Disputed`, a cleared resolution, no votes. */
    method SaveAppeal(id: u64, loaded: Escrow, d: Dispute)
      requires id in recs && loaded == recs[id].escrow && recs[id].dispute == Some(d) && d.appealCount < MAX_U32
      modifies `recs
      ensures Contents() == old(Contents()).(recs := old(recs)[id := Enter(old(recs[id]), Disputed, g.now).(
                dispute := Some(d.(active := true, resolution := 0, resolvedBy := None, resolvedAt := 0,
                                   appealCount := d.appealCount + 1)),
                votes := [])])
    {
      var dispute := d.(active := true, resolution := 0, resolvedBy := None, resolvedAt := 0);
      dispute := dispute.(appealCount := dispute.appealCount + 1);
      recs := recs[id := recs[id].(votes := [])];
      SaveEscrow(id, loaded.(state := Disputed), loaded.state);
      SaveDispute(id, dispute);
    }

    /** The settlement arithmetic of `finalize_dispute`. */
    method SettleWaterfall(id: u64, d: Dispute) returns (r: Result<Disputes.Waterfall>)
      requires id in recs
      ensures r == Disputes.Settlement(g, recs[id], d)
    {
      var escrow := recs[id].escrow;
      if !Disputes.FitsI128(escrow.amount + d.arbitrationFee) {
        return Err(ArithmeticError);
      }
      var basis := escrow.amount + d.arbitrationFee;
      if !Disputes.FitsI128(basis + d.resolverFee) {
        return Err(ArithmeticError);
      }
      basis := basis + d.resolverFee;
      var platform: i128 := 0;
      if g.cfg.platformFeeBps > 0 {
        platform :- CalculateFee(basis, g.cfg.platformFeeBps);
      }
      if platform > 0 && g.cfg.treasury.None? {
        return Err(NotInitialized);
      }
      var protocol :- CalculateFee(basis, escrow.feeBps);
      var payout := escrow.amount - platform - protocol;
      if !Disputes.FitsI128(payout) {
        return Err(ArithmeticError);
      }
      r := Ok(Disputes.Waterfall(platform, protocol, payout));
    }

    method FinalizeDispute(signers: Signers, id: u64, caller: Address) returns (r: Result<()>)
      requires Ready()
      modifies this
      ensures Follows(OnEscrow(old(Contents()), id,
                               Disputes.FinalizeDispute(old(g), signers, old(Stored(id)), caller)), r)
    {
      var auth := Signed(signers, caller);
      :- auth;
      :- EnsureActive("finalize_dispute");
      var escrow :- LoadEscrow(id);
      if escrow.state != PendingFinalization {
        return Err(NotPendingFinalization);
      }
      var dispute :- LoadDispute(id);
      if RecordedResolution(dispute).None? || dispute.resolvedBy.None? {
        return Err(InvalidState);
      }
      if dispute.resolvedAt + APPEAL_WINDOW > MAX_U64 {
        return Err(ArithmeticError);
      }
      if g.now < dispute.resolvedAt + APPEAL_WINDOW {
        return Err(AppealWindowActive);
      }
      var recipient := escrow.payees[0].address;
      if RecordedResolution(dispute) == Some(Refund) {
        if escrow.buyer.None? {
          return Err(EscrowHasNoBuyer);
        }
        recipient := escrow.buyer.value;
      }
      if g.cfg.feeCollector.None? {
        return Err(NotInitialized);
      }
      var w :- SettleWaterfall(id, dispute);
      r := Conclude(id, escrow, dispute, w, recipient);
    }

    /** The effects of a finalization: state, dispute, counter, then the four payments. */
    method Conclude(id: u64, loaded: Escrow, d: Dispute, w: Disputes.Waterfall, recipient: Address)
      returns (r: Result<()>)
      requires Ready() && id in recs && loaded == recs[id].escrow && loaded.state == PendingFinalization
      requires recs[id].dispute == Some(d) && RecordedResolution(d).Some? && g.cfg.feeCollector.Some?
      requires w.platform > 0 ==> g.cfg.treasury.Some?
      modifies this
      ensures var st := if RecordedResolution(d) == Some(Release) then Completed else Refunded;
              Follows(OnEscrow(old(Contents()), id, Ok(Move(
                Enter(old(recs[id]), st, old(g.now)).(dispute := Some(d.(active := false))),
                Disputes.FinalPays(old(g), old(recs[id]), w, recipient, old(g.cfg.feeCollector.value)), None))), r)
    {
      var st := if RecordedResolution(d) == Some(Release) then Completed else Refunded;
      SaveClosed(id, loaded, st, false, false);
      SaveDispute(id, d.(active := false));
      assert recs == old(recs)[id := recs[id]];
      if st == Completed {
        completed := Increment(completed, id);
      } else {
        refunded := Increment(refunded, id);
      }
      var pays := [];
      if w.platform > 0 {
        pays := Payout(loaded.token, g.cfg.treasury.value, w.platform);
      }
      pays := pays + Payout(loaded.token, recipient, w.payout);
      pays := pays + Payout(loaded.token, g.cfg.feeCollector.value, w.protocol);
      var others := PayoutBasketTokens(recs[id].basket, loaded.token, recipient);
      :- Execute(pays + others);
      if st == Completed {
        CommitCompleted(old(Contents()), id, recs[id], pays + others);
      } else {
        CommitRefunded(old(Contents()), id, recs[id], pays + others);
      }
      r := Ok(());
    }

    method CancelPendingFinalization(signers: Signers, id: u64, caller: Address) returns (r: Result<()>)
      requires Ready()
      modifies this
      ensures Follows(OnEscrow(old(Contents()), id,
                               Disputes.CancelPendingFinalization(old(g), signers, old(Stored(id)), caller)), r)
    {
      var auth := Signed(signers, caller);
      :- auth;
      :- EnsureActive("cancel_pending_finalization");
      if caller != g.admin {
        return Err(NotAuthorized);
      }
      var escrow :- LoadEscrow(id);
      if escrow.state != PendingFinalization {
        return Err(NotPendingFinalization);
      }
      if escrow.buyer.None? {
        return Err(EscrowHasNoBuyer);
      }
      r := Override(id, escrow, caller, escrow.buyer.value);
    }

    /** The effects of the admin override: counter, dispute record if any, state, refund. */
    method Override(id: u64, loaded: Escrow, caller: Address, buyer: Address) returns (r: Result<()>)
      requires Ready() && id in recs && loaded == recs[id].escrow && loaded.state == PendingFinalization
      modifies this
      ensures var dispute := if old(recs[id]).dispute.None? then None
                             else Some(old(recs[id]).dispute.value.(active := false, resolvedBy := Some(caller),
                                                                    resolution := 1, resolvedAt := old(g.now)));
              Follows(OnEscrow(old(Contents()), id, Ok(Move(
                Enter(old(recs[id]), Refunded, old(g.now)).(dispute := dispute),
                FullPayout(old(recs[id]), buyer), None))), r)
    {
      refunded := Increment(refunded, id);
      SaveClosed(id, loaded, Refunded, false, false);
      if recs[id].dispute.Some? {
        var dispute := recs[id].dispute.value;
        dispute := dispute.(active := false, resolvedBy := Some(caller), resolution := 1, resolvedAt := g.now);
        SaveDispute(id, dispute);
      }
      assert recs == old(recs)[id := recs[id]];
      :- PayBack(id, loaded, buyer);
      CommitRefunded(old(Contents()), id, recs[id], FullPayout(old(recs[id]), buyer));
      r := Ok(());
    }

    // ── Creation ──

    /** The role checks of `create_escrow_internal`: no payee is the resolver or the buyer, nor are those two the
        same. */
    static method EnsureRolesDistinct(payees: seq<Payee>, resolver: Address, buyer: Option<Address>) returns (r: Check)
      ensures r == Need(!IsPayee(payees, resolver)
                        && (buyer.Some? ==> !IsPayee(payees, buyer.value) && resolver != buyer.value), ConflictingRoles)
    {
      for i := 0 to |payees|
        invariant forall j :: 0 <= j < i ==> payees[j].address != resolver && buyer != Some(payees[j].address)
      {
        if resolver == payees[i].address {
          return Fail(ConflictingRoles);
        }
        if buyer == Some(payees[i].address) {
          return Fail(ConflictingRoles);
        }
      }
      if buyer == Some(resolver) {
        return Fail(ConflictingRoles);
      }
      r := Pass;
    }

    /** `next_escrow_id`, `save_escrow`, the seller's index and the creation counter. A basket escrow is appended to
        the index twice. */
    method StoreNew(b: Rec) returns (r: Result<u64>)
      requires Ready()
      modifies this
      ensures Follows(Issue(old(Contents()), Ok(b)), r) && Ready() && g == old(g)
      ensures r.Ok? ==> r.value == old(nextId)
    {
      var id := nextId;
      if id + 1 > MAX_U64 {
        return Err(EscrowCounterOverflow);
      }
      ShardBelowTotal(created, id % COUNTER_SHARDS);
      nextId := id + 1;
      recs := recs[id := b];
      var seller := b.escrow.payees[0].address;
      vendorIndex := vendorIndex[seller := Listed(vendorIndex, seller) + [id]];
      if b.basket != [] {
        vendorIndex := vendorIndex[seller := Listed(vendorIndex, seller) + [id]];
      }
      BumpCounts(created, id);
      created := Increment(created, id);
      TwiceListed(old(vendorIndex), seller, id);
      r := Ok(id);
    }

    /** `create_escrow_internal`. */
    method CreateEscrowInternal(t: Terms) returns (r: Result<u64>)
      requires Ready()
      modifies this
      ensures Follows(Issue(old(Contents()), CreateInternal(old(g), t)), r) && Ready() && g == old(g)
      ensures r.Ok? ==> r.value == old(nextId)
    {
      if t.payees == [] {
        return Err(InvalidAddress);
      }
      :- EnsureActive("CREATE");
      if t.amount <= 0 {
        return Err(InvalidAmount);
      }
      if t.amount > g.cfg.maxAmount {
        return Err(AmountExceedsMaximum);
      }
      if t.amount < g.cfg.minAmount {
        return Err(AmountBelowMinimum);
      }
      if !(MIN_SHIPPING_WINDOW <= t.shippingWindow <= MAX_SHIPPING_WINDOW) {
        return Err(InvalidShippingWindow);
      }
      if t.gracePeriod > MAX_GRACE_PERIOD {
        return Err(GracePeriodTooLong);
      }
      if t.feeBps > MAX_ESCROW_FEE_BPS {
        return Err(FeeExceedsMax);
      }
      if t.resolverFeeBps > MAX_ESCROW_FEE_BPS {
        return Err(FeeExceedsMax);
      }
      :- ValidatePayees(t.payees);
      PayeesCheckMeaning(t.payees);
      if |t.notes| > MAX_NOTES_LEN {
        return Err(InputTooLong);
      }
      :- EnsureRolesDistinct(t.payees, t.resolver, t.buyer);
      if g.cfg.resolverStrict && t.resolver !in g.approvedResolvers {
        return Err(UnauthorizedResolver);
      }
      if g.cfg.allowlistEnabled && t.token !in g.allowedTokens {
        return Err(TokenNotAllowed);
      }
      r := StoreNew(NewRec(
        PendingEscrow(t.payees, t.buyer, Single(t.resolver), t.token, t.amount, t.feeBps, t.resolverFeeBps,
                      t.shippingWindow, t.expiresAt, t.gracePeriod),
        [], None, g.now));
    }

    method CreateEscrow(signers: Signers, t: Terms) returns (r: Result<u64>)
      requires Ready()
      modifies this
      ensures Follows(Issue(old(Contents()), Creation.CreateEscrow(old(g), signers, t)), r)
    {
      if t.payees == [] {
        return Err(IndexOutOfBounds);
      }
      :- Signed(signers, t.payees[0].address);
      :- EnsureActive("create_escrow");
      r := CreateEscrowInternal(t.(expiresAt := None, gracePeriod := 0));
    }

    method CreateEscrowWithExpiration(signers: Signers, seller: Address, t: Terms) returns (r: Result<u64>)
      requires Ready()
      modifies this
      ensures Follows(Issue(old(Contents()), Creation.CreateWithExpiration(old(g), signers, seller, t)), r)
    {
      var auth := Signed(signers, seller);
      :- auth;
      if t.expiresAt.Some? {
        if t.expiresAt.value <= g.now {
          return Err(InvalidExpiration);
        }
        if t.expiresAt.value + t.gracePeriod > MAX_U64 {
          return Err(ArithmeticOverflow);
        }
      }
      if t.gracePeriod > MAX_GRACE_PERIOD {
        return Err(GracePeriodTooLong);
      }
      var id :- CreateEscrowInternal(t.(payees := SoleSeller(seller), resolverFeeBps := 0, notes := ""));
      if t.expiresAt.Some? {
        recs := recs[id := recs[id].(expiry := Some(ExpirySchedule(t.expiresAt.value, t.gracePeriod)))];
        assert recs == old(recs)[id := recs[id]];
      }
      r := Ok(id);
    }

    /** `validate_resolvers`. */
    method ValidateResolvers(rs: ResolverSet, seller: Address, buyer: Option<Address>) returns (r: Check)
      ensures r == ResolversCheck(g, rs, seller, buyer)
    {
      if IsResolver(rs, seller) {
        return Fail(ConflictingRoles);
      }
      if buyer.Some? && IsResolver(rs, buyer.value) {
        return Fail(ConflictingRoles);
      }
      if rs.Multi? {
        if rs.members == [] || rs.quorum == 0 || rs.quorum > |rs.members| {
          return Fail(InvalidResolverThreshold);
        }
        var seen := [];
        for i := 0 to |rs.members|
          invariant seen == rs.members[..i] && Distinct(seen)
        {
          if rs.members[i] in seen {
            return Fail(DuplicateResolver);
          }
          seen := seen + [rs.members[i]];
        }
      } else if rs.Fallback? {
        if rs.primary == rs.backup {
          return Fail(DuplicateResolver);
        }
        if g.now + MAX_FALLBACK_DEADLINE_OFFSET > MAX_U64 {
          return Fail(ArithmeticOverflow);
        }
        if rs.deadline > g.now + MAX_FALLBACK_DEADLINE_OFFSET {
          return Fail(InvalidFallbackDeadline);
        }
      }
      r := Pass;
    }

    method CreateEscrowMulti(signers: Signers, seller: Address, buyer: Option<Address>, members: seq<Address>,
                             quorum: u32, token: Token, amount: i128, feeBps: u32, shippingWindow: u64)
      returns (r: Result<u64>)
      requires Ready()
      modifies this
      ensures Follows(Issue(old(Contents()),
                            Creation.CreateMulti(old(g), signers, seller, buyer, members, quorum, token,
                                                 amount, feeBps, shippingWindow)), r)
    {
      var auth := Signed(signers, seller);
      :- auth;
      :- EnsureActive("create_escrow_multi");
      if amount <= 0 {
        return Err(InvalidAmount);
      }
      if amount > MAX_ESCROW_AMOUNT {
        return Err(AmountExceedsMaximum);
      }
      if feeBps > MAX_ESCROW_FEE_BPS {
        return Err(FeeExceedsMax);
      }
      if g.cfg.allowlistEnabled && token !in g.allowedTokens {
        return Err(TokenNotAllowed);
      }
      :- ValidateResolvers(Multi(members, quorum), seller, buyer);
      r := StoreNew(NewRec(PendingEscrow(SoleSeller(seller), buyer, Multi(members, quorum), token, amount, feeBps, 0,
                                         shippingWindow, None, 0), [], None, g.now));
    }

    method CreateEscrowWithFallback(signers: Signers, seller: Address, buyer: Option<Address>, primary: Address,
                                    backup: Address, deadline: u64, token: Token, amount: i128, feeBps: u32,
                                    shippingWindow: u64)
      returns (r: Result<u64>)
      requires Ready()
      modifies this
      ensures Follows(Issue(old(Contents()),
                            Creation.CreateWithFallback(old(g), signers, seller, buyer, primary, backup,
                                                        deadline, token, amount, feeBps, shippingWindow)), r)
    {
      var auth := Signed(signers, seller);
      :- auth;
      :- EnsureActive("create_escrow_with_fallback");
      if amount <= 0 {
        return Err(InvalidAmount);
      }
      if amount > MAX_ESCROW_AMOUNT {
        return Err(AmountExceedsMaximum);
      }
      if feeBps > MAX_ESCROW_FEE_BPS {
        return Err(FeeExceedsMax);
      }
      :- ValidateResolvers(Fallback(primary, backup, deadline), seller, buyer);
      r := StoreNew(NewRec(PendingEscrow(SoleSeller(seller), buyer, Fallback(primary, backup, deadline), token, amount,
                                         feeBps, 0, shippingWindow, None, 0), [], None, g.now));
    }

    /** The duplicate-token loops of `create_basket_escrow`. */
    static method FindDuplicateToken(tokens: seq<Token>) returns (found: bool)
      ensures found <==> exists i, j :: 0 <= i < j < |tokens| && tokens[i] == tokens[j]
    {
      for i := 0 to |tokens|
        invariant forall a, b :: 0 <= a < i && a < b < |tokens| ==> tokens[a] != tokens[b]
      {
        for j := i + 1 to |tokens|
          invariant forall b :: i < b < j ==> tokens[i] != tokens[b]
        {
          if tokens[i] == tokens[j] {
            return true;
          }
        }
      }
      found := false;
    }

    /** The first pass over the amounts of a basket. */
    method CheckAmountsFirst(basket: seq<TokenEntry>) returns (r: Check)
      ensures r == AmountsFirstPass(g, basket)
    {
      for i := 0 to |basket|
        invariant AmountsFirstPass(g, basket) == AmountsFirstPass(g, basket[i..])
      {
        assert basket[i..][1..] == basket[i + 1..];
        if basket[i].amount < 0 {
          return Fail(InvalidAmount);
        }
        if basket[i].amount > g.cfg.maxAmount {
          return Fail(AmountExceedsMaximum);
        }
        if 0 < basket[i].amount < g.cfg.minAmount {
          return Fail(AmountBelowMinimum);
        }
      }
      r := Pass;
    }

    /** The second pass over the amounts of a basket. */
    method CheckAmountsSecond(basket: seq<TokenEntry>) returns (r: Check)
      ensures r == AmountsSecondPass(g, basket)
    {
      for i := 0 to |basket|
        invariant AmountsSecondPass(g, basket) == AmountsSecondPass(g, basket[i..])
      {
        assert basket[i..][1..] == basket[i + 1..];
        if basket[i].amount <= 0 {
          return Fail(InvalidAmount);
        }
        if basket[i].amount > g.cfg.maxAmount {
          return Fail(AmountExceedsMaximum);
        }
        if basket[i].amount < g.cfg.minAmount {
          return Fail(AmountBelowMinimum);
        }
      }
      r := Pass;
    }

    method CheckTokensAllowed(basket: seq<TokenEntry>) returns (r: Check)
      ensures r == Need(TokensAllowed(g, basket), TokenNotAllowed)
    {
      for i := 0 to |basket|
        invariant forall j :: 0 <= j < i ==> TokenAllowed(g, basket[j].token).Pass?
      {
        if g.cfg.allowlistEnabled && basket[i].token !in g.allowedTokens {
          assert TokenAllowed(g, basket[i].token).Fail?;
          return Fail(TokenNotAllowed);
        }
      }
      r := Pass;
    }

    method CreateBasketEscrow(signers: Signers, seller: Address, buyer: Option<Address>, resolver: Address,
                              tokens: seq<Token>, amounts: seq<i128>, feeBps: u32, shippingWindow: u64,
                              notes: string, expiresAt: Option<u64>, gracePeriod: u64)
      returns (r: Result<u64>)
      requires Ready()
      modifies this
      ensures Follows(Issue(old(Contents()),
                            Creation.CreateBasket(old(g), signers, seller, buyer, resolver, tokens, amounts,
                                                  feeBps, shippingWindow, notes, expiresAt, gracePeriod)), r)
    {
      var auth := Signed(signers, seller);
      :- auth;
      :- EnsureActive("create_basket_escrow");
      if |tokens| != |amounts| || tokens == [] || |tokens| > MAX_BASKET_SIZE {
        return Err(BasketTokenMismatch);
      }
      var duplicate := FindDuplicateToken(tokens);
      ghost var entries := Basket(tokens, amounts);
      assert duplicate <==> !DistinctTokens(entries) by {
        assert forall i :: 0 <= i < |tokens| ==> entries[i].token == tokens[i];
      }
      if duplicate {
        return Err(BasketTokenMismatch);
      }
      r := CreateFromBasket(seller, buyer, resolver, Basket(tokens, amounts), feeBps, shippingWindow, notes, expiresAt,
                            gracePeriod);
    }

    method EnsureBasketParties(seller: Address, buyer: Option<Address>, resolver: Address, basket: seq<TokenEntry>)
        returns (r: Check)
      ensures r == BasketParties(g, seller, buyer, resolver, basket)
    {
      if resolver == seller {
        return Fail(ConflictingRoles);
      }
      if buyer.Some? {
        if buyer.value == seller || buyer.value == resolver {
          return Fail(ConflictingRoles);
        }
      }
      if g.cfg.resolverStrict && resolver !in g.approvedResolvers {
        return Fail(UnauthorizedResolver);
      }
      r := CheckTokensAllowed(basket);
    }

    method CreateFromBasket(seller: Address, buyer: Option<Address>, resolver: Address, basket: seq<TokenEntry>,
                            feeBps: u32, shippingWindow: u64, notes: string, expiresAt: Option<u64>,
                            gracePeriod: u64)
      returns (r: Result<u64>)
      requires Ready() && basket != []
      modifies this
      ensures Follows(Issue(old(Contents()),
                            BasketRec(old(g), seller, buyer, resolver, basket, feeBps, shippingWindow, notes,
                                      expiresAt, gracePeriod)), r)
    {
      var valid := CheckAmountsFirst(basket);
      :- valid;
      if basket[0].amount == 0 {
        return Err(AmountBelowMinimum);
      }
      if feeBps > MAX_ESCROW_FEE_BPS {
        return Err(FeeExceedsMax);
      }
      if !(MIN_SHIPPING_WINDOW <= shippingWindow <= MAX_SHIPPING_WINDOW) {
        return Err(InvalidShippingWindow);
      }
      if |notes| > MAX_NOTES_LEN {
        return Err(InputTooLong);
      }
      if expiresAt.Some? && expiresAt.value <= g.now {
        return Err(InvalidExpiration);
      }
      :- CheckAmountsSecond(basket);
      :- EnsureBasketParties(seller, buyer, resolver, basket);
      if expiresAt.Some? && expiresAt.value + gracePeriod > MAX_U64 {
        return Err(ArithmeticOverflow);
      }
      var expiry := None;
      if expiresAt.Some? {
        expiry := Some(ExpirySchedule(expiresAt.value, gracePeriod));
      }
      r := StoreNew(NewRec(
        PendingEscrow(SoleSeller(seller), buyer, Single(resolver), basket[0].token, basket[0].amount, feeBps, 0,
                      shippingWindow, expiresAt, 0),
        basket, expiry, g.now));
    }

    /** The duplicate-notes loops of `batch_create_escrow`, which skip empty notes. */
    static method FindDuplicateNotes(inputs: seq<Terms>) returns (found: bool)
      ensures found == !NotesDistinct(inputs)
    {
      var seen: seq<string> := [];
      for i := 0 to |inputs|
        invariant forall n :: n in seen ==> exists j :: 0 <= j < i && inputs[j].notes == n
        invariant forall j :: 0 <= j < i && inputs[j].notes != "" ==> inputs[j].notes in seen
        invariant forall a, b :: 0 <= a < b < i && inputs[a].notes == inputs[b].notes ==> inputs[a].notes == ""
      {
        if inputs[i].notes != "" {
          for k := 0 to |seen|
            invariant forall m :: 0 <= m < k ==> seen[m] != inputs[i].notes
          {
            if seen[k] == inputs[i].notes {
              assert seen[k] in seen;
              return true;
            }
          }
          seen := seen + [inputs[i].notes];
        }
      }
      found := false;
    }

    method BatchCreateEscrow(signers: Signers, seller: Address, inputs: seq<Terms>) returns (r: Result<seq<u64>>)
      requires Ready()
      modifies this
      ensures Follows(BatchCreate(old(Contents()), signers, seller, inputs), r)
      ensures r.Ok? ==> |r.value| == |inputs| && forall i :: 0 <= i < |inputs| ==> r.value[i] == old(nextId) + i
    {
      var auth := Signed(signers, seller);
      :- auth;
      :- EnsureActive("batch_create_escrow");
      var duplicate := FindDuplicateNotes(inputs);
      if duplicate {
        return Err(DuplicateNotes);
      }
      var ids: seq<u64> := [];
      for i := 0 to |inputs|
        invariant Ready() && g == old(g)
        invariant |ids| == i && nextId == old(nextId) + i && forall j :: 0 <= j < i ==> ids[j] == old(nextId) + j
        invariant IssueAll(old(Contents()), seller, inputs) == IssueAll(Contents(), seller, inputs[i..])
      {
        assert inputs[i..][1..] == inputs[i + 1..];
        var id :- CreateEscrowInternal(inputs[i].(payees := SoleSeller(seller), expiresAt := None, gracePeriod := 0));
        ids := ids + [id];
      }
      r := Ok(ids);
    }

    // ── Settings ──

    method Configure(signers: Signers, setting: Setting, timelocked: bool) returns (r: Result<()>)
      modifies `g
      ensures Follows(WithGlobals(old(Contents()), UpdateSetting(old(g), signers, setting, timelocked)), r)
    {
      g :- UpdateSetting(g, signers, setting, timelocked);
      r := Ok(());
    }

    method AcceptFeeCollector(signers: Signers, caller: Address) returns (r: Result<()>)
      modifies `g
      ensures Follows(WithGlobals(old(Contents()), CollectorAccepts(old(g), signers, caller)), r)
    {
      var auth := Signed(signers, caller);
      :- auth;
      if g.pendingCollector.None? {
        return Err(NoPendingFeeCollector);
      }
      if g.pendingCollector.value != caller || g.cfg.feeCollector.None? {
        return Err(NotAuthorized);
      }
      g := g.(cfg := g.cfg.(feeCollector := Some(caller)));
      g := g.(pendingCollector := None);
      r := Ok(());
    }

    method AcceptTreasury(signers: Signers, caller: Address) returns (r: Result<()>)
      modifies `g
      ensures Follows(WithGlobals(old(Contents()), TreasuryAccepts(old(g), signers, caller)), r)
    {
      var auth := Signed(signers, caller);
      :- auth;
      if g.pendingTreasury.None? {
        return Err(NoPendingTreasury);
      }
      if g.pendingTreasury.value != caller {
        return Err(NotAuthorized);
      }
      g := g.(cfg := g.cfg.(treasury := Some(caller)));
      g := g.(pendingTreasury := None);
      r := Ok(());
    }

    // ── Views ──

    /** `get_escrow`. */
    method GetEscrow(id: u64) returns (r: Result<Escrow>)
      ensures r == if id in recs then Ok(recs[id].escrow) else Err(EscrowNotFound)
    {
      r := LoadEscrow(id);
    }

    /** `read_sharded_counter_total`: the saturating sum over the buckets. */
    static method ReadTotal(c: Shards) returns (total: u64)
      ensures total == Saturated(Total(c))
    {
      total := 0;
      for bucket := 0 to COUNTER_SHARDS
        invariant total == (if Total(c) - Total(c[bucket..]) <= MAX_U64 then Total(c) - Total(c[bucket..]) else MAX_U64)
      {
        assert c[bucket..][1..] == c[bucket + 1..];
        TailTotal(c, bucket);
        total := if total + c[bucket] > MAX_U64 then MAX_U64 else total + c[bucket];
      }
      assert c[COUNTER_SHARDS..] == [];
    }

    /** `read_counter_total`: the value left by a deployment before sharding counts too. */
    static method ReadCounterTotal(legacy: u64, c: Shards) returns (total: u64)
      ensures total == Saturated(legacy + Total(c))
    {
      var sharded := ReadTotal(c);
      total := if legacy + sharded > MAX_U64 then MAX_U64 else legacy + sharded;
    }

    /** `get_stats`; `legacy` holds the counters of a deployment before sharding, which no entry point writes. */
    method GetStats(legacy: Stats) returns (stats: Stats)
      ensures stats == Stats(Saturated(legacy.created + Total(created)), Saturated(legacy.completed + Total(completed)),
                             Saturated(legacy.disputed + Total(disputed)), Saturated(legacy.refunded + Total(refunded)))
    {
      var createdTotal := ReadCounterTotal(legacy.created, created);
      var completedTotal := ReadCounterTotal(legacy.completed, completed);
      var disputedTotal := ReadCounterTotal(legacy.disputed, disputed);
      var refundedTotal := ReadCounterTotal(legacy.refunded, refunded);
      stats := Stats(createdTotal, completedTotal, disputedTotal, refundedTotal);
    }

    /** `get_escrows_by_buyer`: the index if it has entries, otherwise a scan of the last thousand ids, newest first,
        then put in ascending order. */
    method GetEscrowsByBuyer(buyer: Address) returns (ids: seq<u64>)
      ensures Listed(buyerIndex, buyer) != [] ==> ids == Listed(buyerIndex, buyer)
      ensures Listed(buyerIndex, buyer) == [] ==> forall i, j :: 0 <= i < j < |ids| ==> ids[i] < ids[j]
      ensures Listed(buyerIndex, buyer) == [] ==>
                forall id: u64 :: id in ids <==>
                  && 1 <= id < nextId && nextId <= id + SCAN_WINDOW
                  && id in recs && recs[id].escrow.buyer == Some(buyer)
    {
      var indexed := Listed(buyerIndex, buyer);
      if indexed != [] {
        return indexed;
      }
      var found: seq<u64> := [];
      var id, steps := nextId, 0;
      while id > 1 && steps < SCAN_WINDOW
        invariant steps <= SCAN_WINDOW && id + steps == nextId
        invariant forall i :: 0 <= i < |found| ==> id <= found[i]
        invariant forall i, j :: 0 <= i < j < |found| ==> found[i] > found[j]
        invariant forall x: u64 ::
                    x in found <==> 1 <= x && id <= x < nextId && x in recs && recs[x].escrow.buyer == Some(buyer)
        decreases id
      {
        id := id - 1;
        steps := steps + 1;
        if id in recs && recs[id].escrow.buyer == Some(buyer) {
          found := found + [id];
        }
      }
      ids := [];
      for k := |found| downto 0
        invariant |ids| == |found| - k
        invariant forall m :: 0 <= m < |ids| ==> ids[m] == found[|found| - 1 - m]
      {
        ids := ids + [found[k]];
      }
      SameMembers(ids, found);
    }
  }

  /** How many ids the fallback scan of the buyer view covers. */
  const SCAN_WINDOW := 1000

  lemma SameMembers(ids: seq<u64>, found: seq<u64>)
    requires |ids| == |found| && forall m :: 0 <= m < |ids| ==> ids[m] == found[|found| - 1 - m]
    ensures forall x :: x in ids <==> x in found
  {
    forall x | x in found ensures x in ids {
      var k :| 0 <= k < |found| && found[k] == x;
      assert ids[|found| - 1 - k] == x;
    }
  }

  lemma {:induction false} TailTotal(c: seq<nat>, k: nat)
    requires k < |c|
    ensures Total(c[k..]) == c[k] + Total(c[k + 1..]) && Total(c[k..]) <= Total(c)
  {
    assert c[k..][1..] == c[k + 1..];
    if k == 0 {
      assert c[0..] == c;
    } else {
      TailTotal(c, k - 1);
    }
  }
}
