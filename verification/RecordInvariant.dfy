/** The invariant of one escrow record, how records may evolve, and the proof that every entry point
    respects both and moves exactly the tokens it should. */
module RecordInvariant {
  import opened Types
  import opened Fees
  import opened Ledger
  import opened PayeeSplit
  import opened Voting
  import opened History
  import opened Records
  import Lifecycle
  import Disputes

  /** Longest history an escrow can have: six states on the way into a first finalization, two per appeal,
      and the terminal one. */
  const MAX_LIFE := 27

  ghost predicate Unshipped(st: EscrowState) {
    st == Pending || st == Funded || st == RefundRequested
  }

  ghost predicate Undisputed(st: EscrowState) {
    Unshipped(st) || st == Shipped
  }

  ghost predicate WasFunded(r: Rec) {
    Visited(r.history, Funded)
  }

  /** The history is a legal path from creation to the current state, short enough never to be pruned, and
      a dispute record exists exactly when the path went through `Disputed`. */
  ghost predicate HistoryOk(r: Rec) {
    && LegalPath(r.history)
    && r.history[|r.history| - 1].state == r.escrow.state
    && Appeals(r) <= MAX_MAX_APPEALS
    && |r.history| + Rank(r.escrow.state, Appeals(r)) <= MAX_LIFE
    && (r.dispute.Some? <==> Visited(r.history, Disputed))
    && (Live(r.escrow.state) ==> WasFunded(r))
    && (r.escrow.state == Pending ==> !WasFunded(r))
  }

  /** Resolvers never overlap the payees; once funded, the buyer overlaps neither. */
  ghost predicate RolesOk(r: Rec) {
    && ResolversValid(r.escrow.resolvers)
    && (forall a :: IsPayee(r.escrow.payees, a) ==> !IsResolver(r.escrow.resolvers, a))
    && (WasFunded(r) ==>
          && r.escrow.buyer.Some?
          && r.escrow.buyer.value != Contract
          && !IsPayee(r.escrow.payees, r.escrow.buyer.value)
          && !IsResolver(r.escrow.resolvers, r.escrow.buyer.value))
  }

  ghost predicate BasketOk(r: Rec) {
    && (forall i :: 0 <= i < |r.basket| ==> r.basket[i].amount > 0)
    && (forall i :: 0 < i < |r.basket| ==> r.basket[i].token != r.escrow.token)
    && (r.basket != [] ==> r.basket[0].token == r.escrow.token && r.basket[0].amount == Principal(r))
  }

  /** Fees stay within the enforced caps, and what was paid out of the principal adds up to it. */
  ghost predicate AmountsOk(r: Rec) {
    && 0 < Principal(r) <= MAX_I128
    && 0 <= r.escrow.amount
    && r.escrow.feeBps <= MAX_ESCROW_FEE_BPS
    && r.escrow.resolverFeeBps <= MAX_ESCROW_FEE_BPS
    && (r.dispute.Some? ==>
          var d := r.dispute.value;
          && 0 <= d.arbitrationFee && BASIS_POINTS * d.arbitrationFee <= MAX_ARBITRATION_FEE_BPS * Principal(r)
          && 0 <= d.resolverFee && BASIS_POINTS * d.resolverFee <= MAX_ESCROW_FEE_BPS * Principal(r)
          && (!d.feesCharged ==> d.arbitrationFee == 0 && d.resolverFee == 0))
  }

  /** Schedules and proposals exist only in the state they govern; a recorded delivery waited the timelock. */
  ghost predicate SideRecordsOk(r: Rec) {
    && (r.expiry.Some? ==> r.escrow.state == Pending)
    && (r.proposal.Some? ==>
          r.escrow.state == Shipped && r.escrow.deliveredAt.None?
          && r.proposal.value >= r.escrow.shippedAt + DELIVERY_TIMELOCK)
    && (r.escrow.deliveredAt.Some? ==> r.escrow.deliveredAt.value >= r.escrow.shippedAt + DELIVERY_TIMELOCK)
    && (Unshipped(r.escrow.state) ==> r.escrow.deliveredAt.None? && r.escrow.shippedAt == 0)
  }

  ghost predicate DisputeOk(r: Rec, now: u64) {
    && (Undisputed(r.escrow.state) ==> r.dispute.None?)
    && (r.escrow.state == Disputed || r.escrow.state == PendingFinalization ==>
          r.dispute.Some? && r.dispute.value.active)
    && (r.dispute.Some? ==> r.dispute.value.disputedAt <= now && r.dispute.value.resolvedAt <= now)
    && (r.escrow.state == PendingFinalization ==>
          RecordedResolution(r.dispute.value).Some? && r.dispute.value.resolvedBy.Some? && r.dispute.value.feesCharged)
  }

  /** Ballots come from distinct resolvers; while a dispute is open, all may still vote and neither side has won. */
  ghost predicate VotesOk(r: Rec, now: u64) {
    && DistinctVoters(r.votes)
    && (r.dispute.None? ==> r.votes == [])
    && (r.escrow.state == Disputed ==>
          && EligibleVoters(r.escrow.resolvers, r.votes, now)
          && Undecided(r.votes, Threshold(r.escrow.resolvers)))
  }

  /** Packed timestamps are exact while funding deadlines fit 32 bits. */
  ghost predicate TimesOk(r: Rec, now: u64) {
    && r.escrow.shippedAt <= now
    && (now + DISPUTE_WINDOW < HALF_WORD && WasFunded(r) ==>
          && DisputeDeadline(r.escrow) == FundedAt(r.escrow) + DISPUTE_WINDOW
          && FundedAt(r.escrow) <= now
          && (r.escrow.state == Shipped ==> FundedAt(r.escrow) <= r.escrow.shippedAt))
  }

  ghost predicate RecOk(r: Rec, now: u64) {
    && HistoryOk(r) && RolesOk(r) && BasketOk(r) && AmountsOk(r)
    && SideRecordsOk(r) && DisputeOk(r, now) && VotesOk(r, now) && TimesOk(r, now)
  }

  /** Settings every entry point may rely on. */
  ghost predicate GlobalsOk(g: Globals) {
    && g.cfg.feeCollector.Some?
    && g.cfg.arbitrationFeeBps <= MAX_ARBITRATION_FEE_BPS
    && g.cfg.protocolFeeBps + g.cfg.arbitrationFeeBps <= MAX_COMBINED_FEE_BPS
    && g.cfg.platformFeeBps <= MAX_PLATFORM_FEE_BPS
    && g.cfg.appealFeeBps <= MAX_APPEAL_FEE_BPS
    && 0 < g.cfg.minAmount <= g.cfg.maxAmount
    && 1 <= g.maxAppeals <= MAX_MAX_APPEALS
    && MIN_DISPUTE_TIMEOUT <= g.cfg.disputeTimeout <= MAX_DISPUTE_TIMEOUT
  }

  // ── Evolution ──

  /** What no call ever does to a record, seen over any number of calls. */
  ghost predicate Evolves(a: Rec, b: Rec) {
    && a.escrow.payees == b.escrow.payees && a.escrow.token == b.escrow.token && a.basket == b.basket
    && a.escrow.feeBps == b.escrow.feeBps && a.escrow.resolverFeeBps == b.escrow.resolverFeeBps
    && a.escrow.shippingWindow == b.escrow.shippingWindow && a.escrow.expiresAt == b.escrow.expiresAt
    && Principal(a) == Principal(b)
    && a.history <= b.history
    && Rank(b.escrow.state, Appeals(b)) + |b.history| <= Rank(a.escrow.state, Appeals(a)) + |a.history|
    && (WasFunded(a) ==> a.escrow.buyer == b.escrow.buyer && a.escrow.packedTimestamps == b.escrow.packedTimestamps)
    && (a.dispute.Some? ==>
          && b.dispute.Some?
          && a.dispute.value.disputedAt == b.dispute.value.disputedAt
          && a.dispute.value.appealCount <= b.dispute.value.appealCount
          && (a.dispute.value.feesCharged ==>
                && b.dispute.value.feesCharged
                && a.dispute.value.arbitrationFee == b.dispute.value.arbitrationFee
                && a.dispute.value.resolverFee == b.dispute.value.resolverFee
                && a.escrow.amount == b.escrow.amount))
    && (Terminal(a.escrow.state) ==> a == b)
  }

  lemma EvolvesTransitive(a: Rec, b: Rec, c: Rec)
    requires Evolves(a, b) && Evolves(b, c)
    ensures Evolves(a, c)
  {
    if WasFunded(a) {
      var i :| 0 <= i < |a.history| && a.history[i].state == Funded;
      assert b.history[i] == a.history[i];
      assert WasFunded(b);
    }
  }

  lemma LaterClock(r: Rec, now: u64, later: u64)
    requires RecOk(r, now) && now <= later
    ensures RecOk(r, later)
  {
  }

  // ── What one call does ──

  ghost predicate Funding(a: Rec, b: Rec) {
    a.escrow.state == Pending && b.escrow.state == Funded
  }

  /** A funding call brings in exactly what the escrow holds afterwards; any other call sends out exactly what
      the escrow no longer holds. */
  ghost predicate FlowOk(r: Rec, m: Move) {
    forall t ::
      && Sent(m.pays, t, Contract) == (if Funding(r, m.rec) then 0 else Hold(r, t) - Hold(m.rec, t))
      && (Funding(r, m.rec) ==> Received(m.pays, t, Contract) == Hold(m.rec, t) - Hold(r, t))
  }

  ghost function ArbitrationFeeOf(r: Rec): int {
    if r.dispute.Some? then r.dispute.value.arbitrationFee else 0
  }

  /** The token's running total of arbitration fees moves by the change in the recorded fee. */
  ghost predicate ArbitrationAccounted(g: Globals, r: Rec, m: Move) {
    if m.arbitrationTotal.None? then ArbitrationFeeOf(m.rec) == ArbitrationFeeOf(r)
    else
      m.arbitrationTotal.value
      == Disputes.ArbitrationTotal(g, r.escrow.token) + ArbitrationFeeOf(m.rec) - ArbitrationFeeOf(r)
  }

  /** One call on one record. */
  ghost predicate LegalMove(r: Rec, m: Move, now: u64) {
    && RecOk(m.rec, now)
    && Evolves(r, m.rec)
    && FlowOk(r, m)
    && (m.rec.escrow.state == r.escrow.state ==> m.rec.history == r.history)
    && (m.rec.escrow.state != r.escrow.state ==>
          && Edge(r.escrow.state, m.rec.escrow.state)
          && m.rec.history == r.history + [Stamp(m.rec.escrow.state, now)])
  }

  /** Entering a new state along an edge that lowers the rank keeps the history in order. */
  lemma HistoryStep(r: Rec, b: Rec, now: u64)
    requires HistoryOk(r)
    requires Edge(r.escrow.state, b.escrow.state)
    requires b.history == AppendEntry(r.history, Stamp(b.escrow.state, now))
    requires b.dispute.Some? <==> r.dispute.Some? || b.escrow.state == Disputed
    requires Appeals(b) <= MAX_MAX_APPEALS
    requires Rank(b.escrow.state, Appeals(b)) < Rank(r.escrow.state, Appeals(r))
    ensures HistoryOk(b)
    ensures b.history == r.history + [Stamp(b.escrow.state, now)]
    ensures WasFunded(b) <==> WasFunded(r) || b.escrow.state == Funded
  {
    ExtendPath(r.history, b.escrow.state, now);
  }

  /** Paying out everything sends exactly what was held. */
  lemma FullPayoutFlow(r: Rec, to: Address)
    requires Live(r.escrow.state) && r.escrow.amount >= 0
    ensures AllFrom(FullPayout(r, to), Contract)
    ensures forall t :: Sent(FullPayout(r, to), t, Contract) == Hold(r, t)
  {
    forall t ensures Sent(FullPayout(r, to), t, Contract) == Hold(r, t) {
      BasketFlows(r.basket, r.escrow.token, to, t);
      FlowAppend(Payout(r.escrow.token, to, r.escrow.amount), BasketPayouts(r.basket, r.escrow.token, to), t, Contract);
    }
    BasketFlows(r.basket, r.escrow.token, to, 0);
  }

  /** Both funding entry points bring in exactly what the escrow then holds. */
  lemma DepositFlow(r: Rec, buyer: Address, pays: seq<Transfer>, t: Token)
    requires BasketOk(r) && r.escrow.amount >= 0 && r.escrow.amount == Principal(r) && buyer != Contract
    requires pays == Lifecycle.DepositPays(r, buyer) || (r.basket != [] && pays == AllDeposits(r.basket, buyer))
    ensures Sent(pays, t, Contract) == 0
    ensures Received(pays, t, Contract)
         == (if r.escrow.token == t then r.escrow.amount else 0) + BasketHold(r.basket, r.escrow.token, t)
  {
    if r.basket != [] {
      FundingLegsAgree(r.basket, buyer);
    }
    BasketFlows(r.basket, r.escrow.token, buyer, t);
    FlowAppend([Transfer(r.escrow.token, buyer, Contract, r.escrow.amount)],
               BasketDeposits(r.basket, r.escrow.token, buyer), t, Contract);
  }

  lemma FundMove(r: Rec, buyer: Address, pays: seq<Transfer>, now: u64)
    requires RecOk(r, now) && r.escrow.state == Pending
    requires buyer != Contract && Lifecycle.RolesSeparate(r, buyer).Pass? && Lifecycle.DesignatedBuyer(r, buyer).Pass?
    requires pays == Lifecycle.DepositPays(r, buyer) || (r.basket != [] && pays == AllDeposits(r.basket, buyer))
    ensures LegalMove(r, Move(Lifecycle.FundedRec(r, buyer, now), pays, None), now)
  {
    var b := Lifecycle.FundedRec(r, buyer, now);
    HistoryStep(r, b, now);
    FundingRoundTrip(now);
    forall t ensures Sent(pays, t, Contract) == 0 && Received(pays, t, Contract) == Hold(b, t) {
      DepositFlow(r, buyer, pays, t);
    }
  }

  lemma ShipMove(r: Rec, now: u64)
    requires RecOk(r, now) && (r.escrow.state == Funded || r.escrow.state == RefundRequested)
    ensures LegalMove(r, Stay(Enter(r.(escrow := r.escrow.(shippedAt := now)), Shipped, now)), now)
  {
    var b := Enter(r.(escrow := r.escrow.(shippedAt := now)), Shipped, now);
    HistoryStep(r, b, now);
    assert RolesOk(b) && AmountsOk(b) && BasketOk(b);
    assert Evolves(r, b);
  }

  lemma ProposeMove(r: Rec, now: u64)
    requires RecOk(r, now) && r.escrow.state == Shipped && r.escrow.deliveredAt.None?
    requires now + DELIVERY_TIMELOCK <= MAX_U64
    ensures LegalMove(r, Stay(r.(proposal := Some(now + DELIVERY_TIMELOCK))), now)
  {
  }

  lemma WithdrawProposalMove(r: Rec, now: u64)
    requires RecOk(r, now) && !Terminal(r.escrow.state)
    ensures LegalMove(r, Stay(r.(proposal := None)), now)
  {
  }

  lemma RecordDeliveryMove(r: Rec, now: u64)
    requires RecOk(r, now) && r.proposal.Some? && now >= r.proposal.value
    ensures LegalMove(r, Stay(r.(proposal := None, escrow := r.escrow.(deliveredAt := Some(now)))), now)
  {
  }

  // ── Closing an escrow ──

  /** `b` closes `r`: only the state, the history, the side records and how the dispute ended differ. */
  ghost predicate Closes(r: Rec, b: Rec, now: u64) {
    && Terminal(b.escrow.state) && Edge(r.escrow.state, b.escrow.state)
    && b.escrow == r.escrow.(state := b.escrow.state)
    && b.history == AppendEntry(r.history, Stamp(b.escrow.state, now))
    && b.votes == r.votes && b.basket == r.basket
    && (b.expiry == None || (b.expiry == r.expiry && r.escrow.state != Pending))
    && (b.proposal == None || (b.proposal == r.proposal && r.escrow.state != Shipped))
    && SameFees(r.dispute, b.dispute) && (b.dispute.Some? ==> b.dispute.value.resolvedAt <= now)
  }

  lemma CloseHistory(r: Rec, b: Rec, now: u64)
    requires HistoryOk(r) && Closes(r, b, now)
    ensures HistoryOk(b) && (WasFunded(b) <==> WasFunded(r))
    ensures b.history == r.history + [Stamp(b.escrow.state, now)]
  {
    HistoryStep(r, b, now);
  }

  lemma CloseKeeps(r: Rec, b: Rec, now: u64)
    requires RecOk(r, now) && Closes(r, b, now)
    ensures RecOk(b, now)
  {
    CloseHistory(r, b, now);
    assert RolesOk(b);
    assert AmountsOk(b);
    assert VotesOk(b, now) && TimesOk(b, now);
  }

  lemma CloseEvolves(r: Rec, b: Rec, now: u64)
    requires HistoryOk(r) && Closes(r, b, now)
    ensures Evolves(r, b)
  {
    CloseHistory(r, b, now);
  }

  /** Closing while paying out the whole holding. */
  lemma CloseMove(r: Rec, m: Move, now: u64)
    requires RecOk(r, now) && Closes(r, m.rec, now)
    requires forall t :: Sent(m.pays, t, Contract) == Hold(r, t)
    ensures LegalMove(r, m, now)
  {
    CloseHistory(r, m.rec, now);
    CloseKeeps(r, m.rec, now);
    CloseEvolves(r, m.rec, now);
  }

  /** Two dispute records that differ at most in how they were resolved. */
  ghost predicate SameFees(a: Option<Dispute>, b: Option<Dispute>) {
    a.Some? == b.Some? && (a.Some? ==>
      b.value == a.value.(active := b.value.active, resolution := b.value.resolution, resolvedBy := b.value.resolvedBy,
                          resolvedAt := b.value.resolvedAt))
  }

  /** Fee, shares and basket together send exactly the holding. */
  lemma SettleFlow(g: Globals, r: Rec, feeBps: u32, t: Token)
    requires Live(r.escrow.state) && Lifecycle.Settle(g, r, feeBps).Ok?
    ensures Sent(Lifecycle.Settle(g, r, feeBps).value.pays, t, Contract) == Hold(r, t)
    ensures AllFrom(Lifecycle.Settle(g, r, feeBps).value.pays, Contract)
  {
    var t0 := r.escrow.token;
    var (fee, net) := ProtocolFee(r.escrow.amount, feeBps).value;
    var a := Payout(t0, g.cfg.feeCollector.value, fee);
    var b := Shares(t0, r.escrow.payees, net);
    var c := BasketPayouts(r.basket, t0, Primary(r));
    DistributionIsExact(t0, r.escrow.payees, net);
    BasketFlows(r.basket, t0, Primary(r), t);
    FlowAppend(a + b, c, t, Contract);
    FlowAppend(a, b, t, Contract);
  }

  lemma SettleMove(g: Globals, r: Rec, feeBps: u32)
    requires RecOk(r, g.now) && (r.escrow.state == Funded || r.escrow.state == Shipped)
    requires Lifecycle.Settle(g, r, feeBps).Ok?
    ensures LegalMove(r, Lifecycle.Settle(g, r, feeBps).value, g.now)
    ensures AllFrom(Lifecycle.Settle(g, r, feeBps).value.pays, Contract)
  {
    var m := Lifecycle.Settle(g, r, feeBps).value;
    forall t ensures Sent(m.pays, t, Contract) == Hold(r, t) && AllFrom(m.pays, Contract) {
      SettleFlow(g, r, feeBps, t);
    }
    assert Sent(m.pays, 0, Contract) == Hold(r, 0);
    CloseMove(r, m, g.now);
  }

  // ── Moves that keep the escrow open, or cancel an unfunded one ──

  lemma CancelPendingMove(r: Rec, now: u64)
    requires RecOk(r, now) && r.escrow.state == Pending
    ensures LegalMove(r, Stay(Enter(r, Canceled, now).(expiry := None)), now)
  {
    var b := Enter(r, Canceled, now).(expiry := None);
    CloseKeeps(r, b, now);
    CloseEvolves(r, b, now);
    CloseHistory(r, b, now);
  }

  lemma RequestRefundMove(r: Rec, now: u64)
    requires RecOk(r, now) && r.escrow.state == Funded
    ensures LegalMove(r, Stay(Enter(r, RefundRequested, now)), now)
  {
    HistoryStep(r, Enter(r, RefundRequested, now), now);
  }

  lemma RotateMove(r: Rec, next: Address, now: u64)
    requires RecOk(r, now) && !Terminal(r.escrow.state) && r.escrow.resolvers.Single?
    requires !IsPayee(r.escrow.payees, next) && r.escrow.buyer != Some(next)
    ensures LegalMove(r, Stay(r.(escrow := r.escrow.(resolvers := Single(next)))), now)
  {
    if r.votes != [] {
      TallyTotal(r.votes);
    }
  }

  // ── Disputes ──

  lemma RaiseMove(r: Rec, now: u64)
    requires RecOk(r, now) && (r.escrow.state == Funded || r.escrow.state == Shipped)
    ensures var d := Dispute(true, now, 0, None, 0, 0, 0, 0, false);
            LegalMove(r, Stay(Enter(r, Disputed, now).(dispute := Some(d), proposal := None)), now)
  {
    var b := Enter(r, Disputed, now).(dispute := Some(Dispute(true, now, 0, None, 0, 0, 0, 0, false)),
                                      proposal := None);
    HistoryStep(r, b, now);
    assert RolesOk(b) && AmountsOk(b) && BasketOk(b);
    assert SideRecordsOk(b) && DisputeOk(b, now) && VotesOk(b, now);
    assert Evolves(r, b);
  }

  lemma BallotMove(r: Rec, caller: Address, ballot: Ballot, now: u64)
    requires RecOk(r, now) && r.escrow.state == Disputed && CanResolve(r.escrow.resolvers, caller, now)
    requires Decided(Cast(r.votes, caller, ballot, now), Threshold(r.escrow.resolvers)).None?
    ensures LegalMove(r, Stay(r.(votes := Cast(r.votes, caller, ballot, now))), now)
  {
    BallotKeepsVotes(r, caller, ballot, now);
    var b := r.(votes := Cast(r.votes, caller, ballot, now));
    assert HistoryOk(b) && RolesOk(b) && BasketOk(b) && AmountsOk(b);
    assert Evolves(r, b);
  }

  lemma BallotKeepsVotes(r: Rec, caller: Address, ballot: Ballot, now: u64)
    requires VotesOk(r, now) && r.dispute.Some? && r.escrow.state == Disputed
    requires CanResolve(r.escrow.resolvers, caller, now)
    requires Decided(Cast(r.votes, caller, ballot, now), Threshold(r.escrow.resolvers)).None?
    ensures VotesOk(r.(votes := Cast(r.votes, caller, ballot, now)), now)
  {
    var votes := Cast(r.votes, caller, ballot, now);
    CastRecords(r.votes, caller, ballot, now);
    DecidingBallotWins(r.votes, caller, ballot, now, Threshold(r.escrow.resolvers));
    forall i | 0 <= i < |votes| ensures CanResolve(r.escrow.resolvers, votes[i].resolver, now) {
      assert votes[i] in votes;
    }
  }

  /** Fees of a first resolution respect their caps and come out of the amount. */
  lemma ResolutionFeesCapped(g: Globals, r: Rec, d: Dispute, charge: bool)
    requires GlobalsOk(g) && AmountsOk(r) && r.dispute == Some(d)
    requires Disputes.ResolutionFees(g, r, d, charge).Ok?
    ensures var (a, f) := Disputes.ResolutionFees(g, r, d, charge).value;
            && 0 <= a && BASIS_POINTS * a <= MAX_ARBITRATION_FEE_BPS * Principal(r)
            && 0 <= f && BASIS_POINTS * f <= MAX_ESCROW_FEE_BPS * Principal(r)
            && (!d.feesCharged && !charge ==> a == 0 && f == 0)
            && (!d.feesCharged ==> a + f <= r.escrow.amount)
            && (d.feesCharged ==> a == d.arbitrationFee && f == d.resolverFee)
  {
    if !d.feesCharged {
      CappedFee(r.escrow.amount, g.cfg.arbitrationFeeBps, MAX_ARBITRATION_FEE_BPS);
      CappedFee(r.escrow.amount, r.escrow.resolverFeeBps, MAX_ESCROW_FEE_BPS);
    }
  }

  lemma TwoPayouts(t0: Token, x: Address, a: i128, y: Address, b: i128, t: Token)
    requires 0 <= a && 0 <= b
    ensures AllFrom(Payout(t0, x, a) + Payout(t0, y, b), Contract)
    ensures Sent(Payout(t0, x, a) + Payout(t0, y, b), t, Contract) == if t == t0 then a + b else 0
  {
    FlowAppend(Payout(t0, x, a), Payout(t0, y, b), t, Contract);
  }

  lemma ResolveFlow(g: Globals, r: Rec, actor: Address, outcome: Ballot, votes: seq<Vote>, charge: bool, t: Token)
    requires Live(r.escrow.state) && Disputes.Resolve(g, r, actor, outcome, votes, charge).Ok?
    ensures var m := Disputes.Resolve(g, r, actor, outcome, votes, charge).value;
            && AllFrom(m.pays, Contract)
            && Sent(m.pays, t, Contract) == Hold(r, t) - Hold(m.rec, t)
  {
    var d := r.dispute.value;
    var (a, f) := Disputes.ResolutionFees(g, r, d, charge).value;
    if !d.feesCharged {
      TwoPayouts(r.escrow.token, g.cfg.feeCollector.value, a, actor, f, t);
    }
  }

  lemma ResolveKeeps(r: Rec, actor: Address, outcome: Ballot, votes: seq<Vote>, amount: i128, arbitration: i128,
                     resolver: i128, now: u64)
    requires RecOk(r, now) && r.escrow.state == Disputed && DistinctVoters(votes)
    requires 0 <= amount && amount + arbitration + resolver == Principal(r)
    requires 0 <= arbitration && BASIS_POINTS * arbitration <= MAX_ARBITRATION_FEE_BPS * Principal(r)
    requires 0 <= resolver && BASIS_POINTS * resolver <= MAX_ESCROW_FEE_BPS * Principal(r)
    requires r.dispute.value.feesCharged ==>
               amount == r.escrow.amount && arbitration == r.dispute.value.arbitrationFee
               && resolver == r.dispute.value.resolverFee
    ensures var b := Disputes.ResolvedRec(r, r.dispute.value, actor, outcome, votes, amount,
                                          arbitration, resolver, now);
            && RecOk(b, now) && Evolves(r, b)
            && b.history == r.history + [Stamp(PendingFinalization, now)]
  {
    var b := Disputes.ResolvedRec(r, r.dispute.value, actor, outcome, votes, amount, arbitration, resolver, now);
    assert Principal(b) == Principal(r);
    HistoryStep(r, b, now);
    assert RolesOk(b) && AmountsOk(b);
    assert DisputeOk(b, now) && VotesOk(b, now);
  }

  lemma ResolveMove(g: Globals, r: Rec, actor: Address, outcome: Ballot, votes: seq<Vote>, charge: bool)
    requires RecOk(r, g.now) && GlobalsOk(g) && r.escrow.state == Disputed && DistinctVoters(votes)
    requires Disputes.Resolve(g, r, actor, outcome, votes, charge).Ok?
    ensures var m := Disputes.Resolve(g, r, actor, outcome, votes, charge).value;
            LegalMove(r, m, g.now) && AllFrom(m.pays, Contract) && ArbitrationAccounted(g, r, m)
  {
    var m := Disputes.Resolve(g, r, actor, outcome, votes, charge).value;
    ResolutionFeesCapped(g, r, r.dispute.value, charge);
    ResolveKeeps(r, actor, outcome, votes, m.rec.escrow.amount, m.rec.dispute.value.arbitrationFee,
                 m.rec.dispute.value.resolverFee, g.now);
    forall t ensures Sent(m.pays, t, Contract) == Hold(r, t) - Hold(m.rec, t) && AllFrom(m.pays, Contract) {
      ResolveFlow(g, r, actor, outcome, votes, charge, t);
    }
    assert Sent(m.pays, 0, Contract) == Hold(r, 0) - Hold(m.rec, 0);
  }

  lemma AppealMove(g: Globals, signers: Signers, r: Rec, caller: Address)
    requires RecOk(r, g.now) && GlobalsOk(g)
    requires Disputes.AppealDispute(g, signers, Some(r), caller).Ok?
    ensures LegalMove(r, Disputes.AppealDispute(g, signers, Some(r), caller).value, g.now)
  {
    var b := Disputes.AppealDispute(g, signers, Some(r), caller).value.rec;
    assert b.history == AppendEntry(r.history, Stamp(Disputed, g.now));
    HistoryStep(r, b, g.now);
    assert RolesOk(b) && AmountsOk(b);
    assert DisputeOk(b, g.now) && VotesOk(b, g.now);
  }

  // ── The settlement waterfall ──

  /** Platform fee, protocol fee and payout use up the amount exactly; together with the fees already paid they
      use up the principal, and the recipient keeps at least 87% of it. */
  lemma WaterfallExact(g: Globals, r: Rec)
    requires AmountsOk(r) && GlobalsOk(g) && r.dispute.Some?
    requires Disputes.Settlement(g, r, r.dispute.value).Ok?
    ensures var (w, d) := (Disputes.Settlement(g, r, r.dispute.value).value, r.dispute.value);
            && 0 <= w.platform && 0 <= w.protocol
            && w.platform + w.protocol + w.payout == r.escrow.amount
            && d.arbitrationFee + d.resolverFee + w.platform + w.protocol + w.payout == Principal(r)
            && 8_700 * Principal(r) <= BASIS_POINTS * w.payout
  {
    CappedFee(Principal(r), g.cfg.platformFeeBps, MAX_PLATFORM_FEE_BPS);
    CappedFee(Principal(r), r.escrow.feeBps, MAX_ESCROW_FEE_BPS);
  }

  lemma FinalFlow(g: Globals, r: Rec, w: Disputes.Waterfall, to: Address, collector: Address, t: Token)
    requires Live(r.escrow.state) && (w.platform > 0 ==> g.cfg.treasury.Some?)
    requires 0 <= w.platform && 0 <= w.protocol && 0 <= w.payout
    requires w.platform + w.protocol + w.payout == r.escrow.amount
    ensures AllFrom(Disputes.FinalPays(g, r, w, to, collector), Contract)
    ensures Sent(Disputes.FinalPays(g, r, w, to, collector), t, Contract) == Hold(r, t)
  {
    var t0 := r.escrow.token;
    var a := if w.platform <= 0 then [] else Payout(t0, g.cfg.treasury.value, w.platform);
    var b := Payout(t0, to, w.payout);
    var c := Payout(t0, collector, w.protocol);
    BasketFlows(r.basket, t0, to, t);
    TwoPayouts(t0, to, w.payout, collector, w.protocol, t);
    assert a + b + c == a + (b + c);
    FlowAppend(a + (b + c), BasketPayouts(r.basket, t0, to), t, Contract);
    FlowAppend(a, b + c, t, Contract);
  }

  lemma FinalizeMove(g: Globals, signers: Signers, r: Rec, caller: Address)
    requires RecOk(r, g.now) && GlobalsOk(g)
    requires Disputes.FinalizeDispute(g, signers, Some(r), caller).Ok?
    ensures var m := Disputes.FinalizeDispute(g, signers, Some(r), caller).value;
            LegalMove(r, m, g.now) && AllFrom(m.pays, Contract)
  {
    var m := Disputes.FinalizeDispute(g, signers, Some(r), caller).value;
    WaterfallExact(g, r);
    var w := Disputes.Settlement(g, r, r.dispute.value).value;
    var to := if RecordedResolution(r.dispute.value) == Some(Release) then Primary(r) else r.escrow.buyer.value;
    forall t ensures Sent(m.pays, t, Contract) == Hold(r, t) && AllFrom(m.pays, Contract) {
      FinalFlow(g, r, w, to, g.cfg.feeCollector.value, t);
    }
    assert Sent(m.pays, 0, Contract) == Hold(r, 0);
    CloseMove(r, m, g.now);
  }

  lemma RefundMove(r: Rec, b: Rec, to: Address, now: u64)
    requires RecOk(r, now) && Live(r.escrow.state) && Closes(r, b, now)
    ensures LegalMove(r, Move(b, FullPayout(r, to), None), now) && AllFrom(FullPayout(r, to), Contract)
  {
    FullPayoutFlow(r, to);
    CloseMove(r, Move(b, FullPayout(r, to), None), now);
  }
}
