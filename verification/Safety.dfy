/** What the invariant means for funds: they always cover what is owed, no payout can fail, lives are bounded,
    and principals are never lost. */
module Safety {
  import opened Types
  import opened Ledger
  import opened History
  import opened Records
  import opened RecordInvariant
  import opened Machine
  import opened EntryPoints
  import opened Sums
  import opened Custody
  import opened Runs
  import Voting
  import Creation
  import Lifecycle
  import Disputes

  lemma ReachableIssued(s: State)
    requires Reachable(s)
    ensures 1 <= s.nextId && forall id: u64 :: id in s.recs <==> 1 <= id < s.nextId
  {
    ReachableInv(s);
  }

  // ── Custody ──

  /** In every reachable state and for every token, the contract's balance covers everything it owes. */
  lemma CustodyAlways(s: State, t: Token)
    requires Reachable(s)
    ensures 0 <= Obligations(s, t) <= Balance(s.ledger, t, Contract)
  {
    ReachableInv(s);
    HoldsNonNegative(s, t);
    SumNonNegative(s.recs, HoldIn(t), Issued(s));
  }

  lemma HoldsNonNegative(s: State, t: Token)
    requires TableOk(s)
    ensures forall i: u64 :: i in s.recs ==> 0 <= HoldIn(t)(s.recs[i])
  {
    forall i: u64 | i in s.recs ensures 0 <= HoldIn(t)(s.recs[i]) {
      assert RecOk(s.recs[i], s.g.now);
    }
  }

  /** What one escrow holds is covered on its own, whatever the others hold. */
  lemma HoldingCovered(s: State, id: u64, t: Token)
    requires TableOk(s) && CustodyOk(s) && id in s.recs
    ensures Hold(s.recs[id], t) <= Balance(s.ledger, t, Contract)
  {
    HoldsNonNegative(s, t);
    SumAtLeast(s.recs, HoldIn(t), Issued(s), id);
    assert Obligations(s, t) <= Balance(s.ledger, t, Contract);
  }

  /** Calls whose transfers are paid by the escrow's participants rather than by the contract. */
  ghost predicate PaidFromOutside(c: Call) {
    c.FundEscrow? || c.FundBasketEscrow? || c.AppealDispute?
  }

  /** A move other than funding or an appeal is always covered. */
  lemma MoveCovered(s: State, c: Call, m: Move)
    requires TableOk(s) && CustodyOk(s) && ActsOnEscrow(c) && c.id in s.recs
    requires FlowOk(s.recs[c.id], m) && AllFrom(m.pays, Contract) && 0 <= m.rec.escrow.amount
    requires !Funding(s.recs[c.id], m.rec)
    ensures Affordable(s.ledger, m.pays)
  {
    forall t ensures Sent(m.pays, t, Contract) <= Balance(s.ledger, t, Contract) {
      HoldingCovered(s, c.id, t);
      assert Sent(m.pays, t, Contract) == Hold(s.recs[c.id], t) - Hold(m.rec, t);
    }
    CoveredIsAffordable(s.ledger, m.pays, Contract);
  }

  lemma OnlyFundingFunds(g: Globals, signers: Signers, c: Call, r: Rec)
    requires ActsOnEscrow(c) && Plan(g, signers, c, Some(r)).Ok? && !PaidFromOutside(c)
    ensures !Funding(r, Plan(g, signers, c, Some(r)).value.rec)
  {
  }

  /** The token flow of a call the contract pays for. */
  lemma PlannedFlow(g: Globals, signers: Signers, c: Call, r: Rec, m: Move)
    requires RecOk(r, g.now) && GlobalsOk(g) && ActsOnEscrow(c) && !PaidFromOutside(c)
    requires Plan(g, signers, c, Some(r)) == Ok(m)
    ensures FlowOk(r, m) && AllFrom(m.pays, Contract) && 0 <= m.rec.escrow.amount && !Funding(r, m.rec)
  {
    EveryCallIsLawful(g, signers, c, r);
    OnlyFundingFunds(g, signers, c, r);
  }

  lemma PlannedIsCovered(s: State, signers: Signers, c: Call, m: Move)
    requires TableOk(s) && CustodyOk(s) && ActsOnEscrow(c) && !PaidFromOutside(c) && c.id in s.recs
    requires Plan(s.g, signers, c, Some(s.recs[c.id])) == Ok(m)
    ensures Affordable(s.ledger, m.pays)
  {
    PlannedFlow(s.g, signers, c, s.recs[c.id], m);
    MoveCovered(s, c, m);
  }

  lemma ReachablePlanIsCovered(s: State, signers: Signers, c: Call, m: Move)
    requires Reachable(s) && ActsOnEscrow(c) && !PaidFromOutside(c) && c.id in s.recs
    requires Plan(s.g, signers, c, Some(s.recs[c.id])) == Ok(m)
    ensures Affordable(s.ledger, m.pays)
  {
    ReachableInv(s);
    PlannedIsCovered(s, signers, c, m);
  }

  /** No payout ever lacks funds: a call that the contract pays for succeeds exactly when its guards pass. */
  lemma NoPayoutFails(s: State, signers: Signers, c: Call)
    requires Reachable(s) && ActsOnEscrow(c) && !PaidFromOutside(c)
    ensures Exec(s, signers, c).Ok? <==> c.id in s.recs && Plan(s.g, signers, c, Some(s.recs[c.id])).Ok?
  {
    if c.id in s.recs {
      var plan := Plan(s.g, signers, c, Some(s.recs[c.id]));
      if plan.Ok? {
        ReachablePlanIsCovered(s, signers, c, plan.value);
      }
    }
  }

  /** What a call other than funding pays to the contract's own address. */
  ghost function Gift(s: State, signers: Signers, c: Call, t: Token): nat
    requires ActsOnEscrow(c) && c.id in s.recs && Plan(s.g, signers, c, Some(s.recs[c.id])).Ok?
  {
    var m := Plan(s.g, signers, c, Some(s.recs[c.id])).value;
    if Funding(s.recs[c.id], m.rec) then 0 else Received(m.pays, t, Contract)
  }

  /** Every step on an escrow moves the contract's balance by exactly the change in what it owes, plus what the step
      pays to the contract's own address for other reasons than funding. */
  lemma StepConserves(s: State, signers: Signers, c: Call, t: Token)
    requires Reachable(s) && ActsOnEscrow(c) && Exec(s, signers, c).Ok?
    ensures c.id in s.recs && Plan(s.g, signers, c, Some(s.recs[c.id])).Ok?
    ensures var s' := Exec(s, signers, c).value;
            && Balance(s'.ledger, t, Contract) - Balance(s.ledger, t, Contract)
            == Obligations(s', t) - Obligations(s, t) + Gift(s, signers, c, t)
  {
    ReachableInv(s);
    EscrowCallCustody(s, signers, c, t);
  }

  /** No other call touches a balance or changes what is owed. */
  lemma OtherStepsMoveNothing(s: State, signers: Signers, c: Call, t: Token)
    requires Reachable(s) && !ActsOnEscrow(c) && Exec(s, signers, c).Ok? && !c.Mint? && !c.TokenTransfer?
    ensures Exec(s, signers, c).value.ledger == s.ledger
    ensures Obligations(Exec(s, signers, c).value, t) == Obligations(s, t)
  {
    if CreatesOne(c) {
      ReachableIssued(s);
      CreationOwesNothing(s, signers, c, t);
    } else if c.BatchCreateEscrow? {
      ReachableInv(s);
      BatchOwesNothing(s, signers, c.seller, c.inputs, t);
    } else {
      SettingsOweNothing(s, signers, c, t);
    }
  }

  lemma BatchOwesNothing(s: State, signers: Signers, seller: Address, inputs: seq<Creation.Terms>, t: Token)
    requires Inv(s) && BatchCreate(s, signers, seller, inputs).Ok?
    ensures BatchCreate(s, signers, seller, inputs).value.ledger == s.ledger
    ensures Obligations(BatchCreate(s, signers, seller, inputs).value, t) == Obligations(s, t)
  {
    IssueAllKeeps(s, seller, inputs);
  }

  lemma CreationOwesNothing(s: State, signers: Signers, c: Call, t: Token)
    requires s.nextId >= 1 && CreatesOne(c) && Exec(s, signers, c).Ok?
    ensures Exec(s, signers, c).value.ledger == s.ledger
    ensures Obligations(Exec(s, signers, c).value, t) == Obligations(s, t)
  {
    var plan := NewRecord(s.g, signers, c);
    NewRecordOk(s.g, signers, c);
    IssueObligations(s, plan, t);
  }

  lemma SettingsOweNothing(s: State, signers: Signers, c: Call, t: Token)
    requires (SettingsCall(c) || c.Elapse?) && ExecOther(s, signers, c).Ok?
    ensures var s' := ExecOther(s, signers, c).value;
            && s'.ledger == s.ledger && s'.recs == s.recs && s'.nextId == s.nextId
  {
  }

  // ── Bounded lives ──

  /** No escrow ever changes state more than 26 times, so the fifty-entry pruning never fires: the history is the
      complete legal path from `Pending` to the current state. */
  lemma HistoriesAreComplete(s: State, id: u64)
    requires Reachable(s) && id in s.recs
    ensures var r := s.recs[id];
            && LegalPath(r.history) && |r.history| <= MAX_LIFE
            && r.history[|r.history| - 1].state == r.escrow.state
            && forall st, now :: AppendEntry(r.history, Stamp(st, now)) == r.history + [Stamp(st, now)]
  {
    RecordInOrder(s, id);
  }

  /** `escrow_created_at` keeps reporting the creation time, to 56 bits, through every later run. */
  lemma CreationTimeSurvives(s: State, signers: Signers, c: Call, s': State)
    requires Reachable(s) && CreatesOne(c) && Exec(s, signers, c).Ok?
    requires Leads(Exec(s, signers, c).value, s')
    ensures s.nextId in s'.recs
    ensures CreatedAt(s'.recs[s.nextId].history) == s.g.now % STAMP_RANGE
  {
    ReachableInv(s);
    NextKeeps(s, Input(signers, c));
    NewRecordStamp(s, signers, c);
    LaterRecord(Exec(s, signers, c).value, s', s.nextId);
  }

  lemma NewRecordStamp(s: State, signers: Signers, c: Call)
    requires CreatesOne(c) && Exec(s, signers, c).Ok?
    ensures var s' := Exec(s, signers, c).value;
            s.nextId in s'.recs && s'.recs[s.nextId].history == [Stamp(Pending, s.g.now)]
  {
  }

  /** One record over a run. */
  lemma LaterRecord(s: State, s': State, id: u64)
    requires Inv(s) && id in s.recs && Leads(s, s')
    ensures id in s'.recs && Evolves(s.recs[id], s'.recs[id])
  {
    LeadsKeeps(s, s');
  }

  /** A finished escrow never changes again. */
  lemma FinishedStaysFinished(s: State, s': State, id: u64)
    requires Reachable(s) && Leads(s, s') && id in s.recs && Terminal(s.recs[id].escrow.state)
    ensures id in s'.recs && s'.recs[id] == s.recs[id]
  {
    ReachableInv(s);
    LeadsKeeps(s, s');
  }

  /** The ranking function: every step that changes an escrow's state spends at least one unit of a budget
      that starts at 26. */
  lemma StateChangesAreBudgeted(s: State, s': State, id: u64)
    requires Reachable(s) && Leads(s, s') && id in s.recs
    ensures id in s'.recs
    ensures var (r, r') := (s.recs[id], s'.recs[id]);
            && r.history <= r'.history
            && |r'.history| - |r.history| <= Rank(r.escrow.state, Appeals(r)) - Rank(r'.escrow.state, Appeals(r')) <= 26
  {
    ReachableInv(s);
    LaterRecord(s, s', id);
    LeadsKeeps(s, s');
    RankBounds(s, id);
    RankBounds(s', id);
  }

  lemma RankBounds(s: State, id: u64)
    requires TableOk(s) && id in s.recs
    ensures 0 <= Rank(s.recs[id].escrow.state, Appeals(s.recs[id])) <= 26
  {
    assert RecOk(s.recs[id], s.g.now);
  }

  // ── Principals and dispute fees ──

  /** Amount plus recorded arbitration and resolver fees is the same in every later state, through any number of
      resolutions, appeals, timeouts, deadlock rulings and settings changes. */
  lemma PrincipalConserved(s: State, s': State, id: u64)
    requires Reachable(s) && Leads(s, s') && id in s.recs
    ensures id in s'.recs && Principal(s'.recs[id]) == Principal(s.recs[id])
  {
    ReachableInv(s);
    LeadsKeeps(s, s');
  }

  /** Dispute fees are taken at most once: once recorded, neither the fees nor the amount left ever change. */
  lemma DisputeFeesChargedOnce(s: State, s': State, id: u64)
    requires Reachable(s) && Leads(s, s') && id in s.recs && s.recs[id].dispute.Some?
    requires s.recs[id].dispute.value.feesCharged
    ensures id in s'.recs
    ensures var (r, r') := (s.recs[id], s'.recs[id]);
            && r'.dispute.Some? && r'.escrow.amount == r.escrow.amount
            && r'.dispute.value.arbitrationFee == r.dispute.value.arbitrationFee
            && r'.dispute.value.resolverFee == r.dispute.value.resolverFee
  {
    ReachableInv(s);
    LeadsKeeps(s, s');
  }

  /** A dispute first resolved by timeout never pays arbitration or resolver fees, however it goes on. */
  lemma TimeoutFirstIsFree(s: State, signers: Signers, c: Call, s': State)
    requires Reachable(s) && c.ClaimDisputeTimeout? && Exec(s, signers, c).Ok?
    requires c.id in s.recs && s.recs[c.id].dispute.Some? && !s.recs[c.id].dispute.value.feesCharged
    requires Leads(Exec(s, signers, c).value, s')
    ensures c.id in s'.recs && FeeFree(s'.recs[c.id])
    ensures s'.recs[c.id].escrow.amount == Principal(s.recs[c.id])
  {
    ReachableInv(s);
    NextKeeps(s, Input(signers, c));
    NextLater(s, Input(signers, c));
    TimeoutRecords(s, signers, c);
    LaterRecord(Exec(s, signers, c).value, s', c.id);
  }

  ghost predicate FeeFree(r: Rec) {
    r.dispute.Some? && r.dispute.value.feesCharged && r.dispute.value.arbitrationFee == 0
    && r.dispute.value.resolverFee == 0
  }

  lemma TimeoutRecords(s: State, signers: Signers, c: Call)
    requires c.ClaimDisputeTimeout? && c.id in s.recs && Exec(s, signers, c).Ok?
    requires s.recs[c.id].dispute.Some? && !s.recs[c.id].dispute.value.feesCharged
    ensures var s' := Exec(s, signers, c).value;
            c.id in s'.recs && FeeFree(s'.recs[c.id])
  {
  }

  // ── Counters ──

  /** The four sharded counters against a census of the table, and the arbitration totals against the recorded
      fees, in every reachable state. */
  lemma CountersAgree(s: State)
    requires Reachable(s)
    ensures Total(s.created) == s.nextId - 1
    ensures Total(s.completed) == Sum(s.recs, InStateCount(Completed), Issued(s))
    ensures Total(s.refunded) == Sum(s.recs, InStateCount(Refunded), Issued(s))
    ensures Total(s.disputed) == Sum(s.recs, DisputeCount(), Issued(s))
    ensures forall t :: Disputes.ArbitrationTotal(s.g, t) == Sum(s.recs, ArbitrationIn(t), Issued(s))
  {
    ReachableInv(s);
  }

  /** Every shard stays a valid u64, so the wrap-free increments of the original never trap. */
  lemma ShardsStayInRange(s: State, shard: nat)
    requires Reachable(s) && shard < COUNTER_SHARDS
    ensures s.created[shard] < MAX_U64 && s.completed[shard] < MAX_U64
         && s.disputed[shard] < MAX_U64 && s.refunded[shard] < MAX_U64
  {
    ReachableIssued(s);
    CountersAgree(s);
    ShardBelowTotal(s.created, shard);
    ShardBelowTotal(s.completed, shard);
    ShardBelowTotal(s.disputed, shard);
    ShardBelowTotal(s.refunded, shard);
    SumIndicator(s.recs, InStateCount(Completed), Issued(s));
    SumIndicator(s.recs, InStateCount(Refunded), Issued(s));
    SumIndicator(s.recs, DisputeCount(), Issued(s));
  }

  // ── Roles and side records ──

  /** A pending schedule exists only while Pending; a delivery proposal only while Shipped with no delivery
      recorded; a dispute record exactly if `Disputed` was ever entered. */
  lemma SideRecordsFollowState(s: State, id: u64)
    requires Reachable(s) && id in s.recs
    ensures var r := s.recs[id];
            && (r.expiry.Some? ==> r.escrow.state == Pending)
            && (r.proposal.Some? ==> r.escrow.state == Shipped && r.escrow.deliveredAt.None?)
            && (r.dispute.Some? <==> Visited(r.history, Disputed))
  {
    RecordInOrder(s, id);
  }

  /** In every funded state buyer, payees and resolvers are pairwise disjoint, through resolver rotation. */
  lemma RolesStayDisjoint(s: State, id: u64, a: Address)
    requires Reachable(s) && id in s.recs && Live(s.recs[id].escrow.state)
    ensures var e := s.recs[id].escrow;
            && e.buyer.Some?
            && !(IsPayee(e.payees, a) && Voting.IsResolver(e.resolvers, a))
            && !(e.buyer.value == a && (IsPayee(e.payees, a) || Voting.IsResolver(e.resolvers, a)))
  {
    RecordInOrder(s, id);
  }

  /** On a basket escrow the two funding entry points succeed in the same situations and make the same move, down
      to the order of the transfers. */
  lemma FundingEntryPointsAgree(s: State, signers: Signers, id: u64, buyer: Address)
    requires Reachable(s) && id in s.recs && s.recs[id].basket != []
    ensures var a := OnEscrow(s, id, Lifecycle.FundEscrow(s.g, signers, Find(s, id), buyer));
            var b := OnEscrow(s, id, Lifecycle.FundBasketEscrow(s.g, signers, Find(s, id), buyer));
            && (a.Ok? <==> b.Ok?) && (a.Ok? ==> a == b)
  {
    ReachableInv(s);
    BasketOf(s, id);
    FundingPlansAgree(s.g, signers, s.recs[id], buyer);
    AgreeingPlans(s, id, Lifecycle.FundEscrow(s.g, signers, Find(s, id), buyer),
                  Lifecycle.FundBasketEscrow(s.g, signers, Find(s, id), buyer));
  }

  lemma AgreeingPlans(s: State, id: u64, a: Result<Move>, b: Result<Move>)
    requires (a.Ok? <==> b.Ok?) && (a.Ok? ==> a == b)
    ensures OnEscrow(s, id, a).Ok? <==> OnEscrow(s, id, b).Ok?
    ensures OnEscrow(s, id, a).Ok? ==> OnEscrow(s, id, a) == OnEscrow(s, id, b)
  {
  }

  lemma BasketOf(s: State, id: u64)
    requires TableOk(s) && id in s.recs
    ensures BasketOk(s.recs[id]) && s.recs[id].escrow.amount >= 0
    ensures s.recs[id].escrow.state == Pending ==> Principal(s.recs[id]) == s.recs[id].escrow.amount
  {
    assert RecOk(s.recs[id], s.g.now);
  }

  lemma FundingPlansAgree(g: Globals, signers: Signers, r: Rec, buyer: Address)
    requires BasketOk(r) && r.basket != [] && r.escrow.amount >= 0
    requires r.escrow.state == Pending ==> Principal(r) == r.escrow.amount
    ensures var (a, b) := (Lifecycle.FundEscrow(g, signers, Some(r), buyer),
                           Lifecycle.FundBasketEscrow(g, signers, Some(r), buyer));
            && (a.Ok? <==> b.Ok?) && (a.Ok? ==> a == b)
  {
    FundingLegsAgree(r.basket, buyer);
  }
}
