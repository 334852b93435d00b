/** When payees can be paid, and by whose leave. */
module ReleaseTiming {
  import opened Types
  import Fees
  import opened Ledger
  import opened PayeeSplit
  import opened Voting
  import opened History
  import opened Records
  import opened RecordInvariant
  import opened Machine
  import opened EntryPoints
  import opened Runs
  import opened Custody
  import Lifecycle
  import Disputes

  /** A release without the buyer's signature is a matured finalization of a Release, or a matured auto-release. */
  ghost predicate Matured(g: Globals, c: Call, r: Rec) {
    || (c.FinalizeDispute? && r.dispute.Some? && RecordedResolution(r.dispute.value) == Some(Release)
        && g.now >= r.dispute.value.resolvedAt + APPEAL_WINDOW)
    || (c.AutoRelease? && g.now >= FundedAt(r.escrow) + DISPUTE_WINDOW
        && (r.escrow.state == Shipped ==> g.now >= r.escrow.shippedAt + DELIVERY_TIMELOCK + DELIVERY_RELEASE_WINDOW))
  }

  lemma AutoReleaseMatured(g: Globals, signers: Signers, c: Call, r: Rec)
    requires RecOk(r, g.now) && g.now + DISPUTE_WINDOW < HALF_WORD
    requires c.AutoRelease? && Plan(g, signers, c, Some(r)).Ok?
    ensures Matured(g, c, r)
  {
  }

  lemma FinalizationMatured(g: Globals, signers: Signers, c: Call, r: Rec)
    requires c.FinalizeDispute? && Plan(g, signers, c, Some(r)).Ok?
    requires Plan(g, signers, c, Some(r)).value.rec.escrow.state == Completed
    ensures Matured(g, c, r)
  {
  }

  /** The calls that complete an escrow. */
  lemma WhoCompletes(g: Globals, signers: Signers, c: Call, r: Rec)
    requires ActsOnEscrow(c) && Plan(g, signers, c, Some(r)).Ok?
    requires Plan(g, signers, c, Some(r)).value.rec.escrow.state == Completed && r.escrow.state != Completed
    ensures c.ConfirmDelivery? || c.CoSignedRelease? || c.AutoRelease? || c.FinalizeDispute?
  {
    if IsDisputeCall(c) && !c.FinalizeDispute? {
      DisputeCallCompletes(g, signers, c, r);
    } else if !IsDisputeCall(c) && !c.ConfirmDelivery? && !c.CoSignedRelease? && !c.AutoRelease? {
      LifecycleCallCompletes(g, signers, c, r);
    }
  }

  lemma DisputeCallCompletes(g: Globals, signers: Signers, c: Call, r: Rec)
    requires IsDisputeCall(c) && !c.FinalizeDispute? && Plan(g, signers, c, Some(r)).Ok?
    ensures Plan(g, signers, c, Some(r)).value.rec.escrow.state != Completed
  {
  }

  lemma LifecycleCallCompletes(g: Globals, signers: Signers, c: Call, r: Rec)
    requires ActsOnEscrow(c) && !IsDisputeCall(c) && !c.ConfirmDelivery? && !c.CoSignedRelease? && !c.AutoRelease?
    requires Plan(g, signers, c, Some(r)).Ok? && r.escrow.state != Completed
    ensures Plan(g, signers, c, Some(r)).value.rec.escrow.state != Completed
  {
  }

  lemma BuyerConsents(g: Globals, signers: Signers, c: Call, r: Rec)
    requires (c.ConfirmDelivery? || c.CoSignedRelease?) && Plan(g, signers, c, Some(r)).Ok?
    ensures r.escrow.buyer.Some? && r.escrow.buyer.value in signers
  {
  }

  /** Payees are never paid early without the buyer. */
  lemma NoEarlyRelease(s: State, signers: Signers, c: Call)
    requires Reachable(s) && ActsOnEscrow(c) && c.id in s.recs
    requires s.g.now + DISPUTE_WINDOW < HALF_WORD
    requires Plan(s.g, signers, c, Some(s.recs[c.id])).Ok?
    requires Plan(s.g, signers, c, Some(s.recs[c.id])).value.rec.escrow.state == Completed
    requires s.recs[c.id].escrow.state != Completed
    ensures Matured(s.g, c, s.recs[c.id])
         || (s.recs[c.id].escrow.buyer.Some? && s.recs[c.id].escrow.buyer.value in signers)
  {
    RecordInOrder(s, c.id);
    WhoCompletes(s.g, signers, c, s.recs[c.id]);
    if c.AutoRelease? {
      AutoReleaseMatured(s.g, signers, c, s.recs[c.id]);
    } else if c.FinalizeDispute? {
      FinalizationMatured(s.g, signers, c, s.recs[c.id]);
    } else {
      BuyerConsents(s.g, signers, c, s.recs[c.id]);
    }
  }

  /** The recorded funding time is the time of the funding call, to 32 bits, for the rest of the escrow's life. */
  lemma FundingTimeSurvives(s: State, signers: Signers, c: Call, s': State)
    requires Reachable(s) && (c.FundEscrow? || c.FundBasketEscrow?) && Exec(s, signers, c).Ok?
    requires Leads(Exec(s, signers, c).value, s')
    ensures c.id in s'.recs
    ensures FundedAt(s'.recs[c.id].escrow) == s.g.now % HALF_WORD
    ensures DisputeDeadline(s'.recs[c.id].escrow) == (s.g.now + DISPUTE_WINDOW) % HALF_WORD
    ensures s'.recs[c.id].escrow.buyer == Some(c.buyer)
  {
    FundingStamps(s, signers, c);
    StepIsGood(s, Input(signers, c));
    LeadsKeeps(Exec(s, signers, c).value, s');
    FundingRoundTrip(s.g.now);
  }

  lemma StepIsGood(s: State, i: Input)
    requires Reachable(s)
    ensures Inv(Next(s, i))
  {
    ReachableInv(s);
    NextKeeps(s, i);
  }

  lemma FundingStamps(s: State, signers: Signers, c: Call)
    requires Reachable(s) && (c.FundEscrow? || c.FundBasketEscrow?) && Exec(s, signers, c).Ok?
    ensures var s' := Exec(s, signers, c).value;
            && c.id in s'.recs && WasFunded(s'.recs[c.id])
            && s'.recs[c.id].escrow.packedTimestamps == PackFunding(s.g.now)
            && s'.recs[c.id].escrow.buyer == Some(c.buyer)
  {
    ExecIsCommit(s, signers, c);
    RecordInOrder(s, c.id);
    FundedPlan(s.g, signers, c, s.recs[c.id]);
  }

  lemma FundedPlan(g: Globals, signers: Signers, c: Call, r: Rec)
    requires HistoryOk(r) && (c.FundEscrow? || c.FundBasketEscrow?) && Plan(g, signers, c, Some(r)).Ok?
    ensures Plan(g, signers, c, Some(r)).value.rec == Lifecycle.FundedRec(r, c.buyer, g.now)
    ensures WasFunded(Lifecycle.FundedRec(r, c.buyer, g.now))
  {
    ExtendPath(r.history, Funded, g.now);
  }

  // ── Who gets paid ──

  /** Addresses that collect fees. */
  ghost predicate FeeRecipient(g: Globals, a: Address) {
    g.cfg.feeCollector == Some(a) || g.cfg.treasury == Some(a)
  }

  ghost predicate NoneTo(trs: seq<Transfer>, a: Address) {
    forall i :: 0 <= i < |trs| ==> trs[i].to != a
  }

  lemma {:induction false} NoneReceived(trs: seq<Transfer>, t: Token, a: Address)
    requires NoneTo(trs, a)
    ensures Received(trs, t, a) == 0
  {
    if trs != [] {
      NoneReceived(trs[1..], t, a);
    }
  }

  lemma {:induction false} BasketMisses(basket: seq<TokenEntry>, primary: Token, to: Address, a: Address)
    requires a != to
    ensures NoneTo(BasketPayouts(basket, primary, to), a)
  {
    if basket != [] {
      BasketMisses(basket[1..], primary, to, a);
    }
  }

  lemma {:induction false} DepositsMiss(basket: seq<TokenEntry>, primary: Token, from: Address, a: Address)
    requires a != Contract
    ensures NoneTo(BasketDeposits(basket, primary, from), a) && NoneTo(AllDeposits(basket, from), a)
  {
    if basket != [] {
      DepositsMiss(basket[1..], primary, from, a);
    }
  }

  lemma {:induction false} SharesMiss(t: Token, payees: seq<Payee>, amount: nat, a: Address)
    requires !IsPayee(payees, a)
    ensures NoneTo(FlooredShares(t, payees, amount), a)
  {
    if payees != [] {
      assert payees[0].address != a;
      assert forall i :: 0 <= i < |payees[1..]| ==> payees[1..][i] == payees[i + 1];
      SharesMiss(t, payees[1..], amount, a);
    }
  }

  lemma DistributionMisses(t: Token, payees: Payees, amount: nat, a: Address)
    requires !IsPayee(payees, a)
    ensures NoneTo(Shares(t, payees, amount), a)
  {
    assert payees[0].address != a;
    assert forall i :: 0 <= i < |payees[1..]| ==> payees[1..][i] == payees[i + 1];
    SharesMiss(t, payees[1..], amount, a);
  }

  lemma SettleMisses(g: Globals, r: Rec, feeBps: u32, a: Address)
    requires Lifecycle.Settle(g, r, feeBps).Ok? && !IsPayee(r.escrow.payees, a) && !FeeRecipient(g, a)
    ensures NoneTo(Lifecycle.Settle(g, r, feeBps).value.pays, a)
  {
    var (_, net) := Fees.ProtocolFee(r.escrow.amount, feeBps).value;
    assert r.escrow.payees[0].address != a;
    DistributionMisses(r.escrow.token, r.escrow.payees, net, a);
    BasketMisses(r.basket, r.escrow.token, Primary(r), a);
  }

  lemma CoSignedMisses(g: Globals, signers: Signers, r: Rec, caller: Address, a: Address)
    requires Lifecycle.CoSignedRelease(g, signers, Some(r), caller).Ok? && !IsPayee(r.escrow.payees, a)
    requires !FeeRecipient(g, a)
    ensures NoneTo(Lifecycle.CoSignedRelease(g, signers, Some(r), caller).value.pays, a)
  {
    assert r.escrow.payees[0].address != a;
    BasketMisses(r.basket, r.escrow.token, Primary(r), a);
  }

  lemma ResolutionMisses(g: Globals, r: Rec, actor: Address, outcome: Ballot, votes: seq<Vote>, charge: bool,
                         a: Address)
    requires Disputes.Resolve(g, r, actor, outcome, votes, charge).Ok? && !FeeRecipient(g, a)
    requires charge ==> actor != a
    ensures NoneTo(Disputes.Resolve(g, r, actor, outcome, votes, charge).value.pays, a)
  {
  }

  ghost predicate ResolvesDispute(c: Call) {
    c.CastVote? || c.ClaimDisputeTimeout? || c.ResolveDeadlockedDispute?
  }

  ghost predicate Funds(c: Call) {
    c.FundEscrow? || c.FundBasketEscrow?
  }

  lemma DisputeMisses(g: Globals, signers: Signers, c: Call, r: Rec, a: Address)
    requires VotesOk(r, g.now) && ResolvesDispute(c) && Plan(g, signers, c, Some(r)).Ok?
    requires !IsResolver(r.escrow.resolvers, a) && !FeeRecipient(g, a)
    ensures NoneTo(Plan(g, signers, c, Some(r)).value.pays, a)
  {
    if c.CastVote? {
      var votes := Cast(r.votes, c.caller, c.ballot, g.now);
      if Decided(votes, Threshold(r.escrow.resolvers)).Some? {
        ResolutionMisses(g, r, c.caller, Decided(votes, Threshold(r.escrow.resolvers)).value, votes, true, a);
      }
    } else if c.ClaimDisputeTimeout? {
      ResolutionMisses(g, r, c.caller, Refund, r.votes, false, a);
    } else {
      VoterForFinds(r.votes, Majority(r.votes));
      ResolutionMisses(g, r, VoterFor(r.votes, Majority(r.votes)).value, Majority(r.votes), r.votes, true, a);
    }
  }

  /** A finalization pays its recipient and the fee recipients. */
  lemma FinalMisses(g: Globals, signers: Signers, r: Rec, caller: Address, a: Address)
    requires Disputes.FinalizeDispute(g, signers, Some(r), caller).Ok? && !FeeRecipient(g, a)
    requires if RecordedResolution(r.dispute.value) == Some(Release) then Primary(r) != a else r.escrow.buyer != Some(a)
    ensures NoneTo(Disputes.FinalizeDispute(g, signers, Some(r), caller).value.pays, a)
  {
    var to := if RecordedResolution(r.dispute.value) == Some(Release) then Primary(r) else r.escrow.buyer.value;
    BasketMisses(r.basket, r.escrow.token, to, a);
  }

  /** Whatever is neither funding, nor a dispute fee, nor a completion goes to the buyer in full. */
  lemma RefundsGoToBuyer(g: Globals, signers: Signers, c: Call, r: Rec)
    requires ActsOnEscrow(c) && !Funds(c) && !ResolvesDispute(c) && !c.AppealDispute? && !c.FinalizeDispute?
    requires Plan(g, signers, c, Some(r)).Ok? && Plan(g, signers, c, Some(r)).value.rec.escrow.state != Completed
    ensures var pays := Plan(g, signers, c, Some(r)).value.pays;
            pays == [] || (r.escrow.buyer.Some? && pays == FullPayout(r, r.escrow.buyer.value))
  {
  }

  lemma FullPayoutMisses(r: Rec, to: Address, a: Address)
    requires a != to
    ensures NoneTo(FullPayout(r, to), a)
  {
    BasketMisses(r.basket, r.escrow.token, to, a);
  }

  lemma AppealMisses(g: Globals, signers: Signers, r: Rec, caller: Address, a: Address)
    requires Disputes.AppealDispute(g, signers, Some(r), caller).Ok? && !FeeRecipient(g, a)
    ensures NoneTo(Disputes.AppealDispute(g, signers, Some(r), caller).value.pays, a)
  {
  }

  lemma FundingMisses(g: Globals, signers: Signers, c: Call, r: Rec, a: Address)
    requires Funds(c) && Plan(g, signers, c, Some(r)).Ok? && a != Contract
    ensures NoneTo(Plan(g, signers, c, Some(r)).value.pays, a)
  {
    DepositsMiss(r.basket, r.escrow.token, c.buyer, a);
  }

  /** Without a completion, nobody but the buyer, resolvers and fee recipients is paid. */
  lemma UncompletedMisses(g: Globals, signers: Signers, c: Call, r: Rec, a: Address)
    requires VotesOk(r, g.now) && ActsOnEscrow(c) && !Funds(c) && Plan(g, signers, c, Some(r)).Ok?
    requires Plan(g, signers, c, Some(r)).value.rec.escrow.state != Completed
    requires !FeeRecipient(g, a) && !IsResolver(r.escrow.resolvers, a) && r.escrow.buyer != Some(a)
    ensures NoneTo(Plan(g, signers, c, Some(r)).value.pays, a)
  {
    if ResolvesDispute(c) {
      DisputeMisses(g, signers, c, r, a);
    } else if c.AppealDispute? {
      AppealMisses(g, signers, r, c.caller, a);
    } else if c.FinalizeDispute? {
      FinalMisses(g, signers, r, c.caller, a);
    } else {
      RefundsGoToBuyer(g, signers, c, r);
      if r.escrow.buyer.Some? {
        FullPayoutMisses(r, r.escrow.buyer.value, a);
      }
    }
  }

  /** A completion pays payees and fee recipients. */
  lemma CompletionMisses(g: Globals, signers: Signers, c: Call, r: Rec, a: Address)
    requires ActsOnEscrow(c) && Plan(g, signers, c, Some(r)).Ok? && !FeeRecipient(g, a) && !IsPayee(r.escrow.payees, a)
    requires Plan(g, signers, c, Some(r)).value.rec.escrow.state == Completed && r.escrow.state != Completed
    ensures NoneTo(Plan(g, signers, c, Some(r)).value.pays, a)
  {
    WhoCompletes(g, signers, c, r);
    assert r.escrow.payees[0].address != a;
    match c
    case ConfirmDelivery(_, _, _) => SettleMisses(g, r, r.escrow.feeBps, a);
    case AutoRelease(_) => SettleMisses(g, r, g.cfg.protocolFeeBps, a);
    case CoSignedRelease(_, caller) => CoSignedMisses(g, signers, r, caller, a);
    case FinalizeDispute(_, caller) => FinalMisses(g, signers, r, caller, a);
  }

  /** A finished escrow accepts no call that pays. */
  lemma CompletedPaysNothing(g: Globals, signers: Signers, c: Call, r: Rec)
    requires ActsOnEscrow(c) && Plan(g, signers, c, Some(r)).Ok? && r.escrow.state == Completed
    ensures Plan(g, signers, c, Some(r)).value.pays == []
  {
  }

  lemma PayeeIsNoCounterparty(s: State, id: u64, a: Address)
    requires Reachable(s) && id in s.recs && IsPayee(s.recs[id].escrow.payees, a) && WasFunded(s.recs[id])
    ensures !IsResolver(s.recs[id].escrow.resolvers, a) && s.recs[id].escrow.buyer != Some(a)
  {
    RecordInOrder(s, id);
  }

  lemma UnfundedPaysNothing(g: Globals, signers: Signers, c: Call, r: Rec)
    requires DisputeOk(r, g.now) && !Live(r.escrow.state) && ActsOnEscrow(c) && !Funds(c)
    requires Plan(g, signers, c, Some(r)).Ok?
    ensures Plan(g, signers, c, Some(r)).value.pays == []
  {
  }

  /** Only a completing call ever pays a payee, unless the payee also collects fees: together with `NoEarlyRelease`,
      no payee is paid early without the buyer. */
  lemma OnlyCompletionPaysPayees(s: State, signers: Signers, c: Call, t: Token, a: Address)
    requires Reachable(s) && ActsOnEscrow(c) && c.id in s.recs && Plan(s.g, signers, c, Some(s.recs[c.id])).Ok?
    requires IsPayee(s.recs[c.id].escrow.payees, a) && !FeeRecipient(s.g, a) && a != Contract
    requires Received(Plan(s.g, signers, c, Some(s.recs[c.id])).value.pays, t, a) > 0
    ensures Plan(s.g, signers, c, Some(s.recs[c.id])).value.rec.escrow.state == Completed
  {
    var r, m := s.recs[c.id], Plan(s.g, signers, c, Some(s.recs[c.id])).value;
    RecordShape(s, c.id);
    if Funds(c) {
      FundingMisses(s.g, signers, c, r, a);
      NoneReceived(m.pays, t, a);
    } else if m.rec.escrow.state != Completed {
      if Live(r.escrow.state) {
        PayeeIsNoCounterparty(s, c.id, a);
        UncompletedMisses(s.g, signers, c, r, a);
      } else {
        UnfundedPaysNothing(s.g, signers, c, r);
      }
      NoneReceived(m.pays, t, a);
    }
  }

  lemma RecordShape(s: State, id: u64)
    requires Reachable(s) && id in s.recs
    ensures VotesOk(s.recs[id], s.g.now) && DisputeOk(s.recs[id], s.g.now)
    ensures Live(s.recs[id].escrow.state) ==> WasFunded(s.recs[id])
  {
    RecordInOrder(s, id);
  }

  /** Every unit a call other than funding pays out goes to a payee, the buyer, a resolver or a fee recipient of that
      escrow. In particular nothing comes back to the contract's own address unless it plays one of those roles, so then
      balances move exactly with what is owed. */
  lemma OnlyPartiesReceive(s: State, signers: Signers, c: Call, t: Token, a: Address)
    requires Reachable(s) && ActsOnEscrow(c) && c.id in s.recs && Plan(s.g, signers, c, Some(s.recs[c.id])).Ok?
    requires !Funds(c)
    requires !IsPayee(s.recs[c.id].escrow.payees, a) && s.recs[c.id].escrow.buyer != Some(a)
    requires !IsResolver(s.recs[c.id].escrow.resolvers, a) && !FeeRecipient(s.g, a)
    ensures Received(Plan(s.g, signers, c, Some(s.recs[c.id])).value.pays, t, a) == 0
  {
    var r, m := s.recs[c.id], Plan(s.g, signers, c, Some(s.recs[c.id])).value;
    RecordShape(s, c.id);
    if m.rec.escrow.state != Completed {
      UncompletedMisses(s.g, signers, c, r, a);
    } else if r.escrow.state != Completed {
      CompletionMisses(s.g, signers, c, r, a);
    } else {
      CompletedPaysNothing(s.g, signers, c, r);
    }
    NoneReceived(m.pays, t, a);
  }
}
