/** Who receives what: the change of every account's balance over every call on an escrow. */
module Receipts {
  import opened Types
  import opened Fees
  import opened Ledger
  import opened PayeeSplit
  import opened Records
  import opened RecordInvariant
  import opened Machine
  import opened Runs
  import opened Rulings
  import Lifecycle
  import Disputes
  import Outcomes
  import Traces
  import Voting

  // ── What each party is due ──

  /** `amount`, if `a` is the one it is due to. */
  function Due(to: Address, amount: int, a: Address): int {
    if a == to then amount else 0
  }

  function BasketAmount(basket: seq<TokenEntry>, t: Token): int {
    if basket == [] then 0 else (if basket[0].token == t then basket[0].amount else 0) + BasketAmount(basket[1..], t)
  }

  /** What the escrow holds of a token other than its primary one. */
  function Extra(r: Rec, t: Token): int {
    if t == r.escrow.token then 0 else BasketAmount(r.basket, t)
  }

  /** Everything the escrow holds, to one account. */
  function Everything(r: Rec, to: Address, t: Token, a: Address): int {
    Due(to, (if t == r.escrow.token then r.escrow.amount else 0) + Extra(r, t), a)
  }

  /** A fee of `bps` to the collector, the rest split among the payees, the other basket tokens to the first of them. */
  function SplitSale(g: Globals, r: Rec, bps: nat, t: Token, a: Address): int
    requires 0 <= r.escrow.amount && bps <= BASIS_POINTS && g.cfg.feeCollector.Some?
  {
    FloorBounds(r.escrow.amount, bps);
    SplitIsFloor(r.escrow.amount, bps);
    var fee := FloorFee(r.escrow.amount, bps);
    var net := r.escrow.amount - fee;
    (if t != r.escrow.token then 0
     else Due(g.cfg.feeCollector.value, fee, a) + ShareOf(r.escrow.payees[1..], net, a)
          + Due(Primary(r), PrimaryShare(r.escrow.payees, net), a))
    + Due(Primary(r), Extra(r, t), a)
  }

  /** A fee of `bps` to the collector, the rest and the other basket tokens to the first payee. */
  function WholeSale(g: Globals, r: Rec, bps: nat, t: Token, a: Address): int
    requires 0 <= r.escrow.amount && g.cfg.feeCollector.Some?
  {
    var fee := FloorFee(r.escrow.amount, bps);
    (if t != r.escrow.token then 0
     else Due(g.cfg.feeCollector.value, fee, a) + Due(Primary(r), r.escrow.amount - fee, a))
    + Due(Primary(r), Extra(r, t), a)
  }

  /** Platform and protocol fee on the principal, what is left of the amount and the other basket tokens to the
      winner. */
  function Settled(g: Globals, r: Rec, winner: Address, t: Token, a: Address): int
    requires 0 <= Principal(r) && g.cfg.feeCollector.Some?
  {
    var platform := FloorFee(Principal(r), g.cfg.platformFeeBps);
    var protocol := FloorFee(Principal(r), r.escrow.feeBps);
    (if t != r.escrow.token then 0
     else Due(winner, r.escrow.amount - platform - protocol, a) + Due(g.cfg.feeCollector.value, protocol, a)
          + (if g.cfg.treasury.Some? then Due(g.cfg.treasury.value, platform, a) else 0))
    + Due(winner, Extra(r, t), a)
  }

  /** The arbitration fee to the collector and the resolver's fee to whoever ruled. */
  function RulingFees(g: Globals, r: Rec, actor: Address, t: Token, a: Address): int
    requires 0 <= r.escrow.amount && g.cfg.feeCollector.Some?
  {
    if t != r.escrow.token then 0
    else Due(g.cfg.feeCollector.value, FloorFee(r.escrow.amount, g.cfg.arbitrationFeeBps), a)
         + Due(actor, FloorFee(r.escrow.amount, r.escrow.resolverFeeBps), a)
  }

  // ── The pieces of a plan ──

  lemma {:induction false} SentByOthers(trs: seq<Transfer>, t: Token, a: Address)
    requires AllFrom(trs, Contract) && a != Contract
    ensures Sent(trs, t, a) == 0
  {
    if trs != [] {
      assert trs[0].from == Contract;
      assert forall i :: 0 <= i < |trs[1..]| ==> trs[1..][i] == trs[i + 1];
      SentByOthers(trs[1..], t, a);
    }
  }

  lemma PayoutReach(t0: Token, to: Address, amount: i128, t: Token, a: Address)
    requires 0 <= amount
    ensures Received(Payout(t0, to, amount), t, a) == if t == t0 then Due(to, amount, a) else 0
  {
  }

  lemma {:induction false} BasketReach(basket: seq<TokenEntry>, primary: Token, to: Address, t: Token, a: Address)
    requires forall i :: 0 <= i < |basket| ==> basket[i].amount > 0
    ensures Received(BasketPayouts(basket, primary, to), t, a)
         == Due(to, if t == primary then 0 else BasketAmount(basket, t), a)
  {
    if basket != [] {
      BasketReach(basket[1..], primary, to, t, a);
      var head := if Transferable(basket[0], primary) then Payout(basket[0].token, to, basket[0].amount) else [];
      FlowAppend(head, BasketPayouts(basket[1..], primary, to), t, a);
      assert Received(head, t, a)
          == if basket[0].token == t && t != primary then Due(to, basket[0].amount, a) else 0;
    }
  }

  lemma {:induction false} DepositsTake(basket: seq<TokenEntry>, primary: Token, from: Address, t: Token, a: Address)
    requires forall i :: 0 <= i < |basket| ==> basket[i].amount > 0
    ensures a != Contract ==> Received(BasketDeposits(basket, primary, from), t, a) == 0
    ensures Sent(BasketDeposits(basket, primary, from), t, a)
         == Due(from, if t == primary then 0 else BasketAmount(basket, t), a)
  {
    if basket != [] {
      DepositsTake(basket[1..], primary, from, t, a);
      var head := if Transferable(basket[0], primary)
                  then [Transfer(basket[0].token, from, Contract, basket[0].amount)] else [];
      FlowAppend(head, BasketDeposits(basket[1..], primary, from), t, a);
      assert Sent(head, t, a) == if basket[0].token == t && t != primary then Due(from, basket[0].amount, a) else 0;
    }
  }

  lemma FullPayoutReach(r: Rec, to: Address, t: Token, a: Address)
    requires BasketOk(r) && 0 <= r.escrow.amount
    ensures Received(FullPayout(r, to), t, a) == Everything(r, to, t, a)
  {
    PayoutReach(r.escrow.token, to, r.escrow.amount, t, a);
    BasketReach(r.basket, r.escrow.token, to, t, a);
    FlowAppend(Payout(r.escrow.token, to, r.escrow.amount), BasketPayouts(r.basket, r.escrow.token, to), t, a);
  }

  lemma TwoPayoutsReach(t0: Token, x: Address, m: i128, y: Address, n: i128, t: Token, a: Address)
    requires 0 <= m && 0 <= n
    ensures Received(Payout(t0, x, m) + Payout(t0, y, n), t, a) == if t == t0 then Due(x, m, a) + Due(y, n, a) else 0
  {
    PayoutReach(t0, x, m, t, a);
    PayoutReach(t0, y, n, t, a);
    FlowAppend(Payout(t0, x, m), Payout(t0, y, n), t, a);
  }

  // ── Sales ──

  lemma {:induction false} NoShareOfOtherTokens(t0: Token, payees: seq<Payee>, amount: nat, t: Token, a: Address)
    requires t != t0
    ensures Received(FlooredShares(t0, payees, amount), t, a) == 0
  {
    if payees != [] {
      NoShareOfOtherTokens(t0, payees[1..], amount, t, a);
      FlowAppend(PaidShare(t0, payees[0].address, FloorFee(amount, payees[0].bps)),
                 FlooredShares(t0, payees[1..], amount), t, a);
    }
  }

  lemma SharesReach(t0: Token, payees: Payees, amount: nat, t: Token, a: Address)
    ensures Received(Shares(t0, payees, amount), t, a)
         == if t == t0 then ShareOf(payees[1..], amount, a) + Due(payees[0].address, PrimaryShare(payees, amount), a)
            else 0
  {
    if t == t0 {
      DistributionReaches(t0, payees, amount, a);
    } else {
      NoShareOfOtherTokens(t0, payees[1..], amount, t, a);
      FlowAppend(FlooredShares(t0, payees[1..], amount),
                 if PrimaryShare(payees, amount) <= 0 then []
                 else [Transfer(t0, Contract, payees[0].address, PrimaryShare(payees, amount))], t, a);
    }
  }

  lemma SettleReach(g: Globals, r: Rec, bps: u32, t: Token, a: Address)
    requires BasketOk(r) && 0 <= r.escrow.amount && bps <= BASIS_POINTS && g.cfg.feeCollector.Some?
    requires Lifecycle.Settle(g, r, bps).Ok?
    ensures Received(Lifecycle.Settle(g, r, bps).value.pays, t, a) == SplitSale(g, r, bps, t, a)
  {
    var t0 := r.escrow.token;
    var (fee, net) := ProtocolFee(r.escrow.amount, bps).value;
    var x, y := Payout(t0, g.cfg.feeCollector.value, fee), Shares(t0, r.escrow.payees, net);
    PayoutReach(t0, g.cfg.feeCollector.value, fee, t, a);
    SharesReach(t0, r.escrow.payees, net, t, a);
    BasketReach(r.basket, t0, Primary(r), t, a);
    FlowAppend(x, y, t, a);
    FlowAppend(x + y, BasketPayouts(r.basket, t0, Primary(r)), t, a);
  }

  lemma CoSignedReach(g: Globals, signers: Signers, r: Rec, caller: Address, t: Token, a: Address)
    requires BasketOk(r) && 0 <= r.escrow.amount && g.cfg.protocolFeeBps <= BASIS_POINTS && g.cfg.feeCollector.Some?
    requires Lifecycle.CoSignedRelease(g, signers, Some(r), caller).Ok?
    ensures Received(Lifecycle.CoSignedRelease(g, signers, Some(r), caller).value.pays, t, a)
         == WholeSale(g, r, g.cfg.protocolFeeBps, t, a)
  {
    var t0 := r.escrow.token;
    var (fee, net) := ProtocolFee(r.escrow.amount, g.cfg.protocolFeeBps).value;
    TwoPayoutsReach(t0, Primary(r), net, g.cfg.feeCollector.value, fee, t, a);
    BasketReach(r.basket, t0, Primary(r), t, a);
    FlowAppend(Payout(t0, Primary(r), net) + Payout(t0, g.cfg.feeCollector.value, fee),
               BasketPayouts(r.basket, t0, Primary(r)), t, a);
  }

  // ── Disputes ──

  function Winner(r: Rec): Address
    requires r.dispute.Some? && r.escrow.buyer.Some?
  {
    if r.dispute.value.resolution == 1 then Primary(r) else r.escrow.buyer.value
  }

  lemma FinalPaysReach(g: Globals, r: Rec, w: Disputes.Waterfall, to: Address, collector: Address, t: Token, a: Address)
    requires BasketOk(r) && 0 <= w.platform && 0 <= w.protocol && 0 <= w.payout
    requires w.platform > 0 ==> g.cfg.treasury.Some?
    ensures Received(Disputes.FinalPays(g, r, w, to, collector), t, a)
         == (if t != r.escrow.token then 0
             else Due(to, w.payout, a) + Due(collector, w.protocol, a)
                  + (if g.cfg.treasury.Some? then Due(g.cfg.treasury.value, w.platform, a) else 0))
            + Due(to, Extra(r, t), a)
  {
    var t0 := r.escrow.token;
    var x := if w.platform <= 0 then [] else Payout(t0, g.cfg.treasury.value, w.platform);
    var y, z := Payout(t0, to, w.payout), Payout(t0, collector, w.protocol);
    if w.platform > 0 {
      PayoutReach(t0, g.cfg.treasury.value, w.platform, t, a);
    }
    PayoutReach(t0, to, w.payout, t, a);
    PayoutReach(t0, collector, w.protocol, t, a);
    BasketReach(r.basket, t0, to, t, a);
    FlowAppend(x, y, t, a);
    FlowAppend(x + y, z, t, a);
    FlowAppend(x + y + z, BasketPayouts(r.basket, t0, to), t, a);
  }

  /** The three amounts of a settlement, from the principal. */
  lemma SettlementAmounts(g: Globals, r: Rec)
    requires AmountsOk(r) && GlobalsOk(g) && r.dispute.Some?
    requires Disputes.Settlement(g, r, r.dispute.value).Ok?
    ensures var w := Disputes.Settlement(g, r, r.dispute.value).value;
            && w.platform == FloorFee(Principal(r), g.cfg.platformFeeBps)
            && w.protocol == FloorFee(Principal(r), r.escrow.feeBps)
            && w.payout == r.escrow.amount - w.platform - w.protocol && 0 <= w.payout
            && (w.platform > 0 ==> g.cfg.treasury.Some?)
  {
    WaterfallExact(g, r);
  }

  lemma FinalizationReach(g: Globals, signers: Signers, r: Rec, caller: Address, t: Token, a: Address)
    requires AmountsOk(r) && BasketOk(r) && DisputeOk(r, g.now) && GlobalsOk(g) && r.escrow.buyer.Some?
    requires Disputes.FinalizeDispute(g, signers, Some(r), caller).Ok?
    ensures r.dispute.Some?
    ensures Received(Disputes.FinalizeDispute(g, signers, Some(r), caller).value.pays, t, a)
         == Settled(g, r, Winner(r), t, a)
  {
    SettlementAmounts(g, r);
    var w := Disputes.Settlement(g, r, r.dispute.value).value;
    FinalPaysReach(g, r, w, Winner(r), g.cfg.feeCollector.value, t, a);
  }

  /** A ruling that charges takes both fees out of the amount, records them, and pays them out; any other ruling moves
      nothing. */
  ghost predicate FeesTaken(g: Globals, r: Rec, m: Move, charging: bool)
    requires r.dispute.Some? && 0 <= r.escrow.amount
  {
    var (arbitration, resolver) := (FloorFee(r.escrow.amount, g.cfg.arbitrationFeeBps),
                                    FloorFee(r.escrow.amount, r.escrow.resolverFeeBps));
    && m.rec.dispute.Some? && m.rec.dispute.value.resolvedBy.Some? && m.rec.dispute.value.feesCharged
    && if charging
       then && m.rec.dispute.value.arbitrationFee == arbitration && m.rec.dispute.value.resolverFee == resolver
            && m.rec.escrow.amount == r.escrow.amount - arbitration - resolver
       else m.rec.escrow.amount == r.escrow.amount && m.pays == []
  }

  lemma ResolveReach(g: Globals, r: Rec, actor: Address, outcome: Ballot, votes: seq<Vote>, t: Token, a: Address)
    requires AmountsOk(r) && GlobalsOk(g) && r.dispute.Some?
    requires Disputes.Resolve(g, r, actor, outcome, votes, true).Ok?
    ensures var m := Disputes.Resolve(g, r, actor, outcome, votes, true).value;
            && FeesTaken(g, r, m, !r.dispute.value.feesCharged)
            && m.rec.dispute.value.resolvedBy == Some(actor)
            && Received(m.pays, t, a)
               == if r.dispute.value.feesCharged then 0 else RulingFees(g, r, actor, t, a)
  {
    if !r.dispute.value.feesCharged {
      TwoPayoutsReach(r.escrow.token, g.cfg.feeCollector.value, FloorFee(r.escrow.amount, g.cfg.arbitrationFeeBps),
                      actor, FloorFee(r.escrow.amount, r.escrow.resolverFeeBps), t, a);
    }
  }

  lemma AppealReach(g: Globals, signers: Signers, r: Rec, caller: Address, t: Token, a: Address)
    requires 0 <= r.escrow.amount && GlobalsOk(g) && Disputes.AppealDispute(g, signers, Some(r), caller).Ok?
    ensures var pays := Disputes.AppealDispute(g, signers, Some(r), caller).value.pays;
            var fee := FloorFee(r.escrow.amount, g.cfg.appealFeeBps);
            && Received(pays, t, a) == (if t == r.escrow.token then Due(g.cfg.feeCollector.value, fee, a) else 0)
            && Sent(pays, t, a) == (if t == r.escrow.token then Due(caller, fee, a) else 0)
  {
  }

  // ── Funding ──

  lemma DepositTakes(r: Rec, buyer: Address, t: Token, a: Address)
    requires BasketOk(r) && 0 <= r.escrow.amount
    ensures a != Contract ==> Received(Lifecycle.DepositPays(r, buyer), t, a) == 0
    ensures Sent(Lifecycle.DepositPays(r, buyer), t, a) == Everything(r, buyer, t, a)
  {
    DepositsTake(r.basket, r.escrow.token, buyer, t, a);
    FlowAppend([Transfer(r.escrow.token, buyer, Contract, r.escrow.amount)],
               BasketDeposits(r.basket, r.escrow.token, buyer), t, a);
  }

  lemma FundingTakes(g: Globals, signers: Signers, c: Call, r: Rec, t: Token, a: Address)
    requires BasketOk(r) && 0 <= r.escrow.amount && r.escrow.amount == Principal(r)
    requires (c.FundEscrow? || c.FundBasketEscrow?) && Plan(g, signers, c, Some(r)).Ok?
    ensures var pays := Plan(g, signers, c, Some(r)).value.pays;
            && (a != Contract ==> Received(pays, t, a) == 0)
            && Sent(pays, t, a) == Everything(r, c.buyer, t, a)
  {
    DepositTakes(r, c.buyer, t, a);
    if c.FundBasketEscrow? {
      FundingLegsAgree(r.basket, c.buyer);
    }
  }

  // ── Every call ──

  /** Amounts and rates are in range and somebody collects fees. */
  ghost predicate Payable(g: Globals, r: Rec) {
    && 0 <= r.escrow.amount && 0 <= Principal(r)
    && r.escrow.feeBps <= BASIS_POINTS && g.cfg.protocolFeeBps <= BASIS_POINTS && g.cfg.feeCollector.Some?
  }

  lemma InOrderIsPayable(g: Globals, r: Rec, now: u64)
    requires RecOk(r, now) && GlobalsOk(g)
    ensures Payable(g, r)
  {
  }

  function Refund(r: Rec, t: Token, a: Address): int {
    if r.escrow.buyer.Some? then Everything(r, r.escrow.buyer.value, t, a) else 0
  }

  /** The resolver a ruling is credited to, if the ruling charges the dispute's fees. */
  function ChargedFor(r: Rec, b: Rec): Option<Address> {
    if r.dispute.Some? && !r.dispute.value.feesCharged && b.escrow.state == PendingFinalization && b.dispute.Some?
    then b.dispute.value.resolvedBy else None
  }

  /** What account `a` receives of token `t` from a call that turns `r` into `b`. */
  ghost function Receives(g: Globals, c: Call, r: Rec, b: Rec, t: Token, a: Address): int
    requires ActsOnEscrow(c) && Payable(g, r)
  {
    match c
    case ConfirmDelivery(_, _, _) => SplitSale(g, r, r.escrow.feeBps, t, a)
    case AutoRelease(_) => SplitSale(g, r, g.cfg.protocolFeeBps, t, a)
    case CoSignedRelease(_, _) => WholeSale(g, r, g.cfg.protocolFeeBps, t, a)
    case ReclaimExpired(_) => Refund(r, t, a)
    case CancelEscrow(_, _) => if r.escrow.state == Funded then Refund(r, t, a) else 0
    case MutualCancel(_) => Refund(r, t, a)
    case ApproveRefund(_, _) => Refund(r, t, a)
    case RecoveryWithdraw(_, _) => Refund(r, t, a)
    case EmergencyDrain(_) => Refund(r, t, a)
    case CancelPendingFinalization(_, _) => Refund(r, t, a)
    case CastVote(_, _, _) => if ChargedFor(r, b).Some? then RulingFees(g, r, ChargedFor(r, b).value, t, a) else 0
    case ResolveDeadlockedDispute(_) =>
      if ChargedFor(r, b).Some? then RulingFees(g, r, ChargedFor(r, b).value, t, a) else 0
    case FinalizeDispute(_, _) =>
      if r.dispute.Some? && r.escrow.buyer.Some? then Settled(g, r, Winner(r), t, a) else 0
    case AppealDispute(_, _) =>
      if t == r.escrow.token then Due(g.cfg.feeCollector.value, FloorFee(r.escrow.amount, g.cfg.appealFeeBps), a) else 0
    case _ => 0
  }

  /** What it pays: the buyer everything when funding, an appellant the appeal fee. */
  ghost function PaysIn(g: Globals, c: Call, r: Rec, t: Token, a: Address): int
    requires ActsOnEscrow(c) && Payable(g, r)
  {
    match c
    case FundEscrow(_, buyer) => Everything(r, buyer, t, a)
    case FundBasketEscrow(_, buyer) => Everything(r, buyer, t, a)
    case AppealDispute(_, caller) =>
      if t == r.escrow.token then Due(caller, FloorFee(r.escrow.amount, g.cfg.appealFeeBps), a) else 0
    case _ => 0
  }

  /** The transfers of a plan move account `a` by what it receives less what it pays. */
  ghost predicate Accounts(g: Globals, signers: Signers, c: Call, r: Rec, t: Token, a: Address)
    requires ActsOnEscrow(c) && Payable(g, r)
  {
    var plan := Plan(g, signers, c, Some(r));
    plan.Ok? ==>
      Received(plan.value.pays, t, a) - Sent(plan.value.pays, t, a)
      == Receives(g, c, r, plan.value.rec, t, a) - PaysIn(g, c, r, t, a)
  }

  predicate GivesBack(c: Call) {
    c.ReclaimExpired? || c.MutualCancel? || c.ApproveRefund? || c.RecoveryWithdraw? || c.EmergencyDrain?
    || c.CancelPendingFinalization?
  }

  lemma GivesBackAll(g: Globals, signers: Signers, c: Call, r: Rec)
    requires GivesBack(c) && Plan(g, signers, c, Some(r)).Ok?
    ensures r.escrow.buyer.Some? && Plan(g, signers, c, Some(r)).value.pays == FullPayout(r, r.escrow.buyer.value)
  {
  }

  lemma RefundAccounts(g: Globals, signers: Signers, c: Call, r: Rec, t: Token, a: Address)
    requires Payable(g, r) && BasketOk(r) && GivesBack(c) && a != Contract
    ensures Accounts(g, signers, c, r, t, a)
  {
    if Plan(g, signers, c, Some(r)).Ok? {
      GivesBackAll(g, signers, c, r);
      FullPayoutReach(r, r.escrow.buyer.value, t, a);
      BasketFlows(r.basket, r.escrow.token, r.escrow.buyer.value, t);
      SentByOthers(FullPayout(r, r.escrow.buyer.value), t, a);
    }
  }

  lemma CancelAccounts(g: Globals, signers: Signers, c: Call, r: Rec, t: Token, a: Address)
    requires Payable(g, r) && BasketOk(r) && c.CancelEscrow? && a != Contract
    ensures Accounts(g, signers, c, r, t, a)
  {
    if Plan(g, signers, c, Some(r)).Ok? && r.escrow.state == Funded {
      FullPayoutReach(r, c.caller, t, a);
      BasketFlows(r.basket, r.escrow.token, c.caller, t);
      SentByOthers(FullPayout(r, c.caller), t, a);
    }
  }

  lemma SaleAccounts(g: Globals, signers: Signers, c: Call, r: Rec, t: Token, a: Address)
    requires Payable(g, r) && BasketOk(r) && (c.ConfirmDelivery? || c.AutoRelease?) && a != Contract
    ensures Accounts(g, signers, c, r, t, a)
  {
    if Plan(g, signers, c, Some(r)).Ok? {
      var bps := if c.ConfirmDelivery? then r.escrow.feeBps else g.cfg.protocolFeeBps;
      SettleReach(g, r, bps, t, a);
      SettlePaidByContract(g, r, bps);
      SentByOthers(Lifecycle.Settle(g, r, bps).value.pays, t, a);
    }
  }

  lemma SettlePaidByContract(g: Globals, r: Rec, bps: u32)
    requires Lifecycle.Settle(g, r, bps).Ok?
    ensures AllFrom(Lifecycle.Settle(g, r, bps).value.pays, Contract)
  {
    var (fee, net) := ProtocolFee(r.escrow.amount, bps).value;
    DistributionIsExact(r.escrow.token, r.escrow.payees, net);
    BasketFlows(r.basket, r.escrow.token, Primary(r), 0);
  }

  lemma CoSignedAccounts(g: Globals, signers: Signers, c: Call, r: Rec, t: Token, a: Address)
    requires Payable(g, r) && BasketOk(r) && c.CoSignedRelease? && a != Contract
    ensures Accounts(g, signers, c, r, t, a)
  {
    if Plan(g, signers, c, Some(r)).Ok? {
      CoSignedReach(g, signers, r, c.caller, t, a);
      BasketFlows(r.basket, r.escrow.token, Primary(r), t);
      SentByOthers(Plan(g, signers, c, Some(r)).value.pays, t, a);
    }
  }

  lemma FundingAccounts(g: Globals, signers: Signers, c: Call, r: Rec, t: Token, a: Address)
    requires Payable(g, r) && BasketOk(r) && r.escrow.amount == Principal(r) && a != Contract
    requires c.FundEscrow? || c.FundBasketEscrow?
    ensures Accounts(g, signers, c, r, t, a)
  {
    if Plan(g, signers, c, Some(r)).Ok? {
      FundingTakes(g, signers, c, r, t, a);
    }
  }

  lemma AppealAccounts(g: Globals, signers: Signers, c: Call, r: Rec, t: Token, a: Address)
    requires Payable(g, r) && GlobalsOk(g) && c.AppealDispute? && a != Contract
    ensures Accounts(g, signers, c, r, t, a)
  {
    if Plan(g, signers, c, Some(r)).Ok? {
      AppealReach(g, signers, r, c.caller, t, a);
    }
  }

  lemma ResolvePaidByContract(g: Globals, r: Rec, actor: Address, outcome: Ballot, votes: seq<Vote>, charge: bool)
    requires Disputes.Resolve(g, r, actor, outcome, votes, charge).Ok?
    ensures AllFrom(Disputes.Resolve(g, r, actor, outcome, votes, charge).value.pays, Contract)
  {
  }

  /** What a ruling that may charge moves. */
  lemma RulingAccounts(g: Globals, r: Rec, actor: Address, outcome: Ballot, votes: seq<Vote>, t: Token, a: Address)
    requires AmountsOk(r) && GlobalsOk(g) && r.dispute.Some? && a != Contract
    requires Disputes.Resolve(g, r, actor, outcome, votes, true).Ok?
    ensures var m := Disputes.Resolve(g, r, actor, outcome, votes, true).value;
            && ChargedFor(r, m.rec) == (if r.dispute.value.feesCharged then None else Some(actor))
            && Received(m.pays, t, a) - Sent(m.pays, t, a)
               == if r.dispute.value.feesCharged then 0 else RulingFees(g, r, actor, t, a)
  {
    ResolveReach(g, r, actor, outcome, votes, t, a);
    ResolvePaidByContract(g, r, actor, outcome, votes, true);
    SentByOthers(Disputes.Resolve(g, r, actor, outcome, votes, true).value.pays, t, a);
  }

  lemma BallotAccounts(g: Globals, signers: Signers, c: Call, r: Rec, t: Token, a: Address)
    requires Payable(g, r) && AmountsOk(r) && DisputeOk(r, g.now) && GlobalsOk(g) && c.CastVote? && a != Contract
    ensures Accounts(g, signers, c, r, t, a)
  {
    if Plan(g, signers, c, Some(r)).Ok? {
      var votes := Voting.Cast(r.votes, c.caller, c.ballot, g.now);
      var outcome := Voting.Decided(votes, Voting.Threshold(r.escrow.resolvers));
      if outcome.Some? {
        RulingAccounts(g, r, c.caller, outcome.value, votes, t, a);
      }
    }
  }

  lemma DeadlockAccounts(g: Globals, signers: Signers, c: Call, r: Rec, t: Token, a: Address)
    requires Payable(g, r) && AmountsOk(r) && DisputeOk(r, g.now) && GlobalsOk(g) && a != Contract
    requires c.ResolveDeadlockedDispute?
    ensures Accounts(g, signers, c, r, t, a)
  {
    if Plan(g, signers, c, Some(r)).Ok? {
      var outcome := Voting.Majority(r.votes);
      RulingAccounts(g, r, Voting.VoterFor(r.votes, outcome).value, outcome, r.votes, t, a);
    }
  }

  lemma FinalizationAccounts(g: Globals, signers: Signers, c: Call, r: Rec, t: Token, a: Address)
    requires Payable(g, r) && RecOk(r, g.now) && GlobalsOk(g) && c.FinalizeDispute? && a != Contract
    ensures Accounts(g, signers, c, r, t, a)
  {
    if Plan(g, signers, c, Some(r)).Ok? {
      FinalizationReach(g, signers, r, c.caller, t, a);
      FinalizeMove(g, signers, r, c.caller);
      SentByOthers(Disputes.FinalizeDispute(g, signers, Some(r), c.caller).value.pays, t, a);
    }
  }

  /** The remaining calls move no token. */
  predicate MovesNothing(c: Call) {
    c.MarkShipped? || c.ProposeRecordDelivery? || c.CancelDeliveryProposal? || c.RejectDeliveryProposal?
    || c.RecordDelivery? || c.AutoCancelPending? || c.RequestRefund? || c.RotateResolver? || c.RaiseDispute?
    || c.ClaimDisputeTimeout?
  }

  lemma QuietAccounts(g: Globals, signers: Signers, c: Call, r: Rec, t: Token, a: Address)
    requires Payable(g, r) && DisputeOk(r, g.now) && MovesNothing(c)
    ensures Accounts(g, signers, c, r, t, a)
  {
    if c.ClaimDisputeTimeout? && Plan(g, signers, c, Some(r)).Ok? {
      PlannedTimeout(g, signers, r, c.caller);
    }
  }

  lemma EveryCallAccounts(g: Globals, signers: Signers, c: Call, r: Rec, t: Token, a: Address)
    requires RecOk(r, g.now) && GlobalsOk(g) && ActsOnEscrow(c) && a != Contract
    ensures Payable(g, r) && Accounts(g, signers, c, r, t, a)
  {
    InOrderIsPayable(g, r, g.now);
    if MovesNothing(c) {
      QuietAccounts(g, signers, c, r, t, a);
    } else if GivesBack(c) {
      RefundAccounts(g, signers, c, r, t, a);
    } else {
      PayingCallAccounts(g, signers, c, r, t, a);
    }
  }

  lemma PayingCallAccounts(g: Globals, signers: Signers, c: Call, r: Rec, t: Token, a: Address)
    requires RecOk(r, g.now) && GlobalsOk(g) && Payable(g, r) && ActsOnEscrow(c) && a != Contract
    requires !MovesNothing(c) && !GivesBack(c)
    ensures Accounts(g, signers, c, r, t, a)
  {
    match c
    case FundEscrow(_, _) => UnfundedPrincipal(r, g.now); FundingCallAccounts(g, signers, c, r, t, a);
    case FundBasketEscrow(_, _) => UnfundedPrincipal(r, g.now); FundingCallAccounts(g, signers, c, r, t, a);
    case ConfirmDelivery(_, _, _) => SaleAccounts(g, signers, c, r, t, a);
    case AutoRelease(_) => SaleAccounts(g, signers, c, r, t, a);
    case CoSignedRelease(_, _) => CoSignedAccounts(g, signers, c, r, t, a);
    case CancelEscrow(_, _) => CancelAccounts(g, signers, c, r, t, a);
    case CastVote(_, _, _) => BallotAccounts(g, signers, c, r, t, a);
    case ResolveDeadlockedDispute(_) => DeadlockAccounts(g, signers, c, r, t, a);
    case AppealDispute(_, _) => AppealAccounts(g, signers, c, r, t, a);
    case FinalizeDispute(_, _) => FinalizationAccounts(g, signers, c, r, t, a);
  }

  lemma UnfundedPrincipal(r: Rec, now: u64)
    requires RecOk(r, now)
    ensures r.escrow.state == Pending ==> r.escrow.amount == Principal(r)
  {
  }

  lemma FundingCallAccounts(g: Globals, signers: Signers, c: Call, r: Rec, t: Token, a: Address)
    requires Payable(g, r) && BasketOk(r) && a != Contract && (c.FundEscrow? || c.FundBasketEscrow?)
    requires r.escrow.state == Pending ==> r.escrow.amount == Principal(r)
    ensures Accounts(g, signers, c, r, t, a)
  {
    if r.escrow.state == Pending {
      FundingAccounts(g, signers, c, r, t, a);
    }
  }

  /** In every reachable state, every successful call on an escrow moves every outside account's balance of every token
      by exactly what that account is due less what it pays. */
  lemma BalancesMove(s: State, signers: Signers, c: Call, t: Token, a: Address)
    requires Reachable(s) && ActsOnEscrow(c) && Exec(s, signers, c).Ok? && a != Contract
    ensures c.id in s.recs && c.id in Exec(s, signers, c).value.recs && Payable(s.g, s.recs[c.id])
    ensures var (r, s') := (s.recs[c.id], Exec(s, signers, c).value);
            Balance(s'.ledger, t, a) - Balance(s.ledger, t, a)
            == Receives(s.g, c, r, s'.recs[c.id], t, a) - PaysIn(s.g, c, r, t, a)
  {
    CallLeaves(s, signers, c);
    RecordInOrder(s, c.id);
    Outcomes.GoodSettings(s);
    EveryCallAccounts(s.g, signers, c, s.recs[c.id], t, a);
    PayMoves(s.ledger, Plan(s.g, signers, c, Some(s.recs[c.id])).value.pays, t, a);
  }

  // ── What follows for disputes ──

  lemma BallotTakesFees(g: Globals, signers: Signers, c: Call, r: Rec)
    requires AmountsOk(r) && DisputeOk(r, g.now) && GlobalsOk(g) && (c.CastVote? || c.ResolveDeadlockedDispute?)
    requires Plan(g, signers, c, Some(r)).Ok?
    ensures r.dispute.Some?
    ensures var m := Plan(g, signers, c, Some(r)).value;
            m.rec.escrow.state == PendingFinalization ==> FeesTaken(g, r, m, !r.dispute.value.feesCharged)
  {
    var votes := if c.CastVote? then Voting.Cast(r.votes, c.caller, c.ballot, g.now) else r.votes;
    if c.CastVote? {
      var outcome := Voting.Decided(votes, Voting.Threshold(r.escrow.resolvers));
      if outcome.Some? {
        ResolveReach(g, r, c.caller, outcome.value, votes, 0, Contract);
      }
    } else {
      var outcome := Voting.Majority(votes);
      ResolveReach(g, r, Voting.VoterFor(votes, outcome).value, outcome, votes, 0, Contract);
    }
  }

  /** A ballot or a deadlock that rules records both fees and takes them out of the amount, the first time, and touches
      no amount afterwards. */
  lemma RulingsTakeFeesOnce(s: State, signers: Signers, c: Call)
    requires Reachable(s) && (c.CastVote? || c.ResolveDeadlockedDispute?) && Exec(s, signers, c).Ok?
    ensures c.id in s.recs && Plan(s.g, signers, c, Some(s.recs[c.id])).Ok? && s.recs[c.id].dispute.Some?
    ensures var (r, m) := (s.recs[c.id], Plan(s.g, signers, c, Some(s.recs[c.id])).value);
            && c.id in Exec(s, signers, c).value.recs && Exec(s, signers, c).value.recs[c.id] == m.rec
            && 0 <= r.escrow.amount
            && (m.rec.escrow.state == PendingFinalization ==> FeesTaken(s.g, r, m, !r.dispute.value.feesCharged))
  {
    CallLeaves(s, signers, c);
    RecordInOrder(s, c.id);
    Outcomes.GoodSettings(s);
    BallotTakesFees(s.g, signers, c, s.recs[c.id]);
  }

  lemma WinnerGetsMost(g: Globals, r: Rec)
    requires AmountsOk(r) && GlobalsOk(g) && r.dispute.Some? && r.escrow.buyer.Some?
    requires Disputes.Settlement(g, r, r.dispute.value).Ok?
    ensures 0 <= Principal(r)
    ensures 8_700 * Principal(r) <= BASIS_POINTS * Settled(g, r, Winner(r), r.escrow.token, Winner(r))
  {
    SettlementAmounts(g, r);
    WaterfallExact(g, r);
  }

  /** A finalization pays the winner of the recorded ruling at least 87% of what was funded. */
  lemma FinalizationPaysWinner(s: State, signers: Signers, c: Call)
    requires Reachable(s) && c.FinalizeDispute? && Exec(s, signers, c).Ok?
    ensures c.id in s.recs && s.recs[c.id].dispute.Some? && s.recs[c.id].escrow.buyer.Some?
    ensures var r := s.recs[c.id];
            var (t, a) := (r.escrow.token, Winner(r));
            a != Contract ==>
              8_700 * Principal(r)
              <= BASIS_POINTS * (Balance(Exec(s, signers, c).value.ledger, t, a) - Balance(s.ledger, t, a))
  {
    CallLeaves(s, signers, c);
    var r := s.recs[c.id];
    FinalizationShape(s, signers, c);
    WinnerGetsMost(s.g, r);
    if Winner(r) != Contract {
      BalancesMove(s, signers, c, r.escrow.token, Winner(r));
    }
  }

  lemma FinalizationShape(s: State, signers: Signers, c: Call)
    requires Reachable(s) && c.FinalizeDispute? && c.id in s.recs && Plan(s.g, signers, c, Some(s.recs[c.id])).Ok?
    ensures var r := s.recs[c.id];
            && AmountsOk(r) && GlobalsOk(s.g) && r.dispute.Some? && r.escrow.buyer.Some?
            && r.escrow.buyer.value != Contract && Disputes.Settlement(s.g, r, r.dispute.value).Ok?
  {
    RecordInOrder(s, c.id);
    Outcomes.GoodSettings(s);
  }

  /** A finalized refund closes the escrow as Refunded and pays its buyer. */
  ghost predicate BuyerRefunded(s: State, s': State, id: u64) {
    && id in s.recs && id in s'.recs && s'.recs[id].escrow.state == Refunded && s.recs[id].escrow.buyer.Some?
    && var (t, b) := (s.recs[id].escrow.token, s.recs[id].escrow.buyer.value);
       8_700 * Principal(s.recs[id]) <= BASIS_POINTS * (Balance(s'.ledger, t, b) - Balance(s.ledger, t, b))
  }

  lemma RefundRulingPays(s: State, signers: Signers, c: Call)
    requires Reachable(s) && c.FinalizeDispute? && Exec(s, signers, c).Ok?
    requires c.id in s.recs && s.recs[c.id].dispute.Some?
    requires s.recs[c.id].dispute.value.resolution == Code(Ballot.Refund)
    ensures BuyerRefunded(s, Exec(s, signers, c).value, c.id)
  {
    CallLeaves(s, signers, c);
    FinalizationShape(s, signers, c);
    FinalizationPaysWinner(s, signers, c);
    OnlyPendingFinalizes(s, signers, c);
    FinalizationFollows(s.g, signers, s.recs[c.id], c.caller);
  }

  /** After a claimed timeout, and unless somebody appeals, overrides or bails out, a finalization closes the escrow as
      Refunded and pays the buyer at least 87% of what was funded. */
  lemma TimeoutPaysBuyer(s: State, signers: Signers, c: Call, states: seq<State>, inputs: seq<Input>, i: Input)
    requires Reachable(s) && c.ClaimDisputeTimeout? && Exec(s, signers, c).Ok?
    requires Traces.Trace(Next, states, inputs) && states[0] == Exec(s, signers, c).value
    requires forall k :: 0 <= k < |inputs| ==> LeavesRuling(inputs[k], c.id)
    requires i.call.FinalizeDispute? && i.call.id == c.id && Exec(states[|inputs|], i.signers, i.call).Ok?
    ensures BuyerRefunded(states[|inputs|], Exec(states[|inputs|], i.signers, i.call).value, c.id)
  {
    TimeoutEndsInRefund(s, signers, c, states, inputs);
    RefundRulingPays(states[|inputs|], i.signers, i.call);
  }

  lemma OnlyPendingFinalizes(s: State, signers: Signers, c: Call)
    requires c.FinalizeDispute? && c.id in s.recs && Plan(s.g, signers, c, Some(s.recs[c.id])).Ok?
    ensures s.recs[c.id].escrow.state == PendingFinalization
  {
  }
}
