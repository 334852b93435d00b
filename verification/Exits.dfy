/** Whether the two parties of an escrow can always get the money out by themselves. */
module Exits {
  import opened Types
  import Fees
  import opened Voting
  import opened History
  import opened Records
  import opened RecordInvariant
  import opened Machine
  import opened EntryPoints
  import opened Runs
  import opened Custody
  import Creation
  import Lifecycle
  import Disputes
  import Outcomes
  import Safety
  import Traces

  // ── Sellers can sign ──

  /** Every escrow was created under its seller's signature, so its primary payee is not the contract itself. */
  ghost predicate SellersSign(s: State) {
    forall id: u64 :: id in s.recs ==> Primary(s.recs[id]) != Contract
  }

  lemma NewSellerSigned(g: Globals, signers: Signers, c: Call)
    requires CreatesOne(c) && NewRecord(g, signers, c).Ok?
    ensures Primary(NewRecord(g, signers, c).value) != Contract
  {
  }

  lemma {:induction false} BatchSellerSigned(s: State, seller: Address, inputs: seq<Creation.Terms>)
    requires SellersSign(s) && seller != Contract && IssueAll(s, seller, inputs).Ok?
    ensures SellersSign(IssueAll(s, seller, inputs).value)
    decreases |inputs|
  {
    if inputs != [] {
      var terms := inputs[0].(payees := Creation.SoleSeller(seller), expiresAt := None, gracePeriod := 0);
      BatchSellerSigned(Issue(s, Creation.CreateInternal(s.g, terms)).value, seller, inputs[1..]);
    }
  }

  lemma EscrowCallKeepsSellers(s: State, signers: Signers, c: Call)
    requires TableOk(s) && SellersSign(s) && ActsOnEscrow(c) && Exec(s, signers, c).Ok?
    ensures SellersSign(Exec(s, signers, c).value)
  {
    EscrowCallEvolves(s, signers, c);
  }

  lemma CreationKeepsSellers(s: State, signers: Signers, c: Call)
    requires SellersSign(s) && CreatesOne(c) && Exec(s, signers, c).Ok?
    ensures SellersSign(Exec(s, signers, c).value)
  {
    NewSellerSigned(s.g, signers, c);
  }

  lemma OtherKeepsSellers(s: State, signers: Signers, c: Call)
    requires SellersSign(s) && !CreatesOne(c) && !ActsOnEscrow(c) && ExecOther(s, signers, c).Ok?
    ensures SellersSign(ExecOther(s, signers, c).value)
  {
    if c.BatchCreateEscrow? {
      BatchSellerSigned(s, c.seller, c.inputs);
    }
  }

  lemma NextKeepsSellers(s: State, i: Input)
    requires TableOk(s) && SellersSign(s)
    ensures SellersSign(Next(s, i))
  {
    if Exec(s, i.signers, i.call).Ok? {
      if CreatesOne(i.call) {
        CreationKeepsSellers(s, i.signers, i.call);
      } else if ActsOnEscrow(i.call) {
        EscrowCallKeepsSellers(s, i.signers, i.call);
      } else {
        OtherKeepsSellers(s, i.signers, i.call);
      }
    }
  }

  ghost predicate GoodAndSigned(s: State) {
    Inv(s) && SellersSign(s)
  }

  lemma NextKeepsGoodAndSigned(s: State, i: Input)
    requires GoodAndSigned(s)
    ensures GoodAndSigned(Next(s, i))
  {
    NextKeeps(s, i);
    NextKeepsSellers(s, i);
  }

  lemma ReachableSellersSign(s: State)
    requires Reachable(s)
    ensures SellersSign(s)
  {
    forall b | Initialized(b) ensures GoodAndSigned(b) {
      InitialIsGood(b);
      InitialSellers(b);
    }
    forall b, i | GoodAndSigned(b) ensures GoodAndSigned(Next(b, i)) {
      NextKeepsGoodAndSigned(b, i);
    }
    Inductive(GoodAndSigned, s);
  }

  lemma InitialSellers(s: State)
    requires Initialized(s)
    ensures SellersSign(s)
  {
    InitiallyEmpty(s);
  }

  // ── Exits by the parties ──

  /** A step the parties can take without anyone else: let time pass, or call on their escrow with their own
      signatures. */
  ghost predicate ByParties(i: Input, id: u64, parties: Signers) {
    i.call.Elapse? || (ActsOnEscrow(i.call) && i.call.id == id && i.signers <= parties)
  }

  ghost predicate Finished(s: State, id: u64) {
    id in s.recs && Terminal(s.recs[id].escrow.state)
  }

  ghost predicate ExitPath(states: seq<State>, inputs: seq<Input>, s: State, s': State, id: u64, parties: Signers) {
    && Traces.Path(Next, states, inputs, s, s')
    && Finished(s', id)
    && forall k :: 0 <= k < |inputs| ==> ByParties(inputs[k], id, parties)
  }

  /** Some sequence of steps by the parties finishes the escrow. */
  ghost predicate CanExit(s: State, id: u64, parties: Signers) {
    exists states, inputs, s' :: ExitPath(states, inputs, s, s', id, parties)
  }

  lemma ExitDone(s: State, id: u64, parties: Signers)
    requires Finished(s, id)
    ensures CanExit(s, id, parties)
  {
    assert ExitPath([s], [], s, s, id, parties);
  }

  lemma ExitStep(s: State, i: Input, s1: State, id: u64, parties: Signers)
    requires s1 == Next(s, i) && ByParties(i, id, parties) && CanExit(s1, id, parties)
    ensures CanExit(s, id, parties)
  {
    var states, inputs, s' :| ExitPath(states, inputs, s1, s', id, parties);
    var longer, more := [s] + states, [i] + inputs;
    forall k | 0 <= k < |more| ensures longer[k + 1] == Next(longer[k], more[k]) && ByParties(more[k], id, parties) {
      if k > 0 {
        assert more[k] == inputs[k - 1];
      }
    }
    assert ExitPath(longer, more, s, s', id, parties);
  }

  /** Buyer and primary payee. */
  ghost function Parties(r: Rec): Signers
    requires r.escrow.buyer.Some?
  {
    {r.escrow.buyer.value, Primary(r)}
  }

  /** Nothing is paused, and the clock is far enough from its end for a dispute to time out and mature. */
  ghost predicate Operating(g: Globals) {
    !g.cfg.paused && g.pausedActions == {} && g.now + g.cfg.disputeTimeout + 2 * APPEAL_WINDOW <= MAX_U64
  }

  ghost predicate ExpiredRefundRequest(r: Rec, now: u64) {
    r.escrow.state == RefundRequested && PastExpiry(r, now)
  }

  ghost predicate InDispute(r: Rec) {
    r.escrow.state == Disputed || r.escrow.state == PendingFinalization
  }

  /** A dispute whose finalization would owe a positive platform fee, with nobody to override it among the parties. */
  ghost predicate FeeBlocked(g: Globals, r: Rec, parties: Signers) {
    && InDispute(r) && g.admin !in parties
    && 0 < Principal(r) && 0 < Fees.FloorFee(Principal(r), g.cfg.platformFeeBps)
  }

  // ── One-step exits ──

  /** A call on escrow `id` that finishes it, with its plan. */
  ghost predicate Closing(g: Globals, signers: Signers, id: u64, c: Call, r: Rec, m: Move) {
    && ActsOnEscrow(c) && !Safety.PaidFromOutside(c) && c.id == id
    && Plan(g, signers, c, Some(r)) == Ok(m) && Terminal(m.rec.escrow.state)
  }

  lemma MutualCancelWorks(g: Globals, r: Rec) returns (m: Move)
    requires RecOk(r, g.now) && Operating(g) && Primary(r) != Contract && !PastExpiry(r, g.now)
    requires r.escrow.state == Funded || r.escrow.state == Shipped
    ensures Lifecycle.MutualCancel(g, Parties(r), Some(r)) == Ok(m)
    ensures Terminal(m.rec.escrow.state)
  {
    m := Lifecycle.MutualCancel(g, Parties(r), Some(r)).value;
  }

  lemma MutualCancelCloses(g: Globals, signers: Signers, id: u64, r: Rec, m: Move) returns (c: Call)
    requires Lifecycle.MutualCancel(g, signers, Some(r)) == Ok(m) && Terminal(m.rec.escrow.state)
    ensures Closing(g, signers, id, c, r, m)
  {
    c := Call.MutualCancel(id);
  }

  lemma ReclaimWorks(g: Globals, r: Rec) returns (m: Move)
    requires RecOk(r, g.now) && Operating(g) && PastExpiry(r, g.now)
    requires r.escrow.state == Funded || r.escrow.state == Shipped
    ensures Lifecycle.ReclaimExpired(g, Parties(r), Some(r)) == Ok(m)
    ensures Terminal(m.rec.escrow.state)
  {
    m := Lifecycle.ReclaimExpired(g, Parties(r), Some(r)).value;
  }

  lemma ReclaimCloses(g: Globals, signers: Signers, id: u64, r: Rec, m: Move) returns (c: Call)
    requires Lifecycle.ReclaimExpired(g, signers, Some(r)) == Ok(m) && Terminal(m.rec.escrow.state)
    ensures Closing(g, signers, id, c, r, m)
  {
    c := Call.ReclaimExpired(id);
  }

  lemma ApprovalWorks(g: Globals, r: Rec) returns (m: Move)
    requires RecOk(r, g.now) && Operating(g) && Primary(r) != Contract
    requires r.escrow.state == RefundRequested && !PastExpiry(r, g.now)
    ensures Lifecycle.ApproveRefund(g, Parties(r), Some(r), Primary(r)) == Ok(m)
    ensures Terminal(m.rec.escrow.state)
  {
    m := Lifecycle.ApproveRefund(g, Parties(r), Some(r), Primary(r)).value;
  }

  lemma ApprovalCloses(g: Globals, signers: Signers, id: u64, r: Rec, caller: Address, m: Move) returns (c: Call)
    requires Lifecycle.ApproveRefund(g, signers, Some(r), caller) == Ok(m) && Terminal(m.rec.escrow.state)
    ensures Closing(g, signers, id, c, r, m)
  {
    c := Call.ApproveRefund(id, caller);
  }

  lemma RecoveryWorks(g: Globals, r: Rec) returns (m: Move)
    requires RecOk(r, g.now) && g.cfg.recoveryMode && Live(r.escrow.state)
    ensures Lifecycle.RecoveryWithdraw(g, Parties(r), Some(r), r.escrow.buyer.value) == Ok(m)
    ensures Terminal(m.rec.escrow.state)
  {
    m := Lifecycle.RecoveryWithdraw(g, Parties(r), Some(r), r.escrow.buyer.value).value;
  }

  lemma RecoveryCloses(g: Globals, signers: Signers, id: u64, r: Rec, caller: Address, m: Move) returns (c: Call)
    requires Lifecycle.RecoveryWithdraw(g, signers, Some(r), caller) == Ok(m) && Terminal(m.rec.escrow.state)
    ensures Closing(g, signers, id, c, r, m)
  {
    c := Call.RecoveryWithdraw(id, caller);
  }

  lemma OverrideWorks(g: Globals, r: Rec) returns (m: Move)
    requires RecOk(r, g.now) && !g.cfg.paused && g.pausedActions == {} && Primary(r) != Contract
    requires r.escrow.state == PendingFinalization && g.admin in Parties(r)
    ensures Disputes.CancelPendingFinalization(g, Parties(r), Some(r), g.admin) == Ok(m)
    ensures Terminal(m.rec.escrow.state)
  {
    m := Disputes.CancelPendingFinalization(g, Parties(r), Some(r), g.admin).value;
  }

  lemma OverrideCloses(g: Globals, signers: Signers, id: u64, r: Rec, caller: Address, m: Move) returns (c: Call)
    requires Disputes.CancelPendingFinalization(g, signers, Some(r), caller) == Ok(m) && Terminal(m.rec.escrow.state)
    ensures Closing(g, signers, id, c, r, m)
  {
    c := Call.CancelPendingFinalization(id, caller);
  }

  /** No positive platform fee is due. */
  ghost predicate FeeFree(g: Globals, r: Rec) {
    0 < Principal(r) && Fees.FloorFee(Principal(r), g.cfg.platformFeeBps) == 0
  }

  lemma FinalizationFinishes(g: Globals, signers: Signers, r: Rec, caller: Address)
    requires Disputes.FinalizeDispute(g, signers, Some(r), caller).Ok?
    ensures Terminal(Disputes.FinalizeDispute(g, signers, Some(r), caller).value.rec.escrow.state)
  {
  }

  lemma FinalizationWorks(g: Globals, r: Rec) returns (m: Move)
    requires RecOk(r, g.now) && GlobalsOk(g) && g.cfg.treasury.None? && !g.cfg.paused && g.pausedActions == {}
    requires r.escrow.state == PendingFinalization && FeeFree(g, r)
    requires r.dispute.value.resolvedAt + APPEAL_WINDOW <= g.now
    ensures Disputes.FinalizeDispute(g, Parties(r), Some(r), r.escrow.buyer.value) == Ok(m)
    ensures Terminal(m.rec.escrow.state)
  {
    Outcomes.Finalizable(g, Parties(r), r, r.escrow.buyer.value);
    FinalizationFinishes(g, Parties(r), r, r.escrow.buyer.value);
    m := Disputes.FinalizeDispute(g, Parties(r), Some(r), r.escrow.buyer.value).value;
  }

  lemma FinalizationCloses(g: Globals, signers: Signers, id: u64, r: Rec, caller: Address, m: Move) returns (c: Call)
    requires Disputes.FinalizeDispute(g, signers, Some(r), caller) == Ok(m) && Terminal(m.rec.escrow.state)
    ensures Closing(g, signers, id, c, r, m)
  {
    c := FinalizationCall(g, signers, id, Some(r), caller);
  }

  lemma FinalizationCall(g: Globals, signers: Signers, id: u64, found: Option<Rec>, caller: Address) returns (c: Call)
    ensures ActsOnEscrow(c) && !Safety.PaidFromOutside(c) && c.id == id
    ensures Plan(g, signers, c, found) == Disputes.FinalizeDispute(g, signers, found, caller)
  {
    c := Call.FinalizeDispute(id, caller);
  }

  lemma CancellationWorks(g: Globals, r: Rec) returns (m: Move)
    requires r.escrow.state == Pending && !PastExpiry(r, g.now) && Primary(r) != Contract
    requires !g.cfg.paused && g.pausedActions == {}
    ensures Lifecycle.CancelEscrow(g, {Primary(r)}, Some(r), Primary(r)) == Ok(m)
    ensures Terminal(m.rec.escrow.state)
  {
    assert IsPayee(r.escrow.payees, Primary(r));
    m := Lifecycle.CancelEscrow(g, {Primary(r)}, Some(r), Primary(r)).value;
  }

  lemma CancellationCloses(g: Globals, signers: Signers, id: u64, r: Rec, caller: Address, m: Move) returns (c: Call)
    requires Lifecycle.CancelEscrow(g, signers, Some(r), caller) == Ok(m) && Terminal(m.rec.escrow.state)
    ensures Closing(g, signers, id, c, r, m)
  {
    c := Call.CancelEscrow(id, caller);
  }

  lemma TimeoutWorks(g: Globals, r: Rec)
    requires RecOk(r, g.now) && GlobalsOk(g) && !g.cfg.paused && g.pausedActions == {}
    requires r.escrow.state == Disputed && r.dispute.value.disputedAt + g.cfg.disputeTimeout <= g.now
    requires g.now + APPEAL_WINDOW <= MAX_U64
    ensures var plan := Disputes.ClaimDisputeTimeout(g, Parties(r), Some(r), r.escrow.buyer.value);
            && plan.Ok? && plan.value.rec.escrow.state == PendingFinalization
            && plan.value.rec.dispute.Some? && plan.value.rec.dispute.value.resolvedAt == g.now
            && plan.value.arbitrationTotal.None?
  {
  }

  /** A call by the parties whose plan succeeds is committed. */
  lemma PlanGoesThrough(s: State, signers: Signers, c: Call)
    requires Reachable(s) && ActsOnEscrow(c) && !Safety.PaidFromOutside(c) && c.id in s.recs
    requires Plan(s.g, signers, c, Some(s.recs[c.id])).Ok?
    ensures Next(s, Input(signers, c)) == Commit(s, c.id, Plan(s.g, signers, c, Some(s.recs[c.id])).value)
  {
    Safety.NoPayoutFails(s, signers, c);
    ExecIsCommit(s, signers, c);
  }

  lemma FinishingCall(s: State, signers: Signers, id: u64, c: Call, m: Move, parties: Signers)
    requires Reachable(s) && id in s.recs && signers <= parties && Closing(s.g, signers, id, c, s.recs[id], m)
    ensures CanExit(s, id, parties)
  {
    var s1 := Commit(s, id, m);
    PlanGoesThrough(s, signers, c);
    ExitDone(s1, id, parties);
    ExitStep(s, Input(signers, c), s1, id, parties);
  }

  // ── Every live escrow ──

  function At(s: State, to: u64): State
    requires s.g.now <= to
  {
    s.(g := s.g.(now := to))
  }

  lemma Wait(s: State, to: u64, id: u64, parties: Signers)
    requires s.g.now <= to && CanExit(At(s, to), id, parties)
    ensures CanExit(s, id, parties)
  {
    ExitStep(s, Input({}, Elapse(to)), At(s, to), id, parties);
  }

  lemma WaitReaches(s: State, to: u64)
    requires Reachable(s) && s.g.now <= to
    ensures Reachable(At(s, to))
  {
    Traces.OneStep(Next, s, Input({}, Elapse(to)));
    StillReachable(s, At(s, to));
  }

  /** What the exits below rely on, for one escrow of a reachable state. */
  ghost predicate Ready(s: State, id: u64) {
    && Reachable(s) && id in s.recs && Live(s.recs[id].escrow.state)
    && !s.g.cfg.paused && s.g.pausedActions == {}
  }

  lemma ReadyFacts(s: State, id: u64)
    requires Ready(s, id)
    ensures RecOk(s.recs[id], s.g.now) && GlobalsOk(s.g) && s.g.cfg.treasury.None?
    ensures s.recs[id].escrow.buyer.Some? && Primary(s.recs[id]) != Contract && 0 < Principal(s.recs[id])
  {
    RecordInOrder(s, id);
    Outcomes.GoodSettings(s);
    Outcomes.TreasuryNeverSet(s);
    ReachableSellersSign(s);
  }

  lemma ExitByMutualCancel(s: State, id: u64)
    requires Ready(s, id) && Operating(s.g) && !PastExpiry(s.recs[id], s.g.now)
    requires s.recs[id].escrow.state == Funded || s.recs[id].escrow.state == Shipped
    ensures s.recs[id].escrow.buyer.Some? && CanExit(s, id, Parties(s.recs[id]))
  {
    ReadyFacts(s, id);
    var r := s.recs[id];
    var m := MutualCancelWorks(s.g, r);
    var c := MutualCancelCloses(s.g, Parties(r), id, r, m);
    FinishingCall(s, Parties(r), id, c, m, Parties(r));
  }

  lemma ExitByReclaim(s: State, id: u64)
    requires Ready(s, id) && Operating(s.g) && PastExpiry(s.recs[id], s.g.now)
    requires s.recs[id].escrow.state == Funded || s.recs[id].escrow.state == Shipped
    ensures s.recs[id].escrow.buyer.Some? && CanExit(s, id, Parties(s.recs[id]))
  {
    ReadyFacts(s, id);
    var r := s.recs[id];
    var m := ReclaimWorks(s.g, r);
    var c := ReclaimCloses(s.g, Parties(r), id, r, m);
    FinishingCall(s, Parties(r), id, c, m, Parties(r));
  }

  lemma ExitByCancellation(s: State, id: u64)
    requires Ready(s, id) && Operating(s.g)
    requires s.recs[id].escrow.state == Funded || s.recs[id].escrow.state == Shipped
    ensures s.recs[id].escrow.buyer.Some? && CanExit(s, id, Parties(s.recs[id]))
  {
    if PastExpiry(s.recs[id], s.g.now) {
      ExitByReclaim(s, id);
    } else {
      ExitByMutualCancel(s, id);
    }
  }

  lemma ExitByApproval(s: State, id: u64)
    requires Ready(s, id) && Operating(s.g)
    requires s.recs[id].escrow.state == RefundRequested && !PastExpiry(s.recs[id], s.g.now)
    ensures s.recs[id].escrow.buyer.Some? && CanExit(s, id, Parties(s.recs[id]))
  {
    ReadyFacts(s, id);
    var r := s.recs[id];
    var m := ApprovalWorks(s.g, r);
    var c := ApprovalCloses(s.g, Parties(r), id, r, Primary(r), m);
    FinishingCall(s, Parties(r), id, c, m, Parties(r));
  }

  lemma ExitByRecovery(s: State, id: u64)
    requires Ready(s, id) && s.g.cfg.recoveryMode
    ensures s.recs[id].escrow.buyer.Some? && CanExit(s, id, Parties(s.recs[id]))
  {
    ReadyFacts(s, id);
    var r := s.recs[id];
    var m := RecoveryWorks(s.g, r);
    var c := RecoveryCloses(s.g, Parties(r), id, r, r.escrow.buyer.value, m);
    FinishingCall(s, Parties(r), id, c, m, Parties(r));
  }

  lemma ExitByOverride(s: State, id: u64)
    requires Ready(s, id) && s.recs[id].escrow.state == PendingFinalization && s.recs[id].escrow.buyer.Some?
    requires s.g.admin in Parties(s.recs[id])
    ensures CanExit(s, id, Parties(s.recs[id]))
  {
    ReadyFacts(s, id);
    var r := s.recs[id];
    var m := OverrideWorks(s.g, r);
    var c := OverrideCloses(s.g, Parties(r), id, r, s.g.admin, m);
    FinishingCall(s, Parties(r), id, c, m, Parties(r));
  }

  lemma ExitByFinalization(s: State, id: u64)
    requires Ready(s, id) && s.recs[id].escrow.state == PendingFinalization && FeeFree(s.g, s.recs[id])
    requires s.g.now + APPEAL_WINDOW <= MAX_U64
    ensures s.recs[id].escrow.buyer.Some? && CanExit(s, id, Parties(s.recs[id]))
  {
    ReadyFacts(s, id);
    var r := s.recs[id];
    var s1 := At(s, s.g.now + APPEAL_WINDOW);
    WaitReaches(s, s.g.now + APPEAL_WINDOW);
    MatureFinalization(s1, id);
    Wait(s, s.g.now + APPEAL_WINDOW, id, Parties(r));
  }

  lemma MatureFinalization(s: State, id: u64)
    requires Ready(s, id) && s.recs[id].escrow.state == PendingFinalization && FeeFree(s.g, s.recs[id])
    requires s.recs[id].dispute.Some? && s.recs[id].dispute.value.resolvedAt + APPEAL_WINDOW <= s.g.now
    ensures s.recs[id].escrow.buyer.Some? && CanExit(s, id, Parties(s.recs[id]))
  {
    ReadyFacts(s, id);
    var r := s.recs[id];
    var m := FinalizationWorks(s.g, r);
    var c := FinalizationCloses(s.g, Parties(r), id, r, r.escrow.buyer.value, m);
    FinishingCall(s, Parties(r), id, c, m, Parties(r));
  }

  /** A resolved dispute: wait out the appeal window, or have the admin among the parties override it. */
  lemma ExitResolved(s: State, id: u64)
    requires Ready(s, id) && s.recs[id].escrow.state == PendingFinalization && s.recs[id].escrow.buyer.Some?
    requires s.g.now + APPEAL_WINDOW <= MAX_U64 && !FeeBlocked(s.g, s.recs[id], Parties(s.recs[id]))
    ensures CanExit(s, id, Parties(s.recs[id]))
  {
    ReadyFacts(s, id);
    if FeeFree(s.g, s.recs[id]) {
      ExitByFinalization(s, id);
    } else {
      ExitByOverride(s, id);
    }
  }

  /** A dispute past its timeout, ready to be claimed by the parties. */
  ghost predicate TimedOut(s: State, id: u64) {
    && Ready(s, id) && s.recs[id].escrow.state == Disputed
    && s.recs[id].dispute.Some? && s.recs[id].escrow.buyer.Some?
    && s.recs[id].dispute.value.disputedAt + s.g.cfg.disputeTimeout <= s.g.now
    && s.g.now + APPEAL_WINDOW <= MAX_U64
  }

  ghost function TimeoutClaim(s: State, id: u64): Input
    requires id in s.recs && s.recs[id].escrow.buyer.Some?
  {
    Input(Parties(s.recs[id]), Call.ClaimDisputeTimeout(id, s.recs[id].escrow.buyer.value))
  }

  /** Claim the timeout, then exit as from a resolved dispute. */
  lemma ExitByTimeout(s: State, id: u64)
    requires TimedOut(s, id) && !FeeBlocked(s.g, s.recs[id], Parties(s.recs[id]))
    ensures CanExit(s, id, Parties(s.recs[id]))
  {
    var i := TimeoutClaim(s, id);
    TimeoutLeavesReady(s, id);
    ExitResolved(Next(s, i), id);
    ExitStep(s, i, Next(s, i), id, Parties(s.recs[id]));
  }

  lemma TimeoutLeavesReady(s: State, id: u64)
    requires TimedOut(s, id)
    ensures var s' := Next(s, TimeoutClaim(s, id));
            && Ready(s', id) && s'.g == s.g && s'.recs[id].escrow.state == PendingFinalization
            && s'.recs[id].escrow.buyer.Some? && Parties(s'.recs[id]) == Parties(s.recs[id])
            && Principal(s'.recs[id]) == Principal(s.recs[id])
  {
    TimeoutGoesThrough(s, id);
    Traces.OneStep(Next, s, TimeoutClaim(s, id));
    StillReachable(s, Next(s, TimeoutClaim(s, id)));
  }

  lemma TimeoutGoesThrough(s: State, id: u64)
    requires TimedOut(s, id)
    ensures var s' := Next(s, TimeoutClaim(s, id));
            s'.g == s.g && id in s'.recs && ResolvedWithTerms(s.recs[id], s'.recs[id])
  {
    TimeoutPlan(s, id);
    PlanGoesThrough(s, TimeoutClaim(s, id).signers, TimeoutClaim(s, id).call);
  }

  /** `b` is resolved, between the parties of `r` and over the same principal. */
  ghost predicate ResolvedWithTerms(r: Rec, b: Rec) {
    && b.escrow.state == PendingFinalization && b.escrow.buyer == r.escrow.buyer
    && Primary(b) == Primary(r) && Principal(b) == Principal(r)
  }

  lemma TimeoutPlan(s: State, id: u64)
    requires TimedOut(s, id)
    ensures var r := s.recs[id];
            var plan := Disputes.ClaimDisputeTimeout(s.g, Parties(r), Some(r), r.escrow.buyer.value);
            plan.Ok? && plan.value.arbitrationTotal.None? && ResolvedWithTerms(r, plan.value.rec)
  {
    ReadyFacts(s, id);
    TimeoutWorks(s.g, s.recs[id]);
    TimeoutKeepsTerms(s.g, Parties(s.recs[id]), s.recs[id], s.recs[id].escrow.buyer.value);
  }

  lemma TimeoutKeepsTerms(g: Globals, signers: Signers, r: Rec, caller: Address)
    requires RecOk(r, g.now) && GlobalsOk(g) && Disputes.ClaimDisputeTimeout(g, signers, Some(r), caller).Ok?
    ensures ResolvedWithTerms(r, Disputes.ClaimDisputeTimeout(g, signers, Some(r), caller).value.rec)
  {
  }

  lemma ExitByDispute(s: State, id: u64)
    requires Ready(s, id) && Operating(s.g) && s.recs[id].escrow.state == Disputed
    requires s.recs[id].escrow.buyer.Some? && !FeeBlocked(s.g, s.recs[id], Parties(s.recs[id]))
    ensures CanExit(s, id, Parties(s.recs[id]))
  {
    ReadyFacts(s, id);
    var to := s.g.now + s.g.cfg.disputeTimeout;
    WaitReaches(s, to);
    ExitByTimeout(At(s, to), id);
    Wait(s, to, id, Parties(s.recs[id]));
  }

  // ── The two exceptions ──

  /** A refund request past its expiry, with recovery mode off. */
  ghost predicate Stuck(s: State, id: u64) {
    id in s.recs && ExpiredRefundRequest(s.recs[id], s.g.now) && !s.g.cfg.recoveryMode
  }

  /** In that state no call on the escrow moves it, other than a recovery withdrawal. */
  lemma StuckPlan(g: Globals, signers: Signers, c: Call, r: Rec)
    requires ActsOnEscrow(c) && ExpiredRefundRequest(r, g.now) && Plan(g, signers, c, Some(r)).Ok?
    ensures c.RecoveryWithdraw? ==> g.cfg.recoveryMode
    ensures !c.RecoveryWithdraw? ==>
              var b := Plan(g, signers, c, Some(r)).value.rec;
              && b.escrow.state == RefundRequested && b.expiry == r.expiry && b.escrow.expiresAt == r.escrow.expiresAt
  {
  }

  lemma StuckCall(s: State, signers: Signers, c: Call, id: u64)
    requires Stuck(s, id) && ActsOnEscrow(c) && c.id == id && Exec(s, signers, c).Ok?
    ensures Stuck(Exec(s, signers, c).value, id)
  {
    ExecIsCommit(s, signers, c);
    StuckPlan(s.g, signers, c, s.recs[id]);
  }

  lemma StuckStep(s: State, i: Input, id: u64, parties: Signers)
    requires Stuck(s, id) && ByParties(i, id, parties)
    ensures Stuck(Next(s, i), id)
  {
    if ActsOnEscrow(i.call) && Exec(s, i.signers, i.call).Ok? {
      StuckCall(s, i.signers, i.call, id);
    }
  }

  lemma {:induction false} StuckAlong(states: seq<State>, inputs: seq<Input>, id: u64, parties: Signers, n: nat)
    requires Traces.Trace(Next, states, inputs) && n <= |inputs| && Stuck(states[0], id)
    requires forall k :: 0 <= k < |inputs| ==> ByParties(inputs[k], id, parties)
    ensures Stuck(states[n], id)
  {
    if n > 0 {
      StuckAlong(states, inputs, id, parties, n - 1);
      StuckStep(states[n - 1], inputs[n - 1], id, parties);
    }
  }

  lemma StuckCannotExit(s: State, id: u64, parties: Signers)
    requires Stuck(s, id)
    ensures !CanExit(s, id, parties)
  {
    if CanExit(s, id, parties) {
      var states, inputs, s' :| ExitPath(states, inputs, s, s', id, parties);
      StuckAlong(states, inputs, id, parties, |inputs|);
      assert false;
    }
  }

  // A dispute that a positive platform fee keeps from being finalized.

  ghost predicate FeeStuck(s: State, id: u64, parties: Signers) {
    && Reachable(s) && !s.g.cfg.paused && !s.g.cfg.recoveryMode
    && id in s.recs && FeeBlocked(s.g, s.recs[id], parties)
  }

  lemma FeeStopsFinalization(g: Globals, signers: Signers, r: Rec, caller: Address, parties: Signers)
    requires RecOk(r, g.now) && GlobalsOk(g) && g.cfg.treasury.None? && FeeBlocked(g, r, parties)
    ensures Disputes.FinalizeDispute(g, signers, Some(r), caller).Err?
  {
    if r.escrow.state == PendingFinalization {
      Outcomes.Finalizable(g, signers, r, caller);
    }
  }

  /** No other call of the parties closes a disputed escrow. */
  lemma PartiesKeepDispute(g: Globals, signers: Signers, c: Call, r: Rec)
    requires ActsOnEscrow(c) && !c.FinalizeDispute? && !g.cfg.paused && !g.cfg.recoveryMode
    requires InDispute(r) && g.admin !in signers && Plan(g, signers, c, Some(r)).Ok?
    ensures InDispute(Plan(g, signers, c, Some(r)).value.rec)
  {
    if IsDisputeCall(c) {
      DisputeCallKeepsDispute(g, signers, c, r);
    } else {
      LifecycleCallKeepsDispute(g, signers, c, r);
    }
  }

  lemma DisputeCallKeepsDispute(g: Globals, signers: Signers, c: Call, r: Rec)
    requires IsDisputeCall(c) && !c.FinalizeDispute?
    requires InDispute(r) && g.admin !in signers && Plan(g, signers, c, Some(r)).Ok?
    ensures InDispute(Plan(g, signers, c, Some(r)).value.rec)
  {
  }

  lemma LifecycleCallKeepsDispute(g: Globals, signers: Signers, c: Call, r: Rec)
    requires ActsOnEscrow(c) && !IsDisputeCall(c) && !g.cfg.paused && !g.cfg.recoveryMode
    requires InDispute(r) && Plan(g, signers, c, Some(r)).Ok?
    ensures InDispute(Plan(g, signers, c, Some(r)).value.rec)
  {
  }

  lemma FeeStopsThem(s: State, signers: Signers, id: u64, caller: Address, parties: Signers)
    requires FeeStuck(s, id, parties)
    ensures Disputes.FinalizeDispute(s.g, signers, Some(s.recs[id]), caller).Err?
  {
    RecordInOrder(s, id);
    Outcomes.GoodSettings(s);
    Outcomes.TreasuryNeverSet(s);
    FeeStopsFinalization(s.g, signers, s.recs[id], caller, parties);
  }

  lemma CallKeepsPrincipal(s: State, signers: Signers, c: Call)
    requires Reachable(s) && ActsOnEscrow(c) && Exec(s, signers, c).Ok?
    ensures c.id in s.recs && Plan(s.g, signers, c, Some(s.recs[c.id])).Ok?
    ensures Principal(Plan(s.g, signers, c, Some(s.recs[c.id])).value.rec) == Principal(s.recs[c.id])
  {
    ReachableInv(s);
    EscrowCallEvolves(s, signers, c);
  }

  lemma FeeStuckCall(s: State, signers: Signers, c: Call, id: u64, parties: Signers)
    requires FeeStuck(s, id, parties) && ActsOnEscrow(c) && c.id == id && signers <= parties
    requires Exec(s, signers, c).Ok?
    ensures Plan(s.g, signers, c, Some(s.recs[id])).Ok?
    ensures var b := Plan(s.g, signers, c, Some(s.recs[id])).value.rec;
            InDispute(b) && Principal(b) == Principal(s.recs[id])
  {
    CallKeepsPrincipal(s, signers, c);
    if c.FinalizeDispute? {
      FeeStopsThem(s, signers, id, c.caller, parties);
      assert false;
    } else {
      PartiesKeepDispute(s.g, signers, c, s.recs[id]);
    }
  }

  lemma FeeStuckStep(s: State, i: Input, id: u64, parties: Signers)
    requires FeeStuck(s, id, parties) && ByParties(i, id, parties)
    ensures FeeStuck(Next(s, i), id, parties)
  {
    Traces.OneStep(Next, s, i);
    StillReachable(s, Next(s, i));
    if ActsOnEscrow(i.call) && Exec(s, i.signers, i.call).Ok? {
      FeeStuckCall(s, i.signers, i.call, id, parties);
      ExecIsCommit(s, i.signers, i.call);
    }
  }

  lemma {:induction false} FeeStuckAlong(states: seq<State>, inputs: seq<Input>, id: u64, parties: Signers, n: nat)
    requires Traces.Trace(Next, states, inputs) && n <= |inputs| && FeeStuck(states[0], id, parties)
    requires forall k :: 0 <= k < |inputs| ==> ByParties(inputs[k], id, parties)
    ensures FeeStuck(states[n], id, parties)
  {
    if n > 0 {
      FeeStuckAlong(states, inputs, id, parties, n - 1);
      FeeStuckStep(states[n - 1], inputs[n - 1], id, parties);
    }
  }

  lemma FeeStuckCannotExit(s: State, id: u64, parties: Signers)
    requires FeeStuck(s, id, parties)
    ensures !CanExit(s, id, parties)
  {
    if CanExit(s, id, parties) {
      var states, inputs, s' :| ExitPath(states, inputs, s, s', id, parties);
      FeeStuckAlong(states, inputs, id, parties, |inputs|);
      assert false;
    }
  }

  // ── Exactly when ──

  lemma ExitExists(s: State, id: u64)
    requires Ready(s, id) && Operating(s.g) && s.recs[id].escrow.buyer.Some?
    requires !ExpiredRefundRequest(s.recs[id], s.g.now) && !FeeBlocked(s.g, s.recs[id], Parties(s.recs[id]))
    ensures CanExit(s, id, Parties(s.recs[id]))
  {
    match s.recs[id].escrow.state
    case Funded => ExitByCancellation(s, id);
    case Shipped => ExitByCancellation(s, id);
    case RefundRequested => ExitByApproval(s, id);
    case Disputed => ExitByDispute(s, id);
    case PendingFinalization => ExitResolved(s, id);
    case _ => assert false;
  }

  /** With nothing paused, buyer and primary payee can finish every funded escrow by themselves, given time, exactly
      when recovery mode is on, or it is neither a refund request past its expiry nor a dispute that owes a positive
      platform fee while the admin is a third party. */
  lemma PartiesCanExitIff(s: State, id: u64)
    requires Reachable(s) && id in s.recs && Live(s.recs[id].escrow.state) && Operating(s.g)
    ensures s.recs[id].escrow.buyer.Some?
    ensures CanExit(s, id, Parties(s.recs[id])) <==>
            || s.g.cfg.recoveryMode
            || (!ExpiredRefundRequest(s.recs[id], s.g.now) && !FeeBlocked(s.g, s.recs[id], Parties(s.recs[id])))
  {
    ReadyFacts(s, id);
    if s.g.cfg.recoveryMode {
      ExitByRecovery(s, id);
    } else if ExpiredRefundRequest(s.recs[id], s.g.now) {
      StuckCannotExit(s, id, Parties(s.recs[id]));
    } else if FeeBlocked(s.g, s.recs[id], Parties(s.recs[id])) {
      FeeStuckCannotExit(s, id, Parties(s.recs[id]));
    } else {
      ExitExists(s, id);
    }
  }

  // ── Pending escrows past their expiry ──

  ghost predicate ExpiredPending(s: State, id: u64) {
    id in s.recs && s.recs[id].escrow.state == Pending && PastExpiry(s.recs[id], s.g.now)
  }

  lemma ExpiredPendingPlan(g: Globals, signers: Signers, c: Call, r: Rec)
    requires ActsOnEscrow(c) && r.escrow.state == Pending && PastExpiry(r, g.now) && Plan(g, signers, c, Some(r)).Ok?
    ensures var b := Plan(g, signers, c, Some(r)).value.rec;
            b.escrow.state == Pending && b.expiry == r.expiry && b.escrow.expiresAt == r.escrow.expiresAt
  {
  }

  lemma ExpiredPendingCall(s: State, signers: Signers, c: Call, id: u64)
    requires ExpiredPending(s, id) && ActsOnEscrow(c) && Exec(s, signers, c).Ok?
    ensures ExpiredPending(Exec(s, signers, c).value, id)
  {
    ExecIsCommit(s, signers, c);
    if c.id == id {
      ExpiredPendingPlan(s.g, signers, c, s.recs[id]);
    }
  }

  lemma ExtendedStaysExpired(s: State, s': State, id: u64)
    requires ExpiredPending(s, id) && Extends(s, s') && s.g.now <= s'.g.now
    ensures ExpiredPending(s', id)
  {
  }

  lemma ExpiredPendingStep(s: State, i: Input, id: u64)
    requires Inv(s) && ExpiredPending(s, id)
    ensures ExpiredPending(Next(s, i), id)
  {
    if Exec(s, i.signers, i.call).Ok? {
      if ActsOnEscrow(i.call) {
        ExpiredPendingCall(s, i.signers, i.call, id);
      } else {
        OtherStepExtends(s, i.signers, i.call);
        ExtendedStaysExpired(s, Exec(s, i.signers, i.call).value, id);
      }
    }
  }

  /** An unfunded escrow that reaches its expiry stays `Pending` for good: it can be neither funded nor canceled, by
      anyone, in any run, whatever the settings become. */
  lemma ExpiredPendingForever(s: State, id: u64, s': State)
    requires Reachable(s) && ExpiredPending(s, id) && Leads(s, s')
    ensures id in s'.recs && s'.recs[id].escrow.state == Pending
  {
    ReachableInv(s);
    var good := (b: State) => Inv(b) && ExpiredPending(b, id);
    forall b, i | good(b) ensures good(Next(b, i)) {
      NextKeeps(b, i);
      ExpiredPendingStep(b, i, id);
    }
    Traces.Throughout(Next, good, (a: State, b: State) => true, s, s');
  }

  /** With nothing paused, a seller, alone or with anybody else, can finish an unfunded escrow exactly until its
      expiry. */
  lemma PendingCanExitIff(s: State, id: u64, parties: Signers)
    requires Reachable(s) && id in s.recs && s.recs[id].escrow.state == Pending
    requires !s.g.cfg.paused && s.g.pausedActions == {} && Primary(s.recs[id]) in parties
    ensures CanExit(s, id, parties) <==> !PastExpiry(s.recs[id], s.g.now)
  {
    var r := s.recs[id];
    if !PastExpiry(r, s.g.now) {
      ReachableSellersSign(s);
      var m := CancellationWorks(s.g, r);
      var c := CancellationCloses(s.g, {Primary(r)}, id, r, Primary(r), m);
      FinishingCall(s, {Primary(r)}, id, c, m, parties);
    } else if CanExit(s, id, parties) {
      var states, inputs, s' :| ExitPath(states, inputs, s, s', id, parties);
      ExpiredPendingForever(s, id, s');
      assert false;
    }
  }

  // ── Pending escrows that nobody can fund ──

  /** Somebody, with whatever signatures, gets the escrow funded through one of the two entry points. */
  ghost predicate Fundable(g: Globals, r: Rec) {
    exists signers, buyer ::
      || Lifecycle.FundEscrow(g, signers, Some(r), buyer).Ok?
      || Lifecycle.FundBasketEscrow(g, signers, Some(r), buyer).Ok?
  }

  /** An escrow with a designated buyer, pending and in time, can be funded exactly when that buyer is neither a payee
      nor a resolver nor the contract itself. `create_escrow_multi` and `create_escrow_with_fallback` let a payee
      through. */
  lemma DesignatedFundableIff(g: Globals, r: Rec)
    requires r.escrow.state == Pending && r.escrow.buyer.Some? && 0 <= r.escrow.amount
    requires Active(g, "FUND").Pass? && FundingNotExpired(g, r).Pass? && g.now + DISPUTE_WINDOW <= MAX_U64
    ensures Fundable(g, r) <==>
            var b := r.escrow.buyer.value;
            b != Contract && !IsPayee(r.escrow.payees, b) && !IsResolver(r.escrow.resolvers, b)
  {
    var b := r.escrow.buyer.value;
    assert Lifecycle.FundEscrow(g, {b}, Some(r), b).Ok? ==> Fundable(g, r);
  }

  ghost predicate SelfDealing(r: Rec) {
    r.escrow.state == Pending && r.escrow.buyer.Some? && IsPayee(r.escrow.payees, r.escrow.buyer.value)
  }

  ghost predicate NeverFunded(s: State, id: u64) {
    id in s.recs && (SelfDealing(s.recs[id]) || s.recs[id].escrow.state == Canceled)
  }

  lemma SelfDealingPlan(g: Globals, signers: Signers, c: Call, r: Rec)
    requires ActsOnEscrow(c) && (SelfDealing(r) || r.escrow.state == Canceled) && Plan(g, signers, c, Some(r)).Ok?
    ensures var b := Plan(g, signers, c, Some(r)).value.rec; SelfDealing(b) || b.escrow.state == Canceled
  {
    if IsDisputeCall(c) {
      SelfDealingUndisputed(g, signers, c, r);
    }
  }

  lemma SelfDealingUndisputed(g: Globals, signers: Signers, c: Call, r: Rec)
    requires IsDisputeCall(c) && (r.escrow.state == Pending || r.escrow.state == Canceled)
    ensures !Plan(g, signers, c, Some(r)).Ok?
  {
  }

  lemma NeverFundedCall(s: State, signers: Signers, c: Call, id: u64)
    requires NeverFunded(s, id) && ActsOnEscrow(c) && Exec(s, signers, c).Ok?
    ensures NeverFunded(Exec(s, signers, c).value, id)
  {
    ExecIsCommit(s, signers, c);
    if c.id == id {
      SelfDealingPlan(s.g, signers, c, s.recs[id]);
    }
  }

  lemma NeverFundedStep(s: State, i: Input, id: u64)
    requires Inv(s) && NeverFunded(s, id)
    ensures NeverFunded(Next(s, i), id)
  {
    if Exec(s, i.signers, i.call).Ok? {
      if ActsOnEscrow(i.call) {
        NeverFundedCall(s, i.signers, i.call, id);
      } else {
        OtherStepExtends(s, i.signers, i.call);
      }
    }
  }

  /** An escrow whose designated buyer is also a payee is never funded, by anyone, in any run. */
  lemma SelfDealingNeverFunded(s: State, id: u64, s': State)
    requires Reachable(s) && id in s.recs && SelfDealing(s.recs[id]) && Leads(s, s')
    ensures id in s'.recs && (s'.recs[id].escrow.state == Pending || s'.recs[id].escrow.state == Canceled)
  {
    ReachableInv(s);
    var good := (b: State) => Inv(b) && NeverFunded(b, id);
    forall b, i | good(b) ensures good(Next(b, i)) {
      NextKeeps(b, i);
      NeverFundedStep(b, i, id);
    }
    Traces.Throughout(Next, good, (a: State, b: State) => true, s, s');
  }
}
