/** How disputes end: the outcome follows the deciding ballot, a deadlock ruling is always backed, finalization
    pays exactly what an indexer derives, and what the stored resolution says afterwards. */
module Outcomes {
  import opened Types
  import Fees
  import opened Voting
  import opened History
  import opened Records
  import opened RecordInvariant
  import opened Machine
  import opened Runs
  import Creation
  import Disputes

  // ── Ballots ──

  /** The dispute record of a reachable escrow in `Disputed` or `PendingFinalization`. */
  lemma OpenDispute(s: State, id: u64)
    requires Reachable(s) && id in s.recs
    ensures s.recs[id].escrow.state == Disputed || s.recs[id].escrow.state == PendingFinalization ==>
            s.recs[id].dispute.Some?
    ensures s.recs[id].escrow.state == Disputed ==>
              && DistinctVoters(s.recs[id].votes)
              && EligibleVoters(s.recs[id].escrow.resolvers, s.recs[id].votes, s.g.now)
              && Undecided(s.recs[id].votes, Threshold(s.recs[id].escrow.resolvers))
  {
    RecordInOrder(s, id);
  }

  /** While a dispute is open, stored ballots come from distinct eligible resolvers and neither side has won. A
      ballot that resolves it sets the outcome to that very ballot, so testing Release first never matters; any
      other ballot leaves the dispute open and undecided. */
  lemma OutcomeFollowsDecidingBallot(s: State, signers: Signers, id: u64, caller: Address, ballot: Ballot)
    requires Reachable(s) && id in s.recs && Disputes.CastVote(s.g, signers, Find(s, id), caller, ballot).Ok?
    ensures var (r, b) := (s.recs[id], Disputes.CastVote(s.g, signers, Find(s, id), caller, ballot).value.rec);
            var mine := Tally(Cast(r.votes, caller, ballot, s.g.now), ballot);
            && b.votes == Cast(r.votes, caller, ballot, s.g.now)
            && (mine >= Threshold(r.escrow.resolvers) ==>
                  && b.escrow.state == PendingFinalization && b.dispute.Some?
                  && RecordedResolution(b.dispute.value) == Some(ballot) && b.dispute.value.resolvedBy == Some(caller))
            && (mine < Threshold(r.escrow.resolvers) ==>
                  b.escrow.state == Disputed && Undecided(b.votes, Threshold(b.escrow.resolvers)))
  {
    OpenDispute(s, id);
    BallotOutcome(s.g, signers, s.recs[id], caller, ballot);
  }

  lemma BallotOutcome(g: Globals, signers: Signers, r: Rec, caller: Address, ballot: Ballot)
    requires Disputes.CastVote(g, signers, Some(r), caller, ballot).Ok? && DistinctVoters(r.votes)
    requires r.escrow.state == Disputed ==> r.dispute.Some? && Undecided(r.votes, Threshold(r.escrow.resolvers))
    ensures var b := Disputes.CastVote(g, signers, Some(r), caller, ballot).value.rec;
            var mine := Tally(Cast(r.votes, caller, ballot, g.now), ballot);
            && b.votes == Cast(r.votes, caller, ballot, g.now)
            && (mine >= Threshold(r.escrow.resolvers) ==>
                  && b.escrow.state == PendingFinalization && b.dispute.Some?
                  && RecordedResolution(b.dispute.value) == Some(ballot) && b.dispute.value.resolvedBy == Some(caller))
            && (mine < Threshold(r.escrow.resolvers) ==>
                  b.escrow.state == Disputed && Undecided(b.votes, Threshold(b.escrow.resolvers)))
  {
    DecidingBallotWins(r.votes, caller, ballot, g.now, Threshold(r.escrow.resolvers));
  }

  /** The guard of the deadlock ruling against decided votes, and the one against a missing backer, never fire: once
      the window has elapsed with a ballot cast, the ruling is the majority's, credited to a resolver who voted so. */
  lemma DeadlockRulingIsBacked(s: State, id: u64)
    requires Reachable(s) && id in s.recs && Active(s.g, "resolve_deadlocked_dispute").Pass?
    requires s.recs[id].escrow.state == Disputed && s.recs[id].votes != []
    ensures s.recs[id].dispute.Some?
    ensures s.recs[id].dispute.value.disputedAt + DISPUTE_DEADLOCK_WINDOW <= s.g.now ==>
              var r := s.recs[id];
              exists i :: 0 <= i < |r.votes| && r.votes[i].ballot == Majority(r.votes)
                && IsResolver(r.escrow.resolvers, r.votes[i].resolver)
                && Disputes.ResolveDeadlockedDispute(s.g, Some(r))
                   == Disputes.Resolve(s.g, r, r.votes[i].resolver, Majority(r.votes), r.votes, true)
  {
    OpenDispute(s, id);
    var r := s.recs[id];
    MajorityHasBacker(r.votes);
    VoterForFinds(r.votes, Majority(r.votes));
    var i :| 0 <= i < |r.votes| && r.votes[i].ballot == Majority(r.votes)
             && VoterFor(r.votes, Majority(r.votes)).value == r.votes[i].resolver;
    assert CanResolve(r.escrow.resolvers, r.votes[i].resolver, s.g.now);
    if r.dispute.value.disputedAt + DISPUTE_DEADLOCK_WINDOW <= s.g.now {
      assert Disputes.ResolveDeadlockedDispute(s.g, Some(r))
          == Disputes.Resolve(s.g, r, r.votes[i].resolver, Majority(r.votes), r.votes, true);
    }
  }

  // ── The treasury ──

  ghost predicate NoTreasury(s: State) {
    s.g.cfg.treasury.None? && s.g.pendingTreasury.None?
  }

  lemma SettingKeepsNoTreasury(g: Globals, setting: Setting)
    requires g.cfg.treasury.None? && g.pendingTreasury.None? && ApplySetting(g, setting).Ok?
    ensures var g' := ApplySetting(g, setting).value; g'.cfg.treasury.None? && g'.pendingTreasury.None?
  {
  }

  lemma {:induction false} IssueAllKeepsGlobals(s: State, seller: Address, inputs: seq<Creation.Terms>)
    requires IssueAll(s, seller, inputs).Ok?
    ensures IssueAll(s, seller, inputs).value.g == s.g
    decreases |inputs|
  {
    if inputs != [] {
      var terms := inputs[0].(payees := Creation.SoleSeller(seller), expiresAt := None, gracePeriod := 0);
      IssueAllKeepsGlobals(Issue(s, Creation.CreateInternal(s.g, terms)).value, seller, inputs[1..]);
    }
  }

  lemma CallKeepsNoTreasury(s: State, signers: Signers, c: Call)
    requires NoTreasury(s) && ActsOnEscrow(c) && Exec(s, signers, c).Ok?
    ensures NoTreasury(Exec(s, signers, c).value)
  {
  }

  lemma NextKeepsNoTreasury(s: State, i: Input)
    requires NoTreasury(s)
    ensures NoTreasury(Next(s, i))
  {
    if Exec(s, i.signers, i.call).Ok? {
      if ActsOnEscrow(i.call) {
        CallKeepsNoTreasury(s, i.signers, i.call);
      } else if i.call.BatchCreateEscrow? {
        IssueAllKeepsGlobals(s, i.call.seller, i.call.inputs);
      } else if i.call.ChangeSetting? {
        SettingKeepsNoTreasury(s.g, i.call.setting);
      }
    }
  }

  /** `set_treasury` replaces a treasury but cannot install the first one, and `initialize` installs none: no run ever
      has a treasury. */
  lemma TreasuryNeverSet(s: State)
    requires Reachable(s)
    ensures NoTreasury(s)
  {
    forall b, i | NoTreasury(b) ensures NoTreasury(Next(b, i)) {
      NextKeepsNoTreasury(b, i);
    }
    Inductive(NoTreasury, s);
  }

  // ── Finalization ──

  /** A finalization succeeds exactly when its guards pass and the platform fee floors to zero. A positive platform
      fee therefore blocks every finalization, because no run has a treasury to pay it to. */
  lemma FinalizationEnabledIff(s: State, signers: Signers, id: u64, caller: Address)
    requires Reachable(s) && id in s.recs && s.recs[id].escrow.state == PendingFinalization
    ensures s.recs[id].dispute.Some? && 0 < Principal(s.recs[id])
    ensures Disputes.FinalizeDispute(s.g, signers, Find(s, id), caller).Ok? <==>
              && Signed(signers, caller).Pass? && Active(s.g, "finalize_dispute").Pass?
              && s.recs[id].dispute.value.resolvedAt + APPEAL_WINDOW <= s.g.now
              && Fees.FloorFee(Principal(s.recs[id]), s.g.cfg.platformFeeBps) == 0
  {
    TreasuryNeverSet(s);
    RecordInOrder(s, id);
    GoodSettings(s);
    Finalizable(s.g, signers, s.recs[id], caller);
  }

  lemma GoodSettings(s: State)
    requires Reachable(s)
    ensures GlobalsOk(s.g)
  {
    ReachableInv(s);
  }

  lemma Finalizable(g: Globals, signers: Signers, r: Rec, caller: Address)
    requires RecOk(r, g.now) && GlobalsOk(g) && g.cfg.treasury.None? && r.escrow.state == PendingFinalization
    ensures r.dispute.Some? && 0 < Principal(r)
    ensures Disputes.FinalizeDispute(g, signers, Some(r), caller).Ok? <==>
              && Signed(signers, caller).Pass? && Active(g, "finalize_dispute").Pass?
              && r.dispute.value.resolvedAt + APPEAL_WINDOW <= g.now
              && Fees.FloorFee(Principal(r), g.cfg.platformFeeBps) == 0
  {
    SettlementDefined(g, r);
  }

  /** None of the checked operations of the waterfall overflows; only a missing treasury can stop it. */
  lemma SettlementDefined(g: Globals, r: Rec)
    requires AmountsOk(r) && GlobalsOk(g) && r.dispute.Some?
    ensures Disputes.Settlement(g, r, r.dispute.value).Ok? <==>
            Fees.FloorFee(Principal(r), g.cfg.platformFeeBps) == 0 || g.cfg.treasury.Some?
  {
    Fees.CappedFee(Principal(r), g.cfg.platformFeeBps, MAX_PLATFORM_FEE_BPS);
    Fees.CappedFee(Principal(r), r.escrow.feeBps, MAX_ESCROW_FEE_BPS);
  }

  /** Five non-negative shares that add up to the principal, 87% of it for the recipient, whose payout is the amount an
      indexer derives from the emitted event. */
  ghost predicate AddsUp(r: Rec, d: Dispute, w: Disputes.Waterfall) {
    && 0 <= d.arbitrationFee && 0 <= d.resolverFee && 0 <= w.platform && 0 <= w.protocol && 0 <= r.escrow.amount
    && d.arbitrationFee + d.resolverFee + w.platform + w.protocol + w.payout == Principal(r)
    && 8_700 * Principal(r) <= BASIS_POINTS * w.payout
    && r.escrow.feeBps <= BASIS_POINTS
    && w.payout == Fees.DeriveDisputeNetAmount(r.escrow.amount, d.arbitrationFee, d.resolverFee,
                                               w.platform, r.escrow.feeBps)
  }

  lemma SettlementAddsUp(g: Globals, r: Rec)
    requires AmountsOk(r) && GlobalsOk(g) && r.dispute.Some?
    requires Disputes.Settlement(g, r, r.dispute.value).Ok?
    ensures AddsUp(r, r.dispute.value, Disputes.Settlement(g, r, r.dispute.value).value)
  {
    WaterfallExact(g, r);
  }

  /** The waterfall of any finalization under settings within the caps, treasury or not, adds up. */
  lemma WaterfallAddsUp(s: State, id: u64, g: Globals)
    requires Reachable(s) && id in s.recs && s.recs[id].dispute.Some? && GlobalsOk(g)
    requires Disputes.Settlement(g, s.recs[id], s.recs[id].dispute.value).Ok?
    ensures AddsUp(s.recs[id], s.recs[id].dispute.value,
                   Disputes.Settlement(g, s.recs[id], s.recs[id].dispute.value).value)
  {
    RecordInOrder(s, id);
    SettlementAddsUp(g, s.recs[id]);
  }

  // ── What the stored resolution says afterwards ──

  /** The recorded resolution matches how the escrow was closed. */
  ghost predicate RecordMatchesClosing(r: Rec) {
    && r.dispute.Some?
    && (r.escrow.state == Completed ==> RecordedResolution(r.dispute.value) == Some(Release))
    && (r.escrow.state == Refunded ==> RecordedResolution(r.dispute.value) == Some(Refund))
  }

  /** Only finalization, the admin override and the two emergency exits close a resolved dispute. */
  lemma WhoClosesResolved(g: Globals, signers: Signers, c: Call, r: Rec)
    requires ActsOnEscrow(c) && r.escrow.state == PendingFinalization
    requires Plan(g, signers, c, Some(r)).Ok? && Plan(g, signers, c, Some(r)).value.rec.escrow.state != r.escrow.state
    ensures c.FinalizeDispute? || c.CancelPendingFinalization? || c.RecoveryWithdraw? || c.EmergencyDrain?
            || c.AppealDispute?
    ensures Terminal(Plan(g, signers, c, Some(r)).value.rec.escrow.state) <==> !c.AppealDispute?
  {
  }

  lemma FinalizationRecord(g: Globals, signers: Signers, r: Rec, caller: Address)
    requires Disputes.FinalizeDispute(g, signers, Some(r), caller).Ok?
    ensures RecordMatchesClosing(Disputes.FinalizeDispute(g, signers, Some(r), caller).value.rec)
  {
  }

  lemma OverrideRecord(g: Globals, signers: Signers, r: Rec, caller: Address)
    requires Disputes.CancelPendingFinalization(g, signers, Some(r), caller).Ok?
    ensures !RecordMatchesClosing(Disputes.CancelPendingFinalization(g, signers, Some(r), caller).value.rec)
  {
  }

  lemma EmergencyRecord(g: Globals, signers: Signers, c: Call, r: Rec)
    requires (c.RecoveryWithdraw? || c.EmergencyDrain?) && r.escrow.state == PendingFinalization && r.dispute.Some?
    requires Plan(g, signers, c, Some(r)).Ok?
    ensures RecordMatchesClosing(Plan(g, signers, c, Some(r)).value.rec)
            <==> RecordedResolution(r.dispute.value) == Some(Refund)
  {
  }

  /** A call that closes a resolved dispute leaves a record that matches the closing exactly when it is a
      finalization, or an emergency exit of a dispute that was resolved as a refund. The admin override never does:
      it refunds the buyer but stores code 1, which reads back as Release. */
  lemma RecordMatchesIff(s: State, signers: Signers, c: Call)
    requires Reachable(s) && ActsOnEscrow(c) && c.id in s.recs && s.recs[c.id].escrow.state == PendingFinalization
    requires Plan(s.g, signers, c, Some(s.recs[c.id])).Ok?
    requires Terminal(Plan(s.g, signers, c, Some(s.recs[c.id])).value.rec.escrow.state)
    ensures s.recs[c.id].dispute.Some?
    ensures RecordMatchesClosing(Plan(s.g, signers, c, Some(s.recs[c.id])).value.rec) <==>
            || c.FinalizeDispute?
            || (!c.CancelPendingFinalization? && RecordedResolution(s.recs[c.id].dispute.value) == Some(Refund))
  {
    OpenDispute(s, c.id);
    ClosingRecord(s.g, signers, c, s.recs[c.id]);
  }

  lemma ClosingRecord(g: Globals, signers: Signers, c: Call, r: Rec)
    requires ActsOnEscrow(c) && r.escrow.state == PendingFinalization && r.dispute.Some?
    requires Plan(g, signers, c, Some(r)).Ok? && Terminal(Plan(g, signers, c, Some(r)).value.rec.escrow.state)
    ensures RecordMatchesClosing(Plan(g, signers, c, Some(r)).value.rec) <==>
            c.FinalizeDispute? || (!c.CancelPendingFinalization? && RecordedResolution(r.dispute.value) == Some(Refund))
  {
    WhoClosesResolved(g, signers, c, r);
    if c.FinalizeDispute? {
      FinalizationRecord(g, signers, r, c.caller);
    } else if c.CancelPendingFinalization? {
      OverrideRecord(g, signers, r, c.caller);
    } else {
      EmergencyRecord(g, signers, c, r);
    }
  }

  /** Every admin override of a dispute pays the buyer everything and records a Release. */
  lemma OverrideRecordsRelease(g: Globals, signers: Signers, r: Rec, caller: Address)
    requires r.dispute.Some? && Disputes.CancelPendingFinalization(g, signers, Some(r), caller).Ok?
    ensures r.escrow.buyer.Some?
    ensures var m := Disputes.CancelPendingFinalization(g, signers, Some(r), caller).value;
            && m.rec.escrow.state == Refunded && m.pays == FullPayout(r, r.escrow.buyer.value)
            && m.rec.dispute.Some? && RecordedResolution(m.rec.dispute.value) == Some(Release)
  {
  }
}
