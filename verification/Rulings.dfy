/** How disputes are ruled, counted in resolvers: who may rule, how many it takes, what a timeout and a deadlock decide,
    and how long a ruling stands. */
module Rulings {
  import opened Types
  import opened Ledger
  import opened Voting
  import opened History
  import opened Records
  import opened RecordInvariant
  import opened Machine
  import opened Runs
  import opened Custody
  import Disputes
  import Traces

  // ── Ballots, counted in resolvers ──

  /** The resolvers whose standing ballot is `b`. */
  ghost function Backers(votes: seq<Vote>, b: Ballot): set<Address> {
    set i | 0 <= i < |votes| && votes[i].ballot == b :: votes[i].resolver
  }

  lemma BackersSplit(votes: seq<Vote>, b: Ballot)
    requires votes != []
    ensures Backers(votes, b)
         == Backers(votes[1..], b) + (if votes[0].ballot == b then {votes[0].resolver} else {})
  {
    forall a ensures a in Backers(votes, b) <==>
                     a in Backers(votes[1..], b) || (votes[0].ballot == b && a == votes[0].resolver)
    {
      if a in Backers(votes[1..], b) {
        var i :| 0 <= i < |votes[1..]| && votes[1..][i].ballot == b && votes[1..][i].resolver == a;
        assert votes[i + 1] == votes[1..][i];
      }
      if a in Backers(votes, b) && !(votes[0].ballot == b && a == votes[0].resolver) {
        var i :| 0 <= i < |votes| && votes[i].ballot == b && votes[i].resolver == a;
        assert votes[1..][i - 1] == votes[i];
      }
    }
  }

  /** A tally counts distinct resolvers. */
  lemma {:induction false} TallyCounts(votes: seq<Vote>, b: Ballot)
    requires DistinctVoters(votes)
    ensures Tally(votes, b) == |Backers(votes, b)|
  {
    if votes != [] {
      BackersSplit(votes, b);
      TallyCounts(votes[1..], b);
      forall i | 0 <= i < |votes[1..]| ensures votes[1..][i].resolver != votes[0].resolver {
        assert votes[1..][i] == votes[i + 1];
      }
    }
  }

  /** A ballot moves its caster to its own side and leaves everybody else where they were. */
  lemma CastMoves(votes: seq<Vote>, who: Address, b: Ballot, now: u64)
    requires DistinctVoters(votes)
    ensures DistinctVoters(Cast(votes, who, b, now))
    ensures Backers(Cast(votes, who, b, now), b) == Backers(votes, b) + {who}
    ensures forall x :: x != b ==> Backers(Cast(votes, who, b, now), x) == Backers(votes, x) - {who}
  {
    CastRecords(votes, who, b, now);
    var after := Cast(votes, who, b, now);
    forall x, a ensures a in Backers(after, x) <==> if a == who then x == b else a in Backers(votes, x) {
      Standing(after, a, x);
      Standing(votes, a, x);
      if a == who {
        assert Vote(who, b, now) in after;
      } else {
        assert forall v :: v in after && v.resolver == a <==> v in votes && v.resolver == a;
      }
    }
  }

  lemma Standing(votes: seq<Vote>, a: Address, x: Ballot)
    ensures a in Backers(votes, x) <==> exists v :: v in votes && v.resolver == a && v.ballot == x
  {
  }

  /** Who may rule at time `now`: the backup of a fallback pair only from its deadline on. */
  predicate MayRule(rs: ResolverSet, a: Address, now: u64) {
    match rs
    case Single(resolver) => a == resolver
    case Multi(members, _) => a in members
    case Fallback(primary, backup, deadline) => a == primary || (a == backup && deadline <= now)
  }

  /** How many resolvers must agree. */
  predicate Enough(rs: ResolverSet, backers: nat) {
    match rs
    case Multi(_, quorum) => quorum <= backers
    case _ => 1 <= backers
  }

  /** The stored code of a ruling. */
  function Code(b: Ballot): u32 {
    if b == Release then 1 else 2
  }

  /** `b` carries the ruling `outcome`, made now by `actor`. */
  ghost predicate RuledAs(b: Rec, outcome: Ballot, actor: Address, now: u64) {
    && b.escrow.state == PendingFinalization && b.dispute.Some?
    && b.dispute.value.active && b.dispute.value.resolution == Code(outcome)
    && b.dispute.value.resolvedBy == Some(actor) && b.dispute.value.resolvedAt == now
  }

  // ── A ballot ──

  /** The ballot joins those of its side; it settles the dispute when they are enough, and otherwise leaves it open. */
  ghost predicate BallotCounts(r: Rec, b: Rec, caller: Address, ballot: Ballot, now: u64) {
    var mine := Backers(r.votes, ballot) + {caller};
    && r.escrow.state == Disputed && MayRule(r.escrow.resolvers, caller, now)
    && Backers(b.votes, ballot) == mine
    && (forall x :: x != ballot ==> Backers(b.votes, x) == Backers(r.votes, x) - {caller})
    && if Enough(r.escrow.resolvers, |mine|) then RuledAs(b, ballot, caller, now)
       else b.escrow == r.escrow && b.dispute == r.dispute
  }

  lemma EnoughIsThreshold(rs: ResolverSet, votes: seq<Vote>, b: Ballot)
    requires DistinctVoters(votes)
    ensures Enough(rs, |Backers(votes, b)|) <==> Tally(votes, b) >= Threshold(rs)
  {
    TallyCounts(votes, b);
  }

  /** What a ballot does, by the tally of its side. */
  ghost predicate BallotTallied(r: Rec, b: Rec, caller: Address, ballot: Ballot, now: u64) {
    && r.escrow.state == Disputed && CanResolve(r.escrow.resolvers, caller, now)
    && b.votes == Cast(r.votes, caller, ballot, now)
    && if Tally(b.votes, ballot) >= Threshold(r.escrow.resolvers) then RuledAs(b, ballot, caller, now)
       else b.escrow == r.escrow && b.dispute == r.dispute
  }

  lemma PlannedTally(g: Globals, signers: Signers, r: Rec, caller: Address, ballot: Ballot)
    requires VotesOk(r, g.now) && DisputeOk(r, g.now) && Disputes.CastVote(g, signers, Some(r), caller, ballot).Ok?
    ensures BallotTallied(r, Disputes.CastVote(g, signers, Some(r), caller, ballot).value.rec, caller, ballot, g.now)
  {
    DecidingBallotWins(r.votes, caller, ballot, g.now, Threshold(r.escrow.resolvers));
  }

  lemma TalliedCounts(r: Rec, b: Rec, caller: Address, ballot: Ballot, now: u64)
    requires BallotTallied(r, b, caller, ballot, now) && DistinctVoters(r.votes)
    ensures BallotCounts(r, b, caller, ballot, now)
  {
    CastMoves(r.votes, caller, ballot, now);
    EnoughIsThreshold(r.escrow.resolvers, b.votes, ballot);
  }

  lemma PlannedBallot(g: Globals, signers: Signers, r: Rec, caller: Address, ballot: Ballot)
    requires VotesOk(r, g.now) && DisputeOk(r, g.now) && Disputes.CastVote(g, signers, Some(r), caller, ballot).Ok?
    ensures BallotCounts(r, Disputes.CastVote(g, signers, Some(r), caller, ballot).value.rec, caller, ballot, g.now)
  {
    PlannedTally(g, signers, r, caller, ballot);
    TalliedCounts(r, Disputes.CastVote(g, signers, Some(r), caller, ballot).value.rec, caller, ballot, g.now);
  }

  /** The record a successful call leaves under its id. */
  lemma CallLeaves(s: State, signers: Signers, c: Call)
    requires Reachable(s) && ActsOnEscrow(c) && Exec(s, signers, c).Ok?
    ensures c.id in s.recs && c.id in Exec(s, signers, c).value.recs
    ensures VotesOk(s.recs[c.id], s.g.now) && DisputeOk(s.recs[c.id], s.g.now) && s.g.maxAppeals <= MAX_MAX_APPEALS
    ensures Plan(s.g, signers, c, Some(s.recs[c.id])).Ok?
    ensures var m := Plan(s.g, signers, c, Some(s.recs[c.id])).value;
            Exec(s, signers, c).value.recs[c.id] == m.rec && Exec(s, signers, c).value.ledger == Pay(s.ledger, m.pays)
  {
    ReachableInv(s);
    ExecIsCommit(s, signers, c);
  }

  /** In every reachable state a successful ballot settles the dispute exactly when its side then counts enough distinct
      resolvers: the stored quorum of a committee, one for a single resolver or a fallback pair. The ruling is that very
      ballot. */
  lemma BallotDecides(s: State, signers: Signers, c: Call)
    requires Reachable(s) && c.CastVote? && Exec(s, signers, c).Ok?
    ensures c.id in s.recs && c.id in Exec(s, signers, c).value.recs
    ensures BallotCounts(s.recs[c.id], Exec(s, signers, c).value.recs[c.id], c.caller, c.ballot, s.g.now)
  {
    CallLeaves(s, signers, c);
    PlannedBallot(s.g, signers, s.recs[c.id], c.caller, c.ballot);
  }

  /** While a dispute is open, the standing ballots are those of resolvers who may rule, one each, and too few on either
      side. */
  lemma OpenBallots(s: State, id: u64)
    requires Reachable(s) && id in s.recs && s.recs[id].escrow.state == Disputed
    ensures var r := s.recs[id];
            forall b :: && !Enough(r.escrow.resolvers, |Backers(r.votes, b)|)
                        && forall a :: a in Backers(r.votes, b) ==>
                             MayRule(r.escrow.resolvers, a, s.g.now) && a !in Backers(r.votes, Opposite(b))
  {
    RecordInOrder(s, id);
    var r := s.recs[id];
    forall b ensures !Enough(r.escrow.resolvers, |Backers(r.votes, b)|) {
      EnoughIsThreshold(r.escrow.resolvers, r.votes, b);
    }
    forall b, a | a in Backers(r.votes, b)
      ensures MayRule(r.escrow.resolvers, a, s.g.now) && a !in Backers(r.votes, Opposite(b))
    {
      var i :| 0 <= i < |r.votes| && r.votes[i].ballot == b && r.votes[i].resolver == a;
      assert CanResolve(r.escrow.resolvers, r.votes[i].resolver, s.g.now);
      Standing(r.votes, a, Opposite(b));
    }
  }

  function Opposite(b: Ballot): Ballot {
    if b == Release then Refund else Release
  }

  // ── A deadlock ──

  /** The side with strictly more resolvers wins; a tie refunds. Some resolver of that side is credited. */
  ghost predicate MajorityRules(r: Rec, b: Rec, now: u64) {
    var outcome := if |Backers(r.votes, Release)| > |Backers(r.votes, Refund)| then Release else Refund;
    && b.votes == r.votes
    && exists actor :: actor in Backers(r.votes, outcome) && RuledAs(b, outcome, actor, now)
  }

  lemma PlannedDeadlock(g: Globals, r: Rec)
    requires VotesOk(r, g.now) && DisputeOk(r, g.now) && Disputes.ResolveDeadlockedDispute(g, Some(r)).Ok?
    ensures MajorityRules(r, Disputes.ResolveDeadlockedDispute(g, Some(r)).value.rec, g.now)
  {
    TallyCounts(r.votes, Release);
    TallyCounts(r.votes, Refund);
    var outcome := Majority(r.votes);
    VoterForFinds(r.votes, outcome);
    var i :| 0 <= i < |r.votes| && r.votes[i].ballot == outcome
             && VoterFor(r.votes, outcome).value == r.votes[i].resolver;
    assert r.votes[i].resolver in Backers(r.votes, outcome);
    DeadlockRuling(g, r);
  }

  lemma DeadlockRuling(g: Globals, r: Rec)
    requires DisputeOk(r, g.now) && Disputes.ResolveDeadlockedDispute(g, Some(r)).Ok?
    ensures VoterFor(r.votes, Majority(r.votes)).Some?
    ensures var b := Disputes.ResolveDeadlockedDispute(g, Some(r)).value.rec;
            b.votes == r.votes && RuledAs(b, Majority(r.votes), VoterFor(r.votes, Majority(r.votes)).value, g.now)
  {
  }

  lemma DeadlockFollowsMajority(s: State, signers: Signers, c: Call)
    requires Reachable(s) && c.ResolveDeadlockedDispute? && Exec(s, signers, c).Ok?
    ensures c.id in s.recs && c.id in Exec(s, signers, c).value.recs
    ensures MajorityRules(s.recs[c.id], Exec(s, signers, c).value.recs[c.id], s.g.now)
  {
    CallLeaves(s, signers, c);
    PlannedDeadlock(s.g, s.recs[c.id]);
  }

  // ── A timeout ──

  /** A claimed timeout rules a refund, in the caller's name, and touches no amount. */
  ghost predicate TimeoutRefunds(r: Rec, b: Rec, caller: Address, now: u64) {
    && RuledAs(b, Refund, caller, now) && b.votes == r.votes && r.dispute.Some?
    && b.escrow.amount == r.escrow.amount
    && (if r.dispute.value.feesCharged
        then b.dispute.value.arbitrationFee == r.dispute.value.arbitrationFee
             && b.dispute.value.resolverFee == r.dispute.value.resolverFee
        else b.dispute.value.arbitrationFee == 0 && b.dispute.value.resolverFee == 0)
  }

  lemma PlannedTimeout(g: Globals, signers: Signers, r: Rec, caller: Address)
    requires DisputeOk(r, g.now) && Disputes.ClaimDisputeTimeout(g, signers, Some(r), caller).Ok?
    ensures var m := Disputes.ClaimDisputeTimeout(g, signers, Some(r), caller).value;
            TimeoutRefunds(r, m.rec, caller, g.now) && m.pays == []
  {
  }

  lemma TimeoutRulesRefund(s: State, signers: Signers, c: Call)
    requires Reachable(s) && c.ClaimDisputeTimeout? && Exec(s, signers, c).Ok?
    ensures var s' := Exec(s, signers, c).value;
            && c.id in s.recs && c.id in s'.recs && s'.ledger == s.ledger
            && TimeoutRefunds(s.recs[c.id], s'.recs[c.id], c.caller, s.g.now)
  {
    CallLeaves(s, signers, c);
    PlannedTimeout(s.g, signers, s.recs[c.id], c.caller);
  }

  // ── An appeal ──

  /** An appeal reopens the dispute with a clean slate: no ruling, no ballots, one more appeal on the count, the fees
      already charged still on record. */
  ghost predicate Reopened(r: Rec, b: Rec) {
    && r.escrow.state == PendingFinalization && b.escrow.state == Disputed && b.votes == []
    && r.dispute.Some? && r.dispute.value.appealCount < MAX_MAX_APPEALS
    && b.dispute == Some(r.dispute.value.(active := true, resolution := 0, resolvedBy := None, resolvedAt := 0,
                                          appealCount := r.dispute.value.appealCount + 1))
    && b.escrow == r.escrow.(state := Disputed)
  }

  lemma PlannedAppeal(g: Globals, signers: Signers, r: Rec, caller: Address)
    requires g.maxAppeals <= MAX_MAX_APPEALS && Disputes.AppealDispute(g, signers, Some(r), caller).Ok?
    ensures Reopened(r, Disputes.AppealDispute(g, signers, Some(r), caller).value.rec)
  {
  }

  lemma AppealReopens(s: State, signers: Signers, c: Call)
    requires Reachable(s) && c.AppealDispute? && Exec(s, signers, c).Ok?
    ensures c.id in s.recs && c.id in Exec(s, signers, c).value.recs
    ensures Reopened(s.recs[c.id], Exec(s, signers, c).value.recs[c.id])
  {
    CallLeaves(s, signers, c);
    PlannedAppeal(s.g, signers, s.recs[c.id], c.caller);
  }

  // ── A ruling stands ──

  /** A step that does not appeal, override or bail out of escrow `id`. */
  ghost predicate LeavesRuling(i: Input, id: u64) {
    i.call.AppealDispute? || i.call.CancelPendingFinalization? || i.call.RecoveryWithdraw? || i.call.EmergencyDrain?
    ==> i.call.id != id
  }

  /** `b` is still waiting for the ruling of `a` to be finalized, or has been closed the way it says. */
  ghost predicate Follows(a: Rec, b: Rec)
    requires a.dispute.Some?
  {
    && b.escrow.buyer == a.escrow.buyer && b.escrow.payees == a.escrow.payees && b.escrow.token == a.escrow.token
    && b.escrow.amount == a.escrow.amount && b.basket == a.basket && b.escrow.feeBps == a.escrow.feeBps
    && if b.escrow.state == PendingFinalization then b.dispute == a.dispute
       else b.escrow.state == Outcome(a.dispute.value) && b.dispute == Some(a.dispute.value.(active := false))
  }

  function Outcome(d: Dispute): EscrowState {
    if d.resolution == 1 then Completed else Refunded
  }

  ghost predicate Awaits(r: Rec) {
    && r.escrow.state == PendingFinalization && r.dispute.Some?
    && (r.dispute.value.resolution == 1 || r.dispute.value.resolution == 2)
  }

  lemma FinalizationFollows(g: Globals, signers: Signers, r: Rec, caller: Address)
    requires Awaits(r) && Disputes.FinalizeDispute(g, signers, Some(r), caller).Ok?
    ensures Follows(r, Disputes.FinalizeDispute(g, signers, Some(r), caller).value.rec)
    ensures Disputes.FinalizeDispute(g, signers, Some(r), caller).value.rec.escrow.state != PendingFinalization
  {
  }

  /** Only a finalization, a rotation and the four calls excluded above are accepted after a ruling. */
  lemma OtherCallsLeave(g: Globals, signers: Signers, c: Call, r: Rec)
    requires ActsOnEscrow(c) && Awaits(r) && Plan(g, signers, c, Some(r)).Ok?
    requires !c.FinalizeDispute? && LeavesRuling(Input(signers, c), c.id)
    ensures Follows(r, Plan(g, signers, c, Some(r)).value.rec)
    ensures Plan(g, signers, c, Some(r)).value.rec.escrow.state == PendingFinalization
  {
  }

  lemma CallOnRuling(s: State, signers: Signers, c: Call, a: Rec)
    requires Reachable(s) && ActsOnEscrow(c) && Exec(s, signers, c).Ok? && LeavesRuling(Input(signers, c), c.id)
    requires c.id in s.recs && Awaits(a) && Follows(a, s.recs[c.id])
    ensures c.id in Exec(s, signers, c).value.recs && Follows(a, Exec(s, signers, c).value.recs[c.id])
  {
    CallLeaves(s, signers, c);
    var r := s.recs[c.id];
    if r.escrow.state != PendingFinalization {
      ClosedStays(s, signers, c);
    } else if c.FinalizeDispute? {
      FinalizationFollows(s.g, signers, r, c.caller);
    } else {
      OtherCallsLeave(s.g, signers, c, r);
    }
  }

  lemma ClosedStays(s: State, signers: Signers, c: Call)
    requires Reachable(s) && ActsOnEscrow(c) && Exec(s, signers, c).Ok?
    ensures c.id in s.recs && c.id in Exec(s, signers, c).value.recs
    ensures Terminal(s.recs[c.id].escrow.state) ==> Exec(s, signers, c).value.recs[c.id] == s.recs[c.id]
  {
    ReachableInv(s);
    EscrowCallEvolves(s, signers, c);
  }

  lemma OtherCallOnRuling(s: State, signers: Signers, c: Call, id: u64)
    requires Reachable(s) && id in s.recs && Exec(s, signers, c).Ok? && (ActsOnEscrow(c) ==> c.id != id)
    ensures id in Exec(s, signers, c).value.recs && Exec(s, signers, c).value.recs[id] == s.recs[id]
  {
    if ActsOnEscrow(c) {
      ExecIsCommit(s, signers, c);
    } else {
      ReachableInv(s);
      OtherStepExtends(s, signers, c);
    }
  }

  lemma RulingStep(s: State, i: Input, id: u64, a: Rec)
    requires Reachable(s) && id in s.recs && Awaits(a) && Follows(a, s.recs[id]) && LeavesRuling(i, id)
    ensures Reachable(Next(s, i)) && id in Next(s, i).recs && Follows(a, Next(s, i).recs[id])
  {
    Traces.OneStep(Next, s, i);
    StillReachable(s, Next(s, i));
    if Exec(s, i.signers, i.call).Ok? {
      if ActsOnEscrow(i.call) && i.call.id == id {
        CallOnRuling(s, i.signers, i.call, a);
      } else {
        OtherCallOnRuling(s, i.signers, i.call, id);
      }
    }
  }

  /** Along any run that neither appeals nor overrides it nor bails out, a ruling stands until it is finalized, over the
      same parties and the same amount, and the escrow is then closed the way it says. */
  lemma {:induction false} RulingStands(states: seq<State>, inputs: seq<Input>, id: u64, n: nat)
    requires Traces.Trace(Next, states, inputs) && n <= |inputs| && Reachable(states[0])
    requires id in states[0].recs && Awaits(states[0].recs[id])
    requires forall k :: 0 <= k < |inputs| ==> LeavesRuling(inputs[k], id)
    ensures Reachable(states[n]) && id in states[n].recs && Follows(states[0].recs[id], states[n].recs[id])
  {
    if n > 0 {
      RulingStands(states, inputs, id, n - 1);
      RulingStep(states[n - 1], inputs[n - 1], id, states[0].recs[id]);
    }
  }

  /** A dispute whose timeout has been claimed ends with a refund, unless appealed, overridden or bailed out of. */
  lemma TimeoutEndsInRefund(s: State, signers: Signers, c: Call, states: seq<State>, inputs: seq<Input>)
    requires Reachable(s) && c.ClaimDisputeTimeout? && Exec(s, signers, c).Ok?
    requires Traces.Trace(Next, states, inputs) && states[0] == Exec(s, signers, c).value
    requires forall k :: 0 <= k < |inputs| ==> LeavesRuling(inputs[k], c.id)
    ensures var last := states[|inputs|];
            && c.id in s.recs && c.id in last.recs
            && Reachable(last) && last.recs[c.id].escrow.amount == s.recs[c.id].escrow.amount
            && last.recs[c.id].dispute.Some? && last.recs[c.id].dispute.value.resolution == Code(Refund)
            && (last.recs[c.id].escrow.state == PendingFinalization || last.recs[c.id].escrow.state == Refunded)
  {
    TimeoutRulesRefund(s, signers, c);
    Traces.OneStep(Next, s, Input(signers, c));
    StillReachable(s, Next(s, Input(signers, c)));
    RulingStands(states, inputs, c.id, |inputs|);
  }
}
