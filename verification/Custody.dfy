/** The invariant every reachable state satisfies: records in order, custody covered, counters in step. */
module Custody {
  import opened Types
  import opened Ledger
  import opened Voting
  import opened Records
  import opened RecordInvariant
  import opened Machine
  import opened EntryPoints
  import opened Sums
  import opened Creation
  import Disputes

  // ── Records ──

  /** The table holds exactly the issued ids, every record is in order, and so are the settings. */
  ghost predicate TableOk(s: State) {
    && GlobalsOk(s.g)
    && 1 <= s.nextId
    && (forall id: u64 :: id in s.recs <==> 1 <= id < s.nextId)
    && (forall id: u64 :: id in s.recs ==> RecOk(s.recs[id], s.g.now))
  }

  /** Number of ids issued so far. */
  function Issued(s: State): nat {
    if s.nextId == 0 then 0 else s.nextId - 1
  }

  // ── Custody ──

  ghost function HoldIn(t: Token): Rec -> int {
    (r: Rec) => Hold(r, t)
  }

  /** What the contract owes to all escrows in token `t`. */
  ghost function Obligations(s: State, t: Token): int {
    Sum(s.recs, HoldIn(t), Issued(s))
  }

  ghost predicate CustodyOk(s: State) {
    forall t :: Obligations(s, t) <= Balance(s.ledger, t, Contract)
  }

  // ── Census ──

  ghost function InStateCount(st: EscrowState): Rec -> int {
    (r: Rec) => if r.escrow.state == st then 1 else 0
  }

  ghost function DisputeCount(): Rec -> int {
    (r: Rec) => if r.dispute.Some? then 1 else 0
  }

  ghost function ArbitrationIn(t: Token): Rec -> int {
    (r: Rec) => if r.escrow.token == t then ArbitrationFeeOf(r) else 0
  }

  /** The sharded counters and the arbitration totals against a census of the table. */
  ghost predicate CensusOk(s: State) {
    && Total(s.created) == Issued(s)
    && Total(s.completed) == Sum(s.recs, InStateCount(Completed), Issued(s))
    && Total(s.refunded) == Sum(s.recs, InStateCount(Refunded), Issued(s))
    && Total(s.disputed) == Sum(s.recs, DisputeCount(), Issued(s))
    && forall t :: Disputes.ArbitrationTotal(s.g, t) == Sum(s.recs, ArbitrationIn(t), Issued(s))
  }

  ghost predicate Inv(s: State) {
    TableOk(s) && CustodyOk(s) && CensusOk(s)
  }

  // ── One call on one escrow ──

  /** A successful call on an escrow commits its plan. */
  lemma ExecIsCommit(s: State, signers: Signers, c: Call)
    requires ActsOnEscrow(c) && Exec(s, signers, c).Ok?
    ensures c.id in s.recs
    ensures Plan(s.g, signers, c, Some(s.recs[c.id])).Ok?
    ensures Exec(s, signers, c).value == Commit(s, c.id, Plan(s.g, signers, c, Some(s.recs[c.id])).value)
    ensures Affordable(s.ledger, Plan(s.g, signers, c, Some(s.recs[c.id])).value.pays)
  {
  }

  /** What a successful call on an escrow did, in terms of its plan. */
  lemma EscrowCall(s: State, signers: Signers, c: Call)
    requires TableOk(s) && ActsOnEscrow(c) && Exec(s, signers, c).Ok?
    ensures c.id in s.recs
    ensures Plan(s.g, signers, c, Some(s.recs[c.id])).Ok?
    ensures var m := Plan(s.g, signers, c, Some(s.recs[c.id])).value;
            && Exec(s, signers, c).value == Commit(s, c.id, m)
            && Affordable(s.ledger, m.pays)
            && LegalMove(s.recs[c.id], m, s.g.now) && PaidBy(c, s.recs[c.id], m)
            && ArbitrationAccounted(s.g, s.recs[c.id], m)
  {
    ExecIsCommit(s, signers, c);
    EveryCallIsLawful(s.g, signers, c, s.recs[c.id]);
  }

  /** The part of it that looks at how the record evolves. */
  lemma EscrowCallEvolves(s: State, signers: Signers, c: Call)
    requires TableOk(s) && ActsOnEscrow(c) && Exec(s, signers, c).Ok?
    ensures 1 <= c.id < s.nextId && c.id in s.recs
    ensures Plan(s.g, signers, c, Some(s.recs[c.id])).Ok?
    ensures var m := Plan(s.g, signers, c, Some(s.recs[c.id])).value;
            && Exec(s, signers, c).value == Commit(s, c.id, m)
            && Evolves(s.recs[c.id], m.rec)
            && ArbitrationAccounted(s.g, s.recs[c.id], m)
  {
    EscrowCall(s, signers, c);
  }

  lemma CommitTable(s: State, id: u64, m: Move)
    requires TableOk(s) && id in s.recs && RecOk(m.rec, s.g.now)
    ensures TableOk(Commit(s, id, m))
  {
    var s' := Commit(s, id, m);
    forall i: u64 | i in s'.recs ensures RecOk(s'.recs[i], s'.g.now) {
      if i != id {
        assert i in s.recs;
      }
    }
  }

  /** The balance changes by exactly the change in obligations, plus whatever the call paid to the contract's own
      address other than by funding. */
  lemma CommitCustody(s: State, id: u64, m: Move, t: Token)
    requires id in s.recs && 1 <= id < s.nextId && FlowOk(s.recs[id], m)
    ensures Balance(Commit(s, id, m).ledger, t, Contract) - Balance(s.ledger, t, Contract)
         == Obligations(Commit(s, id, m), t) - Obligations(s, t)
            + (if Funding(s.recs[id], m.rec) then 0 else Received(m.pays, t, Contract))
  {
    PayMoves(s.ledger, m.pays, t, Contract);
    SumUpdate(s.recs, HoldIn(t), Issued(s), id, m.rec);
  }

  lemma CommitCensus(s: State, id: u64, m: Move)
    requires CensusOk(s) && id in s.recs && 1 <= id < s.nextId && Evolves(s.recs[id], m.rec)
    requires ArbitrationAccounted(s.g, s.recs[id], m)
    ensures CensusOk(Commit(s, id, m))
  {
    var s', r := Commit(s, id, m), s.recs[id];
    var n := Issued(s);
    SumUpdate(s.recs, InStateCount(Completed), n, id, m.rec);
    SumUpdate(s.recs, InStateCount(Refunded), n, id, m.rec);
    SumUpdate(s.recs, DisputeCount(), n, id, m.rec);
    BumpCounts(s.completed, id);
    BumpCounts(s.refunded, id);
    BumpCounts(s.disputed, id);
    forall t ensures Disputes.ArbitrationTotal(s'.g, t) == Sum(s'.recs, ArbitrationIn(t), n) {
      SumUpdate(s.recs, ArbitrationIn(t), n, id, m.rec);
    }
  }

  // ── Creation ──

  /** A record fit to be stored under a new id: in order, unfunded, undisputed. */
  ghost predicate FreshRec(r: Rec, now: u64) {
    RecOk(r, now) && r.escrow.state == Pending && r.dispute.None?
  }

  lemma NewRecOk(e: Escrow, basket: seq<TokenEntry>, expiry: Option<ExpirySchedule>, now: u64)
    requires e.state == Pending && e.packedTimestamps == 0 && e.shippedAt == 0 && e.deliveredAt.None?
    requires 0 < e.amount && e.feeBps <= MAX_ESCROW_FEE_BPS && e.resolverFeeBps <= MAX_ESCROW_FEE_BPS
    requires ResolversValid(e.resolvers) && forall a :: IsPayee(e.payees, a) ==> !IsResolver(e.resolvers, a)
    requires BasketOk(NewRec(e, basket, expiry, now))
    ensures FreshRec(NewRec(e, basket, expiry, now), now)
  {
  }

  lemma CreateInternalOk(g: Globals, t: Terms)
    requires CreateInternal(g, t).Ok?
    ensures FreshRec(CreateInternal(g, t).value, g.now) && CreateInternal(g, t).value.basket == []
  {
    NewRecOk(CreateInternal(g, t).value.escrow, [], None, g.now);
  }

  lemma CreateWithExpirationOk(g: Globals, signers: Signers, seller: Address, t: Terms)
    requires Creation.CreateWithExpiration(g, signers, seller, t).Ok?
    ensures FreshRec(Creation.CreateWithExpiration(g, signers, seller, t).value, g.now)
  {
    var t' := t.(payees := SoleSeller(seller), resolverFeeBps := 0, notes := "");
    var r := CreateInternal(g, t').value;
    NewRecOk(r.escrow, [], Creation.CreateWithExpiration(g, signers, seller, t).value.expiry, g.now);
  }

  lemma CommitteeOk(g: Globals, signers: Signers, c: Call)
    requires (c.CreateMulti? || c.CreateWithFallback?) && NewRecord(g, signers, c).Ok?
    ensures FreshRec(NewRecord(g, signers, c).value, g.now)
  {
    NewRecOk(NewRecord(g, signers, c).value.escrow, [], None, g.now);
  }

  lemma CreateBasketOk(g: Globals, signers: Signers, c: Call)
    requires c.CreateBasket? && NewRecord(g, signers, c).Ok?
    ensures FreshRec(NewRecord(g, signers, c).value, g.now)
  {
    var r := NewRecord(g, signers, c).value;
    BasketAmounts(g, r.basket);
    NewRecOk(r.escrow, r.basket, r.expiry, g.now);
  }

  /** Every creation path stores a record that satisfies the invariant. */
  lemma NewRecordOk(g: Globals, signers: Signers, c: Call)
    requires CreatesOne(c) && NewRecord(g, signers, c).Ok?
    ensures FreshRec(NewRecord(g, signers, c).value, g.now)
  {
    match c
    case CreateEscrow(terms) => CreateInternalOk(g, terms.(expiresAt := None, gracePeriod := 0));
    case CreateWithExpiration(seller, terms) => CreateWithExpirationOk(g, signers, seller, terms);
    case CreateBasket(_, _, _, _, _, _, _, _, _, _) => CreateBasketOk(g, signers, c);
    case _ => CommitteeOk(g, signers, c);
  }

  lemma IssueTable(s: State, plan: Result<Rec>)
    requires TableOk(s) && Issue(s, plan).Ok? && FreshRec(plan.value, s.g.now)
    ensures TableOk(Issue(s, plan).value)
  {
    var s' := Issue(s, plan).value;
    forall i: u64 | i in s'.recs ensures RecOk(s'.recs[i], s'.g.now) {
      if i != s.nextId {
        assert i in s.recs;
      }
    }
  }

  lemma IssueObligations(s: State, plan: Result<Rec>, t: Token)
    requires s.nextId >= 1 && Issue(s, plan).Ok? && plan.value.escrow.state == Pending
    ensures Obligations(Issue(s, plan).value, t) == Obligations(s, t)
  {
    SumIssue(s.recs, HoldIn(t), s.nextId, plan.value);
  }

  lemma IssueCensus(s: State, plan: Result<Rec>)
    requires s.nextId >= 1 && CensusOk(s)
    requires Issue(s, plan).Ok? && plan.value.escrow.state == Pending && plan.value.dispute.None?
    ensures CensusOk(Issue(s, plan).value)
  {
    var s', r, id := Issue(s, plan).value, plan.value, s.nextId;
    SumIssue(s.recs, InStateCount(Completed), id, r);
    SumIssue(s.recs, InStateCount(Refunded), id, r);
    SumIssue(s.recs, DisputeCount(), id, r);
    BumpCounts(s.created, id);
    forall t ensures Disputes.ArbitrationTotal(s'.g, t) == Sum(s'.recs, ArbitrationIn(t), Issued(s')) {
      SumIssue(s.recs, ArbitrationIn(t), id, r);
    }
  }

  /** The table is a part of `later`'s: nothing already stored was touched. */
  ghost predicate Extends(s: State, later: State) {
    && s.nextId <= later.nextId
    && forall id: u64 :: id in s.recs ==> id in later.recs && later.recs[id] == s.recs[id]
  }

  lemma IssueKeeps(s: State, plan: Result<Rec>)
    requires Inv(s) && Issue(s, plan).Ok? && FreshRec(plan.value, s.g.now)
    ensures Inv(Issue(s, plan).value) && Extends(s, Issue(s, plan).value)
    ensures forall t :: Obligations(Issue(s, plan).value, t) == Obligations(s, t)
  {
    IssueTable(s, plan);
    IssueCensus(s, plan);
    forall t ensures Obligations(Issue(s, plan).value, t) == Obligations(s, t) {
      IssueObligations(s, plan, t);
    }
  }

  lemma {:induction false} IssueAllKeeps(s: State, seller: Address, inputs: seq<Terms>)
    requires Inv(s) && IssueAll(s, seller, inputs).Ok?
    ensures var s' := IssueAll(s, seller, inputs).value;
            && Inv(s') && Extends(s, s') && s'.ledger == s.ledger && s'.g == s.g
            && forall t :: Obligations(s', t) == Obligations(s, t)
    decreases |inputs|
  {
    if inputs != [] {
      var terms := inputs[0].(payees := SoleSeller(seller), expiresAt := None, gracePeriod := 0);
      CreateInternalOk(s.g, terms);
      IssueKeeps(s, CreateInternal(s.g, terms));
      IssueAllKeeps(Issue(s, CreateInternal(s.g, terms)).value, seller, inputs[1..]);
    }
  }
}
