/** Concrete runs that reach the states in which the contract and its indexer fall short: each failure described by the
    other modules is shown on a call sequence the contract accepts. */
module Witnesses {
  import opened Types
  import opened Ledger
  import opened PayeeSplit
  import opened Voting
  import opened Records
  import opened Machine
  import opened Creation
  import opened Runs
  import Exits
  import Indexes
  import Lifecycle
  import Disputes
  import Outcomes
  import Safety
  import Batches
  import Paging
  import Polling
  import Replay
  import Tables
  import Traces

  const ADMIN := Account(0)
  const COLLECTOR := Account(1)
  const SELLER := Account(2)
  const BUYER := Account(3)
  const RESOLVER := Account(4)
  const PARTNER := Account(5)

  const PRICE: i128 := 10_000
  const DEADLINE: u64 := 1_000

  // ── A common beginning ──

  /** A fresh contract; the buyer owns token 0. */
  function Opened(): State {
    Initialize(ADMIN, COLLECTOR, 0, 0, map[(0, BUYER) := MAX_I128]).value
  }

  lemma OpenedReachable()
    ensures Reachable(Opened())
  {
    var s := Opened();
    assert Initialize(ADMIN, COLLECTOR, 0, s.g.now, map[(0, BUYER) := MAX_I128]) == Ok(s);
    assert Initialized(s);
    assert Traces.Path(Next, [s], [], s, s);
    assert Leads(s, s);
  }

  /** The state a list of calls leads to from there. */
  function After(inputs: seq<Input>): State {
    if inputs == [] then Opened() else Next(After(inputs[..|inputs| - 1]), inputs[|inputs| - 1])
  }

  lemma AfterOneMore(inputs: seq<Input>, i: Input)
    ensures After(inputs + [i]) == Next(After(inputs), i)
  {
    assert (inputs + [i])[..|inputs|] == inputs;
  }

  lemma OneMore(s: State, i: Input)
    requires Reachable(s)
    ensures Reachable(Next(s, i))
  {
    Traces.OneStep(Next, s, i);
    StillReachable(s, Next(s, i));
  }

  /** The seller's offer, expiring at `DEADLINE`. */
  function Offer(): Terms {
    Terms([], None, RESOLVER, 0, PRICE, 0, 0, 3_600, "", Some(DEADLINE), 0)
  }

  function Offered(): Rec {
    NewRec(PendingEscrow(SoleSeller(SELLER), None, Single(RESOLVER), 0, PRICE, 0, 0, 3_600, Some(DEADLINE), 0),
           [], Some(ExpirySchedule(DEADLINE, 0)), 0)
  }

  function Bought(): Rec {
    Lifecycle.FundedRec(Offered(), BUYER, 0)
  }

  /** The settings `initialize` leaves, at time zero. */
  ghost predicate Opening(g: Globals) {
    && g.now == 0 && g.admin == ADMIN && g.pausedActions == {} && !g.cfg.paused && !g.cfg.recoveryMode
    && !g.cfg.allowlistEnabled && !g.cfg.resolverStrict && g.cfg.feeCollector == Some(COLLECTOR)
    && g.cfg.minAmount == MIN_ESCROW_AMOUNT && g.cfg.maxAmount == MAX_ESCROW_AMOUNT
    && g.cfg.arbitrationFeeBps == 0 && g.cfg.platformFeeBps == 0
  }

  lemma OpenedSettings()
    ensures Opening(Opened().g) && Opened().nextId == 1 && Opened().recs == map[] && Opened().buyerIndex == map[]
    ensures Balance(Opened().ledger, 0, BUYER) == MAX_I128
  {
  }

  lemma OfferAccepted(g: Globals)
    requires Opening(g)
    ensures Creation.CreateWithExpiration(g, {SELLER}, SELLER, Offer()) == Ok(Offered())
  {
    PayeesCheckMeaning(SoleSeller(SELLER));
  }

  function Offering(): Input {
    Input({SELLER}, Call.CreateWithExpiration(SELLER, Offer()))
  }

  lemma OfferStep(s: State)
    requires Reachable(s) && Opening(s.g) && s.nextId < 10
    ensures var s' := Next(s, Offering());
            && Reachable(s') && s'.g == s.g && s'.ledger == s.ledger && s'.nextId == s.nextId + 1
            && s'.recs == s.recs[s.nextId := Offered()] && s'.buyerIndex == s.buyerIndex
  {
    OfferAccepted(s.g);
    OneMore(s, Offering());
  }

  lemma FundingAccepted(g: Globals, r: Rec)
    requires Opening(g) && r == Offered()
    ensures Lifecycle.FundEscrow(g, {BUYER}, Some(r), BUYER)
         == Ok(Move(Bought(), [Transfer(0, BUYER, Contract, PRICE)], None))
  {
    assert Lifecycle.DepositPays(r, BUYER) == [Transfer(0, BUYER, Contract, PRICE)];
  }

  /** A call whose plan succeeds and whose transfers are covered is committed. */
  lemma Committed(s: State, signers: Signers, c: Call, m: Move)
    requires ActsOnEscrow(c) && c.id in s.recs && Plan(s.g, signers, c, Some(s.recs[c.id])) == Ok(m)
    requires Affordable(s.ledger, m.pays)
    ensures Next(s, Input(signers, c)) == Commit(s, c.id, m)
  {
  }

  function Funding(id: u64): Input {
    Input({BUYER}, Call.FundEscrow(id, BUYER))
  }

  lemma FundCommitted(s: State, id: u64, pays: seq<Transfer>)
    requires id in s.recs && s.recs[id] == Offered() && pays == [Transfer(0, BUYER, Contract, PRICE)]
    requires PRICE <= Balance(s.ledger, 0, BUYER)
    ensures Affordable(s.ledger, pays)
    ensures var s' := Commit(s, id, Move(Bought(), pays, None));
            && s'.g == s.g && s'.recs == s.recs[id := Bought()]
            && Balance(s'.ledger, 0, BUYER) == Balance(s.ledger, 0, BUYER) - PRICE
            && Listed(s'.buyerIndex, BUYER) == Listed(s.buyerIndex, BUYER) + [id]
  {
    assert pays[1..] == [];
    PayMoves(s.ledger, pays, 0, BUYER);
    assert Bought().escrow.buyer == Some(BUYER) && JustEntered(Offered(), Bought(), Funded);
  }

  lemma FundStep(s: State, id: u64)
    requires Reachable(s) && Opening(s.g) && id in s.recs && s.recs[id] == Offered()
    requires PRICE <= Balance(s.ledger, 0, BUYER)
    ensures var s' := Next(s, Funding(id));
            && Reachable(s') && s'.g == s.g && s'.recs == s.recs[id := Bought()]
            && Balance(s'.ledger, 0, BUYER) == Balance(s.ledger, 0, BUYER) - PRICE
            && Listed(s'.buyerIndex, BUYER) == Listed(s.buyerIndex, BUYER) + [id]
  {
    var pays := [Transfer(0, BUYER, Contract, PRICE)];
    FundingAccepted(s.g, s.recs[id]);
    FundCommitted(s, id, pays);
    Committed(s, {BUYER}, Call.FundEscrow(id, BUYER), Move(Bought(), pays, None));
    OneMore(s, Funding(id));
  }

  /** An offer, taken up by the buyer. */
  function Sale(): seq<Input> {
    [Offering(), Funding(1)]
  }

  ghost predicate Holds(s: State, r: Rec) {
    Reachable(s) && Opening(s.g) && 1 in s.recs && s.recs[1] == r
  }

  lemma OfferMade()
    ensures var s := After([Offering()]);
            Holds(s, Offered()) && s.nextId == 2 && s.recs == map[1 := Offered()] && s.buyerIndex == map[]
            && Balance(s.ledger, 0, BUYER) == MAX_I128
  {
    OpenedReachable();
    OpenedSettings();
    AfterOneMore([], Offering());
    OfferStep(Opened());
  }

  lemma FundNext(inputs: seq<Input>, id: u64)
    requires var s := After(inputs);
             && Reachable(s) && Opening(s.g) && id in s.recs && s.recs[id] == Offered()
             && PRICE <= Balance(s.ledger, 0, BUYER)
    ensures var (s, s') := (After(inputs), After(inputs + [Funding(id)]));
            && Reachable(s') && s'.g == s.g && s'.recs == s.recs[id := Bought()]
            && Balance(s'.ledger, 0, BUYER) == Balance(s.ledger, 0, BUYER) - PRICE
            && Listed(s'.buyerIndex, BUYER) == Listed(s.buyerIndex, BUYER) + [id]
  {
    AfterOneMore(inputs, Funding(id));
    FundStep(After(inputs), id);
  }

  /** A funded escrow is reachable. */
  lemma SaleFunds()
    ensures Holds(After(Sale()), Bought())
  {
    OfferMade();
    FundNext([Offering()], 1);
    assert [Offering()] + [Funding(1)] == Sale();
  }

  /** What a call on escrow 1 plans. */
  ghost predicate Plans(g: Globals, i: Input, r: Rec, m: Move) {
    ActsOnEscrow(i.call) && i.call.id == 1 && Plan(g, i.signers, i.call, Some(r)) == Ok(m)
  }

  lemma QuietStep(s: State, i: Input, r: Rec, m: Move)
    requires Holds(s, r) && Plans(s.g, i, r, m) && m.pays == []
    ensures Holds(Next(s, i), m.rec)
  {
    Committed(s, i.signers, i.call, m);
    OneMore(s, i);
  }

  /** A call that moves no token. */
  lemma Quietly(inputs: seq<Input>, i: Input, r: Rec, m: Move)
    requires Holds(After(inputs), r) && Plans(After(inputs).g, i, r, m) && m.pays == []
    ensures Holds(After(inputs + [i]), m.rec)
  {
    AfterOneMore(inputs, i);
    QuietStep(After(inputs), i, r, m);
  }

  function Waiting(to: u64): Input {
    Input({}, Elapse(to))
  }

  lemma WaitStep(s: State, to: u64)
    requires Reachable(s) && s.g.now <= to
    ensures Reachable(Next(s, Waiting(to))) && Next(s, Waiting(to)) == s.(g := s.g.(now := to))
  {
    OneMore(s, Waiting(to));
  }

  // ── An expired offer ──

  function ExpiredOffer(): seq<Input> {
    [Offering(), Waiting(DEADLINE)]
  }

  lemma ExpiredOfferStays()
    ensures Reachable(After(ExpiredOffer())) && Exits.ExpiredPending(After(ExpiredOffer()), 1)
  {
    OfferMade();
    AfterOneMore([Offering()], Waiting(DEADLINE));
    WaitStep(After([Offering()]), DEADLINE);
  }

  // ── An expired refund request ──

  function Requesting(): Input {
    Input({BUYER}, Call.RequestRefund(1, BUYER))
  }

  function ExpiredRequest(): seq<Input> {
    Sale() + [Requesting()] + [Waiting(DEADLINE)]
  }

  function Requested(): Rec {
    Enter(Bought(), RefundRequested, 0)
  }

  lemma RequestAccepted(g: Globals)
    requires Opening(g)
    ensures Plans(g, Requesting(), Bought(), Stay(Requested()))
  {
  }

  lemma RefundIsRequested()
    ensures Holds(After(Sale() + [Requesting()]), Requested())
  {
    SaleFunds();
    RequestAccepted(After(Sale()).g);
    Quietly(Sale(), Requesting(), Bought(), Stay(Requested()));
  }

  /** The refund request expires, and neither party can get the funds out. */
  lemma ExpiredRequestIsStuck()
    ensures var s := After(ExpiredRequest());
            Reachable(s) && Exits.Stuck(s, 1) && forall parties: Signers :: !Exits.CanExit(s, 1, parties)
  {
    var inputs := Sale() + [Requesting()];
    RefundIsRequested();
    AfterOneMore(inputs, Waiting(DEADLINE));
    WaitStep(After(inputs), DEADLINE);
    forall parties: Signers ensures !Exits.CanExit(After(ExpiredRequest()), 1, parties) {
      Exits.StuckCannotExit(After(ExpiredRequest()), 1, parties);
    }
  }

  // ── A dispute ruled a refund ──

  function Raising(): Input {
    Input({BUYER}, Call.RaiseDispute(1, BUYER, true, 0))
  }

  function Ruling(): Input {
    Input({RESOLVER}, Call.CastVote(1, RESOLVER, Refund))
  }

  function RuledRefund(): seq<Input> {
    Sale() + [Raising()] + [Ruling()]
  }

  function FreshDispute(): Dispute {
    Dispute(true, 0, 0, None, 0, 0, 0, 0, false)
  }

  function Contested(): Rec {
    Enter(Bought(), Disputed, 0).(dispute := Some(FreshDispute()), proposal := None)
  }

  function Ruled(): Rec {
    Disputes.ResolvedRec(Contested(), FreshDispute(), RESOLVER, Refund, [Vote(RESOLVER, Refund, 0)], PRICE, 0, 0, 0)
  }

  lemma DisputeAccepted(g: Globals)
    requires Opening(g)
    ensures Plans(g, Raising(), Bought(), Stay(Contested()))
  {
    assert PackFunding(0) == DISPUTE_WINDOW;
  }

  lemma RulingAccepted(g: Globals) returns (m: Move)
    requires Opening(g)
    ensures Disputes.CastVote(g, {RESOLVER}, Some(Contested()), RESOLVER, Refund) == Ok(m)
    ensures m.rec == Ruled() && m.pays == []
  {
    var votes := Cast([], RESOLVER, Refund, 0);
    assert votes == [Vote(RESOLVER, Refund, 0)];
    assert Tally(votes, Refund) == 1 + Tally([], Refund) && Tally(votes, Release) == 0 + Tally([], Release) by {
      assert votes[1..] == [];
    }
    m := Disputes.CastVote(g, {RESOLVER}, Some(Contested()), RESOLVER, Refund).value;
  }

  lemma VotePlans(g: Globals, signers: Signers, caller: Address, ballot: Ballot, r: Rec, m: Move)
    requires Disputes.CastVote(g, signers, Some(r), caller, ballot) == Ok(m)
    ensures Plans(g, Input(signers, Call.CastVote(1, caller, ballot)), r, m)
  {
  }

  lemma DisputeRaised()
    ensures Holds(After(Sale() + [Raising()]), Contested())
  {
    SaleFunds();
    DisputeAccepted(After(Sale()).g);
    Quietly(Sale(), Raising(), Bought(), Stay(Contested()));
  }

  lemma RefundRuled()
    ensures Holds(After(RuledRefund()), Ruled())
  {
    var inputs := Sale() + [Raising()];
    DisputeRaised();
    var m := RulingAccepted(After(inputs).g);
    VotePlans(After(inputs).g, {RESOLVER}, RESOLVER, Refund, Contested(), m);
    Quietly(inputs, Ruling(), Contested(), m);
  }

  // ── ... and overridden ──

  function Overriding(): Input {
    Input({ADMIN}, Call.CancelPendingFinalization(1, ADMIN))
  }

  lemma OverrideAccepted(g: Globals) returns (m: Move)
    requires Opening(g)
    ensures Disputes.CancelPendingFinalization(g, {ADMIN}, Some(Ruled()), ADMIN) == Ok(m)
    ensures m.rec.escrow.state == Refunded && m.rec.dispute.Some?
    ensures RecordedResolution(m.rec.dispute.value) == Some(Release)
  {
    m := Disputes.CancelPendingFinalization(g, {ADMIN}, Some(Ruled()), ADMIN).value;
  }

  lemma OverridePlans(g: Globals, signers: Signers, caller: Address, r: Rec, m: Move)
    requires Disputes.CancelPendingFinalization(g, signers, Some(r), caller) == Ok(m)
    ensures Plans(g, Input(signers, Call.CancelPendingFinalization(1, caller)), r, m)
  {
  }

  /** A call that the contract pays for goes through. */
  lemma Paying(inputs: seq<Input>, i: Input, r: Rec, m: Move)
    requires Holds(After(inputs), r) && Plans(After(inputs).g, i, r, m) && !Safety.PaidFromOutside(i.call)
    ensures var s := After(inputs + [i]); Reachable(s) && 1 in s.recs && s.recs[1] == m.rec
  {
    AfterOneMore(inputs, i);
    Exits.PlanGoesThrough(After(inputs), i.signers, i.call);
    OneMore(After(inputs), i);
  }

  /** The resolver rules a refund, the admin overrides it, the buyer is refunded: the stored record says Release. */
  lemma OverriddenRefundReadsRelease()
    ensures var s := After(RuledRefund() + [Overriding()]);
            && Reachable(s) && 1 in s.recs && s.recs[1].escrow.state == Refunded && s.recs[1].dispute.Some?
            && RecordedResolution(s.recs[1].dispute.value) == Some(Release)
            && !Outcomes.RecordMatchesClosing(s.recs[1])
  {
    RefundRuled();
    var g := After(RuledRefund()).g;
    var m := OverrideAccepted(g);
    OverridePlans(g, {ADMIN}, ADMIN, Ruled(), m);
    Paying(RuledRefund(), Overriding(), Ruled(), m);
  }

  // ── ... or blocked by a platform fee ──

  function Charging(): Input {
    Input({ADMIN}, ChangeSetting(PlatformFee(MAX_PLATFORM_FEE_BPS), false))
  }

  function FeeRaised(): seq<Input> {
    RuledRefund() + [Charging()] + [Waiting(APPEAL_WINDOW)]
  }

  lemma ChargeStep(s: State)
    requires Holds(s, Ruled())
    ensures Reachable(Next(s, Charging()))
    ensures Next(s, Charging()) == s.(g := s.g.(cfg := s.g.cfg.(platformFeeBps := MAX_PLATFORM_FEE_BPS)))
  {
    OneMore(s, Charging());
  }

  lemma RuledIsBlocked(g: Globals)
    requires g.cfg.platformFeeBps == MAX_PLATFORM_FEE_BPS && g.admin == ADMIN
    ensures Exits.Parties(Ruled()) == {BUYER, SELLER} && Exits.FeeBlocked(g, Ruled(), {BUYER, SELLER})
  {
  }

  /** After the appeal window nobody can finalize the dispute, and neither party can get the funds out. */
  lemma RaisedFeeBlocks()
    ensures var s := After(FeeRaised());
            && Reachable(s) && 1 in s.recs && s.recs[1] == Ruled() && Exits.Parties(Ruled()) == {BUYER, SELLER}
            && !Exits.CanExit(s, 1, {BUYER, SELLER})
            && forall signers, caller :: Disputes.FinalizeDispute(s.g, signers, Some(s.recs[1]), caller).Err?
  {
    RefundRuled();
    AfterOneMore(RuledRefund(), Charging());
    ChargeStep(After(RuledRefund()));
    AfterOneMore(RuledRefund() + [Charging()], Waiting(APPEAL_WINDOW));
    WaitStep(After(RuledRefund() + [Charging()]), APPEAL_WINDOW);
    BlockedState(After(FeeRaised()));
  }

  lemma BlockedState(s: State)
    requires Reachable(s) && 1 in s.recs && s.recs[1] == Ruled() && s.g.admin == ADMIN
    requires s.g.cfg.platformFeeBps == MAX_PLATFORM_FEE_BPS && !s.g.cfg.paused && !s.g.cfg.recoveryMode
    ensures Exits.Parties(Ruled()) == {BUYER, SELLER} && !Exits.CanExit(s, 1, {BUYER, SELLER})
    ensures forall signers, caller :: Disputes.FinalizeDispute(s.g, signers, Some(s.recs[1]), caller).Err?
  {
    RuledIsBlocked(s.g);
    Exits.FeeStuckCannotExit(s, 1, {BUYER, SELLER});
    forall signers, caller ensures Disputes.FinalizeDispute(s.g, signers, Some(s.recs[1]), caller).Err? {
      Exits.FeeStopsThem(s, signers, 1, caller, {BUYER, SELLER});
    }
  }

  // ── Funding out of order ──

  function TwoOffers(): seq<Input> {
    [Offering()] + [Offering()]
  }

  function OutOfOrder(): seq<Input> {
    TwoOffers() + [Funding(2)] + [Funding(1)]
  }

  lemma TwoOffersMade()
    ensures var s := After(TwoOffers());
            && Reachable(s) && Opening(s.g) && s.recs == map[1 := Offered(), 2 := Offered()] && s.buyerIndex == map[]
            && Balance(s.ledger, 0, BUYER) == MAX_I128
  {
    OfferMade();
    AfterOneMore([Offering()], Offering());
    OfferStep(After([Offering()]));
  }

  lemma SecondFunded(inputs: seq<Input>)
    requires inputs == TwoOffers() + [Funding(2)]
    ensures var s := After(inputs);
            && Reachable(s) && Opening(s.g) && 1 in s.recs && s.recs[1] == Offered()
            && Listed(s.buyerIndex, BUYER) == [2] && PRICE <= Balance(s.ledger, 0, BUYER)
  {
    TwoOffersMade();
    FundNext(TwoOffers(), 2);
  }

  /** Escrow 2 is funded before escrow 1: the buyer's list reads back [2, 1]. */
  lemma ListReadsOutOfOrder()
    ensures Reachable(After(OutOfOrder())) && Listed(After(OutOfOrder()).buyerIndex, BUYER) == [2, 1]
    ensures !Indexes.Ascending([2, 1])
  {
    var inputs := TwoOffers() + [Funding(2)];
    SecondFunded(inputs);
    FundNext(inputs, 1);
    assert [2] + [1] == [2, 1] && [2, 1][0] > [2, 1][1];
  }

  // ── A buyer who is the seller ──

  function SelfOffer(): Input {
    Input({SELLER}, CreateMulti(SELLER, Some(SELLER), [RESOLVER], 1, 0, PRICE, 0, 0))
  }

  lemma SelfOfferAccepted(g: Globals)
    requires Opening(g)
    ensures var plan := Creation.CreateMulti(g, {SELLER}, SELLER, Some(SELLER), [RESOLVER], 1, 0, PRICE, 0, 0);
            plan.Ok? && Exits.SelfDealing(plan.value)
  {
  }

  /** `create_escrow_multi` accepts it, without a shipping window at that. */
  lemma SelfOfferIsStored()
    ensures var s := After([SelfOffer()]);
            Reachable(s) && 1 in s.recs && Exits.SelfDealing(s.recs[1]) && s.recs[1].escrow.shippingWindow == 0
  {
    OpenedReachable();
    OpenedSettings();
    SelfOfferAccepted(Opened().g);
    AfterOneMore([], SelfOffer());
    OneMore(Opened(), SelfOffer());
  }

  // ── An amount that cannot be split ──

  function Pair(): Payees {
    var payees := [Payee(SELLER, 5_000), Payee(PARTNER, 5_000)];
    assert payees[1..] == [Payee(PARTNER, 5_000)] && payees[1..][1..] == [];
    assert TotalBps(payees[1..]) == 5_000 + TotalBps([]);
    payees
  }

  function HugeTerms(): Terms {
    Terms(Pair(), None, RESOLVER, 0, MAX_I128, 0, 0, 3_600, "", None, 0)
  }

  function Huge(): Rec {
    NewRec(PendingEscrow(Pair(), None, Single(RESOLVER), 0, MAX_I128, 0, 0, 3_600, None, 0), [], None, 0)
  }

  function HugeBought(): Rec {
    Lifecycle.FundedRec(Huge(), BUYER, 0)
  }

  function HugeShipped(): Rec {
    Enter(HugeBought().(escrow := HugeBought().escrow.(shippedAt := 0)), Shipped, 0)
  }

  function Lifting(): Input {
    Input({}, ChangeSetting(AmountLimits(1, MAX_I128), true))
  }

  function HugeSale(): seq<Input> {
    [Lifting()] + [Input({SELLER}, Call.CreateEscrow(HugeTerms()))] + [Funding(1)]
    + [Input({SELLER}, Call.MarkShipped(1, SELLER, 1))]
  }

  /** The opening settings with the upper limit on amounts lifted. */
  ghost predicate Lifted(g: Globals) {
    g.cfg.maxAmount == MAX_I128 && Opening(g.(cfg := g.cfg.(maxAmount := MAX_ESCROW_AMOUNT)))
  }

  lemma LimitLifted()
    ensures var s := After([Lifting()]);
            Reachable(s) && Lifted(s.g) && s.nextId == 1 && Balance(s.ledger, 0, BUYER) == MAX_I128
  {
    OpenedReachable();
    OpenedSettings();
    AfterOneMore([], Lifting());
    OneMore(Opened(), Lifting());
  }

  lemma HugeAccepted(g: Globals)
    requires Lifted(g)
    ensures Creation.CreateEscrow(g, {SELLER}, HugeTerms()) == Ok(Huge())
  {
    PayeesCheckMeaning(Pair());
  }

  ghost predicate HoldsHuge(s: State, r: Rec) {
    Reachable(s) && Lifted(s.g) && 1 in s.recs && s.recs[1] == r
  }

  lemma HugeStep(s: State)
    requires Reachable(s) && Lifted(s.g) && s.nextId == 1
    ensures HoldsHuge(Next(s, HugeSale()[1]), Huge()) && Next(s, HugeSale()[1]).ledger == s.ledger
  {
    HugeAccepted(s.g);
    OneMore(s, HugeSale()[1]);
  }

  lemma HugeFundingAccepted(g: Globals)
    requires Lifted(g)
    ensures Lifecycle.FundEscrow(g, {BUYER}, Some(Huge()), BUYER)
         == Ok(Move(HugeBought(), [Transfer(0, BUYER, Contract, MAX_I128)], None))
  {
    assert Lifecycle.DepositPays(Huge(), BUYER) == [Transfer(0, BUYER, Contract, MAX_I128)];
  }

  lemma HugeFundStep(s: State)
    requires HoldsHuge(s, Huge()) && Balance(s.ledger, 0, BUYER) == MAX_I128
    ensures HoldsHuge(Next(s, Funding(1)), HugeBought())
  {
    var pays := [Transfer(0, BUYER, Contract, MAX_I128)];
    HugeFundingAccepted(s.g);
    assert pays[1..] == [];
    Committed(s, {BUYER}, Funding(1).call, Move(HugeBought(), pays, None));
    OneMore(s, Funding(1));
  }

  lemma HugeShippingAccepted(g: Globals)
    requires Lifted(g)
    ensures Lifecycle.MarkShipped(g, {SELLER}, Some(HugeBought()), SELLER, 1) == Ok(Stay(HugeShipped()))
  {
    assert IsPayee(Pair(), SELLER) by {
      assert Pair()[0].address == SELLER;
    }
  }

  lemma HugeShipStep(s: State)
    requires HoldsHuge(s, HugeBought())
    ensures HoldsHuge(Next(s, HugeSale()[3]), HugeShipped())
  {
    HugeShippingAccepted(s.g);
    Committed(s, {SELLER}, HugeSale()[3].call, Stay(HugeShipped()));
    OneMore(s, HugeSale()[3]);
  }

  lemma HugeConfirmationFails(g: Globals)
    requires Lifted(g)
    ensures Lifecycle.ConfirmDelivery(g, {BUYER}, Some(HugeShipped()), BUYER, true) == Err(ArithmeticError)
  {
    assert HugeShipped().escrow.payees[1..][0] == Payee(PARTNER, 5_000);
    assert !SharesFit(HugeShipped().escrow.payees[1..], MAX_I128);
  }

  /** With the limit on amounts lifted, a sale between two sellers is funded and shipped, and then its delivery cannot
      be confirmed. */
  lemma HugeSaleCannotBeConfirmed()
    ensures var s := After(HugeSale());
            && Reachable(s) && 1 in s.recs && s.recs[1].escrow.state == Shipped
            && Lifecycle.ConfirmDelivery(s.g, {BUYER}, Some(s.recs[1]), BUYER, true) == Err(ArithmeticError)
  {
    LimitLifted();
    var one, two := [Lifting()], [Lifting()] + [HugeSale()[1]];
    AfterOneMore(one, HugeSale()[1]);
    HugeStep(After(one));
    AfterOneMore(two, Funding(1));
    HugeFundStep(After(two));
    AfterOneMore(two + [Funding(1)], HugeSale()[3]);
    HugeShipStep(After(two + [Funding(1)]));
    HugeConfirmationFails(After(HugeSale()).g);
  }

  // ── Paging and the indexer ──

  /** Writing an empty index over a flat vector: the vector reads back. */
  method EmptyWriteIsLost() returns (ids: seq<u64>)
    ensures ids == [7]
  {
    var index := new Paging.PagedIndex(Some([7]));
    index.Write([]);
    ids := index.ReadAll();
  }

  function FullLedger(): seq<Polling.Emitted> {
    [Polling.Emitted(1, 0, 0), Polling.Emitted(1, 0, 1), Polling.Emitted(2, 0, 2)]
  }

  /** Two events fill both the first ledger and a page of two: once they are consumed, every poll comes back empty
      although the next ledger holds an event. */
  lemma FullLedgerStalls()
    ensures Polling.Ordered(FullLedger())
    ensures Polling.Fetch(FullLedger(), Polling.CursorAt(FullLedger(), 2), 2) == []
  {
    var chain := FullLedger();
    assert chain[..3] == chain;
    assert Polling.Count(chain[..1], 1, 0) == 1 by {
      assert chain[..1][..0] == [];
    }
    Polling.ProgressIff(chain, 3, 2, 2);
  }

  /** A dispute on a basket escrow, whose row is in the basket table only. */
  function BasketDispute(): seq<Replay.Event> {
    var text := Tables.Text("");
    [Replay.Event(Polling.Cursor(1, 0, 0), 1, Replay.BasketCreated("1", text, Tables.Num(2), Tables.Num(0))),
     Replay.Event(Polling.Cursor(2, 0, 0), 1, Replay.DisputeRaised("1", text, text, text, text, text, Tables.Num(0)))]
  }

  /** However often the indexer is restarted, it never gets past the creation. */
  lemma BasketDisputeStops(budgets: seq<nat>)
    ensures var s0 := Replay.Store(map[], map[], Polling.ORIGIN);
            && Replay.Committed(s0, BasketDispute()) == 1
            && Batches.RunOnce(Replay.Transact, Replay.CursorOf, Replay.PositionOf,
                               Batches.RunMany(Replay.Transact, Replay.CursorOf, Replay.PositionOf,
                                               s0, BasketDispute(), budgets),
                               BasketDispute(), 2).cursor == Polling.Cursor(1, 0, 0)
  {
    var s0 := Replay.Store(map[], map[], Polling.ORIGIN);
    var events := BasketDispute();
    Replay.StopsAtFirstUnready(s0, events);
    assert Replay.Ready(s0.db, events, 0) && !Replay.Ready(s0.db, events, 1);
    Replay.ProcessedToTheEndIff(s0, events[..1]);
    Replay.CrashesDoNotMatter(s0, events, budgets);
  }
}
