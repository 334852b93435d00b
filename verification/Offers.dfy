/** Creating escrows: exactly when each creation call is accepted, and that the stored record is what the caller asked
    for. */
module Offers {
  import opened Types
  import opened PayeeSplit
  import opened Records
  import opened Machine
  import opened Creation
  import opened Authority
  import History

  /** An escrow as offered: the parties, the price and the deadlines that were asked for, and nothing done yet. */
  ghost predicate OffersWhat(b: Rec, payees: seq<Payee>, buyer: Option<Address>, resolvers: ResolverSet, token: Token,
                             amount: int, feeBps: int, resolverFeeBps: int, window: int) {
    && b.escrow.payees == payees && b.escrow.buyer == buyer && b.escrow.resolvers == resolvers
    && b.escrow.token == token && b.escrow.amount == amount
    && b.escrow.feeBps == feeBps && b.escrow.resolverFeeBps == resolverFeeBps && b.escrow.shippingWindow == window
  }

  ghost predicate Untouched(b: Rec, now: u64) {
    && b.escrow.state == Pending && b.escrow.packedTimestamps == 0 && b.escrow.shippedAt == 0
    && b.escrow.deliveredAt.None? && b.dispute.None? && b.votes == [] && b.proposal.None?
    && b.history == [History.Entry(Pending, now % History.STAMP_RANGE)]
  }

  ghost predicate OffersWhen(b: Rec, expiresAt: Option<u64>, grace: int, schedule: Option<ExpirySchedule>) {
    b.escrow.expiresAt == expiresAt && b.escrow.gracePeriod == grace && b.expiry == schedule
  }

  // ── Terms ──

  ghost predicate ValidPayees(payees: seq<Payee>) {
    && 0 < |payees| <= MAX_PAYEES && TotalBps(payees) == BASIS_POINTS
    && forall i :: 0 <= i < |payees| ==> payees[i].address != ZeroAddress
  }

  predicate PriceOk(g: Globals, amount: int) {
    0 < amount && g.cfg.minAmount <= amount <= g.cfg.maxAmount
  }

  ghost predicate Names(payees: seq<Payee>, a: Address) {
    exists i :: 0 <= i < |payees| && payees[i].address == a
  }

  ghost predicate Acceptable(g: Globals, payees: seq<Payee>, buyer: Option<Address>, resolver: Address, token: Token,
                             amount: int, feeBps: int, resolverFeeBps: int, window: int, notesLen: nat) {
    && Open(g, "CREATE") && ValidPayees(payees) && PriceOk(g, amount)
    && feeBps <= MAX_ESCROW_FEE_BPS && resolverFeeBps <= MAX_ESCROW_FEE_BPS
    && MIN_SHIPPING_WINDOW <= window <= MAX_SHIPPING_WINDOW && notesLen <= MAX_NOTES_LEN
    && !Names(payees, resolver)
    && (buyer.Some? ==> !Names(payees, buyer.value) && buyer.value != resolver)
    && (g.cfg.resolverStrict ==> resolver in g.approvedResolvers)
    && (g.cfg.allowlistEnabled ==> token in g.allowedTokens)
  }

  function Sole(seller: Address): seq<Payee> {
    [Payee(seller, BASIS_POINTS)]
  }

  lemma InternalTerms(g: Globals, t: Terms)
    ensures CreateInternal(g, t).Ok? <==>
            && Acceptable(g, t.payees, t.buyer, t.resolver, t.token, t.amount, t.feeBps, t.resolverFeeBps,
                          t.shippingWindow, |t.notes|)
            && t.gracePeriod <= MAX_GRACE_PERIOD
    ensures CreateInternal(g, t).Ok? ==>
              var b := CreateInternal(g, t).value;
              && OffersWhat(b, t.payees, t.buyer, Single(t.resolver), t.token, t.amount, t.feeBps, t.resolverFeeBps,
                            t.shippingWindow)
              && OffersWhen(b, t.expiresAt, t.gracePeriod, None) && Untouched(b, g.now) && b.basket == []
  {
    PayeesCheckMeaning(t.payees);
  }

  /** `create_escrow`. */
  lemma EscrowTerms(g: Globals, signers: Signers, t: Terms)
    ensures Creation.CreateEscrow(g, signers, t).Ok? <==>
            && Acceptable(g, t.payees, t.buyer, t.resolver, t.token, t.amount, t.feeBps, t.resolverFeeBps,
                          t.shippingWindow, |t.notes|)
            && Signs(signers, t.payees[0].address) && Open(g, "create_escrow")
    ensures Creation.CreateEscrow(g, signers, t).Ok? ==>
              var b := Creation.CreateEscrow(g, signers, t).value;
              && OffersWhat(b, t.payees, t.buyer, Single(t.resolver), t.token, t.amount, t.feeBps, t.resolverFeeBps,
                            t.shippingWindow)
              && OffersWhen(b, None, 0, None) && Untouched(b, g.now) && b.basket == []
  {
    InternalTerms(g, t.(expiresAt := None, gracePeriod := 0));
  }

  /** `create_escrow_with_expiration`: one seller, no resolver fee, and a schedule if there is an expiry. */
  lemma ExpiringTerms(g: Globals, signers: Signers, seller: Address, t: Terms)
    ensures Creation.CreateWithExpiration(g, signers, seller, t).Ok? <==>
            && Acceptable(g, Sole(seller), t.buyer, t.resolver, t.token, t.amount, t.feeBps, 0, t.shippingWindow, 0)
            && Signs(signers, seller) && t.gracePeriod <= MAX_GRACE_PERIOD
            && (t.expiresAt.Some? ==> g.now < t.expiresAt.value && t.expiresAt.value + t.gracePeriod <= MAX_U64)
    ensures Creation.CreateWithExpiration(g, signers, seller, t).Ok? ==>
              var b := Creation.CreateWithExpiration(g, signers, seller, t).value;
              && OffersWhat(b, Sole(seller), t.buyer, Single(t.resolver), t.token, t.amount, t.feeBps, 0,
                            t.shippingWindow)
              && OffersWhen(b, t.expiresAt, t.gracePeriod,
                            if t.expiresAt.None? then None
                            else Some(ExpirySchedule(t.expiresAt.value, t.gracePeriod)))
              && Untouched(b, g.now) && b.basket == []
  {
    InternalTerms(g, t.(payees := SoleSeller(seller), resolverFeeBps := 0, notes := ""));
  }

  // ── Committees and fallback pairs ──

  ghost predicate CommitteeOk(members: seq<Address>, quorum: int) {
    && 0 < quorum <= |members|
    && forall i, j :: 0 <= i < j < |members| ==> members[i] != members[j]
  }

  /** `create_escrow_multi`: no lower limit on the price, none on the shipping window, and a buyer who may be the
      seller. */
  lemma CommitteeTerms(g: Globals, signers: Signers, seller: Address, buyer: Option<Address>, members: seq<Address>,
                       quorum: u32, token: Token, amount: i128, feeBps: u32, window: u64)
    ensures Creation.CreateMulti(g, signers, seller, buyer, members, quorum, token, amount, feeBps, window).Ok? <==>
            && Signs(signers, seller) && Open(g, "create_escrow_multi")
            && 0 < amount <= MAX_ESCROW_AMOUNT && feeBps <= MAX_ESCROW_FEE_BPS
            && (g.cfg.allowlistEnabled ==> token in g.allowedTokens)
            && CommitteeOk(members, quorum) && seller !in members && (buyer.Some? ==> buyer.value !in members)
    ensures var plan := Creation.CreateMulti(g, signers, seller, buyer, members, quorum, token, amount, feeBps, window);
            plan.Ok? ==>
              && OffersWhat(plan.value, Sole(seller), buyer, Multi(members, quorum), token, amount, feeBps, 0, window)
              && OffersWhen(plan.value, None, 0, None) && Untouched(plan.value, g.now) && plan.value.basket == []
  {
  }

  /** `create_escrow_with_fallback`: as loose, and not limited to the allowlist either. */
  lemma FallbackTerms(g: Globals, signers: Signers, seller: Address, buyer: Option<Address>, primary: Address,
                      backup: Address, deadline: u64, token: Token, amount: i128, feeBps: u32, window: u64)
    ensures Creation.CreateWithFallback(g, signers, seller, buyer, primary, backup, deadline, token, amount, feeBps,
                                        window).Ok? <==>
            && Signs(signers, seller) && Open(g, "create_escrow_with_fallback")
            && 0 < amount <= MAX_ESCROW_AMOUNT && feeBps <= MAX_ESCROW_FEE_BPS
            && primary != backup && seller != primary && seller != backup
            && (buyer.Some? ==> buyer.value != primary && buyer.value != backup)
            && deadline <= g.now + MAX_FALLBACK_DEADLINE_OFFSET <= MAX_U64
    ensures var plan := Creation.CreateWithFallback(g, signers, seller, buyer, primary, backup, deadline, token, amount,
                                                    feeBps, window);
            plan.Ok? ==>
              && OffersWhat(plan.value, Sole(seller), buyer, Fallback(primary, backup, deadline), token, amount, feeBps,
                            0, window)
              && OffersWhen(plan.value, None, 0, None) && Untouched(plan.value, g.now) && plan.value.basket == []
  {
  }

  // ── Baskets ──

  ghost predicate BasketAcceptable(g: Globals, seller: Address, buyer: Option<Address>, resolver: Address,
                                   tokens: seq<Token>, amounts: seq<i128>, feeBps: int, window: int, notesLen: nat) {
    && Open(g, "create_basket_escrow") && 0 < |tokens| == |amounts| <= MAX_BASKET_SIZE
    && (forall i, j :: 0 <= i < j < |tokens| ==> tokens[i] != tokens[j])
    && (forall i :: 0 <= i < |amounts| ==> PriceOk(g, amounts[i]))
    && feeBps <= MAX_ESCROW_FEE_BPS && MIN_SHIPPING_WINDOW <= window <= MAX_SHIPPING_WINDOW
    && notesLen <= MAX_NOTES_LEN
    && resolver != seller && (buyer.Some? ==> buyer.value != seller && buyer.value != resolver)
    && (g.cfg.resolverStrict ==> resolver in g.approvedResolvers)
    && (g.cfg.allowlistEnabled ==> forall i :: 0 <= i < |tokens| ==> tokens[i] in g.allowedTokens)
  }

  lemma {:induction false} FirstPassFollows(g: Globals, basket: seq<TokenEntry>)
    requires forall i :: 0 <= i < |basket| ==> PriceOk(g, basket[i].amount)
    ensures AmountsFirstPass(g, basket).Pass?
  {
    if basket != [] {
      FirstPassFollows(g, basket[1..]);
    }
  }

  /** What the two passes and the other checks of a basket amount to. */
  lemma BasketChecks(g: Globals, basket: seq<TokenEntry>)
    requires basket != []
    ensures AmountsFirstPass(g, basket).Pass? && basket[0].amount != 0 && AmountsSecondPass(g, basket).Pass? <==>
            forall i :: 0 <= i < |basket| ==> PriceOk(g, basket[i].amount)
  {
    BasketAmounts(g, basket);
    if forall i :: 0 <= i < |basket| ==> PriceOk(g, basket[i].amount) {
      FirstPassFollows(g, basket);
    }
  }

  lemma BasketMatches(g: Globals, tokens: seq<Token>, amounts: seq<i128>)
    requires |tokens| == |amounts|
    ensures var basket := Basket(tokens, amounts);
            && (DistinctTokens(basket) <==> forall i, j :: 0 <= i < j < |tokens| ==> tokens[i] != tokens[j])
            && ((forall i :: 0 <= i < |basket| ==> PriceOk(g, basket[i].amount)) <==>
                 forall i :: 0 <= i < |amounts| ==> PriceOk(g, amounts[i]))
            && (TokensAllowed(g, basket) <==>
                (g.cfg.allowlistEnabled ==> forall i :: 0 <= i < |tokens| ==> tokens[i] in g.allowedTokens))
  {
    var basket := Basket(tokens, amounts);
    if TokensAllowed(g, basket) {
      forall i | 0 <= i < |tokens| && g.cfg.allowlistEnabled ensures tokens[i] in g.allowedTokens {
        assert TokenAllowed(g, basket[i].token).Pass?;
      }
    }
    if DistinctTokens(basket) {
      forall i, j | 0 <= i < j < |tokens| ensures tokens[i] != tokens[j] {
        assert basket[i].token != basket[j].token;
      }
    }
    if forall i :: 0 <= i < |basket| ==> PriceOk(g, basket[i].amount) {
      forall i | 0 <= i < |amounts| ensures PriceOk(g, amounts[i]) {
        assert PriceOk(g, basket[i].amount);
      }
    }
  }

  /** The checks that come after the tokens have been told apart, and the record. */
  lemma BasketRecTerms(g: Globals, seller: Address, buyer: Option<Address>, resolver: Address, basket: seq<TokenEntry>,
                       feeBps: u32, window: u64, notes: string, expiresAt: Option<u64>, grace: u64)
    requires basket != []
    ensures BasketRec(g, seller, buyer, resolver, basket, feeBps, window, notes, expiresAt, grace).Ok? <==>
            && (forall i :: 0 <= i < |basket| ==> PriceOk(g, basket[i].amount))
            && feeBps <= MAX_ESCROW_FEE_BPS && MIN_SHIPPING_WINDOW <= window <= MAX_SHIPPING_WINDOW
            && |notes| <= MAX_NOTES_LEN
            && resolver != seller && (buyer.Some? ==> buyer.value != seller && buyer.value != resolver)
            && (g.cfg.resolverStrict ==> resolver in g.approvedResolvers) && TokensAllowed(g, basket)
            && (expiresAt.Some? ==> g.now < expiresAt.value && expiresAt.value + grace <= MAX_U64)
    ensures var plan := BasketRec(g, seller, buyer, resolver, basket, feeBps, window, notes, expiresAt, grace);
            plan.Ok? ==>
              && OffersWhat(plan.value, Sole(seller), buyer, Single(resolver), basket[0].token, basket[0].amount,
                            feeBps, 0, window)
              && OffersWhen(plan.value, expiresAt, 0,
                            if expiresAt.None? then None else Some(ExpirySchedule(expiresAt.value, grace)))
              && Untouched(plan.value, g.now) && plan.value.basket == basket
  {
    BasketChecks(g, basket);
  }

  /** `create_basket_escrow`. */
  lemma BasketTerms(g: Globals, signers: Signers, seller: Address, buyer: Option<Address>, resolver: Address,
                    tokens: seq<Token>, amounts: seq<i128>, feeBps: u32, window: u64, notes: string,
                    expiresAt: Option<u64>, grace: u64)
    ensures Creation.CreateBasket(g, signers, seller, buyer, resolver, tokens, amounts, feeBps, window, notes,
                                  expiresAt, grace).Ok? <==>
            && Signs(signers, seller)
            && BasketAcceptable(g, seller, buyer, resolver, tokens, amounts, feeBps, window, |notes|)
            && (expiresAt.Some? ==> g.now < expiresAt.value && expiresAt.value + grace <= MAX_U64)
    ensures var plan := Creation.CreateBasket(g, signers, seller, buyer, resolver, tokens, amounts, feeBps, window,
                                              notes, expiresAt, grace);
            plan.Ok? ==>
              && OffersWhat(plan.value, Sole(seller), buyer, Single(resolver), tokens[0], amounts[0], feeBps, 0, window)
              && OffersWhen(plan.value, expiresAt, 0,
                            if expiresAt.None? then None else Some(ExpirySchedule(expiresAt.value, grace)))
              && Untouched(plan.value, g.now)
              && |plan.value.basket| == |tokens|
              && forall i :: 0 <= i < |tokens| ==> plan.value.basket[i] == TokenEntry(tokens[i], amounts[i])
  {
    if 0 < |tokens| == |amounts| {
      BasketMatches(g, tokens, amounts);
      BasketRecTerms(g, seller, buyer, resolver, Basket(tokens, amounts), feeBps, window, notes, expiresAt, grace);
    }
  }

  // ── Storing them ──

  /** A creation call stores its record under the next id, lists it for its seller, and touches nothing else. */
  lemma CreationStores(s: State, signers: Signers, c: Call)
    requires CreatesOne(c)
    ensures Exec(s, signers, c).Ok? <==> NewRecord(s.g, signers, c).Ok? && s.nextId + 1 <= MAX_U64
    ensures Exec(s, signers, c).Ok? ==>
              var (b, s') := (NewRecord(s.g, signers, c).value, Exec(s, signers, c).value);
              && s'.recs == s.recs[s.nextId := b] && s'.nextId == s.nextId + 1
              && s'.g == s.g && s'.ledger == s.ledger && s'.buyerIndex == s.buyerIndex
  {
  }

  /** What `batch_create_escrow` makes of one of its inputs. */
  ghost predicate BatchItem(g: Globals, seller: Address, t: Terms, b: Rec) {
    && OffersWhat(b, Sole(seller), t.buyer, Single(t.resolver), t.token, t.amount, t.feeBps, t.resolverFeeBps,
                  t.shippingWindow)
    && OffersWhen(b, None, 0, None) && Untouched(b, g.now) && b.basket == []
  }

  ghost predicate ItemAcceptable(g: Globals, seller: Address, t: Terms) {
    Acceptable(g, Sole(seller), t.buyer, t.resolver, t.token, t.amount, t.feeBps, t.resolverFeeBps, t.shippingWindow,
               |t.notes|)
  }

  lemma ItemTerms(g: Globals, seller: Address, t: Terms)
    ensures var plan := CreateInternal(g, t.(payees := SoleSeller(seller), expiresAt := None, gracePeriod := 0));
            && (plan.Ok? <==> ItemAcceptable(g, seller, t))
            && (plan.Ok? ==> BatchItem(g, seller, t, plan.value))
  {
    InternalTerms(g, t.(payees := SoleSeller(seller), expiresAt := None, gracePeriod := 0));
  }

  /** Item `k` of a batch is stored under the id `k` places on. */
  ghost predicate StoredAt(s: State, s': State, seller: Address, inputs: seq<Terms>, k: nat)
    requires k < |inputs|
  {
    s.nextId + k in s'.recs && BatchItem(s.g, seller, inputs[k], s'.recs[s.nextId + k])
  }

  /** All items are stored so, and older ids keep their records. */
  ghost predicate BatchStored(s: State, s': State, seller: Address, inputs: seq<Terms>) {
    && s'.g == s.g && s'.ledger == s.ledger && s'.buyerIndex == s.buyerIndex && s'.nextId == s.nextId + |inputs|
    && (forall k :: 0 <= k < |inputs| ==> StoredAt(s, s', seller, inputs, k))
    && (forall id: u64 :: id < s.nextId ==>
          (id in s'.recs <==> id in s.recs) && (id in s.recs ==> s'.recs[id] == s.recs[id]))
  }

  /** One item stored, the others still to come. */
  ghost predicate ItemStored(s: State, s1: State, seller: Address, t: Terms) {
    && s1.g == s.g && s1.ledger == s.ledger && s1.buyerIndex == s.buyerIndex && s1.nextId == s.nextId + 1
    && s.nextId in s1.recs && BatchItem(s.g, seller, t, s1.recs[s.nextId])
    && (forall id: u64 :: id < s.nextId ==>
          (id in s1.recs <==> id in s.recs) && (id in s.recs ==> s1.recs[id] == s.recs[id]))
  }

  function Item(seller: Address, t: Terms): Terms {
    t.(payees := SoleSeller(seller), expiresAt := None, gracePeriod := 0)
  }

  lemma ItemIsStored(s: State, seller: Address, t: Terms)
    ensures Issue(s, CreateInternal(s.g, Item(seller, t))).Ok? <==>
            ItemAcceptable(s.g, seller, t) && s.nextId + 1 <= MAX_U64
    ensures Issue(s, CreateInternal(s.g, Item(seller, t))).Ok? ==>
              ItemStored(s, Issue(s, CreateInternal(s.g, Item(seller, t))).value, seller, t)
  {
    ItemTerms(s.g, seller, t);
  }

  lemma BatchJoins(s: State, s1: State, s': State, seller: Address, inputs: seq<Terms>)
    requires inputs != [] && ItemStored(s, s1, seller, inputs[0]) && BatchStored(s1, s', seller, inputs[1..])
    ensures BatchStored(s, s', seller, inputs)
  {
    forall k | 0 <= k < |inputs| ensures StoredAt(s, s', seller, inputs, k) {
      if k == 0 {
        assert s'.recs[s.nextId] == s1.recs[s.nextId];
      } else {
        assert inputs[1..][k - 1] == inputs[k];
        assert StoredAt(s1, s', seller, inputs[1..], k - 1);
      }
    }
  }

  ghost predicate BatchAcceptable(s: State, seller: Address, inputs: seq<Terms>) {
    && (inputs != [] ==> s.nextId + |inputs| <= MAX_U64)
    && forall k :: 0 <= k < |inputs| ==> ItemAcceptable(s.g, seller, inputs[k])
  }

  lemma BatchSplits(s: State, s1: State, seller: Address, inputs: seq<Terms>)
    requires inputs != [] && s1.g == s.g && s1.nextId == s.nextId + 1
    ensures BatchAcceptable(s, seller, inputs) <==>
            ItemAcceptable(s.g, seller, inputs[0]) && BatchAcceptable(s1, seller, inputs[1..])
  {
    assert forall k :: 0 < k < |inputs| ==> inputs[k] == inputs[1..][k - 1];
    if BatchAcceptable(s1, seller, inputs[1..]) && ItemAcceptable(s.g, seller, inputs[0]) {
      forall k | 0 <= k < |inputs| ensures ItemAcceptable(s.g, seller, inputs[k]) {
        if k > 0 {
          assert ItemAcceptable(s1.g, seller, inputs[1..][k - 1]);
        }
      }
    }
  }

  lemma {:induction false} IssueAllStores(s: State, seller: Address, inputs: seq<Terms>)
    ensures IssueAll(s, seller, inputs).Ok? <==> BatchAcceptable(s, seller, inputs)
    ensures IssueAll(s, seller, inputs).Ok? ==> BatchStored(s, IssueAll(s, seller, inputs).value, seller, inputs)
    decreases |inputs|
  {
    if inputs != [] {
      ItemIsStored(s, seller, inputs[0]);
      var first := Issue(s, CreateInternal(s.g, Item(seller, inputs[0])));
      if first.Ok? {
        var s1 := first.value;
        BatchSplits(s, s1, seller, inputs);
        IssueAllStores(s1, seller, inputs[1..]);
        if IssueAll(s1, seller, inputs[1..]).Ok? {
          BatchJoins(s, s1, IssueAll(s1, seller, inputs[1..]).value, seller, inputs);
        }
      }
    }
  }

  /** `batch_create_escrow`: all of it or nothing, under consecutive ids, each item as its terms say. */
  lemma BatchTerms(s: State, signers: Signers, seller: Address, inputs: seq<Terms>)
    ensures BatchCreate(s, signers, seller, inputs).Ok? <==>
            && Signs(signers, seller) && Open(s.g, "batch_create_escrow")
            && (forall i, j :: 0 <= i < j < |inputs| && inputs[i].notes != "" ==> inputs[i].notes != inputs[j].notes)
            && BatchAcceptable(s, seller, inputs)
    ensures BatchCreate(s, signers, seller, inputs).Ok? ==>
              BatchStored(s, BatchCreate(s, signers, seller, inputs).value, seller, inputs)
  {
    IssueAllStores(s, seller, inputs);
  }
}
