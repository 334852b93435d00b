/** The ways an escrow comes into being: argument checks and the record each one stores. */
module Creation {
  import opened Types
  import opened PayeeSplit
  import opened Voting
  import opened History
  import opened Records

  /** Arguments of the single-resolver creation paths. */
  datatype Terms = Terms(
    payees: seq<Payee>,
    buyer: Option<Address>,
    resolver: Address,
    token: Token,
    amount: i128,
    feeBps: u32,
    resolverFeeBps: u32,
    shippingWindow: u64,
    notes: string,
    expiresAt: Option<u64>,
    gracePeriod: u64)

  function SoleSeller(seller: Address): Payees {
    var payees := [Payee(seller, BASIS_POINTS)];
    assert payees[1..] == [];
    assert TotalBps(payees) == payees[0].bps + TotalBps([]);
    payees
  }

  /** A record as creation stores it: one history entry, nothing else recorded yet. */
  function NewRec(e: Escrow, basket: seq<TokenEntry>, expiry: Option<ExpirySchedule>, now: u64): Rec {
    Rec(e, None, [], basket, None, expiry, [Stamp(Pending, now)])
  }

  function PendingEscrow(payees: Payees, buyer: Option<Address>, resolvers: ResolverSet, token: Token, amount: i128,
                         feeBps: u32, resolverFeeBps: u32, shippingWindow: u64,
                         expiresAt: Option<u64>, gracePeriod: u64): Escrow {
    Escrow(payees, buyer, resolvers, token, amount, feeBps, resolverFeeBps, shippingWindow, 0, Pending, 0, None,
           expiresAt, gracePeriod)
  }

  function ResolverApproved(g: Globals, resolver: Address): Check {
    Need(g.cfg.resolverStrict ==> resolver in g.approvedResolvers, UnauthorizedResolver)
  }

  function TokenAllowed(g: Globals, t: Token): Check {
    Need(g.cfg.allowlistEnabled ==> t in g.allowedTokens, TokenNotAllowed)
  }

  function AmountWithinLimits(g: Globals, amount: i128): Check {
    if amount <= 0 then Fail(InvalidAmount)
    else if amount > g.cfg.maxAmount then Fail(AmountExceedsMaximum)
    else Need(amount >= g.cfg.minAmount, AmountBelowMinimum)
  }

  /** `create_escrow_internal`. */
  function CreateInternal(g: Globals, t: Terms): Result<Rec> {
    var valid := Need(t.payees != [], InvalidAddress);
    :- valid;
    :- Active(g, "CREATE");
    :- AmountWithinLimits(g, t.amount);
    :- Need(MIN_SHIPPING_WINDOW <= t.shippingWindow <= MAX_SHIPPING_WINDOW, InvalidShippingWindow);
    :- Need(t.gracePeriod <= MAX_GRACE_PERIOD, GracePeriodTooLong);
    :- Need(t.feeBps <= MAX_ESCROW_FEE_BPS, FeeExceedsMax);
    :- Need(t.resolverFeeBps <= MAX_ESCROW_FEE_BPS, FeeExceedsMax);
    PayeesCheckMeaning(t.payees);
    :- PayeesCheck(t.payees);
    :- Need(|t.notes| <= MAX_NOTES_LEN, InputTooLong);
    :- Need(!IsPayee(t.payees, t.resolver), ConflictingRoles);
    :- Need(t.buyer.Some? ==> !IsPayee(t.payees, t.buyer.value) && t.resolver != t.buyer.value, ConflictingRoles);
    :- ResolverApproved(g, t.resolver);
    :- TokenAllowed(g, t.token);
    Ok(NewRec(
      PendingEscrow(t.payees, t.buyer, Single(t.resolver), t.token, t.amount, t.feeBps, t.resolverFeeBps,
                    t.shippingWindow, t.expiresAt, t.gracePeriod),
      [], None, g.now))
  }

  function CreateEscrow(g: Globals, signers: Signers, t: Terms): Result<Rec> {
    var valid := Need(t.payees != [], IndexOutOfBounds);
    :- valid;
    :- Signed(signers, t.payees[0].address);
    :- Active(g, "create_escrow");
    CreateInternal(g, t.(expiresAt := None, gracePeriod := 0))
  }

  function CreateWithExpiration(g: Globals, signers: Signers, seller: Address, t: Terms): Result<Rec> {
    var auth := Signed(signers, seller);
    :- auth;
    :- Need(t.expiresAt.Some? ==> t.expiresAt.value > g.now, InvalidExpiration);
    :- Need(t.expiresAt.Some? ==> t.expiresAt.value + t.gracePeriod <= MAX_U64, ArithmeticOverflow);
    :- Need(t.gracePeriod <= MAX_GRACE_PERIOD, GracePeriodTooLong);
    var r :- CreateInternal(g, t.(payees := SoleSeller(seller), resolverFeeBps := 0, notes := ""));
    Ok(if t.expiresAt.None? then r else r.(expiry := Some(ExpirySchedule(t.expiresAt.value, t.gracePeriod))))
  }

  /** The duplicate-notes check of `batch_create_escrow`; empty notes never clash. */
  predicate NotesDistinct(inputs: seq<Terms>) {
    forall i, j :: 0 <= i < j < |inputs| && inputs[i].notes == inputs[j].notes ==> inputs[i].notes == ""
  }

  /** `validate_resolvers`. */
  function ResolversCheck(g: Globals, rs: ResolverSet, seller: Address, buyer: Option<Address>): Check {
    if IsResolver(rs, seller) then Fail(ConflictingRoles)
    else if buyer.Some? && IsResolver(rs, buyer.value) then Fail(ConflictingRoles)
    else match rs
      case Single(_) => Pass
      case Multi(members, quorum) =>
        if members == [] || quorum == 0 || quorum > |members| then Fail(InvalidResolverThreshold)
        else Need(Distinct(members), DuplicateResolver)
      case Fallback(primary, backup, deadline) =>
        if primary == backup then Fail(DuplicateResolver)
        else if g.now + MAX_FALLBACK_DEADLINE_OFFSET > MAX_U64 then Fail(ArithmeticOverflow)
        else Need(deadline <= g.now + MAX_FALLBACK_DEADLINE_OFFSET, InvalidFallbackDeadline)
  }

  function CreateMulti(g: Globals, signers: Signers, seller: Address, buyer: Option<Address>, members: seq<Address>,
                       quorum: u32, token: Token, amount: i128, feeBps: u32, shippingWindow: u64): Result<Rec> {
    var auth := Signed(signers, seller);
    :- auth;
    :- Active(g, "create_escrow_multi");
    :- Need(amount > 0, InvalidAmount);
    :- Need(amount <= MAX_ESCROW_AMOUNT, AmountExceedsMaximum);
    :- Need(feeBps <= MAX_ESCROW_FEE_BPS, FeeExceedsMax);
    :- TokenAllowed(g, token);
    :- ResolversCheck(g, Multi(members, quorum), seller, buyer);
    Ok(NewRec(PendingEscrow(SoleSeller(seller), buyer, Multi(members, quorum), token, amount, feeBps, 0,
                            shippingWindow, None, 0), [], None, g.now))
  }

  function CreateWithFallback(g: Globals, signers: Signers, seller: Address, buyer: Option<Address>, primary: Address,
                              backup: Address, deadline: u64, token: Token, amount: i128, feeBps: u32,
                              shippingWindow: u64): Result<Rec> {
    var auth := Signed(signers, seller);
    :- auth;
    :- Active(g, "create_escrow_with_fallback");
    :- Need(amount > 0, InvalidAmount);
    :- Need(amount <= MAX_ESCROW_AMOUNT, AmountExceedsMaximum);
    :- Need(feeBps <= MAX_ESCROW_FEE_BPS, FeeExceedsMax);
    :- ResolversCheck(g, Fallback(primary, backup, deadline), seller, buyer);
    Ok(NewRec(PendingEscrow(SoleSeller(seller), buyer, Fallback(primary, backup, deadline), token, amount, feeBps, 0,
                            shippingWindow, None, 0), [], None, g.now))
  }

  // ── Baskets ──

  predicate DistinctTokens(basket: seq<TokenEntry>) {
    forall i, j :: 0 <= i < j < |basket| ==> basket[i].token != basket[j].token
  }

  /** The first pass over the amounts: zero is let through here and refused by the second pass. */
  function AmountsFirstPass(g: Globals, basket: seq<TokenEntry>): Check {
    if basket == [] then Pass
    else if basket[0].amount < 0 then Fail(InvalidAmount)
    else if basket[0].amount > g.cfg.maxAmount then Fail(AmountExceedsMaximum)
    else if 0 < basket[0].amount < g.cfg.minAmount then Fail(AmountBelowMinimum)
    else AmountsFirstPass(g, basket[1..])
  }

  function AmountsSecondPass(g: Globals, basket: seq<TokenEntry>): Check {
    if basket == [] then Pass
    else if AmountWithinLimits(g, basket[0].amount).Fail? then AmountWithinLimits(g, basket[0].amount)
    else AmountsSecondPass(g, basket[1..])
  }

  predicate TokensAllowed(g: Globals, basket: seq<TokenEntry>) {
    forall i :: 0 <= i < |basket| ==> TokenAllowed(g, basket[i].token).Pass?
  }

  function CreateBasket(g: Globals, signers: Signers, seller: Address, buyer: Option<Address>, resolver: Address,
                        tokens: seq<Token>, amounts: seq<i128>, feeBps: u32, shippingWindow: u64, notes: string,
                        expiresAt: Option<u64>, gracePeriod: u64): Result<Rec> {
    var auth := Signed(signers, seller);
    :- auth;
    :- Active(g, "create_basket_escrow");
    :- Need(|tokens| == |amounts| && 0 < |tokens| <= MAX_BASKET_SIZE, BasketTokenMismatch);
    var basket := Basket(tokens, amounts);
    :- Need(DistinctTokens(basket), BasketTokenMismatch);
    BasketRec(g, seller, buyer, resolver, basket, feeBps, shippingWindow, notes, expiresAt, gracePeriod)
  }

  /** Roles, resolver approval and token allowlist of a basket escrow. */
  function BasketParties(g: Globals, seller: Address, buyer: Option<Address>, resolver: Address,
                         basket: seq<TokenEntry>): Check {
    if resolver == seller then Fail(ConflictingRoles)
    else if buyer.Some? && (buyer.value == seller || buyer.value == resolver) then Fail(ConflictingRoles)
    else if ResolverApproved(g, resolver).Fail? then ResolverApproved(g, resolver)
    else Need(TokensAllowed(g, basket), TokenNotAllowed)
  }

  /** The checks on amounts, terms and roles of a basket escrow, and the record it stores. */
  function BasketRec(g: Globals, seller: Address, buyer: Option<Address>, resolver: Address, basket: seq<TokenEntry>,
                     feeBps: u32, shippingWindow: u64, notes: string, expiresAt: Option<u64>,
                     gracePeriod: u64): Result<Rec>
    requires basket != []
  {
    var valid := AmountsFirstPass(g, basket);
    :- valid;
    :- Need(basket[0].amount != 0, AmountBelowMinimum);
    :- Need(feeBps <= MAX_ESCROW_FEE_BPS, FeeExceedsMax);
    :- Need(MIN_SHIPPING_WINDOW <= shippingWindow <= MAX_SHIPPING_WINDOW, InvalidShippingWindow);
    :- Need(|notes| <= MAX_NOTES_LEN, InputTooLong);
    :- Need(expiresAt.Some? ==> expiresAt.value > g.now, InvalidExpiration);
    :- AmountsSecondPass(g, basket);
    :- BasketParties(g, seller, buyer, resolver, basket);
    :- Need(expiresAt.Some? ==> expiresAt.value + gracePeriod <= MAX_U64, ArithmeticOverflow);
    Ok(NewRec(
      PendingEscrow(SoleSeller(seller), buyer, Single(resolver), basket[0].token, basket[0].amount, feeBps, 0,
                    shippingWindow, expiresAt, 0),
      basket,
      if expiresAt.None? then None else Some(ExpirySchedule(expiresAt.value, gracePeriod)),
      g.now))
  }

  function Basket(tokens: seq<Token>, amounts: seq<i128>): (b: seq<TokenEntry>)
    requires |tokens| == |amounts|
    ensures |b| == |tokens| && forall i :: 0 <= i < |b| ==> b[i] == TokenEntry(tokens[i], amounts[i])
  {
    seq(|tokens|, i requires 0 <= i < |tokens| => TokenEntry(tokens[i], amounts[i]))
  }

  /** What the two passes leave: every entry positive and within the configured limits. */
  lemma {:induction false} BasketAmounts(g: Globals, basket: seq<TokenEntry>)
    ensures AmountsSecondPass(g, basket).Pass? <==>
            forall i :: 0 <= i < |basket| ==>
              0 < basket[i].amount && g.cfg.minAmount <= basket[i].amount <= g.cfg.maxAmount
  {
    if basket != [] {
      BasketAmounts(g, basket[1..]);
      assert forall i :: 0 < i < |basket| ==> basket[i] == basket[1..][i - 1];
    }
  }
}
