/** Splitting an amount across payees by basis points (`distribute_to_payees`, `validate_payees`). */
module PayeeSplit {
  import opened Types
  import opened Fees
  import opened Ledger

  /** Floored shares of `payees`, in order. */
  function FlooredTotal(payees: seq<Payee>, amount: nat): nat {
    if payees == [] then 0 else FloorFee(amount, payees[0].bps) + FlooredTotal(payees[1..], amount)
  }

  function FlooredShares(t: Token, payees: seq<Payee>, amount: nat): seq<Transfer> {
    if payees == [] then []
    else PaidShare(t, payees[0].address, FloorFee(amount, payees[0].bps)) + FlooredShares(t, payees[1..], amount)
  }

  /** One payee's transfer; a share that floors to zero is not transferred. */
  function PaidShare(t: Token, to: Address, share: nat): seq<Transfer> {
    if share == 0 then [] else [Transfer(t, Contract, to, share)]
  }

  /** Whether `amount * bps` fits an i128 for every payee of the list. */
  predicate SharesFit(payees: seq<Payee>, amount: nat) {
    forall i :: 0 <= i < |payees| ==> amount * payees[i].bps <= MAX_I128
  }

  /** What the primary payee receives: everything the others did not. */
  function PrimaryShare(payees: Payees, amount: nat): int {
    amount - FlooredTotal(payees[1..], amount)
  }

  /** The transfers a distribution issues: the others first, the primary payee last. */
  function Shares(t: Token, payees: Payees, amount: nat): seq<Transfer> {
    FlooredShares(t, payees[1..], amount)
    + (if PrimaryShare(payees, amount) <= 0 then []
       else [Transfer(t, Contract, payees[0].address, PrimaryShare(payees, amount))])
  }

  /** Floors lose less than one unit each, so their total is within one unit per payee of the exact total. */
  lemma {:induction false} FlooredTotalBounds(payees: seq<Payee>, amount: nat)
    ensures BASIS_POINTS * FlooredTotal(payees, amount) <= amount * TotalBps(payees)
    ensures amount * TotalBps(payees) <= BASIS_POINTS * FlooredTotal(payees, amount) + 9_999 * |payees|
  {
    if payees != [] {
      FlooredTotalBounds(payees[1..], amount);
      FloorBounds(amount, payees[0].bps);
      assert amount * TotalBps(payees) == amount * payees[0].bps + amount * TotalBps(payees[1..]);
    }
  }

  /** The primary payee never gets less than its exact share, and at most 9_999/10_000 of a unit more for
      each other payee; in particular the running remainder never goes negative. */
  lemma PrimaryShareBounds(payees: Payees, amount: nat)
    ensures 0 <= PrimaryShare(payees, amount) <= amount
    ensures amount * payees[0].bps <= BASIS_POINTS * PrimaryShare(payees, amount)
    ensures BASIS_POINTS * PrimaryShare(payees, amount) <= amount * payees[0].bps + 9_999 * (|payees| - 1)
  {
    FlooredTotalBounds(payees[1..], amount);
    assert amount * BASIS_POINTS == amount * payees[0].bps + amount * TotalBps(payees[1..]);
    assert 0 <= amount * payees[0].bps;
  }

  lemma {:induction false} FlooredSharesFlow(t: Token, payees: seq<Payee>, amount: nat)
    ensures AllFrom(FlooredShares(t, payees, amount), Contract)
    ensures forall u ::
            Sent(FlooredShares(t, payees, amount), u, Contract) == if u == t then FlooredTotal(payees, amount) else 0
  {
    if payees != [] {
      FlooredSharesFlow(t, payees[1..], amount);
      var h := PaidShare(t, payees[0].address, FloorFee(amount, payees[0].bps));
      forall u
        ensures Sent(FlooredShares(t, payees, amount), u, Contract)
             == if u == t then FlooredTotal(payees, amount) else 0
      {
        FlowAppend(h, FlooredShares(t, payees[1..], amount), u, Contract);
      }
    }
  }

  /** The distribution pays out exactly `amount`, whatever addresses repeat. */
  lemma DistributionIsExact(t: Token, payees: Payees, amount: nat)
    ensures AllFrom(Shares(t, payees, amount), Contract)
    ensures forall u :: Sent(Shares(t, payees, amount), u, Contract) == if u == t then amount else 0
  {
    PrimaryShareBounds(payees, amount);
    FlooredSharesFlow(t, payees[1..], amount);
    var last := if PrimaryShare(payees, amount) <= 0 then []
                else [Transfer(t, Contract, payees[0].address, PrimaryShare(payees, amount))];
    forall u ensures Sent(Shares(t, payees, amount), u, Contract) == if u == t then amount else 0 {
      FlowAppend(FlooredShares(t, payees[1..], amount), last, u, Contract);
    }
  }

  lemma {:induction false} ShareWithinWhole(payees: seq<Payee>, i: nat)
    requires i < |payees|
    ensures payees[i].bps <= TotalBps(payees)
  {
    if i > 0 {
      ShareWithinWhole(payees[1..], i - 1);
    }
  }

  /** No share of an amount within the escrow cap overflows. Above the cap it may: the admin's limits have no upper
      bound. */
  lemma SplitWithinCapFits(payees: Payees, amount: nat)
    requires amount <= MAX_ESCROW_AMOUNT
    ensures SharesFit(payees[1..], amount)
  {
    forall i | 0 <= i < |payees[1..]| ensures amount * payees[1..][i].bps <= MAX_I128 {
      ShareWithinWhole(payees, i + 1);
      assert amount * payees[i + 1].bps <= amount * BASIS_POINTS;
    }
  }

  /** Share owed to the account `a` by the split, adding up every entry that names it. */
  function ShareOf(payees: seq<Payee>, amount: nat, a: Address): nat {
    if payees == [] then 0
    else (if payees[0].address == a then FloorFee(amount, payees[0].bps) else 0) + ShareOf(payees[1..], amount, a)
  }

  lemma {:induction false} FlooredSharesReach(t: Token, payees: seq<Payee>, amount: nat, a: Address)
    ensures Received(FlooredShares(t, payees, amount), t, a) == ShareOf(payees, amount, a)
  {
    if payees != [] {
      FlooredSharesReach(t, payees[1..], amount, a);
      var h := PaidShare(t, payees[0].address, FloorFee(amount, payees[0].bps));
      FlowAppend(h, FlooredShares(t, payees[1..], amount), t, a);
    }
  }

  /** Every account receives the sum of the floored shares that name it, plus the remainder if it is the
      primary payee: repeated addresses and the fee collector are handled alike. */
  lemma DistributionReaches(t: Token, payees: Payees, amount: nat, a: Address)
    ensures Received(Shares(t, payees, amount), t, a)
         == ShareOf(payees[1..], amount, a) + (if a == payees[0].address then PrimaryShare(payees, amount) else 0)
  {
    PrimaryShareBounds(payees, amount);
    FlooredSharesReach(t, payees[1..], amount, a);
    var last := if PrimaryShare(payees, amount) <= 0 then []
                else [Transfer(t, Contract, payees[0].address, PrimaryShare(payees, amount))];
    FlowAppend(FlooredShares(t, payees[1..], amount), last, t, a);
  }

  /** `distribute_to_payees`: the transfers it issues, built by the running-remainder loop. */
  method DistributeToPayees(t: Token, payees: Payees, amount: i128) returns (r: Result<seq<Transfer>>)
    ensures r == if amount < 0 then Err(InvalidAmount)
                 else if SharesFit(payees[1..], amount) then Ok(Shares(t, payees, amount))
                 else Err(ArithmeticError)
  {
    if amount < 0 {
      return Err(InvalidAmount);
    }
    var pays, remaining := [], amount;
    for i := 1 to |payees|
      invariant SharesFit(payees[1..i], amount)
      invariant remaining == amount - FlooredTotal(payees[1..i], amount) >= 0
      invariant pays == FlooredShares(t, payees[1..i], amount)
    {
      assert payees[1..i + 1] == payees[1..i] + [payees[i]];
      FlooredConcat(t, payees[1..i], [payees[i]], amount);
      var product := amount * payees[i].bps;
      if product > MAX_I128 {
        assert payees[1..][i - 1] == payees[i];
        return Err(ArithmeticError);
      }
      RemainderStays(payees, i + 1, amount);
      var share := product / BASIS_POINTS;
      pays := pays + Payout(t, payees[i].address, share);
      remaining := remaining - share;
    }
    assert payees[1..|payees|] == payees[1..];
    pays := pays + Payout(t, payees[0].address, remaining);
    r := Ok(pays);
  }

  lemma {:induction false} FlooredConcat(t: Token, a: seq<Payee>, b: seq<Payee>, amount: nat)
    ensures FlooredTotal(a + b, amount) == FlooredTotal(a, amount) + FlooredTotal(b, amount)
    ensures FlooredShares(t, a + b, amount) == FlooredShares(t, a, amount) + FlooredShares(t, b, amount)
  {
    if a == [] {
      assert a + b == b;
    } else {
      assert (a + b)[1..] == a[1..] + b;
      FlooredConcat(t, a[1..], b, amount);
      var h := PaidShare(t, a[0].address, FloorFee(amount, a[0].bps));
      assert h + (FlooredShares(t, a[1..], amount) + FlooredShares(t, b, amount))
          == (h + FlooredShares(t, a[1..], amount)) + FlooredShares(t, b, amount);
    }
  }

  /** The running remainder of the loop is never negative. */
  lemma RemainderStays(payees: Payees, i: nat, amount: nat)
    requires 1 <= i <= |payees|
    ensures FlooredTotal(payees[1..i], amount) <= amount
  {
    assert payees[1..] == payees[1..i] + payees[i..];
    FlooredConcat(0, payees[1..i], payees[i..], amount);
    PrimaryShareBounds(payees, amount);
  }

  /** `validate_payees`: the accumulating loop over the list. */
  method ValidatePayees(payees: seq<Payee>) returns (r: Check)
    ensures r == PayeesCheck(payees)
  {
    if |payees| == 0 || |payees| > MAX_PAYEES {
      return Fail(InvalidAddress);
    }
    var total := 0;
    for i := 0 to |payees|
      invariant 0 <= total <= MAX_U32
      invariant ScanPayees(payees, 0) == ScanPayees(payees[i..], total)
    {
      assert payees[i..][1..] == payees[i + 1..];
      if total + payees[i].bps > MAX_U32 {
        return Fail(ArithmeticError);
      }
      total := total + payees[i].bps;
      if payees[i].address == ZeroAddress {
        return Fail(InvalidAddress);
      }
    }
    r := Need(total == BASIS_POINTS, PayeeBpsMismatch);
  }

  function ScanPayees(payees: seq<Payee>, total: nat): Check {
    if payees == [] then Need(total == BASIS_POINTS, PayeeBpsMismatch)
    else if total + payees[0].bps > MAX_U32 then Fail(ArithmeticError)
    else if payees[0].address == ZeroAddress then Fail(InvalidAddress)
    else ScanPayees(payees[1..], total + payees[0].bps)
  }

  function PayeesCheck(payees: seq<Payee>): Check {
    if |payees| == 0 || |payees| > MAX_PAYEES then Fail(InvalidAddress) else ScanPayees(payees, 0)
  }

  /** The check passes exactly on non-empty lists of at most ten non-zero payees whose shares are 100%. */
  lemma PayeesCheckMeaning(payees: seq<Payee>)
    ensures PayeesCheck(payees).Pass? <==>
            0 < |payees| <= MAX_PAYEES && TotalBps(payees) == BASIS_POINTS
            && forall i :: 0 <= i < |payees| ==> payees[i].address != ZeroAddress
  {
    ScanMeaning(payees, 0);
  }

  lemma {:induction false} ScanMeaning(payees: seq<Payee>, total: nat)
    ensures ScanPayees(payees, total).Pass? <==>
            && total + TotalBps(payees) == BASIS_POINTS
            && forall i :: 0 <= i < |payees| ==> payees[i].address != ZeroAddress
  {
    if payees != [] {
      ScanMeaning(payees[1..], total + payees[0].bps);
      assert (forall i :: 0 <= i < |payees| ==> payees[i].address != ZeroAddress)
        <==> payees[0].address != ZeroAddress
             && forall i :: 0 <= i < |payees[1..]| ==> payees[1..][i].address != ZeroAddress;
    }
  }
}
