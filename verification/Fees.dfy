/** Fee arithmetic on i128 amounts (`helpers/payout.rs`), and the bound on what fees can take. */
module Fees {
  import opened Types

  /** Floor of `amount * bps / 10_000`. */
  function FloorFee(amount: nat, bps: nat): nat {
    amount * bps / BASIS_POINTS
  }

  /** The split form the contract evaluates. Typing every intermediate as an i128 is what shows that none
      of the checked operations of the original can report an overflow. */
  function CalculateFee(amount: i128, bps: u32): (r: Result<i128>)
    ensures 0 <= amount && bps <= BASIS_POINTS ==> r == Ok(FloorFee(amount, bps)) && FloorFee(amount, bps) <= amount
    ensures amount < 0 || bps > BASIS_POINTS ==> r.Err?
  {
    if amount < 0 then Err(InvalidAmount)
    else if bps > BASIS_POINTS then Err(FeeExceedsMax)
    else
      SplitIsFloor(amount, bps);
      var part1: i128 := amount / BASIS_POINTS * bps;
      var product: i128 := amount % BASIS_POINTS * bps;
      var part2: i128 := product / BASIS_POINTS;
      Ok(part1 + part2)
  }

  lemma SplitIsFloor(amount: nat, bps: nat)
    requires bps <= BASIS_POINTS
    ensures amount / BASIS_POINTS * bps + amount % BASIS_POINTS * bps / BASIS_POINTS == FloorFee(amount, bps)
    ensures FloorFee(amount, bps) <= amount
    ensures 0 <= amount / BASIS_POINTS * bps <= amount
    ensures 0 <= amount % BASIS_POINTS * bps <= BASIS_POINTS * BASIS_POINTS
  {
    var q, m := amount / BASIS_POINTS, amount % BASIS_POINTS;
    assert amount * bps == BASIS_POINTS * (q * bps) + m * bps by {
      assert amount == BASIS_POINTS * q + m;
    }
    assert m * bps <= BASIS_POINTS * BASIS_POINTS;
    assert q * bps <= q * BASIS_POINTS;
    assert amount * bps <= amount * BASIS_POINTS;
  }

  /** `calculate_protocol_fee`: the fee and what is left for the recipient. */
  function ProtocolFee(amount: i128, bps: u32): (r: Result<(i128, i128)>)
    ensures r.Ok? <==> 0 <= amount && bps <= BASIS_POINTS
    ensures r.Ok? ==> r.value.0 == FloorFee(amount, bps) && r.value.0 + r.value.1 == amount && r.value.1 >= 0
  {
    var fee :- CalculateFee(amount, bps);
    Ok((fee, amount - fee))
  }

  /** 10_000 times a floored fee is within 9_999 of the exact product. */
  lemma FloorBounds(amount: nat, bps: nat)
    ensures BASIS_POINTS * FloorFee(amount, bps) <= amount * bps <= BASIS_POINTS * FloorFee(amount, bps) + 9_999
  {
  }

  /** No fee schedule within the caps takes more than its rate. */
  lemma CappedFee(amount: nat, bps: nat, cap: nat)
    requires bps <= cap
    ensures BASIS_POINTS * FloorFee(amount, bps) <= amount * cap
  {
    FloorBounds(amount, bps);
    assert amount * bps <= amount * cap;
  }

  // ── Indexer-side derivations (`indexer/src/types.ts`) ──

  function DeriveFee(gross: nat, bps: nat): nat
    requires bps <= BASIS_POINTS
  {
    gross * bps / BASIS_POINTS
  }

  /** Payout an indexer derives from a `DisputeResolved` event. */
  function DeriveDisputeNetAmount(amount: nat, arbitrationFee: nat, resolverFee: nat, platformFee: nat, bps: nat): int
    requires bps <= BASIS_POINTS
  {
    amount - platformFee - DeriveFee(amount + arbitrationFee + resolverFee, bps)
  }
}
