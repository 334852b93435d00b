/** Balances of well-behaved SEP-41 tokens and the transfers a call issues. */
module Ledger {
  import opened Types

  datatype Transfer = Transfer(token: Token, from: Address, to: Address, amount: nat)

  type Balances = map<(Token, Address), int>

  function Balance(l: Balances, t: Token, a: Address): int {
    if (t, a) in l then l[(t, a)] else 0
  }

  /** One SEP-41 `transfer`; the debit is visible to the credit, so paying oneself is neutral. */
  function Post(l: Balances, tr: Transfer): Balances {
    var debited := l[(tr.token, tr.from) := Balance(l, tr.token, tr.from) - tr.amount];
    debited[(tr.token, tr.to) := Balance(debited, tr.token, tr.to) + tr.amount]
  }

  function Pay(l: Balances, trs: seq<Transfer>): Balances
    decreases |trs|
  {
    if trs == [] then l else Pay(Post(l, trs[0]), trs[1..])
  }

  /** Every transfer, in order, is covered by its payer's balance at that moment. */
  predicate Affordable(l: Balances, trs: seq<Transfer>)
    decreases |trs|
  {
    trs == [] || (trs[0].amount <= Balance(l, trs[0].token, trs[0].from) && Affordable(Post(l, trs[0]), trs[1..]))
  }

  function Received(trs: seq<Transfer>, t: Token, a: Address): nat {
    if trs == [] then 0
    else (if trs[0].token == t && trs[0].to == a then trs[0].amount else 0) + Received(trs[1..], t, a)
  }

  function Sent(trs: seq<Transfer>, t: Token, a: Address): nat {
    if trs == [] then 0
    else (if trs[0].token == t && trs[0].from == a then trs[0].amount else 0) + Sent(trs[1..], t, a)
  }

  predicate AllFrom(trs: seq<Transfer>, a: Address) {
    forall i :: 0 <= i < |trs| ==> trs[i].from == a
  }

  lemma {:induction false} FlowAppend(a: seq<Transfer>, b: seq<Transfer>, t: Token, who: Address)
    ensures Received(a + b, t, who) == Received(a, t, who) + Received(b, t, who)
    ensures Sent(a + b, t, who) == Sent(a, t, who) + Sent(b, t, who)
  {
    if a == [] {
      assert a + b == b;
    } else {
      assert (a + b)[1..] == a[1..] + b;
      FlowAppend(a[1..], b, t, who);
    }
  }

  /** Conservation: an account ends with what it had plus what it received minus what it sent. */
  lemma {:induction false} PayMoves(l: Balances, trs: seq<Transfer>, t: Token, a: Address)
    ensures Balance(Pay(l, trs), t, a) == Balance(l, t, a) + Received(trs, t, a) - Sent(trs, t, a)
    decreases |trs|
  {
    if trs != [] {
      PayMoves(Post(l, trs[0]), trs[1..], t, a);
    }
  }

  /** A payer whose balance covers what it sends of each token in total can make every transfer. */
  lemma {:induction false} CoveredIsAffordable(l: Balances, trs: seq<Transfer>, a: Address)
    requires AllFrom(trs, a)
    requires forall t :: Sent(trs, t, a) <= Balance(l, t, a)
    ensures Affordable(l, trs)
    decreases |trs|
  {
    if trs != [] {
      var l', rest := Post(l, trs[0]), trs[1..];
      assert trs[0].from == a;
      assert Sent(trs, trs[0].token, a) <= Balance(l, trs[0].token, a);
      forall t ensures Sent(rest, t, a) <= Balance(l', t, a) {
        assert Sent(trs, t, a) <= Balance(l, t, a);
      }
      CoveredIsAffordable(l', rest, a);
    }
  }

  // ── Outgoing payments ──

  /** `payout`: the contract pays `amount`, skipping non-positive amounts. */
  function Payout(t: Token, to: Address, amount: i128): seq<Transfer> {
    if amount <= 0 then [] else [Transfer(t, Contract, to, amount)]
  }

  predicate Transferable(entry: TokenEntry, primary: Token) {
    entry.token != primary && entry.amount > 0
  }

  /** `payout_basket_tokens`: every non-primary entry goes to one recipient. */
  function BasketPayouts(basket: seq<TokenEntry>, primary: Token, to: Address): seq<Transfer> {
    if basket == [] then []
    else (if Transferable(basket[0], primary) then Payout(basket[0].token, to, basket[0].amount) else [])
         + BasketPayouts(basket[1..], primary, to)
  }

  /** The non-primary legs of `fund_escrow`. */
  function BasketDeposits(basket: seq<TokenEntry>, primary: Token, from: Address): seq<Transfer> {
    if basket == [] then []
    else (if Transferable(basket[0], primary)
          then [Transfer(basket[0].token, from, Contract, basket[0].amount)] else [])
         + BasketDeposits(basket[1..], primary, from)
  }

  /** The legs of `fund_basket_escrow`: every positive entry, the primary one included. */
  function AllDeposits(basket: seq<TokenEntry>, from: Address): seq<Transfer> {
    if basket == [] then []
    else (if basket[0].amount > 0 then [Transfer(basket[0].token, from, Contract, basket[0].amount)] else [])
         + AllDeposits(basket[1..], from)
  }

  /** What a basket obliges the contract to hold in `t` beyond the primary token. */
  function BasketHold(basket: seq<TokenEntry>, primary: Token, t: Token): nat {
    if basket == [] then 0
    else (if Transferable(basket[0], primary) && basket[0].token == t then basket[0].amount else 0)
         + BasketHold(basket[1..], primary, t)
  }

  lemma {:induction false} BasketFlows(basket: seq<TokenEntry>, primary: Token, who: Address, t: Token)
    ensures AllFrom(BasketPayouts(basket, primary, who), Contract)
    ensures Sent(BasketPayouts(basket, primary, who), t, Contract) == BasketHold(basket, primary, t)
    ensures who != Contract ==> Received(BasketPayouts(basket, primary, who), t, Contract) == 0
    ensures who != Contract ==>
            Received(BasketDeposits(basket, primary, who), t, Contract) == BasketHold(basket, primary, t)
    ensures who != Contract ==> Sent(BasketDeposits(basket, primary, who), t, Contract) == 0
  {
    if basket != [] {
      BasketFlows(basket[1..], primary, who, t);
      var h := if Transferable(basket[0], primary) then Payout(basket[0].token, who, basket[0].amount) else [];
      var d := if Transferable(basket[0], primary)
               then [Transfer(basket[0].token, who, Contract, basket[0].amount)] else [];
      FlowAppend(h, BasketPayouts(basket[1..], primary, who), t, Contract);
      FlowAppend(d, BasketDeposits(basket[1..], primary, who), t, Contract);
    }
  }

  /** The two funding entry points issue the same transfers on a basket whose head is its primary entry. */
  lemma {:induction false} FundingLegsAgree(basket: seq<TokenEntry>, from: Address)
    requires |basket| > 0
    requires forall i :: 0 <= i < |basket| ==> basket[i].amount > 0
    requires forall i :: 0 < i < |basket| ==> basket[i].token != basket[0].token
    ensures AllDeposits(basket, from)
         == [Transfer(basket[0].token, from, Contract, basket[0].amount)]
            + BasketDeposits(basket, basket[0].token, from)
  {
    OthersAgree(basket[1..], basket[0].token, from);
  }

  lemma {:induction false} OthersAgree(basket: seq<TokenEntry>, primary: Token, from: Address)
    requires forall i :: 0 <= i < |basket| ==> basket[i].amount > 0 && basket[i].token != primary
    ensures AllDeposits(basket, from) == BasketDeposits(basket, primary, from)
  {
    if basket != [] {
      OthersAgree(basket[1..], primary, from);
    }
  }

  // ── Loops over transfers and basket entries ──

  /** The host executes the transfers of a call in order and reverts on the first one that is not covered. */
  method ExecuteTransfers(ledger: Balances, trs: seq<Transfer>) returns (r: Result<Balances>)
    ensures r == if Affordable(ledger, trs) then Ok(Pay(ledger, trs)) else Err(TransferFailed)
  {
    var l := ledger;
    for i := 0 to |trs|
      invariant Affordable(ledger, trs) <==> Affordable(l, trs[i..])
      invariant Pay(ledger, trs) == Pay(l, trs[i..])
    {
      assert trs[i..][1..] == trs[i + 1..];
      if Balance(l, trs[i].token, trs[i].from) < trs[i].amount {
        return Err(TransferFailed);
      }
      l := Post(l, trs[i]);
    }
    r := Ok(l);
  }

  /** `payout_basket_tokens`, skipping the primary token by value. */
  method PayoutBasketTokens(basket: seq<TokenEntry>, primary: Token, to: Address) returns (pays: seq<Transfer>)
    ensures pays == BasketPayouts(basket, primary, to)
  {
    pays := [];
    for i := 0 to |basket|
      invariant pays + BasketPayouts(basket[i..], primary, to) == BasketPayouts(basket, primary, to)
    {
      assert basket[i..][1..] == basket[i + 1..];
      ghost var rest := BasketPayouts(basket[i + 1..], primary, to);
      if Transferable(basket[i], primary) {
        var payout := Payout(basket[i].token, to, basket[i].amount);
        assert pays + (payout + rest) == (pays + payout) + rest;
        pays := pays + payout;
      } else {
        assert BasketPayouts(basket[i..], primary, to) == rest;
      }
    }
  }

  /** The basket loop of `fund_escrow`. */
  method DepositBasketTokens(basket: seq<TokenEntry>, primary: Token, from: Address) returns (pays: seq<Transfer>)
    ensures pays == BasketDeposits(basket, primary, from)
  {
    pays := [];
    for i := 0 to |basket|
      invariant pays + BasketDeposits(basket[i..], primary, from) == BasketDeposits(basket, primary, from)
    {
      assert basket[i..][1..] == basket[i + 1..];
      if Transferable(basket[i], primary) {
        pays := pays + [Transfer(basket[i].token, from, Contract, basket[i].amount)];
      }
    }
  }

  /** The basket loop of `fund_basket_escrow`. */
  method DepositAllTokens(basket: seq<TokenEntry>, from: Address) returns (pays: seq<Transfer>)
    ensures pays == AllDeposits(basket, from)
  {
    pays := [];
    for i := 0 to |basket|
      invariant pays + AllDeposits(basket[i..], from) == AllDeposits(basket, from)
    {
      assert basket[i..][1..] == basket[i + 1..];
      if basket[i].amount > 0 {
        pays := pays + [Transfer(basket[i].token, from, Contract, basket[i].amount)];
      }
    }
  }
}
