/** The vendor and buyer indexes against the escrow table. */
module Indexes {
  import opened Types
  import opened History
  import opened Records
  import opened RecordInvariant
  import opened Machine
  import opened Runs
  import opened Custody
  import Creation
  import Traces

  // ── What the indexes should hold ──

  /** How often an escrow is listed for its seller: basket creation appends its id twice. */
  function Listings(r: Rec, id: u64): seq<u64> {
    if r.basket == [] then [id] else [id, id]
  }

  /** The ids up to `n` whose primary payee is `v`, in creation order. */
  ghost function SoldBy(recs: map<u64, Rec>, v: Address, n: nat): seq<u64> {
    if n == 0 then []
    else SoldBy(recs, v, n - 1) + (if n in recs && Primary(recs[n]) == v then Listings(recs[n], n) else [])
  }

  ghost predicate VendorsOk(s: State) {
    forall v :: Listed(s.vendorIndex, v) == SoldBy(s.recs, v, Issued(s))
  }

  ghost predicate FundedBy(s: State, b: Address, id: u64) {
    id in s.recs && WasFunded(s.recs[id]) && s.recs[id].escrow.buyer == Some(b)
  }

  ghost predicate NoRepeats(ids: seq<u64>) {
    forall i, j :: 0 <= i < j < |ids| ==> ids[i] != ids[j]
  }

  /** Exactly the ids `b` funded, once each. */
  ghost predicate BuyerListOk(s: State, b: Address) {
    && NoRepeats(Listed(s.buyerIndex, b))
    && forall id: u64 :: id in Listed(s.buyerIndex, b) <==> FundedBy(s, b, id)
  }

  ghost predicate BuyersOk(s: State) {
    forall b :: BuyerListOk(s, b)
  }

  // ── Vendors ──

  lemma {:induction false} SoldByFrame(recs: map<u64, Rec>, recs': map<u64, Rec>, v: Address, n: nat)
    requires forall i: u64 :: i <= n ==> (i in recs <==> i in recs')
    requires forall i: u64 :: i <= n && i in recs ==>
             Primary(recs[i]) == Primary(recs'[i]) && recs[i].basket == recs'[i].basket
    ensures SoldBy(recs, v, n) == SoldBy(recs', v, n)
  {
    if n > 0 {
      SoldByFrame(recs, recs', v, n - 1);
    }
  }

  lemma CommitVendors(s: State, id: u64, m: Move)
    requires VendorsOk(s) && id in s.recs && Evolves(s.recs[id], m.rec)
    ensures VendorsOk(Commit(s, id, m))
  {
    forall v ensures Listed(s.vendorIndex, v) == SoldBy(Commit(s, id, m).recs, v, Issued(s)) {
      SoldByFrame(s.recs, Commit(s, id, m).recs, v, Issued(s));
    }
  }

  lemma IssueVendors(s: State, plan: Result<Rec>)
    requires VendorsOk(s) && s.nextId >= 1 && Issue(s, plan).Ok?
    ensures VendorsOk(Issue(s, plan).value)
  {
    var s' := Issue(s, plan).value;
    forall v ensures Listed(s'.vendorIndex, v) == SoldBy(s'.recs, v, Issued(s')) {
      SoldByFrame(s.recs, s'.recs, v, Issued(s));
      assert SoldBy(s'.recs, v, s.nextId)
          == SoldBy(s'.recs, v, s.nextId - 1)
             + (if Primary(plan.value) == v then Listings(plan.value, s.nextId) else []);
    }
  }

  // ── Buyers ──

  lemma IssueBuyers(s: State, plan: Result<Rec>)
    requires BuyersOk(s) && s.nextId !in s.recs && Issue(s, plan).Ok? && !WasFunded(plan.value)
    ensures BuyersOk(Issue(s, plan).value)
  {
    var s' := Issue(s, plan).value;
    forall b ensures BuyerListOk(s', b) {
      assert BuyerListOk(s, b);
      forall id: u64 ensures FundedBy(s', b, id) <==> FundedBy(s, b, id) {
      }
    }
  }

  /** A record that was not just funded keeps its place. */
  lemma CommitBuyersKeeps(s: State, id: u64, m: Move)
    requires BuyersOk(s) && id in s.recs && Evolves(s.recs[id], m.rec)
    requires !JustEntered(s.recs[id], m.rec, Funded)
    requires WasFunded(m.rec) <==> WasFunded(s.recs[id])
    ensures BuyersOk(Commit(s, id, m))
  {
    var s' := Commit(s, id, m);
    forall b ensures BuyerListOk(s', b) {
      assert BuyerListOk(s, b);
      forall i: u64 ensures FundedBy(s', b, i) <==> FundedBy(s, b, i) {
      }
    }
  }

  /** Funding appends the id to the buyer's list, where it was not before. */
  lemma CommitBuyersFunds(s: State, id: u64, m: Move)
    requires BuyersOk(s) && id in s.recs && JustEntered(s.recs[id], m.rec, Funded)
    requires !WasFunded(s.recs[id]) && WasFunded(m.rec) && m.rec.escrow.buyer.Some?
    ensures BuyersOk(Commit(s, id, m))
  {
    forall b ensures BuyerListOk(Commit(s, id, m), b) {
      FundedListOk(s, id, m, b);
    }
  }

  lemma FundedListOk(s: State, id: u64, m: Move, b: Address)
    requires BuyerListOk(s, b) && id in s.recs && JustEntered(s.recs[id], m.rec, Funded)
    requires !WasFunded(s.recs[id]) && WasFunded(m.rec) && m.rec.escrow.buyer.Some?
    ensures BuyerListOk(Commit(s, id, m), b)
  {
    var s', before := Commit(s, id, m), Listed(s.buyerIndex, b);
    forall i: u64 ensures FundedBy(s', b, i) <==> FundedBy(s, b, i) || (i == id && m.rec.escrow.buyer == Some(b)) {
    }
    assert id !in before;
    if m.rec.escrow.buyer == Some(b) {
      assert Listed(s'.buyerIndex, b) == before + [id];
      forall i | 0 <= i < |before| ensures before[i] != id {
        assert before[i] in before;
      }
    }
  }

  ghost predicate IndexesOk(s: State) {
    VendorsOk(s) && BuyersOk(s)
  }

  /** A legal move enters `Funded` from `Pending` only, and that is when `WasFunded` starts to hold. */
  lemma WhenFunded(r: Rec, m: Move, now: u64)
    requires RecOk(r, now) && LegalMove(r, m, now)
    ensures JustEntered(r, m.rec, Funded) ==> !WasFunded(r) && WasFunded(m.rec) && m.rec.escrow.buyer.Some?
    ensures !JustEntered(r, m.rec, Funded) ==> (WasFunded(m.rec) <==> WasFunded(r))
  {
    if m.rec.escrow.state != r.escrow.state {
      ExtendPath(r.history, m.rec.escrow.state, now);
    }
  }

  lemma EscrowCallIndexes(s: State, signers: Signers, c: Call)
    requires TableOk(s) && IndexesOk(s) && ActsOnEscrow(c) && Exec(s, signers, c).Ok?
    ensures IndexesOk(Exec(s, signers, c).value)
  {
    EscrowCallFunds(s, signers, c);
    EscrowCallEvolves(s, signers, c);
    var m := Plan(s.g, signers, c, Some(s.recs[c.id])).value;
    CommitVendors(s, c.id, m);
    if JustEntered(s.recs[c.id], m.rec, Funded) {
      CommitBuyersFunds(s, c.id, m);
    } else {
      CommitBuyersKeeps(s, c.id, m);
    }
  }

  lemma EscrowCallFunds(s: State, signers: Signers, c: Call)
    requires TableOk(s) && ActsOnEscrow(c) && Exec(s, signers, c).Ok?
    ensures c.id in s.recs && Plan(s.g, signers, c, Some(s.recs[c.id])).Ok?
    ensures var (r, b) := (s.recs[c.id], Plan(s.g, signers, c, Some(s.recs[c.id])).value.rec);
            && (JustEntered(r, b, Funded) ==> !WasFunded(r) && WasFunded(b) && b.escrow.buyer.Some?)
            && (!JustEntered(r, b, Funded) ==> (WasFunded(b) <==> WasFunded(r)))
  {
    EscrowCall(s, signers, c);
    WhenFunded(s.recs[c.id], Plan(s.g, signers, c, Some(s.recs[c.id])).value, s.g.now);
  }

  lemma CreationIndexes(s: State, plan: Result<Rec>)
    requires IndexesOk(s) && s.nextId >= 1 && s.nextId !in s.recs && Issue(s, plan).Ok? && !WasFunded(plan.value)
    ensures IndexesOk(Issue(s, plan).value)
  {
    IssueVendors(s, plan);
    IssueBuyers(s, plan);
  }

  lemma NewIsUnfunded(g: Globals, signers: Signers, c: Call)
    requires CreatesOne(c) && NewRecord(g, signers, c).Ok?
    ensures !WasFunded(NewRecord(g, signers, c).value)
  {
    NewRecordOk(g, signers, c);
  }

  lemma {:induction false} BatchIndexes(s: State, seller: Address, inputs: seq<Creation.Terms>)
    requires IndexesOk(s) && s.nextId >= 1 && (forall i: u64 :: i >= s.nextId ==> i !in s.recs)
    requires IssueAll(s, seller, inputs).Ok?
    ensures IndexesOk(IssueAll(s, seller, inputs).value)
    decreases |inputs|
  {
    if inputs != [] {
      var terms := inputs[0].(payees := Creation.SoleSeller(seller), expiresAt := None, gracePeriod := 0);
      CreationIndexes(s, Creation.CreateInternal(s.g, terms));
      BatchIndexes(Issue(s, Creation.CreateInternal(s.g, terms)).value, seller, inputs[1..]);
    }
  }

  lemma OtherIndexes(s: State, signers: Signers, c: Call)
    requires IndexesOk(s) && s.nextId >= 1 && (forall i: u64 :: i >= s.nextId ==> i !in s.recs)
    requires !CreatesOne(c) && !ActsOnEscrow(c) && ExecOther(s, signers, c).Ok?
    ensures IndexesOk(ExecOther(s, signers, c).value)
  {
    if c.BatchCreateEscrow? {
      BatchIndexes(s, c.seller, c.inputs);
    } else {
      SameListsSameIndexes(s, ExecOther(s, signers, c).value);
    }
  }

  lemma SameListsSameIndexes(s: State, s': State)
    requires IndexesOk(s) && s'.recs == s.recs && s'.nextId == s.nextId
    requires s'.vendorIndex == s.vendorIndex && s'.buyerIndex == s.buyerIndex
    ensures IndexesOk(s')
  {
    forall b ensures BuyerListOk(s', b) {
      assert BuyerListOk(s, b);
      forall i: u64 ensures FundedBy(s', b, i) <==> FundedBy(s, b, i) {
      }
    }
  }

  lemma NewRecordIndexes(s: State, signers: Signers, c: Call)
    requires IndexesOk(s) && s.nextId >= 1 && s.nextId !in s.recs && CreatesOne(c) && Exec(s, signers, c).Ok?
    ensures IndexesOk(Exec(s, signers, c).value)
  {
    NewIsUnfunded(s.g, signers, c);
    CreationIndexes(s, NewRecord(s.g, signers, c));
  }

  lemma NextIndexes(s: State, i: Input)
    requires TableOk(s) && IndexesOk(s)
    ensures IndexesOk(Next(s, i))
  {
    if Exec(s, i.signers, i.call).Ok? {
      if CreatesOne(i.call) {
        NewRecordIndexes(s, i.signers, i.call);
      } else if ActsOnEscrow(i.call) {
        EscrowCallIndexes(s, i.signers, i.call);
      } else {
        OtherIndexes(s, i.signers, i.call);
      }
    }
  }

  ghost predicate GoodAndIndexed(s: State) {
    Inv(s) && IndexesOk(s)
  }

  lemma NextGoodAndIndexed(s: State, i: Input)
    requires GoodAndIndexed(s)
    ensures GoodAndIndexed(Next(s, i))
  {
    NextKeeps(s, i);
    NextIndexes(s, i);
  }

  lemma InitialIndexes(s: State)
    requires Initialized(s)
    ensures IndexesOk(s)
  {
    InitiallyEmpty(s);
    EmptyIndexes(s);
  }

  lemma EmptyIndexes(s: State)
    requires s.recs == map[] && s.nextId == 1 && s.vendorIndex == map[] && s.buyerIndex == map[]
    ensures IndexesOk(s)
  {
    forall b ensures BuyerListOk(s, b) {
    }
  }

  /** In every reachable state, seller `v` is listed with exactly the escrows whose primary payee is `v`, in creation
      order, baskets twice; and buyer `b` with exactly the escrows `b` funded, once each. */
  lemma IndexesAgreeWithTable(s: State)
    requires Reachable(s)
    ensures forall v :: Listed(s.vendorIndex, v) == SoldBy(s.recs, v, Issued(s))
    ensures forall b :: NoRepeats(Listed(s.buyerIndex, b))
    ensures forall b, id: u64 :: id in Listed(s.buyerIndex, b) <==> FundedBy(s, b, id)
  {
    forall b | Initialized(b) ensures GoodAndIndexed(b) {
      InitialIsGood(b);
      InitialIndexes(b);
    }
    forall b, i | GoodAndIndexed(b) ensures GoodAndIndexed(Next(b, i)) {
      NextGoodAndIndexed(b, i);
    }
    Inductive(GoodAndIndexed, s);
    forall b
      ensures NoRepeats(Listed(s.buyerIndex, b))
      ensures forall id: u64 :: id in Listed(s.buyerIndex, b) <==> FundedBy(s, b, id)
    {
      assert BuyerListOk(s, b);
    }
  }

  /** How often seller `v`'s list should name `id`. */
  ghost function TimesSold(recs: map<u64, Rec>, v: Address, n: nat, id: u64): nat {
    if 1 <= id <= n && id in recs && Primary(recs[id]) == v then |Listings(recs[id], id)| else 0
  }

  ghost function Occurrences(ids: seq<u64>, id: u64): nat {
    if ids == [] then 0 else Occurrences(ids[..|ids| - 1], id) + (if ids[|ids| - 1] == id then 1 else 0)
  }

  lemma OccurrencesGrow(ids: seq<u64>, r: Rec, n: u64, id: u64)
    ensures Occurrences(ids + Listings(r, n), id) == Occurrences(ids, id) + (if id == n then |Listings(r, n)| else 0)
  {
    assert (ids + [n])[..|ids|] == ids;
    assert (ids + [n, n])[..|ids| + 1] == ids + [n];
  }

  /** Each escrow of the seller is listed once, or twice if it is a basket; nothing else is listed. */
  lemma {:induction false} SoldByCounts(recs: map<u64, Rec>, v: Address, n: nat, id: u64)
    ensures Occurrences(SoldBy(recs, v, n), id) == TimesSold(recs, v, n, id)
  {
    if n > 0 {
      SoldByCounts(recs, v, n - 1, id);
      if n in recs && Primary(recs[n]) == v {
        OccurrencesGrow(SoldBy(recs, v, n - 1), recs[n], n, id);
      } else {
        assert SoldBy(recs, v, n) == SoldBy(recs, v, n - 1);
      }
    }
  }

  ghost predicate NonDecreasing(ids: seq<u64>) {
    forall i, j :: 0 <= i < j < |ids| ==> ids[i] <= ids[j]
  }

  /** The seller's list is in creation order. */
  lemma {:induction false} SoldByAscends(recs: map<u64, Rec>, v: Address, n: nat)
    ensures NonDecreasing(SoldBy(recs, v, n))
    ensures forall i :: 0 <= i < |SoldBy(recs, v, n)| ==> SoldBy(recs, v, n)[i] <= n
  {
    if n > 0 {
      SoldByAscends(recs, v, n - 1);
    }
  }

  // ── Order of the buyer's list ──

  /** Lists only grow at the end, over any run: the order is the order of funding. */
  ghost predicate ListsGrow(s: State, s': State) {
    && (forall b :: Listed(s.buyerIndex, b) <= Listed(s'.buyerIndex, b))
    && (forall v :: Listed(s.vendorIndex, v) <= Listed(s'.vendorIndex, v))
  }

  lemma {:induction false} IssueAllListsGrow(s: State, seller: Address, inputs: seq<Creation.Terms>)
    requires IssueAll(s, seller, inputs).Ok?
    ensures ListsGrow(s, IssueAll(s, seller, inputs).value)
    decreases |inputs|
  {
    if inputs != [] {
      var terms := inputs[0].(payees := Creation.SoleSeller(seller), expiresAt := None, gracePeriod := 0);
      IssueAllListsGrow(Issue(s, Creation.CreateInternal(s.g, terms)).value, seller, inputs[1..]);
    }
  }

  lemma NextListsGrow(s: State, i: Input)
    ensures ListsGrow(s, Next(s, i))
  {
    if Exec(s, i.signers, i.call).Ok? {
      if ActsOnEscrow(i.call) {
        ExecIsCommit(s, i.signers, i.call);
        CommitListsGrow(s, i.call.id, Plan(s.g, i.signers, i.call, Some(s.recs[i.call.id])).value);
      } else if CreatesOne(i.call) {
        IssueListsGrow(s, NewRecord(s.g, i.signers, i.call));
      } else {
        OtherListsGrow(s, i.signers, i.call);
      }
    }
  }

  lemma IssueListsGrow(s: State, plan: Result<Rec>)
    requires Issue(s, plan).Ok?
    ensures ListsGrow(s, Issue(s, plan).value)
  {
  }

  lemma OtherListsGrow(s: State, signers: Signers, c: Call)
    requires !CreatesOne(c) && !ActsOnEscrow(c) && ExecOther(s, signers, c).Ok?
    ensures ListsGrow(s, ExecOther(s, signers, c).value)
  {
    if c.BatchCreateEscrow? {
      IssueAllListsGrow(s, c.seller, c.inputs);
    }
  }

  lemma CommitListsGrow(s: State, id: u64, m: Move)
    requires id in s.recs
    ensures ListsGrow(s, Commit(s, id, m))
  {
  }

  lemma IndexesOnlyGrow(s: State, s': State)
    requires Leads(s, s')
    ensures ListsGrow(s, s')
  {
    forall b, i ensures ListsGrow(b, Next(b, i)) {
      NextListsGrow(b, i);
    }
    Traces.Throughout(Next, (b: State) => true, ListsGrow, s, s');
  }

  /** A successful funding call puts its id at the end of the buyer's list and touches no other list. */
  lemma FundingAppends(s: State, signers: Signers, c: Call)
    requires Reachable(s) && (c.FundEscrow? || c.FundBasketEscrow?) && Exec(s, signers, c).Ok?
    ensures var s' := Exec(s, signers, c).value;
            && Listed(s'.buyerIndex, c.buyer) == Listed(s.buyerIndex, c.buyer) + [c.id]
            && forall b :: b != c.buyer ==> Listed(s'.buyerIndex, b) == Listed(s.buyerIndex, b)
  {
    ExecIsCommit(s, signers, c);
    FundingPlan(s.g, signers, c, s.recs[c.id]);
    CommitLists(s, c.id, Plan(s.g, signers, c, Some(s.recs[c.id])).value, c.buyer);
  }

  lemma CommitLists(s: State, id: u64, m: Move, buyer: Address)
    requires id in s.recs && JustEntered(s.recs[id], m.rec, Funded) && m.rec.escrow.buyer == Some(buyer)
    ensures var s' := Commit(s, id, m);
            && Listed(s'.buyerIndex, buyer) == Listed(s.buyerIndex, buyer) + [id]
            && forall b :: b != buyer ==> Listed(s'.buyerIndex, b) == Listed(s.buyerIndex, b)
  {
  }

  lemma FundingPlan(g: Globals, signers: Signers, c: Call, r: Rec)
    requires (c.FundEscrow? || c.FundBasketEscrow?) && Plan(g, signers, c, Some(r)).Ok?
    ensures var b := Plan(g, signers, c, Some(r)).value.rec;
            JustEntered(r, b, Funded) && b.escrow.buyer == Some(c.buyer)
  {
  }

  predicate Ascending(ids: seq<u64>) {
    forall i, j :: 0 <= i < j < |ids| ==> ids[i] < ids[j]
  }

  /** The documented ascending order of the buyer's list survives a funding exactly when every escrow the buyer
      funded before has a smaller id: funding 2 and then 1 reads back as [2, 1]. */
  lemma AscendingIff(s: State, signers: Signers, c: Call)
    requires Reachable(s) && (c.FundEscrow? || c.FundBasketEscrow?) && Exec(s, signers, c).Ok?
    requires Ascending(Listed(s.buyerIndex, c.buyer))
    ensures Ascending(Listed(Exec(s, signers, c).value.buyerIndex, c.buyer))
       <==> forall id: u64 :: FundedBy(s, c.buyer, id) ==> id < c.id
  {
    FundingAppends(s, signers, c);
    IndexesAgreeWithTable(s);
    AscendingAppend(Listed(s.buyerIndex, c.buyer), c.id);
  }

  lemma AscendingAppend(ids: seq<u64>, id: u64)
    requires Ascending(ids)
    ensures Ascending(ids + [id]) <==> forall i :: i in ids ==> i < id
  {
    var all := ids + [id];
    if Ascending(all) {
      forall i | i in ids ensures i < id {
        var k :| 0 <= k < |ids| && ids[k] == i;
        assert all[k] < all[|ids|];
      }
    } else {
      var i, j :| 0 <= i < j < |all| && all[i] >= all[j];
      assert ids[i] in ids;
    }
  }
}
