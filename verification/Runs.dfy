/** The invariant over every run of calls, and what it means: funds always cover what is owed, no payout can
    fail, lives are bounded, and principals are never lost. */
module Runs {
  import opened Types
  import opened Ledger
  import opened Records
  import opened RecordInvariant
  import opened Machine
  import opened Sums
  import opened Custody
  import Disputes
  import Traces

  /** How a later state of the same run relates to an earlier one. */
  ghost predicate Later(s: State, s': State) {
    && s.g.now <= s'.g.now
    && s.nextId <= s'.nextId
    && forall id: u64 :: id in s.recs ==> id in s'.recs && Evolves(s.recs[id], s'.recs[id])
  }

  lemma LaterTransitive(a: State, b: State, c: State)
    requires Later(a, b) && Later(b, c)
    ensures Later(a, c)
  {
    forall id: u64 | id in a.recs ensures id in c.recs && Evolves(a.recs[id], c.recs[id]) {
      EvolvesTransitive(a.recs[id], b.recs[id], c.recs[id]);
    }
  }

  // ── Calls on one escrow ──

  lemma EscrowCallTable(s: State, signers: Signers, c: Call)
    requires TableOk(s) && ActsOnEscrow(c) && Exec(s, signers, c).Ok?
    ensures TableOk(Exec(s, signers, c).value)
  {
    EscrowCall(s, signers, c);
    CommitTable(s, c.id, Plan(s.g, signers, c, Some(s.recs[c.id])).value);
  }

  lemma EscrowCallCensus(s: State, signers: Signers, c: Call)
    requires TableOk(s) && CensusOk(s) && ActsOnEscrow(c) && Exec(s, signers, c).Ok?
    ensures CensusOk(Exec(s, signers, c).value)
  {
    EscrowCallEvolves(s, signers, c);
    CommitCensus(s, c.id, Plan(s.g, signers, c, Some(s.recs[c.id])).value);
  }

  /** The exact custody step: the balance moves with the obligations, up to what the call pays to the contract's
      own address. */
  lemma EscrowCallCustody(s: State, signers: Signers, c: Call, t: Token)
    requires TableOk(s) && ActsOnEscrow(c) && Exec(s, signers, c).Ok?
    ensures c.id in s.recs && Plan(s.g, signers, c, Some(s.recs[c.id])).Ok?
    ensures var (m, s') := (Plan(s.g, signers, c, Some(s.recs[c.id])).value, Exec(s, signers, c).value);
            && Balance(s'.ledger, t, Contract) - Balance(s.ledger, t, Contract)
            == Obligations(s', t) - Obligations(s, t)
               + (if Funding(s.recs[c.id], m.rec) then 0 else Received(m.pays, t, Contract))
  {
    EscrowCall(s, signers, c);
    CommitCustody(s, c.id, Plan(s.g, signers, c, Some(s.recs[c.id])).value, t);
  }

  lemma EscrowCallLater(s: State, signers: Signers, c: Call)
    requires TableOk(s) && ActsOnEscrow(c) && Exec(s, signers, c).Ok?
    ensures Later(s, Exec(s, signers, c).value)
  {
    EscrowCallEvolves(s, signers, c);
    var m := Plan(s.g, signers, c, Some(s.recs[c.id])).value;
    CommitLater(s, c.id, m);
  }

  lemma CommitLater(s: State, id: u64, m: Move)
    requires id in s.recs && Evolves(s.recs[id], m.rec)
    ensures Later(s, Commit(s, id, m))
  {
    forall i: u64 | i in s.recs ensures Evolves(s.recs[i], Commit(s, id, m).recs[i]) {
      EvolvesReflexive(s.recs[i]);
    }
  }

  lemma EvolvesReflexive(r: Rec)
    ensures Evolves(r, r)
  {
  }

  lemma IssueExtends(s: State, plan: Result<Rec>)
    requires Issue(s, plan).Ok? && s.nextId !in s.recs
    ensures Extends(s, Issue(s, plan).value)
  {
  }

  lemma ExtendedIsLater(s: State, s': State)
    requires Extends(s, s') && s.g.now <= s'.g.now
    ensures Later(s, s')
  {
    forall i: u64 | i in s.recs ensures Evolves(s.recs[i], s'.recs[i]) {
      EvolvesReflexive(s.recs[i]);
    }
  }

  lemma EscrowCallKeeps(s: State, signers: Signers, c: Call)
    requires Inv(s) && ActsOnEscrow(c) && Exec(s, signers, c).Ok?
    ensures Inv(Exec(s, signers, c).value)
  {
    EscrowCallTable(s, signers, c);
    EscrowCallCensus(s, signers, c);
    var s' := Exec(s, signers, c).value;
    forall t ensures Obligations(s', t) <= Balance(s'.ledger, t, Contract) {
      EscrowCallCustody(s, signers, c, t);
    }
  }

  // ── Settings, time and the outside world ──

  lemma SettingOk(g: Globals, setting: Setting)
    requires GlobalsOk(g) && ApplySetting(g, setting).Ok?
    ensures GlobalsOk(ApplySetting(g, setting).value)
    ensures ApplySetting(g, setting).value.now == g.now
    ensures ApplySetting(g, setting).value.arbitrationTotals == g.arbitrationTotals
  {
  }

  ghost predicate SettingsCall(c: Call) {
    c.ChangeSetting? || c.AcceptFeeCollector? || c.AcceptTreasury?
  }

  lemma SettingsOk(s: State, signers: Signers, c: Call)
    requires GlobalsOk(s.g) && SettingsCall(c) && ExecOther(s, signers, c).Ok?
    ensures var s' := ExecOther(s, signers, c).value;
            && s' == s.(g := s'.g) && GlobalsOk(s'.g)
            && s'.g.now == s.g.now && s'.g.arbitrationTotals == s.g.arbitrationTotals
  {
    if c.ChangeSetting? {
      SettingOk(s.g, c.setting);
    }
  }

  lemma GlobalsKeepTable(s: State, g: Globals)
    requires TableOk(s) && GlobalsOk(g) && g.now == s.g.now
    ensures TableOk(s.(g := g))
  {
  }

  lemma GlobalsKeepCensus(s: State, g: Globals)
    requires CensusOk(s) && g.arbitrationTotals == s.g.arbitrationTotals
    ensures CensusOk(s.(g := g))
  {
    assert forall t :: Disputes.ArbitrationTotal(g, t) == Disputes.ArbitrationTotal(s.g, t);
  }

  /** New settings, same clock and totals: nothing else is affected. */
  lemma GlobalsKeep(s: State, g: Globals)
    requires Inv(s) && GlobalsOk(g) && g.now == s.g.now && g.arbitrationTotals == s.g.arbitrationTotals
    ensures Inv(s.(g := g))
  {
    GlobalsKeepTable(s, g);
    GlobalsKeepCensus(s, g);
    assert forall t :: Obligations(s.(g := g), t) == Obligations(s, t);
  }

  lemma ElapseTable(s: State, to: u64)
    requires TableOk(s) && s.g.now <= to
    ensures TableOk(s.(g := s.g.(now := to)))
  {
    forall id: u64 | id in s.recs ensures RecOk(s.recs[id], to) {
      LaterClock(s.recs[id], s.g.now, to);
    }
  }

  lemma ElapseKeeps(s: State, to: u64)
    requires Inv(s) && s.g.now <= to
    ensures Inv(s.(g := s.g.(now := to)))
  {
    ElapseTable(s, to);
    GlobalsKeepCensus(s, s.g.(now := to));
    assert forall t :: Obligations(s.(g := s.g.(now := to)), t) == Obligations(s, t);
  }

  lemma LedgerKeepsTable(s: State, l: Balances)
    requires TableOk(s)
    ensures TableOk(s.(ledger := l))
  {
  }

  lemma LedgerKeepsCustody(s: State, l: Balances)
    requires CustodyOk(s) && forall t :: Balance(s.ledger, t, Contract) <= Balance(l, t, Contract)
    ensures CustodyOk(s.(ledger := l))
  {
    forall t ensures Obligations(s.(ledger := l), t) <= Balance(l, t, Contract) {
      assert Obligations(s.(ledger := l), t) == Obligations(s, t);
      assert Balance(s.ledger, t, Contract) <= Balance(l, t, Contract);
    }
  }

  lemma LedgerKeepsCensus(s: State, l: Balances)
    requires CensusOk(s)
    ensures CensusOk(s.(ledger := l))
  {
    assert forall t :: Disputes.ArbitrationTotal(s.(ledger := l).g, t) == Disputes.ArbitrationTotal(s.g, t);
  }

  /** Outside transfers never take from the contract. */
  lemma OutsideKeeps(s: State, signers: Signers, c: Call)
    requires Inv(s) && (c.Mint? || c.TokenTransfer?) && ExecOther(s, signers, c).Ok?
    ensures Inv(ExecOther(s, signers, c).value)
  {
    var l := ExecOther(s, signers, c).value.ledger;
    assert ExecOther(s, signers, c).value == s.(ledger := l);
    LedgerKeepsTable(s, l);
    LedgerKeepsCensus(s, l);
    LedgerKeepsCustody(s, l);
  }

  lemma OtherKeeps(s: State, signers: Signers, c: Call)
    requires Inv(s) && !CreatesOne(c) && !ActsOnEscrow(c) && ExecOther(s, signers, c).Ok?
    ensures Inv(ExecOther(s, signers, c).value)
  {
    if c.BatchCreateEscrow? {
      IssueAllKeeps(s, c.seller, c.inputs);
    } else if SettingsCall(c) {
      SettingsOk(s, signers, c);
      GlobalsKeep(s, ExecOther(s, signers, c).value.g);
    } else if c.Elapse? {
      ElapseKeeps(s, c.to);
    } else {
      OutsideKeeps(s, signers, c);
    }
  }

  lemma OtherExtends(s: State, signers: Signers, c: Call)
    requires Inv(s) && !CreatesOne(c) && !ActsOnEscrow(c) && ExecOther(s, signers, c).Ok?
    ensures var s' := ExecOther(s, signers, c).value; Extends(s, s') && s.g.now <= s'.g.now
  {
    if c.BatchCreateEscrow? {
      BatchExtends(s, signers, c);
    } else if SettingsCall(c) {
      SettingsOk(s, signers, c);
    } else {
      QuietExtends(s, signers, c);
    }
  }

  lemma BatchExtends(s: State, signers: Signers, c: Call)
    requires Inv(s) && c.BatchCreateEscrow? && ExecOther(s, signers, c).Ok?
    ensures var s' := ExecOther(s, signers, c).value; Extends(s, s') && s.g.now <= s'.g.now
  {
    IssueAllKeeps(s, c.seller, c.inputs);
  }

  /** The passing of time, and transfers outside the contract. */
  lemma QuietExtends(s: State, signers: Signers, c: Call)
    requires (c.Elapse? || c.Mint? || c.TokenTransfer?) && ExecOther(s, signers, c).Ok?
    ensures var s' := ExecOther(s, signers, c).value; Extends(s, s') && s.g.now <= s'.g.now
  {
  }

  lemma CreationExtends(s: State, signers: Signers, c: Call)
    requires s.nextId !in s.recs && CreatesOne(c) && Exec(s, signers, c).Ok?
    ensures Extends(s, Exec(s, signers, c).value) && s.g == Exec(s, signers, c).value.g
  {
    IssueExtends(s, NewRecord(s.g, signers, c));
  }

  /** A call that does not act on an escrow leaves every record as it was. */
  lemma OtherStepExtends(s: State, signers: Signers, c: Call)
    requires Inv(s) && !ActsOnEscrow(c) && Exec(s, signers, c).Ok?
    ensures Extends(s, Exec(s, signers, c).value) && s.g.now <= Exec(s, signers, c).value.g.now
  {
    if CreatesOne(c) {
      CreationExtends(s, signers, c);
    } else {
      OtherExtends(s, signers, c);
    }
  }

  // ── Steps and runs ──

  lemma NextKeeps(s: State, i: Input)
    requires Inv(s)
    ensures Inv(Next(s, i))
  {
    if Exec(s, i.signers, i.call).Ok? {
      if CreatesOne(i.call) {
        NewRecordOk(s.g, i.signers, i.call);
        IssueKeeps(s, NewRecord(s.g, i.signers, i.call));
      } else if ActsOnEscrow(i.call) {
        EscrowCallKeeps(s, i.signers, i.call);
      } else {
        OtherKeeps(s, i.signers, i.call);
      }
    }
  }

  lemma NextLater(s: State, i: Input)
    requires Inv(s)
    ensures Later(s, Next(s, i))
  {
    if Exec(s, i.signers, i.call).Ok? {
      if ActsOnEscrow(i.call) {
        EscrowCallLater(s, i.signers, i.call);
      } else {
        OtherStepExtends(s, i.signers, i.call);
        ExtendedIsLater(s, Next(s, i));
      }
    } else {
      LaterReflexive(s);
    }
  }

  lemma StepLater(s0: State, s: State, i: Input)
    requires Inv(s) && Later(s0, s)
    ensures Later(s0, Next(s, i))
  {
    NextLater(s, i);
    LaterTransitive(s0, s, Next(s, i));
  }

  lemma LaterReflexive(s: State)
    ensures Later(s, s)
  {
    ExtendedIsLater(s, s);
  }

  /** Along every run from a good state, states stay good and records only evolve. */
  lemma LeadsKeeps(s: State, s': State)
    requires Inv(s) && Leads(s, s')
    ensures Inv(s') && Later(s, s')
  {
    forall b, i | Inv(b) ensures Inv(Next(b, i)) {
      NextKeeps(b, i);
    }
    forall a, b, i | Inv(b) && Later(a, b) ensures Later(a, Next(b, i)) {
      StepLater(a, b, i);
    }
    forall a ensures Later(a, a) {
      LaterReflexive(a);
    }
    Traces.Throughout(Next, Inv, Later, s, s');
  }

  lemma InitializedOk(admin: Address, collector: Address, arbitrationBps: u32, now: u64, ledger: Balances)
    requires Initialize(admin, collector, arbitrationBps, now, ledger).Ok?
    requires forall t :: 0 <= Balance(ledger, t, Contract)
    ensures Inv(Initialize(admin, collector, arbitrationBps, now, ledger).value)
  {
    var s := Initialize(admin, collector, arbitrationBps, now, ledger).value;
    TotalZero(s.created);
  }

  // ── Reachable states ──

  /** A freshly initialized contract, on a ledger that gives the contract no debt. */
  ghost predicate Initialized(s: State) {
    exists admin, collector, arbitrationBps, ledger ::
      && Initialize(admin, collector, arbitrationBps, s.g.now, ledger) == Ok(s)
      && forall t :: 0 <= Balance(ledger, t, Contract)
  }

  /** A state some run of calls leads to from a freshly initialized contract. */
  ghost predicate Reachable(s: State) {
    exists s0 :: Initialized(s0) && Leads(s0, s)
  }

  lemma InitialIsGood(s: State)
    requires Initialized(s)
    ensures Inv(s)
  {
    var admin, collector, arbitrationBps, ledger :|
      Initialize(admin, collector, arbitrationBps, s.g.now, ledger) == Ok(s)
      && forall t :: 0 <= Balance(ledger, t, Contract);
    InitializedOk(admin, collector, arbitrationBps, s.g.now, ledger);
  }

  lemma InitiallyEmpty(s: State)
    requires Initialized(s)
    ensures s.recs == map[] && s.nextId == 1 && s.vendorIndex == map[] && s.buyerIndex == map[]
  {
  }

  /** The invariant holds in every reachable state. */
  lemma ReachableInv(s: State)
    requires Reachable(s)
    ensures Inv(s)
  {
    var s0 :| Initialized(s0) && Leads(s0, s);
    InitialIsGood(s0);
    LeadsKeeps(s0, s);
  }

  /** What holds initially and is kept by every call holds in every reachable state. */
  lemma Inductive(good: State -> bool, s: State)
    requires forall b :: Initialized(b) ==> good(b)
    requires forall b, i :: good(b) ==> good(Next(b, i))
    requires Reachable(s)
    ensures good(s)
  {
    var s0 :| Initialized(s0) && Leads(s0, s);
    Traces.Throughout(Next, good, (a: State, b: State) => true, s0, s);
  }

  /** Every record of a reachable state is in order. */
  lemma RecordInOrder(s: State, id: u64)
    requires Reachable(s) && id in s.recs
    ensures RecOk(s.recs[id], s.g.now)
  {
    ReachableInv(s);
  }

  lemma StillReachable(s: State, s': State)
    requires Reachable(s) && Leads(s, s')
    ensures Reachable(s')
  {
    var s0 :| Initialized(s0) && Leads(s0, s);
    Traces.Compose(Next, s0, s, s');
  }
}
