/** The admin timelock: queue, wait, execute, or cancel (`admin.rs`). Parameter hashes are modelled by the parameters
    themselves, so two proposals match exactly when their parameters do. */
module Timelock {
  import opened Types
  import opened Records
  import Traces

  const DEFAULT_DELAY: u64 := 86_400
  const MIN_DELAY: u64 := 43_200
  const MAX_DELAY: u64 := 2_592_000

  datatype Operation =
    | SetAdmin | Upgrade | SetProtocolFee | SetArbitrationFee | SetPlatformFee | SetTreasury | SetFeeCollector
    | SetTtlExtension | SetAmountLimits | AddApprovedResolver | RemoveApprovedResolver | SetResolverStrict
    | SetTokenAllowlistEnabled | AddAllowedToken | RemoveAllowedToken | PauseContract | UnpauseContract
    | SetMaxAppeals | SetMaxBasketSize | SetAppealFee | SetTimelockDelay

  datatype Param = Who(address: Address) | Number(n: int) | Switch(on: bool)

  datatype Proposal = Proposal(proposer: Address, params: seq<Param>, queuedAt: u64, readyAt: u64)

  datatype State = State(admin: Address, delay: Option<u64>, proposals: map<Operation, Proposal>, now: u64)

  datatype Call =
    | Queue(op: Operation, params: seq<Param>, caller: Address)
    /** `accepted` says whether the validation of the operation itself passes; for the two operations that act on
        the timelock it is computed instead. */
    | Execute(op: Operation, params: seq<Param>, caller: Address, accepted: bool)
    | Cancel(op: Operation, caller: Address)
    | Wait(seconds: u64)

  datatype Input = Input(signers: Signers, call: Call)

  function Delay(s: State): u64 {
    if s.delay.Some? then s.delay.value else DEFAULT_DELAY
  }

  predicate DelayInRange(d: int) {
    MIN_DELAY <= d <= MAX_DELAY
  }

  /** A well-formed delay parameter. */
  predicate IsDelay(params: seq<Param>) {
    |params| == 1 && params[0].Number? && DelayInRange(params[0].n)
  }

  /** `queue_timelock_op`; the delay operation also validates before queueing. */
  function DoQueue(s: State, signers: Signers, op: Operation, params: seq<Param>, caller: Address): Result<State> {
    var valid := Need(op == SetTimelockDelay ==> IsDelay(params), InvalidTimelockDelay);
    :- valid;
    :- Signed(signers, caller);
    :- Need(caller == s.admin, NotAuthorized);
    :- Need(|params| <= 5, InputTooLong);
    :- Need(s.now + Delay(s) <= MAX_U64, ArithmeticOverflow);
    Ok(s.(proposals := s.proposals[op := Proposal(caller, params, s.now, s.now + Delay(s))]))
  }

  /** `execute_timelock_op`: the proposal exists, is old enough, and names this caller and these parameters. */
  function Executable(s: State, op: Operation, params: seq<Param>, caller: Address): Check {
    if op !in s.proposals then Fail(InvalidState)
    else if s.now < s.proposals[op].readyAt then Fail(InvalidState)
    else if caller != s.proposals[op].proposer then Fail(NotAuthorized)
    else Need(params == s.proposals[op].params, InvalidProposalHash)
  }

  /** The operation itself, once its proposal has been taken off. */
  function Perform(s: State, op: Operation, params: seq<Param>, caller: Address, accepted: bool): Result<State> {
    match op
    case SetAdmin =>
      :- Need(|params| == 1 && params[0].Who?, InvalidState);
      :- Need(params[0].address != s.admin, SameAddress);
      Ok(s.(admin := params[0].address))
    case SetTimelockDelay =>
      :- Need(IsDelay(params), InvalidTimelockDelay);
      Ok(s.(delay := Some(params[0].n)))
    case SetArbitrationFee =>
      :- Need(caller == s.admin && accepted, NotAuthorized);
      Ok(s)
    case _ =>
      :- Need(accepted, InvalidState);
      Ok(s)
  }

  /** Execution asks for no signature, except for the arbitration fee, which also demands the current admin. A refused
      operation reverts the removal of its proposal. */
  function DoExecute(s: State, signers: Signers, op: Operation, params: seq<Param>, caller: Address,
                     accepted: bool): Result<State> {
    var valid := Need(op == SetArbitrationFee ==> Signed(signers, caller).Pass?, AuthFailed);
    :- valid;
    :- Executable(s, op, params, caller);
    Perform(s.(proposals := s.proposals - {op}), op, params, caller, accepted)
  }

  function DoCancel(s: State, signers: Signers, op: Operation, caller: Address): Result<State> {
    var auth := Signed(signers, caller);
    :- auth;
    :- Need(caller == s.admin, NotAuthorized);
    :- Need(op in s.proposals, InvalidState);
    Ok(s.(proposals := s.proposals - {op}))
  }

  function Exec(s: State, i: Input): Result<State> {
    match i.call
    case Queue(op, params, caller) => DoQueue(s, i.signers, op, params, caller)
    case Execute(op, params, caller, accepted) => DoExecute(s, i.signers, op, params, caller, accepted)
    case Cancel(op, caller) => DoCancel(s, i.signers, op, caller)
    case Wait(seconds) => if s.now + seconds > MAX_U64 then Err(ArithmeticOverflow) else Ok(s.(now := s.now + seconds))
  }

  function Next(s: State, i: Input): State {
    if Exec(s, i).Ok? then Exec(s, i).value else s
  }

  // ── Traces ──

  ghost predicate Succeeds(s: State, i: Input) {
    Exec(s, i).Ok?
  }

  /** A successful queueing, execution or cancellation of `op`. */
  ghost predicate Touches(s: State, i: Input, op: Operation) {
    Succeeds(s, i) && !i.call.Wait? && i.call.op == op
  }

  ghost predicate Initial(s: State) {
    s.proposals == map[] && s.delay.None?
  }

  ghost predicate DelayOk(s: State) {
    DelayInRange(Delay(s))
  }

  lemma NextKeepsDelay(s: State, i: Input)
    requires DelayOk(s)
    ensures DelayOk(Next(s, i))
  {
  }

  /** Input `m` queued the proposal `p` for `op`, and nothing touched `op` from then until state `n`. */
  ghost predicate Backs(states: seq<State>, inputs: seq<Input>, n: nat, op: Operation, p: Proposal, m: nat)
    requires Traces.Trace(Next, states, inputs) && n <= |inputs|
  {
    && m < n
    && inputs[m].call == Queue(op, p.params, p.proposer) && Succeeds(states[m], inputs[m])
    && p.proposer == states[m].admin && p.proposer in inputs[m].signers
    && p.queuedAt == states[m].now && p.readyAt == states[m].now + Delay(states[m])
    && (forall k :: m < k < n ==> !Touches(states[k], inputs[k], op))
  }

  /** A step that does not touch `op` leaves its proposal alone. */
  lemma UntouchedStays(s: State, i: Input, op: Operation)
    requires !Touches(s, i, op)
    ensures op in Next(s, i).proposals <==> op in s.proposals
    ensures op in s.proposals ==> Next(s, i).proposals[op] == s.proposals[op]
  {
    if Succeeds(s, i) && !i.call.Wait? {
      OwnSlotOnly(s, i);
    }
  }

  /** A successful call writes or removes the proposal of its own operation only. */
  lemma OwnSlotOnly(s: State, i: Input)
    requires Succeeds(s, i) && !i.call.Wait?
    ensures forall o :: o != i.call.op ==> (o in Next(s, i).proposals <==> o in s.proposals)
    ensures forall o :: o != i.call.op && o in s.proposals ==> Next(s, i).proposals[o] == s.proposals[o]
  {
    var p' := Next(s, i).proposals;
    if i.call.Queue? {
      assert p' == s.proposals[i.call.op := Proposal(i.call.caller, i.call.params, s.now, s.now + Delay(s))];
    } else {
      assert p' == s.proposals - {i.call.op};
    }
  }

  /** A step that leaves a proposal where it touched queued it. */
  lemma TouchedIsQueued(s: State, i: Input, op: Operation)
    requires Touches(s, i, op) && op in Next(s, i).proposals
    ensures var p := Next(s, i).proposals[op];
            && i.call == Queue(op, p.params, p.proposer) && p.proposer == s.admin && p.proposer in i.signers
            && p.queuedAt == s.now && p.readyAt == s.now + Delay(s)
  {
  }

  /** Every proposal on record was queued, as it stands, by the admin of that moment. */
  lemma {:induction false} ProposalsAreBacked(states: seq<State>, inputs: seq<Input>, n: nat, op: Operation)
    requires Traces.Trace(Next, states, inputs) && n <= |inputs| && Initial(states[0])
    ensures DelayOk(states[n])
    ensures op in states[n].proposals ==> exists m :: Backs(states, inputs, n, op, states[n].proposals[op], m)
  {
    if n > 0 {
      ProposalsAreBacked(states, inputs, n - 1, op);
      NextKeepsDelay(states[n - 1], inputs[n - 1]);
      if op in states[n].proposals {
        if Touches(states[n - 1], inputs[n - 1], op) {
          JustQueued(states, inputs, n, op);
        } else {
          StillBacked(states, inputs, n - 1, n, op);
        }
      }
    }
  }

  lemma JustQueued(states: seq<State>, inputs: seq<Input>, n: nat, op: Operation)
    requires Traces.Trace(Next, states, inputs) && 0 < n <= |inputs| && op in states[n].proposals
    requires Touches(states[n - 1], inputs[n - 1], op)
    ensures Backs(states, inputs, n, op, states[n].proposals[op], n - 1)
  {
    assert states[n] == Next(states[n - 1], inputs[n - 1]);
    TouchedIsQueued(states[n - 1], inputs[n - 1], op);
  }

  lemma StillBacked(states: seq<State>, inputs: seq<Input>, k: nat, n: nat, op: Operation)
    requires Traces.Trace(Next, states, inputs) && k + 1 == n <= |inputs| && op in states[n].proposals
    requires !Touches(states[k], inputs[k], op)
    requires op in states[k].proposals ==> exists m :: Backs(states, inputs, k, op, states[k].proposals[op], m)
    ensures exists m :: Backs(states, inputs, n, op, states[n].proposals[op], m)
  {
    assert states[n] == Next(states[k], inputs[k]);
    UntouchedStays(states[k], inputs[k], op);
    var m :| Backs(states, inputs, k, op, states[k].proposals[op], m);
    assert Backs(states, inputs, n, op, states[n].proposals[op], m);
  }

  /** Every successful execution is preceded by a queueing of the same operation with the same parameters, signed by
      the admin of that moment, at least the delay in force then earlier, with no queueing, cancellation or execution of
      that operation in between. */
  lemma ExecutionWasQueued(states: seq<State>, inputs: seq<Input>, n: nat)
    requires Traces.Trace(Next, states, inputs) && n < |inputs| && Initial(states[0])
    requires inputs[n].call.Execute? && Succeeds(states[n], inputs[n])
    ensures exists m :: 0 <= m < n && Justifies(states, inputs, m, n)
  {
    var c := inputs[n].call;
    ProposalsAreBacked(states, inputs, n, c.op);
    var m :| Backs(states, inputs, n, c.op, states[n].proposals[c.op], m);
    ProposalsAreBacked(states, inputs, m, c.op);
    assert Justifies(states, inputs, m, n);
  }

  ghost predicate Justifies(states: seq<State>, inputs: seq<Input>, m: nat, n: nat)
    requires Traces.Trace(Next, states, inputs) && m < n < |inputs|
  {
    && inputs[n].call.Execute?
    && inputs[m].call == Queue(inputs[n].call.op, inputs[n].call.params, inputs[n].call.caller)
    && Succeeds(states[m], inputs[m])
    && inputs[n].call.caller == states[m].admin && states[m].admin in inputs[m].signers
    && DelayInRange(Delay(states[m])) && states[n].now >= states[m].now + Delay(states[m])
    && (forall k :: m < k < n ==> !Touches(states[k], inputs[k], inputs[n].call.op))
  }

  /** The admin changes only by such an execution, to the address that was queued. */
  lemma AdminChangesOnlyByTimelock(states: seq<State>, inputs: seq<Input>, n: nat)
    requires Traces.Trace(Next, states, inputs) && n < |inputs| && Initial(states[0])
    requires states[n + 1].admin != states[n].admin
    ensures inputs[n].call.Execute? && inputs[n].call.op == SetAdmin
    ensures inputs[n].call.params == [Who(states[n + 1].admin)]
    ensures exists m :: 0 <= m < n && Justifies(states, inputs, m, n)
  {
    assert states[n + 1] == Next(states[n], inputs[n]);
    ExecutionWasQueued(states, inputs, n);
  }

  /** The delay in force stays within twelve hours and thirty days, and changes only by such an execution. */
  lemma DelayStaysInRange(states: seq<State>, inputs: seq<Input>, n: nat)
    requires Traces.Trace(Next, states, inputs) && n < |inputs| && Initial(states[0])
    ensures DelayInRange(Delay(states[n])) && DelayInRange(Delay(states[n + 1]))
    ensures Delay(states[n + 1]) != Delay(states[n]) ==>
              && inputs[n].call.Execute? && inputs[n].call.op == SetTimelockDelay
              && inputs[n].call.params == [Number(Delay(states[n + 1]))]
              && exists m :: 0 <= m < n && Justifies(states, inputs, m, n)
  {
    ProposalsAreBacked(states, inputs, n, SetTimelockDelay);
    ProposalsAreBacked(states, inputs, n + 1, SetTimelockDelay);
    assert states[n + 1] == Next(states[n], inputs[n]);
    if Delay(states[n + 1]) != Delay(states[n]) {
      ExecutionWasQueued(states, inputs, n);
    }
  }

  // ── When each call is accepted ──

  /** Queueing and cancelling take the admin's signature; a queued delay must be in range. */
  lemma AdminCalls(s: State, i: Input)
    ensures i.call.Queue? ==>
              (Succeeds(s, i) <==>
               && i.call.caller == s.admin && s.admin in i.signers && s.admin != Contract
               && |i.call.params| <= 5 && s.now + Delay(s) <= MAX_U64
               && (i.call.op == SetTimelockDelay ==>
                     exists d :: i.call.params == [Number(d)] && MIN_DELAY <= d <= MAX_DELAY))
    ensures i.call.Cancel? ==>
              (Succeeds(s, i) <==>
               && i.call.caller == s.admin && s.admin in i.signers && s.admin != Contract
               && i.call.op in s.proposals)
    ensures i.call.Cancel? && Succeeds(s, i) ==> i.call.op !in Next(s, i).proposals
  {
    if i.call.Queue? && IsDelay(i.call.params) {
      assert i.call.params == [Number(i.call.params[0].n)];
    }
  }

  /** The operation itself agrees. */
  ghost predicate Agrees(s: State, signers: Signers, op: Operation, params: seq<Param>, caller: Address,
                         accepted: bool)
  {
    match op
    case SetAdmin => exists a :: params == [Who(a)] && a != s.admin
    case SetTimelockDelay => exists d :: params == [Number(d)] && MIN_DELAY <= d <= MAX_DELAY
    case SetArbitrationFee => caller == s.admin && caller in signers && caller != Contract && accepted
    case _ => accepted
  }

  /** A queued operation can be executed by its proposer, with its parameters, from its time on, and exactly then; its
      proposal is used up. */
  lemma ExecutableIff(s: State, i: Input)
    requires i.call.Execute?
    ensures Succeeds(s, i) <==>
            && i.call.op in s.proposals && s.proposals[i.call.op].readyAt <= s.now
            && i.call.caller == s.proposals[i.call.op].proposer && i.call.params == s.proposals[i.call.op].params
            && Agrees(s, i.signers, i.call.op, i.call.params, i.call.caller, i.call.accepted)
    ensures Succeeds(s, i) ==> i.call.op !in Next(s, i).proposals
  {
    var params := i.call.params;
    if |params| == 1 && params[0].Who? {
      assert params == [Who(params[0].address)];
    }
    if |params| == 1 && params[0].Number? {
      assert params == [Number(params[0].n)];
    }
  }

  // ── The stored object ──

  class TimelockStore {
    var admin: Address
    var delay: Option<u64>
    var proposals: map<Operation, Proposal>
    var now: u64

    function Contents(): State
      reads this
    {
      State(admin, delay, proposals, now)
    }

    constructor (owner: Address, start: u64)
      ensures Initial(Contents()) && admin == owner && now == start
    {
      admin, delay, proposals, now := owner, None, map[], start;
    }

    method Queue(signers: Signers, op: Operation, params: seq<Param>, caller: Address) returns (r: Check)
      modifies `proposals
      ensures Contents() == Next(old(Contents()), Input(signers, Call.Queue(op, params, caller)))
      ensures r.Pass? <==> Succeeds(old(Contents()), Input(signers, Call.Queue(op, params, caller)))
    {
      if op == SetTimelockDelay && !IsDelay(params) {
        return Fail(InvalidTimelockDelay);
      }
      if Signed(signers, caller).Fail? {
        return Fail(AuthFailed);
      }
      if caller != admin {
        return Fail(NotAuthorized);
      }
      if |params| > 5 {
        return Fail(InputTooLong);
      }
      var wait := if delay.Some? then delay.value else DEFAULT_DELAY;
      if now + wait > MAX_U64 {
        return Fail(ArithmeticOverflow);
      }
      proposals := proposals[op := Proposal(caller, params, now, now + wait)];
      r := Pass;
    }

    /** `execute_timelock_op`, up to the removal of the proposal. */
    method TakeProposal(op: Operation, params: seq<Param>, caller: Address) returns (r: Check)
      modifies `proposals
      ensures r == Executable(old(Contents()), op, params, caller)
      ensures Contents() == if r.Pass? then old(Contents()).(proposals := old(proposals) - {op}) else old(Contents())
    {
      if op !in proposals {
        return Fail(InvalidState);
      }
      if now < proposals[op].readyAt {
        return Fail(InvalidState);
      }
      if caller != proposals[op].proposer {
        return Fail(NotAuthorized);
      }
      if params != proposals[op].params {
        return Fail(InvalidProposalHash);
      }
      proposals := proposals - {op};
      r := Pass;
    }

    /** The body of the operation. */
    method Operate(op: Operation, params: seq<Param>, caller: Address, accepted: bool) returns (r: Check)
      modifies `admin, `delay
      ensures r.Pass? <==> Perform(old(Contents()), op, params, caller, accepted).Ok?
      ensures Contents() == if r.Pass? then Perform(old(Contents()), op, params, caller, accepted).value
                            else old(Contents())
    {
      match op {
        case SetAdmin =>
          if |params| != 1 || !params[0].Who? || params[0].address == admin {
            return Fail(SameAddress);
          }
          admin := params[0].address;
        case SetTimelockDelay =>
          if !IsDelay(params) {
            return Fail(InvalidTimelockDelay);
          }
          delay := Some(params[0].n);
        case SetArbitrationFee =>
          if caller != admin || !accepted {
            return Fail(NotAuthorized);
          }
        case _ =>
          if !accepted {
            return Fail(InvalidState);
          }
      }
      r := Pass;
    }

    method Execute(signers: Signers, op: Operation, params: seq<Param>, caller: Address, accepted: bool)
      returns (r: Check)
      modifies this
      ensures Contents() == Next(old(Contents()), Input(signers, Call.Execute(op, params, caller, accepted)))
      ensures r.Pass? <==> Succeeds(old(Contents()), Input(signers, Call.Execute(op, params, caller, accepted)))
    {
      if op == SetArbitrationFee && Signed(signers, caller).Fail? {
        return Fail(AuthFailed);
      }
      var saved := proposals;
      r := TakeProposal(op, params, caller);
      if r.Fail? {
        return;
      }
      r := Operate(op, params, caller, accepted);
      if r.Fail? {
        // The host puts the proposal back.
        proposals := saved;
      }
    }

    /** `cancel_timelock_op`. */
    method Cancel(signers: Signers, op: Operation, caller: Address) returns (r: Check)
      modifies `proposals
      ensures Contents() == Next(old(Contents()), Input(signers, Call.Cancel(op, caller)))
      ensures r.Pass? <==> Succeeds(old(Contents()), Input(signers, Call.Cancel(op, caller)))
    {
      if Signed(signers, caller).Fail? {
        return Fail(AuthFailed);
      }
      if caller != admin {
        return Fail(NotAuthorized);
      }
      if op !in proposals {
        return Fail(InvalidState);
      }
      proposals := proposals - {op};
      r := Pass;
    }
  }
}
