# TrustLink escrow: model and proofs

A Dafny 4.11 model of the TrustLink escrow contract (`contracts/escrow`) and of the resume logic of its indexer
(`indexer`), with proofs of what they promise about funds, time, votes, derived data and restarts.

The contract is modelled twice. Plans (`Lifecycle.dfy`, `Disputes.dfy`, `Creation.dfy`) say for each entry point which
guards it checks, in order and with which error, and what it does to one escrow record and to the token balances;
`Machine.dfy` makes them a transition system over the whole storage. `Contract.dfy` is the contract as an object whose
methods load, check, update and save step by step; each is proved to do exactly what its plan says, and
`Invocation.dfy` adds the host's revert. Everything about runs is proved on the transition system.

## Layout

| file | contents |
|---|---|
| `Types.dfy`, `Fees.dfy`, `Ledger.dfy`, `Payees.dfy`, `Votes.dfy`, `History.dfy`, `Records.dfy` | values, fee arithmetic, token transfers, payee split, ballots, packed history, the record of one escrow |
| `Lifecycle.dfy`, `Disputes.dfy`, `Creation.dfy`, `Machine.dfy`, `Traces.dfy` | what every entry point plans, the transition system, runs |
| `RecordInvariant.dfy`, `Steps.dfy`, `Sums.dfy`, `Custody.dfy`, `Runs.dfy` | the invariant, one lemma per entry point, its preservation over runs |
| `Safety.dfy`, `Outcomes.dfy`, `ReleaseTiming.dfy`, `Exits.dfy`, `Indexes.dfy` | funds, outcomes, times, exits and lists over all runs |
| `Authority.dfy`, `Consent.dfy`, `Rulings.dfy`, `Receipts.dfy`, `Offers.dfy`, `Settings.dfy` | by whose leave and when each call is accepted, what it may change, how many resolvers rule, who receives how much, what creation and settings store; stated over the stored record, signers and time, apart from the plans |
| `Witnesses.dfy` | concrete runs and inputs for what does not hold |
| `Contract.dfy`, `Invocation.dfy` | the object and its calls |
| `Paging.dfy`, `Messages.dfy`, `ConfigStore.dfy`, `Timelock.dfy` | storage layouts, configuration migration, admin timelock |
| `Polling.dfy`, `Batches.dfy`, `Tables.dfy`, `Replay.dfy`, `Contents.dfy` | the indexer; `Contents.dfy` says what its tables hold after a log, by the payloads of the events |

## Conventions

- All storage keys of one escrow id are grouped into one record. Its history is kept decoded; `History.dfy` proves
  the packed form equivalent.
- A failed call leaves the state as it was, as the host reverts it. Errors carry the code the contract returns; a
  missing signature and an uncovered transfer are two further codes.
- `require_auth` is membership in a set of signers; the contract never signs for itself. A host may refuse a second
  `require_auth` of one address in one call, as a comment at contracts/escrow/src/internal.rs:1322-1326 says; a set does
  not show that. `co_signed_release` called by one of its two signatories asks twice; no exit below relies on it.
- Tokens move exactly what is asked. The transfers of a call are issued in order and executed together.
- Runs start from a freshly initialized contract and may contain any calls, settings changes, elapsed time, minting and
  outside transfers, in any order.
- A timelocked setting may take effect at any time in the transition system, so the results on runs hold whatever the
  timelock forbids; the timelock has its own results.
- `HALF_WORD` is 2^32: funding time and dispute deadline share one word, and results that read them say for which times
  the packing is exact.

## Where the code and its documentation differ

The code is followed in each case.

- `confirm_delivery` accepts Shipped escrows only.
- `finalize_dispute` pays the whole remainder to the first payee.
- `reclaim_expired` acts on Funded and Shipped escrows at `expires_at`, without the grace period.
- `create_basket_escrow` lists its id twice for the seller.
- `create_escrow_multi` accepts a buyer equal to the seller (`Witnesses.SelfOfferIsStored`); such an escrow is never
  funded (`Exits.SelfDealingNeverFunded`; `Exits.DesignatedFundableIff` says exactly when one with a designated buyer
  can be). Neither it nor `create_escrow_with_fallback` checks the shipping window.
- The buyer's index is in funding order, not in ascending order: `Indexes.AscendingIff` says exactly when it stays
  ascending, `Witnesses.ListReadsOutOfOrder` reads back [2, 1].
- `execute_set_amount_limits` has no upper bound, so above the escrow cap a payee split can fail with an arithmetic
  error: `PayeeSplit.DistributeToPayees` says exactly when, `Witnesses.HugeSaleCannotBeConfirmed` is a run into it.

## What does not hold, and exactly when it does

Each line names the theorem with the exact condition, then the concrete run or input that fails.

- No run ever has a treasury (`Outcomes.TreasuryNeverSet`), so a finalization succeeds only while the platform fee
  floors to zero: `Outcomes.FinalizationEnabledIff`; `Witnesses.RaisedFeeBlocks`.
- The admin override refunds the buyer but stores the code of Release: `Outcomes.RecordMatchesIff`;
  `Witnesses.OverriddenRefundReadsRelease`.
- With nothing paused, the parties can finish a funded escrow by themselves exactly when recovery mode is on, or it is
  neither a refund request past its expiry nor a dispute that owes a positive platform fee: `Exits.PartiesCanExitIff`;
  `Witnesses.ExpiredRequestIsStuck`, `Witnesses.RaisedFeeBlocks`.
- The seller can finish an unfunded escrow exactly until its expiry: `Exits.PendingCanExitIff`. After it nobody can, in
  any run: `Exits.ExpiredPendingForever`; `Witnesses.ExpiredOfferStays`.
- A written index reads back exactly when it is non-empty or there is no non-empty flat vector:
  `Paging.PagedIndex.Write`; `Witnesses.EmptyWriteIsLost`.
- A poll with unseen events makes progress exactly when fewer events than a page have been consumed of the cursor's
  ledger: `Polling.ProgressIff`; `Witnesses.FullLedgerStalls`.
- A log is processed to its end exactly when its events are of a supported version and every dispute finds the escrow
  row it names: `Replay.ProcessedToTheEndIff`. A dispute on a basket escrow does not, and stops every schedule of
  restarts: `Witnesses.BasketDisputeStops`.

## Model

| member | source | states |
|---|---|---|
| `Fees.CalculateFee` | contracts/escrow/src/helpers/payout.rs:34-57 | The split form equals the exact floor of amount times rate over 10,000, never exceeds the amount, never overflows an i128, and fails exactly on a negative amount or a rate over 100% |
| `Fees.ProtocolFee` | contracts/escrow/src/helpers/payout.rs:59-65 | Fee and net add up to the amount, both non-negative |
| `PayeeSplit.PrimaryShareBounds` | contracts/escrow/src/internal.rs:874-905 | The primary payee gets at least its exact share, at most 9,999/10,000 of a unit more per other payee, and the remainder never goes negative |
| `PayeeSplit.DistributionIsExact` | contracts/escrow/src/internal.rs:825-908 | A distribution pays exactly the amount, whatever addresses repeat |
| `PayeeSplit.DistributionReaches` | contracts/escrow/src/internal.rs:874-905 | Each account receives the floors of every entry that names it, plus the remainder if it is the primary payee |
| `PayeeSplit.SplitWithinCapFits` | contracts/escrow/src/internal.rs:883-887 | No share product overflows for amounts up to the escrow cap |
| `PayeeSplit.DistributeToPayees` | contracts/escrow/src/internal.rs:825-908 | The running-remainder loop issues exactly the specified transfers, or fails exactly when a share product overflows or the amount is negative |
| `PayeeSplit.ValidatePayees` | contracts/escrow/src/internal.rs:386-420 | The accumulating loop computes the check, error codes included |
| `PayeeSplit.PayeesCheckMeaning` | contracts/escrow/src/internal.rs:386-420 | The check passes exactly on one to ten non-zero payees whose shares are 100% |
| `Ledger.PayMoves` | contracts/escrow/src/internal.rs:805-813 | A token account ends with what it had plus what it received minus what it sent |
| `Ledger.CoveredIsAffordable` | contracts/escrow/src/helpers/payout.rs:84-114 | A payer whose balance covers its total outflow per token can make every transfer in order |
| `Ledger.FundingLegsAgree` | contracts/escrow/src/instructions.rs:1646-1659 | The all-entries funding loop issues the same transfers as the primary leg followed by the other entries |
| `Ledger.ExecuteTransfers` | contracts/escrow/src/internal.rs:805-813 | Executing transfers one by one succeeds exactly when each is covered at its turn |
| `Ledger.PayoutBasketTokens` | contracts/escrow/src/internal.rs:935-956 | The loop pays every positive entry other than the primary token, in order |
| `Ledger.DepositBasketTokens` | contracts/escrow/src/instructions.rs:340-354 | The loop collects every positive entry other than the primary token, in order |
| `Ledger.DepositAllTokens` | contracts/escrow/src/instructions.rs:1646-1659 | The loop collects every positive entry, in order |
| `Voting.CastRecords` | contracts/escrow/src/internal.rs:50-85 | Voters stay distinct, the caller's ballot is the new one, everybody else keeps theirs |
| `Voting.DecidingBallotWins` | contracts/escrow/src/internal.rs:92-127 | From an undecided vote a ballot decides exactly when its own side reaches the threshold, and then the outcome is that ballot |
| `Voting.MajorityHasBacker` | contracts/escrow/src/disputes.rs:45-54 | The majority side of a non-empty vote always has a voter |
| `Voting.AddOrUpdateVote` | contracts/escrow/src/internal.rs:50-85 | The search-and-overwrite loop records the ballot as specified |
| `Voting.TallyVotes` | contracts/escrow/src/internal.rs:92-127 | The tally loop yields the decided side, Release tested first |
| `Voting.TallyVotesMajority` | contracts/escrow/src/internal.rs:134-152 | The tally loop yields the strict Release majority, otherwise Refund |
| `Voting.FindVoter` | contracts/escrow/src/disputes.rs:45-54 | The search loop returns the first voter of a side, if any |
| `History.PackRoundTrip` | contracts/escrow/src/internal.rs:602-616 | Unpacking a packed entry gives the state always, and the time exactly when it fits 56 bits |
| `History.AppendStateHistory` | contracts/escrow/src/internal.rs:626-643 | The push and the pruning loop keep the last fifty entries |
| `History.ExtendPath` | contracts/escrow/src/internal.rs:556-581 | Below the pruning bound a transition along an edge keeps the whole path |
| `Records.FundingRoundTrip` | contracts/escrow/src/instructions.rs:356-364 | The packed funding time and dispute deadline read back modulo 2^32, and exactly when the deadline fits 32 bits |
| `Creation.BasketAmounts` | contracts/escrow/src/instructions.rs:1419-1429 | The second pass admits exactly baskets whose every entry is positive and within the limits |
| `RecordInvariant.FundMove` | contracts/escrow/src/instructions.rs:285-369 | Funding keeps the record invariant and brings in exactly what the escrow then holds |
| `RecordInvariant.ShipMove` | contracts/escrow/src/instructions.rs:938-948 | Shipping keeps the record invariant and moves no token |
| `RecordInvariant.RecordDeliveryMove` | contracts/escrow/src/instructions.rs:1093-1111 | Recording a delivery that waited out its timelock keeps the record invariant |
| `RecordInvariant.SettleMove` | contracts/escrow/src/internal.rs:1041-1085 | Fee, shares and basket together send exactly the holding, and the closed record is in order |
| `RecordInvariant.RotateMove` | contracts/escrow/src/instructions.rs:1753-1777 | Rotation keeps roles disjoint, and an open dispute undecided |
| `RecordInvariant.RaiseMove` | contracts/escrow/src/disputes.rs:70-150 | Raising a dispute keeps the record invariant and moves no token |
| `RecordInvariant.ResolveMove` | contracts/escrow/src/internal.rs:1470-1586 | A resolution sends exactly what it deducts, records it, keeps the principal and the fee caps, and moves the token's fee total by the recorded fee |
| `RecordInvariant.AppealMove` | contracts/escrow/src/disputes.rs:352-444 | An appeal keeps the record invariant and takes nothing from the contract |
| `RecordInvariant.WaterfallExact` | contracts/escrow/src/disputes.rs:236-287 | Platform fee, protocol fee and payout use up the amount; with the fees already paid they use up the principal, of which the recipient keeps at least 87% |
| `RecordInvariant.FinalizeMove` | contracts/escrow/src/disputes.rs:191-331 | A finalization sends exactly the holding |
| `RecordInvariant.RefundMove` | contracts/escrow/src/internal.rs:935-956 | Every full refund sends exactly the holding |
| `EntryPoints.EveryCallIsLawful` | contracts/escrow/src/instructions.rs:187-1896 | Every entry point that acts on an escrow, applied to a record in order, yields a record in order one edge further at most, with exactly the token flow that its change in holdings demands |
| `Custody.NewRecordOk` | contracts/escrow/src/internal.rs:1298-1451 | Every creation path stores a record that satisfies the invariant |
| `Custody.CommitCustody` | contracts/escrow/src/internal.rs:935-956 | A committed move changes the contract's balance by the change in obligations plus what it pays to the contract's own address |
| `Custody.CommitCensus` | contracts/escrow/src/internal.rs:1178-1216 | A committed move keeps counters and fee totals equal to a census of the table |
| `Runs.NextKeeps` | contracts/escrow/src/instructions.rs:187-1896 | Every call, successful or not, keeps the whole-state invariant |
| `Runs.LeadsKeeps` | contracts/escrow/src/instructions.rs:187-1896 | Along any run the invariant holds and every record only evolves |
| `Runs.ReachableInv` | contracts/escrow/src/admin.rs:390-424 | The invariant holds in every state reachable from initialization |
| `Safety.CustodyAlways` | contracts/escrow/src/internal.rs:935-956 | In every reachable state and for every token the balance covers what is owed to all escrows |
| `Safety.NoPayoutFails` | contracts/escrow/src/internal.rs:1041-1085 | A call the contract pays for succeeds exactly when its guards pass: no payout ever lacks funds |
| `Safety.StepConserves` | contracts/escrow/src/internal.rs:1041-1085 | Every step on an escrow moves the balance by exactly the change in obligations, plus what it pays to the contract's own address |
| `Safety.OtherStepsMoveNothing` | contracts/escrow/src/internal.rs:1298-1451 | Creation, settings and time touch neither balances nor obligations |
| `Safety.HistoriesAreComplete` | contracts/escrow/src/internal.rs:597-643 | Every history is the complete legal path from Pending to the current state, at most 27 entries, so pruning never fires |
| `Safety.StateChangesAreBudgeted` | contracts/escrow/src/internal.rs:556-581 | State changes over any run are bounded by the fall of a ranking that starts at 26 |
| `Safety.CreationTimeSurvives` | contracts/escrow/src/internal.rs:1588-1592 | The reported creation time is the real one, to 56 bits, in every later state |
| `Safety.FinishedStaysFinished` | contracts/escrow/src/internal.rs:18-24 | A finished escrow never changes again |
| `Safety.PrincipalConserved` | contracts/escrow/src/disputes.rs:247-261 | Amount plus recorded arbitration and resolver fees is the funded amount in every later state |
| `Safety.DisputeFeesChargedOnce` | contracts/escrow/src/internal.rs:1461-1469 | Once recorded, neither the dispute fees nor the remaining amount ever change |
| `Safety.TimeoutFirstIsFree` | contracts/escrow/src/disputes.rs:465-502 | A dispute first resolved by timeout never pays arbitration or resolver fees |
| `Safety.CountersAgree` | contracts/escrow/src/internal.rs:1158-1236 | Summed over sixteen buckets: created equals ids issued, completed and refunded equal the escrows in those states, disputed equals the dispute records, fee totals equal the recorded fees |
| `Safety.ShardsStayInRange` | contracts/escrow/src/internal.rs:1198-1216 | No bucket ever reaches the u64 maximum |
| `Safety.SideRecordsFollowState` | contracts/escrow/src/internal.rs:720-731 | A schedule implies Pending, a proposal implies Shipped with no delivery, a dispute record exists exactly if Disputed was ever entered |
| `Safety.RolesStayDisjoint` | contracts/escrow/src/instructions.rs:308-326 | Buyer, payees and resolvers of a live escrow are pairwise disjoint |
| `Safety.FundingEntryPointsAgree` | contracts/escrow/src/instructions.rs:1584-1702 | On a basket escrow both funding entry points succeed in the same situations and lead to the same state |
| `Outcomes.OutcomeFollowsDecidingBallot` | contracts/escrow/src/lib.rs:327-377 | In every reachable open dispute a ballot resolves exactly when its side reaches the threshold, and the recorded outcome and actor are that ballot and its caster |
| `Outcomes.DeadlockRulingIsBacked` | contracts/escrow/src/disputes.rs:514-546 | After the window, with a ballot cast, the ruling is the majority's, credited to a resolver who voted so; the other guards never fire |
| `Outcomes.TreasuryNeverSet` | contracts/escrow/src/admin.rs:527-560 | No run ever has a treasury, current or pending |
| `Outcomes.FinalizationEnabledIff` | contracts/escrow/src/disputes.rs:191-287 | Finalization succeeds exactly when its guards pass and the platform fee floors to zero |
| `Outcomes.SettlementDefined` | contracts/escrow/src/disputes.rs:247-287 | No checked operation of the waterfall overflows; only a positive platform fee without a treasury stops it |
| `Outcomes.WaterfallAddsUp` | indexer/src/types.ts:296-307 | For any settings within the caps the five shares add up to the principal, the recipient keeps at least 87%, and the payout is what an indexer derives from the event |
| `Outcomes.RecordMatchesIff` | contracts/escrow/src/disputes.rs:553-586 | The recorded resolution matches the way a resolved dispute was closed exactly when it was finalized, or left by an emergency exit after a refund resolution; never after the admin override |
| `Outcomes.OverrideRecordsRelease` | contracts/escrow/src/disputes.rs:575-606 | Every override pays the buyer everything, closes the escrow as Refunded and stores a resolution that reads Release |
| `ReleaseTiming.NoEarlyRelease` | contracts/escrow/src/internal.rs:977-1023 | A completion without the buyer's signature is a matured finalization of a Release or a matured auto-release, for times whose deadline fits 32 bits |
| `ReleaseTiming.OnlyCompletionPaysPayees` | contracts/escrow/src/internal.rs:1041-1085 | Only a completing call pays a payee, unless the payee also collects fees |
| `ReleaseTiming.OnlyPartiesReceive` | contracts/escrow/src/internal.rs:825-956 | Outside funding, every recipient is a payee, the buyer, a resolver or a fee recipient of that escrow |
| `ReleaseTiming.FundingTimeSurvives` | contracts/escrow/src/instructions.rs:356-369 | Funding time, dispute deadline and buyer stay as the funding call stored them |
| `Exits.ReachableSellersSign` | contracts/escrow/src/instructions.rs:46-52 | Every escrow was created under its seller's signature |
| `Exits.PartiesCanExitIff` | contracts/escrow/src/instructions.rs:838-882 | With nothing paused, buyer and primary payee can finish a funded escrow by themselves, given time, exactly when recovery mode is on, or it is neither a refund request past its expiry nor a dispute that owes a positive platform fee while the admin is a third party |
| `Exits.StuckPlan` | contracts/escrow/src/internal.rs:1094-1115 | Past its expiry a refund request is moved by no call but a recovery withdrawal |
| `Exits.ExpiredPendingForever` | contracts/escrow/src/instructions.rs:251-281 | An unfunded escrow that reaches its expiry stays Pending in every later state |
| `Exits.PendingCanExitIff` | contracts/escrow/src/instructions.rs:752-836 | With nothing paused, the seller, alone or with anybody else, can finish an unfunded escrow exactly until its expiry |
| `Exits.DesignatedFundableIff` | contracts/escrow/src/instructions.rs:308-354 | A pending escrow in time with a designated buyer can be funded, through either entry point, exactly when that buyer is neither a payee nor a resolver nor the contract itself |
| `Exits.SelfDealingNeverFunded` | contracts/escrow/src/instructions.rs:409-484 | An escrow whose designated buyer is a payee is never funded, by anyone, in any run |
| `Exits.FeeStuckCannotExit` | contracts/escrow/src/disputes.rs:245-287 | No steps of the parties close a dispute that owes a positive platform fee, through any number of timeouts and appeals |
| `Indexes.IndexesAgreeWithTable` | contracts/escrow/src/internal.rs:1428-1434 | The seller's list is the creation-order listing of the table, baskets twice; the buyer's list holds exactly the escrows that buyer funded, once each |
| `Indexes.SoldByCounts` | contracts/escrow/src/instructions.rs:1529-1532 | Each escrow of a seller is listed once, or twice if it is a basket, and nothing else is |
| `Indexes.SoldByAscends` | contracts/escrow/src/internal.rs:1428-1434 | The seller's list is non-decreasing |
| `Indexes.IndexesOnlyGrow` | contracts/escrow/src/storage.rs:342-358 | Over any run lists only grow at the end |
| `Indexes.FundingAppends` | contracts/escrow/src/instructions.rs:366-367 | A funding appends its id to the buyer's list and touches no other |
| `Indexes.AscendingIff` | contracts/escrow/src/queries.rs:94-100 | The documented ascending order survives a funding exactly when every escrow funded before has a smaller id |
| `Rulings.BallotDecides` | contracts/escrow/src/lib.rs:327-377 | In every reachable state a successful ballot joins the distinct resolvers of its side and settles the dispute exactly when they are then enough (the stored quorum of a committee, one otherwise); the ruling is that ballot, in its caster's name; only a resolver may cast it, a backup only from its deadline |
| `Rulings.OpenBallots` | contracts/escrow/src/types.rs:299-330 | While a dispute is open the standing ballots are those of resolvers who may rule, one each, and too few on either side |
| `Rulings.CastMoves` | contracts/escrow/src/internal.rs:50-85 | A ballot moves its caster to its own side and leaves every other resolver on theirs |
| `Rulings.TallyCounts` | contracts/escrow/src/internal.rs:92-127 | A tally is the number of distinct resolvers of a side |
| `Rulings.DeadlockFollowsMajority` | contracts/escrow/src/disputes.rs:514-546 | A broken deadlock rules Release exactly when strictly more resolvers stand for it, and credits one of the winning side |
| `Rulings.TimeoutRulesRefund` | contracts/escrow/src/disputes.rs:465-502 | A claimed timeout always records a refund in the claimant's name, at that time, moves no token, leaves the amount untouched and charges nothing |
| `Rulings.AppealReopens` | contracts/escrow/src/disputes.rs:352-444 | An appeal clears the ruling and the ballots, counts one more appeal, and keeps the fees already charged and everything else |
| `Rulings.RulingStands` | contracts/escrow/src/disputes.rs:191-331 | Along every run without an appeal, an override or an emergency exit of it, a ruling stands, over the same parties and amount, until the escrow is closed the way it says |
| `Rulings.TimeoutEndsInRefund` | contracts/escrow/src/disputes.rs:493-501 | Along every such run a dispute whose timeout was claimed waits for finalization with the code of Refund, or is closed as Refunded |
| `Receipts.BalancesMove` | contracts/escrow/src/internal.rs:805-956 | In every reachable state and for every successful call on an escrow, every token and every outside account: the balance moves by what the account is due in its roles (buyer, payee, collector, treasury, ruling resolver), with the rate each call uses, less what it pays in |
| `Receipts.FinalizationReach` | contracts/escrow/src/disputes.rs:289-314 | A finalization gives the winner the amount less platform and protocol fee on the principal and every other basket token, the collector the protocol fee, the treasury the platform fee |
| `Receipts.SettleReach` | contracts/escrow/src/internal.rs:1041-1085 | A settlement gives the collector the fee at the given rate, each payee its floors of the rest, the first one the remainder and the other basket tokens |
| `Receipts.CoSignedReach` | contracts/escrow/src/instructions.rs:1201-1271 | A co-signed release gives the first payee everything but the protocol fee |
| `Receipts.ResolveReach` | contracts/escrow/src/internal.rs:1470-1586 | A ruling that charges gives the collector the arbitration fee and the one who ruled the resolver fee, records both and takes both out of the amount; any other moves nothing |
| `Receipts.AppealReach` | contracts/escrow/src/disputes.rs:384-444 | The appellant pays the collector the appeal fee on the amount |
| `Receipts.FundingTakes` | contracts/escrow/src/instructions.rs:285-406 | Funding takes the whole principal and every other basket token from the buyer, through either entry point |
| `Receipts.RulingsTakeFeesOnce` | contracts/escrow/src/internal.rs:1461-1469 | In every reachable state the first ruling by ballots or deadlock records both fees and deducts them; later ones touch no amount |
| `Receipts.FinalizationPaysWinner` | contracts/escrow/src/disputes.rs:289-314 | A finalization raises the balance of the winner of the recorded ruling by at least 87% of what was funded |
| `Receipts.TimeoutPaysBuyer` | contracts/escrow/src/disputes.rs:493-501 | After a claimed timeout and any steps but an appeal, an override or an emergency exit, a finalization closes the escrow as Refunded and raises the buyer's balance by at least 87% of what was funded |
| `Authority.AcceptedIff` | contracts/escrow/src/instructions.rs:187-1896 | In every reachable state each call on an escrow succeeds exactly when its guards hold of the stored record, the signers and the time, and whoever pays in holds enough |
| `Authority.CancelGuards` | contracts/escrow/src/instructions.rs:838-882 | Reclaiming, canceling and unwinding are accepted exactly when the named parties sign at the named times; unwinding takes both parties |
| `Authority.RefundGuards` | contracts/escrow/src/admin.rs:701-750 | Requesting and approving a refund, recovery and draining are accepted exactly when the named parties sign in the named states |
| `Authority.VoteGuards` | contracts/escrow/src/types.rs:316-330 | A ballot is accepted exactly from a signing resolver who may rule now, and, if it settles, while its fee and its appeal window fit |
| `Authority.AutoReleaseGuards` | contracts/escrow/src/internal.rs:977-1023 | Auto-release is accepted exactly two days after a recorded delivery, or, never shipped, after both the dispute and the shipping window, and before the expiry |
| `Authority.FinalizationGuards` | contracts/escrow/src/disputes.rs:191-287 | A finalization is accepted exactly after the appeal window, from any signer, while the platform fee floors to zero or there is a treasury |
| `Authority.AffordableIffCovered` | contracts/escrow/src/helpers/payout.rs:84-114 | Positive transfers of one payer can be made one by one exactly when its balances cover their sums |
| `Consent.EveryChangeIsJustified` | contracts/escrow/src/internal.rs:556-581 | In every reachable state, whatever the step: a change of state comes from a call on that escrow, with the signers and at the time its new state calls for |
| `Consent.EveryWriteIsJustified` | contracts/escrow/src/instructions.rs:961-1115 | Whatever the step: resolver, proposal, delivery, schedule, buyer, times, amount, ballots and dispute change only by the named signers, at the named times, to the named values |
| `Consent.EveryCallLeads` | contracts/escrow/src/internal.rs:556-581 | Each call leaves the escrow in the state it is for |
| `Consent.NoRefundWithoutLeave` | contracts/escrow/src/instructions.rs:838-882 | A funded escrow is canceled, refunded or expired only by both parties in time or while paused, by its buyer before shipping, after the expiry or in recovery mode, by the first payee on the buyer's request, by a matured ruling for the buyer, or by the admin's override of a ruling |
| `Consent.OnlyBuyerRequests` | contracts/escrow/src/instructions.rs:1793-1842 | Only the buyer of a funded, unshipped escrow in time has a refund requested |
| `Offers.InternalTerms` | contracts/escrow/src/internal.rs:1298-1451 | The shared creation path accepts exactly acceptable terms and stores exactly them, with a history of one entry and nothing done |
| `Offers.EscrowTerms` | contracts/escrow/src/instructions.rs:22-66 | Accepted exactly on acceptable terms under the seller's signature; the record holds exactly the arguments |
| `Offers.ExpiringTerms` | contracts/escrow/src/instructions.rs:128-180 | The same, with expiry, grace period and schedule as asked |
| `Offers.CommitteeTerms` | contracts/escrow/src/instructions.rs:409-484 | The same for a list of payees and a committee |
| `Offers.FallbackTerms` | contracts/escrow/src/instructions.rs:654-740 | The same for a primary and a backup resolver with a deadline |
| `Offers.BasketTerms` | contracts/escrow/src/instructions.rs:1346-1540 | The same for a basket: the entries asked for, in order, the first one primary |
| `Offers.CreationStores` | contracts/escrow/src/lib.rs:303-322 | A successful creation stores its record under the next id and changes nothing else of settings, balances, buyer lists or older records |
| `Offers.BatchTerms` | contracts/escrow/src/instructions.rs:1905-1953 | A batch succeeds exactly when every item is acceptable and no notes repeat, and stores each item as asked under consecutive ids |
| `Settings.RangeIsChecked` | contracts/escrow/src/admin.rs:1137-1175 | Each setting is accepted exactly within its range |
| `Settings.SettingTakes` | contracts/escrow/src/admin.rs:1137-1175 | After a change every setting reads back what was asked for, or what it was |
| `Settings.SettingsNeedLeave` | contracts/escrow/src/admin.rs:494-560 | Whatever the step: settings change only within their ranges, under the admin's signature, by the timelock or by a proposed office holder accepting |
| `Service.EscrowContract.constructor` | contracts/escrow/src/admin.rs:390-424 | Initialization stores the documented defaults |
| `Service.EscrowContract.SaveEscrow` | contracts/escrow/src/internal.rs:556-581 | Stores the record and extends its history exactly when the state changed |
| `Service.EscrowContract.Execute` | contracts/escrow/src/internal.rs:805-813 | Executes the transfers of a call, all or nothing |
| `Service.EscrowContract.Increment` | contracts/escrow/src/internal.rs:1198-1216 | One bucket up by one; the overflow check cannot fire |
| `Service.EscrowContract.EnsureNotExpired` | contracts/escrow/src/internal.rs:1094-1115 | The expiry guard, error codes included |
| `Service.EscrowContract.EnsureFundingNotExpired` | contracts/escrow/src/internal.rs:1146-1156 | The expiry guard plus the blanket window after creation |
| `Service.EscrowContract.FindPayee` | contracts/escrow/src/instructions.rs:758-775 | The search loop answers membership |
| `Service.EscrowContract.FundEscrow` | contracts/escrow/src/instructions.rs:285-406 | The step-by-step entry point makes exactly its specified transition or returns exactly its specified error |
| `Service.EscrowContract.FundBasketEscrow` | contracts/escrow/src/instructions.rs:1584-1702 | As specified, transition or error |
| `Service.EscrowContract.MarkShipped` | contracts/escrow/src/instructions.rs:885-958 | As specified, transition or error |
| `Service.EscrowContract.ProposeRecordDelivery` | contracts/escrow/src/instructions.rs:961-1000 | As specified, transition or error |
| `Service.EscrowContract.CancelDeliveryProposal` | contracts/escrow/src/instructions.rs:1007-1034 | As specified, transition or error |
| `Service.EscrowContract.RejectDeliveryProposal` | contracts/escrow/src/instructions.rs:1041-1065 | As specified, transition or error |
| `Service.EscrowContract.RecordDelivery` | contracts/escrow/src/instructions.rs:1068-1115 | As specified, transition or error |
| `Service.EscrowContract.SettleToPayees` | contracts/escrow/src/internal.rs:1041-1085 | As specified, transition or error |
| `Service.EscrowContract.ConfirmDelivery` | contracts/escrow/src/instructions.rs:1142-1194 | As specified, transition or error |
| `Service.EscrowContract.EnsureAutoReleaseEligible` | contracts/escrow/src/internal.rs:977-1023 | The eligibility guard, error codes included |
| `Service.EscrowContract.AutoRelease` | contracts/escrow/src/instructions.rs:1294-1317 | As specified, transition or error |
| `Service.EscrowContract.CoSignedRelease` | contracts/escrow/src/instructions.rs:1201-1271 | As specified, transition or error |
| `Service.EscrowContract.ReclaimExpired` | contracts/escrow/src/instructions.rs:187-247 | As specified, transition or error |
| `Service.EscrowContract.AutoCancelPending` | contracts/escrow/src/instructions.rs:251-281 | As specified, transition or error |
| `Service.EscrowContract.CancelEscrow` | contracts/escrow/src/instructions.rs:752-826 | As specified, transition or error |
| `Service.EscrowContract.MutualCancel` | contracts/escrow/src/instructions.rs:838-882 | As specified, transition or error |
| `Service.EscrowContract.RequestRefund` | contracts/escrow/src/instructions.rs:1793-1842 | As specified, transition or error |
| `Service.EscrowContract.ApproveRefund` | contracts/escrow/src/instructions.rs:1851-1896 | As specified, transition or error |
| `Service.EscrowContract.RotateResolver` | contracts/escrow/src/instructions.rs:1706-1786 | As specified, transition or error |
| `Service.EscrowContract.RecoveryWithdraw` | contracts/escrow/src/admin.rs:701-750 | As specified, transition or error |
| `Service.EscrowContract.EmergencyDrain` | contracts/escrow/src/admin.rs:1601-1662 | As specified, transition or error |
| `Service.EscrowContract.RaiseDispute` | contracts/escrow/src/disputes.rs:70-150 | As specified, transition or error |
| `Service.EscrowContract.ExecuteResolution` | contracts/escrow/src/internal.rs:1470-1586 | As specified, transition or error |
| `Service.EscrowContract.CastVote` | contracts/escrow/src/lib.rs:327-377 | As specified, transition or error |
| `Service.EscrowContract.ClaimDisputeTimeout` | contracts/escrow/src/disputes.rs:465-502 | As specified, transition or error |
| `Service.EscrowContract.ResolveDeadlockedDispute` | contracts/escrow/src/disputes.rs:514-546 | As specified, transition or error |
| `Service.EscrowContract.AppealDispute` | contracts/escrow/src/disputes.rs:352-444 | As specified, transition or error |
| `Service.EscrowContract.SettleWaterfall` | contracts/escrow/src/disputes.rs:247-287 | The settlement arithmetic, error codes included |
| `Service.EscrowContract.FinalizeDispute` | contracts/escrow/src/disputes.rs:191-331 | As specified, transition or error |
| `Service.EscrowContract.CancelPendingFinalization` | contracts/escrow/src/disputes.rs:553-606 | As specified, transition or error |
| `Service.EscrowContract.StoreNew` | contracts/escrow/src/lib.rs:303-322 | The next id, the stored record, the seller's listing and the creation counter |
| `Service.EscrowContract.EnsureRolesDistinct` | contracts/escrow/src/internal.rs:1360-1378 | The role loop answers pairwise disjointness |
| `Service.EscrowContract.CreateEscrowInternal` | contracts/escrow/src/internal.rs:1298-1451 | As specified, new escrow or error |
| `Service.EscrowContract.CreateEscrow` | contracts/escrow/src/instructions.rs:22-70 | As specified, new escrow or error |
| `Service.EscrowContract.CreateEscrowWithExpiration` | contracts/escrow/src/instructions.rs:128-180 | As specified, new escrow with its schedule, or error |
| `Service.EscrowContract.ValidateResolvers` | contracts/escrow/src/internal.rs:326-377 | The validation loop, error codes included |
| `Service.EscrowContract.CreateEscrowMulti` | contracts/escrow/src/instructions.rs:409-506 | As specified, new escrow or error |
| `Service.EscrowContract.CreateEscrowWithFallback` | contracts/escrow/src/instructions.rs:654-743 | As specified, new escrow or error |
| `Service.EscrowContract.FindDuplicateToken` | contracts/escrow/src/instructions.rs:1371-1379 | The nested loops find a repeated token exactly if there is one |
| `Service.EscrowContract.CheckAmountsFirst` | contracts/escrow/src/instructions.rs:1382-1392 | The first pass over the amounts, error codes included |
| `Service.EscrowContract.CheckAmountsSecond` | contracts/escrow/src/instructions.rs:1419-1429 | The second pass over the amounts, error codes included |
| `Service.EscrowContract.CreateBasketEscrow` | contracts/escrow/src/instructions.rs:1346-1538 | As specified, new basket escrow listed twice, or error |
| `Service.EscrowContract.FindDuplicateNotes` | contracts/escrow/src/instructions.rs:1913-1926 | The nested loops find repeated non-empty notes exactly if there are any |
| `Service.EscrowContract.BatchCreateEscrow` | contracts/escrow/src/instructions.rs:1905-1953 | All escrows under consecutive ids, or an error |
| `Service.EscrowContract.AcceptFeeCollector` | contracts/escrow/src/admin.rs:494-520 | As specified, new settings or error |
| `Service.EscrowContract.AcceptTreasury` | contracts/escrow/src/admin.rs:542-560 | As specified, new settings or error |
| `Service.EscrowContract.ReadTotal` | contracts/escrow/src/internal.rs:1220-1228 | The saturating sum over the buckets |
| `Service.EscrowContract.ReadCounterTotal` | contracts/escrow/src/internal.rs:1230-1236 | The saturating sum of the value left by a deployment before sharding and the buckets |
| `Service.EscrowContract.GetStats` | contracts/escrow/src/queries.rs:220-239 | The four totals, values left by a deployment before sharding included |
| `Service.EscrowContract.GetEscrowsByBuyer` | contracts/escrow/src/queries.rs:113-150 | The index if it has entries; otherwise exactly the ids among the last thousand whose buyer it is, strictly ascending |
| `Invocation.Invoke` | contracts/escrow/src/instructions.rs:187-1953 | Dispatching a call on the object and reverting on failure makes exactly the step of the transition system and keeps the whole-run invariant |
| `Paging.PagedIndex.ClearPages` | contracts/escrow/src/storage.rs:587-596 | No page is left |
| `Paging.PagedIndex.WritePages` | contracts/escrow/src/storage.rs:600-621 | The pages hold exactly the ids, all but the last full |
| `Paging.PagedIndex.Write` | contracts/escrow/src/storage.rs:445-457 | Reading back yields the written ids exactly unless an empty list was written over a non-empty flat vector |
| `Paging.PagedIndex.MigrateLegacy` | contracts/escrow/src/storage.rs:474-489 | Relocation leaves the contents unchanged |
| `Paging.PagedIndex.Append` | contracts/escrow/src/storage.rs:342-358 | Appends one id, touching the tail page only; fails exactly when the count is full |
| `Paging.PagedIndex.ReadAll` | contracts/escrow/src/storage.rs:366-384 | Reassembles the contents in order |
| `Paging.PagedIndex.ReadPage` | contracts/escrow/src/storage.rs:389-442 | Equals the slice of the contents the offset and limit name |
| `Paging.PagedIndex.Walk` | contracts/escrow/src/queries.rs:187-199 | Walking by returned length until an empty page rebuilds the contents |
| `Paging.PagedIndex.AppendBasket` | contracts/escrow/src/instructions.rs:1529-1532 | Read, push, rewrite and append list the id twice |
| `Paging.WindowHolds` | contracts/escrow/src/storage.rs:389-442 | A page has as many entries as asked for or left, and each is the entry of the list at the offset plus its position |
| `Paging.PushFlat` | contracts/escrow/src/storage.rs:342-358 | Pushing onto the tail page appends to the flattened sequence and keeps every page in shape |
| `Messages.Thread.Count` | contracts/escrow/src/storage.rs:187-201 | The number of messages, in either layout |
| `Messages.Thread.At` | contracts/escrow/src/storage.rs:206-218 | The message at an index, in either layout |
| `Messages.Thread.MigrateLegacy` | contracts/escrow/src/storage.rs:245-269 | Relocation leaves the thread unchanged |
| `Messages.Thread.Append` | contracts/escrow/src/storage.rs:222-240 | Appends the message exactly when the thread is below its cap |
| `Messages.Thread.Post` | contracts/escrow/src/instructions.rs:543-545 | A thread within its cap of one hundred stays within it |
| `Messages.Thread.Page` | contracts/escrow/src/queries.rs:24-56 | Equals the slice of the thread, the limit clamped to fifty |
| `Messages.Thread.ReadThread` | contracts/escrow/src/queries.rs:17-23 | The documented paging loop rebuilds the thread |
| `ConfigStore.FoldingIsLossless` | contracts/escrow/src/storage.rs:91-147 | Each setting assembled from the thirteen keys is its own key, or its default |
| `ConfigStore.BitsIndependent` | contracts/escrow/src/types.rs:420-423 | Setting or clearing a flag bit changes that bit only |
| `ConfigStore.WriterMeans` | contracts/escrow/src/storage.rs:66-70 | Each writer changes its own setting and no other, whether the record exists yet or not |
| `ConfigStore.MigrationIsInvisible` | contracts/escrow/src/storage.rs:153-160 | Under any interleaving of writers and migrations the effective configuration is that of a contract with one record from the start |
| `ConfigStore.LeftoverKeysAreDead` | contracts/escrow/src/admin.rs:511-518 | Once the record exists, leftover keys never show through |
| `ConfigStore.GlobalConfig.ReadLegacy` | contracts/escrow/src/storage.rs:91-147 | The bit-by-bit assembly equals the specified record |
| `ConfigStore.GlobalConfig.Update` | contracts/escrow/src/storage.rs:66-70 | Read, edit, write: the effective configuration changes as the writer means |
| `ConfigStore.GlobalConfig.AcceptCollector` | contracts/escrow/src/admin.rs:494-520 | Writing both the legacy key and the record changes the collector only |
| `ConfigStore.GlobalConfig.MigrateKeys` | contracts/escrow/src/storage.rs:153-160 | Folding the keys changes nothing and leaves only the record |
| `Timelock.ExecutionWasQueued` | contracts/escrow/src/admin.rs:27-118 | Every successful execution is preceded by a queueing of the same operation and parameters, signed by the admin of that moment, at least the delay then in force earlier (never less than twelve hours), with nothing in between that touches the operation |
| `Timelock.AdminChangesOnlyByTimelock` | contracts/escrow/src/admin.rs:884-910 | The admin changes only by such an execution, to the queued address |
| `Timelock.DelayStaysInRange` | contracts/escrow/src/admin.rs:1998-2040 | The delay stays within twelve hours and thirty days and changes only by such an execution, to the queued value |
| `Timelock.AdminCalls` | contracts/escrow/src/admin.rs:27-60 | Queueing and canceling are accepted exactly from the signing admin, a queued delay only in range; a canceled proposal is gone |
| `Timelock.ExecutableIff` | contracts/escrow/src/admin.rs:79-118 | A queued operation is executed exactly by its proposer, with its parameters, once it is ready and if the operation itself agrees; its proposal is used up |
| `Timelock.TimelockStore.Queue` | contracts/escrow/src/admin.rs:27-60 | As specified, proposal stored or refused |
| `Timelock.TimelockStore.TakeProposal` | contracts/escrow/src/admin.rs:79-118 | The checks on the proposal, error codes included, and its removal |
| `Timelock.TimelockStore.Execute` | contracts/escrow/src/admin.rs:894-910 | As specified; a refused operation puts its proposal back |
| `Timelock.TimelockStore.Cancel` | contracts/escrow/src/admin.rs:864-881 | As specified, proposal removed or refused |
| `Polling.AfterIsStrictTotalOrder` | indexer/src/types.ts:21-25 | Positions form a strict total order |
| `Polling.PositionsAscend` | indexer/src/soroban-event-source.ts:94-97 | True positions ascend strictly along the chain |
| `Polling.FetchEvents` | indexer/src/soroban-event-source.ts:127-162 | The counting loop derives positions and filters as specified |
| `Polling.DerivedIsTrue` | indexer/src/soroban-event-source.ts:136-148 | Counting from the start of a ledger gives true per-transaction indexes, wherever the page ends |
| `Polling.PollContinues` | indexer/src/soroban-event-source.ts:127-162 | One poll of a possibly stale node returns the next events of the chain, none skipped and none repeated |
| `Polling.ProgressIff` | indexer/src/soroban-event-source.ts:128-134 | A poll makes progress exactly when there are unseen events and fewer consumed events in the cursor's ledger than the page size |
| `Polling.SmallLedgersProgress` | indexer/src/soroban-event-source.ts:128-134 | When every ledger holds fewer events than a page, every poll with unseen events makes progress |
| `Polling.ConsumedIsPrefix` | indexer/src/ingest.ts:168-183 | Over any polls, crashes and chain growth the consumed events are a prefix of the chain at true positions |
| `Replay.Indexer.Transaction` | indexer/src/ingest.ts:98-125 | Log, apply and cursor commit together or not at all |
| `Replay.Indexer.IngestBatch` | indexer/src/ingest.ts:91-131 | One transaction per event up to the first failure; the returned count is the number committed |
| `Replay.AssertSorted` | indexer/src/replay-fixture.ts:54-66 | Comparing neighbours decides strict ascent |
| `Replay.FindResumeIndex` | indexer/src/replay-fixture.ts:95-100 | The index of the first event after the cursor |
| `Replay.CrashesDoNotMatter` | indexer/src/replay-fixture.ts:91-109 | Any schedule of crashes and restarts ends with the tables, log and cursor of one uninterrupted pass |
| `Replay.StopsAtFirstUnready` | indexer/src/ingest.ts:91-131 | A pass from any store commits exactly the events before the first one of an unsupported version or whose dispute names an escrow neither stored nor created earlier in the log |
| `Replay.ProcessedToTheEndIff` | indexer/src/apply.ts:57-66 | A log is processed to its end exactly when no event of it is of that kind |
| `Replay.FoundUpdatesCommit` | indexer/src/apply.ts:213-445 | A log of supported versions that creates rows before updating them is processed to its end |
| `Replay.ReapplyingSuffixIsIdentity` | indexer/src/apply.ts:213-445 | Applying any suffix of an ascending log of supported versions that creates rows before updating them again, to its own outcome, changes nothing |
| `Contents.TablesHoldTheLog` | indexer/src/apply.ts:213-576 | After any ascending log processed to its end, every new row of every table exists exactly if an event creates it, and holds column by column what its first creation put there or the last later event says |
| `Contents.EventTold` | indexer/src/apply.ts:213-576 | One event changes every row exactly as its payload says and no other row; a configuration row only if no later ledger has written it |
| `Contents.TermsAreTheCreations` | indexer/src/apply.ts:213-236 | Seller, token, amount, rates, window and creation time of an escrow are those of its creation event, whatever follows |
| `Contents.BuyerIsTheLastFunder` | indexer/src/apply.ts:238-246 | Buyer and funding time of an escrow are those of the last funding event after its creation |
| `Contents.UnfundedHasNoBuyer` | indexer/src/apply.ts:213-236 | Without one they are null |
| `Contents.MessageKeysDiffer` | indexer/src/apply.ts:429-445 | Messages at different positions have different rows |
| `Contents.LogKeepsEvents` | indexer/src/ingest.ts:98-125 | The log keeps every processed event at its position, and every earlier one |
| `Tables.StepStaysInStep` | indexer/src/apply.ts:184-201 | One row operation keeps a row being rewritten in step with its first writing or already final |
| `Tables.WritingTwice` | indexer/src/apply.ts:213-445 | A grounded list of row operations is idempotent |
| `Batches.ResumesAt` | indexer/src/replay-fixture.ts:95-109 | From the cursor after n events exactly the events from number n on are pending |
| `Witnesses.SaleFunds` | contracts/escrow/src/instructions.rs:285-406 | A run from initialization that creates and funds an escrow |
| `Witnesses.ExpiredOfferStays` | contracts/escrow/src/instructions.rs:251-281 | A run that leaves a pending escrow past its expiry |
| `Witnesses.ExpiredRequestIsStuck` | contracts/escrow/src/instructions.rs:1793-1845 | A run into a refund request past its expiry that no set of parties can finish |
| `Witnesses.OverriddenRefundReadsRelease` | contracts/escrow/src/disputes.rs:553-606 | A run in which a dispute ruled a refund is overridden, and the closed record reads Release |
| `Witnesses.RaisedFeeBlocks` | contracts/escrow/src/disputes.rs:245-287 | A run after which a matured ruling can be finalized by nobody and the parties cannot finish the escrow |
| `Witnesses.ListReadsOutOfOrder` | contracts/escrow/src/queries.rs:94-100 | A run that funds escrow 2 before escrow 1: the buyer's list is [2, 1] |
| `Witnesses.SelfOfferIsStored` | contracts/escrow/src/instructions.rs:409-484 | An escrow whose buyer is its seller is accepted, without a shipping window |
| `Witnesses.HugeSaleCannotBeConfirmed` | contracts/escrow/src/admin.rs:1137-1175 | A run with lifted limits into a shipped escrow whose delivery cannot be confirmed |
| `Witnesses.EmptyWriteIsLost` | contracts/escrow/src/storage.rs:445-470 | An empty index written over the flat vector [7] reads back [7] |
| `Witnesses.FullLedgerStalls` | indexer/src/soroban-event-source.ts:127-162 | With two events in the first ledger and a page of two, polling stops before the third event |
| `Witnesses.BasketDisputeStops` | indexer/schema.sql:56-58 | A basket's creation and a dispute on it: the second event is never processed, however often the indexer restarts |

## Left out

- Time-to-live and rent of storage keys, archival and `extend_escrow_ttl`: no effect on values.
- Tokens that misbehave or re-enter: transfers are taken to move exactly what is asked.
- Signatures and SHA-256: signers are a set, and a parameter hash is the parameters themselves.
- Events, except the amounts of `DisputeResolved` from which a payout is derived.
- Text of messages, notes and descriptions: only the lengths and the equality of notes that guards look at.
- `multicall`, the seven- and eight-argument creation wrappers, and setters compiled only for tests.
- `upgrade`, the time-to-live setting and the basket-size setting: none affects an entry point modelled here.
- Views that only look a record up (`get_dispute`, `get_basket_tokens`, `get_state_history`, `get_escrows_by_ids`,
  configuration views): they return stored values unchanged.
- `initialize` on a contract that has an admin, and escrows created before `initialize`, which resets the counter.
- Service.EscrowContract: keeps decoded histories and one record per id, and executes the transfers of a call together,
  so it does not capture the interleaving of transfers with storage writes inside one call.
- Service.EscrowContract.Configure: applies the validated change in one step; the read-modify-write of the packed record
  is `ConfigStore.GlobalConfig`.
- Machine.UpdateSetting: does not wait for the timelock, so it allows more than the contract does.
- Authority.AcceptedIff: says when a call succeeds, not which error a refused one returns; the order of the guards and
  their codes are those of the plans, to which the methods of `Service.EscrowContract` are held.
- The lists of the transition system are plain sequences; `Paging.PagedIndex` shows that the paged layout is one.
- Replay.Indexer.Transaction: configuration topics share one shape, the `setConfig` calls of their handler in order, and
  columns are untyped values.
- JavaScript numbers are naturals; `toJsonSafe`, `decodeTopics` and the RPC and database drivers are not modelled.
- Agreement between the indexer's tables and the contract's state: the contract stamps schema version 4 and the indexer
  accepts at most 1.
