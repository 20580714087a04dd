# XCron protocol: a verified model

This project models the fund-holding parts of the XCron contracts (scheduler escrow, rewards, vault,
keeper registry), the XWAP price oracle, the two Merkle verifiers, and the keeper's session and drip
admission control, and proves what they keep over every run. `dafny verify dfyconfig.toml` checks it.

Each component has two layers. A model gives the storage as a datatype, each endpoint and callback as a
function from a state to an outcome (`Abort`, or a new state with the transfers it makes), and runs as
sequences of such operations; the theorems quantify over all runs, all interleavings of callbacks and all
amounts. A contract class holds the same storage in mutable fields; its methods follow the source's
statements, fallbacks and loops, and each is proved to perform the model's operation.

- `SchedulerModel`, `SchedulerLedger`, `SchedulerTheorems`, `SchedulerSettlement`, `SchedulerIntents`,
  `SchedulerCallbacks`, `SchedulerRounds`, `SchedulerDispatch`, `SchedulerAcceptance`, `SchedulerContract`: tasks, clone keys, intents and fees as a double-entry ledger. Every operation lists its moves of value between accounts (a task, a
  clone key, an intent, the fee pot, the outside); storage must mirror them for every account and token.
- `Rewards`: the receiving side of the fee flush.
- `Vault`: deposits and withdrawals whose delegation is answered later, in any order.
- `KeeperRegistry`, `RegistryTheorems`: stakes, cooldown counter, slashing, strikes, delegation.
- `PriceMedian`, `XwapModel`, `XwapTheorems`, `XwapMeaning`, `XwapContract`: median, weighted averages, ring buffer, gate.
- `Merkle`: packed and vector proofs over a hash that is a parameter.
- `SessionManager`, `DripFunder`: admission limits, bounded retries, fixed-window cap.
- `MapSums`, `Words`: sums over storage maps; machine-word wrap-around.

## Modelling decisions

- Amounts are `BigUint` in the contracts and unbounded here. Where the source uses machine integers and the
  width matters (the volatility product of the oracle, the 128-bit sums of the keeper), the wrap is explicit.
- A promise in flight is a map entry under its own id; a callback may answer any id at any time. EGLD of a
  failed call is back in the balance when its callback starts. Reading a missing struct aborts, so a
  scheduler callback whose task is gone changes nothing but uses up the promise.
- Guards on things outside the model (pausing, caller roles, keeper registration, ripeness, gas, blacklists,
  token whitelist, payload ranges, zk verification results) are one Boolean, `admitted`. In the scheduler it
  is part of the operation; in the rewards, vault and registry contracts it is an argument of the guarded
  methods, and a refused call, which changes nothing, is not a step of a run. It can be true or false on any
  call, so the theorems hold for every way the guards are decided.
- The hash and the byte encoding of the leaves of a tree intent are parameters of the scheduler's state. The
  proof check itself is part of the operation. That two leaves do not share an encoding, and that no encoding
  looks like an interior node, are hypotheses (`Binding`) of the theorems that need them.
- A transaction that aborts is rolled back. Contract methods therefore try the transfers first.
- The three intent kinds have separate stores and nonces in the source and one store keyed by kind here;
  ESDT means fungible tokens.
- `assigned_enclave_keeper` and the staking provider read as absent when unset. Block timestamps of the
  registry are positive. The provider holds and returns principal only.
- Merkle soundness asks only that the hash does not collide on the inputs actually hashed, because no
  function from 65 bytes to 32 is injective.

## Where the code falls short of a property

Each entry names the input that shows it and the exact condition under which the property does hold.

- A callback that arrives after its task was rescued and scheduled again settles the new task
  (`StaleCallback`, reachable by `StaleReachable`). Callbacks find their own execution exactly on the runs that
  never rescue a task whose call is in flight (`PromisesLiveRun`, `RescueExact`).
- The owner of a pending task cannot always cancel it: anyone can make the owner's address a clone key, unasked,
  for thirty days (`OwnerLockedOut`). An owner can cancel exactly while that is not so (`AlwaysRedeemable`), or
  through a clone key of their own (`LockedOwnerEscapes`).
- The vault's total deposited can drift from the sum of balances (`DepositedDrifts`); `FailedDelegateExact`
  gives the exact condition of a step and `DepositedExactIff` of a run.
- A failed call can hand a user more than their claim (`PaidTwice`, `CollectedAndKept`). `ClaimExact` gives the
  exact excess over any run and `ClaimConserved` care that avoids it.
- The cooldown counter is not always the sum it stands for; `CounterExactStep` and `CounterExactRun` give the
  exact steps and runs. Then delegation can leave open requests short (`ReserveDelegatedAway`);
  `DelegationKeepsReserve` says exactly when it cannot.
- The Rewards `init` accepts a share above 100%, after which fees are refused (`ReceptionTotal`); a refused fee is
  stranded in the scheduler (`FlushTogether`).
- The trend test fires one update early, reading an unset slot as zero (`TrendFiresEarly`); `TrendAtEight` says
  exactly when.
- A very large move gets a small weight, because three times the move wraps at 64 bits (`WeightWraps`);
  `WeightExact` says exactly when.
- Bytes that were never committed verify against a Merkle root if they have the shape of an interior node
  (`InteriorAccepted`); anything else accepted was committed (`AcceptedIsCommitted`).
- A session whose key is missing is marked swept (`SweptMeansSwept`). A failure registered for a swept session
  can exceed the float cap (`CapExceeded`), exactly when its amount or its user's count no longer fits
  (`RevivedFloat`). A huge request can wrap the float test (`WrappedRequestAdmitted`, `FloatTestExact`).
  `LimitsExactRun` gives the runs on which the recorded limits hold. They do not bound what was handed out:
  authorizing an address again erases its live session (`CapEvaded`); `HandedExact`, `ReallyOut` and
  `RecordedInFull` give the exact account.
- The daily drip cap bounds a window, not a day: twice the cap fits into two seconds (`TwiceIsReached`).
  `CapWithinWindow`, `CapAcrossReset` and `DayAtApproval` give a day's total. A huge request can wrap the test
  (`WrappedApproved`); `RequestTestExact` and `TwiceIff` say exactly when the test and the bound hold.

## Model

| member | source | states |
|---|---|---|
| SchedulerModel.FeeOf | contracts/scheduler/src/execution.rs:239-240 | a protocol fee never exceeds the deposit it is taken from, for every basis-point setting the setter admits |
| SchedulerSettlement.RewardMeaning | contracts/scheduler/src/execution.rs:299-305 | the fee is the floored basis-point share; reward plus fee never exceeds the deposit; the reward is the whole remainder or exactly the cap, and never above a cap that is set |
| SchedulerLedger.BookNet | contracts/scheduler/src/execution.rs:242-248 | carrying out the transfers of a transaction changes the balance of every token by exactly their net amount |
| SchedulerLedger.BookSucceeds | contracts/scheduler/src/execution.rs:242-248 | a list of transfers whose total drain is covered for every token is never refused |
| SchedulerLedger.DeliveriesNeutral | contracts/scheduler/src/intents.rs:261-264 | tokens a solver brings pass through: they touch no account and no balance |
| SchedulerLedger.MirrorSchedule | contracts/scheduler/src/scheduling.rs:19-61 | scheduling, from own EGLD or from a clone budget, is mirrored in every account and token |
| SchedulerLedger.MirrorSuccess | contracts/scheduler/src/execution.rs:220-251 | a successful settlement is mirrored in every account and token |
| SchedulerLedger.MirrorReturn | contracts/scheduler/src/execution.rs:258-297 | a failed settlement or a cancellation is mirrored in every account and token |
| SchedulerLedger.MirrorCallback | contracts/scheduler/src/execution.rs:199-218 | a callback, including one whose task is gone, is mirrored in every account and token |
| SchedulerLedger.MirroredAlways | contracts/scheduler/src/execution.rs:139-297 | for every operation, account and token: the holding recorded in storage changes by exactly the net posting to that account |
| SchedulerLedger.BalancedAlways | contracts/scheduler/src/execution.rs:139-297 | for every operation and token: the total owed moves with the contract balance, bounced flushes apart, and no more is sent than is owed |
| SchedulerTheorems.BudgetsKeptStep | contracts/scheduler/src/clone_keys.rs:260-280 | spent <= limit <= 2 EGLD for every clone key is kept by every operation |
| SchedulerTheorems.OwnersIndexedStep | contracts/scheduler/src/execution.rs:228-231 | the owner index lists exactly the live tasks of each owner after every operation |
| SchedulerTheorems.WalletsIndexedStep | contracts/scheduler/src/clone_keys.rs:93-113 | a clone is in a wallet's set exactly when its record names that wallet, at most three per wallet, and nobody is their own clone, after every operation |
| SchedulerTheorems.NeverShort | contracts/scheduler/src/execution.rs:242-246 | under the invariant a transaction that storage allows never fails for lack of funds |
| SchedulerTheorems.SlackStep | contracts/scheduler/src/config.rs:118-141 | the surplus of every token changes only by fees whose delivery bounced |
| SchedulerTheorems.InvStep | contracts/scheduler/src/execution.rs:199-297 | every operation keeps solvency for every token, the budgets, both indexes and nonce freshness |
| SchedulerTheorems.SolvencyRun | contracts/scheduler/src/execution.rs:199-297 | on every run, with callbacks in any order, for every token: balance = live deposits + accrued fees + unspent clone budgets + escrow and fees of open intents + opening surplus + bounced flushes |
| SchedulerTheorems.LedgerRun | contracts/scheduler/src/execution.rs:199-297 | over any run each account's holding is its opening balance plus its postings |
| SchedulerTheorems.LegalRun | contracts/scheduler/src/execution.rs:199-297 | over any run only the listed kinds of posting occur between accounts |
| SchedulerTheorems.TaskConservation | contracts/scheduler/src/execution.rs:199-305 | per task hash, over any run: everything deposited is still live or was paid out as reward, refund or fee |
| SchedulerTheorems.CloneConservation | contracts/scheduler/src/clone_keys.rs:56-198 | per clone key, over any run: total funded = charged to tasks + refunded + remaining |
| SchedulerTheorems.CloneLimits | contracts/scheduler/src/clone_keys.rs:66-98 | in every reachable state: spent <= limit <= 2 EGLD, wallet sets exact, at most three clones per wallet |
| SchedulerTheorems.AlwaysRedeemable | contracts/scheduler/src/scheduling.rs:150-171 | in every reachable state callbacks settle, main wallets can revoke, intent owners can withdraw, fees can be flushed; an owner can rescue exactly a task executing for a day, and cancel exactly a pending one while their address is not a live clone key |
| SchedulerTheorems.OwnerLockedOut | contracts/scheduler/src/clone_keys.rs:56-113 | from every state a stranger with a free slot can, for one unit, make the owner of a pending task a clone key; the owner's cancel then aborts exactly until the key expires |
| SchedulerTheorems.LockedOwnerEscapes | contracts/scheduler/src/scheduling.rs:150-171 | an owner with a free slot can authorize a fresh address, whose cancel commits and refunds the owner |
| SchedulerTheorems.KeyOutflows | contracts/scheduler/src/clone_keys.rs:238-280 | a clone budget leaves only by a charge of the clone itself before expiry, for a task owned by the main wallet, or by a refund to the main wallet that revokes |
| SchedulerSettlement.SettlementExact | contracts/scheduler/src/execution.rs:199-305 | value leaves a task only in the step that removes it; reward + refund + fee = deposit; refunds go to the recorded owner; only a success pays a keeper, and the one who did the work; a rescue takes no fee |
| SchedulerSettlement.LifeStep | contracts/scheduler/src/execution.rs:220-297 | a hash becomes live exactly by an accepted scheduling and ceases to be live exactly by a step that pays out of it |
| SchedulerSettlement.SettlementsCounted | contracts/scheduler/src/execution.rs:199-297 | over any run: settlements of a hash + live at the end = schedulings + live at the start |
| SchedulerSettlement.SettledOncePerScheduling | contracts/scheduler/src/execution.rs:199-297 | between two steps of a run that pay out of the same hash lies an accepted scheduling of it |
| SchedulerSettlement.TaskFixedRun | contracts/scheduler/src/execution.rs:174-176 | while a task is live its owner and deposit never change |
| SchedulerSettlement.CloneRefundsToMain | contracts/scheduler/src/scheduling.rs:26-37 | however a clone-scheduled task ends, its refund goes to the main wallet |
| SchedulerRounds.RoundLimit | contracts/scheduler/src/scheduling.rs:137-148 | over any run the per-round counter counts exactly the accepted ordinary schedulings of an owner, its clone keys included, and with a limit set never exceeds it |
| SchedulerIntents.IntentStep | contracts/scheduler/src/intents.rs:77-145 | one step leaves an intent untouched or closes it properly: cancelled with exactly the deposit returned to the owner, or settled with every requested token delivered in at least the minimum amount (for a tree, the token of a leaf whose proof climbs to the stored root) and the deposit paid to the solver |
| SchedulerIntents.CreatedAsDeposited | contracts/scheduler/src/intents.rs:20-74 | from creation on the record names the depositor, the deposit and the terms; ids are fresh; only the status changes |
| SchedulerIntents.ClosedForever | contracts/scheduler/src/intents.rs:77-145 | a settled or cancelled intent is never touched again on any run |
| SchedulerIntents.ClosedOnce | contracts/scheduler/src/intents.rs:77-145 | an open intent that ends closed was closed properly by exactly one step of the run |
| SchedulerIntents.TreeSolvableIff | contracts/scheduler/src/intents.rs:357-407 | for a tree intent whose root seals a plan: a solver's call commits exactly when the intent is open and in time, leaf and proof open the plan, and the payment has the leaf's token and at least its minimum |
| SchedulerIntents.ShownIsCommitted | contracts/scheduler/src/intents.rs:377-397 | a proof of any length accepted against the committed root shows a committed leaf, when the commitment binds |
| SchedulerIntents.TreeSettledAsCommitted | contracts/scheduler/src/intents.rs:281-423 | over any run: a tree intent that ends settled was settled by a step in which its creator received what a leaf they committed to asks for; only openings accepted for that intent need to bind |
| SchedulerIntents.EscrowExact | contracts/scheduler/src/intents.rs:20-423 | for every fungible token the contract holds exactly the inputs of the open intents of all three kinds |
| SchedulerCallbacks.PromisesLiveRun | contracts/scheduler/src/execution.rs:174-218 | all along a run every promise in flight belongs to exactly one executing task, exactly when the run never rescues a task whose call is in flight |
| SchedulerCallbacks.RescueExact | contracts/scheduler/src/execution.rs:360-400 | a rescue keeps that link exactly when no promise in flight names the rescued task; always for an enclave task |
| SchedulerCallbacks.StaleCallback | contracts/scheduler/src/execution.rs:199-218 | after such a rescue, whoever schedules the hash again and whatever happens in between, the old callback settles the new task: it pays the old keeper out of the new deposit and refunds the new owner |
| SchedulerCallbacks.StaleReachable | contracts/scheduler/src/execution.rs:360-400 | such a run exists from every state with a call in flight for a day |
| SchedulerDispatch.ExecuteIff | contracts/scheduler/src/execution.rs:139-196 | exactly a pending task can be executed; it then executes since that moment |
| SchedulerDispatch.ExecutorPaid | contracts/scheduler/src/execution.rs:185-251 | from an accepted ordinary execution, through any operations while the task lives: the answer of the one call it put in flight settles the task; on success the reward of its deposit goes to the executing keeper and nobody else, refunds to the owner |
| SchedulerDispatch.SettleIff | contracts/scheduler/src/execution.rs:102-136 | exactly the keeper to whom an executing task is assigned can settle it |
| SchedulerDispatch.EnclaveSettles | contracts/scheduler/src/execution.rs:102-182 | while a confidentially executed task lives, exactly the keeper who executed it can settle it, and is the one paid |
| SchedulerDispatch.OnlyExecutorSettles | contracts/scheduler/src/execution.rs:102-182 | whatever became of the task, until it is executed again only the keeper of its last confidential execution can settle it |
| SchedulerDispatch.RescueIff | contracts/scheduler/src/execution.rs:360-400 | exactly the owner and the admin can rescue an executing task, from 86,400 seconds on |
| SchedulerDispatch.RescuedADayLater | contracts/scheduler/src/execution.rs:174-400 | counted from the accepted execution, through any operations while the task lives; the rescue returns the whole deposit |
| SchedulerAcceptance.ScheduleIff | contracts/scheduler/src/scheduling.rs:19-148 | exactly when a task is accepted: clone budget, deposit bounds, free hash, fewer than 100 live tasks of the owner, room in the round; and whose it is, with what deposit |
| SchedulerAcceptance.CancelIff | contracts/scheduler/src/scheduling.rs:150-160 | exactly a pending task, by its owner or a live clone key of its owner, not by an owner who is a live clone key |
| SchedulerAcceptance.AuthorizeIff | contracts/scheduler/src/clone_keys.rs:56-113 | exactly the budgets, lifetimes and wallets accepted, and the key that results |
| SchedulerAcceptance.FundIff | contracts/scheduler/src/clone_keys.rs:160-198 | exactly when funding is accepted; what remains grows by the payment |
| SchedulerAcceptance.RevokeIff | contracts/scheduler/src/clone_keys.rs:123-155 | exactly the authorizing wallet can revoke |
| SchedulerAcceptance.SpeaksUntilExpiry | contracts/scheduler/src/clone_keys.rs:238-254 | through any operations but a revocation, a key speaks for the wallet that authorized it exactly until its lifetime is over |
| SchedulerAcceptance.CreateIff | contracts/scheduler/src/intents.rs:20-74 | exactly the fees, deadlines, amounts and lists of up to five distinct tokens accepted |
| SchedulerAcceptance.CancelIntentIff | contracts/scheduler/src/intents.rs:77-103 | exactly the owner of an open intent can cancel it |
| SchedulerAcceptance.SolveSingleIff | contracts/scheduler/src/intents.rs:109-145 | exactly one payment of the wanted token, in at least the wanted amount, in time |
| SchedulerAcceptance.SolveMultiIff | contracts/scheduler/src/intents.rs:231-271 | exactly one payment per wanted token, in their order, each in at least its amount, in time |
| SchedulerAcceptance.FlushIff | contracts/scheduler/src/config.rs:118-141 | exactly accrued fees can be flushed, all of them |
| SchedulerAcceptance.CallerPays | contracts/scheduler/src/intents.rs:20-74 | whatever comes in, deposit or delivery, is paid by whoever makes the call |
| SchedulerAcceptance.SettersMean | contracts/scheduler/src/config.rs:7-20 | what each setter means for the next fee, reward and deposit |
| SchedulerContract.Scheduler.constructor | contracts/scheduler/src/lib.rs:58-83 | a new scheduler satisfies the invariant with no surplus |
| SchedulerContract.Scheduler.Transfer | contracts/scheduler/src/execution.rs:242-246 | transfers in order equal the specification `Book`, or fail and leave the balances alone |
| SchedulerContract.Scheduler.ResolveCaller | contracts/scheduler/src/clone_keys.rs:238-254 | effective owner and whether a live clone key speaks |
| SchedulerContract.Scheduler.ScheduleTask | contracts/scheduler/src/scheduling.rs:19-111 | performs `Schedule`: guards in order, clone charge, task and index written, deposit posted |
| SchedulerContract.Scheduler.PlaceTask | contracts/scheduler/src/scheduling.rs:39-60 | shared tail of scheduling: deposit bounds, free hash, rate limits, transfer; counter, task and index written only if all pass |
| SchedulerContract.Scheduler.WithinRateLimits | contracts/scheduler/src/scheduling.rs:137-148 | at most 100 active tasks, and room in this round when a limit is set; sovereign tasks are exempt |
| SchedulerContract.Scheduler.ChargeCloneKey | contracts/scheduler/src/clone_keys.rs:260-280 | refuses an absent or expired key and a charge over the limit, changing nothing; otherwise spends exactly the amount |
| SchedulerContract.Scheduler.ExecuteTask | contracts/scheduler/src/execution.rs:139-196 | performs `Execute`: pending to executing, enclave assignment or promise |
| SchedulerContract.Scheduler.ExecutionCallback | contracts/scheduler/src/execution.rs:199-218 | performs `Callback` for either result and for a missing task |
| SchedulerContract.Scheduler.FinalizeSuccessful | contracts/scheduler/src/execution.rs:220-251 | performs a success settlement with the capped reward |
| SchedulerContract.Scheduler.FinalizeFailed | contracts/scheduler/src/execution.rs:258-297 | performs a failure settlement: fee kept, rest to the owner, nothing to the keeper |
| SchedulerContract.Scheduler.SettleXseTask | contracts/scheduler/src/execution.rs:102-137 | performs `SettleXse`: only the assigned enclave keeper, only an executing task |
| SchedulerContract.Scheduler.RescueStuckTask | contracts/scheduler/src/execution.rs:360-400 | performs `Rescue`: after 24 hours, by the task owner or the admin |
| SchedulerContract.Scheduler.CancelQuantumTask | contracts/scheduler/src/scheduling.rs:150-171 | performs `CancelTask`: only the effective owner, only a pending task |
| SchedulerContract.Scheduler.AuthorizeCloneKey | contracts/scheduler/src/clone_keys.rs:56-117 | performs `AuthorizeKey` with its limits |
| SchedulerContract.Scheduler.FundCloneKey | contracts/scheduler/src/clone_keys.rs:160-198 | performs `FundKey` with its limits |
| SchedulerContract.Scheduler.RevokeCloneKey | contracts/scheduler/src/clone_keys.rs:123-155 | performs `RevokeKey`, refunding what remains |
| SchedulerContract.Scheduler.DistinctTokens | contracts/scheduler/src/intents.rs:175-185 | the nested loops accept exactly the outcome lists without a repeated token |
| SchedulerContract.Scheduler.CreateAnyIntent | contracts/scheduler/src/intents.rs:20-74 | performs `CreateIntent` for single, multi and tree intents |
| SchedulerContract.Scheduler.CancelAnyIntent | contracts/scheduler/src/intents.rs:78-102 | performs `CancelIntent` for all three kinds |
| SchedulerContract.Scheduler.PaymentsMeet | contracts/scheduler/src/intents.rs:245-253 | the loop accepts exactly the payments that meet every outcome in order |
| SchedulerContract.Scheduler.SolveAnyIntent | contracts/scheduler/src/intents.rs:109-423 | performs `SolveIntent` for all three kinds; for a tree the leaf is encoded, hashed and its proof climbed by the vector verifier |
| SchedulerContract.Scheduler.FlushProtocolFees | contracts/scheduler/src/config.rs:118-141 | performs `Flush`: pot cleared before the transfer |
| SchedulerContract.Scheduler.SetProtocolFeeBps | contracts/scheduler/src/config.rs:14-20 | performs `SetFeeBps`, refusing more than 100% |
| RewardsModel.FullyAssignedRun | contracts/rewards/src/lib.rs:56-103 | on every run the balance equals treasury plus all pending rewards |
| RewardsModel.AlwaysPayable | contracts/rewards/src/lib.rs:76-103 | in every reachable state a claim that is let through pays the full pending reward, and an owner's withdrawal within the treasury succeeds |
| RewardsModel.ReceptionTotal | contracts/rewards/src/lib.rs:26-36 | every fee is received exactly when the configured treasury share is at most 100%, which `init` does not check |
| RewardsModel.ReceiptSplit | contracts/rewards/src/lib.rs:55-68 | the treasury gets its basis points of a fee, rounded down, the flushing keeper all the rest, nobody else anything |
| RewardsModel.KeeperAccount | contracts/rewards/src/lib.rs:55-87 | per keeper, over any run: credited = claimed + pending |
| RewardsModel.TreasuryAccount | contracts/rewards/src/lib.rs:55-103 | over any run: cut = withdrawn + treasury |
| RewardsModel.RewardsIff | contracts/rewards/src/lib.rs:76-103 | exactly what is refused: an empty claim, a withdrawal beyond the treasury, a share above 100% |
| RewardsModel.FlushHandsOver | contracts/rewards/src/lib.rs:56-68 | what a delivered flush takes from the scheduler is what treasury and keeper gain together; both contracts stay covered |
| RewardsModel.FlushTogether | contracts/scheduler/src/config.rs:118-141 | whether or not the Rewards contract takes the fee, no EGLD is lost between the two contracts and both stay covered; a refused fee is stranded in the scheduler |
| RewardsContract.Rewards.ReceiveExecutionFee | contracts/rewards/src/lib.rs:56-68 | performs `Receive` when admitted; refused by a guard, it changes nothing |
| RewardsContract.Rewards.ClaimRewards | contracts/rewards/src/lib.rs:76-87 | performs `Claim` when admitted; refused by a guard, it changes nothing |
| RewardsContract.Rewards.WithdrawFromTreasury | contracts/rewards/src/lib.rs:96-103 | performs `WithdrawTreasury` when admitted; refused by a guard, it changes nothing |
| VaultModel.PendingExactRun | contracts/vault/src/lib.rs:129-227 | total pending equals the sum of all users' pending withdrawals on every run and callback order |
| VaultModel.ShortfallStep | contracts/vault/src/lib.rs:290-487 | the gap between pending withdrawals and balance grows only by an accepted withdrawal, and by at most its amount |
| VaultModel.ShortfallRun | contracts/vault/src/lib.rs:290-487 | on every run the gap grows by at most what accepted withdrawals requested |
| VaultModel.FailedDelegateExact | contracts/vault/src/lib.rs:105-125 | a failed delegation keeps total deposited equal to the sum of balances exactly when the user still holds the amount, or holds nothing while the total is below it |
| VaultModel.DepositedExactStep | contracts/vault/src/lib.rs:76-188 | a step makes the total differ from the sum of balances exactly when it is a failed delegation outside the condition of `FailedDelegateExact` |
| VaultModel.DepositedExactIff | contracts/vault/src/lib.rs:76-188 | the total is the sum of balances all along a run exactly when the run has no such step |
| VaultModel.DepositedExactRun | contracts/vault/src/lib.rs:76-188 | total deposited equals the sum of balances on every run where users leave unconfirmed deposits in place |
| VaultModel.DepositedDrifts | contracts/vault/src/lib.rs:105-125 | withdrawing part of an unconfirmed deposit whose delegation then fails breaks that equality, for all amounts |
| VaultModel.MoneyStep | contracts/vault/src/lib.rs:76-487 | balance plus EGLD in flight changes by exactly what enters, what users are sent and what arrives outside |
| VaultModel.MoneyRun | contracts/vault/src/lib.rs:76-487 | over any run: balance plus EGLD in flight at the end + all that left = the same at the start + all that entered |
| VaultModel.ClaimStep | contracts/vault/src/lib.rs:76-227 | per user and step: claim + pay-out = claim + deposit + the excess a failed call hands out |
| VaultModel.WaitingExact | contracts/vault/src/lib.rs:129-227 | per user, over any run: every accepted withdrawal waits, was collected, or was put back by a failed undelegation |
| VaultModel.UserCallsIff | contracts/vault/src/lib.rs:76-227 | exactly which deposits, withdrawals and collections are accepted |
| VaultModel.SpendsFreeOnly | contracts/vault/src/lib.rs:290-487 | swaps, mints and rescues spend only beyond pending withdrawals, and exactly the configured amount, the price, or what is asked |
| VaultModel.ClaimExact | contracts/vault/src/lib.rs:76-227 | per user, over any run: claim + pay-outs = claim + deposits + the summed excess of failed calls |
| VaultModel.ClaimNeverLost | contracts/vault/src/lib.rs:76-227 | on every run no user loses, and a user breaks even exactly when no failed call paid them in excess |
| VaultModel.ClaimConserved | contracts/vault/src/lib.rs:76-227 | on careful runs each user's claim plus pay-outs equal claim plus deposits exactly |
| VaultModel.PaidTwice | contracts/vault/src/lib.rs:76-227 | for every amount, from every vault holding as much of other money: deposit, withdraw, failed delegation, answered undelegation, collect; paid in a, paid out 2a, and the vault is short by a |
| VaultModel.CollectedAndKept | contracts/vault/src/lib.rs:129-227 | collecting a withdrawal whose undelegation then fails pays the user and restores the balance |
| VaultContract.Vault.constructor | contracts/vault/src/lib.rs:52-64 | a new vault satisfies all the invariants |
| VaultContract.Vault.DepositEgld | contracts/vault/src/lib.rs:76-102 | performs `Deposit` when admitted; refused by a guard, it changes nothing |
| VaultContract.Vault.DepositCallback | contracts/vault/src/lib.rs:105-125 | performs the delegate reply, saturation included |
| VaultContract.Vault.WithdrawEgld | contracts/vault/src/lib.rs:129-159 | performs `Withdraw` |
| VaultContract.Vault.WithdrawCallback | contracts/vault/src/lib.rs:162-188 | performs the undelegate reply of a specification without fallback: the saturating clear is never taken |
| VaultContract.Vault.CollectUnbonded | contracts/vault/src/lib.rs:208-227 | performs `WithdrawUnbonded` of a specification without fallback; succeeds exactly when something is due and covered |
| VaultContract.Vault.SwapOnDex | contracts/vault/src/lib.rs:290-388 | performs `Swap` when admitted: never more than the balance beyond pending withdrawals; refused by a guard, it changes nothing |
| VaultContract.Vault.MintNft | contracts/vault/src/lib.rs:402-432 | performs `Mint`, refused when the price exceeds the safe balance when admitted; refused by a guard, it changes nothing |
| VaultContract.Vault.SpendCallback | contracts/vault/src/lib.rs:333-442 | performs the reply to a swap or mint |
| VaultContract.Vault.RescueYieldTo | contracts/vault/src/lib.rs:474-487 | performs `RescueYield` within the safe balance when admitted; refused by a guard, it changes nothing |
| RegistryModel.Capped | contracts/keeper-registry/src/lib.rs:265-269 | a slash never takes more than the stake nor more than calculated |
| RegistryModel.FlagsExactStep | contracts/keeper-registry/src/lib.rs:64-314 | the active set equals the active flags and an open request implies a registered, inactive keeper, after every operation |
| RegistryModel.CounterBoundedRun | contracts/keeper-registry/src/lib.rs:92-311 | on every run the cooldown counter never exceeds the summed stakes of keepers with an open request |
| RegistryModel.CounterExactStep | contracts/keeper-registry/src/lib.rs:92-311 | a step breaks the equality of counter and sum exactly when stake is added during cooldown or a keeper withdraws without a request |
| RegistryModel.CounterExactRun | contracts/keeper-registry/src/lib.rs:92-311 | the counter equals the open stakes all along a run exactly when no stake is added during a cooldown and nobody withdraws without a request |
| RegistryModel.DelegationKeepsReserve | contracts/keeper-registry/src/lib.rs:329-351 | delegation can leave no open request short exactly when the counter is exact, or lets nothing be delegated |
| RegistryModel.ReserveDelegatedAway | contracts/keeper-registry/src/lib.rs:92-353 | register, request, add stake, delegate what the counter allows: four accepted calls after which the open requests are not covered |
| RegistryModel.ConservationStep | contracts/keeper-registry/src/lib.rs:64-425 | liquid plus delegated funds minus stakes and debts changes only by yield retained without a treasury |
| RegistryModel.ConservationRun | contracts/keeper-registry/src/lib.rs:64-425 | on every run: liquid balance + principal at the provider = stakes + slashing debts + retained yield + opening surplus |
| RegistryModel.PaymentsStep | contracts/keeper-registry/src/lib.rs:133-425 | reported payments equal what the balances lose, and only a leaving keeper's stake goes anywhere but to the treasury |
| RegistryModel.LeavingKeeperPaid | contracts/keeper-registry/src/lib.rs:133-170 | a leaving keeper gets the whole stake after thirty days and at least 95% before |
| RegistryModel.KeeperConservation | contracts/keeper-registry/src/lib.rs:64-314 | until an accepted withdrawal, everything a keeper paid in equals stake plus slashed amount, over any run |
| RegistryModel.StreakRun | contracts/keeper-registry/src/lib.rs:243-314 | the strike count follows the recorded failures and the stake stays above the compounded percentages, until an accepted step ends the streak or raises the minimum above the starting stake |
| RegistryModel.ExpelledAtThirdStrike | contracts/keeper-registry/src/lib.rs:243-314 | a keeper starting with at least the minimum stake is active after one and two failures, inactive exactly from the third, and then holds at least 64.6% of its stake |
| RegistryModel.OnlyWayBack | contracts/keeper-registry/src/lib.rs:64-170 | an inactive keeper that is active again had a withdrawal accepted and, later, a registration accepted |
| RegistryTheorems.FailureSlashes | contracts/keeper-registry/src/lib.rs:243-314 | a recorded failure costs exactly 5%, 15% or 20% of the stake, rounded down, paid to the treasury or booked as debt; the keeper stays active exactly below the third strike and above 75% of the minimum |
| RegistryTheorems.SlashTakes | contracts/keeper-registry/src/lib.rs:178-233 | a slash costs exactly the configured share, paid or booked; the keeper stays active exactly above the minimum |
| RegistryTheorems.SuccessClears | contracts/keeper-registry/src/lib.rs:243-252 | a success costs nothing and wipes the strikes |
| RegistryTheorems.StreakCosts | contracts/keeper-registry/src/lib.rs:243-314 | along any streak the stake after one, two, three failures lies between 95%, 80.75%, 64.6% of the starting stake and that plus additions and one unit per failure |
| RegistryTheorems.RegisterIff | contracts/keeper-registry/src/lib.rs:64-87 | exactly a newcomer with the minimum stake can register; the record that results |
| RegistryTheorems.RequestIff | contracts/keeper-registry/src/lib.rs:112-128 | exactly an active keeper can request; the time is stored and the keeper deactivated |
| RegistryTheorems.WithdrawIff | contracts/keeper-registry/src/lib.rs:133-170 | exactly an inactive keeper, after the cooldown, with its stake liquid |
| RegistryTheorems.CooldownWaited | contracts/keeper-registry/src/lib.rs:112-170 | through any operations: the withdrawal commits exactly when the cooldown since the accepted request is over and the stake is liquid |
| RegistryTheorems.ExitPaid | contracts/keeper-registry/src/lib.rs:64-170 | through any operations: leaving within thirty days of the accepted registration costs exactly 5%, to the treasury; later nothing; the rest goes to the keeper |
| RegistryTheorems.RecordsCounted | contracts/keeper-registry/src/lib.rs:243-314 | while a keeper stays, executions, successes and failures count exactly the accepted records |
| RegistryTheorems.OthersUntouched | contracts/keeper-registry/src/lib.rs:64-314 | a call about one keeper leaves every other record as it was |
| RegistryTheorems.DelegateIff | contracts/keeper-registry/src/lib.rs:327-352 | exactly what the counter leaves over can be delegated |
| RegistryTheorems.SweepIff | contracts/keeper-registry/src/lib.rs:415-425 | a debt is swept whole, to the treasury, exactly when it is positive and liquid |
| RegistryTheorems.YieldForwarded | contracts/keeper-registry/src/lib.rs:371-398 | claimed yield is counted and forwarded whole to a set treasury |
| RegistryContract.KeeperRegistry.constructor | contracts/keeper-registry/src/lib.rs:27-44 | a new registry satisfies the invariants |
| RegistryContract.KeeperRegistry.RegisterKeeper | contracts/keeper-registry/src/lib.rs:64-87 | performs `Register` when admitted; refused by a guard, it changes nothing |
| RegistryContract.KeeperRegistry.AddStakeTo | contracts/keeper-registry/src/lib.rs:92-103 | performs `AddStake` when admitted; refused by a guard, it changes nothing |
| RegistryContract.KeeperRegistry.RequestUnstaking | contracts/keeper-registry/src/lib.rs:112-127 | performs `RequestUnstake` when admitted; refused by a guard, it changes nothing |
| RegistryContract.KeeperRegistry.WithdrawAll | contracts/keeper-registry/src/lib.rs:133-170 | performs `WithdrawStake` with the early-exit penalty |
| RegistryContract.KeeperRegistry.SlashKeeper | contracts/keeper-registry/src/lib.rs:178-233 | performs `Slash` when admitted; refused by a guard, it changes nothing |
| RegistryContract.KeeperRegistry.RecordExecution | contracts/keeper-registry/src/lib.rs:243-314 | performs `Record` for success and failure when admitted; refused by a guard, it changes nothing |
| RegistryContract.KeeperRegistry.StoreSlash | contracts/keeper-registry/src/lib.rs:262-311 | performs the common slashing tail: expulsion, reserve, record, treasury or debt |
| RegistryContract.KeeperRegistry.DelegateToProvider | contracts/keeper-registry/src/lib.rs:329-351 | performs `DelegateStake` within the reserve guard when admitted; refused by a guard, it changes nothing |
| RegistryContract.KeeperRegistry.SweepSlashedDebt | contracts/keeper-registry/src/lib.rs:416-424 | performs `Sweep` when admitted; refused by a guard, it changes nothing |
| RegistryContract.KeeperRegistry.ClaimProviderRewards | contracts/keeper-registry/src/lib.rs:373-398 | performs `ClaimYield` when admitted: the total of yield grows and a set treasury is forwarded all of it |
| PriceMedian.SortedOfSorts | contracts/xwap/src/keepers.rs:50-64 | the reference arrangement is sorted and holds the same reports |
| PriceMedian.SortedUnique | contracts/xwap/src/keepers.rs:50-64 | a sorted rearrangement is unique |
| PriceMedian.MedianMeaning | contracts/xwap/src/keepers.rs:30-74 | for any sorted arrangement: the middle report of an odd number, half the sum of the two middle ones rounded down of an even number, zero of none |
| PriceMedian.MedianOrderFree | contracts/xwap/src/keepers.rs:30-74 | the median is the same for every rearrangement of the reported prices |
| PriceMedian.MedianRobust | contracts/xwap/src/keepers.rs:66-73 | if strictly more than half of the reports lie in [lo, hi], so does the median, for odd and even counts |
| PriceMedian.HalfIsNotEnough | contracts/xwap/src/keepers.rs:66-73 | with exactly half of the reports in the range the median can leave it |
| PriceMedian.Sink | contracts/xwap/src/keepers.rs:52-63 | the inner loop extends the sorted prefix by one and permutes the array |
| PriceMedian.InsertionSort | contracts/xwap/src/keepers.rs:50-64 | the in-place sort turns the array into the sorted rearrangement of its input |
| PriceMedian.ComputeMedian | contracts/xwap/src/keepers.rs:45-73 | middle element or floored average of the two middle elements; zero when nothing is fresh |
| XwapModel.AlphaBounded | contracts/xwap/src/oracle.rs:97-132 | every weight lies within the configured bounds, including the 64-bit wrap of the volatility product |
| XwapTheorems.UpdateFacts | contracts/xwap/src/oracle.rs:28-71 | an update with non-zero reserves commits, stores one weight within bounds by which it averages both reserves, and keeps the averages at least one scaled unit |
| XwapTheorems.SeededRun | contracts/xwap/src/oracle.rs:44-95 | on every run the zero seed happens once and an update succeeds exactly when both reserves are non-zero |
| XwapTheorems.AveragesRun | contracts/xwap/src/oracle.rs:73-95 | both averages stay between the least and greatest scaled reserve ever seen |
| XwapTheorems.DriftContracts | contracts/xwap/src/oracle.rs:73-95 | one update scales the drift down by the weight and adds less than one unit of rounding |
| XwapTheorems.DriftRun | contracts/xwap/src/oracle.rs:28-95 | if every accepted update has a ratio of at least p/q (at most, symmetrically) and the least weight is at least m, then after any number of updates m(p*A - q*B) <= 1000q (and m(q*B - p*A) <= 1000p); for m = 1 nothing is asked of the weights |
| XwapTheorems.PriceFloor | contracts/xwap/src/oracle.rs:28-95 | the published price is never more than 1 + 1000/m units of the 18th decimal below the least observed ratio, over any run |
| XwapTheorems.PriceCeiling | contracts/xwap/src/oracle.rs:28-95 | nor more than 1000/m units above the greatest observed ratio |
| XwapTheorems.RefinesRun | contracts/xwap/src/oracle.rs:50-53 | the ring holds the last ten entries of the unbounded price log on every run |
| XwapTheorems.LogTailRun | contracts/xwap/src/oracle.rs:55-57 | published and previous price are the last two log entries on every run |
| XwapTheorems.TrendRefinesHistory | contracts/xwap/src/oracle.rs:134-157 | index = count mod 10; from nine updates on the trend test answers for the last nine prices; at exactly eight it answers for those eight preceded by a zero |
| XwapTheorems.TrendAtEight | contracts/xwap/src/oracle.rs:134-157 | at eight updates the answer differs from the trend of the eight real prices exactly when the first price is positive and six of the seven real steps were rises |
| XwapTheorems.TrendFiresEarly | contracts/xwap/src/oracle.rs:134-157 | from every new oracle with a positive least weight, two equal observations and six rising ones reach that case |
| XwapTheorems.SafeMeans | contracts/xwap/src/oracle.rs:159-222 | safe exactly when there is a non-zero fresh median, the price is nearer to it than the threshold, and at least consensusMin thousandths of all keepers hold fresh reports within tolerance; the freshness flag is implied |
| XwapTheorems.KeeperOrderFree | contracts/xwap/src/keepers.rs:30-116 | the order in which keepers are enumerated changes neither the median nor the gate, the consensus or the safe flag |
| XwapMeaning.AlphaMeaning | contracts/xwap/src/oracle.rs:97-132 | the weight is the least one for the first five updates and without a previous price; then three times the last move held between the bounds, plus the trend boost in a trend, plus the gate boost with the gate open, never above the greatest |
| XwapMeaning.WeightOfHistory | contracts/xwap/src/oracle.rs:97-157 | on every run of a new oracle from nine updates on the weight is that of the last two published prices and the trend of the last nine |
| XwapMeaning.WeightExact | contracts/xwap/src/oracle.rs:113-121 | "three times the move within the bounds" is computed exactly when the 64-bit product does not wrap to below the greatest weight |
| XwapMeaning.WeightWraps | contracts/xwap/src/oracle.rs:113-121 | a move for which it does: it gets the least weight |
| XwapMeaning.UpdateMeaning | contracts/xwap/src/oracle.rs:28-95 | the gate is asked about the pool price; weight, floored mixtures, first reserves, published and previous price of an update |
| XwapMeaning.GateMeans | contracts/xwap/src/oracle.rs:159-178 | exactly when the gate is open |
| XwapMeaning.StabilityMeaning | contracts/xwap/src/oracle.rs:189-200 | the stability signal is the last move in thousandths, zero without a price, 999 beyond 64 bits |
| XwapMeaning.ReportIff | contracts/xwap/src/keepers.rs:11-27 | exactly a registered keeper can report, and not zero; price and block stored |
| XwapMeaning.ReportStands | contracts/xwap/src/keepers.rs:11-74 | through any operations a report stands until the next one, and is fresh exactly for the configured number of blocks |
| XwapMeaning.KeepersStep | contracts/xwap/src/config.rs:55-70 | registration and removal change exactly that keeper; nobody is listed twice |
| XwapMeaning.MajorityDecides | contracts/xwap/src/keepers.rs:30-74 | if more than half of the keepers with fresh reports report within a range, the median is in it |
| XwapMeaning.FreshFlagMeans | contracts/xwap/src/oracle.rs:212-222 | the freshness flag says that some registered keeper holds a fresh report |
| XwapMeaning.SettersMean | contracts/xwap/src/config.rs:5-53 | the setters store what they are given within their ranges and refuse everything else |
| XwapContract.Oracle.constructor | contracts/xwap/src/lib.rs:54-76 | a new oracle has a valid configuration and empty averages and history |
| XwapContract.Oracle.SubmitReport | contracts/xwap/src/keepers.rs:11-27 | performs `ReportPrice` |
| XwapContract.Oracle.MedianOffChain | contracts/xwap/src/keepers.rs:30-74 | the collecting loop and the sort compute the median of the fresh reports |
| XwapContract.Oracle.CheckGate | contracts/xwap/src/oracle.rs:159-178 | gate and divergence, failing closed without a median |
| XwapContract.Oracle.CountAgreeing | contracts/xwap/src/keepers.rs:90-111 | the loop counts the keepers whose fresh report agrees with the median |
| XwapContract.Oracle.CheckConsensus | contracts/xwap/src/keepers.rs:77-116 | consensus over all registered keepers |
| XwapContract.Oracle.CheckFreshness | contracts/xwap/src/oracle.rs:212-222 | the loop finds a fresh report exactly when there is one |
| XwapContract.Oracle.ComputeSignals | contracts/xwap/src/oracle.rs:180-210 | the three flags, the stability signal and their conjunction |
| XwapContract.Oracle.DetectTrend | contracts/xwap/src/oracle.rs:134-157 | the backward walk over the ring counts the steps of the window |
| XwapContract.Oracle.ComputeAlpha | contracts/xwap/src/oracle.rs:97-132 | the weight, within its bounds |
| XwapContract.Oracle.UpdateEwmaReserves | contracts/xwap/src/oracle.rs:73-95 | both floored averages |
| XwapContract.Oracle.UpdatePrice | contracts/xwap/src/oracle.rs:28-71 | performs `Update`, the stored weight included |
| XwapContract.Oracle.SetAlphas | contracts/xwap/src/config.rs:13-19 | performs `SetAlphaBounds` for the owner; anyone else changes nothing |
| Merkle.Trichotomy | contracts/xsc-core/src/xsc_core.rs:123-135 | byte order is total: exactly one of less, greater, equal |
| Merkle.PairSymmetric | contracts/xsc-core/src/xsc_core.rs:103-120 | the hashed pair does not depend on which child is given first, equal siblings included |
| Merkle.PairInjective | contracts/xsc-core/src/xsc_core.rs:103-120 | the 65 hashed bytes determine the two children up to order |
| Merkle.Climbs | contracts/scheduler/src/intents.rs:431-475 | in a tree of any shape every subtree's root climbs its siblings to the root |
| Merkle.Complete | contracts/scheduler/src/intents.rs:431-475 | in any perfect tree every leaf's sibling path verifies |
| Merkle.Sound | contracts/scheduler/src/intents.rs:431-475 | a proof as long as the tree is deep is accepted only for an actual leaf, and is its sibling path, unless two of the inputs actually hashed collide |
| Merkle.AcceptedIffSibling | contracts/scheduler/src/intents.rs:431-475 | accepted exactly when leaf and proof are a leaf of the tree and its sibling path |
| Merkle.SoundAnyLength | contracts/scheduler/src/intents.rs:377-475 | hashed entries, tree of any shape, proof of any length: if no committed entry looks like an interior node and nothing hashed collides, an accepted entry is the preimage of a subtree and the proof its siblings |
| Merkle.AcceptedIffOpens | contracts/scheduler/src/intents.rs:377-475 | both directions: accepted exactly when it opens the plan at an entry or at an interior node |
| Merkle.AcceptedIsCommitted | contracts/scheduler/src/intents.rs:377-475 | what the 0x01 prefix buys: an accepted entry that does not look like an interior node was committed |
| Merkle.InteriorAccepted | contracts/scheduler/src/intents.rs:377-475 | its limit: in every plan with more than one entry, uncommitted bytes in the shape of an interior node verify |
| Merkle.VerifiersAgree | contracts/xsc-core/src/xsc_core.rs:77-97 | the packed and the vector verifier agree on every proof of at most 32 levels; longer ones the packed one refuses |
| Merkle.Compare | contracts/xsc-core/src/xsc_core.rs:123-135 | the comparison loop decides the byte order |
| Merkle.ComputeParentHash | contracts/xsc-core/src/xsc_core.rs:103-120 | hashes prefix, smaller, larger |
| Merkle.VerifyProof | contracts/xsc-core/src/xsc_core.rs:77-97 | the packed verifier answers the specification and fails on malformed lengths or while paused |
| Merkle.VerifyMerkleProof | contracts/scheduler/src/intents.rs:431-475 | the vector verifier accepts exactly when climbing the proof reaches the root |
| Merkle.StrictlyLess | contracts/scheduler/src/intents.rs:451-461 | the inline comparison loop decides strict byte order |
| SessionModel.FloatTestExact | xcron-keeper-rs/src/session_db.rs:58-70 | the float test means what it says exactly when the 128-bit sum does not wrap to within the limit |
| SessionModel.WrappedRequestAdmitted | xcron-keeper-rs/src/session_db.rs:58-70 | in every state with something outstanding the request that brings the sum to 2^128 is admitted |
| SessionModel.LimitsExactStep | xcron-keeper-rs/src/session_db.rs:45-191 | a step takes the recorded float or a recorded count over its limit exactly when it is an admitted request whose 128-bit sum wrapped and that does not fit beside the other sessions, or a failure for a swept session that no longer fits |
| SessionModel.OversizedBreaks | xcron-keeper-rs/src/session_db.rs:58-70 | for caps below 2^127 the first kind is just an admitted request above the cap |
| SessionModel.LimitsExactRun | xcron-keeper-rs/src/session_db.rs:45-191 | the recorded limits hold all along a run exactly when it has no such step |
| SessionModel.WithinLimitsRun | xcron-keeper-rs/src/session_db.rs:45-191 | so they do on every run whose failures are registered for unswept sessions and whose admitted requests do not wrap |
| SessionModel.HandedExact | xcron-keeper-rs/src/session_db.rs:45-191 | over any run: float handed out = float recorded + marked swept + overwritten, late failures brought back apart |
| SessionModel.ReallyOut | xcron-keeper-rs/src/session_db.rs:45-191 | on a disciplined run what is really out is the recorded float plus what was overwritten, equal to the recorded float exactly when no address is used again while it holds float, and then within the cap |
| SessionModel.RecordedInFull | xcron-keeper-rs/src/session_db.rs:88-98 | an admitted request is recorded in full exactly when its address has no live session with an amount, and counted for its user exactly when it has no live session of that user |
| SessionModel.CapEvaded | xcron-keeper-rs/src/session_db.rs:45-100 | from the empty manager, for every cap, any amount of at most half of it is handed out any number of times to one address while a single amount is recorded |
| SessionModel.RevivedFloat | xcron-keeper-rs/src/session_db.rs:114-118 | registering a failure for a swept session adds its amount to the float and one to its user's count; the limits survive exactly when both still fit |
| SessionModel.CapExceeded | xcron-keeper-rs/src/session_db.rs:45-118 | for every cap, from the empty manager: authorize, complete, authorize, late failure; twice the cap is outstanding |
| SessionModel.QueueSoundRun | xcron-keeper-rs/src/session_db.rs:114-191 | the retry queue is duplicate-free and names only known sessions on every run |
| SessionModel.FailureQueued | xcron-keeper-rs/src/session_db.rs:114-133 | a reported failure counts once, reopens the session and queues it exactly while it has retries left |
| SessionModel.CompletedMarks | xcron-keeper-rs/src/session_db.rs:103-111 | completing marks exactly that session |
| SessionModel.RetriedExactly | xcron-keeper-rs/src/session_db.rs:136-191 | a sweep that keeps failing is retried exactly until its retries are used up |
| SessionModel.PassCounts | xcron-keeper-rs/src/session_db.rs:148-175 | a pass adds a retry exactly to queued sessions whose key was at hand and whose sweep failed |
| SessionModel.StayingConcat | xcron-keeper-rs/src/session_db.rs:177-178 | what stays in the queue stays in its order |
| SessionModel.QueueDrains | xcron-keeper-rs/src/session_db.rs:136-191 | maxRetries + 1 passes empty the queue for any sweep outcomes and any missing keys |
| SessionModel.MarkedSwept | xcron-keeper-rs/src/session_db.rs:171-188 | what a pass marks as swept: successful sweeps and also addresses whose key is missing, while retries last |
| SessionModel.SweptMeansSwept | xcron-keeper-rs/src/session_db.rs:171-188 | a session is marked swept only after a successful sweep exactly when its key is at hand or its retries are exhausted |
| SessionManager.PrivacySessionManager.constructor | xcron-keeper-rs/src/session_db.rs:34-42 | a new manager is within limits with an empty queue |
| SessionManager.PrivacySessionManager.Measure | xcron-keeper-rs/src/session_db.rs:59-79 | the two folds over the sessions |
| SessionManager.PrivacySessionManager.AuthorizeSession | xcron-keeper-rs/src/session_db.rs:45-100 | performs `Authorize` |
| SessionManager.PrivacySessionManager.CompleteSession | xcron-keeper-rs/src/session_db.rs:103-111 | performs `Complete` |
| SessionManager.PrivacySessionManager.RegisterFailedSweep | xcron-keeper-rs/src/session_db.rs:114-133 | performs `RegisterFailure` |
| SessionManager.PrivacySessionManager.RetrySweeps | xcron-keeper-rs/src/session_db.rs:148-175 | first loop: failures counted, leavers noted |
| SessionManager.PrivacySessionManager.Retain | xcron-keeper-rs/src/session_db.rs:177-178 | the rest stays, in order |
| SessionManager.PrivacySessionManager.CompleteAll | xcron-keeper-rs/src/session_db.rs:180-188 | last loop: leavers with retries to spare are completed |
| SessionManager.PrivacySessionManager.ProcessRetryQueue | xcron-keeper-rs/src/session_db.rs:136-191 | performs `Pass` |
| DripModel.TwiceTheCap | xcron-keeper-rs/src/drip_funder.rs:42-68 | with a monotone positive clock and no approved amount that can wrap, no closed span of 86,400 seconds sees more than twice the cap approved |
| DripModel.CapWithinWindow | xcron-keeper-rs/src/drip_funder.rs:42-68 | a day in which no window opened after its start approved anything sees at most the cap |
| DripModel.CapAcrossReset | xcron-keeper-rs/src/drip_funder.rs:42-68 | otherwise one window opened within the day: the total is its part plus that of one earlier window, each within the cap |
| DripModel.DayAtApproval | xcron-keeper-rs/src/drip_funder.rs:42-68 | when a request is approved, the total of the day that ends with it is the accumulator plus what earlier windows approved during that day |
| DripModel.RequestTestExact | xcron-keeper-rs/src/drip_funder.rs:59-66 | the test means what it says exactly when the 128-bit sum does not wrap to within the cap |
| DripModel.WindowOpened | xcron-keeper-rs/src/drip_funder.rs:51-57 | a window lasts 86,400 seconds from the request that opened it; any later request opens the next, approved or refused |
| DripModel.WindowCapIff | xcron-keeper-rs/src/drip_funder.rs:42-68 | every window keeps the cap exactly when no approved amount exceeds it |
| DripModel.TwiceIff | xcron-keeper-rs/src/drip_funder.rs:42-68 | every day stays within twice the cap exactly when no approved amount exceeds the cap |
| DripModel.WrappedApproved | xcron-keeper-rs/src/drip_funder.rs:59-66 | for every cap, one unit and then 2^128 - 1 units are approved within two seconds |
| DripModel.TwiceIsReached | xcron-keeper-rs/src/drip_funder.rs:42-68 | twice the cap is reached, one second apart, for every cap |
| DripFunder.Funder.CheckAndIncrementDrip | xcron-keeper-rs/src/drip_funder.rs:42-68 | performs one request: reset, test, increment |

## Left out

- executeCompressedTask: its deposit comes from the payload and no code receives those funds.
- commit_reveal.rs: archived and not compiled into the scheduler.
- Byte encodings and the construction of task and leaf hashes: task hashes are opaque identifiers and the leaf encoding is a parameter, whose injectivity is a hypothesis where it matters; agreement of the off-chain tree builders with the on-chain verifiers is not claimed.
- Target failure counts, blacklisting, execution counters, round-robin choice of keepers, gas and shards: they guard or count and move no funds.
- Events and views that only read storage.
- u64 overflow of nonces, counters and timestamps: taken as unbounded.
- Vault configuration endpoints, the minimum output computed for a swap, compound and claim callbacks: they move no EGLD of users; yield arriving is the operation `Income`.
- Registry configuration endpoints, unDelegateStake and withdrawProviderStake have operations or no effect in the model but no contract method.
- The oracle's keeper registration endpoints and the setters other than the one for the weight bounds have operations but no contract method.
- The drip funder's rollback after a failed broadcast, and its network calls.
- Locks and poisoning in the session manager: each method runs atomically.
- ping, test-dex, test-nft, zk-verifier, hft-vault, agent-shield, the SDK, the frontend and the scripts.
- SchedulerContract.Scheduler.ScheduleTask: the range checks on the task payload (gas, lifetime, trigger times) are part of `admitted`, because the payload is only an opaque hash here.
- Merkle.Sound: covers proofs whose length is the depth of the tree, because its leaves are digests of unknown origin; for hashed leaves `Merkle.SoundAnyLength` covers every length.
