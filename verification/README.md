# Verified model of the order ledger and its accounting

This Dafny project models the parts of the repository that decide whether money is counted once: the
durable order and Earn submission protocol, the owned and versioned ledger sessions with their interval
receipts, and the exact accounting that runs on top of them. Every property below is a statement over all
inputs, all runs or all reachable states, and has its proof in the `.dfy` files. To verify the project, run
`dafny verify --resource-limit 2000000 --verification-time-limit 0 dfyconfig.toml` with Dafny 4.11.

## How it is organised

| file | what it holds |
|---|---|
| `OrderProtocol.dfy` | the submission protocol as functions on a `Process`, its outside effects as a journal |
| `OrderSafety.dfy` | safety of the protocol over every history of runs on any dates, with crashes, lost replies, lost acknowledgements, restarts and commits that take effect late |
| `CallOutcomes.dfy`, `ProtocolSteps.dfy`, `FillBooks.dfy` | what each call and step of the protocol leaves, for every answer and save, said of the fields of request, answer and fill |
| `ExecutedOrders.dfy` | runs in which the broker's final answers are true: no execution is lost and none is invented |
| `ExecutionRuntime.dfy` | the class whose methods update the runtime's fields, each proved to be the protocol's function; one cycle is one run |
| `StateSession.dfy` | sessions on a versioned store, each with its own configuration, cut at locks and transactions; commits in doubt may take effect late, and an operator may edit the ledger or remove the owner document |
| `SessionSafety.dfy` | no lost update, poisoning, and the save whose outcome stayed unknown |
| `BoundTradeStateAccess.dfy` | the session class with its operation latch; each method is proved to be a run of the session steps |
| `SessionResults.dfy` | what the answer of each session operation means, whatever is edited or revoked on the way, and when operations return |
| `SaveRefinement.dfy` | a save of a session is a write of the order protocol, with the same outcome and of the ledger in memory, late commits included |
| `IntervalReceipts.dfy`, `ReceiptChain.dfy`, `IntervalReader.dfy`, `ReaderResults.dfy` | the writer of interval receipts, the chains it produces, and the independent reader with what it accepts |
| `EarnAccrual.dfy`, `AccrualSteps.dfy` | checkpoints, their comparison, the forward step, exactly which steps are accepted, and what any run of them conserves |
| `FillsToCheckpoint.dfy` | the two ends put together: from the fills of the order protocol to the quantities of the checkpoints |
| `DepositCursor.dfy`, `PollResults.dfy` | the pruned cursor over deposits and withdrawals, the principal it returns, and exactly which listings it accepts and what it reports of them |
| `Lifecycle.dfy` | the batched decimal replay of product facts against the balance history |
| `LifecycleMeaning.dfy` | the histories it is meant to accept, said of the listed facts |
| `LifecycleRounding.dfy`, `LifecycleLimits.dfy` | histories on which that replay errs, and exactly when it does not |
| `ForwardReport.dfy`, `ForwardEvidence.dfy` | paged receipts, legs and the four-wallet report; what evidence and movements are, from the fields of receipts, rows and events |
| `Paging.dfy`, `Windows.dfy`, `HistoryReads.dfy`, `Timestamps.dfy` | paged surfaces, day windows and chunk windows, exactly which answers make a read succeed, and the milliseconds of their bounds |
| `AccountFacts.dfy`, `AccountResults.dfy`, `DecimalText.dfy` | the account payload, its validator, exactly when a payload is made and what it says, and the canonical decimal text |
| `BtcAttribution.dfy`, `BtcOwnership.dfy` | the replay of declared BTC ownership, and exactly which snapshots it reconstructs |
| `Decimals.dfy`, `Contexts.dfy`, `Precision.dfy` | decimals as coefficient and exponent; contexts with their digits, least exponent and overflow; when arithmetic is exact |
| `Outcomes.dfy`, `Amounts.dfy`, `Sequences.dfy` | results, the accepted amounts, sums over dictionaries, multisets |

The protocol, session and cursor models keep what outlives a process (journal, write log, cursor) apart
from what a crash loses, and let the outside world decide every outcome: whether a save took effect,
whether its acknowledgement came back, what the broker answered, and when a commit in doubt is applied.

## Findings

Properties the code does not have on all inputs, each with the condition under which it has them and an
input on which it fails.

- Rewards classification (`application/broker_reconciliation.py:262-355`): the replay adds quantities in a
  context of 50 to 1000 digits (`application/broker_reconciliation.py:366-413`). Take all accounts whose
  quantities lie on a decimal grid of at most one unit and whose products open with and gain less than
  10^digits units of it: the verdict is that of the balance histories exactly when the grid is 10^-1000048
  or coarser, digits is at most 1000 and, unless `str` has no limit, at most that limit
  (`LifecycleLimits.DecidesIff`). Within these limits the order of the facts does not matter
  (`VerdictIgnoresOrder`). Beyond them, 1E+1000 and 9 subscribed cover redemptions of 1E+1000 and 10, and
  9E-1000049 subscribed covers redemptions of 9E-1000049 and 1E-1000049 (`OverdrawnIsAccepted`,
  `FineOverdrawnIsAccepted`), and the order can decide (`OrderCanMatter`, `FineOrderCanMatter`).
- Deposit principal (`application/broker_reconciliation.py:573-596`): it is accumulated in Python's default
  context. It is exact throughout exactly when every total on the way can be written with 28 digits and no
  exponent below -1000026, and none overflows (`PrincipalIsExactIff`), in particular for deposits of at most
  1000026 decimals that stay below 10^28 units of their grid (`PrincipalBelowCapIsExact`). Otherwise an
  accepted poll of 10000000000 and 0.0000000000000000001 USDT does not return the sum, one of 1E-1100000
  returns zero, and one of 1E+1000000 ends with an overflow (`PrincipalCanRound`, `PrincipalCanVanish`,
  `PrincipalCanOverflow`).
- BTC fee totals (`infra/btc_attribution.py:93-94`): the same context; Spot and Earn are never rounded. A
  fee total is exact throughout exactly when every total on the way can be written with 28 digits, in
  particular below 1e10 (`FeeTotalsAreExactIff`, `FeesBelowLimitAreExact`); an accepted snapshot with ten
  fees of 1e9 and one of 1e-18 loses the last (`FeeTotalCanRound`).
- Exact helpers (`application/broker_reconciliation.py:392-407`, `application/rebased_recovery.py:170-195`):
  the total is converted through `str`, which CPython refuses above its limit on the digits of an integer,
  unless that is 0, which means none; they are exact exactly below that limit (`SubtractIsExact`,
  `SumIsExact`), and at every positive limit there is an input beyond it (`SubtractCanFail`, `SumCanFail`).
- `_add_reward_quantity` (`application/broker_reconciliation.py:366-413`) is exact exactly when the sum can
  be written with the chosen digits and an exponent that context has, and does not overflow
  (`AddIsExactIff`); so for operands within the exponent limits that span at most 999 digit positions
  (`AddRewardIsExact`). A span of 1000 can lose the last digit (`SpanOfThousandCanRound`), and 9E-1000049
  alone is rounded (`LeastExponentRounds`).
- Chunked history windows (`application/broker_reconciliation.py:1752-1759`) miss the last millisecond of an
  aligned range exactly when the range ends in the gap after a chunk (`ChunksCoverIff`), which needs a chunk
  length that is not whole milliseconds, or a chunk shorter than one (`HalfMillisecondChunkMisses`).
- The bounds of these windows are milliseconds computed in floating point
  (`application/broker_reconciliation.py:1205`, `application/broker_reconciliation.py:1752-1757`). From
  November 2004 to 2038-01-19T03:14:08Z they are the exact floors, so that the requests are the chunks
  (`MillisecondsAreFloors`, `RequestsCoverIff`); later they need not be: the day up to
  2038-11-10T21:08:27.002Z is read without its last millisecond (`LateRequestMisses`).

## Model

| member | source | states |
|---|---|---|
| OrderSafety.EveryRunIsSafe | runtime_support.py:1225-1453 | over any history of runs, each with its own date and fuel, with crashes, lost replies, lost acknowledgements, restarts and commits that take effect late, the journal is safe, memory is in step with the store or ahead of it by one booked fill whose funds are pending, and whatever is still in flight may safely take effect |
| OrderSafety.EveryPostIsRecordedAndSettled | runtime_support.py:1225-1453 | every mutating request finds its own SUBMISSION_UNKNOWN record durable, and between two requests a durable write settles the first; at most one is open at any moment |
| OrderSafety.UnknownIsReconciledByReads | runtime_support.py:1246-1285 | no operation on a record of unknown outcome sends a request |
| OrderSafety.DurableNetsAreSettledLegs | runtime_support.py:651-680 | while a checkpoint exists each durable net change is its value at the last forward step plus the legs of exactly the fills whose record has since left FILLED_ACCOUNTING_PENDING, each of which has a side and a USDT symbol; what the legs are is said by FillBooks.BookedFillMoves |
| OrderSafety.FillsAreConserved | runtime_support.py:1035-1062 | the fills recorded are, in order, the fills booked plus the one still pending: each is booked once, also across uncertain writes |
| OrderSafety.ReleaseOnlyWhenSettled | application/cycle_service.py:606-639 | whenever an owner document is deleted, at once or late, in any run, the durable record is RESERVED or TERMINAL, no request is open and every recorded fill is booked |
| OrderSafety.ReleaseFindsQuiet | runtime_support.py:604-621 | the same of one release from any state the invariant allows, also when its deletion is still in flight |
| OrderSafety.AheadIsNotReleased | runtime_support.py:757-771 | while memory says TERMINAL and the store does not, the release refuses |
| OrderSafety.TradeRunsAhead | application/execution_service.py:140-151 | booking a filled order does put memory ahead of the store, with its funds pending |
| OrderSafety.CommitFrom | runtime_support.py:581-601 | any ledger derived from a linked memory may be committed: the record follows its state machine and the books stay right |
| OrderSafety.BookInMemory | application/execution_service.py:148-151 | booking the pending fill in memory is the one way memory gets ahead |
| OrderSafety.PerformKeeps | application/cycle_service.py:246-460 | every operation of a cycle keeps the invariant and only extends the journal |
| OrderSafety.CrashDuringKeeps | runtime_support.py:926-932 | so does a crash after any part of an operation's outside effects, with the next one perhaps on its way |
| ExecutedOrders.EveryRunIsTruthful | runtime_support.py:1035-1062 | in every run in which the broker's final answers are true, a record of unknown outcome is left only for what really happened, at once or late |
| ExecutedOrders.NoExecutionIsLost | runtime_support.py:1035-1062 | then every order that was sent and executed, in full or in part, is open, or its fill is waiting to be booked, or booked |
| ExecutedOrders.NothingIsInvented | runtime_support.py:1047-1056 | and every fill recorded since the installation is one the broker executed |
| ExecutedOrders.EarnIsConfirmed | runtime_support.py:1132-1170 | and an Earn request that was sent is open until its movement is confirmed |
| CallOutcomes.SendEnds | runtime_support.py:1286-1437 | a call that sends makes its intent durable, sends one request, and ends as the answer says: filled and about this very order, the fill is recorded and its funds confirmed; failed with nothing executed, the record is settled and the funds dropped; with any other answer or a failed save both stay |
| CallOutcomes.ResumeEnds | runtime_support.py:1256-1285 | a call on its own open order sends nothing, and the lookup decides in the same way |
| CallOutcomes.OtherwiseNothingIsSent | runtime_support.py:1246-1303 | every other call fails without a request and leaves the funds, and a record that is not settled, as they are |
| CallOutcomes.EarnEnds | runtime_support.py:1304-1376 | an allowed Earn call ends with the record open, open with its receipt, or settled, according to reply, confirmation and saves; only the last confirms its funds |
| CallOutcomes.OtherwiseNothingMoves | runtime_support.py:1290-1330 | every other Earn call fails without a request |
| FillBooks.BookedFillMoves | runtime_support.py:669-678 | a booked purchase adds the executed quantity to the base asset and takes the quote from USDT, a sale the reverse; every asset pays the commissions charged in it, and nothing else changes |
| FillBooks.CompleteFillAddsUp | runtime_support.py:959-998 | where 28 digits are enough a fill is complete exactly when its parts are positive, charged in allowed assets, and add up to what was executed and paid within the tolerances |
| ProtocolSteps.BookedIff | runtime_support.py:659-677 | a pending fill is booked exactly when it is a complete trade of a listed asset for USDT with every amount in bounds |
| ProtocolSteps.AccountingOutcome | application/execution_service.py:140-151 | after a fill the balances enter the snapshot and the fill is booked in memory, or only the balances when it cannot be |
| ProtocolSteps.CashOutcome | runtime_support.py:682-754 | confirmed funds are reconciled exactly when the owner read the balances of exactly these assets and USDT and a pending fuel fill agrees; else nothing changes |
| ProtocolSteps.EvidentIff | runtime_support.py:757-771 | funds are accounted for exactly when the written ledger carries the evidence the reason names |
| ProtocolSteps.WriteOutcome | runtime_support.py:773-800 | a write succeeds exactly for the owner, with an interval where the reason needs one and only there, and an acknowledged save; the funds without evidence stay pending |
| ProtocolSteps.WorkingLedgerIsWritten | runtime_support.py:773-800 | a save of the working ledger is such a write of it as it is |
| ProtocolSteps.ForwardOutcome | application/portfolio_service.py:92-164 | a forward step writes the settled ledger with every net change at zero |
| ProtocolSteps.SettledOutcome | runtime_support.py:1158-1170 | a confirmed movement is settled exactly when no managed balance changed and the save is acknowledged; one pending item is removed |
| ProtocolSteps.RecoveryOutcome | runtime_support.py:1132-1170 | the recovery takes up only an Earn call whose success was received, and leaves everything else as it is |
| ProtocolSteps.ReleaseOutcome | runtime_support.py:604-621 | the owner document is given back only by its owner with nothing waiting |
| ProtocolSteps.EntryOutcome | application/cycle_service.py:246-330 | the cycle goes on only from a settled record, the owner loads the ledger once, and a new run begins with nothing cached |
| ExecutionRuntimes.CheckKnownFill | runtime_support.py:959-998 | the loop over the parts, with its 28-digit sums and tolerances, accepts exactly complete fills |
| ExecutionRuntimes.BookLegs | runtime_support.py:671-678 | the leg-by-leg update adds to every asset exactly its leg |
| ExecutionRuntimes.AccountFill | runtime_support.py:651-680 | booking is the protocol's booking, with its refusals |
| ExecutionRuntimes.ExecutionRuntime.PersistState | runtime_support.py:581-601 | a save with its three outcomes on the fields and the journal |
| ExecutionRuntimes.ExecutionRuntime.PersistSubmission | runtime_support.py:926-932 | memory changes only after an acknowledged write |
| ExecutionRuntimes.ExecutionRuntime.CompleteOrderResponse | runtime_support.py:1035-1062 | the record, the pending funds and the answer for each status |
| ExecutionRuntimes.ExecutionRuntime.ReconcileUnknownOrder | runtime_support.py:1256-1285 | the read-only path for an unknown record |
| ExecutionRuntimes.ExecutionRuntime.SendOrder | runtime_support.py:1377-1437 | however many retries are allowed, an order is sent once |
| ExecutionRuntimes.ExecutionRuntime.SubmitReserved | runtime_support.py:1306-1345 | reserve durably, note the funds at stake, then send |
| ExecutionRuntimes.ExecutionRuntime.CallClientForOrder | runtime_support.py:1225-1453 | the whole order call on the fields equals the protocol's |
| ExecutionRuntimes.ExecutionRuntime.CallClientForEarn | runtime_support.py:1290-1376 | the whole Earn call on the fields equals the protocol's |
| ExecutionRuntimes.ExecutionRuntime.PrepareAccountingState | application/execution_service.py:140-151 | balances merged into the snapshot, and the booking in memory |
| ExecutionRuntimes.ExecutionRuntime.ReconcileCashEffects | runtime_support.py:682-754 | observed balances enter memory only after the comparison, with the pending fuel fill |
| ExecutionRuntimes.ExecutionRuntime.DropAccounted | runtime_support.py:757-771 | exactly the pending items the written ledger accounts for are dropped |
| ExecutionRuntimes.ExecutionRuntime.RuntimeSetTradeState | runtime_support.py:773-800 | the write, its refusals of a missing or misplaced interval, and the pending funds it leaves |
| ExecutionRuntimes.ExecutionRuntime.ReconcilePendingFunding | runtime_support.py:1132-1170 | one Earn receipt is finished by reads, or nothing is settled |
| ExecutionRuntimes.ExecutionRuntime.AcquireStateOwner | runtime_support.py:549-566 | only a claim known to have succeeded gives ownership, and it forgets everything cached before; an uncertain one raises and gives nothing |
| ExecutionRuntimes.ExecutionRuntime.ReleaseStateOwner | runtime_support.py:604-621 | the release with its refusals and uncertain outcome |
| ExecutionRuntimes.ExecutionRuntime.ExecuteCycle | application/cycle_service.py:246-639 | one cycle is one of the runs above; it lets go of the owner document when it stayed healthy or its daily accounting failed before anything was sent, and then the store is settled |
| SessionSafety.NoUpdateIsLost | live_services.py:231-248 | with sessions of any configurations, every committed session write, late ones included, sits on exactly the value and version the session last read, under its own owner document, with no change by anyone in between; all writes chain |
| SessionSafety.SameMeansIdle | live_services.py:245-248 | the same value and version at two moments means nothing changed in between |
| SessionSafety.FailurePoisons | live_services.py:145-170 | any failure of an admitted operation, any overlap and any invalidate poisons the session |
| SessionSafety.PoisonedNeverReturns | live_services.py:131-170 | whatever follows, no operation of a poisoned session returns, not even one in flight |
| SessionSafety.DoubtfulSaveHoldsTheLedger | live_services.py:184-229 | a poisoned owner is never replaced, and sessions leave the ledger at the old source or the intended document forever |
| SessionSafety.UnacknowledgedSaveFreezes | live_services.py:294-350 | a save whose commit was not acknowledged leaves exactly that situation, in every run |
| SessionSafety.CommitKeeps | live_services.py:338-345 | a staged write that passes its checks extends the log faithfully |
| BoundAccess.BoundTradeStateAccess.constructor | live_services.py:94-113 | a fresh session holds nothing |
| BoundAccess.BoundTradeStateAccess.Admit | live_services.py:146-158 | admission: overlap poisons, an inactive or already owning session is refused without poison |
| BoundAccess.BoundTradeStateAccess.Complete | live_services.py:159-170 | an operation succeeds only if nothing invalidated the session meanwhile |
| BoundAccess.BoundTradeStateAccess.IsActive | live_services.py:123-125 | active means owning, valid and idle |
| BoundAccess.BoundTradeStateAccess.PublishSource | live_services.py:172-177 | what was read becomes the source |
| BoundAccess.BoundTradeStateAccess.Transact | live_services.py:184-229 | a transaction commits, is refused, or leaves a doubt |
| BoundAccess.BoundTradeStateAccess.Claim | live_services.py:250-265 | the claim among revocations and outside edits equals the session steps |
| BoundAccess.BoundTradeStateAccess.Load | live_services.py:267-280 | so does the load, once per session |
| BoundAccess.BoundTradeStateAccess.PrepareWrite | live_services.py:298-341 | an ordinary save keeps every source field the normalised state lacks and, with receipts, checkpoint and cursor; an interval save changes the patch fields only |
| BoundAccess.PreparedLeavesIntended | live_services.py:336-341 | committed on its source, a prepared save leaves exactly the document it intends |
| BoundAccess.BoundTradeStateAccess.ReadBack | live_services.py:282-292 | the readback accepts only the intended document at a newer version, or an unchanged one |
| BoundAccess.BoundTradeStateAccess.Save | live_services.py:294-350 | the save with its receipt and readback transactions equals the session steps |
| BoundAccess.BoundTradeStateAccess.Release | live_services.py:352-371 | the release equals the session steps and closes the session |
| BoundAccess.ConductIsRun | live_services.py:145-170 | every operation of the class is a run of the many-session world |
| SessionResults.ReturnedSave | live_services.py:282-350 | a save that returns, whatever was edited or revoked on the way, leaves the session with exactly the merged fields as its source, at a newer version unless nothing changed; an ordinary one was committed on the very source, an interval save has left its receipt |
| SessionResults.ReturnedClaim | live_services.py:250-265 | a claim returns True when it created the owner document and False when another's was there |
| SessionResults.ReturnedLoad | live_services.py:267-280 | a load that returns read the document as it was under the session's own owner document |
| SessionResults.ReturnedRelease | live_services.py:352-371 | a release that returns found the ledger as the source had it, removed the owner document and closed the session |
| SessionResults.PreparedIff | live_services.py:298-335 | exactly when a save is prepared |
| SessionResults.CalmSaveReturns | live_services.py:294-350 | undisturbed, a prepared save of the owner on an unchanged ledger returns |
| SessionResults.CalmClaimReturns | live_services.py:250-265 | undisturbed, a claim returns, with success exactly when nobody owns the ledger |
| SessionResults.CalmLoadReturns | live_services.py:267-280 | undisturbed, the first load of an owner returns |
| SessionResults.CalmReleaseReturns | live_services.py:352-371 | undisturbed, a release on an unchanged ledger returns |
| SessionResults.NewSessionMayClaim | live_services.py:94-113 | a new session may claim and do nothing else |
| SaveRefinement.SaveRealisesPersist | runtime_support.py:581-601 | a save of an owning session is a write of the order protocol with the same outcome: returned and written, failed and written, or failed and perhaps in flight |
| SaveRefinement.MergedReadsAsMemory | live_services.py:298-341 | what a save merges into the source reads as the ledger in memory, when that has the fields the protocol reads and the normaliser keeps them |
| SaveRefinement.SaveRealisesMemory | runtime_support.py:581-601 | so the save of the working ledger is the protocol's write of exactly that ledger |
| SaveRefinement.MissingFieldComesBack | live_services.py:336-341 | a field the normalised ledger lacks comes back from the source |
| SaveRefinement.LateRealisesLateCommit | live_services.py:184-229 | a commit in doubt that takes effect is the protocol's late step |
| SaveRefinement.TakenOverForGood | live_services.py:231-248 | once a poisoned session's owner document is gone, its commit in doubt never takes effect, whatever any session or anyone else does |
| SaveRefinement.OutsideReleaseTakesOver | live_services.py:184-229 | an operator who removes the owner document of a poisoned session with a write in doubt brings about that situation |
| IntervalReceipts.BuiltPlanIsExact | application/interval_source_receipt_candidate.py:151-232 | a built plan passes the validator, and its patch turns the source into the planned state without touching other fields |
| IntervalReceipts.PlanIsBuiltIff | application/interval_source_receipt_candidate.py:151-232 | a plan is built exactly for a daily interval between two documents that stand at its ends with the same assets, nothing unsettled or unaccounted, and equal outside the patch |
| IntervalReceipts.PlanIsValidIff | application/interval_source_receipt_candidate.py:151-232 | the validator accepts exactly the patch of a daily interval that stands at its end |
| ReceiptChain.ReceiptsAreTheMoves | application/interval_source_receipt_candidate.py:294-329 | in every run of sessions with receipts, whatever their normalisers, receipts exist exactly for the committed checkpoint moves, in order, and chain end to start from strictly newer versions |
| ReceiptChain.ReceiptKeeps | live_services.py:303-334 | a receipt commit adds one link and records the move it makes |
| ReceiptChain.ReplayWritesNothing | application/interval_source_receipt_candidate.py:303-310 | staging a committed plan again writes nothing |
| ReceiptChain.ReaderAcceptsEveryRun | application/interval_receipt_reader_candidate.py:124-179 | within the reader's limits the receipts of any run are accepted as a whole, in any order and with repetitions |
| IntervalReader.Prepare | application/interval_receipt_reader_candidate.py:124-179 | the loops compute the reader's verdict and preview |
| IntervalReader.CollectEntries | application/interval_receipt_reader_candidate.py:140-159 | the dictionaries answer the questions about the receipts kept so far |
| IntervalReader.ScanOrdered | application/interval_receipt_reader_candidate.py:161-170 | the time-order scan |
| IntervalReader.AcceptsExactlyTilings | application/interval_receipt_reader_candidate.py:137-179 | accepted exactly when the distinct readable receipts tile the cutover with no gap or overlap in the order of their versions, within the limits |
| ReaderResults.PreparedIff | application/interval_receipt_reader_candidate.py:60-179 | the reader accepts exactly documents of its ledger and scope, under their own names and digests, within the limits, that cut up the cutover; the preview lists their receipts in a row, each once, and counts documents, bytes and repetitions |
| IntervalReader.OrderAndRepetitionDoNotMatter | application/interval_receipt_reader_candidate.py:148-160 | same documents, same verdict and same ordered records |
| IntervalReader.ReorderingKeepsLimits | application/interval_receipt_reader_candidate.py:144-146 | a permutation changes neither count nor bytes |
| Lifecycle.SimulateProduct | application/broker_reconciliation.py:262-355 | the batch loop over the sorted facts computes the decimal replay |
| Lifecycle.ProcessBatch | application/broker_reconciliation.py:286-355 | the three passes over one millisecond, with their refusals |
| Lifecycle.BatchIsEvents | application/broker_reconciliation.py:278-355 | a batch of readings passes exactly when each of its events satisfies its own condition on the balance history |
| Lifecycle.Classify | application/broker_reconciliation.py:211-359 | the verdict over all products; success tallies add up to the number of rewards, a rejection reports one failure and no success |
| Lifecycle.SimulationIsExact | application/broker_reconciliation.py:262-355 | on facts of one grid between 10^-1000048 and 1, with opening and gains below 10^1000 units and below the limit of `str`, the replay accepts exactly the explained histories: never negative after a millisecond, every reward on a strictly earlier positive balance |
| Lifecycle.VerdictIsAccepted | application/broker_reconciliation.py:211-359 | the same of the verdict over all products |
| LifecycleMeaning.AcceptedIff | application/broker_reconciliation.py:211-355 | the account meant to be accepted: every product is named and managed, its balance from the listed subscriptions, rewards and redemptions never ends a millisecond negative, and every reward is paid on a balance that was there before and not just subscribed |
| LifecycleLimits.DecidesIff | application/broker_reconciliation.py:211-413 | for all accounts on a grid with quantities of so many digits the verdict is that of the balance histories, exactly when the grid is 10^-1000048 or coarser and the digits are within 1000 and within the limit of `str`; each limit is necessary |
| LifecycleRounding.OverdrawnIsAccepted | application/broker_reconciliation.py:410-413 | on every grid the contexts keep, 10^1000 and 9 units subscribed, 10^1000 and 10 redeemed: rows the validators accept, and the verdict accepts although the balance ends at -1 |
| LifecycleRounding.OrderCanMatter | application/broker_reconciliation.py:297-303 | the same five facts are accepted in one order and refused in another |
| LifecycleRounding.FineOverdrawnIsAccepted | application/broker_reconciliation.py:366-413 | 9E-1000049 subscribed, 9E-1000049 and 1E-1000049 redeemed: accepted although the balance ends one unit below zero |
| LifecycleRounding.FineOrderCanMatter | application/broker_reconciliation.py:366-413 | on that grid too the order of the same facts decides |
| Lifecycle.VerdictIgnoresOrder | application/broker_reconciliation.py:267-276 | within the same limits the verdict of the code does not depend on the order of the facts |
| Decimals.SubtractIsExact | application/broker_reconciliation.py:392-407 | the difference is exact exactly when the total stays below the digit limit, if there is one |
| Decimals.SubtractCanFail | application/broker_reconciliation.py:404-407 | at every positive limit zero cannot be subtracted from 1E+limit |
| Decimals.ExactDecimalSum | application/rebased_recovery.py:170-195 | the loop computes the scaled integer total |
| Decimals.SumIsExact | application/rebased_recovery.py:170-195 | the sum is exact exactly below the digit limit, if there is one |
| Decimals.SumCanFail | application/rebased_recovery.py:170-195 | at every positive limit a sum fails |
| Contexts.FinishedIsExactIff | application/broker_reconciliation.py:410-413 | a context keeps a total exactly when it can be written with its digits and an exponent not below its least one, and does not overflow |
| Contexts.AddIsExactIff | application/broker_reconciliation.py:366-413 | a sum of two quantities is exact exactly when it can be written with the chosen digits and an exponent not below that context's least one, and does not overflow |
| Contexts.AddRewardIsExact | application/broker_reconciliation.py:366-413 | addition is exact for operands within the exponent limits that span at most 999 digit positions |
| Contexts.SpanOfThousandCanRound | application/broker_reconciliation.py:366-375 | a span of 1000 can lose the last digit |
| Contexts.LeastExponentRounds | application/broker_reconciliation.py:410-413 | 0 + 9E-1000049 spans one position and gives 1E-1000048 |
| Contexts.SumsAreExactIff | application/broker_reconciliation.py:586-590 | sums accumulated in one context are exact after every value exactly when the context can hold each total on the way |
| Decimals.RoundingIsExactIff | infra/btc_attribution.py:93-94 | rounding to so many digits keeps a total exactly when the total can be written with them; about digits only, which is all the fees need |
| DepositCursor.Collect | application/broker_reconciliation.py:494-658 | the loops compute the poll of PollResults.PollIsAcceptedIff, with the principal in the default context, or the refusal of an overflow |
| DepositCursor.AcceptedPoll | application/broker_reconciliation.py:494-658 | what an accepted poll reports, records and forgets |
| PollResults.PollIsAcceptedIff | application/broker_reconciliation.py:494-658 | exactly which listings a poll accepts, what its cursor then holds of deposits and withdrawals, listed or not, and how many withdrawals are new or changed |
| PollResults.PollReports | application/broker_reconciliation.py:573-596 | the sum, the completion times and the number of the newly completed deposits, told apart by coin, wallet and kind of transfer; at bootstrap nothing |
| DepositCursor.ReportedAtMostOnce | application/broker_reconciliation.py:525-603 | over any run of polls no deposit is reported twice, although completed ones are pruned |
| DepositCursor.ReportedWhenFirstCompleted | application/broker_reconciliation.py:573-596 | a poll reports exactly the eligible deposits it is the first to see completed, unless it is the bootstrap, and returns the total of their amounts accumulated in the default context |
| DepositCursor.PrincipalIsExactIff | application/broker_reconciliation.py:586-590 | the principal is exact after every deposit exactly when each total on the way can be written with 28 digits and no exponent below -1000026, and does not overflow |
| DepositCursor.PrincipalBelowCapIsExact | application/broker_reconciliation.py:586-590 | an accepted poll whose deposits have at most 1000026 decimals and stay below 10^28 units of their grid returns their exact sum |
| DepositCursor.PrincipalCanRound | application/broker_reconciliation.py:586-590 | an accepted poll of deposits of 1e10 and 1e-19 that does not return their sum |
| DepositCursor.PrincipalCanVanish | application/broker_reconciliation.py:586-590 | an accepted poll of one deposit of 1E-1100000 returns zero |
| DepositCursor.PrincipalCanOverflow | application/broker_reconciliation.py:586-590 | a poll of one deposit of 1E+1000000 ends with an overflow |
| DepositCursor.CursorsStayValid | application/broker_reconciliation.py:422-456 | every cursor produced is within capacity and accepted at any later time |
| DepositCursor.DropAged | application/broker_reconciliation.py:630-639 | the pruning loop keeps exactly what the rule keeps |
| EarnAccrual.Validate | application/earn_accrual.py:120-142 | a checkpoint is valid exactly when each quantity is the sum of its parts, within the limits |
| EarnAccrual.CompareAsset | application/earn_accrual.py:163-178 | one asset conserves exactly when its quantity changed by its counters' growth plus the verified net change |
| EarnAccrual.CompareCheckpoints | application/earn_accrual.py:145-180 | the comparison accepts exactly conserving checkpoints and returns the accruals |
| EarnAccrual.PrepareForward | application/earn_accrual.py:183-237 | the forward step is accepted exactly under its documented conditions and gives the next ledger |
| AccrualSteps.StepIsAcceptedIff | application/earn_accrual.py:120-226 | a forward step is accepted exactly when both checkpoints add up, every asset is explained by counters, booked fills, deposits and dividends, and the flows are documented on the day of the observation |
| AccrualSteps.StepLeaves | application/earn_accrual.py:227-237 | checkpoint, snapshot and cursor at the new observation, no net change left, and the day's principal grown by the deposits exactly when the ledger's day is that of the observation |
| EarnAccrual.QuantitiesAreExplained | application/earn_accrual.py:145-237 | over any run each asset's quantity changed by its counters plus the documented fills, deposits and dividends not still pending, with the products fixed |
| EarnAccrual.CursorIsAtCheckpoint | application/earn_accrual.py:199-203 | cash cursor and checkpoint move together |
| EarnAccrual.StepConserves | application/earn_accrual.py:221-229 | what one accepted step says about each asset |
| FillsToCheckpoint.StepSeesPeriod | application/earn_accrual.py:199-221 | the net changes that a forward step verifies and resets are the legs of exactly the fills settled since the last one, with one booked in memory by this step |
| FillsToCheckpoint.EveryRunIsExplained | application/earn_accrual.py:145-237 | over every run of the order protocol whose forward writes are accepted steps, each asset's quantity changed by its counters, the documented deposits and dividends, what was installed, and the legs of exactly the fills taken up; and the fills entered are, in order, those taken up, those settled since and the current one |
| Precision.PlusIsExact | application/earn_accrual.py:16-26 | the 1e30 and 30-decimal limits keep 100-digit addition exact for up to a million amounts |
| ForwardReport.CheckReceipt | application/forward_reconciliation.py:73-105 | the page loop accepts exactly complete, ordered, stable pages |
| ForwardReport.ReceiptPartitionsRows | application/forward_reconciliation.py:84-105 | accepted pages, put together, are the rows, each once and in order |
| ForwardReport.NativeBalances | application/forward_reconciliation.py:117-141 | the balances are the sums of the native rows, refused on duplicates |
| ForwardReport.InternalEventsCancel | application/forward_reconciliation.py:192-206 | transfers and Earn lifecycle events move nothing in or out of the account |
| ForwardReport.CombinedIsExternal | application/forward_reconciliation.py:371-378 | the combined movement is that of the external events alone |
| ForwardReport.SumLegs | application/forward_reconciliation.py:350-352 | the deltas are the exact sums of the legs |
| ForwardReport.CompareWallet | application/forward_reconciliation.py:353-368 | movements, residuals and reasons of one wallet, with every difference in the 100-digit context |
| ForwardReport.Build | application/forward_reconciliation.py:262-379 | the report: its reasons, rows, combined table and legs |
| ForwardEvidence.LegsMove | application/forward_reconciliation.py:182-223 | an exchange takes what is paid, adds what is bought and takes the fee; a withdrawal takes amount and fee; a deposit or reward adds; a transfer or Earn move takes from one wallet and adds to the other; nothing else moves |
| ForwardEvidence.LegsIff | application/forward_reconciliation.py:182-223 | exactly which events have legs |
| ForwardEvidence.ReceiptIff | application/forward_reconciliation.py:73-105 | a receipt is accepted exactly when its pages cut the rows into full pages and a last one, in order, under one binding and revision |
| ForwardEvidence.MatchedIffBalanced | application/forward_reconciliation.py:262-381 | a report is matched exactly when both snapshots and every history are fully listed and sound, and in each wallet every asset named anywhere is listed at both ends and changed by exactly what the events say |
| ForwardEvidence.RowIs | application/forward_reconciliation.py:345-368 | movements, residuals and match of one wallet, asset by asset |
| ForwardEvidence.CombinedIs | application/forward_reconciliation.py:369-376 | the combined table is there exactly when all wallets list every asset named, and adds them up |
| ForwardReport.MatchedIffConserved | application/forward_reconciliation.py:340-381 | matched exactly when the evidence is complete and closing is opening plus the legs for every wallet and asset |
| ForwardReport.CombinedTable | application/forward_reconciliation.py:369-376 | combined closing is opening plus movement plus the sum of the residuals, each four-wallet sum exact in the 100-digit context |
| ForwardReport.MatchesCompose | application/forward_reconciliation.py:262-379 | matched reports over adjoining windows with no event in common make a match over the joined window, given its receipts |
| Paging.FetchSurface | application/broker_reconciliation.py:1261-1396 | the page loop, at most 20 pages |
| Paging.SuccessIsTheWholeSet | application/broker_reconciliation.py:1360-1385 | pages drawn from one fixed set of `total` rows: success returns that whole set, each row once |
| Paging.StableListingIsReadIff | application/broker_reconciliation.py:1261-1396 | an unchanging listing is returned as it is exactly when it fits the page limit |
| Paging.FetchedFacts | application/broker_reconciliation.py:106-132 | a successful read repeats no identity, neither its own nor one of an earlier chunk |
| SurfaceReads.FetchedIff | application/broker_reconciliation.py:1261-1396 | a surface is read exactly when at most 20 pages of the broker make a complete read, each asked for by number and offset, with every identity in order; it returns those rows |
| AccountFacts.ReadEarn | application/account_facts.py:339-388 | the Earn loop and the running sums per asset |
| AccountFacts.EachProductCountedOnce | application/account_facts.py:339-388 | a payload counts consecutive pages from the first on, every product once, as many as announced |
| AccountFacts.Collect | application/account_facts.py:264-467 | the collector |
| AccountResults.CollectedIff | application/account_facts.py:264-467 | a payload is made exactly when Spot and all announced Earn pages are sound, the times are in order and every holding is printable; it has one line for each asset that holds anything, which says what is free, locked, in Earn and altogether |
| AccountResults.EarnIsReadIff | application/account_facts.py:339-388 | exactly which Earn pages are read |
| AccountFacts.ValueWallets | application/account_facts.py:167-207 | the wallet valuation or its reason |
| AccountResults.ValuedIff | application/account_facts.py:167-207 | the wallets are valued exactly when one to 32 rows count, at their sum |
| AccountFacts.CollectedIsValid | application/account_facts.py:470-578 | every payload collected is accepted by the validator |
| AccountResults.PayloadIff | application/account_facts.py:470-578 | a payload is valid exactly when its times are in order, each line says three amounts and their sum, and the valuation is one or a known reason |
| DecimalText.DecimalToText | application/account_facts.py:130-149 | the digit loop computes the text |
| DecimalText.PrintsExactlyWhatFits | application/account_facts.py:141-145 | printing succeeds exactly below 1e30 and on multiples of 1e-30 |
| DecimalText.EqualValuesPrintAlike | application/account_facts.py:130-149 | equal values print identically |
| DecimalText.TextReadsBack | application/account_facts.py:44-46 | the text is in the wallet grammar and reads back as the value |
| DecimalText.GrammarIff | application/account_facts.py:44-46 | the wallet grammar: zero or no leading zero, up to 30 digits on either side of a point |
| DecimalText.TextIsCanonical | application/account_facts.py:559-560 | reading a printed text and printing it again changes nothing |
| BtcAttribution.Reconstruct | infra/btc_attribution.py:49-115 | the replay loop and its refusals |
| BtcAttribution.ReconstructionIgnoresOrder | infra/btc_attribution.py:68-84 | the result does not depend on the order of the lists |
| BtcAttribution.OwnershipIsConserved | infra/btc_attribution.py:85-115 | Spot plus Earn is the opening plus bought minus sold minus BTC fees |
| BtcOwnership.ReconstructedIff | infra/btc_attribution.py:49-115 | a snapshot is reconstructed exactly when it declares what it must, every event is sound and leaves Spot and Earn between 0 and 1e9, and what opening, fills and transfers add up to is what was observed, in whatever order they are listed |
| BtcAttribution.BalancesStayWithinLimits | infra/btc_attribution.py:110-111 | after each event both balances are the exact sums, never negative and within 1e9 |
| BtcAttribution.PlusIsExact | infra/btc_attribution.py:16-25 | 10 + 18 digits fit a 28-digit context |
| BtcAttribution.FeeTotalsAreExactIff | infra/btc_attribution.py:93-94 | a reconstruction's fee total is accumulated in time order, and exact after every fee exactly when each sum on the way can be written with 28 digits |
| BtcAttribution.FeesBelowLimitAreExact | infra/btc_attribution.py:93-94 | fees of one asset that together stay below 1e10 are added exactly, in whatever order they are listed |
| BtcAttribution.FeeTotalCanRound | infra/btc_attribution.py:93-94 | an accepted snapshot whose fee total loses its last digit |
| Windows.CollectTrades | application/broker_reconciliation.py:821-865 | the window loop and its dictionary |
| Windows.DayWindowsPartition | application/broker_reconciliation.py:839-862 | every millisecond lies in exactly one window of at most a day |
| Windows.TradesAreReadOnce | application/broker_reconciliation.py:853-863 | a successful read is exactly the broker's trades of the range, each once |
| TradeReads.TradesReadIff | application/broker_reconciliation.py:821-865 | a range is read exactly when every day window is answered with less than a full page and rows of one key agree; it is then each row, each key once |
| Windows.ChunkLoop | application/broker_reconciliation.py:1699-1759 | the chunk loop: it ends at the first incomplete chunk, or reads every chunk once and counts its rows |
| TradeReads.CountsAddUp | application/broker_reconciliation.py:1744-1751 | the counts of the chunks are added name by name |
| Windows.ChunksCoverIff | application/broker_reconciliation.py:1699-1759 | every millisecond is read exactly when the range ends inside a chunk |
| Timestamps.MillisecondsAreFloors | application/broker_reconciliation.py:1205 | from November 2004 to January 2038 the two roundings of the floating-point milliseconds give the exact floor |
| Windows.RequestsCoverIff | application/broker_reconciliation.py:1699-1759 | so the requests, bounds in floating point included, ask for every millisecond of an aligned range exactly when it ends inside a chunk |
| Windows.LateRequestMisses | application/broker_reconciliation.py:1752-1757 | the day up to 2038-11-10T21:08:27.002Z is read without its last millisecond |
| Windows.WholeMillisecondChunksCover | application/broker_reconciliation.py:1598-1625 | chunk lengths of whole milliseconds always cover |
| Windows.HalfMillisecondChunkMisses | application/broker_reconciliation.py:1752-1759 | a chunk of 1.5 ms misses the last of two milliseconds |
| Windows.OnlyBoundaryIsReadTwice | application/broker_reconciliation.py:1752-1757 | at most one millisecond is read twice, the one before the last, by the last two chunks |

## Left out

- Firestore, HTTP and the transport of requests: the store is a versioned document with atomic transactions, the broker answers as it likes.
- Custom state writers without a bound session: only bound sessions are modelled, in which any doubt about a save ends the ownership.
- Digests and JSON encoding: digests are injective, so records, pages and receipts hold the digested material; shape checks on JSON values are types.
- OrderSafety.EveryRunIsSafe: a new run may follow at any moment; a process whose owner document was removed from outside is taken to have ended by then.
- ExecutionRuntimes.CheckKnownFill: amounts lie on one grid of 30 decimals, far inside the exponent limits of the context, which are left out.
- ExecutedOrders.NoExecutionIsLost: what became of a request is known by its identity; that no two requests share one is the broker's rule and not modelled.
- FillBooks.CompleteFillAddsUp: speaks of amounts for which 28 digits are enough; beyond them the comparison uses the rounded sums of `OrderProtocol.dfy`.
- ExecutionRuntimes.ExecutionRuntime.CallClientForOrder: the second load of the state when none is cached is not modelled, because the cycle loads before any call; retries of calls that are neither orders nor Earn calls, and dry runs, are left out.
- ExecutionRuntimes.ExecutionRuntime.ExecuteCycle: the strategy's decisions, indicators and notifications are an arbitrary sequence of operations; whether a daily failure has a forward reason code is given.
- ExecutionRuntimes.ExecutionRuntime.CallClientForEarn: the shape checks of asset, product and account are folded into the preflight, whose failures share one code.
- ExecutionRuntimes.ExecutionRuntime.ReconcileCashEffects: the balance reads and the comparison with the checkpoint are one outcome of the environment; the comparison itself is in `EarnAccrual.dfy`.
- `_parse_filled_order` and `_apply_fill_balances`: float arithmetic on working balances, which the ledger never relies on for its books.
- BoundAccess.BoundTradeStateAccess.Load: the normalised working state handed to the caller is not part of the session state; owner ids are the sessions' own numbers, as unique as the source's random ids; custom backends are left out.
- IntervalReader.Prepare: labels, path syntax and JSON field checks are left out; every refused entry has one code for its shape.
- IntervalReceipts.BuiltPlanIsExact: the syntax of document paths is left out; receipts hold instants and integers, so that two texts of one instant are one receipt, where the source compares the serialised texts.
- Lifecycle.Classify: facts arrive as validated rows; that a product belongs to one asset is checked when they are read and is left out.
- Decimals.SubtractIsExact: the digit limit is a parameter, because it is a setting of the interpreter; negative zero is left out.
- DepositCursor.Collect: the float conversion of instants to milliseconds is left out; times are milliseconds.
- EarnAccrual.PrepareForward: the float copies of snapshot and daily principal are kept exact, the snapshot as its set of assets; error codes of the shape checks are merged.
- ForwardReport.Build: inventories given as ready-made balances instead of native rows, and the public envelope, are left out; identities are stripped of spaces only, where the source strips all white space.
- Paging.FetchSurface: the diagnostics of a failed read are one code.
- AccountFacts.Collect: constant fields, identity bindings and the alphabetical order of the asset rows are left out; failures of one kind share a code.
- BtcAttribution.Reconstruct: contract version, account binding and completeness are one flag.
- AccountFacts.CollectedIsValid: the validator's checks of constants and identity bindings, which the collector writes itself, are left out.
- AccountFacts.ValueWallets: the grammar's digit class also matches decimal digits outside ASCII, which the model refuses; blank texts are those of spaces only, where the source strips all white space.
- Windows.ChunkLoop: what is read in each chunk is in `Paging.dfy` and `Lifecycle.dfy`; the bounds are floored exactly, which the floats do from 2004-11-03 to 2038-01-19 (`Timestamps.dfy`).
- Recovery packages and live risk authority: long equality checks that one reading settles.
- Notifications, translation, CLI scripts and release selection: no effect on the ledger.
