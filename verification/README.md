# Verification of the settlement core

open-ssp settles payments between the Lightning network, Spark operators and
Bitcoin. Its database rows are the only memory it has across restarts, and the
three parties it talks to may fail, succeed, or succeed and lose the reply. This
project models the five components that move money and proves what they keep.

`dafny verify dfyconfig.toml` checks everything.

## How a component is modelled

Each protocol has two files.

The run file (`ReceiveRun`, `SendRun`, `SplitRun`, `CoopExitRun`, `DepositRun`)
holds a pure transition system: `State` is the tables together with what the
outside world has been told or has done, an `Action` is one database commit or
one outside call, `Enabled` says when the code can take it, and `Apply` what it
does. `Legal(run)` is any interleaving of such actions and `After(run)` the state
it reaches. A restart is an action of its own only where something is lost with
the process, the workers in `SendRun` and the running requests in `ReceiveRun`;
elsewhere a run may stop anywhere and anybody may continue it. The theorems are about all
legal runs and all reachable states.

The service file (`Receives`, `Sends`, `SplitStore`, `CoopExit`, `Deposits`)
holds a class with the tables as fields and the procedures of the source as
methods over them, in the source's order, with its branches and its error
replies. A method that commits or calls out may return `Crashed` before or after
the effect, and `:-` leaves a procedure at an error or a crash as `?` does. The
ghost field `run` records the actions taken. `Valid` says that this run is legal
and reaches exactly the current fields, so every theorem about runs holds of
whatever the methods do.

What the outside answers is a parameter of each procedure (`Replies` and its
kin), and the contract says for every answer what comes of it: the row that is
stored, the result, and the commits and calls that were made for it. Where other
tasks run in between, those are the procedure's own steps (`Mine`), in order,
without theirs. Three things stay open in a contract: what the other tasks do, a
stop of the process, which a method may meet at any commit, and the message of an
error that no caller tells from others.

`SplitPlanner`, `SplitFloor`, `Denominations`, `Liquidity`, `ExitTransfer`,
`ExitAmounts` and `Rescan` hold the algorithms: planners, repair loops, the
transfer validator, withdrawal arithmetic and the windowed block scan. `Basics` and `Amounts` hold
shared shapes and facts about sums and multisets.

### Lightning receives

External HTLCs and payers of the same service compete for one invoice under one
lock. In `ReceiveRun` a step is enabled by what its procedure read under that lock,
and `Receives` shows that each procedure meets those conditions although tasks
without the lock insert requests and mark invoices as issued between any two of
its steps (`Others`).

One of those unlocked writes matters. The request that issues an invoice stores
it and then writes `INVOICE_CREATED` in a second commit
(`src/graphql.rs:243-260`), without the lock and without a condition. If the
receive has completed or was closed in between, that write takes its status back,
and it is the only step that can. No other request ever makes it: a second one
for the hash is refused. The field `live` holds the requests that are still
running; one leaves it by its write, when its connection is closed, or when the
process restarts. `CompletionIsFinalIff` and `ClosingIsFinalIff` speak about
runs: such a status is final if and only if the request that issued the invoice
is no longer running. `CompletionCanBeUndone` and `ClosingCanBeUndone` are runs in
which it was. A completed receive that is reopened loses nothing, because its
stored checkpoint keeps every later step from paying again. A closed one has no
checkpoint: in the second run the service has failed the HTLC already, binds it
again and pays the receiver. Once the request is gone neither can happen
(`ClosingIsFinal`).

An HTLC whose invoice was paid out is not failed by this service, once the
operators' answer is stored, unless LDK reported it as failed before
(`PaidOutHtlcIsKept`). The decision to fail one is made under the lock from what
was read, and the field `failing` keeps it apart from the calls that carry it
out. A receive reads as HTLC_FAILED only when LDK has given its HTLC up
(`FailedHtlcWasReleased`).

The answer can be lost. Then the receiver is paid, the row reads
TRANSFER_CREATION_FAILED without a transfer, and the HTLC is held; the next attempt
finds the transfer and goes on. But the sweep of expired invoices looks at the
stored transfer only (`src/ldk.rs:1236-1265`), so if it comes first it fails the
HTLC of an invoice that was paid. `PaidHtlcMayFailIff` says exactly when that is
possible, over all runs: as long as the answer is not stored, and after closing.
`LostReplyLosesTheHtlc` is a run in which it happens.

### Lightning sends

Sends take no lock. `SendRun` therefore has concurrent workers as part of the
state, each at a point of its procedure and each holding the row or the payment
it once read, which may be out of date. A restart drops all of them. LDK's
payments and the operators' transfers survive. `Sends` gives the procedures of
one worker while every other one runs between its steps.

### Leaf splitting

The just-in-time planner finds a plan whenever some prefix of the leaves in
descending order leaves room for both children, hence always when the floor for
children is one satoshi and no exact subset exists. `PlannerFindsEverySplitIff`
gives the boundary: with a positive floor it finds a plan for every wallet that
has a split and no exact subset if and only if the floor is one, or more than half
of the largest amount, where no leaf can be split. For every floor between there
is a wallet that has a split and gets no plan.

The denomination planner splits a leaf only for the first amount without a leaf
of its own, and only one that is larger than that amount. At a floor of one satoshi
any splits at all can serve a list of amounts if and only if the wallet holds
their sum, with one split per amount (`RepairableIff`). The repair therefore
reports a shortage although splits help exactly when the wallet holds the sum and
either an amount is zero or no spare leaf reaches the first unmatched amount
(`MissedRepairIff`). Two leaves of 4 for the amounts 5 and 3 are such a wallet,
because splitting one of them into 1 and 3 pays both; `RepairCanBeMissed` has one
for every floor.

The persisted split behind it keeps one operation per parent and its first keys.
The key store accepts more than that needs: other keys for a split whose children
are bound already, and bindings over children that have a key. Putting keys loses
nothing; a binding can. `HeldIffCareful` gives the condition, `PutThenBindHoldsIff`
the case of a second put, and `KeyCanBeLost` a run after which the first key is
stored nowhere. The SDK, which stores keys before the children exist and binds new
children, stays within the condition (`DisciplinedRunsAreCareful`).

### Withdrawals and deposits

A withdrawal reserves its payout coin, its connector funding and its change from
the request until the Spark leaves are recovered or the unsigned request expires.
Its status is not monotone: after a failed confirmation lookup a confirmed
withdrawal is broadcast again and reads as broadcast. That is the only way back
(`StatusFallsIff`), and `StatusCanFallBack` is a run that takes it. Nothing else
below depends on it.

Instant deposits advance credit within a fixed limit and freeze the recovery plan
before the first signature. Confirmed deposits share the exclusion of outputs with
them. A recovery may spend another output than the quoted one, when the deposit
was replaced; the tables do not constrain that output, but it pays the claim's
address and value and was unspent. The plans of two instant claims therefore never
name one output (`RecoveriesAreApart`). A plan can name the output of a confirmed
claim in one case: the indexes and triggers let an instant claim in beside a
SUCCEEDED confirmed claim of the same address and value, and if that claim's
recovery was broadcast but is not mined, the rescan may find its output. A claim
that waits for its deposit is safe from that if and only if there is no such
confirmed claim (`RecoversOwnOutputIff`); `RecoveryCanBeShared` is a run in which
there is one.

### Assumptions about the outside

- The operators keep one transfer per transfer id and report only transfers that
  they hold. The transfer id of a receive is a function of its payment hash.
- LDK stores a BOLT11 payment under its hash and rejects a second one, reports
  one final outcome per payment, and one claimable amount and one invoice hash per
  payment id, answers lookups truthfully when it answers, and pays only what this
  service submits.
- The Bitcoin node reports no output as unspent whose spending recovery was stored
  as confirmed, and what an output pays never changes. An address stands for its
  script.
- The secret keys of one split are distinct.
- The split operation id is derived from the parent alone.
- `select_leaves_by_exact_amounts` returns an exact selection when one exists.
- Storage fails only by stopping between two commits.
- Hashes, signatures and identifiers are numbers; a digest is any function.

## Model

| member | source | states |
|---|---|---|
| ReceiveRun.EveryRunKeepsInv | src/ldk.rs:582-775 | in every reachable state of claimable events, local payments, sweeps, retries and restarts: rows, reservations, payouts, claims and sends agree as below |
| ReceiveRun.EveryRunEvolves | src/ldk.rs:603-697 | whatever follows, a bound payment id, a stored checkpoint, a reservation, a payout and a finished send never change |
| ReceiveRun.ReservedIsNeverClaimed | src/internal_payments.rs:22-36 | an invoice once reserved by a local payer never has a claimed HTLC, then or later |
| ReceiveRun.FailedSendPaidNobody | src/ldk.rs:738-743 | a local payment that ended FAILED never owned the invoice and settled nothing; if that invoice was paid out, an exact HTLC was bound to it |
| ReceiveRun.ClaimsCollectThePayout | src/ldk.rs:639-697 | every HTLC claim has a durable transfer and preimage of its hash, is for the bound payment, and collects exactly 1000 msat per sat paid out |
| ReceiveRun.OnePayoutPerInvoice | src/spark.rs:1007-1162 | at most one payout per payment hash, of the invoice amount to its receiver, and only with an exact bound HTLC or a verified sender |
| ReceiveRun.NoCallAfterCheckpoint | src/ldk.rs:639-681 | once the checkpoint exists no later step calls the operators for that hash, and the stored answer stays |
| ReceiveRun.BindingIsForever | src/db.rs:542-573 | the first bound payment id stays bound and every later claim is for it |
| ReceiveRun.SucceededSendWasSettled | src/internal_payments.rs:37-51 | a SUCCEEDED local payment owned the invoice, had its funding collected with a preimage of the hash, and the invoice was paid out |
| ReceiveRun.CompletionIsFinalIff | src/graphql.rs:243-260 | over all runs: a completed receive stays completed whatever follows if and only if the request that issued its invoice is no longer running |
| ReceiveRun.CompletionCanBeUndone | src/graphql.rs:257-260 | a run in which it still was: completed, then INVOICE_CREATED again |
| ReceiveRun.ClosingIsFinalIff | src/graphql.rs:243-260 | over all runs: a receive closed without a payout stays closed whatever follows if and only if that request is no longer running |
| ReceiveRun.ClosingIsFinal | src/ldk.rs:607-619 | once it is not, the row of a closed receive never changes and no later step binds an HTLC to it or asks the operators to pay it |
| ReceiveRun.ClosingCanBeUndone | src/graphql.rs:257-260 | a run in which it still was: the HTLC is failed, the receive closed, reopened, bound again and paid out |
| ReceiveRun.PaidOutHtlcIsKept | src/ldk.rs:597-619 | when LDK is asked to fail the HTLC bound to an invoice whose answer is stored, LDK had reported that HTLC as failed before |
| ReceiveRun.FailedHtlcWasReleased | src/ldk.rs:561-577 | in every reachable state a receive that reads HTLC_FAILED with an HTLC bound has LDK's confirmation that it failed that HTLC, or LDK's own report of it; and a marked claim was accepted |
| ReceiveRun.PaidHtlcMayFailIff | src/ldk.rs:639-665 | over all runs: the HTLC that an invoice was paid out for can be given back next if and only if the answer to the payout is not stored or the invoice is closed |
| ReceiveRun.LostReplyLosesTheHtlc | src/ldk.rs:1236-1265 | a run in which it is, for every invoice and exact HTLC: paid out, every reply lost, failed by the expiry sweep, never claimed |
| ReceiveRun.DecisionIsSafe | src/ldk.rs:632-637 | the service's reasons to fail an HTLC never hold of the bound HTLC of a paid-out invoice, save after that report |
| ReceiveRun.CompletionIsFinal | src/ldk.rs:1057-1097 | once that request has written its status or was lost with its connection or a restart, TRANSFER_COMPLETED is absorbing over any further run |
| Receives.ValidateReceiveSwap | src/spark.rs:1767-1798 | a swap is accepted if and only if id, sender, receiver, type and value are exactly those of the invoice and the preimage hashes to it |
| Receives.ReceiveService.SwapForLightningReceive | src/spark.rs:1007-1162 | the transfer that the operators report, if it is this invoice's, is the answer; without one the wallet must be able to pay and one call is made; an error is that of the first of these to fail, and at most this invoice's one transfer is committed |
| Receives.ReceiveService.SwapReceive | src/ldk.rs:639-665 | the first of five attempts that is answered ends them with its answer, and without one the error is that of the fifth; the calls made are exactly those of these attempts, and commit one transfer at most |
| Receives.ReceiveService.FailReceive | src/ldk.rs:518-535 | this payment id and no other is failed, in five calls at most, and success means exactly that one of them was confirmed; no row is touched |
| Receives.ReceiveService.MarkReceiveClaimable | src/db.rs:542-573 | binds id and amount, and refuses exactly another bound id or an amount of 2^63 msat and more; a stored transfer keeps its status |
| Receives.ReceiveService.CommitLightningReceiveSwap | src/db.rs:576-610 | transfer id and preimage become durable together |
| Receives.ReceiveService.MarkReceiveClaimSubmitted | src/db.rs:612-629 | a claim is marked only on a row with a checkpoint |
| Receives.ReceiveService.FailUnfundedReceive | src/ldk.rs:561-577 | the HTLC's id is failed first, and the row is closed exactly when LDK confirmed it |
| Receives.ReceiveService.FundReceive | src/ldk.rs:639-681 | success stores the preimage that the first answered attempt brought; an error is that of the fifth attempt; a definite shortage is the one error after which LDK is asked to fail the HTLC, and after every other one it is held and the row reads TRANSFER_CREATION_FAILED |
| Receives.ReceiveService.ClaimFunded | src/ldk.rs:683-697 | the one claim of the bound HTLC, in five calls at most, and marked exactly when LDK accepted it |
| Receives.ReceiveService.SettleHtlc | src/ldk.rs:623-697 | for every row and every answer exactly these steps: bind; give back a wrong amount, or pay unless the answer is stored and claim unless that is marked; success means bound, paid and claimed, and a wrong amount pays and claims nothing |
| Receives.ReceiveService.ProcessStandardReceive | src/ldk.rs:582-698 | for every state, HTLC and answer the steps taken and the result are those of the source's order of decisions; a reserved, foreign or closed invoice is left untouched, nothing is asked of the operators with a checkpoint, and one claim for the whole amount is made at most |
| Receives.ReceiveService.FinishReceivedPayment | src/ldk.rs:1057-1097 | completes exactly the receives with a checkpoint whose bound id agrees; another id is an error that changes nothing |
| Receives.ReceiveService.FailExternalReceive | src/db.rs:868-878 | closes the row exactly when it is not completed, not reserved and not bound to another payment |
| Receives.ReceiveService.ExpireReceive | src/ldk.rs:1236-1265 | after the recheck closes an unpaid, unreserved, open receive and no other, and one with an HTLC only once LDK confirmed that it failed it |
| Receives.ReceiveService.ExpirySweep | src/ldk.rs:1228-1266 | for any stale list: closes only listed receives and none that is reserved or has a transfer; every listed one that was still open is closed, or its HTLC was asked to be failed |
| Receives.ReceiveService.ReserveInternalSend | src/internal_payments.rs:22-36 | the reservation is granted to its owner again, or to the first payer of a fresh, matching invoice whose expiry lies after now, and refused otherwise |
| Receives.ReceiveService.FinishInternalSend | src/internal_payments.rs:37-51 | send and receive complete in one commit |
| Receives.ReceiveService.SettleSender | src/ldk.rs:719-722 | the funding is collected with the stored preimage; success means collected |
| Receives.ReceiveService.ProcessInternalSend | src/ldk.rs:725-775 | for every answer exactly these steps: refused and FAILED without the reservation; with it the sender is checked, the receiver paid by one attempt, the answer stored, the funding collected and the payment SUCCEEDED, in this order up to the first error; finished sends are not touched |
| Receives.ReceiveService.PayReserved | src/ldk.rs:744-774 | a payment that owns its invoice never fails, only completes or stays |
| Receives.ReceiveService.FundLocally | src/ldk.rs:750-770 | the receiver is paid only after the sender's funding was verified, and the answer is stored |
| SendRun.EveryRunKeepsInv | src/ldk.rs:863-1003 | in every reachable state of interleaved workers, stale reads, lost replies and restarts: intents, LDK payments, collections and refunds agree as below |
| SendRun.EveryRunEvolves | src/db.rs:899-911 | whatever follows, a bound payment id never changes and SUCCEEDED and FAILED are final |
| SendRun.OneSubmissionOnePayment | src/ldk.rs:173-241 | an offer is submitted at most once and an intent never has two LDK payments |
| SendRun.ResubmitFollowsEmptyLookup | src/ldk.rs:191-216 | a worker that is about to submit an invoice again made a lookup before at which LDK had no payment of it |
| SendRun.SucceededWasCollected | src/ldk.rs:935-979 | SUCCEEDED for an invoice means its funding was collected with a preimage of its hash; and it was not refunded |
| SendRun.FailedWasGivenBack | src/ldk.rs:981-1003 | FAILED for an offer means exactly one refund of the whole amount to its owner; and its funding was not collected |
| SendRun.NeverBothWays | src/spark.rs:894-956 | no funding is both collected and refunded |
| SendRun.NewPaymentSound | src/ldk.rs:218-241 | a payment that LDK stores belongs to an intent that had none |
| SendRun.LookupKnows | src/ldk.rs:130-171 | a payment that passes validation against a possibly stale row is that intent's own |
| SendRun.LookupSeesInvoice | src/ldk.rs:82-103 | a stored payment of the invoice always passes validation, so an empty answer means that there is none |
| SendRun.StepKeepsOneSubmitter | src/lightning_store.rs:351-361 | however callers interleave, at most one worker ever stands at the first submission of an intent |
| Sends.SendService.PrepareLightningSend | src/lightning_store.rs:234-302 | an intent is stored if and only if its id, its funding and, for an invoice, its hash are new |
| Sends.SendService.BeginLightningSubmission | src/lightning_store.rs:351-361 | exactly one caller moves PREPARED to SUBMITTING, and only that one wins |
| Sends.SendService.BindLightningPayment | src/lightning_store.rs:363-381 | binds an unbound intent, which becomes PENDING unless it is past that, or confirms the same id; another id is rejected and changes nothing |
| Sends.SendService.LookupPayment | src/ldk.rs:82-128 | finds a payment that validates, or nothing when none does, and decides on resubmission from that alone |
| Sends.SendService.Submit | src/ldk.rs:44-76 | one submission; success is LDK's answer, and only a lost reply, a refusal or an id that LDK cannot have stored is an error; the payment may be stored without a reply |
| Sends.SendService.SubmitDurableSend | src/ldk.rs:218-241 | the caller that finds PREPARED submits exactly once, and success with an answer means that the answered id is bound; every other caller submits nothing |
| Sends.SendService.RetryMissingBolt11 | src/ldk.rs:191-216 | one submission more, exactly: an answered id is bound, and after an error one lookup decides; success means that a payment is bound, or that this lookup found none |
| Sends.SendService.RecoverSubmission | src/ldk.rs:173-185 | a found payment is bound; nothing found comes with a recorded empty lookup |
| Sends.SendService.RecoverSend | src/ldk.rs:905-933 | PREPARED is submitted exactly once, as above; past the checkpoint there is one lookup, whose payment is bound and observed, and only an unbound invoice that LDK does not have is submitted again, once |
| Sends.SendService.CollectFunding | src/spark.rs:918-956 | success means that the proof fits and the operators confirmed, and for an invoice that its funding is collected with a matching preimage |
| Sends.SendService.SettleSucceededPayment | src/ldk.rs:935-979 | success means that the bound intent is SUCCEEDED and an invoice's funding collected, whatever the others did meanwhile; and it comes exactly when the row accepts payment and proof and the operators confirm |
| Sends.SendService.RefundBolt12Send | src/spark.rs:894-916 | success is the operators' confirmation; a second refund of the same funding changes nothing |
| Sends.SendService.FailManagedPayment | src/ldk.rs:981-1003 | success means that the bound intent is FAILED and an offer's funding back with its owner; it fails only with an offer's refund |
| Sends.SendService.ObservePayment | src/ldk.rs:1410-1458 | a paid payment is settled, or marked SETTLING when that fails; a failed one is given up; an open or settled one is left alone |
| SplitPlanner.SelectExisting | src/spark.rs:1844-1855 | the selection loop is the greedy selection under its cap |
| SplitPlanner.GreedyMaximal | src/spark.rs:1844-1855 | no leaf left out would still fit |
| SplitPlanner.GreedyPartitions | src/spark.rs:1836-1855 | selected and left-out leaves are together the candidates, each once |
| SplitPlanner.PlanJustInTimeSplit | src/spark.rs:1825-1887 | a plan is returned if and only if some parent has one, and it has the least change, then the fewest leaves, then the least parent |
| SplitPlanner.CandidateAdmissible | src/spark.rs:1835-1869 | the parent is not selected, selected plus needed is the target, needed plus change is the parent, both children meet the floor |
| SplitPlanner.SelectionMaximal | src/spark.rs:1844-1863 | any further leaf would leave less than the floor to split off |
| SplitPlanner.SplitPaysTarget | src/spark.rs:1275-1302 | after an admissible split some leaves sum exactly to the target, so one split is enough |
| SplitPlanner.SplitKeepsTotal | src/spark.rs:1330-1375 | a split keeps the total value |
| SplitPlanner.PlannerFindsPrefixSplit | src/spark.rs:1825-1887 | a plan exists whenever a descending prefix ends one floor below and one floor above the target |
| SplitPlanner.PlannerCompleteAtFloorOne | src/spark.rs:1825-1887 | at floor one an exact subset or a plan exists if and only if the total covers the target |
| SplitPlanner.PlanNeedsRoom | src/spark.rs:1825-1887 | a plan always leaves the floor as change: the total covers target plus floor |
| Denominations.MatchedIff | src/spark.rs:1897-1909 | the matched length is at least k if and only if the leaves contain the first k denominations |
| Denominations.MatchDenominations | src/spark.rs:1897-1909 | the loop takes the longest covered prefix, names the first missing denomination and leaves the rest |
| Denominations.PlanDenominationSplit | src/spark.rs:1889-1921 | a plan exists if and only if a spare leaf covers the missing denomination and the floor, and it uses the smallest such leaf |
| Denominations.SplitLengthensMatch | src/spark.rs:1889-1921 | such a split strictly lengthens the matched prefix |
| Liquidity.SelectableIff | src/spark.rs:1289-1291 | selection by exact amounts succeeds if and only if the leaves can pay all amounts |
| Liquidity.Wallet.EnsureExactLiquidity | src/spark.rs:1275-1302 | without a split when a subset is exact, else by the one split that the planner prefers among the leaves sorted by value and id, after which a subset is exact; a shortage if and only if no subset and no plan exists, at floor one if and only if the total is short; every other error is that of the split |
| Liquidity.Wallet.EnsureDenominatedLiquidity | src/spark.rs:1304-1328 | payable amounts need no split; every split is the smallest one for the first unmatched amount and lengthens the match, so there is at most one per amount and never more than 32; a list of at most 31 amounts never reaches the pass limit; a shortage means that the amounts cannot be paid and no split of the planner's kind exists, and at floor one that other splits would help if and only if the wallet holds the sum |
| Liquidity.RepairableIff | src/spark.rs:1304-1328 | at floor one some splits make a list of amounts payable if and only if the wallet holds the sum, and then one split per amount is enough |
| Liquidity.MissedRepairIff | src/spark.rs:1889-1921 | at floor one the planner has no split for unpayable amounts that splits can serve if and only if the wallet holds the sum and an amount is zero or every spare leaf is smaller than the first unmatched amount |
| Liquidity.RepairCanBeMissed | src/spark.rs:1889-1921 | at every floor f, two leaves of v >= 2f and the amounts v + f and v - f: not payable, no planned split, and one split that pays both |
| Liquidity.LiquidityAtFloorOne | src/spark.rs:1275-1302 | at floor one a wallet can pay exactly, at once or by one split, if and only if it holds enough |
| SplitFloor.PlannerFindsEverySplitIff | src/spark.rs:1825-1887 | with a positive floor the planner finds a plan for every wallet that has a split and no exact subset if and only if the floor is one or no leaf can be split |
| SplitFloor.SmallFloorHidesASplit | src/spark.rs:1844-1863 | for every floor from two on, a wallet of two large and two small leaves whose split the planner misses |
| SplitFloor.LargeFloorHidesASplit | src/spark.rs:1844-1863 | for every floor from five up to half of the largest amount, a wallet with one large leaf whose split the planner misses |
| SplitRun.EveryRunKeepsInv | src/db.rs:934-1063 | in every reachable state, whatever the key store is asked: one split per parent, child ids on every completed split, one submitted plan per split, and a child without its key was retired |
| SplitRun.EveryRunEvolves | src/db.rs:992-1182 | whatever follows, the identity of a split is fixed, its status never falls, its first keys are the first, and it never loses its children |
| SplitRun.CarefulRunsHold | src/db.rs:1272-1387 | in every run whose bindings were careful, all first keys wait whole or are held at their children until retired |
| SplitRun.HeldIffCareful | src/db.rs:1311-1387 | a step keeps all first keys in custody if and only if it is no binding of other keys, of a repeated child, or over a child of another split |
| SplitRun.BoundInOrderIffDistinct | src/db.rs:1360-1368 | distinct keys reach their own children if and only if the child ids are distinct |
| SplitRun.PutThenBindHoldsIff | src/db.rs:1274-1387 | after a second put and its binding to new children the first keys are held if and only if the put repeated them |
| SplitRun.KeyCanBeLost | src/db.rs:1274-1387 | a run that the key store accepts and after which the first key is stored nowhere |
| SplitRun.DisciplinedRunsAreCareful | src/db.rs:1272-1273 | keys stored only before the children exist, and bound only to new children, are never lost |
| SplitRun.ChildrenAreChosenOnce | src/db.rs:1311-1387 | used like that, the child ids of a split never change |
| SplitRun.StepKeepsOnePlan | src/spark.rs:1406-1420 | the plan that was submitted is the plan of every later submission |
| SplitStore.SplitService.GetOrInsert | src/db.rs:934-965 | inserts a draft only for a parent without a split and answers with the stored one |
| SplitStore.SplitService.SavePrepared | src/db.rs:1016-1037 | replaces the plan of drafts and prepared splits, and refuses exactly the others |
| SplitStore.SplitService.MarkSubmitting | src/db.rs:992-1014 | moves PREPARED on, accepts later statuses unchanged, refuses exactly a draft |
| SplitStore.SplitService.SaveSubmitted | src/db.rs:1042-1063 | stores the response on submitting or submitted splits, and refuses exactly the others |
| SplitStore.SplitService.MarkCompleted | src/db.rs:1165-1182 | completes exactly the submitted splits with child ids |
| SplitStore.SplitService.PutPendingKeys | src/db.rs:1274-1309 | accepts a first put and the same put again, at any time, and refuses other keys while some wait |
| SplitStore.SplitService.BindPendingKeys | src/db.rs:1311-1387 | binds the waiting keys in one commit, each to the child at its position if those differ; with none waiting the same ids change nothing and others are refused |
| SplitStore.SplitService.RetireLeafKeys | src/db.rs:1222-1235 | removes exactly the listed overrides in one commit |
| SplitStore.SplitService.SubmitStage | src/spark.rs:1406-1420 | submits the stored plan and no other, exactly once, and stores the response if and only if one came and the children bind |
| SplitStore.SplitService.ResumeLeafSplit | src/spark.rs:1377-1452 | takes exactly the stages that are left, the plan submitted being the stored or the newly prepared one; success if and only if they all go through, and then completed with a child per value; nothing is submitted after SUBMITTED |
| SplitStore.SplitService.ExecuteLeafSplit | src/spark.rs:1330-1375 | success if and only if the parent's stored split, or the drafted one, has these values and all its stages go through; a split stored for other values is an error that does nothing |
| SplitStore.CarriedIff | src/spark.rs:1377-1452 | from any stored stage a split can be completed if and only if its parent is there while it is a draft, each stage it has not passed is answered, the children bind, and there is one per value |
| ExitTransfer.ValidateTransfer | src/spark.rs:1652-1729 | accepts exactly the transfers for which leaves, transferred leaves and connector outputs match one to one |
| ExitTransfer.PermutationCovers | src/spark.rs:1674-1727 | distinct outputs below n are all outputs below n |
| ExitTransfer.AcceptedSpendsEveryOutput | src/spark.rs:1674-1727 | an accepted transfer spends connector output k by exactly one leaf if and only if k is below the number of leaves |
| ExitTransfer.AcceptedLeavesCorrespond | src/spark.rs:1674-1727 | every record leaf has its transferred leaf of equal value, and every transferred leaf its record leaf |
| ExitAmounts.TotalValue | src/coop_exit.rs:91-97 | the sum, or an error exactly when it exceeds 21 million bitcoin |
| ExitAmounts.WithdrawalAmount | src/coop_exit.rs:842-878 | leaves, fee leaves included, equal payout plus both fees in both modes; and exactly when a request is accepted |
| ExitAmounts.SelectCoin | src/coop_exit.rs:424-453 | the smallest unreserved coin that is large enough, if any |
| ExitAmounts.BuildExit | src/coop_exit.rs:418-483 | coin equals payout, connector funding, change and miner fee; change is at least 330; the connector outputs sum to their funding |
| ExitAmounts.CpfpTransaction | src/coop_exit.rs:801-840 | child plus fee is the change, the fee suffices for package and child and is the least that does; and exactly when a bump is possible |
| CoopExitRun.EveryRunKeepsInv | src/coop_exit.rs:997-1041 | in every reachable state a pending withdrawal owns exactly its three outpoints, a finished one none, owners have one pending withdrawal, an expired one has no signature, and value is conserved |
| CoopExitRun.EveryRunEvolves | src/coop_exit.rs:1018-1041 | records are never lost, signatures never replaced, finished records frozen, fee bumps stored once |
| CoopExitRun.BroadcastsSendTheStoredBytes | src/coop_exit.rs:680-748 | every broadcast sends bytes stored before it, and they are the bytes stored at the end |
| CoopExitRun.CoinsAreFreedSafely | src/coop_exit.rs:750-784 | a withdrawal gives up a coin only by expiring unsigned and unsent, or confirmed and claimed |
| CoopExitRun.ReusedCoinsAreSafe | src/coop_exit.rs:750-784 | of two withdrawals that ever reserved one coin, the earlier was never sent or it confirmed and was claimed |
| CoopExitRun.SignedExitsAreFunded | src/coop_exit.rs:680-715 | a signed withdrawal has a checked transfer worth payout plus fees that spends every connector output but the last |
| CoopExitRun.StatusFallsIff | src/coop_exit.rs:716-755 | an update takes the status back if and only if a confirmed withdrawal is stored as broadcast |
| CoopExitRun.StatusCanFallBack | src/coop_exit.rs:716-755 | a run that does so: confirmed, then broadcast again |
| CoopExit.CoopExitService.InsertCoopExit | src/coop_exit.rs:997-1016 | record and three reservations in one commit, refused exactly on a conflict |
| CoopExit.CoopExitService.UpdateCoopExit | src/coop_exit.rs:1018-1041 | record and release in one commit |
| CoopExit.CoopExitService.EnsureSigned | src/coop_exit.rs:680-715 | signs if and only if the transfer is accepted and the wallet's signature is for this transaction; a stored signature is kept |
| CoopExit.CoopExitService.Rebroadcast | src/coop_exit.rs:724-748 | sends the stored transaction again, then stores that, then sends a stored bump; success exactly when both are accepted |
| CoopExit.CoopExitService.Settle | src/coop_exit.rs:750-755 | confirmed, claimed and SUCCEEDED in this order, and SUCCEEDED exactly when the claim was accepted |
| CoopExit.CoopExitService.Advance | src/coop_exit.rs:680-756 | the record becomes exactly what this visit's answers make of it: left alone when it ended, unsigned without a checked transfer, broadcast without a confirmation, settled with one; success with a confirmation means claimed in this visit, and success without one that the stored bytes were sent in it |
| CoopExit.SettledIff | src/coop_exit.rs:715-755 | a visit ends a withdrawal well if and only if it is or can be signed, has a confirmation and its claim is accepted |
| CoopExit.ExpiredIff | src/coop_exit.rs:764-791 | a visit of the worker expires a withdrawal if and only if it is unsigned, overdue and the operators say that its transfer does not exist |
| CoopExit.CoopExitService.ExpireOrAdvance | src/coop_exit.rs:764-791 | the record becomes exactly what the lookup and the visit make of it; expires only an unsigned, overdue withdrawal without a transfer |
| CoopExit.CoopExitService.RunOnce | src/coop_exit.rs:758-798 | one pass visits every withdrawal with its own answers and makes of each exactly what a visit does |
| CoopExit.CoopExitService.Complete | src/coop_exit.rs:508-530 | success means the owner's own withdrawal of this transfer, not expired, carried one visit on; an error has one of the causes a visit has, or no such withdrawal exists |
| CoopExit.CoopExitService.Request | src/coop_exit.rs:350-506 | a replay is answered with the first record, or refused for another fingerprint; a new record has the quote's user and miner fee, address and leaves, an expiry of 300 seconds, the given transfer and key, and the smallest free coin, conserving its value; and a request that nothing stands against is granted |
| CoopExit.CoopExitService.PlanExit | src/coop_exit.rs:386-500 | the record of a withdrawal exists whenever the quote holds, the leaves pay it and a free coin covers payout, miner fee, connectors and change |
| CoopExit.CoopExitService.BumpFee | src/coop_exit.rs:558-678 | at most one bump per withdrawal, of the least sufficient fee, within the maximum and without a confirmation, and a replay reports the same fee; and it is refused only when it is not affordable, not possible or not accepted |
| DepositRun.CheckExposure | src/instant_deposits.rs:89-106 | accepts exactly what keeps both limits, without overflow |
| DepositRun.EveryRunKeepsInv | src/instant_deposits.rs:259-465 | in every reachable state unconfirmed credit is within the limit, each claim within the cap, outputs, owners and pending address and value pairs are exclusive across both tables |
| DepositRun.StepKeepsBounded | src/instant_deposits.rs:361-372 | every step keeps the outstanding credit within the limit |
| DepositRun.ExposureIsBounded | src/instant_deposits.rs:89-106 | in every reachable state the credit advanced on deposits whose recovery the node has not reported three blocks deep is within the limit |
| DepositRun.RecoveryIsStored | src/instant_deposits.rs:438-464 | every recovery that was ever sent is the one that is stored, and a claim that reads as confirmed was reported three blocks deep |
| DepositRun.StepKeepsExclusive | src/instant_deposits.rs:36-44 | every step of either table keeps the exclusion that indexes and triggers set up |
| DepositRun.RunEvolves | src/instant_deposits.rs:390-465 | phases never go back, the plan is frozen from RECOVERY_PREPARED on, a stored signature stays |
| DepositRun.ReserveCallsAgree | src/instant_deposits.rs:394-400 | every reserve call of a claim carries its one transfer id and is made while the stored phase is CREATED |
| DepositRun.SigningPlanIsFrozen | src/instant_deposits.rs:401-437 | every later signature is asked for with the plan stored at RECOVERY_PREPARED |
| DepositRun.OnePlanPerClaim | src/instant_deposits.rs:405-437 | the operators never see two plans for one claim |
| DepositRun.RecoveriesAreApart | src/instant_deposits.rs:401-428 | in every reachable state, replaced deposits or not: the plans of two instant claims name different outputs, and a plan names the output of a confirmed claim only when that has SUCCEEDED |
| DepositRun.RecoversOwnOutputIff | src/instant_deposits.rs:36-44 | a claim that waits for its deposit can be given no output of a confirmed claim if and only if no SUCCEEDED one of the same address and value has a recovery that is broadcast and an output that is still unspent |
| DepositRun.RecoveryCanBeShared | src/instant_deposits.rs:42-44 | a run in which there is one: the frozen plan of the instant claim spends the output of the SUCCEEDED claim |
| DepositRun.StepKeepsOneRecovery | src/instant_deposits.rs:467-541 | every step, a replacement included, keeps the plans apart |
| Deposits.StaticDepositService.InsertInstantClaim | src/instant_deposits.rs:361-372 | the row is refused exactly when a constraint or a limit fails in the write transaction |
| Deposits.StaticDepositService.ConfirmedInstantOutpoint | src/instant_deposits.rs:467-541 | the output is the quoted one, confirmed, or an unspent one of the same script and value in the window, and in both cases pays the claim's address and value with no confirmed recovery; none in the window moves the cursor behind it |
| Deposits.StaticDepositService.ScanPass | src/instant_deposits.rs:486-533 | one pass reads exactly the window of the stored cursor and the tip |
| Deposits.StaticDepositService.ReserveAndPrepare | src/instant_deposits.rs:394-428 | true means that the plan is frozen, on a confirmed output; a frozen claim is left as it is |
| Deposits.StaticDepositService.EnsureRecoverySigned | src/instant_deposits.rs:429-437 | signed exactly when a signature is stored or the operators give one; a stored signature makes no call |
| Deposits.StaticDepositService.BroadcastRecovery | src/instant_deposits.rs:438-464 | confirmed exactly at three confirmations or more, broadcast below; below one success means that the stored signature was sent in this call |
| Deposits.ConfirmedIff | src/instant_deposits.rs:438-464 | a visit stores SPEND_TX_CONFIRMED for a pending claim if and only if it is or can be signed and the node reports at least three confirmations |
| Deposits.FixedConfirmedIff | src/static_deposits.rs:328-365 | the same for a confirmed deposit at one confirmation |
| Deposits.StaticDepositService.AdvanceInstant | src/instant_deposits.rs:390-465 | only this claim moves, forward, to exactly the phase that this visit's answers lead to; a confirmed one does nothing |
| Deposits.StaticDepositService.InstantClaim | src/instant_deposits.rs:263-376 | a replay carries the owner's stored claim of this quote on; a new one is granted if and only if the quote is live, the wallet authorized it, the coin is as quoted, the limits have room and no other claim is in the way; it carries the quote's values and looks for the deposit from six blocks below the quote's height |
| Deposits.StaticDepositService.InsertFixedClaim | src/static_deposits.rs:314-320 | the row is refused exactly when its output is claimed or reserved |
| Deposits.StaticDepositService.Advance | src/static_deposits.rs:324-365 | signed once, sent in this call unless a block holds it, and SUCCEEDED; confirmed exactly at one confirmation; a stored signature is never asked for again |
| Deposits.StaticDepositService.Claim | src/static_deposits.rs:247-323 | a replay with the same signature carries the stored claim on, another signature is refused; a new one is exactly the quoted, signed-for credit of a coin with three confirmations, with the wallet's authorization |
| Rescan.ScanWindow | src/instant_deposits.rs:486-541 | finds the first replacement in the window, or reports that no block of it has one |
| DepositRun.EveryHeightWasInspected | src/instant_deposits.rs:486-541 | in every reachable state each height from the quote's start up to the stored cursor lies in the window of some pass |
| DepositRun.CursorMoves | src/instant_deposits.rs:534-539 | storing the cursor after a pass leaves no height unread |
| Rescan.NoHeightIsSkipped | src/instant_deposits.rs:486-541 | however the tip moves between passes, every height up to the last cursor lies in the window of some pass |
| Rescan.PassSkipsNothing | src/instant_deposits.rs:494-538 | every height up to the new cursor was below the old one or inside the window |
| Rescan.PassAdvances | src/instant_deposits.rs:486-541 | a pass reaches the tip or moves the cursor on by 21 blocks |
| Rescan.ReorgIsReread | src/instant_deposits.rs:486-539 | after a pass that reached the tip the next one reads its last seven heights again, wherever the tip is by then |
| Rescan.EveryHeightIsReached | src/instant_deposits.rs:486-541 | with a fixed tip every height is inspected within (tip - cursor) / 21 passes more |

## Left out

- BOLT12 receives (`src/ldk.rs:1005-1047`, `src/db.rs:450-481`): one payout keyed by the invoice hash, without a race.
- The `transfers`, `requests` and `payments` tables: copies for the API. `finish_received_payment` falls back to the transfer row of the request, which for an invoice is written in the same commit as the checkpoint.
- Receives.ReceiveService.FinishInternalSend: has no error for missing rows, because the rows it counts exist in every reachable state.
- Receives.ReceiveService.ExpirySweep: takes its list as an argument, so the query for expired hashes is not modelled; the recheck under the lock is.
- Sends.SendService.RecoverSend: does not refresh the route's CLTV cap (`src/ldk.rs:885-903`), which can only stop a submission.
- Routing a send to a local invoice: an intent is either local (`Receives`) or external (`Sends`) from the start; the source decides by the stored invoice each time.
- Sends stored by releases before the intent table, with an empty expected id.
- `recover_incomplete_splits` before the liquidity loops, `complete_spark_split` and `update_spark_split_plan` (`src/db.rs:1067-1163`).
- Liquidity.Wallet.ExecuteLeafSplit: what a split that completed does to the wallet's leaves; its persisted stages are SplitStore.SplitService.ExecuteLeafSplit, and the two are not linked.
- SplitStore.SplitService.DraftSplit: the SDK's part of a split is a put, a bind and an opaque stage; what the stages contain is not modelled.
- Quotes, fee and feerate estimates, change addresses, dust limits and transaction sizes are parameters.
- Deposits.StaticDepositService.ConfirmedInstantOutpoint: block reads are one answer of the node per pass; a reorganisation during a pass, or one that takes back a recovery that was stored as confirmed, is not modelled.
- Liquidity.MissedRepairIff: the exact condition is for a floor of one satoshi; at a larger floor whether any splits help depends on how amounts and leaves can be packed, and only the need for the sum (RepairableIsCovered) and the missed wallets (RepairCanBeMissed) are shown.
- The worker loops around `AdvanceInstant`, `Advance` and `ReserveAndPrepare`, which call them for each pending row.
- Paging of LDK's payment list, event streams, retry delays and timeouts: each event is one call of a procedure above.
- The error text of a row (`last_error`), timestamps and log lines.
- Cryptography, transaction and message formats, HTTP, GraphQL, sessions and configuration.
