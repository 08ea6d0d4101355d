# The funding pipeline and the systems it drives, verified

This project models the part of the backend that turns a transfer on a chain into money on a
card, and the neighbouring parts that make the same kind of promise: exactly-once effect from
at-least-once delivery. The durable state is explicit (the intents table, an append-only ledger
with unique keys, a cursor per watched address, write-once routes, bridge orders, the issuer's
Safes), steps are as small as the commits and outside calls of the code, a worker may die
between any two of them, and any number of workers interleave.

`dafny verify dfyconfig.toml` checks everything.

## How it is laid out

| file | what it holds |
|---|---|
| `Basics` | optional values, minimum and maximum, sums over finite sets |
| `FundingStates`, `Ledger`, `Machine` | the transition table, the two tables the machine owns, `create_intent` and `advance` as values, and what every commit keeps |
| `FundingStore` | the same machine as the object that changes rows in place and rolls back |
| `Interleaving` | `advance` split at look-up, row lock, update, insert and commit or rollback, with crashes; every run is a run of whole hops |
| `Safe`, `SafeLaws`, `Simulator` | the mock issuer's Safe accounting: values, laws over every run, and the stateful object |
| `Bridge` | the simulated bridge, as values and as the object |
| `Engine`, `TopUpEngine`, `Healthy` | one step of the engine with outside faults, termination, the object driving store, bridge and issuer, and the run in which nothing is in the way |
| `Workers`, `Crediting`, `RetryCap` | many workers split at read, outside call and hop; one order and one funding per intent, money, retries |
| `Watcher`, `Intake`, `IntakeLaws` | reading a chain account, intake as a transition system, and what every step of it keeps |
| `ExactlyOnce`, `TwoAddresses`, `Overflow` | what became of every filing and so which entries are credited; a run that leaves one out; what an overfull page loses |
| `Deposits` | collecting deposits as loops over a page, proved to be a run of one intake worker |
| `Pipeline` | intake and engine over the same tables: every funded intent followed from base units to card |
| `Reconciler`, `FundingWorker` | the stuck-scanner's schedule, query and pass; one worker pass: poll, drive, reconcile |
| `Settlement` | settlement events |
| `Keys`, `Webhooks`, `Receiver` | claims in front of a durable key under concurrency, and the receiver's own sequence |
| `RetryQueue`, `Drainers`, `Copies` | dispatch, the due-time queue and dead letters; any number of drainers that list first and remove second; how often a handler runs when they may share an item, and when not |
| `OtpStore`, `OtpRaces`, `OtpService` | codes with a deadline and their index; the same split into single calls of racing, crashing callers; delivering and answering challenges |
| `Reveal` | single-use reveal tokens |

Each stateful object is a class whose methods are proved equal to a specification function;
the laws are proved of those functions and of transition systems built from them, and where the
code runs alone (`TopUpEngine.StepIsARun`, `Deposits.CollectIsARun`, `Receiver.ScriptRuns`,
`Drainers.DrainIsRuns`) its run is shown to be one run of the concurrent system.

## Where the code and its comments differ

The model follows the code. Each of these is a proved statement here.

- `retry_count` is never reset when a state changes, so retries are counted per intent, not per
  state, and a confirmed deposit finishes within `max_retries + 3` returning steps
  (`Engine.ConfirmedDepositsFinish`).
- The cap on retries is a per-read check: with W workers it can be passed by up to W - 1
  (`RetryCap.RetryCapUnderConcurrency`), for every W some run does pass it by that much
  (`RetryCap.BoundIsReached`), and it holds in every run exactly when there is one worker or no
  retry is allowed (`RetryCap.CapHoldsExactly`).
- A caller that loses a race on a key collapses to a no-op only when the state just entered may be
  retried; otherwise the loser is recorded and raised as an illegal transition
  (`Machine.RacedDuplicate`).
- The node answers with the newest entries of a backlog. What a poll leaves out is never listed
  again (`Overflow.PageMissesExactly`, `Overflow.OverflowingPollLoses`, `Overflow.MissedIsLost`).
- A transaction that credits two watched addresses opens an intent for one of them only: of the
  entries filed with a route under one signature the first has it and no other ever will
  (`ExactlyOnce.CreditedExactlyWhenFirst`, `ExactlyOnce.SecondIsNeverCredited`). Every deposit on
  the chain has an intent of its own exactly when each was filed with a route and no transaction
  made two of them (`ExactlyOnce.TransfersCreditedExactly`); when only routed addresses are polled
  the second half alone decides (`ExactlyOnce.RoutedPollsCreditExactly`).
  `TwoAddresses.OneTransferGoesUncredited` is a run that leaves one out.
- The note that a deposit has no route names its transaction and not its address: of several such
  deposits the first writes it (`ExactlyOnce.FirstUnroutedOwnsTheNote`).
- The scan's batch limit is spent before unpaid intents are skipped, so enough old unpaid intents
  starve everything younger (`Reconciler.ExaminedExactly`, `Reconciler.StarvedForGood`), whatever
  the limit is (`Reconciler.StarvationHappens`).
- The base cutoff of the scan agrees with the backoff rule exactly when the cap is not below the
  base threshold (`Reconciler.CutoffIsExact`).
- A claim is left behind exactly when its only holder dies with it, or parses outside the guard,
  before the event is on record (`Webhooks.StepStrandsExactly`); it then swallows redeliveries
  (`Webhooks.StrandedSwallows`).
- A row on record is never dispatched exactly when its worker died between commit and dispatch, or
  its commit landed and was reported as failed (`Webhooks.StepAbandonsExactly`,
  `Webhooks.DispatchedUnlessAbandoned`).
- Claiming due retries is a read followed by a removal, so two drainers may hold one item, and if
  it fails differently at each it comes back as two. The attempt cap holds when no two of them list
  one item at once (`Drainers.AttemptsAreBounded`). Otherwise n drainers on a schedule of L steps
  run one handler up to 1 + n + n^2 + ... + n^L times and no more, and some run does
  (`Copies.RunsNeverExceedCopies`, `Copies.BoundIsReached`); the cap holds in every run exactly
  when there is one drainer at most, or a batch limit of nothing (`Copies.CapHoldsExactly`).
- A code is written before its index entry, and the entry is removed in calls of its own. A live
  code goes missing from the index in exactly four ways (`OtpRaces.StepLosesExactly`): its caller
  dies before the entry, which a repeat does not repair (`OtpStore.CrashHidesACode`,
  `OtpStore.HiddenStaysHidden`); a `forget` or a prune that began before it was stored removes it
  (`OtpRaces.LateForgetHidesACode`, `OtpRaces.LatePruneHidesACode`); or the late entry of an earlier
  code replaces it (`OtpRaces.LateEntryHidesACode`).
- A delivery repeated after a crash goes by the repeated event, which has lost its code, so its row
  can call a code derived that the provider had sent (`OtpService.RetryConverges`).
- A code that is sent and empty is replaced by a minted one, which is then not marked as derived
  (`OtpService.ChallengeIsTheEvents`).
- A decision the provider holds is never ledgered exactly when the worker that carried it died
  before its row (`OtpService.StepUnfilesExactly`, `OtpService.UnfiledForGood`).

## Model

| member | source | states |
|---|---|---|
| Ledger.UniqueMeansAtMostOnce | backend/app/ledger/models.py:31-78 | under the unique index a key is on at most one row, and on one exactly when it is taken |
| Ledger.LedgerTellsThePath | backend/app/funding/machine.py:220-243 | an intent's created, transitioned and retried rows form one contiguous legal path from PENDING to its current state, with as many retried rows as its retry count |
| Ledger.NeverReentered | backend/app/funding/states.py:68-104 | on a legal path a state that was left is never entered again |
| FundingStates.HopDescends | backend/app/funding/states.py:68-104 | every legal hop that is not a retry moves strictly towards an end of the table |
| FundingStates.TableIsExact | backend/app/funding/states.py:68-130 | ignoring retries and failures the table is one way from PENDING to SETTLED; a state may be retried in place if and only if it comes before FUNDED on it; each failure ends exactly the stages it is named for |
| Machine.ApplyKeepsSound | backend/app/funding/machine.py:200-259 | a hop keeps the intents table equal to what the ledger rebuilds, keys unique and one intent per deposit |
| Machine.CreateKeepsSound | backend/app/funding/machine.py:89-134 | so does opening an intent, including the refusals |
| Machine.HistoryEndsAtState | backend/app/funding/machine.py:200-243 | replaying the ledger gives each intent's state and retry count |
| Machine.RacedDuplicate | backend/app/funding/machine.py:204-250 | of two callers that both missed one key the second changes no intent; it collapses exactly when the state entered may be retried and is an illegal attempt otherwise; a later repeat is a replay |
| Machine.SettledOnceAfterFunded | backend/app/funding/states.py:68-100 | SETTLED occurs at most once in a history, last, directly after FUNDED |
| Machine.ApplyExtends | backend/app/funding/machine.py:157-259 | no hop changes card, amount or deposit, lowers the retry count, moves an intent back or removes a row |
| FundingStore.Store.Record | backend/app/ledger/writer.py:26-58 | appends the row unless its key is taken |
| FundingStore.Store.CreateIntent | backend/app/funding/machine.py:89-134 | the whole new state of both tables and the outcome, rolled back when the key is taken |
| FundingStore.Store.AdvanceIntent | backend/app/funding/machine.py:157-259 | look-up first: a taken key changes nothing; otherwise as AdvanceLocked |
| FundingStore.Store.AdvanceLocked | backend/app/funding/machine.py:200-259 | the row changed in place field by field is the specified row, with its ledger entry, or everything is as before |
| Interleaving.StepRefines | backend/app/funding/machine.py:194-250 | each of look-up, lock, change, insert, commit, rollback and crash leaves the tables as one indivisible hop would, or untouched |
| Interleaving.BumpIsRolledBack | backend/app/funding/machine.py:220-250 | a retry that lost the race on its key had counted one more retry on its own copy of the row; the rollback keeps none of it |
| Interleaving.EveryRunIsSerial | backend/app/funding/machine.py:194-250 | the tables after any interleaved, crashing run are those after its committed hops one at a time |
| Interleaving.AdvanceIsARun | backend/app/funding/machine.py:157-259 | a call nobody hinders goes through look-up, lock, change, insert and commit to exactly what `advance` means, and leaves no lock behind |
| Interleaving.EveryRunReplays | backend/app/funding/machine.py:89-259 | in every such run the ledger replays to the intents table along legal paths |
| Interleaving.KeyTakesEffectOnce | backend/app/funding/machine.py:194-250 | however many callers race with one key, between an uncommitted change and its insert included, at most one row carries it and at most one of them changes an intent |
| Safe.UnitsRoundTrip | backend/app/issuers/gnosis_pay_mock/simulator.py:161-186 | token units and money convert back and forth exactly, and the conversion to money refuses exactly the units no amount has |
| Safe.PoolAt | backend/app/issuers/gnosis_pay_mock/simulator.py:678-692 | the first unattributed observed balance of a Safe, or none exists |
| Safe.ClaimAt | backend/app/issuers/gnosis_pay_mock/simulator.py:792-820 | the oldest confirmed unattributed deposit that covers the claim, or none does |
| Simulator.GnosisPaySimulator.NewUser | backend/app/issuers/gnosis_pay_mock/simulator.py:482-518 | a new user's Safe, empty and indexed |
| Simulator.GnosisPaySimulator.ReceiveOnchainDeposit | backend/app/issuers/gnosis_pay_mock/simulator.py:562-595 | the whole new state of a simulated deposit, confirmed or not, and both refusals |
| Simulator.GnosisPaySimulator.ReconcileSafe | backend/app/issuers/gnosis_pay_mock/simulator.py:597-676 | the pool resized to the chain less what is attributed, the difference moved on the balance; keeps every law below |
| Simulator.GnosisPaySimulator.OnchainPool | backend/app/issuers/gnosis_pay_mock/simulator.py:678-692 | the search finds the pool |
| Simulator.GnosisPaySimulator.FinalizeDeposit | backend/app/issuers/gnosis_pay_mock/simulator.py:694-705 | confirming credits the balance once |
| Simulator.GnosisPaySimulator.FundCard | backend/app/issuers/gnosis_pay_mock/simulator.py:714-790 | the whole new state of a funding: replay by reference, the refusals, the wait, or one deposit attributed |
| Simulator.GnosisPaySimulator.ClaimableDeposit | backend/app/issuers/gnosis_pay_mock/simulator.py:792-820 | the deposit claimed, carved out of a larger pool |
| Simulator.GnosisPaySimulator.TakeFromPool | backend/app/issuers/gnosis_pay_mock/simulator.py:822-842 | the carve-out and the remainder |
| Simulator.GnosisPaySimulator.AuthorizeHold | backend/app/issuers/gnosis_pay_mock/simulator.py:1047-1104 | a hold is placed exactly when approved, and the attempt is recorded either way |
| Simulator.GnosisPaySimulator.ClearHold | backend/app/issuers/gnosis_pay_mock/simulator.py:1106-1117 | a pending hold is spent; anything else is refused |
| Simulator.GnosisPaySimulator.CreditRefund | backend/app/issuers/gnosis_pay_mock/simulator.py:1119-1146 | a refund credits the balance and is recorded |
| Simulator.GnosisPaySimulator.ReverseHold | backend/app/issuers/gnosis_pay_mock/simulator.py:1148-1177 | a pending hold returns to the balance and both rows say so |
| SafeLaws.AuthorizeIsExact | backend/app/issuers/gnosis_pay_mock/simulator.py:1047-1104 | a payment is approved if and only if the card is active, the amount within the limit when there is one, and the balance covers it; then it is held and the balance stays at nothing or more; otherwise no balance moves and the first failing cause is recorded |
| SafeLaws.FundingIsExact | backend/app/issuers/gnosis_pay_mock/simulator.py:714-790 | a funding is refused if and only if its reference is stored on other terms, or the card is cancelled, the currency foreign or the amount not positive; it waits if and only if no confirmed unclaimed deposit of the card's own Safe covers it; and succeeds otherwise |
| SafeLaws.CardsAreIssuedAndSet | backend/app/issuers/gnosis_pay_mock/simulator.py:482-558 | a card is issued once, for a user there is; its state and its user's limit become what they are set to; no money moves |
| SafeLaws.ScaleCountsDecimals | backend/app/issuers/gnosis_pay_mock/simulator.py:161-186 | one more decimal is ten times the token units, and two decimals are minor units |
| SafeLaws.BooksAlwaysBalance | backend/app/issuers/gnosis_pay_mock/simulator.py:562-705 | in every run spendable plus held plus cleared less refunded is the sum of confirmed deposits, and held is the sum of pending holds |
| SafeLaws.ObserveMeetsChain | backend/app/issuers/gnosis_pay_mock/simulator.py:597-676 | after a reconcile the pool is exactly the chain less the attributed, or nothing |
| SafeLaws.ChainBoundsCards | backend/app/issuers/gnosis_pay_mock/simulator.py:597-692 | in every run, whatever else feeds the Safe, attributed evidence-bearing money plus the pool never exceeds the largest balance observed, and there is one pool at most |
| SafeLaws.ObservedSafeIsCovered | backend/app/issuers/gnosis_pay_mock/simulator.py:597-692 | for a Safe fed by observation alone, all that is attributed plus the pool never exceeds the largest balance observed, and its cards were funded with exactly what is attributed |
| SafeLaws.FundingReplays | backend/app/issuers/gnosis_pay_mock/simulator.py:714-760 | a funding that succeeded answers the same result for ever and moves nothing again; its reference on other terms is refused for ever |
| SafeLaws.FundingsMatchDeposits | backend/app/issuers/gnosis_pay_mock/simulator.py:714-842 | stored funding references and attributed deposits correspond one to one |
| SafeLaws.FundedWithinAttributed | backend/app/issuers/gnosis_pay_mock/simulator.py:714-842 | funded token units are at most the attributed units, and equal to them when every claim was of an observed pool |
| SafeLaws.FundingsOnlyGrow | backend/app/issuers/gnosis_pay_mock/simulator.py:714-790 | no run replaces a stored funding |
| Bridge.SubmitTwice | backend/app/chain/bridge/simulated.py:142-180 | repeating an order changes nothing; a different order under the same reference is refused; no order is replaced |
| Bridge.SubmitIsExact | backend/app/chain/bridge/simulated.py:142-206 | an order is taken if and only if more than the fee, and the one already taken under its reference or new to a bridge that takes orders; it is filed as of then and nothing else changes; unavailable and refused are told apart |
| Bridge.StatusIsExact | backend/app/chain/bridge/simulated.py:208-229 | a transfer is in flight if and only if the bridge is stuck or its latency has not passed since the first submit, then failed if and only if transfers fail, and otherwise completed with the order less the fee |
| Bridge.DeliversNetOfFee | backend/app/chain/bridge/simulated.py:182-229 | a status exists exactly for accepted orders, and what arrives is the order less the fee and positive |
| Bridge.SimulatedBridge.SubmitOrder | backend/app/chain/bridge/simulated.py:142-180 | the object's new state and answer, branch for branch |
| Bridge.SimulatedBridge.AskStatus | backend/app/chain/bridge/simulated.py:182-188 | the search over accepted orders finds the one with this reference |
| Engine.StepBurnsFuel | backend/app/funding/engine.py:116-316 | every step that returns a hop lowers hops-left plus retries-left; one that raises never adds any and fails no intent |
| Engine.SubmitFollows | backend/app/funding/engine.py:131-162 | the first stage moves on, waits, fails or stays exactly as its outside call says: it fails only on a hopeless answer or with its retries spent, and never on an exception |
| Engine.PollFollows | backend/app/funding/engine.py:164-216 | the same for the second stage, where a failed transfer, a missing reference and an unusable amount are the hopeless answers |
| Engine.FundFollows | backend/app/funding/engine.py:218-262 | the same for the third stage, which waits in FUNDING whichever state it started in |
| Engine.FailureIsTheStages | backend/app/funding/engine.py:264-316 | exactly the states the engine drives can fail, each in the failure the table allows it |
| Engine.LostAnswersTookEffect | backend/app/funding/engine.py:131-262 | a call that fails does nothing; one whose answer is lost did what it would have done, and its caller is told only of trouble |
| Engine.DigitsSayTheNumber | backend/app/issuers/gnosis_pay_mock/simulator.py:1247-1249 | the digits that stand for a simulated transfer's hash say its deposit's number, so different deposits have different references |
| Engine.ConfirmedDepositsFinish | backend/app/funding/engine.py:116-316 | a confirmed deposit is funded or failed within max_retries + 3 returning steps, whatever the outside systems do |
| Healthy.ConfirmedDepositIsFunded | backend/app/funding/engine.py:116-262 | with a healthy bridge, a fundable card and a covering balance, three steps with the latency between the first two end in FUNDED with the deposit less the fee on the card |
| Healthy.SomeRunFunds | backend/app/funding/engine.py:116-262 | for every policy and healthy bridge a run of the concurrent system from nothing opens, confirms, bridges and funds an intent |
| TopUpEngine.TopUpEngine.Step | backend/app/funding/engine.py:116-127 | the stages on the live store, bridge and issuer are the specified step |
| TopUpEngine.TopUpEngine.SubmitToBridge | backend/app/funding/engine.py:131-162 | call, failure handling and hop of the first stage |
| TopUpEngine.TopUpEngine.CheckBridge | backend/app/funding/engine.py:164-216 | the second stage, with its four endings |
| TopUpEngine.TopUpEngine.FundCard | backend/app/funding/engine.py:218-262 | the third stage, entering FUNDING before the call |
| TopUpEngine.StepIsARun | backend/app/funding/engine.py:116-316 | an undisturbed step is a run of a single worker of the concurrent model |
| Workers.StepKeepsInv | backend/app/funding/engine.py:131-316 | with any number of workers crashing anywhere, columns agree with states, snapshots are past rows, and bridge orders and fundings are the intent's own |
| Engine.SubmitsTheIntentsOrder | backend/app/funding/engine.py:131-147 | the order a submit places, field by field |
| Crediting.OrdersAreTheIntents | backend/app/funding/engine.py:131-147 | in every run an accepted order has its intent's id and amount, the policy's source and destination in that order, and the Safe of the user whose card it is |
| Crediting.OneOrderPerIntent | backend/app/funding/engine.py:131-162 | every submit for an intent carries, field by field, the order already taken, so the differing-order refusal is unreachable |
| Crediting.OneFundingPerIntent | backend/app/funding/engine.py:218-262 | every fund_card for an intent carries the card and amount already funded, and answers the stored result |
| Crediting.NothingIsReplaced | backend/app/chain/bridge/simulated.py:142-180 | accepted orders and stored fundings never change in any run |
| Crediting.FundedNetOfFee | backend/app/funding/models.py:105-119 | a funded intent's card was credited exactly the deposit less the fee, which left something |
| Crediting.MoneyConserved | backend/app/funding/engine.py:191-262 | in every run, the sum over funded intents of card credit and fee is at most the sum of the amounts of the intents opened for a deposit |
| RetryCap.RetryCapUnderConcurrency | backend/app/funding/engine.py:278-296 | with W workers no retry count passes max_retries + W - 1 |
| RetryCap.BoundIsReached | backend/app/funding/engine.py:278-296 | for every policy that retries, bridge and W, some run of W workers retries an intent exactly max_retries + W - 1 times |
| RetryCap.CapHoldsExactly | backend/app/funding/engine.py:278-296 | retry_count stays within max_retries in every run if and only if there is one worker or max_retries is zero |
| Watcher.SolanaDepositWatcher.Poll | backend/app/chain/solana_watcher.py:151-202 | the loop, oldest first and stopping at the first unreadable transaction, computes the specified page |
| Watcher.EveryEntryOnce | backend/app/chain/solana_watcher.py:151-202 | each consumed entry is in the one of deposits and ignored that its finding says, and nothing else is in either |
| Watcher.ListedAsOftenAsFound | backend/app/chain/solana_watcher.py:151-202 | a deposit or an ignored entry is listed as often as it was found |
| Watcher.FindingIsExact | backend/app/chain/solana_watcher.py:151-261 | a transaction is credited if and only if neither the index nor its own record says it failed, the account is in it with a balance after it, and after less before, absent counting as nothing, is at least one minor unit; each reason for ignoring one if and only if it is the first that applies |
| Watcher.CreditSplitsExactly | backend/app/chain/solana_watcher.py:225-261 | a deposit's base units are what the transaction added, split into whole minor units and dust below a unit |
| Watcher.RecordTelescopes | backend/app/chain/solana_watcher.py:204-261 | recorded base units sum to the account's balance change plus what left with a closed account, so exactly when none did |
| Watcher.RecordIsTheLists | backend/app/chain/solana_watcher.py:96-108 | that record is the sum of the two lists |
| Intake.FileNeverRaises | backend/app/funding/deposits.py:131-183 | filing a deposit puts it on record by intent, duplicate or unroutable note, and never raises |
| Intake.HopKeepsTables | backend/app/funding/deposits.py:173-182 | confirming hops keep the deposit and confirmation keys telling the truth |
| IntakeLaws.StepKeeps | backend/app/funding/deposits.py:70-183 | every commit-sized step of polling, recording, confirming, moving the cursor, crashing or reconciling keeps the intake invariants |
| ExactlyOnce.ExactlyOnceIntake | backend/app/funding/deposits.py:70-183 | in every run without an overfull page, each deposit at or behind its cursor was filed; if ever with a route, one intent holds its signature, opened for the first such filing, and it has an intent of its own, of its card and amount, exactly when that was it; if never, it has none and its signature has one note |
| ExactlyOnce.CreditedExactlyWhenFirst | backend/app/funding/deposits.py:149-171 | an entry has an intent opened for it, and for it alone, if and only if it was filed with a route before any other entry of its signature |
| ExactlyOnce.SharedSignatureCreditsOne | backend/app/funding/deposits.py:149-171 | of two entries with one signature that were filed with a route, not both are credited, and one intent holds the signature |
| ExactlyOnce.OwnIntentsExactly | backend/app/funding/deposits.py:149-171 | at every moment every deposit filed with a route has an intent of its own if and only if no transaction made two of them |
| ExactlyOnce.TransfersCreditedExactly | backend/app/funding/deposits.py:97-171 | every deposit on the chain has an intent of its own if and only if each was filed with a route and no transaction makes two of them |
| ExactlyOnce.RoutedPollsCreditExactly | backend/scripts/run_funding_worker.py:44-58 | when only routed addresses are polled and intake has caught up, every deposit on the chain has an intent of its own if and only if no transaction makes two of them |
| ExactlyOnce.AloneIsFirst | backend/app/funding/deposits.py:149-171 | an entry filed with a route whose transaction makes no other deposit is first |
| ExactlyOnce.FirstUnroutedOwnsTheNote | backend/app/funding/deposits.py:205-222 | a signature filed without a route has one note, however many addresses it was filed at, and the first of those filings wrote it |
| ExactlyOnce.SecondIsNeverCredited | backend/app/funding/deposits.py:149-171 | an entry filed second stays without an intent in every later run |
| TwoAddresses.OneTransferGoesUncredited | backend/app/funding/deposits.py:149-171 | a run from the start in which both addresses of one transaction are routed, polled, filed and passed, and the second is not credited |
| IntakeLaws.ConfirmedExactlyOnce | backend/app/funding/reconciler.py:208-236 | the confirmation key is on one row exactly when the intent has left PENDING |
| IntakeLaws.StalledDepositConfirms | backend/app/funding/reconciler.py:208-236 | the reconciler confirms a stalled deposit exactly when it is still PENDING; late and raced confirmations change no intent |
| IntakeLaws.MoveCursorKeeps | backend/app/chain/cursors.py:67-93 | moving the cursor last, never to an earlier slot, keeps everything behind it on record |
| Overflow.PageMissesExactly | backend/app/chain/rpc.py:100-124 | of the entries a poll goes past, the page holds exactly those the node listed: all of them just when the backlog fits |
| Overflow.MissedIsLost | backend/app/chain/rpc.py:100-124 | an unclaimed entry below what the node lists, its transaction landing nowhere else, is listed and put on record in no later run |
| Overflow.OverflowingPollLoses | backend/app/funding/deposits.py:70-94 | any poll that finds more than a page, followed in whatever company by its own cursor move, loses every entry the node left out that nobody had claimed or held |
| Overflow.CursorPassesIt | backend/app/chain/cursors.py:67-93 | moving the cursor to the end of such a page puts it past the entry |
| Overflow.OverflowPassesOver | backend/app/funding/deposits.py:70-94 | a run that passes one over |
| Deposits.EveryDepositIsSorted | backend/app/funding/deposits.py:97-128 | each transfer of a page is, by its position, in exactly the list of what became of it, and on record; every intent the page opened is a confirmed deposit of its own transfer, and no other intent has changed |
| Deposits.RecordAllKeeps | backend/app/funding/deposits.py:97-128 | recording a page keeps the tables consistent and removes nothing |
| Deposits.ReobservedOpensNothing | backend/app/funding/deposits.py:149-171 | a page seen again opens nothing and changes no intent |
| Deposits.DepositCollector.RegisterRoute | backend/app/funding/routes.py:96-132 | an address funds one card for good; the same card again is accepted, another refused |
| Deposits.DepositCollector.AdvanceCursor | backend/app/chain/cursors.py:67-93 | the cursor moves unless the slot is earlier |
| Deposits.DepositCollector.RecordOnce | backend/app/funding/deposits.py:237-255 | one row per key |
| Deposits.DepositCollector.OpenIntent | backend/app/funding/deposits.py:131-183 | asked first, enforced by the index second; a new intent is confirmed |
| Deposits.DepositCollector.RecordDeposits | backend/app/funding/deposits.py:97-128 | the two loops compute the specified tables and report |
| Deposits.DepositCollector.CollectDeposits | backend/app/funding/deposits.py:70-94 | poll, record, then move the cursor |
| Deposits.CollectIsARun | backend/app/funding/deposits.py:70-94 | an undisturbed collection is a run of one intake worker |
| Pipeline.EveryFundedIntentIsFollowed | backend/app/funding/models.py:105-119 | in every joint run a funded intent leads back to one transfer to a routed address: base units split exactly, the fee taken, and the rest, positive, on that address's card |
| Pipeline.NoTransferFundsTwo | backend/app/funding/deposits.py:149-171 | two funded intents never lead back to one transfer |
| Pipeline.FundedNeverExceedsDeposited | backend/app/funding/engine.py:191-262 | the same of every joint run of intake and engine |
| Pipeline.CreditComesFromTheChain | backend/app/funding/engine.py:191-262 | in every joint run each funded intent has a chain entry of its own, and credits plus fees in base units plus dust are together exactly those entries' base units, so at most all that arrived |
| Settlement.SettleFromEvent | backend/app/funding/settlement.py:48-107 | the four ways out and the hop |
| Settlement.SettlesExactlyTheFunded | backend/app/funding/settlement.py:48-107 | an event moves its intent exactly when it is FUNDED, is harmless when SETTLED, and is refused on record otherwise |
| Settlement.RacingEventsSettleOnce | backend/app/funding/settlement.py:90-107 | of two deliveries that both saw the intent funded the second is a no-op by its key, and would be an illegal hop without it |
| Settlement.SettledAtMostOnce | backend/app/funding/settlement.py:48-107 | in any stream of duplicated, early and retried events among other hops, at most one settled row, right after the funded one |
| Reconciler.CutoffIsExact | backend/app/funding/reconciler.py:112-152 | the query's base cutoff loses no due intent if and only if the cap is at least the base |
| Reconciler.DueIsExact | backend/app/funding/reconciler.py:112-123 | the due time is passed if and only if the intent has been quiet for its threshold doubled per retry, or for the cap; each wait is what its retry adds to the sum of all waits |
| Reconciler.WaitsDouble | backend/app/funding/reconciler.py:112-123 | n waits sum to at most the geometric sum, and to it exactly when the last is not capped |
| Reconciler.WaitsAreCapped | backend/app/funding/reconciler.py:112-123 | and to at most n caps |
| Reconciler.ScanFindsTheDue | backend/app/funding/reconciler.py:126-175 | every answer of the scan contains an intent, past its backoff, if and only if the rule means it and fewer than batch_limit other candidates are not newer |
| Reconciler.RoomForAll | backend/app/funding/reconciler.py:126-175 | with room for all candidates, cutoff and backoff together select exactly the due intents |
| Reconciler.ExaminedExactly | backend/app/funding/reconciler.py:138-151 | however ties are ordered, a candidate is in every answer exactly when fewer than batch_limit others are not newer, and in some answer exactly when fewer than batch_limit are older |
| Reconciler.CrowdedOut | backend/app/funding/reconciler.py:138-151 | ties or not, batch_limit older candidates keep it out of every answer |
| Reconciler.StarvedForGood | backend/app/funding/reconciler.py:155-205 | behind batch_limit older unpaid intents an intent is untouched by any number of passes |
| Reconciler.StarvationHappens | backend/app/funding/reconciler.py:155-205 | for every batch_limit, tables made by opening intents and confirming one deposit leave that deposit due and unreached for ever |
| Reconciler.PassStepsTheDue | backend/app/funding/reconciler.py:155-205 | a pass steps exactly the due, paid-for, unskipped intents of its batch, once each and in order, and reports the rest as waiting; only an exception cuts it short |
| Reconciler.PassLeaves | backend/app/funding/reconciler.py:155-205 | and changes no other intent |
| FundingWorker.Worker.ConfirmStalledDeposit | backend/app/funding/reconciler.py:208-236 | nothing for an unpaid intent, the shared key otherwise |
| FundingWorker.Worker.Reconcile | backend/app/funding/reconciler.py:155-205 | the loop computes the specified pass |
| FundingWorker.Worker.PollEach | backend/app/funding/worker.py:143-144 | each watched address in turn: its page on record, its report, then its cursor |
| FundingWorker.Worker.RunPass | backend/app/funding/worker.py:129-164 | poll, drive, then reconcile what was not driven; no intent is stepped twice |
| FundingWorker.OnlyUntriedAreDriven | backend/app/funding/worker.py:101-126 | first attempts are made for intents in the engine's states that were never retried and have been quiet for the configured time, for all of them when they fit the batch |
| FundingWorker.VisitKeepsTables | backend/app/funding/reconciler.py:155-236 | what a pass does to one intent keeps the tables consistent for the next poll |
| FundingWorker.OnePassStepsEachOnce | backend/app/funding/worker.py:129-164 | the same for every outcome of the outside systems |
| Keys.PartitionJoin | backend/app/otp/store.py:64-65 | splitting at the first colon undoes joining when the left name has none |
| Webhooks.KeysAreInjective | backend/app/webhooks/dedup.py:26-37 | colon-free providers keep both keys of distinct deliveries apart |
| Webhooks.ColonProvidersCollide | backend/app/webhooks/dedup.py:26-37 | a provider with a colon shares both keys with another delivery |
| Webhooks.AtMostOnce | backend/app/webhooks/receiver.py:81-174 | for any interleaving, forgetting and crashes: one row and one dispatch per event at most, a row behind every dispatch and every non-duplicate answer |
| Webhooks.NothingIsLost | backend/app/webhooks/receiver.py:81-174 | without a death inside the claim window or an unexpected parser failure, once nobody is left working an unrecorded event's next delivery is recorded and dispatched |
| Webhooks.StrandedSwallows | backend/app/webhooks/receiver.py:107-110 | a stranded claim makes a redelivery a duplicate of nothing |
| Webhooks.ForgettingFrees | backend/app/webhooks/dedup.py:26-54 | once the claim has expired the next delivery is recorded and dispatched |
| Webhooks.StepStrandsExactly | backend/app/webhooks/receiver.py:107-153 | a claim comes to be stranded if and only if its only holder dies with it, or parses outside the guard, before the event is on record |
| Webhooks.StepAbandonsExactly | backend/app/webhooks/receiver.py:116-157 | a row on record that nobody will dispatch arises if and only if its worker dies between commit and dispatch, or its commit lands and is reported as failed |
| Webhooks.DispatchedUnlessAbandoned | backend/app/webhooks/receiver.py:116-174 | in every run a row on record has been dispatched, or is about to be, if and only if no such step was taken |
| Webhooks.RecordedAndDispatched | backend/app/webhooks/receiver.py:81-174 | without such steps, once nobody is left working, an event is on record and dispatched exactly once, or its next delivery is accepted |
| Webhooks.AbandonedForGood | backend/app/webhooks/receiver.py:134-157 | such a row is never dispatched in any later run |
| Receiver.DedupGate.TryClaim | backend/app/webhooks/dedup.py:47-50 | the claim is exclusive |
| Receiver.DedupGate.GiveBack | backend/app/webhooks/dedup.py:52-54 | and can be given back |
| Receiver.WebhookReceiver.Receive | backend/app/webhooks/receiver.py:81-174 | one delivery in the code's order, a commit that lands unheard included, is one worker's run of the concurrent model |
| RetryQueue.OnlyTheCodeIsLost | backend/app/webhooks/retry.py:67-90 | an item survives the queue unchanged except for its one-time code |
| RetryQueue.KeysAreApart | backend/app/webhooks/retry.py:153-202 | retries and dead letters are told apart by provider, event and handler |
| Drainers.ClampNeverBites | backend/app/webhooks/retry.py:45-53 | within the schedule the clamp changes no delay |
| Drainers.AttemptsAreBounded | backend/app/webhooks/dispatch.py:146-205 | any number of drainers of which no two list one item at once: each handler of each event runs at most once plus once per step, never sooner than scheduled; a queued item is due at its last run plus exactly its own step; it is dead-lettered at most once and not held or queued after |
| Drainers.LoneDrainerNeverShares | backend/app/webhooks/retry.py:132-150 | one drainer always meets that condition |
| Drainers.StepEndsExactly | backend/app/webhooks/retry.py:132-150 | the retries of a handler that has run end, other than in a dead letter, if and only if it works or a drainer dies holding it |
| Drainers.FailedIsKept | backend/app/webhooks/dispatch.py:146-205 | in every run of drainers that share no item, a handler that has run is queued, in hand or dead-lettered if and only if it has not worked and no drainer died holding it |
| Copies.RunsNeverExceedCopies | backend/app/webhooks/retry.py:132-150 | in every run of n drainers, crashing or sharing items at will, one delivery runs a handler at most 1 + n + ... + n^L times, L the steps of the schedule |
| Copies.BoundIsReached | backend/app/webhooks/retry.py:132-150 | for every schedule, positive batch limit and n, a run from the start does so exactly |
| Copies.CapHoldsExactly | backend/app/webhooks/retry.py:132-150 | runs stay within max_attempts in every run if and only if there is at most one drainer or the batch limit is zero |
| RetryQueue.DrainSortsEverything | backend/app/webhooks/dispatch.py:159-205 | each claimed item is in the list of its own outcome, in order |
| RetryQueue.EndingsPartition | backend/app/webhooks/dispatch.py:159-205 | and in exactly one |
| Drainers.DrainIsRuns | backend/app/webhooks/dispatch.py:146-205 | an undisturbed drain is one listing, one removal and one run for each item |
| Drainers.DispatchIsDeliveries | backend/app/webhooks/dispatch.py:102-143 | dispatch is one inline attempt for each handler |
| RetryQueue.Drainer.Dispatch | backend/app/webhooks/dispatch.py:102-143 | the event is published first, without its code; a failing handler is queued and never stops the rest |
| RetryQueue.Drainer.ScheduleItem | backend/app/webhooks/retry.py:118-130 | the item's own delay from now |
| RetryQueue.Drainer.RemoveListed | backend/app/webhooks/retry.py:132-150 | what was listed leaves the queue, listed elsewhere or not, before any of it runs |
| RetryQueue.Drainer.Bury | backend/app/webhooks/retry.py:153-202 | one dead letter per delivery and handler, ledgered the first time only |
| RetryQueue.Drainer.RunAgain | backend/app/webhooks/dispatch.py:164-199 | missing, working and failing handlers, and the cap |
| RetryQueue.Drainer.DrainDue | backend/app/webhooks/dispatch.py:146-205 | the loop computes the specified drain and its lists partition the batch |
| OtpStore.LifetimeCoversDeadline | backend/app/otp/store.py:111-117 | the whole-second lifetime is zero only for a dead challenge and overshoots the deadline by less than a second |
| OtpStore.ListedIsExact | backend/app/otp/store.py:174-208 | looking up what a consistent index lists finds exactly the live challenges not past their deadline, soonest first, each once |
| OtpRaces.PendingIsExact | backend/app/otp/store.py:131-220 | however the calls of remember, pending and forget interleave and codes are evicted: if no step lost a code and no entry is still to come, pending answers exactly those |
| OtpRaces.WholeOperationsAreExact | backend/app/otp/store.py:131-220 | whole operations one after another are such a run, so pending is exact after any of them |
| OtpRaces.UnlistedExactly | backend/app/otp/store.py:152-220 | in every run a member is missing from what a poll lists if and only if every entry with a deadline to come was removed or replaced after it was added, or none was added |
| OtpRaces.NeverCameOrWasRemoved | backend/app/otp/store.py:152-220 | while one deadline is all its entries ever carried: if and only if its entry never came or a removal came after it |
| OtpRaces.StepLosesExactly | backend/app/otp/store.py:152-220 | a live code goes astray if and only if its caller dies before its entry, a late forget or prune removes the entry, or the late entry of an earlier code replaces it |
| OtpRaces.AstrayExactly | backend/app/otp/store.py:152-220 | in every run a live code is astray at some moment if and only if such a step was taken |
| OtpRaces.PruningIsSafe | backend/app/otp/store.py:192-207 | however long a poll takes between finding members stale and pruning them, it removes the entry of no live code that was not stored in between |
| OtpStore.FirstCodeWins | backend/app/otp/store.py:131-172 | the first code stored under an id is what every read sees until it expires or is forgotten |
| OtpStore.CrashHidesACode | backend/app/otp/store.py:152-166 | dying between code and index hides a live code, and remembering it again does not help |
| OtpStore.HiddenStaysHidden | backend/app/otp/store.py:152-208 | it stays unlisted while it lives |
| OtpRaces.LatePruneHidesACode | backend/app/otp/store.py:184-207 | a run in which a prune after a new remember hides the new code |
| OtpRaces.LateForgetHidesACode | backend/app/otp/store.py:210-220 | a run in which a remember between the two calls of a forget loses its entry |
| OtpRaces.LateEntryHidesACode | backend/app/otp/store.py:152-166 | a run in which the late entry of an earlier code hides a later one |
| OtpStore.Codes.RememberChallenge | backend/app/otp/store.py:131-166 | three answers and both structures |
| OtpStore.Codes.Pending | backend/app/otp/store.py:174-208 | the loop finds the wanted challenges and prunes the stale members |
| OtpStore.Codes.ForgetChallenge | backend/app/otp/store.py:210-220 | consumes the code, and the index entry either way |
| OtpService.NoCodeOutlivesItsDeadline | backend/app/otp/service.py:103-116 | no code outlives the ceiling or, by a second, the provider's own deadline |
| OtpService.DeadlineIsTheEarlier | backend/app/otp/service.py:103-116 | the deadline is the earlier of the ceiling and the provider's own, or the usual one when it names none |
| OtpService.ChallengeIsTheEvents | backend/app/otp/service.py:119-136 | the code is the event's own if and only if it names one, the id the challenge's if it names one and the delivery's otherwise, and derived means that no code was sent |
| OtpService.TheEventsCodeIsShown | backend/app/otp/service.py:139-177 | from a first delivery to its deadline a look-up under that id finds that code |
| OtpService.Service.WriteOnce | backend/app/otp/service.py:180-195 | one row per challenge and kind |
| OtpService.OneRowPerChallengeAndKind | backend/app/otp/service.py:180-195 | a row is written if and only if its challenge has none of its kind |
| OtpService.OpenIsAnswered | backend/app/otp/service.py:297-346 | an open challenge can be answered, which puts the decision with the provider and on record and closes it; one that has lapsed cannot |
| OtpService.Service.DeliverChallenge | backend/app/otp/service.py:139-177 | store, then ledger, then push on the first store only |
| OtpService.Provider.AnswerChallenge | backend/app/issuers/gnosis_pay_mock/simulator.py:1366-1389 | a challenge is answered once and only before it expires; every refusal changes nothing |
| OtpService.Service.AnswerChallenge | backend/app/otp/service.py:297-346 | tell the provider, then the row, then forget; a refusal consumes nothing |
| OtpService.AnswerIsARun | backend/app/otp/service.py:297-346 | an undisturbed answer is one worker's run of the racing, crashing model |
| OtpService.RetryConverges | backend/app/otp/service.py:139-177 | a repeat after a crash writes the owed row, keeps the first code and pushes nothing |
| OtpService.RowsTellTheProvidersDecision | backend/app/otp/service.py:297-346 | answers race, crash and repeat, yet a delivered row records the decision the provider holds, one row per challenge |
| OtpService.StepUnfilesExactly | backend/app/otp/service.py:320-339 | a held decision comes to have no row and nobody to write it if and only if the one worker told of it dies before writing it |
| OtpService.HeldIsFiledUnlessLost | backend/app/otp/service.py:297-346 | in every run each held decision is on record or about to be, if and only if no such death came in between |
| OtpService.UnfiledForGood | backend/app/otp/service.py:320-339 | such a decision is never ledgered in any later run |
| Reveal.GrantedAtMostOnce | backend/app/reveal/store.py:146-203 | for any interleaving, crash and expiry a token is granted at most once, for what it was minted for, and a replay is reported only of a token already granted |
| Reveal.StepWastesExactly | backend/app/reveal/store.py:170-203 | a minted token is wasted if and only if its deadline comes while it is live or a redeem dies after the take |
| Reveal.GrantedUnlessWasted | backend/app/reveal/store.py:146-203 | in every run a minted token is live, being redeemed or granted if and only if neither happened |
| Reveal.GoneForGood | backend/app/reveal/store.py:181-203 | a wasted token is granted in no later run |
| Reveal.ReplayIsToldWhileMarked | backend/app/reveal/store.py:170-203 | a replay is told as one, naming the card, while its marker lasts, and is an unknown token afterwards |
| Reveal.RevealTokenStore.MintToken | backend/app/reveal/store.py:146-168 | a new token is live with its grant and disturbs no other |
| Reveal.RevealTokenStore.Redeem | backend/app/reveal/store.py:170-203 | one redeem is the take followed by the marker or the look-up |

## Left out

- Adapters other than the mock issuer, the Wormhole bridge, and the fiat-rail branch of where a bridge delivers: their sources are outside this model; only `CRYPTO_DEPOSIT` cards of `gnosis_pay_mock` are driven.
- RPC, HTTP, the bus, push and Redis itself: each outside call is an answer or a fault chosen freely (worked, failed retryably, failed for good, raised something foreign, took effect and lost its answer).
- The chain itself: an address's finalized entries only grow, in slot order, each signature once; the slot of a transaction and of its listing are one value.
- Hashes, signatures, token randomness and minted codes: verification is a boolean, digests are the values they digest, fresh ids and tokens are inputs required to be fresh.
- The chain read an adapter makes before funding: in the concurrent model observing a Safe is a step of its own that may come at any time, so before a funding too.
- Record aliasing in the simulator: its records are values inside sequences and maps that the methods update, so a caller holding a record does not see it change.
- The simulator's card lifecycle beyond a card's state, disputes, currency changes, the delivery outbox and its event payloads, the cap on active cards, timestamps of deposits.
- The string formats of ledger keys other than the webhook, challenge and index ones: they are constructors of one datatype, so they cannot collide.
- Blank idempotency keys and updates outside the allowed columns: the types cannot express them.
- `subscribe` and the subscription table: a dispatch is given its handlers' names, a drain whether a handler is still there.
- `created_at` and `updated_at`, logging, settings, routes and exception mapping: easy or plumbing.
- Float seconds: time is an integer, in seconds except in the code store, where it is finer.
- Ledger payloads and free-text reasons, except where a later decision reads them.
- A node that cannot be reached: it ends a collection, and the pass with it, before anything is written; here every poll of FundingWorker.Worker.RunPass is answered.
- ExactlyOnce.ExactlyOnceIntake: assumes no poll finds more new entries than its page holds, because beyond that the statement is false; Overflow.OverflowingPollLoses says what is lost.
- Drainers.AttemptsAreBounded: assumes that no two drainers list one item at once, because claiming is not atomic; Copies.CapHoldsExactly says when the cap holds without that. It also takes from Webhooks.AtMostOnce that an event is dispatched at most once.
- Webhooks.AtMostOnce: event ids are compared per colon-free provider id; Webhooks.ColonProvidersCollide shows why. The fall-back to a digest of the body is an event id like any other.
- OtpRaces.PendingIsExact: assumes that no step lost a code, which OtpRaces.StepLosesExactly makes exact, that no entry is still to come, colon-free provider ids and a limit that is not reached. A call's own clock and the store's are one.
