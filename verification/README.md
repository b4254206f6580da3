# Verified model of the Ethereum adapter

The adapter moves tokenised assets on an EVM chain for a FinP2P organisation. This project models the parts of it
where state, interleaving or branching decides whether tokens, tables or obligations are conserved, and proves what
they promise. Dafny 4.11; `dafny verify dfyconfig.toml` checks everything.

## What is modelled

- **Legacy table adoption** (`LegacyMigration*.dfy`). Any number of replicas run the rename protocol against one
  PostgreSQL server. A replica is a program counter, every awaited query is a step, every interleaving, refused query
  and lost COMMIT reply is a run. The rules assumed of the server (what a session sees, which locks a rename takes,
  when it waits or is refused) are listed at the head of `LegacyMigration.dfy`. `LegacyMigrationReplica.dfy` is the
  program one replica runs, against a server on which the others act between any two of its queries;
  `LegacyMigrationSeen.dfy` says what a replica has seen, in that very run, by the time it goes on.
- **Deposit watchers** (`Ota*.dfy`, `Pull*.dfy`, `Amounts.dfy`). Timer-driven machines over mutable maps, a block
  cursor and an ERC20 chain. Every await ends a step; polls of one key may overlap, a thrown call may come at any
  await, and a transaction that was sent may be mined after its poll has given up. Results that need polls of one key
  not to overlap say so (`NoOverlap`), and polls do not overlap if each has done its reading before the next timer of
  its key fires (`GuardPreventsOverlap`); everything else holds for every interleaving. The classes `BalanceWatcher` and
  `ApprovalWatcher` update their maps in place, each method being one event of the model.
- **Custody escrow** (`TokenStandards.dfy`, `Custody*.dfy`, `Escrow*.dfy`). Issue, transfer, hold, release, rollback and
  redeem over the two hold models. Both refine one abstract ledger of spendable tokens, open holds and supply. A call
  the standard accepts answers, or throws, and then its transaction may or may not have been mined (`Fate`).
- **Omnibus mode** (`Omnibus*.dfy`). The pooled wallets, an internal ledger per docs/omnibus-mode.md, and the
  verification of inbound receipts with its finality loop. The chain keeps the receipt of every mined transaction, the
  pool's own and others', with the contracts that emitted its logs; any of them can be claimed as a deposit, any number
  of times. What a transaction brought is what the asset's own contract logged as coming from outside the pool.
- **Intents** (`Intents.dfy`, `OperationContexts.dfy`, `LoanNetting.dfy`). The eight signed intents decoded and checked
  against a request, the second derivation of the same facts for direct mode, and what sequences of admitted loan
  instructions net to, asset by asset.
- **Plan approval** (`Plans.dfy`, `PlanApproval.dfy`, `TokenWhitelisting.dfy`, `Gas*.dfy`). The fail-closed option
  pipeline, the whitelisting veto, and gas prefunding up to the guarantee that execution never runs dry.
- **Indexes, sweeps, text** (`Vaults.dfy`, `VaultScans.dfy`, `VaultManagement.dfy`, `InvestorWhitelists.dfy`,
  `Redaction.dfy`). Paginated vault scans behind two caches, de-whitelisting sweeps, secret redaction.

Objects the program updates in place are classes whose methods are proved equal to a step or a function of the model
(`Now() == Step(old(Now()), e)`); the theorems are about those steps and functions, over whole runs.

## What turned out not to hold, and when it does

- A pull-deposit can be pulled twice although polls do not overlap: if `tx.wait()` throws after the transferFrom was
  mined, the deposit stays open, the cursor stays, and the next poll pulls again if allowance and balance still cover
  the amount (`PullWitness.LostReceiptPullsAgain` for any such state; `LostReceiptPullsTwice` from the start, 100 out of
  one approval of 200). It is reported at most once, and pulled at most once more than its transactions were lost sight
  of (`PullOnce.PulledOnceUnlessLost`).
- `addDeposit` stores the deposit before it asks for the block number. If that call throws, the deposit is open, nothing
  polls its contract and nothing else is accepted on it (`PullStranded.FailedSeedingStrands`), for good unless an
  activation or timer of that contract was still running (`StrandedForGood`). An open deposit is left unattended in no
  other way (`OpenIsAttended`).
- Approval coverage is from the highest seed a contract ever had (`PullCoverage.NoApprovalSkipped`). That is the running
  session's own seed as long as two seedings of a contract do not wait for their block number at once
  (`PullSessions.SessionCovered`), and they do not if and only if no deposit is accepted on a contract while an earlier
  `addDeposit` on it has not returned (`NeverOverlapIff`). From every state in which one is, unanswered, an approval that
  comes after the new deposit's own seed can be passed over (`PullPassedOver.AddedTooEarlyIsPassedOver`); such a state is
  reached in `PullSeedWitness.OverlappingSeedingsPassOver`.
- A one-time-address deposit whose sweep is mined and whose receipt is lost stays open and is not reported: the next
  round finds its address empty (`OtaRounds.LostReceiptIsNeverReported`).
- Table adoption depends on the schema. The four names of the list differ exactly if the schema is neither of the two
  legacy prefixes (`LegacyMigrationReplica.AdoptionNamesDiffer`), and then the results for a shared list apply to it. A
  replica that boots alone leaves every table under its new name if and only if the schema is not
  `finp2p_vanilla_service` (`LegacyMigrationAlone.AloneAdoptsIff`): with that one it reports success and the adapter's
  table has its legacy name (`VanillaSchemaIsNotAdopted`).
- Co-deployed adapters with different schemas that boot at once race for the legacy tables, and the second to come fails
  even without a fault: it finds neither the source nor its own destination (`LegacyMigrationRace.SecondListFails`).
- The two derivations of an operation's phase agree for a loan at every sequence but 4, and for every other intent up to
  sequence 4 only, since direct mode closes any intent after it; src/services/operations/operation-context.ts:11
  documents the cut-off as 3, its line 29 uses 4. The legs agree exactly as `OperationContexts.LegsMirrorIff` says; USD
  paid in USDC is where they part (`WellKnownSymbolsPart`).
- Omnibus wallets and internal ledger part, and exactly then, on an event `OmnibusBacking.Parts` lists: a payment to a
  wallet of the pool that is booked as having left, a delivery to the escrow wallet, a transaction that was mined and of
  which the caller was not told, a claim credited for something else than what it is due (`ExactlyBackedIff`). The pool
  as a whole falls short exactly on a payment to the outside whose reply is lost, and on a claim that credits a positive
  amount for a transaction credited before, or on a log that is not the asset contract's or whose `from` is a wallet of
  the pool, without enough besides (`FallsShortIff`, `NeverShort`).
- Inbound verification compares the amount with the first log that looks like a transfer to the omnibus wallet. It asks
  neither which contract emitted it, nor whom the tokens came from, nor whether the transaction has been claimed before.
  Whatever that log says, no more is credited than is due if and only if the answers are: the asset's contract, nobody of
  the pool, no (`OmnibusInbound.CreditIsCoveredIff`); and exactly what is due if and only if, besides, the transaction
  brought nothing else (`CreditIsWhatArrivedIff`). Each failing: another token's log (`ForeignLogIsCredited`), the
  pool's own rollback or local release claimed as a deposit (`OwnTransferIsCredited`), any claim made twice
  (`ClaimedAgain`). `OmnibusWitness` has concrete inputs, down to two investors with a claim to one hundred tokens.
- docs/omnibus-mode.md has every release return to the omnibus wallet; the code pays a counterparty directly, and the
  model follows the code. The account of a local investor is not needed for a release, and yet a caip10 account of
  another chain stops it (`Omnibus.OtherChainStopsLocalRelease`).
- A custody call whose reply is lost after its transaction was mined is answered with a failure although the tokens have
  moved; receipts tell what happened exactly unless that happens (`EscrowRuns.ReceiptTellsIff`), and a caller who sends a
  transfer again moves the tokens twice for one receipt (`LostReplyMovesTwice`). Over a run the receipts give the books
  at every moment if and only if no such reply is lost (`AlwaysToldIff`).
- USD and USDC match each other on a leg, so the instructions of one loan can name two assets for it. Positions net to
  zero in each, but they follow the leg's counts exactly if the leg names one asset
  (`LoanNetting.LegCountsAreAssetCountsIff`); `MixedSymbolsPart` is a loan lent in USD and paid back in USDC.
- Omnibus holds pass no operation context, so they always fail under a holder-reservation standard
  (`Omnibus.NoReservationsInThePool`).
- Gas prefunding counts a wallet once per spelling, and pays from a wallet that may itself be a signer. If all top-ups
  worked, the plan can be executed in any order without a signer running dry if and only if no account signs under two
  spellings and the funding wallet signs nothing or is the last signer to come up
  (`GasGuarantee.PlanNeverRunsDryIff`); `TwoSpellingsUnderfund` and `FunderIsDrained` are plans on which either fails.
- src/services/plan-approval/option.ts documents that an option that throws rejects the plan; in the code only a gating
  one does, and the model follows the code.
- Redaction can leave a secret over: in some environment and for some line, exactly if the secret occurs in the marker
  `[redacted]`, has the marker inside, or shares an end with it (`Redaction.LeftOverIffTouches`, for every secret that
  does not use up all characters). No other secret and no escaped form of one is ever left (`NoSecretLeft`,
  `EscapedIsClear`).

## Assumptions

- One consistent node, no reorganisations, no fee-on-transfer tokens; a clock that advances by at least the poll
  interval per sleep.
- `formatUnits` and `parseUnits` are ethers' (modelled in `Amounts.dfy`). ethers also rejects more than 80 decimals and
  values beyond its 512-bit range; the model has neither check. An ERC20 states its decimals as a uint8, so results that
  go through these two functions are about the decimals ethers accepts. Custody and escrow results hold for any
  `parseUnits`.
- Correlation ids never repeat, and one-time addresses are controlled by the watcher alone.
- A token standard does what its hold model says in src/integrations/token-standards/registry.ts:3-15: under
  escrow-transfer hold and release are transfers to and from the escrow wallet; under holder-reservation a hold needs
  an operation id, and a release or redemption settles the reservation of that id for the whole quantity.
- The internal ledger undoes an operation it is told has failed, as docs/omnibus-mode.md:78 says. Nobody but the delegate
  moves tokens out of the pool's wallets, and the receipt the delegate is shown is the chain's own.
- What an instruction moves is the token its asset id is mapped to (src/services/custody/token-service.ts:97-105);
  assets of one id are one token, whatever type a term gives them.
- A gas top-up that throws before a standard's call counts as a call that throws without a transaction.
- Addresses and names are ASCII, so upper and lower case are those of ASCII.

## Model

| member | source | states |
|---|---|---|
| LegacyMigrationSafety.NoTableLost | src/legacy-migration.ts:49-86 | for any rename lists, interleaving and faults, every table keeps its rows under exactly one name, and no other table appears |
| LegacyMigrationSafety.ExistingDestinationKept | src/legacy-migration.ts:59-65 | a name that no list renames away keeps its own table, whoever else wants the name |
| LegacyMigrationShared.AllOrNothing | src/legacy-migration.ts:32-46 | with one shared list from legacy names only, the catalog is the initial or the fully renamed one, and a replica that reports success implies the latter |
| LegacyMigrationShared.LosersRecover | src/legacy-migration.ts:73-85 | without outside faults nobody fails or rolls back, and whoever reaches the catch block finds the new names in place |
| LegacyMigrationSeen.GoesOnOverWhatItSaw | src/legacy-migration.ts:56-85 | over every run with any lists: whatever entry a replica has come past it saw, at moments of that run, the source missing or the destination present at its check, or it renamed it, or it saw the source missing and the destination present in the catch block |
| LegacyMigrationRace.SecondListFails | src/legacy-migration.ts:73-85 | two adapters with different destinations race for one legacy table without any fault: the first commits, the second finds neither name and fails |
| LegacyMigrationProgress.NoWaitCycle | src/legacy-migration.ts:36-38 | no wait-for cycle is reachable, since locks are taken in list order |
| LegacyMigrationProgress.SomeoneCanAct | src/legacy-migration.ts:36-46 | in every reachable state with a live replica some replica can act |
| LegacyMigrationProgress.RunsAreBounded | src/legacy-migration.ts:21-94 | every run is no longer than the work its replicas begin with |
| LegacyMigrationProgress.FleetAdopts | src/legacy-migration.ts:21-47 | without outside faults a run that can go no further has every replica succeed and exactly the new names |
| LegacyMigrationReplica.AdoptionNamesDiffer | src/legacy-migration.ts:26-29 | the four names of the list differ if and only if the schema is not a legacy prefix |
| LegacyMigrationAlone.AloneIsSequential | src/legacy-migration.ts:32-72 | whatever its list, a replica alone succeeds, and commits the entries one after the other, skipping those without a source or with a destination |
| LegacyMigrationAlone.AloneAdoptsIff | src/legacy-migration.ts:26-38 | booting alone on a database with both legacy tables it leaves every table under its new name if and only if the schema is not the vanilla service's legacy name |
| LegacyMigrationAlone.VanillaSchemaIsNotAdopted | src/legacy-migration.ts:59-65 | the run with that schema: success is reported, and the adapter's table still has its legacy name |
| LegacyMigrationReplica.Server.AdoptLegacyMigrationTables | src/legacy-migration.ts:21-47 | the program walks the protocol's own steps: it returns only after its COMMIT, each entry skipped over what its check saw, renamed, or recovered over what its catch block saw, and throws only once rolled back |
| LegacyMigrationReplica.Server.RenameLegacyTable | src/legacy-migration.ts:49-86 | one rename ends at the next one's first query, the entry skipped, renamed or recovered over what was seen, or in an exception that rolls the transaction back |
| LegacyMigrationReplica.Server.TryRename | src/legacy-migration.ts:69-72 | the try block completes the rename or leads to the catch block, whatever is refused |
| LegacyMigrationReplica.Server.CatchRename | src/legacy-migration.ts:73-85 | the catch block goes on only if, at moments of the run, it saw the source missing and the destination present; else the whole transaction aborts |
| LegacyMigrationReplica.Server.TableExists | src/legacy-migration.ts:88-94 | the answer is what the session sees: the committed catalog with its own renames on top |
| Amounts.AmountRoundTrip | src/integrations/deposits/ota-deposit/balance-watcher.ts:79-86 | for every amount and every number of decimals ethers accepts, parsing the text a watcher reports gives the amount back |
| Amounts.FormattedSo | src/integrations/deposits/ota-deposit/balance-watcher.ts:81-84 | every amount is written with a minus exactly if negative, a whole part without needless zeros and, if there are decimals, a point and at least one digit without needless zeros at the end |
| Amounts.ReadIff | src/integrations/deposits/ota-deposit/balance-watcher.ts:58-60 | a whole part and a fraction are read exactly if the digits base units have no room for are zeros, and as the digits there is room for |
| Amounts.ExpectsWhatItSays | src/integrations/deposits/ota-deposit/balance-watcher.ts:58-64 | the text of an amount, in any number of decimals ethers accepts, is read as exactly that amount |
| OtaSafety.CallbacksAreSweeps | src/integrations/deposits/ota-deposit/balance-watcher.ts:66-89 | under every interleaving each callback is one confirmed sweep of its own, of exactly the base units reported, for that deposit |
| OtaSafety.ClosedOnlyAfterSweep | src/integrations/deposits/ota-deposit/balance-watcher.ts:56-78 | no deposit is closed before a confirmed sweep, of no less than the units it was announced with; one whose announcement cannot be read is never closed |
| OtaRounds.SweepsExactlyWhenCovered | src/integrations/deposits/ota-deposit/balance-watcher.ts:51-108 | from timer to callback, an undisturbed round empties the one-time address into the target, reports exactly its balance and closes the deposit if the balance is positive, no less than the announced units if any were announced, and there is a gas station; otherwise deposits, tokens and reports stay as they were |
| OtaRounds.SweptAsAnnounced | src/integrations/deposits/ota-deposit/balance-watcher.ts:57-64 | the same in terms of the announced text: without one any balance is swept, a text that names an amount is waited for in full, one that cannot be read is never swept |
| OtaRounds.SweptOnlyWhenCovered | src/integrations/deposits/ota-deposit/balance-watcher.ts:57-108 | under every interleaving each confirmed sweep is of a positive amount, no less than the announced units, never of an announcement that cannot be read, and there is a gas station |
| OtaRounds.NeverSweptShort | src/integrations/deposits/ota-deposit/balance-watcher.ts:60-64 | however polls overlap, a deposit announced with the text of an amount is never swept for less |
| OtaRounds.LostReceiptIsNeverReported | src/integrations/deposits/ota-deposit/balance-watcher.ts:66-108 | whatever the deposit, if the receipt of its sweep is lost the tokens are at the target, the deposit stays open, and the next round finds nothing and reports nothing |
| OtaTotals.SweepMovesExactly | src/integrations/deposits/ota-deposit/balance-watcher.ts:92-108 | a confirmed sweep moves exactly its amount from the one-time address to the target and changes no other account |
| OtaTotals.ReportsNeverExceedArrivals | src/integrations/deposits/ota-deposit/balance-watcher.ts:51-108 | what is reported for a deposit is at most what was swept for it, and that at most what ever reached its address |
| OtaTotals.ReportedAtMostOnce | src/integrations/deposits/ota-deposit/balance-watcher.ts:51-90 | if polls of one deposit never overlap, no deposit is reported twice |
| OtaOverlap.GuardPreventsOverlap | src/integrations/deposits/ota-deposit/balance-watcher.ts:51-65 | if no timer fires while a poll of its deposit is still reading the balance, the in-flight mark and the closed deposit keep polls from overlapping |
| OtaBalanceWatcher.BalanceWatcher.AddDeposit | src/integrations/deposits/ota-deposit/balance-watcher.ts:32-41 | adds the deposit and its timer, as one step of the model |
| OtaBalanceWatcher.BalanceWatcher.Stop | src/integrations/deposits/ota-deposit/balance-watcher.ts:43-49 | drops the deposit, its timer and its in-flight mark and nothing else |
| OtaBalanceWatcher.BalanceWatcher.PollOnce | src/integrations/deposits/ota-deposit/balance-watcher.ts:51-56 | a poll starts unless one is in flight or the deposit is gone |
| OtaBalanceWatcher.BalanceWatcher.ResumeWithBalance | src/integrations/deposits/ota-deposit/balance-watcher.ts:57-68 | goes on to the sweep exactly if the balance is positive and no less than what was announced and there is a gas station, and sets the mark only then |
| OtaBalanceWatcher.BalanceWatcher.ResumeWithGas | src/integrations/deposits/ota-deposit/balance-watcher.ts:99-101 | the sweep of the balance seen is submitted |
| OtaBalanceWatcher.BalanceWatcher.ResumeWithReceipt | src/integrations/deposits/ota-deposit/balance-watcher.ts:69-86 | a confirmed sweep closes the deposit and is reported, a failed one keeps it open |
| OtaBalanceWatcher.BalanceWatcher.ResumeAfterCallback | src/integrations/deposits/ota-deposit/balance-watcher.ts:87-89 | the in-flight mark is cleared when the callback has returned |
| OtaBalanceWatcher.BalanceWatcher.ResumeWithError | src/integrations/deposits/ota-deposit/balance-watcher.ts:66-89 | a thrown call ends the poll; past the try the mark is cleared |
| PullSafety.OneOpenAndBackedReports | src/integrations/deposits/pull-deposit/approval-watcher.ts:49-58 | in every reachable state at most one open deposit per contract up to case, and each report is one confirmed transferFrom of exactly the reported amount |
| PullSafety.FoundIsOpen | src/integrations/deposits/pull-deposit/approval-watcher.ts:133-140 | the matching deposit is an open one of the contract and the oldest, and there is one exactly if any is open |
| PullSafety.PullMovesExactly | src/integrations/deposits/pull-deposit/approval-watcher.ts:170-175 | a confirmed transferFrom moves exactly its amount from the approval's owner to the destination |
| PullAmounts.PullsAreCalledFor | src/integrations/deposits/pull-deposit/approval-watcher.ts:149-170 | under every interleaving each transferFrom is of exactly the announced amount, or else of what an Approval event says, and from the owner of such an event on that contract |
| PullAllowance.PulledOnlyWhenAllowed | src/integrations/deposits/pull-deposit/approval-watcher.ts:149-170 | under every interleaving each confirmed transferFrom goes back to an answer of the chain, to one activation, that the very owner allowed at least its amount |
| PullAllowance.PullsExactlyWhenAllowed | src/integrations/deposits/pull-deposit/approval-watcher.ts:142-177 | from a log to the mined transfer, an undisturbed poll pulls the desired amount exactly if an open deposit matches, its expectation can be read, and allowance and balance cover it |
| PullRuns.Fetches | src/integrations/deposits/pull-deposit/approval-watcher.ts:85-107 | an undisturbed poll from its timer on has in hand exactly the matching logs between cursor and head, and marks its contract |
| PullSafety.ReportsNeverExceedPulls | src/integrations/deposits/pull-deposit/approval-watcher.ts:142-189 | under any interleaving the total reported for a destination is at most the confirmed value delivered there |
| PullBalances.BalancesAddUp | src/integrations/deposits/pull-deposit/approval-watcher.ts:142-189 | over every run a holder's balance is what it was plus what was pulled to it less what was pulled from it, plus what others moved |
| PullBalances.ReportedIsThere | src/integrations/deposits/pull-deposit/approval-watcher.ts:142-189 | over every run a destination's balance has grown by no less than the reports for it say, apart from what others moved and what was pulled from it |
| PullCoverage.NoApprovalSkipped | src/integrations/deposits/pull-deposit/approval-watcher.ts:85-123 | under every interleaving each Approval log between the seed and the cursor was handled without a throw |
| PullCoverage.StepKeepsSeedsInOrder | src/integrations/deposits/pull-deposit/approval-watcher.ts:60-75 | while seedings of a contract do not overlap, each session starts at or after every earlier one |
| PullSessions.SessionCovered | src/integrations/deposits/pull-deposit/approval-watcher.ts:60-123 | while seedings of a contract do not overlap, in every state of a session each Approval log after the session's own seed up to the cursor was handled without a throw |
| PullSessions.NeverOverlapIff | src/integrations/deposits/pull-deposit/approval-watcher.ts:49-75 | seedings of a contract never overlap if and only if no deposit is accepted on it while an earlier addDeposit has not returned, and then no timer is lost track of |
| PullSessions.AddedInTurnIsCovered | src/integrations/deposits/pull-deposit/approval-watcher.ts:49-123 | coverage from the session's own seed under that condition on the caller alone |
| PullPassedOver.AddedTooEarlyIsPassedOver | src/integrations/deposits/pull-deposit/approval-watcher.ts:56-75 | from every reachable state in which a deposit is accepted while an earlier addDeposit on its contract is unanswered, a continuation in which an approval after the deposit's own seed is passed over |
| PullSeedWitness.OverlappingSeedingsPassOver | src/integrations/deposits/pull-deposit/approval-watcher.ts:60-75 | a run in which overlapping seedings move the cursor past an approval that came after the open deposit's own seed, and leave two timers of which one is known |
| PullStranded.OpenIsAttended | src/integrations/deposits/pull-deposit/approval-watcher.ts:49-83 | in every reachable state the contract of an open deposit has a timer or a seeding on its way, unless a seeding of that contract failed |
| PullStranded.StrandedForGood | src/integrations/deposits/pull-deposit/approval-watcher.ts:49-93 | once a deposit is open with no timer, seeding or activation of its contract left, it stays open in every continuation, nothing polls for it and no other deposit is accepted |
| PullStranded.FailedSeedingStrands | src/integrations/deposits/pull-deposit/approval-watcher.ts:56-66 | whatever the deposit, adding it and failing to get the block number leaves it so |
| PullOnce.PulledOnceUnlessLost | src/integrations/deposits/pull-deposit/approval-watcher.ts:142-189 | if polls of a contract do not overlap, a deposit is reported at most once and pulled at most once more than its transactions were lost sight of |
| PullOverlap.GuardPreventsOverlap | src/integrations/deposits/pull-deposit/approval-watcher.ts:85-107 | if no timer fires while a poll of its contract is still fetching, the in-flight mark keeps polls from overlapping |
| PullWitness.LostReceiptPullsAgain | src/integrations/deposits/pull-deposit/approval-watcher.ts:108-177 | from every state in which a deposit's allowance and balance cover what is desired twice, a continuation without overlap pulls it twice, because a receipt never came back |
| PullWitness.LostReceiptPullsTwice | src/integrations/deposits/pull-deposit/approval-watcher.ts:170-177 | from the start: 100 of one approval of 200 are pulled twice, the chain answering 200 and then the 100 that are left |
| PullApprovalWatcher.ApprovalWatcher.HasOpenDepositFor | src/integrations/deposits/pull-deposit/approval-watcher.ts:125-131 | true exactly if some open deposit is on the contract up to case |
| PullApprovalWatcher.ApprovalWatcher.FindMatchingDeposit | src/integrations/deposits/pull-deposit/approval-watcher.ts:133-140 | the loop finds the oldest open deposit, the earlier entry on a tie |
| PullApprovalWatcher.ApprovalWatcher.AddDeposit | src/integrations/deposits/pull-deposit/approval-watcher.ts:49-62 | refuses a second deposit on the contract, else stores it and starts seeding unless a timer runs |
| PullApprovalWatcher.ApprovalWatcher.ResumeSeeding | src/integrations/deposits/pull-deposit/approval-watcher.ts:66-74 | seeds the cursor one block back and starts the timer |
| PullApprovalWatcher.ApprovalWatcher.Stop | src/integrations/deposits/pull-deposit/approval-watcher.ts:77-83 | clears the timer it knows, the timer entry and the cursor |
| PullApprovalWatcher.ApprovalWatcher.PollOnce | src/integrations/deposits/pull-deposit/approval-watcher.ts:85-93 | skips while a batch is in flight, stops when nothing is open, else asks from the block after the cursor |
| PullApprovalWatcher.ApprovalWatcher.ResumeWithHead | src/integrations/deposits/pull-deposit/approval-watcher.ts:93-94 | nothing to do below the first block wanted |
| PullApprovalWatcher.ApprovalWatcher.ResumeWithLogs | src/integrations/deposits/pull-deposit/approval-watcher.ts:96-107 | an empty range moves the cursor, a batch sets the in-flight mark |
| PullApprovalWatcher.ApprovalWatcher.TakeNextLog | src/integrations/deposits/pull-deposit/approval-watcher.ts:109-122 | one log after the other; only the whole batch moves the cursor |
| PullApprovalWatcher.ApprovalWatcher.ResumeWithAllowance | src/integrations/deposits/pull-deposit/approval-watcher.ts:150-160 | waits for more while the allowance is below what is desired |
| PullApprovalWatcher.ApprovalWatcher.ResumeWithGas | src/integrations/deposits/pull-deposit/approval-watcher.ts:167-170 | submits transferFrom of what is desired |
| PullApprovalWatcher.ApprovalWatcher.ResumeWithReceipt | src/integrations/deposits/pull-deposit/approval-watcher.ts:171-188 | a confirmed pull closes the deposit, stops polling if it was the last, and is reported |
| PullApprovalWatcher.ApprovalWatcher.ResumeAfterCallback | src/integrations/deposits/pull-deposit/approval-watcher.ts:181-189 | on to the next log |
| PullApprovalWatcher.ApprovalWatcher.ResumeWithError | src/integrations/deposits/pull-deposit/approval-watcher.ts:108-122 | a throw leaves the cursor where it is and clears the mark of a batch |
| TokenStandards.TokenStandardRegistry.Register | src/integrations/token-standards/registry.ts:30-36 | accepts a name exactly if no lookup of it succeeds, then stores its hold model, else changes nothing |
| TokenStandards.FirstRegistrationAnswers | src/integrations/token-standards/registry.ts:30-54 | after any registrations, refused ones included, a lookup answers exactly if some registration has the name up to case, and then with the model of the first such one |
| TokenStandards.TokenStandardRegistry.Has | src/integrations/token-standards/registry.ts:56-58 | true exactly if the lookup succeeds |
| TokenStandards.TokenStandardRegistry.Reset | src/integrations/token-standards/registry.ts:65-67 | forgets every registration |
| Custody.LedgerAccountAddress | src/services/accounts/account-resolver.ts:11-26 | the address of a wallet or of an account of this chain, nothing for any other account, an error exactly for a caip10 account of another chain |
| Custody.ChainNamed | src/services/accounts/account-resolver.ts:16-20 | a network written as eip155 and the digits of a chain id names this chain exactly if the ids are equal, and one without an id names none |
| Custody.DestinationAddress | src/services/custody/token-service.ts:217-219 | a mapped finId is paid at its address whatever account the instruction carries, any other at exactly the wallet or the account of this chain that is carried; an error exactly if there is no such address or it is empty |
| Custody.ResolveSourceWallet | src/services/custody/token-service.ts:107-122 | the wallet of the custody account if the full account names one and the provider makes such wallets, else the one that signs for the full account's address or, without a full account, the mapped one; an error exactly if there is no such wallet |
| Custody.MappedWhateverIsCarried | src/services/custody/token-service.ts:217-326 | an issue, transfer or release to a mapped finId has the same receipt and ledgers whatever account it carries |
| CustodyService.CustodyTokenService.Issue | src/services/custody/token-service.ts:208-228 | receipt and ledgers are those of the call's specification, whether the standard refuses, answers, or throws before or after its transaction was mined |
| CustodyService.CustodyTokenService.Transfer | src/services/custody/token-service.ts:230-253 | receipt and ledgers are those of the call's specification, whether the standard refuses, answers, or throws before or after its transaction was mined |
| CustodyService.CustodyTokenService.Redeem | src/services/custody/token-service.ts:255-294 | settles a reservation, burns from escrow, or burns from the source, by hold model and operation id, whatever becomes of the standard's call |
| CustodyService.CustodyTokenService.Hold | src/services/custody/token-service.ts:296-316 | receipt and ledgers are those of the call's specification, whether the standard refuses, answers, or throws before or after its transaction was mined |
| CustodyService.CustodyTokenService.Release | src/services/custody/token-service.ts:318-338 | receipt and ledgers are those of the call's specification, whether the standard refuses, answers, or throws before or after its transaction was mined |
| CustodyService.CustodyTokenService.Rollback | src/services/custody/token-service.ts:340-358 | receipt and ledgers are those of the call's specification, whether the standard refuses, answers, or throws before or after its transaction was mined |
| Custody.ServedOnItsContract | src/services/custody/token-service.ts:97-105 | a call on a registered asset changes the ledger of its own contract and no other, by the standard registered for it, the quantity read in the asset's decimals; any other call changes nothing |
| EscrowRefinement.PostConserves | src/integrations/token-standards/registry.ts:3-15 | the abstract ledger creates and destroys tokens only by minting and burning |
| EscrowRefinement.ActRefines | src/services/custody/token-service.ts:266-291 | under either model one disciplined act succeeds or fails as the abstract ledger does and keeps agreement |
| EscrowRuns.RunRefines | src/services/custody/token-service.ts:230-358 | every disciplined run under either model gives the receipts of the abstract ledger and ends in agreement with it |
| EscrowRuns.ModelsAgree | src/integrations/token-standards/registry.ts:3-15 | the two models answer every call alike and leave every investor the same balance and the same supply |
| EscrowRuns.EscrowHoldsOpenHolds | src/integrations/token-standards/registry.ts:7-8 | under escrow-transfer the escrow balance is the sum of the open holds, and with the investors' balances the supply |
| EscrowRuns.ReceiptTellsIff | src/services/custody/token-service.ts:224-227 | a receipt tells what happened to the ledger exactly unless the reply to a call that was mined and changed something was lost |
| EscrowRuns.ReceiptsTellTheLedger | src/services/custody/token-service.ts:208-358 | over every disciplined run without such a loss the receipts alone give the books the ledger agrees with |
| EscrowRuns.AlwaysToldIff | src/services/custody/token-service.ts:208-358 | the receipts so far give the books at every moment of a run if and only if no reply to an effective mined call was lost |
| EscrowRuns.LostReplyMovesTwice | src/services/custody/token-service.ts:230-253 | whatever the transfer, if its reply is lost and it is sent again, the tokens move twice and one receipt says so |
| EscrowRuns.IssueBooks | src/services/custody/token-service.ts:208-228 | issuing succeeds exactly with an issuer and a quantity, and credits the address the destination is paid at, and the supply |
| EscrowRuns.TransferBooks | src/services/custody/token-service.ts:230-253 | a transfer succeeds exactly if the address the source's wallet signs for holds the quantity, and moves it to the address the destination is paid at |
| EscrowRuns.HoldBooks | src/services/custody/token-service.ts:296-316 | a hold of a fresh operation succeeds exactly if the address the source's wallet signs for holds the quantity, and sets it aside |
| EscrowRuns.SettleBooks | src/services/custody/token-service.ts:318-358 | releasing that hold leaves the books of a direct move to the address the destination is paid at, rolling it back those of one to the source's mapped address |
| EscrowRuns.UnresolvedChangesNothing | src/services/custody/token-service.ts:208-358 | an operation whose source nobody signs for, or whose destination is paid nowhere, fails and leaves the ledger as it was |
| EscrowRuns.RedeemBooks | src/services/custody/token-service.ts:282-288 | a redeem without an operation burns the quantity at the source's own address, exactly if it is there |
| EscrowRuns.RedeemHeldBooks | src/services/custody/token-service.ts:266-280 | redeeming a hold always succeeds and leaves the books of a direct burn |
| EscrowRuns.HoldThenReleaseIsTransfer | src/services/custody/token-service.ts:296-338 | hold then release succeeds exactly when the transfer does and leaves the same ledger |
| EscrowRuns.HoldThenRollbackIsNothing | src/services/custody/token-service.ts:340-358 | hold then rollback changes nothing |
| EscrowRuns.HoldThenRedeemIsRedeem | src/services/custody/token-service.ts:255-294 | hold then redeeming the operation leaves the ledger of a direct redeem |
| EscrowRuns.ContextMatters | src/services/operations/operation-context.ts:22-22 | without an execution context a reserving standard neither holds nor settles, and a moving one does not notice |
| Omnibus.NoReservationsInThePool | src/services/omnibus/omnibus-delegate.ts:190-190 | pooled holds, releases and rollbacks always fail under a holder-reservation standard |
| Omnibus.OtherChainStopsLocalRelease | src/services/omnibus/omnibus-delegate.ts:209-215 | a release to a local investor with a caip10 account fails if the account is of another chain, and is otherwise paid as without an account |
| Omnibus.ReportedAmountAcceptedIff | src/services/omnibus/omnibus-delegate.ts:117-166 | a reported amount is accepted exactly for a successful, final transaction to the asset's contract whose first transfer to the omnibus wallet is of that amount |
| Omnibus.TopicNamesAddress | src/services/omnibus/omnibus-delegate.ts:140-146 | on padded addresses the suffix test is equality up to case |
| OmnibusBacking.StepBacked | src/services/omnibus/omnibus-delegate.ts:67-243 | every event, lost replies and claims of whatever mined transaction however often included, keeps wallets and books apart by exactly the gaps, and only outbound transfers and releases to another organisation that succeeded reduce what investors can claim |
| OmnibusBacking.RunBacked | src/services/omnibus/omnibus-delegate.ts:67-243 | over every run omnibus plus escrow tokens are claims plus what has arrived and is not credited plus the gaps the listed events made |
| OmnibusBacking.ExactlyBackedIff | docs/omnibus-mode.md:61-171 | at every moment of a run omnibus holds what is available and uncredited and escrow what is locked, if and only if no event of the run is one of those that part them |
| OmnibusBacking.FallsShortIff | src/services/omnibus/omnibus-delegate.ts:67-179 | the pool as a whole falls short on an event if and only if it is a payment to the outside whose reply is lost, or a claim of a positive amount for a transaction credited before or on a log that is not the asset contract's or comes from the pool, without enough besides |
| OmnibusBacking.NeverShort | src/services/omnibus/omnibus-delegate.ts:67-179 | over a run without such an event the pool never holds less than what investors can claim and what is uncredited |
| OmnibusWitness.PaidToThePool | src/services/omnibus/omnibus-delegate.ts:72-79 | an outbound transfer that names the omnibus wallet leaves the pool over-backed by its amount |
| OmnibusWitness.ReplyLost | src/services/omnibus/omnibus-delegate.ts:79-80 | an outbound transfer whose reply is lost: the books are as before and the tokens are gone |
| OmnibusBacking.InboundBacked | src/services/omnibus/omnibus-delegate.ts:173-179 | a verified claim of any mined transaction credits what its first matching log says and changes the gap by what was due less that |
| OmnibusInbound.CreditIsCoveredIff | src/services/omnibus/omnibus-delegate.ts:142-170 | whatever amount the believed log shows, no more is credited than is due if and only if the transaction was not credited before, the asset's contract emitted the log, and its sender is no wallet of the pool |
| OmnibusInbound.CreditIsWhatArrivedIff | src/services/omnibus/omnibus-delegate.ts:142-170 | whatever amount the believed log shows, exactly what is due is credited if and only if, besides, the transaction brought nothing else to the omnibus wallet |
| OmnibusInbound.ClaimDrifts | src/services/omnibus/omnibus-delegate.ts:140-166 | a verified claim credits the amount the claimant named, and changes the gap by the other logs' arrivals, less the credit if the log was not from outside; by the credit alone if it was claimed before |
| OmnibusInbound.ForeignLogIsCredited | src/services/omnibus/omnibus-delegate.ts:133-166 | a receipt, verified and credited, of which nothing arrived: another token's transfer logged in a call to the asset's contract |
| OmnibusInbound.OwnTransferIsCredited | src/services/omnibus/omnibus-delegate.ts:117-179 | whatever the rollback or local release: claimed as a deposit, its transaction passes every check and credits its amount again, and the pool is short by it |
| OmnibusInbound.ClaimedAgain | src/services/omnibus/omnibus-delegate.ts:117-179 | whatever claim was verified is verified again and credits its amount again with nothing due |
| OmnibusWitness.RollbackIsClaimed | src/services/omnibus/omnibus-delegate.ts:227-243 | a hundred on hold are rolled back to one investor and the rollback is claimed for another: claims of two hundred on one hundred tokens |
| OmnibusBacking.CoveredIsNeverShort | docs/omnibus-mode.md:61-171 | as long as no wallet falls short, an operation goes ahead exactly if the internal ledger has the quantity available, or set aside under that hold, and there is somebody to pay |
| OmnibusClaims.PooledMoves | src/services/omnibus/omnibus-delegate.ts:79-238 | outbound moves the quantity from omnibus to the address the destination is paid at, a hold to escrow, a release from escrow to omnibus if the finId is mapped to an address and else to the address carried, a rollback back to omnibus, and no other wallet changes |
| OmnibusClaims.ClaimsChange | docs/omnibus-mode.md:61-171 | each event changes each investor's claim by exactly what it says: holds and rollbacks by nothing, payments by their amount |
| OmnibusClaims.ClaimsOverRuns | docs/omnibus-mode.md:61-171 | over every run an investor's claim is what it was plus what was paid to them less what they paid |
| OmnibusDelegates.OmnibusDelegate.OutboundTransfer | src/services/omnibus/omnibus-delegate.ts:67-84 | the omnibus wallet has paid the address the destination is paid at if the call was mined, otherwise nothing has changed; success exactly if the standard answered, and only if there is such an address |
| OmnibusDelegates.OmnibusDelegate.Hold | src/services/omnibus/omnibus-delegate.ts:181-195 | moves the quantity from omnibus to escrow if the call was mined, otherwise changes nothing; success exactly if the standard answered |
| OmnibusDelegates.OmnibusDelegate.Release | src/services/omnibus/omnibus-delegate.ts:197-225 | if mined, pays escrow tokens back to the pool for a local investor, to the counterparty's account otherwise; success exactly if the standard answered |
| OmnibusDelegates.OmnibusDelegate.Rollback | src/services/omnibus/omnibus-delegate.ts:227-243 | if mined, pays escrow tokens back to the pool, otherwise changes nothing; success exactly if the standard answered |
| OmnibusDelegates.OmnibusDelegate.WaitForFinalizedBlock | src/services/omnibus/omnibus-delegate.ts:94-115 | ends at the first answer that decides -- a throw, a block at or past the transaction's, or any at or past the deadline -- with what it says, after a bounded number of them |
| OmnibusDelegates.OmnibusDelegate.VerifyReceiptOnChain | src/services/omnibus/omnibus-delegate.ts:117-166 | the verdict on the receipt; finality is not waited for exactly if there is no successful receipt or it is not required, and otherwise is the first decisive answer for the receipt's block |
| Intents.AdmittedIff | src/services/onchain/helpers.ts:258-349 | for all eight intents a request is admitted exactly if the message speaks of the asset, the parties are giver and taker, exchanged when one of leg-pays and loan-closing is set, and the quantity is the one due |
| Intents.RefusedFor | src/services/onchain/helpers.ts:258-349 | a refusal names the first thing that is wrong: a message that does not speak of the asset, then the destination, the source, the quantity |
| Intents.Decoded | src/services/onchain/helpers.ts:63-214 | decoding succeeds exactly for supported intents with a term about the asset, and yields giver, taker, terms, leg, primary type and phase; the release type is a burn exactly for a transfer, redemption or move to nobody |
| OperationContexts.BurnsIff | src/services/operations/operation-context.ts:45-52 | a hold is marked for burning exactly if its destination is absent or empty and it has no EIP712 signature or one of a transfer, redemption or move |
| OperationContexts.ContextBuilt | src/services/operations/operation-context.ts:15-38 | a context exactly with an execution context, with the caller's operation id and release type; without an EIP712 signature the asset leg and a transfer, closing exactly past sequence 4 |
| OperationContexts.ContextsMirror | src/services/operations/operation-context.ts:15-52 | both derivations give the same primary type, release type and operation id, and those the intent calls for, and the same phase exactly under the stated sequence condition |
| OperationContexts.LegsMirrorIff | src/services/operations/operation-context.ts:54-59 | the exact condition under which both derivations find the same leg |
| OperationContexts.LegsMirror | src/services/onchain/helpers.ts:49-61 | the legs agree whenever the on-chain match was by id and the two terms name different assets |
| OperationContexts.WellKnownSymbolsPart | src/services/onchain/helpers.ts:243-248 | an input on which the two derivations find different legs |
| LoanNetting.PositionsNet | src/services/onchain/helpers.ts:258-320 | after any admitted instructions each party's position in each asset is its share of what the counts of that asset per leg and phase say |
| LoanNetting.PositionsSumToZero | src/services/onchain/helpers.ts:258-320 | in every asset the two parties cancel and nobody else is touched |
| LoanNetting.OnlyCountsMatter | src/services/onchain/helpers.ts:258-320 | two sequences with equal counts of an asset leave equal positions in it |
| LoanNetting.LegCountsAreAssetCountsIff | src/services/onchain/helpers.ts:239-250 | the counts of a leg are those of an asset if and only if the leg's instructions name no other asset |
| LoanNetting.FullCycle | src/services/onchain/helpers.ts:158-176 | one full cycle with one asset to a leg returns the asset and moves exactly returned minus borrowed of the settlement asset from borrower to lender |
| LoanNetting.MixedSymbolsPart | src/services/onchain/helpers.ts:239-250 | a cycle lent in USD and paid back in USDC, admitted throughout: in neither asset is the position what the leg's counts say |
| Gas.GasStation.EnsureGas | src/services/gas-station/gas-station.ts:35-60 | success means the threshold is held; exactly the threshold is sent to a wallet below it, and works exactly if it can be paid and is mined in time; at most timeout over interval polls |
| Gas.FundMoves | src/services/gas-station/gas-station.ts:44-47 | a top-up moves its value from the funding wallet to the other and costs it the fee, and no other account notices |
| Gas.CountTransactions | src/services/plan-approval/options/gas-prefunding-option.ts:35-48 | counts per signer are the local transfers, holds and redeems it signs, and add up to all of them |
| Gas.Prefund | src/services/plan-approval/options/gas-prefunding-option.ts:24-50 | the top-ups of the counted signers in the order they came up; if none failed and the funding wallet signs nothing or comes last every signer holds the amount times its instructions, and in any case no more than the amount times all of them was sent |
| GasGuarantee.PlanNeverRunsDryIff | src/services/plan-approval/options/gas-prefunding-option.ts:28-49 | whatever the balances and the chain's behaviour: if all top-ups worked, executing the plan in any order at most the amount per transaction lets no signer run dry, if and only if no account signs under two spellings and the funding wallet signs nothing or comes up last |
| GasGuarantee.FundedSufficesIff | src/services/plan-approval/options/gas-prefunding-option.ts:28-29 | all funded signers can execute the plan in any order, whatever their balances, if and only if no account is counted under two spellings |
| GasGuarantee.SpellingsRunDry | src/services/plan-approval/options/gas-prefunding-option.ts:37-37 | for any counts with one account in two spellings: balances on which every top-up is content and the account runs dry |
| GasGuarantee.FunderDrained | src/services/plan-approval/options/gas-prefunding-option.ts:43-49 | for any counts with the funding wallet before another signer: balances on which every top-up works and the funding wallet runs dry |
| GasGuarantee.TwoSpellingsUnderfund | src/services/plan-approval/options/gas-prefunding-option.ts:37-37 | a plan of two transfers from one account in two spellings is not covered |
| GasGuarantee.FunderIsDrained | src/services/gas-station/gas-station.ts:44-47 | a plan with a transfer of the funding wallet's and then another's is not covered; the other way round it is |
| PlanApproval.ApprovePlan | src/services/plan-approval/configurable-plan-approval-service.ts:28-77 | rejected exactly if the base rejects, an option stops the plan, or it cannot be looked at and an option gates; otherwise the base's own result |
| PlanApproval.VerdictIgnoresOrder | src/services/plan-approval/configurable-plan-approval-service.ts:51-72 | the verdict does not depend on the order of the options |
| Plans.Introspects | src/services/plan-approval/plan-introspection.ts:43-61 | whatever the plan, each instruction the options see has the parties, addresses, asset, venue and amount of the one FinAPI sent |
| PlanApproval.ApprovedMeansWhitelisted | src/services/plan-approval/plan-introspection.ts:43-61 | from the raw plan: an approved plan's local instructions name only resolved, whitelisted investors on restricted assets |
| TokenWhitelisting.Apply | src/services/plan-approval/options/token-whitelisting-option.ts:47-85 | passes exactly if every local instruction on an asset kept here clears both parties |
| Vaults.AutoPaginate | src/vaults.ts:20-44 | collects exactly the concatenation of the pages up to the stop condition |
| Vaults.CompositeKeysAreInjective | src/vaults.ts:121-126 | composite keys of colon-free addresses are equal exactly if both addresses are, up to case |
| Vaults.CachesAreSearches | src/vaults.ts:97-131 | each cache answers the latest matching entry of everything scanned |
| VaultScans.IndexesAgree | src/vaults.ts:97-141 | in every reachable state at most one scan runs and both caches agree with a linear search |
| VaultScans.MissMeansNotScanned | src/vaults.ts:156-192 | a lookup comes back empty only after a complete scan that did not contain the address |
| VaultScans.HitMeansScanned | src/vaults.ts:156-192 | a lookup that comes back with an entry comes back with one that answers it |
| VaultScans.AnswersNeedAScan | src/vaults.ts:143-149 | nobody is answered before a first complete scan |
| VaultScans.FirstCallerIsServed | src/vaults.ts:134-165 | from the start, whatever a first scan comes upon: its caller is answered with what a linear search of it finds, waits for a second scan if that is nothing, and throws if the scan broke off |
| VaultManagement.VaultFunctions.Rescan | src/vaults.ts:134-141 | joins the running scan or starts one |
| VaultManagement.VaultFunctions.AskFor | src/vaults.ts:143-165 | before the first scan waits for it, afterwards looks up and rescans on a miss |
| VaultManagement.VaultFunctions.Found | src/vaults.ts:111-127 | an address found is put out and remembered in both caches |
| VaultManagement.VaultFunctions.ScanSettles | src/vaults.ts:136-138 | the shared promise is cleared when the scan settles |
| VaultManagement.VaultFunctions.ResumeLookup | src/vaults.ts:156-188 | the rest of a lookup once its scan has settled |
| Redaction.NoSecretLeft | src/redact-secrets.ts:36-45 | for any text, secrets and order, no secret that does not touch the marker occurs in the output |
| Redaction.NeverRecreated | src/redact-secrets.ts:42-42 | a replacement never brings back a secret that does not touch the marker |
| Redaction.EscapedIsClear | src/redact-secrets.ts:26-28 | if a secret does not touch the marker its JSON-escaped form does not |
| Redaction.LeftOverIffTouches | src/redact-secrets.ts:14-45 | some environment with the secret and some line leave it visible if and only if it occurs in the marker, has the marker inside, or shares an end with it |
| Redaction.SecretIff | src/redact-secrets.ts:4-24 | a variable is secret exactly if it is set to something and its key is the one listed or ends in one of the seven suffixes |
| Redaction.Redactor.CollectSecrets | src/redact-secrets.ts:21-32 | lists exactly the secret values and their escaped forms, each once, longest first |
| Redaction.Redactor.Sorted | src/redact-secrets.ts:30-31 | a permutation, longest first, in which strings of one length keep their order |
| Redaction.Redactor.GetSecrets | src/redact-secrets.ts:34-34 | collects once and then answers from the cache |
| Redaction.Redactor.Redact | src/redact-secrets.ts:36-45 | no secret of the environment that does not touch the marker, and no escaped form of one, is in the line written |
| InvestorWhitelists.LeftIsRefused | src/services/accounts/investor-whitelist-service.ts:61-81 | what is left after a sweep is what was there, less the swept entries that were not refused |
| InvestorWhitelists.SweepSplits | src/services/accounts/investor-whitelist-service.ts:66-75 | every asset is skipped, removed or refused |
| InvestorWhitelists.RemovedAreGone | src/services/accounts/investor-whitelist-service.ts:64-80 | the count is the number of entries that are gone |
| InvestorWhitelists.RefusedAre | src/services/accounts/investor-whitelist-service.ts:69-72 | the refused assets are those whose entry was there and whose removal is refused |
| InvestorWhitelists.RetryConverges | src/services/accounts/investor-whitelist-service.ts:57-60 | however far a sweep got before a fault, a retry ends where one undisturbed sweep ends |
| InvestorWhitelists.RepeatChangesNothing | src/services/accounts/investor-whitelist-service.ts:57-60 | a sweep after a whole sweep removes nothing and refuses the same assets |
| InvestorWhitelists.WhitelistShowsRefused | src/services/accounts/investor-whitelist-service.ts:89-100 | after a sweep the party's whitelist shows exactly the refused assets |
| InvestorWhitelists.ResolveParty | src/services/accounts/investor-whitelist-service.ts:102-112 | an address party is taken as it is, a finId is the non-empty address it is mapped to; an error exactly if there is none |
| InvestorWhitelists.CapableAsset | src/services/accounts/investor-whitelist-service.ts:127-137 | the first stored asset with the id, under a standard that supports whitelisting; an error exactly if there is none |
| InvestorWhitelists.InvestorWhitelistService.Dewhitelist | src/services/accounts/investor-whitelist-service.ts:61-81 | attempts every asset up to a fault, changes the whitelist as the sweep says, and reports the refusals and the count |
| InvestorWhitelists.InvestorWhitelistService.GetWhitelist | src/services/accounts/investor-whitelist-service.ts:89-100 | the capable assets the party is whitelisted for, in order |
| InvestorWhitelists.InvestorWhitelistService.ListCapable | src/services/accounts/investor-whitelist-service.ts:139-146 | the stored assets under standards that support whitelisting, in order |

## Left out

- HTTP wiring, environment parsing, boot composition, logging, message texts and the display fields of receipts: no invariant hangs on them.
- Fireblocks and DFNS calls, raw signing and nonce handling: they appear as calls that succeed, are refused or throw.
- The token-standard plugins and the FINP2POperator contract are not part of this model; the assumptions above stand for them.
- `createAsset`, `getDepositInstruction` and the balance queries of the custody and omnibus services: lookups that forward to a standard.
- `whitelist` and the country code of a whitelisted party: one forwarding call and one range check.
- Vault balances, gas funding between vaults and the rate-limit retries of src/vaults.ts: foreign calls repeated until they answer.
- Connecting to the database and BEGIN: a replica that fails there has touched nothing.
- Cycles of waiting replicas that boot with different schemas: the adapter gives all replicas of one deployment the same schema.
- A fetched log that the Approval interface cannot parse is skipped by the program; in the model every fetched log parses.
- The cached read-only signer of the custody service: it signs nothing that changes a ledger.
- Gas top-ups inside the pull watcher always come as a step, also when no gas station is configured; a missing callback is not modelled.
- EscrowRuns.RunRefines: speaks of disciplined runs only, since the standards' behaviour on a repeated operation id or a different quantity is not part of the repository.
- OmnibusBacking.RunBacked: the internal ledger's side is the one docs/omnibus-mode.md describes, as its code is not part of this model.
- Redaction.NoSecretLeft: JavaScript strings with unpaired surrogates are not modelled.
