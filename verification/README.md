# Verified model of the Kraken spot trading core

A Dafny model of the part of the repository that sends real orders on Kraken spot and keeps the books about them,
with proofs over every input, every run and every restart. Quantities, prices and clock readings are reals; what the
exchange, the clock and the operator answer are inputs.

| module | what it models |
|---|---|
| FifoLedger, FifoRefinement | the two FIFO replays and the peek, and their one meaning: a cost curve over all buys |
| ProfitGuard, ProfitAndLoss | the sell guard and what it is worth after full and partial fills; windowed and total profit |
| OrderLifecycle, LifecycleHistory, AliasRefinement | the lifecycle mirror, its event log, its alias map |
| SpotBooks, SpotLifecycle | all the spot service does to statuses, fills and mirror, as postings; the mirror inside the service |
| OrderLane, StatusAgreement | one order's part in those books, and when its kept status and its mirrored state agree |
| SpotOrders | exactly which orders calls and runs get accepted and at which price; what statuses, ids and readings mean |
| SpotService, SpotSafety, SpotRuns, SpotLedger | preflight and execute_intent with latches, storm trackers, dedupe maps and booking; effects of one call; theorems over runs |
| TimeoutClosure, TimeoutRuns | the record a timed-out order leaves, for one order and over runs |
| InventoryLots | the notional lots and their rebuild from the fill log |
| EventLog, BootRecovery, RestartDecision | sequence numbers over crashes, exchange-history rehydration, the restart decision |
| Governor | market assessment, truth confidence, health and the governor, as one fail-closed decision |

Where the source changes fields or loops, the model has classes and methods proved equal to a specification function
on values; the theorems are about those functions. `dafny verify dfyconfig.toml` checks everything.

Main results: FIFO refinement (`ReplayIsIdealFifo`, `SellChargedAlongCurve`), the sell guard (`PassIff`, `GuardedSellEarnsFloor`,
carried to runs by `SentSellsEarnTheFloor`), the exact condition for partial fills (`GuardedPiecesKeepFloorIff`, carried
to runs by `SentSellsKeepFloorInPiecesIff`), the exact conditions for agreement of status and mirror (`CallAgreesIff`,
`AgreementIff`, `AgreementKept`), `ReportedEndIsFinal`,
`WindowTelescopes`, `TotalProfitIdentity`, `EventSourcing`, `RunWideSafety`, `OutcomesAreIdeal`,
`CallPlacesExactly`, `OrdersArePriced`, `StatusMeans`, `KillTold`, `AcceptedBySource`, `UpdateAnswerIff`, `IdsAcceptedAtMostOnce`,
`FillsBookedAtMostOnce`, `StormsAreBounded`, `StormKillsIff`, `LatchesHold`, `OrdersAreValidatedSellsAreGuarded`,
`TimedOutOrdersAreClosed`, `NoRecordTimesOut`, `TerminalStatesStay`, `InventoryConserved`, `RebuildMatchesRun`,
`NumbersStrictlyIncrease`, `RehydratedAtMostOnce`, `RestoredIff`, `NextBootRebuildsTheSameLots`, `ContinueIff`,
`OrphanBootSendsOnlyReduceOnly`, `LiveFailClosed`, `VerdictFromSignals`, `TruthActionIff`.

Properties that one might expect and that the code does not have, each with its exact condition and, after the colon, a
case:

- a passed guard protects partial fills exactly when the lot boundaries are safe (`GuardedPiecesKeepFloorIff`):
  `PassedGuardLosingPiece`;
- a history is accepted exactly when each sell fits what is held plus 1e-9 (`AcceptedIff`), so oversells inside the
  tolerance pass: `OversellInsideTolerance`;
- an id resolves to its order exactly when it is a client id or was taught (`ResolvesIff`, `StepRefinesIff`):
  `UnlearnedIdSplitsOrder`;
- after an update, kept status and lifecycle mirror agree exactly when the mirror can follow (`UpdateAgreesIff`):
  `StatusAndMirrorCanDisagree`;
- after a fresh limit order they agree exactly on certain replies (`LimitAgreesIff`, for calls `CallAgreesIff`): not, for
  one, if it was answered NEW and its cancellation raised: `RaisedCancellationDisagrees`;
- one intent fingerprint is sent once exactly as long as it is read within 595 seconds of the start of its call
  (`IntentsSentAtMostOnce`): `LateReadingSendsTwice`;
- a timed-out order is closed exactly unless its reply missed the record and the cancellation raised
  (`TimedOutOrdersAreClosed`): `ReplaceReplyLeavesTimedOut`;
- in the service itself, a failed preflight blocks ordering exactly when it failed before the permissions were verified
  (`FailedPreflightAuthorisesIff`): `LeveragedPreflightStillSends`; the program around it, src/autonomous_investment_robot/core/orchestrator.py:1193-1198
  and src/autonomous_investment_robot/main.py:213-215, stops after any failed preflight and so never gets there;
- a start restores exactly the buys of the window (`RestoredIff`): `LostSellsStayLost`;
- a start is flatten-only exactly on insufficient confidence or a keyed unknown order (`FlattenOnlyIff`), so an order
  with an empty client id is no orphan: `EmptyClientIdIsNoOrphan`;
- more realised-profit gaps make the truth action milder in exactly one case (`RealizedGapMilderIff`);
- a demand to flatten is masked exactly by a market score under 0.2 (`FlattenKeptIff`), which no market assessment
  produces;
- the live loop passes the governor neither truth nor reconciliation, so they do not close its gate
  (`LiveIgnoresTruth`): `TruthDoesNotCloseTheLiveGate`;
- no assessment of market readings changes the size the governor permits, since its scores never fall under the override
  threshold (`LiveSizeFromSignals`);
- the cooldown after a kill never decides anything, because the kill latch is never cleared (`CooldownMeansKilled`).

Where the code and its surroundings differ the model follows the code: the table row for "no record" is never
consulted, RECOVERED is accepted from every other state, a repeated PARTIALLY_FILLED is a duplicate before the table is
read, the status text CLOSED maps to WORKING in the mirror although the service treats it as filled, and a market order
whose booking raises after it was accepted is tracked as a rejection.

## Model

| member | source | states |
|---|---|---|
| FifoLedger.Consume | src/autonomous_investment_robot/services/execution/live_kraken_spot_service.py:386-395 | The inner loop terminates and charges, leaves unfilled and keeps exactly what the recursive meaning of a FIFO sell says, dust tests included. |
| FifoLedger.ReconstructInventory | src/autonomous_investment_robot/services/execution/live_kraken_spot_service.py:372-419 | The replay loop returns the inventory of the recursive replay: lots, quantity, basis, average cost and realised total, or a refusal. |
| FifoLedger.PrefixAccepted | src/autonomous_investment_robot/services/execution/live_kraken_spot_service.py:396-405 | A history is refused as a whole once one sell exceeds the buys before it: every prefix of an accepted history is accepted. |
| FifoLedger.PeekIsCharge | src/autonomous_investment_robot/services/execution/live_kraken_spot_service.py:448-462 | The non-consuming peek of the sell guard quotes exactly the basis and the unfilled rest the consuming loop will charge, on any queue. |
| FifoLedger.BasisQuoteForQty | src/autonomous_investment_robot/services/execution/live_kraken_spot_service.py:448-462 | The peek loop returns that basis, or none when more than 1e-9 stays uncovered. |
| FifoLedger.AuthoritativeFillHistory | src/autonomous_investment_robot/services/execution/live_kraken_spot_service.py:464-537 | The filtered second replay returns the records and gaps of its specification, break, continue and empty-history cases included. |
| FifoLedger.StoppedStays | src/autonomous_investment_robot/services/execution/live_kraken_spot_service.py:497-499 | Once the gap branch was taken nothing after it matters. |
| FifoRefinement.TakeIsDrop | src/autonomous_investment_robot/services/execution/live_kraken_spot_service.py:386-395 | On multiples of 1e-8 a sell takes the front units of the queue: the cost curve is charged, the rest kept, no dust. |
| FifoRefinement.ReplayIsIdealFifo | src/autonomous_investment_robot/services/execution/live_kraken_spot_service.py:372-419 | On the lattice the replay accepts a history if and only if no prefix sells more than it bought; then its lots are all buys with the sold units removed from the front and its profit is proceeds minus the cost curve. |
| FifoRefinement.SellAlongCurve | src/autonomous_investment_robot/services/execution/live_kraken_spot_service.py:386-405 | One sell of q after S units have gone is refused exactly when S+q exceeds what was bought, and is charged C(S+q)-C(S). |
| FifoRefinement.AcceptedSell | src/autonomous_investment_robot/services/execution/live_kraken_spot_service.py:386-405 | An accepted sell stays within what was bought and is charged the increment of the cost curve. |
| FifoRefinement.SellChargedAlongCurve | src/autonomous_investment_robot/services/execution/live_kraken_spot_service.py:379-405 | Every sell of an accepted history is charged the increment of one cost curve, fixed by all buys of the whole history. |
| ProfitAndLoss.CoveredIff | src/autonomous_investment_robot/services/execution/live_kraken_spot_service.py:386-397 | For any real quantities the refusing branch is not taken exactly when the sell asks for at most what is held plus 1e-9. |
| ProfitAndLoss.AcceptedIff | src/autonomous_investment_robot/services/execution/live_kraken_spot_service.py:372-419 | Exactly which histories of real quantities are accepted: those where every sell fits what is held before it plus 1e-9. |
| ProfitAndLoss.NeverOversoldIsAccepted | src/autonomous_investment_robot/services/execution/live_kraken_spot_service.py:372-419 | In terms of trades alone: a history that never oversells is accepted, up to a thousand buys. |
| ProfitAndLoss.AcceptedOversellsWithinTolerance | src/autonomous_investment_robot/services/execution/live_kraken_spot_service.py:396-404 | An accepted history oversells at no point by more than 1e-9 per sell. |
| FifoRefinement.OversellInsideTolerance | src/autonomous_investment_robot/services/execution/live_kraken_spot_service.py:397-405 | A concrete history that oversells inside the tolerance and is accepted. |
| ProfitGuard.PassIff | src/autonomous_investment_robot/services/execution/live_kraken_spot_service.py:671-697 | Exactly which sells pass the guard, over doctrine, both looks at the books, free balance, FIFO basis, fee, slippage, bid and ask: the proceeds less fee, slippage and spread must exceed the basis by at least 1.2 percent or the configured floor. |
| ProfitGuard.PassMeansFloor | src/autonomous_investment_robot/services/execution/live_kraken_spot_service.py:671-697 | A passed guard means: history known, quantity covered to 1e-9, and proceeds less modelled exit cost less FIFO basis positive and at least the floor times the basis. |
| ProfitGuard.PassMeansHeld | src/autonomous_investment_robot/services/execution/live_kraken_spot_service.py:671-687 | A passed guard means: doctrine in force, both looks at the books trusted, the quantity within the free balance up to two percent, and proceeds above the FIFO basis. |
| ProfitGuard.Floor | src/autonomous_investment_robot/services/execution/live_kraken_spot_service.py:694-696 | The floor is never under 1.2 percent, whatever is configured. |
| ProfitGuard.GuardedSellEarnsFloor | src/autonomous_investment_robot/services/execution/live_kraken_spot_service.py:671-697 | End to end: extend the history by one sell at bid or better within the modelled cost, re-run the reconstruction, and realised profit has risen by at least the floor times the basis consumed; buys may land in between. |
| ProfitGuard.TakeIgnoresLaterLots | src/autonomous_investment_robot/services/execution/live_kraken_spot_service.py:448-462 | Lots bought after the guard do not change what a covered sell is charged. |
| ProfitGuard.PartialFillsKeepFloorIff | src/autonomous_investment_robot/services/execution/live_kraken_spot_service.py:685-697 | Every partial fill keeps the floor if and only if it holds at the lot boundaries inside the order. |
| ProfitGuard.NondecreasingCostsAreSafe | src/autonomous_investment_robot/services/execution/live_kraken_spot_service.py:685-697 | With unit costs nondecreasing along the queue a floor kept by the whole order is kept at every boundary. |
| ProfitGuard.SmallerSaleCheaperOnAverage | src/autonomous_investment_robot/services/execution/live_kraken_spot_service.py:448-462 | Convexity: with nondecreasing unit costs the average basis of a smaller sale is never higher. |
| ProfitGuard.FillsWalkTheCurve | src/autonomous_investment_robot/services/execution/live_kraken_spot_service.py:379-405 | Any series of fills walks the open lots from the front and earns at least its net price minus the cost curve. |
| ProfitGuard.PassOnLattice | src/autonomous_investment_robot/services/execution/live_kraken_spot_service.py:671-697 | On the lattice a passed guard means the quantity is held and the floor holds at net price. |
| ProfitGuard.GuardedPiecesKeepFloorIff | src/autonomous_investment_robot/services/execution/live_kraken_spot_service.py:671-697 | At the replay: every series of pieces at the bid or better and within the modelled cost keeps the floor if and only if the running surplus is nonnegative at the lot boundaries inside the order. |
| ProfitGuard.UnsafeBoundaryPiece | src/autonomous_investment_robot/services/execution/live_kraken_spot_service.py:671-697 | The converse by construction: if a boundary is unsafe, a single piece ending there, on the guard's own terms, realises less than the floor. |
| ProfitGuard.GuardedPiecesKeepFloor | src/autonomous_investment_robot/services/execution/live_kraken_spot_service.py:671-697 | The sufficient half for pieces given by net price, and without any condition once the order is complete. |
| ProfitGuard.CheapLotsFirstKeepFloor | src/autonomous_investment_robot/services/execution/live_kraken_spot_service.py:671-697 | A passed guard with unit costs nondecreasing along the queue: every piece keeps the floor. |
| ProfitGuard.PassedGuardLosingPiece | src/autonomous_investment_robot/services/execution/live_kraken_spot_service.py:671-697 | Without safe boundaries it fails: two lots, a passed guard, and a first piece that realises a loss of 40. |
| ProfitAndLoss.SecondReplayAgrees | src/autonomous_investment_robot/services/execution/live_kraken_spot_service.py:464-499 | If the reconstruction succeeds the second replay never takes its gap branch and ends with the same lots. |
| ProfitAndLoss.HistoryIsTheSelectedRows | src/autonomous_investment_robot/services/execution/live_kraken_spot_service.py:464-537 | The fill history of an accepted trade history is, in order, one record per row its filter selects, with the ids, notional, fee and time of that row; a refused one has none; the gap says which. |
| ProfitAndLoss.TrustedIff | src/autonomous_investment_robot/services/execution/live_kraken_spot_service.py:421-446 | The books are trusted if and only if the history is accepted and the balance known and off the lots by at most 1e-8, the smallest order or two percent; what they say and why they are refused. |
| ProfitAndLoss.AverageTimesQuantity | src/autonomous_investment_robot/services/execution/live_kraken_spot_service.py:406-419 | The average cost exists exactly when something is held and gives the basis when multiplied by the quantity. |
| ProfitAndLoss.UnrealizedIff | src/autonomous_investment_robot/services/execution/live_kraken_spot_service.py:545-577 | When unrealised profit exists, and its value: balance at bid less the basis of the lots, nothing for an empty balance. |
| ProfitAndLoss.ScanSumsWindow | src/autonomous_investment_robot/services/execution/live_kraken_spot_service.py:502-512 | The records of a window sum to the realised total of the whole history minus that of the part before the window. |
| ProfitAndLoss.ScanFindsSells | src/autonomous_investment_robot/services/execution/live_kraken_spot_service.py:502-537 | There are records exactly when the window holds a sell of positive quantity. |
| ProfitAndLoss.WindowTelescopes | src/autonomous_investment_robot/services/execution/live_kraken_spot_service.py:539-543 | Windowed realised profit exists if and only if the history is accepted and the window holds a sell, and then telescopes; with no window it is the realised total. |
| ProfitAndLoss.TakeConservesQty | src/autonomous_investment_robot/services/execution/live_kraken_spot_service.py:386-395 | A sell loses at most 1e-12 per lot it pops and every lot kept is positive. |
| ProfitAndLoss.QuantityDrift | src/autonomous_investment_robot/services/execution/live_kraken_spot_service.py:379-406 | Held minus (bought minus sold) stays between -1e-12 per popped buy and +1e-9 per sell. |
| ProfitAndLoss.TruthMatchesTrades | src/autonomous_investment_robot/services/execution/live_kraken_spot_service.py:421-446 | Trusted books: the exchange balance is bought minus sold to within the tolerance and the counted dust. |
| ProfitAndLoss.TakeConservesBasis | src/autonomous_investment_robot/services/execution/live_kraken_spot_service.py:386-395 | Basis is conserved by a sell up to the cost of the dust dropped with each popped lot. |
| ProfitAndLoss.RealizedIsCashFlow | src/autonomous_investment_robot/services/execution/live_kraken_spot_service.py:379-408 | Realised profit is cash flow plus the basis still held, up to a dust term that is bounded by 1e-12 times unit costs. |
| ProfitAndLoss.TotalProfitIdentity | src/autonomous_investment_robot/services/execution/live_kraken_spot_service.py:545-577 | Realised plus unrealised profit is net cash flow plus balance at bid plus a dust term between 0 and 1e-12 times the unit costs of all buys. |
| ProfitAndLoss.TotalProfitIdentityExact | src/autonomous_investment_robot/services/execution/live_kraken_spot_service.py:545-577 | On the lattice the dust term is zero. |
| OrderLifecycle.OrderLifecycleMirror.Transit | src/autonomous_investment_robot/services/live_runtime/order_lifecycle.py:137-224 | One transition in place: record, aliases and pending log become those of the specification; refusals and duplicates are logged only. |
| OrderLifecycle.OrderLifecycleMirror.RememberAliases | src/autonomous_investment_robot/services/live_runtime/order_lifecycle.py:131-135 | Both ids of a record point to its key afterwards. |
| OrderLifecycle.OrderLifecycleMirror.Submit | src/autonomous_investment_robot/services/live_runtime/order_lifecycle.py:226-237 | A local submission is the transition to SUBMITTED under its own client id. |
| OrderLifecycle.OrderLifecycleMirror.ApplyExchangeUpdate | src/autonomous_investment_robot/services/live_runtime/order_lifecycle.py:239-295 | An exchange update is the transition its status maps to, or a logged refusal of an unsupported replace. |
| OrderLifecycle.OrderLifecycleMirror.NoteFill | src/autonomous_investment_robot/services/live_runtime/order_lifecycle.py:367-371 | Counts a fill on the resolved record, if there is one. |
| OrderLifecycle.OrderLifecycleMirror.DrainTransitions | src/autonomous_investment_robot/services/live_runtime/order_lifecycle.py:373-376 | Hands out the pending log and empties it. |
| LifecycleHistory.EventSourcing | src/autonomous_investment_robot/services/live_runtime/order_lifecycle.py:137-224 | On every run, drained plus pending transitions form one legal chain per key that starts at nothing, and its last accepted target is the state held. |
| LifecycleHistory.RefusedEventsChangeNothing | src/autonomous_investment_robot/services/live_runtime/order_lifecycle.py:137-187 | An event of the service or the exchange is logged once; it is accepted if and only if some record state changes, and otherwise records and aliases stay. |
| LifecycleHistory.AcceptedBySource | src/autonomous_investment_robot/services/live_runtime/order_lifecycle.py:10-104 | Which moves are accepted, target by target: the first event of an order always, later ones exactly from the listed states; a repeat is a duplicate and anything else out of order. |
| LifecycleHistory.UpdateLands | src/autonomous_investment_robot/services/live_runtime/order_lifecycle.py:239-295 | Where every exchange status leaves a record of the spot service, state by state: a fill fills every record not at an end, and so on. |
| LifecycleHistory.AcceptedEventRecords | src/autonomous_investment_robot/services/live_runtime/order_lifecycle.py:189-211 | What an accepted event leaves: state and confidence told, ids named, old ids where none is named, fills counted so far, aliases to the record, all other records as they were. |
| LifecycleHistory.EveryEventIsLogged | src/autonomous_investment_robot/services/live_runtime/order_lifecycle.py:155-224 | Every event leaves one log entry with the record's key, the states from and to, its source, and its own reason exactly if it was accepted. |
| LifecycleHistory.ReplacesAreLogged | src/autonomous_investment_robot/services/live_runtime/order_lifecycle.py:245-295 | What each replace status leaves in the log: told with its own target where replaces are followed, and otherwise an UNKNOWN entry that is neither accepted, duplicate nor out of order, with no record moved. |
| LifecycleHistory.FillsAreCounted | src/autonomous_investment_robot/services/live_runtime/order_lifecycle.py:367-371 | On every run a record's fill count is the number of fills told of it since the last reset, by whatever id led to it; no event or update changes it. |
| LifecycleHistory.EnteredOnce | src/autonomous_investment_robot/services/live_runtime/order_lifecycle.py:10-104 | SUBMITTED and ACCEPTED are entered at most once per key. |
| LifecycleHistory.TerminalThenRecovered | src/autonomous_investment_robot/services/live_runtime/order_lifecycle.py:10-113 | Of a terminal state only RECOVERED can follow, and RECOVERED is never left. |
| LifecycleHistory.RunWideSafety | src/autonomous_investment_robot/services/live_runtime/order_lifecycle.py:171-187 | Both facts on every run of the mirror, over all pairs of accepted entries of a key. |
| LifecycleHistory.SpotTerminalAbsorbing | src/autonomous_investment_robot/services/execution/live_kraken_spot_service.py:221-228 | Driven only by the commands the spot service issues, with replace support stripped, the replace, orphaned, stuck and recovered states are unreachable and terminal states are absorbing. |
| SpotBooks.CallPosted | src/autonomous_investment_robot/services/execution/live_kraken_spot_service.py:850-956 | An intent changes statuses, known fills and mirror by a list of postings: none unless it passes all gates, and past them what the replies of the exchange alone say. |
| SpotBooks.ActionPosted | src/autonomous_investment_robot/services/execution/live_kraken_spot_service.py:299-344 | So does every action of the service, a rehydration by forgetting, then the stored orders, then the stored fills. |
| SpotBooks.RunPosted | src/autonomous_investment_robot/services/execution/live_kraken_spot_service.py:299-344 | The books after any run are its postings applied to nothing. |
| SpotLifecycle.ActionAsCommands | src/autonomous_investment_robot/services/execution/live_kraken_spot_service.py:299-344 | Each action of the service acts on its mirror as a list of mirror commands of the kinds it may issue; only a rehydration resets. |
| SpotLifecycle.ServiceDrivesTheMirror | src/autonomous_investment_robot/services/execution/live_kraken_spot_service.py:755-956 | The mirror inside every run of the service is the mirror of a run of such commands, and its log is a faithful history of its records. |
| SpotLifecycle.TerminalStatesStay | src/autonomous_investment_robot/services/execution/live_kraken_spot_service.py:755-956 | Inside every run of the service the replace, orphaned, stuck, recovered and unknown states never occur and a terminal state is not left before a rehydration. |
| SpotLifecycle.ReportedEndIsFinal | src/autonomous_investment_robot/services/live_runtime/order_lifecycle.py:254-295 | Once an update with an ending status is taken, from an exchange update, a placement reply, a poll, a look-up, a cancellation or a stored event, the record stays in the state of that status for the rest of the run until a rehydration. |
| SpotLifecycle.UpdateAnswerIff | src/autonomous_investment_robot/services/execution/live_kraken_spot_service.py:299-309 | What every order update is answered: updated exactly if it is taken and its record moves, a duplicate exactly if it repeats the state, out of order otherwise; stated by status and state. |
| SpotLifecycle.KeptIfTaken | src/autonomous_investment_robot/services/execution/live_kraken_spot_service.py:299-309 | An update that names an order and does not fall behind the kept status has its status kept, whatever the mirror says; any other changes nothing. |
| AliasRefinement.StepRefines | src/autonomous_investment_robot/services/live_runtime/order_lifecycle.py:128-153 | Under ownership of ids one event resolves to its true order, resolving is idempotent, and outcome and states are those of a mirror keyed by the true order. |
| AliasRefinement.RunRefines | src/autonomous_investment_robot/services/live_runtime/order_lifecycle.py:128-224 | The same over every run. |
| AliasRefinement.OutcomesAreIdeal | src/autonomous_investment_robot/services/live_runtime/order_lifecycle.py:189-211 | Each outcome of such a run is the ideal one. |
| AliasRefinement.ResolvesIff | src/autonomous_investment_robot/services/live_runtime/order_lifecycle.py:128-129 | In a refined mirror an id resolves to its order if and only if it is a client id or was taught. |
| AliasRefinement.UnlearnedIdOpensARecord | src/autonomous_investment_robot/services/live_runtime/order_lifecycle.py:151-187 | An event keyed by an id that was not taught always opens a record of its own, and no ideal mirror matches any more. |
| AliasRefinement.StepRefinesIff | src/autonomous_investment_robot/services/live_runtime/order_lifecycle.py:128-187 | An event about one order keeps the mirror refined exactly when its key is a client id or was taught. |
| AliasRefinement.UnlearnedIdSplitsOrder | src/autonomous_investment_robot/services/live_runtime/order_lifecycle.py:128-135 | A concrete exchange id that splits one order in two records. |
| SpotService.LiveKrakenSpotService.Kill | src/autonomous_investment_robot/services/execution/live_kraken_spot_service.py:198-202 | Sets the kill and safe-mode latches, the reason, and pushes the cooldown out, never in. |
| SpotService.LiveKrakenSpotService.FlattenOnly | src/autonomous_investment_robot/services/execution/live_kraken_spot_service.py:204-207 | Sets the flatten-only and safe-mode latches. |
| SpotService.LiveKrakenSpotService.GuardRateLimit | src/autonomous_investment_robot/services/execution/live_kraken_spot_service.py:179-186 | Tracks a rate-limit hit, drops the hits older than a minute, kills on the fourth. |
| SpotService.LiveKrakenSpotService.GuardReject | src/autonomous_investment_robot/services/execution/live_kraken_spot_service.py:188-196 | Tracks a rejection or hands it to the rate-limit guard, kills on the sixth. |
| SpotService.LiveKrakenSpotService.EvictStore | src/autonomous_investment_robot/services/execution/live_kraken_spot_service.py:169-173 | The deleting loop keeps exactly the entries at most 600 seconds old. |
| SpotService.LiveKrakenSpotService.UpdateOrder | src/autonomous_investment_robot/services/execution/live_kraken_spot_service.py:299-309 | Refuses a missing id or a falling status rank, else records the status and tells the mirror. |
| SpotService.LiveKrakenSpotService.UpdateFill | src/autonomous_investment_robot/services/execution/live_kraken_spot_service.py:311-324 | Refuses a missing or known id and a non-positive notional, else remembers the id and counts the fill. |
| SpotService.LiveKrakenSpotService.Rehydrate | src/autonomous_investment_robot/services/execution/live_kraken_spot_service.py:326-344 | Forgets statuses, fill ids and lifecycle and replays stored orders, then fills; the counts are the updates taken and the distinct fill ids. |
| SpotService.LiveKrakenSpotService.Preflight | src/autonomous_investment_robot/services/execution/live_kraken_spot_service.py:126-163 | The preflight with all its refusals; the flag is set between the permissions and the checks of leverage, symbols and inventory. |
| SpotService.LiveKrakenSpotService.CheckUniverse | src/autonomous_investment_robot/services/execution/live_kraken_spot_service.py:144-162 | The loop over the symbols ends with the first failure. |
| SpotService.LiveKrakenSpotService.BookFilled | src/autonomous_investment_robot/services/execution/live_kraken_spot_service.py:579-596 | A filled order: its fills are looked up in the trade history and booked unless known. |
| SpotService.LiveKrakenSpotService.PollUntilFilled | src/autonomous_investment_robot/services/execution/live_kraken_spot_service.py:803-811 | The polling loop returns what its specification says. |
| SpotService.LiveKrakenSpotService.CancelUnfilled | src/autonomous_investment_robot/services/execution/live_kraken_spot_service.py:813-822 | Cancellation, its failure, the rate-limit exit and the closing timeout event, step by step. |
| SpotService.LiveKrakenSpotService.SubmitLimit | src/autonomous_investment_robot/services/execution/live_kraken_spot_service.py:755-822 | One limit submission: preview, placement, recording, polling, booking or cancellation. |
| SpotService.LiveKrakenSpotService.SubmitMarket | src/autonomous_investment_robot/services/execution/live_kraken_spot_service.py:938-956 | The market fallback of a buy with its booking; a booking that raises is treated as a rejection after the order was accepted. |
| SpotService.LiveKrakenSpotService.SendAfterTimeout | src/autonomous_investment_robot/services/execution/live_kraken_spot_service.py:915-956 | After a maker timeout: a re-validated limit sell, nothing for a buy without edge, or the market order. |
| SpotService.LiveKrakenSpotService.Execute | src/autonomous_investment_robot/services/execution/live_kraken_spot_service.py:850-956 | The whole of an intent: latches, authorisation, validation, eviction, both dedupe checks, query, sending, booking. |
| SpotSafety.GateHolds | src/autonomous_investment_robot/services/execution/live_kraken_spot_service.py:850-884 | A latched or cooling service is untouched by an intent; a failed authorisation or validation kills it for at least five minutes; a repeated intent changes no latch; none of them sends or tracks anything. |
| SpotSafety.ValidatedOrdersFit | src/autonomous_investment_robot/services/execution/live_kraken_spot_service.py:699-753 | A passed validation means an orderable quantity and price on a live spot book, no entry while market watch or integrity blocks entries, and sells only reduce-only and past the guard. |
| SpotSafety.ValidatedIff | src/autonomous_investment_robot/services/execution/live_kraken_spot_service.py:699-753 | Exactly which intents are validated on a quote and with which quantity and prices: buys sized by the ask and resting at the bid, sells sized by the bid and resting at the ask, past the guard. |
| SpotSafety.StatusNeverFalls | src/autonomous_investment_robot/services/execution/live_kraken_spot_service.py:299-309 | The status kept per order never falls in rank and a final one is only replaced by a final one. |
| SpotSafety.DroppedIff | src/autonomous_investment_robot/services/execution/live_kraken_spot_service.py:209-309 | Exactly which updates are dropped: without an id, short of an end after an end, behind a partial fill or an acknowledgement; any other is kept. |
| OrderLane.UpdateAgreesIff | src/autonomous_investment_robot/services/execution/live_kraken_spot_service.py:299-309 | After an update that is not stale, kept status and mirror agree if and only if the mirror was there already or its table leads there and the status is no replace status. |
| OrderLane.OtherIdAgreesIff | src/autonomous_investment_robot/services/execution/live_kraken_spot_service.py:299-309 | An update that reaches the record under another id than its key keeps agreement if and only if it is stale, a replace status, or refused by the mirror. |
| OrderLane.LaneWalks | src/autonomous_investment_robot/services/execution/live_kraken_spot_service.py:299-324 | With the ids of orders kept apart, what the service does to all its orders acts on the status and state of one order as the postings that name it do; the others play no part. |
| StatusAgreement.LimitAgreesIff | src/autonomous_investment_robot/services/execution/live_kraken_spot_service.py:790-822 | After a fresh limit order status and mirror agree if and only if it was accepted and then: filled at once; or the poll raised and the reply was no replace status; or the filled poll is stale or can be followed; or, cancelled, the reply was neither rejected nor expired; or, the cancellation having raised, the reply was cancelled, rejected or expired. |
| StatusAgreement.FillsLand | src/autonomous_investment_robot/services/execution/live_kraken_spot_service.py:790-811 | A fresh limit order filled at once, or answered as working and polled as filled, is kept as filled with its record FILLED. |
| StatusAgreement.MarketAgreesIff | src/autonomous_investment_robot/services/execution/live_kraken_spot_service.py:938-956 | After a fresh market order they agree if and only if it was accepted with no replace status, whether or not its booking raises. |
| StatusAgreement.CallAgreesIff | src/autonomous_investment_robot/services/execution/live_kraken_spot_service.py:850-956 | When a whole call leaves agreement on its first and on its second order: exactly if it is admitted and the exchange answers so. |
| StatusAgreement.OthersKeepTheLane | src/autonomous_investment_robot/services/execution/live_kraken_spot_service.py:850-956 | A call that does not name an order leaves its status, its state and their agreement alone. |
| StatusAgreement.FollowsIff | src/autonomous_investment_robot/services/execution/live_kraken_spot_service.py:299-344 | When an action follows, read off its inputs: actions about other orders always, an update exactly if stale or followed by the mirror, a rehydration exactly if the stored orders are. |
| StatusAgreement.FollowingKeeps | src/autonomous_investment_robot/services/execution/live_kraken_spot_service.py:299-344 | Agreement survives an action, calls and rehydrations included, if and only if the action follows. |
| StatusAgreement.AgreementIff | src/autonomous_investment_robot/services/execution/live_kraken_spot_service.py:299-344 | On every run that keeps ids apart, status and mirror agree on an order if and only if the order's own lane, walked from nothing, does. |
| StatusAgreement.AgreementKept | src/autonomous_investment_robot/services/execution/live_kraken_spot_service.py:299-344 | Agreement, once reached, holds throughout a run if and only if every action follows. |
| StatusAgreement.RaisedCancellationDisagrees | src/autonomous_investment_robot/services/execution/live_kraken_spot_service.py:813-822 | A concrete fresh order answered NEW whose cancellation raises: the mirror follows the one update, and they disagree. |
| StatusAgreement.StatusAndMirrorCanDisagree | src/autonomous_investment_robot/services/execution/live_kraken_spot_service.py:209-219 | A concrete pair of updates, FILLED then CANCELED, after which they disagree. |
| SpotSafety.FilledHereAndThere | src/autonomous_investment_robot/services/execution/live_kraken_spot_service.py:847-848 | The service and the mirror call the same statuses a fill, except CLOSED. |
| SpotSafety.PollingFindsTheFirst | src/autonomous_investment_robot/services/execution/live_kraken_spot_service.py:803-811 | Polling answers with the first poll before the deadline that raises or shows a fill, NotFound if none. |
| SpotSafety.LimitEffect | src/autonomous_investment_robot/services/execution/live_kraken_spot_service.py:755-822 | A limit submission places at most one order, tracks at most one event and nothing if it times out, keeps latches, and books only fills that were not known, each once. |
| SpotSafety.MarketEffect | src/autonomous_investment_robot/services/execution/live_kraken_spot_service.py:938-956 | So does the market fallback. |
| SpotSafety.SendEffect | src/autonomous_investment_robot/services/execution/live_kraken_spot_service.py:885-956 | A call accepts nothing, slice 0, or slice 0 then slice 1, in that order, and tracks at most one event. |
| SpotSafety.ExecuteEffect | src/autonomous_investment_robot/services/execution/live_kraken_spot_service.py:850-956 | The same for the whole of execute_intent; killed or flatten-only against an entry means no change. |
| SpotOrders.CallPlacesExactly | src/autonomous_investment_robot/services/execution/live_kraken_spot_service.py:850-956 | Exactly which orders a call gets accepted, in order, with id, quantity, price and mark: a first one if it is admitted and taken, a second after a maker timeout if the refreshed sell validates or the buy has an edge. |
| SpotOrders.RunPlacesExactly | src/autonomous_investment_robot/services/execution/live_kraken_spot_service.py:850-956 | The orders accepted on a run are those of its calls in order, and no others. |
| SpotOrders.OrdersArePriced | src/autonomous_investment_robot/services/execution/live_kraken_spot_service.py:885-956 | Every accepted order by slice and style, in bid and ask: resting buys at the normalised bid and sells at the normalised ask of the first quote, marketable and second sells at the bid and buys at the ask, sized by the price they would cross; the second sell on the refreshed quote, the second buy at market. |
| SpotOrders.StatusMeans | src/autonomous_investment_robot/services/execution/live_kraken_spot_service.py:850-956 | What each status of a call means: killed exactly if the service is killed on return, blocked by a latch, deduped as seen before, filled in time, or timed out with nothing left to try. |
| SpotOrders.CooldownMeansKilled | src/autonomous_investment_robot/services/execution/live_kraken_spot_service.py:198-202 | On every run a service whose cooldown was ever set is killed for good, so the cooldown test never decides. |
| SpotOrders.FillInTimeIsFound | src/autonomous_investment_robot/services/execution/live_kraken_spot_service.py:801-811 | A fill is found if and only if a poll shows it, made with all polls before it within the maker timeout of the start of the wait, none of which raised. |
| SpotOrders.IdsTellApart | src/autonomous_investment_robot/services/execution/live_kraken_spot_service.py:165-167 | Client order ids coincide exactly for the same symbol, side, second and slice. |
| SpotOrders.FingerprintsTellApart | src/autonomous_investment_robot/services/execution/live_kraken_spot_service.py:602-605 | Fingerprints are equal exactly for the same symbol and side, notionals that round to the same sixth decimal and readings in the same five-second bucket. |
| SpotOrders.OrderingOpenIff | src/autonomous_investment_robot/services/execution/live_kraken_spot_service.py:661-670 | Ordering is open exactly in live mode with every doctrine setting in force and the permissions verified, and which of mode and doctrine closed it. |
| SpotOrders.SymbolPassesIff | src/autonomous_investment_robot/services/execution/live_kraken_spot_service.py:144-162 | Exactly when a symbol passes the preflight. |
| SpotOrders.PreflightAnswers | src/autonomous_investment_robot/services/execution/live_kraken_spot_service.py:126-163 | Which refusal a failing preflight gives. |
| SpotOrders.RefusalsTellTheFault | src/autonomous_investment_robot/services/execution/live_kraken_spot_service.py:699-753 | A refused validation names a fault the intent or the market has. |
| SpotOrders.KillReasonTold | src/autonomous_investment_robot/services/execution/live_kraken_spot_service.py:860-868 | A condemned call leaves the closed gate or the refusal as the kill reason and at least five minutes of cooldown. |
| SpotOrders.KillTold | src/autonomous_investment_robot/services/execution/live_kraken_spot_service.py:179-202 | The reason and the five-minute cooldown of every kill a call makes, read off its inputs: the condemnation before anything is sent, or what became of its only order, or of the one that followed a timeout. |
| SpotOrders.LatchesIff | src/autonomous_investment_robot/services/execution/live_kraken_spot_service.py:198-207 | When an action sets flatten-only, safe mode or the kill latch, in both directions; safe mode is the only latch an operator can lift. |
| SpotRuns.IdsAcceptedAtMostOnce | src/autonomous_investment_robot/services/execution/live_kraken_spot_service.py:165-173 | On every run with a clock that never goes back, no two accepted orders carry the same client order id, although ids are forgotten after 600 seconds. |
| SpotRuns.RunKeepsDedupe | src/autonomous_investment_robot/services/execution/live_kraken_spot_service.py:870-956 | The invariant behind it: remembered ids carry their second, and the slice-0 id of every accepted order is remembered or its second is over. |
| SpotRuns.IntentsSentAtMostOnce | src/autonomous_investment_robot/services/execution/live_kraken_spot_service.py:602-605 | If each call reads its fingerprint within 595 seconds of its start, no two calls of a run get orders accepted for the same fingerprint. |
| SpotRuns.LateReadingSendsTwice | src/autonomous_investment_robot/services/execution/live_kraken_spot_service.py:602-605 | The 595 seconds are exact: for every longer delay and every authorised service there is a run on which two calls send under one fingerprint. |
| SpotLedger.OrderBooksItsFills | src/autonomous_investment_robot/services/execution/live_kraken_spot_service.py:579-596 | A filled order hands out exactly the fills of an accepted history that lie on its side, under its exchange id if it has one, and are not known yet. |
| SpotLedger.FillsBookedAtMostOnce | src/autonomous_investment_robot/services/execution/live_kraken_spot_service.py:311-324 | Over all calls of a run, between rehydrations, no fill id is handed out for booking twice. |
| SpotLedger.FillIsTold | src/autonomous_investment_robot/services/execution/live_kraken_spot_service.py:311-324 | A fill report adds its id once, if new and of positive notional, and one fill to the record its order key leads to; nothing else changes. |
| SpotLedger.RehydrationCounts | src/autonomous_investment_robot/services/execution/live_kraken_spot_service.py:326-344 | The orders a rehydration reports are the accepted entries of the log it leaves, and its fill ids those of the bookable fills it was given. |
| SpotLedger.SidesReadIff | src/autonomous_investment_robot/services/execution/live_kraken_spot_service.py:703-704 | Which texts are read as a buy or a sell: those letters in any case and nothing else. |
| SpotLedger.RehydratedFillsNotBooked | src/autonomous_investment_robot/services/execution/live_kraken_spot_service.py:326-344 | A fill the service was rehydrated with is not handed out again before the next rehydration. |
| SpotRuns.StormsAreBounded | src/autonomous_investment_robot/services/execution/live_kraken_spot_service.py:29-51 | On every run every closed minute holds at most six tracked rejections and four tracked rate-limit hits. |
| SpotRuns.StormKillsIff | src/autonomous_investment_robot/services/execution/live_kraken_spot_service.py:179-196 | On every run exactly the sixth rejection and the fourth rate-limit hit within sixty seconds set the kill latch. |
| SpotRuns.RunIsTracked | src/autonomous_investment_robot/services/execution/live_kraken_spot_service.py:179-202 | The invariant behind it: each tracker holds exactly the readings of the last minute and is within its limit until the kill latch is set. |
| SpotRuns.LatchesHold | src/autonomous_investment_robot/services/execution/live_kraken_spot_service.py:198-207 | From any point of a run: killed stays and nothing more is sent or tracked; flatten-only stays and only reduce-only orders are sent; the trace only grows. |
| SpotRuns.PlacedByCall | src/autonomous_investment_robot/services/execution/live_kraken_spot_service.py:850-956 | Every accepted order belongs to one call of the run, made while the service was not killed, and carries the id and mark of that call. |
| SpotRuns.NothingSentUnauthorised | src/autonomous_investment_robot/services/execution/live_kraken_spot_service.py:661-669 | Nothing is sent unless the mode is live, the doctrine is in force, and a preflight earlier in the run had verified the permissions of the key. |
| SpotRuns.PreflightSucceedsIff | src/autonomous_investment_robot/services/execution/live_kraken_spot_service.py:126-163 | A preflight succeeds if and only if the permissions are verified, leverage is zero and every symbol passes. |
| SpotRuns.FailedPreflightAuthorisesIff | src/autonomous_investment_robot/services/execution/live_kraken_spot_service.py:140-163 | Of the service alone: a preflight that does not succeed authorises ordering all the same exactly when the permissions were verified. |
| SpotRuns.FailedPreflightStillSends | src/autonomous_investment_robot/services/execution/live_kraken_spot_service.py:661-669 | Of the service alone: after such a preflight execute_intent would send the next admissible intent. |
| SpotRuns.LeveragedPreflightStillSends | src/autonomous_investment_robot/services/execution/live_kraken_spot_service.py:140-143 | A concrete case of that: refused for leverage, and the buy after it would be sent. |
| SpotRuns.OrdersAreValidatedSellsAreGuarded | src/autonomous_investment_robot/services/execution/live_kraken_spot_service.py:699-753 | Every accepted order carries the quantity of a passed validation of its own call; every sell is a reduce-only limit whose quantity passed the guard on that same quote. |
| SpotRuns.SentSellsEarnTheFloor | src/autonomous_investment_robot/services/execution/live_kraken_spot_service.py:671-697 | From the run to the ledger: such a sell, filled whole on the guard's terms, raises the replayed realised profit by at least the floor times its basis. |
| SpotRuns.SentSellsKeepFloorInPiecesIff | src/autonomous_investment_robot/services/execution/live_kraken_spot_service.py:671-697 | From the run to the ledger in pieces: on the lattice every series of pieces of a sent sell keeps the floor if and only if the lot boundaries inside the order are safe. |
| TimeoutClosure.TimedOutOrdersAreClosed | src/autonomous_investment_robot/services/execution/live_kraken_spot_service.py:790-822 | A submitted limit order reported as timed out leaves its record cancelled, rejected, expired or cancel-rejected and its timeout event refused, except exactly when the reply did not reach the record and the cancellation raised. |
| TimeoutClosure.CancelCloses | src/autonomous_investment_robot/services/live_runtime/order_lifecycle.py:32-92 | Where cancel request, answer and timeout event lead from every state a placement can leave. |
| TimeoutClosure.SubmissionIsHeld | src/autonomous_investment_robot/services/live_runtime/order_lifecycle.py:226-237 | A fresh id is held as SUBMITTED, so the result applies to every first use of an id. |
| TimeoutClosure.ReplaceReplyLeavesTimedOut | src/autonomous_investment_robot/services/execution/live_kraken_spot_service.py:813-822 | The exception is real at the service: an amended-status reply, which the connector passes on if the exchange library reports it, and a cancellation that raises leave TIMED_OUT. |
| TimeoutRuns.NoRecordTimesOut | src/autonomous_investment_robot/services/execution/live_kraken_spot_service.py:790-822 | On every run whose placement replies carry the submitted id, are no replace status and do not rank below a kept status, no record is ever timed out. |
| InventoryLots.InventoryService.UpdateFromFill | src/autonomous_investment_robot/services/inventory_service/service.py:21-76 | One fill in place: the lots of its symbol become those of the specification, others stay. |
| InventoryLots.InventoryService.EatLots | src/autonomous_investment_robot/services/inventory_service/service.py:51-58 | The reducing loop eats buy lots in order as specified. |
| InventoryLots.InventoryService.RehydrateFromEvents | src/autonomous_investment_robot/services/inventory_service/service.py:78-104 | Clearing and refolding gives, for every symbol, the fold of the usable events. |
| InventoryLots.EatConserves | src/autonomous_investment_robot/services/inventory_service/service.py:51-76 | A covered sell removes what it asked for up to one sliver; an uncovered one leaves no buy lot. |
| InventoryLots.FillOpensLot | src/autonomous_investment_robot/services/inventory_service/service.py:30-76 | The lot a fill opens: its whole notional for a buy, the uncovered part for a sell, with fees, ids and annotations of the fill, kept if above 1e-9; nothing else is added. |
| InventoryLots.InventoryConserved | src/autonomous_investment_robot/services/inventory_service/service.py:21-76 | For nonnegative fills, buys minus shorts follow the signed fills to within 1e-9 per fill, and only the first buy lot may be partly eaten. |
| InventoryLots.ShortOnlyWhenBuysExhausted | src/autonomous_investment_robot/services/inventory_service/service.py:59-75 | A short lot appears only when the sell exhausted every buy lot. |
| InventoryLots.ShortsReserveNothing | src/autonomous_investment_robot/services/inventory_service/service.py:59-74 | No short lot ever reserves quote. |
| InventoryLots.RebuildMatchesRun | src/autonomous_investment_robot/services/inventory_service/service.py:78-104 | Rebuilding from the fill log gives the lots the running service held, time stamps and exit-cost and reserve annotations apart. |
| EventLog.EventStore.constructor | src/autonomous_investment_robot/services/event_store/service.py:9-12 | A store starts with every stream counter at the largest number on disk. |
| EventLog.EventStore.SeedSequences | src/autonomous_investment_robot/services/event_store/service.py:14-19 | The seeding loop over the streams on disk. |
| EventLog.EventStore.NextSeq | src/autonomous_investment_robot/services/event_store/service.py:21-23 | Draws the next number of a stream and changes no other. |
| EventLog.EventStore.Append | src/autonomous_investment_robot/services/event_store/service.py:25-29 | Adds one row to one stream. |
| EventLog.EventStore.LastSeq | src/autonomous_investment_robot/services/event_store/service.py:37-41 | The largest number of a stream, 0 if it is empty. |
| EventLog.NumbersStrictlyIncrease | src/autonomous_investment_robot/services/event_store/service.py:13-42 | With processes stopping between any two operations and counters reseeded at every start, each stream stays numbered strictly upwards and no row is changed or lost. |
| EventLog.RowsAreWhatWasWritten | src/autonomous_investment_robot/services/event_store/service.py:21-35 | Through the same operations the rows added to a stream hold exactly what was written to it, in order. |
| EventLog.LastNumberIsLargest | src/autonomous_investment_robot/services/event_store/service.py:37-41 | The last number of a stream is the largest in it, 0 only for an empty one. |
| BootRecovery.LiveStateCoordinator.ExchangeHistoryRehydrate | src/autonomous_investment_robot/services/live_runtime/service.py:518-609 | The loop adds exactly the records whose id is unknown, each once, to the log and to the lots, and one account row if there were records. |
| BootRecovery.LiveStateCoordinator.RehydrateState | src/autonomous_investment_robot/services/live_runtime/service.py:611-629 | A start: lots rebuilt from the fill log, then the exchange history added to both. |
| BootRecovery.RehydratedAtMostOnce | src/autonomous_investment_robot/services/live_runtime/service.py:537-584 | Over any number of starts, complete or crashed anywhere, with any trading in between, a fill id gets at most one rehydrated row. |
| BootRecovery.LivesKeepOrder | src/autonomous_investment_robot/services/live_runtime/service.py:557-600 | Through the same lives every stream stays numbered strictly upwards. |
| BootRecovery.KnownRecordsAddNothing | src/autonomous_investment_robot/services/live_runtime/service.py:547-549 | A start leaves the fill log alone if and only if the exchange returns only ids it holds. |
| BootRecovery.AddedRowsAreMarked | src/autonomous_investment_robot/services/live_runtime/service.py:546-574 | The rows a start adds: one per missing record in order, with its id and content, marked as rehydrated, after the unchanged rows before. |
| BootRecovery.SecondBootAddsNothing | src/autonomous_investment_robot/services/live_runtime/service.py:537-584 | A second start with no new records adds no fill row. |
| BootRecovery.RestoredIff | src/autonomous_investment_robot/services/live_runtime/service.py:530-549 | After a start the log holds an id exactly if it held it before or a positive buy inside the window of an accepted trade history carries it. |
| BootRecovery.FetchedFillsAreRows | src/autonomous_investment_robot/services/live_runtime/service.py:530-574 | Every fill a start fetches is a buy row of the window, with its ids, its quote cost as notional, its fee and no slippage. |
| BootRecovery.OneAccountRow | src/autonomous_investment_robot/services/live_runtime/service.py:585-600 | A start writes one account row if the exchange returned anything, and touches no stream but that and the fills. |
| BootRecovery.LostSellsStayLost | src/autonomous_investment_robot/services/live_runtime/service.py:530 | In particular a sell missing from the log is never added back. |
| BootRecovery.NextBootRebuildsTheSameLots | src/autonomous_investment_robot/services/live_runtime/service.py:611-629 | The lots held after a start are those the next start rebuilds from the log it left, annotations apart. |
| RestartDecision.RecoverInflightState | src/autonomous_investment_robot/services/live_runtime/service.py:374-499 | The two loops and the branches of a restart: counts, outcome, action, the order updates applied and the cancellations asked for. |
| RestartDecision.ApplyOpenOrders | src/autonomous_investment_robot/services/live_runtime/service.py:422-458 | The loop over open orders: keys, orphans, recovered and out-of-order counts, the updates applied, the orphans cancelled. |
| RestartDecision.OrphansAreCancelled | src/autonomous_investment_robot/services/live_runtime/service.py:438-453 | Exactly the orphans are asked to be cancelled, each once and under the key it was found by. |
| RestartDecision.OneKeyForBoth | src/autonomous_investment_robot/services/live_runtime/service.py:426-436 | When recovery and the service file an open order under one key; with an original client id alone only if it equals the exchange id. |
| RestartDecision.FlattenOnlyIff | src/autonomous_investment_robot/services/live_runtime/service.py:472-477 | Flatten-only if and only if confidence is insufficient or an open order has a key the order log does not. |
| RestartDecision.ContinueIff | src/autonomous_investment_robot/services/live_runtime/service.py:460-486 | From the inputs alone: a start continues if and only if confidence suffices, every keyed open order is in the log, safe mode is not wished for with orders about, and no order was lost, moved or out of order and no fill id logged twice. |
| RestartDecision.DegradeIff | src/autonomous_investment_robot/services/live_runtime/service.py:478-486 | And it degrades exactly if confidence suffices and nothing is orphaned but safe mode is wished for with orders about, or something was lost, moved, out of order or logged twice. |
| RestartDecision.DecisionCounts | src/autonomous_investment_robot/services/live_runtime/service.py:422-499 | The counts from log, open orders and answers: recovered are the lost orders plus the known ones whose update came through, with the updates that went back, the orphans and the repeated fill ids. |
| RestartDecision.OutcomeIff | src/autonomous_investment_robot/services/live_runtime/service.py:472-486 | Which outcome a start is reported under. |
| RestartDecision.IdsRead | src/autonomous_investment_robot/services/live_runtime/service.py:423-436 | In which order recovery, the service and the cancellation look for an order's id. |
| RestartDecision.StateIff | src/autonomous_investment_robot/services/live_runtime/service.py:356-372 | The state recovery reports of a logged order, in both directions: which ones have ended, which live states need the order to be open, and when a vanished order is timed out, stuck or recovered. |
| RestartDecision.LostUnlessFinal | src/autonomous_investment_robot/services/live_runtime/service.py:460-467 | Whether a local order the exchange no longer shows needs recovery depends on its status alone, not on the fills seen. |
| RestartDecision.KeylessOrdersIgnored | src/autonomous_investment_robot/services/live_runtime/service.py:423-429 | Open orders without a key play no part in the counts, the state or the decision. |
| RestartDecision.EmptyClientIdIsNoOrphan | src/autonomous_investment_robot/services/live_runtime/service.py:426-428 | So an unknown open order with an empty client id lets the start continue. |
| RestartDecision.ApplyDecision | src/autonomous_investment_robot/core/orchestrator.py:1139-1144 | What the orchestrator latches for each action: flatten-only, safe mode, kill, or nothing. |
| RestartDecision.BootIsARun | src/autonomous_investment_robot/core/orchestrator.py:1139-1144 | A start acts on the service as a sequence of ordinary actions of a run. |
| RestartDecision.OrphanBootSendsOnlyReduceOnly | src/autonomous_investment_robot/services/live_runtime/service.py:438-477 | After a start that found an orphan, whatever happens next, only reduce-only orders are sent. |
| RestartDecision.BootNeverKills | src/autonomous_investment_robot/services/live_runtime/service.py:469-499 | Recovery never decides to halt, so a start leaves the kill latch as it was and the halt branch of its caller is dead. |
| RestartDecision.CountLost | src/autonomous_investment_robot/services/live_runtime/service.py:460-467 | The loop over local orders the exchange no longer shows counts those whose end is not on record. |
| Governor.AssessMonotone | src/autonomous_investment_robot/services/market_data_service/service.py:69-116 | A worse reading never gets a better market health. |
| Governor.AssessedScoresAvoidOverride | src/autonomous_investment_robot/services/market_data_service/service.py:93-103 | The scores of an assessment are among 1, 0.65, 0.55 and 0.2, never under the override threshold. |
| Governor.EvaluateMonotone | src/autonomous_investment_robot/services/health_service/service.py:19-93 | Worse market health and signals never give a better health snapshot, integrity caps included. |
| Governor.HealthAnchors | src/autonomous_investment_robot/services/health_service/service.py:33-74 | A failed reconciliation degrades at least, with an error burst it halts at least; integrity short of a halt never does more than degrade. |
| Governor.IntegrityHaltFlattens | src/autonomous_investment_robot/services/health_service/service.py:64-70 | An integrity halt always arrives at the governor as halt-and-flatten. |
| Governor.PermittedByGrade | src/autonomous_investment_robot/services/health_service/service.py:95-222 | The permitted size in closed form: by how far the demand reaches, cut to what the venue allows. |
| Governor.PermittedWithinCap | src/autonomous_investment_robot/services/health_service/service.py:9-17 | The permitted size is between 0 and the rollout cap. |
| Governor.StageSizes | src/autonomous_investment_robot/services/health_service/service.py:9-17 | By stage: nothing before live, at most 0.05 at tiny live, 0.1 at canary, 0.25 at limited live and at an unknown stage, 1 at normal live. |
| Governor.LiveStageSizes | src/autonomous_investment_robot/services/health_service/service.py:9-17 | The same for the decision of the live loop, and in a clean situation exactly those sizes. |
| Governor.VerdictFromSignals | src/autonomous_investment_robot/services/health_service/service.py:19-222 | The governor's verdict and size from the raw faults of the signals, the stage and what reconciliation, truth, integrity and venue ask for; the market reading plays no part. |
| Governor.LiveSizeFromSignals | src/autonomous_investment_robot/services/health_service/service.py:19-222 | The size the live loop permits in closed form from its raw signals, and that no market reading changes it. |
| Governor.HealthFigures | src/autonomous_investment_robot/services/health_service/service.py:31-93 | The score, execution and overtrading figures of a health snapshot. |
| Governor.LowScoreDisables | src/autonomous_investment_robot/services/health_service/service.py:197-201 | A market score under 0.2 disables the symbol whatever else is asked for. |
| Governor.ReadingScores | src/autonomous_investment_robot/services/market_data_service/service.py:69-116 | What each reading does to the scores of an assessment. |
| Governor.PermittedNeverGrows | src/autonomous_investment_robot/services/health_service/service.py:107-222 | The permitted size never grows when health, reconciliation, truth, integrity, venue or rollout worsen. |
| Governor.PromotionNeverShrinks | src/autonomous_investment_robot/services/health_service/service.py:9-17 | Promotion never shrinks the permitted size, an unknown stage may trade what limited live may, and before live nothing may be traded whatever the other inputs. |
| Governor.FlawedTruthLimitsSize | src/autonomous_investment_robot/services/health_service/service.py:143-152 | With an unavailable critical level nothing may be traded and with any other flawed level at most a quarter, whatever action the snapshot records. |
| Governor.FlattenKeptIff | src/autonomous_investment_robot/services/health_service/service.py:197-201 | A demand to flatten reaches the decision if and only if no market score is under 0.2. |
| Governor.AssessedFlattenIsKept | src/autonomous_investment_robot/services/health_service/service.py:197-201 | With scores from a market assessment it is never masked. |
| Governor.GovernorAgreesWithSnapshot | src/autonomous_investment_robot/services/health_service/service.py:130-152 | The governor, which reads the levels again, reaches the action the truth snapshot recorded. |
| Governor.TruthNeverMilder | src/autonomous_investment_robot/services/live_runtime/service.py:197-340 | Worse inputs, more fill-history gaps among them, never make the overall truth action milder. |
| Governor.TruthActionIff | src/autonomous_investment_robot/services/live_runtime/service.py:197-340 | The overall truth action from the raw inputs: flatten exactly on a real gap, a missing balance or a stale feed, continue exactly with everything known at first hand. |
| Governor.LevelsAloneCanImprove | src/autonomous_investment_robot/services/live_runtime/service.py:206-225 | The fee and profit levels alone do improve under one more gap. |
| Governor.RealizedGapMilderIff | src/autonomous_investment_robot/services/live_runtime/service.py:215-225 | More realised-profit gaps make the action milder exactly when the balance proxy is the only one, the fill history misses the profits, and nothing else critical is unavailable. |
| Governor.LiveFailClosed | src/autonomous_investment_robot/services/live_runtime/coordination.py:694-711 | The decision the live loop takes: from raw readings, signals, venue and stage, a worse situation never lets more be traded. |
| Governor.LiveIgnoresTruth | src/autonomous_investment_robot/services/live_runtime/coordination.py:705-711 | That decision is the same whatever truth and reconciliation action are, and never permits less than one that sees them. |
| Governor.TruthDoesNotCloseTheLiveGate | src/autonomous_investment_robot/services/live_runtime/coordination.py:705-716 | With readings, signals and venue clean the live loop may trade the whole cap under any truth and reconciliation action, even where a decision that sees them permits nothing. |
| Governor.FailClosed | src/autonomous_investment_robot/services/health_service/service.py:107-222 | The same monotonicity for a decision that does pass truth and reconciliation to the governor. |
| Governor.CleanTradesAtCap | src/autonomous_investment_robot/services/health_service/service.py:107-222 | A clean situation may trade the whole rollout cap. |

## Left out

- Connectors, HTTP signing, JSON, files: exchange replies, previews, quotes and stored rows are inputs or abstract logs; torn log lines and rows that are not objects do not occur.
- `_all_trade_history`: paging, sorting and duplicate removal; the trade history is an input (sorted by time where a result needs it), and a fetch that raises, which leaves the service as it was, does not occur.
- `flatten_all_positions` and `emergency_kill_and_flatten`: best-effort loops with deliberately unguarded market sells, so every claim about sells is about `execute_intent` only.
- The Binance and Kraken derivatives services, whose ordering is always refused.
- Strategy, scoring, policy, risk, portfolio, reconciliation and reporting services; market integrity and venue limits enter the governor as inputs with the four actions they can ask for.
- The post-only mark of a resting order, which its payload carries and its trace here does not.
- Float rounding: reals throughout; the 8-decimal formatting of sent quantities and prices appears only as the 1e-8 lattice, rounding ties in the intent fingerprint and non-finite values not at all.
- sha256: a function of the order tag that is assumed injective where ids matter (`CollisionFree`); int(ts) is the floor, which for clock readings is the same.
- Clock readings: one reading per place that reads the clock; a polling loop is the list of its polls, its end the deadline.
- Lifecycle records: first-seen and last-update time stamps, metadata and texts of events; the orphaned and recovered events have no caller in the spot service and are covered only as events any run of the mirror may contain.
- Booking: the gap texts returned beside the booked fills, and the exchange order id hidden in the raw part of a reply.
- The private-API health flag, market-integrity evidence and read-only execution.
- The reduce-only mark of a sent order is the caller's mark: the payload itself carries none on spot.
- Recovery: the answers to the cancellations of orphans, order-state texts, reasons, and the confidence computation of `rehydrate_state`, whose result is an input.
- The governor's reasons, forced risk mode and journal metadata; drift and anomaly pressure, which do not reach the decision.
- SpotRuns.IntentsSentAtMostOnce: assumes the fingerprint is read within 595 seconds of the start of the call, because the entry is stamped with the start and evicted 600 seconds later; LateReadingSendsTwice shows that the property fails past it.
- StatusAgreement.AgreementIff: assumes that actions keep ids apart (`ActionClean`): what names an order does so by its client id and carries no id of another order, as the connector's replies do; an update under another id of the order is the subject of OtherIdAgreesIff, one under an id never taught of UnlearnedIdOpensARecord.
- StatusAgreement.AgreementKept: assumes the same of the ids.
- The program around the service: that it stops after a failed preflight or an insufficient restart confidence is not modelled, so runs contain calls it would not make.
- SpotLedger.FillsBookedAtMostOnce: about the ids the service itself knows; fills a start adds from the exchange history are not among them, so a later order may book such a fill again.
