# SmartFood: a verified model of its protocols

This project models, in Dafny, the parts of the SmartFood platform in which several
parties race on shared state, and proves what they keep in every run:

* **Order saga** (`OrderWorld`, `OrderAttempts`, `OrderSaga`, `OrderSagaProofs`,
  `OrderSagaTheorems`, `OrderSagaForks`, `OrderSagaReasons`, `OrderSagaDoom`, `OrderSagaRuns`):
  `OrderWorkflow` and its `DeliveryWorkflow` child, interleaved with the kitchen, the
  customer's cancel, courier marks, timers, the stock reaper and activities that are
  retried after any of their effects. An attempt that was given up, lost to a timeout or
  overrun by the forward deadline, may still run on at any later time. The two coroutines
  are flattened into a step relation over program counters, because a coroutine's
  suspension points are what the races are about; the activities and guarded row moves
  are a class.
* **Offer cascade** (`OfferCascade`, `OfferRace`): the delivery child's signal handlers and
  `_assign` as methods with loops, under arbitrary signals and activity durations; and
  `_assign` against dispatch's own two tables as a step relation over single writes, with
  lost answers, attempts that are given up and run on, and the riders' taps in between.
* **Idempotency store** (`Idempotency`, `IdempotencySql`): the table and its operations as a
  class, histories of many clients with `reserve` atomic, and a second machine at the
  granularity of SQL statements.
* **Event pipeline** (`Replay`, `Facts`, `Consumer`, `Pipeline`, `Schedules`): the outbox
  poller, a topic partition, the consumer runtime in both modes and the analytics fold, each
  of which may crash between any two effects, with the staging order left to the writers'
  clocks in `Schedules`.
* **Knowledge drain** (`KnowledgeDrain`): the debounce queue, the drain's phases and the
  vector index, with menu events arriving at every gap.
* **Content drafts** (`Drafts`): the guarded row moves, the human actions built from a read,
  a guarded write and a second read, and the job shell.
* **Pricing and hours** (`Pricing`, `HourPoints`, `Hours`).

`Options` holds the one shared datatype. I/O answers (ports, brokers, providers, clocks,
the decoder, other clients) are parameters or arbitrary values, so each statement holds for
all of them. Fields named in comments as history (`written`, `captures`, `voids`, `owner`,
`marked`, `clean`, `latest`, `IdempotencySql`'s `taken`, `offered`, `slipped`, `dropped`) are
read by no modelled decision.

## What the code does not keep

Where a documented promise fails, the code is modelled as it is, a run or input shows the
failure, and the exact condition is proved.

* *The saga raises only after a stale deadline.* There are four ways, and a run can still
  return iff none of them has happened in it (`DoomHasFourCauses`, `DoomedIffCaused`,
  `ReturnableIffNotDoomed`): a deadline after the step's own row move landed
  (`StaleDeadlineRaises`); an abandoned step whose row move lands while BEGIN_CANCEL is on
  its way (`LateMoveRaises`); a refused reserve overtaken by an abandoned one
  (`OvertakenRefusalRaises`); and MARK_ACCEPTED repeated after the kitchen moved on
  (`LostAcceptRaises`).
* *A settled order consumed its reservation.* Not if the reaper met it active first
  (`ReaperBeatsSettlement`); exactly then (`SettledStockIsConsumedUnlessReaped`).
* *Cancelled means nothing held.* A cancelled run holds money iff an abandoned authorize took
  it after the void, and stock iff an abandoned reserve took it after the release and no
  reaper has come by (`ReturningRunsAreBalanced`, with the runs `LateAuthorizeStrandsHold` and
  `LateReserveStrandsStock`). Where no abandoned attempt runs on, nothing is held, although
  the steps that timed out may have taken effect (`PunctualRunsHoldNothing`).
* *Nobody is offered the order twice between two resets.* A search can pick a rider who had
  the order iff the rider is neither excluded nor locked and either carries it with room for
  more, or does not carry it after slipping past an exclusion, losing the slot to a late
  attempt, or delivering it (`RepeatIff`). Each way has a run: `RoomForTwoRepeats`,
  `SlippedAndOfferedAgain`, `DroppedAndOfferedAgain`, `DeliveredAndOfferedAgain`. At the
  configured capacity of one it takes a lost answer or an abandoned attempt
  (`ToldRunsNeverRepeat`); at any capacity, one of these or an expiry between the two writes
  of an accept (`OrderlyRunsNeverRepeat`, `OvertakenTapRepeats`).
* *A cascade that ends with a rider ends with a courier who has the food.* UNASSIGN_STALLED
  reads any row it could not revert as a pickup. It is wrong iff the row is being offered or
  names somebody else (`FalsePickupIff`): after one lost answer
  (`LostUnassignCollectsNothing`), or with every answer heard when an expiry runs between the
  two writes of an accept (`OvertakenTapCollectsNothing`). If neither happens the promise holds
  (`OrderlyRunsCollectForReal`), and in every run at most one rider scans the food
  (`OneCourier`).
* *Exactly one take-over wins.* True of a COMPLETE row; a stale IN_PROGRESS row is won by
  every client that read it (`EveryTakerOfAStaleRowWins`, `TwoHoldersAtOnce`). Comparing
  `created_at` as well repairs it (`RepairedGuardAdmitsOneHolder`).
* *Purging is invisible.* Iff no request meets a purged row under another body
  (`PurgingIsInvisibleIff`), so for one body per key; a second body reveals it
  (`SecondBodyRevealsPurging`).
* *A replay returns the holder's answer.* For holders that finish in time. In any history it
  returns the last completion since the last grant, so another request's answer exactly when
  that completion came from another request (`ReplaysReturnTheLastCompletion`,
  `LateHolderAnswersForItsSuccessor`).
* *The fact row does not depend on crashes.* Not if an event was given up without having been
  written (`GivingUpLosesTheEvent`), nor if two writers' clocks disagree: the poller sorts by
  their stamps, so an older event may come last (`SkewedClocksReorder`). An event is staged in
  order iff its stamp comes after all stamps of its order (`StampsDecide`). Whatever the
  staging, every run of a schedule gives the merge, whatever the events say, iff every event
  was written and the last times are in order (`RowIsTheMergeIffInOrder`). A call that commits
  and then raises is no loss, even when it is given up (`RaisedAndGivenUpIsWritten`).
* *Committed means handled or parked.* For at least one attempt; with none, a readable message
  is committed and gone (`FateMeans`, `EventConsumer.Process`).
* *Every stored vector is the embedding of its text.* A pass keeps this iff no chunk is
  `Wronged`; the menus that no index can spoil are exactly those with one text per chunk id
  (`PassIsHonestIffNothingWronged`, `SafeMenus`). Draining a menu that lists one dish with two
  texts a second time puts the wrong vector on it (`SecondPassSpoilsTheVector`).
* *The job shell leaves nothing queued.* Except when its own park cannot be written
  (`StuckIff`, `Deliver`).

## Model

| member | source | states |
|---|---|---|
| `OrderWorld.OrderActivities.Transition` | services/order/order/domain/transitions.py:81-130 | a guarded move applies from `expected`, replays at `target`, is illegal elsewhere; the first cancel reason stays |
| `OrderWorld.OrderActivities.BeginCancelFrom` | services/order/order/domain/transitions.py:165-197 | the kitchen-window cancel wins from ACCEPTED, PREPARING or READY, replays its own win, and is too late otherwise |
| `OrderWorld.OrderActivities.ValidateAndReserve` | services/order/order/activities.py:147-154 | the reserve call, then the row move only on success; a shortage moves nothing |
| `OrderWorld.OrderActivities.AuthorizePayment` | services/order/order/activities.py:156-166 | the stored authorization answer is replayed; the row moves only when money is held |
| `OrderWorld.OrderActivities.CapturePayment` | services/order/order/activities.py:200-210 | takes held funds once; nothing to capture is refused |
| `OrderWorld.OrderActivities.VoidAuthorization` | services/order/order/activities.py:307-309 | voids a hold and is a no-op on anything else |
| `OrderWorld.OrderActivities.SettleOrder` | services/order/order/activities.py:212-224 | consumes an active reservation, then closes a delivered order |
| `OrderWorld.OrderActivities.ReleaseReservation` | services/order/order/activities.py:311-313 | releases an active reservation and is a no-op on anything else |
| `OrderWorld.MovesReplay` | services/order/order/activities.py:3-12 | repeating a row move or a kitchen-window cancel at once changes nothing more and gives the same answer |
| `OrderWorld.CallsReplay` | services/order/order/activities.py:307-313 | repeating any port call at once changes nothing more and gives the same answer, except that a refused reserve is asked anew |
| `OrderWorld.ReserveReplays` | services/order/order/activities.py:147-154 | repeating the whole reserve attempt gives the same world and answer, unless it was refused and left no trace |
| `OrderWorld.AuthorizeReplays` | services/order/order/activities.py:156-166 | repeating the whole authorize attempt gives the same world and answer |
| `OrderWorld.SettleReplays` | services/order/order/activities.py:212-224 | repeating the whole settle attempt changes nothing more |
| `OrderAttempts.ReserveIsItsEffects` | services/order/order/activities.py:147-154 | the reserve activity is exactly the effects of its program counter in the saga |
| `OrderAttempts.AuthorizeIsItsEffects` | services/order/order/activities.py:156-166 | the authorize activity is exactly the effects of its program counter in the saga |
| `OrderAttempts.SettleIsItsEffects` | services/order/order/activities.py:212-224 | the settle activity is exactly the two effects of its program counter in the saga |
| `OrderSagaProofs.EveryRunKeepsInv` | services/order/order/workflows.py:115-330 | the saga invariant (row, money, stock, child, program counter and abandoned attempts agree) holds in every state of every interleaved run |
| `OrderSagaTheorems.CaptureOnlyAfterDelivery` | services/order/order/workflows.py:229-236 | in every run capture executes only on a DELIVERED row, and captures plus voids never exceed one |
| `OrderSagaTheorems.NoRiderIsNeverTooLate` | services/order/order/workflows.py:283-301 | a child that found no rider leaves the row READY or dying, so the too-late fall-through to capture is unreachable |
| `OrderSagaTheorems.ReturningRunsAreBalanced` | services/order/order/workflows.py:143-186 | a cancelled run captured nothing, holds money iff an abandoned authorize took it after the void and stock iff an abandoned reserve took it after the release and was not reaped; a settled run captured once, voided nothing, and its stock is finished |
| `OrderSagaTheorems.PunctualRunsHoldNothing` | services/order/order/workflows.py:171-186 | a cancelled run in which no abandoned attempt ran on holds no money and no stock, although timed-out steps may have taken effect |
| `OrderSagaTheorems.SettledStockIsConsumedUnlessReaped` | services/inventory/inventory/domain/service.py:262-299 | a reservation is expired iff some reaper pass of the run met it active; a settled run consumed it iff none did |
| `OrderSagaTheorems.CustomerVersusCourier` | services/order/order/workflows.py:250-303 | CANCELLING is entered only from PLACED through READY, never together with PICKED_UP, and a returning run settles iff it reached pickup |
| `OrderSagaTheorems.CancellingComesFromAnAttempt` | services/order/order/activities.py:284-305 | only BEGIN_CANCEL at its expected stage or TRY_BEGIN_CANCEL in the kitchen window, run now or abandoned earlier, writes CANCELLING, and only from PLACED through READY |
| `OrderSagaForks.ForkLeads` | services/order/order/workflows.py:188-249 | told by the run's signals: the wait wakes iff a verdict or a cancel came; it goes on to the courier iff it wakes with acceptance as the first verdict and no cancel; otherwise it cancels, for the customer first, then for the timer or the rejection |
| `OrderSagaForks.CancelBeatsAcceptance` | services/order/order/workflows.py:198-208 | a run asked to cancel before it leaves the wait is never accepted and never starts a courier, whatever comes later |
| `OrderSagaForks.AcceptanceComesFromTheFork` | services/order/order/workflows.py:210-249 | a courier is started, the row accepted and the order settled only in runs whose wait ended with an acceptance and no cancel |
| `OrderSagaForks.RaceLeads` | services/order/order/workflows.py:263-301 | while the courier is out the parent wakes iff the child has ended or a cancel came; an ended child decides before any cancel |
| `OrderSagaForks.RefereeLeads` | services/order/order/workflows.py:266-282 | the customer's cancel wins iff the row is cancelling and loses iff the courier has the food; only then is the child told to stop, or awaited |
| `OrderSagaForks.CancelledRunsLeaveNoCourier` | services/order/order/workflows.py:270-281 | a run returns cancelled only with its child never started or ended |
| `OrderSagaForks.ChildIsToldIff` | services/order/order/workflows.py:270-271 | a live child hears a cancel iff its parent has begun to drain it or has failed |
| `OrderSagaForks.MarkLeads` | services/order/order/workflows.py:430-441 | a mark moves the row it expects, finds it moved, or fails the child |
| `OrderSagaForks.CancelledRunsUndoWhatTheyOwe` | services/order/order/workflows.py:143-186 | a cancelled run has voided iff it had asked for money and was not declined, released iff stock was not what it lacked, and called dispatch off iff no rider was found |
| `OrderSagaForks.VoidsComeFirst` | services/order/order/workflows.py:320-331 | the void that is owed is answered before the release begins, and a settled run undid nothing |
| `OrderSagaReasons.ReasonsAreTruthful` | services/order/order/workflows.py:305-318 | in every run a stamped reason has its evidence in the run: the deadline, the decision timer, the reject, the cancel signal, the courier search given up, the refusal with that same reason, or payment's stored decline |
| `OrderSagaDoom.DoomHasFourCauses` | services/order/order/workflows.py:138-186 | a step dooms a run iff it is a stale deadline, a late row move during BEGIN_CANCEL, an overtaken refusal, or a stale MARK_ACCEPTED |
| `OrderSagaDoom.DoomedIffCaused` | services/order/order/workflows.py:138-186 | over whole runs, a run is doomed iff one of the four causes has happened in it |
| `OrderSagaDoom.DoomIsFinal` | services/order/order/workflows.py:351-362 | no step leads out of doom |
| `OrderSagaDoom.UndoomedRunsCanReturn` | services/order/order/workflows.py:115-330 | every undoomed run has a continuation that returns |
| `OrderSagaDoom.DoomedRunsNeverReturn` | services/order/order/workflows.py:351-362 | no continuation of a doomed run returns |
| `OrderSagaDoom.ReturnableIffNotDoomed` | services/order/order/workflows.py:138-186 | a run can still return iff it is not doomed |
| `OrderSagaRuns.StaleDeadlineRaises` | services/order/order/workflows.py:171-186 | a run whose authorize landed before its deadline raises and strands hold and stock |
| `OrderSagaRuns.LostAcceptRaises` | services/order/order/workflows.py:227-227 | a run with no deadline and no reaper raises on the retried MARK_ACCEPTED |
| `OrderSagaRuns.ReaperBeatsSettlement` | services/order/order/activities.py:212-224 | a run settles, paid once, on an expired reservation |
| `OrderSagaRuns.LateAuthorizeStrandsHold` | services/order/order/workflows.py:171-186 | a run that returns cancelled and then holds money, because the abandoned authorize ran on after the void |
| `OrderSagaRuns.LateReserveStrandsStock` | services/order/order/workflows.py:145-154 | a run with no deadline that returns cancelled on a refused reserve and keeps stock an abandoned attempt reserved |
| `OrderSagaRuns.LateMoveRaises` | services/order/order/workflows.py:179-186 | a run that raises because an abandoned authorize moved the row before BEGIN_CANCEL |
| `OrderSagaRuns.OvertakenRefusalRaises` | services/order/order/workflows.py:145-154 | a run with no deadline that raises because an abandoned reserve overtook its retry's refusal |
| `OfferCascade.DeliveryWorkflow.OfferAccepted` | services/order/order/workflows.py:418-420 | the signal is one map write and disturbs no offer, record or mark |
| `OfferCascade.DeliveryWorkflow.CourierPickedUp` | services/order/order/workflows.py:422-424 | the signal adds one rider and disturbs no offer, record or mark |
| `OfferCascade.DeliveryWorkflow.CourierDelivered` | services/order/order/workflows.py:426-428 | the signal adds one rider and disturbs no offer, record or mark |
| `OfferCascade.DeliveryWorkflow.Attempt` | services/order/order/workflows.py:459-494 | one attempt: nobody found clears the exclusions after the retry pause; a heard accept gives the rider who accepted; an expiry, after the attempt's own window, gives exactly whom it reported, and its candidate is excluded iff that was nobody |
| `OfferCascade.DeliveryWorkflow.WaitOut` | services/order/order/workflows.py:472-494 | a heard accept returns that offer's accept; otherwise the offer is expired after its window and the result is exactly what the expiry reported |
| `OfferCascade.ReportedRiderIsRecorded` | services/order/order/workflows.py:481-495 | in every log, the activity after an expiry that reports a rider is the record of that rider |
| `OfferCascade.LapsedRiderIsPassedOver` | services/order/order/workflows.py:459-494 | in every log, after an expiry that reports nobody, or a revocation, comes a search that excludes that rider |
| `OfferCascade.NobodyFoundClears` | services/order/order/workflows.py:466-474 | in every log, after a search that found nobody comes one that excludes nobody |
| `OfferCascade.OfferAndRecordEnd` | services/order/order/workflows.py:475-508 | in every log, an offer ends with its own expiry or the record of a rider who accepted that offer; a record with that rider's mark on a scan, or that rider's revocation |
| `OfferCascade.DeliveryWorkflow.AwaitPickup` | services/order/order/workflows.py:495-508 | the rider found is recorded and either collected on that rider's own evidence or revoked and excluded after the full pickup clock |
| `OfferCascade.DeliveryWorkflow.Assign` | services/order/order/workflows.py:449-508 | it ends within ceil(deadline / shortest timer) searches for any durations; giving up comes at or after the deadline and, with instantaneous activities, less than the longest attempt after it and only after searching all the while; the workflow is told of nobody twice between resets; the rider returned is on record with evidence naming that rider |
| `OfferCascade.DeliveryWorkflow.Run` | services/order/order/workflows.py:430-441 | every pickup and delivery mark names the rider last recorded, on that rider's own evidence, under arbitrary signals |
| `OfferCascade.OffersFitTheCity` | services/order/order/workflows.py:457-508 | offers between two resets never exceed the number of riders |
| `OfferRace.EveryRunKeepsInv` | services/dispatch/dispatch/domain/service.py:140-298 | under every interleaving of single writes, locks, slots, row, signals and abandoned attempts agree, and every rider who was offered the order is accounted for |
| `OfferRace.OneCourier` | services/dispatch/dispatch/adapters/rider_store.py:360-388 | in every run at most one rider ever scans the food |
| `OfferRace.HeardSignalsDecide` | services/order/order/workflows.py:477-502 | in every run a heard accept settles its window with the candidate and a heard pickup the clock, only what was not heard expires or is revoked, and the deadline ends nothing but a search |
| `OfferRace.RepeatIff` | services/dispatch/dispatch/adapters/rider_store.py:150-158 | in every run the next search can pick a rider who had the order since the last reset iff the rider is neither excluded nor locked, and either carries it with room for more or slipped, was dropped late, or delivered it |
| `OfferRace.ToldRunsNeverRepeat` | services/order/order/workflows.py:457-508 | at a capacity of one, if every answer arrives, nobody gets the order twice between two resets |
| `OfferRace.OrderlyRunsNeverRepeat` | services/dispatch/dispatch/domain/service.py:225-298 | at any capacity, if moreover no expiry runs between the two writes of an accept, nobody gets the order twice between two resets |
| `OfferRace.OrderlyRunsCollectForReal` | services/order/order/workflows.py:495-508 | in such runs a cascade that ends with a rider ends with one who scanned the food |
| `OfferRace.FalsePickupIff` | services/dispatch/dispatch/domain/service.py:240-250 | in every run, the cascade ends with a rider who did not scan the food iff UNASSIGN_STALLED answers while the row is being offered or names somebody else |
| `OfferRace.RoomForTwoRepeats` | services/dispatch/dispatch/adapters/rider_store.py:150-158 | at any capacity above one a run offers the order again to a rider who carries it |
| `OfferRace.DeliveredAndOfferedAgain` | services/dispatch/dispatch/domain/service.py:309-319 | at a capacity of one a run offers the order to the rider who delivered it |
| `OfferRace.SlippedAndOfferedAgain` | services/dispatch/dispatch/domain/service.py:225-238 | at a capacity of one a run in which a lapsed offer is reported as taken by somebody else and its candidate is offered the order again |
| `OfferRace.DroppedAndOfferedAgain` | services/dispatch/dispatch/domain/service.py:240-250 | at a capacity of one a run in which an abandoned revocation runs after a reset and its rider is offered the order again |
| `OfferRace.OvertakenTapRepeats` | services/dispatch/dispatch/domain/service.py:281-295 | at any capacity above one a run in which every answer arrives and a rider is offered the order again |
| `OfferRace.LostUnassignCollectsNothing` | services/dispatch/dispatch/domain/service.py:240-247 | a run in which one lost answer ends the cascade with a rider who was taken off the order |
| `OfferRace.OvertakenTapCollectsNothing` | services/dispatch/dispatch/domain/service.py:281-295 | a run in which every answer arrives and the cascade ends with one rider while the row is another's, unscanned |
| `Idempotency.IdempotencyStore.Reserve` | libs/smartfood-idempotency/smartfood_idempotency/store.py:83-124 | the verdict and the table: fresh, body mismatch, replay, wait or take-over of a dead row |
| `Idempotency.IdempotencyStore.TakeOver` | libs/smartfood-idempotency/smartfood_idempotency/store.py:126-148 | the guarded reset wins iff the status is the expected one |
| `Idempotency.IdempotencyStore.CompleteKey` | libs/smartfood-idempotency/smartfood_idempotency/store.py:150-168 | stores the response on an existing row and changes nothing else |
| `Idempotency.IdempotencyStore.Purge` | libs/smartfood-idempotency/smartfood_idempotency/store.py:170-199 | removes exactly the rows past their TTL and counts them |
| `Idempotency.IdempotencyStore.Release` | libs/smartfood-idempotency/smartfood_idempotency/store.py:201-207 | removes the key's row |
| `Idempotency.OneLivingHolder` | libs/smartfood-idempotency/smartfood_idempotency/store.py:103-124 | every history, janitor included, has at most one living holder per key |
| `Idempotency.FirstIsGranted` | libs/smartfood-idempotency/smartfood_idempotency/store.py:87-99 | a key never granted is granted to whoever asks |
| `Idempotency.UnansweredIsWaitedFor` | libs/smartfood-idempotency/smartfood_idempotency/store.py:113-124 | while a grant stands unanswered the same body waits for the take-over window, counted from the grant, and is granted after it; another body is refused |
| `Idempotency.AnsweredIsReplayed` | libs/smartfood-idempotency/smartfood_idempotency/store.py:113-120 | once it is answered the same body is told exactly the last response stored, for the replay window counted from the grant, and is granted after it; another body is refused |
| `Idempotency.FreedIsGranted` | libs/smartfood-idempotency/smartfood_idempotency/store.py:170-207 | after a release, or a janitor pass that meets the key with its time up, any body is granted |
| `Idempotency.RowsAreExplained` | libs/smartfood-idempotency/smartfood_idempotency/store.py:103-168 | every row is explained by the last grant of its key and at most one completion since |
| `Idempotency.ReplaysReturnTheHoldersAnswer` | libs/smartfood-idempotency/smartfood_idempotency/store.py:114-120 | a replay returns the one response the last granted request of the same body stored |
| `Idempotency.ReplaysReturnTheLastCompletion` | libs/smartfood-idempotency/smartfood_idempotency/store.py:150-168 | in any history at all a replay returns the response of the last completion since the last grant, so another request's answer exactly when another request completed |
| `Idempotency.LateHolderAnswersForItsSuccessor` | libs/smartfood-idempotency/smartfood_idempotency/store.py:160-168 | a history in which a holder outlives its window, is taken over, completes, and answers for its successor |
| `Idempotency.PurgingIsInvisible` | libs/smartfood-idempotency/smartfood_idempotency/store.py:170-199 | janitor passes anywhere in any history change no verdict, given one body per key |
| `Idempotency.PurgingIsInvisibleIff` | libs/smartfood-idempotency/smartfood_idempotency/store.py:170-199 | per history: janitor passes change no verdict iff no request meets a purged row under another body |
| `Idempotency.SecondBodyRevealsPurging` | libs/smartfood-idempotency/smartfood_idempotency/store.py:114-115 | for any two bodies a history exists in which purging changes a verdict |
| `IdempotencySql.OneTakerOfACompleteRow` | libs/smartfood-idempotency/smartfood_idempotency/store.py:117-119 | statement by statement, a COMPLETE row is taken over at most once per completion |
| `IdempotencySql.EveryTakerOfAStaleRowWins` | libs/smartfood-idempotency/smartfood_idempotency/store.py:121-148 | every client that read a stale IN_PROGRESS row wins its update, however many there are |
| `IdempotencySql.TwoHoldersAtOnce` | libs/smartfood-idempotency/smartfood_idempotency/store.py:129-148 | a run in which two requests hold one key at once |
| `IdempotencySql.RepairedGuardAdmitsOneHolder` | libs/smartfood-idempotency/smartfood_idempotency/store.py:131-137 | with `created_at` in the guard each incarnation is taken once and at most one client holds the key |
| `IdempotencySql.LoneClientIff` | libs/smartfood-idempotency/smartfood_idempotency/store.py:87-124 | a client whose statements nobody interrupts holds the key iff there was no row or its window had passed, and changes nothing otherwise |
| `IdempotencySql.LosersWaitAndJanitorsClean` | libs/smartfood-idempotency/smartfood_idempotency/store.py:146-148 | who loses the guarded update waits and changes nothing; the janitor removes a row iff its window has passed |
| `Replay.Rewind` | libs/smartfood-outbox/smartfood_outbox/poller.py:177-190 | starting over from an earlier event keeps each column explicable by the stream |
| `Replay.Emit` | libs/smartfood-outbox/smartfood_outbox/poller.py:125-155 | emitting the next event, for the first time or again, moves on |
| `Replay.Through` | services/analytics/analytics/consumers.py:45-60 | once emitted through to the end, the row is the in-order merge |
| `Replay.InOrderMerges` | services/analytics/analytics/consumers.py:45-60 | any schedule that emits everything, with last times in order, gives the merge |
| `Replay.OutOfOrderLoses` | services/analytics/analytics/consumers.py:45-60 | for any other schedule some stream comes out wrong |
| `Facts.FoldFacts` | services/analytics/analytics/consumers.py:45-60 | raises iff some payload cannot be read; otherwise one row per order, and upserting the rows onto any table equals applying the events one by one |
| `Facts.AnyOrderOfRows` | services/analytics/analytics/adapters/repo.py:244-262 | the folded rows may be upserted in any order |
| `Facts.FactsProjector.HandleBatch` | services/analytics/analytics/consumers.py:73-78 | all events of a readable batch are applied, or nothing is |
| `Facts.FactsProjector.HandleOrDegrade` | libs/smartfood-kafka/smartfood_kafka/consumer.py:284-312 | a batch with unreadable payloads degrades to singles with the same table and parks exactly those, in order |
| `Facts.FactsProjector.ConsumeAll` | libs/smartfood-kafka/smartfood_kafka/consumer.py:250-282 | any split of the stream into batches gives the table and the parked events of the whole stream |
| `Facts.RowIsTheMerge` | services/analytics/analytics/consumers.py:45-60 | an order's fact row is the in-order merge of its own events |
| `Consumer.FateMeans` | libs/smartfood-kafka/smartfood_kafka/consumer.py:339-367 | handled iff some attempt within the bound succeeds first, dead iff the bytes are bad or all attempts fail, dropped iff no attempt is allowed |
| `Consumer.EventConsumer.Park` | libs/smartfood-kafka/smartfood_kafka/consumer.py:369-384 | the original key and bytes go to the dead-letter topic with source and attempts; a send that raises may have landed or not, and stops the pass either way |
| `Consumer.EventConsumer.Process` | libs/smartfood-kafka/smartfood_kafka/consumer.py:314-367 | the message's fate exactly; a message that went through is accounted for iff it was, its bytes are bad, or an attempt is allowed |
| `Consumer.EventConsumer.ConsumeOnce` | libs/smartfood-kafka/smartfood_kafka/consumer.py:199-215 | how far the session gets and commits, exactly; of the deliveries made exactly those with a succeeding attempt are handled and exactly the dead ones parked, each once and verbatim; every offset below the committed one was handled or parked, wherever it crashed |
| `Consumer.EventConsumer.SinglesReach` | libs/smartfood-kafka/smartfood_kafka/consumer.py:199-215 | a session crashes iff some delivery meets a message it does not get over or cannot commit; up to the first such one, or to its end, each partition is committed as far as deliveries name it |
| `Consumer.PassesIff` | libs/smartfood-kafka/smartfood_kafka/consumer.py:334-367 | a pass gets over a message iff its bad bytes are parked, an attempt succeeds, or all attempts fail and the record is parked |
| `Consumer.EventConsumer.SinglesLag` | libs/smartfood-kafka/smartfood_kafka/consumer.py:207-211 | a crashed single-mode session leaves exactly the message in flight uncommitted |
| `Consumer.EventConsumer.Assemble` | libs/smartfood-kafka/smartfood_kafka/consumer.py:268-276 | bad bytes are parked in order, the rest becomes the batch, a degraded decoder or dead-letter failure stops the pass |
| `Consumer.EventConsumer.HandleBatch` | libs/smartfood-kafka/smartfood_kafka/consumer.py:284-312 | whole batch handled, or each event retried and parked on its own |
| `Consumer.EventConsumer.Singles` | libs/smartfood-kafka/smartfood_kafka/consumer.py:299-312 | each event retried and parked on its own, in order, until one of them crashes the pass |
| `Consumer.SinglesAccount` | libs/smartfood-kafka/smartfood_kafka/consumer.py:300-312 | with at least one attempt, each event of a degraded batch is handled or parked |
| `Consumer.EventConsumer.PollOnce` | libs/smartfood-kafka/smartfood_kafka/consumer.py:261-278 | offsets move once per poll, only after everything fetched is accounted for |
| `Consumer.EventConsumer.ConsumeBatchesOnce` | libs/smartfood-kafka/smartfood_kafka/consumer.py:250-282 | how far the session gets and commits, exactly; every offset below the committed one was handled or parked verbatim, wherever it crashed |
| `Consumer.EventConsumer.BatchesReach` | libs/smartfood-kafka/smartfood_kafka/consumer.py:250-282 | a session crashes iff some poll meets something it does not get over or cannot commit; up to the first such poll, or to its end, each partition is committed as far as it was asked for |
| `Consumer.EventConsumer.SurvivesIff` | libs/smartfood-kafka/smartfood_kafka/consumer.py:261-312 | a poll is got over iff every record is an event or parked as bad bytes, the events go through as one or one by one, and the commit goes through |
| `Consumer.EventConsumer.PollHandles` | libs/smartfood-kafka/smartfood_kafka/consumer.py:284-312 | a poll that is got over handles exactly its events that went through as one or by an attempt of their own |
| `Consumer.EventConsumer.PollParks` | libs/smartfood-kafka/smartfood_kafka/consumer.py:268-312 | and parks, verbatim, exactly its bad bytes and the events whose attempts all failed |
| `Consumer.EventConsumer.FetchedInOrder` | libs/smartfood-kafka/smartfood_kafka/consumer.py:268-276 | each partition's records are taken in the order of their offsets |
| `Consumer.EventConsumer.BatchInOrder` | libs/smartfood-kafka/smartfood_kafka/consumer.py:268-276 | and the batch made of them keeps that order |
| `Consumer.EventConsumer.Live` | libs/smartfood-kafka/smartfood_kafka/consumer.py:181-248 | the same over any sequence of sessions in either mode |
| `Consumer.EventConsumer.CommittedGoesOn` | libs/smartfood-kafka/smartfood_kafka/consumer.py:181-248 | over any sequence of sessions the committed offsets never go back |
| `Pipeline.SelectionContinues` | libs/smartfood-outbox/smartfood_outbox/poller.py:116-124 | what is unpublished of an order starts at its mark and has no gap |
| `Pipeline.SelectedAt` | libs/smartfood-outbox/smartfood_outbox/poller.py:116-124 | a pass selects, in outbox order, unpublished rows, at most its limit, leaving none out before the last one |
| `Pipeline.SendIsAReplay` | libs/smartfood-outbox/smartfood_outbox/poller.py:127-155 | each send, again or for the first time, keeps the topic a stuttering replay of the staged events |
| `Pipeline.OutboxPoller.DrainOnce` | libs/smartfood-outbox/smartfood_outbox/poller.py:101-175 | marks the selected rows only when every send was confirmed; a failing pass leaves the outbox as it was; each pass is a run of the pipeline |
| `Pipeline.EveryRunKeepsInv` | libs/smartfood-outbox/smartfood_outbox/poller.py:101-190 | with staging in order, for every order and column, outbox numbering, topic and fact row stay explicable under every crash schedule |
| `Pipeline.BatchIsSingles` | libs/smartfood-kafka/smartfood_kafka/consumer.py:284-299 | handling a batch as a whole is handling its records one by one |
| `Pipeline.DrainedRowsAreMerges` | services/analytics/analytics/consumers.py:45-78 | after any run that stages in order, drains and gave up no record when it last passed it, each fact row is the in-order merge of the order's staged events |
| `Pipeline.CrashesLeaveNoTrace` | libs/smartfood-kafka/smartfood_kafka/consumer.py:250-282 | after any run that stages in order, drains and gave up no record when it last passed it, each fact row is what applying the staged events once, with no crash, gives |
| `Pipeline.RunsWithoutGiveUpLeaveNoTrace` | services/analytics/analytics/consumers.py:45-78 | the same for every such run in which the handler never ran out of attempts |
| `Schedules.RowIsWhatWasWritten` | services/analytics/analytics/consumers.py:73-78 | in every run a fact row is the merge of the order's written events in the order of time, calls that commit and raise included |
| `Schedules.RetoldIsTheSameSchedule` | libs/smartfood-outbox/smartfood_outbox/poller.py:101-155 | replacing what an order's events say changes nothing else in a run: the same rows, sends, offsets and written events |
| `Schedules.RowIsTheMergeIffInOrder` | libs/smartfood-kafka/smartfood_kafka/consumer.py:300-312 | for every schedule: its runs all give the merge, whatever the order's events say, iff every event was written and their last times are in staging order |
| `Schedules.InOrderRunsMerge` | services/analytics/analytics/consumers.py:45-78 | whatever the staging and the crashes, a run that wrote every event of an order, last times in order, leaves the merge as its row |
| `Schedules.StampsDecide` | libs/smartfood-outbox/smartfood_outbox/poller.py:116-124 | an event is staged in order iff its stamp sorts after the stamps of all rows of its order |
| `Schedules.SkewedClocksReorder` | libs/smartfood-outbox/smartfood_outbox/poller.py:116-124 | for any two events whose order matters, a draining run in which the older one is handled last and wins |
| `Schedules.GivingUpLosesTheEvent` | libs/smartfood-kafka/smartfood_kafka/consumer.py:307-310 | for any event a draining run in which it is given up and missing from the row |
| `Schedules.RaisedAndGivenUpIsWritten` | libs/smartfood-kafka/smartfood_kafka/consumer.py:301-310 | for any event a draining run in which its call commits and raises, it is given up, and the row has it all the same |
| `Pipeline.EveryRunCanDrain` | libs/smartfood-outbox/smartfood_outbox/poller.py:177-190 | every run, however it crashed, can be continued to a drained one |
| `KnowledgeDrain.PassShowsThePayload` | services/ai-assistant/ai_assistant/adapters/vector_store.py:124-137 | after a pass the index shows exactly the payload's chunks, the last of each id winning, nothing left over |
| `KnowledgeDrain.DisplaysIff` | services/ai-assistant/ai_assistant/drain.py:105-153 | a shelf displays a payload iff it has the restaurant's chunk and one per listed dish and no other, each with the text and columns of the restaurant or of the dish's last listing |
| `KnowledgeDrain.OneTextIff` | services/ai-assistant/ai_assistant/drain.py:155-181 | a menu gives each chunk id one text iff no two listings of a dish differ in theirs |
| `KnowledgeDrain.PassIsHonestIffNothingWronged` | services/ai-assistant/ai_assistant/adapters/vector_store.py:173-199 | for every provider, a pass over a truthful index leaves it truthful iff no chunk is wronged: spoilt, with a vector the provider tells apart |
| `KnowledgeDrain.SafeMenus` | services/ai-assistant/ai_assistant/drain.py:155-181 | no index spoils a chunk of a menu iff the menu gives each chunk id one text |
| `KnowledgeDrain.RedrainIsHonestIff` | services/ai-assistant/ai_assistant/drain.py:105-153 | for every provider, a first pass is truthful; draining the same menu again is truthful iff nothing is wronged over its own last texts |
| `KnowledgeDrain.SecondPassSpoilsTheVector` | services/ai-assistant/ai_assistant/adapters/vector_store.py:184-190 | any dish listed with two texts that the provider tells apart gets a wrong vector on the second pass |
| `KnowledgeDrain.KnowledgeIndex.Stage` | services/ai-assistant/ai_assistant/adapters/repo.py:38-96 | an indexable payload replaces the queued one; anything else is ignored |
| `KnowledgeDrain.KnowledgeIndex.Complete` | services/ai-assistant/ai_assistant/adapters/repo.py:120-143 | the queued row goes iff it still holds the drained payload |
| `KnowledgeDrain.KnowledgeIndex.Stale` | services/ai-assistant/ai_assistant/drain.py:155-181 | exactly the texts that differ from what is stored, each once |
| `KnowledgeDrain.KnowledgeIndex.ReplaceRestaurant` | services/ai-assistant/ai_assistant/adapters/vector_store.py:124-218 | the writes in order, then the reconcile, on one restaurant only |
| `KnowledgeDrain.KnowledgeIndex.DrainOne` | services/ai-assistant/ai_assistant/drain.py:105-153 | with menu events arriving meanwhile, each restaurant's latest payload stays queued or shown; a failed embedding leaves the row queued |
| `KnowledgeDrain.KnowledgeIndex.Tick` | services/ai-assistant/ai_assistant/drain.py:88-103 | one tick from a snapshot of the queue stops exactly at the first failure: rows before it are shown, the others stay queued, and freshness holds |
| `KnowledgeDrain.KnowledgeIndex.Live` | services/ai-assistant/ai_assistant/drain.py:72-103 | in every run the index is fresh, and truthful while no menu event gives one id two texts |
| `Drafts.DecisionsAreFinal` | services/ai-assistant/ai_assistant/drafts.py:183-316 | published and rejected rows never change again and no text changes once drafted, whatever statements follow |
| `Drafts.OneReplayPerPark` | services/ai-assistant/ai_assistant/drafts.py:287-304 | successful replays and parks balance: racing clicks cannot replay one park twice |
| `Drafts.DraftStore.Move` | services/ai-assistant/ai_assistant/drafts.py:306-316 | the guarded update and whether it matched |
| `Drafts.DraftStore.Approve` | services/ai-assistant/ai_assistant/drafts.py:204-249 | a normal return means exactly that text is published; it returns iff it already was, or the row is drafted copy at the read and at the write |
| `Drafts.DraftStore.Refuse` | services/ai-assistant/ai_assistant/drafts.py:251-264 | a normal return means the row is rejected; it returns iff it already was, or the row is drafted at the read and at the write |
| `Drafts.DraftStore.Replay` | services/ai-assistant/ai_assistant/drafts.py:287-304 | a normal return means this call took the row from parked to queued |
| `Drafts.RetryIff` | services/ai-assistant/ai_assistant/tasks.py:95-99 | a job is retried iff it got as far as the provider on a queued row, the provider was in trouble and the bound is not reached |
| `Drafts.DraftedIff` | services/ai-assistant/ai_assistant/content.py:47-136 | an undisturbed execution drafts the row iff a supportable text was produced and its write landed, and the row then holds that text |
| `Drafts.DraftedNowIff` | services/ai-assistant/ai_assistant/content.py:128-136 | with other clients in between: an execution reports drafted iff its own write met the row queued, and the row then holds its text; superseded iff somebody settled the row before the write, which then changed nothing |
| `Drafts.AlreadyIff` | services/ai-assistant/ai_assistant/content.py:107-116 | an execution that loads a settled row reports that row's status and changes nothing |
| `Drafts.ParkedIff` | services/ai-assistant/ai_assistant/tasks.py:80-103 | an undisturbed execution parks a queued row iff something was in the way of the draft, its own write had not landed all the same, and its park landed |
| `Drafts.ShortenKeeps` | services/ai-assistant/ai_assistant/drafts.py:193-202 | the stored error is the first 500 characters of it |
| `Drafts.RunDraft` | services/ai-assistant/ai_assistant/content.py:96-136 | how the body ends, with the row's own status where it was already settled, and which statements it ran, with other clients in between |
| `Drafts.RunJob` | services/ai-assistant/ai_assistant/tasks.py:68-103 | how one execution ends and the table it leaves, by arm |
| `Drafts.JobSettles` | services/ai-assistant/ai_assistant/tasks.py:68-103 | an execution that ends normally has taken the row out of the queue |
| `Drafts.StuckIff` | services/ai-assistant/ai_assistant/tasks.py:86-103 | an undisturbed execution leaves the row queued iff it had to park, the park did not land and the draft had not landed |
| `Drafts.Deliver` | services/ai-assistant/ai_assistant/tasks.py:106-134 | a job ends within max_retries + 1 executions with the row out of the queue, unless the last park raised |
| `Drafts.StaysOut` | services/ai-assistant/ai_assistant/drafts.py:183-202 | absent a replay a row that left the queue stays out |
| `Pricing.PriceLine` | libs/smartfood-pricing/smartfood_pricing/engine.py:102-175 | a line is priced iff its picks are acceptable: one priced option per pick, in order, the first option of that id in the group of that id, and (item price + sum of their deltas) times the quantity; otherwise it is refused with its first problem |
| `Pricing.SumAdds` | libs/smartfood-pricing/smartfood_pricing/engine.py:167-167 | a sum is zero for nothing, the amount for one, and additive under concatenation |
| `Pricing.FaultIsTheFirstProblem` | libs/smartfood-pricing/smartfood_pricing/engine.py:116-164 | the problem named is that of the first pick off the menu or repeated, failing that of the first group with too few or too many |
| `Pricing.FaultlessIffAcceptable` | libs/smartfood-pricing/smartfood_pricing/engine.py:116-164 | a line has no problem iff every pick is on the menu, none repeats, and every group has as many as it wants |
| `Pricing.PriceOrder` | libs/smartfood-pricing/smartfood_pricing/engine.py:32-99 | all lines are inspected before anything is refused |
| `Pricing.PlacementIffQuote` | libs/smartfood-pricing/smartfood_pricing/engine.py:85-99 | placement with an expected total succeeds iff the quote does with that total, and gives the same order |
| `Pricing.PricedIff` | libs/smartfood-pricing/smartfood_pricing/engine.py:41-75 | a quote is given iff the restaurant is open, the cart non-empty and every line orderable and acceptable |
| `Pricing.GoneIff` | libs/smartfood-pricing/smartfood_pricing/engine.py:59-68 | a line counts as gone iff the restaurant does not offer its item or its first bad pick is off the menu |
| `Pricing.RefusalsAreComplete` | libs/smartfood-pricing/smartfood_pricing/engine.py:54-75 | unavailability outranks violations and names every such item; otherwise one violation per faulty line |
| `Pricing.WrongMeans` | libs/smartfood-pricing/smartfood_pricing/engine.py:59-68 | each line contributes exactly its first problem, in line order |
| `Pricing.TotalsAddUp` | libs/smartfood-pricing/smartfood_pricing/engine.py:77-99 | a priced order has one line per line, each at its item's price with every option, and charges the sum of the line totals, the fee and the tax rounded down, in the last line's currency |
| `HourPoints.HhmmRoundTrip` | libs/smartfood-pricing/smartfood_pricing/hours.py:50-63 | every minute of the day, written HH:MM, reads back as itself |
| `HourPoints.ParseHhmmIff` | libs/smartfood-pricing/smartfood_pricing/hours.py:50-63 | a text is read as a minute iff it is an hour and a minute in range around its one colon; everything else is refused |
| `HourPoints.DigitsIff` | libs/smartfood-pricing/smartfood_pricing/hours.py:57-60 | a numeral is read iff it is digits with single underscores between them |
| `Hours.Windows` | libs/smartfood-pricing/smartfood_pricing/hours.py:66-82 | the day's pairs, or nothing if any point is unreadable or unpaired |
| `Hours.CoversMeans` | libs/smartfood-pricing/smartfood_pricing/hours.py:105-118 | a window reaches its own day from opening to before closing, or to midnight if it crosses it, and then the next day before closing; no other day |
| `Hours.IsOpenAt` | libs/smartfood-pricing/smartfood_pricing/hours.py:85-120 | open iff no schedule, unknown zone, an entry under today's name that is no list of readable pairs, or inside the union of the half-open intervals that the schedule's pairs say on the cyclic week |

## Left out

- Frontend, HTTP layers, configuration, tracing, metrics, logging and authentication: plumbing with no hard property.
- The internals of inventory, payment and catalog, and of dispatch beyond what `OfferRace` follows: only the guarded, idempotent answers the saga relies on are modelled.
- `create_order` beyond its row: the placement insert, its outbox event and the adoption of an existing row would only add easy members.
- Child cancellation inside the offer cascade: the saga delivers it at any live point of the child; freeing the rider afterwards is not claimed, since a child that fails on a row guard bypasses its cleanup.
- The guarded UPDATE and the re-read that classifies zero rows are one step in the saga.
- Abandoned attempts of the child's own two marks: while a mark is retried they equal a mark that landed and whose answer was lost, and once it is over their guard has passed.
- OfferCascade.DeliveryWorkflow.Assign: requires positive timers and a non-negative deadline, because the source's settings are such and zero pauses would allow endless searches; that the workflow is told of nobody twice is stated for offers taken by the rider they were made to (`candid`), and `OfferRace` says when dispatch keeps that word and what happens when it does not.
- `OfferRace` leaves out time, CANCEL_DISPATCH, other orders' deliveries in a rider's slots, and presence; a search picks any rider it could lock.
- Dispatch's client sends no offer id with an accept (services/dispatch/dispatch/adapters/order_client.py:38-39), which order's route refuses (services/order/order/api/routes.py:490-491): the runs of `OfferRace` without accept signals are then the ones that happen.
- Idempotency.OneLivingHolder: relies on holders finishing within the take-over window, as the store's documentation does; `ReplaysReturnTheLastCompletion` assumes nothing of the kind.
- Several partitions and pollers in `Pipeline`: one partition and one poller are followed; an event is what `event_values` makes of it.
- Schedules.RowIsTheMergeIffInOrder: is exact for schedules over all contents; for one run's own contents a row may be right by coincidence of values, which is not characterised.
- Handler failures in `Facts` other than unreadable payloads; `Consumer` and the give-up step of `Pipeline` cover arbitrary ones.
- Kafka rebalances, and records appended while a session runs: the log of a session is fixed, for every log.
- Due times of the knowledge queue: a tick drains any selection of queued rows. Chunk ids are taken to be distinct for distinct restaurants and dishes, and content digests to be collision-free.
- `KnowledgeDrain` takes what chunking yields; the chunking recipe itself is not modelled.
- A worker killed in the middle of an execution, and the summary job's own checks: the draft job stands for both.
- Hours.Windows: takes each point as `HourPoints.ParseHhmm` reads it; non-ASCII digits and blanks, and the zone conversion, are not modelled.
- Pricing: the sorted order of the unavailable ids and the wording of violations are not modelled; quantities and fees are unbounded.
- LLM generation, retrieval, recommendations, carts, receipts, rate limits and the dead-letter replay tool.
