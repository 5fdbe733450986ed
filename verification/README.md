# Hotelia resilience and ledger model

A Dafny 4.11 model of the parts of Hotelia that must not lose work or money, with proofs of what
they guarantee. `dafny verify dfyconfig.toml` checks all of it.

| file | models |
|---|---|
| `offline_store.dfy` | the SQLite action queue: insert, claim, mark, requeue, counts |
| `queue_protocol.dfy` | any number of flushes and lock drains on that queue, the broker, crashes and reboots, as a transition system |
| `queue_drains.dfy` | the two drain loops, with their termination and delivery order, and the sync engine |
| `queue_refinement.dfy` | that a turn of a drain loop, and so a whole flush or lock drain, is a run of the protocol |
| `lock_bridge.dfy` | the door-lock bridge: live encode, fall-back to the queue, background drain |
| `circuit_breaker.dfy` | the breaker of one encoder |
| `broker.dfy` | idempotency window, packet decision, token bucket |
| `event_stream.dfy` | frame printer, incremental frame parser (event streams of the WHATWG HTML Living Standard, sections 9.2.5 and 9.2.6), kitchen board |
| `calendar.dfy` | days of the month in the Gregorian calendar, for the ledger's default date |
| `folio_ledger.dfy` | charges, reversals, transfers, point-of-sale charges, night audit |
| `payment_ledger.dfy` | intents, confirmations and their matching |
| `tax_engine.dfy` | rate normalization and its inverse |
| `inventory.dfy` | row-locked reservations as interleaved transactions |

Classes keep the fields the source mutates; each method is proved against a function of the old
state, and the properties are proved about those functions over all runs. Conventions: a UUID is the
row's position in its table (fresh, never reused, rows are never deleted); a transaction is one step;
times are integer milliseconds; money is in whole cents; rates, quantities and tokens are exact
reals; dates are day numbers.

## Where the code falls short of its documentation

The model follows the code. Each point below is proved, by a lemma that shows it and, where the
documented property holds at times, by one that says exactly when.

- Both drain loops claim their own failures again in the same pass, so a pass that ends with nothing
  claimable leaves nothing for a later one: a waiting row is delivered in it or given up for good
  (`CompletePassSettles`, `RunEvolves`). One flush while the broker is out of reach gives up the whole
  queue, up to its ceiling and whatever the probe said (`UnansweredPassGivesUp`, `Flush`); one lock drain
  while no encoder acknowledges gives up every card (`SilentDrainGivesUp`). "Will retry on next pass",
  "retried in the background" and "sync when reconnected" therefore hold of no row that a complete pass
  has found waiting (`DrainEndsRetrying`).
- A lock drain claims every kind of action and marks those that are not its own FAILED, which spends
  the whole retry budget of every waiting non-lock action without a delivery
  (`DrainStarvesForeignActions`); the comment says they are put back for the sync engine.
- The flush claims before it tests its ceiling of 500, so a pass that reaches it leaves one more row
  PROCESSING (`Flush`), as does a lock drain whose encode throws (`DrainRetryQueue`). Such a row, like
  one in flight at a crash, waits for a boot, and a boot frees it only if it was last touched more than
  30 s before (`OrphanWaitsForBoot`). The docblock says a row is left PENDING at any power loss.
- A live encode that throws queues nothing (`Encode`); its docblock says that it never throws. Nor does
  the breaker hear of it: an encoder that always throws is never shut off (`ThrowingNeverShuts`), while one
  that fails is (`DeadEncoderBound`).
- The key of a queued card does not tell devices and rooms apart when a device id has a colon
  (`KeysTellRoomsApart`, `ColonKeysCollide`).
- A key-card action can be completed by the sync engine with no encoder involved
  (`KeycardCompletedWithoutEncoder`): a COMPLETED card has an acknowledgement under its last claim if and
  only if a lock drain completed it (`EncodedExactlyByLockDrain`). A second card queued for a room under
  the same key is lost (`QueuedRequestSurvives`, `ReissuedCardIsLost`). The bridge's docblock guarantees
  the card.
- The broker answers a duplicate with 208, which the sync engine does not count as success, and forgets
  after a minute and at a restart: delivery is at least once (`LostReplyPublishesTwice`,
  `RestartPublishesTwice`). A packet is published again if and only if this broker process has not
  published its key within the last minute (`PublishedExactlyWhenQuiet`). The sync engine's docblock
  relies on dedupe after retries and across restarts.
- `etimsInvoice` actions can be enqueued but never completed (`EtimsNeverCompletes`).
- The kitchen display asks for an event name the registry lacks, so its stream is refused and its board
  stays empty (`DisplayStaysEmpty`).
- Reversals and point-of-sale charges are stamped with the clock's day without asking whether it is
  closed, and the audit adds up all properties: `ClosedDayStep` says exactly which steps get around a
  closed day, `FrozenDay` that the snapshot stays right if and only if none does, `ReversalOnClosedDay`
  that a reversal can.
- A charge posted without a date takes only the day of the month from the active business day: it lands
  on that day if and only if the clock shows the same month (`DefaultPostOnActiveDay`), and otherwise
  even on a closed day (`DefaultPostOnClosedDay`).
- A reversal always goes to the folio the charge was posted on: it undoes the charge if and only if the
  charge's transfers cancel out (`ReversalUndoesCharge`), which in runs whose transfers name the holder
  means that it was never moved (`HonestReversalUndoesCharge`). A moved charge is still owed by its
  holder, and credited twice to the folio it left (`ReversalAfterMove`).
- A transfer does not ask whether its source holds the item (`TransferKeepsHoldings` gives the exact
  condition), and an item can never be moved back to the folio it was posted on (`NoWayBack`).
- Replaying a confirmation that is already matched takes a second intent (`ReplayTakesSecondIntent`);
  manual matches are unchecked. `ConfirmationKeepsPaired` and `ManualMatchKeepsPaired` give the exact
  conditions. The row handed back for an automatic match names itself as its partner.
- The automatic match ignores the currency (`ShillingSettlesDollar`; `ConfirmationKeepsAgreeing` gives
  the exact condition).
- A paused breaker is un-paused by the outcome of an encode already in flight (`PauseSurvives`).
- The daily payment total adds both sides of every pair (`TodayTotalIsDoubled`), and no operation ever
  makes a payment REVERSED (`NothingIsReversed`).

## Model

| member | source | states |
|---|---|---|
| OfflineStore.OfflineActionStore.Insert | apps/console/src/main/offline/store.ts:191-216 | inserting a known key changes nothing and gives its row; a new key appends exactly one PENDING row with the input's content |
| OfflineStore.OfflineActionStore.ClaimNext | apps/console/src/main/offline/store.ts:225-253 | returns a row no claimable row comes before (PENDING first, then FAILED under budget, oldest first), flips only it and stamps it with the time; nothing only when nothing is claimable |
| OfflineStore.NextExists | apps/console/src/main/offline/store.ts:226-235 | the claim query finds a row whenever one is claimable |
| OfflineStore.OfflineActionStore.MarkComplete | apps/console/src/main/offline/store.ts:255-261 | completes that row, clears its error, leaves all others |
| OfflineStore.OfflineActionStore.MarkFailed | apps/console/src/main/offline/store.ts:263-269 | fails that row, adds one retry, stores the error and the time, leaves all others |
| OfflineStore.OfflineActionStore.RequeueStaleProcessing | apps/console/src/main/offline/store.ts:272-280 | exactly the PROCESSING rows older than the cutoff become PENDING, and the number returned is how many |
| OfflineStore.OfflineActionStore.CountByStatus | apps/console/src/main/offline/store.ts:283-293 | each count is the number of rows of its status |
| OfflineStore.CountsPartition | apps/console/src/main/offline/store.ts:283-293 | the four counts add up to the table |
| OfflineStore.CountsAreSizes | apps/console/src/main/offline/store.ts:272-293 | each count is the size of the set of rows it is about |
| OfflineStore.OfflineActionStore.OldestPendingTs | apps/console/src/main/offline/store.ts:306-313 | the least creation time among rows not COMPLETED, absent only when all are COMPLETED |
| QueueProtocol.EnqueueKeepsInv | apps/console/src/main/offline/store.ts:191-216 | enqueuing keeps keys unique, claim accounting, ownership and completion evidence |
| QueueProtocol.ClaimKeepsInv | apps/console/src/main/offline/store.ts:225-253 | a claim by any worker in any interleaving keeps the same invariant |
| QueueProtocol.DeliverKeepsInv | apps/console/src/main/offline/sync.ts:149-168 | a delivery with request or reply lost, or answered, keeps it; only a published delivery is taken as accepted |
| QueueProtocol.EncodeKeepsInv | apps/console/src/main/hardware/lockBridge.ts:399-431 | an encode attempt that is answered keeps it; only an acknowledged lock row is taken as accepted (one that throws is `Abandon`, see AbandonOrphans) |
| QueueProtocol.MarkKeepsInv | apps/console/src/main/offline/sync.ts:101-106 | marking a delivered row keeps it |
| QueueProtocol.BootKeepsInv | apps/console/src/main/offline/sync.ts:70-76 | the requeue at boot keeps it |
| QueueProtocol.RunKeepsInv | apps/console/src/main/offline/store.ts:191-280 | the invariant holds at the end of every run |
| QueueProtocol.ClaimAccounting | apps/console/src/main/offline/store.ts:225-280 | in every run claims = retries + requeues + (1 if PROCESSING or COMPLETED); retry counts stay in budget; no row is claimed more than 8 + requeues times, and requeues are at most the boots |
| QueueProtocol.ExclusiveOwnership | apps/console/src/main/offline/store.ts:219-253 | in every run no row is held by two workers and every held row is PROCESSING |
| QueueProtocol.CompletionEvidence | apps/console/src/main/offline/sync.ts:101-105 | every COMPLETED row was published, with its own key, event and payload, by the delivery made under its last claim, or acknowledged by the encoder under it |
| QueueProtocol.EtimsNeverCompletes | apps/console/src/main/offline/sync.ts:42-49 | an action type without a registered event is never COMPLETED in any run |
| QueueProtocol.EventForIsWire | apps/console/src/main/offline/sync.ts:42-49 | the type string sent for an action is taken by the registry as the mapped event, and for etimsInvoice as none |
| QueueProtocol.RunEvolves | apps/console/src/main/offline/store.ts:186-216 | over every run, crashes included, rows keep identity and place, COMPLETED rows and FAILED rows with their budget spent are final, history only grows |
| QueueProtocol.ReplayedKeyKeepsFirstRow | apps/console/src/main/offline/store.ts:185-215 | enqueuing a key again at any later time adds nothing and finds the first row with its first payload |
| QueueProtocol.EncodedExactlyByLockDrain | apps/console/src/main/hardware/lockBridge.ts:19-27 | in every run and whatever follows it, a row has an encoder acknowledgement under the claim that completed it if and only if the worker that completed it was a lock drain |
| QueueProtocol.OrphanWaitsForBoot | apps/console/src/main/offline/store.ts:271-280 | a PROCESSING row without a holder is freed by a boot more than 30 s after its last touch and by no other step |
| QueueProtocol.BootFreesOldClaims | apps/console/src/main/offline/store.ts:237-280 | in every reachable state a boot takes a row out of PROCESSING if and only if its last claim is more than 30 s old |
| QueueProtocol.CrashedClaimWaits | apps/console/src/main/offline/store.ts:237-280 | a row claimed just before a crash is PENDING after the next boot if and only if that comes more than 30 s later |
| QueueProtocol.OrphanStays | apps/console/src/main/offline/sync.ts:70-76 | without a boot an orphan stays unchanged through any run |
| QueueProtocol.AbandonOrphans | apps/console/src/main/offline/sync.ts:99-106 | a flush that gives up at its ceiling, or a lock drain whose encode throws, orphans the row it just claimed |
| QueueProtocol.CrashOrphans | apps/console/src/main/offline/store.ts:271-280 | a crash orphans exactly the PROCESSING rows |
| QueueProtocol.PublishesAreSpaced | apps/console/src/main/server.ts:342-351 | in every run of the whole system, one key is published at most once a minute per broker lifetime |
| QueueProtocol.PublishedExactlyWhenQuiet | apps/console/src/main/offline/sync.ts:11-13 | in every run a packet is published if and only if it is let through, registered, and its key (if any) was not published by this broker process less than 60 000 ms before |
| QueueProtocol.KeycardCompletedWithoutEncoder | apps/console/src/main/offline/sync.ts:42-49 | the input that shows it: a reachable state with a COMPLETED key-card row and no encoder acknowledgement |
| QueueProtocol.LostReplyPublishesTwice | apps/console/src/main/offline/sync.ts:51 | a reachable state has one action published twice by one broker process, after a lost reply and a minute |
| QueueProtocol.RestartPublishesTwice | apps/console/src/main/offline/sync.ts:11-13 | a reachable state has one action published twice, on both sides of a broker restart, with no time passing |
| QueueDrains.PassWithinBudget | apps/console/src/main/hardware/lockBridge.ts:396-432 | every delivery spends retry budget, so a pass makes at most eight deliveries per row |
| QueueDrains.TurnSpends | apps/console/src/main/offline/store.ts:263-269 | the budget left falls strictly with every claim-and-mark |
| QueueDrains.PassOutcome | apps/console/src/main/offline/sync.ts:101-106 | in any pass a waiting row ends COMPLETED if and only if a turn of the pass delivered it, and otherwise waits with each of its turns paid out of its budget |
| QueueDrains.CompletePassSettles | apps/console/src/main/hardware/lockBridge.ts:412-430 | a pass that leaves nothing claimable ends every waiting row COMPLETED if a turn delivered it, else FAILED with all its budget spent in this pass |
| QueueDrains.UnansweredPassGivesUp | apps/console/src/main/offline/sync.ts:95-106 | if no attempt succeeds, one complete pass gives up every waiting row, after exactly as many turns as its budget: eight for a fresh one |
| QueueDrains.ScheduleTakes | apps/console/src/main/offline/store.ts:226-235 | what the claim query returns is always what the explicit schedule does next |
| QueueDrains.PassFollowsSchedule | apps/console/src/main/offline/sync.ts:101-106 | for any delivery outcomes, a pass is a prefix of the schedule: each PENDING row once by age, then each FAILED row by age to its end |
| QueueDrains.CompletePassIsSchedule | apps/console/src/main/hardware/lockBridge.ts:396-432 | a pass that leaves nothing claimable delivered exactly the schedule |
| QueueDrains.CutPassIsPrefix | apps/console/src/main/offline/sync.ts:99-106 | a pass cut off at a claim delivered the schedule's beginning and claimed its next row |
| QueueDrains.CreationOrderExists | apps/console/src/main/offline/store.ts:226-235 | distinct creation times put any table in an order the schedule can use |
| QueueDrains.OfflineSyncEngine.Start | apps/console/src/main/offline/sync.ts:70-76 | boot requeues exactly the rows PROCESSING for over 30 s |
| QueueDrains.OfflineSyncEngine.Enqueue | apps/console/src/main/offline/sync.ts:87-92 | the action is in the store when enqueue returns |
| QueueDrains.OfflineSyncEngine.Flush | apps/console/src/main/offline/sync.ts:95-109 | the loop ends with nothing claimable and every waiting row delivered or given up, or after exactly 500 deliveries with one more row claimed and left PROCESSING; never the latter with a budget of at most 500 |
| QueueDrains.OfflineSyncEngine.Status | apps/console/src/main/offline/sync.ts:111-122 | queued is PENDING plus PROCESSING, failed is every FAILED row, and there is an oldest time exactly when something is unfinished |
| QueueRefinement.TurnIsProtocolTurn | apps/console/src/main/offline/sync.ts:101-106 | an uninterrupted claim, attempt and mark of the protocol changes the table, the time and the worker exactly as one turn of a drain loop |
| QueueRefinement.PassIsProtocolRun | apps/console/src/main/hardware/lockBridge.ts:396-432 | a whole pass of a loop is a run of the protocol with the same table and time at its end, taking only rows the claim query could return |
| QueueRefinement.FlushIsProtocolRun | apps/console/src/main/offline/sync.ts:95-107 | up to its ceiling every flush against the broker, whatever the network does, is such a run |
| QueueRefinement.LockDrainIsProtocolRun | apps/console/src/main/hardware/lockBridge.ts:394-432 | every lock drain, whatever the encoders do, is such a run |
| QueueRefinement.CutLoopOrphans | apps/console/src/main/offline/sync.ts:99-106 | a loop that ends with a row in hand ends as the protocol's claim and abandon, and leaves an orphan |
| LockBridge.LockBridgeController.Encode | apps/console/src/main/hardware/lockBridge.ts:304-349 | an error only for an unknown device or channel; encoded only on an acknowledgement the breaker allowed; nothing queued if the encode throws; otherwise queued under the device's and room's key |
| LockBridge.LockBridgeController.TryRow | apps/console/src/main/hardware/lockBridge.ts:399-431 | ok exactly for a lock row with a known device that may be tried and whose encoder acknowledges; throws exactly when that encode throws; every other device and its breaker stay as they were |
| LockBridge.AttemptMeans | apps/console/src/main/hardware/lockBridge.ts:399-431 | a row is delivered if and only if it is a lock row, its device is known, has an adapter and an allowing breaker, and the encoder acknowledges; no other device or breaker changes, none at all for a foreign row or unknown device; success leaves the device online and its breaker closed with no failure counted, a failed attempt leaves it offline, and anything else leaves the devices as they were |
| LockBridge.DeadEncoderBound | apps/console/src/main/hardware/lockBridge.ts:313-346 | over any encodes, live and queued, for any devices, that span T ms, a device whose encoder always fails is attempted on the wire at most 3 * (T / 30 000 + 1) times |
| LockBridge.ThirdFailureShuts | apps/console/src/main/hardware/lockBridge.ts:94-104 | after a third failure in a row the device may be tried again exactly from 30 s on |
| LockBridge.ThrowingNeverShuts | apps/console/src/main/hardware/lockBridge.ts:330-338 | a device whose encoder always throws is attempted on the wire every single time |
| LockBridge.KeysTellRoomsApart | apps/console/src/main/hardware/lockBridge.ts:355 | two requests have one key if and only if they are for one device and room, for device ids without a colon |
| LockBridge.ColonKeysCollide | apps/console/src/main/hardware/lockBridge.ts:355 | with a colon in a device id two requests can have one key |
| LockBridge.LockBridgeController.DrainRetryQueue | apps/console/src/main/hardware/lockBridge.ts:394-433 | the unbounded loop ends, having taken only rows the claim query could return: with nothing claimable and every waiting row delivered or given up, or at an encode that throws, with its row left PROCESSING |
| LockBridge.DrainStarvesForeignActions | apps/console/src/main/hardware/lockBridge.ts:399-403 | one drain leaves every waiting non-lock action FAILED with its budget spent and undelivered |
| LockBridge.QueuedRequestSurvives | apps/console/src/main/hardware/lockBridge.ts:352-372 | at the moment right after the insert, and no later, the exact request is going to be retried if and only if its key is new or a live row already carries that very request |
| LockBridge.DrainEndsRetrying | apps/console/src/main/hardware/lockBridge.ts:412-430 | after one complete drain nothing retries a request that was waiting: it was delivered by an acknowledged attempt of that drain, or is given up |
| LockBridge.SilentDrainGivesUp | apps/console/src/main/hardware/lockBridge.ts:412-430 | one complete drain in which no encoder acknowledges gives up every waiting row |
| LockBridge.ReissuedCardIsLost | apps/console/src/main/hardware/lockBridge.ts:19-27 | a second card for a room whose queued card was delivered is never written |
| CircuitBreakers.CircuitBreaker.Allow | apps/console/src/main/hardware/lockBridge.ts:75-87 | allowed when Closed, or Open with the cooldown over, which also closes it |
| CircuitBreakers.CircuitBreaker.OnFailure | apps/console/src/main/hardware/lockBridge.ts:94-104 | counts the failure and opens at the threshold, from any state |
| CircuitBreakers.CircuitBreaker.OnSuccess | apps/console/src/main/hardware/lockBridge.ts:89-92 | closes and resets the count, from any state |
| CircuitBreakers.AlwaysConsistent | apps/console/src/main/hardware/lockBridge.ts:60-114 | in any interleaving of calls, Closed means fewer failures than the threshold and Open at least as many |
| CircuitBreakers.PauseSurvives | apps/console/src/main/hardware/lockBridge.ts:89-108 | a pause holds through outcomes if and only if none is a success and the failures stay below the threshold |
| CircuitBreakers.OpensExactlyOnStreak | apps/console/src/main/hardware/lockBridge.ts:89-104 | after any outcomes the breaker is Open exactly if the last threshold of them were failures |
| CircuitBreakers.BurstThenCooldown | apps/console/src/main/hardware/lockBridge.ts:75-104 | after a threshold of failed attempts the next waits out a cooldown from the first of them |
| CircuitBreakers.AttemptBound | apps/console/src/main/hardware/lockBridge.ts:60-114 | against a dead encoder, any span of T ms sees at most threshold * (T / cooldown + 1) wire attempts |
| CircuitBreakers.RefusedExactlyDuringCooldown | apps/console/src/main/hardware/lockBridge.ts:75-104 | a poll is refused if and only if an attempt tripped the breaker less than a cooldown before |
| CircuitBreakers.TripsExactlyEveryThreshold | apps/console/src/main/hardware/lockBridge.ts:75-104 | against a dead encoder exactly every threshold-th attempt trips the breaker, the first time and after each cooldown |
| Broker.IdempotencyWindow.Dedupe | apps/console/src/main/server.ts:161-173 | duplicate exactly when the key is remembered from less than a minute ago; otherwise recorded, pruning past 500 keys |
| Broker.IdempotencyWindow.Prune | apps/console/src/main/server.ts:167-171 | the deletion loop removes exactly the entries over a minute old |
| Broker.DedupeMatchesHistory | apps/console/src/main/server.ts:160-173 | the pruned map answers as the full history would: duplicate if and only if the key was published less than a minute before |
| Broker.PublishesAreSpaced | apps/console/src/main/server.ts:342-348 | two publishes of a key are at least 60 000 ms apart |
| Broker.SuccessMeansPublished | apps/console/src/main/server.ts:346-351 | the broker's answer is in the sync engine's success set exactly when this request was published |
| Broker.AnswersMean | apps/console/src/main/server.ts:327-351 | what 429, 400, 208 and 202 each say of the packet, which of them publish, and what is remembered |
| Broker.WindowStaysSmall | apps/console/src/main/server.ts:167-171 | past 500 keys the window holds nothing from more than a minute ago |
| Broker.WireOfName | packages/events/src/registry.ts:9-18 | event names are distinct, and a registered name is taken as its own event |
| Broker.RateLimiter.Allows | apps/console/src/main/server.ts:143-156 | refill, decision, charge and clearing of the map, as a function of the old buckets |
| Broker.BucketsStaySane | apps/console/src/main/server.ts:143-156 | under a non-decreasing clock tokens stay within [0, 8] |
| Broker.QuietSecondRefills | apps/console/src/main/server.ts:145-152 | an address quiet for a second has a full bucket and is admitted |
| Broker.TokenBucketBound | apps/console/src/main/server.ts:140-157 | in any span of T ms an address gets at most 8 * (1 + clears) + 8 * T / 1000 requests accepted |
| Broker.RefusalIsEarned | apps/console/src/main/server.ts:143-156 | an address is refused only when over some span of T ms up to now it had more than 7 + 8 * T / 1000 requests accepted |
| Broker.BucketsStayFew | apps/console/src/main/server.ts:154 | there are never more than 2000 buckets, and the map is cleared exactly when an accepted request would add one more |
| EventStream.SplitDecomposes | apps/kds/app/page.tsx:130-131 | the frame split cuts the text into frames without blank lines and a tail, losing nothing |
| EventStream.SplitUnique | apps/kds/app/page.tsx:130-131 | there is no other such cut |
| EventStream.SplitResumes | apps/kds/app/page.tsx:129-131 | continuing from the buffered tail gives the frames of the whole text |
| EventStream.StreamReader.Consume | apps/kds/app/page.tsx:125-140 | for every cutting into chunks, exactly the events of the whole text are handed on, in order, and the buffer is its unfinished tail |
| EventStream.StreamReader.Handle | apps/kds/app/page.tsx:133-137 | one frame hands on its first event and data lines, and nothing without non-empty data |
| EventStream.FrameMeans | apps/kds/app/page.tsx:133-137 | a frame's data and name are what follows "data: " and "event: " on the first line that begins so, the name empty without one |
| EventStream.TruncationGivesPrefix | apps/kds/app/page.tsx:126-140 | a truncated stream yields a prefix of the full event list |
| EventStream.RoundTrip | apps/console/src/main/server.ts:256-306 | any mix of comments, pings and events printed by the broker reads back as exactly the events, nothing left over |
| EventStream.TruncatedRoundTrip | apps/console/src/main/server.ts:277-281 | however a printed stream is cut short, the events received are the first ones printed |
| EventStream.SurvivesExactlyWhenClean | apps/kds/app/page.tsx:133-137 | an event survives printing and parsing if and only if name and data are on one line and the data is not empty |
| EventStream.DisplayFilterRefused | apps/kds/app/page.tsx:31-38 | the display's filter names an unregistered event, so it receives only the error frame |
| EventStream.StreamMeans | apps/console/src/main/server.ts:254-296 | a filter of registered names gets a greeting and then, in order, everything when it is empty or has "*", else exactly the events it names; any other filter gets one error |
| EventStream.DisplayStaysEmpty | apps/console/src/main/server.ts:263-269 | the shipped display shows no order whatever is published |
| EventStream.BoardShowsEachLife | apps/kds/app/page.tsx:66-77 | after any events the board shows each order at most once, with the details and in the column that order's own events give |
| EventStream.CommandsMean | apps/kds/app/page.tsx:154-165 | which events place a card, which column each moves it to, and which remove it |
| EventStream.BoardShowsLatestFirst | apps/kds/app/page.tsx:66-77 | after any events the orders on the board stand in the order in which they were last placed, the latest first |
| FolioLedger.LedgerService.PostLineItem | packages/database/src/ledger.ts:66-120 | refusals in order, else the charge is appended under its date, the named one or that derived from the active day, and its total put on the folio's balance |
| FolioLedger.NamedDateDecides | packages/database/src/ledger.ts:75-76 | for an open folio, a post that names its date is refused as closed if and only if the property has closed that very day, and otherwise commits an item of that date |
| FolioLedger.ClockDateDecides | packages/database/src/ledger.ts:75-76 | a post that names no date is refused as closed if and only if the property has closed the clock's day |
| FolioLedger.FolioDecides | packages/database/src/ledger.ts:68-73 | a post is refused for its folio exactly when the property has no such folio, or not open |
| FolioLedger.NamedPostsRespectClose | packages/database/src/ledger.ts:56-64 | posts that name their date never change a day the same property has closed |
| FolioLedger.ActiveDayIsLatestOpen | packages/database/src/ledger.ts:78-81 | the active business day is the latest day the property itself has open |
| FolioLedger.DefaultPostOnActiveDay | packages/database/src/ledger.ts:75-86 | a charge posted without a date is stamped with the active business day if and only if that day is in the clock's month, and always as far into the clock's month as the active day is into its own |
| Calendar.KnowsTheCalendar | packages/database/src/ledger.ts:82-86 | the day of the month that is taken from the active day is that of the Gregorian calendar, for every month and leap year |
| FolioLedger.DefaultPostOnClosedDay | packages/database/src/ledger.ts:83-85 | such a charge can be stamped with a closed day |
| FolioLedger.ChargeNearExact | packages/database/src/ledger.ts:89-94 | the posted total is the exact discounted, taxed price to within 1 + rate / 2 cents |
| FolioLedger.ChargeColumns | packages/database/src/ledger.ts:88-112 | the columns of a charge add up to its price, and its tax is the rate's share to the half cent |
| FolioLedger.LedgerService.ReverseLineItem | packages/database/src/ledger.ts:127-195 | refuses unknown items, reversals and items already reversed, else appends the mirrored item on the original folio |
| FolioLedger.ReversibleExactlyOnce | packages/database/src/ledger.ts:134-176 | a reversal succeeds if and only if the item is a charge not yet reversed, is dated with the clock's day, and makes a second one impossible |
| FolioLedger.ReversalUndoesPost | packages/database/src/ledger.ts:155-181 | a charge just posted, and not moved, can be reversed, and that restores every balance |
| FolioLedger.ReversalUndoesCharge | packages/database/src/ledger.ts:155-181 | a reversal leaves every balance as if the charge had never been posted or moved if and only if the charge's transfers cancel out on every folio |
| FolioLedger.HonestReversalUndoesCharge | packages/database/src/ledger.ts:155-181 | in every run whose transfers name the holder that is so if and only if the charge was never transferred or is over nothing |
| FolioLedger.ReversalAfterMove | packages/database/src/ledger.ts:157-181 | moved and then reversed, a charge is still owed by its holder and credited twice to the folio it was posted on |
| FolioLedger.ReversalCancelsInAudit | packages/database/src/ledger.ts:280-292 | in any well-formed ledger a charge and its reversal on one day leave no net, tax or room revenue in that day's audit, compared with the table without them, and show in its counts |
| FolioLedger.LedgerService.TransferFolioItem | packages/database/src/ledger.ts:202-240 | refusals in order, else logs the transfer and moves the total between the balances |
| FolioLedger.MovableExactly | packages/database/src/ledger.ts:202-218 | a transfer succeeds if and only if the item exists, goes to another folio than it was posted on, both folios are of the property, and the property has not closed the item's day |
| FolioLedger.ClosedDayItemsStay | packages/database/src/ledger.ts:218 | once a property has closed a day, no run moves an item of that day off its folios |
| FolioLedger.NoWayBack | packages/database/src/ledger.ts:204-207 | after any run an item cannot be moved to the folio it was posted on |
| FolioLedger.LedgerService.PosPostCharge | apps/console/src/main/pms.ts:341-424 | refusals in order, else the charge lands on the picked or a new master folio with its balance |
| FolioLedger.PickPrefersPersonal | apps/console/src/main/pms.ts:288-294 | an open folio of the stay is picked whenever there is one, personal before master before others |
| FolioLedger.PosTotalWithinDouble | apps/console/src/main/pms.ts:135-139 | with the rate forced into [0, 1] a charge costs between the amount and twice the amount |
| FolioLedger.RateUsed | apps/console/src/main/pms.ts:135-139 | the rate used is the one in [0, 1] nearest to the configured one, or 18 per cent |
| FolioLedger.PosChargeColumns | apps/console/src/main/pms.ts:386-408 | the charge is the amount and the rate's share of it, each to the half cent, dated with the clock's day |
| FolioLedger.PosChargeLands | apps/console/src/main/pms.ts:345-384 | a charge behind the barrier lands on an open folio of the guest's own stay, a new master folio only when it has none, and the next charge goes there too |
| FolioLedger.LedgerService.CloseBusinessDay | packages/database/src/ledger.ts:255-334 | refuses a closed day, else stores the audit of all items of the date: net without tax, tax, and room totals, each as a sum over the table |
| FolioLedger.AuditDay | packages/database/src/ledger.ts:280-292 | the audit loop computes the audit of the date's items, whose figures are those of AuditFigures |
| FolioLedger.AuditFigures | packages/database/src/ledger.ts:280-285 | the audit's net is the sum of total less tax over the date's items, its tax the sum of their tax, its room revenue the sum of the room items' totals |
| FolioLedger.AuditAddsUp | packages/database/src/ledger.ts:281-291 | audited net and tax add up to the items' totals, and the counts are the numbers of items, of items with a positive total and of reversals |
| FolioLedger.RunKeepsWellFormed | packages/database/src/ledger.ts:133-176 | in every run a reversal mirrors every amount of an earlier charge on its folio and no charge is reversed twice |
| FolioLedger.RowsAreImmutable | packages/database/src/ledger.ts:48-55 | line items and transfers are only appended |
| FolioLedger.BalancesExplained | packages/database/src/ledger.ts:114-117 | in every run each stored balance is its own items plus transfers in minus transfers out |
| FolioLedger.MoneyConserved | packages/database/src/ledger.ts:197-237 | in every run all balances add up to the charges not reversed |
| FolioLedger.TransferKeepsHoldings | packages/database/src/ledger.ts:202-237 | a transfer keeps balances equal to what folios hold if and only if its source holds the item or the total is zero |
| FolioLedger.HonestRunsMatchHoldings | packages/database/src/ledger.ts:197-201 | when every transfer names the holder, every balance is what its folio holds |
| FolioLedger.DayChangesExactlyOnWrites | packages/database/src/ledger.ts:56-64 | a day's items and audit change exactly on committed writes dated that day |
| FolioLedger.ClosedDayStep | packages/database/src/ledger.ts:56-64 | a closed day never reopens and its snapshot is kept; the steps that still change its items are named exactly |
| FolioLedger.ClosesOnlyThatDay | packages/database/src/ledger.ts:305-331 | a step closes exactly the day of a night audit, of that property and date |
| FolioLedger.FrozenDay | packages/database/src/ledger.ts:249-254 | over any run after the close, auditing the day again gives the stored snapshot if and only if no step got around the close |
| FolioLedger.ReversalOnClosedDay | packages/database/src/ledger.ts:167 | reversing any charge on the day just closed makes the snapshot stale |
| PaymentLedger.PaymentStore.RecordIntent | apps/console/src/main/offline/store.ts:326-354 | a known key changes nothing, a new one appends a PENDING intent; the key's row is returned |
| PaymentLedger.PaymentStore.RecordConfirmation | apps/console/src/main/offline/store.ts:362-416 | throws exactly for a new key with a known receipt; links a lone candidate; the row handed back names itself as partner |
| PaymentLedger.MinorUnitsAreCents | apps/console/src/main/offline/store.ts:322-324 | whole cents are stored as they are, so two such amounts meet exactly when they are equal |
| PaymentLedger.EveryRowIsRecorded | apps/console/src/main/offline/store.ts:326-396 | in every run every row says what some step said: kind, method, currency, key, receipt, time, and the amount to the half cent |
| PaymentLedger.MatchesWhatWasAnnounced | apps/console/src/main/offline/store.ts:373-406 | after any run, a confirmation of whole cents under a new key is matched exactly when there is a lone candidate, and only with an intent announced with that method and just as many cents |
| PaymentLedger.ReceiptConfirmedOnce | apps/console/src/main/offline/store.ts:356-361 | once a receipt is confirmed, at any later time it is refused under another key |
| PaymentLedger.LoneCandidate | apps/console/src/main/offline/store.ts:373-406 | the intent matched automatically is the only PENDING one of that method and amount, and is found whenever there is exactly one |
| PaymentLedger.PaymentStore.MatchConfirmation | apps/console/src/main/offline/store.ts:419-443 | links unchecked any confirmation to any intent id, and hands back the row as it was before |
| PaymentLedger.PaymentStore.LedgerSummary | apps/console/src/main/offline/store.ts:457-484 | the four counts and the per-method totals of the table |
| PaymentLedger.NothingIsReversed | apps/console/src/main/offline/store.ts:473 | in every run the reversed count is zero |
| PaymentLedger.TableConstraintsHold | apps/console/src/main/offline/store.ts:128-136 | in every run keys are unique and no receipt is confirmed twice |
| PaymentLedger.ConfirmationKeepsPaired | apps/console/src/main/offline/store.ts:398-412 | a confirmation keeps the one-to-one pairing if and only if there is no lone candidate or its key is new or still waiting |
| PaymentLedger.ManualMatchKeepsPaired | apps/console/src/main/offline/store.ts:425-442 | a manual match keeps it if and only if it changes nothing, joins two waiting rows, or repeats a link |
| PaymentLedger.DisciplinedRunsStayPaired | apps/console/src/main/offline/store.ts:315-320 | in every run of such steps the partner column pairs intents with confirmations one to one |
| PaymentLedger.UndisciplinedStepBreaksPairing | apps/console/src/main/offline/store.ts:398-442 | any other step breaks the pairing |
| PaymentLedger.ReplayTakesSecondIntent | apps/console/src/main/offline/store.ts:356-361 | a replayed confirmation takes a second intent of the same amount |
| PaymentLedger.ConfirmationKeepsAgreeing | apps/console/src/main/offline/store.ts:401-409 | a confirmation keeps pairs agreeing, on method and minor amount or on the currency, if and only if nothing is matched or the row its key selects agrees with the lone candidate |
| PaymentLedger.NewKeyIsFaithful | apps/console/src/main/offline/store.ts:373-379 | with a new key method and amount always agree, and the currency if and only if it is that of the intent matched |
| PaymentLedger.ShillingSettlesDollar | apps/console/src/main/offline/store.ts:373-379 | a reachable table has a shilling payment matched automatically with a dollar intent |
| PaymentLedger.ManualMatchKeepsAgreeing | apps/console/src/main/offline/store.ts:425-442 | a manual match keeps it if and only if the two rows agree |
| PaymentLedger.PairsAgree | apps/console/src/main/offline/store.ts:356-361 | over every run of such steps all pairs agree, on method and minor amount or on the currency |
| PaymentLedger.MatchedCountIsEven | apps/console/src/main/offline/store.ts:472 | the matched count is twice the matched confirmations |
| PaymentLedger.TodayTotalIsDoubled | apps/console/src/main/offline/store.ts:475-482 | with agreeing same-day pairs the per-method total is exactly twice the money confirmed |
| PaymentLedger.DaysAreUtcDays | apps/console/src/main/offline/store.ts:474-480 | a day is the 86 400 000 ms of a UTC date |
| TaxEngine.RoundTrip | packages/shared/src/tax/index.ts:83-94 | for a total rate of at least zero, normalizing the gross made from a net returns that net, gross, tax and itemization |
| TaxEngine.RoundTripExactly | packages/shared/src/tax/index.ts:45-57 | every net returns if and only if the total rate is not negative |
| TaxEngine.NormalizingIsStable | packages/shared/src/tax/index.ts:45-74 | normalizing a gross amount twice is the same as once |
| TaxEngine.NetNearExact | packages/shared/src/tax/index.ts:45-57 | the net is a net amount to the half cent, or what is left of a gross one without the rate |
| TaxEngine.DriftBound | packages/shared/src/tax/index.ts:57-64 | for any amount and k rules, net plus tax misses the gross by at most k / 2 cents; the tax is the sum of its lines, one for each rule in order, each to the half cent |
| TaxEngine.DriftBoundReached | packages/shared/src/tax/index.ts:57-64 | for every k some rules reach that bound |
| TaxEngine.RegeneratedGross | packages/shared/src/tax/index.ts:40-43 | the gross regenerated from a quoted one misses it by at most (2 + rate) / 2 cents |
| TaxEngine.RegeneratedWithinOneCent | packages/shared/src/tax/index.ts:40-43 | below a total rate of 200 per cent that is at most one cent |
| Inventory.Serializable | packages/database/src/inventory.ts:35-44 | every interleaving of locked transactions is a serial execution in the order they ended |
| Inventory.NoOverselling | packages/database/src/inventory.ts:115-151 | for any number of callers, what is left plus what was sold is what there was, never below zero, and no two callers get the same count |
| Inventory.RefusedExactlyWhenSoldOut | packages/database/src/inventory.ts:137-147 | however callers interleave, a caller is refused if and only if all there was has been sold before it |
| Inventory.OneReservationPerVacancy | packages/database/src/inventory.ts:45-101 | between two committed reservations of a room somebody made it vacant |
| Inventory.RefusedExactlyWhenOccupied | packages/database/src/inventory.ts:49-93 | a reservation is refused if and only if the room is occupied at its turn, and otherwise leaves it OCCUPIED_DIRTY |

## Left out

- Electron windows, IPC, React views, the guest pages and the service worker: user interface and plumbing.
- Sockets, HTTP, TCP and serial timing, tokens and CORS: a delivery or an encode is an arbitrary outcome.
- Prisma, SQLite and Postgres internals: a transaction is one step, and a row lock is held from the read to the end.
- IEEE floating point and the epsilon nudge of `round2`: exact arithmetic with halves rounded up; discounts are whole cents.
- Time zones: business dates and the clock's day are day numbers of one calendar.
- JSON and UTF-8: payloads are opaque text, with a decoder as a parameter where one is read.
- EventStream.BoardShowsEachLife: takes malformed JSON as ignored, as its comment says; React may run the parse outside the surrounding catch. A card's creation time is left out.
- Line items of kind PAYMENT and VOID, day rows other than by date, and audit-log rows: nothing modelled reads them.
- Other users of the sync URL than the local broker: only the broker's own status codes occur.
- The wire error text of a failed encode: one constant stands for it.
- A SQLite statement that throws: the store always answers. An encode may throw.
- LockBridge.LockBridgeController.DrainRetryQueue: keeps its breakers as values in a map, because they are never shared; the class itself is modelled beside it.
- QueueDrains.OfflineSyncEngine.Flush: runs without interleaving; interleavings are the subject of the protocol.
- Broker.TokenBucketBound: is stated for the rate 8, the only one in use.
- CircuitBreakers.AttemptBound: assumes one encode in flight at a time, as several in flight are not bounded by the breaker.
- Channel adapters, pricing, housekeeping, rostering and the point-of-sale verification read: easy members or no code.
