# VoltEdgeAI in Dafny

VoltEdgeAI is a trading service for Indian equities. Most of it calls network services; this
project models the parts that keep state, run concurrently or do arithmetic, and proves what they
promise over all inputs, all runs and all interleavings. `dafny verify dfyconfig.toml` checks it.

| file | models |
|---|---|
| `Verifier.dfy` | the confirmation state machine: matching, admission, polling, time-outs, emission |
| `Handoff.dfy`, `DropOldestQueue.dfy` | its bounded drop-oldest queues, atomically and with the calls of several threads interleaved |
| `SeenSet.dfy`, `NsePoller.dfy` | the persisted seen-set with crashes and restarts, and the poll with its watermark |
| `UrgencyGate.dfy` | subtype buckets and urgency, from a verified emission to the router's gate |
| `LiveBars.dfy` | the streaming bar builder and the store that holds the same bar objects |
| `ArtefactWriter.dfy` | locked read-modify-write with atomic rename, any threads, faults and crashes |
| `DbWriter.dfy` | the queue-backed database writer with retries |
| `QuarterlyResults.dfy` | the upsert and the row-limited, deduplicating query |
| `Consensus.dfy`, `UnitDetection.dfy` | the self-consensus forecast, and bringing reported figures to crores |
| `FilingDedup.dfy`, `ConfigMerge.dfy` | two-pass deduplication, recursive merge |
| `OrderedDict.dfy`, `Numbers.dfy` | Python's insertion-ordered dict, `abs`, `min`, `max` |

Concurrent code is a step machine: a state, a function `Apply` for one atomic step, and `Run` for
any sequence of steps. A step that is not enabled changes nothing, so a statement about `Run` is a
statement about every interleaving. Code that works in place is a class or a method with loops,
proved equal to the functions and steps that the theorems are about. Floats are reals, timestamps
with one UTC offset are integers or reals, and answers of foreign services are parameters.

## Where the code and its documentation differ

The model follows the code.

- `Verifier._drain_in_queue` as written (`verifier.py:225-250`) never runs: line 426 binds
  `_drain_with_store` in its place, and that is what is modelled.
- `dedupe.py:10-13`, `main.py:282-285` and `official_client.py:7-10` say that duplicates from two
  sources collapse to one record. They do not. The NSE and BSE pollers give one announcement the same
  id, but each consults only its own set (`SeenSet.TwoProducersSendTwice`), and they overwrite each
  other's file (`SeenSet.SharedFileForgets`). TrueData hashes the vendor's id
  (`truedata_client.py:85-90`), the official pollers the normalised subject, so in dual mode the two
  do not even share an id.
- A crash between the write of the seen file and the enqueue loses the filing for the day
  (`SeenSet.CrashAfterWriteLoses`): it counts as seen and was never sent.
- The pending and next-poll maps do not always have equal domains: a restart of the loop begins with
  an empty next-poll map. They differ exactly until the next pass (`ConfirmationMachine.SameDomainsIff`).
- "Drop oldest" can drop the newest, and with several producers two records at once
  (`Handoff.OwnRecordLostIff`, `Handoff.ManyProducersLosses`).
- `read_records` (`writers.py:69-83`) answers `[]` when reading fails, and the append then replaces
  the artefact by the new record alone (`ArtefactWriter.FailedReadLosesUpdate`). An artefact is short
  of its log exactly after such a commit (`ArtefactWriter.LosesRecordsIff`).
- `flush` (`db_writer.py:89-100`) promises a time-out; `join` has none and does not raise, so the
  loop with the deadline is never reached. It can wait for ever, exactly when an item is behind a
  stop sentinel (`DbWriter.FlushCanReturnIff`, `DbWriter.SubmitAfterStopStrands`). An insert that
  raises after its commit is repeated (`DbWriter.RaiseAfterCommitDuplicates`), and each such attempt
  leaves one row too many (`DbWriter.RowsAreWrittenIff`).
- `_compute_trailing_cagr` (`consensus.py:200-204`) guards the fourth root against `ValueError`. In
  Python 3 the root of a negative ratio is complex and the clamp raises `TypeError`
  (`SelfConsensus.RaisesIff`). The comment in `consensus.py:264` speaks of 60 % guidance; the code
  uses the guidance weight, 10 % by default.
- `get_prior_quarters` relies on at most six rows a quarter; nothing restricts the source column
  to the six known sources (`QuarterlyResults.UnlistedSourcesHideBest`). When the limit is enough is
  `QuarterlyResults.QueryRightIff`.
- The classifier and the auto-store read a figure differently when it is 5 to 20 times the
  anchor, although a comment calls them the same detection (`UnitDetection.SearchesAgreeIff`).
- An annual result without a surprise is bucketed as a blowout (`classifier.py:366-367`), so it is
  among the findings that reach the gate.

## Model

| member | source | states |
|---|---|---|
| ConfirmationMachine.OfficialMatchIsFirstBest | src/event_intelligence/verifier.py:83-99 | a match is found iff some filing of the symbol shares at least 30 % of the words; it is the earliest of those that share the most |
| ConfirmationMachine.ScoreIsShare | src/event_intelligence/verifier.py:75-80 | the score is the common words as a share of all words of the two, and 0 when either has none |
| ConfirmationMachine.EligibleIff | src/event_intelligence/verifier.py:87-99 | a filing is eligible iff it is of the symbol and at least three words in ten are common |
| ConfirmationMachine.ResolveJudges | src/event_intelligence/verifier.py:102-165 | if some filing shares enough words, resolving rests on the first best: CONFLICT at 0.5 iff all four category fields are there and the normalised ones differ, else CONFIRMED at 1.0; if none does, neither |
| ConfirmationMachine.EveryTerminalJudged | src/event_intelligence/verifier.py:102-165 | in every run each terminal emission that rests on a filing judges it so, and each that does not is an expiry |
| ConfirmationMachine.EveryRunKeepsInv | src/event_intelligence/verifier.py:252-399 | in every run, restarts of the loop included, next-poll is within pending and pending within the raw table, so the "should not happen" branch is never taken; every id's account balances and every emission has state, confidence and evidence that fit |
| ConfirmationMachine.EveryRunBalances | src/event_intelligence/verifier.py:279-314 | for each id, terminal emissions of the pending path plus one if still pending equals admissions; one provisional at most, ever |
| ConfirmationMachine.AdmittedOnceShapes | src/event_intelligence/verifier.py:335-399 | an id admitted once has emitted nothing or a provisional while pending, and a terminal with or without a provisional before it afterwards |
| ConfirmationMachine.SameDomainsIff | src/event_intelligence/verifier.py:214-223 | in every run, restarts of the loop included, the pending and next-poll maps have different domains iff a restart with something pending has had no pass, at a time not below 0, after it |
| ConfirmationMachine.RestartDomains | src/event_intelligence/verifier.py:214-215 | right after a restart of the loop the domains are equal iff nothing is pending |
| ConfirmationMachine.NextUnscheduled | src/event_intelligence/verifier.py:263-266 | what each step does to the ids without a next poll: a restart makes all of them so, a pass none, since a missing entry counts as due at 0 |
| ConfirmationMachine.RunKeepsBounded | src/event_intelligence/verifier.py:316-323 | every scheduled poll is the one at arrival or comes before arrival + time-out + longest cadence |
| ConfirmationMachine.TickSettlesLate | src/event_intelligence/verifier.py:279-293 | a pass at or after an id's deadline removes it with exactly one terminal emission |
| ConfirmationMachine.PassBeforeDue | src/event_intelligence/verifier.py:258-266 | in every run a pass before an event is due changes nothing about it, whatever it does to others |
| ConfirmationMachine.PassExpires | src/event_intelligence/verifier.py:279-293 | a due event at its time-out leaves pending with one expiry, at 0.5 after a provisional and else at 0 |
| ConfirmationMachine.PassConfirms | src/event_intelligence/verifier.py:295-314 | a due event that is not timed out, with a filing that shares enough words anywhere in the answer, leaves pending with one terminal emission on the first best of them, CONFIRMED or CONFLICT by the categories |
| ConfirmationMachine.PassPollsAgain | src/event_intelligence/verifier.py:296-323 | without such a filing, or when the fetch raises, it emits nothing, stays pending, and is polled again after the initial cadence under 300 s since arrival and the follow-up cadence from then on |
| ConfirmationMachine.EveryDrainedRecord | src/event_intelligence/verifier.py:374-399 | in every run each drained record, in order: one of an exchange feed is emitted CONFIRMED at 1.0 and not admitted; one whose id is pending changes nothing; any other is admitted, due at once, and announced at 0.7 iff the second of the day is in [33300, 55800) and the id has had no provisional |
| ConfirmationMachine.EveryPendingSettles | src/event_intelligence/verifier.py:252-323 | from any reachable state, every continuation with a pass at or after the deadline settles a pending id |
| ConfirmationMachine.EveryEmissionConfidence | src/event_intelligence/verifier.py:115-165 | in every run confidence 1.0 goes with CONFIRMED and nothing else exceeds 0.7, AWAITING_CONFIRM is never emitted, and a confirmation on the pending path rests on an eligible filing whose categories do not conflict (`EveryTerminalJudged` says this over the fields) |
| ConfirmationMachine.EveryExpiryConfidence | src/event_intelligence/verifier.py:280-288 | an expiry carries 0.5 iff the id had a provisional before it, else 0 |
| ConfirmationMachine.Verifier.MatchOfficial | src/event_intelligence/verifier.py:87-99 | the best-so-far loop finds the specified match, and something iff a filing is eligible |
| ConfirmationMachine.Verifier.ResolveRaw | src/event_intelligence/verifier.py:115-165 | resolving through that loop gives the event that `ResolveJudges` characterises over the fields |
| ConfirmationMachine.Verifier.Emit | src/event_intelligence/verifier.py:335-349 | a repeated provisional changes nothing; any other emission is logged and offered to the queue, the oldest dropped when full |
| ConfirmationMachine.Verifier.DrainInQueue | src/event_intelligence/verifier.py:365-399 | takes all that is queued and makes exactly the drain step that `EveryDrainedRecord` describes record by record; the out-queue was offered exactly the new emissions in order |
| ConfirmationMachine.Verifier.TickPending | src/event_intelligence/verifier.py:252-323 | a pass over the snapshot of pending ids is exactly the tick step, whose effect on each id is `PassBeforeDue`, `PassExpires`, `PassConfirms` or `PassPollsAgain` |
| ConfirmationMachine.Verifier.TickEvent | src/event_intelligence/verifier.py:258-323 | one id's expiry, confirmation, conflict or rescheduling is exactly the machine's |
| DropOldest.OfferAllKeepsNewest | src/event_intelligence/verifier.py:341-349 | however many items are offered, a bounded queue ends with the newest `max` of what it held and was offered, in order; an unbounded one with everything |
| Handoff.EveryInterleaving | src/event_intelligence/verifier.py:341-349 | with calls of any producers and the consumer interleaved, the length never exceeds a positive maximum, each record made is in exactly one of consumed, queued, lost and in hand, and consumed followed by queued keeps every producer's order |
| Handoff.SingleProducerLosses | src/event_intelligence/verifier.py:343-349 | with one producer each completed overflow loses exactly one record |
| Handoff.ManyProducersLosses | src/event_intelligence/nse_poller.py:252-261 | with any producers, records lost are the completed overflows, plus the producers about to put again, plus the overflows whose second put found the queue full; so one each iff that never happens |
| Handoff.OwnRecordLostIff | src/event_intelligence/verifier.py:341-349 | a producer's own record is lost, not the oldest, iff its eviction finds the queue empty or its second put finds it full |
| Handoff.OwnRecordLostToConsumerIff | src/event_intelligence/verifier.py:343-349 | for the only producer of a bounded queue that is iff the consumer takes all the queued records between the failed put and the eviction |
| Handoff.TwoProducersCanLoseTwo | src/event_intelligence/nse_poller.py:252-261 | a run in which one overflow loses two: another producer fills the room just made |
| Handoff.NewRecordLostToEmptyQueue | src/event_intelligence/main.py:236-240 | a run in which the consumer empties the queue in between and the new record is lost although there is room |
| UrgencyGate.StrongMeansBase | src/event_intelligence/classifier.py:362-453 | the findings whose table urgency reaches 8.5, exactly |
| UrgencyGate.ResultsPointWithSurprise | src/event_intelligence/classifier.py:362-424 | a result points to BUY iff the surprise is at least 1 % and to SHORT iff it is at most -1 % |
| UrgencyGate.UrgencyGrowsWithSurprise | src/event_intelligence/classifier.py:362-458 | a larger surprise in the same direction never has a lower urgency, under the heuristic cap or not |
| UrgencyGate.SmallSurprises | src/event_intelligence/classifier.py:370-377 | between -10 % and 10 % the urgency is 4 inside 1 % and 7 outside |
| UrgencyGate.GuidanceOrder | src/event_intelligence/classifier.py:381-393 | withdrawn guidance is more urgent than a large raise, that than a small one or a cut, and those than anything else |
| UrgencyGate.DividendOrder | src/event_intelligence/classifier.py:395-408 | omitted, large special, large raise, cut, introduced, small raise, maintained, in falling urgency; a small special is a small raise |
| UrgencyGate.BoardOrder | src/event_intelligence/classifier.py:446-449 | board meetings are below 5 and ordered by what they announce |
| UrgencyGate.CapAndShare | src/event_intelligence/classifier.py:455-458 | the heuristic caps the urgency at exactly 5 and nothing else does; an event at 0.7 has seven tenths of the confirmed urgency |
| UrgencyGate.GateNeedsConfirmation | src/event_intelligence/adapter.py:24 | in every run of the verifier an emission reaches effective urgency 8.5 iff it was CONFIRMED, parsed by more than the heuristic, and strong |
| SeenSet.AtMostOnce | src/event_intelligence/dedupe.py:91-126 | one producer, one day, no failed read or write: no id is sent twice in any run, wherever it crashes and restarts |
| SeenSet.OnceIfStartsLoadAll | src/event_intelligence/dedupe.py:91-126 | with any faults, nothing is sent twice as long as every restart finds in the file all that was sent |
| SeenSet.RestartSafeIff | src/event_intelligence/nse_poller.py:172-182 | after a restart no sent id can be sent again iff all of them were loaded |
| SeenSet.CanSendIff | src/event_intelligence/nse_poller.py:239-262 | an idle producer can still send an id iff the id is not in its own set, whatever other producers do |
| SeenSet.NextSaveHeals | src/event_intelligence/dedupe.py:105-126 | after any run whose restarts found everything, one dispatch whose write succeeds leaves all that was ever sent in the file, whatever writes failed before |
| SeenSet.FailedWriteSendsTwice | src/event_intelligence/dedupe.py:116-117 | a run that sends an id twice after a failed write and a crash |
| SeenSet.RestartAfterMidnightSendsTwice | src/event_intelligence/dedupe.py:86-97 | a run that sends an id twice because the new day's file is absent |
| SeenSet.TwoProducersSendTwice | src/event_intelligence/official_client.py:42-46 | two producers that give an announcement one id, NSE and BSE, send it twice without any fault |
| SeenSet.SharedFileForgets | src/event_intelligence/dedupe.py:105-117 | two producers overwrite each other's file, so a producer repeats its own id after a restart although every write succeeded |
| SeenSet.LostIff | src/event_intelligence/nse_poller.py:172-182 | an id was never sent and cannot be sent by a restarted producer iff it was loaded and not sent |
| SeenSet.SavedIsSettled | src/event_intelligence/dedupe.py:91-126 | with one producer and no faults an id in the file that is not on its way is sent no more that day, through any crashes and restarts |
| SeenSet.CrashAfterWriteLoses | src/event_intelligence/nse_poller.py:241-262 | a crash between the write and the enqueue loses the filing for the day |
| SeenSet.WrittenNotSent | src/event_intelligence/nse_poller.py:241-262 | a run that reaches that point |
| NsePoller.NeverSkipsRecent | src/event_intelligence/nse_poller.py:225-235 | in every history a filing at or after newest dispatched − 30 min is not skipped by the watermark |
| NsePoller.WatermarkFallsAtMostSlack | src/event_intelligence/nse_poller.py:225-235 | a poll started at watermark c ends at c − 30 min or later |
| NsePoller.WatermarkFalls | src/event_intelligence/nse_poller.py:234-235 | and exactly c − 30 min is reached: the watermark is not monotone |
| NsePoller.DispatchLowersIff | src/event_intelligence/nse_poller.py:231-235 | a dispatch lowers the watermark w iff the filing's time is above w and below w + 30 min, and raises it iff it is above w + 30 min |
| NsePoller.PollLogs | src/event_intelligence/nse_poller.py:245-250 | the replay artefact gains, in order, what was dispatched and could be appended |
| NsePoller.PollQueues | src/event_intelligence/nse_poller.py:252-262 | the queue is offered exactly what was dispatched, in order, dropping the oldest |
| NsePoller.PollMissesOnlyOld | src/event_intelligence/nse_poller.py:226-232 | after a poll that does not raise, an id is in the seen-set iff it was before or a fetched filing with it is not older than the watermark at the start |
| NsePoller.PolledGains | src/event_intelligence/nse_poller.py:226-244 | the ids dispatched by a poll are new, all different, and exactly what the seen-set gains |
| NsePoller.PollIsRun | src/event_intelligence/nse_poller.py:239-262 | a poll is a run of the seen-set machine's dispatch steps with the same set, file and sent records |
| NsePoller.DispatchedOnce | src/event_intelligence/nse_poller.py:172-262 | over any history of polls, exceptions and restarts on one day without faults, no id is dispatched twice |
| NsePoller.NSEPoller.MarkSeen | src/event_intelligence/dedupe.py:120-126 | answers whether the id is new, keeps it in memory even when the write fails, and writes the whole set when it does not |
| NsePoller.NSEPoller.Dispatch | src/event_intelligence/nse_poller.py:239-262 | a new id is marked, saved, appended to the replay artefact unless that fails, and offered to the queue; an old one changes nothing |
| NsePoller.NSEPoller.StartThread | src/event_intelligence/nse_poller.py:172-182 | a thread that is down starts with the set that can be loaded and keeps its watermark; one that runs is left alone |
| NsePoller.NSEPoller.PollOnce | src/event_intelligence/nse_poller.py:210-237 | the poll loop with its early exit on an exception is the specified poll |
| LiveBars.GroupsByRunningMax | src/data_ingestion/market_live.py:384-408 | the groups partition the ticks in order, and each tick is in the group that starts at the running maximum of the buckets |
| LiveBars.Extremes | src/data_ingestion/market_live.py:430-431 | the high and low of a group are its extreme prices |
| LiveBars.GainedAtLast | src/data_ingestion/market_live.py:434-435 | a bar's volume is taken at the last tick reporting no less than the first, and is never negative |
| LiveBars.EveryBarIsOfGroup | src/data_ingestion/market_live.py:389-435 | every bar opens at the first price of its group, closes at the last, has the attained extremes as high and low, and the volume gained |
| LiveBars.BarsDoNotOverlap | src/data_ingestion/market_live.py:373-408 | bars start at multiples of the interval, last one interval and do not overlap, with late ticks too |
| LiveBars.CompletedBarsStay | src/data_ingestion/market_live.py:408-438 | over any further ticks completed bars stay as they are; only the last bar may change, and not its start |
| LiveBars.VolumesTelescope | src/data_ingestion/market_live.py:424-435 | for cumulative volumes that never decrease, bar volumes plus the gaps at roll-overs make up last minus first, so the bars never exceed it |
| LiveBars.StreamedIsBatch | src/data_ingestion/market_live.py:379-440 | streaming ticks of all symbols gives each symbol the batch of its own ticks: symbols do not interfere |
| LiveBars.Bar.Absorb | src/data_ingestion/market_live.py:428-435 | the in-place update of high, low, close and volume |
| LiveBars.IntradayStore.AddBar | src/data_ingestion/intraday_context.py:11-20 | appends, or replaces the last bar when it has the same start; other symbols are untouched |
| LiveBars.IntradayStore.GetBars | src/data_ingestion/intraday_context.py:22-34 | the bars from the cutoff on, which for an ascending list are a suffix |
| LiveBars.BarBuilder.OnTick | src/data_ingestion/market_live.py:379-440 | keeps the alias invariant and the stream; only the maps and the current bar change, the completed bar handed back does not |
| LiveBars.BarBuilder.StartBar | src/data_ingestion/market_live.py:389-426 | a fresh object becomes current and the store's last |
| LiveBars.BarBuilder.UpdateBar | src/data_ingestion/market_live.py:428-438 | the update through the shared object leaves the store's lists as they are |
| LiveBars.BarBuilder.StoreIsBatch | src/data_ingestion/intraday_context.py:11-20 | after any ticks the store's list is the batch specification, ends with the very object the builder holds, and ascends |
| ArtefactWriter.MutualExclusion | src/event_intelligence/writers.py:32-38 | two threads inside the lock of one artefact are the same thread |
| ArtefactWriter.EveryInterleaving | src/event_intelligence/writers.py:69-98 | with any threads, faults and crashes an artefact is never torn, holds the newest records of its log in lock order, and all of them iff no commit followed a read that lost records |
| ArtefactWriter.CommitKeepsRecordsIff | src/event_intelligence/writers.py:89-97 | a commit keeps the earlier records iff the read under the same lock did not come back empty from an artefact that was not |
| ArtefactWriter.NoUpdateLost | src/event_intelligence/writers.py:86-98 | while reads do not fail, an artefact is its whole log at every moment, and what a lock-free reader got is a prefix of what is there later |
| ArtefactWriter.FailedReadLosesUpdate | src/event_intelligence/writers.py:81-83 | a run in which a failed read loses a committed record |
| ArtefactWriter.LosesRecordsIff | src/event_intelligence/writers.py:69-98 | in any run an artefact is no longer its whole log iff some thread committed to it after a read that failed while there were records to read |
| ArtefactWriter.LockFreeIff | src/event_intelligence/writers.py:32-38 | in every reachable state the lock of an artefact is free iff no thread is inside it, a lock made on first use included |
| ArtefactWriter.SomeThreadAdvances | src/event_intelligence/writers.py:89-97 | no reachable state deadlocks: some thread can take its next step while an append is under way |
| ArtefactWriter.AppendsCanFinish | src/event_intelligence/writers.py:86-98 | from every reachable state some continuation finishes every append with its record in the log |
| ArtefactWriter.Writers.LockFor | src/event_intelligence/writers.py:32-38 | the registry's lock of the path, made on first use |
| ArtefactWriter.Writers.AppendRecord | src/event_intelligence/writers.py:86-98 | an append to an artefact whose lock is free, other artefacts being in use or not, is a run of the machine's seven steps, leaves the read records followed by the new one and gives the lock back |
| DbWriter.EveryInterleaving | src/db/db_writer.py:67-142 | accepted records are, in order, processed, in flight and queued; submitted ones are printed or accepted; at most three attempts each, and all three on failure |
| DbWriter.JoinMeansDone | src/db/db_writer.py:89-95 | the unfinished count is 0 iff nothing is queued or in hand, and then all that was accepted is dealt with in order |
| DbWriter.RowsAreWrittenIff | src/db/db_writer.py:122-151 | the table has one row for each record written, in order, and none for a failure, iff no attempt that was made committed and raised; each that did left one row too many |
| DbWriter.RaiseAfterCommitDuplicates | src/db/db_writer.py:122-133 | a run with two rows for one record |
| DbWriter.FlushCanReturnIff | src/db/db_writer.py:89-105 | a flush can return iff no item is behind a stop sentinel |
| DbWriter.SubmitAfterStopStrands | src/db/db_writer.py:102-105 | a record submitted after a stop is such an item: no continuation lets a flush return |
| DbWriter.DatabaseWriter.WriteTradeRecord | src/db/db_writer.py:67-87 | queues the record, or prints it when the queue is full |
| DbWriter.DatabaseWriter.Write | src/db/db_writer.py:122-133 | the retry loop runs the machine's attempts up to the first that does not raise, three at most |
| DbWriter.DatabaseWriter.HandleItem | src/db/db_writer.py:109-142 | one round of the worker is a run of the machine's steps, for a task and for the sentinel |
| QuarterlyResults.UpsertTouchesOneKey | src/db/models_quarterly.py:99-121 | an upsert keeps the unique key, leaves a row with its key, and touches no other row |
| QuarterlyResults.UpsertIdempotent | src/db/models_quarterly.py:109-121 | an upsert made twice is an upsert made once |
| QuarterlyResults.UpsertsKeepUniqueKey | src/db/models_quarterly.py:38-40 | any upserts keep the unique key and, if given known sources, only known sources |
| QuarterlyResults.TableReflectsUpserts | src/db/models_quarterly.py:99-121 | after any upserts the table has one row for each key, with the last given value of every metric and the provenance of the last upsert |
| QuarterlyResults.MostRecentIsUnique | src/db/models_quarterly.py:148-156 | with the unique key and known sources only one list satisfies the query's specification |
| QuarterlyResults.Pigeonhole | src/db/models_quarterly.py:163 | rows cannot outnumber six times their quarters |
| QuarterlyResults.KnownSourcesAtMostSix | src/db/models_quarterly.py:69 | the unique key and known sources leave at most six rows a quarter |
| QuarterlyResults.BestSurvives | src/db/models_quarterly.py:159-165 | if fewer than m rows are newer than a quarter or not its best, a best row of it is among the first m of any descending answer |
| QuarterlyResults.AtMostSixIsSafe | src/db/models_quarterly.py:163 | at most six rows a quarter leave fewer than 6n such rows for each of the n most recent quarters |
| QuarterlyResults.LimitedIsEnough | src/db/models_quarterly.py:159-178 | then the best rows of the limited answer are the n most recent quarters of the whole table, ascending, each with its best source |
| QuarterlyResults.TrustOrder | src/db/models_quarterly.py:66-69 | nse_xbrl before bse_xbrl, nse_pdf, pipeline, yfinance, manual |
| QuarterlyResults.ReturnedIsMostTrusted | src/db/models_quarterly.py:159-187 | while the limit is safe, a returned row is from the first of the six named sources that reports its quarter, and from an unlisted one only if none of them does |
| QuarterlyResults.QueryRightIff | src/db/models_quarterly.py:148-180 | for any table the query is right, whichever order the database gives rows of one quarter, iff for each of the n most recent quarters fewer than 6n rows are newer or not its best |
| QuarterlyResults.LimitedQueryIsRight | src/db/models_quarterly.py:148-180 | so after any upserts from known sources the query is right |
| QuarterlyResults.UnlistedSourcesHideBest | src/db/models_quarterly.py:53 | seven rows of one quarter for which the query is wrong |
| QuarterlyResults.QuarterlyTable.Upsert | src/db/models_quarterly.py:91-138 | find the key, add or update the row in place, and set the two growth columns, which lead from the figures of the row of the same symbol and fiscal quarter one year before to its own, and keep their value when a figure is missing or the earlier one is zero |
| QuarterlyResults.GrowthLeadsBack | src/db/models_quarterly.py:132-136 | a new growth figure leads from the earlier figure back to the current one |
| QuarterlyResults.YoyLeadsBack | src/db/models_quarterly.py:128-136 | each column leads from the same figure of the earlier year to the row's own, or stays as it was |
| QuarterlyResults.QuarterlyTable.GetPriorQuarters | src/db/models_quarterly.py:148-180 | limit, keep the first best row of each quarter, sort, last n; while the limit is safe, or no quarter has more than six rows, the specified list, each row from the most trusted of the named sources that reports its quarter |
| SelfConsensus.RaisesIff | src/event_intelligence/consensus.py:191-204 | the forecast raises iff the fourth-last reported PAT is positive and the last negative |
| SelfConsensus.ProfitsThenLossRaises | src/event_intelligence/consensus.py:200-204 | a history for which it does |
| SelfConsensus.Homogeneous | src/event_intelligence/consensus.py:97-176 | scaling all PATs by k > 0 and all revenues by m > 0 scales forecast and base by k and changes nothing else, with or without guidance and events, and when it raises |
| SelfConsensus.SurpriseUnitless | src/event_intelligence/consensus.py:179-186 | the surprise against a likewise scaled actual is unchanged; `SurpriseMeans` says what it is |
| SelfConsensus.SurpriseMeans | src/event_intelligence/consensus.py:179-186 | there is a surprise iff there is an estimate that is not 0; it is positive iff the actual beats it, negative iff it misses, and that percentage of the estimate's size leads to the actual |
| SelfConsensus.TrendSign | src/event_intelligence/consensus.py:191-204 | with real fourth roots the trend is positive iff the last PAT is above a positive fourth-last one, negative iff below |
| SelfConsensus.SeasonalSign | src/event_intelligence/consensus.py:207-224 | the seasonal growth has the sign of the change between the last two PATs of the quarter, if the earlier is positive |
| SelfConsensus.MomentumSign | src/event_intelligence/consensus.py:227-238 | the momentum is positive iff the last growth factor is above the one before, negative iff below, and depends on the last three positive revenues only |
| SelfConsensus.ConfidenceIff | src/event_intelligence/consensus.py:148-157 | HIGH iff at least eight PATs with a deviation under 0.15, LOW iff fewer than four |
| SelfConsensus.SteadyGrowth | src/event_intelligence/consensus.py:311-323 | PATs that grow by one rate have that rate throughout, and their deviation is the root of 0 |
| SelfConsensus.GuidanceTakesWeight | src/event_intelligence/consensus.py:117-138 | guidance counts iff raised, cut or reaffirmed, and takes its weight from the trend |
| SelfConsensus.ToneMoves | src/event_intelligence/consensus.py:268-273 | without a figure a raise lifts a positive forecast, a cut lowers it, a reaffirmation leaves it |
| SelfConsensus.SingleEvent | src/event_intelligence/consensus.py:281-301 | with the default weight the four kinds of event move the forecast by 5, -10, -8 and 3 % |
| SelfConsensus.WithinBounds | src/event_intelligence/consensus.py:130-147 | with default weights, no usable guidance and no event that counts, the forecast is within 43.5 % of the base, for a base of either sign |
| SelfConsensus.BoundReached | src/event_intelligence/consensus.py:130-138 | and the upper bound is reached |
| SelfConsensus.EventOrderIrrelevant | src/event_intelligence/consensus.py:282-296 | the order of events does not matter |
| SelfConsensus.VarianceIsMeanSquare | src/event_intelligence/consensus.py:321-323 | the variance is the mean square less the square of the mean and never negative, so its root does not raise |
| SelfConsensus.GuidedBetween | src/event_intelligence/consensus.py:260-265 | explicit guidance leaves the forecast between the model's and the guided figure |
| SelfConsensus.LastValid | src/event_intelligence/consensus.py:304-308 | the search from the end finds the last reported value |
| SelfConsensus.RevenueMomentum | src/event_intelligence/consensus.py:227-238 | the collected growth rates give the clamped difference of the last two |
| SelfConsensus.GrowthVariance | src/event_intelligence/consensus.py:311-323 | the deviation of the growth rates after positive quarters, 1 when there are too few |
| SelfConsensus.ApplyEventChain | src/event_intelligence/consensus.py:276-301 | the accumulated adjustment applied to the forecast |
| SelfConsensus.ComputeSelfConsensus | src/event_intelligence/consensus.py:64-176 | the whole computation with its loops is the specified forecast |
| UnitDetection.ClosestRecoversIff | src/event_intelligence/classifier.py:309-326 | the search for the closest unit is right for crores, lakhs and rupees iff the true figure is between 0.05 and 5 times the anchor |
| UnitDetection.FirstMatchRecoversIff | src/event_intelligence/main.py:96-102 | the first plausible divisor is right for all three iff it is more than 0.2 and at most 20 times |
| UnitDetection.SearchesAgreeIff | src/event_intelligence/main.py:87-102 | the two read a reported figure differently iff it is 5 to 20 times the anchor |
| UnitDetection.SurpriseUnitless | src/event_intelligence/classifier.py:306-330 | in its range the database surprise is the true growth, whatever the unit |
| UnitDetection.StoredInCrores | src/event_intelligence/main.py:94-106 | in its range PAT and revenue are both stored in crores, whatever the unit |
| UnitDetection.FindClosest | src/event_intelligence/classifier.py:229-238 | the loop finds the first of the plausible candidates closest to the anchor |
| UnitDetection.FindDivisor | src/event_intelligence/main.py:96-102 | the loop with `break` finds the first plausible divisor |
| FilingDedup.PassKeepsWinners | src/data_ingestion/exchange_filings.py:505-530 | a pass keeps, for each key, the winner among the filings with it |
| FilingDedup.PassKeepsFirstKeys | src/data_ingestion/exchange_filings.py:505-530 | in order of first appearance of the keys |
| FilingDedup.ExchangeWinner | src/data_ingestion/exchange_filings.py:506-512 | pass 1 keeps the first filing, or the first from NSE if the first is from BSE |
| FilingDedup.TimeWinner | src/data_ingestion/exchange_filings.py:522-530 | pass 2 keeps the earliest in the list of those with the latest timestamp, none being lowest |
| FilingDedup.ResultIsDistinct | src/data_ingestion/exchange_filings.py:494-531 | the result holds only given filings, with different keys of both kinds |
| FilingDedup.EveryFilingReachesResult | src/data_ingestion/exchange_filings.py:494-531 | every filing reaches a kept one by one step of each key |
| FilingDedup.DedupIdempotent | src/data_ingestion/exchange_filings.py:494-531 | deduplicating again changes nothing, the order included |
| FilingDedup.DedupFilings | src/data_ingestion/exchange_filings.py:494-531 | the two loops over dicts compute the specified result |
| FilingDedup.DedupIs | src/data_ingestion/exchange_filings.py:494-531 | from the filings' own fields: for each headline key, in order of first appearance, the first filing or the first from NSE; of those, for each subject key, the first of the latest |
| ConfigMerge.MergeAt | src/config_loader.py:228-235 | at every path the merge has what the two have there, merged, and nothing below a leaf of the overlay |
| ConfigMerge.LeafIff | src/config_loader.py:228-235 | a base leaf survives iff the overlay has nothing at its path and no leaf above; overlay leaves always win |
| ConfigMerge.MergeIdempotent | src/config_loader.py:228-235 | merging a tree with itself gives the tree |
| ConfigMerge.MergeAbsorbs | src/config_loader.py:228-235 | merging the same overlay again changes nothing |
| ConfigMerge.CoversIff | src/config_loader.py:228-235 | the base does not show through iff the overlay has all its keys, and so on below where both are dicts |
| ConfigMerge.AssociativeIff | src/config_loader.py:228-235 | three layers merge alike in either order iff no leaf of the middle lies between a dict of the first and a dict of the last that lacks one of its keys there or below |
| ConfigMerge.MergeIsNotAssociative | src/config_loader.py:228-235 | three layers for which they do not |
| ConfigMerge.DeepMerge | src/config_loader.py:228-235 | the recursive method, taking the overlay's items in any order, computes the merge |

## Left out

- Fetchers, WebSockets, e-mail, model calls, PDF and XBRL parsing: foreign services; their answers are parameters. `fetch_filings_for_symbol` is not part of this model, only that it answers or raises.
- SHA-256 ids, headline normalisation, tokenising and case folding: keys and word sets are given with each record.
- The final rounding of the forecast, and floating-point rounding in general.
- `bse_poller.py`: the logic of the NSE poller. `runner.py`, `data_cache.py`, `market_history.py`, the scoring tables: no state or arithmetic of this kind, or parts of it are missing.
- `scraped_at` of the quarterly table: which of several rows of the year before the database answers with is a parameter. A commit that fails and is rolled back.
- Several verifiers in one process: the raw table is a class attribute that they would share.
- Several processes on one data directory, `atomic_write_json` and the heartbeat.
- Several bar builders on the one global store, and the time-zone fallback of `get_bars`, whose cutoff is a parameter.
- Reading `config.yaml`, the cached configuration and its locks. The merge shares sub-dicts that only the base has; trees here are values, so aliasing is not modelled.
- Mapping a filing's month to its fiscal quarter, the 200-day rule and the choice of anchor: the anchor is a parameter.
- ConfirmationMachine.EveryPendingSettles: that passes keep being made is an assumption on the run, as the loop's thread may be stopped.
- ArtefactWriter.AppendsCanFinish: some continuation, not every fair one; Python's locks promise no order.
