# SkausWatch: verified models of the stateful cores

This project models the parts of SkausWatch whose behaviour depends on a whole history of calls, and proves what
holds over every such history:

- **Event buffering** (`services/aaa-monitor/buffer_manager.py`): `Events`, `QueueDict`, `Compression`, `BufferModel`,
  `BufferHistory`, `BufferRuns` (calls one after another), `BufferSteps` and `BufferDrops` (calls interleaved at the
  Redis write) and the object `BufferManager.Manager`.
- **Admission** (`services/aaa-monitor/log_processor.py`, `darwin/shared/database/redis.go`): `SlidingWindow`,
  `LogProcessor`, `RedisLimiter`.
- **AI providers and the analysis engine** (`services/aaa-monitor/ai_integration/`): `Provider`, `Fallback`
  (one analysis after another), `ProviderSteps` and `ProviderRecovery` (several at once), `ProviderManager`,
  `AnalysisEngine`, `Consensus`.
- **Certificates** (`icebox/services/ssh-ca/async_ssh_processor.py`,
  `services/pki-server/async_certificate_processor.py`): `SshWire`, `SshCertificate`, `RevocationList` (what is
  published), `RevocationProgress` (whether it gets published) and the object `RevocationProcessor.Processor`.
- **Login** (`services/manager/auth.py`): `Accounts`.

`Prelude` holds what several of them share: `Option`, sums, counters and facts about sequences.

Each stateful component has the same shape. A datatype holds its state, functions say what each operation does to it,
and lemmas prove properties of every run. A class with the source's fields implements the operations with the source's
loops and branches, and every method is proved to move the class's `View()` as the function says. The properties refer
to reference definitions that do not share the implementation's shortcuts: histories that are never pruned, a decoder,
a breaker described by its journal, the events accepted so far.

Conventions. Times are integers (one unit is a clock tick) and the clock never runs backwards; where the source reads
the clock more than once in a call, each reading is a parameter. Rates, durations and scores are real numbers without
rounding. Log sources, event types, analysis types and provider names are enumerations and are represented by numbers,
identifiers of jobs and certificate requests (UUIDs) likewise; the event classes themselves are declared in a models
module that is not part of this model. Hash functions are arbitrary function parameters, so collisions are allowed for.
A `defaultdict` is a map whose missing entries read as empty and are created on access; the dictionary of category
buffers keeps its insertion order.

Results that a reader of the source might not expect:

- Backpressure never fires in sequential use exactly when a simple check on four settings holds (`DropsExactly`), and
  for each severity by itself exactly when its own check does (`SeverityDropsExactly`). Critical events are always kept
  (`CriticalKept`).
- With interleaved calls each suspended call adds room for one more event, and the same check with the batch size raised
  by n says exactly whether an event can be dropped with n calls suspended (`InterleavedDropsExactly`).
- The event counter `buffered_events` can become negative exactly when events are persisted to Redis and the batch size
  is at least one (`CounterNeverNegative`). A clear or a recount while calls are suspended leaves it off until the next
  recount (one runs every minute); `StepsCounted` gives the exact amount at every moment.
- A provider whose status became unhealthy is not called any more: the breaker resets after its timeout, as its comment
  says, but the status is only rewritten after a call, and an unhealthy provider gets none. One failed first request is
  enough. Only calls that are in flight at that moment can bring it back: without a disabling exactly if the failures
  would not be a majority when all of them answered (`RecoversExactly`), and with one exactly if there is any such call
  (`CalledAgainExactly`). Two calls at once to a new provider can lead there (`RecoveryHappens`).
- Hence the breaker timeout is without effect as long as no provider is disabled: managers that differ only in timeouts
  give the same responses and make the same calls in every sequential run (`TimeoutNeverMatters`), and with several
  analyses at once as long as no status is queried (`TimeoutWithoutEffect`). In each of the two excluded cases any two
  timeouts are told apart: a disabled provider is offline and not unhealthy, so it is still tried
  (`DisabledTimeoutMatters`), and a query resets the breaker before a late failure is reported (`QueryShowsTimeout`).
  `TimeoutDecides` gives the exact condition for one provider.
- An event that starts the clock of an analysis batch is stored before the clock is read, so it may wait longer than the
  maximal age (`OpeningWaitsLonger`); all other events wait less, after a submission (`NoJobMeansYoung`, `YoungExactly`)
  as after a turn of the timer (`TickMeansYoung`).
- The worker that writes the revocation list starts a periodic generation inside the handler of the timeout, which the
  other handler of the same `try` does not cover. An exception there ends the worker, and nothing starts it again: one
  new serial revoked during a periodic generation is enough, and no list is ever written afterwards
  (`NewSerialEndsWorker`). As long as nothing else raises, that is the only obstacle: left alone, the system publishes
  exactly the revoked entries if and only if the worker lives and is not about to fail in this way
  (`EveryScheduleSettles`; `SettlesExactly` without the proviso).
- A revocation during which a cache call raises is recorded but not announced, and the published list then lacks it
  (`LossLeavesStaleList`) until the next generation of a worker that still lives (`WakeUpRepairs`).
- The SSH service clears its list on every revocation, the X.509 service does not and goes on serving the old one
  (`ClearCacheExactly`). Even so a generation that has begun before can bring a list without the revocation back
  (`ServesAfterClear` says exactly when).
- A periodic generation is the only thing that can end that worker (`AnnouncedIsSafe`), but a timeout raised inside an
  announced one starts one (`SecondFailureEnds`).
- The Redis limiter renews its expiry on refused calls too: a caller that never pauses for a window gets `limit` calls
  in all, not per window.

## Model

| member | source | states |
|---|---|---|
| Compression.CompressSelectsFirsts | services/aaa-monitor/buffer_manager.py:445-471 | the compressed batch is the subsequence, in order, of exactly the events whose hash has not occurred before |
| Compression.CompressDistinct | services/aaa-monitor/buffer_manager.py:452-458 | no two events of a compressed batch share a hash |
| Compression.HashesOfCompress | services/aaa-monitor/buffer_manager.py:452-458 | compression keeps the set of hashes of the batch |
| Compression.CompressAbsorbs | services/aaa-monitor/buffer_manager.py:445-471 | compressing a prefix beforehand changes nothing; in particular compression is idempotent |
| Compression.CompressBatch | services/aaa-monitor/buffer_manager.py:449-458 | the loop with its set of seen hashes computes the compressed batch |
| BufferModel.PushAt | services/aaa-monitor/buffer_manager.py:149-155 | adding appends to the event's own category buffer only, and keeps its size counter exact and its events of one category |
| BufferModel.PushQueue | services/aaa-monitor/buffer_manager.py:184-194 | adding appends to the priority queue of the event's severity only |
| BufferModel.PushTotal | services/aaa-monitor/buffer_manager.py:153-155 | adding raises the number of events waiting in all buffers by one, also when it creates a buffer |
| BufferModel.FlushBufferAt | services/aaa-monitor/buffer_manager.py:334-352 | a flush takes a prefix of one buffer, leaves all others, and keeps size counters exact |
| BufferModel.FlushBufferTotal | services/aaa-monitor/buffer_manager.py:347-352 | a flush lowers the event counter by exactly the number of events taken |
| BufferModel.DueThenLeft | services/aaa-monitor/buffer_manager.py:334-352 | a flush takes the oldest events up to the batch size, all others stay in order; nothing is taken if the batch size is below one |
| BufferModel.ClearTotal | services/aaa-monitor/buffer_manager.py:654-675 | clearing leaves no waiting event in any category |
| BufferModel.ClearQueues | services/aaa-monitor/buffer_manager.py:654-675 | clearing empties the three priority queues, and the dropped counter grows by what waited in both views |
| BufferHistory.PushAccounted | services/aaa-monitor/buffer_manager.py:149-155 | adding keeps both views conserved and in order |
| BufferHistory.FlushBufferAccounted | services/aaa-monitor/buffer_manager.py:334-357 | a category flush moves a prefix into the log of batches: nothing lost, duplicated or reordered, no empty or oversized batch |
| BufferHistory.FlushQueueAccounted | services/aaa-monitor/buffer_manager.py:362-393 | the same for a priority queue |
| BufferHistory.ViewsAgree | services/aaa-monitor/buffer_manager.py:149-155 | every event is popped or waiting equally often in its category view and in its priority view, and as often as it was accepted |
| BufferHistory.SentCoversBatch | services/aaa-monitor/buffer_manager.py:398-413 | processors receive every hash of a batch, and no hash twice when compression is on; when it is off they receive the batch itself |
| BufferRuns.RunBounded | services/aaa-monitor/buffer_manager.py:258-272 | in every sequential run each buffer stays below the batch size, critical categories stay empty, size counters and the event counter are exact |
| BufferRuns.AddLeaves | services/aaa-monitor/buffer_manager.py:146-170 | after an add the category of the event holds what it held and the event; unless it is full or the event is critical, then the first batch of that is gone; all other categories are unchanged |
| BufferRuns.FlushAllEmpties | services/aaa-monitor/buffer_manager.py:300-320 | flushing everything empties every category buffer and takes at most one batch off each priority queue |
| BufferRuns.FlushQueuesLog | services/aaa-monitor/buffer_manager.py:362-393 | flushing the priority queues logs at most one batch of each, high before medium before low, sent in full or compressed |
| BufferRuns.RunAccounted | services/aaa-monitor/buffer_manager.py:334-393 | without a clear, per category and per level the accepted events are the popped batches followed by what is waiting; batches are sound and counted |
| BufferRuns.DropsExactly | services/aaa-monitor/buffer_manager.py:199-225 | no event of any severity is ever dropped in any sequential run if and only if the configuration passes a check on its sizes and thresholds |
| BufferRuns.DropWitness | services/aaa-monitor/buffer_manager.py:215-223 | for each severity and every configuration that fails the check for it, a run of medium events after which an event of that severity is dropped |
| BufferRuns.SeverityDropsExactly | services/aaa-monitor/buffer_manager.py:199-225 | for each severity, none of its events is ever dropped in any sequential run if and only if the configuration passes the check for that severity; critical events always pass, high and medium ones meet the drop threshold, low and informational ones also the lower thresholds |
| BufferRuns.CriticalKept | services/aaa-monitor/buffer_manager.py:211-213 | a critical event is never dropped: after any run adding it appends it to the accepted events and leaves the dropped counter |
| BufferRuns.DropRule | services/aaa-monitor/buffer_manager.py:202-225 | the decision without the quotient: the events waiting in all categories against the thresholds times the capacity of all categories (of one, if there is none) |
| BufferRuns.RunDropped | services/aaa-monitor/buffer_manager.py:138-141 | in every run, clears included, the dropped counter is the number of events refused plus what the clears took from both views |
| BufferRuns.SaneThresholdsNeverDrop | services/aaa-monitor/buffer_manager.py:46-53 | a batch size within the backpressure share of the buffer size, and a drop threshold above it, pass that check |
| BufferSteps.HalvesMakeACall | services/aaa-monitor/buffer_manager.py:124-172 | the two halves of an add with nothing in between are the atomic add |
| BufferSteps.ArriveSuspends | services/aaa-monitor/buffer_manager.py:152-159 | a call suspends exactly when its event is kept, critical or high, and events are persisted |
| BufferSteps.CompleteBounded | services/aaa-monitor/buffer_manager.py:161-170 | a resuming call gives back its share of the excess over the sequential bound |
| BufferSteps.StepsBounded | services/aaa-monitor/buffer_manager.py:152-170 | over every interleaving a buffer holds at most batch size - 1 plus its suspended calls, a critical one at most its suspended calls, and its size counter is exact |
| BufferDrops.StepsTotalBounded | services/aaa-monitor/buffer_manager.py:199-213 | over every interleaving all buffers together hold at most the batch size less one per category, plus one event per suspended call |
| BufferDrops.DropsNeedSuspension | services/aaa-monitor/buffer_manager.py:199-225 | with a configuration that is safe for its severity no event is dropped in an interleaved run whenever no call is suspended |
| BufferDrops.InterleavedDropsExactly | services/aaa-monitor/buffer_manager.py:152-225 | over every interleaving, an event of some severity can be dropped with at most n calls suspended if and only if the configuration fails a check on its sizes and thresholds for n |
| BufferDrops.InterleavedSeverityExactly | services/aaa-monitor/buffer_manager.py:152-225 | the same for each severity: over every interleaving one of its events can be dropped with at most n calls suspended if and only if the configuration fails the check of that severity for n |
| BufferDrops.CriticalKept | services/aaa-monitor/buffer_manager.py:211-213 | over every interleaving a critical event is never dropped: its arrival appends it to the accepted events |
| BufferSteps.StepsTotalExact | services/aaa-monitor/buffer_manager.py:161-163 | total events plus suspended calls is the number of accepted events, over every interleaving |
| BufferSteps.StepsCounted | services/aaa-monitor/buffer_manager.py:161-163 | event counter plus suspended calls is the number of waiting events plus the calls suspended at the last clear or recount |
| BufferSteps.NoSkew | services/aaa-monitor/buffer_manager.py:542-546 | that extra term is zero without clears and recounts |
| BufferSteps.CounterNegative | services/aaa-monitor/buffer_manager.py:351-352 | the event counter is negative exactly when more calls are suspended than events and skew remain |
| BufferSteps.CounterNeverNegative | services/aaa-monitor/buffer_manager.py:157-170 | the event counter stays non-negative in every interleaved run if and only if nothing is persisted to Redis or the batch size is below one |
| BufferSteps.CounterGoesNegative | services/aaa-monitor/buffer_manager.py:157-163 | a flush between the halves of the first critical event makes it -1 |
| BufferSteps.StepsAccounted | services/aaa-monitor/buffer_manager.py:152-170 | order and conservation of both views over every interleaving without a clear |
| BufferManager.Manager.AddEventCall | services/aaa-monitor/buffer_manager.py:124-172 | returns whether the event was kept, and moves the whole state as the model's add |
| BufferManager.Manager.PushEvent | services/aaa-monitor/buffer_manager.py:146-155 | the first half, up to the persist call, moves the state as the model's first half |
| BufferManager.Manager.CompleteEvent | services/aaa-monitor/buffer_manager.py:161-170 | the second half moves the state as the model's second half |
| BufferManager.Manager.ShouldDropEvent | services/aaa-monitor/buffer_manager.py:199-225 | the branches decide as the model's drop condition on the total over all buffers |
| BufferManager.Manager.ShouldImmediateFlush | services/aaa-monitor/buffer_manager.py:258-272 | the scan answers whether the buffer is full or holds a critical event |
| BufferManager.Manager.Flush | services/aaa-monitor/buffer_manager.py:334-357 | the popping loop with both counters moves the state as the model's flush, creating a missing buffer |
| BufferManager.Manager.FlushPriorityBuffers | services/aaa-monitor/buffer_manager.py:362-393 | one batch off each queue, high, medium, low in this order |
| BufferManager.Manager.FlushEverything | services/aaa-monitor/buffer_manager.py:300-320 | the loop over the keys, then the priority queues |
| BufferManager.Manager.ClearBuffers | services/aaa-monitor/buffer_manager.py:654-676 | empties both views, zeroes the counters and adds both views to the dropped counter |
| BufferManager.Manager.CollectStats | services/aaa-monitor/buffer_manager.py:542-546 | overwrites the event counter with a recount |
| SlidingWindow.PruneRepresents | services/aaa-monitor/log_processor.py:327-335 | the pruned queue has as many entries as a limiter that forgets nothing counts inside the window |
| SlidingWindow.AdmitSpaced | services/aaa-monitor/log_processor.py:333-340 | an admission keeps every two admissions that are max places apart more than a window apart |
| LogProcessor.ChecksAgree | services/aaa-monitor/log_processor.py:320-374 | after any run the rate check answers as a limiter that never prunes, and the duplicate check as one that never evicts |
| LogProcessor.AcceptsAgrees | services/aaa-monitor/log_processor.py:293-313 | hence after any run a request is accepted exactly when the reference that never forgets accepts it |
| LogProcessor.QueuesMatchReference | services/aaa-monitor/log_processor.py:277-313 | after any run the high-priority queue holds exactly the critical and high events the reference accepts, the other queue all others, in order |
| LogProcessor.RememberRelated | services/aaa-monitor/log_processor.py:362-372 | eviction loses only digests whose last pass is a whole window old |
| LogProcessor.AcceptedBounded | services/aaa-monitor/log_processor.py:362-372 | directly after an event was accepted the cache holds at most ten thousand digests, or only digests inside the window |
| LogProcessor.RememberBounded | services/aaa-monitor/log_processor.py:362-372 | up to ten thousand digests nothing is forgotten, not even what has left the window |
| LogProcessor.RunQueueBounded | services/aaa-monitor/log_processor.py:320-340 | in every run no queue of the rate check is longer than the limit |
| LogProcessor.RunCounts | services/aaa-monitor/log_processor.py:287-291 | in every run the counters in all, by source, by type and by severity count every event once, accepted or not |
| LogProcessor.RunSpaced | services/aaa-monitor/log_processor.py:320-340 | in every run the requests of one source and type that pass the rate check are spaced as the limit demands |
| LogProcessor.RunApart | services/aaa-monitor/log_processor.py:346-363 | in every run the requests accepted with equal digest pass the duplicate check at least one window apart |
| LogProcessor.Processor.IsRateLimited | services/aaa-monitor/log_processor.py:320-340 | the popping loop answers and updates as the model's rate check |
| LogProcessor.Processor.IsDuplicate | services/aaa-monitor/log_processor.py:346-374 | answers and updates as the model's duplicate check, with the size-triggered clean-up |
| LogProcessor.EvictStale | services/aaa-monitor/log_processor.py:366-372 | deleting the collected stale keys one by one leaves exactly the entries inside the window |
| LogProcessor.Processor.ProcessEvent | services/aaa-monitor/log_processor.py:277-313 | returns whether the event was accepted, and moves the whole state as the model's pipeline |
| RedisLimiter.ReadingIsStreak | darwin/shared/database/redis.go:203-212 | each call reads the number of its identifier's calls since the last idle gap of a window |
| RedisLimiter.StreakAllows | darwin/shared/database/redis.go:203-217 | without an idle gap exactly the first calls up to the limit are allowed, all later ones refused |
| RedisLimiter.NeverPausingGetsLimit | darwin/shared/database/redis.go:200-218 | a caller that never pauses for a window gets limit calls in all |
| RedisLimiter.AtMostLimitPerWindow | darwin/shared/database/redis.go:200-218 | in any run, calls spanning less than a window include at most limit allowed ones per identifier |
| RedisLimiter.Client.RateLimit | darwin/shared/database/redis.go:200-218 | increment and expire, answer and new store as in the model |
| Provider.RunExact | services/aaa-monitor/ai_integration/ai_provider.py:183-255 | over any interleaving of checks and reports, breaker fields, counters, the last hundred samples, error rate, mean and the times of the last request, success and error are what the journal of outcomes says |
| Provider.OpenIffThreshold | services/aaa-monitor/ai_integration/ai_provider.py:233-239 | the breaker is open exactly when the failures since the last success or timeout reach the threshold |
| Provider.StatusExact | services/aaa-monitor/ai_integration/ai_provider.py:260-271 | after a report an enabled provider is unhealthy exactly when the breaker is open or most requests failed, degraded exactly when more than a fifth did |
| Fallback.FirstIsFirst | services/aaa-monitor/ai_integration/ai_provider.py:376-392 | the position at which the loop stops is the first whose provider is able to answer when it is reached |
| Fallback.FirstSuccess | services/aaa-monitor/ai_integration/ai_provider.py:373-431 | for any order, repeated names included: the response is that of that provider, or none, and the final states are those after visiting the positions up to it |
| Fallback.FirstSuccessAnswers | services/aaa-monitor/ai_integration/ai_provider.py:373-431 | with distinct names it is the first provider able to answer judged on the states before the call |
| Fallback.FirstSuccessVisits | services/aaa-monitor/ai_integration/ai_provider.py:376-426 | providers up to that one are visited once, every later one is untouched |
| Fallback.VisitRecords | services/aaa-monitor/ai_integration/ai_provider.py:382-418 | a visit records exactly one failure or one success if the provider is eligible, and nothing otherwise |
| Fallback.UnhealthyForEver | services/aaa-monitor/ai_integration/ai_provider.py:382-384 | in sequential runs an unhealthy provider is never called again and keeps its status |
| Fallback.FirstFailureIsFinal | services/aaa-monitor/ai_integration/ai_provider.py:246-271 | one failed first request makes a provider unhealthy whatever the breaker threshold |
| Fallback.TimeoutNeverMatters | services/aaa-monitor/ai_integration/ai_provider.py:183-199 | managers that differ only in breaker timeouts, with enabled providers and without a disabling, give equal responses, tracked requests and statuses in every sequential run |
| Fallback.TimeoutDecides | services/aaa-monitor/ai_integration/ai_provider.py:382-392 | two non-negative timeouts decide differently about one provider if and only if its breaker has opened before, its status is not unhealthy and it is within its request limit |
| Fallback.DisabledTimeoutMatters | services/aaa-monitor/ai_integration/openai_client.py:265-267 | for any two timeouts, a run with a disabled first provider after which the second one has been called under one of them only |
| ProviderSteps.RunIsASchedule | services/aaa-monitor/ai_integration/ai_provider.py:366-426 | every sequential run is one of the interleavings, with the same result |
| ProviderSteps.BeginWithinLimits | services/aaa-monitor/ai_integration/ai_provider.py:387-396 | check-then-track keeps the queue a true picture of all tracked requests, and these spaced |
| ProviderSteps.RunWithinLimits | services/aaa-monitor/ai_integration/ai_provider.py:167-181 | over every interleaving of analyses, status queries and disablings the tracked requests of every provider stay spaced as its limit demands |
| ProviderSteps.LimitedExactly | services/aaa-monitor/ai_integration/ai_provider.py:167-181 | after any timely schedule the limiter answers exactly as one that forgets no tracked request |
| ProviderSteps.RunQueueBounded | services/aaa-monitor/ai_integration/ai_provider.py:167-181 | over every interleaving the limiter remembers no more requests than it allows in a window |
| ProviderSteps.TrackedIsReportedOrInFlight | services/aaa-monitor/ai_integration/ai_provider.py:394-418 | over every interleaving the tracked requests are the reported ones and those in flight |
| ProviderSteps.UnhealthyStaysQuiet | services/aaa-monitor/ai_integration/ai_provider.py:382-384 | over every interleaving an unhealthy provider with no call in flight is never called again |
| ProviderSteps.RunGuarded | services/aaa-monitor/ai_integration/ai_provider.py:260-271 | over every interleaving an open breaker of an enabled provider shows in its status |
| ProviderSteps.EnabledEligibility | services/aaa-monitor/ai_integration/ai_provider.py:382-392 | hence at any moment an enabled provider is called as its status and request limit say |
| ProviderSteps.RunEnabled | services/aaa-monitor/ai_integration/openai_client.py:232-234 | over every interleaving a provider is enabled at the end if and only if it was at the start and none of the moves is a failed health check of it or the end of a call of it that disables it |
| ProviderSteps.EndOffline | services/aaa-monitor/ai_integration/ai_provider.py:260-271 | the end of a call leaves the status offline exactly when the provider was disabled before or the call disables it |
| ProviderSteps.OfflineTriedAgain | services/aaa-monitor/ai_integration/ai_provider.py:382-392 | over every interleaving a provider with that status is tried again exactly when its breaker is closed or past its timeout and no request limit of all its tracked requests is reached |
| ProviderSteps.BreakerFollowsJournal | services/aaa-monitor/ai_integration/ai_provider.py:183-258 | over every interleaving breaker fields, counters and averages of a provider are those of the journal of its own checks and reports |
| ProviderRecovery.RecoversExactly | services/aaa-monitor/ai_integration/ai_provider.py:260-271 | over every interleaving without a disabling, an unhealthy provider can get another status if and only if calls are in flight and, while it is enabled, failures would not be the majority if all of them answered |
| ProviderRecovery.RecoveryHappens | services/aaa-monitor/ai_integration/ai_provider.py:382-418 | a schedule that leads every new provider with room for two requests into that situation |
| ProviderRecovery.CalledAgainExactly | services/aaa-monitor/ai_integration/ai_provider.py:382-418 | over every interleaving an unhealthy provider can be called again if and only if a call is in flight and its limit allows any request |
| ProviderRecovery.TimeoutWithoutEffect | services/aaa-monitor/ai_integration/ai_provider.py:183-199 | managers that differ only in timeouts have the same schedules, and agree after them in all but the timeouts, over every interleaving without disablings and status queries |
| ProviderRecovery.QueryShowsTimeout | services/aaa-monitor/ai_integration/ai_provider.py:433-471 | for any two timeouts, a schedule from a new provider, by a clock that does not run backwards, with one status query and no disabling after which the status differs |
| ProviderManager.BaseProvider.Admit | services/aaa-monitor/ai_integration/ai_provider.py:382-396 | the segment before the call: the three checks and the tracking |
| ProviderManager.BaseProvider.EndCall | services/aaa-monitor/ai_integration/ai_provider.py:398-418 | the segment after it: the report, after a possible disabling |
| ProviderManager.BaseProvider.IsRateLimited | services/aaa-monitor/ai_integration/ai_provider.py:167-181 | the popping loop answers and prunes as in the model |
| ProviderManager.BaseProvider.IsCircuitBreakerOpen | services/aaa-monitor/ai_integration/ai_provider.py:183-199 | answers, and resets after the timeout |
| ProviderManager.BaseProvider.UpdateHealthMetrics | services/aaa-monitor/ai_integration/ai_provider.py:201-258 | the field updates, with the status, are the model's report |
| ProviderManager.BaseProvider.TryCall | services/aaa-monitor/ai_integration/ai_provider.py:382-426 | one turn of the loop: skip, answer or record a failure |
| ProviderManager.Manager.TryProvider | services/aaa-monitor/ai_integration/ai_provider.py:376-426 | the same through the table of providers; the others and a missing name are left alone |
| ProviderManager.Manager.Analyze | services/aaa-monitor/ai_integration/ai_provider.py:357-431 | a cached response changes nothing; otherwise response and all provider states are those of the model's fallback |
| AnalysisEngine.EventsConserved | services/aaa-monitor/ai_integration/analysis_engine.py:250-269 | per analysis type the submitted events are those of the batch jobs in order, followed by the waiting ones |
| AnalysisEngine.RunClockSound | services/aaa-monitor/ai_integration/analysis_engine.py:250-254 | the batch timestamp is never later than the arrival of a waiting event, except for the events of the submission that created it |
| AnalysisEngine.ClockIsHistory | services/aaa-monitor/ai_integration/analysis_engine.py:250-254 | the batch timestamp is the time of the last job of its type or, before the first one, of its first submission |
| AnalysisEngine.SubmissionMakesJob | services/aaa-monitor/ai_integration/analysis_engine.py:250-269 | after any run a submission makes a job of all waiting events of its type exactly when there are any and it is forced, or they reach the batch size, or that timestamp is as old as the maximal age; otherwise they all wait |
| AnalysisEngine.NoJobMeansYoung | services/aaa-monitor/ai_integration/analysis_engine.py:250-269 | a submission that makes no job leaves its buffer empty, or unforced, below the batch size and with every event younger than the maximal age, plus timestamp minus arrival for the events of the submission that created the timestamp |
| AnalysisEngine.YoungExactly | services/aaa-monitor/ai_integration/analysis_engine.py:250-269 | then all waiting events are younger than the maximal age if and only if those of that submission are |
| AnalysisEngine.OpeningWaitsLonger | services/aaa-monitor/ai_integration/analysis_engine.py:250-263 | for every gap between storing and reading the clock, a submission that makes no job and leaves an event of at least the maximal age |
| AnalysisEngine.TickMakesJob | services/aaa-monitor/ai_integration/analysis_engine.py:390-411 | after any run a tick makes a job of all waiting events of a type exactly when there are any and they reach the batch size or the fraction of it, or that timestamp is as old as the maximal age; otherwise they all wait |
| AnalysisEngine.TickMeansYoung | services/aaa-monitor/ai_integration/analysis_engine.py:390-411 | after a timely run and a tick the buffer is empty, or below the batch size and below the fraction, with every event younger than the maximal age, plus timestamp minus arrival for the events of the submission that created the timestamp |
| AnalysisEngine.TickHasClock | services/aaa-monitor/ai_integration/analysis_engine.py:390-397 | the batch timer never looks up a missing timestamp |
| AnalysisEngine.RunSplits | services/aaa-monitor/ai_integration/analysis_engine.py:446-537 | with fresh identifiers every job issued is active or completed, never both |
| AnalysisEngine.RunOrigins | services/aaa-monitor/ai_integration/analysis_engine.py:206-217 | in every run each active or finished job in batch mode was made by the batching, and each other one was submitted with its events and type |
| AnalysisEngine.RunResults | services/aaa-monitor/ai_integration/analysis_engine.py:497-537 | in every run a job has a result exactly when it has finished, and it is the outcome and the time of its last finish |
| AnalysisEngine.RunCounts | services/aaa-monitor/ai_integration/analysis_engine.py:887-910 | in every run the counters in all, by mode and by outcome are those of the finished jobs, the running average is their exact mean, and the history holds the last thousand successes |
| AnalysisEngine.RunTallies | services/aaa-monitor/ai_integration/analysis_engine.py:899-903 | so are the counters by analysis type and by responding provider |
| AnalysisEngine.RunCompletes | services/aaa-monitor/ai_integration/analysis_engine.py:497-537 | with fresh identifiers as many jobs are counted as are completed |
| AnalysisEngine.Engine.AnalyzeBatch | services/aaa-monitor/ai_integration/analysis_engine.py:234-269 | buffer, timestamp and job tables move as in the model; a job is returned exactly when one was made |
| AnalysisEngine.Engine.MakeBatch | services/aaa-monitor/ai_integration/analysis_engine.py:416-458 | the whole buffer becomes one job and the timestamp restarts |
| AnalysisEngine.Engine.BatchProcessorTurn | services/aaa-monitor/ai_integration/analysis_engine.py:390-411 | one turn of the timer is the sequence of its looks at the analysis types |
| AnalysisEngine.Engine.FinishJob | services/aaa-monitor/ai_integration/analysis_engine.py:497-537 | the job moves from active to completed; history and statistics follow |
| AnalysisEngine.Engine.UpdateStats | services/aaa-monitor/ai_integration/analysis_engine.py:887-910 | the branches and the loop over the responses move all statistics as in the model |
| Consensus.ConfidenceBounds | services/aaa-monitor/ai_integration/analysis_engine.py:757-775 | for scores in the unit interval the result lies between their mean and the smaller of one and the mean plus a fifth |
| Consensus.UnanimousConfidence | services/aaa-monitor/ai_integration/analysis_engine.py:765-775 | two or more equal scores get the whole bonus |
| Consensus.ConfidenceExactly | services/aaa-monitor/ai_integration/analysis_engine.py:757-775 | for two or more responses: the mean plus a fifth less twice the variance, where positive, and at most one; the variance is the mean of the squares less the square of the mean |
| Consensus.FewScores | services/aaa-monitor/ai_integration/analysis_engine.py:757-775 | the exact value for no response, one and two: with two the bonus is a fifth less half the squared distance of the scores |
| Consensus.MissingIsHalf | services/aaa-monitor/ai_integration/analysis_engine.py:757-763 | a response without a score, or with a score of zero, can be replaced by one with a score of one half |
| Consensus.ConfidencePermuted | services/aaa-monitor/ai_integration/analysis_engine.py:757-775 | the order of the responses does not matter |
| SshWire.UnpackIffPacked | icebox/services/ssh-ca/async_ssh_processor.py:547-550 | a big-endian number is read back exactly when it was packed (uint32 and uint64 of RFC 4251, section 5) |
| SshWire.StringIffPacked | icebox/services/ssh-ca/async_ssh_processor.py:541-544 | a length-prefixed string is read back exactly when it was packed (string of RFC 4251, section 5) |
| SshWire.NumberBytes | icebox/services/ssh-ca/async_ssh_processor.py:547-550 | the most significant byte comes first |
| SshWire.StringBytes | icebox/services/ssh-ca/async_ssh_processor.py:541-544 | a string is four bytes of length and its bytes, and cannot be packed from 4 GiB on |
| SshCertificate.StringsIffPacked | icebox/services/ssh-ca/async_ssh_processor.py:556-561 | a run of principals is decoded exactly from its packing |
| SshCertificate.EntriesIffPacked | icebox/services/ssh-ca/async_ssh_processor.py:567-583 | an ordered list of options or extensions is decoded exactly from its packing |
| SshCertificate.EntryOrder | icebox/services/ssh-ca/async_ssh_processor.py:567-583 | entries keep their order, each key before its value |
| SshCertificate.FieldsIffPacked | icebox/services/ssh-ca/async_ssh_processor.py:537-592 | a record of the fixed layout is decoded exactly from its packing |
| SshCertificate.CertificateLayout | icebox/services/ssh-ca/async_ssh_processor.py:537-592 | the twelve fields in their order and widths, with the zero of the reserved field |
| SshCertificate.DecodeIffBuilt | icebox/services/ssh-ca/async_ssh_processor.py:503-592 | the decoder returns a certificate and a rest exactly for the built certificate followed by that rest |
| SshCertificate.BuildInjective | icebox/services/ssh-ca/async_ssh_processor.py:503-592 | different certificates have different encodings, none a prefix of another |
| SshCertificate.BuildsIffFits | icebox/services/ssh-ca/async_ssh_processor.py:537-592 | building raises exactly when some length exceeds 32 bits or some integer its width |
| SshCertificate.AppendStrings | icebox/services/ssh-ca/async_ssh_processor.py:557-560 | the principals loop computes the packed run, or raises |
| SshCertificate.AppendEntries | icebox/services/ssh-ca/async_ssh_processor.py:568-573 | the options loop computes the packed entries, or raises |
| SshCertificate.BuildSshCertificate | icebox/services/ssh-ca/async_ssh_processor.py:503-592 | the builder succeeds exactly on fitting input, and its output decodes to the input whatever follows it |
| RevocationList.RunUpToDate | services/pki-server/async_certificate_processor.py:557-592 | over every interleaving: unless some revocation is still announced or may have been lost by a step that raised, the worker lives, and what it holds or has published is the whole dictionary (with or without the cache clear) |
| RevocationList.QuietListExact | icebox/services/ssh-ca/async_ssh_processor.py:634-731 | at rest with nothing lost the published list is absent or holds exactly the last entry of every revoked serial |
| RevocationList.NothingLost | icebox/services/ssh-ca/async_ssh_processor.py:661-708 | as long as no cache call raises and the thread pool does not fail, nothing is lost, and only a generation that finds the dictionary changed in size can have ended the worker |
| RevocationList.LostIsHistory | icebox/services/ssh-ca/async_ssh_processor.py:661-708 | whether something may have been lost is whether a step raised since the last generation began |
| RevocationList.LossLeavesStaleList | icebox/services/ssh-ca/async_ssh_processor.py:661-671 | one raising cache call leaves the system at rest with a list that lacks a revocation |
| RevocationList.CachedListExactly | icebox/services/ssh-ca/async_ssh_processor.py:696-731 | at any moment a cached list is the dictionary if no revocation was recorded since its generation began, and only then if that generation was not disturbed and revocations have entries of their own |
| RevocationProgress.WakeUpRepairs | icebox/services/ssh-ca/async_ssh_processor.py:690-692 | after the next periodic generation of a worker that lives the list is exact again, on every schedule that is left alone |
| RevocationList.CertificatesAreIssued | icebox/services/ssh-ca/async_ssh_processor.py:398-403 | the known certificates are those issued so far |
| RevocationList.RevokedIsHistory | icebox/services/ssh-ca/async_ssh_processor.py:640-653 | the dictionary holds for each serial the entry of its last revocation under a certificate issued before |
| RevocationList.UpsertOrder | icebox/services/ssh-ca/async_ssh_processor.py:640-653 | recording keeps the order of the serials and puts a new one at the end |
| RevocationList.RunGrounded | services/pki-server/async_certificate_processor.py:680-720 | at any moment every published serial has been revoked |
| RevocationProgress.AlwaysAStep | icebox/services/ssh-ca/async_ssh_processor.py:677-708 | as long as the worker lives, some internal step other than a failure is possible unless the system is at rest, even with a full token queue |
| RevocationProgress.ExhaustedExactly | icebox/services/ssh-ca/async_ssh_processor.py:677-708 | nothing more is possible if and only if the system is at rest, or the worker has ended and what still waits finds the queue full |
| RevocationProgress.StepsComeToRest | icebox/services/ssh-ca/async_ssh_processor.py:677-708 | every internal step lowers a weight that is zero exactly when nothing is announced and the worker is idle or has ended |
| RevocationProgress.NewSerialEndsWorker | services/pki-server/async_certificate_processor.py:672-676 | a run with one new serial during a periodic generation, after which the revocation is announced but no list is ever written, whatever happens later |
| RevocationProgress.StoppedForEver | icebox/services/ssh-ca/async_ssh_processor.py:690-697 | a worker that has ended stays so: no token is taken and no list is written by anybody |
| RevocationProgress.AnnouncedIsSafe | icebox/services/ssh-ca/async_ssh_processor.py:682-694 | over every schedule without a wake-up and without a timeout the worker lives for ever, whatever raises |
| RevocationProgress.SecondFailureEnds | icebox/services/ssh-ca/async_ssh_processor.py:690-694 | a failed generation and, as soon as possible, a second one: the worker has ended, for every continuation, exactly when the first was periodic or failed with a timeout |
| RevocationProgress.CacheKept | services/pki-server/async_certificate_processor.py:577-592 | over every schedule without a new list the cache keeps what it had or is absent; that of the X.509 service only loses it by expiry |
| RevocationProgress.ClearCacheExactly | icebox/services/ssh-ca/async_ssh_processor.py:666-668 | after the clear of a revocation the SSH service has no list in any continuation without a new one; the X.509 service has the same list as before unless it expires |
| RevocationProgress.ForgetExactly | icebox/services/ssh-ca/async_ssh_processor.py:696-705 | after an expiry neither service has a list in any continuation without a new one |
| RevocationProgress.ServesWithoutExactly | icebox/services/ssh-ca/async_ssh_processor.py:696-731 | in any reachable state a list that lacks a revoked serial can be served now or later if and only if the cached list, the list being written or the dictionary at the start of the running generation lacks it |
| RevocationProgress.ServesAfterClear | icebox/services/ssh-ca/async_ssh_processor.py:661-671 | after the clear of a revocation: for SSH if and only if the list being written or the start of the running generation lacks the serial, for X.509 also if the cached list does |
| RevocationProgress.SettlesExactly | icebox/services/ssh-ca/async_ssh_processor.py:677-708 | from any reachable state that is not at rest every schedule left alone is bounded, and all of them end at rest with exactly the revoked entries published if and only if the worker lives, is not in a periodic generation bound to fail, and holds the dictionary or is due to take it |
| RevocationProgress.EveryScheduleSettles | icebox/services/ssh-ca/async_ssh_processor.py:677-708 | with nothing lost, if and only if the worker lives and is not in a periodic generation bound to fail |
| RevocationProcessor.Processor.Revoke | services/pki-server/async_certificate_processor.py:557-576 | an unknown certificate changes nothing; a known one is recorded |
| RevocationProcessor.Processor.FinishGeneration | icebox/services/ssh-ca/async_ssh_processor.py:710-731 | the loop lists exactly the items the thread gets to see, which are the dictionary unless something was revoked meanwhile |
| RevocationProcessor.Processor.Raise | icebox/services/ssh-ca/async_ssh_processor.py:682-694 | an exception ends the worker in a periodic generation; otherwise it is logged, or taken for the end of the wait if it is a timeout |
| RevocationProcessor.Processor.FailGeneration | icebox/services/ssh-ca/async_ssh_processor.py:710-731 | a generation that finds the dictionary changed in size ends without a list, and with it the worker if it is periodic |
| RevocationProcessor.Processor.RevokeAndPublish | services/pki-server/async_certificate_processor.py:557-720 | from rest, one revocation and one turn of the worker publish the updated dictionary |
| Accounts.RunThrottled | services/manager/auth.py:516-551 | from zero failures and without a session, wrong-password checks from the threshold on are a lockout apart, and the lock is in force |
| Accounts.FailuresBounded | services/manager/auth.py:538-552 | hence at most the threshold plus elapsed time over lockout many by any time |
| Accounts.CodesConserved | services/manager/auth.py:572-587 | for each hash, acceptances plus remaining copies is constant over a run of logins |
| Accounts.CodeWorksUntilConsumed | services/manager/auth.py:509-616 | after any run an attempt that has to rely on a code, typed with or without dashes in either case, passes the second factor if and only if the code has been accepted fewer times than it was issued |
| Accounts.LoginExactly | services/manager/auth.py:509-616 | after any run, for each answer exactly when it is given: a session is asked for if and only if no lock is in force, the account is active, the password right and, with a second factor, the token not empty and a valid one-time password or a code accepted fewer times than it was issued; every refusal names the first of these that is missing |
| Accounts.RunCounters | services/manager/auth.py:538-611 | in every run, sessions included, the failure counter is the number of wrong passwords since the last session, and from the threshold on the lock runs from the last of them |
| Accounts.LockedExactly | services/manager/auth.py:516-536 | hence an attempt, right password or not, is refused as locked exactly within a lockout of the last of enough failures since the last session |
| Accounts.RunKeepsRest | services/manager/auth.py:509-616 | no login changes whether the account is active, or its second-factor settings |
| Accounts.CleanCanonical | services/manager/auth.py:169-185 | a cleaned code is upper case without dashes, and such a code is left alone |
| Accounts.User.Login | services/manager/auth.py:509-616 | the result and the new row are those of the model, the session reset included |
| Accounts.HashBackupCodes | services/manager/auth.py:169-185 | the loop hashes every cleaned code in order |

## Left out

- Elasticsearch, MongoDB, databases, HTTP, logging, configuration loading, web routes and user interfaces: input and output.
- Stopping and starting of workers, task cancellation and semaphores: no step of the models is cancelled.
- Buffer statistics that nothing reads back: compression ratio, processing times, last flush time.
- BufferSteps.StepsAccounted: the flushed-batches counter is raised at the pop, because the only thing between the pop and the source's increment is the call of the processors.
- BufferModel.FlushBufferAt: buffer keys are triples, not rendered strings; two triples that render alike are taken as different keys, which only matters if a source or type name contains a colon.
- Registered batch processors and recovery of persisted events at start-up: the model records what processors are sent, and recovery is a sequence of adds.
- LogProcessor.Processor.ProcessEvent: the bounded processing queues are unbounded lists, so waiting for room in a full queue is not modelled.
- RedisLimiter.Client.RateLimit: increment and expire are one step, although the pipeline is no transaction and other clients' commands or an expiry can fall between them; failed pipelines and the rounding of sub-second windows are not modelled; a key is gone from the instant its deadline is reached.
- ProviderManager.Manager.Analyze: the response cache is a parameter (hit or miss), because its contents are stored outside; of several analyses at once ProviderSteps has the calls and their ends, not which request they belong to.
- ProviderSteps.RunWithinLimits: covers the requests made through the manager; the consensus path of the analysis engine (services/aaa-monitor/ai_integration/analysis_engine.py:631-655) asks healthy providers directly, without consulting or feeding the limiter and without a report.
- Threat levels, recommendations and indicators: text search.
- AnalysisEngine.RunSplits: the priority queues of jobs are not modelled, any active job may finish next; UUIDs are taken to be fresh.
- SshCertificate.BuildSshCertificate: text is taken as its UTF-8 bytes, the nonce is a parameter, and which of several unpackable parts is noticed first is not modelled, because either way the build raises.
- Signing, key generation, fingerprints, serial numbers and the parsing of public keys.
- RevocationList.RunUpToDate: a disturbed generation may combine older and newer entries in any way; any number of revocations may be suspended, although each service has one revocation worker. Cache expiry may happen at any time.
- Certificate status, OCSP responses and maintenance, which overwrite each other's status.
- Accounts.User.Login: unknown user names, audit records and the session contents are not modelled; the password, one-time-password and session-store answers are parameters.
- Accounts.CodeWorksUntilConsumed: only ASCII letters change case.
