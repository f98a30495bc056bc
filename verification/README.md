# The bridge queue, verified

A Dafny model of a Telegram/Discord bridge that forwards messages through a persistent queue in SQLite.
The model covers what decides whether a message is delivered, when, how often, and what is remembered about it:

- **The queue as a concurrent machine.** `Tables` holds the tables as maps and, for every transaction, the state it leaves behind. `QueueStore.Store` runs the same transactions statement by statement, with rollback, and is proved to refine them. `Machine` interleaves producers, any number of workers (stale ones included), operators who replay dead letters, the digest scheduler, retention, and crashes between any two transactions. `Safety`, `Payload`, `Horizon`, `Fleet`, `Leases`, `Starvation` and `Drain` prove what all its runs keep; `Scenarios` and `Handovers` reach the exceptions from an empty database.
- **The worker.** `Processor.Worker` is the branch structure from claim to ack, retry, dead letter, digest or rate limit; `ProcessorLoop` is the loop around it. Both are proved to be runs of the machine, so what is proved of all runs holds of the loop.
- **Digests and retention.** `Digest` accounts for every buffered row while sending and deleting are separate steps, `DigestSettings` and `DigestRetention` say for which settings, and `DigestPass` is one pass of the scheduler with its query and its limiter; `Retention` shows that batched clean-ups equal one filtered delete.
- **Limits and time.** `RateLimit` and `SpamBurst` bound what any interval can let through; `QuietHours` and `Backoff` are the clock arithmetic, on whole minutes and on int64 nanoseconds.
- **Transformations.** `Captions` with `CaptionCounts` and `CaptionExactness`, `BlockedWords`, `Pairings` with `PairingTransfer`, `EventIds` and `Stats` cover templates, the keyword migration, JSON export and import, event ids and the statistics that read them back.

`Text`, `Clock`, `Models` and `Sums` are shared vocabulary. Instants and durations are nanoseconds; the database stores whole Unix seconds; a clock reading is an argument of each operation and never decreases along a run. `dafny verify dfyconfig.toml` checks everything.

## What the proofs found

- The limiter's comment says "sliding-window counters" (internal/security/ratelimit.go:26), but it counts in fixed windows: an interval of the window's length can see 2 * max - 1 allowed calls, never more. It slides exactly when max is 1.
- Retry delays are the intended doubling exactly while base * 2^(retries - 1) stays below 2^63 ns, which for two seconds means at most 33 retries. The first delay beyond that is negative, so the event is due at once.
- A lease keeps other workers away unless the event is rescheduled, replayed, or moved to the dead letters: after such a move a producer can enqueue it again and another worker can claim it inside the first lease.
- Two claims of one event are more than the lease less a second apart, and can be closer than the lease itself, because leases end on whole seconds.
- The send deadline (lease minus two seconds) ends by the instant the row can be claimed again exactly when sending starts within two seconds of the whole second of the claim. Two seconds after the claim itself can be too late.
- No event is sent twice within seven days as long as the one worker acks what it sends, or as long as each of several workers acts, and acks, within its lease and nobody replays an event that is held. A crash between send and ack repeats the send.
- Producers read the clock for the availability before they hash the media (internal/discord/producer.go:95-117), so an arrival can be backdated. It goes ahead of a waiting event exactly when its own row is not after that event's in claim order, and each such arrival can cost the event one more claim of others. As long as retry delays do not overflow, nothing else that others do can.
- An enqueue that reports "not inserted" still changes the database when the id is pending and its fingerprint has expired: the fingerprint is renewed.
- Quiet hours with equal ends are quiet all day: evaluating again always delays again.
- Placeholders are replaced one after the other, which can replace inserted text again. For values without an opening brace this is one simultaneous substitution exactly when the template nowhere puts an opening brace and a beginning of one name, perhaps empty, directly before a placeholder that is replaced earlier: `{{caption}}` goes wrong, `{{time}}` cannot. A value goes well with all other templates exactly when it neither contains a later placeholder nor ends in a beginning of one. Where these conditions hold the order of the replacements does not matter.
- As long as file ids have no colon, two Telegram deliveries share an event id exactly when they agree in all but the target's platform, which the id leaves out: of two pairings of one chat whose targets have the same id on different platforms, the second enqueue is skipped as a duplicate. A colon in a file id would let another file and target of the same message share the id; nothing in the code rules one out.
- A digest delay can overflow int64 to less than a second: 3749353613647811 minutes delay by 2048 ns. Rows buffered with such a setting can be deleted without having been reported, even by the one worker the program starts; with every other setting the accounts balance as long as retention takes no digest row, no pairing is removed, and the scheduler does not stop between a send and its delete.
- Retention, which runs at the start and daily (cmd/main.go:49-57), deletes digest rows a week after they were buffered, reported or not. It can take a row before the row is due exactly when the setting delays by more than a week and a second: 10080 minutes are safe, and with 20160 every row can be lost however often the scheduler looks.
- Replaying a dead letter whose id has been enqueued again keeps the newer content and drops that of the letter.
- A call or message that is denied never prolongs the denial: both limits look at allowed ones only.
- Removing a pairing leaves its blocked words behind.
- The spam rule keeps its promise exactly for windows whose nanoseconds fit in an int64. A larger one is shortened by the overflow, and one that turns negative switches the rule off.

## Model

| member | source | states |
|---|---|---|
| QueueStore.Store.EnqueuePendingEvent | internal/database/db.go:385-481 | the insert, the fingerprint purge and the rollbacks together leave exactly the state and outcome of one atomic enqueue; an accepted event is stored whole, with only id and route trimmed, due when it asks to be |
| QueueStore.Store.RecordMediaDedupe | internal/database/db.go:483-523 | a live fingerprint refuses the event; otherwise expired ones are gone and this one is stored |
| QueueStore.Store.ClaimNextPendingEvent | internal/database/db.go:539-610 | nothing is due, or some row first by availability and then age is leased and handed out with its payload |
| QueueStore.Store.AckPendingEvent | internal/database/db.go:612-642 | the event leaves the pending table and is marked processed, whether or not it was pending |
| QueueStore.Store.ReschedulePendingEvent | internal/database/db.go:644-658 | an event no longer pending is not brought back |
| QueueStore.Store.MovePendingEventToDeadLetter | internal/database/db.go:660-746 | a pending event becomes a dead letter with a fresh id; anything else changes nothing |
| QueueStore.Store.ReplayDeadLetter | internal/database/db.go:804-901 | replays exactly a letter that exists and matches the pinned target; a processed event is not queued again |
| QueueStore.Store.AddDigestEvent | internal/database/digest.go:37-73 | reports the missing field, else buffers the event once per id |
| QueueStore.Store.DeleteDigestEventsForGroup | internal/database/digest.go:187-194 | deletes the group's rows due at the cutoff and no other |
| QueueStore.FirstDueExists | internal/database/db.go:561-568 | every nonempty set of rows has a first one in claim order |
| Tables.AcceptedRow | internal/database/db.go:385-459 | every field of an accepted event is in its row, the record is clean, and no other row changes |
| Tables.EnqueueAcceptsIff | internal/database/db.go:385-523 | accepted if and only if id and route are not blank, the id is neither processed nor pending, and no fingerprint of its route and hash is as recent as the window |
| Tables.IgnoredButRemembered | internal/database/db.go:412-523 | an enqueue that inserts nothing changes the database if and only if the id is pending and its fingerprint is not live |
| Tables.ClaimReturnsPayload | internal/database/db.go:586-609 | what a worker receives is the stored payload under the row's own id |
| Tables.ReplayExactly | internal/database/db.go:804-901 | a letter that exists and fits the named target goes, and its event is due at once unless processed; an event queued meanwhile keeps its own content |
| Tables.BufferedRow | internal/database/digest.go:37-73 | a digest row holds route, caption, file name and media type trimmed, when it came and when it is due, once per id |
| Payload.PendingPayload | internal/database/db.go:539-901 | no step of anyone changes the payload of a pending event; one that is pending again has that of its letter |
| Payload.LetterPayload | internal/database/db.go:660-746 | a dead letter has the payload of the pending event it came from and keeps it |
| Payload.ClaimedWasSubmitted | internal/database/db.go:385-901 | in every run from an empty database what a worker claims is, field by field, an event accepted under that id |
| Payload.ClaimedIsTheAccepted | internal/database/db.go:385-901 | an event accepted while no letter has its id is claimed with just its content, as long as no other is accepted under the id |
| Payload.HeldWasSubmitted | internal/queue/processor.go:79-190 | so what any worker is about to send, stale or not, was submitted under its id |
| Safety.StepKeepsInv | internal/database/db.go:385-901 | every step of anyone keeps rows well formed, retry counts in range and pending disjoint from processed |
| Safety.NeverPendingAndProcessed | internal/database/db.go:385-901 | in every reachable state no event is both pending and processed, and 0 <= retry count <= limit |
| Safety.ProcessedStaysProcessed | internal/database/db.go:385-746 | a processed event cannot be claimed, and no late step of a stale worker, producer or operator makes it pending again; only retention of a mark older than seven days drops it |
| Safety.ProcessedMarkStays | internal/database/db.go:612-642 | a processed mark keeps its time or is renewed to now |
| Safety.UntouchedRowStays | internal/database/db.go:385-901 | a pending row changes only by its own claim, its replay, or a worker that holds it |
| Safety.MoveThenReplay | internal/database/db.go:660-901 | replaying a letter undoes the move: the event is due at once with a clean record, all else as before |
| Safety.StepLosesNothing | internal/database/db.go:385-901 | a known event stays in some table unless the step is retention of an old enough trace |
| Safety.NoLoss | internal/database/retention.go:10-32 | along every run a known event is known at every point up to the step, if any, in which retention removes a processed mark past 7 days or a letter past 14, and is unknown right after that step |
| Safety.AcceptedIsKnown | internal/database/db.go:431-481 | an accepted event is known afterwards |
| Safety.PendingMovesOn | internal/database/retention.go:10-32 | a pending event leaves only into the processed or dead-letter table, never by retention |
| Horizon.AtMostOneSendInSevenDays | internal/queue/processor.go:177-182 | in every run of one worker that acks its sends, two sends of one event are more than seven days apart, whatever is enqueued, replayed or expired meanwhile |
| Fleet.FleetSendsOnceInSevenDays | internal/queue/processor.go:173-182 | with any number of workers that act and ack within their leases, and no replay of a held event, two sends of one event are more than seven days apart |
| Fleet.StepKeepsExclusive | internal/database/db.go:561-582 | no two workers within their leases hold the same event, and its row stays leased to the one that does |
| Horizon.CrashAfterSendRepeats | internal/queue/processor.go:177-182 | the counterexample without the ack: crash, lease end, claim and send deliver the event again |
| Scenarios.SendCanRepeat | internal/queue/processor.go:177-182 | for every configuration a run from the empty database that crashes before the ack sends one event twice |
| Handovers.HeldReplayRepeats | internal/database/db.go:804-901 | replaying the letter of an event that a worker holds lets a second worker claim it, and both send it while no time passes |
| Handovers.BuriedAndHeldAgain | internal/database/db.go:660-746 | for every configuration such a state is reached from the empty database |
| Horizon.SameMediaIsSpaced | internal/database/db.go:483-523 | in every run two accepted events with one route and fingerprint are more than the window apart |
| Horizon.AcceptedHashIsNew | internal/database/db.go:483-523 | an accepted fingerprint is stored with the current second and was not live |
| Leases.ClaimsAreALeaseApart | internal/database/db.go:561-582 | without reschedule, dead letter or replay in between, a second claim comes in or after the second the first lease ends in, more than the lease less a second later; a lease over a week holds for a week |
| Scenarios.LeaseBoundIsTight | internal/database/db.go:561-582 | left alone, the event can be claimed by another worker at the start of the second a whole-second lease ends in, before the deadline of every send begun more than two seconds after the second of the claim |
| Leases.WholeSecondLease | internal/database/db.go:578 | a lease of whole seconds lasts that many stored seconds |
| Leases.DeadLetterReopensTheLease | internal/database/db.go:660-746 | a last failure followed by an enqueue makes the event claimable in the same instant |
| Scenarios.LeaseCanBeReopened | internal/database/db.go:660-746 | for every configuration a run from the empty database makes an event claimable again in the instant it was claimed |
| Leases.DeadlineBeforeReclaimIff | internal/queue/processor.go:173-177 | the send deadline passes no later than the end of the lease if and only if sending starts within two seconds of the claim's whole second |
| Leases.DeadlinePassesBeforeReclaim | internal/queue/processor.go:173-177 | in every run that leaves the event alone, a send begun within two seconds of the claim's whole second has passed its deadline at any second claim |
| Leases.TwoSecondsCanOverrun | internal/queue/processor.go:173-177 | two seconds after the claim itself can be too late, for every lease |
| Starvation.DueMeansClaimable | internal/database/db.go:561-576 | when some row is due, a claim succeeds |
| Starvation.ArrivalEnlargesAheadIff | internal/database/db.go:406-481 | an accepted arrival can be claimed before a pending event if and only if its row is not after the event's |
| Scenarios.ArrivalCanOvertake | internal/discord/producer.go:95-117 | for every configuration and wait, a backdated arrival that overtakes a pending event |
| Starvation.OnlyBackdatedOvertake | internal/database/db.go:406-410 | an arrival that asks for a later time, or for none, never overtakes an overdue event |
| Starvation.StepShrinksAhead | internal/database/db.go:539-610 | of the steps of others only an overtaking arrival puts a row ahead of an overdue event, and every claim of another row takes one away |
| Starvation.NoStarvation | internal/database/db.go:539-610 | an overdue event is passed over fewer times than there were rows not after it plus arrivals that overtook it |
| Leases.DeferredUntilQuietHoursEnd | internal/database/db.go:406-410 | an event accepted in quiet hours, while no worker holds its id, is first claimed no earlier than their end, by any number of workers |
| Leases.OneWorkerHoldsOthers | internal/queue/processor.go:55-77 | a single worker holds the id of no event that can be accepted |
| Handovers.StaleWorkerBringsForward | internal/queue/processor.go:151-163 | for every configuration a run in which a worker from the event's earlier life, still holding its id, makes the deferred event claimable five seconds after it was accepted |
| Drain.FailuresAreBounded | internal/queue/processor.go:232-273 | in every run of one worker at most limit + 1 failures lie between an event's insertion or replay and its dead letter, counted by its retry count |
| Drain.QueueDrains | internal/queue/processor.go:151-163 | without arrivals the completed processing steps never exceed the budget of the pending rows, and reaching it empties the queue |
| Drain.StepDrains | internal/queue/processor.go:79-190 | every completed processing step lowers the budget; rate limiting and claims leave it |
| Digest.IntervalOfSetting | internal/queue/processor.go:137-141 | a positive minute setting that fits an int64 delays by exactly that, any other that fits by a day; the delay is at least a second if and only if the int64 product is a second or more or not positive |
| Digest.OverflowingSetting | internal/queue/processor.go:137-141 | a setting that delays by 2048 ns |
| Digest.DigestAccounting | internal/queue/digest.go:33-109 | over all interleavings, with settings that delay by at least a second, rows ever buffered equal rows reported plus rows waiting |
| DigestSettings.BalancesIffSafe | internal/queue/processor.go:136-149 | a setting keeps the accounts balanced in all orderly runs, by any number of workers or by one, if and only if it delays by at least a second |
| DigestSettings.LateRowIsLost | internal/queue/digest.go:62-106 | with any other setting one worker buffers a row between report and delete that is deleted unreported |
| DigestRetention.TakesOnlyDueIff | internal/database/retention.go:20-21 | in all runs, by any number of workers or by one, retention takes only rows already due if and only if the setting delays by at most a week and a second |
| DigestRetention.RetentionTakesOnlyDue | internal/database/retention.go:20-21 | the same for runs that mix settings within the limit |
| DigestRetention.ExpiresBeforeDueIff | cmd/main.go:49-57 | some retention pass takes a row before any scheduler pass finds it due if and only if it is due more than a week and a second after its second |
| DigestRetention.RowIsTakenEarly | internal/database/retention.go:20-21 | a run with one row that retention may delete while no route has a row due |
| DigestRetention.LongestSetting | internal/queue/processor.go:137-141 | for settings that fit an int64 the limit is 10080 minutes |
| Digest.DeletesExactlyWhatWasSent | internal/database/digest.go:124-194 | the delete after a send removes the rows that were counted, whatever was buffered in between |
| Digest.NewRowIsDueIff | internal/queue/processor.go:136-149 | a newly buffered row is due at a cutoff if and only if its delay ends by then; the other rows are due as before |
| Digest.CrashBeforeDeleteReportsTwice | internal/queue/digest.go:100-106 | after a stop between send and delete the next pass finds the same rows due and the balance is broken |
| DigestPass.ListDigestGroupsDue | internal/database/digest.go:76-122 | up to the limit, each due group once, the one with the earliest due row first |
| DigestPass.GroupsDueIff | internal/database/digest.go:76-122 | a group is due if and only if some row of its route is |
| DigestPass.BeforeIff | internal/database/digest.go:76-122 | a group comes first if and only if each due row of the other has one of its own due no later |
| DigestPass.ProcessDigests | internal/queue/digest.go:33-109 | the rows reported are exactly the due rows of the listed groups that are paired, within the limit after the groups before them, and sent; those dropped exactly the rows of unpaired groups; all others stay |
| DigestPass.ProcessGroup | internal/queue/digest.go:45-107 | sent, reported and deleted if and only if paired, due, within the limit, with a consumer and delivered; dropped if and only if unpaired; the limiter is charged if and only if paired and due |
| DigestPass.GroupIsARun | internal/queue/digest.go:45-107 | each fate of a group is a run of the machine with the same rows gone and the same rows reported |
| Retention.CleanupTable | internal/database/retention.go:35-57 | the batched loop ends and deletes exactly the rows older than the cutoff, in ceil(n / 500) batches |
| Retention.RunRetentionCleanup | internal/database/retention.go:14-26 | the clean-ups of the four modelled tables equal one filter each, at their own clock readings, and leave the pending table alone |
| Retention.RetainedExactly | internal/database/retention.go:14-26 | exactly the rows up to seven days old stay, fourteen for letters and the duplicate window for fingerprints |
| Retention.CleanupIsARun | internal/database/retention.go:10-32 | a clean-up is a run of the machine's retention steps |
| Processor.Worker.ProcessQueuedEvent | internal/queue/processor.go:79-190 | a caption goes out if and only if the target is not blank, the words were read, filters pass or are only simulated, digest is off, the limit allows, a consumer exists and the send succeeds; the limiter is charged exactly when asked |
| Processor.VerdictIff | internal/queue/processor.go:79-190 | for each disposal, filtered, digested, limited, undelivered, delivered or failed with its reason, the exact condition in branch order |
| Processor.SentText | internal/queue/processor.go:206-230 | the text sent is the quote of the answered message and the caption, or the template with caption, sender, source chat and time each under its own placeholder |
| Processor.Worker.QueueForDigest | internal/queue/processor.go:136-149 | buffered and acked, or treated as a delivery failure with the missing field |
| Processor.Worker.Deliver | internal/queue/processor.go:151-182 | rate limit, missing consumer and failed send come before the ack, each with its own effect |
| Processor.Worker.HandleDeliveryFailure | internal/queue/processor.go:232-273 | the int64 delay and the dead-letter branch have the effect of one atomic failure step |
| Processor.EveryVerdictDisposes | internal/queue/processor.go:79-273 | each verdict leaves the event in exactly one place: acked, due in five seconds, due after the intended backoff, or a dead letter with its payload, failures with their reason; only a digested one adds a digest row |
| Processor.ProcessingIsARun | internal/queue/processor.go:79-190 | processing one event is a run of the machine with the same database and the same sends |
| ProcessorLoop.Round | internal/queue/processor.go:57-75 | one poll claims a first event in line and processes it, or leaves everything as it is |
| ProcessorLoop.TakeTurn | internal/queue/processor.go:57-75 | a turn of the loop, or an arrival, is a run of the machine with the same database and deliveries |
| ProcessorLoop.StartProcessor | internal/queue/processor.go:55-77 | any stretch of the loop is a run of one careful worker, so it delivers no event twice within seven days and keeps the tables sound |
| Backoff.DelayInRange | internal/queue/processor.go:261-264 | without overflow the delay is min(base * 2^(n-1), 300 s), positive and never shorter than an earlier one |
| Backoff.DelaysCorrectIff | internal/queue/processor.go:261-264 | all retries get the intended delay if and only if the largest product is below 2^63 |
| Backoff.DefaultBaseLimit | internal/queue/processor.go:261-264 | for two seconds: if and only if at most 33 retries |
| Backoff.FirstOverflowIsNegative | internal/queue/processor.go:261-264 | the first delay that overflows is negative |
| RateLimit.RateLimiter.CheckLimit | internal/security/ratelimit.go:59-76 | the counter update and verdict of one call, other keys untouched, and nothing touched by a denial |
| RateLimit.DenialIsInvisible | internal/security/ratelimit.go:70-72 | a denied call changes no counter |
| RateLimit.DeniedIff | internal/security/ratelimit.go:59-76 | after any run a call is denied if and only if max calls of its key were allowed in the last window and that opened at most the window ago |
| RateLimit.LastWindowIsTheEnd | internal/security/ratelimit.go:63-68 | the last window is the end of the allowed calls, all within the window of the one that opened it |
| RateLimit.AllowedAgain | internal/security/ratelimit.go:63-68 | a call more than the window after the last allowed one is allowed, however many were denied since |
| RateLimit.RateLimiter.CheckDestinationRateLimit | internal/security/ratelimit.go:52-57 | a maximum of zero or less switches the limit off and counts nothing |
| RateLimit.FixedWindowBound | internal/security/ratelimit.go:59-76 | over all runs and keys, a closed interval of the window's length sees at most 2 * max - 1 allowed calls |
| RateLimit.FixedWindowBoundIsTight | internal/security/ratelimit.go:59-76 | the bound is reached for every max and window |
| RateLimit.SlidingOnlyForOne | internal/security/ratelimit.go:26-76 | a true sliding window if and only if max is 1 |
| SpamBurst.SpamRule.EvaluateSpamRule | internal/rules/engine.go:159-182 | verdict and new burst state of one message, int64 window included |
| SpamBurst.BurstBound | internal/rules/engine.go:159-182 | with a window that fits an int64, over all runs and keys, a closed interval of its length holds at most limit accepted messages |
| SpamBurst.BurstPromiseIff | internal/rules/engine.go:159-182 | for every setting the bound holds over all runs and keys if and only if the window fits an int64 |
| SpamBurst.BurstBoundIsTight | internal/rules/engine.go:159-182 | a burst at one instant reaches the bound and its next message is denied |
| SpamBurst.DenialIsInvisible | internal/rules/engine.go:168-176 | a denied message leaves the state as it was, so denials never prolong the ban |
| SpamBurst.DeniedIff | internal/rules/engine.go:159-182 | after any run a message is denied if and only if the last burst of its key has reached the limit and ended at most the window ago |
| SpamBurst.LastBurstIsLongest | internal/rules/engine.go:168-170 | the last burst is the longest end of the accepted messages without a gap above the window |
| SpamBurst.SwitchedOffIff | internal/rules/engine.go:170 | no message of any run is denied if and only if the window's nanoseconds wrap to a negative int64 |
| SpamBurst.OverflowDisablesTheRule | internal/rules/engine.go:170 | so from 2^63 up to 2^64 nanoseconds the rule is off and its promise broken |
| QuietHours.ReadRule | internal/rules/engine.go:120-129 | off if and only if one of the settings is no time of day, the empty one included |
| QuietHours.ReadRuleIff | internal/rules/engine.go:125-129 | settings mean the hours they spell, H:MM or HH:MM, and nothing else |
| QuietHours.CoversIff | internal/rules/engine.go:136-142 | the comparisons, with and without midnight in between, hold if and only if the minutes since the start, around the clock, are less than the length, or the ends are equal |
| QuietHours.EvaluateLands | internal/rules/engine.go:131-155 | delayed exactly in quiet hours, counted around the clock, to a whole minute at their end, by at most their length |
| QuietHours.LeastAllowedInstant | internal/rules/engine.go:131-155 | with different ends the result is the least instant, not before now, outside quiet hours |
| QuietHours.SettingsDelayToTheEnd | internal/rules/engine.go:120-155 | for settings that spell different hours: delayed if and only if (minute - start) mod 1440 < (end - start) mod 1440, to the least instant from now on where that fails |
| QuietHours.EqualSettingsAlwaysDelay | internal/rules/engine.go:120-155 | settings that spell the same time delay every message to the next time the clock shows it |
| QuietHours.OtherSettingsDelayNothing | internal/rules/engine.go:120-129 | settings of which one spells no time of day return now |
| QuietHours.SettlesIff | internal/rules/engine.go:136-142 | evaluating again never delays further if and only if the ends differ |
| QuietHours.DeferredSecondIsExact | internal/rules/engine.go:149-153 | the stored second is exactly the end of quiet hours |
| Captions.ApplyFormatting | internal/queue/processor.go:206-230 | the caption is the trimmed reply quote followed by the template after its four passes |
| Captions.PassesAreSimultaneous | internal/queue/processor.go:209-216 | with an unambiguous template and values safe for the later placeholders any sequence of passes equals one left-to-right substitution |
| Captions.PassOrderIsIrrelevant | internal/queue/processor.go:209-216 | under these conditions for both orders, the order of the passes does not matter |
| CaptionCounts.AmbiguityCounts | internal/queue/processor.go:209-216 | values without an opening brace, one of them completing the later placeholder, after whose passes fewer opening braces are left than one substitution leaves |
| CaptionExactness.TemplateIff | internal/queue/processor.go:209-216 | for any distinct, brace-free names: the passes are one substitution for all values without an opening brace if and only if the template is not ambiguous |
| CaptionExactness.ValueIff | internal/queue/processor.go:209-216 | a value goes well with every unambiguous template if and only if it contains no later placeholder and ends in no beginning of one |
| CaptionExactness.CaptionTemplateIff | internal/queue/processor.go:209-216 | the template condition for the four placeholders of a caption template |
| CaptionExactness.CaptionValueIff | internal/queue/processor.go:209-216 | the value condition for the caption itself |
| CaptionExactness.CaptionIsSubstituted | internal/queue/processor.go:209-216 | an unambiguous template with safe values is rendered as one substitution of its four placeholders |
| CaptionExactness.OwnValue | internal/queue/processor.go:209-216 | each of the four placeholders alone becomes its own value and the text around it is kept |
| CaptionExactness.BracedTimeIsFine | internal/queue/processor.go:209-216 | the nested template of the last placeholder is right for all safe values |
| CaptionExactness.NestingBreaksIt | internal/queue/processor.go:209-216 | with nested braces a caption can be replaced by the sender's name |
| CaptionExactness.BracedValueBreaksIt | internal/queue/processor.go:209-216 | a caption that spells a placeholder is expanded again, in an unambiguous template |
| BlockedWords.ContainsBlockedWord | internal/queue/processor.go:192-204 | true if and only if some word, trimmed and lower-cased, is not blank and occurs in the lower-cased text |
| BlockedWords.BlocksIff | internal/queue/processor.go:192-204 | blocked if and only if some part of the text is a word that is not blank, both in small letters |
| BlockedWords.SpellingsNormalize | internal/queue/processor.go:195 | a word is read without the blanks around it, in small letters |
| Text.TrimExact | internal/queue/processor.go:195 | the blanks around a text go, and nothing else |
| Text.LowerAlphabet | internal/queue/processor.go:193-195 | capitals become their small letters, every other character itself |
| BlockedWords.SplitBlockedWordsLegacy | internal/database/db.go:74-97 | each normalised, non-blank word of the comma list exactly once |
| BlockedWords.StoredWordsBlockTheSame | internal/database/db.go:74-97 | any list of those words blocks the same texts as the raw comma parts |
| BlockedWords.MigrateBlockedWords | internal/database/migrations.go:234-270 | every pairing gets the words of its own list, absent lists get none, and no row belongs to anyone else |
| BlockedWords.MigrationPreservesBlocking | internal/database/migrations.go:262-270 | a migrated pairing blocks exactly the texts it blocked before |
| Pairings.PairingStore.LinkChannel | internal/database/db.go:112-131 | creates a complete, trimmed route without rules, or changes only the secret of an existing one; other rows and all words stay |
| Pairings.LinkChangesOnlyTheSecret | internal/database/db.go:122-123 | linking an existing route keeps its rules; other routes keep everything |
| Pairings.PairingStore.UnlinkChannel | internal/database/db.go:133-145 | removes the pairing and leaves its words |
| Pairings.PairingStore.UpdateRuleConfig | internal/database/db.go:238-250 | changes the rules of an existing pairing only |
| Pairings.PairingStore.GetBlockedWords | internal/database/db.go:252-275 | every word of the route once |
| Pairings.PairingStore.AddBlockedWord | internal/database/db.go:277-288 | stores the normalised word, refuses a blank one |
| Pairings.PairingStore.RemoveBlockedWord | internal/database/db.go:311-331 | removes the word in whatever spelling, and says whether it was there |
| Pairings.PairingStore.ClearBlockedWords | internal/database/db.go:355-361 | removes the words of one route only |
| Pairings.PairingStore.ExportPairings | internal/database/export.go:22-45 | each pairing at most once and faithfully, all of them when they fit the page, secrets only on demand |
| Pairings.PageLimit | internal/database/admin.go:4-10 | between 1 and 500 |
| Pairings.PairingStore.ImportPairings | internal/database/export.go:48-94 | the loop equals the import function, counts the items applied, and fails on an empty or bad list |
| Pairings.AppliedIsFirstBad | internal/database/export.go:53-91 | the import stops at the first item with a blank part of its route or, when words are replaced, a blank word, and nowhere else |
| PairingTransfer.ImportedEntry | internal/database/export.go:48-94 | each listed route gets the rules of its last item, its secret when secrets are imported, and exactly its words when words are replaced; what is not imported stays |
| PairingTransfer.ImportIsIdempotent | internal/database/export.go:48-94 | importing the same list again changes nothing, even after a partial import |
| PairingTransfer.UnlistedRoutesAreLeftAlone | internal/database/export.go:48-94 | routes not in the list keep pairing and words |
| PairingTransfer.ImportNeverTouchesSecrets | internal/database/export.go:66-73 | without secrets every existing secret stays; without replacement every word stays |
| PairingTransfer.RoundTripWithSecrets | internal/database/export.go:22-94 | a full export imported into an empty database restores pairings, rules and words, and each secret up to surrounding blanks |
| PairingTransfer.ReimportChangesNothing | internal/database/export.go:22-94 | an export without secrets, imported back, changes nothing |
| PairingTransfer.ImportKeepsWellFormed | internal/database/export.go:48-94 | keys stay trimmed and complete, words normalised, whatever is imported |
| EventIds.SameIdIff | internal/telegram/producer.go:259-261 | with colon-free file ids two deliveries share an id if and only if they agree in all but the platform of the target |
| EventIds.OtherPlatformIsSkipped | internal/telegram/producer.go:172-215 | once a delivery is accepted, the one to the same target id on another platform is not |
| EventIds.SharedIffColon | internal/telegram/producer.go:259-261 | an id is shared with another combination of chat, message, file and target id if and only if its file id or target id has a colon |
| EventIds.SameDiscordIdIff | internal/discord/producer.go:106 | Discord ids agree if and only if channel, message, attachment and target do, the first three having no colons |
| EventIds.SameDigestIdIff | internal/queue/digest.go:111-113 | digest ids agree if and only if route and second do, source and platforms having no colons |
| EventIds.DestinationsShareIff | internal/queue/processor.go:152 | destinations share a rate counter if and only if platform and id agree |
| EventIds.OtherIdsHaveNoSource | internal/database/stats.go:76-94 | ids of any other kind name no source |
| EventIds.TelegramSource | internal/database/stats.go:76-94 | the parser recovers the chat of any Telegram id |
| EventIds.DiscordSource | internal/discord/producer.go:106 | and the colon-free channel of any Discord id |
| EventIds.DigestSource | internal/queue/digest.go:111-113 | and the trimmed, colon-free platform and source of any digest id |
| Stats.GetChatStats | internal/database/stats.go:19-74 | the tally of exactly the recent rows of the trimmed source; refused when it is blank |
| Stats.MatchingIsExact | internal/database/stats.go:29-58 | every row of the source is taken as often as it occurs, every other row never |
| Stats.CountsAreExact | internal/database/stats.go:55-67 | each status is counted as often as it occurs and the counts sum to the matching rows |
| Stats.CountedUnderItsStatus | internal/database/stats.go:58-62 | a row counts under its own trimmed status, a blank one under unknown |
| Stats.LastEventIsLatest | internal/database/stats.go:64-67 | the last event is the maximum of the matching rows |
| Stats.RowsOfASource | internal/database/stats.go:19-94 | a row written for a source belongs to that source and to no other, and only while it is recent |
| Stats.OneSourcePerRow | internal/database/stats.go:76-94 | no row is counted for two sources |

## Left out

- Safety.NoLoss: database errors are not part of the machine; each transaction is atomic, and an ack or reschedule that fails is the same as a worker crash.
- Starvation.NoStarvation: assumes that no retry delay overflows (Backoff.DelaysCorrectIff says when) and that no stale worker that holds the event reschedules or buries it meanwhile.
- Leases.DeferredUntilQuietHoursEnd: without a replay of the event's dead letter, and when no worker holds the id at acceptance; Handovers.StaleWorkerBringsForward shows why.
- Drain.QueueDrains: for one worker and a fixed configuration; a crash or rate limit does not count as a completed step.
- Digest.DigestAccounting: excludes removal of pairings, retention of digest rows, settings that delay by less than a second, and a stop between send and delete; RowIsTakenEarly, BalancesIffSafe and CrashBeforeDeleteReportsTwice show why the last three are needed.
- DigestRetention.TakesOnlyDueIff: a row that is already due can still be taken unreported when no scheduler pass reports it within the week.
- DigestPass.ProcessDigests: no other process between its steps (the machine has those), and neither the item list nor the text of the message.
- Fleet.FleetSendsOnceInSevenDays: assumes that nobody replays a dead letter of an event that a worker holds within its lease, which hands it out again (Handovers.HeldReplayRepeats).
- Retention.RunRetentionCleanup: leaves out the event history and the audit log.
- ProcessorLoop.StartProcessor: a finite stretch of the endless loop, without the sleeps between empty polls.
- RateLimit.RateLimiter.CheckLimit: time differences are exact; the library saturates them at about 292 years.
- Stats.LastEventIsLatest: for rows stamped after the zero instant of the year 1, which the code uses as "none yet".
- Pairings.PairingStore.GetBlockedWords: the alphabetical order is left open.
- Pairings.PairingStore.ExportPairings: which pairings a full page holds is left open.
- BlockedWords.ContainsBlockedWord: lower-casing covers the ASCII letters only.
- Captions.ApplyFormatting: the reply preview is cut at characters, where the code cuts at bytes.
- SQL, the driver, JSON and file access: JSON is taken to decode what it encoded, with nil and empty lists the same.
- Sending, media hashing and HTTP: a send succeeds or fails; a fingerprint is an opaque string; rule configurations are stored and returned whole.
- Moderation scores, and the regex, sender, tag and file rules: moderation is one opaque answer per event.
- SetConfig and environment parsing: lease, retries, base delay and windows are fixed parameters.
- The admin panel, commands, CLI, translations, metrics, event-history writes, audit log and queue counters: thin plumbing around the modelled operations.
- Blocked-word operations for all targets of a source, and listing dead letters: repetitions of the single operations.
- The schema statements and the version runner of the migrations, and the unused album cache.
