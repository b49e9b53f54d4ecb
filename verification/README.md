# OpenCandle: verified models

This project models the self-contained state machines, codecs and calculations of OpenCandle in
Dafny and proves what they promise. `dafny verify dfyconfig.toml` checks all of it.

- **Alerts and reports.** `AlertConditions`, `AlertStore`, `AlertHistory`, `AlertInterleaving`,
  `PriceObservations`, `PriceOutcomes` and `AlertRunner` are the edge-triggered alert rules: the condition
  tests, the database transactions, the quote loading, one run of the checks and any interleaving of runs.
  `ReportScheduler` is the compare-and-swap claim of a report slot with its roll-back, `DailySchedule`
  (over `CivilDates`) the next report time, `NotificationDelivery` the webhook queue, `DeliveryArrivals`
  the queue while it grows, and `DeliveryOverlap` its calls step by step.
- **Runs and Stops.** `SessionCoordinator` admits and deduplicates actions; `RunCancellation` and
  `RunCancellationHistory` deliver Stops, also those that overtake their run.
- **Chat.** `SessionLog`, `WorkflowSteps` and `ChatProjection` turn a session log into numbered events;
  `ChatEvents` and `EventReducer` turn events into the rendered chat, `EventFields` says what one event does
  to each of its fields and `EventCommutation` which events of different sessions may change places;
  `ChatView` and `ChatStories` read every field of the rendered chat off the events, and `ChatTranscript`,
  `ChatComposition`, `ChatWords`, `ChatToolLog` and `ChatReload` say what a reload shows, with
  `WorkflowMeaning` in terms of the log alone.
- **The rest.** `MarketCalendar`, with the holidays described on their own in `MarketHolidays`, the
  WebSocket codec and stream (`WebSocketFrames`, `WebSocketStream`, sections 5.2, 5.3 and 5.7 of RFC 6455),
  `RateLimiter`, `QuoteSnapshots`, `HistorySnapshots`, and the tag printers and parser (`ToolTags`,
  `ToolTagRoundTrip`, with white space in `Texts`).

Asynchronous code is a sequence of atomic steps, one between two awaits, and the results hold for every
sequence of steps. A class has the fields of the source's object; its methods are proved against pure
step functions, and the lemmas are about runs of those. Objects that only identify something (a promise,
a run handle, a cache entry) are positions in a list of everything created so far.

Where a promise of the program does not hold on all inputs, the exact condition is proved, mostly with an
input that fails: searches from a key that is no date, Easter before the year 100, streams with text behind
a close frame, tool ids used again after their result, the "+12:00 and beyond" zones, buckets smaller than a
token, values the tag format loses, markers directly behind a hidden step, failed alert runs, runners with an
old clock, delivery calls that overlap or share a time, session ids that continue each other, early Stops
that fill the memory, events of different sessions. The comment at
`gui/server/chat-event-adapter.ts:124` says that Retry re-sends the user's own words; the prompt kept for
later notices is those words only when the marker stands before its message (`ChatComposition.MarkerOrder`),
and the model follows the code.

## Model

| member | source | states |
|---|---|---|
| MarketCalendar.EasterIsSunday | src/infra/market-calendar.ts:159-175 | `easterDate` is a Sunday exactly in the years from 100 on; the years 0 to 99 are the ones `Date.UTC` moves to 1900-1999 |
| MarketCalendar.EasterWindow | src/infra/market-calendar.ts:107-107 | Easter lies between March 22 and April 25, and the Good Friday entry is a Friday |
| MarketCalendar.EasterIsFirstSundayAfterFullMoon | src/infra/market-calendar.ts:159-175 | the arithmetic agrees with an independent computus: Easter is the first Sunday after the paschal full moon found from the epact |
| MarketCalendar.ListIsCelebrated | src/infra/market-calendar.ts:102-157 | a date is in the list of its year under a name exactly if that holiday is celebrated on it, each described without the list: the fourth Thursday counted over the days of November, the first or third Monday, the last Monday of May, the Friday two days before the Sunday after the full moon, and the weekday nearest to a fixed date |
| MarketCalendar.HolidayPlacement | src/infra/market-calendar.ts:102-157 | each of the ten holidays of a year is a Monday to Friday inside its own window of days; no observed holiday falls on a weekend |
| MarketCalendar.NewYearFollowsChristmas | src/infra/market-calendar.ts:104-113 | Christmas and the next New Year's Day are observed exactly seven days apart, across the year boundary |
| MarketCalendar.HolidaysAreAWeekApart | src/infra/market-calendar.ts:102-115 | any two different holidays, of the same or of different years, are at least seven days apart |
| MarketCalendar.MarketHolidayName | src/infra/market-calendar.ts:29-37 | for any key, whatever its string: the name found is that of the holiday celebrated on the date, as `MarketHolidays` describes it, from the year 100 on, only three lists being searched; the key of the invalid date gets the first name of the list of year NaN, and no other string gets one |
| MarketCalendar.IsWeekendOrKnownHoliday | src/infra/market-calendar.ts:96-100 | true exactly for keys read as a Saturday or Sunday, the dates of some year's list, and the key of the invalid date |
| MarketCalendar.TradingDayWithinFour | src/infra/market-calendar.ts:88-94 | among any four consecutive days one is a trading day: the bound that makes the unbounded search end |
| MarketCalendar.SearchEnds | src/infra/market-calendar.ts:88-100 | the unbounded search meets an open day exactly if its key is a date in range: every step from any other key is the invalid date, which counts as a holiday |
| MarketCalendar.LastTradingDay | src/infra/market-calendar.ts:88-94 | from every key that is a valid date the search ends at the latest open day strictly before it; from the year 100 on that is the latest day that is no weekend and on which no holiday is celebrated, at most four days back |
| WebSocketFrames.ReadFrame | gui/server/websocket.ts:88-120 | the loop over header, mask and payload returns what the frame format of RFC 6455 section 5.2 says is at the front of the buffer: nothing yet, a frame with its byte count, or the thrown size error |
| WebSocketFrames.Unmask | gui/server/websocket.ts:112-117 | unmasking in place is an exclusive or with the key of section 5.3 |
| WebSocketFrames.WriteFrame | gui/server/websocket.ts:122-138 | the frame is the unmasked final text frame with the shortest length field |
| WebSocketFrames.BigEndianRoundTrip | gui/server/websocket.ts:96-105 | a number written in network byte order reads back |
| WebSocketFrames.ReadBack | gui/server/websocket.ts:88-120 | any frame, with any flags, sent opcode and length field, masked or not, followed by anything, reads back to the sender's payload, the sent opcode and the exact byte count, or to the size error exactly above the largest safe integer |
| WebSocketFrames.OpcodeReadBack | gui/server/websocket.ts:88-95 | the opcode, the length bits and the mask bit that a sender puts into the first two octets are read back whatever the FIN and reserved bits |
| WebSocketFrames.KnownFrames | gui/server/websocket.ts:88-120 | the example frames of section 5.7 of RFC 6455 read as the section says |
| WebSocketFrames.WriteThenRead | gui/server/websocket.ts:88-138 | `readFrame(writeFrame(p) + rest)` gives p and its exact byte count for every payload up to the size limit, and the size error beyond it |
| WebSocketStream.Connection.OnData | gui/server/websocket.ts:38-58 | the data handler delivers and keeps what draining the buffer says, and stops where it does |
| WebSocketStream.Conservation | gui/server/websocket.ts:36-58 | for every split into chunks the delivered payloads and those left in the buffer make up the text of the stream, in order |
| WebSocketStream.SplitIndependence | gui/server/websocket.ts:36-58 | the delivered payloads are the same for every split exactly when no text frame follows a close frame; then they are all the text of the stream |
| WebSocketStream.SentTextIsDelivered | gui/server/websocket.ts:36-58 | the text of a stream of frames sent with any opcodes is what the clients put into those of opcode 1 in front of the first close frame, masked or not |
| WebSocketStream.Delivery | gui/server/websocket.ts:36-58 | without close frames the handler gets exactly the payloads sent with opcode 1, in order, however the network cuts the bytes |
| WebSocketStream.CloseStops | gui/server/websocket.ts:43-46 | a frame sent with opcode 8 ends the socket: nothing behind it is delivered |
| WebSocketStream.PartialFrameWaits | gui/server/websocket.ts:36-42 | a frame that has not arrived in full delivers nothing and stays in the buffer |
| RunCancellation.GuiRunRegistry.StartRun | gui/server/run-cancellation.ts:96-116 | refused while the session has a run; else registered, cancelled from the start if a live early Stop names it, which is used up |
| RunCancellation.GuiRunRegistry.CancelRun | gui/server/run-cancellation.ts:132-146 | stops the named run once, reports a repeat, and remembers a Stop that finds no such run |
| RunCancellation.GuiRunRegistry.RememberEarlyCancel | gui/server/run-cancellation.ts:80-89 | prunes the expired, moves the key to the end and drops the oldest above the cap |
| RunCancellationHistory.CancelledExactlyOnce | gui/server/run-cancellation.ts:95-148 | in every history a callback set once is called exactly once if a Stop reached the run, registered or remembered, in either order with setting it, and never otherwise |
| RunCancellationHistory.SlotUntilFinished | gui/server/run-cancellation.ts:96-131 | over every history a record is of the session and action it was started for, and has its session's slot exactly until its finish |
| RunCancellationHistory.AnswersAreExact | gui/server/run-cancellation.ts:95-148 | over every history a run is admitted exactly when no earlier run of its session is in flight, and a Stop reaches the run in flight exactly if it names its action; else it is stale or finds no run |
| RunCancellationHistory.EarlyStopsInOrder | gui/server/run-cancellation.ts:71-93 | under a monotone clock the remembered Stops stay within the cap and in expiry order, and each stands for an earlier Stop that found no run |
| RunCancellationHistory.StartedStoppedForAReason | gui/server/run-cancellation.ts:90-101 | a run that starts cancelled was named by an earlier unexpired Stop with no admission of that name in between: never by another action's Stop |
| RunCancellationHistory.EarlyStopIsHonoured | gui/server/run-cancellation.ts:71-101 | a Stop that overtakes its run, the last of its name, stops it at its start exactly if it has not expired and the live Stops remembered since, one for each name, never filled the memory |
| SessionCoordinator.Coordinator.RunSessionAction | gui/server/local-session-coordinator.ts:51-97 | the admission decision: remembered result, action in flight, busy session, or a new execution |
| SessionCoordinator.OneRunPerSession | gui/server/local-session-coordinator.ts:62-96 | over every interleaving of calls, completions, failures and clean-ups a session never has two chat or tool runs in flight |
| SessionCoordinator.AnswersAreExact | gui/server/local-session-coordinator.ts:51-97 | over every history the executions decide the answer, in this order: a remembered success of the key, its execution still awaited, an admitted execution holding the session; where there is none, a new execution starts |
| SessionCoordinator.FreeAfterCleanUp | gui/server/local-session-coordinator.ts:76-97 | an execution is awaited and holds its session exactly until the clean-ups that come after the end of its handler: a settled session becomes free |
| SessionCoordinator.EndsAreHonest | gui/server/local-session-coordinator.ts:76-90 | a success carries the result and time of the event that ended its handler |
| SessionCoordinator.SuccessesAreRetentionApart | gui/server/local-session-coordinator.ts:55-84 | successful executions of one action key are at least the retention window apart |
| SessionCoordinator.DuplicatesAreHonest | gui/server/local-session-coordinator.ts:57-75 | a caller answered as a duplicate gets the result of an execution of its own session and action, remembered within the window or still in flight; the only other source is a session whose id is confusable with its own; a busy answer names an action that holds the session |
| SessionCoordinator.DuplicatesAreOwn | gui/server/local-session-coordinator.ts:56-75 | if no other session of the run is confusable with the caller's, the result is that of its own session and action, with no other source |
| SessionCoordinator.PlainSessionsAreDistinct | gui/server/local-session-coordinator.ts:56-56 | session ids free of colons are never confusable |
| SessionCoordinator.SessionsShareAKey | gui/server/local-session-coordinator.ts:56-56 | actions of two different sessions share a key exactly when one session id continues the other behind a colon |
| SessionCoordinator.ConfusableSessionsCross | gui/server/local-session-coordinator.ts:51-84 | any two confusable session ids do cross: an action of the one is answered with the result of an action of the other |
| RateLimiter.Limiter.Acquire | src/infra/rate-limiter.ts:28-43 | without competition the loop ends at once or after exactly one computed sleep, however late its timer fires, with the bucket of that attempt; an unknown provider is not limited |
| RateLimiter.GrantsArePaid | src/infra/rate-limiter.ts:28-53 | for any interleaving of waiters under a monotone clock tokens stay in range and every grant is paid from tokens held or come in |
| RateLimiter.WindowBound | src/infra/rate-limiter.ts:28-53 | in every window of time the grants are at most the capacity plus the refill of the window |
| RateLimiter.GrantedIfItFits | src/infra/rate-limiter.ts:28-53 | no token is lost: an attempt is granted exactly if its token fits the bound of every window, from each earlier attempt and from the start |
| RateLimiter.OneSleepIsEnough | src/infra/rate-limiter.ts:35-41 | an undisturbed waiter is granted exactly from the end of the computed sleep on, if the bucket can hold a whole token: no shorter sleep in whole milliseconds is enough |
| RateLimiter.SmallBucketGrantsNothing | src/infra/rate-limiter.ts:32-42 | a bucket that cannot hold a whole token grants nothing in any run, so the loop of its waiters never ends |
| QuoteSnapshots.QuoteSnapshotStore.GetNow | gui/server/quote-snapshot-store.ts:15-22 | a snapshot if there is one, refreshed in the background when stale, else the build in flight |
| QuoteSnapshots.QuoteSnapshotStore.BuildResolved | gui/server/quote-snapshot-store.ts:35-41 | a finished build is stored only if nothing was invalidated since it started |
| QuoteSnapshots.GetServes | gui/server/quote-snapshot-store.ts:15-49 | every `get` of every history hands out the latest value stored since the last invalidation, and asks for a new build exactly if that value has reached the age limit or there is none, and no build of the epoch is under way; without a value it hands out that build |
| QuoteSnapshots.BuildFollowsEvents | gui/server/quote-snapshot-store.ts:31-49 | over every history a build is done, and out of the way of the next, exactly once its last callback has run after its end, failed or not |
| QuoteSnapshots.NothingFromBeforeInvalidate | gui/server/quote-snapshot-store.ts:15-49 | after an invalidation no later `get` hands out a value or a promise of a build started before it, whatever the builds in flight do |
| QuoteSnapshots.OneBuildPerEpoch | gui/server/quote-snapshot-store.ts:31-49 | at most one build is in flight per invalidation epoch |
| HistorySnapshots.HistorySnapshotStore.GetNow | gui/server/history-snapshot-store.ts:16-45 | a fresh value, the build in flight, or a new build on the key's entry object |
| HistorySnapshots.HistorySnapshotStore.BuildResolved | gui/server/history-snapshot-store.ts:32-38 | a finished build writes to its own entry object, orphaned or not |
| HistorySnapshots.GetServes | gui/server/history-snapshot-store.ts:16-45 | every `get` of every history hands out the latest value stored for the key since the last clear exactly while it is younger than the limit, else the build under way for the key, and starts one only if there is none |
| HistorySnapshots.BuildFollowsEvents | gui/server/history-snapshot-store.ts:26-45 | over every history a build is done, and out of the way of the next, exactly once its last callback has run after its end, failed or not |
| HistorySnapshots.NothingFromBeforeClear | gui/server/history-snapshot-store.ts:16-49 | after a clear no later `get` of any key hands out a value or a promise of a build started before it |
| HistorySnapshots.OneBuildPerKeyAndEpoch | gui/server/history-snapshot-store.ts:17-44 | at most one build per key is in flight between two clears |
| AlertConditions.CrossesIsRisingEdge | src/market-state/alert-runner.ts:760-844 | for all seven condition types and any field values a crossing is exactly a change of the condition from false to true |
| AlertConditions.TrueBeyondTheBound | src/market-state/alert-runner.ts:760-844 | a condition is true strictly beyond its bound, on the side of its direction, and never without a bound: a missing number, an unknown direction and an unknown type alert nobody |
| AlertStore.AlertTables.CreateAlertRule | src/market-state/service.ts:880-921 | the inserted row, with a new id, unknown condition state and first revision |
| AlertStore.AlertTables.UpdateAlertRule | src/market-state/service.ts:943-1012 | an edit starts a new revision and arm cycle, takes the patched fields and keeps the others, and forgets observation, condition state and last trigger |
| AlertStore.AlertTables.SetAlertRuleEnabled | src/market-state/service.ts:930-941 | only the enabled flag changes |
| AlertStore.AlertTables.RecordAlertEvaluationResult | src/market-state/service.ts:1443-1569 | the transaction: re-arm, trigger gate on the fresh row, dedupe, notification, one-shot completion |
| AlertStore.AlertTables.RecordAlertUnavailable | src/market-state/service.ts:1571-1619 | an unavailable check adds an event and moves the check times, nothing else |
| AlertHistory.TriggersAreRisingEdges | src/market-state/alert-runner.ts:249-290 | over any history of checks the recorded triggers are exactly the rising edges between consecutive observations outside the cooldown, only the first in once mode |
| AlertHistory.CreatedRuleIsUnobserved | src/market-state/service.ts:880-921 | a created rule starts such a history, whatever else the tables hold |
| AlertHistory.EditedFields | src/market-state/service.ts:943-1012 | each patched field has the patched value and each other field its old one |
| AlertHistory.EditedRuleIsUnobserved | src/market-state/service.ts:943-1012 | an edit starts an unobserved history in its new revision, so that `TriggersAreRisingEdges` applies from there and the first check never triggers |
| AlertHistory.CheckedRuleIsDueAgain | src/market-state/service.ts:1443-1569 | a rule checked at some time, observed or not, is due again exactly when its interval has passed, and at once without an interval |
| AlertInterleaving.OneTriggerPerArmCycle | src/market-state/service.ts:1463-1562 | over every interleaving of stale runners, edits, switches and deletions each arm cycle has at most one recorded trigger, and each revision of a once rule at most one |
| AlertInterleaving.ArmCyclesNeverDecrease | src/market-state/service.ts:943-1012 | no step takes the revision or the arm cycle of a rule back |
| AlertInterleaving.OneNotificationPerTrigger | src/market-state/service.ts:1506-1529 | each recorded trigger has exactly one notification, and every trigger event is a recorded one |
| AlertInterleaving.TablesAreWellKept | src/market-state/service.ts:1443-1619 | the table shape that the statements about runs ask for holds in every reachable state |
| AlertInterleaving.RulesStartOver | src/market-state/service.ts:880-1012 | in every reachable state, whatever runners with stale copies did, an edit leaves its rule and a creation the new rule at the start of an unobserved history |
| PriceObservations.BudgetOpensAfterAStreak | src/market-state/alert-runner.ts:62-91 | a provider is refused exactly during the back-off after the last of enough failures in a row, and the refusal names that failure's reason |
| PriceObservations.LoadTradingView | src/market-state/alert-runner.ts:354-391 | the TradingView round leaves exactly the last usable quote of each key, or no observation |
| PriceObservations.LoadPriceObservations | src/market-state/alert-runner.ts:331-444 | whatever the providers return, omit or throw and whatever the budget, each price rule ends with an observation or a reason; every observation is the last usable TradingView quote of its key or the value Yahoo answered for a requested symbol of that key, fresh-only keys holding only the latter; a usable quote is used and an answering Yahoo serves every rule |
| PriceOutcomes.SymbolOutcome | src/market-state/alert-runner.ts:331-444 | what both rounds leave of a symbol, exactly: the quote for rules with and without delayed data and the reasons for a missing one, decided by TradingView's refusal, failure or last usable quote and then by Yahoo's answer for this symbol; the replies for other symbols change nothing |
| PriceOutcomes.BudgetAfterRounds | src/market-state/alert-runner.ts:354-430 | the budget after both rounds is that of TradingView's one outcome and of Yahoo's answers and provider-wide failures, counted one by one after those before, each only if the provider was asked |
| AlertRunner.Classify | src/market-state/alert-runner.ts:186-206 | the due rules in order, split into the runnable ones and the lines of the others |
| AlertRunner.FiledWhereItBelongs | src/market-state/alert-runner.ts:186-206 | a due rule is runnable exactly if its condition version is current and its instrument exists; otherwise it gets the line of the test that failed first |
| AlertRunner.CheckRule | src/market-state/alert-runner.ts:220-301 | one rule of the run: the observation or its reason decides what the transaction records and which line the run gets, and there is no line exactly if the rule was deleted meanwhile |
| AlertRunner.CheckRecords | src/market-state/alert-runner.ts:220-301 | a check with a value records it as the last observation and, for a triggered line, one event under the key of the runner's copy, its trigger and the value; a check without one is logged as unavailable and keeps the last observation |
| AlertRunner.RunAlertChecks | src/market-state/alert-runner.ts:165-329 | the quotes are loaded for the runnable price rules, and the tables and the result are those of checking the runnable rules one by one, any deletions by others in between, up to the first that is gone |
| AlertRunner.CompletedRunIsComplete | src/market-state/alert-runner.ts:165-329 | a completed run has one line per due rule, counts each once with triggered + unavailable <= checked, and gives every price rule without observation its recorded reason |
| AlertRunner.RunCompletes | src/market-state/alert-runner.ts:220-301 | a run completes exactly if no runnable rule is deleted at or before its own turn |
| AlertRunner.LinesAreDecidedAtTheStart | src/market-state/alert-runner.ts:220-301 | with distinct due rules each line is the one that the tables of the start decide: checking other rules changes nothing for it |
| AlertRunner.StoredCountsAddUp | src/market-state/alert-runner.ts:304-327 | the stored counts keep triggered + unavailable <= checked exactly if no runnable rule is deleted by its turn, or nothing was skipped and everything before the first such rule was observed and did not trigger; a failed run stores 0 checked rules |
| AlertRunner.CountsOfRun | src/market-state/alert-runner.ts:304-327 | the stored unavailable rules are the skipped ones and those tried without a value, the one the run threw at included; a run that threw stores no checked rule |
| AlertRunner.FailedRunDoesNotAddUp | src/market-state/alert-runner.ts:304-327 | two due rules, the first without observation and the second deleted: 0 checked and 1 unavailable are stored |
| DailySchedule.NextRunIsWithinADay | src/market-state/daily-report.ts:161-167 | in a zone of fixed offset the report time is after now and at most a day later exactly when today's time is still ahead or the offset is in [-12:00, +12:00); it always reads as the requested local time |
| DailySchedule.ValidTimesAreShown | src/market-state/daily-report.ts:146-159 | an hour and a minute are accepted exactly if some clock can show them |
| DailySchedule.FixedZoneRun | src/market-state/daily-report.ts:161-167 | which local day the code takes for tomorrow: one too many from +12:00, one too few below -12:00 |
| DailySchedule.ReadsAsRequested | src/market-state/daily-report.ts:207-216 | in a zone of any changing offset the result reads as requested exactly when the offset looked up and the one in force at the result differ by whole days, so, less than a day apart, exactly when they are the same |
| CivilDates.CivilRoundTrip | src/market-state/daily-report.ts:164-164 | a date and its day number determine each other, across month and year ends |
| CivilDates.MonthLengths | src/market-state/daily-report.ts:164-164 | the day numbers are those of the civil calendar: the lengths of the months and years and the weekday of the first of January 1970 |
| ReportScheduler.LeaseIsKept | src/market-state/service.ts:1034-1101 | no acquisition or release by others takes a lease before it expires |
| ReportScheduler.LeaseExcludes | src/market-state/service.ts:1034-1101 | while only others act after an owner has got the lease, an attempt is granted exactly if it is the owner's own or the lease has expired; a released lease is free |
| ReportScheduler.ReportTables.ClaimDueReportTemplateRun | src/market-state/service.ts:1699-1715 | the compare-and-swap: the next run moves only if the template is enabled and still scheduled for the claimed time |
| ReportScheduler.ReportTables.RunDueReports | src/market-state/local-automation-service.ts:99-162 | without interference each due template gets a completed row, a failed row or, when the work throws after recording, both; it moves to its next time on success and is back at its slot after a failure; the others are untouched |
| ReportScheduler.HeartbeatRunsWhatIsDue | src/market-state/local-automation-service.ts:99-162 | one heartbeat records rows exactly for the enabled daily templates whose time has come, for that time, and moves on only those whose report succeeded |
| ReportScheduler.SecondHeartbeatIsIdle | src/market-state/local-automation-service.ts:99-162 | after a heartbeat that succeeded everywhere another one at the same time runs nothing |
| ReportScheduler.RunIsExclusive | src/market-state/local-automation-service.ts:114-160 | over every interleaving of claims, successes, failures with roll-back and configurations the claims are exclusive at all times exactly if no step sets a schedule to a slot that a live claim has |
| ReportScheduler.UnguardedSlotIsClaimedTwice | src/market-state/service.ts:1699-1715 | after a step that sets an enabled template to a taken slot the next claim of that slot is granted, and the slot has two live claims |
| ReportScheduler.MonotoneIsGuarded | src/market-state/local-automation-service.ts:114-127 | runners that agree on the order of times within each template never do that; the times of different templates may be in any order |
| ReportScheduler.OneClaimPerSlot | src/market-state/local-automation-service.ts:114-160 | in such a run a slot of a template has at most one claim that is outstanding or has succeeded, lease or no lease |
| ReportScheduler.CompletedRowsOfASlot | src/market-state/local-automation-service.ts:128-157 | in such a run a slot has one completed row for its successful claim and one for each runner that failed after recording its report, and no others |
| ReportScheduler.StaleClockSharesASlot | src/market-state/local-automation-service.ts:114-157 | an input where the guard fails: after a roll-back a runner with an old clock makes two outstanding claims of one slot |
| NotificationDelivery.LastFailuresMeaning | src/market-state/notification-delivery.ts:38-45 | the map holds exactly the notifications with a failed webhook attempt, each with its latest time |
| NotificationDelivery.NotificationTables.DeliverPendingNotifications | src/market-state/notification-delivery.ts:17-137 | a call that no other interrupts tries at most the cap of the pending notifications in order, records one row each, and its counts add up; a rejected URL records failures only |
| NotificationDelivery.PendingElements | src/market-state/notification-delivery.ts:47-60 | the queue holds exactly the notifications without a success, in strict order of the comparator |
| NotificationDelivery.CallRotatesQueue | src/market-state/notification-delivery.ts:32-134 | one call rotates the queue, so that the batch leaves the front and what failed of it goes to the back, exactly if every remaining notification comes before every failed one, by last time and then age |
| NotificationDelivery.LaterCallRotatesQueue | src/market-state/notification-delivery.ts:32-134 | a call later than every failed attempt rotates the queue and requeues by age |
| NotificationDelivery.TurnComes | src/market-state/notification-delivery.ts:32-134 | the notification at position p is tried by call number p / maxAttempts |
| NotificationDelivery.EveryPendingIsTried | src/market-state/notification-delivery.ts:32-134 | calls at increasing times, enough for the length of the queue, try every pending notification, whatever the webhook answers |
| DeliveryArrivals.TriedAmongArrivals | src/market-state/notification-delivery.ts:32-134 | while new notifications arrive, the one at position p is tried exactly if in some round k it and all that overtook it by then are fewer than k times the cap; every arrival overtakes a failed one, and one never tried is overtaken only by older ones |
| NotificationDelivery.EqualTimesStarve | src/market-state/notification-delivery.ts:50-60 | an input where the queue does not rotate: with equal call times a pending notification is passed over |
| NotificationDelivery.DeliveredOnce | src/market-state/notification-delivery.ts:33-49 | over any run of uninterrupted calls and new notifications nothing is sent for a notification after its success |
| DeliveryOverlap.UninterruptedCall | src/market-state/notification-delivery.ts:32-134 | a call of separate steps that nothing interrupts leaves the tables as the single step does |
| DeliveryOverlap.StepIsSilent | src/market-state/notification-delivery.ts:32-134 | a step keeps the promise that nothing is sent after a success exactly if it is not a post of a notification delivered since its call read the attempts |
| DeliveryOverlap.RunIsSilent | src/market-state/notification-delivery.ts:32-134 | however calls overlap, nothing is sent for a notification after its success exactly if no post is one of a call that read the attempts before that success: a guard known before each post |
| DeliveryOverlap.SentAgainFromOldSnapshots | src/market-state/notification-delivery.ts:32-134 | where a second send comes from: always another call, which had read the attempts before the success was recorded |
| DeliveryOverlap.TwoCallsSendTwice | src/market-state/notification-delivery.ts:32-134 | two calls that begin on one pending notification both send it successfully |
| DeliveryOverlap.SerialCallsDeliverOnce | src/market-state/notification-delivery.ts:32-134 | if no call begins while another is open, every post meets the guard and nothing is sent after a success |
| EventReducer.Apply | gui/shared/event-reducer.ts:15-148 | every event keeps `messageById` the exact index of `messages`, with no repeated key |
| EventReducer.ChatRender.Clone | gui/shared/event-reducer.ts:173-201 | the index built again from the copied messages is the old one |
| EventReducer.ChatRender.EnsureMessage | gui/shared/event-reducer.ts:150-171 | an existing message is found, a new one is appended and indexed |
| EventReducer.ChatRender.RenderBody | gui/shared/event-reducer.ts:28-145 | the in-place switch over all fourteen event types computes the specified state |
| EventFields.FieldsRendered | gui/shared/event-reducer.ts:28-145 | each event changes the tools, runs, thinking and session by its own entry alone, and the gaps and numbers not at all |
| EventReducer.ApplyChatEvent | gui/shared/event-reducer.ts:15-148 | a repeated event returns the same object; otherwise a fresh object has the new state and the old one is untouched |
| EventReducer.ReduceChatEvents | gui/shared/event-reducer.ts:9-13 | sorting and folding over mutable states gives the specified state |
| EventReducer.ReduceIgnoresOrderAndRepetition | gui/shared/event-reducer.ts:9-26 | for one session in which a number means one event, any order and any repetition of the events gives the same state |
| EventReducer.TwoSessionsDoNotCommute | gui/shared/event-reducer.ts:11-35 | an input for the first of these: the last run to start names the session |
| EventCommutation.EventsCommute | gui/shared/event-reducer.ts:15-148 | two events of different sessions that touch no message, tool or run in common commute in a state exactly if one was seen or they do not both write the session, append a message, or report different gaps |
| EventCommutation.SessionsAreSeparate | gui/shared/event-reducer.ts:212-214 | the events of two sessions never touch anything in common exactly if neither session id, with the separator, continues the other |
| EventCommutation.PlainSessionsAreSeparate | gui/shared/event-reducer.ts:212-214 | different session ids free of colons are such |
| ChatView.NumberedFold | gui/shared/event-reducer.ts:20-26 | consecutive numbers report no gap and are all admitted, wherever they start |
| ChatView.ShownTools | gui/shared/event-reducer.ts:83-118 | a tool is shown running exactly if its last start has no end after it |
| ChatView.ShownMessages | gui/shared/event-reducer.ts:52-81 | a rendered message has the status and text its own events tell, untouched by the others |
| ChatView.ShownRuns | gui/shared/event-reducer.ts:28-136 | status and thinking text of a run are what its own events tell, untouched by those of other runs |
| ChatStories.ShownTool | gui/shared/event-reducer.ts:83-118 | a tool is shown exactly if an event started it, whole: what its latest start gave, and the status, chunks, output and error its own events have told since |
| ChatStories.ShownRun | gui/shared/event-reducer.ts:28-51 | a run and its thinking are shown whole, with usage and error, as their own events have told them |
| ChatStories.ShownSession | gui/shared/event-reducer.ts:28-35 | the session is known from the first run or update on, and a run keeps the title of the last update |
| ChatStories.ShownMessageList | gui/shared/event-reducer.ts:52-81 | one message for each mentioned id, in the order of first mention, each whole as its own events have told it |
| ChatStories.ShownGaps | gui/shared/event-reducer.ts:15-26 | for any events of any sessions the gaps and the highest numbers are told by the numbers alone, and repeated events tell nothing |
| SessionLog.SupersededAssistantFailureIds | gui/server/chat-event-adapter.ts:341-363 | the loop computes the paired ids |
| SessionLog.SupersededMeaning | gui/server/chat-event-adapter.ts:341-363 | a failed reply is hidden exactly if its retry failed too with no other message between, or the next entry announces the failure |
| SessionLog.UserStoppedAssistantEntries | gui/server/run-stop-marker.ts:51-73 | the loop computes the stopped ids |
| SessionLog.UserStoppedMeaning | gui/server/run-stop-marker.ts:51-73 | an error reply counts as stopped by the user exactly if a marker names it and its error reads like an abort |
| SessionLog.StopPromptIsLatest | gui/server/run-stop-marker.ts:51-73 | a stopped reply is retried with the prompt of the latest marker that names it, if that is not blank |
| WorkflowSteps.WorkflowStepMetadata | gui/server/chat-event-adapter.ts:437-500 | the grouping loop and the numbering loops compute the step map |
| WorkflowSteps.AssignMeaning | gui/server/chat-event-adapter.ts:502-515 | a step marker labels the latest unlabelled user message of its group and nothing else |
| WorkflowSteps.StepsAreNumbered | gui/server/chat-event-adapter.ts:487-499 | the user messages of a workflow are numbered 1 to their count in log order |
| WorkflowMeaning.StepsAreTold | gui/server/chat-event-adapter.ts:437-515 | every user message of a workflow of the log is a step of it: its number and the total counted over the log, its label that of the marker that matches it like a closing bracket, and its turn kept exactly if the user's own words come before it |
| WorkflowMeaning.OnlyStepsAreTold | gui/server/chat-event-adapter.ts:437-500 | no other entry is a step |
| ChatProjection.SessionEntriesToChatEvents | gui/server/chat-event-adapter.ts:15-339 | the loop over the log computes the specified events; what a reload shows of them is read off the log in `ChatReload.ReloadShowsTranscript` and `ChatToolLog.ReloadShowsTool` |
| ChatTranscript.ProjectionIsNumbered | gui/server/chat-event-adapter.ts:19-45 | every projection numbers its events consecutively from the requested start |
| ChatTranscript.RunningAfterProjection | gui/server/chat-event-adapter.ts:258-334 | in the events a tool id stays started exactly if the log ends it with a call that reuses the id of an earlier result |
| ChatTranscript.OpenAfterProjection | gui/server/chat-event-adapter.ts:245-318 | the messages opened and never closed are those of orphan tool results |
| ChatComposition.ReloadHasNoGaps | gui/server/chat-event-adapter.ts:15-339 | projecting and reducing any log reports no gap and ends at the last number |
| ChatComposition.ReloadRunsTool | gui/server/chat-event-adapter.ts:292-334 | after a reload a tool is shown running exactly if a call reuses the id of an earlier result and gets no later one; without the marking, exactly if the log ends the id with a call |
| ChatComposition.ReloadFinishesTools | gui/server/chat-event-adapter.ts:321-334 | if no call reuses the id of an earlier result no tool at all is left running |
| ChatToolLog.ReloadShowsTool | gui/server/chat-event-adapter.ts:258-334 | after a reload of any log a tool is shown exactly if the log has a call or a result of its id, whole, as the log alone tells it; a call that no result answers is marked as not finished |
| ChatToolLog.LastWordIsShown | gui/server/chat-event-adapter.ts:292-334 | a tool whose last word in the log is a result is done with that output, or failed with that text; one whose last word is a call has the name and arguments of the call, and is running, or failed as not finished exactly if the reload marks such calls and no result of the log has the id |
| ChatComposition.ReloadStreams | gui/server/chat-event-adapter.ts:292-318 | after a reload a message streams exactly if it is an orphan tool result's and nothing in the events completes that id |
| ChatComposition.OrphansStream | gui/server/chat-event-adapter.ts:292-318 | with distinct, unprefixed entry ids the streaming messages are exactly the orphan tool results |
| ChatComposition.MarkerOrder | gui/server/chat-event-adapter.ts:48-59 | for a shown message a marker with the user's words gives the same events before and after it exactly if it has no inline image, and placed after, the Retry prompt is the expanded text; at a hidden step the words are dropped before it and kept for the next message behind it |
| ChatWords.AnswersAreShown | gui/server/chat-event-adapter.ts:245-288 | after a reload every shown answer of the log is complete and has all its texts in order, whatever entries follow |
| ChatWords.UserWordsAreShown | gui/server/chat-event-adapter.ts:48-59 | after a reload every shown user message has the words the loop gives it: those of the marker behind it, else of the marker kept for it, else its own, and nothing later changes them |
| ChatWords.OwnWordsAreShown | gui/server/chat-event-adapter.ts:48-59 | with words owned as the log alone says, a marker directly behind a user message being that message's and any other the next turn's, a reload shows a message with its own words exactly if no marker strays to it from directly behind a hidden step, or the message has its own marker or the same text |
| ChatWords.StrayWordsAreShown | gui/server/chat-event-adapter.ts:48-59 | a workflow with its marker behind the hidden first step: the next turn is shown with that marker's words, whatever it said |
| ChatWords.MarkerShows | gui/server/chat-event-adapter.ts:547-559 | a marker changes the text of the user message it follows and of no other |
| ChatReload.ReloadShowsTranscript | gui/server/chat-event-adapter.ts:15-339 | after a reload of any log with plain ids the whole list of messages is the transcript read off the log entry by entry: answers, user turns with words, pictures and attachments, failures, Stops, notices, workflow steps and orphan results, each whole and in order, and nothing else |
| ToolTags.ParseFields | src/onboarding/tool-tags.ts:138-150 | the match loop fills the record of the field pattern |
| ToolTags.ParseToolTag | src/onboarding/tool-tags.ts:152-244 | the first tag of the text, parsed by kind |
| ToolTags.QuotedReadBack | src/onboarding/tool-tags.ts:71-73 | a quoted value is read back up to its own closing quote exactly if its backslashes pair off before quotes, line ends and the end |
| ToolTags.BareReadBack | src/onboarding/tool-tags.ts:75-77 | a bare value is read back exactly if it is not empty, has no white space or bracket, and no opening quote that is closed later |
| ToolTagRoundTrip.PartsReadBack | src/onboarding/tool-tags.ts:138-150 | the printed parts are read off one by one exactly if each is readable before what follows it |
| ToolTagRoundTrip.ListReadBack | src/onboarding/tool-tags.ts:169-172 | a joined list comes back exactly if its items are not empty, trimmed and free of commas |
| ToolTagRoundTrip.DecimalReadBack | src/onboarding/tool-tags.ts:181-184 | a printed status number comes back |
| ToolTagRoundTrip.RoundTrip | src/onboarding/tool-tags.ts:79-244 | for all five kinds, in any text with no tag before it: if the parts are readable, parsing the print gives the tag back exactly if its values are plain and print no closing bracket |
| ToolTagRoundTrip.OrdinaryRoundTrip | src/onboarding/tool-tags.ts:79-244 | the same for every tag without backslashes and with a visible unquoted fallback, behind any text in which no tag starts, brackets or not: quotes, equals signs and field-like text are harmless |
| ToolTagRoundTrip.ParsedTagsHaveNoBracket | src/onboarding/tool-tags.ts:135-136 | no parsed tag has a closing bracket in a printed value |
| ToolTagRoundTrip.LostValues | src/onboarding/tool-tags.ts:169-173 | a fallback named none, a list item with a comma and an empty command do not come back |

## Left out

- MarketCalendar.MarketHolidayName: a string is the three numbers it reads as; how JavaScript reads a number is not part of this model.
- MarketCalendar.LastTradingDay: the call on a key that is no date never returns, so the method asks for a valid one; `MarketCalendar.SearchEnds` covers both.
- MarketCalendar.HolidayPlacement: years from 100 on; the range of dates is added where lists are searched, so the placement of the years after 275760 is that of a calendar without end.
- DailySchedule.NextRunIsWithinADay: local days from the year 100 on and offsets of less than a day; a zone is a function from instants to offsets, so the time zone database and the splitting of the local time string are not part of this model.
- RateLimiter.Limiter.Acquire: buckets that hold a token; with less the loop never ends, as `RateLimiter.SmallBucketGrantsNothing` says. Tokens are reals, not floating point.
- WebSocketStream.Connection.OnData: payloads are bytes; JSON parsing, the handlers and the handshake are not modelled, and an exception leaves the buffer as the source does.
- SessionCoordinator.Coordinator.RunSessionAction: the handler does not call back into the coordinator before its first await.
- RunCancellation.GuiRunRegistry.CancelRun: the callback is a count of its calls; callbacks do not re-enter the registry.
- QuoteSnapshots.QuoteSnapshotStore.GetNow: a build that throws before it returns a promise is not modelled; in the history store such a build is a rejected one.
- AlertRunner.RunAlertChecks: indicators computed from price history are given values, not computed; lines and reasons carry no wording; which failures concern the whole provider is given. Of what others do meanwhile only deletions are followed within a run; `AlertInterleaving` has the rest.
- PriceOutcomes.SymbolOutcome: no two symbols differ in case only, since such symbols share their quotes.
- PriceObservations.LoadPriceObservations: which symbols TradingView can serve and the order of the symbols are parameters.
- AlertStore.AlertTables.RecordAlertEvaluationResult: the observation is its value; the dedupe key is the tuple of its parts, not their joined text.
- AlertInterleaving.RulesStartOver: a runner's copy is of a revision that exists.
- AlertInterleaving.OneTriggerPerArmCycle: the older recording methods of the same class are not among the steps.
- ReportScheduler.ReportTables.RunDueReports: runs without interference; `ReportScheduler.RunIsExclusive` covers interleavings. How a report is generated is a parameter.
- NotificationDelivery.DeliveredOnce: calls one after another; `DeliveryOverlap.RunIsSilent` covers calls that overlap.
- NotificationDelivery.EveryPendingIsTried: no notification is added meanwhile; `DeliveryArrivals.TriedAmongArrivals` says when one is tried while others arrive.
- EventReducer.ReduceChatEvents: the sort is stable insertion; for events of several sessions the comparator is not an order and the result depends on the engine. Seen events are pairs of session and number, which their joined text determines.
- EventCommutation.EventsCommute: `tools`, `runs` and `thinking` are compared as maps, not by the order in which their keys were first set.
- ChatProjection.SessionEntriesToChatEvents: opaque values (tool arguments, details) are strings; attachment labels are taken as cleaned; which errors read like an abort is given.
- ChatWords.UserWordsAreShown: entry ids are distinct and none is another's with a prefix of the projection, as in `ChatComposition.OrphansStream`.
- ChatReload.ReloadShowsTranscript: for such ids too; with others two entries can write to one message, and `ChatStories.ShownMessageList` still says what is shown.
- WorkflowMeaning.StepsAreTold: the captions of analyst steps are given; entry ids are distinct, since the step map is keyed by them.
- ToolTagRoundTrip.RoundTrip: one condition per printed part, exact in `ToolTagRoundTrip.PartsReadBack`; a tag with an unreadable part is not shown to be lost as a whole.
- ToolTagRoundTrip.DecimalReadBack: status numbers are naturals; other spellings JavaScript reads as numbers are not.
- The heartbeat's order of steps, lost-run marking and the retry schedule of its caller: no state of their own.
- HTTP routes, the terminal interface, provider clients, the model runtime, session storage and SQLite itself: not part of this model.
- Dashboard projection, preferences, portfolio totals and votes: easy next to the above.
