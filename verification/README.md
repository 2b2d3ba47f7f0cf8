# ChronosMonitor, verified model

ChronosMonitor records runs of scheduled tasks, times out runs that stop giving
signs of life, notices schedules that miss a start, raises rate-limited alerts and
keeps live dashboards. This project models that behaviour in Dafny and proves what
it guarantees, including under concurrency.

There are three layers.

- **Rows and statements.** `TaskRuns` and `Schedules` say what one SQL statement
  does to a table; `Clock` spells out Go's 64-bit durations, which wrap when
  multiplied and saturate when instants are subtracted.
- **The program's objects.** `TaskStores`, `ScheduleStores`, `Broker`, `Handlers`,
  `Dispatch` with `RateLimit`, `Dashboards` and `Placeholders` have one class or method per object
  or loop of the program, each proved against the first layer. Database errors are
  parameters, and rows come back in any order.
- **Interleavings.** `TaskProtocol` and `ScheduleProtocol` let any number of
  handlers, sweeps, checks and retention passes interleave, one SQL statement a
  step; `Ledger` follows each row a sweep changes to its one publication;
  `Delivery` interleaves receives with publications. `TaskTiming` and
  `ScheduleTiming` put a clock beside the two protocols, with a bound on the
  delay from a clock reading to the statement that uses it; `PageProtocol` puts
  the publications and one dashboard page beside the first. `TaskSafety`,
  `TaskBounds`, `ScheduleSafety`, `ScheduleTiming` and `PageSafety` state the
  guarantees of all runs. `Sample` has the run that the failing runs are about.

What the code does not do, found while proving what it does:

- A sweep re-checks only the status of a row. A run deleted and started again
  under the same id while a sweep is under way can be timed out at once, and a
  report on a running run that straddles such a recreation stores a wrong
  duration. Neither can happen exactly if retention keeps finished rows for at
  least twice the longest delay from a clock reading to the statement that uses it
  (`TaskBounds.OnlySeenRunsTimeOut`, `TaskBounds.DurationsAreRightInTime`); with a
  retention of one day, that takes a delay of more than twelve hours. A report
  repeated on a run that ended a retention period ago can store a wrong duration
  however short the delay (`TaskBounds.RepeatAcrossRecreation`).
- A heartbeat that comes in between a sweep's snapshot and its update does not
  save the run (`TaskBounds.HeartbeatCanBeOverruled`); within one incarnation,
  nothing else can make a row that its sweep saw overdue not overdue at the update
  (`TaskSafety.HitIsOverdueUnlessBeaten`).
- The repository's README promises at most N alerts a minute. Windows start at
  alerts, so a minute can see 2N - 1, and the promise holds exactly for N = 1
  (`RateLimit.DocumentedLimitHoldsForOne`).
- Registering an interval together with an empty cron expression is accepted, but
  the row is then skipped by every check (`Handlers.AcceptedIsMonitored`).
- TTLs, intervals and retention periods too long for a 64-bit duration overflow;
  the exact ranges are in `Clock`.
- A dashboard can be left showing a finished run as running, when another
  handler's report falls between the re-read and the publication of a heartbeat
  (`PageSafety.StaleHeartbeatDisagrees`), and as timed out, when a report falls
  between a sweep's re-read and the publication of its list
  (`PageSafety.LateSweepDisagrees`). It is right exactly if the last event was
  re-read after the last write (`PageSafety.PageShowsLastSent`), and always if the
  last write of the run was made with nothing else of it on its way
  (`PageSafety.PageAgrees`, `PageSafety.PageAgreesWithoutOverlap`).
- Placeholder rewriting changes what a query binds exactly when a digit directly
  follows a `?` or a `$` (`Placeholders.RebindKeepsBindings`).

## Model

| member | source | states |
|---|---|---|
| Clock.TtlTestExact | internal/store/task_store.go:103 | the sweeper's 64-bit TTL test agrees with unbounded integers for every pair of instants if and only if the TTL is within 9223372036 seconds either way |
| Clock.AllowanceExact | internal/store/schedule_store.go:136-149 | interval plus grace is exact if and only if it is at most 9223372036 seconds |
| Clock.CutoffExact | internal/retention/retention.go:21-27 | the retention cutoff is exact if and only if it is at most 106751 days |
| TaskRuns.OverdueMeans | internal/store/task_store.go:57-59 | with a TTL in range, overdue means running and strictly longer than the TTL since the last heartbeat, or since the start without one |
| TaskRuns.DurationsMeasure | internal/store/task_store.go:48-53 | a finished row's duration is the whole milliseconds since its start, a timed-out row's those since its last heartbeat, or its start without one, and at least its TTL; nothing but status, end, duration and message changes |
| TaskRuns.OverdueMonotone | internal/store/task_store.go:102-105 | an overdue row stays overdue at every later time until it is written |
| TaskRuns.SweepAgainIsEmpty | internal/store/task_store.go:57-63 | after a sweep, a sweep at the same or an earlier time finds nothing and changes nothing |
| TaskRuns.SweepsCollapse | internal/store/task_store.go:64-126 | sweeps at increasing times with nothing between time out the rows one sweep at the last time would, and touch no others |
| TaskRuns.RetainedExactly | internal/store/task_store.go:128-141 | with finished_at null exactly on running rows, retention keeps every running row, deletes exactly the rows finished before the cutoff, and the counts add up |
| TaskRuns.PerformLawful | internal/store/task_store.go:22-55 | every operation keeps finished_at and duration null exactly on running rows |
| TaskStores.TaskStore.Create | internal/store/task_store.go:22-29 | inserts a row with the fields given, its start as first heartbeat and nothing of its end, or refuses a taken run id and changes nothing |
| TaskStores.TaskStore.Heartbeat | internal/store/task_store.go:31-37 | moves the heartbeat of a running row only, and reports not found otherwise |
| TaskStores.TaskStore.Finish | internal/store/task_store.go:39-55 | overwrites status, outcome and duration of whatever row is there, or reports not found |
| TaskStores.TaskStore.SweepTimeouts | internal/store/task_store.go:64-126 | times out exactly the running rows, with a TTL in range, whose last heartbeat, or start without one, is more than the TTL ago; each gets status timeout, the sweep's time, the whole milliseconds since then and the fixed message, nothing else changes, and the result lists them; after an error, part of the pass is done and the result misses at most the last changed row |
| TaskStores.TaskStore.TimeOutAll | internal/store/task_store.go:101-125 | the second loop does one simultaneous pass over the candidates, or part of one |
| TaskStores.TaskStore.Candidates | internal/store/task_store.go:65-99 | the scan loop remembers every running row with a TTL once, with its TTL and its heartbeat, or its start without one |
| TaskStores.TaskStore.MarkTimeout | internal/store/task_store.go:106-118 | the guarded update times out the row only if it is still running, and says whether it did |
| TaskStores.TaskStore.DeleteOlderThan | internal/store/task_store.go:132-141 | deletes exactly the rows finished before the cutoff and returns how many |
| Ledger.StrikeValid | internal/store/task_store.go:106-118 | a guarded update that changes a row puts exactly one new hit on its way |
| Ledger.FailValid | internal/sweeper/sweeper.go:40-44 | an error discards the sweep's list, none of which was published |
| Ledger.PublishValid | internal/sweeper/sweeper.go:50-53 | publishing the list sends out each hit once |
| Ledger.PublishedIffSound | internal/sweeper/sweeper.go:39-55 | no event goes out twice, and once all sweeps have ended a hit was published if and only if its sweep met no error |
| TaskProtocol.StepKeeps | internal/store/task_store.go:22-141 | every statement of every handler, sweep and retention pass keeps the protocol's invariant and moves each row incarnation forward only |
| TaskSafety.LifecycleNeverRegresses | internal/store/task_store.go:31-54 | between any two moments of any interleaved run, no incarnation returns to running, none that reported an outcome becomes a timeout, its start, TTL, name and source do not change, and finished runs get no heartbeat |
| TaskSafety.StepsAreStatements | internal/store/task_store.go:22-141 | each step of the interleaved protocol does to the rows what the matching statement of the sequential store does |
| TaskSafety.HitsAreTimeouts | internal/store/task_store.go:106-118 | the recorded hits are exactly the running-to-timeout steps of the table |
| TaskSafety.TimeoutOncePerRun | internal/sweeper/sweeper.go:39-55 | under any interleaving an incarnation is timed out at most once, by a sweep that saw a row of that run id running and overdue, the same incarnation or an earlier one; it is published at most once, and exactly once when its sweep meets no error |
| TaskSafety.HitIsOverdueUnlessBeaten | internal/store/task_store.go:101-118 | a sweep times out the incarnation it saw if and only if that was born before the snapshot, and then the row is not overdue at the update if and only if a heartbeat within the TTL came in since |
| TaskSafety.TimeoutEventNeverShowsRunning | internal/store/task_store.go:119-123 | the row a timeout event carries never shows the timed-out incarnation as running |
| TaskSafety.FinishLinearizes | internal/store/task_store.go:39-55 | read-then-update by Finish equals one atomic statement at its update unless the row was deleted, which gives not found, or recreated in between |
| TaskSafety.DurationsAreRight | internal/store/task_store.go:39-55 | what a completed Finish has stored is the row's own finished minus started in truncated milliseconds if and only if the start it read gives the same, which it does whenever the row is the incarnation read |
| TaskSafety.RetentionIsSafe | internal/store/task_store.go:128-141 | in every reachable state retention keeps every running row, deletes exactly the finished rows older than the cutoff, and the counts add up |
| TaskTiming.LifetimeExact | internal/retention/retention.go:21-27 | the time from a run's end to the earliest cutoff that deletes it is the configured days if and only if they are at most 106751 |
| TaskTiming.DoKeeps | internal/store/task_store.go:22-141 | every statement run within the delay of its clock reading keeps the bounds on what is in the table, read, under way or done |
| TaskBounds.OnlySeenRunsTimeOut | internal/store/task_store.go:106-118 | with a bounded delay from clock reading to statement, every timeout in every run is of the incarnation its sweep saw overdue if and only if retention lasts at least twice the delay |
| TaskBounds.DurationsAreRightInTime | internal/store/task_store.go:39-55 | reports on running runs, and on runs that ended at most a given age before, all store the right duration in every run if and only if retention lasts at least twice the delay and at least the age and one delay |
| TaskBounds.TimeoutsAreNoticed | internal/sweeper/sweeper.go:24-37 | with statements interleaved and delayed, no running row goes without a heartbeat, or without one since its start, for longer than its TTL, or the delay if longer, and the time since the last completed sweep read the clock |
| TaskBounds.TimeoutBoundIsReached | internal/sweeper/sweeper.go:24-37 | for every delay and time since that sweep, a run that reaches this bound |
| TaskBounds.FreshIncarnationCanBeTimedOut | internal/store/task_store.go:106-112 | for every retention shorter than twice the delay, a run consistent with the clock in which a sweep times out an incarnation it never saw and that is not overdue |
| TaskBounds.FinishAcrossRecreation | internal/store/task_store.go:41-53 | for every such retention, one in which a report on a running run stores a duration counted from an earlier incarnation's start |
| TaskBounds.RepeatAcrossRecreation | internal/store/task_store.go:41-53 | for longer retention too, one in which a report repeated long after the end stores a wrong duration |
| TaskBounds.HeartbeatCanBeOverruled | internal/store/task_store.go:101-112 | for every delay, one in which a run is timed out although its heartbeat came in before the update |
| Schedules.CronOverdue | internal/store/schedule_store.go:139-147 | in cron mode, due means some occurrence after the reference is a grace period ago, or without one, that the library's answer is |
| Schedules.IntervalOverdue | internal/store/schedule_store.go:148-150 | in interval mode, due means reference plus interval plus grace has passed |
| Schedules.DetectionLaws | internal/store/schedule_store.go:91-104 | later detection flags a superset, a repeat flags nothing, unparsable expressions are untouched |
| ScheduleStores.ScheduleStore.Upsert | internal/store/schedule_store.go:31-43 | stores the cadence, the grace period and the time as given, under a new name as ok and never seen, under a known one with its health and last start kept, and leaves all other rows alone |
| ScheduleStores.ScheduleStore.Touch | internal/store/schedule_store.go:48-54 | records a start and resets to ok, or does nothing without a row |
| ScheduleStores.ScheduleStore.Delete | internal/store/schedule_store.go:86-89 | removes the row or reports not found |
| ScheduleStores.ScheduleStore.DetectMissed | internal/store/schedule_store.go:105-182 | flags exactly the ok rows whose interval, or next occurrence after the last start or registration, and grace period have passed, changing health and updated_at only, and returns exactly those; after an error, part of the pass is done |
| ScheduleStores.ScheduleStore.FlagAll | internal/store/schedule_store.go:160-181 | the second loop does one simultaneous pass over the candidates, or part of one |
| ScheduleStores.ScheduleStore.Candidates | internal/store/schedule_store.go:119-158 | the scan loop remembers every ok row once, but for unparsable expressions, with its deadline counted from the last start, or from the registration without one |
| ScheduleStores.ScheduleStore.MarkMissed | internal/store/schedule_store.go:165-172 | the guarded update sets health and updated_at, and nothing else, only if the row is still ok, and says whether it did |
| ScheduleProtocol.StepKeeps | internal/store/schedule_store.go:31-182 | every statement of every handler and check keeps the invariant tying rows, log and alerts together |
| ScheduleProtocol.EpisodesGrow | internal/store/schedule_store.go:165-172 | a step that flags only ok rows, and heals only by a start, keeps detections an episode apart |
| ScheduleSafety.FlagsAreDetections | internal/store/schedule_store.go:165-172 | the flags in the log are exactly the ok-to-missed steps of the table |
| ScheduleSafety.StepsAreStatements | internal/store/schedule_store.go:31-182 | each step of the interleaved protocol does to the rows what the matching statement of the sequential store does |
| ScheduleSafety.MissedStartIsAlerted | internal/missedrun/detector.go:42-58 | for every interval, grace period and check from the deadline on, a run in which a registered name that never starts is flagged, re-read and published as missed |
| ScheduleSafety.OneDetectionPerEpisode | internal/store/schedule_store.go:91-95 | between two detections of a name, under any interleaving, there is a start of it or its removal and a new first registration |
| ScheduleSafety.OneAlertPerEpisode | internal/missedrun/detector.go:42-58 | every alert is for a detection of its own, so two alerts for a name are an episode apart, and each detection is published exactly once unless its check met an error |
| ScheduleSafety.AlertNamesTheFlagged | internal/store/schedule_store.go:172-179 | the re-read row that a published alert is built from is of the name that was flagged |
| ScheduleSafety.ReferenceIsNeverCorrupted | internal/store/schedule_store.go:132-135 | in every reachable state an ok row counts from its last start, or else from its last registration, never from the detection's own write of updated_at |
| ScheduleSafety.OnlyStartsHeal | internal/store/schedule_store.go:45-54 | a missed row stays missed, with its last start, until a start of its task or its removal |
| ScheduleTiming.MissedRunsAreNoticed | internal/missedrun/detector.go:27-40 | with statements interleaved and delayed, an ok row is past its deadline by less than the delay and the time since the last completed check read the clock, unless its cadence was changed since that check's snapshot without a new start |
| ScheduleTiming.ChangedExactly | internal/store/schedule_store.go:23-43 | a name is excepted from that bound exactly from a registration over a row that has started until its next start or the next completed check that sees it |
| ScheduleTiming.MissedBoundIsReached | internal/missedrun/detector.go:27-40 | for every delay and time since that check, a run that reaches this bound |
| Broker.Channel.Receive | internal/handlers/stream_handler.go:30-36 | takes the oldest buffered event |
| Broker.Hub.Subscribe | internal/broker/broker.go:37-46 | adds a new empty channel |
| Broker.Hub.Unsubscribe | internal/broker/broker.go:46-53 | removes and closes the channel, once |
| Broker.Hub.Publish | internal/broker/broker.go:58-69 | appends the event to the buffer of every subscriber with fewer than 16 events buffered, leaves a buffer of 16 as it is, and never sends on a closed channel |
| Delivery.SubscriberHistory | internal/broker/broker.go:39-69 | received plus buffered is an ordered, duplicate-free subsequence of what was published while subscribed, and offered is received plus buffered plus dropped |
| Delivery.StepsAreTheHubs | internal/broker/broker.go:37-69 | the interleaved model's subscribing, unsubscribing, start of a publication and receive do to the channels what the hub's operations do |
| Delivery.OfferIsTheHubs | internal/broker/broker.go:63-68 | an offer of the interleaved model does to the buffered events what the hub's non-blocking send does |
| Delivery.DropsOnlyWhenFull | internal/broker/broker.go:63-68 | in every reachable state a step drops an event, the one being published, if and only if it is its offer to a subscriber with 16 buffered |
| Delivery.NoDropsMeansEverything | internal/broker/broker.go:58-69 | a subscriber that dropped nothing has or will get every event offered, in order |
| Delivery.SubscribersAgreeOnOrder | internal/broker/broker.go:60-69 | no two subscribers get two events in opposite orders |
| RateLimit.RateBound | internal/notifier/dispatcher.go:74-93 | an interval of k windows holds at most (k + 1) * limit - 1 allowed alerts |
| RateLimit.RateBoundIsReached | internal/notifier/dispatcher.go:74-93 | for every limit, k and window above a nanosecond some stream reaches that bound |
| RateLimit.DocumentedLimitHoldsForOne | internal/notifier/dispatcher.go:12-16 | at most limit alerts per window length for every stream if and only if the limit is one |
| RateLimit.RefusedOnlyWhenFull | internal/notifier/dispatcher.go:83-90 | a refusal means limit alerts were allowed within the window length up to then |
| RateLimit.SparseStreamsLoseNothing | internal/notifier/dispatcher.go:75-92 | a stream with at most limit alerts in every window length loses none, and a limit of zero or less loses none ever |
| Dispatch.Dispatcher.AllowAlert | internal/notifier/dispatcher.go:74-93 | the method updates window start and count as the limiter analysed in RateLimit does, and allows without a limit, after a window or below the count |
| Dispatch.Dispatcher.Handle | internal/notifier/dispatcher.go:57-72 | a failure, timeout or missed schedule is sent if there is no limit, the window is over or its count is below the limit; starts, heartbeats and successes reach neither limiter nor notifier |
| Dispatch.Dispatcher.Run | internal/notifier/dispatcher.go:40-55 | draining the subscription asks the limiter for exactly the failures, timeouts and missed schedules, in order, and without a limit sends exactly those |
| Dispatch.AlertsAreBounded | internal/notifier/dispatcher.go:57-93 | whatever a dispatcher has handled, the alerts it sent obey the bound in every interval |
| Dispatch.LoopIsBounded | internal/notifier/dispatcher.go:40-55 | so does whatever a loop over a subscription leaves behind, with a clock that does not go back |
| Handlers.TaskHandler.Start | internal/handlers/task_handler.go:27-64 | stores and publishes one running row with the request's fields and the time as start and heartbeat, and touches the schedule if it can, or answers with an error and has no effect |
| Handlers.TaskHandler.Heartbeat | internal/handlers/task_handler.go:66-80 | moves the heartbeat of a running row to now and publishes that row, or answers with the right error and publishes nothing |
| Handlers.TaskHandler.Success | internal/handlers/task_handler.go:82-96 | ends the row as succeeded now, with its duration, and publishes that row as succeeded |
| Handlers.TaskHandler.Failed | internal/handlers/task_handler.go:98-112 | ends the row as failed now, with its duration and message, and publishes that row as failed |
| Handlers.TaskHandler.PublishLatest | internal/handlers/task_handler.go:132-141 | publishes the current row, or nothing when the re-read fails |
| Handlers.Sweeper.SweepOnce | internal/sweeper/sweeper.go:39-55 | one timeout event with the new row for each row the sweep changed, or after an error none |
| Handlers.Detector.CheckOnce | internal/missedrun/detector.go:42-89 | one missed event for each row the check flagged, with its name, status missed, the description and nothing else, or after an error none, with some of the overdue rows flagged |
| Handlers.Cleaner.CleanOnce | internal/retention/retention.go:50-61 | up to 106751 days, deletes exactly the rows that ended more than the configured days ago |
| Handlers.ScheduleHandler.Register | internal/handlers/schedule_handler.go:26-59 | stores the cadence as given, under a new name as ok and never seen, under a known one keeping health and last start; refuses exactly requests without a name, with a negative grace period, without or with two cadences, with an interval that is not positive or an expression that does not parse |
| Handlers.AcceptedIsMonitored | internal/handlers/schedule_handler.go:33-37 | an accepted registration stores exactly one mode and is looked at by checks if and only if it is not an interval with an empty expression |
| Handlers.RegisteredIsNoticed | internal/handlers/schedule_handler.go:26-59 | a new name registered with one cadence and not started is in the result of a later check if and only if the interval, or the first occurrence, and the grace period have passed |
| Dashboards.Dashboard.LoadInitial | web/src/composables/useTasks.js:22-35 | adds the listed runs, keeps the last task listed for each and leaves the others alone |
| Dashboards.OpenedByLoading | web/src/composables/useTasks.js:22-35 | loading any list of some of the server's rows, in any order, gives the page those rows |
| Dashboards.Dashboard.OnEvent | web/src/composables/useTasks.js:53-57 | replaces the task of a started, heartbeat, succeeded, failed or timeout event, and ignores missed-schedule events |
| Dashboards.EveryChangeIsPublished | internal/handlers/task_handler.go:48-54 | every operation that meets no error publishes the new row of every run it changes, and nothing else |
| Dashboards.StepsAreTheHandlers | internal/handlers/task_handler.go:27-141 | the steps of the model leave rows and buffer as the handlers and the hub do, the page receives in order, and with room for its events an operation loses no run |
| Dashboards.SilentIsTheHandlers | internal/handlers/task_handler.go:132-141 | a refused re-read, or a sweep that stops on an error, leaves the rows as the handlers do and the buffer alone, and loses only the runs it changed |
| Dashboards.DashboardAgrees | web/src/composables/useTasks.js:18-57 | in every state reached by whole operations, with or without errors and drops, the page with its buffered events applied shows the server's row of every known run but those whose last change was not sent or was dropped; unknown runs are unchanged, and no deleted run shows as running |
| PageProtocol.StepKeeps | internal/handlers/task_handler.go:132-141 | every statement, re-read, publication and receive keeps the invariant tying rows, writes, what is on its way and the page together |
| PageSafety.ServesTheProtocol | internal/store/task_store.go:22-141 | the server of the page's protocol takes exactly the steps of the interleaved task protocol |
| PageSafety.PageShowsLastSent | web/src/composables/useTasks.js:53-57 | under any interleaving, errors and drops, the page shows of each known run the row as left by the write that its last load or event was read after, and agrees with the server if and only if that was the last write or the rows are equal |
| PageSafety.OnlyFlightsAreLost | internal/handlers/task_handler.go:132-141 | a page can lose only a run that a call or a sweep has changed and not yet published |
| PageSafety.PageAgrees | internal/handlers/task_handler.go:132-141 | if a run's last write was made with nothing else of it on its way, and nothing of it was lost, the drained page is right about it |
| PageSafety.PageAgreesWithoutOverlap | internal/sweeper/sweeper.go:39-55 | so it is about every run whose calls do not overlap each other, nor a sweep between its update of that run and its publication, as long as nothing of it was lost |
| PageSafety.StaleHeartbeatDisagrees | internal/handlers/task_handler.go:66-80 | a run of the protocol, at rest and without losses, after which the page shows a finished run as running |
| PageSafety.LateSweepDisagrees | internal/sweeper/sweeper.go:50-53 | one after which it shows a run that succeeded as timed out |
| Placeholders.Rebind | internal/db/db.go:148-166 | the loop computes the rewriting for PostgreSQL and leaves the query alone for SQLite |
| Placeholders.RebindKeepsBindings | internal/db/db.go:146-166 | for any arguments, the rewritten query read by number binds as the original read by position, if and only if no digit follows a `?` or a `$` |
| Placeholders.RebindRoundTrip | internal/db/db.go:146-166 | writing the numbers back as `?` recovers the query if and only if no digit follows a `?` or a `$` |
| Placeholders.RebindInjective | internal/db/db.go:148-166 | no two such queries are rewritten alike |
| Placeholders.DecimalRoundTrip | internal/db/db.go:160 | placeholder numbers of any length read back as themselves |
| Placeholders.DecimalSpelled | internal/db/db.go:160 | they are spelled in decimal digits, most significant first, without leading zeros |

## Left out

- SQL drivers, connections, schema text, null scanning and transactions: a statement is an atomic operation on a map, and null and empty text are not told apart.
- HTTP binding beyond required fields, routing, API keys, static files and the wire format of the event stream.
- Schedules.CronOverdue: what the cron library answers for an expression with no occurrence ahead is not part of this model.
- RateLimit.RateBound: assumes a clock that does not go back and reads centuries past Go's zero time, where an unused limiter's window starts.
- TaskBounds.TimeoutsAreNoticed: takes TTLs within 9223372036 seconds either way, where the duration arithmetic is exact.
- TaskBounds.DurationsAreRightInTime: takes one bound on the delay for handlers and sweeps alike.
- ScheduleTiming.MissedRunsAreNoticed: takes cadences as registration accepts them, in range and always with a next occurrence.
- Dashboards.DashboardAgrees: takes each operation with its publication as atomic and nothing between loading and subscribing; PageSafety does not.
- PageSafety.PageAgrees: a page that loses its connection and subscribes again without loading is not part of this model.
- Handlers.Detector.CheckOnce: the wording of the alert text is a parameter.
- Webhook delivery and message formats: a sent alert is recorded, not delivered.
- The order and the 200-row limit of task lists: the page may have loaded any part of the table.
- The computed statistics, the failure list, schedule polling and all other display code of the web client.
- Instants outside the range of Go's time type: instants are unbounded integers.
- Goroutine start, tickers and cancellation: an environment takes the steps.
- Log lines, the Laravel client, the demo worker and configuration loading.
