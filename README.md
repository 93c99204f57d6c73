# Wake-up calls with weather: a Dafny model of the scheduling engine

The system is a Django service. It phones or texts its users at a time they choose, on a recurrence they choose, and it can read them the weather. This project models its engine:

- **Recurrence rule.** A `WakeUpCall` runs once, daily, weekly, on weekdays, on weekends, or on custom weekdays. `should_execute_today` decides whether the rule lets the call fire on the server's UTC date. `update_next_execution_time` computes the next fire time on the owner's wall clock and checks it against the end date.
- **Scheduler tick.** Once a minute, the tick picks the active calls that are due within a minute either side of now. For each call that fires today it writes a pending `WakeUpCallExecution` and queues it. It then recomputes every picked call.
- **Executor.** The executor marks an execution in progress and gathers the weather announcement. It then sends an SMS or places a voice call through the Twilio dispatcher. A failed voice call falls back to an SMS.
- **Snooze and bulk rescheduler.** The snooze task queues a snooze execution ten minutes out. The bulk rescheduler recomputes active calls that have no next fire time.
- **Mutation boundaries:**
  - the serializers' validation rules and their `update`;
  - the API's status endpoint and test-now endpoint;
  - the voice script and the handler for the caller's key press;
  - the web front end's status endpoint, which clears the next fire time on pause or cancel.
- **Twilio dispatcher.** Every send writes one `NotificationLog` row. The row starts pending and ends sent or failed. The webhook task reconciles delivery reports with the log. Cleanup tasks prune old rows.
- **Weather service.** It is a cache-first lookup with one cache row per zip code and one hour to live. Every request to the provider is logged. Periodic jobs delete expired rows and prefetch the zip codes of active calls.
- **Phone verification.** Send a six-digit code. At most three attempts, within ten minutes. A resend throttle of one minute, and a status query.

How the model is built:

- **Dates and time.** Dates are day numbers, with day 0 a Monday, so the weekday is the day number mod 7. Instants are whole seconds.
- **Zones.** The zone database is an abstract pair of conversions, local to UTC and back. A zone name the database does not know falls back to UTC.
- **Tables and queue.** Tables are maps or sequences held in classes (`WakeUpStore`, `TwilioService`, `WeatherService`, `PhoneVerificationService`). The Celery queue is a ghost list of the jobs handed to the workers.
- **Outside answers are parameters:**
  - the answers of the Twilio client (`ProviderReply`) and of the weather provider (`FetchOutcome`);
  - the verification code the random generator would produce;
  - the exceptions a tick's per-call `try` catches (a `Fault` per call).
- Each Python module is one Dafny module in the file of the same name.

Where the code and its comments disagree, the model follows the code:

- "Today" in the recurrence rule is the UTC date of `now`, whatever the owner's zone.
- So the seven-day scan of `update_next_execution_time` tests the same condition on every day. It yields local tomorrow or nothing (`WakeUpTasks.ScanFrequenciesOutcome`).
- Daily and weekly calls always skip to local tomorrow or next week.
- The resend throttle reads the creation time of the verification row. A reissue keeps that time, so a resend right after a reissue is not throttled (`AccountsServices.ResendNotThrottledAfterReissue`).
- Cancel by key press leaves the next fire time in place.
- A replayed delivery webhook sets `delivered_at` again, to the replay's time. So replays are idempotent in every column but that one (`NotificationTasks.ApplyEventIdempotent`).
- The serializer's two recomputes each read the clock. They agree unless the readings straddle a date change (`WakeUpSerializers.UpdateAcrossMidnight`).
- Pausing and reactivating through the web front end is history-free for the six known frequencies. An unrecognised frequency comes back with no next fire time (`WebViews.PauseLosesUnknownFrequencySchedule`).

## Model

| member | source | states |
|---|---|---|
| `WakeUpModels.GetWeatherZipCode` | wakeupcalls/wakeup_calls/models.py:72-74 | The call's own zip code when it is set, otherwise the owner's zip code. |
| `WakeUpModels.OnceFiresOnStartDate` | wakeupcalls/wakeup_calls/models.py:81-82 | A one-time call fires exactly on the UTC date that equals its start date. |
| `WakeUpModels.DailyAlwaysFires` | wakeupcalls/wakeup_calls/models.py:83-84 | A daily call fires on every date. Its start and end dates play no part. |
| `WakeUpModels.WeeklyFiresEverySevenDays` | wakeupcalls/wakeup_calls/models.py:85-86 | A weekly call fires exactly when today is its start date plus a whole number of weeks. That includes dates before the start, because the modulus is non-negative. |
| `WakeUpModels.WeekdaysAndWeekendsPartition` | wakeupcalls/wakeup_calls/models.py:87-90 | On every date exactly one of the weekday and weekend rules fires. |
| `WakeUpModels.CustomReadsTodaysFlag` | wakeupcalls/wakeup_calls/models.py:91-98 | A custom call answers with its flag for today's weekday, Monday first. An unrecognised frequency never fires. |
| `WakeUpModels.TodayIsTheUtcDate` | wakeupcalls/wakeup_calls/models.py:76-79 | Only the UTC date of `now` matters. Two instants on the same UTC day get the same answer. |
| `WakeUpModels.StartDateIrrelevant` | wakeupcalls/wakeup_calls/models.py:87-96 | For the weekday, weekend and custom rules, changing the start date never changes the answer. |
| `WakeUpModels.NewExecution` | wakeupcalls/wakeup_calls/models.py:112-132 | A freshly created execution is pending and belongs to the given call, time and snooze flag. |
| `Calendar.ResolveZone` | wakeupcalls/wakeup_calls/tasks.py:192-196 | A zone name the database rejects resolves to UTC. A known name resolves to that zone. |
| `WakeUpTasks.OnceCompletes` | wakeupcalls/wakeup_calls/tasks.py:203-206 | Recomputing a one-time call always leaves it completed, with no next fire time. |
| `WakeUpTasks.DailyWeeklyAdvance` | wakeupcalls/wakeup_calls/tasks.py:208-216 | A daily or weekly call moves to the owner's local date plus 1 or plus 7 days, at its time. If that instant's UTC date is after the end date, the call is completed with no next fire time instead. |
| `WakeUpTasks.ScanWeekOutcome` | wakeupcalls/wakeup_calls/tasks.py:218-244 | The seven-day scan yields its first day when the call fires on today's UTC date, and nothing otherwise. |
| `WakeUpTasks.ScanFrequenciesOutcome` | wakeupcalls/wakeup_calls/tasks.py:218-250 | A weekday, weekend or custom call moves to local tomorrow at its time when it fires today, subject to the end-date cutoff. Otherwise it keeps its status and gets no next fire time. |
| `WakeUpTasks.RecomputeStatusRule` | wakeupcalls/wakeup_calls/tasks.py:246-250 | A recompute changes the status only to completed, and then the call has no next fire time. A next fire time it leaves is never after the end date. |
| `WakeUpTasks.RecomputeIdempotent` | wakeupcalls/wakeup_calls/tasks.py:182-252 | Recomputing twice at the same moment gives the same result as recomputing once. |
| `WakeUpTasks.DailyWeeklyIdempotent` | wakeupcalls/wakeup_calls/tasks.py:208-216 | For daily and weekly calls, a second recompute lands on the same time or is cut off again. |
| `WakeUpTasks.ScanIdempotent` | wakeupcalls/wakeup_calls/tasks.py:218-244 | For the scan frequencies, a second recompute gives the same outcome. |
| `WakeUpTasks.NextFireKeepsWallClock` | wakeupcalls/wakeup_calls/tasks.py:198-216 | Whenever the target wall time exists in the owner's zone, the next fire time reads as the call's scheduled time on the owner's wall clock. Its date is local tomorrow, or a week from today for a weekly call. That holds on every day of a zone with DST, except where the call's time falls into a spring-forward gap. |
| `WakeUpTasks.DailyAcrossSpringForward` | wakeupcalls/wakeup_calls/tasks.py:198-212 | Take a zone that springs forward from 02:00 to 03:00 on 2024-03-10. It does not round-trip. A daily 07:00 call recomputed the day before moves to 11:00 UTC, which reads 07:00 on the owner's wall clock. |
| `WakeUpTasks.NextFireIsInTheFuture` | wakeupcalls/wakeup_calls/tasks.py:208-244 | In a zone with a fixed offset, any next fire time a recompute sets is strictly after `now`. |
| `WakeUpTasks.WeeklyNewYorkExample` | wakeupcalls/wakeup_calls/tasks.py:213-216 | Take a weekly 07:00 call for a New York owner that started 2024-01-01. Ticked at 2024-01-08T11:59Z, it fires, and its next fire is 2024-01-15T12:00Z. |
| `WakeUpTasks.ScanForNextDay` | wakeupcalls/wakeup_calls/tasks.py:220-244 | The `for … else` loop returns the scan's first qualifying day from local tomorrow on, or None after seven days. |
| `WakeUpTasks.ComputeSchedule` | wakeupcalls/wakeup_calls/tasks.py:189-250 | The status and next fire time the body computes are those of the recurrence rule. |
| `WakeUpTasks.UpdateNextExecutionTime` | wakeupcalls/wakeup_calls/tasks.py:182-252 | Only the call's status and next fire time change, to the rule's result in the owner's zone. No other table changes. |
| `WakeUpTasks.WithSchedule` | wakeupcalls/wakeup_calls/tasks.py:203-252 | Saving a schedule sets the status and next fire time and leaves every other column of the call as it was. |
| `WakeUpTasks.RecomputeIgnoresNext` | wakeupcalls/wakeup_calls/tasks.py:198-250 | For every known frequency, a recompute does not depend on the next fire time stored before it. An unrecognised frequency keeps that value, subject only to the end-date cutoff. |
| `WakeUpTasks.RecomputeReadsOnlyDates` | wakeupcalls/wakeup_calls/tasks.py:189-250 | A recompute reads the clock only through the owner's local date and the UTC date. Two instants that agree on both give the same result. |
| `WakeUpTasks.RecomputeAfterRecompute` | wakeupcalls/wakeup_calls/tasks.py:198-250 | A second recompute at any instant sets the next fire time a single recompute at that instant would. |
| `WakeUpTasks.RecomputeClosedForms` | wakeupcalls/wakeup_calls/tasks.py:198-250 | For a known frequency, the next fire time depends only on a few inputs: the recurrence, the end date, whether the call fires today and the owner's local date. The status depends on the call's status as well. |
| `WakeUpTasks.SameRuleToday` | wakeupcalls/wakeup_calls/models.py:76-98 | Two calls with the same recurrence and start date fire on the same days. |
| `WakeUpTasks.Selected` | wakeupcalls/wakeup_calls/tasks.py:30-36 | The tick picks exactly the active calls whose next fire time lies within one minute of `now`, either side. |
| `WakeUpTasks.TickedCall` | wakeupcalls/wakeup_calls/tasks.py:40-61 | A call's turn never changes its owner. The turn recomputes the call unless an earlier step of the turn raised. |
| `WakeUpTasks.TickedCalls` | wakeupcalls/wakeup_calls/tasks.py:40-61 | The calls table after some turns has the same ids and owners. Only calls that have had their turn may differ. |
| `WakeUpTasks.TurnSets` | wakeupcalls/wakeup_calls/tasks.py:43-53 | A call gets a row exactly when it fires today and the create does not raise. Its row is queued exactly when the enqueue does not raise either. Every queued call got a row. |
| `WakeUpTasks.JobsCount` | wakeupcalls/wakeup_calls/tasks.py:52-53 | With no call repeated, the tick queues exactly one job per call whose row was enqueued. |
| `WakeUpTasks.TickCountsEnqueued` | wakeupcalls/wakeup_calls/tasks.py:38-64 | The count the tick returns is the number of picked calls whose execution was enqueued. The queue grows by exactly that many jobs. |
| `WakeUpTasks.TickOne` | wakeupcalls/wakeup_calls/tasks.py:40-61 | One turn writes at most one pending row, for the pre-tick next fire time, and queues it. It then recomputes the call. A fault stops only this turn. |
| `WakeUpTasks.TickStart` | wakeupcalls/wakeup_calls/tasks.py:38-40 | Before the first turn, nothing has changed. |
| `WakeUpTasks.NotYetTaken` | wakeupcalls/wakeup_calls/tasks.py:40-43 | A call that has not had its turn is as the tick found it. It still has its next fire time. |
| `WakeUpTasks.TurnStep` | wakeupcalls/wakeup_calls/tasks.py:40-61 | One turn extends the tick's running account. The rows, jobs, count and calls grow by exactly that call's share. |
| `WakeUpTasks.TakeTurn` | wakeupcalls/wakeup_calls/tasks.py:40-61 | One turn of the loop keeps the tick's running account. |
| `WakeUpTasks.ProcessScheduledWakeupCalls` | wakeupcalls/wakeup_calls/tasks.py:19-64 | Every picked call gets its turn. Each call that fires gets one pending row with `scheduled_for` equal to its old next fire time. The queue gets one job per row enqueued, and the count equals those jobs. The calls are recomputed, and a failing call does not stop the rest. |
| `WakeUpTasks.Settled` | wakeupcalls/wakeup_calls/tasks.py:119-168 | Settling leaves the execution's call, times, snooze flag and weather as they were. |
| `WakeUpTasks.Started` | wakeupcalls/wakeup_calls/tasks.py:88-100 | A started execution is in progress, with `executed_at` set to now. |
| `WakeUpTasks.SmsExecutionOutcome` | wakeupcalls/wakeup_calls/tasks.py:108-127 | An SMS call writes one log row. It ends completed with the provider's sid and status exactly when the send succeeds, and failed with the send's error otherwise. |
| `WakeUpTasks.CallExecutionOutcome` | wakeupcalls/wakeup_calls/tasks.py:129-168 | An accepted voice call completes, with its sid, in one row. A failed one falls back to an SMS under the next row and ends in one of two ways. It completes with the SMS sid and "Voice call failed, SMS sent instead: …", or it fails with both errors. |
| `WakeUpTasks.UnknownMethodStaysInProgress` | wakeupcalls/wakeup_calls/tasks.py:108-129 | A contact method that is neither SMS nor call sends nothing, and the execution is left as started. |
| `WakeUpTasks.DemoExecutionCompletes` | wakeupcalls/wakeup_calls/tasks.py:108-145 | A demo call always completes. The sid is `demo_sms_<id>` with status "sent", or `demo_call_<id>` with status "initiated". |
| `WakeUpTasks.WakeUpMessageShapes` | wakeupcalls/wakeup_calls/tasks.py:105-110 | After stripping, the SMS text is the bare greeting when there is no weather and no custom text. With only a weather line, it is the greeting, a space and that line. |
| `WakeUpTasks.GatherWeather` | wakeupcalls/wakeup_calls/tasks.py:95-102 | Weather is skipped when the call does not want it. A call with no zip code gets the no-zip sentence. Otherwise it takes one lookup for the announcement and a second for the stored data. |
| `WakeUpTasks.DispatchSms` | wakeupcalls/wakeup_calls/tasks.py:108-127 | The SMS branch writes exactly one log row and settles the execution from its result. |
| `WakeUpTasks.DispatchCall` | wakeupcalls/wakeup_calls/tasks.py:129-168 | The voice branch writes one row, or two when it falls back to SMS. The execution is settled from those results. |
| `WakeUpTasks.FallBackToSms` | wakeupcalls/wakeup_calls/tasks.py:146-168 | After a failed voice call, an SMS of the same text goes out under the next log id. The execution takes its result and notes the voice error. |
| `WakeUpTasks.Dispatch` | wakeupcalls/wakeup_calls/tasks.py:108-168 | Dispatching along the contact method adds exactly the delivery's rows to the log and settles the execution from its results. |
| `WakeUpTasks.RunExecution` | wakeupcalls/wakeup_calls/tasks.py:88-168 | Between the two saves, the execution is started, given its weather and settled. The weather tables and logs change as the lookups and sends say. |
| `WakeUpTasks.FinishExecution` | wakeupcalls/wakeup_calls/tasks.py:93-179 | The settled execution is saved, and the call's `last_executed` becomes now. |
| `WakeUpTasks.ExecuteFound` | wakeupcalls/wakeup_calls/tasks.py:83-179 | A known execution ends as its settled form. Only its row, its call's `last_executed`, the weather tables and the notification logs change. |
| `WakeUpTasks.ExecuteWakeupCall` | wakeupcalls/wakeup_calls/tasks.py:67-179 | An unknown execution id changes nothing. A known one is executed as `ExecuteFound` states. |
| `WakeUpTasks.SnoozeCountdown` | wakeupcalls/wakeup_calls/tasks.py:286-298 | There is a countdown exactly when the snooze time is still ahead. It is positive and ends at the snooze time. |
| `WakeUpTasks.ScheduleSnoozeCall` | wakeupcalls/wakeup_calls/tasks.py:255-302 | An unknown original execution changes nothing. Otherwise one pending snooze row for the original's call at the snooze time is written and queued, with a countdown when the time is still ahead. |
| `WakeUpTasks.Rescheduled` | wakeupcalls/wakeup_calls/tasks.py:330-334 | Rescheduling keeps the table's ids and every call's owner. |
| `WakeUpTasks.ScheduleNextWakeupCalls` | wakeupcalls/wakeup_calls/tasks.py:321-339 | Exactly the active calls with no next fire time are recomputed, and the rest are untouched. The count is their number. |
| `WakeUpTasks.RescheduleNone` | wakeupcalls/wakeup_calls/tasks.py:327-330 | Before the loop, the table is as it was. |
| `WakeUpTasks.RescheduleOne` | wakeupcalls/wakeup_calls/tasks.py:331-334 | One turn recomputes one more call and adds one to the count. |
| `WakeUpTasks.RescheduleStep` | wakeupcalls/wakeup_calls/tasks.py:331-334 | One more call recomputed replaces only its row. |
| `WakeUpTasks.RescheduleAddsNoUnscheduled` | wakeupcalls/wakeup_calls/tasks.py:321-339 | Every call left without a next fire time afterwards was already in that state before. |
| `WakeUpTasks.RescheduleCompletesOnce` | wakeupcalls/wakeup_calls/tasks.py:332-333 | An unscheduled one-time call ends completed and leaves the unscheduled set. |
| `WakeUpSerializers.ValidateCall` | wakeupcalls/wakeup_calls/serializers.py:29-57 | Valid data comes back unchanged. |
| `WakeUpSerializers.ValidateCallAccepts` | wakeupcalls/wakeup_calls/serializers.py:29-57 | An update is accepted exactly when two rules hold. A custom frequency must come with a selected day. An end date sent with a start date must lie after it. The custom-day error is reported first. |
| `WakeUpSerializers.ValidateCallLooksOnlyAtSentFields` | wakeupcalls/wakeup_calls/serializers.py:31-52 | A partial update without the frequency, or without one of the dates or with a null end date, escapes the corresponding rule. |
| `WakeUpSerializers.ValidateSchedule` | wakeupcalls/wakeup_calls/serializers.py:157-176 | Valid schedule data comes back unchanged. |
| `WakeUpSerializers.ValidateScheduleAccepts` | wakeupcalls/wakeup_calls/serializers.py:157-176 | A schedule update is accepted exactly when it is not custom or has a selected day. |
| `WakeUpSerializers.ValidateScheduleHasNoDateRule` | wakeupcalls/wakeup_calls/serializers.py:157-176 | The schedule serializer accepts an end date on or before the start date. |
| `WakeUpSerializers.ValidateContact` | wakeupcalls/wakeup_calls/serializers.py:185-189 | Valid contact data comes back unchanged. |
| `WakeUpSerializers.ValidateContactAccepts` | wakeupcalls/wakeup_calls/serializers.py:185-189 | The contact serializer refuses exactly a phone number that is sent empty. |
| `WakeUpSerializers.ParseStatus` | wakeupcalls/wakeup_calls/serializers.py:128-137 | A parsed status is one of active, paused and cancelled. |
| `WakeUpSerializers.ParseStatusAccepts` | wakeupcalls/wakeup_calls/serializers.py:131-137 | Exactly the three words are accepted, and each parses to its own status. |
| `WakeUpSerializers.ApplyKeepsReadOnlyFields` | wakeupcalls/wakeup_calls/serializers.py:25-27 | Writing the fields never touches the owner, `last_executed` or `next_execution`. The status becomes the one sent, if any. |
| `WakeUpSerializers.ApplyIdempotent` | wakeupcalls/wakeup_calls/serializers.py:69-71 | Writing the same fields twice is the same as writing them once. |
| `WakeUpSerializers.ApplyNothingNew` | wakeupcalls/wakeup_calls/serializers.py:69-71 | Sending nothing, or the call's own values, leaves the call unchanged. |
| `WakeUpSerializers.ApplyResendRoundTrip` | wakeupcalls/wakeup_calls/serializers.py:69-71 | Resending every field of an updated call reproduces that update. |
| `WakeUpSerializers.UpdateRecomputesOnce` | wakeupcalls/wakeup_calls/serializers.py:74-94 | When both recomputes of `update` run and their two clock readings fall on the same local and UTC date, the second recompute changes nothing. |
| `WakeUpSerializers.UpdateAcrossMidnight` | wakeupcalls/wakeup_calls/serializers.py:74-94 | The two clock readings matter. A paused daily call reactivated with a new time at 23:59:59 UTC, with the second reading at midnight, ends on the day after tomorrow. One recompute at the first reading would give tomorrow. |
| `WakeUpSerializers.UpdateRecomputesOnReactivation` | wakeupcalls/wakeup_calls/serializers.py:74-76 | Without schedule fields, an update recomputes exactly on a change from not active to active, at the first clock reading. A pause or cancel keeps the old next fire time. |
| `WakeUpSerializers.UpdateRecomputesOnScheduleChange` | wakeupcalls/wakeup_calls/serializers.py:79-85 | Any schedule field sent makes the next fire time that of the rule for the new schedule at the later clock reading, whether or not a reactivation recomputed first. Nothing but the status and next fire time differs from the written fields. |
| `WakeUpSerializers.UpdateCall` | wakeupcalls/wakeup_calls/serializers.py:64-87 | Only the one call changes: to its written fields, then the reactivation recompute at the first clock reading and the schedule recompute at the second. |
| `WakeUpSerializers.HandleChanges` | wakeupcalls/wakeup_calls/serializers.py:73-94 | Once the fields are saved, the call is recomputed on reactivation, at the first reading, and then on a schedule change, at the second. Otherwise it is left as saved. |
| `WakeUpViews.GreetingForSnooze` | wakeupcalls/wakeup_calls/views.py:234-239 | The greeting opens with "Rise and shine!" exactly for a snooze execution, and with "Good morning!" exactly otherwise. |
| `WakeUpViews.ScriptShape` | wakeupcalls/wakeup_calls/views.py:234-272 | The script opens with the greeting. The weather line comes second when there is one, and the custom message comes just before the menu. It ends with the menu and "Have a great day!". |
| `WakeUpViews.TwimlWakeupCall` | wakeupcalls/wakeup_calls/views.py:227-282 | An unknown execution gets the fallback script and changes nothing. Otherwise the script announces the weather, via one lookup, exactly when the execution stored weather. |
| `WakeUpViews.ChooseBranches` | wakeupcalls/wakeup_calls/views.py:307-338 | Key 1 snoozes and key 2 cancels. "reschedule" in the speech counts only when neither key was pressed. The handler's own branches never produce the fallback reply. |
| `WakeUpViews.RespondedTouchesLittle` | wakeupcalls/wakeup_calls/views.py:297-338 | The handler writes one execution row and, of the call, at most the status. A cancel by key keeps the next fire time. Only key 1 queues a job. The stored answer starts with the digits or the lowercased speech. |
| `WakeUpViews.SnoozeRunsInTenMinutes` | wakeupcalls/wakeup_calls/views.py:313-314 | The snooze job queued at `now` runs its execution 600 seconds later. |
| `WakeUpViews.RecordAnswer` | wakeupcalls/wakeup_calls/views.py:303-318 | The execution gets the answer, with the snooze note after key 1, and the posted form. Nothing else changes. |
| `WakeUpViews.RespondToCall` | wakeupcalls/wakeup_calls/views.py:292-348 | An unknown execution gets the fallback reply and changes nothing. Otherwise the reply is the chosen branch, and the tables change as `Responded` says: answer recorded, snooze queued, or call cancelled. |
| `WakeUpViews.SnoozeNeverConfirmedAsWritten` | wakeupcalls/wakeup_calls/models.py:128 | As written, the stored answer for key 1 is 22 characters, more than the column holds. So the caller hears the fallback reply instead of the snooze confirmation. |
| `WakeUpViews.LongSpeechLostAsWritten` | wakeupcalls/wakeup_calls/views.py:298-305 | As written, a spoken "reschedule" answer over 20 characters gets the fallback reply. |
| `WakeUpViews.AsWrittenAgreesWhenFitting` | wakeupcalls/wakeup_calls/views.py:303-348 | Wherever the stored answer fits its column, the handler as written and as intended give the same reply. |
| `WakeUpViews.WithStatusRecomputesOnlyOnReactivation` | wakeupcalls/wakeup_calls/views.py:111-119 | The status endpoint recomputes only on a change from not active to active. Otherwise only the status changes, and the old next fire time stays. |
| `WakeUpViews.UpdateWakeupCallStatus` | wakeupcalls/wakeup_calls/views.py:98-128 | Another user's or a missing call is not found, and a bad status word is a bad request. Neither changes anything. Otherwise the table changes exactly as `WithStatus` says. |
| `WakeUpViews.TestWakeupCallNow` | wakeupcalls/wakeup_calls/views.py:372-392 | The owner's call gets one new pending execution, with scheduled-for and executed-at both now, queued to run at once. Otherwise nothing changes. |
| `WebViews.PauseOrCancelClears` | wakeupcalls/web/views.py:358-360 | After a pause or cancel, the call has that status and no next fire time. |
| `WebViews.ActivateRecomputes` | wakeupcalls/web/views.py:351-357 | A change from not active to active takes the rule's status and next fire time. Active set to active leaves the call untouched. |
| `WebViews.PauseThenReactivate` | wakeupcalls/web/views.py:351-360 | Take a call with a known frequency. Pausing or cancelling it and later reactivating it leaves it as a reactivation at that later instant would without the pause. |
| `WebViews.PauseLosesUnknownFrequencySchedule` | wakeupcalls/web/views.py:351-360 | With an unrecognised frequency the round trip depends on history. A scheduled active call that is paused and reactivated comes back with no next fire time. Setting the same call active directly keeps its fire time. |
| `WebViews.ScheduleOverwritesNext` | wakeupcalls/wakeup_calls/tasks.py:252 | Saving a schedule overwrites whatever next fire time the call had. |
| `WebViews.OtherStatusWritten` | wakeupcalls/web/views.py:350-360 | Any other accepted status is written as is, without a recompute. |
| `WebViews.StatusAppliedFrame` | wakeupcalls/web/views.py:350-360 | The endpoint changes only the call's status and next fire time. |
| `WebViews.ReactivationFrame` | wakeupcalls/web/views.py:356-357 | A reactivation changes only the status and next fire time. |
| `WebViews.ClearingFrame` | wakeupcalls/web/views.py:358-360 | A pause or cancel changes only the status and next fire time. |
| `WebViews.WrittenFrame` | wakeupcalls/web/views.py:351-353 | Any other status changes only the status. |
| `WebViews.UpdateWakeupCallStatus` | wakeupcalls/web/views.py:329-380 | A missing call or another user's call gives the 500 reply. A word outside active, paused and cancelled gives the 400 error. Neither changes anything. Otherwise the call becomes `StatusApplied`, and the reply carries its message and new next fire time. |
| `WebViews.SetStatus` | wakeupcalls/web/views.py:350-360 | After the whitelist, only the one call changes, to `StatusApplied`. |
| `WebViews.Reactivate` | wakeupcalls/web/views.py:351-357 | The status is saved as active, and then the call is recomputed. |
| `WebViews.Clear` | wakeupcalls/web/views.py:351-360 | The status is saved, and then the next fire time is cleared. |
| `NotificationServices.PendingLog` | wakeupcalls/notifications/services.py:41-48 | A send's log row starts pending, with no sid. |
| `NotificationServices.SettleOutcome` | wakeupcalls/notifications/services.py:50-120 | A send succeeds exactly on the demo path or when the configured client accepts. The row ends sent exactly on success and failed otherwise. An error's text is stored on the row. The provider's sid and status reach both the row and the result. The demo sid is the prefix and the row id. Only the four delivery columns change. |
| `NotificationServices.ErrorPrefixes` | wakeupcalls/notifications/services.py:97-120 | A Twilio exception is reported as "Twilio error: …" and any other exception as "Unexpected error: …". |
| `NotificationServices.DemoSidsDistinct` | wakeupcalls/notifications/services.py:50-61 | Two different rows never get the same synthetic demo sid. |
| `NotificationServices.TwilioService.CreateLog` | wakeupcalls/notifications/services.py:41-48 | A row is written under a fresh id, and no other row changes. |
| `NotificationServices.TwilioService.SettleLog` | wakeupcalls/notifications/services.py:50-120 | The row is settled as `Settle` says, and only that row changes. |
| `NotificationServices.TwilioService.SendSms` | wakeupcalls/notifications/services.py:27-120 | Exactly one new row, settled as `SmsDispatch` says, and the matching result. |
| `NotificationServices.TwilioService.MakeCall` | wakeupcalls/notifications/services.py:122-215 | Exactly one new row, settled as `CallDispatch` says, with `demo_call_` sids that report "initiated". |
| `NotificationServices.TwilioService.SendVerificationSms` | wakeupcalls/notifications/services.py:217-253 | In demo mode, one verification row is settled as sent with a `demo_verification_` sid. Otherwise that row stays pending and `send_sms` writes a second row with the demo flag off. |
| `NotificationServices.TwilioService.CheckIfNumberVerified` | wakeupcalls/notifications/services.py:338-357 | True exactly when the client is configured, its caller-id list could be read, and the list contains the number. |
| `NotificationTasks.Get` | wakeupcalls/notifications/tasks.py:80-81 | A payload value is present exactly when its key is. |
| `NotificationTasks.FirstSet` | wakeupcalls/notifications/tasks.py:55-56 | Python's `a or b` on two payload keys: the first value when it is non-empty, otherwise the second as it is. |
| `NotificationTasks.WebhookSid` | wakeupcalls/notifications/tasks.py:55-60 | A sid that is found is never empty. |
| `NotificationTasks.SidChoice` | wakeupcalls/notifications/tasks.py:55-60 | The sid is the message sid when that is non-empty. Otherwise a sid exists exactly when a non-empty call sid does. |
| `NotificationTasks.ApplyEvent` | wakeupcalls/notifications/tasks.py:75-84 | A matched row always stores the event word as its Twilio status. |
| `NotificationTasks.ApplyEventMapping` | wakeupcalls/notifications/tasks.py:75-84 | "delivered" and "sent" mark the row delivered at now. "failed" and "undelivered" mark it failed, with the payload's error code and message. Other words change nothing else. The sid, time and recipient are kept. |
| `NotificationTasks.ApplyEventIdempotent` | wakeupcalls/notifications/tasks.py:75-84 | A webhook redelivered at any later instant leaves the row as one delivery at that instant would. A "delivered" or "sent" replay moves only `delivered_at`, and every other event word replays as a no-op. |
| `NotificationTasks.ProcessTwilioWebhook` | wakeupcalls/notifications/tasks.py:46-96 | Without a sid nothing is written. Otherwise one webhook row is written. A single matching log row is updated and linked, and no match changes no log. The row ends processed in both cases. Several matches raise and leave the row unprocessed. |
| `NotificationTasks.CleanupOldNotificationLogs` | wakeupcalls/notifications/tasks.py:14-27 | Exactly the log rows created more than 90 days ago are deleted, and their number is returned. |
| `NotificationTasks.CleanupOldWebhookLogs` | wakeupcalls/notifications/tasks.py:30-43 | Exactly the webhook rows created more than 30 days ago are deleted, and their number is returned. |
| `NotificationTasks.CleanupPartitions` | wakeupcalls/notifications/tasks.py:20-27 | Every row either survives or is counted as deleted, never both. The two numbers add up to the table's size. |
| `WeatherModels.GetTemperatureFahrenheit` | wakeupcalls/weather/models.py:28-33 | The temperature is `main.temp` of the stored payload, or None for an empty payload. |
| `WeatherModels.GetDescription` | wakeupcalls/weather/models.py:35-42 | There is a description exactly when the weather list is non-empty. It is the first entry, title-cased, of the same length. |
| `WeatherModels.FormattedWeatherFallback` | wakeupcalls/weather/models.py:44-56 | The sentence is the fallback exactly when neither a temperature nor a description is set. A temperature of 0 and an empty description count as unset. |
| `WeatherModels.FormattedWeatherDescription` | wakeupcalls/weather/models.py:49-54 | A set description opens the sentence. |
| `WeatherModels.FormattedWeatherTemperature` | wakeupcalls/weather/models.py:49-52 | A set temperature is stated in whole degrees Fahrenheit. |
| `WeatherServices.CachedWeather` | wakeupcalls/weather/services.py:82-93 | A row that is found belongs to the zip and is live. None is returned exactly when no row of the zip is live. |
| `WeatherServices.Refreshed` | wakeupcalls/weather/services.py:192-211 | Afterwards, the zip's only row is the new one, expiring an hour from now. Every other zip's rows are kept. |
| `WeatherServices.NoZipNoEffect` | wakeupcalls/weather/services.py:35-37 | An empty zip code returns None, and nothing is read, fetched or logged. |
| `WeatherServices.CacheHitIsSilent` | wakeupcalls/weather/services.py:40-44 | An unforced lookup with a live row returns that row's data and writes nothing. |
| `WeatherServices.FetchLogsOnce` | wakeupcalls/weather/services.py:95-190 | Without an API key, nothing is logged and None is returned. With a key, exactly one log row is appended for the zip at now. Only a 200 returns data, and only a 200 changes the cache. |
| `WeatherServices.FetchLogStatus` | wakeupcalls/weather/services.py:122-188 | The logged status is success exactly for a 200 and rate-limited exactly for a 429. It is an error otherwise. |
| `WeatherServices.LookupKeepsOnePerZip` | wakeupcalls/weather/services.py:24-47 | Every lookup keeps the cache at no more than one row per zip code. |
| `WeatherServices.RefreshedKeepsOnePerZip` | wakeupcalls/weather/services.py:201-211 | Deleting the zip's rows and then inserting one keeps one row per zip code. |
| `WeatherServices.FilterKeepsOnePerZip` | wakeupcalls/weather/services.py:203-204 | Deleting any set of rows keeps one row per zip code. |
| `WeatherServices.FetchThenHit` | wakeupcalls/weather/services.py:122-137 | After a successful fetch, for the next hour every unforced lookup of the zip is served from the cache. Those lookups make no request and write no log. |
| `WeatherServices.ExpiryBoundary` | wakeupcalls/weather/models.py:24-26 | A live row is never expired. A row expiring exactly now is neither served nor expired. |
| `WeatherServices.AnnouncementFallback` | wakeupcalls/weather/services.py:59-62 | The announcement is the plain fallback exactly when there is no weather. |
| `WeatherServices.AnnouncementTemperature` | wakeupcalls/weather/services.py:66-74 | With weather, a set temperature is named in whole degrees Fahrenheit. |
| `WeatherServices.AnnouncementWithoutTemperature` | wakeupcalls/weather/services.py:75-76 | With weather but no temperature, the answer is the greeting-prefixed fallback. A temperature of 0 counts as none. |
| `WeatherServices.AnnouncementOpensWithG` | wakeupcalls/weather/services.py:64-76 | Every announcement built from weather opens with the "Good morning!" greeting. |
| `WeatherServices.WeatherService.CacheWeatherData` | wakeupcalls/weather/services.py:192-215 | The cache becomes `Refreshed`, and the logs are untouched. |
| `WeatherServices.WeatherService.FetchWeatherData` | wakeupcalls/weather/services.py:95-190 | The return value and both tables are those of `Fetch` for the provider's outcome. |
| `WeatherServices.WeatherService.GetWeather` | wakeupcalls/weather/services.py:24-47 | The return value and both tables are those of `Lookup`. |
| `WeatherServices.WeatherService.GetFormattedWeatherAnnouncement` | wakeupcalls/weather/services.py:49-80 | The announcement for what `get_weather` returned, with that lookup's effect on the tables. |
| `WeatherTasks.CleanupExpiredWeatherCache` | wakeupcalls/weather/tasks.py:14-24 | Exactly the rows that expired before now are deleted, and their number is returned. The logs are untouched. |
| `WeatherTasks.CleanupKeepsLookups` | wakeupcalls/weather/tasks.py:19-21 | The cleanup never changes what a lookup at now or later finds. |
| `WeatherTasks.CleanupOldWeatherApiLogs` | wakeupcalls/weather/tasks.py:27-40 | Exactly the log rows written more than 30 days ago are deleted, and their number is returned. The cache is untouched. |
| `WeatherTasks.ApiLogCleanupKeeps` | wakeupcalls/weather/tasks.py:33-37 | A log row survives exactly when it is at most 30 days old. |
| `WeatherTasks.UniqueZipCodes` | wakeupcalls/weather/tasks.py:52-63 | The zip set holds, for each active weather-enabled call, its own zip if set, else its owner's zip if set. It never holds an empty zip. |
| `WeatherTasks.PrefetchZipsMembers` | wakeupcalls/weather/tasks.py:52-63 | A zip is prefetched exactly when it is non-empty and some active, weather-enabled call announces it. |
| `WeatherTasks.ForcedLookup` | wakeupcalls/weather/tasks.py:68-70 | A forced lookup returns weather exactly when the fetch succeeds. With a key it logs once. Only a 200 refreshes the cache. |
| `WeatherTasks.PrefetchStep` | wakeupcalls/weather/tasks.py:66-73 | One more zip fetched extends the prefetch's account: the count, the appended log row and the cache. |
| `WeatherTasks.CacheStepRefresh` | wakeupcalls/weather/services.py:201-211 | A zip whose forced fetch wrote the cache now has exactly its fresh row. Every other zip's rows are kept, and no other row appears. |
| `WeatherTasks.CacheStepKeep` | wakeupcalls/weather/tasks.py:67-70 | A zip whose fetch did not write the cache leaves the cache's account as it was. |
| `WeatherTasks.PrefetchOne` | wakeupcalls/weather/tasks.py:67-73 | One turn of the fetching loop keeps the account. |
| `WeatherTasks.FetchEach` | wakeupcalls/weather/tasks.py:65-76 | The count is the number of zips that returned weather. With the key set, each zip adds one log row. Each zip that got a 200 has exactly its fresh row, its stale rows gone. Every other row is kept, and no other row appears. |
| `WeatherTasks.PrefetchWeatherForActiveCalls` | wakeupcalls/weather/tasks.py:43-76 | A forced fetch runs for exactly the zips of the active weather-enabled calls, and the return value counts those that returned weather. |
| `AccountsServices.Single` | wakeupcalls/accounts/services.py:98-103 | `get` finds a row exactly when exactly one row matches. Finding none means no row or at least two. |
| `AccountsServices.SmsReport` | wakeupcalls/accounts/services.py:66-84 | Outside demo mode, the send reply follows the SMS result: success text on a send, the SMS error otherwise. |
| `AccountsServices.IssueCreates` | wakeupcalls/accounts/services.py:43-55 | With no row for the number, a send creates one under a fresh id. The row holds the new code, attempts 0, is unverified and expires ten minutes from now. Other rows are kept. |
| `AccountsServices.IssueResets` | wakeupcalls/accounts/services.py:57-63 | With one row for the number, a send reissues it: new code, attempts 0, unverified, ten minutes to live, creation time kept. Other rows are kept. |
| `AccountsServices.IssueRefuses` | wakeupcalls/accounts/services.py:47-55 | A send fails without change exactly when two rows match the user and number. |
| `AccountsServices.CheckCodeGates` | wakeupcalls/accounts/services.py:111-147 | A code verifies exactly when it is unexpired, attempts remain and it matches. The counter rises by one exactly when the first two hold. An expired code or a used-up allowance is refused with the row untouched. Only the counter and the verified flag change. |
| `AccountsServices.CheckCodeKeepsLimit` | wakeupcalls/accounts/services.py:119-129 | Verifying never pushes the counter past three. |
| `AccountsServices.WrongCodeReportsRemaining` | wakeupcalls/accounts/services.py:148-156 | A wrong code reports 3 minus the attempts used, between 0 and 2, in both the count and the text. |
| `AccountsServices.ThreeMissesLockOut` | wakeupcalls/accounts/services.py:119-156 | After three wrong codes on a fresh row, even the right code is refused as over the limit. |
| `AccountsServices.VerifyTouchesOnlyPending` | wakeupcalls/accounts/services.py:98-147 | Verification changes at most the one pending row, and the user's number and flag only on success. With no pending row, or several, nothing changes. |
| `AccountsServices.SendThenVerify` | wakeupcalls/accounts/services.py:43-147 | The code just sent verifies the number for its ten minutes. The user then has that number, verified. |
| `AccountsServices.ResendThrottledAfterCreation` | wakeupcalls/accounts/services.py:170-180 | A row created by a send throttles resends for the next minute. |
| `AccountsServices.ResendNotThrottledAfterReissue` | wakeupcalls/accounts/services.py:57-63 | A reissue keeps the creation time. So once the row is over a minute old, a resend straight after a reissue is let through. |
| `AccountsServices.StatusCases` | wakeupcalls/accounts/services.py:207-227 | A row's status is verified exactly when the row is verified. Otherwise it is pending exactly while unexpired, with the attempts used and the limit, and expired after that. |
| `AccountsServices.LatestExists` | wakeupcalls/accounts/services.py:196-199 | Any non-empty set of rows has a latest one. |
| `AccountsServices.PhoneVerificationService.IssueCode` | wakeupcalls/accounts/services.py:43-63 | The table becomes `Issue`'s result, or stays unchanged when several rows match. |
| `AccountsServices.PhoneVerificationService.SendVerificationCode` | wakeupcalls/accounts/services.py:31-84 | When several rows match, the raised error changes nothing. Otherwise the row is issued and the reply follows the SMS. Existing log rows are kept. |
| `AccountsServices.PhoneVerificationService.TextCode` | wakeupcalls/accounts/services.py:65-84 | The reply is what `SendReport` makes of the SMS. |
| `AccountsServices.PhoneVerificationService.ResendVerificationCode` | wakeupcalls/accounts/services.py:158-182 | A matching row under a minute old refuses the resend without change. Otherwise the resend is a send. |
| `AccountsServices.PhoneVerificationService.VerifyCode` | wakeupcalls/accounts/services.py:86-156 | The reply, the verification rows and the users are those of `VerifyEffect`. No other table changes. |
| `AccountsServices.PhoneVerificationService.GetVerificationStatus` | wakeupcalls/accounts/services.py:184-227 | No status exactly when no row matches. Otherwise it is the status of a latest matching row. |

## Left out

- Celery itself is not modelled: the workers, `.delay`/`apply_async`, the beat schedule and concurrent ticks. Queueing appends a job to a ghost list, with the countdown kept as data.
- The executor's outer `except` (`wakeup_calls/tasks.py:174-177`) is not modelled. None of the modelled steps raises.
- The `except` blocks of several code paths are not modelled either:
  - the snooze task and the bulk rescheduler;
  - the TwiML views, apart from the lookup of an unknown execution;
  - the weather announcement's `except`.

  The modelled functions are total, and a missing payload key reads as None.
- The exception that `_cache_weather_data` swallows (`weather/services.py:215`) is not modelled, because the in-memory cache write cannot fail.
- The Twilio SDK and REST calls are not modelled. That covers `auto_verify_phone_number` and `_add_to_verified_caller_ids` (`notifications/services.py:255-336`), and listing caller ids, whose result is a parameter. The provider's answer to each send is also a parameter.
- The weather HTTP request is not modelled. Its outcome is a parameter: a response with status and body, a timeout, a request error, or an unexpected exception.
- `WakeUpTasks.ProcessScheduledWakeupCalls`, `WakeUpTasks.TickOne`, `WakeUpTasks.ExecuteWakeupCall` and `WakeUpTasks.GatherWeather` each take one instant `now`. The source reads the clock several times within one run:
  - the tick, to pick the calls (`wakeup_calls/tasks.py:25`);
  - the day test of each call (`wakeup_calls/models.py:78`);
  - each call's recompute (`wakeup_calls/tasks.py:190`);
  - the executor, for `executed_at` and `last_executed` (`wakeup_calls/tasks.py:90`, `wakeup_calls/tasks.py:171`);
  - each weather lookup, for its expiry test (`weather/services.py:87`).

  The model collapses these readings to one instant. It does not capture a tick that starts just before midnight and tests or recomputes a later call against the next UTC or local date. `WakeUpSerializers.UpdateAcrossMidnight` shows how such a date change moves a recompute.
- The time zone database and its DST rules are abstract. `WakeUpTasks.NextFireKeepsWallClock` holds wherever the target wall time exists, so across DST changes too. It promises nothing for a time inside a spring-forward gap, whose conversion depends on zoneinfo's fold handling. `WakeUpTasks.NextFireIsInTheFuture` is stated for fixed-offset zones only.
- `Strings.Lower`, `Strings.Title` and `Strings.Strip` are ASCII-only. Python's `str.lower`, `str.title` and `str.strip` are Unicode-aware. So the model leaves out Unicode case mapping, including mappings that change the length (`'İ'.lower()` is two code points), and the non-ASCII whitespace that `strip` removes, such as U+00A0. This affects the length of the stored answer in `WakeUpViews.AsWrittenReply`, the spoken answer's lowercasing, and the weather description's title case.
- Temperatures are integers. Float temperatures and `int()` truncation are not modelled.
- The verification code is a parameter, because it comes from a random generator. `AccountsServices.PhoneVerificationService.SendVerificationCode` and `AccountsServices.PhoneVerificationService.IssueCode` accept any string. The generator's format, six decimal digits (`accounts/services.py:23-29`), is not constrained. The demo seeding command is not modelled.
- Parsing the snooze time from ISO text is not modelled. The snooze task receives the instant itself.
- The TwiML XML, the `say`/`gather` attributes and `generate_twiml_url` are not modelled. A voice script is the list of lines spoken, and the TwiML URL is a parameter. The announcement's own `try`/`except` around the weather line is not modelled.
- `dict(request.POST)` holds lists of values; the model keeps one value per key.
- Whether the web status view reads JSON or form data is not modelled. It receives the submitted word.
- `WakeUpSerializers.UpdateCall`: the `setattr` loop is modelled as the field-by-field function `Apply`, not as a loop over a dictionary.
- `AccountsServices.PhoneVerificationService.GetVerificationStatus`: when several rows share the latest creation time, the model picks one of them but does not say which, just as the ordering does not.
- The ORM is not modelled: no transactions, cascade deletes, `auto_now` timestamps or database constraints. The one exception is the column width in the findings below.
- `NotificationTasks.CleanupOldNotificationLogs`: `TwilioWebhook.notification_log` is `on_delete=CASCADE`, so the source's `delete()` also removes the webhooks of the deleted logs, and the count it returns includes them. The model leaves the webhook table unchanged and returns the number of logs deleted only.
- The HTML views, dashboards, statistics, admin, authentication views and one-off scripts are not modelled.
- The `TwilioWebhook.event_type` column is NOT NULL. So a webhook with a sid but no event type ends in a failed insert, modelled as an outcome that writes nothing.
- PhoneVerification rows are also written outside the service. When several rows match, `get_or_create` and `get` raise `MultipleObjectsReturned`, which the model returns as an outcome.

## Findings

| source | as written | input that shows it | evidently intended | confidence | as-written member | corrected member |
|---|---|---|---|---|---|---|
| wakeupcalls/wakeup_calls/models.py:128 with wakeupcalls/wakeup_calls/views.py:307-318 | `user_response` is `CharField(max_length=20)`, but key 1 stores "1 (snoozed for 10 min)", 22 characters. On a database that enforces the width, such as PostgreSQL, that save raises after the snooze job is queued, and the `except` answers with the fallback reply. Spoken answers over 20 characters fail the first save the same way. | `Digits=1` on any known execution | The caller hears "Snoozing for 10 minutes. Sweet dreams!", and the full answer is stored | medium, not executed | `WakeUpViews.SnoozeNeverConfirmedAsWritten` | `WakeUpViews.RespondToCall` |
