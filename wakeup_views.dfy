/**
 * The wake-up-call API views that change or read scheduler state: the voice
 * script of a call, the handler of the caller's key press or speech, the
 * deprecated status endpoint and the test-now endpoint.
 *
 * A voice script is the list of lines `say` speaks, in order; the XML around
 * them is not modelled. `get_object_or_404` for a row that is missing, or
 * that belongs to another user, is the `NotFound` outcome.
 */
module WakeUpViews {
  import opened Wrappers
  import opened Strings
  import opened Calendar
  import opened Collections
  import opened WeatherModels
  import opened WeatherServices
  import opened WakeUpModels
  import opened WakeUpTasks
  import opened WakeUpSerializers

  // ---- the voice script ----

  const SnoozeGreeting: string := "Rise and shine! " + "This is your snooze wake-up call from Vamshi."
  const MorningGreeting: string := "Good morning! " + "This is your wake-up call from Vamshi."
  const MenuPrompt: string := "Press 1 to snooze for 10 minutes, " + "press 2 to cancel future calls, "
    + "or say 'reschedule' to change your wake-up time. " + "Press any other key to end this call."
  const Closing: string := "Have a great day!"
  const FallbackScript: seq<string> := ["Good morning! " + "This is your wake-up call from Vamshi. " + "Have a great day!"]

  /** The greeting of `twiml_wakeup_call`. */
  function Greeting(isSnooze: bool): string {
    if isSnooze then SnoozeGreeting else MorningGreeting
  }

  /** A snooze call, and only a snooze call, opens with "Rise and shine!". */
  lemma GreetingForSnooze(isSnooze: bool)
    ensures "Rise and shine!" <= Greeting(isSnooze) <==> isSnooze
    ensures "Good morning!" <= Greeting(isSnooze) <==> !isSnooze
  {
    assert SnoozeGreeting[0] == 'R' && MorningGreeting[0] == 'G';
    if isSnooze {
      assert SnoozeGreeting[..15] == "Rise and shine!";
    } else {
      assert MorningGreeting[..13] == "Good morning!";
    }
  }

  /** The lines of a call: greeting, the weather when the execution stored some, the custom message, the menu. */
  function Script(isSnooze: bool, weatherLine: Option<string>, customMessage: string): seq<string> {
    [Greeting(isSnooze)]
    + (if weatherLine.Some? then [weatherLine.value] else [])
    + (if customMessage != "" then [customMessage] else [])
    + [MenuPrompt, Closing]
  }

  /**
   * Every script opens with the greeting and ends with the menu and the
   * closing line; the weather line comes second when there is one, and the
   * custom message right before the menu when it is set.
   */
  lemma ScriptShape(isSnooze: bool, weatherLine: Option<string>, customMessage: string)
    ensures var s := Script(isSnooze, weatherLine, customMessage);
      && |s| == 3 + (if weatherLine.Some? then 1 else 0) + (if customMessage != "" then 1 else 0)
      && s[0] == Greeting(isSnooze) && s[|s| - 2] == MenuPrompt && s[|s| - 1] == Closing
      && (weatherLine.Some? ==> s[1] == weatherLine.value)
      && (customMessage != "" ==> s[|s| - 3] == customMessage)
  {
  }

  /**
   * `twiml_wakeup_call`: the script of execution `executionId`, announcing
   * the weather when the execution stored some. An unknown execution gets
   * the fallback script from the `except`.
   */
  method TwimlWakeupCall(store: WakeUpStore, weather: WeatherService, executionId: nat, now: Instant,
                         outcome: FetchOutcome)
    returns (lines: seq<string>)
    requires store.Valid() && weather.Valid()
    modifies weather
    ensures weather.Valid()
    ensures executionId !in store.executions ==> lines == FallbackScript && weather.State() == old(weather.State())
    ensures executionId in store.executions ==>
      var e := store.executions[executionId];
      var c := store.calls[e.callId];
      if HasWeather(e.weatherData) then
        var (d, st) := Lookup(old(weather.State()), weather.apiKeyConfigured,
                              GetWeatherZipCode(c, store.users[c.userId].zipCode), false, now, outcome);
        lines == Script(e.isSnooze, Some(Announcement(d)), c.customMessage) && weather.State() == st
      else
        lines == Script(e.isSnooze, None, c.customMessage) && weather.State() == old(weather.State())
  {
    if executionId !in store.executions {
      return FallbackScript;
    }
    var e := store.executions[executionId];
    var c := store.calls[e.callId];
    lines := [Greeting(e.isSnooze)];
    if HasWeather(e.weatherData) {
      var zip := GetWeatherZipCode(c, store.users[c.userId].zipCode);
      var message := weather.GetFormattedWeatherAnnouncement(zip, now, outcome);
      lines := lines + [message];
    }
    if c.customMessage != "" {
      lines := lines + [c.customMessage];
    }
    lines := lines + [MenuPrompt, Closing];
  }

  // ---- the caller's answer ----

  /** What the caller hears after answering. */
  datatype Reply = SnoozeReply | CancelReply | RescheduleReply | DefaultReply | FallbackReply

  function ReplyText(r: Reply): string {
    match r
    case SnoozeReply => "Snoozing for 10 minutes. Sweet dreams!"
    case CancelReply => "All future wake-up calls have been cancelled."
    case RescheduleReply => "To reschedule your wake-up calls, please use the Vamshi app or website. "
                            + "Your current schedule remains unchanged."
    case DefaultReply => "Thank you! Have a wonderful day!"
    case FallbackReply => "Thank you! Have a great day!"
  }

  const SnoozeNote: string := " (snoozed for 10 min)"

  /** `digits or speech_result`: the digits when any were pressed, else the lowercased speech. */
  function ResponseText(digits: string, speech: string): string {
    if digits != "" then digits else Lower(speech)
  }

  /** The branch of `twiml_wakeup_call_response`: key 1, key 2, then "reschedule" in the speech. */
  function Choose(digits: string, speech: string): Reply {
    if digits == "1" then SnoozeReply
    else if digits == "2" then CancelReply
    else if Contains(Lower(speech), "reschedule") then RescheduleReply
    else DefaultReply
  }

  /** Key 1 snoozes, key 2 cancels, and "reschedule" counts only when neither key was pressed. */
  lemma ChooseBranches(digits: string, speech: string)
    ensures Choose(digits, speech) == SnoozeReply <==> digits == "1"
    ensures Choose(digits, speech) == CancelReply <==> digits == "2"
    ensures Choose(digits, speech) == RescheduleReply <==>
      digits != "1" && digits != "2" && Contains(Lower(speech), "reschedule")
    ensures Choose(digits, speech) != FallbackReply
  {
  }

  /** The `user_response` the handler finally saves: the answer, with the snooze note after key 1. */
  function StoredResponse(digits: string, speech: string): string {
    if digits == "1" then ResponseText(digits, speech) + SnoozeNote else ResponseText(digits, speech)
  }

  /** The execution after the handler's saves: the answer and the posted form recorded. */
  function Recorded(e: Execution, digits: string, speech: string, form: map<string, string>): Execution {
    e.(userResponse := Some(StoredResponse(digits, speech)), interactionData := Some(form))
  }

  /**
   * The scheduler's tables after `twiml_wakeup_call_response` on a known
   * execution: the answer is recorded; key 1 queues a snooze job for ten
   * minutes from now; key 2 sets the call's status to cancelled.
   */
  function Responded(t: Tables, executionId: nat, digits: string, speech: string, form: map<string, string>,
                     now: Instant): Tables
    requires executionId in t.executions && t.executions[executionId].callId in t.calls
  {
    var e := t.executions[executionId];
    var t1 := t.(executions := t.executions[executionId := Recorded(e, digits, speech, form)]);
    if digits == "1" then t1.(queue := t.queue + [SnoozeTask(executionId, now + Minutes(10))])
    else if digits == "2" then t1.(calls := t.calls[e.callId := t.calls[e.callId].(status := Cancelled)])
    else t1
  }

  /**
   * The handler writes one execution and at most one call, and of the call
   * only the status: a cancel by key leaves the next fire time in place,
   * so the scheduler still sees it. Only key 1 adds a job.
   */
  lemma RespondedTouchesLittle(t: Tables, executionId: nat, digits: string, speech: string,
                               form: map<string, string>, now: Instant)
    requires executionId in t.executions && t.executions[executionId].callId in t.calls
    ensures var t' := Responded(t, executionId, digits, speech, form, now);
      var e := t.executions[executionId];
      && t'.nextId == t.nextId && t'.executions.Keys == t.executions.Keys && t'.calls.Keys == t.calls.Keys
      && (forall id :: id in t.executions && id != executionId ==> t'.executions[id] == t.executions[id])
      && (forall id :: id in t.calls && id != e.callId ==> t'.calls[id] == t.calls[id])
      && t'.calls[e.callId].(status := t.calls[e.callId].status) == t.calls[e.callId]
      && t'.calls[e.callId].nextExecution == t.calls[e.callId].nextExecution
      && (t'.calls[e.callId].status == Cancelled <==> digits == "2" || t.calls[e.callId].status == Cancelled)
      && t'.queue == t.queue + (if digits == "1" then [SnoozeTask(executionId, now + Minutes(10))] else [])
      && t'.executions[executionId].userResponse.Some?
      && ResponseText(digits, speech) <= t'.executions[executionId].userResponse.value
  {
  }

  /** The snooze job, when the worker runs it at once, queues the snooze execution ten minutes out. */
  lemma SnoozeRunsInTenMinutes(now: Instant)
    ensures SnoozeCountdown(now + Minutes(10), now) == Some(600)
  {
  }

  /** Saving the answer on a known execution. */
  method RecordAnswer(store: WakeUpStore, executionId: nat, digits: string, speech: string,
                      form: map<string, string>)
    requires store.Valid() && executionId in store.executions
    modifies store
    ensures store.Valid()
    ensures var e := old(store.executions[executionId]);
      store.executions == old(store.executions)[executionId := Recorded(e, digits, speech, form)]
    ensures store.users == old(store.users) && store.calls == old(store.calls)
    ensures store.nextExecutionId == old(store.nextExecutionId) && store.queue == old(store.queue)
  {
    ghost var executions0 := store.executions;
    var e := store.executions[executionId];
    var answer := if digits != "" then digits else Lower(speech);
    var saved := e.(userResponse := Some(answer), interactionData := Some(form));
    store.SaveExecution(executionId, saved);
    if digits == "1" {
      var snoozed := saved.(userResponse := Some(answer + SnoozeNote));
      store.SaveExecution(executionId, snoozed);
      OverwriteTwice(executions0, executionId, saved, snoozed);
    }
  }

  /**
   * `twiml_wakeup_call_response` as intended, on a `user_response` column
   * that holds the whole stored answer (see `AsWrittenReply`): record the
   * answer, then snooze, cancel, or just reply. An unknown execution gets
   * the fallback reply and changes nothing.
   */
  method RespondToCall(store: WakeUpStore, executionId: nat, digits: string, speech: string,
                       form: map<string, string>, now: Instant)
    returns (reply: Reply)
    requires store.Valid()
    modifies store
    ensures store.Valid() && store.users == old(store.users)
    ensures executionId !in old(store.executions) ==> reply == FallbackReply && store.Snapshot() == old(store.Snapshot())
    ensures executionId in old(store.executions) ==>
      reply == Choose(digits, speech)
      && store.Snapshot() == Responded(old(store.Snapshot()), executionId, digits, speech, form, now)
  {
    if executionId !in store.executions {
      return FallbackReply;
    }
    var callId := store.executions[executionId].callId;
    RecordAnswer(store, executionId, digits, speech, form);
    if digits == "1" {
      store.Enqueue(SnoozeTask(executionId, now + Minutes(10)));
      reply := SnoozeReply;
    } else if digits == "2" {
      var c := store.calls[callId];
      store.SaveCall(callId, c.(status := Cancelled));
      reply := CancelReply;
    } else if Contains(Lower(speech), "reschedule") {
      reply := RescheduleReply;
    } else {
      reply := DefaultReply;
    }
  }

  // ---- the answer against the column width ----

  /** `user_response = CharField(max_length=20)`. */
  const ResponseColumnWidth: nat := 20

  /**
   * The handler as written, on a database that enforces the column width:
   * a save of a longer answer raises, the `except` answers with the
   * fallback reply, and a snooze queued before the failing save stays queued.
   */
  function AsWrittenReply(digits: string, speech: string): Reply {
    var answer := ResponseText(digits, speech);
    if |answer| > ResponseColumnWidth then FallbackReply
    else if digits == "1" && |answer + SnoozeNote| > ResponseColumnWidth then FallbackReply
    else Choose(digits, speech)
  }

  /** As written, key 1 never gets the snooze confirmation: "1 (snoozed for 10 min)" is 22 characters. */
  lemma SnoozeNeverConfirmedAsWritten(speech: string)
    ensures |StoredResponse("1", speech)| == 22 > ResponseColumnWidth
    ensures AsWrittenReply("1", speech) == FallbackReply && Choose("1", speech) == SnoozeReply
  {
  }

  /** As written, a spoken answer over 20 characters is never heard, even one asking to reschedule. */
  lemma LongSpeechLostAsWritten(speech: string)
    requires |speech| > ResponseColumnWidth && Contains(Lower(speech), "reschedule")
    ensures Choose("", speech) == RescheduleReply && AsWrittenReply("", speech) == FallbackReply
  {
  }

  /** Where every save fits its column, the handler as written and as intended agree. */
  lemma AsWrittenAgreesWhenFitting(digits: string, speech: string)
    requires |StoredResponse(digits, speech)| <= ResponseColumnWidth
    ensures AsWrittenReply(digits, speech) == Choose(digits, speech)
  {
  }

  // ---- the deprecated status endpoint and test-now ----

  /** The outcome of a status update: the new status, a missing row, or a rejected form. */
  datatype StatusResult = StatusUpdated(status: CallStatus) | NotFound | BadRequest

  /** A status change that recomputes the next fire time only when it reactivates the call. */
  function WithStatus(c: WakeUpCall, s: CallStatus, tzName: string, now: Instant, db: ZoneDb): WakeUpCall {
    var c1 := c.(status := s);
    if c.status != Active && s == Active then WithSchedule(c1, Recomputed(c1, tzName, now, db)) else c1
  }

  /**
   * The deprecated endpoint keeps the next fire time unless it reactivates:
   * pausing or cancelling through it leaves the old time on the call.
   */
  lemma WithStatusRecomputesOnlyOnReactivation(c: WakeUpCall, s: CallStatus, tzName: string, now: Instant,
                                               db: ZoneDb)
    ensures var c' := WithStatus(c, s, tzName, now, db);
      && (!(c.status != Active && s == Active) ==> c' == c.(status := s) && c'.nextExecution == c.nextExecution)
      && (c.status != Active && s == Active ==>
            c'.nextExecution == Recomputed(c.(status := Active), tzName, now, db).next)
      && c'.(status := c.status, nextExecution := c.nextExecution) == c
  {
  }

  /** The deprecated `update_wakeup_call_status` of the API, for the user `requester`. */
  method UpdateWakeupCallStatus(store: WakeUpStore, requester: nat, id: nat, status: string, now: Instant,
                                db: ZoneDb)
    returns (r: StatusResult)
    requires store.Valid()
    modifies store
    ensures store.Valid()
    ensures store.users == old(store.users) && store.executions == old(store.executions)
    ensures store.nextExecutionId == old(store.nextExecutionId) && store.queue == old(store.queue)
    ensures !(id in old(store.calls) && old(store.calls[id]).userId == requester) ==>
      r == NotFound && store.calls == old(store.calls)
    ensures id in old(store.calls) && old(store.calls[id]).userId == requester ==>
      var c := old(store.calls[id]);
      match ParseStatus(status)
      case None => r == BadRequest && store.calls == old(store.calls)
      case Some(s) =>
        r == StatusUpdated(s)
        && store.calls == old(store.calls)[id := WithStatus(c, s, old(store.users[c.userId].timezone), now, db)]
  {
    if id !in store.calls || store.calls[id].userId != requester {
      return NotFound;
    }
    var parsed := ParseStatus(status);
    if parsed.None? {
      return BadRequest;
    }
    var s := parsed.value;
    var c := store.calls[id];
    ghost var calls0 := store.calls;
    store.SaveCall(id, c.(status := s));
    if c.status != Active && s == Active {
      UpdateNextExecutionTime(store, id, now, db);
      OverwriteTwice(calls0, id, c.(status := s), store.calls[id]);
    }
    r := StatusUpdated(s);
  }

  /** `test_wakeup_call_now`: a pending execution stamped now, queued to run at once. */
  method TestWakeupCallNow(store: WakeUpStore, requester: nat, id: nat, now: Instant)
    returns (executionId: Option<nat>)
    requires store.Valid()
    modifies store
    ensures store.Valid()
    ensures store.users == old(store.users) && store.calls == old(store.calls)
    ensures !(id in old(store.calls) && old(store.calls[id]).userId == requester) ==>
      executionId.None? && store.Snapshot() == old(store.Snapshot())
    ensures id in old(store.calls) && old(store.calls[id]).userId == requester ==>
      var n := old(store.nextExecutionId);
      && executionId == Some(n) && n !in old(store.executions) && store.nextExecutionId == n + 1
      && store.executions == old(store.executions)[n := NewExecution(id, now, Some(now), false)]
      && store.queue == old(store.queue) + [ExecuteTask(n, None)]
  {
    if id !in store.calls || store.calls[id].userId != requester {
      return None;
    }
    var n := store.CreateExecution(NewExecution(id, now, Some(now), false));
    store.Enqueue(ExecuteTask(n, None));
    executionId := Some(n);
  }
}
