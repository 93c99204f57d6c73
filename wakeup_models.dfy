/**
 * The wake-up-calls app's tables and the recurrence rule of a call.
 *
 * Enumerated text columns become datatypes. The web form views write raw
 * strings into `frequency` and `contact_method`, so each of those has an
 * extra constructor for a value outside the declared choices.
 */
module WakeUpModels {
  import opened Wrappers
  import opened Calendar
  import opened AccountsModels
  import opened WeatherModels

  datatype Frequency = Once | Daily | Weekly | Weekdays | Weekends | Custom | UnknownFrequency
  datatype ContactMethod = Call | Sms | UnknownMethod
  datatype CallStatus = Active | Paused | Completed | Cancelled
  datatype ExecutionStatus = ExecPending | ExecInProgress | ExecCompleted | ExecFailed | ExecCancelled

  /** A row of WakeUpCall. A missing zip code or custom message is "". */
  datatype WakeUpCall = WakeUpCall(
    userId: nat,
    name: string,
    phoneNumber: string,
    contactMethod: ContactMethod,
    scheduledTime: TimeOfDay,
    frequency: Frequency,
    startDate: Date,
    endDate: Option<Date>,
    monday: bool, tuesday: bool, wednesday: bool, thursday: bool,
    friday: bool, saturday: bool, sunday: bool,
    includeWeather: bool,
    weatherZipCode: string,
    customMessage: string,
    status: CallStatus,
    isDemo: bool,
    lastExecuted: Option<Instant>,
    nextExecution: Option<Instant>)

  /** A row of WakeUpCallExecution. `interactionData` is the POSTed form, one value per key. */
  datatype Execution = Execution(
    callId: nat,
    scheduledFor: Instant,
    executedAt: Option<Instant>,
    status: ExecutionStatus,
    twilioSid: Option<string>,
    twilioStatus: Option<string>,
    weatherData: Option<WeatherData>,
    errorMessage: Option<string>,
    userResponse: Option<string>,
    interactionData: Option<map<string, string>>,
    isSnooze: bool)

  /** A freshly created execution: pending, with every optional column empty. */
  function NewExecution(callId: nat, scheduledFor: Instant, executedAt: Option<Instant>, isSnooze: bool): (e: Execution)
    ensures e.status == ExecPending && e.callId == callId && e.scheduledFor == scheduledFor && e.isSnooze == isSnooze
  {
    Execution(callId, scheduledFor, executedAt, ExecPending, None, None, None, None, None, None, isSnooze)
  }

  /** A job handed to the Celery queue: run an execution (now, or after a countdown), or schedule a snooze. */
  datatype Task =
    | ExecuteTask(executionId: nat, countdown: Option<int>)
    | SnoozeTask(executionId: nat, snoozeTime: Instant)

  /** `day_mapping[weekday]`: the call's flag for a weekday, Monday first. */
  function DayFlag(c: WakeUpCall, weekday: int): bool
    requires 0 <= weekday < 7
  {
    [c.monday, c.tuesday, c.wednesday, c.thursday, c.friday, c.saturday, c.sunday][weekday]
  }

  /** `WakeUpCall.should_execute_today`, where "today" is the UTC date of `now`. */
  function ShouldExecuteToday(c: WakeUpCall, now: Instant): bool {
    var today := UtcDate(now);
    var weekday := Weekday(today);
    match c.frequency
    case Once => today == c.startDate
    case Daily => true
    case Weekly => (today - c.startDate) % 7 == 0
    case Weekdays => weekday < 5
    case Weekends => weekday >= 5
    case Custom => DayFlag(c, weekday)
    case UnknownFrequency => false
  }

  /** `WakeUpCall.get_weather_zip_code`: the call's own zip, else the owner's. */
  function GetWeatherZipCode(c: WakeUpCall, userZip: string): (z: string)
    ensures c.weatherZipCode != "" ==> z == c.weatherZipCode
    ensures c.weatherZipCode == "" ==> z == userZip
  {
    if c.weatherZipCode != "" then c.weatherZipCode else userZip
  }

  // ---- the recurrence rule ----

  /** A one-time call fires exactly on its start date. */
  lemma OnceFiresOnStartDate(c: WakeUpCall, now: Instant)
    requires c.frequency == Once
    ensures ShouldExecuteToday(c, now) <==> UtcDate(now) == c.startDate
  {
  }

  /** A daily call fires on every date, whatever its start and end dates. */
  lemma DailyAlwaysFires(c: WakeUpCall, now: Instant)
    requires c.frequency == Daily
    ensures ShouldExecuteToday(c, now)
  {
  }

  /**
   * A weekly call fires exactly on the dates a whole number of weeks from its
   * start date, before the start date as well as after it.
   */
  lemma WeeklyFiresEverySevenDays(c: WakeUpCall, now: Instant)
    requires c.frequency == Weekly
    ensures ShouldExecuteToday(c, now) <==> exists k: int :: UtcDate(now) == c.startDate + 7 * k
  {
    var delta := UtcDate(now) - c.startDate;
    if ShouldExecuteToday(c, now) {
      assert delta == 7 * (delta / 7);
      assert UtcDate(now) == c.startDate + 7 * (delta / 7);
    }
    forall k: int | UtcDate(now) == c.startDate + 7 * k
      ensures ShouldExecuteToday(c, now)
    {
      assert delta == 7 * k;
    }
  }

  /** Every date belongs to exactly one of the weekday and weekend rules. */
  lemma WeekdaysAndWeekendsPartition(c: WakeUpCall, now: Instant)
    ensures ShouldExecuteToday(c.(frequency := Weekdays), now) != ShouldExecuteToday(c.(frequency := Weekends), now)
  {
  }

  /** A custom call answers with its own flag for today's weekday; an unknown frequency never fires. */
  lemma CustomReadsTodaysFlag(c: WakeUpCall, now: Instant)
    ensures c.frequency == Custom ==> ShouldExecuteToday(c, now) == DayFlag(c, UtcDate(now) % 7)
    ensures c.frequency == UnknownFrequency ==> !ShouldExecuteToday(c, now)
  {
  }

  /** Only the UTC date of `now` matters: two instants on the same UTC day get the same answer. */
  lemma TodayIsTheUtcDate(c: WakeUpCall, t1: Instant, t2: Instant)
    requires UtcDate(t1) == UtcDate(t2)
    ensures ShouldExecuteToday(c, t1) == ShouldExecuteToday(c, t2)
  {
  }

  /** For the weekday, weekend and custom rules the start date plays no part. */
  lemma StartDateIrrelevant(c: WakeUpCall, d: Date, now: Instant)
    requires c.frequency in {Weekdays, Weekends, Custom}
    ensures ShouldExecuteToday(c.(startDate := d), now) == ShouldExecuteToday(c, now)
  {
  }

  /** A snapshot of the scheduler's tables: calls, executions with the next free id, and the queue. */
  datatype Tables = Tables(calls: map<nat, WakeUpCall>, executions: map<nat, Execution>, nextId: nat, queue: seq<Task>)

  /** The collection of rows the scheduler works on, with the ghost task queue. */
  class WakeUpStore {
    var users: map<nat, User>
    var calls: map<nat, WakeUpCall>
    var executions: map<nat, Execution>
    var nextExecutionId: nat
    ghost var queue: seq<Task>

    /** Every row's foreign key resolves, and execution ids are below the next one handed out. */
    ghost predicate Valid()
      reads this
    {
      && (forall id :: id in calls ==> calls[id].userId in users)
      && (forall id :: id in executions ==> id < nextExecutionId && executions[id].callId in calls)
    }

    ghost function Snapshot(): Tables
      reads this
    {
      Tables(calls, executions, nextExecutionId, queue)
    }

    constructor(users: map<nat, User>, calls: map<nat, WakeUpCall>)
      requires forall id :: id in calls ==> calls[id].userId in users
      ensures Valid()
      ensures this.users == users && this.calls == calls && executions == map[] && queue == []
    {
      this.users := users;
      this.calls := calls;
      executions := map[];
      nextExecutionId := 1;
      queue := [];
    }

    /** `WakeUpCallExecution.objects.create`: a row under a fresh id. */
    method CreateExecution(e: Execution) returns (id: nat)
      requires Valid() && e.callId in calls
      modifies this
      ensures Valid()
      ensures id == old(nextExecutionId) && nextExecutionId == id + 1 && id !in old(executions)
      ensures executions == old(executions)[id := e]
      ensures users == old(users) && calls == old(calls) && queue == old(queue)
    {
      id := nextExecutionId;
      executions := executions[id := e];
      nextExecutionId := nextExecutionId + 1;
    }

    /** `execution.save()` on an existing row. */
    method SaveExecution(id: nat, e: Execution)
      requires Valid() && id in executions && e.callId in calls
      modifies this
      ensures Valid()
      ensures executions == old(executions)[id := e]
      ensures users == old(users) && calls == old(calls) && nextExecutionId == old(nextExecutionId)
      ensures queue == old(queue)
    {
      executions := executions[id := e];
    }

    /** `wakeup_call.save()` on an existing row. */
    method SaveCall(id: nat, c: WakeUpCall)
      requires Valid() && id in calls && c.userId in users
      modifies this
      ensures Valid()
      ensures calls == old(calls)[id := c]
      ensures users == old(users) && executions == old(executions) && nextExecutionId == old(nextExecutionId)
      ensures queue == old(queue)
    {
      calls := calls[id := c];
    }

    /** `user.save()` on an existing row. */
    method SaveUser(id: nat, u: User)
      requires Valid() && id in users
      modifies this
      ensures Valid()
      ensures users == old(users)[id := u]
      ensures calls == old(calls) && executions == old(executions) && nextExecutionId == old(nextExecutionId)
      ensures queue == old(queue)
    {
      users := users[id := u];
    }

    /** `.delay` / `.apply_async`: the job is appended to the queue. */
    method Enqueue(t: Task)
      modifies this
      ensures queue == old(queue) + [t]
      ensures users == old(users) && calls == old(calls) && executions == old(executions)
      ensures nextExecutionId == old(nextExecutionId)
    {
      queue := queue + [t];
    }
  }
}
