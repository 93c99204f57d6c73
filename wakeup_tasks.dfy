/**
 * The scheduler's tasks: recomputing a call's next fire time, the
 * once-a-minute tick, the executor that delivers one execution, the snooze
 * task and the bulk rescheduler.
 *
 * Each task takes one instant `now` in place of its several clock readings;
 * the queue is the ghost list of jobs handed to the Celery workers.
 */
module WakeUpTasks {
  import opened Wrappers
  import opened Strings
  import opened Calendar
  import opened AccountsModels
  import opened WeatherModels
  import opened WeatherServices
  import opened NotificationServices
  import opened WakeUpModels
  import opened Collections

  // ---- next fire time ----

  /**
   * The `for ... else` scan of `update_next_execution_time`: the first of
   * `count` days from `d` on which a copy of the call starting that day
   * fires, at the call's wall-clock time in zone `z`.
   */
  function ScanWeek(c: WakeUpCall, d: Date, count: nat, now: Instant, db: ZoneDb, z: Zone): Option<Instant>
    decreases count
  {
    if count == 0 then None
    else if ShouldExecuteToday(c.(startDate := d), now) then Some(FromLocal(db, z, Combine(d, c.scheduledTime)))
    else ScanWeek(c, d + 1, count - 1, now, db, z)
  }

  /** Two calls with the same recurrence: frequency, time of day and weekday flags. */
  predicate SameRecurrence(c1: WakeUpCall, c2: WakeUpCall) {
    && c1.frequency == c2.frequency && c1.scheduledTime == c2.scheduledTime
    && c1.monday == c2.monday && c1.tuesday == c2.tuesday && c1.wednesday == c2.wednesday
    && c1.thursday == c2.thursday && c1.friday == c2.friday && c1.saturday == c2.saturday
    && c1.sunday == c2.sunday
  }


  /** The status and next fire time a recompute leaves on a call. */
  datatype Schedule = Schedule(status: CallStatus, next: Option<Instant>)

  /** The owner's date on their own wall clock at `now`. */
  function LocalToday(db: ZoneDb, tzName: string, now: Instant): Date {
    LocalDate(ToLocal(db, ResolveZone(db, tzName), now))
  }

  /** The frequency rule of `update_next_execution_time`, before the end-date cutoff. */
  function FrequencyStep(c: WakeUpCall, tzName: string, now: Instant, db: ZoneDb): Schedule {
    var z := ResolveZone(db, tzName);
    var today := LocalToday(db, tzName, now);
    match c.frequency
    case Once => Schedule(Completed, None)
    case Daily => Schedule(c.status, Some(FromLocal(db, z, Combine(today + 1, c.scheduledTime))))
    case Weekly => Schedule(c.status, Some(FromLocal(db, z, Combine(today + 7, c.scheduledTime))))
    case Weekdays => Schedule(c.status, ScanWeek(c, today + 1, 7, now, db, z))
    case Weekends => Schedule(c.status, ScanWeek(c, today + 1, 7, now, db, z))
    case Custom => Schedule(c.status, ScanWeek(c, today + 1, 7, now, db, z))
    case UnknownFrequency => Schedule(c.status, c.nextExecution)
  }

  /** `update_next_execution_time`: the frequency rule, then the cutoff on the UTC date of the result. */
  function Recomputed(c: WakeUpCall, tzName: string, now: Instant, db: ZoneDb): Schedule {
    var s := FrequencyStep(c, tzName, now, db);
    if c.endDate.Some? && s.next.Some? && UtcDate(s.next.value) > c.endDate.value then Schedule(Completed, None)
    else s
  }

  /**
   * For every known frequency a recompute does not depend on the next fire
   * time stored before it; an unrecognised frequency keeps that value,
   * subject only to the end-date cutoff.
   */
  lemma RecomputeIgnoresNext(c: WakeUpCall, n: Option<Instant>, tzName: string, now: Instant, db: ZoneDb)
    ensures c.frequency != UnknownFrequency ==>
      Recomputed(c.(nextExecution := n), tzName, now, db) == Recomputed(c, tzName, now, db)
    ensures c.frequency == UnknownFrequency ==>
      Recomputed(c.(nextExecution := n), tzName, now, db)
        == if c.endDate.Some? && n.Some? && UtcDate(n.value) > c.endDate.value then Schedule(Completed, None)
           else Schedule(c.status, n)
  {
    var c1 := c.(nextExecution := n);
    assert SameRecurrence(c1, c) && c1.status == c.status && c1.endDate == c.endDate && c1.startDate == c.startDate;
    if c.frequency != UnknownFrequency {
      SameRuleToday(c1, c, now);
      RecomputeClosedForms(c1, c, tzName, now, now, db);
    }
  }


  /** Two calls with the same recurrence and start date fire on the same days. */
  lemma SameRuleToday(c1: WakeUpCall, c2: WakeUpCall, now: Instant)
    requires SameRecurrence(c1, c2) && c1.startDate == c2.startDate
    ensures ShouldExecuteToday(c1, now) == ShouldExecuteToday(c2, now)
  {
    assert DayFlag(c1, Weekday(UtcDate(now))) == DayFlag(c2, Weekday(UtcDate(now)));
  }

  /**
   * For a known frequency the next fire time of a recompute depends only
   * on the recurrence, the end date, whether the call fires today and the
   * owner's local date; the status it sets depends on the call's status too.
   */
  lemma RecomputeClosedForms(c1: WakeUpCall, c2: WakeUpCall, tzName: string, t1: Instant, t2: Instant, db: ZoneDb)
    requires SameRecurrence(c1, c2) && c1.endDate == c2.endDate && c1.frequency != UnknownFrequency
    requires ShouldExecuteToday(c1, t1) == ShouldExecuteToday(c2, t2)
    requires LocalToday(db, tzName, t1) == LocalToday(db, tzName, t2)
    ensures Recomputed(c1, tzName, t1, db).next == Recomputed(c2, tzName, t2, db).next
    ensures c1.status == c2.status ==> Recomputed(c1, tzName, t1, db) == Recomputed(c2, tzName, t2, db)
  {
    if c1.frequency in {Weekdays, Weekends, Custom} {
      ScanFrequenciesOutcome(c1, tzName, t1, db);
      ScanFrequenciesOutcome(c2, tzName, t2, db);
    } else if c1.frequency in {Daily, Weekly} {
      DailyWeeklyAdvance(c1, tzName, t1, db);
      DailyWeeklyAdvance(c2, tzName, t2, db);
    } else {
      OnceCompletes(c1, tzName, t1, db);
      OnceCompletes(c2, tzName, t2, db);
    }
  }


  /** A recompute reads the clock only through the owner's local date and the UTC date. */
  lemma RecomputeReadsOnlyDates(c: WakeUpCall, tzName: string, t1: Instant, t2: Instant, db: ZoneDb)
    requires LocalToday(db, tzName, t1) == LocalToday(db, tzName, t2) && UtcDate(t1) == UtcDate(t2)
    ensures Recomputed(c, tzName, t1, db) == Recomputed(c, tzName, t2, db)
  {
    if c.frequency != UnknownFrequency {
      TodayIsTheUtcDate(c, t1, t2);
      RecomputeClosedForms(c, c, tzName, t1, t2, db);
    }
  }


  function WithSchedule(c: WakeUpCall, s: Schedule): (r: WakeUpCall)
    ensures r.status == s.status && r.nextExecution == s.next && r.userId == c.userId
    ensures r.(status := c.status, nextExecution := c.nextExecution) == c
  {
    c.(status := s.status, nextExecution := s.next)
  }

  /**
   * A second recompute, at any instant, sets the next fire time a single
   * recompute at that instant would: the first one's status and next fire
   * time are not consulted, beyond the end-date cutoff it already applied.
   */
  lemma RecomputeAfterRecompute(c: WakeUpCall, tzName: string, t1: Instant, t2: Instant, db: ZoneDb)
    ensures Recomputed(WithSchedule(c, Recomputed(c, tzName, t1, db)), tzName, t2, db).next
      == Recomputed(c, tzName, t2, db).next
  {
    var c1 := WithSchedule(c, Recomputed(c, tzName, t1, db));
    assert SameRecurrence(c1, c) && c1.endDate == c.endDate && c1.startDate == c.startDate;
    if c.frequency == UnknownFrequency {
      assert Recomputed(c1, tzName, t2, db).next == Recomputed(c, tzName, t1, db).next;
    } else {
      SameRuleToday(c1, c, t2);
      RecomputeClosedForms(c1, c, tzName, t2, t2, db);
    }
  }


  /**
   * The scan tests the same condition every day, because "today" in the
   * recurrence rule is the UTC date of `now` and the start date plays no
   * part: it yields its first day when the call fires today, and nothing otherwise.
   */
  lemma {:induction false} ScanWeekOutcome(c: WakeUpCall, d: Date, count: nat, now: Instant, db: ZoneDb, z: Zone)
    requires c.frequency in {Weekdays, Weekends, Custom} && count >= 1
    ensures ScanWeek(c, d, count, now, db, z) ==
      if ShouldExecuteToday(c, now) then Some(FromLocal(db, z, Combine(d, c.scheduledTime))) else None
    decreases count
  {
    StartDateIrrelevant(c, d, now);
    if !ShouldExecuteToday(c, now) && count > 1 {
      ScanWeekOutcome(c, d + 1, count - 1, now, db, z);
    }
  }

  /** A one-time call is completed with no next fire the first time it is recomputed. */
  lemma OnceCompletes(c: WakeUpCall, tzName: string, now: Instant, db: ZoneDb)
    requires c.frequency == Once
    ensures Recomputed(c, tzName, now, db) == Schedule(Completed, None)
  {
  }

  /**
   * Daily and weekly calls move to the owner's local tomorrow, or the same
   * weekday next week, at the call's time, unless that lands after the end date.
   */
  lemma DailyWeeklyAdvance(c: WakeUpCall, tzName: string, now: Instant, db: ZoneDb)
    requires c.frequency in {Daily, Weekly}
    ensures var z := ResolveZone(db, tzName);
      var k := if c.frequency == Daily then 1 else 7;
      var t := FromLocal(db, z, Combine(LocalToday(db, tzName, now) + k, c.scheduledTime));
      Recomputed(c, tzName, now, db) ==
        if c.endDate.Some? && UtcDate(t) > c.endDate.value then Schedule(Completed, None) else Schedule(c.status, Some(t))
  {
  }

  /** Weekday, weekend and custom calls move to local tomorrow exactly when they fire today (UTC); otherwise they are left with no next fire. */
  lemma ScanFrequenciesOutcome(c: WakeUpCall, tzName: string, now: Instant, db: ZoneDb)
    requires c.frequency in {Weekdays, Weekends, Custom}
    ensures var z := ResolveZone(db, tzName);
      var t := FromLocal(db, z, Combine(LocalToday(db, tzName, now) + 1, c.scheduledTime));
      Recomputed(c, tzName, now, db) ==
        if !ShouldExecuteToday(c, now) then Schedule(c.status, None)
        else if c.endDate.Some? && UtcDate(t) > c.endDate.value then Schedule(Completed, None)
        else Schedule(c.status, Some(t))
  {
    ScanWeekOutcome(c, LocalToday(db, tzName, now) + 1, 7, now, db, ResolveZone(db, tzName));
  }

  /**
   * A recompute changes the status only to completed, and then always clears
   * the next fire time; a next fire time it leaves is never after the end date.
   */
  lemma RecomputeStatusRule(c: WakeUpCall, tzName: string, now: Instant, db: ZoneDb)
    ensures var s := Recomputed(c, tzName, now, db);
      && (s.status != c.status ==> s.status == Completed && s.next.None?)
      && (s.next.Some? && c.endDate.Some? ==> UtcDate(s.next.value) <= c.endDate.value)
  {
  }

  /** Recomputing twice at the same moment gives what recomputing once gave. */
  lemma RecomputeIdempotent(c: WakeUpCall, tzName: string, now: Instant, db: ZoneDb)
    ensures var c1 := WithSchedule(c, Recomputed(c, tzName, now, db));
      Recomputed(c1, tzName, now, db) == Recomputed(c, tzName, now, db)
  {
    var c1 := WithSchedule(c, Recomputed(c, tzName, now, db));
    if c.frequency == Once {
      OnceCompletes(c1, tzName, now, db);
    } else if c.frequency in {Daily, Weekly} {
      DailyWeeklyIdempotent(c, c1, tzName, now, db);
    } else if c.frequency in {Weekdays, Weekends, Custom} {
      ScanIdempotent(c, c1, tzName, now, db);
    }
  }

  /** Idempotence for daily and weekly calls: the second recompute lands on the same time, or is cut off again. */
  lemma DailyWeeklyIdempotent(c: WakeUpCall, c1: WakeUpCall, tzName: string, now: Instant, db: ZoneDb)
    requires c.frequency in {Daily, Weekly} && c1 == WithSchedule(c, Recomputed(c, tzName, now, db))
    ensures Recomputed(c1, tzName, now, db) == Recomputed(c, tzName, now, db)
  {
    assert c1.frequency == c.frequency && c1.endDate == c.endDate && c1.scheduledTime == c.scheduledTime;
    DailyWeeklyAdvance(c, tzName, now, db);
    DailyWeeklyAdvance(c1, tzName, now, db);
  }

  /** Idempotence for the scan frequencies: today's flag is untouched by the recompute. */
  lemma ScanIdempotent(c: WakeUpCall, c1: WakeUpCall, tzName: string, now: Instant, db: ZoneDb)
    requires c.frequency in {Weekdays, Weekends, Custom} && c1 == WithSchedule(c, Recomputed(c, tzName, now, db))
    ensures Recomputed(c1, tzName, now, db) == Recomputed(c, tzName, now, db)
  {
    assert c1.frequency == c.frequency && c1.endDate == c.endDate && c1.scheduledTime == c.scheduledTime;
    assert DayFlag(c1, UtcDate(now) % 7) == DayFlag(c, UtcDate(now) % 7);
    ScanFrequenciesOutcome(c, tzName, now, db);
    ScanFrequenciesOutcome(c1, tzName, now, db);
  }

  /**
   * Whenever the target wall time exists in the owner's zone (so on every
   * day of a zone with DST except where the call's time falls into a
   * spring-forward gap), the fire time a recompute sets reads, on the
   * owner's wall clock, as the call's time on local tomorrow (daily and
   * the scan frequencies) or a week from today (weekly).
   */
  lemma NextFireKeepsWallClock(c: WakeUpCall, tzName: string, now: Instant, db: ZoneDb)
    requires var k := if c.frequency == Weekly then 7 else 1;
      WallTimeExists(db, ResolveZone(db, tzName), Combine(LocalToday(db, tzName, now) + k, c.scheduledTime))
    requires c.frequency in {Daily, Weekly, Weekdays, Weekends, Custom}
    ensures var s := Recomputed(c, tzName, now, db);
      var k := if c.frequency == Weekly then 7 else 1;
      s.next.Some? ==>
        var local := ToLocal(db, ResolveZone(db, tzName), s.next.value);
        LocalDate(local) == LocalToday(db, tzName, now) + k && TimeOf(local) == c.scheduledTime
  {
    var z := ResolveZone(db, tzName);
    var k := if c.frequency == Weekly then 7 else 1;
    var l := Combine(LocalToday(db, tzName, now) + k, c.scheduledTime);
    var s := Recomputed(c, tzName, now, db);
    assert s.next.Some? ==> s.next.value == FromLocal(db, z, l) by {
      if c.frequency in {Weekdays, Weekends, Custom} {
        ScanFrequenciesOutcome(c, tzName, now, db);
      } else {
        DailyWeeklyAdvance(c, tzName, now, db);
      }
    }
    assert ToLocal(db, z, FromLocal(db, z, l)) == l;
    CombineSplits(LocalToday(db, tzName, now) + k, c.scheduledTime);
  }

  /** In a zone with a fixed offset, a daily or weekly recompute always lands strictly after `now`. */
  lemma NextFireIsInTheFuture(c: WakeUpCall, tzName: string, now: Instant, db: ZoneDb, offset: int)
    requires FixedOffset(db, ResolveZone(db, tzName), offset)
    requires c.frequency in {Daily, Weekly, Weekdays, Weekends, Custom}
    ensures var s := Recomputed(c, tzName, now, db); s.next.Some? ==> s.next.value > now
  {
    var z := ResolveZone(db, tzName);
    var today := LocalToday(db, tzName, now);
    var local := now + offset;
    assert ToLocal(db, z, now) == local;
    assert today == local / SecondsPerDay;
    assert local < (today + 1) * SecondsPerDay;
    if c.frequency in {Weekdays, Weekends, Custom} {
      ScanFrequenciesOutcome(c, tzName, now, db);
    }
    var k := if c.frequency == Weekly then 7 else 1;
    var l := Combine(today + k, c.scheduledTime);
    assert FromLocal(db, z, l) == l - offset;
    assert l >= (today + 1) * SecondsPerDay;
  }

  /**
   * A weekly call starting Monday 2024-01-01 at 07:00 for an owner in New
   * York (UTC-5 in January), ticked at 2024-01-08T11:59Z: it fires that day
   * and its next fire becomes 2024-01-15T12:00Z, 07:00 local time.
   */
  lemma WeeklyNewYorkExample(c: WakeUpCall, db: ZoneDb)
    requires db.known("America/New_York") && FixedOffset(db, Named("America/New_York"), -Hours(5))
    requires c.frequency == Weekly && c.startDate == 738885 && c.scheduledTime == Hours(7)
    requires c.status == Active && c.endDate.None?
    ensures var now := Days(738885 + 7) + Hours(11) + Minutes(59);
      && ShouldExecuteToday(c, now)
      && Recomputed(c, "America/New_York", now, db) == Schedule(Active, Some(Days(738885 + 14) + Hours(12)))
  {
    var now := Days(738885 + 7) + Hours(11) + Minutes(59);
    var z := Named("America/New_York");
    assert ResolveZone(db, "America/New_York") == z;
    assert UtcDate(now) == 738885 + 7;
    assert ToLocal(db, z, now) == now - Hours(5);
    assert LocalToday(db, "America/New_York", now) == 738885 + 7;
    assert FromLocal(db, z, Combine(738885 + 14, c.scheduledTime)) == Days(738885 + 14) + Hours(12);
  }

  /**
   * New York around its 2024 spring-forward: wall clocks jump from 02:00 to
   * 03:00 on 2024-03-10 (day 738954), when UTC reads 07:00. Before that the
   * offset is five hours, after it four.
   */
  const SpringSwitchWall: LocalDateTime := Days(738954) + Hours(2)

  function SpringToLocal(t: Instant): LocalDateTime {
    if t < SpringSwitchWall + Hours(5) then t - Hours(5) else t - Hours(4)
  }

  function SpringFromLocal(l: LocalDateTime): Instant {
    if l < SpringSwitchWall then l + Hours(5) else l + Hours(4)
  }

  function SpringForwardDb(): ZoneDb {
    ZoneDb(n => n == "America/New_York", (n, t) => SpringToLocal(t), (n, l) => SpringFromLocal(l))
  }

  /**
   * Across that boundary a daily 07:00 call recomputed on 2024-03-09 moves
   * to 11:00 UTC, which still reads 07:00 on the owner's wall clock,
   * although the zone does not round-trip (02:30 on the switch day does not
   * exist): the premise of `NextFireKeepsWallClock` holds there.
   */
  lemma DailyAcrossSpringForward(c: WakeUpCall)
    requires c.frequency == Daily && c.scheduledTime == Hours(7) && c.status == Active && c.endDate.None?
    ensures var db := SpringForwardDb();
      var z := Named("America/New_York");
      var now := Days(738953) + Hours(12);
      && !RoundTrips(db, z)
      && WallTimeExists(db, z, Combine(LocalToday(db, "America/New_York", now) + 1, Hours(7)))
      && Recomputed(c, "America/New_York", now, db) == Schedule(Active, Some(Days(738954) + Hours(11)))
      && ToLocal(db, z, Days(738954) + Hours(11)) == Combine(738954, Hours(7))
  {
    var db := SpringForwardDb();
    var z := Named("America/New_York");
    var now := Days(738953) + Hours(12);
    var gap := Days(738954) + Hours(2) + Minutes(30);
    assert db.fromLocal("America/New_York", gap) == SpringFromLocal(gap) == gap + Hours(4);
    assert db.toLocal("America/New_York", gap + Hours(4)) == SpringToLocal(gap + Hours(4)) == gap - Hours(1);
    assert ToLocal(db, z, FromLocal(db, z, gap)) != gap;
    assert db.known("America/New_York");
    assert db.toLocal("America/New_York", now) == SpringToLocal(now) == Days(738953) + Hours(7);
    assert LocalToday(db, "America/New_York", now) == 738953;
    var target := Combine(738954, Hours(7));
    assert db.fromLocal("America/New_York", target) == SpringFromLocal(target) == Days(738954) + Hours(11);
    assert db.toLocal("America/New_York", Days(738954) + Hours(11)) == SpringToLocal(Days(738954) + Hours(11));
  }

  /** The day scan: up to seven days from local tomorrow, stopping at the first on which the call would fire. */
  method ScanForNextDay(c: WakeUpCall, today: Date, now: Instant, db: ZoneDb, z: Zone) returns (next: Option<Instant>)
    ensures next == ScanWeek(c, today + 1, 7, now, db, z)
  {
    var nextDate := today + 1;
    var i := 0;
    while i < 7
      invariant 0 <= i <= 7 && nextDate == today + 1 + i
      invariant ScanWeek(c, today + 1, 7, now, db, z) == ScanWeek(c, nextDate, 7 - i, now, db, z)
    {
      if ShouldExecuteToday(c.(startDate := nextDate), now) {
        return Some(FromLocal(db, z, Combine(nextDate, c.scheduledTime)));
      }
      nextDate := nextDate + 1;
      i := i + 1;
    }
    return None;
  }

  /** The body of `update_next_execution_time` up to the save: the call's new status and next fire time. */
  method ComputeSchedule(c: WakeUpCall, tzName: string, now: Instant, db: ZoneDb) returns (s: Schedule)
    ensures s == Recomputed(c, tzName, now, db)
  {
    var z := ResolveZone(db, tzName);
    var today := LocalDate(ToLocal(db, z, now));
    var status := c.status;
    var next := c.nextExecution;
    match c.frequency {
      case Once =>
        status := Completed;
        next := None;
      case Daily =>
        next := Some(FromLocal(db, z, Combine(today + 1, c.scheduledTime)));
      case Weekly =>
        next := Some(FromLocal(db, z, Combine(today + 7, c.scheduledTime)));
      case Weekdays =>
        next := ScanForNextDay(c, today, now, db, z);
      case Weekends =>
        next := ScanForNextDay(c, today, now, db, z);
      case Custom =>
        next := ScanForNextDay(c, today, now, db, z);
      case UnknownFrequency =>
    }
    assert Schedule(status, next) == FrequencyStep(c, tzName, now, db);
    if c.endDate.Some? && next.Some? && UtcDate(next.value) > c.endDate.value {
      status := Completed;
      next := None;
    }
    s := Schedule(status, next);
  }

  /** `update_next_execution_time`, on the call with id `id`, for its owner's zone. */
  method UpdateNextExecutionTime(store: WakeUpStore, id: nat, now: Instant, db: ZoneDb)
    requires store.Valid() && id in store.calls
    modifies store
    ensures store.Valid()
    ensures var c := old(store.calls[id]);
      store.calls == old(store.calls)[id := WithSchedule(c, Recomputed(c, old(store.users[c.userId].timezone), now, db))]
    ensures store.users == old(store.users) && store.executions == old(store.executions)
    ensures store.nextExecutionId == old(store.nextExecutionId) && store.queue == old(store.queue)
  {
    var c := store.calls[id];
    var s := ComputeSchedule(c, store.users[c.userId].timezone, now, db);
    store.calls := store.calls[id := c.(status := s.status, nextExecution := s.next)];
  }

  // ---- the tick ----

  /**
   * Where one call's turn in the tick raises: creating its execution,
   * enqueueing it, or saving its recomputed schedule. The `except` around
   * each call's turn catches it and the tick goes on with the next call.
   */
  datatype Fault = CreateFails | EnqueueFails | RecomputeFails

  function FaultOf(faults: map<nat, Fault>, id: nat): Option<Fault> {
    if id in faults then Some(faults[id]) else None
  }

  /** The calls a tick picks up: active, with a next fire time within a minute either side of `now`. */
  function Selected(calls: map<nat, WakeUpCall>, now: Instant): (r: set<nat>)
    ensures forall id :: id in r ==> id in calls && calls[id].nextExecution.Some?
  {
    set id | id in calls && calls[id].status == Active && calls[id].nextExecution.Some?
      && now - Minutes(1) <= calls[id].nextExecution.value <= now + Minutes(1)
  }

  /** The call fires today and its execution row is written. */
  predicate GetsExecution(c: WakeUpCall, now: Instant, fault: Option<Fault>) {
    ShouldExecuteToday(c, now) && fault != Some(CreateFails)
  }

  /** The execution row is written and handed to the queue, which is what the tick counts. */
  predicate IsEnqueued(c: WakeUpCall, now: Instant, fault: Option<Fault>) {
    GetsExecution(c, now, fault) && fault != Some(EnqueueFails)
  }

  /** The turn reaches the recompute and its save succeeds. */
  predicate IsRecomputed(c: WakeUpCall, now: Instant, fault: Option<Fault>) {
    && fault != Some(RecomputeFails)
    && (ShouldExecuteToday(c, now) ==> fault != Some(CreateFails) && fault != Some(EnqueueFails))
  }

  /** A call after its turn in the tick. */
  function TickedCall(c: WakeUpCall, tzName: string, now: Instant, db: ZoneDb, fault: Option<Fault>): (r: WakeUpCall)
    ensures r.userId == c.userId
  {
    if IsRecomputed(c, now, fault) then WithSchedule(c, Recomputed(c, tzName, now, db)) else c
  }

  /** The calls table once the calls in `done` have had their turn. */
  function TickedCalls(calls: map<nat, WakeUpCall>, users: map<nat, User>, done: set<nat>, now: Instant,
                       db: ZoneDb, faults: map<nat, Fault>): (r: map<nat, WakeUpCall>)
    requires forall id :: id in calls ==> calls[id].userId in users
    ensures r.Keys == calls.Keys
    ensures forall id :: id in r ==> r[id].userId == calls[id].userId
  {
    map id | id in calls :: if id in done then TickedCall(calls[id], users[calls[id].userId].timezone, now, db,
                                                          FaultOf(faults, id))
                            else calls[id]
  }

  /** The calls among `done` whose execution was enqueued. */
  function EnqueuedAmong(calls: map<nat, WakeUpCall>, done: set<nat>, now: Instant, faults: map<nat, Fault>): set<nat> {
    set id | id in done && id in calls && IsEnqueued(calls[id], now, FaultOf(faults, id))
  }

  /** The calls among `done` that got an execution row. */
  function CreatedAmong(calls: map<nat, WakeUpCall>, done: set<nat>, now: Instant, faults: map<nat, Fault>): set<nat> {
    set id | id in done && id in calls && GetsExecution(calls[id], now, FaultOf(faults, id))
  }

  /** The rows written for the calls of `order`, one each in turn, under the ids from `base` on. */
  function NewRows(calls: map<nat, WakeUpCall>, order: seq<nat>, base: nat): map<nat, Execution>
    requires forall k :: 0 <= k < |order| ==> order[k] in calls && calls[order[k]].nextExecution.Some?
    decreases |order|
  {
    if order == [] then map[]
    else
      var last := order[|order| - 1];
      NewRows(calls, order[..|order| - 1], base)[base + |order| - 1 :=
        NewExecution(last, calls[last].nextExecution.value, None, false)]
  }

  /** The jobs queued for those calls of `order` that are in `enq`, in turn, for the rows of `NewRows`. */
  function NewJobs(order: seq<nat>, base: nat, enq: set<nat>): seq<Task>
    decreases |order|
  {
    if order == [] then []
    else NewJobs(order[..|order| - 1], base, enq)
         + (if order[|order| - 1] in enq then [ExecuteTask(base + |order| - 1, None)] else [])
  }

  predicate Distinct(xs: seq<nat>) {
    forall i, j :: 0 <= i < j < |xs| ==> xs[i] != xs[j]
  }

  /** `order` lists, without repeats, the calls of `done` in `gets` (those whose turn writes a row). */
  ghost predicate OrderSoFar(calls: map<nat, WakeUpCall>, done: set<nat>, gets: set<nat>, order: seq<nat>) {
    && Distinct(order)
    && (forall k :: 0 <= k < |order| ==> order[k] in calls && calls[order[k]].nextExecution.Some?)
    && (forall id :: id in order <==> id in done && id in gets)
  }

  /**
   * The rows and jobs once the calls of `order` have had their turn, in that
   * order: the old rows plus `NewRows`, the old queue plus `NewJobs` for the
   * calls in `enq` (those whose row is enqueued).
   */
  ghost predicate RowsSoFar(t0: Tables, t: Tables, enq: set<nat>, order: seq<nat>)
    requires forall k :: 0 <= k < |order| ==> order[k] in t0.calls && t0.calls[order[k]].nextExecution.Some?
  {
    && t.nextId == t0.nextId + |order|
    && t.executions == t0.executions + NewRows(t0.calls, order, t0.nextId)
    && t.queue == t0.queue + NewJobs(order, t0.nextId, enq)
  }

  /**
   * The effect of a tick on the selected calls `sel` once those in `done`
   * have had their turn: each of those is `TickedCall`; `order` lists the
   * ones whose turn wrote an execution row, in the order they did; the rows
   * and queue jobs are `NewRows` and `NewJobs` of `order`, and `count` is
   * the number of the calls in `done` whose row was enqueued.
   */
  ghost predicate TickSoFar(t0: Tables, users: map<nat, User>, t: Tables, sel: set<nat>, done: set<nat>,
                            order: seq<nat>, count: nat, now: Instant, db: ZoneDb, faults: map<nat, Fault>)
  {
    && (forall id :: id in t0.calls ==> t0.calls[id].userId in users)
    && done <= sel
    && t.calls == TickedCalls(t0.calls, users, done, now, db, faults)
    && OrderSoFar(t0.calls, done, CreatedAmong(t0.calls, sel, now, faults), order)
    && RowsSoFar(t0, t, EnqueuedAmong(t0.calls, sel, now, faults), order)
    && count == |NewJobs(order, t0.nextId, EnqueuedAmong(t0.calls, sel, now, faults))|
  }

  lemma TickCallsStep(calls: map<nat, WakeUpCall>, users: map<nat, User>, done: set<nat>, id: nat,
                      now: Instant, db: ZoneDb, faults: map<nat, Fault>)
    requires forall i :: i in calls ==> calls[i].userId in users
    requires id in calls && id !in done
    ensures TickedCalls(calls, users, done + {id}, now, db, faults) ==
      TickedCalls(calls, users, done, now, db, faults)[id := TickedCall(calls[id], users[calls[id].userId].timezone,
                                                                       now, db, FaultOf(faults, id))]
  {
  }

  lemma OrderStep(calls: map<nat, WakeUpCall>, done: set<nat>, gets: set<nat>, order: seq<nat>, id: nat)
    requires OrderSoFar(calls, done, gets, order)
    requires id in calls && id !in done && calls[id].nextExecution.Some?
    ensures OrderSoFar(calls, done + {id}, gets, if id in gets then order + [id] else order)
  {
    if id in gets {
      var order' := order + [id];
      assert id !in order;
      assert forall x :: x in order' <==> x in order || x == id;
    }
  }

  lemma RowsStep(t0: Tables, t: Tables, t': Tables, enq: set<nat>, order: seq<nat>, id: nat, written: bool)
    requires forall k :: 0 <= k < |order| ==> order[k] in t0.calls && t0.calls[order[k]].nextExecution.Some?
    requires RowsSoFar(t0, t, enq, order)
    requires id in t0.calls && t0.calls[id].nextExecution.Some?
    requires id in enq ==> written
    requires written ==>
      t'.nextId == t.nextId + 1
      && t'.executions == t.executions[t.nextId := NewExecution(id, t0.calls[id].nextExecution.value, None, false)]
    requires !written ==> t'.nextId == t.nextId && t'.executions == t.executions
    requires t'.queue == t.queue + (if id in enq then [ExecuteTask(t.nextId, None)] else [])
    ensures var order' := if written then order + [id] else order;
      (forall k :: 0 <= k < |order'| ==> order'[k] in t0.calls && t0.calls[order'[k]].nextExecution.Some?)
      && RowsSoFar(t0, t', enq, order')
  {
    if written {
      var order' := order + [id];
      assert order'[..|order|] == order;
      assert NewJobs(order', t0.nextId, enq) ==
        NewJobs(order, t0.nextId, enq) + (if id in enq then [ExecuteTask(t.nextId, None)] else []);
      assert NewRows(t0.calls, order', t0.nextId) ==
        NewRows(t0.calls, order, t0.nextId)[t.nextId := NewExecution(id, t0.calls[id].nextExecution.value, None, false)];
    }
  }

  lemma TurnSets(calls: map<nat, WakeUpCall>, sel: set<nat>, id: nat, now: Instant, faults: map<nat, Fault>)
    requires id in sel && id in calls
    ensures id in CreatedAmong(calls, sel, now, faults) <==> GetsExecution(calls[id], now, FaultOf(faults, id))
    ensures id in EnqueuedAmong(calls, sel, now, faults) <==> IsEnqueued(calls[id], now, FaultOf(faults, id))
    ensures EnqueuedAmong(calls, sel, now, faults) <= CreatedAmong(calls, sel, now, faults)
  {
  }

  lemma TurnTaken(sel: set<nat>, remaining: set<nat>, done: set<nat>, id: nat)
    requires remaining <= sel && done == sel - remaining && id in remaining
    ensures remaining - {id} <= sel && done + {id} == sel - (remaining - {id}) && id in sel && id !in done
  {
  }

  function Among(order: seq<nat>, enq: set<nat>): set<nat> {
    set x | x in order && x in enq
  }

  lemma AmongSnoc(prefix: seq<nat>, y: nat, enq: set<nat>)
    ensures Among(prefix + [y], enq) == Among(prefix, enq) + (if y in enq then {y} else {})
  {
    assert forall x :: x in prefix + [y] <==> x in prefix || x == y;
  }

  lemma NewJobsSnocLength(order: seq<nat>, base: nat, enq: set<nat>)
    requires order != []
    ensures |NewJobs(order, base, enq)| ==
      |NewJobs(order[..|order| - 1], base, enq)| + (if order[|order| - 1] in enq then 1 else 0)
  {
  }

  /** `NewJobs` queues one job per distinct call of `order` that is in `enq`. */
  lemma {:induction false} JobsCount(order: seq<nat>, base: nat, enq: set<nat>)
    requires Distinct(order)
    ensures |NewJobs(order, base, enq)| == |Among(order, enq)|
    decreases |order|
  {
    if order != [] {
      var n := |order| - 1;
      var prefix := order[..n];
      assert Distinct(prefix);
      JobsCount(prefix, base, enq);
      assert order == prefix + [order[n]];
      AmongSnoc(prefix, order[n], enq);
      assert order[n] !in Among(prefix, enq);
      NewJobsSnocLength(order, base, enq);
    }
  }

  /** `process_scheduled_wakeup_calls` returns the number of selected calls whose execution was enqueued. */
  lemma TickCountsEnqueued(t0: Tables, users0: map<nat, User>, t: Tables, sel: set<nat>, order: seq<nat>,
                           count: nat, now: Instant, db: ZoneDb, faults: map<nat, Fault>)
    requires sel == Selected(t0.calls, now)
    requires TickSoFar(t0, users0, t, sel, sel, order, count, now, db, faults)
    ensures count == |EnqueuedAmong(t0.calls, sel, now, faults)|
    ensures |t.queue| == |t0.queue| + count
  {
    var enq := EnqueuedAmong(t0.calls, sel, now, faults);
    JobsCount(order, t0.nextId, enq);
    assert Among(order, enq) == enq;
  }

  /** One call's turn in `process_scheduled_wakeup_calls`. */
  method TickOne(store: WakeUpStore, id: nat, now: Instant, db: ZoneDb, fault: Option<Fault>)
    returns (enqueued: bool)
    requires store.Valid() && id in store.calls && store.calls[id].nextExecution.Some?
    modifies store
    ensures store.Valid()
    ensures var c := old(store.calls[id]);
      && store.calls == old(store.calls)[id := TickedCall(c, old(store.users[c.userId].timezone), now, db, fault)]
      && enqueued == IsEnqueued(c, now, fault)
      && (GetsExecution(c, now, fault) ==>
            && old(store.nextExecutionId) !in old(store.executions)
            && store.nextExecutionId == old(store.nextExecutionId) + 1
            && store.executions == old(store.executions)[old(store.nextExecutionId) :=
                 NewExecution(id, c.nextExecution.value, None, false)])
      && (!GetsExecution(c, now, fault) ==>
            store.nextExecutionId == old(store.nextExecutionId) && store.executions == old(store.executions))
      && store.queue == old(store.queue) + (if enqueued then [ExecuteTask(old(store.nextExecutionId), None)] else [])
    ensures store.users == old(store.users)
  {
    var c := store.calls[id];
    enqueued := false;
    if ShouldExecuteToday(c, now) {
      if fault == Some(CreateFails) {
        return;
      }
      var e := store.CreateExecution(NewExecution(id, c.nextExecution.value, None, false));
      if fault == Some(EnqueueFails) {
        return;
      }
      store.Enqueue(ExecuteTask(e, None));
      enqueued := true;
    }
    if fault == Some(RecomputeFails) {
      return;
    }
    UpdateNextExecutionTime(store, id, now, db);
  }

  /** Before the first turn nothing has changed. */
  lemma TickStart(t0: Tables, users0: map<nat, User>, sel: set<nat>, now: Instant, db: ZoneDb, faults: map<nat, Fault>)
    requires forall id :: id in t0.calls ==> t0.calls[id].userId in users0
    ensures TickSoFar(t0, users0, t0, sel, {}, [], 0, now, db, faults)
  {
    assert t0.executions + NewRows(t0.calls, [], t0.nextId) == t0.executions;
    assert TickedCalls(t0.calls, users0, {}, now, db, faults) == t0.calls;
  }

  /** A call that has not had its turn yet is as the tick found it. */
  lemma NotYetTaken(t0: Tables, users0: map<nat, User>, t: Tables, sel: set<nat>, done: set<nat>,
                    order: seq<nat>, count: nat, now: Instant, db: ZoneDb, faults: map<nat, Fault>, id: nat)
    requires TickSoFar(t0, users0, t, sel, done, order, count, now, db, faults)
    requires sel == Selected(t0.calls, now) && id in sel && id !in done
    ensures id in t.calls && t.calls[id] == t0.calls[id] && t.calls[id].nextExecution.Some?
  {
  }

  /** What one turn (as `TickOne` states it) does to the tick's running account. */
  lemma TurnStep(t0: Tables, users0: map<nat, User>, t: Tables, t': Tables, sel: set<nat>, done: set<nat>,
                 order: seq<nat>, count: nat, now: Instant, db: ZoneDb, faults: map<nat, Fault>, id: nat,
                 enqueued: bool)
    requires TickSoFar(t0, users0, t, sel, done, order, count, now, db, faults)
    requires sel == Selected(t0.calls, now) && id in sel && id !in done
    requires var c := t0.calls[id];
      var fault := FaultOf(faults, id);
      && t'.calls == t.calls[id := TickedCall(c, users0[c.userId].timezone, now, db, fault)]
      && enqueued == IsEnqueued(c, now, fault)
      && (GetsExecution(c, now, fault) ==>
            t'.nextId == t.nextId + 1 && t'.executions == t.executions[t.nextId := NewExecution(id, c.nextExecution.value, None, false)])
      && (!GetsExecution(c, now, fault) ==> t'.nextId == t.nextId && t'.executions == t.executions)
      && t'.queue == t.queue + (if enqueued then [ExecuteTask(t.nextId, None)] else [])
    ensures TickSoFar(t0, users0, t', sel, done + {id},
                      if GetsExecution(t0.calls[id], now, FaultOf(faults, id)) then order + [id] else order,
                      if enqueued then count + 1 else count, now, db, faults)
  {
    var gets := CreatedAmong(t0.calls, sel, now, faults);
    var enq := EnqueuedAmong(t0.calls, sel, now, faults);
    TickCallsStep(t0.calls, users0, done, id, now, db, faults);
    TurnSets(t0.calls, sel, id, now, faults);
    OrderStep(t0.calls, done, gets, order, id);
    RowsStep(t0, t, t', enq, order, id, id in gets);
  }

  /** One turn of the tick's loop, with what it does to the tick's running account. */
  method TakeTurn(store: WakeUpStore, ghost t0: Tables, ghost users0: map<nat, User>, ghost sel: set<nat>,
                  ghost done: set<nat>, ghost order: seq<nat>, count: nat,
                  id: nat, now: Instant, db: ZoneDb, faults: map<nat, Fault>)
    returns (count': nat, ghost order': seq<nat>)
    requires store.Valid() && store.users == users0
    requires sel == Selected(t0.calls, now) && id in sel && id !in done
    requires TickSoFar(t0, users0, store.Snapshot(), sel, done, order, count, now, db, faults)
    modifies store
    ensures store.Valid() && store.users == users0
    ensures TickSoFar(t0, users0, store.Snapshot(), sel, done + {id}, order', count', now, db, faults)
  {
    ghost var t := store.Snapshot();
    NotYetTaken(t0, users0, t, sel, done, order, count, now, db, faults, id);
    var enqueued := TickOne(store, id, now, db, FaultOf(faults, id));
    TurnStep(t0, users0, t, store.Snapshot(), sel, done, order, count, now, db, faults, id, enqueued);
    order' := if GetsExecution(t0.calls[id], now, FaultOf(faults, id)) then order + [id] else order;
    count' := if enqueued then count + 1 else count;
  }

  /**
   * `process_scheduled_wakeup_calls`: each selected call in turn, in no
   * particular order. `order` lists the calls that got an execution row, in
   * the order they got it (row ids are handed out in that order); the count
   * returned is the number of rows enqueued.
   */
  method ProcessScheduledWakeupCalls(store: WakeUpStore, now: Instant, db: ZoneDb, faults: map<nat, Fault>)
    returns (processedCount: nat, ghost order: seq<nat>)
    requires store.Valid()
    modifies store
    ensures store.Valid() && store.users == old(store.users)
    ensures var sel := Selected(old(store.calls), now);
      TickSoFar(old(store.Snapshot()), old(store.users), store.Snapshot(), sel, sel, order, processedCount,
                now, db, faults)
  {
    ghost var t0 := store.Snapshot();
    ghost var users0 := store.users;
    var sel := Selected(store.calls, now);
    var remaining := sel;
    ghost var done: set<nat> := {};
    processedCount := 0;
    order := [];
    TickStart(t0, users0, sel, now, db, faults);
    while remaining != {}
      invariant store.Valid() && store.users == users0
      invariant remaining <= sel && done == sel - remaining
      invariant TickSoFar(t0, users0, store.Snapshot(), sel, done, order, processedCount, now, db, faults)
      decreases |remaining|
    {
      var id :| id in remaining;
      TurnTaken(sel, remaining, done, id);
      processedCount, order := TakeTurn(store, t0, users0, sel, done, order, processedCount, id, now, db, faults);
      remaining := remaining - {id};
      done := done + {id};
    }
    assert done == sel;
  }

  // ---- the executor ----

  const Greeting: string := "Good morning! This is your " + "wake-up call from Vamshi."
  const NoZipMessage: string := "Weather information is not available " + "because no zip code is configured."

  /** The text of an SMS wake-up call: greeting, weather and custom message, stripped. */
  function WakeUpMessage(weather: string, custom: string): string {
    Strip(Greeting + " " + weather + " " + custom)
  }

  /**
   * The weather part of `execute_wakeup_call`: the announcement (one lookup),
   * the data stored on the execution (a second lookup), and the weather
   * tables afterwards. `stored` is None when nothing is stored.
   */
  datatype WeatherPart = WeatherPart(message: string, stored: Option<Option<WeatherData>>, state: WeatherState)

  function WeatherForCall(st: WeatherState, key: bool, c: WakeUpCall, userZip: string, now: Instant,
                          first: FetchOutcome, second: FetchOutcome): WeatherPart
  {
    if !c.includeWeather then WeatherPart("", None, st)
    else
      var zip := GetWeatherZipCode(c, userZip);
      if zip == "" then WeatherPart(NoZipMessage, None, st)
      else
        var (d1, st1) := Lookup(st, key, zip, false, now, first);
        var (d2, st2) := Lookup(st1, key, zip, false, now, second);
        WeatherPart(Announcement(d1), Some(d2), st2)
  }

  /**
   * What the dispatcher answers for one execution: the voice result, the SMS
   * result, the notification rows written (under ids from `n` on) and how
   * many ids were used.
   */
  datatype Delivery = Delivery(voice: Option<SendResult>, sms: Option<SendResult>,
                               logs: map<nat, NotificationLog>, used: nat)

  function Deliveries(c: WakeUpCall, message: string, n: nat, now: Instant, demoMode: bool, configured: bool,
                      voiceReply: ProviderReply, smsReply: ProviderReply): Delivery
  {
    match c.contactMethod
    case Sms =>
      var (r, log) := SmsDispatch(n, c.phoneNumber, message, Some(c.userId), c.isDemo, now, demoMode, configured,
                                  smsReply);
      Delivery(None, Some(r), map[n := log], 1)
    case Call =>
      var (v, vlog) := CallDispatch(n, c.phoneNumber, Some(c.userId), c.isDemo, now, demoMode, configured, voiceReply);
      if v.Sent? then Delivery(Some(v), None, map[n := vlog], 1)
      else
        var (r, log) := SmsDispatch(n + 1, c.phoneNumber, message, Some(c.userId), c.isDemo, now, demoMode,
                                    configured, smsReply);
        Delivery(Some(v), Some(r), map[n := vlog, n + 1 := log], 2)
    case UnknownMethod => Delivery(None, None, map[], 0)
  }

  /** The execution once the dispatcher has answered. */
  function Settled(e: Execution, d: Delivery): (r: Execution)
    ensures r.callId == e.callId && r.scheduledFor == e.scheduledFor && r.executedAt == e.executedAt
    ensures r.isSnooze == e.isSnooze && r.weatherData == e.weatherData
  {
    match d.voice
    case Some(Sent(sid, status)) => e.(status := ExecCompleted, twilioSid := Some(sid), twilioStatus := Some(status))
    case Some(NotSent(e1)) =>
      (match d.sms
       case Some(Sent(sid, status)) =>
         e.(status := ExecCompleted, twilioSid := Some(sid), twilioStatus := Some(status),
            errorMessage := Some("Voice call failed, SMS sent instead: " + e1))
       case Some(NotSent(e2)) =>
         e.(status := ExecFailed, errorMessage := Some("Voice call failed: " + e1 + ". SMS fallback also failed: " + e2))
       case None => e)
    case None =>
      (match d.sms
       case Some(Sent(sid, status)) => e.(status := ExecCompleted, twilioSid := Some(sid), twilioStatus := Some(status))
       case Some(NotSent(err)) => e.(status := ExecFailed, errorMessage := Some(err))
       case None => e)
  }

  /** The execution marked in progress, with the weather data stored when there is some to store. */
  function Started(e: Execution, now: Instant, stored: Option<Option<WeatherData>>): (r: Execution)
    ensures r.status == ExecInProgress && r.executedAt == Some(now)
    ensures r.callId == e.callId && r.scheduledFor == e.scheduledFor && r.isSnooze == e.isSnooze
  {
    e.(status := ExecInProgress, executedAt := Some(now), weatherData := if stored.Some? then stored.value else e.weatherData)
  }

  /**
   * An SMS call ends completed with the provider's sid exactly when its one
   * send succeeds, and failed with the send's error otherwise.
   */
  lemma SmsExecutionOutcome(e: Execution, c: WakeUpCall, message: string, n: nat, now: Instant, demoMode: bool,
                            configured: bool, voiceReply: ProviderReply, smsReply: ProviderReply)
    requires c.contactMethod == Sms
    ensures var d := Deliveries(c, message, n, now, demoMode, configured, voiceReply, smsReply);
      var (r, _) := SmsDispatch(n, c.phoneNumber, message, Some(c.userId), c.isDemo, now, demoMode, configured,
                                smsReply);
      var x := Settled(e, d);
      && d.used == 1 && d.logs.Keys == {n}
      && (r.Sent? ==> x.status == ExecCompleted && x.twilioSid == Some(r.sid) && x.twilioStatus == Some(r.status)
                      && x.errorMessage == e.errorMessage)
      && (r.NotSent? ==> x.status == ExecFailed && x.errorMessage == Some(r.error) && x.twilioSid == e.twilioSid)
  {
  }

  /**
   * A voice call that the provider accepts ends completed with the call's
   * sid and writes one row; one that fails falls back to an SMS of the same
   * text under the next id, and ends completed with the SMS sid and a note
   * of the voice error, or failed with both errors.
   */
  lemma CallExecutionOutcome(e: Execution, c: WakeUpCall, message: string, n: nat, now: Instant, demoMode: bool,
                             configured: bool, voiceReply: ProviderReply, smsReply: ProviderReply)
    requires c.contactMethod == Call
    ensures var d := Deliveries(c, message, n, now, demoMode, configured, voiceReply, smsReply);
      var (v, _) := CallDispatch(n, c.phoneNumber, Some(c.userId), c.isDemo, now, demoMode, configured, voiceReply);
      var (r, _) := SmsDispatch(n + 1, c.phoneNumber, message, Some(c.userId), c.isDemo, now, demoMode, configured,
                                smsReply);
      var x := Settled(e, d);
      && (v.Sent? ==> d.used == 1 && d.logs.Keys == {n}
                      && x.status == ExecCompleted && x.twilioSid == Some(v.sid) && x.twilioStatus == Some(v.status))
      && (v.NotSent? ==> d.used == 2 && d.logs.Keys == {n, n + 1})
      && (v.NotSent? && r.Sent? ==>
            x.status == ExecCompleted && x.twilioSid == Some(r.sid)
            && x.errorMessage == Some("Voice call failed, SMS sent instead: " + v.error))
      && (v.NotSent? && r.NotSent? ==>
            x.status == ExecFailed && x.twilioSid == e.twilioSid
            && x.errorMessage == Some("Voice call failed: " + v.error + ". SMS fallback also failed: " + r.error))
  {
  }

  /** A contact method that is neither of the two sends nothing and leaves the execution in progress. */
  lemma UnknownMethodStaysInProgress(e: Execution, c: WakeUpCall, message: string, n: nat, now: Instant,
                                     demoMode: bool, configured: bool, voiceReply: ProviderReply,
                                     smsReply: ProviderReply)
    requires c.contactMethod == UnknownMethod
    ensures var d := Deliveries(c, message, n, now, demoMode, configured, voiceReply, smsReply);
      d.used == 0 && d.logs == map[] && Settled(e, d) == e
  {
  }

  /** A demo call always completes, under the synthetic sid of its first row. */
  lemma DemoExecutionCompletes(e: Execution, c: WakeUpCall, message: string, n: nat, now: Instant, demoMode: bool,
                               configured: bool, voiceReply: ProviderReply, smsReply: ProviderReply)
    requires c.isDemo || demoMode
    ensures var x := Settled(e, Deliveries(c, message, n, now, demoMode, configured, voiceReply, smsReply));
      && (c.contactMethod == Sms ==>
            x.status == ExecCompleted && x.twilioSid == Some("demo_sms_" + NatToString(n)) && x.twilioStatus == Some("sent"))
      && (c.contactMethod == Call ==>
            x.status == ExecCompleted && x.twilioSid == Some("demo_call_" + NatToString(n))
            && x.twilioStatus == Some("initiated"))
  {
  }

  /** Without weather or custom text the message is the bare greeting; with only an announcement, greeting and announcement. */
  lemma WakeUpMessageShapes(weather: string)
    ensures WakeUpMessage("", "") == Greeting
    ensures weather != [] && !IsWhitespace(weather[|weather| - 1]) ==>
      WakeUpMessage(weather, "") == Greeting + " " + weather
  {
    assert Greeting[0] == 'G' && Greeting[|Greeting| - 1] == '.';
    assert Greeting + " " + "" + " " + "" == Greeting + "  ";
    StripOfTrailingBlanks(Greeting, "  ");
    if weather != [] && !IsWhitespace(weather[|weather| - 1]) {
      var g := Greeting + " " + weather;
      assert g[0] == 'G' && g[|g| - 1] == weather[|weather| - 1];
      assert Greeting + " " + weather + " " + "" == g + " ";
      StripOfTrailingBlanks(g, " ");
    }
  }

  /** The weather part of `execute_wakeup_call`, as `WeatherForCall` states it. */
  method GatherWeather(weather: WeatherService, c: WakeUpCall, userZip: string, now: Instant,
                       first: FetchOutcome, second: FetchOutcome)
    returns (message: string, fetched: bool, data: Option<WeatherData>)
    requires weather.Valid()
    modifies weather
    ensures weather.Valid()
    ensures var part := WeatherForCall(old(weather.State()), weather.apiKeyConfigured, c, userZip, now, first, second);
      message == part.message && weather.State() == part.state
      && part.stored == (if fetched then Some(data) else None)
  {
    message := "";
    fetched := false;
    data := None;
    if c.includeWeather {
      var zip := GetWeatherZipCode(c, userZip);
      if zip != "" {
        message := weather.GetFormattedWeatherAnnouncement(zip, now, first);
        data := weather.GetWeather(zip, false, now, second);
        fetched := true;
      } else {
        message := NoZipMessage;
      }
    }
  }

  /** The weather part for call `c`, whose owner is in `users`. */
  function CallWeather(st: WeatherState, key: bool, c: WakeUpCall, users: map<nat, User>, now: Instant,
                       first: FetchOutcome, second: FetchOutcome): WeatherPart
    requires c.userId in users
  {
    WeatherForCall(st, key, c, users[c.userId].zipCode, now, first, second)
  }

  /** The dispatcher's answers for call `c`, whose message carries its weather part. */
  function CallDeliveries(st: WeatherState, key: bool, c: WakeUpCall, users: map<nat, User>, now: Instant,
                          first: FetchOutcome, second: FetchOutcome, n: nat, demoMode: bool, configured: bool,
                          voiceReply: ProviderReply, smsReply: ProviderReply): Delivery
    requires c.userId in users
  {
    Deliveries(c, WakeUpMessage(CallWeather(st, key, c, users, now, first, second).message, c.customMessage), n, now,
               demoMode, configured, voiceReply, smsReply)
  }


  /** The SMS branch of the dispatcher. */
  method DispatchSms(twilio: TwilioService, e: Execution, c: WakeUpCall, message: string, now: Instant,
                     smsReply: ProviderReply)
    returns (e': Execution)
    requires twilio.Valid() && c.contactMethod == Sms
    modifies twilio
    ensures twilio.Valid()
    ensures twilio.webhooks == old(twilio.webhooks) && twilio.nextWebhookId == old(twilio.nextWebhookId)
    ensures var (r, log) := SmsDispatch(old(twilio.nextLogId), c.phoneNumber, message, Some(c.userId), c.isDemo, now,
                                        twilio.demoMode, twilio.clientConfigured, smsReply);
      twilio.logs == old(twilio.logs) + map[old(twilio.nextLogId) := log] && twilio.nextLogId == old(twilio.nextLogId) + 1
      && e' == Settled(e, Delivery(None, Some(r), map[old(twilio.nextLogId) := log], 1))
  {
    ghost var logs0, n := twilio.logs, twilio.nextLogId;
    var result := twilio.SendSms(c.phoneNumber, message, Some(c.userId), c.isDemo, now, smsReply);
    UpdateIsUnion(logs0, n, twilio.logs[n]);
    e' := e;
    match result {
      case Sent(sid, status) =>
        e' := e'.(status := ExecCompleted);
        e' := e'.(twilioSid := Some(sid));
        e' := e'.(twilioStatus := Some(status));
      case NotSent(err) =>
        e' := e'.(status := ExecFailed);
        e' := e'.(errorMessage := Some(err));
    }
  }

  /** The voice branch of the dispatcher, with its SMS fallback. */
  method DispatchCall(twilio: TwilioService, e: Execution, c: WakeUpCall, message: string, now: Instant,
                      twimlUrl: string, voiceReply: ProviderReply, smsReply: ProviderReply)
    returns (e': Execution)
    requires twilio.Valid() && c.contactMethod == Call
    modifies twilio
    ensures twilio.Valid()
    ensures twilio.webhooks == old(twilio.webhooks) && twilio.nextWebhookId == old(twilio.nextWebhookId)
    ensures var d := Deliveries(c, message, old(twilio.nextLogId), now, twilio.demoMode, twilio.clientConfigured,
                                voiceReply, smsReply);
      twilio.logs == old(twilio.logs) + d.logs && twilio.nextLogId == old(twilio.nextLogId) + d.used
      && e' == Settled(e, d)
  {
    ghost var logs0, n := twilio.logs, twilio.nextLogId;
    e' := e;
    var result := twilio.MakeCall(c.phoneNumber, twimlUrl, Some(c.userId), c.isDemo, now, voiceReply);
    UpdateIsUnion(logs0, n, twilio.logs[n]);
    if result.Sent? {
      e' := e'.(status := ExecCompleted);
      e' := e'.(twilioSid := Some(result.sid));
      e' := e'.(twilioStatus := Some(result.status));
    } else {
      ghost var vlog := twilio.logs[n];
      e' := FallBackToSms(twilio, e, c, message, now, result, twilio.logs, n, vlog, smsReply);
      assert twilio.logs == logs0 + map[n := vlog, n + 1 := twilio.logs[n + 1]];
    }
  }

  /**
   * The SMS fallback after voice call `v` failed and wrote row `vlog` under
   * id `n`: an SMS of the same text under id `n + 1`.
   */
  method FallBackToSms(twilio: TwilioService, e: Execution, c: WakeUpCall, message: string, now: Instant,
                       v: SendResult, ghost logs1: map<nat, NotificationLog>, ghost n: nat,
                       ghost vlog: NotificationLog, smsReply: ProviderReply)
    returns (e': Execution)
    requires twilio.Valid() && v.NotSent? && twilio.nextLogId == n + 1 && twilio.logs == logs1
    modifies twilio
    ensures twilio.Valid()
    ensures twilio.webhooks == old(twilio.webhooks) && twilio.nextWebhookId == old(twilio.nextWebhookId)
    ensures var (r, log) := SmsDispatch(n + 1, c.phoneNumber, message, Some(c.userId), c.isDemo, now,
                                        twilio.demoMode, twilio.clientConfigured, smsReply);
      twilio.logs == logs1[n + 1 := log] && twilio.nextLogId == n + 2
      && e' == Settled(e, Delivery(Some(v), Some(r), map[n := vlog, n + 1 := log], 2))
  {
    var smsResult := twilio.SendSms(c.phoneNumber, message, Some(c.userId), c.isDemo, now, smsReply);
    e' := e;
    if smsResult.Sent? {
      e' := e'.(status := ExecCompleted);
      e' := e'.(twilioSid := Some(smsResult.sid));
      e' := e'.(twilioStatus := Some(smsResult.status));
      e' := e'.(errorMessage := Some("Voice call failed, SMS sent instead: " + v.error));
    } else {
      e' := e'.(status := ExecFailed);
      e' := e'.(errorMessage := Some("Voice call failed: " + v.error + ". SMS fallback also failed: "
                                     + smsResult.error));
    }
  }

  /** The dispatch part of `execute_wakeup_call`, as `Deliveries` and `Settled` state it. */
  method Dispatch(twilio: TwilioService, e: Execution, c: WakeUpCall, message: string, now: Instant,
                  twimlUrl: string, voiceReply: ProviderReply, smsReply: ProviderReply)
    returns (e': Execution)
    requires twilio.Valid()
    modifies twilio
    ensures twilio.Valid()
    ensures twilio.webhooks == old(twilio.webhooks) && twilio.nextWebhookId == old(twilio.nextWebhookId)
    ensures var d := Deliveries(c, message, old(twilio.nextLogId), now, twilio.demoMode, twilio.clientConfigured,
                                voiceReply, smsReply);
      twilio.logs == old(twilio.logs) + d.logs && twilio.nextLogId == old(twilio.nextLogId) + d.used
      && e' == Settled(e, d)
  {
    if c.contactMethod == Sms {
      e' := DispatchSms(twilio, e, c, message, now, smsReply);
    } else if c.contactMethod == Call {
      e' := DispatchCall(twilio, e, c, message, now, twimlUrl, voiceReply, smsReply);
    } else {
      e' := e;
      assert twilio.logs == old(twilio.logs) + map[];
    }
  }

  /**
   * Everything `execute_wakeup_call` produces for execution `e0` of call
   * `c`: the settled execution, the weather tables afterwards, and the
   * notification rows written from id `n` on, with how many ids they used.
   */
  datatype Effect = Effect(execution: Execution, weather: WeatherState, logs: map<nat, NotificationLog>, used: nat)

  function Executed(e0: Execution, c: WakeUpCall, userZip: string, st: WeatherState, key: bool, n: nat, now: Instant,
                    demoMode: bool, configured: bool, first: FetchOutcome, second: FetchOutcome,
                    voiceReply: ProviderReply, smsReply: ProviderReply): Effect
  {
    var part := WeatherForCall(st, key, c, userZip, now, first, second);
    var d := Deliveries(c, WakeUpMessage(part.message, c.customMessage), n, now, demoMode, configured, voiceReply,
                        smsReply);
    Effect(Settled(Started(e0, now, part.stored), d), part.state, d.logs, d.used)
  }

  /**
   * The body of `execute_wakeup_call` between the two saves: the execution
   * `e0` of call `c`, whose owner's zip code is `userZip`, marked in
   * progress, given its weather, and settled by the dispatcher.
   */
  method RunExecution(weather: WeatherService, twilio: TwilioService, e0: Execution, c: WakeUpCall, userZip: string,
                      now: Instant, twimlUrl: string, first: FetchOutcome, second: FetchOutcome,
                      voiceReply: ProviderReply, smsReply: ProviderReply)
    returns (e: Execution)
    requires weather.Valid() && twilio.Valid()
    modifies weather, twilio
    ensures weather.Valid() && twilio.Valid()
    ensures twilio.webhooks == old(twilio.webhooks) && twilio.nextWebhookId == old(twilio.nextWebhookId)
    ensures var x := Executed(e0, c, userZip, old(weather.State()), weather.apiKeyConfigured, old(twilio.nextLogId),
                              now, twilio.demoMode, twilio.clientConfigured, first, second, voiceReply, smsReply);
      && weather.State() == x.weather
      && twilio.logs == old(twilio.logs) + x.logs && twilio.nextLogId == old(twilio.nextLogId) + x.used
      && e == x.execution
  {
    e := e0.(status := ExecInProgress, executedAt := Some(now));
    var weatherMessage, fetched, data := GatherWeather(weather, c, userZip, now, first, second);
    if fetched {
      e := e.(weatherData := data);
    }
    var message := WakeUpMessage(weatherMessage, c.customMessage);
    e := Dispatch(twilio, e, c, message, now, twimlUrl, voiceReply, smsReply);
  }

  /**
   * The rest of `execute_wakeup_call` once execution `executionId`, a copy
   * of `e0` marked in progress, has been saved: run it, then save the call's
   * `last_executed` and the settled execution.
   */
  method FinishExecution(store: WakeUpStore, weather: WeatherService, twilio: TwilioService, executionId: nat,
                         e0: Execution, c: WakeUpCall, userZip: string, now: Instant, twimlUrl: string,
                         first: FetchOutcome, second: FetchOutcome, voiceReply: ProviderReply, smsReply: ProviderReply)
    requires store.Valid() && weather.Valid() && twilio.Valid() && executionId in store.executions
    requires e0.callId in store.calls && store.calls[e0.callId] == c
    modifies store, weather, twilio
    ensures store.Valid() && weather.Valid() && twilio.Valid()
    ensures store.users == old(store.users) && store.nextExecutionId == old(store.nextExecutionId)
    ensures store.queue == old(store.queue)
    ensures twilio.webhooks == old(twilio.webhooks) && twilio.nextWebhookId == old(twilio.nextWebhookId)
    ensures var x := Executed(e0, c, userZip, old(weather.State()), weather.apiKeyConfigured, old(twilio.nextLogId),
                              now, twilio.demoMode, twilio.clientConfigured, first, second, voiceReply, smsReply);
      && weather.State() == x.weather
      && twilio.logs == old(twilio.logs) + x.logs && twilio.nextLogId == old(twilio.nextLogId) + x.used
      && store.executions == old(store.executions)[executionId := x.execution]
      && store.calls == old(store.calls)[e0.callId := c.(lastExecuted := Some(now))]
  {
    var e := RunExecution(weather, twilio, e0, c, userZip, now, twimlUrl, first, second, voiceReply, smsReply);
    store.SaveCall(e0.callId, c.(lastExecuted := Some(now)));
    store.SaveExecution(executionId, e);
  }

  /** `execute_wakeup_call` on an execution that exists. */
  method ExecuteFound(store: WakeUpStore, weather: WeatherService, twilio: TwilioService, executionId: nat,
                      now: Instant, twimlUrl: string, first: FetchOutcome, second: FetchOutcome,
                      voiceReply: ProviderReply, smsReply: ProviderReply)
    requires store.Valid() && weather.Valid() && twilio.Valid() && executionId in store.executions
    modifies store, weather, twilio
    ensures store.Valid() && weather.Valid() && twilio.Valid()
    ensures store.users == old(store.users) && store.nextExecutionId == old(store.nextExecutionId)
    ensures store.queue == old(store.queue)
    ensures twilio.webhooks == old(twilio.webhooks) && twilio.nextWebhookId == old(twilio.nextWebhookId)
    ensures var e := old(store.executions[executionId]);
      var c := old(store.calls[e.callId]);
      var x := Executed(e, c, old(store.users[c.userId].zipCode), old(weather.State()), weather.apiKeyConfigured,
                        old(twilio.nextLogId), now, twilio.demoMode, twilio.clientConfigured, first, second,
                        voiceReply, smsReply);
      && weather.State() == x.weather
      && twilio.logs == old(twilio.logs) + x.logs && twilio.nextLogId == old(twilio.nextLogId) + x.used
      && store.executions == old(store.executions)[executionId := x.execution]
      && store.calls == old(store.calls)[e.callId := c.(lastExecuted := Some(now))]
  {
    var e := store.executions[executionId];
    var c := store.calls[e.callId];
    var user := store.users[c.userId];
    ghost var executions0 := store.executions;
    store.SaveExecution(executionId, e.(status := ExecInProgress, executedAt := Some(now)));
    FinishExecution(store, weather, twilio, executionId, e, c, user.zipCode, now, twimlUrl, first, second,
                    voiceReply, smsReply);
    OverwriteTwice(executions0, executionId, e.(status := ExecInProgress, executedAt := Some(now)),
                   store.executions[executionId]);
  }


  /**
   * `execute_wakeup_call`: an unknown execution id changes nothing;
   * otherwise the execution is marked in progress, the weather part runs,
   * the dispatcher is asked along the call's contact method, and the
   * execution and the call's `last_executed` are saved.
   */
  method ExecuteWakeupCall(store: WakeUpStore, weather: WeatherService, twilio: TwilioService, executionId: nat,
                           now: Instant, twimlUrl: string, first: FetchOutcome, second: FetchOutcome,
                           voiceReply: ProviderReply, smsReply: ProviderReply)
    requires store.Valid() && weather.Valid() && twilio.Valid()
    modifies store, weather, twilio
    ensures store.Valid() && weather.Valid() && twilio.Valid()
    ensures store.users == old(store.users) && store.nextExecutionId == old(store.nextExecutionId)
    ensures store.queue == old(store.queue)
    ensures twilio.webhooks == old(twilio.webhooks) && twilio.nextWebhookId == old(twilio.nextWebhookId)
    ensures executionId !in old(store.executions) ==>
      && store.calls == old(store.calls) && store.executions == old(store.executions)
      && weather.State() == old(weather.State())
      && twilio.logs == old(twilio.logs) && twilio.nextLogId == old(twilio.nextLogId)
    ensures executionId in old(store.executions) ==>
      var e := old(store.executions[executionId]);
      var c := old(store.calls[e.callId]);
      var x := Executed(e, c, old(store.users[c.userId].zipCode), old(weather.State()), weather.apiKeyConfigured,
                        old(twilio.nextLogId), now, twilio.demoMode, twilio.clientConfigured, first, second,
                        voiceReply, smsReply);
      && weather.State() == x.weather
      && twilio.logs == old(twilio.logs) + x.logs && twilio.nextLogId == old(twilio.nextLogId) + x.used
      && store.executions == old(store.executions)[executionId := x.execution]
      && store.calls == old(store.calls)[e.callId := c.(lastExecuted := Some(now))]
  {
    if executionId in store.executions {
      ExecuteFound(store, weather, twilio, executionId, now, twimlUrl, first, second, voiceReply, smsReply);
    }
  }

  // ---- snooze and rescheduling ----

  /** The countdown a snooze job waits: the seconds left until the snooze time, or none once it has passed. */
  function SnoozeCountdown(snoozeTime: Instant, now: Instant): (r: Option<int>)
    ensures r.Some? <==> snoozeTime > now
    ensures r.Some? ==> r.value > 0 && now + r.value == snoozeTime
  {
    var delay := snoozeTime - now;
    if delay > 0 then Some(delay) else None
  }

  /**
   * `schedule_snooze_call`: a pending snooze execution of the original
   * execution's call at the snooze time, queued with a countdown when the
   * time is still ahead and at once otherwise. An unknown original changes
   * nothing.
   */
  method ScheduleSnoozeCall(store: WakeUpStore, executionId: nat, snoozeTime: Instant, now: Instant)
    requires store.Valid()
    modifies store
    ensures store.Valid()
    ensures store.users == old(store.users) && store.calls == old(store.calls)
    ensures executionId !in old(store.executions) ==> store.Snapshot() == old(store.Snapshot())
    ensures executionId in old(store.executions) ==>
      var id := old(store.nextExecutionId);
      && id !in old(store.executions) && store.nextExecutionId == id + 1
      && store.executions == old(store.executions)[id := NewExecution(old(store.executions[executionId]).callId,
                                                                       snoozeTime, None, true)]
      && store.queue == old(store.queue) + [ExecuteTask(id, SnoozeCountdown(snoozeTime, now))]
  {
    if executionId in store.executions {
      var original := store.executions[executionId];
      var id := store.CreateExecution(NewExecution(original.callId, snoozeTime, None, true));
      var delay := snoozeTime - now;
      if delay > 0 {
        store.Enqueue(ExecuteTask(id, Some(delay)));
      } else {
        store.Enqueue(ExecuteTask(id, None));
      }
    }
  }

  /** An active call with no next fire time: one that `schedule_next_wakeup_calls` recomputes. */
  predicate Unscheduled(c: WakeUpCall) {
    c.status == Active && c.nextExecution.None?
  }

  function UnscheduledIds(calls: map<nat, WakeUpCall>): set<nat> {
    set id | id in calls && Unscheduled(calls[id])
  }

  /** The calls table once the calls in `done` have been recomputed. */
  function Rescheduled(calls: map<nat, WakeUpCall>, users: map<nat, User>, done: set<nat>, now: Instant, db: ZoneDb)
    : (r: map<nat, WakeUpCall>)
    requires forall id :: id in calls ==> calls[id].userId in users
    ensures r.Keys == calls.Keys
    ensures forall id :: id in r ==> r[id].userId == calls[id].userId
  {
    map id | id in calls :: if id in done then WithSchedule(calls[id], Recomputed(calls[id], users[calls[id].userId].timezone,
                                                                                   now, db))
                            else calls[id]
  }

  /**
   * `schedule_next_wakeup_calls`: every active call without a next fire time
   * is recomputed, the rest are left alone, and the count returned is the
   * number recomputed.
   */
  method ScheduleNextWakeupCalls(store: WakeUpStore, now: Instant, db: ZoneDb) returns (updatedCount: nat)
    requires store.Valid()
    modifies store
    ensures store.Valid()
    ensures store.users == old(store.users) && store.executions == old(store.executions)
    ensures store.nextExecutionId == old(store.nextExecutionId) && store.queue == old(store.queue)
    ensures store.calls == Rescheduled(old(store.calls), old(store.users), UnscheduledIds(old(store.calls)), now, db)
    ensures updatedCount == |UnscheduledIds(old(store.calls))|
  {
    ghost var calls0 := store.calls;
    var pending := UnscheduledIds(store.calls);
    var remaining := pending;
    ghost var done: set<nat> := {};
    updatedCount := 0;
    RescheduleNone(calls0, store.users, now, db);
    while remaining != {}
      invariant store.Valid()
      invariant store.users == old(store.users) && store.executions == old(store.executions)
      invariant store.nextExecutionId == old(store.nextExecutionId) && store.queue == old(store.queue)
      invariant remaining <= pending && done == pending - remaining
      invariant forall id :: id in calls0 ==> calls0[id].userId in store.users
      invariant store.calls == Rescheduled(calls0, store.users, done, now, db)
      invariant updatedCount == |done|
      decreases |remaining|
    {
      var id :| id in remaining;
      TurnTaken(pending, remaining, done, id);
      updatedCount := RescheduleOne(store, calls0, done, updatedCount, id, now, db);
      remaining := remaining - {id};
      done := done + {id};
    }
    assert done == pending;
  }

  /** Before the first turn the table is as it was. */
  lemma RescheduleNone(calls: map<nat, WakeUpCall>, users: map<nat, User>, now: Instant, db: ZoneDb)
    requires forall id :: id in calls ==> calls[id].userId in users
    ensures Rescheduled(calls, users, {}, now, db) == calls
  {
  }

  /** One turn of the rescheduling loop: call `id`, not yet recomputed, is recomputed. */
  method RescheduleOne(store: WakeUpStore, ghost calls0: map<nat, WakeUpCall>, ghost done: set<nat>, count: nat,
                       id: nat, now: Instant, db: ZoneDb)
    returns (count': nat)
    requires store.Valid() && (forall id :: id in calls0 ==> calls0[id].userId in store.users)
    requires id in calls0 && id !in done && store.calls == Rescheduled(calls0, store.users, done, now, db)
    requires count == |done|
    modifies store
    ensures store.Valid()
    ensures store.users == old(store.users) && store.executions == old(store.executions)
    ensures store.nextExecutionId == old(store.nextExecutionId) && store.queue == old(store.queue)
    ensures store.calls == Rescheduled(calls0, store.users, done + {id}, now, db)
    ensures count' == |done + {id}|
  {
    RescheduleStep(calls0, store.users, done, id, now, db);
    UpdateNextExecutionTime(store, id, now, db);
    count' := count + 1;
  }

  /** One more call recomputed: its row is replaced, and `done` grows by one. */
  lemma RescheduleStep(calls: map<nat, WakeUpCall>, users: map<nat, User>, done: set<nat>, id: nat, now: Instant,
                       db: ZoneDb)
    requires forall id :: id in calls ==> calls[id].userId in users
    requires id in calls && id !in done
    ensures var r := Rescheduled(calls, users, done, now, db);
      && r[id] == calls[id]
      && r[id := WithSchedule(r[id], Recomputed(r[id], users[r[id].userId].timezone, now, db))]
         == Rescheduled(calls, users, done + {id}, now, db)
      && |done + {id}| == |done| + 1
  {
  }

  /** Recomputing creates no new unscheduled call: every call unscheduled afterwards was unscheduled before. */
  lemma RescheduleAddsNoUnscheduled(calls: map<nat, WakeUpCall>, users: map<nat, User>, now: Instant, db: ZoneDb)
    requires forall id :: id in calls ==> calls[id].userId in users
    ensures UnscheduledIds(Rescheduled(calls, users, UnscheduledIds(calls), now, db)) <= UnscheduledIds(calls)
  {
  }

  /** A one-time call leaves the unscheduled set: it is completed when recomputed. */
  lemma RescheduleCompletesOnce(calls: map<nat, WakeUpCall>, users: map<nat, User>, now: Instant, db: ZoneDb, id: nat)
    requires forall id :: id in calls ==> calls[id].userId in users
    requires id in UnscheduledIds(calls) && calls[id].frequency == Once
    ensures var r := Rescheduled(calls, users, UnscheduledIds(calls), now, db);
      r[id].status == Completed && r[id].nextExecution.None? && id !in UnscheduledIds(r)
  {
    OnceCompletes(calls[id], users[calls[id].userId].timezone, now, db);
  }
}
