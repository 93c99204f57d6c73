/**
 * The wake-up-call serializers: the validation rules on a submitted update,
 * and `WakeUpCallSerializer.update`, which writes the validated fields and
 * then decides whether the next fire time is recomputed.
 *
 * A submitted update holds only the fields the client sent; a field left
 * out is None. `end_date` may be sent as null, hence `Option<Option<Date>>`.
 */
module WakeUpSerializers {
  import opened Wrappers
  import opened Calendar
  import opened WakeUpModels
  import opened WakeUpTasks
  import opened Collections

  /** The seven day flags as sent; a flag left out reads as False. */
  datatype DayFlags = DayFlags(
    monday: Option<bool>, tuesday: Option<bool>, wednesday: Option<bool>, thursday: Option<bool>,
    friday: Option<bool>, saturday: Option<bool>, sunday: Option<bool>)

  /** The validated data of `WakeUpCallSerializer`: its writable fields, each present or not. */
  datatype CallUpdate = CallUpdate(
    name: Option<string>,
    phoneNumber: Option<string>,
    contactMethod: Option<ContactMethod>,
    scheduledTime: Option<TimeOfDay>,
    frequency: Option<Frequency>,
    startDate: Option<Date>,
    endDate: Option<Option<Date>>,
    days: DayFlags,
    includeWeather: Option<bool>,
    weatherZipCode: Option<string>,
    customMessage: Option<string>,
    status: Option<CallStatus>,
    isDemo: Option<bool>)

  /** The validated data of `WakeUpCallScheduleUpdateSerializer`. */
  datatype ScheduleUpdate = ScheduleUpdate(
    scheduledTime: TimeOfDay,
    frequency: Frequency,
    startDate: Option<Date>,
    endDate: Option<Date>,
    days: DayFlags)

  /** The validated data of `WakeUpCallContactMethodUpdateSerializer`. */
  datatype ContactUpdate = ContactUpdate(contactMethod: ContactMethod, phoneNumber: Option<string>)

  const NoDayError: string := "At least one day must be selected " + "for custom frequency"
  const EndDateError: string := "End date must be after start date"
  const EmptyPhoneError: string := "Phone number cannot be empty"

  /** `attrs.get(day, False)` for each day, then `any(days)`. */
  predicate AnyDay(d: DayFlags) {
    d.monday == Some(true) || d.tuesday == Some(true) || d.wednesday == Some(true) || d.thursday == Some(true)
    || d.friday == Some(true) || d.saturday == Some(true) || d.sunday == Some(true)
  }

  /** The custom-frequency rule shared by two serializers. */
  function CheckCustomDays(frequency: Option<Frequency>, days: DayFlags): Option<string> {
    if frequency == Some(Custom) && !AnyDay(days) then Some(NoDayError) else None
  }

  /** `WakeUpCallSerializer.validate`: the custom-day rule, then the end-date rule; valid data comes back unchanged. */
  function ValidateCall(u: CallUpdate): (r: Result<CallUpdate, string>)
    ensures r.Success? ==> r.value == u
  {
    match CheckCustomDays(u.frequency, u.days)
    case Some(error) => Failure(error)
    case None =>
      if u.endDate.Some? && u.endDate.value.Some? && u.startDate.Some? && u.endDate.value.value <= u.startDate.value
      then Failure(EndDateError)
      else Success(u)
  }

  /** `WakeUpCallScheduleUpdateSerializer.validate`: the custom-day rule alone. */
  function ValidateSchedule(s: ScheduleUpdate): (r: Result<ScheduleUpdate, string>)
    ensures r.Success? ==> r.value == s
  {
    match CheckCustomDays(Some(s.frequency), s.days)
    case Some(error) => Failure(error)
    case None => Success(s)
  }

  /** `WakeUpCallContactMethodUpdateSerializer.validate`: a phone number, when sent, must not be empty. */
  function ValidateContact(u: ContactUpdate): (r: Result<ContactUpdate, string>)
    ensures r.Success? ==> r.value == u
  {
    if u.phoneNumber == Some("") then Failure(EmptyPhoneError) else Success(u)
  }

  /**
   * An update is accepted exactly when a custom frequency comes with a day
   * and an end date sent with a start date lies after it; the custom-day
   * rule is reported first.
   */
  lemma ValidateCallAccepts(u: CallUpdate)
    ensures ValidateCall(u).Success? <==>
      && (u.frequency == Some(Custom) ==> AnyDay(u.days))
      && (forall s, e :: u.startDate == Some(s) && u.endDate == Some(Some(e)) ==> e > s)
    ensures u.frequency == Some(Custom) && !AnyDay(u.days) ==> ValidateCall(u) == Failure(NoDayError)
    ensures ValidateCall(u).Failure? && (u.frequency != Some(Custom) || AnyDay(u.days)) ==>
      ValidateCall(u) == Failure(EndDateError)
  {
    if u.startDate.Some? && u.endDate.Some? && u.endDate.value.Some? {
      var s, e := u.startDate.value, u.endDate.value.value;
      assert u.startDate == Some(s) && u.endDate == Some(Some(e));
    }
  }

  /** A partial update that leaves out the frequency, or either date, escapes the corresponding rule. */
  lemma ValidateCallLooksOnlyAtSentFields(u: CallUpdate)
    requires u.frequency.None? && (u.startDate.None? || u.endDate.None? || u.endDate == Some(None))
    ensures ValidateCall(u) == Success(u)
  {
  }

  /** The schedule serializer accepts an end date on or before the start date. */
  lemma ValidateScheduleHasNoDateRule(s: ScheduleUpdate)
    requires s.frequency != Custom
    ensures ValidateSchedule(s) == Success(s)
  {
  }

  /** A custom schedule is accepted exactly when some day is selected. */
  lemma ValidateScheduleAccepts(s: ScheduleUpdate)
    ensures ValidateSchedule(s).Success? <==> s.frequency != Custom || AnyDay(s.days)
  {
  }

  /** The contact serializer refuses exactly an empty phone number. */
  lemma ValidateContactAccepts(u: ContactUpdate)
    ensures ValidateContact(u).Success? <==> u.phoneNumber != Some("")
  {
  }

  /** `WakeUpCallStatusUpdateSerializer`'s choice field, and the status whitelist of the web view. */
  function ParseStatus(s: string): (r: Option<CallStatus>)
    ensures r.Some? ==> r.value in {Active, Paused, Cancelled}
  {
    if s == "active" then Some(Active)
    else if s == "paused" then Some(Paused)
    else if s == "cancelled" then Some(Cancelled)
    else None
  }

  /** Exactly the three names are accepted, each as its own status. */
  lemma ParseStatusAccepts(s: string)
    ensures ParseStatus(s).Some? <==> s in ["active", "paused", "cancelled"]
    ensures ParseStatus(s) == Some(Active) <==> s == "active"
    ensures ParseStatus(s) == Some(Paused) <==> s == "paused"
    ensures ParseStatus(s) == Some(Cancelled) <==> s == "cancelled"
  {
  }

  function Pick<T>(sent: Option<T>, current: T): T {
    if sent.Some? then sent.value else current
  }

  /** The `setattr` loop of `update`: every sent field overwrites the call's, every other field stays. */
  function Apply(c: WakeUpCall, u: CallUpdate): WakeUpCall {
    c.(name := Pick(u.name, c.name), phoneNumber := Pick(u.phoneNumber, c.phoneNumber),
       contactMethod := Pick(u.contactMethod, c.contactMethod), scheduledTime := Pick(u.scheduledTime, c.scheduledTime),
       frequency := Pick(u.frequency, c.frequency), startDate := Pick(u.startDate, c.startDate),
       endDate := Pick(u.endDate, c.endDate),
       monday := Pick(u.days.monday, c.monday), tuesday := Pick(u.days.tuesday, c.tuesday),
       wednesday := Pick(u.days.wednesday, c.wednesday), thursday := Pick(u.days.thursday, c.thursday),
       friday := Pick(u.days.friday, c.friday), saturday := Pick(u.days.saturday, c.saturday),
       sunday := Pick(u.days.sunday, c.sunday),
       includeWeather := Pick(u.includeWeather, c.includeWeather),
       weatherZipCode := Pick(u.weatherZipCode, c.weatherZipCode),
       customMessage := Pick(u.customMessage, c.customMessage),
       status := Pick(u.status, c.status), isDemo := Pick(u.isDemo, c.isDemo))
  }

  const NoDays: DayFlags := DayFlags(None, None, None, None, None, None, None)
  const NoFields: CallUpdate := CallUpdate(None, None, None, None, None, None, None, NoDays, None, None, None, None, None)

  /** An update that sends everything as the call already has it. */
  function Resend(c: WakeUpCall): CallUpdate {
    CallUpdate(Some(c.name), Some(c.phoneNumber), Some(c.contactMethod), Some(c.scheduledTime), Some(c.frequency),
               Some(c.startDate), Some(c.endDate),
               DayFlags(Some(c.monday), Some(c.tuesday), Some(c.wednesday), Some(c.thursday), Some(c.friday),
                        Some(c.saturday), Some(c.sunday)),
               Some(c.includeWeather), Some(c.weatherZipCode), Some(c.customMessage), Some(c.status), Some(c.isDemo))
  }

  /**
   * Writing the fields never touches the owner or the read-only columns
   * (last and next execution), and the status is the one sent, if any.
   */
  lemma ApplyKeepsReadOnlyFields(c: WakeUpCall, u: CallUpdate)
    ensures var c' := Apply(c, u);
      && c'.userId == c.userId && c'.lastExecuted == c.lastExecuted && c'.nextExecution == c.nextExecution
      && (u.status.Some? ==> c'.status == u.status.value) && (u.status.None? ==> c'.status == c.status)
  {
  }

  /** Writing the same fields twice is writing them once. */
  lemma ApplyIdempotent(c: WakeUpCall, u: CallUpdate)
    ensures Apply(Apply(c, u), u) == Apply(c, u)
  {
  }

  /** Sending nothing, or a call's own fields, leaves the call as it is. */
  lemma ApplyNothingNew(c: WakeUpCall)
    ensures Apply(c, NoFields) == c
    ensures Apply(c, Resend(c)) == c
  {
  }

  /** Resending the fields an update produced reproduces it from the old call. */
  lemma ApplyResendRoundTrip(c: WakeUpCall, u: CallUpdate)
    ensures Apply(c, Resend(Apply(c, u))) == Apply(c, u)
  {
  }

  /** `update` leaves `status` as it was unless the client sent one. */
  function NewStatus(c: WakeUpCall, u: CallUpdate): CallStatus {
    Pick(u.status, c.status)
  }

  /** `_handle_status_change`: a call that was not active and is now. */
  predicate Reactivated(c: WakeUpCall, u: CallUpdate) {
    c.status != Active && NewStatus(c, u) == Active
  }

  /** Some of the schedule fields were sent. */
  predicate ScheduleSent(u: CallUpdate) {
    || u.scheduledTime.Some? || u.frequency.Some? || u.startDate.Some? || u.endDate.Some?
    || u.days.monday.Some? || u.days.tuesday.Some? || u.days.wednesday.Some? || u.days.thursday.Some?
    || u.days.friday.Some? || u.days.saturday.Some? || u.days.sunday.Some?
  }

  /**
   * The call after `update`: the written fields, then a recompute when the
   * call was reactivated, then another when its schedule was sent. Each
   * recompute reads the clock itself: `now1` is the first reading and
   * `now2` the second.
   */
  function Updated(c: WakeUpCall, u: CallUpdate, tzName: string, now1: Instant, now2: Instant, db: ZoneDb)
    : WakeUpCall
  {
    var c1 := Apply(c, u);
    var c2 := if Reactivated(c, u) then WithSchedule(c1, Recomputed(c1, tzName, now1, db)) else c1;
    if ScheduleSent(u) then WithSchedule(c2, Recomputed(c2, tzName, now2, db)) else c2
  }

  /**
   * When both clock readings fall on the same local and UTC date, the
   * second recompute of `update` finds nothing left to change.
   */
  lemma UpdateRecomputesOnce(c: WakeUpCall, tzName: string, now1: Instant, now2: Instant, db: ZoneDb)
    requires LocalToday(db, tzName, now1) == LocalToday(db, tzName, now2) && UtcDate(now1) == UtcDate(now2)
    ensures var c1 := WithSchedule(c, Recomputed(c, tzName, now1, db));
      WithSchedule(c1, Recomputed(c1, tzName, now2, db)) == c1
  {
    var c1 := WithSchedule(c, Recomputed(c, tzName, now1, db));
    RecomputeReadsOnlyDates(c1, tzName, now1, now2, db);
    RecomputeIdempotent(c, tzName, now1, db);
  }

  /**
   * Across midnight the two readings differ: a paused daily call
   * reactivated with a new time at 23:59:59 UTC is moved on by the second
   * recompute to the day after tomorrow.
   */
  lemma UpdateAcrossMidnight(c: WakeUpCall, u: CallUpdate, tzName: string, d: Date, db: ZoneDb)
    requires !db.known(tzName) && Reactivated(c, u) && ScheduleSent(u)
    requires Apply(c, u).frequency == Daily && Apply(c, u).endDate.None?
    ensures var t := Apply(c, u).scheduledTime;
      && Updated(c, u, tzName, Days(d + 1) - 1, Days(d + 1), db).nextExecution == Some(Days(d + 2) + t)
      && WithSchedule(Apply(c, u), Recomputed(Apply(c, u), tzName, Days(d + 1) - 1, db)).nextExecution
           == Some(Days(d + 1) + t)
  {
    assert UtcDate(Days(d + 1) - 1) == d;
    assert UtcDate(Days(d + 1)) == d + 1;
  }

  /**
   * An update without schedule fields recomputes exactly on reactivation:
   * pausing or cancelling through it keeps the old next fire time, and a
   * reactivation takes the rule's.
   */
  lemma UpdateRecomputesOnReactivation(c: WakeUpCall, u: CallUpdate, tzName: string, now1: Instant, now2: Instant,
                                       db: ZoneDb)
    requires !ScheduleSent(u)
    ensures !Reactivated(c, u) ==> Updated(c, u, tzName, now1, now2, db).nextExecution == c.nextExecution
    ensures !Reactivated(c, u) ==> Updated(c, u, tzName, now1, now2, db).status == NewStatus(c, u)
    ensures Reactivated(c, u) ==>
      Updated(c, u, tzName, now1, now2, db).nextExecution == Recomputed(Apply(c, u), tzName, now1, db).next
  {
  }

  /**
   * An update of the schedule always takes the rule's next fire time for
   * the new schedule at the later clock reading, whether or not the call
   * was reactivated first.
   */
  lemma UpdateRecomputesOnScheduleChange(c: WakeUpCall, u: CallUpdate, tzName: string, now1: Instant, now2: Instant,
                                         db: ZoneDb)
    requires ScheduleSent(u)
    ensures var c' := Updated(c, u, tzName, now1, now2, db);
      c'.nextExecution == Recomputed(Apply(c, u), tzName, now2, db).next
      && c'.(status := Apply(c, u).status, nextExecution := Apply(c, u).nextExecution) == Apply(c, u)
  {
    var c1 := Apply(c, u);
    if Reactivated(c, u) {
      RecomputeAfterRecompute(c1, tzName, now1, now2, db);
    }
  }

  /**
   * `WakeUpCallSerializer.update` on the call with id `id`; `now1` and
   * `now2` are what the two recomputes read from the clock.
   */
  method UpdateCall(store: WakeUpStore, id: nat, u: CallUpdate, now1: Instant, now2: Instant, db: ZoneDb)
    requires store.Valid() && id in store.calls
    modifies store
    ensures store.Valid()
    ensures var c := old(store.calls[id]);
      store.calls == old(store.calls)[id := Updated(c, u, old(store.users[c.userId].timezone), now1, now2, db)]
    ensures store.users == old(store.users) && store.executions == old(store.executions)
    ensures store.nextExecutionId == old(store.nextExecutionId) && store.queue == old(store.queue)
  {
    var c := store.calls[id];
    ghost var calls0 := store.calls;
    var c1 := Apply(c, u);
    store.SaveCall(id, c1);
    HandleChanges(store, id, c, u, now1, now2, db);
    OverwriteTwice(calls0, id, c1, Updated(c, u, store.users[c.userId].timezone, now1, now2, db));
  }

  /** The recomputes of `update`, after the fields of `c` were written and saved. */
  method HandleChanges(store: WakeUpStore, id: nat, c: WakeUpCall, u: CallUpdate, now1: Instant, now2: Instant,
                       db: ZoneDb)
    requires store.Valid() && id in store.calls && store.calls[id] == Apply(c, u)
    modifies store
    ensures store.Valid()
    ensures store.calls == old(store.calls)[id := Updated(c, u, old(store.users[c.userId].timezone), now1, now2, db)]
    ensures store.users == old(store.users) && store.executions == old(store.executions)
    ensures store.nextExecutionId == old(store.nextExecutionId) && store.queue == old(store.queue)
  {
    ghost var calls1 := store.calls;
    var c1 := Apply(c, u);
    ApplyKeepsReadOnlyFields(c, u);
    assert calls1[id := c1] == calls1;
    var oldStatus := c.status;
    var newStatus := Pick(u.status, oldStatus);
    if oldStatus != newStatus && oldStatus != Active && newStatus == Active {
      UpdateNextExecutionTime(store, id, now1, db);
    }
    ghost var calls2 := store.calls;
    if ScheduleSent(u) {
      UpdateNextExecutionTime(store, id, now2, db);
      OverwriteTwice(calls1, id, calls2[id], store.calls[id]);
    }
  }
}
