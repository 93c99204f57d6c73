/**
 * The web front end's `update_wakeup_call_status`: the status whitelist,
 * the recompute on reactivation and the clearing of the next fire time on
 * pause or cancel. Whether the status came in a JSON body or a form is not
 * modelled: `status` is the submitted value either way ("" when missing).
 */
module WebViews {
  import opened Wrappers
  import opened Calendar
  import opened Collections
  import opened WakeUpModels
  import opened WakeUpTasks
  import opened WakeUpSerializers

  /** The JSON reply: success with the message and the call's next fire time, a 400, or a 500 from the `except`. */
  datatype WebStatusResult =
    | StatusChanged(message: string, status: CallStatus, nextExecution: Option<Instant>)
    | InvalidStatus(error: string)
    | ServerError

  const InvalidStatusError: string := "Invalid status. " + "Must be one of: active, paused, cancelled"

  function StatusMessage(s: CallStatus): string {
    match s
    case Active => "Wake-up call activated successfully!"
    case Paused => "Wake-up call paused successfully!"
    case Cancelled => "Wake-up call cancelled successfully!"
    case Completed => "Status updated successfully!"
  }

  /** The call after the view: a reactivation recomputes, a pause or cancel clears the next fire time. */
  function StatusApplied(c: WakeUpCall, s: CallStatus, tzName: string, now: Instant, db: ZoneDb): WakeUpCall {
    var c1 := c.(status := s);
    if c.status != Active && s == Active then WithSchedule(c1, Recomputed(c1, tzName, now, db))
    else if s == Paused || s == Cancelled then c1.(nextExecution := None)
    else c1
  }

  /** After a pause or a cancel the call has that status and no next fire time. */
  lemma PauseOrCancelClears(c: WakeUpCall, s: CallStatus, tzName: string, now: Instant, db: ZoneDb)
    requires s == Paused || s == Cancelled
    ensures StatusApplied(c, s, tzName, now, db) == c.(status := s, nextExecution := None)
  {
  }

  /** A reactivated call takes the rule's status and next fire time; an active call set active is untouched. */
  lemma ActivateRecomputes(c: WakeUpCall, tzName: string, now: Instant, db: ZoneDb)
    ensures c.status != Active ==>
      StatusApplied(c, Active, tzName, now, db)
        == WithSchedule(c.(status := Active), Recomputed(c.(status := Active), tzName, now, db))
    ensures c.status == Active ==> StatusApplied(c, Active, tzName, now, db) == c
  {
  }

  /** Any other submitted status is written as it is and nothing is recomputed. */
  lemma OtherStatusWritten(c: WakeUpCall, s: CallStatus, tzName: string, now: Instant, db: ZoneDb)
    requires s != Paused && s != Cancelled && !(c.status != Active && s == Active)
    ensures StatusApplied(c, s, tzName, now, db) == c.(status := s)
  {
  }

  /** The frame of a reactivation. */
  lemma ReactivationFrame(c: WakeUpCall, tzName: string, now: Instant, db: ZoneDb)
    requires c.status != Active
    ensures var c' := StatusApplied(c, Active, tzName, now, db);
      c'.(status := c.status, nextExecution := c.nextExecution) == c
  {
    ActivateRecomputes(c, tzName, now, db);
    var c1 := c.(status := Active);
    var r := WithSchedule(c1, Recomputed(c1, tzName, now, db));
    assert r.(status := c1.status, nextExecution := c1.nextExecution) == c1;
    assert r.(status := c.status, nextExecution := c.nextExecution) == c;
  }

  /** The frame of a pause or a cancel. */
  lemma ClearingFrame(c: WakeUpCall, s: CallStatus, tzName: string, now: Instant, db: ZoneDb)
    requires s == Paused || s == Cancelled
    ensures var c' := StatusApplied(c, s, tzName, now, db);
      c'.(status := c.status, nextExecution := c.nextExecution) == c
  {
    PauseOrCancelClears(c, s, tzName, now, db);
    var cleared := c.(status := s, nextExecution := None);
    assert cleared.(status := c.status, nextExecution := c.nextExecution) == c;
  }

  /** The frame of any other status. */
  lemma WrittenFrame(c: WakeUpCall, s: CallStatus, tzName: string, now: Instant, db: ZoneDb)
    requires s != Paused && s != Cancelled && !(c.status != Active && s == Active)
    ensures var c' := StatusApplied(c, s, tzName, now, db);
      c'.(status := c.status, nextExecution := c.nextExecution) == c
  {
    OtherStatusWritten(c, s, tzName, now, db);
    assert c.(status := s).(status := c.status, nextExecution := c.nextExecution) == c;
  }

  /** Of a call the view changes only the status and the next fire time. */
  lemma StatusAppliedFrame(c: WakeUpCall, s: CallStatus, tzName: string, now: Instant, db: ZoneDb)
    ensures var c' := StatusApplied(c, s, tzName, now, db);
      c'.(status := c.status, nextExecution := c.nextExecution) == c
  {
    if c.status != Active && s == Active {
      ReactivationFrame(c, tzName, now, db);
    } else if s == Paused || s == Cancelled {
      ClearingFrame(c, s, tzName, now, db);
    } else {
      WrittenFrame(c, s, tzName, now, db);
    }
  }

  /** Saving a schedule overwrites whatever next fire time the call had. */
  lemma ScheduleOverwritesNext(c: WakeUpCall, n: Option<Instant>, sch: Schedule)
    ensures WithSchedule(c.(nextExecution := n), sch) == WithSchedule(c, sch)
  {
  }

  /**
   * Pausing (or cancelling) and later reactivating a call with a known
   * frequency leaves it as a reactivation at that later instant would
   * without the pause: the pause's cleared next fire time is not consulted.
   */
  lemma PauseThenReactivate(c: WakeUpCall, s: CallStatus, tzName: string, paused: Instant, now: Instant, db: ZoneDb)
    requires s == Paused || s == Cancelled
    requires c.frequency != UnknownFrequency
    ensures var a := c.(status := Active);
      StatusApplied(StatusApplied(c, s, tzName, paused, db), Active, tzName, now, db)
        == WithSchedule(a, Recomputed(a, tzName, now, db))
  {
    var a := c.(status := Active);
    var p := StatusApplied(c, s, tzName, paused, db);
    var p1 := p.(status := Active);
    assert p1 == a.(nextExecution := None) by {
      PauseOrCancelClears(c, s, tzName, paused, db);
    }
    assert p.status != Active by {
      PauseOrCancelClears(c, s, tzName, paused, db);
    }
    var sch := Recomputed(a, tzName, now, db);
    assert Recomputed(p1, tzName, now, db) == sch by {
      RecomputeIgnoresNext(a, None, tzName, now, db);
    }
    assert WithSchedule(p1, sch) == WithSchedule(a, sch) by {
      ScheduleOverwritesNext(a, None, sch);
    }
  }

  /**
   * With an unrecognised frequency the round trip depends on history: the
   * pause clears the next fire time and the recompute keeps the cleared
   * value, so a scheduled call comes back with none.
   */
  lemma PauseLosesUnknownFrequencySchedule(c: WakeUpCall, tzName: string, paused: Instant, now: Instant, db: ZoneDb)
    requires c.frequency == UnknownFrequency && c.status == Active && c.nextExecution.Some?
    ensures StatusApplied(StatusApplied(c, Paused, tzName, paused, db), Active, tzName, now, db).nextExecution == None
    ensures StatusApplied(c, Active, tzName, now, db).nextExecution == c.nextExecution
  {
    var p := StatusApplied(c, Paused, tzName, paused, db);
    var p1 := p.(status := Active);
    assert p1 == c.(nextExecution := None) && p.status != Active by {
      PauseOrCancelClears(c, Paused, tzName, paused, db);
    }
    assert Recomputed(p1, tzName, now, db).next == None by {
      RecomputeIgnoresNext(c, None, tzName, now, db);
    }
  }

  /** `update_wakeup_call_status` for the user `requester`. */
  method UpdateWakeupCallStatus(store: WakeUpStore, requester: nat, id: nat, status: string, now: Instant,
                                db: ZoneDb)
    returns (r: WebStatusResult)
    requires store.Valid()
    modifies store
    ensures store.Valid()
    ensures store.users == old(store.users) && store.executions == old(store.executions)
    ensures store.nextExecutionId == old(store.nextExecutionId) && store.queue == old(store.queue)
    ensures !(id in old(store.calls) && old(store.calls[id]).userId == requester) ==>
      r == ServerError && store.calls == old(store.calls)
    ensures id in old(store.calls) && old(store.calls[id]).userId == requester ==>
      var c := old(store.calls[id]);
      match ParseStatus(status)
      case None => r == InvalidStatus(InvalidStatusError) && store.calls == old(store.calls)
      case Some(s) =>
        var c' := StatusApplied(c, s, old(store.users[c.userId].timezone), now, db);
        && store.calls == old(store.calls)[id := c']
        && r == StatusChanged(StatusMessage(s), s, c'.nextExecution)
  {
    if id !in store.calls || store.calls[id].userId != requester {
      return ServerError;
    }
    var parsed := ParseStatus(status);
    if parsed.None? {
      return InvalidStatus(InvalidStatusError);
    }
    var s := parsed.value;
    SetStatus(store, id, s, now, db);
    r := StatusChanged(StatusMessage(s), s, store.calls[id].nextExecution);
  }

  /** The transitions after the whitelist: save the new status, then recompute or clear. */
  method SetStatus(store: WakeUpStore, id: nat, s: CallStatus, now: Instant, db: ZoneDb)
    requires store.Valid() && id in store.calls
    modifies store
    ensures store.Valid()
    ensures store.users == old(store.users) && store.executions == old(store.executions)
    ensures store.nextExecutionId == old(store.nextExecutionId) && store.queue == old(store.queue)
    ensures var c := old(store.calls[id]);
      store.calls == old(store.calls)[id := StatusApplied(c, s, old(store.users[c.userId].timezone), now, db)]
  {
    var c := store.calls[id];
    if c.status != Active && s == Active {
      Reactivate(store, id, now, db);
    } else if s == Paused || s == Cancelled {
      PauseOrCancelClears(c, s, store.users[c.userId].timezone, now, db);
      Clear(store, id, s);
    } else {
      ghost var tz := store.users[c.userId].timezone;
      OtherStatusWritten(c, s, tz, now, db);
      store.SaveCall(id, c.(status := s));
    }
  }

  /** `status = 'active'` on a call that was not active, then `update_next_execution_time`. */
  method Reactivate(store: WakeUpStore, id: nat, now: Instant, db: ZoneDb)
    requires store.Valid() && id in store.calls && store.calls[id].status != Active
    modifies store
    ensures store.Valid()
    ensures store.users == old(store.users) && store.executions == old(store.executions)
    ensures store.nextExecutionId == old(store.nextExecutionId) && store.queue == old(store.queue)
    ensures var c := old(store.calls[id]);
      store.calls == old(store.calls)[id := StatusApplied(c, Active, old(store.users[c.userId].timezone), now, db)]
  {
    var c := store.calls[id];
    ghost var calls0 := store.calls;
    ghost var tz := store.users[c.userId].timezone;
    var c1 := c.(status := Active);
    store.SaveCall(id, c1);
    UpdateNextExecutionTime(store, id, now, db);
    OverwriteTwice(calls0, id, c1, store.calls[id]);
    ActivateRecomputes(c, tz, now, db);
  }

  /** `status = 'paused'` or `'cancelled'`, then `next_execution = None`. */
  method Clear(store: WakeUpStore, id: nat, s: CallStatus)
    requires store.Valid() && id in store.calls && (s == Paused || s == Cancelled)
    modifies store
    ensures store.Valid()
    ensures store.users == old(store.users) && store.executions == old(store.executions)
    ensures store.nextExecutionId == old(store.nextExecutionId) && store.queue == old(store.queue)
    ensures store.calls == old(store.calls)[id := old(store.calls[id]).(status := s, nextExecution := None)]
  {
    var c := store.calls[id];
    ghost var calls0 := store.calls;
    var c1 := c.(status := s);
    store.SaveCall(id, c1);
    store.SaveCall(id, c1.(nextExecution := None));
    OverwriteTwice(calls0, id, c1, store.calls[id]);
  }
}
