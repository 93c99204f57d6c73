/** The notification tasks: reconciling delivery webhooks with the log, and pruning old rows. */
module NotificationTasks {
  import opened Wrappers
  import opened Calendar
  import opened NotificationServices
  import opened Collections

  /** `payload.get(key)`. */
  function Get(payload: map<string, string>, key: string): (v: Option<string>)
    ensures v.Some? <==> key in payload
  {
    if key in payload then Some(payload[key]) else None
  }

  /** `payload.get(a) or payload.get(b)`: the first value if it is non-empty, else the second as it is. */
  function FirstSet(payload: map<string, string>, a: string, b: string): (v: Option<string>)
    ensures a in payload && payload[a] != "" ==> v == Some(payload[a])
    ensures !(a in payload && payload[a] != "") ==> v == Get(payload, b)
  {
    if a in payload && payload[a] != "" then Some(payload[a]) else Get(payload, b)
  }

  /** The message or call sid of a webhook, when it has a non-empty one. */
  function WebhookSid(payload: map<string, string>): (sid: Option<string>)
    ensures sid.Some? ==> sid.value != ""
  {
    var v := FirstSet(payload, "MessageSid", "CallSid");
    if v.Some? && v.value != "" then v else None
  }

  function EventType(payload: map<string, string>): Option<string> {
    FirstSet(payload, "MessageStatus", "CallStatus")
  }

  /** How the reconciler treats a matched log row for one event word. */
  function ApplyEvent(log: NotificationLog, event: string, payload: map<string, string>, now: Instant): (r: NotificationLog)
    ensures r.twilioStatus == Some(event)
  {
    var updated :=
      if event == "delivered" || event == "sent" then log.(status := LogDelivered, deliveredAt := Some(now))
      else if event == "failed" || event == "undelivered" then
        log.(status := LogFailed, twilioErrorCode := Get(payload, "ErrorCode"),
             twilioErrorMessage := Get(payload, "ErrorMessage"))
      else log;
    updated.(twilioStatus := Some(event))
  }

  /** The rows whose stored sid is the webhook's. */
  function Matching(logs: map<nat, NotificationLog>, sid: string): set<nat> {
    set id | id in logs && logs[id].twilioSid == Some(sid)
  }

  /** What `process_twilio_webhook` did with one payload. */
  datatype WebhookOutcome =
    | IgnoredNoSid
    | RejectedNoEventType
    | Reconciled(webhookId: nat, matched: Option<nat>)
    | RaisedMultipleLogs(webhookId: nat)

  // ---- properties of the reconciler ----

  /**
   * The event word decides the row's status: delivered (with a delivery
   * time) for "delivered"/"sent", failed with the payload's error code and
   * message for "failed"/"undelivered", and no status change otherwise.
   */
  lemma ApplyEventMapping(log: NotificationLog, event: string, payload: map<string, string>, now: Instant)
    ensures var r := ApplyEvent(log, event, payload, now);
      && ((event == "delivered" || event == "sent") ==> r.status == LogDelivered && r.deliveredAt == Some(now))
      && ((event == "failed" || event == "undelivered") ==>
            r.status == LogFailed && r.twilioErrorCode == Get(payload, "ErrorCode")
            && r.twilioErrorMessage == Get(payload, "ErrorMessage"))
      && (event !in {"delivered", "sent", "failed", "undelivered"} ==> r == log.(twilioStatus := Some(event)))
      && r.twilioSid == log.twilioSid && r.createdAt == log.createdAt && r.recipientPhone == log.recipientPhone
  {
  }

  /**
   * Redelivering the same webhook, at any later instant, leaves the row as
   * a single delivery at that instant would: a "delivered" or "sent" replay
   * moves only the delivery time, and every other event word replays as a
   * no-op.
   */
  lemma ApplyEventIdempotent(log: NotificationLog, event: string, payload: map<string, string>, now: Instant,
                             later: Instant)
    ensures var first := ApplyEvent(log, event, payload, now);
      var replay := ApplyEvent(first, event, payload, later);
      && replay == ApplyEvent(log, event, payload, later)
      && ((event == "delivered" || event == "sent") ==> replay == first.(deliveredAt := Some(later)))
      && (!(event == "delivered" || event == "sent") ==> replay == first)
  {
  }

  /** The sid is the message sid when that is non-empty, otherwise the call sid. */
  lemma SidChoice(payload: map<string, string>)
    ensures "MessageSid" in payload && payload["MessageSid"] != "" ==> WebhookSid(payload) == Some(payload["MessageSid"])
    ensures !("MessageSid" in payload && payload["MessageSid"] != "") ==>
      (WebhookSid(payload).Some? <==> "CallSid" in payload && payload["CallSid"] != "")
  {
  }

  /**
   * `process_twilio_webhook`. Without a sid nothing is written. A missing
   * event type makes the insert of the webhook row fail (its column is NOT
   * NULL). Otherwise one webhook row is written; a single matching log row
   * is updated and linked, no match changes no log, and several matches
   * raise after the webhook row is written, leaving it unprocessed.
   */
  method ProcessTwilioWebhook(tw: TwilioService, payload: map<string, string>, now: Instant)
    returns (outcome: WebhookOutcome)
    requires tw.Valid()
    modifies tw
    ensures tw.Valid()
    ensures var sid := WebhookSid(payload);
      var event := EventType(payload);
      && (sid.None? ==> outcome == IgnoredNoSid)
      && (sid.Some? && event.None? ==> outcome == RejectedNoEventType)
      && (outcome.IgnoredNoSid? || outcome.RejectedNoEventType? ==>
            tw.logs == old(tw.logs) && tw.webhooks == old(tw.webhooks) && tw.nextWebhookId == old(tw.nextWebhookId))
      && (sid.Some? && event.Some? ==>
            var id := old(tw.nextWebhookId);
            var matches := Matching(old(tw.logs), sid.value);
            var row := TwilioWebhook(None, sid.value, event.value, payload, false, now);
            && id !in old(tw.webhooks) && tw.nextWebhookId == id + 1
            && (|matches| == 0 ==>
                  outcome == Reconciled(id, None) && tw.logs == old(tw.logs)
                  && tw.webhooks == old(tw.webhooks)[id := row.(processed := true)])
            && (|matches| == 1 ==>
                  exists m :: m in matches
                    && outcome == Reconciled(id, Some(m))
                    && tw.logs == old(tw.logs)[m := ApplyEvent(old(tw.logs[m]), event.value, payload, now)]
                    && tw.webhooks == old(tw.webhooks)[id := row.(notificationLog := Some(m), processed := true)])
            && (|matches| > 1 ==>
                  outcome == RaisedMultipleLogs(id) && tw.logs == old(tw.logs)
                  && tw.webhooks == old(tw.webhooks)[id := row]))
    ensures tw.nextLogId == old(tw.nextLogId)
  {
    var sid := WebhookSid(payload);
    var event := EventType(payload);
    if sid.None? {
      return IgnoredNoSid;
    }
    if event.None? {
      return RejectedNoEventType;
    }
    var id := tw.nextWebhookId;
    var row := TwilioWebhook(None, sid.value, event.value, payload, false, now);
    tw.webhooks := tw.webhooks[id := row];
    tw.nextWebhookId := id + 1;
    var matches := set m | m in tw.logs && tw.logs[m].twilioSid == Some(sid.value);
    assert matches == Matching(old(tw.logs), sid.value);
    if |matches| > 1 {
      return RaisedMultipleLogs(id);
    }
    if |matches| == 1 {
      var m :| m in matches;
      tw.logs := tw.logs[m := ApplyEvent(tw.logs[m], event.value, payload, now)];
      row := row.(notificationLog := Some(m));
      outcome := Reconciled(id, Some(m));
    } else {
      outcome := Reconciled(id, None);
    }
    ghost var unprocessed := tw.webhooks[id];
    row := row.(processed := true);
    tw.webhooks := tw.webhooks[id := row];
    OverwriteTwice(old(tw.webhooks), id, unprocessed, row);
  }

  /** `cleanup_old_notification_logs`: delete exactly the rows created more than 90 days ago. */
  method CleanupOldNotificationLogs(tw: TwilioService, now: Instant) returns (deleted: nat)
    requires tw.Valid()
    modifies tw
    ensures tw.Valid()
    ensures var cutoff := now - Days(90);
      && tw.logs == (map id | id in old(tw.logs) && !(old(tw.logs[id]).createdAt < cutoff) :: old(tw.logs[id]))
      && deleted == |set id | id in old(tw.logs) && old(tw.logs[id]).createdAt < cutoff|
    ensures tw.webhooks == old(tw.webhooks) && tw.nextLogId == old(tw.nextLogId)
    ensures tw.nextWebhookId == old(tw.nextWebhookId)
  {
    var cutoff := now - Days(90);
    deleted := |set id | id in tw.logs && tw.logs[id].createdAt < cutoff|;
    tw.logs := map id | id in tw.logs && !(tw.logs[id].createdAt < cutoff) :: tw.logs[id];
  }

  /** `cleanup_old_webhook_logs`: delete exactly the webhook rows created more than 30 days ago. */
  method CleanupOldWebhookLogs(tw: TwilioService, now: Instant) returns (deleted: nat)
    requires tw.Valid()
    modifies tw
    ensures tw.Valid()
    ensures var cutoff := now - Days(30);
      && tw.webhooks == (map id | id in old(tw.webhooks) && !(old(tw.webhooks[id]).createdAt < cutoff)
                           :: old(tw.webhooks[id]))
      && deleted == |set id | id in old(tw.webhooks) && old(tw.webhooks[id]).createdAt < cutoff|
    ensures tw.logs == old(tw.logs) && tw.nextLogId == old(tw.nextLogId)
    ensures tw.nextWebhookId == old(tw.nextWebhookId)
  {
    var cutoff := now - Days(30);
    deleted := |set id | id in tw.webhooks && tw.webhooks[id].createdAt < cutoff|;
    tw.webhooks := map id | id in tw.webhooks && !(tw.webhooks[id].createdAt < cutoff) :: tw.webhooks[id];
  }

  /** Pruning splits the table: every row either survives or is counted as deleted, never both. */
  lemma {:induction false} CleanupPartitions(logs: map<nat, NotificationLog>, cutoff: Instant)
    ensures var kept := map id | id in logs && !(logs[id].createdAt < cutoff) :: logs[id];
      var gone := set id | id in logs && logs[id].createdAt < cutoff;
      && kept.Keys * gone == {}
      && kept.Keys + gone == logs.Keys
      && |kept| + |gone| == |logs|
  {
    var kept := map id | id in logs && !(logs[id].createdAt < cutoff) :: logs[id];
    var gone := set id | id in logs && logs[id].createdAt < cutoff;
    assert kept.Keys + gone == logs.Keys;
    assert |kept.Keys + gone| + |kept.Keys * gone| == |kept.Keys| + |gone|;
  }
}
