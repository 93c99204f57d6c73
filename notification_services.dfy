/**
 * The Twilio dispatcher: every send writes one NotificationLog row, created
 * pending and then settled as sent or failed. The provider itself is not
 * called: what it would answer is a parameter of each send.
 */
module NotificationServices {
  import opened Wrappers
  import opened Strings
  import opened Calendar

  datatype NotificationType = WakeupCallNotice | WakeupSms | VerificationSms | SystemNotification
  datatype LogStatus = LogPending | LogSent | LogDelivered | LogFailed | LogCancelled

  /** A row of NotificationLog. */
  datatype NotificationLog = NotificationLog(
    userId: Option<nat>,
    notificationType: NotificationType,
    recipientPhone: string,
    messageContent: Option<string>,
    isDemo: bool,
    twilioSid: Option<string>,
    twilioStatus: Option<string>,
    twilioErrorCode: Option<string>,
    twilioErrorMessage: Option<string>,
    status: LogStatus,
    deliveredAt: Option<Instant>,
    createdAt: Instant)

  /** A row of TwilioWebhook. */
  datatype TwilioWebhook = TwilioWebhook(
    notificationLog: Option<nat>,
    twilioSid: string,
    eventType: string,
    webhookData: map<string, string>,
    processed: bool,
    createdAt: Instant)

  /** What the Twilio client does with one request: accept it, or raise a TwilioException or another exception. */
  datatype ProviderReply =
    | Accepted(sid: string, status: string)
    | TwilioFailure(text: string)
    | OtherFailure(text: string)

  /** The dictionary a send returns: `success` with `sid` and `status`, or an `error`. */
  datatype SendResult = Sent(sid: string, status: string) | NotSent(error: string)

  const NotConfigured: string := "Twilio client not configured"

  /** The pending row a send starts from. */
  function PendingLog(userId: Option<nat>, kind: NotificationType, to: string, content: Option<string>,
                      isDemo: bool, now: Instant): (log: NotificationLog)
    ensures log.status == LogPending && log.twilioSid.None?
  {
    NotificationLog(userId, kind, to, content, isDemo, None, None, None, None, LogPending, None, now)
  }

  /**
   * How a send settles its pending row `log` with id `id`: the demo path, the
   * unconfigured client, or the provider's reply. `demoPrefix` and
   * `demoStatus` are the synthetic sid prefix and status of the demo path.
   */
  function Settle(log: NotificationLog, id: nat, demo: bool, configured: bool, reply: ProviderReply,
                  demoPrefix: string, demoStatus: string): (SendResult, NotificationLog)
  {
    if demo then
      var sid := demoPrefix + NatToString(id);
      (Sent(sid, demoStatus), log.(status := LogSent, twilioSid := Some(sid)))
    else if !configured then
      (NotSent(NotConfigured), log.(status := LogFailed, twilioErrorMessage := Some(NotConfigured)))
    else
      match reply
      case Accepted(sid, status) =>
        (Sent(sid, status), log.(twilioSid := Some(sid), twilioStatus := Some(status), status := LogSent))
      case TwilioFailure(text) =>
        (NotSent("Twilio error: " + text), log.(status := LogFailed, twilioErrorMessage := Some("Twilio error: " + text)))
      case OtherFailure(text) =>
        (NotSent("Unexpected error: " + text),
         log.(status := LogFailed, twilioErrorMessage := Some("Unexpected error: " + text)))
  }

  /** `send_sms`: the result and the settled row, given the id the new row receives. */
  function SmsDispatch(id: nat, to: string, message: string, userId: Option<nat>, isDemo: bool, now: Instant,
                       demoMode: bool, configured: bool, reply: ProviderReply): (SendResult, NotificationLog)
  {
    Settle(PendingLog(userId, WakeupSms, to, Some(message), isDemo, now), id, isDemo || demoMode, configured, reply,
           "demo_sms_", "sent")
  }

  /** `make_call`: as `send_sms`, with no message body and `demo_call_` sids reported as initiated. */
  function CallDispatch(id: nat, to: string, userId: Option<nat>, isDemo: bool, now: Instant,
                        demoMode: bool, configured: bool, reply: ProviderReply): (SendResult, NotificationLog)
  {
    Settle(PendingLog(userId, WakeupCallNotice, to, None, isDemo, now), id, isDemo || demoMode, configured, reply,
           "demo_call_", "initiated")
  }

  /** The text of the verification message. */
  function VerificationMessage(code: string): string {
    "Your Vamshi Wake-up Calls verification code is: " + code + ". This code expires in 10 minutes."
  }

  // ---- properties of the dispatcher ----

  /**
   * A send succeeds exactly on the demo path or when the configured client
   * accepts; the row ends sent exactly when the send succeeds and failed
   * otherwise, a failure's text is stored on the row, and a provider sid and
   * status reach both the row and the result.
   */
  lemma SettleOutcome(log: NotificationLog, id: nat, demo: bool, configured: bool, reply: ProviderReply,
                      prefix: string, demoStatus: string)
    requires log.status == LogPending
    ensures var (r, log') := Settle(log, id, demo, configured, reply, prefix, demoStatus);
      && (r.Sent? <==> demo || (configured && reply.Accepted?))
      && (log'.status == LogSent <==> r.Sent?)
      && (log'.status == LogFailed <==> r.NotSent?)
      && (r.NotSent? ==> log'.twilioErrorMessage == Some(r.error))
      && (r.Sent? ==> log'.twilioSid == Some(r.sid))
      && (r.Sent? && !demo ==> log'.twilioStatus == Some(r.status) && r == Sent(reply.sid, reply.status))
      && (demo ==> r == Sent(prefix + NatToString(id), demoStatus))
      && (!demo && !configured ==> r == NotSent(NotConfigured))
      && log'.(status := log.status, twilioSid := log.twilioSid, twilioStatus := log.twilioStatus,
               twilioErrorMessage := log.twilioErrorMessage) == log
  {
  }

  /** The provider's two exception kinds are told apart by the prefix of the reported error. */
  lemma ErrorPrefixes(log: NotificationLog, id: nat, reply: ProviderReply, prefix: string, demoStatus: string)
    ensures var r := Settle(log, id, false, true, reply, prefix, demoStatus).0;
      && (reply.TwilioFailure? ==> r.NotSent? && "Twilio error: " <= r.error)
      && (reply.OtherFailure? ==> r.NotSent? && "Unexpected error: " <= r.error)
  {
  }

  /** Demo sids never repeat: two different rows get two different synthetic sids of each kind. */
  lemma DemoSidsDistinct(a: nat, b: nat, prefix: string)
    requires a != b
    ensures prefix + NatToString(a) != prefix + NatToString(b)
  {
    TaggedNumbersDistinct(prefix, a, b);
  }

  /** `TwilioService`, together with the two notification tables it and its tasks write. */
  class TwilioService {
    const clientConfigured: bool
    const demoMode: bool
    var logs: map<nat, NotificationLog>
    var nextLogId: nat
    var webhooks: map<nat, TwilioWebhook>
    var nextWebhookId: nat

    ghost predicate Valid()
      reads this
    {
      (forall id :: id in logs ==> id < nextLogId) && (forall id :: id in webhooks ==> id < nextWebhookId)
    }

    constructor(clientConfigured: bool, demoMode: bool)
      ensures Valid()
      ensures this.clientConfigured == clientConfigured && this.demoMode == demoMode
      ensures logs == map[] && webhooks == map[]
    {
      this.clientConfigured := clientConfigured;
      this.demoMode := demoMode;
      logs := map[];
      nextLogId := 1;
      webhooks := map[];
      nextWebhookId := 1;
    }

    /** `NotificationLog.objects.create`: a pending row under a fresh id. */
    method CreateLog(log: NotificationLog) returns (id: nat)
      requires Valid()
      modifies this
      ensures Valid()
      ensures id == old(nextLogId) && id !in old(logs) && nextLogId == id + 1
      ensures logs == old(logs)[id := log] && webhooks == old(webhooks) && nextWebhookId == old(nextWebhookId)
    {
      id := nextLogId;
      logs := logs[id := log];
      nextLogId := nextLogId + 1;
    }

    /** The body shared by `send_sms` and `make_call` once their row exists: settle it along one branch. */
    method SettleLog(id: nat, demo: bool, reply: ProviderReply, demoPrefix: string, demoStatus: string)
      returns (r: SendResult)
      requires Valid() && id in logs
      modifies this
      ensures Valid() && id in logs
      ensures (r, logs[id]) == Settle(old(logs[id]), id, demo, clientConfigured, reply, demoPrefix, demoStatus)
      ensures logs == old(logs)[id := logs[id]]
      ensures nextLogId == old(nextLogId) && webhooks == old(webhooks) && nextWebhookId == old(nextWebhookId)
    {
      var log := logs[id];
      if demo {
        log := log.(status := LogSent);
        log := log.(twilioSid := Some(demoPrefix + NatToString(id)));
        logs := logs[id := log];
        return Sent(log.twilioSid.value, demoStatus);
      }
      if !clientConfigured {
        log := log.(status := LogFailed);
        log := log.(twilioErrorMessage := Some(NotConfigured));
        logs := logs[id := log];
        return NotSent(NotConfigured);
      }
      match reply {
        case Accepted(sid, status) =>
          log := log.(twilioSid := Some(sid));
          log := log.(twilioStatus := Some(status));
          log := log.(status := LogSent);
          r := Sent(sid, status);
        case TwilioFailure(text) =>
          var message := "Twilio error: " + text;
          log := log.(status := LogFailed);
          log := log.(twilioErrorMessage := Some(message));
          r := NotSent(message);
        case OtherFailure(text) =>
          var message := "Unexpected error: " + text;
          log := log.(status := LogFailed);
          log := log.(twilioErrorMessage := Some(message));
          r := NotSent(message);
      }
      logs := logs[id := log];
    }

    /** `send_sms`: exactly one new row, settled as `SmsDispatch` says. */
    method SendSms(to: string, message: string, userId: Option<nat>, isDemo: bool, now: Instant, reply: ProviderReply)
      returns (r: SendResult)
      requires Valid()
      modifies this
      ensures Valid()
      ensures nextLogId == old(nextLogId) + 1 && old(nextLogId) !in old(logs) && old(nextLogId) in logs
      ensures (r, logs[old(nextLogId)]) == SmsDispatch(old(nextLogId), to, message, userId, isDemo, now,
                                                         demoMode, clientConfigured, reply)
      ensures logs == old(logs)[old(nextLogId) := logs[old(nextLogId)]]
      ensures webhooks == old(webhooks) && nextWebhookId == old(nextWebhookId)
    {
      var id := CreateLog(PendingLog(userId, WakeupSms, to, Some(message), isDemo, now));
      r := SettleLog(id, isDemo || demoMode, reply, "demo_sms_", "sent");
    }

    /** `make_call`: exactly one new row, settled as `CallDispatch` says. */
    method MakeCall(to: string, twimlUrl: string, userId: Option<nat>, isDemo: bool, now: Instant, reply: ProviderReply)
      returns (r: SendResult)
      requires Valid()
      modifies this
      ensures Valid()
      ensures nextLogId == old(nextLogId) + 1 && old(nextLogId) !in old(logs) && old(nextLogId) in logs
      ensures (r, logs[old(nextLogId)]) == CallDispatch(old(nextLogId), to, userId, isDemo, now,
                                                          demoMode, clientConfigured, reply)
      ensures logs == old(logs)[old(nextLogId) := logs[old(nextLogId)]]
      ensures webhooks == old(webhooks) && nextWebhookId == old(nextWebhookId)
    {
      var id := CreateLog(PendingLog(userId, WakeupCallNotice, to, None, isDemo, now));
      r := SettleLog(id, isDemo || demoMode, reply, "demo_call_", "initiated");
    }

    /**
     * `send_verification_sms`: its own verification row, settled only in demo
     * mode; otherwise that row stays pending and a second row comes from
     * `send_sms` with the demo flag off.
     */
    method SendVerificationSms(to: string, code: string, userId: Option<nat>, now: Instant, reply: ProviderReply)
      returns (r: SendResult)
      requires Valid()
      modifies this
      ensures Valid()
      ensures var id := old(nextLogId);
        var own := PendingLog(userId, VerificationSms, to, Some(VerificationMessage(code)), false, now);
        && id !in old(logs)
        && (demoMode ==>
              && nextLogId == id + 1
              && logs == old(logs)[id := own.(status := LogSent, twilioSid := Some("demo_verification_" + NatToString(id)))]
              && r == Sent("demo_verification_" + NatToString(id), "sent"))
        && (!demoMode ==>
              && nextLogId == id + 2 && id + 1 !in old(logs) && id + 1 in logs
              && (r, logs[id + 1]) == SmsDispatch(id + 1, to, VerificationMessage(code), userId, false, now,
                                                  false, clientConfigured, reply)
              && logs == old(logs)[id := own][id + 1 := logs[id + 1]])
      ensures webhooks == old(webhooks) && nextWebhookId == old(nextWebhookId)
    {
      var message := VerificationMessage(code);
      var id := CreateLog(PendingLog(userId, VerificationSms, to, Some(message), false, now));
      if demoMode {
        r := SettleLog(id, true, reply, "demo_verification_", "sent");
        return;
      }
      r := SendSms(to, message, userId, false, now, reply);
    }

    /**
     * `check_if_number_verified`: a search of the account's verified caller
     * ids, which the client lists (None when listing raises).
     */
    method CheckIfNumberVerified(phone: string, callerIds: Option<seq<string>>) returns (found: bool)
      ensures found <==> clientConfigured && callerIds.Some? && phone in callerIds.value
    {
      if !clientConfigured || callerIds.None? {
        return false;
      }
      var ids := callerIds.value;
      var i := 0;
      while i < |ids|
        invariant 0 <= i <= |ids|
        invariant phone !in ids[..i]
      {
        if ids[i] == phone {
          return true;
        }
        assert ids[..i + 1] == ids[..i] + [ids[i]];
        i := i + 1;
      }
      assert ids[..i] == ids;
      return false;
    }
  }
}
