/**
 * `PhoneVerificationService`: sending a six-digit code to a phone number,
 * checking the code the user types back, the resend throttle and the
 * status query.
 *
 * The random code is a parameter (the generator's output); the SMS goes
 * through the modelled `TwilioService`, whose provider reply is a parameter.
 * Rows of PhoneVerification are also written outside this service (the
 * development bypass and the admin tools create rows directly), so the table
 * may hold several rows for one user and number; the service's queries then
 * raise `MultipleObjectsReturned`, which the model reports as an outcome.
 */
module AccountsServices {
  import opened Wrappers
  import opened Calendar
  import opened Strings
  import opened Collections
  import opened AccountsModels
  import opened NotificationServices
  import opened WakeUpModels

  const CodeExpiryMinutes: nat := 10
  const MaxAttempts: int := 3

  const SentMessage: string := "Verification code sent successfully"
  const NoRecordError: string := "No verification code found. " + "Please request a new code."
  const ExpiredError: string := "Verification code has expired. " + "Please request a new code."
  const LockedError: string := "Maximum verification attempts exceeded. " + "Please request a new code."
  const WaitError: string := "Please wait at least 1 minute " + "before requesting a new code."

  function WrongCodeError(remaining: int): string {
    "Invalid verification code. " + IntToString(remaining) + " attempts remaining."
  }

  /** The dictionary `send_verification_code` returns, or the exception `get_or_create` raises. */
  datatype SendOutcome =
    | CodeSent(message: string, expiresInMinutes: nat)
    | SendFailed(error: string)
    | MultipleRecords

  /** The dictionary `verify_code` returns, or the exception `get` raises. */
  datatype VerifyOutcome =
    | PhoneVerified
    | VerifyRefused(error: string)
    | WrongCode(error: string, remainingAttempts: int)
    | MultiplePending

  /** The dictionary `get_verification_status` returns. */
  datatype VerificationStatus =
    | NoVerification
    | PhoneIsVerified(verifiedAt: Instant)
    | PendingVerification(expiresAt: Instant, attemptsUsed: int, maxAttempts: int)
    | LastAttemptExpired

  // ---- queries on the table ----

  /** `filter(user=user, phone_number=phone_number)`. */
  function Matching(rows: map<nat, PhoneVerification>, userId: nat, phone: string): set<nat> {
    set id | id in rows && rows[id].userId == userId && rows[id].phoneNumber == phone
  }

  /** `filter(user=user, phone_number=phone_number, is_verified=False)`. */
  function PendingIds(rows: map<nat, PhoneVerification>, userId: nat, phone: string): set<nat> {
    set id | id in rows && rows[id].userId == userId && rows[id].phoneNumber == phone && !rows[id].isVerified
  }

  /** The row `get`/`get_or_create` finds: the only one, if there is exactly one. */
  function Single(s: set<nat>): (r: Option<nat>)
    ensures r.Some? ==> s == {r.value}
    ensures r.None? ==> s == {} || exists a, b :: a in s && b in s && a != b
  {
    if s == {} then None
    else
      var x :| x in s;
      if s == {x} then Some(x)
      else
        assert exists b :: b in s && b != x;
        None
  }

  // ---- send ----

  /** A row reissued with a new code: expiry ten minutes from now, attempts and verification cleared. */
  function Reissued(v: PhoneVerification, code: string, now: Instant): PhoneVerification {
    v.(verificationCode := code, expiresAt := now + Minutes(CodeExpiryMinutes), attempts := 0, isVerified := false)
  }

  /**
   * The table after `get_or_create` and the update of `send_verification_code`:
   * a new row when none matches, the matching row reissued when one does,
   * and None when `get_or_create` raises because several match.
   */
  function Issue(rows: map<nat, PhoneVerification>, nextId: nat, userId: nat, phone: string, code: string,
                 now: Instant): Option<(map<nat, PhoneVerification>, nat)>
  {
    var m := Matching(rows, userId, phone);
    if m == {} then
      Some((rows[nextId := PhoneVerification(userId, phone, code, false, 0, now, now + Minutes(CodeExpiryMinutes))],
            nextId + 1))
    else
      match Single(m)
      case Some(id) => Some((rows[id := Reissued(rows[id], code, now)], nextId))
      case None => None
  }

  /** The reply `send_verification_code` builds from the SMS: success exactly on the demo path or an accepted send. */
  function SendReport(demo: bool, configured: bool, reply: ProviderReply): SendOutcome {
    if demo then CodeSent(SentMessage, CodeExpiryMinutes)
    else if !configured then SendFailed(NotConfigured)
    else
      match reply
      case Accepted(_, _) => CodeSent(SentMessage, CodeExpiryMinutes)
      case TwilioFailure(text) => SendFailed("Twilio error: " + text)
      case OtherFailure(text) => SendFailed("Unexpected error: " + text)
  }

  /** A text sent outside the demo mode is reported as `SendReport` says. */
  lemma SmsReport(id: nat, to: string, code: string, userId: Option<nat>, now: Instant, configured: bool,
                  reply: ProviderReply)
    ensures var sms := SmsDispatch(id, to, VerificationMessage(code), userId, false, now, false, configured, reply).0;
      (if sms.Sent? then CodeSent(SentMessage, CodeExpiryMinutes) else SendFailed(sms.error))
        == SendReport(false, configured, reply)
  {
  }

  /** With no row for the number, a send creates one under the next id: the new code, unverified, ten minutes to live. */
  lemma IssueCreates(rows: map<nat, PhoneVerification>, nextId: nat, userId: nat, phone: string, code: string,
                     now: Instant)
    requires forall id :: id in rows ==> id < nextId
    requires Matching(rows, userId, phone) == {}
    ensures Issue(rows, nextId, userId, phone, code, now).Some?
    ensures var (rows', nextId') := Issue(rows, nextId, userId, phone, code, now).value;
      && nextId' == nextId + 1 && rows'.Keys == rows.Keys + {nextId}
      && Matching(rows', userId, phone) == {nextId}
      && rows'[nextId].verificationCode == code && rows'[nextId].attempts == 0 && !rows'[nextId].isVerified
      && rows'[nextId].createdAt == now && rows'[nextId].expiresAt == now + Minutes(CodeExpiryMinutes)
      && (forall id :: id in rows ==> rows'[id] == rows[id])
  {
  }

  /**
   * With one row for the number, a send reissues that row: new code, attempts
   * 0, unverified, ten minutes to live, its creation time kept.
   */
  lemma IssueResets(rows: map<nat, PhoneVerification>, nextId: nat, userId: nat, phone: string, code: string,
                    now: Instant, id: nat)
    requires Matching(rows, userId, phone) == {id}
    ensures Issue(rows, nextId, userId, phone, code, now).Some?
    ensures var (rows', nextId') := Issue(rows, nextId, userId, phone, code, now).value;
      && nextId' == nextId && rows'.Keys == rows.Keys
      && Matching(rows', userId, phone) == {id}
      && rows'[id].verificationCode == code && rows'[id].attempts == 0 && !rows'[id].isVerified
      && rows'[id].createdAt == rows[id].createdAt && rows'[id].expiresAt == now + Minutes(CodeExpiryMinutes)
      && (forall j :: j in rows && j != id ==> rows'[j] == rows[j])
  {
  }

  /** A send fails without change exactly when two rows match the number. */
  lemma IssueRefuses(rows: map<nat, PhoneVerification>, nextId: nat, userId: nat, phone: string, code: string,
                     now: Instant)
    ensures Issue(rows, nextId, userId, phone, code, now).None? <==>
      exists a, b :: a in Matching(rows, userId, phone) && b in Matching(rows, userId, phone) && a != b
  {
    var m := Matching(rows, userId, phone);
    if exists a, b :: a in m && b in m && a != b {
      var a, b :| a in m && b in m && a != b;
      assert m != {} && forall x :: m != {x};
    }
  }

  // ---- verify ----

  /**
   * The checks of `verify_code` on the row found: an expired code and a used-up
   * allowance are refused untouched; otherwise the attempt is counted, and
   * the code either verifies the row or reports how many attempts remain.
   */
  function CheckCode(v: PhoneVerification, code: string, now: Instant): (VerifyOutcome, PhoneVerification) {
    if now > v.expiresAt then (VerifyRefused(ExpiredError), v)
    else if v.attempts >= MaxAttempts then (VerifyRefused(LockedError), v)
    else
      var counted := v.(attempts := v.attempts + 1);
      if v.verificationCode == code then (PhoneVerified, counted.(isVerified := true))
      else (WrongCode(WrongCodeError(MaxAttempts - counted.attempts), MaxAttempts - counted.attempts), counted)
  }

  /** `verify_code` on the two tables: its reply, the verification rows and the users after it. */
  function VerifyEffect(rows: map<nat, PhoneVerification>, users: map<nat, User>, userId: nat, phone: string,
                        code: string, now: Instant): (VerifyOutcome, map<nat, PhoneVerification>, map<nat, User>)
    requires userId in users
  {
    var pending := PendingIds(rows, userId, phone);
    if pending == {} then (VerifyRefused(NoRecordError), rows, users)
    else
      match Single(pending)
      case None => (MultiplePending, rows, users)
      case Some(id) =>
        var (r, v') := CheckCode(rows[id], code, now);
        (r, rows[id := v'],
         if r == PhoneVerified then users[userId := users[userId].(phoneNumber := Some(phone), phoneVerified := true)]
         else users)
  }

  /**
   * A code verifies exactly when it is unexpired, attempts remain and it
   * matches; the attempt counter rises by one exactly when the first two
   * hold; only the attempt counter and the verified flag ever change.
   */
  lemma CheckCodeGates(v: PhoneVerification, code: string, now: Instant)
    ensures var (r, v') := CheckCode(v, code, now);
      && (r == PhoneVerified <==> now <= v.expiresAt && v.attempts < MaxAttempts && v.verificationCode == code)
      && v'.attempts == (if now <= v.expiresAt && v.attempts < MaxAttempts then v.attempts + 1 else v.attempts)
      && (v'.isVerified <==> v.isVerified || r == PhoneVerified)
      && v'.(attempts := v.attempts, isVerified := v.isVerified) == v
      && (now > v.expiresAt ==> r == VerifyRefused(ExpiredError) && v' == v)
      && (now <= v.expiresAt && v.attempts >= MaxAttempts ==> r == VerifyRefused(LockedError) && v' == v)
  {
  }

  /** Verifying never pushes the attempt counter past the limit. */
  lemma CheckCodeKeepsLimit(v: PhoneVerification, code: string, now: Instant)
    requires 0 <= v.attempts <= MaxAttempts
    ensures 0 <= CheckCode(v, code, now).1.attempts <= MaxAttempts
  {
  }

  /** A wrong code reports the attempts left, between 0 and 2, in the text and the count. */
  lemma WrongCodeReportsRemaining(v: PhoneVerification, code: string, now: Instant)
    requires 0 <= v.attempts
    ensures var (r, v') := CheckCode(v, code, now);
      r.WrongCode? ==>
        && r.remainingAttempts == MaxAttempts - v'.attempts && 0 <= r.remainingAttempts < MaxAttempts
        && r.error == "Invalid verification code. " + IntToString(r.remainingAttempts) + " attempts remaining."
        && code != v.verificationCode
  {
  }

  /** After three wrong codes on a fresh row, even the right code is refused. */
  lemma ThreeMissesLockOut(v: PhoneVerification, a: string, b: string, c: string, t1: Instant, t2: Instant,
                           t3: Instant, t4: Instant)
    requires v.attempts == 0 && a != v.verificationCode && b != v.verificationCode && c != v.verificationCode
    requires t1 <= v.expiresAt && t2 <= v.expiresAt && t3 <= v.expiresAt && t4 <= v.expiresAt
    ensures var v1 := CheckCode(v, a, t1).1;
      var v2 := CheckCode(v1, b, t2).1;
      var v3 := CheckCode(v2, c, t3).1;
      && v3.attempts == MaxAttempts
      && CheckCode(v3, v.verificationCode, t4) == (VerifyRefused(LockedError), v3)
  {
  }

  /**
   * `verify_code` changes at most the one pending row and, only on success,
   * the user's phone number and verified flag; with no pending row, or
   * several, it changes nothing.
   */
  lemma VerifyTouchesOnlyPending(rows: map<nat, PhoneVerification>, users: map<nat, User>, userId: nat,
                                 phone: string, code: string, now: Instant)
    requires userId in users
    ensures var (r, rows', users') := VerifyEffect(rows, users, userId, phone, code, now);
      && rows'.Keys == rows.Keys && users'.Keys == users.Keys
      && (forall id :: id in rows && id !in PendingIds(rows, userId, phone) ==> rows'[id] == rows[id])
      && (PendingIds(rows, userId, phone) == {} ==> r == VerifyRefused(NoRecordError) && rows' == rows)
      && (r == MultiplePending ==> rows' == rows && users' == users)
      && (r == PhoneVerified ==> users' == users[userId := users[userId].(phoneNumber := Some(phone), phoneVerified := true)])
      && (r != PhoneVerified ==> users' == users)
  {
  }

  /** The code just sent verifies the number while it is unexpired. */
  lemma SendThenVerify(rows: map<nat, PhoneVerification>, nextId: nat, users: map<nat, User>, userId: nat,
                       phone: string, code: string, now: Instant, later: Instant)
    requires forall id :: id in rows ==> id < nextId
    requires userId in users && Issue(rows, nextId, userId, phone, code, now).Some?
    requires now <= later <= now + Minutes(CodeExpiryMinutes)
    ensures var (rows', _) := Issue(rows, nextId, userId, phone, code, now).value;
      var (r, _, users') := VerifyEffect(rows', users, userId, phone, code, later);
      r == PhoneVerified && users'[userId].phoneNumber == Some(phone) && users'[userId].phoneVerified
  {
    var m := Matching(rows, userId, phone);
    var rows' := Issue(rows, nextId, userId, phone, code, now).value.0;
    var id: nat;
    if m == {} {
      IssueCreates(rows, nextId, userId, phone, code, now);
      id := nextId;
    } else {
      id := Single(m).value;
      IssueResets(rows, nextId, userId, phone, code, now, id);
    }
    assert PendingIds(rows', userId, phone) == {id} by {
      forall j | j in PendingIds(rows', userId, phone) ensures j == id {
        assert j in Matching(rows', userId, phone);
      }
      assert id in Matching(rows', userId, phone);
    }
  }

  // ---- resend and status ----

  /** `filter(..., created_at__gte=now - 1 minute).first()` finds a row. */
  predicate CreatedRecently(rows: map<nat, PhoneVerification>, userId: nat, phone: string, now: Instant) {
    exists id :: id in rows && rows[id].userId == userId && rows[id].phoneNumber == phone
                 && rows[id].createdAt >= now - Minutes(1)
  }

  /** A row created by a send throttles resends for the next minute. */
  lemma ResendThrottledAfterCreation(rows: map<nat, PhoneVerification>, nextId: nat, userId: nat, phone: string,
                                     code: string, now: Instant, later: Instant)
    requires forall id :: id in rows ==> id < nextId
    requires Matching(rows, userId, phone) == {} && now <= later <= now + Minutes(1)
    ensures CreatedRecently(Issue(rows, nextId, userId, phone, code, now).value.0, userId, phone, later)
  {
    IssueCreates(rows, nextId, userId, phone, code, now);
    var rows' := Issue(rows, nextId, userId, phone, code, now).value.0;
    assert nextId in rows' && rows'[nextId].createdAt == now;
  }

  /**
   * The throttle reads the creation time, which a reissue keeps: once the
   * row is more than a minute old, a resend straight after a send is let
   * through.
   */
  lemma ResendNotThrottledAfterReissue(rows: map<nat, PhoneVerification>, nextId: nat, userId: nat, phone: string,
                                       code: string, now: Instant, id: nat)
    requires Matching(rows, userId, phone) == {id} && rows[id].createdAt < now - Minutes(1)
    ensures !CreatedRecently(Issue(rows, nextId, userId, phone, code, now).value.0, userId, phone, now)
  {
    IssueResets(rows, nextId, userId, phone, code, now, id);
    var rows' := Issue(rows, nextId, userId, phone, code, now).value.0;
    forall j | j in rows' && rows'[j].userId == userId && rows'[j].phoneNumber == phone
      ensures rows'[j].createdAt < now - Minutes(1)
    {
      assert j in Matching(rows', userId, phone);
    }
  }

  /** The status `get_verification_status` reports for the row it picks. */
  function StatusOf(v: PhoneVerification, now: Instant): VerificationStatus {
    if v.isVerified then PhoneIsVerified(v.createdAt)
    else if now <= v.expiresAt then PendingVerification(v.expiresAt, v.attempts, MaxAttempts)
    else LastAttemptExpired
  }

  /** `order_by('-created_at').first()` may pick `id`: no matching row was created later. */
  predicate IsLatest(rows: map<nat, PhoneVerification>, m: set<nat>, id: nat)
    requires m <= rows.Keys
  {
    id in m && forall j :: j in m ==> rows[j].createdAt <= rows[id].createdAt
  }

  /** A row is reported verified, pending exactly while unexpired, or expired. */
  lemma StatusCases(v: PhoneVerification, now: Instant)
    ensures var s := StatusOf(v, now);
      && (s.PhoneIsVerified? <==> v.isVerified)
      && (s.PendingVerification? <==> !v.isVerified && now <= v.expiresAt)
      && (s == LastAttemptExpired <==> !v.isVerified && now > v.expiresAt)
      && (s.PendingVerification? ==> s.attemptsUsed == v.attempts && s.maxAttempts == MaxAttempts)
      && s != NoVerification
  {
  }

  /** A non-empty set of rows has a latest one. */
  lemma {:induction false} LatestExists(rows: map<nat, PhoneVerification>, m: set<nat>)
    requires m != {} && m <= rows.Keys
    ensures exists id :: IsLatest(rows, m, id)
    decreases |m|
  {
    var x :| x in m;
    if m != {x} {
      var rest := m - {x};
      LatestExists(rows, rest);
      var y :| IsLatest(rows, rest, y);
      if rows[x].createdAt <= rows[y].createdAt {
        assert IsLatest(rows, m, y);
      } else {
        assert IsLatest(rows, m, x);
      }
    } else {
      assert IsLatest(rows, m, x);
    }
  }

  /** `PhoneVerificationService` with the PhoneVerification table it works on. */
  class PhoneVerificationService {
    var rows: map<nat, PhoneVerification>
    var nextId: nat

    ghost predicate Valid()
      reads this
    {
      forall id :: id in rows ==> id < nextId
    }

    constructor()
      ensures Valid() && rows == map[]
    {
      rows := map[];
      nextId := 1;
    }

    /** The row writes of `send_verification_code`, before the SMS. */
    method IssueCode(userId: nat, phone: string, code: string, now: Instant) returns (issued: bool)
      requires Valid()
      modifies this
      ensures Valid()
      ensures var i := Issue(old(rows), old(nextId), userId, phone, code, now);
        && (issued <==> i.Some?)
        && (i.Some? ==> (rows, nextId) == i.value)
        && (i.None? ==> rows == old(rows) && nextId == old(nextId))
    {
      var m := Matching(rows, userId, phone);
      if m == {} {
        rows := rows[nextId := PhoneVerification(userId, phone, code, false, 0, now, now + Minutes(CodeExpiryMinutes))];
        nextId := nextId + 1;
        return true;
      }
      var found := Single(m);
      if found.None? {
        return false;
      }
      var v := rows[found.value];
      v := v.(verificationCode := code, expiresAt := now + Minutes(CodeExpiryMinutes), attempts := 0,
              isVerified := false);
      rows := rows[found.value := v];
      return true;
    }

    /**
     * `send_verification_code`: create or reissue the row, then text the
     * code; the reply follows the SMS result.
     */
    method SendVerificationCode(twilio: TwilioService, userId: nat, phone: string, code: string, now: Instant,
                                reply: ProviderReply)
      returns (r: SendOutcome)
      requires Valid() && twilio.Valid()
      modifies this, twilio
      ensures Valid() && twilio.Valid()
      ensures var i := Issue(old(rows), old(nextId), userId, phone, code, now);
        && (i.None? ==> r == MultipleRecords && rows == old(rows) && nextId == old(nextId)
                        && twilio.logs == old(twilio.logs))
        && (i.Some? ==> (rows, nextId) == i.value
                        && r == SendReport(twilio.demoMode, twilio.clientConfigured, reply))
      ensures forall id :: id in old(twilio.logs) ==> id in twilio.logs && twilio.logs[id] == old(twilio.logs)[id]
      ensures twilio.webhooks == old(twilio.webhooks)
    {
      var issued := IssueCode(userId, phone, code, now);
      if !issued {
        return MultipleRecords;
      }
      r := TextCode(twilio, userId, phone, code, now, reply);
    }

    /** The SMS step of `send_verification_code` and the reply built from its result. */
    method TextCode(twilio: TwilioService, userId: nat, phone: string, code: string, now: Instant,
                    reply: ProviderReply)
      returns (r: SendOutcome)
      requires twilio.Valid()
      modifies twilio
      ensures twilio.Valid()
      ensures r == SendReport(twilio.demoMode, twilio.clientConfigured, reply)
      ensures forall id :: id in old(twilio.logs) ==> id in twilio.logs && twilio.logs[id] == old(twilio.logs)[id]
      ensures twilio.webhooks == old(twilio.webhooks)
    {
      ghost var smsId := twilio.nextLogId + 1;
      var sms := twilio.SendVerificationSms(phone, code, Some(userId), now, reply);
      r := if sms.Sent? then CodeSent(SentMessage, CodeExpiryMinutes) else SendFailed(sms.error);
      if !twilio.demoMode {
        SmsReport(smsId, phone, code, Some(userId), now, twilio.clientConfigured, reply);
      }
    }

    /** `resend_verification_code`: refused while a matching row is under a minute old, otherwise a send. */
    method ResendVerificationCode(twilio: TwilioService, userId: nat, phone: string, code: string, now: Instant,
                                  reply: ProviderReply)
      returns (r: SendOutcome)
      requires Valid() && twilio.Valid()
      modifies this, twilio
      ensures Valid() && twilio.Valid()
      ensures CreatedRecently(old(rows), userId, phone, now) ==>
        r == SendFailed(WaitError) && rows == old(rows) && nextId == old(nextId) && twilio.logs == old(twilio.logs)
      ensures var i := Issue(old(rows), old(nextId), userId, phone, code, now);
        !CreatedRecently(old(rows), userId, phone, now) ==>
          && (i.None? ==> r == MultipleRecords && rows == old(rows) && nextId == old(nextId)
                          && twilio.logs == old(twilio.logs))
          && (i.Some? ==> (rows, nextId) == i.value
                          && r == SendReport(twilio.demoMode, twilio.clientConfigured, reply))
      ensures forall id :: id in old(twilio.logs) ==> id in twilio.logs && twilio.logs[id] == old(twilio.logs)[id]
      ensures twilio.webhooks == old(twilio.webhooks)
    {
      var recent := exists id :: id in rows && rows[id].userId == userId && rows[id].phoneNumber == phone
                                 && rows[id].createdAt >= now - Minutes(1);
      if recent {
        return SendFailed(WaitError);
      }
      r := SendVerificationCode(twilio, userId, phone, code, now, reply);
    }

    /** `verify_code`: find the one pending row, check the code, and on a match record the verified number on the user. */
    method VerifyCode(store: WakeUpStore, userId: nat, phone: string, code: string, now: Instant)
      returns (r: VerifyOutcome)
      requires Valid() && store.Valid() && userId in store.users
      modifies this, store
      ensures Valid() && store.Valid()
      ensures (r, rows, store.users) == VerifyEffect(old(rows), old(store.users), userId, phone, code, now)
      ensures nextId == old(nextId)
      ensures store.calls == old(store.calls) && store.executions == old(store.executions)
      ensures store.nextExecutionId == old(store.nextExecutionId) && store.queue == old(store.queue)
    {
      var pending := PendingIds(rows, userId, phone);
      if pending == {} {
        return VerifyRefused(NoRecordError);
      }
      var found := Single(pending);
      if found.None? {
        return MultiplePending;
      }
      var id := found.value;
      var v := rows[id];
      assert rows[id := v] == rows;
      if now > v.expiresAt {
        return VerifyRefused(ExpiredError);
      }
      if v.attempts >= MaxAttempts {
        return VerifyRefused(LockedError);
      }
      ghost var rows0 := rows;
      v := v.(attempts := v.attempts + 1);
      ghost var tried := v;
      rows := rows[id := v];
      if v.verificationCode == code {
        v := v.(isVerified := true);
        rows := rows[id := v];
        OverwriteTwice(rows0, id, tried, v);
        var u := store.users[userId];
        store.SaveUser(userId, u.(phoneNumber := Some(phone), phoneVerified := true));
        r := PhoneVerified;
      } else {
        var remaining := MaxAttempts - v.attempts;
        r := WrongCode(WrongCodeError(remaining), remaining);
      }
    }

    /** `get_verification_status`: the status of the latest matching row, or none. */
    method GetVerificationStatus(userId: nat, phone: string, now: Instant) returns (s: VerificationStatus)
      ensures s == NoVerification <==> Matching(rows, userId, phone) == {}
      ensures s != NoVerification ==>
        exists id :: IsLatest(rows, Matching(rows, userId, phone), id) && s == StatusOf(rows[id], now)
    {
      var m := Matching(rows, userId, phone);
      if m == {} {
        return NoVerification;
      }
      LatestExists(rows, m);
      var id :| IsLatest(rows, m, id);
      s := StatusOf(rows[id], now);
      StatusCases(rows[id], now);
    }
  }
}
