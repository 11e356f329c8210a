/** The documents the route handlers read and write besides QR codes, vehicles,
    subscriptions and OTPs: users (with their push tokens and emergency contact),
    scan logs and owner notifications; and the schema checks that decide whether
    `create`/`save` of one of them throws. */
module Records {
  import opened Base

  datatype Platform = Web | Android | Ios
  datatype Role = UserRole | AdminRole

  /** One entry of `fcmTokens`. */
  datatype FcmToken = FcmToken(token: string, platform: Platform, createdAt: Time)

  /** The emergency contact, with the phone in clear: the stored hash and
      ciphertext stand for it (hashing and encryption are not modelled). */
  datatype EmergencyContact = EmergencyContact(name: string, phone: string)

  /** A document of the user collection; `phone` is the clear phone number. */
  datatype UserRecord = UserRecord(
    name: string,
    phone: string,
    firebaseUid: Option<string>,
    isVerified: bool,
    isActive: bool,
    role: Role,
    emergencyContact: Option<EmergencyContact>,
    fcmTokens: seq<FcmToken>,
    lastLogin: Option<Time>,
    createdAt: Time)

  /** `fcmTokens.filter(t => !bad.includes(t.token))`: the entries whose token is not
      in `bad`, in their order. */
  function Prune(ts: seq<FcmToken>, bad: set<string>): (r: seq<FcmToken>)
    ensures |r| <= |ts|
    ensures forall x :: x in r <==> x in ts && x.token !in bad
    decreases |ts|
  {
    if ts == [] then []
    else (if ts[0].token in bad then [] else [ts[0]]) + Prune(ts[1..], bad)
  }

  /** Filtering a concatenation filters each part. */
  lemma {:induction false} PruneConcat(a: seq<FcmToken>, b: seq<FcmToken>, bad: set<string>)
    ensures Prune(a + b, bad) == Prune(a, bad) + Prune(b, bad)
    decreases |a|
  {
    if a == [] {
      assert a + b == b;
    } else {
      assert (a + b)[0] == a[0] && (a + b)[1..] == a[1..] + b;
      PruneConcat(a[1..], b, bad);
    }
  }

  /** Filtering keeps the entries it does not remove in their relative order: two kept
      entries stay in place between what is left of the stretches around them. */
  lemma PruneKeepsOrder(a: seq<FcmToken>, x: FcmToken, b: seq<FcmToken>, y: FcmToken, c: seq<FcmToken>, bad: set<string>)
    requires x.token !in bad && y.token !in bad
    ensures Prune(a + [x] + b + [y] + c, bad) == Prune(a, bad) + [x] + Prune(b, bad) + [y] + Prune(c, bad)
  {
    var ax, axb, axby := a + [x], a + [x] + b, a + [x] + b + [y];
    PruneConcat(a, [x], bad);
    PruneConcat(ax, b, bad);
    PruneConcat(axb, [y], bad);
    PruneConcat(axby, c, bad);
    assert Prune([x], bad) == [x] by { assert [x][1..] == []; }
    assert Prune([y], bad) == [y] by { assert [y][1..] == []; }
  }

  /** A list with none of the tokens in `bad` is left as it is. */
  lemma {:induction false} PruneNothing(ts: seq<FcmToken>, bad: set<string>)
    requires forall i | 0 <= i < |ts| :: ts[i].token !in bad
    ensures Prune(ts, bad) == ts
    decreases |ts|
  {
    if ts != [] {
      PruneNothing(ts[1..], bad);
    }
  }

  /** A loaded user document (`req.user`); the handlers assign its fields and save it. */
  class UserDocument {
    var name: string
    var phone: string
    var firebaseUid: Option<string>
    var isVerified: bool
    var isActive: bool
    var role: Role
    var emergencyContact: Option<EmergencyContact>
    var fcmTokens: seq<FcmToken>
    var lastLogin: Option<Time>
    var createdAt: Time

    function Record(): UserRecord
      reads this
    {
      UserRecord(name, phone, firebaseUid, isVerified, isActive, role, emergencyContact, fcmTokens, lastLogin, createdAt)
    }

    constructor Load(u: UserRecord)
      ensures Record() == u
    {
      name, phone, firebaseUid, isVerified, isActive := u.name, u.phone, u.firebaseUid, u.isVerified, u.isActive;
      role, emergencyContact, fcmTokens, lastLogin, createdAt := u.role, u.emergencyContact, u.fcmTokens, u.lastLogin, u.createdAt;
    }
  }

  /** Whether saving a user with this `name` passes the schema (`trim`, `required`,
      `maxlength: 100` measured in JavaScript `length`). */
  predicate UserNameSaves(name: string) {
    Trim(name) != [] && JsLength(Trim(name)) <= 100
  }

  /** `new User({ name, phone, firebaseUid, isVerified: true }).save()` at time `now`:
      the new document, or None when validation throws. */
  function NewUser(name: string, phone: string, firebaseUid: Option<string>, now: Time): (u: Option<UserRecord>)
    ensures u.Some? <==> UserNameSaves(name) && phone != []
    ensures u.Some? ==> && u.value.name == Trim(name) && u.value.phone == phone
                        && u.value.firebaseUid == firebaseUid && u.value.isVerified && u.value.isActive
                        && u.value.role == UserRole && u.value.emergencyContact.None? && u.value.fcmTokens == []
  {
    if UserNameSaves(name) && phone != [] then
      Some(UserRecord(Trim(name), phone, firebaseUid, true, true, UserRole, None, [], None, now))
    else None
  }

  /** The actions a handler writes into a scan log. `EmergencyContactRequest` is
      written by the emergency-contact handler but is not in the schema's enum. */
  datatype ScanAction = View | Call | Alert | EmergencyContactRequest

  /** The `action` enum of the scan-log schema. */
  predicate ScanLogAllows(a: ScanAction) {
    a == View || a == Call || a == Alert
  }

  /** What a handler passes to `ScanLog.create`. `lookupSource` is not a schema
      path, so the strict schema drops it. */
  datatype ScanLogInput = ScanLogInput(
    qrCodeId: string,
    vehicle: Id,
    action: ScanAction,
    alertMessage: Option<string>,
    lookupSource: Option<string>)

  /** A document of the scan-log collection. */
  datatype ScanLogRecord = ScanLogRecord(
    qrCodeId: string,
    vehicle: Id,
    action: ScanAction,
    alertMessage: Option<string>,
    createdAt: Time)

  const ALERT_MESSAGE_MAX := 500

  /** `ScanLog.create(input)` at time `now`: None when the schema validation throws
      (an action outside the enum, an alert message over 500 JavaScript characters). */
  function CreateScanLog(input: ScanLogInput, now: Time): (r: Option<ScanLogRecord>)
    ensures r.Some? <==> ScanLogAllows(input.action)
                         && (input.alertMessage.None? || JsLength(input.alertMessage.value) <= ALERT_MESSAGE_MAX)
    ensures r.Some? ==> r.value == ScanLogRecord(input.qrCodeId, input.vehicle, input.action, input.alertMessage, now)
  {
    if !ScanLogAllows(input.action) then None
    else if input.alertMessage.Some? && JsLength(input.alertMessage.value) > ALERT_MESSAGE_MAX then None
    else Some(ScanLogRecord(input.qrCodeId, input.vehicle, input.action, input.alertMessage, now))
  }

  /** The emergency-contact request can never be logged. */
  lemma EmergencyRequestNotLoggable(input: ScanLogInput, now: Time)
    requires input.action == EmergencyContactRequest
    ensures CreateScanLog(input, now).None?
  {
  }

  /** `ScanLog.create` with the action enum the emergency-contact handler needs:
      every action the handlers write is accepted. */
  function CreateScanLogCorrected(input: ScanLogInput, now: Time): (r: Option<ScanLogRecord>)
    ensures r.Some? <==> input.alertMessage.None? || JsLength(input.alertMessage.value) <= ALERT_MESSAGE_MAX
    ensures ScanLogAllows(input.action) ==> r == CreateScanLog(input, now)
  {
    if input.alertMessage.Some? && JsLength(input.alertMessage.value) > ALERT_MESSAGE_MAX then None
    else Some(ScanLogRecord(input.qrCodeId, input.vehicle, input.action, input.alertMessage, now))
  }

  datatype NotificationType = ScanNote | CallNote | AlertNote

  /** A document of the notification collection; `isRead` starts false. */
  datatype NotificationRecord = NotificationRecord(
    user: Id,
    notificationType: NotificationType,
    title: string,
    message: string,
    vehicleNumber: string,
    qrCodeId: string,
    isRead: bool,
    createdAt: Time)

  function NewNotification(user: Id, t: NotificationType, title: string, message: string,
                           vehicleNumber: string, qrCodeId: string, now: Time): (n: NotificationRecord)
    ensures !n.isRead && n.user == user && n.notificationType == t && n.message == message
  {
    NotificationRecord(user, t, title, message, vehicleNumber, qrCodeId, false, now)
  }

  /** A `sendPush(user, { title, body, data })` call a handler makes without waiting
      for it; `data` holds the values already converted with `String(v)`. */
  datatype PushRequest = PushRequest(user: Id, title: string, body: string, data: seq<(string, string)>)
}
