/** The public scan routes: look a vehicle up by plate or by QR code, call its
    owner, alert its owner, and request the owner's emergency contact. Every
    lookup is `findOne({ ..., isActive: true })`, the first matching active
    vehicle. */
module ScanRoutes {
  import opened Base
  import opened Validators
  import opened Http
  import opened Vehicles
  import opened Subscriptions
  import opened Records
  import opened Store
  import opened Masking

  const LOOKUP_NOT_FOUND := "Vehicle not found or not registered"
  const SCAN_NOT_FOUND := "Vehicle not found or QR code not activated"
  const LOOKUP_FAILED := "Failed to process lookup"
  const SCAN_FAILED := "Failed to process scan"
  const VEHICLE_NOT_FOUND := "Vehicle not found"
  const CALLS_DISABLED := "Direct calls are not enabled yet"
  const CALL_UNAVAILABLE := "Call not available for this vehicle"
  const CALL_FAILED := "Failed to initiate call"
  const ALERT_TYPE_MESSAGE := "Invalid alert type"
  const ALERT_TYPES: seq<string> := ["parked_wrong", "lights_on", "emergency", "other"]
  const ALERT_SENT := "Alert sent to vehicle owner"
  const ALERT_FAILED := "Failed to send alert"
  const NO_EMERGENCY_CONTACT := "No emergency contact set for this vehicle"
  const EMERGENCY_FAILED := "Failed to get emergency contact"
  const DEFAULT_OWNER_NAME := "Vehicle Owner"
  const DEFAULT_ALERT := "Someone wants to contact you about your vehicle"
  const EMERGENCY_TITLE := "Emergency Contact Requested"

  /** `Subscription.findOne({ user })`. */
  function SubscriptionOf(d: Data, user: Id): (s: Option<SubscriptionRecord>)
    ensures s.Some? <==> user in d.subscriptions
  {
    if user in d.subscriptions then Some(d.subscriptions[user]) else None
  }

  /** The premium test the scan and call handlers spell out inline. */
  predicate HasPremium(s: Option<SubscriptionRecord>, now: Time) {
    s.Some? && s.value.plan == Premium && s.value.status == Active && EndsAfter(s.value, now)
  }

  /** The paid-plan test that gates the scan notifications, spelled out inline. */
  predicate PaidActive(s: Option<SubscriptionRecord>, now: Time) {
    s.Some? && s.value.plan != Free && s.value.status == Active && EndsAfter(s.value, now)
  }

  /** The inline tests agree with the model's own entitlement methods. */
  lemma InlineTestsAgree(s: Option<SubscriptionRecord>, now: Time)
    ensures HasPremium(s, now) <==> s.Some? && HasCallAccess(s.value, now)
    ensures PaidActive(s, now) <==> s.Some? && IsActive(s.value, now)
    ensures PaidActive(s, now) <==> s.Some? && HasNotificationAccess(s.value, now)
  {
  }

  /** The body of a successful view. */
  datatype ScanView = ScanView(
    vehicleNumber: string,
    vehicleType: string,
    vehicleColor: Option<string>,
    ownerName: string,
    qrCodeId: string,
    canCall: bool,
    callsEnabled: bool,
    canAlert: bool,
    hasEmergencyContact: bool)

  /** The two view routes share their steps and differ in their texts. */
  datatype ViewKind = NumberLookup | QrScan

  function ViewTitle(k: ViewKind): string {
    if k == NumberLookup then "Vehicle Number Lookup" else "QR Code Scanned"
  }

  function ViewMessage(k: ViewKind, vehicleNumber: string): string {
    (if k == NumberLookup then "Someone looked up your vehicle " else "Someone scanned your vehicle ") + vehicleNumber
  }

  function ViewFailed(k: ViewKind): string {
    if k == NumberLookup then LOOKUP_FAILED else SCAN_FAILED
  }

  /** The owner notification and the push request a handler issues together. */
  function Notify(d: Data, user: Id, t: NotificationType, title: string, message: string, pushTitle: string,
                  pushType: string, v: VehicleRecord, now: Time): (d2: Data)
    ensures d2 == d.(notifications := d2.notifications, pushes := d2.pushes)
    ensures d2.notifications == d.notifications + [NewNotification(user, t, title, message, v.vehicleNumber, v.qrCodeId, now)]
    ensures |d2.pushes| == |d.pushes| + 1 && d2.pushes[..|d.pushes|] == d.pushes
    ensures d2.pushes[|d.pushes|].user == user && d2.pushes[|d.pushes|].title == pushTitle
  {
    d.(notifications := d.notifications + [NewNotification(user, t, title, message, v.vehicleNumber, v.qrCodeId, now)],
       pushes := d.pushes + [PushRequest(user, pushTitle, message, [("type", pushType), ("vehicleNumber", v.vehicleNumber)])])
  }

  /** The view handlers once the active vehicle `id` is found: log the view, count
      the scan, then (the owner's document must exist) notify a paying owner and
      reply without the owner's phone. The log of a number lookup carries a
      `lookupSource` the schema drops. */
  function ViewFound(d: Data, f: Features, k: ViewKind, id: Id, now: Time): (o: Outcome<ScanView>)
    requires id < |d.vehicles|
    ensures o.reply.Ok? || o.reply == Fail(500, ViewFailed(k))
  {
    var v := d.vehicles[id];
    var log := ScanLogRecord(v.qrCodeId, id, View, None, now);
    var d1 := d.(scanLogs := d.scanLogs + [log], vehicles := d.vehicles[id := AfterScan(v, now)]);
    if v.user >= |d.users| then Outcome(d1, Fail(500, ViewFailed(k)))
    else
      var s := SubscriptionOf(d, v.user);
      var owner := d.users[v.user];
      var message := ViewMessage(k, v.vehicleNumber);
      var d2 := if PaidActive(s, now) then Notify(d1, v.user, ScanNote, ViewTitle(k), message, ViewTitle(k), "scan", v, now) else d1;
      Outcome(d2, Ok(200, ScanView(v.vehicleNumber, VehicleTypeName(v.vehicleType), v.vehicleColor,
                                  if owner.name != [] then owner.name else DEFAULT_OWNER_NAME,
                                  v.qrCodeId, f.calls && HasPremium(s, now), f.calls, true,
                                  owner.emergencyContact.Some?)))
  }

  /** `GET /api/scan/vehicle/:vehicleNumber`: the parameter is trimmed and
      upper-cased by its validator, and upper-cased again by the handler. */
  function ViewByNumber(d: Data, f: Features, vehicleNumber: string, now: Time): (o: Outcome<ScanView>)
    ensures o.reply.Invalid? <==> PlateErrors(vehicleNumber) != []
    ensures o.reply.Fail? && o.reply.status == 404 ==> o.data == d
  {
    var errors := PlateErrors(vehicleNumber);
    if errors != [] then Outcome(d, Invalid(errors))
    else
      match FindActive(d.vehicles, ByNumber(ToUpper(SanitizePlate(vehicleNumber))))
      case None => Outcome(d, Fail(404, LOOKUP_NOT_FOUND))
      case Some(id) => ViewFound(d, f, NumberLookup, id, now)
  }

  /** `GET /api/scan/:qrId`: the parameter is trimmed by its validator. */
  function ViewByQr(d: Data, f: Features, qrId: string, now: Time): (o: Outcome<ScanView>)
    ensures o.reply.Invalid? <==> QrIdErrors(qrId) != []
    ensures o.reply.Fail? && o.reply.status == 404 ==> o.data == d
  {
    var errors := QrIdErrors(qrId);
    if errors != [] then Outcome(d, Invalid(errors))
    else
      match FindActive(d.vehicles, ByQr(Trim(qrId)))
      case None => Outcome(d, Fail(404, SCAN_NOT_FOUND))
      case Some(id) => ViewFound(d, f, QrScan, id, now)
  }

  /** The steps of the view handlers once the vehicle is found. */
  method ViewFoundVehicle(db: Db, f: Features, k: ViewKind, id: Id, now: Time) returns (reply: Reply<ScanView>)
    requires id < |db.vehicles|
    modifies db
    ensures Outcome(db.Snapshot(), reply) == ViewFound(old(db.Snapshot()), f, k, id, now)
  {
    var vehicle := new VehicleDocument.Load(db.vehicles[id]);
    db.scanLogs := db.scanLogs + [ScanLogRecord(vehicle.qrCodeId, id, View, None, now)];
    vehicle.RecordScan(now);
    db.vehicles := db.vehicles[id := vehicle.Record()];
    if vehicle.user >= |db.users| {
      return Fail(500, ViewFailed(k));
    }
    var subscription := SubscriptionOf(db.Snapshot(), vehicle.user);
    var owner := db.users[vehicle.user];
    if PaidActive(subscription, now) {
      var message := ViewMessage(k, vehicle.vehicleNumber);
      db.notifications := db.notifications + [NewNotification(vehicle.user, ScanNote, ViewTitle(k), message, vehicle.vehicleNumber, vehicle.qrCodeId, now)];
      db.pushes := db.pushes + [PushRequest(vehicle.user, ViewTitle(k), message, [("type", "scan"), ("vehicleNumber", vehicle.vehicleNumber)])];
    }
    var ownerName := if owner.name != [] then owner.name else DEFAULT_OWNER_NAME;
    reply := Ok(200, ScanView(vehicle.vehicleNumber, VehicleTypeName(vehicle.vehicleType), vehicle.vehicleColor, ownerName,
                              vehicle.qrCodeId, f.calls && HasPremium(subscription, now), f.calls, true,
                              owner.emergencyContact.Some?));
  }

  /** `GET /api/scan/:qrId` on the database. */
  method ScanQr(db: Db, f: Features, qrId: string, now: Time) returns (reply: Reply<ScanView>)
    modifies db
    ensures Outcome(db.Snapshot(), reply) == ViewByQr(old(db.Snapshot()), f, qrId, now)
  {
    var errors := QrIdErrors(qrId);
    if errors != [] {
      return Invalid(errors);
    }
    var found := FindActive(db.vehicles, ByQr(Trim(qrId)));
    if found.None? {
      return Fail(404, SCAN_NOT_FOUND);
    }
    reply := ViewFoundVehicle(db, f, QrScan, found.value, now);
  }

  /** `GET /api/scan/vehicle/:vehicleNumber` on the database. */
  method LookupNumber(db: Db, f: Features, vehicleNumber: string, now: Time) returns (reply: Reply<ScanView>)
    modifies db
    ensures Outcome(db.Snapshot(), reply) == ViewByNumber(old(db.Snapshot()), f, vehicleNumber, now)
  {
    var errors := PlateErrors(vehicleNumber);
    if errors != [] {
      return Invalid(errors);
    }
    var found := FindActive(db.vehicles, ByNumber(ToUpper(SanitizePlate(vehicleNumber))));
    if found.None? {
      return Fail(404, LOOKUP_NOT_FOUND);
    }
    reply := ViewFoundVehicle(db, f, NumberLookup, found.value, now);
  }

  /** What a view does, whichever way the vehicle was found: exactly one 'view' log
      for that vehicle, one more scan on it and nothing else changed on vehicles;
      the owner is notified (one notification, one push) exactly when their
      subscription `isActive()`; `canCall` exactly when calls are enabled and the
      owner `hasCallAccess()`. */
  lemma ViewEffects(d: Data, f: Features, k: ViewKind, id: Id, now: Time)
    requires id < |d.vehicles| && d.vehicles[id].user < |d.users|
    ensures var o := ViewFound(d, f, k, id, now); var v := d.vehicles[id]; var s := SubscriptionOf(d, v.user);
      && o.reply.Ok?
      && o.data.scanLogs == d.scanLogs + [ScanLogRecord(v.qrCodeId, id, View, None, now)]
      && o.data.vehicles == d.vehicles[id := AfterScan(v, now)]
      && o.data.users == d.users && o.data.qrCodes == d.qrCodes && o.data.subscriptions == d.subscriptions
      && (|o.data.notifications| == |d.notifications| + 1 <==> s.Some? && IsActive(s.value, now))
      && (|o.data.pushes| == |d.pushes| + 1 <==> s.Some? && IsActive(s.value, now))
      && (o.reply.value.canCall <==> f.calls && s.Some? && HasCallAccess(s.value, now))
      && o.reply.value.vehicleNumber == v.vehicleNumber && o.reply.value.qrCodeId == v.qrCodeId
  {
    InlineTestsAgree(SubscriptionOf(d, d.vehicles[id].user), now);
  }

  /** A scan changes vehicle counters, logs and notifications only, so it keeps the
      database consistent. */
  lemma ViewKeepsValid(d: Data, f: Features, k: ViewKind, id: Id, now: Time)
    requires Valid(d) && id < |d.vehicles|
    ensures Valid(ViewFound(d, f, k, id, now).data)
  {
    var o := ViewFound(d, f, k, id, now);
    var vs := o.data.vehicles;
    assert vs == d.vehicles[id := AfterScan(d.vehicles[id], now)];
    assert o.data.users == d.users && o.data.qrCodes == d.qrCodes && o.data.subscriptions == d.subscriptions;
    forall i | 0 <= i < |vs| ensures VehicleFits(o.data, vs[i]) {
      assert VehicleFits(d, d.vehicles[i]);
    }
    assert ActivePlatesUnique(vs) by {
      forall i, j | 0 <= i < j < |vs| && vs[i].isActive && vs[j].isActive
        ensures vs[i].vehicleNumber != vs[j].vehicleNumber
      {
        assert d.vehicles[i].isActive && d.vehicles[j].isActive;
      }
    }
    assert QrCodeIdsUnique(vs) by {
      forall i, j | 0 <= i < j < |vs| ensures vs[i].qrCodeId != vs[j].qrCodeId {
        assert d.vehicles[i].qrCodeId != d.vehicles[j].qrCodeId;
      }
    }
  }

  /** In a consistent database a scan of an active code always answers 200. */
  lemma ScanOfActiveCodeSucceeds(d: Data, f: Features, qrId: string, now: Time)
    requires Valid(d) && QrIdErrors(qrId) == [] && FindActive(d.vehicles, ByQr(Trim(qrId))).Some?
    ensures ViewByQr(d, f, qrId, now).reply.Ok?
  {
    var id := FindActive(d.vehicles, ByQr(Trim(qrId))).value;
    assert VehicleFits(d, d.vehicles[id]);
    ViewEffects(d, f, QrScan, id, now);
  }

  /** The handler's second `toUpperCase()` changes nothing. */
  lemma {:induction false} UpperIdempotent(s: string)
    ensures ToUpper(ToUpper(s)) == ToUpper(s)
  {
    forall i | 0 <= i < |s| ensures ToUpper(ToUpper(s))[i] == ToUpper(s)[i] {
      assert ToUpper(s)[i] == UpperChar(s[i]);
    }
  }

  /** A vehicle registered under a plate is found by a number lookup written in
      any case and with any surrounding spaces that sanitize to the same plate. */
  lemma LookupFindsPlate(d: Data, f: Features, vehicleNumber: string, id: Id, now: Time)
    requires Valid(d) && PlateErrors(vehicleNumber) == []
    requires id < |d.vehicles| && d.vehicles[id].isActive && d.vehicles[id].vehicleNumber == SanitizePlate(vehicleNumber)
    ensures var o := ViewByNumber(d, f, vehicleNumber, now);
      o.reply.Ok? && o.reply.value.vehicleNumber == d.vehicles[id].vehicleNumber
  {
    UpperIdempotent(Trim(vehicleNumber));
    assert VehicleFits(d, d.vehicles[id]);
    ViewEffects(d, f, NumberLookup, id, now);
  }

  /** The body of a successful call request. */
  datatype CallReply = CallReply(phone: string, maskedPhone: string)

  /** `POST /api/scan/:qrId/call`: only for an owner with an active premium
      subscription, and only while calls are enabled. */
  function CallOwner(d: Data, f: Features, qrId: string, now: Time): (o: Outcome<CallReply>)
    ensures o.reply.Invalid? <==> QrIdErrors(qrId) != []
  {
    var errors := QrIdErrors(qrId);
    if errors != [] then Outcome(d, Invalid(errors))
    else if !f.calls then Outcome(d, Fail(503, CALLS_DISABLED))
    else CallActive(d, Trim(qrId), now)
  }

  /** The call handler once the code is valid and calls are enabled. */
  function CallActive(d: Data, qr: string, now: Time): (o: Outcome<CallReply>)
    ensures !o.reply.Invalid?
  {
    match FindActive(d.vehicles, ByQr(qr))
    case None => Outcome(d, Fail(404, VEHICLE_NOT_FOUND))
    case Some(id) =>
      var v := d.vehicles[id];
      if v.user >= |d.users| then Outcome(d, Fail(500, CALL_FAILED))
      else if !HasPremium(SubscriptionOf(d, v.user), now) then Outcome(d, Fail(403, CALL_UNAVAILABLE))
      else
        var d1 := d.(scanLogs := d.scanLogs + [ScanLogRecord(qr, id, Call, None, now)]);
        var d2 := d1.(notifications := d1.notifications + [NewNotification(v.user, CallNote, "Call Initiated",
                        "Someone is calling you about vehicle " + v.vehicleNumber, v.vehicleNumber, qr, now)],
                      pushes := d1.pushes + [PushRequest(v.user, "Incoming Call", "Someone is calling about vehicle " + v.vehicleNumber,
                        [("type", "call"), ("vehicleNumber", v.vehicleNumber)])]);
        var phone := d.users[v.user].phone;
        Outcome(d2, Ok(200, CallReply("tel:+91" + phone, "+91" + Mask(phone))))
  }

  /** `POST /api/scan/:qrId/call` on the database. */
  method InitiateCall(db: Db, f: Features, qrId: string, now: Time) returns (reply: Reply<CallReply>)
    modifies db
    ensures Outcome(db.Snapshot(), reply) == CallOwner(old(db.Snapshot()), f, qrId, now)
  {
    var errors := QrIdErrors(qrId);
    if errors != [] {
      return Invalid(errors);
    }
    if !f.calls {
      return Fail(503, CALLS_DISABLED);
    }
    reply := CallActiveOn(db, Trim(qrId), now);
  }

  /** The call handler on the database once the code is valid and calls are
      enabled. */
  method CallActiveOn(db: Db, qr: string, now: Time) returns (reply: Reply<CallReply>)
    modifies db
    ensures Outcome(db.Snapshot(), reply) == CallActive(old(db.Snapshot()), qr, now)
  {
    var found := FindActive(db.vehicles, ByQr(qr));
    if found.None? {
      return Fail(404, VEHICLE_NOT_FOUND);
    }
    var v := db.vehicles[found.value];
    if v.user >= |db.users| {
      return Fail(500, CALL_FAILED);
    }
    if !HasPremium(SubscriptionOf(db.Snapshot(), v.user), now) {
      return Fail(403, CALL_UNAVAILABLE);
    }
    db.scanLogs := db.scanLogs + [ScanLogRecord(qr, found.value, Call, None, now)];
    db.notifications := db.notifications + [NewNotification(v.user, CallNote, "Call Initiated",
                          "Someone is calling you about vehicle " + v.vehicleNumber, v.vehicleNumber, qr, now)];
    db.pushes := db.pushes + [PushRequest(v.user, "Incoming Call", "Someone is calling about vehicle " + v.vehicleNumber,
                          [("type", "call"), ("vehicleNumber", v.vehicleNumber)])];
    var phone := db.users[v.user].phone;
    reply := Ok(200, CallReply("tel:+91" + phone, "+91" + Mask(phone)));
  }

  /** A call goes through exactly when calls are enabled, the code is valid and
      belongs to an active vehicle, and its owner has call access; a refused call
      changes nothing and answers 503, 404 or 403 by the first check it fails. A
      call logs one 'call', notifies the owner once, and answers with the owner's
      full number as a `tel:` link beside its mask. */
  lemma CallGate(d: Data, f: Features, qrId: string, now: Time)
    requires Valid(d)
    ensures var o := CallOwner(d, f, qrId, now);
      && (o.reply.Ok? <==> QrIdErrors(qrId) == [] && f.calls && FindActive(d.vehicles, ByQr(Trim(qrId))).Some?
                           && var v := d.vehicles[FindActive(d.vehicles, ByQr(Trim(qrId))).value];
                              var s := SubscriptionOf(d, v.user); s.Some? && HasCallAccess(s.value, now))
      && (!o.reply.Ok? ==> o.data == d)
      && (QrIdErrors(qrId) == [] && !f.calls ==> o.reply == Fail(503, CALLS_DISABLED))
      && (QrIdErrors(qrId) == [] && f.calls && FindActive(d.vehicles, ByQr(Trim(qrId))).None? ==>
            o.reply == Fail(404, VEHICLE_NOT_FOUND))
      && (QrIdErrors(qrId) == [] && f.calls && FindActive(d.vehicles, ByQr(Trim(qrId))).Some? && !o.reply.Ok? ==>
            o.reply == Fail(403, CALL_UNAVAILABLE))
      && (o.reply.Ok? ==> |o.data.scanLogs| == |d.scanLogs| + 1 && o.data.scanLogs[|d.scanLogs|].action == Call
                          && |o.data.notifications| == |d.notifications| + 1
                          && var u := d.users[d.vehicles[FindActive(d.vehicles, ByQr(Trim(qrId))).value].user];
                             o.reply.value == CallReply("tel:+91" + u.phone, "+91" + Mask(u.phone)))
  {
    var qr := Trim(qrId);
    var found := FindActive(d.vehicles, ByQr(qr));
    if QrIdErrors(qrId) == [] && f.calls && found.Some? {
      assert VehicleFits(d, d.vehicles[found.value]);
      InlineTestsAgree(SubscriptionOf(d, d.vehicles[found.value].user), now);
    }
  }

  /** The validation chains of the alert route: the code, the optional message, and
      the optional alert type. */
  function AlertErrors(qrId: string, message: Option<string>, alertType: Option<string>): seq<FieldError> {
    QrIdErrors(qrId)
    + AlertMessageErrors(message)
    + (if alertType.None? then [] else Check(IsIn(alertType.value, ALERT_TYPES), "alertType", ALERT_TYPE_MESSAGE))
  }

  /** The alert text for a validated alert type; an empty or absent message falls
      back to the default text. */
  function AlertText(alertType: string, message: Option<string>): (t: string)
    ensures t != []
    ensures alertType == "other" && message.Some? && message.value != [] ==> t == message.value
  {
    if alertType == "parked_wrong" then "Someone reported your vehicle is parked incorrectly"
    else if alertType == "lights_on" then "Someone noticed your vehicle lights are on"
    else if alertType == "emergency" then "Emergency alert for your vehicle"
    else if message.Some? && message.value != [] then message.value
    else DEFAULT_ALERT
  }

  /** The alert handler after validation reported `errors`. */
  function AlertWith(d: Data, errors: seq<FieldError>, qrId: string, message: Option<string>, alertType: Option<string>, now: Time): (o: Outcome<string>)
    ensures o.reply.Invalid? <==> errors != []
  {
    if errors != [] then Outcome(d, Invalid(errors))
    else AlertValidated(d, Trim(qrId), AlertText(if alertType.Some? then alertType.value else "other", SanitizeAlertMessage(message)), now)
  }

  /** The alert handler past validation, for the trimmed code `qr` and the alert
      text: a scan log with the text (whose `create` throws when the text is over
      the schema's limit), then a notification and a push for the owner, whatever
      their plan. */
  function AlertValidated(d: Data, qr: string, text: string, now: Time): (o: Outcome<string>)
    ensures !o.reply.Invalid?
    ensures o.reply.Ok? ==> o.reply == Ok(200, ALERT_SENT)
  {
    match FindActive(d.vehicles, ByQr(qr))
    case None => Outcome(d, Fail(404, VEHICLE_NOT_FOUND))
    case Some(id) =>
      var v := d.vehicles[id];
      match CreateScanLog(ScanLogInput(qr, id, Alert, Some(text), None), now)
      case None => Outcome(d, Fail(500, ALERT_FAILED))
      case Some(log) =>
        var d1 := d.(scanLogs := d.scanLogs + [log]);
        if v.user >= |d.users| then Outcome(d1, Fail(500, ALERT_FAILED))
        else
          var d2 := d1.(notifications := d1.notifications + [NewNotification(v.user, AlertNote, "Vehicle Alert", text, v.vehicleNumber, qr, now)],
                        pushes := d1.pushes + [PushRequest(v.user, "Vehicle Alert", text, [("type", "alert"), ("vehicleNumber", v.vehicleNumber)])]);
          Outcome(d2, Ok(200, ALERT_SENT))
  }

  /** `POST /api/scan/:qrId/alert`, as written. */
  function SendAlert(d: Data, qrId: string, message: Option<string>, alertType: Option<string>, now: Time): (o: Outcome<string>)
    ensures o.reply.Invalid? <==> AlertErrors(qrId, message, alertType) != []
  {
    AlertWith(d, AlertErrors(qrId, message, alertType), qrId, message, alertType, now)
  }

  /** `POST /api/scan/:qrId/alert` on the database. */
  method AlertOwner(db: Db, qrId: string, message: Option<string>, alertType: Option<string>, now: Time) returns (reply: Reply<string>)
    modifies db
    ensures Outcome(db.Snapshot(), reply) == SendAlert(old(db.Snapshot()), qrId, message, alertType, now)
  {
    var errors := AlertErrors(qrId, message, alertType);
    if errors != [] {
      return Invalid(errors);
    }
    var text := AlertText(if alertType.Some? then alertType.value else "other", SanitizeAlertMessage(message));
    reply := DeliverAlert(db, Trim(qrId), text, now);
  }

  /** The steps of the alert handler past validation. */
  method DeliverAlert(db: Db, qr: string, text: string, now: Time) returns (reply: Reply<string>)
    modifies db
    ensures Outcome(db.Snapshot(), reply) == AlertValidated(old(db.Snapshot()), qr, text, now)
  {
    var found := FindActive(db.vehicles, ByQr(qr));
    if found.None? {
      return Fail(404, VEHICLE_NOT_FOUND);
    }
    var v := db.vehicles[found.value];
    var log := CreateScanLog(ScanLogInput(qr, found.value, Alert, Some(text), None), now);
    if log.None? {
      return Fail(500, ALERT_FAILED);
    }
    db.scanLogs := db.scanLogs + [log.value];
    if v.user >= |db.users| {
      return Fail(500, ALERT_FAILED);
    }
    db.notifications := db.notifications + [NewNotification(v.user, AlertNote, "Vehicle Alert", text, v.vehicleNumber, qr, now)];
    db.pushes := db.pushes + [PushRequest(v.user, "Vehicle Alert", text, [("type", "alert"), ("vehicleNumber", v.vehicleNumber)])];
    reply := Ok(200, ALERT_SENT);
  }

  /** An alert whose text fits the schema reaches the owner of the active vehicle,
      whatever their plan: one 'alert' log with the text, one notification with
      the text; a text over the limit fails with 500 and changes nothing. */
  lemma AlertDelivery(d: Data, qr: string, text: string, now: Time)
    requires Valid(d) && FindActive(d.vehicles, ByQr(qr)).Some?
    ensures var o := AlertValidated(d, qr, text, now); var v := d.vehicles[FindActive(d.vehicles, ByQr(qr)).value];
      && (JsLength(text) <= ALERT_MESSAGE_MAX ==>
            && o.reply == Ok(200, ALERT_SENT)
            && o.data.scanLogs == d.scanLogs + [ScanLogRecord(qr, FindActive(d.vehicles, ByQr(qr)).value, Alert, Some(text), now)]
            && |o.data.notifications| == |d.notifications| + 1
            && o.data.notifications[|d.notifications|] == NewNotification(v.user, AlertNote, "Vehicle Alert", text, v.vehicleNumber, qr, now))
      && (JsLength(text) > ALERT_MESSAGE_MAX ==> o == Outcome(d, Fail(500, ALERT_FAILED)))
  {
    assert VehicleFits(d, d.vehicles[FindActive(d.vehicles, ByQr(qr)).value]);
  }

  /** The alert-message chain with the limit the scan-log schema applies: at most
      500 in JavaScript `length`. */
  function AlertMessageErrorsCorrected(message: Option<string>): (errs: seq<FieldError>)
    ensures errs == [] <==> message.None? || JsLength(Trim(message.value)) <= ALERT_MESSAGE_MAX
  {
    if message.None? then []
    else Check(JsLength(Trim(message.value)) <= ALERT_MESSAGE_MAX, "message", ALERT_LENGTH_MESSAGE)
  }

  function AlertErrorsCorrected(qrId: string, message: Option<string>, alertType: Option<string>): seq<FieldError> {
    QrIdErrors(qrId)
    + AlertMessageErrorsCorrected(message)
    + (if alertType.None? then [] else Check(IsIn(alertType.value, ALERT_TYPES), "alertType", ALERT_TYPE_MESSAGE))
  }

  /** The alert route with the corrected message check. */
  function SendAlertCorrected(d: Data, qrId: string, message: Option<string>, alertType: Option<string>, now: Time): (o: Outcome<string>)
    ensures o.reply.Invalid? <==> AlertErrorsCorrected(qrId, message, alertType) != []
  {
    AlertWith(d, AlertErrorsCorrected(qrId, message, alertType), qrId, message, alertType, now)
  }

  /** Every alert text the corrected checks let through fits the scan-log schema. */
  lemma CorrectedAlertTextFits(alertType: string, message: Option<string>)
    requires message.None? || JsLength(Trim(message.value)) <= ALERT_MESSAGE_MAX
    ensures JsLength(AlertText(alertType, SanitizeAlertMessage(message))) <= ALERT_MESSAGE_MAX
  {
  }

  /** With the corrected check, an alert to an active vehicle in a consistent
      database always goes through, and notifies the owner whatever their plan. */
  lemma CorrectedAlertDelivered(d: Data, qrId: string, message: Option<string>, alertType: Option<string>, now: Time)
    requires Valid(d) && AlertErrorsCorrected(qrId, message, alertType) == []
    requires FindActive(d.vehicles, ByQr(Trim(qrId))).Some?
    ensures var o := SendAlertCorrected(d, qrId, message, alertType, now);
      && o.reply == Ok(200, ALERT_SENT)
      && |o.data.notifications| == |d.notifications| + 1
      && o.data.notifications[|d.notifications|].user == d.vehicles[FindActive(d.vehicles, ByQr(Trim(qrId))).value].user
  {
    var text := AlertText(if alertType.Some? then alertType.value else "other", SanitizeAlertMessage(message));
    assert AlertMessageErrorsCorrected(message) == [];
    CorrectedAlertTextFits(if alertType.Some? then alertType.value else "other", message);
    assert SendAlertCorrected(d, qrId, message, alertType, now) == AlertValidated(d, Trim(qrId), text, now);
    AlertDelivery(d, Trim(qrId), text, now);
  }

  /** A message of 300 copies of U+1F600: 300 long for `isLength`, 600 for the
      schema's `maxlength`. */
  function WideMessage(): string {
    Wide(300)
  }

  lemma WideMessageLengths()
    ensures JsLength(WideMessage()) == 600 && ValidatorLength(WideMessage()) == 300
    ensures Trim(WideMessage()) == WideMessage()
  {
    WideLengths(300);
    TrimNoSpace(WideMessage());
  }

  /** The flaw in the alert route: the message check passes a 300-emoji message,
      the scan-log schema refuses it, and the alert fails with 500 for any active
      vehicle, changing nothing; the corrected check refuses the message with 400
      instead. */
  lemma AlertOverflow(d: Data, qrId: string, now: Time)
    requires QrIdErrors(qrId) == [] && FindActive(d.vehicles, ByQr(Trim(qrId))).Some?
    ensures AlertErrors(qrId, Some(WideMessage()), None) == []
    ensures SendAlert(d, qrId, Some(WideMessage()), None, now) == Outcome(d, Fail(500, ALERT_FAILED))
    ensures SendAlertCorrected(d, qrId, Some(WideMessage()), None, now).reply.Invalid?
  {
    var m := WideMessage();
    WideMessageLengths();
    assert AlertMessageErrors(Some(m)) == [];
    assert AlertMessageErrorsCorrected(Some(m)) != [];
    assert AlertErrors(qrId, Some(m), None) == QrIdErrors(qrId) + [] + [];
    var text := AlertText("other", SanitizeAlertMessage(Some(m)));
    assert text == m;
    assert SendAlert(d, qrId, Some(m), None, now) == AlertValidated(d, Trim(qrId), text, now);
  }

  /** The body of a successful emergency-contact request. */
  datatype EmergencyReply = EmergencyReply(name: string, maskedPhone: string, phone: string)

  /** The steps after the scan log: notify the owner and answer with their contact. */
  function EmergencyAfterLog(d: Data, qr: string, id: Id, log: Option<ScanLogRecord>): (o: Outcome<EmergencyReply>)
    requires id < |d.vehicles| && d.vehicles[id].user < |d.users| && d.users[d.vehicles[id].user].emergencyContact.Some?
    ensures log.None? <==> o.reply == Fail(500, EMERGENCY_FAILED)
    ensures log.None? ==> o.data == d
  {
    match log
    case None => Outcome(d, Fail(500, EMERGENCY_FAILED))
    case Some(entry) =>
      var v := d.vehicles[id];
      var contact := d.users[v.user].emergencyContact.value;
      var message := "Someone requested emergency contact info for vehicle " + v.vehicleNumber;
      var d1 := d.(scanLogs := d.scanLogs + [entry]);
      var d2 := d1.(notifications := d1.notifications + [NewNotification(v.user, AlertNote, EMERGENCY_TITLE, message, v.vehicleNumber, qr, entry.createdAt)],
                    pushes := d1.pushes + [PushRequest(v.user, EMERGENCY_TITLE, message, [("type", "emergency"), ("vehicleNumber", v.vehicleNumber)])]);
      Outcome(d2, Ok(200, EmergencyReply(contact.name, "+91 " + Mask(contact.phone), "tel:+91" + contact.phone)))
  }

  /** The emergency-contact handler up to the scan log; `log` stands for the schema
      in use. */
  function EmergencyWith(d: Data, qrId: string, now: Time, corrected: bool): (o: Outcome<EmergencyReply>)
    ensures o.reply.Invalid? <==> QrIdErrors(qrId) != []
  {
    var errors := QrIdErrors(qrId);
    if errors != [] then Outcome(d, Invalid(errors))
    else
      var qr := Trim(qrId);
      match FindActive(d.vehicles, ByQr(qr))
      case None => Outcome(d, Fail(404, VEHICLE_NOT_FOUND))
      case Some(id) =>
        var v := d.vehicles[id];
        if v.user >= |d.users| || d.users[v.user].emergencyContact.None? then Outcome(d, Fail(404, NO_EMERGENCY_CONTACT))
        else
          var input := ScanLogInput(qr, id, EmergencyContactRequest, None, None);
          EmergencyAfterLog(d, qr, id, if corrected then CreateScanLogCorrected(input, now) else CreateScanLog(input, now))
  }

  /** `POST /api/scan/:qrId/emergency-contact`, as written. */
  function RequestEmergencyContact(d: Data, qrId: string, now: Time): (o: Outcome<EmergencyReply>)
    ensures o.reply.Invalid? <==> QrIdErrors(qrId) != []
  {
    EmergencyWith(d, qrId, now, false)
  }

  /** The route with a scan-log schema that accepts its action. */
  function RequestEmergencyContactCorrected(d: Data, qrId: string, now: Time): (o: Outcome<EmergencyReply>)
    ensures o.reply.Invalid? <==> QrIdErrors(qrId) != []
  {
    EmergencyWith(d, qrId, now, true)
  }

  /** `POST /api/scan/:qrId/emergency-contact` on the database, with the schema as
      written or corrected. */
  method EmergencyContact(db: Db, qrId: string, now: Time, corrected: bool) returns (reply: Reply<EmergencyReply>)
    modifies db
    ensures Outcome(db.Snapshot(), reply) == EmergencyWith(old(db.Snapshot()), qrId, now, corrected)
  {
    var errors := QrIdErrors(qrId);
    if errors != [] {
      return Invalid(errors);
    }
    var qr := Trim(qrId);
    var found := FindActive(db.vehicles, ByQr(qr));
    if found.None? {
      return Fail(404, VEHICLE_NOT_FOUND);
    }
    var v := db.vehicles[found.value];
    if v.user >= |db.users| || db.users[v.user].emergencyContact.None? {
      return Fail(404, NO_EMERGENCY_CONTACT);
    }
    var input := ScanLogInput(qr, found.value, EmergencyContactRequest, None, None);
    var log := if corrected then CreateScanLogCorrected(input, now) else CreateScanLog(input, now);
    assert EmergencyWith(db.Snapshot(), qrId, now, corrected) == EmergencyAfterLog(db.Snapshot(), qr, found.value, log);
    reply := EmergencyLogged(db, qr, found.value, log);
  }

  /** The emergency-contact handler from the scan log on. */
  method EmergencyLogged(db: Db, qr: string, id: Id, log: Option<ScanLogRecord>) returns (reply: Reply<EmergencyReply>)
    requires id < |db.vehicles| && db.vehicles[id].user < |db.users| && db.users[db.vehicles[id].user].emergencyContact.Some?
    modifies db
    ensures Outcome(db.Snapshot(), reply) == EmergencyAfterLog(old(db.Snapshot()), qr, id, log)
  {
    if log.None? {
      return Fail(500, EMERGENCY_FAILED);
    }
    var v := db.vehicles[id];
    var contact := db.users[v.user].emergencyContact.value;
    var message := "Someone requested emergency contact info for vehicle " + v.vehicleNumber;
    db.scanLogs := db.scanLogs + [log.value];
    db.notifications := db.notifications + [NewNotification(v.user, AlertNote, EMERGENCY_TITLE, message, v.vehicleNumber, qr, log.value.createdAt)];
    db.pushes := db.pushes + [PushRequest(v.user, EMERGENCY_TITLE, message, [("type", "emergency"), ("vehicleNumber", v.vehicleNumber)])];
    reply := Ok(200, EmergencyReply(contact.name, "+91 " + Mask(contact.phone), "tel:+91" + contact.phone));
  }

  /** The flaw in the emergency-contact route: its scan-log action is outside the
      schema's enum, so once the vehicle and the contact are found the request
      always fails with 500 and nothing is recorded or sent. */
  lemma EmergencyContactAlwaysFails(d: Data, qrId: string, now: Time)
    requires QrIdErrors(qrId) == [] && FindActive(d.vehicles, ByQr(Trim(qrId))).Some?
    requires var v := d.vehicles[FindActive(d.vehicles, ByQr(Trim(qrId))).value];
      v.user < |d.users| && d.users[v.user].emergencyContact.Some?
    ensures RequestEmergencyContact(d, qrId, now) == Outcome(d, Fail(500, EMERGENCY_FAILED))
  {
    var id := FindActive(d.vehicles, ByQr(Trim(qrId))).value;
    EmergencyRequestNotLoggable(ScanLogInput(Trim(qrId), id, EmergencyContactRequest, None, None), now);
  }

  /** With the corrected schema the same request answers with the contact's name,
      the masked phone and the dial link, logs the request and notifies the owner. */
  lemma EmergencyContactCorrectedServes(d: Data, qrId: string, now: Time)
    requires QrIdErrors(qrId) == [] && FindActive(d.vehicles, ByQr(Trim(qrId))).Some?
    requires var v := d.vehicles[FindActive(d.vehicles, ByQr(Trim(qrId))).value];
      v.user < |d.users| && d.users[v.user].emergencyContact.Some?
    ensures var o := RequestEmergencyContactCorrected(d, qrId, now);
      var v := d.vehicles[FindActive(d.vehicles, ByQr(Trim(qrId))).value];
      var c := d.users[v.user].emergencyContact.value;
      && o.reply == Ok(200, EmergencyReply(c.name, "+91 " + Mask(c.phone), "tel:+91" + c.phone))
      && |o.data.scanLogs| == |d.scanLogs| + 1 && o.data.scanLogs[|d.scanLogs|].action == EmergencyContactRequest
      && |o.data.notifications| == |d.notifications| + 1 && o.data.notifications[|d.notifications|].user == v.user
  {
    var qr := Trim(qrId);
    var id := FindActive(d.vehicles, ByQr(qr)).value;
    var input := ScanLogInput(qr, id, EmergencyContactRequest, None, None);
    var log := CreateScanLogCorrected(input, now);
    assert log == Some(ScanLogRecord(qr, id, EmergencyContactRequest, None, now));
    assert RequestEmergencyContactCorrected(d, qrId, now) == EmergencyAfterLog(d, qr, id, log);
  }
}
