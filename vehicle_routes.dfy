/** The vehicle routes: register (activate a QR code with its PIN and create the
    vehicle), list and read the caller's vehicles, update type and colour, and
    soft-delete (deactivate the vehicle and disable its QR code).

    Each handler that changes the database is a spec function from the database
    before to the database after and the reply, and a method on `Db` that takes
    the same steps as the handler and is proved to agree with it. */
module VehicleRoutes {
  import opened Base
  import opened Validators
  import opened Http
  import opened QrCodes
  import opened Vehicles
  import opened Store

  const QR_ID_REQUIRED := "QR code ID is required"
  const QR_UNAVAILABLE := "QR code not found or already activated"
  const PLATE_TAKEN := "Vehicle number already registered"
  const REGISTER_FAILED := "Failed to register vehicle"
  const VEHICLE_NOT_FOUND := "Vehicle not found"
  const DEACTIVATED := "Vehicle deactivated"

  /** The body of `POST /api/vehicle/register`; absent optional fields are None. */
  datatype RegisterRequest = RegisterRequest(
    vehicleNumber: string,
    qrId: string,
    activationPin: string,
    vehicleType: Option<string>,
    vehicleColor: Option<string>)

  /** The `vehicle` object of the 201 reply. */
  datatype RegisteredVehicle = RegisteredVehicle(
    id: Id, vehicleNumber: string, qrCodeId: string, vehicleType: VehicleType, isActive: bool)

  /** The validation chains of the register route, in order. */
  function RegisterErrors(req: RegisterRequest): seq<FieldError> {
    PlateErrors(req.vehicleNumber)
    + RequiredErrors(req.qrId, "qrId", QR_ID_REQUIRED, true)
    + PinErrors(req.activationPin)
    + VehicleTypeErrors(req.vehicleType)
  }

  /** `vehicleType || 'car'` on a validated type: None stands for the default. */
  function RequestedType(t: Option<string>): Option<VehicleType> {
    if t.Some? then ParseVehicleType(t.value) else None
  }

  /** Some vehicle, active or not, already carries the QR code. */
  predicate QrCodeInUse(vs: seq<VehicleRecord>, qrId: string) {
    exists i | 0 <= i < |vs| :: vs[i].qrCodeId == qrId
  }

  /** A register request after validation, with the sanitizers applied: the
      plate trimmed and upper-cased, the code and PIN trimmed, the type parsed. */
  datatype Registration = Registration(
    vehicleNumber: string,
    qrId: string,
    activationPin: string,
    vehicleType: Option<VehicleType>,
    vehicleColor: Option<string>)

  function Sanitized(req: RegisterRequest): (r: Registration)
    ensures PlateSetter(r.vehicleNumber) == r.vehicleNumber
  {
    PlateSetterKeepsSanitized(req.vehicleNumber);
    Registration(SanitizePlate(req.vehicleNumber), Trim(req.qrId), Trim(req.activationPin),
                 RequestedType(req.vehicleType), req.vehicleColor)
  }

  /** `POST /api/vehicle/register` by user `caller` at time `now`, as written. */
  function Register(d: Data, caller: Id, req: RegisterRequest, now: Time): (o: Outcome<RegisteredVehicle>)
    requires Keyed(d.qrCodes)
    ensures Keyed(o.data.qrCodes)
    ensures o.reply.Invalid? <==> RegisterErrors(req) != []
    ensures RegisterErrors(req) != [] ==> o.data == d
  {
    var errors := RegisterErrors(req);
    if errors != [] then Outcome(d, Invalid(errors))
    else RegisterValidated(d, caller, Sanitized(req), now)
  }

  /** The register handler past validation: the QR code is activated (and saved)
      before the duplicate-plate check; the unique index on `qrCodeId` makes the
      final save throw when a vehicle already carries the code. */
  function RegisterValidated(d: Data, caller: Id, r: Registration, now: Time): (o: Outcome<RegisteredVehicle>)
    requires Keyed(d.qrCodes)
    ensures Keyed(o.data.qrCodes) && !o.reply.Invalid?
    ensures o.reply.Ok? ==> o.reply.status == 201 && o.reply.value.isActive && o.reply.value.id == |d.vehicles|
  {
    match GetAvailable(d.qrCodes, r.qrId)
    case None => Outcome(d, Fail(400, QR_UNAVAILABLE))
    case Some(q) =>
      match ActivateRecord(q, caller, r.activationPin, now)
      case Rejected(e) => Outcome(d, Fail(400, e))
      case Done(activated) =>
        var d1 := d.(qrCodes := d.qrCodes[r.qrId := activated]);
        if FindActive(d.vehicles, ByNumber(r.vehicleNumber)).Some? then Outcome(d1, Fail(400, PLATE_TAKEN))
        else if QrCodeInUse(d.vehicles, r.qrId) then Outcome(d1, Fail(500, REGISTER_FAILED))
        else
          var v := NewVehicle(r.vehicleNumber, r.qrId, caller, r.vehicleType, r.vehicleColor, now);
          Outcome(d1.(vehicles := d.vehicles + [v]),
                  Ok(201, RegisteredVehicle(|d.vehicles|, v.vehicleNumber, r.qrId, v.vehicleType, true)))
  }

  /** Registration as evidently intended: the duplicate plate is rejected before
      the QR code is touched. */
  function RegisterCorrected(d: Data, caller: Id, req: RegisterRequest, now: Time): (o: Outcome<RegisteredVehicle>)
    requires Keyed(d.qrCodes)
    ensures o.reply.Invalid? <==> RegisterErrors(req) != []
  {
    var errors := RegisterErrors(req);
    if errors != [] then Outcome(d, Invalid(errors))
    else RegisterValidatedCorrected(d, caller, Sanitized(req), now)
  }

  function RegisterValidatedCorrected(d: Data, caller: Id, r: Registration, now: Time): (o: Outcome<RegisteredVehicle>)
    requires Keyed(d.qrCodes)
    ensures !o.reply.Invalid?
  {
    if FindActive(d.vehicles, ByNumber(r.vehicleNumber)).Some?
       && GetAvailable(d.qrCodes, r.qrId).Some?
       && GetAvailable(d.qrCodes, r.qrId).value.activationPin == r.activationPin
    then Outcome(d, Fail(400, PLATE_TAKEN))
    else RegisterValidated(d, caller, r, now)
  }

  /** The steps of the register handler on the database. */
  method RegisterVehicle(db: Db, caller: Id, req: RegisterRequest, now: Time) returns (reply: Reply<RegisteredVehicle>)
    requires Keyed(db.qrCodes)
    modifies db
    ensures Outcome(db.Snapshot(), reply) == Register(old(db.Snapshot()), caller, req, now)
  {
    var errors := RegisterErrors(req);
    if errors != [] {
      return Invalid(errors);
    }
    reply := RegisterSanitized(db, caller, Sanitized(req), now);
  }

  /** The steps of the register handler past validation. */
  method RegisterSanitized(db: Db, caller: Id, r: Registration, now: Time) returns (reply: Reply<RegisteredVehicle>)
    requires Keyed(db.qrCodes)
    modifies db
    ensures Outcome(db.Snapshot(), reply) == RegisterValidated(old(db.Snapshot()), caller, r, now)
  {
    var found := GetAvailable(db.qrCodes, r.qrId);
    if found.None? {
      return Fail(400, QR_UNAVAILABLE);
    }
    var qrCode := new QrCodeDocument.Load(found.value);
    var error := qrCode.Activate(caller, r.activationPin, now);
    if error.Some? {
      return Fail(400, error.value);
    }
    var before := db.vehicles;
    db.qrCodes := db.qrCodes[r.qrId := qrCode.Record()];
    if FindActive(db.vehicles, ByNumber(r.vehicleNumber)).Some? {
      return Fail(400, PLATE_TAKEN);
    }
    if QrCodeInUse(db.vehicles, r.qrId) {
      return Fail(500, REGISTER_FAILED);
    }
    var vehicle := NewVehicle(r.vehicleNumber, r.qrId, caller, r.vehicleType, r.vehicleColor, now);
    db.vehicles := db.vehicles + [vehicle];
    reply := Ok(201, RegisteredVehicle(|before|, vehicle.vehicleNumber, r.qrId, vehicle.vehicleType, true));
  }

  /** No vehicle refers to an available QR code. */
  lemma AvailableCodeUnused(d: Data, qrId: string)
    requires Valid(d) && qrId in d.qrCodes && d.qrCodes[qrId].status == Available
    ensures !QrCodeInUse(d.vehicles, qrId)
  {
    forall i | 0 <= i < |d.vehicles| ensures d.vehicles[i].qrCodeId != qrId {
      assert VehicleFits(d, d.vehicles[i]);
    }
  }

  /** Replacing an available code by its activated document keeps the database
      consistent: no vehicle refers to the code yet. */
  lemma ActivatedCodeKeepsValid(d: Data, qrId: string, a: QrCodeRecord)
    requires Valid(d) && qrId in d.qrCodes && d.qrCodes[qrId].status == Available && a.qrId == qrId
    ensures Valid(d.(qrCodes := d.qrCodes[qrId := a]))
  {
    var d1 := d.(qrCodes := d.qrCodes[qrId := a]);
    forall i | 0 <= i < |d.vehicles| ensures VehicleFits(d1, d.vehicles[i]) {
      assert VehicleFits(d, d.vehicles[i]);
      assert d.vehicles[i].qrCodeId != qrId;
    }
  }

  /** Appending an active vehicle that fits, on an unused code and with a plate no
      active vehicle carries, keeps the database consistent. */
  lemma AppendVehicleKeepsValid(d: Data, v: VehicleRecord)
    requires Valid(d) && v.isActive && VehicleFits(d, v) && !QrCodeInUse(d.vehicles, v.qrCodeId)
    requires FindActive(d.vehicles, ByNumber(v.vehicleNumber)).None?
    ensures Valid(d.(vehicles := d.vehicles + [v]))
  {
    var d2 := d.(vehicles := d.vehicles + [v]);
    var vs := d2.vehicles;
    forall i | 0 <= i < |vs| ensures VehicleFits(d2, vs[i]) {
      if i < |d.vehicles| {
        assert vs[i] == d.vehicles[i];
        assert VehicleFits(d, d.vehicles[i]);
      }
    }
    assert ActivePlatesUnique(vs) by {
      forall i, j | 0 <= i < j < |vs| && vs[i].isActive && vs[j].isActive
        ensures vs[i].vehicleNumber != vs[j].vehicleNumber
      {
        assert vs[i] == d.vehicles[i];
        if j == |d.vehicles| {
          assert !(d.vehicles[i].isActive && Matches(d.vehicles[i], ByNumber(v.vehicleNumber)));
        } else {
          assert vs[j] == d.vehicles[j];
        }
      }
    }
    assert QrCodeIdsUnique(vs) by {
      forall i, j | 0 <= i < j < |vs| ensures vs[i].qrCodeId != vs[j].qrCodeId {
        assert vs[i] == d.vehicles[i];
        if j < |d.vehicles| {
          assert vs[j] == d.vehicles[j];
        }
      }
    }
  }

  /** Registration past validation keeps the database consistent, and its final
      save never hits the unique index of `qrCodeId`. */
  lemma RegisterValidatedKeepsValid(d: Data, caller: Id, r: Registration, now: Time)
    requires Valid(d) && caller < |d.users| && PlateSetter(r.vehicleNumber) == r.vehicleNumber
    ensures Valid(RegisterValidated(d, caller, r, now).data)
    ensures RegisterValidated(d, caller, r, now).reply != Fail(500, REGISTER_FAILED)
  {
    var code := GetAvailable(d.qrCodes, r.qrId);
    if code.None? || code.value.activationPin != r.activationPin {
      ValidatedEarlyRefusals(d, caller, r, now);
    } else {
      ActivationKeepsValid(d, caller, r, now);
    }
  }

  /** The same, once the code was available and the PIN right. */
  lemma ActivationKeepsValid(d: Data, caller: Id, r: Registration, now: Time)
    requires Valid(d) && caller < |d.users| && PlateSetter(r.vehicleNumber) == r.vehicleNumber
    requires GetAvailable(d.qrCodes, r.qrId).Some?
    requires GetAvailable(d.qrCodes, r.qrId).value.activationPin == r.activationPin
    ensures Valid(RegisterValidated(d, caller, r, now).data)
    ensures RegisterValidated(d, caller, r, now).reply != Fail(500, REGISTER_FAILED)
  {
    var q := GetAvailable(d.qrCodes, r.qrId).value;
    AvailableCodeUnused(d, r.qrId);
    var a := ActivateRecord(q, caller, r.activationPin, now);
    if a.Done? {
      var d1 := d.(qrCodes := d.qrCodes[r.qrId := a.code]);
      ActivatedCodeKeepsValid(d, r.qrId, a.code);
      if FindActive(d.vehicles, ByNumber(r.vehicleNumber)).Some? {
        assert RegisterValidated(d, caller, r, now) == Outcome(d1, Fail(400, PLATE_TAKEN));
      } else {
        var v := NewVehicle(r.vehicleNumber, r.qrId, caller, r.vehicleType, r.vehicleColor, now);
        AppendVehicleKeepsValid(d1, v);
        assert RegisterValidated(d, caller, r, now) == Outcome(d1.(vehicles := d.vehicles + [v]), Ok(201, RegisteredVehicle(|d.vehicles|, v.vehicleNumber, r.qrId, v.vehicleType, true)));
      }
    }
  }

  /** Registration keeps the database consistent, and never answers 500. */
  lemma RegisterKeepsValid(d: Data, caller: Id, req: RegisterRequest, now: Time)
    requires Valid(d) && caller < |d.users|
    ensures Valid(Register(d, caller, req, now).data)
    ensures Register(d, caller, req, now).reply != Fail(500, REGISTER_FAILED)
  {
    if RegisterErrors(req) == [] {
      RegisterValidatedKeepsValid(d, caller, Sanitized(req), now);
    }
  }

  /** The ordering flaw: with an available code, the right PIN and a plate that an
      active vehicle already carries, the request is refused, yet the code stays
      'activated' with no vehicle on it, so it can never be registered again. */
  lemma RegisterBurnsCode(d: Data, caller: Id, req: RegisterRequest, now: Time)
    requires Valid(d) && RegisterErrors(req) == []
    requires var r := Sanitized(req);
      && GetAvailable(d.qrCodes, r.qrId).Some?
      && GetAvailable(d.qrCodes, r.qrId).value.activationPin == r.activationPin
      && FindActive(d.vehicles, ByNumber(r.vehicleNumber)).Some?
    ensures var r := Sanitized(req);
      var o := Register(d, caller, req, now);
      && o.reply == Fail(400, PLATE_TAKEN)
      && r.qrId in o.data.qrCodes && o.data.qrCodes[r.qrId].status == Activated
      && !QrCodeInUse(o.data.vehicles, r.qrId)
      && GetAvailable(o.data.qrCodes, r.qrId).None?
  {
    ValidatedBurnsCode(d, caller, Sanitized(req), now);
    PastValidation(d, caller, req, now);
  }

  lemma PastValidation(d: Data, caller: Id, req: RegisterRequest, now: Time)
    requires Keyed(d.qrCodes) && RegisterErrors(req) == []
    ensures Register(d, caller, req, now) == RegisterValidated(d, caller, Sanitized(req), now)
  {
  }

  lemma ValidatedBurnsCode(d: Data, caller: Id, r: Registration, now: Time)
    requires Valid(d)
    requires GetAvailable(d.qrCodes, r.qrId).Some?
    requires GetAvailable(d.qrCodes, r.qrId).value.activationPin == r.activationPin
    requires FindActive(d.vehicles, ByNumber(r.vehicleNumber)).Some?
    ensures var o := RegisterValidated(d, caller, r, now);
      && o.reply == Fail(400, PLATE_TAKEN)
      && r.qrId in o.data.qrCodes && o.data.qrCodes[r.qrId].status == Activated
      && !QrCodeInUse(o.data.vehicles, r.qrId)
      && GetAvailable(o.data.qrCodes, r.qrId).None?
  {
    AvailableCodeUnused(d, r.qrId);
    var q := GetAvailable(d.qrCodes, r.qrId).value;
    var activated := q.(status := Activated, activatedAt := Some(now), activatedBy := Some(caller));
    assert ActivateRecord(q, caller, r.activationPin, now) == Done(activated);
    var d1 := d.(qrCodes := d.qrCodes[r.qrId := activated]);
    assert RegisterValidated(d, caller, r, now) == Outcome(d1, Fail(400, PLATE_TAKEN));
  }

  /** After the flaw, every later registration with that code is refused as
      unavailable, whoever tries. */
  lemma BurnedCodeRefused(d: Data, caller: Id, req: RegisterRequest, now: Time, caller2: Id, req2: RegisterRequest, now2: Time)
    requires Valid(d) && RegisterErrors(req) == []
    requires var r := Sanitized(req);
      && GetAvailable(d.qrCodes, r.qrId).Some?
      && GetAvailable(d.qrCodes, r.qrId).value.activationPin == r.activationPin
      && FindActive(d.vehicles, ByNumber(r.vehicleNumber)).Some?
    requires RegisterErrors(req2) == [] && Trim(req2.qrId) == Trim(req.qrId)
    ensures Register(Register(d, caller, req, now).data, caller2, req2, now2).reply == Fail(400, QR_UNAVAILABLE)
  {
    RegisterBurnsCode(d, caller, req, now);
    var d1 := Register(d, caller, req, now).data;
    PastValidation(d1, caller2, req2, now2);
  }

  /** A code that is not available is refused with 400 before anything is
      saved: the database is as it was. */
  lemma RegisterUnavailableRefused(d: Data, caller: Id, req: RegisterRequest, now: Time)
    requires Keyed(d.qrCodes) && RegisterErrors(req) == []
    requires GetAvailable(d.qrCodes, Trim(req.qrId)).None?
    ensures Register(d, caller, req, now) == Outcome(d, Fail(400, QR_UNAVAILABLE))
  {
    PastValidation(d, caller, req, now);
    ValidatedEarlyRefusals(d, caller, Sanitized(req), now);
  }

  /** An available code with the wrong PIN is refused with 400 before it is
      activated: the database is as it was. */
  lemma RegisterWrongPinRefused(d: Data, caller: Id, req: RegisterRequest, now: Time)
    requires Keyed(d.qrCodes) && RegisterErrors(req) == []
    requires GetAvailable(d.qrCodes, Trim(req.qrId)).Some?
    requires GetAvailable(d.qrCodes, Trim(req.qrId)).value.activationPin != Trim(req.activationPin)
    ensures Register(d, caller, req, now) == Outcome(d, Fail(400, INVALID_PIN))
  {
    PastValidation(d, caller, req, now);
    ValidatedEarlyRefusals(d, caller, Sanitized(req), now);
  }

  /** The two refusals of the handler past validation that come before the
      code is touched. */
  lemma ValidatedEarlyRefusals(d: Data, caller: Id, r: Registration, now: Time)
    requires Keyed(d.qrCodes)
    ensures var o := RegisterValidated(d, caller, r, now);
      && (GetAvailable(d.qrCodes, r.qrId).None? ==> o == Outcome(d, Fail(400, QR_UNAVAILABLE)))
      && (GetAvailable(d.qrCodes, r.qrId).Some? && GetAvailable(d.qrCodes, r.qrId).value.activationPin != r.activationPin ==>
            o == Outcome(d, Fail(400, INVALID_PIN)))
  {
    match GetAvailable(d.qrCodes, r.qrId)
    case None =>
    case Some(q) =>
      if q.activationPin != r.activationPin {
        assert ActivateRecord(q, caller, r.activationPin, now) == Rejected(INVALID_PIN);
      }
  }

  /** The corrected handler changes nothing unless it registers the vehicle. */
  lemma RegisterCorrectedRefusalChangesNothing(d: Data, caller: Id, req: RegisterRequest, now: Time)
    requires Valid(d)
    ensures !RegisterCorrected(d, caller, req, now).reply.Ok? ==> RegisterCorrected(d, caller, req, now).data == d
  {
    if RegisterErrors(req) == [] {
      var r := Sanitized(req);
      assert RegisterCorrected(d, caller, req, now) == RegisterValidatedCorrected(d, caller, r, now);
      ValidatedCorrectedRefusalChangesNothing(d, caller, r, now);
    }
  }

  /** Past validation, the corrected handler changes nothing unless it registers. */
  lemma ValidatedCorrectedRefusalChangesNothing(d: Data, caller: Id, r: Registration, now: Time)
    requires Valid(d)
    ensures var o := RegisterValidatedCorrected(d, caller, r, now);
      !o.reply.Ok? ==> o.data == d
  {
    var code := GetAvailable(d.qrCodes, r.qrId);
    if code.None? || code.value.activationPin != r.activationPin {
      ValidatedEarlyRefusals(d, caller, r, now);
    } else if FindActive(d.vehicles, ByNumber(r.vehicleNumber)).None? {
      RegisterValidatedSucceeds(d, caller, r, now);
    }
  }

  /** Both handlers register exactly the same requests, with the same result. */
  lemma RegisterCorrectedAgreesOnSuccess(d: Data, caller: Id, req: RegisterRequest, now: Time)
    requires Keyed(d.qrCodes)
    ensures Register(d, caller, req, now).reply.Ok? <==> RegisterCorrected(d, caller, req, now).reply.Ok?
    ensures Register(d, caller, req, now).reply.Ok? ==> RegisterCorrected(d, caller, req, now) == Register(d, caller, req, now)
  {
  }

  /** A validated type string names one of the enum values. */
  lemma RequestedTypeNamed(t: Option<string>)
    requires VehicleTypeErrors(t) == [] && t.Some?
    ensures RequestedType(t).Some? && VehicleTypeName(RequestedType(t).value) == t.value
  {
  }

  /** Past validation, an available code, its PIN and a free plate register the
      vehicle: active, on that code, owned by the caller, 'car' unless a type is
      given; the code becomes 'activated' by the caller. */
  lemma RegisterValidatedSucceeds(d: Data, caller: Id, r: Registration, now: Time)
    requires Valid(d)
    requires GetAvailable(d.qrCodes, r.qrId).Some?
    requires GetAvailable(d.qrCodes, r.qrId).value.activationPin == r.activationPin
    requires FindActive(d.vehicles, ByNumber(r.vehicleNumber)).None?
    ensures var o := RegisterValidated(d, caller, r, now);
      && o.reply.Ok? && o.reply.status == 201
      && |o.data.vehicles| == |d.vehicles| + 1 && o.data.vehicles[..|d.vehicles|] == d.vehicles
      && var v := o.data.vehicles[|d.vehicles|];
         && v.isActive && v.qrCodeId == r.qrId && v.user == caller && v.totalScans == 0
         && v.vehicleNumber == PlateSetter(r.vehicleNumber)
         && v.vehicleType == (if r.vehicleType.Some? then r.vehicleType.value else Car)
         && r.qrId in o.data.qrCodes && o.data.qrCodes[r.qrId].status == Activated
         && o.data.qrCodes[r.qrId].activatedBy == Some(caller)
  {
    AvailableCodeUnused(d, r.qrId);
  }

  /** A valid request with an available code, its PIN and a free plate registers
      the vehicle under its sanitized plate, with the type it names. */
  lemma RegisterSucceeds(d: Data, caller: Id, req: RegisterRequest, now: Time)
    requires Valid(d) && RegisterErrors(req) == []
    requires GetAvailable(d.qrCodes, Trim(req.qrId)).Some?
    requires GetAvailable(d.qrCodes, Trim(req.qrId)).value.activationPin == Trim(req.activationPin)
    requires FindActive(d.vehicles, ByNumber(SanitizePlate(req.vehicleNumber))).None?
    ensures var o := Register(d, caller, req, now);
      && o.reply.Ok? && |o.data.vehicles| == |d.vehicles| + 1
      && var v := o.data.vehicles[|d.vehicles|];
         && v.vehicleNumber == SanitizePlate(req.vehicleNumber) && v.qrCodeId == Trim(req.qrId)
         && (req.vehicleType.Some? ==> VehicleTypeName(v.vehicleType) == req.vehicleType.value)
  {
    var r := Sanitized(req);
    assert Register(d, caller, req, now) == RegisterValidated(d, caller, r, now);
    RegisterValidatedSucceeds(d, caller, r, now);
    if req.vehicleType.Some? {
      RequestedTypeNamed(req.vehicleType);
    }
  }

  /** A `GET /api/vehicle/my-vehicles` row. */
  datatype VehicleRow = VehicleRow(
    id: Id, vehicleNumber: string, qrCodeId: string, vehicleType: VehicleType,
    vehicleColor: Option<string>, totalScans: int, lastScannedAt: Option<Time>, createdAt: Time)

  /** The ids of the caller's active vehicles among `vs`, newest (largest id) first. */
  function MyVehicleIds(vs: seq<VehicleRecord>, caller: Id): (ids: seq<Id>)
    ensures forall k | 0 <= k < |ids| :: ids[k] < |vs| && vs[ids[k]].user == caller && vs[ids[k]].isActive
    ensures forall k, l | 0 <= k < l < |ids| :: ids[k] > ids[l]
    decreases |vs|
  {
    if vs == [] then []
    else
      var rest := MyVehicleIds(vs[..|vs| - 1], caller);
      var last := vs[|vs| - 1];
      if last.user == caller && last.isActive then [|vs| - 1] + rest else rest
  }

  /** Every active vehicle of the caller is listed. */
  lemma {:induction false} MyVehicleIdsComplete(vs: seq<VehicleRecord>, caller: Id, i: nat)
    requires i < |vs| && vs[i].user == caller && vs[i].isActive
    ensures i in MyVehicleIds(vs, caller)
    decreases |vs|
  {
    if i < |vs| - 1 {
      MyVehicleIdsComplete(vs[..|vs| - 1], caller, i);
    }
  }

  function Row(vs: seq<VehicleRecord>, id: Id): VehicleRow
    requires id < |vs|
  {
    var v := vs[id];
    VehicleRow(id, v.vehicleNumber, v.qrCodeId, v.vehicleType, v.vehicleColor, v.totalScans, v.lastScannedAt, v.createdAt)
  }

  /** `GET /api/vehicle/my-vehicles`: the caller's active vehicles, newest first. */
  function MyVehicles(d: Data, caller: Id): (rows: seq<VehicleRow>)
    ensures forall k | 0 <= k < |rows| :: rows[k].id < |d.vehicles| && d.vehicles[rows[k].id].user == caller && d.vehicles[rows[k].id].isActive
    ensures forall k, l | 0 <= k < l < |rows| :: rows[k].id > rows[l].id
  {
    var ids := MyVehicleIds(d.vehicles, caller);
    seq(|ids|, k requires 0 <= k < |ids| => Row(d.vehicles, ids[k]))
  }

  /** The body of `GET /api/vehicle/:id`. */
  datatype VehicleDetails = VehicleDetails(
    id: Id, vehicleNumber: string, qrCodeId: string, vehicleType: VehicleType, vehicleColor: Option<string>,
    isActive: bool, totalScans: int, lastScannedAt: Option<Time>, createdAt: Time)

  /** `GET /api/vehicle/:id`: the caller's vehicle, active or not; 404 otherwise. */
  function GetVehicle(d: Data, caller: Id, id: Id): (r: Reply<VehicleDetails>)
    ensures r.Ok? <==> id < |d.vehicles| && d.vehicles[id].user == caller
    ensures r.Fail? ==> r == Fail(404, VEHICLE_NOT_FOUND)
    ensures r.Ok? ==> r.value.id == id && r.value.isActive == d.vehicles[id].isActive
  {
    if id < |d.vehicles| && d.vehicles[id].user == caller then
      var v := d.vehicles[id];
      Ok(200, VehicleDetails(id, v.vehicleNumber, v.qrCodeId, v.vehicleType, v.vehicleColor,
                             v.isActive, v.totalScans, v.lastScannedAt, v.createdAt))
    else Fail(404, VEHICLE_NOT_FOUND)
  }

  /** The `vehicle` object of the update reply. */
  datatype UpdatedVehicle = UpdatedVehicle(id: Id, vehicleNumber: string, vehicleType: VehicleType, vehicleColor: Option<string>)

  /** The validation chains of the update route: the type, and an optional colour
      of at most 50 characters after trimming. */
  function UpdateErrors(vehicleType: Option<string>, vehicleColor: Option<string>): seq<FieldError> {
    VehicleTypeErrors(vehicleType)
    + (if vehicleColor.None? then [] else Check(IsLength(Trim(vehicleColor.value), None, Some(50)), "vehicleColor", DEFAULT_MESSAGE))
  }

  /** The document after the update: the type if one is given, the (trimmed) colour
      if one is given. */
  function Updated(v: VehicleRecord, vehicleType: Option<string>, vehicleColor: Option<string>): VehicleRecord {
    v.(vehicleType := if RequestedType(vehicleType).Some? then RequestedType(vehicleType).value else v.vehicleType,
       vehicleColor := if vehicleColor.Some? then Some(Trim(vehicleColor.value)) else v.vehicleColor)
  }

  /** `PUT /api/vehicle/:id`: the caller's vehicle is looked up without an
      `isActive` filter, so a deactivated vehicle can still be updated. */
  function Update(d: Data, caller: Id, id: Id, vehicleType: Option<string>, vehicleColor: Option<string>): (o: Outcome<UpdatedVehicle>)
    ensures o.reply.Invalid? <==> UpdateErrors(vehicleType, vehicleColor) != []
    ensures !o.reply.Ok? ==> o.data == d
  {
    var errors := UpdateErrors(vehicleType, vehicleColor);
    if errors != [] then Outcome(d, Invalid(errors))
    else if !(id < |d.vehicles| && d.vehicles[id].user == caller) then Outcome(d, Fail(404, VEHICLE_NOT_FOUND))
    else
      var v := Updated(d.vehicles[id], vehicleType, vehicleColor);
      Outcome(d.(vehicles := d.vehicles[id := v]), Ok(200, UpdatedVehicle(id, v.vehicleNumber, v.vehicleType, v.vehicleColor)))
  }

  /** The steps of the update handler. */
  method UpdateVehicle(db: Db, caller: Id, id: Id, vehicleType: Option<string>, vehicleColor: Option<string>)
    returns (reply: Reply<UpdatedVehicle>)
    modifies db
    ensures Outcome(db.Snapshot(), reply) == Update(old(db.Snapshot()), caller, id, vehicleType, vehicleColor)
  {
    var errors := UpdateErrors(vehicleType, vehicleColor);
    if errors != [] {
      return Invalid(errors);
    }
    if !(id < |db.vehicles| && db.vehicles[id].user == caller) {
      return Fail(404, VEHICLE_NOT_FOUND);
    }
    ghost var before := db.Snapshot();
    var vehicle := new VehicleDocument.Load(db.vehicles[id]);
    var t := RequestedType(vehicleType);
    vehicle.vehicleType := if t.Some? then t.value else vehicle.vehicleType;
    vehicle.vehicleColor := if vehicleColor.Some? then Some(Trim(vehicleColor.value)) else vehicle.vehicleColor;
    assert vehicle.Record() == Updated(before.vehicles[id], vehicleType, vehicleColor);
    db.vehicles := db.vehicles[id := vehicle.Record()];
    reply := Ok(200, UpdatedVehicle(id, vehicle.vehicleNumber, vehicle.vehicleType, vehicle.vehicleColor));
  }

  /** An update changes only the type and colour of that one vehicle. */
  lemma UpdateChangesOnlyTypeAndColor(d: Data, caller: Id, id: Id, vehicleType: Option<string>, vehicleColor: Option<string>)
    requires Update(d, caller, id, vehicleType, vehicleColor).reply.Ok?
    ensures var o := Update(d, caller, id, vehicleType, vehicleColor);
      && id < |d.vehicles| && d.vehicles[id].user == caller
      && o.data == d.(vehicles := o.data.vehicles) && |o.data.vehicles| == |d.vehicles|
      && (forall j | 0 <= j < |d.vehicles| && j != id :: o.data.vehicles[j] == d.vehicles[j])
      && o.data.vehicles[id] == d.vehicles[id].(vehicleType := o.data.vehicles[id].vehicleType,
                                                vehicleColor := o.data.vehicles[id].vehicleColor)
      && (vehicleType.None? ==> o.data.vehicles[id].vehicleType == d.vehicles[id].vehicleType)
      && (vehicleColor.None? ==> o.data.vehicles[id].vehicleColor == d.vehicles[id].vehicleColor)
  {
  }

  /** Update keeps the database consistent. */
  lemma UpdateKeepsValid(d: Data, caller: Id, id: Id, vehicleType: Option<string>, vehicleColor: Option<string>)
    requires Valid(d)
    ensures Valid(Update(d, caller, id, vehicleType, vehicleColor).data)
  {
    var o := Update(d, caller, id, vehicleType, vehicleColor);
    if o.reply.Ok? {
      var vs := o.data.vehicles;
      forall i | 0 <= i < |vs| ensures VehicleFits(o.data, vs[i]) {
        assert VehicleFits(d, d.vehicles[i]);
      }
      assert ActivePlatesUnique(vs) by {
        forall i, j | 0 <= i < j < |vs| && vs[i].isActive && vs[j].isActive
          ensures vs[i].vehicleNumber != vs[j].vehicleNumber
        {
          assert d.vehicles[i].isActive && d.vehicles[j].isActive;
        }
      }
      assert QrCodeIdsUnique(vs) by {
        forall i, j | 0 <= i < j < |vs| ensures vs[i].qrCodeId != vs[j].qrCodeId {
          assert d.vehicles[i].qrCodeId != d.vehicles[j].qrCodeId;
        }
      }
    }
  }

  /** `DELETE /api/vehicle/:id` at time `now`: the caller's active vehicle is
      deactivated, then its QR code is disabled. */
  function Delete(d: Data, caller: Id, id: Id, now: Time): (o: Outcome<string>)
    requires Keyed(d.qrCodes)
    ensures o.reply.Ok? <==> id < |d.vehicles| && d.vehicles[id].user == caller && d.vehicles[id].isActive
    ensures !o.reply.Ok? ==> o.reply == Fail(404, VEHICLE_NOT_FOUND) && o.data == d
    ensures o.reply.Ok? ==>
              && o.reply == Ok(200, DEACTIVATED)
              && o.data == d.(vehicles := d.vehicles[id := d.vehicles[id].(isActive := false, deactivatedAt := Some(now))],
                              qrCodes := DisableCode(d.qrCodes, d.vehicles[id].qrCodeId))
  {
    if !(id < |d.vehicles| && d.vehicles[id].user == caller && d.vehicles[id].isActive) then
      Outcome(d, Fail(404, VEHICLE_NOT_FOUND))
    else
      var v := d.vehicles[id];
      var deactivated := v.(isActive := false, deactivatedAt := Some(now));
      Outcome(d.(vehicles := d.vehicles[id := deactivated], qrCodes := DisableCode(d.qrCodes, v.qrCodeId)),
              Ok(200, DEACTIVATED))
  }

  /** The steps of the delete handler. */
  method DeleteVehicle(db: Db, caller: Id, id: Id, now: Time) returns (reply: Reply<string>)
    requires Keyed(db.qrCodes)
    modifies db
    ensures Outcome(db.Snapshot(), reply) == Delete(old(db.Snapshot()), caller, id, now)
  {
    if !(id < |db.vehicles| && db.vehicles[id].user == caller && db.vehicles[id].isActive) {
      return Fail(404, VEHICLE_NOT_FOUND);
    }
    var vehicle := new VehicleDocument.Load(db.vehicles[id]);
    vehicle.isActive := false;
    vehicle.deactivatedAt := Some(now);
    db.vehicles := db.vehicles[id := vehicle.Record()];
    db.qrCodes := DisableCode(db.qrCodes, vehicle.qrCodeId);
    reply := Ok(200, DEACTIVATED);
  }

  /** Delete keeps the database consistent. */
  lemma DeleteKeepsValid(d: Data, caller: Id, id: Id, now: Time)
    requires Valid(d)
    ensures Valid(Delete(d, caller, id, now).data)
  {
    var o := Delete(d, caller, id, now);
    if o.reply.Ok? {
      var vs := o.data.vehicles;
      var q := d.vehicles[id].qrCodeId;
      forall i | 0 <= i < |vs| ensures VehicleFits(o.data, vs[i]) {
        assert VehicleFits(d, d.vehicles[i]);
        if i != id {
          assert d.vehicles[i].qrCodeId != q by {
            if i < id { assert d.vehicles[i].qrCodeId != d.vehicles[id].qrCodeId; }
            else { assert d.vehicles[id].qrCodeId != d.vehicles[i].qrCodeId; }
          }
        }
      }
      assert ActivePlatesUnique(vs) by {
        forall i, j | 0 <= i < j < |vs| && vs[i].isActive && vs[j].isActive
          ensures vs[i].vehicleNumber != vs[j].vehicleNumber
        {
          assert d.vehicles[i].isActive && d.vehicles[j].isActive;
        }
      }
      assert QrCodeIdsUnique(vs) by {
        forall i, j | 0 <= i < j < |vs| ensures vs[i].qrCodeId != vs[j].qrCodeId {
          assert d.vehicles[i].qrCodeId != d.vehicles[j].qrCodeId;
        }
      }
    }
  }

  /** After a delete, the vehicle's QR code is 'disabled' and no active vehicle
      answers to its code or its plate; so the plate is free to register again. */
  lemma DeleteFreesPlateAndCode(d: Data, caller: Id, id: Id, now: Time)
    requires Valid(d) && Delete(d, caller, id, now).reply.Ok?
    ensures var o := Delete(d, caller, id, now);
      && o.data.qrCodes[d.vehicles[id].qrCodeId].status == Disabled
      && FindActive(o.data.vehicles, ByQr(d.vehicles[id].qrCodeId)).None?
      && FindActive(o.data.vehicles, ByNumber(d.vehicles[id].vehicleNumber)).None?
  {
    var o := Delete(d, caller, id, now);
    var vs := o.data.vehicles;
    assert VehicleFits(d, d.vehicles[id]);
    forall j | 0 <= j < |vs| && vs[j].isActive
      ensures vs[j].qrCodeId != d.vehicles[id].qrCodeId && vs[j].vehicleNumber != d.vehicles[id].vehicleNumber
    {
      assert j != id;
      if j < id {
        assert d.vehicles[j].qrCodeId != d.vehicles[id].qrCodeId;
      } else {
        assert d.vehicles[id].qrCodeId != d.vehicles[j].qrCodeId;
      }
    }
  }

  /** Re-registering a deleted vehicle's plate, with another available code and
      its PIN, succeeds: the duplicate check only looks at active vehicles. */
  lemma ReRegisterAfterDelete(d: Data, caller: Id, id: Id, now: Time, req: RegisterRequest, later: Time)
    requires Valid(d) && caller < |d.users| && Delete(d, caller, id, now).reply.Ok?
    requires RegisterErrors(req) == [] && SanitizePlate(req.vehicleNumber) == d.vehicles[id].vehicleNumber
    requires var codes := Delete(d, caller, id, now).data.qrCodes;
      GetAvailable(codes, Trim(req.qrId)).Some? && GetAvailable(codes, Trim(req.qrId)).value.activationPin == Trim(req.activationPin)
    ensures Register(Delete(d, caller, id, now).data, caller, req, later).reply.Ok?
  {
    DeleteKeepsValid(d, caller, id, now);
    DeleteFreesPlateAndCode(d, caller, id, now);
    RegisterSucceeds(Delete(d, caller, id, now).data, caller, req, later);
  }
}
