/** Vehicles (the `Vehicle` model): field defaults, the `uppercase`/`trim` setters of
    the plate, and `recordScan`. */
module Vehicles {
  import opened Base
  import Validators

  datatype VehicleType = Car | Bike | Truck | Auto | Other

  /** The enum of `vehicleType`, as the strings the API exchanges. */
  function VehicleTypeName(t: VehicleType): (s: string)
    ensures s in Validators.VEHICLE_TYPES
  {
    match t
    case Car => "car"
    case Bike => "bike"
    case Truck => "truck"
    case Auto => "auto"
    case Other => "other"
  }

  /** The enum value a validated `vehicleType` string names. */
  function ParseVehicleType(s: string): (t: Option<VehicleType>)
    ensures t.Some? <==> s in Validators.VEHICLE_TYPES
    ensures t.Some? ==> VehicleTypeName(t.value) == s
  {
    if s == "car" then Some(Car)
    else if s == "bike" then Some(Bike)
    else if s == "truck" then Some(Truck)
    else if s == "auto" then Some(Auto)
    else if s == "other" then Some(Other)
    else None
  }

  /** Naming a type and reading the name back gives the type. */
  lemma VehicleTypeRoundTrip(t: VehicleType)
    ensures ParseVehicleType(VehicleTypeName(t)) == Some(t)
  {
  }

  /** A document of the vehicle collection; `createdAt` is its creation timestamp. */
  datatype VehicleRecord = VehicleRecord(
    vehicleNumber: string,
    qrCodeId: string,
    user: Id,
    isActive: bool,
    activatedAt: Time,
    deactivatedAt: Option<Time>,
    vehicleType: VehicleType,
    vehicleColor: Option<string>,
    totalScans: int,
    lastScannedAt: Option<Time>,
    createdAt: Time)

  /** The setters of `vehicleNumber`: `uppercase`, then `trim`. */
  function PlateSetter(s: string): string {
    Trim(ToUpper(s))
  }

  /** A plate the validator has sanitized is stored unchanged by the schema setters. */
  lemma {:induction false} PlateSetterKeepsSanitized(s: string)
    ensures PlateSetter(Validators.SanitizePlate(s)) == Validators.SanitizePlate(s)
  {
    var t := Trim(s);
    var u := ToUpper(t);
    TrimEdges(s);
    assert u == [] || (!IsSpace(u[0]) && !IsSpace(u[|u| - 1])) by {
      if u != [] {
        assert u[0] == UpperChar(t[0]) && u[|u| - 1] == UpperChar(t[|t| - 1]);
      }
    }
    assert ToUpper(u) == u;
    TrimKeepsTrimmedEdges(u);
  }

  /** `new Vehicle({...})` as the register handler builds it: `isActive` true, no scans,
      `activatedAt` and `createdAt` now; `vehicleType` is 'car' unless given. */
  function NewVehicle(vehicleNumber: string, qrCodeId: string, user: Id, vehicleType: Option<VehicleType>,
                      vehicleColor: Option<string>, now: Time): (v: VehicleRecord)
    ensures v.isActive && v.totalScans == 0 && v.lastScannedAt.None? && v.deactivatedAt.None?
    ensures v.vehicleType == (if vehicleType.Some? then vehicleType.value else Car)
    ensures v.vehicleNumber == PlateSetter(vehicleNumber) && v.qrCodeId == qrCodeId && v.user == user
    ensures vehicleColor.Some? ==> v.vehicleColor == Some(Trim(vehicleColor.value))
  {
    VehicleRecord(PlateSetter(vehicleNumber), qrCodeId, user, true, now, None,
                  if vehicleType.Some? then vehicleType.value else Car,
                  if vehicleColor.Some? then Some(Trim(vehicleColor.value)) else None,
                  0, None, now)
  }

  /** The document after `recordScan()` at time `now`. */
  function AfterScan(v: VehicleRecord, now: Time): (w: VehicleRecord)
    ensures w.totalScans == v.totalScans + 1 && w.lastScannedAt == Some(now)
    ensures w == v.(totalScans := w.totalScans, lastScannedAt := w.lastScannedAt)
  {
    v.(totalScans := v.totalScans + 1, lastScannedAt := Some(now))
  }

  /** Successive `recordScan()` calls at the given times. */
  function ScanAll(v: VehicleRecord, times: seq<Time>): VehicleRecord
    decreases |times|
  {
    if times == [] then v else ScanAll(AfterScan(v, times[0]), times[1..])
  }

  /** n scans raise `totalScans` by n; the last one sets `lastScannedAt`; nothing
      else changes. */
  lemma {:induction false} ScanAllCounts(v: VehicleRecord, times: seq<Time>)
    ensures var w := ScanAll(v, times);
      && w.totalScans == v.totalScans + |times|
      && w.lastScannedAt == (if times == [] then v.lastScannedAt else Some(times[|times| - 1]))
      && w == v.(totalScans := w.totalScans, lastScannedAt := w.lastScannedAt)
    decreases |times|
  {
    if times != [] {
      ScanAllCounts(AfterScan(v, times[0]), times[1..]);
    }
  }

  /** The key of a `findOne({ ..., isActive: true })` over vehicles. */
  datatype Lookup = ByNumber(vehicleNumber: string) | ByQr(qrId: string)

  predicate Matches(v: VehicleRecord, k: Lookup) {
    match k
    case ByNumber(n) => v.vehicleNumber == n
    case ByQr(q) => v.qrCodeId == q
  }

  /** `Vehicle.findOne({ <key>, isActive: true })`: the first active vehicle, in
      insertion order, that matches the key. */
  function FindActive(vs: seq<VehicleRecord>, k: Lookup): (found: Option<Id>)
    ensures found.Some? ==> found.value < |vs| && vs[found.value].isActive && Matches(vs[found.value], k)
    ensures found.Some? ==> forall j | 0 <= j < found.value :: !(vs[j].isActive && Matches(vs[j], k))
    ensures found.None? <==> forall j | 0 <= j < |vs| :: !(vs[j].isActive && Matches(vs[j], k))
  {
    FindActiveFrom(vs, k, 0)
  }

  function FindActiveFrom(vs: seq<VehicleRecord>, k: Lookup, from: nat): (found: Option<Id>)
    requires from <= |vs|
    ensures found.Some? ==> from <= found.value < |vs| && vs[found.value].isActive && Matches(vs[found.value], k)
    ensures found.Some? ==> forall j | from <= j < found.value :: !(vs[j].isActive && Matches(vs[j], k))
    ensures found.None? <==> forall j | from <= j < |vs| :: !(vs[j].isActive && Matches(vs[j], k))
    decreases |vs| - from
  {
    if from == |vs| then None
    else if vs[from].isActive && Matches(vs[from], k) then Some(from)
    else FindActiveFrom(vs, k, from + 1)
  }

  /** A loaded vehicle document. */
  class VehicleDocument {
    var vehicleNumber: string
    var qrCodeId: string
    var user: Id
    var isActive: bool
    var activatedAt: Time
    var deactivatedAt: Option<Time>
    var vehicleType: VehicleType
    var vehicleColor: Option<string>
    var totalScans: int
    var lastScannedAt: Option<Time>
    var createdAt: Time

    function Record(): VehicleRecord
      reads this
    {
      VehicleRecord(vehicleNumber, qrCodeId, user, isActive, activatedAt, deactivatedAt,
                    vehicleType, vehicleColor, totalScans, lastScannedAt, createdAt)
    }

    constructor Load(v: VehicleRecord)
      ensures Record() == v
    {
      vehicleNumber, qrCodeId, user, isActive := v.vehicleNumber, v.qrCodeId, v.user, v.isActive;
      activatedAt, deactivatedAt, vehicleType := v.activatedAt, v.deactivatedAt, v.vehicleType;
      vehicleColor, totalScans, lastScannedAt, createdAt := v.vehicleColor, v.totalScans, v.lastScannedAt, v.createdAt;
    }

    /** `vehicle.recordScan()` at time `now` (the save is the caller's write-back). */
    method RecordScan(now: Time)
      modifies this
      ensures Record() == AfterScan(old(Record()), now)
      ensures totalScans == old(totalScans) + 1
    {
      totalScans := totalScans + 1;
      lastScannedAt := Some(now);
    }
  }
}
