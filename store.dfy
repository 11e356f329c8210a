/** The database the route handlers share, as in-memory collections: users and
    vehicles are sequences whose index is the document `_id` (so a larger id is a
    newer document), QR codes are keyed by `qrId` and subscriptions by user (their
    unique indexes); scan logs, notifications and the push requests handed to
    `sendPush` are appended in order. */
module Store {
  import opened Base
  import opened QrCodes
  import opened Vehicles
  import opened Subscriptions
  import opened Records
  import opened Http

  datatype Data = Data(
    users: seq<UserRecord>,
    qrCodes: map<string, QrCodeRecord>,
    vehicles: seq<VehicleRecord>,
    subscriptions: map<Id, SubscriptionRecord>,
    scanLogs: seq<ScanLogRecord>,
    notifications: seq<NotificationRecord>,
    pushes: seq<PushRequest>)

  /** The feature switches read from the environment at start-up. */
  datatype Features = Features(firebase: bool, razorpay: bool, notifications: bool, calls: bool)

  /** The database after a handler ran, and the reply it sent. */
  datatype Outcome<+T> = Outcome(data: Data, reply: Reply<T>)

  const EMPTY := Data([], map[], [], map[], [], [], [])

  /** A vehicle's owner exists, its QR code exists, was activated by the owner, and
      is 'activated' while the vehicle is active and 'disabled' once it is not. */
  predicate VehicleFits(d: Data, v: VehicleRecord) {
    && v.user < |d.users|
    && v.qrCodeId in d.qrCodes
    && d.qrCodes[v.qrCodeId].status == (if v.isActive then Activated else Disabled)
    && d.qrCodes[v.qrCodeId].activatedBy == Some(v.user)
  }

  /** No two vehicles share a QR code (the unique index of `qrCodeId`). */
  predicate QrCodeIdsUnique(vs: seq<VehicleRecord>) {
    forall i, j | 0 <= i < j < |vs| :: vs[i].qrCodeId != vs[j].qrCodeId
  }

  /** No two active vehicles carry the same plate. */
  predicate ActivePlatesUnique(vs: seq<VehicleRecord>) {
    forall i, j | 0 <= i < j < |vs| && vs[i].isActive && vs[j].isActive :: vs[i].vehicleNumber != vs[j].vehicleNumber
  }

  /** No two users share a phone (its unique index). */
  predicate PhonesUnique(us: seq<UserRecord>) {
    forall i, j | 0 <= i < j < |us| :: us[i].phone != us[j].phone
  }

  /** No two users carry the same Firebase uid (its sparse unique index). */
  predicate UidsUnique(us: seq<UserRecord>) {
    forall i, j | 0 <= i < j < |us| && us[i].firebaseUid.Some? :: us[i].firebaseUid != us[j].firebaseUid
  }

  /** What every handler keeps true of the database. */
  predicate Valid(d: Data) {
    && Keyed(d.qrCodes)
    && (forall i | 0 <= i < |d.vehicles| :: VehicleFits(d, d.vehicles[i]))
    && QrCodeIdsUnique(d.vehicles)
    && ActivePlatesUnique(d.vehicles)
    && PhonesUnique(d.users)
    && UidsUnique(d.users)
    && (forall u | u in d.subscriptions :: u < |d.users| && d.subscriptions[u].user == u)
  }

  lemma EmptyValid()
    ensures Valid(EMPTY)
  {
  }

  /** The database, as the objects the handlers update. */
  class Db {
    var users: seq<UserRecord>
    var qrCodes: map<string, QrCodeRecord>
    var vehicles: seq<VehicleRecord>
    var subscriptions: map<Id, SubscriptionRecord>
    var scanLogs: seq<ScanLogRecord>
    var notifications: seq<NotificationRecord>
    var pushes: seq<PushRequest>

    function Snapshot(): Data
      reads this
    {
      Data(users, qrCodes, vehicles, subscriptions, scanLogs, notifications, pushes)
    }

    constructor ()
      ensures Snapshot() == EMPTY
    {
      users, qrCodes, vehicles, subscriptions := [], map[], [], map[];
      scanLogs, notifications, pushes := [], [], [];
    }
  }
}
