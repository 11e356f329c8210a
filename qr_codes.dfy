/** QR codes (the `QRCode` model): the status lifecycle available -> activated by a
    PIN-checked `activate`, and -> disabled when the vehicle carrying it is deleted. */
module QrCodes {
  import opened Base

  datatype QrStatus = Available | Activated | Disabled

  /** A document of the QR-code collection. */
  datatype QrCodeRecord = QrCodeRecord(
    qrId: string,
    activationPin: string,
    status: QrStatus,
    batchId: Option<string>,
    generatedAt: Time,
    activatedAt: Option<Time>,
    activatedBy: Option<Id>)

  const INVALID_PIN := "Invalid activation PIN"
  const NOT_AVAILABLE := "QR code already activated or disabled"

  /** A code as `insertMany` stores it: status 'available', never activated. */
  function NewQrCode(qrId: string, activationPin: string, batchId: Option<string>, now: Time): (q: QrCodeRecord)
    ensures q.status == Available && q.activatedAt.None? && q.activatedBy.None?
    ensures q.qrId == qrId && q.activationPin == activationPin && q.batchId == batchId
  {
    QrCodeRecord(qrId, activationPin, Available, batchId, now, None, None)
  }

  /** The collection is keyed by `qrId` (its unique index). */
  predicate Keyed(codes: map<string, QrCodeRecord>) {
    forall k | k in codes :: codes[k].qrId == k
  }

  /** `QRCode.getAvailable(qrId)`: `findOne({ qrId, status: 'available' })`. */
  function GetAvailable(codes: map<string, QrCodeRecord>, qrId: string): (found: Option<QrCodeRecord>)
    requires Keyed(codes)
    ensures found.Some? <==> qrId in codes && codes[qrId].status == Available
    ensures found.Some? ==> found.value == codes[qrId] && found.value.qrId == qrId
  {
    if qrId in codes && codes[qrId].status == Available then Some(codes[qrId]) else None
  }

  /** What `activate` does to a document: the thrown error, or the new document. */
  datatype Activation = Rejected(error: string) | Done(code: QrCodeRecord)

  /** `qrCode.activate(userId, pin)` at time `now`: the PIN is checked before the status. */
  function ActivateRecord(q: QrCodeRecord, userId: Id, pin: string, now: Time): (a: Activation)
    ensures a.Rejected? <==> q.activationPin != pin || q.status != Available
    ensures q.activationPin != pin ==> a == Rejected(INVALID_PIN)
    ensures q.activationPin == pin && q.status != Available ==> a == Rejected(NOT_AVAILABLE)
    ensures a.Done? ==> a.code == q.(status := Activated, activatedAt := Some(now), activatedBy := Some(userId))
  {
    if q.activationPin != pin then Rejected(INVALID_PIN)
    else if q.status != Available then Rejected(NOT_AVAILABLE)
    else Done(q.(status := Activated, activatedAt := Some(now), activatedBy := Some(userId)))
  }

  /** A disabled code with a wrong PIN reports the PIN, not the status. */
  lemma PinCheckedFirst(q: QrCodeRecord, userId: Id, pin: string, now: Time)
    requires q.status == Disabled && q.activationPin != pin
    ensures ActivateRecord(q, userId, pin, now) == Rejected(INVALID_PIN)
  {
  }

  /** Activation is single-use: once it succeeded, every later attempt throws,
      whoever tries and with whatever PIN. */
  lemma ActivationSingleUse(q: QrCodeRecord, u1: Id, pin1: string, t1: Time, u2: Id, pin2: string, t2: Time)
    requires ActivateRecord(q, u1, pin1, t1).Done?
    ensures ActivateRecord(ActivateRecord(q, u1, pin1, t1).code, u2, pin2, t2).Rejected?
  {
  }

  /** `QRCode.updateOne({ qrId }, { status: 'disabled' })`; a missing id matches nothing. */
  function DisableCode(codes: map<string, QrCodeRecord>, qrId: string): (r: map<string, QrCodeRecord>)
    requires Keyed(codes)
    ensures Keyed(r) && r.Keys == codes.Keys
    ensures qrId in codes ==> r[qrId] == codes[qrId].(status := Disabled)
    ensures forall k | k in codes && k != qrId :: r[k] == codes[k]
  {
    if qrId in codes then codes[qrId := codes[qrId].(status := Disabled)] else codes
  }

  /** A loaded QR-code document. */
  class QrCodeDocument {
    var qrId: string
    var activationPin: string
    var status: QrStatus
    var batchId: Option<string>
    var generatedAt: Time
    var activatedAt: Option<Time>
    var activatedBy: Option<Id>

    function Record(): QrCodeRecord
      reads this
    {
      QrCodeRecord(qrId, activationPin, status, batchId, generatedAt, activatedAt, activatedBy)
    }

    constructor Load(q: QrCodeRecord)
      ensures Record() == q
    {
      qrId, activationPin, status, batchId := q.qrId, q.activationPin, q.status, q.batchId;
      generatedAt, activatedAt, activatedBy := q.generatedAt, q.activatedAt, q.activatedBy;
    }

    /** `qrCode.activate(userId, pin)`: returns the error it throws, if any; on
        success the document is changed (and saved by the caller). */
    method Activate(userId: Id, pin: string, now: Time) returns (error: Option<string>)
      modifies this
      ensures var a := ActivateRecord(old(Record()), userId, pin, now);
        && (a.Rejected? ==> error == Some(a.error) && Record() == old(Record()))
        && (a.Done? ==> error.None? && Record() == a.code)
    {
      if activationPin != pin {
        return Some(INVALID_PIN);
      }
      if status != Available {
        return Some(NOT_AVAILABLE);
      }
      status := Activated;
      activatedAt := Some(now);
      activatedBy := Some(userId);
      return None;
    }
  }
}
