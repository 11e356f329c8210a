/** The request validators of the API middleware.

    Each express-validator chain becomes a function from the raw field value to the
    list of errors it reports, in chain order: without `.bail()` every validator of
    a chain runs and reports its own message. A field the request leaves out is
    given to a required chain as the empty string; an `.optional()` chain takes an
    `Option` and skips `None`. */
module Validators {
  import opened Base

  /** One entry of `validationResult(req).array()`: the field path and the message. */
  datatype FieldError = FieldError(field: string, message: string)

  const DEFAULT_MESSAGE := "Invalid value"
  const PHONE_MESSAGE := "Invalid phone number. Use 10 digit Indian mobile number"
  const NAME_LENGTH_MESSAGE := "Name must be between 2 and 100 characters"
  const NAME_CHARS_MESSAGE := "Name can only contain letters and spaces"
  const PLATE_MESSAGE := "Invalid vehicle number format (e.g., MH12AB1234)"
  const QR_LENGTH_MESSAGE := "Invalid QR code"
  const QR_FORMAT_MESSAGE := "Invalid QR code format"
  const OTP_LENGTH_MESSAGE := "OTP must be 6 digits"
  const OTP_NUMERIC_MESSAGE := "OTP must contain only numbers"
  const PIN_LENGTH_MESSAGE := "PIN must be 6 digits"
  const PIN_NUMERIC_MESSAGE := "PIN must contain only numbers"
  const ALERT_LENGTH_MESSAGE := "Message must be under 500 characters"
  const VEHICLE_TYPE_MESSAGE := "Invalid vehicle type"

  const VEHICLE_TYPES: seq<string> := ["car", "bike", "truck", "auto", "other"]

  // ---------------------------------------------------------------------------
  // validator.js primitives

  /** `isLength(s, {min, max})`. Only the options `min` and `max` are read; any
      other key of the options object is ignored. */
  predicate IsLength(s: string, min: Option<nat>, max: Option<nat>) {
    var n := ValidatorLength(s);
    (min.None? || n >= min.value) && (max.None? || n <= max.value)
  }

  /** `isNumeric(s)` without options: `^[+-]?([0-9]*[.])?[0-9]+$`. The final
      digit run starts at `p`; before it an optional sign of length `sg` and an
      optional digits-and-point group. */
  predicate IsNumeric(s: string) {
    exists sg, p | 0 <= sg <= 1 && sg <= p < |s| :: NumericSplit(s, sg, p)
  }

  predicate NumericSplit(s: string, sg: nat, p: nat)
    requires sg <= 1 && sg <= p < |s|
  {
    && (sg == 1 ==> s[0] == '+' || s[0] == '-')
    && (p == sg || (s[p - 1] == '.' && AllDigits(s[sg..p - 1])))
    && AllDigits(s[p..])
  }

  /** `isIn(s, values)`. */
  predicate IsIn(s: string, values: seq<string>) { s in values }

  // ---------------------------------------------------------------------------
  // The patterns

  /** `^[6-9]\d{9}$` */
  predicate PhonePattern(s: string) {
    |s| == 10 && '6' <= s[0] <= '9' && AllDigits(s)
  }

  /** `^[a-zA-Z\s]+$` */
  predicate NamePattern(s: string) {
    |s| >= 1 && forall i | 0 <= i < |s| :: IsAsciiLetter(s[i]) || IsSpace(s[i])
  }

  /** `^[A-Z]{2}[0-9]{1,2}[A-Z]{0,3}[0-9]{4}$`: two letters, `d` digits, `l`
      letters, four digits. */
  predicate PlatePattern(s: string) {
    exists d, l | 1 <= d <= 2 && 0 <= l <= 3 :: PlateSplit(s, d, l)
  }

  predicate PlateSplit(s: string, d: nat, l: nat) {
    && |s| == 6 + d + l
    && AllUpper(s[..2]) && AllDigits(s[2..2 + d])
    && AllUpper(s[2 + d..2 + d + l]) && AllDigits(s[2 + d + l..])
  }

  /** The class `[123456789ABCDEFGHJKLMNPQRSTUVWXYZ]`: digits but 0, capitals but I and O. */
  predicate IsQrIdChar(c: char) {
    ('1' <= c <= '9') || ('A' <= c <= 'Z' && c != 'I' && c != 'O')
  }

  /** `^[123456789ABCDEFGHJKLMNPQRSTUVWXYZ]{7}$` */
  predicate QrIdPattern(s: string) {
    |s| == 7 && forall i | 0 <= i < |s| :: IsQrIdChar(s[i])
  }

  // ---------------------------------------------------------------------------
  // The chains

  function Check(ok: bool, field: string, message: string): seq<FieldError> {
    if ok then [] else [FieldError(field, message)]
  }

  /** `phoneValidation`: trim, then the Indian mobile pattern. */
  function PhoneErrors(phone: string): (errs: seq<FieldError>)
    ensures errs == [] <==> (var t := Trim(phone); |t| == 10 && '6' <= t[0] <= '9' && AllDigits(t))
    ensures |errs| <= 1
  {
    Check(PhonePattern(Trim(phone)), "phone", PHONE_MESSAGE)
  }

  /** `nameValidation`: trim, length 2..100, then letters and `\s` only; both
      checks report. */
  function NameErrors(name: string): (errs: seq<FieldError>)
    ensures errs == [] <==> (var t := Trim(name); 2 <= |t| <= 100 && forall i | 0 <= i < |t| :: IsAsciiLetter(t[i]) || IsSpace(t[i]))
  {
    var t := Trim(name);
    assert (IsLength(t, Some(2), Some(100)) && NamePattern(t))
           <==> (2 <= |t| <= 100 && forall i | 0 <= i < |t| :: IsAsciiLetter(t[i]) || IsSpace(t[i])) by {
      NameChecksAgree(t);
    }
    Check(IsLength(t, Some(2), Some(100)), "name", NAME_LENGTH_MESSAGE)
    + Check(NamePattern(t), "name", NAME_CHARS_MESSAGE)
  }

  /** Both name checks pass exactly when the string has 2 to 100 letters and
      spaces: such characters count one each for `isLength`. */
  lemma NameChecksAgree(t: string)
    ensures (IsLength(t, Some(2), Some(100)) && NamePattern(t))
            <==> (2 <= |t| <= 100 && forall i | 0 <= i < |t| :: IsAsciiLetter(t[i]) || IsSpace(t[i]))
  {
    if NamePattern(t) {
      forall i | 0 <= i < |t| ensures t[i] != '\U{FE0E}' && t[i] != '\U{FE0F}' {
        assert IsAsciiLetter(t[i]) || IsSpace(t[i]);
      }
      ValidatorLengthPlain(t);
    }
  }

  /** The value the vehicle-number chains hand on: trimmed, then upper-cased. */
  function SanitizePlate(s: string): string {
    ToUpper(Trim(s))
  }

  /** `vehicleNumberValidation` (body) and `vehicleNumberParamValidation` (URL
      parameter): the same sanitizers and the same pattern. */
  function PlateErrors(vehicleNumber: string): (errs: seq<FieldError>)
    ensures errs == [] <==> PlatePattern(SanitizePlate(vehicleNumber))
    ensures errs == [] ==> 7 <= |SanitizePlate(vehicleNumber)| <= 11
  {
    Check(PlatePattern(SanitizePlate(vehicleNumber)), "vehicleNumber", PLATE_MESSAGE)
  }

  /** `qrIdValidation`: trim, exactly 7 long, then the QR alphabet; both report. */
  function QrIdErrors(qrId: string): (errs: seq<FieldError>)
    ensures errs == [] <==> (var t := Trim(qrId); |t| == 7 && forall i | 0 <= i < 7 :: IsQrIdChar(t[i]))
  {
    var t := Trim(qrId);
    assert QrIdPattern(t) ==> ValidatorLength(t) == |t| by {
      if QrIdPattern(t) { ValidatorLengthPlain(t); }
    }
    Check(IsLength(t, Some(7), Some(7)), "qrId", QR_LENGTH_MESSAGE)
    + Check(QrIdPattern(t), "qrId", QR_FORMAT_MESSAGE)
  }

  /** `otpValidation` as written: `isLength({ exactly: 6 })` passes no `min` or
      `max`, so only `isNumeric` can fail. */
  function OtpErrors(otp: string): (errs: seq<FieldError>)
    ensures errs == [] <==> IsNumeric(Trim(otp))
  {
    var t := Trim(otp);
    Check(IsLength(t, None, None), "otp", OTP_LENGTH_MESSAGE)
    + Check(IsNumeric(t), "otp", OTP_NUMERIC_MESSAGE)
  }

  /** `pinValidation` as written: as for the OTP, only `isNumeric` can fail. */
  function PinErrors(pin: string): (errs: seq<FieldError>)
    ensures errs == [] <==> IsNumeric(Trim(pin))
  {
    var t := Trim(pin);
    Check(IsLength(t, None, None), "activationPin", PIN_LENGTH_MESSAGE)
    + Check(IsNumeric(t), "activationPin", PIN_NUMERIC_MESSAGE)
  }

  /** The six-digit check the OTP and PIN chains were written to perform. */
  predicate SixDigits(s: string) {
    |s| == 6 && AllDigits(s)
  }

  /** `pinValidation` as its messages describe it: trimmed, exactly six characters,
      digits only. */
  function PinErrorsCorrected(pin: string): (errs: seq<FieldError>)
    ensures errs == [] <==> SixDigits(Trim(pin))
  {
    var t := Trim(pin);
    Check(|t| == 6, "activationPin", PIN_LENGTH_MESSAGE)
    + Check(AllDigits(t), "activationPin", PIN_NUMERIC_MESSAGE)
  }

  /** Every six-digit string passes the PIN chain, as written or corrected. */
  lemma SixDigitsPassPin(pin: string)
    requires SixDigits(pin)
    ensures PinErrors(pin) == [] && PinErrorsCorrected(pin) == []
  {
    DigitsNumericTrimmed(pin);
    DigitsNoSpace(pin);
  }

  /** A non-empty run of digits is numeric, also after trimming. */
  lemma DigitsNumericTrimmed(s: string)
    requires AllDigits(s) && s != []
    ensures IsNumeric(Trim(s))
  {
    DigitsNoSpace(s);
    DigitsNumeric(Trim(s));
  }

  lemma DigitsNoSpace(s: string)
    requires AllDigits(s)
    ensures Trim(s) == s
  {
    forall i | 0 <= i < |s| ensures !IsSpace(s[i]) { assert IsDigit(s[i]); }
    TrimNoSpace(s);
  }

  lemma DigitsNumeric(s: string)
    requires AllDigits(s) && s != []
    ensures IsNumeric(s)
  {
    assert s[0..] == s;
    assert NumericSplit(s, 0, 0);
  }

  /** The PIN chain as written accepts strings that are not six digits: one digit,
      a signed decimal fraction, nine digits. */
  lemma PinAcceptsNonSixDigits()
    ensures PinErrors("7") == [] && !SixDigits("7")
    ensures PinErrors("+1.5") == [] && !SixDigits("+1.5")
    ensures PinErrors("123456789") == [] && !SixDigits("123456789")
  {
    DigitsNumericTrimmed("7");
    DigitsNumericTrimmed("123456789");
    SignedFractionNumeric();
  }

  lemma SignedFractionNumeric()
    ensures IsNumeric(Trim("+1.5"))
  {
    SignedFractionShape("+1.5");
  }

  lemma SignedFractionShape(f: string)
    requires f == "+1.5"
    ensures IsNumeric(Trim(f))
  {
    assert f[0] == '+' && f[1] == '1' && f[2] == '.' && f[3] == '5';
    assert NoSpace(f) by {
      forall i | 0 <= i < |f| ensures !IsSpace(f[i]) {
        assert f[i] == '+' || f[i] == '1' || f[i] == '.' || f[i] == '5';
      }
    }
    TrimNoSpace(f);
    assert f[1..2] == ['1'] && f[3..] == ['5'];
    assert NumericSplit(f, 1, 3);
  }

  /** `alertMessageValidation`: optional; trimmed, at most 500 long. */
  function AlertMessageErrors(message: Option<string>): (errs: seq<FieldError>)
    ensures errs == [] <==> (message.None? || ValidatorLength(Trim(message.value)) <= 500)
  {
    if message.None? then []
    else Check(IsLength(Trim(message.value), None, Some(500)), "message", ALERT_LENGTH_MESSAGE)
  }

  /** The value the alert-message chain hands on. */
  function SanitizeAlertMessage(message: Option<string>): Option<string> {
    if message.None? then None else Some(Trim(message.value))
  }

  /** `vehicleTypeValidation`: optional; one of the five vehicle types. */
  function VehicleTypeErrors(vehicleType: Option<string>): (errs: seq<FieldError>)
    ensures errs == [] <==> (vehicleType.None? || vehicleType.value in {"car", "bike", "truck", "auto", "other"})
  {
    if vehicleType.None? then []
    else Check(IsIn(vehicleType.value, VEHICLE_TYPES), "vehicleType", VEHICLE_TYPE_MESSAGE)
  }

  /** A required non-empty string field (`isString().notEmpty()`, the firebase
      token and FCM token chains; and `trim().notEmpty()` when `trim` is set). */
  function RequiredErrors(value: string, field: string, message: string, trim: bool): (errs: seq<FieldError>)
    ensures errs == [] <==> (if trim then Trim(value) else value) != ""
  {
    Check((if trim then Trim(value) else value) != "", field, message)
  }

  /** What `handleValidation` does with the collected errors. */
  datatype Gate = Next | Reject(status: int, error: string, details: seq<FieldError>)

  /** `handleValidation`: a non-empty error list becomes a 400 reply listing one
      `{field, message}` per error in order; otherwise the next handler runs. */
  function HandleValidation(errors: seq<FieldError>): (g: Gate)
    ensures g.Next? <==> errors == []
    ensures g.Reject? ==> g.status == 400 && g.error == "Validation failed" && g.details == errors
  {
    if errors == [] then Next
    else Reject(400, "Validation failed", seq(|errors|, i requires 0 <= i < |errors| => FieldError(errors[i].field, errors[i].message)))
  }

  /** Every accepted plate has 7 to 11 characters and starts with two letters. */
  lemma PlateShape(s: string)
    requires PlatePattern(s)
    ensures 7 <= |s| <= 11 && IsUpper(s[0]) && IsUpper(s[1])
  {
    var d, l :| 1 <= d <= 2 && 0 <= l <= 3 && PlateSplit(s, d, l);
    assert s[..2][0] == s[0] && s[..2][1] == s[1];
  }

  /** Accepted plates: the sample in the error message and the shortest and longest shapes. */
  lemma PlateExamples()
    ensures PlatePattern("MH12AB1234") && PlatePattern("DL1234") == false
    ensures PlatePattern("KA51234") && PlatePattern("KA12ABC1234")
  {
    var a, b, c := "MH12AB1234", "KA51234", "KA12ABC1234";
    assert a[..2] == "MH" && a[2..4] == "12" && a[4..6] == "AB" && a[6..] == "1234";
    assert PlateSplit(a, 2, 2);
    assert b[..2] == "KA" && b[2..3] == "5" && b[3..3] == "" && b[3..] == "1234";
    assert PlateSplit(b, 1, 0);
    assert c[..2] == "KA" && c[2..4] == "12" && c[4..7] == "ABC" && c[7..] == "1234";
    assert PlateSplit(c, 2, 3);
  }
}
