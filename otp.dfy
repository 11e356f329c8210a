/** One-time passwords (the `OTP` model): the `verify` instance method, a guarded
    state machine over the counters `attempts` and `isUsed`, and the `generate`
    static, which replaces every code of a (phone, purpose) pair by a fresh one. */
module Otp {
  import opened Base

  datatype Purpose = Registration | Login | Reset

  const DEFAULT_MAX_ATTEMPTS := 3
  /** Codes expire ten minutes after they are generated. */
  const OTP_TTL_MS := 10 * MINUTE_MS

  const ALREADY_USED := "OTP already used"
  const TOO_MANY_ATTEMPTS := "Maximum attempts exceeded"
  const EXPIRED := "OTP expired"
  const WRONG_CODE := "Invalid OTP"

  /** A document of the OTP collection. */
  datatype OtpRecord = OtpRecord(
    phone: string,
    otp: string,
    purpose: Purpose,
    attempts: int,
    maxAttempts: int,
    expiresAt: Time,
    isUsed: bool)

  /** `{ valid: true }` or `{ valid: false, error }`. */
  datatype VerifyResult = Valid | Invalid(error: string)

  /** The state `verify` leaves behind and the result it returns. */
  datatype Step = Step(after: OtpRecord, result: VerifyResult)

  /** Whether `verify` gets past its three guards and compares the code. */
  predicate Compares(r: OtpRecord, now: Time) {
    !r.isUsed && r.attempts < r.maxAttempts && !(now > r.expiresAt)
  }

  /** `verify(input)` at time `now`, as a function of the stored document. */
  function VerifyStep(r: OtpRecord, input: string, now: Time): (s: Step)
    ensures !Compares(r, now) ==> s.after == r && s.result.Invalid?
    ensures Compares(r, now) ==> s.after.attempts == r.attempts + 1
    ensures s.result == Valid <==> Compares(r, now) && r.otp == input
    ensures s.after == r.(attempts := s.after.attempts, isUsed := s.after.isUsed)
  {
    if r.isUsed then Step(r, Invalid(ALREADY_USED))
    else if r.attempts >= r.maxAttempts then Step(r, Invalid(TOO_MANY_ATTEMPTS))
    else if now > r.expiresAt then Step(r, Invalid(EXPIRED))
    else
      var counted := r.(attempts := r.attempts + 1);
      if r.otp != input then Step(counted, Invalid(WRONG_CODE))
      else Step(counted.(isUsed := true), Valid)
  }

  /** A used code is refused, and nothing changes. */
  lemma UsedCodeRefused(r: OtpRecord, input: string, now: Time)
    requires r.isUsed
    ensures VerifyStep(r, input, now) == Step(r, Invalid(ALREADY_USED))
  {
  }

  /** With the attempts spent, the code is not compared and no attempt is counted. */
  lemma AttemptsSpentRefused(r: OtpRecord, input: string, now: Time)
    requires !r.isUsed && r.attempts >= r.maxAttempts
    ensures VerifyStep(r, input, now) == Step(r, Invalid(TOO_MANY_ATTEMPTS))
  {
  }

  /** An expired code is refused without consuming an attempt. */
  lemma ExpiredRefused(r: OtpRecord, input: string, now: Time)
    requires !r.isUsed && r.attempts < r.maxAttempts && now > r.expiresAt
    ensures VerifyStep(r, input, now) == Step(r, Invalid(EXPIRED))
  {
  }

  /** Past the guards, a wrong code costs one attempt and leaves the code unused;
      the right one costs one attempt and marks it used. */
  lemma ComparedOutcome(r: OtpRecord, input: string, now: Time)
    requires Compares(r, now)
    ensures var s := VerifyStep(r, input, now);
      && s.after.attempts == r.attempts + 1
      && (r.otp != input ==> s.result == Invalid(WRONG_CODE) && !s.after.isUsed)
      && (r.otp == input ==> s.result == Valid && s.after.isUsed)
  {
  }

  /** Once `verify` has succeeded, every later `verify` fails with 'OTP already used'. */
  lemma SingleUse(r: OtpRecord, input: string, now: Time, input2: string, now2: Time)
    requires VerifyStep(r, input, now).result == Valid
    ensures VerifyStep(VerifyStep(r, input, now).after, input2, now2).result == Invalid(ALREADY_USED)
  {
  }

  /** One call of `verify` on the document, with the code typed and the clock. */
  datatype Attempt = Attempt(input: string, now: Time)

  /** Successive `verify` calls on the same document. */
  function Run(r: OtpRecord, attempts: seq<Attempt>): (out: (OtpRecord, seq<VerifyResult>))
    ensures |out.1| == |attempts|
    decreases |attempts|
  {
    if attempts == [] then (r, [])
    else
      var s := VerifyStep(r, attempts[0].input, attempts[0].now);
      var rest := Run(s.after, attempts[1..]);
      (rest.0, [s.result] + rest.1)
  }

  /** How many of the calls get to compare the code. */
  function Comparisons(r: OtpRecord, attempts: seq<Attempt>): nat
    decreases |attempts|
  {
    if attempts == [] then 0
    else
      var s := VerifyStep(r, attempts[0].input, attempts[0].now);
      (if Compares(r, attempts[0].now) then 1 else 0) + Comparisons(s.after, attempts[1..])
  }

  function ValidCount(results: seq<VerifyResult>): nat {
    if results == [] then 0 else (if results[0] == Valid then 1 else 0) + ValidCount(results[1..])
  }

  /** Every comparison consumes an attempt, and none happens once `attempts` has
      reached `maxAttempts`: the counter never passes the limit, and the number of
      comparisons is the number of attempts consumed. */
  lemma {:induction false} AttemptsBounded(r: OtpRecord, attempts: seq<Attempt>)
    requires r.attempts <= r.maxAttempts
    ensures var last := Run(r, attempts).0;
      && last.maxAttempts == r.maxAttempts
      && r.attempts <= last.attempts <= last.maxAttempts
      && Comparisons(r, attempts) == last.attempts - r.attempts
    decreases |attempts|
  {
    if attempts != [] {
      var s := VerifyStep(r, attempts[0].input, attempts[0].now);
      AttemptsBounded(s.after, attempts[1..]);
    }
  }

  /** A code accepted once is never accepted again: a document yields at most one
      valid result, and none once it is used. */
  lemma {:induction false} AtMostOneValid(r: OtpRecord, attempts: seq<Attempt>)
    ensures ValidCount(Run(r, attempts).1) <= (if r.isUsed then 0 else 1)
    decreases |attempts|
  {
    if attempts != [] {
      var s := VerifyStep(r, attempts[0].input, attempts[0].now);
      AtMostOneValid(s.after, attempts[1..]);
      var rest := Run(s.after, attempts[1..]);
      assert Run(r, attempts).1[1..] == rest.1;
    }
  }

  /** The document `generate` creates: the schema defaults for the counters and
      an expiry ten minutes after `now`. */
  function NewOtp(phone: string, code: string, purpose: Purpose, now: Time): (r: OtpRecord)
    ensures r.attempts == 0 && r.maxAttempts == DEFAULT_MAX_ATTEMPTS && !r.isUsed
    ensures r.expiresAt == now + 600000
  {
    OtpRecord(phone, code, purpose, 0, DEFAULT_MAX_ATTEMPTS, now + OTP_TTL_MS, false)
  }

  /** From a fresh document, at most three codes are ever compared. */
  lemma FreshOtpComparisons(phone: string, code: string, purpose: Purpose, now: Time, attempts: seq<Attempt>)
    ensures Comparisons(NewOtp(phone, code, purpose, now), attempts) <= 3
    ensures Run(NewOtp(phone, code, purpose, now), attempts).0.attempts <= 3
  {
    AttemptsBounded(NewOtp(phone, code, purpose, now), attempts);
  }

  /** `Math.floor(100000 + random * 900000).toString()` for `random` in [0, 1):
      a six-digit code from 100000 to 999999. */
  function OtpCode(random: real): (code: string)
    requires 0.0 <= random < 1.0
    ensures |code| == 6 && AllDigits(code)
    ensures 100000 <= DecimalValue(code) <= 999999
  {
    var n := (100000.0 + random * 900000.0).Floor;
    assert 100000 <= n < 1000000;
    assert Pow10(5) == 100000 && Pow10(6) == 1000000;
    DecimalStringLength(n, 6);
    DecimalRoundTrip(n);
    DecimalString(n)
  }

  /** A loaded OTP document; `verify` changes it in memory (the caller saves it). */
  class OtpDocument {
    var phone: string
    var otp: string
    var purpose: Purpose
    var attempts: int
    var maxAttempts: int
    var expiresAt: Time
    var isUsed: bool

    function Record(): OtpRecord
      reads this
    {
      OtpRecord(phone, otp, purpose, attempts, maxAttempts, expiresAt, isUsed)
    }

    constructor Load(r: OtpRecord)
      ensures Record() == r
    {
      phone, otp, purpose := r.phone, r.otp, r.purpose;
      attempts, maxAttempts, expiresAt, isUsed := r.attempts, r.maxAttempts, r.expiresAt, r.isUsed;
    }

    /** `otp.verify(inputOtp)` at time `now`. */
    method Verify(inputOtp: string, now: Time) returns (result: VerifyResult)
      modifies this
      ensures Step(Record(), result) == VerifyStep(old(Record()), inputOtp, now)
    {
      if isUsed {
        return Invalid(ALREADY_USED);
      }
      if attempts >= maxAttempts {
        return Invalid(TOO_MANY_ATTEMPTS);
      }
      if now > expiresAt {
        return Invalid(EXPIRED);
      }
      attempts := attempts + 1;
      if otp != inputOtp {
        return Invalid(WRONG_CODE);
      }
      isUsed := true;
      return Valid;
    }
  }

  /** The documents other than those of the pair (phone, purpose), in order
      (`deleteMany({ phone, purpose })`). */
  function WithoutPair(docs: seq<OtpRecord>, phone: string, purpose: Purpose): (rest: seq<OtpRecord>)
    ensures forall i | 0 <= i < |rest| :: rest[i] in docs && !(rest[i].phone == phone && rest[i].purpose == purpose)
    ensures forall d | d in docs && !(d.phone == phone && d.purpose == purpose) :: d in rest
  {
    if docs == [] then []
    else
      var rest := WithoutPair(docs[1..], phone, purpose);
      if docs[0].phone == phone && docs[0].purpose == purpose then rest else [docs[0]] + rest
  }

  function PairCount(docs: seq<OtpRecord>, phone: string, purpose: Purpose): nat {
    if docs == [] then 0
    else (if docs[0].phone == phone && docs[0].purpose == purpose then 1 else 0) + PairCount(docs[1..], phone, purpose)
  }

  lemma {:induction false} PairCountAppend(a: seq<OtpRecord>, b: seq<OtpRecord>, phone: string, purpose: Purpose)
    ensures PairCount(a + b, phone, purpose) == PairCount(a, phone, purpose) + PairCount(b, phone, purpose)
    decreases |a|
  {
    if a != [] {
      PairCountAppend(a[1..], b, phone, purpose);
      assert (a + b)[1..] == a[1..] + b;
    } else {
      assert a + b == b;
    }
  }

  lemma {:induction false} WithoutPairCount(docs: seq<OtpRecord>, phone: string, purpose: Purpose)
    ensures PairCount(WithoutPair(docs, phone, purpose), phone, purpose) == 0
    decreases |docs|
  {
    if docs != [] {
      WithoutPairCount(docs[1..], phone, purpose);
      var rest := WithoutPair(docs[1..], phone, purpose);
      if !(docs[0].phone == phone && docs[0].purpose == purpose) {
        assert ([docs[0]] + rest)[1..] == rest;
      }
    }
  }

  /** The OTP collection. */
  class OtpCollection {
    var docs: seq<OtpRecord>

    constructor ()
      ensures docs == []
    {
      docs := [];
    }

    /** `OTP.generate(phone, purpose = 'login')` at time `now`, with `random` the
        value `Math.random()` returns. The pair is deleted first; an empty phone
        then fails the schema's `required` check, so the create throws (None). */
    method Generate(phone: string, purpose: Option<Purpose>, now: Time, random: real) returns (code: Option<string>)
      requires 0.0 <= random < 1.0
      modifies this
      ensures code.Some? <==> phone != ""
      ensures var p := if purpose.Some? then purpose.value else Login;
        if phone == "" then docs == WithoutPair(old(docs), phone, p)
        else code.value == OtpCode(random) && docs == WithoutPair(old(docs), phone, p) + [NewOtp(phone, code.value, p, now)]
    {
      var p := if purpose.Some? then purpose.value else Login;
      docs := WithoutPair(docs, phone, p);
      var otp := OtpCode(random);
      if phone == "" {
        return None;
      }
      docs := docs + [NewOtp(phone, otp, p, now)];
      code := Some(otp);
    }
  }

  /** After `generate`, the pair has exactly one code, the fresh one, and the
      codes of every other pair are kept. */
  lemma GenerateLeavesOne(docs: seq<OtpRecord>, phone: string, p: Purpose, code: string, now: Time)
    ensures var after := WithoutPair(docs, phone, p) + [NewOtp(phone, code, p, now)];
      && PairCount(after, phone, p) == 1
      && after[|after| - 1] == NewOtp(phone, code, p, now)
      && forall d | d in docs && !(d.phone == phone && d.purpose == p) :: d in after
  {
    var rest := WithoutPair(docs, phone, p);
    WithoutPairCount(docs, phone, p);
    PairCountAppend(rest, [NewOtp(phone, code, p, now)], phone, p);
    assert PairCount([NewOtp(phone, code, p, now)], phone, p) == 1 by {
      assert [NewOtp(phone, code, p, now)][1..] == [];
    }
  }
}
