/** The authentication routes: the auth-mode probe, the two sign-in flows (Firebase
    and the development mock), the caller's profile and emergency contact, and the
    push-token list. `req.user` is the user the caller's token names, given as its
    id `me`. */
module AuthRoutes {
  import opened Base
  import opened Validators
  import opened Http
  import opened Records
  import opened Store
  import opened Masking

  const MAX_FCM_TOKENS := 10
  const PLATFORMS: seq<string> := ["web", "android", "ios"]

  const ID_TOKEN_REQUIRED := "Firebase ID token is required"
  const TOKEN_REQUIRED := "FCM token is required"
  const PLATFORM_MESSAGE := "Invalid platform"
  const NAME_REQUIRED := "New user. Name required for registration."
  const VERIFICATION_FAILED := "Verification failed"
  const TOKEN_EXPIRED := "Firebase token expired. Please try again."
  const TOKEN_INVALID := "Invalid Firebase token."
  const NO_PHONE := "Phone number not found in Firebase token"
  const MOCK_OTP_SENT := "Mock OTP sent (dev mode)"
  const CONTACT_FAILED := "Failed to set emergency contact"
  const CONTACT_REMOVED := "Emergency contact removed"
  const TOKEN_REGISTERED := "FCM token registered"
  const TOKEN_REMOVED := "FCM token removed"
  const COUNTRY_CODE := "+91"

  /** `GET /config`: which sign-in flow the server mounted. */
  function AuthMode(f: Features): string {
    if f.firebase then "firebase" else "mock"
  }

  // ---------------------------------------------------------------------------
  // Finding users

  /** The key of a `User.findOne`: `findByPhone` (the phone hash, standing for the
      phone) or the Firebase uid. */
  datatype UserKey = ByPhone(phone: string) | ByUid(uid: string)

  predicate UserMatches(u: UserRecord, k: UserKey) {
    match k
    case ByPhone(p) => u.phone == p
    case ByUid(id) => u.firebaseUid == Some(id)
  }

  /** The first user, in insertion order, that matches the key. */
  function FindUser(us: seq<UserRecord>, k: UserKey): (found: Option<Id>)
    ensures found.Some? ==> found.value < |us| && UserMatches(us[found.value], k)
    ensures found.Some? ==> forall j | 0 <= j < found.value :: !UserMatches(us[j], k)
    ensures found.None? <==> forall j | 0 <= j < |us| :: !UserMatches(us[j], k)
  {
    FindUserFrom(us, k, 0)
  }

  function FindUserFrom(us: seq<UserRecord>, k: UserKey, from: nat): (found: Option<Id>)
    requires from <= |us|
    ensures found.Some? ==> from <= found.value < |us| && UserMatches(us[found.value], k)
    ensures found.Some? ==> forall j | from <= j < found.value :: !UserMatches(us[j], k)
    ensures found.None? <==> forall j | from <= j < |us| :: !UserMatches(us[j], k)
    decreases |us| - from
  {
    if from == |us| then None
    else if UserMatches(us[from], k) then Some(from)
    else FindUserFrom(us, k, from + 1)
  }

  // ---------------------------------------------------------------------------
  // Signing in

  /** The body of a sign-in reply: the prompt for a name, or the signed-in user (the
      JWT is issued for `user`). */
  datatype Login =
    | NameRequired
    | LoggedIn(user: Id, name: string, phone: string, isVerified: bool, isNewUser: bool)

  /** `!user.firebaseUid`: no uid, or an empty one. */
  predicate Unlinked(uid: Option<string>) {
    uid.None? || uid.value == ""
  }

  /** The part both sign-in flows share, once the user was looked up: with no user
      and no name, ask for the name and create nothing; with no user, create one
      (500 if it does not save); otherwise link the uid if the user has none, and
      record the login. */
  function SignIn(d: Data, found: Option<Id>, phone: string, uid: Option<string>, name: string, now: Time): (o: Outcome<Login>)
    requires found.Some? ==> found.value < |d.users|
    ensures o.reply == Ok(200, NameRequired) <==> found.None? && name == ""
    ensures o.reply.Ok? && o.reply.value.NameRequired? ==> o.data == d
    ensures o.reply.Fail? ==> o.data == d && found.None? && NewUser(name, phone, uid, now).None?
    ensures o.reply.Ok? && o.reply.value.LoggedIn? && o.reply.value.isNewUser ==>
              found.None? && |o.data.users| == |d.users| + 1
              && NewUser(name, phone, uid, now) == Some(o.data.users[|d.users|])
              && o.data == d.(users := d.users + [o.data.users[|d.users|]])
    ensures found.Some? ==>
              var i, u := found.value, d.users[found.value];
              && o.reply.Ok? && o.reply.value == LoggedIn(i, u.name, u.phone, u.isVerified, false)
              && o.data == d.(users := o.data.users) && |o.data.users| == |d.users|
              && (forall j | 0 <= j < |d.users| && j != i :: o.data.users[j] == d.users[j])
              && o.data.users[i] == u.(firebaseUid := o.data.users[i].firebaseUid, lastLogin := Some(now))
              && o.data.users[i].firebaseUid == (if uid.Some? && Unlinked(u.firebaseUid) then uid else u.firebaseUid)
  {
    if found.None? then
      if name == "" then Outcome(d, Ok(200, NameRequired))
      else
        match NewUser(name, phone, uid, now)
        case None => Outcome(d, Fail(500, VERIFICATION_FAILED))
        case Some(u) => Outcome(d.(users := d.users + [u]), Ok(200, LoggedIn(|d.users|, u.name, u.phone, u.isVerified, true)))
    else
      var i := found.value;
      var u := d.users[i];
      var linked := if uid.Some? && Unlinked(u.firebaseUid) then u.(firebaseUid := uid) else u;
      var w := linked.(lastLogin := Some(now));
      Outcome(d.(users := d.users[i := w]), Ok(200, LoggedIn(i, w.name, w.phone, w.isVerified, false)))
  }

  /** Changing one user's fields other than its phone and uid keeps the database
      consistent. */
  lemma EditKeepsValid(d: Data, i: Id, w: UserRecord)
    requires Valid(d) && i < |d.users|
    requires w.phone == d.users[i].phone && w.firebaseUid == d.users[i].firebaseUid
    ensures Valid(d.(users := d.users[i := w]))
  {
    var e := d.(users := d.users[i := w]);
    forall j | 0 <= j < |e.vehicles| ensures VehicleFits(e, e.vehicles[j]) {
      assert VehicleFits(d, d.vehicles[j]);
    }
  }

  /** Signing in keeps phones and uids unique, given that the lookup found the user
      with that phone or uid, if any. */
  lemma SignInKeepsValid(d: Data, found: Option<Id>, phone: string, uid: Option<string>, name: string, now: Time)
    requires Valid(d)
    requires found.Some? ==> found.value < |d.users|
    requires found.None? ==> forall j | 0 <= j < |d.users| :: d.users[j].phone != phone
    requires found.None? && uid.Some? ==> forall j | 0 <= j < |d.users| :: d.users[j].firebaseUid != uid
    requires found.Some? && uid.Some? ==> forall j | 0 <= j < |d.users| && j != found.value :: d.users[j].firebaseUid != uid
    ensures Valid(SignIn(d, found, phone, uid, name, now).data)
  {
    if found.Some? {
      SignInFoundKeepsValid(d, found.value, phone, uid, name, now);
    } else if name != "" && NewUser(name, phone, uid, now).Some? {
      var u := NewUser(name, phone, uid, now).value;
      assert SignIn(d, found, phone, uid, name, now).data == d.(users := d.users + [u]);
      AppendUserKeepsValid(d, u);
    }
  }

  /** The returning user: its uid linked if it had none, its login recorded. */
  lemma SignInFoundKeepsValid(d: Data, i: Id, phone: string, uid: Option<string>, name: string, now: Time)
    requires Valid(d) && i < |d.users|
    requires uid.Some? ==> forall j | 0 <= j < |d.users| && j != i :: d.users[j].firebaseUid != uid
    ensures Valid(SignIn(d, Some(i), phone, uid, name, now).data)
  {
    var u := d.users[i];
    var linked := if uid.Some? && Unlinked(u.firebaseUid) then u.(firebaseUid := uid) else u;
    var w := linked.(lastLogin := Some(now));
    assert SignIn(d, Some(i), phone, uid, name, now).data == d.(users := d.users[i := w]);
    if w.firebaseUid == u.firebaseUid {
      EditKeepsValid(d, i, w);
    } else {
      LinkKeepsValid(d, i, w);
    }
  }

  /** A new user whose phone and uid no user carries keeps the database consistent. */
  lemma AppendUserKeepsValid(d: Data, u: UserRecord)
    requires Valid(d)
    requires forall j | 0 <= j < |d.users| :: d.users[j].phone != u.phone
    requires u.firebaseUid.Some? ==> forall j | 0 <= j < |d.users| :: d.users[j].firebaseUid != u.firebaseUid
    ensures Valid(d.(users := d.users + [u]))
  {
    var e := d.(users := d.users + [u]);
    forall j | 0 <= j < |e.vehicles| ensures VehicleFits(e, e.vehicles[j]) {
      assert VehicleFits(d, d.vehicles[j]);
    }
  }

  /** Giving one user a uid no other user carries keeps the database consistent. */
  lemma LinkKeepsValid(d: Data, i: Id, w: UserRecord)
    requires Valid(d) && i < |d.users| && w.phone == d.users[i].phone
    requires w.firebaseUid.Some? ==> forall j | 0 <= j < |d.users| && j != i :: d.users[j].firebaseUid != w.firebaseUid
    ensures Valid(d.(users := d.users[i := w]))
  {
    var e := d.(users := d.users[i := w]);
    var us := e.users;
    assert PhonesUnique(us) by {
      forall a, b | 0 <= a < b < |us| ensures us[a].phone != us[b].phone {
        assert d.users[a].phone != d.users[b].phone;
      }
    }
    assert UidsUnique(us) by {
      forall a, b | 0 <= a < b < |us| && us[a].firebaseUid.Some? ensures us[a].firebaseUid != us[b].firebaseUid {
        if a != i && b != i {
          assert d.users[a].firebaseUid != d.users[b].firebaseUid;
        }
      }
    }
    forall j | 0 <= j < |e.vehicles| ensures VehicleFits(e, e.vehicles[j]) {
      assert VehicleFits(d, d.vehicles[j]);
    }
  }

  /** The sign-in steps on the database: create the user, or load, update and save it. */
  method SignInOn(db: Db, found: Option<Id>, phone: string, uid: Option<string>, name: string, now: Time)
    returns (reply: Reply<Login>)
    requires found.Some? ==> found.value < |db.users|
    modifies db
    ensures Outcome(db.Snapshot(), reply) == SignIn(old(db.Snapshot()), found, phone, uid, name, now)
  {
    if found.None? {
      if name == "" {
        return Ok(200, NameRequired);
      }
      var created := NewUser(name, phone, uid, now);
      if created.None? {
        return Fail(500, VERIFICATION_FAILED);
      }
      var u := created.value;
      assert SignIn(db.Snapshot(), found, phone, uid, name, now)
          == Outcome(db.Snapshot().(users := db.users + [u]), Ok(200, LoggedIn(|db.users|, u.name, u.phone, u.isVerified, true)));
      db.users := db.users + [u];
      return Ok(200, LoggedIn(|db.users| - 1, u.name, u.phone, u.isVerified, true));
    }
    var i := found.value;
    ghost var before := db.Snapshot();
    ghost var u := db.users[i];
    ghost var w := (if uid.Some? && Unlinked(u.firebaseUid) then u.(firebaseUid := uid) else u).(lastLogin := Some(now));
    assert SignIn(before, found, phone, uid, name, now)
        == Outcome(before.(users := before.users[i := w]), Ok(200, LoggedIn(i, w.name, w.phone, w.isVerified, false)));
    var user := new UserDocument.Load(db.users[i]);
    if uid.Some? && Unlinked(user.firebaseUid) {
      user.firebaseUid := uid;
    }
    user.lastLogin := Some(now);
    assert user.Record() == w;
    db.users := db.users[i := user.Record()];
    reply := Ok(200, LoggedIn(i, user.name, user.phone, user.isVerified, false));
  }

  /** `POST /mock-send-otp`: validates the phone; no message is sent. */
  function MockSendOtp(phone: string): (r: Reply<string>)
    ensures r.Ok? <==> PhonePattern(Trim(phone))
    ensures r.Ok? ==> r == Ok(200, MOCK_OTP_SENT)
  {
    var errs := PhoneErrors(phone);
    if errs != [] then Invalid(errs) else Ok(200, MOCK_OTP_SENT)
  }

  /** `POST /mock-verify`: any numeric OTP is accepted; the user is looked up by the
      trimmed phone. */
  function MockVerify(d: Data, phone: string, otp: string, name: string, now: Time): (o: Outcome<Login>)
    ensures o.reply.Invalid? <==> PhoneErrors(phone) + OtpErrors(otp) != []
    ensures o.reply.Invalid? ==> o.data == d && o.reply.details == PhoneErrors(phone) + OtpErrors(otp)
  {
    var errs := PhoneErrors(phone) + OtpErrors(otp);
    if errs != [] then Outcome(d, Invalid(errs))
    else
      var p := Trim(phone);
      SignIn(d, FindUser(d.users, ByPhone(p)), p, None, name, now)
  }

  method MockVerifyOn(db: Db, phone: string, otp: string, name: string, now: Time) returns (reply: Reply<Login>)
    modifies db
    ensures Outcome(db.Snapshot(), reply) == MockVerify(old(db.Snapshot()), phone, otp, name, now)
  {
    var errs := PhoneErrors(phone) + OtpErrors(otp);
    if errs != [] {
      return Invalid(errs);
    }
    var p := Trim(phone);
    var user := FindUser(db.users, ByPhone(p));
    reply := SignInOn(db, user, p, None, name, now);
  }

  /** An unknown phone without a name gets the name prompt and creates nothing. */
  lemma MockUnknownWithoutName(d: Data, phone: string, otp: string, now: Time)
    requires PhoneErrors(phone) + OtpErrors(otp) == []
    requires forall j | 0 <= j < |d.users| :: d.users[j].phone != Trim(phone)
    ensures MockVerify(d, phone, otp, "", now) == Outcome(d, Ok(200, NameRequired))
  {
  }

  lemma MockVerifyKeepsValid(d: Data, phone: string, otp: string, name: string, now: Time)
    requires Valid(d)
    ensures Valid(MockVerify(d, phone, otp, name, now).data)
  {
    if PhoneErrors(phone) + OtpErrors(otp) == [] {
      var p := Trim(phone);
      SignInKeepsValid(d, FindUser(d.users, ByPhone(p)), p, None, name, now);
    }
  }

  /** What the Firebase SDK's `verifyIdToken` gave: the decoded token, or the code of
      the error it threw. */
  datatype TokenCheck = Decoded(uid: string, phoneNumber: Option<string>) | Refused(code: string)

  /** `phoneNumber.replace(/^\+91/, '')`. */
  function StripCountryCode(s: string): (r: string)
    ensures |s| >= 3 && s[..3] == COUNTRY_CODE ==> s == COUNTRY_CODE + r
    ensures !(|s| >= 3 && s[..3] == COUNTRY_CODE) ==> r == s
  {
    if |s| >= 3 && s[..3] == COUNTRY_CODE then s[3..] else s
  }

  /** Only the leading country code goes: an Indian number with or without it comes
      out as the bare ten digits. */
  lemma StripLeadingOnly(n: string)
    requires PhonePattern(n)
    ensures StripCountryCode(COUNTRY_CODE + n) == n
    ensures StripCountryCode(n) == n
  {
    assert (COUNTRY_CODE + n)[..3] == COUNTRY_CODE;
    assert n[..3][0] == n[0];
  }

  /** The reply to a refused token, by its error code. */
  function Refusal(code: string): (r: Reply<Login>)
    ensures r.Fail?
    ensures r.status == 401 <==> code in {"auth/id-token-expired", "auth/argument-error", "auth/id-token-revoked"}
    ensures r.status != 401 ==> r == Fail(500, VERIFICATION_FAILED)
  {
    if code == "auth/id-token-expired" then Fail(401, TOKEN_EXPIRED)
    else if code == "auth/argument-error" || code == "auth/id-token-revoked" then Fail(401, TOKEN_INVALID)
    else Fail(500, VERIFICATION_FAILED)
  }

  /** The user a Firebase sign-in finds: by uid first, then by phone. */
  function FirebaseUser(us: seq<UserRecord>, uid: string, phone: string): (found: Option<Id>)
    ensures found.Some? ==> found.value < |us|
    ensures found.None? <==> forall j | 0 <= j < |us| :: us[j].firebaseUid != Some(uid) && us[j].phone != phone
    ensures found.Some? && us[found.value].firebaseUid != Some(uid) ==>
              us[found.value].phone == phone && forall j | 0 <= j < |us| :: us[j].firebaseUid != Some(uid)
  {
    var byUid := FindUser(us, ByUid(uid));
    if byUid.Some? then byUid else FindUser(us, ByPhone(phone))
  }

  /** `POST /firebase-verify`. */
  function FirebaseVerify(d: Data, idToken: string, name: string, check: TokenCheck, now: Time): (o: Outcome<Login>)
    ensures o.reply.Invalid? <==> idToken == ""
    ensures !o.reply.Ok? ==> o.data == d
    ensures o.reply.Ok? ==> check.Decoded? && check.phoneNumber.Some? && check.phoneNumber.value != ""
  {
    var errs := RequiredErrors(idToken, "idToken", ID_TOKEN_REQUIRED, false);
    if errs != [] then Outcome(d, Invalid(errs))
    else
      match check
      case Refused(code) => Outcome(d, Refusal(code))
      case Decoded(uid, phoneNumber) =>
        if phoneNumber.None? || phoneNumber.value == "" then Outcome(d, Fail(400, NO_PHONE))
        else
          var phone := StripCountryCode(phoneNumber.value);
          SignIn(d, FirebaseUser(d.users, uid, phone), phone, Some(uid), name, now)
  }

  method FirebaseVerifyOn(db: Db, idToken: string, name: string, check: TokenCheck, now: Time) returns (reply: Reply<Login>)
    modifies db
    ensures Outcome(db.Snapshot(), reply) == FirebaseVerify(old(db.Snapshot()), idToken, name, check, now)
  {
    var errs := RequiredErrors(idToken, "idToken", ID_TOKEN_REQUIRED, false);
    if errs != [] {
      return Invalid(errs);
    }
    if check.Refused? {
      return Refusal(check.code);
    }
    if check.phoneNumber.None? || check.phoneNumber.value == "" {
      return Fail(400, NO_PHONE);
    }
    var phone := StripCountryCode(check.phoneNumber.value);
    var user := FindUser(db.users, ByUid(check.uid));
    if user.None? {
      user := FindUser(db.users, ByPhone(phone));
    }
    reply := SignInOn(db, user, phone, Some(check.uid), name, now);
  }

  /** A Firebase sign-in of a user nobody knows by uid or phone, without a name, gets
      the name prompt and creates nothing. */
  lemma FirebaseUnknownWithoutName(d: Data, idToken: string, uid: string, phoneNumber: string, now: Time)
    requires idToken != "" && phoneNumber != ""
    requires forall j | 0 <= j < |d.users| :: d.users[j].firebaseUid != Some(uid) && d.users[j].phone != StripCountryCode(phoneNumber)
    ensures FirebaseVerify(d, idToken, "", Decoded(uid, Some(phoneNumber)), now) == Outcome(d, Ok(200, NameRequired))
  {
  }

  /** A known user's uid is linked only when the user has none: a user already linked
      to another uid keeps it. */
  lemma FirebaseLinksOnlyUnlinked(d: Data, idToken: string, name: string, uid: string, phoneNumber: string, now: Time, i: Id)
    requires idToken != "" && phoneNumber != "" && i < |d.users|
    requires FirebaseUser(d.users, uid, StripCountryCode(phoneNumber)) == Some(i)
    ensures var o := FirebaseVerify(d, idToken, name, Decoded(uid, Some(phoneNumber)), now);
      && o.reply == Ok(200, LoggedIn(i, d.users[i].name, d.users[i].phone, d.users[i].isVerified, false))
      && o.data.users[i].firebaseUid == (if Unlinked(d.users[i].firebaseUid) then Some(uid) else d.users[i].firebaseUid)
      && o.data.users[i].lastLogin == Some(now)
  {
  }

  lemma FirebaseVerifyKeepsValid(d: Data, idToken: string, name: string, check: TokenCheck, now: Time)
    requires Valid(d)
    ensures Valid(FirebaseVerify(d, idToken, name, check, now).data)
  {
    if idToken != "" && check.Decoded? && check.phoneNumber.Some? && check.phoneNumber.value != "" {
      var phone := StripCountryCode(check.phoneNumber.value);
      var found := FirebaseUser(d.users, check.uid, phone);
      if found.Some? && d.users[found.value].firebaseUid == Some(check.uid) {
        forall j | 0 <= j < |d.users| && j != found.value ensures d.users[j].firebaseUid != Some(check.uid) {
          if j < found.value {
            assert d.users[j].firebaseUid != d.users[found.value].firebaseUid;
          } else {
            assert d.users[found.value].firebaseUid != d.users[j].firebaseUid;
          }
        }
      }
      SignInKeepsValid(d, found, phone, Some(check.uid), name, now);
    }
  }

  // ---------------------------------------------------------------------------
  // The caller's account

  /** The body of `GET /me`. */
  datatype Me = Me(id: Id, name: string, phone: string, isVerified: bool, role: Role,
                   hasEmergencyContact: bool, emergencyContactName: Option<string>)

  /** `GET /me`: an empty contact name reads as null. */
  function GetMe(d: Data, me: Id): (r: Me)
    requires me < |d.users|
    ensures r.hasEmergencyContact <==> d.users[me].emergencyContact.Some?
    ensures r.emergencyContactName.Some? ==> r.hasEmergencyContact && r.emergencyContactName.value != ""
  {
    var u := d.users[me];
    Me(me, u.name, u.phone, u.isVerified, u.role, u.emergencyContact.Some?,
       if u.emergencyContact.Some? && u.emergencyContact.value.name != "" then Some(u.emergencyContact.value.name) else None)
  }

  /** The body of a profile reply. */
  datatype Account = Account(id: Id, name: string, phone: string)

  /** `PUT /profile`: sets the trimmed name. Its save cannot throw: a name that passes
      the validator fits the schema (lemma ValidatedNameSaves). */
  function UpdateProfile(d: Data, me: Id, name: string): (o: Outcome<Account>)
    requires me < |d.users|
    ensures o.reply.Invalid? <==> NameErrors(name) != []
    ensures o.reply.Invalid? ==> o.data == d
    ensures o.reply.Ok? ==> o.reply.value == Account(me, Trim(name), d.users[me].phone)
  {
    var errs := NameErrors(name);
    if errs != [] then Outcome(d, Invalid(errs))
    else
      var u := d.users[me];
      Outcome(d.(users := d.users[me := u.(name := Trim(name))]), Ok(200, Account(me, Trim(name), u.phone)))
  }

  /** A validated name saves: it is non-empty, already trimmed, and its letters and
      spaces each count once in JavaScript `length`. */
  lemma ValidatedNameSaves(name: string)
    requires NameErrors(name) == []
    ensures UserNameSaves(Trim(name))
  {
    var t := Trim(name);
    assert 2 <= |t| <= 100 && forall i | 0 <= i < |t| :: IsAsciiLetter(t[i]) || IsSpace(t[i]);
    forall i | 0 <= i < |t| ensures t[i] as int <= 0xFFFF && t[i] != '\U{FE0E}' && t[i] != '\U{FE0F}' {
      LetterOrSpacePlain(t[i]);
    }
    PlainLengths(t);
    TrimIdempotent(name);
  }

  lemma LetterOrSpacePlain(c: char)
    requires IsAsciiLetter(c) || IsSpace(c)
    ensures c as int <= 0xFFFF && c != '\U{FE0E}' && c != '\U{FE0F}'
  {
  }

  /** The profile update changes the caller's name and nothing else. */
  lemma ProfileChangesOnlyName(d: Data, me: Id, name: string)
    requires me < |d.users| && UpdateProfile(d, me, name).reply.Ok?
    ensures var o := UpdateProfile(d, me, name);
      && o.data == d.(users := o.data.users) && |o.data.users| == |d.users|
      && (forall j | 0 <= j < |d.users| && j != me :: o.data.users[j] == d.users[j])
      && o.data.users[me] == d.users[me].(name := Trim(name))
  {
  }

  /** The stored name is already trimmed and passes the validator again. */
  lemma StoredNameRevalidates(name: string)
    requires NameErrors(name) == []
    ensures Trim(Trim(name)) == Trim(name) && NameErrors(Trim(name)) == []
  {
    TrimIdempotent(name);
  }

  method UpdateProfileOn(db: Db, me: Id, name: string) returns (reply: Reply<Account>)
    requires me < |db.users|
    modifies db
    ensures Outcome(db.Snapshot(), reply) == UpdateProfile(old(db.Snapshot()), me, name)
  {
    var errs := NameErrors(name);
    if errs != [] {
      return Invalid(errs);
    }
    var user := new UserDocument.Load(db.users[me]);
    user.name := Trim(name);
    db.users := db.users[me := user.Record()];
    reply := Ok(200, Account(me, user.name, user.phone));
  }

  lemma ProfileKeepsValid(d: Data, me: Id, name: string)
    requires Valid(d) && me < |d.users|
    ensures Valid(UpdateProfile(d, me, name).data)
  {
    if NameErrors(name) == [] {
      EditKeepsValid(d, me, d.users[me].(name := Trim(name)));
    }
  }

  // ---------------------------------------------------------------------------
  // The emergency contact

  /** The body of a contact reply. */
  datatype ContactReply = ContactReply(name: string, maskedPhone: string)

  /** The two chains of `PUT /emergency-contact`: the trimmed name 2 to 100 long for
      `isLength`, the trimmed phone an Indian mobile number. */
  function ContactErrors(name: string, phone: string): (errs: seq<FieldError>)
    ensures errs == [] <==> 2 <= ValidatorLength(Trim(name)) <= 100 && PhonePattern(Trim(phone))
  {
    Check(IsLength(Trim(name), Some(2), Some(100)), "name", NAME_LENGTH_MESSAGE) + PhoneErrors(phone)
  }

  /** `PUT /emergency-contact`: stores the trimmed name and phone; the save throws
      when the name is over 100 JavaScript characters long (the schema's
      `maxlength`). The reply masks the phone. */
  function SetContact(d: Data, me: Id, name: string, phone: string): (o: Outcome<ContactReply>)
    requires me < |d.users|
    ensures o.data == d.(users := o.data.users)
    ensures o.reply.Invalid? <==> ContactErrors(name, phone) != []
    ensures !o.reply.Ok? ==> o.data == d
    ensures o.reply.Ok? ==>
              && JsLength(Trim(name)) <= 100
              && o.data.users == d.users[me := d.users[me].(emergencyContact := Some(EmergencyContact(Trim(name), Trim(phone))))]
              && o.reply.value == ContactReply(Trim(name), "+91 " + Mask(Trim(phone)))
  {
    var errs := ContactErrors(name, phone);
    if errs != [] then Outcome(d, Invalid(errs))
    else
      var n, p := Trim(name), Trim(phone);
      if JsLength(n) > 100 then Outcome(d, Fail(500, CONTACT_FAILED))
      else
        var u := d.users[me];
        Outcome(d.(users := d.users[me := u.(emergencyContact := Some(EmergencyContact(n, p)))]),
                Ok(200, ContactReply(n, "+91 " + Mask(p))))
  }

  /** The reply shows '+91 ', the first two digits, four stars and the last two. */
  lemma ContactReplyMasked(d: Data, me: Id, name: string, phone: string)
    requires me < |d.users|
    requires SetContact(d, me, name, phone).reply.Ok?
    ensures var m := SetContact(d, me, name, phone).reply.value.maskedPhone;
      var p := Trim(phone);
      && |p| == 10 && |m| == 12 && m[..4] == "+91 " && m[4..6] == p[..2] && m[6..10] == "****" && m[10..] == p[8..]
  {
    var o := SetContact(d, me, name, phone);
    assert ContactErrors(name, phone) == [];
    assert o.reply.value.maskedPhone == "+91 " + Mask(Trim(phone));
    MaskedPhoneShape(Trim(phone));
  }

  lemma MaskedPhoneShape(p: string)
    requires PhonePattern(p)
    ensures var m := "+91 " + Mask(p);
      && |m| == 12 && m[..4] == "+91 " && m[4..6] == p[..2] && m[6..10] == "****" && m[10..] == p[8..]
  {
    var k := Mask(p);
    var m := "+91 " + k;
    assert m[4..6] == k[..2] && m[6..10] == k[2..6] && m[10..] == k[6..];
  }

  method SetContactOn(db: Db, me: Id, name: string, phone: string) returns (reply: Reply<ContactReply>)
    requires me < |db.users|
    modifies db
    ensures Outcome(db.Snapshot(), reply) == SetContact(old(db.Snapshot()), me, name, phone)
  {
    ghost var before := db.Snapshot();
    var errs := ContactErrors(name, phone);
    if errs != [] {
      assert SetContact(before, me, name, phone) == Outcome(before, Invalid(errs));
      return Invalid(errs);
    }
    var n, p := Trim(name), Trim(phone);
    if JsLength(n) > 100 {
      assert SetContact(before, me, name, phone) == Outcome(before, Fail(500, CONTACT_FAILED));
      return Fail(500, CONTACT_FAILED);
    }
    ghost var w := before.users[me].(emergencyContact := Some(EmergencyContact(n, p)));
    assert SetContact(before, me, name, phone)
        == Outcome(before.(users := before.users[me := w]), Ok(200, ContactReply(n, "+91 " + Mask(p))));
    var user := new UserDocument.Load(db.users[me]);
    user.emergencyContact := Some(EmergencyContact(n, p));
    assert user.Record() == w;
    db.users := db.users[me := user.Record()];
    reply := Ok(200, ContactReply(n, "+91 " + Mask(p)));
  }

  /** `DELETE /emergency-contact`. */
  function ClearContact(d: Data, me: Id): (o: Outcome<string>)
    requires me < |d.users|
    ensures o.data == d.(users := o.data.users)
    ensures o.reply == Ok(200, CONTACT_REMOVED)
    ensures o.data.users == d.users[me := d.users[me].(emergencyContact := None)]
  {
    var u := d.users[me];
    Outcome(d.(users := d.users[me := u.(emergencyContact := None)]), Ok(200, CONTACT_REMOVED))
  }

  method ClearContactOn(db: Db, me: Id) returns (reply: Reply<string>)
    requires me < |db.users|
    modifies db
    ensures Outcome(db.Snapshot(), reply) == ClearContact(old(db.Snapshot()), me)
  {
    var user := new UserDocument.Load(db.users[me]);
    user.emergencyContact := None;
    db.users := db.users[me := user.Record()];
    reply := Ok(200, CONTACT_REMOVED);
  }

  /** What `/me` reports follows the contact: a saved contact shows with its name,
      a removed one is gone. */
  lemma ContactShownByMe(d: Data, me: Id, name: string, phone: string)
    requires me < |d.users|
    ensures var o := SetContact(d, me, name, phone);
      o.reply.Ok? ==> GetMe(o.data, me).hasEmergencyContact && GetMe(o.data, me).emergencyContactName == Some(Trim(name))
    ensures var me' := GetMe(ClearContact(d, me).data, me);
      !me'.hasEmergencyContact && me'.emergencyContactName.None?
  {
    var o := SetContact(d, me, name, phone);
    if o.reply.Ok? {
      assert ValidatorLength(Trim(name)) >= 2;
      assert o.data.users[me].emergencyContact == Some(EmergencyContact(Trim(name), Trim(phone)));
    }
    var c := ClearContact(d, me);
    assert c.data.users[me].emergencyContact == None;
  }

  lemma ContactKeepsValid(d: Data, me: Id, name: string, phone: string)
    requires Valid(d) && me < |d.users|
    ensures Valid(SetContact(d, me, name, phone).data)
    ensures Valid(ClearContact(d, me).data)
  {
    var u := d.users[me];
    if SetContact(d, me, name, phone).reply.Ok? {
      EditKeepsValid(d, me, u.(emergencyContact := Some(EmergencyContact(Trim(name), Trim(phone)))));
    }
    EditKeepsValid(d, me, u.(emergencyContact := None));
  }

  /** The contact check with the name measured as the schema measures it. */
  function ContactErrorsCorrected(name: string, phone: string): (errs: seq<FieldError>)
    ensures errs == [] <==> 2 <= ValidatorLength(Trim(name)) && JsLength(Trim(name)) <= 100 && PhonePattern(Trim(phone))
  {
    var n := Trim(name);
    Check(IsLength(n, Some(2), None) && JsLength(n) <= 100, "name", NAME_LENGTH_MESSAGE) + PhoneErrors(phone)
  }

  /** `PUT /emergency-contact` with the corrected check: whatever passes it is saved. */
  function SetContactCorrected(d: Data, me: Id, name: string, phone: string): (o: Outcome<ContactReply>)
    requires me < |d.users|
    ensures o.reply.Invalid? <==> ContactErrorsCorrected(name, phone) != []
    ensures !o.reply.Invalid? ==> o == SetContact(d, me, name, phone)
  {
    var errs := ContactErrorsCorrected(name, phone);
    if errs != [] then Outcome(d, Invalid(errs))
    else SetContact(d, me, name, phone)
  }

  /** The corrected route never answers 500: a contact that passes its check is
      saved. */
  lemma CorrectedContactSaves(d: Data, me: Id, name: string, phone: string)
    requires me < |d.users| && ContactErrorsCorrected(name, phone) == []
    ensures SetContactCorrected(d, me, name, phone).reply.Ok?
  {
    var n := Trim(name);
    assert ValidatorLength(n) <= JsLength(n) by { LengthsOrdered(n); }
  }

  /** `isLength` never counts more than JavaScript `length`. */
  lemma {:induction false} LengthsOrdered(s: string)
    ensures ValidatorLength(s) <= JsLength(s)
  {
    if s != [] {
      LengthsOrdered(s[1..]);
    }
  }

  /** The flaw in the contact route: a name of 60 copies of U+1F600 passes the check
      (60 for `isLength`) and fails the save (120 for `maxlength`), so the route
      answers 500 and changes nothing. */
  lemma ContactNameOverflow(d: Data, me: Id)
    requires me < |d.users|
    ensures ContactErrors(Wide(60), "9876543210") == []
    ensures SetContact(d, me, Wide(60), "9876543210") == Outcome(d, Fail(500, CONTACT_FAILED))
  {
    WideNameLengths();
    SamplePhone();
  }

  /** The corrected check refuses that name with 400. */
  lemma CorrectedRefusesWideName(d: Data, me: Id)
    requires me < |d.users|
    ensures SetContactCorrected(d, me, Wide(60), "9876543210").reply.Invalid?
  {
    WideNameLengths();
  }

  lemma WideNameLengths()
    ensures Trim(Wide(60)) == Wide(60) && ValidatorLength(Wide(60)) == 60 && JsLength(Wide(60)) == 120
  {
    WideLengths(60);
    TrimNoSpace(Wide(60));
  }

  lemma SamplePhone()
    ensures Trim("9876543210") == "9876543210" && PhonePattern("9876543210")
  {
    assert NoSpace("9876543210");
    TrimNoSpace("9876543210");
  }

  // ---------------------------------------------------------------------------
  // Push tokens

  /** The platform a validated `platform` string names. */
  function ParsePlatform(s: string): (p: Option<Platform>)
    ensures p.Some? <==> s in PLATFORMS
  {
    if s == "web" then Some(Web)
    else if s == "android" then Some(Android)
    else if s == "ios" then Some(Ios)
    else None
  }

  /** `platform = 'web'`: the platform of a validated request. */
  function PlatformOf(platform: Option<string>): (p: Platform)
    requires platform.None? || platform.value in PLATFORMS
    ensures platform.None? <==> p == Web && platform != Some("web")
  {
    if platform.None? then Web else ParsePlatform(platform.value).value
  }

  /** The chains of `POST /fcm-token`: a non-empty token, and an optional platform
      among the three. */
  function FcmTokenErrors(token: string, platform: Option<string>): (errs: seq<FieldError>)
    ensures errs == [] <==> token != "" && (platform.None? || platform.value in PLATFORMS)
  {
    RequiredErrors(token, "token", TOKEN_REQUIRED, false)
    + (if platform.None? then [] else Check(IsIn(platform.value, PLATFORMS), "platform", PLATFORM_MESSAGE))
  }

  /** The newest ten entries of a token list. */
  function Newest(ts: seq<FcmToken>): seq<FcmToken> {
    if |ts| > MAX_FCM_TOKENS then ts[|ts| - MAX_FCM_TOKENS..] else ts
  }

  /** The token list after registering `e`: its token removed, `e` appended, and only
      the newest ten kept. */
  function Registered(ts: seq<FcmToken>, e: FcmToken): (r: seq<FcmToken>)
    ensures 0 < |r| <= MAX_FCM_TOKENS && r[|r| - 1] == e
    ensures forall i | 0 <= i < |r| - 1 :: r[i].token != e.token
    ensures var kept := Prune(ts, {e.token});
      && |r| - 1 == (if |kept| < MAX_FCM_TOKENS then |kept| else MAX_FCM_TOKENS - 1)
      && r[..|r| - 1] == kept[|kept| - (|r| - 1)..]
  {
    RegisteredShape(ts, e);
    Newest(Prune(ts, {e.token}) + [e])
  }

  lemma RegisteredShape(ts: seq<FcmToken>, e: FcmToken)
    ensures var kept := Prune(ts, {e.token});
      var r := Newest(kept + [e]);
      && 0 < |r| <= MAX_FCM_TOKENS && r[|r| - 1] == e
      && (forall i | 0 <= i < |r| - 1 :: r[i].token != e.token)
      && |r| - 1 == (if |kept| < MAX_FCM_TOKENS then |kept| else MAX_FCM_TOKENS - 1)
      && r[..|r| - 1] == kept[|kept| - (|r| - 1)..]
  {
    var kept := Prune(ts, {e.token});
    assert forall x | x in kept :: x.token != e.token;
    CappedShape(kept, e);
  }

  /** Appending to a list and keeping its newest ten leaves the newest entries of
      the list before the appended one. */
  lemma CappedShape(pruned: seq<FcmToken>, e: FcmToken)
    requires forall x | x in pruned :: x.token != e.token
    ensures var r := Newest(pruned + [e]);
      && 0 < |r| <= MAX_FCM_TOKENS && r[|r| - 1] == e
      && (forall i | 0 <= i < |r| - 1 :: r[i].token != e.token)
      && |r| - 1 == (if |pruned| < MAX_FCM_TOKENS then |pruned| else MAX_FCM_TOKENS - 1)
      && r[..|r| - 1] == pruned[|pruned| - (|r| - 1)..]
  {
    var kept := pruned + [e];
    var r := if |kept| > MAX_FCM_TOKENS then kept[|kept| - MAX_FCM_TOKENS..] else kept;
    var k := |kept| - |r|;
    assert r == pruned[k..] + [e] by {
      if |kept| > MAX_FCM_TOKENS {
        assert kept[k..] == pruned[k..] + [e];
      }
    }
    assert r[..|r| - 1] == pruned[k..];
    assert forall i | 0 <= i < |r| - 1 :: r[i] == pruned[k + i];
    assert forall i | 0 <= i < |r| - 1 :: r[i] in pruned;
  }

  /** `POST /fcm-token`; `platform` defaults to web, the entry's `createdAt` is now. */
  function RegisterFcmToken(d: Data, me: Id, token: string, platform: Option<string>, now: Time): (o: Outcome<string>)
    requires me < |d.users|
    ensures o.data == d.(users := o.data.users)
    ensures o.reply.Invalid? <==> FcmTokenErrors(token, platform) != []
    ensures o.reply.Invalid? ==> o.data == d
    ensures o.reply.Ok? ==>
              && o.reply == Ok(200, TOKEN_REGISTERED)
              && o.data.users == d.users[me := d.users[me].(fcmTokens := Registered(d.users[me].fcmTokens, FcmToken(token, PlatformOf(platform), now)))]
  {
    var errs := FcmTokenErrors(token, platform);
    if errs != [] then Outcome(d, Invalid(errs))
    else
      var u := d.users[me];
      Outcome(d.(users := d.users[me := u.(fcmTokens := Registered(u.fcmTokens, FcmToken(token, PlatformOf(platform), now)))]),
              Ok(200, TOKEN_REGISTERED))
  }

  method RegisterFcmTokenOn(db: Db, me: Id, token: string, platform: Option<string>, now: Time) returns (reply: Reply<string>)
    requires me < |db.users|
    modifies db
    ensures Outcome(db.Snapshot(), reply) == RegisterFcmToken(old(db.Snapshot()), me, token, platform, now)
  {
    ghost var before := db.Snapshot();
    var errs := FcmTokenErrors(token, platform);
    if errs != [] {
      assert RegisterFcmToken(before, me, token, platform, now) == Outcome(before, Invalid(errs));
      return Invalid(errs);
    }
    var p := PlatformOf(platform);
    ghost var w := before.users[me].(fcmTokens := Registered(before.users[me].fcmTokens, FcmToken(token, p, now)));
    assert RegisterFcmToken(before, me, token, platform, now)
        == Outcome(before.(users := before.users[me := w]), Ok(200, TOKEN_REGISTERED));
    var user := new UserDocument.Load(db.users[me]);
    user.fcmTokens := Prune(user.fcmTokens, {token});
    user.fcmTokens := user.fcmTokens + [FcmToken(token, p, now)];
    if |user.fcmTokens| > MAX_FCM_TOKENS {
      user.fcmTokens := user.fcmTokens[|user.fcmTokens| - MAX_FCM_TOKENS..];
    }
    assert user.fcmTokens == Registered(before.users[me].fcmTokens, FcmToken(token, p, now));
    assert user.Record() == w;
    db.users := db.users[me := user.Record()];
    reply := Ok(200, TOKEN_REGISTERED);
  }

  /** `DELETE /fcm-token`. */
  function RemoveFcmToken(d: Data, me: Id, token: string): (o: Outcome<string>)
    requires me < |d.users|
    ensures o.data == d.(users := o.data.users)
    ensures o.reply.Invalid? <==> token == ""
    ensures o.reply.Invalid? ==> o.data == d
    ensures o.reply.Ok? ==>
              && o.reply == Ok(200, TOKEN_REMOVED)
              && o.data.users == d.users[me := d.users[me].(fcmTokens := Prune(d.users[me].fcmTokens, {token}))]
  {
    var errs := RequiredErrors(token, "token", TOKEN_REQUIRED, false);
    if errs != [] then Outcome(d, Invalid(errs))
    else
      var u := d.users[me];
      Outcome(d.(users := d.users[me := u.(fcmTokens := Prune(u.fcmTokens, {token}))]), Ok(200, TOKEN_REMOVED))
  }

  method RemoveFcmTokenOn(db: Db, me: Id, token: string) returns (reply: Reply<string>)
    requires me < |db.users|
    modifies db
    ensures Outcome(db.Snapshot(), reply) == RemoveFcmToken(old(db.Snapshot()), me, token)
  {
    var errs := RequiredErrors(token, "token", TOKEN_REQUIRED, false);
    if errs != [] {
      return Invalid(errs);
    }
    var user := new UserDocument.Load(db.users[me]);
    user.fcmTokens := Prune(user.fcmTokens, {token});
    db.users := db.users[me := user.Record()];
    reply := Ok(200, TOKEN_REMOVED);
  }

  /** Removing the token just registered leaves the other entries. */
  lemma PruneRegistered(ts: seq<FcmToken>, e: FcmToken)
    ensures var r := Registered(ts, e);
      Prune(r, {e.token}) == r[..|r| - 1]
  {
    var r := Registered(ts, e);
    var others := r[..|r| - 1];
    assert r == others + [e];
    PruneConcat(others, [e], {e.token});
    assert Prune([e], {e.token}) == [] by { assert [e][1..] == []; }
    forall i | 0 <= i < |others| ensures others[i].token !in {e.token} {
      assert others[i] == r[i];
    }
    PruneNothing(others, {e.token});
  }

  /** Removing a token after registering it leaves what removing it alone leaves,
      as long as the list held fewer than ten other tokens. */
  lemma RegisterThenRemove(ts: seq<FcmToken>, e: FcmToken)
    requires |Prune(ts, {e.token})| < MAX_FCM_TOKENS
    ensures Prune(Registered(ts, e), {e.token}) == Prune(ts, {e.token})
  {
    PruneRegistered(ts, e);
  }

  /** Registering a token again moves it to the end without growing the list. */
  lemma RegisterAgain(ts: seq<FcmToken>, e: FcmToken, e2: FcmToken)
    requires e2.token == e.token
    ensures var r := Registered(ts, e);
      Registered(r, e2) == r[..|r| - 1] + [e2]
  {
    var r := Registered(ts, e);
    PruneRegistered(ts, e);
    var r2 := Registered(r, e2);
    assert |r2| - 1 == |r| - 1;
  }

  lemma TokensKeepValid(d: Data, me: Id, token: string, platform: Option<string>, now: Time)
    requires Valid(d) && me < |d.users|
    ensures Valid(RegisterFcmToken(d, me, token, platform, now).data)
    ensures Valid(RemoveFcmToken(d, me, token).data)
  {
    var u := d.users[me];
    var o := RegisterFcmToken(d, me, token, platform, now);
    if o.reply.Ok? {
      EditKeepsValid(d, me, o.data.users[me]);
    }
    EditKeepsValid(d, me, u.(fcmTokens := Prune(u.fcmTokens, {token})));
  }
}
