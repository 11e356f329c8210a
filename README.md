# Vehicle platform core, modelled in Dafny

This project models the decision and state logic of the vehicle-contact backend.
An owner binds a printed QR sticker to a vehicle. A stranger who scans it, or types
the plate, can call, alert or reach the emergency contact of the owner. The
replies show a masked number, but the call and emergency-contact replies also
carry the full number as a `tel:` link.

What is modelled:
- **QR codes.** The lifecycle available, then activated with a PIN, then disabled;
  and batch generation with its collision filter.
- **Vehicles.** Register, update, soft delete, scan counting, and the
  "newest first" listing.
- **One-time passwords.** The `verify` state machine and `generate`.
- **Subscriptions.** The entitlement predicates, the plan catalogue, the my-plan
  expiry, and the order and payment checks.
- **Validators.** The request validators and `handleValidation`.
- **Auth routes.** Sign-in (mock and Firebase), profile, emergency contact, and
  push-token maintenance.
- **Push.** The invalid-token pruning after a multicast send.
- **Admin.** The statistics, the pagination arithmetic and the generate route.

How it is modelled:
- The database is an object (`Store.Db`) holding in-memory collections. Users and
  vehicles are sequences whose index is the document id, so insertion order is
  creation order. QR codes and subscriptions are maps.
- Each handler is a pure function from the database before to an `Outcome`: the
  database after, and the reply.
- A method performs the same steps on the `Db` object (load the document, assign
  its fields, write it back) and is proved to agree with the function.
- Lemmas then state what the source promises about the function: what changes,
  what does not, the error paths, and that the database invariant `Store.Valid` is
  kept. `Store.Valid` requires:
  - QR-code ids key the code map;
  - a vehicle's code exists and was activated by its owner;
  - no two vehicles share a code, and no two active vehicles share a plate;
  - phones are unique, and so are Firebase uids.
- Mongoose documents that a method changes in place are classes with `modifies`
  clauses: `Otp.OtpDocument`, `QrCodes.QrCodeDocument`,
  `Vehicles.VehicleDocument` and `Records.UserDocument`.
- The clock is a `now` parameter (milliseconds). Random draws are explicit input
  sequences. The results of the Firebase, Razorpay and FCM SDK calls are
  parameters.

Where the code and its descriptions disagree, the model follows the code:
- The QR alphabet has 33 symbols, not the 34 its comment claims.
- A vehicle registration can activate a code and then fail.
- The OTP and PIN chains do not check a length of six, because validator.js
  `isLength` has no `exactly` option.
- The emergency-contact route cannot log its own action.
- The call and emergency-contact routes describe their replies as masked
  (backend/src/routes/scan.js:208, 270, 414), yet both also return the full number as a
  `tel:+91` link (backend/src/routes/scan.js:278, 423). The model returns what the
  code returns.
- The unique index on a user's phone sits on the encrypted value. In the model,
  phone uniqueness is kept by the handlers, which look a phone up before they
  create a user.

## Model

| member | source | states |
|---|---|---|
| `Base.TrimStart` | backend/src/middleware/validators.js:19 | `trim` removes exactly the leading run of JavaScript `\s` characters: the result is a suffix that starts with a non-space and all that was dropped is whitespace |
| `Base.Trim` | backend/src/middleware/validators.js:19 | `trim()` is the leading-whitespace strip followed by the trailing one |
| `Base.TrimEnd` | backend/src/middleware/validators.js:19 | the same for the trailing run: a prefix ending in a non-space, only whitespace dropped |
| `Base.TrimNoSpace` | backend/src/middleware/validators.js:25 | `trim` leaves a string without whitespace unchanged |
| `Base.TrimKeepsTrimmedEdges` | backend/src/middleware/validators.js:33 | `trim` leaves a string alone when neither end is whitespace |
| `Base.TrimEdges` | backend/src/middleware/validators.js:47 | a trimmed value is empty or starts and ends with a non-space |
| `Base.TrimIdempotent` | backend/src/middleware/validators.js:61 | trimming twice is trimming once |
| `Base.ToUpper` | backend/src/middleware/validators.js:34 | `toUpperCase` keeps the length and maps each character to its ASCII upper case |
| `Base.SliceHead` | backend/src/routes/scan.js:272 | `slice(0, n)` is the prefix of length min(n, length) |
| `Base.SliceTail` | backend/src/routes/scan.js:416 | `slice(-n)` is the suffix of length min(n, length) |
| `Base.JsLength` | backend/src/models/User.js:40 | the JavaScript `length` that `maxlength` measures lies between the number of characters and twice that |
| `Base.ValidatorLength` | backend/src/middleware/validators.js:79 | the length `isLength` measures never exceeds the number of characters |
| `Base.PlainLengths` | backend/src/middleware/validators.js:26 | on BMP text without variation selectors both lengths equal the number of characters |
| `Base.ValidatorLengthPlain` | backend/src/middleware/validators.js:48 | without variation selectors `isLength` counts characters |
| `Base.WideLengths` | backend/src/models/ScanLog.js:41 | a string of astral characters counts twice for `maxlength` and once for `isLength`, and holds no whitespace |
| `Base.DecimalString` | backend/src/models/OTP.js:70 | `toString()` of a number is a non-empty run of digits |
| `Base.DecimalRoundTrip` | backend/src/models/OTP.js:70 | reading back the decimal string of a number gives the number |
| `Base.DecimalStringLength` | backend/src/models/OTP.js:70 | a number from 10^(k-1) to 10^k - 1 has exactly k digits |
| `Http.ValidationReply` | backend/src/middleware/validators.js:8-12 | a non-empty error list becomes the 400 'Validation failed' reply listing exactly those errors |
| `Masking.Mask` | backend/src/routes/scan.js:272 | for a phone of at least four characters the mask is its first two, four stars and its last two |
| `Masking.MaskRevealsOnlyEdges` | backend/src/routes/scan.js:416 | two phones that agree on their first two and last two characters have the same mask, so the mask reveals nothing else |
| `Subscriptions.DefaultSubscription` | backend/src/models/Subscription.js:10-19 | a created subscription is on the free plan, 'active', with no period end |
| `Subscriptions.EndsAfter` | backend/src/models/Subscription.js:44 | `currentPeriodEnd > now`, false when the period end is missing |
| `Subscriptions.IsActive` | backend/src/models/Subscription.js:43-45 | `isActive`: status 'active', a plan other than free, and a period end after now |
| `Subscriptions.HasCallAccess` | backend/src/models/Subscription.js:47-49 | `hasCallAccess`: `isActive` and on the premium plan |
| `Subscriptions.HasNotificationAccess` | backend/src/models/Subscription.js:51-53 | `hasNotificationAccess`: `isActive` and on the basic or premium plan |
| `Subscriptions.FreeNeverActive` | backend/src/models/Subscription.js:43-53 | a free subscription is never `isActive`, nor has call or notification access, whatever its status or dates |
| `Subscriptions.NotificationAccessIsActive` | backend/src/models/Subscription.js:51-53 | over the three-plan enum, notification access holds exactly when `isActive` does |
| `Subscriptions.CallAccessImpliesNotificationAccess` | backend/src/models/Subscription.js:47-53 | call access implies notification access, and is notification access on the premium plan |
| `Subscriptions.DefaultNotActive` | backend/src/models/Subscription.js:15-44 | the default subscription has status 'active' yet is not `isActive` |
| `Store.EmptyValid` | backend/src/models/Vehicle.js:11-16 | the empty database satisfies the store invariant |
| `Store.Valid` | backend/src/models/Vehicle.js:11-16 | the store invariant: codes keyed by their id, every vehicle fits its code, unique `qrCodeId`s, unique active plates, unique phones and Firebase uids, one subscription per existing user |
| `Store.VehicleFits` | backend/src/routes/vehicle.js:57-95 | a vehicle's owner and code exist, the owner activated the code, and the code is 'activated' while the vehicle is active and 'disabled' after deletion (vehicle.js:240-243) |
| `Store.QrCodeIdsUnique` | backend/src/models/Vehicle.js:11-16 | no two vehicles, active or not, share a `qrCodeId` |
| `Store.ActivePlatesUnique` | backend/src/routes/vehicle.js:64-73 | no two active vehicles carry the same plate |
| `Store.PhonesUnique` | backend/src/models/User.js:11-15 | no two users share a phone |
| `Store.UidsUnique` | backend/src/models/User.js:16-20 | no two users that have a Firebase uid share it |
| `Records.Prune` | backend/src/routes/auth.js:352 | `filter(t => !bad.includes(t.token))` keeps exactly the entries whose token is not in `bad` |
| `Records.PruneConcat` | backend/src/routes/auth.js:319 | filtering a concatenation filters each part |
| `Records.PruneKeepsOrder` | backend/src/utils/pushNotification.js:39-41 | filtering keeps the surviving entries in their relative order |
| `Records.PruneNothing` | backend/src/utils/pushNotification.js:40 | a list holding none of the tokens is left as it is |
| `Records.UserNameSaves` | backend/src/models/User.js:5-10 | a user's name passes the schema iff, trimmed, it is non-empty and at most 100 JavaScript units long |
| `Records.NewUser` | backend/src/routes/auth.js:159-164 | a new user is saved iff its trimmed name passes the schema and a phone is given; it is verified, active, a plain user, with the trimmed name, no contact and no tokens |
| `Records.ScanLogAllows` | backend/src/models/ScanLog.js:14-17 | the schema enum admits 'view', 'call' and 'alert', and not the emergency-contact action |
| `Records.CreateScanLog` | backend/src/models/ScanLog.js:14-18 | `ScanLog.create` succeeds iff the action is in the schema enum (and the alert message fits), storing the given fields |
| `Records.EmergencyRequestNotLoggable` | backend/src/routes/scan.js:390-396 | a scan log with the emergency-contact action can never be created |
| `Records.CreateScanLogCorrected` | backend/src/models/ScanLog.js:14-42 | with every handler action allowed, creation fails only on an over-long alert message, and agrees with the schema as written on its actions |
| `Records.NewNotification` | backend/src/models/Notification.js:3-33 | a new notification is unread and carries the given user, type and message |
| `Vehicles.VehicleTypeName` | backend/src/models/Vehicle.js:34-38 | every vehicle type names one of the five enum strings |
| `Vehicles.ParseVehicleType` | backend/src/middleware/validators.js:85 | a string names a type iff it is one of the five, and the type names it back |
| `Vehicles.VehicleTypeRoundTrip` | backend/src/models/Vehicle.js:36 | naming a type and parsing the name gives the type |
| `Vehicles.PlateSetter` | backend/src/models/Vehicle.js:4-9 | the plate as stored: upper-cased, then trimmed |
| `Vehicles.PlateSetterKeepsSanitized` | backend/src/models/Vehicle.js:4-10 | the schema's `uppercase` and `trim` setters store a validated plate unchanged |
| `Vehicles.NewVehicle` | backend/src/routes/vehicle.js:76-82 | a new vehicle is active with no scans, type 'car' unless given, the plate as the schema setters store it, the given code and owner, and the trimmed colour when given |
| `Vehicles.AfterScan` | backend/src/models/Vehicle.js:59-63 | `recordScan` raises `totalScans` by one, sets `lastScannedAt` to now and changes nothing else |
| `Vehicles.ScanAllCounts` | backend/src/models/Vehicle.js:60 | n scans raise `totalScans` by n, the last sets `lastScannedAt`, and nothing else changes |
| `Vehicles.ScanAll` | backend/src/models/Vehicle.js:59-63 | successive `recordScan` calls at the given times |
| `Vehicles.Matches` | backend/src/routes/scan.js:56-59 | a vehicle matches a lookup by its plate or by its QR id |
| `Vehicles.FindActive` | backend/src/routes/scan.js:137-140 | `findOne({ key, isActive: true })` returns the first active matching vehicle, and None iff there is none |
| `Vehicles.FindActiveFrom` | backend/src/routes/vehicle.js:64-67 | the same search from a given index on |
| `Vehicles.VehicleDocument.RecordScan` | backend/src/models/Vehicle.js:59-62 | the document after `recordScan` is `AfterScan` of the one before |
| `QrCodes.NewQrCode` | backend/src/models/QRCode.js:15-20 | an inserted code is 'available', never activated, with the given id, PIN and batch |
| `QrCodes.GetAvailable` | backend/src/models/QRCode.js:45-47 | `getAvailable` finds a code iff one with that id is 'available', and returns that code |
| `QrCodes.ActivateRecord` | backend/src/models/QRCode.js:50-62 | activation fails iff the PIN is wrong or the code is not available, with the PIN error first; on success only status, `activatedAt` and `activatedBy` change |
| `QrCodes.PinCheckedFirst` | backend/src/models/QRCode.js:51-53 | a wrong PIN on a disabled code reports the PIN error, not the status error |
| `QrCodes.ActivationSingleUse` | backend/src/models/QRCode.js:54-58 | after one successful activation every later one throws |
| `QrCodes.DisableCode` | backend/src/routes/vehicle.js:240-243 | `updateOne({ qrId }, { status: 'disabled' })` disables that code, keeps the id set and every other code |
| `QrCodes.QrCodeDocument.Activate` | backend/src/models/QRCode.js:50-61 | the method throws the error `ActivateRecord` gives and leaves the document, or stores the activated document |
| `Otp.VerifyStep` | backend/src/models/OTP.js:43-62 | past no guard nothing changes and the result is invalid; past all three `attempts` rises by one; the result is valid iff the guards pass and the code matches; only `attempts` and `isUsed` change |
| `Otp.UsedCodeRefused` | backend/src/models/OTP.js:44-46 | a used code returns 'OTP already used' and changes nothing |
| `Otp.AttemptsSpentRefused` | backend/src/models/OTP.js:47-49 | with the attempts spent, 'Maximum attempts exceeded' and no attempt counted |
| `Otp.ExpiredRefused` | backend/src/models/OTP.js:50-52 | an expired code returns 'OTP expired' and consumes no attempt |
| `Otp.ComparedOutcome` | backend/src/models/OTP.js:54-61 | past the guards one attempt is counted; a wrong code is 'Invalid OTP' and leaves the code unused, the right one is valid and marks it used |
| `Otp.SingleUse` | backend/src/models/OTP.js:60 | after a successful `verify` every later `verify` returns 'OTP already used' |
| `Otp.Run` | backend/src/models/OTP.js:43 | successive `verify` calls yield one result per call |
| `Otp.AttemptsBounded` | backend/src/models/OTP.js:47-54 | over any run `attempts` never exceeds `maxAttempts` and every comparison consumed exactly one attempt |
| `Otp.AtMostOneValid` | backend/src/models/OTP.js:44-61 | a document yields at most one valid result over any run, none if already used |
| `Otp.NewOtp` | backend/src/models/OTP.js:73-78 | a generated document starts at 0 of 3 attempts, unused, and expires 600000 ms after now |
| `Otp.FreshOtpComparisons` | backend/src/models/OTP.js:18-25 | from a fresh document at most three codes are ever compared and `attempts` stays at most 3 |
| `Otp.OtpCode` | backend/src/models/OTP.js:70 | the generated code is six digits denoting a number from 100000 to 999999 |
| `Otp.OtpDocument.Verify` | backend/src/models/OTP.js:43-62 | the method's new state and result are exactly `VerifyStep` of the old state |
| `Otp.WithoutPair` | backend/src/models/OTP.js:67 | `deleteMany({ phone, purpose })` keeps exactly the documents of other pairs |
| `Otp.WithoutPairCount` | backend/src/models/OTP.js:66-67 | after the delete no document of the pair is left |
| `Otp.OtpCollection.Generate` | backend/src/models/OTP.js:65-81 | `generate` deletes the pair's documents; it then fails (None) iff the phone is empty, which the schema's `required` refuses; otherwise it appends one fresh document for the purpose (default 'login') and returns its code |
| `Otp.GenerateLeavesOne` | backend/src/models/OTP.js:73-78 | after `generate` the pair has exactly one document, the fresh one, and every other document is kept |
| `QrIdGen.AlphabetFacts` | backend/src/utils/generateQrId.js:3-7 | the id alphabet has 33 symbols (not 34) and lacks 0, O, I and l; the PIN alphabet has 10 |
| `QrIdGen.AlphabetIsQrIdClass` | backend/src/utils/generateQrId.js:4 | a character is in the generator alphabet iff the QR-id validator's class accepts it |
| `QrIdGen.QrIdCharInAlphabet` | backend/src/middleware/validators.js:50 | every character of the validator's class is in the generator alphabet |
| `QrIdGen.AlphabetChars` | backend/src/utils/generateQrId.js:7 | every generator symbol is in the validator's class |
| `QrIdGen.Symbols` | backend/src/utils/generateQrId.js:10 | one `customAlphabet` call yields one alphabet symbol per draw |
| `QrIdGen.GenerateQrId` | backend/src/utils/generateQrId.js:4-7 | a generated id has seven symbols of the alphabet |
| `QrIdGen.GeneratedQrIdValid` | backend/src/middleware/validators.js:46-51 | every generated id passes the QR-id validator |
| `QrIdGen.GeneratePin` | backend/src/utils/generateQrId.js:9-10 | a generated PIN is six decimal digits |
| `QrIdGen.GeneratedPinValid` | backend/src/middleware/validators.js:68-73 | every generated PIN passes the PIN chain, as written and as intended |
| `QrIdGen.DrawnIds` | backend/src/utils/generateQrId.js:22 | one candidate id per draw |
| `QrIdGen.DrawnPins` | backend/src/utils/generateQrId.js:27 | one PIN per draw |
| `QrIdGen.Batch` | backend/src/utils/generateQrId.js:17-33 | the batch the loop builds from the candidate stream has at most `count` entries |
| `QrIdGen.BatchWellFormed` | backend/src/utils/generateQrId.js:22-30 | batch ids are pairwise distinct, each was drawn, and the i-th entry holds the i-th PIN drawn |
| `QrIdGen.BatchCoversDraws` | backend/src/utils/generateQrId.js:23-29 | a batch short of `count` holds every id drawn: a duplicate is only ever skipped |
| `QrIdGen.BatchStable` | backend/src/utils/generateQrId.js:21 | once the batch is full, further draws change nothing |
| `QrIdGen.BatchFull` | backend/src/utils/generateQrId.js:21-32 | when the stream holds at least `count` distinct ids the batch has exactly `count` entries |
| `QrIdGen.BatchExtend` | backend/src/utils/generateQrId.js:23-29 | one more draw adds an entry with the next PIN iff the batch is not full and the id is unseen |
| `QrIdGen.BatchEntriesValid` | backend/src/utils/generateQrId.js:24-28 | every batch entry holds an id and PIN the validators accept |
| `QrIdGen.Distinct` | backend/src/utils/generateQrId.js:22-30 | the ids are pairwise distinct, which the `seen` set enforces |
| `QrIdGen.QrIds` | backend/src/utils/generateQrId.js:24-29 | the ids of a batch, in order, the same length as the batch |
| `QrIdGen.ValidEntry` | backend/src/middleware/validators.js:46-73 | an entry whose id passes the QR id chain and whose PIN is six digits |
| `QrIdGen.GeneratedEntryValid` | backend/src/utils/generateQrId.js:25-28 | an entry of a generated id and PIN is valid for the activation route |
| `QrIdGen.GenerateBatch` | backend/src/utils/generateQrId.js:17-33 | the loop returns `Batch` of the draws: at most `count` distinct ids, and all drawn ids when short |
| `Validators.IsLength` | backend/src/middleware/validators.js:26 | `isLength` with `min` and `max`: the length the validator measures lies within the given bounds; other options are ignored |
| `Validators.IsNumeric` | backend/src/middleware/validators.js:64 | `isNumeric`: an optional sign, an optional run of digits ending in a point, then at least one digit |
| `Validators.Check` | backend/src/middleware/validators.js:18-21 | one link of a chain: no error when the test passes, otherwise one error naming the field with the chain's message |
| `Validators.SanitizePlate` | backend/src/middleware/validators.js:32-34 | the plate the chain hands on: trimmed, then upper-cased |
| `Validators.SanitizeAlertMessage` | backend/src/middleware/validators.js:76-78 | an absent message stays absent; a given one is trimmed |
| `Validators.PhoneErrors` | backend/src/middleware/validators.js:18-21 | a phone passes iff its trimmed value is ten digits starting with 6 to 9 |
| `Validators.NameErrors` | backend/src/middleware/validators.js:24-29 | a name passes iff the trimmed value has 2 to 100 characters, all ASCII letters or whitespace |
| `Validators.NameChecksAgree` | backend/src/middleware/validators.js:26-28 | the two name checks together are that characterisation |
| `Validators.PlateErrors` | backend/src/middleware/validators.js:32-43 | a plate passes iff, trimmed and upper-cased, it matches the Indian pattern, so its length is 7 to 11 |
| `Validators.QrIdErrors` | backend/src/middleware/validators.js:46-51 | a code passes iff the trimmed value is seven characters of the QR class |
| `Validators.PhonePattern` | backend/src/middleware/validators.js:20 | `^[6-9]\d{9}$`: ten digits, the first 6 to 9 |
| `Validators.NamePattern` | backend/src/middleware/validators.js:28 | `^[a-zA-Z\s]+$`: non-empty, ASCII letters and whitespace only |
| `Validators.PlatePattern` | backend/src/middleware/validators.js:35 | the plate regex: some split into 2 letters, 1-2 digits, 0-3 letters and 4 digits |
| `Validators.PlateSplit` | backend/src/middleware/validators.js:42 | one such split, with `d` digits and `l` letters in the middle |
| `Validators.QrIdPattern` | backend/src/middleware/validators.js:50 | seven characters, each from the QR class |
| `Validators.IsQrIdChar` | backend/src/middleware/validators.js:50 | the QR class: 1-9 and A-Z without I and O |
| `Validators.SixDigits` | backend/src/middleware/validators.js:62-71 | exactly six ASCII digits, as the OTP and PIN messages describe |
| `Validators.IsIn` | backend/src/middleware/validators.js:85 | `isIn`: the value is one of the listed strings |
| `Validators.OtpErrors` | backend/src/middleware/validators.js:60-65 | as written, an OTP passes iff its trimmed value is numeric: the length option is ignored |
| `Validators.PinErrors` | backend/src/middleware/validators.js:68-73 | as written, a PIN passes iff its trimmed value is numeric |
| `Validators.PinErrorsCorrected` | backend/src/middleware/validators.js:70-71 | the intended PIN chain passes iff the trimmed value is exactly six digits |
| `Validators.SixDigitsPassPin` | backend/src/middleware/validators.js:69-72 | every six-digit string passes the PIN chain as written and as intended |
| `Validators.PinAcceptsNonSixDigits` | backend/src/middleware/validators.js:70-72 | the chain as written accepts "7", "+1.5" and "123456789" |
| `Validators.AlertMessageErrors` | backend/src/middleware/validators.js:76-80 | an alert message passes iff absent or at most 500 long (as `isLength` counts) after trim |
| `Validators.VehicleTypeErrors` | backend/src/middleware/validators.js:83-86 | a vehicle type passes iff absent or one of the five |
| `Validators.RequiredErrors` | backend/src/middleware/validators.js:54-57 | a required string passes iff it is non-empty (after trim where the chain trims) |
| `Validators.HandleValidation` | backend/src/middleware/validators.js:6-15 | `next` is called iff there are no errors; otherwise a 400 'Validation failed' with the errors in order |
| `Validators.PlateShape` | backend/src/middleware/validators.js:35 | an accepted plate has 7 to 11 characters and starts with two capitals |
| `Validators.PlateExamples` | backend/src/middleware/validators.js:36 | the sample 'MH12AB1234' and the shortest and longest shapes match, 'DL1234' does not |
| `Push.Tokens` | backend/src/utils/pushNotification.js:13 | the tokens sent are the stored token strings in stored order |
| `Push.InvalidTokens` | backend/src/utils/pushNotification.js:25-36 | a token is selected iff some result at its index failed with one of the two unregistering codes |
| `Push.SelectInvalid` | backend/src/utils/pushNotification.js:24-36 | the `forEach` loop collects exactly `InvalidTokens` |
| `Push.PrunedTokens` | backend/src/utils/pushNotification.js:10-43 | a list is saved iff the service is on, there are tokens, the send returned and some token was invalid; it keeps exactly the entries with valid tokens |
| `Push.SendPush` | backend/src/utils/pushNotification.js:9-47 | `sendPush` sends iff the service is on and the user has tokens, sends the stored tokens, and saves the pruned list iff `PrunedTokens` gives one; nothing else changes |
| `Push.PruneDropsInvalid` | backend/src/utils/pushNotification.js:38-42 | a save removes at least one entry and keeps no invalid token |
| `Push.PruneShrinks` | backend/src/utils/pushNotification.js:39-41 | removing an entry's token shortens the list |
| `Push.PruneIdempotent` | backend/src/utils/pushNotification.js:41 | pruning again with the same tokens changes nothing |
| `Push.AllDeliveredSavesNothing` | backend/src/utils/pushNotification.js:38 | when every device received the message nothing is saved |
| `Push.NothingUnregistered` | backend/src/utils/pushNotification.js:26-35 | without an unregistering result no token is selected |
| `Push.SendPushKeepsValid` | backend/src/utils/pushNotification.js:42 | saving a user's token list keeps the store invariant |
| `VehicleRoutes.Sanitized` | backend/src/routes/vehicle.js:39-42 | the sanitized plate is what the schema setters store unchanged |
| `VehicleRoutes.RegisterErrors` | backend/src/routes/vehicle.js:39-42 | the register chains in order: plate, required code, PIN, then type |
| `VehicleRoutes.QrCodeInUse` | backend/src/models/Vehicle.js:12-15 | some vehicle, active or not, carries the code, so the unique index on `qrCodeId` refuses another |
| `VehicleRoutes.Register` | backend/src/routes/vehicle.js:36-101 | register answers 400 with the errors iff validation fails, changing nothing then, and keeps the code map keyed |
| `VehicleRoutes.RegisterValidated` | backend/src/routes/vehicle.js:44-99 | past validation, a success is a 201 for a new active vehicle whose id is the next index |
| `VehicleRoutes.RegisterCorrected` | backend/src/routes/vehicle.js:49-73 | the intended handler: validation errors exactly as written |
| `VehicleRoutes.RegisterValidatedCorrected` | backend/src/routes/vehicle.js:64-73 | the intended handler past validation never answers a validation error |
| `VehicleRoutes.RegisterVehicle` | backend/src/routes/vehicle.js:44-95 | the handler's steps on the database produce exactly `Register` |
| `VehicleRoutes.RegisterSanitized` | backend/src/routes/vehicle.js:49-84 | the steps past validation produce exactly `RegisterValidated` |
| `VehicleRoutes.AvailableCodeUnused` | backend/src/routes/vehicle.js:49-54 | in a consistent store no vehicle carries an available code |
| `VehicleRoutes.ActivatedCodeKeepsValid` | backend/src/routes/vehicle.js:57-61 | activating an available code keeps the store invariant |
| `VehicleRoutes.ActivationKeepsValid` | backend/src/routes/vehicle.js:57-95 | with an available code and its PIN, registration past validation keeps the invariant and never answers 500 |
| `VehicleRoutes.AppendVehicleKeepsValid` | backend/src/routes/vehicle.js:76-84 | adding an active vehicle on an unused code, activated by its owner, with a free plate keeps the invariant |
| `VehicleRoutes.RegisterValidatedKeepsValid` | backend/src/routes/vehicle.js:57-95 | registration past validation keeps the invariant and never answers 500 |
| `VehicleRoutes.RegisterKeepsValid` | backend/src/routes/vehicle.js:36-100 | registration keeps the invariant and never answers 500 |
| `VehicleRoutes.RegisterBurnsCode` | backend/src/routes/vehicle.js:57-73 | an available code with its PIN and a plate already active: 400 'already registered', yet the code is left 'activated' with no vehicle |
| `VehicleRoutes.PastValidation` | backend/src/routes/vehicle.js:43-46 | a request that passes validation is handled on its sanitized fields |
| `VehicleRoutes.ValidatedBurnsCode` | backend/src/routes/vehicle.js:58-72 | the same flaw stated past validation |
| `VehicleRoutes.RegisterUnavailableRefused` | backend/src/routes/vehicle.js:49-54 | a validated request whose code is not available is refused with 400 and the database is unchanged |
| `VehicleRoutes.RegisterWrongPinRefused` | backend/src/routes/vehicle.js:49-61 | a validated request with an available code and the wrong PIN is refused with 400 'Invalid activation PIN' and the database is unchanged |
| `VehicleRoutes.ValidatedEarlyRefusals` | backend/src/routes/vehicle.js:49-61 | past validation, an unavailable code and a wrong PIN are refused with 400 before anything is saved |
| `VehicleRoutes.BurnedCodeRefused` | backend/src/routes/vehicle.js:49-54 | after the flaw every later registration with that code is refused as unavailable |
| `VehicleRoutes.RegisterCorrectedRefusalChangesNothing` | backend/src/routes/vehicle.js:64-73 | the corrected handler changes nothing unless it registers the vehicle |
| `VehicleRoutes.ValidatedCorrectedRefusalChangesNothing` | backend/src/routes/vehicle.js:64-73 | past validation, the corrected handler changes nothing unless it registers the vehicle |
| `VehicleRoutes.RegisterCorrectedAgreesOnSuccess` | backend/src/routes/vehicle.js:76-95 | both handlers register exactly the same requests with the same result |
| `VehicleRoutes.RequestedType` | backend/src/routes/vehicle.js:80 | the parsed type of a given type string; absent stands for the default 'car' |
| `VehicleRoutes.RequestedTypeNamed` | backend/src/routes/vehicle.js:80 | a validated type string names an enum value |
| `VehicleRoutes.RegisterValidatedSucceeds` | backend/src/routes/vehicle.js:76-95 | an available code, its PIN and a free plate give 201 and a new active vehicle with that code, owner, plate and type, and the code activated by the caller |
| `VehicleRoutes.RegisterSucceeds` | backend/src/routes/vehicle.js:36-95 | the same for a raw request: the stored plate is the sanitized one and the type the requested one |
| `VehicleRoutes.MyVehicleIds` | backend/src/routes/vehicle.js:109-112 | only the caller's active vehicles, in strictly decreasing creation order |
| `VehicleRoutes.MyVehicleIdsComplete` | backend/src/routes/vehicle.js:110-111 | every active vehicle of the caller is listed |
| `VehicleRoutes.Row` | backend/src/routes/vehicle.js:115-124 | a my-vehicles row: the vehicle's id, plate, code, type, colour, scan count, last scan and creation time |
| `VehicleRoutes.MyVehicles` | backend/src/routes/vehicle.js:107-130 | the my-vehicles rows are only the caller's active vehicles, newest first |
| `VehicleRoutes.GetVehicle` | backend/src/routes/vehicle.js:136-167 | the caller's vehicle, active or not, is returned iff it is theirs; otherwise 404 |
| `VehicleRoutes.UpdateErrors` | backend/src/routes/vehicle.js:177-178 | the update chains: the type, and a colour at most 50 long after trim |
| `VehicleRoutes.Updated` | backend/src/routes/vehicle.js:193-194 | the vehicle after the update: the type when one is given, the trimmed colour when one is given, all else as before |
| `VehicleRoutes.Update` | backend/src/routes/vehicle.js:173-212 | update answers 400 iff validation fails; anything but success changes nothing |
| `VehicleRoutes.UpdateVehicle` | backend/src/routes/vehicle.js:180-211 | the handler's steps on the database produce exactly `Update` |
| `VehicleRoutes.UpdateChangesOnlyTypeAndColor` | backend/src/routes/vehicle.js:191-196 | a successful update touches only the caller's vehicle, only its type (when given) and colour (when given) |
| `VehicleRoutes.UpdateKeepsValid` | backend/src/routes/vehicle.js:182-196 | update keeps the store invariant |
| `VehicleRoutes.Delete` | backend/src/routes/vehicle.js:218-254 | delete succeeds iff the vehicle is the caller's and active; otherwise 404 and nothing changes; a success sets that vehicle's `isActive` to false and `deactivatedAt` to now, disables its QR code, and changes nothing else |
| `VehicleRoutes.DeleteVehicle` | backend/src/routes/vehicle.js:223-253 | the handler's steps on the database produce exactly `Delete` |
| `VehicleRoutes.DeleteKeepsValid` | backend/src/routes/vehicle.js:225-243 | delete keeps the store invariant |
| `VehicleRoutes.DeleteFreesPlateAndCode` | backend/src/routes/vehicle.js:235-243 | after delete the code is 'disabled' and no active vehicle carries that code or that plate |
| `VehicleRoutes.ReRegisterAfterDelete` | backend/src/routes/vehicle.js:64-73 | after delete the same plate registers again with another available code |
| `ScanRoutes.SubscriptionOf` | backend/src/routes/scan.js:160 | the owner's subscription is found iff one exists |
| `ScanRoutes.HasPremium` | backend/src/routes/scan.js:234-235 | the inline premium test: a subscription on premium, 'active', ending after now |
| `ScanRoutes.PaidActive` | backend/src/routes/scan.js:89-90 | the inline paid test: a subscription not on free, 'active', ending after now |
| `ScanRoutes.InlineTestsAgree` | backend/src/routes/scan.js:161-169 | the inline premium test is `hasCallAccess`, and the inline paid test is `isActive` and `hasNotificationAccess` |
| `ScanRoutes.ViewTitle` | backend/src/routes/scan.js:94 | 'Vehicle Number Lookup' for the plate lookup, and 'QR Code Scanned' for a scan (line 173) |
| `ScanRoutes.ViewMessage` | backend/src/routes/scan.js:95 | 'Someone looked up your vehicle ' or, for a scan, 'Someone scanned your vehicle ' (line 174), followed by the plate |
| `ScanRoutes.Notify` | backend/src/routes/scan.js:170-183 | a notification and one push request are appended; nothing else changes |
| `ScanRoutes.ViewFound` | backend/src/routes/scan.js:148-198 | once the vehicle is found a view answers 200 or the handler's 500 |
| `ScanRoutes.ViewByNumber` | backend/src/routes/scan.js:48-123 | the plate lookup answers 400 iff the plate is invalid, and a 404 changes nothing |
| `ScanRoutes.ViewByQr` | backend/src/routes/scan.js:129-204 | the code scan answers 400 iff the code is invalid, and a 404 changes nothing |
| `ScanRoutes.ViewFoundVehicle` | backend/src/routes/scan.js:148-184 | the handler's steps on the database produce exactly `ViewFound` |
| `ScanRoutes.ScanQr` | backend/src/routes/scan.js:133-203 | the handler's steps produce exactly `ViewByQr` |
| `ScanRoutes.LookupNumber` | backend/src/routes/scan.js:52-122 | the handler's steps produce exactly `ViewByNumber` |
| `ScanRoutes.ViewEffects` | backend/src/routes/scan.js:148-197 | a view writes exactly one 'view' log and one `recordScan`; it notifies and pushes iff the subscription `isActive`; `canCall` iff calls are on and the owner has call access |
| `ScanRoutes.ViewKeepsValid` | backend/src/routes/scan.js:157 | a view keeps the store invariant |
| `ScanRoutes.ScanOfActiveCodeSucceeds` | backend/src/routes/scan.js:137-146 | in a consistent store a valid scan of an active vehicle's code answers 200 |
| `ScanRoutes.UpperIdempotent` | backend/src/routes/scan.js:54 | the handler's second upper-casing changes nothing |
| `ScanRoutes.LookupFindsPlate` | backend/src/routes/scan.js:54-65 | a plate lookup written in any case finds the active vehicle with that plate |
| `ScanRoutes.CallOwner` | backend/src/routes/scan.js:210-287 | the call route answers 400 iff the code is invalid |
| `ScanRoutes.CallActive` | backend/src/routes/scan.js:220-285 | past the gate the call handler never answers a validation error |
| `ScanRoutes.InitiateCall` | backend/src/routes/scan.js:214-286 | the handler's steps produce exactly `CallOwner` |
| `ScanRoutes.CallActiveOn` | backend/src/routes/scan.js:221-281 | the steps past the gate produce exactly `CallActive` |
| `ScanRoutes.CallGate` | backend/src/routes/scan.js:216-280 | a call succeeds iff the code is valid, calls are on, the vehicle is active and the owner has call access; calls off answer 503, no active vehicle 404, no call access 403; a refusal changes nothing; a success logs one 'call' and one notification and replies with the full `tel:+91` number and "+91" followed by the masked number |
| `ScanRoutes.AlertText` | backend/src/routes/scan.js:316-323 | the alert text is never empty, and for 'other' it is the caller's non-empty message |
| `ScanRoutes.AlertErrors` | backend/src/routes/scan.js:293-300 | the alert chains in order: the code, the message, and an alert type that when given is one of the four |
| `ScanRoutes.AlertWith` | backend/src/routes/scan.js:293-301 | the alert route answers 400 iff validation reported errors |
| `ScanRoutes.AlertValidated` | backend/src/routes/scan.js:303-355 | past validation a success is the fixed 'Alert sent' reply |
| `ScanRoutes.SendAlert` | backend/src/routes/scan.js:293-361 | the alert route answers 400 iff one of its chains fails |
| `ScanRoutes.AlertOwner` | backend/src/routes/scan.js:302-360 | the handler's steps produce exactly `SendAlert` |
| `ScanRoutes.DeliverAlert` | backend/src/routes/scan.js:307-355 | the steps past validation produce exactly `AlertValidated` |
| `ScanRoutes.AlertDelivery` | backend/src/routes/scan.js:326-355 | a fitting text logs one 'alert' with the text and notifies the owner; a text over 500 code units fails the log with 500 and changes nothing |
| `ScanRoutes.WideMessageLengths` | backend/src/routes/scan.js:326-333 | a message of 300 emoji is already trimmed, 300 long for `isLength` and 600 for the schema |
| `ScanRoutes.AlertMessageErrorsCorrected` | backend/src/models/ScanLog.js:39-42 | the intended message check passes iff the trimmed message fits the schema's 500 code units |
| `ScanRoutes.AlertErrorsCorrected` | backend/src/routes/scan.js:293-300 | the same chains with the message measured as the schema measures it |
| `ScanRoutes.SendAlertCorrected` | backend/src/routes/scan.js:296 | the alert route with the intended check answers 400 iff one of its chains fails |
| `ScanRoutes.CorrectedAlertTextFits` | backend/src/routes/scan.js:316-330 | every text the intended check lets through fits the scan-log schema |
| `ScanRoutes.CorrectedAlertDelivered` | backend/src/routes/scan.js:336-343 | with the intended check an alert to an active vehicle always answers 200 and notifies its owner |
| `ScanRoutes.AlertOverflow` | backend/src/routes/scan.js:326-333 | a message of 300 emoji passes validation, then the scan log throws and the route answers 500; the intended check refuses it with 400 |
| `ScanRoutes.EmergencyAfterLog` | backend/src/routes/scan.js:398-425 | the steps after the log answer 500 iff the log failed, changing nothing then |
| `ScanRoutes.EmergencyWith` | backend/src/routes/scan.js:367-431 | the route answers 400 iff the code is invalid |
| `ScanRoutes.RequestEmergencyContact` | backend/src/routes/scan.js:371-430 | as written, 400 iff the code is invalid |
| `ScanRoutes.RequestEmergencyContactCorrected` | backend/src/routes/scan.js:372-425 | with the action allowed, 400 iff the code is invalid |
| `ScanRoutes.EmergencyContact` | backend/src/routes/scan.js:372-429 | the handler's steps produce exactly `EmergencyWith` |
| `ScanRoutes.EmergencyLogged` | backend/src/routes/scan.js:399-425 | the steps from the log on produce exactly `EmergencyAfterLog` |
| `ScanRoutes.EmergencyContactAlwaysFails` | backend/src/routes/scan.js:390-396 | with an active vehicle whose owner has a contact, the route always answers 500 and changes nothing |
| `ScanRoutes.EmergencyContactCorrectedServes` | backend/src/routes/scan.js:384-425 | with the action allowed it returns the contact's name, masked phone and the full `tel:` number, logs one request and notifies the owner |
| `SubscriptionRoutes.OfferOf` | backend/src/routes/subscription.js:8-23 | each plan's name, price in paise, currency, credits and features: 14900 for basic, 29900 for premium, 0 for free |
| `SubscriptionRoutes.PaidPlanNamed` | backend/src/routes/subscription.js:97 | `PLANS[plan]` is truthy iff the plan is 'basic' or 'premium', never free |
| `SubscriptionRoutes.Plans` | backend/src/routes/subscription.js:8-54 | the catalogue lists free first with its offer, then each paid plan with its `PLANS` entry; every offer carries its price, credits and `features` list |
| `SubscriptionRoutes.PremiumAboveBasic` | backend/src/routes/subscription.js:8-23 | premium costs more than basic (which costs more than free) and grants at least as many credits |
| `SubscriptionRoutes.CurrentSubscription` | backend/src/routes/subscription.js:62-66 | without a subscription the caller gets the default free one |
| `SubscriptionRoutes.MyPlan` | backend/src/routes/subscription.js:60-86 | my-plan always answers, leaves the caller with a subscription, and changes no other subscription and nothing else |
| `SubscriptionRoutes.GetMyPlan` | backend/src/routes/subscription.js:61-81 | the handler's steps produce exactly `MyPlan` |
| `SubscriptionRoutes.Lapsed` | backend/src/routes/subscription.js:69 | a paid plan whose period end lies strictly before now |
| `SubscriptionRoutes.MyPlanReport` | backend/src/routes/subscription.js:69-80 | a lapsed paid plan is reported 'expired' and inactive; a free plan reports active although it is not `isActive`; otherwise `isActive` |
| `SubscriptionRoutes.PeriodEndBoundary` | backend/src/routes/subscription.js:69 | at the period end itself a paid plan is neither marked expired nor active |
| `SubscriptionRoutes.MyPlanIdempotent` | backend/src/routes/subscription.js:64-71 | asking twice changes nothing more than asking once |
| `SubscriptionRoutes.MyPlanKeepsValid` | backend/src/routes/subscription.js:65-71 | my-plan keeps the store invariant |
| `SubscriptionRoutes.CreateOrder` | backend/src/routes/subscription.js:93-124 | an order is requested iff payments are on and the plan is paid, at that plan's price; without payments 503 |
| `SubscriptionRoutes.PaidSubscription` | backend/src/routes/subscription.js:154-170 | the upsert leaves the plan 'active' from now for 30 days |
| `SubscriptionRoutes.VerifyPayment` | backend/src/routes/subscription.js:88-194 | with payments off the stub answers 503; anything but success changes nothing |
| `SubscriptionRoutes.VerifyPaymentOn` | backend/src/routes/subscription.js:131-180 | the handler's steps produce exactly `VerifyPayment` |
| `SubscriptionRoutes.PaymentActivatesForPeriod` | backend/src/routes/subscription.js:154-167 | a verified payment makes the subscription `isActive` exactly until 30 days after now, with call access iff premium, at the plan's price |
| `SubscriptionRoutes.VerifyPaymentKeepsValid` | backend/src/routes/subscription.js:158-170 | verify-payment keeps the store invariant |
| `SubscriptionRoutes.PlanNotBoundToOrder` | backend/src/routes/subscription.js:138-165 | a correctly signed payment for a basic order, presented with plan 'premium', grants premium |
| `SubscriptionRoutes.VerifyPaymentCorrected` | backend/src/routes/subscription.js:134-151 | the intended handler changes nothing unless it succeeds |
| `SubscriptionRoutes.CorrectedGrantsOrderedPlan` | backend/src/routes/subscription.js:160-165 | with the correction a verified payment grants exactly the plan ordered, at its price |
| `AuthRoutes.AuthMode` | backend/src/routes/auth.js:29-30 | 'firebase' when the Firebase flow is mounted, otherwise 'mock' |
| `AuthRoutes.UserMatches` | backend/src/routes/auth.js:59-63 | a user matches a uid key by its Firebase uid and a phone key by its phone |
| `AuthRoutes.FindUser` | backend/src/models/User.js:86-90 | the first user matching the key, and None iff none matches |
| `AuthRoutes.FindUserFrom` | backend/src/models/User.js:89 | the same search from a given index on |
| `AuthRoutes.Unlinked` | backend/src/routes/auth.js:86 | `!user.firebaseUid`: no uid, or an empty one |
| `AuthRoutes.SignIn` | backend/src/routes/auth.js:62-91 | an unknown user without a name is asked for one and nothing changes; otherwise the user is created, or the found user gets `lastLogin` and its uid linked only if it had none, and no other user changes |
| `AuthRoutes.EditKeepsValid` | backend/src/routes/auth.js:225-226 | changing a user's fields other than phone and uid keeps the invariant |
| `AuthRoutes.SignInKeepsValid` | backend/src/routes/auth.js:76-91 | signing in keeps phones and uids unique when the lookup found whoever holds them |
| `AuthRoutes.SignInFoundKeepsValid` | backend/src/routes/auth.js:84-91 | linking a uid no one else holds and recording the login of a found user keeps the invariant |
| `AuthRoutes.AppendUserKeepsValid` | backend/src/routes/auth.js:76-83 | creating a user whose phone and uid no user carries keeps the invariant |
| `AuthRoutes.LinkKeepsValid` | backend/src/routes/auth.js:86-88 | giving a user a uid no other user holds keeps the invariant |
| `AuthRoutes.SignInOn` | backend/src/routes/auth.js:150-168 | the sign-in steps on the database produce exactly `SignIn` |
| `AuthRoutes.MockSendOtp` | backend/src/routes/auth.js:125-132 | the mock OTP send succeeds iff the trimmed phone is a valid Indian mobile |
| `AuthRoutes.MockVerify` | backend/src/routes/auth.js:138-189 | mock verify answers 400 with the phone and OTP errors iff there are any, changing nothing then |
| `AuthRoutes.MockVerifyOn` | backend/src/routes/auth.js:143-183 | the handler's steps produce exactly `MockVerify` |
| `AuthRoutes.MockUnknownWithoutName` | backend/src/routes/auth.js:150-157 | an unknown phone without a name gets the name prompt and creates nothing |
| `AuthRoutes.MockVerifyKeepsValid` | backend/src/routes/auth.js:147-169 | mock verify keeps the invariant |
| `AuthRoutes.StripCountryCode` | backend/src/routes/auth.js:56 | a leading '+91' is removed, and anything else is left as is |
| `AuthRoutes.StripLeadingOnly` | backend/src/routes/auth.js:55-56 | a ten-digit number comes back the same with or without the country code |
| `AuthRoutes.Refusal` | backend/src/routes/auth.js:109-116 | an expired, malformed or revoked token gives 401, any other error 500 |
| `AuthRoutes.FirebaseUser` | backend/src/routes/auth.js:59-64 | the user is found by uid first and by phone only when no user has the uid; None iff neither matches |
| `AuthRoutes.FirebaseVerify` | backend/src/routes/auth.js:38-119 | 400 iff the token is empty; any failure changes nothing; a success needs a decoded token with a phone |
| `AuthRoutes.FirebaseVerifyOn` | backend/src/routes/auth.js:42-118 | the handler's steps produce exactly `FirebaseVerify` |
| `AuthRoutes.FirebaseUnknownWithoutName` | backend/src/routes/auth.js:66-74 | an unknown uid and phone without a name gets the prompt and creates nothing |
| `AuthRoutes.FirebaseLinksOnlyUnlinked` | backend/src/routes/auth.js:84-91 | a known user signs in, gets `lastLogin`, and gets the uid only if it had none |
| `AuthRoutes.FirebaseVerifyKeepsValid` | backend/src/routes/auth.js:59-91 | Firebase sign-in keeps the invariant |
| `AuthRoutes.GetMe` | backend/src/routes/auth.js:196-211 | `hasEmergencyContact` iff a contact is stored; a name is reported only if non-empty |
| `AuthRoutes.UpdateProfile` | backend/src/routes/auth.js:217-241 | 400 iff the name fails its chain, changing nothing then; a success stores and returns the trimmed name |
| `AuthRoutes.ValidatedNameSaves` | backend/src/models/User.js:5-10 | a name that passed the validator also passes the schema |
| `AuthRoutes.ProfileChangesOnlyName` | backend/src/routes/auth.js:225-226 | the profile update changes the caller's name and nothing else |
| `AuthRoutes.StoredNameRevalidates` | backend/src/models/User.js:8 | the stored name is already trimmed and passes the validator again |
| `AuthRoutes.UpdateProfileOn` | backend/src/routes/auth.js:222-235 | the handler's steps produce exactly `UpdateProfile` |
| `AuthRoutes.ProfileKeepsValid` | backend/src/routes/auth.js:226 | the profile update keeps the invariant |
| `AuthRoutes.ContactErrors` | backend/src/routes/auth.js:249-258 | a contact passes iff its trimmed name is 2 to 100 long as `isLength` counts and its trimmed phone is a valid mobile |
| `AuthRoutes.SetContact` | backend/src/routes/auth.js:247-280 | 400 iff the chains fail; a failure changes nothing; a success stores the trimmed name and phone and replies with the name and '+91 ' and the mask; no collection other than the users changes |
| `AuthRoutes.ContactReplyMasked` | backend/src/routes/auth.js:267-273 | the reply shows '+91 ', the first two digits, four stars and the last two, 12 characters in all |
| `AuthRoutes.MaskedPhoneShape` | backend/src/routes/auth.js:272 | the shape of '+91 ' and the mask of a ten-digit phone |
| `AuthRoutes.SetContactOn` | backend/src/routes/auth.js:261-274 | the handler's steps produce exactly `SetContact` |
| `AuthRoutes.ClearContact` | backend/src/routes/auth.js:286-295 | the contact is removed and the caller told so; no collection other than the users changes |
| `AuthRoutes.ClearContactOn` | backend/src/routes/auth.js:287-290 | the handler's steps produce exactly `ClearContact` |
| `AuthRoutes.ContactShownByMe` | backend/src/routes/auth.js:204-205 | after a saved contact `/me` shows it with its name; after removal it shows none |
| `AuthRoutes.ContactKeepsValid` | backend/src/routes/auth.js:262-265 | setting and clearing the contact keep the invariant |
| `AuthRoutes.ContactErrorsCorrected` | backend/src/routes/auth.js:250-253 | the intended check measures the name as the schema does |
| `AuthRoutes.SetContactCorrected` | backend/src/routes/auth.js:247-259 | with the intended check, 400 iff it fails, and otherwise the route as written |
| `AuthRoutes.CorrectedContactSaves` | backend/src/routes/auth.js:260-274 | with the intended check a valid contact is always saved |
| `AuthRoutes.WideNameLengths` | backend/src/routes/auth.js:250-253 | a name of 60 emoji is already trimmed, 60 long for `isLength` and 120 for the schema |
| `AuthRoutes.ContactNameOverflow` | backend/src/routes/auth.js:250-253 | a name of 60 emoji passes the check, then the save throws and the route answers 500 |
| `AuthRoutes.CorrectedRefusesWideName` | backend/src/routes/auth.js:252 | the intended check refuses that name with 400 |
| `AuthRoutes.ParsePlatform` | backend/src/routes/auth.js:308-311 | a platform string names a platform iff it is web, android or ios |
| `AuthRoutes.PlatformOf` | backend/src/routes/auth.js:316 | an absent platform defaults to web |
| `AuthRoutes.FcmTokenErrors` | backend/src/routes/auth.js:303-312 | the token chains pass iff the token is non-empty and the platform absent or valid |
| `AuthRoutes.Newest` | backend/src/routes/auth.js:323-325 | the newest ten entries: the last ten of a longer list, otherwise the whole list |
| `AuthRoutes.Registered` | backend/src/routes/auth.js:318-325 | after registering, the token appears once, as the last entry, the list has at most 10 entries, and the rest are the newest others in order |
| `AuthRoutes.CappedShape` | backend/src/routes/auth.js:323-325 | keeping the newest ten after an append keeps the new entry and the newest of the earlier ones |
| `AuthRoutes.RegisterFcmToken` | backend/src/routes/auth.js:301-334 | 400 iff the chains fail, changing nothing then; a success stores `Registered` of the list; no collection other than the users changes |
| `AuthRoutes.RegisterFcmTokenOn` | backend/src/routes/auth.js:314-328 | the handler's steps produce exactly `RegisterFcmToken` |
| `AuthRoutes.RemoveFcmToken` | backend/src/routes/auth.js:340-360 | 400 iff the token is empty, changing nothing then; a success removes every entry with that token; no collection other than the users changes |
| `AuthRoutes.RemoveFcmTokenOn` | backend/src/routes/auth.js:350-354 | the handler's steps produce exactly `RemoveFcmToken` |
| `AuthRoutes.PruneRegistered` | backend/src/routes/auth.js:319-320 | removing the token just registered leaves the other entries |
| `AuthRoutes.RegisterThenRemove` | backend/src/routes/auth.js:352 | registering then removing a token leaves what removing it alone leaves, up to the cap |
| `AuthRoutes.RegisterAgain` | backend/src/routes/auth.js:319-320 | registering the same token again replaces its entry, which stays last, without growing the list |
| `AuthRoutes.TokensKeepValid` | backend/src/routes/auth.js:327 | registering and removing tokens keep the invariant |
| `AdminRoutes.CountActive` | backend/src/routes/admin.js:32 | the active vehicles are at most all vehicles; its exact value is proved by `CountActiveCounts` |
| `AdminRoutes.ActiveIndices` | backend/src/routes/admin.js:32 | the positions of the active vehicles |
| `AdminRoutes.CountActiveCounts` | backend/src/routes/admin.js:32 | `countDocuments({ isActive: true })` is exactly the number of active vehicles |
| `AdminRoutes.CountSince` | backend/src/routes/admin.js:42-44 | the recent scans are at most all scans |
| `AdminRoutes.CountSinceCounts` | backend/src/routes/admin.js:42-44 | the recent-scan count is exactly the number of logs created at or after `since` |
| `AdminRoutes.SinceIndices` | backend/src/routes/admin.js:42-44 | the indices of the logs created at or after `since` |
| `AdminRoutes.WithStatus` | backend/src/routes/admin.js:34-35 | the codes whose status is the given one, as `countDocuments({ status })` counts them |
| `AdminRoutes.GetStats` | backend/src/routes/admin.js:20-68 | the totals are the collection sizes; active vehicles and recent scans are bounded by them |
| `AdminRoutes.QrTotalExcludesDisabled` | backend/src/routes/admin.js:54-58 | the QR total plus the disabled codes is the number of codes |
| `AdminRoutes.ActiveCodes` | backend/src/routes/admin.js:32 | the codes of the active vehicles; each is carried by some active vehicle |
| `AdminRoutes.ActiveCodesCount` | backend/src/routes/admin.js:32-35 | with each code on at most one vehicle, the active vehicles' codes are as many as the active vehicles |
| `AdminRoutes.ActiveVehiclesWithinActivated` | backend/src/routes/admin.js:25-35 | in a consistent store the active vehicles are at most the activated codes |
| `AdminRoutes.GenerateErrors` | backend/src/routes/admin.js:75-81 | generation passes iff the count is 1 to 1000 and the batch id, if given, is at most 50 long after trim |
| `AdminRoutes.Timestamp` | backend/src/routes/admin.js:107 | `Date.now()` as a decimal string, with a minus sign when negative |
| `AdminRoutes.BatchLabel` | backend/src/routes/admin.js:107 | the batch id is the given trimmed one, or 'BATCH-' and a timestamp |
| `AdminRoutes.Fresh` | backend/src/routes/admin.js:95-96 | the kept entries are exactly the generated ones whose id is not yet stored |
| `AdminRoutes.FreshConcat` | backend/src/routes/admin.js:96 | the filter keeps the batch order |
| `AdminRoutes.FreshDistinct` | backend/src/routes/admin.js:92-96 | the kept entries of a batch with distinct ids have distinct ids |
| `AdminRoutes.Inserted` | backend/src/routes/admin.js:103-109 | `insertMany` stores each kept entry as an available code under the batch id, and nothing else |
| `AdminRoutes.Listed` | backend/src/routes/admin.js:115-119 | one reply row per stored code, with its id, PIN and address |
| `AdminRoutes.GenerateValidated` | backend/src/routes/admin.js:84-120 | past validation generation answers 201 and changes only the codes |
| `AdminRoutes.GenerateStoresFresh` | backend/src/routes/admin.js:91-119 | the stored and listed codes are the batch less the taken ids, in order, at most `count`; old codes are kept; new ones are available under the batch id |
| `AdminRoutes.GeneratedCodesActivatable` | backend/src/routes/admin.js:111-119 | every code handed out is available and activates with its PIN |
| `AdminRoutes.GenerateKeepsKeyed` | backend/src/routes/admin.js:103-109 | the code map stays keyed by id |
| `AdminRoutes.GenerateKeepsValid` | backend/src/routes/admin.js:103-108 | generation keeps the store invariant |
| `AdminRoutes.GenerateCodes` | backend/src/routes/admin.js:74-126 | invalid input gives 400 and no change; otherwise the generated batch has distinct ids and the outcome is `GenerateValidated` with its label |
| `AdminRoutes.PageErrors` | backend/src/routes/admin.js:177-178 | the query passes iff page is at least 1 and limit 1 to 100 |
| `AdminRoutes.Pages` | backend/src/routes/admin.js:207 | `ceil(total / limit)`: enough pages for all items, and no page to spare |
| `AdminRoutes.Window` | backend/src/routes/admin.js:187-188 | skip then limit: at most `limit` items, the ones from `skip` on, and exactly `limit` when there are enough |
| `AdminRoutes.Paginate` | backend/src/routes/admin.js:182-208 | page 1 and limit 50 unless given, otherwise the given page and limit, with the limit at most 100; `pages` is `Pages(total, limit)`, i.e. ceil(total/limit) |
| `AdminRoutes.Skip` | backend/src/routes/admin.js:187 | `(page - 1) * limit` items are skipped |
| `AdminRoutes.PageCovers` | backend/src/routes/admin.js:187-207 | the k-th item is on page k div limit + 1, within the page count, at offset k mod limit |
| `AdminRoutes.Row` | backend/src/routes/admin.js:195-202 | a user row carries the id, name, role and creation time, and no phone |
| `AdminRoutes.NewestFirst` | backend/src/routes/admin.js:186 | the ids in descending creation order |
| `AdminRoutes.ListUsers` | backend/src/routes/admin.js:176-215 | 400 iff the query fails; otherwise the pagination is `Paginate` of the query, the page holds `limit` rows when that many remain past skip = (page-1)·limit, the rest when fewer do, none past the end, and row i is the user at position skip + i, newest first |

## Left out

- Hashing and encryption of phones (AES and SHA-256) are not modelled: phones are stored in clear, and lookups by phone hash are lookups by phone.
- The Razorpay signature is not computed: `hmac` is a parameter standing for the HMAC-SHA256 with the key secret.
- Rate limiters, JWT issue and check, `authenticate` and `requireAdmin` are left out: they are library middleware.
- The Firebase, Razorpay and FCM SDK calls are not modelled: their results are inputs (a decoded token or an error code, an order or a failure, one send result per token or a thrown error).
- Route mounting by feature flag is modelled inside the handlers as a `Features` parameter.
- `toUpperCase` is modelled on ASCII letters only; other scripts' case mappings are not modelled.
- The OTP documents' TTL deletion is left out: expiry is the `verify` guard only.
- The random OTP code is modelled from a real `random` in [0, 1) rather than a double.
- `setDate(getDate() + 30)` and `- 7` are modelled as plus and minus 30 or 7 days of milliseconds, so daylight-saving shifts are not modelled.
- The push sends are fire-and-forget in the source. The model records a push request in order and models `sendPush` separately, so interleaving with later requests is not modelled.
- The data values sent with a push are not modelled, and neither is their conversion to strings.
- `Push.SendPush`: a null Firebase `admin` is treated as the service being off. The response is taken to have one result per token (the SDK's guarantee). The save after pruning is assumed to succeed.
- `AuthRoutes.SignIn`: the save of an existing user is assumed to succeed.
- `AuthRoutes.UpdateProfile`: the save is assumed to succeed, because a validated name passes the schema (`AuthRoutes.ValidatedNameSaves`).
- `isMongoId` on `:id` parameters is not modelled: ids are indexes, and one that names no vehicle gives 404.
- Missing optional fields are modelled with `Option`. Missing required string fields are the empty string.
- `lookupSource`, `scannerIp`, `userAgent` and the location are not stored, because the schema's strict mode drops `lookupSource` and the others are request metadata.
- One `now` is taken per request; the source reads the clock several times within one request.
- `sort({ createdAt: -1 })` is modelled as reverse insertion order.
- Plan names such as `constructor` or `toString`, which name `Object.prototype` members and make `PLANS[plan]` truthy, are not modelled: only the two own keys count.
- The order receipt string is not modelled. The Razorpay key id in the order reply is the `keyId` parameter.
- `ScanRoutes.CallGate`: the 403 reply's `canAlert: true` and the 503 reply's `callsEnabled: false` are not modelled; the model keeps each reply's status and error message.
- The default `count` of 100 in `generateBatch` is not modelled, because both of its callers pass a count.
- The admin listings of QR codes, vehicles and scan logs are not modelled. They use the same pagination as the user listing, which is modelled.
- Non-integer `page` and `limit` query strings are not modelled: they are integers or absent.
- `generateBatch` draws until it has `count` distinct ids, which terminates only with probability 1. The model takes a finite stream of draws, and the batch may then fall short of `count`.
- The backend scripts, `utils/otp.js`, `index.js`, the frontend, and the ScanLog geolocation are not part of this model.

## Findings

| source | as written | input that shows it | evidently intended | confidence | as-written member | corrected member |
|---|---|---|---|---|---|---|
| backend/src/routes/vehicle.js:57-73 | the code is activated before the plate check, so a taken plate answers 400 but leaves the code 'activated' with no vehicle, and every later registration with it is refused (`VehicleRoutes.BurnedCodeRefused`) | an available code with its PIN and the plate of an active vehicle | check the plate before activating, so a refusal changes nothing (`VehicleRoutes.RegisterCorrectedRefusalChangesNothing`, `VehicleRoutes.RegisterCorrectedAgreesOnSuccess`) | not executed | `VehicleRoutes.RegisterBurnsCode` | `VehicleRoutes.RegisterCorrected` |
| backend/src/routes/scan.js:390-396 | the scan log is created with action 'emergency_contact_request', which the schema enum at models/ScanLog.js:14-18 does not allow, so creation throws and the route always answers 500 | a valid code of an active vehicle whose owner has an emergency contact | the enum includes the action, and the route returns the masked contact (`ScanRoutes.EmergencyContactCorrectedServes`) | not executed | `ScanRoutes.EmergencyContactAlwaysFails` | `ScanRoutes.RequestEmergencyContactCorrected` |
| backend/src/middleware/validators.js:68-73 | `isLength({ exactly: 6 })` has no `min` or `max`, so the length check passes everything and only `isNumeric` can fail (the OTP chain at lines 60-65 likewise) | "7", "+1.5" or "123456789" as the PIN | exactly six digits (`Validators.SixDigitsPassPin`) | not executed | `Validators.PinAcceptsNonSixDigits` | `Validators.PinErrorsCorrected` |
| backend/src/routes/scan.js:326-333 | the message is checked with `isLength` max 500, which counts code points, while the scan-log schema's `maxlength` 500 counts UTF-16 units, so the log throws and the alert answers 500 | a message of 300 copies of U+1F600 | measure the message as the schema does, so whatever passes is delivered (`ScanRoutes.CorrectedAlertDelivered`) | not executed | `ScanRoutes.AlertOverflow` | `ScanRoutes.SendAlertCorrected` |
| backend/src/routes/subscription.js:138-165 | the signature covers only order and payment id, and the plan comes from the request body, so a payment for a basic order can be presented as premium | a correctly signed basic order with `plan: 'premium'` | grant the plan of the order (`SubscriptionRoutes.CorrectedGrantsOrderedPlan`) | not executed | `SubscriptionRoutes.PlanNotBoundToOrder` | `SubscriptionRoutes.VerifyPaymentCorrected` |
| backend/src/routes/auth.js:250-253 | the contact name is checked with `isLength` max 100 (code points), while the schema's `maxlength` 100 at models/User.js:40 counts UTF-16 units, so the save throws and the route answers 500 | a name of 60 copies of U+1F600 | measure the name as the schema does (`AuthRoutes.CorrectedContactSaves`, `AuthRoutes.CorrectedRefusesWideName`) | not executed | `AuthRoutes.ContactNameOverflow` | `AuthRoutes.SetContactCorrected` |
