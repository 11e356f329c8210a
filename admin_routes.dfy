/** The admin routes: dashboard statistics, generation of a batch of QR codes, and
    the paginated user listing. Every route sits behind the admin check, which is
    not modelled. */
module AdminRoutes {
  import opened Base
  import opened Validators
  import opened Http
  import opened QrCodes
  import opened QrIdGen
  import opened Vehicles
  import opened Records
  import opened Store

  const MAX_BATCH := 1000
  const BATCH_ID_MAX := 50
  const COUNT_MESSAGE := "Count must be between 1 and 1000"
  const QR_URL_PREFIX := "https://tagsphere.co.in/v/"
  const BATCH_PREFIX := "BATCH-"
  const DEFAULT_PAGE := 1
  const DEFAULT_LIMIT := 50
  const MAX_LIMIT := 100
  const WEEK_MS := 7 * DAY_MS

  // ---------------------------------------------------------------------------
  // Statistics

  /** The codes of the collection in the given status. */
  function WithStatus(codes: map<string, QrCodeRecord>, s: QrStatus): set<string> {
    set k | k in codes && codes[k].status == s
  }

  function CountActive(vs: seq<VehicleRecord>): (n: nat)
    ensures n <= |vs|
  {
    if vs == [] then 0 else (if vs[0].isActive then 1 else 0) + CountActive(vs[1..])
  }

  /** The positions of the active vehicles. */
  ghost function ActiveIndices(vs: seq<VehicleRecord>): set<nat> {
    set i: nat | i < |vs| && vs[i].isActive
  }

  /** `countDocuments({isActive: true})`: the count is exactly the number of active
      vehicles. */
  lemma {:induction false} CountActiveCounts(vs: seq<VehicleRecord>)
    ensures CountActive(vs) == |ActiveIndices(vs)|
    decreases |vs|
  {
    if vs != [] {
      var tail := vs[1..];
      CountActiveCounts(tail);
      var t := ActiveIndices(tail);
      ShiftSize(t);
      var head: set<nat> := if vs[0].isActive then {0} else {};
      assert ActiveIndices(vs) == head + Shifted(t) by {
        forall i: nat ensures i in ActiveIndices(vs) <==> i in head + Shifted(t) {
          if 0 < i < |vs| {
            assert vs[i] == tail[i - 1];
            assert i in Shifted(t) <==> i - 1 in t;
          }
        }
      }
      assert head !! Shifted(t);
    }
  }

  function CountSince(logs: seq<ScanLogRecord>, since: Time): (n: nat)
    ensures n <= |logs|
  {
    if logs == [] then 0 else (if logs[0].createdAt >= since then 1 else 0) + CountSince(logs[1..], since)
  }

  /** The positions of the logs created at or after `since`. */
  ghost function SinceIndices(logs: seq<ScanLogRecord>, since: Time): set<nat> {
    set i: nat | i < |logs| && logs[i].createdAt >= since
  }

  /** `countDocuments({createdAt: {$gte: since}})`: the count is exactly the number
      of logs created at or after `since`. */
  lemma {:induction false} CountSinceCounts(logs: seq<ScanLogRecord>, since: Time)
    ensures CountSince(logs, since) == |SinceIndices(logs, since)|
    decreases |logs|
  {
    if logs != [] {
      var tail := logs[1..];
      CountSinceCounts(tail, since);
      var t := SinceIndices(tail, since);
      ShiftSize(t);
      var head: set<nat> := if logs[0].createdAt >= since then {0} else {};
      assert SinceIndices(logs, since) == head + Shifted(t) by {
        forall i: nat ensures i in SinceIndices(logs, since) <==> i in head + Shifted(t) {
          if 0 < i < |logs| {
            assert logs[i] == tail[i - 1];
            assert i in Shifted(t) <==> i - 1 in t;
          }
        }
      }
      assert head !! Shifted(t);
    }
  }

  /** A set of positions, each moved one place on. */
  ghost function Shifted(t: set<nat>): set<nat> {
    set i | i in t :: i + 1
  }

  lemma {:induction false} ShiftSize(t: set<nat>)
    ensures |Shifted(t)| == |t|
    decreases |t|
  {
    if t != {} {
      var x :| x in t;
      ShiftSize(t - {x});
      ShiftSplit(t, x);
    }
  }

  lemma ShiftSplit(t: set<nat>, x: nat)
    requires x in t
    ensures Shifted(t) == Shifted(t - {x}) + {x + 1} && x + 1 !in Shifted(t - {x})
  {
    forall j: nat ensures j in Shifted(t) <==> j in Shifted(t - {x}) + {x + 1} {
      assert j in Shifted(t) <==> j > 0 && j - 1 in t;
      assert j in Shifted(t - {x}) <==> j > 0 && j - 1 in t - {x};
    }
  }

  datatype Stats = Stats(
    users: nat,
    vehicles: nat,
    activeVehicles: nat,
    qrAvailable: nat,
    qrActivated: nat,
    qrTotal: nat,
    scans: nat,
    scansLast7Days: nat)

  /** `GET /stats` at time `now`. */
  function GetStats(d: Data, now: Time): (s: Stats)
    ensures s.users == |d.users| && s.vehicles == |d.vehicles| && s.scans == |d.scanLogs|
    ensures s.activeVehicles <= s.vehicles && s.scansLast7Days <= s.scans
  {
    var available := |WithStatus(d.qrCodes, Available)|;
    var activated := |WithStatus(d.qrCodes, Activated)|;
    Stats(|d.users|, |d.vehicles|, CountActive(d.vehicles), available, activated, available + activated,
          |d.scanLogs|, CountSince(d.scanLogs, now - WEEK_MS))
  }

  /** The QR total leaves out the disabled codes: with them it is the size of the
      collection. */
  lemma QrTotalExcludesDisabled(d: Data, now: Time)
    ensures GetStats(d, now).qrTotal + |WithStatus(d.qrCodes, Disabled)| == |d.qrCodes|
  {
    var a, b, c := WithStatus(d.qrCodes, Available), WithStatus(d.qrCodes, Activated), WithStatus(d.qrCodes, Disabled);
    assert a * b == {} && (a + b) * c == {};
    assert a + b + c == d.qrCodes.Keys;
  }

  /** The QR codes of the active vehicles. */
  function ActiveCodes(vs: seq<VehicleRecord>): (r: set<string>)
    ensures forall q | q in r :: exists i | 0 <= i < |vs| :: vs[i].isActive && vs[i].qrCodeId == q
    decreases |vs|
  {
    if vs == [] then {}
    else
      var rest := ActiveCodes(vs[1..]);
      assert forall q | q in rest :: exists i | 0 <= i < |vs| :: vs[i].isActive && vs[i].qrCodeId == q by {
        forall q | q in rest ensures exists i | 0 <= i < |vs| :: vs[i].isActive && vs[i].qrCodeId == q {
          var i :| 0 <= i < |vs[1..]| && vs[1..][i].isActive && vs[1..][i].qrCodeId == q;
          assert vs[i + 1] == vs[1..][i];
        }
      }
      (if vs[0].isActive then {vs[0].qrCodeId} else {}) + rest
  }

  /** Under the store invariant every active vehicle's code is activated, so the
      dashboard never shows more active vehicles than activated codes. */
  lemma ActiveVehiclesWithinActivated(d: Data, now: Time)
    requires Valid(d)
    ensures GetStats(d, now).activeVehicles <= GetStats(d, now).qrActivated
  {
    var ids := ActiveCodes(d.vehicles);
    forall q | q in ids ensures q in WithStatus(d.qrCodes, Activated) {
      var i :| 0 <= i < |d.vehicles| && d.vehicles[i].isActive && d.vehicles[i].qrCodeId == q;
      assert VehicleFits(d, d.vehicles[i]);
    }
    SubsetSize(ids, WithStatus(d.qrCodes, Activated));
    ActiveCodesCount(d.vehicles);
  }

  /** Distinct QR codes make the active vehicles' codes as many as the active
      vehicles. */
  lemma {:induction false} ActiveCodesCount(vs: seq<VehicleRecord>)
    requires QrCodeIdsUnique(vs)
    ensures |ActiveCodes(vs)| == CountActive(vs)
    decreases |vs|
  {
    if vs != [] {
      var tail := vs[1..];
      assert QrCodeIdsUnique(tail) by {
        forall i, j | 0 <= i < j < |tail| ensures tail[i].qrCodeId != tail[j].qrCodeId {
          assert tail[i] == vs[i + 1] && tail[j] == vs[j + 1];
        }
      }
      ActiveCodesCount(tail);
      forall i | 0 <= i < |tail| ensures tail[i].qrCodeId != vs[0].qrCodeId {
        assert tail[i] == vs[i + 1];
      }
      assert vs[0].qrCodeId !in ActiveCodes(tail);
    }
  }

  // ---------------------------------------------------------------------------
  // Generating a batch of QR codes

  /** The chains of `POST /qr-codes/generate`: `count` in 1..1000, and an optional
      `batchId` at most 50 long after trimming. */
  function GenerateErrors(count: int, batchId: Option<string>): (errs: seq<FieldError>)
    ensures errs == [] <==> 1 <= count <= MAX_BATCH && (batchId.None? || ValidatorLength(Trim(batchId.value)) <= BATCH_ID_MAX)
  {
    Check(1 <= count <= MAX_BATCH, "count", COUNT_MESSAGE)
    + (if batchId.None? then [] else Check(IsLength(Trim(batchId.value), None, Some(BATCH_ID_MAX)), "batchId", DEFAULT_MESSAGE))
  }

  /** `String(Date.now())`. */
  function Timestamp(now: Time): string {
    if now < 0 then "-" + DecimalString(-now) else DecimalString(now)
  }

  /** `batchId || 'BATCH-' + Date.now()` for the trimmed `batchId`. */
  function BatchLabel(batchId: Option<string>, now: Time): (tag: string)
    ensures tag != ""
    ensures batchId.Some? && Trim(batchId.value) != "" ==> tag == Trim(batchId.value)
    ensures !(batchId.Some? && Trim(batchId.value) != "") ==> |tag| > |BATCH_PREFIX| && tag[..|BATCH_PREFIX|] == BATCH_PREFIX
  {
    if batchId.Some? && Trim(batchId.value) != "" then Trim(batchId.value) else BATCH_PREFIX + Timestamp(now)
  }

  /** `batch.filter(b => !existingSet.has(b.qrId))`: the generated entries whose id is
      not already a stored code, in their order. */
  function Fresh(batch: seq<BatchEntry>, codes: map<string, QrCodeRecord>): (r: seq<BatchEntry>)
    ensures |r| <= |batch|
    ensures forall e :: e in r <==> e in batch && e.qrId !in codes
    decreases |batch|
  {
    if batch == [] then []
    else (if batch[0].qrId in codes then [] else [batch[0]]) + Fresh(batch[1..], codes)
  }

  /** Filtering a concatenation filters each part, so the kept entries keep their
      order. */
  lemma {:induction false} FreshConcat(a: seq<BatchEntry>, b: seq<BatchEntry>, codes: map<string, QrCodeRecord>)
    ensures Fresh(a + b, codes) == Fresh(a, codes) + Fresh(b, codes)
    decreases |a|
  {
    if a == [] {
      assert a + b == b;
    } else {
      assert (a + b)[0] == a[0] && (a + b)[1..] == a[1..] + b;
      FreshConcat(a[1..], b, codes);
    }
  }

  /** No two entries share an id. */
  predicate IdsDistinct(b: seq<BatchEntry>) {
    forall i, j | 0 <= i < j < |b| :: b[i].qrId != b[j].qrId
  }

  lemma DistinctIds(b: seq<BatchEntry>)
    ensures Distinct(QrIds(b)) <==> IdsDistinct(b)
  {
    var ids := QrIds(b);
    assert forall i | 0 <= i < |b| :: ids[i] == b[i].qrId;
  }

  /** The kept entries of a batch with distinct ids have distinct ids. */
  lemma {:induction false} FreshDistinct(batch: seq<BatchEntry>, codes: map<string, QrCodeRecord>)
    requires IdsDistinct(batch)
    ensures IdsDistinct(Fresh(batch, codes))
    decreases |batch|
  {
    if batch != [] {
      var tail := batch[1..];
      assert IdsDistinct(tail) by {
        forall i, j | 0 <= i < j < |tail| ensures tail[i].qrId != tail[j].qrId {
          assert tail[i] == batch[i + 1] && tail[j] == batch[j + 1];
        }
      }
      FreshDistinct(tail, codes);
      var rest := Fresh(tail, codes);
      forall k | 0 <= k < |tail| ensures tail[k].qrId != batch[0].qrId {
        assert tail[k] == batch[k + 1];
      }
      forall j | 0 <= j < |rest| ensures rest[j].qrId != batch[0].qrId {
        assert rest[j] in tail;
      }
      if batch[0].qrId !in codes {
        var r := [batch[0]] + rest;
        assert Fresh(batch, codes) == r;
        forall i, j | 0 <= i < j < |r| ensures r[i].qrId != r[j].qrId {
          assert r[j] == rest[j - 1];
          if i > 0 {
            assert r[i] == rest[i - 1];
          }
        }
      } else {
        assert Fresh(batch, codes) == rest;
      }
    }
  }

  /** Entries with distinct ids are told apart by their id. */
  lemma IdsIdentify(entries: seq<BatchEntry>)
    requires IdsDistinct(entries)
    ensures forall e1, e2 | e1 in entries && e2 in entries && e1.qrId == e2.qrId :: e1 == e2
  {
    forall e1, e2 | e1 in entries && e2 in entries && e1.qrId == e2.qrId ensures e1 == e2 {
      var i :| 0 <= i < |entries| && entries[i] == e1;
      var j :| 0 <= j < |entries| && entries[j] == e2;
    }
  }

  /** The documents `insertMany` stores for the kept entries, keyed by id. */
  function Inserted(entries: seq<BatchEntry>, tag: string, now: Time): (m: map<string, QrCodeRecord>)
    requires IdsDistinct(entries)
    ensures forall e | e in entries :: e.qrId in m && m[e.qrId] == NewQrCode(e.qrId, e.activationPin, Some(tag), now)
    ensures forall k | k in m :: exists e | e in entries :: e.qrId == k
  {
    assert forall e1, e2 | e1 in entries && e2 in entries && e1.qrId == e2.qrId :: e1 == e2 by {
      IdsIdentify(entries);
    }
    map e | e in entries :: e.qrId := NewQrCode(e.qrId, e.activationPin, Some(tag), now)
  }

  /** One code of the reply, with the address printed on it. */
  datatype GeneratedCode = GeneratedCode(qrId: string, activationPin: string, url: string)

  /** The reply body: how many codes were stored, their common batch id (absent when
      none was stored), and the codes. */
  datatype Generated = Generated(generated: nat, batchId: Option<string>, qrCodes: seq<GeneratedCode>)

  function Listed(entries: seq<BatchEntry>): (r: seq<GeneratedCode>)
    ensures |r| == |entries|
    ensures forall i | 0 <= i < |r| :: r[i] == GeneratedCode(entries[i].qrId, entries[i].activationPin, QR_URL_PREFIX + entries[i].qrId)
  {
    seq(|entries|, i requires 0 <= i < |entries| => GeneratedCode(entries[i].qrId, entries[i].activationPin, QR_URL_PREFIX + entries[i].qrId))
  }

  /** The handler after validation, given the batch `generateBatch(count)` returned
      (its ids are distinct) and the batch tag. */
  function GenerateValidated(d: Data, tag: string, batch: seq<BatchEntry>, now: Time): (o: Outcome<Generated>)
    requires Distinct(QrIds(batch))
    ensures o.reply.Ok? && o.reply.status == 201
    ensures o.data == d.(qrCodes := o.data.qrCodes)
  {
    var kept := Fresh(batch, d.qrCodes);
    assert IdsDistinct(kept) by {
      DistinctIds(batch);
      FreshDistinct(batch, d.qrCodes);
    }
    Outcome(d.(qrCodes := d.qrCodes + Inserted(kept, tag, now)),
            Ok(201, Generated(|kept|, if kept == [] then None else Some(tag), Listed(kept))))
  }

  /** What generation stores and answers: the batch less the ids already taken, in
      the batch's order, each stored as an available code under the one tag;
      every other code is left as it was. */
  lemma GenerateStoresFresh(d: Data, tag: string, batch: seq<BatchEntry>, now: Time)
    requires Distinct(QrIds(batch))
    ensures var o := GenerateValidated(d, tag, batch, now);
      var kept := Fresh(batch, d.qrCodes);
      && o.reply.value.generated == |kept| <= |batch|
      && o.reply.value.qrCodes == Listed(kept)
      && (forall e | e in kept :: e.qrId !in d.qrCodes && o.data.qrCodes[e.qrId] == NewQrCode(e.qrId, e.activationPin, Some(tag), now))
      && (forall k | k in d.qrCodes :: k in o.data.qrCodes && o.data.qrCodes[k] == d.qrCodes[k])
      && (forall k | k in o.data.qrCodes && k !in d.qrCodes :: o.data.qrCodes[k].batchId == Some(tag) && o.data.qrCodes[k].status == Available)
  {
    var kept := Fresh(batch, d.qrCodes);
    DistinctIds(batch);
    FreshDistinct(batch, d.qrCodes);
    var m := Inserted(kept, tag, now);
    forall k | k in d.qrCodes ensures k !in m {
      assert forall e | e in kept :: e.qrId != k;
    }
  }

  /** Every code a generation hands out can then be activated with its PIN. */
  lemma GeneratedCodesActivatable(d: Data, tag: string, batch: seq<BatchEntry>, now: Time, i: nat)
    requires Keyed(d.qrCodes) && Distinct(QrIds(batch))
    requires i < |GenerateValidated(d, tag, batch, now).reply.value.qrCodes|
    ensures var o := GenerateValidated(d, tag, batch, now);
      var c := o.reply.value.qrCodes[i];
      && Keyed(o.data.qrCodes)
      && GetAvailable(o.data.qrCodes, c.qrId).Some?
      && GetAvailable(o.data.qrCodes, c.qrId).value.activationPin == c.activationPin
  {
    GenerateStoresFresh(d, tag, batch, now);
    GenerateKeepsKeyed(d, tag, batch, now);
    var kept := Fresh(batch, d.qrCodes);
    assert kept[i] in kept;
  }

  lemma GenerateKeepsKeyed(d: Data, tag: string, batch: seq<BatchEntry>, now: Time)
    requires Keyed(d.qrCodes) && Distinct(QrIds(batch))
    ensures Keyed(GenerateValidated(d, tag, batch, now).data.qrCodes)
  {
    var kept := Fresh(batch, d.qrCodes);
    DistinctIds(batch);
    FreshDistinct(batch, d.qrCodes);
    var m := Inserted(kept, tag, now);
    forall k | k in m ensures m[k].qrId == k {
      var e :| e in kept && e.qrId == k;
    }
  }

  /** Generation keeps the database consistent: no stored code changes. */
  lemma GenerateKeepsValid(d: Data, tag: string, batch: seq<BatchEntry>, now: Time)
    requires Valid(d) && Distinct(QrIds(batch))
    ensures Valid(GenerateValidated(d, tag, batch, now).data)
  {
    GenerateStoresFresh(d, tag, batch, now);
    GenerateKeepsKeyed(d, tag, batch, now);
    var o := GenerateValidated(d, tag, batch, now);
    forall j | 0 <= j < |o.data.vehicles| ensures VehicleFits(o.data, o.data.vehicles[j]) {
      assert VehicleFits(d, d.vehicles[j]);
    }
  }

  /** `POST /qr-codes/generate`: validate, draw the batch, drop the ids already
      taken, insert the rest. `idPicks` and `pinPicks` are the random draws. */
  method GenerateCodes(db: Db, count: int, batchId: Option<string>,
                       idPicks: seq<seq<nat>>, pinPicks: seq<seq<nat>>, now: Time) returns (reply: Reply<Generated>)
    requires forall k | 0 <= k < |idPicks| :: IsDraw(idPicks[k], QR_ID_LENGTH, |ALPHABET|)
    requires |pinPicks| >= count && forall k | 0 <= k < |pinPicks| :: IsDraw(pinPicks[k], PIN_LENGTH, |PIN_ALPHABET|)
    modifies db
    ensures GenerateErrors(count, batchId) != [] ==>
              reply == Invalid(GenerateErrors(count, batchId)) && db.Snapshot() == old(db.Snapshot())
    ensures GenerateErrors(count, batchId) == [] ==>
              var batch := Batch(count, DrawnIds(idPicks), DrawnPins(pinPicks));
              Distinct(QrIds(batch))
              && Outcome(db.Snapshot(), reply) == GenerateValidated(old(db.Snapshot()), BatchLabel(batchId, now), batch, now)
  {
    var errs := GenerateErrors(count, batchId);
    if errs != [] {
      return Invalid(errs);
    }
    var batch := GenerateBatch(count, idPicks, pinPicks);
    var kept := Fresh(batch, db.qrCodes);
    DistinctIds(batch);
    FreshDistinct(batch, db.qrCodes);
    var tag := BatchLabel(batchId, now);
    db.qrCodes := db.qrCodes + Inserted(kept, tag, now);
    reply := Ok(201, Generated(|kept|, if kept == [] then None else Some(tag), Listed(kept)));
  }

  // ---------------------------------------------------------------------------
  // Pagination and the user listing

  /** The `page` and `limit` query chains: `page` at least 1, `limit` in 1..100. */
  function PageErrors(page: Option<int>, limit: Option<int>): (errs: seq<FieldError>)
    ensures errs == [] <==> (page.None? || page.value >= 1) && (limit.None? || 1 <= limit.value <= MAX_LIMIT)
  {
    (if page.None? then [] else Check(page.value >= 1, "page", DEFAULT_MESSAGE))
    + (if limit.None? then [] else Check(1 <= limit.value <= MAX_LIMIT, "limit", DEFAULT_MESSAGE))
  }

  datatype Pagination = Pagination(page: nat, limit: nat, total: nat, pages: nat)

  /** `Math.ceil(total / limit)`. */
  function Pages(total: nat, limit: nat): (n: nat)
    requires limit >= 1
    ensures n * limit >= total
    ensures n > 0 ==> (n - 1) * limit < total
  {
    (total + limit - 1) / limit
  }

  /** `.skip(s).limit(l)` over the sorted documents. */
  function Window<T>(items: seq<T>, skip: nat, limit: nat): (r: seq<T>)
    ensures |r| <= limit
    ensures skip + |r| <= |items| || r == []
    ensures forall i | 0 <= i < |r| :: skip + i < |items| && r[i] == items[skip + i]
    ensures skip + limit <= |items| ==> |r| == limit
  {
    if skip >= |items| then []
    else if skip + limit <= |items| then items[skip..skip + limit]
    else items[skip..]
  }

  /** The page numbers and the window: page 1 and limit 50 unless given, skip
      `(page - 1) * limit`. */
  function Paginate(page: Option<int>, limit: Option<int>, total: nat): (p: Pagination)
    requires PageErrors(page, limit) == []
    ensures p.page >= 1 && 1 <= p.limit <= MAX_LIMIT && p.total == total
    ensures page.None? ==> p.page == DEFAULT_PAGE
    ensures limit.None? ==> p.limit == DEFAULT_LIMIT
    ensures page.Some? ==> p.page == page.value
    ensures limit.Some? ==> p.limit == limit.value
    ensures p.pages == Pages(total, p.limit)
  {
    var pg := if page.None? then DEFAULT_PAGE else page.value;
    var l := if limit.None? then DEFAULT_LIMIT else limit.value;
    Pagination(pg, l, total, Pages(total, l))
  }

  function Skip(p: Pagination): nat {
    if p.page >= 1 then (p.page - 1) * p.limit else 0
  }

  /** Each of `total` items is on exactly one page: the k-th (from 0) is at offset
      `k % limit` of page `k / limit + 1`, which is at most the page count. */
  lemma PageCovers(total: nat, limit: nat, k: nat)
    requires limit >= 1 && k < total
    ensures var pg := k / limit + 1;
      && pg <= Pages(total, limit)
      && (pg - 1) * limit <= k < pg * limit
      && k - (pg - 1) * limit == k % limit
  {
    var q, r := k / limit, k % limit;
    assert k == q * limit + r;
    var n := Pages(total, limit);
    assert (q + 1) * limit == q * limit + limit;
    MulStrict(n, q, limit);
  }

  /** A larger product with the same positive factor has the larger cofactor. */
  lemma MulStrict(a: nat, b: nat, c: nat)
    requires c > 0 && a * c > b * c
    ensures a > b
  {
  }

  /** A row of the user listing: no phone, no phone hash. */
  datatype UserRow = UserRow(id: Id, name: string, isVerified: bool, isActive: bool, role: Role, createdAt: Time)

  datatype UserList = UserList(users: seq<UserRow>, pagination: Pagination)

  function Row(us: seq<UserRecord>, id: Id): (r: UserRow)
    requires id < |us|
    ensures r.id == id && r.name == us[id].name && r.role == us[id].role && r.createdAt == us[id].createdAt
  {
    UserRow(id, us[id].name, us[id].isVerified, us[id].isActive, us[id].role, us[id].createdAt)
  }

  /** The user ids, newest first. */
  function NewestFirst(n: nat): (ids: seq<Id>)
    ensures |ids| == n && forall i | 0 <= i < n :: ids[i] == n - 1 - i
  {
    seq(n, i requires 0 <= i < n => n - 1 - i)
  }

  /** `GET /users`. */
  function ListUsers(d: Data, page: Option<int>, limit: Option<int>): (r: Reply<UserList>)
    ensures r.Invalid? <==> PageErrors(page, limit) != []
    ensures r.Ok? ==>
              var p := r.value.pagination;
              && p == Paginate(page, limit, |d.users|)
              && p.total == |d.users| && |r.value.users| <= p.limit <= MAX_LIMIT
              && |r.value.users| == (if Skip(p) >= |d.users| then 0
                                     else if Skip(p) + p.limit <= |d.users| then p.limit
                                     else |d.users| - Skip(p))
              && forall i | 0 <= i < |r.value.users| ::
                   Skip(p) + i < |d.users| && r.value.users[i] == Row(d.users, |d.users| - 1 - (Skip(p) + i))
  {
    var errs := PageErrors(page, limit);
    if errs != [] then Invalid(errs)
    else
      var p := Paginate(page, limit, |d.users|);
      var ids := Window(NewestFirst(|d.users|), Skip(p), p.limit);
      Ok(200, UserList(seq(|ids|, i requires 0 <= i < |ids| => Row(d.users, ids[i])), p))
  }
}
