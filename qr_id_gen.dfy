/** QR-id and activation-PIN generation (the nanoid `customAlphabet` generators and
    `generateBatch`).

    Randomness is an input: a generator call draws one alphabet index per symbol,
    and the caller passes the indices each call draws. `generateBatch` keeps
    drawing until it has `count` distinct ids; here the id draws are a finite
    sequence, and the loop also stops when it runs out of them. */
module QrIdGen {
  import opened Base
  import Validators

  /** The QR-id alphabet: no 0, O or I. It has 33 symbols, so there are 33^7
      ids, not the 34^7 its comment states. */
  const ALPHABET := "123456789ABCDEFGHJKLMNPQRSTUVWXYZ"
  const PIN_ALPHABET := "0123456789"
  const QR_ID_LENGTH := 7
  const PIN_LENGTH := 6

  lemma AlphabetFacts()
    ensures |ALPHABET| == 33 && |PIN_ALPHABET| == 10
    ensures '0' !in ALPHABET && 'O' !in ALPHABET && 'I' !in ALPHABET && 'l' !in ALPHABET
  {
    AlphabetIsQrIdClass('0');
    AlphabetIsQrIdClass('O');
    AlphabetIsQrIdClass('I');
    AlphabetIsQrIdClass('l');
  }

  /** The generator alphabet is exactly the character class of the QR-id validator. */
  lemma AlphabetIsQrIdClass(c: char)
    ensures c in ALPHABET <==> Validators.IsQrIdChar(c)
  {
    if Validators.IsQrIdChar(c) {
      QrIdCharInAlphabet(c);
    }
    if c in ALPHABET {
      AlphabetChars();
    }
  }

  lemma QrIdCharInAlphabet(c: char)
    requires Validators.IsQrIdChar(c)
    ensures c in ALPHABET
  {
    if '1' <= c <= '9' {
      assert ALPHABET[c as int - '1' as int] == c;
    } else if c < 'I' {
      assert ALPHABET[9 + c as int - 'A' as int] == c;
    } else if c < 'O' {
      assert ALPHABET[8 + c as int - 'A' as int] == c;
    } else {
      assert ALPHABET[7 + c as int - 'A' as int] == c;
    }
  }

  /** Every symbol of the alphabet is in the validator's class: the alphabet is
      four runs of such symbols. */
  lemma AlphabetChars()
    ensures forall c | c in ALPHABET :: Validators.IsQrIdChar(c)
  {
    var a, b, c, d := "123456789", "ABCDEFGH", "JKLMN", "PQRSTUVWXYZ";
    assert ALPHABET == a + b + c + d;
    RunWithin(a, '1', '9');
    RunWithin(b, 'A', 'H');
    RunWithin(c, 'J', 'N');
    RunWithin(d, 'P', 'Z');
    forall x | x in ALPHABET ensures Validators.IsQrIdChar(x) {
      assert x in a || x in b || x in c || x in d;
    }
  }

  /** A run of symbols between two bounds, checked one symbol at a time. */
  lemma RunWithin(s: string, lo: char, hi: char)
    requires forall i | 0 <= i < |s| :: lo <= s[i] <= hi
    ensures forall x | x in s :: lo <= x <= hi
  {
  }

  /** The indices one call of a `customAlphabet` generator draws. */
  predicate IsDraw(picks: seq<nat>, size: nat, alphabetSize: nat) {
    |picks| == size && forall i | 0 <= i < |picks| :: picks[i] < alphabetSize
  }

  /** One `customAlphabet(alphabet, size)` call: the symbols at the drawn indices. */
  function Symbols(alphabet: string, picks: seq<nat>): (r: string)
    requires forall i | 0 <= i < |picks| :: picks[i] < |alphabet|
    ensures |r| == |picks| && forall i | 0 <= i < |r| :: r[i] in alphabet
  {
    seq(|picks|, i requires 0 <= i < |picks| => alphabet[picks[i]])
  }

  /** `generateQrId()`: seven symbols of `ALPHABET`. */
  function GenerateQrId(picks: seq<nat>): (id: string)
    requires IsDraw(picks, QR_ID_LENGTH, |ALPHABET|)
    ensures |id| == QR_ID_LENGTH && forall i | 0 <= i < |id| :: id[i] in ALPHABET
  {
    Symbols(ALPHABET, picks)
  }

  /** The QR-id validator accepts every generated id. */
  lemma GeneratedQrIdValid(picks: seq<nat>)
    requires IsDraw(picks, QR_ID_LENGTH, |ALPHABET|)
    ensures Validators.QrIdErrors(GenerateQrId(picks)) == []
  {
    var id := GenerateQrId(picks);
    forall i | 0 <= i < |id| ensures Validators.IsQrIdChar(id[i]) && !IsSpace(id[i]) {
      AlphabetIsQrIdClass(id[i]);
    }
    TrimNoSpace(id);
  }

  /** `generatePin()`: six decimal digits. */
  function GeneratePin(picks: seq<nat>): (pin: string)
    requires IsDraw(picks, PIN_LENGTH, |PIN_ALPHABET|)
    ensures Validators.SixDigits(pin)
  {
    var pin := Symbols(PIN_ALPHABET, picks);
    assert AllDigits(pin);
    pin
  }

  /** Both PIN checks accept every generated PIN. */
  lemma GeneratedPinValid(picks: seq<nat>)
    requires IsDraw(picks, PIN_LENGTH, |PIN_ALPHABET|)
    ensures Validators.PinErrors(GeneratePin(picks)) == [] && Validators.PinErrorsCorrected(GeneratePin(picks)) == []
  {
    Validators.SixDigitsPassPin(GeneratePin(picks));
  }

  /** One element of the array `generateBatch` returns. */
  datatype BatchEntry = BatchEntry(qrId: string, activationPin: string)

  function QrIds(b: seq<BatchEntry>): (ids: seq<string>)
    ensures |ids| == |b| && forall i | 0 <= i < |b| :: ids[i] == b[i].qrId
  {
    seq(|b|, i requires 0 <= i < |b| => b[i].qrId)
  }

  predicate Distinct(ids: seq<string>) {
    forall i, j | 0 <= i < j < |ids| :: ids[i] != ids[j]
  }

  /** The ids that successive `generateQrId()` calls return. */
  function DrawnIds(idPicks: seq<seq<nat>>): (ids: seq<string>)
    requires forall k | 0 <= k < |idPicks| :: IsDraw(idPicks[k], QR_ID_LENGTH, |ALPHABET|)
    ensures |ids| == |idPicks|
  {
    seq(|idPicks|, k requires 0 <= k < |idPicks| => GenerateQrId(idPicks[k]))
  }

  /** The PINs that successive `generatePin()` calls return. */
  function DrawnPins(pinPicks: seq<seq<nat>>): (pins: seq<string>)
    requires forall k | 0 <= k < |pinPicks| :: IsDraw(pinPicks[k], PIN_LENGTH, |PIN_ALPHABET|)
    ensures |pins| == |pinPicks|
  {
    seq(|pinPicks|, k requires 0 <= k < |pinPicks| => GeneratePin(pinPicks[k]))
  }

  /** The batch after the candidate ids `ids` have been drawn in turn: a candidate
      is taken while the batch is short of `count` and its id is new; the i-th
      entry taken gets the i-th PIN drawn. */
  function Batch(count: nat, ids: seq<string>, pins: seq<string>): (b: seq<BatchEntry>)
    requires |pins| >= count
    ensures |b| <= count
    decreases |ids|
  {
    if ids == [] then []
    else
      var prev := Batch(count, ids[..|ids| - 1], pins);
      var id := ids[|ids| - 1];
      if |prev| == count || id in QrIds(prev) then prev
      else prev + [BatchEntry(id, pins[|prev|])]
  }

  /** The ids of a batch are pairwise distinct, each was drawn, and the i-th entry
      carries the i-th PIN drawn (no PIN is drawn for a repeated candidate). */
  lemma {:induction false} BatchWellFormed(count: nat, ids: seq<string>, pins: seq<string>)
    requires |pins| >= count
    ensures var b := Batch(count, ids, pins);
      && Distinct(QrIds(b))
      && (forall i | 0 <= i < |b| :: b[i].qrId in ids && b[i].activationPin == pins[i])
    decreases |ids|
  {
    if ids != [] {
      var pre := ids[..|ids| - 1];
      BatchWellFormed(count, pre, pins);
      var prev := Batch(count, pre, pins);
      var b := Batch(count, ids, pins);
      forall i | 0 <= i < |b| ensures b[i].qrId in ids {
        if i < |prev| { assert b[i] == prev[i]; assert prev[i].qrId in pre; }
      }
      assert forall i | 0 <= i < |prev| :: QrIds(prev)[i] == prev[i].qrId;
    }
  }

  /** A batch that stops short of `count` holds every id drawn. */
  lemma {:induction false} BatchCoversDraws(count: nat, ids: seq<string>, pins: seq<string>)
    requires |pins| >= count
    ensures var b := Batch(count, ids, pins);
      |b| < count ==> forall k | 0 <= k < |ids| :: ids[k] in QrIds(b)
    decreases |ids|
  {
    if ids != [] {
      var pre := ids[..|ids| - 1];
      BatchCoversDraws(count, pre, pins);
      var prev := Batch(count, pre, pins);
      var b := Batch(count, ids, pins);
      if |b| < count {
        assert |prev| < count;
        assert forall j | 0 <= j < |prev| :: QrIds(b)[j] == QrIds(prev)[j];
        forall k | 0 <= k < |ids| ensures ids[k] in QrIds(b) {
          if k < |pre| {
            assert ids[k] == pre[k];
            var j :| 0 <= j < |prev| && QrIds(prev)[j] == ids[k];
            assert QrIds(b)[j] == ids[k];
          } else if ids[k] in QrIds(prev) {
            var j :| 0 <= j < |prev| && QrIds(prev)[j] == ids[k];
            assert QrIds(b)[j] == ids[k];
          } else {
            assert QrIds(b)[|prev|] == ids[k];
          }
        }
      }
    }
  }

  /** Once the batch is full, further draws change nothing. */
  lemma {:induction false} BatchStable(count: nat, ids: seq<string>, more: seq<string>, pins: seq<string>)
    requires |pins| >= count
    requires |Batch(count, ids, pins)| == count
    ensures Batch(count, ids + more, pins) == Batch(count, ids, pins)
    decreases |more|
  {
    if more != [] {
      var front := more[..|more| - 1];
      assert (ids + more)[..|ids + more| - 1] == ids + front;
      BatchStable(count, ids, front, pins);
    } else {
      assert ids + more == ids;
    }
  }

  lemma {:induction false} DistinctSetSize(ids: seq<string>)
    requires Distinct(ids)
    ensures |set i | 0 <= i < |ids| :: ids[i]| == |ids|
    decreases |ids|
  {
    if ids != [] {
      var pre := ids[..|ids| - 1];
      DistinctSetSize(pre);
      var s := set i | 0 <= i < |ids| :: ids[i];
      var t := set i | 0 <= i < |pre| :: pre[i];
      assert s == t + {ids[|ids| - 1]};
      assert ids[|ids| - 1] !in t;
    }
  }

  lemma {:induction false} SubsetSize(a: set<string>, b: set<string>)
    requires a <= b
    ensures |a| <= |b|
    decreases |a|
  {
    if a != {} {
      var x :| x in a;
      SubsetSize(a - {x}, b - {x});
    }
  }

  /** When the draws hold at least `count` distinct ids, the batch is full. */
  lemma BatchFull(count: nat, ids: seq<string>, pins: seq<string>)
    requires |pins| >= count
    requires |set k | 0 <= k < |ids| :: ids[k]| >= count
    ensures |Batch(count, ids, pins)| == count
  {
    var b := Batch(count, ids, pins);
    BatchWellFormed(count, ids, pins);
    BatchCoversDraws(count, ids, pins);
    if |b| < count {
      var drawn := set k | 0 <= k < |ids| :: ids[k];
      var taken := set i | 0 <= i < |QrIds(b)| :: QrIds(b)[i];
      assert drawn <= taken;
      DistinctSetSize(QrIds(b));
      SubsetSize(drawn, taken);
      assert false;
    }
  }

  /** Drawing one more candidate extends the batch as `Batch` prescribes. */
  lemma BatchExtend(count: nat, ids: seq<string>, k: nat, pins: seq<string>)
    requires |pins| >= count && k < |ids|
    ensures var prev := Batch(count, ids[..k], pins);
      Batch(count, ids[..k + 1], pins) ==
        if |prev| == count || ids[k] in QrIds(prev) then prev
        else prev + [BatchEntry(ids[k], pins[|prev|])]
  {
    assert ids[..k + 1][..k] == ids[..k];
  }

  /** A generated id and PIN pass the validators of the activation route. */
  predicate ValidEntry(e: BatchEntry) {
    Validators.QrIdErrors(e.qrId) == [] && Validators.SixDigits(e.activationPin)
  }

  /** Every entry of a batch holds a generated id and a generated PIN. */
  lemma BatchEntriesValid(count: nat, idPicks: seq<seq<nat>>, pinPicks: seq<seq<nat>>)
    requires forall k | 0 <= k < |idPicks| :: IsDraw(idPicks[k], QR_ID_LENGTH, |ALPHABET|)
    requires |pinPicks| >= count && forall k | 0 <= k < |pinPicks| :: IsDraw(pinPicks[k], PIN_LENGTH, |PIN_ALPHABET|)
    ensures var b := Batch(count, DrawnIds(idPicks), DrawnPins(pinPicks));
      forall i | 0 <= i < |b| :: ValidEntry(b[i])
  {
    var ids := DrawnIds(idPicks);
    var pins := DrawnPins(pinPicks);
    var b := Batch(count, ids, pins);
    BatchWellFormed(count, ids, pins);
    forall i | 0 <= i < |b| ensures ValidEntry(b[i]) {
      var j :| 0 <= j < |ids| && ids[j] == b[i].qrId;
      GeneratedEntryValid(idPicks[j], pinPicks[i], b[i]);
    }
  }

  lemma GeneratedEntryValid(idDraw: seq<nat>, pinDraw: seq<nat>, e: BatchEntry)
    requires IsDraw(idDraw, QR_ID_LENGTH, |ALPHABET|) && IsDraw(pinDraw, PIN_LENGTH, |PIN_ALPHABET|)
    requires e == BatchEntry(GenerateQrId(idDraw), GeneratePin(pinDraw))
    ensures ValidEntry(e)
  {
    GeneratedQrIdValid(idDraw);
  }

  /** `generateBatch(count)`: draw ids until `count` distinct ones are collected,
      with a PIN drawn for each new id. `seen` is the set of ids in the batch. */
  method GenerateBatch(count: nat, idPicks: seq<seq<nat>>, pinPicks: seq<seq<nat>>) returns (batch: seq<BatchEntry>)
    requires forall k | 0 <= k < |idPicks| :: IsDraw(idPicks[k], QR_ID_LENGTH, |ALPHABET|)
    requires |pinPicks| >= count && forall k | 0 <= k < |pinPicks| :: IsDraw(pinPicks[k], PIN_LENGTH, |PIN_ALPHABET|)
    ensures batch == Batch(count, DrawnIds(idPicks), DrawnPins(pinPicks))
    ensures |batch| <= count && Distinct(QrIds(batch))
    ensures |batch| < count ==> forall id | id in DrawnIds(idPicks) :: id in QrIds(batch)
  {
    ghost var ids := DrawnIds(idPicks);
    ghost var pins := DrawnPins(pinPicks);
    batch := [];
    var seen: set<string> := {};
    var k := 0;
    while |batch| < count && k < |idPicks|
      invariant 0 <= k <= |idPicks|
      invariant batch == Batch(count, ids[..k], pins)
      invariant forall id :: id in seen <==> id in QrIds(batch)
    {
      var qrId := GenerateQrId(idPicks[k]);
      assert qrId == ids[k];
      BatchExtend(count, ids, k, pins);
      if qrId !in seen {
        assert GeneratePin(pinPicks[|batch|]) == pins[|batch|];
        seen := seen + {qrId};
        batch := batch + [BatchEntry(qrId, GeneratePin(pinPicks[|batch|]))];
        assert QrIds(batch) == QrIds(batch[..|batch| - 1]) + [qrId];
      }
      k := k + 1;
    }
    BatchLoopDone(count, ids, k, pins);
    BatchWellFormed(count, ids, pins);
    BatchCoversDraws(count, ids, pins);
  }

  /** The loop of `GenerateBatch` may stop early: once the batch is full, the
      remaining draws change nothing. */
  lemma BatchLoopDone(count: nat, ids: seq<string>, k: nat, pins: seq<string>)
    requires |pins| >= count && k <= |ids|
    requires k < |ids| ==> |Batch(count, ids[..k], pins)| == count
    ensures Batch(count, ids[..k], pins) == Batch(count, ids, pins)
  {
    if k < |ids| {
      BatchStable(count, ids[..k], ids[k..], pins);
      assert ids[..k] + ids[k..] == ids;
    } else {
      assert ids[..k] == ids;
    }
  }
}
