/** Shared vocabulary of the model: optional values, identifiers, the clock, and
    the handful of JavaScript string operations the server code relies on
    (the `\s` class, `trim`, `toUpperCase`, `slice`, `length`, `Number#toString`).

    Dafny strings are sequences of Unicode code points, so a JavaScript string
    with a surrogate pair is one element longer in JavaScript than here;
    `JsLength` gives the JavaScript `length`. */
module Base {

  datatype Option<+T> = None | Some(value: T)

  /** A JavaScript `Date`, as milliseconds since the epoch. */
  type Time = int

  /** A document `_id` of the users or vehicles collection (its insertion index). */
  type Id = nat

  const MINUTE_MS := 60 * 1000
  const DAY_MS := 24 * 60 * MINUTE_MS

  predicate IsDigit(c: char) { '0' <= c <= '9' }

  predicate IsUpper(c: char) { 'A' <= c <= 'Z' }

  predicate IsAsciiLetter(c: char) { 'A' <= c <= 'Z' || 'a' <= c <= 'z' }

  predicate AllDigits(s: string) { forall i | 0 <= i < |s| :: IsDigit(s[i]) }

  predicate AllUpper(s: string) { forall i | 0 <= i < |s| :: IsUpper(s[i]) }

  /** The characters matched by JavaScript's `\s`. */
  predicate IsSpace(c: char) {
    c == '\t' || c == '\n' || c == '\U{000B}' || c == '\U{000C}' || c == '\r' || c == ' '
    || c == '\U{00A0}' || c == '\U{1680}' || ('\U{2000}' <= c <= '\U{200A}')
    || c == '\U{2028}' || c == '\U{2029}' || c == '\U{202F}' || c == '\U{205F}'
    || c == '\U{3000}' || c == '\U{FEFF}'
  }

  predicate NoSpace(s: string) { forall i | 0 <= i < |s| :: !IsSpace(s[i]) }

  /** Drops leading `\s` characters (validator.js `ltrim`). */
  function TrimStart(s: string): (r: string)
    ensures |r| <= |s| && r == s[|s| - |r|..]
    ensures r == [] || !IsSpace(r[0])
    ensures forall i | 0 <= i < |s| - |r| :: IsSpace(s[i])
  {
    if s != [] && IsSpace(s[0]) then TrimStart(s[1..]) else s
  }

  /** Drops trailing `\s` characters (validator.js `rtrim`). */
  function TrimEnd(s: string): (r: string)
    ensures |r| <= |s| && r == s[..|r|]
    ensures r == [] || !IsSpace(r[|r| - 1])
    ensures forall i | |r| <= i < |s| :: IsSpace(s[i])
  {
    if s != [] && IsSpace(s[|s| - 1]) then TrimEnd(s[..|s| - 1]) else s
  }

  /** The `trim()` sanitizer of express-validator: `\s` removed at both ends. */
  function Trim(s: string): string {
    TrimEnd(TrimStart(s))
  }

  /** A string without `\s` characters is left alone by `trim()`. */
  lemma TrimNoSpace(s: string)
    requires NoSpace(s)
    ensures Trim(s) == s
  {
    if s != [] {
      assert !IsSpace(s[0]) && !IsSpace(s[|s| - 1]);
    }
  }

  /** `trim()` leaves a string alone when neither end is a `\s` character. */
  lemma TrimKeepsTrimmedEdges(s: string)
    requires s == [] || (!IsSpace(s[0]) && !IsSpace(s[|s| - 1]))
    ensures Trim(s) == s
  {
  }

  /** The result of `trim()` starts and ends with non-`\s` characters. */
  lemma TrimEdges(s: string)
    ensures var t := Trim(s); t == [] || (!IsSpace(t[0]) && !IsSpace(t[|t| - 1]))
  {
    var t := Trim(s);
    var u := TrimStart(s);
    if t != [] {
      assert t == u[..|t|];
      assert t[0] == u[0];
    }
  }

  /** Trimming twice is trimming once. */
  lemma {:induction false} TrimIdempotent(s: string)
    ensures Trim(Trim(s)) == Trim(s)
  {
    var t := Trim(s);
    assert t == [] || (!IsSpace(t[0]) && !IsSpace(t[|t| - 1])) by {
      var u := TrimStart(s);
      if t != [] {
        assert t == u[..|t|];
        assert t[0] == u[0];
      }
    }
  }

  /** ASCII upper-casing of one character. */
  function UpperChar(c: char): char {
    if 'a' <= c <= 'z' then (c as int - 32) as char else c
  }

  /** `toUpperCase()`, restricted to the ASCII case mapping. */
  function ToUpper(s: string): (r: string)
    ensures |r| == |s|
    ensures forall i | 0 <= i < |s| :: r[i] == UpperChar(s[i])
  {
    seq(|s|, i requires 0 <= i < |s| => UpperChar(s[i]))
  }

  /** JavaScript `s.slice(0, n)`. */
  function SliceHead(s: string, n: nat): (r: string)
    ensures |r| == if n < |s| then n else |s|
    ensures r == s[..|r|]
  {
    if n < |s| then s[..n] else s
  }

  /** JavaScript `s.slice(-n)` for n > 0. */
  function SliceTail(s: string, n: nat): (r: string)
    ensures |r| == if n < |s| then n else |s|
    ensures r == s[|s| - |r|..]
  {
    if n < |s| then s[|s| - n..] else s
  }

  /** JavaScript `length`: UTF-16 code units, two for a character outside the BMP. */
  function JsLength(s: string): (n: nat)
    ensures |s| <= n <= 2 * |s|
  {
    if s == [] then 0 else (if s[0] as int > 0xFFFF then 2 else 1) + JsLength(s[1..])
  }

  /** The length validator.js `isLength` measures: JavaScript `length` minus one per
      surrogate pair and one per variation selector U+FE0E / U+FE0F, i.e. the code
      points other than those two selectors. */
  function ValidatorLength(s: string): (n: nat)
    ensures n <= |s|
  {
    if s == [] then 0
    else (if s[0] == '\U{FE0E}' || s[0] == '\U{FE0F}' then 0 else 1) + ValidatorLength(s[1..])
  }

  /** On strings of BMP characters without variation selectors, the two lengths agree
      with the number of characters. */
  lemma {:induction false} PlainLengths(s: string)
    requires forall i | 0 <= i < |s| :: s[i] as int <= 0xFFFF && s[i] != '\U{FE0E}' && s[i] != '\U{FE0F}'
    ensures JsLength(s) == |s| && ValidatorLength(s) == |s|
  {
    if s != [] {
      PlainLengths(s[1..]);
    }
  }

  /** Without variation selectors, `isLength` measures the number of characters. */
  lemma {:induction false} ValidatorLengthPlain(s: string)
    requires forall i | 0 <= i < |s| :: s[i] != '\U{FE0E}' && s[i] != '\U{FE0F}'
    ensures ValidatorLength(s) == |s|
  {
    if s != [] {
      ValidatorLengthPlain(s[1..]);
    }
  }

  /** `n` copies of U+1F600, a character outside the BMP: two JavaScript code units
      each, one for `isLength`. */
  function Wide(n: nat): (s: string)
    ensures |s| == n
  {
    seq(n, i => '\U{1F600}')
  }

  lemma {:induction false} WideLengths(n: nat)
    ensures JsLength(Wide(n)) == 2 * n && ValidatorLength(Wide(n)) == n && NoSpace(Wide(n))
  {
    if n > 0 {
      WideLengths(n - 1);
      assert Wide(n)[1..] == Wide(n - 1);
    }
  }

  function DigitChar(d: nat): char
    requires d < 10
  {
    ('0' as int + d) as char
  }

  /** `Number.prototype.toString()` of a non-negative integer: its decimal digits,
      without leading zeros. */
  function DecimalString(n: nat): (r: string)
    ensures |r| >= 1 && AllDigits(r)
    decreases n
  {
    if n < 10 then [DigitChar(n)] else DecimalString(n / 10) + [DigitChar(n % 10)]
  }

  /** The number a string of digits denotes. */
  function DecimalValue(s: string): nat
    requires AllDigits(s)
  {
    if s == [] then 0 else 10 * DecimalValue(s[..|s| - 1]) + (s[|s| - 1] as int - '0' as int)
  }

  /** Reading back the decimal string of a number gives the number. */
  lemma {:induction false} DecimalRoundTrip(n: nat)
    ensures DecimalValue(DecimalString(n)) == n
    decreases n
  {
    if n >= 10 {
      DecimalRoundTrip(n / 10);
      var s := DecimalString(n);
      assert s[..|s| - 1] == DecimalString(n / 10);
    }
  }

  /** A number in 10^(k-1) .. 10^k - 1 has exactly k decimal digits (here k = 1 .. 6). */
  lemma {:induction false} DecimalStringLength(n: nat, k: nat)
    requires 1 <= k <= 6
    requires Pow10(k - 1) <= n < Pow10(k) || (k == 1 && n < 10)
    ensures |DecimalString(n)| == k
    decreases k
  {
    if k > 1 {
      DecimalStringLength(n / 10, k - 1);
    }
  }

  function Pow10(k: nat): (p: nat)
    ensures p >= 1
  {
    if k == 0 then 1 else 10 * Pow10(k - 1)
  }
}
