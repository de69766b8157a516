/**
  JavaScript strings as the program sees them: sequences of UTF-16 code units.
  String lengths and `slice` positions count code units, so a cut may fall between
  the two halves of a surrogate pair; the model keeps that possibility.
 */
module JsText {
  import opened Wrappers

  newtype CodeUnit = u: int | 0 <= u < 0x1_0000

  type JsString = seq<CodeUnit>

  function Min(a: int, b: int): int { if a <= b then a else b }

  function Max(a: int, b: int): int { if a <= b then b else a }

  // ---------------------------------------------------------------------------
  // String literals
  // ---------------------------------------------------------------------------

  predicate InBmp(s: string) {
    forall i :: 0 <= i < |s| ==> s[i] as int < 0x1_0000
  }

  /** The UTF-16 code units of one Unicode scalar value (a surrogate pair above U+FFFF). */
  function EncodeChar(c: char): (r: seq<CodeUnit>)
    ensures 1 <= |r| <= 2
    ensures c as int < 0x1_0000 ==> r == [c as int as CodeUnit]
    ensures c as int >= 0x1_0000 ==> 0xD800 <= r[0] < 0xDC00 && 0xDC00 <= r[|r| - 1] < 0xE000
  {
    var v := c as int;
    if v < 0x1_0000 then [v as CodeUnit]
    else
      var w := v - 0x1_0000;
      [(0xD800 + w / 0x400) as CodeUnit, (0xDC00 + w % 0x400) as CodeUnit]
  }

  /** The value of a JavaScript string literal whose source text is `s`. */
  function Utf16(s: string): (r: JsString)
    ensures |s| <= |r| <= 2 * |s|
    ensures InBmp(s) ==> |r| == |s| && forall i :: 0 <= i < |s| ==> r[i] as int == s[i] as int
  {
    if s == [] then [] else EncodeChar(s[0]) + Utf16(s[1..])
  }

  /**
    A literal written in characters of the Basic Multilingual Plane, one code unit
    per character. By inspection every literal in the program is of this kind (plain
    ASCII); for those `Lit` is their UTF-16 value (LitIsUtf16), and it is the form the
    constants use.
   */
  function Lit(s: string): (r: JsString)
    ensures |r| == |s|
  {
    seq(|s|, i requires 0 <= i < |s| => (s[i] as int % 0x1_0000) as CodeUnit)
  }

  lemma LitIsUtf16(s: string)
    requires InBmp(s)
    ensures Lit(s) == Utf16(s)
  {
  }

  // ---------------------------------------------------------------------------
  // String.prototype.slice
  // ---------------------------------------------------------------------------

  /**
    How `slice` resolves one integer argument against a string of length `len`:
    a negative position counts from the end, and the result is clamped to [0, len].
   */
  function ClampIndex(k: int, len: nat): (r: nat)
    ensures r <= len
  {
    if k < 0 then Max(len + k, 0) else Min(k, len)
  }

  /** `s.slice(start, end)` for integer arguments. */
  function Slice(s: JsString, start: int, end: int): (r: JsString)
    ensures |r| == Max(ClampIndex(end, |s|) - ClampIndex(start, |s|), 0)
    ensures r == s[ClampIndex(start, |s|)..ClampIndex(start, |s|) + |r|]
  {
    var from, to := ClampIndex(start, |s|), ClampIndex(end, |s|);
    if from < to then s[from..to] else []
  }

  /** `s.slice(0, n)` with `n >= 0` is the prefix of length min(n, |s|). */
  lemma SlicePrefix(s: JsString, n: nat)
    ensures Slice(s, 0, n) == s[..Min(n, |s|)]
  {
  }

  // ---------------------------------------------------------------------------
  // Decimal numerals, as a template literal renders a non-negative integer
  // ---------------------------------------------------------------------------

  predicate IsDigit(u: CodeUnit) { 0x30 <= u <= 0x39 }

  predicate AllDigits(s: JsString) {
    forall i :: 0 <= i < |s| ==> IsDigit(s[i])
  }

  function DigitOf(d: nat): (u: CodeUnit)
    requires d < 10
    ensures IsDigit(u) && u as int - 0x30 == d
  {
    (0x30 + d) as CodeUnit
  }

  /** The shortest decimal numeral of `n`: only digits, and no leading zero unless `n` is 0. */
  function Decimal(n: nat): (r: JsString)
    ensures 1 <= |r| && AllDigits(r)
    ensures r[0] == 0x30 ==> n == 0
    decreases n
  {
    if n < 10 then [DigitOf(n)] else Decimal(n / 10) + [DigitOf(n % 10)]
  }

  /** The number a numeral of digits denotes (most significant digit first). */
  function DigitsValue(s: JsString): nat
    requires AllDigits(s)
  {
    if s == [] then 0 else DigitsValue(s[..|s| - 1]) * 10 + (s[|s| - 1] as int - 0x30)
  }

  lemma {:induction false} DecimalRoundTrip(n: nat)
    ensures DigitsValue(Decimal(n)) == n
    decreases n
  {
    if n >= 10 {
      var d := Decimal(n / 10);
      var s := d + [DigitOf(n % 10)];
      assert s[..|s| - 1] == d;
      DecimalRoundTrip(n / 10);
    }
  }

  /** A numeral as `Decimal` writes one: digits only, and no leading zero unless it is `0`. */
  predicate Canonical(s: JsString) {
    1 <= |s| && AllDigits(s) && (|s| > 1 ==> s[0] != 0x30)
  }

  /** A numeral that does not start with `0` denotes a positive number. */
  lemma {:induction false} DigitsValuePositive(s: JsString)
    requires 1 <= |s| && AllDigits(s) && s[0] != 0x30
    ensures DigitsValue(s) >= 1
    decreases |s|
  {
    if |s| > 1 {
      var init := s[..|s| - 1];
      assert init[0] == s[0];
      DigitsValuePositive(init);
    }
  }

  /** Every canonical numeral is the decimal numeral of the number it denotes. */
  lemma {:induction false} DecimalOfDigits(s: JsString)
    requires Canonical(s)
    ensures Decimal(DigitsValue(s)) == s
    decreases |s|
  {
    if |s| > 1 {
      var init := s[..|s| - 1];
      var last := s[|s| - 1] as int - 0x30;
      assert init[0] == s[0];
      DigitsValuePositive(init);
      var n := DigitsValue(s);
      assert n == DigitsValue(init) * 10 + last;
      assert n / 10 == DigitsValue(init) && n % 10 == last;
      DecimalOfDigits(init);
      assert s == init + [s[|s| - 1]];
    }
  }

  /** The length of the run of digits that starts `s`. */
  function LeadingDigits(s: JsString): (k: nat)
    ensures k <= |s|
    ensures forall i :: 0 <= i < k ==> IsDigit(s[i])
    ensures k < |s| ==> !IsDigit(s[k])
  {
    if s == [] || !IsDigit(s[0]) then 0 else 1 + LeadingDigits(s[1..])
  }

  /** A numeral followed by a non-digit is read back exactly. */
  lemma LeadingDigitsOfNumeral(d: JsString, rest: JsString)
    requires AllDigits(d)
    requires rest != [] && !IsDigit(rest[0])
    ensures LeadingDigits(d + rest) == |d|
  {
    var s := d + rest;
    assert forall i :: 0 <= i < |d| ==> s[i] == d[i];
    assert s[|d|] == rest[0];
  }

  // ---------------------------------------------------------------------------
  // Prefixes
  // ---------------------------------------------------------------------------

  predicate IsPrefix(p: JsString, s: JsString) {
    |p| <= |s| && s[..|p|] == p
  }

  /** What follows the prefix `p` in `s`, if `s` starts with `p`. */
  function StripPrefix(p: JsString, s: JsString): (r: Option<JsString>)
    ensures r.Some? <==> IsPrefix(p, s)
    ensures r.Some? ==> s == p + r.value
  {
    if IsPrefix(p, s) then Some(s[|p|..]) else None
  }

  lemma StripPrefixOfConcat(p: JsString, v: JsString)
    ensures StripPrefix(p, p + v) == Some(v)
  {
  }
}
