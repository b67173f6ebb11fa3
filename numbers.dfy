/**
 * The `f32` values that travel through KiCad S-expressions: how a word is
 * recognised as a number (Rust's `str::parse::<f32>`), how a number is
 * printed back (`f32::to_string`), and the saturating `as` casts to unsigned
 * integers that the typed models apply to numeric arguments.
 *
 * A finite value is kept exactly, as a `real`: rounding to the nearest `f32`
 * and overflow to infinity are not modelled.
 */
module Numbers {
  import opened Wrappers

  datatype Num = Finite(value: real) | Infinity(negative: bool) | NaN

  predicate IsDigit(c: char) { '0' <= c <= '9' }

  predicate AllDigits(s: string) { forall i | 0 <= i < |s| :: IsDigit(s[i]) }

  function DigitValue(c: char): nat
    requires IsDigit(c)
  {
    c as int - '0' as int
  }

  /** The value of a run of decimal digits, most significant first. */
  function DigitsValue(s: string): nat
    requires AllDigits(s)
  {
    if s == [] then 0 else 10 * DigitsValue(s[..|s| - 1]) + DigitValue(s[|s| - 1])
  }

  /** `m * 10^e` for a whole mantissa `m` and any exponent `e`. */
  function Scaled(m: nat, e: int): real
    decreases if e >= 0 then e else -e
  {
    if e == 0 then m as real
    else if e > 0 then 10.0 * Scaled(m, e - 1)
    else Scaled(m, e + 1) / 10.0
  }

  function LowerChar(c: char): char
  {
    if 'A' <= c <= 'Z' then (c as int + 32) as char else c
  }

  function Lower(s: string): (r: string)
    ensures |r| == |s|
  {
    if s == [] then [] else [LowerChar(s[0])] + Lower(s[1..])
  }

  /** Index of the first character of `s` that satisfies `p`, or `|s|`. */
  function FirstIndex(s: string, p: char -> bool): (k: nat)
    ensures k <= |s|
    ensures k < |s| ==> p(s[k])
    ensures forall j | 0 <= j < k :: !p(s[j])
  {
    if s == [] then 0 else if p(s[0]) then 0 else 1 + FirstIndex(s[1..], p)
  }

  predicate IsExponentMark(c: char) { c == 'e' || c == 'E' }

  /**
   * The value of an unsigned decimal literal: digits with at most one `.`,
   * at least one digit, then an optional exponent `e`/`E`, an optional
   * sign and at least one digit.
   */
  function DecimalValue(s: string): Option<real>
  {
    DecimalFrom(s, 0, 0, 0, 0, false)
  }

  /**
   * The decimal scanner from offset `i`, having read `count` digits whose
   * value is `mantissa`, `fraction` of them after the point `seenPoint`.
   */
  function DecimalFrom(s: string, i: nat, mantissa: nat, count: nat, fraction: nat, seenPoint: bool): Option<real>
    requires i <= |s|
    decreases |s| - i
  {
    if i == |s| then
      if count > 0 then Some(Scaled(mantissa, -(fraction as int))) else None
    else if IsDigit(s[i]) then
      DecimalFrom(s, i + 1, 10 * mantissa + DigitValue(s[i]), count + 1,
                  if seenPoint then fraction + 1 else fraction, seenPoint)
    else if s[i] == '.' && !seenPoint then
      DecimalFrom(s, i + 1, mantissa, count, fraction, true)
    else if IsExponentMark(s[i]) && count > 0 then
      match ExponentValue(s[i + 1..])
      case None => None
      case Some(e) => Some(Scaled(mantissa, e - fraction))
    else None
  }

  /** The exponent after `e`: an optional sign and at least one digit. */
  function ExponentValue(t: string): Option<int>
  {
    var negative := |t| > 0 && t[0] == '-';
    var digits := if |t| > 0 && (t[0] == '-' || t[0] == '+') then t[1..] else t;
    if |digits| > 0 && AllDigits(digits) then
      var v: int := DigitsValue(digits);
      Some(if negative then -v else v)
    else
      None
  }

  /** A number without its sign: `inf`, `infinity`, `nan` or a decimal literal. */
  function ParseUnsignedF32(body: string): Option<Num>
  {
    var lower := Lower(body);
    if lower == "inf" || lower == "infinity" then Some(Infinity(false))
    else if lower == "nan" then Some(NaN)
    else
      match DecimalValue(body)
      case None => None
      case Some(v) => Some(Finite(v))
  }

  function Negate(n: Num): Num
  {
    match n
    case NaN => NaN
    case Infinity(negative) => Infinity(!negative)
    case Finite(v) => Finite(-v)
  }

  /**
   * `text.parse::<f32>()`: an optional sign, then `inf`, `infinity`, `nan`
   * (in any letter case) or a decimal literal; None is the parse error.
   */
  function ParseF32(text: string): Option<Num>
  {
    var negative := |text| > 0 && text[0] == '-';
    var body := if |text| > 0 && (text[0] == '-' || text[0] == '+') then text[1..] else text;
    match ParseUnsignedF32(body)
    case None => None
    case Some(n) => Some(if negative then Negate(n) else n)
  }

  /** The decimal digits of `n`, most significant first, without leading zeros. */
  function NatText(n: nat): (r: string)
    ensures |r| > 0 && AllDigits(r)
  {
    if n < 10 then [('0' as int + n) as char] else NatText(n / 10) + [('0' as int + n % 10) as char]
  }

  /** Up to `budget` digits of a fraction `0 <= f < 1`, stopping when it ends. */
  function FractionText(f: real, budget: nat): string
    requires 0.0 <= f < 1.0
    decreases budget
  {
    if budget == 0 || f == 0.0 then []
    else
      var d := (f * 10.0).Floor;
      [('0' as int + d) as char] + FractionText(f * 10.0 - d as real, budget - 1)
  }

  /**
   * `f32::to_string`: whole values print without a decimal point, other
   * finite values print their decimal expansion (cut after 17 digits),
   * and the non-finite ones print `inf`, `-inf` and `NaN`.
   */
  function NumberText(n: Num): string
  {
    match n
    case NaN => "NaN"
    case Infinity(negative) => if negative then "-inf" else "inf"
    case Finite(v) =>
      var magnitude := if v < 0.0 then -v else v;
      var whole := magnitude.Floor;
      (if v < 0.0 then "-" else "") + NatText(whole)
      + (if whole as real == magnitude then "" else "." + FractionText(magnitude - whole as real, 17))
  }

  /**
   * Rust's `as` cast from a float to an unsigned integer whose largest value
   * is `max`: truncation toward zero, saturation at both ends, NaN gives 0.
   */
  function CastUnsigned(n: Num, max: nat): (r: nat)
    ensures r <= max
  {
    match n
    case NaN => 0
    case Infinity(negative) => if negative then 0 else max
    case Finite(v) => if v <= 0.0 then 0 else if v.Floor > max then max else v.Floor
  }

  const U8_MAX: nat := 0xff
  const U32_MAX: nat := 0xffff_ffff
  const USIZE_MAX: nat := 0xffff_ffff_ffff_ffff

  /** Rust's `usize` on a 64-bit target. */
  type USize = n: nat | n <= 0xffff_ffff_ffff_ffff

  /** Rust's `u32`. */
  type U32 = n: nat | n <= 0xffff_ffff

  /** Rust's `u16`. */
  type U16 = n: nat | n <= 0xffff

  /** Rust's `u8`. */
  type U8 = n: nat | n <= 0xff

  /** Rust's `i32`. */
  type I32 = x: int | -0x8000_0000 <= x <= 0x7fff_ffff

  /** Rust's `i16`. */
  type I16 = x: int | -0x8000 <= x <= 0x7fff

  /** Rust's `i8`. */
  type I8 = x: int | -0x80 <= x <= 0x7f

  /** Rust's `u64`. */
  type U64 = n: nat | n <= 0xffff_ffff_ffff_ffff

  const I64_MIN: int := -0x8000_0000_0000_0000
  const I64_MAX: int := 0x7fff_ffff_ffff_ffff

  /** Rust's `i64`. */
  type I64 = x: int | I64_MIN <= x <= I64_MAX

  lemma {:induction false} DigitsValueAppend(s: string, c: char)
    requires AllDigits(s) && IsDigit(c)
    ensures AllDigits(s + [c])
    ensures DigitsValue(s + [c]) == 10 * DigitsValue(s) + DigitValue(c)
  {
    assert (s + [c])[..|s|] == s;
  }

  /** Printing a whole number and reading the digits back gives the number. */
  lemma {:induction false} NatTextValue(n: nat)
    ensures DigitsValue(NatText(n)) == n
  {
    if n >= 10 {
      NatTextValue(n / 10);
      DigitsValueAppend(NatText(n / 10), ('0' as int + n % 10) as char);
    }
  }

  lemma {:induction false} LowerDigits(s: string)
    requires AllDigits(s)
    ensures Lower(s) == s
  {
    if s != [] {
      LowerDigits(s[1..]);
    }
  }

  /** Scanning on through the rest of a run of digits. */
  lemma {:induction false} DigitsScan(digits: string, i: nat)
    requires 0 < i <= |digits| && AllDigits(digits)
    ensures DecimalFrom(digits, i, DigitsValue(digits[..i]), i, 0, false) == Some(DigitsValue(digits) as real)
    decreases |digits| - i
  {
    if i == |digits| {
      assert digits[..i] == digits;
    } else {
      assert digits[..i + 1][..i] == digits[..i];
      DigitsScan(digits, i + 1);
    }
  }

  /** A plain run of digits is a decimal literal with that value. */
  lemma DigitsAreDecimal(digits: string)
    requires |digits| > 0 && AllDigits(digits)
    ensures DecimalValue(digits) == Some(DigitsValue(digits) as real)
  {
    assert IsDigit(digits[0]);
    assert digits[..1][..0] == [];
    DigitsScan(digits, 1);
  }

  /** A run of digits is none of the words `inf`, `infinity`, `nan`. */
  lemma DigitsAreNotWords(digits: string)
    requires |digits| > 0 && AllDigits(digits)
    ensures var lower := Lower(digits); lower != "inf" && lower != "infinity" && lower != "nan"
  {
    LowerDigits(digits);
    assert IsDigit(digits[0]);
  }

  /** A run of digits parses to that whole number. */
  lemma DigitsParse(digits: string)
    requires |digits| > 0 && AllDigits(digits)
    ensures ParseUnsignedF32(digits) == Some(Finite(DigitsValue(digits) as real))
  {
    DigitsAreNotWords(digits);
    DigitsAreDecimal(digits);
  }

  /** A whole number prints as its sign and the digits of its magnitude. */
  lemma WholeNumberText(k: int)
    ensures NumberText(Finite(k as real)) == (if k < 0 then "-" else "") + NatText(if k < 0 then -k else k)
  {
    var magnitude := if k < 0 then -k else k;
    assert (magnitude as real).Floor == magnitude;
  }

  /** Digits without a sign parse to their value. */
  lemma ParseDigits(digits: string)
    requires |digits| > 0 && AllDigits(digits)
    ensures ParseF32(digits) == Some(Finite(DigitsValue(digits) as real))
  {
    DigitsParse(digits);
    assert IsDigit(digits[0]);
  }

  /** A minus sign in front of a number without a sign negates it. */
  lemma ParseMinus(body: string, n: Num)
    requires ParseUnsignedF32(body) == Some(n)
    ensures ParseF32("-" + body) == Some(Negate(n))
  {
    assert ("-" + body)[1..] == body;
  }

  /** A whole number survives `to_string` followed by `parse::<f32>`. */
  lemma WholeNumberRoundTrip(k: int)
    ensures ParseF32(NumberText(Finite(k as real))) == Some(Finite(k as real))
  {
    var magnitude := if k < 0 then -k else k;
    var digits := NatText(magnitude);
    WholeNumberText(k);
    NatTextValue(magnitude);
    if k < 0 {
      DigitsParse(digits);
      ParseMinus(digits, Finite(magnitude as real));
    } else {
      assert "" + digits == digits;
      ParseDigits(digits);
    }
  }

  /** A whole number in range survives `as f32` followed by the `as` cast back. */
  lemma CastWhole(k: nat, max: nat)
    requires k <= max
    ensures CastUnsigned(Finite(k as real), max) == k
  {
  }
}
