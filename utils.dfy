/**
 * Helpers shared by the drawing engine (js/utils.js): the random-number
 * primitives, clamping, the device pixel ratio, and the JavaScript number
 * formatting the engine relies on (Math.round, Number.prototype.toString
 * for radix 10 and 16, String.prototype.padStart).
 *
 * Math.random is not called: every random primitive takes the draw `r`
 * it would have obtained, and a whole run takes a `Stream`, the sequence
 * of values successive Math.random() calls return.
 */
module Utils {

  datatype Option<T> = None | Some(value: T)

  /** The values returned by successive Math.random() calls: call i yields rand(i). */
  type Stream = nat -> real

  /** Math.random() only yields values in [0, 1). */
  ghost predicate Uniform(rand: Stream)
  {
    forall i: nat :: 0.0 <= rand(i) < 1.0
  }

  /** Math.floor. */
  function Floor(x: real): int
  {
    x.Floor
  }

  /** Math.round: the nearest integer, halves rounded up. */
  function Round(x: real): (n: int)
    ensures x - 0.5 < n as real <= x + 0.5
  {
    (x + 0.5).Floor
  }

  /** Math.round leaves an integer unchanged. */
  lemma RoundOfInteger(n: int)
    ensures Round(n as real) == n
  {
  }

  /** Math.round never decreases when its argument grows. */
  lemma RoundMonotonic(x: real, y: real)
    requires x <= y
    ensures Round(x) <= Round(y)
  {
  }

  /** randomInt(min, max) given the draw r: an integer in [min, max], both ends included. */
  function RandomInt(r: real, min: int, max: int): (n: int)
    requires 0.0 <= r < 1.0
    requires min <= max
    ensures min <= n <= max
  {
    var span := (max - min + 1) as real;
    DrawScales(r, span);
    assert 0 <= (r * span).Floor < max - min + 1;
    (r * span).Floor + min
  }

  /** Every integer of [min, max] is the result of some draw: the range is exactly [min, max]. */
  lemma RandomIntReaches(min: int, max: int, n: int)
    requires min <= n <= max
    ensures var r := (n - min) as real / (max - min + 1) as real;
            0.0 <= r < 1.0 && RandomInt(r, min, max) == n
  {
    var span := (max - min + 1) as real;
    var r := (n - min) as real / span;
    assert r * span == (n - min) as real;
    assert (n - min) as real < span;
  }

  /** randomFloat(min, max) given the draw r. */
  function RandomFloat(r: real, min: real, max: real): real
  {
    r * (max - min) + min
  }

  /**
   * For min <= max the result lies in [min, max): min itself is reached,
   * max is not, unless min == max, where the result is exactly min.
   */
  lemma RandomFloatRange(r: real, min: real, max: real)
    requires 0.0 <= r < 1.0
    requires min <= max
    ensures min <= RandomFloat(r, min, max)
    ensures min < max ==> RandomFloat(r, min, max) < max
    ensures min == max ==> RandomFloat(r, min, max) == min
  {
    var span := max - min;
    DrawScales(r, span);
    assert RandomFloat(r, min, max) == r * span + min;
    assert max == span + min;
  }

  /** A draw scales a non-negative span into [0, span), or to 0 when the span is 0. */
  lemma DrawScales(r: real, span: real)
    requires 0.0 <= r < 1.0 && span >= 0.0
    ensures 0.0 <= r * span
    ensures span > 0.0 ==> r * span < span
  {
  }

  /** A product of two non-negative reals is non-negative. */
  lemma MulNonNegative(a: real, b: real)
    requires a >= 0.0 && b >= 0.0
    ensures a * b >= 0.0
  {
  }

  /** The draw is recovered from the result when min < max: randomFloat is a bijection onto [min, max). */
  lemma RandomFloatInverse(r: real, min: real, max: real)
    requires min < max
    ensures (RandomFloat(r, min, max) - min) / (max - min) == r
  {
  }

  /** The symmetric window randomFloat(-m, m) used for control-point offsets lies in [-m, m). */
  lemma RandomFloatSymmetric(r: real, m: real)
    requires 0.0 <= r < 1.0
    requires m >= 0.0
    ensures -m <= RandomFloat(r, -m, m) <= m
    ensures m > 0.0 ==> RandomFloat(r, -m, m) < m
    ensures r == 0.5 ==> RandomFloat(r, -m, m) == 0.0
  {
    RandomFloatRange(r, -m, m);
  }

  function Min(a: real, b: real): real
  {
    if a <= b then a else b
  }

  function Max(a: real, b: real): real
  {
    if a >= b then a else b
  }

  /** clamp(value, min, max) = Math.min(Math.max(value, min), max). */
  function Clamp(value: real, min: real, max: real): (c: real)
    requires min <= max
    ensures min <= c <= max
    ensures min <= value <= max ==> c == value
    ensures value < min ==> c == min
    ensures value > max ==> c == max
  {
    Min(Max(value, min), max)
  }

  /** Clamping twice changes nothing. */
  lemma ClampIdempotent(value: real, min: real, max: real)
    requires min <= max
    ensures Clamp(Clamp(value, min, max), min, max) == Clamp(value, min, max)
  {
  }

  /**
   * getDevicePixelRatio: `window.devicePixelRatio || 1`. An absent ratio
   * (None) or a zero one falls back to 1; any other value passes through.
   */
  function DevicePixelRatio(platform: Option<real>): (dpr: real)
    ensures (platform == None || platform == Some(0.0)) ==> dpr == 1.0
    ensures platform.Some? && platform.value != 0.0 ==> dpr == platform.value
    ensures (platform.Some? ==> platform.value >= 0.0) ==> dpr > 0.0
  {
    match platform
    case None => 1.0
    case Some(v) => if v == 0.0 then 1.0 else v
  }

  // ---------------------------------------------------------------------
  // Number formatting: Number.prototype.toString(radix) on non-negative
  // integers and String.prototype.padStart.
  // ---------------------------------------------------------------------

  const DigitChars: string := "0123456789abcdef"

  /** The digits of n in the given radix, most significant first, lower-case letters as JavaScript prints them. */
  function Digits(n: nat, radix: nat): (s: string)
    requires 2 <= radix <= 16
    ensures 1 <= |s|
    decreases n
  {
    if n < radix then [DigitChars[n]]
    else
      DivMod(n, radix);
      Digits(n / radix, radix) + [DigitChars[n % radix]]
  }

  /** The value of one digit character, the inverse of indexing DigitChars. */
  function DigitValue(c: char): (d: nat)
    ensures d <= 16
    ensures d < 16 ==> DigitChars[d] == c
  {
    if c == '0' then 0 else if c == '1' then 1 else if c == '2' then 2
    else if c == '3' then 3 else if c == '4' then 4 else if c == '5' then 5
    else if c == '6' then 6 else if c == '7' then 7 else if c == '8' then 8
    else if c == '9' then 9 else if c == 'a' then 10 else if c == 'b' then 11
    else if c == 'c' then 12 else if c == 'd' then 13 else if c == 'e' then 14
    else if c == 'f' then 15 else 16
  }

  /** Reads a digit string back as a number (the reference the formatter is checked against). */
  function ParseDigits(s: string, radix: nat): nat
  {
    if s == [] then 0
    else ParseDigits(s[..|s| - 1], radix) * radix + DigitValue(s[|s| - 1])
  }

  /** Reading back what Digits printed gives the number again. */
  lemma {:induction false} ParseDigitsOfDigits(n: nat, radix: nat)
    requires 2 <= radix <= 16
    ensures ParseDigits(Digits(n, radix), radix) == n
    decreases n
  {
    if n < radix {
      assert DigitValue(DigitChars[n]) == n;
    } else {
      DivMod(n, radix);
      ParseDigitsOfDigits(n / radix, radix);
      ParseLastDigit(n, radix);
    }
  }

  /** Printing n appends its last digit to the digits of n / radix, which reading back multiplies by radix. */
  lemma ParseLastDigit(n: nat, radix: nat)
    requires 2 <= radix <= 16 && n >= radix
    requires ParseDigits(Digits(n / radix, radix), radix) == n / radix
    ensures ParseDigits(Digits(n, radix), radix) == n
  {
    var q, d := n / radix, n % radix;
    var s := Digits(n, radix);
    assert s[..|s| - 1] == Digits(q, radix) && s[|s| - 1] == DigitChars[d];
    assert DigitValue(DigitChars[d]) == d;
    assert ParseDigits(s, radix) == q * radix + d;
    DivMod(n, radix);
  }

  /** A leading zero does not change the value read back. */
  lemma {:induction false} ParseDigitsLeadingZero(s: string, radix: nat)
    ensures ParseDigits(['0'] + s, radix) == ParseDigits(s, radix)
    decreases |s|
  {
    if s != [] {
      var t := ['0'] + s;
      assert t[..|t| - 1] == ['0'] + s[..|s| - 1];
      assert t[|t| - 1] == s[|s| - 1];
      ParseDigitsLeadingZero(s[..|s| - 1], radix);
    } else {
      assert (['0'] + s)[..0] == [];
    }
  }

  lemma MulMonotonic(q: nat, a: nat, b: nat)
    requires a <= b
    ensures q * a <= q * b
  {
  }

  /** Euclidean division by a radix, and the fact that it shrinks every number of two digits or more. */
  lemma DivMod(n: nat, radix: nat)
    requires 2 <= radix
    ensures n == (n / radix) * radix + n % radix
    ensures n >= radix ==> n / radix < n
  {
    MulMonotonic(n / radix, 2, radix);
  }

  /** A number below radix^k has at most k digits. */
  lemma {:induction false} DigitsLength(n: nat, radix: nat, k: nat)
    requires 2 <= radix <= 16
    requires 1 <= k
    requires n < Power(radix, k)
    ensures |Digits(n, radix)| <= k
    decreases k
  {
    if n >= radix {
      assert Power(radix, 1) == radix;
      assert n / radix < Power(radix, k - 1);
      DigitsLength(n / radix, radix, k - 1);
    }
  }

  function Power(b: nat, e: nat): nat
  {
    if e == 0 then 1 else b * Power(b, e - 1)
  }

  /** `String(n)` for a non-negative integer. */
  function NatToString(n: nat): (s: string)
    ensures ParseDigits(s, 10) == n
  {
    ParseDigitsOfDigits(n, 10);
    Digits(n, 10)
  }

  /** The first character Digits prints is a digit, never a minus sign. */
  lemma {:induction false} DigitsUnsigned(n: nat, radix: nat)
    requires 2 <= radix <= 16
    ensures Digits(n, radix)[0] != '-'
    decreases n
  {
    if n >= radix {
      DivMod(n, radix);
      DigitsUnsigned(n / radix, radix);
      assert Digits(n, radix)[0] == Digits(n / radix, radix)[0];
    }
  }

  /** Reads a decimal integer back: an optional leading minus sign, then digits. */
  function ParseSigned(s: string): int
  {
    if |s| > 0 && s[0] == '-' then -(ParseDigits(s[1..], 10) as int) else ParseDigits(s, 10)
  }

  /** `String(n)` for any integer: a leading minus sign exactly for negatives, then the digits of |n|. */
  function IntToString(n: int): (s: string)
    ensures |s| > 0 && (s[0] == '-' <==> n < 0)
    ensures ParseSigned(s) == n
  {
    DigitsUnsigned(if n >= 0 then n else -n, 10);
    if n >= 0 then NatToString(n)
    else
      var s := "-" + NatToString(-n);
      assert s[1..] == NatToString(-n);
      s
  }

  function Repeat(c: char, k: nat): (s: string)
    ensures |s| == k
    ensures forall i :: 0 <= i < k ==> s[i] == c
  {
    if k == 0 then [] else [c] + Repeat(c, k - 1)
  }

  /** s.padStart(len, c): s itself if already long enough, else c-padding on the left up to len. */
  function PadStart(s: string, len: nat, c: char): (p: string)
    ensures |p| == if |s| >= len then |s| else len
    ensures p[|p| - |s|..] == s
    ensures forall i :: 0 <= i < |p| - |s| ==> p[i] == c
  {
    if |s| >= len then s else Repeat(c, len - |s|) + s
  }
}
