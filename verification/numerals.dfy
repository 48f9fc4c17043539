/**
 * Digit strings as Python's formatting produces them: `str(n)` and
 * `format(n, 'x')` (minimal digits), zero-padded fields such as
 * strftime's `%m` or `%f`, and `str.upper()` on the result.
 * `ValueOf` reads digits back and is the partner of every formatter here.
 */
module Numerals {

  /** The two radixes the exporter prints in. */
  datatype Base = Dec | Hex

  function Radix(b: Base): nat {
    if b.Dec? then 10 else 16
  }

  /** v * Radix(b), written so that the arithmetic stays linear. */
  function Shift(v: nat, b: Base): nat {
    if b.Dec? then v * 10 else v * 16
  }

  function Pow(b: Base, k: nat): (p: nat)
    ensures p >= 1
  {
    if k == 0 then 1 else Shift(Pow(b, k - 1), b)
  }

  /** The lower-case digit Python writes for `d`. */
  function DigitChar(d: nat): char
    requires d < 16
  {
    if d < 10 then ('0' as int + d) as char else ('a' as int + d - 10) as char
  }

  /** The value of a digit character of either case (0 for anything else). */
  function DigitValue(c: char): nat {
    if '0' <= c <= '9' then c as int - '0' as int
    else if 'a' <= c <= 'f' then c as int - 'a' as int + 10
    else if 'A' <= c <= 'F' then c as int - 'A' as int + 10
    else 0
  }

  predicate IsDigitOf(c: char, b: Base) {
    ('0' <= c <= '9' || 'a' <= c <= 'f' || 'A' <= c <= 'F') && DigitValue(c) < Radix(b)
  }

  predicate AllDigits(s: string, b: Base) {
    forall i :: 0 <= i < |s| ==> IsDigitOf(s[i], b)
  }

  /** Upper-case hexadecimal digits, as `.upper()` leaves them. */
  predicate IsUpperHex(s: string) {
    forall i :: 0 <= i < |s| ==> '0' <= s[i] <= '9' || 'A' <= s[i] <= 'F'
  }

  /** Reads a digit string back into a number, most significant digit first. */
  function ValueOf(s: string, b: Base): nat {
    if s == [] then 0 else Shift(ValueOf(s[..|s| - 1], b), b) + DigitValue(s[|s| - 1])
  }

  function Zeros(k: nat): (z: string)
    ensures |z| == k && forall i :: 0 <= i < k ==> z[i] == '0'
  {
    if k == 0 then [] else Zeros(k - 1) + "0"
  }

  /** A zero in front of `k` zeros. */
  lemma ZerosCons(k: nat)
    ensures "0" + Zeros(k) == Zeros(k + 1)
  {
    assert forall i :: 0 <= i < k + 1 ==> ("0" + Zeros(k))[i] == '0';
  }

  /** Minimal digits of `n`: `str(n)` for Dec, `format(n, 'x')` for Hex. */
  function Numeral(n: nat, b: Base): (s: string)
    ensures 1 <= |s| && AllDigits(s, b) && ValueOf(s, b) == n
    decreases n
  {
    var r := Radix(b);
    if n < r then
      DigitRoundTrip(n, b);
      DigitsSnoc([], DigitChar(n), b);
      [DigitChar(n)]
    else
      var p := Numeral(n / r, b);
      SnocDigit(p, n, b);
      p + [DigitChar(n % r)]
  }

  /** The digits of `n / radix` followed by the last digit of `n` spell `n`. */
  lemma SnocDigit(p: string, n: nat, b: Base)
    requires AllDigits(p, b) && ValueOf(p, b) == n / Radix(b)
    ensures AllDigits(p + [DigitChar(n % Radix(b))], b) && ValueOf(p + [DigitChar(n % Radix(b))], b) == n
  {
    DigitRoundTrip(n % Radix(b), b);
    DigitsSnoc(p, DigitChar(n % Radix(b)), b);
    DivMod(n, b);
  }

  /** The `0N` fill of a format spec: zeros on the left up to width `w`. */
  function PadLeft(s: string, w: nat): (r: string)
    ensures |r| == if |s| < w then w else |s|
  {
    if |s| < w then Zeros(w - |s|) + s else s
  }

  /** Exactly `w` digits of `n`, as strftime's zero-padded fields write a value below b^w. */
  function Fixed(n: nat, w: nat, b: Base): (s: string)
    ensures |s| == w && AllDigits(s, b)
    ensures n < Pow(b, w) ==> ValueOf(s, b) == n
  {
    var r := Radix(b);
    if w == 0 then []
    else
      var p := Fixed(n / r, w - 1, b);
      DigitRoundTrip(n % r, b);
      DigitsSnoc(p, DigitChar(n % r), b);
      DivMod(n, b);
      FixedStep(n, w, b);
      p + [DigitChar(n % r)]
  }

  /** A digit below the radix is written as a digit character that reads back as itself. */
  lemma DigitRoundTrip(d: nat, b: Base)
    requires d < Radix(b)
    ensures IsDigitOf(DigitChar(d), b) && DigitValue(DigitChar(d)) == d
  {
  }

  /** Appending one digit shifts the value up and adds the digit. */
  lemma DigitsSnoc(s: string, c: char, b: Base)
    ensures ValueOf(s + [c], b) == Shift(ValueOf(s, b), b) + DigitValue(c)
    ensures AllDigits(s, b) && IsDigitOf(c, b) ==> AllDigits(s + [c], b)
  {
    assert (s + [c])[..|s|] == s;
  }

  lemma DivMod(n: nat, b: Base)
    ensures Shift(n / Radix(b), b) + n % Radix(b) == n
  {
  }

  lemma FixedStep(n: nat, w: nat, b: Base)
    requires w >= 1
    ensures n < Pow(b, w) ==> n / Radix(b) < Pow(b, w - 1)
  {
    var p := Pow(b, w - 1);
    if b.Dec? {
      assert Pow(b, w) == p * 10;
    } else {
      assert Pow(b, w) == p * 16;
    }
  }

  /** Python's `str.upper()` restricted to what digit strings contain. */
  function UpperChar(c: char): char {
    if 'a' <= c <= 'z' then (c as int - 'a' as int + 'A' as int) as char else c
  }

  function Upper(s: string): (r: string)
    ensures |r| == |s|
    ensures forall i :: 0 <= i < |s| ==> r[i] == UpperChar(s[i])
  {
    if s == [] then [] else Upper(s[..|s| - 1]) + [UpperChar(s[|s| - 1])]
  }

  // ----- lemmas -----

  /** Upper-casing changes no digit value. */
  lemma {:induction false} ValueOfUpper(s: string, b: Base)
    ensures ValueOf(Upper(s), b) == ValueOf(s, b)
    ensures AllDigits(s, b) ==> AllDigits(Upper(s), b)
  {
    if s != [] {
      ValueOfUpper(s[..|s| - 1], b);
      assert Upper(s)[..|s| - 1] == Upper(s[..|s| - 1]);
    }
  }

  /** Upper-casing a hexadecimal digit string leaves only 0-9 and A-F. */
  lemma UpperIsUpperHex(s: string)
    requires AllDigits(s, Hex)
    ensures IsUpperHex(Upper(s))
  {
  }

  lemma {:induction false} ValueOfZeros(k: nat, b: Base)
    ensures ValueOf(Zeros(k), b) == 0
  {
    if k > 0 {
      ValueOfZeros(k - 1, b);
      assert Zeros(k)[..k - 1] == Zeros(k - 1);
    }
  }

  /** Leading zeros do not change the value. */
  lemma {:induction false} ValueOfZerosPrefix(k: nat, s: string, b: Base)
    ensures ValueOf(Zeros(k) + s, b) == ValueOf(s, b)
  {
    if s == [] {
      assert Zeros(k) + s == Zeros(k);
      ValueOfZeros(k, b);
    } else {
      ValueOfZerosPrefix(k, s[..|s| - 1], b);
      assert (Zeros(k) + s)[..|Zeros(k) + s| - 1] == Zeros(k) + s[..|s| - 1];
    }
  }

  lemma PadLeftDigits(s: string, w: nat, b: Base)
    ensures ValueOf(PadLeft(s, w), b) == ValueOf(s, b)
    ensures AllDigits(s, b) ==> AllDigits(PadLeft(s, w), b)
  {
    if |s| < w { ValueOfZerosPrefix(w - |s|, s, b); }
  }

  /** `n` needs at most `w` digits exactly when it is below b^w. */
  lemma {:induction false} NumeralLength(n: nat, b: Base, w: nat)
    requires w >= 1
    ensures |Numeral(n, b)| <= w <==> n < Pow(b, w)
    decreases n
  {
    var r := Radix(b);
    if n >= r {
      assert Numeral(n, b) == Numeral(n / r, b) + [DigitChar(n % r)];
      if w == 1 {
        assert Pow(b, 1) == r;
      } else {
        NumeralLength(n / r, b, w - 1);
      }
    } else {
      assert Pow(b, w) >= r by { PowAtLeastRadix(b, w); }
    }
  }

  lemma {:induction false} PowAtLeastRadix(b: Base, w: nat)
    requires w >= 1
    ensures Pow(b, w) >= Radix(b)
  {
    if w > 1 { PowAtLeastRadix(b, w - 1); }
  }

  /** A fixed-width field of zero is all zeros. */
  lemma {:induction false} FixedZero(w: nat, b: Base)
    ensures Fixed(0, w, b) == Zeros(w)
  {
    if w > 0 {
      FixedZero(w - 1, b);
    }
  }

  /** Dropping the last two digits of a fixed-width field is dividing by b^2. */
  lemma FixedDropTwo(n: nat, w: nat, b: Base)
    requires w >= 2
    ensures Fixed(n, w, b)[..w - 2] == Fixed(n / Radix(b) / Radix(b), w - 2, b)
  {
    var r := Radix(b);
    assert Fixed(n, w, b)[..w - 1] == Fixed(n / r, w - 1, b);
    assert Fixed(n / r, w - 1, b)[..w - 2] == Fixed(n / r / r, w - 2, b);
  }
}
