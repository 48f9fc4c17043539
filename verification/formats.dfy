/**
 * The exporter's value normalisers: colour to `#RRGGBB`, the timestamp
 * text the analytics tool expects, and the legacy discriminator rule.
 */
module Formats {
  import opened Wrappers
  import opened Numerals
  import opened Discord

  /** What a colour value of zero formats to; the exporter reports it as no colour. */
  const NoColor: string := "#000000"

  /**
   * `_get_color_value`: `'#' + format(value, '06x')`, upper-cased, or
   * `None` when that text is `#000000`.
   */
  function ColorValue(value: nat): (r: Option<string>)
    ensures r.None? <==> value == 0
    ensures r.Some? ==> 7 <= |r.value| && r.value[0] == '#'
    ensures r.Some? ==> IsUpperHex(r.value[1..]) && ValueOf(r.value[1..], Hex) == value
    ensures r.Some? ==> (|r.value| == 7 <==> value < 0x1000000)
  {
    var digits := PadLeft(Numeral(value, Hex), 6);
    var s := Upper("#" + digits);
    ColorDigits(value, digits, s);
    if s == NoColor then None else Some(s)
  }

  lemma ColorDigits(value: nat, digits: string, s: string)
    requires digits == PadLeft(Numeral(value, Hex), 6) && s == Upper("#" + digits)
    ensures |s| >= 7 && s[0] == '#' && s[1..] == Upper(digits)
    ensures IsUpperHex(s[1..]) && ValueOf(s[1..], Hex) == value
    ensures |s| == 7 <==> value < 0x1000000
    ensures s == NoColor <==> value == 0
  {
    PadLeftDigits(Numeral(value, Hex), 6, Hex);
    ValueOfUpper(digits, Hex);
    UpperIsUpperHex(digits);
    UpperAfterHash(digits, s);
    NumeralLength(value, Hex, 6);
    HexPowSix();
    if value == 0 {
      ZeroColor();
    } else {
      SixZeros();
    }
  }

  lemma UpperAfterHash(digits: string, s: string)
    requires s == Upper("#" + digits)
    ensures s[0] == '#' && s[1..] == Upper(digits)
  {
  }

  lemma HexPowSix()
    ensures Pow(Hex, 6) == 0x1000000
  {
    assert Pow(Hex, 1) == 16;
    assert Pow(Hex, 3) == 4096;
  }

  lemma ZeroColor()
    ensures Upper("#" + PadLeft(Numeral(0, Hex), 6)) == NoColor
  {
    assert Numeral(0, Hex) == "0";
    assert PadLeft("0", 6) == "000000";
  }

  lemma SixZeros()
    ensures NoColor[1..] == "000000" && ValueOf("000000", Hex) == 0
  {
    ValueOfZeros(6, Hex);
    assert Zeros(6) == "000000";
  }

  /** Python's `str.rstrip('0')`. */
  function RStripZeros(s: string): (t: string)
    ensures |t| <= |s| && s == t + Zeros(|s| - |t|)
    ensures t == [] || t[|t| - 1] != '0'
  {
    if s != [] && s[|s| - 1] == '0' then
      var t := RStripZeros(s[..|s| - 1]);
      assert s == s[..|s| - 1] + "0";
      assert Zeros(|s| - |t|) == Zeros(|s| - 1 - |t|) + "0";
      t
    else
      assert s == s + Zeros(0);
      s
  }

  /** `.rstrip('0')[:4] or '0'` on the six `%f` digits. */
  function StripCut(six: string): string {
    var t := RStripZeros(six);
    var cut := if |t| <= 4 then t else t[..4];
    if cut == [] then "0" else cut
  }

  /**
   * The fractional-second digits: the six `%f` digits with trailing zeros
   * stripped, then cut to four characters, or `0` when nothing is left.
   */
  function Fraction(us: nat): (f: string)
    ensures 1 <= |f| <= 4 && AllDigits(f, Dec)
    ensures f + Zeros(4 - |f|) == Fixed(us, 6, Dec)[..4]
    ensures us < 1000000 ==> (f == "0" <==> us == 0)
    ensures f == CutExact(Fixed(us, 6, Dec))
  {
    FractionFacts(us);
    StripCut(Fixed(us, 6, Dec))
  }

  lemma FractionFacts(us: nat)
    ensures var six := Fixed(us, 6, Dec); var f := StripCut(six);
      && 1 <= |f| <= 4 && AllDigits(f, Dec) && f + Zeros(4 - |f|) == six[..4]
      && (us < 1000000 ==> (f == "0" <==> us == 0))
      && f == CutExact(six)
  {
    FractionDigits(us);
    StripCutExact(Fixed(us, 6, Dec));
  }

  /** The fraction is one to four digits, the first four `%f` digits up to trailing zeros. */
  lemma FractionDigits(us: nat)
    ensures var six := Fixed(us, 6, Dec); var f := StripCut(six);
      && 1 <= |f| <= 4 && AllDigits(f, Dec) && f + Zeros(4 - |f|) == six[..4]
      && (us < 1000000 ==> (f == "0" <==> us == 0))
  {
    var six := Fixed(us, 6, Dec);
    var t := RStripZeros(six);
    var cut := if |t| <= 4 then t else t[..4];
    CutFacts(six, t, cut);
    if us < 1000000 {
      FixedZeroIff(us);
    }
    if cut == [] {
      ZerosCons(3);
    }
  }

  /**
   * The four leading digits, kept whole (trailing zeros included) when the
   * fifth or sixth digit is not zero, and otherwise with their trailing
   * zeros removed, or `0` when that leaves nothing.
   */
  function CutExact(six: string): string
    requires |six| == 6
  {
    if six[4..] != "00" then six[..4]
    else if RStripZeros(six[..4]) == [] then "0"
    else RStripZeros(six[..4])
  }

  /** Stripping the six digits and cutting to four keeps exactly the digits `CutExact` names. */
  lemma StripCutExact(six: string)
    requires |six| == 6
    ensures StripCut(six) == CutExact(six)
  {
    assert six[4..] == [six[4], six[5]];
    var five := six[..5];
    if six[5] == '0' {
      assert five == six[..|six| - 1];
      assert RStripZeros(six) == RStripZeros(five);
      if six[4] == '0' {
        assert five[..|five| - 1] == six[..4];
        assert RStripZeros(five) == RStripZeros(six[..4]);
      } else {
        assert RStripZeros(five) == five && five[..4] == six[..4];
      }
    } else {
      assert RStripZeros(six) == six;
    }
  }

  /** Cutting the stripped digits to four is the first four digits with their trailing zeros removed. */
  lemma CutFacts(six: string, t: string, cut: string)
    requires |six| == 6 && AllDigits(six, Dec) && t == RStripZeros(six)
    requires cut == if |t| <= 4 then t else t[..4]
    ensures cut + Zeros(4 - |cut|) == six[..4] && AllDigits(cut, Dec) && cut != "0"
    ensures cut == [] <==> six == Zeros(6)
  {
    CutPadded(six, t, cut);
    CutDigits(six, t, cut);
    CutEmpty(six, t, cut);
  }

  lemma CutPadded(six: string, t: string, cut: string)
    requires |six| == 6 && AllDigits(six, Dec) && t == RStripZeros(six)
    requires cut == if |t| <= 4 then t else t[..4]
    ensures cut + Zeros(4 - |cut|) == six[..4]
  {
    assert six == t + Zeros(6 - |t|);
    if |t| <= 4 {
      assert forall i :: 0 <= i < 4 ==> six[i] == (cut + Zeros(4 - |cut|))[i];
    } else {
      assert cut + Zeros(4 - |cut|) == t[..4];
    }
  }
  /** The cut keeps only digits and never ends in a zero. */
  lemma CutDigits(six: string, t: string, cut: string)
    requires |six| == 6 && AllDigits(six, Dec) && t == RStripZeros(six)
    requires cut == if |t| <= 4 then t else t[..4]
    ensures AllDigits(cut, Dec) && cut != "0"
  {
    assert six == t + Zeros(6 - |t|);
    assert forall i :: 0 <= i < |cut| ==> cut[i] == six[i];
    if |t| <= 4 && t != [] {
      assert cut[|cut| - 1] != '0';
    }
  }
  /** Nothing is left after stripping exactly when all six digits are zero. */
  lemma CutEmpty(six: string, t: string, cut: string)
    requires |six| == 6 && AllDigits(six, Dec) && t == RStripZeros(six)
    requires cut == if |t| <= 4 then t else t[..4]
    ensures cut == [] <==> six == Zeros(6)
  {
    assert six == t + Zeros(6 - |t|);
    if t != [] {
      assert six[|t| - 1] == t[|t| - 1];
    }
  }

  /** A six-digit field is all zeros exactly when its value is zero. */
  lemma FixedZeroIff(us: nat)
    requires us < 1000000
    ensures Fixed(us, 6, Dec) == Zeros(6) <==> us == 0
  {
    FixedZero(6, Dec);
    ValueOfZeros(6, Dec);
    assert Pow(Dec, 6) == 1000000 by {
      assert Pow(Dec, 1) == 10;
      assert Pow(Dec, 3) == 1000;
    }
  }

  /** `strftime('%z')` in the exporter's fixed zone `timezone(timedelta(hours=0))`. */
  const UtcOffset: string := "+0000"

  /** `tz[:-2] + ':' + tz[-2:]`. */
  const OffsetText: string := UtcOffset[..3] + ":" + UtcOffset[3..]

  /**
   * `_get_time` after the conversion to UTC: `%Y-%m-%dT%H:%M:%S.`, the
   * fraction, and the offset. `%Y` is the year's plain decimal digits, as
   * glibc prints it (no padding below year 1000).
   */
  function FormatTime(t: DateTime): (s: string)
  {
    var year := Numeral(t.year, Dec);
    var month, day := Fixed(t.month, 2, Dec), Fixed(t.day, 2, Dec);
    var hour, minute, second := Fixed(t.hour, 2, Dec), Fixed(t.minute, 2, Dec), Fixed(t.second, 2, Dec);
    var fraction := Fraction(t.microsecond);
    Stamp(year, month, day, hour, minute, second, fraction)
  }

  /** The timestamp text from its printed fields: `Y-m-dTH:M:S.` then fraction and offset. */
  function Stamp(year: string, month: string, day: string, hour: string, minute: string,
                 second: string, fraction: string): string
  {
    var r5 := "." + fraction + OffsetText;
    var r4 := ":" + second + r5;
    var r3 := ":" + minute + r4;
    var r2 := "T" + hour + r3;
    var r1 := "-" + day + r2;
    var r0 := "-" + month + r1;
    year + r0
  }

  /** The seven printed fields of a timestamp, as text. */
  datatype Parts = Parts(year: string, month: string, day: string, hour: string, minute: string,
                         second: string, fraction: string)

  /**
   * Cuts a four-digit-year timestamp in the exporter's format into its
   * fields, peeling one field at a time off the front and checking each
   * separator and the offset.
   */
  function SplitStamp(s: string): (r: Option<Parts>)
    ensures r.Some? ==> |r.value.year| == 4 && |r.value.month| == 2 && |r.value.second| == 2
    ensures r.Some? ==> 1 <= |r.value.fraction| <= 4
  {
    if |s| < 27 || |s| > 30 then None
    else
      var year, r0 := s[..4], s[4..];
      var month, r1 := r0[1..3], r0[3..];
      var day, r2 := r1[1..3], r1[3..];
      var hour, r3 := r2[1..3], r2[3..];
      var minute, r4 := r3[1..3], r3[3..];
      var second, r5 := r4[1..3], r4[3..];
      if && r0[0] == '-' && r1[0] == '-' && r2[0] == 'T' && r3[0] == ':' && r4[0] == ':' && r5[0] == '.'
         && r5[|r5| - 6..] == "+00:00"
      then Some(Parts(year, month, day, hour, minute, second, r5[1..|r5| - 6]))
      else None
  }

  predicate DigitParts(p: Parts) {
    && AllDigits(p.year, Dec) && AllDigits(p.month, Dec) && AllDigits(p.day, Dec)
    && AllDigits(p.hour, Dec) && AllDigits(p.minute, Dec) && AllDigits(p.second, Dec)
    && AllDigits(p.fraction, Dec)
  }

  /** The fields' values; the fraction, padded to four digits, counts hundreds of microseconds. */
  function PartsTime(p: Parts): DateTime
    requires |p.fraction| <= 4
  {
    DateTime(
      ValueOf(p.year, Dec), ValueOf(p.month, Dec), ValueOf(p.day, Dec),
      ValueOf(p.hour, Dec), ValueOf(p.minute, Dec), ValueOf(p.second, Dec),
      ValueOf(p.fraction + Zeros(4 - |p.fraction|), Dec) * 100)
  }

  /** Reads a four-digit-year timestamp in the exporter's format back into its fields. */
  function ParseTime(s: string): Option<DateTime> {
    match SplitStamp(s)
    case None => None
    case Some(p) => if DigitParts(p) then Some(PartsTime(p)) else None
  }

  /** The time a formatted timestamp denotes: the input cut to whole 100 microseconds. */
  function Truncated(t: DateTime): DateTime {
    t.(microsecond := t.microsecond / 100 * 100)
  }

  /**
   * Every field of the timestamp survives formatting; the fraction keeps
   * the first four of the six microsecond digits.
   */
  lemma FormatTimeRoundTrip(t: DateTime)
    requires ValidDateTime(t) && t.year >= 1000
    ensures ParseTime(FormatTime(t)) == Some(Truncated(t))
  {
    var year := Numeral(t.year, Dec);
    var month, day := Fixed(t.month, 2, Dec), Fixed(t.day, 2, Dec);
    var hour, minute, second := Fixed(t.hour, 2, Dec), Fixed(t.minute, 2, Dec), Fixed(t.second, 2, Dec);
    var fraction := Fraction(t.microsecond);
    DecPows();
    NumeralLength(t.year, Dec, 4);
    NumeralLength(t.year, Dec, 3);
    ParseParts(year, month, day, hour, minute, second, fraction);
    FractionValue(t.microsecond);
  }

  /** The four fraction digits, padded back, are the microseconds in units of 100. */
  lemma FractionValue(us: nat)
    requires us < 1000000
    ensures ValueOf(Fraction(us) + Zeros(4 - |Fraction(us)|), Dec) == us / 100
  {
    DecPows();
    FixedDropTwo(us, 6, Dec);
    assert us / 10 / 10 == us / 100;
  }

  lemma DecPows()
    ensures Pow(Dec, 2) == 100 && Pow(Dec, 3) == 1000 && Pow(Dec, 4) == 10000 && Pow(Dec, 6) == 1000000
  {
    assert Pow(Dec, 1) == 10;
  }

  /** Reading a timestamp assembled from digit fields gives back the fields' values. */
  lemma ParseParts(year: string, month: string, day: string, hour: string, minute: string,
                   second: string, fraction: string)
    requires |year| == 4 && |month| == 2 && |day| == 2 && |hour| == 2 && |minute| == 2 && |second| == 2
    requires 1 <= |fraction| <= 4
    requires DigitParts(Parts(year, month, day, hour, minute, second, fraction))
    ensures ParseTime(Stamp(year, month, day, hour, minute, second, fraction))
         == Some(PartsTime(Parts(year, month, day, hour, minute, second, fraction)))
  {
    SplitParts(year, month, day, hour, minute, second, fraction);
  }

  /** A timestamp assembled from fields of the printed widths is cut back into those fields. */
  lemma SplitParts(year: string, month: string, day: string, hour: string, minute: string,
                   second: string, fraction: string)
    requires |year| == 4 && |month| == 2 && |day| == 2 && |hour| == 2 && |minute| == 2 && |second| == 2
    requires 1 <= |fraction| <= 4
    ensures SplitStamp(Stamp(year, month, day, hour, minute, second, fraction))
         == Some(Parts(year, month, day, hour, minute, second, fraction))
  {
    assert OffsetText == "+00:00";
    var r5 := "." + fraction + OffsetText;
    var r4 := ":" + second + r5;
    var r3 := ":" + minute + r4;
    var r2 := "T" + hour + r3;
    var r1 := "-" + day + r2;
    var r0 := "-" + month + r1;
    var s := year + r0;
    assert s[..4] == year && s[4..] == r0;
    Peel('-', month, r1);
    Peel('-', day, r2);
    Peel('T', hour, r3);
    Peel(':', minute, r4);
    Peel(':', second, r5);
    assert r5[1..|r5| - 6] == fraction;
    assert r5[|r5| - 6..] == "+00:00";
  }

  /** A two-digit field after its separator comes off the front of the rest. */
  lemma Peel(sep: char, field: string, rest: string)
    requires |field| == 2
    ensures var t := [sep] + field + rest; t[0] == sep && t[1..3] == field && t[3..] == rest
  {
  }

  /**
   * Stripping comes before the cut: a zero inside the first four digits
   * survives, and only the zeros at the very end of all six go.
   */
  lemma StripCutInnerZero()
    ensures StripCut("120050") == "1200"
  {
    assert "120050"[..5] == "12005";
    assert RStripZeros("12005") == "12005";
    assert "12005"[..4] == "1200";
  }

  /** All the trailing zeros go, not just the ones past the fourth digit. */
  lemma StripCutTrailingZeros()
    ensures StripCut("500000") == "5"
  {
    assert RStripZeros("5") == "5";
    assert "50"[..1] == "5";
    assert "500"[..2] == "50";
    assert "5000"[..3] == "500";
    assert "50000"[..4] == "5000";
    assert "500000"[..5] == "50000";
  }

  /** Microseconds below 100 leave four zeros, not `0`: the cut comes after the strip. */
  lemma StripCutSmall()
    ensures StripCut("000050") == "0000"
  {
    assert "000050"[..5] == "00005";
    assert RStripZeros("00005") == "00005";
    assert "00005"[..4] == "0000";
  }

  /** Nothing left after the strip: all six digits were zeros. */
  lemma StripCutZero()
    ensures StripCut("000000") == "0"
  {
    assert "000000"[..5] == "00000";
    assert "00000"[..4] == "0000";
    assert "0000"[..3] == "000";
    assert "000"[..2] == "00";
    assert "00"[..1] == "0";
    assert "0"[..0] == "";
  }

  /**
   * The legacy discriminator `0` is written `0000`; any other value is
   * copied as it is.
   */
  function Discriminator(d: string): (r: string)
    ensures r != "0"
    ensures d != "0" ==> r == d
    ensures d == "0" ==> |r| == 4 && forall i :: 0 <= i < 4 ==> r[i] == '0'
  {
    if d == "0" then "0000" else d
  }
}
