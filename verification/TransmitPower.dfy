// Configured transmitter power: fixed-point parsing, printing and conversion.

module TransmitPower {
  import opened Common
  import opened Decimal

  const RELATIVE_SCALE: nat := 1_000_000

  type u32 = x: int | 0 <= x <= U32_MAX

  datatype TxPower = TxPower(relativeMillionths: u32, milliwatts: u32, maxMilliwatts: Option<u32>)

  // ---- Saturating machine arithmetic ----

  function Saturate(x: nat, limit: nat): nat {
    if x > limit then limit else x
  }

  function FitU32(x: nat): Option<u32> {
    if x <= U32_MAX then Some(x) else None
  }

  function FromMilliwatts(milliwatts: u32, maxMilliwatts: u32): TxPower {
    var relative :=
      if maxMilliwatts == 0 then 0
      else Saturate(Saturate(milliwatts * RELATIVE_SCALE, U64_MAX) / maxMilliwatts, RELATIVE_SCALE);
    TxPower(relative, milliwatts, Some(maxMilliwatts))
  }

  function FromWatts(watts: u32, maxWatts: u32): TxPower {
    FromMilliwatts(Saturate(watts * 1000, U32_MAX), Saturate(maxWatts * 1000, U32_MAX))
  }

  function FromRelativeMillionths(relative: u32, milliwatts: u32): Option<TxPower> {
    if relative > RELATIVE_SCALE then None
    else if relative == 0 then Some(TxPower(relative, milliwatts, None))
    else
      var numerator := Saturate(Saturate(milliwatts * RELATIVE_SCALE, U64_MAX) + relative / 2, U64_MAX);
      Some(TxPower(relative, milliwatts, FitU32(numerator / relative)))
  }

  function MilliwattsForRelative(p: TxPower, relative: u32): Option<u32> {
    if relative > RELATIVE_SCALE then None
    else if relative == p.relativeMillionths then Some(p.milliwatts)
    else if relative == 0 then Some(0)
    else if p.maxMilliwatts.None? then None
    else
      var numerator := Saturate(Saturate(p.maxMilliwatts.value * relative, U64_MAX) + RELATIVE_SCALE / 2, U64_MAX);
      FitU32(numerator / RELATIVE_SCALE)
  }

  // ---- Exact arithmetic ----

  lemma ProductBound(a: nat, b: nat, c: nat, d: nat)
    requires a <= c && b <= d
    ensures a * b <= c * d
  {
    assert a * b <= c * b by { assert (c - a) * b >= 0; }
    assert c * b <= c * d by { assert c * (d - b) >= 0; }
  }

  // The exact rounded share of a maximum at a level.
  function Share(max: nat, level: nat): nat {
    (max * level + RELATIVE_SCALE / 2) / RELATIVE_SCALE
  }

  lemma ShareAtMost(max: nat, level: nat, m: nat)
    requires max * level <= m * RELATIVE_SCALE + (RELATIVE_SCALE / 2 - 1)
    ensures Share(max, level) <= m
  {
  }

  lemma ShareAtLeast(max: nat, level: nat, m: nat)
    requires max * level + RELATIVE_SCALE / 2 >= m * RELATIVE_SCALE
    ensures Share(max, level) >= m
  {
  }

  lemma ShareIsMonotone(max: nat, a: nat, b: nat)
    requires a <= b
    ensures Share(max, a) <= Share(max, b)
  {
    ProductBound(max, a, max, b);
    ShareAtMost(max, a, Share(max, b));
  }

  // No 64-bit intermediate ever saturates: conversions are the exact rounded quotients, and a
  // level at or below full scale always has an answer when the maximum is known.
  lemma ConversionIsExact(p: TxPower, relative: u32)
    requires relative <= RELATIVE_SCALE && p.maxMilliwatts.Some?
    ensures MilliwattsForRelative(p, relative)
         == Some(if relative == p.relativeMillionths then p.milliwatts else Share(p.maxMilliwatts.value, relative))
  {
    var max := p.maxMilliwatts.value;
    ProductBound(max, relative, U32_MAX, RELATIVE_SCALE);
    ProductBound(max, relative, max, RELATIVE_SCALE);
    ShareAtMost(max, relative, max);
    assert relative == 0 ==> max * relative == 0;
  }

  lemma ObservationIsExact(relative: u32, milliwatts: u32)
    requires 0 < relative <= RELATIVE_SCALE
    ensures var p := FromRelativeMillionths(relative, milliwatts);
            p == Some(TxPower(relative, milliwatts,
                              FitU32((milliwatts * RELATIVE_SCALE + relative / 2) / relative)))
  {
    ProductBound(milliwatts, RELATIVE_SCALE, U32_MAX, RELATIVE_SCALE);
  }

  lemma NativeIsExact(milliwatts: u32, maxMilliwatts: u32)
    requires maxMilliwatts > 0
    ensures FromMilliwatts(milliwatts, maxMilliwatts).relativeMillionths
         == if milliwatts >= maxMilliwatts then RELATIVE_SCALE else milliwatts * RELATIVE_SCALE / maxMilliwatts
  {
    ProductBound(milliwatts, RELATIVE_SCALE, U32_MAX, RELATIVE_SCALE);
    var scaled := milliwatts * RELATIVE_SCALE / maxMilliwatts;
    if milliwatts >= maxMilliwatts {
      ProductBound(maxMilliwatts, RELATIVE_SCALE, milliwatts, RELATIVE_SCALE);
      QuotientAtLeast(milliwatts * RELATIVE_SCALE, maxMilliwatts, RELATIVE_SCALE);
    } else {
      ProductBound(milliwatts, RELATIVE_SCALE, maxMilliwatts, RELATIVE_SCALE);
      QuotientBounds(milliwatts * RELATIVE_SCALE, maxMilliwatts);
      if scaled > RELATIVE_SCALE {
        ProductBound(RELATIVE_SCALE + 1, maxMilliwatts, scaled, maxMilliwatts);
      }
    }
  }

  lemma QuotientBounds(x: nat, d: nat)
    requires d > 0
    ensures (x / d) * d <= x < (x / d) * d + d
  {
    assert x == (x / d) * d + x % d;
  }

  lemma QuotientAtLeast(x: nat, d: nat, q: nat)
    requires d > 0 && x >= d * q
    ensures x / d >= q
  {
    QuotientBounds(x, d);
    if x / d < q {
      ProductBound(x / d + 1, d, q, d);
    }
  }

  // ---- Monotone conversion ----

  // A higher level never converts to less power, wherever both levels convert.
  ghost predicate Monotone(p: TxPower) {
    forall a: u32, b: u32 | a <= b ::
      MilliwattsForRelative(p, a).Some? && MilliwattsForRelative(p, b).Some? ==>
        MilliwattsForRelative(p, a).value <= MilliwattsForRelative(p, b).value
  }

  // The remembered exact value sits between its rounded neighbours.
  ghost predicate Seated(p: TxPower) {
    p.maxMilliwatts.Some? &&
    forall level: u32 | level <= RELATIVE_SCALE ::
      (level < p.relativeMillionths ==> Share(p.maxMilliwatts.value, level) <= p.milliwatts)
      && (level > p.relativeMillionths ==> p.milliwatts <= Share(p.maxMilliwatts.value, level))
  }

  lemma SeatedIsMonotone(p: TxPower)
    requires Seated(p)
    ensures Monotone(p)
  {
    forall a: u32, b: u32 | a <= b && MilliwattsForRelative(p, a).Some? && MilliwattsForRelative(p, b).Some?
      ensures MilliwattsForRelative(p, a).value <= MilliwattsForRelative(p, b).value
    {
      ConversionIsExact(p, a);
      ConversionIsExact(p, b);
      ShareIsMonotone(p.maxMilliwatts.value, a, b);
      hide MilliwattsForRelative, Share;
    }
  }

  lemma NativeIsSeated(m: u32, max: u32)
    requires max > 0
    ensures Seated(FromMilliwatts(m, max))
  {
    var p := FromMilliwatts(m, max);
    var r := p.relativeMillionths;
    NativeIsExact(m, max);
    QuotientBounds(m * RELATIVE_SCALE, max);
    hide FromMilliwatts, Share;
    forall level: u32 | level <= RELATIVE_SCALE
      ensures level < r ==> Share(max, level) <= m
      ensures level > r ==> m <= Share(max, level)
    {
      if level < r {
        if m >= max {
          ProductBound(max, level, m, RELATIVE_SCALE);
        } else {
          ProductBound(level, max, r, max);
        }
        ShareAtMost(max, level, m);
      }
      if level > r {
        ProductBound(r + 1, max, level, max);
        ShareAtLeast(max, level, m);
      }
    }
  }

  // Native observations: monotone unless the radio reports power under a zero maximum.
  lemma NativeConversionIsMonotone(m: u32, max: u32)
    ensures Monotone(FromMilliwatts(m, max)) <==> max > 0 || m == 0
  {
    var p := FromMilliwatts(m, max);
    if max > 0 {
      NativeIsSeated(m, max);
      SeatedIsMonotone(p);
    } else {
      assert MilliwattsForRelative(p, 0) == Some(m);
      forall level: u32 | 0 < level <= RELATIVE_SCALE ensures MilliwattsForRelative(p, level) == Some(0) {
        ConversionIsExact(p, level);
      }
      hide MilliwattsForRelative;
      assert m > 0 ==> !Monotone(p) by {
        assert MilliwattsForRelative(p, 1) == Some(0);
      }
      if m == 0 {
        forall a: u32, b: u32 | a <= b && MilliwattsForRelative(p, a).Some? && MilliwattsForRelative(p, b).Some?
          ensures MilliwattsForRelative(p, a).value <= MilliwattsForRelative(p, b).value
        {
          AboveFullScale(p, a);
        }
      }
    }
  }

  lemma AboveFullScale(p: TxPower, level: u32)
    ensures level > RELATIVE_SCALE ==> MilliwattsForRelative(p, level).None?
  {
  }

  // Inferring a maximum from an observed level: the division puts m * scale within half a level.
  lemma InferredMaximum(r: u32, m: u32, level: u32)
    requires 0 < r <= RELATIVE_SCALE && level <= RELATIVE_SCALE
    ensures var max := (m * RELATIVE_SCALE + r / 2) / r;
            (level < r ==> Share(max, level) <= m) && (level > r ==> m <= Share(max, level))
  {
    var x := m * RELATIVE_SCALE + r / 2;
    var max := x / r;
    QuotientBounds(x, r);
    hide Share;
    if level < r {
      // max * r <= m * scale + r / 2
      InferredBelow(max, r, m, level);
    }
    if level > r {
      InferredAbove(max, r, m, level);
    }
  }

  lemma InferredBelow(max: nat, r: nat, m: nat, level: nat)
    requires 0 < r <= RELATIVE_SCALE && level < r && max * r <= m * RELATIVE_SCALE + r / 2
    ensures Share(max, level) <= m
  {
    // Scaled by r: (max * level) * r <= (m * scale + r / 2) * level < (m * scale + scale / 2) * r.
    hide Share;
    var top := m * RELATIVE_SCALE + RELATIVE_SCALE / 2;
    ProductBound(max * r, level, m * RELATIVE_SCALE + r / 2, level);
    ProductBelow(m * RELATIVE_SCALE + r / 2, level, top, r);
    Exchange(max, level, r);
    CancelFactor(max * level, top, r);
    ShareAtMost(max, level, m);
  }

  lemma ProductBelow(a: nat, b: nat, c: nat, d: nat)
    requires a <= c && b < d && c > 0
    ensures a * b < c * d
  {
    ProductBound(a, b, c, b);
    assert c * (d - b) > 0;
  }

  lemma Exchange(a: nat, b: nat, c: nat)
    ensures (a * b) * c == (a * c) * b
  {
  }

  lemma CancelFactor(a: nat, b: nat, r: nat)
    requires a * r < b * r
    ensures a < b
  {
    if a >= b {
      ProductBound(b, r, a, r);
    }
  }

  lemma InferredAbove(max: nat, r: nat, m: nat, level: nat)
    requires 0 < r < level <= RELATIVE_SCALE && m * RELATIVE_SCALE + r / 2 < max * r + r
    ensures m <= Share(max, level)
  {
    // Scaled by r: (max * level) * r >= (m * scale - r / 2) * level.
    var h := r - 1 - r / 2;
    assert max * r + h >= m * RELATIVE_SCALE;
    ProductBound(m * RELATIVE_SCALE, level, max * r + h, level);
    assert (max * r + h) * level == (max * level) * r + h * level;
    ProductBound(m * RELATIVE_SCALE, r, m * RELATIVE_SCALE, level);
    if max * level + RELATIVE_SCALE / 2 < m * RELATIVE_SCALE {
      ProductBound(max * level + RELATIVE_SCALE / 2 + 1, r, m * RELATIVE_SCALE, r);
      assert (max * level + RELATIVE_SCALE / 2 + 1) * r == (max * level) * r + (RELATIVE_SCALE / 2 + 1) * r;
      ProductBound(h, level, h, RELATIVE_SCALE);
    }
    hide Share;
    ShareAtLeast(max, level, m);
  }

  // Bridged observations are always monotone, whatever the inferred maximum rounds to.
  lemma BridgedConversionIsMonotone(r: u32, m: u32)
    requires FromRelativeMillionths(r, m).Some?
    ensures Monotone(FromRelativeMillionths(r, m).value)
  {
    var p := FromRelativeMillionths(r, m).value;
    if r > 0 {
      ObservationIsExact(r, m);
      hide FromRelativeMillionths, Share;
      if p.maxMilliwatts.Some? {
        forall level: u32 | level <= RELATIVE_SCALE
          ensures level < r ==> Share(p.maxMilliwatts.value, level) <= m
          ensures level > r ==> m <= Share(p.maxMilliwatts.value, level)
        {
          InferredMaximum(r, m, level);
        }
        SeatedIsMonotone(p);
      }
    }
  }

  // ---- Text ----

  // The characters with the Unicode White_Space property.
  predicate IsWhitespace(c: char) {
    var n := c as int;
    0x09 <= n <= 0x0d || n == 0x20 || n == 0x85 || n == 0xa0 || n == 0x1680 || 0x2000 <= n <= 0x200a
    || n == 0x2028 || n == 0x2029 || n == 0x202f || n == 0x205f || n == 0x3000
  }

  function TrimStart(s: string): string {
    if s != [] && IsWhitespace(s[0]) then TrimStart(s[1..]) else s
  }

  function TrimEnd(s: string): string {
    if s != [] && IsWhitespace(s[|s| - 1]) then TrimEnd(s[..|s| - 1]) else s
  }

  predicate IsDigitChar(c: char) {
    '0' <= c <= '9'
  }

  function DigitOf(c: char): digit
    requires IsDigitChar(c)
  {
    c as int - '0' as int
  }

  function CharOf(d: digit): char {
    (d + '0' as int) as char
  }

  function DigitsOf(s: string): seq<digit>
    requires forall i | 0 <= i < |s| :: IsDigitChar(s[i])
  {
    seq(|s|, i requires 0 <= i < |s| && IsDigitChar(s[i]) => DigitOf(s[i]))
  }

  function TextOf(ds: seq<digit>): (s: string)
    ensures |s| == |ds| && forall i | 0 <= i < |s| :: s[i] == CharOf(ds[i])
  {
    seq(|ds|, i requires 0 <= i < |ds| => CharOf(ds[i]))
  }

  // The position of the first '.', or the length.
  function Point(s: string): (k: nat)
    ensures k <= |s| && (forall i | 0 <= i < k :: s[i] != '.') && (k < |s| ==> s[k] == '.')
  {
    if s == [] || s[0] == '.' then 0 else
      var k := Point(s[1..]);
      assert forall i | 0 <= i < k + 1 :: s[i] == (if i == 0 then s[0] else s[1..][i - 1]);
      k + 1
  }

  function ParseRelativeMillionths(value: string): Option<u32> {
    var trimmed := TrimEnd(TrimStart(value));
    var k := Point(trimmed);
    ParseParts(trimmed[..k], if k < |trimmed| then trimmed[k + 1..] else "")
  }

  function ParseParts(whole: string, fraction: string): Option<u32> {
    if whole == "0" then
      if |fraction| > 6 || exists i | 0 <= i < |fraction| :: !IsDigitChar(fraction[i]) then None
      else
        var digits := DigitsOf(fraction) + Zeros(6 - |fraction|);
        SixDigits(digits);
        Some(Value(digits))
    else if whole == "1" && forall i | 0 <= i < |fraction| :: fraction[i] == '0' then Some(RELATIVE_SCALE)
    else None
  }

  lemma SixDigits(ds: seq<digit>)
    requires |ds| == 6
    ensures Value(ds) < RELATIVE_SCALE
  {
    ValueBelow(ds);
    SixPlaces();
  }

  lemma SixPlaces()
    ensures Pow10(6) == RELATIVE_SCALE
  {
    assert Pow10(2) == 100 && Pow10(4) == 10000;
  }

  function TrimZeros(ds: seq<digit>): seq<digit> {
    if ds != [] && ds[|ds| - 1] == 0 then TrimZeros(ds[..|ds| - 1]) else ds
  }

  function RelativeDecimal(p: TxPower): string {
    if p.relativeMillionths == RELATIVE_SCALE then "1"
    else if p.relativeMillionths == 0 then "0"
    else "0." + TextOf(TrimZeros(Padded(6, p.relativeMillionths)))
  }

  lemma {:induction false} TrimZerosPads(ds: seq<digit>)
    ensures |TrimZeros(ds)| <= |ds| && TrimZeros(ds) + Zeros(|ds| - |TrimZeros(ds)|) == ds
    decreases |ds|
  {
    if ds != [] && ds[|ds| - 1] == 0 {
      var front := ds[..|ds| - 1];
      TrimZerosPads(front);
      assert ds == front + [0];
      var k := |front| - |TrimZeros(front)|;
      assert Zeros(k) + [0] == Zeros(k + 1);
      assert (TrimZeros(front) + Zeros(k)) + [0] == TrimZeros(front) + (Zeros(k) + [0]);
    } else {
      assert ds + Zeros(0) == ds;
    }
  }

  lemma TextIsDigits(ds: seq<digit>)
    ensures forall i | 0 <= i < |TextOf(ds)| :: IsDigitChar(TextOf(ds)[i])
    ensures DigitsOf(TextOf(ds)) == ds
  {
  }

  lemma NothingToTrim(s: string)
    requires s != [] && !IsWhitespace(s[0]) && !IsWhitespace(s[|s| - 1])
    ensures TrimEnd(TrimStart(s)) == s
  {
  }

  lemma WholeNumber(s: string)
    requires s == "0" || s == "1"
    ensures ParseRelativeMillionths(s) == ParseParts(s, "")
  {
    hide ParseParts;
    NothingToTrim(s);
    assert Point(s[1..]) == 0 && Point(s) == 1 && s[..1] == s;
  }

  lemma PartsReadBack(fraction: string, ds: seq<digit>)
    requires |fraction| == |ds| <= 6 && forall i | 0 <= i < |fraction| :: IsDigitChar(fraction[i])
    requires DigitsOf(fraction) == ds
    ensures ParseParts("0", fraction) == Some(Value(ds + Zeros(6 - |ds|)))
  {
    hide DigitsOf, Value, IsDigitChar;
  }

  lemma DigitsAreNotBlank(text: string)
    requires text != [] && IsDigitChar(text[|text| - 1])
    ensures !IsWhitespace(text[|text| - 1])
  {
  }

  lemma FractionText(text: string)
    requires text != [] ==> !IsWhitespace(text[|text| - 1])
    ensures ParseRelativeMillionths("0." + text) == ParseParts("0", text)
  {
    hide ParseParts;
    var s := "0." + text;
    assert !IsWhitespace('0') && !IsWhitespace('.');
    hide IsWhitespace;
    assert s[|s| - 1] == if text == [] then '.' else text[|text| - 1];
    NothingToTrim(s);
    hide TrimEnd, TrimStart;
    assert s[1..][0] == '.' && Point(s[1..]) == 0 && Point(s) == 1;
    assert s[..1] == "0" && s[2..] == text;
  }

  // "0." followed by digits reads back as that fraction, padded to six places.
  lemma FractionReadsBack(ds: seq<digit>)
    requires |ds| <= 6
    ensures ParseRelativeMillionths("0." + TextOf(ds)) == Some(Value(ds + Zeros(6 - |ds|)))
  {
    hide ParseRelativeMillionths, ParseParts, IsDigitChar, IsWhitespace, DigitsOf, TextOf, Value;
    var text := TextOf(ds);
    TextIsDigits(ds);
    PartsReadBack(text, ds);
    if text != [] {
      DigitsAreNotBlank(text);
    }
    FractionText(text);
  }

  lemma EndsOfTheScale()
    ensures ParseRelativeMillionths("1") == Some(RELATIVE_SCALE)
    ensures ParseRelativeMillionths("0") == Some(0)
  {
    WholeNumber("1");
    WholeNumber("0");
    hide ParseRelativeMillionths;
    assert DigitsOf("") + Zeros(6) == Zeros(6) + [];
    LeadingZeros(6, []);
  }

  // Reading a printed level gives the level back, for every level there is.
  lemma PrintedLevelReadsBack(p: TxPower)
    requires p.relativeMillionths <= RELATIVE_SCALE
    ensures ParseRelativeMillionths(RelativeDecimal(p)) == Some(p.relativeMillionths)
  {
    hide ParseRelativeMillionths, Padded, TrimZeros, Value, Pow10, TextOf;
    var r := p.relativeMillionths;
    EndsOfTheScale();
    if 0 < r < RELATIVE_SCALE {
      SixPlaces();
      PaddedWidth(6, r);
      PaddedValue(6, r);
      TrimZerosPads(Padded(6, r));
      FractionReadsBack(TrimZeros(Padded(6, r)));
    }
  }

  // Every observation the constructors make can be printed and read back.
  lemma ObservedLevelsAreInRange(m: u32, max: u32, r: u32)
    ensures FromMilliwatts(m, max).relativeMillionths <= RELATIVE_SCALE
    ensures FromWatts(m, max).relativeMillionths <= RELATIVE_SCALE
    ensures FromRelativeMillionths(r, m).Some? ==> FromRelativeMillionths(r, m).value.relativeMillionths <= RELATIVE_SCALE
  {
  }
}
