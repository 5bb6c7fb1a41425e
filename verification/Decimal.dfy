// Decimal digit strings: rendering, zero padding and their values.

module Decimal {
  type digit = x: int | 0 <= x < 10

  function Pow10(n: nat): (r: nat)
    ensures r >= 1
  {
    if n == 0 then 1 else 10 * Pow10(n - 1)
  }

  function Value(ds: seq<digit>): nat {
    if ds == [] then 0 else 10 * Value(ds[..|ds| - 1]) + ds[|ds| - 1]
  }

  // The digits of a number, most significant first, without leading zeros.
  function Digits(v: nat): (ds: seq<digit>)
    ensures |ds| >= 1
  {
    if v < 10 then [v] else Digits(v / 10) + [v % 10]
  }

  function Zeros(n: nat): (ds: seq<digit>)
    ensures |ds| == n
  {
    seq(n, _ => 0)
  }

  // At least `width` digits: shorter numbers are padded with zeros, longer ones are not cut.
  function Padded(width: nat, v: nat): seq<digit> {
    var ds := Digits(v);
    Zeros(if |ds| < width then width - |ds| else 0) + ds
  }

  lemma {:induction false} DigitsValue(v: nat)
    ensures Value(Digits(v)) == v
  {
    if v >= 10 {
      DigitsValue(v / 10);
      assert Digits(v)[..|Digits(v)| - 1] == Digits(v / 10);
    }
  }

  lemma {:induction false} LeadingZeros(n: nat, ds: seq<digit>)
    ensures Value(Zeros(n) + ds) == Value(ds)
    decreases n + |ds|
  {
    var l := Zeros(n) + ds;
    if ds != [] {
      assert l[..|l| - 1] == Zeros(n) + ds[..|ds| - 1];
      LeadingZeros(n, ds[..|ds| - 1]);
    } else if n > 0 {
      assert l[..|l| - 1] == Zeros(n - 1) + [];
      LeadingZeros(n - 1, []);
    }
  }

  lemma PaddedValue(width: nat, v: nat)
    ensures Value(Padded(width, v)) == v
  {
    DigitsValue(v);
    LeadingZeros(|Padded(width, v)| - |Digits(v)|, Digits(v));
  }

  lemma {:induction false} ValueBelow(ds: seq<digit>)
    ensures Value(ds) < Pow10(|ds|)
    decreases |ds|
  {
    if ds != [] {
      ValueBelow(ds[..|ds| - 1]);
    }
  }

  lemma {:induction false} DigitsWidth(v: nat, width: nat)
    requires width >= 1
    ensures |Digits(v)| <= width <==> v < Pow10(width)
    decreases width
  {
    assert Pow10(width) == 10 * Pow10(width - 1);
    if width == 1 {
      assert Pow10(0) == 1;
    } else if v >= 10 {
      DigitsWidth(v / 10, width - 1);
    }
  }

  // A padded number fills its width exactly while it fits.
  lemma PaddedWidth(width: nat, v: nat)
    requires width >= 1
    ensures |Padded(width, v)| == width <==> v < Pow10(width)
    ensures |Padded(width, v)| >= width
  {
    DigitsWidth(v, width);
  }

  // A digit string is determined by its length and value.
  lemma {:induction false} ValueInjective(a: seq<digit>, b: seq<digit>)
    requires |a| == |b| && Value(a) == Value(b)
    ensures a == b
    decreases |a|
  {
    if a != [] {
      ValueInjective(a[..|a| - 1], b[..|b| - 1]);
      assert a == a[..|a| - 1] + [a[|a| - 1]];
      assert b == b[..|b| - 1] + [b[|b| - 1]];
    }
  }
}
