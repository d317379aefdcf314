/**
 * `java.math.BigDecimal` as the source uses it: an unscaled integer and a
 * scale, worth `unscaled / 10^scale`. Only `valueOf`, `add`, `multiply`,
 * `compareTo` and `equals` (the datatype's own equality, which like Java's
 * tells 2.0 from 2.00) are used.
 */
module Decimals {

  datatype Decimal = Decimal(unscaled: int, scale: nat)

  function Pow10(n: nat): (r: nat)
    ensures r >= 1
  {
    if n == 0 then 1 else 10 * Pow10(n - 1)
  }

  lemma {:induction false} Pow10Add(a: nat, b: nat)
    ensures Pow10(a + b) == Pow10(a) * Pow10(b)
  {
    if b != 0 {
      Pow10Add(a, b - 1);
    }
  }

  /** The number a decimal denotes. */
  function Value(d: Decimal): real {
    d.unscaled as real / Pow10(d.scale) as real
  }

  function Max(a: nat, b: nat): nat {
    if a < b then b else a
  }

  /** `BigDecimal.ZERO`. */
  const Zero: Decimal := Decimal(0, 0)

  /** `BigDecimal.valueOf(long)`: scale 0. */
  function FromInt(n: int): (r: Decimal)
    ensures r.scale == 0 && Value(r) == n as real
  {
    Decimal(n, 0)
  }

  /** The same number written with a larger scale. */
  function Rescale(d: Decimal, s: nat): (r: Decimal)
    requires d.scale <= s
    ensures r.scale == s && Value(r) == Value(d)
  {
    Pow10Add(d.scale, s - d.scale);
    var k := Pow10(s - d.scale);
    ScaleUp(d.unscaled, Pow10(d.scale), k);
    Decimal(d.unscaled * k, s)
  }

  /** `a.add(b)`: exact, with the larger of the two scales. */
  function Add(a: Decimal, b: Decimal): (r: Decimal)
    ensures r.scale == Max(a.scale, b.scale)
    ensures Value(r) == Value(a) + Value(b)
  {
    var s := Max(a.scale, b.scale);
    var a', b' := Rescale(a, s), Rescale(b, s);
    SumRatio(a'.unscaled, b'.unscaled, Pow10(s));
    Decimal(a'.unscaled + b'.unscaled, s)
  }

  /** `a.multiply(b)`: exact, with the sum of the two scales. */
  function Multiply(a: Decimal, b: Decimal): (r: Decimal)
    ensures r.scale == a.scale + b.scale
    ensures Value(r) == Value(a) * Value(b)
  {
    Pow10Add(a.scale, b.scale);
    RatioProduct(a.unscaled, Pow10(a.scale), b.unscaled, Pow10(b.scale));
    Decimal(a.unscaled * b.unscaled, a.scale + b.scale)
  }

  /** `a.compareTo(b)`: -1, 0 or 1 by numeric value, ignoring scale. */
  function CompareTo(a: Decimal, b: Decimal): (r: int)
    ensures -1 <= r <= 1
    ensures r < 0 <==> Value(a) < Value(b)
    ensures r == 0 <==> Value(a) == Value(b)
  {
    var s := Max(a.scale, b.scale);
    var a', b' := Rescale(a, s), Rescale(b, s);
    DivLess(a'.unscaled as real, b'.unscaled as real, Pow10(s) as real);
    if a'.unscaled < b'.unscaled then -1 else if a'.unscaled == b'.unscaled then 0 else 1
  }

  /** Multiplying numerator and denominator by the same `k` keeps the ratio. */
  lemma ScaleUp(u: int, p: nat, k: nat)
    requires p >= 1 && k >= 1
    ensures (u * k) as real / (p * k) as real == u as real / p as real
  {
    RealOfProduct(u, k);
    RealOfProduct(p, k);
    DivCancel(u as real, p as real, k as real);
  }

  /** The ratio of two products is the product of the ratios. */
  lemma RatioProduct(u: int, p: nat, v: int, w: nat)
    requires p >= 1 && w >= 1
    ensures (u * v) as real / (p * w) as real == (u as real / p as real) * (v as real / w as real)
  {
    RealOfProduct(u, v);
    RealOfProduct(p, w);
    DivMul(u as real, p as real, v as real, w as real);
  }

  /** Over one denominator, the ratio of a sum is the sum of the ratios. */
  lemma SumRatio(u: int, v: int, p: nat)
    requires p >= 1
    ensures (u + v) as real / p as real == u as real / p as real + v as real / p as real
  {
    var q, r := u as real / p as real, v as real / p as real;
    assert q * p as real == u as real && r * p as real == v as real;
    assert (q + r) * p as real == (u + v) as real;
  }

  lemma RealOfProduct(x: int, y: int)
    ensures (x * y) as real == x as real * y as real
  {
  }

  lemma DivCancel(u: real, p: real, k: real)
    requires p > 0.0 && k > 0.0
    ensures (u * k) / (p * k) == u / p
  {
    var q := u / p;
    assert q * p == u;
    assert q * (p * k) == u * k;
  }

  lemma DivMul(u: real, p: real, v: real, w: real)
    requires p > 0.0 && w > 0.0
    ensures (u * v) / (p * w) == (u / p) * (v / w)
  {
    var q, r := u / p, v / w;
    assert q * p == u;
    assert r * w == v;
    assert (q * r) * (p * w) == (q * p) * (r * w);
  }

  lemma DivLess(u: real, v: real, p: real)
    requires p > 0.0
    ensures u / p < v / p <==> u < v
    ensures u / p == v / p <==> u == v
  {
    var q, r := u / p, v / p;
    assert q * p == u && r * p == v;
    assert (q < r) == (q * p < r * p);
  }

  /** A decimal is negative exactly when its unscaled value is. */
  lemma NegativeIff(d: Decimal)
    ensures CompareTo(d, Zero) < 0 <==> d.unscaled < 0
  {
    DivLess(d.unscaled as real, 0.0, Pow10(d.scale) as real);
  }
}
