/** struct.pack('f', x) on every double: the nearest binary32 number, ties to even, or an exception. */
module Rounding {
  import opened Features
  import opened FloatBits

  // ---------- where a rounded significand ends up ----------

  lemma RoundBounds(m: nat, s: nat, lo: nat, hi: nat)
    requires lo * Pow2(s) <= m < hi * Pow2(s)
    ensures lo <= RoundHalfEven(m, s) <= hi
  {
    var (q, r) := ShiftRight(m, s);
    QuotientBounds(m, Pow2(s), q, r, lo, hi);
  }

  lemma QuotientBounds(m: nat, u: nat, q: nat, r: nat, lo: nat, hi: nat)
    requires m == q * u + r && r < u && lo * u <= m < hi * u
    ensures lo <= q < hi
  {
    assert (q + 1) * u == q * u + u;
    if q < lo {
      ProductAtMost(q + 1, lo, u);
    }
    if hi <= q {
      ProductAtMost(hi, q, u);
    }
  }

  /** How far the unit of the result is above 2^-149. */
  function Shift(d: Pattern): nat {
    if d.exp >= 897 then d.exp - 897 else 0
  }

  function Exponent(d: Pattern): nat {
    if d.exp == 0 then 0 else d.exp - 1
  }

  lemma UnitsOf(k: nat, r: nat, p: Pattern)
    requires TWO23 <= r <= 2 * TWO23
    requires p.exp == (k * TWO23 + r) / TWO23 && p.frac == (k * TWO23 + r) % TWO23
    ensures SingleUnits(p) == r * Pow2(k)
  {
    if r < 2 * TWO23 {
      Quotient(k * TWO23 + r, TWO23, k + 1, r - TWO23);
    } else {
      Quotient(k * TWO23 + r, TWO23, k + 2, 0);
      assert Pow2(k + 1) == 2 * Pow2(k);
      Regroup(TWO23, 2, Pow2(k));
    }
  }

  lemma SmallUnits(r: nat, p: Pattern)
    requires r <= TWO23 && p.exp == r / TWO23 && p.frac == r % TWO23
    ensures SingleUnits(p) == r
  {
    assert Pow2(0) == 1;
  }

  lemma SignificandBounds(d: Pattern)
    requires IsDouble(d)
    ensures Significand(d) < 2 * TWO52 && (d.exp >= 897 ==> TWO52 <= Significand(d))
  {
  }

  lemma RoundedBounds(d: Pattern)
    requires IsDouble(d) && d.exp < 2047
    ensures var r := RoundHalfEven(Significand(d), DroppedBits(d));
            if d.exp >= 897 then TWO23 <= r <= 2 * TWO23 else r <= TWO23
  {
    var (m, s) := (Significand(d), DroppedBits(d));
    SignificandBounds(d);
    Pow2Constants();
    if d.exp >= 897 {
      assert TWO23 * TWO29 == TWO52;
      RoundBounds(m, s, TWO23, 2 * TWO23);
    } else {
      Pow2Monotone(30, s);
      assert Pow2(30) == 2 * Pow2(29);
      ProductAtMost(2 * TWO29, Pow2(s), TWO23);
      RoundBounds(m, s, 0, TWO23);
    }
  }

  /** The result is the rounded significand in units of the result's exponent. */
  lemma NarrowedUnits(d: Pattern)
    requires IsDouble(d) && d.exp < 2047 && Narrow(d).Some?
    ensures SingleUnits(Narrow(d).value) == RoundHalfEven(Significand(d), DroppedBits(d)) * Pow2(Shift(d))
    ensures Narrow(d).value.exp < 255 && Narrow(d).value.neg == d.neg
  {
    var (r, p) := (RoundHalfEven(Significand(d), DroppedBits(d)), Narrow(d).value);
    RoundedBounds(d);
    if d.exp >= 897 {
      UnitsOf(d.exp - 897, r, p);
    } else {
      SmallUnits(r, p);
    }
  }

  // ---------- nearest of all ----------

  function Distance(a: nat, b: nat): nat {
    if a <= b then b - a else a - b
  }

  lemma DistanceScaled(a: nat, b: nat, c: nat)
    ensures Distance(a * c, b * c) == Distance(a, b) * c
  {
    if a <= b {
      assert (b - a) * c == b * c - a * c;
    } else {
      assert (a - b) * c == a * c - b * c;
    }
  }

  /** Binary32 numbers with the exponent of the result, or a larger one, lie on the grid of its unit. */
  lemma OnGrid(d: Pattern, q: Pattern) returns (o: nat)
    requires IsSingle(q) && (d.exp < 897 || q.exp > Shift(d))
    ensures SingleUnits(q) == o * Pow2(Shift(d))
  {
    var k := Shift(d);
    if d.exp < 897 {
      o := SingleUnits(q);
      assert Pow2(0) == 1;
    } else {
      o := (TWO23 + q.frac) * Pow2(q.exp - 1 - k);
      Pow2Add(q.exp - 1 - k, k);
      Regroup(TWO23 + q.frac, Pow2(q.exp - 1 - k), Pow2(k));
    }
  }

  /** Those with a smaller one lie below the least significand of the result's exponent. */
  lemma BelowGrid(k: nat, q: Pattern)
    requires IsSingle(q) && q.exp <= k
    ensures SingleUnits(q) <= TWO23 * Pow2(k)
  {
    if q.exp == 0 {
      ProductAtMost(1, Pow2(k), TWO23);
    } else {
      Pow2Monotone(q.exp, k);
      assert Pow2(q.exp) == 2 * Pow2(q.exp - 1);
      ProductAtMost(TWO23 + q.frac, 2 * TWO23, Pow2(q.exp - 1));
      Regroup(TWO23, 2, Pow2(q.exp - 1));
      ProductAtMost(Pow2(q.exp), Pow2(k), TWO23);
    }
  }

  lemma ScaleOf(d: Pattern, gap: nat, n: nat)
    requires IsDouble(d) && d.exp < 2047 && gap == 1074 - 149
    ensures (n * Pow2(Shift(d))) * Pow2(gap) == (n * Pow2(DroppedBits(d))) * Pow2(Exponent(d))
  {
    assert Shift(d) + gap == DroppedBits(d) + Exponent(d);
    Pow2Add(Shift(d), gap);
    Pow2Add(DroppedBits(d), Exponent(d));
    Regroup(n, Pow2(Shift(d)), Pow2(gap));
    Regroup(n, Pow2(DroppedBits(d)), Pow2(Exponent(d)));
  }

  /** How far a binary32 number is from the double, in units of 2^-1074. */
  function Off(p: Pattern, d: Pattern, gap: nat): nat {
    Distance(SingleUnits(p) * Pow2(gap), DoubleUnits(d))
  }

  lemma OffOnGrid(p: Pattern, d: Pattern, gap: nat, o: nat)
    requires IsDouble(d) && d.exp < 2047 && gap == 1074 - 149 && SingleUnits(p) == o * Pow2(Shift(d))
    ensures Off(p, d, gap) == Distance(o * Pow2(DroppedBits(d)), Significand(d)) * Pow2(Exponent(d))
  {
    ScaleOf(d, gap, o);
    DistanceScaled(o * Pow2(DroppedBits(d)), Significand(d), Pow2(Exponent(d)));
  }

  /** No grid point is nearer than the rounded one. */
  lemma GridNearest(d: Pattern, o: nat)
    ensures var (m, s) := (Significand(d), DroppedBits(d));
            Distance(RoundHalfEven(m, s) * Pow2(s), m) * Pow2(Exponent(d))
            <= Distance(o * Pow2(s), m) * Pow2(Exponent(d))
  {
    var (m, s) := (Significand(d), DroppedBits(d));
    RoundNearest(m, s, o);
    ProductAtMost(Distance(RoundHalfEven(m, s) * Pow2(s), m), Distance(o * Pow2(s), m), Pow2(Exponent(d)));
  }

  lemma BelowIsFarther(d: Pattern, q: Pattern, gap: nat)
    requires IsDouble(d) && 897 <= d.exp < 2047 && IsSingle(q) && q.exp <= Shift(d) && gap == 1074 - 149
    ensures Distance(TWO23 * Pow2(DroppedBits(d)), Significand(d)) * Pow2(Exponent(d)) <= Off(q, d, gap)
  {
    BelowGrid(Shift(d), q);
    Pow2Constants();
    SignificandBounds(d);
    ScaleOf(d, gap, TWO23);
    ProductAtMost(SingleUnits(q), TWO23 * Pow2(Shift(d)), Pow2(gap));
    assert TWO23 * Pow2(DroppedBits(d)) == TWO52;
    ProductAtMost(TWO52, Significand(d), Pow2(Exponent(d)));
    DistanceScaled(TWO52, Significand(d), Pow2(Exponent(d)));
  }

  /**
   * Packing keeps the sign and picks a binary32 number to which no other one is nearer, for every finite double it can
   * pack. The units of the two formats differ by the power `gap`.
   */
  lemma NarrowNearest(d: Pattern, q: Pattern, gap: nat)
    requires IsDouble(d) && d.exp < 2047 && Narrow(d).Some? && gap == 1074 - 149
    requires IsSingle(q) && q.exp < 255
    ensures var p := Narrow(d).value;
            p.neg == d.neg && p.exp < 255 && Off(p, d, gap) <= Off(q, d, gap)
  {
    NarrowedUnits(d);
    OffOnGrid(Narrow(d).value, d, gap, RoundHalfEven(Significand(d), DroppedBits(d)));
    if d.exp < 897 || q.exp > Shift(d) {
      var o := OnGrid(d, q);
      OffOnGrid(q, d, gap, o);
      GridNearest(d, o);
    } else {
      GridNearest(d, TWO23);
      BelowIsFarther(d, q, gap);
    }
  }

  /** Of two equally near neighbours packing takes the even one. */
  lemma TieIsEven(m: nat, s: nat)
    requires 2 * ShiftRight(m, s).1 == Pow2(s)
    ensures RoundHalfEven(m, s) % 2 == 0
  {
  }

  // ---------- what cannot be packed ----------

  /** Packing raises exactly on finite doubles from half a unit above the largest binary32 number on. */
  lemma NarrowOverflows(d: Pattern)
    requires IsDouble(d)
    ensures Narrow(d) == None <==> d.exp < 2047 && (d.exp > 1150 || (d.exp == 1150 && d.frac >= 0xF_FFFF_F000_0000))
  {
    if d.exp < 2047 {
      RoundedBounds(d);
      if d.exp == 1150 {
        TopBinade(Significand(d));
      }
    }
  }

  lemma TopBinade(m: nat)
    requires TWO52 <= m < 2 * TWO52
    ensures RoundHalfEven(m, 29) == 2 * TWO23 <==> m >= 0x1F_FFFF_F000_0000
  {
    Pow2Constants();
    var (q, r) := ShiftRight(m, 29);
    QuotientBounds(m, TWO29, q, r, TWO23, 2 * TWO23);
    if q == 2 * TWO23 - 1 {
    } else {
      ProductAtMost(q, 2 * TWO23 - 2, TWO29);
    }
  }

  /** Infinities stay infinite and NaNs come out as quiet NaNs, with their sign. */
  lemma NarrowSpecial(d: Pattern)
    requires IsDouble(d) && d.exp == 2047
    ensures Narrow(d).Some? && Narrow(d).value.neg == d.neg && Narrow(d).value.exp == 255
    ensures IsNaN(Narrow(d).value) <==> d.frac != 0
    ensures !IsSignalling(Narrow(d).value)
  {
  }
}
