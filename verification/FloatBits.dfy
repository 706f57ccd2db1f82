/**
 * Integer parameters travel as the bit pattern of a 32-bit float. Unpacking makes the pattern a Python float
 * (binary64), packing rounds it back to binary32. Both conversions are written out on the bit fields of
 * IEEE 754-2008 section 3.4.
 */
module FloatBits {
  import opened Features

  function Pow2(n: nat): (p: nat)
    ensures p > 0
  {
    if n == 0 then 1 else 2 * Pow2(n - 1)
  }

  lemma {:induction false} Pow2Add(a: nat, b: nat)
    ensures Pow2(a + b) == Pow2(a) * Pow2(b)
  {
    if a > 0 {
      Pow2Add(a - 1, b);
    }
  }

  const TWO23: nat := 0x80_0000
  const TWO29: nat := 0x2000_0000
  const TWO52: nat := 0x10_0000_0000_0000

  lemma Pow2Constants()
    ensures Pow2(23) == TWO23 && Pow2(29) == TWO29 && Pow2(52) == TWO52
  {
    assert Pow2(8) == 0x100;
    Pow2Add(8, 8);
    Pow2Add(16, 7);
    assert Pow2(7) == 0x80;
    Pow2Add(23, 6);
    assert Pow2(6) == 0x40;
    Pow2Add(29, 23);
  }

  /** Sign, biased exponent and fraction of a float. */
  datatype Pattern = Pattern(neg: bool, exp: nat, frac: nat)

  predicate IsSingle(p: Pattern) {
    p.exp < 256 && p.frac < TWO23
  }

  predicate IsDouble(p: Pattern) {
    p.exp < 2048 && p.frac < TWO52
  }

  function SingleOf(bits: nat): (p: Pattern)
    requires bits < 0x1_0000_0000
    ensures IsSingle(p)
  {
    Pattern(bits >= 0x8000_0000, (bits / TWO23) % 256, bits % TWO23)
  }

  function BitsOf(p: Pattern): (bits: nat)
    requires IsSingle(p)
    ensures bits < 0x1_0000_0000
  {
    (if p.neg then 0x8000_0000 else 0) + p.exp * TWO23 + p.frac
  }

  predicate IsNaN(p: Pattern) {
    IsSingle(p) && p.exp == 255 && p.frac != 0
  }

  /** A NaN whose top fraction bit is clear; conversions quieten it (IEEE 754-2008 section 6.2). */
  predicate IsSignalling(p: Pattern) {
    IsNaN(p) && p.frac < 0x40_0000
  }

  /** Index of the leading bit: 2^k <= m < 2^(k+1). */
  function LeadingBit(m: nat): (k: nat)
    requires m > 0
    ensures Pow2(k) <= m < 2 * Pow2(k)
  {
    if m == 1 then 0 else 1 + LeadingBit(m / 2)
  }

  lemma {:induction false} Pow2Monotone(a: nat, b: nat)
    requires a <= b
    ensures Pow2(a) <= Pow2(b)
  {
    if a < b {
      Pow2Monotone(a, b - 1);
    }
  }

  lemma LeadingBitBound(m: nat)
    requires 0 < m < TWO23
    ensures LeadingBit(m) <= 22
  {
    Pow2Constants();
    if LeadingBit(m) > 22 {
      Pow2Monotone(23, LeadingBit(m));
    }
  }

  /** binary32 to binary64, as struct.unpack('f', ...) does. */
  function Widen(p: Pattern): (d: Pattern)
    requires IsSingle(p)
  {
    if p.exp == 255 then
      Pattern(p.neg, 2047, if p.frac == 0 then 0
                           else (if p.frac < 0x40_0000 then p.frac + 0x40_0000 else p.frac) * TWO29)
    else if p.exp > 0 then Pattern(p.neg, p.exp + 896, p.frac * TWO29)
    else if p.frac == 0 then Pattern(p.neg, 0, 0)
    else
      var k := LeadingBit(p.frac);
      LeadingBitBound(p.frac);
      Pattern(p.neg, k + 874, (p.frac - Pow2(k)) * Pow2(52 - k))
  }

  /** Quotient q and remainder r of a division by u, rounded to the nearest integer, ties to even. */
  function Nearest(q: nat, r: nat, u: nat): nat {
    if 2 * r > u || (2 * r == u && q % 2 == 1) then q + 1 else q
  }

  /** m shifted right by s bits, with the bits shifted out. */
  function ShiftRight(m: nat, s: nat): (r: (nat, nat))
    ensures m == r.0 * Pow2(s) + r.1 && r.1 < Pow2(s)
  {
    if s == 0 then (m, 0)
    else
      var (q, low) := ShiftRight(m, s - 1);
      ShiftStep(q, Pow2(s - 1));
      (q / 2, (q % 2) * Pow2(s - 1) + low)
  }

  lemma ShiftStep(q: nat, u: nat)
    ensures q * u == (q / 2) * (2 * u) + (q % 2) * u
  {
    var (h, b) := (q / 2, q % 2);
    assert q == 2 * h + b;
    assert (2 * h + b) * u == h * (2 * u) + b * u;
  }

  function RoundHalfEven(m: nat, s: nat): nat {
    var (q, r) := ShiftRight(m, s);
    Nearest(q, r, Pow2(s))
  }

  /** Significand of a finite binary64 number; its value is Significand * 2^(max(exp, 1) - 1075). */
  function Significand(d: Pattern): nat {
    if d.exp == 0 then d.frac else TWO52 + d.frac
  }

  /** How many low bits of the significand a binary32 result cannot hold. */
  function DroppedBits(d: Pattern): nat {
    if d.exp >= 897 then 29 else 29 + 897 - (if d.exp == 0 then 1 else d.exp)
  }

  /** Magnitude bits of the nearest binary32 number; a carry runs from the fraction into the exponent. */
  function NarrowedMagnitude(d: Pattern): nat {
    var rounded := RoundHalfEven(Significand(d), DroppedBits(d));
    if d.exp >= 897 then (d.exp - 897) * TWO23 + rounded else rounded
  }

  /** binary64 to binary32, as struct.pack('f', ...) does; None is the OverflowError. */
  function Narrow(d: Pattern): (p: Option<Pattern>)
    requires IsDouble(d)
    ensures p.Some? ==> IsSingle(p.value)
  {
    if d.exp == 2047 then
      Some(Pattern(d.neg, 255, if d.frac == 0 then 0
                               else if d.frac / TWO29 < 0x40_0000 then d.frac / TWO29 + 0x40_0000 else d.frac / TWO29))
    else
      var magnitude := NarrowedMagnitude(d);
      if magnitude / TWO23 >= 255 then None
      else Some(Pattern(d.neg, magnitude / TWO23, magnitude % TWO23))
  }

  // ---------- widening is exact ----------

  /** Magnitude of a finite binary32 number in units of 2^-149. */
  function SingleUnits(p: Pattern): nat {
    if p.exp == 0 then p.frac else (TWO23 + p.frac) * Pow2(p.exp - 1)
  }

  /** Magnitude of a finite binary64 number in units of 2^-1074. */
  function DoubleUnits(d: Pattern): nat {
    Significand(d) * Pow2(if d.exp == 0 then 0 else d.exp - 1)
  }

  lemma SubnormalSignificand(frac: nat)
    requires 0 < frac < TWO23
    ensures var k := LeadingBit(frac);
            k <= 22 && TWO52 + (frac - Pow2(k)) * Pow2(52 - k) == frac * Pow2(52 - k)
            && (frac - Pow2(k)) * Pow2(52 - k) < TWO52
  {
    var k := LeadingBit(frac);
    LeadingBitBound(frac);
    Pow2Constants();
    Pow2Add(k, 52 - k);
    TimesDifference(frac, Pow2(k), Pow2(52 - k));
  }

  /** Products with a common factor, kept apart from everything else for the solver's sake. */
  lemma TimesDifference(a: nat, b: nat, c: nat)
    requires b <= a < 2 * b && c > 0
    ensures (a - b) * c == a * c - b * c && (a - b) * c < b * c
  {
  }

  lemma WidenIsDouble(p: Pattern)
    requires IsSingle(p)
    ensures IsDouble(Widen(p))
  {
    if p.exp == 0 && p.frac > 0 {
      SubnormalSignificand(p.frac);
    }
  }

  /**
   * Unpacking keeps the numeric value of every finite pattern, subnormals included. The units of the two formats
   * differ by the power `gap`, a variable so that no proof step computes so large a number.
   */
  lemma WidenExact(p: Pattern, gap: nat)
    requires IsSingle(p) && p.exp < 255 && gap == 1074 - 149
    ensures DoubleUnits(Widen(p)) == SingleUnits(p) * Pow2(gap) && Widen(p).neg == p.neg
  {
    if p.exp > 0 {
      WidenNormal(p, gap);
    } else if p.frac > 0 {
      WidenSubnormal(p, gap);
    } else {
      WidenZero(p);
    }
  }

  lemma WidenZero(p: Pattern)
    requires IsSingle(p) && p.exp == 0 && p.frac == 0
    ensures DoubleUnits(Widen(p)) == SingleUnits(p) == 0
  {
  }

  lemma WidenNormal(p: Pattern, gap: nat)
    requires IsSingle(p) && 0 < p.exp < 255 && gap == 1074 - 149
    ensures DoubleUnits(Widen(p)) == SingleUnits(p) * Pow2(gap)
  {
    var (d, e) := (Widen(p), p.exp - 1);
    calc {
      DoubleUnits(d);
      (TWO52 + p.frac * TWO29) * Pow2(e + 896);
      { NormalUnits(p.frac, e, gap); }
      ((TWO23 + p.frac) * Pow2(e)) * Pow2(gap);
      SingleUnits(p) * Pow2(gap);
    }
  }

  lemma WidenSubnormal(p: Pattern, gap: nat)
    requires IsSingle(p) && p.exp == 0 && p.frac > 0 && gap == 1074 - 149
    ensures DoubleUnits(Widen(p)) == SingleUnits(p) * Pow2(gap)
  {
    var (d, k) := (Widen(p), LeadingBit(p.frac));
    LeadingBitBound(p.frac);
    assert d.exp - 1 == k + 873;
    calc {
      DoubleUnits(d);
      (TWO52 + (p.frac - Pow2(k)) * Pow2(52 - k)) * Pow2(k + 873);
      { SubnormalUnits(p.frac, gap); }
      p.frac * Pow2(gap);
      SingleUnits(p) * Pow2(gap);
    }
  }

  lemma NormalUnits(frac: nat, e: nat, gap: nat)
    requires gap == 1074 - 149
    ensures (TWO52 + frac * TWO29) * Pow2(e + 896) == ((TWO23 + frac) * Pow2(e)) * Pow2(gap)
  {
    Pow2Constants();
    Pow2Add(e, gap);
    Pow2Add(29, e + 896);
    assert 29 + (e + 896) == e + gap;
    Regroup(TWO23 + frac, TWO29, Pow2(e + 896));
    Regroup(TWO23 + frac, Pow2(e), Pow2(gap));
    assert TWO52 + frac * TWO29 == (TWO23 + frac) * TWO29;
  }

  lemma SubnormalUnits(frac: nat, gap: nat)
    requires 0 < frac < TWO23 && gap == 1074 - 149
    ensures var k := LeadingBit(frac);
            k <= 22 && (TWO52 + (frac - Pow2(k)) * Pow2(52 - k)) * Pow2(k + 873) == frac * Pow2(gap)
  {
    var k := LeadingBit(frac);
    SubnormalSignificand(frac);
    Pow2Add(52 - k, k + 873);
    assert (52 - k) + (k + 873) == gap;
    Regroup(frac, Pow2(52 - k), Pow2(k + 873));
  }

  lemma Regroup(a: nat, b: nat, c: nat)
    ensures (a * b) * c == a * (b * c)
  {
  }

  // ---------- narrowing rounds to nearest ----------

  /** The rounded quotient is at least as near as any other integer. */
  lemma RoundNearest(m: nat, s: nat, other: nat)
    ensures var r := RoundHalfEven(m, s) * Pow2(s);
            var o := other * Pow2(s);
            (if r <= m then m - r else r - m) <= (if o <= m then m - o else o - m)
  {
    var (q, r) := ShiftRight(m, s);
    NearestMultiple(m, Pow2(s), q, r, other);
  }

  lemma NearestMultiple(m: nat, u: nat, q: nat, r: nat, other: nat)
    requires m == q * u + r && r < u
    ensures var (n, o) := (Nearest(q, r, u) * u, other * u);
            (if n <= m then m - n else n - m) <= (if o <= m then m - o else o - m)
  {
    assert (q + 1) * u == q * u + u;
    if other <= q {
      ProductAtMost(other, q, u);
    } else {
      ProductAtMost(q + 1, other, u);
    }
  }

  lemma ProductAtMost(a: nat, b: nat, c: nat)
    requires a <= b
    ensures a * c <= b * c
  {
  }

  /** A quotient without remainder is not rounded at all. */
  lemma RoundExact(m: nat, s: nat, q: nat)
    requires m == q * Pow2(s)
    ensures RoundHalfEven(m, s) == q
  {
    ShiftExact(m, s, q);
  }

  lemma ShiftExact(m: nat, s: nat, q: nat)
    requires m == q * Pow2(s)
    ensures ShiftRight(m, s) == (q, 0)
  {
    var shifted := ShiftRight(m, s);
    UniqueQuotient(q, 0, shifted.0, shifted.1, Pow2(s));
  }

  lemma UniqueQuotient(q: nat, r: nat, q': nat, r': nat, u: nat)
    requires q * u + r == q' * u + r' && r < u && r' < u
    ensures q == q' && r == r'
  {
    assert (q - q') * u == r' - r;
    SmallMultiple(q - q', u);
  }

  lemma DivideExact(q: nat, u: nat)
    requires u > 0
    ensures q * u / u == q
  {
    Quotient(q * u, u, q, 0);
  }

  lemma Quotient(m: nat, u: nat, q: nat, r: nat)
    requires u > 0 && m == q * u + r && r < u
    ensures m / u == q && m % u == r
  {
    var (q', r') := (m / u, m % u);
    assert q' * u + r' == m;
    assert (q - q') * u == r' - r;
    SmallMultiple(q - q', u);
  }

  lemma SmallMultiple(d: int, u: int)
    requires -u < d * u < u
    ensures d == 0
  {
    assert (-d) * u == -(d * u);
    if d > 0 {
      ProductAtMost(1, d, u);
    } else if d < 0 {
      ProductAtMost(1, -d, u);
    }
  }

  // ---------- the round trip ----------

  lemma NarrowedWidened(p: Pattern)
    requires IsSingle(p) && p.exp < 255
    ensures NarrowedMagnitude(Widen(p)) == p.exp * TWO23 + p.frac
  {
    var d := Widen(p);
    var m := if p.exp > 0 then TWO23 + p.frac else p.frac;
    DroppedIsZero(p);
    assert Significand(d) == m * Pow2(DroppedBits(d));
    RoundExact(Significand(d), DroppedBits(d), m);
  }

  /** The bits packing drops are the zeros unpacking added. */
  lemma DroppedIsZero(p: Pattern)
    requires IsSingle(p) && p.exp < 255
    ensures Significand(Widen(p)) == (if p.exp > 0 then TWO23 + p.frac else p.frac) * Pow2(DroppedBits(Widen(p)))
    ensures p.exp == 0 <==> Widen(p).exp < 897
  {
    if p.exp > 0 {
      NormalDropped(p);
    } else if p.frac > 0 {
      SubnormalDropped(p);
    }
  }

  lemma NormalDropped(p: Pattern)
    requires IsSingle(p) && 0 < p.exp < 255
    ensures Significand(Widen(p)) == (TWO23 + p.frac) * Pow2(DroppedBits(Widen(p))) && Widen(p).exp >= 897
  {
    Pow2Constants();
    assert DroppedBits(Widen(p)) == 29;
  }

  lemma SubnormalDropped(p: Pattern)
    requires IsSingle(p) && p.exp == 0 && p.frac > 0
    ensures Significand(Widen(p)) == p.frac * Pow2(DroppedBits(Widen(p))) && Widen(p).exp < 897
  {
    SubnormalSignificand(p.frac);
    assert DroppedBits(Widen(p)) == 52 - LeadingBit(p.frac);
  }

  /** Packing undoes unpacking on every pattern except signalling NaNs, which come back quiet. */
  lemma NarrowWidenExact(p: Pattern)
    requires IsSingle(p)
    ensures IsDouble(Widen(p))
    ensures Narrow(Widen(p)) == Some(p) <==> !IsSignalling(p)
    ensures Narrow(Widen(p)).Some? && IsSingle(Narrow(Widen(p)).value) && !IsSignalling(Narrow(Widen(p)).value)
  {
    WidenIsDouble(p);
    if p.exp < 255 {
      NarrowedWidened(p);
      Quotient(p.exp * TWO23 + p.frac, TWO23, p.exp, p.frac);
      assert Widen(p).exp < 2047 by {
        if p.exp == 0 && p.frac > 0 {
          LeadingBitBound(p.frac);
        }
      }
    } else if p.frac > 0 {
      var quiet := if p.frac < 0x40_0000 then p.frac + 0x40_0000 else p.frac;
      DivideExact(quiet, TWO29);
    }
  }

  lemma BitsRoundTrip(bits: nat)
    requires bits < 0x1_0000_0000
    ensures BitsOf(SingleOf(bits)) == bits
  {
  }

  lemma PatternRoundTrip(p: Pattern)
    requires IsSingle(p)
    ensures SingleOf(BitsOf(p)) == p
  {
  }

  // ---------- PARAM_VALUE and PARAM_SET ----------

  const MAV_PARAM_TYPE_INT64 := 8

  /** A Python number: an integer, or a float by its binary64 pattern. */
  datatype PyNumber = Whole(n: int) | Float(d: Pattern)

  /** param_to_mav_msg_conv and the send of a PARAM_VALUE: an unsigned word sent as the float with that pattern. */
  function ToMessage(typ: int, value: nat): PyNumber
    requires value < 0x1_0000_0000
  {
    if MAV_PARAM_TYPE_INT64 >= typ then Float(Widen(SingleOf(value))) else Whole(value)
  }

  /** struct.pack('f', x) as a word; None is an exception. */
  function PackedFloat(d: Pattern): (w: Option<nat>)
    requires IsDouble(d)
    ensures w.Some? ==> w.value < 0x1_0000_0000
  {
    match Narrow(d)
    case Some(p) => Some(BitsOf(p))
    case None => None
  }

  /** mav_param_type_conv: the word whose pattern the float has, for the integer types. */
  function FromMessage(typ: int, x: PyNumber): Option<PyNumber>
    requires x.Float? ==> IsDouble(x.d)
  {
    if MAV_PARAM_TYPE_INT64 >= typ && x.Float? then
      match PackedFloat(x.d)
      case Some(w) => Some(Whole(w))
      case None => None
    else Some(x)
  }

  /** The message field is a binary32, so the float is packed on one side and unpacked on the other. */
  function OverTheWire(d: Pattern): Option<Pattern>
    requires IsDouble(d)
  {
    match PackedFloat(d)
    case Some(w) => Some(Widen(SingleOf(w)))
    case None => None
  }

  /** For the integer types conversion back undoes conversion out exactly when the word is no signalling NaN pattern. */
  lemma ConversionRoundTrip(typ: int, value: nat)
    requires value < 0x1_0000_0000
    ensures ToMessage(typ, value).Float? ==> IsDouble(ToMessage(typ, value).d)
    ensures FromMessage(typ, ToMessage(typ, value)) == Some(Whole(value))
            <==> typ > MAV_PARAM_TYPE_INT64 || !IsSignalling(SingleOf(value))
  {
    var p := SingleOf(value);
    NarrowWidenExact(p);
    BitsRoundTrip(value);
    PatternRoundTrip(Narrow(Widen(p)).value);
  }

  /** The same with the message in between: what one side announces is what the other side reads. */
  lemma WireRoundTrip(typ: int, value: nat)
    requires value < 0x1_0000_0000 && typ <= MAV_PARAM_TYPE_INT64
    requires !IsNaN(SingleOf(value))
    ensures IsDouble(Widen(SingleOf(value)))
    ensures OverTheWire(Widen(SingleOf(value))) == Some(Widen(SingleOf(value)))
    ensures FromMessage(typ, Float(Widen(SingleOf(value)))) == Some(Whole(value))
  {
    NarrowWidenExact(SingleOf(value));
    BitsRoundTrip(value);
    ConversionRoundTrip(typ, value);
  }

  // ---------- int() of a received float ----------

  function TowardZero(neg: bool, size: nat, unit: nat): int
    requires unit > 0
  {
    if neg then -(size / unit) else size / unit
  }

  /** int(x) of a finite float truncates toward zero; infinities and NaNs raise. */
  function Truncated(p: Pattern): Option<int>
    requires IsSingle(p)
  {
    if p.exp == 255 then None else Some(TowardZero(p.neg, SingleUnits(p), Pow2(149)))
  }

  /** The next whole number toward zero: of the given sign, no larger than the float, and one more would be larger. */
  predicate NextTowardZero(neg: bool, size: nat, unit: nat, v: int) {
    var whole := if neg then -v else v;
    0 <= whole && whole * unit <= size < (whole + 1) * unit
  }

  lemma TowardZeroExact(neg: bool, size: nat, unit: nat)
    requires unit > 0
    ensures NextTowardZero(neg, size, unit, TowardZero(neg, size, unit))
  {
    var whole := size / unit;
    assert size == whole * unit + size % unit;
    assert (whole + 1) * unit == whole * unit + unit;
  }

  lemma TruncatedExact(p: Pattern)
    requires IsSingle(p)
    ensures Truncated(p) == None <==> p.exp == 255
    ensures p.exp != 255 ==> NextTowardZero(p.neg, SingleUnits(p), Pow2(149), Truncated(p).value)
  {
    if p.exp != 255 {
      TowardZeroExact(p.neg, SingleUnits(p), Pow2(149));
    }
  }

  /** What a PARAM_SET writes: the bit pattern for the integer types, the truncated float otherwise. */
  function ReceivedValue(typ: int, bits: nat): Option<int>
    requires bits < 0x1_0000_0000
  {
    var p := SingleOf(bits);
    if MAV_PARAM_TYPE_INT64 >= typ then
      WidenIsDouble(p);
      match PackedFloat(Widen(p))
      case Some(w) => Some(w)
      case None => None
    else Truncated(p)
  }

  /** A PARAM_SET of an integer type writes its own word; only float types can carry a value int() refuses. */
  lemma ReceivedExact(typ: int, bits: nat)
    requires bits < 0x1_0000_0000
    ensures typ <= MAV_PARAM_TYPE_INT64 && !IsSignalling(SingleOf(bits)) ==> ReceivedValue(typ, bits) == Some(bits)
    ensures ReceivedValue(typ, bits) == None <==> typ > MAV_PARAM_TYPE_INT64 && SingleOf(bits).exp == 255
  {
    NarrowWidenExact(SingleOf(bits));
    BitsRoundTrip(bits);
  }
}
