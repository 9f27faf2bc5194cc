// The mean of the activation durations: a quotient of two 64-bit integers, rounded once
// to a double although no step of the computation is exact in 53 bits.

module Rounding {
  import opened VirtualTime
  import opened Arithmetic

  const TWO52: int := 0x10_0000_0000_0000
  const TWO53: int := 0x20_0000_0000_0000
  const TWO54: int := 0x40_0000_0000_0000
  const TWO128: int := 0x1_0000_0000_0000_0000_0000_0000_0000_0000

  /** a * 2^n. */
  function Shl(a: int, n: nat): int {
    if n == 0 then a else 2 * Shl(a, n - 1)
  }

  // ----- What correct rounding means -----------------------------------------------------------

  /** significand * 2^exponent. */
  datatype Double = Double(significand: int, exponent: int)

  /** The finite binary64 numbers of IEEE 754: 53-bit significands, with every exponent
      from that of the subnormals up. */
  predicate Finite(x: Double) {
    -TWO53 < x.significand < TWO53 && -1074 <= x.exponent <= 971
  }

  /** A finite double in units of 2^-1074, the spacing of the subnormals. */
  function Units(x: Double): int
    requires x.exponent >= -1074
  {
    Shl(x.significand, x.exponent + 1074)
  }

  /** The distance of n / d from a double, in the same units and times d. */
  function Distance(n: nat, d: nat, x: Double): nat
    requires x.exponent >= -1074
  {
    Abs(Shl(n, 1074) - d * Units(x))
  }

  function Abs(a: int): nat {
    if a < 0 then -a else a
  }

  /** Section 4.3.1 of IEEE 754, roundTiesToEven: no finite double is nearer to n / d,
      and if another is as near, the significand of `x` is even. */
  ghost predicate RoundsTo(n: nat, d: nat, x: Double) {
    && Finite(x)
    && forall y :: Finite(y) ==>
         && Distance(n, d, x) <= Distance(n, d, y)
         && (Distance(n, d, x) == Distance(n, d, y) && Units(x) != Units(y) ==> x.significand % 2 == 0)
  }

  // ----- The source --------------------------------------------------------------------------

  /** Bits an integer has beyond 53. */
  function Excess(q: nat): nat {
    if q < TWO53 then 0 else 1 + Excess(q / 2)
  }

  /** The integer shifted right by k bits, and the bits shifted out. */
  function High(q: nat, k: nat): nat
    decreases k
  {
    if k == 0 then q else High(q / 2, k - 1)
  }

  function Low(q: nat, k: nat): nat
    decreases k
  {
    if k == 0 then 0 else q % 2 + 2 * Low(q / 2, k - 1)
  }

  predicate RoundsUp(q: nat, k: nat) {
    2 * Low(q, k) > Shl(1, k) || (2 * Low(q, k) == Shl(1, k) && High(q, k) % 2 == 1)
  }

  /** The conversion of an integer to double: round to nearest, ties to even. */
  function ToDouble(q: nat): Double {
    var k := Excess(q);
    Normalized(High(q, k) + if RoundsUp(q, k) then 1 else 0, k)
  }

  function Normalized(m: nat, k: nat): Double {
    if m == TWO53 then Double(TWO52, k + 1) else Double(m, k)
  }

  /** Bitwise or with one. */
  function OrOne(q: nat): nat {
    if q % 2 == 0 then q + 1 else q
  }

  /** `correctly_rounded_quotient`: for all 64-bit operands no 128-bit operation
      overflows, and the answer is the exact quotient rounded once. */
  method CorrectlyRoundedQuotient(numerator: u64, denominator: u64) returns (x: Double)
    requires denominator > 0
    ensures RoundsTo(numerator, denominator, x)
  {
    hide RoundsTo, Shl, ToDouble;
    if numerator == 0 {
      ZeroIsExact(denominator);
      return Double(0, 0);
    }
    var atLeast: nat := denominator * TWO54;
    assert atLeast < TWO128;
    var scaled: nat, shift := numerator, 0;
    ShlZero(numerator);
    while scaled < atLeast
      invariant scaled == Shl(numerator, shift)
      invariant shift <= 128
      invariant 1 <= scaled < TWO128
      decreases atLeast - scaled
    {
      assert 2 * scaled < TWO128;
      ShiftIsSmall(numerator, shift);
      ShlNext(numerator, shift);
      scaled, shift := 2 * scaled, shift + 1;
    }
    var quotient := scaled / denominator;
    if scaled % denominator != 0 { quotient := OrOne(quotient); }
    var rounded := ToDouble(quotient);
    x := Double(rounded.significand, rounded.exponent - shift);
    QuotientIsRounded(numerator, denominator, shift);
  }

  // ----- Shifts ----------------------------------------------------------------------------------

  lemma ShlZero(a: int)
    ensures Shl(a, 0) == a
  {
  }

  lemma ShlNext(a: int, n: nat)
    ensures Shl(a, n + 1) == 2 * Shl(a, n)
  {
  }

  lemma {:induction false} ShlAdds(a: int, b: int, n: nat)
    ensures Shl(a + b, n) == Shl(a, n) + Shl(b, n)
    decreases n
  {
    if n == 0 {
    } else {
      ShlAdds(a, b, n - 1);
    }
  }

  lemma {:induction false} ShlShl(a: int, m: nat, n: nat)
    ensures Shl(Shl(a, m), n) == Shl(a, m + n)
    decreases n
  {
    if n == 0 {
    } else {
      ShlShl(a, m, n - 1);
    }
  }

  lemma {:induction false} ShlMonotone(a: int, b: int, n: nat)
    requires a <= b
    ensures Shl(a, n) <= Shl(b, n)
    ensures a < b ==> Shl(a, n) < Shl(b, n)
    decreases n
  {
    if n == 0 {
    } else {
      ShlMonotone(a, b, n - 1);
    }
  }

  lemma {:induction false} ShlGrows(a: nat, m: nat, n: nat)
    requires m <= n
    ensures 0 <= Shl(a, m) <= Shl(a, n)
    decreases n
  {
    if m < n {
      ShlGrows(a, m, n - 1);
    } else if m > 0 {
      ShlGrows(a, m - 1, n - 1);
    }
  }

  lemma {:induction false} ShlTimes(d: int, a: int, n: nat)
    ensures Shl(d * a, n) == d * Shl(a, n)
    decreases n
  {
    if n == 0 {
    } else {
      ShlTimes(d, a, n - 1);
      DoubleTimes(d, Shl(a, n - 1));
    }
  }

  lemma DoubleTimes(d: int, a: int)
    ensures d * (2 * a) == 2 * (d * a)
  {
  }

  lemma LargeShifts(a: int)
    ensures Shl(a, 80) == 0x1_0000_0000_0000_0000_0000 * a
    ensures Shl(a, 128) == TWO128 * a
  {
    Shl16(a);
    Shl16(Shl(a, 16));
    ShlShl(a, 16, 16);
    Shl16(Shl(a, 32));
    ShlShl(a, 32, 16);
    Shl16(Shl(a, 48));
    ShlShl(a, 48, 16);
    Shl16(Shl(a, 64));
    ShlShl(a, 64, 16);
    Shl16(Shl(a, 80));
    ShlShl(a, 80, 16);
    Shl16(Shl(a, 96));
    ShlShl(a, 96, 16);
    Shl16(Shl(a, 112));
    ShlShl(a, 112, 16);
  }

  lemma Shl16(a: int)
    ensures Shl(a, 16) == 65536 * a
  {
    assert Shl(a, 1) == 2 * a;
    assert Shl(a, 3) == 8 * a;
    assert Shl(a, 5) == 32 * a;
    assert Shl(a, 7) == 128 * a;
    assert Shl(a, 9) == 512 * a;
    assert Shl(a, 11) == 2048 * a;
    assert Shl(a, 13) == 8192 * a;
    assert Shl(a, 15) == 32768 * a;
  }

  lemma ShiftIsSmall(n: nat, shift: nat)
    requires n >= 1 && Shl(n, shift) < TWO128
    ensures shift < 128
  {
    if shift >= 128 {
      LargeShifts(1);
      ShlGrows(1, 128, shift);
      ShlMonotone(1, n, shift);
    }
  }

  // ----- The integer quotient and its sticky bit -------------------------------------------------

  lemma {:induction false} HighAndLow(q: nat, k: nat)
    ensures q == Shl(High(q, k), k) + Low(q, k)
    ensures 0 <= Low(q, k) < Shl(1, k)
    decreases k
  {
    if k == 0 {
    } else {
      HighAndLow(q / 2, k - 1);
    }
  }

  lemma {:induction false} HighIsNormal(q: nat)
    requires q >= TWO53
    ensures TWO52 <= High(q, Excess(q)) < TWO53
  {
    if q / 2 >= TWO53 {
      HighIsNormal(q / 2);
    } else {
      assert Excess(q) == 1 && High(q, 1) == High(q / 2, 0) == q / 2;
    }
  }

  lemma {:induction false} ExcessBound(q: nat, n: nat)
    requires q < Shl(TWO53, n)
    ensures Excess(q) <= n
    decreases n
  {
    if n == 0 || q < TWO53 {
    } else {
      ExcessBound(q / 2, n - 1);
    }
  }

  /** Or-ing one into an integer keeps its high bits, and the side of the half unit its
      low bits are on. */
  lemma StickyKeepsSide(q: nat, k: nat)
    requires k >= 2
    ensures High(OrOne(q), k) == High(q, k)
    ensures 2 * Low(q, k) < Shl(1, k) ==> 2 * Low(OrOne(q), k) < Shl(1, k)
    ensures 2 * Low(q, k) >= Shl(1, k) ==> 2 * Low(OrOne(q), k) > Shl(1, k)
  {
    assert OrOne(q) / 2 == q / 2 && OrOne(q) % 2 == 1;
    LowStep(q, k);
    LowStep(OrOne(q), k);
    var half := Shl(1, k - 2);
    assert Shl(1, k) == 2 * Shl(1, k - 1) == 4 * half;
  }

  lemma LowStep(q: nat, k: nat)
    requires k > 0
    ensures Low(q, k) == q % 2 + 2 * Low(q / 2, k - 1)
    ensures High(q, k) == High(q / 2, k - 1)
  {
  }

  function Sticky(s: nat, d: nat): nat
    requires d > 0
  {
    if s % d != 0 then OrOne(s / d) else s / d
  }

  /** Where s / d lies: in the unit that starts at `base`, on the side of its middle that
      the low bits of the sticky quotient are on. */
  predicate Located(s: nat, d: nat, base: nat, low: nat, unit: nat) {
    && d * base <= s < d * base + d * unit
    && (2 * low < unit <==> 2 * (s - d * base) < d * unit)
    && (2 * low > unit <==> 2 * (s - d * base) > d * unit)
  }

  lemma StickyIsLocated(s: nat, d: nat, k: nat)
    requires d > 0 && k >= 2
    ensures var q := Sticky(s, d);
      && Shl(High(q, k), k) >= 0
      && Low(q, k) >= 0
      && Shl(1, k) >= 0
      && Located(s, d, Shl(High(q, k), k), Low(q, k), Shl(1, k))
  {
    hide *;
    var q, r := s / d, s % d;
    var sticky := Sticky(s, d);
    StickyCases(s, d);
    QuotientAndRest(s, d);
    HighAndLow(q, k);
    HighAndLow(sticky, k);
    StickyKeepsSide(q, k);
    ShlGrows(High(q, k), 0, k);
    ShlNext(1, k - 1);
    LocatedInUnit(s, d, r, Shl(High(q, k), k), Low(q, k), Shl(1, k - 1), Low(sticky, k));
  }

  lemma StickyCases(s: nat, d: nat)
    requires d > 0
    ensures Sticky(s, d) == if s % d == 0 then s / d else OrOne(s / d)
  {
  }

  lemma QuotientAndRest(s: nat, d: nat)
    requires d > 0
    ensures s == d * (s / d) + s % d && 0 <= s % d < d
  {
  }

  lemma LocatedInUnit(s: nat, d: nat, r: nat, base: nat, low: nat, half: nat, sticky: nat)
    requires r < d && low < 2 * half && s == d * (base + low) + r
    requires r == 0 ==> sticky == low
    requires r != 0 ==> if low < half then sticky < half else sticky > half
    ensures Located(s, d, base, sticky, 2 * half)
  {
    assert d * (base + low) == d * base + d * low;
    assert d * (2 * half) == 2 * (d * half);
    Products(d, low, half);
    Products(d, low, 2 * half);
    hide Located;
    LocatedByProducts(s, d, r, base, low, half, sticky);
  }

  /** Comparing d * a + r with d * b, for r < d, compares a with b. */
  lemma Products(d: nat, a: nat, b: nat)
    requires d > 0
    ensures a < b ==> d * a + d <= d * b
    ensures a == b ==> d * a == d * b
    ensures a > b ==> d * a >= d * b + d
  {
    if a < b {
      MulMonotone(a + 1, b, d);
    } else {
      MulMonotone(b + 1, if a > b then a else b + 1, d);
    }
  }

  lemma LocatedByProducts(s: nat, d: nat, r: nat, base: nat, low: nat, half: nat, sticky: nat)
    requires s == d * base + d * low + r && r < d && low < 2 * half
    requires d * (2 * half) == 2 * (d * half)
    requires low < half ==> d * low + d <= d * half
    requires low == half ==> d * low == d * half
    requires low > half ==> d * low >= d * half + d
    requires d * low + d <= d * (2 * half)
    requires r == 0 ==> sticky == low
    requires r != 0 ==> if low < half then sticky < half else sticky > half
    ensures Located(s, d, base, sticky, 2 * half)
  {
  }

  // ----- No double in between ------------------------------------------------------------------------

  /** Between adjacent multiples of a unit above 2^52 of them there is no double. */
  lemma NoneBetween(y: Double, m: nat, e: nat)
    requires -TWO53 < y.significand < TWO53 && y.exponent >= -1074
    requires TWO52 <= m
    ensures Units(y) <= Shl(m, e) || Units(y) >= Shl(m + 1, e)
  {
    var i := y.exponent + 1074;
    if i >= e {
      var j := Shl(y.significand, i - e);
      ShlShl(y.significand, i - e, e);
      if j <= m {
        ShlMonotone(j, m, e);
      } else {
        ShlMonotone(m + 1, j, e);
      }
    } else {
      ShlMonotone(y.significand, TWO53, i);
      ShlGrows(TWO53, i, e - 1);
      ShlDoubles(TWO52, e - 1);
      ShlMonotone(TWO52, m, e);
    }
  }

  lemma ShlDoubles(a: int, n: nat)
    ensures Shl(2 * a, n) == Shl(a, n + 1)
  {
    ShlShl(a, 1, n);
    assert Shl(a, 1) == 2 * a;
  }

  /** The rounded integer, shifted back, in units of 2^-1074. */
  lemma RoundedUnits(q: nat, shift: nat)
    requires q >= TWO53 && shift <= 1074
    ensures var k := Excess(q);
      var x := ToDouble(q);
      var m := High(q, k) + if RoundsUp(q, k) then 1 else 0;
      && Shl(x.significand, x.exponent - shift + 1074) == Shl(m, k + 1074 - shift)
      && (x.significand == m || x.significand % 2 == 0)
  {
    HighIsNormal(q);
    ShlDoubles(TWO52, Excess(q) + 1074 - shift);
    hide Shl, High, Low, Excess;
  }

  /** A shift moves a quotient and its unit together. */
  lemma LocatedShifts(s: nat, d: nat, base: nat, low: nat, unit: nat, t: nat)
    requires Located(s, d, base, low, unit)
    ensures var w, b, u := Shl(s, t), d * Shl(base, t), d * Shl(unit, t);
      && b <= w < b + u
      && (2 * low < unit <==> 2 * (w - b) < u)
      && (2 * low > unit <==> 2 * (w - b) > u)
  {
    ShlTimes(d, base, t);
    ShlTimes(d, unit, t);
    ShiftTogether(s, d * base, d * unit, t);
  }

  lemma {:induction false} ShiftTogether(s: int, b: int, u: int, t: nat)
    requires b <= s < b + u
    ensures Shl(b, t) <= Shl(s, t) < Shl(b, t) + Shl(u, t)
    ensures 2 * (s - b) < u <==> 2 * (Shl(s, t) - Shl(b, t)) < Shl(u, t)
    ensures 2 * (s - b) > u <==> 2 * (Shl(s, t) - Shl(b, t)) > Shl(u, t)
    decreases t
  {
    if t == 0 {
    } else {
      ShiftTogether(s, b, u, t - 1);
    }
  }

  /** The nearer end of an interval beats everything outside it; only its middle ties. */
  lemma Nearer(w: int, b: int, u: int, y: int, up: bool)
    requires b <= w < b + u
    requires y <= b || y >= b + u
    requires if up then 2 * (w - b) >= u else 2 * (w - b) <= u
    ensures var x := if up then b + u else b;
      && Abs(w - x) <= Abs(w - y)
      && (Abs(w - x) == Abs(w - y) && x != y ==> 2 * (w - b) == u)
  {
  }

  lemma TimesCompare(d: nat, a: int, b: int)
    requires d > 0
    ensures a <= b ==> d * a <= d * b
    ensures a != b ==> d * a != d * b
  {
    var c := b - a;
    assert d * b == d * a + d * c;
    assert c >= 0 ==> d * c >= 0;
    assert c != 0 ==> d * c != 0;
  }

  // ----- The quotient is rounded once -------------------------------------------------------------------

  lemma NoNearer(n: nat, d: nat, shift: nat, q: nat, x: Double, y: Double)
    requires d > 0 && shift <= 1074 && Shl(n, shift) >= 0
    requires q == Sticky(Shl(n, shift), d) && q >= TWO54
    requires x == Double(ToDouble(q).significand, ToDouble(q).exponent - shift)
    requires Finite(x) && Finite(y)
    ensures Distance(n, d, x) <= Distance(n, d, y)
    ensures Distance(n, d, x) == Distance(n, d, y) && Units(x) != Units(y) ==> x.significand % 2 == 0
  {
    hide Shl, High, Low, Excess, Sticky, ToDouble, Units, RoundsUp, Abs;
    var k := Excess(q);
    var e, m, up := k + 1074 - shift, High(q, k), RoundsUp(q, k);
    UnitHolds(n, d, shift, q);
    RoundedFrom(q, shift, x, y);
    NearerMultiple(d, Shl(n, 1074), Shl(m, e), Shl(1, e), Units(y), Units(x), up);
  }

  lemma RoundedFrom(q: nat, shift: nat, x: Double, y: Double)
    requires shift <= 1074 && q >= TWO53
    requires x == Double(ToDouble(q).significand, ToDouble(q).exponent - shift)
    requires Finite(x) && Finite(y)
    ensures var k := Excess(q);
      var e, m, up := k + 1074 - shift, High(q, k), RoundsUp(q, k);
      && Units(x) == (if up then Shl(m, e) + Shl(1, e) else Shl(m, e))
      && (x.significand == (m + if up then 1 else 0) || x.significand % 2 == 0)
      && (Units(y) <= Shl(m, e) || Units(y) >= Shl(m, e) + Shl(1, e))
  {
    var k := Excess(q);
    RoundedUnits(q, shift);
    HighIsNormal(q);
    NoneBetween(y, High(q, k), k + 1074 - shift);
    ShlAdds(High(q, k), 1, k + 1074 - shift);
    hide Shl, High, Low, Excess, ToDouble, RoundsUp;
  }

  /** The quotient lies in the unit its rounding starts from, and rounding up is right. */
  lemma UnitHolds(n: nat, d: nat, shift: nat, q: nat)
    requires d > 0 && shift <= 1074 && Shl(n, shift) >= 0
    requires q == Sticky(Shl(n, shift), d) && q >= TWO54
    ensures var k := Excess(q);
      var e := k + 1074 - shift;
      var w, b, u := Shl(n, 1074), d * Shl(High(q, k), e), d * Shl(1, e);
      && b <= w < b + u
      && (if RoundsUp(q, k) then 2 * (w - b) >= u else 2 * (w - b) <= u)
      && (2 * (w - b) == u ==> (RoundsUp(q, k) <==> High(q, k) % 2 == 1))
  {
    var s, t, k := Shl(n, shift), 1074 - shift, Excess(q);
    assert k >= 2;
    var m, low := High(q, k), Low(q, k);
    StickyIsLocated(s, d, k);
    LocatedShifts(s, d, Shl(m, k), low, Shl(1, k), t);
    ShlShl(n, shift, t);
    ShlShl(m, k, t);
    ShlShl(1, k, t);
    hide Shl, High, Low, Excess, Sticky, Located;
  }

  lemma NearerMultiple(d: nat, w: int, b: int, u: int, y: int, x: int, up: bool)
    requires d > 0 && d * b <= w < d * b + d * u
    requires x == if up then b + u else b
    requires y <= b || y >= b + u
    requires if up then 2 * (w - d * b) >= d * u else 2 * (w - d * b) <= d * u
    ensures Abs(w - d * x) <= Abs(w - d * y)
    ensures Abs(w - d * x) == Abs(w - d * y) && x != y ==> 2 * (w - d * b) == d * u
  {
    TimesCompare(d, y, b);
    TimesCompare(d, b + u, y);
    TimesCompare(d, y, x);
    var dx, dy, db, du := d * x, d * y, d * b, d * u;
    assert d * (b + u) == db + du;
    hide Abs;
    Nearer(w, db, du, dy, up);
  }

  lemma QuotientIsLarge(s: nat, d: nat)
    requires d > 0 && d * TWO54 <= s < TWO128
    ensures TWO54 <= Sticky(s, d) <= TWO128
  {
    QuotientAndRest(s, d);
    Products(d, s / d, TWO54);
    MulMonotone(1, d, s / d);
  }

  lemma QuotientIsFinite(q: nat, shift: nat)
    requires TWO53 <= q <= TWO128 && shift <= 128
    ensures Finite(Double(ToDouble(q).significand, ToDouble(q).exponent - shift))
  {
    HighIsNormal(q);
    LargeShifts(TWO53);
    ExcessBound(q, 80);
    hide Shl, High, Low, Excess;
  }

  lemma QuotientIsRounded(n: nat, d: nat, shift: nat)
    requires d > 0 && shift <= 128
    requires d * TWO54 <= Shl(n, shift) < TWO128
    ensures var q := ToDouble(Sticky(Shl(n, shift), d));
      RoundsTo(n, d, Double(q.significand, q.exponent - shift))
  {
    var s := Shl(n, shift);
    var q := Sticky(s, d);
    QuotientIsLarge(s, d);
    QuotientIsFinite(q, shift);
    var x := Double(ToDouble(q).significand, ToDouble(q).exponent - shift);
    hide Shl, Sticky, ToDouble, Distance, Units, Finite;
    forall y | Finite(y)
      ensures Distance(n, d, x) <= Distance(n, d, y)
      ensures Distance(n, d, x) == Distance(n, d, y) && Units(x) != Units(y) ==> x.significand % 2 == 0
    {
      NoNearer(n, d, shift, q, x, y);
    }
  }

  lemma ZeroIsExact(d: nat)
    ensures RoundsTo(0, d, Double(0, 0))
  {
    ShlOfZero(1074);
  }

  lemma {:induction false} ShlOfZero(n: nat)
    ensures Shl(0, n) == 0
  {
    if n == 0 {
    } else {
      ShlOfZero(n - 1);
    }
  }
}
