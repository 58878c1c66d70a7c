/** The software half-precision arithmetic of src/half.hpp, rounding to nearest. */
module HalfArithmetic {
  import opened HalfSpec

  const SIGN: nat := 0x8000

  function Bit(b: bool): nat { if b then 1 else 0 }

  /** `m >> k` */
  function Shr(m: nat, k: nat): nat
    decreases k
  {
    if k == 0 then m else Shr(m / 2, k - 1)
  }

  /** `m & ((1 << k) - 1)` */
  function Low(m: nat, k: nat): nat
    decreases k
  {
    if k == 0 then 0 else m % 2 + 2 * Low(m / 2, k - 1)
  }

  lemma {:induction false} ShrAdd(m: nat, a: nat, b: nat)
    ensures Shr(Shr(m, a), b) == Shr(m, a + b)
    decreases a
  {
    if a > 0 { ShrAdd(m / 2, a - 1, b); }
  }

  /** src/half.hpp:820-839: one up if the guard bit is set and the sticky bit or the last bit is. */
  function Rounded(value: nat, g: nat, s: nat): nat {
    if g == 1 && (s == 1 || value % 2 == 1) then value + 1 else value
  }

  /** src/half.hpp:884-897 for an unsigned mantissa in Q1.F that is already normalised. */
  function Fixed2Half(F: nat, m: nat, exp: int, sign: nat, s: nat): nat
    requires 11 <= F <= 31 && F - 10 - exp <= 31
  {
    if exp < 0 then
      Rounded(sign + Shr(m, F - 10 - exp), Shr(m, F - 11 - exp) % 2, Bit(s == 1 || Low(m, F - 11 - exp) != 0))
    else
      Rounded(sign + exp * 1024 + Shr(m, F - 10), Shr(m, F - 11) % 2, Bit(s == 1 || Low(m, F - 11) != 0))
  }

  /** Dropping bits leaves the floor, and is exact when all the bits dropped are zero. */
  lemma {:induction false} DropBits(m: nat, eps: real, k: nat, z: real)
    requires 0.0 <= eps < 1.0 && Ldexp(z, k) == m as real + eps
    ensures Shr(m, k) as real <= z < (Shr(m, k) + 1) as real
    ensures z == Shr(m, k) as real <==> Low(m, k) == 0 && eps == 0.0
    decreases k
  {
    if k > 0 {
      var rest := ((m % 2) as real + eps) / 2.0;
      assert m as real == 2.0 * (m / 2) as real + (m % 2) as real;
      DropBits(m / 2, rest, k - 1, z);
    }
  }

  /** Guard and sticky bit say where the exact value `z`, in units of the last kept place, lies. */
  lemma GuardAndSticky(z: real, m: nat, eps: real, k: nat)
    requires 0.0 <= eps < 1.0 && Ldexp(z, k + 1) == m as real + eps
    ensures var q, g := Shr(m, k + 1), Shr(m, k) % 2;
      && q as real <= z < (q + 1) as real
      && (2.0 * z < (2 * q + 1) as real <==> g == 0)
      && (2.0 * z == (2 * q + 1) as real <==> g == 1 && Low(m, k) == 0 && eps == 0.0)
  {
    LdexpLinear(z, z, k);
    DropBits(m, eps, k, z + z);
    ShrAdd(m, k, 1);
    assert Shr(Shr(m, k), 1) == Shr(m, k) / 2;
  }

  /** The rounding step: mantissa `m` with `k + 1` bits to drop, at exponent `e` once they are gone. */
  lemma RoundedNearest(y: real, e: nat, m: nat, eps: real, k: nat, s: nat)
    requires 0.0 <= eps < 1.0 && (s == 1 <==> eps != 0.0) && y == Ldexp(m as real + eps, e - (k + 1))
    requires var q := Shr(m, k + 1); (1024 <= q < 2048 || (e == 0 && q < 1024)) && e * 1024 + q < INF
    ensures IsNearest(y, Rounded(e * 1024 + Shr(m, k + 1), Shr(m, k) % 2, Bit(s == 1 || Low(m, k) != 0)))
  {
    var q, g, h := Shr(m, k + 1), Shr(m, k) % 2, e * 1024 + Shr(m, k + 1);
    var z := Ldexp(m as real + eps, 0 - (k + 1));
    LdexpAdd(m as real + eps, 0 - (k + 1), k + 1);
    LdexpAdd(m as real + eps, 0 - (k + 1), e);
    GuardAndSticky(z, m, eps, k);
    ValueAt(e, q);
    ValueAt(e, q + 1);
    Position(z, q, e);
    RoundFromPosition(y, h, g, Bit(s == 1 || Low(m, k) != 0));
  }

  lemma Position(z: real, q: nat, e: nat)
    ensures var y, v, w := Ldexp(z, e), Scale(q, e) as real, Scale(q + 1, e) as real;
      && (z < q as real <==> y < v) && (z < (q + 1) as real <==> y < w)
      && (2.0 * z < (2 * q + 1) as real <==> 2.0 * y < v + w)
      && (2.0 * z == (2 * q + 1) as real <==> 2.0 * y == v + w)
  {
    ScaleReal(q, e);
    ScaleReal(q + 1, e);
    LdexpOrder(z, q as real, e);
    LdexpOrder(z, (q + 1) as real, e);
    LdexpLinear(z, z, e);
    LdexpLinear(q as real, (q + 1) as real, e);
    LdexpOrder(z + z, q as real + (q + 1) as real, e);
  }

  lemma RoundFromPosition(y: real, h: nat, g: nat, sticky: nat)
    requires h < INF && g <= 1 && sticky <= 1 && Value(h) as real <= y < Value(h + 1) as real
    requires 2.0 * y < (Value(h) + Value(h + 1)) as real <==> g == 0
    requires 2.0 * y == (Value(h) + Value(h + 1)) as real <==> g == 1 && sticky == 0
    ensures IsNearest(y, Rounded(h, g, sticky))
  {
    NearestOfTwo(y, h, Rounded(h, g, sticky));
  }

  /** A mantissa with `F` fractional bits, cut to eleven bits. */
  lemma TopBits(m: nat, F: nat)
    requires F >= 10 && Shr(m, F) == 1
    ensures 1024 <= Shr(m, F - 10) < 2048
  {
    var q := Shr(m, F - 10);
    ShrAdd(m, F - 10, 10);
    assert Shr(q, 10) == q / 1024;
  }

  lemma {:induction false} ShrShrinks(m: nat, k: nat)
    ensures Shr(m, k) <= m
    decreases k
  {
    if k > 0 { ShrShrinks(m / 2, k - 1); }
  }

  /** The main result on rounding: for every format with at least eleven fractional bits, `Fixed2Half` returns
      the correctly rounded half of m * 2^(exp - 14 - F), the sticky bit standing for anything below. */
  lemma Fixed2HalfNearest(F: nat, m: nat, exp: int, sign: nat, s: nat, eps: real, y: real)
    requires 11 <= F <= 31 && F - 10 - exp <= 31 && exp <= 29 && Shr(m, F) == 1
    requires 0.0 <= eps < 1.0 && s <= 1 && (s == 1 <==> eps != 0.0)
    requires y == Ldexp(m as real + eps, exp + 10 - F)
    requires sign == 0 || sign == SIGN
    ensures var h := Fixed2Half(F, m, exp, sign, s); h >= sign && IsNearest(y, h - sign)
  {
    var e: nat := if exp < 0 then 0 else exp;
    var k: nat := F - 11 - exp + e;
    BothBranches(F, m, exp, sign, s, e, k);
    KeptBits(F, m, exp, e, k + 1);
    RoundedNearest(y, e, m, eps, k, s);
  }

  /** The two branches of `Fixed2Half` are one formula. */
  lemma BothBranches(F: nat, m: nat, exp: int, sign: nat, s: nat, e: nat, k: nat)
    requires 11 <= F <= 31 && F - 10 - exp <= 31 && (sign == 0 || sign == SIGN)
    requires e == (if exp < 0 then 0 else exp) && k == F - 11 - exp + e
    ensures Fixed2Half(F, m, exp, sign, s) ==
      sign + Rounded(e * 1024 + Shr(m, k + 1), Shr(m, k) % 2, Bit(s == 1 || Low(m, k) != 0))
  {
    SignApart(e * 1024 + Shr(m, k + 1), sign, Shr(m, k) % 2, Bit(s == 1 || Low(m, k) != 0));
  }

  lemma KeptBits(F: nat, m: nat, exp: int, e: nat, k: nat)
    requires F >= 11 && exp <= 29 && Shr(m, F) == 1 && e == (if exp < 0 then 0 else exp) && k == F - 10 - exp + e
    ensures var q := Shr(m, k); (1024 <= q < 2048 || (e == 0 && q < 1024)) && e * 1024 + q < INF
  {
    TopBits(m, F);
    if exp < 0 {
      ShrAdd(m, F - 10, 0 - exp);
      ShrShrinks(Shr(m, F - 10) / 2, 0 - exp - 1);
    }
  }

  lemma SignApart(value: nat, sign: nat, g: nat, s: nat)
    requires sign == 0 || sign == SIGN
    ensures Rounded(sign + value, g, s) == sign + Rounded(value, g, s)
  {
  }

  /** The overflow and underflow tests in front of it (src/half.hpp:2634-2638, 2669-2675). */
  function Packed(F: nat, m: nat, exp: int, sign: nat, s: nat): nat
    requires 11 <= F <= 30
  {
    if exp > 29 then sign + INF else if exp < -11 then sign else Fixed2Half(F, m, exp, sign, s)
  }

  lemma PackedNearest(F: nat, m: nat, exp: int, sign: nat, s: nat, eps: real, y: real)
    requires 11 <= F <= 30 && Scale(1, F) <= m < Scale(1, F + 1)
    requires 0.0 <= eps < 1.0 && s <= 1 && (s == 1 <==> eps != 0.0)
    requires y == Ldexp(m as real + eps, exp + 10 - F) && (sign == 0 || sign == SIGN)
    ensures var h := Packed(F, m, exp, sign, s); h >= sign && IsNearest(y, h - sign)
  {
    ScaleReal(1, F);
    ScaleReal(1, F + 1);
    if exp > 29 {
      TooBig(m as real + eps, F, exp + 10 - F, 40);
      Overflows(y);
    } else if exp < -11 {
      TooSmall(m as real + eps, F, exp + 10 - F);
      Underflows(y);
    } else {
      ShrOne(m, F);
      Fixed2HalfNearest(F, m, exp, sign, s, eps, y);
    }
  }

  lemma InfinityIs(e: nat)
    requires e == 40
    ensures Value(INF) as real == Ldexp(1.0, e)
  {
    PowersOfTwo();
    ScaleAdd(1, 10, e - 10);
    ScaleReal(1, e);
  }

  lemma TooBig(x: real, F: nat, p: int, e: nat)
    requires x >= Ldexp(1.0, F) && F + p >= e == 40
    ensures Ldexp(x, p) >= Value(INF) as real
  {
    LdexpOrder(x, Ldexp(1.0, F), p);
    LdexpAdd(1.0, F, p);
    LdexpMore(1.0, e, F + p);
    InfinityIs(e);
  }

  lemma TooSmall(x: real, F: nat, p: int)
    requires 0.0 <= x < Ldexp(1.0, F + 1) && F + p <= -2
    ensures 0.0 <= 2.0 * Ldexp(x, p) < 1.0
  {
    LdexpOrder(x, Ldexp(1.0, F + 1), p);
    LdexpAdd(1.0, F + 1, p);
    LdexpMore(1.0, F + 1 + p, -1);
    LdexpMore(x, p, p);
  }

  lemma {:induction false} ShrOne(m: nat, F: nat)
    requires Scale(1, F) <= m < Scale(1, F + 1)
    ensures Shr(m, F) == 1
  {
    if F > 0 { ShrOne(m / 2, F - 1); }
  }

  /** Shift a subnormal up until its leading bit is in place (src/half.hpp:2629, 2664-2665, 3225). */
  method Normalise(abs: nat) returns (a: nat, shifts: int)
    requires 0 < abs < INF
    ensures 0x400 <= a < INF && 0 <= shifts <= 10 && (shifts > 0 ==> a < 0x800)
    ensures Value(abs) as real == Ldexp((1024 + a % 1024) as real, a / 1024 - 1 - shifts)
  {
    a, shifts := abs, 0;
    assert Scale(1, 10) == 0x400;
    while a < 0x400
      invariant 0 < a < INF && 0 <= shifts <= 10 && (shifts > 0 ==> a < 0x800 && abs < 0x400)
      invariant shifts == 0 ==> a == abs
      invariant a as real == Ldexp(abs as real, shifts) && a >= Scale(1, shifts)
    {
      a, shifts := 2 * a, shifts + 1;
    }
    if shifts > 0 {
      LdexpAdd(abs as real, shifts, 0 - shifts);
      assert a / 1024 == 1 && 1024 + a % 1024 == a;
    } else {
      ScaleReal(1024 + a % 1024, a / 1024 - 1);
    }
  }

  /** Quieting the first NaN (src/half.hpp:704-710). */
  function Signal(x: nat, y: nat): nat {
    if x % SIGN > INF then Quiet(x) else Quiet(y)
  }

  /** `x | 0x200` */
  function Quiet(x: nat): (q: nat)
    ensures q / 512 % 2 == 1 && (q == x || q == x + 512)
  {
    if x / 512 % 2 == 1 then x else x + 512
  }

  /** Sign, exponent and payload of `nan`, with the bit that makes it quiet. */
  predicate Quieted(h: nat, nan: nat) {
    h / 1024 == nan / 1024 && h % 512 == nan % 512 && h / 512 % 2 == 1
  }

  lemma SignalIs(x: nat)
    requires x < 0x10000
    ensures Quieted(Quiet(x), x) && (x % SIGN > INF ==> Quiet(x) % SIGN > INF)
  {
  }

  const NAN: nat := 0x7FFF

  /** `h` has the sign `negative` and is the correctly rounded magnitude `y`. */
  ghost predicate RoundsTo(h: nat, negative: bool, y: real) {
    h == (if negative then SIGN else 0) + h % SIGN && IsNearest(y, h % SIGN)
  }

  lemma SignedResult(h: nat, negative: bool, y: real)
    requires var sign := if negative then SIGN else 0; h >= sign && IsNearest(y, h - sign)
    ensures RoundsTo(h, negative, y)
  {
  }

  /** The product of two magnitudes, in units of 2^-24 like they are. */
  ghost function ExactProduct(x: nat, y: nat): real
    requires x <= INF && y <= INF
  {
    Ldexp(Value(x) as real * Value(y) as real, -24)
  }

  /** src/half.hpp:2617-2640 */
  method Multiply(x: nat, y: nat) returns (h: nat)
    requires x < 0x10000 && y < 0x10000
    // a NaN stays that NaN, the first of two, with sign and payload, and is quiet
    ensures x % SIGN > INF || y % SIGN > INF ==>
      h % SIGN > INF && Quieted(h, if x % SIGN > INF then x else y)
    ensures (x % SIGN == INF && y % SIGN == 0) || (x % SIGN == 0 && y % SIGN == INF) ==> h == NAN
    ensures (x % SIGN == INF && 0 < y % SIGN <= INF) || (0 < x % SIGN <= INF && y % SIGN == INF) ==>
      h == (if x / SIGN != y / SIGN then SIGN else 0) + INF
    ensures x % SIGN < INF && y % SIGN < INF ==>
      RoundsTo(h, x / SIGN != y / SIGN, ExactProduct(x % SIGN, y % SIGN))
  {
    hide ExactProduct, IsNearest, Quieted, Quiet;
    var absx, absy := x % SIGN, y % SIGN;
    var sign := if x / SIGN != y / SIGN then SIGN else 0;
    if absx >= INF || absy >= INF {
      if absx > INF || absy > INF {
        SignalIs(if absx > INF then x else y);
        return Signal(x, y);
      }
      if (absx == INF && absy == 0) || (absy == INF && absx == 0) { return NAN; }
      return sign + INF;
    }
    if absx == 0 || absy == 0 {
      ZeroNearest(absx, absy);
      h := sign;
    } else {
      h := Product(absx, absy, sign);
    }
    SignedResult(h, x / SIGN != y / SIGN, ExactProduct(absx, absy));
  }

  /** The product of two finite non-zero magnitudes (src/half.hpp:2629-2638). */
  method Product(absx: nat, absy: nat, sign: nat) returns (h: nat)
    requires 0 < absx < INF && 0 < absy < INF && (sign == 0 || sign == SIGN)
    ensures h >= sign && IsNearest(ExactProduct(absx, absy), h - sign)
  {
    hide ExactProduct, IsNearest, Times, Packed, Value, Ldexp;
    var ax, kx := Normalise(absx);
    var ay, ky := Normalise(absy);
    var mx, my := ax % 0x400 + 0x400, ay % 0x400 + 0x400;
    var m := Times(mx, my);
    var i := m / 0x20_0000;
    var s := if i == 1 then m % 2 else 0;
    var exp := -16 - kx - ky + ax / 0x400 + ay / 0x400 + i;
    var m1 := if i == 1 then m / 2 else m;
    h := Packed(20, m1, exp, sign, s);
    ProductScaled(absx, absy, mx, ax / 0x400 - 1 - kx, my, ay / 0x400 - 1 - ky, m);
    ProductNearest(m, i, m1, s, exp, sign, ExactProduct(absx, absy));
  }

  /** The product of two mantissas in Q1.10, in Q2.20. */
  function Times(mx: nat, my: nat): (m: nat)
    requires 1024 <= mx < 2048 && 1024 <= my < 2048
    ensures 0x10_0000 <= m < 0x40_0000
  {
    MulBounds(mx, my);
    mx * my
  }

  lemma ZeroNearest(x: nat, y: nat)
    requires x <= INF && y <= INF && (x == 0 || y == 0)
    ensures IsNearest(ExactProduct(x, y), 0)
  {
    hide IsNearest, Ldexp;
    var v := Value(x) as real * Value(y) as real;
    assert ExactProduct(x, y) == Ldexp(v, -24);
    assert v == 0.0;
    LdexpZero(-24);
    Underflows(Ldexp(v, -24));
  }

  lemma MulSame(a: real, b: real, c: real, d: real)
    requires a == c && b == d
    ensures a * b == c * d
  {
  }

  lemma ProductScaled(x: nat, y: nat, mx: nat, i: int, my: nat, j: int, m: nat)
    requires 1024 <= mx < 2048 && 1024 <= my < 2048 && m == Times(mx, my) && x <= INF && y <= INF
    requires Value(x) as real == Ldexp(mx as real, i) && Value(y) as real == Ldexp(my as real, j)
    ensures ExactProduct(x, y) == Ldexp(m as real, i + j - 24)
  {
    hide Ldexp, Value;
    var vx, vy := Value(x) as real, Value(y) as real;
    var v := vx * vy;
    assert ExactProduct(x, y) == Ldexp(v, -24);
    ProductIs(vx, vy, mx as real, i, my as real, j, m as real, vx * vy);
  }

  lemma ProductIs(vx: real, vy: real, mx: real, i: int, my: real, j: int, m: real, v: real)
    requires v == vx * vy && m == mx * my && vx == Ldexp(mx, i) && vy == Ldexp(my, j)
    ensures Ldexp(v, -24) == Ldexp(m, i + j - 24)
  {
    MulSame(vx, vy, Ldexp(mx, i), Ldexp(my, j));
    LdexpProduct(mx, i, my, j, m);
    assert v == Ldexp(m, i + j);
    LdexpAdd(m, i + j, -24);
  }

  lemma LdexpShift(m: nat, p: int)
    ensures Ldexp(m as real, p) == Ldexp((m / 2) as real + (m % 2) as real / 2.0, p + 1)
  {
    var x := (m / 2) as real + (m % 2) as real / 2.0;
    assert m as real == x + x;
    LdexpLinear(x, x, p);
    LdexpNext(x, p);
  }

  lemma ProductNearest(m: nat, i: nat, m1: nat, s: nat, exp: int, sign: nat, y: real)
    requires 0x10_0000 <= m < 0x40_0000 && i == m / 0x20_0000 && m1 == (if i == 1 then m / 2 else m)
    requires s == (if i == 1 then m % 2 else 0) && (sign == 0 || sign == SIGN)
    requires y == Ldexp(m as real, exp - i - 10)
    ensures var h := Packed(20, m1, exp, sign, s); h >= sign && IsNearest(y, h - sign)
  {
    hide Packed, IsNearest;
    PowersOfTwo();
    if i == 1 {
      LdexpShift(m, exp - 11);
      PackedNearest(20, m1, exp, sign, s, (m % 2) as real / 2.0, y);
    } else {
      PackedNearest(20, m1, exp, sign, s, 0.0, y);
    }
  }

  lemma MulBounds(a: nat, b: nat)
    requires 1024 <= a < 2048 && 1024 <= b < 2048
    ensures 0x10_0000 <= a * b < 0x40_0000
  {
    MulLe(1024, a, 1024, b);
    MulLe(a, 2047, b, 2047);
  }

  lemma MulLe(a: nat, c: nat, b: nat, d: nat)
    requires a <= c && b <= d
    ensures a * b <= c * d
  {
    assert a * b <= c * b;
    assert c * b <= c * d;
  }

  /** src/half.hpp:2650-2677 */
  method Divide(x: nat, y: nat) returns (h: nat)
    requires x < 0x10000 && y < 0x10000
    // a NaN stays that NaN, the first of two, with sign and payload, and is quiet
    ensures x % SIGN > INF || y % SIGN > INF ==>
      h % SIGN > INF && Quieted(h, if x % SIGN > INF then x else y)
    ensures (x % SIGN == y % SIGN == INF) || (x % SIGN == y % SIGN == 0) ==> h == NAN
    ensures (x % SIGN == INF && y % SIGN < INF) || (0 < x % SIGN < INF && y % SIGN == 0) ==>
      h == (if x / SIGN != y / SIGN then SIGN else 0) + INF
    ensures x % SIGN < INF && y % SIGN == INF ==> h == if x / SIGN != y / SIGN then SIGN else 0
    ensures x % SIGN < INF && 0 < y % SIGN < INF ==>
      RoundsTo(h, x / SIGN != y / SIGN, ExactQuotient(x % SIGN, y % SIGN))
  {
    hide ExactQuotient, IsNearest, Quieted, Quiet;
    var absx, absy := x % SIGN, y % SIGN;
    var sign := if x / SIGN != y / SIGN then SIGN else 0;
    if absx >= INF || absy >= INF {
      if absx > INF || absy > INF {
        SignalIs(if absx > INF then x else y);
        return Signal(x, y);
      }
      if absx == absy { return NAN; }
      return sign + if absx == INF then INF else 0;
    }
    if absx == 0 && absy == 0 { return NAN; }
    if absy == 0 { return sign + INF; }
    if absx == 0 {
      ZeroQuotient(absy);
      h := sign;
    } else {
      h := Quotient(absx, absy, sign);
    }
    SignedResult(h, x / SIGN != y / SIGN, ExactQuotient(absx, absy));
  }

  /** The quotient of two magnitudes, in units of 2^-24 like they are. */
  ghost function ExactQuotient(x: nat, y: nat): real
    requires x <= INF && 0 < y <= INF
  {
    ValuePositive(y);
    Ldexp(Value(x) as real / Value(y) as real, 24)
  }

  lemma ValuePositive(h: nat)
    requires 0 < h <= INF
    ensures Value(h) > 0
  {
    ValueGrows(0, h);
  }

  lemma ZeroQuotient(y: nat)
    requires 0 < y <= INF
    ensures IsNearest(ExactQuotient(0, y), 0)
  {
    hide IsNearest, Ldexp;
    ValuePositive(y);
    var v := Value(0) as real / Value(y) as real;
    assert ExactQuotient(0, y) == Ldexp(v, 24);
    assert v == 0.0;
    LdexpZero(24);
    Underflows(Ldexp(v, 24));
  }

  /** The quotient of two finite non-zero magnitudes (src/half.hpp:2664-2675). */
  method Quotient(absx: nat, absy: nat, sign: nat) returns (h: nat)
    requires 0 < absx < INF && 0 < absy < INF && (sign == 0 || sign == SIGN)
    ensures h >= sign && IsNearest(ExactQuotient(absx, absy), h - sign)
  {
    hide ExactQuotient, IsNearest, Packed, Value, Ldexp;
    var ax, kx := Normalise(absx);
    var ay, ky := Normalise(absy);
    var mx, my := ax % 0x400 + 0x400, ay % 0x400 + 0x400;
    var i := if mx < my then 1 else 0;
    var exp := 14 - kx + ky + ax / 0x400 - ay / 0x400 - i;
    var n, d := mx * (if i == 1 then 0x2000 else 0x1000), my * 2;
    h := Packed(11, n / d, exp, sign, Bit(n % d != 0));
    ghost var eps := DigitsOfQuotient(mx, my, i, n, d);
    QuotientScaled(absx, absy, mx, ax / 0x400 - 1 - kx, my, ay / 0x400 - 1 - ky, i, (n / d) as real + eps);
    PowersOfTwo();
    PackedNearest(11, n / d, exp, sign, Bit(n % d != 0), eps, ExactQuotient(absx, absy));
  }

  /** The integer quotient has twelve bits, and the remainder decides the sticky bit. */
  lemma DigitsOfQuotient(mx: nat, my: nat, i: nat, n: nat, d: nat) returns (eps: real)
    requires 1024 <= mx < 2048 && 1024 <= my < 2048 && i == (if mx < my then 1 else 0)
    requires n == mx * (if i == 1 then 0x2000 else 0x1000) && d == my * 2
    ensures 0x800 <= n / d < 0x1000 && 0.0 <= eps < 1.0 && (n % d != 0 <==> eps != 0.0)
    ensures (n / d) as real + eps == n as real / d as real
  {
    DivBounds(n, d, n / d, 0x800, 0x1000);
    eps := Fraction(n, d, n / d, n % d);
  }

  lemma Cmp(a: real, b: real, c: real, ac: real, bc: real)
    requires c > 0.0 && ac == a * c && bc == b * c
    ensures a < b <==> ac < bc
    ensures a == b <==> ac == bc
  {
    if a < b { assert (b - a) * c > 0.0; }
    if b < a { assert (a - b) * c > 0.0; }
  }

  lemma Fraction(n: nat, d: nat, q: nat, r: nat) returns (eps: real)
    requires d > 0 && n == q * d + r && r < d
    ensures 0.0 <= eps < 1.0 && (r != 0 <==> eps != 0.0) && q as real + eps == n as real / d as real
  {
    eps := r as real / d as real;
    FractionBounds(r as real, d as real, eps);
    SplitQuotient(n as real, q as real, d as real, r as real);
  }

  lemma FractionBounds(r: real, d: real, eps: real)
    requires 0.0 <= r < d && eps == r / d
    ensures 0.0 <= eps < 1.0 && (r == 0.0 <==> eps == 0.0)
  {
    Cmp(eps, 1.0, d, r, d);
    Cmp(0.0, eps, d, 0.0, r);
  }

  lemma DivBounds(n: nat, d: nat, q: nat, low: nat, high: nat)
    requires d > 0 && q == n / d && low * d <= n < high * d
    ensures low <= q < high
  {
    assert n == q * d + n % d;
    if q < low { assert (q + 1) * d <= low * d by { MulLe(q + 1, low, d, d); } }
    if q >= high { MulLe(high, q, d, d); }
  }

  lemma SplitQuotient(n: real, q: real, d: real, r: real)
    requires d > 0.0 && n == q * d + r
    ensures q + r / d == n / d
  {
    assert (q + r / d) * d == q * d + r;
  }

  lemma DivIs(a: real, b: real, q: real)
    requires b > 0.0 && q * b == a
    ensures a / b == q
  {
  }

  lemma QuotientIs(vx: real, vy: real, mx: real, i: int, my: real, j: int)
    requires vx == Ldexp(mx, i) && vy == Ldexp(my, j) && my > 0.0 && vy > 0.0
    ensures vx / vy == Ldexp(mx / my, i - j)
  {
    hide Ldexp;
    assert (mx / my) * my == mx;
    LdexpProduct(mx / my, i - j, my, j, mx);
    MulSame(Ldexp(mx / my, i - j), vy, Ldexp(mx / my, i - j), Ldexp(my, j));
    DivIs(vx, vy, Ldexp(mx / my, i - j));
  }

  /** The shift of the numerator, as a power of two. */
  lemma Raised(mx: nat, my: nat, k: nat)
    requires my > 0 && k <= 1
    ensures (mx * (if k == 1 then 0x2000 else 0x1000)) as real / (my * 2) as real ==
      Ldexp(mx as real / my as real, 11 + k)
  {
    hide Ldexp, Scale;
    var w, p := mx as real / my as real, Scale(1, 11 + k);
    PowersOfTwo();
    ScaleReal(1, 11 + k);
    LdexpTimes(w, 1.0, 11 + k, w);
    assert w * my as real == mx as real;
    assert p == if k == 1 then 0x1000 else 0x800;
    assert (w * p as real) * (my * 2) as real == (w * my as real) * (2.0 * p as real);
    DivIs((mx * (if k == 1 then 0x2000 else 0x1000)) as real, (my * 2) as real, w * p as real);
  }

  lemma QuotientScaled(x: nat, y: nat, mx: nat, i: int, my: nat, j: int, k: nat, m: real)
    requires x <= INF && 0 < y <= INF && mx > 0 && my > 0 && k <= 1
    requires Value(x) as real == Ldexp(mx as real, i) && Value(y) as real == Ldexp(my as real, j)
    requires m == (mx * (if k == 1 then 0x2000 else 0x1000)) as real / (my * 2) as real
    ensures ExactQuotient(x, y) == Ldexp(m, i - j + 13 - k)
  {
    hide Ldexp, Value;
    ValuePositive(y);
    var v, w := Value(x) as real / Value(y) as real, mx as real / my as real;
    assert ExactQuotient(x, y) == Ldexp(v, 24);
    QuotientIs(Value(x) as real, Value(y) as real, mx as real, i, my as real, j);
    LdexpAdd(w, i - j, 24);
    Raised(mx, my, k);
    LdexpAdd(w, 11 + k, i - j + 13 - k);
  }

  lemma {:induction false} ScaleSquare(j: nat)
    ensures Scale(1, 2 * j) == Scale(1, j) * Scale(1, j)
  {
    if j > 0 {
      ScaleSquare(j - 1);
      assert Scale(1, 2 * j) == 4 * Scale(1, 2 * (j - 1));
      FourTimes(Scale(1, j - 1));
    }
  }

  lemma FourTimes(w: nat)
    ensures (2 * w) * (2 * w) == 4 * (w * w)
  {
  }

  /** Between two digits of the root: `root` has been found, `w` is the place of the next digit. */
  ghost predicate Rooting(start: nat, root: nat, w: nat, m: nat, r: nat, bit: nat) {
    && start == root * root + r
    && (if bit == 0 then m == root && r <= 2 * m
        else bit == w * w && m == 2 * (root * w) && r < 2 * m + 4 * bit)
  }

  lemma RootDigit(start: nat, root: nat, w: nat, m: nat, r: nat, bit: nat)
    requires bit > 0 && Rooting(start, root, w, m, r, bit) && (w == 1 || w % 2 == 0)
    ensures r < m + bit ==> Rooting(start, root, w / 2, m / 2, r, bit / 4)
    ensures r >= m + bit ==> Rooting(start, root + w, w / 2, m / 2 + bit, r - (m + bit), bit / 4)
  {
    var rw := root * w;
    assert (root + w) * (root + w) == root * root + 2 * rw + w * w;
    assert (root + w) * w == rw + w * w;
    if w > 1 {
      var v := w / 2;
      assert w == 2 * v;
      FourTimes(v);
      assert rw == 2 * (root * v);
      assert (root + w) * w == 2 * ((root + w) * v);
    }
  }

  /** Digit-by-digit square root (src/half.hpp:1480-1497): for every even `F` the floor of the root of the
      radicand, shifted to an even exponent, and the exact remainder. */
  method SqrtFixed(F: nat, radicand: nat, exponent: int) returns (m: nat, r: nat, exp: int)
    requires F % 2 == 0 && radicand * (1 + exponent % 2) < Scale(1, F + 2)
    ensures m * m + r == radicand * (1 + exponent % 2) && r <= 2 * m
    ensures 2 * exp + exponent % 2 == exponent
  {
    var i := exponent % 2;
    m, r := SqrtDigits(F, radicand * (1 + i));
    exp := (exponent - i) / 2;
  }

  method SqrtDigits(F: nat, start: nat) returns (m: nat, r: nat)
    requires F % 2 == 0 && start < Scale(1, F + 2)
    ensures m * m + r == start && r <= 2 * m
  {
    hide Rooting, Scale;
    r, m := start, 0;
    var bit := Scale(1, F);
    ghost var root, j: int, w := 0, F / 2, Scale(1, F / 2);
    RootStart(start, F, w);
    while bit != 0
      invariant Rooting(start, root, w, m, r, bit)
      invariant -1 <= j && bit == (if j < 0 then 0 else Scale(1, 2 * j)) && (j >= 0 ==> w == Scale(1, j))
      decreases j
    {
      NextPlace(j);
      RootDigit(start, root, w, m, r, bit);
      if r < m + bit {
        m := m / 2;
      } else {
        root := root + w;
        m, r := m / 2 + bit, r - (m + bit);
      }
      bit, w, j := bit / 4, w / 2, j - 1;
    }
    RootEnd(start, root, w, m, r);
  }

  lemma RootStart(start: nat, F: nat, w: nat)
    requires F % 2 == 0 && start < Scale(1, F + 2) && w == Scale(1, F / 2)
    ensures Rooting(start, 0, w, 0, start, Scale(1, F))
  {
    ScaleSquare(F / 2);
    assert Scale(1, F + 2) == 4 * Scale(1, F);
  }

  lemma RootEnd(start: nat, root: nat, w: nat, m: nat, r: nat)
    requires Rooting(start, root, w, m, r, 0)
    ensures m * m + r == start && r <= 2 * m
  {
  }

  lemma NextPlace(j: nat)
    ensures Scale(1, j) == 1 || Scale(1, j) % 2 == 0
    ensures j > 0 ==> Scale(1, 2 * j) / 4 == Scale(1, 2 * (j - 1)) && Scale(1, j) / 2 == Scale(1, j - 1)
    ensures j == 0 ==> Scale(1, 2 * j) / 4 == 0
  {
    hide Scale;
    if j == 0 {
      ScaleOne(1, 2 * j);
      ScaleOne(1, j);
    } else {
      ScaleNext(1, j - 1);
      ScaleNext(1, 2 * (j - 1));
      ScaleNext(1, 2 * (j - 1) + 1);
    }
  }

  lemma ScaleOne(q: nat, e: nat)
    requires e == 0
    ensures Scale(q, e) == q
  {
  }

  lemma ScaleNext(q: nat, e: nat)
    ensures Scale(q, e + 1) == 2 * Scale(q, e)
  {
  }

  /** `y` is the square root of `v`. */
  ghost predicate IsRoot(y: real, v: real) {
    y >= 0.0 && y * y == v
  }

  /** The square of the exact root, in units of the last place, is the radicand. */
  lemma RootScaled(y: real, v: real, mx: nat, p: int, e: int, n: nat) returns (z: real)
    requires IsRoot(y, Ldexp(v, 24)) && v == Ldexp(mx as real, p) && p + 24 - 2 * e == n
    ensures z >= 0.0 && z * z == Scale(mx, n) as real && Ldexp(z, e) == y
  {
    hide Ldexp, Scale;
    var s := Ldexp(v, 24);
    z := Ldexp(y, 0 - e);
    LdexpZero(0 - e);
    LdexpOrder(0.0, y, 0 - e);
    LdexpProduct(y, 0 - e, y, 0 - e, s);
    LdexpAdd(mx as real, p, 24);
    LdexpAdd(mx as real, p + 24, (0 - e) + (0 - e));
    ScaleReal(mx, n);
    LdexpAdd(y, 0 - e, e);
    LdexpSame(y);
  }

  lemma LdexpSame(x: real)
    ensures Ldexp(x, 0) == x
  {
  }

  /** Comparing the root with m + 1/2 is comparing the remainder with m, and they are never equal. */
  lemma RootGuard(z: real, m: nat, r: nat)
    requires z >= 0.0 && z * z == (m * m + r) as real && r <= 2 * m
    ensures m as real <= z < (m + 1) as real
    ensures 2.0 * z < (2 * m + 1) as real <==> r <= m
    ensures 2.0 * z != (2 * m + 1) as real
  {
    var c, zz := m as real, z * z;
    var cc := SquareOf(m);
    PlusOne(c, cc);
    PlusHalf(c, cc);
    SquareOrder(z, c, zz, cc);
    SquareOrder(z, c + 1.0, zz, cc + 2.0 * c + 1.0);
    SquareOrder(z, c + 0.5, zz, cc + c + 0.25);
  }

  lemma SquareOf(m: nat) returns (cc: real)
    ensures cc == (m * m) as real && cc == m as real * m as real
  {
    cc := (m * m) as real;
  }

  lemma PlusOne(c: real, cc: real)
    requires cc == c * c
    ensures (c + 1.0) * (c + 1.0) == cc + 2.0 * c + 1.0
  {
  }

  lemma PlusHalf(c: real, cc: real)
    requires cc == c * c
    ensures (c + 0.5) * (c + 0.5) == cc + c + 0.25
  {
  }

  lemma SquareOrder(a: real, b: real, aa: real, bb: real)
    requires a >= 0.0 && b >= 0.0 && aa == a * a && bb == b * b
    ensures a < b <==> aa < bb
    ensures a == b <==> aa == bb
  {
    if a < b { assert aa <= a * b && a * b < bb; }
    if b < a { assert bb <= a * b && a * b < aa; }
  }

  /** src/half.hpp:3217-3229: for a positive finite half the correctly rounded square root, which is never
      halfway between two halves. */
  method Sqrt(arg: nat) returns (h: nat)
    requires arg < 0x10000
    ensures arg % SIGN > INF ==> h % SIGN > INF && Quieted(h, arg)
    ensures arg > SIGN && arg % SIGN <= INF ==> h == NAN
    ensures arg % SIGN == 0 || arg == INF ==> h == arg
    ensures 0 < arg < INF ==> BracketsRoot(h, Scale(Value(arg), 24))
    ensures 0 < arg < INF ==> RoundsRoot(h, Ldexp(Value(arg) as real, 24))
  {
    hide Value, Ldexp, IsRoot, IsNearest, RoundsRoot, NeverTie, BracketsRoot, Scale;
    var abs := arg % SIGN;
    SignalIs(arg);
    if abs == 0 || arg >= INF {
      return if abs > INF then Quiet(arg) else if arg > SIGN then NAN else arg;
    }
    h := Root(abs);
  }

  method Root(abs: nat) returns (h: nat)
    requires 0 < abs < INF
    ensures BracketsRoot(h, Scale(Value(abs), 24))
    ensures RoundsRoot(h, Ldexp(Value(abs) as real, 24))
  {
    hide Value, Ldexp, IsRoot, IsNearest, RoundsRoot, NeverTie, BracketsRoot, Scale;
    var a, k := Normalise(abs);
    var mx := a % 0x400 + 0x400;
    var exponent := 15 - k + a / 0x400;
    RadicandFits(mx, exponent % 2);
    var m, r, exp := SqrtFixed(20, mx * 0x400, exponent);
    RadicandIs(mx, exponent % 2);
    RootBits(m, r, Scale(mx, 10 + exponent % 2));
    RootFields(a, k, exponent, m, exp);
    h := Rounded(exp * 1024 + m % 0x400, Bit(r > m), Bit(r != 0));
    RootOf(Value(abs), mx, a / 0x400 - 1 - k, exp - 1, 10 + exponent % 2, m, r);
  }

  /** The fields of the root, and where its last place lies. */
  lemma RootFields(a: nat, k: int, exponent: int, m: nat, exp: int)
    requires 0x400 <= a < INF && 0 <= k <= 10 && exponent == 15 - k + a / 0x400
    requires 2 * exp + exponent % 2 == exponent && 1024 <= m < 2048
    ensures exp >= 1 && (exp - 1) * 1024 + m + 1 < INF && exp * 1024 + m % 0x400 == (exp - 1) * 1024 + m
    ensures a / 0x400 - 1 - k + 24 - 2 * (exp - 1) == 10 + exponent % 2
  {
  }

  lemma RootOf(v: nat, mx: nat, p: int, e: nat, n: nat, m: nat, r: nat)
    requires v as real == Ldexp(mx as real, p) && p + 24 - 2 * e == n
    requires m * m + r == Scale(mx, n) && r <= 2 * m && 1024 <= m < 2048 && e * 1024 + m + 1 < INF
    ensures var h := Rounded(e * 1024 + m, Bit(r > m), Bit(r != 0));
      BracketsRoot(h, Scale(v, 24)) && RoundsRoot(h, Ldexp(v as real, 24))
  {
    hide IsRoot, Ldexp, Scale, IsNearest, NeverTie, BracketsRoot;
    RadicandScaled(v, mx, p, e, n);
    RootBrackets(Scale(v, 24), m, r, e);
    var h := Rounded(e * 1024 + m, Bit(r > m), Bit(r != 0));
    forall y | IsRoot(y, Ldexp(v as real, 24))
      ensures IsNearest(y, h) && NeverTie(y)
    {
      RootIsNearest(y, v as real, mx, p, e, n, m, r);
    }
  }

  /** `h` is the correctly rounded square root of `v`, and the exact one is not a tie. */
  ghost predicate RoundsRoot(h: nat, v: real) {
    forall y :: IsRoot(y, v) ==> IsNearest(y, h) && NeverTie(y)
  }

  /** The root of `n` lies strictly between the midpoints on either side of `h`: rounding it gives `h`, and no
      tie is met. */
  ghost predicate BracketsRoot(h: nat, n: nat) {
    0 < h < INF &&
    (var below, above := Value(h - 1) + Value(h), Value(h) + Value(h + 1);
     below * below < 4 * n < above * above)
  }

  lemma RadicandScaled(v: nat, mx: nat, p: int, e: nat, n: nat)
    requires v as real == Ldexp(mx as real, p) && p + 24 - 2 * e == n
    ensures Scale(v, 24) == Scale(Scale(mx, n), 2 * e)
  {
    hide Scale, Ldexp;
    ScaleReal(v, 24);
    LdexpAdd(mx as real, p, 24);
    ScaleReal(mx, n + 2 * e);
    ScaleAdd(mx, n, 2 * e);
  }

  lemma RootBrackets(n: nat, m: nat, r: nat, e: nat)
    requires n == Scale(m * m + r, 2 * e) && r <= 2 * m && 1024 <= m < 2048 && e * 1024 + m + 1 < INF
    ensures BracketsRoot(Rounded(e * 1024 + m, Bit(r > m), Bit(r != 0)), n)
  {
    hide Scale, Value;
    var c := m + Bit(r > m);
    var h := e * 1024 + c;
    Midpoints(m, r, c);
    Neighbours(c, e);
    ScaleOrder(4 * (m * m + r), (2 * c + 1) * (2 * c + 1), 2 * e);
    ScaleFour(m * m + r, 2 * e);
    ScaleProduct(2 * c + 1, e);
    SquareLe(Scale(2 * c + 1, e), Value(h) + Value(h + 1));
    var low := if c == 1024 then 2 * c else 2 * c - 1;
    ScaleProduct(low, e);
    ScaleAtMost(low * low, 4 * (m * m + r), 2 * e);
    if c == 1024 {
      SquareLess(Value(h - 1) + Value(h), Scale(low, e));
    } else {
      ScaleOrder(low * low, 4 * (m * m + r), 2 * e);
    }
  }

  /** The midpoints around the rounded root, squared. */
  lemma Midpoints(m: nat, r: nat, c: nat)
    requires m > 0 && r <= 2 * m && c == m + Bit(r > m)
    ensures (2 * c - 1) * (2 * c - 1) < 4 * (m * m + r) < (2 * c + 1) * (2 * c + 1)
    ensures c == m ==> (2 * c) * (2 * c) <= 4 * (m * m + r)
  {
    var mm := m * m;
    if r > m {
      assert (2 * c - 1) * (2 * c - 1) == 4 * mm + 4 * m + 1;
      assert (2 * c + 1) * (2 * c + 1) == 4 * mm + 12 * m + 9;
    } else {
      assert (2 * c - 1) * (2 * c - 1) == 4 * mm - 4 * m + 1;
      assert (2 * c + 1) * (2 * c + 1) == 4 * mm + 4 * m + 1;
    }
  }

  /** The values next to that of a mantissa of eleven bits. */
  lemma Neighbours(c: nat, e: nat)
    requires 1024 <= c <= 2048 && e * 1024 + c < INF
    ensures var h := e * 1024 + c;
      && Value(h) + Value(h + 1) >= Scale(2 * c + 1, e)
      && (if c == 1024 then Value(h - 1) + Value(h) < Scale(2 * c, e)
          else Value(h - 1) + Value(h) == Scale(2 * c - 1, e))
  {
    hide Value;
    var h := e * 1024 + c;
    ValueAt(e, c);
    ScaleSum(c, c + 1, e);
    if c < 2048 {
      ValueAt(e, c + 1);
    } else {
      ValueAt(e + 1, 1025);
      ScaleDouble(1025, e);
      ScaleOrder(c + 1, c + 2, e);
    }
    if c == 1024 {
      ValueStep(h - 1);
      ScaleSum(c, c, e);
    } else {
      ValueAt(e, c - 1);
      ScaleSum(c - 1, c, e);
    }
  }

  lemma {:induction false} ScaleSum(a: nat, b: nat, e: nat)
    ensures Scale(a + b, e) == Scale(a, e) + Scale(b, e)
  {
    if e > 0 { ScaleSum(a, b, e - 1); }
  }

  lemma ScaleFour(q: nat, e: nat)
    ensures Scale(4 * q, e) == 4 * Scale(q, e)
  {
    ScaleDouble(q, e);
    ScaleDouble(2 * q, e);
  }

  lemma {:induction false} ScaleOrder(a: nat, b: nat, e: nat)
    requires a < b
    ensures Scale(a, e) < Scale(b, e)
  {
    if e > 0 { ScaleOrder(a, b, e - 1); }
  }

  lemma ScaleAtMost(a: nat, b: nat, e: nat)
    requires a <= b
    ensures Scale(a, e) <= Scale(b, e)
  {
    if a < b { ScaleOrder(a, b, e); }
  }

  lemma {:induction false} ScaleProduct(a: nat, e: nat)
    ensures Scale(a, e) * Scale(a, e) == Scale(a * a, 2 * e)
  {
    if e > 0 {
      ScaleProduct(a, e - 1);
      assert Scale(a * a, 2 * e) == 4 * Scale(a * a, 2 * (e - 1));
      FourTimes(Scale(a, e - 1));
    }
  }

  lemma SquareLess(a: nat, b: nat)
    requires a < b
    ensures a * a < b * b
  {
    MulLe(a, b, a, b - 1);
    assert b * (b - 1) == b * b - b;
  }

  lemma SquareLe(a: nat, b: nat)
    requires a <= b
    ensures a * a <= b * b
  {
    MulLe(a, b, a, b);
  }

  /** `y` is not halfway between two neighbouring halves. */
  ghost predicate NeverTie(y: real) {
    forall g :: 0 <= g < INF ==> 2.0 * y != (Value(g) + Value(g + 1)) as real
  }

  lemma RootIsNearest(y: real, v: real, mx: nat, p: int, e: nat, n: nat, m: nat, r: nat)
    requires IsRoot(y, Ldexp(v, 24)) && v == Ldexp(mx as real, p) && p + 24 - 2 * e == n
    requires m * m + r == Scale(mx, n) && r <= 2 * m && 1024 <= m < 2048 && e * 1024 + m < INF
    ensures IsNearest(y, Rounded(e * 1024 + m, Bit(r > m), Bit(r != 0))) && NeverTie(y)
  {
    hide IsRoot, Ldexp, Scale, IsNearest, NeverTie;
    var z := RootScaled(y, v, mx, p, e, n);
    RootGuard(z, m, r);
    RootNearest(y, z, m, r, e);
  }

  lemma RadicandIs(mx: nat, i: nat)
    requires i <= 1
    ensures Scale(mx, 10 + i) == mx * 0x400 * (1 + i)
  {
    hide Scale;
    PowersOfTwo();
    ScaleTimes(mx, 10);
    ScaleNext(mx, 10);
  }

  lemma {:induction false} ScaleTimes(q: nat, e: nat)
    ensures Scale(q, e) == q * Scale(1, e)
  {
    if e > 0 { ScaleTimes(q, e - 1); }
  }

  lemma RadicandFits(mx: nat, i: nat)
    requires 1024 <= mx < 2048 && i <= 1
    ensures 0x10_0000 <= mx * 0x400 * (1 + i) < Scale(1, 22)
  {
    PowersOfTwo();
    ScaleNext(1, 21);
  }

  lemma RootBits(m: nat, r: nat, start: nat)
    requires m * m + r == start && r <= 2 * m && 0x10_0000 <= start < 0x40_0000
    ensures 1024 <= m < 2048
  {
    if m < 1024 { MulLe(m, 1023, m, 1023); }
    if m >= 2048 { MulLe(2048, m, 2048, m); }
  }

  lemma RootNearest(y: real, z: real, m: nat, r: nat, e: nat)
    requires y == Ldexp(z, e) && 1024 <= m < 2048 && e * 1024 + m < INF && r <= 2 * m
    requires m as real <= z < (m + 1) as real && 2.0 * z != (2 * m + 1) as real
    requires 2.0 * z < (2 * m + 1) as real <==> r <= m
    ensures IsNearest(y, Rounded(e * 1024 + m, Bit(r > m), Bit(r != 0)))
    ensures NeverTie(y)
  {
    hide Ldexp;
    var h := e * 1024 + m;
    Position(z, m, e);
    ValueAt(e, m);
    ValueAt(e, m + 1);
    RoundFromPosition(y, h, Bit(r > m), Bit(r != 0));
    forall g | 0 <= g < INF ensures 2.0 * y != (Value(g) + Value(g + 1)) as real {
      if g < h { ValueGrows(g, h); if g + 1 < h { ValueGrows(g + 1, h); } }
      if h < g { ValueGrows(h + 1, g + 1); if h + 1 < g { ValueGrows(h + 1, g); } }
    }
  }
}
