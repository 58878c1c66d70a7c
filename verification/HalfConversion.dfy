/** Conversions between half and double precision (src/half.hpp:995-1021, 1259-1277).  A double is the
    two 32-bit words of its IEEE 754 encoding. */
module HalfConversion {
  import opened HalfSpec
  import opened HalfArithmetic

  const WORD: nat := 0x1_0000_0000
  const WORD_SIGN: nat := 0x8000_0000
  const DOUBLE_INF: nat := 0x7FF0_0000

  /** The magnitude of a finite double, in units of 2^-24: a 52-bit fraction below an implicit leading bit. */
  ghost function DoubleMagnitude(hi: nat, lo: nat): real {
    var exponent, fraction := hi / 0x10_0000, hi % 0x10_0000 * WORD + lo;
    if exponent == 0 then Ldexp(fraction as real, -1074 + 24)
    else Ldexp((0x10_0000 * WORD + fraction) as real, exponent - 1075 + 24)
  }

  /** src/half.hpp:995-1021 */
  function DoubleToHalf(dhi: nat, lo: nat): nat
    requires dhi < WORD && lo < WORD
  {
    var sign := if dhi >= WORD_SIGN then SIGN else 0;
    var hi := dhi % WORD_SIGN;
    if hi >= DOUBLE_INF then
      sign + INF + if dhi % 0x10_0000 != 0 || lo != 0 then Quiet(hi / 0x400 % 0x400) else 0
    else if hi >= 0x40F0_0000 then sign + INF
    else if hi >= 0x3F10_0000 then
      Rounded(sign + (hi / 0x10_0000 - 1008) * 1024 + hi / 0x400 % 0x400, hi / 0x200 % 2,
              Bit(hi % 0x200 != 0 || lo != 0))
    else if hi >= 0x3E60_0000 then
      var i := 1018 - hi / 0x10_0000;
      var m := hi % 0x10_0000 + 0x10_0000;
      Rounded(sign + Shr(m, i + 1), Shr(m, i) % 2, Bit(Low(m, i) != 0 || lo != 0))
    else sign
  }

  /** Both rounding branches are the generic rounding of the upper word with the lower one as sticky bit. */
  lemma IsFixed2Half(hi: nat, lo: nat, sign: nat)
    requires 0x3E60_0000 <= hi < 0x40F0_0000 && lo < WORD
    ensures var exp, m := hi / 0x10_0000 - 1009, hi % 0x10_0000 + 0x10_0000;
      Fixed2Half(20, m, exp, sign, Bit(lo != 0)) ==
        if hi >= 0x3F10_0000 then
          Rounded(sign + (hi / 0x10_0000 - 1008) * 1024 + hi / 0x400 % 0x400, hi / 0x200 % 2,
                  Bit(hi % 0x200 != 0 || lo != 0))
        else
          Rounded(sign + Shr(m, 1019 - hi / 0x10_0000), Shr(m, 1018 - hi / 0x10_0000) % 2,
                  Bit(Low(m, 1018 - hi / 0x10_0000) != 0 || lo != 0))
  {
    hide Shr, Low, Rounded;
    if hi >= 0x3F10_0000 {
      UpperBits(hi % 0x10_0000 + 0x10_0000);
      NormalBits(hi);
    }
  }

  lemma NormalBits(hi: nat)
    ensures var m := hi % 0x10_0000 + 0x10_0000;
      m / 0x400 == 1024 + hi / 0x400 % 0x400 && m / 0x200 % 2 == hi / 0x200 % 2 && m % 0x200 == hi % 0x200
  {
    var e, f := hi / 0x10_0000, hi % 0x10_0000;
    Field(hi, e, f);
    Guard(hi, e, f);
  }

  lemma Field(hi: nat, e: nat, f: nat)
    requires hi == e * 0x10_0000 + f && f < 0x10_0000
    ensures (f + 0x10_0000) / 0x400 == 0x400 + hi / 0x400 % 0x400
  {
    assert hi / 0x400 == e * 0x400 + f / 0x400;
  }

  lemma Guard(hi: nat, e: nat, f: nat)
    requires hi == e * 0x10_0000 + f
    ensures (f + 0x10_0000) / 0x200 % 2 == hi / 0x200 % 2 && (f + 0x10_0000) % 0x200 == hi % 0x200
  {
    assert hi / 0x200 == e * 0x800 + f / 0x200;
    assert (f + 0x10_0000) / 0x200 == 0x800 + f / 0x200;
  }

  lemma UpperBits(m: nat)
    ensures Shr(m, 10) == m / 0x400 && Shr(m, 9) == m / 0x200 && Low(m, 9) == m % 0x200
  {
  }

  lemma WordIs()
    ensures Scale(1, 32) == WORD && Scale(1, 52) == 0x10_0000 * WORD
  {
    PowersOfTwo();
    ScaleAdd(1, 20, 12);
    assert Scale(0x10_0000, 12) == WORD;
    ScaleAdd(1, 32, 20);
    ScaleTimes(WORD, 20);
  }

  lemma WordShift(x: nat, lo: nat, eps: real, y: real)
    requires lo < WORD && y == (x * WORD + lo) as real && eps == lo as real / WORD as real
    ensures y == Ldexp(x as real + eps, 32)
  {
    hide Ldexp, Scale;
    WordIs();
    ScaleReal(1, 32);
    var z := x as real + eps;
    LdexpTimes(z, 1.0, 32, z);
    assert z * WORD as real == y;
  }

  /** Every finite double is converted to the nearest half, ties to even, across the normal, subnormal, underflow
      and overflow ranges. */
  lemma DoubleToHalfNearest(dhi: nat, lo: nat)
    requires dhi < WORD && lo < WORD && dhi % WORD_SIGN < DOUBLE_INF
    ensures RoundsTo(DoubleToHalf(dhi, lo), dhi >= WORD_SIGN, DoubleMagnitude(dhi % WORD_SIGN, lo))
  {
    hide IsNearest, Ldexp, Scale, DoubleToHalf, Packed, RoundsTo;
    var hi, sign := dhi % WORD_SIGN, if dhi >= WORD_SIGN then SIGN else 0;
    var y := DoubleMagnitude(hi, lo);
    IsPacked(dhi, lo, hi, sign);
    if hi / 0x10_0000 == 0 {
      WordIs();
      ScaleReal(1, 52);
      TooSmall((hi * WORD + lo) as real, 51, -1074 + 24);
      Underflows(y);
    } else {
      NormalToHalf(hi, lo, sign, y);
    }
    SignedResult(DoubleToHalf(dhi, lo), dhi >= WORD_SIGN, y);
  }

  /** Infinity stays infinity, and every other NaN stays one, of the same sign, quiet, with the upper nine bits of its
      payload. */
  lemma DoubleToHalfSpecial(dhi: nat, lo: nat)
    requires dhi < WORD && lo < WORD && dhi % WORD_SIGN >= DOUBLE_INF
    ensures var h := DoubleToHalf(dhi, lo);
      && h < 0x10000 && h / SIGN == dhi / WORD_SIGN
      && (h % SIGN == INF <==> dhi % WORD_SIGN == DOUBLE_INF && lo == 0)
      && (h % SIGN > INF <==> dhi % WORD_SIGN > DOUBLE_INF || lo > 0)
      && (h % SIGN > INF ==> h / 512 % 2 == 1 && h % 512 == dhi / 0x400 % 512)
  {
    hide DoubleToHalf, Quiet;
    var s, f := dhi / WORD_SIGN, dhi % WORD_SIGN - DOUBLE_INF;
    PayloadStays(dhi, s, f);
    SignalIs(f / 0x400);
    SpecialBranch(dhi, lo);
    QuietHalf(s, f / 0x400, Quiet(f / 0x400));
  }

  lemma QuietHalf(s: nat, p: nat, q: nat)
    requires s <= 1 && p < 0x400 && Quieted(q, p)
    ensures 512 <= q < 1024 && q % 512 == p % 512
    ensures var h := s * SIGN + INF + q; h / SIGN == s && h % SIGN == INF + q && h / 512 % 2 == 1 && h % 512 == p % 512
    ensures var h := s * SIGN + INF; h / SIGN == s && h % SIGN == INF
  {
  }

  lemma SpecialBranch(dhi: nat, lo: nat)
    requires dhi < WORD && lo < WORD && dhi % WORD_SIGN >= DOUBLE_INF
    ensures DoubleToHalf(dhi, lo) == (if dhi >= WORD_SIGN then SIGN else 0) + INF +
      if dhi % 0x10_0000 != 0 || lo != 0 then Quiet(dhi % WORD_SIGN / 0x400 % 0x400) else 0
  {
    hide Shr, Low, Rounded, Bit, Quiet;
  }

  lemma PayloadStays(dhi: nat, s: nat, f: nat)
    requires dhi == s * WORD_SIGN + DOUBLE_INF + f && f < 0x10_0000
    ensures dhi % 0x10_0000 == f && (DOUBLE_INF + f) / 0x400 % 0x400 == f / 0x400 < 0x400
    ensures dhi / 0x400 % 512 == f / 0x400 % 512
  {
    var p := f / 0x400;
    assert f == p * 0x400 + f % 0x400 && p < 0x400;
    assert dhi / 0x400 == s * 0x20_0000 + 0x1F_FC00 + p;
    assert dhi / 0x400 == 512 * (s * 4096 + 4094) + p;
    assert (DOUBLE_INF + f) / 0x400 == 0x400 * 0x7FF + p;
  }

  /** All the branches for finite doubles are the generic packing. */
  lemma IsPacked(dhi: nat, lo: nat, hi: nat, sign: nat)
    requires dhi < WORD && lo < WORD && hi == dhi % WORD_SIGN < DOUBLE_INF
    requires sign == if dhi >= WORD_SIGN then SIGN else 0
    ensures hi < 0x10_0000 ==> DoubleToHalf(dhi, lo) == sign
    ensures hi >= 0x10_0000 ==>
      DoubleToHalf(dhi, lo) == Packed(20, hi % 0x10_0000 + 0x10_0000, hi / 0x10_0000 - 1009, sign, Bit(lo != 0))
  {
    hide Shr, Low, Rounded, Fixed2Half;
    if 0x3E60_0000 <= hi < 0x40F0_0000 { IsFixed2Half(hi, lo, sign); }
  }

  lemma NormalToHalf(hi: nat, lo: nat, sign: nat, y: real)
    requires 0x10_0000 <= hi < DOUBLE_INF && lo < WORD && y == DoubleMagnitude(hi, lo) && (sign == 0 || sign == SIGN)
    ensures var h := Packed(20, hi % 0x10_0000 + 0x10_0000, hi / 0x10_0000 - 1009, sign, Bit(lo != 0));
      h >= sign && IsNearest(y, h - sign)
  {
    hide IsNearest, Ldexp, Scale, Packed;
    var m, e := hi % 0x10_0000 + 0x10_0000, hi / 0x10_0000;
    var eps := lo as real / WORD as real;
    var x := (0x10_0000 * WORD + (hi % 0x10_0000 * WORD + lo)) as real;
    WordShift(m, lo, eps, x);
    LdexpAdd(m as real + eps, 32, e - 1051);
    PowersOfTwo();
    PackedNearest(20, m, e - 1009, sign, Bit(lo != 0), eps, y);
  }

  /** src/half.hpp:1259-1277; the lower word of the double is zero.  Converting back gives the same half, or the
      quieted one of a NaN. */
  method HalfToDouble(value: nat) returns (hi: nat)
    requires value < 0x10000
    ensures hi < WORD && hi / WORD_SIGN == value / SIGN
    ensures value % SIGN < INF ==>
      hi % WORD_SIGN < DOUBLE_INF && DoubleMagnitude(hi % WORD_SIGN, 0) == Value(value % SIGN) as real
    ensures value % SIGN >= INF ==> hi % WORD_SIGN == DOUBLE_INF + (value % SIGN - INF) * 0x400
    ensures value % SIGN <= INF ==> DoubleToHalf(hi, 0) == value
    ensures value % SIGN > INF ==> Quieted(DoubleToHalf(hi, 0), value)
  {
    hide DoubleMagnitude, Value, DoubleToHalf, Quieted;
    hi := if value >= SIGN then WORD_SIGN else 0;
    var abs := value % SIGN;
    ghost var sign := hi;
    if abs == 0 {
      ZeroThere(sign);
    } else if abs >= INF {
      hi := hi + 0x7E00_0000 + abs * 0x400;
      SpecialThere(value, abs, hi);
    } else {
      var a, k := Normalise(abs);
      hi := hi + 0x3F00_0000 - k * 0x10_0000 + a * 0x400;
      MagnitudeThere(a, k, hi % WORD_SIGN);
    }
    if abs < INF { RoundTrip(value, abs, hi); }
  }

  lemma ZeroThere(sign: nat)
    requires sign == 0 || sign == WORD_SIGN
    ensures DoubleMagnitude(sign % WORD_SIGN, 0) == Value(0) as real
  {
    LdexpZero(-1074 + 24);
  }

  lemma SpecialThere(value: nat, abs: nat, hi: nat)
    requires value < 0x10000 && abs == value % SIGN >= INF
    requires hi == (if value >= SIGN then WORD_SIGN else 0) + 0x7E00_0000 + abs * 0x400
    ensures hi % WORD_SIGN == DOUBLE_INF + (abs - INF) * 0x400
    ensures abs == INF ==> DoubleToHalf(hi, 0) == value
    ensures abs > INF ==> Quieted(DoubleToHalf(hi, 0), value)
  {
    hide Shr, Low, Rounded, Bit, Quiet, Quieted;
    var p := abs - INF;
    SpecialFields(hi, p);
    QuietAbove(p, value - p);
    SignalIs(value);
  }

  lemma SpecialFields(hi: nat, p: nat)
    requires p < 0x400 && (hi == DOUBLE_INF + p * 0x400 || hi == WORD_SIGN + DOUBLE_INF + p * 0x400)
    ensures hi % WORD_SIGN >= DOUBLE_INF && (hi >= WORD_SIGN <==> hi / WORD_SIGN == 1)
    ensures hi % 0x10_0000 == p * 0x400 && hi % WORD_SIGN / 0x400 % 0x400 == p
  {
  }

  lemma QuietAbove(p: nat, base: nat)
    requires base % 0x400 == 0
    ensures Quiet(base + p) == base + Quiet(p)
  {
    var k := base / 0x400;
    assert (base + p) / 512 == 2 * k + p / 512;
  }

  lemma MagnitudeThere(a: nat, k: nat, hi: nat)
    requires 0x400 <= a < INF && k <= 10 && hi == 0x3F00_0000 - k * 0x10_0000 + a * 0x400
    ensures DoubleMagnitude(hi, 0) == Ldexp((1024 + a % 1024) as real, a / 1024 - 1 - k)
  {
    hide Ldexp, Scale;
    var m := 1024 + a % 1024;
    assert hi / 0x10_0000 == 1008 - k + a / 1024 && hi % 0x10_0000 == (a % 1024) * 0x400;
    PowersOfTwo();
    WordShift(m * 0x400, 0, 0.0, (m * 0x400 * WORD) as real);
    ScaleReal(m, 10);
    ScaleTimes(m, 10);
    LdexpAdd(m as real, 10, 32);
    LdexpAdd(m as real, 42, hi / 0x10_0000 - 1051);
  }

  lemma RoundTrip(value: nat, abs: nat, hi: nat)
    requires value < 0x10000 && abs == value % SIGN < INF && hi < WORD && hi / WORD_SIGN == value / SIGN
    requires hi % WORD_SIGN < DOUBLE_INF && DoubleMagnitude(hi % WORD_SIGN, 0) == Value(abs) as real
    ensures DoubleToHalf(hi, 0) == value
  {
    hide IsNearest, Value, DoubleMagnitude, DoubleToHalf;
    DoubleToHalfNearest(hi, 0);
    Exact(abs);
    NearestUnique(Value(abs) as real, DoubleToHalf(hi, 0) % SIGN, abs);
  }
}
